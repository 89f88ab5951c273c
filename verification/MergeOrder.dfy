/** The order in which parallel branches finish leaves no trace: results are taken in by plan order. */
module MergeOrder {
  import opened Models
  import opened Workflow
  import opened Turns

  function Rank(tasks: seq<Task>, r: DomainTaskResult): nat {
    OrderOf(tasks, r.taskId)
  }

  predicate InPlanOrder(tasks: seq<Task>, results: seq<DomainTaskResult>) {
    forall i, j :: 0 <= i < j < |results| ==> Rank(tasks, results[i]) < Rank(tasks, results[j])
  }

  lemma {:induction false} InsertInOrder(tasks: seq<Task>, sorted: seq<DomainTaskResult>, r: DomainTaskResult)
    requires InPlanOrder(tasks, sorted) && forall q <- sorted :: Rank(tasks, q) != Rank(tasks, r)
    ensures InPlanOrder(tasks, InsertResult(tasks, sorted, r))
    ensures forall q :: q in InsertResult(tasks, sorted, r) <==> q in sorted || q == r
  {
    if sorted != [] {
      var init, last := sorted[..|sorted| - 1], sorted[|sorted| - 1];
      assert sorted == init + [last];
      if Rank(tasks, last) > Rank(tasks, r) {
        InsertInOrder(tasks, init, r);
        var inner := InsertResult(tasks, init, r);
        assert forall i :: 0 <= i < |inner| ==> inner[i] in inner;
        assert forall i :: 0 <= i < |init| ==> Rank(tasks, sorted[i]) < Rank(tasks, last);
        assert InsertResult(tasks, sorted, r) == inner + [last];
      }
    }
  }

  lemma {:induction false} SortsStrictly(tasks: seq<Task>, results: seq<DomainTaskResult>)
    requires DistinctResults(results) && forall r <- results :: r.taskId in Ids(tasks)
    ensures InPlanOrder(tasks, SortByPlan(tasks, results))
  {
    if results != [] {
      var init, last := results[..|results| - 1], results[|results| - 1];
      assert results == init + [last];
      SortsStrictly(tasks, init);
      SortingKeeps(tasks, init);
      forall q | q in SortByPlan(tasks, init)
        ensures Rank(tasks, q) != Rank(tasks, last)
      {
        var i :| 0 <= i < |init| && init[i] == q;
        assert results[i].taskId != last.taskId;
      }
      InsertInOrder(tasks, SortByPlan(tasks, init), last);
    }
  }

  lemma LastIsHighest(tasks: seq<Task>, s: seq<DomainTaskResult>, q: DomainTaskResult)
    requires s != [] && InPlanOrder(tasks, s) && q in s
    ensures Rank(tasks, q) <= Rank(tasks, s[|s| - 1])
    ensures q != s[|s| - 1] ==> Rank(tasks, q) < Rank(tasks, s[|s| - 1])
  {
    var i :| 0 <= i < |s| && s[i] == q;
  }

  lemma SameLast(tasks: seq<Task>, s: seq<DomainTaskResult>, t: seq<DomainTaskResult>)
    requires InPlanOrder(tasks, s) && InPlanOrder(tasks, t) && multiset(s) == multiset(t) && s != []
    ensures t != [] && s[|s| - 1] == t[|t| - 1]
  {
    assert s[|s| - 1] in multiset(t);
    assert t[|t| - 1] in multiset(s);
    LastIsHighest(tasks, t, s[|s| - 1]);
    LastIsHighest(tasks, s, t[|t| - 1]);
  }

  lemma DropLast(s: seq<DomainTaskResult>)
    requires s != []
    ensures multiset(s[..|s| - 1]) == multiset(s) - multiset{s[|s| - 1]}
  {
    assert s == s[..|s| - 1] + [s[|s| - 1]];
  }

  lemma {:induction false} OneSortedOrder(tasks: seq<Task>, s: seq<DomainTaskResult>, t: seq<DomainTaskResult>)
    requires InPlanOrder(tasks, s) && InPlanOrder(tasks, t) && multiset(s) == multiset(t)
    ensures s == t
  {
    if s == [] {
      assert |multiset(t)| == |t|;
    } else {
      SameLast(tasks, s, t);
      DropLast(s);
      DropLast(t);
      OneSortedOrder(tasks, s[..|s| - 1], t[..|t| - 1]);
      assert s == s[..|s| - 1] + [s[|s| - 1]];
      assert t == t[..|t| - 1] + [t[|t| - 1]];
    }
  }

  /**
   * The same results in any other order lead to the same conversation: statuses, drafts, answers and messages alike.
   */
  lemma {:induction false} FinishingOrderIsIrrelevant(c: Conversation, a: seq<DomainTaskResult>,
                                                      b: seq<DomainTaskResult>)
    requires DistinctResults(a) && DistinctResults(b) && multiset(a) == multiset(b)
    requires (forall r <- a :: r.taskId in Ids(c.current.tasks)) && forall r <- b :: r.taskId in Ids(c.current.tasks)
    ensures ApplyBatch(c, a) == ApplyBatch(c, b)
  {
    SortsStrictly(c.current.tasks, a);
    SortsStrictly(c.current.tasks, b);
    OneSortedOrder(c.current.tasks, SortByPlan(c.current.tasks, a), SortByPlan(c.current.tasks, b));
  }
}
