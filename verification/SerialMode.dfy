/** With parallel dispatch off, a plan has at most one task in focus, and nothing ahead of it could run instead. */
module SerialMode {
  import opened Models
  import opened Matters
  import opened Workflow
  import opened PlanInvariants
  import opened Turns

  /** A task being worked on: running, waiting for the user, or queued again with what the user already said. */
  predicate Focus(p: Plan, i: nat)
    requires i < |p.tasks|
  {
    var t := p.tasks[i];
    t.status.Running? || t.status.WaitingInput? || (t.status.Pending? && t.id in p.drafts)
  }

  predicate CouldRun(p: Plan, i: nat)
    requires i < |p.tasks|
  {
    Runnable(p.tasks, p.tasks[i])
  }

  predicate OneFocus(p: Plan) {
    forall i, j :: 0 <= i < |p.tasks| && 0 <= j < |p.tasks| && Focus(p, i) && Focus(p, j) ==> i == j
  }

  predicate NothingAhead(p: Plan) {
    forall i, j :: 0 <= j < i < |p.tasks| && Focus(p, i) ==> !CouldRun(p, j)
  }

  predicate SerialOK(p: Plan) {
    OneFocus(p) && NothingAhead(p)
  }

  predicate SerialInv(c: Conversation) {
    SerialOK(c.current) && forall p <- c.shelved :: SerialOK(p)
  }

  /** Focus only narrows, and nothing becomes runnable except the task in focus. */
  lemma NarrowingKeeps(p: Plan, q: Plan)
    requires SerialOK(p) && |q.tasks| == |p.tasks|
    requires forall i :: 0 <= i < |p.tasks| && Focus(q, i) ==> Focus(p, i)
    requires forall i :: 0 <= i < |p.tasks| && CouldRun(q, i) ==> CouldRun(p, i) || Focus(p, i)
    ensures SerialOK(q)
  {}

  lemma SameCompleted(a: seq<Task>, b: seq<Task>)
    requires SameGraph(a, b) && forall i :: 0 <= i < |a| ==> (a[i].status.Completed? <==> b[i].status.Completed?)
    ensures CompletedIds(a) == CompletedIds(b)
  {
    CompletedSubset(a, b);
    CompletedSubset(b, a);
  }

  lemma CompletedSubset(a: seq<Task>, b: seq<Task>)
    requires KeepsCompleted(a, b)
    ensures CompletedIds(a) <= CompletedIds(b)
  {
    forall x | x in CompletedIds(a)
      ensures x in CompletedIds(b)
    {
      var t :| t in a && t.id == x && t.status.Completed?;
      var i :| 0 <= i < |a| && a[i] == t;
      assert b[i] in b;
    }
  }

  lemma RecoverIsSerial(p: Plan)
    requires SerialOK(p)
    ensures SerialOK(Recover(p))
  {
    var q := Recover(p);
    SameCompleted(p.tasks, q.tasks);
    NarrowingKeeps(p, q);
  }

  lemma RequeueIsSerial(p: Plan)
    requires SerialOK(p)
    ensures SerialOK(RequeueWaiting(p))
  {
    var q := RequeueWaiting(p);
    SameCompleted(p.tasks, q.tasks);
    NarrowingKeeps(p, q);
  }

  lemma ReviseIsSerial(p: Plan, revisions: seq<TaskRevision>, said: string)
    requires SerialOK(p)
    ensures SerialOK(RevisePlan(p, revisions, said))
  {
    var q := RevisePlan(p, revisions, said);
    SameCompleted(p.tasks, q.tasks);
    NarrowingKeeps(p, q);
  }

  lemma DropIsSerial(p: Plan, q: Plan)
    requires SerialOK(p) && OnlyDrops(p.tasks, q.tasks) && q.drafts.Keys <= p.drafts.Keys
    ensures SerialOK(q)
  {
    SameCompleted(p.tasks, q.tasks);
    NarrowingKeeps(p, q);
  }

  lemma TakingInIsSerial(p: Plan, q: Plan, k: nat)
    requires UniqueIds(p.tasks) && SerialOK(p) && TakesIn(p, q, k)
    ensures SerialOK(q)
  {
    OnlyOneChanges(p.tasks, k);
    assert Focus(p, k);
    if q.tasks[k].status.Completed? {
      forall i | 0 <= i < |q.tasks|
        ensures !Focus(q, i)
      {
        assert i != k ==> !Focus(p, i) && p.tasks[i].id != p.tasks[k].id;
      }
    } else {
      SameCompleted(p.tasks, q.tasks);
      NarrowingKeeps(p, q);
    }
  }

  // ---- Choosing one task ----------------------------------------------------------------------

  lemma {:induction false} FirstRunnableAmong(all: seq<Task>, some: seq<Task>, i: nat)
    requires i < |some| && Runnable(all, some[i]) && forall j :: 0 <= j < i ==> !Runnable(all, some[j])
    ensures RunnableAmong(all, some) != [] && RunnableAmong(all, some)[0] == some[i]
    decreases |some|
  {
    if i > 0 {
      FirstRunnableAmong(all, some[1..], i - 1);
    }
  }

  lemma {:induction false} FirstRunnableIndex(all: seq<Task>, some: seq<Task>) returns (i: nat)
    requires RunnableAmong(all, some) != []
    ensures i < |some| && RunnableAmong(all, some)[0] == some[i]
    ensures Runnable(all, some[i]) && forall j :: 0 <= j < i ==> !Runnable(all, some[j])
    decreases |some|
  {
    if Runnable(all, some[0]) {
      i := 0;
    } else {
      var k := FirstRunnableIndex(all, some[1..]);
      i := k + 1;
    }
  }

  /** The task in focus is the one dispatched. */
  lemma FocusGoesFirst(p: Plan, i: nat)
    requires TasksOK(p) && SerialOK(p) && No(p, Running) && No(p, WaitingInput) && i < |p.tasks| && Focus(p, i)
    ensures Selected(false, p.tasks) == [p.tasks[i]]
  {
    assert TaskOK(p, i);
    forall j | 0 <= j < i
      ensures !Runnable(p.tasks, p.tasks[j])
    {
      assert !CouldRun(p, j);
    }
    FirstRunnableAmong(p.tasks, p.tasks, i);
  }

  /** Only the first runnable task starts; it is the focus if there was one. */
  lemma OneStarts(p: Plan) returns (i: nat)
    requires UniqueIds(p.tasks) && TasksOK(p) && SerialOK(p) && No(p, Running) && No(p, WaitingInput)
    requires Selected(false, p.tasks) != []
    ensures i < |p.tasks| && CouldRun(p, i) && forall j :: 0 <= j < i ==> !CouldRun(p, j)
    ensures MarkRunning(p.tasks, Ids(Selected(false, p.tasks))) == p.tasks[i := p.tasks[i].(status := Running)]
    ensures forall k :: 0 <= k < |p.tasks| && Focus(p, k) ==> k == i
  {
    var chosen := Selected(false, p.tasks);
    i := FirstRunnableIndex(p.tasks, p.tasks);
    assert chosen == [p.tasks[i]];
    assert Ids(chosen) == {p.tasks[i].id} by {
      assert p.tasks[i] in chosen;
    }
    OnlyOneChanges(p.tasks, i);
    forall k | 0 <= k < |p.tasks| && Focus(p, k)
      ensures k == i
    {
      FocusGoesFirst(p, k);
      assert p.tasks[k].id == p.tasks[i].id;
    }
  }

  lemma SelectingIsSerial(p: Plan)
    requires UniqueIds(p.tasks) && TasksOK(p) && SerialOK(p) && No(p, Running) && No(p, WaitingInput)
    requires Selected(false, p.tasks) != []
    ensures var q := p.(tasks := MarkRunning(p.tasks, Ids(Selected(false, p.tasks))));
            SerialOK(q) && NoQueuedDraft(q)
  {
    var i := OneStarts(p);
    var q := p.(tasks := p.tasks[i := p.tasks[i].(status := Running)]);
    SameCompleted(p.tasks, q.tasks);
    forall k | 0 <= k < |q.tasks|
      ensures (Focus(q, k) ==> k == i) && (CouldRun(q, k) ==> CouldRun(p, k))
      ensures q.tasks[k].status.Pending? ==> q.tasks[k].id !in q.drafts
    {
      assert k != i ==> q.tasks[k] == p.tasks[k] && !Focus(p, k);
    }
  }

  lemma SelectingLeavesNoDraft(p: Plan)
    requires UniqueIds(p.tasks) && TasksOK(p)
    ensures NoQueuedDraft(p.(tasks := MarkRunning(p.tasks, Ids(Selected(true, p.tasks)))))
  {
    var chosen := Selected(true, p.tasks);
    var q := p.(tasks := MarkRunning(p.tasks, Ids(chosen)));
    forall i | 0 <= i < |q.tasks|
      ensures q.tasks[i].status.Pending? ==> q.tasks[i].id !in q.drafts
    {
      assert TaskOK(p, i);
      if p.tasks[i].status.Pending? && p.tasks[i].id in p.drafts {
        assert p.tasks[i] in chosen;
      }
    }
  }

  // ---- Every event --------------------------------------------------------------------------

  lemma {:induction false} MergingIsSerial(base: Plan, m: MergeState, results: seq<DomainTaskResult>)
    requires PlanInv(PlanView(base, m)) && NoQueuedDraft(PlanView(base, m)) && SerialOK(PlanView(base, m))
    requires DistinctResults(results) && forall r <- results :: r.WellShaped() && r.taskId in Ids(m.tasks)
    requires RunningAre(m.tasks, ResultIds(results))
    ensures SerialOK(PlanView(base, MergeAll(m, results)))
    decreases |results|
  {
    if results != [] {
      var r := results[0];
      assert r in results && r.taskId in ResultIds(results);
      MergeOneTakesIn(base, m, r);
      TakingInIsSerial(PlanView(base, m), PlanView(base, MergeOne(m, r)), IndexOf(m.tasks, r.taskId));
      MergeOneKeepsIds(m, r);
      RestOfResults(results);
      SettlingLeavesRest(m.tasks, MergeOne(m, r).tasks, IndexOf(m.tasks, r.taskId), ResultIds(results));
      MergingIsSerial(base, MergeOne(m, r), results[1..]);
    }
  }

  lemma BatchIsSerial(c: Conversation, results: seq<DomainTaskResult>)
    requires ConversationInv(c) && SerialInv(c) && Enabled(c, BatchDone(results))
    ensures SerialInv(ApplyBatch(c, results))
  {
    var sorted := SortByPlan(c.current.tasks, results);
    SortingKeeps(c.current.tasks, results);
    assert ResultIds(sorted) == ResultIds(results);
    assert PlanView(c.current, StartMerge(c)) == c.current;
    MergingIsSerial(c.current, StartMerge(c), sorted);
    assert ApplyBatch(c, results).current == PlanView(c.current, MergeAll(StartMerge(c), sorted));
  }

  lemma ResumeIsSerial(c: Conversation, revised: Plan)
    requires SerialInv(c) && SerialOK(revised)
    ensures SerialInv(Resume(c, CurrentOpen(c), revised))
  {
    RequeueIsSerial(revised);
    var c' := Resume(c, CurrentOpen(c), revised);
    assert forall p <- c'.shelved :: p in c.shelved || p == c.current;
  }

  lemma {:induction false} ReplacingIsSerial(c: Conversation, plan: Plan)
    requires SerialInv(c) && SerialOK(plan)
    ensures SerialInv(Replace(c, plan)) && forall p <- ReplacePlan(c.shelved, plan) :: SerialOK(p)
  {
    forall p | p in ReplacePlan(c.shelved, plan)
      ensures SerialOK(p)
    {
      assert p == plan || p in c.shelved;
    }
  }

  lemma CancelIsSerial(c: Conversation, ctx: ContextResolution, target: Plan)
    requires SerialInv(c) && SerialOK(target) && PlanInv(target) && NoQueuedDraft(target) && No(target, Running)
    ensures SerialInv(CancelPlan(c, ctx, target))
  {
    if ChosenToCancel(ctx, target) != {} {
      var isCurrent := target.planId == c.current.planId;
      var abandoned := Abandoned(ctx, target, isCurrent);
      AbandonedOK(ctx, target, isCurrent);
      DropIsSerial(target, abandoned);
      ReplacingIsSerial(c, abandoned);
    }
  }

  lemma UserTurnIsSerial(c: Conversation, ctx: ContextResolution, said: string, freshCurrent: string, freshNew: string)
    requires ConversationInv(c) && SerialInv(c) && Enabled(c, UserTurn(ctx, said, freshCurrent, freshNew))
    ensures SerialInv(Understand(c, ctx, said, freshCurrent, freshNew))
  {
    var o := Opened(c, ctx, freshCurrent);
    OpeningKeeps(c, ctx, freshCurrent);
    NarrowingKeeps(c.current, CurrentPlan(c, freshCurrent));
    RecoverIsSerial(CurrentPlan(c, freshCurrent));
    assert SerialInv(o);
    if TargetOf(o, ctx).Some? {
      TargetIsPresent(o, ctx);
      TargetedTurnIsSerial(o, ctx, said, freshNew, TargetOf(o, ctx).value);
    } else if !ctx.relation.Cancel? && !ctx.relation.Revise? && ctx.requiresPlanning {
      NewMatterIsSerial(o, ctx.standaloneRequest, freshNew);
    }
  }

  lemma TargetedTurnIsSerial(c: Conversation, ctx: ContextResolution, said: string, freshNew: string, target: Plan)
    requires SerialInv(c) && SerialOK(target) && PlanInv(target) && NoQueuedDraft(target) && No(target, Running)
    requires TargetOf(c, ctx) == Some(target)
    ensures SerialInv(Decide(c, ctx, said, freshNew))
  {
    var revised := RevisePlan(target, ctx.revisions, said);
    ReviseIsSerial(target, ctx.revisions, said);
    if ctx.relation.Cancel? {
      CancelIsSerial(c, ctx, target);
    } else if ctx.relation.Continue? || CorrectsWaiting(target, ctx.revisions) {
      ResumeIsSerial(c, revised);
    } else {
      ReplacingIsSerial(c, revised);
    }
  }

  lemma NewMatterIsSerial(c: Conversation, goal: string, freshNew: string)
    requires SerialInv(c)
    ensures SerialInv(c.(current := Plan(freshNew, goal, [], map[], map[]),
                         shelved := if CurrentOpen(c) then c.shelved + [c.current] else c.shelved,
                         phase := Planning))
  {}

  lemma InstallIsSerial(c: Conversation, goal: string, tasks: seq<Task>)
    requires c.phase.Planning? && PhaseOK(c) && SerialInv(c)
    ensures SerialInv(InstallPlan(c, goal, tasks))
  {
    var p := InstallPlan(c, goal, tasks).current;
    assert forall i :: 0 <= i < |p.tasks| ==> !Focus(p, i);
  }
}
