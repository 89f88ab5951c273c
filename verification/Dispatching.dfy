/** What a selection dispatches: which tasks, in which order, and with what each request tells the agent. */
module Dispatching {
  import opened Models
  import opened Workflow
  import opened Turns
  import opened Conversations
  import opened Progress

  /** Queued, and everything it depends on has completed. */
  predicate CanStart(tasks: seq<Task>, i: nat)
    requires i < |tasks|
  {
    tasks[i].status.Pending?
    && forall d <- tasks[i].dependsOn :: exists j :: 0 <= j < |tasks| && tasks[j].id == d && tasks[j].status.Completed?
  }

  /** Positions of tasks, in plan order. */
  predicate Positions(tasks: seq<Task>, at: seq<nat>) {
    && (forall k :: 0 <= k < |at| ==> at[k] < |tasks|)
    && forall k, l :: 0 <= k < l < |at| ==> at[k] < at[l]
  }

  /** All tasks that can start, or with serial dispatch the first of them. */
  predicate Chosen(parallel: bool, tasks: seq<Task>, at: seq<nat>) {
    && Positions(tasks, at) && (forall k :: 0 <= k < |at| ==> CanStart(tasks, at[k]))
    && if parallel then forall i :: 0 <= i < |tasks| && CanStart(tasks, i) ==> i in at
       else |at| <= 1 && forall i :: 0 <= i < |tasks| && CanStart(tasks, i) ==> at != [] && at[0] <= i
  }

  /**
   * A request names its task and hands over its draft, the artifacts of its dependencies, and what has become of all
   * other tasks; a task taken up again hears what the user just said, any other the goal of the plan.
   */
  ghost predicate Tells(c: Conversation, after: seq<Task>, i: nat, b: DomainTaskRequest)
    requires i < |c.current.tasks| == |after|
  {
    var t := c.current.tasks[i];
    && b.task == t
    && b.draft == (if t.id in c.current.drafts then Some(c.current.drafts[t.id]) else None)
    && b.userGoal == (if b.draft.Some? then c.context.standaloneRequest else PlanGoal(c.current, c.context))
    && (forall d :: d in b.dependencyResults <==> d in t.dependsOn && d in c.current.artifacts)
    && (forall d <- b.dependencyResults :: b.dependencyResults[d] == c.current.artifacts[d])
    && b.otherTasks == Briefs(after[..i] + after[i + 1..])
  }

  /** The whole step: the chosen tasks are marked and sent out in plan order; without any the turn is over. */
  ghost predicate Dispatches(parallel: bool, c: Conversation, next: Conversation, at: seq<nat>) {
    var before, after := c.current.tasks, next.current.tasks;
    && Chosen(parallel, before, at)
    && next == c.(current := c.current.(tasks := after), phase := next.phase) && |after| == |before|
    && (forall i :: 0 <= i < |before| ==> after[i] == if i in at then before[i].(status := Running) else before[i])
    && if at == [] then next.phase.Idle?
       else next.phase.Executing? && |next.phase.batch| == |at|
            && forall k :: 0 <= k < |at| ==> Tells(c, after, at[k], next.phase.batch[k])
  }

  // ---- Proof ----------------------------------------------------------------------------------

  lemma RunnableIsCanStart(tasks: seq<Task>, i: nat)
    requires i < |tasks|
    ensures Runnable(tasks, tasks[i]) <==> CanStart(tasks, i)
  {
    forall d
      ensures d in CompletedIds(tasks)
              <==> exists j :: 0 <= j < |tasks| && tasks[j].id == d && tasks[j].status.Completed?
    {
      if d in CompletedIds(tasks) {
        var t :| t in tasks && t.id == d && t.status.Completed?;
        var j :| 0 <= j < |tasks| && tasks[j] == t;
      }
      if j :| 0 <= j < |tasks| && tasks[j].id == d && tasks[j].status.Completed? {
        assert tasks[j] in tasks;
      }
    }
  }

  /** `picked` are the marked ones of `tasks`, and `at` their positions. */
  ghost predicate Picks(tasks: seq<Task>, marks: seq<bool>, picked: seq<Task>, at: seq<nat>) {
    && |marks| == |tasks| && |at| == |picked| && Positions(tasks, at)
    && (forall k :: 0 <= k < |at| ==> picked[k] == tasks[at[k]])
    && forall i :: 0 <= i < |tasks| ==> (i in at <==> marks[i])
  }

  /** The same positions, one further on. */
  function OneOn(rest: seq<nat>): (at: seq<nat>)
    ensures |at| == |rest| && forall k :: 0 <= k < |rest| ==> at[k] == rest[k] + 1
  {
    seq(|rest|, k requires 0 <= k < |rest| => rest[k] + 1)
  }

  lemma OneOnHolds(rest: seq<nat>, i: nat)
    ensures i in OneOn(rest) <==> i > 0 && i - 1 in rest
  {
    if i > 0 && i - 1 in rest {
      var k :| 0 <= k < |rest| && rest[k] == i - 1;
      assert OneOn(rest)[k] == i;
    }
  }

  lemma SkippingTheFirst(tasks: seq<Task>, marks: seq<bool>, picked: seq<Task>, rest: seq<nat>)
    requires tasks != [] && |marks| == |tasks| && !marks[0] && Picks(tasks[1..], marks[1..], picked, rest)
    ensures Picks(tasks, marks, picked, OneOn(rest))
  {
    forall i | 0 <= i < |tasks|
      ensures i in OneOn(rest) <==> marks[i]
    {
      OneOnHolds(rest, i);
      assert i > 0 ==> marks[i] == marks[1..][i - 1];
    }
  }

  lemma PickingTheFirst(tasks: seq<Task>, marks: seq<bool>, picked: seq<Task>, rest: seq<nat>)
    requires tasks != [] && |marks| == |tasks| && marks[0] && Picks(tasks[1..], marks[1..], picked, rest)
    ensures Picks(tasks, marks, [tasks[0]] + picked, [0] + OneOn(rest))
  {
    forall i | 0 <= i < |tasks|
      ensures i in [0] + OneOn(rest) <==> marks[i]
    {
      OneOnHolds(rest, i);
      assert i > 0 ==> marks[i] == marks[1..][i - 1];
    }
  }

  lemma {:induction false} RunnablePositions(all: seq<Task>, some: seq<Task>, marks: seq<bool>) returns (at: seq<nat>)
    requires |marks| == |some| && forall i :: 0 <= i < |some| ==> (marks[i] <==> Runnable(all, some[i]))
    ensures Picks(some, marks, RunnableAmong(all, some), at)
  {
    if some == [] {
      at := [];
    } else {
      var picked := RunnableAmong(all, some[1..]);
      var rest := RunnablePositions(all, some[1..], marks[1..]);
      at := OneMorePosition(some, marks, picked, rest);
      assert RunnableAmong(all, some) == (if marks[0] then [some[0]] else []) + picked;
    }
  }

  lemma OneMorePosition(tasks: seq<Task>, marks: seq<bool>, picked: seq<Task>, rest: seq<nat>) returns (at: seq<nat>)
    requires tasks != [] && |marks| == |tasks| && Picks(tasks[1..], marks[1..], picked, rest)
    ensures Picks(tasks, marks, (if marks[0] then [tasks[0]] else []) + picked, at)
  {
    if marks[0] {
      at := [0] + OneOn(rest);
      PickingTheFirst(tasks, marks, picked, rest);
    } else {
      at := OneOn(rest);
      SkippingTheFirst(tasks, marks, picked, rest);
      assert [] + picked == picked;
    }
  }

  lemma SelectionChooses(parallel: bool, tasks: seq<Task>) returns (at: seq<nat>)
    ensures Chosen(parallel, tasks, at) && |at| == |Selected(parallel, tasks)|
    ensures forall k :: 0 <= k < |at| ==> Selected(parallel, tasks)[k] == tasks[at[k]]
  {
    var marks := seq(|tasks|, i requires 0 <= i < |tasks| => Runnable(tasks, tasks[i]));
    var all := RunnablePositions(tasks, tasks, marks);
    forall i | 0 <= i < |tasks|
      ensures i in all <==> CanStart(tasks, i)
    {
      RunnableIsCanStart(tasks, i);
    }
    at := if !parallel && all != [] then all[..1] else all;
    forall k | 0 <= k < |all|
      ensures CanStart(tasks, all[k]) && all[k] >= all[0]
    {
      assert all[k] in all;
    }
  }

  lemma ChosenIds(tasks: seq<Task>, chosen: seq<Task>, at: seq<nat>, i: nat)
    requires UniqueIds(tasks) && Positions(tasks, at) && |chosen| == |at| && i < |tasks|
    requires forall k :: 0 <= k < |at| ==> chosen[k] == tasks[at[k]]
    ensures tasks[i].id in Ids(chosen) <==> i in at
  {
    if tasks[i].id in Ids(chosen) {
      var t :| t in chosen && t.id == tasks[i].id;
      var k :| 0 <= k < |chosen| && chosen[k] == t;
      assert at[k] == i;
    }
    if i in at {
      var k :| 0 <= k < |at| && at[k] == i;
      assert chosen[k] in chosen;
    }
  }

  lemma RequestTells(c: Conversation, after: seq<Task>, i: nat)
    requires UniqueIds(c.current.tasks) && i < |c.current.tasks| == |after|
    requires forall j :: 0 <= j < |after| ==> after[j].id == c.current.tasks[j].id
    ensures Tells(c, after, i, RequestFor(c, after, c.current.tasks[i]))
  {
    BriefsLeaveOutOne(after, i);
  }

  lemma SelectionDispatches(parallel: bool, c: Conversation) returns (at: seq<nat>)
    requires UniqueIds(c.current.tasks)
    ensures Dispatches(parallel, c, SelectTask(parallel, c), at)
  {
    var chosen, next := Selected(parallel, c.current.tasks), SelectTask(parallel, c);
    at := SelectionChooses(parallel, c.current.tasks);
    if at == [] {
      assert c.current.(tasks := next.current.tasks) == c.current;
    } else {
      forall i | 0 <= i < |c.current.tasks|
        ensures c.current.tasks[i].id in Ids(chosen) <==> i in at
      {
        ChosenIds(c.current.tasks, chosen, at, i);
      }
      forall k | 0 <= k < |at|
        ensures Tells(c, next.current.tasks, at[k], next.phase.batch[k])
      {
        RequestTells(c, next.current.tasks, at[k]);
      }
    }
  }

  /** In every conversation, each selection sends out exactly what can start, and tells each agent all of this. */
  lemma SelectionsDispatch(parallel: bool, trace: seq<Conversation>, events: seq<Event>, n: nat) returns (at: seq<nat>)
    requires Run(parallel, trace, events) && StartsFresh(trace) && n < |events| && events[n].Selection?
    ensures Dispatches(parallel, trace[n], trace[n + 1], at)
  {
    RunKeeps(parallel, trace, events, n);
    assert Follows(parallel, trace[n], events[n], trace[n + 1]);
    at := SelectionDispatches(parallel, trace[n]);
  }
}
