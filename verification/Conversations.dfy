/** Properties of whole conversations: any number of turns, batches and dying runs. */
module Conversations {
  import opened Models
  import opened FailurePropagation
  import opened Workflow
  import opened PlanInvariants
  import opened Turns
  import opened SerialMode

  ghost predicate Inv(parallel: bool, c: Conversation) {
    ConversationInv(c) && (!parallel ==> SerialInv(c))
  }

  lemma SelectionKeeps(parallel: bool, c: Conversation)
    requires Inv(parallel, c) && c.phase.Selecting?
    ensures Inv(parallel, SelectTask(parallel, c))
  {
    if Selected(parallel, c.current.tasks) != [] {
      if parallel {
        SelectingLeavesNoDraft(c.current);
      } else {
        SelectingIsSerial(c.current);
      }
      SelectKeeps(parallel, c);
    } else {
      NothingSelectedMeansNothingQueued(parallel, c);
    }
  }

  /** In a plan at rest between batches, a queued task always finds something runnable, itself or before it. */
  lemma {:induction false} NothingSelectedMeansNothingQueued(parallel: bool, c: Conversation)
    requires ConversationInv(c) && c.phase.Selecting? && Selected(parallel, c.current.tasks) == []
    ensures forall t <- c.current.tasks :: Terminal(t)
    ensures NoQueuedDraft(c.current)
  {
    SelectedAreRunnable(parallel, c.current.tasks);
    var tasks := c.current.tasks;
    forall i | 0 <= i < |tasks|
      ensures !Runnable(tasks, tasks[i])
    {
      assert tasks[i] !in RunnableTasks(tasks);
    }
    var order :| TopologicalOrder(tasks, order);
    forall i | 0 <= i < |tasks|
      ensures Terminal(tasks[i])
    {
      assert tasks[i].id in order;
      var k :| 0 <= k < |order| && order[k] == tasks[i].id;
      QueuedMeansRunnable(c.current, order, k, i);
    }
  }

  /** Going through the plan in dependency order, no task can be the first to be queued but not runnable. */
  lemma {:induction false} QueuedMeansRunnable(p: Plan, order: seq<string>, k: nat, i: nat)
    requires TopologicalOrder(p.tasks, order) && ClosedDependencies(p.tasks) && TasksOK(p) && NoPendingBlocked(p.tasks)
    requires No(p, Running) && No(p, WaitingInput)
    requires forall j :: 0 <= j < |p.tasks| ==> !Runnable(p.tasks, p.tasks[j])
    requires k < |order| && i < |p.tasks| && order[k] == p.tasks[i].id
    ensures Terminal(p.tasks[i])
    decreases k
  {
    var t := p.tasks[i];
    assert TaskOK(p, i);
    if t.status.Pending? {
      forall d | d in t.dependsOn
        ensures d in CompletedIds(p.tasks)
      {
        assert d in order[..k] && d in Ids(p.tasks);
        var m :| 0 <= m < k && order[m] == d;
        var u :| u in p.tasks && u.id == d;
        var j :| 0 <= j < |p.tasks| && p.tasks[j] == u;
        QueuedMeansRunnable(p, order, m, j);
      }
    }
  }

  lemma StepKeeps(parallel: bool, c: Conversation, e: Event)
    requires Inv(parallel, c) && Enabled(c, e)
    ensures Inv(parallel, Step(parallel, c, e))
  {
    match e
    case UserTurn(ctx, said, freshCurrent, freshNew) =>
      UserTurnKeeps(c, ctx, said, freshCurrent, freshNew);
      if !parallel { UserTurnIsSerial(c, ctx, said, freshCurrent, freshNew); }
    case PlanWritten(goal, tasks) =>
      InstallKeeps(c, goal, tasks);
      if !parallel { InstallIsSerial(c, goal, tasks); }
    case Selection => SelectionKeeps(parallel, c);
    case BatchDone(results) =>
      BatchKeeps(c, results);
      if !parallel { BatchIsSerial(c, results); }
    case RunDies =>
  }

  // ---- Runs ---------------------------------------------------------------------------------

  /** `trace` visits one state more than there are events, each the step of the one before. */
  ghost predicate Run(parallel: bool, trace: seq<Conversation>, events: seq<Event>) {
    && |trace| == |events| + 1
    && forall i :: 0 <= i < |events| ==> Follows(parallel, trace[i], events[i], trace[i + 1])
  }

  ghost predicate Follows(parallel: bool, c: Conversation, e: Event, c': Conversation) {
    Enabled(c, e) && c' == Step(parallel, c, e)
  }

  ghost predicate StartsFresh(trace: seq<Conversation>) {
    trace != [] && trace[0] == Start(trace[0].context)
  }

  lemma {:induction false} RunKeeps(parallel: bool, trace: seq<Conversation>, events: seq<Event>, n: nat)
    requires Run(parallel, trace, events) && StartsFresh(trace) && n < |trace|
    ensures Inv(parallel, trace[n])
  {
    if n == 0 {
      StartOK(trace[0].context);
    } else {
      RunKeeps(parallel, trace, events, n - 1);
      assert Follows(parallel, trace[n - 1], events[n - 1], trace[n]);
      StepKeeps(parallel, trace[n - 1], events[n - 1]);
    }
  }
}
