/**
 * What a turn does with its tasks: it ends with nothing dangling, dispatches boundedly often, and only makes progress.
 */
module Scheduling {
  import opened Models
  import opened FailurePropagation
  import opened PlanValidation
  import opened Workflow
  import opened PlanInvariants
  import opened Turns
  import opened SerialMode
  import opened Conversations

  // ---- No dangling queue ----------------------------------------------------------------------

  predicate AllOver(p: Plan) {
    forall i :: 0 <= i < |p.tasks| ==> Terminal(p.tasks[i])
  }

  /** Nothing runs, and either the user is being asked something or there is nothing left to do. */
  predicate AtRest(p: Plan) {
    No(p, Running) && (Waiting(p) || AllOver(p))
  }

  lemma NothingOpenIsAllOver(p: Plan)
    requires TasksOK(p) && No(p, Running) && No(p, WaitingInput) && No(p, Pending)
    ensures AllOver(p)
  {
    forall i | 0 <= i < |p.tasks|
      ensures Terminal(p.tasks[i])
    {
      assert TaskOK(p, i);
    }
  }

  /** However the turn began, once it executed something it ends with its plan at rest. */
  lemma ExecutedTurnsEndAtRest(parallel: bool, c: Conversation, e: Event)
    requires Inv(parallel, c) && Enabled(c, e) && (e.Selection? || e.BatchDone?)
    requires Step(parallel, c, e).phase.Idle?
    ensures AtRest(Step(parallel, c, e).current)
  {
    if e.Selection? {
      NothingSelectedMeansNothingQueued(parallel, c);
    } else {
      RestAfterBatch(c, e.results);
    }
  }

  lemma RestAfterBatch(c: Conversation, results: seq<DomainTaskResult>)
    requires ConversationInv(c) && Enabled(c, BatchDone(results))
    ensures No(ApplyBatch(c, results).current, Running)
  {
    var sorted := SortByPlan(c.current.tasks, results);
    SortingKeeps(c.current.tasks, results);
    assert ResultIds(sorted) == ResultIds(results);
    assert PlanView(c.current, StartMerge(c)) == c.current;
    MergingKeeps(c.current, StartMerge(c), sorted);
  }

  lemma CancelledCurrentAtRest(c: Conversation, ctx: ContextResolution)
    requires OpenedOK(c) && c.phase.Idle? && CancelPlan(c, ctx, c.current).phase.Idle? && Waiting(c.current)
    ensures AtRest(CancelPlan(c, ctx, c.current).current)
  {
    if ChosenToCancel(ctx, c.current) != {} {
      AbandonedOK(ctx, c.current, true);
      var abandoned := Abandoned(ctx, c.current, true);
      NoIsNotHas(abandoned, WaitingInput);
      NoIsNotHas(abandoned, Pending);
      if !Waiting(abandoned) {
        NothingOpenIsAllOver(abandoned);
      }
    }
  }

  lemma RevisedCurrentAtRest(c: Conversation, ctx: ContextResolution, said: string, freshNew: string)
    requires OpenedOK(c) && Waiting(c.current) && TargetOf(c, ctx) == Some(c.current) && !ctx.relation.Cancel?
    requires Decide(c, ctx, said, freshNew).phase.Idle?
    ensures AtRest(Decide(c, ctx, said, freshNew).current)
  {
    ReviseKeeps(c.current, ctx.revisions, said);
    NoIsNotHas(c.current, WaitingInput);
    NoIsNotHas(RevisePlan(c.current, ctx.revisions, said), WaitingInput);
  }

  lemma AnsweringAboutShelved(c: Conversation, ctx: ContextResolution, said: string, freshNew: string, target: Plan)
    requires TargetOf(c, ctx) == Some(target) && target.planId != c.current.planId
    requires Decide(c, ctx, said, freshNew).phase.Idle?
    ensures Decide(c, ctx, said, freshNew).current == c.current
  {}

  lemma AnsweredTurnsKeepRest(c: Conversation, ctx: ContextResolution, said: string, freshNew: string)
    requires OpenedOK(c) && c.phase.Idle? && AtRest(c.current) && Decide(c, ctx, said, freshNew).phase.Idle?
    ensures AtRest(Decide(c, ctx, said, freshNew).current)
  {
    if TargetOf(c, ctx).Some? {
      var target := TargetOf(c, ctx).value;
      TargetIsPresent(c, ctx);
      if target != c.current {
        AnsweringAboutShelved(c, ctx, said, freshNew, target);
      } else if ctx.relation.Cancel? {
        CancelledCurrentAtRest(c, ctx);
        assert Decide(c, ctx, said, freshNew) == CancelPlan(c, ctx, target);
      } else {
        RevisedCurrentAtRest(c, ctx, said, freshNew);
      }
    }
  }

  /** A run died, and every turn since only answered without executing. */
  ghost predicate Unhealed(events: seq<Event>, n: nat)
    requires n <= |events|
  {
    n > 0 && (events[n - 1].RunDies? || (events[n - 1].UserTurn? && Unhealed(events, n - 1)))
  }

  /**
   * In every conversation, whenever it is the user's turn, the current plan waits for the user or is over; no queued
   * task is left hanging. The one exception is a run that died and was not followed up by a turn that executes.
   */
  lemma {:induction false} NoDanglingQueue(parallel: bool, trace: seq<Conversation>, events: seq<Event>, n: nat)
    requires Run(parallel, trace, events) && StartsFresh(trace) && n < |trace| && trace[n].phase.Idle?
    ensures Unhealed(events, n) || AtRest(trace[n].current)
  {
    if n > 0 {
      var c, e := trace[n - 1], events[n - 1];
      assert Follows(parallel, c, e, trace[n]);
      RunKeeps(parallel, trace, events, n - 1);
      if e.Selection? || e.BatchDone? {
        ExecutedTurnsEndAtRest(parallel, c, e);
      } else if e.UserTurn? && !Unhealed(events, n) {
        NoDanglingQueue(parallel, trace, events, n - 1);
        OpeningKeeps(c, e.ctx, e.freshCurrent);
        RestingIsRecovered(CurrentPlan(c, e.freshCurrent));
        AnsweredTurnsKeepRest(Opened(c, e.ctx, e.freshCurrent), e.ctx, e.said, e.freshNew);
      }
    }
  }

  // ---- Bounded dispatching --------------------------------------------------------------------

  /** How often a queued or running task can still be dispatched: once, plus once per handoff it has left. */
  function Budget(t: Task): nat {
    var left := if |t.handedOffFrom| >= MAX_HANDOFFS then 1 else MAX_HANDOFFS + 1 - |t.handedOffFrom|;
    if t.status.Pending? then left else if t.status.Running? then left - 1 else 0
  }

  function Potential(tasks: seq<Task>): nat {
    if tasks == [] then 0 else Budget(tasks[0]) + Potential(tasks[1..])
  }

  lemma {:induction false} PotentialIsBounded(tasks: seq<Task>)
    ensures Potential(tasks) <= (MAX_HANDOFFS + 1) * |tasks|
  {
    if tasks != [] {
      PotentialIsBounded(tasks[1..]);
    }
  }

  lemma {:induction false} LowerBudgets(a: seq<Task>, b: seq<Task>)
    requires |a| == |b| && forall i :: 0 <= i < |a| ==> Budget(b[i]) <= Budget(a[i])
    ensures Potential(b) <= Potential(a)
  {
    if a != [] {
      LowerBudgets(a[1..], b[1..]);
    }
  }

  lemma {:induction false} OneStepSpends(tasks: seq<Task>, i: nat)
    requires i < |tasks| && tasks[i].status.Pending?
    ensures Potential(tasks[i := tasks[i].(status := Running)]) + 1 == Potential(tasks)
  {
    var marked := tasks[i := tasks[i].(status := Running)];
    if i == 0 {
      assert marked[1..] == tasks[1..];
    } else {
      OneStepSpends(tasks[1..], i - 1);
      assert marked[1..] == tasks[1..][i - 1 := tasks[i].(status := Running)];
    }
  }

  lemma {:induction false} EveryRunnableSpends(all: seq<Task>, some: seq<Task>, ids: set<string>)
    requires forall i :: 0 <= i < |some| ==> (some[i].id in ids <==> Runnable(all, some[i]))
    ensures Potential(MarkRunning(some, ids)) + |RunnableAmong(all, some)| == Potential(some)
  {
    if some != [] {
      EveryRunnableSpends(all, some[1..], ids);
      assert MarkRunning(some, ids)[1..] == MarkRunning(some[1..], ids);
    }
  }

  /** Every dispatched task uses up one unit. */
  lemma SelectionSpends(parallel: bool, c: Conversation)
    requires Inv(parallel, c) && c.phase.Selecting? && SelectTask(parallel, c).phase.Executing?
    ensures Potential(SelectTask(parallel, c).current.tasks) + |SelectTask(parallel, c).phase.batch|
            == Potential(c.current.tasks)
  {
    var tasks := c.current.tasks;
    if parallel {
      MarkedAreChosen(tasks, RunnableTasks(tasks));
      forall i | 0 <= i < |tasks|
        ensures tasks[i].id in Ids(RunnableTasks(tasks)) <==> Runnable(tasks, tasks[i])
      {
        assert tasks[i] in RunnableTasks(tasks) <==> Runnable(tasks, tasks[i]);
      }
      EveryRunnableSpends(tasks, tasks, Ids(RunnableTasks(tasks)));
    } else {
      var i := OneStarts(c.current);
      OneStepSpends(tasks, i);
    }
  }

  lemma MergeOneCosts(base: Plan, m: MergeState, r: DomainTaskResult)
    requires r.WellShaped() && r.taskId in Ids(m.tasks)
    requires PlanInv(PlanView(base, m)) && NoQueuedDraft(PlanView(base, m))
    requires m.tasks[IndexOf(m.tasks, r.taskId)].status.Running?
    ensures Potential(MergeOne(m, r).tasks) <= Potential(m.tasks)
  {
    MergeOneTakesIn(base, m, r);
    TakenInAt(m, r, IndexOf(m.tasks, r.taskId));
    SettlingCosts(m.tasks, MergeOne(m, r).tasks, IndexOf(m.tasks, r.taskId));
  }

  lemma SettlingCosts(a: seq<Task>, b: seq<Task>, k: nat)
    requires SettlesOne(a, b, k) && Budget(b[k]) <= Budget(a[k])
    ensures Potential(b) <= Potential(a)
  {
    LowerBudgets(a, b);
  }

  /** Task `k` after its result: rerouted, or settled with its handoffs as they were. */
  lemma TakenInAt(m: MergeState, r: DomainTaskResult, k: nat)
    requires r.WellShaped() && r.taskId in Ids(m.tasks) && UniqueIds(m.tasks)
    requires k == IndexOf(m.tasks, r.taskId) && m.tasks[k].status.Running?
    ensures var t, t' := m.tasks[k], MergeOne(m, r).tasks[k];
            if r.status.HandedOff? && !HandoffRefused(t, r.handoffTo) then t' == RerouteTask(t, r.handoffTo.value)
            else t' == t.(status := if r.status.HandedOff? then Failed else r.status)
  {
    TaskAtIndex(m.tasks, r.taskId);
    OnlyOneChanges(m.tasks, k);
    if !r.status.HandedOff? || HandoffRefused(m.tasks[k], r.handoffTo) {
      var status := if r.status.HandedOff? then Failed else r.status;
      assert MergeOne(m, r).tasks == Settled(m.tasks, r.taskId, status);
      StatusSettlesOne(m.tasks, k, status);
      RejectingSettlesOne(m.tasks, SetStatus(m.tasks, r.taskId, status), k);
    }
  }

  lemma {:induction false} MergingCosts(base: Plan, m: MergeState, results: seq<DomainTaskResult>)
    requires PlanInv(PlanView(base, m)) && NoQueuedDraft(PlanView(base, m))
    requires DistinctResults(results) && forall r <- results :: r.WellShaped() && r.taskId in Ids(m.tasks)
    requires RunningAre(m.tasks, ResultIds(results))
    ensures Potential(MergeAll(m, results).tasks) <= Potential(m.tasks)
    decreases |results|
  {
    if results != [] {
      var r := results[0];
      assert r in results && r.taskId in ResultIds(results);
      MergeOneTakesIn(base, m, r);
      MergeOneCosts(base, m, r);
      MergeOneKeepsIds(m, r);
      RestOfResults(results);
      SettlingLeavesRest(m.tasks, MergeOne(m, r).tasks, IndexOf(m.tasks, r.taskId), ResultIds(results));
      MergingCosts(base, MergeOne(m, r), results[1..]);
    }
  }

  /** Taking in a batch never adds to what can still be dispatched. */
  lemma BatchCosts(c: Conversation, results: seq<DomainTaskResult>)
    requires ConversationInv(c) && Enabled(c, BatchDone(results))
    ensures Potential(ApplyBatch(c, results).current.tasks) <= Potential(c.current.tasks)
  {
    var sorted := SortByPlan(c.current.tasks, results);
    SortingKeeps(c.current.tasks, results);
    assert ResultIds(sorted) == ResultIds(results);
    assert PlanView(c.current, StartMerge(c)) == c.current;
    MergingCosts(c.current, StartMerge(c), sorted);
  }

  predicate StartsBatch(c: Conversation, c': Conversation) {
    !c.phase.Executing? && c'.phase.Executing?
  }

  /** Tasks dispatched between states `from` and `end`. */
  ghost function Dispatched(trace: seq<Conversation>, from: nat, end: nat): nat
    requires from <= end < |trace|
    decreases end
  {
    if from == end then 0
    else
      Dispatched(trace, from, end - 1)
      + if StartsBatch(trace[end - 1], trace[end]) then |trace[end].phase.batch| else 0
  }

  /** Batches started between states `from` and `end`. */
  ghost function Batches(trace: seq<Conversation>, from: nat, end: nat): nat
    requires from <= end < |trace|
    decreases end
  {
    if from == end then 0
    else Batches(trace, from, end - 1) + if StartsBatch(trace[end - 1], trace[end]) then 1 else 0
  }

  ghost predicate WithinTurn(events: seq<Event>, from: nat, end: nat)
    requires from <= end <= |events|
  {
    forall i :: from <= i < end ==> events[i].Selection? || events[i].BatchDone? || events[i].RunDies?
  }

  /**
   * A turn that starts executing a plan of n tasks makes at most 3n dispatches in at most as many batches before it
   * ends, however often tasks are handed on.
   */
  lemma TurnsDispatchBoundedly(parallel: bool, trace: seq<Conversation>, events: seq<Event>, from: nat, end: nat)
    requires Run(parallel, trace, events) && StartsFresh(trace) && from <= end < |trace|
             && WithinTurn(events, from, end)
    ensures Batches(trace, from, end) <= Dispatched(trace, from, end)
            <= (MAX_HANDOFFS + 1) * |trace[from].current.tasks|
  {
    SpendsAtMost(parallel, trace, events, from, end);
    PotentialIsBounded(trace[from].current.tasks);
  }

  lemma StepSpends(parallel: bool, c: Conversation, e: Event)
    requires Inv(parallel, c) && Enabled(c, e) && !e.UserTurn? && !e.PlanWritten?
    ensures var c' := Step(parallel, c, e);
            && (StartsBatch(c, c') ==> |c'.phase.batch| >= 1)
            && Potential(c'.current.tasks) + (if StartsBatch(c, c') then |c'.phase.batch| else 0)
               <= Potential(c.current.tasks)
  {
    if e.Selection? && SelectTask(parallel, c).phase.Executing? {
      SelectionSpends(parallel, c);
    } else if e.BatchDone? {
      BatchCosts(c, e.results);
    }
  }

  lemma {:induction false} SpendsAtMost(parallel: bool, trace: seq<Conversation>, events: seq<Event>, from: nat,
                                        end: nat)
    requires Run(parallel, trace, events) && StartsFresh(trace) && from <= end < |trace|
             && WithinTurn(events, from, end)
    ensures Batches(trace, from, end) <= Dispatched(trace, from, end)
    ensures Dispatched(trace, from, end) + Potential(trace[end].current.tasks) <= Potential(trace[from].current.tasks)
    decreases end
  {
    if from < end {
      SpendsAtMost(parallel, trace, events, from, end - 1);
      RunKeeps(parallel, trace, events, end - 1);
      assert Follows(parallel, trace[end - 1], events[end - 1], trace[end]);
      StepSpends(parallel, trace[end - 1], events[end - 1]);
    }
  }

  // ---- Handoffs -------------------------------------------------------------------------------

  /** A task never goes back to a domain that already gave it away, and is given away at most twice. */
  predicate HandoffOK(t: Task) {
    && (forall i, j :: 0 <= i < j < |t.handedOffFrom| ==> t.handedOffFrom[i] != t.handedOffFrom[j])
    && t.domain !in t.handedOffFrom
    && |t.handedOffFrom| <= MAX_HANDOFFS
  }

  predicate HandoffsOK(tasks: seq<Task>) {
    forall i :: 0 <= i < |tasks| ==> HandoffOK(tasks[i])
  }

  /** The edits outside a merge never touch who had a task. */
  predicate SameHands(a: seq<Task>, b: seq<Task>) {
    |a| == |b| && forall i :: 0 <= i < |a| ==> b[i].domain == a[i].domain && b[i].handedOffFrom == a[i].handedOffFrom
  }

  predicate AllHandoffsOK(c: Conversation) {
    HandoffsOK(c.current.tasks) && forall p <- c.shelved :: HandoffsOK(p.tasks)
  }

  lemma RerouteKeepsHandoffs(t: Task, target: Option<AgentName>)
    requires HandoffOK(t) && !HandoffRefused(t, target)
    ensures HandoffOK(RerouteTask(t, target.value))
  {}

  lemma SettlingKeepsHands(tasks: seq<Task>, id: string, status: TaskStatus)
    ensures SameHands(tasks, SetStatus(tasks, id, status))
    ensures SameHands(tasks, RejectBlocked(SetStatus(tasks, id, status)))
  {}

  lemma SettledKeepsRule(tasks: seq<Task>, id: string, status: TaskStatus)
    requires HandoffsOK(tasks)
    ensures HandoffsOK(Settled(tasks, id, status))
  {
    SettlingKeepsHands(tasks, id, status);
    SameHandsSameRule(tasks, Settled(tasks, id, status));
  }

  lemma ReroutedKeepsRule(tasks: seq<Task>, t: Task, target: Option<AgentName>)
    requires HandoffsOK(tasks) && t in tasks && !HandoffRefused(t, target)
    ensures HandoffsOK(ReplaceTask(tasks, t.id, RerouteTask(t, target.value)))
  {
    var k :| 0 <= k < |tasks| && tasks[k] == t;
    assert HandoffOK(tasks[k]);
    RerouteKeepsHandoffs(t, target);
  }

  lemma MergeOneKeepsHandoffs(m: MergeState, r: DomainTaskResult)
    requires r.taskId in Ids(m.tasks) && HandoffsOK(m.tasks)
    ensures HandoffsOK(MergeOne(m, r).tasks)
  {
    var t := TaskWithId(m.tasks, r.taskId);
    if r.status.HandedOff? && !HandoffRefused(t, r.handoffTo) {
      ReroutedKeepsRule(m.tasks, t, r.handoffTo);
      assert MergeOne(m, r).tasks == ReplaceTask(m.tasks, t.id, RerouteTask(t, r.handoffTo.value));
    } else {
      SettledKeepsRule(m.tasks, r.taskId, if r.status.HandedOff? then Failed else r.status);
      assert MergeOne(m, r).tasks == Settled(m.tasks, r.taskId, if r.status.HandedOff? then Failed else r.status);
    }
  }

  lemma {:induction false} MergingKeepsHandoffs(m: MergeState, results: seq<DomainTaskResult>)
    requires forall r <- results :: r.taskId in Ids(m.tasks)
    requires HandoffsOK(m.tasks)
    ensures HandoffsOK(MergeAll(m, results).tasks)
    decreases |results|
  {
    if results != [] {
      MergeOneKeepsIds(m, results[0]);
      MergeOneKeepsHandoffs(m, results[0]);
      MergingKeepsHandoffs(MergeOne(m, results[0]), results[1..]);
    }
  }

  lemma DroppingKeepsHands(target: Plan, chosen: set<string>, isCurrent: bool)
    ensures SameHands(target.tasks, CancelledTasks(target, chosen, isCurrent))
  {}

  lemma SameHandsSameRule(a: seq<Task>, b: seq<Task>)
    requires SameHands(a, b) && HandoffsOK(a)
    ensures HandoffsOK(b)
  {
    forall i | 0 <= i < |b|
      ensures HandoffOK(b[i])
    {
      assert HandoffOK(a[i]);
    }
  }

  lemma TurnKeepsHandoffs(c: Conversation, ctx: ContextResolution, said: string, freshNew: string)
    requires OpenedOK(c) && AllHandoffsOK(c)
    ensures AllHandoffsOK(Decide(c, ctx, said, freshNew))
  {
    if TargetOf(c, ctx).Some? {
      TargetIsPresent(c, ctx);
      TargetedTurnKeepsHandoffs(c, ctx, said, freshNew, TargetOf(c, ctx).value);
    }
  }

  lemma TargetedTurnKeepsHandoffs(c: Conversation, ctx: ContextResolution, said: string, freshNew: string, target: Plan)
    requires AllHandoffsOK(c) && TargetOf(c, ctx) == Some(target) && HandoffsOK(target.tasks)
    ensures AllHandoffsOK(Decide(c, ctx, said, freshNew))
  {
    if ctx.relation.Cancel? {
      CancelKeepsHandoffs(c, ctx, target);
      assert Decide(c, ctx, said, freshNew) == CancelPlan(c, ctx, target);
    } else {
      RevisingKeepsHandoffs(c, ctx, said, freshNew, target);
    }
  }

  lemma RevisingKeepsHandoffs(c: Conversation, ctx: ContextResolution, said: string, freshNew: string, target: Plan)
    requires AllHandoffsOK(c) && TargetOf(c, ctx) == Some(target) && HandoffsOK(target.tasks) && !ctx.relation.Cancel?
    ensures AllHandoffsOK(Decide(c, ctx, said, freshNew))
  {
    var revised := RevisePlan(target, ctx.revisions, said);
    SameHandsSameRule(target.tasks, revised.tasks);
    SameHandsSameRule(target.tasks, RequeueWaiting(revised).tasks);
    ReplacingKeepsHandoffs(c, revised);
    assert forall p <- Resume(c, CurrentOpen(c), revised).shelved :: p in c.shelved || p == c.current;
  }

  lemma CancelKeepsHandoffs(c: Conversation, ctx: ContextResolution, target: Plan)
    requires AllHandoffsOK(c) && HandoffsOK(target.tasks)
    ensures AllHandoffsOK(CancelPlan(c, ctx, target))
  {
    var isCurrent := target.planId == c.current.planId;
    DroppingKeepsHands(target, ChosenToCancel(ctx, target), isCurrent);
    SameHandsSameRule(target.tasks, Abandoned(ctx, target, isCurrent).tasks);
    ReplacingKeepsHandoffs(c, Abandoned(ctx, target, isCurrent));
  }

  lemma {:induction false} ReplacingKeepsHandoffs(c: Conversation, plan: Plan)
    requires AllHandoffsOK(c) && HandoffsOK(plan.tasks)
    ensures AllHandoffsOK(Replace(c, plan)) && forall p <- ReplacePlan(c.shelved, plan) :: HandoffsOK(p.tasks)
  {
    forall p | p in ReplacePlan(c.shelved, plan)
      ensures HandoffsOK(p.tasks)
    {
      assert p == plan || p in c.shelved;
    }
  }

  /**
   * Every step keeps the handoff rule, except that installing a plan keeps it exactly when the planner wrote no
   * handoffs that break it: `plan` resets status and supplements of what the planner wrote, but not `handed_off_from`.
   */
  lemma HandoffRuleKept(parallel: bool, c: Conversation, e: Event)
    requires Inv(parallel, c) && Enabled(c, e) && AllHandoffsOK(c)
    ensures AllHandoffsOK(Step(parallel, c, e)) <==> (e.PlanWritten? ==> HandoffsOK(e.tasks))
    ensures e.PlanWritten? && c.context.outlines != [] ==> AllHandoffsOK(Step(parallel, c, e))
  {
    match e
    case UserTurn(ctx, said, freshCurrent, freshNew) =>
      OpeningKeeps(c, ctx, freshCurrent);
      assert SameHands(c.current.tasks, Opened(c, ctx, freshCurrent).current.tasks);
      TurnKeepsHandoffs(Opened(c, ctx, freshCurrent), ctx, said, freshNew);
    case PlanWritten(goal, tasks) => InstallingKeepsHandoffs(c, goal, tasks);
    case Selection =>
      SameHandsSameRule(c.current.tasks, SelectTask(parallel, c).current.tasks);
    case BatchDone(results) =>
      SortedResultsKnown(c.current.tasks, results);
      MergingKeepsHandoffs(StartMerge(c), SortByPlan(c.current.tasks, results));
    case RunDies =>
  }

  lemma InstallingKeepsHandoffs(c: Conversation, goal: string, tasks: seq<Task>)
    requires PlanFor(c.context, goal, tasks) && AllHandoffsOK(c)
    ensures AllHandoffsOK(InstallPlan(c, goal, tasks)) <==> HandoffsOK(tasks)
    ensures c.context.outlines != [] ==> HandoffsOK(tasks)
  {
    var installed := InstallPlan(c, goal, tasks).current.tasks;
    if HandoffsOK(tasks) {
      SameHandsSameRule(tasks, installed);
    }
    if HandoffsOK(installed) {
      SameHandsSameRule(installed, tasks);
    }
    if c.context.outlines != [] {
      forall i | 0 <= i < |tasks|
        ensures HandoffOK(tasks[i])
      {
        assert TaskOf(c.context.outlines, i, tasks[i]);
      }
    }
  }

  /**
   * A planner may hand over a plan that passes every check and yet claims its own domain already gave the task away.
   */
  lemma PlannerMayWriteHandoffs(ctx: ContextResolution) returns (tasks: seq<Task>)
    ensures ctx.outlines == [] ==> PlanFor(ctx, "goal", tasks)
    ensures !HandoffsOK(InstallPlan(Start(ctx), "goal", tasks).current.tasks)
    ensures HandoffRefused(InstallPlan(Start(ctx), "goal", tasks).current.tasks[0], Some(Travel))
  {
    var t := Task("task-1", "trip", Hr, "book", [], Pending, [Hr, Travel], []);
    tasks := [t];
    assert TopologicalOrder(tasks, ["task-1"]);
    assert !HandoffOK(InstallPlan(Start(ctx), "goal", tasks).current.tasks[0]);
  }

  /** Over whole conversations whose planners write no handoffs of their own. */
  lemma {:induction false} HandoffRuleAlwaysHolds(parallel: bool, trace: seq<Conversation>, events: seq<Event>, n: nat)
    requires Run(parallel, trace, events) && StartsFresh(trace) && n < |trace|
    requires forall i :: 0 <= i < n && events[i].PlanWritten? ==> HandoffsOK(events[i].tasks)
    ensures AllHandoffsOK(trace[n])
  {
    if n > 0 {
      RunKeeps(parallel, trace, events, n - 1);
      HandoffRuleAlwaysHolds(parallel, trace, events, n - 1);
      assert Follows(parallel, trace[n - 1], events[n - 1], trace[n]);
      HandoffRuleKept(parallel, trace[n - 1], events[n - 1]);
    }
  }
}
