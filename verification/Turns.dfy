/**
 * Whole conversations: the events that move one, and the invariant every event keeps.
 * A run dying at any checkpoint is an event like any other.
 */
module Turns {
  import opened Models
  import opened Matters
  import opened PlanValidation
  import opened Workflow
  import opened PlanInvariants

  datatype Event =
    | UserTurn(ctx: ContextResolution, said: string, freshCurrent: string, freshNew: string)
    | PlanWritten(goal: string, tasks: seq<Task>)
    | Selection
    | BatchDone(results: seq<DomainTaskResult>)
    | RunDies

  predicate FreshId(c: Conversation, id: string) {
    id != "" && id != c.current.planId && forall p <- c.shelved :: p.planId != id
  }

  function BatchIds(batch: seq<DomainTaskRequest>): set<string> {
    set b <- batch :: b.task.id
  }

  function ResultIds(results: seq<DomainTaskResult>): set<string> {
    set r <- results :: r.taskId
  }

  predicate DistinctResults(results: seq<DomainTaskResult>) {
    forall i, j :: 0 <= i < j < |results| ==> results[i].taskId != results[j].taskId
  }

  /** One well-shaped result per dispatched task, in whatever order the branches finished. */
  predicate ResultsFor(batch: seq<DomainTaskRequest>, results: seq<DomainTaskResult>) {
    DistinctResults(results) && ResultIds(results) == BatchIds(batch) && forall r <- results :: r.WellShaped()
  }

  /** What `supervisor.plan` may hand over: the plan of the outlines if there are any, else any plan that validates. */
  ghost predicate PlanFor(ctx: ContextResolution, goal: string, tasks: seq<Task>) {
    if ctx.outlines != [] then
      goal == ctx.standaloneRequest && |tasks| == |ctx.outlines| && BuiltSoFar(ctx.outlines, tasks)
    else
      goal != "" && 1 <= |tasks| <= 20 && Structured(tasks) && forall t <- tasks :: t.domain != Supervisor
  }

  ghost predicate Enabled(c: Conversation, e: Event) {
    match e
    case UserTurn(ctx, _, freshCurrent, freshNew) =>
      c.phase.Idle? && ctx.Valid() && FreshId(c, freshCurrent) && FreshId(c, freshNew) && freshCurrent != freshNew
    case PlanWritten(goal, tasks) => c.phase.Planning? && PlanFor(c.context, goal, tasks)
    case Selection => c.phase.Selecting?
    case BatchDone(results) =>
      c.phase.Executing? && ResultsFor(c.phase.batch, results)
      && forall r <- results :: r.taskId in Ids(c.current.tasks)
    case RunDies => !c.phase.Idle?
  }

  ghost function Step(parallel: bool, c: Conversation, e: Event): Conversation
    requires Enabled(c, e)
  {
    match e
    case UserTurn(ctx, said, freshCurrent, freshNew) => Understand(c, ctx, said, freshCurrent, freshNew)
    case PlanWritten(goal, tasks) => InstallPlan(c, goal, tasks)
    case Selection => SelectTask(parallel, c)
    case BatchDone(results) => ApplyBatch(c, results)
    case RunDies => c.(phase := Idle)
  }

  // ---- The invariant ------------------------------------------------------------------------

  predicate Waiting(p: Plan) {
    HasStatus(p.tasks, WaitingInput)
  }

  /** A shelved plan is at rest and still has something to ask the user. */
  ghost predicate ShelvedOK(p: Plan) {
    PlanInv(p) && NoQueuedDraft(p) && No(p, Running) && Waiting(p) && p.planId != ""
  }

  predicate DistinctPlans(plans: seq<Plan>) {
    forall i, j :: 0 <= i < j < |plans| ==> plans[i].planId != plans[j].planId
  }

  predicate PlanIdsDistinct(c: Conversation) {
    DistinctPlans(c.shelved) && forall p <- c.shelved :: p.planId != c.current.planId
  }

  /** What waited is not queued again, unless the run died just then; such a plan waits for nothing. */
  predicate Quiet(p: Plan) {
    NoQueuedDraft(p) || (No(p, Running) && No(p, WaitingInput))
  }

  predicate PhaseOK(c: Conversation) {
    match c.phase
    case Idle => Quiet(c.current) && (c.current.planId == "" ==> c.current.tasks == [])
    case Planning => c.current.tasks == [] && c.current.drafts == map[] && c.current.planId != ""
    case Selecting => No(c.current, Running) && No(c.current, WaitingInput) && c.current.planId != ""
    case Executing(batch) =>
      && NoQueuedDraft(c.current) && No(c.current, WaitingInput) && c.current.planId != "" && batch != []
      && forall i :: 0 <= i < |c.current.tasks| ==>
           (c.current.tasks[i].status.Running? <==> c.current.tasks[i].id in BatchIds(batch))
  }

  ghost predicate ConversationInv(c: Conversation) {
    PlanInv(c.current) && (forall p <- c.shelved :: ShelvedOK(p)) && PlanIdsDistinct(c) && PhaseOK(c)
  }

  function Start(ctx: ContextResolution): Conversation {
    Conversation(Plan("", "", [], map[], map[]), [], Idle, ctx, [], [], [], None)
  }

  lemma EmptyPlanOK(p: Plan)
    requires p.tasks == []
    ensures PlanInv(p) && NoQueuedDraft(p)
  {
    assert TopologicalOrder(p.tasks, []);
  }

  lemma StartOK(ctx: ContextResolution)
    ensures ConversationInv(Start(ctx))
  {
    EmptyPlanOK(Start(ctx).current);
  }

  // ---- understand ---------------------------------------------------------------------------

  /** The state `understand` decides on: everything at rest. */
  ghost predicate OpenedOK(c: Conversation) {
    && PlanInv(c.current) && Quiet(c.current) && No(c.current, Running) && c.current.planId != ""
    && (forall p <- c.shelved :: ShelvedOK(p)) && PlanIdsDistinct(c)
  }

  lemma OpeningKeeps(c: Conversation, ctx: ContextResolution, freshCurrent: string)
    requires ConversationInv(c) && c.phase.Idle? && FreshId(c, freshCurrent)
    ensures OpenedOK(Opened(c, ctx, freshCurrent))
  {
    var named := CurrentPlan(c, freshCurrent);
    assert PlanInv(named) by {
      forall i | 0 <= i < |named.tasks|
        ensures TaskOK(named, i)
      {
        assert TaskOK(c.current, i);
      }
    }
    if NoQueuedDraft(named) {
      RecoverKeeps(named);
    } else {
      RestingIsRecovered(named);
    }
  }

  lemma RestingIsRecovered(p: Plan)
    requires No(p, Running)
    ensures Recover(p) == p
  {}

  lemma StuckIsWaiting(p: Plan)
    requires TasksOK(p)
    ensures HasStuck(p) <==> Waiting(p)
  {
    if HasStuck(p) {
      var t :| t in p.tasks && Stuck(t);
      var i :| 0 <= i < |p.tasks| && p.tasks[i] == t;
      assert TaskOK(p, i);
    }
  }

  /** The right-hand column shows the current plan exactly when it waits for the user. */
  lemma OpenIffWaiting(c: Conversation)
    requires TasksOK(c.current) && No(c.current, Running)
    ensures CurrentOpen(c) <==> Waiting(c.current)
  {
    CurrentIsListedIffStuck(c.current, c.shelved);
    RestingIsRecovered(c.current);
    StuckIsWaiting(c.current);
  }

  /** A target is the open current plan or one of the shelved ones. */
  lemma TargetIsPresent(c: Conversation, ctx: ContextResolution)
    requires OpenedOK(c) && TargetOf(c, ctx).Some?
    ensures var t := TargetOf(c, ctx).value;
            || (t == c.current && Waiting(t))
            || (t in c.shelved && t.planId != c.current.planId && ShelvedOK(t))
  {
    OpenIffWaiting(c);
    if |c.shelved| == 1 {
      assert c.shelved[0] in c.shelved;
    }
  }

  lemma {:induction false} RemovingKeepsDistinct(plans: seq<Plan>, planId: string)
    requires DistinctPlans(plans)
    ensures DistinctPlans(RemovePlan(plans, planId))
  {
    if plans != [] {
      var rest := plans[1..];
      RemovingKeepsDistinct(rest, planId);
      assert forall p <- RemovePlan(rest, planId) :: p.planId != plans[0].planId by {
        forall p | p in RemovePlan(rest, planId)
          ensures p.planId != plans[0].planId
        {
          var i :| 0 <= i < |rest| && rest[i] == p;
          assert plans[i + 1] == p;
        }
      }
    }
  }

  lemma ResumedShelf(c: Conversation, target: Plan, revised: Plan)
    requires OpenedOK(c) && revised.planId == target.planId
    requires || (target == c.current && Waiting(target))
             || (target in c.shelved && target.planId != c.current.planId && ShelvedOK(target))
    ensures var c' := Resume(c, CurrentOpen(c), revised);
            PlanIdsDistinct(c') && forall p <- c'.shelved :: ShelvedOK(p)
  {
    var c' := Resume(c, CurrentOpen(c), revised);
    OpenIffWaiting(c);
    RemovingKeepsDistinct(c.shelved, target.planId);
    if target != c.current && CurrentOpen(c) {
      assert ShelvedOK(c.current);
      var kept := RemovePlan(c.shelved, target.planId);
      assert c'.shelved == kept + [c.current];
      assert forall i :: 0 <= i < |kept| ==> kept[i] in kept;
    }
    assert forall p <- c'.shelved :: p in c.shelved || p == c.current;
  }

  lemma ResumeKeeps(c: Conversation, target: Plan, revised: Plan)
    requires OpenedOK(c) && PlanInv(revised) && No(revised, Running) && revised.planId == target.planId
    requires || (target == c.current && Waiting(target))
             || (target in c.shelved && target.planId != c.current.planId && ShelvedOK(target))
    ensures ConversationInv(Resume(c, CurrentOpen(c), revised))
  {
    RequeueKeeps(revised);
    ResumedShelf(c, target, revised);
  }

  lemma {:induction false} ReplaceKeeps(plans: seq<Plan>, plan: Plan)
    requires DistinctPlans(plans)
    ensures DistinctPlans(ReplacePlan(plans, plan))
    ensures forall p <- ReplacePlan(plans, plan) :: p == plan || p in plans
  {
    var r := ReplacePlan(plans, plan);
    assert forall i :: 0 <= i < |plans| ==> r[i].planId == plans[i].planId;
  }

  lemma RevisionKeeps(c: Conversation, target: Plan, revised: Plan, reply: Reply)
    requires OpenedOK(c) && PlanInv(revised) && NoQueuedDraft(revised) && No(revised, Running)
             && revised.planId == target.planId
    requires Waiting(revised)
    requires || (target == c.current && Waiting(target))
             || (target in c.shelved && target.planId != c.current.planId && ShelvedOK(target))
    ensures ConversationInv(Respond(Replace(c, revised), reply))
  {
    ReplaceKeeps(c.shelved, revised);
    var c' := Respond(Replace(c, revised), reply);
    forall p | p in c'.shelved
      ensures ShelvedOK(p) && p.planId != c'.current.planId
    {
      if p in c.shelved {
      } else {
        assert p == revised;
      }
    }
  }

  lemma {:induction false} ShelvingKeepsDistinct(plans: seq<Plan>, plan: Plan)
    requires DistinctPlans(plans) && forall p <- plans :: p.planId != plan.planId
    ensures DistinctPlans(plans + [plan])
  {
    assert forall i :: 0 <= i < |plans| ==> plans[i] in plans;
  }

  lemma NewMatterKeeps(c: Conversation, goal: string, freshNew: string)
    requires OpenedOK(c) && FreshId(c, freshNew)
    ensures ConversationInv(c.(current := Plan(freshNew, goal, [], map[], map[]),
                               shelved := if CurrentOpen(c) then c.shelved + [c.current] else c.shelved,
                               phase := Planning))
  {
    EmptyPlanOK(Plan(freshNew, goal, [], map[], map[]));
    OpenIffWaiting(c);
    if CurrentOpen(c) {
      assert ShelvedOK(c.current);
      ShelvingKeepsDistinct(c.shelved, c.current);
    }
  }

  // ---- cancel -------------------------------------------------------------------------------

  lemma DroppedSplit(first: Task, rest: seq<Task>, unfinished: set<string>)
    ensures DroppedIds([first] + rest, unfinished)
            == (if first.id in unfinished && first.status.Rejected? then {first.id} else {})
               + DroppedIds(rest, unfinished)
  {
    assert forall t :: t in [first] + rest <==> t == first || t in rest;
  }

  lemma {:induction false} DroppedAreCounted(tasks: seq<Task>, unfinished: set<string>)
    requires UniqueIds(tasks)
    ensures |DroppedTitles(tasks, unfinished)| == |DroppedIds(tasks, unfinished)|
  {
    if tasks == [] {
      assert DroppedIds(tasks, unfinished) == {};
    } else {
      var first, rest := tasks[0], tasks[1..];
      assert tasks == [first] + rest;
      DroppedAreCounted(rest, unfinished);
      DroppedSplit(first, rest, unfinished);
      assert first.id !in DroppedIds(rest, unfinished);
    }
  }

  lemma SubsetOfSameSize(a: set<string>, b: set<string>)
    requires a <= b && |a| == |b|
    ensures a == b
  {
    var rest := b - a;
    assert b == a + rest;
    assert |b| == |a| + |rest|;
  }

  /** "The whole matter is dropped" is said exactly when everything unfinished was in fact rejected. */
  lemma WholeIffAllRejected(a: seq<Task>, b: seq<Task>)
    requires UniqueIds(a) && OnlyDrops(a, b)
    ensures |DroppedTitles(b, UnfinishedIds(a))| == |UnfinishedIds(a)|
            <==> forall i :: 0 <= i < |a| && Unfinished(a[i]) ==> b[i].status.Rejected?
  {
    var u, d := UnfinishedIds(a), DroppedIds(b, UnfinishedIds(a));
    assert UniqueIds(b);
    DroppedAreCounted(b, u);
    forall i | 0 <= i < |a|
      ensures a[i].id in d <==> Unfinished(a[i]) && b[i].status.Rejected?
      ensures Unfinished(a[i]) ==> a[i].id in u
    {
      DroppedExactly(a, b, i);
      assert a[i] in a;
    }
    if |d| == |u| {
      SubsetOfSameSize(d, u);
    }
    if forall i :: 0 <= i < |a| && Unfinished(a[i]) ==> b[i].status.Rejected? {
      forall x | x in u
        ensures x in d
      {
        var t :| t in a && Unfinished(t) && t.id == x;
        var i :| 0 <= i < |a| && a[i] == t;
      }
      assert d == u;
    }
  }

  ghost function Abandoned(ctx: ContextResolution, target: Plan, isCurrent: bool): Plan {
    var tasks := CancelledTasks(target, ChosenToCancel(ctx, target), isCurrent);
    target.(tasks := tasks, drafts := target.drafts - DroppedIds(tasks, UnfinishedIds(target.tasks)))
  }

  lemma AbandonedOK(ctx: ContextResolution, target: Plan, isCurrent: bool)
    requires PlanInv(target) && NoQueuedDraft(target) && No(target, Running)
    ensures PlanInv(Abandoned(ctx, target, isCurrent)) && NoQueuedDraft(Abandoned(ctx, target, isCurrent))
    ensures No(Abandoned(ctx, target, isCurrent), Running)
    ensures OnlyDrops(target.tasks, Abandoned(ctx, target, isCurrent).tasks)
    ensures !isCurrent && !Waiting(Abandoned(ctx, target, isCurrent)) ==>
              |DroppedTitles(Abandoned(ctx, target, isCurrent).tasks, UnfinishedIds(target.tasks))|
              == |UnfinishedIds(target.tasks)|
  {
    var chosen := ChosenToCancel(ctx, target);
    CancelDrops(target, chosen, isCurrent);
    var tasks := CancelledTasks(target, chosen, isCurrent);
    DropKeeps(target, tasks);
    WholeIffAllRejected(target.tasks, tasks);
  }

  lemma CancelKeeps(c: Conversation, ctx: ContextResolution, target: Plan)
    requires OpenedOK(c)
    requires || (target == c.current && Waiting(target))
             || (target in c.shelved && target.planId != c.current.planId && ShelvedOK(target))
    ensures c.phase.Idle? ==> ConversationInv(CancelPlan(c, ctx, target))
  {
    var c' := CancelPlan(c, ctx, target);
    if ChosenToCancel(ctx, target) != {} {
      var isCurrent := target.planId == c.current.planId;
      AbandonedOK(ctx, target, isCurrent);
      var abandoned := Abandoned(ctx, target, isCurrent);
      NoIsNotHas(abandoned, WaitingInput);
      if !isCurrent {
        RemovingKeepsDistinct(c.shelved, target.planId);
        ReplaceKeeps(c.shelved, abandoned);
        forall p | p in c'.shelved
          ensures ShelvedOK(p) && p.planId != c'.current.planId
        {
          if p in c.shelved {
          } else {
            assert p == abandoned;
          }
        }
      }
    }
  }

  lemma TargetedTurnKeeps(o: Conversation, ctx: ContextResolution, said: string, freshNew: string, target: Plan)
    requires OpenedOK(o) && o.phase.Idle? && TargetOf(o, ctx) == Some(target)
    ensures ConversationInv(Decide(o, ctx, said, freshNew))
  {
    TargetIsPresent(o, ctx);
    if ctx.relation.Cancel? {
      CancelKeeps(o, ctx, target);
      assert Decide(o, ctx, said, freshNew) == CancelPlan(o, ctx, target);
    } else {
      RevisingTurnKeeps(o, ctx, said, freshNew, target);
    }
  }

  /** The turn takes the matter up again, or only corrects what is queued. */
  lemma RevisingTurnKeeps(o: Conversation, ctx: ContextResolution, said: string, freshNew: string, target: Plan)
    requires OpenedOK(o) && o.phase.Idle? && TargetOf(o, ctx) == Some(target) && !ctx.relation.Cancel?
    requires || (target == o.current && Waiting(target))
             || (target in o.shelved && target.planId != o.current.planId && ShelvedOK(target))
    ensures ConversationInv(Decide(o, ctx, said, freshNew))
  {
    var revised := RevisePlan(target, ctx.revisions, said);
    ReviseKeeps(target, ctx.revisions, said);
    if ctx.relation.Continue? || CorrectsWaiting(target, ctx.revisions) {
      ResumeKeeps(o, target, revised);
      assert Decide(o, ctx, said, freshNew) == Resume(o, CurrentOpen(o), revised);
    } else {
      CorrectionKeeps(o, target, ctx.revisions, said);
    }
  }

  lemma CorrectionKeeps(o: Conversation, target: Plan, revisions: seq<TaskRevision>, said: string)
    requires OpenedOK(o) && o.phase.Idle?
    requires || (target == o.current && Waiting(target))
             || (target in o.shelved && target.planId != o.current.planId && ShelvedOK(target))
    ensures ConversationInv(Respond(o, NothingToRevise))
    ensures var titles := RevisedTitles(target.tasks, revisions);
            ConversationInv(Respond(Replace(o, RevisePlan(target, revisions, said)), Updated(titles)))
  {
    var revised := RevisePlan(target, revisions, said);
    ReviseKeeps(target, revisions, said);
    NoIsNotHas(target, WaitingInput);
    NoIsNotHas(revised, WaitingInput);
    RevisionKeeps(o, target, revised, Updated(RevisedTitles(target.tasks, revisions)));
  }

  lemma UntargetedTurnKeeps(o: Conversation, ctx: ContextResolution, said: string, freshNew: string)
    requires OpenedOK(o) && o.phase.Idle? && TargetOf(o, ctx).None? && FreshId(o, freshNew)
    ensures ConversationInv(Decide(o, ctx, said, freshNew))
  {
    if ctx.requiresPlanning {
      NewMatterKeeps(o, ctx.standaloneRequest, freshNew);
    }
  }

  lemma UserTurnKeeps(c: Conversation, ctx: ContextResolution, said: string, freshCurrent: string, freshNew: string)
    requires ConversationInv(c) && Enabled(c, UserTurn(ctx, said, freshCurrent, freshNew))
    ensures ConversationInv(Understand(c, ctx, said, freshCurrent, freshNew))
  {
    var o := Opened(c, ctx, freshCurrent);
    OpeningKeeps(c, ctx, freshCurrent);
    if TargetOf(o, ctx).Some? {
      TargetedTurnKeeps(o, ctx, said, freshNew, TargetOf(o, ctx).value);
    } else {
      UntargetedTurnKeeps(o, ctx, said, freshNew);
    }
  }

  // ---- plan and select_task -----------------------------------------------------------------

  lemma InstallKeeps(c: Conversation, goal: string, tasks: seq<Task>)
    requires ConversationInv(c) && Enabled(c, PlanWritten(goal, tasks))
    ensures ConversationInv(InstallPlan(c, goal, tasks))
  {
    if c.context.outlines != [] {
      BuiltPlanIsValid(c.context.outlines, tasks);
    }
    var p := InstallPlan(c, goal, tasks).current;
    SameGraphKeepsStructure(tasks, p.tasks);
    forall i | 0 <= i < |p.tasks|
      ensures TaskOK(p, i)
    {}
  }

  lemma {:induction false} SelectedAreRunnable(parallel: bool, tasks: seq<Task>)
    ensures forall t <- Selected(parallel, tasks) :: t in tasks && Runnable(tasks, t)
    ensures Selected(parallel, tasks) == [] <==> RunnableTasks(tasks) == []
  {
    var r := RunnableTasks(tasks);
    assert forall t <- Selected(parallel, tasks) :: t in r;
  }

  lemma SelectKeeps(parallel: bool, c: Conversation)
    requires ConversationInv(c) && c.phase.Selecting? && Selected(parallel, c.current.tasks) != []
    requires NoQueuedDraft(SelectTask(parallel, c).current)
    ensures ConversationInv(SelectTask(parallel, c))
  {
    var chosen := Selected(parallel, c.current.tasks);
    var c' := SelectTask(parallel, c);
    SelectedAreRunnable(parallel, c.current.tasks);
    MarkKeeps(c.current, chosen);
    var batch := c'.phase.batch;
    assert forall i :: 0 <= i < |chosen| ==> batch[i].task == chosen[i];
    BatchNamesChosen(batch, chosen);
  }

  lemma BatchNamesChosen(batch: seq<DomainTaskRequest>, chosen: seq<Task>)
    requires |batch| == |chosen| && forall i :: 0 <= i < |chosen| ==> batch[i].task == chosen[i]
    ensures BatchIds(batch) == Ids(chosen)
  {
    forall x
      ensures x in BatchIds(batch) <==> x in Ids(chosen)
    {
      if x in BatchIds(batch) {
        var b :| b in batch && b.task.id == x;
        var i :| 0 <= i < |batch| && batch[i] == b;
        assert chosen[i] in chosen;
      }
      if x in Ids(chosen) {
        var t :| t in chosen && t.id == x;
        var i :| 0 <= i < |chosen| && chosen[i] == t;
        assert batch[i] in batch;
      }
    }
  }

  // ---- apply_domain_result --------------------------------------------------------------------

  lemma {:induction false} InsertDistinct(tasks: seq<Task>, sorted: seq<DomainTaskResult>, r: DomainTaskResult)
    requires DistinctResults(sorted) && forall q <- sorted :: q.taskId != r.taskId
    ensures DistinctResults(InsertResult(tasks, sorted, r))
    ensures forall q :: q in InsertResult(tasks, sorted, r) <==> q in sorted || q == r
  {
    if sorted != [] {
      var init, last := sorted[..|sorted| - 1], sorted[|sorted| - 1];
      assert sorted == init + [last];
      if OrderOf(tasks, last.taskId) > OrderOf(tasks, r.taskId) {
        InsertDistinct(tasks, init, r);
        var inner := InsertResult(tasks, init, r);
        assert forall i :: 0 <= i < |init| ==> init[i].taskId != sorted[|sorted| - 1].taskId;
        assert forall q <- inner :: q.taskId != last.taskId;
        assert InsertResult(tasks, sorted, r) == inner + [last];
      }
    }
  }

  lemma {:induction false} SortingKeeps(tasks: seq<Task>, results: seq<DomainTaskResult>)
    requires DistinctResults(results)
    ensures DistinctResults(SortByPlan(tasks, results))
    ensures forall r :: r in SortByPlan(tasks, results) <==> r in results
  {
    if results != [] {
      var init, last := results[..|results| - 1], results[|results| - 1];
      assert results == init + [last];
      SortingKeeps(tasks, init);
      forall q | q in SortByPlan(tasks, init)
        ensures q.taskId != last.taskId
      {
        var i :| 0 <= i < |init| && init[i] == q;
        assert results[i].taskId != results[|results| - 1].taskId;
      }
      InsertDistinct(tasks, SortByPlan(tasks, init), last);
    }
  }

  /** Exactly the tasks whose results are still to come are running. */
  predicate RunningAre(tasks: seq<Task>, ids: set<string>) {
    forall i :: 0 <= i < |tasks| ==> (tasks[i].status.Running? <==> tasks[i].id in ids)
  }

  lemma RestOfResults(results: seq<DomainTaskResult>)
    requires results != [] && DistinctResults(results)
    ensures DistinctResults(results[1..])
    ensures ResultIds(results[1..]) == ResultIds(results) - {results[0].taskId}
  {
    var rest := results[1..];
    forall x
      ensures x in ResultIds(rest) <==> x in ResultIds(results) && x != results[0].taskId
    {
      if x in ResultIds(rest) {
        var r :| r in rest && r.taskId == x;
        var i :| 0 <= i < |rest| && rest[i] == r;
        assert results[i + 1] in results && results[0].taskId != results[i + 1].taskId;
      }
      if x in ResultIds(results) && x != results[0].taskId {
        var r :| r in results && r.taskId == x;
        var i :| 0 <= i < |results| && results[i] == r;
        assert rest[i - 1] in rest;
      }
    }
  }

  lemma SettlingLeavesRest(a: seq<Task>, b: seq<Task>, k: nat, ids: set<string>)
    requires UniqueIds(a) && SettlesOne(a, b, k) && RunningAre(a, ids)
    ensures RunningAre(b, ids - {a[k].id})
  {
    OnlyOneChanges(a, k);
  }

  lemma {:induction false} MergingKeeps(base: Plan, m: MergeState, results: seq<DomainTaskResult>)
    requires PlanInv(PlanView(base, m)) && NoQueuedDraft(PlanView(base, m))
    requires DistinctResults(results) && forall r <- results :: r.WellShaped() && r.taskId in Ids(m.tasks)
    requires RunningAre(m.tasks, ResultIds(results))
    ensures PlanInv(PlanView(base, MergeAll(m, results))) && NoQueuedDraft(PlanView(base, MergeAll(m, results)))
    ensures No(PlanView(base, MergeAll(m, results)), Running)
    decreases |results|
  {
    if results != [] {
      var r := results[0];
      assert r in results && r.taskId in ResultIds(results);
      MergeOneTakesIn(base, m, r);
      MergeOneKeepsIds(m, r);
      RestOfResults(results);
      SettlingLeavesRest(m.tasks, MergeOne(m, r).tasks, IndexOf(m.tasks, r.taskId), ResultIds(results));
      MergingKeeps(base, MergeOne(m, r), results[1..]);
    } else {
      assert ResultIds(results) == {};
    }
  }

  lemma BatchKeeps(c: Conversation, results: seq<DomainTaskResult>)
    requires ConversationInv(c) && Enabled(c, BatchDone(results))
    ensures ConversationInv(ApplyBatch(c, results))
    ensures NoQueuedDraft(ApplyBatch(c, results).current)
  {
    var sorted := SortByPlan(c.current.tasks, results);
    SortingKeeps(c.current.tasks, results);
    assert ResultIds(sorted) == ResultIds(results);
    var m := StartMerge(c);
    assert PlanView(c.current, m) == c.current;
    MergingKeeps(c.current, m, sorted);
    var c' := ApplyBatch(c, results);
    assert c'.current == PlanView(c.current, MergeAll(m, sorted));
    NoIsNotHas(c'.current, WaitingInput);
  }
}
