/** What finished stays finished, dependents get what they depend on, and a cancel reports exactly what it did. */
module Progress {
  import opened Models
  import opened FailurePropagation
  import opened Workflow
  import opened PlanInvariants
  import opened Turns
  import opened Conversations
  import opened Addressing

  // ---- Finished for good ----------------------------------------------------------------------

  predicate FinishedAs(p: Plan, q: Plan, i: nat)
    requires i < |p.tasks|
  {
    var t := p.tasks[i];
    && i < |q.tasks| && q.tasks[i].id == t.id && q.tasks[i].status == t.status
    && (t.id in p.artifacts ==> t.id in q.artifacts && q.artifacts[t.id] == p.artifacts[t.id])
  }

  /** Every task that is over in `p` is over the same way in `q`, with the same artifact. */
  predicate Progresses(p: Plan, q: Plan) {
    forall i :: 0 <= i < |p.tasks| && Terminal(p.tasks[i]) ==> FinishedAs(p, q, i)
  }

  lemma ProgressIsTransitive(p: Plan, q: Plan, r: Plan)
    requires Progresses(p, q) && Progresses(q, r)
    ensures Progresses(p, r)
  {
    forall i | 0 <= i < |p.tasks| && Terminal(p.tasks[i])
      ensures FinishedAs(p, r, i)
    {
      assert FinishedAs(p, q, i) && FinishedAs(q, r, i);
    }
  }

  /** Only tasks that are not over change. */
  lemma EditingProgresses(p: Plan, q: Plan)
    requires |p.tasks| == |q.tasks| && p.artifacts == q.artifacts
    requires forall i :: 0 <= i < |p.tasks| ==>
               q.tasks[i].id == p.tasks[i].id && (Terminal(p.tasks[i]) ==> q.tasks[i] == p.tasks[i])
    ensures Progresses(p, q)
  {}

  lemma TakingInProgresses(p: Plan, q: Plan, k: nat)
    requires UniqueIds(p.tasks) && TakesIn(p, q, k)
    ensures Progresses(p, q)
  {
    OnlyOneChanges(p.tasks, k);
  }

  lemma {:induction false} MergingProgresses(base: Plan, m: MergeState, results: seq<DomainTaskResult>)
    requires PlanInv(PlanView(base, m)) && NoQueuedDraft(PlanView(base, m))
    requires DistinctResults(results) && forall r <- results :: r.WellShaped() && r.taskId in Ids(m.tasks)
    requires RunningAre(m.tasks, ResultIds(results))
    ensures Progresses(PlanView(base, m), PlanView(base, MergeAll(m, results)))
    decreases |results|
  {
    if results != [] {
      var r := results[0];
      assert r in results && r.taskId in ResultIds(results);
      MergeOneTakesIn(base, m, r);
      TakingInProgresses(PlanView(base, m), PlanView(base, MergeOne(m, r)), IndexOf(m.tasks, r.taskId));
      MergeOneKeepsIds(m, r);
      RestOfResults(results);
      SettlingLeavesRest(m.tasks, MergeOne(m, r).tasks, IndexOf(m.tasks, r.taskId), ResultIds(results));
      MergingProgresses(base, MergeOne(m, r), results[1..]);
      ProgressIsTransitive(PlanView(base, m), PlanView(base, MergeOne(m, r)), PlanView(base, MergeAll(m, results)));
    }
  }

  lemma BatchProgresses(c: Conversation, results: seq<DomainTaskResult>)
    requires ConversationInv(c) && Enabled(c, BatchDone(results))
    ensures Progresses(c.current, ApplyBatch(c, results).current)
  {
    var sorted := SortByPlan(c.current.tasks, results);
    var m := StartMerge(c);
    SortingKeeps(c.current.tasks, results);
    assert ResultIds(sorted) == ResultIds(results);
    assert PlanView(c.current, m) == c.current && m.tasks == c.current.tasks;
    MergingProgresses(c.current, m, sorted);
    assert ApplyBatch(c, results).current == PlanView(c.current, MergeAll(m, sorted));
  }

  lemma SelectionProgresses(parallel: bool, c: Conversation)
    requires UniqueIds(c.current.tasks)
    ensures Progresses(c.current, SelectTask(parallel, c).current)
  {
    var chosen := Selected(parallel, c.current.tasks);
    SelectedAreRunnable(parallel, c.current.tasks);
    MarkedAreChosen(c.current.tasks, chosen);
  }

  /** What a turn may make of the plan it is aimed at. */
  ghost predicate MadeFrom(ctx: ContextResolution, said: string, target: Plan, q: Plan) {
    var revised := RevisePlan(target, ctx.revisions, said);
    q == target || q == revised || q == RequeueWaiting(revised) || q == Abandoned(ctx, target, true)
    || q == Abandoned(ctx, target, false)
  }

  lemma AbandoningProgresses(ctx: ContextResolution, target: Plan, isCurrent: bool)
    requires UniqueIds(target.tasks)
    ensures Progresses(target, Abandoned(ctx, target, isCurrent))
  {
    CancelDrops(target, ChosenToCancel(ctx, target), isCurrent);
    EditingProgresses(target, Abandoned(ctx, target, isCurrent));
  }

  lemma MakingProgresses(ctx: ContextResolution, said: string, target: Plan, q: Plan)
    requires UniqueIds(target.tasks) && MadeFrom(ctx, said, target, q)
    ensures Progresses(target, q)
  {
    var revised := RevisePlan(target, ctx.revisions, said);
    EditingProgresses(target, revised);
    EditingProgresses(target, RequeueWaiting(revised));
    AbandoningProgresses(ctx, target, true);
    AbandoningProgresses(ctx, target, false);
  }

  lemma PlansAfterTurn(c: Conversation, ctx: ContextResolution, said: string, freshNew: string, q: Plan)
    requires q in Plans(Decide(c, ctx, said, freshNew))
    ensures q in Plans(c) || q.planId == freshNew
            || (TargetOf(c, ctx).Some? && q.planId == TargetOf(c, ctx).value.planId && MadeFrom(ctx, said,
                    TargetOf(c, ctx).value, q))
  {
    if TargetOf(c, ctx).Some? {
      var target := TargetOf(c, ctx).value;
      var revised := RevisePlan(target, ctx.revisions, said);
      if ctx.relation.Cancel? {
        assert Decide(c, ctx, said, freshNew) == CancelPlan(c, ctx, target);
        CancelledPlans(c, ctx, target, q);
      } else {
        assert forall x <- ReplacePlan(c.shelved, revised) :: x == revised || x in c.shelved;
      }
    }
  }

  lemma CancelledPlans(c: Conversation, ctx: ContextResolution, target: Plan, q: Plan)
    requires q in Plans(CancelPlan(c, ctx, target))
    ensures q in Plans(c) || q == Abandoned(ctx, target, target.planId == c.current.planId)
  {
    var abandoned := Abandoned(ctx, target, false);
    assert forall x <- ReplacePlan(c.shelved, abandoned) :: x == abandoned || x in c.shelved;
  }

  lemma TurnProgresses(c: Conversation, ctx: ContextResolution, said: string, freshNew: string, p: Plan, q: Plan)
    requires OpenedOK(c) && p in Plans(c) && q in Plans(Decide(c, ctx, said, freshNew)) && p.planId == q.planId
    requires FreshId(c, freshNew)
    ensures Progresses(p, q)
  {
    PlansAfterTurn(c, ctx, said, freshNew, q);
    if q in Plans(c) {
      OnePlanPerId(c, p, q);
    } else {
      TargetIsPresent(c, ctx);
      OnePlanPerId(c, p, TargetOf(c, ctx).value);
      MakingProgresses(ctx, said, p, q);
    }
  }

  lemma UserTurnProgresses(c: Conversation, e: Event, p: Plan, q: Plan)
    requires ConversationInv(c) && e.UserTurn? && Enabled(c, e) && p in Plans(c) && p.planId == q.planId
             && p.planId != ""
    requires q in Plans(Understand(c, e.ctx, e.said, e.freshCurrent, e.freshNew))
    ensures Progresses(p, q)
  {
    var o := Opened(c, e.ctx, e.freshCurrent);
    OpeningKeeps(c, e.ctx, e.freshCurrent);
    var p0 := OpeningProgresses(c, e.ctx, e.freshCurrent, p);
    assert FreshId(o, e.freshNew);
    TurnProgresses(o, e.ctx, e.said, e.freshNew, p0, q);
    ProgressIsTransitive(p, p0, q);
  }

  lemma OpeningProgresses(c: Conversation, ctx: ContextResolution, freshCurrent: string, p: Plan) returns (p0: Plan)
    requires p in Plans(c) && p.planId != ""
    ensures p0 in Plans(Opened(c, ctx, freshCurrent)) && p0.planId == p.planId && Progresses(p, p0)
  {
    p0 := if p == c.current then Opened(c, ctx, freshCurrent).current else p;
    EditingProgresses(p, p0);
    assert p in c.shelved ==> p in Plans(Opened(c, ctx, freshCurrent));
  }

  lemma CurrentProgresses(parallel: bool, c: Conversation, e: Event)
    requires ConversationInv(c) && Enabled(c, e) && !e.UserTurn?
    ensures Progresses(c.current, Step(parallel, c, e).current)
  {
    if e.Selection? {
      SelectionProgresses(parallel, c);
    } else if e.BatchDone? {
      BatchProgresses(c, e.results);
    }
  }

  /**
   * No event ever changes a finished task of any plan, current or shelved: a completed task stays completed with the
   * same artifact, a rejected or failed one stays so.
   */
  lemma FinishedStaysFinished(parallel: bool, c: Conversation, e: Event, p: Plan, q: Plan)
    requires Inv(parallel, c) && Enabled(c, e)
    requires p in Plans(c) && q in Plans(Step(parallel, c, e)) && p.planId == q.planId && p.planId != ""
    ensures Progresses(p, q)
  {
    if e.UserTurn? {
      UserTurnProgresses(c, e, p, q);
    } else {
      KeptPlans(c, Step(parallel, c, e), p, q);
      CurrentProgresses(parallel, c, e);
    }
  }

  lemma KeptPlans(c: Conversation, c': Conversation, p: Plan, q: Plan)
    requires PlanIdsDistinct(c) && c'.shelved == c.shelved && c'.current.planId == c.current.planId
    requires p in Plans(c) && q in Plans(c') && p.planId == q.planId
    ensures p == q || (p == c.current && q == c'.current)
  {
    if p in c.shelved && q in c.shelved {
      OnePlanPerId(c, p, q);
    }
  }

  /** The plan called `planId` at every state from `n` on. */
  ghost predicate Follow(trace: seq<Conversation>, plans: seq<Plan>, n: nat)
    requires n + |plans| <= |trace|
  {
    forall k :: 0 <= k < |plans| ==> plans[k] in Plans(trace[n + k]) && plans[k].planId == plans[0].planId
  }

  /** Along any stretch of any conversation, for as long as a plan is kept, what finished in it stays finished. */
  lemma {:induction false} FinishedForGood(parallel: bool, trace: seq<Conversation>, events: seq<Event>, n: nat,
          plans: seq<Plan>)
    requires Run(parallel, trace, events) && StartsFresh(trace) && n + |plans| <= |trace| && plans != []
    requires Follow(trace, plans, n) && plans[0].planId != ""
    ensures Progresses(plans[0], plans[|plans| - 1])
    decreases |plans|
  {
    var last := |plans| - 1;
    if last > 0 {
      FinishedForGood(parallel, trace, events, n, plans[..last]);
      RunKeeps(parallel, trace, events, n + last - 1);
      assert Follows(parallel, trace[n + last - 1], events[n + last - 1], trace[n + last]);
      FinishedStaysFinished(parallel, trace[n + last - 1], events[n + last - 1], plans[last - 1], plans[last]);
      ProgressIsTransitive(plans[0], plans[last - 1], plans[last]);
    }
  }

  // ---- Dependencies ---------------------------------------------------------------------------

  lemma CompletedHasArtifact(p: Plan, d: string)
    requires TasksOK(p) && d in CompletedIds(p.tasks)
    ensures d in p.artifacts && p.artifacts[d] != map[]
  {
    var t :| t in p.tasks && t.id == d && t.status.Completed?;
    var i :| 0 <= i < |p.tasks| && p.tasks[i] == t;
    assert TaskOK(p, i);
  }

  /** Every dispatched request carries a non-empty artifact for each dependency, and nothing else. */
  lemma {:induction false} RequestsCarryTheirDependencies(parallel: bool, c: Conversation, b: DomainTaskRequest)
    requires ConversationInv(c) && SelectTask(parallel, c).phase.Executing? && b in SelectTask(parallel, c).phase.batch
    ensures b.dependencyResults.Keys == (set d <- b.task.dependsOn)
    ensures forall d <- b.dependencyResults :: b.dependencyResults[d] == c.current.artifacts[d] != map[]
  {
    var chosen := Selected(parallel, c.current.tasks);
    SelectedAreRunnable(parallel, c.current.tasks);
    var i :| 0 <= i < |chosen| && SelectTask(parallel, c).phase.batch[i] == b;
    assert b.task == chosen[i] && chosen[i] in chosen;
    forall d | d in b.task.dependsOn
      ensures d in c.current.artifacts && c.current.artifacts[d] != map[]
    {
      CompletedHasArtifact(c.current, d);
    }
  }

  /** What the others are told about a list of tasks. */
  function Briefs(tasks: seq<Task>): seq<TaskBrief> {
    seq(|tasks|, i requires 0 <= i < |tasks| => TaskBrief(tasks[i].title, tasks[i].status))
  }

  lemma {:induction false} BriefsOfAll(tasks: seq<Task>, id: string)
    requires forall i :: 0 <= i < |tasks| ==> tasks[i].id != id
    ensures BriefsOfOthers(tasks, id) == Briefs(tasks)
  {
    if tasks != [] {
      BriefsOfAll(tasks[1..], id);
    }
  }

  lemma {:induction false} BriefsLeaveOutOne(tasks: seq<Task>, k: nat)
    requires UniqueIds(tasks) && k < |tasks|
    ensures BriefsOfOthers(tasks, tasks[k].id) == Briefs(tasks[..k] + tasks[k + 1..])
  {
    if k == 0 {
      BriefsOfAll(tasks[1..], tasks[0].id);
      assert tasks[..0] + tasks[1..] == tasks[1..];
    } else {
      BriefsLeaveOutOne(tasks[1..], k - 1);
      assert tasks[..k] + tasks[k + 1..] == [tasks[0]] + (tasks[1..][..k - 1] + tasks[1..][k..]);
    }
  }

  /**
   * Each request is for a task of the plan, and tells it of every other task, in plan order, as it is after this
   * selection.
   */
  lemma RequestIsForOneTask(parallel: bool, c: Conversation, i: nat) returns (k: nat)
    requires UniqueIds(c.current.tasks) && SelectTask(parallel, c).phase.Executing?
    requires i < |SelectTask(parallel, c).phase.batch|
    ensures var next := SelectTask(parallel, c); var b := next.phase.batch[i];
            && k < |c.current.tasks| == |next.current.tasks| && b.task == c.current.tasks[k] && b.task.status.Pending?
            && b.otherTasks == Briefs(next.current.tasks[..k] + next.current.tasks[k + 1..])
  {
    var chosen, next := Selected(parallel, c.current.tasks), SelectTask(parallel, c);
    SelectedAreRunnable(parallel, c.current.tasks);
    assert chosen[i] in chosen;
    k :| 0 <= k < |c.current.tasks| && c.current.tasks[k] == chosen[i];
    BriefsLeaveOutOne(next.current.tasks, k);
  }

  /** The goal of the plan; a plan that has none yet stands for this turn's request. */
  function PlanGoal(p: Plan, ctx: ContextResolution): string {
    if p.userGoal != "" then p.userGoal else ctx.standaloneRequest
  }

  lemma RequeuedTasksHearTheTurn(parallel: bool, c: Conversation, p: Plan, i: nat) returns (k: nat)
    requires c.current == RequeueWaiting(p) && UniqueIds(p.tasks) && TasksOK(p) && NoQueuedDraft(p)
    requires SelectTask(parallel, c).phase.Executing? && i < |SelectTask(parallel, c).phase.batch|
    ensures var next := SelectTask(parallel, c); var b := next.phase.batch[i];
            && k < |p.tasks| == |next.current.tasks| && b.task.id == p.tasks[k].id
            && b.otherTasks == Briefs(next.current.tasks[..k] + next.current.tasks[k + 1..])
            && (b.draft.Some? <==> p.tasks[k].status.WaitingInput?)
            && (b.draft.Some? ==> p.tasks[k].id in p.drafts && b.draft.value == p.drafts[p.tasks[k].id])
            && b.userGoal == if b.draft.Some? then c.context.standaloneRequest else PlanGoal(p, c.context)
  {
    assert forall j :: 0 <= j < |p.tasks| ==> c.current.tasks[j].id == p.tasks[j].id;
    k := RequestIsForOneTask(parallel, c, i);
    assert TaskOK(p, k);
  }

  /**
   * In a turn that continues `p`, a dispatched task gets its draft and this turn's request exactly if it was waiting
   * when the turn began; any other gets the plan's goal and no draft.
   */
  lemma ResumedTasksHearTheTurn(parallel: bool, c: Conversation, ctx: ContextResolution, said: string, freshNew: string,
                                p: Plan, i: nat) returns (k: nat)
    requires Ready(parallel, c) && c.context == ctx && IsOpen(c, p) && TargetOf(c, ctx) == Some(p)
    requires ctx.relation.Continue? || (ctx.relation.Revise? && CorrectsWaiting(p, ctx.revisions))
    requires var next := SelectTask(parallel, Decide(c, ctx, said, freshNew));
             next.phase.Executing? && i < |next.phase.batch|
    ensures var next := SelectTask(parallel, Decide(c, ctx, said, freshNew)); var b := next.phase.batch[i];
            && k < |p.tasks| == |next.current.tasks| && b.task.id == p.tasks[k].id
            && b.otherTasks == Briefs(next.current.tasks[..k] + next.current.tasks[k + 1..])
            && (b.draft.Some? <==> p.tasks[k].status.WaitingInput?)
            && (b.draft.Some? ==> p.tasks[k].id in p.drafts && b.draft.value == p.drafts[p.tasks[k].id])
            && b.userGoal == if b.draft.Some? then ctx.standaloneRequest else PlanGoal(p, ctx)
  {
    var revised := RevisePlan(p, ctx.revisions, said);
    TargetIsPresent(c, ctx);
    ReviseKeeps(p, ctx.revisions, said);
    assert Decide(c, ctx, said, freshNew).current == RequeueWaiting(revised);
    k := RequeuedTasksHearTheTurn(parallel, Decide(c, ctx, said, freshNew), revised, i);
  }

  lemma FreshTasksHearThePlanGoal(parallel: bool, c: Conversation, i: nat)
    requires UniqueIds(c.current.tasks) && NoQueuedDraft(c.current)
    requires SelectTask(parallel, c).phase.Executing? && i < |SelectTask(parallel, c).phase.batch|
    ensures var b := SelectTask(parallel, c).phase.batch[i];
            b.draft == None && b.userGoal == PlanGoal(c.current, c.context)
  {
    var k := RequestIsForOneTask(parallel, c, i);
    assert c.current.tasks[k].id !in c.current.drafts;
  }

  /** Later batches of a turn resume nothing: every task gets the plan's goal and no draft. */
  lemma LaterTasksHearThePlanGoal(parallel: bool, c: Conversation, results: seq<DomainTaskResult>, i: nat)
    requires ConversationInv(c) && Enabled(c, BatchDone(results))
    requires var next := SelectTask(parallel, ApplyBatch(c, results)); next.phase.Executing? && i < |next.phase.batch|
    ensures var b := SelectTask(parallel, ApplyBatch(c, results)).phase.batch[i];
            b.draft == None && b.userGoal == PlanGoal(c.current, c.context)
  {
    BatchKeeps(c, results);
    FreshTasksHearThePlanGoal(parallel, ApplyBatch(c, results), i);
  }

  /** In every reachable state, whatever runs, waits, completed or failed has only completed dependencies. */
  lemma StartedMeansDependenciesDone(parallel: bool, trace: seq<Conversation>, events: seq<Event>, n: nat, p: Plan,
          i: nat, j: nat)
    requires Run(parallel, trace, events) && StartsFresh(trace) && n < |trace| && p in Plans(trace[n])
    requires i < |p.tasks| && j < |p.tasks| && Started(p.tasks[i].status) && p.tasks[j].id in p.tasks[i].dependsOn
    ensures p.tasks[j].status.Completed?
  {
    RunKeeps(parallel, trace, events, n);
    assert PlanInv(p) && TaskOK(p, i);
    DoneIsNotDead(p.tasks, p.tasks[i], j);
  }

  // ---- Cancelling -----------------------------------------------------------------------------

  /** Nobody has finished it and nobody is working on it. */
  predicate StillToDo(t: Task) {
    t.status.WaitingInput? || t.status.Pending?
  }

  /** The titles of what was still to do in `a` and is rejected in `b`, in plan order. */
  ghost function GivenUp(a: seq<Task>, b: seq<Task>): seq<string>
    requires |a| == |b|
  {
    if a == [] then []
    else (if StillToDo(a[0]) && b[0].status.Rejected? then [b[0].title] else []) + GivenUp(a[1..], b[1..])
  }

  lemma {:induction false} TitlesAreGivenUp(a: seq<Task>, b: seq<Task>, unfinished: set<string>)
    requires |a| == |b| && forall i :: 0 <= i < |a| ==> (b[i].id in unfinished <==> Unfinished(a[i]))
    ensures DroppedTitles(b, unfinished) == GivenUp(a, b)
  {
    if a != [] {
      TitlesAreGivenUp(a[1..], b[1..], unfinished);
    }
  }

  lemma UnfinishedByIndex(a: seq<Task>, i: nat)
    requires UniqueIds(a) && i < |a|
    ensures a[i].id in UnfinishedIds(a) <==> Unfinished(a[i])
  {
    if a[i].id in UnfinishedIds(a) {
      ChosenAreUnfinished(a, i);
    } else {
      assert a[i] in a;
    }
  }

  /** The plan is put back where it was, or taken off the shelf if nothing of it is left to do; nothing else changes. */
  predicate PutBack(c: Conversation, next: Conversation, plan: Plan, leaves: bool) {
    && next == c.(current := next.current, shelved := next.shelved, reply := next.reply, phase := next.phase)
    && if plan.planId == c.current.planId then next.current == plan && next.shelved == c.shelved
       else next.current == c.current
            && next.shelved == if leaves then RemovePlan(c.shelved, plan.planId) else ReplacePlan(c.shelved, plan)
  }

  /** The drafts of tasks given up are dropped, all others kept. */
  predicate DraftsFollow(p: Plan, q: Plan) {
    && (forall x <- q.drafts :: x in p.drafts && q.drafts[x] == p.drafts[x])
    && (forall i :: 0 <= i < |p.tasks| && |q.tasks| == |p.tasks| && p.tasks[i].id in p.drafts ==>
          (p.tasks[i].id in q.drafts <==> !(StillToDo(p.tasks[i]) && q.tasks[i].status.Rejected?)))
  }

  predicate NothingLeft(p: Plan, q: Plan) {
    forall i :: 0 <= i < |p.tasks| && |q.tasks| == |p.tasks| && StillToDo(p.tasks[i]) ==> q.tasks[i].status.Rejected?
  }

  /** The turn names this task for cancelling; naming none names all. */
  predicate ToCancel(ctx: ContextResolution, t: Task) {
    && StillToDo(t)
    && (ctx.cancelTaskIds == [] || exists k :: 0 <= k < |ctx.cancelTaskIds| && ctx.cancelTaskIds[k] == t.id)
  }

  predicate CancelsSomething(ctx: ContextResolution, target: Plan) {
    exists i :: 0 <= i < |target.tasks| && ToCancel(ctx, target.tasks[i])
  }

  /** The plan with just the named tasks rejected. */
  function WithoutNamed(ctx: ContextResolution, tasks: seq<Task>): (r: seq<Task>)
    ensures |r| == |tasks|
  {
    seq(|tasks|, i requires 0 <= i < |tasks| =>
      if ToCancel(ctx, tasks[i]) then tasks[i].(status := Rejected) else tasks[i])
  }

  /** Every question of the matter is among what is given up. */
  predicate NoQuestionLeft(ctx: ContextResolution, target: Plan) {
    forall i :: 0 <= i < |target.tasks| && target.tasks[i].status.WaitingInput? ==> ToCancel(ctx, target.tasks[i])
  }

  /** Why a task is given up: it is named, it depends on one that is, or its shelved matter has no question left. */
  ghost predicate GoesAlong(ctx: ContextResolution, target: Plan, isCurrent: bool, i: nat)
    requires i < |target.tasks|
  {
    || ToCancel(ctx, target.tasks[i])
    || Blocked(WithoutNamed(ctx, target.tasks), i)
    || (!isCurrent && NoQuestionLeft(ctx, target) && StillToDo(target.tasks[i]))
  }

  lemma NamedAreChosen(ctx: ContextResolution, target: Plan)
    requires UniqueIds(target.tasks)
    ensures WithoutNamed(ctx, target.tasks) == RejectIds(target.tasks, ChosenToCancel(ctx, target))
    ensures ChosenToCancel(ctx, target) != {} <==> CancelsSomething(ctx, target)
  {
    var chosen := ChosenToCancel(ctx, target);
    forall i | 0 <= i < |target.tasks|
      ensures target.tasks[i].id in chosen <==> ToCancel(ctx, target.tasks[i])
    {
      UnfinishedByIndex(target.tasks, i);
    }
    if x :| x in chosen {
      var t :| t in target.tasks && t.id == x;
      var i :| 0 <= i < |target.tasks| && target.tasks[i] == t;
    }
  }

  lemma QuestionsLeft(ctx: ContextResolution, target: Plan)
    ensures HasStatus(RejectBlocked(WithoutNamed(ctx, target.tasks)), WaitingInput) <==> !NoQuestionLeft(ctx, target)
  {
    var rejected := RejectBlocked(WithoutNamed(ctx, target.tasks));
    if HasStatus(rejected, WaitingInput) {
      var t :| t in rejected && t.status.WaitingInput?;
      var i :| 0 <= i < |rejected| && rejected[i] == t;
    } else {
      forall i | 0 <= i < |target.tasks| && target.tasks[i].status.WaitingInput?
        ensures ToCancel(ctx, target.tasks[i])
      {
        assert rejected[i] in rejected;
      }
    }
  }

  /**
   * A cancel that names something unfinished changes only unfinished tasks, to rejected: exactly the named ones, those
   * that depend on them, and the rest of a shelved matter that has no question left. The conversation keeps the plan so
   * changed, without a shelved one of which nothing is left. The reply lists exactly the tasks given up, says "the
   * whole matter" exactly when nothing is left, and work goes on exactly if the current plan still has queued tasks but
   * no question.
   */
  lemma CancelSaysWhatItDid(c: Conversation, ctx: ContextResolution, target: Plan) returns (kept: Plan)
    requires UniqueIds(target.tasks) && CancelsSomething(ctx, target)
    ensures CancelledTo(c, ctx, target, CancelPlan(c, ctx, target), kept)
  {
    var isCurrent := target.planId == c.current.planId;
    kept := Abandoned(ctx, target, isCurrent);
    NamedAreChosen(ctx, target);
    CancelReplies(c, ctx, target);
    ExactlyTheseGo(ctx, target, isCurrent);
    DraftsGoAlong(ctx, target, isCurrent);
    KeptIsPutBack(c, ctx, target);
  }

  lemma DraftsGoAlong(ctx: ContextResolution, target: Plan, isCurrent: bool)
    requires UniqueIds(target.tasks) && OnlyDrops(target.tasks, Abandoned(ctx, target, isCurrent).tasks)
    ensures DraftsFollow(target, Abandoned(ctx, target, isCurrent))
  {
    var kept := Abandoned(ctx, target, isCurrent);
    forall i | 0 <= i < |target.tasks|
      ensures target.tasks[i].id in DroppedIds(kept.tasks, UnfinishedIds(target.tasks))
              <==> Unfinished(target.tasks[i]) && kept.tasks[i].status.Rejected?
    {
      DroppedExactly(target.tasks, kept.tasks, i);
    }
  }

  lemma KeptIsPutBack(c: Conversation, ctx: ContextResolution, target: Plan)
    requires UniqueIds(target.tasks) && ChosenToCancel(ctx, target) != {}
    ensures var next, kept := CancelPlan(c, ctx, target), Abandoned(ctx, target, target.planId == c.current.planId);
            && |kept.tasks| == |target.tasks| && PutBack(c, next, kept, NothingLeft(target, kept))
            && next.reply
               == Some(Dropped(GivenUp(target.tasks, kept.tasks), NothingLeft(target, kept),
                               HasStatus(kept.tasks, Completed)))
            && next.phase
               == if next.current == kept && !Waiting(kept) && HasStatus(kept.tasks, Pending) then Selecting else Idle
  {
    CancelReplies(c, ctx, target);
  }

  lemma ExactlyTheseGo(ctx: ContextResolution, target: Plan, isCurrent: bool)
    requires UniqueIds(target.tasks) && CancelsSomething(ctx, target)
    ensures var tasks := Abandoned(ctx, target, isCurrent).tasks;
            && |tasks| == |target.tasks|
            && forall i :: 0 <= i < |tasks| ==> (tasks[i] != target.tasks[i] <==> GoesAlong(ctx, target, isCurrent, i))
  {
    var tasks := Abandoned(ctx, target, isCurrent).tasks;
    NamedAreChosen(ctx, target);
    QuestionsLeft(ctx, target);
    forall i | 0 <= i < |target.tasks|
      ensures tasks[i] != target.tasks[i] <==> GoesAlong(ctx, target, isCurrent, i)
    {
      RejectsExactlyTheBlocked(WithoutNamed(ctx, target.tasks), i);
      UnfinishedByIndex(target.tasks, i);
    }
  }

  /** What a cancel of something leaves behind, `kept` being the plan it was aimed at. */
  ghost predicate CancelledTo(c: Conversation, ctx: ContextResolution, target: Plan, next: Conversation, kept: Plan) {
    && kept == target.(tasks := kept.tasks, drafts := kept.drafts)
    && OnlyDrops(target.tasks, kept.tasks) && DraftsFollow(target, kept)
    && (forall i :: 0 <= i < |target.tasks| ==>
          (kept.tasks[i] != target.tasks[i] <==> GoesAlong(ctx, target, target.planId == c.current.planId, i)))
    && PutBack(c, next, kept, NothingLeft(target, kept))
    && next.reply
       == Some(Dropped(GivenUp(target.tasks, kept.tasks), NothingLeft(target, kept), HasStatus(kept.tasks, Completed)))
    && next.phase
       == if next.current == kept && !Waiting(kept) && HasStatus(kept.tasks, Pending) then Selecting else Idle
  }

  /** A cancel that names nothing unfinished says so and changes nothing. */
  lemma NothingToGiveUp(c: Conversation, ctx: ContextResolution, target: Plan)
    requires UniqueIds(target.tasks) && !CancelsSomething(ctx, target)
    ensures CancelPlan(c, ctx, target) == c.(reply := Some(NothingToCancel), phase := Idle)
  {
    NamedAreChosen(ctx, target);
  }

  lemma CancelReplies(c: Conversation, ctx: ContextResolution, target: Plan)
    requires UniqueIds(target.tasks) && ChosenToCancel(ctx, target) != {}
    ensures var kept := Abandoned(ctx, target, target.planId == c.current.planId);
            && OnlyDrops(target.tasks, kept.tasks)
            && (|DroppedTitles(kept.tasks, UnfinishedIds(target.tasks))| == |UnfinishedIds(target.tasks)|
                <==> NothingLeft(target, kept))
            && DroppedTitles(kept.tasks, UnfinishedIds(target.tasks)) == GivenUp(target.tasks, kept.tasks)
  {
    var isCurrent := target.planId == c.current.planId;
    var a, b := target.tasks, Abandoned(ctx, target, isCurrent).tasks;
    CancelDrops(target, ChosenToCancel(ctx, target), isCurrent);
    WholeIffAllRejected(a, b);
    forall i | 0 <= i < |a|
      ensures b[i].id in UnfinishedIds(a) <==> Unfinished(a[i])
    {
      UnfinishedByIndex(a, i);
    }
    TitlesAreGivenUp(a, b, UnfinishedIds(a));
  }

  // ---- Revising -------------------------------------------------------------------------------

  /** The new titles of what differs, in plan order. */
  ghost function NewTitles(a: seq<Task>, b: seq<Task>, revisions: seq<TaskRevision>): seq<string>
    requires |a| == |b|
  {
    if a == [] then []
    else (if a[0].status.Pending? && exists r <- revisions :: r.taskId == a[0].id then [b[0].title] else [])
         + NewTitles(a[1..], b[1..], revisions)
  }

  lemma {:induction false} LastRevisionCounts(revisions: seq<TaskRevision>, id: string)
    ensures RevisionFor(revisions, id).Some? <==> exists r <- revisions :: r.taskId == id
    ensures RevisionFor(revisions, id).Some? ==>
              exists k: nat :: LastFor(revisions, id, k) && RevisionFor(revisions, id).value == revisions[k]
  {
    if revisions != [] {
      var init, last := revisions[..|revisions| - 1], revisions[|revisions| - 1];
      assert revisions == init + [last];
      LastRevisionCounts(init, id);
      if last.taskId == id {
        assert LastFor(revisions, id, |revisions| - 1);
      } else if RevisionFor(init, id).Some? {
        var k: nat :| LastFor(init, id, k) && RevisionFor(init, id).value == init[k];
        assert LastFor(revisions, id, k) && revisions[k] == init[k];
      }
    }
  }

  lemma {:induction false} RevisedTitlesAreNew(a: seq<Task>, b: seq<Task>, revisions: seq<TaskRevision>, said: string)
    requires |a| == |b| && forall i :: 0 <= i < |a| ==> b[i] == ReviseTask(a[i], revisions, said)
    ensures RevisedTitles(a, revisions) == NewTitles(a, b, revisions)
  {
    if a != [] {
      LastRevisionCounts(revisions, a[0].id);
      RevisedTitlesAreNew(a[1..], b[1..], revisions, said);
    }
  }

  lemma {:induction false} NoTitleNoChange(a: seq<Task>, b: seq<Task>, revisions: seq<TaskRevision>, said: string)
    requires |a| == |b| && forall i :: 0 <= i < |a| ==> b[i] == ReviseTask(a[i], revisions, said)
    ensures NewTitles(a, b, revisions) == [] ==> a == b
  {
    if a != [] {
      LastRevisionCounts(revisions, a[0].id);
      NoTitleNoChange(a[1..], b[1..], revisions, said);
      assert a == [a[0]] + a[1..] && b == [b[0]] + b[1..];
    }
  }

  /**
   * A correction that names nothing waiting changes exactly the queued tasks it names, each to a named title and
   * objective and with the user's words kept. The conversation holds the plan so changed, and nothing else is
   * different; the reply lists exactly the new titles, or says that there was nothing to change.
   */
  lemma RevisionSaysWhatItDid(c: Conversation, ctx: ContextResolution, said: string, freshNew: string, target: Plan)
    returns (kept: Plan)
    requires ctx.relation.Revise? && TargetOf(c, ctx) == Some(target) && !CorrectsQuestion(target, ctx.revisions)
    ensures CorrectedTo(c, ctx, said, target, Decide(c, ctx, said, freshNew), kept)
  {
    kept := RevisePlan(target, ctx.revisions, said);
    QuestionsCorrected(target, ctx.revisions);
    RevisedTitlesAreNew(target.tasks, kept.tasks, ctx.revisions, said);
    NoTitleNoChange(target.tasks, kept.tasks, ctx.revisions, said);
    forall i | 0 <= i < |target.tasks|
      ensures RevisedRight(target.tasks[i], kept.tasks[i], ctx.revisions, said)
    {
      LastRevisionCounts(ctx.revisions, target.tasks[i].id);
    }
  }

  predicate CorrectsQuestion(p: Plan, revisions: seq<TaskRevision>) {
    exists i :: 0 <= i < |p.tasks| && p.tasks[i].status.WaitingInput?
                && exists r <- revisions :: r.taskId == p.tasks[i].id
  }

  lemma QuestionsCorrected(p: Plan, revisions: seq<TaskRevision>)
    ensures CorrectsWaiting(p, revisions) <==> CorrectsQuestion(p, revisions)
  {
    if CorrectsWaiting(p, revisions) {
      var t :| t in p.tasks && t.status.WaitingInput? && RevisionFor(revisions, t.id).Some?;
      var i :| 0 <= i < |p.tasks| && p.tasks[i] == t;
      LastRevisionCounts(revisions, t.id);
    }
    if CorrectsQuestion(p, revisions) {
      var i :| 0 <= i < |p.tasks| && p.tasks[i].status.WaitingInput?
               && exists r <- revisions :: r.taskId == p.tasks[i].id;
      LastRevisionCounts(revisions, p.tasks[i].id);
      assert p.tasks[i] in p.tasks;
    }
  }

  /** What a correction of queued tasks leaves behind. */
  ghost predicate CorrectedTo(c: Conversation, ctx: ContextResolution, said: string, target: Plan, next: Conversation,
                              kept: Plan) {
    && kept == target.(tasks := kept.tasks) && |kept.tasks| == |target.tasks|
    && (forall i :: 0 <= i < |target.tasks| ==> RevisedRight(target.tasks[i], kept.tasks[i], ctx.revisions, said))
    && var titles := NewTitles(target.tasks, kept.tasks, ctx.revisions);
       if titles == [] then kept == target && next == c.(reply := Some(NothingToRevise), phase := Idle)
       else PutBack(c, next, kept, false) && next.reply == Some(Updated(titles)) && next.phase.Idle?
  }

  /** `b` is `a` with this revision's title and objective and the user's words. */
  predicate RevisedBy(a: Task, b: Task, r: TaskRevision, said: string) {
    b == a.(title := r.title, objective := r.objective,
            supplements := a.supplements + if said == "" then [] else [said])
  }

  /** The last revision that names this task. */
  predicate LastFor(revisions: seq<TaskRevision>, id: string, k: nat) {
    k < |revisions| && revisions[k].taskId == id && forall j :: k < j < |revisions| ==> revisions[j].taskId != id
  }

  ghost predicate RevisedRight(a: Task, b: Task, revisions: seq<TaskRevision>, said: string) {
    if a.status.Pending? && exists r <- revisions :: r.taskId == a.id
    then exists k: nat :: LastFor(revisions, a.id, k) && RevisedBy(a, b, revisions[k], said)
    else b == a
  }
}
