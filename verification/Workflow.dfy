/**
 * The turn machine (graph/workflow.py): one user turn goes through `understand`, optionally `plan`, and then alternates
 * `select_task` and `apply_domain_result` until nothing is left to do or a task waits for the user.
 * The language model is replaced by its validated output (`ContextResolution`) and by domain results.
 */
module Workflow {
  import opened Text
  import opened Models
  import opened FailurePropagation
  import opened Matters
  import opened PlanValidation

  datatype TurnRelation = New | Continue | Cancel | Revise

  datatype TaskRevision = TaskRevision(taskId: string, title: string, objective: string)

  datatype ContextResolution = ContextResolution(
    standaloneRequest: string,
    requiresPlanning: bool,
    relation: TurnRelation,
    targetPlanId: Option<string>,
    revisions: seq<TaskRevision>,
    cancelTaskIds: seq<string>,
    outlines: seq<Outline>,
    reply: string)
  {
    /** The validators of the supervisor's structured output. */
    predicate Valid() {
      && standaloneRequest != ""
      && |outlines| <= 20 && |revisions| <= 20 && |cancelTaskIds| <= 20
      && (forall i :: 0 <= i < |outlines| ==> Usable(outlines, i))
      && (!requiresPlanning && relation !in {Cancel, Revise} ==> Strip(reply) != "")
      && (relation.Continue? ==> requiresPlanning)
      && (relation.Revise? ==> !requiresPlanning && revisions != [])
      && (revisions != [] ==> relation in {Continue, Revise})
    }
  }

  /** What the runtime itself answers when a turn executes nothing. */
  datatype Reply =
    | Said(text: string)
    | NothingToCancel
    | NothingToRevise
    | Updated(titles: seq<string>)
    | Dropped(titles: seq<string>, whole: bool, someCompleted: bool)

  datatype TaskBrief = TaskBrief(title: string, status: TaskStatus)

  datatype DomainTaskRequest = DomainTaskRequest(
    userGoal: string,
    task: Task,
    dependencyResults: map<string, Artifact>,
    draft: Option<TaskDraft>,
    otherTasks: seq<TaskBrief>)

  datatype AssistantMessage = AssistantMessage(text: string, taskId: Option<string>)

  datatype Phase = Idle | Planning | Selecting | Executing(batch: seq<DomainTaskRequest>)

  /** One conversation's checkpoint. `phase` is the node that runs next; `Idle` waits for the user. */
  datatype Conversation = Conversation(
    current: Plan,
    shelved: seq<Plan>,
    phase: Phase,
    context: ContextResolution,
    toolResults: seq<ToolResult>,
    answers: seq<string>,
    messages: seq<AssistantMessage>,
    reply: Option<Reply>)

  const MAX_HANDOFFS := 2

  // ---- understand ---------------------------------------------------------------------------

  /** `current_plan`: a checkpoint older than plan ids gets one. */
  function CurrentPlan(c: Conversation, freshId: string): Plan {
    if c.current.planId == "" then c.current.(planId := freshId) else c.current
  }

  function FindPlan(plans: seq<Plan>, planId: string): (r: Option<Plan>)
    ensures r.Some? ==> r.value in plans && r.value.planId == planId
    ensures r.None? ==> forall p <- plans :: p.planId != planId
  {
    if plans == [] then None
    else if plans[0].planId == planId then Some(plans[0])
    else FindPlan(plans[1..], planId)
  }

  function RemovePlan(plans: seq<Plan>, planId: string): (r: seq<Plan>)
    ensures forall p :: p in r <==> p in plans && p.planId != planId
  {
    if plans == [] then []
    else (if plans[0].planId != planId then [plans[0]] else []) + RemovePlan(plans[1..], planId)
  }

  function ReplacePlan(plans: seq<Plan>, plan: Plan): (r: seq<Plan>)
    ensures |r| == |plans|
    ensures forall i :: 0 <= i < |plans| ==> r[i] == if plans[i].planId == plan.planId then plan else plans[i]
  {
    seq(|plans|, i requires 0 <= i < |plans| => if plans[i].planId == plan.planId then plan else plans[i])
  }

  /** `_target`: the unfinished matter a continue, revise or cancel points at. */
  function Target(ctx: ContextResolution, current: Plan, currentOpen: bool, shelved: seq<Plan>): Option<Plan> {
    var named := if ctx.targetPlanId.Some? && ctx.targetPlanId.value != "" then
                   FindPlan(shelved, ctx.targetPlanId.value)
                 else None;
    if named.Some? then named
    else if currentOpen then Some(current)
    else if |shelved| == 1 then Some(shelved[0])
    else None
  }

  /** The revision for a task; a later one for the same task replaces an earlier one. */
  function RevisionFor(revisions: seq<TaskRevision>, taskId: string): Option<TaskRevision> {
    if revisions == [] then None
    else if revisions[|revisions| - 1].taskId == taskId then Some(revisions[|revisions| - 1])
    else RevisionFor(revisions[..|revisions| - 1], taskId)
  }

  predicate Revisable(t: Task, revisions: seq<TaskRevision>) {
    t.status.Pending? && RevisionFor(revisions, t.id).Some?
  }

  function ReviseTask(t: Task, revisions: seq<TaskRevision>, said: string): Task {
    if Revisable(t, revisions) then
      var revision := RevisionFor(revisions, t.id).value;
      t.(title := revision.title, objective := revision.objective,
         supplements := if said != "" then t.supplements + [said] else t.supplements)
    else t
  }

  function RevisePlan(plan: Plan, revisions: seq<TaskRevision>, said: string): Plan {
    plan.(tasks := seq(|plan.tasks|, i requires 0 <= i < |plan.tasks| => ReviseTask(plan.tasks[i], revisions, said)))
  }

  function RevisedTitles(tasks: seq<Task>, revisions: seq<TaskRevision>): seq<string> {
    if tasks == [] then []
    else (if Revisable(tasks[0], revisions) then [RevisionFor(revisions, tasks[0].id).value.title] else [])
         + RevisedTitles(tasks[1..], revisions)
  }

  predicate CorrectsWaiting(plan: Plan, revisions: seq<TaskRevision>) {
    exists t <- plan.tasks :: t.status.WaitingInput? && RevisionFor(revisions, t.id).Some?
  }

  function RequeueTask(t: Task): Task {
    if t.status.WaitingInput? then t.(status := Pending) else t
  }

  /** `_requeue_waiting` */
  function RequeueWaiting(plan: Plan): Plan {
    plan.(tasks := seq(|plan.tasks|, i requires 0 <= i < |plan.tasks| => RequeueTask(plan.tasks[i])))
  }

  function Respond(c: Conversation, reply: Reply): Conversation {
    c.(reply := Some(reply), phase := Idle)
  }

  /** `_resume`: the target becomes the current plan with its waiting tasks back in the queue. */
  function Resume(c: Conversation, currentOpen: bool, target: Plan): Conversation {
    var resumed := c.(current := RequeueWaiting(target), phase := Selecting);
    if target.planId == c.current.planId then resumed
    else resumed.(shelved := RemovePlan(c.shelved, target.planId) + if currentOpen then [c.current] else [])
  }

  /** `_replace` */
  function Replace(c: Conversation, plan: Plan): Conversation {
    if plan.planId == c.current.planId then c.(current := plan) else c.(shelved := ReplacePlan(c.shelved, plan))
  }

  predicate Unfinished(t: Task) {
    t.status.WaitingInput? || t.status.Pending?
  }

  function UnfinishedIds(tasks: seq<Task>): set<string> {
    set t <- tasks | Unfinished(t) :: t.id
  }

  function RejectIds(tasks: seq<Task>, ids: set<string>): (r: seq<Task>)
    ensures |r| == |tasks|
  {
    seq(|tasks|, i requires 0 <= i < |tasks| => if tasks[i].id in ids then tasks[i].(status := Rejected) else tasks[i])
  }

  predicate HasStatus(tasks: seq<Task>, status: TaskStatus) {
    exists t <- tasks :: t.status == status
  }

  function ChosenToCancel(ctx: ContextResolution, target: Plan): set<string> {
    var unfinished := UnfinishedIds(target.tasks);
    if ctx.cancelTaskIds != [] then (set x <- ctx.cancelTaskIds | x in unfinished) else unfinished
  }

  /** What remains of a plan's tasks after a cancel; a shelved plan with nobody left to ask is given up entirely. */
  function CancelledTasks(target: Plan, chosen: set<string>, isCurrent: bool): seq<Task> {
    var tasks := RejectBlocked(RejectIds(target.tasks, chosen));
    if !isCurrent && !HasStatus(tasks, WaitingInput) then RejectIds(tasks, UnfinishedIds(target.tasks)) else tasks
  }

  function DroppedIds(tasks: seq<Task>, unfinished: set<string>): set<string> {
    set t <- tasks | t.id in unfinished && t.status.Rejected? :: t.id
  }

  function DroppedTitles(tasks: seq<Task>, unfinished: set<string>): seq<string> {
    if tasks == [] then []
    else (if tasks[0].id in unfinished && tasks[0].status.Rejected? then [tasks[0].title] else [])
         + DroppedTitles(tasks[1..], unfinished)
  }

  /** `_cancel` */
  function CancelPlan(c: Conversation, ctx: ContextResolution, target: Plan): Conversation {
    var unfinished, chosen := UnfinishedIds(target.tasks), ChosenToCancel(ctx, target);
    if chosen == {} then Respond(c, NothingToCancel)
    else
      var isCurrent := target.planId == c.current.planId;
      var tasks := CancelledTasks(target, chosen, isCurrent);
      var dropped := DroppedTitles(tasks, unfinished);
      var abandoned := target.(tasks := tasks, drafts := target.drafts - DroppedIds(tasks, unfinished));
      var whole := |dropped| == |unfinished|;
      var reply := Dropped(dropped, whole, HasStatus(tasks, Completed));
      if !isCurrent then
        Respond(c.(shelved := if whole then RemovePlan(c.shelved, target.planId) else ReplacePlan(c.shelved,
                abandoned)), reply)
      else
        var answered := Respond(c.(current := abandoned), reply);
        if !HasStatus(tasks, WaitingInput) && HasStatus(tasks, Pending) then answered.(phase := Selecting) else answered
  }

  /** The state `understand` works on: recovered current plan, per-turn fields cleared. */
  function Opened(c: Conversation, ctx: ContextResolution, freshCurrent: string): Conversation {
    c.(current := Recover(CurrentPlan(c, freshCurrent)), context := ctx,
       toolResults := [], answers := [], reply := None, phase := Idle)
  }

  function CurrentOpen(c: Conversation): bool {
    exists m <- OpenMatters(c.current, c.shelved) :: !m.shelved
  }

  function TargetOf(c: Conversation, ctx: ContextResolution): Option<Plan> {
    if ctx.relation.New? then None else Target(ctx, c.current, CurrentOpen(c), c.shelved)
  }

  /** `understand`, on the opened state; `said` is the user's last message, `freshNew` the id a new plan would get. */
  function Decide(c: Conversation, ctx: ContextResolution, said: string, freshNew: string): Conversation {
    var target := TargetOf(c, ctx);
    if ctx.relation in {Continue, Revise} && target.Some? then
      var revised := RevisePlan(target.value, ctx.revisions, said);
      var titles := RevisedTitles(target.value.tasks, ctx.revisions);
      if ctx.relation.Continue? || CorrectsWaiting(target.value, ctx.revisions) then Resume(c, CurrentOpen(c), revised)
      else if titles == [] then Respond(c, NothingToRevise)
      else Respond(Replace(c, revised), Updated(titles))
    else if ctx.relation.Revise? then Respond(c, NothingToRevise)
    else if ctx.relation.Cancel? then
      if target.None? then Respond(c, NothingToCancel) else CancelPlan(c, ctx, target.value)
    else if !ctx.requiresPlanning then Respond(c, Said(ctx.reply))
    else
      c.(current := Plan(freshNew, ctx.standaloneRequest, [], map[], map[]),
         shelved := if CurrentOpen(c) then c.shelved + [c.current] else c.shelved,
         phase := Planning)
  }

  function Understand(c: Conversation, ctx: ContextResolution, said: string, freshCurrent: string,
          freshNew: string): Conversation {
    Decide(Opened(c, ctx, freshCurrent), ctx, said, freshNew)
  }

  // ---- plan ---------------------------------------------------------------------------------

  function ResetTask(t: Task): Task {
    t.(status := Pending, supplements := [])
  }

  /**
   * `plan`: whatever the planner wrote, status and supplements start over. Its `handed_off_from` is kept as written.
   */
  function InstallPlan(c: Conversation, goal: string, tasks: seq<Task>): Conversation {
    c.(current := c.current.(userGoal := goal,
                             tasks := seq(|tasks|, i requires 0 <= i < |tasks| => ResetTask(tasks[i]))),
       phase := Selecting)
  }

  // ---- select_task --------------------------------------------------------------------------

  function CompletedIds(tasks: seq<Task>): set<string> {
    set t <- tasks | t.status.Completed? :: t.id
  }

  predicate DepsDone(tasks: seq<Task>, t: Task) {
    forall d <- t.dependsOn :: d in CompletedIds(tasks)
  }

  predicate Runnable(tasks: seq<Task>, t: Task) {
    t.status.Pending? && DepsDone(tasks, t)
  }

  /** The runnable ones among `some`, in their order; `all` is the whole plan. */
  function RunnableAmong(all: seq<Task>, some: seq<Task>): (r: seq<Task>)
    ensures forall t :: t in r <==> t in some && Runnable(all, t)
  {
    if some == [] then []
    else (if Runnable(all, some[0]) then [some[0]] else []) + RunnableAmong(all, some[1..])
  }

  /** `runnable_tasks` */
  function RunnableTasks(tasks: seq<Task>): seq<Task> {
    RunnableAmong(tasks, tasks)
  }

  function Selected(parallel: bool, tasks: seq<Task>): seq<Task> {
    var runnable := RunnableTasks(tasks);
    if !parallel && runnable != [] then runnable[..1] else runnable
  }

  function MarkRunning(tasks: seq<Task>, ids: set<string>): (r: seq<Task>)
    ensures |r| == |tasks|
  {
    seq(|tasks|, i requires 0 <= i < |tasks| => if tasks[i].id in ids then tasks[i].(status := Running) else tasks[i])
  }

  function BriefsOfOthers(tasks: seq<Task>, id: string): seq<TaskBrief> {
    if tasks == [] then []
    else
      (if tasks[0].id != id then [TaskBrief(tasks[0].title, tasks[0].status)] else [])
      + BriefsOfOthers(tasks[1..], id)
  }

  /** One dispatched request. A resumed task (it has a draft) gets this turn's request, any other the plan's goal. */
  function RequestFor(c: Conversation, marked: seq<Task>, t: Task): DomainTaskRequest {
    var planGoal := if c.current.userGoal != "" then c.current.userGoal else c.context.standaloneRequest;
    DomainTaskRequest(
      if t.id in c.current.drafts then c.context.standaloneRequest else planGoal,
      t,
      map d | d in t.dependsOn && d in c.current.artifacts :: c.current.artifacts[d],
      if t.id in c.current.drafts then Some(c.current.drafts[t.id]) else None,
      BriefsOfOthers(marked, t.id))
  }

  /** `select_task` followed by `route_task`. */
  function SelectTask(parallel: bool, c: Conversation): Conversation {
    var chosen := Selected(parallel, c.current.tasks);
    if chosen == [] then c.(phase := Idle)
    else
      var marked := MarkRunning(c.current.tasks, Ids(chosen));
      c.(current := c.current.(tasks := marked),
         phase := Executing(seq(|chosen|, i requires 0 <= i < |chosen| => RequestFor(c, marked, chosen[i]))))
  }

  // ---- apply_domain_result ------------------------------------------------------------------

  /** The working copy `_Merge` folds a batch of results into. */
  datatype MergeState = MergeState(
    tasks: seq<Task>,
    artifacts: map<string, Artifact>,
    drafts: map<string, TaskDraft>,
    toolResults: seq<ToolResult>,
    answers: seq<string>,
    messages: seq<AssistantMessage>)

  /** What the user is told when a task has nowhere left to go. */
  const HANDOFF_EXHAUSTED_REPLY :=
    "这件事我没能判断该交给哪项业务办理，能换个说法，或者说明是差旅、报销、请假还是会议室方面的事吗？"

  function SetStatus(tasks: seq<Task>, id: string, status: TaskStatus): (r: seq<Task>)
    ensures |r| == |tasks|
  {
    seq(|tasks|, i requires 0 <= i < |tasks| => if tasks[i].id == id then tasks[i].(status := status) else tasks[i])
  }

  function TaskWithId(tasks: seq<Task>, id: string): (t: Task)
    requires id in Ids(tasks)
    ensures t in tasks && t.id == id
  {
    if tasks[0].id == id then tasks[0]
    else
      assert id in Ids(tasks[1..]) by {
        var u :| u in tasks && u.id == id;
        assert u in tasks[1..];
      }
      TaskWithId(tasks[1..], id)
  }

  /** `say`: blank text says nothing; the message is filed under its task if the plan still has it. */
  function Say(m: MergeState, text: string, taskId: Option<string>): MergeState {
    if Strip(text) == "" then m
    else
      var about := if taskId.Some? && taskId.value in Ids(m.tasks) then taskId else None;
      m.(answers := m.answers + [text], messages := m.messages + [AssistantMessage(text, about)])
  }

  function SayNotes(m: MergeState, notes: seq<AgentNote>, taskId: string): (r: MergeState)
    ensures r.tasks == m.tasks && r.artifacts == m.artifacts && r.drafts == m.drafts && r.toolResults == m.toolResults
    decreases |notes|
  {
    if notes == [] then m else SayNotes(Say(m, notes[0].text, Some(taskId)), notes[1..], taskId)
  }

  /** `_apply` */
  function ApplyResult(m: MergeState, r: DomainTaskResult): MergeState {
    var set1 := SetStatus(m.tasks, r.taskId, r.status);
    var tasks := if r.status.Rejected? || r.status.Failed? then RejectBlocked(set1) else set1;
    var m1 := m.(
      tasks := tasks,
      artifacts := if r.artifact.Some? then m.artifacts[r.taskId := r.artifact.value] else m.artifacts,
      drafts := if r.draft.Some? then m.drafts[r.taskId := r.draft.value] else m.drafts - {r.taskId});
    Say(m1, r.answer, Some(r.taskId))
  }

  predicate HandoffRefused(t: Task, target: Option<AgentName>) {
    target.None? || target.value in t.handedOffFrom || target.value == t.domain || |t.handedOffFrom| >= MAX_HANDOFFS
  }

  function RerouteTask(t: Task, target: AgentName): Task {
    t.(domain := target, status := Pending, handedOffFrom := t.handedOffFrom + [t.domain])
  }

  function ReplaceTask(tasks: seq<Task>, id: string, t: Task): (r: seq<Task>)
    ensures |r| == |tasks|
  {
    seq(|tasks|, i requires 0 <= i < |tasks| => if tasks[i].id == id then t else tasks[i])
  }

  /** `_reroute` */
  function Reroute(m: MergeState, r: DomainTaskResult): MergeState
    requires r.taskId in Ids(m.tasks)
  {
    var t := TaskWithId(m.tasks, r.taskId);
    var m1 := m.(drafts := m.drafts - {t.id});
    if HandoffRefused(t, r.handoffTo) then
      Say(m1.(tasks := RejectBlocked(SetStatus(m.tasks, t.id, Failed))), HANDOFF_EXHAUSTED_REPLY, None)
    else m1.(tasks := ReplaceTask(m.tasks, t.id, RerouteTask(t, r.handoffTo.value)))
  }

  function MergeOne(m: MergeState, r: DomainTaskResult): MergeState
    requires r.taskId in Ids(m.tasks)
  {
    var m1 := SayNotes(m.(toolResults := m.toolResults + r.toolResults), r.notes, r.taskId);
    if r.status.HandedOff? then Reroute(m1, r) else ApplyResult(m1, r)
  }

  lemma MergeOneKeepsIds(m: MergeState, r: DomainTaskResult)
    requires r.taskId in Ids(m.tasks)
    ensures Ids(MergeOne(m, r).tasks) == Ids(m.tasks)
  {
    var m1 := SayNotes(m.(toolResults := m.toolResults + r.toolResults), r.notes, r.taskId);
    if r.status.HandedOff? {
      var t := TaskWithId(m.tasks, r.taskId);
      SameIds(m.tasks, RejectBlocked(SetStatus(m.tasks, t.id, Failed)));
      if !HandoffRefused(t, r.handoffTo) {
        SameIds(m.tasks, ReplaceTask(m.tasks, t.id, RerouteTask(t, r.handoffTo.value)));
      }
    } else {
      SameIds(m.tasks, SetStatus(m.tasks, r.taskId, r.status));
      SameIds(m.tasks, RejectBlocked(SetStatus(m.tasks, r.taskId, r.status)));
    }
  }

  lemma SameIds(a: seq<Task>, b: seq<Task>)
    requires |a| == |b| && forall i :: 0 <= i < |a| ==> a[i].id == b[i].id
    ensures Ids(a) == Ids(b)
  {
    forall x
      ensures x in Ids(a) <==> x in Ids(b)
    {
      if x in Ids(a) {
        var i :| 0 <= i < |a| && a[i].id == x;
        assert b[i] in b;
      }
      if x in Ids(b) {
        var i :| 0 <= i < |b| && b[i].id == x;
        assert a[i] in a;
      }
    }
  }

  function MergeAll(m: MergeState, results: seq<DomainTaskResult>): MergeState
    requires forall r <- results :: r.taskId in Ids(m.tasks)
    decreases |results|
  {
    if results == [] then m
    else
      MergeOneKeepsIds(m, results[0]);
      MergeAll(MergeOne(m, results[0]), results[1..])
  }

  /** Position of a task in the plan; results for unknown tasks go last. */
  function OrderOf(tasks: seq<Task>, id: string): (k: nat)
    ensures k <= |tasks|
    ensures k < |tasks| ==> tasks[k].id == id
    ensures k == |tasks| <==> id !in Ids(tasks)
  {
    if tasks == [] then 0
    else if tasks[0].id == id then
      assert tasks[0] in tasks; 0
    else
      assert Ids(tasks) == {tasks[0].id} + Ids(tasks[1..]) by {
        IdsUpTo([tasks[0]], tasks[1..]);
        assert tasks == [tasks[0]] + tasks[1..];
      }
      1 + OrderOf(tasks[1..], id)
  }

  function InsertResult(tasks: seq<Task>, sorted: seq<DomainTaskResult>, r: DomainTaskResult): seq<DomainTaskResult> {
    if sorted == [] then [r]
    else if OrderOf(tasks, sorted[|sorted| - 1].taskId) <= OrderOf(tasks, r.taskId) then sorted + [r]
    else InsertResult(tasks, sorted[..|sorted| - 1], r) + [sorted[|sorted| - 1]]
  }

  /** The batch's results in plan order, whatever order the branches finished in (a stable sort by position). */
  function SortByPlan(tasks: seq<Task>, results: seq<DomainTaskResult>): (sorted: seq<DomainTaskResult>)
    ensures multiset(sorted) == multiset(results)
  {
    if results == [] then []
    else
      var last := |results| - 1;
      assert results == results[..last] + [results[last]];
      var before := SortByPlan(tasks, results[..last]);
      InsertKeeps(tasks, before, results[last]);
      InsertResult(tasks, before, results[last])
  }

  lemma {:induction false} InsertKeeps(tasks: seq<Task>, sorted: seq<DomainTaskResult>, r: DomainTaskResult)
    ensures multiset(InsertResult(tasks, sorted, r)) == multiset(sorted) + multiset{r}
  {
    if sorted != [] && OrderOf(tasks, sorted[|sorted| - 1].taskId) > OrderOf(tasks, r.taskId) {
      InsertKeeps(tasks, sorted[..|sorted| - 1], r);
      assert sorted == sorted[..|sorted| - 1] + [sorted[|sorted| - 1]];
    }
  }

  lemma {:induction false} SortedResultsKnown(tasks: seq<Task>, results: seq<DomainTaskResult>)
    requires forall r <- results :: r.taskId in Ids(tasks)
    ensures forall r <- SortByPlan(tasks, results) :: r.taskId in Ids(tasks)
  {
    forall r | r in SortByPlan(tasks, results)
      ensures r in results
    {
      assert r in multiset(SortByPlan(tasks, results));
    }
  }

  function StartMerge(c: Conversation): MergeState {
    MergeState(c.current.tasks, c.current.artifacts, c.current.drafts, c.toolResults, c.answers, c.messages)
  }

  function FinishMerge(c: Conversation, m: MergeState): Conversation {
    c.(current := c.current.(tasks := m.tasks, artifacts := m.artifacts, drafts := m.drafts),
       toolResults := m.toolResults, answers := m.answers, messages := m.messages,
       phase := if HasStatus(m.tasks, WaitingInput) then Idle else Selecting)
  }

  /** `apply_domain_result` followed by `after_domain_result`. */
  function ApplyBatch(c: Conversation, results: seq<DomainTaskResult>): Conversation
    requires forall r <- results :: r.taskId in Ids(c.current.tasks)
  {
    SortedResultsKnown(c.current.tasks, results);
    FinishMerge(c, MergeAll(StartMerge(c), SortByPlan(c.current.tasks, results)))
  }
}
