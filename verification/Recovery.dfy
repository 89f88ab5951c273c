/** A run that dies, in a batch or before one: what the next turn finds. */
module Recovery {
  import opened Models
  import opened Matters
  import opened Workflow
  import opened PlanInvariants
  import opened Turns
  import opened SerialMode
  import opened Conversations
  import opened Addressing

  // ---- What a dead batch reads back as --------------------------------------------------------

  /** A task that was dispatched again with what the user had already said. */
  predicate WasResumed(batch: seq<DomainTaskRequest>, id: string) {
    exists b <- batch :: b.task.id == id && b.draft.Some?
  }

  lemma RequestsNameDrafts(parallel: bool, c: Conversation, t: Task)
    requires t in c.current.tasks && UniqueIds(c.current.tasks)
    requires SelectTask(parallel, c).phase.Executing?
    ensures WasResumed(SelectTask(parallel, c).phase.batch, t.id)
            <==> t in Selected(parallel, c.current.tasks) && t.id in c.current.drafts
  {
    var chosen, batch := Selected(parallel, c.current.tasks), SelectTask(parallel, c).phase.batch;
    SelectedAreRunnable(parallel, c.current.tasks);
    MarkedAreChosen(c.current.tasks, chosen);
    assert forall i :: 0 <= i < |chosen| ==> batch[i].task == chosen[i];
    if WasResumed(batch, t.id) {
      var b :| b in batch && b.task.id == t.id && b.draft.Some?;
      var i :| 0 <= i < |batch| && batch[i] == b;
      assert chosen[i] in chosen && t.id in Ids(chosen);
      var k :| 0 <= k < |c.current.tasks| && c.current.tasks[k] == t;
    }
    if t in chosen && t.id in c.current.drafts {
      var i :| 0 <= i < |chosen| && chosen[i] == t;
      assert batch[i] in batch;
    }
  }

  predicate ReadsBackAs(tasks: seq<Task>, batch: seq<DomainTaskRequest>, read: seq<Task>) {
    && |read| == |tasks|
    && forall i :: 0 <= i < |tasks| ==>
         read[i] == tasks[i].(status := if WasResumed(batch, tasks[i].id) then WaitingInput else tasks[i].status)
  }

  /**
   * If the run dies with this batch running, recovery puts a dispatched task back to waiting exactly when it was being
   * resumed, back to the queue otherwise, and leaves every other task, and all drafts and artifacts, alone.
   */
  lemma DeadBatchReadsBack(parallel: bool, c: Conversation)
    requires Inv(parallel, c) && c.phase.Selecting? && SelectTask(parallel, c).phase.Executing?
    ensures var next := SelectTask(parallel, c); var read := Recover(next.current);
            read == c.current.(tasks := read.tasks) && ReadsBackAs(c.current.tasks, next.phase.batch, read.tasks)
  {
    var next := SelectTask(parallel, c);
    var chosen := Selected(parallel, c.current.tasks);
    SelectedAreRunnable(parallel, c.current.tasks);
    MarkedAreChosen(c.current.tasks, chosen);
    forall i | 0 <= i < |c.current.tasks|
      ensures Recover(next.current).tasks[i]
              == c.current.tasks[i].(status := if WasResumed(next.phase.batch, c.current.tasks[i].id) then WaitingInput
                                               else c.current.tasks[i].status)
    {
      RequestsNameDrafts(parallel, c, c.current.tasks[i]);
      assert c.current.tasks[i].status != Running;
    }
  }

  // ---- Undoing a turn -------------------------------------------------------------------------

  lemma NoRevisionsChangeNothing(p: Plan, said: string)
    ensures RevisePlan(p, [], said) == p
  {}

  lemma ResumesExactlyTheWaiting(parallel: bool, c: Conversation, p: Plan, i: nat)
    requires c.current == RequeueWaiting(p) && (!parallel ==> SerialOK(p))
    requires PlanInv(p) && NoQueuedDraft(p) && No(p, Running) && i < |p.tasks|
    requires SelectTask(parallel, c).phase.Executing?
    ensures WasResumed(SelectTask(parallel, c).phase.batch, p.tasks[i].id) <==> p.tasks[i].status.WaitingInput?
  {
    assert TaskOK(p, i);
    assert UniqueIds(c.current.tasks);
    RequestsNameDrafts(parallel, c, c.current.tasks[i]);
    SelectedAreRunnable(parallel, c.current.tasks);
    if p.tasks[i].status.WaitingInput? {
      RequeuedIsSelected(parallel, p, i);
    }
  }

  /** Requeueing, dispatching and recovering brings a waiting plan back to what it was. */
  lemma RequeueSelectRecover(parallel: bool, c: Conversation, p: Plan)
    requires Inv(parallel, c) && c.phase.Selecting? && c.current == RequeueWaiting(p) && (!parallel ==> SerialOK(p))
    requires PlanInv(p) && NoQueuedDraft(p) && No(p, Running) && Waiting(p)
    ensures SelectTask(parallel, c).phase.Executing? && Recover(SelectTask(parallel, c).current) == p
  {
    var t :| t in p.tasks && t.status.WaitingInput?;
    var k :| 0 <= k < |p.tasks| && p.tasks[k] == t;
    RequeuedIsSelected(parallel, p, k);
    DeadBatchReadsBack(parallel, c);
    forall i | 0 <= i < |p.tasks|
      ensures WasResumed(SelectTask(parallel, c).phase.batch, p.tasks[i].id) <==> p.tasks[i].status.WaitingInput?
    {
      ResumesExactlyTheWaiting(parallel, c, p, i);
    }
    ReadsBackWhole(p, SelectTask(parallel, c).phase.batch, Recover(SelectTask(parallel, c).current).tasks);
  }

  lemma ReadsBackWhole(p: Plan, batch: seq<DomainTaskRequest>, read: seq<Task>)
    requires ReadsBackAs(RequeueWaiting(p).tasks, batch, read)
    requires forall i :: 0 <= i < |p.tasks| ==> (WasResumed(batch, p.tasks[i].id) <==> p.tasks[i].status.WaitingInput?)
    ensures read == p.tasks
  {}

  /**
   * A turn that resumes a matter and dies in its first batch is undone: the next turn finds the plan as it was, with
   * the turn's revisions and every draft; it is open, and naming it again addresses it.
   */
  lemma DeadTurnIsUndone(parallel: bool, c: Conversation, ctx: ContextResolution, said: string, freshNew: string,
                         p: Plan,
                         ctx2: ContextResolution, freshCurrent: string)
    requires Ready(parallel, c) && c.context == ctx && IsOpen(c, p) && TargetOf(c, ctx) == Some(p)
    requires ctx.relation.Continue? || (ctx.relation.Revise? && CorrectsWaiting(p, ctx.revisions))
    ensures var executing := SelectTask(parallel, Decide(c, ctx, said, freshNew));
            var found := Opened(executing.(phase := Idle), ctx2, freshCurrent);
            && executing.phase.Executing?
            && found.current == RevisePlan(p, ctx.revisions, said)
            && (ctx.revisions == [] ==> found.current == p)
            && IsOpen(found, found.current)
            && (!ctx2.relation.New? && ctx2.targetPlanId == Some(p.planId) ==>
                  TargetOf(found, ctx2) == Some(found.current))
  {
    var revised := RevisePlan(p, ctx.revisions, said);
    var resumed := Decide(c, ctx, said, freshNew);
    TargetIsPresent(c, ctx);
    ReviseKeeps(p, ctx.revisions, said);
    NoIsNotHas(p, WaitingInput);
    NoIsNotHas(revised, WaitingInput);
    ResumingIsReady(parallel, c, p, revised);
    assert resumed == Resume(c, CurrentOpen(c), revised);
    DeadIsFoundAgain(parallel, resumed, revised, ctx2, freshCurrent);
    NoRevisionsChangeNothing(p, said);
  }

  lemma DeadIsFoundAgain(parallel: bool, c: Conversation, p: Plan, ctx: ContextResolution, freshCurrent: string)
    requires Inv(parallel, c) && c.phase.Selecting? && c.current == RequeueWaiting(p) && (!parallel ==> SerialOK(p))
    requires PlanInv(p) && NoQueuedDraft(p) && No(p, Running) && Waiting(p)
    ensures var executing := SelectTask(parallel, c);
            var found := Opened(executing.(phase := Idle), ctx, freshCurrent);
            && executing.phase.Executing? && found.current == p && IsOpen(found, p)
            && (!ctx.relation.New? && ctx.targetPlanId == Some(p.planId) ==> TargetOf(found, ctx) == Some(p))
  {
    RequeueSelectRecover(parallel, c, p);
    FoundAgain(Opened(SelectTask(parallel, c).(phase := Idle), ctx, freshCurrent), ctx, p);
  }

  lemma ResumingIsReady(parallel: bool, c: Conversation, p: Plan, revised: Plan)
    requires Ready(parallel, c) && PlanInv(revised) && No(revised, Running) && revised.planId == p.planId
    requires (p == c.current && Waiting(p)) || (p in c.shelved && p.planId != c.current.planId && ShelvedOK(p))
    requires exists revisions, said :: revised == RevisePlan(p, revisions, said)
    ensures Inv(parallel, Resume(c, CurrentOpen(c), revised)) && (!parallel ==> SerialOK(revised))
  {
    ResumeKeeps(c, p, revised);
    if !parallel {
      var revisions, said :| revised == RevisePlan(p, revisions, said);
      ReviseIsSerial(p, revisions, said);
      ResumeIsSerial(c, revised);
    }
  }

  lemma {:induction false} FoundAgain(found: Conversation, ctx: ContextResolution, p: Plan)
    requires found.current == p && Waiting(p) && TasksOK(p) && No(p, Running)
    requires forall q <- found.shelved :: q.planId != p.planId
    ensures IsOpen(found, p)
    ensures !ctx.relation.New? && ctx.targetPlanId == Some(p.planId) ==> TargetOf(found, ctx) == Some(p)
  {
    OpenIffWaiting(found);
  }

  // ---- The gap --------------------------------------------------------------------------------

  lemma NotWaitingIsNotOpen(c: Conversation, ctx: ContextResolution, freshCurrent: string)
    requires TasksOK(c.current) && No(c.current, Running) && No(c.current, WaitingInput) && c.current.planId != ""
    ensures var found := Opened(c, ctx, freshCurrent);
            found.current == c.current && !CurrentOpen(found) && !HasStuck(Recover(found.current))
  {
    RestingIsRecovered(c.current);
    OpenIffWaiting(Opened(c, ctx, freshCurrent));
    NoIsNotHas(c.current, WaitingInput);
    StuckIsWaiting(c.current);
  }

  lemma {:induction false} ClosedCurrentIsNotListed(current: Plan, shelved: seq<Plan>)
    requires !HasStuck(Recover(current)) && forall p <- shelved :: p.planId != current.planId
    ensures forall m <- OpenMatters(current, shelved) :: m.planId != current.planId
  {
    var shown, listed := OpenMatters(current, shelved), Listed(current, shelved);
    ListsExactlyTheStuckPlans(current, shelved);
    forall m | m in shown
      ensures m.planId != current.planId
    {
      var i :| 0 <= i < |shown| && shown[i] == m;
      assert listed[i] in shelved;
    }
  }

  lemma {:induction false} ClosedCurrentIsNoTarget(ctx: ContextResolution, current: Plan, shelved: seq<Plan>)
    requires forall p <- shelved :: p.planId != current.planId
    ensures Target(ctx, current, false, shelved).Some? ==>
              Target(ctx, current, false, shelved).value.planId != current.planId
  {
    if |shelved| == 1 {
      assert shelved[0] in shelved;
    }
  }

  /**
   * The exception: a stop after `understand` has requeued the matter and before `select_task` has marked it running.
   * Recovery leaves queued tasks alone, so the next turn does not list the plan and no wording addresses it, whatever
   * it held. This is every such stop, not one case.
   */
  lemma {:induction false} StopBeforeSelectionHidesTheMatter(parallel: bool, c: Conversation, ctx: ContextResolution,
          freshCurrent: string)
    requires Inv(parallel, c) && c.phase.Selecting?
    ensures var found := Opened(c.(phase := Idle), ctx, freshCurrent);
            && found.current == c.current
            && (forall m <- OpenMatters(found.current, found.shelved) :: m.planId != c.current.planId)
            && (TargetOf(found, ctx).Some? ==> TargetOf(found, ctx).value.planId != c.current.planId)
  {
    NotWaitingIsNotOpen(c.(phase := Idle), ctx, freshCurrent);
    ClosedCurrentIsNotListed(c.current, c.shelved);
    ClosedCurrentIsNoTarget(ctx, c.current, c.shelved);
  }

  /** A run died between `understand` and `select_task`, and every turn since only answered. */
  ghost predicate StoppedEarly(trace: seq<Conversation>, events: seq<Event>, n: nat)
    requires n <= |events| < |trace|
  {
    n > 0 && ((events[n - 1].RunDies? && trace[n - 1].phase.Selecting?)
              || (events[n - 1].UserTurn? && StoppedEarly(trace, events, n - 1)))
  }

  /** What waited for the user is queued while nobody works on it, so that no turn can get at it. */
  predicate Hidden(p: Plan) {
    !NoQueuedDraft(p)
  }

  lemma CancellingHidesNothing(c: Conversation, ctx: ContextResolution, target: Plan)
    requires OpenedOK(c) && NoQueuedDraft(c.current)
    requires (target == c.current && Waiting(target)) || (target.planId != c.current.planId && ShelvedOK(target))
    ensures NoQueuedDraft(CancelPlan(c, ctx, target).current)
  {
    if ChosenToCancel(ctx, target) != {} {
      AbandonedOK(ctx, target, target.planId == c.current.planId);
    }
  }

  lemma DecidingHidesNothing(c: Conversation, ctx: ContextResolution, said: string, freshNew: string)
    requires OpenedOK(c) && c.phase.Idle? && NoQueuedDraft(c.current) && Decide(c, ctx, said, freshNew).phase.Idle?
    ensures NoQueuedDraft(Decide(c, ctx, said, freshNew).current)
  {
    if TargetOf(c, ctx).Some? {
      var target := TargetOf(c, ctx).value;
      TargetIsPresent(c, ctx);
      ReviseKeeps(target, ctx.revisions, said);
      if ctx.relation.Cancel? {
        CancellingHidesNothing(c, ctx, target);
      }
    }
  }

  /** A turn that only answers hides nothing new. */
  lemma AnsweringHidesNothing(c: Conversation, e: Event)
    requires ConversationInv(c) && Enabled(c, e) && e.UserTurn?
    requires Understand(c, e.ctx, e.said, e.freshCurrent, e.freshNew).phase.Idle?
    requires Hidden(Understand(c, e.ctx, e.said, e.freshCurrent, e.freshNew).current)
    ensures Hidden(c.current)
  {
    if NoQueuedDraft(c.current) {
      OpeningKeeps(c, e.ctx, e.freshCurrent);
      OpeningHidesNothing(c, e.ctx, e.freshCurrent);
      DecidingHidesNothing(Opened(c, e.ctx, e.freshCurrent), e.ctx, e.said, e.freshNew);
    }
  }

  lemma OpeningHidesNothing(c: Conversation, ctx: ContextResolution, freshCurrent: string)
    requires TasksOK(c.current) && NoQueuedDraft(c.current)
    ensures NoQueuedDraft(Opened(c, ctx, freshCurrent).current)
  {
    var named := CurrentPlan(c, freshCurrent);
    forall i | 0 <= i < |named.tasks|
      ensures TaskOK(named, i)
    {
      assert TaskOK(c.current, i);
    }
    RecoverKeepsTasks(named);
  }

  /** In every conversation, the only thing that ever hides a matter from the user is a stop before its selection. */
  lemma {:induction false} HiddenOnlyByEarlyStop(parallel: bool, trace: seq<Conversation>, events: seq<Event>, n: nat)
    requires Run(parallel, trace, events) && StartsFresh(trace) && n < |trace| && trace[n].phase.Idle?
    ensures Hidden(trace[n].current) ==> StoppedEarly(trace, events, n)
  {
    if n > 0 && Hidden(trace[n].current) {
      var c, e := trace[n - 1], events[n - 1];
      assert Follows(parallel, c, e, trace[n]);
      RunKeeps(parallel, trace, events, n - 1);
      match e
      case UserTurn(_, _, _, _) =>
        AnsweringHidesNothing(c, e);
        HiddenOnlyByEarlyStop(parallel, trace, events, n - 1);
      case Selection => NothingSelectedMeansNothingQueued(parallel, c);
      case BatchDone(results) => BatchKeeps(c, results);
      case RunDies =>
      case PlanWritten(_, _) =>
    }
  }

  lemma {:induction false} WaitsIffResumed(tasks: seq<Task>, batch: seq<DomainTaskRequest>, read: seq<Task>)
    requires ReadsBackAs(tasks, batch, read) && forall b <- batch :: b.task in tasks
    requires forall i :: 0 <= i < |tasks| ==> tasks[i].status != WaitingInput
    ensures HasStatus(read, WaitingInput) <==> exists b <- batch :: b.draft.Some?
  {
    if b :| b in batch && b.draft.Some? {
      var k :| 0 <= k < |tasks| && tasks[k] == b.task;
      assert WasResumed(batch, tasks[k].id);
      assert read[k] in read;
    }
    if HasStatus(read, WaitingInput) {
      var t :| t in read && t.status.WaitingInput?;
      var k :| 0 <= k < |read| && read[k] == t;
      assert WasResumed(batch, tasks[k].id);
    }
  }

  lemma {:induction false} BatchTasksAreInPlan(parallel: bool, c: Conversation)
    requires SelectTask(parallel, c).phase.Executing?
    ensures forall b <- SelectTask(parallel, c).phase.batch :: b.task in c.current.tasks
  {
    SelectedAreRunnable(parallel, c.current.tasks);
  }

  lemma ExecutingIsFine(parallel: bool, c: Conversation)
    requires Inv(parallel, c) && c.phase.Selecting? && SelectTask(parallel, c).phase.Executing?
    ensures var p := SelectTask(parallel, c).current; PlanInv(p) && NoQueuedDraft(p) && p.planId != ""
  {
    SelectionKeeps(parallel, c);
  }

  lemma FoundOpenIffWaiting(c: Conversation, ctx: ContextResolution, freshCurrent: string)
    requires PlanInv(c.current) && NoQueuedDraft(c.current) && c.current.planId != ""
    ensures CurrentOpen(Opened(c, ctx, freshCurrent)) <==> Waiting(Recover(c.current))
  {
    RecoverKeeps(c.current);
    OpenIffWaiting(Opened(c, ctx, freshCurrent));
  }

  lemma {:induction false} DeadPlanWaitsIffResumed(parallel: bool, c: Conversation)
    requires Inv(parallel, c) && c.phase.Selecting? && SelectTask(parallel, c).phase.Executing?
    ensures var next := SelectTask(parallel, c);
            Waiting(Recover(next.current)) <==> exists b <- next.phase.batch :: b.draft.Some?
  {
    var next := SelectTask(parallel, c);
    DeadBatchReadsBack(parallel, c);
    BatchTasksAreInPlan(parallel, c);
    WaitsIffResumed(c.current.tasks, next.phase.batch, Recover(next.current).tasks);
  }

  /** A plan whose batch died is listed again exactly when something in the batch was being resumed. */
  lemma {:induction false} DeadBatchIsListedIffResumed(parallel: bool, c: Conversation, ctx: ContextResolution,
          freshCurrent: string)
    requires Inv(parallel, c) && c.phase.Selecting? && SelectTask(parallel, c).phase.Executing?
    ensures var next := SelectTask(parallel, c);
            CurrentOpen(Opened(next.(phase := Idle), ctx, freshCurrent))
            <==> exists b <- next.phase.batch :: b.draft.Some?
  {
    ExecutingIsFine(parallel, c);
    DeadPlanWaitsIffResumed(parallel, c);
    FoundOpenIffWaiting(SelectTask(parallel, c).(phase := Idle), ctx, freshCurrent);
  }
}
