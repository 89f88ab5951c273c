/** Whatever the user is shown can be named again, naming it does something, and nothing open gets lost. */
module Addressing {
  import opened Models
  import opened Matters
  import opened Workflow
  import opened PlanInvariants
  import opened Turns
  import opened SerialMode
  import opened Conversations

  function Plans(c: Conversation): seq<Plan> {
    [c.current] + c.shelved
  }

  /** What `understand` decides on, with the serial-mode part of the invariant. */
  ghost predicate Ready(parallel: bool, c: Conversation) {
    OpenedOK(c) && (!parallel ==> SerialInv(c))
  }

  lemma OpenedIsReady(parallel: bool, c: Conversation, ctx: ContextResolution, freshCurrent: string)
    requires Inv(parallel, c) && c.phase.Idle? && FreshId(c, freshCurrent)
    ensures Ready(parallel, Opened(c, ctx, freshCurrent))
  {
    OpeningKeeps(c, ctx, freshCurrent);
    if !parallel {
      NarrowingKeeps(c.current, CurrentPlan(c, freshCurrent));
      RecoverIsSerial(CurrentPlan(c, freshCurrent));
    }
  }

  // ---- Shown and addressable ------------------------------------------------------------------

  /** Plans that are open: they wait for the user. */
  predicate IsOpen(c: Conversation, p: Plan) {
    p in Plans(c) && Waiting(p)
  }

  lemma OnePlanPerId(c: Conversation, p: Plan, q: Plan)
    requires PlanIdsDistinct(c) && p in Plans(c) && q in Plans(c) && p.planId == q.planId
    ensures p == q
  {
    if p in c.shelved && q in c.shelved {
      var i :| 0 <= i < |c.shelved| && c.shelved[i] == p;
      var j :| 0 <= j < |c.shelved| && c.shelved[j] == q;
      assert i == j;
    }
  }

  lemma {:induction false} EveryStuckShelvedIsListed(shelved: seq<Plan>, p: Plan)
    requires p in shelved && HasStuck(p)
    ensures p in StuckShelved(shelved)
  {
    if shelved[|shelved| - 1] != p {
      assert shelved == shelved[..|shelved| - 1] + [shelved[|shelved| - 1]];
      EveryStuckShelvedIsListed(shelved[..|shelved| - 1], p);
    }
  }

  lemma ListedIffOpen(c: Conversation)
    requires OpenedOK(c)
    ensures forall p :: p in Listed(c.current, c.shelved) <==> IsOpen(c, p)
  {
    RestingIsRecovered(c.current);
    StuckIsWaiting(c.current);
    forall p | p in c.shelved
      ensures p in StuckShelved(c.shelved)
    {
      StuckIsWaiting(p);
      EveryStuckShelvedIsListed(c.shelved, p);
    }
  }

  lemma {:induction false} ShownIffListed(current: Plan, shelved: seq<Plan>, planId: string)
    ensures (exists m <- OpenMatters(current, shelved) :: m.planId == planId)
            <==> exists p <- Listed(current, shelved) :: p.planId == planId
  {
    var shown, listed := OpenMatters(current, shelved), Listed(current, shelved);
    ListsExactlyTheStuckPlans(current, shelved);
    if m :| m in shown && m.planId == planId {
      var i :| 0 <= i < |shown| && shown[i] == m;
      assert listed[i] in listed;
    }
    if p :| p in listed && p.planId == planId {
      var i :| 0 <= i < |listed| && listed[i] == p;
      assert shown[i] in shown;
    }
  }

  /** The ids the user is shown are exactly those of the open plans. */
  lemma {:induction false} ShownIffOpen(c: Conversation, planId: string)
    requires OpenedOK(c)
    ensures (exists m <- OpenMatters(c.current, c.shelved) :: m.planId == planId)
            <==> exists p <- Plans(c) :: IsOpen(c, p) && p.planId == planId
  {
    ListedIffOpen(c);
    ShownIffListed(c.current, c.shelved, planId);
  }

  /** Naming a shown matter makes the turn act on that very plan, whatever else is open; no other plan has its id. */
  lemma {:induction false} ShownIsAddressable(c: Conversation, ctx: ContextResolution, m: OpenMatter) returns (p: Plan)
    requires OpenedOK(c) && m in OpenMatters(c.current, c.shelved)
    requires !ctx.relation.New? && ctx.targetPlanId == Some(m.planId)
    ensures IsOpen(c, p) && p.planId == m.planId && TargetOf(c, ctx) == Some(p)
    ensures forall q <- Plans(c) :: q.planId == m.planId ==> q == p
  {
    assert exists x <- OpenMatters(c.current, c.shelved) :: x.planId == m.planId;
    ShownIffOpen(c, m.planId);
    p :| p in Plans(c) && IsOpen(c, p) && p.planId == m.planId;
    forall q | q in Plans(c) && q.planId == m.planId
      ensures q == p
    {
      OnePlanPerId(c, p, q);
    }
    NamedIsTarget(c, ctx, p);
  }

  lemma NamedIsTarget(c: Conversation, ctx: ContextResolution, p: Plan)
    requires OpenedOK(c) && IsOpen(c, p) && !ctx.relation.New? && ctx.targetPlanId == Some(p.planId)
    ensures TargetOf(c, ctx) == Some(p)
  {
    OpenIffWaiting(c);
    var named := FindPlan(c.shelved, p.planId);
    if named.Some? {
      OnePlanPerId(c, p, named.value);
    } else {
      assert p == c.current;
    }
  }

  // ---- Continuing -----------------------------------------------------------------------------

  /** The batch takes up the task called `id` again with its draft, and tells it what the user said in this turn. */
  predicate TakesUp(batch: seq<DomainTaskRequest>, ctx: ContextResolution, id: string, draft: TaskDraft) {
    exists b <- batch :: b.task.id == id && b.draft == Some(draft) && b.userGoal == ctx.standaloneRequest
  }

  /** Every task of the plan that was waiting is in the batch, with its draft and what the user said in this turn. */
  predicate TakesUpAll(batch: seq<DomainTaskRequest>, ctx: ContextResolution, p: Plan) {
    forall i :: 0 <= i < |p.tasks| && p.tasks[i].status.WaitingInput? ==>
      p.tasks[i].id in p.drafts && TakesUp(batch, ctx, p.tasks[i].id, p.drafts[p.tasks[i].id])
  }

  lemma RequestTakesUp(parallel: bool, c: Conversation, t: Task, i: nat)
    requires i < |Selected(parallel, c.current.tasks)| && Selected(parallel, c.current.tasks)[i] == t
    requires t.id in c.current.drafts
    ensures SelectTask(parallel, c).phase.Executing?
    ensures TakesUp(SelectTask(parallel, c).phase.batch, c.context, t.id, c.current.drafts[t.id])
  {
    var b := SelectTask(parallel, c).phase.batch[i];
    assert b in SelectTask(parallel, c).phase.batch;
  }

  /** A requeued plan whose task `i` was waiting: that task is dispatched at once, alone if dispatch is serial. */
  lemma RequeuedIsSelected(parallel: bool, p: Plan, i: nat)
    requires PlanInv(p) && No(p, Running) && (!parallel ==> SerialOK(p))
    requires i < |p.tasks| && p.tasks[i].status.WaitingInput?
    ensures var q := RequeueWaiting(p); q.tasks[i] in Selected(parallel, q.tasks)
    ensures !parallel ==> |Selected(parallel, RequeueWaiting(p).tasks)| == 1
  {
    var q := RequeueWaiting(p);
    RequeueKeeps(p);
    assert TaskOK(p, i) && TaskOK(q, i);
    if parallel {
      assert q.tasks[i] in RunnableTasks(q.tasks);
    } else {
      RequeueIsSerial(p);
      FocusGoesFirst(q, i);
    }
  }

  /**
   * Continuing a shown matter brings it back as the current plan and dispatches every task of it that was waiting, with
   * its draft and this turn's request; with serial dispatch that is exactly one task, the one that was waiting.
   */
  lemma ContinuingDispatches(parallel: bool, c: Conversation, ctx: ContextResolution, said: string, freshNew: string,
                             p: Plan)
    requires Ready(parallel, c) && c.context == ctx && IsOpen(c, p) && TargetOf(c, ctx) == Some(p)
    requires ctx.relation.Continue? || (ctx.relation.Revise? && CorrectsWaiting(p, ctx.revisions))
    ensures var next := SelectTask(parallel, Decide(c, ctx, said, freshNew));
            && next.current.planId == p.planId && next.phase.Executing?
            && (!parallel ==> |next.phase.batch| == 1)
            && TakesUpAll(next.phase.batch, ctx, p)
  {
    var revised := RevisePlan(p, ctx.revisions, said);
    TargetIsPresent(c, ctx);
    ReviseKeeps(p, ctx.revisions, said);
    if !parallel {
      ReviseIsSerial(p, ctx.revisions, said);
    }
    RevisedWaitingDispatched(parallel, Decide(c, ctx, said, freshNew), p, ctx.revisions, said);
  }

  lemma RevisedWaitingDispatched(parallel: bool, c: Conversation, p: Plan, revisions: seq<TaskRevision>, said: string)
    requires var revised := RevisePlan(p, revisions, said);
             c.current == RequeueWaiting(revised) && PlanInv(revised) && No(revised, Running)
             && (!parallel ==> SerialOK(revised))
    requires Waiting(p)
    ensures var next := SelectTask(parallel, c);
            && next.phase.Executing? && (!parallel ==> |next.phase.batch| == 1)
            && TakesUpAll(next.phase.batch, c.context, p)
  {
    var revised := RevisePlan(p, revisions, said);
    assert forall i :: 0 <= i < |p.tasks| ==>
             revised.tasks[i].status == p.tasks[i].status && revised.tasks[i].id == p.tasks[i].id;
    AllWaitingDispatched(parallel, c, revised);
    var t :| t in p.tasks && t.status.WaitingInput?;
    var i :| 0 <= i < |p.tasks| && p.tasks[i] == t;
    assert revised.tasks[i].status.WaitingInput?;
  }

  lemma AllWaitingDispatched(parallel: bool, c: Conversation, p: Plan)
    requires c.current == RequeueWaiting(p) && PlanInv(p) && No(p, Running) && (!parallel ==> SerialOK(p))
    ensures forall i :: 0 <= i < |p.tasks| && p.tasks[i].status.WaitingInput? ==>
              p.tasks[i].id in p.drafts && DispatchedAgain(parallel, c, p.tasks[i].id, p.drafts[p.tasks[i].id])
  {
    forall i | 0 <= i < |p.tasks| && p.tasks[i].status.WaitingInput?
      ensures p.tasks[i].id in p.drafts && DispatchedAgain(parallel, c, p.tasks[i].id, p.drafts[p.tasks[i].id])
    {
      assert TaskOK(p, i);
      WaitingIsDispatched(parallel, c, p, i);
    }
  }

  predicate DispatchedAgain(parallel: bool, c: Conversation, id: string, draft: TaskDraft) {
    var next := SelectTask(parallel, c);
    next.phase.Executing? && TakesUp(next.phase.batch, c.context, id, draft) && (!parallel ==> |next.phase.batch| == 1)
  }

  lemma WaitingIsDispatched(parallel: bool, c: Conversation, p: Plan, i: nat)
    requires c.current == RequeueWaiting(p) && PlanInv(p) && No(p, Running) && (!parallel ==> SerialOK(p))
    requires i < |p.tasks| && p.tasks[i].status.WaitingInput?
    ensures p.tasks[i].id in p.drafts && DispatchedAgain(parallel, c, p.tasks[i].id, p.drafts[p.tasks[i].id])
  {
    assert TaskOK(p, i);
    RequeuedIsSelected(parallel, p, i);
    var t := c.current.tasks[i];
    var k :| 0 <= k < |Selected(parallel, c.current.tasks)| && Selected(parallel, c.current.tasks)[k] == t;
    RequestTakesUp(parallel, c, t, k);
  }

  lemma {:induction false} OpeningKeepsTheList(c: Conversation, ctx: ContextResolution, freshCurrent: string,
                                               planId: string)
    requires c.current.planId == "" ==> c.current.tasks == []
    requires exists p <- Listed(c.current, c.shelved) :: p.planId == planId
    ensures exists p <- Listed(Opened(c, ctx, freshCurrent).current, c.shelved) :: p.planId == planId
  {
    var o := Opened(c, ctx, freshCurrent);
    RestingIsRecovered(o.current);
    var p :| p in Listed(c.current, c.shelved) && p.planId == planId;
    if p !in StuckShelved(c.shelved) {
      assert Recover(o.current) == Recover(c.current) == p;
    }
    assert p in Listed(o.current, c.shelved);
  }

  /** The plan of that id as the next turn finds it: a batch that died half-way has been taken back. */
  lemma {:induction false} ShownIsFound(parallel: bool, c: Conversation, ctx: ContextResolution, freshCurrent: string,
                                        planId: string) returns (p: Plan)
    requires Inv(parallel, c) && c.phase.Idle? && FreshId(c, freshCurrent)
    requires exists m <- OpenMatters(c.current, c.shelved) :: m.planId == planId
    ensures p in Plans(c) && p.planId == planId && IsOpen(Opened(c, ctx, freshCurrent), Recover(p))
  {
    var o := Opened(c, ctx, freshCurrent);
    OpenedIsReady(parallel, c, ctx, freshCurrent);
    ShownIffListed(c.current, c.shelved, planId);
    OpeningKeepsTheList(c, ctx, freshCurrent, planId);
    ShownIffListed(o.current, o.shelved, planId);
    ShownIffOpen(o, planId);
    var found :| found in Plans(o) && IsOpen(o, found) && found.planId == planId;
    if found in c.shelved {
      p := found;
      RestingIsRecovered(p);
    } else {
      p := c.current;
      assert Recover(CurrentPlan(c, freshCurrent)) == found && found.tasks != [];
    }
  }

  lemma ContinuingAShownMatter(parallel: bool, c: Conversation, ctx: ContextResolution, said: string,
                               freshCurrent: string, freshNew: string, planId: string) returns (p: Plan)
    requires Inv(parallel, c) && Enabled(c, UserTurn(ctx, said, freshCurrent, freshNew))
    requires exists m <- OpenMatters(c.current, c.shelved) :: m.planId == planId
    requires ctx.relation.Continue? && ctx.targetPlanId == Some(planId)
    ensures p in Plans(c) && p.planId == planId && Waiting(Recover(p))
    ensures var next := SelectTask(parallel, Understand(c, ctx, said, freshCurrent, freshNew));
            && next.current.planId == planId && next.phase.Executing?
            && TakesUpAll(next.phase.batch, ctx, Recover(p)) && (!parallel ==> |next.phase.batch| == 1)
  {
    var o := Opened(c, ctx, freshCurrent);
    OpenedIsReady(parallel, c, ctx, freshCurrent);
    p := ShownIsFound(parallel, c, ctx, freshCurrent, planId);
    NamedIsTarget(o, ctx, Recover(p));
    ContinuingDispatches(parallel, o, ctx, said, freshNew, Recover(p));
  }

  /**
   * Over whole conversations: if the user is shown a matter, whatever happened before and even if a run died in the
   * middle of it, and the next turn continues it by its id, then the selection that follows has the matter as its
   * current plan and dispatches every task of it that was waiting.
   */
  lemma NamedMatterIsContinued(parallel: bool, trace: seq<Conversation>, events: seq<Event>, n: nat, planId: string)
    returns (p: Plan)
    requires Run(parallel, trace, events) && StartsFresh(trace) && n + 1 < |events|
    requires events[n].UserTurn? && events[n + 1].Selection?
    requires exists m <- OpenMatters(trace[n].current, trace[n].shelved) :: m.planId == planId
    requires events[n].ctx.relation.Continue? && events[n].ctx.targetPlanId == Some(planId)
    ensures p in Plans(trace[n]) && p.planId == planId && Waiting(Recover(p))
    ensures trace[n + 2].current.planId == planId && trace[n + 2].phase.Executing?
    ensures TakesUpAll(trace[n + 2].phase.batch, events[n].ctx, Recover(p))
    ensures !parallel ==> |trace[n + 2].phase.batch| == 1
  {
    var e := events[n];
    RunKeeps(parallel, trace, events, n);
    assert Follows(parallel, trace[n], e, trace[n + 1]);
    assert Follows(parallel, trace[n + 1], events[n + 1], trace[n + 2]);
    p := ContinuingAShownMatter(parallel, trace[n], e.ctx, e.said, e.freshCurrent, e.freshNew, planId);
  }

  /** With serial dispatch a plan never waits for two things at once. */
  lemma OneQuestionAtATime(parallel: bool, trace: seq<Conversation>, events: seq<Event>, n: nat, p: Plan, i: nat,
                           j: nat)
    requires !parallel && Run(parallel, trace, events) && StartsFresh(trace) && n < |trace| && p in Plans(trace[n])
    requires i < |p.tasks| && j < |p.tasks| && p.tasks[i].status.WaitingInput? && p.tasks[j].status.WaitingInput?
    ensures i == j
  {
    RunKeeps(parallel, trace, events, n);
    assert SerialOK(p) && Focus(p, i) && Focus(p, j);
  }

  /**
   * Plan ids never clash, and a plan on the shelf always has something to ask; what waits has a draft, what is over
   * none.
   */
  lemma {:induction false} ShelfIsInOrder(parallel: bool, trace: seq<Conversation>, events: seq<Event>, n: nat, p: Plan)
    requires Run(parallel, trace, events) && StartsFresh(trace) && n < |trace| && p in Plans(trace[n])
    ensures forall q <- Plans(trace[n]) :: q.planId == p.planId ==> q == p
    ensures p in trace[n].shelved ==> Waiting(p) && No(p, Running)
    ensures forall i :: 0 <= i < |p.tasks| ==>
              && (p.tasks[i].status.WaitingInput? ==> p.tasks[i].id in p.drafts)
              && (Terminal(p.tasks[i]) ==> p.tasks[i].id !in p.drafts)
  {
    RunKeeps(parallel, trace, events, n);
    forall q | q in Plans(trace[n]) && q.planId == p.planId
      ensures q == p
    {
      OnePlanPerId(trace[n], p, q);
    }
    assert TasksOK(p) by {
      assert p == trace[n].current || ShelvedOK(p);
    }
    forall i | 0 <= i < |p.tasks|
      ensures p.tasks[i].status.WaitingInput? ==> p.tasks[i].id in p.drafts
      ensures Terminal(p.tasks[i]) ==> p.tasks[i].id !in p.drafts
    {
      assert TaskOK(p, i);
    }
  }

  // ---- Nothing open gets lost -----------------------------------------------------------------

  /**
   * A turn leaves every open plan it is not aimed at exactly as it was, at most moving the current one to the shelf.
   */
  lemma OtherMattersUntouched(c: Conversation, ctx: ContextResolution, said: string, freshNew: string, p: Plan)
    requires OpenedOK(c) && IsOpen(c, p) && TargetOf(c, ctx) != Some(p)
    ensures p in Plans(Decide(c, ctx, said, freshNew))
  {
    OpenIffWaiting(c);
    var target := TargetOf(c, ctx);
    if target.Some? {
      TargetIsPresent(c, ctx);
      if p.planId == target.value.planId {
        OnePlanPerId(c, p, target.value);
      }
      AimedElsewhere(c, ctx, said, freshNew, target.value, p);
    }
  }

  lemma AimedElsewhere(c: Conversation, ctx: ContextResolution, said: string, freshNew: string, target: Plan, p: Plan)
    requires TargetOf(c, ctx) == Some(target) && p in Plans(c) && p.planId != target.planId
    requires p == c.current ==> CurrentOpen(c)
    ensures p in Plans(Decide(c, ctx, said, freshNew))
  {
    if ctx.relation.Cancel? {
      CancelledElsewhere(c, ctx, target, p);
      assert Decide(c, ctx, said, freshNew) == CancelPlan(c, ctx, target);
    } else {
      RevisedElsewhere(c, ctx, said, freshNew, target, p);
    }
  }

  lemma RevisedElsewhere(c: Conversation, ctx: ContextResolution, said: string, freshNew: string, target: Plan, p: Plan)
    requires TargetOf(c, ctx) == Some(target) && !ctx.relation.Cancel? && p in Plans(c) && p.planId != target.planId
    requires p == c.current ==> CurrentOpen(c)
    ensures p in Plans(Decide(c, ctx, said, freshNew))
  {
    var revised := RevisePlan(target, ctx.revisions, said);
    ResumedElsewhere(c, revised, p);
    ReplacedElsewhere(c, revised, p);
  }

  lemma CancelledElsewhere(c: Conversation, ctx: ContextResolution, target: Plan, p: Plan)
    requires p in Plans(c) && p.planId != target.planId
    ensures p in Plans(CancelPlan(c, ctx, target))
  {
    ReplacedElsewhere(c, Abandoned(ctx, target, false), p);
  }

  lemma ResumedElsewhere(c: Conversation, target: Plan, p: Plan)
    requires p in Plans(c) && p.planId != target.planId && (p == c.current ==> CurrentOpen(c))
    ensures p in Plans(Resume(c, CurrentOpen(c), target))
  {}

  lemma ReplacedElsewhere(c: Conversation, plan: Plan, p: Plan)
    requires p in Plans(c) && p.planId != plan.planId
    ensures p in Plans(Replace(c, plan)) && (p in c.shelved ==> p in ReplacePlan(c.shelved, plan))
  {
    if p in c.shelved {
      var i :| 0 <= i < |c.shelved| && c.shelved[i] == p;
      assert ReplacePlan(c.shelved, plan)[i] == p;
    }
  }

  function IdsOf(plans: seq<Plan>): seq<string> {
    seq(|plans|, i requires 0 <= i < |plans| => plans[i].planId)
  }

  function Without(ids: seq<string>, id: string): seq<string> {
    if ids == [] then [] else (if ids[0] != id then [ids[0]] else []) + Without(ids[1..], id)
  }

  lemma {:induction false} RemovingKeepsOrder(plans: seq<Plan>, id: string)
    ensures IdsOf(RemovePlan(plans, id)) == Without(IdsOf(plans), id)
  {
    if plans != [] {
      RemovingKeepsOrder(plans[1..], id);
      assert IdsOf(plans)[1..] == IdsOf(plans[1..]);
    }
  }

  /** The shelf after a turn: `taken` is the id of the plan taken off, if any; a current plan put aside comes last. */
  predicate ShelfGoesOn(c: Conversation, next: Conversation, taken: Option<string>) {
    var before := IdsOf(c.shelved);
    var putAside := CurrentOpen(c) && next.current.planId != c.current.planId;
    IdsOf(next.shelved)
    == (if taken.Some? then Without(before, taken.value) else before) + if putAside then [c.current.planId] else []
  }

  lemma PutAsideLast(plans: seq<Plan>, p: Plan)
    ensures IdsOf(plans + [p]) == IdsOf(plans) + [p.planId]
  {}

  lemma ResumingShelf(c: Conversation, p: Plan) returns (taken: Option<string>)
    ensures ShelfGoesOn(c, Resume(c, CurrentOpen(c), p), taken) && (taken.Some? ==> taken.value == p.planId)
  {
    taken := if p.planId == c.current.planId then None else Some(p.planId);
    RemovingKeepsOrder(c.shelved, p.planId);
    PutAsideLast(RemovePlan(c.shelved, p.planId), c.current);
  }

  lemma ReplacingShelf(c: Conversation, p: Plan)
    ensures IdsOf(ReplacePlan(c.shelved, p)) == IdsOf(c.shelved)
  {}

  lemma CancellingShelf(c: Conversation, ctx: ContextResolution, p: Plan) returns (taken: Option<string>)
    ensures ShelfGoesOn(c, CancelPlan(c, ctx, p), taken) && (taken.Some? ==> taken.value == p.planId)
  {
    var next := CancelPlan(c, ctx, p);
    if next.shelved == RemovePlan(c.shelved, p.planId) && next.shelved != c.shelved {
      RemovingKeepsOrder(c.shelved, p.planId);
      taken := Some(p.planId);
    } else {
      ReplacingShelf(c, Abandoned(ctx, p, false));
      taken := None;
    }
  }

  /**
   * The shelf keeps its order: a turn takes off at most the plan it is aimed at, and a current plan put aside comes
   * last, so it is listed first among the shelved ones.
   */
  lemma ShelfKeepsOrder(c: Conversation, ctx: ContextResolution, said: string,
          freshNew: string) returns (taken: Option<string>)
    requires OpenedOK(c) && FreshId(c, freshNew)
    ensures ShelfGoesOn(c, Decide(c, ctx, said, freshNew), taken)
    ensures taken.Some? ==> TargetOf(c, ctx).Some? && taken.value == TargetOf(c, ctx).value.planId
  {
    taken := None;
    if TargetOf(c, ctx).Some? {
      taken := TargetedShelf(c, ctx, said, freshNew, TargetOf(c, ctx).value);
    } else {
      PutAsideLast(c.shelved, c.current);
    }
  }

  lemma TargetedShelf(c: Conversation, ctx: ContextResolution, said: string, freshNew: string,
          p: Plan) returns (taken: Option<string>)
    requires TargetOf(c, ctx) == Some(p)
    ensures ShelfGoesOn(c, Decide(c, ctx, said, freshNew), taken) && (taken.Some? ==> taken.value == p.planId)
  {
    var revised := RevisePlan(p, ctx.revisions, said);
    if ctx.relation.Cancel? {
      taken := CancellingShelf(c, ctx, p);
      assert Decide(c, ctx, said, freshNew) == CancelPlan(c, ctx, p);
    } else if ctx.relation.Continue? || CorrectsWaiting(p, ctx.revisions) {
      taken := ResumingShelf(c, revised);
    } else {
      taken := None;
      ReplacingShelf(c, revised);
    }
  }

  ghost predicate HasPlan(c: Conversation, planId: string) {
    exists p <- Plans(c) :: p.planId == planId
  }

  /** A cancel aimed at `p` that gave up everything unfinished in it. */
  ghost predicate GivesUp(c: Conversation, ctx: ContextResolution, p: Plan) {
    && ctx.relation.Cancel? && TargetOf(c, ctx) == Some(p) && p in c.shelved
    && forall i :: 0 <= i < |p.tasks| && Unfinished(p.tasks[i]) ==> Abandoned(ctx, p, false).tasks[i].status.Rejected?
  }

  /** An open plan leaves the conversation only when a cancel aimed at it gives up all that was unfinished in it. */
  lemma LeavesOnlyByCancel(c: Conversation, ctx: ContextResolution, said: string, freshNew: string, p: Plan)
    requires OpenedOK(c) && IsOpen(c, p)
    ensures HasPlan(Decide(c, ctx, said, freshNew), p.planId) || GivesUp(c, ctx, p)
  {
    if TargetOf(c, ctx) != Some(p) {
      OtherMattersUntouched(c, ctx, said, freshNew, p);
    } else if !ctx.relation.Cancel? {
      TargetStays(c, ctx, said, freshNew, p);
    } else {
      TargetIsPresent(c, ctx);
      CancelledStaysUnlessWhole(c, ctx, p);
    }
  }

  lemma TargetStays(c: Conversation, ctx: ContextResolution, said: string, freshNew: string, p: Plan)
    requires TargetOf(c, ctx) == Some(p) && !ctx.relation.Cancel? && (p == c.current || p in c.shelved)
    ensures HasPlan(Decide(c, ctx, said, freshNew), p.planId)
  {
    var next := Decide(c, ctx, said, freshNew);
    var revised := RevisePlan(p, ctx.revisions, said);
    if next.current.planId == p.planId {
      assert next.current in Plans(next);
    } else {
      var i :| 0 <= i < |c.shelved| && c.shelved[i] == p;
      assert ReplacePlan(c.shelved, revised)[i].planId == p.planId;
      assert next.shelved[i] in Plans(next);
    }
  }

  lemma CancelledStaysUnlessWhole(c: Conversation, ctx: ContextResolution, p: Plan)
    requires UniqueIds(p.tasks) && p in Plans(c) && (p != c.current ==> p.planId != c.current.planId)
    ensures HasPlan(CancelPlan(c, ctx, p), p.planId)
            || (p in c.shelved && forall i :: 0 <= i < |p.tasks| && Unfinished(p.tasks[i]) ==>
                  Abandoned(ctx, p, false).tasks[i].status.Rejected?)
  {
    var next := CancelPlan(c, ctx, p);
    if p == c.current {
      assert next.current in Plans(next);
    } else {
      var i :| 0 <= i < |c.shelved| && c.shelved[i] == p;
      CancelDrops(p, ChosenToCancel(ctx, p), false);
      var abandoned := Abandoned(ctx, p, false);
      WholeIffAllRejected(p.tasks, abandoned.tasks);
      if next.shelved != RemovePlan(c.shelved, p.planId) {
        assert ReplacePlan(c.shelved, abandoned)[i].planId == p.planId;
        assert next.shelved[i] in Plans(next);
      }
    }
  }

  /**
   * Over whole conversations: if a plan is open when a turn starts (crash recovery included) and gone after it, the
   * turn was a cancel aimed at it; between turns no plan comes or goes.
   */
  lemma NothingOpenGetsLost(parallel: bool, trace: seq<Conversation>, events: seq<Event>, n: nat, p: Plan)
    requires Run(parallel, trace, events) && StartsFresh(trace) && n < |events|
    requires events[n].UserTurn? ==> IsOpen(Opened(trace[n], events[n].ctx, events[n].freshCurrent), p)
    requires !events[n].UserTurn? ==> p in Plans(trace[n])
    ensures HasPlan(trace[n + 1], p.planId)
            || (events[n].UserTurn?
                && GivesUp(Opened(trace[n], events[n].ctx, events[n].freshCurrent), events[n].ctx, p))
  {
    RunKeeps(parallel, trace, events, n);
    var c, e, c' := trace[n], events[n], trace[n + 1];
    assert Follows(parallel, c, e, c');
    if e.UserTurn? {
      OpeningKeeps(c, e.ctx, e.freshCurrent);
      LeavesOnlyByCancel(Opened(c, e.ctx, e.freshCurrent), e.ctx, e.said, e.freshNew, p);
    } else {
      assert c'.current in Plans(c');
    }
  }
}
