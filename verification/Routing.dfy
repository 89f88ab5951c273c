/** Where a user turn goes, told from the turn and the plans alone. */
module Routing {
  import opened Models
  import opened Workflow
  import opened Turns
  import opened Conversations
  import opened Addressing
  import opened Progress

  // ---- What a turn points at ------------------------------------------------------------------

  predicate NamesShelved(c: Conversation, ctx: ContextResolution) {
    exists p <- c.shelved :: ctx.targetPlanId == Some(p.planId)
  }

  /** The shelved matter it names; otherwise the current one if it waits; otherwise the only one on the shelf. */
  predicate PointsAt(c: Conversation, ctx: ContextResolution, p: Plan) {
    && !ctx.relation.New?
    && if NamesShelved(c, ctx) then p in c.shelved && ctx.targetPlanId == Some(p.planId)
       else if Waiting(c.current) then p == c.current
       else c.shelved == [p]
  }

  predicate PointsNowhere(c: Conversation, ctx: ContextResolution) {
    ctx.relation.New? || (!NamesShelved(c, ctx) && !Waiting(c.current) && |c.shelved| != 1)
  }

  lemma {:induction false} TargetIsPointedAt(c: Conversation, ctx: ContextResolution)
    requires OpenedOK(c)
    ensures TargetOf(c, ctx).None? <==> PointsNowhere(c, ctx)
    ensures forall p :: TargetOf(c, ctx) == Some(p) <==> PointsAt(c, ctx, p)
  {
    OpenIffWaiting(c);
    if NamesShelved(c, ctx) {
      var named :| named in c.shelved && ctx.targetPlanId == Some(named.planId);
      forall p | p in c.shelved && p.planId == named.planId
        ensures p == named
      {
        OnePlanPerId(c, p, named);
      }
    }
  }

  // ---- What a turn makes of the conversation --------------------------------------------------

  /** A fresh plan becomes current, still without tasks; what was waiting goes to the end of the shelf. */
  predicate BeginsAnew(c: Conversation, ctx: ContextResolution, freshNew: string, next: Conversation) {
    next == c.(current := Plan(freshNew, ctx.standaloneRequest, [], map[], map[]),
               shelved := if Waiting(c.current) then c.shelved + [c.current] else c.shelved,
               phase := Planning)
  }

  /** The turn says this and leaves every plan alone. */
  predicate OnlySays(c: Conversation, reply: Reply, next: Conversation) {
    next == c.(reply := Some(reply), phase := Idle)
  }

  /** A waiting task is queued again, a queued one takes the last correction that names it, any other stays. */
  ghost predicate TakenUp(a: Task, b: Task, revisions: seq<TaskRevision>, said: string) {
    if a.status.WaitingInput? then b == a.(status := Pending) else RevisedRight(a, b, revisions, said)
  }

  /** The matter is current again, with all it had; the plan it replaces goes to the shelf if it waits. */
  ghost predicate TakesUpMatter(c: Conversation, ctx: ContextResolution, said: string, p: Plan, next: Conversation) {
    && next == c.(current := next.current, shelved := next.shelved, phase := Selecting)
    && next.current == p.(tasks := next.current.tasks) && |next.current.tasks| == |p.tasks|
    && (forall i :: 0 <= i < |p.tasks| ==> TakenUp(p.tasks[i], next.current.tasks[i], ctx.revisions, said))
    && if p == c.current then next.shelved == c.shelved
       else exists k :: 0 <= k < |c.shelved| && c.shelved[k] == p
                        && next.shelved == c.shelved[..k] + c.shelved[k + 1..]
                                           + if Waiting(c.current) then [c.current] else []
  }

  ghost predicate RoutedTo(c: Conversation, ctx: ContextResolution, said: string, p: Plan, next: Conversation) {
    match ctx.relation
    case New => false
    case Continue => TakesUpMatter(c, ctx, said, p, next)
    case Revise =>
      if CorrectsQuestion(p, ctx.revisions) then TakesUpMatter(c, ctx, said, p, next)
      else exists kept :: CorrectedTo(c, ctx, said, p, next, kept)
    case Cancel =>
      if CancelsSomething(ctx, p) then exists kept :: CancelledTo(c, ctx, p, next, kept)
      else OnlySays(c, NothingToCancel, next)
  }

  predicate RoutedNowhere(c: Conversation, ctx: ContextResolution, freshNew: string, next: Conversation) {
    match ctx.relation
    case Revise => OnlySays(c, NothingToRevise, next)
    case Cancel => OnlySays(c, NothingToCancel, next)
    case _ => if ctx.requiresPlanning then BeginsAnew(c, ctx, freshNew, next) else OnlySays(c, Said(ctx.reply), next)
  }

  /** The whole turn: what it does to what it points at, or, pointing at nothing, what it begins or says. */
  ghost predicate Routed(c: Conversation, ctx: ContextResolution, said: string, freshNew: string, next: Conversation) {
    && (forall p :: PointsAt(c, ctx, p) ==> RoutedTo(c, ctx, said, p, next))
    && (PointsNowhere(c, ctx) ==> RoutedNowhere(c, ctx, freshNew, next))
  }

  lemma {:induction false} RemovingOne(plans: seq<Plan>, k: nat)
    requires DistinctPlans(plans) && k < |plans|
    ensures RemovePlan(plans, plans[k].planId) == plans[..k] + plans[k + 1..]
  {
    if k == 0 {
      RemovingNone(plans[1..], plans[0].planId);
    } else {
      RemovingOne(plans[1..], k - 1);
      assert plans[..k] + plans[k + 1..] == [plans[0]] + (plans[1..][..k - 1] + plans[1..][k..]);
    }
  }

  lemma {:induction false} RemovingNone(plans: seq<Plan>, planId: string)
    requires forall i :: 0 <= i < |plans| ==> plans[i].planId != planId
    ensures RemovePlan(plans, planId) == plans
  {
    if plans != [] {
      RemovingNone(plans[1..], planId);
    }
  }

  lemma NowhereRoutes(c: Conversation, ctx: ContextResolution, said: string, freshNew: string)
    requires OpenedOK(c) && PointsNowhere(c, ctx)
    ensures RoutedNowhere(c, ctx, freshNew, Decide(c, ctx, said, freshNew))
  {
    TargetIsPointedAt(c, ctx);
    OpenIffWaiting(c);
  }

  lemma TakingUpRoutes(c: Conversation, ctx: ContextResolution, said: string, freshNew: string, p: Plan)
    requires OpenedOK(c) && TargetOf(c, ctx) == Some(p)
    requires ctx.relation.Continue? || (ctx.relation.Revise? && CorrectsQuestion(p, ctx.revisions))
    ensures TakesUpMatter(c, ctx, said, p, Decide(c, ctx, said, freshNew))
  {
    var next := Decide(c, ctx, said, freshNew);
    QuestionsCorrected(p, ctx.revisions);
    OpenIffWaiting(c);
    TargetIsPresent(c, ctx);
    RevisionsApply(p, ctx.revisions, said);
    assert next.current == RequeueWaiting(RevisePlan(p, ctx.revisions, said));
    if p != c.current {
      var k :| 0 <= k < |c.shelved| && c.shelved[k] == p;
      RemovingOne(c.shelved, k);
    }
  }

  lemma RevisionsApply(p: Plan, revisions: seq<TaskRevision>, said: string)
    ensures var q := RequeueWaiting(RevisePlan(p, revisions, said));
            && q == p.(tasks := q.tasks) && |q.tasks| == |p.tasks|
            && forall i :: 0 <= i < |p.tasks| ==> TakenUp(p.tasks[i], q.tasks[i], revisions, said)
  {
    var q := RequeueWaiting(RevisePlan(p, revisions, said));
    forall i | 0 <= i < |p.tasks|
      ensures TakenUp(p.tasks[i], q.tasks[i], revisions, said)
    {
      LastRevisionCounts(revisions, p.tasks[i].id);
    }
  }

  lemma MatterRoutes(c: Conversation, ctx: ContextResolution, said: string, freshNew: string, p: Plan)
    requires OpenedOK(c) && PointsAt(c, ctx, p)
    ensures RoutedTo(c, ctx, said, p, Decide(c, ctx, said, freshNew))
  {
    TargetIsPointedAt(c, ctx);
    TargetIsPresent(c, ctx);
    match ctx.relation
    case New =>
    case Continue => TakingUpRoutes(c, ctx, said, freshNew, p);
    case Revise =>
      if CorrectsQuestion(p, ctx.revisions) {
        TakingUpRoutes(c, ctx, said, freshNew, p);
      } else {
        var kept := RevisionSaysWhatItDid(c, ctx, said, freshNew, p);
      }
    case Cancel =>
      assert Decide(c, ctx, said, freshNew) == CancelPlan(c, ctx, p);
      if CancelsSomething(ctx, p) {
        var kept := CancelSaysWhatItDid(c, ctx, p);
      } else {
        NothingToGiveUp(c, ctx, p);
      }
  }

  lemma TurnIsRouted(c: Conversation, ctx: ContextResolution, said: string, freshNew: string)
    requires OpenedOK(c)
    ensures Routed(c, ctx, said, freshNew, Decide(c, ctx, said, freshNew))
  {
    forall p | PointsAt(c, ctx, p)
      ensures RoutedTo(c, ctx, said, p, Decide(c, ctx, said, freshNew))
    {
      MatterRoutes(c, ctx, said, freshNew, p);
    }
    if PointsNowhere(c, ctx) {
      NowhereRoutes(c, ctx, said, freshNew);
    }
  }

  // ---- Turns in conversations -----------------------------------------------------------------

  /** Before it decides, a turn takes back what a dead run left running and clears what the last turn said. */
  predicate OpensAs(c: Conversation, ctx: ContextResolution, freshCurrent: string, o: Conversation) {
    && o == c.(current := o.current, context := ctx, toolResults := [], answers := [], reply := None, phase := Idle)
    && o.current == c.current.(planId := if c.current.planId == "" then freshCurrent else c.current.planId,
                               tasks := o.current.tasks)
    && |o.current.tasks| == |c.current.tasks|
    && forall i :: 0 <= i < |c.current.tasks| ==>
         var t := c.current.tasks[i];
         o.current.tasks[i] == if !t.status.Running? then t
                               else t.(status := if t.id in c.current.drafts then WaitingInput else Pending)
  }

  /** In every conversation each turn opens what the last event left, and goes where it points. */
  lemma TurnsAreRouted(parallel: bool, trace: seq<Conversation>, events: seq<Event>, n: nat) returns (o: Conversation)
    requires Run(parallel, trace, events) && StartsFresh(trace) && n < |events| && events[n].UserTurn?
    ensures OpensAs(trace[n], events[n].ctx, events[n].freshCurrent, o) && OpenedOK(o)
    ensures Routed(o, events[n].ctx, events[n].said, events[n].freshNew, trace[n + 1])
  {
    var e := events[n];
    RunKeeps(parallel, trace, events, n);
    assert Follows(parallel, trace[n], e, trace[n + 1]);
    o := Opened(trace[n], e.ctx, e.freshCurrent);
    OpeningKeeps(trace[n], e.ctx, e.freshCurrent);
    TurnIsRouted(o, e.ctx, e.said, e.freshNew);
  }

  lemma SomewhereOrNowhere(c: Conversation, ctx: ContextResolution) returns (p: Plan)
    ensures PointsAt(c, ctx, p) || PointsNowhere(c, ctx)
  {
    p := c.current;
    if NamesShelved(c, ctx) {
      p :| p in c.shelved && ctx.targetPlanId == Some(p.planId);
    } else if !Waiting(c.current) && |c.shelved| == 1 {
      p := c.shelved[0];
    }
  }

  lemma PlanningIsNotAboutAMatter(c: Conversation, ctx: ContextResolution, said: string, p: Plan, next: Conversation)
    requires c.phase.Idle? && RoutedTo(c, ctx, said, p, next)
    ensures !next.phase.Planning?
  {}

  /** A task as the planner wrote it, not begun. */
  predicate NewTask(t: Task, written: Task) {
    t == written.(status := Pending, supplements := [])
  }

  /**
   * A new request becomes the current plan: under a fresh id, with exactly the tasks that were written for it, none of
   * them begun, and nothing of the plan before; that one is kept, last on the shelf, exactly if it was waiting.
   */
  lemma NewRequestBecomesThePlan(parallel: bool, trace: seq<Conversation>, events: seq<Event>, n: nat)
    returns (o: Conversation)
    requires Run(parallel, trace, events) && StartsFresh(trace) && n + 1 < |events|
    requires events[n].UserTurn? && events[n + 1].PlanWritten?
    ensures OpensAs(trace[n], events[n].ctx, events[n].freshCurrent, o)
    ensures PointsNowhere(o, events[n].ctx) && events[n].ctx.requiresPlanning
    ensures var p, tasks := trace[n + 2].current, events[n + 1].tasks;
            && p == Plan(events[n].freshNew, events[n + 1].goal, p.tasks, map[], map[]) && |p.tasks| == |tasks|
            && forall i :: 0 <= i < |tasks| ==> NewTask(p.tasks[i], tasks[i])
    ensures trace[n + 2].shelved == if Waiting(o.current) then o.shelved + [o.current] else o.shelved
    ensures trace[n + 2].phase.Selecting?
  {
    o := TurnsAreRouted(parallel, trace, events, n);
    assert Follows(parallel, trace[n + 1], events[n + 1], trace[n + 2]);
    var p := SomewhereOrNowhere(o, events[n].ctx);
    if PointsAt(o, events[n].ctx, p) {
      PlanningIsNotAboutAMatter(o, events[n].ctx, events[n].said, p, trace[n + 1]);
    }
  }
}
