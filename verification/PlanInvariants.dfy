/** What holds of every plan at every step boundary, and the plan edits that keep it. */
module PlanInvariants {
  import opened Models
  import opened FailurePropagation
  import opened Matters
  import opened Workflow

  ghost predicate Structured(tasks: seq<Task>) {
    UniqueIds(tasks) && ClosedDependencies(tasks) && Orderable(tasks)
  }

  predicate Storable(s: TaskStatus) {
    s in {Pending, Running, WaitingInput, Completed, Rejected, Failed}
  }

  predicate Started(s: TaskStatus) {
    s in {Running, WaitingInput, Completed, Failed}
  }

  predicate Terminal(t: Task) {
    t.status.Completed? || Dead(t)
  }

  /**
   * One task of a plan is in order: nothing starts before everything it depends on has completed; a task that waits
   * has a draft, a finished one has none, and a queued one only if it could start at once; a completed task has an
   * artifact that is not empty.
   */
  predicate TaskOK(p: Plan, i: nat)
    requires i < |p.tasks|
  {
    var t := p.tasks[i];
    && Storable(t.status)
    && (Started(t.status) ==> DepsDone(p.tasks, t))
    && (t.status.WaitingInput? ==> t.id in p.drafts)
    && (Terminal(t) ==> t.id !in p.drafts)
    && (t.status.Pending? && t.id in p.drafts ==> DepsDone(p.tasks, t))
    && (t.status.Completed? ==> t.id in p.artifacts && p.artifacts[t.id] != map[])
  }

  predicate TasksOK(p: Plan) {
    forall i :: 0 <= i < |p.tasks| ==> TaskOK(p, i)
  }

  ghost predicate PlanInv(p: Plan) {
    Structured(p.tasks) && TasksOK(p) && NoPendingBlocked(p.tasks)
  }

  /** No queued task carries a draft. */
  predicate NoQueuedDraft(p: Plan) {
    forall i :: 0 <= i < |p.tasks| && p.tasks[i].status.Pending? ==> p.tasks[i].id !in p.drafts
  }

  predicate No(p: Plan, status: TaskStatus) {
    forall i :: 0 <= i < |p.tasks| ==> p.tasks[i].status != status
  }

  lemma NoIsNotHas(p: Plan, status: TaskStatus)
    ensures No(p, status) <==> !HasStatus(p.tasks, status)
  {
    if HasStatus(p.tasks, status) {
      var t :| t in p.tasks && t.status == status;
      var i :| 0 <= i < |p.tasks| && p.tasks[i] == t;
      assert p.tasks[i].status == status;
    }
  }

  // ---- Same graph, other statuses -------------------------------------------------------------

  predicate SameGraph(a: seq<Task>, b: seq<Task>) {
    |a| == |b| && forall i :: 0 <= i < |a| ==> a[i].id == b[i].id && a[i].dependsOn == b[i].dependsOn
  }

  lemma SameGraphKeepsStructure(a: seq<Task>, b: seq<Task>)
    requires Structured(a) && SameGraph(a, b)
    ensures Structured(b) && Ids(a) == Ids(b)
  {
    SameIds(a, b);
    var order :| TopologicalOrder(a, order);
    assert TopologicalOrder(b, order) by {
      forall t | t in b
        ensures t.id in order
        ensures forall k :: 0 <= k < |order| && order[k] == t.id ==> forall d <- t.dependsOn :: d in order[..k]
      {
        var i :| 0 <= i < |b| && b[i] == t;
        assert a[i] in a;
      }
    }
    forall t, d | t in b && d in t.dependsOn
      ensures d != t.id && d in Ids(b)
    {
      var i :| 0 <= i < |b| && b[i] == t;
      assert a[i] in a;
    }
  }

  /** Completed tasks stay completed. */
  predicate KeepsCompleted(a: seq<Task>, b: seq<Task>) {
    SameGraph(a, b) && forall i :: 0 <= i < |a| && a[i].status.Completed? ==> b[i].status.Completed?
  }

  lemma CompletedGrow(a: seq<Task>, b: seq<Task>)
    requires KeepsCompleted(a, b)
    ensures forall i :: 0 <= i < |a| && DepsDone(a, a[i]) ==> DepsDone(b, b[i])
  {
    forall x | x in CompletedIds(a)
      ensures x in CompletedIds(b)
    {
      var t :| t in a && t.id == x && t.status.Completed?;
      var i :| 0 <= i < |a| && a[i] == t;
      assert b[i] in b;
    }
  }

  lemma DoneIsNotDead(tasks: seq<Task>, t: Task, j: nat)
    requires UniqueIds(tasks) && j < |tasks| && DepsDone(tasks, t) && tasks[j].id in t.dependsOn
    ensures tasks[j].status.Completed?
  {
    assert tasks[j].id in CompletedIds(tasks);
    var u :| u in tasks && u.id == tasks[j].id && u.status.Completed?;
    var i :| 0 <= i < |tasks| && tasks[i] == u;
    assert i == j;
  }

  /** No new failures, and whatever is newly queued could start at once: then nothing queued is blocked. */
  lemma NothingNewlyBlocked(a: seq<Task>, b: seq<Task>)
    requires UniqueIds(a) && NoPendingBlocked(a) && SameGraph(a, b)
    requires forall i :: 0 <= i < |a| && Dead(b[i]) ==> Dead(a[i])
    requires forall i :: 0 <= i < |a| && b[i].status.Pending? ==> a[i].status.Pending? || DepsDone(a, a[i])
    ensures NoPendingBlocked(b)
  {
    forall i, j | 0 <= i < |b| && 0 <= j < |b| && b[i].status.Pending? && Dead(b[j])
      ensures b[j].id !in b[i].dependsOn
    {
      if a[i].status.Pending? {
      } else if a[j].id in a[i].dependsOn {
        DoneIsNotDead(a, a[i], j);
      }
    }
  }

  // ---- Edits --------------------------------------------------------------------------------

  lemma StartedHaveDeps(p: Plan)
    requires TasksOK(p)
    ensures forall i :: 0 <= i < |p.tasks| && Started(p.tasks[i].status) ==> DepsDone(p.tasks, p.tasks[i])
  {
    forall i | 0 <= i < |p.tasks| && Started(p.tasks[i].status)
      ensures DepsDone(p.tasks, p.tasks[i])
    {
      assert TaskOK(p, i);
    }
  }

  lemma RecoverKeeps(p: Plan)
    requires PlanInv(p) && NoQueuedDraft(p)
    ensures PlanInv(Recover(p)) && NoQueuedDraft(Recover(p)) && No(Recover(p), Running)
  {
    var q := Recover(p);
    SameGraphKeepsStructure(p.tasks, q.tasks);
    RecoverKeepsTasks(p);
    StartedHaveDeps(p);
    NothingNewlyBlocked(p.tasks, q.tasks);
  }

  lemma RecoverKeepsTasks(p: Plan)
    requires TasksOK(p) && NoQueuedDraft(p)
    ensures TasksOK(Recover(p)) && NoQueuedDraft(Recover(p)) && No(Recover(p), Running)
  {
    var q := Recover(p);
    forall i | 0 <= i < |p.tasks|
      ensures TaskOK(q, i)
    {
      assert TaskOK(p, i);
      CompletedGrow(p.tasks, q.tasks);
    }
  }

  lemma RequeueKeeps(p: Plan)
    requires PlanInv(p)
    ensures PlanInv(RequeueWaiting(p)) && No(RequeueWaiting(p), WaitingInput)
    ensures No(p, Running) ==> No(RequeueWaiting(p), Running)
  {
    var q := RequeueWaiting(p);
    SameGraphKeepsStructure(p.tasks, q.tasks);
    RequeueKeepsTasks(p);
    StartedHaveDeps(p);
    NothingNewlyBlocked(p.tasks, q.tasks);
  }

  lemma RequeueKeepsTasks(p: Plan)
    requires TasksOK(p)
    ensures TasksOK(RequeueWaiting(p))
  {
    var q := RequeueWaiting(p);
    forall i | 0 <= i < |p.tasks|
      ensures TaskOK(q, i)
    {
      assert TaskOK(p, i);
      CompletedGrow(p.tasks, q.tasks);
    }
  }

  lemma ReviseKeeps(p: Plan, revisions: seq<TaskRevision>, said: string)
    requires PlanInv(p)
    ensures PlanInv(RevisePlan(p, revisions, said))
    ensures forall s :: No(RevisePlan(p, revisions, said), s) <==> No(p, s)
    ensures NoQueuedDraft(p) ==> NoQueuedDraft(RevisePlan(p, revisions, said))
  {
    var q := RevisePlan(p, revisions, said);
    assert forall i :: 0 <= i < |p.tasks| ==> q.tasks[i].status == p.tasks[i].status;
    SameGraphKeepsStructure(p.tasks, q.tasks);
    SameStatusesKeepTasks(p, q);
    NothingNewlyBlocked(p.tasks, q.tasks);
  }

  lemma SameStatusesKeepTasks(p: Plan, q: Plan)
    requires TasksOK(p) && SameGraph(p.tasks, q.tasks) && p.drafts == q.drafts && p.artifacts == q.artifacts
    requires forall i :: 0 <= i < |p.tasks| ==> q.tasks[i].status == p.tasks[i].status
    ensures TasksOK(q)
  {
    forall i | 0 <= i < |p.tasks|
      ensures TaskOK(q, i)
    {
      assert TaskOK(p, i);
      CompletedGrow(p.tasks, q.tasks);
    }
  }

  lemma {:induction false} MarkedAreChosen(tasks: seq<Task>, chosen: seq<Task>)
    requires UniqueIds(tasks) && forall t <- chosen :: t in tasks
    ensures forall i :: 0 <= i < |tasks| ==> (tasks[i].id in Ids(chosen) <==> tasks[i] in chosen)
  {
    forall i | 0 <= i < |tasks|
      ensures tasks[i].id in Ids(chosen) <==> tasks[i] in chosen
    {
      if tasks[i].id in Ids(chosen) {
        var t :| t in chosen && t.id == tasks[i].id;
        var j :| 0 <= j < |tasks| && tasks[j] == t;
        assert i == j;
      }
    }
  }

  lemma {:induction false} MarkKeeps(p: Plan, chosen: seq<Task>)
    requires PlanInv(p) && forall t <- chosen :: t in p.tasks && Runnable(p.tasks, t)
    ensures PlanInv(p.(tasks := MarkRunning(p.tasks, Ids(chosen))))
  {
    var q := p.(tasks := MarkRunning(p.tasks, Ids(chosen)));
    MarkedAreChosen(p.tasks, chosen);
    SameGraphKeepsStructure(p.tasks, q.tasks);
    MarkKeepsTasks(p, chosen);
    NothingNewlyBlocked(p.tasks, q.tasks);
  }

  lemma {:induction false} MarkKeepsTasks(p: Plan, chosen: seq<Task>)
    requires TasksOK(p) && forall t <- chosen :: Runnable(p.tasks, t)
    requires forall i :: 0 <= i < |p.tasks| ==> (p.tasks[i].id in Ids(chosen) <==> p.tasks[i] in chosen)
    ensures TasksOK(p.(tasks := MarkRunning(p.tasks, Ids(chosen))))
  {
    var q := p.(tasks := MarkRunning(p.tasks, Ids(chosen)));
    forall i | 0 <= i < |p.tasks|
      ensures TaskOK(q, i)
    {
      assert TaskOK(p, i);
      CompletedGrow(p.tasks, q.tasks);
    }
  }

  // ---- Cancelling ---------------------------------------------------------------------------

  /** `b` is `a` with some unfinished tasks given up. */
  predicate OnlyDrops(a: seq<Task>, b: seq<Task>) {
    && |a| == |b|
    && forall i :: 0 <= i < |a| ==> b[i] == a[i] || (Unfinished(a[i]) && b[i] == a[i].(status := Rejected))
  }

  lemma ChosenAreUnfinished(tasks: seq<Task>, i: nat)
    requires UniqueIds(tasks) && i < |tasks| && tasks[i].id in UnfinishedIds(tasks)
    ensures Unfinished(tasks[i])
  {
    var t :| t in tasks && Unfinished(t) && t.id == tasks[i].id;
    var j :| 0 <= j < |tasks| && tasks[j] == t;
    assert i == j;
  }

  lemma RejectingIdsDrops(tasks: seq<Task>, ids: set<string>)
    requires UniqueIds(tasks) && ids <= UnfinishedIds(tasks)
    ensures OnlyDrops(tasks, RejectIds(tasks, ids))
  {
    forall i | 0 <= i < |tasks| && tasks[i].id in ids
      ensures Unfinished(tasks[i])
    {
      ChosenAreUnfinished(tasks, i);
    }
  }

  /** A cancel gives up everything chosen, possibly more, and leaves nothing queued behind a rejected task. */
  lemma CancelDrops(target: Plan, chosen: set<string>, isCurrent: bool)
    requires UniqueIds(target.tasks) && chosen <= UnfinishedIds(target.tasks)
    ensures OnlyDrops(target.tasks, CancelledTasks(target, chosen, isCurrent))
    ensures NoPendingBlocked(CancelledTasks(target, chosen, isCurrent))
    ensures forall i :: 0 <= i < |target.tasks| && target.tasks[i].id in chosen ==>
              CancelledTasks(target, chosen, isCurrent)[i].status.Rejected?
    ensures !isCurrent && !HasStatus(CancelledTasks(target, chosen, isCurrent), WaitingInput) ==>
              forall i :: 0 <= i < |target.tasks| && Unfinished(target.tasks[i]) ==>
                CancelledTasks(target, chosen, isCurrent)[i].status.Rejected?
  {
    var a := target.tasks;
    var mid := RejectIds(a, chosen);
    RejectingIdsDrops(a, chosen);
    var b := RejectBlocked(mid);
    PropagationIsIdempotent(mid);
    assert OnlyDrops(a, b);
    if !isCurrent && !HasStatus(b, WaitingInput) {
      GiveUpTheRest(a, b);
    }
  }

  lemma GiveUpTheRest(a: seq<Task>, b: seq<Task>)
    requires UniqueIds(a) && OnlyDrops(a, b)
    ensures var c := RejectIds(b, UnfinishedIds(a));
            && OnlyDrops(a, c) && NoPendingBlocked(c)
            && (forall i :: 0 <= i < |a| && Unfinished(a[i]) ==> c[i].status.Rejected?)
            && (forall i :: 0 <= i < |a| && b[i].status.Rejected? ==> c[i].status.Rejected?)
  {
    forall i | 0 <= i < |a|
      ensures a[i].id in UnfinishedIds(a) <==> Unfinished(a[i])
    {
      if a[i].id in UnfinishedIds(a) {
        ChosenAreUnfinished(a, i);
      } else {
        assert a[i] in a;
      }
    }
  }

  lemma DroppedExactly(a: seq<Task>, b: seq<Task>, i: nat)
    requires UniqueIds(a) && OnlyDrops(a, b) && i < |a|
    ensures a[i].id in DroppedIds(b, UnfinishedIds(a)) <==> Unfinished(a[i]) && b[i].status.Rejected?
  {
    if a[i].id in DroppedIds(b, UnfinishedIds(a)) {
      var t :| t in b && t.id in UnfinishedIds(a) && t.status.Rejected? && t.id == a[i].id;
      var j :| 0 <= j < |b| && b[j] == t;
      assert i == j;
      ChosenAreUnfinished(a, i);
    }
    if Unfinished(a[i]) && b[i].status.Rejected? {
      assert a[i] in a && b[i] in b;
    }
  }

  lemma DropKeeps(p: Plan, tasks: seq<Task>)
    requires PlanInv(p) && OnlyDrops(p.tasks, tasks) && NoPendingBlocked(tasks)
    ensures var q := p.(tasks := tasks, drafts := p.drafts - DroppedIds(tasks, UnfinishedIds(p.tasks)));
            PlanInv(q) && (NoQueuedDraft(p) ==> NoQueuedDraft(q)) && (No(p, Running) ==> No(q, Running))
  {
    var q := p.(tasks := tasks, drafts := p.drafts - DroppedIds(tasks, UnfinishedIds(p.tasks)));
    SameGraphKeepsStructure(p.tasks, tasks);
    forall i | 0 <= i < |tasks|
      ensures TaskOK(q, i)
    {
      assert TaskOK(p, i);
      DroppedExactly(p.tasks, tasks, i);
      CompletedGrow(p.tasks, tasks);
    }
  }

  // ---- Taking in a result -------------------------------------------------------------------

  /** `b` is `a` after the running task `k` got a new status and some queued tasks were rejected in consequence. */
  ghost predicate SettlesOne(a: seq<Task>, b: seq<Task>, k: nat) {
    && k < |a| && SameGraph(a, b)
    && a[k].status.Running?
    && b[k].status in {Pending, WaitingInput, Completed, Rejected, Failed}
    && forall i :: 0 <= i < |a| && i != k ==>
         b[i] == a[i] || (a[i].status.Pending? && b[i] == a[i].(status := Rejected))
  }

  /** The plan's task `k` took in its result: its draft and artifact follow its new status. */
  ghost predicate TakesIn(p: Plan, q: Plan, k: nat) {
    && SettlesOne(p.tasks, q.tasks, k)
    && (forall x :: x != p.tasks[k].id ==> (x in q.drafts <==> x in p.drafts))
    && (p.tasks[k].id in q.drafts <==> q.tasks[k].status.WaitingInput?)
    && (forall x <- p.artifacts :: x in q.artifacts && (x != p.tasks[k].id ==> q.artifacts[x] == p.artifacts[x]))
    && (q.tasks[k].status.Completed? ==> p.tasks[k].id in q.artifacts && q.artifacts[p.tasks[k].id] != map[])
  }

  lemma TakingInKeeps(p: Plan, q: Plan, k: nat)
    requires PlanInv(p) && NoQueuedDraft(p) && TakesIn(p, q, k) && NoPendingBlocked(q.tasks)
    ensures PlanInv(q) && NoQueuedDraft(q)
  {
    SameGraphKeepsStructure(p.tasks, q.tasks);
    TakingInKeepsTasks(p, q, k);
  }

  lemma TakingInKeepsTasks(p: Plan, q: Plan, k: nat)
    requires UniqueIds(p.tasks) && TasksOK(p) && NoQueuedDraft(p) && TakesIn(p, q, k)
    ensures TasksOK(q) && NoQueuedDraft(q)
  {
    assert TaskOK(p, k);
    forall i | 0 <= i < |q.tasks|
      ensures TaskOK(q, i) && (q.tasks[i].status.Pending? ==> q.tasks[i].id !in q.drafts)
    {
      assert TaskOK(p, i);
      CompletedGrow(p.tasks, q.tasks);
      assert i != k ==> p.tasks[i].id != p.tasks[k].id;
    }
  }

  /** The merge's working copy seen as the current plan. */
  function PlanView(base: Plan, m: MergeState): Plan {
    base.(tasks := m.tasks, artifacts := m.artifacts, drafts := m.drafts)
  }

  function IndexOf(tasks: seq<Task>, id: string): (k: nat)
    requires id in Ids(tasks)
    ensures k < |tasks| && tasks[k].id == id
  {
    OrderOf(tasks, id)
  }

  lemma OnlyOneChanges(tasks: seq<Task>, k: nat)
    requires UniqueIds(tasks) && k < |tasks|
    ensures forall i :: 0 <= i < |tasks| ==> (tasks[i].id == tasks[k].id <==> i == k)
  {}

  /** The tasks after a result that ends or suspends its task. */
  function Settled(tasks: seq<Task>, id: string, status: TaskStatus): seq<Task> {
    var set1 := SetStatus(tasks, id, status);
    if status.Rejected? || status.Failed? then RejectBlocked(set1) else set1
  }

  lemma StatusSettlesOne(tasks: seq<Task>, k: nat, status: TaskStatus)
    requires UniqueIds(tasks) && k < |tasks| && tasks[k].status.Running?
    requires status in {WaitingInput, Rejected, Failed, Completed}
    ensures SettlesOne(tasks, SetStatus(tasks, tasks[k].id, status), k)
    ensures SetStatus(tasks, tasks[k].id, status)[k].status == status
  {
    OnlyOneChanges(tasks, k);
  }

  lemma RejectingSettlesOne(a: seq<Task>, b: seq<Task>, k: nat)
    requires SettlesOne(a, b, k) && !b[k].status.Pending?
    ensures SettlesOne(a, RejectBlocked(b), k) && RejectBlocked(b)[k] == b[k]
  {}

  lemma SettledIsSettlesOne(tasks: seq<Task>, k: nat, status: TaskStatus)
    requires UniqueIds(tasks) && NoPendingBlocked(tasks) && k < |tasks| && tasks[k].status.Running?
    requires status in {WaitingInput, Rejected, Failed, Completed}
    ensures SettlesOne(tasks, Settled(tasks, tasks[k].id, status), k)
    ensures Settled(tasks, tasks[k].id, status)[k].status == status
    ensures NoPendingBlocked(Settled(tasks, tasks[k].id, status))
  {
    var set1 := SetStatus(tasks, tasks[k].id, status);
    StatusSettlesOne(tasks, k, status);
    if status.Rejected? || status.Failed? {
      RejectingSettlesOne(tasks, set1, k);
      PropagationIsIdempotent(set1);
    } else {
      NothingNewlyBlocked(tasks, set1);
    }
  }

  lemma ApplyTakesIn(base: Plan, m: MergeState, r: DomainTaskResult)
    requires r.WellShaped() && !r.status.HandedOff? && r.taskId in Ids(m.tasks)
    requires UniqueIds(m.tasks) && NoPendingBlocked(m.tasks)
    requires m.tasks[IndexOf(m.tasks, r.taskId)].status.Running?
    ensures TakesIn(PlanView(base, m), PlanView(base, ApplyResult(m, r)), IndexOf(m.tasks, r.taskId))
    ensures NoPendingBlocked(ApplyResult(m, r).tasks)
  {
    SettledIsSettlesOne(m.tasks, IndexOf(m.tasks, r.taskId), r.status);
    assert ApplyResult(m, r).tasks == Settled(m.tasks, r.taskId, r.status);
  }

  lemma TaskAtIndex(tasks: seq<Task>, id: string)
    requires UniqueIds(tasks) && id in Ids(tasks)
    ensures TaskWithId(tasks, id) == tasks[IndexOf(tasks, id)]
  {
    var t, k := TaskWithId(tasks, id), IndexOf(tasks, id);
    assert t.id == id && tasks[k].id == id;
    var j :| 0 <= j < |tasks| && tasks[j] == t;
    assert j == k;
  }

  lemma RequeuedSettlesOne(tasks: seq<Task>, k: nat, target: AgentName)
    requires UniqueIds(tasks) && NoPendingBlocked(tasks) && k < |tasks|
    requires tasks[k].status.Running? && DepsDone(tasks, tasks[k])
    ensures var b := ReplaceTask(tasks, tasks[k].id, RerouteTask(tasks[k], target));
            SettlesOne(tasks, b, k) && b[k] == RerouteTask(tasks[k], target) && NoPendingBlocked(b)
  {
    var b := ReplaceTask(tasks, tasks[k].id, RerouteTask(tasks[k], target));
    OnlyOneChanges(tasks, k);
    NothingNewlyBlocked(tasks, b);
  }

  lemma RerouteTakesIn(base: Plan, m: MergeState, r: DomainTaskResult)
    requires r.WellShaped() && r.status.HandedOff? && r.taskId in Ids(m.tasks)
    requires UniqueIds(m.tasks) && NoPendingBlocked(m.tasks)
    requires var t := m.tasks[IndexOf(m.tasks, r.taskId)]; t.status.Running? && DepsDone(m.tasks, t)
    ensures TakesIn(PlanView(base, m), PlanView(base, Reroute(m, r)), IndexOf(m.tasks, r.taskId))
    ensures NoPendingBlocked(Reroute(m, r).tasks)
  {
    var k := IndexOf(m.tasks, r.taskId);
    TaskAtIndex(m.tasks, r.taskId);
    if HandoffRefused(m.tasks[k], r.handoffTo) {
      SettledIsSettlesOne(m.tasks, k, Failed);
      assert Reroute(m, r).tasks == Settled(m.tasks, r.taskId, Failed);
    } else {
      RequeuedSettlesOne(m.tasks, k, r.handoffTo.value);
    }
  }

  lemma MergeOneTakesIn(base: Plan, m: MergeState, r: DomainTaskResult)
    requires r.WellShaped() && r.taskId in Ids(m.tasks)
    requires PlanInv(PlanView(base, m)) && NoQueuedDraft(PlanView(base, m))
    requires m.tasks[IndexOf(m.tasks, r.taskId)].status.Running?
    ensures TakesIn(PlanView(base, m), PlanView(base, MergeOne(m, r)), IndexOf(m.tasks, r.taskId))
    ensures PlanInv(PlanView(base, MergeOne(m, r))) && NoQueuedDraft(PlanView(base, MergeOne(m, r)))
  {
    var m1 := SayNotes(m.(toolResults := m.toolResults + r.toolResults), r.notes, r.taskId);
    assert PlanView(base, m1) == PlanView(base, m);
    StartedHaveDeps(PlanView(base, m));
    if r.status.HandedOff? {
      RerouteTakesIn(base, m1, r);
    } else {
      ApplyTakesIn(base, m1, r);
    }
    TakingInKeeps(PlanView(base, m), PlanView(base, MergeOne(m, r)), IndexOf(m.tasks, r.taskId));
  }
}
