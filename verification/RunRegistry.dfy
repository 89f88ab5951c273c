/** The registry of background runs (`RunManager` in core/runs.py): admission, cancelling and delayed cleanup. */
module RunRegistry {
  import opened Models

  datatype RunStatus = Running | Completed | Interrupted | Failed | Cancelled

  /**
   * How far the run's task has come. It can be cancelled before its first step; and once its status is set it still
   * waits for the end of its stream to be published, where it can be cancelled again.
   */
  datatype Progress =
    | Created(cancelRequested: bool)
    | Supervised(cancelRequested: bool)
    | Ending(cancelRequested: bool)
    | Over

  datatype Run = Run(conversation: string, request: Option<string>, status: RunStatus, progress: Progress)

  /** `cleanups` are the runs whose retention period is under way. */
  datatype Registry = Registry(runs: map<string, Run>, latest: map<string, string>, cleanups: set<string>, closed: bool)

  datatype Admission = Refused | Joined(runId: string) | Started(runId: string)

  datatype Action =
    | Submit(conversation: string, request: Option<string>, freshId: string)
    | Begin(runId: string)
    | Settle(runId: string, status: RunStatus)
    | Conclude(runId: string, cutShort: bool)
    | Cancel(runId: string)
    | Forget(runId: string)
    | Close

  const EMPTY := Registry(map[], map[], {}, false)

  /** `latest`: the conversation's last run that is still kept. */
  function Latest(r: Registry, conversation: string): (id: Option<string>)
    ensures id.Some? ==> id.value in r.runs
  {
    if conversation in r.latest && r.latest[conversation] in r.runs then Some(r.latest[conversation]) else None
  }

  /** `active` */
  function Active(r: Registry, conversation: string): (id: Option<string>)
    ensures id.Some? ==> id.value in r.runs
  {
    var run := Latest(r, conversation);
    if run.Some? && r.runs[run.value].status.Running? then run else None
  }

  function Admit(r: Registry, conversation: string, request: Option<string>, freshId: string): Admission {
    var current := Active(r, conversation);
    if r.closed then Refused
    else if current.None? then Started(freshId)
    else if request.Some? && r.runs[current.value].request == request then Joined(current.value)
    else Refused
  }

  /** A task cancelled before its first step ends without running any of `_supervise`, its `finally` included. */
  function BeginRun(run: Run): Run {
    if run.progress == Created(true) then run.(progress := Over) else run.(progress := Supervised(false))
  }

  function CancelRun(run: Run): Run {
    match run.progress
    case Created(_) => run.(progress := Created(true))
    case Supervised(_) => run.(progress := Supervised(true))
    case Ending(_) => run.(progress := Ending(true))
    case Over => run
  }

  /** Closing cancels every task, waits for it, and marks whatever is still `running` as cancelled. */
  function CloseRun(run: Run): Run {
    run.(progress := Over, status := if run.status.Running? then Cancelled else run.status)
  }

  predicate Possible(r: Registry, a: Action) {
    match a
    case Submit(_, _, freshId) => freshId !in r.runs
    case Begin(id) => id in r.runs && r.runs[id].progress.Created?
    case Settle(id, status) => id in r.runs && r.runs[id].progress.Supervised? && !status.Running?
    case Conclude(id, cutShort) =>
      id in r.runs && r.runs[id].progress.Ending? && (cutShort ==> r.runs[id].progress.cancelRequested)
    case Cancel(_) => true
    case Forget(id) => id in r.cleanups
    case Close => true
  }

  function Act(r: Registry, a: Action): Registry
    requires Possible(r, a)
  {
    match a
    case Submit(conversation, request, freshId) =>
      if Admit(r, conversation, request, freshId).Started? then
        r.(runs := r.runs[freshId := Run(conversation, request, RunStatus.Running, Created(false))],
           latest := r.latest[conversation := freshId])
      else r
    case Begin(id) => r.(runs := r.runs[id := BeginRun(r.runs[id])])
    case Settle(id, status) => r.(runs := r.runs[id := r.runs[id].(status := status, progress := Ending(false))])
    case Conclude(id, cutShort) =>
      r.(runs := r.runs[id := r.runs[id].(progress := Over)],
         cleanups := if cutShort then r.cleanups else r.cleanups + {id})
    case Cancel(id) => if id in r.runs then r.(runs := r.runs[id := CancelRun(r.runs[id])]) else r
    case Forget(id) =>
      var kept := r.(runs := r.runs - {id}, cleanups := r.cleanups - {id});
      if id in r.runs && r.runs[id].conversation in r.latest && r.latest[r.runs[id].conversation] == id
      then kept.(latest := r.latest - {r.runs[id].conversation})
      else kept
    case Close =>
      r.(closed := true, runs := map id | id in r.runs :: CloseRun(r.runs[id]), cleanups := {})
  }

  /** The registry as the program updates it. */
  class RunManager {
    var runs: map<string, Run>
    var byConversation: map<string, string>
    var cleanups: set<string>
    var closed: bool

    ghost function View(): Registry
      reads this
    {
      Registry(runs, byConversation, cleanups, closed)
    }

    constructor ()
      ensures View() == EMPTY
    {
      runs, byConversation, cleanups, closed := map[], map[], {}, false;
    }

    method FindLatest(conversation: string) returns (id: Option<string>)
      ensures id == Latest(View(), conversation)
    {
      if conversation !in byConversation {
        return None;
      }
      var runId := byConversation[conversation];
      return if runId in runs then Some(runId) else None;
    }

    method Start(conversation: string, request: Option<string>, freshId: string) returns (admission: Admission)
      requires freshId !in runs
      modifies this
      ensures admission == Admit(old(View()), conversation, request, freshId)
      ensures View() == Act(old(View()), Submit(conversation, request, freshId))
    {
      if closed {
        return Refused;
      }
      var current := FindLatest(conversation);
      if current.Some? && runs[current.value].status.Running? {
        if request.Some? && runs[current.value].request == request {
          return Joined(current.value);
        }
        return Refused;
      }
      runs := runs[freshId := Run(conversation, request, RunStatus.Running, Created(false))];
      byConversation := byConversation[conversation := freshId];
      return Started(freshId);
    }

    /** `request_cancel` */
    method RequestCancel(id: string) returns (delivered: bool)
      modifies this
      ensures delivered <==> id in old(runs) && !old(runs)[id].progress.Over?
      ensures View() == Act(old(View()), Cancel(id))
    {
      if id !in runs || runs[id].progress.Over? {
        assert id in runs ==> runs[id := CancelRun(runs[id])] == runs;
        return false;
      }
      runs := runs[id := CancelRun(runs[id])];
      return true;
    }

    /** `_supervise`, once the runner has returned, failed or been cancelled. */
    method SetStatus(id: string, status: RunStatus)
      requires id in runs && runs[id].progress.Supervised? && !status.Running?
      modifies this
      ensures View() == Act(old(View()), Settle(id, status))
    {
      runs := runs[id := runs[id].(status := status, progress := Ending(false))];
    }

    /** What `_supervise` does last: a cancellation that reaches it while it publishes the end skips the cleanup. */
    method Finish(id: string, cutShort: bool)
      requires id in runs && runs[id].progress.Ending? && (cutShort ==> runs[id].progress.cancelRequested)
      modifies this
      ensures View() == Act(old(View()), Conclude(id, cutShort))
    {
      runs := runs[id := runs[id].(progress := Over)];
      if !cutShort {
        cleanups := cleanups + {id};
      }
    }

    /** `_cleanup_later`, once the retention period is over. */
    method CleanUp(id: string)
      requires id in cleanups
      modifies this
      ensures View() == Act(old(View()), Forget(id))
    {
      var conversation := if id in runs then Some(runs[id].conversation) else None;
      runs := runs - {id};
      cleanups := cleanups - {id};
      if conversation.Some? && conversation.value in byConversation && byConversation[conversation.value] == id {
        byConversation := byConversation - {conversation.value};
      }
    }
  }

  // ---- Admission ------------------------------------------------------------------------------

  /** A running run is the one its conversation's entry names; only runs that are not running wait to be forgotten. */
  predicate RegistryOK(r: Registry) {
    && (forall id <- r.runs :: r.runs[id].status.Running? ==>
          r.runs[id].conversation in r.latest && r.latest[r.runs[id].conversation] == id)
    && (forall c <- r.latest :: r.latest[c] in r.runs && r.runs[r.latest[c]].conversation == c)
    && (forall id <- r.cleanups :: id in r.runs && !r.runs[id].status.Running? && r.runs[id].progress.Over?)
    && (forall id <- r.runs :: r.runs[id].progress.Created? || r.runs[id].progress.Supervised? ==>
          r.runs[id].status.Running?)
    && (forall id <- r.runs :: r.runs[id].progress.Ending? ==> !r.runs[id].status.Running?)
  }

  lemma ActKeeps(r: Registry, a: Action)
    requires RegistryOK(r) && Possible(r, a)
    ensures RegistryOK(Act(r, a))
  {
    if a.Submit? {
      SubmitKeeps(r, a);
    } else if a.Forget? {
      ForgetKeeps(r, a);
    }
  }

  lemma SubmitKeeps(r: Registry, a: Action)
    requires RegistryOK(r) && Possible(r, a) && a.Submit?
    ensures RegistryOK(Act(r, a))
  {}

  lemma ForgetKeeps(r: Registry, a: Action)
    requires RegistryOK(r) && Possible(r, a) && a.Forget?
    ensures RegistryOK(Act(r, a))
  {}

  ghost predicate Follows(r: Registry, a: Action, r': Registry) {
    Possible(r, a) && r' == Act(r, a)
  }

  ghost predicate History(trace: seq<Registry>, actions: seq<Action>) {
    && |trace| == |actions| + 1 && trace[0] == EMPTY
    && forall i :: 0 <= i < |actions| ==> Follows(trace[i], actions[i], trace[i + 1])
  }

  lemma {:induction false} HistoryKeeps(trace: seq<Registry>, actions: seq<Action>, n: nat)
    requires History(trace, actions) && n < |trace|
    ensures RegistryOK(trace[n])
  {
    if n > 0 {
      HistoryKeeps(trace, actions, n - 1);
      assert Follows(trace[n - 1], actions[n - 1], trace[n]);
      ActKeeps(trace[n - 1], actions[n - 1]);
    }
  }

  /** At any time a conversation has at most one running run, and that is the one `latest` finds. */
  lemma OneRunPerConversation(trace: seq<Registry>, actions: seq<Action>, n: nat, id: string, other: string)
    requires History(trace, actions) && n < |trace| && id in trace[n].runs && trace[n].runs[id].status.Running?
    ensures Latest(trace[n], trace[n].runs[id].conversation) == Some(id)
            == Active(trace[n], trace[n].runs[id].conversation)
    ensures (other in trace[n].runs && trace[n].runs[other].status.Running?
             && trace[n].runs[other].conversation == trace[n].runs[id].conversation) ==> other == id
  {
    HistoryKeeps(trace, actions, n);
  }

  /**
   * A submission starts a run exactly when none of the conversation is running; sent again with the running one's
   * request id it joins that run and changes nothing; anything else is refused.
   */
  lemma AdmissionIsExclusive(r: Registry, conversation: string, request: Option<string>, freshId: string)
    requires RegistryOK(r) && freshId !in r.runs && !r.closed
    ensures Admit(r, conversation, request, freshId).Started?
            <==> forall id <- r.runs :: r.runs[id].conversation == conversation ==> !r.runs[id].status.Running?
    ensures forall id <- r.runs :: r.runs[id].conversation == conversation && r.runs[id].status.Running? ==>
              && Act(r, Submit(conversation, request, freshId)) == r
              && Admit(r, conversation, request, freshId)
                 == if request.Some? && r.runs[id].request == request then Joined(id) else Refused
  {}

  /** Forgetting an old run never takes away a newer one of the same conversation, nor any other conversation's. */
  lemma OldCleanupSparesNewer(r: Registry, id: string, conversation: string)
    requires RegistryOK(r) && id in r.cleanups && Latest(r, conversation).Some? && Latest(r, conversation) != Some(id)
    ensures Latest(Act(r, Forget(id)), conversation) == Latest(r, conversation)
    ensures Active(Act(r, Forget(id)), conversation) == Active(r, conversation)
  {}

  // ---- Cancelling too early -------------------------------------------------------------------

  /** Cancelled before it began: over, but for ever `running`, and nobody is going to clean it up. */
  predicate Stranded(r: Registry, id: string) {
    id in r.runs && r.runs[id].status.Running? && r.runs[id].progress.Over?
  }

  /** A run is stranded exactly by being cancelled before its task's first step. */
  lemma StrandedByEarlyCancel(r: Registry, a: Action, id: string)
    requires RegistryOK(r) && Possible(r, a) && !Stranded(r, id)
    ensures Stranded(Act(r, a), id) <==> a == Begin(id) && r.runs[id].progress == Created(true)
  {}

  lemma StrandedStays(r: Registry, a: Action, id: string)
    requires RegistryOK(r) && Possible(r, a) && Stranded(r, id) && !a.Close?
    ensures Stranded(Act(r, a), id) && Act(r, a).runs[id].conversation == r.runs[id].conversation
    ensures Act(r, a).runs[id].request == r.runs[id].request
  {}

  /**
   * From then on, until the whole registry closes, the conversation never gets another run: each later submission is
   * refused or joins the dead run.
   */
  lemma {:induction false} StrandedLocksConversation(
    trace: seq<Registry>, actions: seq<Action>, n: nat, m: nat, id: string, request: Option<string>, freshId: string)
    requires History(trace, actions) && n <= m < |trace| && Stranded(trace[n], id)
    requires forall k :: n <= k < m ==> !actions[k].Close?
    ensures Stranded(trace[m], id) && trace[m].runs[id].conversation == trace[n].runs[id].conversation
    ensures !Admit(trace[m], trace[n].runs[id].conversation, request, freshId).Started?
    decreases m
  {
    HistoryKeeps(trace, actions, m);
    if n < m {
      StrandedLocksConversation(trace, actions, n, m - 1, id, request, freshId);
      HistoryKeeps(trace, actions, m - 1);
      assert Follows(trace[m - 1], actions[m - 1], trace[m]);
      StrandedStays(trace[m - 1], actions[m - 1], id);
    }
  }

  /** Submitted, cancelled before the task's first step, and begun: the shortest way to strand a run. */
  lemma EarlyCancelStrands(conversation: string, request: Option<string>, id: string)
    returns (trace: seq<Registry>, actions: seq<Action>)
    ensures History(trace, actions) && actions == [Submit(conversation, request, id), Cancel(id), Begin(id)]
    ensures Stranded(trace[3], id) && trace[3].runs[id].conversation == conversation
  {
    actions := [Submit(conversation, request, id), Cancel(id), Begin(id)];
    var submitted := Act(EMPTY, actions[0]);
    var cancelled := Act(submitted, actions[1]);
    trace := [EMPTY, submitted, cancelled, Act(cancelled, actions[2])];
    assert Follows(trace[0], actions[0], trace[1]) && Follows(trace[1], actions[1], trace[2]);
    assert Follows(trace[2], actions[2], trace[3]);
  }

  // ---- Cleaning up ----------------------------------------------------------------------------

  /** Its task is over, and nothing will ever take it out of the registry. */
  predicate Leaked(r: Registry, id: string) {
    id in r.runs && r.runs[id].progress.Over? && id !in r.cleanups
  }

  /** A cancellation took the task out of `_supervise` before it could schedule the cleanup: too early, or too late. */
  predicate Escapes(r: Registry, a: Action, id: string) {
    a == Conclude(id, true) || (a == Begin(id) && id in r.runs && r.runs[id].progress == Created(true))
  }

  lemma LeakedByEscaping(r: Registry, a: Action, id: string)
    requires RegistryOK(r) && Possible(r, a) && !a.Close?
    ensures Leaked(Act(r, a), id) <==> Leaked(r, id) || Escapes(r, a, id)
  {}

  /**
   * Until the whole registry closes, every run whose task is over is waiting for its cleanup, exactly unless a
   * cancellation cut its task short at one of the two ends of `_supervise`; such a run is never forgotten.
   */
  lemma {:induction false} OverMeansCleanup(trace: seq<Registry>, actions: seq<Action>, n: nat, id: string)
    requires History(trace, actions) && n < |trace| && forall i :: 0 <= i < n ==> !actions[i].Close?
    ensures Leaked(trace[n], id) <==> exists i :: 0 <= i < n && Escapes(trace[i], actions[i], id)
  {
    if n > 0 {
      OverMeansCleanup(trace, actions, n - 1, id);
      HistoryKeeps(trace, actions, n - 1);
      assert Follows(trace[n - 1], actions[n - 1], trace[n]);
      LeakedByEscaping(trace[n - 1], actions[n - 1], id);
    }
  }

  /** A run cancelled while it publishes its end: it did complete and hinders nobody, but it is never forgotten. */
  lemma LateCancelLeaks(conversation: string, request: Option<string>, id: string)
    returns (trace: seq<Registry>, actions: seq<Action>)
    ensures History(trace, actions)
    ensures actions == [Submit(conversation, request, id), Begin(id), Settle(id, RunStatus.Completed), Cancel(id),
                        Conclude(id, true)]
    ensures Leaked(trace[5], id) && Active(trace[5], conversation) == None
  {
    actions := [Submit(conversation, request, id), Begin(id), Settle(id, RunStatus.Completed), Cancel(id),
                Conclude(id, true)];
    var submitted := Act(EMPTY, actions[0]);
    var begun := Act(submitted, actions[1]);
    var settled := Act(begun, actions[2]);
    var cancelled := Act(settled, actions[3]);
    trace := [EMPTY, submitted, begun, settled, cancelled, Act(cancelled, actions[4])];
    assert Follows(trace[0], actions[0], trace[1]) && Follows(trace[1], actions[1], trace[2]);
    assert Follows(trace[2], actions[2], trace[3]) && Follows(trace[3], actions[3], trace[4]);
    assert Follows(trace[4], actions[4], trace[5]);
  }

  // ---- What the registry knows about a run ----------------------------------------------------

  /** What happens to one run leaves every other run, and its cleanup, alone; only closing concerns all of them. */
  lemma OthersUntouched(r: Registry, a: Action, id: string)
    requires Possible(r, a) && !a.Close?
    requires match a
             case Submit(_, _, freshId) => freshId != id
             case Begin(other) => other != id
             case Settle(other, _) => other != id
             case Conclude(other, _) => other != id
             case Cancel(other) => other != id
             case Forget(other) => other != id
    ensures id in Act(r, a).runs <==> id in r.runs
    ensures id in r.runs ==> Act(r, a).runs[id] == r.runs[id]
    ensures id in Act(r, a).cleanups <==> id in r.cleanups
  {}

  /** Since step `s` the run has been kept, for the conversation and the request it was submitted with. */
  ghost predicate KeptSince(trace: seq<Registry>, actions: seq<Action>, s: nat, n: nat, id: string) {
    && s < n < |trace| && n <= |actions| && id in trace[n].runs
    && actions[s] == Submit(trace[n].runs[id].conversation, trace[n].runs[id].request, id)
    && forall k :: s < k <= n ==> id in trace[k].runs
  }

  /** No settling and no closing between the two steps. */
  ghost predicate Undecided(actions: seq<Action>, s: nat, n: nat, id: string)
    requires n <= |actions|
  {
    forall k :: s < k < n ==> !actions[k].Close? && !(actions[k].Settle? && actions[k].runId == id)
  }

  /** `running` until it is decided; then what it settled with, or `cancelled` if the registry closed before that. */
  ghost predicate DecidedOnce(trace: seq<Registry>, actions: seq<Action>, s: nat, n: nat, id: string)
    requires n < |trace| && n <= |actions| && id in trace[n].runs
  {
    && (trace[n].runs[id].status.Running? <==> Undecided(actions, s, n, id))
    && (forall k :: s < k < n && Undecided(actions, s, k, id) && actions[k].Settle? && actions[k].runId == id ==>
          trace[n].runs[id].status == actions[k].status)
    && (forall k :: s < k < n && Undecided(actions, s, k, id) && actions[k].Close? ==>
          trace[n].runs[id].status == Cancelled)
  }

  lemma StatusStays(r: Registry, a: Action, id: string)
    requires RegistryOK(r) && Possible(r, a) && id in r.runs && id in Act(r, a).runs
    ensures Act(r, a).runs[id].conversation == r.runs[id].conversation
    ensures Act(r, a).runs[id].request == r.runs[id].request
    ensures Act(r, a).runs[id].status
            == if !r.runs[id].status.Running? then r.runs[id].status
               else if a.Close? then Cancelled
               else if a.Settle? && a.runId == id then a.status
               else RunStatus.Running
  {}

  /**
   * Whatever has happened: a run in the registry is the one submitted under its id, with that conversation and that
   * request, and its status says how it was first decided; no later step changes that.
   */
  lemma {:induction false} RunIsAsSubmitted(trace: seq<Registry>, actions: seq<Action>, n: nat, id: string)
    returns (s: nat)
    requires History(trace, actions) && n < |trace| && id in trace[n].runs
    ensures KeptSince(trace, actions, s, n, id) && DecidedOnce(trace, actions, s, n, id)
  {
    var before, a := trace[n - 1], actions[n - 1];
    HistoryKeeps(trace, actions, n - 1);
    assert Follows(before, a, trace[n]);
    if id in before.runs {
      s := RunIsAsSubmitted(trace, actions, n - 1, id);
      StatusStays(before, a, id);
    } else {
      s := n - 1;
    }
  }

  predicate SameStage(p: Progress, q: Progress) {
    (p.Created? <==> q.Created?) && (p.Supervised? <==> q.Supervised?) && (p.Ending? <==> q.Ending?)
  }

  /** The task of this run goes on to its next stage, or everything is closed. */
  predicate MovesOn(a: Action, id: string) {
    match a
    case Begin(other) => other == id
    case Settle(other, _) => other == id
    case Conclude(other, _) => other == id
    case Close => true
    case _ => false
  }

  lemma CancellationStays(r: Registry, a: Action, id: string)
    requires RegistryOK(r) && Possible(r, a) && !MovesOn(a, id)
    requires id in r.runs && !r.runs[id].progress.Over? && (r.runs[id].progress.cancelRequested || a == Cancel(id))
    ensures var r' := Act(r, a);
            && id in r'.runs && r'.runs[id] == r.runs[id].(progress := r'.runs[id].progress)
            && SameStage(r.runs[id].progress, r'.runs[id].progress) && r'.runs[id].progress.cancelRequested
  {}

  /** A cancellation of a run that is not over waits, in whatever stage, until its task can take it. */
  lemma {:induction false} CancelIsNotForgotten(trace: seq<Registry>, actions: seq<Action>, i: nat, n: nat, id: string)
    requires History(trace, actions) && i < n < |trace| && actions[i] == Cancel(id)
    requires id in trace[i].runs && !trace[i].runs[id].progress.Over?
    requires forall k :: i < k < n ==> !MovesOn(actions[k], id)
    ensures id in trace[n].runs && trace[n].runs[id] == trace[i].runs[id].(progress := trace[n].runs[id].progress)
    ensures SameStage(trace[i].runs[id].progress, trace[n].runs[id].progress)
            && trace[n].runs[id].progress.cancelRequested
    decreases n
  {
    HistoryKeeps(trace, actions, n - 1);
    assert Follows(trace[n - 1], actions[n - 1], trace[n]);
    if i < n - 1 {
      CancelIsNotForgotten(trace, actions, i, n - 1, id);
    }
    CancellationStays(trace[n - 1], actions[n - 1], id);
  }

  /** Closing ends every run, marks as cancelled what was still running, and is final: nothing starts any more. */
  lemma {:induction false} ClosedForGood(trace: seq<Registry>, actions: seq<Action>, n: nat, m: nat)
    requires History(trace, actions) && n < m < |trace| && actions[n].Close?
    ensures trace[m].closed && trace[m].runs.Keys == trace[n].runs.Keys && trace[m].cleanups == {}
    ensures forall id <- trace[m].runs :: trace[m].runs[id].progress.Over? && !trace[m].runs[id].status.Running?
    ensures forall conversation, request, freshId :: Admit(trace[m], conversation, request, freshId).Refused?
    decreases m
  {
    assert Follows(trace[m - 1], actions[m - 1], trace[m]);
    if n < m - 1 {
      ClosedForGood(trace, actions, n, m - 1);
    }
  }
}
