/**
 * Rejecting what can no longer run (`Workflow._reject_blocked_tasks`): the loop over the whole plan, the function it
 * computes, and the characterisation of that function as the least fixpoint of "blocked".
 */
module FailurePropagation {
  import opened Models

  predicate Dead(t: Task) {
    t.status.Rejected? || t.status.Failed?
  }

  function DeadIds(tasks: seq<Task>): set<string> {
    set t <- tasks | Dead(t) :: t.id
  }

  predicate DependsOnAny(t: Task, ids: set<string>) {
    exists d <- t.dependsOn :: d in ids
  }

  function RejectIfBlocked(t: Task, dead: set<string>): Task {
    if DependsOnAny(t, dead) && t.status.Pending? then t.(status := Rejected) else t
  }

  /** One sweep over the plan. */
  function Sweep(tasks: seq<Task>): (r: seq<Task>)
    ensures |r| == |tasks|
  {
    seq(|tasks|, i requires 0 <= i < |tasks| => RejectIfBlocked(tasks[i], DeadIds(tasks)))
  }

  function PendingCount(tasks: seq<Task>): nat {
    if tasks == [] then 0 else (if tasks[0].status.Pending? then 1 else 0) + PendingCount(tasks[1..])
  }

  /** Same tasks, with at most some pending ones turned to rejected. */
  ghost predicate OnlyRejects(before: seq<Task>, after: seq<Task>) {
    && |before| == |after|
    && forall i :: 0 <= i < |before| ==>
         after[i] == before[i] || (before[i].status.Pending? && after[i] == before[i].(status := Rejected))
  }

  lemma {:induction false} RejectingLowersPending(before: seq<Task>, after: seq<Task>)
    requires OnlyRejects(before, after)
    ensures PendingCount(after) <= PendingCount(before)
    ensures after != before ==> PendingCount(after) < PendingCount(before)
  {
    if before != [] {
      assert OnlyRejects(before[1..], after[1..]);
      RejectingLowersPending(before[1..], after[1..]);
      assert before == [before[0]] + before[1..] && after == [after[0]] + after[1..];
    }
  }

  lemma SweepOnlyRejects(tasks: seq<Task>)
    ensures OnlyRejects(tasks, Sweep(tasks))
  {}

  function RejectBlocked(tasks: seq<Task>): (r: seq<Task>)
    ensures OnlyRejects(tasks, r)
    ensures Sweep(r) == r
    decreases PendingCount(tasks)
  {
    var updated := Sweep(tasks);
    if updated == tasks then updated
    else
      RejectingLowersPending(tasks, updated);
      RejectBlocked(updated)
  }

  /** `_reject_blocked_tasks`: sweeps until a sweep changes nothing. */
  method RejectBlockedTasks(tasks: seq<Task>) returns (r: seq<Task>)
    ensures r == RejectBlocked(tasks)
  {
    r := tasks;
    while true
      invariant RejectBlocked(r) == RejectBlocked(tasks)
      decreases PendingCount(r)
    {
      var updated := Sweep(r);
      if updated == r {
        return updated;
      }
      RejectingLowersPending(r, updated);
      r := updated;
    }
  }

  // ---- The least fixpoint -------------------------------------------------------------------

  /** A dependency path through pending tasks that ends in a rejected or failed one. */
  ghost predicate BlockedPath(tasks: seq<Task>, path: seq<nat>) {
    && |path| >= 2
    && path[0] < |tasks| && path[1] < |tasks|
    && tasks[path[0]].status.Pending? && tasks[path[1]].id in tasks[path[0]].dependsOn
    && if |path| == 2 then Dead(tasks[path[1]]) else BlockedPath(tasks, path[1..])
  }

  ghost predicate Blocked(tasks: seq<Task>, i: nat) {
    exists path :: BlockedPath(tasks, path) && path[0] == i
  }

  lemma RejectedHere(tasks: seq<Task>, i: nat, j: nat)
    requires i < |tasks| && j < |tasks|
    requires tasks[i].status.Pending? && tasks[j].id in tasks[i].dependsOn && Dead(tasks[j])
    ensures Sweep(tasks)[i].status.Rejected?
  {
    assert tasks[j] in tasks && tasks[j].id in DeadIds(tasks);
  }

  lemma SweepRejectsBecauseOf(tasks: seq<Task>, i: nat) returns (j: nat)
    requires i < |tasks| && Sweep(tasks)[i] != tasks[i]
    ensures tasks[i].status.Pending? && j < |tasks| && tasks[j].id in tasks[i].dependsOn && Dead(tasks[j])
  {
    var d :| d in tasks[i].dependsOn && d in DeadIds(tasks);
    var t :| t in tasks && Dead(t) && t.id == d;
    j :| 0 <= j < |tasks| && tasks[j] == t;
  }

  /** A path survives a sweep: it may only get shorter. */
  lemma {:induction false} PathAfterSweep(tasks: seq<Task>, path: seq<nat>) returns (shorter: seq<nat>)
    requires BlockedPath(tasks, path) && Sweep(tasks)[path[0]].status.Pending?
    ensures BlockedPath(Sweep(tasks), shorter) && shorter[0] == path[0]
    decreases |path|
  {
    var after := Sweep(tasks);
    SweepOnlyRejects(tasks);
    if Dead(tasks[path[1]]) {
      RejectedHere(tasks, path[0], path[1]);
      assert false;
    } else if Dead(after[path[1]]) {
      shorter := [path[0], path[1]];
    } else {
      var rest := PathAfterSweep(tasks, path[1..]);
      shorter := [path[0]] + rest;
      assert shorter[1..] == rest;
    }
  }

  lemma {:induction false} PathBeforeSweep(tasks: seq<Task>, path: seq<nat>) returns (longer: seq<nat>)
    requires BlockedPath(Sweep(tasks), path)
    ensures BlockedPath(tasks, longer) && longer[0] == path[0]
    decreases |path|
  {
    var after := Sweep(tasks);
    SweepOnlyRejects(tasks);
    if |path| > 2 {
      var rest := PathBeforeSweep(tasks, path[1..]);
      longer := [path[0]] + rest;
      assert longer[1..] == rest;
    } else if Dead(tasks[path[1]]) {
      longer := path;
    } else {
      var j := SweepRejectsBecauseOf(tasks, path[1]);
      longer := [path[0], path[1], j];
      assert longer[1..] == [path[1], j];
    }
  }

  lemma SweepKeepsBlocked(tasks: seq<Task>, i: nat)
    requires i < |tasks| && Sweep(tasks)[i].status.Pending?
    ensures Blocked(tasks, i) <==> Blocked(Sweep(tasks), i)
  {
    if Blocked(tasks, i) {
      var path :| BlockedPath(tasks, path) && path[0] == i;
      var shorter := PathAfterSweep(tasks, path);
    }
    if Blocked(Sweep(tasks), i) {
      var path :| BlockedPath(Sweep(tasks), path) && path[0] == i;
      var longer := PathBeforeSweep(tasks, path);
    }
  }

  lemma {:induction false} QuietSweepHasNoPath(tasks: seq<Task>, path: seq<nat>)
    requires Sweep(tasks) == tasks
    ensures !BlockedPath(tasks, path)
    decreases |path|
  {
    if BlockedPath(tasks, path) {
      if |path| == 2 {
        RejectedHere(tasks, path[0], path[1]);
      } else {
        QuietSweepHasNoPath(tasks, path[1..]);
      }
    }
  }

  /**
   * A task ends rejected by propagation exactly when a path through pending tasks leads from it to a rejected or
   * failed one; every other task, and every other field, is left alone.
   */
  lemma {:induction false} RejectsExactlyTheBlocked(tasks: seq<Task>, i: nat)
    requires i < |tasks|
    ensures RejectBlocked(tasks)[i] == if Blocked(tasks, i) then tasks[i].(status := Rejected) else tasks[i]
    decreases PendingCount(tasks)
  {
    var after := Sweep(tasks);
    if after == tasks {
      forall path
        ensures !BlockedPath(tasks, path)
      {
        QuietSweepHasNoPath(tasks, path);
      }
    } else {
      SweepOnlyRejects(tasks);
      RejectingLowersPending(tasks, after);
      RejectsExactlyTheBlocked(after, i);
      if after[i] != tasks[i] {
        var j := SweepRejectsBecauseOf(tasks, i);
        assert BlockedPath(tasks, [i, j]);
      } else if tasks[i].status.Pending? {
        SweepKeepsBlocked(tasks, i);
      }
    }
  }

  /** No pending task waits for a rejected or failed one. */
  predicate NoPendingBlocked(tasks: seq<Task>) {
    forall i, j :: 0 <= i < |tasks| && 0 <= j < |tasks| && tasks[i].status.Pending? && Dead(tasks[j]) ==>
      tasks[j].id !in tasks[i].dependsOn
  }

  lemma QuietIffNothingBlocked(tasks: seq<Task>)
    ensures Sweep(tasks) == tasks <==> NoPendingBlocked(tasks)
  {
    if Sweep(tasks) == tasks {
      forall i, j | 0 <= i < |tasks| && 0 <= j < |tasks| && tasks[i].status.Pending? && Dead(tasks[j])
        ensures tasks[j].id !in tasks[i].dependsOn
      {
        if tasks[j].id in tasks[i].dependsOn {
          RejectedHere(tasks, i, j);
        }
      }
    } else {
      var i :| 0 <= i < |tasks| && Sweep(tasks)[i] != tasks[i];
      var j := SweepRejectsBecauseOf(tasks, i);
    }
  }

  /** Propagation is idempotent, and changes nothing exactly when nothing pending is blocked. */
  lemma {:induction false} PropagationIsIdempotent(tasks: seq<Task>)
    ensures RejectBlocked(RejectBlocked(tasks)) == RejectBlocked(tasks)
    ensures NoPendingBlocked(RejectBlocked(tasks))
    ensures RejectBlocked(tasks) == tasks <==> NoPendingBlocked(tasks)
  {
    QuietIffNothingBlocked(RejectBlocked(tasks));
    QuietIffNothingBlocked(tasks);
  }

  /**
   * It is the least such result: any way of rejecting pending tasks that leaves none of them blocked rejects
   * everything this one does.
   */
  lemma PropagationIsLeast(tasks: seq<Task>, other: seq<Task>)
    requires OnlyRejects(tasks, other) && NoPendingBlocked(other)
    ensures forall i :: 0 <= i < |tasks| && RejectBlocked(tasks)[i].status.Rejected? ==> other[i].status.Rejected?
  {
    forall i | 0 <= i < |tasks| && RejectBlocked(tasks)[i].status.Rejected?
      ensures other[i].status.Rejected?
    {
      RejectsExactlyTheBlocked(tasks, i);
      if Blocked(tasks, i) && !other[i].status.Rejected? {
        var path :| BlockedPath(tasks, path) && path[0] == i;
        PathForcesRejection(tasks, other, path);
      }
    }
  }

  lemma {:induction false} PathForcesRejection(tasks: seq<Task>, other: seq<Task>, path: seq<nat>)
    requires OnlyRejects(tasks, other) && NoPendingBlocked(other) && BlockedPath(tasks, path)
    ensures other[path[0]].status.Rejected?
    decreases |path|
  {
    if |path| > 2 {
      PathForcesRejection(tasks, other, path[1..]);
    }
    assert Dead(other[path[1]]);
  }
}
