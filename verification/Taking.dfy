/** What a batch of results makes of the plan: every task, draft, artifact and tool result, whatever the batch. */
module Taking {
  import opened Models
  import opened FailurePropagation
  import opened Workflow
  import opened PlanInvariants
  import opened Turns
  import opened MergeOrder
  import opened Conversations

  // ---- One task -------------------------------------------------------------------------------

  /** A task may go on to a domain that is not its own and has not had it, at most twice in all. */
  predicate MayGoTo(t: Task, target: Option<AgentName>) {
    && target.Some? && target.value != t.domain && |t.handedOffFrom| < 2
    && forall i :: 0 <= i < |t.handedOffFrom| ==> t.handedOffFrom[i] != target.value
  }

  /** The task after its own result: as the result says, handed on to the domain it names, or failed for want of one. */
  predicate SettledAs(before: Task, r: DomainTaskResult, after: Task) {
    if !r.status.HandedOff? then after == before.(status := r.status)
    else if MayGoTo(before, r.handoffTo) then
      after == before.(status := Pending, domain := r.handoffTo.value,
                       handedOffFrom := before.handedOffFrom + [before.domain])
    else after == before.(status := Failed)
  }

  /** Something this task depends on was rejected or failed. */
  predicate LostSupport(tasks: seq<Task>, i: nat)
    requires i < |tasks|
  {
    exists j :: 0 <= j < |tasks| && Dead(tasks[j]) && tasks[j].id in tasks[i].dependsOn
  }

  /** A task without a result of its own: rejected exactly if it was queued and has lost what it depends on. */
  predicate FollowsOthers(before: seq<Task>, after: seq<Task>, i: nat)
    requires i < |before| == |after|
  {
    after[i] == if before[i].status.Pending? && LostSupport(after, i) then before[i].(status := Rejected) else before[i]
  }

  // ---- Statuses -------------------------------------------------------------------------------

  /** Half of it, while results are still to come: whatever is rejected has lost its support. */
  predicate RejectedWithReason(before: seq<Task>, after: seq<Task>, i: nat)
    requires i < |before| == |after|
  {
    after[i] == before[i]
    || (before[i].status.Pending? && after[i] == before[i].(status := Rejected) && LostSupport(after, i))
  }

  lemma RejectionHasReason(tasks: seq<Task>, i: nat)
    requires i < |tasks|
    ensures RejectedWithReason(tasks, RejectBlocked(tasks), i)
  {
    var after := RejectBlocked(tasks);
    RejectsExactlyTheBlocked(tasks, i);
    if Blocked(tasks, i) {
      var path :| BlockedPath(tasks, path) && path[0] == i;
      var j := path[1];
      RejectsExactlyTheBlocked(tasks, j);
      if |path| > 2 {
        assert BlockedPath(tasks, path[1..]) && path[1..][0] == j;
      }
      assert Dead(after[j]) && after[j].id in after[i].dependsOn;
    }
  }

  lemma SettledHasReasons(tasks: seq<Task>, k: nat, status: TaskStatus)
    requires UniqueIds(tasks) && k < |tasks| && !status.Pending?
    ensures var after := Settled(tasks, tasks[k].id, status);
            && |after| == |tasks| && after[k] == tasks[k].(status := status)
            && forall i :: 0 <= i < |after| && i != k ==> RejectedWithReason(tasks, after, i)
  {
    var set1 := SetStatus(tasks, tasks[k].id, status);
    OnlyOneChanges(tasks, k);
    forall i | 0 <= i < |tasks| && i != k
      ensures RejectedWithReason(tasks, Settled(tasks, tasks[k].id, status), i)
    {
      RejectionHasReason(set1, i);
      assert set1[i] == tasks[i];
    }
    RejectionHasReason(set1, k);
  }

  lemma HandedOnAlone(tasks: seq<Task>, k: nat, target: AgentName)
    requires UniqueIds(tasks) && k < |tasks|
    ensures var after := ReplaceTask(tasks, tasks[k].id, RerouteTask(tasks[k], target));
            && |after| == |tasks| && after[k] == RerouteTask(tasks[k], target)
            && forall i :: 0 <= i < |after| && i != k ==> after[i] == tasks[i]
  {
    OnlyOneChanges(tasks, k);
  }

  /** The tasks after one result is taken in; its notes and tool results do not touch them. */
  function TasksAfter(tasks: seq<Task>, r: DomainTaskResult): seq<Task>
    requires r.taskId in Ids(tasks)
  {
    var t := TaskWithId(tasks, r.taskId);
    if !r.status.HandedOff? then Settled(tasks, r.taskId, r.status)
    else if HandoffRefused(t, r.handoffTo) then Settled(tasks, r.taskId, Failed)
    else ReplaceTask(tasks, r.taskId, RerouteTask(t, r.handoffTo.value))
  }

  lemma MergedTasks(m: MergeState, r: DomainTaskResult)
    requires r.taskId in Ids(m.tasks)
    ensures MergeOne(m, r).tasks == TasksAfter(m.tasks, r)
  {}

  lemma OneTaskSettles(tasks: seq<Task>, r: DomainTaskResult)
    requires UniqueIds(tasks) && r.taskId in Ids(tasks) && r.WellShaped()
    ensures var k, after := IndexOf(tasks, r.taskId), TasksAfter(tasks, r);
            && |after| == |tasks| && SettledAs(tasks[k], r, after[k])
            && forall i :: 0 <= i < |after| && i != k ==> RejectedWithReason(tasks, after, i)
  {
    var k := IndexOf(tasks, r.taskId);
    TaskAtIndex(tasks, r.taskId);
    if !r.status.HandedOff? {
      SettledHasReasons(tasks, k, r.status);
    } else if HandoffRefused(tasks[k], r.handoffTo) {
      SettledHasReasons(tasks, k, Failed);
      assert !MayGoTo(tasks[k], r.handoffTo);
    } else {
      HandedOnAlone(tasks, k, r.handoffTo.value);
    }
  }

  // ---- A whole batch --------------------------------------------------------------------------

  /** Result `j` is the one for task `k`. */
  predicate ResultOf(tasks: seq<Task>, results: seq<DomainTaskResult>, k: nat, j: nat) {
    k < |tasks| && j < |results| && results[j].taskId == tasks[k].id
  }

  ghost predicate AllSettled(before: seq<Task>, results: seq<DomainTaskResult>, after: seq<Task>) {
    && |after| == |before|
    && (forall k: nat, j: nat :: ResultOf(before, results, k, j) ==> SettledAs(before[k], results[j], after[k]))
    && forall k :: 0 <= k < |before| && before[k].id !in ResultIds(results) ==> RejectedWithReason(before, after, k)
  }

  /** Whatever a task that was started depends on has completed and stays so: it loses no support. */
  lemma StartedKeepsSupport(before: seq<Task>, mid: seq<Task>, after: seq<Task>, rest: seq<DomainTaskResult>, k: nat)
    requires UniqueIds(before) && k < |before| == |mid| && DepsDone(before, before[k]) && AllSettled(mid, rest, after)
    requires RunningAre(mid, ResultIds(rest)) && mid[k].dependsOn == before[k].dependsOn
    requires forall i :: 0 <= i < |mid| && before[i].status.Completed? ==> mid[i] == before[i]
    requires forall i :: 0 <= i < |mid| ==> mid[i].id == before[i].id
    requires before[k].id !in ResultIds(rest)
    ensures after[k] == mid[k]
  {
    assert RejectedWithReason(mid, after, k);
    forall j | 0 <= j < |after| && after[j].id in after[k].dependsOn
      ensures !Dead(after[j])
    {
      SameIdsAfter(mid, rest, after, j);
      DoneIsNotDead(before, before[k], j);
      assert RejectedWithReason(mid, after, j);
    }
  }

  lemma SameIdsAfter(mid: seq<Task>, rest: seq<DomainTaskResult>, after: seq<Task>, j: nat)
    requires AllSettled(mid, rest, after) && j < |mid|
    ensures after[j].id == mid[j].id && after[j].dependsOn == mid[j].dependsOn
  {
    if mid[j].id in ResultIds(rest) {
      var r :| r in rest && r.taskId == mid[j].id;
      var i :| 0 <= i < |rest| && rest[i] == r;
      assert ResultOf(mid, rest, j, i);
    } else {
      assert RejectedWithReason(mid, after, j);
    }
  }

  lemma ReasonsStay(before: seq<Task>, mid: seq<Task>, after: seq<Task>, rest: seq<DomainTaskResult>, i: nat)
    requires i < |before| == |mid| && AllSettled(mid, rest, after) && RunningAre(mid, ResultIds(rest))
    requires RejectedWithReason(before, mid, i) && mid[i].id !in ResultIds(rest)
    ensures RejectedWithReason(before, after, i)
  {
    assert RejectedWithReason(mid, after, i);
    if mid[i] != before[i] {
      var j :| 0 <= j < |mid| && Dead(mid[j]) && mid[j].id in mid[i].dependsOn;
      assert RejectedWithReason(mid, after, j);
      assert Dead(after[j]) && after[j].id in after[i].dependsOn;
    }
  }

  /** Settling one task, and then the rest of the results, settles all. */
  lemma SettlesStepByStep(before: seq<Task>, mid: seq<Task>, after: seq<Task>, results: seq<DomainTaskResult>)
    requires results != [] && DistinctResults(results) && UniqueIds(before) && results[0].taskId in Ids(before)
    requires RunningAre(before, ResultIds(results)) && RunningAre(mid, ResultIds(results[1..]))
    requires AllSettled(mid, results[1..], after) && |mid| == |before|
    requires var k := IndexOf(before, results[0].taskId);
             && DepsDone(before, before[k]) && SettledAs(before[k], results[0], mid[k])
             && forall i :: 0 <= i < |mid| && i != k ==> RejectedWithReason(before, mid, i)
    ensures AllSettled(before, results, after)
  {
    var k, rest := IndexOf(before, results[0].taskId), results[1..];
    RestOfResults(results);
    OnlyOneChanges(before, k);
    assert results[0] in results;
    forall i | 0 <= i < |mid|
      ensures mid[i].id == before[i].id && (!before[i].status.Pending? && i != k ==> mid[i] == before[i])
    {
      assert i != k ==> RejectedWithReason(before, mid, i);
    }
    StartedKeepsSupport(before, mid, after, rest, k);
    forall i: nat, j: nat | ResultOf(before, results, i, j)
      ensures SettledAs(before[i], results[j], after[i])
    {
      assert results[j] in results && results[j].taskId in ResultIds(results);
      if j > 0 {
        assert rest[j - 1] == results[j] && results[j].taskId != results[0].taskId;
        assert ResultOf(mid, rest, i, j - 1);
      }
    }
    forall i | 0 <= i < |before| && before[i].id !in ResultIds(results)
      ensures RejectedWithReason(before, after, i)
    {
      ReasonsStay(before, mid, after, rest, i);
    }
  }

  lemma {:induction false} MergingSettlesAll(base: Plan, m: MergeState, results: seq<DomainTaskResult>)
    requires PlanInv(PlanView(base, m)) && NoQueuedDraft(PlanView(base, m))
    requires DistinctResults(results) && forall r <- results :: r.WellShaped() && r.taskId in Ids(m.tasks)
    requires RunningAre(m.tasks, ResultIds(results))
    ensures AllSettled(m.tasks, results, MergeAll(m, results).tasks)
    decreases |results|
  {
    if results != [] {
      var r := results[0];
      var k := IndexOf(m.tasks, r.taskId);
      assert r in results && r.taskId in ResultIds(results);
      MergeOneTakesIn(base, m, r);
      MergeOneKeepsIds(m, r);
      RestOfResults(results);
      SettlingLeavesRest(m.tasks, MergeOne(m, r).tasks, k, ResultIds(results));
      MergingSettlesAll(base, MergeOne(m, r), results[1..]);
      StartedHaveDeps(PlanView(base, m));
      MergedTasks(m, r);
      OneTaskSettles(m.tasks, r);
      SettlesStepByStep(m.tasks, MergeOne(m, r).tasks, MergeAll(m, results).tasks, results);
    }
  }

  // ---- Drafts, artifacts, tool results --------------------------------------------------------

  /** What is kept under the id of each result, and everything else as it was. */
  ghost predicate DraftsTaken(before: map<string, TaskDraft>, results: seq<DomainTaskResult>,
                              after: map<string, TaskDraft>)
  {
    && (forall j :: 0 <= j < |results| ==>
          if results[j].draft.Some? then
            results[j].taskId in after && after[results[j].taskId] == results[j].draft.value
          else results[j].taskId !in after)
    && forall x :: x !in ResultIds(results) ==>
         (x in after <==> x in before) && (x in before ==> after[x] == before[x])
  }

  ghost predicate ArtifactsTaken(before: map<string, Artifact>, results: seq<DomainTaskResult>,
                                 after: map<string, Artifact>)
  {
    && (forall j :: 0 <= j < |results| && results[j].artifact.Some? ==>
          results[j].taskId in after && after[results[j].taskId] == results[j].artifact.value)
    && forall x :: (forall j :: 0 <= j < |results| && results[j].taskId == x ==> results[j].artifact.None?) ==>
         (x in after <==> x in before) && (x in before ==> after[x] == before[x])
  }

  function ToolResultsOf(results: seq<DomainTaskResult>): seq<ToolResult> {
    if results == [] then [] else results[0].toolResults + ToolResultsOf(results[1..])
  }

  lemma OneIsKept(m: MergeState, r: DomainTaskResult)
    requires r.taskId in Ids(m.tasks) && r.WellShaped()
    ensures var after := MergeOne(m, r);
            && after.toolResults == m.toolResults + r.toolResults
            && after.drafts == (if r.draft.Some? then m.drafts[r.taskId := r.draft.value] else m.drafts - {r.taskId})
            && after.artifacts == if r.artifact.Some? then m.artifacts[r.taskId := r.artifact.value] else m.artifacts
  {
    var m1 := SayNotes(m.(toolResults := m.toolResults + r.toolResults), r.notes, r.taskId);
    if r.status.HandedOff? {
      ReroutingKeeps(m1, r);
    } else {
      SettlingKeeps(m1, r);
    }
  }

  lemma SettlingKeeps(m: MergeState, r: DomainTaskResult)
    ensures var after := ApplyResult(m, r);
            && after.toolResults == m.toolResults
            && after.drafts == (if r.draft.Some? then m.drafts[r.taskId := r.draft.value] else m.drafts - {r.taskId})
            && after.artifacts == if r.artifact.Some? then m.artifacts[r.taskId := r.artifact.value] else m.artifacts
  {}

  lemma ReroutingKeeps(m: MergeState, r: DomainTaskResult)
    requires r.taskId in Ids(m.tasks)
    ensures var after := Reroute(m, r);
            && after.toolResults == m.toolResults && after.artifacts == m.artifacts
            && after.drafts == m.drafts - {r.taskId}
  {}

  lemma {:induction false} MergingTakesDrafts(m: MergeState, results: seq<DomainTaskResult>)
    requires DistinctResults(results) && forall r <- results :: r.WellShaped() && r.taskId in Ids(m.tasks)
    ensures DraftsTaken(m.drafts, results, MergeAll(m, results).drafts)
    decreases |results|
  {
    if results != [] {
      assert results[0] in results;
      OneIsKept(m, results[0]);
      MergeOneKeepsIds(m, results[0]);
      RestOfResults(results);
      MergingTakesDrafts(MergeOne(m, results[0]), results[1..]);
      LaterDrafts(m.drafts, MergeOne(m, results[0]).drafts, MergeAll(m, results).drafts, results);
    }
  }

  lemma {:induction false} MergingTakesArtifacts(m: MergeState, results: seq<DomainTaskResult>)
    requires DistinctResults(results) && forall r <- results :: r.WellShaped() && r.taskId in Ids(m.tasks)
    ensures ArtifactsTaken(m.artifacts, results, MergeAll(m, results).artifacts)
    decreases |results|
  {
    if results != [] {
      assert results[0] in results;
      OneIsKept(m, results[0]);
      MergeOneKeepsIds(m, results[0]);
      RestOfResults(results);
      MergingTakesArtifacts(MergeOne(m, results[0]), results[1..]);
      LaterArtifacts(m.artifacts, MergeOne(m, results[0]).artifacts, MergeAll(m, results).artifacts, results);
    }
  }

  lemma Regrouped(a: seq<ToolResult>, b: seq<ToolResult>, c: seq<ToolResult>)
    ensures (a + b) + c == a + (b + c)
  {}

  lemma {:induction false} MergingTakesToolResults(m: MergeState, results: seq<DomainTaskResult>)
    requires forall r <- results :: r.WellShaped() && r.taskId in Ids(m.tasks)
    ensures MergeAll(m, results).toolResults == m.toolResults + ToolResultsOf(results)
    decreases |results|
  {
    if results != [] {
      assert results[0] in results;
      OneIsKept(m, results[0]);
      MergeOneKeepsIds(m, results[0]);
      var mid, rest := MergeOne(m, results[0]), ToolResultsOf(results[1..]);
      MergingTakesToolResults(mid, results[1..]);
      Regrouped(m.toolResults, results[0].toolResults, rest);
    }
  }

  lemma LaterDrafts(before: map<string, TaskDraft>, mid: map<string, TaskDraft>, after: map<string, TaskDraft>,
                    results: seq<DomainTaskResult>)
    requires results != [] && DistinctResults(results) && DraftsTaken(mid, results[1..], after)
    requires var r := results[0];
             mid == if r.draft.Some? then before[r.taskId := r.draft.value] else before - {r.taskId}
    ensures DraftsTaken(before, results, after)
  {
    RestOfResults(results);
    assert results[0] in results;
    forall j | 0 <= j < |results|
      ensures if results[j].draft.Some? then
                results[j].taskId in after && after[results[j].taskId] == results[j].draft.value
              else results[j].taskId !in after
    {
      assert j > 0 ==> results[1..][j - 1] == results[j];
    }
  }

  lemma LaterArtifacts(before: map<string, Artifact>, mid: map<string, Artifact>, after: map<string, Artifact>,
                       results: seq<DomainTaskResult>)
    requires results != [] && DistinctResults(results) && ArtifactsTaken(mid, results[1..], after)
    requires var r := results[0]; mid == if r.artifact.Some? then before[r.taskId := r.artifact.value] else before
    ensures ArtifactsTaken(before, results, after)
  {
    var rest := results[1..];
    assert forall j :: 0 <= j < |rest| ==> rest[j] == results[j + 1];
    forall j | 0 <= j < |results| && results[j].artifact.Some?
      ensures results[j].taskId in after && after[results[j].taskId] == results[j].artifact.value
    {
      if j > 0 {
        assert rest[j - 1] == results[j];
      } else {
        assert forall i :: 0 <= i < |rest| ==> rest[i].taskId != results[0].taskId;
      }
    }
    forall x | forall j :: 0 <= j < |results| && results[j].taskId == x ==> results[j].artifact.None?
      ensures (x in after <==> x in before) && (x in before ==> after[x] == before[x])
    {
      assert forall j :: 0 <= j < |rest| && rest[j].taskId == x ==> rest[j].artifact.None?;
    }
  }

  // ---- The merge ------------------------------------------------------------------------------

  /** The whole new conversation: each task, draft, artifact and tool result accounted for. */
  ghost predicate TakenIn(c: Conversation, results: seq<DomainTaskResult>, next: Conversation) {
    var p, q := c.current, next.current;
    && next == c.(current := q, toolResults := next.toolResults, answers := next.answers, messages := next.messages,
                  phase := next.phase)
    && q == p.(tasks := q.tasks, artifacts := q.artifacts, drafts := q.drafts) && |q.tasks| == |p.tasks|
    && (forall k: nat, j: nat :: ResultOf(p.tasks, results, k, j) ==> SettledAs(p.tasks[k], results[j], q.tasks[k]))
    && (forall k :: 0 <= k < |p.tasks| && p.tasks[k].id !in ResultIds(results) ==> FollowsOthers(p.tasks, q.tasks, k))
    && DraftsTaken(p.drafts, results, q.drafts) && ArtifactsTaken(p.artifacts, results, q.artifacts)
    && next.phase == if exists k :: 0 <= k < |q.tasks| && q.tasks[k].status.WaitingInput? then Idle else Selecting
  }

  lemma FollowingFromReasons(before: seq<Task>, results: seq<DomainTaskResult>, after: seq<Task>, k: nat)
    requires AllSettled(before, results, after) && NoPendingBlocked(after)
    requires k < |before| && before[k].id !in ResultIds(results)
    ensures FollowsOthers(before, after, k)
  {
    assert RejectedWithReason(before, after, k);
    if before[k].status.Pending? && LostSupport(after, k) {
      var j :| 0 <= j < |after| && Dead(after[j]) && after[j].id in after[k].dependsOn;
      assert !after[k].status.Pending?;
    }
  }

  lemma SameResults(a: seq<DomainTaskResult>, b: seq<DomainTaskResult>)
    requires forall r :: r in a <==> r in b
    ensures ResultIds(a) == ResultIds(b)
  {}

  /** Whatever the results, and in whatever order they came in, the batch is taken in as they say. */
  lemma BatchIsTakenIn(c: Conversation, results: seq<DomainTaskResult>) returns (sorted: seq<DomainTaskResult>)
    requires ConversationInv(c) && Enabled(c, BatchDone(results))
    ensures TakenIn(c, results, ApplyBatch(c, results))
    ensures multiset(sorted) == multiset(results) && InPlanOrder(c.current.tasks, sorted)
    ensures ApplyBatch(c, results).toolResults == c.toolResults + ToolResultsOf(sorted)
  {
    sorted := SortByPlan(c.current.tasks, results);
    SortingKeeps(c.current.tasks, results);
    SortsStrictly(c.current.tasks, results);
    SameResults(sorted, results);
    var m := StartMerge(c);
    assert PlanView(c.current, m) == c.current;
    MergingSettlesAll(c.current, m, sorted);
    MergingTakesDrafts(m, sorted);
    MergingTakesArtifacts(m, sorted);
    MergingTakesToolResults(m, sorted);
    BatchKeeps(c, results);
    OrderDoesNotMatter(c, sorted, results, ApplyBatch(c, results));
  }

  /** In every conversation, every batch is taken in as its results say. */
  lemma BatchesAreTakenIn(parallel: bool, trace: seq<Conversation>, events: seq<Event>, n: nat)
    returns (sorted: seq<DomainTaskResult>)
    requires Run(parallel, trace, events) && StartsFresh(trace) && n < |events| && events[n].BatchDone?
    ensures TakenIn(trace[n], events[n].results, trace[n + 1])
    ensures multiset(sorted) == multiset(events[n].results) && InPlanOrder(trace[n].current.tasks, sorted)
    ensures trace[n + 1].toolResults == trace[n].toolResults + ToolResultsOf(sorted)
  {
    RunKeeps(parallel, trace, events, n);
    assert Follows(parallel, trace[n], events[n], trace[n + 1]);
    sorted := BatchIsTakenIn(trace[n], events[n].results);
  }

  lemma OrderDoesNotMatter(c: Conversation, sorted: seq<DomainTaskResult>, results: seq<DomainTaskResult>,
                           next: Conversation)
    requires forall r :: r in sorted <==> r in results
    requires AllSettled(c.current.tasks, sorted, next.current.tasks) && NoPendingBlocked(next.current.tasks)
    requires DraftsTaken(c.current.drafts, sorted, next.current.drafts)
    requires ArtifactsTaken(c.current.artifacts, sorted, next.current.artifacts)
    requires next == c.(current := next.current, toolResults := next.toolResults, answers := next.answers,
                        messages := next.messages, phase := next.phase)
    requires var q := next.current;
             && q == c.current.(tasks := q.tasks, artifacts := q.artifacts, drafts := q.drafts)
             && next.phase == if HasStatus(q.tasks, WaitingInput) then Idle else Selecting
    ensures TakenIn(c, results, next)
  {
    var p, q := c.current, next.current;
    SameResults(sorted, results);
    SameSettled(p.tasks, sorted, results, q.tasks);
    forall k | 0 <= k < |p.tasks| && p.tasks[k].id !in ResultIds(results)
      ensures FollowsOthers(p.tasks, q.tasks, k)
    {
      FollowingFromReasons(p.tasks, sorted, q.tasks, k);
    }
    SameDrafts(p.drafts, sorted, results, q.drafts);
    SameArtifacts(p.artifacts, sorted, results, q.artifacts);
    NoIsNotHas(q, WaitingInput);
  }

  lemma FindResult(a: seq<DomainTaskResult>, b: seq<DomainTaskResult>, j: nat) returns (i: nat)
    requires j < |a| && forall r :: r in a <==> r in b
    ensures i < |b| && b[i] == a[j]
  {
    assert a[j] in b;
    i :| 0 <= i < |b| && b[i] == a[j];
  }

  lemma SameSettled(before: seq<Task>, a: seq<DomainTaskResult>, b: seq<DomainTaskResult>, after: seq<Task>)
    requires AllSettled(before, a, after) && forall r :: r in a <==> r in b
    ensures forall k: nat, j: nat :: ResultOf(before, b, k, j) ==> SettledAs(before[k], b[j], after[k])
  {
    forall k: nat, j: nat | ResultOf(before, b, k, j)
      ensures SettledAs(before[k], b[j], after[k])
    {
      var i := FindResult(b, a, j);
      assert ResultOf(before, a, k, i);
    }
  }

  lemma SameDrafts(before: map<string, TaskDraft>, a: seq<DomainTaskResult>, b: seq<DomainTaskResult>,
                   after: map<string, TaskDraft>)
    requires DraftsTaken(before, a, after) && forall r :: r in a <==> r in b
    ensures DraftsTaken(before, b, after)
  {
    SameResults(a, b);
    forall j | 0 <= j < |b|
      ensures if b[j].draft.Some? then b[j].taskId in after && after[b[j].taskId] == b[j].draft.value
              else b[j].taskId !in after
    {
      var i := FindResult(b, a, j);
    }
  }

  lemma SameArtifacts(before: map<string, Artifact>, a: seq<DomainTaskResult>, b: seq<DomainTaskResult>,
                      after: map<string, Artifact>)
    requires ArtifactsTaken(before, a, after) && forall r :: r in a <==> r in b
    ensures ArtifactsTaken(before, b, after)
  {
    forall j | 0 <= j < |b| && b[j].artifact.Some?
      ensures b[j].taskId in after && after[b[j].taskId] == b[j].artifact.value
    {
      var i := FindResult(b, a, j);
    }
    forall x | forall j :: 0 <= j < |b| && b[j].taskId == x ==> b[j].artifact.None?
      ensures (x in after <==> x in before) && (x in before ==> after[x] == before[x])
    {
      forall i | 0 <= i < |a| && a[i].taskId == x
        ensures a[i].artifact.None?
      {
        var j := FindResult(a, b, i);
      }
    }
  }
}
