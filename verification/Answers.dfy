/** What a batch of results tells the user, and in which order. */
module Answers {
  import opened Text
  import opened Models
  import opened FailurePropagation
  import opened Workflow
  import opened Turns
  import opened MergeOrder

  /** Blank text is not filed. */
  function Filed(text: string, about: Option<string>): seq<AssistantMessage> {
    if Strip(text) == "" then [] else [AssistantMessage(text, about)]
  }

  function NotesFiled(notes: seq<AgentNote>, taskId: string): seq<AssistantMessage> {
    if notes == [] then [] else Filed(notes[0].text, Some(taskId)) + NotesFiled(notes[1..], taskId)
  }

  /** After the notes: the answer; a task handed off says nothing more, or that there is nowhere left to go. */
  function Closing(t: Task, r: DomainTaskResult): seq<AssistantMessage> {
    if !r.status.HandedOff? then Filed(r.answer, Some(r.taskId))
    else if HandoffRefused(t, r.handoffTo) then Filed(HANDOFF_EXHAUSTED_REPLY, None)
    else []
  }

  function Spoken(t: Task, r: DomainTaskResult): seq<AssistantMessage> {
    NotesFiled(r.notes, r.taskId) + Closing(t, r)
  }

  /** `tasks` is the plan as it was when the batch was dispatched. */
  function SpokenByAll(tasks: seq<Task>, results: seq<DomainTaskResult>): seq<AssistantMessage>
    requires forall i :: 0 <= i < |results| ==> results[i].taskId in Ids(tasks)
  {
    if results == [] then []
    else Spoken(TaskWithId(tasks, results[0].taskId), results[0]) + SpokenByAll(tasks, results[1..])
  }

  function TextsOf(messages: seq<AssistantMessage>): (r: seq<string>)
    ensures |r| == |messages|
  {
    seq(|messages|, i requires 0 <= i < |messages| => messages[i].text)
  }

  /** What has been said since: `more` was added to the messages, and its texts to the turn's answers. */
  predicate Adds(m: MergeState, m': MergeState, more: seq<AssistantMessage>) {
    m'.messages == m.messages + more && m'.answers == m.answers + TextsOf(more)
  }

  lemma AddsOn(m: MergeState, m1: MergeState, m2: MergeState, a: seq<AssistantMessage>, b: seq<AssistantMessage>)
    requires Adds(m, m1, a) && Adds(m1, m2, b)
    ensures Adds(m, m2, a + b)
  {
    assert TextsOf(a + b) == TextsOf(a) + TextsOf(b);
  }

  lemma SayFiles(m: MergeState, text: string, about: Option<string>)
    requires about.Some? ==> about.value in Ids(m.tasks)
    ensures Adds(m, Say(m, text, about), Filed(text, about))
  {}

  lemma {:induction false} NotesAreFiled(m: MergeState, notes: seq<AgentNote>, taskId: string)
    requires taskId in Ids(m.tasks)
    ensures Adds(m, SayNotes(m, notes, taskId), NotesFiled(notes, taskId))
    decreases |notes|
  {
    if notes != [] {
      var said := Say(m, notes[0].text, Some(taskId));
      SayFiles(m, notes[0].text, Some(taskId));
      NotesAreFiled(said, notes[1..], taskId);
      AddsOn(m, said, SayNotes(said, notes[1..], taskId), Filed(notes[0].text, Some(taskId)),
             NotesFiled(notes[1..], taskId));
    }
  }

  lemma AnswerIsFiled(m: MergeState, r: DomainTaskResult)
    requires r.taskId in Ids(m.tasks)
    ensures Adds(m, ApplyResult(m, r), Filed(r.answer, Some(r.taskId)))
  {
    SameIds(m.tasks, SetStatus(m.tasks, r.taskId, r.status));
    SameIds(m.tasks, RejectBlocked(SetStatus(m.tasks, r.taskId, r.status)));
  }

  lemma HandoffIsFiled(m: MergeState, r: DomainTaskResult)
    requires r.taskId in Ids(m.tasks) && r.status.HandedOff?
    ensures Adds(m, Reroute(m, r), Closing(TaskWithId(m.tasks, r.taskId), r))
  {}

  lemma OneResultSpeaks(m: MergeState, r: DomainTaskResult)
    requires r.taskId in Ids(m.tasks)
    ensures Adds(m, MergeOne(m, r), Spoken(TaskWithId(m.tasks, r.taskId), r))
  {
    var heard := m.(toolResults := m.toolResults + r.toolResults);
    var noted := SayNotes(heard, r.notes, r.taskId);
    NotesAreFiled(heard, r.notes, r.taskId);
    if r.status.HandedOff? {
      HandoffIsFiled(noted, r);
    } else {
      AnswerIsFiled(noted, r);
    }
    AddsOn(m, noted, MergeOne(m, r), NotesFiled(r.notes, r.taskId), Closing(TaskWithId(m.tasks, r.taskId), r));
  }

  // ---- What a result says does not depend on the others ---------------------------------------

  /** Where a task may be handed off to depends on these alone. */
  predicate SameRoute(t: Task, u: Task) {
    t.domain == u.domain && t.handedOffFrom == u.handedOffFrom
  }

  predicate SameRoutes(a: seq<Task>, b: seq<Task>, but: string) {
    |a| == |b| && forall i :: 0 <= i < |a| ==> a[i].id == b[i].id && (a[i].id != but ==> SameRoute(a[i], b[i]))
  }

  lemma {:induction false} SameRouteFound(a: seq<Task>, b: seq<Task>, but: string, id: string)
    requires SameRoutes(a, b, but) && id != but && id in Ids(a) && id in Ids(b)
    ensures SameRoute(TaskWithId(a, id), TaskWithId(b, id))
  {
    if a[0].id != id {
      assert a == [a[0]] + a[1..] && b == [b[0]] + b[1..];
      SameRouteFound(a[1..], b[1..], but, id);
    }
  }

  lemma SettingKeepsRoutes(tasks: seq<Task>, id: string, status: TaskStatus)
    ensures SameRoutes(tasks, SetStatus(tasks, id, status), id)
    ensures SameRoutes(tasks, RejectBlocked(SetStatus(tasks, id, status)), id)
  {}

  lemma MergingKeepsOtherRoutes(m: MergeState, r: DomainTaskResult)
    requires r.taskId in Ids(m.tasks)
    ensures SameRoutes(m.tasks, MergeOne(m, r).tasks, r.taskId)
  {
    SettingKeepsRoutes(m.tasks, r.taskId, if r.status.HandedOff? then Failed else r.status);
  }

  lemma {:induction false} SameSpeech(a: seq<Task>, b: seq<Task>, but: string, results: seq<DomainTaskResult>)
    requires SameRoutes(a, b, but) && Ids(a) == Ids(b)
    requires forall i :: 0 <= i < |results| ==> results[i].taskId in Ids(a) && results[i].taskId != but
    ensures SpokenByAll(a, results) == SpokenByAll(b, results)
  {
    if results != [] {
      SameRouteFound(a, b, but, results[0].taskId);
      SameSpeech(a, b, but, results[1..]);
    }
  }

  lemma {:induction false} AllResultsSpeak(m: MergeState, results: seq<DomainTaskResult>)
    requires DistinctResults(results) && forall r <- results :: r.taskId in Ids(m.tasks)
    ensures Adds(m, MergeAll(m, results), SpokenByAll(m.tasks, results))
    decreases |results|
  {
    if results != [] {
      var r, rest := results[0], results[1..];
      assert r in results;
      var merged := MergeOne(m, r);
      MergeOneKeepsIds(m, r);
      MergingKeepsOtherRoutes(m, r);
      OneResultSpeaks(m, r);
      assert forall i :: 0 <= i < |rest| ==> rest[i] == results[i + 1] && rest[i] in results;
      AllResultsSpeak(merged, rest);
      SameSpeech(m.tasks, merged.tasks, r.taskId, rest);
      AddsOn(m, merged, MergeAll(merged, rest), Spoken(TaskWithId(m.tasks, r.taskId), r),
             SpokenByAll(merged.tasks, rest));
    }
  }

  /**
   * A merged batch adds to the conversation, and to the turn's answers, exactly what each result says, result after
   * result in the order of the plan: notes first, then the answer, blanks left out. Whether a handoff is refused
   * depends on the plan as it was dispatched, not on the other results.
   */
  lemma BatchSpeaksInPlanOrder(c: Conversation, results: seq<DomainTaskResult>)
    returns (sorted: seq<DomainTaskResult>, said: seq<AssistantMessage>)
    requires DistinctResults(results) && forall r <- results :: r.taskId in Ids(c.current.tasks)
    ensures multiset(sorted) == multiset(results) && InPlanOrder(c.current.tasks, sorted)
    ensures (forall i :: 0 <= i < |sorted| ==> sorted[i].taskId in Ids(c.current.tasks))
            && said == SpokenByAll(c.current.tasks, sorted)
    ensures ApplyBatch(c, results).messages == c.messages + said
    ensures ApplyBatch(c, results).answers == c.answers + TextsOf(said)
  {
    sorted := SortByPlan(c.current.tasks, results);
    SortsStrictly(c.current.tasks, results);
    SortingKeeps(c.current.tasks, results);
    SortedResultsKnown(c.current.tasks, results);
    assert forall i :: 0 <= i < |sorted| ==> sorted[i] in sorted;
    AllResultsSpeak(StartMerge(c), sorted);
    said := SpokenByAll(c.current.tasks, sorted);
  }
}
