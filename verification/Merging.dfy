/** The working copy a batch of results is folded into, updated in place as the program does (`_Merge`). */
module Merging {
  import opened Text
  import opened Models
  import opened FailurePropagation
  import opened Workflow

  class Merge {
    var tasks: seq<Task>
    var artifacts: map<string, Artifact>
    var drafts: map<string, TaskDraft>
    var toolResults: seq<ToolResult>
    var answers: seq<string>
    var messages: seq<AssistantMessage>

    ghost function View(): MergeState
      reads this
    {
      MergeState(tasks, artifacts, drafts, toolResults, answers, messages)
    }

    constructor (c: Conversation)
      ensures View() == StartMerge(c)
    {
      tasks, artifacts, drafts := c.current.tasks, c.current.artifacts, c.current.drafts;
      toolResults, answers, messages := c.toolResults, c.answers, c.messages;
    }

    method PutStatus(id: string, status: TaskStatus)
      modifies this`tasks
      ensures tasks == SetStatus(old(tasks), id, status)
    {
      tasks := SetStatus(tasks, id, status);
    }

    method PropagateFailure()
      modifies this`tasks
      ensures tasks == RejectBlocked(old(tasks))
    {
      tasks := RejectBlockedTasks(tasks);
    }

    method Speak(text: string, taskId: Option<string>)
      modifies this
      ensures View() == Say(old(View()), text, taskId)
    {
      if Strip(text) == "" {
        return;
      }
      var about := if taskId.Some? && taskId.value in Ids(tasks) then taskId else None;
      answers := answers + [text];
      messages := messages + [AssistantMessage(text, about)];
    }

    method SpeakNotes(notes: seq<AgentNote>, taskId: string)
      modifies this
      ensures View() == SayNotes(old(View()), notes, taskId)
    {
      for i := 0 to |notes|
        invariant SayNotes(View(), notes[i..], taskId) == SayNotes(old(View()), notes, taskId)
      {
        assert notes[i..][1..] == notes[i + 1..];
        Speak(notes[i].text, Some(taskId));
      }
    }

    method Apply(r: DomainTaskResult)
      modifies this
      ensures View() == ApplyResult(old(View()), r)
    {
      PutStatus(r.taskId, r.status);
      if r.status.Rejected? || r.status.Failed? {
        PropagateFailure();
      }
      if r.artifact.Some? {
        artifacts := artifacts[r.taskId := r.artifact.value];
      }
      if r.draft.Some? {
        drafts := drafts[r.taskId := r.draft.value];
      } else {
        drafts := drafts - {r.taskId};
      }
      Speak(r.answer, Some(r.taskId));
    }

    method SendElsewhere(r: DomainTaskResult)
      requires r.taskId in Ids(tasks)
      modifies this
      ensures View() == Reroute(old(View()), r)
    {
      var task := TaskWithId(tasks, r.taskId);
      drafts := drafts - {task.id};
      if HandoffRefused(task, r.handoffTo) {
        PutStatus(task.id, Failed);
        PropagateFailure();
        Speak(HANDOFF_EXHAUSTED_REPLY, None);
        return;
      }
      tasks := ReplaceTask(tasks, task.id, RerouteTask(task, r.handoffTo.value));
    }

    method Absorb(r: DomainTaskResult)
      requires r.taskId in Ids(tasks)
      modifies this
      ensures View() == MergeOne(old(View()), r)
    {
      toolResults := toolResults + r.toolResults;
      SpeakNotes(r.notes, r.taskId);
      if r.status.HandedOff? {
        SendElsewhere(r);
      } else {
        Apply(r);
      }
    }
  }

  /** `apply_domain_result`; a batch without results is an error. */
  method ApplyDomainResult(c: Conversation, results: seq<DomainTaskResult>) returns (next: Option<Conversation>)
    requires forall r <- results :: r.taskId in Ids(c.current.tasks)
    ensures next == if results == [] then None else Some(ApplyBatch(c, results))
  {
    if results == [] {
      return None;
    }
    var sorted := SortByPlan(c.current.tasks, results);
    SortedResultsKnown(c.current.tasks, results);
    var merged := new Merge(c);
    ghost var start := merged.View();
    for i := 0 to |sorted|
      invariant forall r <- sorted[i..] :: r.taskId in Ids(merged.tasks)
      invariant MergeAll(merged.View(), sorted[i..]) == MergeAll(start, sorted)
    {
      MergeOneKeepsIds(merged.View(), sorted[i]);
      assert sorted[i..][1..] == sorted[i + 1..];
      assert forall r <- sorted[i + 1..] :: r in sorted[i..];
      merged.Absorb(sorted[i]);
    }
    next := Some(c.(
      current := c.current.(tasks := merged.tasks, artifacts := merged.artifacts, drafts := merged.drafts),
      toolResults := merged.toolResults, answers := merged.answers, messages := merged.messages,
      phase := if HasStatus(merged.tasks, WaitingInput) then Idle else Selecting));
  }
}
