/** Entities shared by the turn machine and the domain subgraph. */
module Models {
  import opened Text

  datatype Option<+T> = None | Some(value: T)

  datatype TaskStatus =
    | Pending | Running | WaitingConfirmation | WaitingInput | Completed | Rejected | Failed | HandedOff

  datatype AgentName = Supervisor | Travel | Expense | Hr | Meeting | Policy

  datatype Task = Task(
    id: string,
    title: string,
    domain: AgentName,
    objective: string,
    dependsOn: seq<string>,
    status: TaskStatus,
    handedOffFrom: seq<AgentName>,
    supplements: seq<string>)

  datatype DraftField = DraftField(name: string, caption: string, value: string)

  /** What a task that waits for the user already knows and still misses. */
  datatype TaskDraft = TaskDraft(knownFields: seq<DraftField>, missingFields: seq<string>)

  /** A tool argument: text, or any other JSON value kept as its text. */
  datatype ArgValue = Words(text: string) | Json(text: string)
  type Args = map<string, ArgValue>

  /** The parts of an outcome's `data` that the domain subgraph looks into; the rest stays opaque. */
  datatype OutcomeData = OutcomeData(question: string, draft: TaskDraft, targetDomain: Option<AgentName>, rest: string)

  datatype Outcome = Outcome(tool: string, success: bool, status: string, data: OutcomeData, error: Option<string>)

  /** Outcomes of a task's successful tools, by tool name; dependents read it. */
  type Artifact = map<string, Outcome>

  datatype ToolResult = ToolResult(taskId: string, tool: string, success: bool, data: Outcome)

  /** Something the agent told the user while calling a tool. */
  datatype AgentNote = AgentNote(text: string, tools: seq<string>)

  datatype Plan = Plan(
    planId: string,
    userGoal: string,
    tasks: seq<Task>,
    artifacts: map<string, Artifact>,
    drafts: map<string, TaskDraft>)

  datatype DomainTaskResult = DomainTaskResult(
    taskId: string,
    status: TaskStatus,
    answer: string,
    artifact: Option<Artifact>,
    toolResults: seq<ToolResult>,
    draft: Option<TaskDraft>,
    handoffTo: Option<AgentName>,
    notes: seq<AgentNote>)
  {
    /** The shape every domain run gives its result; `DomainRuns.EveryResultIsWellShaped` proves it. */
    predicate WellShaped() {
      && status in {WaitingInput, Rejected, Failed, Completed, HandedOff}
      && (status.WaitingInput? <==> draft.Some?)
      && (status.HandedOff? <==> handoffTo.Some?)
      && (status.HandedOff? ==> artifact.None? && answer == "" && handoffTo.value != Supervisor)
      && (status.Completed? ==> artifact.Some? && artifact.value != map[])
      && (!status.HandedOff? && !status.Rejected? ==> Strip(answer) != "")
    }
  }

  predicate UniqueIds(tasks: seq<Task>) {
    forall i, j :: 0 <= i < j < |tasks| ==> tasks[i].id != tasks[j].id
  }

  function Ids(tasks: seq<Task>): set<string> {
    set t <- tasks :: t.id
  }

  /** Every dependency names another task of the same plan. */
  predicate ClosedDependencies(tasks: seq<Task>) {
    forall t <- tasks :: forall d <- t.dependsOn :: d != t.id && d in Ids(tasks)
  }

  /** `order` lists tasks without repetition so that each comes after everything it depends on. */
  ghost predicate TopologicalOrder(tasks: seq<Task>, order: seq<string>) {
    && (forall i, j :: 0 <= i < j < |order| ==> order[i] != order[j])
    && (forall t <- tasks :: t.id in order)
    && (forall t <- tasks, k | 0 <= k < |order| && order[k] == t.id :: forall d <- t.dependsOn :: d in order[..k])
  }

  ghost predicate Orderable(tasks: seq<Task>) {
    exists order :: TopologicalOrder(tasks, order)
  }

  lemma IdsUpTo(tasks: seq<Task>, more: seq<Task>)
    ensures Ids(tasks + more) == Ids(tasks) + Ids(more)
  {
    forall t | t in tasks + more
      ensures t in tasks || t in more
    {}
    assert forall t <- tasks :: t in tasks + more;
    assert forall t <- more :: t in tasks + more;
  }
}
