/**
 * One domain task (graph/domain.py): the agent decides, the user confirms writes, tools run, and the task ends with a
 * result. The model's responses, the user's decisions and the tools' outcomes come from outside as events.
 */
module DomainTask {
  import opened Text
  import opened Models

  const MAX_ITERATIONS := 8
  const HANDOFF_TOOL := "handoff_task"
  const MESSAGE_ARG := "message_to_user"
  const TARGET_ARG := "target_domain"

  datatype Risk = Read | Write
  datatype Tool = Tool(risk: Risk, terminal: bool)

  function DomainName(a: AgentName): string {
    match a
    case Supervisor => "supervisor"
    case Travel => "travel"
    case Expense => "expense"
    case Hr => "hr"
    case Meeting => "meeting"
    case Policy => "policy"
  }

  /** The tools of one domain. `accepts` is the input contract of each tool. */
  datatype Runtime = Runtime(tools: map<string, Tool>, accepts: (string, Args) -> bool) {
    /** How the registry builds every domain's tools. */
    ghost predicate Valid() {
      && (forall name <- tools :: tools[name].terminal ==> tools[name].risk.Read?)
      && (HANDOFF_TOOL in tools ==> tools[HANDOFF_TOOL] == Tool(Read, false))
      && (forall args: Args :: accepts(HANDOFF_TOOL, args) ==> exists a :: a != Supervisor && NamesTarget(args, a))
    }
  }

  predicate NamesTarget(args: Args, a: AgentName) {
    TARGET_ARG in args && args[TARGET_ARG] == Words(DomainName(a))
  }

  datatype ToolCall = ToolCall(id: string, name: string, arguments: Option<Args>)

  datatype Response = Response(content: string, calls: seq<ToolCall>)

  datatype CallError = OneAtATime | NotAnObject | NotWhitelisted | BadArguments | OwnDomain | AlreadyWrote

  /** What a tool message tells the model. */
  datatype ToolReply = InvalidCall(error: CallError) | Declined(comment: string) | Ran(outcome: Outcome)

  datatype Message =
    | Human
    | Assistant(content: string, calls: seq<ToolCall>)
    | ToolMessage(callId: string, name: string, reply: ToolReply)
    | UseATool

  datatype PendingCall = PendingCall(name: string, args: Args, id: string)

  datatype Card = Card(id: string, taskId: string, action: string, callId: string, payload: Args, notes: seq<AgentNote>)

  datatype Node = Deciding | Confirming | Executing | Finishing | Responding | Done(result: DomainTaskResult) | Aborted

  datatype DomainState = DomainState(
    node: Node,
    messages: seq<Message>,
    iterations: nat,
    waitingInput: bool,
    rejected: bool,
    failed: bool,
    toolExecuted: bool,
    answer: string,
    notes: seq<AgentNote>,
    handoffTo: Option<AgentName>,
    card: Option<Card>,
    call: Option<PendingCall>,
    approved: bool,
    artifact: Option<Artifact>,
    draft: Option<TaskDraft>,
    toolResults: seq<ToolResult>)

  /**
   * The responder is asked a second time if its first answer cannot be used; `closed` tells whether the relay had
   * closed the first answer by then.
   */
  datatype Event =
    | ModelSaid(response: Response, cardId: string)
    | UserDecided(cardId: string, approve: bool, comment: string)
    | ToolReturned(outcome: Option<Outcome>)  // none: the tool raised
    | Closed
    | ResponderSaid(first: Response, second: Response, closed: bool)

  function Initialize(): DomainState {
    DomainState(Deciding, [Human], 0, false, false, false, false, "", [], None, None, None, false, None, None, [])
  }

  // ---- decide ---------------------------------------------------------------------------------

  /** `split_message`: what a write tool's arguments say to the user, and the arguments proper. */
  function SplitMessage(tool: Tool, args: Args): (string, Args) {
    if tool.risk.Read? then ("", args)
    else (if MESSAGE_ARG in args && args[MESSAGE_ARG].Words? then Strip(args[MESSAGE_ARG].text) else "",
          args - {MESSAGE_ARG})
  }

  predicate HasWritten(rt: Runtime, s: DomainState) {
    exists r <- s.toolResults :: r.success && r.tool in rt.tools && rt.tools[r.tool].risk.Write?
  }

  /** `_handoff_error` */
  function HandoffError(rt: Runtime, task: Task, s: DomainState, args: Args): Option<CallError> {
    if NamesTarget(args, task.domain) then Some(OwnDomain)
    else if HasWritten(rt, s) then Some(AlreadyWrote)
    else None
  }

  datatype Judgement = Refused(error: CallError) | Fine(call: PendingCall, said: string)

  /** Arguments are checked when the model decides, before any card is shown. */
  function Judge(rt: Runtime, task: Task, s: DomainState, call: ToolCall): Judgement {
    if call.arguments.None? then Refused(NotAnObject)
    else if call.name !in rt.tools then Refused(NotWhitelisted)
    else
      var (said, args) := SplitMessage(rt.tools[call.name], call.arguments.value);
      if !rt.accepts(call.name, args) then Refused(BadArguments)
      else
        var error := if call.name == HANDOFF_TOOL then HandoffError(rt, task, s, args) else None;
        if error.Some? then Refused(error.value) else Fine(PendingCall(call.name, args, call.id), said)
  }

  function RefuseAll(calls: seq<ToolCall>, error: CallError): (r: seq<Message>)
    ensures |r| == |calls|
    ensures forall i :: 0 <= i < |calls| ==> r[i] == ToolMessage(calls[i].id, calls[i].name, InvalidCall(error))
  {
    seq(|calls|, i requires 0 <= i < |calls| => ToolMessage(calls[i].id, calls[i].name, InvalidCall(error)))
  }

  function Verdict(rt: Runtime, task: Task, s: DomainState, response: Response): Option<Judgement> {
    if |response.calls| == 1 then Some(Judge(rt, task, s, response.calls[0])) else None
  }

  function Refusals(verdict: Option<Judgement>, response: Response): seq<Message> {
    if |response.calls| > 1 then RefuseAll(response.calls, OneAtATime)
    else if verdict.Some? && verdict.value.Refused? then RefuseAll(response.calls, verdict.value.error)
    else []
  }

  /**
   * What this response said to the user besides a final answer: the text that came with a call, which was streamed, or
   * else the message inside an accepted write call, which is then pushed. Nothing counts before a first tool result.
   */
  function Aside(s: DomainState, verdict: Option<Judgement>, response: Response): string {
    if !s.toolExecuted || response.calls == [] then ""
    else if Strip(response.content) != "" then Strip(response.content)
    else if verdict.Some? && verdict.value.Fine? then verdict.value.said
    else ""
  }

  function ToolsSoFar(s: DomainState): seq<string> {
    seq(|s.toolResults|, i requires 0 <= i < |s.toolResults| => s.toolResults[i].tool)
  }

  function Decide(rt: Runtime, task: Task, s: DomainState, response: Response, cardId: string): DomainState {
    if s.iterations + 1 > MAX_ITERATIONS then s.(node := Aborted)
    else
      var verdict := Verdict(rt, task, s, response);
      var refusals := Refusals(verdict, response);
      var call := if verdict.Some? && verdict.value.Fine? then Some(verdict.value.call) else None;
      var aside := Aside(s, verdict, response);
      var recorded := if aside != "" && Strip(response.content) == "" then aside else response.content;
      var notes := if aside != "" then s.notes + [AgentNote(aside, ToolsSoFar(s))] else s.notes;
      var retry := refusals != [] || (call.None? && !s.toolExecuted);
      var answer := if retry || call.Some? || response.calls != [] then "" else Strip(response.content);
      var write := call.Some? && call.value.name in rt.tools && rt.tools[call.value.name].risk.Write?;
      s.(messages := s.messages + [Assistant(recorded, response.calls)] + refusals + (if retry then [UseATool] else []),
         iterations := s.iterations + 1,
         notes := if write then [] else notes,
         call := call,
         card := if write then Some(Card(cardId, task.id, call.value.name, call.value.id, call.value.args, notes))
                 else None,
         answer := answer,
         node := if retry then Deciding
                 else if call.None? then (if answer != "" then Finishing else Responding)
                 else if write then Confirming
                 else Executing)
  }

  // ---- confirm, execute, finish, respond ------------------------------------------------------

  function Confirm(s: DomainState, cardId: string, approve: bool, comment: string): DomainState
    requires s.card.Some?
  {
    var card := s.card.value;
    if cardId != card.id then s.(node := Aborted)
    else if approve then s.(approved := true, node := Executing)
    else s.(messages := s.messages + [ToolMessage(card.callId, card.action, Declined(Strip(comment)))],
            card := None, call := None, approved := false, rejected := true, node := Finishing)
  }

  const FAILED_CALL := OutcomeData("", TaskDraft([], []), None, "")

  /** A tool that raises, or returns something that is no outcome, counts as failed. */
  function OutcomeOf(call: PendingCall, returned: Option<Outcome>): Outcome {
    if returned.Some? then returned.value else Outcome(call.name, false, "failed", FAILED_CALL, Some("tool failed"))
  }

  function Execute(rt: Runtime, task: Task, s: DomainState, returned: Option<Outcome>): DomainState
    requires s.call.Some? && s.call.value.name in rt.tools
  {
    var call := s.call.value;
    var outcome := OutcomeOf(call, returned);
    var held := if s.artifact.Some? then s.artifact.value else map[];
    var artifact := if outcome.success then held[call.name := outcome] else held;
    var terminal := rt.tools[call.name].terminal && outcome.success;
    var handoffTo := if call.name == HANDOFF_TOOL && outcome.success then outcome.data.targetDomain else None;
    var answer := if terminal then Strip(outcome.data.question) else "";
    s.(messages := s.messages + [ToolMessage(call.id, call.name, Ran(outcome))],
       toolResults := s.toolResults + [ToolResult(task.id, call.name, outcome.success, outcome)],
       artifact := if artifact != map[] then Some(artifact) else None,
       card := None, call := None, approved := false,
       waitingInput := terminal,
       draft := if terminal then Some(outcome.data.draft) else s.draft,
       failed := !outcome.success,
       toolExecuted := true,
       answer := answer,
       handoffTo := handoffTo,
       node := if !outcome.success then Responding
               else if handoffTo.Some? then Finishing
               else if terminal then (if answer != "" then Finishing else Responding)
               else Deciding)
  }

  /** `_result` */
  function ResultOf(task: Task, s: DomainState, answer: string): DomainTaskResult {
    var status := if s.waitingInput then WaitingInput else if s.rejected then Rejected else if s.failed then Failed
                  else Completed;
    DomainTaskResult(task.id, status, answer, s.artifact, s.toolResults,
                     if status.WaitingInput? then s.draft else None, None, s.notes)
  }

  function Finish(task: Task, s: DomainState): DomainState {
    if s.handoffTo.Some? then
      s.(node := Done(DomainTaskResult(task.id, HandedOff, "", None, s.toolResults, None, s.handoffTo, s.notes)))
    else if s.rejected then s.(node := Done(ResultOf(task, s, "")))
    else if s.answer == "" then s.(node := Aborted)
    else s.(node := Done(ResultOf(task, s, s.answer)))
  }

  /** An answer has text and calls no tool. */
  predicate Usable(r: Response) {
    r.calls == [] && Strip(r.content) != ""
  }

  /** The responder's own loop (`DomainAgentRuntime.respond`): two attempts, the first usable one counts. */
  function Chosen(first: Response, second: Response): (answer: Option<string>)
    ensures answer.Some? <==> Usable(first) || Usable(second)
  {
    if Usable(first) then Some(first.content) else if Usable(second) then Some(second.content) else None
  }

  function Respond(task: Task, s: DomainState, first: Response, second: Response): DomainState {
    var answer := Chosen(first, second);
    if answer.None? then s.(node := Aborted)
    else s.(messages := s.messages + [Assistant(answer.value, [])],
            node := Done(ResultOf(task, s, Strip(answer.value))))
  }

  /** What the tools themselves guarantee: a handoff that succeeds names the domain it was called with. */
  ghost predicate Returns(call: PendingCall, returned: Option<Outcome>) {
    call.name == HANDOFF_TOOL && returned.Some? && returned.value.success ==>
      returned.value.data.targetDomain.Some? && NamesTarget(call.args, returned.value.data.targetDomain.value)
  }

  ghost predicate Enabled(rt: Runtime, s: DomainState, e: Event) {
    match e
    case ModelSaid(_, _) => s.node.Deciding?
    case UserDecided(_, _, _) => s.node.Confirming? && s.card.Some?
    case ToolReturned(outcome) =>
      s.node.Executing? && s.call.Some? && s.call.value.name in rt.tools && Returns(s.call.value, outcome)
    case Closed => s.node.Finishing?
    case ResponderSaid(_, _, _) => s.node.Responding?
  }

  function Step(rt: Runtime, task: Task, s: DomainState, e: Event): DomainState
    requires Enabled(rt, s, e)
  {
    match e
    case ModelSaid(response, cardId) => Decide(rt, task, s, response, cardId)
    case UserDecided(cardId, approve, comment) => Confirm(s, cardId, approve, comment)
    case ToolReturned(outcome) => Execute(rt, task, s, outcome)
    case Closed => Finish(task, s)
    case ResponderSaid(first, second, _) => Respond(task, s, first, second)
  }

  // ---- decide, as the program fills its lists -------------------------------------------------

  method RefuseEach(calls: seq<ToolCall>) returns (validation: seq<Message>)
    ensures validation == RefuseAll(calls, OneAtATime)
  {
    validation := [];
    for i := 0 to |calls|
      invariant validation == RefuseAll(calls[..i], OneAtATime)
    {
      validation := validation + [ToolMessage(calls[i].id, calls[i].name, InvalidCall(OneAtATime))];
    }
    assert calls[..|calls|] == calls;
  }

  /** The node's own code: tool messages and notes are collected step by step. */
  method DecideNode(rt: Runtime, task: Task, s: DomainState, response: Response,
                    cardId: string) returns (next: DomainState)
    ensures next == Decide(rt, task, s, response, cardId)
  {
    var iterations := s.iterations + 1;
    if iterations > MAX_ITERATIONS {
      return s.(node := Aborted);
    }
    var validation: seq<Message> := [];
    var pending: Option<PendingCall> := None;
    var said := "";
    if |response.calls| > 1 {
      validation := RefuseEach(response.calls);
    } else if |response.calls| == 1 {
      var raw := response.calls[0];
      var judgement := Judge(rt, task, s, raw);
      match judgement
      case Refused(error) => validation := [ToolMessage(raw.id, raw.name, InvalidCall(error))];
      case Fine(call, message) => pending, said := Some(call), message;
    }
    var notes, recorded := s.notes, response.content;
    if s.toolExecuted && response.calls != [] {
      var text := Strip(response.content);
      if text == "" && pending.Some? && said != "" {
        text, recorded := said, said;
      }
      if text != "" {
        notes := notes + [AgentNote(text, ToolsSoFar(s))];
      }
    }
    assert validation == Refusals(Verdict(rt, task, s, response), response);
    var retry := validation != [] || (pending.None? && !s.toolExecuted);
    var messages := s.messages + [Assistant(recorded, response.calls)] + validation;
    if retry {
      messages := messages + [UseATool];
    }
    var card: Option<Card> := None;
    var write := pending.Some? && rt.tools[pending.value.name].risk.Write?;
    if write {
      card := Some(Card(cardId, task.id, pending.value.name, pending.value.id, pending.value.args, notes));
      notes := [];
    }
    var answer := if retry || pending.Some? || response.calls != [] then "" else Strip(response.content);
    next := s.(messages := messages, iterations := iterations, notes := notes,
               call := pending, card := card, answer := answer,
               node := if retry then Deciding
                       else if pending.None? then (if answer != "" then Finishing else Responding)
                       else if write then Confirming
                       else Executing);
  }
}
