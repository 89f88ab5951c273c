/** How a domain task goes on and how it ends, told from the responses, decisions and outcomes themselves. */
module DomainEndings {
  import opened Text
  import opened Models
  import opened DomainTask
  import opened DomainRuns

  // ---- What a response leads to ---------------------------------------------------------------

  /** The arguments proper: what a write tool says to the user is taken out. */
  function ArgsProper(rt: Runtime, call: ToolCall): Args
    requires call.arguments.Some? && call.name in rt.tools
  {
    if rt.tools[call.name].risk.Write? then call.arguments.value - {MESSAGE_ARG} else call.arguments.value
  }

  /** Some write has succeeded in this task. */
  predicate WroteBefore(rt: Runtime, log: seq<Mark>) {
    exists k :: 0 <= k < |log| && log[k].Invoked? && log[k].outcome.success && IsWrite(rt, log[k].name)
  }

  /** The first thing that is wrong with a call. */
  predicate WrongWith(rt: Runtime, task: Task, log: seq<Mark>, call: ToolCall, error: CallError) {
    match error
    case OneAtATime => false
    case NotAnObject => call.arguments.None?
    case NotWhitelisted => call.arguments.Some? && call.name !in rt.tools
    case BadArguments =>
      call.arguments.Some? && call.name in rt.tools && !rt.accepts(call.name, ArgsProper(rt, call))
    case OwnDomain =>
      && call.arguments.Some? && call.name in rt.tools && rt.accepts(call.name, ArgsProper(rt, call))
      && call.name == HANDOFF_TOOL && NamesTarget(ArgsProper(rt, call), task.domain)
    case AlreadyWrote =>
      && call.arguments.Some? && call.name in rt.tools && rt.accepts(call.name, ArgsProper(rt, call))
      && call.name == HANDOFF_TOOL && !NamesTarget(ArgsProper(rt, call), task.domain) && WroteBefore(rt, log)
  }

  predicate GoodCall(rt: Runtime, task: Task, log: seq<Mark>, call: ToolCall) {
    && call.arguments.Some? && call.name in rt.tools && rt.accepts(call.name, ArgsProper(rt, call))
    && (call.name == HANDOFF_TOOL ==> !NamesTarget(ArgsProper(rt, call), task.domain) && !WroteBefore(rt, log))
  }

  predicate SomethingRan(log: seq<Mark>) {
    exists k :: 0 <= k < |log| && log[k].Invoked?
  }

  /** What the model hears before it is asked again: why each call was refused, and that it must use a tool. */
  ghost predicate Complains(rt: Runtime, task: Task, log: seq<Mark>, calls: seq<ToolCall>, told: seq<Message>) {
    && |told| == |calls| + 1 && told[|calls|] == UseATool
    && forall i :: 0 <= i < |calls| ==>
         && told[i].ToolMessage? && told[i].callId == calls[i].id && told[i].name == calls[i].name
         && told[i].reply.InvalidCall?
         && if |calls| > 1 then told[i].reply.error == OneAtATime
            else WrongWith(rt, task, log, calls[i], told[i].reply.error)
  }

  /**
   * Where a response leads: a single good call is run, after the user's approval if it writes; plain text after a first
   * tool is the answer, and blank text leaves the answer to the responder; anything else is explained and asked again.
   */
  ghost predicate LeadsTo(rt: Runtime, task: Task, o: Observed, response: Response, next: DomainState) {
    var calls, told := response.calls, |o.s.messages| + 1;
    && next.iterations == o.s.iterations + 1 && |next.messages| >= told
    && next.messages[..|o.s.messages|] == o.s.messages
    && next.messages[|o.s.messages|].Assistant? && next.messages[|o.s.messages|].calls == calls
    && if |calls| == 1 && GoodCall(rt, task, o.log, calls[0]) then
         && next.call == Some(PendingCall(calls[0].name, ArgsProper(rt, calls[0]), calls[0].id))
         && (if rt.tools[calls[0].name].risk.Write? then next.node.Confirming? && CardMatches(next)
             else next.node.Executing? && next.card.None?)
         && |next.messages| == told
       else if calls == [] && SomethingRan(o.log) then
         && NoCall(next) && |next.messages| == told && next.answer == Strip(response.content)
         && if next.answer != "" then next.node.Finishing? else next.node.Responding?
       else NoCall(next) && next.node.Deciding? && Complains(rt, task, o.log, calls, next.messages[told..])
  }

  /** The tools that have run so far, in order. */
  function ToolsRun(log: seq<Mark>): seq<string> {
    if log == [] then []
    else ToolsRun(log[..|log| - 1]) + if log[|log| - 1].Invoked? then [log[|log| - 1].name] else []
  }

  /** What a write tool's arguments say to the user. */
  function MessageIn(rt: Runtime, call: ToolCall): string
    requires call.arguments.Some? && call.name in rt.tools
  {
    var args := call.arguments.value;
    if rt.tools[call.name].risk.Write? && MESSAGE_ARG in args && args[MESSAGE_ARG].Words? then
      Strip(args[MESSAGE_ARG].text)
    else ""
  }

  /** What a response says to the user on the way to a tool; before a first tool has run it says nothing. */
  function SaidAside(rt: Runtime, task: Task, log: seq<Mark>, response: Response): string {
    var calls := response.calls;
    if calls == [] || !SomethingRan(log) then ""
    else if Strip(response.content) != "" then Strip(response.content)
    else if |calls| == 1 && GoodCall(rt, task, log, calls[0]) then MessageIn(rt, calls[0])
    else ""
  }

  /**
   * What was said aside is noted once, with the tools it is based on: on the card if there is one, else among the notes
   * held; and the model sees it as its own words, also if it was said in the arguments. The card is of this task.
   */
  predicate Notes(rt: Runtime, task: Task, o: Observed, response: Response, cardId: string, next: DomainState) {
    var said := SaidAside(rt, task, o.log, response);
    var notes := o.s.notes + if said != "" then [AgentNote(said, ToolsRun(o.log))] else [];
    && |next.messages| > |o.s.messages| && next.messages[|o.s.messages|].Assistant?
    && next.messages[|o.s.messages|].content
       == (if Strip(response.content) == "" && said != "" then said else response.content)
    && if next.card.Some? then
         next.card.value.notes == notes && next.notes == [] && next.card.value.id == cardId
         && next.card.value.taskId == task.id
       else next.notes == notes
  }

  lemma {:induction false} AuditNamesTools(s: DomainState, taskId: string, log: seq<Mark>)
    requires s.toolResults == AuditOf(taskId, log)
    ensures ToolsSoFar(s) == ToolsRun(log)
    decreases |log|
  {
    if log != [] {
      AuditNamesTools(s.(toolResults := AuditOf(taskId, log[..|log| - 1])), taskId, log[..|log| - 1]);
    }
  }

  lemma AsideIsSaid(rt: Runtime, task: Task, o: Observed, response: Response)
    requires HasWritten(rt, o.s) <==> WroteBefore(rt, o.log)
    requires o.s.toolExecuted <==> SomethingRan(o.log)
    ensures Aside(o.s, Verdict(rt, task, o.s, response), response) == SaidAside(rt, task, o.log, response)
  {
    if |response.calls| == 1 {
      JudgedRight(rt, task, o, response.calls[0]);
      if GoodCall(rt, task, o.log, response.calls[0]) {
        MessageIsSaid(rt, task, o.s, response.calls[0]);
      }
    }
  }

  lemma MessageIsSaid(rt: Runtime, task: Task, s: DomainState, call: ToolCall)
    requires Judge(rt, task, s, call).Fine?
    ensures Judge(rt, task, s, call).said == MessageIn(rt, call)
  {}

  lemma ResponseIsNoted(rt: Runtime, task: Task, o: Observed, response: Response, cardId: string)
    requires RunInv(rt, task, o) && o.s.node.Deciding? && o.s.iterations < MAX_ITERATIONS
    ensures Notes(rt, task, o, response, cardId, Decide(rt, task, o.s, response, cardId))
  {
    WrittenIsSeen(rt, task, o);
    RanIfAudited(task.id, o.log);
    AuditNamesTools(o.s, task.id, o.log);
    AsideIsSaid(rt, task, o, response);
    NotesOfDecision(rt, task, o, response, cardId);
  }

  lemma NotesOfDecision(rt: Runtime, task: Task, o: Observed, response: Response, cardId: string)
    requires o.s.iterations < MAX_ITERATIONS && ToolsSoFar(o.s) == ToolsRun(o.log)
    requires Aside(o.s, Verdict(rt, task, o.s, response), response) == SaidAside(rt, task, o.log, response)
    ensures Notes(rt, task, o, response, cardId, Decide(rt, task, o.s, response, cardId))
  {}

  /** Every invocation is audited. */
  lemma {:induction false} RanIsAudited(taskId: string, log: seq<Mark>, k: nat)
    requires k < |log| && log[k].Invoked?
    ensures ToolResult(taskId, log[k].name, log[k].outcome.success, log[k].outcome) in AuditOf(taskId, log)
  {
    if k < |log| - 1 {
      RanIsAudited(taskId, log[..|log| - 1], k);
    }
  }

  /** Only invocations are. */
  lemma {:induction false} AuditedHasRun(taskId: string, log: seq<Mark>, r: ToolResult) returns (k: nat)
    requires r in AuditOf(taskId, log)
    ensures k < |log| && log[k].Invoked?
    ensures r == ToolResult(taskId, log[k].name, log[k].outcome.success, log[k].outcome)
  {
    k := |log| - 1;
    if r in AuditOf(taskId, log[..|log| - 1]) {
      k := AuditedHasRun(taskId, log[..|log| - 1], r);
    }
  }

  lemma RanIfAudited(taskId: string, log: seq<Mark>)
    ensures AuditOf(taskId, log) != [] <==> SomethingRan(log)
  {
    if SomethingRan(log) {
      var k :| 0 <= k < |log| && log[k].Invoked?;
      RanIsAudited(taskId, log, k);
    } else if AuditOf(taskId, log) != [] {
      var k := AuditedHasRun(taskId, log, AuditOf(taskId, log)[0]);
    }
  }

  lemma WrittenIsSeen(rt: Runtime, task: Task, o: Observed)
    requires o.s.toolResults == AuditOf(task.id, o.log)
    ensures HasWritten(rt, o.s) <==> WroteBefore(rt, o.log)
  {
    if WroteBefore(rt, o.log) {
      var k :| 0 <= k < |o.log| && o.log[k].Invoked? && o.log[k].outcome.success && IsWrite(rt, o.log[k].name);
      RanIsAudited(task.id, o.log, k);
    }
    if HasWritten(rt, o.s) {
      var r :| r in o.s.toolResults && r.success && r.tool in rt.tools && rt.tools[r.tool].risk.Write?;
      var k := AuditedHasRun(task.id, o.log, r);
    }
  }

  lemma JudgedRight(rt: Runtime, task: Task, o: Observed, call: ToolCall)
    requires HasWritten(rt, o.s) <==> WroteBefore(rt, o.log)
    ensures Judge(rt, task, o.s, call).Fine? <==> GoodCall(rt, task, o.log, call)
    ensures Judge(rt, task, o.s, call).Fine? ==>
              Judge(rt, task, o.s, call).call == PendingCall(call.name, ArgsProper(rt, call), call.id)
    ensures Judge(rt, task, o.s, call).Refused? ==> WrongWith(rt, task, o.log, call, Judge(rt, task, o.s, call).error)
  {}

  lemma ResponseLeads(rt: Runtime, task: Task, o: Observed, response: Response, cardId: string)
    requires RunInv(rt, task, o) && o.s.node.Deciding? && o.s.iterations < MAX_ITERATIONS
    ensures LeadsTo(rt, task, o, response, Decide(rt, task, o.s, response, cardId))
  {
    var calls := response.calls;
    WrittenIsSeen(rt, task, o);
    RanIfAudited(task.id, o.log);
    if |calls| == 1 {
      JudgedRight(rt, task, o, calls[0]);
    }
    LeadsOn(rt, task, o, response, cardId);
  }

  lemma LeadsOn(rt: Runtime, task: Task, o: Observed, response: Response, cardId: string)
    requires RunInv(rt, task, o) && o.s.node.Deciding? && o.s.iterations < MAX_ITERATIONS
    requires o.s.toolExecuted <==> SomethingRan(o.log)
    requires |response.calls| == 1 ==>
               var call := response.calls[0]; var judgement := Judge(rt, task, o.s, call);
               && (judgement.Fine? <==> GoodCall(rt, task, o.log, call))
               && (judgement.Fine? ==> judgement.call == PendingCall(call.name, ArgsProper(rt, call), call.id))
               && (judgement.Refused? ==> WrongWith(rt, task, o.log, call, judgement.error))
    ensures LeadsTo(rt, task, o, response, Decide(rt, task, o.s, response, cardId))
  {
    var next, told := Decide(rt, task, o.s, response, cardId), |o.s.messages| + 1;
    var refusals := Refusals(Verdict(rt, task, o.s, response), response);
    assert next.node.Deciding? ==> next.messages[told..] == refusals + [UseATool];
  }

  /** In every run, each response leads where it should; the ninth ends the run. */
  lemma ResponsesLead(rt: Runtime, task: Task, trace: seq<Observed>, events: seq<Event>, n: nat)
    requires rt.Valid() && Run(rt, task, trace, events) && n < |events| && events[n].ModelSaid?
    ensures if trace[n].s.iterations == MAX_ITERATIONS then trace[n + 1].s.node.Aborted?
            else LeadsTo(rt, task, trace[n], events[n].response, trace[n + 1].s)
                 && Notes(rt, task, trace[n], events[n].response, events[n].cardId, trace[n + 1].s)
  {
    RunKeeps(rt, task, trace, events, n);
    assert Follows(rt, task, trace[n], events[n], trace[n + 1]);
    if trace[n].s.iterations < MAX_ITERATIONS {
      ResponseLeads(rt, task, trace[n], events[n].response, events[n].cardId);
      ResponseIsNoted(rt, task, trace[n], events[n].response, events[n].cardId);
    }
  }

  /** A tool's outcome is passed on as it is; of a tool that raised, that it failed. */
  predicate CameBack(call: PendingCall, returned: Option<Outcome>, outcome: Outcome) {
    match returned
    case Some(value) => outcome == value
    case None => outcome.tool == call.name && !outcome.success && outcome.error.Some?
  }

  /** What the model is told, besides its own words: what the user refused and why, and how each tool came out. */
  predicate IsTold(s: DomainState, e: Event, told: seq<Message>) {
    match e
    case UserDecided(cardId, approve, comment) =>
      s.card.Some?
      && told == if cardId == s.card.value.id && !approve then
                   [ToolMessage(s.card.value.callId, s.card.value.action, Declined(Strip(comment)))]
                 else []
    case ToolReturned(returned) =>
      && s.call.Some? && |told| == 1 && told[0].ToolMessage? && told[0].reply.Ran?
      && told[0].callId == s.call.value.id && told[0].name == s.call.value.name
      && CameBack(s.call.value, returned, told[0].reply.outcome)
    case _ => true
  }

  /** Each decision and each outcome is told as it came, behind everything said before; nothing is taken back. */
  lemma OutcomesAreTold(rt: Runtime, task: Task, trace: seq<Observed>, events: seq<Event>, n: nat)
    requires rt.Valid() && Run(rt, task, trace, events) && n < |events|
    ensures trace[n].s.messages <= trace[n + 1].s.messages
    ensures IsTold(trace[n].s, events[n], trace[n + 1].s.messages[|trace[n].s.messages|..])
  {
    assert Follows(rt, task, trace[n], events[n], trace[n + 1]);
    match events[n]
    case ModelSaid(response, cardId) => DecisionAdds(rt, task, trace[n].s, response, cardId);
    case UserDecided(cardId, approve, comment) => RefusalIsTold(trace[n].s, cardId, approve, comment);
    case ToolReturned(returned) => OutcomeIsTold(rt, task, trace[n].s, returned);
    case _ => EndAdds(rt, task, trace[n].s, events[n]);
  }

  lemma DecisionAdds(rt: Runtime, task: Task, s: DomainState, response: Response, cardId: string)
    ensures s.messages <= Decide(rt, task, s, response, cardId).messages
  {}

  lemma OutcomeIsTold(rt: Runtime, task: Task, s: DomainState, returned: Option<Outcome>)
    requires s.call.Some? && s.call.value.name in rt.tools
    ensures var told := Execute(rt, task, s, returned).messages;
            s.messages <= told && IsTold(s, ToolReturned(returned), told[|s.messages|..])
  {}

  lemma RefusalIsTold(s: DomainState, cardId: string, approve: bool, comment: string)
    requires s.card.Some?
    ensures var told := Confirm(s, cardId, approve, comment).messages;
            s.messages <= told && IsTold(s, UserDecided(cardId, approve, comment), told[|s.messages|..])
  {}

  lemma EndAdds(rt: Runtime, task: Task, s: DomainState, e: Event)
    requires Enabled(rt, s, e) && (e.Closed? || e.ResponderSaid?)
    ensures s.messages <= Step(rt, task, s, e).messages
  {}

  /** Whatever is told later, the model always starts from the request it was given. */
  lemma {:induction false} RequestComesFirst(rt: Runtime, task: Task, trace: seq<Observed>, events: seq<Event>, n: nat)
    requires rt.Valid() && Run(rt, task, trace, events) && n < |trace|
    ensures trace[n].s.messages != [] && trace[n].s.messages[0].Human?
  {
    if n > 0 {
      RequestComesFirst(rt, task, trace, events, n - 1);
      OutcomesAreTold(rt, task, trace, events, n - 1);
      assert trace[n].s.messages[0] == trace[n - 1].s.messages[0];
    }
  }

  // ---- How a task ends ------------------------------------------------------------------------

  /** Text for the user, and no tool call. */
  predicate HasWords(r: Response) {
    r.calls == [] && Strip(r.content) != ""
  }

  /** The answer given: what was to be said already, or the first words the responder found. */
  predicate Answers(r: DomainTaskResult, known: string, last: Event) {
    if known != "" then last.Closed? && r.answer == known
    else
      && last.ResponderSaid? && (HasWords(last.first) || HasWords(last.second))
      && r.answer == Strip(if HasWords(last.first) then last.first.content else last.second.content)
  }

  /**
   * The result, from the last two events: a refusal rejects the task without a word; a tool that failed fails it; a
   * handoff hands it on to the domain the tool named; a tool that ends the task leaves it waiting with that tool's
   * draft and question; plain text completes it.
   */
  predicate EndsAs(rt: Runtime, s: DomainState, e: Event, last: Event, r: DomainTaskResult) {
    match e
    case ModelSaid(response, _) =>
      response.calls == [] && r.status == Completed && r.draft.None? && Answers(r, Strip(response.content), last)
    case UserDecided(_, approve, _) =>
      !approve && last.Closed? && r.status == Rejected && r.answer == "" && r.draft.None?
    case ToolReturned(returned) =>
      && s.call.Some? && s.call.value.name in rt.tools
      && if returned.None? || !returned.value.success then r.status == Failed && r.draft.None? && Answers(r, "", last)
         else
           var data := returned.value.data;
           if s.call.value.name == HANDOFF_TOOL then
             last.Closed? && r.status == HandedOff && r.handoffTo == data.targetDomain && r.answer == ""
           else
             && rt.tools[s.call.value.name].terminal && r.status == WaitingInput && r.draft == Some(data.draft)
             && Answers(r, Strip(data.question), last)
    case _ => false
  }

  lemma LastTwoSteps(rt: Runtime, task: Task, s: DomainState, e: Event, last: Event)
    requires rt.Valid() && FlagsOK(rt, task, s) && Enabled(rt, s, e)
    requires Enabled(rt, Step(rt, task, s, e), last) && (last.Closed? || last.ResponderSaid?)
    requires Step(rt, task, Step(rt, task, s, e), last).node.Done?
    ensures var after := Step(rt, task, s, e); var r := Step(rt, task, after, last).node.result;
            EndsAs(rt, s, e, last, r) && r.notes == after.notes
  {
    match e
    case ModelSaid(response, cardId) => AnswerEnds(rt, task, s, response, cardId, last);
    case ToolReturned(returned) => ToolEnds(rt, task, s, returned, last);
    case _ => DecisionEnds(rt, task, s, e, last);
  }

  lemma AnswerEnds(rt: Runtime, task: Task, s: DomainState, response: Response, cardId: string, last: Event)
    requires FlagsOK(rt, task, s) && s.node.Deciding?
    requires var after := Decide(rt, task, s, response, cardId);
             && Enabled(rt, after, last) && (last.Closed? || last.ResponderSaid?)
             && Step(rt, task, after, last).node.Done?
    ensures var after := Decide(rt, task, s, response, cardId); var r := Step(rt, task, after, last).node.result;
            EndsAs(rt, s, ModelSaid(response, cardId), last, r) && r.notes == after.notes
  {}

  lemma ToolEnds(rt: Runtime, task: Task, s: DomainState, returned: Option<Outcome>, last: Event)
    requires rt.Valid() && FlagsOK(rt, task, s) && Enabled(rt, s, ToolReturned(returned))
    requires var after := Execute(rt, task, s, returned);
             && Enabled(rt, after, last) && (last.Closed? || last.ResponderSaid?)
             && Step(rt, task, after, last).node.Done?
    ensures var after := Execute(rt, task, s, returned); var r := Step(rt, task, after, last).node.result;
            EndsAs(rt, s, ToolReturned(returned), last, r) && r.notes == after.notes
  {}

  lemma DecisionEnds(rt: Runtime, task: Task, s: DomainState, e: Event, last: Event)
    requires FlagsOK(rt, task, s) && Enabled(rt, s, e) && !e.ModelSaid? && !e.ToolReturned?
    requires Enabled(rt, Step(rt, task, s, e), last) && (last.Closed? || last.ResponderSaid?)
    requires Step(rt, task, Step(rt, task, s, e), last).node.Done?
    ensures var after := Step(rt, task, s, e); var r := Step(rt, task, after, last).node.result;
            EndsAs(rt, s, e, last, r) && r.notes == after.notes
  {}

  /** Every finished run ends as its last two events say, with the notes held by then. */
  lemma RunsEndAsTheySay(rt: Runtime, task: Task, trace: seq<Observed>, events: seq<Event>, n: nat)
    requires rt.Valid() && Run(rt, task, trace, events) && n < |trace| && trace[n].s.node.Done?
    ensures n >= 2 && EndsAs(rt, trace[n - 2].s, events[n - 2], events[n - 1], trace[n].s.node.result)
    ensures trace[n].s.node.result.notes == trace[n - 1].s.notes
  {
    assert Follows(rt, task, trace[n - 1], events[n - 1], trace[n]);
    StepAudits(rt, task, trace[n - 1].s, events[n - 1]);
    RunKeeps(rt, task, trace, events, n - 2);
    assert Follows(rt, task, trace[n - 2], events[n - 2], trace[n - 1]);
    LastTwoSteps(rt, task, trace[n - 2].s, events[n - 2], events[n - 1]);
  }

  lemma GoingOnIsNotOver(rt: Runtime, task: Task, trace: seq<Observed>, events: seq<Event>, n: nat)
    requires Run(rt, task, trace, events) && n < |events|
    ensures !Over(trace[n].s)
  {
    assert Follows(rt, task, trace[n], events[n], trace[n + 1]);
  }

  /**
   * A refusal of the card shown ends the task: nothing but closing can follow, no tool runs any more, and the result is
   * rejected, without an answer, with the notes held. Nothing else makes a result rejected.
   */
  lemma RefusalEndsTheTask(rt: Runtime, task: Task, trace: seq<Observed>, events: seq<Event>, n: nat)
    requires rt.Valid() && Run(rt, task, trace, events) && n < |events| && events[n].UserDecided? && !events[n].approve
    requires trace[n].s.card.Some? && events[n].cardId == trace[n].s.card.value.id
    ensures |events| <= n + 2 && trace[|events|].log == trace[n].log
    ensures |events| == n + 2 ==>
              && events[n + 1].Closed? && trace[n + 2].s.node.Done?
              && var r := trace[n + 2].s.node.result;
                 r.status == Rejected && r.answer == "" && r.notes == trace[n].s.notes
  {
    RunKeeps(rt, task, trace, events, n);
    assert Follows(rt, task, trace[n], events[n], trace[n + 1]);
    assert trace[n + 1].s.node.Finishing?;
    if |events| > n + 1 {
      assert Follows(rt, task, trace[n + 1], events[n + 1], trace[n + 2]);
      if |events| > n + 2 {
        GoingOnIsNotOver(rt, task, trace, events, n + 2);
        assert false;
      }
    }
  }

  /** Why a run breaks off: a ninth decision, a decision on another card, or a responder that finds no words. */
  predicate BreaksOff(s: DomainState, e: Event) {
    match e
    case ModelSaid(_, _) => s.iterations >= 8
    case UserDecided(cardId, _, _) => s.card.Some? && cardId != s.card.value.id
    case ResponderSaid(first, second, _) => !HasWords(first) && !HasWords(second)
    case _ => false
  }

  lemma StepBreaksOffIff(rt: Runtime, task: Task, s: DomainState, e: Event)
    requires FlagsOK(rt, task, s) && Enabled(rt, s, e)
    ensures Step(rt, task, s, e).node.Aborted? <==> BreaksOff(s, e)
  {}

  lemma RunsBreakOffIff(rt: Runtime, task: Task, trace: seq<Observed>, events: seq<Event>, n: nat)
    requires rt.Valid() && Run(rt, task, trace, events) && n < |events|
    ensures trace[n + 1].s.node.Aborted? <==> BreaksOff(trace[n].s, events[n])
  {
    RunKeeps(rt, task, trace, events, n);
    assert Follows(rt, task, trace[n], events[n], trace[n + 1]);
    StepBreaksOffIff(rt, task, trace[n].s, events[n]);
  }

  /** Whatever ran was in the domain's list, and its input contract had accepted its arguments. */
  predicate Accepted(rt: Runtime, log: seq<Mark>) {
    forall k :: 0 <= k < |log| && log[k].Invoked? ==> log[k].name in rt.tools && rt.accepts(log[k].name, log[k].args)
  }

  lemma MarksAreAccepted(rt: Runtime, task: Task, s: DomainState, e: Event)
    requires FlagsOK(rt, task, s) && Enabled(rt, s, e)
    ensures Accepted(rt, Marks(rt, task, s, e))
  {}

  lemma {:induction false} OnlyAcceptedCallsRun(rt: Runtime, task: Task, trace: seq<Observed>, events: seq<Event>,
                                                n: nat)
    requires rt.Valid() && Run(rt, task, trace, events) && n < |trace|
    ensures Accepted(rt, trace[n].log)
  {
    if n > 0 {
      OnlyAcceptedCallsRun(rt, task, trace, events, n - 1);
      RunKeeps(rt, task, trace, events, n - 1);
      assert Follows(rt, task, trace[n - 1], events[n - 1], trace[n]);
      StepStaysAccepted(rt, task, trace[n - 1], events[n - 1], trace[n]);
    }
  }

  lemma StepStaysAccepted(rt: Runtime, task: Task, o: Observed, e: Event, o': Observed)
    requires FlagsOK(rt, task, o.s) && Follows(rt, task, o, e, o') && Accepted(rt, o.log)
    ensures Accepted(rt, o'.log)
  {
    MarksAreAccepted(rt, task, o.s, e);
    AcceptedAppend(rt, o.log, Marks(rt, task, o.s, e));
  }

  lemma AcceptedAppend(rt: Runtime, log: seq<Mark>, marks: seq<Mark>)
    requires Accepted(rt, log) && Accepted(rt, marks)
    ensures Accepted(rt, log + marks)
  {}
}
