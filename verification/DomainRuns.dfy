/**
 * Every run of a domain task, whatever the model, the user and the tools do: what the message history looks like, what
 * the user is told, which writes run, and which results come out.
 */
module DomainRuns {
  import opened Text
  import opened Models
  import opened DomainTask

  // ---- Observing a run ------------------------------------------------------------------------

  /** What can be seen from outside: text shown to the user, cards and the decisions on them, and tool invocations. */
  datatype Mark =
    | Shown(text: string)
    | Asked(card: Card)
    | Approved(card: Card)
    | Invoked(name: string, args: Args, outcome: Outcome)

  function ShownIf(text: string): seq<Mark> {
    if text != "" then [Shown(text)] else []
  }

  /**
   * Both attempts of the responder stream under one key of the relay (`AnswerRelay.SecondAttempt`): once the first has
   * called a tool the second is not heard, and after a first one of blanks only it is heard unless that answer has been
   * closed.
   */
  function ResponderShows(first: Response, second: Response, closed: bool): string {
    if Usable(first) || first.calls != [] then Strip(first.content)
    else if first.content != "" && closed then ""
    else Strip(second.content)
  }

  /**
   * Once a tool has run, the model's text is streamed as it is written, a call's or a final answer's alike; a message
   * inside an accepted write call is pushed when no text was. A question is pushed at the end, what the responder
   * writes is streamed.
   */
  function Marks(rt: Runtime, task: Task, s: DomainState, e: Event): seq<Mark> {
    match e
    case ModelSaid(response, cardId) =>
      if s.iterations + 1 > MAX_ITERATIONS then []
      else
        var next := Decide(rt, task, s, response, cardId);
        var text := Strip(response.content);
        (if s.toolExecuted && text != "" then [Shown(text)]
         else ShownIf(Aside(s, Verdict(rt, task, s, response), response)))
        + (if next.card.Some? then [Asked(next.card.value)] else [])
    case UserDecided(cardId, approve, _) =>
      if s.card.Some? && cardId == s.card.value.id && approve then [Approved(s.card.value)] else []
    case ToolReturned(outcome) =>
      if s.call.Some? then [Invoked(s.call.value.name, s.call.value.args, OutcomeOf(s.call.value, outcome))] else []
    case Closed => if s.waitingInput then ShownIf(s.answer) else []
    case ResponderSaid(first, second, closed) => ShownIf(ResponderShows(first, second, closed))
  }

  /** A state together with everything seen so far. */
  datatype Observed = Observed(s: DomainState, log: seq<Mark>)

  function Next(rt: Runtime, task: Task, o: Observed, e: Event): Observed
    requires Enabled(rt, o.s, e)
  {
    Observed(Step(rt, task, o.s, e), o.log + Marks(rt, task, o.s, e))
  }

  ghost predicate Follows(rt: Runtime, task: Task, o: Observed, e: Event, o': Observed) {
    Enabled(rt, o.s, e) && o' == Next(rt, task, o, e)
  }

  ghost predicate Run(rt: Runtime, task: Task, trace: seq<Observed>, events: seq<Event>) {
    && |trace| == |events| + 1
    && trace[0] == Observed(Initialize(), [])
    && forall i :: 0 <= i < |events| ==> Follows(rt, task, trace[i], events[i], trace[i + 1])
  }

  // ---- Flags ----------------------------------------------------------------------------------

  predicate CardMatches(s: DomainState) {
    && s.card.Some? && s.call.Some?
    && s.card.value.action == s.call.value.name && s.card.value.payload == s.call.value.args
    && s.card.value.callId == s.call.value.id
  }

  /** The call about to be confirmed or run passed its input contract, and carries no message to the user. */
  predicate CalledTool(rt: Runtime, s: DomainState) {
    && s.call.Some? && s.call.value.name in rt.tools
    && rt.accepts(s.call.value.name, s.call.value.args)
    && (IsWrite(rt, s.call.value.name) ==> MESSAGE_ARG !in s.call.value.args)
  }

  predicate Quiet(s: DomainState) {
    !s.waitingInput && !s.rejected && !s.failed && s.handoffTo.None?
  }

  predicate NoCall(s: DomainState) {
    s.call.None? && s.card.None? && !s.approved
  }

  /**
   * Where the run is determines its flags; in particular an approval is only ever open for the card it was given to.
   */
  predicate FlagsOK(rt: Runtime, task: Task, s: DomainState) {
    && s.iterations <= MAX_ITERATIONS
    && match s.node
       case Deciding => Quiet(s) && NoCall(s)
       case Confirming =>
         Quiet(s) && CalledTool(rt, s) && CardMatches(s) && rt.tools[s.call.value.name].risk.Write? && !s.approved
       case Executing =>
         Quiet(s) && CalledTool(rt, s)
         && (if rt.tools[s.call.value.name].risk.Write? then CardMatches(s) && s.approved
             else s.card.None? && !s.approved)
       case Finishing => NoCall(s) && (s.handoffTo.Some? || s.rejected || s.answer != "")
       case Responding => NoCall(s) && s.handoffTo.None? && !s.rejected
       case Done(_) => true
       case Aborted => true
  }

  lemma FlagsAfterDecide(rt: Runtime, task: Task, s: DomainState, response: Response, cardId: string)
    requires FlagsOK(rt, task, s) && s.node.Deciding?
    ensures FlagsOK(rt, task, Decide(rt, task, s, response, cardId))
  {}

  lemma FlagsAfterExecute(rt: Runtime, task: Task, s: DomainState, returned: Option<Outcome>)
    requires FlagsOK(rt, task, s) && s.node.Executing?
    ensures FlagsOK(rt, task, Execute(rt, task, s, returned))
  {}

  lemma FlagsKept(rt: Runtime, task: Task, s: DomainState, e: Event)
    requires FlagsOK(rt, task, s) && Enabled(rt, s, e)
    ensures FlagsOK(rt, task, Step(rt, task, s, e))
  {
    match e
    case ModelSaid(response, cardId) => FlagsAfterDecide(rt, task, s, response, cardId);
    case UserDecided(_, _, _) =>
    case ToolReturned(outcome) => FlagsAfterExecute(rt, task, s, outcome);
    case Closed =>
    case ResponderSaid(_, _, _) =>
  }

  // ---- The message protocol -------------------------------------------------------------------

  /** Each call of an assistant message is answered right behind it, in order, under its own id and name. */
  predicate AnswersCalls(messages: seq<Message>, calls: seq<ToolCall>) {
    |calls| <= |messages|
    && forall i :: 0 <= i < |calls| ==>
         messages[i].ToolMessage? && messages[i].callId == calls[i].id && messages[i].name == calls[i].name
  }

  /** Reading from the front: every tool call has exactly one tool message, and every tool message a call. */
  predicate Answered(messages: seq<Message>)
    decreases |messages|
  {
    messages == []
    || match messages[0]
       case Human => Answered(messages[1..])
       case UseATool => Answered(messages[1..])
       case ToolMessage(_, _, _) => false
       case Assistant(_, calls) => AnswersCalls(messages[1..], calls) && Answered(messages[1 + |calls|..])
  }

  lemma {:induction false} AnsweredAppend(a: seq<Message>, b: seq<Message>)
    requires Answered(a) && Answered(b)
    ensures Answered(a + b)
    decreases |a|
  {
    if a == [] {
      assert a + b == b;
    } else {
      assert (a + b)[0] == a[0];
      assert (a + b)[1..] == a[1..] + b;
      if a[0].Assistant? {
        var n := |a[0].calls|;
        assert (a + b)[1 + n..] == a[1 + n..] + b;
        AnsweredAppend(a[1 + n..], b);
      } else {
        AnsweredAppend(a[1..], b);
      }
    }
  }

  lemma ExchangeIsAnswered(content: string, calls: seq<ToolCall>, replies: seq<Message>)
    requires |replies| == |calls| && AnswersCalls(replies, calls)
    ensures Answered([Assistant(content, calls)] + replies)
  {
    var exchange := [Assistant(content, calls)] + replies;
    assert exchange[1..] == replies && exchange[1 + |calls|..] == [];
  }

  /** Everything is answered except the one call that is being confirmed or run. */
  ghost predicate OneOpenCall(messages: seq<Message>, call: PendingCall) {
    messages != []
    && Answered(messages[..|messages| - 1])
    && var last := messages[|messages| - 1];
       last.Assistant? && |last.calls| == 1 && last.calls[0].id == call.id && last.calls[0].name == call.name
  }

  ghost predicate HistoryOK(s: DomainState) {
    match s.node
    case Confirming => s.call.Some? && OneOpenCall(s.messages, s.call.value)
    case Executing => s.call.Some? && OneOpenCall(s.messages, s.call.value)
    case Aborted => true
    case Deciding => Answered(s.messages)
    case Finishing => Answered(s.messages)
    case Responding => Answered(s.messages)
    case Done(_) => Answered(s.messages)
  }

  lemma ClosingTheCall(messages: seq<Message>, call: PendingCall, reply: ToolReply)
    requires OneOpenCall(messages, call)
    ensures Answered(messages + [ToolMessage(call.id, call.name, reply)])
  {
    var init, last := messages[..|messages| - 1], messages[|messages| - 1];
    ExchangeIsAnswered(last.content, last.calls, [ToolMessage(call.id, call.name, reply)]);
    AnsweredAppend(init, [last] + [ToolMessage(call.id, call.name, reply)]);
    assert messages + [ToolMessage(call.id, call.name, reply)]
           == init + ([last] + [ToolMessage(call.id, call.name, reply)]);
  }

  lemma RefusedTurnIsAnswered(content: string, verdict: Option<Judgement>, response: Response, retry: bool)
    requires verdict.Some? <==> |response.calls| == 1
    requires verdict.Some? ==> verdict.value.Refused?
    ensures Answered([Assistant(content, response.calls)] + Refusals(verdict, response)
                     + if retry then [UseATool] else [])
  {
    var exchange := [Assistant(content, response.calls)] + Refusals(verdict, response);
    ExchangeIsAnswered(content, response.calls, Refusals(verdict, response));
    var tail := if retry then [UseATool] else [];
    assert Answered(tail);
    AnsweredAppend(exchange, tail);
  }

  lemma DecideKeepsHistory(rt: Runtime, task: Task, s: DomainState, response: Response, cardId: string)
    requires Answered(s.messages) && s.iterations + 1 <= MAX_ITERATIONS
    ensures HistoryOK(Decide(rt, task, s, response, cardId))
  {
    var next := Decide(rt, task, s, response, cardId);
    var verdict := Verdict(rt, task, s, response);
    if next.call.Some? {
      var last := next.messages[|s.messages|];
      assert next.messages == s.messages + [last];
      assert next.messages[..|next.messages| - 1] == s.messages;
    } else {
      var recorded := next.messages[|s.messages|].content;
      RefusedTurnIsAnswered(recorded, verdict, response, next.node.Deciding?);
      var turn := [Assistant(recorded, response.calls)] + Refusals(verdict, response)
                  + if next.node.Deciding? then [UseATool] else [];
      AnsweredAppend(s.messages, turn);
      assert next.messages == s.messages + turn;
    }
  }

  lemma AnswerIsAnswered(messages: seq<Message>, answer: string)
    requires Answered(messages)
    ensures Answered(messages + [Assistant(answer, [])])
  {
    ExchangeIsAnswered(answer, [], []);
    assert [Assistant(answer, [])] + [] == [Assistant(answer, [])];
    AnsweredAppend(messages, [Assistant(answer, [])]);
  }

  lemma HistoryKept(rt: Runtime, task: Task, s: DomainState, e: Event)
    requires FlagsOK(rt, task, s) && HistoryOK(s) && Enabled(rt, s, e)
    ensures HistoryOK(Step(rt, task, s, e))
  {
    match e
    case ModelSaid(response, cardId) =>
      if s.iterations + 1 <= MAX_ITERATIONS {
        DecideKeepsHistory(rt, task, s, response, cardId);
      }
    case UserDecided(_, _, comment) => ClosingTheCall(s.messages, s.call.value, Declined(Strip(comment)));
    case ToolReturned(outcome) => ClosingTheCall(s.messages, s.call.value, Ran(OutcomeOf(s.call.value, outcome)));
    case Closed =>
    case ResponderSaid(first, second, _) =>
      if Chosen(first, second).Some? {
        AnswerIsAnswered(s.messages, Chosen(first, second).value);
      }
  }

  // ---- The write gate -------------------------------------------------------------------------

  predicate IsWrite(rt: Runtime, name: string) {
    name in rt.tools && rt.tools[name].risk.Write?
  }

  /** A write ran right after the user approved a card showing exactly this action and these arguments. */
  predicate Authorised(rt: Runtime, log: seq<Mark>, k: nat)
    requires k < |log|
  {
    log[k].Invoked? && IsWrite(rt, log[k].name) ==>
      k > 0 && log[k - 1].Approved? && log[k - 1].card.action == log[k].name && log[k - 1].card.payload == log[k].args
  }

  /** An approval answers the card asked right before it, and is used at once, by that card's call and nothing else. */
  predicate UsedOnce(log: seq<Mark>, k: nat)
    requires k < |log|
  {
    log[k].Approved? ==>
      && k > 0 && log[k - 1] == Asked(log[k].card)
      && (k + 1 < |log| ==>
            log[k + 1].Invoked? && log[k + 1].name == log[k].card.action && log[k + 1].args == log[k].card.payload)
  }

  /** Cards are shown for write calls that passed their contract, and show only what would be submitted. */
  predicate AskedProperly(rt: Runtime, log: seq<Mark>, k: nat)
    requires k < |log|
  {
    log[k].Asked? ==>
      var card := log[k].card;
      IsWrite(rt, card.action) && rt.accepts(card.action, card.payload) && MESSAGE_ARG !in card.payload
  }

  predicate Gated(rt: Runtime, log: seq<Mark>) {
    forall k :: 0 <= k < |log| ==> Authorised(rt, log, k) && UsedOnce(log, k) && AskedProperly(rt, log, k)
  }

  predicate EndsWith(log: seq<Mark>, m: Mark) {
    log != [] && log[|log| - 1] == m
  }

  /** An approval is open only while its call is about to run, a card only while it is being answered. */
  predicate GateOK(rt: Runtime, o: Observed) {
    && Gated(rt, o.log)
    && (o.s.node.Confirming? ==> o.s.card.Some? && EndsWith(o.log, Asked(o.s.card.value)))
    && (o.s.node.Executing? && o.s.card.Some? ==> EndsWith(o.log, Approved(o.s.card.value)))
    && (!(o.s.node.Executing? && o.s.card.Some?) ==> o.log == [] || !o.log[|o.log| - 1].Approved?)
  }

  lemma GatedAppend(rt: Runtime, log: seq<Mark>, m: Mark)
    requires Gated(rt, log)
    requires log != [] && log[|log| - 1].Approved? ==>
               m.Invoked? && m.name == log[|log| - 1].card.action && m.args == log[|log| - 1].card.payload
    requires m.Approved? ==> EndsWith(log, Asked(m.card))
    requires m.Invoked? && IsWrite(rt, m.name) ==> log != [] && log[|log| - 1].Approved?
    requires m.Asked? ==> AskedProperly(rt, [m], 0)
    ensures Gated(rt, log + [m])
  {
    var longer := log + [m];
    forall k | 0 <= k < |longer|
      ensures Authorised(rt, longer, k) && UsedOnce(longer, k) && AskedProperly(rt, longer, k)
    {
      if k < |log| {
        assert Authorised(rt, log, k) && UsedOnce(log, k) && AskedProperly(rt, log, k);
      } else {
        assert m.Asked? ==> AskedProperly(rt, [m], 0);
      }
    }
  }

  lemma DecideKeepsGate(rt: Runtime, task: Task, o: Observed, response: Response, cardId: string)
    requires FlagsOK(rt, task, o.s) && GateOK(rt, o) && Enabled(rt, o.s, ModelSaid(response, cardId))
    ensures GateOK(rt, Next(rt, task, o, ModelSaid(response, cardId)))
  {
    var marks := Marks(rt, task, o.s, ModelSaid(response, cardId));
    if |marks| >= 1 {
      GatedAppend(rt, o.log, marks[0]);
      assert |marks| == 1 ==> o.log + marks == o.log + [marks[0]];
      if |marks| == 2 {
        GatedAppend(rt, o.log + [marks[0]], marks[1]);
        assert o.log + marks == o.log + [marks[0]] + [marks[1]];
      }
    } else {
      assert o.log + marks == o.log;
    }
  }

  lemma GateKept(rt: Runtime, task: Task, o: Observed, e: Event)
    requires FlagsOK(rt, task, o.s) && GateOK(rt, o) && Enabled(rt, o.s, e)
    ensures GateOK(rt, Next(rt, task, o, e))
  {
    var marks := Marks(rt, task, o.s, e);
    if e.ModelSaid? {
      DecideKeepsGate(rt, task, o, e.response, e.cardId);
    } else if marks == [] {
      assert o.log + marks == o.log;
    } else {
      assert marks == [marks[0]];
      GatedAppend(rt, o.log, marks[0]);
    }
  }

  // ---- What the user was told -----------------------------------------------------------------

  function ShownTexts(log: seq<Mark>): seq<string> {
    if log == [] then []
    else ShownTexts(log[..|log| - 1]) + if log[|log| - 1].Shown? then [log[|log| - 1].text] else []
  }

  function CardNotes(log: seq<Mark>): seq<AgentNote> {
    if log == [] then []
    else CardNotes(log[..|log| - 1]) + if log[|log| - 1].Asked? then log[|log| - 1].card.notes else []
  }

  function TextsOf(notes: seq<AgentNote>): seq<string> {
    seq(|notes|, i requires 0 <= i < |notes| => notes[i].text)
  }

  lemma LastMark(log: seq<Mark>, m: Mark)
    ensures ShownTexts(log + [m]) == ShownTexts(log) + if m.Shown? then [m.text] else []
    ensures CardNotes(log + [m]) == CardNotes(log) + if m.Asked? then m.card.notes else []
  {
    assert (log + [m])[..|log|] == log;
  }

  /** What has been shown and is not on record yet: an answer that only waits to be handed over. */
  function Unrecorded(s: DomainState): seq<string> {
    if s.node.Done? then (if s.node.result.answer != "" then [s.node.result.answer] else [])
    else if s.node.Finishing? && s.answer != "" && !s.waitingInput then [s.answer]
    else []
  }

  /** The notes that leave with the run: those of the result, or those still held. */
  function HeldNotes(s: DomainState): seq<AgentNote> {
    if s.node.Done? then s.node.result.notes else s.notes
  }

  /**
   * Everything shown to the user is on record, once and in order: first on the cards, then in the notes, then the
   * answer.
   */
  predicate VoiceOK(o: Observed) {
    ShownTexts(o.log) == TextsOf(CardNotes(o.log) + HeldNotes(o.s)) + Unrecorded(o.s) && AnswerOK(o.s)
  }

  /** An answer is only held by a task that is about to finish with it. */
  predicate AnswerOK(s: DomainState) {
    && (!s.node.Finishing? && !s.node.Done? ==> s.answer == "")
    && (s.node.Finishing? && (s.handoffTo.Some? || s.rejected) ==> s.answer == "" && !s.waitingInput)
    && (s.node.Deciding? || s.node.Confirming? || s.node.Executing? ==> !s.waitingInput)
  }

  lemma TextsAppend(a: seq<AgentNote>, b: seq<AgentNote>)
    ensures TextsOf(a + b) == TextsOf(a) + TextsOf(b)
  {}

  lemma {:induction false} DecisionMarks(log: seq<Mark>, shown: seq<Mark>, asked: seq<Mark>)
    requires |shown| <= 1 && |asked| <= 1 && (forall m <- shown :: m.Shown?) && forall m <- asked :: m.Asked?
    ensures ShownTexts(log + (shown + asked)) == ShownTexts(log) + if shown != [] then [shown[0].text] else []
    ensures CardNotes(log + (shown + asked)) == CardNotes(log) + if asked != [] then asked[0].card.notes else []
  {
    assert log + (shown + asked) == log + shown + asked;
    if shown != [] {
      assert shown == [shown[0]];
      LastMark(log, shown[0]);
    } else {
      assert log + shown == log;
    }
    if asked != [] {
      assert asked == [asked[0]];
      LastMark(log + shown, asked[0]);
    } else {
      assert log + shown + asked == log + shown;
    }
  }

  /** A decision's aside ends up in the notes it holds or on the card it shows; final text becomes the answer. */
  lemma DecideKeepsVoice(rt: Runtime, task: Task, o: Observed, response: Response, cardId: string)
    requires FlagsOK(rt, task, o.s) && VoiceOK(o) && o.s.node.Deciding? && o.s.iterations + 1 <= MAX_ITERATIONS
    ensures VoiceOK(Next(rt, task, o, ModelSaid(response, cardId)))
  {
    var s := o.s;
    var next := Decide(rt, task, s, response, cardId);
    var aside := Aside(s, Verdict(rt, task, s, response), response);
    var text := Strip(response.content);
    var shown := if s.toolExecuted && text != "" then [Shown(text)] else ShownIf(aside);
    var asked := if next.card.Some? then [Asked(next.card.value)] else [];
    var notes := if aside != "" then [AgentNote(aside, ToolsSoFar(s))] else [];
    DecisionMarks(o.log, shown, asked);
    var log' := o.log + (shown + asked);
    assert Next(rt, task, o, ModelSaid(response, cardId)) == Observed(next, log');
    NotesAfterDecision(CardNotes(o.log), s.notes, notes, CardNotes(log'), next.notes);
    DecisionShows(rt, task, s, response, cardId);
    var before := TextsOf(CardNotes(o.log) + s.notes);
    Regroup(before, TextsOf(notes), Unrecorded(next));
  }

  lemma Regroup(a: seq<string>, b: seq<string>, c: seq<string>)
    ensures a + [] == a && a + (b + c) == a + b + c
  {}

  lemma DecisionShows(rt: Runtime, task: Task, s: DomainState, response: Response, cardId: string)
    requires !s.waitingInput && s.iterations + 1 <= MAX_ITERATIONS
    ensures var next := Decide(rt, task, s, response, cardId);
            var aside := Aside(s, Verdict(rt, task, s, response), response);
            var text := Strip(response.content);
            (if s.toolExecuted && text != "" then [text] else if aside != "" then [aside] else [])
            == TextsOf(if aside != "" then [AgentNote(aside, ToolsSoFar(s))] else []) + Unrecorded(next)
  {
    var aside := Aside(s, Verdict(rt, task, s, response), response);
    assert TextsOf([AgentNote(aside, ToolsSoFar(s))]) == [aside];
    if response.calls == [] {
      assert aside == "";
    }
  }

  lemma NotesAfterDecision(onCards: seq<AgentNote>, held: seq<AgentNote>, added: seq<AgentNote>,
                           onCards': seq<AgentNote>, held': seq<AgentNote>)
    requires (onCards' == onCards && held' == held + added) || (onCards' == onCards + (held + added) && held' == [])
    ensures TextsOf(onCards' + held') == TextsOf(onCards + held) + TextsOf(added)
  {
    assert onCards' + held' == onCards + held + added;
    TextsAppend(onCards + held, added);
  }

  /** A step that asks nothing: what it shows must be what is newly held for the record. */
  lemma {:induction false} VoiceStep(o: Observed, s': DomainState, marks: seq<Mark>)
    requires VoiceOK(o) && |marks| <= 1 && (forall m <- marks :: !m.Asked?) && AnswerOK(s')
             && HeldNotes(s') == HeldNotes(o.s)
    requires Unrecorded(s') == Unrecorded(o.s) + if marks != [] && marks[0].Shown? then [marks[0].text] else []
    ensures VoiceOK(Observed(s', o.log + marks))
  {
    if marks == [] {
      assert o.log + marks == o.log;
    } else {
      assert marks == [marks[0]];
      LastMark(o.log, marks[0]);
      Regroup(TextsOf(CardNotes(o.log) + HeldNotes(o.s)), Unrecorded(o.s),
              if marks[0].Shown? then [marks[0].text] else []);
    }
  }

  lemma ConfirmKeepsVoice(rt: Runtime, task: Task, o: Observed, cardId: string, approve: bool, comment: string)
    requires VoiceOK(o) && o.s.node.Confirming? && o.s.card.Some?
    ensures VoiceOK(Next(rt, task, o, UserDecided(cardId, approve, comment)))
  {
    VoiceStep(o, Confirm(o.s, cardId, approve, comment), Marks(rt, task, o.s, UserDecided(cardId, approve, comment)));
  }

  lemma ExecuteKeepsVoice(rt: Runtime, task: Task, o: Observed, returned: Option<Outcome>)
    requires rt.Valid() && VoiceOK(o) && Enabled(rt, o.s, ToolReturned(returned)) && !o.s.rejected
             && o.s.handoffTo.None?
    ensures VoiceOK(Next(rt, task, o, ToolReturned(returned)))
  {
    VoiceStep(o, Execute(rt, task, o.s, returned), Marks(rt, task, o.s, ToolReturned(returned)));
  }

  lemma FinishKeepsVoice(rt: Runtime, task: Task, o: Observed)
    requires VoiceOK(o) && o.s.node.Finishing?
    ensures VoiceOK(Next(rt, task, o, Closed))
  {
    VoiceStep(o, Finish(task, o.s), Marks(rt, task, o.s, Closed));
  }

  /**
   * The responder is heard out: its first attempt stands, or that attempt wrote at most blanks and left the answer
   * open, or the second one repeats what the first had said.
   */
  predicate HeardOut(first: Response, second: Response, closed: bool) {
    || Usable(first)
    || (first.calls == [] && (first.content == "" || !closed))
    || (first.calls != [] && Strip(first.content) == Strip(second.content))
  }

  lemma SamePrefix(a: seq<string>, x: seq<string>, y: seq<string>)
    ensures a + x == a + y <==> x == y
  {
    assert (a + x)[|a|..] == x && (a + y)[|a|..] == y;
  }

  /** The texts shown are exactly those on record. */
  predicate OnRecord(o: Observed) {
    ShownTexts(o.log) == TextsOf(CardNotes(o.log) + HeldNotes(o.s)) + Unrecorded(o.s)
  }

  lemma HeardIffShown(first: Response, second: Response, closed: bool)
    requires Chosen(first, second).Some?
    ensures HeardOut(first, second, closed)
            <==> ResponderShows(first, second, closed) == Strip(Chosen(first, second).value)
  {}

  lemma ShownAfter(log: seq<Mark>, text: string)
    ensures ShownTexts(log + ShownIf(text)) == ShownTexts(log) + (if text != "" then [text] else [])
    ensures CardNotes(log + ShownIf(text)) == CardNotes(log)
  {
    if text == "" {
      assert log + ShownIf(text) == log;
    } else {
      LastMark(log, Shown(text));
    }
  }

  lemma RespondShows(rt: Runtime, task: Task, o: Observed, first: Response, second: Response, closed: bool)
    requires VoiceOK(o) && o.s.node.Responding? && Chosen(first, second).Some?
    ensures OnRecord(Next(rt, task, o, ResponderSaid(first, second, closed))) <==> HeardOut(first, second, closed)
  {
    var text, answer := ResponderShows(first, second, closed), Strip(Chosen(first, second).value);
    var before := TextsOf(CardNotes(o.log) + o.s.notes);
    var shown := if text != "" then [text] else [];
    ShownAfter(o.log, text);
    Regroup(before, [], shown);
    SamePrefix(before, shown, [answer]);
    HeardIffShown(first, second, closed);
    RecordAfterAnswer(task, o.s, first, second);
  }

  lemma RecordAfterAnswer(task: Task, s: DomainState, first: Response, second: Response)
    requires s.node.Responding? && Chosen(first, second).Some?
    ensures var next := Respond(task, s, first, second);
            HeldNotes(next) == s.notes && Unrecorded(next) == [Strip(Chosen(first, second).value)]
            && Unrecorded(s) == []
  {}

  lemma VoiceKept(rt: Runtime, task: Task, o: Observed, e: Event)
    requires rt.Valid() && FlagsOK(rt, task, o.s) && VoiceOK(o) && Enabled(rt, o.s, e) && !e.ResponderSaid?
    ensures VoiceOK(Next(rt, task, o, e))
  {
    match e
    case ModelSaid(response, cardId) =>
      if o.s.iterations + 1 <= MAX_ITERATIONS {
        DecideKeepsVoice(rt, task, o, response, cardId);
      } else {
        assert o.log + Marks(rt, task, o.s, e) == o.log;
      }
    case UserDecided(cardId, approve, comment) => ConfirmKeepsVoice(rt, task, o, cardId, approve, comment);
    case ToolReturned(outcome) => ExecuteKeepsVoice(rt, task, o, outcome);
    case Closed => FinishKeepsVoice(rt, task, o);
  }

  // ---- What comes out -------------------------------------------------------------------------

  /** The audit trail the invocations seen leave behind. */
  function AuditOf(taskId: string, log: seq<Mark>): seq<ToolResult> {
    if log == [] then []
    else
      var m := log[|log| - 1];
      AuditOf(taskId, log[..|log| - 1]) + if m.Invoked? then [ToolResult(taskId, m.name, m.outcome.success,
              m.outcome)] else []
  }

  lemma {:induction false} AuditAppend(taskId: string, log: seq<Mark>, marks: seq<Mark>)
    ensures AuditOf(taskId, log + marks) == AuditOf(taskId, log) + AuditOf(taskId, marks)
    decreases |marks|
  {
    if marks == [] {
      assert log + marks == log;
    } else {
      var init := marks[..|marks| - 1];
      assert (log + marks)[..|log + marks| - 1] == log + init;
      AuditAppend(taskId, log, init);
    }
  }

  predicate AllSucceeded(results: seq<ToolResult>) {
    forall i :: 0 <= i < |results| ==> results[i].success
  }

  /** All tools succeeded except that the last one failed if the task did. */
  predicate SucceededUpTo(results: seq<ToolResult>, failed: bool) {
    if failed then results != [] && !results[|results| - 1].success && AllSucceeded(results[..|results| - 1])
    else AllSucceeded(results)
  }

  predicate NoWriteRan(rt: Runtime, results: seq<ToolResult>) {
    forall i :: 0 <= i < |results| ==> !IsWrite(rt, results[i].tool)
  }

  /** By tool name, the outcome of the last successful invocation. */
  function ArtifactFrom(results: seq<ToolResult>): Artifact {
    if results == [] then map[]
    else
      var last, before := results[|results| - 1], ArtifactFrom(results[..|results| - 1]);
      if last.success then before[last.tool := last.data] else before
  }

  function ArtifactOption(results: seq<ToolResult>): Option<Artifact> {
    if ArtifactFrom(results) != map[] then Some(ArtifactFrom(results)) else None
  }

  /** A successful handoff was never followed or preceded by a write, and points to another domain that takes tasks. */
  predicate HandoffSound(rt: Runtime, task: Task, s: DomainState) {
    s.handoffTo.Some? ==>
      s.handoffTo.value != Supervisor && s.handoffTo.value != task.domain && NoWriteRan(rt, s.toolResults) && !s.failed
  }

  /** The flags agree with what has run so far. */
  predicate ResultsOK(rt: Runtime, task: Task, s: DomainState) {
    && SucceededUpTo(s.toolResults, s.failed)
    && (s.toolExecuted <==> s.toolResults != [])
    && s.artifact == ArtifactOption(s.toolResults)
    && (s.waitingInput ==> s.draft.Some? && !s.failed && !s.rejected)
    && (s.rejected ==> !s.failed && s.handoffTo.None?)
    && (s.node.Finishing? || s.node.Responding? ==> s.rejected || s.toolExecuted)
    && Strip(s.answer) == s.answer
    && HandoffSound(rt, task, s)
    && (s.node.Executing? && s.call.Some? && s.call.value.name == HANDOFF_TOOL ==>
          !NamesTarget(s.call.value.args, task.domain) && !HasWritten(rt, s))
  }

  /** What the parent graph may rely on, and what the result says about the run it came from. */
  predicate Sound(rt: Runtime, task: Task, log: seq<Mark>, r: DomainTaskResult) {
    && r.WellShaped() && r.taskId == task.id && r.toolResults == AuditOf(task.id, log)
    && SucceededUpTo(r.toolResults, r.status.Failed?)
    && (r.status.Completed? ==> r.toolResults != [])
    && (!r.status.HandedOff? ==> r.artifact == ArtifactOption(r.toolResults))
    && (r.status.HandedOff? ==> NoWriteRan(rt, r.toolResults) && r.handoffTo.value != task.domain)
  }

  ghost predicate OutcomeOK(rt: Runtime, task: Task, o: Observed) {
    && o.s.toolResults == AuditOf(task.id, o.log)
    && ResultsOK(rt, task, o.s)
    && (o.s.node.Done? ==> Sound(rt, task, o.log, o.s.node.result))
  }

  lemma {:induction false} NothingToAudit(taskId: string, marks: seq<Mark>)
    requires forall m <- marks :: !m.Invoked?
    ensures AuditOf(taskId, marks) == []
  {
    if marks != [] {
      NothingToAudit(taskId, marks[..|marks| - 1]);
    }
  }

  lemma DecideAudits(rt: Runtime, task: Task, s: DomainState, response: Response, cardId: string)
    ensures AuditOf(task.id, Marks(rt, task, s, ModelSaid(response, cardId))) == []
    ensures Decide(rt, task, s, response, cardId).toolResults == s.toolResults
    ensures !s.node.Done? ==> !Decide(rt, task, s, response, cardId).node.Done?
  {
    if s.iterations + 1 <= MAX_ITERATIONS {
      var marks := Marks(rt, task, s, ModelSaid(response, cardId));
      forall i | 0 <= i < |marks|
        ensures !marks[i].Invoked?
      {}
      NothingToAudit(task.id, marks);
    }
  }

  lemma StepAudits(rt: Runtime, task: Task, s: DomainState, e: Event)
    requires Enabled(rt, s, e)
    ensures Step(rt, task, s, e).toolResults == s.toolResults + AuditOf(task.id, Marks(rt, task, s, e))
    ensures Step(rt, task, s, e).node.Done? ==> e.Closed? || e.ResponderSaid?
  {
    match e
    case ModelSaid(response, cardId) => DecideAudits(rt, task, s, response, cardId);
    case UserDecided(_, _, _) => NothingToAudit(task.id, Marks(rt, task, s, e));
    case ToolReturned(_) =>
      var marks := Marks(rt, task, s, e);
      assert marks[..0] == [];
    case Closed => NothingToAudit(task.id, Marks(rt, task, s, e));
    case ResponderSaid(_, _, _) => NothingToAudit(task.id, Marks(rt, task, s, e));
  }

  lemma NamesAreDistinct(a: AgentName, b: AgentName)
    requires DomainName(a) == DomainName(b)
    ensures a == b
  {}

  lemma NoWriteBeforeHandoff(rt: Runtime, s: DomainState)
    requires AllSucceeded(s.toolResults) && !HasWritten(rt, s)
    ensures NoWriteRan(rt, s.toolResults)
  {
    forall i | 0 <= i < |s.toolResults|
      ensures !IsWrite(rt, s.toolResults[i].tool)
    {
      assert s.toolResults[i] in s.toolResults;
    }
  }

  lemma OneMoreResult(results: seq<ToolResult>, r: ToolResult)
    requires AllSucceeded(results)
    ensures SucceededUpTo(results + [r], !r.success)
    ensures ArtifactFrom(results + [r])
            == if r.success then ArtifactFrom(results)[r.tool := r.data] else ArtifactFrom(results)
  {
    assert (results + [r])[..|results|] == results;
  }

  lemma ExecuteKeepsResults(rt: Runtime, task: Task, s: DomainState, returned: Option<Outcome>)
    requires rt.Valid() && FlagsOK(rt, task, s) && ResultsOK(rt, task, s) && Enabled(rt, s, ToolReturned(returned))
    ensures ResultsOK(rt, task, Execute(rt, task, s, returned))
  {
    var call, outcome := s.call.value, OutcomeOf(s.call.value, returned);
    var next := Execute(rt, task, s, returned);
    OneMoreResult(s.toolResults, ToolResult(task.id, call.name, outcome.success, outcome));
    StripIsIdempotent(outcome.data.question);
    if next.handoffTo.Some? {
      HandoffIsSound(rt, task, s, outcome);
    }
  }

  lemma HandoffIsSound(rt: Runtime, task: Task, s: DomainState, outcome: Outcome)
    requires rt.Valid() && s.node.Executing? && FlagsOK(rt, task, s) && ResultsOK(rt, task, s)
    requires s.call.value.name == HANDOFF_TOOL && outcome.success && Returns(s.call.value, Some(outcome))
    ensures outcome.data.targetDomain.value != Supervisor && outcome.data.targetDomain.value != task.domain
    ensures NoWriteRan(rt, s.toolResults + [ToolResult(task.id, HANDOFF_TOOL, true, outcome)])
  {
    var a :| a != Supervisor && NamesTarget(s.call.value.args, a);
    if outcome.data.targetDomain.value == Supervisor {
      NamesAreDistinct(a, Supervisor);
    }
    NoWriteBeforeHandoff(rt, s);
  }

  lemma DecideKeepsResults(rt: Runtime, task: Task, s: DomainState, e: Event)
    requires rt.Valid() && FlagsOK(rt, task, s) && ResultsOK(rt, task, s) && Enabled(rt, s, e) && e.ModelSaid?
    ensures ResultsOK(rt, task, Step(rt, task, s, e))
  {
    StripIsIdempotent(e.response.content);
  }

  lemma ResultsKept(rt: Runtime, task: Task, s: DomainState, e: Event)
    requires rt.Valid() && FlagsOK(rt, task, s) && ResultsOK(rt, task, s) && Enabled(rt, s, e)
    ensures ResultsOK(rt, task, Step(rt, task, s, e))
  {
    match e
    case ModelSaid(_, _) => DecideKeepsResults(rt, task, s, e);
    case UserDecided(_, _, _) =>
    case ToolReturned(outcome) => ExecuteKeepsResults(rt, task, s, outcome);
    case Closed =>
    case ResponderSaid(_, _, _) =>
  }

  lemma {:induction false} SomeSuccessSomeArtifact(results: seq<ToolResult>)
    requires results != [] && AllSucceeded(results)
    ensures ArtifactFrom(results) != map[]
  {
    assert results[|results| - 1].success;
    assert results[|results| - 1].tool in ArtifactFrom(results);
  }

  lemma ClosingIsSound(rt: Runtime, task: Task, s: DomainState, e: Event, log: seq<Mark>)
    requires FlagsOK(rt, task, s) && ResultsOK(rt, task, s) && Enabled(rt, s, e) && (e.Closed? || e.ResponderSaid?)
    requires Step(rt, task, s, e).node.Done? && s.toolResults == AuditOf(task.id, log)
    ensures Sound(rt, task, log, Step(rt, task, s, e).node.result)
  {
    if s.toolResults != [] && !s.failed {
      SomeSuccessSomeArtifact(s.toolResults);
    }
    if e.ResponderSaid? {
      StripIsIdempotent(Chosen(e.first, e.second).value);
    }
  }

  lemma OutcomeKept(rt: Runtime, task: Task, o: Observed, e: Event)
    requires rt.Valid() && FlagsOK(rt, task, o.s) && OutcomeOK(rt, task, o) && Enabled(rt, o.s, e)
    ensures OutcomeOK(rt, task, Next(rt, task, o, e))
  {
    StepAudits(rt, task, o.s, e);
    AuditAppend(task.id, o.log, Marks(rt, task, o.s, e));
    ResultsKept(rt, task, o.s, e);
    EndIsSound(rt, task, o, e, Step(rt, task, o.s, e), o.log + Marks(rt, task, o.s, e));
  }

  lemma EndIsSound(rt: Runtime, task: Task, o: Observed, e: Event, s': DomainState, log: seq<Mark>)
    requires FlagsOK(rt, task, o.s) && ResultsOK(rt, task, o.s) && Enabled(rt, o.s, e) && s' == Step(rt, task, o.s, e)
    requires s'.toolResults == AuditOf(task.id, log) && (s'.node.Done? ==> e.Closed? || e.ResponderSaid?)
    ensures s'.node.Done? ==> Sound(rt, task, log, s'.node.result)
  {
    if s'.node.Done? {
      ClosingIsSound(rt, task, o.s, e, log);
    }
  }

  // ---- Whole runs -----------------------------------------------------------------------------

  predicate Over(s: DomainState) {
    s.node.Done? || s.node.Aborted?
  }

  ghost predicate RunInv(rt: Runtime, task: Task, o: Observed) {
    && FlagsOK(rt, task, o.s) && HistoryOK(o.s) && GateOK(rt, o) && OutcomeOK(rt, task, o)
    && (!Over(o.s) ==> VoiceOK(o))
  }

  lemma StepKeeps(rt: Runtime, task: Task, o: Observed, e: Event)
    requires rt.Valid() && RunInv(rt, task, o) && Enabled(rt, o.s, e)
    ensures RunInv(rt, task, Next(rt, task, o, e))
  {
    FlagsKept(rt, task, o.s, e);
    HistoryKept(rt, task, o.s, e);
    GateKept(rt, task, o, e);
    if !e.ResponderSaid? {
      VoiceKept(rt, task, o, e);
    }
    OutcomeKept(rt, task, o, e);
  }

  lemma FollowKeeps(rt: Runtime, task: Task, o: Observed, e: Event, o': Observed)
    requires rt.Valid() && RunInv(rt, task, o) && Follows(rt, task, o, e, o')
    ensures RunInv(rt, task, o')
  {
    StepKeeps(rt, task, o, e);
  }

  lemma BeginningIsFine(rt: Runtime, task: Task)
    ensures RunInv(rt, task, Observed(Initialize(), []))
  {
    assert [Human][1..] == [];
  }

  lemma {:induction false} RunKeeps(rt: Runtime, task: Task, trace: seq<Observed>, events: seq<Event>, n: nat)
    requires rt.Valid() && Run(rt, task, trace, events) && n < |trace|
    ensures RunInv(rt, task, trace[n])
  {
    if n == 0 {
      BeginningIsFine(rt, task);
    } else {
      RunKeeps(rt, task, trace, events, n - 1);
      FollowKeeps(rt, task, trace[n - 1], events[n - 1], trace[n]);
    }
  }

  /**
   * Whenever the model is asked again, every tool call in the history has exactly one tool message, right behind it.
   */
  lemma ModelSeesAnsweredCalls(rt: Runtime, task: Task, trace: seq<Observed>, events: seq<Event>, n: nat)
    requires rt.Valid() && Run(rt, task, trace, events) && n < |trace|
    requires trace[n].s.node.Deciding? || trace[n].s.node.Responding?
    ensures Answered(trace[n].s.messages)
  {
    RunKeeps(rt, task, trace, events, n);
  }

  /**
   * As long as a task runs, what the user saw is what is on record: the texts shown are the cards' notes, then the
   * notes held, then an answer that is about to be handed over, each once and in that order.
   */
  lemma ShownIsHeld(rt: Runtime, task: Task, trace: seq<Observed>, events: seq<Event>, n: nat)
    requires rt.Valid() && Run(rt, task, trace, events) && n < |trace| && !Over(trace[n].s)
    ensures OnRecord(trace[n])
  {
    RunKeeps(rt, task, trace, events, n);
  }

  /**
   * When it has ended, the texts shown are the cards' notes, then the result's notes, then its answer, exactly if the
   * responder, where one was asked, was heard out.
   */
  lemma ShownIsRecorded(rt: Runtime, task: Task, trace: seq<Observed>, events: seq<Event>, n: nat)
    requires rt.Valid() && Run(rt, task, trace, events) && n < |trace| && trace[n].s.node.Done?
    ensures n > 0
    ensures var r, e := trace[n].s.node.result, events[n - 1];
            ShownTexts(trace[n].log)
            == TextsOf(CardNotes(trace[n].log) + r.notes) + (if r.answer != "" then [r.answer] else [])
            <==> (e.ResponderSaid? ==> HeardOut(e.first, e.second, e.closed))
  {
    var o, e := trace[n - 1], events[n - 1];
    RunKeeps(rt, task, trace, events, n - 1);
    assert Follows(rt, task, o, e, trace[n]);
    StepAudits(rt, task, o.s, e);
    if e.Closed? {
      FinishKeepsVoice(rt, task, o);
    } else {
      RespondShows(rt, task, o, e.first, e.second, e.closed);
    }
    assert OnRecord(trace[n]) <==> (e.ResponderSaid? ==> HeardOut(e.first, e.second, e.closed));
  }

  /**
   * A run in which the two part: the only tool fails, the responder starts to write, calls the tool again all the same,
   * and is asked a second time. The user has seen the first attempt, the record holds the second.
   */
  lemma SecondAttemptUnheard(task: Task) returns (rt: Runtime, trace: seq<Observed>, events: seq<Event>)
    ensures rt.Valid() && Run(rt, task, trace, events) && |trace| == 4 && trace[3].s.node.Done?
    ensures trace[3].s.node.result.answer == "Ok" && ShownTexts(trace[3].log) == ["Hm"]
  {
    rt := LookupOnly();
    var again := ToolCall("c", "lookup", Some(map[]));
    RetryIsUnheard(again);
    trace, events := FailsAndResponds(rt, task, again, Response("Hm", [again]), Response("Ok", []));
  }

  lemma FailsAndResponds(rt: Runtime, task: Task, call: ToolCall, first: Response, second: Response)
    returns (trace: seq<Observed>, events: seq<Event>)
    requires call.name in rt.tools && rt.tools[call.name] == Tool(Read, false) && call.name != HANDOFF_TOOL
    requires call.arguments.Some? && rt.accepts(call.name, call.arguments.value)
    requires Chosen(first, second).Some? && ResponderShows(first, second, false) != ""
    ensures Run(rt, task, trace, events) && |trace| == 4 && trace[3].s.node.Done?
    ensures trace[3].s.node.result.answer == Strip(Chosen(first, second).value)
    ensures ShownTexts(trace[3].log) == [ResponderShows(first, second, false)]
  {
    events := [ModelSaid(Response("", [call]), ""), ToolReturned(None), ResponderSaid(first, second, false)];
    var failed := CallFailed(rt, task, call);
    trace := [Observed(Initialize(), []), Called(rt, task, call), failed, Next(rt, task, failed, events[2])];
    assert Follows(rt, task, trace[0], events[0], trace[1]);
    assert Follows(rt, task, trace[1], events[1], trace[2]);
    assert Follows(rt, task, trace[2], events[2], trace[3]);
    OnlyInvokedShowsNothing(failed.log);
    ResponderEnds(rt, task, failed, first, second);
  }

  lemma RetryIsUnheard(call: ToolCall)
    ensures var first, second := Response("Hm", [call]), Response("Ok", []);
            && Chosen(first, second).Some? && Strip(Chosen(first, second).value) == "Ok"
            && ResponderShows(first, second, false) == "Hm"
  {
    assert Strip("Hm") == "Hm" && Strip("Ok") == "Ok";
  }

  lemma OnlyInvokedShowsNothing(log: seq<Mark>)
    requires |log| == 1 && log[0].Invoked?
    ensures ShownTexts(log) == []
  {
    LastMark([], log[0]);
    assert log == [] + [log[0]];
  }

  lemma ResponderEnds(rt: Runtime, task: Task, o: Observed, first: Response, second: Response)
    requires o.s.node.Responding? && ShownTexts(o.log) == [] && Chosen(first, second).Some?
    requires ResponderShows(first, second, false) != ""
    ensures var next := Next(rt, task, o, ResponderSaid(first, second, false));
            && next.s.node.Done? && next.s.node.result.answer == Strip(Chosen(first, second).value)
            && ShownTexts(next.log) == [ResponderShows(first, second, false)]
  {
    ShownAfter(o.log, ResponderShows(first, second, false));
  }

  /** A domain with a single reading tool. */
  function LookupOnly(): (rt: Runtime)
    ensures rt.Valid() && rt.tools == map["lookup" := Tool(Read, false)] && rt.accepts("lookup", map[])
  {
    Runtime(map["lookup" := Tool(Read, false)], (name, args) => name == "lookup")
  }

  /** The state after the first decision of a run called a reading tool that its runtime accepts. */
  function Called(rt: Runtime, task: Task, call: ToolCall): (o: Observed)
    requires call.name in rt.tools && rt.tools[call.name] == Tool(Read, false) && call.name != HANDOFF_TOOL
    requires call.arguments.Some? && rt.accepts(call.name, call.arguments.value)
    ensures o == Next(rt, task, Observed(Initialize(), []), ModelSaid(Response("", [call]), ""))
    ensures o.s.node.Executing? && o.s.call == Some(PendingCall(call.name, call.arguments.value, call.id))
            && o.log == []
    ensures o.s.answer == "" && o.s.notes == []
  {
    Next(rt, task, Observed(Initialize(), []), ModelSaid(Response("", [call]), ""))
  }

  function CallFailed(rt: Runtime, task: Task, call: ToolCall): (o: Observed)
    requires call.name in rt.tools && rt.tools[call.name] == Tool(Read, false) && call.name != HANDOFF_TOOL
    requires call.arguments.Some? && rt.accepts(call.name, call.arguments.value)
    ensures o == Next(rt, task, Called(rt, task, call), ToolReturned(None))
    ensures o.s.node.Responding? && |o.log| == 1 && o.log[0].Invoked? && !o.s.waitingInput
  {
    Next(rt, task, Called(rt, task, call), ToolReturned(None))
  }

  /**
   * A write runs only right after the user approved, on the card just shown, this very action with these very
   * arguments; every approval leads to exactly that one invocation, unless the run is at that moment about to make it.
   */
  lemma WritesAreApproved(rt: Runtime, task: Task, trace: seq<Observed>, events: seq<Event>, n: nat, k: nat)
    requires rt.Valid() && Run(rt, task, trace, events) && n < |trace| && k < |trace[n].log|
    ensures var log := trace[n].log;
            && (log[k].Invoked? && IsWrite(rt, log[k].name) ==>
                  k >= 2 && exists card :: log[k - 2] == Asked(card) && log[k - 1] == Approved(card)
                                           && card.action == log[k].name && card.payload == log[k].args)
            && (log[k].Approved? ==>
                  if k + 1 < |log| then
                    log[k + 1].Invoked? && log[k + 1].name == log[k].card.action
                    && log[k + 1].args == log[k].card.payload
                  else trace[n].s.node.Executing?)
            && (log[k].Asked? ==>
                  MESSAGE_ARG !in log[k].card.payload && rt.accepts(log[k].card.action, log[k].card.payload))
  {
    RunKeeps(rt, task, trace, events, n);
    var log := trace[n].log;
    assert Authorised(rt, log, k) && UsedOnce(log, k) && AskedProperly(rt, log, k);
    if log[k].Invoked? && IsWrite(rt, log[k].name) {
      assert UsedOnce(log, k - 1);
      assert log[k - 2] == Asked(log[k - 1].card);
    }
  }

  /** Whatever a run returns, the turn machine may rely on it. */
  lemma EveryResultIsWellShaped(rt: Runtime, task: Task, trace: seq<Observed>, events: seq<Event>, n: nat)
    requires rt.Valid() && Run(rt, task, trace, events) && n < |trace| && trace[n].s.node.Done?
    ensures Sound(rt, task, trace[n].log, trace[n].s.node.result)
  {
    RunKeeps(rt, task, trace, events, n);
  }

  // ---- Length ---------------------------------------------------------------------------------

  /** An upper bound on the steps still to come. */
  function StepsLeft(s: DomainState): nat
    requires s.iterations <= MAX_ITERATIONS
  {
    match s.node
    case Deciding => 3 * (MAX_ITERATIONS - s.iterations) + 2
    case Confirming => 3 * (MAX_ITERATIONS - s.iterations) + 4
    case Executing => 3 * (MAX_ITERATIONS - s.iterations) + 3
    case Finishing => 1
    case Responding => 1
    case Done(_) => 0
    case Aborted => 0
  }

  lemma StepsRunOut(rt: Runtime, task: Task, s: DomainState, e: Event)
    requires FlagsOK(rt, task, s) && Enabled(rt, s, e)
    ensures Step(rt, task, s, e).iterations <= MAX_ITERATIONS
    ensures StepsLeft(Step(rt, task, s, e)) < StepsLeft(s)
  {}

  lemma FewerStepsLeft(rt: Runtime, task: Task, o: Observed, e: Event, o': Observed)
    requires FlagsOK(rt, task, o.s) && Follows(rt, task, o, e, o')
    ensures o'.s.iterations <= MAX_ITERATIONS && StepsLeft(o'.s) < StepsLeft(o.s)
  {
    StepsRunOut(rt, task, o.s, e);
  }

  lemma {:induction false} FlagsAlong(rt: Runtime, task: Task, trace: seq<Observed>, events: seq<Event>, n: nat)
    requires Run(rt, task, trace, events) && n < |trace|
    ensures FlagsOK(rt, task, trace[n].s)
  {
    if n > 0 {
      FlagsAlong(rt, task, trace, events, n - 1);
      assert Follows(rt, task, trace[n - 1], events[n - 1], trace[n]);
      FlagsKept(rt, task, trace[n - 1].s, events[n - 1]);
    }
  }

  /** No run makes more than eight decisions or takes more than 26 steps. */
  lemma {:induction false} RunsAreShort(rt: Runtime, task: Task, trace: seq<Observed>, events: seq<Event>, n: nat)
    requires Run(rt, task, trace, events) && n < |trace|
    ensures trace[n].s.iterations <= MAX_ITERATIONS && n + StepsLeft(trace[n].s) <= 3 * MAX_ITERATIONS + 2
  {
    if n > 0 {
      RunsAreShort(rt, task, trace, events, n - 1);
      FlagsAlong(rt, task, trace, events, n - 1);
      FewerStepsLeft(rt, task, trace[n - 1], events[n - 1], trace[n]);
    }
  }

  /** A task that finishes always has its answer, unless it was handed on or rejected: `finish` never raises. */
  lemma FinishNeverLacksAnAnswer(rt: Runtime, task: Task, trace: seq<Observed>, events: seq<Event>, n: nat)
    requires Run(rt, task, trace, events) && n < |events| && events[n] == Closed
    ensures trace[n + 1].s.node.Done?
  {
    FlagsAlong(rt, task, trace, events, n);
    assert Follows(rt, task, trace[n], events[n], trace[n + 1]);
  }
}
