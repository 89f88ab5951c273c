/**
 * The answer relay (`_AnswerRelay` in api/routes.py): agents working in parallel write their answers at the same time,
 * the user reads them one after another. A streaming algorithm, and the batch result it refines.
 */
module AnswerRelay {
  import opened Models

  const HOLD_CHARS := 20

  /** Streams are told apart by their branch; a message pushed whole gets a key of its own. */
  datatype Key = Branch(ns: string) | Whole(task: string, n: nat)

  datatype Answer = Answer(about: string, text: string, finished: bool, sent: nat)

  datatype Out = AnswerStart(key: Key, about: string) | Token(key: Key, about: string, content: string)

  datatype Input =
    | Chunk(ns: string, about: string, content: string, toolCall: bool, last: bool)
    | Message(task: string, about: string, text: string)
    | Flush

  datatype State = State(
    answers: map<Key, Answer>,
    queue: seq<Key>,
    suppressed: set<Key>,
    active: Option<Key>,
    wholes: nat,
    out: seq<Out>)

  const START := State(map[], [], {}, None, 0, [])

  /** Every queued key has its answer. */
  predicate Keyed(s: State) {
    forall k <- s.queue :: k in s.answers
  }

  function Finish(a: Answer): Answer {
    a.(finished := true)
  }

  // ---- The algorithm --------------------------------------------------------------------------

  function Push(s: State, key: Key): State
    requires key in s.answers
  {
    var a := s.answers[key];
    var begun := if s.active != Some(key) then s.(active := Some(key), out := s.out + [AnswerStart(key, a.about)])
                 else s;
    if |a.text| > a.sent then
      begun.(out := begun.out + [Token(key, a.about, a.text[a.sent..])],
             answers := s.answers[key := a.(sent := |a.text|)])
    else begun
  }

  predicate Held(s: State, key: Key)
    requires key in s.answers
  {
    s.active != Some(key) && !s.answers[key].finished && |s.answers[key].text| < HOLD_CHARS
  }

  /** `_advance`: sends what the answer at the head of the queue has, and goes on to the next once it is finished. */
  function Advance(s: State): State
    requires Keyed(s)
    decreases |s.queue|
  {
    if s.queue == [] then s
    else
      var key := s.queue[0];
      if Held(s, key) then s
      else if !s.answers[key].finished then Push(s, key)
      else Advance(Push(s, key).(queue := s.queue[1..], active := None))
  }

  function Append(s: State, key: Key, about: string, content: string, last: bool): State {
    var a := if key in s.answers then s.answers[key] else Answer(about, "", false, 0);
    s.(answers := s.answers[key := a.(text := a.text + content, finished := a.finished || last)],
       queue := if key in s.answers then s.queue else s.queue + [key])
  }

  function FinishAll(s: State): State {
    s.(answers := map k | k in s.answers :: Finish(s.answers[k]))
  }

  /** What an input changes before the queue advances; `None` where the code returns at once. */
  function Receive(s: State, i: Input): Option<State> {
    match i
    case Chunk(ns, about, content, toolCall, last) =>
      var key := Branch(ns);
      if key in s.suppressed then None
      else if toolCall then
        if key in s.answers then
          Some(s.(suppressed := s.suppressed + {key}, answers := s.answers[key := Finish(s.answers[key])]))
        else None
      else if key !in s.answers && content == "" then None
      else Some(Append(s, key, about, content, last))
    case Message(task, about, text) =>
      var key := Whole(task, s.wholes + 1);
      Some(s.(wholes := s.wholes + 1, answers := s.answers[key := Answer(about, text, true, 0)],
              queue := s.queue + [key]))
    case Flush => Some(FinishAll(s))
  }

  /** A tool call of a branch that has said nothing is remembered too, though nothing advances. */
  function Skipped(s: State, i: Input): State {
    if i.Chunk? && i.toolCall then s.(suppressed := s.suppressed + {Branch(i.ns)}) else s
  }

  function Taken(s: State, i: Input): State {
    if Receive(s, i).Some? then Receive(s, i).value else Skipped(s, i)
  }

  function Feed(s: State, i: Input): State
    requires Keyed(s)
  {
    var received := Receive(s, i);
    if received.Some? then Advance(received.value) else Skipped(s, i)
  }

  lemma {:induction false} AdvanceIsKeyed(s: State)
    requires Keyed(s)
    ensures Keyed(Advance(s))
    decreases |s.queue|
  {
    if s.queue != [] && !Held(s, s.queue[0]) && s.answers[s.queue[0]].finished {
      AdvanceIsKeyed(Push(s, s.queue[0]).(queue := s.queue[1..], active := None));
    }
  }

  function After(inputs: seq<Input>): (s: State)
    ensures Keyed(s)
  {
    if inputs == [] then START
    else
      var before := After(inputs[..|inputs| - 1]);
      var received := Receive(before, inputs[|inputs| - 1]);
      if received.Some? then AdvanceIsKeyed(received.value);
      Feed(before, inputs[|inputs| - 1])
      else Feed(before, inputs[|inputs| - 1])
  }

  // ---- The relay as the program updates it ----------------------------------------------------

  class Relay {
    var answers: map<Key, Answer>
    var queue: seq<Key>
    var suppressed: set<Key>
    var active: Option<Key>
    var wholes: nat
    var out: seq<Out>

    ghost function View(): State
      reads this
    {
      State(answers, queue, suppressed, active, wholes, out)
    }

    constructor ()
      ensures View() == START
    {
      answers, queue, suppressed, active, wholes, out := map[], [], {}, None, 0, [];
    }

    method AdvanceQueue()
      requires Keyed(View())
      modifies this
      ensures View() == Advance(old(View()))
    {
      while queue != []
        invariant Keyed(View())
        invariant Advance(View()) == Advance(old(View()))
        decreases |queue|
      {
        var key := queue[0];
        var answer := answers[key];
        if active != Some(key) {
          if !answer.finished && |answer.text| < HOLD_CHARS {
            return;
          }
          active := Some(key);
          out := out + [AnswerStart(key, answer.about)];
        }
        if |answer.text| > answer.sent {
          out := out + [Token(key, answer.about, answer.text[answer.sent..])];
          answers := answers[key := answer.(sent := |answer.text|)];
        }
        if !answer.finished {
          return;
        }
        queue := queue[1..];
        active := None;
      }
    }

    method TakeChunk(ns: string, about: string, content: string, toolCall: bool, last: bool)
      requires Keyed(View())
      modifies this
      ensures View() == Feed(old(View()), Chunk(ns, about, content, toolCall, last))
    {
      var key := Branch(ns);
      if key in suppressed {
        return;
      }
      if toolCall {
        suppressed := suppressed + {key};
        if key in answers {
          answers := answers[key := Finish(answers[key])];
          AdvanceQueue();
        }
        return;
      }
      if key !in answers {
        if content == "" {
          return;
        }
        answers := answers[key := Answer(about, "", false, 0)];
        queue := queue + [key];
      }
      answers := answers[key := answers[key].(text := answers[key].text + content)];
      if last {
        answers := answers[key := Finish(answers[key])];
      }
      assert View() == Append(old(View()), key, about, content, last);
      AdvanceQueue();
    }

    method TakeWhole(task: string, about: string, text: string)
      requires Keyed(View())
      modifies this
      ensures View() == Feed(old(View()), Message(task, about, text))
    {
      wholes := wholes + 1;
      var key := Whole(task, wholes);
      answers := answers[key := Answer(about, text, true, 0)];
      queue := queue + [key];
      AdvanceQueue();
    }

    method FlushAll()
      requires Keyed(View())
      modifies this
      ensures View() == Feed(old(View()), Flush)
    {
      answers := map k | k in answers :: Finish(answers[k]);
      assert View() == FinishAll(old(View()));
      AdvanceQueue();
    }
  }

  // ---- The batch result -----------------------------------------------------------------------

  function Front(inputs: seq<Input>): seq<Input>
    requires inputs != []
  {
    inputs[..|inputs| - 1]
  }

  function Last(inputs: seq<Input>): Input
    requires inputs != []
  {
    inputs[|inputs| - 1]
  }

  /** The branches that have called a tool. */
  function Silenced(inputs: seq<Input>): set<Key> {
    if inputs == [] then {}
    else
      Silenced(Front(inputs))
      + if Last(inputs).Chunk? && Last(inputs).toolCall then {Branch(Last(inputs).ns)} else {}
  }

  function WholeCount(inputs: seq<Input>): nat {
    if inputs == [] then 0 else WholeCount(Front(inputs)) + if Last(inputs).Message? then 1 else 0
  }

  /** What one input adds to what some answer says, and to which. */
  function Says(before: seq<Input>, i: Input): Option<(Key, string)> {
    match i
    case Chunk(ns, _, content, toolCall, _) =>
      if toolCall || Branch(ns) in Silenced(before) then None else Some((Branch(ns), content))
    case Message(task, _, text) => Some((Whole(task, WholeCount(before) + 1), text))
    case Flush => None
  }

  /** Everything a branch said up to its first tool call. */
  function TextOf(inputs: seq<Input>, key: Key): string {
    if inputs == [] then ""
    else
      var says := Says(Front(inputs), Last(inputs));
      TextOf(Front(inputs), key) + if says.Some? && says.value.0 == key then says.value.1 else ""
  }

  /** The answers in the order in which they began; a branch begins with its first content. */
  function Order(inputs: seq<Input>): seq<Key> {
    if inputs == [] then []
    else
      var before, says := Order(Front(inputs)), Says(Front(inputs), Last(inputs));
      if says.Some? && says.value.0 !in before && (Last(inputs).Message? || says.value.1 != "") then
        before + [says.value.0]
      else before
  }

  /** The user's screen: where each answer starts, and every character with the answer it belongs to. */
  datatype Piece = Start(key: Key) | Char(key: Key, c: char)

  function Chars(key: Key, text: string): (r: seq<Piece>)
    ensures |r| == |text|
  {
    seq(|text|, i requires 0 <= i < |text| => Char(key, text[i]))
  }

  function Flat(out: seq<Out>): seq<Piece> {
    if out == [] then []
    else
      Flat(out[..|out| - 1])
      + match out[|out| - 1]
        case AnswerStart(key, _) => [Start(key)]
        case Token(key, _, content) => Chars(key, content)
  }

  /** What should be on the screen in the end: answer after answer, each whole. */
  function Expected(inputs: seq<Input>, keys: seq<Key>): seq<Piece> {
    if keys == [] then []
    else
      var key := keys[|keys| - 1];
      Expected(inputs, keys[..|keys| - 1]) + [Start(key)] + Chars(key, TextOf(inputs, key))
  }

  // ---- Invariant ------------------------------------------------------------------------------

  function SentPart(a: Answer): string {
    if a.sent <= |a.text| then a.text[..a.sent] else a.text
  }

  /** What of these answers has been sent. */
  function SentOf(answers: map<Key, Answer>, keys: seq<Key>): seq<Piece> {
    if keys == [] then []
    else
      var key := keys[|keys| - 1];
      SentOf(answers, keys[..|keys| - 1]) + [Start(key)]
      + if key in answers then Chars(key, SentPart(answers[key])) else []
  }

  predicate NoRepeats(keys: seq<Key>) {
    forall i, j :: 0 <= i < j < |keys| ==> keys[i] != keys[j]
  }

  predicate AnswerOK(inputs: seq<Input>, s: State, k: Key) {
    k in s.answers && s.answers[k].text == TextOf(inputs, k) && s.answers[k].sent <= |s.answers[k].text|
  }

  /**
   * State and batch result agree on who spoke, in which order, and what; `done` are the answers that have left the
   * queue.
   */
  ghost predicate BooksOK(inputs: seq<Input>, done: seq<Key>, s: State) {
    && Order(inputs) == done + s.queue && NoRepeats(done + s.queue)
    && (forall k :: k in s.answers <==> k in done + s.queue)
    && (forall k <- s.answers :: AnswerOK(inputs, s, k))
    && s.suppressed == Silenced(inputs) && s.wholes == WholeCount(inputs)
    && (forall k <- s.answers :: k.Whole? ==> k.n <= s.wholes)
  }

  predicate HasKeys(s: State, keys: seq<Key>) {
    forall i :: 0 <= i < |keys| ==> keys[i] in s.answers
  }

  /** An answer may start once it is over or has something to show. */
  predicate LongEnough(a: Answer) {
    a.finished || |a.text| >= 20
  }

  /**
   * Done answers are finished; only the one in front may have begun, and only if it was long enough; the screen shows
   * exactly what has been sent.
   */
  ghost predicate ScreenOK(done: seq<Key>, s: State) {
    && HasKeys(s, done) && HasKeys(s, s.queue)
    && (forall i :: 0 <= i < |done| ==> s.answers[done[i]].finished)
    && (s.active.Some? ==> s.queue != [] && s.active.value == s.queue[0] && LongEnough(s.answers[s.active.value]))
    && (forall i :: 0 <= i < |s.queue| && s.active != Some(s.queue[i]) ==> s.answers[s.queue[i]].sent == 0)
    && Flat(s.out) == SentOf(s.answers, if s.active.Some? then done + [s.active.value] else done)
  }

  ghost predicate RelayOK(inputs: seq<Input>, done: seq<Key>, s: State) {
    BooksOK(inputs, done, s) && ScreenOK(done, s)
  }

  lemma LastOut(out: seq<Out>, o: Out)
    ensures Flat(out + [o]) == Flat(out) + match o
                                         case AnswerStart(key, _) => [Start(key)]
                                         case Token(key, _, content) => Chars(key, content)
  {
    assert (out + [o])[..|out|] == out;
  }

  lemma LastKey(answers: map<Key, Answer>, keys: seq<Key>, key: Key)
    requires key in answers
    ensures SentOf(answers, keys + [key]) == SentOf(answers, keys) + [Start(key)] + Chars(key, SentPart(answers[key]))
  {
    assert (keys + [key])[..|keys|] == keys;
  }

  lemma {:induction false} SameSent(a: map<Key, Answer>, b: map<Key, Answer>, keys: seq<Key>)
    requires forall i :: 0 <= i < |keys| ==>
               keys[i] in a && keys[i] in b && SentPart(a[keys[i]]) == SentPart(b[keys[i]])
    ensures SentOf(a, keys) == SentOf(b, keys)
    decreases |keys|
  {
    if keys != [] {
      SameSent(a, b, keys[..|keys| - 1]);
    }
  }

  // ---- Advancing ------------------------------------------------------------------------------

  lemma BeginSends(out: seq<Out>, answers: map<Key, Answer>, key: Key, done: seq<Key>)
    requires key in answers && answers[key].sent == 0 && Flat(out) == SentOf(answers, done)
    ensures Flat(out + [AnswerStart(key, answers[key].about)]) == SentOf(answers, done + [key])
  {
    LastOut(out, AnswerStart(key, answers[key].about));
    LastKey(answers, done, key);
    assert Chars(key, SentPart(answers[key])) == [];
  }

  lemma TokenSends(out: seq<Out>, answers: map<Key, Answer>, key: Key, done: seq<Key>)
    requires key in answers && answers[key].sent <= |answers[key].text| && key !in done
    requires (forall i :: 0 <= i < |done| ==> done[i] in answers) && Flat(out) == SentOf(answers, done + [key])
    ensures var a := answers[key];
            Flat(out + [Token(key, a.about, a.text[a.sent..])])
            == SentOf(answers[key := a.(sent := |a.text|)], done + [key])
  {
    var a := answers[key];
    var later := answers[key := a.(sent := |a.text|)];
    LastOut(out, Token(key, a.about, a.text[a.sent..]));
    LastKey(answers, done, key);
    LastKey(later, done, key);
    SameSent(answers, later, done);
    WholeText(key, a.text, a.sent);
    assert SentPart(later[key]) == a.text && SentPart(a) == a.text[..a.sent];
    Regroup(SentOf(answers, done) + [Start(key)], Chars(key, a.text[..a.sent]), Chars(key, a.text[a.sent..]));
  }

  lemma WholeText(key: Key, text: string, n: nat)
    requires n <= |text|
    ensures Chars(key, text[..n]) + Chars(key, text[n..]) == Chars(key, text)
  {}

  lemma Regroup(a: seq<Piece>, b: seq<Piece>, c: seq<Piece>)
    ensures a + b + c == a + (b + c)
  {}

  /** Sending what the head has: its start if it has not begun, then what is new of its text. */
  lemma PushSends(s: State, key: Key, done: seq<Key>)
    requires key in s.answers && key !in done && s.answers[key].sent <= |s.answers[key].text|
    requires forall i :: 0 <= i < |done| ==> done[i] in s.answers
    requires s.active == None || s.active == Some(key)
    requires s.active == None ==> s.answers[key].sent == 0
    requires Flat(s.out) == SentOf(s.answers, if s.active.Some? then done + [key] else done)
    ensures Flat(Push(s, key).out) == SentOf(Push(s, key).answers, done + [key])
  {
    var a := s.answers[key];
    if s.active == None {
      BeginSends(s.out, s.answers, key, done);
      PushAfterStart(s, key, s.out + [AnswerStart(key, a.about)], done);
    } else {
      PushAfterStart(s, key, s.out, done);
    }
  }

  lemma PushAfterStart(s: State, key: Key, begun: seq<Out>, done: seq<Key>)
    requires key in s.answers && key !in done && s.answers[key].sent <= |s.answers[key].text|
    requires forall i :: 0 <= i < |done| ==> done[i] in s.answers
    requires begun == if s.active == Some(key) then s.out else s.out + [AnswerStart(key, s.answers[key].about)]
    requires Flat(begun) == SentOf(s.answers, done + [key])
    ensures Flat(Push(s, key).out) == SentOf(Push(s, key).answers, done + [key])
  {
    if |s.answers[key].text| > s.answers[key].sent {
      TokenSends(begun, s.answers, key, done);
    }
  }

  /** Only how much of an answer has been sent may differ. */
  ghost predicate SameAnswers(a: map<Key, Answer>, b: map<Key, Answer>) {
    a.Keys == b.Keys && forall k <- a :: b[k] == a[k].(sent := b[k].sent)
  }

  predicate WithinText(answers: map<Key, Answer>) {
    forall k <- answers :: answers[k].sent <= |answers[k].text|
  }

  /** The head of the queue is none of the done answers and occurs in the queue only once. */
  predicate HeadIsNew(done: seq<Key>, queue: seq<Key>)
    requires queue != []
  {
    queue[0] !in done && forall i :: 0 < i < |queue| ==> queue[i] != queue[0]
  }

  lemma NoRepeatsMeansNewHead(done: seq<Key>, queue: seq<Key>)
    requires NoRepeats(done + queue) && queue != []
    ensures HeadIsNew(done, queue)
    ensures done + [queue[0]] + queue[1..] == done + queue
  {
    var all := done + queue;
    assert all[|done|] == queue[0];
    assert forall i :: 0 <= i < |done| ==> all[i] == done[i];
    assert forall i :: 0 <= i < |queue| ==> all[|done| + i] == queue[i];
  }

  lemma PushKeepsScreen(done: seq<Key>, s: State)
    requires ScreenOK(done, s) && s.queue != [] && HeadIsNew(done, s.queue) && WithinText(s.answers)
    requires !Held(s, s.queue[0])
    ensures s.queue[0] in s.answers && ScreenOK(done, Push(s, s.queue[0]))
  {
    PushTouchesOne(s, s.queue[0]);
    PushSends(s, s.queue[0], done);
  }

  lemma PushTouchesOne(s: State, key: Key)
    requires key in s.answers && WithinText(s.answers)
    ensures var p := Push(s, key);
            && p.queue == s.queue && p.active == Some(key) && p.suppressed == s.suppressed && p.wholes == s.wholes
            && p.answers == s.answers[key := s.answers[key].(sent := |s.answers[key].text|)]
            && SameAnswers(s.answers, p.answers) && WithinText(p.answers)
  {}

  lemma PopKeepsScreen(done: seq<Key>, s: State)
    requires ScreenOK(done, s) && s.queue != [] && s.active == Some(s.queue[0]) && HeadIsNew(done, s.queue)
    requires s.queue[0] in s.answers && s.answers[s.queue[0]].finished
    ensures ScreenOK(done + [s.queue[0]], s.(queue := s.queue[1..], active := None))
  {}

  /** Everything that done answers said has been sent. */
  predicate NothingLost(answers: map<Key, Answer>, done: seq<Key>) {
    forall i :: 0 <= i < |done| ==> done[i] in answers && answers[done[i]].sent == |answers[done[i]].text|
  }

  /** The head of the queue is still being written, and all it has is sent, unless it is too short to start with. */
  predicate Settled(s: State) {
    s.queue != [] ==>
      s.queue[0] in s.answers && var a := s.answers[s.queue[0]];
      !a.finished && if s.active.Some? then a.sent == |a.text| else |a.text| < HOLD_CHARS
  }

  lemma PoppedLosesNothing(a: map<Key, Answer>, b: map<Key, Answer>, done: seq<Key>, key: Key)
    requires key in a && key !in done && b == a[key := a[key].(sent := |a[key].text|)]
    ensures NothingLost(b, done + [key]) <==> NothingLost(a, done)
  {
    if NothingLost(b, done + [key]) {
      forall i | 0 <= i < |done|
        ensures done[i] in a && a[done[i]].sent == |a[done[i]].text|
      {
        assert (done + [key])[i] == done[i];
      }
    }
  }

  /** Advancing moves answers from the queue to the done ones, in order, and sends what it can. */
  lemma {:induction false} AdvanceSends(done: seq<Key>, s: State) returns (done': seq<Key>)
    requires ScreenOK(done, s) && NoRepeats(done + s.queue) && WithinText(s.answers) && Keyed(s)
    ensures ScreenOK(done', Advance(s)) && Settled(Advance(s)) && WithinText(Advance(s).answers)
    ensures done' + Advance(s).queue == done + s.queue
    ensures SameAnswers(s.answers, Advance(s).answers)
    ensures NothingLost(Advance(s).answers, done') <==> NothingLost(s.answers, done)
    ensures Advance(s).suppressed == s.suppressed && Advance(s).wholes == s.wholes
    decreases |s.queue|
  {
    done' := done;
    if s.queue != [] && !Held(s, s.queue[0]) {
      var key, p := s.queue[0], Push(s, s.queue[0]);
      NoRepeatsMeansNewHead(done, s.queue);
      PushKeepsScreen(done, s);
      PushTouchesOne(s, key);
      OthersLoseNothing(s.answers, p.answers, done, key);
      if s.answers[key].finished {
        PopKeepsScreen(done, p);
        PoppedLosesNothing(s.answers, p.answers, done, key);
        done' := AdvanceSends(done + [key], p.(queue := s.queue[1..], active := None));
      }
    }
  }

  lemma OthersLoseNothing(a: map<Key, Answer>, b: map<Key, Answer>, done: seq<Key>, key: Key)
    requires key in b && key !in done && key in a && b == a[key := b[key]]
    ensures NothingLost(b, done) <==> NothingLost(a, done)
  {}

  // ---- Taking in an input ---------------------------------------------------------------------

  lemma SpecStep(inputs: seq<Input>, i: Input)
    ensures Front(inputs + [i]) == inputs && Last(inputs + [i]) == i
  {}

  /** Who is not in the order has not said anything. */
  lemma {:induction false} SilentHasNoText(inputs: seq<Input>, key: Key)
    requires key !in Order(inputs)
    ensures TextOf(inputs, key) == ""
  {
    if inputs != [] {
      SilentHasNoText(Front(inputs), key);
    }
  }

  /** Same texts, same progress; an answer may have been finished. */
  ghost predicate SameSpeech(a: map<Key, Answer>, b: map<Key, Answer>) {
    a.Keys == b.Keys && forall k <- a :: b[k] == a[k].(finished := b[k].finished) && (a[k].finished ==> b[k].finished)
  }

  /**
   * `b` is `a` with texts that may have grown and answers that may have been finished or added; nothing more is sent.
   */
  ghost predicate Grown(a: map<Key, Answer>, b: map<Key, Answer>) {
    forall k <- a ::
      && k in b && b[k].sent == a[k].sent && SentPart(b[k]) == SentPart(a[k])
      && (a[k].finished ==> b[k].finished) && |b[k].text| >= |a[k].text|
  }

  lemma ScreenStays(done: seq<Key>, s: State, s': State)
    requires ScreenOK(done, s) && s'.active == s.active && s'.out == s.out && Grown(s.answers, s'.answers)
    requires s.queue <= s'.queue
    requires forall i :: |s.queue| <= i < |s'.queue| ==> s'.queue[i] in s'.answers && s'.answers[s'.queue[i]].sent == 0
    ensures ScreenOK(done, s')
  {
    SameSent(s.answers, s'.answers, done);
    if s.active.Some? {
      SameSent(s.answers, s'.answers, done + [s.active.value]);
    }
  }

  lemma {:induction false} QuietKeepsBooks(inputs: seq<Input>, i: Input, done: seq<Key>, s: State, s': State)
    requires BooksOK(inputs, done, s) && SameSpeech(s.answers, s'.answers) && s'.queue == s.queue
    requires s'.suppressed == Silenced(inputs + [i]) && s'.wholes == WholeCount(inputs + [i]) && s'.wholes >= s.wholes
    requires Order(inputs + [i]) == Order(inputs)
             && forall k <- s.answers :: TextOf(inputs + [i], k) == TextOf(inputs, k)
    ensures BooksOK(inputs + [i], done, s')
  {
    forall k | k in s'.answers
      ensures AnswerOK(inputs + [i], s', k)
    {
      assert AnswerOK(inputs, s, k);
    }
  }

  /** An input that says nothing: the books and the screen stay as they are. */
  lemma {:induction false} QuietKeeps(inputs: seq<Input>, i: Input, done: seq<Key>, s: State, s': State)
    requires RelayOK(inputs, done, s) && SameSpeech(s.answers, s'.answers)
    requires s'.queue == s.queue && s'.active == s.active && s'.out == s.out
    requires s'.suppressed == Silenced(inputs + [i]) && s'.wholes == WholeCount(inputs + [i]) && s'.wholes >= s.wholes
    requires Order(inputs + [i]) == Order(inputs)
             && forall k <- s.answers :: TextOf(inputs + [i], k) == TextOf(inputs, k)
    ensures RelayOK(inputs + [i], done, s')
    ensures NothingLost(s'.answers, done) <==> NothingLost(s.answers, done)
  {
    QuietKeepsBooks(inputs, i, done, s, s');
    ScreenStays(done, s, s');
  }

  lemma GrowthKeepsBooks(inputs: seq<Input>, i: Input, done: seq<Key>, s: State, key: Key, last: bool)
    requires BooksOK(inputs, done, s) && key in s.answers && i.Chunk? && Says(inputs, i) == Some((key, i.content))
    ensures BooksOK(inputs + [i], done, Append(s, key, i.about, i.content, last))
  {
    var s' := Append(s, key, i.about, i.content, last);
    SpecStep(inputs, i);
    forall k | k in s'.answers
      ensures AnswerOK(inputs + [i], s', k)
    {
      assert AnswerOK(inputs, s, k);
    }
  }

  /** More text for an answer that has begun; if it has left the queue already, that text is never sent. */
  lemma GrowthKeeps(inputs: seq<Input>, i: Input, done: seq<Key>, s: State, key: Key, last: bool)
    requires RelayOK(inputs, done, s) && key in s.answers && i.Chunk? && Says(inputs, i) == Some((key, i.content))
    ensures var s' := Append(s, key, i.about, i.content, last);
            && RelayOK(inputs + [i], done, s')
            && (NothingLost(s'.answers, done) <==> NothingLost(s.answers, done) && !(key in done && i.content != ""))
  {
    var s' := Append(s, key, i.about, i.content, last);
    GrowthKeepsBooks(inputs, i, done, s, key, last);
    assert AnswerOK(inputs, s, key);
    ScreenStays(done, s, s');
    GrowthLoses(s.answers, s'.answers, done, key);
  }

  lemma GrowthLoses(a: map<Key, Answer>, b: map<Key, Answer>, done: seq<Key>, key: Key)
    requires key in a && key in b && b == a[key := b[key]]
             && b[key].sent == a[key].sent <= |a[key].text| <= |b[key].text|
    requires forall i :: 0 <= i < |done| ==> done[i] in a
    ensures NothingLost(b, done) <==> NothingLost(a, done) && !(key in done && |b[key].text| > |a[key].text|)
  {}

  lemma NewKeyAtTheEnd(done: seq<Key>, queue: seq<Key>, key: Key)
    requires NoRepeats(done + queue) && key !in done + queue
    ensures done + (queue + [key]) == done + queue + [key] && NoRepeats(done + queue + [key])
    ensures forall k :: k in done + queue + [key] <==> k in done + queue || k == key
  {
    var all := done + queue;
    assert forall j :: 0 <= j < |all| ==> all[j] in all;
  }

  lemma OpeningKeepsBooks(inputs: seq<Input>, i: Input, done: seq<Key>, s: State, s': State, key: Key, a: Answer)
    requires BooksOK(inputs, done, s) && key !in s.answers && a.sent == 0
    requires Says(inputs, i) == Some((key, a.text)) && (i.Message? || a.text != "")
    requires s' == s.(answers := s.answers[key := a], queue := s.queue + [key], wholes := WholeCount(inputs + [i]))
    requires s.suppressed == Silenced(inputs + [i]) && (key.Whole? ==> key.n <= s'.wholes) && s'.wholes >= s.wholes
    ensures BooksOK(inputs + [i], done, s')
  {
    SpecStep(inputs, i);
    NewKeyAtTheEnd(done, s.queue, key);
    assert Order(inputs + [i]) == done + s.queue + [key];
    OpeningKeepsAnswers(inputs, i, s, s', key, a);
  }

  lemma {:induction false} OpeningKeepsAnswers(inputs: seq<Input>, i: Input, s: State, s': State, key: Key, a: Answer)
    requires (forall k <- s.answers :: AnswerOK(inputs, s, k)) && key !in s.answers && key !in Order(inputs)
             && a.sent == 0
    requires Says(inputs, i) == Some((key, a.text)) && s'.answers == s.answers[key := a]
    ensures forall k <- s'.answers :: AnswerOK(inputs + [i], s', k)
  {
    SpecStep(inputs, i);
    SilentHasNoText(inputs, key);
    forall k | k in s'.answers
      ensures AnswerOK(inputs + [i], s', k)
    {
      if k in s.answers {
        assert AnswerOK(inputs, s, k);
      }
    }
  }

  /** A new answer goes to the end of the queue. */
  lemma OpeningKeeps(inputs: seq<Input>, i: Input, done: seq<Key>, s: State, s': State, key: Key, a: Answer)
    requires RelayOK(inputs, done, s) && key !in s.answers && a.sent == 0
    requires Says(inputs, i) == Some((key, a.text)) && (i.Message? || a.text != "")
    requires s' == s.(answers := s.answers[key := a], queue := s.queue + [key], wholes := WholeCount(inputs + [i]))
    requires s.suppressed == Silenced(inputs + [i]) && (key.Whole? ==> key.n <= s'.wholes) && s'.wholes >= s.wholes
    ensures RelayOK(inputs + [i], done, s')
    ensures NothingLost(s'.answers, done) <==> NothingLost(s.answers, done)
  {
    OpeningKeepsBooks(inputs, i, done, s, s', key, a);
    OpeningKeepsScreen(done, s, s', key, a);
  }

  lemma OpeningKeepsScreen(done: seq<Key>, s: State, s': State, key: Key, a: Answer)
    requires ScreenOK(done, s) && key !in s.answers && a.sent == 0 && s'.answers == s.answers[key := a]
    requires s'.queue == s.queue + [key] && s'.active == s.active && s'.out == s.out
    ensures ScreenOK(done, s') && (NothingLost(s'.answers, done) <==> NothingLost(s.answers, done))
  {
    AddingLosesNothing(s.answers, key, a, done);
    ScreenStays(done, s, s');
  }

  lemma AddingLosesNothing(answers: map<Key, Answer>, key: Key, a: Answer, done: seq<Key>)
    requires key !in answers && forall i :: 0 <= i < |done| ==> done[i] in answers
    ensures Grown(answers, answers[key := a])
    ensures NothingLost(answers[key := a], done) <==> NothingLost(answers, done)
  {}

  /** New text for a branch whose answer has already left the queue. */
  predicate ComesLate(s: State, i: Input) {
    && i.Chunk? && i.content != "" && !i.toolCall
    && Branch(i.ns) !in s.suppressed && Branch(i.ns) in s.answers && Branch(i.ns) !in s.queue
  }

  predicate NeverLate(inputs: seq<Input>)
    decreases |inputs|
  {
    inputs != [] ==> NeverLate(Front(inputs)) && !ComesLate(After(Front(inputs)), Last(inputs))
  }

  lemma DoneOrQueued(inputs: seq<Input>, done: seq<Key>, s: State, key: Key)
    requires BooksOK(inputs, done, s) && key in s.answers
    ensures key in done <==> key !in s.queue
  {
    var all := done + s.queue;
    forall i, j | 0 <= i < |done| && 0 <= j < |s.queue|
      ensures done[i] != s.queue[j]
    {
      assert all[i] == done[i] && all[|done| + j] == s.queue[j];
    }
    assert key in all;
  }

  lemma SilencedChunkKeeps(inputs: seq<Input>, i: Input, done: seq<Key>, s: State)
    requires RelayOK(inputs, done, s) && i.Chunk? && (Branch(i.ns) in s.suppressed || i.toolCall)
    ensures RelayOK(inputs + [i], done, Taken(s, i))
            && (NothingLost(Taken(s, i).answers, done) <==> NothingLost(s.answers, done))
  {
    SilencedSaysNothing(inputs, i);
    SilencedIsQuiet(s, i);
    QuietKeeps(inputs, i, done, s, Taken(s, i));
  }

  lemma SilencedIsQuiet(s: State, i: Input)
    requires i.Chunk? && (Branch(i.ns) in s.suppressed || i.toolCall)
    ensures var s' := Taken(s, i);
            && SameSpeech(s.answers, s'.answers) && s'.queue == s.queue && s'.active == s.active && s'.out == s.out
            && s'.wholes == s.wholes && s'.suppressed == s.suppressed + if i.toolCall then {Branch(i.ns)} else {}
  {}

  lemma SilencedSaysNothing(inputs: seq<Input>, i: Input)
    requires i.Chunk? && (Branch(i.ns) in Silenced(inputs) || i.toolCall)
    ensures Order(inputs + [i]) == Order(inputs) && WholeCount(inputs + [i]) == WholeCount(inputs)
    ensures Silenced(inputs + [i]) == Silenced(inputs) + if i.toolCall then {Branch(i.ns)} else {}
    ensures forall k :: TextOf(inputs + [i], k) == TextOf(inputs, k)
  {
    SpecStep(inputs, i);
  }

  lemma SpeakingChunkKeeps(inputs: seq<Input>, i: Input, done: seq<Key>, s: State)
    requires RelayOK(inputs, done, s) && i.Chunk? && Branch(i.ns) !in s.suppressed && !i.toolCall
    ensures var s' := Taken(s, i); var key := Branch(i.ns);
            && RelayOK(inputs + [i], done, s')
            && (NothingLost(s'.answers, done) <==> NothingLost(s.answers, done) && !(key in done && i.content != ""))
  {
    SpecStep(inputs, i);
    var key := Branch(i.ns);
    if key in s.answers {
      GrowthKeeps(inputs, i, done, s, key, i.last);
    } else if i.content == "" {
      QuietKeeps(inputs, i, done, s, s);
    } else {
      FirstChunkKeeps(inputs, i, done, s);
    }
  }

  lemma FirstChunkKeeps(inputs: seq<Input>, i: Input, done: seq<Key>, s: State)
    requires RelayOK(inputs, done, s) && i.Chunk? && Branch(i.ns) !in s.suppressed && !i.toolCall
    requires Branch(i.ns) !in s.answers && i.content != ""
    ensures RelayOK(inputs + [i], done, Taken(s, i))
            && (NothingLost(Taken(s, i).answers, done) <==> NothingLost(s.answers, done))
  {
    SpecStep(inputs, i);
    assert "" + i.content == i.content;
    OpeningKeeps(inputs, i, done, s, Taken(s, i), Branch(i.ns), Answer(i.about, i.content, i.last, 0));
  }

  lemma ChunkKeeps(inputs: seq<Input>, i: Input, done: seq<Key>, s: State)
    requires RelayOK(inputs, done, s) && i.Chunk?
    ensures RelayOK(inputs + [i], done, Taken(s, i))
    ensures NothingLost(Taken(s, i).answers, done) <==> NothingLost(s.answers, done) && !ComesLate(s, i)
  {
    var key := Branch(i.ns);
    if key in s.suppressed || i.toolCall {
      SilencedChunkKeeps(inputs, i, done, s);
    } else {
      SpeakingChunkKeeps(inputs, i, done, s);
      if key in s.answers {
        DoneOrQueued(inputs, done, s, key);
      }
    }
  }

  lemma OthersKeep(inputs: seq<Input>, i: Input, done: seq<Key>, s: State)
    requires RelayOK(inputs, done, s) && !i.Chunk?
    ensures Receive(s, i).Some? && RelayOK(inputs + [i], done, Receive(s, i).value)
    ensures NothingLost(Receive(s, i).value.answers, done) <==> NothingLost(s.answers, done)
  {
    SpecStep(inputs, i);
    match i
    case Message(task, about, text) =>
      OpeningKeeps(inputs, i, done, s, Receive(s, i).value, Whole(task, s.wholes + 1), Answer(about, text, true, 0));
    case Flush => QuietKeeps(inputs, i, done, s, FinishAll(s));
  }

  lemma AdvanceKeeps(inputs: seq<Input>, done: seq<Key>, s: State) returns (done': seq<Key>)
    requires RelayOK(inputs, done, s) && Keyed(s)
    ensures RelayOK(inputs, done', Advance(s)) && Settled(Advance(s)) && SameAnswers(s.answers, Advance(s).answers)
    ensures NothingLost(Advance(s).answers, done') <==> NothingLost(s.answers, done)
  {
    forall k | k in s.answers
      ensures s.answers[k].sent <= |s.answers[k].text|
    {
      assert AnswerOK(inputs, s, k);
    }
    done' := AdvanceSends(done, s);
    var s' := Advance(s);
    forall k | k in s'.answers
      ensures AnswerOK(inputs, s', k)
    {
      assert AnswerOK(inputs, s, k) && s'.answers[k].sent <= |s'.answers[k].text|;
    }
  }

  lemma FeedKeeps(inputs: seq<Input>, i: Input, done: seq<Key>, s: State) returns (done': seq<Key>)
    requires RelayOK(inputs, done, s) && Settled(s)
    ensures RelayOK(inputs + [i], done', Feed(s, i)) && Settled(Feed(s, i))
    ensures NothingLost(Feed(s, i).answers, done') <==> NothingLost(s.answers, done) && !ComesLate(s, i)
  {
    if i.Chunk? {
      ChunkKeeps(inputs, i, done, s);
    } else {
      OthersKeep(inputs, i, done, s);
    }
    done' := done;
    if Receive(s, i).Some? {
      done' := AdvanceKeeps(inputs + [i], done, Receive(s, i).value);
    }
  }

  /** After any inputs the relay is in order: `done` are the answers it has closed. */
  lemma {:induction false} RelayKeeps(inputs: seq<Input>) returns (done: seq<Key>)
    ensures RelayOK(inputs, done, After(inputs)) && Settled(After(inputs))
    ensures NothingLost(After(inputs).answers, done) <==> NeverLate(inputs)
    decreases |inputs|
  {
    if inputs == [] {
      done := [];
    } else {
      var before, i := Front(inputs), Last(inputs);
      done := RelayKeeps(before);
      done := FeedKeeps(before, i, done, After(before));
      FedInTheEnd(inputs);
    }
  }

  lemma FedInTheEnd(inputs: seq<Input>)
    requires inputs != []
    ensures Front(inputs) + [Last(inputs)] == inputs && After(inputs) == Feed(After(Front(inputs)), Last(inputs))
  {}

  // ---- Refinement -----------------------------------------------------------------------------

  lemma {:induction false} MoreKeysExpectMore(inputs: seq<Input>, a: seq<Key>, b: seq<Key>)
    ensures Expected(inputs, a) <= Expected(inputs, a + b)
    decreases |b|
  {
    if b == [] {
      assert a + b == a;
    } else {
      assert (a + b)[..|a + b| - 1] == a + b[..|b| - 1];
      MoreKeysExpectMore(inputs, a, b[..|b| - 1]);
    }
  }

  lemma {:induction false} AllSentIsExpected(inputs: seq<Input>, answers: map<Key, Answer>, keys: seq<Key>)
    requires forall i :: 0 <= i < |keys| ==>
               keys[i] in answers && answers[keys[i]].text == TextOf(inputs, keys[i])
               && answers[keys[i]].sent == |answers[keys[i]].text|
    ensures SentOf(answers, keys) == Expected(inputs, keys)
    decreases |keys|
  {
    if keys != [] {
      var key := keys[|keys| - 1];
      AllSentIsExpected(inputs, answers, keys[..|keys| - 1]);
      assert SentPart(answers[key]) == TextOf(inputs, key);
    }
  }

  predicate TextsAgree(inputs: seq<Input>, answers: map<Key, Answer>, keys: seq<Key>) {
    forall i :: 0 <= i < |keys| ==>
      keys[i] in answers && answers[keys[i]].text == TextOf(inputs, keys[i])
      && answers[keys[i]].sent <= |answers[keys[i]].text|
  }

  lemma OneAnswerShorter(inputs: seq<Input>, answers: map<Key, Answer>, keys: seq<Key>)
    requires keys != [] && TextsAgree(inputs, answers, keys)
    ensures var init, key := keys[..|keys| - 1], keys[|keys| - 1];
            && |SentOf(answers, keys)| == |SentOf(answers, init)| + 1 + answers[key].sent
            && |Expected(inputs, keys)| == |Expected(inputs, init)| + 1 + |answers[key].text|
  {}

  lemma {:induction false} SentIsShorter(inputs: seq<Input>, answers: map<Key, Answer>, keys: seq<Key>)
    requires TextsAgree(inputs, answers, keys)
    ensures |SentOf(answers, keys)| <= |Expected(inputs, keys)|
    ensures |SentOf(answers, keys)| == |Expected(inputs, keys)| ==> NothingLost(answers, keys)
    decreases |keys|
  {
    if keys != [] {
      SentIsShorter(inputs, answers, keys[..|keys| - 1]);
      OneAnswerShorter(inputs, answers, keys);
      if |SentOf(answers, keys)| == |Expected(inputs, keys)| {
        LostNothingMore(answers, keys);
      }
    }
  }

  lemma LostNothingMore(answers: map<Key, Answer>, keys: seq<Key>)
    requires keys != [] && keys[|keys| - 1] in answers
    requires NothingLost(answers, keys[..|keys| - 1])
    requires answers[keys[|keys| - 1]].sent == |answers[keys[|keys| - 1]].text|
    ensures NothingLost(answers, keys)
  {
    assert forall i :: 0 <= i < |keys| - 1 ==> keys[..|keys| - 1][i] == keys[i];
  }

  lemma DoneInOrder(inputs: seq<Input>, done: seq<Key>, s: State)
    requires RelayOK(inputs, done, s)
    ensures TextsAgree(inputs, s.answers, done)
  {
    forall i | 0 <= i < |done|
      ensures done[i] in s.answers && AnswerOK(inputs, s, done[i])
    {}
  }

  lemma BegunIsAPrefix(inputs: seq<Input>, answers: map<Key, Answer>, done: seq<Key>, key: Key, rest: seq<Key>)
    requires SentOf(answers, done) == Expected(inputs, done) && key in answers
             && answers[key].text == TextOf(inputs, key)
    ensures SentOf(answers, done + [key]) <= Expected(inputs, done + [key] + rest)
  {
    LastKey(answers, done, key);
    assert (done + [key])[..|done|] == done;
    var begun := Expected(inputs, done) + [Start(key)];
    assert Expected(inputs, done + [key]) == begun + Chars(key, TextOf(inputs, key));
    assert Chars(key, SentPart(answers[key])) <= Chars(key, TextOf(inputs, key));
    assert SentOf(answers, done + [key]) <= Expected(inputs, done + [key]);
    MoreKeysExpectMore(inputs, done + [key], rest);
  }

  /**
   * At every moment the screen is a prefix of the batch result: answers in the order they began, each with one start,
   * each up to its first tool call, never interleaved.
   */
  lemma ScreenIsAPrefix(inputs: seq<Input>)
    requires NothingLate(inputs)
    ensures Flat(After(inputs).out) <= Expected(inputs, Order(inputs))
  {
    var done := RelayKeeps(inputs);
    NothingLateIsNeverLate(inputs);
    SentIsAPrefix(inputs, done, After(inputs));
  }

  lemma SentIsAPrefix(inputs: seq<Input>, done: seq<Key>, s: State)
    requires RelayOK(inputs, done, s) && NothingLost(s.answers, done)
    ensures Flat(s.out) <= Expected(inputs, done + s.queue)
  {
    DoneInOrder(inputs, done, s);
    AllSentIsExpected(inputs, s.answers, done);
    if s.active.Some? {
      assert AnswerOK(inputs, s, s.active.value);
      BegunIsAPrefix(inputs, s.answers, done, s.active.value, s.queue[1..]);
      HeadAndTail(done, s.queue);
    } else {
      MoreKeysExpectMore(inputs, done, s.queue);
    }
  }

  lemma HeadAndTail(done: seq<Key>, queue: seq<Key>)
    requires queue != []
    ensures done + [queue[0]] + queue[1..] == done + queue
  {}

  /** What has started is over or was long enough to start; what waits at the head has started if it is. */
  lemma ShortBeginningsAreHeld(inputs: seq<Input>)
    ensures var s := After(inputs);
            s.queue != [] ==> s.queue[0] in s.answers && (s.active.Some? <==> LongEnough(s.answers[s.queue[0]]))
  {
    var done := RelayKeeps(inputs);
  }

  lemma FlushClosesAll(inputs: seq<Input>)
    ensures After(inputs + [Flush]).queue == []
  {
    var s := After(inputs);
    SpecStep(inputs, Flush);
    var done := RelayKeeps(inputs);
    OthersKeep(inputs, Flush, done, s);
    var done' := AdvanceKeeps(inputs + [Flush], done, FinishAll(s));
  }

  /** Flushing asks nothing new of the batch result. */
  lemma {:induction false} FlushSaysNothing(inputs: seq<Input>, keys: seq<Key>)
    ensures Order(inputs + [Flush]) == Order(inputs)
    ensures Expected(inputs + [Flush], keys) == Expected(inputs, keys)
    decreases |keys|
  {
    SpecStep(inputs, Flush);
    if keys != [] {
      FlushSaysNothing(inputs, keys[..|keys| - 1]);
    }
  }

  /**
   * Once everything is flushed the screen shows the batch result of what came before, exactly if no text came for an
   * answer already closed.
   */
  lemma FlushedScreenIsComplete(inputs: seq<Input>)
    ensures Flat(After(inputs + [Flush]).out) == Expected(inputs, Order(inputs)) <==> NothingLate(inputs)
  {
    var all := inputs + [Flush];
    var s := After(all);
    SpecStep(inputs, Flush);
    FlushClosesAll(inputs);
    FlushSaysNothing(inputs, Order(inputs));
    NothingLateIsNeverLate(inputs);
    var done := RelayKeeps(all);
    assert done + [] == done;
    DoneInOrder(all, done, s);
    SentIsShorter(all, s.answers, done);
    if NeverLate(all) {
      AllSentIsExpected(all, s.answers, done);
    }
  }

  // ---- Closed answers, from the inputs alone --------------------------------------------------

  /**
   * The answer has begun and nothing more is expected of it: it was pushed whole, its call was marked as over, its
   * branch called a tool, or everything was flushed since it began.
   */
  predicate Finished(inputs: seq<Input>, key: Key)
    decreases |inputs|
  {
    && inputs != [] && key in Order(inputs)
    && (Finished(Front(inputs), key)
        || match Last(inputs)
           case Flush => true
           case Message(task, _, _) => key == Whole(task, WholeCount(Front(inputs)) + 1)
           case Chunk(ns, _, _, toolCall, last) =>
             key == Branch(ns) && key !in Silenced(Front(inputs)) && (toolCall || last))
  }

  predicate FinishedUpTo(inputs: seq<Input>, n: nat)
    requires n <= |Order(inputs)|
  {
    forall i :: 0 <= i < n ==> Finished(inputs, Order(inputs)[i])
  }

  /** The relay has closed an answer when it and every answer that began before it are finished. */
  predicate Closed(inputs: seq<Input>, key: Key) {
    exists i :: 0 <= i < |Order(inputs)| && Order(inputs)[i] == key && FinishedUpTo(inputs, i + 1)
  }

  /** New text for an answer already closed, from a branch that has called no tool. */
  predicate Late(before: seq<Input>, i: Input) {
    i.Chunk? && i.content != "" && !i.toolCall && Branch(i.ns) !in Silenced(before) && Closed(before, Branch(i.ns))
  }

  predicate NothingLate(inputs: seq<Input>)
    decreases |inputs|
  {
    inputs != [] ==> NothingLate(Front(inputs)) && !Late(Front(inputs), Last(inputs))
  }

  lemma {:induction false} AdvanceFinishesNothing(s: State)
    requires Keyed(s)
    ensures Advance(s).answers.Keys == s.answers.Keys
    ensures forall k <- s.answers :: Advance(s).answers[k].finished == s.answers[k].finished
    decreases |s.queue|
  {
    if s.queue != [] && !Held(s, s.queue[0]) && s.answers[s.queue[0]].finished {
      AdvanceFinishesNothing(Push(s, s.queue[0]).(queue := s.queue[1..], active := None));
    }
  }

  lemma FeedKeepsFinished(s: State, i: Input, key: Key)
    requires Keyed(s)
    ensures key in Feed(s, i).answers <==> key in Taken(s, i).answers
    ensures key in Taken(s, i).answers ==> Feed(s, i).answers[key].finished == Taken(s, i).answers[key].finished
  {
    if Receive(s, i).Some? {
      AdvanceIsKeyed(Receive(s, i).value);
      AdvanceFinishesNothing(Receive(s, i).value);
    }
  }

  lemma TakingFinishes(s: State, i: Input, key: Key)
    requires key in Taken(s, i).answers
    ensures Taken(s, i).answers[key].finished
            <==> (key in s.answers && s.answers[key].finished)
                 || match i
                    case Flush => true
                    case Message(task, _, _) => key == Whole(task, s.wholes + 1)
                    case Chunk(ns, _, _, toolCall, last) =>
                      key == Branch(ns) && key !in s.suppressed && (toolCall || last)
  {}

  lemma InOrderIffAnswered(inputs: seq<Input>, key: Key)
    ensures key in Order(inputs) <==> key in After(inputs).answers
  {
    var done := RelayKeeps(inputs);
  }

  /** The relay's own mark agrees with what the inputs say. */
  lemma {:induction false} FinishedAsMarked(inputs: seq<Input>, key: Key)
    requires key in Order(inputs)
    ensures key in After(inputs).answers && (After(inputs).answers[key].finished <==> Finished(inputs, key))
    decreases |inputs|
  {
    var before, i := Front(inputs), Last(inputs);
    var s := After(before);
    FedInTheEnd(inputs);
    InOrderIffAnswered(inputs, key);
    InOrderIffAnswered(before, key);
    var done := RelayKeeps(before);
    FeedKeepsFinished(s, i, key);
    TakingFinishes(s, i, key);
    if key in Order(before) {
      FinishedAsMarked(before, key);
    }
  }

  lemma FinishedPrefixIsClosed(inputs: seq<Input>, done: seq<Key>, queue: seq<Key>, key: Key)
    requires Order(inputs) == done + queue && FinishedUpTo(inputs, |done|) && NoRepeats(done + queue)
    requires queue != [] ==> !Finished(inputs, queue[0])
    ensures Closed(inputs, key) <==> key in done
  {
    var order := Order(inputs);
    if key in done {
      var i :| 0 <= i < |done| && done[i] == key;
      assert order[i] == key && FinishedUpTo(inputs, i + 1);
    }
    if Closed(inputs, key) {
      var i :| 0 <= i < |order| && order[i] == key && FinishedUpTo(inputs, i + 1);
      if i >= |done| {
        assert order[|done|] == queue[0];
      }
    }
  }

  lemma ClosedIsDone(inputs: seq<Input>, done: seq<Key>, s: State, key: Key)
    requires RelayOK(inputs, done, s) && Settled(s) && s == After(inputs)
    ensures Closed(inputs, key) <==> key in done
  {
    forall j | 0 <= j < |done|
      ensures Finished(inputs, Order(inputs)[j])
    {
      FinishedAsMarked(inputs, done[j]);
    }
    if s.queue != [] {
      FinishedAsMarked(inputs, s.queue[0]);
    }
    FinishedPrefixIsClosed(inputs, done, s.queue, key);
  }

  lemma LateComesLate(before: seq<Input>, i: Input)
    ensures Late(before, i) <==> ComesLate(After(before), i)
  {
    if i.Chunk? {
      var key := Branch(i.ns);
      var done := RelayKeeps(before);
      InOrderIffAnswered(before, key);
      if key in Order(before) {
        ClosedIsDone(before, done, After(before), key);
        DoneOrQueued(before, done, After(before), key);
      }
    }
  }

  /** Whether text comes late is decided by the inputs alone. */
  lemma {:induction false} NothingLateIsNeverLate(inputs: seq<Input>)
    ensures NothingLate(inputs) <==> NeverLate(inputs)
    decreases |inputs|
  {
    if inputs != [] {
      NothingLateIsNeverLate(Front(inputs));
      LateComesLate(Front(inputs), Last(inputs));
    }
  }

  /** No branch says anything after its answer is finished. */
  predicate EndsOnce(inputs: seq<Input>)
    decreases |inputs|
  {
    inputs != [] ==> EndsOnce(Front(inputs)) && !SpeaksOn(Front(inputs), Last(inputs))
  }

  predicate SpeaksOn(before: seq<Input>, i: Input) {
    i.Chunk? && i.content != "" && !i.toolCall && Branch(i.ns) !in Silenced(before) && Finished(before, Branch(i.ns))
  }

  /** If no branch speaks on after its end, nothing is ever late, so the relay refines the batch result. */
  lemma {:induction false} EndingOnceIsEnough(inputs: seq<Input>)
    requires EndsOnce(inputs)
    ensures NothingLate(inputs)
    decreases |inputs|
  {
    if inputs != [] {
      EndingOnceIsEnough(Front(inputs));
    }
  }

  /** Answers that begin after a flush, as those of a turn's later tasks do, are no exception: they end on their own. */
  lemma NewAnswerAfterFlush(inputs: seq<Input>, i: Input)
    requires EndsOnce(inputs) && (i.Chunk? ==> Branch(i.ns) !in Order(inputs))
    ensures EndsOnce(inputs + [Flush, i])
  {
    var flushed := inputs + [Flush];
    SpecStep(inputs, Flush);
    SpecStep(flushed, i);
    assert inputs + [Flush, i] == flushed + [i];
    FlushSaysNothing(inputs, []);
  }

  /** Otherwise text can get lost: a branch that goes on after its answer is closed is not heard any more. */
  lemma LateTextIsLost() returns (inputs: seq<Input>)
    ensures inputs == [Chunk("a", "hr", "5 days", false, true), Chunk("a", "hr", " left", false, false)]
    ensures Late([inputs[0]], inputs[1])
    ensures Flat(After(inputs + [Flush]).out) != Expected(inputs, Order(inputs))
  {
    var first, second := Chunk("a", "hr", "5 days", false, true), Chunk("a", "hr", " left", false, false);
    inputs := [first, second];
    assert Front([first]) == [] && Last([first]) == first;
    assert Order([first]) == [Branch("a")];
    assert Finished([first], Order([first])[0]);
    assert FinishedUpTo([first], 1);
    assert Front(inputs) == [first] && Last(inputs) == second;
    assert Late([first], second);
    FlushedScreenIsComplete(inputs);
  }

  // ---- One call, two attempts -----------------------------------------------------------------

  /** What one model call streams: its text, then its tool call if it makes one. */
  function Attempt(ns: string, about: string, content: string, callsTool: bool): seq<Input> {
    if callsTool then [Chunk(ns, about, content, false, false), Chunk(ns, about, "", true, true)]
    else [Chunk(ns, about, content, false, true)]
  }

  lemma {:induction false} SilencedIsNotHeard(inputs: seq<Input>, more: seq<Input>, key: Key)
    requires key in Silenced(inputs) && key.Branch?
    ensures TextOf(inputs + more, key) == TextOf(inputs, key) && key in Silenced(inputs + more)
    decreases |more|
  {
    if more == [] {
      assert inputs + more == inputs;
    } else {
      var init := more[..|more| - 1];
      assert inputs + more == inputs + init + [more[|more| - 1]];
      SilencedIsNotHeard(inputs, init, key);
      SpecStep(inputs + init, more[|more| - 1]);
    }
  }

  /**
   * A second attempt of the same call streams under the same key. After a first one that called a tool it is not heard
   * at all. After a first one that wrote something and ended, that answer is closed, and the second attempt late,
   * exactly if every answer that began earlier is finished. After one that wrote nothing the key is still unused.
   */
  lemma SecondAttempt(before: seq<Input>, ns: string, about: string, content: string, callsTool: bool,
                      second: seq<Input>)
    requires Branch(ns) !in Silenced(before) && Branch(ns) !in Order(before)
    ensures var tried := before + Attempt(ns, about, content, callsTool);
            && TextOf(tried, Branch(ns)) == content
            && (callsTool ==> TextOf(tried + second, Branch(ns)) == content)
            && (content == "" && !callsTool ==> Branch(ns) !in Order(tried))
            && (!callsTool && content != "" ==>
                  (Closed(tried, Branch(ns)) <==> FinishedUpTo(before, |Order(before)|)))
  {
    var first := Chunk(ns, about, content, false, !callsTool);
    SilentHasNoText(before, Branch(ns));
    SpecStep(before, first);
    assert "" + content == content;
    if callsTool {
      var call := Chunk(ns, about, "", true, true);
      var tried := before + [first] + [call];
      SpecStep(before + [first], call);
      assert before + Attempt(ns, about, content, callsTool) == tried;
      SilencedIsNotHeard(tried, second, Branch(ns));
    } else if content != "" {
      EndedAtTheEnd(before, first);
    }
  }

  lemma EndedAtTheEnd(before: seq<Input>, i: Input)
    requires i.Chunk? && i.last && !i.toolCall && i.content != ""
    requires Branch(i.ns) !in Silenced(before) && Branch(i.ns) !in Order(before)
    ensures Closed(before + [i], Branch(i.ns)) <==> FinishedUpTo(before, |Order(before)|)
  {
    SpecStep(before, i);
    var all, order := before + [i], Order(before);
    assert Order(all) == order + [Branch(i.ns)];
    assert forall j :: 0 <= j < |order| ==> order[j] in order && Order(all)[j] == order[j];
    assert forall j :: 0 <= j < |order| ==> (Finished(all, order[j]) <==> Finished(before, order[j]));
    assert Finished(all, Order(all)[|order|]);
    if FinishedUpTo(before, |order|) {
      assert FinishedUpTo(all, |order| + 1);
    }
    if Closed(all, Branch(i.ns)) {
      var j :| 0 <= j < |Order(all)| && Order(all)[j] == Branch(i.ns) && FinishedUpTo(all, j + 1);
      assert j == |order|;
    }
  }
}
