/** Whose answer the user is reading: the agent and task named with everything the answer relay publishes. */
module RelayLabels {
  import opened Models
  import opened AnswerRelay

  /** The agent and task named by the input with which this answer began. */
  function AboutOf(inputs: seq<Input>, key: Key): string
    requires key in Order(inputs)
  {
    if key in Order(Front(inputs)) then AboutOf(Front(inputs), key) else Last(inputs).about
  }

  /** Published under the name its answer began with; and no text is published that is empty. */
  predicate Labelled(inputs: seq<Input>, o: Out) {
    o.key in Order(inputs) && o.about == AboutOf(inputs, o.key) && (o.Token? ==> o.content != "")
  }

  ghost predicate AnswersLabelled(inputs: seq<Input>, answers: map<Key, Answer>) {
    forall k <- answers :: k in Order(inputs) && answers[k].about == AboutOf(inputs, k)
  }

  predicate AllLabelled(inputs: seq<Input>, out: seq<Out>) {
    forall i :: 0 <= i < |out| ==> Labelled(inputs, out[i])
  }

  lemma LabelStays(inputs: seq<Input>, i: Input, key: Key)
    requires key in Order(inputs)
    ensures key in Order(inputs + [i]) && AboutOf(inputs + [i], key) == AboutOf(inputs, key)
  {
    SpecStep(inputs, i);
  }

  lemma AnswersStayLabelled(inputs: seq<Input>, i: Input, answers: map<Key, Answer>)
    requires AnswersLabelled(inputs, answers)
    ensures AnswersLabelled(inputs + [i], answers)
  {
    forall k | k in answers
      ensures k in Order(inputs + [i]) && answers[k].about == AboutOf(inputs + [i], k)
    {
      LabelStays(inputs, i, k);
    }
  }

  lemma OutStaysLabelled(inputs: seq<Input>, i: Input, out: seq<Out>)
    requires AllLabelled(inputs, out)
    ensures AllLabelled(inputs + [i], out)
  {
    forall n | 0 <= n < |out|
      ensures Labelled(inputs + [i], out[n])
    {
      LabelStays(inputs, i, out[n].key);
    }
  }

  lemma PushLabels(inputs: seq<Input>, s: State, key: Key)
    requires key in s.answers && s.answers[key].sent <= |s.answers[key].text|
    requires AnswersLabelled(inputs, s.answers) && AllLabelled(inputs, s.out)
    ensures AnswersLabelled(inputs, Push(s, key).answers) && AllLabelled(inputs, Push(s, key).out)
  {}

  lemma {:induction false} AdvanceLabels(inputs: seq<Input>, s: State)
    requires Keyed(s) && WithinText(s.answers)
    requires AnswersLabelled(inputs, s.answers) && AllLabelled(inputs, s.out)
    ensures AnswersLabelled(inputs, Advance(s).answers) && AllLabelled(inputs, Advance(s).out)
    decreases |s.queue|
  {
    if s.queue != [] && !Held(s, s.queue[0]) {
      var key := s.queue[0];
      PushLabels(inputs, s, key);
      PushTouchesOne(s, key);
      if s.answers[key].finished {
        AdvanceLabels(inputs, Push(s, key).(queue := s.queue[1..], active := None));
      }
    }
  }

  lemma OpenerNames(inputs: seq<Input>, i: Input, key: Key)
    requires key !in Order(inputs) && Says(inputs, i).Some? && Says(inputs, i).value.0 == key
    requires i.Message? || Says(inputs, i).value.1 != ""
    ensures key in Order(inputs + [i]) && AboutOf(inputs + [i], key) == i.about
  {
    SpecStep(inputs, i);
    assert Order(inputs + [i]) == Order(inputs) + [key];
  }

  lemma KnownKeys(inputs: seq<Input>, done: seq<Key>, s: State)
    requires BooksOK(inputs, done, s)
    ensures forall k :: k in s.answers <==> k in Order(inputs)
    ensures s.suppressed == Silenced(inputs) && s.wholes == WholeCount(inputs)
    ensures forall k <- s.answers :: k.Whole? ==> k.n <= s.wholes
  {}

  lemma ChunkLabels(inputs: seq<Input>, i: Input, s: State)
    requires i.Chunk? && AnswersLabelled(inputs, s.answers) && s.suppressed == Silenced(inputs)
    requires forall k :: k in s.answers <==> k in Order(inputs)
    ensures AnswersLabelled(inputs + [i], Taken(s, i).answers)
  {
    AnswersStayLabelled(inputs, i, s.answers);
    var key := Branch(i.ns);
    if key !in s.suppressed && !i.toolCall && key !in s.answers && i.content != "" {
      OpenerNames(inputs, i, key);
    }
  }

  lemma MessageLabels(inputs: seq<Input>, i: Input, s: State)
    requires i.Message? && AnswersLabelled(inputs, s.answers) && s.wholes == WholeCount(inputs)
    requires forall k :: k in s.answers <==> k in Order(inputs)
    requires forall k <- s.answers :: k.Whole? ==> k.n <= s.wholes
    ensures AnswersLabelled(inputs + [i], Taken(s, i).answers)
  {
    AnswersStayLabelled(inputs, i, s.answers);
    OpenerNames(inputs, i, Whole(i.task, s.wholes + 1));
  }

  /** A new answer takes the label of the input that opens it; those that exist keep theirs. */
  lemma TakingLabels(inputs: seq<Input>, i: Input, done: seq<Key>, s: State)
    requires BooksOK(inputs, done, s) && AnswersLabelled(inputs, s.answers)
    ensures AnswersLabelled(inputs + [i], Taken(s, i).answers) && Taken(s, i).out == s.out
  {
    KnownKeys(inputs, done, s);
    match i
    case Chunk(_, _, _, _, _) => ChunkLabels(inputs, i, s);
    case Message(_, _, _) => MessageLabels(inputs, i, s);
    case Flush => AnswersStayLabelled(inputs, i, s.answers);
  }

  lemma FeedLabels(inputs: seq<Input>, i: Input, done: seq<Key>, s: State)
    requires RelayOK(inputs, done, s) && AnswersLabelled(inputs, s.answers) && AllLabelled(inputs, s.out)
    ensures AnswersLabelled(inputs + [i], Feed(s, i).answers) && AllLabelled(inputs + [i], Feed(s, i).out)
  {
    TakingLabels(inputs, i, done, s);
    OutStaysLabelled(inputs, i, s.out);
    if Receive(s, i).Some? {
      var s' := Taken(s, i);
      if i.Chunk? {
        ChunkKeeps(inputs, i, done, s);
      } else {
        OthersKeep(inputs, i, done, s);
      }
      forall k | k in s'.answers
        ensures s'.answers[k].sent <= |s'.answers[k].text|
      {
        assert AnswerOK(inputs + [i], s', k);
      }
      AdvanceLabels(inputs + [i], s');
    }
  }

  /**
   * Whatever comes in, in whatever order: every start and every piece of text is published under the agent and task
   * its answer began with, however many others are being written at the same time.
   */
  lemma {:induction false} EverythingIsLabelled(inputs: seq<Input>)
    ensures AnswersLabelled(inputs, After(inputs).answers) && AllLabelled(inputs, After(inputs).out)
    decreases |inputs|
  {
    if inputs != [] {
      var before := Front(inputs);
      EverythingIsLabelled(before);
      var done := RelayKeeps(before);
      FeedLabels(before, Last(inputs), done, After(before));
      FedInTheEnd(inputs);
    }
  }
}
