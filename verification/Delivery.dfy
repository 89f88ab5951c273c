/** End to end: what a run publishes is what the page sees, through the bridge and the wire. */
module Delivery {
  import opened Models
  import opened Json
  import opened RunBridge
  import opened SseFraming

  /** What `_subscribe_sse` writes for an item; the end of the run just closes the response. */
  function FramesOf(item: Item<Json>, gapNotice: Json): seq<Frame> {
    match item
    case Sent(e) => [EventFrame(Some(e.seqNo), e.event, e.data)]
    case Heartbeat => [HeartbeatFrame]
    case SentGap(_) => [EventFrame(None, "gap", gapNotice)]
    case SentEnd => []
  }

  function AllFrames(sent: seq<Item<Json>>, gapNotice: Json): seq<Frame> {
    if sent == [] then [] else AllFrames(sent[..|sent| - 1], gapNotice) + FramesOf(sent[|sent| - 1], gapNotice)
  }

  predicate Clean(e: StreamEvent<Json>) {
    CleanName(e.event) && WellFormed(e.data)
  }

  predicate CleanHistory(history: History<Json>) {
    forall i :: 0 <= i < |history| ==> CleanName(history[i].0) && WellFormed(history[i].1)
  }

  predicate NoGap(sent: seq<Item<Json>>) {
    forall i :: 0 <= i < |sent| ==> !sent[i].SentGap?
  }

  function MessagesOf(events: seq<StreamEvent<Json>>): (r: seq<Message>)
    ensures |r| == |events|
  {
    seq(|events|, i requires 0 <= i < |events| => Message(events[i].event, Dumps(events[i].data)))
  }

  lemma {:induction false} MeantAllAppend(a: seq<Frame>, b: seq<Frame>)
    ensures MeantAll(a + b) == MeantAll(a) + MeantAll(b)
  {
    if a == [] {
      assert a + b == b;
    } else {
      assert (a + b)[1..] == a[1..] + b;
      MeantAllAppend(a[1..], b);
    }
  }

  lemma MeantOne(f: Frame)
    ensures MeantAll([f]) == Meant(f)
  {
    assert [f][1..] == [];
  }

  lemma MessagesAppend(a: seq<StreamEvent<Json>>, b: seq<StreamEvent<Json>>)
    ensures MessagesOf(a + b) == MessagesOf(a) + MessagesOf(b)
  {}

  lemma OneItemMeansItsEvent(item: Item<Json>, gapNotice: Json)
    requires !item.SentGap? && (item.Sent? ==> Clean(item.event))
    ensures MeantAll(FramesOf(item, gapNotice)) == MessagesOf(if item.Sent? then [item.event] else [])
    ensures forall i :: 0 <= i < |FramesOf(item, gapNotice)| ==> Sendable(FramesOf(item, gapNotice)[i])
  {
    if FramesOf(item, gapNotice) != [] {
      MeantOne(FramesOf(item, gapNotice)[0]);
    }
  }

  predicate AllClean(events: seq<StreamEvent<Json>>) {
    forall i :: 0 <= i < |events| ==> Clean(events[i])
  }

  predicate AllSendable(frames: seq<Frame>) {
    forall i :: 0 <= i < |frames| ==> Sendable(frames[i])
  }

  lemma CleanParts(a: seq<StreamEvent<Json>>, b: seq<StreamEvent<Json>>)
    requires AllClean(a + b)
    ensures AllClean(a) && AllClean(b)
  {
    assert forall i :: 0 <= i < |a| ==> (a + b)[i] == a[i];
    assert forall i :: 0 <= i < |b| ==> (a + b)[|a| + i] == b[i];
  }

  lemma {:induction false} FramesMeanEvents(sent: seq<Item<Json>>, gapNotice: Json)
    requires NoGap(sent) && AllClean(EventsOf(sent))
    ensures MeantAll(AllFrames(sent, gapNotice)) == MessagesOf(EventsOf(sent))
            && AllSendable(AllFrames(sent, gapNotice))
  {
    if sent != [] {
      var init, last := sent[..|sent| - 1], sent[|sent| - 1];
      var event := if last.Sent? then [last.event] else [];
      CleanParts(EventsOf(init), event);
      FramesMeanEvents(init, gapNotice);
      assert last.Sent? ==> event[0] == last.event;
      OneItemMeansItsEvent(last, gapNotice);
      MeantAllAppend(AllFrames(init, gapNotice), FramesOf(last, gapNotice));
      MessagesAppend(EventsOf(init), event);
    }
  }

  lemma SentReadsBack(sent: seq<Item<Json>>, gapNotice: Json)
    requires NoGap(sent) && AllClean(EventsOf(sent))
    ensures Dispatched(EncodeAll(AllFrames(sent, gapNotice))) == MessagesOf(EventsOf(sent))
  {
    FramesMeanEvents(sent, gapNotice);
    StreamReadsBack(AllFrames(sent, gapNotice));
  }

  lemma SliceIsClean(history: History<Json>, from: nat, upTo: nat)
    requires from <= upTo <= |history| && CleanHistory(history)
    ensures AllClean(Slice(history, from, upTo))
  {}

  /**
   * The page sees exactly the piece of the history this subscriber was sent, up to its end if it was told of the end.
   */
  ghost predicate SeesItsPiece(w: World<Json>, s: Subscriber<Json>, seen: seq<Message>) {
    var upTo := s.start + |EventsOf(s.sent)|;
    && upTo <= |w.history| && seen == MessagesOf(Slice(w.history, s.start, upTo))
    && (SentEnd in s.sent ==> upTo == |w.history|)
  }

  lemma SubscriberReadsBack(w: World<Json>, size: nat, s: Subscriber<Json>, gapNotice: Json, text: string)
    requires WorldOK(w, size) && s in w.subscribers && CleanHistory(w.history) && NoGap(s.sent)
    requires text == EncodeAll(AllFrames(s.sent, gapNotice))
    ensures SeesItsPiece(w, s, Dispatched(text))
  {
    GotASlice(w, size, s);
    SliceIsClean(w.history, s.start, s.start + |EventsOf(s.sent)|);
    SentReadsBack(s.sent, gapNotice);
  }

  /**
   * For every interleaving in the bridge and every way the network cuts the text: a page that was not told of a gap
   * sees exactly the published events from its cursor on, in order, each once.
   */
  lemma PageSeesTheHistory(trace: seq<World<Json>>, size: nat, actions: seq<Action<Json>>, n: nat, k: nat,
                           gapNotice: Json, chunks: seq<string>)
    requires size >= 1 && Run(trace, size, actions) && n < |trace| && k < |trace[n].subscribers|
    requires CleanHistory(trace[n].history) && NoGap(trace[n].subscribers[k].sent)
    requires Concat(chunks) == EncodeAll(AllFrames(trace[n].subscribers[k].sent, gapNotice))
    ensures SeesItsPiece(trace[n], trace[n].subscribers[k], Dispatched(Concat(chunks)))
  {
    RunKeeps(trace, size, actions, n);
    SubscriberReadsBack(trace[n], size, trace[n].subscribers[k], gapNotice, Concat(chunks));
  }

  lemma GapHasNoEvent(sent: seq<Item<Json>>)
    requires sent != [] && sent[|sent| - 1].SentGap? && NoGap(sent[..|sent| - 1])
    ensures EventsOf(sent) == EventsOf(sent[..|sent| - 1])
  {
    assert EventsOf(sent) == EventsOf(sent[..|sent| - 1]) + [];
  }

  lemma NoticeMeans(gapNotice: Json)
    requires WellFormed(gapNotice)
    ensures Sendable(EventFrame(None, "gap", gapNotice))
    ensures MeantAll([EventFrame(None, "gap", gapNotice)]) == [Message("gap", Dumps(gapNotice))]
  {
    MeantOne(EventFrame(None, "gap", gapNotice));
  }

  lemma FramesOfGap(sent: seq<Item<Json>>, gapNotice: Json)
    requires sent != [] && sent[|sent| - 1].SentGap? && NoGap(sent[..|sent| - 1])
    requires AllClean(EventsOf(sent)) && WellFormed(gapNotice)
    ensures AllSendable(AllFrames(sent, gapNotice))
    ensures MeantAll(AllFrames(sent, gapNotice)) == MessagesOf(EventsOf(sent)) + [Message("gap", Dumps(gapNotice))]
  {
    var init, told := sent[..|sent| - 1], [EventFrame(None, "gap", gapNotice)];
    GapHasNoEvent(sent);
    FramesMeanEvents(init, gapNotice);
    NoticeMeans(gapNotice);
    MeantAllAppend(AllFrames(init, gapNotice), told);
  }

  /** A page told of a gap has seen the events before it, and then a `gap` message with its notice. */
  lemma GapIsTold(sent: seq<Item<Json>>, gapNotice: Json)
    requires sent != [] && sent[|sent| - 1].SentGap? && NoGap(sent[..|sent| - 1])
    requires AllClean(EventsOf(sent)) && WellFormed(gapNotice)
    ensures Dispatched(EncodeAll(AllFrames(sent, gapNotice)))
            == MessagesOf(EventsOf(sent)) + [Message("gap", Dumps(gapNotice))]
  {
    FramesOfGap(sent, gapNotice);
    StreamReadsBack(AllFrames(sent, gapNotice));
  }
}
