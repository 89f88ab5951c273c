/**
 * The event bridge of one run (core/runs.py): a bounded log that producers append to and trim, and any number of
 * subscribers that read it through cursors of their own, in any interleaving.
 */
module RunBridge {
  import opened Models

  datatype StreamEvent<D> = StreamEvent(seqNo: nat, event: string, data: D)

  datatype Log<D> = Log(events: seq<StreamEvent<D>>, ended: bool, nextSeq: nat, startSeq: nat)

  /** What one pass of the subscriber's loop yields. */
  datatype Polled<D> =
    | Gap(requested: nat, earliest: Option<nat>, latest: Option<nat>)
    | Batch(events: seq<StreamEvent<D>>)
    | End
    | Wait

  // ---- The log --------------------------------------------------------------------------------

  function Published<D>(log: Log<D>, size: nat, event: string, data: D): Log<D>
    requires size >= 1
  {
    if log.ended then log
    else
      var events := log.events + [StreamEvent(log.nextSeq, event, data)];
      var kept := if |events| > size then events[|events| - size..] else events;
      Log(kept, false, log.nextSeq + 1, if |events| > size then kept[0].seqNo else log.startSeq)
  }

  function GapOf<D>(log: Log<D>, cursor: nat): Polled<D> {
    Gap(cursor,
        if log.events != [] then Some(log.events[0].seqNo) else None,
        if log.events != [] then Some(log.events[|log.events| - 1].seqNo) else None)
  }

  /** The part of a pass that runs under the lock, and the cursor after it. */
  function Poll<D>(log: Log<D>, cursor: nat): (Polled<D>, nat) {
    if cursor < log.startSeq then (GapOf(log, cursor), cursor)
    else if cursor < log.nextSeq then
      (Batch(if cursor - log.startSeq <= |log.events| then log.events[cursor - log.startSeq..] else []), log.nextSeq)
    else if log.ended then (End, cursor)
    else (Wait, cursor)
  }

  /** One run's stream, updated in place. */
  class RunStream<D> {
    var events: seq<StreamEvent<D>>
    var ended: bool
    var nextSeq: nat
    var startSeq: nat

    ghost function View(): Log<D>
      reads this
    {
      Log(events, ended, nextSeq, startSeq)
    }

    constructor ()
      ensures View() == Log([], false, 0, 0)
    {
      events, ended, nextSeq, startSeq := [], false, 0, 0;
    }

    method Publish(bufferSize: nat, event: string, data: D)
      requires bufferSize >= 1
      modifies this
      ensures View() == Published(old(View()), bufferSize, event, data)
    {
      if ended {
        return;
      }
      events := events + [StreamEvent(nextSeq, event, data)];
      nextSeq := nextSeq + 1;
      var overflow := |events| - bufferSize;
      if overflow > 0 {
        events := events[overflow..];
        startSeq := events[0].seqNo;
      }
    }

    method PublishEnd()
      modifies this
      ensures View() == old(View()).(ended := true)
    {
      ended := true;
    }

    /** One pass of `subscribe`'s loop for a subscriber at `cursor`. */
    method Pass(cursor: nat) returns (polled: Polled<D>, next: nat)
      ensures (polled, next) == Poll(View(), cursor)
    {
      next := cursor;
      if cursor < startSeq {
        polled := Gap(cursor, if events != [] then Some(events[0].seqNo) else None,
                      if events != [] then Some(events[|events| - 1].seqNo) else None);
      } else if cursor < nextSeq {
        var offset := cursor - startSeq;
        polled := Batch(if offset <= |events| then events[offset..] else []);
        next := nextSeq;
      } else if ended {
        polled := End;
      } else {
        polled := Wait;
      }
    }
  }

  // ---- The log against the full history -------------------------------------------------------

  /** Everything ever published, as it would be numbered. */
  type History<D> = seq<(string, D)>

  function Slice<D>(history: History<D>, from: nat, upTo: nat): (r: seq<StreamEvent<D>>)
    requires from <= upTo <= |history|
    ensures |r| == upTo - from
  {
    seq(upTo - from, i requires 0 <= i < upTo - from => StreamEvent(from + i, history[from + i].0, history[from + i].1))
  }

  function Oldest<D>(history: History<D>, size: nat): nat {
    if |history| > size then |history| - size else 0
  }

  /** The log keeps exactly the last `size` events of the history. */
  predicate LogOK<D(==)>(log: Log<D>, size: nat, history: History<D>) {
    && log.nextSeq == |history| && log.startSeq == Oldest(history, size)
    && log.events == Slice(history, log.startSeq, log.nextSeq)
  }

  lemma PublishKeepsLog<D>(log: Log<D>, size: nat, history: History<D>, event: string, data: D)
    requires size >= 1 && LogOK(log, size, history) && !log.ended
    ensures LogOK(Published(log, size, event, data), size, history + [(event, data)])
  {}

  /**
   * A poll hands out exactly what follows the cursor; it reports a gap exactly when the next event is no longer kept.
   */
  lemma {:induction false} PollReadsHistory<D>(log: Log<D>, size: nat, history: History<D>, cursor: nat)
    requires LogOK(log, size, history) && cursor <= |history|
    ensures Poll(log, cursor).0.Gap? <==> cursor + size < |history|
    ensures Poll(log, cursor).0.Gap? && size >= 1 ==>
              Poll(log, cursor).0 == Gap(cursor, Some(|history| - size), Some(|history| - 1))
    ensures Poll(log, cursor).0.Batch? ==>
              cursor < |history| && Poll(log, cursor).0.events == Slice(history, cursor, |history|)
                                           && Poll(log, cursor).1 == |history|
    ensures !Poll(log, cursor).0.Batch? ==> Poll(log, cursor).1 == cursor
    ensures Poll(log, cursor).0.End? <==> log.ended && cursor == |history|
    ensures Poll(log, cursor).0.Wait? <==> !log.ended && cursor == |history|
  {
    if Poll(log, cursor).0.Batch? {
      assert Slice(history, log.startSeq, |history|)[cursor - log.startSeq..] == Slice(history, cursor, |history|);
    }
  }

  // ---- Subscribers ----------------------------------------------------------------------------

  /** What a subscriber has been sent, in order. */
  datatype Item<D> = Sent(event: StreamEvent<D>) | Heartbeat | SentGap(requested: nat) | SentEnd

  /** A subscriber yields the events of a poll one by one and polls again when they are out. */
  datatype Subscriber<D> = Subscriber(start: nat, cursor: nat, queued: seq<StreamEvent<D>>, sent: seq<Item<D>>,
                                      closed: bool)

  datatype World<D> = World(log: Log<D>, history: History<D>, subscribers: seq<Subscriber<D>>)

  datatype Action<D> =
    | Publish(event: string, data: D)
    | PublishEnd
    | Join(lastSeq: Option<nat>)
    | Read(who: nat)
    | Yield(who: nat)
    | TimeOut(who: nat)
    | Leave(who: nat)

  function StartAfter(lastSeq: Option<nat>): nat {
    if lastSeq.Some? then lastSeq.value + 1 else 0
  }

  /** A pass of the loop; a wait ends it without anything to send. */
  function ReadStep<D>(log: Log<D>, s: Subscriber<D>): Subscriber<D> {
    var (polled, cursor) := Poll(log, s.cursor);
    match polled
    case Gap(requested, _, _) => s.(sent := s.sent + [SentGap(requested)], closed := true)
    case Batch(events) => s.(queued := events, cursor := cursor)
    case End => s.(sent := s.sent + [SentEnd], closed := true)
    case Wait => s
  }

  predicate Busy<D>(w: World<D>, who: nat) {
    who < |w.subscribers| && !w.subscribers[who].closed
  }

  /** Cursors come from the same run: a client only asks to continue after an event this run has published. */
  predicate Possible<D>(w: World<D>, a: Action<D>) {
    match a
    case Publish(_, _) => true
    case PublishEnd => true
    case Join(lastSeq) => StartAfter(lastSeq) <= |w.history|
    case Read(who) => Busy(w, who) && w.subscribers[who].queued == []
    case Yield(who) => Busy(w, who) && w.subscribers[who].queued != []
    case TimeOut(who) =>
      Busy(w, who) && w.subscribers[who].queued == [] && Poll(w.log, w.subscribers[who].cursor).0.Wait?
    case Leave(who) => Busy(w, who)
  }

  function Act<D>(w: World<D>, size: nat, a: Action<D>): World<D>
    requires size >= 1 && Possible(w, a)
  {
    match a
    case Publish(event, data) =>
      w.(log := Published(w.log, size, event, data),
         history := if w.log.ended then w.history else w.history + [(event, data)])
    case PublishEnd => w.(log := w.log.(ended := true))
    case Join(lastSeq) =>
      w.(subscribers := w.subscribers + [Subscriber(StartAfter(lastSeq), StartAfter(lastSeq), [], [], false)])
    case Read(who) => w.(subscribers := w.subscribers[who := ReadStep(w.log, w.subscribers[who])])
    case Yield(who) =>
      var s := w.subscribers[who];
      w.(subscribers := w.subscribers[who := s.(queued := s.queued[1..], sent := s.sent + [Sent(s.queued[0])])])
    case TimeOut(who) =>
      w.(subscribers := w.subscribers[who := w.subscribers[who].(sent := w.subscribers[who].sent + [Heartbeat])])
    case Leave(who) => w.(subscribers := w.subscribers[who := w.subscribers[who].(closed := true)])
  }

  function Opening<D>(): World<D> {
    World(Log([], false, 0, 0), [], [])
  }

  ghost predicate Follows<D(!new)>(w: World<D>, size: nat, a: Action<D>, w': World<D>)
    requires size >= 1
  {
    Possible(w, a) && w' == Act(w, size, a)
  }

  ghost predicate Run<D(!new)>(trace: seq<World<D>>, size: nat, actions: seq<Action<D>>)
    requires size >= 1
  {
    && |trace| == |actions| + 1 && trace[0] == Opening()
    && forall i :: 0 <= i < |actions| ==> Follows(trace[i], size, actions[i], trace[i + 1])
  }

  /** The events among the items sent. */
  function EventsOf<D>(sent: seq<Item<D>>): seq<StreamEvent<D>> {
    if sent == [] then []
    else EventsOf(sent[..|sent| - 1]) + if sent[|sent| - 1].Sent? then [sent[|sent| - 1].event] else []
  }

  lemma LastItem<D>(sent: seq<Item<D>>, item: Item<D>)
    ensures EventsOf(sent + [item]) == EventsOf(sent) + if item.Sent? then [item.event] else []
  {
    assert (sent + [item])[..|sent|] == sent;
  }

  /**
   * Sent and queued events together are the history from the start to the cursor; a gap is the last thing sent and
   * means that the next event has been trimmed; the end is sent only after the whole history.
   */
  predicate SubscriberOK<D(==)>(w: World<D>, size: nat, s: Subscriber<D>) {
    && s.start <= s.cursor <= |w.history|
    && EventsOf(s.sent) + s.queued == Slice(w.history, s.start, s.cursor)
    && (!s.closed ==> forall i :: 0 <= i < |s.sent| ==> s.sent[i].Sent? || s.sent[i].Heartbeat?)
    && forall i :: 0 <= i < |s.sent| ==>
         && (s.sent[i].SentGap? ==>
               i == |s.sent| - 1 && s.queued == [] && s.sent[i].requested == s.cursor && s.cursor + size < |w.history|)
         && (s.sent[i].SentEnd? ==> i == |s.sent| - 1 && s.queued == [] && s.cursor == |w.history| && w.log.ended)
  }

  predicate WorldOK<D(==)>(w: World<D>, size: nat) {
    LogOK(w.log, size, w.history) && forall k :: 0 <= k < |w.subscribers| ==> SubscriberOK(w, size, w.subscribers[k])
  }

  lemma LongerHistory<D>(w: World<D>, size: nat, event: string, data: D, s: Subscriber<D>)
    requires size >= 1 && SubscriberOK(w, size, s) && !w.log.ended
    ensures SubscriberOK(Act(w, size, Publish(event, data)), size, s)
  {
    assert Slice(w.history + [(event, data)], s.start, s.cursor) == Slice(w.history, s.start, s.cursor);
  }

  lemma ReadKeeps<D>(w: World<D>, size: nat, s: Subscriber<D>)
    requires LogOK(w.log, size, w.history) && SubscriberOK(w, size, s) && !s.closed && s.queued == []
    ensures SubscriberOK(w, size, ReadStep(w.log, s))
  {
    PollReadsHistory(w.log, size, w.history, s.cursor);
    var next := ReadStep(w.log, s);
    if next.sent != s.sent {
      LastItem(s.sent, next.sent[|s.sent|]);
    }
    assert Slice(w.history, s.start, s.cursor) + Slice(w.history, s.cursor, |w.history|)
           == Slice(w.history, s.start, |w.history|);
  }

  lemma YieldKeeps<D>(w: World<D>, size: nat, s: Subscriber<D>)
    requires SubscriberOK(w, size, s) && !s.closed && s.queued != []
    ensures SubscriberOK(w, size, s.(queued := s.queued[1..], sent := s.sent + [Sent(s.queued[0])]))
  {
    LastItem(s.sent, Sent(s.queued[0]));
    assert EventsOf(s.sent) + [s.queued[0]] + s.queued[1..] == EventsOf(s.sent) + s.queued;
  }

  lemma OneMoves<D>(w: World<D>, size: nat, who: nat, s: Subscriber<D>)
    requires WorldOK(w, size) && who < |w.subscribers| && SubscriberOK(w, size, s)
    ensures WorldOK(w.(subscribers := w.subscribers[who := s]), size)
  {
    var w' := w.(subscribers := w.subscribers[who := s]);
    forall k | 0 <= k < |w'.subscribers|
      ensures SubscriberOK(w', size, w'.subscribers[k])
    {
      assert SubscriberOK(w, size, w'.subscribers[k]);
    }
  }

  lemma ActKeeps<D>(w: World<D>, size: nat, a: Action<D>)
    requires size >= 1 && WorldOK(w, size) && Possible(w, a)
    ensures WorldOK(Act(w, size, a), size)
  {
    match a
    case Publish(event, data) =>
      if !w.log.ended {
        PublishKeepsLog(w.log, size, w.history, event, data);
        forall k | 0 <= k < |w.subscribers|
          ensures SubscriberOK(Act(w, size, a), size, w.subscribers[k])
        {
          LongerHistory(w, size, event, data, w.subscribers[k]);
        }
      }
    case PublishEnd =>
      forall k | 0 <= k < |w.subscribers|
        ensures SubscriberOK(Act(w, size, a), size, w.subscribers[k])
      {
        assert SubscriberOK(w, size, w.subscribers[k]);
      }
    case Join(lastSeq) =>
      var w' := Act(w, size, a);
      forall k | 0 <= k < |w'.subscribers|
        ensures SubscriberOK(w', size, w'.subscribers[k])
      {
        assert k < |w.subscribers| ==> SubscriberOK(w, size, w.subscribers[k]);
      }
    case Read(who) =>
      ReadKeeps(w, size, w.subscribers[who]);
      OneMoves(w, size, who, ReadStep(w.log, w.subscribers[who]));
    case Yield(who) =>
      YieldKeeps(w, size, w.subscribers[who]);
      OneMoves(w, size, who, Act(w, size, a).subscribers[who]);
    case TimeOut(who) =>
      LastItem(w.subscribers[who].sent, Heartbeat);
      OneMoves(w, size, who, Act(w, size, a).subscribers[who]);
    case Leave(who) => OneMoves(w, size, who, w.subscribers[who].(closed := true));
  }

  /** For every interleaving of publishes, trims, reads, deliveries, timeouts, joins and departures. */
  lemma {:induction false} RunKeeps<D(!new)>(trace: seq<World<D>>, size: nat, actions: seq<Action<D>>, n: nat)
    requires size >= 1 && Run(trace, size, actions) && n < |trace|
    ensures WorldOK(trace[n], size)
  {
    if n > 0 {
      RunKeeps(trace, size, actions, n - 1);
      assert Follows(trace[n - 1], size, actions[n - 1], trace[n]);
      ActKeeps(trace[n - 1], size, actions[n - 1]);
    }
  }

  /**
   * What any subscriber has been sent is a contiguous piece of the history from right after its cursor, nothing skipped
   * or repeated; if it has been sent the end, the piece reaches to the very last event; a gap it was sent names the
   * first event it misses, which the log no longer holds.
   */
  lemma SentIsContiguous<D(!new)>(trace: seq<World<D>>, size: nat, actions: seq<Action<D>>, n: nat, k: nat)
    requires size >= 1 && Run(trace, size, actions) && n < |trace| && k < |trace[n].subscribers|
    ensures var w, s := trace[n], trace[n].subscribers[k]; var got := EventsOf(s.sent);
            && s.start + |got| <= |w.history| && got == Slice(w.history, s.start, s.start + |got|)
            && (SentEnd in s.sent ==> s.start + |got| == |w.history| && w.log.ended)
            && forall requested: nat :: SentGap(requested) in s.sent ==>
                 requested == s.start + |got| && requested < w.log.startSeq
  {
    RunKeeps(trace, size, actions, n);
    GotASlice(trace[n], size, trace[n].subscribers[k]);
  }

  /** A subscriber that is about to read is told of a gap exactly when its next event has been trimmed. */
  lemma {:induction false} GapIffTrimmed<D(!new)>(trace: seq<World<D>>, size: nat, actions: seq<Action<D>>, n: nat,
                                                  who: nat)
    requires size >= 1 && Run(trace, size, actions) && n < |actions|
    requires actions[n] == Read(who) && who < |trace[n].subscribers|
    ensures var s := trace[n].subscribers[who];
            && who < |trace[n + 1].subscribers|
            && (SentGap(s.cursor) in trace[n + 1].subscribers[who].sent
                <==> s.cursor < |trace[n].history| && forall e <- trace[n].log.events :: e.seqNo != s.cursor)
  {
    RunKeeps(trace, size, actions, n);
    assert Follows(trace[n], size, actions[n], trace[n + 1]);
    var w := trace[n];
    var s := w.subscribers[who];
    assert SubscriberOK(w, size, s);
    PollReadsHistory(w.log, size, w.history, s.cursor);
    assert forall i :: 0 <= i < |w.log.events| ==> w.log.events[i].seqNo == w.log.startSeq + i;
    if w.log.startSeq <= s.cursor < |w.history| {
      assert w.log.events[s.cursor - w.log.startSeq] in w.log.events;
    }
  }

  // ---- Reconnecting ---------------------------------------------------------------------------

  /** What a client has to say after which event it wants to continue. */
  function LastSeen<D>(before: Option<nat>, got: seq<StreamEvent<D>>): Option<nat> {
    if got == [] then before else Some(got[|got| - 1].seqNo)
  }

  /** Each connection continues after the last event the one before it delivered. */
  ghost predicate Chained<D>(connections: seq<Subscriber<D>>, first: Option<nat>)
    decreases |connections|
  {
    connections == []
    || (connections[0].start == StartAfter(first) && Chained(connections[1..], LastSeen(first,
            EventsOf(connections[0].sent))))
  }

  function Received<D>(connections: seq<Subscriber<D>>): seq<StreamEvent<D>> {
    if connections == [] then [] else EventsOf(connections[0].sent) + Received(connections[1..])
  }

  lemma GotASlice<D>(w: World<D>, size: nat, s: Subscriber<D>)
    requires WorldOK(w, size) && s in w.subscribers
    ensures s.start + |EventsOf(s.sent)| <= |w.history|
    ensures EventsOf(s.sent) == Slice(w.history, s.start, s.start + |EventsOf(s.sent)|)
    ensures SentEnd in s.sent ==> s.start + |EventsOf(s.sent)| == |w.history| && w.log.ended
    ensures forall requested: nat :: SentGap(requested) in s.sent ==>
              requested == s.start + |EventsOf(s.sent)| && requested < w.log.startSeq
  {
    var k :| 0 <= k < |w.subscribers| && w.subscribers[k] == s;
    assert SubscriberOK(w, size, s);
    var got := EventsOf(s.sent);
    assert got == (got + s.queued)[..|got|];
    assert Slice(w.history, s.start, s.cursor)[..|got|] == Slice(w.history, s.start, s.start + |got|);
  }

  lemma SlicesJoin<D>(history: History<D>, a: nat, b: nat, c: nat)
    requires a <= b <= c <= |history|
    ensures Slice(history, a, b) + Slice(history, b, c) == Slice(history, a, c)
  {}

  lemma ContinuesAfterLast<D>(w: World<D>, size: nat, s: Subscriber<D>, before: Option<nat>)
    requires WorldOK(w, size) && s in w.subscribers && s.start == StartAfter(before)
    ensures StartAfter(LastSeen(before, EventsOf(s.sent))) == s.start + |EventsOf(s.sent)|
  {
    GotASlice(w, size, s);
  }

  /** A client that reconnects any number of times receives one contiguous piece of the history. */
  lemma {:induction false} ReconnectingContinues<D(!new)>(
    w: World<D>, size: nat, connections: seq<Subscriber<D>>, first: Option<nat>)
    requires WorldOK(w, size) && Chained(connections, first) && StartAfter(first) <= |w.history|
    requires forall s <- connections :: s in w.subscribers
    ensures StartAfter(first) + |Received(connections)| <= |w.history|
    ensures Received(connections) == Slice(w.history, StartAfter(first), StartAfter(first) + |Received(connections)|)
    decreases |connections|
  {
    if connections != [] {
      var s, from := connections[0], StartAfter(first);
      var got, rest := EventsOf(s.sent), Received(connections[1..]);
      GotASlice(w, size, s);
      ContinuesAfterLast(w, size, s, first);
      ReconnectingContinues(w, size, connections[1..], LastSeen(first, got));
      SlicesJoin(w.history, from, from + |got|, from + |got| + |rest|);
      assert Received(connections) == got + rest == Slice(w.history, from, from + |got| + |rest|);
    }
  }

  lemma {:induction false} LastConnectionReaches<D(!new)>(w: World<D>, size: nat, connections: seq<Subscriber<D>>,
          first: Option<nat>)
    requires WorldOK(w, size) && Chained(connections, first) && StartAfter(first) <= |w.history|
    requires (forall s <- connections :: s in w.subscribers) && connections != []
    requires SentEnd in connections[|connections| - 1].sent
    ensures StartAfter(first) + |Received(connections)| == |w.history|
    decreases |connections|
  {
    var s, from := connections[0], StartAfter(first);
    var got := EventsOf(s.sent);
    GotASlice(w, size, s);
    ContinuesAfterLast(w, size, s, first);
    if |connections| > 1 {
      assert connections[1..][|connections[1..]| - 1] == connections[|connections| - 1];
      LastConnectionReaches(w, size, connections[1..], LastSeen(first, got));
    } else {
      assert Received(connections) == got + Received(connections[1..]) == got;
    }
  }

  /** If the last of the chained connections was sent the end, together they were sent the whole history. */
  lemma {:induction false} ChainIsWhole<D(!new)>(w: World<D>, size: nat, connections: seq<Subscriber<D>>)
    requires WorldOK(w, size) && Chained(connections, None) && connections != []
    requires (forall s <- connections :: s in w.subscribers) && SentEnd in connections[|connections| - 1].sent
    ensures Received(connections) == Slice(w.history, 0, |w.history|)
  {
    ReconnectingContinues(w, size, connections, None);
    LastConnectionReaches(w, size, connections, None);
  }

  lemma {:induction false} ReconnectingRebuildsHistory<D(!new)>(
    trace: seq<World<D>>, size: nat, actions: seq<Action<D>>, n: nat, connections: seq<Subscriber<D>>)
    requires size >= 1 && Run(trace, size, actions) && n < |trace| && Chained(connections, None) && connections != []
    requires (forall s <- connections :: s in trace[n].subscribers) && SentEnd in connections[|connections| - 1].sent
    ensures Received(connections) == Slice(trace[n].history, 0, |trace[n].history|)
  {
    RunKeeps(trace, size, actions, n);
    ChainIsWhole(trace[n], size, connections);
  }
}
