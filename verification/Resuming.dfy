/**
 * A client that resumes: it remembers the id of the last event it has read completely and, when its connection breaks
 * off, asks to continue after it (`Last-Event-ID`, section 9.2 of the WHATWG HTML standard; `_last_seq` in
 * api/routes.py).
 */
module Resuming {
  import opened Text
  import opened Models
  import opened Json
  import opened JsonReading
  import opened RunBridge
  import opened SseFraming
  import opened Delivery

  // ---- Cursors --------------------------------------------------------------------------------

  function DigitValue(c: char): (d: Option<nat>)
    ensures d.Some? ==> d.value < 10 && Digit(d.value) == c
  {
    if '0' <= c <= '9' then Some(c as int - '0' as int) else None
  }

  /** The number a string of digits stands for, as the server reads a cursor; anything else is no cursor. */
  function ReadDecimal(s: string): Option<nat> {
    if s == "" then None
    else
      var last, before := DigitValue(s[|s| - 1]), ReadDecimal(s[..|s| - 1]);
      if |s| == 1 || last.None? then (if |s| == 1 then last else None)
      else if before.Some? then Some(10 * before.value + last.value)
      else None
  }

  lemma {:induction false} DecimalReadsBack(n: nat)
    ensures ReadDecimal(Decimal(n)) == Some(n)
  {
    assert DigitValue(Digit(n % 10)) == Some(n % 10);
    if n >= 10 {
      DecimalReadsBack(n / 10);
      assert Decimal(n)[..|Decimal(n)| - 1] == Decimal(n / 10);
    }
  }

  // ---- Ids in the text read -------------------------------------------------------------------

  /** The value of a field: what follows its colon, without one leading space. */
  function FieldValue(s: string): string {
    if s != "" && s[0] == ' ' then s[1..] else s
  }

  function IdInLines(lines: seq<string>): Option<string> {
    if lines == [] then None
    else
      var last := After(lines[|lines| - 1], "id:");
      if last.Some? then Some(FieldValue(last.value)) else IdInLines(lines[..|lines| - 1])
  }

  function IdInBlocks(blocks: seq<string>): Option<string> {
    if blocks == [] then None
    else
      var last := IdInLines(SplitLines(blocks[|blocks| - 1]));
      if last.Some? then last else IdInBlocks(blocks[..|blocks| - 1])
  }

  /** The id of the last event read completely; a block that has broken off does not count. */
  function LastEventId(received: string): Option<string> {
    IdInBlocks(Finished(SplitBlocks(received)))
  }

  /**
   * Where the next connection starts: after the last id read on this one, or where this one had started if it read
   * none.
   */
  function NextStart(start: nat, received: string): nat {
    var id := LastEventId(received);
    if id.None? then start else StartAfter(ReadDecimal(id.value))
  }

  // ---- What a broken connection has read ------------------------------------------------------

  function Bodies(frames: seq<Frame>): (r: seq<string>)
    ensures |r| == |frames|
  {
    seq(|frames|, i requires 0 <= i < |frames| => Body(frames[i]))
  }

  lemma FirstBody(frames: seq<Frame>)
    requires frames != []
    ensures Bodies(frames) == [Body(frames[0])] + Bodies(frames[1..])
  {}

  lemma FirstBodies(frames: seq<Frame>, n: nat)
    requires n <= |frames|
    ensures Bodies(frames)[..n] == Bodies(frames[..n])
  {}

  lemma {:induction false} StreamBlocks(frames: seq<Frame>)
    requires AllSendable(frames)
    ensures SplitBlocks(EncodeAll(frames)) == Bodies(frames) + [""]
  {
    if frames != [] {
      StreamBlocks(frames[1..]);
      FrameThenRest(frames[0], EncodeAll(frames[1..]));
      FirstBody(frames);
    }
  }

  /** Wherever the text breaks off, the blocks read completely are those of the first so many frames. */
  lemma ReadsWholeFrames(frames: seq<Frame>, received: string, lost: string) returns (m: nat)
    requires AllSendable(frames) && received + lost == EncodeAll(frames)
    ensures m <= |frames| && Finished(SplitBlocks(received)) == Bodies(frames[..m])
    ensures lost == "" ==> m == |frames|
  {
    var blocks := Finished(SplitBlocks(received));
    m := |blocks|;
    StreamBlocks(frames);
    SplitContinues(received, lost);
    var rest := SplitBlocks(Unfinished(SplitBlocks(received)) + lost);
    assert Bodies(frames) + [""] == blocks + rest;
    assert blocks == (Bodies(frames) + [""])[..m];
    FirstBodies(frames, m);
    if lost == "" {
      assert received + lost == received;
      assert Finished(Bodies(frames) + [""]) == Bodies(frames);
    }
  }

  lemma LastMeant(frames: seq<Frame>)
    requires frames != []
    ensures MeantAll(frames) == MeantAll(frames[..|frames| - 1]) + Meant(frames[|frames| - 1])
  {
    MeantAllAppend(frames[..|frames| - 1], [frames[|frames| - 1]]);
    MeantOne(frames[|frames| - 1]);
    assert frames == frames[..|frames| - 1] + [frames[|frames| - 1]];
  }

  lemma {:induction false} BodiesReadBack(frames: seq<Frame>)
    requires AllSendable(frames)
    ensures ReadBlocks(Bodies(frames)) == MeantAll(frames)
    decreases |frames|
  {
    if frames != [] {
      var init, last := frames[..|frames| - 1], frames[|frames| - 1];
      BodiesReadBack(init);
      FrameReadsBack(last);
      FirstBodies(frames, |frames| - 1);
      LastMeant(frames);
    }
  }

  function IdOf(f: Frame): Option<string> {
    if f.EventFrame? && f.id.Some? then Some(Decimal(f.id.value)) else None
  }

  function LastIdOf(frames: seq<Frame>): Option<string> {
    if frames == [] then None
    else if IdOf(frames[|frames| - 1]).Some? then IdOf(frames[|frames| - 1])
    else LastIdOf(frames[..|frames| - 1])
  }

  lemma NoIdInLine(line: string)
    requires line != "" && line[0] != 'i'
    ensures After(line, "id:").None?
  {}

  lemma BodyIdReadsBack(f: Frame)
    requires Sendable(f)
    ensures IdInLines(SplitLines(Body(f))) == IdOf(f)
  {
    FrameIsItsLines(f);
    LinesSplitAgain(LinesOf(f));
    var lines := LinesOf(f);
    match f
    case HeartbeatFrame =>
      NoIdInLine(": heartbeat");
      assert IdInLines([]) == None && lines[..0] == [];
    case EventFrame(id, event, data) =>
      NoIdInLine("event: " + event);
      NoIdInLine("data: " + Dumps(data));
      var head := if id.Some? then ["id: " + Decimal(id.value)] else [];
      SkipFieldsWithoutId(head, "event: " + event, "data: " + Dumps(data));
      if id.Some? {
        assert ("id: " + Decimal(id.value))[..3] == "id:"
               && ("id: " + Decimal(id.value))[3..] == " " + Decimal(id.value);
        assert (" " + Decimal(id.value))[1..] == Decimal(id.value);
      }
  }

  lemma SkipFieldsWithoutId(head: seq<string>, a: string, b: string)
    requires After(a, "id:").None? && After(b, "id:").None?
    ensures IdInLines(head + [a, b]) == IdInLines(head)
  {
    assert (head + [a, b])[..|head| + 1] == head + [a] && (head + [a])[..|head|] == head;
    assert IdInLines(head + [a]) == IdInLines(head);
  }

  lemma {:induction false} IdsReadBack(frames: seq<Frame>)
    requires AllSendable(frames)
    ensures IdInBlocks(Bodies(frames)) == LastIdOf(frames)
    decreases |frames|
  {
    if frames != [] {
      BodyIdReadsBack(frames[|frames| - 1]);
      IdsReadBack(frames[..|frames| - 1]);
      FirstBodies(frames, |frames| - 1);
    }
  }

  // ---- Frames and what was sent ---------------------------------------------------------------

  /** Items that are one frame each. */
  predicate AllCarried(sent: seq<Item<Json>>) {
    forall i :: 0 <= i < |sent| ==> sent[i].Sent? || sent[i].Heartbeat?
  }

  /** Every item before the end of the run is one frame. */
  lemma {:induction false} OneFrameEach(sent: seq<Item<Json>>, gapNotice: Json)
    requires AllCarried(sent)
    ensures |AllFrames(sent, gapNotice)| == |sent|
    decreases |sent|
  {
    if sent != [] {
      OneFrameEach(sent[..|sent| - 1], gapNotice);
    }
  }

  lemma {:induction false} FramesOfPrefix(sent: seq<Item<Json>>, gapNotice: Json, n: nat)
    requires AllCarried(sent) && n <= |sent| == |AllFrames(sent, gapNotice)|
    ensures AllFrames(sent, gapNotice)[..n] == AllFrames(sent[..n], gapNotice)
    decreases |sent|
  {
    if n < |sent| {
      var init := sent[..|sent| - 1];
      OneFrameEach(init, gapNotice);
      FramesOfPrefix(init, gapNotice, n);
      assert init[..n] == sent[..n];
      assert AllFrames(sent, gapNotice)[..n] == AllFrames(init, gapNotice)[..n];
    } else {
      assert sent[..n] == sent;
    }
  }

  /** The number of the last event, as an id. */
  function LastNumber(events: seq<StreamEvent<Json>>): Option<string> {
    if events == [] then None else Some(Decimal(events[|events| - 1].seqNo))
  }

  lemma {:induction false} LastIdIsLastEvent(sent: seq<Item<Json>>, gapNotice: Json)
    requires AllCarried(sent)
    ensures LastIdOf(AllFrames(sent, gapNotice)) == LastNumber(EventsOf(sent))
    decreases |sent|
  {
    if sent != [] {
      var init, last := sent[..|sent| - 1], sent[|sent| - 1];
      LastIdIsLastEvent(init, gapNotice);
      var frames := AllFrames(sent, gapNotice);
      assert frames[..|frames| - 1] == AllFrames(init, gapNotice);
    }
  }

  /** What was sent, without the end of the run. */
  function Carried(sent: seq<Item<Json>>): (r: seq<Item<Json>>)
    ensures r <= sent
  {
    if sent != [] && sent[|sent| - 1].SentEnd? then sent[..|sent| - 1] else sent
  }

  lemma CarriedMeansTheSame(sent: seq<Item<Json>>, gapNotice: Json)
    ensures AllFrames(Carried(sent), gapNotice) == AllFrames(sent, gapNotice)
    ensures EventsOf(Carried(sent)) == EventsOf(sent)
  {
    if Carried(sent) != sent {
      assert AllFrames(sent, gapNotice) == AllFrames(Carried(sent), gapNotice) + [];
      assert EventsOf(sent) == EventsOf(Carried(sent)) + [];
    }
  }

  lemma {:induction false} EventsOfPrefix(sent: seq<Item<Json>>, m: nat)
    requires m <= |sent|
    ensures EventsOf(sent[..m]) <= EventsOf(sent)
    decreases |sent|
  {
    if m < |sent| {
      EventsOfPrefix(sent[..|sent| - 1], m);
      assert sent[..|sent| - 1][..m] == sent[..m];
    } else {
      assert sent[..m] == sent;
    }
  }

  // ---- One connection -------------------------------------------------------------------------

  /** What the client read on a connection: the text up to wherever it broke off. */
  datatype Connection = Connection(subscriber: Subscriber<Json>, received: string, lost: string)

  /** The connection was told the end, and nothing of it got lost. */
  predicate ReadToTheEnd(c: Connection) {
    c.lost == "" && SentEnd in c.subscriber.sent
  }

  ghost predicate Possible(w: World<Json>, gapNotice: Json, c: Connection) {
    c.subscriber in w.subscribers && NoGap(c.subscriber.sent)
    && c.received + c.lost == EncodeAll(AllFrames(c.subscriber.sent, gapNotice))
  }

  /** Whole items read back: the messages of their events, and the number of the last one. */
  lemma ItemsReadBack(sent: seq<Item<Json>>, gapNotice: Json, received: string)
    requires AllCarried(sent) && AllClean(EventsOf(sent))
    requires Finished(SplitBlocks(received)) == Bodies(AllFrames(sent, gapNotice))
    ensures Dispatched(received) == MessagesOf(EventsOf(sent)) && LastEventId(received) == LastNumber(EventsOf(sent))
  {
    FramesMeanEvents(sent, gapNotice);
    BodiesReadBack(AllFrames(sent, gapNotice));
    IdsReadBack(AllFrames(sent, gapNotice));
    LastIdIsLastEvent(sent, gapNotice);
  }

  lemma CleanPrefix(all: seq<StreamEvent<Json>>, part: seq<StreamEvent<Json>>)
    requires AllClean(all) && part <= all
    ensures AllClean(part)
  {
    assert forall i :: 0 <= i < |part| ==> part[i] == all[i];
  }

  lemma ReadsAPrefix(sent: seq<Item<Json>>, gapNotice: Json, received: string, lost: string) returns (m: nat)
    requires AllCarried(sent) && AllClean(EventsOf(sent)) && received + lost == EncodeAll(AllFrames(sent, gapNotice))
    ensures m <= |sent| && (lost == "" ==> m == |sent|)
    ensures Dispatched(received) == MessagesOf(EventsOf(sent[..m]))
    ensures LastEventId(received) == LastNumber(EventsOf(sent[..m]))
  {
    FramesMeanEvents(sent, gapNotice);
    OneFrameEach(sent, gapNotice);
    m := ReadsWholeFrames(AllFrames(sent, gapNotice), received, lost);
    FramesOfPrefix(sent, gapNotice, m);
    EventsOfPrefix(sent, m);
    CleanPrefix(EventsOf(sent), EventsOf(sent[..m]));
    ItemsReadBack(sent[..m], gapNotice, received);
  }

  /** These events are the piece of the history that begins at `start`. */
  predicate IsPiece(history: History<Json>, start: nat, events: seq<StreamEvent<Json>>) {
    && start + |events| <= |history|
    && forall i :: 0 <= i < |events| ==> events[i] == StreamEvent(start + i, history[start + i].0, history[start + i].1)
  }

  /** These messages are the events of the history from `start` on, in order, each once. */
  predicate SeenFrom(history: History<Json>, start: nat, seen: seq<Message>) {
    && start + |seen| <= |history|
    && forall i :: 0 <= i < |seen| ==> seen[i] == Message(history[start + i].0, Dumps(history[start + i].1))
  }

  /** Each message holds its event's data: parsed, it is that value again. */
  lemma SeenDataReadsBack(history: History<Json>, start: nat, seen: seq<Message>, i: nat)
    requires SeenFrom(history, start, seen) && i < |seen| && Readable(history[start + i].1)
    ensures seen[i].event == history[start + i].0
    ensures ReadJson(seen[i].data) == JsonReading.Read.Read(history[start + i].1, "")
  {
    assert seen[i] == Message(history[start + i].0, Dumps(history[start + i].1));
    DumpsReadsBack(history[start + i].1, "");
    assert Dumps(history[start + i].1) + "" == Dumps(history[start + i].1);
  }

  lemma PieceIsClean(history: History<Json>, start: nat, events: seq<StreamEvent<Json>>)
    requires IsPiece(history, start, events) && CleanHistory(history)
    ensures AllClean(events)
  {}

  lemma PrefixIsSeen(history: History<Json>, start: nat, all: seq<StreamEvent<Json>>, part: seq<StreamEvent<Json>>)
    requires IsPiece(history, start, all) && part <= all
    ensures SeenFrom(history, start, MessagesOf(part))
    ensures part != [] ==> part[|part| - 1].seqNo == start + |part| - 1
  {
    assert forall i :: 0 <= i < |part| ==> part[i] == all[i];
  }

  lemma NextStartReadsBack(start: nat, received: string, n: nat)
    requires LastEventId(received) == if n == 0 then None else Some(Decimal(start + n - 1))
    ensures NextStart(start, received) == start + n
  {
    if n > 0 {
      DecimalReadsBack(start + n - 1);
    }
  }

  /**
   * What was read of a piece of the history is the beginning of that piece, and the last id read tells where it ends.
   */
  lemma ReadsAPiece(history: History<Json>, start: nat, sent: seq<Item<Json>>, gapNotice: Json, received: string,
                    lost: string)
    requires AllCarried(Carried(sent)) && received + lost == EncodeAll(AllFrames(sent, gapNotice))
    requires IsPiece(history, start, EventsOf(sent)) && CleanHistory(history)
    ensures var seen := Dispatched(received);
            && SeenFrom(history, start, seen) && NextStart(start, received) == start + |seen|
            && (lost == "" ==> |seen| == |EventsOf(sent)|)
  {
    var carried := Carried(sent);
    PieceIsClean(history, start, EventsOf(sent));
    CarriedMeansTheSame(sent, gapNotice);
    var m := ReadsAPrefix(carried, gapNotice, received, lost);
    var part := EventsOf(carried[..m]);
    EventsOfPrefix(carried, m);
    assert carried[..|carried|] == carried;
    PrefixIsSeen(history, start, EventsOf(sent), part);
    NextStartReadsBack(start, received, |part|);
  }

  /**
   * What the client made of a connection: where it started, what it saw, where it would go on, whether it read the
   * end.
   */
  datatype Reading = Reading(start: nat, seen: seq<Message>, next: nat, whole: bool)

  function ReadingOf(c: Connection): Reading {
    Reading(c.subscriber.start, Dispatched(c.received), NextStart(c.subscriber.start, c.received), ReadToTheEnd(c))
  }

  /** It saw a piece of the history, it knows how far that goes, and if it read the end it goes to the end. */
  predicate SeesAPiece(history: History<Json>, r: Reading) {
    && SeenFrom(history, r.start, r.seen) && r.next == r.start + |r.seen|
    && (r.whole ==> r.next == |history|)
  }

  /** A client that breaks off has seen a piece of the history, and knows how far it goes. */
  lemma ConnectionSeesAPiece(w: World<Json>, size: nat, gapNotice: Json, c: Connection)
    requires WorldOK(w, size) && CleanHistory(w.history) && Possible(w, gapNotice, c)
    ensures SeesAPiece(w.history, ReadingOf(c))
  {
    var s := c.subscriber;
    GotASlice(w, size, s);
    SliceIsPiece(w.history, s.start, EventsOf(s.sent));
    OnlyTheEndIsNotCarried(w, size, s);
    ReadsAPiece(w.history, s.start, s.sent, gapNotice, c.received, c.lost);
  }

  lemma SliceIsPiece(history: History<Json>, start: nat, events: seq<StreamEvent<Json>>)
    requires start + |events| <= |history| && events == Slice(history, start, start + |events|)
    ensures IsPiece(history, start, events)
  {}

  lemma OnlyTheEndIsNotCarried(w: World<Json>, size: nat, s: Subscriber<Json>)
    requires WorldOK(w, size) && s in w.subscribers && NoGap(s.sent)
    ensures AllCarried(Carried(s.sent))
  {
    var k :| 0 <= k < |w.subscribers| && w.subscribers[k] == s;
    assert SubscriberOK(w, size, s);
  }

  // ---- Reconnecting ---------------------------------------------------------------------------

  function Readings(connections: seq<Connection>): (r: seq<Reading>)
    ensures |r| == |connections|
  {
    seq(|connections|, i requires 0 <= i < |connections| => ReadingOf(connections[i]))
  }

  /** Each connection starts where the text read on the one before says. */
  predicate Resumes(readings: seq<Reading>, start: nat) {
    readings == [] || (readings[0].start == start && Resumes(readings[1..], readings[0].next))
  }

  /** Everything the client has seen, over all its connections. */
  function Seen(readings: seq<Reading>): seq<Message> {
    if readings == [] then [] else readings[0].seen + Seen(readings[1..])
  }

  lemma PiecesJoin(history: History<Json>, start: nat, a: seq<Message>, b: seq<Message>)
    requires SeenFrom(history, start, a) && SeenFrom(history, start + |a|, b)
    ensures SeenFrom(history, start, a + b)
  {
    forall i | 0 <= i < |a + b|
      ensures (a + b)[i] == Message(history[start + i].0, Dumps(history[start + i].1))
    {
      if i >= |a| {
        assert b[i - |a|] == Message(history[start + |a| + (i - |a|)].0, Dumps(history[start + |a| + (i - |a|)].1));
      }
    }
  }

  lemma {:induction false} ResumingContinues(history: History<Json>, readings: seq<Reading>, start: nat)
    requires Resumes(readings, start) && start <= |history|
    requires forall i :: 0 <= i < |readings| ==> SeesAPiece(history, readings[i])
    ensures SeenFrom(history, start, Seen(readings))
    ensures readings != [] && readings[|readings| - 1].whole ==> start + |Seen(readings)| == |history|
    decreases |readings|
  {
    if readings != [] {
      var first, rest := readings[0], readings[1..];
      assert SeesAPiece(history, first);
      assert forall i :: 0 <= i < |rest| ==> rest[i] == readings[i + 1];
      ResumingContinues(history, rest, first.next);
      PiecesJoin(history, start, first.seen, Seen(rest));
    }
  }

  /**
   * For every interleaving in the bridge, wherever each connection breaks off, inside a frame or not: a client that
   * resumes after the last id it has read, without being told of a gap, has seen the history from the beginning without
   * skipping or repeating anything, and all of it once it has read a connection to the end.
   */
  lemma ResumingClientSeesTheHistory(trace: seq<World<Json>>, size: nat, actions: seq<Action<Json>>, n: nat,
                                     connections: seq<Connection>, gapNotice: Json)
    requires size >= 1 && Run(trace, size, actions) && n < |trace| && CleanHistory(trace[n].history)
    requires forall i :: 0 <= i < |connections| ==> Possible(trace[n], gapNotice, connections[i])
    requires Resumes(Readings(connections), 0)
    ensures var seen := Seen(Readings(connections));
            && SeenFrom(trace[n].history, 0, seen)
            && (connections != [] && ReadToTheEnd(connections[|connections| - 1]) ==> |seen| == |trace[n].history|)
  {
    var readings := Readings(connections);
    RunKeeps(trace, size, actions, n);
    forall i | 0 <= i < |readings|
      ensures SeesAPiece(trace[n].history, readings[i])
    {
      ConnectionSeesAPiece(trace[n], size, gapNotice, connections[i]);
    }
    ResumingContinues(trace[n].history, readings, 0);
  }
}
