/**
 * Server-sent events on the wire: the server's printer (`_encode_sse`) and the browser's chunk-by-chunk reader
 * (`consumeSse`). Section 9.2.6 of the WHATWG HTML standard describes the format.
 */
module SseFraming {
  import opened Models
  import opened Text
  import opened Json

  // ---- Splitting ------------------------------------------------------------------------------

  /** Length of the line end at position `i`, if there is one: the pattern `\r?\n`. */
  function LineEnd(s: string, i: nat): (n: nat)
    ensures n <= 2 && (n > 0 ==> i + n <= |s|)
  {
    if i < |s| && s[i] == '\n' then 1
    else if i + 1 < |s| && s[i] == '\r' && s[i + 1] == '\n' then 2
    else 0
  }

  /** Length of the blank line at the front of `s`, if there is one: the pattern `\r?\n\r?\n`. */
  function BlankLine(s: string): (n: nat)
    ensures n <= |s| && n <= 4 && n != 1
  {
    var first := LineEnd(s, 0);
    if first > 0 && LineEnd(s, first) > 0 then first + LineEnd(s, first) else 0
  }

  /** Splitting at a pattern as the browser does: at the leftmost match, then on behind it. */
  function SplitBlocks(s: string): (r: seq<string>)
    ensures r != []
  {
    if s == "" then [""]
    else if BlankLine(s) > 0 then [""] + SplitBlocks(s[BlankLine(s)..])
    else Prepend(s[0], SplitBlocks(s[1..]))
  }

  function SplitLines(s: string): (r: seq<string>)
    ensures r != []
  {
    if s == "" then [""]
    else if LineEnd(s, 0) > 0 then [""] + SplitLines(s[LineEnd(s, 0)..])
    else Prepend(s[0], SplitLines(s[1..]))
  }

  function Prepend(c: char, pieces: seq<string>): (r: seq<string>)
    requires pieces != []
    ensures |r| == |pieces|
  {
    [[c] + pieces[0]] + pieces[1..]
  }

  function Finished(pieces: seq<string>): seq<string>
    requires pieces != []
  {
    pieces[..|pieces| - 1]
  }

  function Unfinished(pieces: seq<string>): string
    requires pieces != []
  {
    pieces[|pieces| - 1]
  }

  lemma {:induction false} OnePieceIsTheText(s: string)
    requires |SplitBlocks(s)| == 1
    ensures SplitBlocks(s) == [s]
  {
    if s != "" {
      OnePieceIsTheText(s[1..]);
      assert s == [s[0]] + s[1..];
    }
  }

  /** More text cannot move a blank line that is already complete, nor put one before it. */
  lemma BreaksStay(s: string, t: string)
    requires s != ""
    ensures BlankLine(s) > 0 ==> BlankLine(s + t) == BlankLine(s)
    ensures BlankLine(s) == 0 && BlankLine(s + t) > 0 ==> |SplitBlocks(s)| == 1
  {
    assert forall i :: 0 <= i < |s| ==> (s + t)[i] == s[i];
    if BlankLine(s) == 0 && BlankLine(s + t) > 0 {
      assert |s| < BlankLine(s + t);
      if |s| == 3 {
        assert s[0] == '\r' && s[1] == '\n' && s[2] == '\r';
        assert s[1..][0] == '\n' && s[1..][1] == '\r';
      }
      TinyTextIsOnePiece(s[1..]);
    }
  }

  lemma TinyTextIsOnePiece(s: string)
    requires |s| <= 1 || (|s| == 2 && BlankLine(s) == 0)
    ensures |SplitBlocks(s)| == 1
  {
    if |s| == 2 {
      TinyTextIsOnePiece(s[1..]);
    } else if |s| == 1 {
      assert s[1..] == "";
    }
  }

  /** Splitting what has been read so far and keeping the last piece for later loses and changes nothing. */
  lemma {:induction false} SplitContinues(s: string, t: string)
    ensures SplitBlocks(s + t) == Finished(SplitBlocks(s)) + SplitBlocks(Unfinished(SplitBlocks(s)) + t)
    decreases |s|
  {
    if s == "" {
      assert s + t == t && "" + t == t;
    } else if |SplitBlocks(s)| == 1 {
      OnePieceIsTheText(s);
    } else {
      BreaksStay(s, t);
      if BlankLine(s) > 0 {
        var n := BlankLine(s);
        assert (s + t)[n..] == s[n..] + t;
        SplitContinues(s[n..], t);
      } else {
        assert (s + t)[1..] == s[1..] + t;
        SplitContinues(s[1..], t);
        PrependToFirst(s[0], SplitBlocks(s[1..]), t);
      }
    }
  }

  lemma PrependToFirst(c: char, pieces: seq<string>, t: string)
    requires |pieces| > 1
    ensures Prepend(c, Finished(pieces) + SplitBlocks(Unfinished(pieces) + t))
            == Finished(Prepend(c, pieces)) + SplitBlocks(Unfinished(Prepend(c, pieces)) + t)
  {}

  // ---- Reading --------------------------------------------------------------------------------

  /** What the browser's `trim` removes. */
  predicate IsBlank(c: char) {
    || c in "\t\n\r "
    || c in ['\U{B}', '\U{C}', '\U{A0}', '\U{1680}', '\U{2028}', '\U{2029}', '\U{202F}', '\U{205F}',
             '\U{3000}', '\U{FEFF}']
    || '\U{2000}' <= c <= '\U{200A}'
  }

  function TrimStart(s: string): string {
    if s != "" && IsBlank(s[0]) then TrimStart(s[1..]) else s
  }

  function TrimEnd(s: string): string {
    if s != "" && IsBlank(s[|s| - 1]) then TrimEnd(s[..|s| - 1]) else s
  }

  function Trim(s: string): string {
    TrimEnd(TrimStart(s))
  }

  function After(s: string, prefix: string): Option<string> {
    if prefix <= s then Some(s[|prefix|..]) else None
  }

  /** An event as the page receives it; `data` is the text given to `JSON.parse`. */
  datatype Message = Message(event: string, data: string)

  datatype Draft = Draft(event: string, data: Option<string>)

  /** One line of a block: the last `event:` wins, `data:` lines are joined by line feeds. */
  function ReadLine(d: Draft, line: string): Draft {
    var event, data := After(line, "event:"), After(line, "data:");
    Draft(
      if event.Some? then Trim(event.value) else d.event,
      if data.None? then d.data
      else Some(if d.data.Some? then d.data.value + "\n" + TrimStart(data.value) else TrimStart(data.value)))
  }

  function ReadLines(d: Draft, lines: seq<string>): Draft
    decreases |lines|
  {
    if lines == [] then d else ReadLines(ReadLine(d, lines[0]), lines[1..])
  }

  /** A block without data dispatches nothing. */
  function ReadBlock(block: string): seq<Message> {
    var d := ReadLines(Draft("message", None), SplitLines(block));
    if d.data.Some? then [Message(d.event, d.data.value)] else []
  }

  function ReadBlocks(blocks: seq<string>): seq<Message> {
    if blocks == [] then [] else ReadBlocks(blocks[..|blocks| - 1]) + ReadBlock(blocks[|blocks| - 1])
  }

  lemma {:induction false} ReadBlocksAppend(a: seq<string>, b: seq<string>)
    ensures ReadBlocks(a + b) == ReadBlocks(a) + ReadBlocks(b)
    decreases |b|
  {
    if b == [] {
      assert a + b == a;
    } else {
      assert (a + b)[..|a + b| - 1] == a + b[..|b| - 1];
      ReadBlocksAppend(a, b[..|b| - 1]);
    }
  }

  /** Everything that the text read so far lets the page see; the last, unfinished block waits. */
  function Dispatched(text: string): seq<Message> {
    ReadBlocks(Finished(SplitBlocks(text)))
  }

  function Concat(chunks: seq<string>): string {
    if chunks == [] then "" else Concat(chunks[..|chunks| - 1]) + chunks[|chunks| - 1]
  }

  /** `consumeSse`: reads chunk after chunk, as the network cuts them. */
  method ConsumeSse(chunks: seq<string>) returns (dispatched: seq<Message>)
    ensures dispatched == Dispatched(Concat(chunks))
  {
    var buffer := "";
    dispatched := [];
    for i := 0 to |chunks|
      invariant dispatched == Dispatched(Concat(chunks[..i]))
      invariant buffer == Unfinished(SplitBlocks(Concat(chunks[..i])))
    {
      ghost var soFar := Concat(chunks[..i]);
      assert chunks[..i + 1][..i] == chunks[..i];
      SplitContinues(soFar, chunks[i]);
      buffer := buffer + chunks[i];
      var blocks := SplitBlocks(buffer);
      ReadBlocksAppend(Finished(SplitBlocks(soFar)), Finished(blocks));
      assert Finished(SplitBlocks(soFar + chunks[i])) == Finished(SplitBlocks(soFar)) + Finished(blocks);
      buffer := blocks[|blocks| - 1];
      blocks := blocks[..|blocks| - 1];
      var messages := ConsumeBlocks(blocks);
      dispatched := dispatched + messages;
    }
    assert chunks[..|chunks|] == chunks;
  }

  method ConsumeBlocks(blocks: seq<string>) returns (dispatched: seq<Message>)
    ensures dispatched == ReadBlocks(blocks)
  {
    dispatched := [];
    for i := 0 to |blocks|
      invariant dispatched == ReadBlocks(blocks[..i])
    {
      assert blocks[..i + 1][..i] == blocks[..i];
      var event := "message";
      var data: Option<string> := None;
      var lines := SplitLines(blocks[i]);
      for k := 0 to |lines|
        invariant ReadLines(Draft(event, data), lines[k..]) == ReadLines(Draft("message", None), lines)
      {
        var line := lines[k];
        assert lines[k..][1..] == lines[k + 1..];
        if "event:" <= line {
          event := Trim(line[6..]);
        }
        if "data:" <= line {
          data := Some(if data.Some? then data.value + "\n" + TrimStart(line[5..]) else TrimStart(line[5..]));
        }
      }
      if data.Some? {
        dispatched := dispatched + [Message(event, data.value)];
      }
    }
    assert blocks[..|blocks|] == blocks;
  }

  /** Reading a stream that breaks off dispatches a prefix of what the whole stream would have. */
  lemma BrokenOffDispatchesAPrefix(s: string, t: string)
    ensures Dispatched(s) <= Dispatched(s + t)
  {
    SplitContinues(s, t);
    var rest := SplitBlocks(Unfinished(SplitBlocks(s)) + t);
    assert Finished(SplitBlocks(s + t)) == Finished(SplitBlocks(s)) + Finished(rest);
    ReadBlocksAppend(Finished(SplitBlocks(s)), Finished(rest));
  }

  // ---- Writing --------------------------------------------------------------------------------

  datatype Frame = EventFrame(id: Option<nat>, event: string, data: Json) | HeartbeatFrame

  /** Event names are words: no line ends, no blanks at either end. */
  predicate CleanName(name: string) {
    OneLine(name) && Trim(name) == name
  }

  predicate Sendable(f: Frame) {
    f.EventFrame? ==> CleanName(f.event) && WellFormed(f.data)
  }

  /** `_encode_sse` without the closing blank line. */
  function Body(f: Frame): string {
    match f
    case HeartbeatFrame => ": heartbeat"
    case EventFrame(id, event, data) =>
      (if id.Some? then "id: " + Decimal(id.value) + "\n" else "")
      + ("event: " + event + "\n" + ("data: " + Dumps(data)))
  }

  function Encode(f: Frame): string {
    Body(f) + "\n\n"
  }

  function EncodeAll(frames: seq<Frame>): string {
    if frames == [] then "" else Encode(frames[0]) + EncodeAll(frames[1..])
  }

  /** What the page should see of a frame. */
  function Meant(f: Frame): seq<Message> {
    if f.EventFrame? then [Message(f.event, Dumps(f.data))] else []
  }

  function MeantAll(frames: seq<Frame>): seq<Message> {
    if frames == [] then [] else Meant(frames[0]) + MeantAll(frames[1..])
  }

  // ---- Round trip -----------------------------------------------------------------------------

  predicate OneLine(s: string) {
    forall i :: 0 <= i < |s| ==> s[i] != '\n' && s[i] != '\r'
  }

  lemma {:induction false} SkipLine(line: string, rest: string)
    requires OneLine(line)
    ensures SplitBlocks(line + rest) == [line + SplitBlocks(rest)[0]] + SplitBlocks(rest)[1..]
    ensures SplitLines(line + rest) == [line + SplitLines(rest)[0]] + SplitLines(rest)[1..]
    decreases |line|
  {
    if line == "" {
      assert line + rest == rest;
      assert line + SplitBlocks(rest)[0] == SplitBlocks(rest)[0];
      assert line + SplitLines(rest)[0] == SplitLines(rest)[0];
    } else {
      var inner := line[1..];
      assert (line + rest)[0] == line[0] && (line + rest)[1..] == inner + rest;
      SkipLine(inner, rest);
      assert [line[0]] + (inner + SplitBlocks(rest)[0]) == line + SplitBlocks(rest)[0];
      assert [line[0]] + (inner + SplitLines(rest)[0]) == line + SplitLines(rest)[0];
    }
  }

  /** A line feed that starts no blank line stays inside its block and ends a line. */
  lemma SkipLineFeed(rest: string)
    requires rest != "" && rest[0] != '\n' && rest[0] != '\r'
    ensures SplitBlocks("\n" + rest) == ["\n" + SplitBlocks(rest)[0]] + SplitBlocks(rest)[1..]
    ensures SplitLines("\n" + rest) == [""] + SplitLines(rest)
  {
    assert ("\n" + rest)[1..] == rest && ("\n" + rest)[1] == rest[0];
  }

  lemma BlockEnds(rest: string)
    ensures SplitBlocks("\n\n" + rest) == [""] + SplitBlocks(rest)
  {
    var s := "\n\n" + rest;
    assert s[0] == '\n' && s[1] == '\n';
    assert s[2..] == rest;
  }

  /** The lines a frame is made of. */
  function LinesOf(f: Frame): seq<string> {
    match f
    case HeartbeatFrame => [": heartbeat"]
    case EventFrame(id, event, data) =>
      (if id.Some? then ["id: " + Decimal(id.value)] else []) + ["event: " + event, "data: " + Dumps(data)]
  }

  function JoinLines(lines: seq<string>): string
    requires lines != []
  {
    if |lines| == 1 then lines[0] else lines[0] + ("\n" + JoinLines(lines[1..]))
  }

  predicate ProperLine(line: string) {
    line != "" && OneLine(line)
  }

  lemma JoinThree(a: string, b: string, c: string)
    ensures JoinLines([b, c]) == b + "\n" + c
    ensures JoinLines([a, b, c]) == a + "\n" + (b + "\n" + c)
  {
    assert [b, c][1..] == [c] && [a, b, c][1..] == [b, c];
  }

  lemma EventLinesAreProper(event: string, data: Json)
    requires CleanName(event) && WellFormed(data)
    ensures ProperLine("event: " + event) && ProperLine("data: " + Dumps(data))
  {
    DumpsOnOneLine(data);
  }

  lemma IdLineIsProper(id: nat)
    ensures ProperLine("id: " + Decimal(id))
  {
    var digits := Decimal(id);
    assert forall i :: 0 <= i < |digits| ==> digits[i] in digits;
  }

  lemma FrameIsItsLines(f: Frame)
    requires Sendable(f)
    ensures Body(f) == JoinLines(LinesOf(f))
    ensures forall i :: 0 <= i < |LinesOf(f)| ==> ProperLine(LinesOf(f)[i])
  {
    match f
    case HeartbeatFrame =>
    case EventFrame(id, event, data) =>
      var eventLine, dataLine := "event: " + event, "data: " + Dumps(data);
      EventLinesAreProper(event, data);
      if id.Some? {
        IdLineIsProper(id.value);
        JoinThree("id: " + Decimal(id.value), eventLine, dataLine);
        assert LinesOf(f) == ["id: " + Decimal(id.value), eventLine, dataLine];
      } else {
        JoinThree("", eventLine, dataLine);
        assert LinesOf(f) == [eventLine, dataLine];
        assert Body(f) == eventLine + "\n" + dataLine;
      }
  }

  lemma JoinStartsWithFirst(lines: seq<string>)
    requires lines != [] && ProperLine(lines[0])
    ensures JoinLines(lines) != "" && JoinLines(lines)[0] == lines[0][0]
  {}

  lemma {:induction false} LinesMakeOneBlock(lines: seq<string>, rest: string)
    requires lines != [] && forall i :: 0 <= i < |lines| ==> ProperLine(lines[i])
    ensures SplitBlocks(JoinLines(lines) + ("\n\n" + rest)) == [JoinLines(lines)] + SplitBlocks(rest)
    decreases |lines|
  {
    var first := lines[0];
    assert ProperLine(first);
    if |lines| == 1 {
      SkipLine(first, "\n\n" + rest);
      BlockEnds(rest);
      assert first + "" == first;
    } else {
      var tail := JoinLines(lines[1..]);
      LinesMakeOneBlock(lines[1..], rest);
      assert ProperLine(lines[1]);
      JoinStartsWithFirst(lines[1..]);
      OneMoreLine(first, tail, rest);
    }
  }

  lemma OneMoreLine(line: string, tail: string, rest: string)
    requires OneLine(line) && tail != "" && tail[0] != '\n' && tail[0] != '\r'
    requires SplitBlocks(tail + ("\n\n" + rest)) == [tail] + SplitBlocks(rest)
    ensures SplitBlocks(line + ("\n" + tail) + ("\n\n" + rest)) == [line + ("\n" + tail)] + SplitBlocks(rest)
  {
    var after := tail + ("\n\n" + rest);
    assert after[0] == tail[0];
    SkipLineFeed(after);
    SkipLine(line, "\n" + after);
    assert line + ("\n" + tail) + ("\n\n" + rest) == line + ("\n" + after);
  }

  lemma {:induction false} LinesSplitAgain(lines: seq<string>)
    requires lines != [] && forall i :: 0 <= i < |lines| ==> ProperLine(lines[i])
    ensures SplitLines(JoinLines(lines)) == lines
    decreases |lines|
  {
    var first := lines[0];
    assert ProperLine(first);
    if |lines| == 1 {
      SkipLine(first, "");
      assert first + "" == first;
    } else {
      var tail := JoinLines(lines[1..]);
      LinesSplitAgain(lines[1..]);
      assert ProperLine(lines[1]);
      JoinStartsWithFirst(lines[1..]);
      SkipLineFeed(tail);
      SkipLine(first, "\n" + tail);
      assert first + "" == first && lines == [first] + lines[1..];
    }
  }

  lemma TrimmedLead(s: string)
    requires s != "" && ' ' < s[0] <= '}'
    ensures TrimStart(" " + s) == s
  {
    assert (" " + s)[1..] == s;
  }

  lemma CleanNameSurvives(name: string)
    requires CleanName(name)
    ensures Trim(" " + name) == name
  {
    assert (" " + name)[1..] == name;
  }

  lemma OtherFieldIgnored(d: Draft, line: string)
    requires line != "" && line[0] != 'e' && line[0] != 'd'
    ensures ReadLine(d, line) == d
  {}

  lemma EventLineRead(d: Draft, event: string)
    requires CleanName(event)
    ensures ReadLine(d, "event: " + event) == d.(event := event)
  {
    var line := "event: " + event;
    assert line[..6] == "event:" && line[6..] == " " + event && line[0] == 'e';
    CleanNameSurvives(event);
  }

  lemma DataLineRead(d: Draft, data: Json)
    requires WellFormed(data) && d.data.None?
    ensures ReadLine(d, "data: " + Dumps(data)) == d.(data := Some(Dumps(data)))
  {
    var line := "data: " + Dumps(data);
    assert line[..5] == "data:" && line[5..] == " " + Dumps(data) && line[0] == 'd';
    DumpsOnOneLine(data);
    TrimmedLead(Dumps(data));
  }

  lemma ReadTwo(d: Draft, a: string, b: string)
    ensures ReadLines(d, [a, b]) == ReadLine(ReadLine(d, a), b)
  {
    assert [a, b][0] == a && [a, b][1..] == [b] && [b][1..] == [];
    assert ReadLines(ReadLine(d, a), [b]) == ReadLines(ReadLine(ReadLine(d, a), b), []);
  }

  lemma EventLinesRead(lead: seq<string>, event: string, data: Json)
    requires CleanName(event) && WellFormed(data) && |lead| <= 1
    requires forall i :: 0 <= i < |lead| ==> lead[i] != "" && lead[i][0] == 'i'
    ensures ReadLines(Draft("message", None), lead + ["event: " + event, "data: " + Dumps(data)])
            == Draft(event, Some(Dumps(data)))
  {
    var start := Draft("message", None);
    var eventLine, dataLine := "event: " + event, "data: " + Dumps(data);
    EventLineRead(start, event);
    DataLineRead(start.(event := event), data);
    ReadTwo(start, eventLine, dataLine);
    if lead == [] {
      assert lead + [eventLine, dataLine] == [eventLine, dataLine];
    } else {
      OtherFieldIgnored(start, lead[0]);
      assert (lead + [eventLine, dataLine])[1..] == [eventLine, dataLine];
    }
  }

  lemma FrameReadsBack(f: Frame)
    requires Sendable(f)
    ensures ReadBlock(Body(f)) == Meant(f)
  {
    FrameIsItsLines(f);
    LinesSplitAgain(LinesOf(f));
    match f
    case HeartbeatFrame =>
      OtherFieldIgnored(Draft("message", None), ": heartbeat");
      assert [": heartbeat"][1..] == [];
    case EventFrame(id, event, data) =>
      EventLinesRead(if id.Some? then ["id: " + Decimal(id.value)] else [], event, data);
  }

  lemma FrameThenRest(f: Frame, rest: string)
    requires Sendable(f)
    ensures SplitBlocks(Encode(f) + rest) == [Body(f)] + SplitBlocks(rest)
  {
    FrameIsItsLines(f);
    LinesMakeOneBlock(LinesOf(f), rest);
    assert Encode(f) + rest == Body(f) + ("\n\n" + rest);
  }

  lemma FirstBlock(block: string, pieces: seq<string>)
    requires pieces != []
    ensures ReadBlocks(Finished([block] + pieces)) == ReadBlock(block) + ReadBlocks(Finished(pieces))
    ensures Unfinished([block] + pieces) == Unfinished(pieces)
  {
    assert Finished([block] + pieces) == [block] + Finished(pieces);
    ReadBlocksAppend([block], Finished(pieces));
    OneBlock(block);
  }

  lemma OneBlock(block: string)
    ensures ReadBlocks([block]) == ReadBlock(block)
  {
    var blocks := [block];
    assert blocks[..|blocks| - 1] == [] && ReadBlocks([]) == [];
    assert ReadBlocks(blocks) == ReadBlocks(blocks[..|blocks| - 1]) + ReadBlock(blocks[|blocks| - 1]);
  }

  lemma {:induction false} StreamReadsBack(frames: seq<Frame>)
    requires forall i :: 0 <= i < |frames| ==> Sendable(frames[i])
    ensures Dispatched(EncodeAll(frames)) == MeantAll(frames) && Unfinished(SplitBlocks(EncodeAll(frames))) == ""
  {
    if frames != [] {
      var f, rest := frames[0], EncodeAll(frames[1..]);
      StreamReadsBack(frames[1..]);
      FrameThenRest(f, rest);
      FrameReadsBack(f);
      FirstBlock(Body(f), SplitBlocks(rest));
    }
  }

  /** However the text of any frames is cut into chunks, the page sees exactly their events, in order. */
  lemma RoundTripUnderAnyChunking(frames: seq<Frame>, chunks: seq<string>)
    requires forall i :: 0 <= i < |frames| ==> Sendable(frames[i])
    requires Concat(chunks) == EncodeAll(frames)
    ensures Dispatched(Concat(chunks)) == MeantAll(frames)
  {
    StreamReadsBack(frames);
  }
}
