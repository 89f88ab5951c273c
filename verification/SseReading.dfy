/** How the page reads any event stream, whoever wrote it: fields, repeated fields, and both kinds of line end. */
module SseReading {
  import opened Models
  import opened SseFraming

  // ---- What a block says ----------------------------------------------------------------------

  /** The `data:` lines, in order, each without the blanks in front. */
  function DataLines(lines: seq<string>): seq<string> {
    if lines == [] then []
    else
      var data := After(lines[|lines| - 1], "data:");
      DataLines(lines[..|lines| - 1]) + if data.Some? then [TrimStart(data.value)] else []
  }

  /** The name in the last `event:` line. */
  function LastName(lines: seq<string>): Option<string> {
    if lines == [] then None
    else
      var event := After(lines[|lines| - 1], "event:");
      if event.Some? then Some(Trim(event.value)) else LastName(lines[..|lines| - 1])
  }

  function Joined(pieces: seq<string>): string
    requires pieces != []
  {
    if |pieces| == 1 then pieces[0] else Joined(pieces[..|pieces| - 1]) + "\n" + pieces[|pieces| - 1]
  }

  lemma {:induction false} OneMoreLine(d: Draft, lines: seq<string>, line: string)
    ensures ReadLines(d, lines + [line]) == ReadLine(ReadLines(d, lines), line)
    decreases |lines|
  {
    if lines == [] {
      assert ([] + [line])[1..] == [];
    } else {
      assert (lines + [line])[1..] == lines[1..] + [line];
      OneMoreLine(ReadLine(d, lines[0]), lines[1..], line);
    }
  }

  lemma {:induction false} LinesSay(lines: seq<string>)
    ensures var d := ReadLines(Draft("message", None), lines);
            && d.event == (if LastName(lines).Some? then LastName(lines).value else "message")
            && d.data == if DataLines(lines) == [] then None else Some(Joined(DataLines(lines)))
    decreases |lines|
  {
    if lines != [] {
      var before, line := lines[..|lines| - 1], lines[|lines| - 1];
      assert lines == before + [line];
      LinesSay(before);
      OneMoreLine(Draft("message", None), before, line);
      var data := After(line, "data:");
      if data.Some? {
        assert DataLines(lines) == DataLines(before) + [TrimStart(data.value)];
        assert DataLines(lines)[..|DataLines(lines)| - 1] == DataLines(before);
      } else {
        assert DataLines(lines) == DataLines(before);
      }
    }
  }

  /** A block dispatches if it has data: all of it, line by line, under the last name given, else as a `message`. */
  lemma BlockSays(block: string)
    ensures var lines := SplitLines(block);
            ReadBlock(block)
            == if DataLines(lines) == [] then []
               else [Message(if LastName(lines).Some? then LastName(lines).value else "message",
                             Joined(DataLines(lines)))]
  {
    LinesSay(SplitLines(block));
  }

  lemma {:induction false} TrimmedAtStart(s: string) returns (i: nat)
    ensures i <= |s| && TrimStart(s) == s[i..] && forall k :: 0 <= k < i ==> IsBlank(s[k])
    ensures i < |s| ==> !IsBlank(s[i])
  {
    i := 0;
    if s != "" && IsBlank(s[0]) {
      var rest := TrimmedAtStart(s[1..]);
      i := rest + 1;
      assert forall k :: 1 <= k < |s| ==> s[k] == s[1..][k - 1];
    }
  }

  lemma {:induction false} TrimmedAtEnd(s: string) returns (j: nat)
    ensures j <= |s| && TrimEnd(s) == s[..j] && forall k :: j <= k < |s| ==> IsBlank(s[k])
    ensures j > 0 ==> !IsBlank(s[j - 1])
    decreases |s|
  {
    j := |s|;
    if s != "" && IsBlank(s[|s| - 1]) {
      j := TrimmedAtEnd(s[..|s| - 1]);
    }
  }

  /** Trimming takes the blanks off both ends, all of them and nothing else. */
  lemma TrimTakesTheBlanks(s: string) returns (i: nat, j: nat)
    ensures i <= j <= |s| && Trim(s) == s[i..j]
    ensures forall k :: 0 <= k < i || j <= k < |s| ==> IsBlank(s[k])
    ensures i < j ==> !IsBlank(s[i]) && !IsBlank(s[j - 1])
  {
    i := TrimmedAtStart(s);
    var n := TrimmedAtEnd(s[i..]);
    j := i + n;
    assert forall k :: i <= k < |s| ==> s[k] == s[i..][k - i];
  }

  // ---- Line ends ------------------------------------------------------------------------------

  /** The same text with a carriage return before every line feed. */
  function WithReturns(s: string): string {
    if s == "" then "" else (if s[0] == '\n' then "\r\n" else [s[0]]) + WithReturns(s[1..])
  }

  predicate NoReturns(s: string) {
    forall i :: 0 <= i < |s| ==> s[i] != '\r'
  }

  function AllWithReturns(pieces: seq<string>): (r: seq<string>)
    ensures |r| == |pieces|
  {
    seq(|pieces|, i requires 0 <= i < |pieces| => WithReturns(pieces[i]))
  }

  lemma FeedInFront(t: string)
    ensures WithReturns("\n" + t) == "\r\n" + WithReturns(t)
  {
    assert ("\n" + t)[1..] == t;
  }

  lemma CharInFront(c: char, t: string)
    requires c != '\n'
    ensures WithReturns([c] + t) == [c] + WithReturns(t)
  {
    assert ([c] + t)[1..] == t;
  }

  /** A text begins with a line end exactly if it did before, and not with a lone line feed. */
  lemma FrontWithReturns(s: string)
    requires NoReturns(s)
    ensures LineEnd(WithReturns(s), 0) > 0 <==> LineEnd(s, 0) > 0
    ensures s != "" && s[0] == '\n' ==> LineEnd(WithReturns(s), 0) == 2 && WithReturns(s)[2..] == WithReturns(s[1..])
    ensures s != "" && s[0] != '\n' ==> WithReturns(s)[0] == s[0] && WithReturns(s)[1..] == WithReturns(s[1..])
  {}

  lemma {:induction false} LinesWithReturns(s: string)
    requires NoReturns(s)
    ensures SplitLines(WithReturns(s)) == SplitLines(s)
  {
    if s != "" {
      FrontWithReturns(s);
      LinesWithReturns(s[1..]);
    }
  }

  lemma LineEndFurtherOn(s: string, i: nat)
    requires i <= |s|
    ensures LineEnd(s, i) == LineEnd(s[i..], 0)
  {}

  /** Where blank lines are does not change either. */
  lemma BlankWithReturns(s: string)
    requires NoReturns(s) && s != ""
    ensures BlankLine(s) > 0 ==>
              BlankLine(s) == 2 && BlankLine(WithReturns(s)) == 4 && WithReturns(s)[4..] == WithReturns(s[2..])
    ensures BlankLine(s) == 0 ==> BlankLine(WithReturns(s)) == 0
    ensures BlankLine(s) == 0 && s[0] == '\n' ==> BlankLine("\n" + WithReturns(s[1..])) == 0
  {
    var t := WithReturns(s);
    FrontWithReturns(s);
    FrontWithReturns(s[1..]);
    if s[0] == '\n' {
      LineEndFurtherOn(s, 1);
      LineEndFurtherOn(t, 2);
      LineEndFurtherOn("\n" + WithReturns(s[1..]), 1);
      assert ("\n" + WithReturns(s[1..]))[1..] == WithReturns(s[1..]);
      if BlankLine(s) > 0 {
        assert s[1..][1..] == s[2..] && t[2..][2..] == t[4..];
      }
    }
  }

  lemma FeedThenBlock(c: char, pieces: seq<string>)
    requires pieces != []
    ensures AllWithReturns(Prepend(c, pieces))
            == if c == '\n' then Prepend('\r', Prepend('\n', AllWithReturns(pieces)))
               else Prepend(c, AllWithReturns(pieces))
  {
    if c == '\n' {
      FeedInFront(pieces[0]);
      var first := WithReturns(pieces[0]);
      assert [c] + pieces[0] == "\n" + pieces[0] && "\r\n" + first == ['\r'] + (['\n'] + first);
    } else {
      CharInFront(c, pieces[0]);
    }
  }

  lemma {:induction false} BlocksWithReturns(s: string)
    requires NoReturns(s)
    ensures SplitBlocks(WithReturns(s)) == AllWithReturns(SplitBlocks(s))
    decreases |s|
  {
    if s != "" {
      var t := WithReturns(s);
      BlankWithReturns(s);
      FrontWithReturns(s);
      if BlankLine(s) > 0 {
        BlocksWithReturns(s[2..]);
        FirstBlockEnds(SplitBlocks(s[2..]));
        assert SplitBlocks(t) == [""] + SplitBlocks(t[4..]);
      } else {
        BlocksWithReturns(s[1..]);
        FeedThenBlock(s[0], SplitBlocks(s[1..]));
        if s[0] == '\n' {
          FeedGoesOn(s);
        }
      }
    }
  }

  lemma FirstBlockEnds(pieces: seq<string>)
    ensures AllWithReturns([""] + pieces) == [""] + AllWithReturns(pieces)
  {}

  lemma FeedGoesOn(s: string)
    requires NoReturns(s) && s != "" && s[0] == '\n' && BlankLine(s) == 0
    ensures SplitBlocks(WithReturns(s)) == Prepend('\r', Prepend('\n', SplitBlocks(WithReturns(s[1..]))))
  {
    var t, rest := WithReturns(s), WithReturns(s[1..]);
    BlankWithReturns(s);
    assert t == ['\r'] + ("\n" + rest) && t[1..] == "\n" + rest && t[1..][1..] == rest;
  }

  lemma {:induction false} BlocksHaveNoReturns(s: string)
    requires NoReturns(s)
    ensures forall i :: 0 <= i < |SplitBlocks(s)| ==> NoReturns(SplitBlocks(s)[i])
    decreases |s|
  {
    if s != "" {
      if BlankLine(s) > 0 {
        BlocksHaveNoReturns(s[BlankLine(s)..]);
      } else {
        BlocksHaveNoReturns(s[1..]);
      }
    }
  }

  lemma {:induction false} SameBlocksRead(blocks: seq<string>)
    requires forall i :: 0 <= i < |blocks| ==> NoReturns(blocks[i])
    ensures ReadBlocks(AllWithReturns(blocks)) == ReadBlocks(blocks)
    decreases |blocks|
  {
    if blocks != [] {
      var before := blocks[..|blocks| - 1];
      SameBlocksRead(before);
      assert AllWithReturns(blocks)[..|blocks| - 1] == AllWithReturns(before);
      LinesWithReturns(blocks[|blocks| - 1]);
    }
  }

  /** Whether lines end in line feeds or in carriage returns and line feeds, the page sees the same. */
  lemma LineEndsDoNotMatter(s: string)
    requires NoReturns(s)
    ensures Dispatched(WithReturns(s)) == Dispatched(s)
  {
    BlocksWithReturns(s);
    BlocksHaveNoReturns(s);
    var blocks := SplitBlocks(s);
    SameBlocksRead(Finished(blocks));
    assert Finished(AllWithReturns(blocks)) == AllWithReturns(Finished(blocks));
  }
}
