/** Reading printed JSON values back (RFC 8259), as the page does with the data of an event. */
module JsonReading {
  import opened Models
  import opened Json

  datatype Read<T> = Read(value: T, rest: string) | Bad

  function HexValue(c: char): Option<nat> {
    if '0' <= c <= '9' then Some(c as int - '0' as int)
    else if 'a' <= c <= 'f' then Some(c as int - 'a' as int + 10)
    else if 'A' <= c <= 'F' then Some(c as int - 'A' as int + 10)
    else None
  }

  /** Four hex digits as a character; surrogates are not characters of their own. */
  function HexChar(s: string): Option<char>
    requires |s| == 4
  {
    var a, b, c, d := HexValue(s[0]), HexValue(s[1]), HexValue(s[2]), HexValue(s[3]);
    if a.None? || b.None? || c.None? || d.None? then None
    else
      var code := 4096 * a.value + 256 * b.value + 16 * c.value + d.value;
      if 0 <= code < 0xD800 then Some(code as char) else None
  }

  /** The character after a backslash, for the one-letter escapes. */
  function ShortEscape(c: char): Option<char> {
    if c == '"' || c == '\\' || c == '/' then Some(c)
    else if c == 'n' then Some('\n') else if c == 'r' then Some('\r') else if c == 't' then Some('\t')
    else if c == 'b' then Some('\U{8}') else if c == 'f' then Some('\U{C}')
    else None
  }

  /** The rest of a string, from behind its opening quote. */
  function ReadString(s: string): (r: Read<string>)
    ensures r.Read? ==> |r.rest| < |s|
  {
    if s == "" || s[0] < ' ' then Bad
    else if s[0] == '"' then Read("", s[1..])
    else if s[0] != '\\' then WithChar(s[0], ReadString(s[1..]))
    else if |s| >= 2 && ShortEscape(s[1]).Some? then WithChar(ShortEscape(s[1]).value, ReadString(s[2..]))
    else if |s| >= 6 && s[1] == 'u' && HexChar(s[2..6]).Some? then WithChar(HexChar(s[2..6]).value, ReadString(s[6..]))
    else Bad
  }

  function WithChar(c: char, r: Read<string>): Read<string> {
    if r.Read? then Read([c] + r.value, r.rest) else Bad
  }

  /** How many characters of a number `s` begins with. */
  function NumberLength(s: string): (n: nat)
    ensures n <= |s| && forall i :: 0 <= i < n ==> NumberChar(s[i])
    ensures n < |s| ==> !NumberChar(s[n])
  {
    if s == "" || !NumberChar(s[0]) then 0 else 1 + NumberLength(s[1..])
  }

  predicate StartsNumber(c: char) {
    '0' <= c <= '9' || c == '-'
  }

  function ReadWord(s: string, word: string, value: Json): (r: Read<Json>)
    requires word != ""
    ensures r.Read? ==> |r.rest| < |s|
  {
    if |s| >= |word| && s[..|word|] == word then Read(value, s[|word|..]) else Bad
  }

  function ReadJson(s: string): (r: Read<Json>)
    ensures r.Read? ==> |r.rest| < |s|
    decreases |s|, 0
  {
    if s == "" then Bad
    else if s[0] == 'n' then ReadWord(s, "null", Null)
    else if s[0] == 't' then ReadWord(s, "true", Boolean(true))
    else if s[0] == 'f' then ReadWord(s, "false", Boolean(false))
    else if s[0] == '"' then AsText(ReadString(s[1..]))
    else if s[0] == '[' then
      (if |s| >= 2 && s[1] == ']' then Read(Items(NoValues), s[2..]) else AsItems(ReadValues(s[1..])))
    else if s[0] == '{' then
      if |s| >= 2 && s[1] == '}' then Read(Object(NoMembers), s[2..]) else AsObject(ReadMembers(s[1..]))
    else if StartsNumber(s[0]) then Read(Number(s[..NumberLength(s)]), s[NumberLength(s)..])
    else Bad
  }

  function AsText(r: Read<string>): Read<Json> {
    if r.Read? then Read(Text(r.value), r.rest) else Bad
  }

  function AsItems(r: Read<Values>): Read<Json> {
    if r.Read? then Read(Items(r.value), r.rest) else Bad
  }

  function AsObject(r: Read<Members>): Read<Json> {
    if r.Read? then Read(Object(r.value), r.rest) else Bad
  }

  /** One value or more, up to the closing bracket. */
  function ReadValues(s: string): (r: Read<Values>)
    ensures r.Read? ==> |r.rest| < |s|
    decreases |s|, 1
  {
    var head := ReadJson(s);
    if head.Bad? || head.rest == "" then Bad
    else if head.rest[0] == ']' then Read(Value(head.value, NoValues), head.rest[1..])
    else if head.rest[0] != ',' then Bad
    else
      var tail := ReadValues(head.rest[1..]);
      if tail.Read? then Read(Value(head.value, tail.value), tail.rest) else Bad
  }

  /** One member or more, up to the closing brace. */
  function ReadMembers(s: string): (r: Read<Members>)
    ensures r.Read? ==> |r.rest| < |s|
    decreases |s|, 2
  {
    if s == "" || s[0] != '"' then Bad
    else
      var key := ReadString(s[1..]);
      if key.Bad? || key.rest == "" || key.rest[0] != ':' then Bad else ReadMember(key.value, key.rest[1..])
  }

  /** The value of a member whose key has been read, and the members after it. */
  function ReadMember(key: string, s: string): (r: Read<Members>)
    ensures r.Read? ==> |r.rest| < |s|
    decreases |s|, 1
  {
    var value := ReadJson(s);
    if value.Bad? || value.rest == "" then Bad
    else if value.rest[0] == '}' then Read(Member(key, value.value, NoMembers), value.rest[1..])
    else if value.rest[0] != ',' then Bad
    else
      var more := ReadMembers(value.rest[1..]);
      if more.Read? then Read(Member(key, value.value, more.value), more.rest) else Bad
  }

  // ---- Printed values read back ---------------------------------------------------------------

  /** Numbers are numbers of the grammar: none is written `NaN` or `Infinity`. */
  predicate Readable(j: Json) {
    match j
    case Number(literal) =>
      literal != "" && StartsNumber(literal[0]) && forall i :: 0 <= i < |literal| ==> NumberChar(literal[i])
    case Items(items) => ValuesReadable(items)
    case Object(members) => MembersReadable(members)
    case _ => true
  }

  predicate ValuesReadable(vs: Values) {
    vs.Value? ==> Readable(vs.head) && ValuesReadable(vs.tail)
  }

  predicate MembersReadable(ms: Members) {
    ms.Member? ==> Readable(ms.value) && MembersReadable(ms.rest)
  }

  /** What may follow a value. */
  predicate Ends(rest: string) {
    rest == "" || rest[0] in ",]}"
  }

  lemma EscapeReadsBack(c: char, s: string)
    ensures ReadString(Escape(c) + s) == WithChar(c, ReadString(s))
  {
    var e := Escape(c);
    assert (e + s)[|e|..] == s;
    if |e| == 6 {
      HexEscapeReadsBack(c, s);
    } else if |e| == 2 {
      ShortEscapeReadsBack(c, s);
    }
  }

  lemma ShortEscapeReadsBack(c: char, s: string)
    requires |Escape(c)| == 2
    ensures ReadString(Escape(c) + s) == WithChar(c, ReadString(s))
  {
    var e := Escape(c);
    assert e[0] == '\\' && ShortEscape(e[1]) == Some(c);
    assert (e + s)[0] == e[0] && (e + s)[1] == e[1] && (e + s)[2..] == s;
  }

  lemma HexEscapeReadsBack(c: char, s: string)
    requires |Escape(c)| == 6
    ensures ReadString(Escape(c) + s) == WithChar(c, ReadString(s))
  {
    var t := Escape(c) + s;
    var high, low := HexDigit(c as int / 16), HexDigit(c as int % 16);
    assert Escape(c) == ['\\', 'u', '0', '0', high, low];
    assert t[0] == '\\' && t[1] == 'u' && t[2..6] == ['0', '0', high, low] && t[6..] == s;
    HexCharOf(c);
  }

  lemma HexCharOf(c: char)
    requires c < ' '
    ensures HexChar(['0', '0', HexDigit(c as int / 16), HexDigit(c as int % 16)]) == Some(c)
  {
    HexDigitReadsBack(c as int / 16);
    HexDigitReadsBack(c as int % 16);
  }

  lemma HexDigitReadsBack(d: nat)
    requires d < 16
    ensures HexValue(HexDigit(d)) == Some(d)
  {}

  lemma {:induction false} StringReadsBack(text: string, rest: string)
    ensures ReadString(EscapeAll(text) + ("\"" + rest)) == Read(text, rest)
  {
    if text == "" {
      assert ("\"" + rest)[1..] == rest;
      assert EscapeAll(text) + ("\"" + rest) == "\"" + rest;
    } else {
      var more := EscapeAll(text[1..]) + ("\"" + rest);
      assert EscapeAll(text) + ("\"" + rest) == Escape(text[0]) + more;
      EscapeReadsBack(text[0], more);
      StringReadsBack(text[1..], rest);
      assert [text[0]] + text[1..] == text;
    }
  }

  lemma QuoteReadsBack(text: string, rest: string)
    ensures (Quote(text) + rest)[0] == '"' && ReadString((Quote(text) + rest)[1..]) == Read(text, rest)
  {
    StringReadsBack(text, rest);
    assert (Quote(text) + rest)[1..] == EscapeAll(text) + ("\"" + rest);
  }

  lemma {:induction false} NumberEnds(literal: string, rest: string)
    requires (forall i :: 0 <= i < |literal| ==> NumberChar(literal[i])) && Ends(rest)
    ensures NumberLength(literal + rest) == |literal|
  {
    if literal == "" {
      assert literal + rest == rest;
    } else {
      assert (literal + rest)[1..] == literal[1..] + rest;
      NumberEnds(literal[1..], rest);
    }
  }

  lemma WordReadsBack(word: string, value: Json, rest: string)
    requires word != ""
    ensures ReadWord(word + rest, word, value) == Read(value, rest)
  {
    assert (word + rest)[..|word|] == word && (word + rest)[|word|..] == rest;
  }

  /** Whatever was printed is read back, and reading stops right behind it. */
  lemma {:induction false} DumpsReadsBack(j: Json, rest: string)
    requires Readable(j) && Ends(rest)
    ensures ReadJson(Dumps(j) + rest) == Read(j, rest)
    decreases j, 0
  {
    match j
    case Null => WordReadsBack("null", Null, rest);
    case Boolean(value) => WordReadsBack(if value then "true" else "false", Boolean(value), rest);
    case Number(literal) => NumberReadsBack(literal, rest);
    case Text(text) => QuoteReadsBack(text, rest);
    case Items(items) => ItemsReadBack(items, rest);
    case Object(members) => ObjectReadsBack(members, rest);
  }

  lemma NumberReadsBack(literal: string, rest: string)
    requires Readable(Number(literal)) && Ends(rest)
    ensures ReadJson(literal + rest) == Read(Number(literal), rest)
  {
    NumberEnds(literal, rest);
    var s := literal + rest;
    assert s[..|literal|] == literal && s[|literal|..] == rest && s[0] == literal[0];
  }

  lemma InBrackets(body: string)
    requires body != ""
    ensures ReadJson("[" + body)
            == if body[0] == ']' then Read(Items(NoValues), body[1..]) else AsItems(ReadValues(body))
  {
    assert ("[" + body)[1..] == body && ("[" + body)[2..] == body[1..];
  }

  lemma InBraces(body: string)
    requires body != ""
    ensures ReadJson("{" + body)
            == if body[0] == '}' then Read(Object(NoMembers), body[1..]) else AsObject(ReadMembers(body))
  {
    assert ("{" + body)[1..] == body && ("{" + body)[2..] == body[1..];
  }

  lemma {:induction false} ItemsReadBack(vs: Values, rest: string)
    requires ValuesReadable(vs)
    ensures ReadJson("[" + DumpsValues(vs) + "]" + rest) == Read(Items(vs), rest)
    decreases vs, 3
  {
    var body := DumpsValues(vs) + ("]" + rest);
    assert "[" + DumpsValues(vs) + "]" + rest == "[" + body;
    InBrackets(body);
    if vs.NoValues? {
      assert body == "]" + rest && body[1..] == rest;
    } else {
      FirstOfValues(vs, "]" + rest);
      ValuesReadBack(vs, rest);
    }
  }

  lemma FirstOfValues(vs: Values, more: string)
    requires vs.Value? && ValuesReadable(vs)
    ensures var s := DumpsValues(vs) + more; s != "" && s[0] != ']'
  {
    FirstOfDumps(vs.head);
  }

  lemma FirstOfDumps(j: Json)
    requires Readable(j)
    ensures Dumps(j) != "" && Dumps(j)[0] != ']' && Dumps(j)[0] != '}'
  {}

  lemma {:induction false} ValuesReadBack(vs: Values, rest: string)
    requires vs.Value? && ValuesReadable(vs)
    ensures ReadValues(DumpsValues(vs) + ("]" + rest)) == Read(vs, rest)
    decreases vs, 2
  {
    var more := (if vs.tail.Value? then "," + DumpsValues(vs.tail) else "") + ("]" + rest);
    assert DumpsValues(vs) + ("]" + rest) == Dumps(vs.head) + more;
    HeadReadsBack(vs, more, rest);
  }

  lemma {:induction false} HeadReadsBack(vs: Values, more: string, rest: string)
    requires vs.Value? && ValuesReadable(vs)
    requires more == (if vs.tail.Value? then "," + DumpsValues(vs.tail) else "") + ("]" + rest)
    ensures ReadValues(Dumps(vs.head) + more) == Read(vs, rest)
    decreases vs, 1
  {
    DumpsReadsBack(vs.head, more);
    if vs.tail.Value? {
      var others := DumpsValues(vs.tail) + ("]" + rest);
      assert more == "," + others && more[1..] == others;
      ValuesReadBack(vs.tail, rest);
    } else {
      assert more == "]" + rest && more[1..] == rest;
    }
  }

  lemma {:induction false} ObjectReadsBack(ms: Members, rest: string)
    requires MembersReadable(ms)
    ensures ReadJson("{" + DumpsMembers(ms) + "}" + rest) == Read(Object(ms), rest)
    decreases ms, 3
  {
    var body := DumpsMembers(ms) + ("}" + rest);
    assert "{" + DumpsMembers(ms) + "}" + rest == "{" + body;
    InBraces(body);
    if ms.NoMembers? {
      assert body == "}" + rest && body[1..] == rest;
    } else {
      assert DumpsMembers(ms)[0] == '"';
      MembersReadBack(ms, rest);
    }
  }

  lemma {:induction false} MembersReadBack(ms: Members, rest: string)
    requires ms.Member? && MembersReadable(ms)
    ensures ReadMembers(DumpsMembers(ms) + ("}" + rest)) == Read(ms, rest)
    decreases ms, 2
  {
    var more := (if ms.rest.Member? then "," + DumpsMembers(ms.rest) else "") + ("}" + rest);
    var afterKey := ":" + (Dumps(ms.value) + more);
    assert DumpsMembers(ms) + ("}" + rest) == Quote(ms.key) + afterKey;
    QuoteReadsBack(ms.key, afterKey);
    assert afterKey[1..] == Dumps(ms.value) + more;
    MemberReadsBack(ms, more, rest);
  }

  lemma {:induction false} MemberReadsBack(ms: Members, more: string, rest: string)
    requires ms.Member? && MembersReadable(ms)
    requires more == (if ms.rest.Member? then "," + DumpsMembers(ms.rest) else "") + ("}" + rest)
    ensures ReadMember(ms.key, Dumps(ms.value) + more) == Read(ms, rest)
    decreases ms, 1
  {
    DumpsReadsBack(ms.value, more);
    if ms.rest.Member? {
      assert more[1..] == DumpsMembers(ms.rest) + ("}" + rest);
      MembersReadBack(ms.rest, rest);
    } else {
      assert more[1..] == rest;
    }
  }
}
