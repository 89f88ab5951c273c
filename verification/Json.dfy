/**
 * JSON values and how the server prints them: compact, non-ASCII kept, control characters escaped (RFC 8259, section
 * 7).
 */
module Json {
  datatype Json =
    | Null
    | Boolean(value: bool)
    | Number(literal: string)
    | Text(text: string)
    | Items(items: Values)
    | Object(members: Members)

  datatype Values = NoValues | Value(head: Json, tail: Values)
  datatype Members = NoMembers | Member(key: string, value: Json, rest: Members)

  predicate NumberChar(c: char) {
    '0' <= c <= '9' || 'a' <= c <= 'z' || 'A' <= c <= 'Z' || c == '+' || c == '-' || c == '.'
  }

  /** Number literals come from the printer, without blanks or control characters. */
  predicate WellFormed(j: Json) {
    match j
    case Number(literal) => literal != "" && forall i :: 0 <= i < |literal| ==> NumberChar(literal[i])
    case Items(items) => ValuesWellFormed(items)
    case Object(members) => MembersWellFormed(members)
    case _ => true
  }

  predicate ValuesWellFormed(vs: Values) {
    vs.Value? ==> WellFormed(vs.head) && ValuesWellFormed(vs.tail)
  }

  predicate MembersWellFormed(ms: Members) {
    ms.Member? ==> WellFormed(ms.value) && MembersWellFormed(ms.rest)
  }

  function HexDigit(d: nat): char
    requires d < 16
  {
    "0123456789abcdef"[d]
  }

  function Escape(c: char): string {
    if c == '"' then "\\\"" else if c == '\\' then "\\\\"
    else if c == '\n' then "\\n" else if c == '\r' then "\\r" else if c == '\t' then "\\t"
    else if c == '\U{8}' then "\\b" else if c == '\U{C}' then "\\f"
    else if c < ' ' then "\\u00" + [HexDigit(c as int / 16), HexDigit(c as int % 16)]
    else [c]
  }

  function EscapeAll(s: string): string {
    if s == "" then "" else Escape(s[0]) + EscapeAll(s[1..])
  }

  function Quote(s: string): string {
    "\"" + EscapeAll(s) + "\""
  }

  function Dumps(j: Json): string {
    match j
    case Null => "null"
    case Boolean(value) => if value then "true" else "false"
    case Number(literal) => literal
    case Text(text) => Quote(text)
    case Items(items) => "[" + DumpsValues(items) + "]"
    case Object(members) => "{" + DumpsMembers(members) + "}"
  }

  function DumpsValues(vs: Values): string {
    match vs
    case NoValues => ""
    case Value(head, tail) => Dumps(head) + (if tail.Value? then "," + DumpsValues(tail) else "")
  }

  function DumpsMembers(ms: Members): string {
    match ms
    case NoMembers => ""
    case Member(key, value, rest) =>
      Quote(key) + ":" + Dumps(value) + (if rest.Member? then "," + DumpsMembers(rest) else "")
  }

  /** No control characters, so in particular no line ends. */
  predicate Printable(s: string) {
    forall i :: 0 <= i < |s| ==> s[i] >= ' '
  }

  lemma {:induction false} EscapedIsPrintable(s: string)
    ensures Printable(EscapeAll(s))
  {
    if s != "" {
      EscapedIsPrintable(s[1..]);
      assert Printable(Escape(s[0]));
    }
  }

  /** Whatever the value holds, its text is one line and does not start with a blank. */
  lemma {:induction false} DumpsOnOneLine(j: Json)
    requires WellFormed(j)
    ensures Printable(Dumps(j)) && Dumps(j) != "" && ' ' < Dumps(j)[0] <= '}'
  {
    match j
    case Null =>
    case Boolean(_) =>
    case Number(_) =>
    case Text(text) => EscapedIsPrintable(text);
    case Items(items) => ValuesOnOneLine(items);
    case Object(members) => MembersOnOneLine(members);
  }

  lemma {:induction false} ValuesOnOneLine(vs: Values)
    requires ValuesWellFormed(vs)
    ensures Printable(DumpsValues(vs))
  {
    if vs.Value? {
      DumpsOnOneLine(vs.head);
      ValuesOnOneLine(vs.tail);
    }
  }

  lemma {:induction false} MembersOnOneLine(ms: Members)
    requires MembersWellFormed(ms)
    ensures Printable(DumpsMembers(ms))
  {
    if ms.Member? {
      EscapedIsPrintable(ms.key);
      DumpsOnOneLine(ms.value);
      MembersOnOneLine(ms.rest);
      var entry := Quote(ms.key) + ":" + Dumps(ms.value);
      assert Printable(entry);
      if ms.rest.Member? {
        assert DumpsMembers(ms) == entry + ("," + DumpsMembers(ms.rest));
      }
    }
  }
}
