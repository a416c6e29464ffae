/**
 The nesting guard in front of the recursive JSON parser, against the texts of RFC 8259: one pass
 over the characters decides whether the value nests more than sixteen arrays and objects deep.

 A value carries its own spelling: the whitespace around its structural characters (section 2),
 its members and elements (sections 4 and 5), and the characters and escapes of its strings
 (section 7). Numbers and the three literal names are spellings without brackets or quotes.
 */
module JsonNesting {

  const MaxDepth: int := 16

  // ---------------------------------------------------------------------------
  // Texts
  // ---------------------------------------------------------------------------

  /** An unescaped character, an escape of one character, or \u and four digits. */
  datatype StringChar = Unescaped(c: char) | Escaped(c: char) | CodeUnit(digits: string)
  {
    predicate Valid() {
      match this
      case Unescaped(c) => c != '"' && c != '\\' && c >= ' '
      case Escaped(c) => c in "\"\\/bfnrt"
      case CodeUnit(digits) => |digits| == 4 && forall i :: 0 <= i < 4 ==> digits[i] in "0123456789abcdefABCDEF"
    }

    function Text(): string {
      match this
      case Unescaped(c) => [c]
      case Escaped(c) => ['\\', c]
      case CodeUnit(digits) => ['\\', 'u'] + digits
    }
  }

  predicate Space(text: string) {
    forall i :: 0 <= i < |text| ==> text[i] in " \t\n\r"
  }

  /** A number, true, false or null. */
  predicate PlainToken(text: string) {
    text != "" && forall i :: 0 <= i < |text| ==> text[i] in "-+.0123456789eEtrufalsn"
  }

  /** The elements of an array or the members of an object, each after its own whitespace. */
  datatype List = End | Item(before: string, value: Value, after: string, rest: List)
                | Member(before: string, name: seq<StringChar>, colon: string, value: Value, after: string, rest: List)

  datatype Value =
    | Plain(token: string)
    | Text(chars: seq<StringChar>)
    | Array(space: string, elements: List)
    | Object(space: string, members: List)

  predicate ValidChars(chars: seq<StringChar>) {
    forall i :: 0 <= i < |chars| ==> chars[i].Valid()
  }

  /** Arrays hold items and objects hold members, with whitespace where the grammar has it. */
  predicate Valid(v: Value) {
    match v
    case Plain(token) => PlainToken(token)
    case Text(chars) => ValidChars(chars)
    case Array(space, elements) => Space(space) && ValidList(elements, false)
    case Object(space, members) => Space(space) && ValidList(members, true)
  }

  predicate ValidList(list: List, members: bool) {
    match list
    case End => true
    case Item(before, value, after, rest) =>
      !members && Space(before) && Space(after) && Valid(value) && ValidList(rest, members)
    case Member(before, name, colon, value, after, rest) =>
      && members && Space(before) && Space(after) && IsColon(colon) && ValidChars(name) && Valid(value)
      && ValidList(rest, members)
  }

  /** A colon with whitespace on both sides. */
  predicate IsColon(text: string) {
    exists i :: 0 <= i < |text| && text[i] == ':' && Space(text[..i]) && Space(text[i + 1..])
  }

  function Chars(chars: seq<StringChar>): string {
    if chars == [] then "" else chars[0].Text() + Chars(chars[1..])
  }

  function Quoted(chars: seq<StringChar>): string {
    "\"" + Chars(chars) + "\""
  }

  function Spelled(v: Value): string {
    match v
    case Plain(token) => token
    case Text(chars) => Quoted(chars)
    case Array(space, elements) => "[" + (space + (SpelledList(elements) + "]"))
    case Object(space, members) => "{" + (space + (SpelledList(members) + "}"))
  }

  function SpelledList(list: List): string {
    match list
    case End => ""
    case Item(before, value, after, rest) =>
      before + (Spelled(value) + (after + (Comma(rest) + SpelledList(rest))))
    case Member(before, name, colon, value, after, rest) =>
      before + (Quoted(name) + (colon + (Spelled(value) + (after + (Comma(rest) + SpelledList(rest))))))
  }

  function Comma(rest: List): string { if rest.End? then "" else "," }

  /** How many arrays and objects nest. */
  function Depth(v: Value): nat {
    match v
    case Plain(_) => 0
    case Text(_) => 0
    case Array(_, elements) => 1 + DepthOfList(elements)
    case Object(_, members) => 1 + DepthOfList(members)
  }

  function DepthOfList(list: List): nat {
    match list
    case End => 0
    case Item(_, value, _, rest) => Deeper(Depth(value), DepthOfList(rest))
    case Member(_, _, _, value, _, rest) => Deeper(Depth(value), DepthOfList(rest))
  }

  function Deeper(a: nat, b: nat): nat { if a < b then b else a }

  // ---------------------------------------------------------------------------
  // The scan
  // ---------------------------------------------------------------------------

  datatype Scan = Scanning(depth: int, inString: bool, escaped: bool) | Rejected

  function Next(s: Scan, c: char): Scan {
    if s.Rejected? then s
    else if s.inString then
      if s.escaped then s.(escaped := false)
      else if c == '\\' then s.(escaped := true)
      else if c == '"' then s.(inString := false)
      else s
    else if c == '"' then s.(inString := true)
    else if c == '[' || c == '{' then
      if s.depth + 1 > MaxDepth then Rejected else s.(depth := s.depth + 1)
    else if c == ']' || c == '}' then s.(depth := s.depth - 1)
    else s
  }

  function Scanned(s: Scan, text: string): Scan
    decreases |text|
  {
    if text == "" then s else Scanned(Next(s, text[0]), text[1..])
  }

  const Start := Scanning(0, false, false)

  method RejectExcessiveJsonNesting(text: string) returns (accepted: bool)
    ensures accepted <==> !Scanned(Start, text).Rejected?
  {
    var depth, inString, escaped := 0, false, false;
    assert text[0..] == text;
    for i := 0 to |text|
      invariant Scanned(Start, text) == Scanned(Scanning(depth, inString, escaped), text[i..])
    {
      var c := text[i];
      assert text[i..][0] == c && text[i..][1..] == text[i + 1..];
      if inString {
        if escaped {
          escaped := false;
        } else if c == '\\' {
          escaped := true;
        } else if c == '"' {
          inString := false;
        }
        continue;
      }
      if c == '"' {
        inString := true;
      } else if c == '[' || c == '{' {
        depth := depth + 1;
        if depth > MaxDepth {
          RejectedStays(text[i + 1..]);
          return false;
        }
      } else if c == ']' || c == '}' {
        depth := depth - 1;
      }
    }
    accepted := true;
  }

  lemma {:induction false} RejectedStays(text: string)
    ensures Scanned(Rejected, text).Rejected?
    decreases |text|
  {
    if text != "" {
      RejectedStays(text[1..]);
    }
  }

  // ---------------------------------------------------------------------------
  // What the scan makes of a text
  // ---------------------------------------------------------------------------

  lemma {:induction false} ScannedJoin(s: Scan, a: string, b: string)
    ensures Scanned(s, a + b) == Scanned(Scanned(s, a), b)
    decreases |a|
  {
    if a == "" {
      assert a + b == b;
    } else {
      assert (a + b)[0] == a[0] && (a + b)[1..] == a[1..] + b;
      ScannedJoin(Next(s, a[0]), a[1..], b);
    }
  }

  predicate Neutral(c: char) {
    c != '"' && c != '[' && c != '{' && c != ']' && c != '}'
  }

  lemma {:induction false} NeutralText(s: Scan, text: string)
    requires s.Scanning? && !s.inString && forall i :: 0 <= i < |text| ==> Neutral(text[i])
    ensures Scanned(s, text) == s
    decreases |text|
  {
    if text != "" {
      NeutralText(s, text[1..]);
    }
  }

  lemma OneChar(s: Scan, c: char)
    ensures Scanned(s, [c]) == Next(s, c)
  {
    assert [c][1..] == "";
  }

  lemma {:induction false} InsideString(s: Scan, text: string)
    requires s.Scanning? && s.inString && !s.escaped && forall i :: 0 <= i < |text| ==> text[i] != '"' && text[i] != '\\'
    ensures Scanned(s, text) == s
    decreases |text|
  {
    if text != "" {
      InsideString(s, text[1..]);
    }
  }

  /** A quote only ends a string that is not escaped: every string character leaves the scan inside. */
  lemma StringCharStays(s: Scan, c: StringChar)
    requires s.Scanning? && s.inString && !s.escaped && c.Valid()
    ensures Scanned(s, c.Text()) == s
  {
    match c
    case Unescaped(u) => OneChar(s, u);
    case Escaped(e) =>
      assert ['\\', e][1..] == [e];
      OneChar(s.(escaped := true), e);
    case CodeUnit(digits) =>
      CodeUnitStays(s, digits);
  }

  lemma HexChar(c: char)
    requires c in "0123456789abcdefABCDEF"
    ensures c != '"' && c != '\\'
  {
  }

  lemma CodeUnitStays(s: Scan, digits: string)
    requires s.Scanning? && s.inString && !s.escaped && CodeUnit(digits).Valid()
    ensures Scanned(s, ['\\', 'u'] + digits) == s
  {
    hide Scanned;
    ScannedJoin(s, ['\\', 'u'], digits);
    ScannedJoin(s, ['\\'], ['u']);
    assert ['\\'] + ['u'] == ['\\', 'u'];
    OneChar(s, '\\');
    OneChar(s.(escaped := true), 'u');
    forall i | 0 <= i < |digits| ensures digits[i] != '"' && digits[i] != '\\' { HexChar(digits[i]); }
    InsideString(s, digits);
  }

  lemma {:induction false} CharsStay(s: Scan, chars: seq<StringChar>)
    requires s.Scanning? && s.inString && !s.escaped && ValidChars(chars)
    ensures Scanned(s, Chars(chars)) == s
    decreases |chars|
  {
    if chars != [] {
      StringCharStays(s, chars[0]);
      ScannedJoin(s, chars[0].Text(), Chars(chars[1..]));
      CharsStay(s, chars[1..]);
    }
  }

  lemma QuotedIsNeutral(depth: int, chars: seq<StringChar>)
    requires ValidChars(chars)
    ensures Scanned(Scanning(depth, false, false), Quoted(chars)) == Scanning(depth, false, false)
  {
    var s := Scanning(depth, false, false);
    var inside := s.(inString := true);
    ScannedJoin(s, "\"" + Chars(chars), "\"");
    ScannedJoin(s, "\"", Chars(chars));
    OneChar(s, '"');
    CharsStay(inside, chars);
    OneChar(inside, '"');
  }

  lemma SpaceIsNeutral(depth: int, text: string)
    requires Space(text)
    ensures Scanned(Scanning(depth, false, false), text) == Scanning(depth, false, false)
  {
    NeutralText(Scanning(depth, false, false), text);
  }

  lemma ColonIsNeutral(depth: int, text: string)
    requires IsColon(text)
    ensures Scanned(Scanning(depth, false, false), text) == Scanning(depth, false, false)
  {
    var at :| 0 <= at < |text| && text[at] == ':' && Space(text[..at]) && Space(text[at + 1..]);
    forall i | 0 <= i < |text| ensures Neutral(text[i]) {
      if i < at {
        assert text[i] == text[..at][i];
      } else if i > at {
        assert text[i] == text[at + 1..][i - at - 1];
      }
    }
    NeutralText(Scanning(depth, false, false), text);
  }

  /** What a spelling of depth `d` does to a scan at `depth`: nothing, or it is too deep. */
  function Through(depth: int, d: nat): Scan {
    if depth + d <= MaxDepth then Scanning(depth, false, false) else Rejected
  }

  lemma JoinThrough(depth: int, a: string, b: string, da: nat, db: nat)
    requires Scanned(Scanning(depth, false, false), a) == Through(depth, da)
    requires Scanned(Scanning(depth, false, false), b) == Through(depth, db)
    ensures Scanned(Scanning(depth, false, false), a + b) == Through(depth, Deeper(da, db))
  {
    ScannedJoin(Scanning(depth, false, false), a, b);
    RejectedStays(b);
  }

  lemma CommaIsNeutral(depth: int, rest: List)
    ensures Scanned(Scanning(depth, false, false), Comma(rest)) == Scanning(depth, false, false)
  {
    NeutralText(Scanning(depth, false, false), Comma(rest));
  }

  lemma BracketsThrough(depth: int, open: char, inside: string, close: char, d: nat)
    requires depth <= MaxDepth
    requires (open == '[' && close == ']') || (open == '{' && close == '}')
    requires depth < MaxDepth ==> Scanned(Scanning(depth + 1, false, false), inside) == Through(depth + 1, d)
    ensures Scanned(Scanning(depth, false, false), [open] + (inside + [close])) == Through(depth, 1 + d)
  {
    var s := Scanning(depth, false, false);
    ScannedJoin(s, [open], inside + [close]);
    OneChar(s, open);
    if depth < MaxDepth {
      ScannedJoin(s.(depth := depth + 1), inside, [close]);
      OneChar(s.(depth := depth + 1), close);
    }
    RejectedStays([close]);
    RejectedStays(inside + [close]);
  }

  lemma TokenChar(c: char)
    requires c in "-+.0123456789eEtrufalsn"
    ensures Neutral(c)
  {
  }

  lemma TokenIsNeutral(depth: int, token: string)
    requires PlainToken(token)
    ensures Scanned(Scanning(depth, false, false), token) == Scanning(depth, false, false)
  {
    hide Scanned, Neutral;
    forall i | 0 <= i < |token| ensures Neutral(token[i]) { TokenChar(token[i]); }
    NeutralText(Scanning(depth, false, false), token);
  }

  lemma {:induction false} ValueThrough(depth: int, v: Value)
    requires depth <= MaxDepth && Valid(v)
    ensures Scanned(Scanning(depth, false, false), Spelled(v)) == Through(depth, Depth(v))
    decreases v, 0
  {
    hide Scanned, PlainToken, ValidChars, Space;
    match v
    case Plain(token) => TokenIsNeutral(depth, token);
    case Text(chars) => QuotedIsNeutral(depth, chars);
    case Array(space, elements) =>
      if depth < MaxDepth {
        ListThrough(depth + 1, elements, false);
      }
      ContainerThrough(depth, '[', space, SpelledList(elements), ']', DepthOfList(elements));
    case Object(space, members) =>
      if depth < MaxDepth {
        ListThrough(depth + 1, members, true);
      }
      ContainerThrough(depth, '{', space, SpelledList(members), '}', DepthOfList(members));
  }

  lemma ContainerThrough(depth: int, open: char, space: string, list: string, close: char, d: nat)
    requires depth <= MaxDepth && Space(space)
    requires (open == '[' && close == ']') || (open == '{' && close == '}')
    requires depth < MaxDepth ==> Scanned(Scanning(depth + 1, false, false), list) == Through(depth + 1, d)
    ensures Scanned(Scanning(depth, false, false), [open] + (space + (list + [close]))) == Through(depth, 1 + d)
  {
    hide Scanned, Through, Space;
    if depth < MaxDepth {
      SpaceIsNeutral(depth + 1, space);
      NothingThrough(depth + 1);
      JoinThrough(depth + 1, space, list, 0, d);
    }
    BracketsThrough(depth, open, space + list, close, d);
    assert space + (list + [close]) == (space + list) + [close];
  }

  lemma NothingThrough(depth: int)
    requires depth <= MaxDepth
    ensures Through(depth, 0) == Scanning(depth, false, false)
  {
  }

  lemma {:induction false} ListThrough(depth: int, list: List, members: bool)
    requires depth <= MaxDepth && ValidList(list, members)
    ensures Scanned(Scanning(depth, false, false), SpelledList(list)) == Through(depth, DepthOfList(list))
    decreases list, 0
  {
    match list
    case End =>
    case Item(before, value, after, rest) =>
      ValueThrough(depth, value);
      TailThrough(depth, after, rest, members);
      var tail := after + (Comma(rest) + SpelledList(rest));
      JoinThrough(depth, Spelled(value), tail, Depth(value), DepthOfList(rest));
      SpaceIsNeutral(depth, before);
      JoinThrough(depth, before, Spelled(value) + tail, 0, DepthOfList(list));
    case Member(before, name, colon, value, after, rest) =>
      ValueThrough(depth, value);
      TailThrough(depth, after, rest, members);
      var tail := after + (Comma(rest) + SpelledList(rest));
      JoinThrough(depth, Spelled(value), tail, Depth(value), DepthOfList(rest));
      ColonIsNeutral(depth, colon);
      JoinThrough(depth, colon, Spelled(value) + tail, 0, DepthOfList(list));
      QuotedIsNeutral(depth, name);
      JoinThrough(depth, Quoted(name), colon + (Spelled(value) + tail), 0, DepthOfList(list));
      SpaceIsNeutral(depth, before);
      JoinThrough(depth, before, Quoted(name) + (colon + (Spelled(value) + tail)), 0, DepthOfList(list));
  }

  lemma {:induction false} TailThrough(depth: int, after: string, rest: List, members: bool)
    requires depth <= MaxDepth && Space(after) && ValidList(rest, members)
    ensures Scanned(Scanning(depth, false, false), after + (Comma(rest) + SpelledList(rest))) ==
            Through(depth, DepthOfList(rest))
    decreases rest, 1
  {
    ListThrough(depth, rest, members);
    CommaIsNeutral(depth, rest);
    JoinThrough(depth, Comma(rest), SpelledList(rest), 0, DepthOfList(rest));
    SpaceIsNeutral(depth, after);
    JoinThrough(depth, after, Comma(rest) + SpelledList(rest), 0, DepthOfList(rest));
  }

  /** For every JSON text, with whitespace around it, the guard accepts exactly what nests sixteen deep at most. */
  lemma GuardIsExact(before: string, v: Value, after: string)
    requires Space(before) && Space(after) && Valid(v)
    ensures !Scanned(Start, before + (Spelled(v) + after)).Rejected? <==> Depth(v) <= MaxDepth
  {
    ValueThrough(0, v);
    SpaceIsNeutral(0, after);
    SpaceIsNeutral(0, before);
    JoinThrough(0, Spelled(v), after, Depth(v), 0);
    JoinThrough(0, before, Spelled(v) + after, 0, Depth(v));
  }
}
