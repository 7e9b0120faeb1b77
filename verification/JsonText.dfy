/**
 The JSON documents of grinfo (tools/grinfo_main.cpp): the text of a value tree, and a parser of the grammar of sections
 2 to 7 of RFC 8259 that reads the tree back. Characters stand for the bytes of the text.
 */
module JsonText {
  import opened Wrappers
  import opened Numerals

  // A literal is a number, true, false or null; an object keeps its members in order.
  datatype Json = Literal(text: string) | Text(value: string) | Array(items: Items) | Object(members: Members)
  datatype Items = NoItem | Item(head: Json, tail: Items)
  datatype Members = NoMember | Member(name: string, value: Json, rest: Members)

  // --- the text ---------------------------------------------------------------------------------------------------

  function Spaces(n: nat): string { seq(n, _ => ' ') }

  function NewLine(depth: nat): string { "\n" + Spaces(2 * depth) }

  function HexDigit(n: nat): char
    requires n < 16
  {
    if n < 10 then '0' + n as char else 'a' + (n - 10) as char
  }

  function Escape(c: char): string {
    if c == '\"' then "\\\""
    else if c == '\\' then "\\\\"
    else if c == '\n' then "\\n"
    else if c == '\r' then "\\r"
    else if c == '\t' then "\\t"
    else if c == '\U{08}' then "\\b"
    else if c == '\U{0C}' then "\\f"
    else if c < ' ' then "\\u00" + [HexDigit(c as nat / 16), HexDigit(c as nat % 16)]
    else [c]
  }

  function Escaped(s: string): string { if s == [] then [] else Escape(s[0]) + Escaped(s[1..]) }

  function Quoted(s: string): string { "\"" + Escaped(s) + "\"" }

  function Pretty(v: Json, depth: nat): string {
    match v
    case Literal(text) => text
    case Text(value) => Quoted(value)
    case Array(items) => "[" + PrettyItems(items, depth + 1, true) + Closing(items == NoItem, depth) + "]"
    case Object(members) => "{" + PrettyMembers(members, depth + 1, true) + Closing(members == NoMember, depth) + "}"
  }

  function Closing(empty: bool, depth: nat): string { if empty then "" else NewLine(depth) }

  function Comma(first: bool): string { if first then "" else "," }

  function PrettyItems(items: Items, depth: nat, first: bool): string {
    match items
    case NoItem => ""
    case Item(head, tail) => Comma(first) + NewLine(depth) + Pretty(head, depth) + PrettyItems(tail, depth, false)
  }

  function PrettyMembers(members: Members, depth: nat, first: bool): string {
    match members
    case NoMember => ""
    case Member(name, value, rest) =>
      Comma(first) + NewLine(depth) + Quoted(name) + ": " + Pretty(value, depth) + PrettyMembers(rest, depth, false)
  }

  // --- the parser -------------------------------------------------------------------------------------------------

  datatype Parsed<T> = Failed | Parsed(value: T, rest: string)

  predicate IsSpace(c: char) { c == ' ' || c == '\n' || c == '\r' || c == '\t' }

  function SkipSpace(s: string): (r: string)
    ensures |r| <= |s|
  {
    if s != [] && IsSpace(s[0]) then SkipSpace(s[1..]) else s
  }

  // --- numbers and words ------------------------------------------------------------------------------------------

  predicate IsExponent(s: string) {
    || s == []
    || ((s[0] == 'e' || s[0] == 'E')
        && IsDigits(if |s| > 1 && (s[1] == '+' || s[1] == '-') then s[2..] else s[1..]))
  }

  predicate IsDigits(s: string) { s != [] && DigitCount(s) == |s| }

  predicate IsFraction(s: string) {
    if s != [] && s[0] == '.' then DigitCount(s[1..]) > 0 && IsExponent(s[1..][DigitCount(s[1..])..]) else IsExponent(s)
  }

  // section 6 of RFC 8259: an optional minus sign, digits without a leading zero, a fraction and an exponent
  predicate IsNumber(s: string) {
    var t := if s != [] && s[0] == '-' then s[1..] else s;
    DigitCount(t) > 0 && (t[0] == '0' ==> DigitCount(t) == 1) && IsFraction(t[DigitCount(t)..])
  }

  predicate IsLiteral(s: string) { s == "true" || s == "false" || s == "null" || IsNumber(s) }

  // the characters a literal is made of
  predicate IsLiteralChar(c: char) {
    '0' <= c <= '9' || 'a' <= c <= 'z' || 'A' <= c <= 'Z' || c == '+' || c == '-' || c == '.'
  }

  function LiteralLength(s: string): (n: nat)
    ensures n <= |s|
  {
    if s != [] && IsLiteralChar(s[0]) then 1 + LiteralLength(s[1..]) else 0
  }

  function HexValue(c: char): (r: Option<nat>)
    ensures r.Some? ==> r.value < 16
  {
    if '0' <= c <= '9' then Some(c as nat - '0' as nat)
    else if 'a' <= c <= 'f' then Some(c as nat - 'a' as nat + 10)
    else if 'A' <= c <= 'F' then Some(c as nat - 'A' as nat + 10)
    else None
  }

  // the character an escape stands for; a surrogate stands for none
  function ParseEscape(s: string): (r: Parsed<char>)
    ensures r.Parsed? ==> |r.rest| < |s|
  {
    if s == [] then Failed
    else
      var c, rest := s[0], s[1..];
      if c == '\"' || c == '\\' || c == '/' then Parsed(c, rest)
      else if c == 'n' then Parsed('\n', rest)
      else if c == 'r' then Parsed('\r', rest)
      else if c == 't' then Parsed('\t', rest)
      else if c == 'b' then Parsed('\U{08}', rest)
      else if c == 'f' then Parsed('\U{0C}', rest)
      else if c == 'u' then ParseCodePoint(rest)
      else Failed
  }

  function ParseCodePoint(s: string): (r: Parsed<char>)
    ensures r.Parsed? ==> |r.rest| <= |s|
  {
    if |s| < 4 then Failed
    else
      var a, b, c, d := HexValue(s[0]), HexValue(s[1]), HexValue(s[2]), HexValue(s[3]);
      if a.None? || b.None? || c.None? || d.None? then Failed
      else
        var code := ((a.value * 16 + b.value) * 16 + c.value) * 16 + d.value;
        if 0xD800 <= code < 0xE000 then Failed else Parsed(code as char, s[4..])
  }

  // the characters up to the closing quotation mark
  function ParseString(s: string): (r: Parsed<string>)
    ensures r.Parsed? ==> |r.rest| < |s|
    decreases |s|
  {
    if s == [] || s[0] < ' ' then Failed
    else if s[0] == '\"' then Parsed("", s[1..])
    else if s[0] == '\\' then
      var c := ParseEscape(s[1..]);
      if c.Failed? then Failed
      else
        var r := ParseString(c.rest);
        if r.Failed? then Failed else Parsed([c.value] + r.value, r.rest)
    else
      var r := ParseString(s[1..]);
      if r.Failed? then Failed else Parsed([s[0]] + r.value, r.rest)
  }

  function ParseValue(text: string): (r: Parsed<Json>)
    ensures r.Parsed? ==> |r.rest| < |text|
    decreases |text|, 0
  {
    var s := SkipSpace(text);
    if s == [] then Failed
    else if s[0] == '\"' then
      var r := ParseString(s[1..]);
      if r.Failed? then Failed else Parsed(Text(r.value), r.rest)
    else if s[0] == '[' then
      var t := SkipSpace(s[1..]);
      if t != [] && t[0] == ']' then Parsed(Array(NoItem), t[1..])
      else
        var r := ParseItems(s[1..]);
        if r.Failed? then Failed else Parsed(Array(r.value), r.rest)
    else if s[0] == '{' then
      var t := SkipSpace(s[1..]);
      if t != [] && t[0] == '}' then Parsed(Object(NoMember), t[1..])
      else
        var r := ParseMembers(s[1..]);
        if r.Failed? then Failed else Parsed(Object(r.value), r.rest)
    else
      var n := LiteralLength(s);
      if n == 0 || !IsLiteral(s[..n]) then Failed else Parsed(Literal(s[..n]), s[n..])
  }

  // one item at least, and the closing bracket
  function ParseItems(text: string): (r: Parsed<Items>)
    ensures r.Parsed? ==> |r.rest| < |text|
    decreases |text|, 1
  {
    var v := ParseValue(text);
    if v.Failed? then Failed
    else
      var s := SkipSpace(v.rest);
      if s == [] then Failed
      else if s[0] == ']' then Parsed(Item(v.value, NoItem), s[1..])
      else if s[0] == ',' then
        var r := ParseItems(s[1..]);
        if r.Failed? then Failed else Parsed(Item(v.value, r.value), r.rest)
      else Failed
  }

  function ParseName(text: string): (r: Parsed<string>)
    ensures r.Parsed? ==> |r.rest| < |text|
  {
    var s := SkipSpace(text);
    if s == [] || s[0] != '\"' then Failed
    else
      var name := ParseString(s[1..]);
      if name.Failed? then Failed
      else
        var t := SkipSpace(name.rest);
        if t == [] || t[0] != ':' then Failed else Parsed(name.value, t[1..])
  }

  function ParseMembers(text: string): (r: Parsed<Members>)
    ensures r.Parsed? ==> |r.rest| < |text|
    decreases |text|, 1
  {
    var name := ParseName(text);
    if name.Failed? then Failed
    else
      var v := ParseValue(name.rest);
      if v.Failed? then Failed
      else
        var s := SkipSpace(v.rest);
        if s == [] then Failed
        else if s[0] == '}' then Parsed(Member(name.value, v.value, NoMember), s[1..])
        else if s[0] == ',' then
          var r := ParseMembers(s[1..]);
          if r.Failed? then Failed else Parsed(Member(name.value, v.value, r.value), r.rest)
        else Failed
  }

  // a document: one value and nothing else
  function ParseDocument(text: string): Option<Json> {
    var r := ParseValue(text);
    if r.Parsed? && SkipSpace(r.rest) == [] then Some(r.value) else None
  }

  // --- the round trip ---------------------------------------------------------------------------------------------

  // every literal is a number or a word of the grammar
  predicate WellFormed(v: Json) {
    match v
    case Literal(text) => IsLiteral(text)
    case Text(_) => true
    case Array(items) => ItemsWellFormed(items)
    case Object(members) => MembersWellFormed(members)
  }

  predicate ItemsWellFormed(items: Items) {
    match items
    case NoItem => true
    case Item(head, tail) => WellFormed(head) && ItemsWellFormed(tail)
  }

  predicate MembersWellFormed(members: Members) {
    match members
    case NoMember => true
    case Member(_, value, rest) => WellFormed(value) && MembersWellFormed(rest)
  }

  // nothing a literal could go on with
  predicate Ends(rest: string) { rest == [] || !IsLiteralChar(rest[0]) }

  lemma {:induction false} SkipsSpaces(n: nat, s: string)
    ensures SkipSpace(Spaces(n) + s) == SkipSpace(s)
  {
    if n == 0 {
      assert Spaces(0) + s == s;
    } else {
      assert (Spaces(n) + s)[1..] == Spaces(n - 1) + s;
      SkipsSpaces(n - 1, s);
    }
  }

  lemma SkipsNewLine(depth: nat, s: string)
    ensures SkipSpace(NewLine(depth) + s) == SkipSpace(s)
  {
    assert (NewLine(depth) + s)[1..] == Spaces(2 * depth) + s;
    SkipsSpaces(2 * depth, s);
  }

  lemma EscapeReadsBack(c: char, s: string)
    requires Escape(c)[0] == '\\'
    ensures |Escape(c)| >= 2 && ParseEscape(Escape(c)[1..] + s) == Parsed(c, s)
  {
    var e := Escape(c)[1..] + s;
    if e[0] == 'u' {
      assert e[1..][4..] == s;
      HexReadsBack(c as nat / 16);
      HexReadsBack(c as nat % 16);
    } else {
      assert e[1..] == s;
    }
  }

  lemma HexReadsBack(n: nat)
    requires n < 16
    ensures HexValue(HexDigit(n)) == Some(n)
  {
  }

  lemma {:induction false} StringReadsBack(value: string, s: string)
    ensures ParseString(Escaped(value) + "\"" + s) == Parsed(value, s)
  {
    hide Escape, ParseString;
    if value == [] {
      assert Escaped(value) + "\"" + s == "\"" + s;
      QuoteEnds(s);
    } else {
      var tail := Escaped(value[1..]) + "\"" + s;
      StringReadsBack(value[1..], s);
      assert Escaped(value) + "\"" + s == Escape(value[0]) + tail;
      CharReadsBack(value[0], tail, value[1..], s);
      assert value == [value[0]] + value[1..];
    }
  }

  lemma QuoteEnds(s: string)
    ensures ParseString("\"" + s) == Parsed([], s)
  {
    assert ("\"" + s)[1..] == s;
  }

  // one character of a string, and the characters behind it
  lemma CharReadsBack(c: char, tail: string, rest: string, s: string)
    requires ParseString(tail) == Parsed(rest, s)
    ensures ParseString(Escape(c) + tail) == Parsed([c] + rest, s)
  {
    EscapeSplits(c);
    var text := Escape(c) + tail;
    if Escape(c)[0] == '\\' {
      assert text[1..] == Escape(c)[1..] + tail;
      EscapeReadsBack(c, tail);
    } else {
      assert text[1..] == tail;
    }
    hide Escape;
  }

  lemma EscapeSplits(c: char)
    ensures Escape(c) != []
    ensures Escape(c)[0] != '\\' ==> Escape(c) == [c] && ' ' <= c && c != '\"'
  {
  }

  // The short escapes are used where there are any, and a control character without one takes the long form.
  lemma EscapeLength(c: char)
    ensures |Escape(c)| == if c in ['\"', '\\', '\n', '\r', '\t', '\U{08}', '\U{0C}'] then 2
                           else if c < ' ' then 6 else 1
  {
  }

  predicate OfLiteralChars(text: string) { forall i :: 0 <= i < |text| ==> IsLiteralChar(text[i]) }

  lemma OfLiteralCharsConcat(a: string, b: string)
    requires OfLiteralChars(a) && OfLiteralChars(b)
    ensures OfLiteralChars(a + b)
  {
  }

  lemma DigitsOfLiteralChars(s: string)
    ensures OfLiteralChars(s[..DigitCount(s)])
  {
  }

  lemma ExponentOfLiteralChars(s: string)
    requires IsExponent(s)
    ensures OfLiteralChars(s)
  {
    if s != [] {
      var n := if |s| > 1 && (s[1] == '+' || s[1] == '-') then 2 else 1;
      DigitsOfLiteralChars(s[n..]);
      assert s[n..][..|s| - n] == s[n..] && s == s[..n] + s[n..];
      OfLiteralCharsConcat(s[..n], s[n..]);
    }
  }

  lemma FractionOfLiteralChars(s: string)
    requires IsFraction(s)
    ensures OfLiteralChars(s)
  {
    hide IsExponent;
    if s != [] && s[0] == '.' {
      var t, n := s[1..], DigitCount(s[1..]);
      DigitsOfLiteralChars(t);
      ExponentOfLiteralChars(t[n..]);
      OfLiteralCharsConcat(t[..n], t[n..]);
      assert t[..n] + t[n..] == t && s == [s[0]] + t;
      OfLiteralCharsConcat([s[0]], t);
    } else {
      ExponentOfLiteralChars(s);
    }
  }

  lemma NumberOfLiteralChars(s: string)
    requires IsNumber(s)
    ensures s != [] && OfLiteralChars(s)
  {
    hide IsFraction;
    var sign := if s != [] && s[0] == '-' then 1 else 0;
    var t, n := s[sign..], DigitCount(s[sign..]);
    DigitsOfLiteralChars(t);
    FractionOfLiteralChars(t[n..]);
    OfLiteralCharsConcat(t[..n], t[n..]);
    assert t[..n] + t[n..] == t && s == s[..sign] + t;
    OfLiteralCharsConcat(s[..sign], t);
  }

  lemma LiteralOfLiteralChars(s: string)
    requires IsLiteral(s)
    ensures s != [] && OfLiteralChars(s)
  {
    if IsNumber(s) { NumberOfLiteralChars(s); }
    hide IsNumber;
  }

  lemma {:induction false} LiteralReadsBack(text: string, s: string)
    requires OfLiteralChars(text) && Ends(s)
    ensures LiteralLength(text + s) == |text|
  {
    if text == [] {
      assert text + s == s;
    } else {
      assert (text + s)[1..] == text[1..] + s;
      LiteralReadsBack(text[1..], s);
    }
  }

  // The numerals of counts are numbers of the grammar: no other than 0 begins with a zero.
  lemma CountIsNumber(n: nat)
    ensures IsLiteral(Decimal(n))
  {
    AllDigits(Decimal(n));
    DecimalLead(n);
    hide Decimal;
    assert Decimal(n)[|Decimal(n)|..] == [];
    assert Decimal(n)[0] != '-';
  }

  lemma {:induction false} DecimalLead(n: nat)
    ensures Decimal(n)[0] == '0' ==> n == 0 && |Decimal(n)| == 1
  {
    if n >= 10 {
      DecimalLead(n / 10);
      assert Decimal(n)[0] == Decimal(n / 10)[0];
    }
  }

  // A value's text begins with no space and no closing bracket.
  lemma FirstCharacter(v: Json, depth: nat, s: string)
    requires WellFormed(v)
    ensures Pretty(v, depth) != [] && SkipSpace(Pretty(v, depth) + s) == Pretty(v, depth) + s
    ensures Pretty(v, depth)[0] != ']' && Pretty(v, depth)[0] != '}'
    ensures v.Literal? ==> IsLiteralChar(Pretty(v, depth)[0])
  {
    hide PrettyItems, PrettyMembers, NewLine, ItemsWellFormed, MembersWellFormed, IsLiteral;
    if v.Literal? { LiteralOfLiteralChars(v.text); }
  }

  // what follows an item: the next item, or the closing bracket on a line of its own
  function AfterItem(tail: Items, depth: nat, s: string): string {
    PrettyItems(tail, depth + 1, false) + NewLine(depth) + "]" + s
  }

  function AfterMember(rest: Members, depth: nat, s: string): string {
    PrettyMembers(rest, depth + 1, false) + NewLine(depth) + "}" + s
  }

  lemma LastItemEnds(depth: nat, s: string)
    ensures Ends(AfterItem(NoItem, depth, s)) && SkipSpace(AfterItem(NoItem, depth, s)) == "]" + s
  {
    assert AfterItem(NoItem, depth, s) == NewLine(depth) + ("]" + s);
    SkipsNewLine(depth, "]" + s);
  }

  lemma NextItemEnds(tail: Items, depth: nat, s: string)
    requires tail.Item?
    ensures var u := AfterItem(tail, depth, s);
            && Ends(u) && SkipSpace(u) == u
            && u == "," + (NewLine(depth + 1) + (Pretty(tail.head, depth + 1) + AfterItem(tail.tail, depth, s)))
  {
    hide Pretty, NewLine;
    assert AfterItem(tail, depth, s)
      == "," + (NewLine(depth + 1) + (Pretty(tail.head, depth + 1) + AfterItem(tail.tail, depth, s)));
  }

  lemma LastMemberEnds(depth: nat, s: string)
    ensures Ends(AfterMember(NoMember, depth, s)) && SkipSpace(AfterMember(NoMember, depth, s)) == "}" + s
  {
    assert AfterMember(NoMember, depth, s) == NewLine(depth) + ("}" + s);
    SkipsNewLine(depth, "}" + s);
  }

  lemma NextMemberEnds(rest: Members, depth: nat, s: string)
    requires rest.Member?
    ensures var u := AfterMember(rest, depth, s);
            Ends(u) && SkipSpace(u) == u && u == "," + (NewLine(depth + 1) + NamedText(rest, depth, s))
  {
    hide Pretty, Quoted, NewLine;
    MemberTextIs(rest, depth, s);
  }

  lemma MemberTextIs(rest: Members, depth: nat, s: string)
    requires rest.Member?
    ensures AfterMember(rest, depth, s) == "," + (NewLine(depth + 1) + NamedText(rest, depth, s))
  {
    hide Pretty, Quoted, NewLine;
    var value, tail := Pretty(rest.value, depth + 1), PrettyMembers(rest.rest, depth + 1, false);
    assert PrettyMembers(rest, depth + 1, false) == "," + NewLine(depth + 1) + Quoted(rest.name) + ": " + value + tail;
    hide PrettyMembers;
    assert AfterMember(rest.rest, depth, s) == tail + NewLine(depth) + "}" + s;
  }

  // a member past its line break, and everything after it in the object
  function NamedText(m: Members, depth: nat, s: string): string
    requires m.Member?
  {
    Quoted(m.name) + (": " + (Pretty(m.value, depth + 1) + AfterMember(m.rest, depth, s)))
  }

  lemma NameReadsBack(text: string, name: string, s: string)
    requires SkipSpace(text) == Quoted(name) + (": " + s)
    ensures ParseName(text) == Parsed(name, " " + s)
  {
    hide Escaped;
    var u := SkipSpace(text);
    assert u[1..] == Escaped(name) + "\"" + (": " + s);
    StringReadsBack(name, ": " + s);
    assert SkipSpace(": " + s) == ": " + s;
    assert (": " + s)[1..] == " " + s;
  }

  lemma {:induction false} ItemsReadBack(items: Items, depth: nat, t: string, s: string)
    requires items.Item? && ItemsWellFormed(items)
    requires SkipSpace(t) == Pretty(items.head, depth + 1) + AfterItem(items.tail, depth, s)
    ensures ParseItems(t) == Parsed(items, s)
    decreases items, 0
  {
    hide Pretty, PrettyItems, AfterItem, NewLine, ParseValue;
    var u := AfterItem(items.tail, depth, s);
    if items.tail.Item? { NextItemEnds(items.tail, depth, s); } else { LastItemEnds(depth, s); }
    ValueReadsBack(items.head, depth + 1, t, u);
    if items.tail.Item? {
      var next := Pretty(items.tail.head, depth + 1) + AfterItem(items.tail.tail, depth, s);
      assert SkipSpace(u)[1..] == NewLine(depth + 1) + next;
      SkipsNewLine(depth + 1, next);
      FirstCharacter(items.tail.head, depth + 1, AfterItem(items.tail.tail, depth, s));
      ItemsReadBack(items.tail, depth, SkipSpace(u)[1..], s);
    } else {
      assert SkipSpace(u)[1..] == s;
    }
  }

  lemma {:induction false} MembersReadBack(members: Members, depth: nat, t: string, s: string)
    requires members.Member? && MembersWellFormed(members)
    requires SkipSpace(t) == NamedText(members, depth, s)
    ensures ParseMembers(t) == Parsed(members, s)
    decreases members, 0
  {
    hide Pretty, PrettyMembers, AfterMember, NewLine, ParseValue, ParseName;
    var u := AfterMember(members.rest, depth, s);
    var valueText := Pretty(members.value, depth + 1) + u;
    NameReadsBack(t, members.name, valueText);
    FirstCharacter(members.value, depth + 1, u);
    SkipsSpaces(1, valueText);
    assert Spaces(1) == " ";
    if members.rest.Member? { NextMemberEnds(members.rest, depth, s); } else { LastMemberEnds(depth, s); }
    ValueReadsBack(members.value, depth + 1, " " + valueText, u);
    if members.rest.Member? {
      assert SkipSpace(u)[1..] == NewLine(depth + 1) + NamedText(members.rest, depth, s);
      SkipsNewLine(depth + 1, NamedText(members.rest, depth, s));
      assert NamedText(members.rest, depth, s)[0] == '\"';
      MembersReadBack(members.rest, depth, SkipSpace(u)[1..], s);
    } else {
      assert SkipSpace(u)[1..] == s;
    }
  }

  lemma ArrayReadsBack(items: Items, depth: nat, t: string, s: string)
    requires ItemsWellFormed(items) && SkipSpace(t) == Pretty(Array(items), depth) + s
    ensures ParseValue(t) == Parsed(Array(items), s)
    decreases items, 1
  {
    hide ParseItems, NewLine, SkipSpace, IsLiteral, LiteralLength;
    var u := SkipSpace(t);
    if items == NoItem {
      assert u == "[]" + s && u[1..] == "]" + s && u[1..][1..] == s;
      SkipsNothing(']', s);
    } else {
      var next := Pretty(items.head, depth + 1) + AfterItem(items.tail, depth, s);
      assert u[1..] == NewLine(depth + 1) + next;
      SkipsNewLine(depth + 1, next);
      FirstCharacter(items.head, depth + 1, AfterItem(items.tail, depth, s));
      ItemsReadBack(items, depth, u[1..], s);
    }
  }

  lemma ObjectReadsBack(members: Members, depth: nat, t: string, s: string)
    requires MembersWellFormed(members) && SkipSpace(t) == Pretty(Object(members), depth) + s
    ensures ParseValue(t) == Parsed(Object(members), s)
    decreases members, 1
  {
    hide ParseMembers, NewLine, SkipSpace, Quoted, IsLiteral, LiteralLength;
    var u := SkipSpace(t);
    if members == NoMember {
      assert u == "{}" + s && u[1..] == "}" + s && u[1..][1..] == s;
      SkipsNothing('}', s);
    } else {
      assert u[1..] == NewLine(depth + 1) + NamedText(members, depth, s);
      SkipsNewLine(depth + 1, NamedText(members, depth, s));
      QuotedFirst(members, depth, s);
      MembersReadBack(members, depth, u[1..], s);
    }
  }

  lemma SkipsNothing(c: char, s: string)
    requires !IsSpace(c)
    ensures SkipSpace([c] + s) == [c] + s
  {
  }

  lemma QuotedFirst(members: Members, depth: nat, s: string)
    requires members.Member?
    ensures var text := NamedText(members, depth, s); text != [] && text[0] == '\"' && SkipSpace(text) == text
  {
    hide Pretty, AfterMember, Escaped;
  }

  // The parser reads any value back from its text, after any space.
  lemma {:induction false} ValueReadsBack(v: Json, depth: nat, t: string, s: string)
    requires WellFormed(v) && SkipSpace(t) == Pretty(v, depth) + s && (v.Literal? ==> Ends(s))
    ensures ParseValue(t) == Parsed(v, s)
    decreases v, 2
  {
    hide ParseItems, ParseMembers, PrettyItems, PrettyMembers, Escaped, ParseString, IsLiteral;
    match v {
      case Literal(text) =>
        LiteralOfLiteralChars(text);
        LiteralReadsBack(text, s);
        assert (text + s)[..|text|] == text && (text + s)[|text|..] == s;
      case Text(value) =>
        StringReadsBack(value, s);
        assert SkipSpace(t)[1..] == Escaped(value) + "\"" + s;
      case Array(items) => ArrayReadsBack(items, depth, t, s);
      case Object(members) => ObjectReadsBack(members, depth, t, s);
    }
  }

  lemma DocumentReadsBack(v: Json)
    requires WellFormed(v)
    ensures ParseDocument(Pretty(v, 0)) == Some(v)
  {
    FirstCharacter(v, 0, "");
    ValueReadsBack(v, 0, Pretty(v, 0), "");
    assert Pretty(v, 0) + "" == Pretty(v, 0);
    hide Pretty, ParseValue;
  }
}
