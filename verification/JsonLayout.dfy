/**
 The layout of the JSON documents of grinfo (tools/grinfo_main.cpp), told from the characters alone: where a line may
 break, and how far the next one is indented.
 */
module JsonLayout {
  import opened Numerals
  import opened JsonText

  function Blanks(s: string): (n: nat)
    ensures n <= |s|
  {
    if s != [] && s[0] == ' ' then 1 + Blanks(s[1..]) else 0
  }

  predicate Opens(c: char) { c == '[' || c == '{' }

  predicate Closes(c: char) { c == ']' || c == '}' }

  // A text read from inside `depth` open brackets, or from inside a string. A bracket is closed at once or its line
  // ends, and so does a line after a comma. The next line begins two spaces further for each bracket open, one that
  // closes a bracket with the line's own. There is one space after a colon and no other.
  predicate Laid(s: string, depth: nat, quoted: bool)
    decreases |s|
  {
    if s == [] then depth == 0 && !quoted
    else if quoted then
      if s[0] == '\\' then |s| > 1 && Laid(s[2..], depth, true) else Laid(s[1..], depth, s[0] != '\"')
    else if s[0] == '\"' then Laid(s[1..], depth, true)
    else if Opens(s[0]) then
      |s| > 1 && if Closes(s[1]) then Laid(s[2..], depth, false) else s[1] == '\n' && Laid(s[1..], depth + 1, false)
    else if s[0] == ',' then |s| > 1 && s[1] == '\n' && Laid(s[1..], depth, false)
    else if s[0] == ':' then |s| > 2 && s[1] == ' ' && !IsSpace(s[2]) && Laid(s[2..], depth, false)
    else if s[0] == '\n' then
      var n := Blanks(s[1..]);
      && n + 1 < |s|
      && if Closes(s[n + 1]) then 0 < depth && n == 2 * (depth - 1) && Laid(s[n + 2..], depth - 1, false)
         else n == 2 * depth && !IsSpace(s[n + 1]) && Laid(s[n + 1..], depth, false)
    else !IsSpace(s[0]) && !Closes(s[0]) && Laid(s[1..], depth, false)
  }

  lemma {:induction false} BlanksCounted(n: nat, s: string)
    requires s != [] && s[0] != ' '
    ensures Blanks(Spaces(n) + s) == n
  {
    if n == 0 {
      assert Spaces(0) + s == s;
    } else {
      assert (Spaces(n) + s)[1..] == Spaces(n - 1) + s;
      BlanksCounted(n - 1, s);
    }
  }

  lemma NewLineLaid(depth: nat, s: string)
    requires s != [] && !IsSpace(s[0]) && !Closes(s[0]) && Laid(s, depth, false)
    ensures Laid(NewLine(depth) + s, depth, false)
  {
    var t := NewLine(depth) + s;
    BlanksCounted(2 * depth, s);
    assert t[1..] == Spaces(2 * depth) + s && t[2 * depth + 1..] == s;
  }

  lemma ClosingLaid(depth: nat, c: char, s: string)
    requires Closes(c) && Laid(s, depth, false)
    ensures Laid(NewLine(depth) + ([c] + s), depth + 1, false)
  {
    var u := [c] + s;
    var t := NewLine(depth) + u;
    BlanksCounted(2 * depth, u);
    assert t[1..] == Spaces(2 * depth) + u && t[2 * depth + 1..] == u && t[2 * depth + 2..] == s;
  }

  lemma {:induction false} LiteralLaid(text: string, depth: nat, s: string)
    requires OfLiteralChars(text) && Laid(s, depth, false)
    ensures Laid(text + s, depth, false)
  {
    if text == [] {
      assert text + s == s;
    } else {
      LiteralLaid(text[1..], depth, s);
      assert (text + s)[1..] == text[1..] + s;
    }
  }

  lemma HexDigitIsPlain(n: nat)
    requires n < 16
    ensures HexDigit(n) != '\\' && HexDigit(n) != '\"'
  {
  }

  lemma EscapeLaid(c: char, depth: nat, s: string)
    requires Laid(s, depth, true)
    ensures Laid(Escape(c) + s, depth, true)
  {
    var e := Escape(c);
    if e[0] == '\\' {
      assert (e + s)[2..] == e[2..] + s;
      if |e| == 6 {
        HexDigitIsPlain(c as nat / 16);
        HexDigitIsPlain(c as nat % 16);
        hide Escape;
        PlainLaid(e[2..], depth, s);
      } else {
        assert e[2..] + s == s;
      }
    } else {
      assert (e + s)[1..] == s;
    }
  }

  // inside a string, characters that are no quotation mark and no backslash
  lemma {:induction false} PlainLaid(text: string, depth: nat, s: string)
    requires (forall i :: 0 <= i < |text| ==> text[i] != '\\' && text[i] != '\"') && Laid(s, depth, true)
    ensures Laid(text + s, depth, true)
  {
    if text == [] {
      assert text + s == s;
    } else {
      PlainLaid(text[1..], depth, s);
      assert (text + s)[1..] == text[1..] + s;
    }
  }

  lemma {:induction false} EscapedLaid(value: string, depth: nat, s: string)
    requires Laid(s, depth, true)
    ensures Laid(Escaped(value) + s, depth, true)
  {
    hide Escape;
    if value == [] {
      assert Escaped(value) + s == s;
    } else {
      EscapedLaid(value[1..], depth, s);
      EscapeLaid(value[0], depth, Escaped(value[1..]) + s);
      assert Escaped(value) + s == Escape(value[0]) + (Escaped(value[1..]) + s);
    }
  }

  lemma QuotedLaid(value: string, depth: nat, s: string)
    requires Laid(s, depth, false)
    ensures Laid(Quoted(value) + s, depth, false)
  {
    hide Escaped;
    var t := "\"" + s;
    assert t[1..] == s;
    EscapedLaid(value, depth, t);
    assert Quoted(value) + s == "\"" + (Escaped(value) + t);
    assert ("\"" + (Escaped(value) + t))[1..] == Escaped(value) + t;
  }

  // the items of an array from one on, each on its line, and the closing bracket
  function ItemLines(items: Items, depth: nat, s: string): string
    requires items.Item?
  {
    NewLine(depth + 1) + (Pretty(items.head, depth + 1) + AfterItem(items.tail, depth, s))
  }

  lemma AfterItemLaid(tail: Items, depth: nat, s: string)
    requires Laid(s, depth, false)
    requires tail.Item? ==> Laid(ItemLines(tail, depth, s), depth + 1, false)
    ensures Laid(AfterItem(tail, depth, s), depth + 1, false)
  {
    hide Laid, Pretty;
    if tail.Item? {
      NextItemEnds(tail, depth, s);
      BrokenAfterComma(ItemLines(tail, depth, s), depth + 1);
    } else {
      assert AfterItem(NoItem, depth, s) == NewLine(depth) + ("]" + s);
      ClosingLaid(depth, ']', s);
    }
  }

  lemma BrokenAfterComma(s: string, depth: nat)
    requires Laid(s, depth, false) && s != []
    ensures s[0] == '\n' ==> Laid("," + s, depth, false)
  {
    assert ("," + s)[1..] == s;
  }

  lemma {:induction false} ItemsLaid(items: Items, depth: nat, s: string)
    requires items.Item? && ItemsWellFormed(items) && Laid(s, depth, false)
    ensures Laid(ItemLines(items, depth, s), depth + 1, false)
    decreases items, 0
  {
    hide Laid, Pretty, AfterItem, PrettyItems;
    if items.tail.Item? { ItemsLaid(items.tail, depth, s); }
    AfterItemLaid(items.tail, depth, s);
    ValueLaid(items.head, depth + 1, AfterItem(items.tail, depth, s));
    FirstCharacter(items.head, depth + 1, AfterItem(items.tail, depth, s));
    NewLineLaid(depth + 1, Pretty(items.head, depth + 1) + AfterItem(items.tail, depth, s));
  }

  // likewise for the members of an object
  function MemberLines(members: Members, depth: nat, s: string): string
    requires members.Member?
  {
    NewLine(depth + 1) + NamedText(members, depth, s)
  }

  lemma AfterMemberLaid(rest: Members, depth: nat, s: string)
    requires Laid(s, depth, false)
    requires rest.Member? ==> Laid(MemberLines(rest, depth, s), depth + 1, false)
    ensures Laid(AfterMember(rest, depth, s), depth + 1, false)
  {
    hide Laid, Pretty, NamedText;
    if rest.Member? {
      MemberTextIs(rest, depth, s);
      BrokenAfterComma(MemberLines(rest, depth, s), depth + 1);
    } else {
      assert AfterMember(NoMember, depth, s) == NewLine(depth) + ("}" + s);
      ClosingLaid(depth, '}', s);
    }
  }

  lemma ColonLaid(s: string, depth: nat)
    requires s != [] && !IsSpace(s[0]) && Laid(s, depth, false)
    ensures Laid(": " + s, depth, false)
  {
    var t := ": " + s;
    assert t[2..] == s;
  }

  lemma {:induction false} MembersLaid(members: Members, depth: nat, s: string)
    requires members.Member? && MembersWellFormed(members) && Laid(s, depth, false)
    ensures Laid(MemberLines(members, depth, s), depth + 1, false)
    decreases members, 0
  {
    hide Laid, Pretty, AfterMember, PrettyMembers, Escaped;
    if members.rest.Member? { MembersLaid(members.rest, depth, s); }
    AfterMemberLaid(members.rest, depth, s);
    var after := AfterMember(members.rest, depth, s);
    ValueLaid(members.value, depth + 1, after);
    FirstCharacter(members.value, depth + 1, after);
    ColonLaid(Pretty(members.value, depth + 1) + after, depth + 1);
    QuotedLaid(members.name, depth + 1, ": " + (Pretty(members.value, depth + 1) + after));
    NewLineLaid(depth + 1, NamedText(members, depth, s));
  }

  lemma OpeningLaid(open: char, s: string, depth: nat)
    requires Opens(open) && s != []
    requires if Closes(s[0]) then Laid(s[1..], depth, false) else s[0] == '\n' && Laid(s, depth + 1, false)
    ensures Laid([open] + s, depth, false)
  {
    assert ([open] + s)[1..] == s && ([open] + s)[2..] == s[1..];
  }

  // A value's text is laid out at any depth.
  lemma {:induction false} ValueLaid(v: Json, depth: nat, s: string)
    requires WellFormed(v) && Laid(s, depth, false)
    ensures Laid(Pretty(v, depth) + s, depth, false)
    decreases v, 2
  {
    hide Laid, IsLiteral, NewLine, Escaped;
    match v {
      case Literal(text) =>
        LiteralOfLiteralChars(text);
        LiteralLaid(text, depth, s);
      case Text(value) => QuotedLaid(value, depth, s);
      case Array(items) => ArrayLaid(items, depth, s);
      case Object(members) => ObjectLaid(members, depth, s);
    }
  }

  lemma ArrayLaid(items: Items, depth: nat, s: string)
    requires ItemsWellFormed(items) && Laid(s, depth, false)
    ensures Laid(Pretty(Array(items), depth) + s, depth, false)
    decreases items, 1
  {
    hide Laid, Pretty;
    ArrayText(items, depth, s);
    if items == NoItem {
      assert ("]" + s)[1..] == s;
      OpeningLaid('[', "]" + s, depth);
    } else {
      ItemsLaid(items, depth, s);
      OpeningLaid('[', ItemLines(items, depth, s), depth);
    }
  }

  lemma ObjectLaid(members: Members, depth: nat, s: string)
    requires MembersWellFormed(members) && Laid(s, depth, false)
    ensures Laid(Pretty(Object(members), depth) + s, depth, false)
    decreases members, 1
  {
    hide Laid, Quoted, Pretty;
    ObjectText(members, depth, s);
    if members == NoMember {
      assert ("}" + s)[1..] == s;
      OpeningLaid('{', "}" + s, depth);
    } else {
      MembersLaid(members, depth, s);
      OpeningLaid('{', MemberLines(members, depth, s), depth);
    }
  }

  lemma ObjectText(members: Members, depth: nat, s: string)
    ensures Pretty(Object(members), depth) + s
         == "{" + if members == NoMember then "}" + s else MemberLines(members, depth, s)
  {
    hide NewLine, Quoted;
    if members.Member? {
      var name, value := Quoted(members.name), Pretty(members.value, depth + 1);
      var line, rest := NewLine(depth + 1), PrettyMembers(members.rest, depth + 1, false);
      assert PrettyMembers(members, depth + 1, true) == line + name + ": " + value + rest;
      assert Pretty(Object(members), depth) == "{" + (line + name + ": " + value + rest) + NewLine(depth) + "}";
      assert AfterMember(members.rest, depth, s) == rest + NewLine(depth) + "}" + s;
      hide Pretty, PrettyMembers, AfterMember;
      MemberRegroups(line, name, value, rest, NewLine(depth), s);
    }
  }

  lemma MemberRegroups(line: string, name: string, value: string, rest: string, last: string, s: string)
    ensures "{" + (line + name + ": " + value + rest) + last + "}" + s
         == "{" + (line + (name + (": " + (value + (rest + last + "}" + s)))))
  {
  }

  lemma ArrayText(items: Items, depth: nat, s: string)
    ensures Pretty(Array(items), depth) + s
         == "[" + if items == NoItem then "]" + s else ItemLines(items, depth, s)
  {
    hide NewLine;
    if items.Item? {
      var line, value := NewLine(depth + 1), Pretty(items.head, depth + 1);
      var rest := PrettyItems(items.tail, depth + 1, false);
      assert PrettyItems(items, depth + 1, true) == line + value + rest;
      assert Pretty(Array(items), depth) == "[" + (line + value + rest) + NewLine(depth) + "]";
      assert AfterItem(items.tail, depth, s) == rest + NewLine(depth) + "]" + s;
      hide Pretty, PrettyItems, AfterItem;
      ItemRegroups(line, value, rest, NewLine(depth), s);
    }
  }

  lemma ItemRegroups(line: string, value: string, rest: string, last: string, s: string)
    ensures "[" + (line + value + rest) + last + "]" + s == "[" + (line + (value + (rest + last + "]" + s)))
  {
  }

  // Every line of a document is indented by the brackets open before it, and all of them are closed at its end.
  lemma DocumentLaid(v: Json)
    requires WellFormed(v)
    ensures Laid(Pretty(v, 0), 0, false)
  {
    ValueLaid(v, 0, "");
    assert Pretty(v, 0) + "" == Pretty(v, 0);
  }
}
