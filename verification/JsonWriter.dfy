/**
 `JsonWriter` (tools/grinfo_main.cpp): writes a document call by call, keeping only the depth, whether anything stands
 in the open bracket, and whether a key waits for its value.
 */
module JsonWriter {
  import opened Wrappers
  import opened JsonText

  datatype Pen = Pen(text: string, depth: nat, first: bool, afterKey: bool)

  // what stands before the next value
  function Lead(p: Pen): string {
    if p.afterKey then "" else Comma(p.first) + if p.first && p.depth == 0 then "" else NewLine(p.depth)
  }

  // a value written at once, as the text of its tree
  function Wrote(p: Pen, v: Json): Pen {
    p.(text := p.text + (Lead(p) + Pretty(v, p.depth)), first := false, afterKey := false)
  }

  function Keyed(p: Pen, name: string): Pen {
    p.(text := p.text + (Lead(p) + (Quoted(name) + ": ")), first := false, afterKey := true)
  }

  class Writer {
    var text: string
    var depth: nat
    var first: bool
    var afterKey: bool

    ghost function Now(): Pen
      reads this
    {
      Pen(text, depth, first, afterKey)
    }

    // a key is never the first thing of its bracket once it is written
    ghost predicate Valid()
      reads this
    {
      afterKey ==> !first
    }

    constructor ()
      ensures Valid() && Now() == Pen("", 0, true, false)
    {
      text, depth, first, afterKey := "", 0, true, false;
    }

    method Separate()
      requires Valid()
      modifies this
      ensures Now() == old(Now()).(text := old(text) + Lead(old(Now())), first := false, afterKey := false)
    {
      if afterKey {
        afterKey := false;
        return;
      }
      if !first {
        text := text + ",";
      }
      if !(first && depth == 0) {
        text := text + "\n";
        text := text + Spaces(depth * 2);
      }
      first := false;
    }

    method Open(bracket: char)
      requires Valid()
      modifies this
      ensures Now() == Pen(old(text) + (Lead(old(Now())) + [bracket]), old(depth) + 1, true, false)
    {
      Separate();
      text := text + [bracket];
      depth := depth + 1;
      first := true;
    }

    // a bracket closes on a line of its own, and at once where nothing stands in it
    method Close(bracket: char)
      requires 0 < depth
      modifies this
      ensures Now() == Pen(old(text) + (Closing(old(first), old(depth) - 1) + [bracket]), old(depth) - 1, false,
                           old(afterKey))
    {
      depth := depth - 1;
      if !first {
        text := text + "\n";
        text := text + Spaces(depth * 2);
      }
      text := text + [bracket];
      first := false;
    }

    method BeginObject()
      requires Valid()
      modifies this
      ensures Now() == Pen(old(text) + (Lead(old(Now())) + "{"), old(depth) + 1, true, false)
    {
      Open('{');
    }

    method EndObject()
      requires 0 < depth
      modifies this
      ensures Now() == Pen(old(text) + (Closing(old(first), old(depth) - 1) + "}"),
                           old(depth) - 1, false, old(afterKey))
    {
      Close('}');
    }

    method BeginArray()
      requires Valid()
      modifies this
      ensures Now() == Pen(old(text) + (Lead(old(Now())) + "["), old(depth) + 1, true, false)
    {
      Open('[');
    }

    method EndArray()
      requires 0 < depth
      modifies this
      ensures Now() == Pen(old(text) + (Closing(old(first), old(depth) - 1) + "]"),
                           old(depth) - 1, false, old(afterKey))
    {
      Close(']');
    }

    method AppendQuoted(value: string)
      modifies `text
      ensures text == old(text) + Quoted(value)
    {
      hide Escape, Escaped;
      text := text + "\"";
      ghost var before := text;
      EscapedNothing();
      for i := 0 to |value|
        invariant text == before + Escaped(value[..i])
      {
        EscapedNext(value, i);
        text := text + Escape(value[i]);
      }
      assert value[..|value|] == value;
      text := text + "\"";
    }

    method Key(name: string)
      requires Valid()
      modifies this
      ensures Valid()
      ensures Now() == Keyed(old(Now()), name)
    {
      hide Quoted, Lead;
      Separate();
      AppendQuoted(name);
      text := text + ": ";
      afterKey := true;
    }

    method Raw(value: string)
      requires Valid()
      modifies this
      ensures Now() == Wrote(old(Now()), Literal(value))
    {
      Separate();
      text := text + value;
    }

    method String(value: string)
      requires Valid()
      modifies this
      ensures Now() == Wrote(old(Now()), Text(value))
    {
      hide Quoted, Lead;
      Separate();
      AppendQuoted(value);
    }

    // the calls of a value tree: brackets around the calls of what stands in them
    method WriteValue(v: Json)
      requires Valid()
      modifies this
      ensures Now() == Wrote(old(Now()), v)
      decreases v, 2
    {
      hide Wrote;
      match v {
        case Literal(value) => Raw(value);
        case Text(value) => String(value);
        case Array(items) => WriteArray(items);
        case Object(members) => WriteObject(members);
      }
    }

    method WriteArray(items: Items)
      requires Valid()
      modifies this
      ensures Now() == Wrote(old(Now()), Array(items))
      decreases items, 1
    {
      hide PrettyItems, Closing, Lead;
      BeginArray();
      WriteItems(items);
      EndArray();
      Regroup(old(text), Lead(old(Now())), "[", PrettyItems(items, old(depth) + 1, true),
              Closing(items == NoItem, old(depth)), "]");
    }

    method WriteObject(members: Members)
      requires Valid()
      modifies this
      ensures Now() == Wrote(old(Now()), Object(members))
      decreases members, 1
    {
      hide PrettyMembers, Closing, Lead;
      BeginObject();
      WriteMembers(members);
      EndObject();
      Regroup(old(text), Lead(old(Now())), "{", PrettyMembers(members, old(depth) + 1, true),
              Closing(members == NoMember, old(depth)), "}");
    }

    method WriteItems(items: Items)
      requires 0 < depth && !afterKey
      modifies this
      ensures Now() == Pen(old(text) + PrettyItems(items, old(depth), old(first)), old(depth),
                           old(first) && items == NoItem, false)
      decreases items, 0
    {
      hide Pretty, PrettyItems, NewLine, Lead;
      NoItemText();
      var rest := items;
      while rest.Item?
        invariant text + PrettyItems(rest, depth, first) == old(text) + PrettyItems(items, depth, old(first))
        invariant depth == old(depth) && !afterKey && Valid()
        invariant first == (old(first) && rest == items) && (rest != items ==> items != NoItem)
        decreases rest
      {
        ItemText(Now(), rest);
        WriteValue(rest.head);
        rest := rest.tail;
      }
    }

    method WriteMembers(members: Members)
      requires 0 < depth && !afterKey
      modifies this
      ensures Now() == Pen(old(text) + PrettyMembers(members, old(depth), old(first)), old(depth),
                           old(first) && members == NoMember, false)
      decreases members, 0
    {
      hide Pretty, PrettyMembers, NewLine, Quoted, Lead;
      NoMemberText();
      var rest := members;
      while rest.Member?
        invariant text + PrettyMembers(rest, depth, first) == old(text) + PrettyMembers(members, depth, old(first))
        invariant depth == old(depth) && !afterKey && Valid()
        invariant first == (old(first) && rest == members) && (rest != members ==> members != NoMember)
        decreases rest
      {
        MemberText(Now(), rest);
        Key(rest.name);
        WriteValue(rest.value);
        rest := rest.rest;
      }
    }
  }

  lemma Regroup(text: string, lead: string, open: string, inside: string, line: string, close: string)
    ensures text + (lead + open) + inside + (line + close) == text + (lead + (open + inside + line + close))
  {
  }

  lemma NoMemberText()
    ensures forall depth, first :: PrettyMembers(NoMember, depth, first) == ""
  {
  }

  lemma NoItemText()
    ensures forall depth, first :: PrettyItems(NoItem, depth, first) == ""
  {
  }

  // the calls of one item, or one member, leave its part of the text
  lemma ItemText(p: Pen, items: Items)
    requires items.Item? && !p.afterKey && 0 < p.depth
    ensures Wrote(p, items.head).text + PrettyItems(items.tail, p.depth, false)
      == p.text + PrettyItems(items, p.depth, p.first)
  {
    hide Pretty, NewLine;
  }

  lemma MemberText(p: Pen, m: Members)
    requires m.Member? && !p.afterKey && 0 < p.depth
    ensures Wrote(Keyed(p, m.name), m.value).text + PrettyMembers(m.rest, p.depth, false)
      == p.text + PrettyMembers(m, p.depth, p.first)
  {
    hide Pretty, Quoted, NewLine;
    Regrouped(p.text, Comma(p.first) + NewLine(p.depth), Quoted(m.name), ": ", Pretty(m.value, p.depth),
              PrettyMembers(m.rest, p.depth, false));
  }

  lemma Regrouped(text: string, lead: string, name: string, colon: string, value: string, rest: string)
    ensures (text + (lead + (name + colon))) + ("" + value) + rest == text + (lead + name + colon + value + rest)
  {
    assert "" + value == value;
    assert lead + (name + colon) == lead + name + colon;
    assert text + (lead + name + colon) + value + rest == text + (lead + name + colon + value + rest);
  }

  lemma {:induction false} EscapedSnoc(s: string, c: char)
    ensures Escaped(s + [c]) == Escaped(s) + Escape(c)
  {
    if s == [] {
      assert s + [c] == [c];
    } else {
      assert (s + [c])[1..] == s[1..] + [c];
      EscapedSnoc(s[1..], c);
    }
  }

  lemma EscapedNothing()
    ensures Escaped([]) == []
  {
  }

  lemma EscapedNext(value: string, i: nat)
    requires i < |value|
    ensures Escaped(value[..i + 1]) == Escaped(value[..i]) + Escape(value[i])
  {
    EscapedSnoc(value[..i], value[i]);
    assert value[..i + 1] == value[..i] + [value[i]];
  }

  // The text of a whole document is its pretty-printed tree, and reads back as the tree.
  method WriteDocument(v: Json) returns (text: string)
    ensures text == Pretty(v, 0)
    ensures WellFormed(v) ==> ParseDocument(text) == Some(v)
  {
    hide Pretty, ParseDocument;
    var json := new Writer();
    json.WriteValue(v);
    text := json.text;
    if WellFormed(v) {
      DocumentReadsBack(v);
    }
  }
}
