/**
 Type parameters in the text of instantiations (tools/grinfo_main.cpp): `replaceAll` puts a placeholder for each
 occurrence of a parameter and `substitute` puts the parameters back.
 */
module Placeholders {
  import opened Wrappers
  import opened Numerals

  // --- replaceAll -------------------------------------------------------------------------------------------------

  predicate StandsAt(s: string, p: string, k: nat) { k + |p| <= |s| && s[k..k + |p|] == p }

  // the first occurrence of p
  function Find(s: string, p: string): (r: Option<nat>)
    ensures r.Some? ==> StandsAt(s, p, r.value) && forall j :: 0 <= j < r.value ==> !StandsAt(s, p, j)
    ensures r.None? ==> forall j :: 0 <= j ==> !StandsAt(s, p, j)
  {
    if |s| < |p| then None
    else if s[..|p|] == p then Some(0)
    else
      assert p != [];
      FindSkips(s, p);
      match Find(s[1..], p)
      case None => None
      case Some(k) => Some(k + 1)
  }

  lemma FindSkips(s: string, p: string)
    requires s != []
    ensures forall j: nat :: StandsAt(s[1..], p, j) <==> StandsAt(s, p, j + 1)
    ensures forall j: nat :: 0 < j && StandsAt(s, p, j) ==> StandsAt(s[1..], p, j - 1)
  {
    forall j: nat ensures StandsAt(s[1..], p, j) <==> StandsAt(s, p, j + 1) {
      if j + 1 + |p| <= |s| {
        assert s[1..][j..j + |p|] == s[j + 1..j + 1 + |p|];
      }
    }
    forall j: nat | 0 < j && StandsAt(s, p, j) ensures StandsAt(s[1..], p, j - 1) {
      assert s[1..][j - 1..j - 1 + |p|] == s[j..j + |p|];
    }
  }

  // every occurrence from left to right, none inside what was put in
  function Replaced(s: string, from: string, to: string): string
    requires from != []
    decreases |s|, 1
  {
    var at := Find(s, from);
    if at.None? then s else After(s, at.value, from, to)
  }

  // ... from the k-th character on, where the first one stands
  function After(s: string, k: nat, from: string, to: string): string
    requires from != [] && StandsAt(s, from, k)
    decreases |s|, 0
  {
    s[..k] + to + Replaced(s[k + |from|..], from, to)
  }

  method ReplaceAll(text: string, from: string, to: string) returns (r: string)
    ensures r == if from == [] then text else Replaced(text, from, to)
  {
    r := text;
    if from == [] {
      return;
    }
    var done := 0;
    var at := Find(r, from);
    while at.Some?
      invariant done <= |r| && at == Find(r[done..], from)
      invariant r[..done] + Replaced(r[done..], from, to) == Replaced(text, from, to)
      decreases |r| - done
    {
      var k := done + at.value;
      NextReplaced(r, done, k, from, to);
      r := r[..k] + to + r[k + |from|..];
      done := k + |to|;
      at := Find(r[done..], from);
    }
    assert r[..done] + r[done..] == r;
  }

  lemma NextReplaced(r: string, done: nat, k: nat, from: string, to: string)
    requires from != [] && done <= k <= |r| && Find(r[done..], from) == Some(k - done)
    ensures k + |from| <= |r|
    ensures var next := r[..k] + to + r[k + |from|..];
            && k + |to| <= |next| && |next| - (k + |to|) < |r| - done
            && next[..k + |to|] + Replaced(next[k + |to|..], from, to) == r[..done] + Replaced(r[done..], from, to)
  {
    hide Replaced, Find, StandsAt;
    FoundFits(r[done..], k - done, from);
    ReplacedAt(r[done..], k - done, from, to);
    assert r[done..][k - done + |from|..] == r[k + |from|..];
    Spliced(r, done, k, to, r[k + |from|..], Replaced(r[k + |from|..], from, to));
    Sliced(r[..k] + to, r[k + |from|..]);
  }

  lemma FoundFits(s: string, k: nat, from: string)
    requires Find(s, from) == Some(k)
    ensures k + |from| <= |s|
  {
    hide Find;
    assert StandsAt(s, from, k);
  }

  lemma ReplacedIsAfter(s: string, k: nat, from: string, to: string)
    requires from != [] && Find(s, from) == Some(k)
    ensures Replaced(s, from, to) == After(s, k, from, to)
  {
    hide Find, StandsAt, After;
  }

  lemma ReplacedAt(s: string, k: nat, from: string, to: string)
    requires from != [] && Find(s, from) == Some(k) && k + |from| <= |s|
    ensures Replaced(s, from, to) == s[..k] + to + Replaced(s[k + |from|..], from, to)
  {
    hide Find, StandsAt, Replaced;
    ReplacedIsAfter(s, k, from, to);
  }

  lemma Spliced(r: string, done: nat, k: nat, to: string, rest: string, tail: string)
    requires done <= k <= |r|
    ensures r[..k] + to + tail == r[..done] + (r[done..][..k - done] + to + tail)
  {
  }

  lemma Sliced(a: string, b: string)
    ensures (a + b)[..|a|] == a && (a + b)[|a|..] == b
  {
  }

  // --- substitute -------------------------------------------------------------------------------------------------

  // the placeholder in front: its parameter, and where the text goes on
  function Placeholder(s: string, parameters: seq<string>): (r: Option<(nat, nat)>)
    ensures r.Some? ==> r.value.0 < |parameters| && 0 < r.value.1 <= |s|
  {
    if s == [] || s[0] != '{' then None
    else
      match IndexOf(s, '}')
      case None => None
      case Some(close) =>
        if close <= 1 then None
        else match FromChars(s[1..close])
             case None => None
             case Some(i) => if i < |parameters| then Some((i, close + 1)) else None
  }

  function Substituted(s: string, parameters: seq<string>): string
    decreases |s|
  {
    if s == [] then ""
    else match Placeholder(s, parameters)
         case Some((i, next)) => parameters[i] + Substituted(s[next..], parameters)
         case None => [s[0]] + Substituted(s[1..], parameters)
  }

  method Substitute(pattern: string, parameters: seq<string>) returns (out: string)
    ensures out == Substituted(pattern, parameters)
  {
    hide Substituted, FromChars;
    out := "";
    var i := 0;
    SubstitutedStep(pattern[|pattern|..], parameters);
    while i < |pattern|
      invariant i <= |pattern| && out + Substituted(pattern[i..], parameters) == Substituted(pattern, parameters)
    {
      SubstitutedStep(pattern[i..], parameters);
      var close := IndexOf(pattern[i..], '}');
      if pattern[i] == '{' && close.Some? && close.value > 1 {
        var digits := pattern[i..][1..close.value];
        var index := FromChars(digits);
        if index.Some? && index.value < |parameters| {
          out := out + parameters[index.value];
          assert pattern[i..][close.value + 1..] == pattern[i + close.value + 1..];
          i := i + close.value + 1;
          continue;
        }
      }
      out := out + [pattern[i]];
      assert pattern[i..][1..] == pattern[i + 1..];
      i := i + 1;
    }
  }

  lemma SubstitutedStep(s: string, parameters: seq<string>)
    ensures Substituted("", parameters) == ""
    ensures var r := Placeholder(s, parameters);
            && (r.Some? ==>
                  Substituted(s, parameters) == parameters[r.value.0] + Substituted(s[r.value.1..], parameters))
            && (s != [] && r.None? ==> Substituted(s, parameters) == [s[0]] + Substituted(s[1..], parameters))
  {
  }

  // --- the round trip, and when it holds -------------------------------------------------------------------------

  // no brace of the text is followed by a digit
  predicate NoneOpens(text: string) {
    forall k :: 0 <= k < |text| && text[k] == '{' ==> k + 1 == |text| || !IsDigit(text[k + 1])
  }

  lemma PlaceholderReads(i: nat, rest: string, parameters: seq<string>)
    requires i < |parameters| && i < SIZE_LIMIT
    ensures Substituted("{" + Decimal(i) + "}" + rest, parameters) == parameters[i] + Substituted(rest, parameters)
  {
    hide Decimal, FromChars, IndexOf, Substituted;
    var digits := Decimal(i);
    var s := "{" + digits + "}" + rest;
    SubstitutedStep(s, parameters);
    assert s[|digits| + 1] == '}';
    forall k | 0 <= k < |digits| + 1 ensures s[k] != '}' { assert k > 0 ==> IsDigit(digits[k - 1]); }
    FirstIndexOf(s, '}', |digits| + 1);
    assert s[1..|digits| + 1] == digits;
    FromCharsReadsDecimal(i);
    assert s[|digits| + 2..] == rest;
  }

  // the replacement one step from the left
  lemma ReplacedStep(text: string, from: string, to: string)
    requires from != []
    ensures text == [] ==> Replaced(text, from, to) == []
    ensures StandsAt(text, from, 0) ==> Replaced(text, from, to) == to + Replaced(text[|from|..], from, to)
    ensures text != [] && !StandsAt(text, from, 0) ==>
      Replaced(text, from, to) == [text[0]] + Replaced(text[1..], from, to)
  {
    if StandsAt(text, from, 0) {
      ReplacedHere(text, from, to);
    } else if text != [] {
      ReplacedLater(text, from, to);
    }
  }

  lemma ReplacedHere(text: string, from: string, to: string)
    requires from != [] && StandsAt(text, from, 0)
    ensures Replaced(text, from, to) == to + Replaced(text[|from|..], from, to)
  {
    var at := Find(text, from);
    assert at == Some(0);
    ReplacedAt(text, 0, from, to);
    hide Replaced, Find;
  }

  lemma ReplacedLater(text: string, from: string, to: string)
    requires from != [] && text != [] && !StandsAt(text, from, 0)
    ensures Replaced(text, from, to) == [text[0]] + Replaced(text[1..], from, to)
  {
    hide Find, StandsAt, Replaced, After;
    FoundLater(text, from);
    if Find(text[1..], from).Some? {
      FoundFits(text[1..], Find(text[1..], from).value, from);
      LaterReplaced(text, Find(text[1..], from).value, from, to);
    } else {
      NotFound(text, from, to);
      NotFound(text[1..], from, to);
      assert text == [text[0]] + text[1..];
    }
  }

  lemma NotFound(s: string, from: string, to: string)
    requires from != [] && Find(s, from).None?
    ensures Replaced(s, from, to) == s
  {
    hide Find, StandsAt, After;
  }

  lemma LaterReplaced(text: string, k: nat, from: string, to: string)
    requires from != [] && text != [] && k + 1 + |from| <= |text|
    requires Find(text[1..], from) == Some(k) && Find(text, from) == Some(k + 1)
    ensures Replaced(text, from, to) == [text[0]] + Replaced(text[1..], from, to)
  {
    hide Find, StandsAt, Replaced;
    ReplacedAt(text[1..], k, from, to);
    ReplacedAt(text, k + 1, from, to);
    assert text[1..][k + |from|..] == text[k + 1 + |from|..];
    assert text[..k + 1] == [text[0]] + text[1..][..k];
  }

  lemma FoundLater(text: string, from: string)
    requires text != [] && !StandsAt(text, from, 0)
    ensures Find(text, from) == match Find(text[1..], from) case None => None case Some(k) => Some(k + 1)
    ensures Find(text, from).Some? ==> Find(text, from).value + |from| <= |text|
  {
    assert |text| >= |from| ==> text[..|from|] == text[0..0 + |from|];
  }

  // a brace of the text that the replacement left reads as a placeholder where it now stands
  predicate KeptBraceReads(text: string, parameters: seq<string>, i: nat)
    requires i < |parameters| && parameters[i] != []
    decreases |text|
  {
    var p := parameters[i];
    if text == [] then false
    else if StandsAt(text, p, 0) then KeptBraceReads(text[|p|..], parameters, i)
    else
      || (text[0] == '{' && Placeholder(Replaced(text, p, "{" + Decimal(i) + "}"), parameters).Some?)
      || KeptBraceReads(text[1..], parameters, i)
  }

  lemma OtherTextIsKept(c: char, rest: string, parameters: seq<string>)
    requires c != '{' || Placeholder([c] + rest, parameters).None?
    ensures Substituted([c] + rest, parameters) == [c] + Substituted(rest, parameters)
  {
    assert ([c] + rest)[1..] == rest;
  }

  lemma {:induction false} ComesBackUnlessRead(text: string, parameters: seq<string>, i: nat)
    requires i < |parameters| && i < SIZE_LIMIT && parameters[i] != [] && !KeptBraceReads(text, parameters, i)
    ensures Substituted(Replaced(text, parameters[i], "{" + Decimal(i) + "}"), parameters) == text
    decreases |text|
  {
    hide Substituted, Decimal, Placeholder, Replaced, StandsAt;
    var p, to := parameters[i], "{" + Decimal(i) + "}";
    ReplacedStep(text, p, to);
    SubstitutedStep("", parameters);
    if text != [] {
      if StandsAt(text, p, 0) {
        Standing(text, p);
        ComesBackUnlessRead(text[|p|..], parameters, i);
        PlaceholderReads(i, Replaced(text[|p|..], p, to), parameters);
      } else {
        ComesBackUnlessRead(text[1..], parameters, i);
        OtherTextIsKept(text[0], Replaced(text[1..], p, to), parameters);
        assert text == [text[0]] + text[1..];
      }
    }
  }

  lemma Standing(text: string, p: string)
    requires StandsAt(text, p, 0)
    ensures |p| <= |text| && text == p + text[|p|..]
  {
  }

  function Braces(s: string): nat { if s == [] then 0 else (if s[0] == '{' then 1 else 0) + Braces(s[1..]) }

  lemma {:induction false} BracesConcat(a: string, b: string)
    ensures Braces(a + b) == Braces(a) + Braces(b)
  {
    if a == [] {
      assert a + b == b;
    } else {
      assert (a + b)[1..] == a[1..] + b;
      BracesConcat(a[1..], b);
    }
  }

  lemma {:induction false} NoBraces(s: string)
    requires '{' !in s
    ensures Braces(s) == 0
  {
    if s != [] {
      NoBraces(s[1..]);
    }
  }

  lemma BracesInTail(text: string, m: nat)
    requires 0 < m <= |text|
    ensures Braces(text[m..]) <= Braces(text[1..])
  {
    BracesConcat(text[1..m], text[m..]);
    assert text[1..] == text[1..m] + text[m..];
  }

  // the replaced text past its n-th character is the replacement of the text past its m-th
  ghost predicate GoesOnAt(text: string, p: string, to: string, n: nat, m: nat)
    requires p != [] && n <= |Replaced(text, p, to)|
  {
    0 < m <= |text| && Replaced(text, p, to)[n..] == Replaced(text[m..], p, to)
  }

  // Read up to a closing brace, the replaced text goes on with the replacement of a rest of the text.
  lemma {:induction false} GoesOnAfterClose(text: string, p: string, i: nat, n: nat)
    requires p != []
    requires var r := Replaced(text, p, "{" + Decimal(i) + "}"); 0 < n <= |r| && r[n - 1] == '}'
    ensures exists m: nat :: GoesOnAt(text, p, "{" + Decimal(i) + "}", n, m)
    decreases |text|
  {
    hide Replaced, StandsAt, Decimal;
    var to := "{" + Decimal(i) + "}";
    ReplacedStep(text, p, to);
    if StandsAt(text, p, 0) {
      Standing(text, p);
      OneClose(i);
      if n <= |to| {
        assert GoesOnAt(text, p, to, n, |p|);
      } else {
        GoesOnAfterClose(text[|p|..], p, i, n - |to|);
        var m: nat :| GoesOnAt(text[|p|..], p, to, n - |to|, m);
        assert text[|p|..][m..] == text[|p| + m..];
        assert GoesOnAt(text, p, to, n, |p| + m);
      }
    } else if n == 1 {
      assert GoesOnAt(text, p, to, n, 1);
    } else {
      GoesOnAfterClose(text[1..], p, i, n - 1);
      var m: nat :| GoesOnAt(text[1..], p, to, n - 1, m);
      assert text[1..][m..] == text[1 + m..];
      assert GoesOnAt(text, p, to, n, 1 + m);
    }
  }

  lemma OneClose(i: nat)
    ensures var to := "{" + Decimal(i) + "}"; forall k :: 0 <= k < |to| - 1 ==> to[k] != '}'
  {
    var to := "{" + Decimal(i) + "}";
    forall k | 0 <= k < |to| - 1 ensures to[k] != '}' { assert k > 0 ==> IsDigit(Decimal(i)[k - 1]); }
  }

  // Substitution gives back no more braces than the text has, and fewer once it reads one of the text's own.
  lemma {:induction false} ReadBracesAreLost(text: string, parameters: seq<string>, i: nat)
    requires i < |parameters| && i < SIZE_LIMIT && parameters[i] != [] && forall p :: p in parameters ==> '{' !in p
    ensures var out := Substituted(Replaced(text, parameters[i], "{" + Decimal(i) + "}"), parameters);
            Braces(out) <= Braces(text) && (KeptBraceReads(text, parameters, i) ==> Braces(out) < Braces(text))
    decreases |text|, 1
  {
    hide Substituted, Decimal, Placeholder, Replaced, StandsAt, Braces;
    var p, to := parameters[i], "{" + Decimal(i) + "}";
    var r := Replaced(text, p, to);
    ReplacedStep(text, p, to);
    SubstitutedStep(r, parameters);
    if text != [] {
      if StandsAt(text, p, 0) {
        Standing(text, p);
        ReadBracesAreLost(text[|p|..], parameters, i);
        PlaceholderReads(i, Replaced(text[|p|..], p, to), parameters);
        BracesConcat(p, text[|p|..]);
        BracesConcat(p, Substituted(Replaced(text[|p|..], p, to), parameters));
      } else if text[0] == '{' && Placeholder(r, parameters).Some? {
        ReadsOwnBrace(text, parameters, i);
      } else {
        var rest := Replaced(text[1..], p, to);
        ReadBracesAreLost(text[1..], parameters, i);
        OtherTextIsKept(text[0], rest, parameters);
        assert text == [text[0]] + text[1..];
        BracesConcat([text[0]], text[1..]);
        BracesConcat([text[0]], Substituted(rest, parameters));
      }
    }
  }

  // the placeholder a brace of the text opens takes that brace with it, and no parameter brings one
  lemma ReadsOwnBrace(text: string, parameters: seq<string>, i: nat)
    requires i < |parameters| && i < SIZE_LIMIT && parameters[i] != [] && forall p :: p in parameters ==> '{' !in p
    requires text != [] && text[0] == '{' && !StandsAt(text, parameters[i], 0)
    requires Placeholder(Replaced(text, parameters[i], "{" + Decimal(i) + "}"), parameters).Some?
    ensures var out := Substituted(Replaced(text, parameters[i], "{" + Decimal(i) + "}"), parameters);
            Braces(out) < Braces(text)
    decreases |text|, 0
  {
    hide Substituted, Decimal, Replaced, StandsAt, Braces, FromChars;
    var p, to := parameters[i], "{" + Decimal(i) + "}";
    var r := Replaced(text, p, to);
    var (j, next) := Placeholder(r, parameters).value;
    SubstitutedStep(r, parameters);
    GoesOnAfterClose(text, p, i, next);
    var m: nat :| GoesOnAt(text, p, to, next, m);
    ReadBracesAreLost(text[m..], parameters, i);
    NoBraces(parameters[j]);
    BracesConcat(parameters[j], Substituted(r[next..], parameters));
    BracesInTail(text, m);
    FirstBrace(text);
  }

  lemma FirstBrace(text: string)
    requires text != [] && text[0] == '{'
    ensures Braces(text) == 1 + Braces(text[1..])
  {
  }

  // For parameters without braces, substituting gives the text back exactly when none of its own braces reads as a
  // placeholder in the replaced text.
  lemma ComesBackIff(text: string, parameters: seq<string>, i: nat)
    requires i < |parameters| && i < SIZE_LIMIT && parameters[i] != [] && forall p :: p in parameters ==> '{' !in p
    ensures Substituted(Replaced(text, parameters[i], "{" + Decimal(i) + "}"), parameters) == text
      <==> !KeptBraceReads(text, parameters, i)
  {
    hide Substituted, Replaced, KeptBraceReads;
    if KeptBraceReads(text, parameters, i) {
      ReadBracesAreLost(text, parameters, i);
    } else {
      ComesBackUnlessRead(text, parameters, i);
    }
  }

  // A text that opens nothing before a digit is among those that come back.
  lemma {:induction false} OpensNothingReadsNothing(text: string, parameters: seq<string>, i: nat)
    requires i < |parameters| && parameters[i] != [] && NoneOpens(text)
    ensures !KeptBraceReads(text, parameters, i)
    decreases |text|
  {
    hide Decimal, Replaced, StandsAt, Placeholder;
    var p, to := parameters[i], "{" + Decimal(i) + "}";
    ReplacedStep(text, p, to);
    if text != [] {
      if StandsAt(text, p, 0) {
        Standing(text, p);
        OpensNothingReadsNothing(text[|p|..], parameters, i);
      } else {
        OpensNothingReadsNothing(text[1..], parameters, i);
        ReplacedStep(text[1..], p, to);
        if text[0] == '{' { BraceReadsNothing(text, Replaced(text[1..], p, to), p, to, parameters); }
      }
    }
  }

  // the character after a kept brace is the text's own or the brace of a replacement
  lemma BraceReadsNothing(text: string, rest: string, p: string, to: string, parameters: seq<string>)
    requires text != [] && text[0] == '{' && NoneOpens(text) && to != [] && to[0] == '{'
    requires rest == [] || rest[0] == '{' || (|text| > 1 && rest[0] == text[1])
    ensures Placeholder(['{'] + rest, parameters).None?
  {
    assert rest != [] ==> !IsDigit(rest[0]);
  }

  // Where no brace of the text stands before a digit, substituting undoes the replacement of any parameter, whatever
  // the parameters are.
  lemma SubstituteUndoesReplacement(text: string, parameters: seq<string>, i: nat)
    requires i < |parameters| && i < SIZE_LIMIT && parameters[i] != [] && NoneOpens(text)
    ensures Substituted(Replaced(text, parameters[i], "{" + Decimal(i) + "}"), parameters) == text
  {
    hide Substituted, Replaced, NoneOpens, KeptBraceReads;
    OpensNothingReadsNothing(text, parameters, i);
    ComesBackUnlessRead(text, parameters, i);
  }

  // One text that holds a placeholder of its own, and does not come back.
  lemma OwnPlaceholderIsLost()
    ensures var text, parameters := "{0}", ["a"];
            Substituted(Replaced(text, parameters[0], "{" + Decimal(0) + "}"), parameters) == "a" != text
  {
    var text, parameters := "{0}", ["a"];
    forall j: nat | j < |text| ensures !StandsAt(text, "a", j) {
      assert text[j] != 'a' && "a"[0] == 'a';
      assert j + 1 <= |text| ==> text[j..j + 1][0] == text[j];
    }
    assert Find(text, "a").None?;
    PlaceholderReads(0, "", parameters);
    assert "{" + Decimal(0) + "}" + "" == text;
  }
}
