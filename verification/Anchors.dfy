/**
 The anchors of a document (tools/DocWriter.hpp). A heading's slug is taken as it is the first time, and numbered from 1
 upwards after that, past every number whose id is taken; the writer goes on counting where the slug's last call ended.
 */
module Anchors {
  import opened Numerals

  // --- slugs ------------------------------------------------------------------------------------------------------

  // std::isalnum and std::tolower in the C locale
  predicate IsAlnum(c: char) { '0' <= c <= '9' || 'a' <= c <= 'z' || 'A' <= c <= 'Z' }

  function ToLower(c: char): char { if 'A' <= c <= 'Z' then 'a' + (c - 'A') else c }

  predicate IsSlugChar(c: char) { '0' <= c <= '9' || 'a' <= c <= 'z' || c == '-' }

  function Folded(source: string): string {
    if source == [] then []
    else
      var slug, c := Folded(source[..|source| - 1]), source[|source| - 1];
      if IsAlnum(c) then slug + [ToLower(c)]
      else if slug != [] && slug[|slug| - 1] != '-' then slug + ['-']
      else slug
  }

  function Trimmed(s: string): string { if s != [] && s[|s| - 1] == '-' then Trimmed(s[..|s| - 1]) else s }

  function Slug(source: string): string {
    var slug := Trimmed(Folded(source));
    if slug == [] then "section" else slug
  }

  // words of lower-case letters and digits, single hyphens between them
  predicate IsSlug(s: string) {
    && s != [] && s[0] != '-' && s[|s| - 1] != '-'
    && (forall i :: 0 <= i < |s| ==> IsSlugChar(s[i]))
    && (forall i :: 0 < i < |s| && s[i] == '-' ==> s[i - 1] != '-')
  }

  // ... which may end with a hyphen still
  predicate IsFolded(s: string) {
    && (s != [] ==> s[0] != '-')
    && (forall i :: 0 <= i < |s| ==> IsSlugChar(s[i]))
    && (forall i :: 0 < i < |s| && s[i] == '-' ==> s[i - 1] != '-')
  }

  lemma {:induction false} FoldedShape(source: string)
    ensures IsFolded(Folded(source))
  {
    if source != [] {
      FoldedShape(source[..|source| - 1]);
    }
  }

  lemma {:induction false} TrimmedShape(s: string)
    requires IsFolded(s)
    ensures IsFolded(Trimmed(s)) && (Trimmed(s) != [] ==> Trimmed(s)[|Trimmed(s)| - 1] != '-')
  {
    if s != [] && s[|s| - 1] == '-' {
      TrimmedShape(s[..|s| - 1]);
    }
  }

  lemma SlugShape(source: string)
    ensures IsSlug(Slug(source))
  {
    FoldedShape(source);
    TrimmedShape(Folded(source));
  }

  function Lowered(s: string): (r: string)
    ensures |r| == |s|
  {
    seq(|s|, i requires 0 <= i < |s| => ToLower(s[i]))
  }

  // the unbroken runs of letters and digits
  function Words(s: string): (r: seq<string>)
    ensures s != [] && IsAlnum(s[|s| - 1]) ==> r != []
  {
    if s == [] then []
    else
      var words, c := Words(s[..|s| - 1]), s[|s| - 1];
      if !IsAlnum(c) then words
      else if |s| > 1 && IsAlnum(s[|s| - 2]) then words[..|words| - 1] + [words[|words| - 1] + [c]]
      else words + [[c]]
  }

  function Hyphenated(words: seq<string>): string {
    if words == [] then []
    else if |words| == 1 then words[0]
    else Hyphenated(words[..|words| - 1]) + "-" + words[|words| - 1]
  }

  lemma HyphenatedGrows(words: seq<string>, c: char)
    requires words != []
    ensures Hyphenated(words[..|words| - 1] + [words[|words| - 1] + [c]]) == Hyphenated(words) + [c]
  {
  }

  lemma LoweredSnoc(s: string)
    requires s != []
    ensures Lowered(s)[..|s| - 1] == Lowered(s[..|s| - 1]) && Lowered(s)[|s| - 1] == ToLower(s[|s| - 1])
    ensures IsAlnum(ToLower(s[|s| - 1])) == IsAlnum(s[|s| - 1])
  {
  }

  predicate EndsWord(s: string) { s != [] && IsAlnum(s[|s| - 1]) }

  lemma WordsSnoc(s: string)
    requires s != []
    ensures var words, c := Words(Lowered(s[..|s| - 1])), ToLower(s[|s| - 1]);
            && (EndsWord(s[..|s| - 1]) ==> words != [])
            && Words(Lowered(s)) ==
                 if !EndsWord(s) then words
                 else if EndsWord(s[..|s| - 1]) then words[..|words| - 1] + [words[|words| - 1] + [c]]
                 else words + [[c]]
  {
    LoweredSnoc(s);
    if |s| > 1 { LoweredSnoc(s[..|s| - 1]); }
  }

  lemma HyphenatedSnoc(words: seq<string>, word: string)
    ensures Hyphenated(words + [word]) == if words == [] then word else Hyphenated(words) + "-" + word
  {
    assert (words + [word])[..|words|] == words;
  }

  lemma {:induction false} FoldedWords(source: string)
    ensures var slug, text := Folded(source), Hyphenated(Words(Lowered(source)));
            && slug == (if EndsWord(source) || text == [] then text else text + "-")
            && (text != [] ==> text[|text| - 1] != '-')
            && (Words(Lowered(source)) != [] <==> text != [])
            && (EndsWord(source) ==> text != [])
  {
    if source != [] {
      var before, c := source[..|source| - 1], ToLower(source[|source| - 1]);
      FoldedWords(before);
      WordsSnoc(source);
      var words := Words(Lowered(before));
      hide Words, Hyphenated, Lowered;
      if EndsWord(source) {
        if EndsWord(before) { HyphenatedGrows(words, c); } else { HyphenatedSnoc(words, [c]); }
      }
    }
  }

  // A slug is the words of the text in lower case and in order, hyphens between them.
  lemma SlugIsWords(source: string)
    ensures Slug(source) ==
      var words := Words(Lowered(source)); if words == [] then "section" else Hyphenated(words)
  {
    FoldedWords(source);
    var text := Hyphenated(Words(Lowered(source)));
    hide Words, Hyphenated, Lowered, Folded;
    assert Trimmed(text) == text;
    assert (text + "-")[..|text|] == text;
    assert Trimmed(text + "-") == Trimmed(text);
  }

  // A slug is its own slug: linking to an anchor's text changes nothing.
  lemma {:induction false} FoldedSlug(s: string)
    requires IsFolded(s)
    ensures Folded(s) == s
  {
    if s != [] {
      FoldedSlug(s[..|s| - 1]);
      assert s == s[..|s| - 1] + [s[|s| - 1]];
    }
  }

  lemma SlugIsStable(source: string)
    ensures Slug(Slug(source)) == Slug(source)
  {
    SlugShape(source);
    FoldedSlug(Slug(source));
  }

  // --- ids --------------------------------------------------------------------------------------------------------

  function Suffixed(slug: string, k: nat): string { slug + "-" + Decimal(k) }

  lemma SuffixesDiffer(slug: string, j: nat, k: nat)
    ensures Suffixed(slug, j) == Suffixed(slug, k) <==> j == k
    ensures Suffixed(slug, k) != slug
  {
    assert |Suffixed(slug, k)| > |slug|;
    assert Suffixed(slug, j)[|slug| + 1..] == Decimal(j) && Suffixed(slug, k)[|slug| + 1..] == Decimal(k);
    DecimalValue(j);
    DecimalValue(k);
  }

  ghost predicate IsSuffixed(slug: string, used: set<string>, id: string, k: nat) {
    id == Suffixed(slug, k) && id !in used && forall j: nat :: 0 < j < k ==> Suffixed(slug, j) in used
  }

  // the id a search from the first suffix returns: the slug itself, else the smallest suffix not used
  ghost predicate IsFirstUnused(slug: string, used: set<string>, id: string) {
    if slug !in used then id == slug
    else exists k: nat :: 0 < k && IsSuffixed(slug, used, id, k)
  }

  lemma FirstUnusedIsUnique(slug: string, used: set<string>, a: string, b: string)
    requires IsFirstUnused(slug, used, a) && IsFirstUnused(slug, used, b)
    ensures a == b && a !in used
  {
    if slug in used {
      var j: nat :| 0 < j && IsSuffixed(slug, used, a, j);
      var k: nat :| 0 < k && IsSuffixed(slug, used, b, k);
      assert !(j < k) && !(k < j);
    }
  }

  class DocWriter {
    var anchors: set<string>
    var nextSuffix: map<string, nat>

    // every suffix up to the one remembered for a slug is used, and so is the slug
    ghost predicate Valid()
      reads this
    {
      forall slug :: slug in nextSuffix ==> Remembered(slug, anchors, nextSuffix[slug])
    }

    constructor ()
      ensures Valid() && anchors == {}
    {
      anchors, nextSuffix := {}, map[];
    }

    method MakeSlug(source: string) returns (slug: string)
      ensures slug == Slug(source)
    {
      slug := "";
      for i := 0 to |source|
        invariant slug == Folded(source[..i])
      {
        assert source[..i + 1][..i] == source[..i];
        var c := source[i];
        if IsAlnum(c) {
          slug := slug + [ToLower(c)];
        } else if slug != [] && slug[|slug| - 1] != '-' {
          slug := slug + ['-'];
        }
      }
      assert source[..|source|] == source;
      while slug != [] && slug[|slug| - 1] == '-'
        invariant Trimmed(slug) == Trimmed(Folded(source))
      {
        slug := slug[..|slug| - 1];
      }
      if slug == [] {
        slug := "section";
      }
    }

    method Anchor(source: string) returns (id: string)
      requires Valid()
      modifies this
      ensures Valid()
      ensures id !in old(anchors) && anchors == old(anchors) + {id}
      ensures IsFirstUnused(Slug(source), old(anchors), id)
    {
      hide Slug, Suffixed, Remembered;
      var slug := MakeSlug(source);
      id := slug;
      var suffix := if slug in nextSuffix then nextSuffix[slug] else 0;
      ghost var first, untried := suffix, anchors;
      NothingRemembered(slug, anchors);
      while id in anchors
        invariant anchors == old(anchors) && nextSuffix == old(nextSuffix)
        invariant id == Tried(slug, first, suffix) && first <= suffix
        invariant Remembered(slug, anchors, first) && Passed(slug, anchors, first, suffix)
        invariant untried <= anchors && AreUntried(slug, anchors, untried, first, suffix)
        decreases untried
      {
        SearchStep(slug, anchors, untried, first, suffix);
        untried := untried - {id};
        suffix := suffix + 1;
        id := Suffixed(slug, suffix);
      }
      SearchEnds(slug, anchors, first, suffix);
      forall other | other in nextSuffix ensures Remembered(other, anchors + {id}, nextSuffix[other]) {
        MoreRemembered(other, anchors, anchors + {id}, nextSuffix[other]);
      }
      anchors := anchors + {id};
      nextSuffix := nextSuffix[slug := suffix];
    }
  }

  // the id tried with a suffix, in a search that begins after the first ones
  function Tried(slug: string, first: nat, suffix: nat): string {
    if suffix == first then slug else Suffixed(slug, suffix)
  }

  // what the writer knows of a slug
  ghost predicate Remembered(slug: string, anchors: set<string>, first: nat) {
    0 < first ==> slug in anchors && forall k: nat :: 0 < k <= first ==> Suffixed(slug, k) in anchors
  }

  ghost predicate Passed(slug: string, anchors: set<string>, first: nat, suffix: nat) {
    forall k: nat :: first <= k < suffix ==> Tried(slug, first, k) in anchors
  }

  ghost predicate AreUntried(slug: string, anchors: set<string>, untried: set<string>, first: nat, suffix: nat) {
    forall k: nat :: suffix <= k && Tried(slug, first, k) in anchors ==> Tried(slug, first, k) in untried
  }

  lemma MoreRemembered(slug: string, anchors: set<string>, more: set<string>, first: nat)
    requires Remembered(slug, anchors, first) && anchors <= more
    ensures Remembered(slug, more, first)
  {
    hide Suffixed;
  }

  lemma NothingRemembered(slug: string, anchors: set<string>)
    ensures Remembered(slug, anchors, 0)
  {
  }

  lemma TriedDiffer(slug: string, first: nat, j: nat, k: nat)
    requires first <= j && first <= k
    ensures Tried(slug, first, j) == Tried(slug, first, k) <==> j == k
  {
    SuffixesDiffer(slug, j, k);
    SuffixesDiffer(slug, k, j);
    hide Suffixed;
  }

  lemma SearchStep(slug: string, anchors: set<string>, untried: set<string>, first: nat, suffix: nat)
    requires first <= suffix && Tried(slug, first, suffix) in anchors
    requires Passed(slug, anchors, first, suffix) && AreUntried(slug, anchors, untried, first, suffix)
    ensures Tried(slug, first, suffix) in untried && Tried(slug, first, suffix + 1) == Suffixed(slug, suffix + 1)
    ensures Passed(slug, anchors, first, suffix + 1)
    ensures AreUntried(slug, anchors, untried - {Tried(slug, first, suffix)}, first, suffix + 1)
  {
    hide Suffixed;
    forall k: nat | suffix < k ensures Tried(slug, first, k) != Tried(slug, first, suffix) {
      TriedDiffer(slug, first, k, suffix);
    }
  }

  // The search from the remembered suffix ends where a search from the first suffix does.
  lemma SearchEnds(slug: string, anchors: set<string>, first: nat, suffix: nat)
    requires first <= suffix && Remembered(slug, anchors, first) && Passed(slug, anchors, first, suffix)
    requires Tried(slug, first, suffix) !in anchors
    ensures IsFirstUnused(slug, anchors, Tried(slug, first, suffix))
    ensures Remembered(slug, anchors + {Tried(slug, first, suffix)}, suffix)
  {
    hide Suffixed;
    if first < suffix {
      assert Tried(slug, first, first) in anchors;
      forall k: nat | 0 < k < suffix ensures Suffixed(slug, k) in anchors {
        if first < k { assert Tried(slug, first, k) in anchors; }
      }
      assert IsSuffixed(slug, anchors, Tried(slug, first, suffix), suffix);
    }
  }

  function Used(ids: seq<string>): set<string> { set id | id in ids }

  // Over any sequence of calls no id comes twice, and each is what a search without the memory would return.
  method AnchorAll(sources: seq<string>) returns (ids: seq<string>)
    ensures |ids| == |sources|
    ensures forall i, j :: 0 <= i < j < |ids| ==> ids[i] != ids[j]
    ensures forall i :: 0 <= i < |ids| ==> IsFirstUnused(Slug(sources[i]), Used(ids[..i]), ids[i])
  {
    hide IsFirstUnused, Slug;
    var writer := new DocWriter();
    ids := [];
    for i := 0 to |sources|
      invariant |ids| == i && writer.Valid() && writer.anchors == Used(ids)
      invariant forall j, k :: 0 <= j < k < i ==> ids[j] != ids[k]
      invariant forall j :: 0 <= j < i ==> IsFirstUnused(Slug(sources[j]), Used(ids[..j]), ids[j])
    {
      var id := writer.Anchor(sources[i]);
      assert forall j :: 0 <= j < i ==> (ids + [id])[..j] == ids[..j];
      assert (ids + [id])[..i] == ids;
      ids := ids + [id];
    }
  }
}
