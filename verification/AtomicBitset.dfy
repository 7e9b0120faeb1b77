/**
 The lock-free bitset (core/include/gnuradio-4.0/AtomicBitset.hpp): range updates as masked and whole-word accesses.
 `BitsetRuns` has the accesses of several threads.
 */
module AtomicBitset {
  type Word = bv64

  const BITS_PER_WORD: nat := 64
  const ALL_ONES: Word := !0

  // --- one word ---------------------------------------------------------------------------------------------------

  // a bit offset as a machine word
  function Offset(n: nat): (r: Word)
    requires n <= BITS_PER_WORD
    ensures r <= 64 && (n < BITS_PER_WORD ==> r < 64)
  {
    WordsOrdered(Numeral(n), 64);
    Numeral(n)
  }

  function Numeral(n: nat): (r: Word)
    requires n <= BITS_PER_WORD
    ensures r <= 64 && r as nat == n
  {
    if n == 0 then 0 else NextOffset(Numeral(n - 1)); Numeral(n - 1) + 1
  }

  lemma NextOffset(b: Word)
    requires b < 64
    ensures (b + 1) as nat == b as nat + 1
  {
  }

  predicate Between(begin: Word, i: Word, end: Word) { begin <= i < end }

  lemma WordsOrdered(a: Word, b: Word)
    requires a <= 64 && b <= 64
    ensures a < b <==> (a as nat) < (b as nat)
  {
  }

  lemma OffsetsOrdered(a: nat, b: nat)
    requires a <= BITS_PER_WORD && b <= BITS_PER_WORD
    ensures Offset(a) < Offset(b) <==> a < b
  {
    hide Numeral;
    WordsOrdered(Numeral(a), Numeral(b));
  }

  lemma OffsetBetween(begin: nat, i: nat, end: nat)
    requires begin <= BITS_PER_WORD && i <= BITS_PER_WORD && end <= BITS_PER_WORD
    ensures Between(Offset(begin), Offset(i), Offset(end)) <==> begin <= i < end
  {
    hide Offset;
    OffsetsOrdered(i, begin);
    OffsetsOrdered(i, end);
  }

  // --- bitwise operations -----------------------------------------------------------------------------------------

  function And(a: Word, b: Word): Word { a & b }

  function Or(a: Word, b: Word): Word { a | b }

  function Not(a: Word): Word { !a }

  function Single(i: Word): Word
    requires i < 64
  {
    1 << i
  }

  function Below(end: Word): Word
    requires end < 64
  {
    (1 << end) - 1
  }

  // setBitsInWord()'s mask: the shift by a whole word is left out
  function Mask(begin: Word, end: Word): Word
    requires begin < end <= 64
  {
    if end == 64 then Not(Below(begin)) else And(Below(end), Not(Below(begin)))
  }

  predicate Has(w: Word, i: Word)
    requires i < 64
  {
    And(w, Single(i)) != 0
  }

  predicate Bit(w: Word, i: nat)
    requires i < BITS_PER_WORD
  {
    Has(w, Offset(i))
  }

  function SetBits(w: Word, mask: Word, value: bool): Word { if value then Or(w, mask) else And(w, Not(mask)) }

  lemma BelowHas(end: Word, i: Word)
    requires end < 64 && i < 64
    ensures Has(Below(end), i) <==> i < end
  {
  }

  lemma SingleHas(at: Word, i: Word)
    requires at < 64 && i < 64
    ensures Has(Single(at), i) <==> at == i
  {
  }

  lemma SingleIsOneBit(x: Word, i: Word)
    requires i < 64
    ensures Single(i) != 0 && (And(x, Single(i)) == 0 || And(x, Single(i)) == Single(i))
  {
  }

  lemma AndIs(a: Word, b: Word)
    ensures And(a, b) == a & b
  {
  }

  lemma OrIs(a: Word, b: Word)
    ensures Or(a, b) == a | b
  {
  }

  lemma NotIs(a: Word)
    ensures Not(a) == !a
  {
  }

  // The distributive laws, with each word named once.
  lemma OrDistributesAt(a: Word, b: Word, s: Word, either: Word, left: Word, aAndS: Word, bAndS: Word, right: Word)
    requires either == a | b && left == either & s && aAndS == a & s && bAndS == b & s && right == aAndS | bAndS
    ensures left == right
  {
  }

  lemma OrDistributes(a: Word, b: Word, s: Word)
    ensures And(Or(a, b), s) == Or(And(a, s), And(b, s))
  {
    hide And, Or;
    OrIs(a, b);
    AndIs(a, s);
    AndIs(b, s);
    AndIs(Or(a, b), s);
    OrIs(And(a, s), And(b, s));
    OrDistributesAt(a, b, s, Or(a, b), And(Or(a, b), s), And(a, s), And(b, s), Or(And(a, s), And(b, s)));
  }

  lemma MinusDistributesAt(a: Word, b: Word, s: Word, not: Word, minus: Word, left: Word, aAndS: Word, bAndS: Word,
                           notBs: Word, right: Word)
    requires not == !b && minus == a & not && left == minus & s
    requires aAndS == a & s && bAndS == b & s && notBs == !bAndS && right == aAndS & notBs
    ensures left == right
  {
  }

  lemma MinusDistributes(a: Word, b: Word, s: Word)
    ensures And(And(a, Not(b)), s) == And(And(a, s), Not(And(b, s)))
  {
    hide And, Not;
    NotIs(b);
    AndIs(a, Not(b));
    AndIs(And(a, Not(b)), s);
    AndIs(a, s);
    AndIs(b, s);
    NotIs(And(b, s));
    AndIs(And(a, s), Not(And(b, s)));
    MinusDistributesAt(a, b, s, Not(b), And(a, Not(b)), And(And(a, Not(b)), s), And(a, s), And(b, s), Not(And(b, s)),
                       And(And(a, s), Not(And(b, s))));
  }

  lemma NotIsMinus(b: Word)
    ensures Not(b) == And(ALL_ONES, Not(b))
  {
  }

  lemma AndComplement(s: Word)
    ensures And(s, Not(s)) == 0 && And(s, Not(0)) == s && And(0, Not(s)) == 0 && And(0, Not(0)) == 0
  {
  }

  lemma OrZero(x: Word, y: Word)
    ensures Or(x, y) == 0 <==> x == 0 && y == 0
  {
  }

  lemma OrHas(a: Word, b: Word, i: Word)
    requires i < 64
    ensures Has(Or(a, b), i) <==> Has(a, i) || Has(b, i)
  {
    hide And, Or, Single;
    OrDistributes(a, b, Single(i));
    OrZero(And(a, Single(i)), And(b, Single(i)));
  }

  lemma MinusHas(a: Word, b: Word, i: Word)
    requires i < 64
    ensures Has(And(a, Not(b)), i) <==> Has(a, i) && !Has(b, i)
  {
    hide And, Not, Single;
    SingleIsOneBit(a, i);
    SingleIsOneBit(b, i);
    MinusDistributes(a, b, Single(i));
    AndComplement(Single(i));
  }

  lemma MaskHas(begin: Word, end: Word, i: Word)
    requires begin < end <= 64 && i < 64
    ensures Has(Mask(begin, end), i) <==> Between(begin, i, end)
  {
    hide Has, Below, And, Not;
    BelowHas(begin, i);
    if end == 64 {
      NotIsMinus(Below(begin));
      OnesHave(i);
      MinusHas(ALL_ONES, Below(begin), i);
    } else {
      BelowHas(end, i);
      MinusHas(Below(end), Below(begin), i);
    }
  }

  lemma SetBitsHas(w: Word, mask: Word, value: bool, i: Word)
    requires i < 64
    ensures Has(SetBits(w, mask, value), i) <==> if Has(mask, i) then value else Has(w, i)
  {
    hide Has, And, Not, Or;
    OrHas(w, mask, i);
    MinusHas(w, mask, i);
  }

  lemma OnesHave(i: Word)
    requires i < 64
    ensures Has(ALL_ONES, i) && !Has(0, i)
  {
  }

  // --- accesses ---------------------------------------------------------------------------------------------------

  // a compare-exchange loop on one bit or a range of bits of a word, or a store of the whole word
  datatype Access =
    | One(word: nat, at: nat, value: bool)
    | Masked(word: nat, begin: nat, end: nat, value: bool)
    | Whole(word: nat, value: bool)
  {
    predicate Valid(words: nat) {
      word < words && (One? ==> at < BITS_PER_WORD) && (Masked? ==> begin < end <= BITS_PER_WORD)
    }

    // the bits of its word
    predicate Has(i: nat) {
      match this
      case One(_, at, _) => i == at
      case Masked(_, begin, end, _) => begin <= i < end
      case Whole(_, _) => true
    }

    predicate Covers(p: nat) { word == p / BITS_PER_WORD && Has(p % BITS_PER_WORD) }
  }

  // what an access that reads w writes
  function Written(w: Word, a: Access): Word
    requires a.Valid(a.word + 1)
  {
    match a
    case One(_, at, value) => SetBits(w, Single(Offset(at)), value)
    case Masked(_, begin, end, value) => WrittenBits(w, begin, end, value)
    case Whole(_, value) => if value then ALL_ONES else 0
  }

  function WrittenBits(w: Word, begin: nat, end: nat, value: bool): Word
    requires begin < end <= BITS_PER_WORD
  {
    OffsetsOrdered(begin, end);
    SetBits(w, Mask(Offset(begin), Offset(end)), value)
  }

  lemma WrittenBitsAt(w: Word, begin: nat, end: nat, value: bool, i: nat)
    requires begin < end <= BITS_PER_WORD && i < BITS_PER_WORD
    ensures Bit(WrittenBits(w, begin, end, value), i) == if begin <= i < end then value else Bit(w, i)
  {
    hide Has, Mask, Offset, SetBits, Between;
    OffsetsOrdered(begin, end);
    OffsetBetween(begin, i, end);
    MaskHas(Offset(begin), Offset(end), Offset(i));
    SetBitsHas(w, Mask(Offset(begin), Offset(end)), value, Offset(i));
  }

  lemma SingleBitAt(w: Word, at: nat, value: bool, i: nat)
    requires at < BITS_PER_WORD && i < BITS_PER_WORD
    ensures Bit(SetBits(w, Single(Offset(at)), value), i) == if i == at then value else Bit(w, i)
  {
    hide Has, Single, Offset, SetBits;
    OffsetsOrdered(at, i);
    OffsetsOrdered(i, at);
    SingleHas(Offset(at), Offset(i));
    SetBitsHas(w, Single(Offset(at)), value, Offset(i));
  }

  lemma WrittenBit(w: Word, a: Access, i: nat)
    requires a.Valid(a.word + 1) && i < BITS_PER_WORD
    ensures Bit(Written(w, a), i) == if a.Has(i) then a.value else Bit(w, i)
  {
    hide Has, Single, Offset, WrittenBits, SetBits;
    match a {
      case One(_, at, value) => SingleBitAt(w, at, value, i);
      case Masked(_, begin, end, value) => WrittenBitsAt(w, begin, end, value, i);
      case Whole(_, value) => OnesHave(Offset(i));
    }
  }

  function Wholes(from: nat, to: nat, value: bool): (r: seq<Access>)
    requires from <= to
  {
    if from == to then [] else Wholes(from, to - 1, value) + [Whole(to - 1, value)]
  }

  // the accesses of set(begin, end, value), in order
  function Accesses(begin: nat, end: nat, value: bool): seq<Access>
    requires begin <= end
  {
    var beginWord, endWord := begin / BITS_PER_WORD, end / BITS_PER_WORD;
    var beginOffset, endOffset := begin % BITS_PER_WORD, end % BITS_PER_WORD;
    if begin == end then []
    else if beginWord == endWord then [Masked(beginWord, beginOffset, endOffset, value)]
    else
      (if beginOffset != 0 then [Masked(beginWord, beginOffset, BITS_PER_WORD, value)] else [])
      + (if endOffset != 0 then [Masked(endWord, 0, endOffset, value)] else [])
      + Wholes(if beginOffset != 0 then beginWord + 1 else beginWord, endWord, value)
  }

  predicate Covered(accesses: seq<Access>, p: nat) { exists j :: 0 <= j < |accesses| && accesses[j].Covers(p) }

  lemma {:induction false} WholesCover(from: nat, to: nat, value: bool, p: nat)
    requires from <= to
    ensures Covered(Wholes(from, to, value), p) <==> from <= p / BITS_PER_WORD < to
    ensures forall a :: a in Wholes(from, to, value) ==> (a.Valid(to) && a.value == value)
  {
    hide Covered;
    CoveredNone(p);
    if from < to {
      WholesCover(from, to - 1, value, p);
      CoveredConcat(Wholes(from, to - 1, value), [Whole(to - 1, value)], p);
      CoveredOne(Whole(to - 1, value), p);
    }
  }

  lemma CoveredConcat(a: seq<Access>, b: seq<Access>, p: nat)
    ensures Covered(a + b, p) <==> Covered(a, p) || Covered(b, p)
  {
    if Covered(a, p) {
      var j :| 0 <= j < |a| && a[j].Covers(p);
      assert (a + b)[j].Covers(p);
    }
    if Covered(b, p) {
      var j :| 0 <= j < |b| && b[j].Covers(p);
      assert (a + b)[|a| + j].Covers(p);
    }
  }

  lemma CoveredOne(a: Access, p: nat)
    ensures Covered([a], p) <==> a.Covers(p)
  {
    assert [a][0] == a;
  }

  // The accesses of a range cover its bits and no other.
  lemma AccessesCoverRange(begin: nat, end: nat, value: bool, p: nat)
    requires begin <= end
    ensures Covered(Accesses(begin, end, value), p) <==> begin <= p < end
    ensures forall a :: a in Accesses(begin, end, value) ==>
      a.value == value && a.Valid((end + BITS_PER_WORD - 1) / BITS_PER_WORD)
  {
    hide Covered;
    var beginWord, endWord := begin / BITS_PER_WORD, end / BITS_PER_WORD;
    var beginOffset, endOffset := begin % BITS_PER_WORD, end % BITS_PER_WORD;
    CoveredNone(p);
    if begin < end && beginWord == endWord {
      CoveredOne(Masked(beginWord, beginOffset, endOffset, value), p);
    } else if begin < end {
      var first := if beginOffset != 0 then [Masked(beginWord, beginOffset, BITS_PER_WORD, value)] else [];
      var last := if endOffset != 0 then [Masked(endWord, 0, endOffset, value)] else [];
      var from := if beginOffset != 0 then beginWord + 1 else beginWord;
      CoveredConcat(first + last, Wholes(from, endWord, value), p);
      CoveredConcat(first, last, p);
      WholesCover(from, endWord, value, p);
      CoveredOne(Masked(beginWord, beginOffset, BITS_PER_WORD, value), p);
      if endOffset != 0 { CoveredOne(Masked(endWord, 0, endOffset, value), p); }
      var inFirst := beginOffset != 0 && p / BITS_PER_WORD == beginWord && beginOffset <= p % BITS_PER_WORD;
      var inLast := endOffset != 0 && p / BITS_PER_WORD == endWord && p % BITS_PER_WORD < endOffset;
      assert (begin <= p < end) <==> (inFirst || inLast || from <= p / BITS_PER_WORD < endWord);
    }
  }

  lemma CoveredNone(p: nat)
    ensures !Covered([], p)
  {
  }

  // --- the words --------------------------------------------------------------------------------------------------

  predicate TestBit(words: seq<Word>, p: nat)
    requires p / BITS_PER_WORD < |words|
  {
    Bit(words[p / BITS_PER_WORD], p % BITS_PER_WORD)
  }

  function Perform(words: seq<Word>, a: Access): (r: seq<Word>)
    requires a.Valid(|words|)
    ensures |r| == |words|
  {
    words[a.word := Written(words[a.word], a)]
  }

  // An access changes the bits it covers and no other.
  lemma PerformedBit(words: seq<Word>, a: Access, p: nat)
    requires a.Valid(|words|) && p / BITS_PER_WORD < |words|
    ensures TestBit(Perform(words, a), p) == if a.Covers(p) then a.value else TestBit(words, p)
  {
    hide Bit, Written;
    WrittenBit(words[a.word], a, p % BITS_PER_WORD);
  }

  function PerformAll(words: seq<Word>, accesses: seq<Access>): (r: seq<Word>)
    requires forall a :: a in accesses ==> a.Valid(|words|)
    ensures |r| == |words|
  {
    if accesses == [] then words else Perform(PerformAll(words, accesses[..|accesses| - 1]), accesses[|accesses| - 1])
  }

  lemma {:induction false} PerformedBits(words: seq<Word>, accesses: seq<Access>, value: bool, p: nat)
    requires (forall a :: a in accesses ==> a.Valid(|words|) && a.value == value) && p / BITS_PER_WORD < |words|
    ensures TestBit(PerformAll(words, accesses), p) == if Covered(accesses, p) then value else TestBit(words, p)
  {
    hide TestBit, Perform, Covered;
    if accesses == [] {
      CoveredNone(p);
    } else {
      var k := |accesses| - 1;
      PerformedBits(words, accesses[..k], value, p);
      PerformedBit(PerformAll(words, accesses[..k]), accesses[k], p);
      CoveredConcat(accesses[..k], [accesses[k]], p);
      CoveredOne(accesses[k], p);
      assert accesses[..k] + [accesses[k]] == accesses;
    }
  }

  // Setting a range changes exactly the bits in it.
  lemma RangeSet(words: seq<Word>, begin: nat, end: nat, value: bool)
    requires begin <= end <= |words| * BITS_PER_WORD
    ensures forall a :: a in Accesses(begin, end, value) ==> a.Valid(|words|)
    ensures forall p: nat :: p / BITS_PER_WORD < |words| ==>
      TestBit(PerformAll(words, Accesses(begin, end, value)), p)
        == if begin <= p < end then value else TestBit(words, p)
  {
    hide TestBit, PerformAll, Accesses;
    AccessesCoverRange(begin, end, value, 0);
    forall p: nat | p / BITS_PER_WORD < |words|
      ensures TestBit(PerformAll(words, Accesses(begin, end, value)), p)
        == if begin <= p < end then value else TestBit(words, p)
    {
      AccessesCoverRange(begin, end, value, p);
      PerformedBits(words, Accesses(begin, end, value), value, p);
    }
  }

  // --- the bitset -------------------------------------------------------------------------------------------------

  class Bitset {
    const size: nat
    const bits: array<Word>

    ghost predicate Valid() { bits.Length == (size + BITS_PER_WORD - 1) / BITS_PER_WORD }

    constructor (size: nat)
      ensures Valid() && this.size == size && fresh(bits)
      ensures forall p :: 0 <= p < size ==> !TestBit(bits[..], p)
    {
      this.size := size;
      bits := new Word[(size + BITS_PER_WORD - 1) / BITS_PER_WORD](_ => 0);
      new;
      forall p | 0 <= p < size ensures !TestBit(bits[..], p) { OnesHave(Offset(p % BITS_PER_WORD)); }
    }

    method Test(p: nat) returns (value: bool)
      requires Valid() && p < size
      ensures value == TestBit(bits[..], p)
    {
      value := And(bits[p / BITS_PER_WORD], Single(Offset(p % BITS_PER_WORD))) != 0;
    }

    // With no other thread between the load and the exchange, the exchange succeeds at once.
    method SetBit(p: nat, value: bool)
      requires Valid() && p < size
      modifies bits
      ensures bits[..] == Perform(old(bits[..]), One(p / BITS_PER_WORD, p % BITS_PER_WORD, value))
      ensures forall q :: 0 <= q < size ==> TestBit(bits[..], q) == if q == p then value else old(TestBit(bits[..], q))
    {
      hide SetBits, Single, TestBit;
      var word, mask := p / BITS_PER_WORD, Single(Offset(p % BITS_PER_WORD));
      bits[word] := SetBits(bits[word], mask, value);
      forall q | 0 <= q < size ensures TestBit(bits[..], q) == if q == p then value else old(TestBit(bits[..], q)) {
        PerformedBit(old(bits[..]), One(word, p % BITS_PER_WORD, value), q);
      }
    }

    method SetBitsInWord(word: nat, begin: nat, end: nat, value: bool)
      requires word < bits.Length && begin < end <= BITS_PER_WORD
      modifies bits
      ensures bits[..] == Perform(old(bits[..]), Masked(word, begin, end, value))
    {
      hide SetBits, Mask;
      OffsetsOrdered(begin, end);
      var mask := Mask(Offset(begin), Offset(end));
      bits[word] := SetBits(bits[word], mask, value);
    }

    method SetFullWord(word: nat, value: bool)
      requires word < bits.Length
      modifies bits
      ensures bits[..] == Perform(old(bits[..]), Whole(word, value))
    {
      bits[word] := if value then ALL_ONES else 0;
    }

    method SetRange(begin: nat, end: nat, value: bool)
      requires Valid() && begin <= end <= size
      modifies bits
      ensures forall a :: a in Accesses(begin, end, value) ==> a.Valid(bits.Length)
      ensures bits[..] == PerformAll(old(bits[..]), Accesses(begin, end, value))
      ensures forall q :: 0 <= q < size ==>
        TestBit(bits[..], q) == if begin <= q < end then value else old(TestBit(bits[..], q))
    {
      hide TestBit, PerformAll, Perform;
      RangeSet(bits[..], begin, end, value);
      SetRangeWords(begin, end, value);
    }

    method SetRangeWords(begin: nat, end: nat, value: bool)
      requires begin <= end && forall a :: a in Accesses(begin, end, value) ==> a.Valid(bits.Length)
      modifies bits
      ensures bits[..] == PerformAll(old(bits[..]), Accesses(begin, end, value))
    {
      hide PerformAll, Perform;
      PerformedNone(bits[..]);
      ghost var done: seq<Access>, all := [], Accesses(begin, end, value);
      var beginWord, endWord := begin / BITS_PER_WORD, end / BITS_PER_WORD;
      var beginOffset, endOffset := begin % BITS_PER_WORD, end % BITS_PER_WORD;
      if begin == end {
        return;
      }
      if beginWord == endWord {
        assert all == [] + [Masked(beginWord, beginOffset, endOffset, value)] && all[0] in all;
        SetBitsInWord(beginWord, beginOffset, endOffset, value);
        PerformedNext(old(bits[..]), done, Masked(beginWord, beginOffset, endOffset, value));
        return;
      }
      if beginOffset != 0 {
        assert all[0] == Masked(beginWord, beginOffset, BITS_PER_WORD, value) && all[0] in all;
        SetBitsInWord(beginWord, beginOffset, BITS_PER_WORD, value);
        PerformedNext(old(bits[..]), done, Masked(beginWord, beginOffset, BITS_PER_WORD, value));
        done := done + [Masked(beginWord, beginOffset, BITS_PER_WORD, value)];
        beginWord := beginWord + 1;
      }
      if endOffset != 0 {
        assert all[|done|] == Masked(endWord, 0, endOffset, value) && all[|done|] in all;
        SetBitsInWord(endWord, 0, endOffset, value);
        PerformedNext(old(bits[..]), done, Masked(endWord, 0, endOffset, value));
        done := done + [Masked(endWord, 0, endOffset, value)];
      }
      assert all == done + Wholes(beginWord, endWord, value);
      SetFullWords(beginWord, endWord, value, old(bits[..]), done);
    }

    // the loop over whole words, after the accesses done so far
    method SetFullWords(beginWord: nat, endWord: nat, value: bool, ghost before: seq<Word>, ghost done: seq<Access>)
      requires beginWord <= endWord && |before| == bits.Length
      requires forall a :: a in done + Wholes(beginWord, endWord, value) ==> a.Valid(bits.Length)
      requires (forall a :: a in done ==> a.Valid(bits.Length)) && bits[..] == PerformAll(before, done)
      modifies bits
      ensures bits[..] == PerformAll(before, done + Wholes(beginWord, endWord, value))
    {
      hide PerformAll, Perform;
      assert done + Wholes(beginWord, beginWord, value) == done;
      for word := beginWord to endWord
        invariant forall a :: a in done + Wholes(beginWord, word, value) ==> a.Valid(bits.Length)
        invariant bits[..] == PerformAll(before, done + Wholes(beginWord, word, value))
      {
        WholesInclude(beginWord, word, endWord, value);
        assert Whole(word, value) in done + Wholes(beginWord, endWord, value);
        SetFullWord(word, value);
        PerformedNext(before, done + Wholes(beginWord, word, value), Whole(word, value));
        assert done + Wholes(beginWord, word, value) + [Whole(word, value)]
          == done + Wholes(beginWord, word + 1, value);
      }
    }
  }

  lemma PerformedNone(words: seq<Word>)
    ensures PerformAll(words, []) == words
  {
  }

  lemma PerformedNext(words: seq<Word>, done: seq<Access>, a: Access)
    requires (forall b :: b in done ==> b.Valid(|words|)) && a.Valid(|words|)
    ensures (forall b :: b in done + [a] ==> b.Valid(|words|))
    ensures PerformAll(words, done + [a]) == Perform(PerformAll(words, done), a)
  {
    hide Perform;
    assert (done + [a])[..|done|] == done;
  }

  lemma {:induction false} WholesInclude(from: nat, word: nat, to: nat, value: bool)
    requires from <= word < to
    ensures Whole(word, value) in Wholes(from, to, value)
  {
    if word < to - 1 {
      WholesInclude(from, word, to - 1, value);
    }
  }
}
