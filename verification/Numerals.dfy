/** Decimal numerals as std::format writes them and std::from_chars reads them. */
module Numerals {
  import opened Wrappers

  const SIZE_LIMIT: nat := 0x1_0000_0000_0000_0000

  predicate IsDigit(c: char) { '0' <= c <= '9' }

  function Decimal(n: nat): (s: string)
    ensures s != [] && forall i :: 0 <= i < |s| ==> IsDigit(s[i])
  {
    (if n < 10 then [] else Decimal(n / 10)) + ['0' + (n % 10) as char]
  }

  function DigitCount(s: string): (n: nat)
    ensures n <= |s| && forall i :: 0 <= i < n ==> IsDigit(s[i])
    ensures n < |s| ==> !IsDigit(s[n])
  {
    if s != [] && IsDigit(s[0]) then 1 + DigitCount(s[1..]) else 0
  }

  function DigitsValue(s: string): nat
    requires forall i :: 0 <= i < |s| ==> IsDigit(s[i])
  {
    if s == [] then 0
    else
      assert IsDigit(s[|s| - 1]);
      10 * DigitsValue(s[..|s| - 1]) + (s[|s| - 1] as nat - '0' as nat)
  }

  // std::from_chars: the digits in front, whatever follows them, unless they overflow the type
  function FromChars(s: string): Option<nat> {
    var n := DigitCount(s);
    if n == 0 || DigitsValue(s[..n]) >= SIZE_LIMIT then None else Some(DigitsValue(s[..n]))
  }

  lemma {:induction false} DecimalValue(n: nat)
    ensures DigitsValue(Decimal(n)) == n
  {
    var s := Decimal(n);
    if n >= 10 {
      DecimalValue(n / 10);
      assert s[..|s| - 1] == Decimal(n / 10);
    } else {
      assert s[..|s| - 1] == [];
    }
  }

  lemma {:induction false} AllDigits(s: string)
    requires forall i :: 0 <= i < |s| ==> IsDigit(s[i])
    ensures DigitCount(s) == |s|
  {
    if s != [] {
      AllDigits(s[1..]);
    }
  }

  lemma FromCharsReadsDecimal(n: nat)
    requires n < SIZE_LIMIT
    ensures FromChars(Decimal(n)) == Some(n)
  {
    AllDigits(Decimal(n));
    DecimalValue(n);
    assert Decimal(n)[..|Decimal(n)|] == Decimal(n);
  }

  lemma {:induction false} DigitsInFront(digits: string, rest: string)
    requires (forall i :: 0 <= i < |digits| ==> IsDigit(digits[i])) && (rest == [] || !IsDigit(rest[0]))
    ensures DigitCount(digits + rest) == |digits|
  {
    if digits == [] {
      assert digits + rest == rest;
    } else {
      assert (digits + rest)[1..] == digits[1..] + rest;
      DigitsInFront(digits[1..], rest);
    }
  }

  // Digits in front are read as the number they spell, whatever follows them, unless it is one too large.
  lemma FromCharsReadsFront(n: nat, rest: string)
    requires rest == [] || !IsDigit(rest[0])
    ensures FromChars(Decimal(n) + rest) == if n < SIZE_LIMIT then Some(n) else None
    ensures FromChars(rest) == None
  {
    DigitsInFront(Decimal(n), rest);
    DecimalValue(n);
    assert (Decimal(n) + rest)[..|Decimal(n)|] == Decimal(n);
  }

  function IndexOf(s: string, c: char): (r: Option<nat>)
    ensures r.Some? ==> r.value < |s| && s[r.value] == c && c !in s[..r.value]
    ensures r.None? ==> c !in s
  {
    if s == [] then None
    else if s[0] == c then Some(0)
    else match IndexOf(s[1..], c) case None => None
         case Some(k) => assert s[..k + 1] == [s[0]] + s[1..][..k]; Some(k + 1)
  }

  lemma {:induction false} FirstIndexOf(s: string, c: char, k: nat)
    requires k < |s| && s[k] == c && forall j :: 0 <= j < k ==> s[j] != c
    ensures IndexOf(s, c) == Some(k)
  {
    if k > 0 {
      FirstIndexOf(s[1..], c, k - 1);
    }
  }
}
