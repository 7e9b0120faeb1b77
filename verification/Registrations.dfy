/**
 The translation units of a header's registrations (blocklib_generator/parse_registrations.py): every combination of a
 marker's parameter values, and the grouping of the registrations into units.
 */
module Registrations {
  import opened Wrappers
  import opened Numerals

  // --- arithmetic -------------------------------------------------------------------------------------------------

  lemma MulGrows(a: nat, b: nat, m: nat)
    requires a <= b
    ensures a * m <= b * m
  {
  }

  lemma MulGap(a: nat, b: nat, m: nat)
    ensures a < b ==> a * m + m <= b * m
  {
    if a < b {
      MulGrows(a + 1, b, m);
      assert (a + 1) * m == a * m + m;
    }
  }

  lemma QuotientIs(k: nat, m: nat, a: nat, b: nat)
    requires b < m && k == a * m + b
    ensures k / m == a && k % m == b
  {
    assert k == (k / m) * m + k % m;
    MulGap(k / m, a, m);
    MulGap(a, k / m, m);
  }

  lemma QuotientBelow(k: nat, m: nat, n: nat)
    requires k < n * m
    ensures 0 < m && k / m < n && k % m < m && k == (k / m) * m + k % m
  {
    if n <= k / m {
      MulGrows(n, k / m, m);
    }
  }

  // --- cartesian_product ------------------------------------------------------------------------------------------

  function Extended<T>(prefixes: seq<seq<T>>, group: seq<T>): seq<seq<T>> {
    if prefixes == [] then []
    else Extended(prefixes[..|prefixes| - 1], group) + EachAppended(prefixes[|prefixes| - 1], group)
  }

  function EachAppended<T>(prefix: seq<T>, group: seq<T>): (r: seq<seq<T>>)
    ensures |r| == |group| && forall j :: 0 <= j < |group| ==> r[j] == prefix + [group[j]]
  {
    seq(|group|, j requires 0 <= j < |group| => prefix + [group[j]])
  }

  function Combinations<T>(groups: seq<seq<T>>): seq<seq<T>> {
    if groups == [] then [[]] else Extended(Combinations(groups[..|groups| - 1]), groups[|groups| - 1])
  }

  method CartesianProduct<T>(groups: seq<seq<T>>) returns (combinations: seq<seq<T>>)
    ensures combinations == Combinations(groups)
  {
    combinations := [[]];
    for i := 0 to |groups|
      invariant combinations == Combinations(groups[..i])
    {
      assert groups[..i + 1][..i] == groups[..i];
      var next := [];
      for p := 0 to |combinations|
        invariant next == Extended(combinations[..p], groups[i])
      {
        assert combinations[..p + 1][..p] == combinations[..p];
        var row := [];
        for v := 0 to |groups[i]|
          invariant row == EachAppended(combinations[p], groups[i])[..v]
        {
          row := row + [combinations[p] + [groups[i][v]]];
        }
        next := next + row;
      }
      assert combinations[..|combinations|] == combinations;
      combinations := next;
    }
    assert groups[..|groups|] == groups;
  }

  lemma {:induction false} ExtendedCount<T>(prefixes: seq<seq<T>>, group: seq<T>)
    ensures |Extended(prefixes, group)| == |prefixes| * |group|
  {
    if prefixes != [] {
      var n, m := |prefixes| - 1, |group|;
      ExtendedCount(prefixes[..n], group);
      assert (n + 1) * m == n * m + m;
    }
  }

  lemma {:induction false} ExtendedAt<T>(prefixes: seq<seq<T>>, group: seq<T>, p: nat, v: nat)
    requires p < |prefixes| && v < |group|
    ensures p * |group| + v < |Extended(prefixes, group)|
    ensures Extended(prefixes, group)[p * |group| + v] == prefixes[p] + [group[v]]
  {
    var n := |prefixes| - 1;
    ExtendedCount(prefixes[..n], group);
    if p < n {
      ExtendedAt(prefixes[..n], group, p, v);
    }
  }

  // positions, one in each group
  ghost predicate Positions<T>(groups: seq<seq<T>>, at: seq<nat>) {
    |at| == |groups| && forall i :: 0 <= i < |at| ==> at[i] < |groups[i]|
  }

  function Selected<T>(groups: seq<seq<T>>, at: seq<nat>): seq<T>
    requires |at| == |groups| && forall i :: 0 <= i < |at| ==> at[i] < |groups[i]|
  {
    seq(|at|, i requires 0 <= i < |at| => groups[i][at[i]])
  }

  function Count<T>(groups: seq<seq<T>>): nat {
    if groups == [] then 1 else Count(groups[..|groups| - 1]) * |groups[|groups| - 1]|
  }

  // the place of a combination: its positions are the digits, the last the least significant
  function Place<T>(groups: seq<seq<T>>, at: seq<nat>): nat
    requires |at| == |groups|
  {
    if groups == [] then 0
    else
      var k := |groups| - 1;
      Place(groups[..k], at[..k]) * |groups[k]| + at[k]
  }

  function Digits<T>(groups: seq<seq<T>>, n: nat): seq<nat> {
    if groups == [] then []
    else
      var k := |groups| - 1;
      if |groups[k]| == 0 then Digits(groups[..k], 0) + [0]
      else Digits(groups[..k], n / |groups[k]|) + [n % |groups[k]|]
  }

  lemma {:induction false} PlaceHasDigits<T>(groups: seq<seq<T>>, at: seq<nat>)
    requires Positions(groups, at)
    ensures Place(groups, at) < Count(groups) && Digits(groups, Place(groups, at)) == at
  {
    if groups != [] {
      var k := |groups| - 1;
      var m, p := |groups[k]|, Place(groups[..k], at[..k]);
      PlaceHasDigits(groups[..k], at[..k]);
      QuotientIs(p * m + at[k], m, p, at[k]);
      MulGrows(p + 1, Count(groups[..k]), m);
      assert (p + 1) * m == p * m + m;
      assert at == at[..k] + [at[k]];
    }
  }

  lemma {:induction false} DigitsHavePlace<T>(groups: seq<seq<T>>, n: nat)
    requires n < Count(groups)
    ensures Positions(groups, Digits(groups, n)) && Place(groups, Digits(groups, n)) == n
  {
    if groups != [] {
      var k := |groups| - 1;
      QuotientBelow(n, |groups[k]|, Count(groups[..k]));
      DigitsHavePlace(groups[..k], n / |groups[k]|);
      assert Digits(groups, n)[..k] == Digits(groups[..k], n / |groups[k]|);
    }
  }

  // The n-th combination takes the value at the n-th positions from each group. With the two lemmas before it, each
  // combination of positions is listed once, the last group varying fastest.
  lemma {:induction false} CombinationsInOrder<T>(groups: seq<seq<T>>, n: nat)
    ensures |Combinations(groups)| == Count(groups)
    ensures n < Count(groups) ==> Positions(groups, Digits(groups, n))
    ensures n < Count(groups) ==> Combinations(groups)[n] == Selected(groups, Digits(groups, n))
  {
    if groups != [] {
      var k := |groups| - 1;
      ExtendedCount(Combinations(groups[..k]), groups[k]);
      CombinationsInOrder(groups[..k], 0);
      if n < Count(groups) {
        QuotientBelow(n, |groups[k]|, Count(groups[..k]));
        DigitsHavePlace(groups, n);
        CombinationsInOrder(groups[..k], n / |groups[k]|);
        ExtendedAt(Combinations(groups[..k]), groups[k], n / |groups[k]|, n % |groups[k]|);
        LastSelected(groups, Digits(groups, n));
      }
    }
  }

  lemma LastSelected<T>(groups: seq<seq<T>>, at: seq<nat>)
    requires groups != [] && Positions(groups, at)
    ensures var k := |groups| - 1;
            Selected(groups, at) == Selected(groups[..k], at[..k]) + [groups[k][at[k]]]
  {
  }

  // --- registration_units -----------------------------------------------------------------------------------------

  datatype Unit = Unit(name: string, registrations: seq<nat>)

  function Upto(from: nat, to: nat): (s: seq<nat>)
    requires from <= to
    ensures |s| == to - from && forall i :: 0 <= i < |s| ==> s[i] == from + i
  {
    seq(to - from, i => from + i)
  }

  function AllOf(units: seq<Unit>): seq<nat> {
    if units == [] then [] else AllOf(units[..|units| - 1]) + units[|units| - 1].registrations
  }

  function ChunkName(stem: string, chunk: nat): string { stem + "_" + Decimal(chunk) }

  function EntryName(stem: string, macro: nat, local: nat): string {
    stem + "_" + Decimal(macro) + "_" + Decimal(local)
  }

  // an ordered partition of the first n registrations into non-empty units
  ghost predicate Partition(units: seq<Unit>, n: nat) {
    AllOf(units) == Upto(0, n) && forall u :: 0 <= u < |units| ==> units[u].registrations != []
  }

  ghost predicate DistinctNames(units: seq<Unit>) {
    forall u, v :: 0 <= u < v < |units| ==> units[u].name != units[v].name
  }

  lemma AllOfNext(units: seq<Unit>, u: Unit)
    ensures AllOf(units + [u]) == AllOf(units) + u.registrations
  {
    assert (units + [u])[..|units|] == units;
  }

  lemma ChunkNamesDiffer(stem: string, a: nat, b: nat)
    ensures ChunkName(stem, a) == ChunkName(stem, b) <==> a == b
  {
    hide Decimal;
    assert ChunkName(stem, a)[|stem| + 1..] == Decimal(a) && ChunkName(stem, b)[|stem| + 1..] == Decimal(b);
    DecimalValue(a);
    DecimalValue(b);
  }

  // the sizes of the chunks
  lemma ChunkSizes(total: nat, most: nat, count: nat)
    requires 0 < total && 0 < most && count == (total + most - 1) / most
    ensures 0 < count && 1 <= total / count && (count - 1) * most < total <= count * most
    ensures total / count <= most && (0 < total % count ==> total / count < most)
    ensures total == (total / count) * count + total % count && total % count < count
  {
    assert count * most <= total + most - 1 < count * most + most;
    assert 0 < count by { MulGap(count, 1, most); }
    MulGap(total, count, most);
    MulGap(most, total / count, count);
  }

  function SizeOf(total: nat, count: nat, chunk: nat): nat
    requires 0 < count
  {
    total / count + if chunk < total % count then 1 else 0
  }

  // the registrations before a chunk
  function Before(total: nat, count: nat, chunk: nat): nat
    requires 0 < count
  {
    chunk * (total / count) + if chunk < total % count then chunk else total % count
  }

  lemma BeforeNext(total: nat, count: nat, chunk: nat)
    requires 0 < count
    ensures Before(total, count, chunk) + SizeOf(total, count, chunk) == Before(total, count, chunk + 1)
  {
    assert (chunk + 1) * (total / count) == chunk * (total / count) + total / count;
  }

  method ChunkUnits(stem: string, total: nat, maxPerUnit: nat) returns (units: seq<Unit>)
    requires 0 < total && 0 < maxPerUnit
    ensures Partition(units, total) && DistinctNames(units)
    ensures (|units| - 1) * maxPerUnit < total <= |units| * maxPerUnit
    ensures forall u :: 0 <= u < |units| ==> 1 <= |units[u].registrations| <= maxPerUnit
    ensures forall u, v :: 0 <= u <= v < |units| ==>
      |units[v].registrations| <= |units[u].registrations| <= |units[v].registrations| + 1
    ensures forall u :: 0 <= u < |units| ==> units[u].name == ChunkName(stem, u)
  {
    hide AllOf, ChunkName, Before, SizeOf;
    var chunkCount := (total + maxPerUnit - 1) / maxPerUnit;
    ChunkSizes(total, maxPerUnit, chunkCount);
    units := [];
    var nextIndex := 0;
    NothingYet(total, chunkCount);
    for chunk := 0 to chunkCount
      invariant |units| == chunk && nextIndex == Before(total, chunkCount, chunk)
      invariant AllOf(units) == Upto(0, nextIndex)
      invariant forall u :: 0 <= u < chunk ==>
        units[u].name == ChunkName(stem, u) && |units[u].registrations| == SizeOf(total, chunkCount, u)
    {
      var size := SizeOf(total, chunkCount, chunk);
      BeforeNext(total, chunkCount, chunk);
      AllOfNext(units, Unit(ChunkName(stem, chunk), Upto(nextIndex, nextIndex + size)));
      units := units + [Unit(ChunkName(stem, chunk), Upto(nextIndex, nextIndex + size))];
      nextIndex := nextIndex + size;
    }
    AllChunks(total, chunkCount);
    forall u, v | 0 <= u < v < |units| ensures units[u].name != units[v].name { ChunkNamesDiffer(stem, u, v); }
    forall u | 0 <= u < |units|
      ensures total / chunkCount <= |units[u].registrations| <= total / chunkCount + 1
      ensures 1 <= |units[u].registrations| <= maxPerUnit
    {
      SizeIs(total, chunkCount, u);
    }
    forall u, v | 0 <= u <= v < |units|
      ensures |units[v].registrations| <= |units[u].registrations| <= |units[v].registrations| + 1
    {
      SizesFall(total, chunkCount, u, v);
    }
  }

  // Units that hold all of them within the cap cannot be fewer.
  lemma FewestUnits(total: nat, maxPerUnit: nat, count: nat, units: seq<Unit>)
    requires (count - 1) * maxPerUnit < total && Partition(units, total)
    requires forall u :: 0 <= u < |units| ==> |units[u].registrations| <= maxPerUnit
    ensures count <= |units|
  {
    AllWithin(units, maxPerUnit);
    if |units| < count { MulGrows(|units|, count - 1, maxPerUnit); }
  }

  lemma {:induction false} AllWithin(units: seq<Unit>, most: nat)
    requires forall u :: 0 <= u < |units| ==> |units[u].registrations| <= most
    ensures |AllOf(units)| <= |units| * most
  {
    if units != [] {
      var n := |units| - 1;
      AllWithin(units[..n], most);
      assert (n + 1) * most == n * most + most;
    }
  }

  lemma SizesFall(total: nat, count: nat, u: nat, v: nat)
    requires 0 < count && u <= v
    ensures SizeOf(total, count, v) <= SizeOf(total, count, u) <= SizeOf(total, count, v) + 1
  {
  }

  lemma SizeIs(total: nat, count: nat, chunk: nat)
    requires 0 < count
    ensures total / count <= SizeOf(total, count, chunk) <= total / count + 1
    ensures SizeOf(total, count, chunk) == total / count + 1 ==> 0 < total % count
  {
  }

  lemma NothingYet(total: nat, count: nat)
    requires 0 < count
    ensures Before(total, count, 0) == 0 && AllOf([]) == Upto(0, 0)
  {
  }

  lemma AllChunks(total: nat, count: nat)
    requires 0 < count && total == (total / count) * count + total % count
    ensures Before(total, count, count) == total
  {
  }

  // a registration's place among those of its marker
  function Local(macros: seq<nat>, i: nat): nat
    requires i < |macros|
  {
    if 0 < i && macros[i - 1] == macros[i] then Local(macros, i - 1) + 1 else 0
  }

  // the markers are numbered in source order
  ghost predicate InOrder(macros: seq<nat>) { forall i, j :: 0 <= i <= j < |macros| ==> macros[i] <= macros[j] }

  lemma {:induction false} LocalGrows(macros: seq<nat>, i: nat, j: nat)
    requires InOrder(macros) && i < j < |macros| && macros[i] == macros[j]
    ensures Local(macros, i) < Local(macros, j)
  {
    assert macros[i] <= macros[j - 1] <= macros[j];
    if i < j - 1 {
      LocalGrows(macros, i, j - 1);
    }
  }

  lemma EntryNamesDiffer(stem: string, m: nat, i: nat, n: nat, j: nat)
    requires EntryName(stem, m, i) == EntryName(stem, n, j)
    ensures m == n && i == j
  {
    hide Decimal, IndexOf;
    var a, b := Decimal(m) + "_" + Decimal(i), Decimal(n) + "_" + Decimal(j);
    assert EntryName(stem, m, i)[|stem| + 1..] == a && EntryName(stem, n, j)[|stem| + 1..] == b;
    FirstUnderscore(m, i);
    FirstUnderscore(n, j);
    assert a[..|Decimal(m)|] == Decimal(m) && b[..|Decimal(n)|] == Decimal(n);
    assert a[|Decimal(m)| + 1..] == Decimal(i) && b[|Decimal(n)| + 1..] == Decimal(j);
    DecimalValue(m);
    DecimalValue(n);
    DecimalValue(i);
    DecimalValue(j);
  }

  lemma FirstUnderscore(m: nat, i: nat)
    ensures IndexOf(Decimal(m) + "_" + Decimal(i), '_') == Some(|Decimal(m)|)
  {
    var s := Decimal(m) + "_" + Decimal(i);
    assert forall k :: 0 <= k < |Decimal(m)| ==> s[k] == Decimal(m)[k] && IsDigit(s[k]);
    FirstIndexOf(s, '_', |Decimal(m)|);
  }

  // one unit a registration
  method SplitUnits(stem: string, macros: seq<nat>) returns (units: seq<Unit>)
    requires InOrder(macros)
    ensures |units| == |macros|
    ensures forall u :: 0 <= u < |units| ==> units[u] == Unit(EntryName(stem, macros[u], Local(macros, u)), [u])
    ensures Partition(units, |macros|) && DistinctNames(units)
  {
    hide AllOf, EntryName;
    units := [];
    var local := 0;
    NothingYet(0, 1);
    for index := 0 to |macros|
      invariant |units| == index && AllOf(units) == Upto(0, index)
      invariant forall u :: 0 <= u < index ==> units[u] == Unit(EntryName(stem, macros[u], Local(macros, u)), [u])
      invariant index > 0 ==> local == Local(macros, index - 1)
    {
      local := if index > 0 && macros[index - 1] == macros[index] then local + 1 else 0;
      AllOfNext(units, Unit(EntryName(stem, macros[index], local), [index]));
      units := units + [Unit(EntryName(stem, macros[index], local), [index])];
    }
    forall u, v | 0 <= u < v < |units| ensures units[u].name != units[v].name {
      if units[u].name == units[v].name {
        EntryNamesDiffer(stem, macros[u], Local(macros, u), macros[v], Local(macros, v));
        LocalGrows(macros, u, v);
      }
    }
  }

  // the registrations of one marker, as a unit's
  ghost predicate OfMacro(macros: seq<nat>, u: Unit, macro: nat) {
    u.registrations != [] && forall r :: r in u.registrations ==> r < |macros| && macros[r] == macro
  }

  ghost predicate OfOneMacro(macros: seq<nat>, u: Unit) { exists macro: nat :: OfMacro(macros, u, macro) }

  ghost predicate OtherMacros(macros: seq<nat>, u: Unit, v: Unit) {
    forall r, q :: r in u.registrations && q in v.registrations ==>
      r < |macros| && q < |macros| && macros[r] != macros[q]
  }

  // one unit a marker
  method MacroUnits(stem: string, macros: seq<nat>) returns (units: seq<Unit>, ghost of: seq<nat>)
    requires InOrder(macros)
    ensures Partition(units, |macros|) && DistinctNames(units)
    ensures |of| == |units| && (forall u :: 0 <= u < |units| ==> OfMacro(macros, units[u], of[u]))
    ensures forall u :: 0 <= u < |units| ==> units[u].name == ChunkName(stem, of[u])
    ensures forall u, v :: 0 <= u < v < |units| ==> of[u] < of[v]
  {
    hide AllOf, ChunkName;
    units, of := [], [];
    NothingYet(0, 1);
    for index := 0 to |macros|
      invariant AllOf(units) == Upto(0, index) && |of| == |units| && (units == [] <==> index == 0)
      invariant forall u :: 0 <= u < |units| ==>
        units[u].name == ChunkName(stem, of[u]) && OfMacro(macros, units[u], of[u])
      invariant forall u, v :: 0 <= u < v < |units| ==> of[u] < of[v]
      invariant index > 0 ==> of[|of| - 1] == macros[index - 1]
    {
      if index == 0 || macros[index - 1] != macros[index] {
        AllOfNext(units, Unit(ChunkName(stem, macros[index]), [index]));
        units := units + [Unit(ChunkName(stem, macros[index]), [index])];
        of := of + [macros[index]];
      } else {
        var last := units[|units| - 1];
        AllOfNext(units[..|units| - 1], last);
        AllOfNext(units[..|units| - 1], last.(registrations := last.registrations + [index]));
        assert units[..|units| - 1] + [last] == units;
        assert AllOf(units[..|units| - 1]) + (last.registrations + [index]) == Upto(0, index) + [index];
        units := units[..|units| - 1] + [last.(registrations := last.registrations + [index])];
      }
    }
    forall u, v | 0 <= u < v < |units| ensures units[u].name != units[v].name { ChunkNamesDiffer(stem, of[u], of[v]); }
  }

  // registration_units(); max_per_tu may be zero or less
  method RegistrationUnits(stem: string, macros: seq<nat>, split: bool, maxPerUnit: int) returns (units: seq<Unit>)
    requires InOrder(macros)
    ensures Partition(units, |macros|) && DistinctNames(units)
    ensures maxPerUnit > 0 ==> forall u :: 0 <= u < |units| ==> 1 <= |units[u].registrations| <= maxPerUnit
    ensures maxPerUnit > 0 ==> macros == [] || (|units| - 1) * maxPerUnit < |macros|
    ensures maxPerUnit > 0 ==> forall u, v :: 0 <= u <= v < |units| ==>
      |units[v].registrations| <= |units[u].registrations| <= |units[v].registrations| + 1
    ensures maxPerUnit <= 0 && split ==> forall u :: 0 <= u < |units| ==> |units[u].registrations| == 1
    ensures maxPerUnit <= 0 && !split ==> forall u :: 0 <= u < |units| ==> OfOneMacro(macros, units[u])
    ensures maxPerUnit <= 0 && !split ==>
      forall u, v :: 0 <= u < v < |units| ==> OtherMacros(macros, units[u], units[v])
  {
    hide Partition, DistinctNames;
    if maxPerUnit > 0 && macros != [] {
      units := ChunkUnits(stem, |macros|, maxPerUnit);
    } else if split {
      units := SplitUnits(stem, macros);
    } else {
      ghost var of;
      units, of := MacroUnits(stem, macros);
      forall u | 0 <= u < |units| ensures OfOneMacro(macros, units[u]) { assert OfMacro(macros, units[u], of[u]); }
      forall u, v | 0 <= u < v < |units| ensures OtherMacros(macros, units[u], units[v]) {
        assert OfMacro(macros, units[u], of[u]) && OfMacro(macros, units[v], of[v]);
      }
      NoUnits(units, |macros|);
    }
  }

  lemma NoUnits(units: seq<Unit>, n: nat)
    requires Partition(units, n)
    ensures n == 0 ==> units == []
  {
    if units != [] {
      assert |AllOf(units)| >= |units[|units| - 1].registrations|;
    }
  }
}
