/**
 The ports of a block in one direction (core/include/gnuradio-4.0/BlockModel.hpp): single ports and collections, their
 index and name spellings, and the one number each port has among all of them.
 */
module PortIndex {
  import opened Wrappers
  import opened Numerals

  // meta::invalid_index, the largest size_t
  const INVALID: nat := SIZE_LIMIT - 1

  datatype Entry = Single(name: string) | Collection(name: string, size: nat)

  datatype Definition = ByIndex(topLevel: nat, subIndex: nat) | ByName(name: string)

  // a port: its entry, and its place in the collection, 0 for a single port
  datatype PortId = PortId(top: nat, sub: nat)

  // an error returned, or the exception of std::vector::at
  datatype Outcome<T> = Ok(value: T) | Refused | Threw

  // no more entries and ports than a size_t counts
  predicate Valid(ports: seq<Entry>) {
    |ports| < INVALID && forall i :: 0 <= i < |ports| && ports[i].Collection? ==> ports[i].size < INVALID
  }

  // distinct names free of '#'
  predicate Distinct(ports: seq<Entry>) {
    && (forall i, j :: 0 <= i < j < |ports| ==> ports[i].name != ports[j].name)
    && (forall i :: 0 <= i < |ports| ==> '#' !in ports[i].name)
  }

  predicate IsPort(ports: seq<Entry>, id: PortId) { id.top < |ports| && id.sub < Width(ports[id.top]) }

  function Width(e: Entry): nat { if e.Single? then 1 else e.size }

  // --- resolution -------------------------------------------------------------------------------------------------

  // dynamicPortByIndexImpl()
  function ResolveIndex(ports: seq<Entry>, topIndex: nat, subIndex: nat): Option<PortId> {
    if topIndex >= |ports| then None
    else
      match ports[topIndex]
      case Collection(_, size) =>
        if subIndex == INVALID || subIndex >= size then None else Some(PortId(topIndex, subIndex))
      case Single(_) => if subIndex != INVALID then None else Some(PortId(topIndex, 0))
  }

  function FindFrom(ports: seq<Entry>, matches: Entry -> bool, from: nat): (r: Option<nat>)
    requires from <= |ports|
    ensures r.Some? ==> from <= r.value < |ports| && matches(ports[r.value])
    ensures r.Some? ==> forall i :: from <= i < r.value ==> !matches(ports[i])
    ensures r.None? ==> forall i :: from <= i < |ports| ==> !matches(ports[i])
    decreases |ports| - from
  {
    if from == |ports| then None else if matches(ports[from]) then Some(from) else FindFrom(ports, matches, from + 1)
  }

  // dynamicPortFromName()
  function ResolveName(ports: seq<Entry>, name: string): Option<PortId> {
    match IndexOf(name, '#')
    case None => (match FindFrom(ports, (e: Entry) => e.Single? && e.name == name, 0)
                  case None => None
                  case Some(top) => Some(PortId(top, 0)))
    case Some(hash) =>
      match FromChars(name[hash + 1..])
      case None => None
      case Some(index) =>
        match FindFrom(ports, (e: Entry) => e.Collection? && e.name == name[..hash], 0)
        case None => None
        case Some(top) => if index >= ports[top].size then None else Some(PortId(top, index))
  }

  function Resolve(ports: seq<Entry>, d: Definition): Option<PortId> {
    match d case ByIndex(top, sub) => ResolveIndex(ports, top, sub) case ByName(name) => ResolveName(ports, name)
  }

  // --- the number of a port ---------------------------------------------------------------------------------------

  // dynamicInputPortsSize() of an entry: a single port has no size
  function EntrySize(e: Entry): nat { if e.Collection? then e.size else INVALID }

  // dynamicInputPortsSize(): the number of entries where no entry is given
  function PortsSize(ports: seq<Entry>, idx: nat): Outcome<nat> {
    if idx == INVALID then Ok(|ports|) else if idx >= |ports| then Threw else Ok(EntrySize(ports[idx]))
  }

  function Prior(ports: seq<Entry>, top: nat): nat
    requires top <= |ports|
  {
    if top == 0 then 0 else Prior(ports, top - 1) + Width(ports[top - 1])
  }

  method CountPortsPrior(ports: seq<Entry>, idx: nat) returns (r: Outcome<nat>)
    requires Valid(ports)
    ensures r == CountPrior(ports, idx)
  {
    if idx >= |ports| {
      return Refused;
    }
    var nPortsPrior := 0;
    for i := 0 to idx
      invariant nPortsPrior == Prior(ports, i)
    {
      var nPortsInCollection := EntrySize(ports[i]);
      var isNonCollectionPort := nPortsInCollection == INVALID;
      nPortsPrior := nPortsPrior + if isNonCollectionPort then 1 else nPortsInCollection;
    }
    r := Ok(nPortsPrior);
  }

  function CountPrior(ports: seq<Entry>, idx: nat): Outcome<nat> {
    if idx >= |ports| then Refused else Ok(Prior(ports, idx))
  }

  // "name#n", with nothing after the digits, gives the name and n
  function SplitAtHash(s: string): (string, Option<nat>) {
    match IndexOf(s, '#')
    case None => (s, None)
    case Some(hash) =>
      var tail := s[hash + 1..];
      (s[..hash], if DigitCount(tail) == |tail| then FromChars(tail) else None)
  }

  // portBaseNameAndOffset() of a name definition
  function BaseNameAndOffset(portName: string, defined: string): (string, nat) {
    if '#' in defined then (SplitAtHash(defined).0, SplitAtHash(defined).1.GetOr(INVALID))
    else (SplitAtHash(portName).0, SplitAtHash(portName).1.GetOr(0))
  }

  function Plus(prior: Outcome<nat>, offset: nat): Outcome<nat> {
    if prior.Ok? then Ok(prior.value + offset) else prior
  }

  // absolutePortIndex()
  function AbsoluteIndex(ports: seq<Entry>, d: Definition): Outcome<nat> {
    match d
    case ByIndex(top, sub) =>
      if sub != INVALID then
        match PortsSize(ports, top)
        case Ok(size) => if sub >= size then Refused else Plus(CountPrior(ports, top), sub)
        case other => other
      else if top == 0 then Ok(0)
      else CountPrior(ports, top)
    case ByName(name) =>
      match ResolveName(ports, name)
      case None => Refused
      case Some(port) =>
        // the port's own name is asked for where the definition holds no '#': the name of a single port
        var (baseName, portOffset) := BaseNameAndOffset(if port.top < |ports| then ports[port.top].name else "", name);
        match FindFrom(ports, (e: Entry) => e.name == baseName, 0)
        case None => Refused
        case Some(baseIdx) =>
          if portOffset >= EntrySize(ports[baseIdx]) then Refused else Plus(CountPrior(ports, baseIdx), portOffset)
  }

  // --- a number for each port -------------------------------------------------------------------------------------

  function Flat(ports: seq<Entry>, id: PortId): nat
    requires IsPort(ports, id)
  {
    Prior(ports, id.top) + id.sub
  }

  lemma {:induction false} PriorGrows(ports: seq<Entry>, i: nat, j: nat)
    requires i < j <= |ports|
    ensures Prior(ports, i) + Width(ports[i]) <= Prior(ports, j)
  {
    if i + 1 < j {
      PriorGrows(ports, i, j - 1);
    }
  }

  // Different ports have different numbers, below the number of ports.
  lemma FlatIsInjective(ports: seq<Entry>, a: PortId, b: PortId)
    requires IsPort(ports, a) && IsPort(ports, b)
    ensures Flat(ports, a) < Prior(ports, |ports|)
    ensures Flat(ports, a) == Flat(ports, b) <==> a == b
  {
    PriorGrows(ports, a.top, |ports|);
    if a.top < b.top { PriorGrows(ports, a.top, b.top); }
    if b.top < a.top { PriorGrows(ports, b.top, a.top); }
  }

  function Unflat(ports: seq<Entry>, n: nat, top: nat): PortId
    requires top <= |ports| && n < Prior(ports, top)
  {
    if Prior(ports, top - 1) <= n then PortId(top - 1, n - Prior(ports, top - 1)) else Unflat(ports, n, top - 1)
  }

  // Every number below the number of ports is a port's.
  lemma {:induction false} FlatIsOnto(ports: seq<Entry>, n: nat, top: nat)
    requires top <= |ports| && n < Prior(ports, top)
    ensures IsPort(ports, Unflat(ports, n, top)) && Flat(ports, Unflat(ports, n, top)) == n
  {
    if n < Prior(ports, top - 1) {
      FlatIsOnto(ports, n, top - 1);
    }
  }

  // --- the spellings ----------------------------------------------------------------------------------------------

  function IndexSpelling(ports: seq<Entry>, id: PortId): Definition
    requires IsPort(ports, id)
  {
    ByIndex(id.top, if ports[id.top].Single? then INVALID else id.sub)
  }

  function NameSpelling(ports: seq<Entry>, id: PortId): Definition
    requires IsPort(ports, id)
  {
    ByName(if ports[id.top].Single? then ports[id.top].name else ports[id.top].name + "#" + Decimal(id.sub))
  }

  lemma ResolvedIsPort(ports: seq<Entry>, d: Definition)
    ensures Resolve(ports, d).Some? ==> IsPort(ports, Resolve(ports, d).value)
  {
  }

  lemma IndexResolves(ports: seq<Entry>, id: PortId)
    requires Valid(ports) && IsPort(ports, id)
    ensures Resolve(ports, IndexSpelling(ports, id)) == Some(id)
  {
  }

  // No other index definition names the port.
  lemma IndexNamesOne(ports: seq<Entry>, topLevel: nat, subIndex: nat, id: PortId)
    requires Valid(ports) && IsPort(ports, id)
    ensures Resolve(ports, ByIndex(topLevel, subIndex)) == Some(id)
      <==> ByIndex(topLevel, subIndex) == IndexSpelling(ports, id)
  {
  }

  // A name definition names a single port by its name, and a port of a collection by the collection's name, '#' and the
  // number read after it.
  lemma NameNamesOne(ports: seq<Entry>, name: string, id: PortId)
    requires Distinct(ports) && Resolve(ports, ByName(name)) == Some(id)
    ensures IsPort(ports, id)
    ensures if ports[id.top].Single? then name == ports[id.top].name
            else exists tail :: name == ports[id.top].name + "#" + tail && FromChars(tail) == Some(id.sub)
  {
    hide FromChars;
    if ports[id.top].Collection? {
      var hash := IndexOf(name, '#').value;
      assert name == name[..hash] + "#" + name[hash + 1..];
    }
  }

  // An index definition that names a port has its number.
  lemma IndexNumbered(ports: seq<Entry>, topLevel: nat, subIndex: nat)
    requires Valid(ports) && ResolveIndex(ports, topLevel, subIndex).Some?
    ensures AbsoluteIndex(ports, ByIndex(topLevel, subIndex))
      == Ok(Flat(ports, ResolveIndex(ports, topLevel, subIndex).value))
  {
  }

  // absolutePortIndex() refuses fewer index definitions than name no port: it takes the first port of a collection
  // where no place is given, any place of a single port, and place 0 of a block without ports. It throws for a place
  // in an entry the block does not have.
  lemma IndexAccepted(ports: seq<Entry>, topLevel: nat, subIndex: nat)
    requires Valid(ports) && subIndex <= INVALID
    ensures AbsoluteIndex(ports, ByIndex(topLevel, subIndex)).Ok? <==>
      || ResolveIndex(ports, topLevel, subIndex).Some?
      || (topLevel == 0 && subIndex == INVALID)
      || (topLevel < |ports| && (ports[topLevel].Single? <==> subIndex != INVALID))
    ensures AbsoluteIndex(ports, ByIndex(topLevel, subIndex)) == Threw <==>
      |ports| <= topLevel && topLevel != INVALID && subIndex != INVALID
  {
  }

  lemma UniqueEntry(ports: seq<Entry>, top: nat, matches: Entry -> bool)
    requires Distinct(ports) && top < |ports| && matches(ports[top])
    requires forall e: Entry :: matches(e) ==> e.name == ports[top].name
    ensures FindFrom(ports, matches, 0) == Some(top)
  {
    hide FindFrom, Distinct;
    var r := FindFrom(ports, matches, 0);
    if r.value < top { NamesDiffer(ports, r.value, top); }
  }

  lemma NamesDiffer(ports: seq<Entry>, i: nat, j: nat)
    requires Distinct(ports) && i < j < |ports|
    ensures ports[i].name != ports[j].name
  {
  }

  lemma HashAt(name: string, tail: string)
    requires '#' !in name
    ensures IndexOf(name + "#" + tail, '#') == Some(|name|)
    ensures (name + "#" + tail)[..|name|] == name && (name + "#" + tail)[|name| + 1..] == tail
  {
    var s := name + "#" + tail;
    forall j | 0 <= j < |name| ensures s[j] != '#' { assert name[j] in name; }
    FirstIndexOf(s, '#', |name|);
  }

  lemma NameResolves(ports: seq<Entry>, id: PortId)
    requires Valid(ports) && Distinct(ports) && IsPort(ports, id)
    ensures Resolve(ports, NameSpelling(ports, id)) == Some(id)
  {
    hide FromChars, Decimal, IndexOf;
    var e := ports[id.top];
    if e.Single? {
      UniqueEntry(ports, id.top, (x: Entry) => x.Single? && x.name == e.name);
    } else {
      HashAt(e.name, Decimal(id.sub));
      FromCharsReadsDecimal(id.sub);
      UniqueEntry(ports, id.top, (x: Entry) => x.Collection? && x.name == (e.name + "#" + Decimal(id.sub))[..|e.name|]);
    }
  }

  // nothing but digits stands after the first '#' of a name definition
  predicate Clean(d: Definition) {
    d.ByIndex? || forall h, j :: 0 <= h < j < |d.name| && d.name[h] == '#' && '#' !in d.name[..h] ==> IsDigit(d.name[j])
  }

  lemma HashInside(name: string, h: nat, end: nat)
    requires h < end <= |name| && name[h] == '#'
    ensures '#' in name[..end]
  {
    assert name[..end][h] == '#';
  }

  lemma FirstHash(name: string, h: nat, hash: nat)
    requires h < |name| && name[h] == '#' && '#' !in name[..h]
    requires hash < |name| && name[hash] == '#' && '#' !in name[..hash]
    ensures h == hash
  {
    if h < hash { HashInside(name, h, hash); }
    if hash < h { HashInside(name, hash, h); }
  }

  lemma CleanIsSplit(name: string)
    requires '#' in name && FromChars(name[IndexOf(name, '#').value + 1..]).Some?
    ensures Clean(ByName(name)) <==> SplitAtHash(name).1.Some?
  {
    hide FromChars;
    var hash := IndexOf(name, '#').value;
    var tail := name[hash + 1..];
    assert forall j :: hash < j < |name| ==> tail[j - hash - 1] == name[j];
    if forall i :: 0 <= i < |tail| ==> IsDigit(tail[i]) {
      AllDigits(tail);
    }
    forall h | 0 <= h < |name| && name[h] == '#' && '#' !in name[..h] ensures h == hash {
      FirstHash(name, h, hash);
    }
    if SplitAtHash(name).1.Some? {
      assert forall j :: hash < j < |name| ==> IsDigit(name[j]);
    } else {
      assert DigitCount(tail) < |tail| && !IsDigit(name[hash + 1 + DigitCount(tail)]);
    }
  }

  lemma SingleNumbered(ports: seq<Entry>, name: string)
    requires Valid(ports) && Distinct(ports) && '#' !in name
    ensures match ResolveName(ports, name)
            case None => AbsoluteIndex(ports, ByName(name)) == Refused
            case Some(id) => IsPort(ports, id) && AbsoluteIndex(ports, ByName(name)) == Ok(Flat(ports, id))
  {
    var r := ResolveName(ports, name);
    if r.Some? {
      var e := ports[r.value.top];
      UniqueEntry(ports, r.value.top, (x: Entry) => x.name == e.name);
    }
  }

  // A name that resolves is refused a number exactly when something stands after its digits.
  lemma CollectionNumbered(ports: seq<Entry>, name: string)
    requires Valid(ports) && Distinct(ports) && '#' in name
    ensures match ResolveName(ports, name)
            case None => AbsoluteIndex(ports, ByName(name)) == Refused
            case Some(id) =>
              && IsPort(ports, id)
              && AbsoluteIndex(ports, ByName(name)) == if Clean(ByName(name)) then Ok(Flat(ports, id)) else Refused
  {
    hide FromChars, DigitCount, Clean;
    var r := ResolveName(ports, name);
    if r.Some? {
      CleanIsSplit(name);
      var e := ports[r.value.top];
      UniqueEntry(ports, r.value.top, (x: Entry) => x.name == SplitAtHash(name).0);
    }
  }

  // On every definition: what names no port by name is refused, and what names a port has its number.
  lemma NameNumbered(ports: seq<Entry>, name: string)
    requires Valid(ports) && Distinct(ports)
    ensures match ResolveName(ports, name)
            case None => AbsoluteIndex(ports, ByName(name)) == Refused
            case Some(id) =>
              && IsPort(ports, id)
              && AbsoluteIndex(ports, ByName(name)) == if Clean(ByName(name)) then Ok(Flat(ports, id)) else Refused
  {
    hide AbsoluteIndex, ResolveName, Distinct;
    if '#' in name {
      CollectionNumbered(ports, name);
    } else {
      SingleNumbered(ports, name);
    }
  }

  lemma SpelledClean(ports: seq<Entry>, id: PortId)
    requires Valid(ports) && Distinct(ports) && IsPort(ports, id)
    ensures Clean(NameSpelling(ports, id))
  {
    hide FromChars, Decimal;
    if ports[id.top].Collection? {
      var name, hash := NameSpelling(ports, id).name, |ports[id.top].name|;
      HashAt(ports[id.top].name, Decimal(id.sub));
      forall h, j | 0 <= h < j < |name| && name[h] == '#' && '#' !in name[..h] ensures IsDigit(name[j]) {
        FirstHash(name, h, hash);
        assert name[j] == Decimal(id.sub)[j - hash - 1];
      }
    }
  }

  // Both spellings of a port give its number.
  lemma SpellingsAgree(ports: seq<Entry>, id: PortId)
    requires Valid(ports) && Distinct(ports) && IsPort(ports, id)
    ensures AbsoluteIndex(ports, IndexSpelling(ports, id)) == Ok(Flat(ports, id))
    ensures AbsoluteIndex(ports, NameSpelling(ports, id)) == Ok(Flat(ports, id))
  {
    hide AbsoluteIndex, ResolveName, ResolveIndex, Distinct, Clean;
    IndexResolves(ports, id);
    var d := IndexSpelling(ports, id);
    IndexNumbered(ports, d.topLevel, d.subIndex);
    NameResolves(ports, id);
    NameNumbered(ports, NameSpelling(ports, id).name);
    SpelledClean(ports, id);
  }

  // Two definitions of any kind have one number exactly when they name one port.
  lemma SameNumberSamePort(ports: seq<Entry>, a: Definition, b: Definition)
    requires Valid(ports) && Distinct(ports) && Clean(a) && Clean(b)
    requires Resolve(ports, a).Some? && Resolve(ports, b).Some?
    ensures AbsoluteIndex(ports, a).Ok? && AbsoluteIndex(ports, b).Ok?
    ensures AbsoluteIndex(ports, a) == AbsoluteIndex(ports, b) <==> Resolve(ports, a) == Resolve(ports, b)
  {
    hide AbsoluteIndex, ResolveName, ResolveIndex, Distinct, Clean, Flat;
    ResolvedIsPort(ports, a);
    ResolvedIsPort(ports, b);
    match a { case ByIndex(top, sub) => IndexNumbered(ports, top, sub);
              case ByName(name) => NameNumbered(ports, name); }
    match b { case ByIndex(top, sub) => IndexNumbered(ports, top, sub);
              case ByName(name) => NameNumbered(ports, name); }
    FlatIsInjective(ports, Resolve(ports, a).value, Resolve(ports, b).value);
  }
}
