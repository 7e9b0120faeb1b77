/**
 Merged blocks with taps (core/include/gnuradio-4.0/BlockMerging.hpp). The external port map leaves a tap's output out,
 which renumbers the outputs behind it: what the leaf graph then computes, and where a further merge joins the output it
 means.
 */
module TappedMerges {
  import opened Wrappers
  import opened BlockMerging
  import opened MergedRuns

  // the left block's outputs, numbered anew once output o has been joined, and the right block's behind them
  function Renumbered(named: seq<int>, o: nat): seq<int>
    requires o < |named|
  {
    seq(|named| - 1, (j: nat) requires 0 <= j < |named| - 1 =>
      var q := named[if j < o then j else j + 1]; if q > o then q - 1 else q)
  }

  function Behind(named: seq<int>, n: int): seq<int> {
    seq(|named|, (j: nat) requires 0 <= j < |named| => n + named[j])
  }

  // the fused output that each entry of the external port map stands for
  function Named(b: Block): (r: seq<int>)
    requires WellFormed(b) && Mappable(b)
    ensures |r| == MappedOuts(b)
  {
    match b
    case Unit(leaf) => seq(leaf.nOut, (p: nat) => p)
    case Merge(l, o, r, _) => Renumbered(Named(l), o) + Behind(Named(r), NOut(l) - 1)
    case Feedback(f, _, _, _, _, _) => seq(MappedOuts(f), (p: nat) => p)
  }

  // every merge in the nesting joins the output it names
  predicate Aligned(b: Block)
    requires WellFormed(b) && Mappable(b)
  {
    match b
    case Unit(_) => true
    case Merge(l, o, r, _) => Aligned(l) && Aligned(r) && Named(l)[o] == o
    case Feedback(_, _, _, _, _, _) => true
  }

  ghost predicate Places(s: seq<int>, n: int) {
    && (forall i :: 0 <= i < |s| ==> 0 <= s[i] < n)
    && (forall i, j :: 0 <= i < j < |s| ==> s[i] < s[j])
  }

  // The entries of the map stand for different outputs, in order.
  lemma {:induction false} NamedInOrder(b: Block)
    requires WellFormed(b) && Mappable(b) && Aligned(b)
    ensures Places(Named(b), NOut(b))
  {
    hide Renumbered, Behind;
    match b {
      case Unit(_) =>
      case Merge(l, o, r, i) =>
        NamedInOrder(l);
        NamedInOrder(r);
        hide Places;
        RenumberedInOrder(Named(l), o, NOut(l));
        BehindInOrder(Renumbered(Named(l), o), NOut(l) - 1, Named(r), NOut(r));
      case Feedback(f, _, _, _, _, _) => MappedAtMostDeclared(f);
    }
  }

  lemma RenumberedInOrder(named: seq<int>, o: nat, n: int)
    requires Places(named, n) && o < |named| && named[o] == o
    ensures Places(Renumbered(named, o), n - 1)
  {
    forall i: nat, j: nat | i < j < |named| - 1 ensures Renumbered(named, o)[i] < Renumbered(named, o)[j] {
      RenumberedAt(named, o, i, n);
      RenumberedAt(named, o, j, n);
    }
    forall j: nat | j < |named| - 1 ensures 0 <= Renumbered(named, o)[j] < n - 1 { RenumberedAt(named, o, j, n); }
  }

  lemma BehindInOrder(a: seq<int>, n: int, named: seq<int>, m: int)
    requires Places(a, n) && Places(named, m) && 0 <= n && 0 <= m
    ensures Places(a + Behind(named, n), n + m)
  {
    var s := a + Behind(named, n);
    forall i, j | 0 <= i < j < |s| ensures s[i] < s[j] {
      if |a| <= i {
        assert named[i - |a|] < named[j - |a|];
      }
    }
  }

  lemma RenumberedAt(named: seq<int>, o: nat, j: nat, n: int)
    requires Places(named, n) && o < |named| && named[o] == o && j < |named| - 1
    ensures Renumbered(named, o)[j] == (if j < o then named[j] else named[j + 1] - 1)
    ensures 0 <= Renumbered(named, o)[j] < n - 1 && (Renumbered(named, o)[j] < o <==> j < o)
  {
    if j < o {
      assert named[j] < named[o];
    } else {
      assert named[o] < named[j + 1];
    }
  }

  function Picked(outs: seq<Sample>, places: seq<int>): (r: seq<Sample>)
    requires Places(places, |outs|)
    ensures |r| == |places|
  {
    seq(|places|, (j: nat) requires 0 <= j < |places| => outs[places[j]])
  }

  // what the mapped outputs carry of a fused call's samples
  function AtNamed(b: Block, outs: seq<Sample>): (r: seq<Sample>)
    requires WellFormed(b) && Mappable(b) && Places(Named(b), |outs|)
    ensures |r| == MappedOuts(b)
  {
    Picked(outs, Named(b))
  }

  lemma NamedByMerge(b: Block, lo: seq<Sample>, ro: seq<Sample>)
    requires WellFormed(b) && Mappable(b) && Aligned(b) && b.Merge? && |lo| == NOut(b.left) && |ro| == NOut(b.right)
    requires b.outId < |lo|
    ensures Places(Named(b.left), |lo|) && Places(Named(b.right), |ro|) && b.outId < MappedOuts(b.left)
    ensures Places(Named(b), |Without(lo, b.outId) + ro|)
    ensures AtNamed(b.left, lo)[b.outId] == lo[b.outId]
    ensures AtNamed(b, Without(lo, b.outId) + ro)
         == Without(AtNamed(b.left, lo), b.outId) + AtNamed(b.right, ro)
  {
    hide Renumbered, Behind, Places, Picked, Without;
    NamedInOrder(b.left);
    NamedInOrder(b.right);
    PickedLeft(Named(b.left), b.outId, lo);
    PickedBehind(Renumbered(Named(b.left), b.outId), Named(b.right), Without(lo, b.outId), ro);
  }

  lemma PickedLeft(named: seq<int>, o: nat, lo: seq<Sample>)
    requires Places(named, |lo|) && o < |named| && o < |lo| && named[o] == o
    ensures |Without(lo, o)| == |lo| - 1 && Places(Renumbered(named, o), |lo| - 1)
    ensures Picked(lo, named)[o] == lo[o]
    ensures Picked(Without(lo, o), Renumbered(named, o)) == Without(Picked(lo, named), o)
  {
    RenumberedInOrder(named, o, |lo|);
    forall j: nat | j < |named| - 1
      ensures Picked(Without(lo, o), Renumbered(named, o))[j] == Without(Picked(lo, named), o)[j]
    {
      RenumberedAt(named, o, j, |lo|);
    }
  }

  lemma PickedBehind(a: seq<int>, named: seq<int>, lo: seq<Sample>, ro: seq<Sample>)
    requires Places(a, |lo|) && Places(named, |ro|)
    ensures Places(a + Behind(named, |lo|), |lo + ro|)
    ensures Picked(lo + ro, a + Behind(named, |lo|)) == Picked(lo, a) + Picked(ro, named)
  {
    BehindInOrder(a, |lo|, named, |ro|);
  }

  // --- the nesting without its taps -------------------------------------------------------------------------------

  // The parts of a feedback merge that compiles hold no tap.
  function Untapped(b: Block): Block {
    match b
    case Unit(_) => b
    case Merge(l, o, r, i) => Merge(Untapped(l), o, Untapped(r), i)
    case Feedback(f, k, i, m, held, _) => Feedback(f, k, i, m, held, false)
  }

  // A nesting compiles to the leaf graph of the nesting without its taps.
  lemma {:induction false} UntappedGraph(b: Block, base: nat)
    requires WellFormed(b) && Mappable(b)
    ensures Compiles(Untapped(b)) && NIn(Untapped(b)) == NIn(b) && NOut(Untapped(b)) == MappedOuts(b)
    ensures Size(Untapped(b)) == Size(b) && Flatten(Untapped(b), base) == Flatten(b, base)
  {
    hide Flatten;
    match b {
      case Unit(_) =>
      case Merge(l, _, r, _) =>
        MergeFlattens(b, base);
        UntappedGraph(l, base);
        UntappedGraph(r, base + Size(l));
        MergeFlattens(Untapped(b), base);
      case Feedback(_, _, _, _, _, _) =>
        TapCompiles(b);
        FlattenIgnoresTap(b, base);
    }
  }

  lemma TapCompiles(b: Block)
    requires WellFormed(b) && Mappable(b) && b.Feedback?
    ensures Compiles(b.(tap := false)) && NIn(b.(tap := false)) == NIn(b) && MappedOuts(b) == 1
  {
    MappedAtMostDeclared(b.forward);
    MappedAtMostDeclared(b.feedback);
    PortMapCompleteIffTapFree(b.forward);
    PortMapCompleteIffTapFree(b.feedback);
    if b.monitor.Some? {
      MappedAtMostDeclared(b.monitor.value);
      PortMapCompleteIffTapFree(b.monitor.value);
    }
  }

  lemma FlattenIgnoresTap(b: Block, base: nat)
    requires WellFormed(b) && Mappable(b) && b.Feedback?
    ensures Flatten(b, base) == Flatten(b.(tap := false), base)
  {
    hide Loop;
  }

  // the call of a nesting and of the one without its taps: the same next block, and of the samples the mapped ones
  ghost predicate StepsAlike(b: Block, ext: seq<Sample>)
    requires WellFormed(b) && Mappable(b) && |ext| == NIn(b)
  {
    UntappedGraph(b, 0);
    var (b', outs) := ProcessOne(b, ext);
    && Places(Named(b), |outs|) && ProcessOne(Untapped(b), ext) == (Untapped(b'), AtNamed(b, outs))
    && Named(b') == Named(b) && Aligned(b')
  }

  // Where every merge joins the output it names, the taps change nothing else.
  lemma {:induction false} UntappedSteps(b: Block, ext: seq<Sample>)
    requires WellFormed(b) && Mappable(b) && Aligned(b) && |ext| == NIn(b)
    ensures StepsAlike(b, ext)
    decreases b
  {
    hide StepsAlike;
    match b {
      case Unit(leaf) => UnitSteps(leaf, ext);
      case Merge(_, _, _, _) => MergeStepsAlike(b, ext);
      case Feedback(_, _, _, _, _, _) => LoopSteps(b, ext);
    }
  }

  lemma UnitSteps(leaf: Leaf, ext: seq<Sample>)
    requires leaf.Fits() && |ext| == leaf.nIn
    ensures StepsAlike(Unit(leaf), ext)
  {
    var outs := ProcessOne(Unit(leaf), ext).1;
    assert AtNamed(Unit(leaf), outs) == outs;
  }

  lemma {:induction false} MergeStepsAlike(b: Block, ext: seq<Sample>)
    requires WellFormed(b) && Mappable(b) && Aligned(b) && b.Merge? && |ext| == NIn(b)
    ensures StepsAlike(b, ext)
    decreases b, 0
  {
    hide Without, JoinedInputs, WellFormed, Mappable, MappedOuts, Flatten, ProcessOne, Size, Places, AtNamed, Named,
      Aligned, TapFree, NIn, NOut;
    MergeFlattens(b, 0);
    MergeSteps(b, ext);
    AlignedAtMerge(b);
    UntappedGraph(b, 0); UntappedGraph(b.left, 0); UntappedGraph(b.right, 0);
    var l, o, r, i := b.left, b.outId, b.right, b.inId;
    var (l', lo) := ProcessOne(l, ext[..NIn(l)]);
    var rext := JoinedInputs(NIn(l), i, ext, lo[o]);
    var (r', ro) := ProcessOne(r, rext);
    UntappedSteps(l, ext[..NIn(l)]);
    UntappedSteps(r, rext);
    NamedByMerge(b, lo, ro);
    MergeFlattens(Untapped(b), 0);
    MergeSteps(Untapped(b), ext);
    NamedAlike(b, Merge(l', o, r', i));
  }

  lemma NamedAlike(b: Block, b': Block)
    requires WellFormed(b) && Mappable(b) && Aligned(b) && WellFormed(b') && Mappable(b')
    requires b.Merge? && b'.Merge? && b'.outId == b.outId && NOut(b'.left) == NOut(b.left)
    requires Named(b'.left) == Named(b.left) && Named(b'.right) == Named(b.right)
    requires Aligned(b'.left) && Aligned(b'.right)
    ensures Named(b') == Named(b) && Aligned(b')
  {
    hide Renumbered, Behind;
  }

  lemma LoopSteps(b: Block, ext: seq<Sample>)
    requires WellFormed(b) && Mappable(b) && b.Feedback? && |ext| == NIn(b)
    ensures StepsAlike(b, ext)
  {
    TapCompiles(b);
    StepIgnoresTap(b, ext);
    NamedByLoop(b, ProcessOne(b, ext).1);
    NamedByLoop(ProcessOne(b, ext).0, ProcessOne(b, ext).1);
    hide Flatten, ProcessOne, AtNamed, Places, WellFormed, Mappable, TapFree, MappedOuts;
    assert ProcessOne(b.(tap := false), ext).1 == [ProcessOne(b, ext).1[0]];
  }

  lemma StepIgnoresTap(b: Block, ext: seq<Sample>)
    requires WellFormed(b) && b.Feedback? && |ext| == NIn(b)
    ensures var c := b.(tap := false);
            && WellFormed(c) && NIn(c) == NIn(b) && ProcessOne(b, ext).0.Feedback?
            && ProcessOne(c, ext).0 == ProcessOne(b, ext).0.(tap := false)
            && |ProcessOne(c, ext).1| == 1 <= |ProcessOne(b, ext).1|
            && ProcessOne(c, ext).1[0] == ProcessOne(b, ext).1[0]
  {
    hide JoinedInputs, Mappable, TapFree, MappedOuts, Size;
  }

  lemma NamedByLoop(b: Block, outs: seq<Sample>)
    requires WellFormed(b) && Mappable(b) && b.Feedback? && MappedOuts(b) == 1 <= |outs|
    ensures Named(b) == [0] && Places(Named(b), |outs|) && AtNamed(b, outs) == [outs[0]]
  {
  }

  // --- the leaf graph of a nesting with taps ----------------------------------------------------------------------

  // Where every merge joins the output it names, the leaf graph of a nesting with taps steps its leaves and held
  // samples as the fused call does, and its external outputs carry the fused outputs they stand for: all but the taps.
  lemma FlatSampleEqualsFusedAtNamed(b: Block, base: nat, ext: seq<Sample>, w: Wires)
    requires WellFormed(b) && Mappable(b) && Aligned(b) && |ext| == NIn(b)
    requires Consistent(Flatten(b, base), base, ext, w)
    ensures var (b', outs) := ProcessOne(b, ext);
            && Places(Named(b), |outs|)
            && Realises(Flatten(b, base), base, w, Flatten(b', base), AtNamed(b, outs))
  {
    hide Consistent, Realises, Flatten, ProcessOne, Named, AtNamed, Places, WellFormed, Mappable, TapFree, MappedOuts;
    UntappedGraph(b, base);
    UntappedGraph(ProcessOne(b, ext).0, base);
    UntappedSteps(b, ext);
    FlatSampleEqualsFused(Untapped(b), base, ext, w);
  }

  lemma RealisedOuts(g: Graph, base: nat, w: Wires, g': Graph, outs: seq<Sample>)
    requires Realises(g, base, w, g', outs)
    ensures |g.outs| == |outs| && forall j :: 0 <= j < |outs| ==> w.out(g.outs[j]) == outs[j]
  {
  }

  // the fused block after t calls
  function AfterCalls(b: Block, xs: Stream, t: nat): (r: Block)
    requires WellFormed(b) && Mappable(b) && Feeds(b, xs)
    ensures WellFormed(r) && Mappable(r) && NIn(r) == NIn(b) && NOut(r) == NOut(b) && MappedOuts(r) == MappedOuts(b)
    ensures Size(r) == Size(b)
  {
    if t == 0 then b else ProcessOne(AfterCalls(b, xs, t - 1), xs(t - 1)).0
  }

  lemma {:induction false} UntappedAfterCalls(b: Block, xs: Stream, t: nat)
    requires WellFormed(b) && Mappable(b) && Aligned(b) && Feeds(b, xs)
    ensures Compiles(Untapped(b)) && Feeds(Untapped(b), xs)
    ensures After(Untapped(b), xs, t) == Untapped(AfterCalls(b, xs, t))
    ensures Aligned(AfterCalls(b, xs, t)) && Named(AfterCalls(b, xs, t)) == Named(b)
  {
    hide Flatten, ProcessOne, Named, AtNamed, Places, WellFormed, Mappable, TapFree, MappedOuts, Aligned;
    UntappedGraph(b, 0);
    if t > 0 {
      UntappedAfterCalls(b, xs, t - 1);
      UntappedSteps(AfterCalls(b, xs, t - 1), xs(t - 1));
    }
  }

  // what the first n fused calls return at the output that entry i of the map stands for
  function NamedStream(b: Block, xs: Stream, i: nat, n: nat): seq<Sample>
    requires WellFormed(b) && Mappable(b) && Places(Named(b), NOut(b)) && Feeds(b, xs) && i < MappedOuts(b)
  {
    seq(n, (t: nat) => ProcessOne(AfterCalls(b, xs, t), xs(t)).1[Named(b)[i]])
  }

  lemma StreamsAlike(b: Block, xs: Stream, i: nat, n: nat)
    requires WellFormed(b) && Mappable(b) && Aligned(b) && Feeds(b, xs) && i < MappedOuts(b)
    requires Compiles(Untapped(b)) && Feeds(Untapped(b), xs) && NOut(Untapped(b)) == MappedOuts(b)
    ensures Places(Named(b), NOut(b)) && FusedStream(Untapped(b), xs, i, n) == NamedStream(b, xs, i, n)
  {
    NamedInOrder(b);
    forall t: nat
      ensures FusedOut(Untapped(b), xs, t)[i] == ProcessOne(AfterCalls(b, xs, t), xs(t)).1[Named(b)[i]]
    {
      UntappedAfterCalls(b, xs, t);
      UntappedSteps(AfterCalls(b, xs, t), xs(t));
      NamedSample(AfterCalls(b, xs, t), ProcessOne(AfterCalls(b, xs, t), xs(t)).1, i);
      hide ProcessOne, Named, AtNamed, Places, WellFormed, Mappable, MappedOuts, Aligned, Compiles;
    }
    hide ProcessOne, Named, Places, WellFormed, Mappable, MappedOuts, Aligned, Compiles, AfterCalls, FusedOut;
  }

  // So for a whole run of the leaf graph in any order: once no leaf can fire below the input's length, each external
  // output begins with what n fused calls return at the output it stands for, and the leaves hold the fused states.
  lemma FinishedRunEqualsFusedAtNamed(b: Block, xs: Stream, n: nat, schedule: seq<nat>, c: Config)
    requires WellFormed(b) && Mappable(b) && Aligned(b) && Feeds(b, xs)
    requires IsRun(Flatten(b, 0), Initial(Flatten(b, 0), xs, n), schedule, c)
    requires forall k: nat :: Ready(Flatten(b, 0), c, k) ==> n <= c.fired[k]
    ensures |c.fired| == |c.states| == Size(b) && Places(Named(b), NOut(b))
    ensures forall i :: 0 <= i < MappedOuts(b) ==> NamedStream(b, xs, i, n) <= c.sent(Flatten(b, 0).outs[i])
    ensures forall k :: 0 <= k < Size(b) && c.fired[k] == n ==>
              c.states[k] == Flatten(AfterCalls(b, xs, n), 0).blocks[k].state
  {
    hide Flatten, ProcessOne, Named, Places, WellFormed, Mappable, TapFree, MappedOuts, Aligned, IsRun, Initial, Ready,
      NamedStream, FusedStream, AfterCalls, After, Compiles;
    UntappedGraph(b, 0);
    UntappedAfterCalls(b, xs, n);
    UntappedGraph(AfterCalls(b, xs, n), 0);
    NamedInOrder(b);
    FinishedRunEqualsFused(Untapped(b), xs, n, schedule, c);
    forall i: nat | i < MappedOuts(b) ensures NamedStream(b, xs, i, n) <= c.sent(Flatten(b, 0).outs[i]) {
      StreamsAlike(b, xs, i, n);
    }
  }

  // A merge whose left block has taps before the output it names joins another output: the joined input carries output
  // Named(left)[outId] of the fused left block, where the fused call hands over output outId.
  lemma JoinCarriesNamed(b: Block, base: nat, ext: seq<Sample>, w: Wires)
    requires WellFormed(b) && Mappable(b) && b.Merge? && Aligned(b.left) && |ext| == NIn(b)
    requires Consistent(Flatten(b, base), base, ext, w)
    ensures var lo, q := ProcessOne(b.left, ext[..NIn(b.left)]).1, Named(b.left)[b.outId];
            && 0 <= q < |lo| && w.inp(Flatten(b.right, base + Size(b.left)).ins[b.inId]) == lo[q]
            && (Aligned(b) <==> Aligned(b.right) && q == b.outId)
  {
    hide Join, Realises, WellFormed, Mappable, MappedOuts, Flatten, ProcessOne, Size, Named, Aligned,
      Consistent, AtNamed, Places, TapFree;
    MergeFlattens(b, base);
    NamedInOrder(b.left);
    AlignedAtMerge(b);
    var gl, gr, lext := Flatten(b.left, base), Flatten(b.right, base + Size(b.left)), ext[..NIn(b.left)];
    var (l', lo) := ProcessOne(b.left, lext);
    JoinLeft(gl, b.outId, gr, b.inId, base, ext, w, lext);
    JoinEdgeHolds(gl, b.outId, gr, b.inId, base, ext, w);
    FlatSampleEqualsFusedAtNamed(b.left, base, lext, w);
    RealisedOuts(gl, base, w, Flatten(l', base), AtNamed(b.left, lo));
    NamedSample(b.left, lo, b.outId);
  }

  lemma AlignedAtMerge(b: Block)
    requires WellFormed(b) && Mappable(b) && b.Merge?
    ensures Aligned(b) <==> Aligned(b.left) && Aligned(b.right) && Named(b.left)[b.outId] == b.outId
  {
  }

  lemma NamedSample(b: Block, outs: seq<Sample>, o: nat)
    requires WellFormed(b) && Mappable(b) && Places(Named(b), |outs|) && o < MappedOuts(b)
    ensures 0 <= Named(b)[o] < |outs| && AtNamed(b, outs)[o] == outs[Named(b)[o]]
  {
  }

  lemma JoinEdgeHolds(l: Graph, o: nat, r: Graph, i: nat, base: nat, ext: seq<Sample>, w: Wires)
    requires o < |l.outs| && i < |r.ins| && Consistent(Join(l, o, r, i), base, ext, w)
    ensures w.inp(r.ins[i]) == w.out(l.outs[o])
  {
    var joint := Edge(l.outs[o], r.ins[i], []);
    assert joint in Join(l, o, r, i).edges && EdgeHolds(joint, w);
  }

  // Without a tap every merge joins the output it names, and the map names every output.
  lemma {:induction false} TapFreeIsAligned(b: Block)
    requires Compiles(b)
    ensures Aligned(b) && Named(b) == seq(NOut(b), (p: nat) => p)
  {
    match b {
      case Unit(_) =>
      case Merge(l, o, r, _) =>
        MergeCompiles(b);
        TapFreeIsAligned(l);
        TapFreeIsAligned(r);
        MergedCounts(Named(l), Named(r), o);
      case Feedback(_, _, _, _, _, _) => FeedbackCompiles(b);
    }
  }

  lemma MergedCounts(nl: seq<int>, nr: seq<int>, o: nat)
    requires o < |nl| && (forall j :: 0 <= j < |nl| ==> nl[j] == j) && (forall j :: 0 <= j < |nr| ==> nr[j] == j)
    ensures Renumbered(nl, o) + Behind(nr, |nl| - 1) == seq(|nl| - 1 + |nr|, (p: nat) => p)
  {
  }

  // The smallest case: past the merge of a tapped loop's output 0, output 0 is the tap's, and the map's is output 1.
  lemma TapShiftsTheNextJoin(loop: Block, next: Block, last: Block, i: nat)
    requires WellFormed(loop) && Mappable(loop) && loop.Feedback? && loop.tap
    requires WellFormed(next) && Mappable(next) && NIn(next) == 1 && next.Unit? && NOut(next) == 1
    requires WellFormed(last) && Mappable(last) && i < NIn(last)
    ensures var b := Merge(Merge(loop, 0, next, 0), 0, last, i);
            && WellFormed(b) && Mappable(b) && !Aligned(b)
            && Aligned(b.left) && Named(b.left) == [1]
  {
    MappedAtMostDeclared(loop.forward);
    assert Named(loop) == [0] && Named(next) == [0];
  }

  // --- where a nesting computes something else ---------------------------------------------------------------------

  // m is b or one of the merges that b is made of
  ghost predicate Within(m: Block, b: Block) {
    m == b || (b.Merge? && (Within(m, b.left) || Within(m, b.right)))
  }

  // a merge that joins another output of its left block than the one it names
  ghost predicate ShiftsJoin(m: Block) {
    m.Merge? && WellFormed(m) && Mappable(m) && Aligned(m.left) && Named(m.left)[m.outId] != m.outId
  }

  // What keeps a nesting from being aligned is always such a merge, of which `JoinCarriesNamed` says what it joins.
  lemma {:induction false} MisalignedIff(b: Block)
    requires WellFormed(b) && Mappable(b)
    ensures !Aligned(b) <==> exists m :: Within(m, b) && ShiftsJoin(m)
  {
    if b.Merge? {
      MergeFlattens(b, 0);
      AlignedAtMerge(b);
      MisalignedIff(b.left);
      MisalignedIff(b.right);
      hide Named, Aligned, ShiftsJoin;
      MisalignedAtMerge(b);
    } else {
      forall m | Within(m, b) ensures !ShiftsJoin(m) {
      }
    }
  }

  lemma MisalignedAtMerge(b: Block)
    requires b.Merge?
    ensures (exists m :: Within(m, b) && ShiftsJoin(m)) <==>
      || ShiftsJoin(b)
      || (exists m :: Within(m, b.left) && ShiftsJoin(m))
      || (exists m :: Within(m, b.right) && ShiftsJoin(m))
  {
    hide ShiftsJoin;
    if ShiftsJoin(b) { assert Within(b, b); }
    if m :| Within(m, b.left) && ShiftsJoin(m) { assert Within(m, b); }
    if m :| Within(m, b.right) && ShiftsJoin(m) { assert Within(m, b); }
  }

  // a leaf that returns x whatever it is given, and one that hands its input on
  function Constantly(nIn: nat, x: Sample, state: State): Leaf {
    Leaf(nIn, 1, (s: State, ins: seq<Sample>) => (s, [x]), state)
  }

  function Echo(state: State): Leaf {
    Leaf(1, 1, (s: State, ins: seq<Sample>) => (s, if |ins| == 1 then ins else [Silence]), state)
  }

  // a tapped loop that returns x and taps y, and two merges behind it
  function Shifted(x: Sample, y: Sample, held: Sample, state: State): Block {
    Merge(Merge(Tapped(x, y, held, state), 0, Unit(Echo(state)), 0), 0, Unit(Echo(state)), 0)
  }

  function Tapped(x: Sample, y: Sample, held: Sample, state: State): Block {
    Feedback(Unit(Constantly(2, x, state)), Unit(Constantly(1, y, state)), 0, None, held, true)
  }

  lemma ShiftedFused(x: Sample, y: Sample, held: Sample, state: State, z: Sample)
    ensures var b := Shifted(x, y, held, state);
            && WellFormed(b) && Mappable(b) && NIn(b) == 1 && ProcessOne(b, [z]).1 == [x, y]
  {
    var t, e := Tapped(x, y, held, state), Unit(Echo(state));
    assert ProcessOne(t, [z]).1 == [x, y] by { hide Mappable, MappedOuts, TapFree; }
    var b := Merge(t, 0, e, 0);
    EchoMerged(t, [z], [x, y], state);
    EchoMerged(b, [z], [y, x], state);
  }

  // a merge of output 0 with an echo moves that output behind the others
  lemma EchoMerged(b: Block, ext: seq<Sample>, outs: seq<Sample>, state: State)
    requires WellFormed(b) && |ext| == NIn(b) && 0 < NOut(b) && ProcessOne(b, ext).1 == outs
    ensures var m := Merge(b, 0, Unit(Echo(state)), 0);
            && WellFormed(m) && NIn(m) == NIn(b) && NOut(m) == NOut(b)
            && (Mappable(b) && 0 < MappedOuts(b) ==> Mappable(m) && MappedOuts(m) == MappedOuts(b))
            && outs != [] && ProcessOne(m, ext).1 == outs[1..] + [outs[0]]
  {
    var m := Merge(b, 0, Unit(Echo(state)), 0);
    assert WellFormed(Unit(Echo(state)));
    assert ext[..NIn(b)] == ext && ext[NIn(b)..NIn(b) + 0] == [] && ext[NIn(b) + 0..] == [];
    assert JoinedInputs(NIn(b), 0, ext, outs[0]) == [outs[0]];
    assert ProcessOne(Unit(Echo(state)), [outs[0]]).1 == [outs[0]];
    assert Without(outs, 0) == outs[1..];
    hide JoinedInputs, Without;
  }

  lemma ShiftedFlat(x: Sample, y: Sample, held: Sample, state: State, z: Sample, base: nat)
    ensures var b := Untapped(Shifted(x, y, held, state));
            && WellFormed(b) && Mappable(b) && NIn(b) == 1 && ProcessOne(b, [z]).1 == [x]
            && Flatten(b, base).outs == [PortRef(base + 3, 0)]
  {
    var t, e := Untapped(Tapped(x, y, held, state)), Unit(Echo(state));
    assert ProcessOne(t, [z]).1 == [x] by { hide Mappable, MappedOuts, TapFree; }
    var b := Merge(t, 0, e, 0);
    EchoMerged(t, [z], [x], state);
    EchoMerged(b, [z], [x], state);
    EchoFlattened(t, base, state);
    EchoFlattened(b, base, state);
  }

  lemma EchoFlattened(b: Block, base: nat, state: State)
    requires WellFormed(b) && Mappable(b) && MappedOuts(b) == 1
    ensures var m := Merge(b, 0, Unit(Echo(state)), 0);
            && WellFormed(m) && Mappable(m) && Size(m) == Size(b) + 1
            && Flatten(m, base).outs == [PortRef(base + Size(b), 0)]
  {
    MappedAtMostDeclared(b);
    assert WellFormed(Unit(Echo(state)));
    assert Flatten(Unit(Echo(state)), base + Size(b)).outs == [PortRef(base + Size(b), 0)];
  }

  // The last leaf of that nesting, whose output is the second one, returns y in the fused call and x in the leaf graph.
  lemma ShiftedDiffers(x: Sample, y: Sample, held: Sample, state: State, z: Sample, base: nat)
    requires x != y
    ensures var b := Shifted(x, y, held, state);
            && WellFormed(b) && Mappable(b) && NIn(b) == 1
            && ProcessOne(b, [z]).1 == [x, y] && Flatten(b, base).outs == [PortRef(base + 3, 0)]
            && (exists w :: Consistent(Flatten(b, base), base, [z], w))
            && forall w :: Consistent(Flatten(b, base), base, [z], w) ==> w.out(PortRef(base + 3, 0)) == x
  {
    var b := Shifted(x, y, held, state);
    ShiftedFused(x, y, held, state, z);
    ShiftedFlat(x, y, held, state, z, base);
    hide Shifted, Untapped, Flatten, ProcessOne, WellFormed, Mappable, TapFree, MappedOuts, Consistent, Realises,
      Wiring;
    UntappedGraph(b, base);
    WiringConsistent(Untapped(b), base, [z]);
    forall w | Consistent(Flatten(b, base), base, [z], w) ensures w.out(PortRef(base + 3, 0)) == x {
      FlatSampleEqualsFused(Untapped(b), base, [z], w);
      var (b', outs) := ProcessOne(Untapped(b), [z]);
      RealisedOuts(Flatten(b, base), base, w, Flatten(b', base), outs);
      assert w.out(Flatten(b, base).outs[0]) == outs[0];
    }
  }
}
