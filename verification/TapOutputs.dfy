/**
 The outputs of a merged block with taps, tap by tap (core/include/gnuradio-4.0/BlockMerging.hpp:905-925): the leaf port
 behind each output of the fused call, also of those that the external port map leaves out.
 */
module TapOutputs {
  import opened Wrappers
  import opened BlockMerging
  import opened MergedRuns
  import opened TappedMerges

  // the leaf output port behind each output of the fused call, a tap's being the feedback block's
  function OutPorts(b: Block, base: nat): (r: seq<PortRef>)
    requires WellFormed(b)
    ensures |r| == NOut(b)
  {
    match b
    case Unit(leaf) => seq(leaf.nOut, (p: nat) => PortRef(base, p))
    case Merge(l, o, r, _) => Without(OutPorts(l, base), o) + OutPorts(r, base + Size(l))
    case Feedback(f, k, _, _, _, tap) => OutPorts(f, base) + if tap then OutPorts(k, base + Size(f)) else []
  }

  lemma MergeOutPorts(b: Block, base: nat)
    requires b.Merge? && Compiles(b)
    ensures Compiles(b.left) && Compiles(b.right) && b.outId < NOut(b.left)
    ensures OutPorts(b, base) == Without(OutPorts(b.left, base), b.outId) + OutPorts(b.right, base + Size(b.left))
    ensures b.outId < |Flatten(b.left, base).outs|
    ensures Flatten(b, base).outs
         == Without(Flatten(b.left, base).outs, b.outId) + Flatten(b.right, base + Size(b.left)).outs
  {
    hide Without, Mappable, TapFree, Flatten;
    MergeCompiles(b);
    FlattenMerge(b, base);
  }

  lemma FeedbackOutPorts(b: Block, base: nat)
    requires b.Feedback? && Compiles(b)
    ensures Compiles(b.forward)
    ensures OutPorts(b, base) == OutPorts(b.forward, base) && Flatten(b, base).outs == Flatten(b.forward, base).outs
  {
    hide Mappable, Flatten, LoopEdges, MonitorBlocks, MonitorEdges;
    FeedbackCompiles(b);
    FlattenFeedback(b, base);
    assert OutPorts(b.forward, base) + [] == OutPorts(b.forward, base);
  }

  // Without a tap these are the external outputs of the leaf graph.
  lemma {:induction false} TapFreeOutPorts(b: Block, base: nat)
    requires Compiles(b)
    ensures OutPorts(b, base) == Flatten(b, base).outs
  {
    hide Compiles, Without, Flatten, OutPorts;
    match b {
      case Unit(leaf) => UnitOutPorts(leaf, base);
      case Merge(l, _, r, _) =>
        MergeOutPorts(b, base);
        TapFreeOutPorts(l, base);
        TapFreeOutPorts(r, base + Size(l));
      case Feedback(f, _, _, _, _, _) =>
        FeedbackOutPorts(b, base);
        TapFreeOutPorts(f, base);
    }
  }

  lemma UnitOutPorts(leaf: Leaf, base: nat)
    requires Compiles(Unit(leaf))
    ensures OutPorts(Unit(leaf), base) == Flatten(Unit(leaf), base).outs
  {
  }

  lemma {:induction false} OutPortsStay(b: Block, ext: seq<Sample>, base: nat)
    requires WellFormed(b) && |ext| == NIn(b)
    ensures OutPorts(ProcessOne(b, ext).0, base) == OutPorts(b, base)
  {
    hide Without, Mappable, TapFree, MappedOuts;
    match b {
      case Unit(_) =>
      case Merge(l, o, r, i) =>
        var n := NIn(l);
        OutPortsStay(l, ext[..n], base);
        OutPortsStay(r, JoinedInputs(n, i, ext, ProcessOne(l, ext[..n]).1[o]), base + Size(l));
      case Feedback(f, k, i, m, held, tap) =>
        var fext := JoinedInputs(0, i, ext, held);
        OutPortsStay(f, fext, base);
        var fo := ProcessOne(f, fext).1;
        OutPortsStay(k, if m.Some? then ProcessOne(m.value, fo).1 else fo, base + Size(f));
    }
  }

  // The last output of a tapped feedback merge is the sample that the merge holds after the call.
  lemma TapIsHeld(b: Block, ext: seq<Sample>)
    requires WellFormed(b) && b.Feedback? && b.tap && |ext| == NIn(b)
    ensures var (b', outs) := ProcessOne(b, ext);
            b'.Feedback? && |outs| == 2 && outs[1] == b'.held
  {
    hide JoinedInputs, Mappable, TapFree, MappedOuts, Size;
  }

  lemma LoopPorts(f: Graph, k: Graph, m: Option<Graph>, i: nat, held: Sample)
    requires Loopable(f, k, m, i)
    ensures var g := Loop(f, k, m, i, held);
            g.outs == f.outs && g.edges != [] && g.edges[|g.edges| - 1] == Edge(k.outs[0], f.ins[i], [held])
  {
  }

  lemma LoopedOutPorts(b: Block, base: nat)
    requires b.Feedback? && WellFormed(b)
    ensures OutPorts(b, base)
         == OutPorts(b.forward, base) + if b.tap then OutPorts(b.feedback, base + Size(b.forward)) else []
  {
  }

  // the port behind a loop's output, and its tap's: the source of the edge that closes the loop
  lemma LoopOutPorts(b: Block, base: nat)
    requires WellFormed(b) && Mappable(b) && b.Feedback?
    ensures var g := Flatten(b, base);
            && |OutPorts(b, base)| == (if b.tap then 2 else 1) && |g.outs| == 1 && g.edges != []
            && OutPorts(b, base)[0] == g.outs[0]
            && g.edges[|g.edges| - 1].waiting == [b.held]
            && (b.tap ==> OutPorts(b, base)[1] == g.edges[|g.edges| - 1].source)
  {
    hide Loop, Flatten, OutPorts, WellFormed, Mappable, MappedOuts, TapFree, NIn, Size;
    var plain := b.(tap := false);
    TapCompiles(b);
    FeedbackCompiles(plain);
    FlattenIgnoresTap(b, base);
    FlattenFeedback(plain, base);
    LoopedOutPorts(b, base);
    TapFreeOutPorts(b.forward, base);
    TapFreeOutPorts(b.feedback, base + Size(b.forward));
    LoopPorts(Flatten(b.forward, base), Flatten(b.feedback, base + Size(b.forward)), FlatMonitor(plain, base),
              b.fwdIn, b.held);
  }

  ghost predicate Carries(ports: seq<PortRef>, w: Wires, outs: seq<Sample>) {
    |ports| == |outs| && forall j :: 0 <= j < |ports| ==> w.out(ports[j]) == outs[j]
  }

  // the edge that closes a loop takes up the sample on its source
  lemma LastEdgeSteps(g: Graph, base: nat, w: Wires, g': Graph, outs: seq<Sample>)
    requires Realises(g, base, w, g', outs) && g.edges != [] && g.edges[|g.edges| - 1].waiting != []
    ensures |g'.edges| == |g.edges| && g'.edges[|g'.edges| - 1].waiting == [w.out(g.edges[|g.edges| - 1].source)]
  {
  }

  lemma LoopCarries(b: Block, base: nat, ext: seq<Sample>, w: Wires)
    requires WellFormed(b) && Mappable(b) && b.Feedback? && |ext| == NIn(b)
    requires Consistent(Flatten(b, base), base, ext, w)
    ensures Carries(OutPorts(b, base), w, ProcessOne(b, ext).1)
  {
    hide Consistent, Realises, Flatten, ProcessOne, Named, AtNamed, Places, WellFormed, Mappable, TapFree, MappedOuts,
      OutPorts;
    assert Aligned(b);
    var (b', outs) := ProcessOne(b, ext);
    var g, g' := Flatten(b, base), Flatten(b', base);
    TapCompiles(b);
    StepIgnoresTap(b, ext);
    LoopOutPorts(b, base);
    LoopOutPorts(b', base);
    FlatSampleEqualsFusedAtNamed(b, base, ext, w);
    NamedByLoop(b, outs);
    RealisedOuts(g, base, w, g', [outs[0]]);
    if b.tap {
      LastEdgeSteps(g, base, w, g', [outs[0]]);
      TapIsHeld(b, ext);
    } else {
      assert |outs| == |OutPorts(b, base)|;
    }
  }

  lemma CarriesMerged(lp: seq<PortRef>, rp: seq<PortRef>, o: nat, w: Wires, lo: seq<Sample>, ro: seq<Sample>)
    requires Carries(lp, w, lo) && Carries(rp, w, ro) && o < |lo|
    ensures Carries(Without(lp, o) + rp, w, Without(lo, o) + ro)
  {
  }

  // Every wiring that satisfies the leaf graph carries, behind each output of an aligned nesting, the sample that the
  // fused call returns there, on a tap the one its loop takes up.
  lemma {:induction false} EveryOutputCarried(b: Block, base: nat, ext: seq<Sample>, w: Wires)
    requires WellFormed(b) && Mappable(b) && Aligned(b) && |ext| == NIn(b)
    requires Consistent(Flatten(b, base), base, ext, w)
    ensures Carries(OutPorts(b, base), w, ProcessOne(b, ext).1)
    decreases b
  {
    hide Carries, Aligned;
    match b {
      case Unit(leaf) => UnitCarries(leaf, base, ext, w);
      case Merge(_, _, _, _) => MergeCarries(b, base, ext, w);
      case Feedback(_, _, _, _, _, _) => LoopCarries(b, base, ext, w);
    }
  }

  lemma UnitCarries(leaf: Leaf, base: nat, ext: seq<Sample>, w: Wires)
    requires leaf.Fits() && |ext| == leaf.nIn && Consistent(Flatten(Unit(leaf), base), base, ext, w)
    ensures Carries(OutPorts(Unit(leaf), base), w, ProcessOne(Unit(leaf), ext).1)
  {
    FlatUnit(leaf, base, ext, w);
  }

  lemma OutPortsOfMerge(b: Block, base: nat)
    requires b.Merge? && WellFormed(b)
    ensures OutPorts(b, base) == Without(OutPorts(b.left, base), b.outId) + OutPorts(b.right, base + Size(b.left))
  {
  }

  lemma {:induction false} MergeCarries(b: Block, base: nat, ext: seq<Sample>, w: Wires)
    requires WellFormed(b) && Mappable(b) && Aligned(b) && b.Merge? && |ext| == NIn(b)
    requires Consistent(Flatten(b, base), base, ext, w)
    ensures Carries(OutPorts(b, base), w, ProcessOne(b, ext).1)
    decreases b, 0
  {
    hide Join, Realises, WellFormed, Mappable, MappedOuts, Flatten, ProcessOne, Size, Named, Aligned, NIn, NOut,
      Consistent, AtNamed, Places, TapFree, Carries, OutPorts, Without, JoinedInputs;
    MergeFlattens(b, base);
    MergeSteps(b, ext);
    AlignedAtMerge(b);
    OutPortsOfMerge(b, base);
    var l, o, r, i, rbase := b.left, b.outId, b.right, b.inId, base + Size(b.left);
    var gl, gr, lext := Flatten(l, base), Flatten(r, rbase), ext[..NIn(l)];
    var (l', lo) := ProcessOne(l, lext);
    var rext := JoinedInputs(NIn(l), i, ext, lo[o]);
    JoinLeft(gl, o, gr, i, base, ext, w, lext);
    EveryOutputCarried(l, base, lext, w);
    FlatSampleEqualsFusedAtNamed(l, base, lext, w);
    var named := AtNamed(l, lo);
    RealisedOuts(gl, base, w, Flatten(l', base), named);
    NamedSample(l, lo, o);
    JoinRight(gl, o, gr, i, base, ext, w, named, rext);
    EveryOutputCarried(r, rbase, rext, w);
    CarriesMerged(OutPorts(l, base), OutPorts(r, rbase), o, w, lo, ProcessOne(r, rext).1);
  }

  // --- whole runs -------------------------------------------------------------------------------------------------

  lemma {:induction false} OutPortsOverTime(b: Block, xs: Stream, t: nat)
    requires WellFormed(b) && Mappable(b) && Feeds(b, xs)
    ensures OutPorts(AfterCalls(b, xs, t), 0) == OutPorts(b, 0)
  {
    hide OutPorts, ProcessOne, WellFormed, Mappable, MappedOuts;
    if t > 0 {
      OutPortsOverTime(b, xs, t - 1);
      OutPortsStay(AfterCalls(b, xs, t - 1), xs(t - 1), 0);
    }
  }

  // what fused call t returns at output j, and the first m of these samples
  function OutAt(b: Block, xs: Stream, j: nat, t: nat): Sample
    requires WellFormed(b) && Mappable(b) && Feeds(b, xs) && j < NOut(b)
  {
    ProcessOne(AfterCalls(b, xs, t), xs(t)).1[j]
  }

  function OutStream(b: Block, xs: Stream, j: nat, m: nat): seq<Sample>
    requires WellFormed(b) && Mappable(b) && Feeds(b, xs) && j < NOut(b)
  {
    seq(m, (t: nat) => OutAt(b, xs, j, t))
  }

  lemma WireCarriesOutput(b: Block, xs: Stream, t: nat, j: nat)
    requires WellFormed(b) && Mappable(b) && Aligned(b) && Feeds(b, xs) && j < NOut(b)
    requires Compiles(Untapped(b)) && Feeds(Untapped(b), xs)
    ensures Wire(Untapped(b), xs, t).out(OutPorts(b, 0)[j]) == OutAt(b, xs, j, t)
  {
    hide ProcessOne, Named, WellFormed, Mappable, MappedOuts, Aligned, Compiles, Consistent, Realises, Flatten,
      OutPorts, AfterCalls, After, Wire;
    var bt := AfterCalls(b, xs, t);
    UntappedAfterCalls(b, xs, t);
    UntappedGraph(bt, 0);
    OneSample(Untapped(b), xs, t);
    EveryOutputCarried(bt, 0, xs(t), Wire(Untapped(b), xs, t));
    OutPortsOverTime(b, xs, t);
  }

  // the samples that reach the end of an edge whose source carries v: those it is primed with, and then v's
  lemma SuppliedOver(v: nat -> Sample, u: nat -> Sample, waiting: seq<Sample>, taken: nat, fired: nat)
    requires |waiting| <= 1 && taken <= fired + |waiting|
    requires waiting == [] ==> forall t: nat :: u(t) == v(t)
    requires waiting != [] ==> u(0) == waiting[0] && forall t: nat :: u(t + 1) == v(t)
    ensures Slice(u, taken, fired + |waiting|) == (waiting + seq(fired, (t: nat) => v(t)))[taken..]
  {
    var s := waiting + seq(fired, (t: nat) => v(t));
    forall t: nat | t < |s| ensures s[t] == u(t) {
      SuppliedAt(v, u, waiting, t, fired);
    }
    SliceOf(u, s, taken);
  }

  lemma SuppliedAt(v: nat -> Sample, u: nat -> Sample, waiting: seq<Sample>, t: nat, fired: nat)
    requires |waiting| <= 1 && t < fired + |waiting|
    requires waiting == [] ==> forall t: nat :: u(t) == v(t)
    requires waiting != [] ==> u(0) == waiting[0] && forall t: nat :: u(t + 1) == v(t)
    ensures (waiting + seq(fired, (t: nat) => v(t)))[t] == u(t)
  {
    if waiting != [] && t > 0 { assert u((t - 1) + 1) == v(t - 1); }
  }

  lemma SliceOf(u: nat -> Sample, s: seq<Sample>, taken: nat)
    requires taken <= |s| && forall t: nat :: t < |s| ==> s[t] == u(t)
    ensures Slice(u, taken, |s|) == s[taken..]
  {
  }

  // the port at the end of an edge over time, told by the output behind its source
  lemma EdgeFollowsOutput(b: Block, xs: Stream, i: nat, j: nat)
    requires WellFormed(b) && Mappable(b) && Aligned(b) && Feeds(b, xs) && j < NOut(b)
    requires Compiles(Untapped(b)) && Feeds(Untapped(b), xs) && Flatten(b, 0) == Leaves(Untapped(b), xs, 0)
    requires i < |Flatten(b, 0).edges| && Flatten(b, 0).edges[i].source == OutPorts(b, 0)[j]
    ensures var e := Flatten(b, 0).edges[i];
            && (e.waiting == [] ==>
                  forall t: nat :: Wire(Untapped(b), xs, t).inp(e.destination) == OutAt(b, xs, j, t))
            && (e.waiting != [] ==> Wire(Untapped(b), xs, 0).inp(e.destination) == e.waiting[0])
            && (e.waiting != [] ==>
                  forall t: nat :: Wire(Untapped(b), xs, t + 1).inp(e.destination) == OutAt(b, xs, j, t))
  {
    hide ProcessOne, WellFormed, Mappable, MappedOuts, Aligned, Compiles, Flatten, Leaves, OutPorts, Wire, OutAt,
      Untapped;
    var e := Flatten(b, 0).edges[i];
    EdgeOverTime(Untapped(b), xs, 0, i);
    forall t: nat
      ensures e.waiting == [] ==> Wire(Untapped(b), xs, t).inp(e.destination) == OutAt(b, xs, j, t)
      ensures e.waiting != [] ==> Wire(Untapped(b), xs, t + 1).inp(e.destination) == OutAt(b, xs, j, t)
    {
      EdgeOverTime(Untapped(b), xs, t, i);
      WireCarriesOutput(b, xs, t, j);
    }
  }

  // So in any run of the leaf graph: a leaf that reads the port behind output j has been supplied the edge's first
  // samples and then what the fused calls return at output j, and has the rest of that waiting.
  lemma EveryRunSuppliesOutputs(b: Block, xs: Stream, n: nat, schedule: seq<nat>, c: Config, i: nat, j: nat)
    requires WellFormed(b) && Mappable(b) && Aligned(b) && Feeds(b, xs) && j < NOut(b)
    requires IsRun(Flatten(b, 0), Initial(Flatten(b, 0), xs, n), schedule, c)
    requires i < |Flatten(b, 0).edges| && Flatten(b, 0).edges[i].source == OutPorts(b, 0)[j]
    ensures var e := Flatten(b, 0).edges[i];
            && e.source.block < |c.fired| && e.destination.block < |c.fired|
            && var fired, taken := c.fired[e.source.block], c.fired[e.destination.block];
            && taken <= |e.waiting| + fired
            && c.buffer(e.destination) == (e.waiting + OutStream(b, xs, j, fired))[taken..]
  {
    hide ProcessOne, WellFormed, Mappable, MappedOuts, Aligned, Compiles, OutPorts, Wire, OutAt, Untapped, Flatten,
      IsRun, Initial, Sound;
    var u, e := Untapped(b), Flatten(b, 0).edges[i];
    UntappedGraph(b, 0);
    LeavesSound(u, xs);
    InitialTracks(u, xs, n);
    RunTracks(u, xs, n, Initial(Flatten(b, 0), xs, n), schedule, c);
    assert EdgeTracks(u, xs, c, e);
    EdgeFollowsOutput(b, xs, i, j);
    CompilesParts(u);
    WaitingAtMostOne(u, 0);
    assert e in Flatten(u, 0).edges;
    SuppliedOver((t: nat) => OutAt(b, xs, j, t), InputsAt(u, xs, e.destination), e.waiting,
                 c.fired[e.destination.block], c.fired[e.source.block]);
    assert seq(c.fired[e.source.block], (t: nat) => ((s: nat) => OutAt(b, xs, j, s))(t))
        == OutStream(b, xs, j, c.fired[e.source.block]);
  }
}
