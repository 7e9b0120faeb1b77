/**
 Runs of a merged block and of its leaf graph over a whole input stream.

 The leaf graph runs as a scheduler runs it: a leaf fires whenever each of its input buffers holds a sample, in any
 order and with any lead of one leaf over another. The results relate every such run to the fused calls.
 */
module MergedRuns {
  import opened Wrappers
  import opened BlockMerging

  // the input vector of each fused call
  type Stream = nat -> seq<Sample>

  ghost predicate Feeds(b: Block, xs: Stream) { forall t :: |xs(t)| == NIn(b) }

  // the merged block after its first t calls, and what call t returns
  function After(b: Block, xs: Stream, t: nat): (r: Block)
    requires Compiles(b) && Feeds(b, xs)
    ensures Compiles(r) && NIn(r) == NIn(b) && NOut(r) == NOut(b) && Size(r) == Size(b)
  {
    if t == 0 then b else ProcessOne(After(b, xs, t - 1), xs(t - 1)).0
  }

  function FusedOut(b: Block, xs: Stream, t: nat): (r: seq<Sample>)
    requires Compiles(b) && Feeds(b, xs)
    ensures |r| == NOut(b)
  {
    ProcessOne(After(b, xs, t), xs(t)).1
  }

  function Leaves(b: Block, xs: Stream, t: nat): (g: Graph)
    requires Compiles(b) && Feeds(b, xs)
    ensures |g.blocks| == Size(b) && |g.ins| == NIn(b) && |g.outs| == NOut(b)
  {
    Flatten(After(b, xs, t), 0)
  }

  function Wire(b: Block, xs: Stream, t: nat): Wires
    requires Compiles(b) && Feeds(b, xs)
  {
    Wiring(After(b, xs, t), 0, xs(t))
  }

  lemma OneSample(b: Block, xs: Stream, t: nat)
    requires Compiles(b) && Feeds(b, xs)
    ensures Consistent(Leaves(b, xs, t), 0, xs(t), Wire(b, xs, t))
    ensures Realises(Leaves(b, xs, t), 0, Wire(b, xs, t), Leaves(b, xs, t + 1), FusedOut(b, xs, t))
  {
    hide Consistent, Realises, Compiles, Wiring, Flatten, ProcessOne;
    WiringConsistent(After(b, xs, t), 0, xs(t));
    FlatSampleEqualsFused(After(b, xs, t), 0, xs(t), Wire(b, xs, t));
  }

  // the parts of a leaf graph that no sample changes
  ghost predicate SameShape(g: Graph, h: Graph) {
    && |g.blocks| == |h.blocks| && |g.edges| == |h.edges| && g.ins == h.ins && g.outs == h.outs
    && (forall k :: 0 <= k < |g.blocks| ==> g.blocks[k] == h.blocks[k].(state := g.blocks[k].state))
    && (forall j :: 0 <= j < |g.edges| ==>
          && g.edges[j].source == h.edges[j].source && g.edges[j].destination == h.edges[j].destination
          && (g.edges[j].waiting == [] <==> h.edges[j].waiting == []))
  }

  lemma StepKeepsShape(g: Graph, w: Wires)
    ensures SameShape(StepGraph(g, 0, w), g)
  {
  }

  lemma SameShapeTransitive(f: Graph, g: Graph, h: Graph)
    requires SameShape(f, g) && SameShape(g, h)
    ensures SameShape(f, h)
  {
  }

  lemma ShapeOfOneSample(b: Block, xs: Stream, t: nat)
    requires Compiles(b) && Feeds(b, xs)
    ensures SameShape(Leaves(b, xs, t + 1), Leaves(b, xs, t))
  {
    hide Consistent, Compiles, Flatten, Leaves, Wire, StepGraph, SameShape;
    OneSample(b, xs, t);
    StepKeepsShape(Leaves(b, xs, t), Wire(b, xs, t));
  }

  lemma {:induction false} ShapeStays(b: Block, xs: Stream, t: nat)
    requires Compiles(b) && Feeds(b, xs)
    ensures SameShape(Leaves(b, xs, t), Leaves(b, xs, 0))
  {
    hide Compiles, Leaves, SameShape;
    if t == 0 {
      SameShapeReflexive(Leaves(b, xs, 0));
    } else {
      ShapeStays(b, xs, t - 1);
      ShapeOfOneSample(b, xs, t - 1);
      SameShapeTransitive(Leaves(b, xs, t), Leaves(b, xs, t - 1), Leaves(b, xs, 0));
    }
  }

  lemma SameShapeReflexive(g: Graph)
    ensures SameShape(g, g)
  {
  }

  // --- the four facts about one wire of one sample that a run is compared with -----------------------------------

  lemma EdgeOverTime(b: Block, xs: Stream, t: nat, j: nat)
    requires Compiles(b) && Feeds(b, xs) && j < |Leaves(b, xs, 0).edges|
    ensures var e := Leaves(b, xs, 0).edges[j];
            && (e.waiting == [] ==> Wire(b, xs, t).inp(e.destination) == Wire(b, xs, t).out(e.source))
            && (e.waiting != [] ==> Wire(b, xs, t + 1).inp(e.destination) == Wire(b, xs, t).out(e.source))
            && (e.waiting != [] ==> Wire(b, xs, 0).inp(e.destination) == e.waiting[0])
  {
    hide Compiles, Wiring, Flatten, Leaves, After, FusedOut, Wire, LeafHolds, StepBlocks;
    OneSample(b, xs, 0); OneSample(b, xs, t); OneSample(b, xs, t + 1);
    ShapeStays(b, xs, t); ShapeStays(b, xs, t + 1);
    var e0, e, f := Leaves(b, xs, 0).edges[j], Leaves(b, xs, t).edges[j], Leaves(b, xs, t + 1).edges[j];
    assert EdgeHolds(e0, Wire(b, xs, 0)) && EdgeHolds(e, Wire(b, xs, t)) && EdgeHolds(f, Wire(b, xs, t + 1));
    assert f == StepEdge(e, Wire(b, xs, t));
  }

  lemma LeafOverTime(b: Block, xs: Stream, t: nat, k: nat)
    requires Compiles(b) && Feeds(b, xs) && k < Size(b)
    ensures var leaf, w := Leaves(b, xs, t).blocks[k], Wire(b, xs, t);
            var (s, outs) := leaf.step(leaf.state, Reads(leaf, k, w));
            && leaf == Leaves(b, xs, 0).blocks[k].(state := leaf.state)
            && Leaves(b, xs, t + 1).blocks[k].state == s
            && |outs| == leaf.nOut && forall p: nat :: p < leaf.nOut ==> w.out(PortRef(k, p)) == outs[p]
  {
    hide Compiles, Wiring, Flatten, Leaves, After, FusedOut, Wire, EdgeHolds, StepEdges;
    OneSample(b, xs, t);
    ShapeStays(b, xs, t);
    assert LeafHolds(Leaves(b, xs, t).blocks[k], 0 + k, Wire(b, xs, t));
    assert Leaves(b, xs, t + 1).blocks[k] == StepLeaf(Leaves(b, xs, t).blocks[k], 0 + k, Wire(b, xs, t));
  }

  lemma MapsOverTime(b: Block, xs: Stream, t: nat)
    requires Compiles(b) && Feeds(b, xs)
    ensures forall i :: 0 <= i < NIn(b) ==> Wire(b, xs, t).inp(Leaves(b, xs, 0).ins[i]) == xs(t)[i]
    ensures forall i :: 0 <= i < NOut(b) ==> Wire(b, xs, t).out(Leaves(b, xs, 0).outs[i]) == FusedOut(b, xs, t)[i]
  {
    hide Compiles, Wiring, Flatten, Leaves, After, FusedOut, Wire, EdgeHolds, LeafHolds, StepGraph;
    OneSample(b, xs, t);
    ShapeStays(b, xs, t);
  }

  // --- runs of the leaf graph -------------------------------------------------------------------------------------

  // how often each leaf fired, its state, what waits at each leaf input port, and what each leaf output port has
  // handed to the outside
  datatype Config = Config(fired: seq<nat>, states: seq<State>, buffer: PortRef -> seq<Sample>,
                           sent: PortRef -> seq<Sample>)

  // The primed graph with n samples in each external input buffer.
  ghost function InitialBuffer(g: Graph, xs: Stream, n: nat, r: PortRef): seq<Sample>
    requires forall t :: |xs(t)| == |g.ins|
  {
    if r in g.ins then
      var i :| 0 <= i < |g.ins| && g.ins[i] == r;
      seq(n, (t: nat) => xs(t)[i])
    else if exists e :: e in g.edges && e.destination == r then
      var e :| e in g.edges && e.destination == r;
      e.waiting
    else []
  }

  ghost function Initial(g: Graph, xs: Stream, n: nat): Config
    requires forall t :: |xs(t)| == |g.ins|
  {
    Config(seq(|g.blocks|, _ => 0), seq(|g.blocks|, k requires 0 <= k < |g.blocks| => g.blocks[k].state),
           (r: PortRef) => InitialBuffer(g, xs, n, r), (r: PortRef) => [])
  }

  predicate Ready(g: Graph, c: Config, k: nat) {
    k < |g.blocks| == |c.fired| == |c.states| && forall p: nat :: p < g.blocks[k].nIn ==> c.buffer(PortRef(k, p)) != []
  }

  // what a firing of leaf k puts into the buffer at r, edge by edge
  function Delivered(edges: seq<Edge>, k: nat, outs: seq<Sample>, r: PortRef): seq<Sample> {
    if edges == [] then []
    else
      var e := edges[|edges| - 1];
      Delivered(edges[..|edges| - 1], k, outs, r)
      + if e.destination == r && e.source.block == k && e.source.port < |outs| then [outs[e.source.port]] else []
  }

  function Fronts(g: Graph, c: Config, k: nat): seq<Sample>
    requires Ready(g, c, k)
  {
    seq(g.blocks[k].nIn, p requires 0 <= p < g.blocks[k].nIn => c.buffer(PortRef(k, p))[0])
  }

  // leaf k takes one sample from each of its buffers
  function Fire(g: Graph, c: Config, k: nat): Config
    requires Ready(g, c, k)
  {
    var leaf := g.blocks[k];
    var (s, outs) := leaf.step(c.states[k], Fronts(g, c, k));
    Config(c.fired[k := c.fired[k] + 1], c.states[k := s],
           (r: PortRef) =>
             (if r.block == k && r.port < leaf.nIn && c.buffer(r) != [] then c.buffer(r)[1..] else c.buffer(r))
             + Delivered(g.edges, k, outs, r),
           (r: PortRef) => c.sent(r) + if r.block == k && r.port < |outs| && r in g.outs then [outs[r.port]] else [])
  }

  // --- what a run can reach ---------------------------------------------------------------------------------------

  function Slice(w: nat -> Sample, from: nat, to: nat): seq<Sample> {
    seq(if from <= to then to - from else 0, (i: nat) => w(from + i))
  }

  function InputsAt(b: Block, xs: Stream, r: PortRef): nat -> Sample
    requires Compiles(b) && Feeds(b, xs)
  {
    (t: nat) => Wire(b, xs, t).inp(r)
  }

  function OutputsAt(b: Block, xs: Stream, r: PortRef): nat -> Sample
    requires Compiles(b) && Feeds(b, xs)
  {
    (t: nat) => Wire(b, xs, t).out(r)
  }

  // After fired[k] firings, leaf k is where fused call fired[k] finds it, and each buffer holds the wire's samples
  // that were supplied and not yet taken.
  ghost predicate Tracks(b: Block, xs: Stream, n: nat, c: Config)
    requires Compiles(b) && Feeds(b, xs)
  {
    var g := Leaves(b, xs, 0);
    && |c.fired| == |c.states| == Size(b)
    && (forall k :: 0 <= k < Size(b) ==> c.states[k] == Leaves(b, xs, c.fired[k]).blocks[k].state)
    && (forall j :: 0 <= j < |g.edges| ==> EdgeTracks(b, xs, c, g.edges[j]))
    && (forall i :: 0 <= i < |g.ins| ==> InputTracks(b, xs, n, c, g.ins[i]))
    && (forall i :: 0 <= i < |g.outs| ==> OutputTracks(b, xs, c, g.outs[i]))
  }

  ghost predicate EdgeTracks(b: Block, xs: Stream, c: Config, e: Edge)
    requires Compiles(b) && Feeds(b, xs)
  {
    && e.source.block < |c.fired| && e.destination.block < |c.fired|
    && var supplied, taken := c.fired[e.source.block] + |e.waiting|, c.fired[e.destination.block];
    && taken <= supplied
    && c.buffer(e.destination) == Slice(InputsAt(b, xs, e.destination), taken, supplied)
  }

  ghost predicate InputTracks(b: Block, xs: Stream, n: nat, c: Config, r: PortRef)
    requires Compiles(b) && Feeds(b, xs)
  {
    && r.block < |c.fired| && c.fired[r.block] <= n
    && c.buffer(r) == Slice(InputsAt(b, xs, r), c.fired[r.block], n)
  }

  ghost predicate OutputTracks(b: Block, xs: Stream, c: Config, r: PortRef)
    requires Compiles(b) && Feeds(b, xs)
  {
    r.block < |c.fired| && c.sent(r) == Slice(OutputsAt(b, xs, r), 0, c.fired[r.block])
  }

  lemma CountedOnce<T>(s: seq<T>, i: nat, j: nat)
    requires i < j < |s| && multiset(s)[s[i]] <= 1
    ensures s[i] != s[j]
  {
    assert s == s[..j] + s[j..];
    assert s[i] in multiset(s[..j]) && s[j] in multiset(s[j..]);
  }

  // no two edges end on one port, and no edge ends on an external input
  ghost predicate Apart(g: Graph) {
    && (forall i, j :: 0 <= i < j < |g.edges| ==> g.edges[i].destination != g.edges[j].destination)
    && (forall e :: e in g.edges ==> e.destination !in g.ins)
    && (forall i, j :: 0 <= i < j < |g.ins| ==> g.ins[i] != g.ins[j])
  }

  lemma PortsApart(g: Graph)
    requires InputsOwned(g, 0)
    ensures Apart(g)
    ensures forall r: PortRef :: InPort(g, 0, r) ==> r in g.ins || r in Destinations(g.edges)
  {
    var ds := Destinations(g.edges);
    assert forall r: PortRef :: Fed(g)[r] == multiset(ds)[r] + multiset(g.ins)[r];
    forall i, j | 0 <= i < j < |g.edges| ensures g.edges[i].destination != g.edges[j].destination {
      CountedOnce(ds, i, j);
    }
    forall i, j | 0 <= i < j < |g.ins| ensures g.ins[i] != g.ins[j] {
      CountedOnce(g.ins, i, j);
    }
    forall e | e in g.edges ensures e.destination !in g.ins {
      var j :| 0 <= j < |g.edges| && g.edges[j] == e;
      assert ds[j] in multiset(ds);
    }
    forall r: PortRef | InPort(g, 0, r) ensures r in g.ins || r in ds {
      assert Fed(g)[r] == 1;
    }
  }

  lemma {:induction false} DeliveredElsewhere(edges: seq<Edge>, k: nat, outs: seq<Sample>, r: PortRef)
    requires forall e :: e in edges ==> e.destination != r
    ensures Delivered(edges, k, outs, r) == []
  {
    if edges != [] {
      assert edges[|edges| - 1] in edges;
      DeliveredElsewhere(edges[..|edges| - 1], k, outs, r);
    }
  }

  lemma {:induction false} DeliveredOnce(edges: seq<Edge>, k: nat, outs: seq<Sample>, j: nat)
    requires j < |edges| && forall i :: 0 <= i < |edges| && i != j ==> edges[i].destination != edges[j].destination
    ensures Delivered(edges, k, outs, edges[j].destination)
         == var r := edges[j].source; if r.block == k && r.port < |outs| then [outs[r.port]] else []
  {
    if j == |edges| - 1 {
      DeliveredElsewhere(edges[..j], k, outs, edges[j].destination);
    } else {
      DeliveredOnce(edges[..|edges| - 1], k, outs, j);
    }
  }

  lemma {:induction false} WaitingAtMostOne(b: Block, base: nat)
    requires Compiles(b)
    ensures forall e :: e in Flatten(b, base).edges ==> |e.waiting| <= 1
  {
    hide WellFormed, Mappable, TapFree, MappedOuts, Flatten;
    match b {
      case Unit(leaf) => UnitHasNoEdge(leaf, base);
      case Merge(l, _, r, _) =>
        FlattenMerge(b, base); MergeCompiles(b);
        WaitingAtMostOne(l, base); WaitingAtMostOne(r, base + Size(l));
      case Feedback(f, k, _, m, _, _) =>
        FlattenFeedback(b, base); FeedbackCompiles(b);
        WaitingAtMostOne(f, base); WaitingAtMostOne(k, base + Size(f));
        if m.Some? { WaitingAtMostOne(m.value, base + Size(f) + Size(k)); }
    }
  }

  lemma UnitHasNoEdge(leaf: Leaf, base: nat)
    requires Compiles(Unit(leaf))
    ensures Flatten(Unit(leaf), base).edges == []
  {
  }

  // what the proofs about runs use of the graph
  ghost predicate Sound(g: Graph) {
    && Apart(g)
    && (forall r: PortRef :: InPort(g, 0, r) ==> r in g.ins || r in Destinations(g.edges))
    && (forall r :: r in g.ins ==> InPort(g, 0, r)) && (forall r :: r in g.outs ==> OutPort(g, 0, r))
    && (forall e :: e in g.edges ==> InPort(g, 0, e.destination) && OutPort(g, 0, e.source) && |e.waiting| <= 1)
  }

  lemma LeavesSound(b: Block, xs: Stream)
    requires Compiles(b) && Feeds(b, xs)
    ensures Sound(Leaves(b, xs, 0))
  {
    hide InputsOwned, OutputsUsed, Apart, Flatten, InPort, OutPort;
    PortsPlaced(b, 0);
    PortsApart(Flatten(b, 0));
    RefsInside(Flatten(b, 0), 0);
    WaitingAtMostOne(b, 0);
  }

  lemma SliceTail(w: nat -> Sample, from: nat, to: nat)
    requires from < to
    ensures Slice(w, from, to) != [] && Slice(w, from, to)[0] == w(from)
    ensures Slice(w, from, to)[1..] == Slice(w, from + 1, to)
  {
  }

  lemma SliceSnoc(w: nat -> Sample, from: nat, to: nat)
    requires from <= to
    ensures Slice(w, from, to + 1) == Slice(w, from, to) + [w(to)]
  {
  }

  lemma FrontIsRead(b: Block, xs: Stream, n: nat, c: Config, k: nat, p: nat)
    requires Compiles(b) && Feeds(b, xs) && Tracks(b, xs, n, c) && Sound(Leaves(b, xs, 0))
    requires Ready(Leaves(b, xs, 0), c, k) && p < Leaves(b, xs, 0).blocks[k].nIn
    ensures c.buffer(PortRef(k, p))[0] == Wire(b, xs, c.fired[k]).inp(PortRef(k, p))
  {
    hide Compiles, Leaves, Wire, Sound, Feeds, OutputTracks, WellFormed, Mappable, Flatten, After;
    var g, r := Leaves(b, xs, 0), PortRef(k, p);
    assert InPort(g, 0, r);
    SuppliedSomewhere(g, r);
    if i: nat :| i < |g.ins| && g.ins[i] == r {
      assert InputTracks(b, xs, n, c, g.ins[i]);
    } else {
      var j: nat :| j < |g.edges| && g.edges[j].destination == r;
      assert EdgeTracks(b, xs, c, g.edges[j]);
    }
  }

  lemma SuppliedSomewhere(g: Graph, r: PortRef)
    requires Sound(g) && InPort(g, 0, r)
    ensures (exists i: nat :: i < |g.ins| && g.ins[i] == r)
      || exists j: nat :: j < |g.edges| && g.edges[j].destination == r
  {
    hide Apart;
    if r !in g.ins {
      var j :| 0 <= j < |g.edges| && Destinations(g.edges)[j] == r;
    }
  }

  // a leaf that can fire reads what the fused call it stands at reads
  lemma FrontsAreReads(b: Block, xs: Stream, n: nat, c: Config, k: nat)
    requires Compiles(b) && Feeds(b, xs) && Tracks(b, xs, n, c) && Sound(Leaves(b, xs, 0))
    requires Ready(Leaves(b, xs, 0), c, k)
    ensures Fronts(Leaves(b, xs, 0), c, k) == Reads(Leaves(b, xs, c.fired[k]).blocks[k], k, Wire(b, xs, c.fired[k]))
  {
    hide Compiles, Leaves, Wire, Sound, Feeds, EdgeTracks, InputTracks, OutputTracks;
    LeafOverTime(b, xs, c.fired[k], k);
    forall p: nat | p < Leaves(b, xs, 0).blocks[k].nIn
      ensures c.buffer(PortRef(k, p))[0] == Wire(b, xs, c.fired[k]).inp(PortRef(k, p))
    {
      FrontIsRead(b, xs, n, c, k, p);
    }
  }

  // firing leaf k keeps each part of Tracks
  lemma FireEdge(b: Block, xs: Stream, n: nat, c: Config, k: nat, j: nat)
    requires Compiles(b) && Feeds(b, xs) && Tracks(b, xs, n, c) && Sound(Leaves(b, xs, 0))
    requires Ready(Leaves(b, xs, 0), c, k) && j < |Leaves(b, xs, 0).edges|
    requires OutsAreWires(b, xs, c, k)
    ensures EdgeTracks(b, xs, Fire(Leaves(b, xs, 0), c, k), Leaves(b, xs, 0).edges[j])
  {
    hide Compiles, Leaves, Wire, Feeds, InputTracks, OutputTracks, Delivered, Fronts, Slice;
    var g := Leaves(b, xs, 0);
    var e, w := g.edges[j], InputsAt(b, xs, g.edges[j].destination);
    var outs := FiredOuts(g, c, k);
    DeliveredOnce(g.edges, k, outs, j);
    assert EdgeTracks(b, xs, c, e) && e in g.edges;
    var supplied, taken := c.fired[e.source.block] + |e.waiting|, c.fired[e.destination.block];
    EdgeOverTime(b, xs, c.fired[e.source.block], j);
    assert c.buffer(e.destination) == Slice(w, taken, supplied);
    if e.destination.block == k {
      assert c.buffer(PortRef(k, e.destination.port)) != [];
      assert taken < supplied by { if taken == supplied { SliceEmpty(w, taken); } }
      SliceTail(w, taken, supplied);
    }
    if e.source.block == k {
      assert outs[e.source.port] == Wire(b, xs, c.fired[k]).out(e.source);
      SliceSnoc(w, if e.destination.block == k then taken + 1 else taken, supplied);
    }
  }

  lemma SliceEmpty(w: nat -> Sample, from: nat)
    ensures Slice(w, from, from) == []
  {
  }

  function FiredOuts(g: Graph, c: Config, k: nat): seq<Sample>
    requires Ready(g, c, k)
  {
    g.blocks[k].step(c.states[k], Fronts(g, c, k)).1
  }

  ghost predicate OutsAreWires(b: Block, xs: Stream, c: Config, k: nat)
    requires Compiles(b) && Feeds(b, xs) && Ready(Leaves(b, xs, 0), c, k)
  {
    var g := Leaves(b, xs, 0);
    && |FiredOuts(g, c, k)| == g.blocks[k].nOut
    && forall p: nat :: p < g.blocks[k].nOut ==> FiredOuts(g, c, k)[p] == Wire(b, xs, c.fired[k]).out(PortRef(k, p))
  }

  lemma FiredOutsAreWires(b: Block, xs: Stream, n: nat, c: Config, k: nat)
    requires Compiles(b) && Feeds(b, xs) && Tracks(b, xs, n, c) && Sound(Leaves(b, xs, 0))
    requires Ready(Leaves(b, xs, 0), c, k)
    ensures OutsAreWires(b, xs, c, k)
    ensures Leaves(b, xs, c.fired[k] + 1).blocks[k].state == Fire(Leaves(b, xs, 0), c, k).states[k]
  {
    hide Compiles, Leaves, Wire, Sound, Feeds, EdgeTracks, InputTracks, OutputTracks, Fronts, Reads, Delivered;
    FrontsAreReads(b, xs, n, c, k);
    LeafOverTime(b, xs, c.fired[k], k);
  }

  lemma FireInput(b: Block, xs: Stream, n: nat, c: Config, k: nat, i: nat)
    requires Compiles(b) && Feeds(b, xs) && Tracks(b, xs, n, c) && Sound(Leaves(b, xs, 0))
    requires Ready(Leaves(b, xs, 0), c, k) && i < |Leaves(b, xs, 0).ins|
    ensures InputTracks(b, xs, n, Fire(Leaves(b, xs, 0), c, k), Leaves(b, xs, 0).ins[i])
  {
    hide Compiles, Leaves, Wire, Feeds, EdgeTracks, OutputTracks, Delivered, Fronts, Slice;
    var g := Leaves(b, xs, 0);
    var r, w := g.ins[i], InputsAt(b, xs, g.ins[i]);
    DeliveredElsewhere(g.edges, k, FiredOuts(g, c, k), r);
    assert InputTracks(b, xs, n, c, r);
    if r.block == k {
      assert InPort(g, 0, r) && c.buffer(PortRef(k, r.port)) != [];
      assert c.fired[k] < n by { if c.fired[k] == n { SliceEmpty(w, n); } }
      SliceTail(w, c.fired[k], n);
    }
  }

  lemma FireOutput(b: Block, xs: Stream, n: nat, c: Config, k: nat, i: nat)
    requires Compiles(b) && Feeds(b, xs) && Tracks(b, xs, n, c) && Sound(Leaves(b, xs, 0))
    requires Ready(Leaves(b, xs, 0), c, k) && i < |Leaves(b, xs, 0).outs|
    requires OutsAreWires(b, xs, c, k)
    ensures OutputTracks(b, xs, Fire(Leaves(b, xs, 0), c, k), Leaves(b, xs, 0).outs[i])
  {
    hide Compiles, Leaves, Wire, Feeds, EdgeTracks, InputTracks, Delivered, Fronts, Slice;
    var g := Leaves(b, xs, 0);
    var r, w := g.outs[i], OutputsAt(b, xs, g.outs[i]);
    assert OutputTracks(b, xs, c, r) && OutPort(g, 0, r);
    if r.block == k {
      assert FiredOuts(g, c, k)[r.port] == w(c.fired[k]);
      SliceSnoc(w, 0, c.fired[k]);
    }
  }

  lemma FireTracks(b: Block, xs: Stream, n: nat, c: Config, k: nat)
    requires Compiles(b) && Feeds(b, xs) && Tracks(b, xs, n, c) && Sound(Leaves(b, xs, 0))
    requires Ready(Leaves(b, xs, 0), c, k)
    ensures Tracks(b, xs, n, Fire(Leaves(b, xs, 0), c, k))
  {
    hide Compiles, Leaves, Wire, Sound, Feeds, EdgeTracks, InputTracks, OutputTracks, OutsAreWires, Delivered, Fronts;
    var g := Leaves(b, xs, 0);
    FiredOutsAreWires(b, xs, n, c, k);
    var c' := Fire(g, c, k);
    forall j | 0 <= j < |g.edges| ensures EdgeTracks(b, xs, c', g.edges[j]) { FireEdge(b, xs, n, c, k, j); }
    forall i | 0 <= i < |g.ins| ensures InputTracks(b, xs, n, c', g.ins[i]) { FireInput(b, xs, n, c, k, i); }
    forall i | 0 <= i < |g.outs| ensures OutputTracks(b, xs, c', g.outs[i]) { FireOutput(b, xs, n, c, k, i); }
  }

  lemma InitialBuffers(g: Graph, xs: Stream, n: nat)
    requires Apart(g) && forall t :: |xs(t)| == |g.ins|
    ensures forall j :: 0 <= j < |g.edges| ==> InitialBuffer(g, xs, n, g.edges[j].destination) == g.edges[j].waiting
    ensures forall i :: 0 <= i < |g.ins| ==> InitialBuffer(g, xs, n, g.ins[i]) == seq(n, (t: nat) => xs(t)[i])
  {
    forall j | 0 <= j < |g.edges|
      ensures InitialBuffer(g, xs, n, g.edges[j].destination) == g.edges[j].waiting
    {
      assert g.edges[j] in g.edges;
    }
    forall i | 0 <= i < |g.ins| ensures InitialBuffer(g, xs, n, g.ins[i]) == seq(n, (t: nat) => xs(t)[i]) {
      assert g.ins[i] in g.ins;
    }
  }

  lemma InitialTracks(b: Block, xs: Stream, n: nat)
    requires Compiles(b) && Feeds(b, xs) && Sound(Leaves(b, xs, 0))
    ensures Tracks(b, xs, n, Initial(Leaves(b, xs, 0), xs, n))
  {
    hide Compiles, Leaves, Wire, InitialBuffer, Apart;
    var g, c := Leaves(b, xs, 0), Initial(Leaves(b, xs, 0), xs, n);
    InitialBuffers(g, xs, n);
    forall j | 0 <= j < |g.edges| ensures EdgeTracks(b, xs, c, g.edges[j]) {
      EdgeOverTime(b, xs, 0, j);
      assert g.edges[j] in g.edges;
    }
    forall i | 0 <= i < |g.ins| ensures InputTracks(b, xs, n, c, g.ins[i]) {
      assert g.ins[i] in g.ins;
      forall t: nat | t < n ensures InputsAt(b, xs, g.ins[i])(t) == xs(t)[i] { MapsOverTime(b, xs, t); }
    }
    forall i | 0 <= i < |g.outs| ensures OutputTracks(b, xs, c, g.outs[i]) {
      assert g.outs[i] in g.outs;
    }
  }

  // --- the results ------------------------------------------------------------------------------------------------

  // A schedule names the leaf of each firing. It is a run while each named leaf can fire.
  ghost predicate IsRun(g: Graph, c: Config, schedule: seq<nat>, c': Config)
    decreases |schedule|
  {
    if schedule == [] then c' == c
    else Ready(g, c, schedule[0]) && IsRun(g, Fire(g, c, schedule[0]), schedule[1..], c')
  }

  lemma {:induction false} RunTracks(b: Block, xs: Stream, n: nat, c: Config, schedule: seq<nat>, c': Config)
    requires Compiles(b) && Feeds(b, xs) && Sound(Leaves(b, xs, 0)) && Tracks(b, xs, n, c)
    requires IsRun(Leaves(b, xs, 0), c, schedule, c')
    ensures Tracks(b, xs, n, c')
    decreases |schedule|
  {
    hide Compiles, Leaves, Sound, Feeds, Tracks, Fire, Ready;
    if schedule != [] {
      FireTracks(b, xs, n, c, schedule[0]);
      RunTracks(b, xs, n, Fire(Leaves(b, xs, 0), c, schedule[0]), schedule[1..], c');
    }
  }

  // what the first m fused calls return at external output i
  function FusedStream(b: Block, xs: Stream, i: nat, m: nat): seq<Sample>
    requires Compiles(b) && Feeds(b, xs) && i < NOut(b)
  {
    seq(m, (t: nat) => FusedOut(b, xs, t)[i])
  }

  // Whatever order the leaves fire in: each external output carries a beginning of what the fused calls return there,
  // one sample for each firing of its leaf, and each leaf holds the state the fused calls give it.
  lemma EveryRunAgrees(b: Block, xs: Stream, n: nat, schedule: seq<nat>, c: Config)
    requires Compiles(b) && Feeds(b, xs)
    requires IsRun(Flatten(b, 0), Initial(Flatten(b, 0), xs, n), schedule, c)
    ensures |c.fired| == |c.states| == Size(b)
    ensures forall i :: 0 <= i < NOut(b) ==>
              var r := Flatten(b, 0).outs[i];
              r.block < Size(b) && c.sent(r) == FusedStream(b, xs, i, c.fired[r.block])
    ensures forall k :: 0 <= k < Size(b) ==>
              c.states[k] == Flatten(After(b, xs, c.fired[k]), 0).blocks[k].state
  {
    LeavesSound(b, xs);
    InitialTracks(b, xs, n);
    RunTracks(b, xs, n, Initial(Flatten(b, 0), xs, n), schedule, c);
    hide Compiles, Wire, Sound, Feeds, EdgeTracks, InputTracks, Flatten, After, FusedOut;
    var g := Leaves(b, xs, 0);
    forall i | 0 <= i < NOut(b)
      ensures g.outs[i].block < Size(b) && c.sent(g.outs[i]) == FusedStream(b, xs, i, c.fired[g.outs[i].block])
    {
      assert OutputTracks(b, xs, c, g.outs[i]);
      forall t: nat ensures OutputsAt(b, xs, g.outs[i])(t) == FusedOut(b, xs, t)[i] { MapsOverTime(b, xs, t); }
    }
  }

  // the leaves in an order in which no plain edge points backwards
  function Rank(b: Block, base: nat, id: nat): (r: nat)
    ensures r < Size(b)
  {
    match b
    case Unit(_) => 0
    case Merge(l, _, r, _) =>
      if id < base + Size(l) then Rank(l, base, id) else Size(l) + Rank(r, base + Size(l), id)
    case Feedback(f, k, _, m, _, _) =>
      var before := Size(f) + if m.Some? then Size(m.value) else 0;
      if id < base + Size(f) then Rank(f, base, id)
      else if id < base + Size(f) + Size(k) || m.None? then before + Rank(k, base + Size(f), id)
      else Size(f) + Rank(m.value, base + Size(f) + Size(k), id)
  }

  ghost predicate Rises(b: Block, base: nat, e: Edge) {
    e.waiting == [] ==> Rank(b, base, e.source.block) < Rank(b, base, e.destination.block)
  }

  lemma EdgesInside(b: Block, base: nat)
    requires Compiles(b)
    ensures forall e :: e in Flatten(b, base).edges ==>
              base <= e.source.block < base + Size(b) && base <= e.destination.block < base + Size(b)
    ensures forall r :: r in Flatten(b, base).ins + Flatten(b, base).outs ==> base <= r.block < base + Size(b)
  {
    hide InputsOwned, OutputsUsed, Compiles, Flatten;
    assert WellFormed(b) && Mappable(b) by { CompilesParts(b); }
    PortsPlaced(b, base);
    RefsInside(Flatten(b, base), base);
  }

  lemma CompilesParts(b: Block)
    requires Compiles(b)
    ensures WellFormed(b) && Mappable(b) && |Flatten(b, 0).blocks| == Size(b)
  {
  }

  lemma {:induction false} RankRises(b: Block, base: nat)
    requires Compiles(b)
    ensures AllRise(b, base)
  {
    hide WellFormed, Mappable, TapFree, MappedOuts, Flatten, Rises;
    match b {
      case Unit(leaf) => UnitHasNoEdge(leaf, base);
      case Merge(l, o, r, i) =>
        FlattenMerge(b, base); MergeCompiles(b);
        RankRises(l, base); RankRises(r, base + Size(l));
        EdgesInside(l, base); EdgesInside(r, base + Size(l));
        MergeRises(b, base);
      case Feedback(f, k, _, m, _, _) =>
        FlattenFeedback(b, base); FeedbackCompiles(b);
        RankRises(f, base); RankRises(k, base + Size(f));
        EdgesInside(f, base); EdgesInside(k, base + Size(f));
        if m.Some? { RankRises(m.value, base + Size(f) + Size(k)); EdgesInside(m.value, base + Size(f) + Size(k)); }
        FeedbackRises(b, base);
    }
  }

  ghost predicate AllRise(b: Block, base: nat)
    requires Compiles(b)
  {
    forall e :: e in Flatten(b, base).edges ==> Rises(b, base, e)
  }

  lemma MergeRises(b: Block, base: nat)
    requires b.Merge? && Compiles(b) && AllRise(b.left, base) && AllRise(b.right, base + Size(b.left))
    ensures AllRise(b, base)
  {
    hide WellFormed, Mappable, TapFree, MappedOuts, Flatten;
    MergeCompiles(b);
    FlattenMerge(b, base);
    EdgesInside(b.left, base); EdgesInside(b.right, base + Size(b.left));
  }

  lemma FeedbackRises(b: Block, base: nat)
    requires b.Feedback? && Compiles(b)
    requires AllRise(b.forward, base) && AllRise(b.feedback, base + Size(b.forward))
    requires b.monitor.Some? ==> AllRise(b.monitor.value, base + Size(b.forward) + Size(b.feedback))
    ensures AllRise(b, base)
  {
    hide WellFormed, Mappable, TapFree, MappedOuts, Flatten;
    FeedbackCompiles(b);
    FlattenFeedback(b, base);
    var gf, gk, gm := Flatten(b.forward, base), Flatten(b.feedback, base + Size(b.forward)), FlatMonitor(b, base);
    EdgesInside(b.forward, base); EdgesInside(b.feedback, base + Size(b.forward));
    assert gf.outs[0] in gf.outs && gk.ins[0] in gk.ins && gk.outs[0] in gk.outs;
    if b.monitor.Some? {
      EdgesInside(b.monitor.value, base + Size(b.forward) + Size(b.feedback));
      assert gm.value.ins[0] in gm.value.ins && gm.value.outs[0] in gm.value.outs;
    }
    forall e | e in Flatten(b, base).edges ensures Rises(b, base, e) {
      assert e in gf.edges || e in gk.edges || e in MonitorEdges(gm) || e in LoopEdges(gf, gk, gm, b.fwdIn, b.held);
    }
  }

  // an empty buffer of a leaf that lags the input is fed by an edge whose source is not ahead
  lemma StarvedBy(b: Block, xs: Stream, n: nat, c: Config, k: nat, p: nat)
    requires Compiles(b) && Feeds(b, xs) && Sound(Leaves(b, xs, 0)) && Tracks(b, xs, n, c)
    requires k < Size(b) && c.fired[k] < n && p < Leaves(b, xs, 0).blocks[k].nIn && c.buffer(PortRef(k, p)) == []
    ensures exists e :: e in Leaves(b, xs, 0).edges && e.destination.block == k && e.source.block < Size(b)
                     && c.fired[e.source.block] + |e.waiting| <= c.fired[k]
  {
    hide Compiles, Wire, Feeds, OutputTracks, Flatten, Leaves, Sound;
    var g, r := Leaves(b, xs, 0), PortRef(k, p);
    assert InPort(g, 0, r);
    SuppliedSomewhere(g, r);
    forall i | 0 <= i < |g.ins| ensures g.ins[i] != r { assert InputTracks(b, xs, n, c, g.ins[i]); }
    var j: nat :| j < |g.edges| && g.edges[j].destination == r;
    assert EdgeTracks(b, xs, c, g.edges[j]);
    assert g.edges[j] in g.edges;
  }

  // While a leaf has fired less often than the input allows, some such leaf can fire: the leaf graph cannot stall.
  lemma {:induction false} NeverStalls(b: Block, xs: Stream, n: nat, c: Config, k: nat)
    requires Compiles(b) && Feeds(b, xs) && Sound(Leaves(b, xs, 0)) && Tracks(b, xs, n, c)
    requires k < Size(b) && c.fired[k] < n
    ensures exists q: nat :: Ready(Leaves(b, xs, 0), c, q) && c.fired[q] < n
    decreases c.fired[k], Rank(b, 0, k)
  {
    hide Compiles, Wire, Feeds, OutputTracks, EdgeTracks, InputTracks, Flatten, Sound;
    var g := Leaves(b, xs, 0);
    if p: nat :| p < g.blocks[k].nIn && c.buffer(PortRef(k, p)) == [] {
      StarvedBy(b, xs, n, c, k, p);
      var e :| e in g.edges && e.destination.block == k && e.source.block < Size(b)
               && c.fired[e.source.block] + |e.waiting| <= c.fired[k];
      RankRises(b, 0);
      CompilesParts(b);
      assert e in Flatten(b, 0).edges && Rises(b, 0, e);
      NeverStalls(b, xs, n, c, e.source.block);
    } else {
      assert Ready(g, c, k);
    }
  }

  // A run that has no leaf left to fire below the input's length has fired every leaf that often. The external outputs
  // then begin with everything the fused calls return on that input, and a leaf that fired exactly that often holds
  // the state the fused calls leave.
  lemma FinishedRunEqualsFused(b: Block, xs: Stream, n: nat, schedule: seq<nat>, c: Config)
    requires Compiles(b) && Feeds(b, xs)
    requires IsRun(Flatten(b, 0), Initial(Flatten(b, 0), xs, n), schedule, c)
    requires forall k: nat :: Ready(Flatten(b, 0), c, k) ==> n <= c.fired[k]
    ensures |c.fired| == |c.states| == Size(b)
    ensures forall k :: 0 <= k < Size(b) ==> n <= c.fired[k]
    ensures forall i :: 0 <= i < NOut(b) ==> FusedStream(b, xs, i, n) <= c.sent(Flatten(b, 0).outs[i])
    ensures forall k :: 0 <= k < Size(b) && c.fired[k] == n ==>
              c.states[k] == Flatten(After(b, xs, n), 0).blocks[k].state
  {
    EveryRunAgrees(b, xs, n, schedule, c);
    LeavesSound(b, xs);
    InitialTracks(b, xs, n);
    RunTracks(b, xs, n, Initial(Flatten(b, 0), xs, n), schedule, c);
    hide Compiles, Wire, Sound, Feeds, Tracks, Flatten, After, FusedOut, Ready;
    forall k: nat | k < Size(b) ensures n <= c.fired[k] {
      if c.fired[k] < n { NeverStalls(b, xs, n, c, k); }
    }
  }
}
