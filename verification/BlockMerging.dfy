/**
 Merged blocks and the leaf graph they compile to (core/include/gnuradio-4.0/BlockMerging.hpp).

 A `Block` is a leaf, a merge of one output of a left block with one input of a right block, or a feedback merge,
 each with the state it holds. `ProcessOne` evaluates a nesting directly. `Flatten` compiles it into leaf blocks,
 edges and the two external port maps.
 */
module BlockMerging {
  import opened Wrappers

  // every port carries one sample type; a leaf's state is opaque
  type Sample(==, 0, !new)
  type State(!new)

  const Silence: Sample  // the default sample a feedback merge starts with

  datatype Leaf = Leaf(nIn: nat, nOut: nat, step: (State, seq<Sample>) -> (State, seq<Sample>), state: State) {
    // the number of samples a leaf returns is fixed by its type
    ghost predicate Fits() {
      forall s, ins :: |ins| == nIn ==> |step(s, ins).1| == nOut
    }
  }

  datatype Block =
    | Unit(leaf: Leaf)
    | Merge(left: Block, outId: nat, right: Block, inId: nat)
    | Feedback(forward: Block, feedback: Block, fwdIn: nat, monitor: Option<Block>, held: Sample, tap: bool)

  function NIn(b: Block): int {
    match b
    case Unit(leaf) => leaf.nIn
    case Merge(l, _, r, _) => NIn(l) + NIn(r) - 1
    case Feedback(f, _, _, _, _, _) => NIn(f) - 1
  }

  function NOut(b: Block): int {
    match b
    case Unit(leaf) => leaf.nOut
    case Merge(l, _, r, _) => NOut(l) - 1 + NOut(r)
    case Feedback(f, _, _, _, _, tap) => NOut(f) + if tap then 1 else 0
  }

  // What the templates' static assertions and calls demand. The whole output of the forward block is passed to the
  // monitor or the feedback block as one sample, so those blocks have one output each.
  ghost predicate WellFormed(b: Block)
    ensures WellFormed(b) ==> 0 <= NIn(b) && 0 <= NOut(b)
  {
    match b
    case Unit(leaf) => leaf.Fits()
    case Merge(l, o, r, i) => WellFormed(l) && WellFormed(r) && o < NOut(l) && i < NIn(r)
    case Feedback(f, k, i, m, _, _) =>
      && WellFormed(f) && WellFormed(k)
      && NOut(f) == 1 && 2 <= NIn(f) && i < NIn(f)
      && NIn(k) == 1 && NOut(k) == 1
      && (m.Some? ==> WellFormed(m.value) && NIn(m.value) == 1 && NOut(m.value) == 1)
  }

  function Without<T>(s: seq<T>, i: nat): seq<T>
    requires i < |s|
  {
    s[..i] + s[i+1..]
  }

  // what apply_right() hands to a right block: the inputs after the left block's n, the left block's sample at place i
  function JoinedInputs(n: nat, i: nat, ext: seq<Sample>, sample: Sample): (r: seq<Sample>)
    requires n + i <= |ext|
  {
    ext[n..n + i] + [sample] + ext[n + i..]
  }

  // One call of processOne(): the block with its new state, and the samples it returns.
  function ProcessOne(b: Block, ins: seq<Sample>): (r: (Block, seq<Sample>))
    requires WellFormed(b) && |ins| == NIn(b)
    ensures WellFormed(r.0) && NIn(r.0) == NIn(b) && NOut(r.0) == NOut(b) && |r.1| == NOut(b)
    ensures TapFree(r.0) == TapFree(b) && Mappable(r.0) == Mappable(b)
    ensures MappedOuts(r.0) == MappedOuts(b) && Size(r.0) == Size(b)
  {
    match b
    case Unit(leaf) =>
      var (s, outs) := leaf.step(leaf.state, ins);
      (Unit(leaf.(state := s)), outs)
    case Merge(l, o, r, i) =>
      var n := NIn(l);
      var (l', lo) := ProcessOne(l, ins[..n]);
      var (r', ro) := ProcessOne(r, JoinedInputs(n, i, ins, lo[o]));
      (Merge(l', o, r', i), Without(lo, o) + ro)
    case Feedback(f, k, i, m, held, tap) =>
      var (f', fo) := ProcessOne(f, JoinedInputs(0, i, ins, held));
      var (m', mo) := if m.Some? then var (mb, s) := ProcessOne(m.value, fo); (Some(mb), s) else (None, fo);
      var (k', ko) := ProcessOne(k, mo);
      (Feedback(f', k', i, m', ko[0], tap), fo + if tap then ko else [])
  }

  // --- the leaf graph ---------------------------------------------------------------------------------------------

  datatype PortRef = PortRef(block: nat, port: nat)

  // `waiting` is what the edge's buffer holds when the graph is between two samples: nothing on a plain edge, and the
  // one sample a feedback loop is primed with on the edge that closes it
  datatype Edge = Edge(source: PortRef, destination: PortRef, waiting: seq<Sample>)

  // leaf block i has the identity base + i, where base is given to Flatten
  datatype Graph = Graph(blocks: seq<Leaf>, edges: seq<Edge>, outs: seq<PortRef>, ins: seq<PortRef>)

  function Size(b: Block): nat {
    match b
    case Unit(_) => 1
    case Merge(l, _, r, _) => Size(l) + Size(r)
    case Feedback(f, k, _, m, _, _) => Size(f) + Size(k) + if m.Some? then Size(m.value) else 0
  }

  predicate TapFree(b: Block) {
    match b
    case Unit(_) => true
    case Merge(l, _, r, _) => TapFree(l) && TapFree(r)
    case Feedback(f, k, _, m, _, tap) => !tap && TapFree(f) && TapFree(k) && (m.Some? ==> TapFree(m.value))
  }

  // The length of the output port map, and whether every index into a nested map is inside it. The tap variant
  // inherits the map of the plain feedback merge, which does not name the tap's own output.
  function MappedOuts(b: Block): int {
    match b
    case Unit(leaf) => leaf.nOut
    case Merge(l, _, r, _) => MappedOuts(l) - 1 + MappedOuts(r)
    case Feedback(f, _, _, _, _, _) => MappedOuts(f)
  }

  predicate Mappable(b: Block) {
    match b
    case Unit(_) => true
    case Merge(l, o, r, i) => Mappable(l) && Mappable(r) && o < MappedOuts(l)
    case Feedback(f, k, i, m, _, _) =>
      && Mappable(f) && Mappable(k) && 0 < MappedOuts(f) && 0 < MappedOuts(k)
      && (m.Some? ==> Mappable(m.value) && 0 < MappedOuts(m.value))
  }

  // two graphs side by side, the left one's output o joined to the right one's input i
  function Join(l: Graph, o: nat, r: Graph, i: nat): Graph
    requires o < |l.outs| && i < |r.ins|
  {
    Graph(l.blocks + r.blocks,
          l.edges + r.edges + [Edge(l.outs[o], r.ins[i], [])],
          Without(l.outs, o) + r.outs,
          l.ins + Without(r.ins, i))
  }

  predicate Loopable(f: Graph, k: Graph, m: Option<Graph>, i: nat) {
    && 0 < |f.outs| && i < |f.ins| && 0 < |k.ins| && 0 < |k.outs|
    && (m.Some? ==> 0 < |m.value.ins| && 0 < |m.value.outs|)
  }

  function MonitorBlocks(m: Option<Graph>): seq<Leaf> { if m.Some? then m.value.blocks else [] }

  function MonitorEdges(m: Option<Graph>): seq<Edge> { if m.Some? then m.value.edges else [] }

  function LoopEdges(f: Graph, k: Graph, m: Option<Graph>, i: nat, held: Sample): seq<Edge>
    requires Loopable(f, k, m, i)
  {
    if m.Some? then
      [Edge(f.outs[0], m.value.ins[0], []), Edge(m.value.outs[0], k.ins[0], []), Edge(k.outs[0], f.ins[i], [held])]
    else
      [Edge(f.outs[0], k.ins[0], []), Edge(k.outs[0], f.ins[i], [held])]
  }

  // the forward graph f with its output looped through m, when there is one, and k back into its input i
  function Loop(f: Graph, k: Graph, m: Option<Graph>, i: nat, held: Sample): Graph
    requires Loopable(f, k, m, i)
  {
    Graph(f.blocks + k.blocks + MonitorBlocks(m),
          f.edges + k.edges + MonitorEdges(m) + LoopEdges(f, k, m, i, held),
          f.outs, Without(f.ins, i))
  }

  function Flatten(b: Block, base: nat): (g: Graph)
    requires WellFormed(b) && Mappable(b)
    ensures |g.blocks| == Size(b) && |g.ins| == NIn(b) && |g.outs| == MappedOuts(b)
  {
    match b
    case Unit(leaf) =>
      Graph([leaf], [], seq(leaf.nOut, (p: nat) => PortRef(base, p)), seq(leaf.nIn, (p: nat) => PortRef(base, p)))
    case Merge(l, o, r, i) => Join(Flatten(l, base), o, Flatten(r, base + Size(l)), i)
    case Feedback(f, k, i, m, held, _) =>
      var gm := if m.Some? then Some(Flatten(m.value, base + Size(f) + Size(k))) else None;
      Loop(Flatten(f, base), Flatten(k, base + Size(f)), gm, i, held)
  }

  ghost predicate Compiles(b: Block)
    ensures Compiles(b) ==> WellFormed(b) && MappedOuts(b) == NOut(b)
  {
    WellFormed(b) && TapFree(b) && (PortMapCompleteIffTapFree(b); Mappable(b))
  }

  lemma MappedAtMostDeclared(b: Block)
    requires WellFormed(b)
    ensures MappedOuts(b) <= NOut(b)
  {
    match b {
      case Unit(_) =>
      case Merge(l, _, r, _) => MappedAtMostDeclared(l); MappedAtMostDeclared(r);
      case Feedback(f, _, _, _, _, _) => MappedAtMostDeclared(f);
    }
  }

  // The port map names every output of the merged block exactly when no feedback merge in the nesting has a tap.
  lemma {:induction false} PortMapCompleteIffTapFree(b: Block)
    requires WellFormed(b)
    ensures Mappable(b) && MappedOuts(b) == NOut(b) <==> TapFree(b)
  {
    match b {
      case Unit(_) =>
      case Merge(l, _, r, _) =>
        PortMapCompleteIffTapFree(l); PortMapCompleteIffTapFree(r);
        MappedAtMostDeclared(l); MappedAtMostDeclared(r);
      case Feedback(f, k, _, m, _, _) =>
        PortMapCompleteIffTapFree(f); PortMapCompleteIffTapFree(k);
        MappedAtMostDeclared(f); MappedAtMostDeclared(k);
        if m.Some? { PortMapCompleteIffTapFree(m.value); MappedAtMostDeclared(m.value); }
    }
  }

  // The compilation as graphWithPortMaps() and addSubBlock() do it, port map by port map.
  method GraphWithPortMaps(b: Block, base: nat) returns (g: Graph)
    requires WellFormed(b) && Mappable(b)
    ensures g == Flatten(b, base)
    decreases b
  {
    hide Join, Loop;
    match b {
      case Unit(leaf) =>
        var outs := PortsOf(base, leaf.nOut);
        var ins := PortsOf(base, leaf.nIn);
        g := Graph([leaf], [], outs, ins);
      case Merge(l, o, r, i) =>
        var left := GraphWithPortMaps(l, base);
        var right := GraphWithPortMaps(r, base + Size(l));
        g := JoinGraphs(left, o, right, i);
      case Feedback(f, k, i, m, held, _) =>
        var forward := GraphWithPortMaps(f, base);
        var feedback := GraphWithPortMaps(k, base + Size(f));
        if m.Some? {
          var monitor := GraphWithPortMaps(m.value, base + Size(f) + Size(k));
          g := LoopGraphs(forward, feedback, Some(monitor), i, held);
        } else {
          g := LoopGraphs(forward, feedback, None, i, held);
        }
    }
  }

  method JoinGraphs(l: Graph, o: nat, r: Graph, i: nat) returns (g: Graph)
    requires o < |l.outs| && i < |r.ins|
    ensures g == Join(l, o, r, i)
  {
    var outs := Except(l.outs, o);
    for j := 0 to |r.outs|
      invariant outs == Without(l.outs, o) + r.outs[..j]
    {
      outs := outs + [r.outs[j]];
    }
    var ins := Except(r.ins, i);
    g := Graph(l.blocks + r.blocks, l.edges + r.edges + [Edge(l.outs[o], r.ins[i], [])], outs, l.ins + ins);
  }

  method LoopGraphs(f: Graph, k: Graph, m: Option<Graph>, i: nat, held: Sample) returns (g: Graph)
    requires Loopable(f, k, m, i)
    ensures g == Loop(f, k, m, i, held)
  {
    var ins := Except(f.ins, i);
    var blocks, edges := f.blocks + k.blocks, f.edges + k.edges;
    if m.Some? {
      blocks, edges := blocks + m.value.blocks, edges + m.value.edges;
      edges := edges + [Edge(f.outs[0], m.value.ins[0], []), Edge(m.value.outs[0], k.ins[0], [])];
    } else {
      edges := edges + [Edge(f.outs[0], k.ins[0], [])];
    }
    edges := edges + [Edge(k.outs[0], f.ins[i], [held])];
    g := Graph(blocks, edges, f.outs, ins);
  }

  method PortsOf(base: nat, n: nat) returns (ports: seq<PortRef>)
    ensures ports == seq(n, (p: nat) => PortRef(base, p))
  {
    ports := [];
    for p := 0 to n
      invariant ports == seq(p, (q: nat) => PortRef(base, q))
    {
      ports := ports + [PortRef(base, p)];
    }
  }

  method Except(ports: seq<PortRef>, skipped: nat) returns (kept: seq<PortRef>)
    requires skipped < |ports|
    ensures kept == Without(ports, skipped)
  {
    kept := [];
    for i := 0 to |ports|
      invariant kept == if i <= skipped then ports[..i] else ports[..skipped] + ports[skipped + 1..i]
    {
      if i != skipped {
        kept := kept + [ports[i]];
      }
    }
  }

  // --- one sample through the leaf graph --------------------------------------------------------------------------

  // the sample on every leaf port while one sample passes
  datatype Wires = Wires(inp: PortRef -> Sample, out: PortRef -> Sample)

  function Reads(leaf: Leaf, id: nat, w: Wires): seq<Sample> {
    seq(leaf.nIn, (p: nat) => w.inp(PortRef(id, p)))
  }

  ghost predicate LeafHolds(leaf: Leaf, id: nat, w: Wires) {
    var outs := leaf.step(leaf.state, Reads(leaf, id, w)).1;
    |outs| == leaf.nOut && forall p: nat :: p < leaf.nOut ==> w.out(PortRef(id, p)) == outs[p]
  }

  ghost predicate EdgeHolds(e: Edge, w: Wires) {
    w.inp(e.destination) == if e.waiting == [] then w.out(e.source) else e.waiting[0]
  }

  // The wiring satisfies the graph: no order of evaluation is assumed.
  ghost predicate Consistent(g: Graph, base: nat, ext: seq<Sample>, w: Wires) {
    && |ext| == |g.ins|
    && (forall i :: 0 <= i < |g.ins| ==> w.inp(g.ins[i]) == ext[i])
    && (forall e :: e in g.edges ==> EdgeHolds(e, w))
    && (forall k :: 0 <= k < |g.blocks| ==> LeafHolds(g.blocks[k], base + k, w))
  }

  function StepLeaf(leaf: Leaf, id: nat, w: Wires): Leaf {
    leaf.(state := leaf.step(leaf.state, Reads(leaf, id, w)).0)
  }

  function StepEdge(e: Edge, w: Wires): Edge {
    if e.waiting == [] then e else e.(waiting := [w.out(e.source)])
  }

  function StepBlocks(blocks: seq<Leaf>, base: nat, w: Wires): seq<Leaf> {
    seq(|blocks|, k requires 0 <= k < |blocks| => StepLeaf(blocks[k], base + k, w))
  }

  function StepEdges(edges: seq<Edge>, w: Wires): seq<Edge> {
    seq(|edges|, k requires 0 <= k < |edges| => StepEdge(edges[k], w))
  }

  // the graph after the sample: each leaf's next state, and on each primed edge the sample its source returned
  function StepGraph(g: Graph, base: nat, w: Wires): Graph {
    g.(blocks := StepBlocks(g.blocks, base, w), edges := StepEdges(g.edges, w))
  }

  lemma StepConcat(a: seq<Leaf>, b: seq<Leaf>, base: nat, w: Wires)
    ensures StepBlocks(a + b, base, w) == StepBlocks(a, base, w) + StepBlocks(b, base + |a|, w)
  {
  }

  lemma StepEdgesConcat(a: seq<Edge>, b: seq<Edge>, w: Wires)
    ensures StepEdges(a + b, w) == StepEdges(a, w) + StepEdges(b, w)
  {
  }

  lemma ConsistentPart(g: Graph, base: nat, ext: seq<Sample>, w: Wires, part: Graph, at: nat, sub: seq<Sample>)
    requires Consistent(g, base, ext, w)
    requires at + |part.blocks| <= |g.blocks| && part.blocks == g.blocks[at..at + |part.blocks|]
    requires forall e :: e in part.edges ==> e in g.edges
    requires |sub| == |part.ins| && forall i :: 0 <= i < |part.ins| ==> w.inp(part.ins[i]) == sub[i]
    ensures Consistent(part, base + at, sub, w)
  {
    forall k | 0 <= k < |part.blocks| ensures LeafHolds(part.blocks[k], base + at + k, w) {
      assert part.blocks[k] == g.blocks[at + k];
      assert LeafHolds(g.blocks[at + k], base + (at + k), w);
    }
  }

  // g carries outs on its external outputs and becomes g'
  ghost predicate Realises(g: Graph, base: nat, w: Wires, g': Graph, outs: seq<Sample>) {
    && StepGraph(g, base, w) == g'
    && |g.outs| == |outs|
    && forall i :: 0 <= i < |outs| ==> w.out(g.outs[i]) == outs[i]
  }

  // Any wiring that satisfies the leaf graph carries the samples the fused call returns on its external outputs, and
  // leaves the leaf graph of the block the fused call leaves.
  lemma {:induction false} FlatSampleEqualsFused(b: Block, base: nat, ext: seq<Sample>, w: Wires)
    requires Compiles(b) && |ext| == NIn(b)
    requires Consistent(Flatten(b, base), base, ext, w)
    ensures var (b', outs) := ProcessOne(b, ext); Realises(Flatten(b, base), base, w, Flatten(b', base), outs)
    decreases b
  {
    match b {
      case Unit(leaf) => FlatUnit(leaf, base, ext, w);
      case Merge(_, _, _, _) => FlatMerge(b, base, ext, w);
      case Feedback(_, _, _, _, _, _) => FlatFeedback(b, base, ext, w);
    }
  }

  // the inner calls of one fused call, and what each is handed
  function RightInputs(b: Block, ext: seq<Sample>): (r: seq<Sample>)
    requires b.Merge? && Compiles(b) && |ext| == NIn(b)
    ensures |r| == NIn(b.right)
  {
    JoinedInputs(NIn(b.left), b.inId, ext, ProcessOne(b.left, ext[..NIn(b.left)]).1[b.outId])
  }

  function ForwardInputs(b: Block, ext: seq<Sample>): (r: seq<Sample>)
    requires b.Feedback? && Compiles(b) && |ext| == NIn(b)
    ensures |r| == NIn(b.forward)
  {
    JoinedInputs(0, b.fwdIn, ext, b.held)
  }

  function FeedbackInputs(b: Block, ext: seq<Sample>): (r: seq<Sample>)
    requires b.Feedback? && Compiles(b) && |ext| == NIn(b)
    ensures |r| == NIn(b.feedback)
  {
    var fo := ProcessOne(b.forward, ForwardInputs(b, ext)).1;
    if b.monitor.Some? then ProcessOne(b.monitor.value, fo).1 else fo
  }

  lemma MergeCompiles(b: Block)
    requires b.Merge? && Compiles(b)
    ensures Compiles(b.left) && Compiles(b.right) && b.outId < NOut(b.left) && b.inId < NIn(b.right)
    ensures NIn(b) == NIn(b.left) + NIn(b.right) - 1
  {
  }

  lemma FeedbackCompiles(b: Block)
    requires b.Feedback? && Compiles(b)
    ensures Compiles(b.forward) && Compiles(b.feedback) && (b.monitor.Some? ==> Compiles(b.monitor.value))
    ensures b.fwdIn < NIn(b.forward) == NIn(b) + 1
    ensures NOut(b.forward) == NIn(b.feedback) == NOut(b.feedback) == 1
    ensures b.monitor.Some? ==> NIn(b.monitor.value) == NOut(b.monitor.value) == 1
  {
  }

  lemma FlattenMerge(b: Block, base: nat)
    requires b.Merge? && Compiles(b)
    ensures Flatten(b, base) == Join(Flatten(b.left, base), b.outId, Flatten(b.right, base + Size(b.left)), b.inId)
  {
  }

  lemma FlattenFeedback(b: Block, base: nat)
    requires b.Feedback? && Compiles(b)
    ensures Flatten(b, base) == FlatLoop(b, base)
  {
    hide Loop;
  }

  lemma MergeFlattens(b: Block, base: nat)
    requires WellFormed(b) && Mappable(b) && b.Merge?
    ensures WellFormed(b.left) && Mappable(b.left) && WellFormed(b.right) && Mappable(b.right)
    ensures b.outId < MappedOuts(b.left) && b.outId < NOut(b.left) && b.inId < NIn(b.right)
    ensures NIn(b) == NIn(b.left) + NIn(b.right) - 1
    ensures Flatten(b, base) == Join(Flatten(b.left, base), b.outId, Flatten(b.right, base + Size(b.left)), b.inId)
  {
    hide Join;
  }

  lemma MergeSteps(b: Block, ext: seq<Sample>)
    requires WellFormed(b) && b.Merge? && |ext| == NIn(b)
    requires WellFormed(b.left) && WellFormed(b.right) && NIn(b) == NIn(b.left) + NIn(b.right) - 1
    requires b.outId < NOut(b.left) && b.inId < NIn(b.right)
    ensures forall sample :: |JoinedInputs(NIn(b.left), b.inId, ext, sample)| == NIn(b.right)
    ensures var (l', lo) := ProcessOne(b.left, ext[..NIn(b.left)]);
            var (r', ro) := ProcessOne(b.right, JoinedInputs(NIn(b.left), b.inId, ext, lo[b.outId]));
            && |lo| == NOut(b.left) && |ro| == NOut(b.right) && Size(l') == Size(b.left)
            && ProcessOne(b, ext) == (Merge(l', b.outId, r', b.inId), Without(lo, b.outId) + ro)
  {
    hide Mappable, MappedOuts, TapFree;
  }

  // A merge hands its first inputs to the left block and the others to the right one, which gets the joined sample at
  // its own place among them. Its outputs are the left block's but the joined one, and then the right block's.
  lemma MergedCall(b: Block, ins: seq<Sample>, rightIns: seq<Sample>)
    requires WellFormed(b) && b.Merge? && |ins| == NIn(b) && |rightIns| == NIn(b.right)
    requires rightIns[b.inId] == ProcessOne(b.left, ins[..NIn(b.left)]).1[b.outId]
    requires forall j :: 0 <= j < b.inId ==> rightIns[j] == ins[NIn(b.left) + j]
    requires forall j :: b.inId < j < |rightIns| ==> rightIns[j] == ins[NIn(b.left) + j - 1]
    ensures var (l', lo) := ProcessOne(b.left, ins[..NIn(b.left)]);
            var (r', ro) := ProcessOne(b.right, rightIns);
            var (b', outs) := ProcessOne(b, ins);
            && b' == Merge(l', b.outId, r', b.inId) && |outs| == |lo| - 1 + |ro|
            && (forall j :: 0 <= j < |lo| - 1 ==> outs[j] == lo[if j < b.outId then j else j + 1])
            && (forall j :: 0 <= j < |ro| ==> outs[|lo| - 1 + j] == ro[j])
  {
    hide ProcessOne, WellFormed, NIn, NOut, Mappable, MappedOuts, TapFree, Size, JoinedInputs, Without;
    MergeIs(b);
    MergeSteps(b, ins);
    var lo := ProcessOne(b.left, ins[..NIn(b.left)]).1;
    JoinedIs(NIn(b.left), b.inId, ins, lo[b.outId], rightIns);
    OthersThen(lo, b.outId, ProcessOne(b.right, rightIns).1);
  }

  lemma MergeIs(b: Block)
    requires WellFormed(b) && b.Merge?
    ensures WellFormed(b.left) && WellFormed(b.right) && b.outId < NOut(b.left) && b.inId < NIn(b.right)
    ensures NIn(b) == NIn(b.left) + NIn(b.right) - 1
  {
  }

  lemma JoinedIs(n: nat, i: nat, ext: seq<Sample>, sample: Sample, joined: seq<Sample>)
    requires n + i <= |ext| && |joined| == |ext| - n + 1 && joined[i] == sample
    requires forall j :: 0 <= j < i ==> joined[j] == ext[n + j]
    requires forall j :: i < j < |joined| ==> joined[j] == ext[n + j - 1]
    ensures joined == JoinedInputs(n, i, ext, sample)
  {
  }

  lemma OthersThen(lo: seq<Sample>, o: nat, ro: seq<Sample>)
    requires o < |lo|
    ensures var outs := Without(lo, o) + ro;
            && |outs| == |lo| - 1 + |ro|
            && (forall j :: 0 <= j < |lo| - 1 ==> outs[j] == lo[if j < o then j else j + 1])
            && (forall j :: 0 <= j < |ro| ==> outs[|lo| - 1 + j] == ro[j])
  {
  }

  // A feedback merge hands the forward block its inputs with the held sample at the looped place. What it returns
  // passes the monitor, where there is one, and the feedback block, whose sample is held for the next call.
  lemma LoopedCall(b: Block, ins: seq<Sample>, forwardIns: seq<Sample>)
    requires WellFormed(b) && b.Feedback? && |ins| == NIn(b) && |forwardIns| == NIn(b.forward)
    requires forwardIns[b.fwdIn] == b.held
    requires forall j :: 0 <= j < b.fwdIn ==> forwardIns[j] == ins[j]
    requires forall j :: b.fwdIn < j < |forwardIns| ==> forwardIns[j] == ins[j - 1]
    ensures var (f', fo) := ProcessOne(b.forward, forwardIns);
            var monitored := if b.monitor.Some? then ProcessOne(b.monitor.value, fo).1 else fo;
            var (k', ko) := ProcessOne(b.feedback, monitored);
            var (b', outs) := ProcessOne(b, ins);
            && b' == Feedback(f', k', b.fwdIn, b'.monitor, ko[0], b.tap)
            && b'.monitor == (if b.monitor.Some? then Some(ProcessOne(b.monitor.value, fo).0) else None)
            && outs[0] == fo[0] && |outs| == if b.tap then 2 else 1
  {
    hide Mappable, MappedOuts, TapFree, Size, JoinedInputs;
    JoinedIs(0, b.fwdIn, ins, b.held, forwardIns);
  }

  lemma MergeParts(b: Block, base: nat, ext: seq<Sample>)
    requires b.Merge? && Compiles(b) && |ext| == NIn(b)
    ensures var (l', lo) := ProcessOne(b.left, ext[..NIn(b.left)]);
            var (r', ro) := ProcessOne(b.right, RightInputs(b, ext));
            var rbase := base + Size(b.left);
            && ProcessOne(b, ext) == (Merge(l', b.outId, r', b.inId), Without(lo, b.outId) + ro)
            && Flatten(b, base) == Join(Flatten(b.left, base), b.outId, Flatten(b.right, rbase), b.inId)
            && Flatten(ProcessOne(b, ext).0, base) == Join(Flatten(l', base), b.outId, Flatten(r', rbase), b.inId)
  {
    hide Join, Flatten, ProcessOne, WellFormed, Mappable, MappedOuts, TapFree, Size, Without, JoinedInputs, NIn, NOut;
    MergeCompiles(b);
    MergeFlattens(b, base);
    MergeSteps(b, ext);
    MergeFlattens(ProcessOne(b, ext).0, base);
  }

  lemma {:induction false} FlatMerge(b: Block, base: nat, ext: seq<Sample>, w: Wires)
    requires b.Merge? && Compiles(b) && |ext| == NIn(b)
    requires Consistent(Flatten(b, base), base, ext, w)
    ensures var (b', outs) := ProcessOne(b, ext); Realises(Flatten(b, base), base, w, Flatten(b', base), outs)
    decreases b, 0
  {
    hide Join, Consistent, Realises, Without, JoinedInputs, WellFormed, Mappable, TapFree, MappedOuts,
      Flatten, ProcessOne, Size;
    var l, o, r, i, rbase := b.left, b.outId, b.right, b.inId, base + Size(b.left);
    MergeCompiles(b);
    MergeParts(b, base, ext);
    var gl, gr, lext, rext := Flatten(l, base), Flatten(r, rbase), ext[..NIn(l)], RightInputs(b, ext);
    JoinLeft(gl, o, gr, i, base, ext, w, lext);
    FlatSampleEqualsFused(l, base, lext, w);
    var (l', lo) := ProcessOne(l, lext);
    JoinRight(gl, o, gr, i, base, ext, w, lo, rext);
    FlatSampleEqualsFused(r, rbase, rext, w);
    var (r', ro) := ProcessOne(r, rext);
    JoinRealises(gl, o, gr, i, base, w, Flatten(l', base), lo, Flatten(r', rbase), ro);
  }

  // the graphs of the parts of a feedback merge, looped
  function FlatLoop(b: Block, base: nat): Graph
    requires WellFormed(b) && Mappable(b) && b.Feedback?
  {
    Loop(Flatten(b.forward, base), Flatten(b.feedback, base + Size(b.forward)), FlatMonitor(b, base), b.fwdIn, b.held)
  }

  function FlatMonitor(b: Block, base: nat): (g: Option<Graph>)
    requires WellFormed(b) && Mappable(b) && b.Feedback?
  {
    if b.monitor.Some? then Some(Flatten(b.monitor.value, base + Size(b.forward) + Size(b.feedback))) else None
  }

  lemma FeedbackParts(b: Block, base: nat, ext: seq<Sample>)
    requires b.Feedback? && Compiles(b) && |ext| == NIn(b)
    ensures var (b', outs) := ProcessOne(b, ext);
            var (f', fo) := ProcessOne(b.forward, ForwardInputs(b, ext));
            var (k', ko) := ProcessOne(b.feedback, FeedbackInputs(b, ext));
            && outs == fo && b'.Feedback? && b'.forward == f' && b'.feedback == k'
            && b'.fwdIn == b.fwdIn && b'.held == ko[0]
            && (b.monitor.Some? ==> b'.monitor == Some(ProcessOne(b.monitor.value, fo).0))
            && (b.monitor.None? ==> b'.monitor == None)
            && Flatten(b, base) == FlatLoop(b, base) && Flatten(b', base) == FlatLoop(b', base)
  {
    hide Loop;
    var fo := ProcessOne(b.forward, ForwardInputs(b, ext)).1;
    assert fo + [] == fo;
  }

  lemma {:induction false} FlatFeedback(b: Block, base: nat, ext: seq<Sample>, w: Wires)
    requires b.Feedback? && Compiles(b) && |ext| == NIn(b)
    requires Consistent(Flatten(b, base), base, ext, w)
    ensures var (b', outs) := ProcessOne(b, ext); Realises(Flatten(b, base), base, w, Flatten(b', base), outs)
    decreases b, 0
  {
    hide Loop, Consistent, Realises, JoinedInputs, WellFormed, Mappable, TapFree, Flatten, ProcessOne, Size;
    var f, k, m, i, held := b.forward, b.feedback, b.monitor, b.fwdIn, b.held;
    FeedbackCompiles(b);
    FeedbackParts(b, base, ext);
    var fext, mo, b' := ForwardInputs(b, ext), FeedbackInputs(b, ext), ProcessOne(b, ext).0;
    var kbase := base + Size(f);
    var gf, gk, gm := Flatten(f, base), Flatten(k, kbase), FlatMonitor(b, base);
    LoopForward(gf, gk, gm, i, held, base, ext, w, fext);
    FlatSampleEqualsFused(f, base, fext, w);
    var fo := ProcessOne(f, fext).1;
    if m.Some? {
      LoopMonitor(gf, gk, gm, i, held, base, ext, w, fo);
      FlatSampleEqualsFused(m.value, kbase + Size(k), fo, w);
    }
    LoopFeedback(gf, gk, gm, i, held, base, ext, w, fo, mo);
    FlatSampleEqualsFused(k, kbase, mo, w);
    LoopRealises(gf, gk, gm, i, held, base, w, Flatten(b'.forward, base), fo, Flatten(b'.feedback, kbase),
                 ProcessOne(k, mo).1, FlatMonitor(b', base), mo);
  }

  lemma FlatUnit(leaf: Leaf, base: nat, ext: seq<Sample>, w: Wires)
    requires leaf.Fits() && |ext| == leaf.nIn
    requires Consistent(Flatten(Unit(leaf), base), base, ext, w)
    ensures var (b', outs) := ProcessOne(Unit(leaf), ext);
            Realises(Flatten(Unit(leaf), base), base, w, Flatten(b', base), outs)
  {
    var g := Flatten(Unit(leaf), base);
    assert LeafHolds(g.blocks[0], base + 0, w);
    assert Reads(leaf, base, w) == ext by {
      forall p: nat | p < leaf.nIn ensures w.inp(PortRef(base, p)) == ext[p] {
        assert g.ins[p] == PortRef(base, p);
      }
    }
  }

  lemma JoinLeft(l: Graph, o: nat, r: Graph, i: nat, base: nat, ext: seq<Sample>, w: Wires, lext: seq<Sample>)
    requires o < |l.outs| && i < |r.ins|
    requires Consistent(Join(l, o, r, i), base, ext, w)
    requires |l.ins| <= |ext| && lext == ext[..|l.ins|]
    ensures Consistent(l, base, lext, w)
  {
    var g := Join(l, o, r, i);
    assert forall j :: 0 <= j < |l.ins| ==> g.ins[j] == l.ins[j];
    ConsistentPart(g, base, ext, w, l, 0, lext);
  }

  lemma JoinRight(l: Graph, o: nat, r: Graph, i: nat, base: nat, ext: seq<Sample>, w: Wires, lo: seq<Sample>,
                  rext: seq<Sample>)
    requires o < |l.outs| == |lo| && i < |r.ins|
    requires Consistent(Join(l, o, r, i), base, ext, w)
    requires forall j :: 0 <= j < |lo| ==> w.out(l.outs[j]) == lo[j]
    requires |l.ins| + i <= |ext| && rext == JoinedInputs(|l.ins|, i, ext, lo[o])
    ensures Consistent(r, base + |l.blocks|, rext, w)
  {
    var g, n := Join(l, o, r, i), |l.ins|;
    var joint := Edge(l.outs[o], r.ins[i], []);
    assert joint in g.edges && EdgeHolds(joint, w);
    forall j | 0 <= j < |r.ins| ensures w.inp(r.ins[j]) == rext[j] {
      if j < i {
        assert g.ins[n + j] == r.ins[j];
      } else if j > i {
        assert g.ins[n + j - 1] == r.ins[j];
      }
    }
    ConsistentPart(g, base, ext, w, r, |l.blocks|, rext);
  }

  lemma JoinRealises(l: Graph, o: nat, r: Graph, i: nat, base: nat, w: Wires,
                     l': Graph, lo: seq<Sample>, r': Graph, ro: seq<Sample>)
    requires o < |l.outs| && i < |r.ins|
    requires Realises(l, base, w, l', lo) && Realises(r, base + |l.blocks|, w, r', ro)
    ensures Realises(Join(l, o, r, i), base, w, Join(l', o, r', i), Without(lo, o) + ro)
  {
    var joint := Edge(l.outs[o], r.ins[i], []);
    StepConcat(l.blocks, r.blocks, base, w);
    StepEdgesConcat(l.edges, r.edges, w);
    StepEdgesConcat(l.edges + r.edges, [joint], w);
    assert StepEdges([joint], w) == [joint];
  }

  lemma LoopForward(f: Graph, k: Graph, m: Option<Graph>, i: nat, held: Sample, base: nat, ext: seq<Sample>, w: Wires,
                    fext: seq<Sample>)
    requires Loopable(f, k, m, i) && Consistent(Loop(f, k, m, i, held), base, ext, w)
    requires i <= |ext| && fext == JoinedInputs(0, i, ext, held)
    ensures Consistent(f, base, fext, w)
  {
    var g := Loop(f, k, m, i, held);
    var back := Edge(k.outs[0], f.ins[i], [held]);
    assert g.edges[|g.edges| - 1] == back && EdgeHolds(back, w);
    forall j | 0 <= j < |f.ins| ensures w.inp(f.ins[j]) == fext[j] {
      if j < i {
        assert g.ins[j] == f.ins[j];
      } else if j > i {
        assert g.ins[j - 1] == f.ins[j];
      }
    }
    ConsistentPart(g, base, ext, w, f, 0, fext);
  }

  lemma LoopMonitor(f: Graph, k: Graph, m: Option<Graph>, i: nat, held: Sample, base: nat, ext: seq<Sample>, w: Wires,
                    fo: seq<Sample>)
    requires Loopable(f, k, m, i) && m.Some? && Consistent(Loop(f, k, m, i, held), base, ext, w)
    requires |m.value.ins| == |f.outs| == |fo| == 1 && w.out(f.outs[0]) == fo[0]
    ensures Consistent(m.value, base + |f.blocks| + |k.blocks|, fo, w)
  {
    var g := Loop(f, k, m, i, held);
    var toMonitor := Edge(f.outs[0], m.value.ins[0], []);
    assert g.edges[|g.edges| - 3] == toMonitor && EdgeHolds(toMonitor, w);
    ConsistentPart(g, base, ext, w, m.value, |f.blocks| + |k.blocks|, fo);
  }

  lemma LoopFeedback(f: Graph, k: Graph, m: Option<Graph>, i: nat, held: Sample, base: nat, ext: seq<Sample>, w: Wires,
                     fo: seq<Sample>, mo: seq<Sample>)
    requires Loopable(f, k, m, i) && Consistent(Loop(f, k, m, i, held), base, ext, w)
    requires |k.ins| == |f.outs| == |fo| == |mo| == 1 && w.out(f.outs[0]) == fo[0]
    requires if m.Some? then |m.value.outs| == 1 && w.out(m.value.outs[0]) == mo[0] else mo == fo
    ensures Consistent(k, base + |f.blocks|, mo, w)
  {
    var g := Loop(f, k, m, i, held);
    var toFeedback := Edge(if m.Some? then m.value.outs[0] else f.outs[0], k.ins[0], []);
    assert g.edges[|g.edges| - 2] == toFeedback && EdgeHolds(toFeedback, w);
    ConsistentPart(g, base, ext, w, k, |f.blocks|, mo);
  }

  lemma LoopRealises(f: Graph, k: Graph, m: Option<Graph>, i: nat, held: Sample, base: nat, w: Wires,
                     f': Graph, fo: seq<Sample>, k': Graph, ko: seq<Sample>, m': Option<Graph>, mo: seq<Sample>)
    requires Loopable(f, k, m, i) && |ko| == 1
    requires Realises(f, base, w, f', fo) && Realises(k, base + |f.blocks|, w, k', ko)
    requires m.Some? == m'.Some?
    requires m.Some? ==> Realises(m.value, base + |f.blocks| + |k.blocks|, w, m'.value, mo)
    ensures Loopable(f', k', m', i)
    ensures Realises(Loop(f, k, m, i, held), base, w, Loop(f', k', m', i, ko[0]), fo)
  {
    StepConcat(f.blocks, k.blocks, base, w);
    StepConcat(f.blocks + k.blocks, MonitorBlocks(m), base, w);
    StepEdgesConcat(f.edges, k.edges, w);
    StepEdgesConcat(f.edges + k.edges, MonitorEdges(m), w);
    StepEdgesConcat(f.edges + k.edges + MonitorEdges(m), LoopEdges(f, k, m, i, held), w);
    assert StepEdges(LoopEdges(f, k, m, i, held), w) == LoopEdges(f', k', m', i, ko[0]);
  }

  // --- every leaf port has its place ------------------------------------------------------------------------------

  predicate InPort(g: Graph, base: nat, r: PortRef) {
    base <= r.block < base + |g.blocks| && r.port < g.blocks[r.block - base].nIn
  }

  predicate OutPort(g: Graph, base: nat, r: PortRef) {
    base <= r.block < base + |g.blocks| && r.port < g.blocks[r.block - base].nOut
  }

  function Destinations(edges: seq<Edge>): seq<PortRef> {
    seq(|edges|, i requires 0 <= i < |edges| => edges[i].destination)
  }

  function Sources(edges: seq<Edge>): seq<PortRef> {
    seq(|edges|, i requires 0 <= i < |edges| => edges[i].source)
  }

  // how often an edge or the external map names a leaf input port, and a leaf output port
  function Fed(g: Graph): multiset<PortRef> { multiset(Destinations(g.edges)) + multiset(g.ins) }

  function Used(g: Graph): multiset<PortRef> { multiset(Sources(g.edges)) + multiset(g.outs) }

  ghost predicate InputsOwned(g: Graph, base: nat) {
    forall r: PortRef :: Fed(g)[r] == if InPort(g, base, r) then 1 else 0
  }

  ghost predicate OutputsUsed(g: Graph, base: nat) {
    forall r: PortRef :: Used(g)[r] > 0 <==> OutPort(g, base, r)
  }

  ghost predicate OutputsOwned(g: Graph, base: nat) {
    forall r: PortRef :: Used(g)[r] == if OutPort(g, base, r) then 1 else 0
  }

  lemma {:induction false} PortsOfLeaf(base: nat, n: nat, r: PortRef)
    ensures multiset(seq(n, (p: nat) => PortRef(base, p)))[r] == if r.block == base && r.port < n then 1 else 0
  {
    if n > 0 {
      PortsOfLeaf(base, n - 1, r);
      assert seq(n, (p: nat) => PortRef(base, p)) == seq(n - 1, (p: nat) => PortRef(base, p)) + [PortRef(base, n - 1)];
    }
  }

  lemma WithoutOne<T>(s: seq<T>, i: nat)
    requires i < |s|
    ensures multiset(Without(s, i)) + multiset{s[i]} == multiset(s)
  {
    assert s == s[..i] + [s[i]] + s[i+1..];
  }

  lemma EdgeLists(a: seq<Edge>, b: seq<Edge>)
    ensures Destinations(a + b) == Destinations(a) + Destinations(b)
    ensures Sources(a + b) == Sources(a) + Sources(b)
  {
  }

  lemma JoinPorts(l: Graph, o: nat, r: Graph, i: nat)
    requires o < |l.outs| && i < |r.ins|
    ensures Fed(Join(l, o, r, i)) == Fed(l) + Fed(r)
    ensures Used(Join(l, o, r, i)) == Used(l) + Used(r)
  {
    var joint := Edge(l.outs[o], r.ins[i], []);
    EdgeLists(l.edges, r.edges);
    EdgeLists(l.edges + r.edges, [joint]);
    WithoutOne(l.outs, o);
    WithoutOne(r.ins, i);
    assert Destinations([joint]) == [r.ins[i]] && Sources([joint]) == [l.outs[o]];
  }

  lemma LoopFed(f: Graph, k: Graph, m: Option<Graph>, i: nat, held: Sample)
    requires Loopable(f, k, m, i) && |f.outs| == |k.ins| == |k.outs| == 1
    requires m.Some? ==> |m.value.ins| == |m.value.outs| == 1
    ensures Fed(Loop(f, k, m, i, held)) == Fed(f) + Fed(k) + if m.Some? then Fed(m.value) else multiset{}
  {
    EdgeLists(f.edges, k.edges);
    EdgeLists(f.edges + k.edges, MonitorEdges(m));
    EdgeLists(f.edges + k.edges + MonitorEdges(m), LoopEdges(f, k, m, i, held));
    WithoutOne(f.ins, i);
    LoopEdgePorts(f, k, m, i, held);
    hide Without, Destinations, Sources, LoopEdges;
  }

  // the looped output is used by its external slot and by the edge that starts the loop
  lemma LoopUsed(f: Graph, k: Graph, m: Option<Graph>, i: nat, held: Sample)
    requires Loopable(f, k, m, i) && |f.outs| == |k.ins| == |k.outs| == 1
    requires m.Some? ==> |m.value.ins| == |m.value.outs| == 1
    ensures Used(Loop(f, k, m, i, held))
         == Used(f) + Used(k) + multiset{f.outs[0]} + if m.Some? then Used(m.value) else multiset{}
  {
    EdgeLists(f.edges, k.edges);
    EdgeLists(f.edges + k.edges, MonitorEdges(m));
    EdgeLists(f.edges + k.edges + MonitorEdges(m), LoopEdges(f, k, m, i, held));
    LoopEdgePorts(f, k, m, i, held);
    hide Without, Destinations, Sources, LoopEdges;
  }

  lemma LoopEdgePorts(f: Graph, k: Graph, m: Option<Graph>, i: nat, held: Sample)
    requires Loopable(f, k, m, i) && |f.outs| == |k.ins| == |k.outs| == 1
    requires m.Some? ==> |m.value.ins| == |m.value.outs| == 1
    ensures Destinations(LoopEdges(f, k, m, i, held)) == (if m.Some? then m.value.ins else []) + k.ins + [f.ins[i]]
    ensures Sources(LoopEdges(f, k, m, i, held)) == [f.outs[0]] + (if m.Some? then m.value.outs else []) + k.outs
  {
  }

  lemma JoinPlaced(l: Graph, o: nat, r: Graph, i: nat, base: nat)
    requires o < |l.outs| && i < |r.ins|
    requires InputsOwned(l, base) && OutputsUsed(l, base)
    requires InputsOwned(r, base + |l.blocks|) && OutputsUsed(r, base + |l.blocks|)
    ensures InputsOwned(Join(l, o, r, i), base) && OutputsUsed(Join(l, o, r, i), base)
  {
    hide Fed, Used;
    JoinPorts(l, o, r, i);
  }

  lemma LoopPlaced(f: Graph, k: Graph, m: Option<Graph>, i: nat, held: Sample, base: nat)
    requires Loopable(f, k, m, i) && |f.outs| == |k.ins| == |k.outs| == 1
    requires m.Some? ==> |m.value.ins| == |m.value.outs| == 1
    requires InputsOwned(f, base) && OutputsUsed(f, base)
    requires InputsOwned(k, base + |f.blocks|) && OutputsUsed(k, base + |f.blocks|)
    requires m.Some? ==> InputsOwned(m.value, base + |f.blocks| + |k.blocks|)
    requires m.Some? ==> OutputsUsed(m.value, base + |f.blocks| + |k.blocks|)
    ensures InputsOwned(Loop(f, k, m, i, held), base) && OutputsUsed(Loop(f, k, m, i, held), base)
  {
    hide Loop, LoopEdges, Fed, Used, InPort, OutPort;
    LoopFed(f, k, m, i, held);
    LoopUsed(f, k, m, i, held);
    var mbase := base + |f.blocks| + |k.blocks|;
    assert OutPort(f, base, f.outs[0]) by { UsedByMap(f); }
    forall r: PortRef {:trigger InPort(f, base, r)} {:trigger OutPort(f, base, r)}
      ensures Fed(Loop(f, k, m, i, held))[r] == if InPort(Loop(f, k, m, i, held), base, r) then 1 else 0
      ensures Used(Loop(f, k, m, i, held))[r] > 0 <==> OutPort(Loop(f, k, m, i, held), base, r)
    {
      LoopPortSplit(f, k, m, i, held, base, r);
    }
  }

  lemma UsedByMap(g: Graph)
    ensures forall j :: 0 <= j < |g.outs| ==> Used(g)[g.outs[j]] > 0
  {
  }

  lemma LoopPortSplit(f: Graph, k: Graph, m: Option<Graph>, i: nat, held: Sample, base: nat, r: PortRef)
    requires Loopable(f, k, m, i)
    ensures var g, kbase, mbase := Loop(f, k, m, i, held), base + |f.blocks|, base + |f.blocks| + |k.blocks|;
            && (InPort(g, base, r)
                <==> InPort(f, base, r) || InPort(k, kbase, r) || (m.Some? && InPort(m.value, mbase, r)))
            && (OutPort(g, base, r)
                <==> OutPort(f, base, r) || OutPort(k, kbase, r) || (m.Some? && OutPort(m.value, mbase, r)))
            && (InPort(f, base, r) || OutPort(f, base, r) ==> r.block < kbase)
            && (InPort(k, kbase, r) || OutPort(k, kbase, r) ==> kbase <= r.block < mbase)
            && (m.Some? && (InPort(m.value, mbase, r) || OutPort(m.value, mbase, r)) ==> mbase <= r.block)
  {
  }

  lemma UnitPlaced(leaf: Leaf, base: nat)
    requires Compiles(Unit(leaf))
    ensures InputsOwned(Flatten(Unit(leaf), base), base)
    ensures OutputsUsed(Flatten(Unit(leaf), base), base) && OutputsOwned(Flatten(Unit(leaf), base), base)
  {
    forall r: PortRef
      ensures Fed(Flatten(Unit(leaf), base))[r] == if InPort(Flatten(Unit(leaf), base), base, r) then 1 else 0
      ensures Used(Flatten(Unit(leaf), base))[r] == if OutPort(Flatten(Unit(leaf), base), base, r) then 1 else 0
    {
      PortsOfLeaf(base, leaf.nIn, r);
      PortsOfLeaf(base, leaf.nOut, r);
    }
  }

  // Each leaf input port is the end of exactly one edge or the target of exactly one external input, and each leaf
  // output port has a reader.
  lemma {:induction false} PortsPlaced(b: Block, base: nat)
    requires Compiles(b)
    ensures InputsOwned(Flatten(b, base), base) && OutputsUsed(Flatten(b, base), base)
  {
    hide WellFormed, Mappable, TapFree, MappedOuts, Join, Loop, InputsOwned, OutputsUsed, Flatten;
    match b {
      case Unit(leaf) => UnitPlaced(leaf, base);
      case Merge(l, o, r, i) =>
        FlattenMerge(b, base);
        MergeCompiles(b);
        PortsPlaced(l, base);
        PortsPlaced(r, base + Size(l));
        JoinPlaced(Flatten(l, base), o, Flatten(r, base + Size(l)), i, base);
      case Feedback(f, k, i, m, held, _) =>
        FlattenFeedback(b, base);
        FeedbackCompiles(b);
        PortsPlaced(f, base);
        PortsPlaced(k, base + Size(f));
        if m.Some? {
          PortsPlaced(m.value, base + Size(f) + Size(k));
        }
        LoopPlaced(Flatten(f, base), Flatten(k, base + Size(f)), FlatMonitor(b, base), i, held, base);
    }
  }

  predicate MergeOnly(b: Block) {
    match b
    case Unit(_) => true
    case Merge(l, _, r, _) => MergeOnly(l) && MergeOnly(r)
    case Feedback(_, _, _, _, _, _) => false
  }

  lemma JoinOwned(l: Graph, o: nat, r: Graph, i: nat, base: nat)
    requires o < |l.outs| && i < |r.ins|
    requires OutputsUsed(l, base) && OutputsUsed(r, base + |l.blocks|)
    ensures OutputsOwned(Join(l, o, r, i), base) <==> OutputsOwned(l, base) && OutputsOwned(r, base + |l.blocks|)
  {
    hide Fed, Used;
    JoinPorts(l, o, r, i);
    var g := Join(l, o, r, i);
    forall p: PortRef {:trigger OutPort(l, base, p)} {:trigger OutPort(r, base + |l.blocks|, p)}
      ensures Used(g)[p] == Used(l)[p] + Used(r)[p]
      ensures OutPort(g, base, p) <==> OutPort(l, base, p) || OutPort(r, base + |l.blocks|, p)
      ensures OutPort(l, base, p) ==> Used(r)[p] == 0
      ensures OutPort(r, base + |l.blocks|, p) ==> Used(l)[p] == 0
    {
    }
  }

  lemma LoopedTwice(f: Graph, k: Graph, m: Option<Graph>, i: nat, held: Sample, base: nat)
    requires Loopable(f, k, m, i) && |f.outs| == |k.ins| == |k.outs| == 1
    requires m.Some? ==> |m.value.ins| == |m.value.outs| == 1
    ensures !OutputsOwned(Loop(f, k, m, i, held), base)
  {
    UsedByMap(f);
    LoopUsed(f, k, m, i, held);
    hide Fed, Used, Loop, LoopEdges;
    assert Used(Loop(f, k, m, i, held))[f.outs[0]] >= 2;
  }

  // Every leaf output port ends on exactly one edge or one external output exactly when the nesting holds no feedback
  // merge: the output a feedback merge loops is an external output as well.
  lemma {:induction false} OutputsOwnedIffMergeOnly(b: Block, base: nat)
    requires Compiles(b)
    ensures OutputsOwned(Flatten(b, base), base) <==> MergeOnly(b)
  {
    hide WellFormed, Mappable, TapFree, MappedOuts, Join, Loop, InputsOwned, OutputsUsed, OutputsOwned, Flatten;
    match b {
      case Unit(leaf) => UnitPlaced(leaf, base);
      case Merge(l, o, r, i) =>
        FlattenMerge(b, base);
        MergeCompiles(b);
        PortsPlaced(l, base);
        PortsPlaced(r, base + Size(l));
        OutputsOwnedIffMergeOnly(l, base);
        OutputsOwnedIffMergeOnly(r, base + Size(l));
        JoinOwned(Flatten(l, base), o, Flatten(r, base + Size(l)), i, base);
      case Feedback(f, k, i, m, held, _) =>
        FlattenFeedback(b, base);
        FeedbackCompiles(b);
        LoopedTwice(Flatten(f, base), Flatten(k, base + Size(f)), FlatMonitor(b, base), i, held, base);
    }
  }

  // --- a wiring exists --------------------------------------------------------------------------------------------

  function Paste(a: Wires, mid: nat, b: Wires): Wires {
    Wires((r: PortRef) => if r.block < mid then a.inp(r) else b.inp(r),
          (r: PortRef) => if r.block < mid then a.out(r) else b.out(r))
  }

  function UnitWiring(leaf: Leaf, base: nat, ext: seq<Sample>): Wires {
    var outs := leaf.step(leaf.state, ext).1;
    Wires((r: PortRef) => if r.block == base && r.port < |ext| then ext[r.port] else Silence,
          (r: PortRef) => if r.block == base && r.port < |outs| then outs[r.port] else Silence)
  }

  // the samples on the leaf ports during one fused call
  function Wiring(b: Block, base: nat, ext: seq<Sample>): Wires
    requires Compiles(b) && |ext| == NIn(b)
  {
    match b
    case Unit(leaf) => UnitWiring(leaf, base, ext)
    case Merge(l, o, r, i) =>
      Paste(Wiring(l, base, ext[..NIn(l)]), base + Size(l), Wiring(r, base + Size(l), RightInputs(b, ext)))
    case Feedback(f, k, i, m, _, _) =>
      var mid := base + Size(f) + Size(k);
      var wf := Wiring(f, base, ForwardInputs(b, ext));
      var wk := Wiring(k, base + Size(f), FeedbackInputs(b, ext));
      var wm := if m.Some? then Wiring(m.value, mid, ProcessOne(f, ForwardInputs(b, ext)).1) else wk;
      Paste(wf, base + Size(f), Paste(wk, mid, wm))
  }

  ghost predicate SameWithin(g: Graph, base: nat, w: Wires, w': Wires) {
    forall r: PortRef :: base <= r.block < base + |g.blocks| ==> w.inp(r) == w'.inp(r) && w.out(r) == w'.out(r)
  }

  lemma RefsInside(g: Graph, base: nat)
    requires InputsOwned(g, base) && OutputsUsed(g, base)
    ensures forall r :: r in g.ins ==> InPort(g, base, r)
    ensures forall r :: r in g.outs ==> OutPort(g, base, r)
    ensures forall e :: e in g.edges ==> InPort(g, base, e.destination) && OutPort(g, base, e.source)
  {
    forall e | e in g.edges ensures InPort(g, base, e.destination) && OutPort(g, base, e.source) {
      var j :| 0 <= j < |g.edges| && g.edges[j] == e;
      assert Destinations(g.edges)[j] == e.destination && Sources(g.edges)[j] == e.source;
      assert Fed(g)[e.destination] > 0 && Used(g)[e.source] > 0;
    }
    forall r | r in g.ins ensures InPort(g, base, r) { assert Fed(g)[r] > 0; }
    forall r | r in g.outs ensures OutPort(g, base, r) { assert Used(g)[r] > 0; }
  }

  lemma ConsistentWithin(g: Graph, base: nat, ext: seq<Sample>, w: Wires, w': Wires)
    requires InputsOwned(g, base) && OutputsUsed(g, base)
    requires Consistent(g, base, ext, w) && SameWithin(g, base, w, w')
    ensures Consistent(g, base, ext, w')
  {
    RefsInside(g, base);
    forall i | 0 <= i < |g.ins| ensures w'.inp(g.ins[i]) == ext[i] { assert g.ins[i] in g.ins; }
    forall e | e in g.edges ensures EdgeHolds(e, w') { assert EdgeHolds(e, w); }
    forall k | 0 <= k < |g.blocks| ensures LeafHolds(g.blocks[k], base + k, w') {
      assert LeafHolds(g.blocks[k], base + k, w);
      assert Reads(g.blocks[k], base + k, w) == Reads(g.blocks[k], base + k, w');
    }
  }

  lemma JoinConsistent(l: Graph, o: nat, r: Graph, i: nat, base: nat, ext: seq<Sample>, w: Wires, lo: seq<Sample>,
                       lext: seq<Sample>, rext: seq<Sample>)
    requires o < |l.outs| == |lo| && i < |r.ins| && |ext| == |l.ins| + |r.ins| - 1
    requires lext == ext[..|l.ins|] && rext == JoinedInputs(|l.ins|, i, ext, lo[o])
    requires Consistent(l, base, lext, w) && Consistent(r, base + |l.blocks|, rext, w)
    requires w.out(l.outs[o]) == lo[o]
    ensures Consistent(Join(l, o, r, i), base, ext, w)
  {
    var g := Join(l, o, r, i);
    forall j | 0 <= j < |g.ins| ensures w.inp(g.ins[j]) == ext[j] {
      if j < |l.ins| {
        assert g.ins[j] == l.ins[j];
      } else {
        var q := j - |l.ins|;
        assert g.ins[j] == r.ins[if q < i then q else q + 1];
      }
    }
    forall k | 0 <= k < |g.blocks| ensures LeafHolds(g.blocks[k], base + k, w) {
      if k >= |l.blocks| {
        assert LeafHolds(r.blocks[k - |l.blocks|], base + |l.blocks| + (k - |l.blocks|), w);
      }
    }
  }

  lemma LoopConsistent(f: Graph, k: Graph, m: Option<Graph>, i: nat, held: Sample, base: nat, ext: seq<Sample>,
                       w: Wires, fo: seq<Sample>, fext: seq<Sample>, mo: seq<Sample>)
    requires Loopable(f, k, m, i) && |ext| == |f.ins| - 1 && fext == JoinedInputs(0, i, ext, held)
    requires |f.outs| == |k.ins| == |fo| == |mo| == 1 && w.out(f.outs[0]) == fo[0]
    requires Consistent(f, base, fext, w) && Consistent(k, base + |f.blocks|, mo, w)
    requires if m.Some? then |m.value.ins| == |m.value.outs| == 1
               && Consistent(m.value, base + |f.blocks| + |k.blocks|, fo, w) && w.out(m.value.outs[0]) == mo[0]
             else mo == fo
    ensures Consistent(Loop(f, k, m, i, held), base, ext, w)
  {
    var g := Loop(f, k, m, i, held);
    forall j | 0 <= j < |g.ins| ensures w.inp(g.ins[j]) == ext[j] {
      assert g.ins[j] == f.ins[if j < i then j else j + 1];
    }
    forall e | e in LoopEdges(f, k, m, i, held) ensures EdgeHolds(e, w) {
    }
    forall q | 0 <= q < |g.blocks| ensures LeafHolds(g.blocks[q], base + q, w) {
      var nf, nk := |f.blocks|, |k.blocks|;
      if nf <= q < nf + nk {
        assert LeafHolds(k.blocks[q - nf], base + nf + (q - nf), w);
      } else if nf + nk <= q {
        assert LeafHolds(m.value.blocks[q - nf - nk], base + nf + nk + (q - nf - nk), w);
      }
    }
  }

  // The leaf graph can carry the sample: the fused call's own wiring satisfies it.
  lemma {:induction false} WiringConsistent(b: Block, base: nat, ext: seq<Sample>)
    requires Compiles(b) && |ext| == NIn(b)
    ensures Consistent(Flatten(b, base), base, ext, Wiring(b, base, ext))
    decreases b
  {
    match b {
      case Unit(leaf) => UnitConsistent(leaf, base, ext);
      case Merge(_, _, _, _) => MergeConsistent(b, base, ext);
      case Feedback(_, _, _, _, _, _) => FeedbackConsistent(b, base, ext);
    }
  }

  lemma UnitConsistent(leaf: Leaf, base: nat, ext: seq<Sample>)
    requires Compiles(Unit(leaf)) && |ext| == leaf.nIn
    ensures Consistent(Flatten(Unit(leaf), base), base, ext, UnitWiring(leaf, base, ext))
  {
    assert Reads(leaf, base, UnitWiring(leaf, base, ext)) == ext;
  }

  lemma MergeWiring(b: Block, base: nat, ext: seq<Sample>)
    requires b.Merge? && Compiles(b) && |ext| == NIn(b)
    ensures Wiring(b, base, ext) == Paste(Wiring(b.left, base, ext[..NIn(b.left)]), base + Size(b.left),
                                          Wiring(b.right, base + Size(b.left), RightInputs(b, ext)))
    ensures RightInputs(b, ext)
         == JoinedInputs(NIn(b.left), b.inId, ext, ProcessOne(b.left, ext[..NIn(b.left)]).1[b.outId])
  {
    hide Paste;
  }

  lemma {:induction false} MergeConsistent(b: Block, base: nat, ext: seq<Sample>)
    requires b.Merge? && Compiles(b) && |ext| == NIn(b)
    ensures Consistent(Flatten(b, base), base, ext, Wiring(b, base, ext))
    decreases b, 0
  {
    hide Join, Consistent, WellFormed, Mappable, TapFree, MappedOuts, InputsOwned, OutputsUsed, Flatten, ProcessOne,
      Wiring, RightInputs, JoinedInputs, Size, NIn, NOut;
    MergeCompiles(b);
    FlattenMerge(b, base);
    MergeWiring(b, base, ext);
    var rbase, lext, rext := base + Size(b.left), ext[..NIn(b.left)], RightInputs(b, ext);
    var w, lo := Wiring(b, base, ext), ProcessOne(b.left, lext).1;
    WiringConsistent(b.left, base, lext);
    WiringConsistent(b.right, rbase, rext);
    PortsPlaced(b.left, base);
    PortsPlaced(b.right, rbase);
    var gl, gr := Flatten(b.left, base), Flatten(b.right, rbase);
    ConsistentWithin(gl, base, lext, Wiring(b.left, base, lext), w);
    ConsistentWithin(gr, rbase, rext, Wiring(b.right, rbase, rext), w);
    FlatSampleEqualsFused(b.left, base, lext, w);
    JoinConsistent(gl, b.outId, gr, b.inId, base, ext, w, lo, lext, rext);
  }

  // the middle of the monitor's wires, when there is one
  function MonitorWiring(b: Block, base: nat, ext: seq<Sample>): Wires
    requires b.Feedback? && Compiles(b) && |ext| == NIn(b)
  {
    var fo := ProcessOne(b.forward, ForwardInputs(b, ext)).1;
    if b.monitor.Some? then Wiring(b.monitor.value, base + Size(b.forward) + Size(b.feedback), fo)
    else Wiring(b.feedback, base + Size(b.forward), FeedbackInputs(b, ext))
  }

  lemma FeedbackWiring(b: Block, base: nat, ext: seq<Sample>)
    requires b.Feedback? && Compiles(b) && |ext| == NIn(b)
    ensures Wiring(b, base, ext)
         == Paste(Wiring(b.forward, base, ForwardInputs(b, ext)), base + Size(b.forward),
                  Paste(Wiring(b.feedback, base + Size(b.forward), FeedbackInputs(b, ext)),
                        base + Size(b.forward) + Size(b.feedback), MonitorWiring(b, base, ext)))
    ensures ForwardInputs(b, ext) == JoinedInputs(0, b.fwdIn, ext, b.held)
    ensures var fo := ProcessOne(b.forward, ForwardInputs(b, ext)).1;
            FeedbackInputs(b, ext) == if b.monitor.Some? then ProcessOne(b.monitor.value, fo).1 else fo
  {
    hide Paste;
  }

  lemma {:induction false} FeedbackConsistent(b: Block, base: nat, ext: seq<Sample>)
    requires b.Feedback? && Compiles(b) && |ext| == NIn(b)
    ensures Consistent(Flatten(b, base), base, ext, Wiring(b, base, ext))
    decreases b, 0
  {
    hide Loop, Consistent, WellFormed, Mappable, TapFree, MappedOuts, InputsOwned, OutputsUsed, Flatten, ProcessOne,
      Wiring, ForwardInputs, FeedbackInputs, JoinedInputs, Size, NIn, NOut;
    FeedbackCompiles(b);
    FlattenFeedback(b, base);
    FeedbackWiring(b, base, ext);
    var f, k, m := b.forward, b.feedback, b.monitor;
    var kbase, mid := base + Size(f), base + Size(f) + Size(k);
    var fext, mo, w := ForwardInputs(b, ext), FeedbackInputs(b, ext), Wiring(b, base, ext);
    var fo := ProcessOne(f, fext).1;
    WiringConsistent(f, base, fext);
    WiringConsistent(k, kbase, mo);
    PortsPlaced(f, base);
    PortsPlaced(k, kbase);
    ConsistentWithin(Flatten(f, base), base, fext, Wiring(f, base, fext), w);
    ConsistentWithin(Flatten(k, kbase), kbase, mo, Wiring(k, kbase, mo), w);
    FlatSampleEqualsFused(f, base, fext, w);
    if m.Some? {
      WiringConsistent(m.value, mid, fo);
      PortsPlaced(m.value, mid);
      ConsistentWithin(Flatten(m.value, mid), mid, fo, MonitorWiring(b, base, ext), w);
      FlatSampleEqualsFused(m.value, mid, fo, w);
    }
    LoopConsistent(Flatten(f, base), Flatten(k, kbase), FlatMonitor(b, base), b.fwdIn, b.held, base, ext,
                   w, fo, fext, mo);
  }
}
