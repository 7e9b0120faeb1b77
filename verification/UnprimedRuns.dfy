/**
 Runs of a leaf graph as graph() hands it out, before the scheduler primes its loops: which leaves fire at all.
 */
module UnprimedRuns {
  import opened Wrappers
  import opened BlockMerging
  import opened MergedRuns

  function Unprimed(g: Graph): Graph {
    g.(edges := seq(|g.edges|, j requires 0 <= j < |g.edges| => g.edges[j].(waiting := [])))
  }

  // leaf k waits for one of the leaves over an edge that holds nothing at the start
  ghost predicate FedBy(g: Graph, leaves: set<nat>, k: nat) {
    exists e :: e in g.edges && e.destination.block == k && e.source.block in leaves && e.waiting == []
  }

  // each leaf of the set waits for one of the set
  ghost predicate SelfFeeding(g: Graph, leaves: set<nat>) { forall k :: k in leaves ==> FedBy(g, leaves, k) }

  // the leaf is on a loop of such edges, or behind one
  ghost predicate BehindLoop(g: Graph, k: nat) { exists leaves :: k in leaves && SelfFeeding(g, leaves) }

  // --- counting samples -------------------------------------------------------------------------------------------

  ghost predicate AllFit(g: Graph) { forall k :: 0 <= k < |g.blocks| ==> g.blocks[k].Fits() }

  // what waits at an input is what was supplied there and not taken yet
  ghost predicate Counts(g: Graph, n: nat, c: Config) {
    && |c.fired| == |c.states| == |g.blocks|
    && (forall j :: 0 <= j < |g.edges| ==> EdgeCounts(c, g.edges[j]))
    && (forall i :: 0 <= i < |g.ins| ==> InputCounts(n, c, g.ins[i]))
    && (forall i :: 0 <= i < |g.outs| ==> OutputCounts(c, g.outs[i]))
  }

  predicate EdgeCounts(c: Config, e: Edge) {
    && e.source.block < |c.fired| && e.destination.block < |c.fired|
    && |c.buffer(e.destination)| + c.fired[e.destination.block] == c.fired[e.source.block] + |e.waiting|
  }

  predicate InputCounts(n: nat, c: Config, r: PortRef) {
    r.block < |c.fired| && |c.buffer(r)| + c.fired[r.block] == n
  }

  predicate OutputCounts(c: Config, r: PortRef) { r.block < |c.fired| && |c.sent(r)| == c.fired[r.block] }

  lemma InitialCounts(g: Graph, xs: Stream, n: nat)
    requires Sound(g) && forall t :: |xs(t)| == |g.ins|
    ensures Counts(g, n, Initial(g, xs, n))
  {
    hide Apart, InitialBuffer;
    InitialBuffers(g, xs, n);
    var c := Initial(g, xs, n);
    forall j | 0 <= j < |g.edges| ensures EdgeCounts(c, g.edges[j]) { assert g.edges[j] in g.edges; }
    forall i | 0 <= i < |g.ins| ensures InputCounts(n, c, g.ins[i]) { assert g.ins[i] in g.ins; }
    forall i | 0 <= i < |g.outs| ensures OutputCounts(c, g.outs[i]) { assert g.outs[i] in g.outs; }
  }

  lemma FiredOutsFit(g: Graph, c: Config, k: nat)
    requires AllFit(g) && Ready(g, c, k)
    ensures |FiredOuts(g, c, k)| == g.blocks[k].nOut
  {
    assert |Fronts(g, c, k)| == g.blocks[k].nIn;
    hide Fronts;
  }

  lemma FireEdgeCounts(g: Graph, n: nat, c: Config, k: nat, j: nat)
    requires Sound(g) && AllFit(g) && Counts(g, n, c) && Ready(g, c, k) && j < |g.edges|
    ensures EdgeCounts(Fire(g, c, k), g.edges[j])
  {
    hide Delivered, Fronts;
    var e := g.edges[j];
    FiredOutsFit(g, c, k);
    DeliveredOnce(g.edges, k, FiredOuts(g, c, k), j);
    assert EdgeCounts(c, e) && e in g.edges;
    hide AllFit, Counts, Apart;
    assert e.destination.block == k ==> c.buffer(PortRef(k, e.destination.port)) != [];
  }

  lemma FireInputCounts(g: Graph, n: nat, c: Config, k: nat, i: nat)
    requires Sound(g) && Counts(g, n, c) && Ready(g, c, k) && i < |g.ins|
    ensures InputCounts(n, Fire(g, c, k), g.ins[i])
  {
    hide Delivered, Fronts;
    var r := g.ins[i];
    DeliveredElsewhere(g.edges, k, FiredOuts(g, c, k), r);
    assert InputCounts(n, c, r) && InPort(g, 0, r);
    hide Counts, Apart;
    assert r.block == k ==> c.buffer(PortRef(k, r.port)) != [];
  }

  lemma FireOutputCounts(g: Graph, n: nat, c: Config, k: nat, i: nat)
    requires Sound(g) && AllFit(g) && Counts(g, n, c) && Ready(g, c, k) && i < |g.outs|
    ensures OutputCounts(Fire(g, c, k), g.outs[i])
  {
    hide Delivered, Fronts;
    FiredOutsFit(g, c, k);
    assert OutputCounts(c, g.outs[i]) && OutPort(g, 0, g.outs[i]);
  }

  lemma FireCounts(g: Graph, n: nat, c: Config, k: nat)
    requires Sound(g) && AllFit(g) && Counts(g, n, c) && Ready(g, c, k)
    ensures Counts(g, n, Fire(g, c, k))
  {
    hide Sound, AllFit, Delivered, Fronts, EdgeCounts, InputCounts, OutputCounts;
    var c' := Fire(g, c, k);
    forall j | 0 <= j < |g.edges| ensures EdgeCounts(c', g.edges[j]) { FireEdgeCounts(g, n, c, k, j); }
    forall i | 0 <= i < |g.ins| ensures InputCounts(n, c', g.ins[i]) { FireInputCounts(g, n, c, k, i); }
    forall i | 0 <= i < |g.outs| ensures OutputCounts(c', g.outs[i]) { FireOutputCounts(g, n, c, k, i); }
  }

  lemma {:induction false} RunCounts(g: Graph, n: nat, c: Config, schedule: seq<nat>, c': Config)
    requires Sound(g) && AllFit(g) && Counts(g, n, c) && IsRun(g, c, schedule, c')
    ensures Counts(g, n, c')
    decreases |schedule|
  {
    hide Sound, AllFit, Counts, Fire, Ready;
    if schedule != [] {
      FireCounts(g, n, c, schedule[0]);
      RunCounts(g, n, Fire(g, c, schedule[0]), schedule[1..], c');
    }
  }

  // --- what never fires -------------------------------------------------------------------------------------------

  ghost predicate Unfired(c: Config, leaves: set<nat>) { forall k :: k in leaves && k < |c.fired| ==> c.fired[k] == 0 }

  lemma SelfFeedingIsStarved(g: Graph, n: nat, c: Config, leaves: set<nat>, k: nat)
    requires Sound(g) && Counts(g, n, c) && SelfFeeding(g, leaves) && Unfired(c, leaves) && k in leaves
    ensures !Ready(g, c, k)
  {
    hide Sound, Counts, Ready, SelfFeeding;
    assert FedBy(g, leaves, k) by { FedByOne(g, leaves, k); }
    var e :| e in g.edges && e.destination.block == k && e.source.block in leaves && e.waiting == [];
    var j :| 0 <= j < |g.edges| && g.edges[j] == e;
    CountsAt(g, n, c, j);
    NotReadyAt(g, c, e.destination);
  }

  lemma FedByOne(g: Graph, leaves: set<nat>, k: nat)
    requires SelfFeeding(g, leaves) && k in leaves
    ensures FedBy(g, leaves, k)
  {
    hide FedBy;
  }

  lemma CountsAt(g: Graph, n: nat, c: Config, j: nat)
    requires Sound(g) && Counts(g, n, c) && j < |g.edges|
    ensures EdgeCounts(c, g.edges[j]) && InPort(g, 0, g.edges[j].destination)
  {
    hide Apart, InputCounts, OutputCounts, EdgeCounts;
    assert g.edges[j] in g.edges;
  }

  lemma NotReadyAt(g: Graph, c: Config, r: PortRef)
    requires InPort(g, 0, r) && c.buffer(r) == []
    ensures !Ready(g, c, r.block)
  {
    assert c.buffer(PortRef(r.block, r.port)) == [];
  }

  lemma FireUnfired(g: Graph, c: Config, k: nat, leaves: set<nat>)
    requires Ready(g, c, k) && Unfired(c, leaves) && k !in leaves
    ensures Unfired(Fire(g, c, k), leaves)
  {
    hide Delivered, Fronts;
  }

  // No leaf of a set that feeds itself ever fires, in any graph and any order of firings.
  lemma {:induction false} SelfFeedingNeverFires(g: Graph, n: nat, c: Config, schedule: seq<nat>, c': Config,
                                                 leaves: set<nat>)
    requires Sound(g) && AllFit(g) && Counts(g, n, c) && IsRun(g, c, schedule, c')
    requires SelfFeeding(g, leaves) && Unfired(c, leaves)
    ensures Unfired(c', leaves) && forall i :: 0 <= i < |schedule| ==> schedule[i] !in leaves
    decreases |schedule|
  {
    hide Sound, AllFit, Counts, SelfFeeding, Ready;
    if schedule != [] {
      var k := schedule[0];
      if k in leaves { SelfFeedingIsStarved(g, n, c, leaves, k); }
      FireCounts(g, n, c, k);
      FireUnfired(g, c, k, leaves);
      hide Fire, Unfired;
      SelfFeedingNeverFires(g, n, Fire(g, c, k), schedule[1..], c', leaves);
    }
  }

  // where no leaf can fire below the input's length, those that fired less often wait for one another
  lemma LaggardsFeedThemselves(g: Graph, n: nat, c: Config)
    requires Sound(g) && Counts(g, n, c) && (forall e :: e in g.edges ==> e.waiting == [])
    requires forall k: nat :: Ready(g, c, k) ==> n <= c.fired[k]
    ensures SelfFeeding(g, set k | 0 <= k < |c.fired| && c.fired[k] < n)
  {
    hide Sound, OutputCounts;
    var laggards := set k | 0 <= k < |c.fired| && c.fired[k] < n;
    forall k | k in laggards ensures FedBy(g, laggards, k) {
      var p: nat :| p < g.blocks[k].nIn && c.buffer(PortRef(k, p)) == [];
      var r := PortRef(k, p);
      assert InPort(g, 0, r);
      SuppliedSomewhere(g, r);
      forall i | 0 <= i < |g.ins| ensures g.ins[i] != r { assert InputCounts(n, c, g.ins[i]); }
      var j: nat :| j < |g.edges| && g.edges[j].destination == r;
      assert EdgeCounts(c, g.edges[j]) && g.edges[j] in g.edges;
    }
  }

  // --- the results ------------------------------------------------------------------------------------------------

  lemma UnprimedSound(g: Graph)
    requires Sound(g)
    ensures Sound(Unprimed(g)) && forall e :: e in Unprimed(g).edges ==> e.waiting == []
  {
    var h := Unprimed(g);
    assert Destinations(h.edges) == Destinations(g.edges);
    forall e | e in h.edges
      ensures InPort(h, 0, e.destination) && OutPort(h, 0, e.source) && e.waiting == [] && e.destination !in h.ins
    {
      var j :| 0 <= j < |h.edges| && h.edges[j] == e;
      assert g.edges[j] in g.edges;
    }
  }

  lemma {:induction false} LeavesFit(b: Block, base: nat)
    requires Compiles(b)
    ensures AllFit(Flatten(b, base))
  {
    hide Mappable, TapFree, MappedOuts, Flatten, Leaf.Fits;
    match b {
      case Unit(leaf) => UnitFits(leaf, base);
      case Merge(l, _, r, _) =>
        FlattenMerge(b, base); MergeCompiles(b);
        LeavesFit(l, base); LeavesFit(r, base + Size(l));
      case Feedback(f, k, _, m, _, _) =>
        FlattenFeedback(b, base); FeedbackCompiles(b);
        LeavesFit(f, base); LeavesFit(k, base + Size(f));
        if m.Some? { LeavesFit(m.value, base + Size(f) + Size(k)); }
    }
  }

  lemma UnitFits(leaf: Leaf, base: nat)
    requires Compiles(Unit(leaf))
    ensures AllFit(Flatten(Unit(leaf), base))
  {
  }

  lemma UnprimedStart(b: Block, xs: Stream, n: nat)
    requires Compiles(b) && Feeds(b, xs)
    ensures var g := Unprimed(Flatten(b, 0)); Sound(g) && AllFit(g) && Counts(g, n, Initial(g, xs, n))
    ensures forall e :: e in Unprimed(Flatten(b, 0)).edges ==> e.waiting == []
  {
    hide Compiles, Flatten, Sound, Counts, Initial;
    CompilesParts(b);
    LeavesSound(b, xs);
    LeavesFit(b, 0);
    UnprimedSound(Flatten(b, 0));
    InitialCounts(Unprimed(Flatten(b, 0)), xs, n);
  }

  // In any run of the unprimed leaf graph a leaf on a loop, or behind one, never fires, and nothing leaves it.
  lemma UnprimedLoopIsStuck(b: Block, xs: Stream, n: nat, schedule: seq<nat>, c: Config, k: nat)
    requires Compiles(b) && Feeds(b, xs) && k < Size(b) && BehindLoop(Unprimed(Flatten(b, 0)), k)
    requires var g := Unprimed(Flatten(b, 0)); IsRun(g, Initial(g, xs, n), schedule, c)
    ensures |c.fired| == Size(b) && c.fired[k] == 0 && k !in schedule
    ensures forall r :: r in Flatten(b, 0).outs && r.block == k ==> c.sent(r) == []
  {
    UnprimedStart(b, xs, n);
    CompilesParts(b);
    hide Compiles, Sound, AllFit, Counts, Flatten, IsRun, Initial, BehindLoop;
    LoopIsStuck(Unprimed(Flatten(b, 0)), xs, n, schedule, c, k);
  }

  lemma LoopIsStuck(g: Graph, xs: Stream, n: nat, schedule: seq<nat>, c: Config, k: nat)
    requires Sound(g) && AllFit(g) && (forall t :: |xs(t)| == |g.ins|) && Counts(g, n, Initial(g, xs, n))
    requires IsRun(g, Initial(g, xs, n), schedule, c) && BehindLoop(g, k) && k < |g.blocks|
    ensures |c.fired| == |g.blocks| && c.fired[k] == 0 && k !in schedule
    ensures forall r :: r in g.outs && r.block == k ==> c.sent(r) == []
  {
    hide Sound, AllFit, SelfFeeding, Counts, Ready, Fire, IsRun, InitialBuffer;
    var leaves :| k in leaves && SelfFeeding(g, leaves);
    RunCounts(g, n, Initial(g, xs, n), schedule, c);
    SelfFeedingNeverFires(g, n, Initial(g, xs, n), schedule, c, leaves);
    CountsFired(g, n, c);
  }

  lemma CountsFired(g: Graph, n: nat, c: Config)
    requires Counts(g, n, c)
    ensures |c.fired| == |g.blocks|
    ensures forall r :: r in g.outs ==> r.block < |c.fired| && |c.sent(r)| == c.fired[r.block]
  {
    hide EdgeCounts, InputCounts;
    forall r | r in g.outs ensures OutputCounts(c, r) {
      var i :| 0 <= i < |g.outs| && g.outs[i] == r;
      assert OutputCounts(c, g.outs[i]);
    }
  }

  // And those are the only ones that need the priming: a finished run has fired every other leaf as often as the input
  // is long.
  lemma UnprimedFiresTheRest(b: Block, xs: Stream, n: nat, schedule: seq<nat>, c: Config, k: nat)
    requires Compiles(b) && Feeds(b, xs) && k < Size(b)
    requires var g := Unprimed(Flatten(b, 0)); IsRun(g, Initial(g, xs, n), schedule, c)
    requires forall q: nat :: Ready(Unprimed(Flatten(b, 0)), c, q) ==> n <= c.fired[q]
    ensures |c.fired| == Size(b)
    ensures if BehindLoop(Unprimed(Flatten(b, 0)), k) then c.fired[k] == 0 else n <= c.fired[k]
  {
    UnprimedStart(b, xs, n);
    CompilesParts(b);
    hide Compiles, Sound, AllFit, Counts, Flatten, IsRun, Initial, BehindLoop, Ready;
    var g := Unprimed(Flatten(b, 0));
    if BehindLoop(g, k) { LoopIsStuck(g, xs, n, schedule, c, k); } else { RestFires(g, xs, n, schedule, c, k); }
  }

  lemma RestFires(g: Graph, xs: Stream, n: nat, schedule: seq<nat>, c: Config, k: nat)
    requires Sound(g) && AllFit(g) && (forall t :: |xs(t)| == |g.ins|) && Counts(g, n, Initial(g, xs, n))
    requires IsRun(g, Initial(g, xs, n), schedule, c) && !BehindLoop(g, k) && k < |g.blocks|
    requires (forall e :: e in g.edges ==> e.waiting == []) && forall q: nat :: Ready(g, c, q) ==> n <= c.fired[q]
    ensures |c.fired| == |g.blocks| && n <= c.fired[k]
  {
    hide Sound, AllFit, SelfFeeding, Counts, Ready, Fire, IsRun, Initial;
    RunCounts(g, n, Initial(g, xs, n), schedule, c);
    LaggardsFeedThemselves(g, n, c);
    CountsFired(g, n, c);
  }

  // a forward leaf, looped through a monitor leaf when there is one and a feedback leaf
  function LeafLoop(f: Leaf, k: Leaf, i: nat, m: Option<Leaf>, held: Sample): Block {
    Feedback(Unit(f), Unit(k), i, if m.Some? then Some(Unit(m.value)) else None, held, false)
  }

  // Every leaf of a loop of leaves needs the priming.
  lemma LeafLoopFeedsItself(f: Leaf, k: Leaf, i: nat, m: Option<Leaf>, held: Sample, q: nat)
    requires Compiles(LeafLoop(f, k, i, m, held)) && q < Size(LeafLoop(f, k, i, m, held))
    ensures BehindLoop(Unprimed(Flatten(LeafLoop(f, k, i, m, held), 0)), q)
  {
    LeafLoopEdges(f, k, i, m, held);
    LeafLoopSize(f, k, i, m, held);
    hide Compiles, Flatten, Unprimed, BehindLoop, Size, LeafLoop;
    var g := Unprimed(Flatten(LeafLoop(f, k, i, m, held), 0));
    if m.Some? { EdgesOfThree(g, i, q); } else { EdgesOfTwo(g, i, q); }
  }

  lemma LeafLoopSize(f: Leaf, k: Leaf, i: nat, m: Option<Leaf>, held: Sample)
    ensures Size(LeafLoop(f, k, i, m, held)) == if m.Some? then 3 else 2
  {
  }

  lemma EdgesOfTwo(g: Graph, i: nat, q: nat)
    requires g.edges == [Edge(PortRef(0, 0), PortRef(1, 0), []), Edge(PortRef(1, 0), PortRef(0, i), [])]
    ensures q < 2 ==> BehindLoop(g, q)
  {
    assert g.edges[0] in g.edges && g.edges[1] in g.edges;
    assert SelfFeeding(g, {0, 1});
  }

  lemma EdgesOfThree(g: Graph, i: nat, q: nat)
    requires g.edges == [Edge(PortRef(0, 0), PortRef(2, 0), []), Edge(PortRef(2, 0), PortRef(1, 0), []),
                         Edge(PortRef(1, 0), PortRef(0, i), [])]
    ensures q < 3 ==> BehindLoop(g, q)
  {
    assert g.edges[0] in g.edges && g.edges[1] in g.edges && g.edges[2] in g.edges;
    assert SelfFeeding(g, {0, 1, 2});
  }

  lemma LeafLoopEdges(f: Leaf, k: Leaf, i: nat, m: Option<Leaf>, held: Sample)
    requires Compiles(LeafLoop(f, k, i, m, held))
    ensures var edges := Unprimed(Flatten(LeafLoop(f, k, i, m, held), 0)).edges;
            edges == if m.Some? then
              [Edge(PortRef(0, 0), PortRef(2, 0), []), Edge(PortRef(2, 0), PortRef(1, 0), []),
               Edge(PortRef(1, 0), PortRef(0, i), [])]
            else [Edge(PortRef(0, 0), PortRef(1, 0), []), Edge(PortRef(1, 0), PortRef(0, i), [])]
  {
    var b := LeafLoop(f, k, i, m, held);
    FlattenFeedback(b, 0);
    FeedbackCompiles(b);
    assert Flatten(Unit(f), 0).outs[0] == PortRef(0, 0) && Flatten(Unit(f), 0).ins[i] == PortRef(0, i);
    assert Flatten(Unit(k), 1).outs[0] == PortRef(1, 0) && Flatten(Unit(k), 1).ins[0] == PortRef(1, 0);
  }
}
