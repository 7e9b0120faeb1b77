/**
 Runs of a leaf graph whose loop the scheduler has primed on another edge than the one that closes the merge
 (core/include/gnuradio-4.0/Graph.hpp): one edge earlier, before the leaf that the sample would otherwise come out of.
 */
module PrimedElsewhere {
  import opened Wrappers
  import opened BlockMerging
  import opened MergedRuns

  // the sample of edge j put on edge i instead
  function Moved(g: Graph, i: nat, j: nat): Graph
    requires i < |g.edges| && j < |g.edges|
  {
    var sample := g.edges[j].waiting;
    g.(edges := g.edges[j := g.edges[j].(waiting := [])][i := g.edges[i].(waiting := sample)])
  }

  // Leaf k stands between edge i and edge j and is on no other. It hands the sample on and stays in its state.
  ghost predicate PassesOn(g: Graph, i: nat, k: nat, j: nat, z: Sample) {
    && i < |g.edges| && j < |g.edges| && i != j && k < |g.blocks|
    && g.edges[i].destination == PortRef(k, 0) && g.edges[i].waiting == []
    && g.edges[j].source == PortRef(k, 0) && g.edges[j].waiting == [z]
    && g.edges[j].destination.block != k
    && g.blocks[k].nIn == 1 && g.blocks[k].step(g.blocks[k].state, [z]) == (g.blocks[k].state, [z])
    && (forall e :: 0 <= e < |g.edges| && e != j ==> g.edges[e].source.block != k)
    && (forall r :: r in g.outs ==> r.block != k)
  }

  // --- a run and the one without the leaf's first firing ----------------------------------------------------------

  // before leaf k has fired: its input holds the sample, which in the other run is already past it
  ghost predicate Behind(g: Graph, k: nat, to: PortRef, z: Sample, c: Config, c': Config) {
    && |c.fired| == |c.states| == |g.blocks| && c.fired == c'.fired && c.states == c'.states
    && k < |g.blocks| && c.fired[k] == 0 && c.states[k] == g.blocks[k].state
    && c.buffer(PortRef(k, 0)) == [z] + c'.buffer(PortRef(k, 0))
    && c.buffer(to) == [] && c'.buffer(to) == [z]
    && (forall r: PortRef :: r != PortRef(k, 0) && r != to ==> c.buffer(r) == c'.buffer(r))
    && (forall r: PortRef :: c.sent(r) == c'.sent(r))
  }

  // after that: only the count of its firings differs
  ghost predicate OneAhead(g: Graph, k: nat, c: Config, c': Config) {
    && |c.fired| == |c.states| == |c'.fired| == |g.blocks| && k < |g.blocks|
    && c.fired == c'.fired[k := c'.fired[k] + 1] && c.states == c'.states
    && (forall r: PortRef :: c.buffer(r) == c'.buffer(r)) && (forall r: PortRef :: c.sent(r) == c'.sent(r))
  }

  ghost predicate Alike(g: Graph, k: nat, to: PortRef, z: Sample, c: Config, c': Config) {
    Behind(g, k, to, z, c, c') || OneAhead(g, k, c, c')
  }

  // the edges without what waits on them
  ghost predicate SameEdges(g: Graph, h: Graph) {
    && h.blocks == g.blocks && h.outs == g.outs && h.ins == g.ins && |h.edges| == |g.edges|
    && forall e :: 0 <= e < |g.edges| ==>
         h.edges[e].source == g.edges[e].source && h.edges[e].destination == g.edges[e].destination
  }

  lemma {:induction false} DeliveredAlike(a: seq<Edge>, b: seq<Edge>, k: nat, outs: seq<Sample>, r: PortRef)
    requires |a| == |b|
    requires forall e :: 0 <= e < |a| ==> a[e].source == b[e].source && a[e].destination == b[e].destination
    ensures Delivered(a, k, outs, r) == Delivered(b, k, outs, r)
  {
    if a != [] {
      DeliveredAlike(a[..|a| - 1], b[..|b| - 1], k, outs, r);
    }
  }

  lemma {:induction false} DeliversNothing(edges: seq<Edge>, k: nat, outs: seq<Sample>, r: PortRef)
    requires forall e :: 0 <= e < |edges| && edges[e].destination == r ==> edges[e].source.block != k
    ensures Delivered(edges, k, outs, r) == []
  {
    if edges != [] {
      DeliversNothing(edges[..|edges| - 1], k, outs, r);
    }
  }

  // what one firing puts at a port and sends to the outside
  lemma FiredAt(g: Graph, c: Config, q: nat, r: PortRef)
    requires Ready(g, c, q)
    ensures var d, outs := Fire(g, c, q), FiredOuts(g, c, q);
            && d.buffer(r) == (if r.block == q && r.port < g.blocks[q].nIn && c.buffer(r) != [] then c.buffer(r)[1..]
                               else c.buffer(r)) + Delivered(g.edges, q, outs, r)
            && d.sent(r)
               == c.sent(r) + (if r.block == q && r.port < |outs| && r in g.outs then [outs[r.port]] else [])
            && d.fired == c.fired[q := c.fired[q] + 1]
            && d.states == c.states[q := g.blocks[q].step(c.states[q], Fronts(g, c, q)).0]
  {
    hide Delivered, Fronts;
  }

  lemma SameFronts(g: Graph, h: Graph, c: Config, c': Config, q: nat)
    requires SameEdges(g, h) && Ready(h, c, q) && |c'.fired| == |c'.states| == |g.blocks|
    requires forall p: nat :: p < g.blocks[q].nIn ==> c.buffer(PortRef(q, p)) == c'.buffer(PortRef(q, p))
    ensures Ready(g, c', q) && Fronts(g, c', q) == Fronts(h, c, q)
  {
  }

  // once the leaf has fired, every firing has its like
  lemma AheadFires(g: Graph, h: Graph, k: nat, c: Config, c': Config, q: nat)
    requires SameEdges(g, h) && OneAhead(g, k, c, c') && Ready(h, c, q)
    ensures Ready(g, c', q) && OneAhead(g, k, Fire(h, c, q), Fire(g, c', q))
  {
    SameFronts(g, h, c, c', q);
    hide Fire, Delivered, Fronts, Ready;
    var outs := FiredOuts(h, c, q);
    assert FiredOuts(g, c', q) == outs;
    forall r: PortRef
      ensures Fire(h, c, q).buffer(r) == Fire(g, c', q).buffer(r) && Fire(h, c, q).sent(r) == Fire(g, c', q).sent(r)
    {
      FiredAt(h, c, q, r);
      FiredAt(g, c', q, r);
      DeliveredAlike(h.edges, g.edges, q, outs, r);
    }
    FiredAt(h, c, q, PortRef(0, 0));
    FiredAt(g, c', q, PortRef(0, 0));
  }

  // the leaf's own first firing brings the two runs together
  lemma LeafCatchesUp(g: Graph, h: Graph, i: nat, k: nat, j: nat, z: Sample, c: Config, c': Config)
    requires PassesOn(g, i, k, j, z) && SameEdges(g, h) && Apart(g)
    requires Behind(g, k, g.edges[j].destination, z, c, c') && Ready(h, c, k)
    ensures OneAhead(g, k, Fire(h, c, k), c')
  {
    var to := g.edges[j].destination;
    assert Fronts(h, c, k) == [z];
    hide Fire, Delivered, Fronts, Ready;
    forall r: PortRef ensures Fire(h, c, k).buffer(r) == c'.buffer(r) && Fire(h, c, k).sent(r) == c'.sent(r) {
      FiredAt(h, c, k, r);
      if r == to {
        DeliveredAlike(h.edges, g.edges, k, [z], r);
        DeliveredOnce(g.edges, k, [z], j);
      } else {
        DeliversNothing(h.edges, k, [z], r);
      }
      assert r.block == k && r.port < 1 ==> r == PortRef(k, 0);
    }
    FiredAt(h, c, k, to);
  }

  // before it, another leaf's firing has its like: the leaf behind the closing edge has nothing to read
  lemma BehindFires(g: Graph, h: Graph, i: nat, k: nat, j: nat, z: Sample, c: Config, c': Config, q: nat)
    requires PassesOn(g, i, k, j, z) && SameEdges(g, h) && Apart(g)
    requires Behind(g, k, g.edges[j].destination, z, c, c') && Ready(h, c, q) && q != k
    requires InPort(g, 0, g.edges[j].destination)
    ensures Ready(g, c', q) && Behind(g, k, g.edges[j].destination, z, Fire(h, c, q), Fire(g, c', q))
  {
    var to := g.edges[j].destination;
    assert q == to.block ==> PortRef(q, to.port) == to;
    SameFronts(g, h, c, c', q);
    hide Fire, Delivered, Fronts, Ready, SameEdges, Apart, InPort;
    forall r: PortRef
      ensures r != PortRef(k, 0) && r != to ==> Fire(h, c, q).buffer(r) == Fire(g, c', q).buffer(r)
      ensures r == PortRef(k, 0) ==> Fire(h, c, q).buffer(r) == [z] + Fire(g, c', q).buffer(r)
      ensures r == to ==> Fire(h, c, q).buffer(r) == [] && Fire(g, c', q).buffer(r) == [z]
      ensures Fire(h, c, q).sent(r) == Fire(g, c', q).sent(r)
    {
      BehindFiresAt(g, h, i, k, j, z, c, c', q, r);
    }
    FiredAt(h, c, q, to);
    FiredAt(g, c', q, to);
  }

  lemma BehindFiresAt(g: Graph, h: Graph, i: nat, k: nat, j: nat, z: Sample, c: Config, c': Config, q: nat, r: PortRef)
    requires PassesOn(g, i, k, j, z) && SameEdges(g, h) && Apart(g)
    requires Behind(g, k, g.edges[j].destination, z, c, c') && Ready(h, c, q) && q != k
    requires Ready(g, c', q) && Fronts(g, c', q) == Fronts(h, c, q) && q != g.edges[j].destination.block
    ensures var to, d, d' := g.edges[j].destination, Fire(h, c, q), Fire(g, c', q);
            && (r != PortRef(k, 0) && r != to ==> d.buffer(r) == d'.buffer(r))
            && (r == PortRef(k, 0) ==> d.buffer(r) == [z] + d'.buffer(r))
            && (r == to ==> d.buffer(r) == [] && d'.buffer(r) == [z])
            && d.sent(r) == d'.sent(r)
  {
    hide Fire, Delivered, Fronts, Ready;
    var outs, to := FiredOuts(h, c, q), g.edges[j].destination;
    FiredAt(h, c, q, r);
    FiredAt(g, c', q, r);
    DeliveredAlike(h.edges, g.edges, q, outs, r);
    if r == to {
      DeliversNothing(g.edges, q, outs, to);
    }
  }

  // a schedule without the first firing of leaf k
  function WithoutFirst(schedule: seq<nat>, k: nat): seq<nat> {
    if schedule == [] then []
    else if schedule[0] == k then schedule[1..]
    else [schedule[0]] + WithoutFirst(schedule[1..], k)
  }

  lemma {:induction false} AheadRuns(g: Graph, h: Graph, k: nat, c: Config, c': Config, schedule: seq<nat>, d: Config)
    requires SameEdges(g, h) && OneAhead(g, k, c, c') && IsRun(h, c, schedule, d)
    ensures exists d' :: IsRun(g, c', schedule, d') && OneAhead(g, k, d, d')
    decreases |schedule|
  {
    hide SameEdges, OneAhead, Fire, Ready;
    if schedule == [] {
      assert IsRun(g, c', schedule, c');
    } else {
      AheadFires(g, h, k, c, c', schedule[0]);
      AheadRuns(g, h, k, Fire(h, c, schedule[0]), Fire(g, c', schedule[0]), schedule[1..], d);
      var d' :| IsRun(g, Fire(g, c', schedule[0]), schedule[1..], d') && OneAhead(g, k, d, d');
      assert IsRun(g, c', schedule, d');
    }
  }

  lemma {:induction false} BehindRuns(g: Graph, h: Graph, i: nat, k: nat, j: nat, z: Sample, c: Config, c': Config,
                                      schedule: seq<nat>, d: Config)
    requires PassesOn(g, i, k, j, z) && SameEdges(g, h) && Apart(g) && InPort(g, 0, g.edges[j].destination)
    requires Behind(g, k, g.edges[j].destination, z, c, c') && IsRun(h, c, schedule, d)
    ensures exists d' :: IsRun(g, c', WithoutFirst(schedule, k), d') && Alike(g, k, g.edges[j].destination, z, d, d')
    decreases |schedule|
  {
    var to := g.edges[j].destination;
    hide SameEdges, PassesOn, OneAhead, Behind, Fire, Ready, Apart, InPort;
    if schedule == [] {
      assert IsRun(g, c', WithoutFirst(schedule, k), c');
    } else if schedule[0] == k {
      LeafCatchesUp(g, h, i, k, j, z, c, c');
      AheadRuns(g, h, k, Fire(h, c, k), c', schedule[1..], d);
      var d' :| IsRun(g, c', schedule[1..], d') && OneAhead(g, k, d, d');
      assert Alike(g, k, to, z, d, d');
    } else {
      var q := schedule[0];
      BehindFires(g, h, i, k, j, z, c, c', q);
      BehindRuns(g, h, i, k, j, z, Fire(h, c, q), Fire(g, c', q), schedule[1..], d);
      var rest := WithoutFirst(schedule[1..], k);
      var d' :| IsRun(g, Fire(g, c', q), rest, d') && Alike(g, k, to, z, d, d');
      RunFrom(g, c', q, rest, d');
    }
  }

  lemma RunFrom(g: Graph, c: Config, q: nat, rest: seq<nat>, d: Config)
    requires Ready(g, c, q) && IsRun(g, Fire(g, c, q), rest, d)
    ensures IsRun(g, c, [q] + rest, d)
  {
    hide Ready, Fire;
    assert ([q] + rest)[1..] == rest;
  }

  // --- the results ------------------------------------------------------------------------------------------------

  lemma MovedStart(g: Graph, xs: Stream, n: nat, i: nat, k: nat, j: nat, z: Sample)
    requires PassesOn(g, i, k, j, z) && Sound(g) && forall t :: |xs(t)| == |g.ins|
    ensures SameEdges(g, Moved(g, i, j)) && Sound(Moved(g, i, j))
    ensures Behind(g, k, g.edges[j].destination, z, Initial(Moved(g, i, j), xs, n), Initial(g, xs, n))
  {
    var h := Moved(g, i, j);
    MovedSound(g, i, k, j, z);
    InitialBuffers(g, xs, n);
    InitialBuffers(h, xs, n);
    hide Sound, Moved, InitialBuffer;
  }

  lemma MovedSound(g: Graph, i: nat, k: nat, j: nat, z: Sample)
    requires PassesOn(g, i, k, j, z) && Sound(g)
    ensures SameEdges(g, Moved(g, i, j)) && Sound(Moved(g, i, j)) && Apart(g) && Apart(Moved(g, i, j))
  {
    var h := Moved(g, i, j);
    MovedEdges(g, i, k, j, z);
    assert Destinations(h.edges) == Destinations(g.edges);
    forall e | e in h.edges
      ensures InPort(h, 0, e.destination) && OutPort(h, 0, e.source) && |e.waiting| <= 1 && e.destination !in h.ins
    {
      var m :| 0 <= m < |h.edges| && h.edges[m] == e;
      assert g.edges[m] in g.edges;
    }
    hide PassesOn, Moved;
  }

  lemma MovedEdges(g: Graph, i: nat, k: nat, j: nat, z: Sample)
    requires PassesOn(g, i, k, j, z)
    ensures var h := Moved(g, i, j);
            && SameEdges(g, h) && h.edges[i].waiting == [z] && h.edges[j].waiting == []
            && forall e :: 0 <= e < |g.edges| && e != i && e != j ==> h.edges[e].waiting == g.edges[e].waiting
  {
  }

  // what EveryRunAgrees() says of a configuration
  ghost predicate Agrees(b: Block, xs: Stream, c: Config)
    requires Compiles(b) && Feeds(b, xs)
  {
    && |c.fired| == |c.states| == Size(b)
    && (forall o :: 0 <= o < NOut(b) ==>
          var r := Flatten(b, 0).outs[o];
          r.block < Size(b) && c.sent(r) == FusedStream(b, xs, o, c.fired[r.block]))
    && (forall q :: 0 <= q < Size(b) ==> StateAfter(b, xs, q, c.fired[q], c.states[q]))
  }

  ghost predicate StateAfter(b: Block, xs: Stream, q: nat, t: nat, state: State)
    requires Compiles(b) && Feeds(b, xs) && q < Size(b)
  {
    state == Flatten(After(b, xs, t), 0).blocks[q].state
  }

  lemma RunAgrees(b: Block, xs: Stream, n: nat, schedule: seq<nat>, c: Config)
    requires Compiles(b) && Feeds(b, xs) && IsRun(Flatten(b, 0), Initial(Flatten(b, 0), xs, n), schedule, c)
    ensures Agrees(b, xs, c)
  {
    EveryRunAgrees(b, xs, n, schedule, c);
    hide IsRun, Initial, FusedStream, Flatten, Compiles;
  }

  // the same of a configuration whose leaf k is one firing ahead
  lemma AlikeAgrees(b: Block, xs: Stream, k: nat, to: PortRef, z: Sample, c: Config, c': Config)
    requires Compiles(b) && Feeds(b, xs) && Agrees(b, xs, c') && |Flatten(b, 0).blocks| == Size(b)
    requires Alike(Flatten(b, 0), k, to, z, c, c') && forall r :: r in Flatten(b, 0).outs ==> r.block != k
    ensures |c.fired| == |c.states| == Size(b)
    ensures forall o :: 0 <= o < NOut(b) ==>
              var r := Flatten(b, 0).outs[o];
              r.block < Size(b) && c.sent(r) == FusedStream(b, xs, o, c.fired[r.block])
    ensures forall q :: 0 <= q < Size(b) ==>
              StateAfter(b, xs, q, if q == k && 0 < c.fired[k] then c.fired[k] - 1 else c.fired[q], c.states[q])
  {
    CompilesParts(b);
    AlikeCounts(Flatten(b, 0), k, to, z, c, c');
    hide StateAfter, FusedStream, Flatten, Compiles, Alike;
    forall o | 0 <= o < NOut(b)
      ensures var r := Flatten(b, 0).outs[o];
              r.block < Size(b) && c.sent(r) == FusedStream(b, xs, o, c.fired[r.block])
    {
      assert Flatten(b, 0).outs[o] in Flatten(b, 0).outs;
    }
  }

  lemma AlikeCounts(g: Graph, k: nat, to: PortRef, z: Sample, c: Config, c': Config)
    requires Alike(g, k, to, z, c, c')
    ensures |c.fired| == |c'.fired| == |g.blocks| && k < |g.blocks| && c.states == c'.states
    ensures forall q :: 0 <= q < |c.fired| ==>
              c'.fired[q] == if q == k && 0 < c.fired[k] then c.fired[k] - 1 else c.fired[q]
    ensures forall r: PortRef :: c.sent(r) == c'.sent(r)
  {
  }

  // With a sample primed one edge early, before a leaf that hands it on as it is, every run in any order gives each
  // external output a beginning of what the fused calls return, and each leaf the fused state after its firings; the
  // leaf that handed the sample on has fired once more for it.
  lemma EveryMovedRunAgrees(b: Block, xs: Stream, n: nat, i: nat, k: nat, j: nat, z: Sample, schedule: seq<nat>,
                            c: Config)
    requires Compiles(b) && Feeds(b, xs) && PassesOn(Flatten(b, 0), i, k, j, z)
    requires var h := Moved(Flatten(b, 0), i, j); IsRun(h, Initial(h, xs, n), schedule, c)
    ensures |c.fired| == |c.states| == Size(b)
    ensures forall o :: 0 <= o < NOut(b) ==>
              var r := Flatten(b, 0).outs[o];
              r.block < Size(b) && c.sent(r) == FusedStream(b, xs, o, c.fired[r.block])
    ensures forall q :: 0 <= q < Size(b) ==>
              StateAfter(b, xs, q, if q == k && 0 < c.fired[k] then c.fired[k] - 1 else c.fired[q], c.states[q])
  {
    CompilesParts(b);
    LeavesSound(b, xs);
    MovedRunAlike(Flatten(b, 0), xs, n, i, k, j, z, schedule, c);
    hide Compiles, Flatten, Sound, Moved, IsRun, Initial, Alike, StateAfter, FusedStream;
    var g := Flatten(b, 0);
    var to := g.edges[j].destination;
    var c' :| IsRun(g, Initial(g, xs, n), WithoutFirst(schedule, k), c') && Alike(g, k, to, z, c, c');
    RunAgrees(b, xs, n, WithoutFirst(schedule, k), c');
    AlikeAgrees(b, xs, k, to, z, c, c');
  }

  lemma MovedRunAlike(g: Graph, xs: Stream, n: nat, i: nat, k: nat, j: nat, z: Sample, schedule: seq<nat>, c: Config)
    requires PassesOn(g, i, k, j, z) && Sound(g) && forall t :: |xs(t)| == |g.ins|
    requires var h := Moved(g, i, j); IsRun(h, Initial(h, xs, n), schedule, c)
    ensures exists c' :: IsRun(g, Initial(g, xs, n), WithoutFirst(schedule, k), c')
                         && Alike(g, k, g.edges[j].destination, z, c, c')
  {
    assert g.edges[j] in g.edges;
    MovedStart(g, xs, n, i, k, j, z);
    MovedSound(g, i, k, j, z);
    hide Moved, Initial, IsRun, Behind, SameEdges;
    var h := Moved(g, i, j);
    BehindRuns(g, h, i, k, j, z, Initial(h, xs, n), Initial(g, xs, n), schedule, c);
  }

  // the feedback block of a merge, when it is a leaf that hands the sample held on as it is
  function LoopBlock(f: Block, leaf: Leaf, i: nat, m: Option<Block>, z: Sample): Block {
    Feedback(f, Unit(leaf), i, m, z, false)
  }

  // The scheduler that primes the edge into such a feedback block instead of the one out of it.
  lemma LoopPassesOn(f: Block, leaf: Leaf, i: nat, m: Option<Block>, z: Sample)
    requires Compiles(LoopBlock(f, leaf, i, m, z)) && leaf.step(leaf.state, [z]) == (leaf.state, [z])
    ensures var g := Flatten(LoopBlock(f, leaf, i, m, z), 0);
            2 <= |g.edges| && PassesOn(g, |g.edges| - 2, Size(f), |g.edges| - 1, z)
  {
    hide Flatten, Loop, PassesOn, Compiles, WellFormed, Mappable, TapFree, MappedOuts;
    var b := LoopBlock(f, leaf, i, m, z);
    FeedbackCompiles(b);
    CompilesParts(b);
    FlattenFeedback(b, 0);
    PartInside(f, 0);
    LeafEdges(leaf, Size(f));
    if m.Some? { PartInside(m.value, Size(f) + 1); }
    LoopIsPassedOn(Flatten(f, 0), Flatten(Unit(leaf), Size(f)), FlatMonitor(b, 0), leaf, i, Size(f), z);
  }

  lemma PartInside(b: Block, base: nat)
    requires Compiles(b)
    ensures WellFormed(b) && Mappable(b)
    ensures var g := Flatten(b, base);
            && |g.blocks| == Size(b) && |g.ins| == NIn(b) && |g.outs| == NOut(b)
            && (forall e :: e in g.edges ==>
                  base <= e.source.block < base + Size(b) && base <= e.destination.block < base + Size(b))
            && (forall r :: r in g.ins + g.outs ==> base <= r.block < base + Size(b))
  {
    CompilesParts(b);
    EdgesInside(b, base);
    hide Flatten;
  }

  lemma LeafEdges(leaf: Leaf, base: nat)
    requires Compiles(Unit(leaf)) && leaf.nIn == leaf.nOut == 1
    ensures Flatten(Unit(leaf), base) == Graph([leaf], [], [PortRef(base, 0)], [PortRef(base, 0)])
  {
  }

  lemma LoopIsPassedOn(f: Graph, k: Graph, m: Option<Graph>, leaf: Leaf, i: nat, base: nat, z: Sample)
    requires Loopable(f, k, m, i) && |f.blocks| == base && |f.outs| == 1
    requires k == Graph([leaf], [], [PortRef(base, 0)], [PortRef(base, 0)]) && leaf.nIn == 1
    requires leaf.step(leaf.state, [z]) == (leaf.state, [z])
    requires forall e :: e in f.edges ==> e.source.block < base && e.destination.block < base
    requires forall r :: r in f.ins + f.outs ==> r.block < base
    requires m.Some? ==> forall e :: e in m.value.edges ==> base < e.source.block
    requires m.Some? ==> forall r :: r in m.value.ins + m.value.outs ==> base < r.block
    ensures var g := Loop(f, k, m, i, z);
            2 <= |g.edges| && PassesOn(g, |g.edges| - 2, base, |g.edges| - 1, z)
  {
    var g := Loop(f, k, m, i, z);
    assert f.ins[i] in f.ins + f.outs && f.outs[0] in f.ins + f.outs;
    if m.Some? { assert m.value.outs[0] in m.value.ins + m.value.outs; }
    forall e | 0 <= e < |g.edges| - 1 ensures g.edges[e].source.block != base {
      assert e < |f.edges| ==> g.edges[e] == f.edges[e] && f.edges[e] in f.edges;
    }
  }
}
