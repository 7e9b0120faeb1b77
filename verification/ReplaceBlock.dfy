/**
 `Graph::replaceBlock` (core/src/Graph.cpp): a block of a graph gives its place, its edges and its buffers to another.
 */
module ReplaceBlock {
  import opened Wrappers

  type Port = nat
  type Handler = nat
  type BlockId = nat

  datatype Edge = Edge(source: BlockId, sourcePort: Port, sourceName: string,
                       destination: BlockId, destinationPort: Port, destinationName: string,
                       settings: string)  // buffer size, weight, name and state

  // What the blocks answer: their names, the ports their definitions name, and whether two ports may exchange buffers.
  datatype World = World(
    uniqueName: BlockId -> string,
    output: (BlockId, string) -> Option<Port>,
    input: (BlockId, string) -> Option<Port>,
    owner: Port -> BlockId,
    exchangeable: (Port, Port) -> bool)
  {
    ghost predicate PortsOwned() {
      && (forall b, d :: output(b, d).Some? ==> owner(output(b, d).value) == b)
      && (forall b, d :: input(b, d).Some? ==> owner(input(b, d).value) == b)
    }

    function Named(b: BlockId, end: End): Option<Port> {
      if end.isOutput then output(b, end.name) else input(b, end.name)
    }
  }

  // the end of an edge on the block, as the edge names its port
  datatype End = End(name: string, isOutput: bool)

  function EndsOf(e: Edge, was: BlockId): seq<End> {
    (if e.source == was then [End(e.sourceName, true)] else [])
    + (if e.destination == was then [End(e.destinationName, false)] else [])
  }

  function Ends(edges: seq<Edge>, was: BlockId): seq<End> {
    if edges == [] then [] else Ends(edges[..|edges| - 1], was) + EndsOf(edges[|edges| - 1], was)
  }

  // --- when a block can replace another ---------------------------------------------------------------------------

  predicate Pairs(w: World, was: BlockId, now: BlockId, a: End) {
    w.Named(was, a).Some? && w.Named(now, a).Some? && w.exchangeable(w.Named(was, a).value, w.Named(now, a).value)
  }

  // the two ends name one port on both blocks or two ports on both
  predicate Agree(w: World, was: BlockId, now: BlockId, a: End, b: End) {
    w.Named(was, a) == w.Named(was, b) <==> w.Named(now, a) == w.Named(now, b)
  }

  ghost predicate OneToOne(w: World, was: BlockId, now: BlockId, ends: seq<End>) {
    && (forall a :: a in ends ==> Pairs(w, was, now, a))
    && (forall a, b :: a in ends && b in ends ==> Agree(w, was, now, a, b))
  }

  function FindBlock(w: World, blocks: seq<BlockId>, name: string): (r: Option<nat>)
    ensures r.Some? ==> r.value < |blocks| && w.uniqueName(blocks[r.value]) == name
    ensures r.None? ==> forall i :: 0 <= i < |blocks| ==> w.uniqueName(blocks[i]) != name
  {
    if blocks == [] then None
    else if w.uniqueName(blocks[0]) == name then Some(0)
    else match FindBlock(w, blocks[1..], name) case None => None case Some(i) => Some(i + 1)
  }

  ghost predicate Replaceable(w: World, blocks: seq<BlockId>, edges: seq<Edge>, exported: seq<string>, name: string,
                              loaded: Option<BlockId>) {
    && FindBlock(w, blocks, name).Some? && name !in exported && loaded.Some?
    && var was := blocks[FindBlock(w, blocks, name).value];
       OneToOne(w, was, loaded.value, Ends(edges, was))
  }

  function Moved(w: World, was: BlockId, now: BlockId, e: Edge): Edge {
    e.(source := if e.source == was then now else e.source,
       sourcePort := if e.source == was then w.output(now, e.sourceName).GetOr(e.sourcePort) else e.sourcePort,
       destination := if e.destination == was then now else e.destination,
       destinationPort := if e.destination == was then w.input(now, e.destinationName).GetOr(e.destinationPort)
                          else e.destinationPort)
  }

  // --- pairs ------------------------------------------------------------------------------------------------------

  datatype PortPair = PortPair(oldPort: Port, newPort: Port)

  function PairOf(w: World, was: BlockId, now: BlockId, a: End): PortPair
    requires Pairs(w, was, now, a)
  {
    PortPair(w.Named(was, a).value, w.Named(now, a).value)
  }

  // the pairs of some ends, each pair once
  ghost predicate PairsOf(w: World, was: BlockId, now: BlockId, ends: seq<End>, pairs: seq<PortPair>) {
    && (forall a :: a in ends ==> Pairs(w, was, now, a) && PairOf(w, was, now, a) in pairs)
    && (forall p :: p in pairs ==> exists a :: a in ends && Pairs(w, was, now, a) && PairOf(w, was, now, a) == p)
    && Once(pairs)
  }

  // no port stands in two pairs
  ghost predicate Once(pairs: seq<PortPair>) {
    forall i, j :: 0 <= i < j < |pairs| ==> pairs[i].oldPort != pairs[j].oldPort && pairs[i].newPort != pairs[j].newPort
  }

  function Exchange(handlers: map<Port, Handler>, p: PortPair): map<Port, Handler>
    requires p.oldPort in handlers && p.newPort in handlers
  {
    handlers[p.oldPort := handlers[p.newPort]][p.newPort := handlers[p.oldPort]]
  }

  function Exchanged(handlers: map<Port, Handler>, pairs: seq<PortPair>): (r: map<Port, Handler>)
    requires forall p :: p in pairs ==> p.oldPort in handlers && p.newPort in handlers
    ensures r.Keys == handlers.Keys
  {
    if pairs == [] then handlers else Exchange(Exchanged(handlers, pairs[..|pairs| - 1]), pairs[|pairs| - 1])
  }

  // no port stands in two pairs, and no new port is an old one
  ghost predicate Separate(pairs: seq<PortPair>) {
    && Once(pairs)
    && (forall i, j :: 0 <= i < |pairs| && 0 <= j < |pairs| ==> pairs[i].oldPort != pairs[j].newPort)
  }

  lemma {:induction false} ExchangedElsewhere(handlers: map<Port, Handler>, pairs: seq<PortPair>, port: Port)
    requires forall p :: p in pairs ==> p.oldPort in handlers && p.newPort in handlers
    requires port in handlers && forall p :: p in pairs ==> p.oldPort != port && p.newPort != port
    ensures Exchanged(handlers, pairs)[port] == handlers[port]
  {
    if pairs != [] {
      assert pairs[|pairs| - 1] in pairs;
      ExchangedElsewhere(handlers, pairs[..|pairs| - 1], port);
    }
  }

  lemma ExchangedLast(handlers: map<Port, Handler>, pairs: seq<PortPair>)
    requires pairs != [] && forall p :: p in pairs ==> p.oldPort in handlers && p.newPort in handlers
    ensures pairs[|pairs| - 1] in pairs
    ensures Exchanged(handlers, pairs) == Exchange(Exchanged(handlers, pairs[..|pairs| - 1]), pairs[|pairs| - 1])
  {
    hide Exchange;
  }

  // Each pair's ports have changed buffers, once.
  lemma {:induction false} ExchangedAt(handlers: map<Port, Handler>, pairs: seq<PortPair>, i: nat)
    requires forall p :: p in pairs ==> p.oldPort in handlers && p.newPort in handlers
    requires Separate(pairs) && i < |pairs|
    ensures var p, after := pairs[i], Exchanged(handlers, pairs);
            after[p.newPort] == handlers[p.oldPort] && after[p.oldPort] == handlers[p.newPort]
  {
    hide Exchanged;
    var k := |pairs| - 1;
    ExchangedLast(handlers, pairs);
    assert pairs[k] in pairs && pairs[i] in pairs;
    if i < k {
      ExchangedAt(handlers, pairs[..k], i);
    } else {
      ExchangedElsewhere(handlers, pairs[..k], pairs[k].oldPort);
      ExchangedElsewhere(handlers, pairs[..k], pairs[k].newPort);
    }
  }

  lemma PairsSeparate(w: World, was: BlockId, now: BlockId, ends: seq<End>, pairs: seq<PortPair>)
    requires w.PortsOwned() && was != now && PairsOf(w, was, now, ends, pairs)
    ensures Separate(pairs)
  {
    forall i, j | 0 <= i < |pairs| && 0 <= j < |pairs| ensures pairs[i].oldPort != pairs[j].newPort {
      assert pairs[i] in pairs && pairs[j] in pairs;
    }
  }

  datatype Result = Threw | Replaced(was: BlockId, now: BlockId)

  lemma PairsAgree(w: World, was: BlockId, now: BlockId, ends: seq<End>, pairs: seq<PortPair>)
    requires PairsOf(w, was, now, ends, pairs)
    ensures OneToOne(w, was, now, ends)
  {
    forall a, b | a in ends && b in ends ensures Agree(w, was, now, a, b) {
      var p, q := PairOf(w, was, now, a), PairOf(w, was, now, b);
      var i :| 0 <= i < |pairs| && pairs[i] == p;
      var j :| 0 <= j < |pairs| && pairs[j] == q;
    }
  }

  // A further end that pairs and agrees with every pair, added unless its port is paired.
  lemma PairAdded(w: World, was: BlockId, now: BlockId, ends: seq<End>, pairs: seq<PortPair>, a: End)
    requires PairsOf(w, was, now, ends, pairs) && Pairs(w, was, now, a)
    requires var p := PairOf(w, was, now, a);
             forall q :: q in pairs ==> (q.oldPort == p.oldPort <==> q.newPort == p.newPort)
    ensures var p := PairOf(w, was, now, a);
            var held := exists q :: q in pairs && q.oldPort == p.oldPort;
            PairsOf(w, was, now, ends + [a], if held then pairs else pairs + [p])
  {
  }

  // A pair that disagrees belongs to an end that disagrees.
  lemma Disagrees(w: World, was: BlockId, now: BlockId, ends: seq<End>, pairs: seq<PortPair>, all: seq<End>, a: End,
                  q: PortPair)
    requires PairsOf(w, was, now, ends, pairs) && Pairs(w, was, now, a) && q in pairs
    requires (q.oldPort == w.Named(was, a).value) != (q.newPort == w.Named(now, a).value)
    requires a in all && forall b :: b in ends ==> b in all
    ensures !OneToOne(w, was, now, all)
  {
    var b :| b in ends && Pairs(w, was, now, b) && PairOf(w, was, now, b) == q;
    assert !Agree(w, was, now, a, b);
  }

  // --- what a replacement keeps -----------------------------------------------------------------------------------

  // the edges' ports are the ones they name
  ghost predicate Connected(w: World, e: Edge) {
    && w.output(e.source, e.sourceName) == Some(e.sourcePort)
    && w.input(e.destination, e.destinationName) == Some(e.destinationPort)
  }

  datatype Side = Source | Destination

  function BlockAt(e: Edge, side: Side): BlockId { if side.Source? then e.source else e.destination }

  function PortAt(e: Edge, side: Side): Port { if side.Source? then e.sourcePort else e.destinationPort }

  lemma NoEdgeNamesReplaced(w: World, was: BlockId, now: BlockId, e: Edge)
    requires was != now
    ensures Moved(w, was, now, e).source != was && Moved(w, was, now, e).destination != was
    ensures Moved(w, was, now, e).settings == e.settings
    ensures Moved(w, was, now, e).sourceName == e.sourceName
      && Moved(w, was, now, e).destinationName == e.destinationName
  {
  }

  lemma {:induction false} EndIsListed(edges: seq<Edge>, was: BlockId, i: nat)
    requires i < |edges|
    ensures edges[i].source == was ==> End(edges[i].sourceName, true) in Ends(edges, was)
    ensures edges[i].destination == was ==> End(edges[i].destinationName, false) in Ends(edges, was)
  {
    if i < |edges| - 1 {
      EndIsListed(edges[..|edges| - 1], was, i);
    }
  }

  function EndAt(e: Edge, side: Side): End {
    if side.Source? then End(e.sourceName, true) else End(e.destinationName, false)
  }

  lemma {:induction false} ListedIsEnd(edges: seq<Edge>, was: BlockId, a: End)
    requires a in Ends(edges, was)
    ensures exists i, side :: 0 <= i < |edges| && BlockAt(edges[i], side) == was && EndAt(edges[i], side) == a
  {
    var k := |edges| - 1;
    if a in Ends(edges[..k], was) {
      ListedIsEnd(edges[..k], was, a);
      var i, side :| 0 <= i < k && BlockAt(edges[..k][i], side) == was && EndAt(edges[..k][i], side) == a;
      assert BlockAt(edges[i], side) == was && EndAt(edges[i], side) == a;
    } else {
      var side := if edges[k].source == was && a == End(edges[k].sourceName, true) then Source else Destination;
      assert BlockAt(edges[k], side) == was && EndAt(edges[k], side) == a;
    }
  }

  // the ends of two edges on the block name one port there
  predicate SharePort(w: World, b: BlockId, e: Edge, s: Side, f: Edge, t: Side) {
    w.Named(b, EndAt(e, s)) == w.Named(b, EndAt(f, t))
  }

  // Both blocks have a port for each end on the block, and the two may exchange buffers. The ends that share a port of
  // the one share a port of the other.
  ghost predicate PortsMatch(w: World, edges: seq<Edge>, was: BlockId, now: BlockId) {
    && (forall i, s :: 0 <= i < |edges| && BlockAt(edges[i], s) == was ==>
          var o, n := w.Named(was, EndAt(edges[i], s)), w.Named(now, EndAt(edges[i], s));
          o.Some? && n.Some? && w.exchangeable(o.value, n.value))
    && (forall i, s, j, t :: 0 <= i < |edges| && 0 <= j < |edges| ==>
          (BlockAt(edges[i], s) == was && BlockAt(edges[j], t) == was ==>
             (SharePort(w, was, edges[i], s, edges[j], t) <==> SharePort(w, now, edges[i], s, edges[j], t))))
  }

  lemma ListedEnd(edges: seq<Edge>, was: BlockId, i: nat, s: Side)
    requires i < |edges| && BlockAt(edges[i], s) == was
    ensures EndAt(edges[i], s) in Ends(edges, was)
  {
    EndIsListed(edges, was, i);
  }

  lemma OneToOneIsMatch(w: World, edges: seq<Edge>, was: BlockId, now: BlockId)
    ensures OneToOne(w, was, now, Ends(edges, was)) <==> PortsMatch(w, edges, was, now)
  {
    forall i: nat, s | i < |edges| && BlockAt(edges[i], s) == was ensures EndAt(edges[i], s) in Ends(edges, was) {
      ListedEnd(edges, was, i, s);
    }
    forall a | a in Ends(edges, was)
      ensures exists i, s :: 0 <= i < |edges| && BlockAt(edges[i], s) == was && EndAt(edges[i], s) == a
    {
      ListedIsEnd(edges, was, a);
    }
    hide Ends, BlockAt, EndAt;
    if OneToOne(w, was, now, Ends(edges, was)) {
      MatchFromOneToOne(w, edges, was, now);
    }
    if PortsMatch(w, edges, was, now) {
      OneToOneFromMatch(w, edges, was, now);
    }
  }

  // A block can be replaced exactly when it is the first of its name, no port of it is exported, the loader gives the
  // other one, and their ports match.
  lemma ReplaceableIs(w: World, blocks: seq<BlockId>, edges: seq<Edge>, exported: seq<string>, name: string,
                      loaded: Option<BlockId>)
    ensures Replaceable(w, blocks, edges, exported, name, loaded) <==>
      && name !in exported && loaded.Some?
      && exists k :: 0 <= k < |blocks| && FirstNamed(w, blocks, name, k)
           && PortsMatch(w, edges, blocks[k], loaded.value)
  {
    hide OneToOne, PortsMatch, Ends;
    FoundIsFirst(w, blocks, name);
    var found := FindBlock(w, blocks, name);
    if found.Some? && loaded.Some? {
      OneToOneIsMatch(w, edges, blocks[found.value], loaded.value);
    }
  }

  ghost predicate FirstNamed(w: World, blocks: seq<BlockId>, name: string, k: nat) {
    k < |blocks| && w.uniqueName(blocks[k]) == name && forall j :: 0 <= j < k ==> w.uniqueName(blocks[j]) != name
  }

  lemma {:induction false} FoundIsFirst(w: World, blocks: seq<BlockId>, name: string)
    ensures forall k: nat :: FirstNamed(w, blocks, name, k) <==> FindBlock(w, blocks, name) == Some(k)
  {
    if blocks != [] && w.uniqueName(blocks[0]) != name {
      FoundIsFirst(w, blocks[1..], name);
      forall k: nat ensures FirstNamed(w, blocks, name, k) <==> 0 < k && FirstNamed(w, blocks[1..], name, k - 1) {
        if 0 < k < |blocks| {
          assert forall j :: 0 < j <= k ==> blocks[j] == blocks[1..][j - 1];
        }
      }
    }
  }

  lemma MatchFromOneToOne(w: World, edges: seq<Edge>, was: BlockId, now: BlockId)
    requires OneToOne(w, was, now, Ends(edges, was))
    requires forall i, s :: 0 <= i < |edges| && BlockAt(edges[i], s) == was ==> EndAt(edges[i], s) in Ends(edges, was)
    ensures PortsMatch(w, edges, was, now)
  {
    hide Ends, BlockAt, EndAt;
    forall i, s | 0 <= i < |edges| && BlockAt(edges[i], s) == was ensures Pairs(w, was, now, EndAt(edges[i], s)) {
    }
    forall i, s, j, t | 0 <= i < |edges| && 0 <= j < |edges|
        && BlockAt(edges[i], s) == was && BlockAt(edges[j], t) == was
      ensures SharePort(w, was, edges[i], s, edges[j], t) <==> SharePort(w, now, edges[i], s, edges[j], t)
    {
      assert Agree(w, was, now, EndAt(edges[i], s), EndAt(edges[j], t));
    }
  }

  lemma OneToOneFromMatch(w: World, edges: seq<Edge>, was: BlockId, now: BlockId)
    requires PortsMatch(w, edges, was, now)
    requires forall a :: a in Ends(edges, was) ==>
      exists i, s :: 0 <= i < |edges| && BlockAt(edges[i], s) == was && EndAt(edges[i], s) == a
    ensures OneToOne(w, was, now, Ends(edges, was))
  {
    hide Ends, BlockAt, EndAt;
    forall a, b | a in Ends(edges, was) && b in Ends(edges, was) ensures Agree(w, was, now, a, b) {
      var i, s :| 0 <= i < |edges| && BlockAt(edges[i], s) == was && EndAt(edges[i], s) == a;
      var j, t :| 0 <= j < |edges| && BlockAt(edges[j], t) == was && EndAt(edges[j], t) == b;
      assert SharePort(w, was, edges[i], s, edges[j], t) <==> SharePort(w, now, edges[i], s, edges[j], t);
    }
  }

  // where an end lies once the block is replaced
  lemma MovedEnd(w: World, was: BlockId, now: BlockId, edges: seq<Edge>, i: nat, side: Side)
    requires OneToOne(w, was, now, Ends(edges, was)) && i < |edges| && Connected(w, edges[i])
    ensures var e, e' := edges[i], Moved(w, was, now, edges[i]);
            && w.Named(BlockAt(e, side), EndAt(e, side)) == Some(PortAt(e, side))
            && w.Named(BlockAt(e', side), EndAt(e, side)) == Some(PortAt(e', side))
            && BlockAt(e', side) == (if BlockAt(e, side) == was then now else BlockAt(e, side))
            && (BlockAt(e, side) == was ==> EndAt(e, side) in Ends(edges, was))
            && (BlockAt(e, side) != was ==> PortAt(e', side) == PortAt(e, side))
            && Connected(w, e')
  {
    EndIsListed(edges, was, i);
    hide Ends;
    assert edges[i].source == was ==> Pairs(w, was, now, End(edges[i].sourceName, true));
    assert edges[i].destination == was ==> Pairs(w, was, now, End(edges[i].destinationName, false));
  }

  // Two ends of any two edges, or of one, share a port after exactly when they did before.
  lemma PortsSharedAsBefore(w: World, was: BlockId, now: BlockId, edges: seq<Edge>, i: nat, s: Side, j: nat, t: Side)
    requires w.PortsOwned() && OneToOne(w, was, now, Ends(edges, was)) && i < |edges| && j < |edges|
    requires forall e :: e in edges ==> Connected(w, e) && e.source != now && e.destination != now
    ensures PortAt(Moved(w, was, now, edges[i]), s) == PortAt(Moved(w, was, now, edges[j]), t)
      <==> PortAt(edges[i], s) == PortAt(edges[j], t)
  {
    MovedEnd(w, was, now, edges, i, s);
    MovedEnd(w, was, now, edges, j, t);
    hide Ends, Moved;
    if BlockAt(edges[i], s) == was && BlockAt(edges[j], t) == was {
      assert Agree(w, was, now, EndAt(edges[i], s), EndAt(edges[j], t));
    }
  }

  // Every edge end reads or writes the buffer it did before: on its old port if its block stays, on its new port if
  // not.
  lemma BuffersFollowEnds(w: World, was: BlockId, now: BlockId, edges: seq<Edge>, pairs: seq<PortPair>,
                          handlers: map<Port, Handler>, i: nat, side: Side)
    requires w.PortsOwned() && was != now && PairsOf(w, was, now, Ends(edges, was), pairs) && i < |edges|
    requires forall p :: p in pairs ==> p.oldPort in handlers && p.newPort in handlers
    requires forall e :: e in edges ==> Connected(w, e) && e.source != now && e.destination != now
    requires PortAt(edges[i], side) in handlers
    ensures var after := Exchanged(handlers, pairs);
            var port := PortAt(Moved(w, was, now, edges[i]), side);
            port in after && after[port] == handlers[PortAt(edges[i], side)]
  {
    PairsAgree(w, was, now, Ends(edges, was), pairs);
    PairsSeparate(w, was, now, Ends(edges, was), pairs);
    MovedEnd(w, was, now, edges, i, side);
    hide Ends, Moved, Exchanged;
    var e, a := edges[i], EndAt(edges[i], side);
    if BlockAt(e, side) == was {
      var p := PairOf(w, was, now, a);
      var j :| 0 <= j < |pairs| && pairs[j] == p;
      ExchangedAt(handlers, pairs, j);
    } else {
      forall p | p in pairs ensures p.oldPort != PortAt(e, side) && p.newPort != PortAt(e, side) {
        assert w.owner(PortAt(e, side)) == BlockAt(e, side);
      }
      ExchangedElsewhere(handlers, pairs, PortAt(e, side));
    }
  }

  // --- the graph --------------------------------------------------------------------------------------------------

  class Graph {
    const w: World
    var blocks: seq<BlockId>
    var edges: seq<Edge>
    var exported: seq<string>
    var handlers: map<Port, Handler>

    // what the loader gives is a block of its own, whose ports exist
    ghost predicate CanLoad(loaded: Option<BlockId>)
      reads this
    {
      && (loaded.Some? ==> loaded.value !in blocks)
      && (forall b, d :: w.output(b, d).Some? ==> w.output(b, d).value in handlers)
      && (forall b, d :: w.input(b, d).Some? ==> w.input(b, d).value in handlers)
    }

    method ReplaceBlock(name: string, loaded: Option<BlockId>) returns (r: Result, ghost pairs: seq<PortPair>)
      requires CanLoad(loaded)
      modifies this
      ensures r.Threw? <==> !Replaceable(w, old(blocks), old(edges), exported, name, loaded)
      ensures r.Threw? ==> blocks == old(blocks) && edges == old(edges) && handlers == old(handlers)
      ensures exported == old(exported)
      ensures r.Replaced? ==>
        var k := FindBlock(w, old(blocks), name).value;
        && r == Replaced(old(blocks)[k], loaded.value) && r.was != r.now
        && blocks == old(blocks)[k := r.now]
        && |edges| == |old(edges)|
        && (forall i :: 0 <= i < |edges| ==> edges[i] == Moved(w, r.was, r.now, old(edges)[i]))
        && PairsOf(w, r.was, r.now, Ends(old(edges), r.was), pairs)
        && (forall p :: p in pairs ==> p.oldPort in old(handlers) && p.newPort in old(handlers))
        && handlers == Exchanged(old(handlers), pairs)
    {
      pairs := [];
      var at := FindBlock(w, blocks, name);
      if at.None? || name in exported || loaded.None? {
        return Threw, pairs;
      }
      var was, now := blocks[at.value], loaded.value;
      var ok, found, takenOver := PairEnds(was, now);
      pairs := found;
      if !ok {
        return Threw, pairs;
      }
      ExchangeAll(found, was, now);
      TakeOver(takenOver, was, now);
      blocks := blocks[at.value := now];
      r := Replaced(was, now);
    }

    // the loop over the edges, before anything changes
    method PairEnds(was: BlockId, now: BlockId) returns (ok: bool, pairs: seq<PortPair>, takenOver: seq<TakenOver>)
      ensures ok <==> OneToOne(w, was, now, Ends(edges, was))
      ensures ok ==> PairsOf(w, was, now, Ends(edges, was), pairs) && Covers(w, edges, was, now, takenOver, |edges|)
    {
      hide PairsOf, OneToOne, Ends, Covers;
      ok, pairs, takenOver := true, [], [];
      NoEnds(w, edges, was, now);
      for index := 0 to |edges|
        invariant ok && PairsOf(w, was, now, Ends(edges[..index], was), pairs)
        invariant Covers(w, edges, was, now, takenOver, index)
      {
        EndsGrow(edges, was, index);
        var source, destination;
        ghost var ends, all := Ends(edges[..index], was), Ends(edges, was);
        ok, pairs, source, destination := PairEdge(was, now, edges[index], pairs, ends, all);
        if !ok {
          return;
        }
        CoversNext(w, edges, was, now, takenOver, index, source, destination);
        if edges[index].source == was || edges[index].destination == was {
          takenOver := takenOver + [TakenOver(index, source, destination)];
        }
      }
      assert edges[..|edges|] == edges;
      PairsAgree(w, was, now, Ends(edges, was), pairs);
    }

    // the ports the edge gets, once each of its ends on the block has a pair
    method PairEdge(was: BlockId, now: BlockId, edge: Edge, held: seq<PortPair>,
                    ghost ends: seq<End>, ghost all: seq<End>)
      returns (ok: bool, pairs: seq<PortPair>, source: Port, destination: Port)
      requires PairsOf(w, was, now, ends, held)
      requires (forall b :: b in ends ==> b in all) && forall b :: b in EndsOf(edge, was) ==> b in all
      ensures !ok ==> !OneToOne(w, was, now, all)
      ensures ok ==> PairsOf(w, was, now, ends + EndsOf(edge, was), pairs)
      ensures ok && edge.source == was ==> w.output(now, edge.sourceName) == Some(source)
      ensures ok && edge.destination == was ==> w.input(now, edge.destinationName) == Some(destination)
    {
      hide PairsOf, OneToOne;
      ok, pairs, source, destination := true, held, edge.sourcePort, edge.destinationPort;
      ghost var done := ends;
      if edge.source == was {
        assert End(edge.sourceName, true) in EndsOf(edge, was);
        ok, pairs, source := PairPort(was, now, End(edge.sourceName, true), pairs, done, all);
        if !ok {
          return;
        }
        done := done + [End(edge.sourceName, true)];
      }
      if edge.destination == was {
        assert End(edge.destinationName, false) in EndsOf(edge, was);
        ok, pairs, destination := PairPort(was, now, End(edge.destinationName, false), pairs, done, all);
        done := done + [End(edge.destinationName, false)];
      }
      assert done == ends + EndsOf(edge, was);
    }

    method PairPort(was: BlockId, now: BlockId, a: End, pairs: seq<PortPair>, ghost ends: seq<End>, ghost all: seq<End>)
      returns (ok: bool, more: seq<PortPair>, port: Port)
      requires PairsOf(w, was, now, ends, pairs) && a in all && forall b :: b in ends ==> b in all
      ensures !ok ==> !OneToOne(w, was, now, all)
      ensures ok ==> PairsOf(w, was, now, ends + [a], more) && w.Named(now, a) == Some(port)
    {
      ok, more, port := false, pairs, 0;
      var oldPort, newPort := w.Named(was, a), w.Named(now, a);
      if oldPort.None? || newPort.None? || !w.exchangeable(oldPort.value, newPort.value) {
        assert !Pairs(w, was, now, a);
        return;
      }
      var held := false;
      for i := 0 to |pairs|
        invariant held <==> exists q :: q in pairs[..i] && q.oldPort == oldPort.value
        invariant forall q :: q in pairs[..i] ==> (q.oldPort == oldPort.value <==> q.newPort == newPort.value)
      {
        var q := pairs[i];
        assert pairs[..i + 1] == pairs[..i] + [q];
        if (q.oldPort == oldPort.value) != (q.newPort == newPort.value) {
          Disagrees(w, was, now, ends, pairs, all, a, q);
          return;
        }
        held := held || q.oldPort == oldPort.value;
      }
      assert pairs[..|pairs|] == pairs;
      PairAdded(w, was, now, ends, pairs, a);
      ok, port := true, newPort.value;
      if !held {
        more := pairs + [PortPair(oldPort.value, newPort.value)];
      }
    }

    method ExchangeAll(pairs: seq<PortPair>, ghost was: BlockId, ghost now: BlockId)
      requires forall p :: p in pairs ==> p.oldPort in handlers && p.newPort in handlers
      modifies `handlers
      ensures handlers == Exchanged(old(handlers), pairs)
    {
      for i := 0 to |pairs|
        invariant handlers == Exchanged(old(handlers), pairs[..i])
      {
        assert pairs[..i + 1][..i] == pairs[..i];
        var p := pairs[i];
        handlers := handlers[p.oldPort := handlers[p.newPort]][p.newPort := handlers[p.oldPort]];
      }
      assert pairs[..|pairs|] == pairs;
    }

    method TakeOver(takenOver: seq<TakenOver>, was: BlockId, now: BlockId)
      requires Covers(w, edges, was, now, takenOver, |edges|)
      modifies `edges
      ensures |edges| == |old(edges)| && forall i :: 0 <= i < |edges| ==> edges[i] == Moved(w, was, now, old(edges)[i])
    {
      for k := 0 to |takenOver|
        invariant |edges| == |old(edges)|
        invariant forall i :: 0 <= i < |edges| ==>
          edges[i] == if exists m :: 0 <= m < k && takenOver[m].index == i then Moved(w, was, now, old(edges)[i])
                      else old(edges)[i]
      {
        var ports := takenOver[k];
        var edge := edges[ports.index];
        if edge.source == was {
          edge := edge.(source := now, sourcePort := ports.source);
        }
        if edge.destination == was {
          edge := edge.(destination := now, destinationPort := ports.destination);
        }
        edges := edges[ports.index := edge];
      }
    }
  }

  // an edge to take over, and the ports it gets
  datatype TakenOver = TakenOver(index: nat, source: Port, destination: Port) {
    predicate Fits(w: World, edges: seq<Edge>, was: BlockId, now: BlockId)
      requires index < |edges|
    {
      var e := edges[index];
      && (e.source == was ==> w.output(now, e.sourceName) == Some(source))
      && (e.destination == was ==> w.input(now, e.destinationName) == Some(destination))
    }
  }

  // the edges on the block among the first k, each once, with the ports they get
  ghost predicate Covers(w: World, edges: seq<Edge>, was: BlockId, now: BlockId, takenOver: seq<TakenOver>, k: nat)
    requires k <= |edges|
  {
    && (forall m :: 0 <= m < |takenOver| ==> takenOver[m].index < k && takenOver[m].Fits(w, edges, was, now))
    && (forall m, n :: 0 <= m < n < |takenOver| ==> takenOver[m].index < takenOver[n].index)
    && (forall i :: 0 <= i < k && (edges[i].source == was || edges[i].destination == was) ==>
          exists m :: 0 <= m < |takenOver| && takenOver[m].index == i)
  }

  lemma {:induction false} EndsGrow(edges: seq<Edge>, was: BlockId, k: nat)
    requires k < |edges|
    ensures Ends(edges[..k + 1], was) == Ends(edges[..k], was) + EndsOf(edges[k], was)
    ensures forall a :: a in Ends(edges[..k + 1], was) ==> a in Ends(edges, was)
    ensures forall a :: a in EndsOf(edges[k], was) ==> a in Ends(edges, was)
    decreases |edges| - k
  {
    assert edges[..k + 1][..k] == edges[..k];
    if k + 1 < |edges| {
      EndsGrow(edges, was, k + 1);
    } else {
      assert edges[..k + 1] == edges;
    }
  }

  lemma NoEnds(w: World, edges: seq<Edge>, was: BlockId, now: BlockId)
    ensures PairsOf(w, was, now, Ends(edges[..0], was), []) && Covers(w, edges, was, now, [], 0)
  {
  }

  lemma CoversNext(w: World, edges: seq<Edge>, was: BlockId, now: BlockId, takenOver: seq<TakenOver>, k: nat,
                   source: Port, destination: Port)
    requires k < |edges| && Covers(w, edges, was, now, takenOver, k)
    requires edges[k].source == was ==> w.output(now, edges[k].sourceName) == Some(source)
    requires edges[k].destination == was ==> w.input(now, edges[k].destinationName) == Some(destination)
    ensures var on := edges[k].source == was || edges[k].destination == was;
            Covers(w, edges, was, now, if on then takenOver + [TakenOver(k, source, destination)] else takenOver, k + 1)
  {
    if edges[k].source == was || edges[k].destination == was {
      CoversMore(w, edges, was, now, takenOver, k, source, destination);
    }
  }

  lemma CoversMore(w: World, edges: seq<Edge>, was: BlockId, now: BlockId, takenOver: seq<TakenOver>, k: nat,
                   source: Port, destination: Port)
    requires k < |edges| && Covers(w, edges, was, now, takenOver, k)
    requires TakenOver(k, source, destination).Fits(w, edges, was, now)
    ensures Covers(w, edges, was, now, takenOver + [TakenOver(k, source, destination)], k + 1)
  {
    hide TakenOver.Fits;
    var more := takenOver + [TakenOver(k, source, destination)];
    assert forall m :: 0 <= m < |takenOver| ==> more[m] == takenOver[m];
    forall i | 0 <= i < k + 1 && (edges[i].source == was || edges[i].destination == was)
      ensures exists m :: 0 <= m < |more| && more[m].index == i
    {
      if i == k {
        assert more[|takenOver|].index == i;
      } else {
        var m :| 0 <= m < |takenOver| && takenOver[m].index == i;
        assert more[m].index == i;
      }
    }
  }
}
