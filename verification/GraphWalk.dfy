/**
 The depth-first walk of a graph drawing (tools/GraphDoc.hpp): it marks the edges that close a cycle, which the ranking
 leaves out.
 */
module GraphWalk {
  datatype Edge = Edge(from: nat, to: nat)

  datatype Graph = Graph(n: nat, edges: seq<Edge>) {
    ghost predicate Valid() { forall e :: 0 <= e < |edges| ==> edges[e].from < n && edges[e].to < n }
  }

  // --- paths ------------------------------------------------------------------------------------------------------

  // edges one after the other
  ghost predicate Path(g: Graph, p: seq<nat>) {
    && (forall i :: 0 <= i < |p| ==> p[i] < |g.edges|)
    && (forall i :: 0 < i < |p| ==> g.edges[p[i - 1]].to == g.edges[p[i]].from)
  }

  ghost predicate Cycle(g: Graph, p: seq<nat>) {
    p != [] && Path(g, p) && g.edges[p[|p| - 1]].to == g.edges[p[0]].from
  }

  ghost predicate OnCycle(g: Graph, e: nat) { exists p :: Cycle(g, p) && e in p }

  // none of the edges is marked
  ghost predicate Kept(closes: seq<bool>, p: seq<nat>) { forall i :: 0 <= i < |p| ==> p[i] < |closes| && !closes[p[i]] }

  // every node once, each after the nodes its unmarked edges lead to
  ghost predicate FinishOrder(g: Graph, closes: seq<bool>, order: seq<nat>) {
    && |closes| == |g.edges|
    && (forall v: nat :: v in order <==> v < g.n)
    && (forall i, j :: 0 <= i < j < |order| ==> order[i] != order[j])
    && (forall i, e :: 0 <= i < |order| && 0 <= e < |g.edges| && g.edges[e].from == order[i] ==>
          closes[e] || g.edges[e].to in order[..i])
  }

  // where a value first stands
  function Position(order: seq<nat>, v: nat): (i: nat)
    requires v in order
    ensures i < |order| && order[i] == v
  {
    if order[0] == v then 0 else 1 + Position(order[1..], v)
  }

  lemma KeptEdgeDescends(g: Graph, closes: seq<bool>, order: seq<nat>, e: nat)
    requires g.Valid() && FinishOrder(g, closes, order) && e < |g.edges| && !closes[e]
    ensures g.edges[e].from in order && g.edges[e].to in order
    ensures Position(order, g.edges[e].to) < Position(order, g.edges[e].from)
  {
    var i := Position(order, g.edges[e].from);
    assert g.edges[e].to in order[..i];
  }

  // A path of unmarked edges goes down in the order by at least its length.
  lemma {:induction false} KeptPathDescends(g: Graph, closes: seq<bool>, order: seq<nat>, p: seq<nat>)
    requires g.Valid() && FinishOrder(g, closes, order) && Path(g, p) && Kept(closes, p) && p != []
    ensures g.edges[p[0]].from in order && g.edges[p[|p| - 1]].to in order
    ensures Position(order, g.edges[p[|p| - 1]].to) + |p| <= Position(order, g.edges[p[0]].from)
  {
    KeptEdgeDescends(g, closes, order, p[0]);
    if |p| > 1 {
      KeptPathDescends(g, closes, order, p[1..]);
    }
  }

  lemma {:induction false} DistinctBelow(s: seq<nat>, n: nat)
    requires (forall i :: 0 <= i < |s| ==> s[i] < n) && (forall i, j :: 0 <= i < j < |s| ==> s[i] != s[j])
    ensures |s| <= n
  {
    assert |s| > 0 ==> s[0] < n;
    if n > 0 {
      if i :| 0 <= i < |s| && s[i] == n - 1 {
        DistinctBelow(s[..i] + s[i + 1..], n - 1);
      } else {
        DistinctBelow(s, n - 1);
      }
    }
  }

  // A path of unmarked edges is shorter than the number of nodes.
  lemma KeptPathShort(g: Graph, closes: seq<bool>, order: seq<nat>, p: seq<nat>)
    requires g.Valid() && FinishOrder(g, closes, order) && Path(g, p) && Kept(closes, p) && 0 < g.n
    ensures |p| < g.n
  {
    if p != [] {
      KeptPathDescends(g, closes, order, p);
      forall i | 0 <= i < |order| ensures order[i] < g.n { assert order[i] in order; }
      DistinctBelow(order, g.n);
    }
  }

  // The edges the walk leaves unmarked form an acyclic graph.
  lemma EveryCycleIsMarked(g: Graph, closes: seq<bool>, order: seq<nat>, p: seq<nat>)
    requires g.Valid() && FinishOrder(g, closes, order) && Cycle(g, p)
    ensures !Kept(closes, p)
  {
    if Kept(closes, p) {
      KeptPathDescends(g, closes, order, p);
      assert false;
    }
  }

  // The walk marks no edge exactly when the graph has no cycle.
  lemma KeepsAllIffAcyclic(g: Graph, closes: seq<bool>, order: seq<nat>)
    requires g.Valid() && FinishOrder(g, closes, order)
    requires forall e :: 0 <= e < |closes| && closes[e] ==> OnCycle(g, e)
    ensures (forall e :: 0 <= e < |closes| ==> !closes[e]) <==> (forall p :: !Cycle(g, p))
  {
    if forall e :: 0 <= e < |closes| ==> !closes[e] {
      forall p | Cycle(g, p) ensures false {
        assert Kept(closes, p);
        EveryCycleIsMarked(g, closes, order, p);
      }
    }
  }

  // --- where a cycle is cut ---------------------------------------------------------------------------------------

  ghost predicate Reaches(g: Graph, u: nat, v: nat) {
    u == v || exists p :: p != [] && Path(g, p) && g.edges[p[0]].from == u && g.edges[p[|p| - 1]].to == v
  }

  // no node before v in the file leads to v
  ghost predicate Rooted(g: Graph, v: nat) { forall u: nat :: Reaches(g, u, v) ==> v <= u }

  // an edge is marked exactly when the node it leads to is not left behind before the node it leaves
  ghost predicate MarksByOrder(g: Graph, closes: seq<bool>, order: seq<nat>)
    requires |closes| == |g.edges|
  {
    forall i, e :: 0 <= i < |order| && 0 <= e < |g.edges| && g.edges[e].from == order[i] ==>
      (closes[e] <==> g.edges[e].to !in order[..i])
  }

  // of the nodes on cycles with it, a node that none before it leads to is left behind last
  ghost predicate RootsLast(g: Graph, order: seq<nat>) {
    forall i, j :: 0 <= i < |order| && 0 <= j < |order| ==>
      (Rooted(g, order[j]) && Reaches(g, order[j], order[i]) && Reaches(g, order[i], order[j]) ==> i <= j)
  }

  lemma EdgeReaches(g: Graph, e: nat)
    requires e < |g.edges|
    ensures Reaches(g, g.edges[e].from, g.edges[e].to)
  {
    var p := [e];
    assert Path(g, p) && p[0] == e;
  }

  lemma ReachesOn(g: Graph, u: nat, v: nat, w: nat)
    requires Reaches(g, u, v) && Reaches(g, v, w)
    ensures Reaches(g, u, w)
  {
    if u != v && v != w {
      var p :| p != [] && Path(g, p) && g.edges[p[0]].from == u && g.edges[p[|p| - 1]].to == v;
      var q :| q != [] && Path(g, q) && g.edges[q[0]].from == v && g.edges[q[|q| - 1]].to == w;
      var r := p + q;
      assert Path(g, r) && r[0] == p[0] && r[|r| - 1] == q[|q| - 1];
    }
  }

  lemma CycleReaches(g: Graph, e: nat)
    requires OnCycle(g, e)
    ensures e < |g.edges| && Reaches(g, g.edges[e].to, g.edges[e].from)
  {
    var p :| Cycle(g, p) && e in p;
    var k: nat :| k < |p| && p[k] == e;
    var a, b := p[k + 1..], p[..k];
    assert a != [] ==> Path(g, a) && a[0] == p[k + 1] && a[|a| - 1] == p[|p| - 1];
    assert b != [] ==> Path(g, b) && b[0] == p[0] && b[|b| - 1] == p[k - 1];
    var top := g.edges[p[0]].from;
    assert Reaches(g, g.edges[e].to, top);
    assert Reaches(g, top, g.edges[e].from);
    ReachesOn(g, g.edges[e].to, top, g.edges[e].from);
  }

  // A cycle is cut at the node that comes first in the file: where no node before v leads to v, every edge of a cycle
  // that leads to v is marked, and no edge that leaves v but one back to itself.
  lemma CycleIsCutAtRoot(g: Graph, closes: seq<bool>, order: seq<nat>, e: nat)
    requires g.Valid() && FinishOrder(g, closes, order) && MarksByOrder(g, closes, order) && RootsLast(g, order)
    requires OnCycle(g, e) && e < |g.edges|
    ensures Rooted(g, g.edges[e].to) ==> closes[e]
    ensures Rooted(g, g.edges[e].from) ==> (closes[e] <==> g.edges[e].to == g.edges[e].from)
  {
    hide Rooted, Reaches, OnCycle;
    var u, v := g.edges[e].from, g.edges[e].to;
    CycleReaches(g, e);
    EdgeReaches(g, e);
    assert u in order && v in order;
    var i, j := Position(order, u), Position(order, v);
    assert closes[e] <==> v !in order[..i];
    assert v in order[..i] <==> j < i by {
      if v in order[..i] { var k :| 0 <= k < i && order[k] == v; }
    }
  }

  // --- the walk ---------------------------------------------------------------------------------------------------

  // the first k edges that leave v, in the order of the file
  function EdgesFrom(g: Graph, v: nat, k: nat): (r: seq<nat>)
    requires k <= |g.edges|
    ensures forall e: nat :: e in r <==> e < k && g.edges[e].from == v
  {
    if k == 0 then [] else EdgesFrom(g, v, k - 1) + if g.edges[k - 1].from == v then [k - 1] else []
  }

  function Outgoing(g: Graph, v: nat): (r: seq<nat>)
    ensures forall e: nat :: e in r <==> e < |g.edges| && g.edges[e].from == v
  {
    EdgesFrom(g, v, |g.edges|)
  }

  // A node's edges are followed in the order of the file, each once.
  lemma {:induction false} EdgesRise(g: Graph, v: nat, k: nat)
    requires k <= |g.edges|
    ensures forall i, j :: 0 <= i < j < |EdgesFrom(g, v, k)| ==> EdgesFrom(g, v, k)[i] < EdgesFrom(g, v, k)[j]
  {
    if k > 0 {
      EdgesRise(g, v, k - 1);
      var before := EdgesFrom(g, v, k - 1);
      assert forall i :: 0 <= i < |before| ==> before[i] in before;
    }
  }

  // a node on the walk, and how many of its edges have been followed
  datatype Frame = Frame(node: nat, next: nat)

  const UNREACHED: nat := 0
  const ON_WALK: nat := 1
  const LEFT_BEHIND: nat := 2

  // The walk's variables, with the edges between its nodes and the nodes left behind, in order.
  datatype Walk = Walk(state: seq<nat>, frames: seq<Frame>, closes: seq<bool>, tree: seq<nat>, done: seq<nat>)

  ghost predicate Shape(g: Graph, w: Walk) {
    && |w.state| == g.n && |w.closes| == |g.edges|
    && (forall v :: 0 <= v < g.n ==> w.state[v] <= 2)
    && (forall i :: 0 <= i < |w.frames| ==>
          w.frames[i].node < g.n && w.frames[i].next <= |Outgoing(g, w.frames[i].node)|)
  }

  // the states say where each node is
  ghost predicate States(g: Graph, w: Walk)
    requires Shape(g, w)
  {
    && (forall i :: 0 <= i < |w.frames| ==> w.state[w.frames[i].node] == ON_WALK)
    && (forall i, j :: 0 <= i < j < |w.frames| ==> w.frames[i].node != w.frames[j].node)
    && (forall v :: 0 <= v < g.n && w.state[v] == ON_WALK ==> exists i :: 0 <= i < |w.frames| && w.frames[i].node == v)
    && (forall v: nat :: v in w.done <==> v < g.n && w.state[v] == LEFT_BEHIND)
    && (forall i, j :: 0 <= i < j < |w.done| ==> w.done[i] != w.done[j])
  }

  // each frame's last edge leads to the next frame
  ghost predicate Chained(g: Graph, w: Walk)
    requires Shape(g, w)
  {
    && (w.frames == [] ==> w.tree == [])
    && (w.frames != [] ==> |w.tree| + 1 == |w.frames|)
    && (forall i :: 0 <= i < |w.tree| ==>
          && 0 < w.frames[i].next
          && w.tree[i] == Outgoing(g, w.frames[i].node)[w.frames[i].next - 1]
          && w.tree[i] < |g.edges| && g.edges[w.tree[i]].from == w.frames[i].node
          && g.edges[w.tree[i]].to == w.frames[i + 1].node)
  }

  ghost predicate Finished(g: Graph, w: Walk)
    requires Shape(g, w)
  {
    forall i, e :: 0 <= i < |w.done| && 0 <= e < |g.edges| && g.edges[e].from == w.done[i] ==>
      w.closes[e] || g.edges[e].to in w.done[..i]
  }

  // an edge that has been followed is marked, or leads to a node left behind, or is the walk's own
  ghost predicate Followed(g: Graph, w: Walk, i: nat)
    requires Shape(g, w) && i < |w.frames|
  {
    forall k :: 0 <= k < w.frames[i].next ==>
      var e := Outgoing(g, w.frames[i].node)[k];
      e < |g.edges| && (w.closes[e] || g.edges[e].to in w.done || (i + 1 < |w.frames| && k == w.frames[i].next - 1))
  }

  ghost predicate MarkedOnCycles(g: Graph, closes: seq<bool>) {
    forall e :: 0 <= e < |closes| && closes[e] ==> OnCycle(g, e)
  }

  ghost predicate WalkInv(g: Graph, w: Walk) {
    && Shape(g, w) && States(g, w) && Chained(g, w) && Finished(g, w)
    && (forall i :: 0 <= i < |w.frames| ==> Followed(g, w, i))
    && MarkedOnCycles(g, w.closes)
  }

  // an unreached node begins a walk
  function Started(w: Walk, v: nat): Walk
    requires v < |w.state|
  {
    w.(state := w.state[v := ON_WALK], frames := [Frame(v, 0)])
  }

  function Left(w: Walk): Walk
    requires w.frames != [] && w.frames[|w.frames| - 1].node < |w.state|
  {
    var node, k := w.frames[|w.frames| - 1].node, |w.frames| - 1;
    w.(state := w.state[node := LEFT_BEHIND], frames := w.frames[..k], done := w.done + [node],
       tree := if k == 0 || |w.tree| < k then [] else w.tree[..k - 1])
  }

  function Advanced(w: Walk): Walk
    requires w.frames != []
  {
    var k := |w.frames| - 1;
    w.(frames := w.frames[k := w.frames[k].(next := w.frames[k].next + 1)])
  }

  function Marked(w: Walk, e: nat): Walk
    requires w.frames != [] && e < |w.closes|
  {
    Advanced(w).(closes := w.closes[e := true])
  }

  function Entered(w: Walk, e: nat, v: nat): Walk
    requires w.frames != [] && v < |w.state|
  {
    var a := Advanced(w);
    a.(state := w.state[v := ON_WALK], frames := a.frames + [Frame(v, 0)], tree := w.tree + [e])
  }

  // One step changes the frame on top at most, marks no fewer edges and leaves no fewer nodes behind.
  lemma FollowedKeeps(g: Graph, w: Walk, w': Walk, i: nat)
    requires Shape(g, w) && Shape(g, w') && Chained(g, w) && i < |w.frames| && i < |w'.frames| && Followed(g, w, i)
    requires w'.frames[i] == w.frames[i]
    requires forall e :: 0 <= e < |g.edges| && w.closes[e] ==> w'.closes[e]
    requires forall v :: v in w.done ==> v in w'.done
    requires i + 1 < |w.frames| ==> i + 1 < |w'.frames| || w.frames[i + 1].node in w'.done
    ensures Followed(g, w', i)
  {
    forall k | 0 <= k < w'.frames[i].next
      ensures var e := Outgoing(g, w'.frames[i].node)[k];
              && e < |g.edges|
              && (w'.closes[e] || g.edges[e].to in w'.done || (i + 1 < |w'.frames| && k == w'.frames[i].next - 1))
    {
      var e := Outgoing(g, w.frames[i].node)[k];
      if i + 1 < |w.frames| && k == w.frames[i].next - 1 {
        assert e == w.tree[i];
      }
    }
  }

  // the next edge of the node on top
  ghost predicate Next(g: Graph, w: Walk, e: nat) {
    && w.frames != [] && e < |g.edges|
    && var top := w.frames[|w.frames| - 1];
       top.next < |Outgoing(g, top.node)| && e == Outgoing(g, top.node)[top.next] && g.edges[e].from == top.node
  }

  lemma StartStates(g: Graph, w: Walk, v: nat)
    requires Shape(g, w) && States(g, w) && w.frames == [] && v < g.n && w.state[v] == UNREACHED
    ensures Shape(g, Started(w, v)) && States(g, Started(w, v))
  {
    var w' := Started(w, v);
    assert w'.frames[0].node == v;
    forall u: nat ensures u in w'.done <==> u < g.n && w'.state[u] == LEFT_BEHIND {
      assert u in w.done <==> u < g.n && w.state[u] == LEFT_BEHIND;
    }
  }

  lemma StartKeeps(g: Graph, w: Walk, v: nat)
    requires WalkInv(g, w) && w.frames == [] && v < g.n && w.state[v] == UNREACHED
    ensures WalkInv(g, Started(w, v))
  {
    StartStates(g, w, v);
    hide MarkedOnCycles, States;
  }

  // --- leaving the node on top

  lemma LeaveStates(g: Graph, w: Walk)
    requires Shape(g, w) && States(g, w) && w.frames != []
    ensures Shape(g, Left(w)) && States(g, Left(w))
  {
    var w', k := Left(w), |w.frames| - 1;
    var node := w.frames[k].node;
    forall u | 0 <= u < g.n && w'.state[u] == ON_WALK
      ensures exists i :: 0 <= i < |w'.frames| && w'.frames[i].node == u
    {
      var i :| 0 <= i < |w.frames| && w.frames[i].node == u;
      assert w'.frames[i].node == u;
    }
    forall u: nat ensures u in w'.done <==> u < g.n && w'.state[u] == LEFT_BEHIND {
      assert u in w.done <==> u < g.n && w.state[u] == LEFT_BEHIND;
    }
  }

  lemma LeaveChained(g: Graph, w: Walk)
    requires Shape(g, w) && Chained(g, w) && w.frames != [] && Shape(g, Left(w))
    ensures Chained(g, Left(w))
  {
    hide Outgoing;
    var w' := Left(w);
    forall i | 0 <= i < |w'.tree|
      ensures 0 < w'.frames[i].next
      ensures w'.tree[i] == Outgoing(g, w'.frames[i].node)[w'.frames[i].next - 1]
      ensures w'.tree[i] < |g.edges| && g.edges[w'.tree[i]].from == w'.frames[i].node
      ensures g.edges[w'.tree[i]].to == w'.frames[i + 1].node
    {
      assert w'.tree[i] == w.tree[i] && w'.frames[i] == w.frames[i] && w'.frames[i + 1] == w.frames[i + 1];
    }
  }

  lemma LeaveFinished(g: Graph, w: Walk)
    requires Shape(g, w) && w.frames != [] && Shape(g, Left(w)) && Finished(g, w) && Followed(g, w, |w.frames| - 1)
    requires var top := w.frames[|w.frames| - 1]; top.next == |Outgoing(g, top.node)|
    ensures Finished(g, Left(w))
  {
    var w', node := Left(w), w.frames[|w.frames| - 1].node;
    forall i, e | 0 <= i < |w'.done| && 0 <= e < |g.edges| && g.edges[e].from == w'.done[i]
      ensures w'.closes[e] || g.edges[e].to in w'.done[..i]
    {
      assert i < |w.done| ==> w'.done[..i] == w.done[..i];
      if i == |w.done| {
        assert w'.done[..i] == w.done;
        assert e in Outgoing(g, node);
      }
    }
  }

  lemma LeaveKeeps(g: Graph, w: Walk)
    requires WalkInv(g, w) && w.frames != []
    requires var top := w.frames[|w.frames| - 1]; top.next == |Outgoing(g, top.node)|
    ensures WalkInv(g, Left(w))
  {
    LeaveStates(g, w);
    LeaveChained(g, w);
    LeaveFinished(g, w);
    var w' := Left(w);
    assert w'.done[|w.done|] == w.frames[|w.frames| - 1].node;
    forall i | 0 <= i < |w'.frames| ensures Followed(g, w', i) { FollowedKeeps(g, w, w', i); }
    hide States, Chained, Finished, Followed, MarkedOnCycles;
  }

  // --- following an edge

  lemma CycleThrough(g: Graph, p: seq<nat>, e: nat)
    requires p != [] && Path(g, p) && p[|p| - 1] == e && g.edges[e].to == g.edges[p[0]].from
    ensures OnCycle(g, e)
  {
    assert Cycle(g, p) && e in p;
  }

  // the edge leads back into the walk: with the walk's edges it forms a cycle
  lemma BackEdgeOnCycle(g: Graph, w: Walk, e: nat)
    requires Shape(g, w) && States(g, w) && Chained(g, w) && Next(g, w, e)
    requires g.edges[e].to < g.n && w.state[g.edges[e].to] == ON_WALK
    ensures OnCycle(g, e)
  {
    hide Outgoing, OnCycle, Cycle;
    var i :| 0 <= i < |w.frames| && w.frames[i].node == g.edges[e].to;
    var p := w.tree[i..] + [e];
    assert p[|p| - 1] == e;
    forall j | 0 < j < |p| ensures g.edges[p[j - 1]].to == g.edges[p[j]].from {
      assert p[j - 1] == w.tree[i + j - 1] && (j < |p| - 1 ==> p[j] == w.tree[i + j]);
    }
    assert Path(g, p) && (|p| > 1 ==> p[0] == w.tree[i]);
    CycleThrough(g, p, e);
  }

  lemma AdvanceStates(g: Graph, w: Walk, e: nat)
    requires Shape(g, w) && States(g, w) && Next(g, w, e)
    ensures Shape(g, Advanced(w)) && States(g, Advanced(w))
  {
    var w' := Advanced(w);
    assert forall i :: 0 <= i < |w.frames| ==> w'.frames[i].node == w.frames[i].node;
    forall u | 0 <= u < g.n && w'.state[u] == ON_WALK
      ensures exists i :: 0 <= i < |w'.frames| && w'.frames[i].node == u
    {
      var i :| 0 <= i < |w.frames| && w.frames[i].node == u;
      assert w'.frames[i].node == u;
    }
  }

  // marking the edge, or passing over one to a node left behind
  lemma PassKeeps(g: Graph, w: Walk, e: nat, closes: seq<bool>)
    requires WalkInv(g, w) && Next(g, w, e)
    requires |closes| == |g.edges| && MarkedOnCycles(g, closes)
    requires forall f :: 0 <= f < |closes| && w.closes[f] ==> closes[f]
    requires closes[e] || g.edges[e].to in w.done
    ensures WalkInv(g, Advanced(w).(closes := closes))
  {
    hide MarkedOnCycles;
    var w', k := Advanced(w).(closes := closes), |w.frames| - 1;
    AdvanceStates(g, w, e);
    PassFollowed(g, w, e, closes);
    assert Finished(g, w') by { hide Followed, States, Chained; }
    forall i | 0 <= i < |w'.frames| ensures Followed(g, w', i) { if i < k { FollowedKeeps(g, w, w', i); } }
    hide Followed, Finished;
  }

  lemma PassFollowed(g: Graph, w: Walk, e: nat, closes: seq<bool>)
    requires Shape(g, w) && Next(g, w, e) && Followed(g, w, |w.frames| - 1) && Shape(g, Advanced(w))
    requires |closes| == |g.edges| && forall f :: 0 <= f < |closes| && w.closes[f] ==> closes[f]
    requires closes[e] || g.edges[e].to in w.done
    ensures Followed(g, Advanced(w).(closes := closes), |w.frames| - 1)
  {
  }

  lemma MarkKeeps(g: Graph, w: Walk, e: nat)
    requires g.Valid() && WalkInv(g, w) && Next(g, w, e) && w.state[g.edges[e].to] == ON_WALK
    ensures WalkInv(g, Marked(w, e))
  {
    BackEdgeOnCycle(g, w, e);
    assert MarkedOnCycles(g, w.closes[e := true]) by { hide Shape, States, Chained, Finished, Followed, OnCycle; }
    PassKeeps(g, w, e, w.closes[e := true]);
    hide WalkInv;
  }

  lemma SkipKeeps(g: Graph, w: Walk, e: nat)
    requires g.Valid() && WalkInv(g, w) && Next(g, w, e) && w.state[g.edges[e].to] == LEFT_BEHIND
    ensures WalkInv(g, Advanced(w))
  {
    assert g.edges[e].to in w.done;
    PassKeeps(g, w, e, w.closes);
    hide WalkInv;
  }

  lemma EnterStates(g: Graph, w: Walk, e: nat, v: nat)
    requires Shape(g, w) && States(g, w) && Next(g, w, e) && v < g.n && w.state[v] == UNREACHED
    ensures Shape(g, Entered(w, e, v)) && States(g, Entered(w, e, v))
  {
    AdvanceStates(g, w, e);
    assert w.frames != [];
    PushStates(g, Advanced(w), v, Entered(w, e, v));
  }

  lemma PushStates(g: Graph, a: Walk, v: nat, w': Walk)
    requires Shape(g, a) && States(g, a) && v < g.n && a.state[v] == UNREACHED
    requires w' == a.(state := a.state[v := ON_WALK], frames := a.frames + [Frame(v, 0)], tree := w'.tree)
    ensures Shape(g, w') && States(g, w')
  {
    forall u | 0 <= u < g.n && w'.state[u] == ON_WALK
      ensures exists i :: 0 <= i < |w'.frames| && w'.frames[i].node == u
    {
      if u == v {
        assert w'.frames[|a.frames|].node == u;
      } else {
        var i :| 0 <= i < |a.frames| && a.frames[i].node == u;
        assert w'.frames[i].node == u;
      }
    }
    forall u: nat ensures u in w'.done <==> u < g.n && w'.state[u] == LEFT_BEHIND {
      assert u in a.done <==> u < g.n && a.state[u] == LEFT_BEHIND;
    }
  }

  lemma EnterChained(g: Graph, w: Walk, e: nat)
    requires g.Valid() && Shape(g, w) && Chained(g, w) && Next(g, w, e) && Shape(g, Entered(w, e, g.edges[e].to))
    ensures Chained(g, Entered(w, e, g.edges[e].to))
  {
    hide Outgoing;
  }

  lemma EnterKeeps(g: Graph, w: Walk, e: nat)
    requires g.Valid() && WalkInv(g, w) && Next(g, w, e) && w.state[g.edges[e].to] == UNREACHED
    ensures WalkInv(g, Entered(w, e, g.edges[e].to))
  {
    hide MarkedOnCycles;
    var w', k := Entered(w, e, g.edges[e].to), |w.frames| - 1;
    EnterStates(g, w, e, g.edges[e].to);
    EnterChained(g, w, e);
    EnterFollowed(g, w, e);
    assert Finished(g, w') by { hide Followed, States, Chained; }
    forall i | 0 <= i < |w'.frames| ensures Followed(g, w', i) { if i < k { FollowedKeeps(g, w, w', i); } }
    hide Followed, Finished, States, Chained;
  }

  lemma EnterFollowed(g: Graph, w: Walk, e: nat)
    requires g.Valid() && Shape(g, w) && Next(g, w, e) && Followed(g, w, |w.frames| - 1)
    requires Shape(g, Entered(w, e, g.edges[e].to))
    ensures var w' := Entered(w, e, g.edges[e].to);
            Followed(g, w', |w.frames| - 1) && Followed(g, w', |w.frames|)
  {
  }

  // --- where the walk comes from ----------------------------------------------------------------------------------

  // a marked edge leads back to a node that was on the walk when it was followed
  ghost predicate MarksReached(g: Graph, w: Walk)
    requires Shape(g, w)
  {
    forall e :: 0 <= e < |w.closes| && w.closes[e] ==>
      && g.edges[e].from < g.n && w.state[g.edges[e].from] != UNREACHED
      && g.edges[e].to < g.n && w.state[g.edges[e].to] != UNREACHED
  }

  ghost predicate MarksLeft(g: Graph, w: Walk)
    requires Shape(g, w)
  {
    forall i, e :: 0 <= i < |w.done| && 0 <= e < |w.closes| && g.edges[e].from == w.done[i] ==>
      (w.closes[e] ==> g.edges[e].to !in w.done[..i])
  }

  ghost predicate OnWalkBelow(w: Walk, j: nat, v: nat) { exists i :: 0 <= i <= j < |w.frames| && w.frames[i].node == v }

  ghost predicate MarksOnWalk(g: Graph, w: Walk)
    requires Shape(g, w)
  {
    forall j, e :: 0 <= j < |w.frames| && 0 <= e < |w.closes| && g.edges[e].from == w.frames[j].node ==>
      (w.closes[e] ==> OnWalkBelow(w, j, g.edges[e].to))
  }

  ghost predicate MarksBack(g: Graph, w: Walk) {
    Shape(g, w) && MarksReached(g, w) && MarksLeft(g, w) && MarksOnWalk(g, w)
  }

  // the walk from a start adds nodes it leads to, the start last
  ghost predicate WalkedFrom(g: Graph, w: Walk, before: Walk, start: nat)
    requires Shape(g, w) && Shape(g, before)
  {
    && before.done <= w.done
    && (forall u :: 0 <= u < g.n && w.state[u] != UNREACHED ==> before.state[u] != UNREACHED || Reaches(g, start, u))
    && (w.frames != [] ==> w.frames[0].node == start)
    && (w.frames == [] ==> before.done < w.done && w.done[|w.done| - 1] == start)
  }

  lemma StartBack(g: Graph, w: Walk, v: nat)
    requires WalkInv(g, w) && w.frames == [] && v < g.n && w.state[v] == UNREACHED && MarksBack(g, w)
    requires Shape(g, Started(w, v))
    ensures MarksBack(g, Started(w, v)) && WalkedFrom(g, Started(w, v), w, v)
  {
    hide Finished, Followed, MarkedOnCycles, Chained;
  }

  // the nodes of the frames below stay in place
  lemma BelowStays(w: Walk, w': Walk, j: nat, v: nat)
    requires OnWalkBelow(w, j, v) && j < |w'.frames|
    requires forall i :: 0 <= i <= j && i < |w.frames| ==> w'.frames[i].node == w.frames[i].node
    ensures OnWalkBelow(w', j, v)
  {
    var i :| 0 <= i <= j < |w.frames| && w.frames[i].node == v;
    assert w'.frames[i].node == v;
  }

  lemma LeaveMarksLeft(g: Graph, w: Walk)
    requires Shape(g, w) && States(g, w) && w.frames != [] && MarksLeft(g, w) && MarksOnWalk(g, w) && Shape(g, Left(w))
    ensures MarksLeft(g, Left(w))
  {
    hide Outgoing;
    var w', k := Left(w), |w.frames| - 1;
    assert w'.done[..|w.done|] == w.done;
    forall i, e | 0 <= i < |w'.done| && 0 <= e < |w'.closes| && g.edges[e].from == w'.done[i] && w'.closes[e]
      ensures g.edges[e].to !in w'.done[..i]
    {
      if i < |w.done| {
        assert w'.done[..i] == w.done[..i];
      } else {
        assert OnWalkBelow(w, k, g.edges[e].to);
        var q :| 0 <= q <= k < |w.frames| && w.frames[q].node == g.edges[e].to;
        assert w.state[g.edges[e].to] == ON_WALK;
      }
    }
  }

  lemma LeaveBack(g: Graph, w: Walk)
    requires Shape(g, w) && States(g, w) && w.frames != [] && MarksBack(g, w) && Shape(g, Left(w))
    ensures MarksBack(g, Left(w))
  {
    LeaveMarksLeft(g, w);
    hide Outgoing, MarksLeft, OnWalkBelow, States;
    var w' := Left(w);
    forall j, e | 0 <= j < |w'.frames| && 0 <= e < |w'.closes| && g.edges[e].from == w'.frames[j].node && w'.closes[e]
      ensures OnWalkBelow(w', j, g.edges[e].to)
    {
      assert w.frames[j] == w'.frames[j];
      BelowStays(w, w', j, g.edges[e].to);
    }
  }

  lemma MarkBack(g: Graph, w: Walk, e: nat)
    requires Shape(g, w) && States(g, w) && Next(g, w, e) && MarksBack(g, w)
    requires g.edges[e].to < g.n && w.state[g.edges[e].to] == ON_WALK && Shape(g, Marked(w, e))
    ensures MarksBack(g, Marked(w, e))
  {
    hide Outgoing, OnWalkBelow;
    var w', k := Marked(w, e), |w.frames| - 1;
    assert w.state[w.frames[k].node] == ON_WALK;
    MarkBelow(g, w, e);
    forall j, f | 0 <= j < |w'.frames| && 0 <= f < |w'.closes| && g.edges[f].from == w'.frames[j].node && w'.closes[f]
      ensures OnWalkBelow(w', j, g.edges[f].to)
    {
      assert w.frames[j].node == w'.frames[j].node;
      if f != e { BelowStays(w, w', j, g.edges[f].to); }
    }
    assert forall v :: v in w.done ==> w.state[v] == LEFT_BEHIND;
    assert MarksLeft(g, w') by {
      forall i, f | 0 <= i < |w'.done| && 0 <= f < |w'.closes| && g.edges[f].from == w'.done[i] && w'.closes[f]
        ensures g.edges[f].to !in w'.done[..i]
      {
        assert w.done[i] in w.done;
      }
    }
  }

  // the edge to be marked is the top frame's
  lemma MarkBelow(g: Graph, w: Walk, e: nat)
    requires Shape(g, w) && States(g, w) && Next(g, w, e)
    requires g.edges[e].to < g.n && w.state[g.edges[e].to] == ON_WALK
    ensures OnWalkBelow(Marked(w, e), |w.frames| - 1, g.edges[e].to)
    ensures forall j :: 0 <= j < |w.frames| && w.frames[j].node == g.edges[e].from ==> j == |w.frames| - 1
  {
    hide Outgoing;
    var i :| 0 <= i < |w.frames| && w.frames[i].node == g.edges[e].to;
    assert Marked(w, e).frames[i].node == g.edges[e].to;
  }

  lemma PassBack(g: Graph, w: Walk)
    requires Shape(g, w) && w.frames != [] && MarksBack(g, w) && Shape(g, Advanced(w))
    ensures MarksBack(g, Advanced(w))
  {
    hide Outgoing, OnWalkBelow;
    var w' := Advanced(w);
    forall j, e | 0 <= j < |w'.frames| && 0 <= e < |w'.closes| && g.edges[e].from == w'.frames[j].node && w'.closes[e]
      ensures OnWalkBelow(w', j, g.edges[e].to)
    {
      assert w.frames[j].node == w'.frames[j].node;
      BelowStays(w, w', j, g.edges[e].to);
    }
  }

  lemma EnterBack(g: Graph, w: Walk, e: nat, v: nat)
    requires Shape(g, w) && States(g, w) && w.frames != [] && MarksBack(g, w) && v < g.n && w.state[v] == UNREACHED
    requires Shape(g, Entered(w, e, v))
    ensures MarksBack(g, Entered(w, e, v))
  {
    hide Outgoing, OnWalkBelow, States;
    var w' := Entered(w, e, v);
    forall j, f | 0 <= j < |w'.frames| && 0 <= f < |w'.closes| && g.edges[f].from == w'.frames[j].node && w'.closes[f]
      ensures OnWalkBelow(w', j, g.edges[f].to)
    {
      assert g.edges[f].from != v;
      assert j < |w.frames| && w.frames[j].node == w'.frames[j].node;
      BelowStays(w, w', j, g.edges[f].to);
    }
  }

  // every node on the walk is reached from its start
  lemma EnterFrom(g: Graph, w: Walk, e: nat, before: Walk, start: nat)
    requires Shape(g, w) && States(g, w) && Next(g, w, e) && Shape(g, before) && WalkedFrom(g, w, before, start)
    requires g.edges[e].to < g.n && Shape(g, Entered(w, e, g.edges[e].to))
    requires before.frames == [] && States(g, before)
    ensures WalkedFrom(g, Entered(w, e, g.edges[e].to), before, start)
  {
    hide Reaches;
    var top := w.frames[|w.frames| - 1].node;
    assert w.state[top] == ON_WALK;
    assert top !in w.done;
    assert top !in before.done;
    EdgeReaches(g, e);
    ReachesOn(g, start, top, g.edges[e].to);
  }

  lemma LeaveFrom(g: Graph, w: Walk, before: Walk, start: nat)
    requires Shape(g, w) && w.frames != [] && Shape(g, before) && WalkedFrom(g, w, before, start)
    requires Shape(g, Left(w)) && States(g, w)
    ensures WalkedFrom(g, Left(w), before, start)
  {
    hide Reaches;
  }

  // the walk from a start, with what holds of it throughout
  ghost predicate Traced(g: Graph, w: Walk, before: Walk, start: nat) {
    && WalkInv(g, w) && MarksBack(g, w)
    && WalkInv(g, before) && before.frames == [] && WalkedFrom(g, w, before, start)
  }

  lemma StartTraced(g: Graph, w: Walk, v: nat)
    requires WalkInv(g, w) && w.frames == [] && v < g.n && w.state[v] == UNREACHED && MarksBack(g, w)
    ensures Traced(g, Started(w, v), w, v)
  {
    StartKeeps(g, w, v);
    StartBack(g, w, v);
    hide MarksBack, WalkedFrom, States, Chained, Finished, Followed, MarkedOnCycles;
  }

  lemma LeaveTraced(g: Graph, w: Walk, before: Walk, start: nat)
    requires Traced(g, w, before, start) && w.frames != []
    requires var top := w.frames[|w.frames| - 1]; top.next == |Outgoing(g, top.node)|
    ensures Traced(g, Left(w), before, start)
  {
    hide MarksBack, WalkedFrom, States, Chained, Finished, Followed, MarkedOnCycles;
    LeaveKeeps(g, w);
    LeaveBack(g, w);
    LeaveFrom(g, w, before, start);
  }

  lemma AdvanceFrom(g: Graph, w: Walk, w': Walk, before: Walk, start: nat)
    requires Shape(g, w) && w.frames != [] && Shape(g, before) && WalkedFrom(g, w, before, start) && Shape(g, w')
    requires w'.state == w.state && w'.done == w.done && w'.frames == Advanced(w).frames
    ensures WalkedFrom(g, w', before, start)
  {
    hide Reaches, Outgoing;
  }

  lemma MarkTraced(g: Graph, w: Walk, e: nat, before: Walk, start: nat)
    requires g.Valid() && Traced(g, w, before, start) && Next(g, w, e) && w.state[g.edges[e].to] == ON_WALK
    ensures Traced(g, Marked(w, e), before, start)
  {
    hide MarksBack, WalkedFrom, States, Chained, Finished, Followed, MarkedOnCycles;
    MarkKeeps(g, w, e);
    MarkBack(g, w, e);
    AdvanceFrom(g, w, Marked(w, e), before, start);
  }

  lemma SkipTraced(g: Graph, w: Walk, e: nat, before: Walk, start: nat)
    requires g.Valid() && Traced(g, w, before, start) && Next(g, w, e) && w.state[g.edges[e].to] == LEFT_BEHIND
    ensures Traced(g, Advanced(w), before, start)
  {
    hide MarksBack, WalkedFrom, States, Chained, Finished, Followed, MarkedOnCycles;
    SkipKeeps(g, w, e);
    PassBack(g, w);
    AdvanceFrom(g, w, Advanced(w), before, start);
  }

  lemma EnterTraced(g: Graph, w: Walk, e: nat, before: Walk, start: nat)
    requires g.Valid() && Traced(g, w, before, start) && Next(g, w, e) && w.state[g.edges[e].to] == UNREACHED
    ensures Traced(g, Entered(w, e, g.edges[e].to), before, start)
  {
    hide MarksBack, WalkedFrom, States, Chained, Finished, Followed, MarkedOnCycles;
    EnterKeeps(g, w, e);
    EnterBack(g, w, e, g.edges[e].to);
    EnterFrom(g, w, e, before, start);
  }

  // between two starts, the nodes left behind lead to no other
  ghost predicate Closed(g: Graph, done: seq<nat>) {
    forall e :: 0 <= e < |g.edges| && g.edges[e].from in done ==> g.edges[e].to in done
  }

  lemma {:induction false} ClosedPath(g: Graph, done: seq<nat>, p: seq<nat>)
    requires Closed(g, done) && p != [] && Path(g, p) && g.edges[p[0]].from in done
    ensures g.edges[p[|p| - 1]].to in done
  {
    if |p| > 1 { ClosedPath(g, done, p[1..]); }
  }

  lemma DoneClosed(g: Graph, w: Walk)
    requires g.Valid() && WalkInv(g, w) && MarksBack(g, w) && w.frames == []
    ensures Closed(g, w.done)
    ensures forall v :: 0 <= v < g.n && w.state[v] != UNREACHED ==> v in w.done
    ensures forall i, j :: 0 <= i < j < |w.done| ==> w.done[i] != w.done[j]
  {
    hide Chained, Followed, MarkedOnCycles, Outgoing;
    forall v | 0 <= v < g.n && w.state[v] != UNREACHED ensures v in w.done {
      assert w.state[v] <= 2;
    }
    forall e | 0 <= e < |g.edges| && g.edges[e].from in w.done ensures g.edges[e].to in w.done {
      var i :| 0 <= i < |w.done| && w.done[i] == g.edges[e].from;
      assert w.closes[e] || g.edges[e].to in w.done[..i];
    }
  }

  // The walk from a start leaves the roots of all cycles seen so far last.
  lemma RootsStayLast(g: Graph, w: Walk, before: Walk, start: nat)
    requires g.Valid() && Traced(g, w, before, start) && w.frames == [] && MarksBack(g, before)
    requires RootsLast(g, before.done) && forall v :: 0 <= v < start && v < g.n ==> before.state[v] != UNREACHED
    ensures RootsLast(g, w.done)
  {
    DoneClosed(g, before);
    DoneClosed(g, w);
    forall v | v in w.done && v !in before.done ensures v < g.n && start <= v && Reaches(g, start, v) {
      EveryNewIsFrom(g, w, before, start, v);
    }
    hide Traced, Closed, MarksBack, Rooted, Reaches, Shape, States, WalkInv;
    forall i, j | 0 <= i < |w.done| && 0 <= j < |w.done| && Rooted(g, w.done[j])
        && Reaches(g, w.done[j], w.done[i]) && Reaches(g, w.done[i], w.done[j])
      ensures i <= j
    {
      RootAmong(g, before.done, w.done, start, i, j);
    }
  }

  // nodes left behind by the walk from a start, behind those of the walks before it
  lemma RootAmong(g: Graph, d: seq<nat>, d': seq<nat>, start: nat, i: nat, j: nat)
    requires d < d' && d'[|d'| - 1] == start && Closed(g, d) && RootsLast(g, d)
    requires forall a, b :: 0 <= a < b < |d'| ==> d'[a] != d'[b]
    requires forall v :: v in d' && v !in d ==> start <= v && Reaches(g, start, v)
    requires i < |d'| && j < |d'| && Rooted(g, d'[j]) && Reaches(g, d'[j], d'[i]) && Reaches(g, d'[i], d'[j])
    ensures i <= j
  {
    hide Closed, Reaches;
    if j < |d| {
      ReachesDone(g, d, d[j], d'[i]);
      var k :| 0 <= k < |d| && d[k] == d'[i];
      assert d'[k] == d'[i];
    } else {
      assert forall k :: 0 <= k < |d| ==> d[k] == d'[k] && d'[k] != d'[j];
      assert d'[j] in d' && d'[j] !in d;
      assert Reaches(g, start, d'[j]) && d'[j] == start;
    }
  }

  lemma ReachesDone(g: Graph, done: seq<nat>, u: nat, v: nat)
    requires Closed(g, done) && u in done && Reaches(g, u, v)
    ensures v in done
  {
    if u != v {
      var p :| p != [] && Path(g, p) && g.edges[p[0]].from == u && g.edges[p[|p| - 1]].to == v;
      ClosedPath(g, done, p);
    }
  }

  lemma EveryNewIsFrom(g: Graph, w: Walk, before: Walk, start: nat, v: nat)
    requires Traced(g, w, before, start) && v in w.done && v !in before.done
    requires forall u :: 0 <= u < g.n && before.state[u] != UNREACHED ==> u in before.done
    requires forall u :: 0 <= u < start && u < g.n ==> before.state[u] != UNREACHED
    ensures v < g.n && start <= v && Reaches(g, start, v)
  {
    hide Chained, Finished, Followed, MarkedOnCycles, Outgoing, MarksBack, Reaches;
    assert w.state[v] == LEFT_BEHIND;
  }

  // --- the loop ---------------------------------------------------------------------------------------------------

  // what the frames on the walk have still to follow, and one step to leave each
  function Remaining(g: Graph, frames: seq<Frame>): nat
    requires forall i :: 0 <= i < |frames| ==> frames[i].next <= |Outgoing(g, frames[i].node)|
  {
    if frames == [] then 0
    else
      var top := frames[|frames| - 1];
      Remaining(g, frames[..|frames| - 1]) + |Outgoing(g, top.node)| - top.next + 1
  }

  lemma RemainingStep(g: Graph, w: Walk)
    requires Shape(g, w) && w.frames != []
    ensures Remaining(g, Left(w).frames) < Remaining(g, w.frames)
    ensures var top := w.frames[|w.frames| - 1];
            top.next < |Outgoing(g, top.node)| ==> Remaining(g, Advanced(w).frames) < Remaining(g, w.frames)
  {
    var k := |w.frames| - 1;
    assert Advanced(w).frames[..k] == w.frames[..k];
  }

  ghost predicate AllLeft(g: Graph, w: Walk)
    requires Shape(g, w)
  {
    w.frames == [] && forall v :: 0 <= v < g.n ==> w.state[v] == LEFT_BEHIND
  }

  lemma AllLeftOrdered(g: Graph, w: Walk)
    requires g.Valid() && WalkInv(g, w) && MarksBack(g, w) && AllLeft(g, w)
    ensures FinishOrder(g, w.closes, w.done) && MarkedOnCycles(g, w.closes) && MarksByOrder(g, w.closes, w.done)
  {
    hide OnCycle;
    forall v: nat ensures v in w.done <==> v < g.n { assert v in w.done <==> v < g.n && w.state[v] == LEFT_BEHIND; }
  }

  function Unreached(state: seq<nat>): set<nat> { set v | 0 <= v < |state| && state[v] == UNREACHED }

  // the edges that leave each node
  method CollectOutgoing(g: Graph) returns (outgoing: seq<seq<nat>>)
    requires g.Valid()
    ensures |outgoing| == g.n && forall v :: 0 <= v < g.n ==> outgoing[v] == Outgoing(g, v)
  {
    outgoing := seq(g.n, _ => []);
    for e := 0 to |g.edges|
      invariant |outgoing| == g.n && forall v :: 0 <= v < g.n ==> outgoing[v] == EdgesFrom(g, v, e)
    {
      var from := g.edges[e].from;
      outgoing := outgoing[from := outgoing[from] + [e]];
    }
  }

  // The walk marks only edges on cycles, and no cycle is left without a mark.
  method MarkClosingEdges(g: Graph) returns (closesCycle: array<bool>, ghost order: seq<nat>)
    requires g.Valid()
    ensures fresh(closesCycle)
    ensures FinishOrder(g, closesCycle[..], order)
    ensures MarkedOnCycles(g, closesCycle[..])
    ensures MarksByOrder(g, closesCycle[..], order) && RootsLast(g, order)
    ensures forall p :: Cycle(g, p) ==> !Kept(closesCycle[..], p)
  {
    hide WalkInv, Traced, Cycle, Kept, FinishOrder, Outgoing, MarkedOnCycles, MarksBack, RootsLast;
    var outgoing := CollectOutgoing(g);
    closesCycle := new bool[|g.edges|](_ => false);
    var state := new nat[g.n](_ => UNREACHED);
    ghost var w := Walk(state[..], [], closesCycle[..], [], []);
    NothingWalked(g, w);
    for start := 0 to g.n
      invariant Holds(w, state, [], closesCycle) && WalkInv(g, w) && MarksBack(g, w) && RootsLast(g, w.done)
      invariant forall v :: 0 <= v < start ==> v !in Unreached(w.state)
    {
      if state[start] == UNREACHED {
        ghost var before := w;
        w := WalkFrom(g, outgoing, start, state, closesCycle, w);
        TracedRoots(g, w, before, start);
      }
    }
    NoneOnWalk(g, w);
    AllLeftOrdered(g, w);
    order := w.done;
    forall p | Cycle(g, p) ensures !Kept(closesCycle[..], p) { EveryCycleIsMarked(g, w.closes, order, p); }
  }

  ghost predicate Holds(w: Walk, state: array<nat>, walk: seq<Frame>, closesCycle: array<bool>)
    reads state, closesCycle
  {
    w.state == state[..] && w.frames == walk && w.closes == closesCycle[..]
  }

  method WalkFrom(g: Graph, outgoing: seq<seq<nat>>, start: nat, state: array<nat>, closesCycle: array<bool>,
                  ghost before: Walk)
    returns (ghost w: Walk)
    requires g.Valid() && |outgoing| == g.n && forall v :: 0 <= v < g.n ==> outgoing[v] == Outgoing(g, v)
    requires WalkInv(g, before) && MarksBack(g, before) && Holds(before, state, [], closesCycle)
    requires start < g.n == state.Length && state[start] == UNREACHED
    modifies state, closesCycle
    ensures Traced(g, w, before, start) && Holds(w, state, [], closesCycle)
    ensures w.state[start] != UNREACHED && Unreached(w.state) <= Unreached(before.state)
  {
    hide WalkInv, Traced, MarksBack, Outgoing;
    w := before;
    StartTraced(g, w, start);
    w := Started(w, start);
    state[start] := ON_WALK;
    var walk := [Frame(start, 0)];
    while walk != []
      invariant Holds(w, state, walk, closesCycle) && Traced(g, w, before, start)
      invariant start !in Unreached(w.state) && Unreached(w.state) <= Unreached(before.state)
      decreases Unreached(w.state), Budget(g, w)
    {
      walk, w := Step(g, outgoing, state, walk, closesCycle, w, before, start);
    }
    TracedInv(g, w, before, start);
    InvShape(g, w);
  }

  // Remaining(), on any walk
  ghost function Budget(g: Graph, w: Walk): nat { if Shape(g, w) then Remaining(g, w.frames) else 0 }

  method Step(g: Graph, outgoing: seq<seq<nat>>, state: array<nat>, walk: seq<Frame>, closesCycle: array<bool>,
              ghost w: Walk, ghost before: Walk, ghost start: nat)
    returns (walk': seq<Frame>, ghost w': Walk)
    requires g.Valid() && |outgoing| == g.n && forall v :: 0 <= v < g.n ==> outgoing[v] == Outgoing(g, v)
    requires walk != [] && Traced(g, w, before, start) && Holds(w, state, walk, closesCycle)
    modifies state, closesCycle
    ensures Traced(g, w', before, start) && Holds(w', state, walk', closesCycle)
    ensures Unreached(w'.state) < Unreached(w.state)
      || (Unreached(w'.state) == Unreached(w.state) && Budget(g, w') < Budget(g, w))
  {
    hide WalkInv, Traced, Outgoing, Remaining;
    TracedInv(g, w, before, start);
    InvShape(g, w);
    RemainingStep(g, w);
    var k := |walk| - 1;
    var node := walk[k].node;
    walk', w' := walk, w;
    if walk[k].next == |outgoing[node]| {
      LeaveTraced(g, w, before, start);
      w' := Left(w);
      state[node] := LEFT_BEHIND;
      walk' := walk[..k];
      SameUnreached(w.state, node, LEFT_BEHIND);
    } else {
      var edge := outgoing[node][walk[k].next];
      EdgeOf(g, node, edge);
      var next := g.edges[edge].to;
      walk' := walk[k := walk[k].(next := walk[k].next + 1)];
      if state[next] == ON_WALK {
        MarkTraced(g, w, edge, before, start);
        w' := Marked(w, edge);
        closesCycle[edge] := true;
      } else if state[next] == UNREACHED {
        EnterTraced(g, w, edge, before, start);
        w' := Entered(w, edge, next);
        state[next] := ON_WALK;
        walk' := walk' + [Frame(next, 0)];
        FewerUnreached(w.state, next, ON_WALK);
      } else {
        SkipTraced(g, w, edge, before, start);
        w' := Advanced(w);
      }
    }
    TracedInv(g, w', before, start);
    InvShape(g, w');
  }

  lemma TracedInv(g: Graph, w: Walk, before: Walk, start: nat)
    requires Traced(g, w, before, start)
    ensures WalkInv(g, w) && MarksBack(g, w)
  {
  }

  lemma TracedRoots(g: Graph, w: Walk, before: Walk, start: nat)
    requires g.Valid() && Traced(g, w, before, start) && w.frames == [] && MarksBack(g, before)
    requires RootsLast(g, before.done) && forall v :: 0 <= v < start && v < g.n ==> v !in Unreached(before.state)
    ensures RootsLast(g, w.done) && WalkInv(g, w) && MarksBack(g, w)
  {
    TracedInv(g, w, before, start);
    assert WalkInv(g, before);
    InvShape(g, before);
    forall v | 0 <= v < start && v < g.n ensures before.state[v] != UNREACHED { assert v !in Unreached(before.state); }
    RootsStayLast(g, w, before, start);
  }

  lemma InvShape(g: Graph, w: Walk)
    requires WalkInv(g, w)
    ensures Shape(g, w) && forall i :: 0 <= i < |w.frames| ==> w.state[w.frames[i].node] == ON_WALK
  {
    hide Outgoing, Chained, Finished, Followed, MarkedOnCycles;
  }

  lemma EdgeOf(g: Graph, v: nat, e: nat)
    requires e in Outgoing(g, v)
    ensures e < |g.edges| && g.edges[e].from == v
  {
  }

  lemma SameUnreached(state: seq<nat>, v: nat, s: nat)
    requires v < |state| && state[v] != UNREACHED && s != UNREACHED
    ensures Unreached(state[v := s]) == Unreached(state)
  {
  }

  lemma FewerUnreached(state: seq<nat>, v: nat, s: nat)
    requires v < |state| && state[v] == UNREACHED && s != UNREACHED
    ensures Unreached(state[v := s]) < Unreached(state)
  {
    assert v in Unreached(state);
  }

  lemma NothingWalked(g: Graph, w: Walk)
    requires g.Valid() && |w.state| == g.n && |w.closes| == |g.edges| && w.frames == [] && w.tree == [] && w.done == []
    requires (forall v :: 0 <= v < g.n ==> w.state[v] == UNREACHED)
      && (forall e :: 0 <= e < |w.closes| ==> !w.closes[e])
    ensures WalkInv(g, w) && MarksBack(g, w) && RootsLast(g, w.done)
  {
    hide OnCycle;
  }

  lemma NoneOnWalk(g: Graph, w: Walk)
    requires WalkInv(g, w) && w.frames == [] && forall v :: 0 <= v < g.n ==> v !in Unreached(w.state)
    ensures AllLeft(g, w)
  {
    hide OnCycle, Finished, MarkedOnCycles, Followed, Chained;
    forall v | 0 <= v < g.n ensures w.state[v] == LEFT_BEHIND {
      assert v !in Unreached(w.state);
    }
  }
}
