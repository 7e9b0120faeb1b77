/**
 The ranks of a graph drawing (tools/GraphDoc.hpp): the length of the longest path of unmarked edges to each node, found
 by relaxing the edges in place in at most as many passes as there are nodes.
 */
module GraphRanks {
  import opened GraphWalk

  // a path of unmarked edges to v; the empty path leads to every node
  ghost predicate LeadsTo(g: Graph, closes: seq<bool>, p: seq<nat>, v: nat) {
    Path(g, p) && Kept(closes, p) && (p != [] ==> g.edges[p[|p| - 1]].to == v)
  }

  ghost predicate HasPath(g: Graph, closes: seq<bool>, v: nat, k: nat) {
    exists p :: LeadsTo(g, closes, p, v) && |p| == k
  }

  // r is the length of the longest path to v
  ghost predicate LongestTo(g: Graph, closes: seq<bool>, v: nat, r: nat) {
    HasPath(g, closes, v, r) && forall p :: LeadsTo(g, closes, p, v) ==> |p| <= r
  }

  // no unmarked edge before the end-th asks for a higher rank
  ghost predicate Relaxed(g: Graph, closes: seq<bool>, rank: seq<nat>, end: nat)
    requires g.Valid() && |rank| == g.n && |closes| == |g.edges| && end <= |g.edges|
  {
    forall e :: 0 <= e < end && !closes[e] ==> rank[g.edges[e].from] < rank[g.edges[e].to]
  }

  // every rank is the length of some path
  ghost predicate Reached(g: Graph, closes: seq<bool>, rank: seq<nat>) {
    forall v :: 0 <= v < |rank| ==> HasPath(g, closes, v, rank[v])
  }

  // the ranks account for the paths of at most k edges
  ghost predicate Covers(g: Graph, closes: seq<bool>, rank: seq<nat>, k: nat) {
    forall p, v :: 0 <= v < |rank| && LeadsTo(g, closes, p, v) && |p| <= k ==> |p| <= rank[v]
  }

  // ... and for those of one more edge whose last edge comes before the end-th
  ghost predicate CoversNext(g: Graph, closes: seq<bool>, rank: seq<nat>, k: nat, end: nat) {
    forall p, v :: 0 <= v < |rank| && LeadsTo(g, closes, p, v) && |p| == k + 1 && p[k] < end ==> |p| <= rank[v]
  }

  lemma ExtendsPath(g: Graph, closes: seq<bool>, e: nat, k: nat)
    requires e < |g.edges| && |closes| == |g.edges| && !closes[e] && HasPath(g, closes, g.edges[e].from, k)
    ensures HasPath(g, closes, g.edges[e].to, k + 1)
  {
    var p :| LeadsTo(g, closes, p, g.edges[e].from) && |p| == k;
    assert LeadsTo(g, closes, p + [e], g.edges[e].to);
  }

  lemma PathWithoutLast(g: Graph, closes: seq<bool>, p: seq<nat>, v: nat)
    requires LeadsTo(g, closes, p, v) && p != []
    ensures p[|p| - 1] < |g.edges| && g.edges[p[|p| - 1]].to == v && !(p[|p| - 1] < |closes| && closes[p[|p| - 1]])
    ensures LeadsTo(g, closes, p[..|p| - 1], g.edges[p[|p| - 1]].from)
  {
  }

  // --- a relaxation step ------------------------------------------------------------------------------------------

  function Raised(g: Graph, rank: seq<nat>, e: nat): seq<nat>
    requires g.Valid() && |rank| == g.n && e < |g.edges|
  {
    rank[g.edges[e].to := rank[g.edges[e].from] + 1]
  }

  lemma RaiseReaches(g: Graph, closes: seq<bool>, rank: seq<nat>, e: nat)
    requires g.Valid() && |rank| == g.n && |closes| == |g.edges| && e < |g.edges| && !closes[e]
    requires Reached(g, closes, rank)
    ensures Reached(g, closes, Raised(g, rank, e))
  {
    hide HasPath;
    ExtendsPath(g, closes, e, rank[g.edges[e].from]);
  }

  ghost predicate NoLower(a: seq<nat>, b: seq<nat>) { |a| == |b| && forall v :: 0 <= v < |a| ==> a[v] <= b[v] }

  lemma HigherCovers(g: Graph, closes: seq<bool>, rank: seq<nat>, higher: seq<nat>, k: nat, end: nat)
    requires NoLower(rank, higher) && Covers(g, closes, rank, k) && CoversNext(g, closes, rank, k, end)
    ensures Covers(g, closes, higher, k) && CoversNext(g, closes, higher, k, end)
  {
    hide LeadsTo;
  }

  // Once edge e holds, the paths that end with it are covered.
  lemma EdgeCovers(g: Graph, closes: seq<bool>, rank: seq<nat>, k: nat, e: nat)
    requires g.Valid() && |rank| == g.n && |closes| == |g.edges| && e < |g.edges|
    requires Covers(g, closes, rank, k) && CoversNext(g, closes, rank, k, e)
    requires closes[e] || rank[g.edges[e].from] < rank[g.edges[e].to]
    ensures CoversNext(g, closes, rank, k, e + 1)
  {
    hide LeadsTo;
    forall p, v | 0 <= v < |rank| && LeadsTo(g, closes, p, v) && |p| == k + 1 && p[k] < e + 1 ensures |p| <= rank[v] {
      if p[k] == e {
        PathWithoutLast(g, closes, p, v);
      }
    }
  }

  lemma PassCovers(g: Graph, closes: seq<bool>, rank: seq<nat>, k: nat)
    requires Covers(g, closes, rank, k) && CoversNext(g, closes, rank, k, |g.edges|)
    ensures Covers(g, closes, rank, k + 1)
  {
    forall p, v | 0 <= v < |rank| && LeadsTo(g, closes, p, v) && |p| <= k + 1 ensures |p| <= rank[v] {
      if |p| == k + 1 {
        PathWithoutLast(g, closes, p, v);
      }
    }
  }

  // --- the fixpoint -----------------------------------------------------------------------------------------------

  lemma {:induction false} RelaxedCovers(g: Graph, closes: seq<bool>, rank: seq<nat>, p: seq<nat>, v: nat)
    requires g.Valid() && |rank| == g.n && |closes| == |g.edges| && Relaxed(g, closes, rank, |g.edges|)
    requires v < g.n && LeadsTo(g, closes, p, v)
    ensures |p| <= rank[v]
    decreases |p|
  {
    if p != [] {
      PathWithoutLast(g, closes, p, v);
      RelaxedCovers(g, closes, rank, p[..|p| - 1], g.edges[p[|p| - 1]].from);
    }
  }

  lemma RelaxedIsLongest(g: Graph, closes: seq<bool>, rank: seq<nat>)
    requires g.Valid() && |rank| == g.n && |closes| == |g.edges| && Relaxed(g, closes, rank, |g.edges|)
    requires Reached(g, closes, rank)
    ensures forall v :: 0 <= v < g.n ==> LongestTo(g, closes, v, rank[v])
  {
    hide HasPath, LeadsTo;
    forall v, p | 0 <= v < g.n && LeadsTo(g, closes, p, v) ensures |p| <= rank[v] {
      RelaxedCovers(g, closes, rank, p, v);
    }
  }

  // No path is longer than the passes the loop may take.
  lemma CoveredIsRelaxed(g: Graph, closes: seq<bool>, order: seq<nat>, rank: seq<nat>)
    requires g.Valid() && |rank| == g.n && FinishOrder(g, closes, order)
    requires Reached(g, closes, rank) && Covers(g, closes, rank, g.n)
    ensures Relaxed(g, closes, rank, |g.edges|)
  {
    forall e | 0 <= e < |g.edges| && !closes[e] ensures rank[g.edges[e].from] < rank[g.edges[e].to] {
      ExtendsPath(g, closes, e, rank[g.edges[e].from]);
      var p :| LeadsTo(g, closes, p, g.edges[e].to) && |p| == rank[g.edges[e].from] + 1;
      KeptPathShort(g, closes, order, p);
    }
  }

  lemma ReachedIsShort(g: Graph, closes: seq<bool>, order: seq<nat>, rank: seq<nat>)
    requires g.Valid() && |rank| == g.n && FinishOrder(g, closes, order) && Reached(g, closes, rank)
    ensures forall v :: 0 <= v < g.n ==> rank[v] < g.n
  {
    hide FinishOrder;
    forall v | 0 <= v < g.n ensures rank[v] < g.n {
      var p :| LeadsTo(g, closes, p, v) && |p| == rank[v];
      KeptPathShort(g, closes, order, p);
    }
  }

  lemma ZerosCover(g: Graph, closes: seq<bool>, rank: seq<nat>)
    requires forall v :: 0 <= v < |rank| ==> rank[v] == 0
    ensures Reached(g, closes, rank) && Covers(g, closes, rank, 0)
  {
    forall v | 0 <= v < |rank| ensures HasPath(g, closes, v, 0) { assert LeadsTo(g, closes, [], v); }
  }

  // --- the passes -------------------------------------------------------------------------------------------------

  // one pass over the edges; k passes came before it
  method Pass(g: Graph, closes: seq<bool>, rank: array<nat>, ghost k: nat) returns (moved: bool)
    requires g.Valid() && rank.Length == g.n && |closes| == |g.edges|
    requires forall e :: 0 <= e < |g.edges| && !closes[e] ==> g.edges[e].from != g.edges[e].to
    requires Reached(g, closes, rank[..]) && Covers(g, closes, rank[..], k)
    modifies rank
    ensures Reached(g, closes, rank[..]) && Covers(g, closes, rank[..], k + 1)
    ensures !moved ==> Relaxed(g, closes, rank[..], |g.edges|)
  {
    hide Reached, Covers, CoversNext, NoLower;
    moved := false;
    NoneCovered(g, closes, rank[..], k);
    for e := 0 to |g.edges|
      invariant Reached(g, closes, rank[..]) && Covers(g, closes, rank[..], k) && CoversNext(g, closes, rank[..], k, e)
      invariant !moved ==> Relaxed(g, closes, rank[..], e)
    {
      if !closes[e] && rank[g.edges[e].from] + 1 > rank[g.edges[e].to] {
        ghost var before := rank[..];
        rank[g.edges[e].to] := rank[g.edges[e].from] + 1;
        moved := true;
        assert rank[..] == Raised(g, before, e);
        RaisedHigher(g, before, e);
        RaiseReaches(g, closes, before, e);
        HigherCovers(g, closes, before, rank[..], k, e);
        RaisedHolds(g, closes, before, k, e);
      } else {
        EdgeCovers(g, closes, rank[..], k, e);
      }
    }
    PassCovers(g, closes, rank[..], k);
  }

  lemma NoneCovered(g: Graph, closes: seq<bool>, rank: seq<nat>, k: nat)
    ensures CoversNext(g, closes, rank, k, 0)
  {
  }

  lemma RaisedHigher(g: Graph, rank: seq<nat>, e: nat)
    requires g.Valid() && |rank| == g.n && e < |g.edges| && rank[g.edges[e].from] + 1 > rank[g.edges[e].to]
    ensures NoLower(rank, Raised(g, rank, e))
  {
  }

  // A self-loop, which the edge would not hold on, is always marked.
  lemma RaisedHolds(g: Graph, closes: seq<bool>, rank: seq<nat>, k: nat, e: nat)
    requires g.Valid() && |rank| == g.n && |closes| == |g.edges| && e < |g.edges| && g.edges[e].from != g.edges[e].to
    requires Covers(g, closes, Raised(g, rank, e), k) && CoversNext(g, closes, Raised(g, rank, e), k, e)
    ensures CoversNext(g, closes, Raised(g, rank, e), k, e + 1)
  {
    hide Covers, CoversNext;
    EdgeCovers(g, closes, Raised(g, rank, e), k, e);
  }

  // Each node's rank is the longest path to it, whether the passes run out or one moves nothing.
  method RankNodes(g: Graph, closes: seq<bool>, ghost order: seq<nat>) returns (rank: array<nat>)
    requires g.Valid() && FinishOrder(g, closes, order)
    ensures fresh(rank) && rank.Length == g.n
    ensures forall v :: 0 <= v < g.n ==> LongestTo(g, closes, v, rank[v]) && rank[v] < g.n
    ensures forall e :: 0 <= e < |g.edges| && !closes[e] ==> rank[g.edges[e].from] < rank[g.edges[e].to]
  {
    hide FinishOrder, Reached, Covers, LongestTo;
    OrderMarks(g, closes, order);
    rank := new nat[g.n](_ => 0);
    ZerosCover(g, closes, rank[..]);
    var pass, moved := 0, true;
    while pass < g.n && moved
      invariant pass <= g.n
      invariant Reached(g, closes, rank[..]) && Covers(g, closes, rank[..], pass)
      invariant !moved ==> Relaxed(g, closes, rank[..], |g.edges|)
    {
      moved := Pass(g, closes, rank, pass);
      pass := pass + 1;
    }
    if moved {
      CoveredIsRelaxed(g, closes, order, rank[..]);
    }
    RelaxedIsLongest(g, closes, rank[..]);
    ReachedIsShort(g, closes, order, rank[..]);
  }

  lemma OrderMarks(g: Graph, closes: seq<bool>, order: seq<nat>)
    requires g.Valid() && FinishOrder(g, closes, order)
    ensures |closes| == |g.edges|
    ensures forall e :: 0 <= e < |g.edges| && !closes[e] ==> g.edges[e].from != g.edges[e].to
  {
    forall e | 0 <= e < |g.edges| && !closes[e] ensures g.edges[e].from != g.edges[e].to {
      KeptEdgeDescends(g, closes, order, e);
    }
  }
}
