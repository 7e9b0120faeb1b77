/**
 The stored sets of one settings context (core/src/Settings.cpp): a vector of sets ordered by time.

 The binary searches of the source are methods, proved against linear scans.
 */
module SettingsStore {
  import opened Wrappers

  type Value(==, !new)
  type Key = string
  type Values = map<Key, Value>

  // time 0 is an undefined time
  datatype Ctx = Ctx(time: nat, context: string)

  datatype StoredSet = StoredSet(ctx: Ctx, settings: Values)

  const MAX_PENDING_SETS: nat := 16
  const MAX_CONTEXTS: nat := 256
  const TWO_64: nat := 0x1_0000_0000_0000_0000

  ghost predicate Sorted(v: seq<StoredSet>) {
    forall i, j :: 0 <= i < j < |v| ==> v[i].ctx.time <= v[j].ctx.time
  }

  ghost predicate DistinctTimes(v: seq<StoredSet>) {
    forall i, j :: 0 <= i < j < |v| ==> v[i].ctx.time < v[j].ctx.time
  }

  // every set of the vector is of context `name`
  ghost predicate OfContext(v: seq<StoredSet>, name: string) {
    forall i :: 0 <= i < |v| ==> v[i].ctx.context == name
  }

  // the last set at or before time t, by a scan from the end
  function LatestAt(v: seq<StoredSet>, t: nat): (r: Option<StoredSet>)
    ensures r.Some? ==> r.value in v && r.value.ctx.time <= t
  {
    if v == [] then None
    else if v[|v| - 1].ctx.time <= t then Some(v[|v| - 1])
    else LatestAt(v[..|v| - 1], t)
  }

  // the first set with the context and time of ctx, as std::find_if picks it
  function FirstOf(v: seq<StoredSet>, ctx: Ctx): (r: Option<StoredSet>)
    ensures r.Some? ==> r.value in v && r.value.ctx == ctx
    ensures r.None? ==> forall p :: p in v ==> p.ctx != ctx
  {
    if v == [] then None else if v[0].ctx == ctx then Some(v[0]) else FirstOf(v[1..], ctx)
  }

  // the index of the first set not before t, by a scan
  function FirstNotBefore(v: seq<StoredSet>, t: nat): (r: nat)
    ensures r <= |v|
    ensures forall i :: 0 <= i < r ==> v[i].ctx.time < t
    ensures r < |v| ==> t <= v[r].ctx.time
  {
    if v == [] || t <= v[0].ctx.time then 0 else 1 + FirstNotBefore(v[1..], t)
  }

  lemma FirstNotBeforeIs(v: seq<StoredSet>, t: nat, i: nat)
    requires i <= |v| && (forall j :: 0 <= j < i ==> v[j].ctx.time < t) && (i < |v| ==> t <= v[i].ctx.time)
    ensures FirstNotBefore(v, t) == i
  {
    if i > 0 {
      FirstNotBeforeIs(v[1..], t, i - 1);
    }
  }

  // std::ranges::lower_bound over the times
  method LowerBound(v: seq<StoredSet>, t: nat) returns (r: nat)
    requires Sorted(v)
    ensures r == FirstNotBefore(v, t)
  {
    var low, count := 0, |v|;
    while count > 0
      invariant 0 <= low && 0 <= count && low + count <= |v|
      invariant forall i :: 0 <= i < low ==> v[i].ctx.time < t
      invariant forall i :: low + count <= i < |v| ==> t <= v[i].ctx.time
    {
      var half := count / 2;
      var mid := low + half;
      assert forall i :: 0 <= i < mid ==> v[i].ctx.time <= v[mid].ctx.time;
      assert forall i :: mid < i < |v| ==> v[mid].ctx.time <= v[i].ctx.time;
      if v[mid].ctx.time < t {
        low, count := low + half + 1, count - half - 1;
      } else {
        count := half;
      }
    }
    r := low;
    FirstNotBeforeIs(v, t, r);
  }

  lemma LatestBelow(v: seq<StoredSet>, t: nat, i: nat)
    requires Sorted(v) && i <= |v|
    requires forall j :: i <= j < |v| ==> t < v[j].ctx.time
    requires i > 0 ==> v[i - 1].ctx.time <= t
    ensures LatestAt(v, t) == if i == 0 then None else Some(v[i - 1])
    decreases |v|
  {
    if i < |v| {
      LatestBelow(v[..|v| - 1], t, i);
    }
  }

  // findBestMatchSettingsCtx() past the choice of the context: the binary search answers the scan's question
  method FindSettingsCtx(v: seq<StoredSet>, t: nat) returns (r: Option<Ctx>)
    requires Sorted(v) && forall p :: p in v ==> p.ctx.context == v[0].ctx.context
    ensures r == BestCtx(v, t)
  {
    if v == [] {
      return None;
    }
    if t == 0 || v[|v| - 1].ctx.time <= t {
      return Some(v[|v| - 1].ctx);
    }
    var lower := LowerBound(v, t);  // not the end: the last set is later than t
    assert v[lower] in v && v[0] in v;
    if v[lower].ctx.time == t {
      LatestAtTime(v, t, lower);
      return Some(v[lower].ctx);
    } else if lower != 0 {
      LatestBelow(v, t, lower);
      return Some(v[lower - 1].ctx);
    }
    LatestBelow(v, t, 0);
    return None;
  }

  // a query without a time gets the newest set
  function BestCtx(v: seq<StoredSet>, t: nat): (r: Option<Ctx>)
    ensures r.Some? ==> exists p :: p in v && p.ctx == r.value
  {
    if v == [] then None
    else if t == 0 then Some(v[|v| - 1].ctx)
    else match LatestAt(v, t) case None => None case Some(p) => Some(p.ctx)
  }

  lemma LatestAtTime(v: seq<StoredSet>, t: nat, i: nat)
    requires Sorted(v) && i < |v| && v[i].ctx.time == t
    ensures LatestAt(v, t).Some? && LatestAt(v, t).value.ctx.time == t
    decreases |v|
  {
    if t < v[|v| - 1].ctx.time {
      LatestAtTime(v[..|v| - 1], t, i);
    }
  }

  // the settings getBestMatchStoredParameters() returns for time t
  function Lookup(v: seq<StoredSet>, t: nat): Option<Values> {
    match BestCtx(v, t)
    case None => None
    case Some(ctx) => match FirstOf(v, ctx) case None => None case Some(p) => Some(p.settings)
  }

  // --- insertion --------------------------------------------------------------------------------------------------

  // addStoredParameters(): before the first set that is not earlier
  function Inserted(v: seq<StoredSet>, p: StoredSet): (r: seq<StoredSet>)
    ensures |r| == |v| + 1 && p in r && multiset(r) == multiset(v) + multiset{p}
  {
    var i := FirstNotBefore(v, p.ctx.time);
    assert v == v[..i] + v[i..];
    v[..i] + [p] + v[i..]
  }

  lemma InsertedSorted(v: seq<StoredSet>, p: StoredSet)
    requires Sorted(v)
    ensures Sorted(Inserted(v, p))
  {
    hide FirstNotBefore;
  }

  lemma {:induction false} LatestOfConcat(a: seq<StoredSet>, b: seq<StoredSet>, t: nat)
    ensures LatestAt(a + b, t) == if LatestAt(b, t).Some? then LatestAt(b, t) else LatestAt(a, t)
  {
    if b == [] {
      assert a + b == a;
    } else {
      assert (a + b)[..|a + b| - 1] == a + b[..|b| - 1];
      LatestOfConcat(a, b[..|b| - 1], t);
    }
  }

  // After an insertion at a time no other set has, the new set answers from its time to the next set's, and every other
  // time is answered as before.
  lemma InsertionAnswers(v: seq<StoredSet>, p: StoredSet, t: nat)
    requires DistinctTimes(v) && forall q :: q in v ==> q.ctx.time != p.ctx.time
    ensures DistinctTimes(Inserted(v, p))
    ensures LatestAt(Inserted(v, p), t)
         == if p.ctx.time <= t && (LatestAt(v, t).None? || LatestAt(v, t).value.ctx.time < p.ctx.time) then Some(p)
            else LatestAt(v, t)
  {
    hide FirstNotBefore, DistinctTimes, Inserted;
    var i := FirstNotBefore(v, p.ctx.time);
    var a, b := v[..i], v[i..];
    InsertedDistinct(v, p);
    InsertedParts(v, p);
    LatestOfConcat(a, b, t);
    LatestOfConcat(a + [p], b, t);
    LatestOfConcat(a, [p], t);
    assert LatestAt([p], t) == if p.ctx.time <= t then Some(p) else None;
    if LatestAt(b, t).Some? {
      LatestNotBefore(v, i, p.ctx.time, t);
      assert LatestAt(b, t).value in v;
    }
  }

  lemma InsertedParts(v: seq<StoredSet>, p: StoredSet)
    ensures var i := FirstNotBefore(v, p.ctx.time); v == v[..i] + v[i..] && Inserted(v, p) == (v[..i] + [p]) + v[i..]
  {
    hide FirstNotBefore;
  }

  lemma LatestNotBefore(v: seq<StoredSet>, i: nat, time: nat, t: nat)
    requires DistinctTimes(v) && i <= |v| && (i < |v| ==> time <= v[i].ctx.time)
    ensures LatestAt(v[i..], t).Some? ==> time <= LatestAt(v[i..], t).value.ctx.time
  {
    hide LatestAt;
    var b := v[i..];
    if LatestAt(b, t).Some? {
      var j :| 0 <= j < |b| && b[j] == LatestAt(b, t).value;
      assert b[j] == v[i + j];
    }
  }

  lemma InsertedDistinct(v: seq<StoredSet>, p: StoredSet)
    requires DistinctTimes(v) && forall q :: q in v ==> q.ctx.time != p.ctx.time
    ensures DistinctTimes(Inserted(v, p))
  {
    var i := FirstNotBefore(v, p.ctx.time);
    assert i < |v| ==> v[i] in v;
    hide FirstNotBefore;
    assert forall j :: 0 <= j < |v| ==> v[j] in v;
  }

  lemma LatestIsBeforeNext(v: seq<StoredSet>, t: nat)
    requires Sorted(v)
    ensures var k := FirstNotBefore(v, t + 1); LatestAt(v, t) == if k == 0 then None else Some(v[k - 1])
  {
    LatestBelow(v, t, FirstNotBefore(v, t + 1));
  }

  // --- expiry and pruning -----------------------------------------------------------------------------------------

  // `expiry` None is the largest 64-bit value, which turns expiry off. The sum wraps at 64 bits.
  predicate Expired(p: StoredSet, expiry: Option<nat>, now: nat) {
    expiry.Some? && (p.ctx.time + expiry.value) % TWO_64 <= now
  }

  // A set expires once its time lies the whole expiry back. Where the sum does not fit 64 bits it wraps, and the set
  // expires as many ticks earlier.
  lemma ExpiresAfter(p: StoredSet, expiry: Option<nat>, now: nat)
    ensures expiry.None? ==> !Expired(p, expiry, now)
    ensures expiry.Some? && p.ctx.time + expiry.value < TWO_64 ==>
      (Expired(p, expiry, now) <==> p.ctx.time + expiry.value <= now)
    ensures expiry.Some? && TWO_64 <= p.ctx.time + expiry.value < 2 * TWO_64 ==>
      (Expired(p, expiry, now) <==> p.ctx.time + expiry.value <= now + TWO_64)
  {
  }

  function Unexpired(v: seq<StoredSet>, expiry: Option<nat>, now: nat): (r: seq<StoredSet>)
    ensures expiry.None? ==> r == v
    ensures forall p :: p in r <==> p in v && !Expired(p, expiry, now)
  {
    if v == [] then []
    else
      assert v == [v[0]] + v[1..];
      (if Expired(v[0], expiry, now) then [] else [v[0]]) + Unexpired(v[1..], expiry, now)
  }

  lemma {:induction false} UnexpiredSorted(v: seq<StoredSet>, expiry: Option<nat>, now: nat)
    requires Sorted(v)
    ensures Sorted(Unexpired(v, expiry, now))
  {
    if v != [] {
      UnexpiredSorted(v[1..], expiry, now);
      var rest := Unexpired(v[1..], expiry, now);
      forall i | 0 <= i < |rest| ensures v[0].ctx.time <= rest[i].ctx.time {
        assert rest[i] in v[1..];
      }
    }
  }

  lemma {:induction false} UnexpiredDistinct(v: seq<StoredSet>, expiry: Option<nat>, now: nat)
    requires DistinctTimes(v)
    ensures DistinctTimes(Unexpired(v, expiry, now))
  {
    if v != [] {
      UnexpiredDistinct(v[1..], expiry, now);
      var rest := Unexpired(v[1..], expiry, now);
      forall i | 0 <= i < |rest| ensures v[0].ctx.time < rest[i].ctx.time {
        assert rest[i] in v[1..];
      }
    }
  }

  // how many leading sets removeExpiredStoredParameters() drops so that one set not later than now stays
  function PrunedCount(v: seq<StoredSet>, now: nat): (r: nat)
    ensures v == [] ==> r == 0
    ensures v != [] ==> r < |v|
  {
    if v == [] then 0
    else
      var lower := FirstNotBefore(v, now);
      if lower == |v| then |v| - 1
      else if v[lower].ctx.time == now then lower
      else if lower != 0 && lower - 1 != 0 then lower - 1
      else 0
  }

  function Pruned(v: seq<StoredSet>, now: nat): seq<StoredSet> { v[PrunedCount(v, now)..] }

  // What stays: everything later than now, and of the sets not later than now only those of the newest time.
  lemma PrunedKeeps(v: seq<StoredSet>, now: nat)
    requires Sorted(v)
    ensures Sorted(Pruned(v, now)) && (v != [] ==> Pruned(v, now) != [])
    ensures forall i :: 0 <= i < |v| && now < v[i].ctx.time ==> PrunedCount(v, now) <= i
    ensures forall i, j :: PrunedCount(v, now) <= i < j < |v| && v[j].ctx.time <= now ==> v[i].ctx.time == v[j].ctx.time
  {
    hide FirstNotBefore;
  }

  // Of the sets of the newest time before now, the first and the last hold the same settings. Two sets of one time
  // break this when they differ: insertion puts the newer one first, a lookup returns the first, and pruning keeps the
  // last. A set of time now keeps the others of its time.
  predicate NewestAgree(v: seq<StoredSet>, now: nat) {
    match LatestAt(v, now)
    case None => true
    case Some(last) =>
      last.ctx.time == now || (FirstOf(v, last.ctx).Some? && FirstOf(v, last.ctx).value.settings == last.settings)
  }

  // the set that pruning leaves in front is the one a lookup of its time returned, or holds the same settings
  predicate FrontAnswers(v: seq<StoredSet>, now: nat) {
    v != [] ==>
      var front := Pruned(v, now)[0];
      var first := FirstOf(v, front.ctx);
      first.Some? && first.value.settings == front.settings
  }

  lemma FirstOfSuffix(v: seq<StoredSet>, c: nat, ctx: Ctx)
    requires c <= |v| && forall i :: 0 <= i < c ==> v[i].ctx != ctx
    ensures FirstOf(v[c..], ctx) == FirstOf(v, ctx)
  {
    if c > 0 {
      FirstOfSuffix(v[1..], c - 1, ctx);
      assert v[1..][c - 1..] == v[c..];
    }
  }

  lemma FirstOfHit(v: seq<StoredSet>, i: nat)
    requires i < |v|
    ensures FirstOf(v, v[i].ctx).Some?
  {
    assert v[i] in v;
  }

  lemma BestCtxIs(v: seq<StoredSet>, t: nat)
    requires Sorted(v)
    ensures var k := FirstNotBefore(v, t + 1);
            BestCtx(v, t) == if v == [] || (0 < t && k == 0) then None
                             else Some(v[if t == 0 then |v| - 1 else k - 1].ctx)
  {
    hide FirstNotBefore, LatestAt;
    LatestIsBeforeNext(v, t);
  }

  // the sets before c play no part in a lookup that c's set could answer
  lemma SuffixAnswers(v: seq<StoredSet>, c: nat, t: nat)
    requires Sorted(v) && c < |v| && v[c].ctx.time <= t && 0 < t
    ensures BestCtx(v[c..], t) == BestCtx(v, t)
    ensures BestCtx(v, t).Some? && v[c].ctx.time <= BestCtx(v, t).value.time
  {
    hide FirstNotBefore, BestCtx;
    SortedSuffix(v, c);
    NextInSuffix(v, c, t + 1);
    BestCtxIs(v, t);
    BestCtxIs(v[c..], t);
  }

  lemma BestCtxAfterPruning(v: seq<StoredSet>, now: nat, t: nat)
    requires Sorted(v) && now <= t
    ensures BestCtx(Pruned(v, now), t) == BestCtx(v, t)
    ensures PrunedCount(v, now) > 0 ==>
              && v[PrunedCount(v, now)].ctx.time <= now
              && BestCtx(v, t).Some? && v[PrunedCount(v, now)].ctx.time <= BestCtx(v, t).value.time
  {
    hide BestCtx, PrunedCount;
    PrunedBefore(v, now);
    if PrunedCount(v, now) > 0 {
      SuffixAnswers(v, PrunedCount(v, now), t);
    } else {
      assert Pruned(v, now) == v;
    }
  }

  lemma SortedSuffix(v: seq<StoredSet>, c: nat)
    requires Sorted(v) && c <= |v|
    ensures Sorted(v[c..])
  {
  }

  lemma NextInSuffix(v: seq<StoredSet>, c: nat, t: nat)
    requires Sorted(v) && c <= |v|
    ensures var k := FirstNotBefore(v, t); FirstNotBefore(v[c..], t) == if c <= k then k - c else 0
    ensures c < |v| && v[c].ctx.time < t ==> c < FirstNotBefore(v, t)
  {
    hide FirstNotBefore;
    var k := FirstNotBefore(v, t);
    FirstNotBeforeIs(v[c..], t, if c <= k then k - c else 0);
  }

  lemma PrunedBefore(v: seq<StoredSet>, now: nat)
    requires Sorted(v)
    ensures PrunedCount(v, now) > 0 ==> v[PrunedCount(v, now)].ctx.time <= now && 0 < now
    ensures v != [] ==> Pruned(v, now)[|Pruned(v, now)| - 1] == v[|v| - 1]
  {
    hide FirstNotBefore;
    var lower := FirstNotBefore(v, now);
    assert lower > 0 ==> v[0].ctx.time < now && v[lower - 1].ctx.time < now;
    assert v != [] ==> Pruned(v, now) == v[PrunedCount(v, now)..];
  }

  lemma LookupAfterPruning(v: seq<StoredSet>, now: nat, t: nat, name: string)
    requires Sorted(v) && OfContext(v, name) && now <= t && FrontAnswers(v, now)
    ensures Lookup(Pruned(v, now), t) == Lookup(v, t)
  {
    hide PrunedCount, FirstNotBefore;
    var c, w := PrunedCount(v, now), Pruned(v, now);
    BestCtxAfterPruning(v, now, t);
    if c == 0 {
      assert w == v;
    } else if BestCtx(v, t).value == w[0].ctx {
      assert FirstOf(w, w[0].ctx) == Some(w[0]);
    } else {
      var ctx := BestCtx(v, t).value;
      var p :| p in v && p.ctx == ctx;
      hide FirstOf, BestCtx, FrontAnswers;
      assert v[c].ctx.context == ctx.context;
      assert forall i :: 0 <= i < c ==> v[i].ctx.time <= v[c].ctx.time;
      FirstOfSuffix(v, c, ctx);
    }
  }

  // where pruning leaves off
  lemma PrunedFrontIs(v: seq<StoredSet>, now: nat)
    requires Sorted(v) && v != []
    ensures var last, c := LatestAt(v, now), PrunedCount(v, now);
            && (last.None? ==> c == 0)
            && (last.Some? && last.value.ctx.time < now ==> v[c] == last.value)
            && (last.Some? && last.value.ctx.time == now ==>
                  v[c].ctx.time == now && forall i :: 0 <= i < c ==> v[i].ctx.time < now)
  {
    hide FirstNotBefore, LatestAt;
    LatestIsBeforeNext(v, now);
    var lower, k := FirstNotBefore(v, now), FirstNotBefore(v, now + 1);
    assert lower < k ==> v[lower].ctx.time == now;
    assert lower < |v| && v[lower].ctx.time == now ==> lower < k;
  }

  lemma NewestIsFront(v: seq<StoredSet>, now: nat, name: string)
    requires Sorted(v) && OfContext(v, name)
    ensures FrontAnswers(v, now) <==> NewestAgree(v, now)
  {
    hide LatestAt, PrunedCount;
    if v != [] {
      PrunedFrontIs(v, now);
      var c := PrunedCount(v, now);
      if LatestAt(v, now).None? || LatestAt(v, now).value.ctx.time == now {
        FirstOfSuffix(v, c, v[c].ctx);
      }
    }
  }

  // Pruning changes no lookup at or after now exactly when the first and the last set of the newest time before now
  // agree.
  lemma {:induction false} PruningKeepsLookups(v: seq<StoredSet>, now: nat, name: string)
    requires Sorted(v) && OfContext(v, name)
    ensures (forall t: nat :: now <= t ==> Lookup(Pruned(v, now), t) == Lookup(v, t)) <==> NewestAgree(v, now)
  {
    hide NewestAgree, FrontAnswers, Lookup;
    NewestIsFront(v, now, name);
    if FrontAnswers(v, now) {
      forall t: nat | now <= t ensures Lookup(Pruned(v, now), t) == Lookup(v, t) {
        LookupAfterPruning(v, now, t, name);
      }
    } else {
      LookupLost(v, now, name);
    }
  }

  lemma LookupLost(v: seq<StoredSet>, now: nat, name: string)
    requires Sorted(v) && OfContext(v, name) && !FrontAnswers(v, now)
    ensures Lookup(Pruned(v, now), now) != Lookup(v, now)
  {
    hide PrunedCount, LatestAt, BestCtx;
    FirstOfHit(v, PrunedCount(v, now));
    BestCtxAfterPruning(v, now, now);
    PrunedFrontIsLatest(v, now, name);
  }

  lemma PrunedFrontIsLatest(v: seq<StoredSet>, now: nat, name: string)
    requires Sorted(v) && OfContext(v, name) && v != []
    ensures PrunedCount(v, now) > 0 ==> BestCtx(v, now) == Some(v[PrunedCount(v, now)].ctx)
  {
    hide PrunedCount, FirstNotBefore, LatestAt;
    LatestIsBeforeNext(v, now);
    PrunedKeeps(v, now);
    PrunedBefore(v, now);
    NextInSuffix(v, PrunedCount(v, now), now + 1);
    var k := FirstNotBefore(v, now + 1);
    if PrunedCount(v, now) > 0 {
      assert v[k - 1].ctx.time == v[PrunedCount(v, now)].ctx.time;
      assert v[k - 1].ctx.context == v[PrunedCount(v, now)].ctx.context;
    }
  }

  // With distinct times no lookup changes.
  lemma DistinctTimesAnswer(v: seq<StoredSet>, now: nat, name: string)
    requires DistinctTimes(v) && OfContext(v, name)
    ensures NewestAgree(v, now)
  {
    hide LatestAt;
    var last := LatestAt(v, now);
    if last.Some? {
      var i :| 0 <= i < |v| && v[i] == last.value;
      FirstOfSuffix(v, i, last.value.ctx);
    }
  }

  // Two sets of one time that differ: the lookup returns the newer value before pruning and the older one after.
  lemma EqualTimesLoseTheNewerSet(newer: Values, older: Values)
    requires newer != older
    ensures var v := Inserted([StoredSet(Ctx(5, ""), older)], StoredSet(Ctx(5, ""), newer));
            Sorted(v) && Lookup(v, 6) == Some(newer) && Lookup(Pruned(v, 6), 6) == Some(older)
  {
    hide Inserted, Pruned, Lookup;
    var p, q := StoredSet(Ctx(5, ""), newer), StoredSet(Ctx(5, ""), older);
    BeforeItsEqual(p, q);
    LookupFinds(p, [q]);
    LookupFinds(q, []);
    assert [p] + [q] == [p, q] && [q] + [] == [q];
    assert Sorted([p, q]);
  }

  lemma BeforeItsEqual(p: StoredSet, q: StoredSet)
    requires p.ctx == q.ctx && p.ctx.time == 5
    ensures Inserted([q], p) == [p, q] && Pruned([p, q], 6) == [q]
  {
    FirstNotBeforeIs([p, q], 6, 2);
    FirstNotBeforeIs([q], 5, 0);
    hide FirstNotBefore;
  }

  // among sets of one time a lookup returns the first
  lemma LookupFinds(p: StoredSet, rest: seq<StoredSet>)
    requires p.ctx.time == 5 && forall q :: q in rest ==> q.ctx == p.ctx
    ensures Lookup([p] + rest, 6) == Some(p.settings)
  {
    var v := [p] + rest;
    assert forall i :: 0 <= i < |v| ==> v[i].ctx == p.ctx;
    hide LatestAt;
    LatestBelow(v, 6, |v|);
  }
}
