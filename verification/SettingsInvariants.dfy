/**
 What every operation on a block's settings keeps.
 */
module SettingsInvariants {
  import opened Wrappers
  import opened SettingsStore
  import opened Settings

  // every vector is time-ordered and holds the sets of its own context
  ghost predicate StoreOrdered(store: Store) {
    forall n :: n in store ==> Sorted(store[n]) && OfContext(store[n], n)
  }

  // every auto-update key set belongs to a stored set
  ghost predicate EntriesStored(s: State) { forall c :: c in s.autoUpdate ==> IsStored(s, c) }

  // no context holds more than kMaxPendingSets sets for a later time
  ghost predicate PendingBounded(store: Store, now: nat) {
    forall n :: n in store ==> Pending(store[n], now) <= MAX_PENDING_SETS
  }

  // staged work is never hidden: changed() reports it
  ghost predicate StagedIsReported(s: State) { s.staged != map[] ==> s.changed }

  ghost predicate Convertible(d: Descriptor, values: Values) {
    forall k :: k in values && k in d.writable ==> d.converts(k, values[k])
  }

  // every value the block keeps converts, so that staging one cannot throw
  ghost predicate KeptConvert(d: Descriptor, s: State) {
    && Convertible(d, s.members) && Convertible(d, s.defaults)
    && forall n, p :: n in s.stored && p in s.stored[n] ==> Convertible(d, p.settings)
  }

  ghost predicate Inv(d: Descriptor, s: State, now: nat) {
    StoreOrdered(s.stored) && EntriesStored(s) && PendingBounded(s.stored, now)
    && StagedIsReported(s) && KeptConvert(d, s)
  }

  // a block before anything is stored
  lemma InitialInv(d: Descriptor, s: State, now: nat)
    requires s.stored == map[] && s.autoUpdate == map[] && s.staged == map[]
    requires Convertible(d, s.members) && Convertible(d, s.defaults)
    ensures Inv(d, s, now)
  {
  }

  // --- counting later sets ----------------------------------------------------------------------------------------

  lemma {:induction false} PendingConcat(a: seq<StoredSet>, b: seq<StoredSet>, now: nat)
    ensures Pending(a + b, now) == Pending(a, now) + Pending(b, now)
  {
    if a == [] {
      assert a + b == b;
    } else {
      assert (a + b)[1..] == a[1..] + b;
      PendingConcat(a[1..], b, now);
    }
  }

  lemma PendingInserted(v: seq<StoredSet>, p: StoredSet, now: nat)
    ensures Pending(Inserted(v, p), now) == Pending(v, now) + if now < p.ctx.time then 1 else 0
  {
    hide FirstNotBefore;
    var i := FirstNotBefore(v, p.ctx.time);
    PendingConcat(v[..i] + [p], v[i..], now);
    PendingConcat(v[..i], [p], now);
    PendingConcat(v[..i], v[i..], now);
    assert v[..i] + v[i..] == v;
    assert Pending([p], now) == if now < p.ctx.time then 1 else 0;
  }

  lemma {:induction false} PendingLater(v: seq<StoredSet>, now: nat, later: nat)
    requires now <= later
    ensures Pending(v, later) <= Pending(v, now)
  {
    if v != [] { PendingLater(v[1..], now, later); }
  }

  lemma {:induction false} PendingUnexpired(v: seq<StoredSet>, expiry: Option<nat>, at: nat, now: nat)
    ensures Pending(Unexpired(v, expiry, at), now) <= Pending(v, now)
  {
    if v != [] {
      PendingUnexpired(v[1..], expiry, at, now);
      PendingConcat(if Expired(v[0], expiry, at) then [] else [v[0]], Unexpired(v[1..], expiry, at), now);
      assert Pending([v[0]], now) == if now < v[0].ctx.time then 1 else 0;
    }
  }

  lemma PendingKept(d: Descriptor, v: seq<StoredSet>, now: nat)
    ensures Pending(Kept(d, v, now), now) <= Pending(v, now)
  {
    var alive := Unexpired(v, d.expiry, now);
    PendingUnexpired(v, d.expiry, now, now);
    var c := PrunedCount(alive, now);
    PendingConcat(alive[..c], alive[c..], now);
    assert alive == alive[..c] + alive[c..];
  }

  // --- stored sets ------------------------------------------------------------------------------------------------

  lemma KeptOrdered(d: Descriptor, v: seq<StoredSet>, now: nat, name: Name)
    requires Sorted(v) && OfContext(v, name)
    ensures Sorted(Kept(d, v, now)) && OfContext(Kept(d, v, now), name)
    ensures forall p :: p in Kept(d, v, now) ==> p in v
  {
    hide PrunedCount;
    UnexpiredSorted(v, d.expiry, now);
    var alive := Unexpired(v, d.expiry, now);
    forall i | 0 <= i < |Kept(d, v, now)|
      ensures Kept(d, v, now)[i] in v && Kept(d, v, now)[i].ctx.context == name
    {
      assert Kept(d, v, now)[i] in alive;
    }
  }

  lemma KeptHas(d: Descriptor, v: seq<StoredSet>, now: nat, p: StoredSet)
    requires p in v && p.ctx !in Dropped(d, v, now)
    ensures p in Kept(d, v, now)
  {
    hide PrunedCount;
    var alive, c := Unexpired(v, d.expiry, now), PrunedCount(Unexpired(v, d.expiry, now), now);
    assert !Expired(p, d.expiry, now);
    assert p in alive;
    assert forall i :: 0 <= i < c ==> alive[i].ctx in Dropped(d, v, now);
    assert alive == alive[..c] + alive[c..];
  }

  lemma AddStoredKeeps(d: Descriptor, s: State, values: Values, ctx: Ctx, now: nat)
    requires StoreOrdered(s.stored) && StagedIsReported(s) && KeptConvert(d, s) && Convertible(d, values)
    requires forall c :: c in s.autoUpdate && c != ctx ==> IsStored(s, c)
    requires PendingBounded(s.stored, now)
    requires now < ctx.time ==> Pending(SetsOf(s.stored, ctx.context), now) < MAX_PENDING_SETS
    ensures Inv(d, AddStored(d, s, values, ctx), now)
  {
    hide Pending, AutoKeysFor, Inserted, FirstOf;
    var v, p := SetsOf(s.stored, ctx.context), StoredSet(ctx, values);
    var s' := AddStored(d, s, values, ctx);
    var r := Inserted(v, p);
    if ctx.context in s.stored { InsertedSorted(v, p); } else { InsertedSorted([], p); }
    PendingInserted(v, p, now);
    PendingEmpty(now);
    assert forall q :: q in r <==> q in v || q == p by {
      assert forall q :: q in r <==> q in multiset(r);
      assert forall q :: q in v <==> q in multiset(v);
    }
    forall i | 0 <= i < |r| ensures r[i].ctx.context == ctx.context { assert r[i] in r; }
    forall c | c in s'.autoUpdate ensures IsStored(s', c) {
      if c == ctx { assert p in r; }
      else if c.context == ctx.context { assert FirstOf(v, c).value in r; }
    }
  }

  lemma PendingEmpty(now: nat)
    ensures Pending([], now) == 0
  {
  }

  lemma RemoveExpiredKeeps(d: Descriptor, s: State, now: nat)
    requires Inv(d, s, now)
    ensures Inv(d, RemoveExpired(d, s, now), now)
  {
    hide Pending, Kept, Dropped, FirstOf, Sorted, OfContext;
    var s' := RemoveExpired(d, s, now);
    forall n | n in s'.stored
      ensures Sorted(s'.stored[n]) && OfContext(s'.stored[n], n) && Pending(s'.stored[n], now) <= MAX_PENDING_SETS
      ensures forall p :: p in s'.stored[n] ==> p in s.stored[n]
    {
      KeptOrdered(d, s.stored[n], now, n);
      PendingKept(d, s.stored[n], now);
    }
    forall c | c in s'.autoUpdate ensures IsStored(s', c) {
      assert IsStored(s, c);
      KeptHas(d, s.stored[c.context], now, FirstOf(s.stored[c.context], c).value);
    }
  }

  lemma LaterKeeps(d: Descriptor, s: State, now: nat, later: nat)
    requires Inv(d, s, now) && now <= later
    ensures Inv(d, s, later)
  {
    hide Pending, IsStored;
    forall n | n in s.stored ensures Pending(s.stored[n], later) <= MAX_PENDING_SETS {
      PendingLater(s.stored[n], now, later);
    }
  }

  lemma BestSettingsConvert(d: Descriptor, s: State, ctx: Ctx)
    requires KeptConvert(d, s) && StoreOrdered(s.stored)
    ensures Convertible(d, BestSettings(d, s.stored, ctx).GetOr(s.defaults))
    ensures BestMatch(d, s.stored, ctx).Some? ==> IsStored(s, BestMatch(d, s.stored, ctx).value)
    ensures BestSettings(d, s.stored, ctx).Some? <==> BestMatch(d, s.stored, ctx).Some?
  {
    hide FirstOf, BestCtx, Sorted;
    var name := BestName(d, s.stored, ctx.context);
    if name.Some? && BestMatch(d, s.stored, ctx).Some? {
      var best := BestMatch(d, s.stored, ctx).value;
      var p :| p in s.stored[name.value] && p.ctx == best;
      assert best.context == name.value;
    }
  }

  // a set that is taken keeps every invariant at the clock reading of its pruning
  lemma SetKeepsInv(d: Descriptor, s: State, params: Values, ctx: Ctx, now: nat, pruneNow: nat)
    requires Inv(d, s, now) && now <= pruneNow
    requires Set(d, s, params, ctx, now, pruneNow).Some?
    ensures Inv(d, Set(d, s, params, ctx, now, pruneNow).value.0, pruneNow)
  {
    hide IsStored, Pending, AutoKeysFor, BestSettings, RemoveExpired, AddStored;
    var at, taken := WithTime(ctx, now), Writable(d, Given(d, params));
    BestSettingsConvert(d, s, at);
    var values := BestSettings(d, s.stored, at).GetOr(s.defaults) + taken;
    assert forall k :: k in taken ==> d.converts(k, taken[k]);
    var s' := s.(autoUpdate := s.autoUpdate[at := AutoKeysFor(d, s, at) - taken.Keys]);
    PendingEmpty(now);
    assert forall c :: c in s'.autoUpdate && c != at ==> IsStored(s', c) by { StoredAlike(s, s'); }
    AddStoredKeeps(d, s', values, at, now);
    LaterKeeps(d, AddStored(d, s', values, at), now, pruneNow);
    RemoveExpiredKeeps(d, AddStored(d, s', values, at), pruneNow);
  }

  // After each pruning, with distinct times, a context holds of the sets that are not expired and not later than now
  // exactly the newest one, when it had any, and every later set.
  lemma OneSetNotLater(d: Descriptor, s: State, now: nat, name: Name)
    requires name in s.stored && DistinctTimes(s.stored[name])
    ensures var alive := Unexpired(s.stored[name], d.expiry, now);
            var kept := RemoveExpired(d, s, now).stored[name];
            && (kept == [] <==> alive == [])
            && (match LatestAt(alive, now)
                case None => kept == alive
                case Some(newest) => kept != [] && kept[0] == newest)
            && (forall i :: 0 < i < |kept| ==> now < kept[i].ctx.time)
            && (forall p :: p in alive && now < p.ctx.time ==> p in kept)
  {
    hide FirstNotBefore, Pruned, LatestAt, DistinctTimes, Unexpired, Dropped;
    var alive := Unexpired(s.stored[name], d.expiry, now);
    UnexpiredDistinct(s.stored[name], d.expiry, now);
    if alive == [] {
      NothingPruned(now);
    } else {
      NewestStays(alive, now);
      LaterStay(alive, now);
    }
  }

  lemma NothingPruned(now: nat)
    ensures Pruned([], now) == [] && LatestAt([], now) == None
  {
  }

  lemma LaterStay(v: seq<StoredSet>, now: nat)
    requires DistinctTimes(v) && v != []
    ensures Pruned(v, now) != []
    ensures forall i :: 0 < i < |Pruned(v, now)| ==> now < Pruned(v, now)[i].ctx.time
    ensures forall p :: p in v && now < p.ctx.time ==> p in Pruned(v, now)
  {
    hide FirstNotBefore, PrunedCount;
    PrunedKeeps(v, now);
    var c := PrunedCount(v, now);
    forall i | 0 < i < |v| - c ensures now < v[c..][i].ctx.time {
      assert v[c].ctx.time < v[c + i].ctx.time;
    }
    forall p | p in v && now < p.ctx.time ensures p in v[c..] {
      var i :| 0 <= i < |v| && v[i] == p;
      assert v[c..][i - c] == p;
    }
  }

  lemma NewestStays(v: seq<StoredSet>, now: nat)
    requires DistinctTimes(v) && v != []
    ensures match LatestAt(v, now) case None => Pruned(v, now) == v case Some(newest) => Pruned(v, now)[0] == newest
  {
    hide FirstNotBefore, PrunedCount, LatestAt;
    PrunedFrontIs(v, now);
    var c := PrunedCount(v, now);
    if LatestAt(v, now).Some? {
      var i :| 0 <= i < |v| && v[i] == LatestAt(v, now).value;
      assert v[i].ctx.time == v[c].ctx.time;
    }
  }

  // What set() stored is what a lookup finds from the set's time to the next one's: the values given, over the best
  // match before.
  lemma SetIsFound(d: Descriptor, s: State, params: Values, ctx: Ctx, now: nat, pruneNow: nat, t: nat)
    requires StoreOrdered(s.stored) && d.expiry.None?
    requires Set(d, s, params, ctx, now, pruneNow).Some?
    requires DistinctTimes(SetsOf(s.stored, ctx.context))
    requires forall q :: q in SetsOf(s.stored, ctx.context) ==> q.ctx.time != WithTime(ctx, now).time
    requires pruneNow <= t && 0 < t && WithTime(ctx, now).time <= t
    requires var latest := LatestAt(SetsOf(s.stored, ctx.context), t);
             latest.None? || latest.value.ctx.time < WithTime(ctx, now).time
    ensures BestSettings(d, Set(d, s, params, ctx, now, pruneNow).value.0.stored, Ctx(t, ctx.context))
         == Some(BestSettings(d, s.stored, WithTime(ctx, now)).GetOr(s.defaults) + Writable(d, Given(d, params)))
  {
    var at := WithTime(ctx, now);
    var p := StoredSet(at, BestSettings(d, s.stored, at).GetOr(s.defaults) + Writable(d, Given(d, params)));
    var v := SetsOf(s.stored, ctx.context);
    var r := Inserted(v, p);
    var s' := Set(d, s, params, ctx, now, pruneNow).value.0;
    StoredAfterSet(d, s, params, ctx, now, pruneNow);
    hide Set, BestSettings, Inserted, Pruned, StoreOrdered, Lookup, LatestAt;
    assert Sorted(v) && OfContext(v, ctx.context) by { VectorOrdered(s, ctx.context); }
    InsertedIs(v, p, ctx.context);
    InsertionAnswers(v, p, t);
    DistinctTimesAnswer(r, pruneNow, ctx.context);
    PruningKeepsLookups(r, pruneNow, ctx.context);
    FoundByItself(r, p);
    BestSettingsIsLookup(d, s'.stored, Ctx(t, ctx.context), pruneNow, r);
    LookupHits(r, p, t);
  }

  lemma StoredAfterSet(d: Descriptor, s: State, params: Values, ctx: Ctx, now: nat, pruneNow: nat)
    requires Set(d, s, params, ctx, now, pruneNow).Some? && d.expiry.None?
    ensures var at := WithTime(ctx, now);
            var p := StoredSet(at, BestSettings(d, s.stored, at).GetOr(s.defaults) + Writable(d, Given(d, params)));
            var stored := Set(d, s, params, ctx, now, pruneNow).value.0.stored;
            ctx.context in stored && stored[ctx.context] == Pruned(Inserted(SetsOf(s.stored, ctx.context), p), pruneNow)
  {
    hide BestSettings, AutoKeysFor, Inserted, Pruned, Dropped;
  }

  lemma VectorOrdered(s: State, name: Name)
    requires StoreOrdered(s.stored)
    ensures Sorted(SetsOf(s.stored, name)) && OfContext(SetsOf(s.stored, name), name)
  {
  }

  lemma LookupHits(r: seq<StoredSet>, p: StoredSet, t: nat)
    requires 0 < t && LatestAt(r, t) == Some(p) && FirstOf(r, p.ctx) == Some(p)
    ensures Lookup(r, t) == Some(p.settings)
  {
  }

  lemma InsertedIs(v: seq<StoredSet>, p: StoredSet, name: Name)
    requires Sorted(v) && OfContext(v, name) && p.ctx.context == name
    ensures Sorted(Inserted(v, p)) && OfContext(Inserted(v, p), name) && p in Inserted(v, p)
  {
    InsertedSorted(v, p);
    hide FirstNotBefore;
  }

  lemma FoundByItself(v: seq<StoredSet>, p: StoredSet)
    requires DistinctTimes(v) && p in v
    ensures FirstOf(v, p.ctx) == Some(p)
  {
    var i :| 0 <= i < |v| && v[i] == p;
    FirstOfSuffix(v, i, p.ctx);
  }

  lemma BestSettingsIsLookup(d: Descriptor, store: Store, ctx: Ctx, now: nat, v: seq<StoredSet>)
    requires ctx.context in store && store[ctx.context] == Pruned(v, now) && Sorted(v) && OfContext(v, ctx.context)
    ensures BestSettings(d, store, ctx) == Lookup(Pruned(v, now), ctx.time)
  {
    hide PrunedCount, FirstOf;
    var best := BestCtx(store[ctx.context], ctx.time);
    if best.Some? {
      var p :| p in store[ctx.context] && p.ctx == best.value;
    }
  }

  lemma StoredAlike(s: State, s': State)
    requires s.stored == s'.stored
    ensures forall c :: IsStored(s, c) == IsStored(s', c)
  {
  }

  // an operation that leaves the stored sets and the kept values alone
  lemma Untouched(d: Descriptor, s: State, s': State, now: nat)
    requires Inv(d, s, now) && s'.stored == s.stored && s'.members == s.members && s'.defaults == s.defaults
    requires forall c :: c in s'.autoUpdate ==> c in s.autoUpdate || IsStored(s, c)
    requires StagedIsReported(s')
    ensures Inv(d, s', now)
  {
    StoredAlike(s, s');
    hide IsStored, StoreOrdered, PendingBounded;
  }

  lemma SetStagedKeepsInv(d: Descriptor, s: State, params: Values, now: nat)
    requires Inv(d, s, now)
    ensures Inv(d, Stage(d, s, params), now)
    ensures SetStaged(d, s, params).Some? ==> SetStaged(d, s, params).value.0 == Stage(d, s, params)
  {
    Untouched(d, s, Stage(d, s, params), now);
    hide Inv;
  }

  // the values an activation stages convert, so it cannot throw
  lemma ActivationCannotThrow(d: Descriptor, s: State, ctx: Ctx, now: nat)
    requires Inv(d, s, now)
    ensures var values := BestSettings(d, s.stored, WithTime(ctx, now));
            values.Some? ==> SetStaged(d, s, values.value).Some?
  {
    BestSettingsConvert(d, s, WithTime(ctx, now));
  }

  lemma ActivateSameKeepsInv(d: Descriptor, s: State, best: Ctx, values: Values, now: nat)
    requires Inv(d, s, now) && IsStored(s, best)
    ensures Inv(d, ActivateSameContext(d, s, best, values), now)
  {
    hide Inv, AutoKeysFor, IsStored, Writable;
    Untouched(d, s, ActivateSameContext(d, s, best, values), now);
  }

  lemma ActivateOtherKeepsInv(d: Descriptor, s: State, best: Ctx, values: Values, now: nat)
    requires Inv(d, s, now)
    ensures Inv(d, ActivateOtherContext(s, best, values), now)
  {
    hide Inv, IsStored;
    Untouched(d, s, ActivateOtherContext(s, best, values), now);
  }

  lemma ActivateKeepsInv(d: Descriptor, s: State, ctx: Ctx, now: nat)
    requires Inv(d, s, now)
    ensures Inv(d, Activate(d, s, ctx, now).0, now)
  {
    BestSettingsConvert(d, s, WithTime(ctx, now));
    hide Inv, IsStored, BestMatch, BestSettings, ActivateSameContext, ActivateOtherContext;
    var best, values := BestMatch(d, s.stored, WithTime(ctx, now)), BestSettings(d, s.stored, WithTime(ctx, now));
    if best.Some? && values.Some? {
      ActivateSameKeepsInv(d, s, best.value, values.value, now);
      ActivateOtherKeepsInv(d, s, best.value, values.value, now);
    }
  }

  lemma BestIsStored(d: Descriptor, s: State, ctx: Ctx)
    requires StoreOrdered(s.stored)
    ensures BestMatch(d, s.stored, ctx).Some? ==> IsStored(s, BestMatch(d, s.stored, ctx).value)
  {
    hide FirstOf, LatestAt;
    var name := BestName(d, s.stored, ctx.context);
    if name.Some? && BestMatch(d, s.stored, ctx).Some? {
      var best := BestMatch(d, s.stored, ctx).value;
      var p :| p in s.stored[name.value] && p.ctx == best;
      var i :| 0 <= i < |s.stored[name.value]| && s.stored[name.value][i] == p;
      assert best.context == name.value;
    }
  }

  // an activation removes no entry and no stored set
  lemma ActivateKeepsEntries(d: Descriptor, s: State, ctx: Ctx, now: nat)
    ensures Activate(d, s, ctx, now).0.stored == s.stored
    ensures forall c :: c in s.autoUpdate ==> c in Activate(d, s, ctx, now).0.autoUpdate
  {
    hide BestMatch, BestSettings, AutoKeysFor, Writable;
  }

  lemma FallBackKeepsInv(d: Descriptor, s: State, removed: Ctx, at: nat, now: nat)
    requires Inv(d, s, now)
    ensures Inv(d, FallBack(d, s, removed, at), now)
  {
    hide Inv, CurrentDefault;
    Recorded(d, s, CurrentDefault(d, s, at), now);
  }

  lemma LeaveContextKeepsInv(d: Descriptor, s: State, name: Name, now: nat)
    requires Inv(d, s, now)
    ensures Inv(d, LeaveContext(d, s, name, now), now)
  {
    hide Inv, Activate;
    ActivateKeepsInv(d, s, Ctx(0, DEFAULT_CONTEXT), now);
    Recorded(d, Activate(d, s, Ctx(0, DEFAULT_CONTEXT), now).0, None, now);
  }

  lemma RemoveKeepsInv(d: Descriptor, s: State, ctx: Ctx, now: nat, now2: nat, now3: nat)
    requires Inv(d, s, now) && now <= now2 <= now3
    ensures Inv(d, Remove(d, s, ctx, now, now2, now3).0, now3)
  {
    hide Inv, WithoutSet, FallBack, LeaveContext;
    LaterKeeps(d, s, now, now3);
    if ctx.context != DEFAULT_CONTEXT && ctx.context in s.stored {
      var v := s.stored[ctx.context];
      var found := IndexAtTime(v, WithTime(ctx, now).time);
      if found.Some? {
        RemovalKeeps(d, s, ctx.context, found.value, now3);
        var s1 := WithoutSet(s, ctx.context, found.value);
        FallBackKeepsInv(d, s1, v[found.value].ctx, now2, now3);
        LeaveContextKeepsInv(d, FallBack(d, s1, v[found.value].ctx, now2), ctx.context, now3);
      }
    }
  }

  lemma Recorded(d: Descriptor, s: State, before: Option<Ctx>, now: nat)
    requires Inv(d, s, now)
    ensures Inv(d, s.(contextBefore := before), now)
  {
    Untouched(d, s, s.(contextBefore := before), now);
  }

  lemma RestIs(v: seq<StoredSet>, i: nat, now: nat)
    requires i < |v|
    ensures forall p :: p in v <==> p in v[..i] + v[i + 1..] || p == v[i]
    ensures Pending(v[..i] + v[i + 1..], now) <= Pending(v, now)
    ensures Sorted(v) ==> Sorted(v[..i] + v[i + 1..])
  {
    hide Pending;
    assert v == v[..i] + [v[i]] + v[i + 1..];
    PendingConcat(v[..i] + [v[i]], v[i + 1..], now);
    PendingConcat(v[..i], [v[i]], now);
    PendingConcat(v[..i], v[i + 1..], now);
  }

  lemma RemovalKeeps(d: Descriptor, s: State, name: Name, i: nat, now: nat)
    requires Inv(d, s, now) && name in s.stored && i < |s.stored[name]|
    ensures Inv(d, WithoutSet(s, name, i), now)
  {
    hide FirstOf, Pending, Sorted;
    var s1, v := WithoutSet(s, name, i), s.stored[name];
    var rest := v[..i] + v[i + 1..];
    RestIs(v, i, now);
    forall j | 0 <= j < |rest| ensures rest[j].ctx.context == name { assert rest[j] in rest; }
    forall c | c in s1.autoUpdate ensures IsStored(s1, c) {
      assert IsStored(s, c);
      var p := FirstOf(SetsOf(s.stored, c.context), c).value;
      assert p.ctx != v[i].ctx;
    }
  }

  lemma StageDefaultsKeepsInv(d: Descriptor, s: State, now: nat, now2: nat)
    requires Inv(d, s, now) && now <= now2
    ensures Inv(d, StageDefaults(d, s, now, now2).0, now2)
  {
    LaterKeeps(d, s, now, now2);
    if RefusedDefaults(d, s, now) == map[] {
      var ctx := Ctx(now, DEFAULT_CONTEXT);
      var s0 := AddStored(d, s, s.defaults, ctx);
      AddStoredKeeps(d, s, s.defaults, ctx, now);
      LaterKeeps(d, s0, now, now2);
      assert ctx in s0.autoUpdate;
      hide IsStored, Activate, AddStored, Pending, RefusedDefaults;
      ActivateKeepsInv(d, s0, Ctx(0, DEFAULT_CONTEXT), now2);
      ActivateKeepsEntries(d, s0, Ctx(0, DEFAULT_CONTEXT), now2);
      StoredAlike(Activate(d, s0, Ctx(0, DEFAULT_CONTEXT), now2).0, StageDefaults(d, s, now, now2).0);
    }
  }

  lemma StageFromTagKeepsInv(d: Descriptor, s: State, control: Values, followed: Values, namesContext: bool,
                             moved: bool, now: nat)
    requires Inv(d, s, now)
    ensures Inv(d, ReportTag(StageFromTag(s, control, followed), namesContext, moved,
                             control != map[] || followed != map[]), now)
  {
    ReportedOf(d, s, now);
    TagStagingReported(s, control, followed, namesContext, moved);
    hide Inv, IsStored, StageFromTag, ReportTag, StagedIsReported;
    Untouched(d, s, ReportTag(StageFromTag(s, control, followed), namesContext, moved,
                              control != map[] || followed != map[]), now);
  }

  lemma TagStagingReported(s: State, control: Values, followed: Values, namesContext: bool, moved: bool)
    requires StagedIsReported(s)
    ensures var s1 := ReportTag(StageFromTag(s, control, followed), namesContext, moved,
                                control != map[] || followed != map[]);
            && StagedIsReported(s1) && s1.stored == s.stored && s1.members == s.members && s1.defaults == s.defaults
            && s1.autoUpdate == s.autoUpdate
  {
    NothingStaged(s.staged);
  }

  lemma NothingStaged(staged: Values)
    ensures staged + map[] + map[] == staged
  {
  }

  lemma WithEntryKeepsInv(d: Descriptor, s: State, ctx: Ctx, keys: set<Key>, now: nat)
    requires Inv(d, s, now)
    ensures Inv(d, WithEntry(s, ctx, keys), now)
  {
    ReportedOf(d, s, now);
    hide Inv, IsStored;
    Untouched(d, s, WithEntry(s, ctx, keys), now);
  }

  lemma TagSetsKeepsInv(d: Descriptor, s: State, tag: Tag, ctx: Ctx, moved: bool, now: nat)
    requires Inv(d, s, now)
    ensures Inv(d, TagSets(d, s, tag, ctx, moved, now), now)
  {
    hide Inv, FollowingKeys, Followed, ControlKeys, WithEntry, StageFromTag, ReportTag;
    var keys := FollowingKeys(d, s, ctx, now);
    var control, followed := ControlKeys(tag), Followed(d, s, tag, keys, moved);
    WithEntryKeepsInv(d, s, ctx, keys, now);
    StageFromTagKeepsInv(d, WithEntry(s, ctx, keys), control, followed, tag.context.Some?, moved, now);
  }

  lemma AutoUpdateKeepsInv(d: Descriptor, s: State, tag: Tag, now: nat, now2: nat)
    requires Inv(d, s, now) && now <= now2
    ensures Inv(d, AutoUpdate(d, s, tag, now, now2), now2)
  {
    hide Inv, Activate, TagSets, TaggedByActivation;
    var (s1, ctx) := TagActivates(d, s, tag, now);
    if tag.context.Some? {
      ActivateKeepsInv(d, s, tag.context.value, now);
      Retagged(d, Activate(d, s, tag.context.value, now).0, s1.tagged, now);
    }
    LaterKeeps(d, s1, now, now2);
    TagSetsKeepsInv(d, s1, tag, ctx, s.active != ctx, now2);
  }

  lemma Retagged(d: Descriptor, s: State, tagged: set<Key>, now: nat)
    requires Inv(d, s, now)
    ensures Inv(d, s.(tagged := tagged), now)
  {
    Untouched(d, s, s.(tagged := tagged), now);
  }

  lemma ReportedOf(d: Descriptor, s: State, now: nat)
    requires Inv(d, s, now)
    ensures StagedIsReported(s)
  {
  }

  // --- the apply --------------------------------------------------------------------------------------------------

  lemma TakeBatchKeepsInv(d: Descriptor, s: State, now: nat, now2: nat, now3: nat)
    requires Inv(d, s, now) && now <= now2 <= now3
    ensures Inv(d, TakeBatch(d, s, now, now2, now3).s, now3) && TakeBatch(d, s, now, now2, now3).s.staged == map[]
  {
    hide IsStored, StageDefaults, Pending, RemoveExpired;
    var s0 := Emptied(s);
    StoredAlike(s, s0);
    LaterKeeps(d, s0, now, now3);
    if RESET_DEFAULTS in s.staged && StageDefaults(d, s0, now, now2).1 == map[] {
      StageDefaultsKeepsInv(d, s0, now, now2);
      var s1 := StageDefaults(d, s0, now, now2).0;
      var s2 := s1.(staged := map[], contextActivated := false, contextBefore := None, autoBefore := None);
      StoredAlike(s1, s2);
      LaterKeeps(d, s2, now2, now3);
      RemoveExpiredKeeps(d, s2, now3);
      assert RemoveExpired(d, s2, now3).staged == map[] by { RemoveExpiredStages(d, s2, now3); }
    }
  }

  lemma RemoveExpiredStages(d: Descriptor, s: State, now: nat)
    ensures RemoveExpired(d, s, now).staged == s.staged
  {
  }

  lemma BeginKeepsInv(d: Descriptor, s: State, now: nat, now2: nat, now3: nat)
    requires Inv(d, s, now) && now <= now2 <= now3
    ensures Inv(d, Begin(d, s, now, now2, now3).0, now3)
    ensures Begin(d, s, now, now2, now3).0.staged == map[] && Begin(d, s, now, now2, now3).1.values == s.staged
    ensures Convertible(d, Begin(d, s, now, now2, now3).1.previous)
  {
    hide IsStored, TakeBatch, Pending, Moved;
    TakeBatchKeepsInv(d, s, now, now2, now3);
    StoredAlike(TakeBatch(d, s, now, now2, now3).s, Begin(d, s, now, now2, now3).0);
  }

  lemma RestoredSetsKeep(d: Descriptor, b: Batch, v: seq<StoredSet>, now: nat)
    requires Convertible(d, b.previous) && forall p :: p in v ==> Convertible(d, p.settings)
    ensures forall p :: p in RestoredSets(d, b, v) ==> Convertible(d, p.settings)
    ensures Pending(RestoredSets(d, b, v), now) == Pending(v, now)
    ensures forall c :: FirstOf(RestoredSets(d, b, v), c).Some? == FirstOf(v, c).Some?
  {
    if v != [] {
      assert v == [v[0]] + v[1..];
      RestoredSetsKeep(d, b, v[1..], now);
      assert Convertible(d, v[0].settings);
    }
  }

  lemma RestoreRefusedKeepsInv(d: Descriptor, s: State, b: Batch, now: nat)
    requires Inv(d, s, now) && Convertible(d, b.previous)
    ensures Inv(d, RestoreRefused(d, s, b), now)
  {
    hide FirstOf, Pending, RestoredSets;
    var s' := RestoreRefused(d, s, b);
    if b.ctx.context in s.stored {
      RestoredSetsKeep(d, b, s.stored[b.ctx.context], now);
      var r := RestoredSets(d, b, s.stored[b.ctx.context]);
      assert Sorted(r) && OfContext(r, b.ctx.context);
    }
    forall c | c in s'.autoUpdate ensures IsStored(s', c) { assert IsStored(s, c); }
  }

  lemma RestoreContextKeepsInv(d: Descriptor, s: State, earlier: Ctx, refused: Ctx, at: nat, now: nat)
    requires Inv(d, s, now)
    ensures Inv(d, RestoreContext(d, s, earlier, refused, at), now)
  {
    ReportedOf(d, s, now);
    hide Inv, CurrentDefault;
    Untouched(d, s, RestoreContext(d, s, earlier, refused, at), now);
  }

  lemma RestoreAutoKeysKeepsInv(d: Descriptor, s: State, before: Option<map<Ctx, set<Key>>>, now: nat)
    requires Inv(d, s, now)
    ensures Inv(d, Refresh(RestoreAutoKeys(s, before)), now)
  {
    ReportedOf(d, s, now);
    hide Inv;
    Untouched(d, s, Refresh(RestoreAutoKeys(s, before)), now);
  }

  lemma RollBackKeepsInv(d: Descriptor, s: State, b: Batch, now: nat)
    requires Inv(d, s, now) && Convertible(d, b.previous)
    ensures Inv(d, RollBack(d, s, b, now), now)
  {
    hide Inv, RestoreRefused, RestoreContext, RestoreAutoKeys, Refresh;
    RestoreRefusedKeepsInv(d, s, b, now);
    var s1 := RestoreRefused(d, s, b);
    if b.before.Some? { RestoreContextKeepsInv(d, s1, b.before.value, b.ctx, now, now); }
    var s2 := if b.before.Some? then RestoreContext(d, s1, b.before.value, b.ctx, now) else s1;
    RestoreAutoKeysKeepsInv(d, s2, b.autoBefore, now);
  }

  // a refusal stages nothing and takes nothing staged away
  lemma RollBackStages(d: Descriptor, s: State, b: Batch, now: nat)
    ensures RollBack(d, s, b, now).staged == s.staged
  {
    hide RestoreRefused, RestoreContext, RestoreAutoKeys, Refresh;
    var s1 := RestoreRefused(d, s, b);
    var s2 := if b.before.Some? then RestoreContext(d, s1, b.before.value, b.ctx, now) else s1;
    RestoreRefusedStages(d, s, b);
    if b.before.Some? { RestoreContextStages(d, s1, b.before.value, b.ctx, now); }
    RefreshStages(s2, b.autoBefore);
  }

  lemma RestoreRefusedStages(d: Descriptor, s: State, b: Batch)
    ensures RestoreRefused(d, s, b).staged == s.staged
  {
    hide Restorable, RestoredSets;
  }

  lemma RestoreContextStages(d: Descriptor, s: State, earlier: Ctx, refused: Ctx, now: nat)
    ensures RestoreContext(d, s, earlier, refused, now).staged == s.staged
  {
    hide CurrentDefault;
  }

  lemma RefreshStages(s: State, before: Option<map<Ctx, set<Key>>>)
    ensures Refresh(RestoreAutoKeys(s, before)).staged == s.staged
  {
  }

  lemma FinishKeepsInv(d: Descriptor, s: State, b: Batch, verdict: Verdict, now: nat)
    requires Inv(d, s, now) && Convertible(d, b.previous)
    ensures Inv(d, Finish(d, s, b, verdict, now).0, now)
    ensures Finish(d, s, b, verdict, now).0.staged == s.staged
  {
    hide Inv, RollBack, StoreIfAsked, Refresh;
    RollBackKeepsInv(d, s, b, now);
    RollBackStages(d, s, b, now);
    DefaultsKeep(d, s, now, b);
    DefaultsKeep(d, RollBack(d, s, b, now), now, b);
  }

  lemma DefaultsKeep(d: Descriptor, s: State, now: nat, b: Batch)
    requires Inv(d, s, now)
    ensures Inv(d, StoreIfAsked(Refresh(s), b), now)
    ensures StoreIfAsked(Refresh(s), b).staged == s.staged
  {
    RefreshKeepsInv(d, s, now);
    StoreDefaultsKeepsInv(d, Refresh(s), now);
    hide Inv;
  }

  lemma RefreshKeepsInv(d: Descriptor, s: State, now: nat)
    requires Inv(d, s, now)
    ensures Inv(d, Refresh(s), now)
  {
    Untouched(d, s, Refresh(s), now);
    hide Inv;
  }

  lemma StoreDefaultsKeepsInv(d: Descriptor, s: State, now: nat)
    requires Inv(d, s, now)
    ensures Inv(d, StoreDefaults(s), now)
  {
    StoredAlike(s, StoreDefaults(s));
    hide StoreOrdered, PendingBounded, IsStored;
  }
}
