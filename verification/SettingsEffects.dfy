/**
 What an accepted apply leaves in a block's members: the values staged, those an activation brings from the store, and
 the defaults a reset restores (core/src/Settings.cpp).
 */
module SettingsEffects {
  import opened Wrappers
  import opened SettingsStore
  import opened Settings
  import opened SettingsInvariants
  import opened SettingsTransactions

  // the value of a member once the values given have been applied
  function Taking(d: Descriptor, values: Values, key: Key, held: Value): Value {
    if key in values && key in d.writable && d.Takes(key, values[key]) then values[key] else held
  }

  lemma StagedValuesApply(d: Descriptor, s: State, now: nat, now2: nat, now3: nat, k: Key)
    requires RESET_DEFAULTS !in s.staged && k in s.members
    ensures var s1 := Begin(d, s, now, now2, now3).0;
            k in s1.members && s1.members[k] == Taking(d, s.staged, k, s.members[k]) && s1.active == s.active
  {
    hide Rejected, Moved;
  }

  // Another context's activation and one apply bring the stored values of its best match into the members, except where
  // a value was staged already.
  lemma ActivatedValuesApply(d: Descriptor, s: State, ctx: Ctx, now: nat, now2: nat, k: Key)
    requires k in s.members
    requires var (s1, best) := Activate(d, s, ctx, now);
             best.Some? && best.value.context != s.active.context && RESET_DEFAULTS !in s1.staged
    ensures BestSettings(d, s.stored, WithTime(ctx, now)).Some?
    ensures var values := BestSettings(d, s.stored, WithTime(ctx, now)).value;
            var s2 := Begin(d, Activate(d, s, ctx, now).0, now2, now2, now2).0;
            && Some(s2.active) == BestMatch(d, s.stored, WithTime(ctx, now)) && k in s2.members
            && s2.members[k] == Taking(d, if k in s.staged then s.staged else values, k, s.members[k])
  {
    hide BestMatch, BestSettings, AutoKeysFor, Begin;
    StagedValuesApply(d, Activate(d, s, ctx, now).0, now2, now2, now2, k);
  }

  // Another time of the active context brings only the values that do not follow tags there; they replace staged ones.
  lemma ReactivatedValuesApply(d: Descriptor, s: State, ctx: Ctx, now: nat, now2: nat, k: Key)
    requires k in s.members && RESET_DEFAULTS !in s.staged && RESET_DEFAULTS !in d.writable
    requires var (s1, best) := Activate(d, s, ctx, now);
             best.Some? && best.value.context == s.active.context && best.value != s.active
    requires BestSettings(d, s.stored, WithTime(ctx, now)).Some?
    ensures var at := WithTime(ctx, now);
            var best, values := BestMatch(d, s.stored, at).value, BestSettings(d, s.stored, at).value;
            var s2 := Begin(d, Activate(d, s, ctx, now).0, now2, now2, now2).0;
            var brought := k in values && k in d.writable && k !in AutoKeysFor(d, s, best);
            && s2.active == best && k in s2.members
            && s2.members[k] == Taking(d, if brought then values else s.staged, k, s.members[k])
  {
    hide BestMatch, BestSettings, AutoKeysFor, Begin;
    StagedValuesApply(d, Activate(d, s, ctx, now).0, now2, now2, now2, k);
  }

  // --- reset ------------------------------------------------------------------------------------------------------

  lemma BestIsLookup(d: Descriptor, store: Store, ctx: Ctx)
    requires ctx.context in store && OfContext(store[ctx.context], ctx.context)
    ensures BestSettings(d, store, ctx) == Lookup(store[ctx.context], ctx.time)
  {
    hide FirstOf, LatestAt;
    var best := BestCtx(store[ctx.context], ctx.time);
    if best.Some? {
      var p :| p in store[ctx.context] && p.ctx == best.value;
    }
  }

  // The defaults stored now are what a lookup of the default context finds, unless the context holds a later set
  // already.
  lemma DefaultsAreFound(d: Descriptor, s: State, now: nat, now2: nat)
    requires StoreOrdered(s.stored) && now <= now2 && 0 < now2
    ensures var store, at := AddStored(d, s, s.defaults, Ctx(now, DEFAULT_CONTEXT)).stored, Ctx(now2, DEFAULT_CONTEXT);
            && (BestMatch(d, store, at) == Some(Ctx(now, DEFAULT_CONTEXT)) <==> NoneBetween(s, now, now2))
            && (NoneBetween(s, now, now2) ==> BestSettings(d, store, at) == Some(s.defaults))
  {
    var v, p := SetsOf(s.stored, DEFAULT_CONTEXT), StoredSet(Ctx(now, DEFAULT_CONTEXT), s.defaults);
    var store := AddStored(d, s, s.defaults, p.ctx).stored;
    VectorOrdered(s, DEFAULT_CONTEXT);
    InsertedIs(v, p, DEFAULT_CONTEXT);
    InsertedIsFound(v, p, now2);
    hide Inserted, LatestAt, FirstOf, Lookup, AutoKeysFor, BestCtx;
    assert store[DEFAULT_CONTEXT] == Inserted(v, p);
    BestIsLookup(d, store, Ctx(now2, DEFAULT_CONTEXT));
  }

  // the default context holds no set later than now that a lookup at now2 would find
  ghost predicate NoneBetween(s: State, now: nat, now2: nat) {
    forall p :: p in SetsOf(s.stored, DEFAULT_CONTEXT) ==> !(now < p.ctx.time <= now2)
  }

  lemma InsertedIsFound(v: seq<StoredSet>, p: StoredSet, t: nat)
    requires Sorted(v) && OfContext(v, p.ctx.context) && p.ctx.time <= t && 0 < t
    ensures BestCtx(Inserted(v, p), t) == Some(p.ctx) <==> forall q :: q in v ==> !(p.ctx.time < q.ctx.time <= t)
    ensures BestCtx(Inserted(v, p), t) == Some(p.ctx) ==> Lookup(Inserted(v, p), t) == Some(p.settings)
  {
    InsertedBefore(v, p, t);
    InsertedIsFirst(v, p);
    hide Inserted, BestCtx, FirstOf, Sorted, OfContext;
  }

  // insertion goes before the sets of its time, so that a lookup of the time returns the newest of them
  lemma InsertedIsFirst(v: seq<StoredSet>, p: StoredSet)
    ensures FirstOf(Inserted(v, p), p.ctx) == Some(p)
  {
    var i, r := FirstNotBefore(v, p.ctx.time), Inserted(v, p);
    hide FirstNotBefore;
    FirstOfSuffix(r, i, p.ctx);
    assert r[i..][0] == p;
  }

  lemma InsertedBefore(v: seq<StoredSet>, p: StoredSet, t: nat)
    requires Sorted(v) && OfContext(v, p.ctx.context) && p.ctx.time <= t && 0 < t
    ensures BestCtx(Inserted(v, p), t) == Some(p.ctx) <==> forall q :: q in v ==> !(p.ctx.time < q.ctx.time <= t)
  {
    InsertedAnswer(v, p, t);
    NoneLater(v, p.ctx.time, t);
    hide FirstNotBefore, Inserted, BestCtx, Sorted, OfContext;
  }

  lemma InsertedAnswer(v: seq<StoredSet>, p: StoredSet, t: nat)
    requires Sorted(v) && OfContext(v, p.ctx.context) && p.ctx.time <= t && 0 < t
    ensures var i, k := FirstNotBefore(v, p.ctx.time), FirstNotBefore(v, t + 1);
            BestCtx(Inserted(v, p), t) == Some(Ctx(if k > i then v[k - 1].ctx.time else p.ctx.time, p.ctx.context))
  {
    hide FirstNotBefore, BestCtx, Sorted, OfContext;
    var k, r := FirstNotBefore(v, t + 1), Inserted(v, p);
    InsertedSorted(v, p);
    InsertedNext(v, p, t + 1);
    InsertedAt(v, p, k);
    BestCtxIs(r, t);
    hide Inserted;
  }

  lemma InsertedNext(v: seq<StoredSet>, p: StoredSet, t: nat)
    requires Sorted(v) && p.ctx.time < t
    ensures FirstNotBefore(Inserted(v, p), t) == FirstNotBefore(v, t) + 1
    ensures FirstNotBefore(v, p.ctx.time) <= FirstNotBefore(v, t)
  {
    hide FirstNotBefore;
    FirstNotBeforeIs(Inserted(v, p), t, FirstNotBefore(v, t) + 1);
  }

  // no set has a time in (time, t] exactly when the last one not later than t is not later than time
  lemma NoneLater(v: seq<StoredSet>, time: nat, t: nat)
    requires Sorted(v) && time <= t
    ensures var i, k := FirstNotBefore(v, time), FirstNotBefore(v, t + 1);
            (k <= i || v[k - 1].ctx.time == time) <==> forall q :: q in v ==> !(time < q.ctx.time <= t)
  {
    hide FirstNotBefore;
    var i, k := FirstNotBefore(v, time), FirstNotBefore(v, t + 1);
    if k > i {
      assert v[k - 1] in v;
    }
  }

  lemma InsertedAt(v: seq<StoredSet>, p: StoredSet, k: nat)
    requires OfContext(v, p.ctx.context) && FirstNotBefore(v, p.ctx.time) <= k <= |v|
    ensures var i := FirstNotBefore(v, p.ctx.time);
            && Inserted(v, p)[k] == (if k == i then p else v[k - 1])
            && Inserted(v, p)[k].ctx.context == p.ctx.context
  {
    hide FirstNotBefore;
  }

  // what the activation of a reset brings of the values it finds in the default context
  function Brought(d: Descriptor, s: State, found: Ctx, values: Values): Values {
    if s.active.context != DEFAULT_CONTEXT then values
    else if found == s.active then map[]
    else map k | k in values && k in d.writable && k !in AutoKeysFor(d, s, found) :: values[k]
  }

  lemma ActivationStages(d: Descriptor, s: State, ctx: Ctx, now: nat)
    requires BestMatch(d, s.stored, WithTime(ctx, now)).Some? && BestSettings(d, s.stored, WithTime(ctx, now)).Some?
    requires BestMatch(d, s.stored, WithTime(ctx, now)).value.context == DEFAULT_CONTEXT
    ensures var found := BestMatch(d, s.stored, WithTime(ctx, now)).value;
            var values := BestSettings(d, s.stored, WithTime(ctx, now)).value;
            var s1 := Activate(d, s, ctx, now).0;
            && s1.active == found
            && s1.staged == if s.active.context != DEFAULT_CONTEXT then values + s.staged
                            else s.staged + Brought(d, s, found, values)
  {
    hide BestMatch, BestSettings, ActivateSameContext, Brought;
    var at := WithTime(ctx, now);
    var found, values := BestMatch(d, s.stored, at).value, BestSettings(d, s.stored, at).value;
    if found != s.active { DefaultContextStages(d, s, found, values); }
    assert s.active == found ==> s.staged + Brought(d, s, found, values) == s.staged
      by { BroughtNothing(d, s, values); }
  }

  lemma BroughtNothing(d: Descriptor, s: State, values: Values)
    ensures s.active.context == DEFAULT_CONTEXT ==> Brought(d, s, s.active, values) == map[]
  {
  }

  lemma DefaultContextStages(d: Descriptor, s: State, found: Ctx, values: Values)
    requires s.active.context == DEFAULT_CONTEXT ==> found != s.active
    ensures ActivateSameContext(d, s, found, values).active == found
    ensures s.active.context == DEFAULT_CONTEXT ==>
              ActivateSameContext(d, s, found, values).staged == s.staged + Brought(d, s, found, values)
  {
    hide AutoKeysFor;
  }

  // What a reset stages: the values of the default context's present set as they are from another context, and only
  // those that do not follow tags where the default context is active. The latter replace staged ones.
  lemma ResetStages(d: Descriptor, s: State, now: nat, now2: nat)
    requires StoreOrdered(s.stored) && now <= now2 && RefusedDefaults(d, s, now) == map[]
    ensures var a, at := AddStored(d, s, s.defaults, Ctx(now, DEFAULT_CONTEXT)), Ctx(now2, DEFAULT_CONTEXT);
            BestMatch(d, a.stored, at).Some? && BestSettings(d, a.stored, at).Some?
    ensures var a, at := AddStored(d, s, s.defaults, Ctx(now, DEFAULT_CONTEXT)), Ctx(now2, DEFAULT_CONTEXT);
            var found, values := BestMatch(d, a.stored, at).value, BestSettings(d, a.stored, at).value;
            var s1 := StageDefaults(d, s, now, now2).0;
            && s1.active == found && found.context == DEFAULT_CONTEXT
            && s1.staged == if s.active.context != DEFAULT_CONTEXT then values + s.staged
                            else s.staged + Brought(d, a, found, values)
  {
    DefaultIsMatched(d, s, now, now2);
    hide RefusedDefaults, BestMatch, BestSettings, AddStored, Activate, Brought;
    AddedAlike(d, s, s.defaults, Ctx(now, DEFAULT_CONTEXT));
    ActivationStages(d, AddStored(d, s, s.defaults, Ctx(now, DEFAULT_CONTEXT)), Ctx(0, DEFAULT_CONTEXT), now2);
  }

  // The defaults a reset at now brings back: all of them from another context; where the default context is active,
  // those of the writable members that do not follow tags in the set stored now, and none at that set's own time.
  function Restored(d: Descriptor, s: State, now: nat): Values {
    if s.active.context != DEFAULT_CONTEXT then s.defaults
    else if s.active.time == now then map[]
    else
      var keys := AutoKeysFor(d, s, Ctx(now, DEFAULT_CONTEXT));
      map k | k in s.defaults && k in d.writable && k !in keys :: s.defaults[k]
  }

  lemma ResetStagesDefaults(d: Descriptor, s: State, now: nat, now2: nat)
    requires StoreOrdered(s.stored) && now <= now2 && 0 < now2 && RefusedDefaults(d, s, now) == map[]
    requires NoneBetween(s, now, now2)
    ensures var s1 := StageDefaults(d, s, now, now2).0;
            && s1.active == Ctx(now, DEFAULT_CONTEXT)
            && s1.staged == if s.active.context != DEFAULT_CONTEXT then s.defaults + s.staged
                            else s.staged + Restored(d, s, now)
  {
    ResetStages(d, s, now, now2);
    DefaultsAreFound(d, s, now, now2);
    AddedAlike(d, s, s.defaults, Ctx(now, DEFAULT_CONTEXT));
    AddedKeys(d, s, now);
    hide RefusedDefaults, BestMatch, BestSettings, AddStored, StageDefaults, AutoKeysFor, NoneBetween;
  }

  lemma AddedKeys(d: Descriptor, s: State, now: nat)
    ensures var ctx := Ctx(now, DEFAULT_CONTEXT);
            AutoKeysFor(d, AddStored(d, s, s.defaults, ctx), ctx) == AutoKeysFor(d, s, ctx)
  {
    hide BestAutoKeys, Inserted;
  }

  // A reset in a batch makes the default context's present set the active one and brings its values, over which the
  // batch's own values apply. Where the context held no later set these are the defaults.
  lemma ResetInBatchTakesEffect(d: Descriptor, s: State, now: nat, now2: nat, now3: nat, k: Key)
    requires StoreOrdered(s.stored) && now <= now2 && Resets(d, s, now) && k in s.members
    ensures var a, at := AddStored(d, Emptied(s), s.defaults, Ctx(now, DEFAULT_CONTEXT)), Ctx(now2, DEFAULT_CONTEXT);
            BestMatch(d, a.stored, at).Some? && BestSettings(d, a.stored, at).Some?
    ensures var a, at := AddStored(d, Emptied(s), s.defaults, Ctx(now, DEFAULT_CONTEXT)), Ctx(now2, DEFAULT_CONTEXT);
            var found, values := BestMatch(d, a.stored, at).value, BestSettings(d, a.stored, at).value;
            var s1 := Begin(d, s, now, now2, now3).0;
            && s1.active == found && k in s1.members
            && s1.members[k] == Taking(d, Brought(d, a, found, values) + s.staged, k, s.members[k])
  {
    hide RefusedDefaults, StageDefaults, AddStored, BestMatch, BestSettings, TakeBatch, AutoKeysFor, StoreOrdered,
      Taking;
    RefusedAlike(d, s, Emptied(s), now);
    ResetStages(d, Emptied(s), now, now2);
    TakeWithReset(d, s, now, now2, now3);
    AddedAlike(d, Emptied(s), s.defaults, Ctx(now, DEFAULT_CONTEXT));
    BeginTakes(d, s, now, now2, now3, k);
    hide Begin;
    var a, at := AddStored(d, Emptied(s), s.defaults, Ctx(now, DEFAULT_CONTEXT)), Ctx(now2, DEFAULT_CONTEXT);
    BroughtAlone(d, a, BestMatch(d, a.stored, at).value, BestSettings(d, a.stored, at).value);
  }

  lemma BroughtAlone(d: Descriptor, s: State, found: Ctx, values: Values)
    ensures (if s.active.context != DEFAULT_CONTEXT then values + map[] else map[] + Brought(d, s, found, values))
         == Brought(d, s, found, values)
  {
    hide AutoKeysFor;
  }

  // a member after the start of an apply
  lemma BeginTakes(d: Descriptor, s: State, now: nat, now2: nat, now3: nat, k: Key)
    requires k in s.members
    ensures var s1, t := Begin(d, s, now, now2, now3).0, TakeBatch(d, s, now, now2, now3);
            && s1.active == t.s.active && k in s1.members && s1.members[k] == Taking(d, t.toApply, k, s.members[k])
  {
    TakeBatchMembers(d, s, now, now2, now3);
    hide TakeBatch, Rejected, Moved;
  }

  // A reset in a batch restores the defaults: every one from another context, and from the default context those that
  // do not follow tags. The batch's own values apply over them.
  lemma ResetRestoresDefaults(d: Descriptor, s: State, now: nat, now2: nat, now3: nat, k: Key)
    requires StoreOrdered(s.stored) && now <= now2 && 0 < now2 && Resets(d, s, now) && k in s.members
    requires NoneBetween(s, now, now2)
    ensures var s1 := Begin(d, s, now, now2, now3).0;
            && s1.active == Ctx(now, DEFAULT_CONTEXT) && k in s1.members
            && s1.members[k] == Taking(d, Restored(d, s, now) + s.staged, k, s.members[k])
  {
    ResetBatchValues(d, s, now, now2, now3);
    BeginTakes(d, s, now, now2, now3, k);
    hide Begin, TakeBatch, Restored, Resets, NoneBetween, Taking;
  }

  lemma ResetBatchValues(d: Descriptor, s: State, now: nat, now2: nat, now3: nat)
    requires StoreOrdered(s.stored) && now <= now2 && 0 < now2 && Resets(d, s, now) && NoneBetween(s, now, now2)
    ensures var t := TakeBatch(d, s, now, now2, now3);
            t.s.active == Ctx(now, DEFAULT_CONTEXT) && t.toApply == Restored(d, s, now) + s.staged
  {
    RefusedAlike(d, s, Emptied(s), now);
    RestoredAlike(d, s, now);
    TakeWithReset(d, s, now, now2, now3);
    hide RefusedDefaults, StageDefaults, TakeBatch, Restored;
    ResetStagesDefaults(d, Emptied(s), now, now2);
    RestoredAll(d, s, now);
  }

  lemma RestoredAll(d: Descriptor, s: State, now: nat)
    ensures s.active.context != DEFAULT_CONTEXT ==> Restored(d, s, now) == s.defaults
    ensures s.defaults + map[] == s.defaults && map[] + Restored(d, s, now) == Restored(d, s, now)
  {
  }

  lemma RestoredAlike(d: Descriptor, s: State, now: nat)
    ensures Restored(d, Emptied(s), now) == Restored(d, s, now)
  {
  }

  // resetDefaults() does the same with what was staged before it, which where the default context is active gives way
  // to the defaults.
  lemma ResetCallRestoresDefaults(d: Descriptor, s: State, now: nat, now2: nat, now3: nat, now4: nat, k: Key)
    requires StoreOrdered(s.stored) && now <= now2 && 0 < now2 && RefusedDefaults(d, s, now) == map[] && k in s.members
    requires NoneBetween(s, now, now2)
    ensures BeginReset(d, s, now, now2, now3, now4).Some?
    ensures var s1 := BeginReset(d, s, now, now2, now3, now4).value.0;
            var toApply := if s.active.context != DEFAULT_CONTEXT then s.defaults + s.staged
                           else s.staged + Restored(d, s, now);
            && s1.active == Ctx(now, DEFAULT_CONTEXT) && k in s1.members
            && s1.members[k] == Taking(d, toApply - {RESET_DEFAULTS}, k, s.members[k])
  {
    StageDefaultsRefuses(d, s, now, now2);
    StageDefaultsMembers(d, s, now, now2);
    ResetStagesDefaults(d, s, now, now2);
    hide StageDefaults, Begin, RefusedDefaults, Restored;
    var s1 := StageDefaults(d, s, now, now2).0;
    StagedValuesApply(d, s1.(staged := s1.staged - {RESET_DEFAULTS}), now2, now3, now4, k);
  }
}
