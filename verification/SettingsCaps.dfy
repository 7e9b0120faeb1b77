/**
 How many contexts a block stores sets of (core/src/Settings.cpp). set() asks for the cap; a reset stores its set of the
 default context without asking.
 */
module SettingsCaps {
  import opened Wrappers
  import opened SettingsStore
  import opened Settings
  import opened SettingsInvariants
  import opened SettingsTransactions

  // the contexts with stored sets, apart from the default one
  function Others(store: Store): set<Name> { ContextsHeld(store) - {DEFAULT_CONTEXT} }

  lemma SubsetSize(a: set<Name>, b: set<Name>)
    requires a <= b
    ensures |a| <= |b|
  {
    assert b == a + (b - a);
  }

  // --- what each operation adds -----------------------------------------------------------------------------------

  lemma AddedHolds(d: Descriptor, s: State, values: Values, ctx: Ctx)
    ensures ContextsHeld(AddStored(d, s, values, ctx).stored) == ContextsHeld(s.stored) + {ctx.context}
  {
    hide AutoKeysFor, Inserted;
    var held := ContextsHeld(AddStored(d, s, values, ctx).stored);
    assert ctx.context in held;
  }

  // pruning empties no context that holds a set which has not expired
  lemma KeptHolds(d: Descriptor, v: seq<StoredSet>, now: nat)
    ensures Kept(d, v, now) != [] <==> exists p :: p in v && !Expired(p, d.expiry, now)
  {
    var alive := Unexpired(v, d.expiry, now);
    if alive != [] {
      assert alive[0] in alive;
    }
    hide Unexpired, PrunedCount;
  }

  function Alive(d: Descriptor, store: Store, now: nat): set<Name> {
    set n | n in store && exists p :: p in store[n] && !Expired(p, d.expiry, now)
  }

  lemma PrunedHolds(d: Descriptor, s: State, now: nat)
    ensures ContextsHeld(RemoveExpired(d, s, now).stored) == Alive(d, s.stored, now) <= ContextsHeld(s.stored)
    ensures d.expiry.None? ==> Alive(d, s.stored, now) == ContextsHeld(s.stored)
  {
    hide Kept, Dropped;
    forall n | n in s.stored
      ensures Kept(d, s.stored[n], now) != [] <==> exists p :: p in s.stored[n] && !Expired(p, d.expiry, now)
    {
      KeptHolds(d, s.stored[n], now);
    }
    forall n | n in s.stored && s.stored[n] != [] && d.expiry.None? ensures n in Alive(d, s.stored, now) {
      assert s.stored[n][0] in s.stored[n] && !Expired(s.stored[n][0], d.expiry, now);
    }
  }

  lemma SetHolds(d: Descriptor, s: State, params: Values, ctx: Ctx, now: nat, pruneNow: nat)
    requires Set(d, s, params, ctx, now, pruneNow).Some?
    ensures var held := ContextsHeld(Set(d, s, params, ctx, now, pruneNow).value.0.stored);
            && held <= ContextsHeld(s.stored) + {ctx.context}
            && (d.expiry.None? ==> held == ContextsHeld(s.stored) + {ctx.context})
    ensures ctx.context in ContextsHeld(s.stored) || |ContextsHeld(s.stored)| < MAX_CONTEXTS
  {
    hide AutoKeysFor, BestSettings, RemoveExpired, AddStored, Writable, NotWritable, Given, Pending;
    var at := WithTime(ctx, now);
    var taken := Writable(d, Given(d, params));
    var values := BestSettings(d, s.stored, at).GetOr(s.defaults) + taken;
    var s1 := s.(autoUpdate := s.autoUpdate[at := AutoKeysFor(d, s, at) - taken.Keys]);
    AddedHolds(d, s1, values, at);
    PrunedHolds(d, AddStored(d, s1, values, at), pruneNow);
  }

  lemma RemovalHolds(d: Descriptor, s: State, ctx: Ctx, now: nat, now2: nat, now3: nat)
    ensures var held := ContextsHeld(Remove(d, s, ctx, now, now2, now3).0.stored);
            held <= ContextsHeld(s.stored) && (DEFAULT_CONTEXT in ContextsHeld(s.stored) ==> DEFAULT_CONTEXT in held)
  {
    hide IndexAtTime, LeaveContext, FallBack, WithoutSet;
    if ctx.context != DEFAULT_CONTEXT && ctx.context in s.stored {
      var found := IndexAtTime(s.stored[ctx.context], WithTime(ctx, now).time);
      if found.Some? {
        var s1 := WithoutSet(s, ctx.context, found.value);
        ErasureHolds(s, ctx.context, found.value);
        LeavingHolds(d, s1, s.stored[ctx.context][found.value].ctx, ctx.context, now2, now3);
      }
    }
  }

  lemma ErasureHolds(s: State, name: Name, i: nat)
    requires name in s.stored && i < |s.stored[name]| && name != DEFAULT_CONTEXT
    ensures var held := ContextsHeld(WithoutSet(s, name, i).stored);
            held <= ContextsHeld(s.stored) && (DEFAULT_CONTEXT in ContextsHeld(s.stored) ==> DEFAULT_CONTEXT in held)
  {
  }

  lemma LeavingHolds(d: Descriptor, s: State, removed: Ctx, name: Name, now: nat, now2: nat)
    ensures LeaveContext(d, FallBack(d, s, removed, now), name, now2).stored == s.stored
  {
    hide CurrentDefault, Activate;
    ActivateKeepsEntries(d, FallBack(d, s, removed, now), Ctx(0, DEFAULT_CONTEXT), now2);
  }

  lemma TagHolds(d: Descriptor, s: State, tag: Tag, now: nat, now2: nat)
    ensures AutoUpdate(d, s, tag, now, now2).stored == s.stored
  {
    hide TagActivates, TagSets;
    TagActivationHolds(d, s, tag, now);
    var (s1, ctx) := TagActivates(d, s, tag, now);
    TagValuesHold(d, s1, tag, ctx, s.active != ctx, now2);
  }

  lemma TagActivationHolds(d: Descriptor, s: State, tag: Tag, now: nat)
    ensures TagActivates(d, s, tag, now).0.stored == s.stored
  {
    hide Activate, TaggedByActivation;
    if tag.context.Some? { ActivateKeepsEntries(d, s, tag.context.value, now); }
  }

  lemma TagValuesHold(d: Descriptor, s: State, tag: Tag, ctx: Ctx, moved: bool, now: nat)
    ensures TagSets(d, s, tag, ctx, moved, now).stored == s.stored
  {
    hide FollowingKeys, Followed, ControlKeys, WithEntry, StageFromTag, ReportTag;
    var keys := FollowingKeys(d, s, ctx, now);
    var control, followed := ControlKeys(tag), Followed(d, s, tag, keys, moved);
    EntryHolds(s, ctx, keys);
    StagingHolds(WithEntry(s, ctx, keys), control, followed, tag.context.Some?, moved,
                 control != map[] || followed != map[]);
  }

  lemma EntryHolds(s: State, ctx: Ctx, keys: set<Key>)
    ensures WithEntry(s, ctx, keys).stored == s.stored
  {
  }

  lemma StagingHolds(s: State, control: Values, followed: Values, namesContext: bool, moved: bool, wasChanged: bool)
    ensures ReportTag(StageFromTag(s, control, followed), namesContext, moved, wasChanged).stored == s.stored
  {
  }

  lemma ResetHolds(d: Descriptor, s: State, now: nat, now2: nat)
    ensures var s1 := StageDefaults(d, s, now, now2).0;
            if RefusedDefaults(d, s, now) != map[] then s1 == s
            else ContextsHeld(s1.stored) == ContextsHeld(s.stored) + {DEFAULT_CONTEXT}
  {
    hide RefusedDefaults, Activate, AddStored, ContextsHeld;
    AddedHolds(d, s, s.defaults, Ctx(now, DEFAULT_CONTEXT));
    ActivateKeepsEntries(d, AddStored(d, s, s.defaults, Ctx(now, DEFAULT_CONTEXT)), Ctx(0, DEFAULT_CONTEXT), now2);
  }

  // the contexts after the start of an apply
  lemma BatchHolds(d: Descriptor, s: State, now: nat, now2: nat, now3: nat)
    ensures var held := ContextsHeld(Begin(d, s, now, now2, now3).0.stored);
            if Resets(d, s, now) then held == Alive(d, StageDefaults(d, Emptied(s), now, now2).0.stored, now3)
            else held == ContextsHeld(s.stored)
  {
    BeginParts(d, s, now, now2, now3);
    hide Begin, TakeBatch, StageDefaults, RefusedDefaults, ContextsHeld, Alive;
    if Resets(d, s, now) {
      TakePrunes(d, s, now, now2, now3);
    } else {
      TakeWithoutReset(d, s, now, now2, now3);
    }
  }

  lemma TakePrunes(d: Descriptor, s: State, now: nat, now2: nat, now3: nat)
    requires Resets(d, s, now)
    ensures ContextsHeld(TakeBatch(d, s, now, now2, now3).s.stored)
         == Alive(d, StageDefaults(d, Emptied(s), now, now2).0.stored, now3)
  {
    RefusedAlike(d, s, Emptied(s), now);
    StageDefaultsRefuses(d, Emptied(s), now, now2);
    hide RefusedDefaults, StageDefaults, RemoveExpired, ContextsHeld, Alive;
    var s1 := StageDefaults(d, Emptied(s), now, now2).0;
    var s2 := s1.(staged := map[], contextActivated := false, contextBefore := None, autoBefore := None);
    PrunedHolds(d, s2, now3);
  }

  lemma ResetCallHolds(d: Descriptor, s: State, now: nat, now2: nat, now3: nat, now4: nat)
    requires BeginReset(d, s, now, now2, now3, now4).Some?
    ensures ContextsHeld(BeginReset(d, s, now, now2, now3, now4).value.0.stored)
         == ContextsHeld(s.stored) + {DEFAULT_CONTEXT}
  {
    StageDefaultsRefuses(d, s, now, now2);
    ResetHolds(d, s, now, now2);
    hide StageDefaults, Begin, RefusedDefaults, ContextsHeld;
    var s1 := StageDefaults(d, s, now, now2).0;
    BatchHolds(d, s1.(staged := s1.staged - {RESET_DEFAULTS}), now2, now3, now4);
  }

  lemma RestoredSetsEmpty(d: Descriptor, b: Batch, v: seq<StoredSet>)
    ensures RestoredSets(d, b, v) == [] <==> v == []
  {
    hide RestoredSettings;
  }

  lemma EndHolds(d: Descriptor, s: State, b: Batch, verdict: Verdict, now: nat)
    ensures ContextsHeld(Finish(d, s, b, verdict, now).0.stored) == ContextsHeld(s.stored)
  {
    RollBackHolds(d, s, b, now);
    StoreParts(s, b);
    StoreParts(RollBack(d, s, b, now), b);
    hide RollBack, StoreIfAsked, Refresh, ContextsHeld;
  }

  lemma RollBackHolds(d: Descriptor, s: State, b: Batch, now: nat)
    ensures ContextsHeld(RollBack(d, s, b, now).stored) == ContextsHeld(s.stored)
  {
    hide RestoreRefused, RestoreContext, RestoreAutoKeys, Refresh;
    var s1 := RestoreRefused(d, s, b);
    var s2 := if b.before.Some? then RestoreContext(d, s1, b.before.value, b.ctx, now) else s1;
    RestoreHolds(d, s, b);
    if b.before.Some? { RestoreContextParts(d, s1, b.before.value, b.ctx, now); }
    RefreshParts(s2, b.autoBefore);
  }

  lemma RestoreHolds(d: Descriptor, s: State, b: Batch)
    ensures ContextsHeld(RestoreRefused(d, s, b).stored) == ContextsHeld(s.stored)
  {
    hide Restorable, RestoredSets;
    if b.ctx.context in s.stored { RestoredSetsEmpty(d, b, s.stored[b.ctx.context]); }
  }

  // --- the cap ----------------------------------------------------------------------------------------------------

  // what a reset adds to the contexts with sets that have not expired
  lemma AliveAfterReset(d: Descriptor, s: State, now: nat, now2: nat, at: nat)
    requires RefusedDefaults(d, s, now) == map[] && DEFAULT_CONTEXT !in ContextsHeld(s.stored)
    ensures var added := !Expired(StoredSet(Ctx(now, DEFAULT_CONTEXT), s.defaults), d.expiry, at);
            Alive(d, StageDefaults(d, s, now, now2).0.stored, at)
            == Alive(d, s.stored, at) + if added then {DEFAULT_CONTEXT} else {}
  {
    hide RefusedDefaults, Activate, AutoKeysFor, Expired;
    var ctx := Ctx(now, DEFAULT_CONTEXT);
    ActivateKeepsEntries(d, AddStored(d, s, s.defaults, ctx), Ctx(0, DEFAULT_CONTEXT), now2);
    var store := AddStored(d, s, s.defaults, ctx).stored;
    assert store[DEFAULT_CONTEXT] == [StoredSet(ctx, s.defaults)];
    assert StoredSet(ctx, s.defaults) in store[DEFAULT_CONTEXT];
  }

  // A reset passes the cap exactly when every place is taken by another context than the default one.
  lemma ResetPassesCapIff(d: Descriptor, s: State, now: nat, now2: nat)
    requires |ContextsHeld(s.stored)| <= MAX_CONTEXTS && RefusedDefaults(d, s, now) == map[]
    ensures |ContextsHeld(StageDefaults(d, s, now, now2).0.stored)| > MAX_CONTEXTS
      <==> DEFAULT_CONTEXT !in ContextsHeld(s.stored) && |ContextsHeld(s.stored)| == MAX_CONTEXTS
  {
    ResetHolds(d, s, now, now2);
    hide StageDefaults, RefusedDefaults, ContextsHeld;
    var held := ContextsHeld(s.stored);
    assert DEFAULT_CONTEXT in held ==> held + {DEFAULT_CONTEXT} == held;
  }
}
