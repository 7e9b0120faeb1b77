/**
 The apply as a transaction: what a refused batch takes back, and what each batch holds over every interleaving of
 public calls and applies.
 */
module SettingsTransactions {
  import opened Wrappers
  import opened SettingsStore
  import opened Settings
  import opened SettingsInvariants

  // the state the public operations leave: no reset is half done, and every writable member exists
  ghost predicate Settled(d: Descriptor, s: State) { s.autoBefore.None? && d.writable <= s.members.Keys }

  // resetDefaults() up to the callback; None when the limits refuse a default
  function BeginReset(d: Descriptor, s: State, now: nat, now2: nat, now3: nat, now4: nat): Option<(State, Batch)> {
    var (s1, refused) := StageDefaults(d, s, now, now2);
    if refused != map[] then None
    else Some(Begin(d, s1.(staged := s1.staged - {RESET_DEFAULTS}), now2, now3, now4))
  }

  // --- a refused batch --------------------------------------------------------------------------------------------

  lemma BeginMembers(d: Descriptor, s: State, now: nat, now2: nat, now3: nat)
    requires Settled(d, s) && d.hasCallback
    ensures var (s1, b) := Begin(d, s, now, now2, now3);
            && b.previous == s.members && s1.members == s.members + b.applied
            && (forall k :: k in s.members && k !in b.reported ==> s1.members[k] == s.members[k])
            && b.applied.Keys <= d.writable
  {
    TakeBatchMembers(d, s, now, now2, now3);
    hide TakeBatch;
  }

  lemma TakeBatchMembers(d: Descriptor, s: State, now: nat, now2: nat, now3: nat)
    ensures TakeBatch(d, s, now, now2, now3).s.members == s.members
  {
    hide RefusedDefaults, AddStored, Kept, Dropped;
    var s0 := Emptied(s);
    StageDefaultsMembers(d, s0, now, now2);
    hide StageDefaults;
  }

  lemma StageDefaultsMembers(d: Descriptor, s: State, now: nat, now2: nat)
    ensures StageDefaults(d, s, now, now2).0.members == s.members
  {
    hide RefusedDefaults, Activate, AutoKeysFor, Inserted;
    ActivateMembers(d, AddStored(d, s, s.defaults, Ctx(now, DEFAULT_CONTEXT)), Ctx(0, DEFAULT_CONTEXT), now2);
  }

  lemma ActivateMembers(d: Descriptor, s: State, ctx: Ctx, now: nat)
    ensures Activate(d, s, ctx, now).0.members == s.members
  {
    hide BestMatch, BestSettings, AutoKeysFor;
  }

  // A refused batch leaves each member as it was before the apply, unless the limits refuse the value it had.
  lemma RefusedMembersReturn(d: Descriptor, s: State, now: nat, now2: nat, now3: nat, at: nat)
    requires Settled(d, s) && d.hasCallback
    requires Begin(d, s, now, now2, now3).1.reported != map[]
    ensures var (s1, b) := Begin(d, s, now, now2, now3);
            var s2 := Finish(d, s1, b, Refuse, at).0;
            && s2.members.Keys == s.members.Keys
            && forall k :: k in s.members ==>
                 s2.members[k] == if k in b.applied && !d.Takes(k, s.members[k]) then b.applied[k] else s.members[k]
  {
    BeginMembers(d, s, now, now2, now3);
    var (s1, b) := Begin(d, s, now, now2, now3);
    FinishMembers(d, s1, b, at);
    RollBackParts(d, s1, b, at);
    ReportedIsMoved(d, s, now, now2, now3);
    hide Begin, Finish, TakeBatch, RollBack;
  }

  lemma ReportedIsMoved(d: Descriptor, s: State, now: nat, now2: nat, now3: nat)
    requires d.hasCallback
    ensures var b := Begin(d, s, now, now2, now3).1;
            && (forall k :: k in b.applied ==> k in b.reported || (k in s.members && b.applied[k] == s.members[k]))
            && (forall k :: k in b.reported && k != CONTEXT_FIELD ==> k in b.applied && b.reported[k] == b.applied[k])
            && b.applied.Keys !! Rejected(d, TakeBatch(d, s, now, now2, now3).toApply).Keys
            && (CONTEXT_FIELD in b.reported && !b.activated ==> CONTEXT_FIELD in b.applied)
            && (b.activated ==> CONTEXT_FIELD in b.reported)
  {
    hide TakeBatch;
    TakeBatchMembers(d, s, now, now2, now3);
  }

  // what each part of a roll-back leaves alone
  lemma RestoreRefusedParts(d: Descriptor, s: State, b: Batch)
    ensures var r := RestoreRefused(d, s, b);
            && r.members == s.members + (map k | k in Restorable(d, b) :: b.previous[k])
            && r.staged == s.staged && r.autoUpdate == s.autoUpdate && r.active == s.active
            && r.contextBefore == s.contextBefore && r.contextActivated == s.contextActivated
            && r.stored.Keys == s.stored.Keys
            && (b.activated ==> r.stored == s.stored)
  {
    hide Restorable, RestoredSets;
  }

  // the context a refusal leaves active where the batch's was: the earlier one, or the default context's present set
  // when the earlier context holds no set any more
  function GoesBack(d: Descriptor, s: State, earlier: Ctx, refused: Ctx, at: nat): Ctx {
    if earlier.context in s.stored then earlier else CurrentDefault(d, s, at).GetOr(refused)
  }

  lemma RestoreContextParts(d: Descriptor, s: State, earlier: Ctx, refused: Ctx, at: nat)
    ensures var r := RestoreContext(d, s, earlier, refused, at);
            && r.members == s.members && r.staged == s.staged && r.autoUpdate == s.autoUpdate && r.stored == s.stored
            && r.contextActivated == s.contextActivated
            && r.active == (if s.active == refused then GoesBack(d, s, earlier, refused, at) else s.active)
            && (s.contextBefore == None ==> r.contextBefore == None)
            && (earlier.context in s.stored ==>
                  r.contextBefore == (if s.contextBefore == Some(refused) then Some(earlier) else s.contextBefore))
  {
    hide CurrentDefault;
  }

  lemma RefreshParts(s: State, before: Option<map<Ctx, set<Key>>>)
    ensures var r := Refresh(RestoreAutoKeys(s, before));
            && r.members == s.members && r.staged == s.staged && r.stored == s.stored && r.active == s.active
            && r.contextBefore == s.contextBefore && r.contextActivated == s.contextActivated
            && r.autoUpdate == RestoreAutoKeys(s, before).autoUpdate
            && r.autoUpdate.Keys == s.autoUpdate.Keys
            && (before.Some? ==> forall c :: c in s.autoUpdate && c in before.value ==>
                  r.autoUpdate[c] == before.value[c])
            && (before.None? ==> r.autoUpdate == s.autoUpdate)
  {
  }

  lemma RollBackParts(d: Descriptor, s: State, b: Batch, at: nat)
    ensures var r := RollBack(d, s, b, at);
            && r.members == s.members + (map k | k in Restorable(d, b) :: b.previous[k])
            && r.staged == s.staged && r.contextActivated == s.contextActivated
            && (b.activated ==> r.stored == s.stored)
            && (b.before.None? ==> r.active == s.active)
            && (b.before.Some? && s.active == b.ctx ==>
                  r.active == GoesBack(d, RestoreRefused(d, s, b), b.before.value, b.ctx, at))
            && (s.contextBefore == None ==> r.contextBefore == None)
            && r.stored.Keys == s.stored.Keys && r.autoUpdate.Keys == s.autoUpdate.Keys
            && (b.autoBefore.Some? ==>
                  forall c :: c in s.autoUpdate && c in b.autoBefore.value ==> r.autoUpdate[c] == b.autoBefore.value[c])
            && (b.autoBefore.None? ==> r.autoUpdate == s.autoUpdate)
  {
    hide Restorable, RestoreRefused, RestoreContext, RestoreAutoKeys, Refresh, GoesBack;
    RestoreRefusedParts(d, s, b);
    var s1 := RestoreRefused(d, s, b);
    var s2 := if b.before.Some? then RestoreContext(d, s1, b.before.value, b.ctx, at) else s1;
    if b.before.Some? { RestoreContextParts(d, s1, b.before.value, b.ctx, at); }
    RefreshParts(s2, b.autoBefore);
  }

  // what the end of a refused apply keeps of the roll-back
  lemma FinishMembers(d: Descriptor, s: State, b: Batch, at: nat)
    requires b.reported != map[]
    ensures var s', r := Finish(d, s, b, Refuse, at).0, RollBack(d, s, b, at);
            && s'.members == r.members && s'.staged == r.staged && s'.active == r.active && s'.stored == r.stored
            && s'.autoUpdate == r.autoUpdate && s'.contextBefore == r.contextBefore
            && s'.contextActivated == r.contextActivated
  {
    StoreParts(RollBack(d, s, b, at), b);
    hide RollBack, StoreIfAsked, Refresh;
  }

  lemma StoreParts(s: State, b: Batch)
    ensures var r := StoreIfAsked(Refresh(s), b);
            && r.members == s.members && r.staged == s.staged && r.active == s.active && r.stored == s.stored
            && r.autoUpdate == s.autoUpdate
            && r.contextBefore == s.contextBefore && r.contextActivated == s.contextActivated
  {
  }

  // --- the context a refusal returns to ---------------------------------------------------------------------------

  lemma {:induction false} LatestExists(v: seq<StoredSet>, p: StoredSet, t: nat)
    requires p in v && p.ctx.time <= t
    ensures LatestAt(v, t).Some?
  {
    var k := |v| - 1;
    if t < v[k].ctx.time {
      var i :| 0 <= i < |v| && v[i] == p;
      assert v[..k][i] == p;
      LatestExists(v[..k], p, t);
    }
  }

  lemma MatchHasSettings(d: Descriptor, store: Store, ctx: Ctx)
    requires ctx.context in store && OfContext(store[ctx.context], ctx.context)
    ensures var best := BestMatch(d, store, ctx);
            && (best.Some? ==> best.value.context == ctx.context)
            && (best.Some? <==> BestSettings(d, store, ctx).Some?)
  {
    hide LatestAt, FirstOf;
    var best := BestCtx(store[ctx.context], ctx.time);
    if best.Some? {
      var p :| p in store[ctx.context] && p.ctx == best.value;
    }
  }

  // the set a reset stores, or a later one, is the default context's present set
  lemma DefaultIsMatched(d: Descriptor, s: State, now: nat, now2: nat)
    requires StoreOrdered(s.stored) && now <= now2
    ensures var store, at := AddStored(d, s, s.defaults, Ctx(now, DEFAULT_CONTEXT)).stored, Ctx(now2, DEFAULT_CONTEXT);
            && BestMatch(d, store, at).Some? && BestMatch(d, store, at).value.context == DEFAULT_CONTEXT
            && BestSettings(d, store, at).Some?
  {
    var v, p := SetsOf(s.stored, DEFAULT_CONTEXT), StoredSet(Ctx(now, DEFAULT_CONTEXT), s.defaults);
    var store := AddStored(d, s, s.defaults, p.ctx).stored;
    VectorOrdered(s, DEFAULT_CONTEXT);
    InsertedIs(v, p, DEFAULT_CONTEXT);
    hide AutoKeysFor, Inserted, LatestAt, FirstOf;
    assert store[DEFAULT_CONTEXT] == Inserted(v, p);
    LatestExists(Inserted(v, p), p, now2);
    MatchHasSettings(d, store, Ctx(now2, DEFAULT_CONTEXT));
  }

  lemma AddedAlike(d: Descriptor, s: State, values: Values, ctx: Ctx)
    ensures var s1 := AddStored(d, s, values, ctx);
            && s1.active == s.active && s1.staged == s.staged && s1.contextActivated == s.contextActivated
            && s1.contextBefore == s.contextBefore && s1.stored.Keys == s.stored.Keys + {ctx.context}
  {
    hide Inserted, AutoKeysFor;
  }

  lemma SameContextParts(d: Descriptor, s: State, best: Ctx, values: Values)
    ensures var s1 := ActivateSameContext(d, s, best, values);
            && s1.active == best && s1.stored == s.stored
            && s1.contextActivated == s.contextActivated && s1.contextBefore == s.contextBefore
  {
    hide AutoKeysFor, Writable;
  }

  lemma OtherContextParts(s: State, best: Ctx, values: Values)
    ensures var s1 := ActivateOtherContext(s, best, values);
            && s1.active == best && s1.stored == s.stored
            && s1.contextActivated && s1.contextBefore == if s.contextActivated then s.contextBefore else Some(s.active)
  {
  }

  lemma ActivateContexts(d: Descriptor, s: State, ctx: Ctx, now: nat)
    requires BestMatch(d, s.stored, WithTime(ctx, now)).Some? && BestSettings(d, s.stored, WithTime(ctx, now)).Some?
    ensures var s1, best := Activate(d, s, ctx, now).0, BestMatch(d, s.stored, WithTime(ctx, now)).value;
            && s1.active == best && s1.stored == s.stored
            && (best.context != s.active.context ==>
                  s1.contextActivated
                  && s1.contextBefore == if s.contextActivated then s.contextBefore else Some(s.active))
            && (best.context == s.active.context ==>
                  s1.contextActivated == s.contextActivated && s1.contextBefore == s.contextBefore)
  {
    hide BestMatch, BestSettings, ActivateSameContext, ActivateOtherContext;
    var at := WithTime(ctx, now);
    SameContextParts(d, s, BestMatch(d, s.stored, at).value, BestSettings(d, s.stored, at).value);
    OtherContextParts(s, BestMatch(d, s.stored, at).value, BestSettings(d, s.stored, at).value);
  }

  lemma StageDefaultsContexts(d: Descriptor, s: State, now: nat, now2: nat)
    requires StoreOrdered(s.stored) && now <= now2 && RefusedDefaults(d, s, now) == map[]
    ensures var s1 := StageDefaults(d, s, now, now2).0;
            && s1.active.context == DEFAULT_CONTEXT && s1.stored.Keys == s.stored.Keys + {DEFAULT_CONTEXT}
            && (s.active.context != DEFAULT_CONTEXT ==>
                  s1.contextActivated
                  && s1.contextBefore == if s.contextActivated then s.contextBefore else Some(s.active))
            && (s.active.context == DEFAULT_CONTEXT ==>
                  s1.contextActivated == s.contextActivated && s1.contextBefore == s.contextBefore)
  {
    DefaultIsMatched(d, s, now, now2);
    hide RefusedDefaults, Activate, AddStored, BestMatch, BestSettings;
    AddedAlike(d, s, s.defaults, Ctx(now, DEFAULT_CONTEXT));
    ActivateContexts(d, AddStored(d, s, s.defaults, Ctx(now, DEFAULT_CONTEXT)), Ctx(0, DEFAULT_CONTEXT), now2);
  }

  // the batch asks for a reset, and the limits take the defaults
  predicate Resets(d: Descriptor, s: State, now: nat) {
    RESET_DEFAULTS in s.staged && RefusedDefaults(d, s, now) == map[]
  }

  // the context active before the batch, when the batch moves to another one
  function ReturnContext(d: Descriptor, s: State, now: nat): Option<Ctx> {
    if s.contextBefore.Some? then s.contextBefore
    else if Resets(d, s, now) && s.active.context != DEFAULT_CONTEXT then Some(s.active)
    else None
  }

  lemma TakeWithoutReset(d: Descriptor, s: State, now: nat, now2: nat, now3: nat)
    requires !Resets(d, s, now)
    ensures var t := TakeBatch(d, s, now, now2, now3);
            && t.before == s.contextBefore && t.activated == s.contextActivated
            && t.s == Emptied(s) && t.toApply == s.staged
            && t.refused == if RESET_DEFAULTS in s.staged then RefusedDefaults(d, s, now) else map[]
  {
    RefusedAlike(d, s, Emptied(s), now);
    StageDefaultsRefuses(d, Emptied(s), now, now2);
    hide RefusedDefaults, StageDefaults, RemoveExpired;
  }

  lemma TakeWithReset(d: Descriptor, s: State, now: nat, now2: nat, now3: nat)
    requires Resets(d, s, now)
    ensures var t, s1 := TakeBatch(d, s, now, now2, now3), StageDefaults(d, Emptied(s), now, now2).0;
            && t.before == (if s.contextBefore.Some? then s.contextBefore else s1.contextBefore)
            && t.activated == (s1.contextActivated || s.contextActivated)
            && t.s.contextBefore == None && !t.s.contextActivated && t.s.staged == map[]
            && t.s.active == s1.active && t.s.stored.Keys == s1.stored.Keys
            && t.toApply == s1.staged + s.staged && t.refused == map[]
  {
    RefusedAlike(d, s, Emptied(s), now);
    StageDefaultsRefuses(d, Emptied(s), now, now2);
    hide RefusedDefaults, StageDefaults, Kept, Dropped;
  }

  lemma TakeBatchContexts(d: Descriptor, s: State, now: nat, now2: nat, now3: nat)
    requires StoreOrdered(s.stored) && now <= now2
    ensures var t := TakeBatch(d, s, now, now2, now3);
            && t.before == ReturnContext(d, s, now)
            && (t.activated <==> s.contextActivated || (Resets(d, s, now) && s.active.context != DEFAULT_CONTEXT))
            && t.s.contextBefore == None && !t.s.contextActivated && t.s.staged == map[]
            && (Resets(d, s, now) ==> t.s.active.context == DEFAULT_CONTEXT)
            && (!Resets(d, s, now) ==> t.s.active == s.active && t.s.stored == s.stored)
            && s.stored.Keys <= t.s.stored.Keys
  {
    hide TakeBatch, StageDefaults, RefusedDefaults;
    if Resets(d, s, now) {
      TakeWithReset(d, s, now, now2, now3);
      RefusedAlike(d, s, Emptied(s), now);
      StageDefaultsContexts(d, Emptied(s), now, now2);
    } else {
      TakeWithoutReset(d, s, now, now2, now3);
    }
  }

  lemma RefusedAlike(d: Descriptor, s: State, s0: State, now: nat)
    requires s0.stored == s.stored && s0.autoUpdate == s.autoUpdate && s0.defaults == s.defaults
      && s0.active == s.active
    ensures RefusedDefaults(d, s0, now) == RefusedDefaults(d, s, now)
  {
    hide BestMatch;
  }

  lemma StageDefaultsRefuses(d: Descriptor, s: State, now: nat, now2: nat)
    ensures StageDefaults(d, s, now, now2).1 == RefusedDefaults(d, s, now)
  {
    hide RefusedDefaults, Activate, AddStored;
  }

  // what the start of an apply makes of the batch taken
  lemma BeginParts(d: Descriptor, s: State, now: nat, now2: nat, now3: nat)
    ensures var t, s1, b := TakeBatch(d, s, now, now2, now3), Begin(d, s, now, now2, now3).0,
                    Begin(d, s, now, now2, now3).1;
            && s1.active == t.s.active == b.ctx && s1.stored == t.s.stored && s1.contextBefore == t.s.contextBefore
            && s1.contextActivated == t.s.contextActivated && s1.staged == t.s.staged && s1.autoUpdate == t.s.autoUpdate
            && b.before == t.before && b.activated == t.activated && b.autoBefore == t.autoBefore
            && b.values == s.staged && b.tagged == s.tagged
            && b.applied == Accepted(d, t.toApply) && b.failed == t.refused + Rejected(d, t.toApply)
            && (t.activated && d.hasCallback ==> CONTEXT_FIELD in b.reported)
  {
    hide TakeBatch, Accepted, Rejected, Moved;
  }

  // A refused batch of any kind, with a reset in it or not, leaves active the context from before the batch: the one
  // another activation recorded, or the one its own reset left. Stored sets stay as the batch's start left them where
  // it moved to another context.
  lemma RefusedBatchReturns(d: Descriptor, s: State, now: nat, now2: nat, now3: nat, at: nat)
    requires d.hasCallback && StoreOrdered(s.stored) && now <= now2
    requires Begin(d, s, now, now2, now3).1.reported != map[]
    ensures var (s1, b) := Begin(d, s, now, now2, now3);
            var s2 := Finish(d, s1, b, Refuse, at).0;
            && (match ReturnContext(d, s, now)
                case None => s2.active == s1.active
                case Some(earlier) => s2.active == GoesBack(d, RestoreRefused(d, s1, b), earlier, s1.active, at))
            && (Resets(d, s, now) ==> s1.active.context == DEFAULT_CONTEXT)
            && (!Resets(d, s, now) ==> s1.active == s.active && s1.stored == s.stored)
            && s.stored.Keys <= s1.stored.Keys == s2.stored.Keys && (b.activated ==> s2.stored == s1.stored)
            && s2.contextBefore == None && !s2.contextActivated && s2.staged == map[]
  {
    var (s1, b) := Begin(d, s, now, now2, now3);
    TakeBatchContexts(d, s, now, now2, now3);
    BeginParts(d, s, now, now2, now3);
    FinishMembers(d, s1, b, at);
    RollBackParts(d, s1, b, at);
    RestoreRefusedParts(d, s1, b);
    hide Begin, TakeBatch, Finish, RollBack, RestoreRefused, Resets, GoesBack;
  }

  // An activation the block refuses returns to the context before it, with a reset in the batch or not.
  lemma RefusedReturnsTo(d: Descriptor, s: State, earlier: Ctx, now: nat, now2: nat, now3: nat, at: nat)
    requires d.hasCallback && StoreOrdered(s.stored) && now <= now2
    requires s.contextActivated && s.contextBefore == Some(earlier) && earlier.context in s.stored
    ensures var (s1, b) := Begin(d, s, now, now2, now3);
            var s2 := Finish(d, s1, b, Refuse, at).0;
            && b.reported != map[] && s2.active == earlier && s2.stored == s1.stored
            && s2.contextBefore == None && !s2.contextActivated && s2.staged == map[]
  {
    TakeBatchContexts(d, s, now, now2, now3);
    BeginParts(d, s, now, now2, now3);
    RefusedBatchReturns(d, s, now, now2, now3, at);
    hide Begin, TakeBatch, Finish, Resets, RestoreRefused;
  }

  // So does a reset that the batch itself asks for, from another context than the default one: its defaults made the
  // default context active, and the refusal takes that back.
  lemma RefusedResetInBatchReturns(d: Descriptor, s: State, now: nat, now2: nat, now3: nat, at: nat)
    requires d.hasCallback && StoreOrdered(s.stored) && now <= now2 && Resets(d, s, now)
    requires s.active.context != DEFAULT_CONTEXT && s.contextBefore.None? && s.active.context in s.stored
    ensures var (s1, b) := Begin(d, s, now, now2, now3);
            var s2 := Finish(d, s1, b, Refuse, at).0;
            && b.reported != map[] && s1.active.context == DEFAULT_CONTEXT && s2.active == s.active
            && s2.stored == s1.stored
            && s2.contextBefore == None && !s2.contextActivated && s2.staged == map[]
  {
    TakeBatchContexts(d, s, now, now2, now3);
    BeginParts(d, s, now, now2, now3);
    RefusedBatchReturns(d, s, now, now2, now3, at);
    hide Begin, TakeBatch, Finish, Resets, RestoreRefused;
  }

  // resetDefaults() from another context, which the block refuses
  lemma RefusedResetReturns(d: Descriptor, s: State, now: nat, now2: nat, now3: nat, now4: nat, at: nat)
    requires d.hasCallback && StoreOrdered(s.stored) && now <= now2 <= now3 && RefusedDefaults(d, s, now) == map[]
    requires s.active.context != DEFAULT_CONTEXT && s.active.context in s.stored
    requires s.contextActivated ==> s.contextBefore.Some? && s.contextBefore.value.context in s.stored
    ensures BeginReset(d, s, now, now2, now3, now4).Some?
    ensures var (s1, b) := BeginReset(d, s, now, now2, now3, now4).value;
            var s2 := Finish(d, s1, b, Refuse, at).0;
            && b.reported != map[] && s1.active.context == DEFAULT_CONTEXT && s2.stored == s1.stored
            && s2.active == (if s.contextActivated then s.contextBefore.value else s.active)
            && s2.contextBefore == None && !s2.contextActivated && s2.staged == map[]
  {
    StageDefaultsContexts(d, s, now, now2);
    StageDefaultsRefuses(d, s, now, now2);
    StageDefaultsOrdered(d, s, now, now2);
    hide StageDefaults, Begin, Finish, RefusedDefaults;
    var s1 := StageDefaults(d, s, now, now2).0;
    var s2 := s1.(staged := s1.staged - {RESET_DEFAULTS});
    RefusedReturnsTo(d, s2, s1.contextBefore.value, now2, now3, now4, at);
    RefusedBatchReturns(d, s2, now2, now3, now4, at);
    assert !Resets(d, s2, now2);
  }

  lemma StageDefaultsOrdered(d: Descriptor, s: State, now: nat, now2: nat)
    requires StoreOrdered(s.stored)
    ensures StoreOrdered(StageDefaults(d, s, now, now2).0.stored)
  {
    var v, p := SetsOf(s.stored, DEFAULT_CONTEXT), StoredSet(Ctx(now, DEFAULT_CONTEXT), s.defaults);
    VectorOrdered(s, DEFAULT_CONTEXT);
    InsertedIs(v, p, DEFAULT_CONTEXT);
    var s0 := AddStored(d, s, s.defaults, p.ctx);
    assert StoreOrdered(s0.stored) by { hide Inserted, Sorted, OfContext, AutoKeysFor; }
    ActivateKeepsEntries(d, s0, Ctx(0, DEFAULT_CONTEXT), now2);
    hide RefusedDefaults, Activate, AddStored, StoreOrdered;
  }

  // Another context's activation, then an apply that the block refuses: the context before it is active again, and the
  // members hold what they held unless the limits refuse it. Stored sets stay as they are, apart from the one a reset
  // in the batch stored.
  lemma RefusedActivationReturns(d: Descriptor, s: State, ctx: Ctx, now: nat, now2: nat, now3: nat, now4: nat, at: nat)
    requires Settled(d, s) && d.hasCallback && !s.contextActivated && s.active.context in s.stored
    requires StoreOrdered(s.stored) && now2 <= now3
    requires var (s1, best) := Activate(d, s, ctx, now); best.Some? && best.value.context != s.active.context
    ensures var s1 := Activate(d, s, ctx, now).0;
            var (s2, b) := Begin(d, s1, now2, now3, now4);
            var s3 := Finish(d, s2, b, Refuse, at).0;
            && s1.active != s.active && s3.active == s.active
            && s3.stored == s2.stored && (!Resets(d, s1, now2) ==> s2.active == s1.active && s3.stored == s.stored)
            && s3.contextBefore == None && !s3.contextActivated && s3.staged == map[]
            && forall k :: k in s.members && d.Takes(k, s.members[k]) ==>
                  k in s3.members && s3.members[k] == s.members[k]
  {
    var s1 := Activate(d, s, ctx, now).0;
    ActivatedParts(d, s, ctx, now);
    hide Activate, Begin, Finish, Resets;
    RefusedReturnsTo(d, s1, s.active, now2, now3, now4, at);
    RefusedBatchReturns(d, s1, now2, now3, now4, at);
    RefusedMembersReturn(d, s1, now2, now3, now4, at);
  }

  lemma ActivatedParts(d: Descriptor, s: State, ctx: Ctx, now: nat)
    requires Settled(d, s) && !s.contextActivated
    requires var (s1, best) := Activate(d, s, ctx, now); best.Some? && best.value.context != s.active.context
    ensures var s1 := Activate(d, s, ctx, now).0;
            && Settled(d, s1) && s1.contextActivated && s1.contextBefore == Some(s.active) && s1.active != s.active
            && s1.stored == s.stored && s1.members == s.members
  {
    hide BestMatch, BestSettings, AutoKeysFor, Writable;
  }

  // A refused batch puts back the keys that follow tags, in every set that still has an entry; whether the reset was
  // in the batch ...
  lemma RefusedBatchKeepsAutoKeys(d: Descriptor, s: State, now: nat, now2: nat, now3: nat, at: nat)
    requires Settled(d, s) && Begin(d, s, now, now2, now3).1.reported != map[]
    ensures var (s1, b) := Begin(d, s, now, now2, now3);
            var s2 := Finish(d, s1, b, Refuse, at).0;
            forall c :: c in s.autoUpdate && c in s2.autoUpdate ==> s2.autoUpdate[c] == s.autoUpdate[c]
  {
    TakeBatchAutoKeys(d, s, now, now2, now3);
    var (s1, b) := Begin(d, s, now, now2, now3);
    FinishMembers(d, s1, b, at);
    RollBackParts(d, s1, b, at);
    assert s1.autoUpdate == TakeBatch(d, s, now, now2, now3).s.autoUpdate
      && b.autoBefore == TakeBatch(d, s, now, now2, now3).autoBefore
      by { hide TakeBatch, Accepted, Rejected, Moved; }
    hide Begin, Finish, TakeBatch, RollBack;
  }

  // the record a reset leaves holds every entry there was, with its keys
  lemma StageDefaultsAutoKeys(d: Descriptor, s: State, now: nat, now2: nat)
    requires StageDefaults(d, s, now, now2).1 == map[]
    ensures var before := StageDefaults(d, s, now, now2).0.autoBefore;
            before.Some? && forall c :: c in s.autoUpdate ==> c in before.value && before.value[c] == s.autoUpdate[c]
  {
    var s0 := AddStored(d, s, s.defaults, Ctx(now, DEFAULT_CONTEXT));
    assert forall c :: c in s.autoUpdate ==> c in s0.autoUpdate && s0.autoUpdate[c] == s.autoUpdate[c] by {
      hide Inserted, BestAutoKeys;
    }
    ActivateAutoKeys(d, s0, Ctx(0, DEFAULT_CONTEXT), now2);
    hide Activate, AddStored, RefusedDefaults;
  }

  lemma ActivateAutoKeys(d: Descriptor, s: State, ctx: Ctx, now: nat)
    ensures var s' := Activate(d, s, ctx, now).0;
            forall c :: c in s.autoUpdate ==> c in s'.autoUpdate && s'.autoUpdate[c] == s.autoUpdate[c]
  {
    var best, values := BestMatch(d, s.stored, WithTime(ctx, now)), BestSettings(d, s.stored, WithTime(ctx, now));
    if best.Some? && values.Some? { ActivateSameAutoKeys(d, s, best.value, values.value); }
    hide BestMatch, BestSettings, ActivateSameContext;
  }

  lemma ActivateSameAutoKeys(d: Descriptor, s: State, best: Ctx, values: Values)
    ensures var s' := ActivateSameContext(d, s, best, values);
            forall c :: c in s.autoUpdate ==> c in s'.autoUpdate && s'.autoUpdate[c] == s.autoUpdate[c]
  {
    hide BestAutoKeys, Writable;
  }

  lemma TakeBatchAutoKeys(d: Descriptor, s: State, now: nat, now2: nat, now3: nat)
    requires Settled(d, s)
    ensures var t := TakeBatch(d, s, now, now2, now3);
            match t.autoBefore
            case None => t.s.autoUpdate == s.autoUpdate
            case Some(before) => forall c :: c in s.autoUpdate ==> c in before && before[c] == s.autoUpdate[c]
  {
    var s0 := Emptied(s);
    if StageDefaults(d, s0, now, now2).1 == map[] { StageDefaultsAutoKeys(d, s0, now, now2); }
    hide StageDefaults, RemoveExpired;
  }

  // ... or was resetDefaults().
  lemma RefusedResetKeepsAutoKeys(d: Descriptor, s: State, now: nat, now2: nat, now3: nat, now4: nat, at: nat)
    requires Settled(d, s) && BeginReset(d, s, now, now2, now3, now4).Some?
    requires BeginReset(d, s, now, now2, now3, now4).value.1.reported != map[]
    ensures var (s1, b) := BeginReset(d, s, now, now2, now3, now4).value;
            var s2 := Finish(d, s1, b, Refuse, at).0;
            forall c :: c in s.autoUpdate && c in s2.autoUpdate ==> s2.autoUpdate[c] == s.autoUpdate[c]
  {
    StageDefaultsAutoKeys(d, s, now, now2);
    var s0 := StageDefaults(d, s, now, now2).0;
    var (s1, b) := BeginReset(d, s, now, now2, now3, now4).value;
    assert b.autoBefore == s0.autoBefore by { hide StageDefaults, Accepted, Rejected, Moved, Refresh; }
    FinishMembers(d, s1, b, at);
    RollBackParts(d, s1, b, at);
    hide BeginReset, Finish, StageDefaults, RollBack;
  }

  // Where tags alone staged what is refused nothing is thrown: every key the block was told of is reported as failed
  // and not as applied, and nothing is forwarded. With the values to apply, a reset's defaults included, every writable
  // key is applied or failed; a key is both only where the limits refused its default and took the value staged for it.
  lemma TagOnlyRefusalReports(d: Descriptor, s: State, now: nat, now2: nat, now3: nat, at: nat)
    requires d.hasCallback && Begin(d, s, now, now2, now3).1.reported != map[]
    ensures var (s1, b) := Begin(d, s, now, now2, now3);
            var t := TakeBatch(d, s, now, now2, now3);
            match Finish(d, s1, b, Refuse, at).1
            case Threw => !(b.reported.Keys <= s.tagged)
            case Returned(applied, failed, forward) =>
              && b.reported.Keys <= s.tagged
              && forward == map[]
              && (forall k :: k in b.reported && k != CONTEXT_FIELD ==>
                    k !in applied && k in failed && failed[k] == if k in t.refused then t.refused[k] else t.toApply[k])
              && (forall k :: k in applied ==> k in t.toApply && applied[k] == t.toApply[k])
              && applied.Keys * failed.Keys <= t.refused.Keys
              && applied.Keys + failed.Keys == Writable(d, t.toApply).Keys + b.reported.Keys + t.refused.Keys
  {
    BeginParts(d, s, now, now2, now3);
    ReportedIsMoved(d, s, now, now2, now3);
    OutcomeOfRefusal(d, s, now, now2, now3, at);
    var t, b := TakeBatch(d, s, now, now2, now3), Begin(d, s, now, now2, now3).1;
    WritableSplits(d, t.toApply);
    hide Begin, TakeBatch, Finish, Accepted, Rejected, Writable;
    RefusalKeys(t.toApply, b.applied, Rejected(d, t.toApply), b.reported, t.refused);
  }

  // a writable value is either accepted or rejected
  lemma WritableSplits(d: Descriptor, values: Values)
    ensures Accepted(d, values).Keys + Rejected(d, values).Keys == Writable(d, values).Keys
    ensures forall k :: k in Accepted(d, values) ==> k in values && Accepted(d, values)[k] == values[k]
  {
  }

  lemma RefusalKeys(values: Values, accepted: Values, rejected: Values, reported: Values, refused: Values)
    requires accepted.Keys !! rejected.Keys
    requires forall k :: k in accepted ==> k in values && accepted[k] == values[k]
    requires forall k :: k in reported && k != CONTEXT_FIELD ==> k in accepted && reported[k] == accepted[k]
    ensures var applied, failed := accepted - reported.Keys, reported + (refused + rejected);
            && (forall k :: k in reported && k != CONTEXT_FIELD ==>
                  k !in applied && k in failed && failed[k] == if k in refused then refused[k] else values[k])
            && (forall k :: k in applied ==> k in values && applied[k] == values[k])
            && applied.Keys * failed.Keys <= refused.Keys
            && applied.Keys + failed.Keys == accepted.Keys + rejected.Keys + reported.Keys + refused.Keys
  {
  }

  lemma OutcomeOfRefusal(d: Descriptor, s: State, now: nat, now2: nat, now3: nat, at: nat)
    requires Begin(d, s, now, now2, now3).1.reported != map[]
    ensures var (s1, b) := Begin(d, s, now, now2, now3);
            Finish(d, s1, b, Refuse, at).1
              == if b.reported.Keys <= b.tagged then Returned(b.applied - b.reported.Keys, b.reported + b.failed, map[])
                 else Threw
  {
    hide RollBack, Begin;
  }
}
