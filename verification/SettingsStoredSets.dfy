/**
 What a refusal and a removal make of the stored sets (core/src/Settings.cpp).
 */
module SettingsStoredSets {
  import opened Wrappers
  import opened SettingsStore
  import opened Settings
  import opened SettingsInvariants
  import opened SettingsTransactions

  // --- the batch's own set, refused -------------------------------------------------------------------------------

  // the value that key k of a stored set has after the refusal: the member's old one where the set held the refused one
  function TakenBack(d: Descriptor, b: Batch, settings: Values, k: Key): Value
    requires k in settings
  {
    var refused := k in b.reported && settings[k] == b.reported[k];
    if refused && k in d.writable && k in b.previous && d.Takes(k, b.previous[k]) then b.previous[k] else settings[k]
  }

  predicate FirstAt(v: seq<StoredSet>, i: nat, ctx: Ctx) {
    i < |v| && v[i].ctx == ctx && forall j :: 0 <= j < i ==> v[j].ctx != ctx
  }

  // set i of the batch's context before and after
  ghost predicate SetTakenBack(d: Descriptor, b: Batch, v: seq<StoredSet>, v': seq<StoredSet>, i: nat)
    requires i < |v| == |v'|
  {
    if FirstAt(v, i, b.ctx) then
      && v'[i].ctx == v[i].ctx && v'[i].settings.Keys == v[i].settings.Keys
      && forall k :: k in v[i].settings ==> v'[i].settings[k] == TakenBack(d, b, v[i].settings, k)
    else v'[i] == v[i]
  }

  ghost predicate StoreTakenBack(d: Descriptor, b: Batch, stored: Store, stored': Store) {
    && stored'.Keys == stored.Keys
    && (forall n :: n in stored && n != b.ctx.context ==> stored'[n] == stored[n])
    && (b.ctx.context in stored ==>
          var v, v' := stored[b.ctx.context], stored'[b.ctx.context];
          |v'| == |v| && forall i :: 0 <= i < |v| ==> SetTakenBack(d, b, v, v', i))
  }

  // Whatever other calls came between, a refusal of a batch that activated no context takes the refused values out of
  // the batch's set and leaves every other value, set and context; one that did leaves them all.
  lemma RefusalTakesBackStored(d: Descriptor, s: State, b: Batch, at: nat)
    requires b.reported != map[]
    ensures var s' := Finish(d, s, b, Refuse, at).0;
            if b.activated then s'.stored == s.stored else StoreTakenBack(d, b, s.stored, s'.stored)
  {
    FinishMembers(d, s, b, at);
    RollBackStored(d, s, b, at);
    RestoresSet(d, s, b);
    hide Finish, RollBack, RestoreRefused, StoreTakenBack;
  }

  lemma RollBackStored(d: Descriptor, s: State, b: Batch, at: nat)
    ensures RollBack(d, s, b, at).stored == RestoreRefused(d, s, b).stored
  {
    hide RestoreRefused, RestoreContext, RestoreAutoKeys, Refresh;
    var s1 := RestoreRefused(d, s, b);
    var s2 := if b.before.Some? then RestoreContext(d, s1, b.before.value, b.ctx, at) else s1;
    if b.before.Some? { RestoreContextParts(d, s1, b.before.value, b.ctx, at); }
    RefreshParts(s2, b.autoBefore);
  }

  lemma RestoresSet(d: Descriptor, s: State, b: Batch)
    ensures var s' := RestoreRefused(d, s, b);
            if b.activated then s'.stored == s.stored else StoreTakenBack(d, b, s.stored, s'.stored)
  {
    hide Restorable, RestoredSets, SetTakenBack;
    if b.ctx.context in s.stored {
      forall i | 0 <= i < |s.stored[b.ctx.context]|
        ensures SetTakenBack(d, b, s.stored[b.ctx.context], RestoredSets(d, b, s.stored[b.ctx.context]), i)
      {
        RestoresOne(d, b, s.stored[b.ctx.context], i);
      }
    }
  }

  lemma {:induction false} RestoresOne(d: Descriptor, b: Batch, v: seq<StoredSet>, i: nat)
    requires i < |v|
    ensures SetTakenBack(d, b, v, RestoredSets(d, b, v), i)
  {
    if v[0].ctx == b.ctx {
      assert i > 0 ==> !FirstAt(v, i, b.ctx);
      ValuesTakenBack(d, b, v[0].settings);
      hide RestoredSettings, TakenBack;
    } else {
      assert FirstAt(v, i, b.ctx) <==> i > 0 && FirstAt(v[1..], i - 1, b.ctx);
      if i > 0 { RestoresOne(d, b, v[1..], i - 1); }
    }
  }

  lemma ValuesTakenBack(d: Descriptor, b: Batch, settings: Values)
    ensures var r := RestoredSettings(d, b, settings);
            r.Keys == settings.Keys && forall k :: k in settings ==> r[k] == TakenBack(d, b, settings, k)
  {
  }

  // With no call in between: every writable value that the batch moved and the set held is the member's old one again.
  lemma RefusedBatchTakesBackStored(d: Descriptor, s: State, now: nat, now2: nat, now3: nat, at: nat)
    requires d.hasCallback && Begin(d, s, now, now2, now3).1.reported != map[]
    ensures var (s1, b) := Begin(d, s, now, now2, now3);
            var s2 := Finish(d, s1, b, Refuse, at).0;
            && b.ctx == s1.active && b.previous == s.members
            && if b.activated then s2.stored == s1.stored else StoreTakenBack(d, b, s1.stored, s2.stored)
  {
    var (s1, b) := Begin(d, s, now, now2, now3);
    RefusalTakesBackStored(d, s1, b, at);
    BeginParts(d, s, now, now2, now3);
    BeginRemembers(d, s, now, now2, now3);
    hide Begin, TakeBatch, Finish, StoreTakenBack;
  }

  lemma BeginRemembers(d: Descriptor, s: State, now: nat, now2: nat, now3: nat)
    requires d.hasCallback
    ensures Begin(d, s, now, now2, now3).1.previous == s.members
  {
    TakeBatchMembers(d, s, now, now2, now3);
    hide TakeBatch;
  }

  // A lookup that found the batch's set finds it still, with the refused values taken back.
  lemma RefusedValuesAreNotFound(d: Descriptor, s: State, b: Batch, at: nat, k: Key)
    requires b.reported != map[] && !b.activated
    requires FirstOf(SetsOf(s.stored, b.ctx.context), b.ctx).Some?
    requires k in FirstOf(SetsOf(s.stored, b.ctx.context), b.ctx).value.settings
    ensures var s', before := Finish(d, s, b, Refuse, at).0, FirstOf(SetsOf(s.stored, b.ctx.context), b.ctx).value;
            var after := FirstOf(SetsOf(s'.stored, b.ctx.context), b.ctx);
            after.Some? && k in after.value.settings && after.value.settings[k] == TakenBack(d, b, before.settings, k)
  {
    RefusalTakesBackStored(d, s, b, at);
    hide Finish, TakenBack;
    var v := s.stored[b.ctx.context];
    FirstStands(v, b.ctx);
    var v' := Finish(d, s, b, Refuse, at).0.stored[b.ctx.context];
    var i: nat :| FirstAt(v, i, b.ctx) && v[i] == FirstOf(v, b.ctx).value;
    assert SetTakenBack(d, b, v, v', i);
    forall j | 0 <= j < i ensures v'[j].ctx != b.ctx { assert SetTakenBack(d, b, v, v', j); }
    FirstIs(v', i, b.ctx);
  }

  lemma {:induction false} FirstStands(v: seq<StoredSet>, ctx: Ctx)
    requires FirstOf(v, ctx).Some?
    ensures exists i: nat :: FirstAt(v, i, ctx) && v[i] == FirstOf(v, ctx).value
  {
    if v[0].ctx == ctx {
      assert FirstAt(v, 0, ctx);
    } else {
      FirstStands(v[1..], ctx);
      var i: nat :| FirstAt(v[1..], i, ctx) && v[1..][i] == FirstOf(v[1..], ctx).value;
      assert FirstAt(v, i + 1, ctx);
    }
  }

  lemma {:induction false} FirstIs(v: seq<StoredSet>, i: nat, ctx: Ctx)
    requires FirstAt(v, i, ctx)
    ensures FirstOf(v, ctx) == Some(v[i])
  {
    if i > 0 {
      FirstIs(v[1..], i - 1, ctx);
    }
  }

  // --- a removal --------------------------------------------------------------------------------------------------

  predicate HoldsTime(s: State, ctx: Ctx, t: nat) {
    exists p :: p in SetsOf(s.stored, ctx.context) && p.ctx.time == t
  }

  // the stored sets of s' are those of s less one of context `name`, and less the context with its last one
  ghost predicate Less(s: State, s': State, name: Name, p: StoredSet) {
    && name in s.stored && p in s.stored[name]
    && multiset(SetsOf(s'.stored, name)) == multiset(s.stored[name]) - multiset{p}
    && (name in s'.stored <==> |s.stored[name]| > 1)
    && (forall n :: n != name ==> (n in s'.stored <==> n in s.stored))
    && (forall n :: n in s'.stored && n != name ==> s'.stored[n] == s.stored[n])
    && (Sorted(s.stored[name]) ==> Sorted(SetsOf(s'.stored, name)))
  }

  // A removal takes away exactly one set of the time given; or it changes nothing, which is when the context is the
  // default one or has no set of that time. With distinct times none of that time and no entry for it is left.
  lemma RemovalRemoves(d: Descriptor, s: State, ctx: Ctx, now: nat, now2: nat, now3: nat)
    requires StoreOrdered(s.stored)
    ensures var (s', removed) := Remove(d, s, ctx, now, now2, now3);
            var t := WithTime(ctx, now).time;
            && (removed <==> ctx.context != DEFAULT_CONTEXT && HoldsTime(s, ctx, t))
            && (!removed ==> s' == s)
            && (removed ==> exists p :: Less(s, s', ctx.context, p) && p.ctx == Ctx(t, ctx.context))
            && (removed && DistinctTimes(SetsOf(s.stored, ctx.context)) ==>
                  !HoldsTime(s', ctx, t) && Ctx(t, ctx.context) !in s'.autoUpdate)
  {
    hide LeaveContext, FallBack, WithoutSet, IndexAtTime, StoreOrdered, DistinctTimes, Less;
    var t := WithTime(ctx, now).time;
    if ctx.context != DEFAULT_CONTEXT && ctx.context in s.stored && IndexAtTime(s.stored[ctx.context], t).Some? {
      var i := IndexAtTime(s.stored[ctx.context], t).value;
      var p := s.stored[ctx.context][i];
      var s1 := WithoutSet(s, ctx.context, i);
      IsOfContext(s, ctx.context, i);
      Erases(s, ctx.context, i);
      ErasesOrdered(s, ctx.context, i);
      LeavingKeepsStore(d, s1, p.ctx, ctx.context, now2, now3);
      var s' := LeaveContext(d, FallBack(d, s1, p.ctx, now2), ctx.context, now3);
      LessAlike(s, s1, s', ctx.context, p);
      StoredHoldsTime(s1, p.ctx);
    }
  }

  lemma StoredHoldsTime(s: State, ctx: Ctx)
    ensures IsStored(s, ctx) ==> HoldsTime(s, ctx, ctx.time)
  {
  }

  lemma LessAlike(s: State, s1: State, s2: State, name: Name, p: StoredSet)
    requires Less(s, s1, name, p) && s2.stored == s1.stored
    ensures Less(s, s2, name, p)
  {
  }

  lemma IsOfContext(s: State, name: Name, i: nat)
    requires StoreOrdered(s.stored) && name in s.stored && i < |s.stored[name]|
    ensures s.stored[name][i].ctx.context == name
  {
  }

  lemma Erases(s: State, name: Name, i: nat)
    requires name in s.stored && i < |s.stored[name]|
    ensures Less(s, WithoutSet(s, name, i), name, s.stored[name][i])
    ensures s.stored[name][i].ctx !in WithoutSet(s, name, i).autoUpdate
    ensures DistinctTimes(s.stored[name]) ==>
              forall q :: q in SetsOf(WithoutSet(s, name, i).stored, name) ==> q.ctx.time != s.stored[name][i].ctx.time
  {
    var v := s.stored[name];
    var rest := v[..i] + v[i + 1..];
    RestParts(v, i);
    assert SetsOf(WithoutSet(s, name, i).stored, name) == rest;
    hide DistinctTimes, Sorted, SetsOf;
  }

  lemma RestParts(v: seq<StoredSet>, i: nat)
    requires i < |v|
    ensures var rest := v[..i] + v[i + 1..];
            && multiset(rest) == multiset(v) - multiset{v[i]} && (rest == [] <==> |v| == 1)
            && (Sorted(v) ==> Sorted(rest))
            && (DistinctTimes(v) ==> forall q :: q in rest ==> q.ctx.time != v[i].ctx.time)
  {
    assert v == v[..i] + [v[i]] + v[i + 1..];
  }

  lemma ErasesOrdered(s: State, name: Name, i: nat)
    requires StoreOrdered(s.stored) && name in s.stored && i < |s.stored[name]|
    ensures StoreOrdered(WithoutSet(s, name, i).stored)
  {
  }

  // what comes after the erasure stores nothing, and makes entries of stored sets only
  lemma LeavingKeepsStore(d: Descriptor, s: State, removed: Ctx, name: Name, now: nat, now2: nat)
    requires StoreOrdered(s.stored)
    ensures var s' := LeaveContext(d, FallBack(d, s, removed, now), name, now2);
            s'.stored == s.stored && forall c :: c in s'.autoUpdate ==> c in s.autoUpdate || IsStored(s, c)
  {
    hide CurrentDefault, Activate, StoreOrdered, IsStored, BestMatch, FallBack;
    var s1 := FallBack(d, s, removed, now);
    FallBackStores(d, s, removed, now);
    ActivateKeepsEntries(d, s1, Ctx(0, DEFAULT_CONTEXT), now2);
    ActivationEntries(d, s1, Ctx(0, DEFAULT_CONTEXT), now2);
    BestIsStored(d, s, Ctx(now2, DEFAULT_CONTEXT));
  }

  lemma FallBackStores(d: Descriptor, s: State, removed: Ctx, now: nat)
    ensures FallBack(d, s, removed, now).stored == s.stored && FallBack(d, s, removed, now).autoUpdate == s.autoUpdate
  {
    hide CurrentDefault;
  }

  lemma ActivationEntries(d: Descriptor, s: State, ctx: Ctx, now: nat)
    ensures forall c :: c in Activate(d, s, ctx, now).0.autoUpdate ==>
              c in s.autoUpdate || BestMatch(d, s.stored, WithTime(ctx, now)) == Some(c)
  {
    hide BestMatch, BestSettings, AutoKeysFor, Writable;
  }

  // After the removal of a set of the active context the default context's present set is active, for good; any other
  // removal leaves the active context, and moves the record of a refusal off the set removed.
  lemma RemovalLeavesContext(d: Descriptor, s: State, ctx: Ctx, now: nat, now2: nat, now3: nat)
    requires StoreOrdered(s.stored) && Remove(d, s, ctx, now, now2, now3).1
    ensures var s' := Remove(d, s, ctx, now, now2, now3).0;
            if s.active.context == ctx.context then
              s'.active == CurrentDefault(d, s', now3).GetOr(s.active) && s'.contextBefore == None
            else
              && s'.active == s.active && s'.staged == s.staged && s'.contextActivated == s.contextActivated
              && s'.contextBefore == if s.contextBefore == Some(Ctx(WithTime(ctx, now).time, ctx.context))
                                     then CurrentDefault(d, s', now2) else s.contextBefore
  {
    hide LeaveContext, FallBack, WithoutSet, IndexAtTime, StoreOrdered, CurrentDefault;
    var i := IndexAtTime(s.stored[ctx.context], WithTime(ctx, now).time).value;
    var p, s1 := s.stored[ctx.context][i], WithoutSet(s, ctx.context, i);
    IsOfContext(s, ctx.context, i);
    ErasesOrdered(s, ctx.context, i);
    ErasesOnly(s, ctx.context, i);
    LeavingKeepsStore(d, s1, p.ctx, ctx.context, now2, now3);
    Leaves(d, s1, p.ctx, ctx.context, now2, now3);
  }

  lemma ErasesOnly(s: State, name: Name, i: nat)
    requires name in s.stored && i < |s.stored[name]|
    ensures var s1 := WithoutSet(s, name, i);
            && s1.active == s.active && s1.staged == s.staged && s1.contextActivated == s.contextActivated
            && s1.contextBefore == s.contextBefore
  {
  }

  lemma Leaves(d: Descriptor, s: State, removed: Ctx, name: Name, now: nat, now2: nat)
    requires StoreOrdered(s.stored)
    ensures var s' := LeaveContext(d, FallBack(d, s, removed, now), name, now2);
            if s.active.context == name then
              s'.active == CurrentDefault(d, s', now2).GetOr(s.active) && s'.contextBefore == None
            else
              && s'.active == s.active && s'.staged == s.staged && s'.contextActivated == s.contextActivated
              && s'.contextBefore == if s.contextBefore == Some(removed) then CurrentDefault(d, s', now)
                                     else s.contextBefore
  {
    hide Activate, BestMatch, BestSettings, StoreOrdered;
    ActivatesMatch(d, FallBack(d, s, removed, now), Ctx(0, DEFAULT_CONTEXT), now2);
  }

  lemma ActivatesMatch(d: Descriptor, s: State, ctx: Ctx, now: nat)
    requires StoreOrdered(s.stored)
    ensures var s1 := Activate(d, s, ctx, now).0;
            s1.stored == s.stored && s1.active == BestMatch(d, s.stored, WithTime(ctx, now)).GetOr(s.active)
  {
    MatchedHasSettings(d, s, WithTime(ctx, now));
    ActivateKeepsEntries(d, s, ctx, now);
    if BestMatch(d, s.stored, WithTime(ctx, now)).Some? { ActivateContexts(d, s, ctx, now); }
    hide BestMatch, BestSettings, ActivateSameContext, ActivateOtherContext;
  }

  lemma MatchedHasSettings(d: Descriptor, s: State, ctx: Ctx)
    requires StoreOrdered(s.stored)
    ensures BestMatch(d, s.stored, ctx).Some? ==> BestSettings(d, s.stored, ctx).Some?
  {
    BestIsStored(d, s, ctx);
    hide BestMatch, FirstOf;
  }
}
