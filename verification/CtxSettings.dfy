/**
 `CtxSettingsBase`: the settings of one block, updated in place (core/src/Settings.cpp).

 Each method is one critical section under the settings mutex, with the clock readings it makes as parameters. Its
 contract gives the whole new state as the function of `Settings` with its name.
 */
module CtxSettings {
  import opened Wrappers
  import opened SettingsStore
  import opened Settings
  import opened SettingsInvariants
  import opened SettingsTransactions

  class CtxSettingsBase {
    const d: Descriptor

    var stored: Store
    var autoUpdate: map<Ctx, set<Key>>
    var active: Ctx
    var contextActivated: bool
    var contextBefore: Option<Ctx>
    var autoBefore: Option<map<Ctx, set<Key>>>
    var staged: Values
    var tagged: set<Key>
    var couplings: map<Key, Key>
    var activeParameters: Values
    var members: Values
    var defaults: Values
    var changed: bool

    ghost function Now(): State
      reads this
    {
      State(stored, autoUpdate, active, contextActivated, contextBefore, autoBefore, staged, tagged, couplings,
            activeParameters, members, defaults, changed)
    }

    constructor (d: Descriptor, members: Values)
      ensures this.d == d
      ensures Now() == State(map[], map[], Ctx(0, DEFAULT_CONTEXT), false, None, None, map[], {}, map[], map[], members,
                             map[], false)
    {
      this.d := d;
      this.members := members;
      stored, autoUpdate, active := map[], map[], Ctx(0, DEFAULT_CONTEXT);
      contextActivated, contextBefore, autoBefore := false, None, None;
      staged, tagged, couplings, activeParameters, defaults, changed := map[], {}, map[], map[], map[], false;
    }

    // --- search ---------------------------------------------------------------------------------------------------

    method FindBestMatchSettingsCtx(ctx: Ctx) returns (best: Option<Ctx>)
      requires StoreOrdered(stored)
      ensures best == BestMatch(d, stored, ctx)
    {
      var name := BestName(d, stored, ctx.context);
      if name.None? {
        return None;
      }
      best := FindSettingsCtx(stored[name.value], ctx.time);
    }

    // the linear std::ranges::find_if over the best match's vector
    method GetBestMatchStoredParameters(ctx: Ctx) returns (values: Option<Values>)
      requires StoreOrdered(stored)
      ensures values == BestSettings(d, stored, ctx)
    {
      var best := FindBestMatchSettingsCtx(ctx);
      if best.None? {
        return None;
      }
      var v := SetsOf(stored, best.value.context);
      var i := 0;
      while i < |v| && v[i].ctx != best.value
        invariant i <= |v| && FirstOf(v, best.value) == FirstOf(v[i..], best.value)
      {
        i := i + 1;
      }
      values := if i < |v| then Some(v[i].settings) else None;
    }

    method AutoKeys(ctx: Ctx) returns (keys: set<Key>)
      requires StoreOrdered(stored)
      ensures keys == AutoKeysFor(d, Now(), ctx)
    {
      if ctx in autoUpdate {
        return autoUpdate[ctx];
      }
      var best := FindBestMatchSettingsCtx(ctx);
      keys := if best.Some? && best.value in autoUpdate then autoUpdate[best.value] else d.writable;
    }

    // --- the stored sets ------------------------------------------------------------------------------------------

    method AddStoredParameters(values: Values, ctx: Ctx)
      requires StoreOrdered(stored)
      modifies this
      ensures Now() == AddStored(d, old(Now()), values, ctx)
    {
      hide BestAutoKeys, Inserted;
      var keys := AutoKeys(ctx);
      if ctx !in autoUpdate {
        autoUpdate := autoUpdate[ctx := keys];
      }
      var v := SetsOf(stored, ctx.context);
      var inserted := InsertByTime(v, StoredSet(ctx, values));
      stored := stored[ctx.context := inserted];
    }

    static method InsertByTime(v: seq<StoredSet>, p: StoredSet) returns (r: seq<StoredSet>)
      requires Sorted(v)
      ensures r == Inserted(v, p)
    {
      var at := LowerBound(v, p.ctx.time);
      r := v[..at] + [p] + v[at..];
    }

    method RemoveExpiredStoredParameters(now: nat)
      requires StoreOrdered(stored)
      modifies `stored, `autoUpdate
      ensures Now() == RemoveExpired(d, old(Now()), now)
    {
      hide Kept, Dropped, Sorted, OfContext;
      ghost var s := Now();
      PruneContexts(now);
      assert stored == map n | n in s.stored :: Kept(d, s.stored[n], now);
    }

    // the loop over the contexts
    method PruneContexts(now: nat)
      requires StoreOrdered(stored)
      modifies `stored, `autoUpdate
      ensures stored.Keys == old(stored).Keys
      ensures forall n :: n in stored ==> stored[n] == Kept(d, old(stored)[n], now)
      ensures autoUpdate == EntriesLeft(d, old(stored), old(autoUpdate), {}, now)
    {
      hide Kept, Dropped, Sorted, OfContext, EntriesLeft;
      ghost var sets, entries := stored, autoUpdate;
      EntriesAll(d, sets, entries, now);
      var todo := stored.Keys;
      while todo != {}
        invariant todo <= stored.Keys == sets.Keys
        invariant forall n :: n in sets ==> stored[n] == if n in todo then sets[n] else Kept(d, sets[n], now)
        invariant autoUpdate == EntriesLeft(d, sets, entries, todo, now)
        decreases todo
      {
        var name :| name in todo;
        EntriesNext(d, sets, entries, todo, name, now);
        var kept, dropped := PruneSets(stored[name], now);
        autoUpdate := autoUpdate - dropped;
        stored := stored[name := kept];
        todo := todo - {name};
      }
    }

    method PruneSets(v: seq<StoredSet>, now: nat) returns (kept: seq<StoredSet>, dropped: set<Ctx>)
      requires Sorted(v)
      ensures kept == Kept(d, v, now) && dropped == Dropped(d, v, now)
    {
      hide Sorted, Unexpired, PrunedCount;
      var alive, expired := EraseExpired(v, now);
      UnexpiredSorted(v, d.expiry, now);
      var first := FirstKept(alive, now);
      dropped := expired + set j | 0 <= j < first :: alive[j].ctx;
      kept := alive[first..];
    }

    // the std::erase_if over expired sets
    method EraseExpired(v: seq<StoredSet>, now: nat) returns (alive: seq<StoredSet>, expired: set<Ctx>)
      ensures alive == Unexpired(v, d.expiry, now)
      ensures expired == set i | 0 <= i < |v| && Expired(v[i], d.expiry, now) :: v[i].ctx
    {
      hide Unexpired, Expired;
      UnexpiredNone(d.expiry, now);
      alive, expired := [], {};
      for i := 0 to |v|
        invariant alive == Unexpired(v[..i], d.expiry, now)
        invariant expired == set j | 0 <= j < i && Expired(v[j], d.expiry, now) :: v[j].ctx
      {
        UnexpiredSnoc(v[..i], v[i], d.expiry, now);
        assert v[..i + 1] == v[..i] + [v[i]];
        if Expired(v[i], d.expiry, now) {
          expired := expired + {v[i].ctx};
        } else {
          alive := alive + [v[i]];
        }
      }
      assert v[..|v|] == v;
    }

    // how many sets are dropped from the front of a vector that expired sets have left
    static method FirstKept(v: seq<StoredSet>, now: nat) returns (first: nat)
      requires Sorted(v)
      ensures first == PrunedCount(v, now)
    {
      if v == [] {
        return 0;
      }
      var lower := LowerBound(v, now);
      if lower == |v| {
        first := |v| - 1;
      } else if v[lower].ctx.time == now {
        first := lower;
      } else if lower != 0 && lower - 1 != 0 {
        first := lower - 1;
      } else {
        first := 0;
      }
    }

    method RefusesStoredSet(ctx: Ctx, now: nat) returns (refused: bool)
      ensures refused == CapRefuses(stored, ctx, now)
    {
      var v := SetsOf(stored, ctx.context);
      if v == [] {
        return |ContextsHeld(stored)| >= MAX_CONTEXTS;
      }
      if ctx.time <= now {
        return false;
      }
      var pending, i := 0, |v|;
      while i > 0
        invariant 0 <= i <= |v| && pending == Pending(v[i..], now)
      {
        i := i - 1;
        if now < v[i].ctx.time {
          pending := pending + 1;
        }
      }
      refused := pending >= MAX_PENDING_SETS;
    }

    // the values of a set(), key by key, until one does not convert or lies outside the limits
    method TakeValues(params: Values, values: Values, keys: set<Key>)
      returns (ok: bool, newValues: Values, autoKeys: set<Key>, rest: Values)
      ensures !ok <==> exists k :: k in Writable(d, Given(d, params)) && !d.Takes(k, params[k])
      ensures ok ==> newValues == values + Writable(d, Given(d, params))
      ensures ok ==> autoKeys == keys - Writable(d, Given(d, params)).Keys
      ensures ok ==> rest == NotWritable(d, Given(d, params))
    {
      ghost var taken, others := Writable(d, Given(d, params)), NotWritable(d, Given(d, params));
      GivenAre(d, params);
      hide Writable, NotWritable, Given;
      ok, newValues, autoKeys, rest := true, values, keys, map[];
      var todo := params.Keys;
      while todo != {}
        invariant ok && todo <= params.Keys
        invariant forall k :: k in taken && k !in todo ==> d.Takes(k, params[k])
        invariant newValues == values + (taken - todo) && autoKeys == keys - (taken.Keys - todo)
          && rest == others - todo
        decreases todo
      {
        var k :| k in todo;
        NextKey(others, todo, k);
        NextStaged(values, taken, todo, k);
        todo := todo - {k};
        if d.unset(params[k]) {
        } else if k in d.writable {
          if !d.converts(k, params[k]) || !d.within(k, params[k]) {
            ok := false;
            return;
          }
          newValues := newValues[k := params[k]];
          autoKeys := autoKeys - {k};
        } else {
          rest := rest[k := params[k]];
        }
      }
      assert taken - {} == taken && others - {} == others;
    }

    method SetImpl(params: Values, ctx: Ctx, now: nat, pruneNow: nat) returns (r: Option<Values>)
      requires StoreOrdered(stored)
      modifies this
      ensures match Set(d, old(Now()), params, ctx, now, pruneNow)
              case None => r.None? && Now() == old(Now())
              case Some((s, rest)) => r == Some(rest) && Now() == s
    {
      hide CapRefuses, BestSettings, AutoKeysFor, RemoveExpired, AddStored, StoreOrdered;
      var at := WithTime(ctx, now);
      var refused := RefusesStoredSet(at, now);
      if refused {
        return None;
      }
      var best := GetBestMatchStoredParameters(at);
      var keys := AutoKeys(at);
      var ok, newValues, autoKeys, rest := TakeValues(params, best.GetOr(defaults), keys);
      if !ok {
        return None;
      }
      autoUpdate := autoUpdate[at := autoKeys];
      ghost var s := Now();
      AddStoredParameters(newValues, at);
      AddStoredOrdered(d, s, newValues, at);
      RemoveExpiredStoredParameters(pruneNow);
      r := Some(rest);
    }

    // --- staging --------------------------------------------------------------------------------------------------

    // the conversions of setStagedImpl(), before any value is staged
    method ConvertAll(params: Values) returns (ok: bool, converted: Values, rest: Values)
      ensures !ok <==> exists k :: k in Writable(d, params) && !d.converts(k, params[k])
      ensures ok ==> converted == Writable(d, params) && rest == NotWritable(d, params)
    {
      ok, converted, rest := true, map[], map[];
      var todo := params.Keys;
      while todo != {}
        invariant ok && todo <= params.Keys
        invariant forall k :: k in Writable(d, params) && k !in todo ==> d.converts(k, params[k])
        invariant converted == map k | k in params && k in d.writable && k !in todo :: params[k]
        invariant rest == map k | k in params && k !in d.writable && k !in todo :: params[k]
        decreases todo
      {
        var k :| k in todo;
        todo := todo - {k};
        if k in d.writable {
          if !d.converts(k, params[k]) {
            assert k in Writable(d, params);
            ok := false;
            return;
          }
          converted := converted[k := params[k]];
        } else {
          rest := rest[k := params[k]];
        }
      }
    }

    method SetStagedImpl(params: Values) returns (r: Option<Values>)
      modifies `staged, `tagged, `changed
      ensures match SetStaged(d, old(Now()), params)
              case None => r.None? && Now() == old(Now())
              case Some((s, rest)) => r == Some(rest) && Now() == s
    {
      var ok, converted, rest := ConvertAll(params);
      if !ok {
        return None;
      }
      tagged := tagged - converted.Keys;
      staged := staged + converted;
      if staged != map[] {
        changed := true;
      }
      r := Some(rest);
    }

    method ActivateContextImpl(ctx: Ctx, now: nat) returns (best: Option<Ctx>)
      requires Inv(d, Now(), now)
      modifies this
      ensures (Now(), best) == Activate(d, old(Now()), ctx, now)
    {
      hide Inv, BestMatch, BestSettings, AutoKeysFor;
      assert StoreOrdered(stored) by { InvOrdered(d, Now(), now); }
      var at := WithTime(ctx, now);
      best := FindBestMatchSettingsCtx(at);
      if best.None? || best.value == active {
        return;
      }
      var values := GetBestMatchStoredParameters(at);
      if best.value.context == active.context {
        if values.Some? {
          ActivationCannotThrow(d, Now(), ctx, now);
          ActivateSame(best.value, values.value);
        }
      } else if values.Some? {
        staged := values.value + staged;  // a value that is staged already stays
        if !contextActivated {
          contextBefore := Some(active);
        }
        active := best.value;
        contextActivated := true;
        changed := true;
      } else {
        best := None;
      }
    }

    method ActivateSame(best: Ctx, values: Values)
      requires StoreOrdered(stored) && SetStaged(d, Now(), values).Some?
      modifies this
      ensures Now() == ActivateSameContext(d, old(Now()), best, values)
    {
      hide AutoKeysFor, StoreOrdered, Writable, NotWritable, SetStaged;
      var keys := AutoKeys(best);
      autoUpdate := autoUpdate[best := keys];  // an entry that is there keeps its keys
      var fixed := map k | k in values && k !in keys :: values[k];
      SubsetConverts(d, old(Now()), Now(), values, fixed);
      var ignored := SetStagedImpl(fixed);
      active := best;
      changed := true;
    }

    method IndexOf(v: seq<StoredSet>, time: nat) returns (r: Option<nat>)
      ensures r == IndexAtTime(v, time)
    {
      var i := 0;
      while i < |v| && v[i].ctx.time != time
        invariant i <= |v|
        invariant IndexAtTime(v, time) == match IndexAtTime(v[i..], time) case None => None case Some(j) => Some(i + j)
      {
        i := i + 1;
      }
      r := if i < |v| then Some(i) else None;
    }

    method RemoveContextImpl(ctx: Ctx, now: nat, now2: nat, now3: nat) returns (removed: bool)
      requires Inv(d, Now(), now) && now <= now2 <= now3
      modifies this
      ensures (Now(), removed) == Remove(d, old(Now()), ctx, now, now2, now3)
    {
      hide Inv, Activate, CurrentDefault, IndexAtTime;
      if ctx.context == DEFAULT_CONTEXT || ctx.context !in stored {
        return false;
      }
      var v := stored[ctx.context];
      var found := IndexOf(v, WithTime(ctx, now).time);
      if found.None? {
        return false;
      }
      var i := found.value;
      RemovalKeeps(d, Now(), ctx.context, i, now);
      EraseSet(ctx.context, i);
      LaterKeeps(d, Now(), now, now3);
      if contextBefore == Some(v[i].ctx) {
        FallBackKeepsInv(d, Now(), v[i].ctx, now2, now3);
        InvOrdered(d, Now(), now3);
        var fallback := FindBestMatchSettingsCtx(Ctx(now2, DEFAULT_CONTEXT));
        assert fallback == CurrentDefault(d, Now(), now2) by { DefaultIs(d, Now(), now2); }
        contextBefore := fallback;
      }
      if active.context == ctx.context {
        var ignored := ActivateContextImpl(Ctx(0, DEFAULT_CONTEXT), now3);
        contextBefore := None;
      }
      removed := true;
    }

    method EraseSet(name: Name, i: nat)
      requires name in stored && i < |stored[name]|
      modifies `stored, `autoUpdate
      ensures Now() == WithoutSet(old(Now()), name, i)
    {
      var v := stored[name];
      var rest := v[..i] + v[i + 1..];
      autoUpdate := autoUpdate - {v[i].ctx};
      stored := if rest == [] then stored - {name} else stored[name := rest];
    }

    // --- defaults and tags ----------------------------------------------------------------------------------------

    method StageDefaultsImpl(now: nat, now2: nat) returns (refused: Values)
      requires Inv(d, Now(), now) && now <= now2
      modifies this
      ensures (Now(), refused) == StageDefaults(d, old(Now()), now, now2)
    {
      hide Inv, Activate, AddStored, BestAutoKeys, IsStored;
      ghost var s := Now();
      InvOrdered(d, s, now);
      var ctx := Ctx(now, DEFAULT_CONTEXT);
      refused := DefaultsRefused(now);
      if refused != map[] {
        return;
      }
      AddStoredParameters(defaults, ctx);
      DefaultsStoredKeep(d, s, now, now2);
      var ignored := ActivateContextImpl(Ctx(0, DEFAULT_CONTEXT), now2);
      autoBefore := Some(autoUpdate);
      autoUpdate := map c | c in autoUpdate.Keys + {ctx} :: d.writable;
    }

    method DefaultsRefused(now: nat) returns (refused: Values)
      requires StoreOrdered(stored)
      ensures refused == RefusedDefaults(d, Now(), now)
    {
      var best := FindBestMatchSettingsCtx(Ctx(now, DEFAULT_CONTEXT));
      var keys := if best.Some? && best.value in autoUpdate then autoUpdate[best.value] else d.writable;
      assert keys == BestAutoKeys(d, Now(), Ctx(now, DEFAULT_CONTEXT)).GetOr(d.writable);
      ghost var wanted := RefusedDefaults(d, Now(), now);
      RefusedDefaultsAre(d, Now(), now, keys);
      hide BestAutoKeys, BestMatch, RefusedDefaults;
      refused := map[];
      var todo := defaults.Keys;
      while todo != {}
        invariant todo <= defaults.Keys && refused == wanted - todo
        decreases todo
      {
        var k :| k in todo;
        NextKey(wanted, todo, k);
        todo := todo - {k};
        if k in d.writable && (active.context != DEFAULT_CONTEXT || k !in keys) {
          if d.converts(k, defaults[k]) && !d.within(k, defaults[k]) {
            refused := refused[k := defaults[k]];
          }
        }
      }
      assert wanted - {} == wanted;
    }

    // the any_of over the context's sets
    method HoldsSet(ctx: Ctx) returns (found: bool)
      ensures found == IsStored(Now(), ctx)
    {
      var v := SetsOf(stored, ctx.context);
      var i := 0;
      while i < |v| && v[i].ctx != ctx
        invariant i <= |v| && FirstOf(v, ctx) == FirstOf(v[i..], ctx)
      {
        i := i + 1;
      }
      found := i < |v|;
    }

    method AutoUpdate(tag: Tag, now: nat, now2: nat)
      requires Inv(d, Now(), now) && now <= now2
      modifies this
      ensures Now() == Settings.AutoUpdate(d, old(Now()), tag, now, now2)
    {
      hide Inv, TagActivates, TagSets;
      var before := active;
      InvOrdered(d, Now(), now);
      var ctx := ActivateFromTag(tag, now);
      SetFromTag(tag, ctx, before != ctx, now2);
    }

    method SetFromTag(tag: Tag, ctx: Ctx, moved: bool, now: nat)
      requires StoreOrdered(stored)
      modifies this
      ensures Now() == TagSets(d, old(Now()), tag, ctx, moved, now)
    {
      hide FollowingKeys, Followed, ControlKeys, WithEntry, IsStored, StoreOrdered;
      var keys := KeysFollowing(ctx, now);
      FollowedAlike(d, old(Now()), Now(), tag, ctx, keys, moved);
      var wasChanged := StageTagValues(tag, keys, moved);
      if tag.context.None? && !wasChanged && staged == map[] {
        changed := false;
      } else if moved || wasChanged {
        changed := true;
      }
    }

    // the context a tag's values go to, and the keys its activation staged
    method ActivateFromTag(tag: Tag, now: nat) returns (ctx: Ctx)
      requires Inv(d, Now(), now)
      modifies this
      ensures (Now(), ctx) == TagActivates(d, old(Now()), tag, now)
      ensures stored == old(stored)
    {
      hide Inv, Activate, TaggedByActivation, NewlyStaged;
      ghost var s := Now();
      ctx := active;
      if tag.context.Some? {
        ActivateKeepsEntries(d, s, tag.context.value, now);
        var stagedBefore, taggedBefore, activatedBefore := staged, tagged, contextActivated;
        var best := ActivateContextImpl(tag.context.value, now);
        ghost var s1 := Now();
        var added := StagedAnew(staged, stagedBefore, taggedBefore);
        tagged := tagged + added;
        if contextActivated && !activatedBefore {
          tagged := tagged + {CONTEXT_FIELD};
        }
        TaggedIs(s, s1);
        assert Now() == s1.(tagged := TaggedByActivation(s, s1));
        ctx := best.GetOr(active);
      }
    }

    // the keys an activation by a tag staged, or staged again
    static method StagedAnew(staged: Values, stagedBefore: Values, taggedBefore: set<Key>) returns (keys: set<Key>)
      ensures keys == NewlyStaged(staged, stagedBefore, taggedBefore)
    {
      keys := {};
      var todo := staged.Keys;
      while todo != {}
        invariant todo <= staged.Keys && keys == NewlyStaged(staged, stagedBefore, taggedBefore) - todo
        decreases todo
      {
        var k :| k in todo;
        todo := todo - {k};
        if k !in stagedBefore || stagedBefore[k] != staged[k] || k in taggedBefore {
          keys := keys + {k};
        }
      }
    }

    method KeysFollowing(ctx: Ctx, now: nat) returns (keys: set<Key>)
      requires StoreOrdered(stored)
      modifies `autoUpdate
      ensures keys == FollowingKeys(d, old(Now()), ctx, now)
      ensures Now() == WithEntry(old(Now()), ctx, keys)
    {
      hide BestMatch, StoreOrdered, IsStored;
      keys := d.writable;
      var isStored := HoldsSet(ctx);
      if isStored {
        keys := AutoKeys(ctx);
        autoUpdate := autoUpdate[ctx := keys];  // an entry that is there keeps its keys
      } else {
        var best := FindBestMatchSettingsCtx(ctx);
        if best.None? {
          best := FindBestMatchSettingsCtx(Ctx(now, ctx.context));
        }
        if best.Some? && best.value in autoUpdate {
          keys := autoUpdate[best.value];
        }
      }
    }

    method StageTagValues(tag: Tag, keys: set<Key>, ctxChanged: bool) returns (wasChanged: bool)
      modifies `staged, `tagged
      ensures Now() == StageFromTag(old(Now()), ControlKeys(tag), Followed(d, old(Now()), tag, keys, ctxChanged))
      ensures wasChanged == (ControlKeys(tag) != map[] || Followed(d, old(Now()), tag, keys, ctxChanged) != map[])
    {
      hide ControlKeys, Followed;
      wasChanged := StageControl(tag);
      FollowedDepends(d, old(Now()), Now(), tag, keys, ctxChanged);
      wasChanged := StageFollowed(tag, keys, ctxChanged, wasChanged);
    }

    // the loop over the tag's entries
    method StageControl(tag: Tag) returns (wasChanged: bool)
      modifies `staged
      ensures staged == old(staged) + ControlKeys(tag)
      ensures wasChanged == (ControlKeys(tag) != map[])
    {
      ghost var control := ControlKeys(tag);
      assert forall k :: k in control <==> k in tag.values && (k == RESET_DEFAULTS || k == STORE_DEFAULTS);
      assert forall k :: k in control ==> control[k] == tag.values[k];
      hide ControlKeys;
      wasChanged := false;
      var todo := tag.values.Keys;
      while todo != {}
        invariant todo <= tag.values.Keys
        invariant staged == old(staged) + (control - todo) && wasChanged == (control - todo != map[])
        decreases todo
      {
        var k :| k in todo;
        NextKey(control, todo, k);
        todo := todo - {k};
        if k == RESET_DEFAULTS || k == STORE_DEFAULTS {
          staged := staged[k := tag.values[k]];
          wasChanged := true;
        }
      }
      assert control - {} == control;
    }

    // the loop over the couplings
    method StageFollowed(tag: Tag, keys: set<Key>, ctxChanged: bool, before: bool) returns (wasChanged: bool)
      modifies `staged, `tagged
      ensures staged == old(staged) + Followed(d, old(Now()), tag, keys, ctxChanged)
      ensures tagged == old(tagged) + Followed(d, old(Now()), tag, keys, ctxChanged).Keys
      ensures wasChanged == (before || Followed(d, old(Now()), tag, keys, ctxChanged) != map[])
    {
      hide Followed;
      ghost var s := Now();
      ghost var followed := Followed(d, s, tag, keys, ctxChanged);
      FollowedKeysCoupled(d, s, tag, keys, ctxChanged);
      wasChanged := before;
      var todo := couplings.Keys;
      while todo != {}
        invariant todo <= couplings.Keys
        invariant staged == s.staged + (followed - todo) && tagged == s.tagged + (followed.Keys - todo)
        invariant wasChanged == (before || followed - todo != map[])
        decreases todo
      {
        var k :| k in todo;
        NextFollowed(s.staged, s.tagged, followed, todo, k);
        var follows := Follows(s, tag, keys, ctxChanged, k);
        todo := todo - {k};
        if follows {
          staged := staged[k := tag.values[couplings[k]]];
          tagged := tagged + {k};
          wasChanged := true;
        }
      }
      assert followed - {} == followed;
    }

    method Follows(ghost s: State, tag: Tag, keys: set<Key>, ctxChanged: bool, k: Key) returns (follows: bool)
      requires k in couplings && s.couplings == couplings && s.activeParameters == activeParameters
      ensures follows <==> k in Followed(d, s, tag, keys, ctxChanged)
      ensures follows ==> couplings[k] in tag.values
      ensures follows ==> Followed(d, s, tag, keys, ctxChanged)[k] == tag.values[couplings[k]]
    {
      hide Followed;
      FollowedAt(d, s, tag, keys, ctxChanged, k);
      var tagKey := couplings[k];
      if tagKey !in tag.values || k !in d.writable {
        return false;
      }
      if !ctxChanged && k in activeParameters && activeParameters[k] == tag.values[tagKey] {
        return false;
      }
      follows := k in keys && d.follows(k, tag.values[tagKey]);
    }

    // --- couplings, and copies of the members ---------------------------------------------------------------------

    method AutoUpdateParameters(ctx: Ctx) returns (keys: set<Key>)
      requires StoreOrdered(stored)
      modifies `autoUpdate
      ensures (Now(), keys) == ReadAutoKeys(d, old(Now()), ctx)
    {
      hide BestMatch, StoreOrdered;
      var best := FindBestMatchSettingsCtx(ctx);
      if best.None? {
        return {};
      }
      if best.value !in autoUpdate {
        autoUpdate := autoUpdate[best.value := {}];
      }
      keys := autoUpdate[best.value];
    }

    method SetCouplings(entries: map<Key, Coupling>) returns (ok: bool)
      modifies `couplings, `autoUpdate
      ensures match SetTagCouplings(d, old(Now()), entries)
              case None => !ok && Now() == old(Now())
              case Some(s) => ok && Now() == s
    {
      ghost var s := Now();
      var read, table, following := ReadCouplings(entries);
      if !read {
        return false;
      }
      couplings := table;
      autoUpdate := map c | c in autoUpdate :: autoUpdate[c] + following;
      ok := true;
    }

    // the loop over the entries, on a copy of the table
    method ReadCouplings(entries: map<Key, Coupling>) returns (ok: bool, table: map<Key, Key>, following: set<Key>)
      ensures ok <==> SetTagCouplings(d, Now(), entries).Some?
      ensures ok ==> table == couplings - Uncoupled(entries) + Coupled(entries) && following == Coupled(entries).Keys
    {
      table, following := couplings, {};
      ghost var done: set<Key> := {};
      var todo := entries.Keys;
      while todo != {}
        invariant todo <= entries.Keys && done == entries.Keys - todo
        invariant forall k :: k in done ==> k in d.writable && !entries[k].NoKey?
        invariant following == Coupled(entries).Keys - todo
        invariant table == couplings - (Uncoupled(entries) - todo) + (Coupled(entries) - todo)
        decreases todo
      {
        var k :| k in todo;
        if k !in d.writable || entries[k].NoKey? {
          return false, table, following;
        }
        TableNext(couplings, entries, todo, k);
        todo, done := todo - {k}, done + {k};
        match entries[k] {
          case Couple(key) => table, following := table[k := key], following + {k};
          case _ => table := table - {k};
        }
      }
      assert Uncoupled(entries) - {} == Uncoupled(entries) && Coupled(entries) - {} == Coupled(entries);
      ok := true;
    }

    method StoreDefaultParameters()
      modifies `defaults
      ensures Now() == StoreDefaults(old(Now()))
    {
      defaults := defaults + members;
    }

    method UpdateActiveParameters(keys: set<Key>)
      modifies `activeParameters
      ensures Now() == UpdateActive(old(Now()), keys)
      ensures keys == members.Keys ==> Now() == Refresh(old(Now()))
    {
      assert keys == members.Keys ==> members == map k | k in keys && k in members :: members[k];
      activeParameters := activeParameters + map k | k in keys && k in members :: members[k];
    }

    // --- the apply ------------------------------------------------------------------------------------------------

    method TakeStaged(now: nat, now2: nat, now3: nat)
      returns (toApply: Values, refused: Values, activated: bool, before: Option<Ctx>, kept: Option<map<Ctx, set<Key>>>)
      requires Inv(d, Now(), now) && now <= now2 <= now3
      modifies this
      ensures Taken(Now(), toApply, refused, activated, before, kept) == TakeBatch(d, old(Now()), now, now2, now3)
    {
      hide Inv, StageDefaults, RemoveExpired;
      ghost var s := Now();
      toApply, refused, activated, before, kept := staged, map[], contextActivated, contextBefore, autoBefore;
      contextActivated, contextBefore, autoBefore, staged, tagged := false, None, None, map[], {};
      assert Now() == Emptied(s);
      hide Emptied;
      if RESET_DEFAULTS in toApply {
        TakenKeepsInv(d, s, now);
        var defaults, activatesDefault, beforeDefault, autoKeys;
        refused, defaults, activatesDefault, beforeDefault, autoKeys := TakeDefaults(now, now2, now3);
        if refused == map[] {
          toApply := defaults + toApply;
          activated := activatesDefault || activated;
          before := if before.Some? then before else beforeDefault;
          kept := autoKeys;
        }
      }
    }

    // the defaults a reset stages, taken out again as part of the batch
    method TakeDefaults(now: nat, now2: nat, now3: nat)
      returns (refused: Values, defaults: Values, activated: bool, before: Option<Ctx>,
               kept: Option<map<Ctx, set<Key>>>)
      requires Inv(d, Now(), now) && now <= now2 <= now3
      modifies this
      ensures var (s1, r) := StageDefaults(d, old(Now()), now, now2);
              && refused == r
              && (r != map[] ==> Now() == old(Now()))
              && (r == map[] ==>
                    && Taken(Now(), defaults, map[], activated, before, kept)
                       == Taken(RemoveExpired(d, s1.(staged := map[], contextActivated := false, contextBefore := None,
                                                     autoBefore := None), now3),
                                s1.staged, map[], s1.contextActivated, s1.contextBefore, s1.autoBefore))
    {
      hide Inv, StageDefaults, RemoveExpired;
      RefusedStagesNothing(d, Now(), now, now2);
      StageDefaultsKeepsInv(d, Now(), now, now2);
      refused := StageDefaultsImpl(now, now2);
      InvOrdered(d, Now(), now2);
      defaults, activated, before, kept := staged, contextActivated, contextBefore, autoBefore;
      if refused == map[] {
        staged, contextActivated, contextBefore, autoBefore := map[], false, None, None;
        RemoveExpiredStoredParameters(now3);
      }
    }

    // each staged value is applied, or fails
    method ApplyValues(toApply: Values, refused: Values) returns (applied: Values, failed: Values)
      modifies `members
      ensures applied == Accepted(d, toApply) && failed == refused + Rejected(d, toApply)
      ensures members == old(members) + applied
    {
      ghost var yes, no := Accepted(d, toApply), Rejected(d, toApply);
      assert forall k :: k in yes <==> k in toApply && k in d.writable && d.Takes(k, toApply[k]);
      assert forall k :: k in no <==> k in toApply && k in d.writable && !d.Takes(k, toApply[k]);
      assert forall k :: (k in yes ==> yes[k] == toApply[k]) && (k in no ==> no[k] == toApply[k]);
      hide Accepted, Rejected;
      applied, failed := map[], refused;
      var todo := toApply.Keys;
      while todo != {}
        invariant todo <= toApply.Keys
        invariant applied == map[] + (yes - todo) && failed == refused + (no - todo)
        invariant members == old(members) + (yes - todo)
        decreases todo
      {
        var k :| k in todo;
        NextStaged(map[], yes, todo, k);
        NextStaged(old(members), yes, todo, k);
        NextStaged(refused, no, todo, k);
        todo := todo - {k};
        if k in d.writable {
          if d.Takes(k, toApply[k]) {
            members := members[k := toApply[k]];
            applied := applied[k := toApply[k]];
          } else {
            failed := failed[k := toApply[k]];
          }
        }
      }
      assert yes - {} == yes && no - {} == no;
    }

    // applyStagedParametersImpl() up to the callback
    method BeginApply(now: nat, now2: nat, now3: nat) returns (b: Batch)
      requires Inv(d, Now(), now) && now <= now2 <= now3
      modifies this
      ensures (Now(), b) == Begin(d, old(Now()), now, now2, now3)
    {
      hide Inv, TakeBatch, Accepted, Rejected, Moved;
      ghost var s := Now();
      TakeBatchMembers(d, s, now, now2, now3);
      var previous := if d.hasCallback then members else map[];
      var batch, keys := staged, tagged;
      var toApply, refused, activated, before, kept := TakeStaged(now, now2, now3);
      var batchCtx := active;
      var applied, failed := ApplyValues(toApply, refused);
      var reported := if d.hasCallback then Moved(applied, previous) else map[];
      if activated && d.hasCallback {
        reported := reported[CONTEXT_FIELD := d.nameValue(active.context)];
      }
      UpdateActiveParameters(members.Keys);
      b := Batch(batch, keys, applied, failed, reported, previous, batchCtx, activated, before, kept);
    }

    // the members a refused batch gives back, and the batch's own stored set with them
    method RestoreRefusedImpl(b: Batch)
      modifies `members, `stored
      ensures Now() == RestoreRefused(d, old(Now()), b)
    {
      hide RestoredSettings;
      var restored := RestoreMembers(b);
      if !b.activated && b.ctx.context in stored {
        var sets := RestoreSet(stored[b.ctx.context], b, restored);
        stored := stored[b.ctx.context := sets];
      }
    }

    method RestoreMembers(b: Batch) returns (restored: set<Key>)
      modifies `members
      ensures restored == Restorable(d, b)
      ensures members == old(members) + map k | k in restored :: b.previous[k]
    {
      restored := {};
      var todo := b.reported.Keys;
      while todo != {}
        invariant todo <= b.reported.Keys && restored == Restorable(d, b) - todo
        invariant members == old(members) + map k | k in restored :: b.previous[k]
        decreases todo
      {
        var k :| k in todo;
        todo := todo - {k};
        if k in d.writable && k in b.previous && d.Takes(k, b.previous[k]) {
          members := members[k := b.previous[k]];
          restored := restored + {k};
        }
      }
    }

    method RestoreSet(v: seq<StoredSet>, b: Batch, restored: set<Key>) returns (r: seq<StoredSet>)
      requires restored == Restorable(d, b)
      ensures r == RestoredSets(d, b, v)
    {
      assert forall k :: k in restored ==> k in b.reported && k in b.previous;
      hide RestoredSettings, RestoredSets, Restorable;
      var i := 0;
      while i < |v| && v[i].ctx != b.ctx
        invariant i <= |v| && forall j :: 0 <= j < i ==> v[j].ctx != b.ctx
      {
        i := i + 1;
      }
      r := v;
      RestoredAt(d, b, v, i);
      if i < |v| {
        var settings := map k | k in v[i].settings ::
          if k in restored && v[i].settings[k] == b.reported[k] then b.previous[k] else v[i].settings[k];
        RestoredIs(d, b, v[i].settings);
        r := v[i := v[i].(settings := settings)];
      }
    }

    method RestoreContextImpl(earlier: Ctx, refused: Ctx, now: nat)
      requires StoreOrdered(stored)
      modifies `active, `contextBefore
      ensures Now() == RestoreContext(d, old(Now()), earlier, refused, now)
    {
      hide BestMatch, StoreOrdered;
      var restored := Some(earlier);
      if earlier.context !in stored {
        restored := FindBestMatchSettingsCtx(Ctx(now, DEFAULT_CONTEXT));
      }
      if active == refused && restored.Some? {
        active := restored.value;
      }
      if contextBefore == Some(refused) {
        contextBefore := restored;
      }
    }

    method RollBackBatch(b: Batch, now: nat)
      requires StoreOrdered(stored)
      modifies this
      ensures Now() == RollBack(d, old(Now()), b, now)
    {
      hide RestoreRefused, RestoreContext;
      RestoredOrdered(d, Now(), b);
      RestoreRefusedImpl(b);
      if b.before.Some? {
        RestoreContextImpl(b.before.value, b.ctx, now);
      }
      if b.autoBefore.Some? {
        var kept := b.autoBefore.value;
        autoUpdate := map c | c in autoUpdate :: if c in kept then kept[c] else autoUpdate[c];
      }
      UpdateActiveParameters(members.Keys);
    }

    // applyStagedParametersImpl() past the callback, up to the block's reset()
    method FinishApply(b: Batch, verdict: Verdict, now: nat) returns (outcome: Outcome)
      requires StoreOrdered(stored)
      modifies this
      ensures (Now(), outcome) == Finish(d, old(Now()), b, verdict, now)
    {
      hide RollBack;
      var applied, failed, forward := b.applied, b.failed, map[];
      if b.reported != map[] {
        match verdict {
          case Accept(answer) => forward := answer;
          case Refuse =>
            RollBackBatch(b, now);
            if !(b.reported.Keys <= b.tagged) {
              return Threw;
            }
            applied := applied - b.reported.Keys;
            failed := b.reported + failed;
        }
      }
      UpdateActiveParameters(members.Keys);
      if STORE_DEFAULTS in b.values {
        StoreDefaultParameters();
      }
      outcome := Returned(applied, failed, forward);
    }

    // the last statement of an apply that did not throw
    method ConcludeApply()
      modifies `changed
      ensures Now() == Conclude(old(Now()))
    {
      changed := staged != map[];
    }

    // the same in resetDefaults(), which prunes once more
    method ConcludeReset(now: nat)
      requires StoreOrdered(stored)
      modifies this
      ensures Now() == RemoveExpired(d, Conclude(old(Now())), now)
    {
      hide RemoveExpired;
      ConcludeApply();
      RemoveExpiredStoredParameters(now);
    }

    // resetDefaults() up to the callback
    method BeginResetDefaults(now: nat, now2: nat, now3: nat, now4: nat) returns (b: Option<Batch>)
      requires Inv(d, Now(), now) && now <= now2 <= now3 <= now4
      modifies this
      ensures match BeginReset(d, old(Now()), now, now2, now3, now4)
              case None => b.None? && Now() == old(Now())
              case Some((s, batch)) => b == Some(batch) && Now() == s
    {
      hide Inv, StageDefaults, Begin;
      ghost var s := Now();
      StageDefaultsKeepsInv(d, s, now, now2);
      RefusedStagesNothing(d, s, now, now2);
      var refused := StageDefaultsImpl(now, now2);
      if refused != map[] {
        return None;
      }
      ghost var s1 := Now();
      staged := staged - {RESET_DEFAULTS};
      ReportedOf(d, s1, now2);
      Untouched(d, s1, Now(), now2);
      var batch := BeginApply(now2, now3, now4);
      b := Some(batch);
    }
  }

  function NewlyStaged(staged: Values, stagedBefore: Values, taggedBefore: set<Key>): set<Key> {
    set k | k in staged && (k !in stagedBefore || stagedBefore[k] != staged[k] || k in taggedBefore)
  }

  lemma TaggedIs(before: State, after: State)
    ensures TaggedByActivation(before, after)
      == after.tagged + NewlyStaged(after.staged, before.staged, before.tagged)
         + if after.contextActivated && !before.contextActivated then {CONTEXT_FIELD} else {}
  {
  }

  // the entries of which pruning the contexts that are not to do drops none
  function EntriesLeft(d: Descriptor, sets: Store, entries: map<Ctx, set<Key>>, todo: set<Name>, now: nat):
      map<Ctx, set<Key>> {
    map c | c in entries && (forall n :: n in sets && n !in todo ==> c !in Dropped(d, sets[n], now)) :: entries[c]
  }

  lemma EntriesAll(d: Descriptor, sets: Store, entries: map<Ctx, set<Key>>, now: nat)
    ensures EntriesLeft(d, sets, entries, sets.Keys, now) == entries
  {
    hide Dropped;
  }

  lemma EntriesNext(d: Descriptor, sets: Store, entries: map<Ctx, set<Key>>, todo: set<Name>, name: Name, now: nat)
    requires name in todo && name in sets
    ensures EntriesLeft(d, sets, entries, todo - {name}, now)
         == EntriesLeft(d, sets, entries, todo, now) - Dropped(d, sets[name], now)
  {
    hide Dropped;
  }

  // one key taken off the keys still to do
  lemma NextKey(m: Values, todo: set<Key>, k: Key)
    requires k in todo
    ensures m - (todo - {k}) == if k in m then (m - todo)[k := m[k]] else m - todo
  {
  }

  lemma NextFollowed(staged: Values, tagged: set<Key>, m: Values, todo: set<Key>, k: Key)
    requires k in todo
    ensures k in m ==>
      && m - (todo - {k}) != map[] && staged + (m - (todo - {k})) == (staged + (m - todo))[k := m[k]]
      && tagged + (m.Keys - (todo - {k})) == tagged + (m.Keys - todo) + {k}
    ensures k !in m ==> m - (todo - {k}) == m - todo && m.Keys - (todo - {k}) == m.Keys - todo
  {
    NextKey(m, todo, k);
    assert k in m ==> k in m - (todo - {k});
  }

  lemma NextStaged(staged: Values, m: Values, todo: set<Key>, k: Key)
    requires k in todo
    ensures staged + (m - (todo - {k})) == if k in m then (staged + (m - todo))[k := m[k]] else staged + (m - todo)
  {
  }

  lemma RefusedDefaultsAre(d: Descriptor, s: State, now: nat, keys: set<Key>)
    requires keys == BestAutoKeys(d, s, Ctx(now, DEFAULT_CONTEXT)).GetOr(d.writable)
    ensures var refused := RefusedDefaults(d, s, now);
            && (forall k :: k in refused <==>
                  && k in s.defaults && k in d.writable && (s.active.context != DEFAULT_CONTEXT || k !in keys)
                  && d.converts(k, s.defaults[k]) && !d.within(k, s.defaults[k]))
            && (forall k :: k in refused ==> refused[k] == s.defaults[k])
            && refused - s.defaults.Keys == map[]
  {
    hide BestAutoKeys;
  }

  // the table after one more entry
  lemma TableNext(couplings: map<Key, Key>, entries: map<Key, Coupling>, todo: set<Key>, k: Key)
    requires k in todo && k in entries && !entries[k].NoKey?
    ensures var table := couplings - (Uncoupled(entries) - todo) + (Coupled(entries) - todo);
            couplings - (Uncoupled(entries) - (todo - {k})) + (Coupled(entries) - (todo - {k}))
            == if entries[k].Couple? then table[k := entries[k].key] else table - {k}
  {
  }

  lemma GivenAre(d: Descriptor, params: Values)
    ensures var taken, others := Writable(d, Given(d, params)), NotWritable(d, Given(d, params));
            && (forall k :: k in taken <==> k in params && !d.unset(params[k]) && k in d.writable)
            && (forall k :: k in others <==> k in params && !d.unset(params[k]) && k !in d.writable)
            && (forall k :: k in taken ==> taken[k] == params[k])
            && (forall k :: k in others ==> others[k] == params[k])
            && taken - params.Keys == map[] && others - params.Keys == map[]
  {
  }

  lemma FollowedAt(d: Descriptor, s: State, tag: Tag, keys: set<Key>, moved: bool, k: Key)
    requires k in s.couplings
    ensures var f, tagKey := Followed(d, s, tag, keys, moved), s.couplings[k];
            && (k in f <==> tagKey in tag.values && k in d.writable && k in keys
                            && (moved || !(k in s.activeParameters && s.activeParameters[k] == tag.values[tagKey]))
                            && d.follows(k, tag.values[tagKey]))
            && (k in f ==> f[k] == tag.values[tagKey])
  {
  }

  lemma FollowedKeysCoupled(d: Descriptor, s: State, tag: Tag, keys: set<Key>, moved: bool)
    ensures Followed(d, s, tag, keys, moved).Keys <= s.couplings.Keys
    ensures Followed(d, s, tag, keys, moved) - s.couplings.Keys == map[]
  {
  }

  lemma FollowedDepends(d: Descriptor, s: State, s': State, tag: Tag, keys: set<Key>, moved: bool)
    requires s'.couplings == s.couplings && s'.activeParameters == s.activeParameters
    ensures Followed(d, s', tag, keys, moved) == Followed(d, s, tag, keys, moved)
  {
  }

  lemma FollowedAlike(d: Descriptor, s: State, s': State, tag: Tag, ctx: Ctx, keys: set<Key>, moved: bool)
    requires s' == WithEntry(s, ctx, keys)
    ensures Followed(d, s', tag, keys, moved) == Followed(d, s, tag, keys, moved)
  {
    hide IsStored;
  }

  lemma TakenKeepsInv(d: Descriptor, s: State, now: nat)
    requires Inv(d, s, now)
    ensures Inv(d, Emptied(s), now)
  {
    Untouched(d, s, Emptied(s), now);
  }

  lemma RefusedStagesNothing(d: Descriptor, s: State, now: nat, now2: nat)
    ensures StageDefaults(d, s, now, now2).1 != map[] ==> StageDefaults(d, s, now, now2).0 == s
  {
    hide RefusedDefaults, Activate, AddStored;
  }

  lemma RestoredIs(d: Descriptor, b: Batch, settings: Values)
    ensures RestoredSettings(d, b, settings) == map k | k in settings ::
      if k in Restorable(d, b) && settings[k] == b.reported[k] then b.previous[k] else settings[k]
  {
  }

  lemma {:induction false} RestoredAt(d: Descriptor, b: Batch, v: seq<StoredSet>, i: nat)
    requires i <= |v| && (forall j :: 0 <= j < i ==> v[j].ctx != b.ctx) && (i < |v| ==> v[i].ctx == b.ctx)
    ensures RestoredSets(d, b, v)
      == if i < |v| then v[i := v[i].(settings := RestoredSettings(d, b, v[i].settings))] else v
  {
    hide RestoredSettings;
    if 0 < i {
      RestoredAt(d, b, v[1..], i - 1);
      assert v == [v[0]] + v[1..];
    }
  }

  lemma RestoredOrdered(d: Descriptor, s: State, b: Batch)
    requires StoreOrdered(s.stored)
    ensures StoreOrdered(RestoreRefused(d, s, b).stored)
  {
  }

  lemma InvOrdered(d: Descriptor, s: State, now: nat)
    requires Inv(d, s, now)
    ensures StoreOrdered(s.stored)
  {
  }

  lemma SubsetConverts(d: Descriptor, s: State, s': State, values: Values, some: Values)
    requires SetStaged(d, s, values).Some? && forall k :: k in some ==> k in values && some[k] == values[k]
    ensures SetStaged(d, s', some).Some? && SetStaged(d, s', some).value.0 == Stage(d, s', some)
  {
    assert forall k :: k in Writable(d, some) ==> k in Writable(d, values);
  }

  lemma DefaultIs(d: Descriptor, s: State, now: nat)
    ensures CurrentDefault(d, s, now) == BestMatch(d, s.stored, Ctx(now, DEFAULT_CONTEXT))
  {
  }

  lemma DefaultsStoredKeep(d: Descriptor, s: State, now: nat, now2: nat)
    requires Inv(d, s, now) && now <= now2
    ensures Inv(d, AddStored(d, s, s.defaults, Ctx(now, DEFAULT_CONTEXT)), now2)
  {
    AddStoredKeeps(d, s, s.defaults, Ctx(now, DEFAULT_CONTEXT), now);
    LaterKeeps(d, AddStored(d, s, s.defaults, Ctx(now, DEFAULT_CONTEXT)), now, now2);
  }

  lemma UnexpiredNone(expiry: Option<nat>, now: nat)
    ensures Unexpired([], expiry, now) == []
  {
  }

  lemma UnexpiredCons(v: seq<StoredSet>, expiry: Option<nat>, now: nat)
    requires v != []
    ensures Unexpired(v, expiry, now)
      == (if Expired(v[0], expiry, now) then [] else [v[0]]) + Unexpired(v[1..], expiry, now)
  {
    hide Expired;
  }

  lemma {:induction false} UnexpiredSnoc(v: seq<StoredSet>, p: StoredSet, expiry: Option<nat>, now: nat)
    ensures Unexpired(v + [p], expiry, now) == Unexpired(v, expiry, now) + if Expired(p, expiry, now) then [] else [p]
  {
    hide Expired, Unexpired;
    UnexpiredNone(expiry, now);
    UnexpiredCons(v + [p], expiry, now);
    if v == [] {
      assert (v + [p])[1..] == [];
    } else {
      assert (v + [p])[1..] == v[1..] + [p];
      UnexpiredCons(v, expiry, now);
      UnexpiredSnoc(v[1..], p, expiry, now);
    }
  }

  lemma AddStoredOrdered(d: Descriptor, s: State, values: Values, ctx: Ctx)
    requires StoreOrdered(s.stored)
    ensures StoreOrdered(AddStored(d, s, values, ctx).stored)
  {
    VectorOrdered(s, ctx.context);
    InsertedIs(SetsOf(s.stored, ctx.context), StoredSet(ctx, values), ctx.context);
  }
}
