/**
 What each call on the settings answers, and what it leaves on record beside the stored sets and the members: the marks
 of a tag, changed(), the values reported to the block and the keys that follow tags (core/src/Settings.cpp).
 */
module SettingsAnswers {
  import opened Wrappers
  import opened SettingsStore
  import opened Settings
  import opened SettingsInvariants
  import opened SettingsTransactions
  import opened SettingsEffects

  // --- set() ------------------------------------------------------------------------------------------------------

  // how many of the sets are for a later time
  function Later(v: seq<StoredSet>, now: nat): set<nat> { set i: nat | i < |v| && now < v[i].ctx.time }

  lemma {:induction false} PendingCounts(v: seq<StoredSet>, now: nat)
    ensures Pending(v, now) == |Later(v, now)|
  {
    if v == [] {
      assert Later(v, now) == {};
    } else {
      PendingCounts(v[1..], now);
      var rest := Later(v[1..], now);
      LaterShifts(v, now);
      ShiftedCount(rest);
    }
  }

  function Shifted(s: set<nat>): set<nat> { set i | i in s :: i + 1 }

  lemma {:induction false} ShiftedCount(s: set<nat>)
    ensures |Shifted(s)| == |s| && 0 !in Shifted(s)
  {
    if s != {} {
      var x :| x in s;
      ShiftedCount(s - {x});
      assert s == (s - {x}) + {x};
      forall i ensures i in Shifted(s) <==> i in Shifted(s - {x}) || i == x + 1 {
        if i in Shifted(s) {
          var j :| j in s && j + 1 == i;
          assert j == x || j in s - {x};
        }
      }
      assert Shifted(s) == Shifted(s - {x}) + {x + 1};
      assert x + 1 !in Shifted(s - {x});
    } else {
      assert Shifted(s) == {};
    }
  }

  lemma LaterShifts(v: seq<StoredSet>, now: nat)
    requires v != []
    ensures Later(v, now) == Shifted(Later(v[1..], now)) + if now < v[0].ctx.time then {0} else {}
  {
    var rest := Later(v[1..], now);
    forall i: nat ensures i in Later(v, now) <==> (i in Shifted(rest) || (i == 0 && now < v[0].ctx.time)) {
      if 0 < i < |v| {
        assert v[1..][i - 1] == v[i];
        assert i - 1 in rest ==> (i - 1) + 1 in Shifted(rest);
      }
    }
  }

  // set() throws exactly when the limits refuse a value it gives a writable setting, or its context would be one too
  // many, or its later time one too many in its context. Otherwise it returns what names no writable setting.
  lemma SetAnswers(d: Descriptor, s: State, params: Values, ctx: Ctx, now: nat, pruneNow: nat)
    ensures var held := SetsOf(s.stored, ctx.context);
            Set(d, s, params, ctx, now, pruneNow).None? <==>
            || (exists k :: k in params && k in d.writable && !d.unset(params[k]) && !d.Takes(k, params[k]))
            || (held == [] && MAX_CONTEXTS <= |ContextsHeld(s.stored)|)
            || (held != [] && now < ctx.time && MAX_PENDING_SETS <= |Later(held, now)|)
    ensures Set(d, s, params, ctx, now, pruneNow).Some? ==>
      var others := Set(d, s, params, ctx, now, pruneNow).value.1;
      forall k :: (k in others <==> k in params && k !in d.writable && !d.unset(params[k]))
                  && (k in others ==> others[k] == params[k])
  {
    var at, taken := WithTime(ctx, now), Writable(d, Given(d, params));
    PendingCounts(SetsOf(s.stored, ctx.context), now);
    hide BestSettings, AutoKeysFor, RemoveExpired, AddStored, Pending, Later;
    assert forall k :: k in taken <==> k in params && k in d.writable && !d.unset(params[k]);
  }

  // setStaged() throws exactly when a value for a writable setting does not convert, and returns what names none.
  lemma SetStagedAnswers(d: Descriptor, s: State, params: Values)
    ensures SetStaged(d, s, params).None? <==>
      exists k :: k in params && k in d.writable && !d.converts(k, params[k])
    ensures SetStaged(d, s, params).Some? ==>
      var others := SetStaged(d, s, params).value.1;
      forall k :: (k in others <==> k in params && k !in d.writable) && (k in others ==> others[k] == params[k])
  {
    assert forall k :: k in Writable(d, params) <==> k in params && k in d.writable;
  }

  // --- activation -------------------------------------------------------------------------------------------------

  // activateContext() answers with the context it makes active, or with none and changes nothing. Where no set is
  // stored for the context named, the context is the one the matcher picks.
  lemma ActivateAnswers(d: Descriptor, s: State, ctx: Ctx, now: nat)
    requires StoreOrdered(s.stored)
    ensures match BestMatch(d, s.stored, WithTime(ctx, now))
            case None => Activate(d, s, ctx, now) == (s, None)
            case Some(best) => Activate(d, s, ctx, now).1 == Some(best) && Activate(d, s, ctx, now).0.active == best
  {
    BestIsStored(d, s, WithTime(ctx, now));
    hide BestMatch, AutoKeysFor, FirstOf, StoreOrdered;
  }

  // The match is the set that the time finds in the context named, else in the stored one the matcher picks.
  lemma MatchIsFound(d: Descriptor, store: Store, ctx: Ctx)
    ensures ctx.context in store ==> BestMatch(d, store, ctx) == BestCtx(store[ctx.context], ctx.time)
    ensures ctx.context !in store ==>
      match d.matcher(store.Keys, ctx.context)
      case None => BestMatch(d, store, ctx) == None
      case Some(name) =>
        BestMatch(d, store, ctx) == if name in store then BestCtx(store[name], ctx.time) else None
  {
    hide BestCtx;
  }

  // The keys that follow tags in a context without an entry are those of the set it matches.
  lemma FollowsLikeMatch(d: Descriptor, s: State, ctx: Ctx)
    ensures ctx in s.autoUpdate ==> AutoKeysFor(d, s, ctx) == s.autoUpdate[ctx]
    ensures ctx !in s.autoUpdate ==>
      match BestMatch(d, s.stored, ctx)
      case Some(best) =>
        AutoKeysFor(d, s, ctx) == if best in s.autoUpdate then s.autoUpdate[best] else d.writable
      case None => AutoKeysFor(d, s, ctx) == d.writable
  {
    hide BestMatch;
  }

  // An activation within the context leaves the entry of the set it goes to, and one elsewhere leaves every entry.
  lemma ActivateKeepsFollowing(d: Descriptor, s: State, ctx: Ctx, now: nat)
    requires StoreOrdered(s.stored)
    ensures var s', best := Activate(d, s, ctx, now).0, BestMatch(d, s.stored, WithTime(ctx, now));
            if best.Some? && best.value != s.active && best.value.context == s.active.context
            then s'.autoUpdate == s.autoUpdate[best.value := AutoKeysFor(d, s, best.value)]
            else s'.autoUpdate == s.autoUpdate
  {
    BestIsStored(d, s, WithTime(ctx, now));
    hide BestMatch, AutoKeysFor, FirstOf, StoreOrdered, Stage;
    var best, values := BestMatch(d, s.stored, WithTime(ctx, now)), BestSettings(d, s.stored, WithTime(ctx, now));
    if best.Some? && values.Some? { SameContextEntry(d, s, best.value, values.value); }
    hide ActivateSameContext;
  }

  lemma SameContextEntry(d: Descriptor, s: State, best: Ctx, values: Values)
    ensures ActivateSameContext(d, s, best, values).autoUpdate == s.autoUpdate[best := AutoKeysFor(d, s, best)]
  {
    hide AutoKeysFor, Writable;
  }

  // The set found for a time is one of those not later than it, none of which is newer. Without a time it is one of
  // all.
  lemma BestIsNewest(v: seq<StoredSet>, t: nat)
    requires Sorted(v)
    ensures match BestCtx(v, t)
            case None => forall p :: p in v ==> 0 < t < p.ctx.time
            case Some(c) =>
              && (exists p :: p in v && p.ctx == c) && (t == 0 || c.time <= t)
              && forall p :: p in v && (t == 0 || p.ctx.time <= t) ==> p.ctx.time <= c.time
  {
    BestWithin(v, t);
    forall p | p in v
      ensures BestCtx(v, t).None? ==> 0 < t < p.ctx.time
      ensures BestCtx(v, t).Some? && (t == 0 || p.ctx.time <= t) ==> p.ctx.time <= BestCtx(v, t).value.time
    {
      var i :| 0 <= i < |v| && v[i] == p;
      NewestAt(v, t, i);
    }
    hide BestCtx, Sorted;
  }

  lemma BestWithin(v: seq<StoredSet>, t: nat)
    ensures var c := BestCtx(v, t);
            c.Some? ==> (exists p :: p in v && p.ctx == c.value) && (t == 0 || c.value.time <= t)
  {
    hide LatestAt;
  }

  lemma NewestAt(v: seq<StoredSet>, t: nat, i: nat)
    requires Sorted(v) && i < |v|
    ensures match BestCtx(v, t)
            case None => 0 < t < v[i].ctx.time
            case Some(c) => t == 0 || v[i].ctx.time <= t ==> v[i].ctx.time <= c.time
  {
    BestCtxIs(v, t);
    hide BestCtx;
  }

  // --- resets -----------------------------------------------------------------------------------------------------

  // A reset is refused exactly when the limits refuse a default that it would bring a writable setting: any from
  // another context, in the default context one that does not follow tags there. It then answers those and changes
  // nothing.
  lemma ResetRefuses(d: Descriptor, s: State, now: nat, now2: nat)
    ensures var (s', refused) := StageDefaults(d, s, now, now2);
            && (refused != map[] ==> s' == s)
            && forall k :: (k in refused <==>
                  && k in s.defaults && k in d.writable && d.converts(k, s.defaults[k]) && !d.within(k, s.defaults[k])
                  && (s.active.context == DEFAULT_CONTEXT ==>
                        k !in BestAutoKeys(d, s, Ctx(now, DEFAULT_CONTEXT)).GetOr(d.writable)))
                && (k in refused ==> refused[k] == s.defaults[k])
  {
    hide BestAutoKeys, Activate, AddStored;
  }

  // So every default that a reset restores and that converts is one the limits take.
  lemma RestoredAreTaken(d: Descriptor, s: State, now: nat, now2: nat, k: Key)
    requires StoreOrdered(s.stored) && EntriesStored(s) && 0 < now && StageDefaults(d, s, now, now2).1 == map[]
    requires k in Restored(d, s, now) && k in d.writable && d.converts(k, s.defaults[k])
    ensures Restored(d, s, now)[k] == s.defaults[k] && d.Takes(k, s.defaults[k])
  {
    var ctx := Ctx(now, DEFAULT_CONTEXT);
    ResetRefuses(d, s, now, now2);
    if ctx in s.autoUpdate { StoredIsMatched(d, s, ctx); }
    hide StageDefaults, BestMatch, IsStored;
  }

  lemma HeldIsBest(v: seq<StoredSet>, p: StoredSet)
    requires Sorted(v) && OfContext(v, p.ctx.context) && p in v && 0 < p.ctx.time
    ensures BestCtx(v, p.ctx.time) == Some(p.ctx)
  {
    BestIsNewest(v, p.ctx.time);
    hide BestCtx, Sorted;
  }

  lemma StoredIsMatched(d: Descriptor, s: State, ctx: Ctx)
    requires StoreOrdered(s.stored) && IsStored(s, ctx) && 0 < ctx.time
    ensures BestMatch(d, s.stored, ctx) == Some(ctx)
  {
    var p := FirstOf(s.stored[ctx.context], ctx).value;
    hide BestCtx, Sorted, OfContext, FirstOf;
    HeldIsBest(s.stored[ctx.context], p);
  }

  // --- tags -------------------------------------------------------------------------------------------------------

  predicate IsControl(k: Key) { k == RESET_DEFAULTS || k == STORE_DEFAULTS }

  // what is staged for k is other than it was
  predicate Restaged(s: State, s': State, k: Key) {
    k in s'.staged && (k !in s.staged || s'.staged[k] != s.staged[k])
  }

  // an activation marks nothing, and takes a mark only from a value it stages
  ghost predicate Unmarks(s: State, s1: State) {
    && s1.tagged <= s.tagged && s.staged.Keys <= s1.staged.Keys
    && (forall k :: k in s.tagged && k !in s1.tagged ==> k in s1.staged)
    && s1.activeParameters == s.activeParameters && s1.couplings == s.couplings
  }

  lemma SameContextUnmarks(d: Descriptor, s: State, best: Ctx, values: Values)
    ensures Unmarks(s, ActivateSameContext(d, s, best, values))
  {
    hide AutoKeysFor;
    var keys := AutoKeysFor(d, s, best);
    StageUnmarks(d, s.(autoUpdate := s.autoUpdate[best := keys]), map k | k in values && k !in keys :: values[k]);
    hide Stage;
  }

  lemma StageUnmarks(d: Descriptor, s: State, params: Values)
    ensures Unmarks(s, Stage(d, s, params))
  {
  }

  lemma OtherContextUnmarks(s: State, best: Ctx, values: Values)
    ensures Unmarks(s, ActivateOtherContext(s, best, values))
  {
  }

  lemma ActivationMarks(d: Descriptor, s: State, ctx: Ctx, now: nat)
    ensures Unmarks(s, Activate(d, s, ctx, now).0)
  {
    hide BestMatch, BestSettings, ActivateSameContext, ActivateOtherContext;
    var best, values := BestMatch(d, s.stored, WithTime(ctx, now)), BestSettings(d, s.stored, WithTime(ctx, now));
    if best.Some? && values.Some? {
      SameContextUnmarks(d, s, best.value, values.value);
      OtherContextUnmarks(s, best.value, values.value);
    }
  }

  lemma TagActivationMarks(d: Descriptor, s: State, tag: Tag, now: nat)
    ensures var s1 := TagActivates(d, s, tag, now).0;
            && s.tagged <= s1.tagged && s.staged.Keys <= s1.staged.Keys
            && (forall k :: Restaged(s, s1, k) ==> k in s1.tagged)
            && (forall k :: k in s1.tagged ==>
                  (k in s.tagged || Restaged(s, s1, k)
                   || (k == CONTEXT_FIELD && s1.contextActivated && !s.contextActivated)))
            && s1.activeParameters == s.activeParameters && s1.couplings == s.couplings
  {
    if tag.context.Some? { ActivationMarks(d, s, tag.context.value, now); }
    hide Activate;
  }

  lemma TagSetsMarks(d: Descriptor, s: State, tag: Tag, ctx: Ctx, moved: bool, now: nat)
    ensures var s1 := TagSets(d, s, tag, ctx, moved, now);
            && s.tagged <= s1.tagged && s.staged.Keys <= s1.staged.Keys && s1.contextActivated == s.contextActivated
            && (forall k :: Restaged(s, s1, k) ==> k in s1.tagged || IsControl(k))
            && (forall k :: k in s1.tagged ==> k in s.tagged || k in s1.staged)
  {
    hide FollowingKeys, Followed, ControlKeys, WithEntry, StageFromTag, ReportTag;
    var keys := FollowingKeys(d, s, ctx, now);
    var control, followed := ControlKeys(tag), Followed(d, s, tag, keys, moved);
    ControlIs(tag);
    EntryKeeps(s, ctx, keys);
    FromTagMarks(WithEntry(s, ctx, keys), control, followed);
    ReportKeeps(StageFromTag(WithEntry(s, ctx, keys), control, followed), tag.context.Some?, moved,
                control != map[] || followed != map[]);
  }

  lemma EntryKeeps(s: State, ctx: Ctx, keys: set<Key>)
    ensures WithEntry(s, ctx, keys) == s.(autoUpdate := WithEntry(s, ctx, keys).autoUpdate)
  {
  }

  lemma FromTagMarks(s: State, control: Values, followed: Values)
    ensures var s1 := StageFromTag(s, control, followed);
            && s.staged.Keys <= s1.staged.Keys && s1 == s.(staged := s1.staged, tagged := s1.tagged)
            && (forall k :: k in s1.tagged <==> k in s.tagged || k in followed)
            && (forall k :: Restaged(s, s1, k) ==> k in followed || k in control)
            && (forall k :: k in followed ==> k in s1.staged)
  {
  }

  lemma ReportKeeps(s: State, namesContext: bool, moved: bool, wasChanged: bool)
    ensures ReportTag(s, namesContext, moved, wasChanged)
         == s.(changed := ReportTag(s, namesContext, moved, wasChanged).changed)
  {
  }

  lemma ControlIs(tag: Tag)
    ensures forall k :: k in ControlKeys(tag) <==> k in tag.values && IsControl(k)
    ensures forall k :: k in ControlKeys(tag) ==> ControlKeys(tag)[k] == tag.values[k]
  {
  }

  // What a tag stages, its activation's values included, counts as the tag's, the control keys apart. A mark comes only
  // with a staged value, or for the context the tag moves to, and stays while other tags arrive.
  lemma TagMarks(d: Descriptor, s: State, tag: Tag, now: nat, now2: nat)
    ensures var s' := AutoUpdate(d, s, tag, now, now2);
            && s.tagged <= s'.tagged
            && (forall k :: Restaged(s, s', k) ==> k in s'.tagged || IsControl(k))
            && (forall k :: k in s'.tagged ==>
                  (k in s.tagged || k in s'.staged
                   || (k == CONTEXT_FIELD && s'.contextActivated && !s.contextActivated)))
  {
    var (s1, ctx) := TagActivates(d, s, tag, now);
    TagActivationMarks(d, s, tag, now);
    TagSetsMarks(d, s1, tag, ctx, s.active != ctx, now2);
    hide TagActivates, TagSets;
    forall k | Restaged(s, AutoUpdate(d, s, tag, now, now2), k)
      ensures k in AutoUpdate(d, s, tag, now, now2).tagged || IsControl(k)
    {
      assert Restaged(s, s1, k) || Restaged(s1, AutoUpdate(d, s, tag, now, now2), k);
    }
  }

  // A value staged by setStaged() counts as the caller's, and no other mark goes.
  lemma StagedUnmarks(d: Descriptor, s: State, params: Values)
    requires SetStaged(d, s, params).Some?
    ensures var s' := SetStaged(d, s, params).value.0;
            forall k :: k in s'.tagged <==> k in s.tagged && !(k in params && k in d.writable)
  {
  }

  // The control keys of a tag are staged under their own names.
  lemma TagControls(d: Descriptor, s: State, tag: Tag, now: nat, now2: nat, k: Key)
    requires IsControl(k) && k in tag.values && k !in s.couplings
    ensures var s' := AutoUpdate(d, s, tag, now, now2); k in s'.staged && s'.staged[k] == tag.values[k] && s'.changed
  {
    var (s1, ctx) := TagActivates(d, s, tag, now);
    TagActivationMarks(d, s, tag, now);
    ControlIs(tag);
    hide FollowingKeys, ControlKeys, IsStored, TagActivates;
    assert k !in Followed(d, s1, tag, FollowingKeys(d, s1, ctx, now2), s.active != ctx);
    hide Followed;
  }

  // A tag stages nothing else past its activation: a setting only where it is coupled to one of the tag's keys, follows
  // in the context, takes the value's type, and the block does not report the value already in the same context.
  lemma TagSetsOnly(d: Descriptor, s: State, tag: Tag, now: nat, now2: nat, k: Key)
    requires Restaged(TagActivates(d, s, tag, now).0, AutoUpdate(d, s, tag, now, now2), k) && !IsControl(k)
    ensures var (s1, ctx) := TagActivates(d, s, tag, now);
            && k in s.couplings && s.couplings[k] in tag.values && k in d.writable
            && AutoUpdate(d, s, tag, now, now2).staged[k] == tag.values[s.couplings[k]]
            && d.follows(k, tag.values[s.couplings[k]]) && k in FollowingKeys(d, s1, ctx, now2)
            && (s.active == ctx && k in s.activeParameters ==> s.activeParameters[k] != tag.values[s.couplings[k]])
  {
    var (s1, ctx) := TagActivates(d, s, tag, now);
    TagActivationMarks(d, s, tag, now);
    ControlIs(tag);
    hide FollowingKeys, ControlKeys, IsStored, TagActivates;
    hide ReportTag;
    var keys := FollowingKeys(d, s1, ctx, now2);
    var control, followed := ControlKeys(tag), Followed(d, s1, tag, keys, s.active != ctx);
    FromTagMarks(WithEntry(s1, ctx, keys), control, followed);
    ReportKeeps(StageFromTag(WithEntry(s1, ctx, keys), control, followed), tag.context.Some?, s.active != ctx,
                control != map[] || followed != map[]);
  }

  // The keys a tag follows in its context are those of the stored set, else of the set matched at the context's time,
  // else of the set matched now.
  lemma FollowsInContext(d: Descriptor, s: State, ctx: Ctx, now: nat)
    ensures var first, second := BestMatch(d, s.stored, ctx), BestMatch(d, s.stored, Ctx(now, ctx.context));
            FollowingKeys(d, s, ctx, now) ==
              if IsStored(s, ctx) then AutoKeysFor(d, s, ctx)
              else if first.Some? then if first.value in s.autoUpdate then s.autoUpdate[first.value] else d.writable
              else if second.Some? && second.value in s.autoUpdate then s.autoUpdate[second.value]
              else d.writable
  {
    hide BestMatch, AutoKeysFor, IsStored;
  }

  // --- changed() --------------------------------------------------------------------------------------------------

  // Past a call changed() is as it was, or true because something is staged or another context is active. A tag
  // without a context makes it false when nothing is staged.
  lemma StagedChanges(d: Descriptor, s: State, params: Values)
    requires SetStaged(d, s, params).Some?
    ensures var s' := SetStaged(d, s, params).value.0; s'.changed == (s.changed || s'.staged != map[])
  {
  }

  lemma ActivationChanges(d: Descriptor, s: State, ctx: Ctx, now: nat)
    requires StoreOrdered(s.stored)
    ensures var s' := Activate(d, s, ctx, now).0; s'.changed == (s.changed || s'.active != s.active)
  {
    BestIsStored(d, s, WithTime(ctx, now));
    hide BestMatch, AutoKeysFor, FirstOf, StoreOrdered;
  }

  lemma TagChanges(d: Descriptor, s: State, tag: Tag, now: nat, now2: nat)
    requires StoreOrdered(s.stored) && StagedIsReported(s)
    ensures var s' := AutoUpdate(d, s, tag, now, now2);
            s'.changed == if tag.context.None? then s'.staged != map[]
                          else s.changed || s'.staged != map[] || s'.active != s.active
  {
    var (s1, ctx) := TagActivates(d, s, tag, now);
    TagMoves(d, s, tag, now);
    TagSetsChanges(d, s1, tag, ctx, s.active != ctx, now2);
    hide TagActivates, TagSets, StoreOrdered;
  }

  lemma TagMoves(d: Descriptor, s: State, tag: Tag, now: nat)
    requires StoreOrdered(s.stored)
    ensures var (s1, ctx) := TagActivates(d, s, tag, now);
            && ctx == s1.active && s1.changed == (s.changed || s1.active != s.active)
            && (s1.active == s.active ==> s1.staged == s.staged)
            && (tag.context.None? ==> s1 == s)
  {
    if tag.context.Some? {
      ActivationChanges(d, s, tag.context.value, now);
      ActivateAnswers(d, s, tag.context.value, now);
      ActivationStaging(d, s, tag.context.value, now);
    }
    hide Activate, TaggedByActivation, StoreOrdered, BestMatch;
  }

  // the values past a tag's activation; `wrote` says that there were any
  ghost predicate Reports(s: State, s1: State, namesContext: bool, moved: bool, wrote: bool) {
    && s1.active == s.active
    && (if wrote then s1.staged != map[] else s1.staged == s.staged)
    && s1.changed == ((moved || wrote || s.changed) && (namesContext || wrote || s1.staged != map[]))
  }

  lemma TagSetsChanges(d: Descriptor, s: State, tag: Tag, ctx: Ctx, moved: bool, now: nat)
    ensures exists wrote :: Reports(s, TagSets(d, s, tag, ctx, moved, now), tag.context.Some?, moved, wrote)
  {
    hide FollowingKeys, Followed, ControlKeys, WithEntry, StageFromTag, ReportTag, Reports;
    var keys := FollowingKeys(d, s, ctx, now);
    var control, followed := ControlKeys(tag), Followed(d, s, tag, keys, moved);
    EntryKeeps(s, ctx, keys);
    WroteReports(s, WithEntry(s, ctx, keys), control, followed, tag.context.Some?, moved);
    assert Reports(s, TagSets(d, s, tag, ctx, moved, now), tag.context.Some?, moved,
                   control != map[] || followed != map[]);
  }

  lemma WroteReports(s: State, entered: State, control: Values, followed: Values, namesContext: bool, moved: bool)
    requires entered == s.(autoUpdate := entered.autoUpdate)
    ensures var wrote := control != map[] || followed != map[];
            Reports(s, ReportTag(StageFromTag(entered, control, followed), namesContext, moved, wrote), namesContext,
                    moved, wrote)
  {
    StagedSum(s.staged, control, followed);
  }

  lemma StagedSum(a: Values, b: Values, c: Values)
    ensures if b != map[] || c != map[] then a + b + c != map[] else a + b + c == a
  {
    if k :| k in b { assert k in a + b + c; }
    if k :| k in c { assert k in a + b + c; }
  }

  // an activation that stages something moves to another context or time
  lemma ActivationStaging(d: Descriptor, s: State, ctx: Ctx, now: nat)
    requires StoreOrdered(s.stored)
    ensures var s' := Activate(d, s, ctx, now).0; s'.active == s.active ==> s'.staged == s.staged
  {
    BestIsStored(d, s, WithTime(ctx, now));
    hide BestMatch, AutoKeysFor, FirstOf, StoreOrdered, Writable;
  }

  // An apply that has returned leaves changed() true exactly when something has been staged since it took its batch.
  lemma ConcludedChanges(s: State)
    ensures Conclude(s).changed <==> Conclude(s).staged != map[]
    ensures Conclude(s) == s.(changed := Conclude(s).changed)
  {
  }

  // --- couplings, and reads of the keys that follow ---------------------------------------------------------------

  // setTagCouplings() throws exactly when an entry is for no writable setting or names no tag key. Otherwise the table
  // holds what it couples, not what it uncouples, and else what it held, and what it couples follows everywhere.
  lemma CouplingsAnswer(d: Descriptor, s: State, entries: map<Key, Coupling>)
    ensures SetTagCouplings(d, s, entries).None? <==>
      exists k :: k in entries && (k !in d.writable || entries[k] == NoKey)
    ensures SetTagCouplings(d, s, entries).Some? ==>
      var s' := SetTagCouplings(d, s, entries).value;
      && (forall k :: k in s'.couplings <==> if k in entries then entries[k].Couple? else k in s.couplings)
      && (forall k :: k in s'.couplings ==> s'.couplings[k] == if k in entries then entries[k].key else s.couplings[k])
      && s'.autoUpdate.Keys == s.autoUpdate.Keys
      && (forall c, k :: c in s.autoUpdate ==>
            (k in s'.autoUpdate[c] <==> k in s.autoUpdate[c] || (k in entries && entries[k].Couple?)))
      && s' == s.(couplings := s'.couplings, autoUpdate := s'.autoUpdate)
  {
  }

  // autoUpdateParameters() answers the keys of the matched set's entry. Where it has none the answer is empty, and so
  // is the entry made, from which on nothing follows there. A second read answers the same.
  lemma ReadAnswers(d: Descriptor, s: State, ctx: Ctx)
    ensures var (s', keys) := ReadAutoKeys(d, s, ctx);
            && (match BestMatch(d, s.stored, ctx)
                case None => s' == s && keys == {}
                case Some(best) =>
                  if best in s.autoUpdate then s' == s && keys == s.autoUpdate[best]
                  else keys == {} && s' == s.(autoUpdate := s'.autoUpdate) && best in s'.autoUpdate
                       && AutoKeysFor(d, s', best) == {} && s'.autoUpdate.Keys == s.autoUpdate.Keys + {best}
                       && forall c :: c in s.autoUpdate ==> s'.autoUpdate[c] == s.autoUpdate[c])
            && ReadAutoKeys(d, s', ctx) == (s', keys)
  {
    hide BestMatch;
  }

  // A set that set() adds follows tags like the set it takes its other values from, but for the values given.
  lemma SetInheritsFollowing(d: Descriptor, s: State, params: Values, ctx: Ctx, now: nat, pruneNow: nat)
    requires Set(d, s, params, ctx, now, pruneNow).Some?
    ensures var s', at := Set(d, s, params, ctx, now, pruneNow).value.0, WithTime(ctx, now);
            at in s'.autoUpdate ==> forall k :: k in s'.autoUpdate[at] <==>
              (k in AutoKeysFor(d, s, at) && !(k in params && k in d.writable && !d.unset(params[k])))
  {
    hide BestAutoKeys, BestSettings, Inserted, Kept, Dropped, CapRefuses;
  }

  // --- pruning ----------------------------------------------------------------------------------------------------

  lemma ExpiredElsewhere(v: seq<StoredSet>, expiry: Option<nat>, now: nat, p: StoredSet)
    requires DistinctTimes(v) && p in v && !Expired(p, expiry, now)
    ensures forall i :: 0 <= i < |v| && Expired(v[i], expiry, now) ==> v[i].ctx != p.ctx
  {
    var k :| 0 <= k < |v| && v[k] == p;
    hide Expired;
    assert forall j :: 0 <= j < |v| && j != k ==> v[j].ctx.time != p.ctx.time;
  }

  lemma KeptIsNotDropped(d: Descriptor, v: seq<StoredSet>, now: nat, p: StoredSet)
    requires DistinctTimes(v) && p in Kept(d, v, now)
    ensures p.ctx !in Dropped(d, v, now)
  {
    hide PrunedCount, Unexpired, Expired;
    var alive := Unexpired(v, d.expiry, now);
    UnexpiredDistinct(v, d.expiry, now);
    var n := PrunedCount(alive, now);
    var i :| n <= i < |alive| && alive[i] == p;
    assert p in alive;
    ExpiredElsewhere(v, d.expiry, now, p);
    assert forall j :: 0 <= j < n ==> alive[j].ctx.time < alive[i].ctx.time;
  }

  lemma DroppedHere(d: Descriptor, store: Store, now: nat, n: Name, c: Ctx)
    requires StoreOrdered(store) && n in store && c in Dropped(d, store[n], now)
    ensures c.context == n
  {
    var v, alive := store[n], Unexpired(store[n], d.expiry, now);
    hide PrunedCount, Unexpired, Expired;
    if i :| 0 <= i < |v| && Expired(v[i], d.expiry, now) && v[i].ctx == c {
      assert v[i] in v;
    } else {
      var i :| 0 <= i < PrunedCount(alive, now) && alive[i].ctx == c;
      assert alive[i] in v;
    }
  }

  // A set that pruning keeps keeps its entry as it was.
  lemma PruneKeepsEntries(d: Descriptor, s: State, now: nat, c: Ctx)
    requires StoreOrdered(s.stored) && c in s.autoUpdate
    requires c.context in s.stored && DistinctTimes(s.stored[c.context]) && IsStored(RemoveExpired(d, s, now), c)
    ensures var s' := RemoveExpired(d, s, now); c in s'.autoUpdate && s'.autoUpdate[c] == s.autoUpdate[c]
  {
    var kept := Kept(d, s.stored[c.context], now);
    var p := FirstOf(kept, c).value;
    KeptIsNotDropped(d, s.stored[c.context], now, p);
    hide Kept, Dropped, StoreOrdered, FirstOf;
    forall n | n in s.stored ensures c !in Dropped(d, s.stored[n], now) {
      if c in Dropped(d, s.stored[n], now) { DroppedHere(d, s.stored, now, n, c); }
    }
  }

  // --- the apply --------------------------------------------------------------------------------------------------

  ghost predicate MembersActive(s: State) {
    forall k :: k in s.members ==> k in s.activeParameters && s.activeParameters[k] == s.members[k]
  }

  // The values the block reports to tags are its members' past every part of an apply.
  lemma AppliedIsActive(d: Descriptor, s: State, now: nat, now2: nat, now3: nat, b: Batch, verdict: Verdict)
    ensures MembersActive(Begin(d, s, now, now2, now3).0) && MembersActive(Finish(d, s, b, verdict, now).0)
  {
    BeginRefreshes(d, s, now, now2, now3);
    FinishRefreshes(d, s, b, verdict, now);
  }

  lemma RefreshedIsActive(s: State)
    ensures MembersActive(Refresh(s))
  {
  }

  lemma BeginRefreshes(d: Descriptor, s: State, now: nat, now2: nat, now3: nat)
    ensures MembersActive(Begin(d, s, now, now2, now3).0)
  {
    var t := TakeBatch(d, s, now, now2, now3);
    RefreshedIsActive(t.s.(members := s.members + Accepted(d, t.toApply)));
    hide TakeBatch, Accepted, Rejected, Moved, Refresh, MembersActive;
  }

  lemma FinishRefreshes(d: Descriptor, s: State, b: Batch, verdict: Verdict, now: nat)
    ensures MembersActive(Finish(d, s, b, verdict, now).0)
  {
    RefreshedStores(s, b);
    RefreshedStores(RollBack(d, s, b, now), b);
    RollBackRefreshes(d, s, b, now);
    hide RollBack, StoreIfAsked, Refresh, MembersActive;
  }

  lemma RefreshedStores(s: State, b: Batch)
    ensures MembersActive(StoreIfAsked(Refresh(s), b))
  {
  }

  lemma RollBackRefreshes(d: Descriptor, s: State, b: Batch, now: nat)
    ensures MembersActive(RollBack(d, s, b, now))
  {
    hide RestoreRefused, RestoreContext, RestoreAutoKeys, Refresh, MembersActive;
    var s1 := RestoreRefused(d, s, b);
    var s2 := if b.before.Some? then RestoreContext(d, s1, b.before.value, b.ctx, now) else s1;
    RefreshedIsActive(RestoreAutoKeys(s2, b.autoBefore));
  }

  lemma UpdatedIsActive(s: State, keys: set<Key>, k: Key)
    requires k in keys && k in s.members
    ensures var s' := UpdateActive(s, keys); k in s'.activeParameters && s'.activeParameters[k] == s.members[k]
  {
  }

  // The callback is told the members that moved, with their new values, and the context where the batch moved to
  // another one. Nothing is told where there is no callback.
  lemma CallbackIsTold(d: Descriptor, s: State, now: nat, now2: nat, now3: nat, k: Key)
    requires d.writable <= s.members.Keys
    ensures var (s1, b) := Begin(d, s, now, now2, now3);
            && (!d.hasCallback ==> b.reported == map[])
            && (d.hasCallback && b.activated ==>
                  CONTEXT_FIELD in b.reported && b.reported[CONTEXT_FIELD] == d.nameValue(s1.active.context))
            && (d.hasCallback && !(k == CONTEXT_FIELD && b.activated) ==>
                  (k in b.reported <==> k in s.members && s1.members[k] != s.members[k]))
            && (k in b.reported && !(k == CONTEXT_FIELD && b.activated) ==> b.reported[k] == s1.members[k])
            && (d.hasCallback ==> b.previous == s.members)
  {
    TakeBatchMembers(d, s, now, now2, now3);
    hide TakeBatch, Rejected;
  }

  // An apply without a reset that the block accepts answers with the writable values staged, those its limits take as
  // applied and the others as failed, and passes on what the callback forwards.
  lemma AcceptAnswers(d: Descriptor, s: State, now: nat, now2: nat, now3: nat, forward: Values, at: nat)
    requires RESET_DEFAULTS !in s.staged
    ensures var (s1, b) := Begin(d, s, now, now2, now3);
            match Finish(d, s1, b, Accept(forward), at).1
            case Threw => false
            case Returned(applied, failed, forwarded) =>
              && (forall k :: k in applied <==> k in s.staged && k in d.writable && d.Takes(k, s.staged[k]))
              && (forall k :: k in failed <==> k in s.staged && k in d.writable && !d.Takes(k, s.staged[k]))
              && (forall k :: k in applied ==> applied[k] == s.staged[k])
              && (forall k :: k in failed ==> failed[k] == s.staged[k])
              && forwarded == if b.reported == map[] then map[] else forward
  {
    BeginParts(d, s, now, now2, now3);
    hide Begin, StoreIfAsked, Refresh;
  }
}
