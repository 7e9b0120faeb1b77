/**
 Which settings follow their tag keys (core/src/Settings.cpp): from a coupling on, no more after set(), and again after
 a reset.
 */
module SettingsFollowing {
  import opened Wrappers
  import opened SettingsStore
  import opened Settings
  import opened SettingsInvariants
  import opened SettingsTransactions

  // the keys followed in a context are those of a stored entry, or every writable one
  lemma FollowingSource(d: Descriptor, s: State, ctx: Ctx, now: nat)
    ensures var keys := FollowingKeys(d, s, ctx, now);
            keys == d.writable || exists c :: c in s.autoUpdate && s.autoUpdate[c] == keys
    ensures IsStored(s, ctx) && ctx in s.autoUpdate ==> FollowingKeys(d, s, ctx, now) == s.autoUpdate[ctx]
  {
    hide BestMatch, IsStored;
  }

  // Once setTagCouplings() has returned, the key is in force in each context, whichever call set the setting last.
  lemma CoupledFollows(d: Descriptor, s: State, entries: map<Key, Coupling>, k: Key, ctx: Ctx, now: nat)
    requires SetTagCouplings(d, s, entries).Some? && k in entries && entries[k].Couple?
    ensures var s1 := SetTagCouplings(d, s, entries).value;
            && k in s1.couplings && s1.couplings[k] == entries[k].key && k in d.writable
            && k in FollowingKeys(d, s1, ctx, now)
  {
    FollowingSource(d, SetTagCouplings(d, s, entries).value, ctx, now);
    assert k in Coupled(entries);
    hide FollowingKeys;
  }

  // A tag with the key stages its value for the setting, over what was staged, unless the block reports the value
  // already.
  lemma CoupledTagSets(d: Descriptor, s: State, entries: map<Key, Coupling>, k: Key, tag: Tag, now: nat, now2: nat)
    requires SetTagCouplings(d, s, entries).Some? && k in entries && entries[k].Couple?
    requires tag.context.None? && entries[k].key in tag.values && d.follows(k, tag.values[entries[k].key])
    requires !(k in s.activeParameters && s.activeParameters[k] == tag.values[entries[k].key])
    ensures var s1 := AutoUpdate(d, SetTagCouplings(d, s, entries).value, tag, now, now2);
            k in s1.staged && s1.staged[k] == tag.values[entries[k].key] && k in s1.tagged && s1.changed
  {
    var s1 := SetTagCouplings(d, s, entries).value;
    CoupledFollows(d, s, entries, k, s.active, now2);
    TagSetsFollowed(d, s1, tag, s.active, k, now2);
    hide SetTagCouplings, TagSets;
  }

  lemma TagSetsFollowed(d: Descriptor, s: State, tag: Tag, ctx: Ctx, k: Key, now: nat)
    requires k in Followed(d, s, tag, FollowingKeys(d, s, ctx, now), false)
    ensures var s1 := TagSets(d, s, tag, ctx, false, now);
            k in s1.staged && s1.staged[k] == tag.values[s.couplings[k]] && k in s1.tagged && s1.changed
  {
    hide FollowingKeys, ControlKeys, IsStored;
  }

  // The same value staged for k, or none, and the same mark of a tag.
  predicate SameStaged(s: State, s': State, k: Key) {
    && (k in s'.staged <==> k in s.staged) && (k in s.staged ==> s'.staged[k] == s.staged[k])
    && (k in s'.tagged <==> k in s.tagged)
  }

  // A tag leaves what is staged for an uncoupled setting as its activation leaves it, which without a context is as it
  // was. A control key that a writable setting is named after is staged under its own name.
  lemma UncoupledIsNotSet(d: Descriptor, s: State, entries: map<Key, Coupling>, k: Key, tag: Tag, now: nat, now2: nat)
    requires SetTagCouplings(d, s, entries).Some? && k in entries && entries[k].Uncouple?
    requires k != RESET_DEFAULTS && k != STORE_DEFAULTS
    ensures var s1 := SetTagCouplings(d, s, entries).value;
            var s2 := if tag.context.Some? then Activate(d, s1, tag.context.value, now).0 else s1;
            var s3 := AutoUpdate(d, s1, tag, now, now2);
            && (k in s3.staged <==> k in s2.staged) && (k in s2.staged ==> s3.staged[k] == s2.staged[k])
            && (tag.context.None? ==> SameStaged(s, s3, k))
  {
    var s1 := SetTagCouplings(d, s, entries).value;
    assert k !in s1.couplings && s1.staged == s.staged && s1.tagged == s.tagged;
    hide SetTagCouplings;
    var (s2, ctx) := TagActivates(d, s1, tag, now);
    ActivationKeepsCouplings(d, s1, tag, now);
    TagSetsOthers(d, s2, tag, ctx, s1.active != ctx, k, now2);
    hide Activate, TagSets, TaggedByActivation;
  }

  lemma ActivationKeepsCouplings(d: Descriptor, s: State, tag: Tag, now: nat)
    ensures TagActivates(d, s, tag, now).0.couplings == s.couplings
  {
    hide BestMatch, BestSettings, AutoKeysFor, Writable, TaggedByActivation;
  }

  lemma TagSetsOthers(d: Descriptor, s: State, tag: Tag, ctx: Ctx, moved: bool, k: Key, now: nat)
    requires k !in s.couplings && k != RESET_DEFAULTS && k != STORE_DEFAULTS
    ensures SameStaged(s, TagSets(d, s, tag, ctx, moved, now), k)
  {
    hide FollowingKeys, WithEntry, StageFromTag, ReportTag;
    var keys := FollowingKeys(d, s, ctx, now);
    var control, followed := ControlKeys(tag), Followed(d, s, tag, keys, moved);
    assert k !in control && k !in followed;
    hide ControlKeys, Followed;
    EntryStaged(s, ctx, keys);
    OthersStaged(WithEntry(s, ctx, keys), control, followed, tag.context.Some?, moved,
                 control != map[] || followed != map[], k);
  }

  lemma EntryStaged(s: State, ctx: Ctx, keys: set<Key>)
    ensures WithEntry(s, ctx, keys).staged == s.staged && WithEntry(s, ctx, keys).tagged == s.tagged
  {
  }

  lemma OthersStaged(s: State, control: Values, followed: Values, namesContext: bool, moved: bool, wasChanged: bool,
                     k: Key)
    requires k !in control && k !in followed
    ensures SameStaged(s, ReportTag(StageFromTag(s, control, followed), namesContext, moved, wasChanged), k)
  {
  }

  // A setting that set() gives a value stops following its key in the set stored, as long as the set is kept; the other
  // settings follow there as they did in the set its values came from.
  lemma SetStopsFollowing(d: Descriptor, s: State, params: Values, ctx: Ctx, now: nat, pruneNow: nat, at: nat)
    requires Set(d, s, params, ctx, now, pruneNow).Some?
    ensures var s1, c := Set(d, s, params, ctx, now, pruneNow).value.0, WithTime(ctx, now);
            IsStored(s1, c) && c in s1.autoUpdate ==>
              FollowingKeys(d, s1, c, at) == AutoKeysFor(d, s, c) - Writable(d, Given(d, params)).Keys
  {
    var s1, c := Set(d, s, params, ctx, now, pruneNow).value.0, WithTime(ctx, now);
    FollowingSource(d, s1, c, at);
    SetEntry(d, s, params, ctx, now, pruneNow);
    hide Set, FollowingKeys, IsStored, AutoKeysFor;
  }

  lemma SetEntry(d: Descriptor, s: State, params: Values, ctx: Ctx, now: nat, pruneNow: nat)
    requires Set(d, s, params, ctx, now, pruneNow).Some?
    ensures var s1, c := Set(d, s, params, ctx, now, pruneNow).value.0, WithTime(ctx, now);
            c in s1.autoUpdate ==> s1.autoUpdate[c] == AutoKeysFor(d, s, c) - Writable(d, Given(d, params)).Keys
  {
    hide BestAutoKeys, BestSettings, Inserted, Kept, Dropped, CapRefuses, Writable, Given, NotWritable;
  }

  // A reset makes every setting follow again, in every context.
  lemma ResetMakesAllFollow(d: Descriptor, s: State, now: nat, now2: nat, now3: nat, ctx: Ctx, at: nat)
    requires Resets(d, s, now)
    ensures FollowingKeys(d, Begin(d, s, now, now2, now3).0, ctx, at) == d.writable
  {
    ResetEntries(d, s, now, now2, now3);
    FollowingSource(d, Begin(d, s, now, now2, now3).0, ctx, at);
    hide Begin, FollowingKeys, Resets;
  }

  // ... resetDefaults() included.
  lemma ResetCallMakesAllFollow(d: Descriptor, s: State, now: nat, now2: nat, now3: nat, now4: nat, ctx: Ctx, at: nat)
    requires BeginReset(d, s, now, now2, now3, now4).Some?
    ensures FollowingKeys(d, BeginReset(d, s, now, now2, now3, now4).value.0, ctx, at) == d.writable
  {
    StagedDefaultsFollow(d, s, now, now2);
    StageDefaultsRefuses(d, s, now, now2);
    hide StageDefaults, Begin, RefusedDefaults, FollowingKeys;
    var s1 := StageDefaults(d, s, now, now2).0;
    var s2 := s1.(staged := s1.staged - {RESET_DEFAULTS});
    TakeWithoutReset(d, s2, now2, now3, now4);
    BeginParts(d, s2, now2, now3, now4);
    FollowingSource(d, BeginReset(d, s, now, now2, now3, now4).value.0, ctx, at);
  }

  lemma ResetEntries(d: Descriptor, s: State, now: nat, now2: nat, now3: nat)
    requires Resets(d, s, now)
    ensures var s1 := Begin(d, s, now, now2, now3).0; forall c :: c in s1.autoUpdate ==> s1.autoUpdate[c] == d.writable
  {
    RefusedAlike(d, s, Emptied(s), now);
    StageDefaultsRefuses(d, Emptied(s), now, now2);
    StagedDefaultsFollow(d, Emptied(s), now, now2);
    TakenEntries(d, s, now, now2, now3);
    BeginParts(d, s, now, now2, now3);
    hide Begin, TakeBatch, StageDefaults, RefusedDefaults;
  }

  lemma StagedDefaultsFollow(d: Descriptor, s: State, now: nat, now2: nat)
    ensures var (s1, refused) := StageDefaults(d, s, now, now2);
            refused == map[] ==> forall c :: c in s1.autoUpdate ==> s1.autoUpdate[c] == d.writable
  {
    hide RefusedDefaults, Activate, AddStored;
  }

  lemma TakenEntries(d: Descriptor, s: State, now: nat, now2: nat, now3: nat)
    requires Resets(d, s, now)
    ensures var t, s1 := TakeBatch(d, s, now, now2, now3), StageDefaults(d, Emptied(s), now, now2).0;
            forall c :: c in t.s.autoUpdate ==> c in s1.autoUpdate && t.s.autoUpdate[c] == s1.autoUpdate[c]
  {
    RefusedAlike(d, s, Emptied(s), now);
    StageDefaultsRefuses(d, Emptied(s), now, now2);
    hide RefusedDefaults, StageDefaults, Kept, Dropped;
  }
}
