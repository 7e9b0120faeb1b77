/**
 Every interleaving of public calls and applies on one block's settings.

 An apply releases the mutex while the block's callback runs and again for the block's reset(), so calls, and other
 threads' applies, come between its parts. Each event is one critical section.
 */
module SettingsRuns {
  import opened Wrappers
  import opened SettingsStore
  import opened Settings
  import opened SettingsInvariants
  import opened SettingsTransactions
  import opened SettingsEffects
  import opened SettingsCaps

  datatype Call =
    | SetCall(params: Values, ctx: Ctx)
    | SetStagedCall(params: Values)
    | ActivateCall(ctx: Ctx)
    | RemoveCall(ctx: Ctx)
    | TagCall(tag: Tag)
    | CoupleCall(entries: map<Key, Coupling>)
    | StoreDefaultsCall
    | UpdateActiveCall(keys: set<Key>)
    | ReadAutoKeysCall(ctx: Ctx)

  // an event of the call or thread, and its clock readings in order
  datatype Event =
    | Public(call: Call, now: nat, now2: nat, now3: nat)
    | BeginApply(t: nat, now: nat, now2: nat, now3: nat)
    | BeginResetDefaults(t: nat, now: nat, now2: nat, now3: nat)
    | EndCallback(t: nat, verdict: Verdict, now: nat, now2: nat, now3: nat)
    | EndApply(t: nat, now: nat, now2: nat, now3: nat)

  // `reporting` holds the batch of each apply whose callback runs, `concluding` the applies past it, and `resets` the
  // applies of resetDefaults(), which prune once more at their end
  datatype Config = Config(s: State, clock: nat, reporting: map<nat, Batch>, concluding: set<nat>, resets: set<nat>)

  predicate Possible(c: Config, e: Event) {
    && c.clock <= e.now <= e.now2 <= e.now3
    && match e
       case Public(_, _, _, _) => true
       case BeginApply(t, _, _, _) => t !in c.reporting && t !in c.concluding
       case BeginResetDefaults(t, _, _, _) => t !in c.reporting && t !in c.concluding
       case EndCallback(t, _, _, _, _) => t in c.reporting
       case EndApply(t, _, _, _) => t in c.concluding
  }

  // a call that throws leaves the state as it was
  function AfterCall(d: Descriptor, s: State, call: Call, now: nat, now2: nat, now3: nat): State {
    match call
    case SetCall(params, ctx) => (match Set(d, s, params, ctx, now, now3) case None => s case Some(r) => r.0)
    case SetStagedCall(params) => (match SetStaged(d, s, params) case None => s case Some(r) => r.0)
    case ActivateCall(ctx) => Activate(d, s, ctx, now).0
    case RemoveCall(ctx) => Remove(d, s, ctx, now, now2, now3).0
    case TagCall(tag) => AutoUpdate(d, s, tag, now, now3)
    case CoupleCall(entries) => (match SetTagCouplings(d, s, entries) case None => s case Some(r) => r)
    case StoreDefaultsCall => StoreDefaults(s)
    case UpdateActiveCall(keys) => UpdateActive(s, keys)
    case ReadAutoKeysCall(ctx) => ReadAutoKeys(d, s, ctx).0
  }

  function Next(d: Descriptor, c: Config, e: Event): Config
    requires Possible(c, e)
  {
    match e
    case Public(call, now, now2, now3) => c.(s := AfterCall(d, c.s, call, now, now2, now3), clock := e.now3)
    case BeginApply(t, now, now2, now3) =>
      var (s', b) := Begin(d, c.s, now, now2, now3);
      c.(s := s', clock := now3, reporting := c.reporting[t := b], resets := c.resets - {t})
    case BeginResetDefaults(t, now, now2, now3) =>
      (match BeginReset(d, c.s, now, now2, now3, now3)
       case None => c.(clock := now3)
       case Some(r) => c.(s := r.0, clock := now3, reporting := c.reporting[t := r.1], resets := c.resets + {t}))
    case EndCallback(t, verdict, now, _, now3) =>
      var (s', outcome) := Finish(d, c.s, c.reporting[t], verdict, now);
      c.(s := s', clock := now3, reporting := c.reporting - {t},
         concluding := if outcome.Threw? then c.concluding else c.concluding + {t})
    case EndApply(t, now, _, now3) =>
      c.(s := if t in c.resets then RemoveExpired(d, Conclude(c.s), now) else Conclude(c.s),
         clock := now3, concluding := c.concluding - {t})
  }

  ghost predicate ConfigInv(d: Descriptor, c: Config) {
    && Inv(d, c.s, c.clock)
    && |Others(c.s.stored)| <= MAX_CONTEXTS
    && forall t :: t in c.reporting ==> Convertible(d, c.reporting[t].previous)
  }

  lemma CallKeepsInv(d: Descriptor, s: State, call: Call, now: nat, now2: nat, now3: nat)
    requires Inv(d, s, now) && now <= now2 <= now3
    ensures Inv(d, AfterCall(d, s, call, now, now2, now3), now3)
  {
    hide Inv, Set, SetStaged, Stage, Activate, Remove, AutoUpdate, SetTagCouplings, StoreDefaults, UpdateActive,
      ReadAutoKeys;
    LaterKeeps(d, s, now, now3);
    match call {
      case SetCall(params, ctx) =>
        if Set(d, s, params, ctx, now, now3).Some? { SetKeepsInv(d, s, params, ctx, now, now3); }
      case SetStagedCall(params) => SetStagedKeepsInv(d, s, params, now3);
      case ActivateCall(ctx) => ActivateKeepsInv(d, s, ctx, now); LaterKeeps(d, Activate(d, s, ctx, now).0, now, now3);
      case RemoveCall(ctx) => RemoveKeepsInv(d, s, ctx, now, now2, now3);
      case TagCall(tag) => AutoUpdateKeepsInv(d, s, tag, now, now3);
      case CoupleCall(entries) => CouplingsKeepInv(d, s, entries, now3);
      case StoreDefaultsCall => StoreDefaultsKeepsInv(d, s, now3);
      case UpdateActiveCall(keys) => UpdateActiveKeepsInv(d, s, keys, now3);
      case ReadAutoKeysCall(ctx) => ReadAutoKeysKeepsInv(d, s, ctx, now3);
    }
  }

  lemma ReadAutoKeysKeepsInv(d: Descriptor, s: State, ctx: Ctx, now: nat)
    requires Inv(d, s, now)
    ensures Inv(d, ReadAutoKeys(d, s, ctx).0, now)
  {
    InvParts(d, s, now);
    hide Inv, ReadAutoKeys, IsStored, StagedIsReported, StoreOrdered;
    ReadParts(d, s, ctx);
    Untouched(d, s, ReadAutoKeys(d, s, ctx).0, now);
  }

  lemma InvParts(d: Descriptor, s: State, now: nat)
    requires Inv(d, s, now)
    ensures StoreOrdered(s.stored) && StagedIsReported(s)
  {
  }

  // the getter leaves everything but an entry of a stored set
  lemma ReadParts(d: Descriptor, s: State, ctx: Ctx)
    requires StoreOrdered(s.stored) && StagedIsReported(s)
    ensures var s1 := ReadAutoKeys(d, s, ctx).0;
            && s1.stored == s.stored && s1.members == s.members && s1.defaults == s.defaults && StagedIsReported(s1)
            && forall c :: c in s1.autoUpdate ==> c in s.autoUpdate || IsStored(s, c)
  {
    hide IsStored, StoreOrdered, StagedIsReported, ReadAutoKeys, BestMatch;
    BestIsStored(d, s, ctx);
    ReadFields(d, s, ctx);
    ReadEntries(d, s, ctx);
  }

  lemma ReadFields(d: Descriptor, s: State, ctx: Ctx)
    ensures var s1 := ReadAutoKeys(d, s, ctx).0;
            && s1.stored == s.stored && s1.members == s.members && s1.defaults == s.defaults
            && (StagedIsReported(s) ==> StagedIsReported(s1))
  {
    hide BestMatch;
  }

  lemma ReadEntries(d: Descriptor, s: State, ctx: Ctx)
    ensures forall c :: c in ReadAutoKeys(d, s, ctx).0.autoUpdate ==>
              c in s.autoUpdate || BestMatch(d, s.stored, ctx) == Some(c)
  {
    hide BestMatch;
  }

  lemma CouplingsKeepInv(d: Descriptor, s: State, entries: map<Key, Coupling>, now: nat)
    requires Inv(d, s, now)
    ensures SetTagCouplings(d, s, entries).Some? ==> Inv(d, SetTagCouplings(d, s, entries).value, now)
  {
    if SetTagCouplings(d, s, entries).Some? {
      Untouched(d, s, SetTagCouplings(d, s, entries).value, now);
    }
    hide SetTagCouplings, StoreOrdered, PendingBounded, KeptConvert, IsStored;
  }

  lemma UpdateActiveKeepsInv(d: Descriptor, s: State, keys: set<Key>, now: nat)
    requires Inv(d, s, now)
    ensures Inv(d, UpdateActive(s, keys), now)
  {
    Untouched(d, s, UpdateActive(s, keys), now);
    hide Inv;
  }

  lemma BeginResetKeepsInv(d: Descriptor, s: State, now: nat, now2: nat, now3: nat)
    requires Inv(d, s, now) && now <= now2 <= now3
    requires BeginReset(d, s, now, now2, now3, now3).Some?
    ensures var (s', b) := BeginReset(d, s, now, now2, now3, now3).value;
            Inv(d, s', now3) && Convertible(d, b.previous) && s'.staged == map[]
  {
    hide Inv, StageDefaults, Begin;
    StageDefaultsKeepsInv(d, s, now, now2);
    var s1 := StageDefaults(d, s, now, now2).0;
    var s2 := s1.(staged := s1.staged - {RESET_DEFAULTS});
    ReportedOf(d, s1, now2);
    Untouched(d, s1, s2, now2);
    BeginKeepsInv(d, s2, now2, now3, now3);
  }

  lemma ConcludeKeepsInv(d: Descriptor, s: State, now: nat)
    requires Inv(d, s, now)
    ensures Inv(d, Conclude(s), now) && Inv(d, RemoveExpired(d, Conclude(s), now), now)
  {
    hide Inv, Kept, Dropped;
    Untouched(d, s, Conclude(s), now);
    RemoveExpiredKeeps(d, Conclude(s), now);
  }

  // Once an apply has returned, changed() says whether something has been staged since it took its batch.
  lemma ReturnedApplyReports(d: Descriptor, c: Config, e: Event)
    requires Possible(c, e) && e.EndApply?
    ensures var c' := Next(d, c, e);
            && (c'.s.changed <==> c'.s.staged != map[]) && c'.s.staged == c.s.staged && c'.s.members == c.s.members
            && c'.reporting == c.reporting && c'.concluding == c.concluding - {e.t}
  {
    hide RemoveExpired;
    PruneKeepsRest(d, Conclude(c.s), e.now);
  }

  lemma PruneKeepsRest(d: Descriptor, s: State, now: nat)
    ensures var s' := RemoveExpired(d, s, now);
            s'.changed == s.changed && s'.staged == s.staged && s'.members == s.members
  {
    hide Kept, Dropped;
  }

  // A callback ends with the apply past it, unless the block refuses the batch and the refusal is thrown.
  lemma CallbackEnds(d: Descriptor, c: Config, e: Event)
    requires Possible(c, e) && e.EndCallback?
    ensures var c' := Next(d, c, e);
            && c'.reporting == c.reporting - {e.t}
            && (e.t in c'.concluding || e.t in c.concluding <==>
                  e.t in c.concluding || Finish(d, c.s, c.reporting[e.t], e.verdict, e.now).1.Returned?)
            && (e.t !in c'.concluding ==> e.verdict == Refuse)
  {
    hide RollBack, StoreIfAsked, Refresh;
  }

  // --- the contexts with stored sets ------------------------------------------------------------------------------

  predicate IsSet(e: Event) { e.Public? && e.call.SetCall? }

  // the event stores the defaults
  predicate ResetsIn(d: Descriptor, c: Config, e: Event) {
    || (e.BeginApply? && Resets(d, c.s, e.now))
    || (e.BeginResetDefaults? && RefusedDefaults(d, c.s, e.now) == map[])
  }

  // set() adds its context where the cap leaves room, a reset adds the default one, and no other event adds any
  ghost predicate Adds(d: Descriptor, c: Config, e: Event, held: set<Name>, held': set<Name>) {
    && (IsSet(e) ==> held' <= held + {e.call.ctx.context}
                     && (e.call.ctx.context in held || |held| < MAX_CONTEXTS || held' <= held))
    && (ResetsIn(d, c, e) ==> held' <= held + {DEFAULT_CONTEXT})
    && (!IsSet(e) && !ResetsIn(d, c, e) ==> held' <= held)
    && (d.expiry.None? && DEFAULT_CONTEXT in held ==> DEFAULT_CONTEXT in held')
  }

  lemma EventAdds(d: Descriptor, c: Config, e: Event)
    requires Possible(c, e)
    ensures Adds(d, c, e, ContextsHeld(c.s.stored), ContextsHeld(Next(d, c, e).s.stored))
  {
    hide AfterCall, Begin, BeginReset, Finish, RemoveExpired, StageDefaults, RefusedDefaults, ContextsHeld, Alive;
    match e {
      case Public(_, _, _, _) => CallAdds(d, c, e);
      case BeginApply(_, now, now2, now3) =>
        BatchHolds(d, c.s, now, now2, now3);
        RefusedAlike(d, c.s, Emptied(c.s), now);
        ResetHolds(d, Emptied(c.s), now, now2);
        AliveHolds(d, StageDefaults(d, Emptied(c.s), now, now2).0.stored, now3);
      case BeginResetDefaults(_, now, now2, now3) =>
        StartsUnlessRefused(d, c.s, now, now2, now3);
        if BeginReset(d, c.s, now, now2, now3, now3).Some? { ResetCallHolds(d, c.s, now, now2, now3, now3); }
      case EndCallback(t, verdict, now, _, _) => EndHolds(d, c.s, c.reporting[t], verdict, now);
      case EndApply(_, now, _, _) =>
        PrunedHolds(d, Conclude(c.s), now);
        AliveHolds(d, c.s.stored, now);
    }
  }

  lemma AliveHolds(d: Descriptor, store: Store, now: nat)
    ensures Alive(d, store, now) <= ContextsHeld(store)
    ensures d.expiry.None? ==> Alive(d, store, now) == ContextsHeld(store)
  {
    forall n | n in store && store[n] != [] && d.expiry.None? ensures n in Alive(d, store, now) {
      assert store[n][0] in store[n] && !Expired(store[n][0], d.expiry, now);
    }
  }

  lemma StartsUnlessRefused(d: Descriptor, s: State, now: nat, now2: nat, now3: nat)
    ensures BeginReset(d, s, now, now2, now3, now3).Some? <==> RefusedDefaults(d, s, now) == map[]
  {
    StageDefaultsRefuses(d, s, now, now2);
    hide StageDefaults, Begin, RefusedDefaults;
  }

  lemma CallAdds(d: Descriptor, c: Config, e: Event)
    requires Possible(c, e) && e.Public?
    ensures Adds(d, c, e, ContextsHeld(c.s.stored), ContextsHeld(Next(d, c, e).s.stored))
  {
    hide Set, SetStaged, Activate, Remove, AutoUpdate, SetTagCouplings, ReadAutoKeys, ContextsHeld;
    match e.call {
      case SetCall(params, ctx) =>
        if Set(d, c.s, params, ctx, e.now, e.now3).Some? { SetHolds(d, c.s, params, ctx, e.now, e.now3); }
      case SetStagedCall(params) => SetStagedHolds(d, c.s, params);
      case ActivateCall(ctx) => ActivateKeepsEntries(d, c.s, ctx, e.now);
      case RemoveCall(ctx) => RemovalHolds(d, c.s, ctx, e.now, e.now2, e.now3);
      case TagCall(tag) => TagHolds(d, c.s, tag, e.now, e.now3);
      case CoupleCall(entries) => CouplingsHold(d, c.s, entries);
      case StoreDefaultsCall =>
      case UpdateActiveCall(_) =>
      case ReadAutoKeysCall(ctx) => ReadStages(d, c.s, ctx);
    }
  }

  lemma SetStagedHolds(d: Descriptor, s: State, params: Values)
    ensures SetStaged(d, s, params).Some? ==> SetStaged(d, s, params).value.0.stored == s.stored
  {
  }

  lemma CouplingsHold(d: Descriptor, s: State, entries: map<Key, Coupling>)
    ensures SetTagCouplings(d, s, entries).Some? ==> SetTagCouplings(d, s, entries).value.stored == s.stored
  {
  }

  // The cap holds of the contexts other than the default one, whose set a reset stores without asking for it.
  lemma EventKeepsCap(d: Descriptor, c: Config, e: Event)
    requires Possible(c, e) && |Others(c.s.stored)| <= MAX_CONTEXTS
    ensures |Others(Next(d, c, e).s.stored)| <= MAX_CONTEXTS
  {
    EventAdds(d, c, e);
    hide Next, ContextsHeld, ResetsIn;
    var held, held' := ContextsHeld(c.s.stored), ContextsHeld(Next(d, c, e).s.stored);
    var others, others' := held - {DEFAULT_CONTEXT}, held' - {DEFAULT_CONTEXT};
    if IsSet(e) && !(others' <= others) {
      SubsetSize(others, held);
      SubsetSize(others', others + {e.call.ctx.context});
    } else {
      SubsetSize(others', others);
    }
  }

  // Every event keeps every invariant, whatever other applies are under way.
  lemma EventKeepsInv(d: Descriptor, c: Config, e: Event)
    requires ConfigInv(d, c) && Possible(c, e)
    ensures ConfigInv(d, Next(d, c, e))
  {
    hide Inv, AfterCall, Begin, BeginReset, Finish, RemoveExpired, Conclude, Convertible, Others;
    EventKeepsCap(d, c, e);
    LaterKeeps(d, c.s, c.clock, e.now);
    LaterKeeps(d, c.s, c.clock, e.now3);
    match e {
      case Public(call, now, now2, now3) => CallKeepsInv(d, c.s, call, now, now2, now3);
      case BeginApply(_, now, now2, now3) => BeginKeepsInv(d, c.s, now, now2, now3);
      case BeginResetDefaults(_, now, now2, now3) =>
        if BeginReset(d, c.s, now, now2, now3, now3).Some? { BeginResetKeepsInv(d, c.s, now, now2, now3); }
      case EndCallback(t, verdict, now, _, now3) =>
        FinishKeepsInv(d, c.s, c.reporting[t], verdict, now);
        LaterKeeps(d, Finish(d, c.s, c.reporting[t], verdict, now).0, now, now3);
      case EndApply(t, now, _, now3) =>
        ConcludeKeepsInv(d, c.s, now);
        LaterKeeps(d, RemoveExpired(d, Conclude(c.s), now), now, now3);
        LaterKeeps(d, Conclude(c.s), now, now3);
    }
  }

  ghost predicate Execution(d: Descriptor, c: Config, events: seq<Event>, c': Config)
    decreases |events|
  {
    if events == [] then c' == c
    else Possible(c, events[0]) && Execution(d, Next(d, c, events[0]), events[1..], c')
  }

  lemma {:induction false} ExecutionKeepsInv(d: Descriptor, c: Config, events: seq<Event>, c': Config)
    requires ConfigInv(d, c) && Execution(d, c, events, c')
    ensures ConfigInv(d, c')
    decreases |events|
  {
    hide ConfigInv, Next, Possible;
    if events != [] {
      EventKeepsInv(d, c, events[0]);
      ExecutionKeepsInv(d, Next(d, c, events[0]), events[1..], c');
    }
  }

  // --- what the transactions start from ---------------------------------------------------------------------------

  // no reset is left half done, no member is lost, and the defaults are as they were
  ghost predicate KeepsMembers(s: State, s': State) {
    s'.autoBefore == s.autoBefore && s.members.Keys <= s'.members.Keys && s'.defaults == s.defaults
  }

  lemma CallKeepsMembers(d: Descriptor, s: State, call: Call, now: nat, now2: nat, now3: nat)
    ensures call.StoreDefaultsCall? || KeepsMembers(s, AfterCall(d, s, call, now, now2, now3))
    ensures call.StoreDefaultsCall? ==>
      AfterCall(d, s, call, now, now2, now3) == s.(defaults := s.defaults + s.members)
  {
    hide Set, SetStaged, Activate, Remove, AutoUpdate, SetTagCouplings, ReadAutoKeys;
    match call {
      case SetCall(params, ctx) => SetKeepsMembers(d, s, params, ctx, now, now3);
      case SetStagedCall(params) => SetStagedKeepsMembers(d, s, params);
      case ActivateCall(ctx) => ActivateKeepsMembers(d, s, ctx, now);
      case RemoveCall(ctx) => RemoveKeepsMembers(d, s, ctx, now, now2, now3);
      case TagCall(tag) => TagKeepsMembers(d, s, tag, now, now3);
      case CoupleCall(entries) => CouplingsKeepMembers(d, s, entries);
      case StoreDefaultsCall =>
      case UpdateActiveCall(_) =>
      case ReadAutoKeysCall(ctx) => ReadKeepsMembers(d, s, ctx);
    }
  }

  lemma SetKeepsMembers(d: Descriptor, s: State, params: Values, ctx: Ctx, now: nat, now3: nat)
    ensures Set(d, s, params, ctx, now, now3).Some? ==> KeepsMembers(s, Set(d, s, params, ctx, now, now3).value.0)
  {
    hide AutoKeysFor, BestSettings, Inserted, Kept, Dropped, CapRefuses, Writable, NotWritable, Given;
  }

  lemma SetStagedKeepsMembers(d: Descriptor, s: State, params: Values)
    ensures SetStaged(d, s, params).Some? ==> KeepsMembers(s, SetStaged(d, s, params).value.0)
  {
  }

  lemma ActivateKeepsMembers(d: Descriptor, s: State, ctx: Ctx, now: nat)
    ensures KeepsMembers(s, Activate(d, s, ctx, now).0)
  {
    hide BestMatch, BestSettings, AutoKeysFor, Stage, ActivateSameContext, ActivateOtherContext;
    var best, values := BestMatch(d, s.stored, WithTime(ctx, now)), BestSettings(d, s.stored, WithTime(ctx, now));
    if best.Some? && values.Some? {
      SameContextKeepsMembers(d, s, best.value, values.value);
      OtherContextKeepsMembers(s, best.value, values.value);
    }
  }

  lemma SameContextKeepsMembers(d: Descriptor, s: State, best: Ctx, values: Values)
    ensures KeepsMembers(s, ActivateSameContext(d, s, best, values))
  {
    hide AutoKeysFor, Writable;
  }

  lemma OtherContextKeepsMembers(s: State, best: Ctx, values: Values)
    ensures KeepsMembers(s, ActivateOtherContext(s, best, values))
  {
  }

  lemma RemoveKeepsMembers(d: Descriptor, s: State, ctx: Ctx, now: nat, now2: nat, now3: nat)
    ensures KeepsMembers(s, Remove(d, s, ctx, now, now2, now3).0)
  {
    hide Activate, CurrentDefault, IndexAtTime;
    if ctx.context != DEFAULT_CONTEXT && ctx.context in s.stored {
      var found := IndexAtTime(s.stored[ctx.context], WithTime(ctx, now).time);
      if found.Some? {
        var s1 := WithoutSet(s, ctx.context, found.value);
        ActivateKeepsMembers(d, FallBack(d, s1, s.stored[ctx.context][found.value].ctx, now2), Ctx(0, DEFAULT_CONTEXT),
                             now3);
      }
    }
  }

  lemma TagKeepsMembers(d: Descriptor, s: State, tag: Tag, now: nat, now3: nat)
    ensures KeepsMembers(s, AutoUpdate(d, s, tag, now, now3))
  {
    hide Activate, TaggedByActivation, TagSets;
    if tag.context.Some? { ActivateKeepsMembers(d, s, tag.context.value, now); }
    var (s1, ctx) := TagActivates(d, s, tag, now);
    TagValuesKeepMembers(d, s1, tag, ctx, s.active != ctx, now3);
  }

  lemma TagValuesKeepMembers(d: Descriptor, s: State, tag: Tag, ctx: Ctx, moved: bool, now: nat)
    ensures KeepsMembers(s, TagSets(d, s, tag, ctx, moved, now))
  {
    hide FollowingKeys, Followed, ControlKeys, WithEntry, StageFromTag, ReportTag;
    var keys := FollowingKeys(d, s, ctx, now);
    var control, followed := ControlKeys(tag), Followed(d, s, tag, keys, moved);
    EntryKeepsMembers(s, ctx, keys);
    StagingKeepsMembers(WithEntry(s, ctx, keys), control, followed, tag.context.Some?, moved,
                        control != map[] || followed != map[]);
  }

  lemma EntryKeepsMembers(s: State, ctx: Ctx, keys: set<Key>)
    ensures KeepsMembers(s, WithEntry(s, ctx, keys))
  {
  }

  lemma StagingKeepsMembers(s: State, control: Values, followed: Values, namesContext: bool, moved: bool,
                            wasChanged: bool)
    ensures KeepsMembers(s, ReportTag(StageFromTag(s, control, followed), namesContext, moved, wasChanged))
  {
  }

  lemma CouplingsKeepMembers(d: Descriptor, s: State, entries: map<Key, Coupling>)
    ensures SetTagCouplings(d, s, entries).Some? ==> KeepsMembers(s, SetTagCouplings(d, s, entries).value)
  {
  }

  lemma ReadKeepsMembers(d: Descriptor, s: State, ctx: Ctx)
    ensures KeepsMembers(s, ReadAutoKeys(d, s, ctx).0)
  {
    hide BestMatch;
  }

  lemma TakeClearsRecord(d: Descriptor, s: State, now: nat, now2: nat, now3: nat)
    ensures TakeBatch(d, s, now, now2, now3).s.autoBefore == None
    ensures TakeBatch(d, s, now, now2, now3).s.defaults == s.defaults
  {
    StagingKeepsDefaults(d, Emptied(s), now, now2);
    hide StageDefaults, Kept, Dropped;
  }

  lemma StagingKeepsDefaults(d: Descriptor, s: State, now: nat, now2: nat)
    ensures StageDefaults(d, s, now, now2).0.defaults == s.defaults
  {
    ActivateKeepsMembers(d, AddStored(d, s, s.defaults, Ctx(now, DEFAULT_CONTEXT)), Ctx(0, DEFAULT_CONTEXT), now2);
    hide Activate, RefusedDefaults, AutoKeysFor, Inserted;
  }

  lemma BeginKeepsMembers(d: Descriptor, s: State, now: nat, now2: nat, now3: nat)
    ensures var s1 := Begin(d, s, now, now2, now3).0;
            s1.autoBefore == None && s.members.Keys <= s1.members.Keys && s1.defaults == s.defaults
  {
    TakeClearsRecord(d, s, now, now2, now3);
    TakeBatchMembers(d, s, now, now2, now3);
    hide TakeBatch, Accepted, Rejected, Moved;
  }

  lemma EndKeepsMembers(d: Descriptor, s: State, b: Batch, verdict: Verdict, now: nat)
    ensures var (s1, outcome) := Finish(d, s, b, verdict, now);
            && s1.autoBefore == s.autoBefore && s.members.Keys <= s1.members.Keys
            && s1.defaults == if outcome.Returned? && STORE_DEFAULTS in b.values then s.defaults + s1.members
                              else s.defaults
  {
    RollBackKeepsMembers(d, s, b, now);
    StoreKeepsMembers(s, b);
    StoreKeepsMembers(RollBack(d, s, b, now), b);
    hide RollBack, StoreIfAsked, Refresh;
  }

  lemma StoreKeepsMembers(s: State, b: Batch)
    ensures var s1 := StoreIfAsked(Refresh(s), b);
            && s1.autoBefore == s.autoBefore && s1.members == s.members
            && s1.defaults == if STORE_DEFAULTS in b.values then s.defaults + s.members else s.defaults
  {
  }

  lemma RollBackKeepsMembers(d: Descriptor, s: State, b: Batch, now: nat)
    ensures KeepsMembers(s, RollBack(d, s, b, now))
  {
    hide RestoreRefused, RestoreContext, RestoreAutoKeys;
    var s1 := RestoreRefused(d, s, b);
    RestoreKeepsMembers(d, s, b);
    if b.before.Some? { ContextKeepsMembers(d, s1, b.before.value, b.ctx, now); }
    KeysKeepMembers(if b.before.Some? then RestoreContext(d, s1, b.before.value, b.ctx, now) else s1, b.autoBefore);
  }

  lemma RestoreKeepsMembers(d: Descriptor, s: State, b: Batch)
    ensures KeepsMembers(s, RestoreRefused(d, s, b))
  {
    hide RestoredSets, Restorable;
  }

  lemma ContextKeepsMembers(d: Descriptor, s: State, earlier: Ctx, refused: Ctx, now: nat)
    ensures KeepsMembers(s, RestoreContext(d, s, earlier, refused, now))
  {
    hide CurrentDefault;
  }

  lemma KeysKeepMembers(s: State, kept: Option<map<Ctx, set<Key>>>)
    ensures KeepsMembers(s, RestoreAutoKeys(s, kept))
  {
  }

  // Each event leaves the block settled, as the transactions of `SettingsTransactions` ask for.
  lemma EventKeepsSettled(d: Descriptor, c: Config, e: Event)
    requires Settled(d, c.s) && Possible(c, e)
    ensures Settled(d, Next(d, c, e).s)
  {
    hide AfterCall, Begin, BeginReset, Finish, RemoveExpired, Conclude;
    match e {
      case Public(call, now, now2, now3) => CallKeepsMembers(d, c.s, call, now, now2, now3);
      case BeginApply(_, now, now2, now3) => BeginKeepsMembers(d, c.s, now, now2, now3);
      case BeginResetDefaults(_, now, now2, now3) => ResetKeepsMembers(d, c.s, now, now2, now3);
      case EndCallback(t, verdict, now, _, _) => EndKeepsMembers(d, c.s, c.reporting[t], verdict, now);
      case EndApply(_, now, _, _) => ConcludeKeepsMembers(d, c.s, now);
    }
  }

  lemma ResetKeepsMembers(d: Descriptor, s: State, now: nat, now2: nat, now3: nat)
    ensures var r := BeginReset(d, s, now, now2, now3, now3);
            r.Some? ==>
              && r.value.0.autoBefore == None && s.members.Keys <= r.value.0.members.Keys
              && r.value.0.defaults == s.defaults
  {
    StagingKeepsDefaults(d, s, now, now2);
    StageDefaultsMembers(d, s, now, now2);
    hide StageDefaults, Begin;
    var s1 := StageDefaults(d, s, now, now2).0;
    BeginKeepsMembers(d, s1.(staged := s1.staged - {RESET_DEFAULTS}), now2, now3, now3);
  }

  lemma ConcludeKeepsMembers(d: Descriptor, s: State, now: nat)
    ensures KeepsMembers(s, Conclude(s)) && KeepsMembers(s, RemoveExpired(d, Conclude(s), now))
  {
    hide Kept, Dropped;
  }

  lemma {:induction false} ExecutionKeepsSettled(d: Descriptor, c: Config, events: seq<Event>, c': Config)
    requires Settled(d, c.s) && Execution(d, c, events, c')
    ensures Settled(d, c'.s)
    decreases |events|
  {
    hide Settled, Next, Possible;
    if events != [] {
      EventKeepsSettled(d, c, events[0]);
      ExecutionKeepsSettled(d, Next(d, c, events[0]), events[1..], c');
    }
  }

  // From a fresh block, over every interleaving: staged work is always reported by changed(), every vector is ordered,
  // every auto-update key set belongs to a stored set, no context holds more pending sets than the cap, and no more
  // contexts than the cap hold sets, the default one not counted. A block that starts settled stays so.
  lemma SettingsOverAllRuns(d: Descriptor, s: State, clock: nat, events: seq<Event>, c: Config)
    requires s.stored == map[] && s.autoUpdate == map[] && s.staged == map[]
    requires Convertible(d, s.members) && Convertible(d, s.defaults)
    requires Execution(d, Config(s, clock, map[], {}, {}), events, c)
    ensures c.s.staged != map[] ==> c.s.changed
    ensures forall n :: n in c.s.stored ==> Sorted(c.s.stored[n]) && Pending(c.s.stored[n], c.clock) <= MAX_PENDING_SETS
    ensures forall k :: k in c.s.autoUpdate ==> IsStored(c.s, k)
    ensures |ContextsHeld(c.s.stored) - {DEFAULT_CONTEXT}| <= MAX_CONTEXTS
    ensures |ContextsHeld(c.s.stored)| <= MAX_CONTEXTS + 1
    ensures Settled(d, s) ==> Settled(d, c.s)
  {
    if Settled(d, s) { ExecutionKeepsSettled(d, Config(s, clock, map[], {}, {}), events, c); }
    hide Settled;
    InitialInv(d, s, clock);
    assert Others(s.stored) == {};
    ExecutionKeepsInv(d, Config(s, clock, map[], {}, {}), events, c);
    SubsetSize(ContextsHeld(c.s.stored), Others(c.s.stored) + {DEFAULT_CONTEXT});
  }

  // --- what the batches hold --------------------------------------------------------------------------------------

  // the values an activation writes into the staging map
  function ActivationWrites(d: Descriptor, s: State, ctx: Ctx, now: nat): Values {
    var best, values := BestMatch(d, s.stored, WithTime(ctx, now)), BestSettings(d, s.stored, WithTime(ctx, now));
    if best.None? || best.value == s.active || values.None? then map[]
    else if best.value.context == s.active.context then
      var keys := AutoKeysFor(d, s, best.value);
      map k | k in values.value && k !in keys && k in d.writable :: values.value[k]
    else map k | k in values.value && k !in s.staged :: values.value[k]
  }

  // the values an event writes into the staging map
  function Writes(d: Descriptor, s: State, e: Event): Values {
    match e
    case Public(SetStagedCall(params), _, _, _) => if SetStaged(d, s, params).Some? then Writable(d, params) else map[]
    case Public(ActivateCall(ctx), now, _, _) => ActivationWrites(d, s, ctx, now)
    case Public(RemoveCall(ctx), now, now2, now3) => RemovalWrites(d, s, ctx, now, now2, now3)
    case Public(TagCall(tag), now, _, now3) => TagWrites(d, s, tag, now, now3)
    case _ => map[]
  }

  function RemovalWrites(d: Descriptor, s: State, ctx: Ctx, now: nat, now2: nat, now3: nat): Values {
    if ctx.context == DEFAULT_CONTEXT || ctx.context !in s.stored then map[]
    else match IndexAtTime(s.stored[ctx.context], WithTime(ctx, now).time)
         case None => map[]
         case Some(i) =>
           var s1 := FallBack(d, WithoutSet(s, ctx.context, i), s.stored[ctx.context][i].ctx, now2);
           if s1.active.context == ctx.context then ActivationWrites(d, s1, Ctx(0, DEFAULT_CONTEXT), now3) else map[]
  }

  lemma ActivateStages(d: Descriptor, s: State, ctx: Ctx, now: nat)
    ensures Activate(d, s, ctx, now).0.staged == s.staged + ActivationWrites(d, s, ctx, now)
  {
    hide BestMatch, BestSettings, AutoKeysFor, ActivateSameContext, ActivateOtherContext;
    var best, values := BestMatch(d, s.stored, WithTime(ctx, now)), BestSettings(d, s.stored, WithTime(ctx, now));
    assert s.staged + map[] == s.staged;
    if best.Some? && values.Some? {
      SameContextStages(d, s, best.value, values.value);
      OtherContextStages(s, best.value, values.value);
    }
  }

  lemma SameContextStages(d: Descriptor, s: State, best: Ctx, values: Values)
    ensures var keys := AutoKeysFor(d, s, best);
      ActivateSameContext(d, s, best, values).staged
      == s.staged + map k | k in values && k !in keys && k in d.writable :: values[k]
  {
    hide AutoKeysFor;
  }

  lemma OtherContextStages(s: State, best: Ctx, values: Values)
    ensures ActivateOtherContext(s, best, values).staged
         == s.staged + map k | k in values && k !in s.staged :: values[k]
  {
  }

  lemma RemoveStages(d: Descriptor, s: State, ctx: Ctx, now: nat, now2: nat, now3: nat)
    ensures Remove(d, s, ctx, now, now2, now3).0.staged == s.staged + RemovalWrites(d, s, ctx, now, now2, now3)
  {
    hide LeaveContext, ActivationWrites, FallBack, WithoutSet, IndexAtTime;
    assert s.staged + map[] == s.staged;
    if ctx.context != DEFAULT_CONTEXT && ctx.context in s.stored {
      var found := IndexAtTime(s.stored[ctx.context], WithTime(ctx, now).time);
      if found.Some? {
        var s1 := WithoutSet(s, ctx.context, found.value);
        EraseStages(s, ctx.context, found.value);
        FallBackStages(d, s1, s.stored[ctx.context][found.value].ctx, now2);
        LeaveStages(d, FallBack(d, s1, s.stored[ctx.context][found.value].ctx, now2), ctx.context, now3);
      }
    }
  }

  lemma EraseStages(s: State, name: Name, i: nat)
    requires name in s.stored && i < |s.stored[name]|
    ensures WithoutSet(s, name, i).staged == s.staged
  {
  }

  lemma FallBackStages(d: Descriptor, s: State, removed: Ctx, now: nat)
    ensures FallBack(d, s, removed, now).staged == s.staged
  {
    hide CurrentDefault;
  }

  lemma LeaveStages(d: Descriptor, s: State, name: Name, now: nat)
    ensures LeaveContext(d, s, name, now).staged
      == if s.active.context == name then s.staged + ActivationWrites(d, s, Ctx(0, DEFAULT_CONTEXT), now) else s.staged
  {
    hide Activate, ActivationWrites;
    ActivateStages(d, s, Ctx(0, DEFAULT_CONTEXT), now);
  }

  function TagWrites(d: Descriptor, s: State, tag: Tag, now: nat, now3: nat): Values {
    var (s1, ctx) := TagActivates(d, s, tag, now);
    (if tag.context.Some? then ActivationWrites(d, s, tag.context.value, now) else map[])
    + ControlKeys(tag) + Followed(d, s1, tag, FollowingKeys(d, s1, ctx, now3), s.active != ctx)
  }

  lemma TagSetsStages(d: Descriptor, s: State, tag: Tag, ctx: Ctx, moved: bool, now: nat)
    ensures TagSets(d, s, tag, ctx, moved, now).staged
         == s.staged + ControlKeys(tag) + Followed(d, s, tag, FollowingKeys(d, s, ctx, now), moved)
  {
    hide ControlKeys, Followed, FollowingKeys, WithEntry, StageFromTag, ReportTag;
    var control, followed := ControlKeys(tag), Followed(d, s, tag, FollowingKeys(d, s, ctx, now), moved);
    var s1 := WithEntry(s, ctx, FollowingKeys(d, s, ctx, now));
    EntryStages(s, ctx, FollowingKeys(d, s, ctx, now));
    ReportStages(StageFromTag(s1, control, followed), tag.context.Some?, moved, control != map[] || followed != map[]);
    FromTagStages(s1, control, followed);
  }

  lemma EntryStages(s: State, ctx: Ctx, keys: set<Key>)
    ensures WithEntry(s, ctx, keys).staged == s.staged
  {
  }

  lemma FromTagStages(s: State, control: Values, followed: Values)
    ensures StageFromTag(s, control, followed).staged == s.staged + control + followed
  {
  }

  lemma ReportStages(s: State, namesContext: bool, moved: bool, wasChanged: bool)
    ensures ReportTag(s, namesContext, moved, wasChanged).staged == s.staged
  {
  }

  lemma TagStages(d: Descriptor, s: State, tag: Tag, now: nat, now3: nat)
    ensures AutoUpdate(d, s, tag, now, now3).staged == s.staged + TagWrites(d, s, tag, now, now3)
  {
    hide Activate, ActivationWrites, ControlKeys, Followed, FollowingKeys, TaggedByActivation, TagSets;
    var (s1, ctx) := TagActivates(d, s, tag, now);
    TagActivatesStages(d, s, tag, now);
    TagSetsStages(d, s1, tag, ctx, s.active != ctx, now3);
    hide TagActivates;
    UnionOfThree(s.staged, if tag.context.Some? then ActivationWrites(d, s, tag.context.value, now) else map[],
                 ControlKeys(tag), Followed(d, s1, tag, FollowingKeys(d, s1, ctx, now3), s.active != ctx));
  }

  lemma UnionOfThree(s: Values, a: Values, b: Values, c: Values)
    ensures s + a + b + c == s + (a + b + c)
  {
    UnionAssociates(s, a, b);
    UnionAssociates(s, a + b, c);
  }

  lemma TagActivatesStages(d: Descriptor, s: State, tag: Tag, now: nat)
    ensures TagActivates(d, s, tag, now).0.staged
         == s.staged + if tag.context.Some? then ActivationWrites(d, s, tag.context.value, now) else map[]
  {
    hide Activate, ActivationWrites, TaggedByActivation;
    if tag.context.Some? { ActivateStages(d, s, tag.context.value, now); }
  }

  lemma SetStages(d: Descriptor, s: State, params: Values, ctx: Ctx, now: nat, now3: nat)
    ensures Set(d, s, params, ctx, now, now3).Some? ==> Set(d, s, params, ctx, now, now3).value.0.staged == s.staged
  {
    hide BestSettings, AutoKeysFor, Inserted, Kept, Dropped;
  }

  predicate TakesBatch(e: Event) { e.BeginApply? || e.BeginResetDefaults? }

  lemma CallStages(d: Descriptor, s: State, call: Call, now: nat, now2: nat, now3: nat)
    ensures AfterCall(d, s, call, now, now2, now3).staged == s.staged + Writes(d, s, Public(call, now, now2, now3))
  {
    hide Set, SetStaged, Activate, Remove, AutoUpdate, ActivationWrites, RemovalWrites, TagWrites, SetTagCouplings,
      ReadAutoKeys;
    match call {
      case SetCall(params, ctx) => SetStages(d, s, params, ctx, now, now3);
      case SetStagedCall(params) => SetStagedStages(d, s, params);
      case ActivateCall(ctx) => ActivateStages(d, s, ctx, now);
      case RemoveCall(ctx) => RemoveStages(d, s, ctx, now, now2, now3);
      case TagCall(tag) => TagStages(d, s, tag, now, now3);
      case CoupleCall(entries) => CouplingsStage(d, s, entries);
      case StoreDefaultsCall =>
      case UpdateActiveCall(_) =>
      case ReadAutoKeysCall(ctx) => ReadStages(d, s, ctx);
    }
  }

  lemma ReadStages(d: Descriptor, s: State, ctx: Ctx)
    ensures ReadAutoKeys(d, s, ctx).0.staged == s.staged && ReadAutoKeys(d, s, ctx).0.stored == s.stored
  {
    hide BestMatch;
  }

  lemma CouplingsStage(d: Descriptor, s: State, entries: map<Key, Coupling>)
    ensures SetTagCouplings(d, s, entries).Some? ==> SetTagCouplings(d, s, entries).value.staged == s.staged
  {
  }

  // Only calls write into the staging map, and only the start of an apply takes out of it.
  lemma EventStages(d: Descriptor, c: Config, e: Event)
    requires Possible(c, e) && !TakesBatch(e)
    ensures Next(d, c, e).s.staged == c.s.staged + Writes(d, c.s, e)
  {
    hide AfterCall, Finish, Writes;
    match e {
      case Public(call, now, now2, now3) => CallStages(d, c.s, call, now, now2, now3);
      case EndCallback(t, verdict, now, _, _) =>
        FinishStages(d, c.s, c.reporting[t], verdict, now); NoWrites(d, c.s, e);
      case EndApply(_, now, _, _) => RemoveExpiredStages(d, Conclude(c.s), now); NoWrites(d, c.s, e);
    }
  }

  lemma NoWrites(d: Descriptor, s: State, e: Event)
    ensures !e.Public? ==> Writes(d, s, e) == map[]
  {
  }

  lemma SetStagedStages(d: Descriptor, s: State, params: Values)
    ensures SetStaged(d, s, params).Some? ==> SetStaged(d, s, params).value.0.staged == s.staged + Writable(d, params)
  {
  }

  lemma FinishStages(d: Descriptor, s: State, b: Batch, verdict: Verdict, now: nat)
    ensures Finish(d, s, b, verdict, now).0.staged == s.staged
  {
    RollBackParts(d, s, b, now);
    StoreParts(s, b);
    StoreParts(RollBack(d, s, b, now), b);
    hide RollBack, StoreIfAsked, Refresh;
  }

  // the writes of a run, later ones over earlier ones
  function WritesOf(d: Descriptor, c: Config, events: seq<Event>): Values
    decreases |events|
  {
    if events == [] || !Possible(c, events[0]) then map[]
    else Writes(d, c.s, events[0]) + WritesOf(d, Next(d, c, events[0]), events[1..])
  }

  lemma {:induction false} StagedIsWhatWasWritten(d: Descriptor, c: Config, events: seq<Event>, c': Config)
    requires Execution(d, c, events, c') && forall i :: 0 <= i < |events| ==> !TakesBatch(events[i])
    ensures c'.s.staged == c.s.staged + WritesOf(d, c, events)
    decreases |events|
  {
    hide Next, Possible, Writes;
    if events != [] {
      EventStages(d, c, events[0]);
      StagedIsWhatWasWritten(d, Next(d, c, events[0]), events[1..], c');
      UnionAssociates(c.s.staged, Writes(d, c.s, events[0]), WritesOf(d, Next(d, c, events[0]), events[1..]));
    }
  }

  lemma UnionAssociates(a: Values, b: Values, c: Values)
    ensures (a + b) + c == a + (b + c)
  {
  }

  // an apply starts, by itself or in resetDefaults(), which does not start one for defaults that the limits refuse
  predicate Starts(d: Descriptor, c: Config, e: Event) {
    e.BeginApply? || (e.BeginResetDefaults? && RefusedDefaults(d, c.s, e.now) == map[])
  }

  // Between the starts of two applies, whatever ends in between, the second batch is exactly what the calls in between
  // wrote: nothing is lost, and nothing of the first batch comes again.
  lemma BatchIsWhatWasStagedSince(d: Descriptor, c: Config, first: Event, events: seq<Event>, c': Config, second: Event)
    requires Possible(c, first) && Starts(d, c, first) && second.BeginApply?
    requires Execution(d, Next(d, c, first), events, c') && Possible(c', second)
    requires forall i :: 0 <= i < |events| ==> !TakesBatch(events[i])
    ensures first.BeginApply? ==> Next(d, c, first).reporting[first.t].values == c.s.staged
    ensures Next(d, c', second).reporting[second.t].values == WritesOf(d, Next(d, c, first), events)
    ensures Next(d, c', second).s.staged == map[]
  {
    StartTakesAll(d, c, first);
    StartTakesAll(d, c', second);
    WrittenSince(d, c, first, events, c');
    hide Starts, Next, WritesOf;
  }

  // The batch of a resetDefaults() is the same with the values the reset itself stages: from another context the
  // present set of the default one, below what was written, and from the default context what does not follow tags,
  // above it.
  lemma ResetBatchIsWhatWasStagedSince(d: Descriptor, c: Config, first: Event, events: seq<Event>, c': Config,
                                       second: Event)
    requires Possible(c, first) && Starts(d, c, first) && second.BeginResetDefaults? && Starts(d, c', second)
    requires Execution(d, Next(d, c, first), events, c') && Possible(c', second) && StoreOrdered(c'.s.stored)
    requires forall i :: 0 <= i < |events| ==> !TakesBatch(events[i])
    ensures var a := AddStored(d, c'.s, c'.s.defaults, Ctx(second.now, DEFAULT_CONTEXT));
            var at := Ctx(second.now2, DEFAULT_CONTEXT);
            BestMatch(d, a.stored, at).Some? && BestSettings(d, a.stored, at).Some?
    ensures var a := AddStored(d, c'.s, c'.s.defaults, Ctx(second.now, DEFAULT_CONTEXT));
            var at := Ctx(second.now2, DEFAULT_CONTEXT);
            var found, values := BestMatch(d, a.stored, at).value, BestSettings(d, a.stored, at).value;
            var written := WritesOf(d, Next(d, c, first), events);
            second.t in Next(d, c', second).reporting
            && Next(d, c', second).reporting[second.t].values
               == (if c'.s.active.context != DEFAULT_CONTEXT then values + written
                   else written + Brought(d, a, found, values)) - {RESET_DEFAULTS}
    ensures Next(d, c', second).s.staged == map[]
  {
    WrittenSince(d, c, first, events, c');
    ResetTakes(d, c', second);
    hide Starts, Next, WritesOf, AddStored, BestMatch, BestSettings, Brought, StoreOrdered, Execution, Possible;
  }

  lemma WrittenSince(d: Descriptor, c: Config, first: Event, events: seq<Event>, c': Config)
    requires Possible(c, first) && Starts(d, c, first) && Execution(d, Next(d, c, first), events, c')
    requires forall i :: 0 <= i < |events| ==> !TakesBatch(events[i])
    ensures c'.s.staged == WritesOf(d, Next(d, c, first), events)
  {
    hide Starts, Next, WritesOf, Execution, Possible, StageDefaults;
    StartTakesAll(d, c, first);
    StagedIsWhatWasWritten(d, Next(d, c, first), events, c');
    NothingBelow(WritesOf(d, Next(d, c, first), events));
  }

  lemma NothingBelow(a: Values)
    ensures map[] + a == a
  {
  }

  lemma ResetTakes(d: Descriptor, c: Config, e: Event)
    requires Possible(c, e) && e.BeginResetDefaults? && Starts(d, c, e) && StoreOrdered(c.s.stored)
    ensures var a, at := AddStored(d, c.s, c.s.defaults, Ctx(e.now, DEFAULT_CONTEXT)), Ctx(e.now2, DEFAULT_CONTEXT);
            BestMatch(d, a.stored, at).Some? && BestSettings(d, a.stored, at).Some?
    ensures var a, at := AddStored(d, c.s, c.s.defaults, Ctx(e.now, DEFAULT_CONTEXT)), Ctx(e.now2, DEFAULT_CONTEXT);
            var found, values := BestMatch(d, a.stored, at).value, BestSettings(d, a.stored, at).value;
            && e.t in Next(d, c, e).reporting && Next(d, c, e).s.staged == map[]
            && Next(d, c, e).reporting[e.t].values
               == (if c.s.active.context != DEFAULT_CONTEXT then values + c.s.staged
                   else c.s.staged + Brought(d, a, found, values)) - {RESET_DEFAULTS}
  {
    StartTakesAll(d, c, e);
    ResetStages(d, c.s, e.now, e.now2);
    hide Next, AddStored, BestMatch, BestSettings, Brought, StageDefaults, StoreOrdered, RefusedDefaults;
  }

  // what the start of an apply takes: all that was staged
  lemma StartTakesAll(d: Descriptor, c: Config, e: Event)
    requires Possible(c, e) && Starts(d, c, e)
    ensures Next(d, c, e).s.staged == map[] && e.t in Next(d, c, e).reporting
    ensures Next(d, c, e).reporting[e.t].values
         == if e.BeginApply? then c.s.staged else StageDefaults(d, c.s, e.now, e.now2).0.staged - {RESET_DEFAULTS}
  {
    hide Begin, StageDefaults, RefusedDefaults;
    if e.BeginApply? {
      BeginTakesAll(d, c.s, e.now, e.now2, e.now3);
    } else {
      StageDefaultsRefuses(d, c.s, e.now, e.now2);
      var s1 := StageDefaults(d, c.s, e.now, e.now2).0;
      BeginTakesAll(d, s1.(staged := s1.staged - {RESET_DEFAULTS}), e.now2, e.now3, e.now3);
    }
  }

  lemma BeginTakesAll(d: Descriptor, s: State, now: nat, now2: nat, now3: nat)
    ensures Begin(d, s, now, now2, now3).0.staged == map[] && Begin(d, s, now, now2, now3).1.values == s.staged
  {
    TakeBatchTakesAll(d, s, now, now2, now3);
    hide TakeBatch, Accepted, Rejected, Moved;
  }

  lemma TakeBatchTakesAll(d: Descriptor, s: State, now: nat, now2: nat, now3: nat)
    ensures TakeBatch(d, s, now, now2, now3).s.staged == map[]
  {
    hide StageDefaults, Kept, Dropped;
  }
}
