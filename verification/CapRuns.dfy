/**
 When a block stores sets of more contexts than the documented cap (core/include/gnuradio-4.0/Settings.hpp): exactly
 which event passes it, that such an event can come, and that none comes where the default context always holds a set.
 */
module CapRuns {
  import opened Wrappers
  import opened SettingsStore
  import opened Settings
  import opened SettingsInvariants
  import opened SettingsTransactions
  import opened SettingsCaps
  import opened SettingsRuns

  // no set that the reset finds or stores has expired when the batch is pruned
  ghost predicate NothingExpires(d: Descriptor, s: State, now: nat, at: nat) {
    && Alive(d, s.stored, at) == ContextsHeld(s.stored)
    && !Expired(StoredSet(Ctx(now, DEFAULT_CONTEXT), s.defaults), d.expiry, at)
  }

  // An event passes the cap exactly when it is a reset that finds every place taken, none of them by the default
  // context, and, where it prunes before it lets go of the mutex, no place freed by expiry.
  lemma EventPassesCapIff(d: Descriptor, c: Config, e: Event)
    requires Possible(c, e) && |ContextsHeld(c.s.stored)| <= MAX_CONTEXTS
    ensures |ContextsHeld(Next(d, c, e).s.stored)| > MAX_CONTEXTS <==>
      && ResetsIn(d, c, e) && DEFAULT_CONTEXT !in ContextsHeld(c.s.stored)
      && |ContextsHeld(c.s.stored)| == MAX_CONTEXTS
      && (e.BeginApply? ==> NothingExpires(d, c.s, e.now, e.now3))
  {
    EventAdds(d, c, e);
    hide ContextsHeld, NothingExpires, Next, ResetsIn;
    var held, held' := ContextsHeld(c.s.stored), ContextsHeld(Next(d, c, e).s.stored);
    if ResetsIn(d, c, e) && DEFAULT_CONTEXT !in held {
      ResetAdds(d, c, e);
      Joined(held, held', DEFAULT_CONTEXT);
    } else {
      if ResetsIn(d, c, e) {
        SubsetSize(held', held);
      } else if IsSet(e) {
        SetStays(held, held', e.call.ctx.context);
      } else {
        SubsetSize(held', held);
      }
    }
  }

  lemma Joined(held: set<Name>, held': set<Name>, name: Name)
    requires name !in held && held' <= held + {name} && |held| <= MAX_CONTEXTS
    ensures |held'| > MAX_CONTEXTS <==> held' == held + {name} && |held| == MAX_CONTEXTS
  {
    var all := held + {name};
    assert |all| == |held| + 1;
    if held' != all {
      var missing :| missing in all && missing !in held';
      SubsetSize(held', all - {missing});
    }
  }

  lemma SetStays(held: set<Name>, held': set<Name>, name: Name)
    requires held' <= held + {name} && |held| <= MAX_CONTEXTS
    requires name in held || |held| < MAX_CONTEXTS || held' <= held
    ensures |held'| <= MAX_CONTEXTS
  {
    if held' <= held {
      SubsetSize(held', held);
    } else {
      SubsetSize(held', held + {name});
    }
  }

  lemma ResetAdds(d: Descriptor, c: Config, e: Event)
    requires Possible(c, e) && ResetsIn(d, c, e) && DEFAULT_CONTEXT !in ContextsHeld(c.s.stored)
    ensures ContextsHeld(Next(d, c, e).s.stored) == ContextsHeld(c.s.stored) + {DEFAULT_CONTEXT}
      <==> (e.BeginApply? ==> NothingExpires(d, c.s, e.now, e.now3))
  {
    hide Begin, BeginReset, StageDefaults, RefusedDefaults, ContextsHeld, Alive, Expired;
    if e.BeginApply? {
      BatchHolds(d, c.s, e.now, e.now2, e.now3);
      RefusedAlike(d, c.s, Emptied(c.s), e.now);
      AliveAfterReset(d, Emptied(c.s), e.now, e.now2, e.now3);
      AliveHolds(d, c.s.stored, e.now3);
      assert DEFAULT_CONTEXT !in Alive(d, c.s.stored, e.now3);
    } else {
      StartsUnlessRefused(d, c.s, e.now, e.now2, e.now3);
      ResetCallHolds(d, c.s, e.now, e.now2, e.now3, e.now3);
    }
  }

  // --- the default context holds a set ----------------------------------------------------------------------------

  ghost predicate Capped(d: Descriptor, s: State) {
    d.expiry.None? && DEFAULT_CONTEXT in ContextsHeld(s.stored) && |ContextsHeld(s.stored)| <= MAX_CONTEXTS
  }

  // With expiry off the default context keeps a set once it has one, and the cap itself holds from then on.
  lemma {:induction false} CapHoldsWithDefault(d: Descriptor, c: Config, events: seq<Event>, c': Config)
    requires Capped(d, c.s) && Execution(d, c, events, c')
    ensures Capped(d, c'.s)
    decreases |events|
  {
    hide ContextsHeld, Next, Possible, ResetsIn;
    if events != [] {
      EventAdds(d, c, events[0]);
      EventPassesCapIff(d, c, events[0]);
      CapHoldsWithDefault(d, Next(d, c, events[0]), events[1..], c');
    }
  }

  // --- the cap is passed ------------------------------------------------------------------------------------------

  function Named(k: nat): Name { seq(k, _ => 'x') }

  lemma {:induction false} ExecutionSnoc(d: Descriptor, c: Config, events: seq<Event>, c1: Config, e: Event)
    requires Execution(d, c, events, c1) && Possible(c1, e)
    ensures Execution(d, c, events + [e], Next(d, c1, e))
    decreases |events|
  {
    hide Next, Possible;
    if events == [] {
      assert events + [e] == [e] && [e][1..] == [];
    } else {
      assert (events + [e])[1..] == events[1..] + [e] && (events + [e])[0] == events[0];
      ExecutionSnoc(d, Next(d, c, events[0]), events[1..], c1, e);
    }
  }

  // k contexts hold sets, none of them the default one
  ghost predicate Filled(c: Config, c0: Config, k: nat) {
    && |ContextsHeld(c.s.stored)| == k
    && (forall n :: n in ContextsHeld(c.s.stored) ==> 0 < |n| <= k)
    && c.s.defaults == c0.s.defaults && c.clock == c0.clock && c.reporting == map[] && c.concluding == {}
  }

  function Filling(c: Config, k: nat): Event {
    Public(SetCall(map[], Ctx(1, Named(k + 1))), c.clock, c.clock, c.clock)
  }

  lemma FillsOne(d: Descriptor, c: Config, c0: Config, k: nat)
    requires d.expiry.None? && Filled(c, c0, k) && k < MAX_CONTEXTS
    ensures Possible(c, Filling(c, k)) && Filled(Next(d, c, Filling(c, k)), c0, k + 1)
  {
    hide Set, ContextsHeld, Named, Possible;
    var ctx := Ctx(1, Named(k + 1));
    NamedLength(k + 1);
    FillingIs(d, c, k);
    SetTakes(d, c.s, ctx, c.clock, c.clock);
    SetHolds(d, c.s, map[], ctx, c.clock, c.clock);
    hide Next, Filling;
  }

  lemma NamedLength(k: nat)
    ensures |Named(k)| == k
  {
  }

  lemma FillingIs(d: Descriptor, c: Config, k: nat)
    ensures Possible(c, Filling(c, k))
    ensures var r, c1 := Set(d, c.s, map[], Ctx(1, Named(k + 1)), c.clock, c.clock), Next(d, c, Filling(c, k));
            r.Some? ==> c1 == c.(s := r.value.0)
  {
    hide Set, Named;
  }

  lemma SetTakes(d: Descriptor, s: State, ctx: Ctx, now: nat, pruneNow: nat)
    requires ctx.context !in ContextsHeld(s.stored) && |ContextsHeld(s.stored)| < MAX_CONTEXTS
    ensures Set(d, s, map[], ctx, now, pruneNow).Some?
    ensures Set(d, s, map[], ctx, now, pruneNow).value.0.defaults == s.defaults
  {
    hide AutoKeysFor, BestSettings, Inserted, Kept, Dropped, Pending;
  }

  lemma {:induction false} FilledIsReached(d: Descriptor, c0: Config, k: nat)
    requires d.expiry.None? && Filled(c0, c0, 0) && k <= MAX_CONTEXTS
    ensures exists events, c :: Execution(d, c0, events, c) && Filled(c, c0, k)
  {
    hide Filled, Next, Possible, Filling;
    if k == 0 {
      assert Execution(d, c0, [], c0);
    } else {
      FilledIsReached(d, c0, k - 1);
      var events, c :| Execution(d, c0, events, c) && Filled(c, c0, k - 1);
      FillsOne(d, c, c0, k - 1);
      var e := Filling(c, k - 1);
      ExecutionSnoc(d, c0, events, c, e);
    }
  }

  function ResetAt(c: Config): Event { BeginResetDefaults(0, c.clock, c.clock, c.clock) }

  ghost predicate DefaultsTaken(d: Descriptor, s: State) {
    forall k :: k in s.defaults && k in d.writable ==> d.within(k, s.defaults[k])
  }

  // A fresh block whose callers store a set in as many other contexts as the cap allows, and then resetDefaults().
  lemma CapIsPassed(d: Descriptor, s: State, clock: nat)
    requires d.expiry.None? && s.stored == map[] && DefaultsTaken(d, s)
    ensures exists events, c ::
              Execution(d, Config(s, clock, map[], {}, {}), events, c) && |ContextsHeld(c.s.stored)| == MAX_CONTEXTS + 1
  {
    hide Filled, Next, ContextsHeld, Execution, Possible, ResetAt, DefaultsTaken;
    var c0 := Config(s, clock, map[], {}, {});
    FreshIsEmpty(c0);
    FilledIsReached(d, c0, MAX_CONTEXTS);
    var events, c :| Execution(d, c0, events, c) && Filled(c, c0, MAX_CONTEXTS);
    FullIsFull(d, c, c0);
    ResetPassesFull(d, c);
    ExecutionSnoc(d, c0, events, c, ResetAt(c));
    assert Execution(d, c0, events + [ResetAt(c)], Next(d, c, ResetAt(c)));
  }

  lemma FreshIsEmpty(c: Config)
    requires c.s.stored == map[] && c.reporting == map[] && c.concluding == {}
    ensures Filled(c, c, 0)
  {
    assert ContextsHeld(c.s.stored) == {};
  }

  lemma FullIsFull(d: Descriptor, c: Config, c0: Config)
    requires Filled(c, c0, MAX_CONTEXTS) && DefaultsTaken(d, c0.s)
    ensures DEFAULT_CONTEXT !in ContextsHeld(c.s.stored) && |ContextsHeld(c.s.stored)| == MAX_CONTEXTS
    ensures DefaultsTaken(d, c.s) && c.reporting == map[] && c.concluding == {}
  {
    hide ContextsHeld;
  }

  lemma NotRefused(d: Descriptor, s: State, now: nat)
    requires DefaultsTaken(d, s)
    ensures RefusedDefaults(d, s, now) == map[]
  {
    hide BestAutoKeys;
  }

  lemma ResetPassesFull(d: Descriptor, c: Config)
    requires DEFAULT_CONTEXT !in ContextsHeld(c.s.stored) && |ContextsHeld(c.s.stored)| == MAX_CONTEXTS
    requires DefaultsTaken(d, c.s) && c.reporting == map[] && c.concluding == {}
    ensures Possible(c, ResetAt(c)) && |ContextsHeld(Next(d, c, ResetAt(c)).s.stored)| == MAX_CONTEXTS + 1
  {
    hide RefusedDefaults, Next, ContextsHeld, DefaultsTaken;
    NotRefused(d, c.s, c.clock);
    ResetAdds(d, c, ResetAt(c));
  }
}
