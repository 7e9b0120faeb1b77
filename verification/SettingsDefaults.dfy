/**
 Stored defaults over whole runs (core/src/Settings.cpp): which events change them, and that a later reset brings the
 members back as they were when they were stored.
 */
module SettingsDefaults {
  import opened Wrappers
  import opened SettingsStore
  import opened Settings
  import opened SettingsInvariants
  import opened SettingsTransactions
  import opened SettingsEffects
  import opened SettingsRuns

  // The event stores the members as the defaults: a call of storeDefaults(), or the end of an apply that was asked to
  // and did not throw.
  predicate Stores(d: Descriptor, c: Config, e: Event)
    requires Possible(c, e)
  {
    || (e.Public? && e.call.StoreDefaultsCall?)
    || (e.EndCallback? && STORE_DEFAULTS in c.reporting[e.t].values
        && Finish(d, c.s, c.reporting[e.t], e.verdict, e.now).1.Returned?)
  }

  // Such an event takes every member over as it leaves it, and no other event changes the defaults.
  lemma EventStoresDefaults(d: Descriptor, c: Config, e: Event)
    requires Possible(c, e)
    ensures Stores(d, c, e) ==>
      var s' := Next(d, c, e).s;
      && s'.members.Keys <= s'.defaults.Keys && s'.defaults.Keys == c.s.defaults.Keys + s'.members.Keys
      && forall k :: k in s'.defaults ==>
           s'.defaults[k] == if k in s'.members then s'.members[k] else c.s.defaults[k]
    ensures !Stores(d, c, e) ==> Next(d, c, e).s.defaults == c.s.defaults
  {
    hide AfterCall, Begin, BeginReset, Finish, RemoveExpired, Conclude;
    match e {
      case Public(call, now, now2, now3) => CallKeepsMembers(d, c.s, call, now, now2, now3);
      case BeginApply(_, now, now2, now3) => BeginKeepsMembers(d, c.s, now, now2, now3);
      case BeginResetDefaults(_, now, now2, now3) => ResetKeepsMembers(d, c.s, now, now2, now3);
      case EndCallback(t, verdict, now, _, _) => EndKeepsMembers(d, c.s, c.reporting[t], verdict, now);
      case EndApply(_, now, _, _) => ConcludeKeepsMembers(d, c.s, now);
    }
  }

  ghost predicate NoneStores(d: Descriptor, c: Config, events: seq<Event>)
    decreases |events|
  {
    events == [] || (Possible(c, events[0]) ==>
      !Stores(d, c, events[0]) && NoneStores(d, Next(d, c, events[0]), events[1..]))
  }

  lemma {:induction false} DefaultsStay(d: Descriptor, c: Config, events: seq<Event>, c': Config)
    requires Execution(d, c, events, c') && NoneStores(d, c, events)
    ensures c'.s.defaults == c.s.defaults
    decreases |events|
  {
    hide Next, Possible, Stores;
    if events != [] {
      EventStoresDefaults(d, c, events[0]);
      DefaultsStay(d, Next(d, c, events[0]), events[1..], c');
    }
  }

  // Whatever happened in between without storing defaults again: a reset brings each member back as it was when the
  // defaults were stored, where the limits take that value and nothing staged replaces it. In the default context it
  // does so for the members that do not follow tags.
  lemma ResetRestoresStored(d: Descriptor, c: Config, first: Event, events: seq<Event>, c': Config, k: Key, now: nat,
                            now2: nat, now3: nat, now4: nat)
    requires Possible(c, first) && Stores(d, c, first)
    requires Execution(d, Next(d, c, first), events, c') && NoneStores(d, Next(d, c, first), events)
    requires StoreOrdered(c'.s.stored) && now <= now2 && 0 < now2
    requires RefusedDefaults(d, c'.s, now) == map[] && NoneBetween(c'.s, now, now2)
    requires k in Next(d, c, first).s.members && k in c'.s.members && k in d.writable && k != RESET_DEFAULTS
    requires d.Takes(k, Next(d, c, first).s.members[k])
    requires if c'.s.active.context != DEFAULT_CONTEXT then k !in c'.s.staged
             else c'.s.active.time != now && k !in AutoKeysFor(d, c'.s, Ctx(now, DEFAULT_CONTEXT))
    ensures BeginReset(d, c'.s, now, now2, now3, now4).Some?
    ensures var s1 := BeginReset(d, c'.s, now, now2, now3, now4).value.0;
            k in s1.members && s1.members[k] == Next(d, c, first).s.members[k]
  {
    hide Next, Possible, Stores, BeginReset, RefusedDefaults, NoneBetween, StoreOrdered, AutoKeysFor;
    EventStoresDefaults(d, c, first);
    DefaultsStay(d, Next(d, c, first), events, c');
    ResetCallRestoresDefaults(d, c'.s, now, now2, now3, now4, k);
    RestoredHolds(d, c'.s, now, k);
  }

  lemma RestoredHolds(d: Descriptor, s: State, now: nat, k: Key)
    requires k in s.defaults && k in d.writable
    requires s.active.context == DEFAULT_CONTEXT ==>
      s.active.time != now && k !in AutoKeysFor(d, s, Ctx(now, DEFAULT_CONTEXT))
    ensures k in Restored(d, s, now) && Restored(d, s, now)[k] == s.defaults[k]
  {
    hide AutoKeysFor;
  }
}
