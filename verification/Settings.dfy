/**
 The settings of one block (core/src/Settings.cpp): the stored sets of every context, the staged values, and the apply
 that takes them, reports them to the block and takes them back when the block refuses.

 Each operation is a function on `State` from one clock reading of the operation to the next. `CtxSettings` performs
 them in place.
 */
module Settings {
  import opened Wrappers
  import opened SettingsStore

  type Name = string
  type Store = map<Name, seq<StoredSet>>

  const RESET_DEFAULTS: Key := "gr:reset_default"
  const STORE_DEFAULTS: Key := "gr:store_default"
  const CONTEXT_FIELD: Key := "context"
  const DEFAULT_CONTEXT: Name := ""

  // What a block type contributes. A value a member takes is one that converts and that the limits accept. `matcher`
  // stands for the match predicate and its bounded retries: the stored context picked for one that is not stored.
  datatype Descriptor = Descriptor(
    writable: set<Key>,
    converts: (Key, Value) -> bool,
    within: (Key, Value) -> bool,
    follows: (Key, Value) -> bool,       // a tag value of the type the setting takes from tags
    unset: Value -> bool,
    nameValue: Name -> Value,
    matcher: (set<Name>, Name) -> Option<Name>,
    expiry: Option<nat>,
    hasCallback: bool)
  {
    predicate Takes(key: Key, value: Value) { converts(key, value) && within(key, value) }
  }

  datatype State = State(
    stored: Store,
    autoUpdate: map<Ctx, set<Key>>,
    active: Ctx,
    contextActivated: bool,
    contextBefore: Option<Ctx>,
    autoBefore: Option<map<Ctx, set<Key>>>,
    staged: Values,
    tagged: set<Key>,
    couplings: map<Key, Key>,
    activeParameters: Values,
    members: Values,
    defaults: Values,
    changed: bool)

  // --- search -----------------------------------------------------------------------------------------------------

  function SetsOf(store: Store, name: Name): seq<StoredSet> { if name in store then store[name] else [] }

  function BestName(d: Descriptor, store: Store, name: Name): (r: Option<Name>)
    ensures r.Some? ==> r.value in store
  {
    if name in store then Some(name)
    else match d.matcher(store.Keys, name)
         case Some(m) => if m in store then Some(m) else None
         case None => None
  }

  // findBestMatchSettingsCtx()
  function BestMatch(d: Descriptor, store: Store, ctx: Ctx): Option<Ctx> {
    match BestName(d, store, ctx.context)
    case None => None
    case Some(name) => BestCtx(store[name], ctx.time)
  }

  // getBestMatchStoredParameters()
  function BestSettings(d: Descriptor, store: Store, ctx: Ctx): Option<Values> {
    match BestMatch(d, store, ctx)
    case None => None
    case Some(best) =>
      match FirstOf(SetsOf(store, best.context), best)
      case None => None
      case Some(p) => Some(p.settings)
  }

  // getBestMatchAutoUpdateParameters()
  function BestAutoKeys(d: Descriptor, s: State, ctx: Ctx): Option<set<Key>> {
    match BestMatch(d, s.stored, ctx)
    case None => None
    case Some(best) => if best in s.autoUpdate then Some(s.autoUpdate[best]) else None
  }

  // the stored entry of ctx, or the best match's, or every writable member
  function AutoKeysFor(d: Descriptor, s: State, ctx: Ctx): set<Key> {
    if ctx in s.autoUpdate then s.autoUpdate[ctx] else BestAutoKeys(d, s, ctx).GetOr(d.writable)
  }

  // --- the stored sets --------------------------------------------------------------------------------------------

  function AddStored(d: Descriptor, s: State, values: Values, ctx: Ctx): State {
    s.(autoUpdate := s.autoUpdate[ctx := AutoKeysFor(d, s, ctx)],
       stored := s.stored[ctx.context := Inserted(SetsOf(s.stored, ctx.context), StoredSet(ctx, values))])
  }

  function Kept(d: Descriptor, v: seq<StoredSet>, now: nat): seq<StoredSet> { Pruned(Unexpired(v, d.expiry, now), now) }

  // the contexts of the sets that expiry and pruning drop
  function Dropped(d: Descriptor, v: seq<StoredSet>, now: nat): set<Ctx> {
    var alive := Unexpired(v, d.expiry, now);
    (set i | 0 <= i < |v| && Expired(v[i], d.expiry, now) :: v[i].ctx)
    + (set i | 0 <= i < PrunedCount(alive, now) :: alive[i].ctx)
  }

  // removeExpiredStoredParameters()
  function RemoveExpired(d: Descriptor, s: State, now: nat): State {
    s.(stored := map n | n in s.stored :: Kept(d, s.stored[n], now),
       autoUpdate := map c | c in s.autoUpdate
                             && (forall n :: n in s.stored ==> c !in Dropped(d, s.stored[n], now)) :: s.autoUpdate[c])
  }

  function Pending(v: seq<StoredSet>, now: nat): nat {
    if v == [] then 0 else Pending(v[1..], now) + if now < v[0].ctx.time then 1 else 0
  }

  function ContextsHeld(store: Store): set<Name> { set n | n in store && store[n] != [] }

  // refuseStoredSet()
  predicate CapRefuses(store: Store, ctx: Ctx, now: nat) {
    if SetsOf(store, ctx.context) == [] then |ContextsHeld(store)| >= MAX_CONTEXTS
    else now < ctx.time && Pending(store[ctx.context], now) >= MAX_PENDING_SETS
  }

  function WithTime(ctx: Ctx, now: nat): Ctx { if ctx.time == 0 then ctx.(time := now) else ctx }

  function Given(d: Descriptor, params: Values): Values { map k | k in params && !d.unset(params[k]) :: params[k] }

  function Writable(d: Descriptor, params: Values): Values { map k | k in params && k in d.writable :: params[k] }

  function NotWritable(d: Descriptor, params: Values): Values { map k | k in params && k !in d.writable :: params[k] }

  // setImpl(): None is the exception, which leaves the state as it was
  function Set(d: Descriptor, s: State, params: Values, ctx: Ctx, now: nat, pruneNow: nat): Option<(State, Values)> {
    var at := WithTime(ctx, now);
    var taken := Writable(d, Given(d, params));
    if CapRefuses(s.stored, at, now) || exists k :: k in taken && !d.Takes(k, taken[k]) then None
    else
      var values := BestSettings(d, s.stored, at).GetOr(s.defaults) + taken;
      var s' := s.(autoUpdate := s.autoUpdate[at := AutoKeysFor(d, s, at) - taken.Keys]);
      Some((RemoveExpired(d, AddStored(d, s', values, at), pruneNow), NotWritable(d, Given(d, params))))
  }

  // --- staging ----------------------------------------------------------------------------------------------------

  // setStagedImpl() past the conversions
  function Stage(d: Descriptor, s: State, params: Values): State {
    var staged := s.staged + Writable(d, params);
    s.(staged := staged, tagged := s.tagged - Writable(d, params).Keys, changed := s.changed || staged != map[])
  }

  function SetStaged(d: Descriptor, s: State, params: Values): Option<(State, Values)> {
    if exists k :: k in Writable(d, params) && !d.converts(k, params[k]) then None
    else Some((Stage(d, s, params), NotWritable(d, params)))
  }

  // another time of the active context: stages what does not follow tags
  function ActivateSameContext(d: Descriptor, s: State, best: Ctx, values: Values): State {
    var keys := AutoKeysFor(d, s, best);
    var fixed := map k | k in values && k !in keys :: values[k];
    Stage(d, s.(autoUpdate := s.autoUpdate[best := keys]), fixed).(active := best, changed := true)
  }

  // another context: stages every value that is not staged already, and records the context it came from
  function ActivateOtherContext(s: State, best: Ctx, values: Values): State {
    s.(staged := values + s.staged,
       contextBefore := if s.contextActivated then s.contextBefore else Some(s.active),
       active := best, contextActivated := true, changed := true)
  }

  // activateContextImpl()
  function Activate(d: Descriptor, s: State, ctx: Ctx, now: nat): (State, Option<Ctx>) {
    var at := WithTime(ctx, now);
    var best := BestMatch(d, s.stored, at);
    if best.None? || best.value == s.active then (s, best)
    else
      match BestSettings(d, s.stored, at)
      case None => (s, if best.value.context == s.active.context then best else None)
      case Some(values) =>
        (if best.value.context == s.active.context then ActivateSameContext(d, s, best.value, values)
         else ActivateOtherContext(s, best.value, values), best)
  }

  function CurrentDefault(d: Descriptor, s: State, now: nat): Option<Ctx> {
    BestMatch(d, s.stored, Ctx(now, DEFAULT_CONTEXT))
  }

  function IndexAtTime(v: seq<StoredSet>, t: nat): (r: Option<nat>)
    ensures r.Some? ==> r.value < |v| && v[r.value].ctx.time == t
    ensures r.None? ==> forall p :: p in v ==> p.ctx.time != t
  {
    if v == [] then None
    else if v[0].ctx.time == t then Some(0)
    else match IndexAtTime(v[1..], t) case None => None case Some(i) => Some(i + 1)
  }

  // set i of a context erased, with its entry, and the context with its last set
  function WithoutSet(s: State, name: Name, i: nat): State
    requires name in s.stored && i < |s.stored[name]|
  {
    var v := s.stored[name];
    var rest := v[..i] + v[i + 1..];
    s.(autoUpdate := s.autoUpdate - {v[i].ctx},
       stored := if rest == [] then s.stored - {name} else s.stored[name := rest])
  }

  // a refusal falls back to the default context when the context it would return to is removed
  function FallBack(d: Descriptor, s: State, removed: Ctx, now: nat): State {
    if s.contextBefore == Some(removed) then s.(contextBefore := CurrentDefault(d, s, now)) else s
  }

  // the removal of a set of the active context activates the default context, which a refusal keeps
  function LeaveContext(d: Descriptor, s: State, name: Name, now: nat): State {
    if s.active.context == name then Activate(d, s, Ctx(0, DEFAULT_CONTEXT), now).0.(contextBefore := None) else s
  }

  // removeContextImpl(), with its clock readings in order
  function Remove(d: Descriptor, s: State, ctx: Ctx, now: nat, now2: nat, now3: nat): (State, bool) {
    if ctx.context == DEFAULT_CONTEXT || ctx.context !in s.stored then (s, false)
    else
      var v := s.stored[ctx.context];
      match IndexAtTime(v, WithTime(ctx, now).time)
      case None => (s, false)
      case Some(i) =>
        (LeaveContext(d, FallBack(d, WithoutSet(s, ctx.context, i), v[i].ctx, now2), ctx.context, now3), true)
  }

  // --- defaults and tags ------------------------------------------------------------------------------------------

  // the defaults a reset would restore and the limits refuse
  function RefusedDefaults(d: Descriptor, s: State, now: nat): Values {
    var keys := BestAutoKeys(d, s, Ctx(now, DEFAULT_CONTEXT)).GetOr(d.writable);
    map k | k in s.defaults && k in d.writable && (s.active.context != DEFAULT_CONTEXT || k !in keys)
            && d.converts(k, s.defaults[k]) && !d.within(k, s.defaults[k]) :: s.defaults[k]
  }

  // stageDefaultsImpl()
  function StageDefaults(d: Descriptor, s: State, now: nat, now2: nat): (State, Values) {
    var refused := RefusedDefaults(d, s, now);
    if refused != map[] then (s, refused)
    else
      var ctx := Ctx(now, DEFAULT_CONTEXT);
      var s1 := Activate(d, AddStored(d, s, s.defaults, ctx), Ctx(0, DEFAULT_CONTEXT), now2).0;
      (s1.(autoBefore := Some(s1.autoUpdate),
           autoUpdate := map c | c in s1.autoUpdate.Keys + {ctx} :: d.writable), map[])
  }

  // a tag with the context it names, if any
  datatype Tag = Tag(values: map<Key, Value>, context: Option<Ctx>)

  predicate IsStored(s: State, ctx: Ctx) { FirstOf(SetsOf(s.stored, ctx.context), ctx).Some? }

  // what the tag's activation staged counts as staged by the tag
  function TaggedByActivation(before: State, after: State): set<Key> {
    after.tagged
    + (set k | k in after.staged && (k !in before.staged || before.staged[k] != after.staged[k] || k in before.tagged))
    + if after.contextActivated && !before.contextActivated then {CONTEXT_FIELD} else {}
  }

  // the keys that follow tags in the context a tag is applied in, and the entry made for a stored one
  function FollowingKeys(d: Descriptor, s: State, ctx: Ctx, now: nat): set<Key> {
    if IsStored(s, ctx) then AutoKeysFor(d, s, ctx)
    else
      var best := match BestMatch(d, s.stored, ctx)
                  case Some(b) => Some(b)
                  case None => BestMatch(d, s.stored, Ctx(now, ctx.context));
      if best.Some? && best.value in s.autoUpdate then s.autoUpdate[best.value] else d.writable
  }

  // the settings the tag's coupled keys set
  function Followed(d: Descriptor, s: State, tag: Tag, keys: set<Key>, ctxChanged: bool): Values {
    map k | k in s.couplings && s.couplings[k] in tag.values && k in d.writable && k in keys
            && (ctxChanged || !(k in s.activeParameters && s.activeParameters[k] == tag.values[s.couplings[k]]))
            && d.follows(k, tag.values[s.couplings[k]]) :: tag.values[s.couplings[k]]
  }

  function ControlKeys(tag: Tag): Values {
    map k | k in tag.values && (k == RESET_DEFAULTS || k == STORE_DEFAULTS) :: tag.values[k]
  }

  // autoUpdate() up to the choice of the context the tag's values go to
  function TagActivates(d: Descriptor, s: State, tag: Tag, now: nat): (State, Ctx) {
    match tag.context
    case None => (s, s.active)
    case Some(at) =>
      var (s1, best) := Activate(d, s, at, now);
      (s1.(tagged := TaggedByActivation(s, s1)), best.GetOr(s1.active))
  }

  // only a stored set keeps an entry
  function WithEntry(s: State, ctx: Ctx, keys: set<Key>): State {
    if IsStored(s, ctx) then s.(autoUpdate := s.autoUpdate[ctx := keys]) else s
  }

  // The control keys are staged under their own names; a followed setting counts as staged by the tag.
  function StageFromTag(s: State, control: Values, followed: Values): State {
    s.(staged := s.staged + control + followed, tagged := s.tagged + followed.Keys)
  }

  function ReportTag(s: State, namesContext: bool, moved: bool, wasChanged: bool): State {
    if !namesContext && !wasChanged && s.staged == map[] then s.(changed := false)
    else if moved || wasChanged then s.(changed := true)
    else s
  }

  // autoUpdate() past that choice; `moved` says that the context is another than the active one before the tag
  function TagSets(d: Descriptor, s: State, tag: Tag, ctx: Ctx, moved: bool, now: nat): State {
    var keys := FollowingKeys(d, s, ctx, now);
    var control, followed := ControlKeys(tag), Followed(d, s, tag, keys, moved);
    ReportTag(StageFromTag(WithEntry(s, ctx, keys), control, followed),
              tag.context.Some?, moved, control != map[] || followed != map[])
  }

  // autoUpdate(), with the clock readings of the activation and of the fallback lookup
  function AutoUpdate(d: Descriptor, s: State, tag: Tag, now: nat, now2: nat): State {
    var (s1, ctx) := TagActivates(d, s, tag, now);
    TagSets(d, s1, tag, ctx, s.active != ctx, now2)
  }

  // --- couplings, and copies of the members -----------------------------------------------------------------------

  // What a coupling entry asks for. `NoKey` is every value that refuseTagKey() or the check for a string turns down.
  datatype Coupling = NoKey | Uncouple | Couple(key: Key)

  function Coupled(entries: map<Key, Coupling>): map<Key, Key> {
    map k | k in entries && entries[k].Couple? :: entries[k].key
  }

  function Uncoupled(entries: map<Key, Coupling>): set<Key> { set k | k in entries && entries[k].Uncouple? }

  // setTagCouplings(): None is the exception, which leaves the table as it was
  function SetTagCouplings(d: Descriptor, s: State, entries: map<Key, Coupling>): Option<State> {
    if exists k :: k in entries && (k !in d.writable || entries[k].NoKey?) then None
    else
      Some(s.(couplings := s.couplings - Uncoupled(entries) + Coupled(entries),
              autoUpdate := map c | c in s.autoUpdate :: s.autoUpdate[c] + Coupled(entries).Keys))
  }

  // autoUpdateParameters(): the keys of the best match, which gets an empty entry where it has none
  function ReadAutoKeys(d: Descriptor, s: State, ctx: Ctx): (State, set<Key>) {
    match BestMatch(d, s.stored, ctx)
    case None => (s, {})
    case Some(best) =>
      if best in s.autoUpdate then (s, s.autoUpdate[best]) else (s.(autoUpdate := s.autoUpdate[best := {}]), {})
  }

  // storeDefaults()
  function StoreDefaults(s: State): State { s.(defaults := s.defaults + s.members) }

  // updateActiveParameters() of the members named
  function UpdateActive(s: State, keys: set<Key>): State {
    s.(activeParameters := s.activeParameters + map k | k in keys && k in s.members :: s.members[k])
  }

  // --- the apply --------------------------------------------------------------------------------------------------

  // what one apply carries over the callback, during which the mutex is released
  datatype Batch = Batch(
    values: Values,            // the whole staging map as it was taken
    tagged: set<Key>,
    applied: Values,
    failed: Values,
    reported: Values,          // what the callback is told: every key that moved, and a newly active context
    previous: Values,               // the members before the apply
    ctx: Ctx,                  // active when the batch was applied
    activated: bool,
    before: Option<Ctx>,       // the context to go back to
    autoBefore: Option<map<Ctx, set<Key>>>)

  datatype Outcome = Threw | Returned(applied: Values, failed: Values, forward: Values)

  datatype Verdict = Accept(forward: Values) | Refuse

  // The state with the batch taken out, the values to apply, the defaults that were refused, and the batch's context
  // records.
  datatype Taken = Taken(s: State, toApply: Values, refused: Values, activated: bool, before: Option<Ctx>,
                         autoBefore: Option<map<Ctx, set<Key>>>)

  // the state with the batch taken out
  function Emptied(s: State): State {
    s.(contextActivated := false, contextBefore := None, autoBefore := None, staged := map[], tagged := {})
  }

  function TakeBatch(d: Descriptor, s: State, now: nat, now2: nat, now3: nat): Taken {
    var s0 := Emptied(s);
    if RESET_DEFAULTS !in s.staged then Taken(s0, s.staged, map[], s.contextActivated, s.contextBefore, s.autoBefore)
    else
      var (s1, refused) := StageDefaults(d, s0, now, now2);
      if refused != map[] then Taken(s0, s.staged, refused, s.contextActivated, s.contextBefore, s.autoBefore)
      else
        var s2 := s1.(staged := map[], contextActivated := false, contextBefore := None, autoBefore := None);
        Taken(RemoveExpired(d, s2, now3), s1.staged + s.staged, map[],
              s1.contextActivated || s.contextActivated,
              if s.contextBefore.Some? then s.contextBefore else s1.contextBefore,
              s1.autoBefore)
  }

  function Accepted(d: Descriptor, values: Values): Values {
    map k | k in values && k in d.writable && d.Takes(k, values[k]) :: values[k]
  }

  function Rejected(d: Descriptor, values: Values): Values {
    map k | k in values && k in d.writable && !d.Takes(k, values[k]) :: values[k]
  }

  function Moved(applied: Values, previous: Values): Values {
    map k | k in applied && !(k in previous && previous[k] == applied[k]) :: applied[k]
  }

  function Refresh(s: State): State { s.(activeParameters := s.activeParameters + s.members) }

  // applyStagedParametersImpl() up to the callback
  function Begin(d: Descriptor, s: State, now: nat, now2: nat, now3: nat): (State, Batch) {
    var t := TakeBatch(d, s, now, now2, now3);
    var applied := Accepted(d, t.toApply);
    var previous := if d.hasCallback then s.members else map[];
    var moved := if d.hasCallback then Moved(applied, previous) else map[];
    var reported := if t.activated && d.hasCallback then moved[CONTEXT_FIELD := d.nameValue(t.s.active.context)]
      else moved;
    (Refresh(t.s.(members := s.members + applied)),
     Batch(s.staged, s.tagged, applied, t.refused + Rejected(d, t.toApply), reported, previous, t.s.active, t.activated,
           t.before, t.autoBefore))
  }

  // the refused keys whose members take their previous value back
  function Restorable(d: Descriptor, b: Batch): set<Key> {
    set k | k in b.reported && k in d.writable && k in b.previous && d.Takes(k, b.previous[k])
  }

  function RestoredSettings(d: Descriptor, b: Batch, settings: Values): Values {
    map k | k in settings ::
      if k in Restorable(d, b) && settings[k] == b.reported[k] then b.previous[k] else settings[k]
  }

  // the first set of ctx with its settings mapped
  function RestoredSets(d: Descriptor, b: Batch, v: seq<StoredSet>): (r: seq<StoredSet>)
    ensures |r| == |v| && forall i :: 0 <= i < |v| ==> r[i].ctx == v[i].ctx
  {
    if v == [] then []
    else if v[0].ctx == b.ctx then [v[0].(settings := RestoredSettings(d, b, v[0].settings))] + v[1..]
    else [v[0]] + RestoredSets(d, b, v[1..])
  }

  // restoreRefusedImpl()
  function RestoreRefused(d: Descriptor, s: State, b: Batch): State {
    var back := map k | k in Restorable(d, b) :: b.previous[k];
    s.(members := s.members + back,
       stored := if b.activated || b.ctx.context !in s.stored then s.stored
                 else s.stored[b.ctx.context := RestoredSets(d, b, s.stored[b.ctx.context])])
  }

  // restoreContextImpl()
  function RestoreContext(d: Descriptor, s: State, earlier: Ctx, refused: Ctx, now: nat): State {
    var restored := if earlier.context in s.stored then Some(earlier) else CurrentDefault(d, s, now);
    s.(active := if s.active == refused && restored.Some? then restored.value else s.active,
       contextBefore := if s.contextBefore == Some(refused) then restored else s.contextBefore)
  }

  // the keys that followed tags before a refused reset, in the sets that still have an entry
  function RestoreAutoKeys(s: State, before: Option<map<Ctx, set<Key>>>): State {
    match before
    case None => s
    case Some(kept) => s.(autoUpdate := map c | c in s.autoUpdate :: if c in kept then kept[c] else s.autoUpdate[c])
  }

  function RollBack(d: Descriptor, s: State, b: Batch, now: nat): State {
    var s1 := RestoreRefused(d, s, b);
    var s2 := if b.before.Some? then RestoreContext(d, s1, b.before.value, b.ctx, now) else s1;
    Refresh(RestoreAutoKeys(s2, b.autoBefore))
  }

  // storeDefaults() when the batch asks for it
  function StoreIfAsked(s: State, b: Batch): State {
    if STORE_DEFAULTS in b.values then StoreDefaults(s) else s
  }

  // applyStagedParametersImpl() past the callback; a batch that reports nothing calls no callback
  function Finish(d: Descriptor, s: State, b: Batch, verdict: Verdict, now: nat): (State, Outcome) {
    if b.reported == map[] then (StoreIfAsked(Refresh(s), b), Returned(b.applied, b.failed, map[]))
    else if verdict.Accept? then (StoreIfAsked(Refresh(s), b), Returned(b.applied, b.failed, verdict.forward))
    else
      var s' := RollBack(d, s, b, now);
      if b.reported.Keys <= b.tagged then
        (StoreIfAsked(Refresh(s'), b), Returned(b.applied - b.reported.Keys, b.reported + b.failed, map[]))
      else (s', Threw)
  }

  // the last statement, past the block's reset(); an apply that threw does not reach it
  function Conclude(s: State): State { s.(changed := s.staged != map[]) }
}
