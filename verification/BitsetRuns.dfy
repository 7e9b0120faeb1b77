/**
 Several threads on one bitset (core/include/gnuradio-4.0/AtomicBitset.hpp): every interleaving of the loads, exchanges
 and stores of operations on disjoint bits.
 */
module BitsetRuns {
  import opened Wrappers
  import opened AtomicBitset

  datatype Operation = SetOne(p: nat, value: bool) | SetMany(begin: nat, end: nat, value: bool) {
    predicate Touches(q: nat) { if SetOne? then q == p else begin <= q < end }

    // what the bitset asserts of its callers
    predicate InRange(words: nat) {
      if SetOne? then p / BITS_PER_WORD < words else begin <= end <= words * BITS_PER_WORD
    }

    function Steps(): seq<Access> {
      if SetOne? then [One(p / BITS_PER_WORD, p % BITS_PER_WORD, value)]
      else if begin <= end then Accesses(begin, end, value)
      else []
    }
  }

  // a thread's operation, the accesses it has done, and what its compare-exchange loop has read
  datatype Thread = Thread(op: Operation, done: nat, loaded: Option<Word>) {
    // an access that is done covers the bit
    predicate Wrote(p: nat) { done <= |op.Steps()| && Covered(op.Steps()[..done], p) }
  }

  datatype Config = Config(words: seq<Word>, threads: seq<Thread>)

  // The exchange compares and may write. An exchange that fails, spuriously or not, loads again.
  datatype Event = Load(t: nat) | Exchange(t: nat) | Retry(t: nat) | Store(t: nat)

  ghost predicate InBounds(c: Config) {
    forall t :: 0 <= t < |c.threads| ==> c.threads[t].op.InRange(|c.words|)
  }

  ghost predicate Disjoint(ops: seq<Operation>) {
    forall t, u, p :: 0 <= t < |ops| && 0 <= u < |ops| && t != u ==> !(ops[t].Touches(p) && ops[u].Touches(p))
  }

  // the thread is before an access
  predicate Busy(c: Config, t: nat) {
    && t < |c.threads| && c.threads[t].done < |c.threads[t].op.Steps()|
    && c.threads[t].op.Steps()[c.threads[t].done].Valid(|c.words|)
  }

  function NextAccess(c: Config, t: nat): Access
    requires Busy(c, t)
  {
    c.threads[t].op.Steps()[c.threads[t].done]
  }

  predicate Possible(c: Config, e: Event) {
    && Busy(c, e.t)
    && match e
       case Load(t) => !NextAccess(c, t).Whole? && c.threads[t].loaded.None?
       case Exchange(t) => !NextAccess(c, t).Whole? && c.threads[t].loaded == Some(c.words[NextAccess(c, t).word])
       case Retry(t) => !NextAccess(c, t).Whole? && c.threads[t].loaded.Some?
       case Store(t) => NextAccess(c, t).Whole?
  }

  function After(c: Config, e: Event): Config
    requires Possible(c, e)
  {
    var thread, a := c.threads[e.t], NextAccess(c, e.t);
    match e
    case Load(t) => c.(threads := c.threads[t := thread.(loaded := Some(c.words[a.word]))])
    case Retry(t) => c.(threads := c.threads[t := thread.(loaded := None)])
    case Exchange(t) => Config(c.words[a.word := Written(thread.loaded.value, a)],
                               c.threads[t := Thread(thread.op, thread.done + 1, None)])
    case Store(t) => Config(c.words[a.word := Written(c.words[a.word], a)],
                            c.threads[t := Thread(thread.op, thread.done + 1, thread.loaded)])
  }

  // --- one event --------------------------------------------------------------------------------------------------

  // A bit a thread has written holds that thread's value; a bit no thread has written holds its first value.
  ghost predicate BitPartway(first: seq<Word>, c: Config, p: nat)
    requires p / BITS_PER_WORD < |first| == |c.words|
  {
    && (forall t :: 0 <= t < |c.threads| && c.threads[t].Wrote(p) ==> TestBit(c.words, p) == c.threads[t].op.value)
    && ((forall t :: 0 <= t < |c.threads| ==> !c.threads[t].Wrote(p)) ==> TestBit(c.words, p) == TestBit(first, p))
  }

  ghost predicate Partway(first: seq<Word>, c: Config) {
    |first| == |c.words| && forall p: nat :: p / BITS_PER_WORD < |first| ==> BitPartway(first, c, p)
  }

  function Ops(threads: seq<Thread>): (ops: seq<Operation>)
    ensures |ops| == |threads| && forall t :: 0 <= t < |ops| ==> ops[t] == threads[t].op
  {
    seq(|threads|, t requires 0 <= t < |threads| => threads[t].op)
  }

  lemma StepsTouch(op: Operation, words: nat, p: nat)
    requires op.InRange(words)
    ensures Covered(op.Steps(), p) <==> op.Touches(p)
    ensures forall a :: a in op.Steps() ==> (a.Valid(words) && a.value == op.value)
  {
    if op.SetMany? {
      AccessesCoverRange(op.begin, op.end, op.value, p);
    } else {
      CoveredOne(One(op.p / BITS_PER_WORD, op.p % BITS_PER_WORD, op.value), p);
    }
    hide Covered, Accesses;
  }

  lemma WroteTouches(thread: Thread, words: nat, p: nat)
    requires thread.op.InRange(words) && thread.Wrote(p)
    ensures thread.op.Touches(p)
  {
    StepsTouch(thread.op, words, p);
    hide Covered;
    CoveredConcat(thread.op.Steps()[..thread.done], thread.op.Steps()[thread.done..], p);
    assert thread.op.Steps()[..thread.done] + thread.op.Steps()[thread.done..] == thread.op.Steps();
  }

  lemma WroteNext(thread: Thread, loaded: Option<Word>, p: nat)
    requires thread.done < |thread.op.Steps()|
    ensures var a, after := thread.op.Steps()[thread.done], Thread(thread.op, thread.done + 1, loaded);
            after.Wrote(p) <==> thread.Wrote(p) || a.Covers(p)
  {
    hide Covered;
    var steps, k := thread.op.Steps(), thread.done;
    assert steps[..k + 1] == steps[..k] + [steps[k]];
    CoveredConcat(steps[..k], [steps[k]], p);
    CoveredOne(steps[k], p);
  }

  // an access of thread t, done at once
  ghost function Done(c: Config, t: nat, loaded: Option<Word>): Config
    requires Busy(c, t)
  {
    Config(Perform(c.words, NextAccess(c, t)), c.threads[t := Thread(c.threads[t].op, c.threads[t].done + 1, loaded)])
  }

  lemma DoneAt(first: seq<Word>, c: Config, t: nat, loaded: Option<Word>, p: nat)
    requires InBounds(c) && Disjoint(Ops(c.threads)) && Busy(c, t) && p / BITS_PER_WORD < |first| == |c.words|
    requires BitPartway(first, c, p)
    ensures BitPartway(first, Done(c, t, loaded), p)
  {
    hide TestBit, Perform, Covered;
    var c', a := Done(c, t, loaded), NextAccess(c, t);
    PerformedBit(c.words, a, p);
    WroteNext(c.threads[t], loaded, p);
    StepsTouch(c.threads[t].op, |c.words|, p);
    assert a in c.threads[t].op.Steps();
    forall u | 0 <= u < |c.threads| && u != t ensures c'.threads[u].Wrote(p) == c.threads[u].Wrote(p) {}
    if a.Covers(p) {
      assert c'.threads[t].Wrote(p);
      WroteTouches(c'.threads[t], |c.words|, p);
      forall u | 0 <= u < |c.threads| && u != t ensures !c'.threads[u].Wrote(p) {
        if c.threads[u].Wrote(p) { WroteTouches(c.threads[u], |c.words|, p); }
      }
    } else {
      assert c'.threads[t].Wrote(p) == c.threads[t].Wrote(p);
      SameWrites(first, c, c', p);
    }
  }

  lemma SameWrites(first: seq<Word>, c: Config, c': Config, p: nat)
    requires p / BITS_PER_WORD < |first| == |c.words| == |c'.words| && |c.threads| == |c'.threads|
    requires TestBit(c'.words, p) == TestBit(c.words, p)
    requires forall u :: 0 <= u < |c.threads| ==>
      c'.threads[u].op == c.threads[u].op && c'.threads[u].Wrote(p) == c.threads[u].Wrote(p)
    requires BitPartway(first, c, p)
    ensures BitPartway(first, c', p)
  {
    hide TestBit;
    if forall t :: 0 <= t < |c'.threads| ==> !c'.threads[t].Wrote(p) {
      forall t | 0 <= t < |c.threads| ensures !c.threads[t].Wrote(p) { assert !c'.threads[t].Wrote(p); }
    }
  }

  // An exchange that succeeds, and a store, are the access done at once.
  lemma WriteIsDone(c: Config, e: Event)
    requires Possible(c, e) && (e.Exchange? || e.Store?)
    ensures After(c, e) == Done(c, e.t, if e.Exchange? then None else c.threads[e.t].loaded)
  {
    hide Written, Accesses;
  }

  lemma EventAt(first: seq<Word>, c: Config, e: Event, p: nat)
    requires InBounds(c) && Disjoint(Ops(c.threads)) && Possible(c, e) && p / BITS_PER_WORD < |first| == |c.words|
    requires BitPartway(first, c, p)
    ensures |After(c, e).words| == |first| && BitPartway(first, After(c, e), p)
  {
    hide BitPartway, InBounds, Disjoint, After, Accesses, Written;
    if e.Exchange? || e.Store? {
      WriteIsDone(c, e);
      DoneAt(first, c, e.t, if e.Exchange? then None else c.threads[e.t].loaded, p);
    } else {
      LoadedAlike(first, c, e, p);
    }
  }

  lemma EventKeepsOps(c: Config, e: Event)
    requires InBounds(c) && Possible(c, e)
    ensures InBounds(After(c, e)) && Ops(After(c, e).threads) == Ops(c.threads) && |After(c, e).words| == |c.words|
  {
    hide Written, Accesses;
    var c' := After(c, e);
    assert forall t :: 0 <= t < |c.threads| ==> c'.threads[t].op == c.threads[t].op;
    assert Ops(c'.threads) == Ops(c.threads);
  }

  lemma EventKeeps(first: seq<Word>, c: Config, e: Event)
    requires InBounds(c) && Disjoint(Ops(c.threads)) && Partway(first, c) && Possible(c, e)
    ensures var c' := After(c, e); InBounds(c') && Ops(c'.threads) == Ops(c.threads) && Partway(first, c')
  {
    hide BitPartway, InBounds, Disjoint, Possible, After;
    EventKeepsOps(c, e);
    forall p: nat | p / BITS_PER_WORD < |first| ensures BitPartway(first, After(c, e), p) {
      assert BitPartway(first, c, p);
      EventAt(first, c, e, p);
    }
  }

  lemma LoadedAlike(first: seq<Word>, c: Config, e: Event, p: nat)
    requires Possible(c, e) && (e.Load? || e.Retry?)
      && p / BITS_PER_WORD < |first| == |c.words| && BitPartway(first, c, p)
    ensures |After(c, e).words| == |first| && BitPartway(first, After(c, e), p)
  {
    hide BitPartway, Covered, TestBit;
    SameWrites(first, c, After(c, e), p);
  }

  // --- runs -------------------------------------------------------------------------------------------------------

  predicate Run(c: Config, events: seq<Event>)
    decreases |events|
  {
    events == [] || (Possible(c, events[0]) && Run(After(c, events[0]), events[1..]))
  }

  function Last(c: Config, events: seq<Event>): Config
    requires Run(c, events)
    decreases |events|
  {
    if events == [] then c else Last(After(c, events[0]), events[1..])
  }

  function Begin(words: seq<Word>, ops: seq<Operation>): Config {
    Config(words, seq(|ops|, t requires 0 <= t < |ops| => Thread(ops[t], 0, None)))
  }

  predicate Finished(c: Config) { forall t :: 0 <= t < |c.threads| ==> c.threads[t].done == |c.threads[t].op.Steps()| }

  lemma {:induction false} RunKeeps(first: seq<Word>, c: Config, events: seq<Event>)
    requires InBounds(c) && Disjoint(Ops(c.threads)) && Partway(first, c) && Run(c, events)
    ensures var c' := Last(c, events); InBounds(c') && Ops(c'.threads) == Ops(c.threads) && Partway(first, c')
    decreases |events|
  {
    hide InBounds, Disjoint, Partway, Possible, After;
    if events != [] {
      EventKeeps(first, c, events[0]);
      RunKeeps(first, After(c, events[0]), events[1..]);
    }
  }

  lemma BeginPartway(words: seq<Word>, ops: seq<Operation>)
    ensures Partway(words, Begin(words, ops)) && Ops(Begin(words, ops).threads) == ops
  {
    hide TestBit, Accesses;
    var c := Begin(words, ops);
    forall p: nat, t | 0 <= t < |ops| ensures !c.threads[t].Wrote(p) {
      assert c.threads[t].op.Steps()[..0] == [];
      CoveredNone(p);
    }
  }

  ghost predicate AllInRange(words: seq<Word>, ops: seq<Operation>) {
    forall t :: 0 <= t < |ops| ==> ops[t].InRange(|words|)
  }

  // At every moment of every interleaving each bit is as it was or as its operation sets it.
  lemma EveryBitIsOldOrNew(words: seq<Word>, ops: seq<Operation>, events: seq<Event>, p: nat)
    requires AllInRange(words, ops) && Disjoint(ops) && Run(Begin(words, ops), events) && p / BITS_PER_WORD < |words|
    ensures |Last(Begin(words, ops), events).words| == |words|
    ensures var bit := TestBit(Last(Begin(words, ops), events).words, p);
            bit == TestBit(words, p) || exists t :: 0 <= t < |ops| && ops[t].Touches(p) && bit == ops[t].value
  {
    hide TestBit, Covered, Run, Last, Disjoint;
    BeginPartway(words, ops);
    RunKeeps(words, Begin(words, ops), events);
    var c := Last(Begin(words, ops), events);
    assert BitPartway(words, c, p);
    if t :| 0 <= t < |c.threads| && c.threads[t].Wrote(p) {
      WroteTouches(c.threads[t], |words|, p);
      assert ops[t] == Ops(c.threads)[t] == c.threads[t].op;
    }
  }

  ghost predicate SetPointwise(words: seq<Word>, ops: seq<Operation>, after: seq<Word>) {
    && |after| == |words|
    && (forall p: nat, t :: p / BITS_PER_WORD < |words| && 0 <= t < |ops| && ops[t].Touches(p) ==>
          TestBit(after, p) == ops[t].value)
    && (forall p: nat :: p / BITS_PER_WORD < |words| && (forall t :: 0 <= t < |ops| ==> !ops[t].Touches(p)) ==>
          TestBit(after, p) == TestBit(words, p))
  }

  // Once every thread is done, every bit is as its operation sets it, and the others are as they were.
  lemma FinishedRunSetsPointwise(words: seq<Word>, ops: seq<Operation>, events: seq<Event>)
    requires AllInRange(words, ops) && Disjoint(ops) && Run(Begin(words, ops), events)
    requires Finished(Last(Begin(words, ops), events))
    ensures SetPointwise(words, ops, Last(Begin(words, ops), events).words)
  {
    hide TestBit, Run, Last, Disjoint;
    BeginPartway(words, ops);
    RunKeeps(words, Begin(words, ops), events);
    var c := Last(Begin(words, ops), events);
    forall p: nat, t | p / BITS_PER_WORD < |words| && 0 <= t < |ops|
      ensures c.threads[t].op == ops[t] && (c.threads[t].Wrote(p) <==> ops[t].Touches(p))
    {
      assert ops[t] == Ops(c.threads)[t] == c.threads[t].op;
      assert c.threads[t].op.Steps()[..c.threads[t].done] == c.threads[t].op.Steps();
      StepsTouch(ops[t], |words|, p);
    }
    forall p: nat | p / BITS_PER_WORD < |words|
      ensures forall t :: 0 <= t < |ops| && ops[t].Touches(p) ==> TestBit(c.words, p) == ops[t].value
      ensures (forall t :: 0 <= t < |ops| ==> !ops[t].Touches(p)) ==> TestBit(c.words, p) == TestBit(words, p)
    {
      assert BitPartway(words, c, p);
    }
  }

  // --- one operation after the other ------------------------------------------------------------------------------

  function InOrder(words: seq<Word>, ops: seq<Operation>, order: seq<nat>): (after: seq<Word>)
    requires (forall i :: 0 <= i < |order| ==> order[i] < |ops|)
      && forall t :: 0 <= t < |ops| ==> ops[t].InRange(|words|)
    ensures |after| == |words|
  {
    if order == [] then words
    else
      var k := |order| - 1;
      StepsTouch(ops[order[k]], |words|, 0);
      PerformAll(InOrder(words, ops, order[..k]), ops[order[k]].Steps())
  }

  ghost predicate InSome(ops: seq<Operation>, order: seq<nat>, p: nat) {
    exists i :: 0 <= i < |order| && order[i] < |ops| && ops[order[i]].Touches(p)
  }

  lemma {:induction false} InOrderBit(words: seq<Word>, ops: seq<Operation>, order: seq<nat>, p: nat)
    requires AllInRange(words, ops) && Disjoint(ops) && (forall i :: 0 <= i < |order| ==> order[i] < |ops|)
    requires p / BITS_PER_WORD < |words|
    ensures forall i :: 0 <= i < |order| && ops[order[i]].Touches(p) ==>
      TestBit(InOrder(words, ops, order), p) == ops[order[i]].value
    ensures !InSome(ops, order, p) ==> TestBit(InOrder(words, ops, order), p) == TestBit(words, p)
  {
    hide TestBit, PerformAll, Covered;
    if order != [] {
      var k := |order| - 1;
      var op := ops[order[k]];
      InOrderBit(words, ops, order[..k], p);
      StepsTouch(op, |words|, p);
      PerformedBits(InOrder(words, ops, order[..k]), op.Steps(), op.value, p);
      assert !InSome(ops, order, p) ==> !op.Touches(p);
      assert InSome(ops, order[..k], p) ==> InSome(ops, order, p) by {
        if i :| 0 <= i < k && ops[order[..k][i]].Touches(p) { assert order[i] == order[..k][i]; }
      }
    }
  }

  // Any interleaving leaves what the operations leave one after the other, in any order.
  lemma FinishedRunEqualsAnyOrder(words: seq<Word>, ops: seq<Operation>, events: seq<Event>, order: seq<nat>, p: nat)
    requires AllInRange(words, ops) && Disjoint(ops) && Run(Begin(words, ops), events)
    requires Finished(Last(Begin(words, ops), events)) && p / BITS_PER_WORD < |words|
    requires forall t: nat :: t in order <==> t < |ops|
    ensures |Last(Begin(words, ops), events).words| == |words| && forall i :: 0 <= i < |order| ==> order[i] < |ops|
    ensures TestBit(Last(Begin(words, ops), events).words, p) == TestBit(InOrder(words, ops, order), p)
  {
    hide TestBit, Run, Last, Disjoint, Begin, Finished, InOrder;
    forall i | 0 <= i < |order| ensures order[i] < |ops| { assert order[i] in order; }
    FinishedRunSetsPointwise(words, ops, events);
    InOrderBit(words, ops, order, p);
    if t :| 0 <= t < |ops| && ops[t].Touches(p) {
      assert t in order;
    }
  }
}
