/**
 Two queues that lose only their oldest waiting messages: the replies a block could not publish (core/src/Block.cpp) and
 the events of a runtime that nobody has polled yet (core/src/Runtime.cpp).
 */
module BoundedQueues {
  type Message = int

  const MAX_PENDING_EVENTS: nat := 1024

  // the messages waiting, those handed on, in order, and how many were dropped
  datatype Queue = Queue(waiting: seq<Message>, taken: seq<Message>, nDropped: nat)

  function Min(a: nat, b: nat): nat { if a < b then a else b }

  function TakeFront(q: Queue, n: nat): Queue
    requires n <= |q.waiting|
  {
    q.(waiting := q.waiting[n..], taken := q.taken + q.waiting[..n])
  }

  function Append(q: Queue, batch: seq<Message>): Queue { q.(waiting := q.waiting + batch) }

  function DropOldest(q: Queue, capacity: nat): Queue {
    if |q.waiting| <= capacity then q
    else q.(waiting := q.waiting[|q.waiting| - capacity..], nDropped := q.nDropped + (|q.waiting| - capacity))
  }

  // --- the account of every message -------------------------------------------------------------------------------

  function Chosen(messages: seq<Message>, fate: seq<bool>, handed: bool): seq<Message>
    requires |fate| <= |messages|
  {
    if fate == [] then []
    else
      var k := |fate| - 1;
      Chosen(messages, fate[..k], handed) + if fate[k] == handed then [messages[k]] else []
  }

  // Each message produced is handed on, dropped or waiting: the last ones wait, and those before them were handed on,
  // in the order they were produced, or dropped.
  ghost predicate Accounts(q: Queue, produced: seq<Message>, fate: seq<bool>) {
    && |fate| + |q.waiting| == |produced| && q.waiting == produced[|fate|..]
    && q.taken == Chosen(produced, fate, true)
    && q.nDropped == |Chosen(produced, fate, false)|
  }

  lemma {:induction false} EachIsChosenOnce(messages: seq<Message>, fate: seq<bool>)
    requires |fate| <= |messages|
    ensures |Chosen(messages, fate, true)| + |Chosen(messages, fate, false)| == |fate|
  {
    if fate != [] {
      EachIsChosenOnce(messages, fate[..|fate| - 1]);
    }
  }

  // produced == handed on + waiting + dropped
  lemma NothingIsLost(q: Queue, produced: seq<Message>, fate: seq<bool>)
    requires Accounts(q, produced, fate)
    ensures |produced| == |q.taken| + |q.waiting| + q.nDropped
  {
    EachIsChosenOnce(produced, fate);
  }

  function Repeated(b: bool, n: nat): (s: seq<bool>)
    ensures |s| == n && forall i :: 0 <= i < n ==> s[i] == b
  {
    seq(n, _ => b)
  }

  lemma {:induction false} ChosenRun(messages: seq<Message>, fate: seq<bool>, b: bool, n: nat)
    requires |fate| + n <= |messages|
    ensures Chosen(messages, fate + Repeated(b, n), b) == Chosen(messages, fate, b) + messages[|fate|..|fate| + n]
    ensures Chosen(messages, fate + Repeated(b, n), !b) == Chosen(messages, fate, !b)
  {
    if n == 0 {
      assert fate + Repeated(b, 0) == fate;
    } else {
      var all := fate + Repeated(b, n);
      assert all[..|all| - 1] == fate + Repeated(b, n - 1);
      ChosenRun(messages, fate, b, n - 1);
      assert all[|all| - 1] == b;
      assert messages[|fate|..|fate| + n] == messages[|fate|..|fate| + n - 1] + [messages[|fate| + n - 1]];
    }
  }

  lemma {:induction false} ChosenAlike(messages: seq<Message>, more: seq<Message>, fate: seq<bool>, handed: bool)
    requires |fate| <= |messages|
    ensures Chosen(messages + more, fate, handed) == Chosen(messages, fate, handed)
  {
    if fate != [] {
      ChosenAlike(messages, more, fate[..|fate| - 1], handed);
    }
  }

  lemma TakeAccounts(q: Queue, produced: seq<Message>, fate: seq<bool>, n: nat)
    requires Accounts(q, produced, fate) && n <= |q.waiting|
    ensures Accounts(TakeFront(q, n), produced, fate + Repeated(true, n))
  {
    hide Chosen;
    ChosenRun(produced, fate, true, n);
    assert produced[|fate|..][..n] == produced[|fate|..|fate| + n];
  }

  lemma AppendAccounts(q: Queue, produced: seq<Message>, fate: seq<bool>, batch: seq<Message>)
    requires Accounts(q, produced, fate)
    ensures Accounts(Append(q, batch), produced + batch, fate)
  {
    ChosenAlike(produced, batch, fate, true);
    ChosenAlike(produced, batch, fate, false);
    hide Chosen;
  }

  function Excess(q: Queue, capacity: nat): nat { if |q.waiting| <= capacity then 0 else |q.waiting| - capacity }

  lemma DropAccounts(q: Queue, produced: seq<Message>, fate: seq<bool>, capacity: nat)
    requires Accounts(q, produced, fate)
    ensures Accounts(DropOldest(q, capacity), produced, fate + Repeated(false, Excess(q, capacity)))
  {
    hide Chosen;
    ChosenRun(produced, fate, false, Excess(q, capacity));
  }

  // --- the operations ---------------------------------------------------------------------------------------------

  // sendUnsentReplies(), where the ring has room for `available` and grants at most `granted`
  function SendUnsent(q: Queue, available: nat, granted: nat): Queue {
    TakeFront(q, Min(Min(|q.waiting|, available), granted))
  }

  // sendReply(); `free` says that the ring grants one place once the unsent replies have gone
  function Send(q: Queue, reply: Message, available: nat, granted: nat, free: bool, capacity: nat): Queue {
    var q1 := SendUnsent(q, available, granted);
    if q1.waiting == [] && free then q1.(taken := q1.taken + [reply]) else DropOldest(Append(q1, [reply]), capacity)
  }

  // drainLocked()
  function Drain(q: Queue, batch: seq<Message>): Queue { DropOldest(Append(q, batch), MAX_PENDING_EVENTS) }

  // pollEvents()
  function Poll(q: Queue, batch: seq<Message>, maxEvents: nat): Queue {
    var q1 := Drain(q, batch);
    TakeFront(q1, Min(maxEvents, |q1.waiting|))
  }

  datatype Operation =
    | SendOp(reply: Message, available: nat, granted: nat, free: bool)
    | SendUnsentOp(available: nat, granted: nat)
    | DrainOp(batch: seq<Message>)
    | PollOp(batch: seq<Message>, maxEvents: nat)
  {
    function Produces(): seq<Message> {
      match this
      case SendOp(reply, _, _, _) => [reply]
      case SendUnsentOp(_, _) => []
      case DrainOp(batch) => batch
      case PollOp(batch, _) => batch
    }
  }

  function Apply(q: Queue, op: Operation, capacity: nat): Queue {
    match op
    case SendOp(reply, available, granted, free) => Send(q, reply, available, granted, free, capacity)
    case SendUnsentOp(available, granted) => SendUnsent(q, available, granted)
    case DrainOp(batch) => Drain(q, batch)
    case PollOp(batch, maxEvents) => Poll(q, batch, maxEvents)
  }

  function ApplyAll(q: Queue, ops: seq<Operation>, capacity: nat): Queue {
    if ops == [] then q else Apply(ApplyAll(q, ops[..|ops| - 1], capacity), ops[|ops| - 1], capacity)
  }

  function ProducedBy(ops: seq<Operation>): seq<Message> {
    if ops == [] then [] else ProducedBy(ops[..|ops| - 1]) + ops[|ops| - 1].Produces()
  }

  lemma SendAccounts(q: Queue, produced: seq<Message>, fate: seq<bool>, op: Operation, capacity: nat)
    requires Accounts(q, produced, fate) && op.SendOp?
    ensures exists f :: Accounts(Apply(q, op, capacity), produced + [op.reply], f)
  {
    hide Accounts;
    var n := Min(Min(|q.waiting|, op.available), op.granted);
    var q1, f1 := SendUnsent(q, op.available, op.granted), fate + Repeated(true, n);
    TakeAccounts(q, produced, fate, n);
    AppendAccounts(q1, produced, f1, [op.reply]);
    var q2 := Append(q1, [op.reply]);
    if q1.waiting == [] && op.free {
      TakeAccounts(q2, produced + [op.reply], f1, 1);
      assert TakeFront(q2, 1) == Apply(q, op, capacity);
    } else {
      DropAccounts(q2, produced + [op.reply], f1, capacity);
      assert Accounts(Apply(q, op, capacity), produced + [op.reply], f1 + Repeated(false, Excess(q2, capacity)));
    }
  }

  lemma DrainAccounts(q: Queue, produced: seq<Message>, fate: seq<bool>, batch: seq<Message>)
    requires Accounts(q, produced, fate)
    ensures exists f :: Accounts(Drain(q, batch), produced + batch, f)
  {
    hide Accounts;
    AppendAccounts(q, produced, fate, batch);
    DropAccounts(Append(q, batch), produced + batch, fate, MAX_PENDING_EVENTS);
    var n := Excess(Append(q, batch), MAX_PENDING_EVENTS);
    assert Accounts(Drain(q, batch), produced + batch, fate + Repeated(false, n));
  }

  lemma ApplyAccounts(q: Queue, produced: seq<Message>, fate: seq<bool>, op: Operation, capacity: nat)
    requires Accounts(q, produced, fate)
    ensures exists f :: Accounts(Apply(q, op, capacity), produced + op.Produces(), f)
  {
    hide Accounts, DropOldest;
    match op {
      case SendOp(reply, _, _, _) =>
        SendAccounts(q, produced, fate, op, capacity);
        var f :| Accounts(Apply(q, op, capacity), produced + [reply], f);
        assert Accounts(Apply(q, op, capacity), produced + op.Produces(), f);
      case SendUnsentOp(available, granted) =>
        var n := Min(Min(|q.waiting|, available), granted);
        TakeAccounts(q, produced, fate, n);
        assert produced + [] == produced;
        assert Accounts(Apply(q, op, capacity), produced + op.Produces(), fate + Repeated(true, n));
      case DrainOp(batch) =>
        DrainAccounts(q, produced, fate, batch);
        var f :| Accounts(Drain(q, batch), produced + batch, f);
        assert Accounts(Apply(q, op, capacity), produced + op.Produces(), f);
      case PollOp(batch, maxEvents) =>
        DrainAccounts(q, produced, fate, batch);
        var f :| Accounts(Drain(q, batch), produced + batch, f);
        var n := Min(maxEvents, |Drain(q, batch).waiting|);
        TakeAccounts(Drain(q, batch), produced + batch, f, n);
        assert Accounts(Apply(q, op, capacity), produced + op.Produces(), f + Repeated(true, n));
    }
  }

  // Over every sequence of operations and whatever room the ring has, no message is lost unaccounted or out of order.
  lemma {:induction false} EveryRunAccounts(ops: seq<Operation>, capacity: nat)
    ensures exists fate :: Accounts(ApplyAll(Queue([], [], 0), ops, capacity), ProducedBy(ops), fate)
  {
    if ops == [] {
      assert Accounts(ApplyAll(Queue([], [], 0), ops, capacity), ProducedBy(ops), []);
    } else {
      var before := ops[..|ops| - 1];
      EveryRunAccounts(before, capacity);
      var fate :| Accounts(ApplyAll(Queue([], [], 0), before, capacity), ProducedBy(before), fate);
      var q, last := ApplyAll(Queue([], [], 0), before, capacity), ops[|ops| - 1];
      ApplyAccounts(q, ProducedBy(before), fate, last, capacity);
      hide Accounts, Apply;
      var f :| Accounts(Apply(q, last, capacity), ProducedBy(before) + last.Produces(), f);
      assert Accounts(ApplyAll(Queue([], [], 0), ops, capacity), ProducedBy(ops), f);
    }
  }

  predicate OfReplies(op: Operation) { op.SendOp? || op.SendUnsentOp? }

  predicate OfEvents(op: Operation) { op.DrainOp? || op.PollOp? }

  // the replies of a message handler, which never wait in greater number than the queue takes
  lemma {:induction false} RepliesOverAllRuns(ops: seq<Operation>, capacity: nat)
    requires forall i :: 0 <= i < |ops| ==> OfReplies(ops[i])
    ensures |ApplyAll(Queue([], [], 0), ops, capacity).waiting| <= capacity
    ensures exists fate :: Accounts(ApplyAll(Queue([], [], 0), ops, capacity), ProducedBy(ops), fate)
  {
    hide Accounts;
    EveryRunAccounts(ops, capacity);
    if ops != [] {
      var before := ops[..|ops| - 1];
      RepliesOverAllRuns(before, capacity);
    }
  }

  // the events of a runtime, likewise
  lemma {:induction false} EventsOverAllRuns(ops: seq<Operation>, capacity: nat)
    requires forall i :: 0 <= i < |ops| ==> OfEvents(ops[i])
    ensures |ApplyAll(Queue([], [], 0), ops, capacity).waiting| <= MAX_PENDING_EVENTS
    ensures exists fate :: Accounts(ApplyAll(Queue([], [], 0), ops, capacity), ProducedBy(ops), fate)
  {
    hide Accounts;
    EveryRunAccounts(ops, capacity);
    if ops != [] {
      var before := ops[..|ops| - 1];
      EventsOverAllRuns(before, capacity);
    }
  }

  // A send leaves at most the capacity waiting, the newest of what waited and the reply, and drops nothing unless the
  // queue is full.
  lemma SendKeepsCapacity(q: Queue, reply: Message, available: nat, granted: nat, free: bool, capacity: nat)
    ensures var q', all := Send(q, reply, available, granted, free, capacity), q.waiting + [reply];
            && |q'.waiting| <= capacity && q'.waiting == all[|all| - |q'.waiting|..]
            && (q'.nDropped > q.nDropped ==> |q'.waiting| == capacity)
            && (|q.waiting| <= capacity ==> q'.nDropped <= q.nDropped + 1)
  {
  }

  ghost predicate IsLeast(n: int, of: set<int>) { n in of && forall m :: m in of ==> n <= m }

  // The oldest of what waits go, as many as there is room and the ring grants, and nothing else changes.
  lemma UnsentGo(q: Queue, available: nat, granted: nat)
    ensures var q' := SendUnsent(q, available, granted);
            var n := |q'.taken| - |q.taken|;
            && IsLeast(n, {|q.waiting|, available, granted})
            && q'.taken == q.taken + q.waiting[..n] && q'.waiting == q.waiting[n..] && q'.nDropped == q.nDropped
    ensures |q.waiting| <= available && |q.waiting| <= granted ==>
      SendUnsent(q, available, granted) == Queue([], q.taken + q.waiting, q.nDropped)
  {
    assert q.waiting[..|q.waiting|] == q.waiting;
  }

  // A send hands on what waits, as far as there is room, and the reply too exactly when all of that has gone and a
  // place is free. What is left waits, but for the oldest beyond the capacity, which are dropped and counted.
  lemma SendGoes(q: Queue, reply: Message, available: nat, granted: nat, free: bool, capacity: nat)
    ensures var q', all := Send(q, reply, available, granted, free, capacity), q.waiting + [reply];
            var n, d := |q'.taken| - |q.taken|, q'.nDropped - q.nDropped;
            && 0 <= n <= |all| && 0 <= d <= |all| - n
            && (n == |all| <==> free && |q.waiting| <= available && |q.waiting| <= granted)
            && (n < |all| ==> IsLeast(n, {|q.waiting|, available, granted}))
            && (d == if |all| - n <= capacity then 0 else |all| - n - capacity)
            && q'.taken == q.taken + all[..n] && q'.waiting == all[n + d..]
  {
    hide SendUnsent, IsLeast;
    var all, q1 := q.waiting + [reply], SendUnsent(q, available, granted);
    var n := |q1.taken| - |q.taken|;
    UnsentGo(q, available, granted);
    LeastIs(n, |q.waiting|, available, granted);
    if n == |q.waiting| && free {
      assert q.taken + q.waiting[..n] + [reply] == q.taken + all[..n + 1];
    } else {
      assert all[..n] == q.waiting[..n] && all[n..] == q1.waiting + [reply];
      var d := Excess(Append(q1, [reply]), capacity);
      assert all[n..][d..] == all[n + d..];
    }
  }

  lemma LeastIs(n: nat, a: nat, b: nat, c: nat)
    requires IsLeast(n, {a, b, c})
    ensures n <= a && n <= b && n <= c && (n == a || n == b || n == c)
  {
  }

  // Once the ring has room for as many as may wait, every reply not dropped is handed on, whatever came before.
  lemma RoomEmptiesTheQueue(ops: seq<Operation>, capacity: nat, available: nat, granted: nat)
    requires forall i :: 0 <= i < |ops| ==> OfReplies(ops[i])
    requires capacity <= available && capacity <= granted
    ensures var q' := SendUnsent(ApplyAll(Queue([], [], 0), ops, capacity), available, granted);
            q'.waiting == [] && |q'.taken| + q'.nDropped == |ProducedBy(ops)|
  {
    var q := ApplyAll(Queue([], [], 0), ops, capacity);
    RepliesOverAllRuns(ops, capacity);
    var fate :| Accounts(q, ProducedBy(ops), fate);
    NothingIsLost(q, ProducedBy(ops), fate);
    UnsentGo(q, available, granted);
  }

  // A poll takes in the batch, drops the oldest beyond the cap, and returns the oldest of the others, as many as asked
  // for and there are.
  lemma PollTakes(q: Queue, batch: seq<Message>, maxEvents: nat)
    ensures var q', all := Poll(q, batch, maxEvents), q.waiting + batch;
            var n, d := |q'.taken| - |q.taken|, q'.nDropped - q.nDropped;
            && (d == if |all| <= MAX_PENDING_EVENTS then 0 else |all| - MAX_PENDING_EVENTS)
            && IsLeast(n, {maxEvents, |all| - d})
            && q'.taken == q.taken + all[d..d + n] && q'.waiting == all[d + n..]
  {
    var all, q1 := q.waiting + batch, Drain(q, batch);
    var d, n := q1.nDropped - q.nDropped, Min(maxEvents, |q1.waiting|);
    assert all[d..] == q1.waiting && all[d..][..n] == all[d..d + n];
  }

  // Messages drained in several batches are the messages drained at once.
  lemma DrainsCompose(q: Queue, a: seq<Message>, b: seq<Message>)
    ensures Drain(Drain(q, a), b).waiting == Drain(q, a + b).waiting
    ensures Drain(Drain(q, a), b).nDropped == Drain(q, a + b).nDropped
  {
    var all := q.waiting + (a + b);
    assert q.waiting + a + b == all;
    var first := Drain(q, a).waiting;
    assert first + b == all[|all| - |first + b|..];
  }

  // --- in place ---------------------------------------------------------------------------------------------------

  // The ring's writer: what it has published, the room it reports, and the places a reservation gets.
  class ReplyQueue {
    var unsentReplies: seq<Message>
    var published: seq<Message>
    var droppedMessageCount: nat

    ghost function Now(): Queue
      reads this
    {
      Queue(unsentReplies, published, droppedMessageCount)
    }

    method SendUnsentReplies(available: nat, granted: nat)
      modifies this
      ensures Now() == SendUnsent(old(Now()), available, granted)
      ensures old(|unsentReplies|) <= available && old(|unsentReplies|) <= granted ==>
        unsentReplies == [] && published == old(published) + old(unsentReplies)
    {
      UnsentGo(Now(), available, granted);
      if unsentReplies == [] {
        return;
      }
      var nFit := Min(|unsentReplies|, available);
      if nFit == 0 {
        return;
      }
      var nSent := Min(nFit, granted);
      published := published + unsentReplies[..nSent];
      unsentReplies := unsentReplies[nSent..];
    }

    method SendReply(reply: Message, available: nat, granted: nat, free: bool, capacity: nat)
      modifies this
      ensures Now() == Send(old(Now()), reply, available, granted, free, capacity)
      ensures old(|unsentReplies|) <= available && old(|unsentReplies|) <= granted && free ==>
        unsentReplies == [] && published == old(published) + old(unsentReplies) + [reply]
    {
      SendUnsentReplies(available, granted);
      if unsentReplies == [] && free {
        published := published + [reply];
        return;
      }
      unsentReplies := unsentReplies + [reply];
      if |unsentReplies| > capacity {
        var nDropped := |unsentReplies| - capacity;
        unsentReplies := unsentReplies[nDropped..];
        droppedMessageCount := droppedMessageCount + nDropped;
      }
    }
  }

  class EventQueue {
    var pending: seq<Message>
    ghost var polled: seq<Message>
    ghost var nDropped: nat

    ghost function Now(): Queue
      reads this
    {
      Queue(pending, polled, nDropped)
    }

    method DrainLocked(messages: seq<Message>)
      modifies this
      ensures Now() == Drain(old(Now()), messages)
    {
      for i := 0 to |messages|
        invariant pending == old(pending) + messages[..i] && polled == old(polled) && nDropped == old(nDropped)
      {
        pending := pending + [messages[i]];
      }
      assert messages[..|messages|] == messages;
      DropFront();
    }

    method DropFront()
      modifies `pending, `nDropped
      ensures Now() == DropOldest(old(Now()), MAX_PENDING_EVENTS)
    {
      ghost var dropped := 0;
      while |pending| > MAX_PENDING_EVENTS
        invariant dropped <= Excess(old(Now()), MAX_PENDING_EVENTS)
        invariant pending == old(pending)[dropped..] && nDropped == old(nDropped) + dropped
      {
        pending := pending[1..];
        dropped := dropped + 1;
        nDropped := nDropped + 1;
      }
    }

    method PollEvents(messages: seq<Message>, maxEvents: nat) returns (events: seq<Message>)
      modifies this
      ensures Now() == Poll(old(Now()), messages, maxEvents)
      ensures polled == old(polled) + events
    {
      DrainLocked(messages);
      ghost var drained := Now();
      var nEvents := Min(maxEvents, |pending|);
      events := [];
      for i := 0 to nEvents
        invariant nEvents <= |drained.waiting| && pending == drained.waiting[i..] && events == drained.waiting[..i]
        invariant polled == drained.taken + events && nDropped == drained.nDropped
      {
        events := events + [pending[0]];
        polled := polled + [pending[0]];
        pending := pending[1..];
      }
    }
  }
}
