/**
 What the steps of core/src/Runtime.cpp:204-261 and :590-640 add up to over a run, told from the steps alone: which runs
 were begun, asked to stop, told to stop and ended, and when each call of a client returns.
 */
module RunHistory {
  import opened Wrappers
  import opened RunProtocol

  // A run is begun by a call that finds none in progress. A start() that has to join an ended run's thread begins it
  // past the join.
  predicate Begins(s: State, step: Step) {
    || (step.RunAndWait? && s.ended == s.started)
    || (step.Start? && s.ended == s.started && !Joinable(s, RunThread))
    || step.JoinRunThread?
  }

  predicate LaunchFails(s: State, step: Step) { Begins(s, step) && !step.RunAndWait? && step.failure.Some? }

  // the outcome a step brings: of the scheduler call that returns, or of the thread that did not start
  function Brings(s: State, step: Step): seq<Outcome> {
    if step.SchedulerReturns? then [step.outcome]
    else if LaunchFails(s, step) then [Failure(step.failure.value)]
    else []
  }

  predicate Ends(s: State, step: Step) {
    (step.SchedulerReturns? && !s.requestingStop) || step.EndRun? || LaunchFails(s, step)
  }

  predicate Asks(s: State, step: Step) { step.Stop? && s.ended < s.started && s.stoppedRun != s.started }

  // a poll that sees an active scheduler whose call has not returned
  predicate Delivers(s: State, step: Step) { step.PollRequest? && step.active && s.returned < s.started }

  predicate Concludes(s: State, step: Step) {
    step.TransitionReturns? || (step.PollRequest? && s.returned == s.started)
  }

  // --- what one step writes ---------------------------------------------------------------------------------------

  lemma CountersMove(s: State, step: Step)
    requires Inv(s) && Enabled(s, step)
    ensures Next(s, step).started == s.started + if Begins(s, step) then 1 else 0
    ensures Next(s, step).returned == s.returned + |Brings(s, step)|
    ensures Next(s, step).ended == s.ended + if Ends(s, step) then 1 else 0
  {
    hide TransitionsOnce, OutcomesKept, OneRequest;
  }

  lemma RequestsMove(s: State, step: Step)
    requires Inv(s) && Enabled(s, step)
    ensures Next(s, step).stoppedRun == if Asks(s, step) then s.started else s.stoppedRun
    ensures Next(s, step).requestingStop == (Asks(s, step) || (s.requestingStop && !Concludes(s, step)))
    ensures Asks(s, step) ==> !s.requestingStop
    ensures Concludes(s, step) ==> s.requestingStop
  {
    hide TransitionsOnce, OutcomesKept, OneRunner;
    assert step.PollRequest? || step.TransitionReturns? ==> Requests(At(s, Actor(step)));
  }

  // The transition is made at a poll that delivers, for the run in progress, and at no other step.
  lemma TransitionsMove(s: State, step: Step)
    requires Inv(s) && Enabled(s, step)
    ensures Next(s, step).transitions == s.transitions + if Delivers(s, step) then [s.started] else []
  {
    hide TransitionsOnce, OutcomesKept, OneRunner, ThreadsInRole;
    assert step.PollRequest? ==> Requests(At(s, Actor(step)));
  }

  // A refused start, a stop with no run in progress, and a poll of an inactive scheduler before its call has returned
  // write nothing.
  lemma WritesNothing(s: State, step: Step)
    requires Inv(s) && Enabled(s, step)
    requires || ((step.RunAndWait? || step.Start?) && s.ended != s.started)
             || (step.Stop? && s.ended == s.started)
             || (step.PollRequest? && !step.active && s.returned < s.started)
    ensures Next(s, step) == s
  {
    hide TransitionsOnce, OutcomesKept, OneRunner, ThreadsInRole;
    assert step.PollRequest? ==> Requests(At(s, Actor(step)));
  }

  // --- when a call returns ----------------------------------------------------------------------------------------

  // the call a thread is inside of, and the run it is about
  datatype Call = NoCall | RunCall(run: nat) | StartCall | StopCall(run: nat)

  function CallOf(p: Place): Call {
    match p
    case Calling(run) => RunCall(run)
    case Ending(run, _) => RunCall(run)
    case JoiningRun => StartCall
    case Starting(_) => StartCall
    case JoiningStop(run) => StopCall(run)
    case Requesting(run) => StopCall(run)
    case Transitioning(run) => StopCall(run)
    case Awaiting(run) => StopCall(run)
    case _ => NoCall
  }

  // A client outside every call enters one unless the call is refused or has nothing to wait for.
  lemma CallEntered(s: State, step: Step, c: nat)
    requires Inv(s) && Enabled(s, step) && Actor(step) == Client(c) && At(s, Client(c)).Idle?
    ensures CallOf(At(Next(s, step), Client(c))) ==
      if step.Stop? then if s.ended < s.started then StopCall(s.started) else NoCall
      else if s.ended < s.started || LaunchFails(s, step) then NoCall
      else if step.RunAndWait? then RunCall(s.started + 1)
      else StartCall
  {
    hide TransitionsOnce, OutcomesKept, OneRequest;
  }

  predicate Leaves(s: State, step: Step, call: Call) {
    match call
    case NoCall => false
    case RunCall(_) => Ends(s, step)
    case StartCall => step.PollStart? || LaunchFails(s, step)
    case StopCall(_) => step.AwaitEnded? || step.AwaitTimeout?
  }

  // runAndWait() returns with the step that ends its run, start() when its thread does not start or its run is active
  // or has returned, and stop() at the end of the run it waits for or at its timeout. No other step leaves a call.
  lemma CallLeft(s: State, step: Step, c: nat)
    requires Inv(s) && Enabled(s, step) && CallOf(At(s, Client(c))) != NoCall
    ensures var call, call' := CallOf(At(s, Client(c))), CallOf(At(Next(s, step), Client(c)));
            if Actor(step) == Client(c) && Leaves(s, step, call) then call' == NoCall else call' == call
    ensures step.PollStart? && !step.active ==> At(s, Actor(step)).Starting? && s.returned >= At(s, Actor(step)).run
    ensures step.AwaitEnded? && Actor(step) == Client(c) ==> s.ended >= CallOf(At(s, Client(c))).run
  {
    hide TransitionsOnce, OutcomesKept, CountersInOrder;
    if OfRun(step) { RunOthersStay(s, step); } else { StopOthersStay(s, step); }
  }

  // start()'s run is its thread's, and a request is the stop thread's or, when that did not start, the client's own.
  lemma LaunchesItsThread(s: State, step: Step)
    requires Inv(s) && Enabled(s, step)
    ensures Begins(s, step) && !step.RunAndWait? && !LaunchFails(s, step) ==>
      && At(Next(s, step), RunThread) == Calling(s.started + 1)
      && At(Next(s, step), Actor(step)) == Starting(s.started + 1)
    ensures (Asks(s, step) && !Joinable(s, StopThread)) || step.JoinStopThread? ==>
      && At(Next(s, step), if step.threadStarts then StopThread else Actor(step)) == Requesting(s.started)
      && (step.threadStarts ==> At(Next(s, step), Actor(step)) == Awaiting(s.started))
    ensures step.Start? && s.ended == s.started && Joinable(s, RunThread) ==>
      At(Next(s, step), Actor(step)).JoiningRun? && Next(s, step).holder == Some(step.c)
    ensures Asks(s, step) && Joinable(s, StopThread) ==>
      At(Next(s, step), Actor(step)) == JoiningStop(s.started) && Next(s, step).holder == Some(step.c)
  {
    hide TransitionsOnce, OutcomesKept, OneRunner;
    assert step.JoinStopThread? ==> Requests(At(s, Actor(step)));
  }

  // --- over every execution ---------------------------------------------------------------------------------------

  // the runs told to stop by the steps from a state, in order
  ghost function Delivered(s: State, steps: seq<Step>): seq<nat>
    decreases |steps|
  {
    if steps == [] || !Enabled(s, steps[0]) then []
    else (if Delivers(s, steps[0]) then [s.started] else []) + Delivered(Next(s, steps[0]), steps[1..])
  }

  // the runs a stop was asked for
  ghost function Asked(s: State, steps: seq<Step>): seq<nat>
    decreases |steps|
  {
    if steps == [] || !Enabled(s, steps[0]) then []
    else (if Asks(s, steps[0]) then [s.started] else []) + Asked(Next(s, steps[0]), steps[1..])
  }

  // the outcomes brought, in order
  ghost function Brought(s: State, steps: seq<Step>): seq<Outcome>
    decreases |steps|
  {
    if steps == [] || !Enabled(s, steps[0]) then []
    else Brings(s, steps[0]) + Brought(Next(s, steps[0]), steps[1..])
  }

  ghost function Begun(s: State, steps: seq<Step>): nat
    decreases |steps|
  {
    if steps == [] || !Enabled(s, steps[0]) then 0
    else (if Begins(s, steps[0]) then 1 else 0) + Begun(Next(s, steps[0]), steps[1..])
  }

  lemma {:induction false} HistoryAdds(s: State, steps: seq<Step>, s': State)
    requires Inv(s) && Execution(s, steps, s')
    ensures s'.transitions == s.transitions + Delivered(s, steps)
    ensures s'.started == s.started + Begun(s, steps)
    ensures s'.returned == s.returned + |Brought(s, steps)|
    ensures s'.stoppedRun == if Asked(s, steps) == [] then s.stoppedRun else Asked(s, steps)[|Asked(s, steps)| - 1]
    decreases |steps|
  {
    hide Inv, Next, Enabled, Begins, Asks, Delivers, Brings;
    if steps != [] {
      var step, next := steps[0], Next(s, steps[0]);
      CountersMove(s, step);
      RequestsMove(s, step);
      TransitionsMove(s, step);
      StepKeepsInv(s, step);
      HistoryAdds(next, steps[1..], s');
    }
  }

  // The outcomes of the ended runs are those brought, in order. The one not stored yet is with the thread that ends
  // its run.
  ghost predicate OutcomesOf(s: State, brought: seq<Outcome>) {
    && |brought| == s.returned && s.ended <= s.returned
    && s.outcomes == brought[..s.ended]
    && (forall t :: At(s, t).Ending? ==> s.ended < s.returned && At(s, t).outcome == brought[s.ended])
  }

  // A run asked to stop was told to, or its scheduler call had returned, or its request is still in flight. A run told
  // to stop was asked to, and so was one a stop() waits for.
  ghost predicate RequestsDeliver(s: State, asked: seq<nat>) {
    && (forall r :: r in asked ==> r in s.transitions || r <= s.returned || (r == s.started && s.requestingStop))
    && (forall r :: r in s.transitions ==> r in asked)
    && (forall t :: At(s, t).Transitioning? ==> At(s, t).run in s.transitions)
    && (forall t :: CallOf(At(s, t)).StopCall? ==> CallOf(At(s, t)).run in asked)
    && (0 < s.stoppedRun ==> s.stoppedRun in asked)
  }

  // which threads hold an outcome after a step
  ghost predicate HoldsAfter(s: State, step: Step, t: Thread)
    requires Enabled(s, step)
  {
    && (At(s, t) == At(Next(s, step), t)
        || (step.SchedulerReturns? && s.requestingStop && step.outcome == At(Next(s, step), t).outcome))
    && (At(s, t) == At(Next(s, step), t) ==> Brings(s, step) == [] && !Ends(s, step))
  }

  lemma RunEndingAfter(s: State, step: Step, t: Thread)
    requires Inv(s) && Enabled(s, step) && OfRun(step) && At(Next(s, step), t).Ending?
    ensures HoldsAfter(s, step, t)
  {
    hide TransitionsOnce, OutcomesKept, OneRequest, CountersInOrder;
    assert step.SchedulerReturns? || step.EndRun? ==> Runs(At(s, Actor(step)));
    assert At(s, t).Ending? ==> Runs(At(s, t));
  }

  lemma StopEndingAfter(s: State, step: Step, t: Thread)
    requires Enabled(s, step) && !OfRun(step) && At(Next(s, step), t).Ending?
    ensures HoldsAfter(s, step, t)
  {
    hide LaunchRun, FinishRun;
  }

  lemma EndingAfter(s: State, step: Step, t: Thread)
    requires Inv(s) && Enabled(s, step) && At(Next(s, step), t).Ending?
    ensures HoldsAfter(s, step, t)
  {
    hide Inv, Enabled, Next, HoldsAfter;
    if OfRun(step) { RunEndingAfter(s, step, t); } else { StopEndingAfter(s, step, t); }
  }

  // the outcome a step stores
  lemma OutcomesMove(s: State, step: Step)
    requires Inv(s) && Enabled(s, step)
    ensures Next(s, step).outcomes == s.outcomes +
      if !Ends(s, step) then []
      else if step.EndRun? then [At(s, step.t).outcome]
      else Brings(s, step)
    ensures step.EndRun? ==> At(s, step.t).Ending? && Ends(s, step)
  {
    hide TransitionsOnce, OutcomesKept, OneRequest, OneRunner;
  }

  // an outcome is brought only while every earlier one has been stored
  lemma BringsNext(s: State, step: Step)
    requires Inv(s) && Enabled(s, step) && Brings(s, step) != []
    ensures s.ended == s.returned && |Brings(s, step)| == 1 && (Ends(s, step) ==> !step.EndRun?)
  {
    hide TransitionsOnce, OutcomesKept, OneRequest;
    assert step.SchedulerReturns? ==> Runs(At(s, Actor(step)));
  }

  lemma StepKeepsOutcomes(s: State, step: Step, brought: seq<Outcome>)
    requires Inv(s) && Enabled(s, step) && OutcomesOf(s, brought)
    ensures OutcomesOf(Next(s, step), brought + Brings(s, step))
  {
    var s', brought' := Next(s, step), brought + Brings(s, step);
    CountersMove(s, step);
    OutcomesMove(s, step);
    StepKeepsInv(s, step);
    assert CountersInOrder(s');
    if Brings(s, step) != [] { BringsNext(s, step); }
    hide Inv, Enabled, Next, Begins, LaunchFails, Brings, Ends, At, CountersInOrder;
    assert s'.outcomes == brought'[..s'.ended];
    forall t | At(s', t).Ending?
      ensures s'.ended < s'.returned && At(s', t).outcome == brought'[s'.ended]
    {
      EndingAfter(s, step, t);
      assert At(s, t) == At(s', t) ==> brought' == brought;
    }
  }

  // the stop calls and transitions under way after a step
  lemma StopsUnderWay(s: State, step: Step, t: Thread)
    requires Inv(s) && Enabled(s, step)
    ensures CallOf(At(Next(s, step), t)).StopCall? ==>
      || CallOf(At(s, t)) == CallOf(At(Next(s, step), t))
      || (CallOf(At(Next(s, step), t)).run == s.started && 0 < s.started
          && (s.stoppedRun == s.started || Asks(s, step)))
    ensures At(Next(s, step), t).Transitioning? ==>
      At(s, t) == At(Next(s, step), t) || (Delivers(s, step) && At(Next(s, step), t).run == s.started)
  {
    hide TransitionsOnce, OutcomesKept, OneRunner;
    assert step.PollRequest? || step.JoinStopThread? ==> Requests(At(s, Actor(step)));
  }

  // a request concluded has told its run to stop, or found its scheduler call returned
  lemma ConcludesDelivered(s: State, step: Step, asked: seq<nat>)
    requires Inv(s) && Enabled(s, step) && RequestsDeliver(s, asked) && Concludes(s, step)
    ensures s.started in s.transitions || s.started <= s.returned
  {
    hide TransitionsOnce, OutcomesKept, OneRunner, ThreadsInRole;
    assert step.PollRequest? || step.TransitionReturns? ==> Requests(At(s, Actor(step)));
  }

  // a run begins with no request in flight
  lemma BeginsUnasked(s: State, step: Step)
    requires Inv(s) && Enabled(s, step) && s.requestingStop
    ensures !Begins(s, step) && Next(s, step).started == s.started
  {
    CountersMove(s, step);
    hide TransitionsOnce, OutcomesKept, OneRunner;
    var t :| Requests(At(s, t));
  }

  lemma StepKeepsDelivery(s: State, step: Step, asked: seq<nat>)
    requires Inv(s) && Enabled(s, step) && RequestsDeliver(s, asked)
    ensures RequestsDeliver(Next(s, step), asked + if Asks(s, step) then [s.started] else [])
  {
    var s', asked' := Next(s, step), asked + if Asks(s, step) then [s.started] else [];
    CountersMove(s, step);
    RequestsMove(s, step);
    TransitionsMove(s, step);
    if Concludes(s, step) { ConcludesDelivered(s, step, asked); }
    if s.requestingStop { BeginsUnasked(s, step); }
    DeliversAsked(s, step, asked);
    hide Inv, Enabled, Next, Begins, Concludes, Delivers, Asks, Brings, Ends, At, CallOf;
    forall t
      ensures CallOf(At(s', t)).StopCall? ==> CallOf(At(s', t)).run in asked'
      ensures At(s', t).Transitioning? ==> At(s', t).run in s'.transitions
    {
      StopsUnderWay(s, step, t);
    }
  }

  lemma DeliversAsked(s: State, step: Step, asked: seq<nat>)
    requires Inv(s) && Enabled(s, step) && RequestsDeliver(s, asked)
    ensures Delivers(s, step) ==> s.started in asked
    ensures s.requestingStop ==> s.started in asked
    ensures Asks(s, step) ==> 0 < s.started
  {
    hide TransitionsOnce, OutcomesKept, OneRunner, ThreadsInRole;
    assert step.PollRequest? ==> Requests(At(s, Actor(step)));
    if s.requestingStop { var t :| Requests(At(s, t)); }
  }

  lemma {:induction false} ExecutionDelivers(s: State, steps: seq<Step>, s': State, brought: seq<Outcome>,
                                             asked: seq<nat>)
    requires Inv(s) && Execution(s, steps, s') && OutcomesOf(s, brought) && RequestsDeliver(s, asked)
    ensures OutcomesOf(s', brought + Brought(s, steps)) && RequestsDeliver(s', asked + Asked(s, steps))
    decreases |steps|
  {
    hide Inv, Next, Enabled, OutcomesOf, RequestsDeliver, Asks, Brings;
    if steps == [] {
      assert brought + Brought(s, steps) == brought && asked + Asked(s, steps) == asked;
    } else {
      var step, next := steps[0], Next(s, steps[0]);
      var asks := if Asks(s, step) then [s.started] else [];
      StepKeepsInv(s, step);
      StepKeepsOutcomes(s, step, brought);
      StepKeepsDelivery(s, step, asked);
      ExecutionDelivers(next, steps[1..], s', brought + Brings(s, step), asked + asks);
      assert brought + Brought(s, steps) == brought + Brings(s, step) + Brought(next, steps[1..]);
      assert asked + Asked(s, steps) == asked + asks + Asked(next, steps[1..]);
    }
  }

  // Over every interleaving: the runs told to stop are those a poll found active with their scheduler call not
  // returned, in order, and each had been asked to stop. A run asked to stop is told to, or its scheduler call returns,
  // before its request ends. A stop() waits only for a run that was asked to stop.
  lemma StopsOverAllRuns(steps: seq<Step>, s: State)
    requires Execution(Initial, steps, s)
    ensures s.transitions == Delivered(Initial, steps)
    ensures forall r :: r in s.transitions ==> r in Asked(Initial, steps)
    ensures forall r :: r in Asked(Initial, steps) ==>
      r in s.transitions || r <= s.returned || (r == s.started && s.requestingStop)
    ensures forall t :: CallOf(At(s, t)).StopCall? ==> CallOf(At(s, t)).run in Asked(Initial, steps)
    ensures forall t :: At(s, t).Transitioning? ==> At(s, t).run in s.transitions
  {
    InitialInv();
    HistoryAdds(Initial, steps, s);
    ExecutionDelivers(Initial, steps, s, [], []);
    assert [] + Asked(Initial, steps) == Asked(Initial, steps);
    assert Initial.transitions + Delivered(Initial, steps) == Delivered(Initial, steps);
    hide Execution, Delivered, Asked, At, CallOf;
  }

  // Over every interleaving: the runs are those begun, and the outcomes stored are those brought, in order, but for one
  // whose run waits for its stop request.
  lemma OutcomesOverAllRuns(steps: seq<Step>, s: State)
    requires Execution(Initial, steps, s)
    ensures s.started == Begun(Initial, steps) && s.returned == |Brought(Initial, steps)|
    ensures s.ended <= s.returned && s.outcomes == Brought(Initial, steps)[..s.ended]
    ensures s.ended == s.started ==> s.outcomes == Brought(Initial, steps)
    ensures s.ended < s.returned ==> s.returned == s.ended + 1
  {
    InitialInv();
    HistoryAdds(Initial, steps, s);
    ExecutionKeepsInv(Initial, steps, s);
    ExecutionDelivers(Initial, steps, s, [], []);
    assert [] + Brought(Initial, steps) == Brought(Initial, steps);
    assert CountersInOrder(s);
    hide Execution, Begun, Brought, At, CallOf, Inv, RequestsDeliver;
  }
}
