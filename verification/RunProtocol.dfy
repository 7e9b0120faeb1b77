/**
 The run and stop protocol of `gr::Runtime` (core/src/Runtime.cpp).

 Client threads, the thread of start()'s run and the thread of a stop request share counters under runMutex. One step
 is one critical section. A step that joins a thread while it holds runMutex is split in two, and between the halves no
 other step that takes the mutex can happen. The scheduler's state, its calls' outcomes and thread creation are inputs
 of the steps.
 */
module RunProtocol {
  import opened Wrappers

  type RuntimeError(==, !new)

  datatype Outcome = Success | Failure(error: RuntimeError)

  // where a thread stands; every place but the two Joining ones has runMutex released
  datatype Place =
    | Idle                                  // a client outside every call
    | Calling(run: nat)                     // inside runToEnd()
    | Ending(run: nat, outcome: Outcome)    // endRun() has counted the return and waits for a stop request to return
    | JoiningRun                            // start() holds the mutex and joins runThread
    | Starting(run: nat)                    // start() polls until its run is active or has returned
    | JoiningStop(run: nat)                 // stopRun() holds the mutex and joins stopThread
    | Requesting(run: nat)                  // requestStop() between two looks at the scheduler's state
    | Transitioning(run: nat)               // requestStop() makes the transition, the mutex released
    | Awaiting(run: nat)                    // stopRun() waits for the end of the run
    | Exited                                // the thread's function has returned

  datatype Thread = Client(id: nat) | RunThread | StopThread

  // runThread and stopThread are None while not joinable. `outcomes` and `transitions` are the history: the outcome of
  // each ended run, and the run each REQUESTED_STOP transition was made for.
  datatype State = State(
    started: nat, returned: nat, ended: nat,
    stoppedRun: nat, requestingStop: bool,
    lastOutcome: Outcome,
    places: map<Thread, Place>,
    holder: Option<nat>,
    outcomes: seq<Outcome>, transitions: seq<nat>)

  function At(s: State, t: Thread): Place {
    if t in s.places then s.places[t] else if t.Client? then Idle else Exited
  }

  predicate Joinable(s: State, t: Thread) { t in s.places }

  function Put(s: State, t: Thread, p: Place): State { s.(places := s.places[t := p]) }

  function Joined(s: State, t: Thread): State { s.(places := s.places - {t}) }

  predicate RunInProgress(s: State) { s.ended != s.started }

  datatype Step =
    | RunAndWait(c: nat)
    | SchedulerReturns(t: Thread, outcome: Outcome)
    | EndRun(t: Thread)
    | Start(c: nat, failure: Option<RuntimeError>)
    | JoinRunThread(c: nat, failure: Option<RuntimeError>)
    | PollStart(c: nat, active: bool)
    | Stop(c: nat, threadStarts: bool)
    | JoinStopThread(c: nat, threadStarts: bool)
    | PollRequest(t: Thread, active: bool)
    | TransitionReturns(t: Thread)
    | AwaitEnded(c: nat)
    | AwaitTimeout(c: nat)

  const Initial: State := State(0, 0, 0, 0, false, Success, map[], None, [], [])

  function Actor(step: Step): Thread {
    match step
    case SchedulerReturns(t, _) => t
    case EndRun(t) => t
    case PollRequest(t, _) => t
    case TransitionReturns(t) => t
    case RunAndWait(c) => Client(c)
    case Start(c, _) => Client(c)
    case JoinRunThread(c, _) => Client(c)
    case PollStart(c, _) => Client(c)
    case Stop(c, _) => Client(c)
    case JoinStopThread(c, _) => Client(c)
    case AwaitEnded(c) => Client(c)
    case AwaitTimeout(c) => Client(c)
  }

  predicate IsJoin(step: Step) { step.JoinRunThread? || step.JoinStopThread? }

  // Every step needs runMutex. A join goes on in the thread that holds it once the joined thread has exited.
  predicate Enabled(s: State, step: Step) {
    var p := At(s, Actor(step));
    && s.holder == (if IsJoin(step) then Some(step.c) else None)
    && match step
       case RunAndWait(_) => p.Idle?
       case SchedulerReturns(_, _) => p.Calling?
       case EndRun(_) => p.Ending? && !s.requestingStop
       case Start(_, _) => p.Idle?
       case JoinRunThread(_, _) => p.JoiningRun? && At(s, RunThread).Exited?
       case PollStart(_, active) => p.Starting? && (active || s.returned >= p.run)
       case Stop(_, _) => p.Idle?
       case JoinStopThread(_, _) => p.JoiningStop? && At(s, StopThread).Exited?
       case PollRequest(_, _) => p.Requesting?
       case TransitionReturns(_) => p.Transitioning?
       case AwaitEnded(_) => p.Awaiting? && s.ended >= p.run
       case AwaitTimeout(_) => p.Awaiting?
  }

  // a call's thread goes back to its client, another thread's function returns
  function Done(t: Thread): Place { if t.Client? then Idle else Exited }

  function FinishRun(s: State, t: Thread, outcome: Outcome): State {
    Put(s, t, Done(t)).(lastOutcome := outcome, ended := s.ended + 1, outcomes := s.outcomes + [outcome])
  }

  // start() past the join: the failure of the thread's creation ends the run at once
  function LaunchRun(s: State, c: nat, failure: Option<RuntimeError>): State {
    var run := s.started + 1;
    var s' := s.(started := run, holder := None);
    match failure
    case None => Put(Put(s', RunThread, Calling(run)), Client(c), Starting(run))
    case Some(error) => FinishRun(s'.(returned := s'.returned + 1), Client(c), Failure(error))
  }

  // stopRun() past the join: the client makes the request itself when the thread cannot start
  function LaunchStop(s: State, c: nat, run: nat, threadStarts: bool): State {
    var s' := s.(holder := None);
    if threadStarts then Put(Put(s', StopThread, Requesting(run)), Client(c), Awaiting(run))
    else Put(s', Client(c), Requesting(run))
  }

  function FinishRequest(s: State, t: Thread, run: nat): State {
    Put(s, t, if t.Client? then Awaiting(run) else Exited).(requestingStop := false)
  }

  function Next(s: State, step: Step): State
    requires Enabled(s, step)
  {
    var t := Actor(step);
    var p := At(s, t);
    match step
    case RunAndWait(_) =>
      if RunInProgress(s) then s  // refused
      else Put(s, t, Calling(s.started + 1)).(started := s.started + 1)
    case SchedulerReturns(_, outcome) =>
      var s' := s.(returned := s.returned + 1);
      if s.requestingStop then Put(s', t, Ending(p.run, outcome)) else FinishRun(s', t, outcome)
    case EndRun(_) => FinishRun(s, t, p.outcome)
    case Start(c, failure) =>
      if RunInProgress(s) then s  // refused
      else if Joinable(s, RunThread) then Put(s, t, JoiningRun).(holder := Some(c))
      else LaunchRun(s, c, failure)
    case JoinRunThread(c, failure) => LaunchRun(Joined(s, RunThread), c, failure)
    case PollStart(_, _) => Put(s, t, Idle)
    case Stop(c, threadStarts) =>
      var run := s.started;
      if s.ended >= run then s
      else if s.stoppedRun == run then Put(s, t, Awaiting(run))
      else
        var s' := s.(stoppedRun := run, requestingStop := true);
        if Joinable(s, StopThread) then Put(s', t, JoiningStop(run)).(holder := Some(c))
        else LaunchStop(s', c, run, threadStarts)
    case JoinStopThread(c, threadStarts) => LaunchStop(Joined(s, StopThread), c, p.run, threadStarts)
    case PollRequest(_, active) =>
      if s.returned >= p.run then FinishRequest(s, t, p.run)
      else if active then Put(s, t, Transitioning(p.run)).(transitions := s.transitions + [p.run])
      else s  // looks again after the poll interval
    case TransitionReturns(_) => FinishRequest(s, t, p.run)
    case AwaitEnded(_) => Put(s, t, Idle)
    case AwaitTimeout(_) => Put(s, t, Idle)
  }

  // --- what every step keeps --------------------------------------------------------------------------------------

  predicate Runs(p: Place) { p.Calling? || p.Ending? }

  predicate Requests(p: Place) { p.JoiningStop? || p.Requesting? || p.Transitioning? }

  ghost predicate CountersInOrder(s: State) {
    s.ended <= s.returned <= s.started <= s.ended + 1
  }

  // A thread is inside a run exactly while one is in progress. It is one thread, and its run is the last one started.
  ghost predicate OneRunner(s: State) {
    && (forall t :: Runs(At(s, t)) ==> s.ended < s.started && At(s, t).run == s.started)
    && (forall t :: At(s, t).Calling? ==> s.returned < s.started)
    && (forall t :: At(s, t).Ending? ==> s.returned == s.started)
    && (forall t, u :: Runs(At(s, t)) && Runs(At(s, u)) ==> t == u)
    && (s.ended < s.started ==> exists t :: Runs(At(s, t)))
  }

  // A stop request in flight is one thread's, and its run is the last one started and has not ended.
  ghost predicate OneRequest(s: State) {
    && (forall t :: Requests(At(s, t)) ==>
          s.requestingStop && s.ended < s.started && At(s, t).run == s.started == s.stoppedRun)
    && (forall t, u :: Requests(At(s, t)) && Requests(At(s, u)) ==> t == u)
    && (s.requestingStop ==> exists t :: Requests(At(s, t)))
    && s.stoppedRun <= s.started
  }

  // Transitions are made for rising runs, and for the last one only from Transitioning on.
  ghost predicate TransitionsOnce(s: State) {
    && (forall i, j :: 0 <= i < j < |s.transitions| ==> s.transitions[i] < s.transitions[j])
    && (forall i :: 0 <= i < |s.transitions| ==> 1 <= s.transitions[i] <= s.stoppedRun)
    && (forall t :: At(s, t).JoiningStop? || At(s, t).Requesting? ==> At(s, t).run !in s.transitions)
  }

  ghost predicate OutcomesKept(s: State) {
    |s.outcomes| == s.ended && s.lastOutcome == if s.ended == 0 then Success else s.outcomes[s.ended - 1]
  }

  ghost predicate ThreadsInRole(s: State) {
    && (Runs(At(s, RunThread)) || At(s, RunThread).Exited?)
    && (Requests(At(s, StopThread)) || At(s, StopThread).Exited?) && !At(s, StopThread).JoiningStop?
    && (forall t :: At(s, t).JoiningRun? || At(s, t).JoiningStop? ==> t.Client? && s.holder == Some(t.id))
    && (s.holder.Some? ==> var p := At(s, Client(s.holder.value)); p.JoiningRun? || p.JoiningStop?)
    && (forall t :: At(s, t).JoiningRun? ==> s.ended == s.started)
  }

  ghost predicate Inv(s: State) {
    && CountersInOrder(s) && OneRunner(s) && OneRequest(s) && TransitionsOnce(s) && OutcomesKept(s) && ThreadsInRole(s)
  }

  lemma InitialInv()
    ensures Inv(Initial)
  {
  }

  // a step of a run, or of a stop request and the waits for it
  predicate OfRun(step: Step) {
    || step.RunAndWait? || step.SchedulerReturns? || step.EndRun?
    || step.Start? || step.JoinRunThread? || step.PollStart?
  }

  lemma RunStepKeepsCounters(s: State, step: Step)
    requires Inv(s) && Enabled(s, step) && OfRun(step)
    ensures CountersInOrder(Next(s, step)) && OutcomesKept(Next(s, step))
  {
    hide TransitionsOnce, OneRequest;
    assert step.EndRun? || step.SchedulerReturns? ==> Runs(At(s, Actor(step)));
  }

  lemma StopStepKeepsCounters(s: State, step: Step)
    requires Enabled(s, step) && !OfRun(step)
    ensures var s' := Next(s, step);
            && s'.started == s.started && s'.returned == s.returned && s'.ended == s.ended
            && s'.outcomes == s.outcomes && s'.lastOutcome == s.lastOutcome
  {
    hide LaunchRun, FinishRun;
  }

  lemma StepKeepsCounters(s: State, step: Step)
    requires Inv(s) && Enabled(s, step)
    ensures CountersInOrder(Next(s, step)) && OutcomesKept(Next(s, step))
  {
    hide Next, Enabled, OneRunner, OneRequest, TransitionsOnce, ThreadsInRole;
    if OfRun(step) { RunStepKeepsCounters(s, step); } else { StopStepKeepsCounters(s, step); }
  }

  // a step moves its own thread, and at most the one it launches
  ghost predicate MovesOnly(s: State, step: Step)
    requires Enabled(s, step)
  {
    forall t :: At(Next(s, step), t) != At(s, t) ==>
      t == Actor(step) || (t.RunThread? && (step.Start? || step.JoinRunThread?))
      || (t.StopThread? && (step.Stop? || step.JoinStopThread?))
  }

  lemma RunOthersStay(s: State, step: Step)
    requires Enabled(s, step) && OfRun(step)
    ensures MovesOnly(s, step)
  {
    hide LaunchStop, FinishRequest;
  }

  lemma StopOthersStay(s: State, step: Step)
    requires Enabled(s, step) && !OfRun(step)
    ensures MovesOnly(s, step)
  {
    hide LaunchRun, FinishRun;
  }

  // which threads can be inside a run after a step
  lemma RunnerMoves(s: State, step: Step, t: Thread)
    requires Inv(s) && Enabled(s, step) && Runs(At(Next(s, step), t))
    ensures Runs(At(s, t)) || (s.ended == s.started && t == if step.RunAndWait? then Actor(step) else RunThread)
    ensures s.ended < s.started ==> Runs(At(s, t))
  {
    hide TransitionsOnce, OutcomesKept, OneRequest, CountersInOrder;
  }

  lemma RunnerAfter(s: State, step: Step, t: Thread)
    requires Inv(s) && Enabled(s, step) && Runs(At(Next(s, step), t))
    ensures var s' := Next(s, step);
            && s'.ended < s'.started && At(s', t).run == s'.started
            && s'.returned == if At(s', t).Ending? then s'.started else s'.ended
  {
    RunnerMoves(s, step, t);
    hide TransitionsOnce, OutcomesKept, OneRequest;
    assert s.ended < s.started ==> Runs(At(s, t));
  }

  // a run in progress has its thread
  lemma RunnerStays(s: State, step: Step, t: Thread)
    requires Inv(s) && Enabled(s, step) && Next(s, step).ended < Next(s, step).started
    requires s.ended < s.started && Runs(At(s, t))
    ensures Runs(At(Next(s, step), t))
  {
    hide TransitionsOnce, OutcomesKept, OneRequest;
  }

  lemma RunnerComes(s: State, step: Step)
    requires Inv(s) && Enabled(s, step) && Next(s, step).ended < Next(s, step).started
    requires s.ended == s.started
    ensures Runs(At(Next(s, step), Actor(step))) || Runs(At(Next(s, step), RunThread))
  {
    hide TransitionsOnce, OutcomesKept, OneRequest, OneRunner;
  }

  lemma StepKeepsRunner(s: State, step: Step)
    requires Inv(s) && Enabled(s, step)
    ensures OneRunner(Next(s, step))
  {
    var s', a := Next(s, step), Actor(step);
    if s'.ended < s'.started {
      if s.ended < s.started {
        var t :| Runs(At(s, t));
        RunnerStays(s, step, t);
      } else {
        RunnerComes(s, step);
      }
    }
    hide Next, Enabled, At, ThreadsInRole, OneRequest, TransitionsOnce, OutcomesKept;
    forall t | Runs(At(s', t))
      ensures s'.ended < s'.started && At(s', t).run == s'.started
      ensures s'.returned == if At(s', t).Ending? then s'.started else s'.ended
      ensures Runs(At(s, t)) || (s.ended == s.started && t == if step.RunAndWait? then a else RunThread)
    {
      RunnerMoves(s, step, t);
      RunnerAfter(s, step, t);
    }
  }

  // which threads can be inside a stop request after a step
  lemma RequestMoves(s: State, step: Step, t: Thread)
    requires Inv(s) && Enabled(s, step) && Requests(At(Next(s, step), t))
    ensures s.requestingStop ==> Requests(At(s, t)) || (step.JoinStopThread? && t == StopThread)
    ensures !s.requestingStop ==> step.Stop? && (t == Actor(step) || t == StopThread)
    ensures t == StopThread && (step.JoinStopThread? || step.Stop?) ==> !Requests(At(Next(s, step), Actor(step)))
  {
    hide TransitionsOnce, OutcomesKept, OneRunner, CountersInOrder;
  }

  lemma RequestAfter(s: State, step: Step, t: Thread)
    requires Inv(s) && Enabled(s, step) && Requests(At(Next(s, step), t))
    ensures var s' := Next(s, step);
            s'.requestingStop && s'.ended < s'.started && At(s', t).run == s'.started == s'.stoppedRun
  {
    hide TransitionsOnce, OutcomesKept;
    RequestMoves(s, step, t);
    assert s.requestingStop ==> Requests(At(s, t)) || Requests(At(s, Actor(step)));
  }

  // a stop request in flight has its thread
  lemma RequestStays(s: State, step: Step)
    requires Inv(s) && Enabled(s, step) && Next(s, step).requestingStop
    ensures exists t :: Requests(At(Next(s, step), t))
  {
    hide TransitionsOnce, OutcomesKept, OneRunner, CountersInOrder;
    var s', a := Next(s, step), Actor(step);
    if s.requestingStop {
      var t :| Requests(At(s, t));
      assert Requests(At(s', t)) || Requests(At(s', a)) || Requests(At(s', StopThread));
    } else {
      assert Requests(At(s', a)) || Requests(At(s', StopThread));
    }
  }

  lemma StopsKnownRuns(s: State, step: Step)
    requires Inv(s) && Enabled(s, step)
    ensures Next(s, step).stoppedRun <= Next(s, step).started
    ensures step.JoinStopThread? ==> Requests(At(s, Actor(step)))
  {
    hide TransitionsOnce, OutcomesKept, OneRunner, CountersInOrder, ThreadsInRole;
  }

  lemma StepKeepsRequest(s: State, step: Step)
    requires Inv(s) && Enabled(s, step)
    ensures OneRequest(Next(s, step))
  {
    var s', a := Next(s, step), Actor(step);
    if s'.requestingStop { RequestStays(s, step); }
    StopsKnownRuns(s, step);
    hide Next, Enabled, At, ThreadsInRole, OneRunner, TransitionsOnce, OutcomesKept;
    forall t | Requests(At(s', t))
      ensures s'.requestingStop && s'.ended < s'.started && At(s', t).run == s'.started == s'.stoppedRun
      ensures s.requestingStop ==> Requests(At(s, t)) || (step.JoinStopThread? && t == StopThread)
      ensures !s.requestingStop ==> step.Stop? && (t == a || t == StopThread)
      ensures t == StopThread && (step.JoinStopThread? || step.Stop?) ==> !Requests(At(s', a))
    {
      RequestMoves(s, step, t);
      RequestAfter(s, step, t);
    }
  }

  // the runs whose transition is still to be made after a step
  lemma ToTransition(s: State, step: Step, t: Thread)
    requires Inv(s) && Enabled(s, step)
    requires var p := At(Next(s, step), t); p.JoiningStop? || p.Requesting?
    ensures At(Next(s, step), t).run !in Next(s, step).transitions
  {
    hide OutcomesKept, OneRunner, CountersInOrder;
    if OfRun(step) { RunOthersStay(s, step); } else { StopOthersStay(s, step); }
    assert step.PollRequest? ==> Requests(At(s, Actor(step)));
    assert step.JoinStopThread? ==> At(s, Actor(step)).JoiningStop?;
  }

  // a transition is made for a run that none was made for
  lemma TransitionsRise(s: State, step: Step)
    requires Inv(s) && Enabled(s, step)
    ensures var ts, ts' := s.transitions, Next(s, step).transitions;
            && (ts' == ts || (step.PollRequest? && ts' == ts + [s.stoppedRun]
                  && s.stoppedRun !in ts && 1 <= s.stoppedRun))
            && s.stoppedRun <= Next(s, step).stoppedRun
  {
    hide OutcomesKept, ThreadsInRole;
    assert step.PollRequest? ==> Requests(At(s, Actor(step)));
  }

  lemma StepKeepsTransitions(s: State, step: Step)
    requires Inv(s) && Enabled(s, step)
    ensures TransitionsOnce(Next(s, step))
  {
    var s' := Next(s, step);
    TransitionsRise(s, step);
    hide Next, Enabled, At, OutcomesKept, ThreadsInRole, OneRunner, OneRequest;
    forall t | At(s', t).JoiningStop? || At(s', t).Requesting? ensures At(s', t).run !in s'.transitions {
      ToTransition(s, step, t);
    }
  }

  lemma RunStepKeepsRoles(s: State, step: Step)
    requires Inv(s) && Enabled(s, step) && OfRun(step)
    ensures ThreadsInRole(Next(s, step))
  {
    hide TransitionsOnce, OutcomesKept, OneRequest;
    RunOthersStay(s, step);
  }

  lemma StopStepKeepsRoles(s: State, step: Step)
    requires Inv(s) && Enabled(s, step) && !OfRun(step)
    ensures ThreadsInRole(Next(s, step))
  {
    hide TransitionsOnce, OutcomesKept, OneRunner;
    StopOthersStay(s, step);
  }

  lemma StepKeepsRoles(s: State, step: Step)
    requires Inv(s) && Enabled(s, step)
    ensures ThreadsInRole(Next(s, step))
  {
    hide Inv, Enabled, Next, ThreadsInRole;
    if OfRun(step) { RunStepKeepsRoles(s, step); } else { StopStepKeepsRoles(s, step); }
  }

  // --- the results ------------------------------------------------------------------------------------------------

  ghost predicate Execution(s: State, steps: seq<Step>, s': State)
    decreases |steps|
  {
    if steps == [] then s' == s
    else Enabled(s, steps[0]) && Execution(Next(s, steps[0]), steps[1..], s')
  }

  lemma StepKeepsInv(s: State, step: Step)
    requires Inv(s) && Enabled(s, step)
    ensures Inv(Next(s, step))
  {
    hide Next, Enabled, CountersInOrder, OneRunner, OneRequest, TransitionsOnce, OutcomesKept, ThreadsInRole;
    StepKeepsCounters(s, step);
    StepKeepsRunner(s, step);
    StepKeepsRequest(s, step);
    StepKeepsTransitions(s, step);
    StepKeepsRoles(s, step);
  }

  lemma {:induction false} ExecutionKeepsInv(s: State, steps: seq<Step>, s': State)
    requires Inv(s) && Execution(s, steps, s')
    ensures Inv(s')
    decreases |steps|
  {
    hide Inv, Next, Enabled;
    if steps != [] {
      StepKeepsInv(s, steps[0]);
      ExecutionKeepsInv(Next(s, steps[0]), steps[1..], s');
    }
  }

  // Over every interleaving: the counters stay in order, a stop request in flight is for the run in progress, and each
  // run is stopped at most once.
  lemma CountersOverAllRuns(steps: seq<Step>, s: State)
    requires Execution(Initial, steps, s)
    ensures s.ended <= s.returned <= s.started <= s.ended + 1
    ensures s.requestingStop ==> s.stoppedRun == s.started && s.ended < s.started
    ensures forall i, j :: 0 <= i < j < |s.transitions| ==> s.transitions[i] != s.transitions[j]
    ensures forall i :: 0 <= i < |s.transitions| ==> 1 <= s.transitions[i] <= s.started
    ensures |s.outcomes| == s.ended
  {
    InitialInv();
    ExecutionKeepsInv(Initial, steps, s);
    if s.requestingStop { var t :| Requests(At(s, t)); }
  }

  // While the transition of a run is under way, that run is the last one started, it has not ended, and no step starts
  // another: no later run receives the transition.
  lemma NoLaterRunIsStopped(steps: seq<Step>, s: State, t: Thread, step: Step)
    requires Execution(Initial, steps, s) && Enabled(s, step)
    requires At(s, t).Transitioning?
    ensures s.started == At(s, t).run && s.ended < s.started
    ensures Next(s, step).started == s.started && Next(s, step).ended == s.ended
  {
    InitialInv();
    ExecutionKeepsInv(Initial, steps, s);
    assert Requests(At(s, t));
    hide TransitionsOnce, OutcomesKept;
    assert step.EndRun? || step.SchedulerReturns? ==> Runs(At(s, Actor(step)));
  }

  // A step that ends a run appends the outcome its own thread brought, as the outcome of the run it was in.
  lemma RunReportsItsOwnOutcome(steps: seq<Step>, s: State, step: Step)
    requires Execution(Initial, steps, s) && Enabled(s, step)
    requires Next(s, step).ended != s.ended
    ensures var s' := Next(s, step);
            && s'.ended == s'.started && s'.ended == |s'.outcomes|
            && s'.lastOutcome == s'.outcomes[s'.ended - 1] && s'.outcomes[..s.ended] == s.outcomes
    ensures step.EndRun? ==> At(s, step.t).run == s.ended + 1 && Next(s, step).lastOutcome == At(s, step.t).outcome
    ensures step.SchedulerReturns? ==> At(s, step.t).run == s.ended + 1 && Next(s, step).lastOutcome == step.outcome
    ensures step.Start? || step.JoinRunThread? ==>
      step.failure.Some? && Next(s, step).lastOutcome == Failure(step.failure.value)
  {
    InitialInv();
    ExecutionKeepsInv(Initial, steps, s);
    StepKeepsCounters(s, step);
    hide TransitionsOnce, OneRequest;
    assert step.EndRun? || step.SchedulerReturns? ==> Runs(At(s, Actor(step)));
  }

  // Runtime::result()
  function Result(s: State): Option<Outcome> {
    if RunInProgress(s) then None else Some(s.lastOutcome)
  }

  lemma ResultIsTheLastEndedRun(steps: seq<Step>, s: State)
    requires Execution(Initial, steps, s)
    ensures Result(s).Some? <==> s.ended == s.started
    ensures s.ended == s.started ==>
      Result(s) == Some(if s.outcomes == [] then Success else s.outcomes[|s.outcomes| - 1])
  {
    InitialInv();
    ExecutionKeepsInv(Initial, steps, s);
  }

  // A thread joined under runMutex has finished its last critical section, so the join needs no step of another
  // thread that takes the mutex.
  lemma JoinNeverWaitsForTheMutex(steps: seq<Step>, s: State)
    requires Execution(Initial, steps, s) && s.holder.Some?
    ensures var c := s.holder.value;
            && (At(s, Client(c)).JoiningRun? || At(s, Client(c)).JoiningStop?)
            && (At(s, Client(c)).JoiningRun? ==> forall failure :: Enabled(s, JoinRunThread(c, failure)))
            && (At(s, Client(c)).JoiningStop? ==> forall starts :: Enabled(s, JoinStopThread(c, starts)))
  {
    InitialInv();
    ExecutionKeepsInv(Initial, steps, s);
    hide TransitionsOnce, OutcomesKept;
    assert At(s, Client(s.holder.value)).JoiningStop? ==> Requests(At(s, Client(s.holder.value)));
  }

  // --- a run whose scheduler call has returned ends ---------------------------------------------------------------

  ghost predicate Returned(s: State) { s.returned == s.started && s.ended < s.started }

  ghost function Measure(s: State): nat {
    (if s.stoppedRun == s.started then 0 else 4)
    + (if exists t :: At(s, t).JoiningStop? then 3
       else if exists t :: At(s, t).Requesting? then 2
       else if exists t :: At(s, t).Transitioning? then 1
       else 0)
    + (if s.ended < s.started then 1 else 0)
  }

  lemma MeasureIs(s: State, t: Thread)
    requires Inv(s) && Requests(At(s, t))
    ensures Measure(s) == 1 + if At(s, t).JoiningStop? then 3 else if At(s, t).Requesting? then 2 else 1
  {
    hide TransitionsOnce, OutcomesKept, OneRunner, ThreadsInRole;
    assert forall u :: At(s, u).JoiningStop? || At(s, u).Requesting? || At(s, u).Transitioning? ==> Requests(At(s, u));
  }

  lemma MeasureWithoutRequest(s: State)
    requires Inv(s) && !s.requestingStop
    ensures Measure(s) == (if s.stoppedRun == s.started then 0 else 4) + if s.ended < s.started then 1 else 0
  {
    hide TransitionsOnce, OutcomesKept, OneRunner, ThreadsInRole;
    assert forall u :: At(s, u).JoiningStop? || At(s, u).Requesting? || At(s, u).Transitioning? ==> Requests(At(s, u));
  }

  ghost predicate Lowers(s: State, step: Step) { Enabled(s, step) && Measure(Next(s, step)) < Measure(s) }

  function RequestStep(s: State, t: Thread): Step {
    match At(s, t)
    case JoiningStop(_) => JoinStopThread(if t.Client? then t.id else 0, true)
    case Requesting(_) => PollRequest(t, false)
    case _ => TransitionReturns(t)
  }

  lemma RequestStepEnabled(s: State, t: Thread)
    requires Inv(s) && Returned(s) && Requests(At(s, t))
    ensures Enabled(s, RequestStep(s, t))
  {
    hide TransitionsOnce, OutcomesKept;
    if s.holder.Some? {
      assert Requests(At(s, Client(s.holder.value)));
    }
  }

  lemma RequestStepLowers(s: State, t: Thread)
    requires Inv(s) && Returned(s) && Requests(At(s, t))
    ensures Lowers(s, RequestStep(s, t))
  {
    RequestStepEnabled(s, t);
    var step := RequestStep(s, t);
    var s' := Next(s, step);
    StepKeepsInv(s, step);
    MeasureIs(s, t);
    hide Inv, Enabled, Measure;
    if At(s, t).JoiningStop? {
      MeasureIs(s', StopThread);
    } else {
      MeasureWithoutRequest(s');
    }
  }

  lemma EndRunLowers(s: State, t: Thread)
    requires Inv(s) && Returned(s) && !s.requestingStop && Runs(At(s, t))
    ensures Lowers(s, EndRun(t))
  {
    hide TransitionsOnce, OutcomesKept;
    assert Requests(At(s, Client(s.holder.GetOr(0)))) ==> s.requestingStop;
    assert Enabled(s, EndRun(t));
    StepKeepsInv(s, EndRun(t));
    MeasureWithoutRequest(s);
    MeasureWithoutRequest(Next(s, EndRun(t)));
  }

  // Some step always brings the end nearer ...
  lemma ReturnedRunCanMove(s: State)
    requires Inv(s) && Returned(s)
    ensures exists step :: Lowers(s, step)
  {
    hide Lowers, Measure, Enabled;
    if s.requestingStop {
      var t :| Requests(At(s, t));
      RequestStepLowers(s, t);
    } else {
      var t :| Runs(At(s, t));
      EndRunLowers(s, t);
    }
  }

  // ... and no step of any thread moves it away: it ends, or it stays returned with the measure no larger.
  lemma ReturnedRunOnlyEnds(s: State, step: Step)
    requires Inv(s) && Returned(s) && Enabled(s, step)
    ensures var s' := Next(s, step);
            && s'.started == s.started
            && (s'.ended == s'.started || (Returned(s') && Measure(s') <= Measure(s)))
  {
    var s' := Next(s, step);
    StepKeepsInv(s, step);
    ReturnedStays(s, step);
    if s'.ended < s'.started {
      MeasureBound(s, step);
    }
  }

  lemma ReturnedStays(s: State, step: Step)
    requires Inv(s) && Returned(s) && Enabled(s, step)
    ensures var s' := Next(s, step);
            s'.started == s.started && s'.returned == s'.started && s.ended <= s'.ended
    ensures !step.SchedulerReturns? && (step.EndRun? ==> Next(s, step).ended == s.started)
    ensures !step.JoinRunThread?
  {
    hide TransitionsOnce, OutcomesKept;
    assert step.EndRun? || step.SchedulerReturns? ==> Runs(At(s, Actor(step)));
  }

  lemma MeasureBound(s: State, step: Step)
    requires Inv(s) && Returned(s) && Enabled(s, step) && Inv(Next(s, step)) && Returned(Next(s, step))
    ensures Measure(Next(s, step)) <= Measure(s)
  {
    var s' := Next(s, step);
    if s.requestingStop {
      var t :| Requests(At(s, t));
      MeasureIs(s, t);
      if s'.requestingStop {
        var u :| Requests(At(s', u));
        RequestMoves(s, step, u);
        MeasureIs(s', u);
        hide TransitionsOnce, OutcomesKept, OneRunner, Measure;
        assert step.PollRequest? || step.JoinStopThread? || step.TransitionReturns? ==> Requests(At(s, Actor(step)));
      } else {
        MeasureWithoutRequest(s');
        hide TransitionsOnce, OutcomesKept, OneRunner, Measure;
      }
    } else {
      MeasureWithoutRequest(s);
      if s'.requestingStop {
        var u :| Requests(At(s', u));
        MeasureIs(s', u);
        hide TransitionsOnce, OutcomesKept, OneRunner, Measure;
      } else {
        MeasureWithoutRequest(s');
        hide TransitionsOnce, OutcomesKept, OneRunner, Measure;
      }
    }
  }
}
