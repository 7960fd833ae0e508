/** Why a teardown that stops a peer's dispatch does not wait for it forever. */
module HandlerStops {
  import opened HandlerSteps
  import opened HandlerInvariant
  import opened HandlerProgress
  import opened HandlerDisconnect

  /** Where a handler call can stand: never in a stream's loop, a pane exit or a teardown. */
  predicate IsDispatching(th: Thread) {
    match th.at
    case Idle => true
    case Serve(_) => true
    case Detach(_) => th.cont in {ToOpen, ToDetached, ToSessions, ToReset}
    case Own(o) => o in {SendAttached, PreStream, PreStreamFailed, CheckSuperseded, SendReset, EndStream, CloseDone}
    case _ => false
  }

  predicate DispatcherFits(s: State) {
    Dispatcher in s.threads && IsDispatching(s.threads[Dispatcher])
  }

  lemma ServeKeepsDispatching(s: State, r: ServePlace, c: Choice)
    requires DispatcherFits(s) && s.threads[Dispatcher].at == Serve(r)
    ensures DispatcherFits(ServeStep(s, Dispatcher, s.threads[Dispatcher], r, c))
  {
    match r
    case ReadPane =>
    case SendPaneMissing(_) =>
    case SendSessions =>
    case SendDetached =>
    case OpenBridge =>
    case OpenFailed =>
    case InstallBridge =>
  }

  lemma OwnKeepsDispatching(s: State, o: OwnPlace, c: Choice)
    requires DispatcherFits(s) && s.threads[Dispatcher].at == Own(o)
    ensures DispatcherFits(OwnStep(s, Dispatcher, s.threads[Dispatcher], o, c))
  {
    match o
    case SendAttached =>
    case PreStream =>
    case PreStreamFailed =>
    case CheckSuperseded =>
    case SendReset =>
    case EndStream =>
    case CloseDone =>
  }

  lemma DetachKeepsDispatching(s: State, d: DetachPlace)
    requires DispatcherFits(s) && s.threads[Dispatcher].at == Detach(d)
    ensures DispatcherFits(DetachStep(s, Dispatcher, s.threads[Dispatcher], d))
  {
    match d
    case TakeEntry =>
    case CancelStream =>
    case CloseBridge =>
    case AwaitDone =>
  }

  lemma NextKeepsDispatching(s: State, a: Action)
    requires Inv(s) && DispatcherFits(s) && Enabled(s, a)
    ensures DispatcherFits(Next(s, a))
  {
    if a.Move? && a.t == Dispatcher {
      match s.threads[Dispatcher].at
      case Idle =>
      case Serve(r) => ServeKeepsDispatching(s, r, a.c);
      case Own(o) => OwnKeepsDispatching(s, o, a.c);
      case Detach(d) => DetachKeepsDispatching(s, d);
    } else {
      DispatcherStays(s, a);
    }
  }

  lemma DispatcherStays(s: State, a: Action)
    requires Inv(s) && Dispatcher in s.threads && Enabled(s, a) && !(a.Move? && a.t == Dispatcher)
    ensures Dispatcher in Next(s, a).threads && Next(s, a).threads[Dispatcher] == s.threads[Dispatcher]
  {
    match a
    case Move(t, c) => OthersStay(s, t, c, Dispatcher);
    case Disconnect(_, _) =>
    case ShutDownAgent =>
    case Displace(_) =>
    case NextConnection =>
  }

  lemma {:induction false} RunKeepsDispatching(states: seq<State>, actions: seq<Action>, i: nat)
    requires IsRun(states, actions) && i < |states|
    ensures DispatcherFits(states[i])
  {
    if i > 0 {
      RunKeepsDispatching(states, actions, i - 1);
      RunKeepsInv(states, actions, i - 1);
      assert Follows(states, actions, i - 1);
      NextKeepsDispatching(states[i - 1], actions[i - 1]);
    }
  }

  // -------------------------------------------------------------- what is left

  /** How far the end of a handler call's wait is, if it waits for a stream. */
  function Waiting(s: State): nat {
    if Dispatcher in s.threads && s.threads[Dispatcher].waitOn.Some?
    then Rank(s, s.threads[Dispatcher].waitOn.value)
    else 0
  }

  /** What a handler call still has to do, its wait included. */
  function Work(s: State): nat {
    (if Dispatcher in s.threads then 20 * StepsLeft(s.threads[Dispatcher]) else 0) + Waiting(s)
  }

  const MOST_WORK := 20 * MOST_STEPS + 19

  /** The action is the handler call's own, or brings the end of its wait nearer. */
  predicate Advances(s: State, a: Action) {
    && a.Move? && Dispatcher in s.threads
    && (a.t == Dispatcher
        || (var waitOn := s.threads[Dispatcher].waitOn;
            waitOn.Some? && waitOn.value < |s.atts| && !s.atts[waitOn.value].life.Over?
              && a.t == Helper(s, waitOn.value)))
  }

  /** The wait of a handler call, if it has one, is among those that end. */
  lemma CallsWaitBriefly(s: State)
    requires Inv(s)
    ensures Waiting(s) <= MOST_STEPS + 2
    ensures var waitOn := s.threads[Dispatcher].waitOn;
            waitOn.Some? ==> waitOn.value < |s.atts| && !s.atts[waitOn.value].bridge.InMaps?
  {
    assert ThreadInv(s, Dispatcher);
    if s.threads[Dispatcher].waitOn.Some? { LeavingIsHelped(s, s.threads[Dispatcher].waitOn.value); }
  }

  lemma WorkIsBounded(s: State)
    requires Inv(s)
    ensures Work(s) <= MOST_WORK
  {
    CallsWaitBriefly(s);
    StepsAreFew(s, Dispatcher);
  }

  lemma OwnWorkFalls(s: State, c: Choice)
    requires Inv(s) && DispatcherFits(s) && !DispatcherIdle(s) && CanMove(s, Dispatcher)
    ensures Work(Step(s, Dispatcher, c)) < Work(s)
  {
    OwnMovesAreBounded(s, Dispatcher, c);
    StepKeepsInv(s, Dispatcher, c);
    CallsWaitBriefly(Step(s, Dispatcher, c));
  }

  lemma OthersWorkFalls(s: State, a: Action)
    requires Inv(s) && Enabled(s, a) && !(a.Move? && a.t == Dispatcher)
    ensures Work(Next(s, a)) <= Work(s)
    ensures Advances(s, a) ==> Work(Next(s, a)) < Work(s)
  {
    DispatcherStays(s, a);
    CallsWaitBriefly(s);
    if s.threads[Dispatcher].waitOn.Some? { WaitStep(s, a, s.threads[Dispatcher].waitOn.value); }
  }

  lemma WorkFalls(s: State, a: Action)
    requires Inv(s) && DispatcherFits(s) && !DispatcherIdle(s) && Enabled(s, a)
    ensures Work(Next(s, a)) <= Work(s)
    ensures Advances(s, a) ==> Work(Next(s, a)) < Work(s)
  {
    if a.Move? && a.t == Dispatcher { OwnWorkFalls(s, a.c); } else { OthersWorkFalls(s, a); }
  }

  /** A handler call goes on: its next operation is sure to return, or the stream it waits for is helped out. */
  ghost predicate CallGoesOn(s: State) {
    && Dispatcher in s.threads
    && (Unblocked(s, Dispatcher)
        || (s.threads[Dispatcher].waitOn.Some? && IsHelped(s, s.threads[Dispatcher].waitOn.value)))
  }

  lemma CallIsHelped(s: State)
    requires Inv(s) && DispatcherFits(s) && !DispatcherIdle(s) && s.link.sendsStopped
    ensures CallGoesOn(s)
  {
    var th := s.threads[Dispatcher];
    assert ThreadInv(s, Dispatcher);
    if th.waitOn.Some? { LeavingIsHelped(s, th.waitOn.value); }
  }

  // ---------------------------------------------------------------- whole runs

  function Advancing(states: seq<State>, actions: seq<Action>, i: nat, j: nat): nat
    requires i <= j <= |actions| && |states| == |actions| + 1
    decreases j
  {
    if i == j then 0
    else Advancing(states, actions, i, j - 1) + if Advances(states[j - 1], actions[j - 1]) then 1 else 0
  }

  /** The teardown waits in stopDispatch for a handler call to return. */
  predicate WaitsForCall(s: State, u: Tid) {
    u in s.threads && s.threads[u].at.StopDispatch? && !CanMove(s, u)
  }

  /**
   While a teardown waits in stopDispatch, the handler call it waits for goes
   on, having had its output sends released first, and after at most 359
   operations of that call and of the threads it waits for, it has returned.
   */
  lemma {:induction false} StopDispatchReturns(states: seq<State>, actions: seq<Action>, u: Tid, i: nat, j: nat)
    requires IsRun(states, actions) && i <= j < |states|
    requires forall k :: i <= k <= j ==> WaitsForCall(states[k], u)
    ensures Advancing(states, actions, i, j) + Work(states[j]) <= Work(states[i]) <= MOST_WORK
    ensures CallGoesOn(states[j])
    decreases j
  {
    if i < j {
      StopDispatchReturns(states, actions, u, i, j - 1);
      WorkFallsInRun(states, actions, u, j - 1);
    } else {
      RunKeepsInv(states, actions, i);
      WorkIsBounded(states[i]);
    }
    CallGoesOnInRun(states, actions, u, j);
  }

  lemma WorkFallsInRun(states: seq<State>, actions: seq<Action>, u: Tid, i: nat)
    requires IsRun(states, actions) && i < |actions| && WaitsForCall(states[i], u)
    ensures Work(states[i + 1]) + (if Advances(states[i], actions[i]) then 1 else 0) <= Work(states[i])
  {
    RunKeepsInv(states, actions, i);
    RunKeepsDispatching(states, actions, i);
    assert Follows(states, actions, i);
    WorkFalls(states[i], actions[i]);
  }

  lemma CallGoesOnInRun(states: seq<State>, actions: seq<Action>, u: Tid, i: nat)
    requires IsRun(states, actions) && i < |states| && WaitsForCall(states[i], u)
    ensures CallGoesOn(states[i])
  {
    RunKeepsTornDown(states, actions, i);
    RunKeepsDispatching(states, actions, i);
    assert TeardownInv(states[i], u);
    CallIsHelped(states[i]);
  }
}
