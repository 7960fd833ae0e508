/** Why no detach waits forever: what a wait is for, and how few steps it can still take. */
module HandlerProgress {
  import opened Common
  import opened HandlerSteps
  import opened HandlerInvariant
  import opened HandlerSafety

  // ---------------------------------------------- a measure of a thread's work

  function StepsBehind(cont: Cont): nat {
    match cont
    case ToOpen => 13
    case ToDetached => 1
    case ToSessions => 1
    case ToReset => 4
    case ToEnd => 2
    case ToFinish => 0
  }

  function DetachSteps(d: DetachPlace): nat {
    match d
    case TakeEntry => 4
    case CancelStream => 3
    case CloseBridge => 2
    case AwaitDone => 1
  }

  function ServeSteps(r: ServePlace): nat {
    match r
    case ReadPane => 7
    case SendPaneMissing(_) => 6
    case SendSessions => 1
    case SendDetached => 1
    case OpenBridge => 13
    case OpenFailed => 2
    case InstallBridge => 12
  }

  function OwnSteps(o: OwnPlace): nat {
    match o
    case SendAttached => 11
    case PreStream => 10
    case PreStreamFailed => 9
    case StreamRead => 8
    case StreamGot => 7
    case StreamSend => 4
    case StreamLoop => 3
    case StreamFailed => 3
    case CheckSuperseded => 4
    case SendReset => 3
    case EndStream => 2
    case CloseDone => 1
  }

  /** The most operations a thread still performs, a stream from when it is cancelled. */
  function StepsLeft(th: Thread): nat {
    match th.at
    case Idle => 0
    case Finished => 0
    case Watching => 0
    case Detach(d) => DetachSteps(d) + StepsBehind(th.cont)
    case Serve(r) => ServeSteps(r)
    case Own(o) => OwnSteps(o)
    case Exit(TryExit) => 7 + StepsBehind(th.cont)
    case Exit(SendPaneClosed) => 6 + StepsBehind(th.cont)
    case Exit(SendExitSessions) => 5 + StepsBehind(th.cont)
    case StopSends => 7
    case StopDispatch => 6
    case ForgetPing => 5
  }

  const MOST_STEPS := 17

  predicate InStreamLoop(th: Thread) {
    th.at.Own? && th.at.own in {StreamLoop, StreamRead, StreamGot, StreamSend, StreamFailed}
  }

  lemma PreStreamDecreases(s: State, t: Tid, c: Choice)
    requires t in s.threads && ThreadInv(s, t) && s.threads[t].at == Own(PreStream)
    ensures var s' := OwnStep(s, t, s.threads[t], PreStream, c);
            t in s'.threads && StepsLeft(s'.threads[t]) < OwnSteps(PreStream)
  {
    if !(c.Fails? || c.Panics?) {
      var n := s.threads[t].mine.value;
      assert t == Dispatcher && t != Stream(n) && t != Watcher(n);
    }
  }

  lemma NextOwnDecreases(s: State, th: Thread, o: OwnPlace, c: Choice)
    requires th.at == Own(o) && o != EndStream && o != CloseDone
    requires InStreamLoop(th) ==> s.IsCancelled(th.mine)
    ensures StepsLeft(NextOwn(s, th, o, c)) < OwnSteps(o)
  {
    match o
    case SendAttached =>
    case PreStream =>
    case PreStreamFailed =>
    case StreamLoop =>
    case StreamRead =>
    case StreamGot =>
    case StreamSend =>
    case StreamFailed =>
    case CheckSuperseded =>
    case SendReset =>
  }

  lemma OwnStepsDecrease(s: State, t: Tid, o: OwnPlace, c: Choice)
    requires t in s.threads && ThreadInv(s, t) && s.threads[t].at == Own(o)
    requires InStreamLoop(s.threads[t]) ==> s.IsCancelled(s.threads[t].mine)
    ensures var s' := OwnStep(s, t, s.threads[t], o, c);
            t in s'.threads && StepsLeft(s'.threads[t]) < OwnSteps(o)
  {
    if o == PreStream {
      PreStreamDecreases(s, t, c);
    } else if o != EndStream && o != CloseDone {
      NextOwnDecreases(s, s.threads[t], o, c);
    }
  }

  lemma ResumeLeavesRest(s: State, t: Tid)
    requires t in s.threads
    ensures var s' := Resume(s, t, s.threads[t]);
            t in s'.threads && StepsLeft(s'.threads[t]) == StepsBehind(s.threads[t].cont)
  {
    match s.threads[t].cont
    case ToOpen =>
    case ToDetached =>
    case ToSessions =>
    case ToReset =>
    case ToEnd =>
    case ToFinish =>
  }

  lemma DetachStepsDecrease(s: State, t: Tid, d: DetachPlace)
    requires t in s.threads && s.threads[t].at == Detach(d)
    ensures var s' := DetachStep(s, t, s.threads[t], d);
            t in s'.threads && StepsLeft(s'.threads[t]) < StepsLeft(s.threads[t])
  {
    match d
    case TakeEntry =>
    case CancelStream =>
    case CloseBridge =>
    case AwaitDone => ResumeLeavesRest(s, t);
  }

  lemma ServeStepsDecrease(s: State, t: Tid, r: ServePlace, c: Choice)
    requires t in s.threads && s.threads[t].at == Serve(r)
    ensures var s' := ServeStep(s, t, s.threads[t], r, c);
            t in s'.threads && StepsLeft(s'.threads[t]) < ServeSteps(r)
  {
    match r
    case ReadPane =>
    case SendPaneMissing(_) =>
    case SendSessions =>
    case SendDetached =>
    case OpenBridge =>
    case OpenFailed =>
    case InstallBridge =>
  }

  lemma ExitingStepsDecrease(s: State, t: Tid, x: ExitPlace, c: Choice)
    requires t in s.threads && s.threads[t].at == Exit(x) && ThreadInv(s, t)
    ensures var s' := ExitingStep(s, t, s.threads[t], x, c);
            t in s'.threads && StepsLeft(s'.threads[t]) < StepsLeft(s.threads[t])
  {
    match x
    case TryExit => ResumeLeavesRest(s, t);
    case SendPaneClosed =>
    case SendExitSessions =>
  }

  lemma TeardownStepsDecrease(s: State, t: Tid, c: Choice)
    requires t in s.threads
    requires var at := s.threads[t].at; at.StopSends? || at.StopDispatch? || at.ForgetPing?
    ensures var s' := Step(s, t, c);
            t in s'.threads && StepsLeft(s'.threads[t]) < StepsLeft(s.threads[t])
  {
    match s.threads[t].at
    case StopSends =>
    case StopDispatch =>
    case ForgetPing =>
  }

  /**
   Every operation of a thread that has work to do brings it closer to its end;
   a stream's from when it is cancelled. In particular a handler call, a
   teardown and a cancelled stream each perform at most 17 operations. Of an
   attachment's own operations, those that can block are sure to return once a
   detach has cancelled it and closed its bridge.
   */
  lemma OwnMovesAreBounded(s: State, t: Tid, c: Choice)
    requires Inv(s) && t in s.threads && CanMove(s, t)
    requires s.threads[t].at != Idle && s.threads[t].at != Watching
    requires InStreamLoop(s.threads[t]) ==> s.IsCancelled(s.threads[t].mine)
    ensures t in Step(s, t, c).threads
    ensures StepsLeft(Step(s, t, c).threads[t]) < StepsLeft(s.threads[t]) <= MOST_STEPS
    ensures s.threads[t].mine.Some? && s.Att(s.threads[t].mine).bridge.Closed? ==> Unblocked(s, t)
  {
    StepsAreFew(s, t);
    ClosedBridgesUnblock(s, t);
    assert ThreadInv(s, t);
    match s.threads[t].at
    case Detach(d) => DetachStepsDecrease(s, t, d);
    case Serve(r) => ServeStepsDecrease(s, t, r, c);
    case Own(o) => OwnStepsDecrease(s, t, o, c);
    case Exit(x) => ExitingStepsDecrease(s, t, x, c);
    case StopSends => TeardownStepsDecrease(s, t, c);
    case StopDispatch => TeardownStepsDecrease(s, t, c);
    case ForgetPing => TeardownStepsDecrease(s, t, c);
  }

  lemma ClosedBridgesUnblock(s: State, t: Tid)
    requires Inv(s) && t in s.threads && CanMove(s, t)
    ensures s.threads[t].mine.Some? && s.Att(s.threads[t].mine).bridge.Closed? ==> Unblocked(s, t)
  {
    assert ThreadInv(s, t);
    if s.threads[t].mine.Some? { assert AttachmentInv(s, s.threads[t].mine.value); }
  }

  lemma StepsAreFew(s: State, t: Tid)
    requires Inv(s) && t in s.threads
    ensures StepsLeft(s.threads[t]) <= MOST_STEPS
  {
    assert ThreadInv(s, t);
    assert Fits(s.threads[t], t);
  }

  // ------------------------------------------------------ what a wait waits for

  /** The attachment is out of the maps, and its done channel is still open. */
  ghost predicate Leaving(s: State, n: nat) {
    n < |s.atts| && !s.atts[n].bridge.InMaps? && !s.atts[n].life.Over?
  }

  /** The thread whose next operation brings the done channel of a detached attachment closer. */
  function Helper(s: State, n: nat): Tid
    requires n < |s.atts| && !s.atts[n].life.Over?
  {
    if s.atts[n].bridge.Held? then s.atts[n].bridge.holder else s.atts[n].life.owner
  }

  /** How many operations of helpers are left: first to cancel and close, then to end the stream. */
  function Rank(s: State, n: nat): nat {
    if n >= |s.atts| || s.atts[n].life.Over? then 0
    else
      var h := Helper(s, n);
      if h !in s.threads then 0
      else if s.atts[n].bridge.Held? then MOST_STEPS + (if s.threads[h].at == Detach(CancelStream) then 2 else 1)
      else StepsLeft(s.threads[h])
  }

  /** Whatever a thread waits for is out of the maps, on its way out or over. */
  lemma WaitsForLeaving(s: State, u: Tid)
    requires Inv(s) && u in s.threads && s.threads[u].waitOn.Some?
    ensures var n := s.threads[u].waitOn.value;
            n < |s.atts| && !s.atts[n].bridge.InMaps? && (Leaving(s, n) || IsOver(s, n))
  {
    assert ThreadInv(s, u);
  }

  /**
   The helper is never itself waiting, so no chain of waits closes into a
   circle, and it is not parked in a read or a send: the cancel and the close in
   front of the wait have released it.
   */
  lemma HelperCanMove(s: State, n: nat)
    requires Inv(s) && Leaving(s, n)
    ensures Helper(s, n) in s.threads && Unblocked(s, Helper(s, n))
    ensures s.threads[Helper(s, n)].at != Detach(AwaitDone) || s.threads[Helper(s, n)].waitOn.None?
    ensures Rank(s, n) <= MOST_STEPS + 2
  {
    var h := Helper(s, n);
    assert AttachmentInv(s, n);
    assert ThreadInv(s, h);
    assert Fits(s.threads[h], h);
    OwnStepsAreFew(s.threads[h]);
  }

  lemma OwnStepsAreFew(th: Thread)
    requires th.at.Exit? ==> th.cont == ToEnd || th.cont == ToFinish
    ensures StepsLeft(th) <= MOST_STEPS
  {
  }

  lemma OthersStay(s: State, t: Tid, c: Choice, u: Tid)
    requires Inv(s) && t in s.threads && u in s.threads && u != t
    ensures u in Step(s, t, c).threads && Step(s, t, c).threads[u] == s.threads[u]
  {
    assert ThreadInv(s, t);
    if s.threads[t].at == Own(PreStream) {
      var th := s.threads[t];
      assert AttachmentInv(s, th.mine.value);
      if !(c.Fails? || c.Panics?) { StartLeavesOthers(Control(s, c, OwnEvent(th, PreStream)), t, th, u); }
    } else {
      StepLeavesOthers(s, t, c, u);
    }
  }

  /** A detached attachment never returns to the maps, and a closed bridge stays closed. */
  lemma StaysOut(s: State, t: Tid, c: Choice, n: nat)
    requires Inv(s) && t in s.threads && CanMove(s, t) && n < |s.atts| && !s.atts[n].bridge.InMaps?
    ensures var s' := Step(s, t, c);
            && Inv(s') && n < |s'.atts| && !s'.atts[n].bridge.InMaps?
            && (s.atts[n].bridge.Closed? ==> s'.atts[n].bridge.Closed?)
            && (s.atts[n].life.Over? ==> s'.atts[n].life.Over?)
  {
    StepKeepsInv(s, t, c);
    StepGrows(s, t, c);
    assert AttachmentInv(s, n) && AttachmentInv(Step(s, t, c), n);
  }

  /** A helper's operation brings the wait strictly closer to its end. */
  lemma HelperHelps(s: State, n: nat, c: Choice)
    requires Inv(s) && Leaving(s, n) && Helper(s, n) in s.threads && CanMove(s, Helper(s, n))
    ensures var s' := Step(s, Helper(s, n), c);
            (Leaving(s', n) || IsOver(s', n)) && Rank(s', n) < Rank(s, n)
  {
    var h := Helper(s, n);
    var s' := Step(s, h, c);
    assert ThreadInv(s, h) && AttachmentInv(s, n);
    StaysOut(s, h, c, n);
    assert AttachmentInv(s', n);
    if s.atts[n].bridge.Held? {
      HolderHelps(s, n, c);
    } else {
      OwnerHelps(s, n, c);
    }
  }

  lemma HolderHelps(s: State, n: nat, c: Choice)
    requires Inv(s) && Leaving(s, n) && s.atts[n].bridge.Held?
    requires Helper(s, n) in s.threads && CanMove(s, Helper(s, n))
    requires Inv(Step(s, Helper(s, n), c))
    ensures Rank(Step(s, Helper(s, n), c), n) < Rank(s, n)
  {
    var h := Helper(s, n);
    var s' := Step(s, h, c);
    assert ThreadInv(s, h) && AttachmentInv(s, n);
    if s.threads[h].at == Detach(CancelStream) {
      assert s'.threads[h].held == Some(n) && s'.threads[h].at == Detach(CloseBridge);
      assert ThreadInv(s', h);
    } else {
      assert s.threads[h].at == Detach(CloseBridge);
      assert s'.atts[n].bridge.Closed?;
      assert AttachmentInv(s', n);
      if !s'.atts[n].life.Over? {
        assert ThreadInv(s', s'.atts[n].life.owner);
        OwnStepsAreFew(s'.threads[s'.atts[n].life.owner]);
      }
    }
  }

  lemma OwnerHelps(s: State, n: nat, c: Choice)
    requires Inv(s) && Leaving(s, n) && s.atts[n].bridge.Closed?
    requires Helper(s, n) in s.threads && CanMove(s, Helper(s, n))
    requires var s' := Step(s, Helper(s, n), c); Inv(s') && n < |s'.atts| && s'.atts[n].bridge.Closed?
    ensures Rank(Step(s, Helper(s, n), c), n) < Rank(s, n)
  {
    var h := Helper(s, n);
    var s' := Step(s, h, c);
    assert ThreadInv(s, h) && AttachmentInv(s, n) && AttachmentInv(s', n);
    assert Fits(s.threads[h], h);
    OwnMovesAreBounded(s, h, c);
    if h == Dispatcher && Stream(n) in s'.threads {
      StreamTakesOver(s, n, c);
    }
    if h == Stream(n) { StreamKeepsOwning(s, n, c); }
    OwnerRankFalls(s, s', n, h);
  }

  /** An attachment handed to its stream never returns to the dispatcher. */
  lemma StreamKeepsOwning(s: State, n: nat, c: Choice)
    requires Inv(s) && n < |s.atts| && !s.atts[n].life.Over? && s.atts[n].life.owner == Stream(n)
    requires Stream(n) in s.threads && CanMove(s, Stream(n))
    requires var s' := Step(s, Stream(n), c); Inv(s') && n < |s'.atts|
    ensures var a := Step(s, Stream(n), c).atts[n]; a.life.Over? || a.life.owner == Stream(n)
  {
    var s' := Step(s, Stream(n), c);
    assert AttachmentInv(s, n) && AttachmentInv(s', n) && ThreadInv(s, Stream(n));
    assert ThreadInv(s, Dispatcher);
    OthersStay(s, Stream(n), c, Dispatcher);
  }

  lemma OwnerRankFalls(s: State, s': State, n: nat, h: Tid)
    requires Inv(s') && Leaving(s, n) && s.atts[n].bridge.Closed? && h == s.atts[n].life.owner
    requires h == Dispatcher || h == Stream(n)
    requires n < |s'.atts| && s'.atts[n].bridge.Closed?
    requires h in s.threads && h in s'.threads && StepsLeft(s'.threads[h]) < StepsLeft(s.threads[h])
    requires h == Dispatcher && Stream(n) in s'.threads ==>
               s.threads[h].at == Own(PreStream) && s'.threads[Stream(n)].at == Own(StreamLoop)
    requires h == Stream(n) ==> s'.atts[n].life != Live(Dispatcher) && s'.atts[n].life != Ending(Dispatcher)
    ensures Rank(s', n) < Rank(s, n)
  {
    assert AttachmentInv(s', n);
  }

  lemma StreamTakesOver(s: State, n: nat, c: Choice)
    requires Inv(s) && n < |s.atts| && !s.atts[n].life.Over? && s.atts[n].life.owner == Dispatcher
    requires Dispatcher in s.threads && CanMove(s, Dispatcher)
    requires var s' := Step(s, Dispatcher, c);
             Stream(n) in s'.threads
    ensures s.threads[Dispatcher].at == Own(PreStream)
    ensures Step(s, Dispatcher, c).threads[Stream(n)].at == Own(StreamLoop)
  {
    assert AttachmentInv(s, n) && ThreadInv(s, Dispatcher);
    if s.threads[Dispatcher].at != Own(PreStream) {
      StepLeavesOthers(s, Dispatcher, c, Stream(n));
    }
  }

  /** Nothing that another thread or the environment does sets the wait back. */
  lemma OthersDoNotHinder(s: State, a: Action, n: nat)
    requires Inv(s) && Enabled(s, a) && Leaving(s, n) && !(a.Move? && a.t == Helper(s, n))
    ensures var s' := Next(s, a);
            (Leaving(s', n) || IsOver(s', n)) && Rank(s', n) <= Rank(s, n)
  {
    HelperCanMove(s, n);
    if a.Move? {
      OtherThreadsDoNotHinder(s, a.t, a.c, n);
    } else {
      EnvironmentDoesNotHinder(s, a, n);
    }
  }

  lemma EnvironmentDoesNotHinder(s: State, a: Action, n: nat)
    requires Enabled(s, a) && !a.Move? && Leaving(s, n) && Helper(s, n) in s.threads
    ensures Leaving(Next(s, a), n) && Rank(Next(s, a), n) == Rank(s, n)
  {
    match a
    case Disconnect(_, _) =>
    case ShutDownAgent =>
    case Displace(_) =>
    case NextConnection =>
  }

  lemma OtherThreadsDoNotHinder(s: State, t: Tid, c: Choice, n: nat)
    requires Inv(s) && Leaving(s, n) && Helper(s, n) in s.threads && t != Helper(s, n)
    requires t in s.threads && CanMove(s, t)
    ensures var s' := Step(s, t, c);
            (Leaving(s', n) || IsOver(s', n)) && Rank(s', n) <= Rank(s, n)
  {
    var h := Helper(s, n);
    var s' := Step(s, t, c);
    StaysOut(s, t, c, n);
    OthersStay(s, t, c, h);
    assert AttachmentInv(s, n) && AttachmentInv(s', n);
    assert ThreadInv(s, h) && ThreadInv(s', h);
  }

  // ------------------------------------------------------------- whole runs

  /** The operations that helpers of attachment n perform between two points of a run. */
  function HelperMoves(states: seq<State>, actions: seq<Action>, n: nat, i: nat, j: nat): nat
    requires i <= j <= |actions| && |states| == |actions| + 1
    decreases j
  {
    if i == j then 0
    else
      var s, a := states[j - 1], actions[j - 1];
      HelperMoves(states, actions, n, i, j - 1)
      + if n < |s.atts| && !s.atts[n].life.Over? && a.Move? && a.t == Helper(s, n) then 1 else 0
  }

  /**
   From the moment an attachment is detached, its done channel is closed after
   at most 19 operations of helpers, whatever else happens in between; and as
   long as it is open, there is a helper whose next operation is sure to return.
   So under any schedule that keeps running such threads, every detach returns.
   */
  lemma {:induction false} EveryWaitEnds(states: seq<State>, actions: seq<Action>, n: nat, i: nat, j: nat)
    requires IsRun(states, actions) && i <= j < |states|
    requires n < |states[i].atts| && !states[i].atts[n].bridge.InMaps?
    ensures n < |states[j].atts| && !states[j].atts[n].bridge.InMaps?
    ensures HelperMoves(states, actions, n, i, j) + Rank(states[j], n) <= Rank(states[i], n) <= MOST_STEPS + 2
    ensures IsOver(states[j], n) || IsHelped(states[j], n)
    decreases j
  {
    if i < j {
      EveryWaitEnds(states, actions, n, i, j - 1);
      WaitExtends(states, actions, n, i, j);
    }
    WaitIsHelped(states, actions, n, j);
  }

  /**
   Every detach returns: whatever attachment a thread waits for, from then on
   its done channel is open only as long as some helper's next operation is sure
   to return, and that for at most 19 operations of helpers.
   */
  lemma DetachReturns(states: seq<State>, actions: seq<Action>, u: Tid, n: nat, i: nat, j: nat)
    requires IsRun(states, actions) && i <= j < |states|
    requires u in states[i].threads && states[i].threads[u].waitOn == Some(n)
    ensures IsOver(states[j], n) || IsHelped(states[j], n)
    ensures HelperMoves(states, actions, n, i, j) <= MOST_STEPS + 2
  {
    RunKeepsInv(states, actions, i);
    WaitsForLeaving(states[i], u);
    EveryWaitEnds(states, actions, n, i, j);
  }

  lemma WaitExtends(states: seq<State>, actions: seq<Action>, n: nat, i: nat, j: nat)
    requires IsRun(states, actions) && i < j < |states|
    requires n < |states[j - 1].atts| && !states[j - 1].atts[n].bridge.InMaps?
    ensures n < |states[j].atts| && !states[j].atts[n].bridge.InMaps?
    ensures HelperMoves(states, actions, n, i, j) + Rank(states[j], n)
         <= HelperMoves(states, actions, n, i, j - 1) + Rank(states[j - 1], n)
  {
    RunKeepsInv(states, actions, j - 1);
    assert Follows(states, actions, j - 1);
    WaitStep(states[j - 1], actions[j - 1], n);
  }

  lemma WaitIsHelped(states: seq<State>, actions: seq<Action>, n: nat, j: nat)
    requires IsRun(states, actions) && j < |states|
    requires n < |states[j].atts| && !states[j].atts[n].bridge.InMaps?
    ensures IsOver(states[j], n) || IsHelped(states[j], n)
    ensures Rank(states[j], n) <= MOST_STEPS + 2
  {
    RunKeepsInv(states, actions, j);
    LeavingIsHelped(states[j], n);
  }

  /** Some thread can move the wait on, and its end is a known number of such moves away. */
  ghost predicate IsHelped(s: State, n: nat) {
    Leaving(s, n) && Helper(s, n) in s.threads && Unblocked(s, Helper(s, n)) && 0 < Rank(s, n)
  }

  lemma LeavingIsHelped(s: State, n: nat)
    requires Inv(s) && n < |s.atts| && !s.atts[n].bridge.InMaps?
    ensures IsOver(s, n) || IsHelped(s, n)
    ensures Rank(s, n) <= MOST_STEPS + 2
  {
    if Leaving(s, n) {
      HelperCanMove(s, n);
      LeavingHasRank(s, n);
    }
  }

  lemma LeavingHasRank(s: State, n: nat)
    requires Inv(s) && Leaving(s, n)
    ensures Rank(s, n) > 0
  {
    assert AttachmentInv(s, n);
    assert ThreadInv(s, Helper(s, n));
    assert Fits(s.threads[Helper(s, n)], Helper(s, n));
  }

  lemma WaitStep(s: State, a: Action, n: nat)
    requires Inv(s) && Enabled(s, a) && n < |s.atts| && !s.atts[n].bridge.InMaps?
    ensures var s' := Next(s, a);
            && n < |s'.atts| && !s'.atts[n].bridge.InMaps?
            && Rank(s', n) <= Rank(s, n)
            && (Leaving(s, n) && a.Move? && a.t == Helper(s, n) ==> Rank(s', n) < Rank(s, n))
  {
    if Leaving(s, n) {
      if a.Move? && a.t == Helper(s, n) {
        HelperHelps(s, n, a.c);
        StaysOut(s, a.t, a.c, n);
      } else {
        OthersDoNotHinder(s, a, n);
        if a.Move? { StaysOut(s, a.t, a.c, n); }
      }
    } else if a.Move? {
      StaysOut(s, a.t, a.c, n);
    }
  }
}
