/** What is left of a peer once its dispatch has stopped and its disconnect handler has run. */
module HandlerDisconnect {
  import opened Common
  import opened HandlerEntries
  import opened HandlerSteps
  import opened HandlerInvariant
  import opened HandlerSafety
  import opened HandlerProgress

  predicate IsClean(e: Entry) {
    e.bridge.None? && e.done.None? && !e.pinged
  }

  /** Teardowns run PeerDisconnected and nothing else. */
  predicate RunsTeardown(th: Thread) {
    && th.mine.None?
    && match th.at
       case StopSends => th.stopped.None?
       case StopDispatch => th.stopped.Some?
       case ForgetPing => true
       case Detach(d) => th.cont == ToFinish && (d == TakeEntry ==> th.wait)
       case Finished => true
       case _ => false
  }

  /** How far the disconnect handler has cleaned up behind the stop of this connection's dispatch. */
  ghost predicate CleanSoFar(s: State, th: Thread) {
    match th.at
    case ForgetPing => true
    case Detach(TakeEntry) => !s.entry.pinged
    case Detach(_) => !s.entry.pinged && s.entry.bridge.None? && (s.entry.done.None? || s.entry.done == th.waitOn)
    case Finished => IsClean(s.entry)
    case _ => false
  }

  /** Only teardowns stop a dispatch. */
  ghost predicate Unstopped(s: State, t: Tid) {
    t in s.threads ==>
      && s.threads[t].stopped.None?
      && !s.threads[t].at.StopSends? && !s.threads[t].at.StopDispatch? && !s.threads[t].at.ForgetPing?
  }

  ghost predicate TeardownInv(s: State, t: Tid) {
    t in s.threads ==>
      var th := s.threads[t];
      && (t.Teardown? ==> RunsTeardown(th))
      && (!t.Teardown? ==> Unstopped(s, t))
      && (th.stopped.Some? ==> th.stopped.value <= s.link.connection)
      && (th.stopped == Some(s.link.connection) ==>
            if th.at.StopDispatch? then s.link.sendsStopped else s.link.stopped && CleanSoFar(s, th))
  }

  ghost predicate TornDownInv(s: State) {
    && (s.link.stopped ==> DispatcherIdle(s))
    && (forall t :: TeardownInv(s, t))
    && (forall g :: g in s.link.tornDown ==> g <= s.link.connection)
    && (s.link.connection in s.link.tornDown ==> s.link.stopped && IsClean(s.entry))
  }

  /** With the dispatch stopped, the peer's entries only ever go away. */
  ghost predicate Shrinks(s: State, s': State) {
    && s'.link.stopped && s'.link.connection == s.link.connection
    && (s.entry.bridge.None? ==> s'.entry.bridge.None?)
    && (s'.entry.done == s.entry.done || s'.entry.done.None?)
    && (s'.entry.pinged ==> s.entry.pinged)
    && Dispatcher in s.threads && Dispatcher in s'.threads && s'.threads[Dispatcher] == s.threads[Dispatcher]
  }

  lemma DetachShrinks(s: State, t: Tid, d: DetachPlace)
    requires t in s.threads && t != Dispatcher && Dispatcher in s.threads && s.link.stopped
    ensures Shrinks(s, DetachStep(s, t, s.threads[t], d))
  {
    match d
    case TakeEntry =>
    case CancelStream =>
    case CloseBridge =>
    case AwaitDone =>
  }

  lemma OwnShrinks(s: State, t: Tid, o: OwnPlace, c: Choice)
    requires t in s.threads && t != Dispatcher && Dispatcher in s.threads && s.link.stopped && o != PreStream
    ensures Shrinks(s, OwnStep(s, t, s.threads[t], o, c))
  {
  }

  lemma ExitingShrinks(s: State, t: Tid, x: ExitPlace, c: Choice)
    requires t in s.threads && t != Dispatcher && Dispatcher in s.threads && s.link.stopped
    ensures Shrinks(s, ExitingStep(s, t, s.threads[t], x, c))
  {
  }

  lemma StepShrinks(s: State, t: Tid, c: Choice)
    requires Inv(s) && s.link.stopped && DispatcherIdle(s) && t in s.threads && CanMove(s, t)
    ensures Shrinks(s, Step(s, t, c))
  {
    assert ThreadInv(s, t);
    assert Fits(s.threads[t], t);
    assert t != Dispatcher;
    match s.threads[t].at
    case Detach(d) => DetachShrinks(s, t, d);
    case Own(o) => OwnShrinks(s, t, o, c);
    case Exit(x) => ExitingShrinks(s, t, x, c);
    case _ =>
  }

  lemma BystandersKeepTeardown(s: State, t: Tid, c: Choice, u: Tid)
    requires Inv(s) && TornDownInv(s) && t in s.threads && CanMove(s, t)
    requires u in s.threads && u != t && u in Step(s, t, c).threads
    ensures TeardownInv(Step(s, t, c), u)
  {
    OthersStay(s, t, c, u);
    assert TeardownInv(s, u);
    StepKeepsConnection(s, t, c);
    if s.link.stopped { StepShrinks(s, t, c); }
  }

  predicate StopsNow(s: State, t: Tid)
    requires t in s.threads
  {
    s.threads[t].at.StopDispatch? && s.threads[t].stopped == Some(s.link.connection)
  }

  lemma OwnKeepsConnection(s: State, t: Tid, th: Thread, o: OwnPlace, c: Choice)
    ensures var s' := OwnStep(s, t, th, o, c);
            s'.link == s.link
  {
  }

  lemma ServeKeepsConnection(s: State, t: Tid, th: Thread, r: ServePlace, c: Choice)
    ensures var s' := ServeStep(s, t, th, r, c);
            s'.link == s.link
  {
  }

  lemma ExitingKeepsConnection(s: State, t: Tid, th: Thread, x: ExitPlace, c: Choice)
    ensures var s' := ExitingStep(s, t, th, x, c);
            s'.link == s.link
            || (th.stopped.Some? && s'.link == s.link.(tornDown := s.link.tornDown + {th.stopped.value}))
  {
  }

  lemma StepKeepsConnection(s: State, t: Tid, c: Choice)
    requires t in s.threads
    ensures Step(s, t, c).link.connection == s.link.connection
    ensures Step(s, t, c).link.sendsStopped == (s.link.sendsStopped || s.threads[t].at.StopSends?)
    ensures Step(s, t, c).link.stopped == (s.link.stopped || StopsNow(s, t))
  {
    var th := s.threads[t];
    match th.at
    case Detach(d) =>
    case Serve(r) => ServeKeepsConnection(s, t, th, r, c);
    case Own(o) => OwnKeepsConnection(s, t, th, o, c);
    case Exit(x) => ExitingKeepsConnection(s, t, th, x, c);
    case _ =>
  }

  lemma NextOwnKeepsUnstopped(s: State, th: Thread, o: OwnPlace, c: Choice)
    requires th.stopped.None? && th.at == Own(o)
    ensures var th' := NextOwn(s, th, o, c);
            th'.stopped.None? && !th'.at.StopSends? && !th'.at.StopDispatch? && !th'.at.ForgetPing?
  {
  }

  lemma OwnKeepsUnstopped(s: State, t: Tid, o: OwnPlace, c: Choice)
    requires t in s.threads && Unstopped(s, t) && s.threads[t].at == Own(o)
    ensures Unstopped(OwnStep(s, t, s.threads[t], o, c), t)
  {
    match o
    case EndStream =>
    case CloseDone =>
    case PreStream =>
      if c.Fails? || c.Panics? { NextOwnKeepsUnstopped(s, s.threads[t], o, c); } else { StartsUnstopped(s, t, c); }
    case _ => NextOwnKeepsUnstopped(s, s.threads[t], o, c);
  }

  lemma StartsUnstopped(s: State, t: Tid, c: Choice)
    requires t in s.threads && Unstopped(s, t) && s.threads[t].at == Own(PreStream) && !c.Fails? && !c.Panics?
    ensures Unstopped(OwnStep(s, t, s.threads[t], PreStream, c), t)
  {
    StartedUnstopped(Control(s, c, OwnEvent(s.threads[t], PreStream)), t, s.threads[t]);
  }

  lemma StartedUnstopped(s: State, t: Tid, th: Thread)
    requires t in s.threads && Unstopped(s, t) && s.threads[t] == th
    ensures Unstopped(StartStep(s, t, th), t)
  {
  }

  lemma DetachKeepsUnstopped(s: State, t: Tid, d: DetachPlace)
    requires t in s.threads && Unstopped(s, t)
    ensures Unstopped(DetachStep(s, t, s.threads[t], d), t)
  {
    match d
    case TakeEntry =>
    case CancelStream =>
    case CloseBridge =>
    case AwaitDone =>
  }

  lemma ServeKeepsUnstopped(s: State, t: Tid, r: ServePlace, c: Choice)
    requires t in s.threads && Unstopped(s, t)
    ensures Unstopped(ServeStep(s, t, s.threads[t], r, c), t)
  {
  }

  lemma ExitingKeepsUnstopped(s: State, t: Tid, x: ExitPlace, c: Choice)
    requires t in s.threads && Unstopped(s, t)
    ensures Unstopped(ExitingStep(s, t, s.threads[t], x, c), t)
  {
  }

  lemma OthersNeverStop(s: State, t: Tid, c: Choice)
    requires t in s.threads && Unstopped(s, t)
    ensures Unstopped(Step(s, t, c), t)
  {
    match s.threads[t].at
    case Detach(d) => DetachKeepsUnstopped(s, t, d);
    case Serve(r) => ServeKeepsUnstopped(s, t, r, c);
    case Own(o) => OwnKeepsUnstopped(s, t, o, c);
    case Exit(x) => ExitingKeepsUnstopped(s, t, x, c);
    case _ =>
  }

  lemma TeardownDetaches(s: State, t: Tid, d: DetachPlace)
    requires t.Teardown? && t in s.threads && s.threads[t].at == Detach(d)
    requires EntryInv(s) && ThreadInv(s, t) && TeardownInv(s, t) && CanMove(s, t)
    requires s.entry.done.Some? ==> AttachmentInv(s, s.entry.done.value)
    ensures TeardownInv(DetachStep(s, t, s.threads[t], d), t)
    ensures GrowsClean(s, DetachStep(s, t, s.threads[t], d))
  {
    match d
    case TakeEntry =>
    case CancelStream =>
    case CloseBridge =>
    case AwaitDone =>
  }

  predicate CleanIfCurrent(s: State, s': State, g: nat) {
    g == s.link.connection ==> s.link.stopped && IsClean(s'.entry)
  }

  /** A connection counts as torn down only once its entries are gone. */
  ghost predicate GrowsClean(s: State, s': State) {
    s'.link.tornDown == s.link.tornDown
    || exists g :: s'.link.tornDown == s.link.tornDown + {g} && g <= s.link.connection && CleanIfCurrent(s, s', g)
  }

  lemma TeardownAdvances(s: State, t: Tid, c: Choice)
    requires Inv(s) && TeardownInv(s, t) && t.Teardown? && t in s.threads && CanMove(s, t)
    ensures TeardownInv(Step(s, t, c), t)
    ensures GrowsClean(s, Step(s, t, c))
  {
    assert ThreadInv(s, t);
    if s.threads[t].at.Detach? {
      if s.entry.done.Some? { assert AttachmentInv(s, s.entry.done.value); }
      TeardownDetaches(s, t, s.threads[t].at.detach);
    } else {
      TeardownStops(s, t, c);
    }
  }

  lemma TeardownStops(s: State, t: Tid, c: Choice)
    requires TeardownInv(s, t) && t.Teardown? && t in s.threads && CanMove(s, t) && !s.threads[t].at.Detach?
    ensures TeardownInv(Step(s, t, c), t)
    ensures Step(s, t, c).link.tornDown == s.link.tornDown
  {
    assert RunsTeardown(s.threads[t]);
    match s.threads[t].at
    case StopSends =>
    case StopDispatch =>
    case ForgetPing =>
    case Finished =>
  }

  /** Only finished teardowns mark a connection as torn down. */
  lemma OthersTearNothing(s: State, t: Tid, c: Choice)
    requires t in s.threads && s.threads[t].stopped.None?
    ensures Step(s, t, c).link.tornDown == s.link.tornDown
  {
    match s.threads[t].at
    case Detach(d) =>
    case Serve(r) => ServeKeepsConnection(s, t, s.threads[t], r, c);
    case Own(o) => OwnKeepsConnection(s, t, s.threads[t], o, c);
    case Exit(x) => ExitingKeepsConnection(s, t, s.threads[t], x, c);
    case _ =>
  }

  lemma StartedTeardowns(s: State, t: Tid, c: Choice, u: Tid)
    requires Inv(s) && TornDownInv(s) && t in s.threads && CanMove(s, t) && u != t && u !in s.threads
    ensures TeardownInv(Step(s, t, c), u)
  {
    var th := s.threads[t];
    assert ThreadInv(s, t);
    if th.at != Own(PreStream) {
      StepLeavesOthers(s, t, c, u);
    } else if !(c.Fails? || c.Panics?) {
      StartedIsNoTeardown(Control(s, c, OwnEvent(th, PreStream)), t, th, u);
    }
  }

  lemma StartedIsNoTeardown(s: State, t: Tid, th: Thread, u: Tid)
    requires th.mine.Some? && u != t && u !in s.threads
    ensures TeardownInv(StartStep(s, t, th), u)
  {
  }

  lemma StepKeepsTornDown(s: State, t: Tid, c: Choice)
    requires Inv(s) && TornDownInv(s) && t in s.threads && CanMove(s, t)
    ensures TornDownInv(Step(s, t, c))
  {
    var s' := Step(s, t, c);
    assert TeardownInv(s, t);
    StepKeepsConnection(s, t, c);
    if s.link.stopped { StepShrinks(s, t, c); }
    if t.Teardown? { TeardownAdvances(s, t, c); } else { OthersNeverStop(s, t, c); OthersTearNothing(s, t, c); }
    forall u ensures TeardownInv(s', u) {
      if u != t {
        if u in s.threads && u in s'.threads { BystandersKeepTeardown(s, t, c, u); }
        else if u in s'.threads { StartedTeardowns(s, t, c, u); }
      }
    }
    if !s.link.stopped && StopsNow(s, t) {
      OthersStay(s, t, c, Dispatcher);
    }
  }

  lemma EnvironmentKeepsTeardown(s: State, a: Action, u: Tid)
    requires TeardownInv(s, u) && Enabled(s, a) && !a.Move?
    ensures TeardownInv(Next(s, a), u)
  {
    match a
    case Disconnect(_, _) =>
    case ShutDownAgent =>
    case Displace(_) =>
    case NextConnection =>
  }

  lemma NextKeepsTornDown(s: State, a: Action)
    requires Inv(s) && TornDownInv(s) && Enabled(s, a)
    ensures TornDownInv(Next(s, a))
  {
    if a.Move? {
      StepKeepsTornDown(s, a.t, a.c);
    } else {
      forall u ensures TeardownInv(Next(s, a), u) {
        assert TeardownInv(s, u);
        EnvironmentKeepsTeardown(s, a, u);
      }
    }
  }

  lemma {:induction false} RunKeepsTornDown(states: seq<State>, actions: seq<Action>, i: nat)
    requires IsRun(states, actions) && i < |states|
    ensures Inv(states[i]) && TornDownInv(states[i])
  {
    RunKeepsInv(states, actions, i);
    if i > 0 {
      RunKeepsTornDown(states, actions, i - 1);
      TornDownByOne(states, actions, i);
    }
  }

  lemma TornDownByOne(states: seq<State>, actions: seq<Action>, i: nat)
    requires IsRun(states, actions) && 0 < i < |states|
    requires Inv(states[i - 1]) && TornDownInv(states[i - 1])
    ensures TornDownInv(states[i])
  {
    assert Follows(states, actions, i - 1);
    NextKeepsTornDown(states[i - 1], actions[i - 1]);
  }

  /**
   Once the current connection's dispatch has been stopped and its disconnect
   handler has returned, nothing of the peer is left in any of the handler's
   maps, and nothing comes back until the peer's next connection.
   */
  lemma TornDownPeerIsGone(states: seq<State>, actions: seq<Action>, i: nat)
    requires IsRun(states, actions) && i < |states|
    requires states[i].link.connection in states[i].link.tornDown
    ensures states[i].entry == NO_ENTRY
  {
    RunKeepsTornDown(states, actions, i);
  }
}
