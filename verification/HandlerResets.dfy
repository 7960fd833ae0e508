/** Which stream_resets are owed: a failed stream sends its own, unless somebody else ended it. */
module HandlerResets {
  import opened Common
  import opened HandlerSteps
  import opened HandlerInvariant
  import opened HandlerSafety
  import opened HandlerProgress
  import opened HandlerSilence
  import opened HandlerEndings

  // ------------------------------------------------- who else can cancel a stream

  /** Only the owner of an attachment detaches without waiting. */
  predicate WaitsForOthers(s: State, t: Tid) {
    t in s.threads && (s.threads[t].at.Detach? || s.threads[t].at.Exit?) && s.threads[t].mine.None? ==>
      s.threads[t].wait
  }

  /** What another thread's detach has taken out is marked, as long as its stream lives. */
  predicate HoldsMarked(s: State, t: Tid) {
    t in s.threads && s.threads[t].held.Some? && s.threads[t].mine != s.threads[t].held
      && s.Att(s.threads[t].held).life.Live?
    ==> s.threads[t].held.value in s.entry.superseded
  }

  /** While the agent runs, a live stream is cancelled only by its own detach, or by one that has marked it. */
  predicate CancelledIsMarked(s: State, n: nat) {
    n < |s.atts| && s.atts[n].life.Live? && s.atts[n].cancelled && !s.agentDown ==>
      || n in s.entry.superseded
      || (s.atts[n].life.owner in s.threads && IsPastDetach(s.threads[s.atts[n].life.owner]))
  }

  ghost predicate MarksInv(s: State) {
    && (forall t :: WaitsForOthers(s, t))
    && (forall t :: HoldsMarked(s, t))
    && (forall n: nat :: CancelledIsMarked(s, n))
  }

  lemma MoverWaits(s: State, t: Tid, c: Choice)
    requires t in s.threads && ThreadInv(s, t) && WaitsForOthers(s, t) && CanMove(s, t)
    ensures WaitsForOthers(Step(s, t, c), t)
  {
    match s.threads[t].at
    case Detach(d) => DetacherWaits(s, t, d);
    case Serve(r) => ServerWaits(s, t, r, c);
    case Own(o) => OwnerWaits(s, t, o, c);
    case Exit(x) => AnnouncerWaits(s, t, x, c);
    case _ => RestingWaits(s, t, c);
  }

  lemma DetacherWaits(s: State, t: Tid, d: DetachPlace)
    requires t in s.threads && WaitsForOthers(s, t) && s.threads[t].at == Detach(d)
    ensures WaitsForOthers(DetachStep(s, t, s.threads[t], d), t)
  {
    match d
    case TakeEntry =>
    case CancelStream =>
    case CloseBridge =>
    case AwaitDone =>
  }

  lemma ServerWaits(s: State, t: Tid, r: ServePlace, c: Choice)
    requires t in s.threads && s.threads[t].at == Serve(r)
    ensures WaitsForOthers(ServeStep(s, t, s.threads[t], r, c), t)
  {
    match r
    case ReadPane =>
    case SendPaneMissing(_) =>
    case SendSessions =>
    case SendDetached =>
    case OpenBridge =>
    case OpenFailed =>
    case InstallBridge =>
  }

  lemma OwnerWaits(s: State, t: Tid, o: OwnPlace, c: Choice)
    requires t in s.threads && ThreadInv(s, t) && s.threads[t].at == Own(o)
    ensures WaitsForOthers(OwnStep(s, t, s.threads[t], o, c), t)
  {
    if o == PreStream || o == EndStream || o == CloseDone { } else { OwnStepIsQuiet(s, t, o, c); }
  }

  lemma AnnouncerWaits(s: State, t: Tid, x: ExitPlace, c: Choice)
    requires t in s.threads && WaitsForOthers(s, t) && s.threads[t].at == Exit(x)
    ensures WaitsForOthers(ExitingStep(s, t, s.threads[t], x, c), t)
  {
    match x
    case TryExit =>
    case SendPaneClosed =>
    case SendExitSessions =>
  }

  lemma RestingWaits(s: State, t: Tid, c: Choice)
    requires t in s.threads
    requires var at := s.threads[t].at; !at.Detach? && !at.Serve? && !at.Own? && !at.Exit?
    ensures WaitsForOthers(Step(s, t, c), t)
  {
    match s.threads[t].at
    case Idle =>
    case Finished =>
    case Watching =>
    case StopSends =>
    case StopDispatch =>
    case ForgetPing =>
  }

  /** A stream that lives was alive before, or has just been installed. */
  lemma LivedBefore(s: State, t: Tid, c: Choice, n: nat)
    requires Inv(s) && t in s.threads && CanMove(s, t) && n < |s.atts|
    requires n < |Step(s, t, c).atts| && Step(s, t, c).atts[n].life.Live?
    ensures s.atts[n].life.Live?
    ensures !(s.threads[t].at == Own(EndStream) && s.threads[t].mine == Some(n))
  {
    StepKeepsInv(s, t, c);
    StepGrows(s, t, c);
    assert AttachmentInv(s, n) && AttachmentInv(Step(s, t, c), n);
    assert ThreadInv(s, t);
  }

  /** Only a detach holds anything. */
  predicate HoldsNothing(s: State, t: Tid) {
    t in s.threads ==> s.threads[t].held.None?
  }

  lemma ServerHoldsNothing(s: State, t: Tid, r: ServePlace, c: Choice)
    requires t in s.threads && s.threads[t].held.None?
    ensures HoldsNothing(ServeStep(s, t, s.threads[t], r, c), t)
  {
    match r
    case ReadPane =>
    case SendPaneMissing(_) =>
    case SendSessions =>
    case SendDetached =>
    case OpenBridge =>
    case OpenFailed =>
    case InstallBridge =>
  }

  lemma OwnerHoldsNothing(s: State, t: Tid, o: OwnPlace, c: Choice)
    requires t in s.threads && ThreadInv(s, t) && s.threads[t].at == Own(o)
    ensures HoldsNothing(OwnStep(s, t, s.threads[t], o, c), t)
  {
    if o == PreStream || o == EndStream || o == CloseDone { } else { OwnStepIsQuiet(s, t, o, c); }
  }

  lemma AnnouncerHoldsNothing(s: State, t: Tid, x: ExitPlace, c: Choice)
    requires t in s.threads && s.threads[t].held.None?
    ensures HoldsNothing(ExitingStep(s, t, s.threads[t], x, c), t)
  {
    match x
    case TryExit =>
    case SendPaneClosed =>
    case SendExitSessions =>
  }

  lemma RestingHoldsNothing(s: State, t: Tid, c: Choice)
    requires t in s.threads && s.threads[t].held.None?
    requires var at := s.threads[t].at; !at.Detach? && !at.Serve? && !at.Own? && !at.Exit?
    ensures HoldsNothing(Step(s, t, c), t)
  {
    match s.threads[t].at
    case Idle =>
    case Finished =>
    case Watching =>
    case StopSends =>
    case StopDispatch =>
    case ForgetPing =>
  }

  lemma DetacherHoldsMarked(s: State, t: Tid, d: DetachPlace)
    requires Inv(s) && WaitsForOthers(s, t) && HoldsMarked(s, t) && t in s.threads && s.threads[t].at == Detach(d)
    ensures HoldsMarked(DetachStep(s, t, s.threads[t], d), t)
  {
    assert ThreadInv(s, t);
    match d
    case TakeEntry => TakerMarks(s, t);
    case CancelStream =>
    case CloseBridge =>
    case AwaitDone =>
  }

  /** The mover holds what it took out: marked, unless it is the mover's own. */
  lemma MoverHoldsMarked(s: State, t: Tid, c: Choice)
    requires Inv(s) && WaitsForOthers(s, t) && HoldsMarked(s, t) && t in s.threads && CanMove(s, t)
    ensures HoldsMarked(Step(s, t, c), t)
  {
    assert ThreadInv(s, t);
    match s.threads[t].at
    case Detach(d) => DetacherHoldsMarked(s, t, d);
    case Serve(r) => ServerHoldsNothing(s, t, r, c);
    case Own(o) => OwnerHoldsNothing(s, t, o, c);
    case Exit(x) => AnnouncerHoldsNothing(s, t, x, c);
    case _ => RestingHoldsNothing(s, t, c);
  }

  lemma TakerMarks(s: State, t: Tid)
    requires Inv(s) && WaitsForOthers(s, t) && t in s.threads && s.threads[t].at == Detach(TakeEntry)
    ensures HoldsMarked(TakeStep(s, t, s.threads[t]), t)
  {
    assert ThreadInv(s, t);
    if s.entry.bridge.Some? { assert AttachmentInv(s, s.entry.bridge.value); }
    if s.threads[t].mine.Some? { assert AttachmentInv(s, s.threads[t].mine.value); }
  }

  lemma BystanderHoldsMarked(s: State, t: Tid, c: Choice, u: Tid)
    requires Inv(s) && HoldsMarked(s, u) && t in s.threads && CanMove(s, t) && u in s.threads && u != t
    ensures HoldsMarked(Step(s, t, c), u)
  {
    OthersStay(s, t, c, u);
    assert ThreadInv(s, u);
    if s.threads[u].held.Some? {
      var n := s.threads[u].held.value;
      var s' := Step(s, t, c);
      StepGrows(s, t, c);
      if s'.Att(Some(n)).life.Live? {
        LivedBefore(s, t, c, n);
        if n in s.entry.superseded { MarkStays(s, t, c, n); }
      }
    }
  }

  lemma NewcomersHoldNothing(s: State, t: Tid, c: Choice, u: Tid)
    requires Inv(s) && t in s.threads && CanMove(s, t) && u !in s.threads
    ensures HoldsMarked(Step(s, t, c), u) && WaitsForOthers(Step(s, t, c), u)
  {
    assert ThreadInv(s, t);
    if s.threads[t].at != Own(PreStream) {
      StepLeavesOthers(s, t, c, u);
    } else if !(c.Fails? || c.Panics?) {
      StartedHoldNothing(Control(s, c, OwnEvent(s.threads[t], PreStream)), t, s.threads[t], u);
    }
  }

  lemma StartedHoldNothing(s: State, t: Tid, th: Thread, u: Tid)
    requires u != t && u !in s.threads
    ensures HoldsMarked(StartStep(s, t, th), u) && WaitsForOthers(StartStep(s, t, th), u)
  {
  }

  lemma OwnKeepsAgent(s: State, t: Tid, th: Thread, o: OwnPlace, c: Choice)
    ensures OwnStep(s, t, th, o, c).agentDown == s.agentDown
  {
    if o == PreStream {
      StartIgnoresSent(s, t, th, Control(s, c, OwnEvent(th, o)).sent);
    } else if o == EndStream {
    } else if o == CloseDone {
    } else {
    }
  }

  lemma DetachKeepsAgent(s: State, t: Tid, th: Thread, d: DetachPlace)
    ensures DetachStep(s, t, th, d).agentDown == s.agentDown
  {
    match d
    case TakeEntry =>
    case CancelStream =>
    case CloseBridge =>
    case AwaitDone =>
  }

  lemma ServeKeepsAgent(s: State, t: Tid, th: Thread, r: ServePlace, c: Choice)
    ensures ServeStep(s, t, th, r, c).agentDown == s.agentDown
  {
    match r
    case InstallBridge =>
    case _ =>
  }

  lemma ExitingKeepsAgent(s: State, t: Tid, th: Thread, x: ExitPlace, c: Choice)
    ensures ExitingStep(s, t, th, x, c).agentDown == s.agentDown
  {
    match x
    case TryExit =>
    case SendPaneClosed =>
    case SendExitSessions =>
  }

  lemma AgentDownByEnvironment(s: State, t: Tid, c: Choice)
    requires t in s.threads
    ensures Step(s, t, c).agentDown == s.agentDown
  {
    var th := s.threads[t];
    match th.at
    case Detach(d) => DetachKeepsAgent(s, t, th, d);
    case Serve(r) => ServeKeepsAgent(s, t, th, r, c);
    case Own(o) => OwnKeepsAgent(s, t, th, o, c);
    case Exit(x) => ExitingKeepsAgent(s, t, th, x, c);
    case Idle =>
    case Finished =>
    case Watching =>
    case StopSends =>
    case StopDispatch =>
    case ForgetPing =>
  }

  lemma InstalledUncancelled(s: State, t: Tid, c: Choice, n: nat)
    requires t in s.threads && |s.atts| <= n < |Step(s, t, c).atts| && !s.agentDown
    ensures !Step(s, t, c).atts[n].cancelled
  {
    var th := s.threads[t];
    match th.at
    case Detach(d) => DetachMakesNone(s, t, th, d);
    case Serve(r) => ServeInstallsUncancelled(s, t, th, r, c, n);
    case Own(o) => OwnMakesNone(s, t, th, o, c);
    case Exit(x) => ExitMakesNone(s, t, th, x, c);
    case _ => RestingKeepsAttachments(s, t, c);
  }

  lemma ServeInstallsUncancelled(s: State, t: Tid, th: Thread, r: ServePlace, c: Choice, n: nat)
    requires |s.atts| <= n < |ServeStep(s, t, th, r, c).atts| && !s.agentDown
    ensures !ServeStep(s, t, th, r, c).atts[n].cancelled
  {
    match r
    case InstallBridge =>
    case _ =>
  }

  lemma ExitMakesNone(s: State, t: Tid, th: Thread, x: ExitPlace, c: Choice)
    ensures |ExitingStep(s, t, th, x, c).atts| == |s.atts|
  {
    match x
    case TryExit =>
    case SendPaneClosed =>
    case SendExitSessions =>
  }

  /** Behind its detach, an owner stays behind it until it ends its stream. */
  lemma OwnerStaysPast(s: State, t: Tid, c: Choice)
    requires t in s.threads && ThreadInv(s, t) && CanMove(s, t)
    requires s.threads[t].mine.Some? && IsPastDetach(s.threads[t])
    requires s.threads[t].at != Own(EndStream) && s.threads[t].at != Own(CloseDone)
    ensures t in Step(s, t, c).threads && IsPastDetach(Step(s, t, c).threads[t])
    ensures Step(s, t, c).threads[t].mine == s.threads[t].mine
  {
    match s.threads[t].at
    case Detach(CancelStream) =>
    case Detach(CloseBridge) =>
    case Detach(AwaitDone) =>
    case Own(CheckSuperseded) =>
    case Own(SendReset) =>
  }

  lemma PastOwnerKeeps(s: State, t: Tid, c: Choice, n: nat)
    requires Inv(s) && t in s.threads && CanMove(s, t) && n < |s.atts| && s.atts[n].life.Live?
    requires n < |Step(s, t, c).atts| && Step(s, t, c).atts[n].life.Live?
    requires s.atts[n].life.owner in s.threads && IsPastDetach(s.threads[s.atts[n].life.owner])
    ensures CancelledIsMarked(Step(s, t, c), n)
  {
    var u, s' := s.atts[n].life.owner, Step(s, t, c);
    StepKeepsInv(s, t, c);
    LivedBefore(s, t, c, n);
    assert AttachmentInv(s, n) && ThreadInv(s, u);
    if u == t { OwnerStaysPast(s, t, c); } else { OthersStay(s, t, c, u); }
    assert ThreadInv(s', u) && AttachmentInv(s', n);
  }

  lemma CancellerKeeps(s: State, t: Tid, n: nat)
    requires Inv(s) && HoldsMarked(s, t) && t in s.threads && Cancels(s.threads[t], n)
    requires n < |s.atts| && s.atts[n].life.Live? && n !in s.entry.superseded
    ensures CancelledIsMarked(CancelStep(s, t, s.threads[t]), n)
  {
    assert ThreadInv(s, t);
  }

  lemma StepKeepsCancelledMarked(s: State, t: Tid, c: Choice, n: nat)
    requires Inv(s) && HoldsMarked(s, t) && CancelledIsMarked(s, n) && t in s.threads && CanMove(s, t)
    ensures CancelledIsMarked(Step(s, t, c), n)
  {
    var s' := Step(s, t, c);
    AgentDownByEnvironment(s, t, c);
    if n < |s'.atts| && s'.atts[n].life.Live? && s'.atts[n].cancelled && !s.agentDown {
      if n >= |s.atts| {
        InstalledUncancelled(s, t, c, n);
      } else {
        LivedBefore(s, t, c, n);
        CancelledByDetach(s, t, c, n);
        if n in s.entry.superseded {
          MarkStays(s, t, c, n);
        } else if s.atts[n].cancelled {
          PastOwnerKeeps(s, t, c, n);
        } else {
          CancellerKeeps(s, t, n);
        }
      }
    }
  }

  lemma StepKeepsMarks(s: State, t: Tid, c: Choice)
    requires Inv(s) && MarksInv(s) && t in s.threads && CanMove(s, t)
    ensures MarksInv(Step(s, t, c))
  {
    var s' := Step(s, t, c);
    assert ThreadInv(s, t);
    forall u ensures WaitsForOthers(s', u) && HoldsMarked(s', u) {
      assert WaitsForOthers(s, u) && HoldsMarked(s, u);
      if u == t {
        MoverWaits(s, t, c);
        MoverHoldsMarked(s, t, c);
      } else if u in s.threads {
        OthersStay(s, t, c, u);
        BystanderHoldsMarked(s, t, c, u);
      } else {
        NewcomersHoldNothing(s, t, c, u);
      }
    }
    forall n: nat ensures CancelledIsMarked(s', n) {
      assert HoldsMarked(s, t) && CancelledIsMarked(s, n);
      StepKeepsCancelledMarked(s, t, c, n);
    }
  }

  lemma EnvironmentKeepsMarks(s: State, a: Action)
    requires Inv(s) && MarksInv(s) && Enabled(s, a) && !a.Move?
    ensures MarksInv(Next(s, a))
  {
    var s' := Next(s, a);
    forall u ensures WaitsForOthers(s', u) && HoldsMarked(s', u) {
      assert WaitsForOthers(s, u) && HoldsMarked(s, u);
      if u in s.threads { assert ThreadInv(s, u); }
      EnvironmentKeepsThreadMarks(s, a, u);
    }
    forall n: nat ensures CancelledIsMarked(s', n) {
      assert CancelledIsMarked(s, n);
      if n < |s.atts| { assert AttachmentInv(s, n); }
      EnvironmentKeepsCancelled(s, a, n);
    }
  }

  lemma EnvironmentKeepsThreadMarks(s: State, a: Action, u: Tid)
    requires WaitsForOthers(s, u) && HoldsMarked(s, u) && Enabled(s, a) && !a.Move?
    ensures WaitsForOthers(Next(s, a), u) && HoldsMarked(Next(s, a), u)
  {
    match a
    case Disconnect(_, _) =>
    case ShutDownAgent =>
    case Displace(_) =>
    case NextConnection =>
  }

  lemma EnvironmentKeepsCancelled(s: State, a: Action, n: nat)
    requires CancelledIsMarked(s, n) && Enabled(s, a) && !a.Move?
    ensures CancelledIsMarked(Next(s, a), n)
  {
    match a
    case Disconnect(_, _) =>
    case ShutDownAgent =>
    case Displace(_) =>
    case NextConnection =>
  }

  lemma {:induction false} RunKeepsMarks(states: seq<State>, actions: seq<Action>, i: nat)
    requires IsRun(states, actions) && i < |states|
    ensures MarksInv(states[i])
  {
    if i > 0 {
      RunKeepsMarks(states, actions, i - 1);
      RunKeepsInv(states, actions, i - 1);
      assert Follows(states, actions, i - 1);
      if actions[i - 1].Move? {
        StepKeepsMarks(states[i - 1], actions[i - 1].t, actions[i - 1].c);
      } else {
        EnvironmentKeepsMarks(states[i - 1], actions[i - 1]);
      }
    }
  }

  // ------------------------------------------------------------------ whole runs

  /** A thread whose stream, or whose send before the stream, has failed. */
  predicate HasFailed(s: State, t: Tid, n: nat) {
    && t in s.threads && s.threads[t].mine == Some(n)
    && (s.threads[t].at == Own(StreamFailed) || s.threads[t].at == Own(PreStreamFailed))
  }

  /** Somebody else has taken over telling the peer: a detach waits for the stream, or the agent shuts down. */
  predicate IsEndedByOthers(s: State, n: nat) {
    n in s.entry.superseded || s.agentDown
  }

  ghost predicate WasEndedByOthers(states: seq<State>, n: nat, i: nat, j: nat)
    requires j < |states|
  {
    exists k :: i <= k <= j && IsEndedByOthers(states[k], n)
  }

  /** A failed stream that was not cancelled when it failed is cancelled later only by others. */
  lemma CancelledByOthers(s: State, t: Tid, n: nat)
    requires Inv(s) && MarksInv(s) && HasFailed(s, t, n) && s.IsCancelled(Some(n))
    ensures IsEndedByOthers(s, n)
  {
    assert ThreadInv(s, t) && CancelledIsMarked(s, n);
  }

  lemma FailedGoesOn(s: State, a: Action, t: Tid, n: nat)
    requires Inv(s) && MarksInv(s) && Enabled(s, a) && HasFailed(s, t, n)
    ensures HasFailed(Next(s, a), t, n) || IsResetting(Next(s, a), t, n) || IsEndedByOthers(s, n)
  {
    match a
    case Move(u, c) =>
      if u != t {
        OthersStay(s, u, c, t);
      } else if s.IsCancelled(Some(n)) {
        CancelledByOthers(s, t, n);
      } else {
        BreakingOffDetaches(s, t, c);
      }
    case Disconnect(_, _) =>
    case ShutDownAgent =>
    case Displace(_) =>
    case NextConnection =>
  }

  lemma ResettingByOne(s: State, a: Action, t: Tid, n: nat)
    requires Inv(s) && Enabled(s, a) && IsResetting(s, t, n)
    ensures IsResetting(Next(s, a), t, n) || ResetsOrIsLetOff(s, a, t, n)
  {
    if a.Move? && a.t == t { ResettingGoesOn(s, t, a.c, n); } else { ResettingUndisturbed(s, a, t, n); }
  }

  lemma FailureByOne(states: seq<State>, actions: seq<Action>, t: Tid, n: nat, i: nat)
    requires IsRun(states, actions) && i < |actions|
    requires HasFailed(states[i], t, n) || IsResetting(states[i], t, n)
    ensures HasFailed(states[i + 1], t, n) || IsResetting(states[i + 1], t, n)
         || ResetsOrIsLetOff(states[i], actions[i], t, n) || IsEndedByOthers(states[i], n)
  {
    RunKeepsInv(states, actions, i);
    RunKeepsMarks(states, actions, i);
    assert Follows(states, actions, i);
    if HasFailed(states[i], t, n) {
      FailedGoesOn(states[i], actions[i], t, n);
    } else {
      ResettingByOne(states[i], actions[i], t, n);
    }
  }

  lemma {:induction false} FailureLeadsToReset(states: seq<State>, actions: seq<Action>, t: Tid, n: nat, i: nat, j: nat)
    requires IsRun(states, actions) && i <= j < |states| && HasFailed(states[i], t, n)
    ensures HasFailed(states[j], t, n) || IsResetting(states[j], t, n)
         || HasReset(states, actions, t, n, i, j) || WasEndedByOthers(states, n, i, j)
    decreases j
  {
    if i < j {
      FailureLeadsToReset(states, actions, t, n, i, j - 1);
      if HasFailed(states[j - 1], t, n) || IsResetting(states[j - 1], t, n) {
        FailureByOne(states, actions, t, n, j - 1);
      }
    }
  }

  /**
   A stream whose send or compression failed, or whose send before the stream
   did, comes to its end only behind its own attempt to send stream_reset,
   unless in the meantime a detach that waits for it marked it superseded, or
   the agent was shut down.
   */
  lemma FailedStreamsReset(states: seq<State>, actions: seq<Action>, t: Tid, n: nat, i: nat, j: nat)
    requires IsRun(states, actions) && i <= j < |states| && HasFailed(states[i], t, n)
    requires t in states[j].threads && states[j].threads[t].mine == Some(n) && states[j].threads[t].at == Own(CloseDone)
    ensures (exists k :: i <= k < j && SendsReset(states[k], actions[k], t, n)) || WasEndedByOthers(states, n, i, j)
  {
    FailureLeadsToReset(states, actions, t, n, i, j);
    if !WasEndedByOthers(states, n, i, j) {
      var k :| i <= k < j && ResetsOrIsLetOff(states[k], actions[k], t, n);
      assert !IsEndedByOthers(states[k], n);
      assert SendsReset(states[k], actions[k], t, n);
    }
  }

  predicate SendsReset(s: State, a: Action, t: Tid, n: nat) {
    a.Move? && a.t == t && t in s.threads && s.threads[t].mine == Some(n) && s.threads[t].at == Own(SendReset)
  }
}
