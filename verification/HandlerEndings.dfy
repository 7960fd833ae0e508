/** How output streams end: detached, and told so, whatever went wrong. */
module HandlerEndings {
  import opened Common
  import opened HandlerSteps
  import opened HandlerInvariant
  import opened HandlerSafety
  import opened HandlerProgress
  import opened HandlerTheorems

  // --------------------------------------------------- what a stream leaves behind

  /** Nobody is misled about the attachment: somebody else ended it, it is detached, or its exit is being told. */
  predicate IsSettled(s: State, n: nat) {
    n < |s.atts| && (s.atts[n].cancelled || !s.atts[n].bridge.InMaps? || s.atts[n].exitClaims == 1)
  }

  /** The places behind a thread's own detach, or where it needs none. */
  predicate IsPastDetach(th: Thread) {
    match th.at
    case Detach(d) => d != TakeEntry
    case Own(o) => o in {CheckSuperseded, SendReset, EndStream, CloseDone}
    case _ => false
  }

  predicate EndsSettled(s: State, t: Tid) {
    t in s.threads && s.threads[t].mine.Some? && IsPastDetach(s.threads[t]) ==> IsSettled(s, s.threads[t].mine.value)
  }

  predicate OverIsSettled(s: State, n: nat) {
    n < |s.atts| && s.atts[n].life.Over? ==> IsSettled(s, n)
  }

  ghost predicate EndingsInv(s: State) {
    (forall t :: EndsSettled(s, t)) && (forall n: nat :: OverIsSettled(s, n))
  }

  // --------------------------------------------- what a thread's own step leaves

  lemma NextOwnSettled(s: State, th: Thread, o: OwnPlace, c: Choice)
    requires th.at == Own(o) && th.mine.Some? && th.mine.value < |s.atts|
    requires o != PreStream && o != EndStream && o != CloseDone
    requires IsPastDetach(th) ==> IsSettled(s, th.mine.value)
    ensures var th' := NextOwn(s, th, o, c);
            th'.mine == th.mine && (IsPastDetach(th') ==> IsSettled(s, th.mine.value))
  {
    match o
    case SendAttached =>
    case PreStreamFailed =>
    case StreamLoop =>
    case StreamRead =>
    case StreamGot =>
    case StreamSend =>
    case StreamFailed =>
    case CheckSuperseded =>
    case SendReset =>
  }

  lemma OwnEndsSettled(s: State, t: Tid, o: OwnPlace, c: Choice)
    requires t in s.threads && ThreadInv(s, t) && EndsSettled(s, t) && s.threads[t].at == Own(o) && o != PreStream
    ensures EndsSettled(OwnStep(s, t, s.threads[t], o, c), t)
  {
    if o == EndStream {
    } else if o == CloseDone {
    } else {
      NextOwnSettled(s, s.threads[t], o, c);
    }
  }

  lemma PreStreamEndsSettled(s: State, t: Tid, c: Choice)
    requires t in s.threads && ThreadInv(s, t) && s.threads[t].at == Own(PreStream)
    ensures EndsSettled(OwnStep(s, t, s.threads[t], PreStream, c), t)
  {
  }

  lemma DetachEndsSettled(s: State, t: Tid, d: DetachPlace)
    requires t in s.threads && ThreadInv(s, t) && EndsSettled(s, t) && s.threads[t].at == Detach(d)
    requires s.threads[t].mine.Some? ==> AttachmentInv(s, s.threads[t].mine.value)
    ensures EndsSettled(DetachStep(s, t, s.threads[t], d), t)
  {
    match d
    case TakeEntry =>
    case CancelStream =>
    case CloseBridge =>
    case AwaitDone =>
  }

  lemma ExitEndsSettled(s: State, t: Tid, x: ExitPlace, c: Choice)
    requires t in s.threads && ThreadInv(s, t) && EndsSettled(s, t) && s.threads[t].at == Exit(x)
    requires EntryInv(s) && (s.threads[t].mine.Some? ==> AttachmentInv(s, s.threads[t].mine.value))
    ensures EndsSettled(ExitingStep(s, t, s.threads[t], x, c), t)
  {
    match x
    case TryExit =>
    case SendPaneClosed =>
    case SendExitSessions =>
  }

  lemma MoverEndsSettled(s: State, t: Tid, c: Choice)
    requires Inv(s) && EndsSettled(s, t) && t in s.threads && CanMove(s, t)
    ensures EndsSettled(Step(s, t, c), t)
  {
    assert ThreadInv(s, t);
    if s.threads[t].mine.Some? { assert AttachmentInv(s, s.threads[t].mine.value); }
    match s.threads[t].at
    case Detach(d) => DetachEndsSettled(s, t, d);
    case Own(o) => if o == PreStream { PreStreamEndsSettled(s, t, c); } else { OwnEndsSettled(s, t, o, c); }
    case Exit(x) => ExitEndsSettled(s, t, x, c);
    case Serve(r) => ServeOwnsNothing(s, t, r, c);
    case _ => RestingOwnsNothing(s, t, c);
  }

  lemma ServeOwnsNothing(s: State, t: Tid, r: ServePlace, c: Choice)
    requires t in s.threads && ThreadInv(s, t) && s.threads[t].at == Serve(r)
    ensures EndsSettled(ServeStep(s, t, s.threads[t], r, c), t)
  {
    match r
    case ReadPane =>
    case SendPaneMissing(_) =>
    case SendSessions =>
    case SendDetached =>
    case OpenBridge =>
    case OpenFailed =>
    case InstallBridge =>
  }

  lemma RestingOwnsNothing(s: State, t: Tid, c: Choice)
    requires t in s.threads && ThreadInv(s, t)
    requires var at := s.threads[t].at; !at.Detach? && !at.Serve? && !at.Own? && !at.Exit?
    ensures EndsSettled(Step(s, t, c), t)
  {
    match s.threads[t].at
    case Idle =>
    case Finished =>
    case Watching =>
    case StopSends =>
    case StopDispatch =>
    case ForgetPing =>
  }

  // -------------------------------------------------------- what the others keep

  /** Whether thread t, standing where it does, cancels attachment n next. */
  predicate Cancels(th: Thread, n: nat) {
    th.at == Detach(CancelStream) && th.cancel == Some(n)
  }

  /** A stream's context is cancelled only by a detach of its attachment, and stays so. */
  lemma CancelledByDetach(s: State, t: Tid, c: Choice, n: nat)
    requires t in s.threads && n < |s.atts|
    ensures n < |Step(s, t, c).atts|
    ensures Step(s, t, c).atts[n].cancelled <==> s.atts[n].cancelled || Cancels(s.threads[t], n)
  {
    var th := s.threads[t];
    match th.at
    case Detach(d) => DetachCancels(s, t, th, d, n);
    case Serve(r) => ServeCancelsNothing(s, t, th, r, c, n);
    case Own(o) => OwnCancelsNothing(s, t, th, o, c, n);
    case Exit(x) => ExitCancelsNothing(s, t, th, x, c, n);
    case _ => RestingKeepsAttachments(s, t, c);
  }

  lemma DetachCancels(s: State, t: Tid, th: Thread, d: DetachPlace, n: nat)
    requires n < |s.atts| && th.at == Detach(d)
    ensures n < |DetachStep(s, t, th, d).atts|
    ensures DetachStep(s, t, th, d).atts[n].cancelled <==> s.atts[n].cancelled || Cancels(th, n)
  {
    match d
    case TakeEntry =>
    case CancelStream =>
    case CloseBridge =>
    case AwaitDone =>
  }

  lemma ServeCancelsNothing(s: State, t: Tid, th: Thread, r: ServePlace, c: Choice, n: nat)
    requires n < |s.atts|
    ensures n < |ServeStep(s, t, th, r, c).atts|
    ensures ServeStep(s, t, th, r, c).atts[n].cancelled == s.atts[n].cancelled
  {
    match r
    case InstallBridge =>
    case _ =>
  }

  lemma OwnCancelsNothing(s: State, t: Tid, th: Thread, o: OwnPlace, c: Choice, n: nat)
    requires n < |s.atts|
    ensures n < |OwnStep(s, t, th, o, c).atts| && OwnStep(s, t, th, o, c).atts[n].cancelled == s.atts[n].cancelled
  {
    if o == PreStream {
      StartIgnoresSent(s, t, th, Control(s, c, OwnEvent(th, o)).sent);
    } else if o == EndStream {
    } else if o == CloseDone {
    } else {
    }
  }

  lemma ExitCancelsNothing(s: State, t: Tid, th: Thread, x: ExitPlace, c: Choice, n: nat)
    requires n < |s.atts|
    ensures n < |ExitingStep(s, t, th, x, c).atts|
    ensures ExitingStep(s, t, th, x, c).atts[n].cancelled == s.atts[n].cancelled
  {
    match x
    case TryExit =>
    case SendPaneClosed =>
    case SendExitSessions =>
  }

  lemma SettledStays(s: State, t: Tid, c: Choice, n: nat)
    requires Inv(s) && t in s.threads && CanMove(s, t) && IsSettled(s, n)
    ensures IsSettled(Step(s, t, c), n)
  {
    StepKeepsInv(s, t, c);
    StepGrows(s, t, c);
    CancelledByDetach(s, t, c, n);
    if !s.atts[n].bridge.InMaps? { StaysOut(s, t, c, n); }
    assert AttachmentInv(Step(s, t, c), n);
  }

  /** Only its owner's last operation ends an attachment. */
  lemma OverAtCloseDone(s: State, t: Tid, c: Choice, n: nat)
    requires t in s.threads && n < |Step(s, t, c).atts| && Step(s, t, c).atts[n].life.Over?
    requires n < |s.atts| ==> !s.atts[n].life.Over?
    ensures s.threads[t].at == Own(CloseDone) && s.threads[t].mine == Some(n)
  {
    var th := s.threads[t];
    match th.at
    case Detach(d) => DetachEndsNoLife(s, t, th, d, n);
    case Serve(r) => ServeEndsNoLife(s, t, th, r, c, n);
    case Own(o) => OwnEndsItsLife(s, t, th, o, c, n);
    case Exit(x) => ExitEndsNoLife(s, t, th, x, c, n);
    case _ => RestingKeepsAttachments(s, t, c);
  }

  lemma DetachEndsNoLife(s: State, t: Tid, th: Thread, d: DetachPlace, n: nat)
    requires n < |s.atts|
    ensures DetachStep(s, t, th, d).atts[n].life == s.atts[n].life
    ensures |DetachStep(s, t, th, d).atts| == |s.atts|
  {
    match d
    case TakeEntry =>
    case CancelStream =>
    case CloseBridge =>
    case AwaitDone =>
  }

  lemma ServeEndsNoLife(s: State, t: Tid, th: Thread, r: ServePlace, c: Choice, n: nat)
    requires n < |ServeStep(s, t, th, r, c).atts|
    ensures !ServeStep(s, t, th, r, c).atts[n].life.Over? || (n < |s.atts| && s.atts[n].life.Over?)
  {
    match r
    case InstallBridge =>
    case _ =>
  }

  lemma OwnEndsItsLife(s: State, t: Tid, th: Thread, o: OwnPlace, c: Choice, n: nat)
    requires n < |OwnStep(s, t, th, o, c).atts| && OwnStep(s, t, th, o, c).atts[n].life.Over?
    requires n < |s.atts| ==> !s.atts[n].life.Over?
    ensures o == CloseDone && th.mine == Some(n)
  {
    if o == PreStream {
      StartIgnoresSent(s, t, th, Control(s, c, OwnEvent(th, o)).sent);
    } else if o == EndStream {
    } else if o == CloseDone {
    } else {
    }
  }

  lemma ExitEndsNoLife(s: State, t: Tid, th: Thread, x: ExitPlace, c: Choice, n: nat)
    requires n < |ExitingStep(s, t, th, x, c).atts|
    ensures n < |s.atts| && ExitingStep(s, t, th, x, c).atts[n].life == s.atts[n].life
  {
    match x
    case TryExit =>
    case SendPaneClosed =>
    case SendExitSessions =>
  }

  lemma BystandersEndSettled(s: State, t: Tid, c: Choice, u: Tid)
    requires Inv(s) && EndsSettled(s, u) && t in s.threads && CanMove(s, t) && u != t
    ensures EndsSettled(Step(s, t, c), u)
  {
    if u in s.threads {
      OthersStay(s, t, c, u);
      if s.threads[u].mine.Some? && IsPastDetach(s.threads[u]) { SettledStays(s, t, c, s.threads[u].mine.value); }
    } else {
      NewcomersRunNothing(s, t, c, u);
    }
  }

  lemma NewcomersRunNothing(s: State, t: Tid, c: Choice, u: Tid)
    requires Inv(s) && t in s.threads && CanMove(s, t) && u !in s.threads
    ensures u in Step(s, t, c).threads ==> !IsPastDetach(Step(s, t, c).threads[u])
  {
    assert ThreadInv(s, t);
    if s.threads[t].at != Own(PreStream) {
      StepLeavesOthers(s, t, c, u);
    } else if !(c.Fails? || c.Panics?) {
      StartsAtLoop(Control(s, c, OwnEvent(s.threads[t], PreStream)), t, s.threads[t], u);
    }
  }

  lemma StartsAtLoop(s: State, t: Tid, th: Thread, u: Tid)
    requires u != t && u !in s.threads
    ensures u in StartStep(s, t, th).threads ==> !IsPastDetach(StartStep(s, t, th).threads[u])
  {
  }

  lemma StepKeepsEndings(s: State, t: Tid, c: Choice)
    requires Inv(s) && EndingsInv(s) && t in s.threads && CanMove(s, t)
    ensures EndingsInv(Step(s, t, c))
  {
    var s' := Step(s, t, c);
    forall u ensures EndsSettled(s', u) {
      assert EndsSettled(s, u);
      if u == t { MoverEndsSettled(s, t, c); } else { BystandersEndSettled(s, t, c, u); }
    }
    forall n: nat ensures OverIsSettled(s', n) {
      assert OverIsSettled(s, n) && EndsSettled(s, t);
      if n < |s'.atts| && s'.atts[n].life.Over? {
        if n < |s.atts| && s.atts[n].life.Over? { } else { OverAtCloseDone(s, t, c, n); }
        SettledStays(s, t, c, n);
      }
    }
  }

  lemma EnvironmentKeepsEndings(s: State, a: Action)
    requires EndingsInv(s) && Enabled(s, a) && !a.Move?
    ensures EndingsInv(Next(s, a))
  {
    var s' := Next(s, a);
    forall u ensures EndsSettled(s', u) { assert EndsSettled(s, u); }
    forall n: nat ensures OverIsSettled(s', n) { assert OverIsSettled(s, n); }
  }

  lemma {:induction false} RunKeepsEndings(states: seq<State>, actions: seq<Action>, i: nat)
    requires IsRun(states, actions) && i < |states|
    ensures EndingsInv(states[i])
  {
    if i > 0 {
      RunKeepsEndings(states, actions, i - 1);
      RunKeepsInv(states, actions, i - 1);
      assert Follows(states, actions, i - 1);
      if actions[i - 1].Move? {
        StepKeepsEndings(states[i - 1], actions[i - 1].t, actions[i - 1].c);
      } else {
        EnvironmentKeepsEndings(states[i - 1], actions[i - 1]);
      }
    }
  }

  // ------------------------------------------------------- claims are followed up

  /** The thread that claimed the exit is on its way to the detach that takes the attachment out. */
  predicate FollowsUp(s: State, n: nat)
    requires n < |s.atts|
  {
    && s.atts[n].claimant.Some? && s.atts[n].claimant.value in s.threads
    && s.threads[s.atts[n].claimant.value].at in {Exit(SendPaneClosed), Exit(SendExitSessions), Detach(TakeEntry)}
  }

  predicate ClaimInv(s: State, n: nat) {
    n < |s.atts| && s.atts[n].bridge.InMaps? && s.atts[n].exitClaims >= 1 ==> FollowsUp(s, n)
  }

  lemma ClaimantGoesOn(s: State, t: Tid, c: Choice, n: nat)
    requires Inv(s) && t in s.threads && CanMove(s, t) && n < |s.atts|
    requires s.atts[n].bridge.InMaps? && s.atts[n].exitClaims >= 1 && FollowsUp(s, n) && s.atts[n].claimant == Some(t)
    ensures ClaimInv(Step(s, t, c), n)
  {
    assert AttachmentInv(s, n);
    match s.threads[t].at
    case Detach(_) =>
    case Exit(x) => AnnouncerGoesOn(s, t, x, c, n);
  }

  lemma AnnouncerGoesOn(s: State, t: Tid, x: ExitPlace, c: Choice, n: nat)
    requires t in s.threads && s.threads[t].at == Exit(x) && x != TryExit && n < |s.atts|
    requires s.atts[n].claimant == Some(t)
    ensures ClaimInv(ExitingStep(s, t, s.threads[t], x, c), n)
  {
    match x
    case SendPaneClosed =>
    case SendExitSessions =>
  }

  /** Only handlePaneExit claims an exit, and then goes on to announce it. */
  lemma ClaimAppears(s: State, t: Tid, c: Choice, n: nat)
    requires t in s.threads && n < |Step(s, t, c).atts| && Step(s, t, c).atts[n].exitClaims >= 1
    requires n < |s.atts| ==> s.atts[n].exitClaims == 0
    ensures FollowsUp(Step(s, t, c), n)
  {
    var th := s.threads[t];
    match th.at
    case Detach(d) => if n < |s.atts| { DetachClaimsNothing(s, t, th, d, n); } else { DetachMakesNone(s, t, th, d); }
    case Serve(r) => ServeMakesUnclaimed(s, t, th, r, c, n);
    case Own(o) => if n < |s.atts| { OwnClaimsNothing(s, t, th, o, c, n); } else { OwnMakesNone(s, t, th, o, c); }
    case Exit(x) => ExitClaimFollowsUp(s, t, x, c, n);
    case _ => RestingKeepsAttachments(s, t, c);
  }

  lemma DetachMakesNone(s: State, t: Tid, th: Thread, d: DetachPlace)
    ensures |DetachStep(s, t, th, d).atts| == |s.atts|
  {
    match d
    case TakeEntry =>
    case CancelStream =>
    case CloseBridge =>
    case AwaitDone =>
  }

  lemma OwnMakesNone(s: State, t: Tid, th: Thread, o: OwnPlace, c: Choice)
    ensures |OwnStep(s, t, th, o, c).atts| == |s.atts|
  {
    if o == PreStream {
      StartIgnoresSent(s, t, th, Control(s, c, OwnEvent(th, o)).sent);
    } else if o == EndStream {
    } else if o == CloseDone {
    } else {
    }
  }

  lemma ServeMakesUnclaimed(s: State, t: Tid, th: Thread, r: ServePlace, c: Choice, n: nat)
    requires n < |ServeStep(s, t, th, r, c).atts| && (n < |s.atts| ==> s.atts[n].exitClaims == 0)
    ensures ServeStep(s, t, th, r, c).atts[n].exitClaims == 0
  {
    match r
    case InstallBridge =>
    case _ =>
  }

  lemma ExitClaimFollowsUp(s: State, t: Tid, x: ExitPlace, c: Choice, n: nat)
    requires t in s.threads && s.threads[t].at == Exit(x) && n < |ExitingStep(s, t, s.threads[t], x, c).atts|
    requires n < |s.atts| ==> s.atts[n].exitClaims == 0
    requires ExitingStep(s, t, s.threads[t], x, c).atts[n].exitClaims >= 1
    ensures FollowsUp(ExitingStep(s, t, s.threads[t], x, c), n)
  {
    match x
    case TryExit =>
    case SendPaneClosed =>
    case SendExitSessions =>
  }

  lemma StepKeepsClaim(s: State, t: Tid, c: Choice, n: nat)
    requires Inv(s) && ClaimInv(s, n) && t in s.threads && CanMove(s, t)
    ensures ClaimInv(Step(s, t, c), n)
  {
    var s' := Step(s, t, c);
    if n < |s'.atts| && s'.atts[n].bridge.InMaps? && s'.atts[n].exitClaims >= 1 {
      if n < |s.atts| && s.atts[n].exitClaims >= 1 {
        StepGrows(s, t, c);
        if !s.atts[n].bridge.InMaps? { StaysOut(s, t, c, n); }
        var u := s.atts[n].claimant.value;
        if u == t { ClaimantGoesOn(s, t, c, n); } else { OthersStay(s, t, c, u); }
      } else {
        ClaimAppears(s, t, c, n);
      }
    }
  }

  lemma {:induction false} RunKeepsClaim(states: seq<State>, actions: seq<Action>, i: nat, n: nat)
    requires IsRun(states, actions) && i < |states|
    ensures ClaimInv(states[i], n)
  {
    if i > 0 {
      RunKeepsClaim(states, actions, i - 1, n);
      RunKeepsInv(states, actions, i - 1);
      assert Follows(states, actions, i - 1);
      if actions[i - 1].Move? {
        StepKeepsClaim(states[i - 1], actions[i - 1].t, actions[i - 1].c, n);
      } else {
        EnvironmentKeepsClaim(states[i - 1], actions[i - 1], n);
      }
    }
  }

  lemma EnvironmentKeepsClaim(s: State, a: Action, n: nat)
    requires ClaimInv(s, n) && Enabled(s, a) && !a.Move?
    ensures ClaimInv(Next(s, a), n)
  {
    match a
    case Disconnect(_, _) =>
    case ShutDownAgent =>
    case Displace(_) =>
    case NextConnection =>
  }

  /**
   A stream that is over, and that nobody cancelled, has left no attachment in
   the maps, unless its pane's exit has been claimed; and then the claimant is
   on its way to take it out.
   */
  lemma EndedStreamsAreDetached(states: seq<State>, actions: seq<Action>, i: nat, n: nat)
    requires IsRun(states, actions) && i < |states| && n < |states[i].atts|
    requires states[i].atts[n].life.Over? && !states[i].atts[n].cancelled
    ensures !states[i].atts[n].bridge.InMaps? || (states[i].atts[n].exitClaims == 1 && FollowsUp(states[i], n))
  {
    RunKeepsEndings(states, actions, i);
    RunKeepsClaim(states, actions, i, n);
    assert OverIsSettled(states[i], n);
  }

  // --------------------------------------------------- failures are told to the peer

  /** The stream ends on the agent's own initiative: a send or a compression failed, or it was displaced. */
  predicate BreaksOff(s: State, t: Tid, c: Choice) {
    && t in s.threads && !s.IsCancelled(s.threads[t].mine)
    && (|| s.threads[t].at == Own(StreamFailed)
        || s.threads[t].at == Own(PreStreamFailed)
        || (s.threads[t].at == Own(StreamRead) && !c.Works? && !c.Panics? && IsDisplaced(s, s.threads[t].mine)))
  }

  /** The thread is on its way to the check in front of its reset, or to the reset. */
  predicate IsResetting(s: State, t: Tid, n: nat) {
    && t in s.threads && s.threads[t].mine == Some(n)
    && ((s.threads[t].at.Detach? && s.threads[t].cont == ToReset)
        || s.threads[t].at == Own(CheckSuperseded) || s.threads[t].at == Own(SendReset))
  }

  /** The thread makes its attempt to send the reset, or is let off because a detach waits for it. */
  predicate ResetsOrIsLetOff(s: State, a: Action, t: Tid, n: nat) {
    && a.Move? && a.t == t && t in s.threads && s.threads[t].mine == Some(n)
    && (s.threads[t].at == Own(SendReset) || (s.threads[t].at == Own(CheckSuperseded) && n in s.entry.superseded))
  }

  ghost predicate HasReset(states: seq<State>, actions: seq<Action>, t: Tid, n: nat, i: nat, j: nat)
    requires j <= |actions| < |states|
  {
    exists k :: i <= k < j && ResetsOrIsLetOff(states[k], actions[k], t, n)
  }

  lemma BreakingOffDetaches(s: State, t: Tid, c: Choice)
    requires Inv(s) && BreaksOff(s, t, c) && s.threads[t].mine.Some?
    ensures IsResetting(Step(s, t, c), t, s.threads[t].mine.value)
  {
    match s.threads[t].at.own
    case StreamFailed =>
    case PreStreamFailed =>
    case StreamRead =>
  }

  lemma DetachTowardsReset(s: State, t: Tid, d: DetachPlace, n: nat)
    requires IsResetting(s, t, n) && s.threads[t].at == Detach(d)
    ensures IsResetting(DetachStep(s, t, s.threads[t], d), t, n)
  {
    match d
    case TakeEntry =>
    case CancelStream =>
    case CloseBridge =>
    case AwaitDone =>
  }

  lemma ResettingGoesOn(s: State, t: Tid, c: Choice, n: nat)
    requires IsResetting(s, t, n) && CanMove(s, t)
    ensures IsResetting(Step(s, t, c), t, n) || ResetsOrIsLetOff(s, Move(t, c), t, n)
  {
    match s.threads[t].at
    case Detach(d) => DetachTowardsReset(s, t, d, n);
    case Own(CheckSuperseded) =>
    case Own(SendReset) =>
  }

  lemma ResettingUndisturbed(s: State, a: Action, t: Tid, n: nat)
    requires Inv(s) && Enabled(s, a) && IsResetting(s, t, n) && !(a.Move? && a.t == t)
    ensures IsResetting(Next(s, a), t, n)
  {
    match a
    case Move(u, c) => OthersStay(s, u, c, t);
    case Disconnect(_, _) =>
    case ShutDownAgent =>
    case Displace(_) =>
    case NextConnection =>
  }

  /**
   A stream that breaks off uncancelled detaches, and reaches its end only
   behind its own stream_reset, unless a detach waits for it.
   */
  lemma {:induction false} BreakingOffIsTold(states: seq<State>, actions: seq<Action>, t: Tid, n: nat, i: nat, j: nat)
    requires IsRun(states, actions) && i < j < |states| && actions[i].Move? && actions[i].t == t
    requires BreaksOff(states[i], t, actions[i].c) && states[i].threads[t].mine == Some(n)
    ensures IsResetting(states[j], t, n) || HasReset(states, actions, t, n, i, j)
    decreases j
  {
    var s, a := states[j - 1], actions[j - 1];
    RunKeepsInv(states, actions, j - 1);
    assert Follows(states, actions, j - 1);
    if j == i + 1 {
      BreakingOffDetaches(s, t, a.c);
    } else {
      BreakingOffIsTold(states, actions, t, n, i, j - 1);
      if IsResetting(s, t, n) {
        if a.Move? && a.t == t { ResettingGoesOn(s, t, a.c, n); } else { ResettingUndisturbed(s, a, t, n); }
      }
    }
  }
}
