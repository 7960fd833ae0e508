/** What the connect-time authentication promises over every interleaving. */
module AuthTheorems {
  import opened Common
  import opened PeerAuth

  lemma HasConfirmStays(events: seq<Event>, e: Event, k: nat)
    requires HasConfirm(events, k)
    ensures HasConfirm(events + [e], k)
  {
    var j :| 0 <= j < |events| && j < k && events[j].Sent? && events[j].wire.Confirm?;
    assert (events + [e])[j] == events[j];
  }

  lemma LogKeepsOrder(events: seq<Event>, e: Event)
    requires InOrder(events)
    requires NeedsConfirm(e) ==> HasConfirm(events, |events|)
    ensures InOrder(events + [e])
  {
    forall k | 0 <= k < |events + [e]| && NeedsConfirm((events + [e])[k]) ensures HasConfirm(events + [e], k) {
      HasConfirmStays(events, e, k);
    }
  }

  predicate IsConfirm(e: Event) {
    e.Sent? && e.wire.Confirm?
  }

  lemma ConfirmAppears(events: seq<Event>, e: Event)
    ensures HasConfirm(events + [e], |events| + 1) <==> HasConfirm(events, |events|) || IsConfirm(e)
  {
    if HasConfirm(events, |events|) { HasConfirmStays(events, e, |events|); }
    if IsConfirm(e) { assert (events + [e])[|events|] == e; }
    if HasConfirm(events + [e], |events| + 1) {
      var longer := events + [e];
      var j :| 0 <= j < |longer| && j < |events| + 1 && longer[j].Sent? && longer[j].wire.Confirm?;
      if j < |events| { assert events[j] == longer[j]; }
    }
  }

  lemma EarnedStay(s: State, e: Event)
    requires ConfirmsAreEarned(s)
    requires IsConfirm(e) ==> exists i :: IsEarned(s.keys, s.events, i, e.wire.mac)
    ensures ConfirmsAreEarned(s.Log(e))
  {
    var s' := s.Log(e);
    forall j | 0 <= j < |s'.events| && IsConfirm(s'.events[j])
      ensures exists i :: i < j && IsEarned(s'.keys, s'.events, i, s'.events[j].wire.mac)
    {
      assert j < |s.events| ==> s'.events[j] == s.events[j];
      var i :| i < j && IsEarned(s.keys, s.events, i, s'.events[j].wire.mac);
      assert IsEarned(s'.keys, s'.events, i, s'.events[j].wire.mac);
    }
  }

  /** Logging an event that is no proof: a confirm must be earned, and what needs a confirm must come behind one. */
  lemma LogKeepsEvents(s: State, e: Event)
    requires EventsInv(s) && !e.Proven?
    requires NeedsConfirm(e) ==> HasConfirm(s.events, |s.events|)
    requires IsConfirm(e) ==> exists i :: IsEarned(s.keys, s.events, i, e.wire.mac)
    ensures EventsInv(s.Log(e))
  {
    EarnedStay(s, e);
    LogKeepsOrder(s.events, e);
  }

  lemma ProvenKeepsEvents(s: State, hostNonce: Bytes, msg: Inbound)
    requires EventsInv(s) && s.verdicts == [Success]
    requires s.issued == Some(hostNonce) && Accepts(s.keys, hostNonce, true, msg)
    ensures EventsInv(s.Log(Proven(hostNonce, msg)))
  {
    EarnedStay(s, Proven(hostNonce, msg));
    LogKeepsOrder(s.events, Proven(hostNonce, msg));
  }

  /** Failing changes no event, and no event rests on a verdict that was not reached. */
  lemma FailKeepsInv(s: State)
    requires Inv(s) && !MidCommit(s.dispatch)
    ensures Inv(s.Failing())
  {
  }

  lemma LateFailKeepsInv(s: State)
    requires Inv(s) && MidCommit(s.dispatch)
    ensures s.Failing() == s
  {
  }

  lemma CommitKeepsInv(s: State, msg: Inbound, hostNonce: Bytes)
    requires Inv(s) && s.dispatch == CommitResponse(msg, hostNonce)
    ensures Inv(DispatchMoves(s, true))
    ensures DispatchMoves(s, false) == DispatchMoves(s, true)
  {
    if !s.auth.resolved {
      var s1 := s.(auth := Commit(s.auth), verdicts := s.verdicts + [Success],
                   dispatch := SendConfirm(msg.nonce.value, hostNonce));
      ProvenKeepsEvents(s1, hostNonce, msg);
      ConfirmAppears(s.events, Proven(hostNonce, msg));
      assert IsEarned(s.keys, DispatchMoves(s, true).events, |s.events|, ConfirmOf(s.keys, hostNonce, msg.nonce.value));
    }
  }

  lemma SendConfirmKeepsInv(s: State, mobileNonce: Bytes, hostNonce: Bytes, works: bool)
    requires Inv(s) && s.dispatch == SendConfirm(mobileNonce, hostNonce)
    ensures Inv(DispatchMoves(s, works))
  {
    if works && MaySend(s.auth, true) {
      var e := Sent(Confirm(ConfirmOf(s.keys, hostNonce, mobileNonce)));
      LogKeepsEvents(s.(dispatch := SetConfirmed), e);
      ConfirmAppears(s.events, e);
    }
  }

  lemma CallKeepsInv(s: State, msg: Inbound)
    requires Inv(s) && s.dispatch == CallHandler(msg)
    ensures Inv(s.(dispatch := Idle).Log(Handled(msg)))
  {
    LogKeepsEvents(s.(dispatch := Idle), Handled(msg));
    ConfirmAppears(s.events, Handled(msg));
  }

  /** The dispatcher's moves that neither log anything nor resolve the authentication. */
  lemma WalkingOnKeepsInv(s: State, d: DispatchPlace)
    requires Inv(s) && !MidCommit(s.dispatch) && !MidCommit(d)
    requires DispatchInv(s.(dispatch := d))
    ensures Inv(s.(dispatch := d))
  {
  }

  lemma DispatchKeepsInv(s: State, works: bool)
    requires Inv(s) && s.dispatch != Idle
    ensures Inv(DispatchMoves(s, works))
  {
    match s.dispatch
    case Decode(msg, authed) =>
      FailKeepsInv(s);
      WalkingOnKeepsInv(s.Failing(), Idle);
      WalkingOnKeepsInv(s, DispatchMoves(s, works).dispatch);
    case ReadState(msg) => WalkingOnKeepsInv(s, Verify(msg, s.auth.resolved, s.auth.nonce));
    case Verify(msg, resolved, hostNonce) =>
      FailKeepsInv(s);
      WalkingOnKeepsInv(s.Failing(), Idle);
      WalkingOnKeepsInv(s, DispatchMoves(s, works).dispatch);
    case CommitResponse(msg, hostNonce) => CommitKeepsInv(s, msg, hostNonce);
    case SendConfirm(mobileNonce, hostNonce) => SendConfirmKeepsInv(s, mobileNonce, hostNonce, works);
    case Revoke =>
    case SetConfirmed =>
    case CallHandler(msg) => CallKeepsInv(s, msg);
  }

  lemma LogKeepsDispatch(s: State, e: Event)
    requires DispatchInv(s)
    ensures DispatchInv(s.Log(e))
  {
    if s.dispatch.SendConfirm? {
      var mac := ConfirmOf(s.keys, s.dispatch.hostNonce, s.dispatch.mobileNonce);
      var i :| IsEarned(s.keys, s.events, i, mac);
      assert IsEarned(s.keys, s.Log(e).events, i, mac);
    }
  }

  lemma OpenKeepsInv(s: State, nonce: Bytes, works: bool)
    requires Inv(s) && Enabled(s, OpenMove(nonce, works))
    ensures Inv(OpenMoves(s, nonce, works))
  {
    if s.open.SendChallenge? && works && MaySend(s.auth, true) {
      var e := Sent(Challenge(s.open.nonce));
      LogKeepsEvents(s.(open := Opened), e);
      LogKeepsDispatch(s.(open := Opened), e);
      ConfirmAppears(s.events, e);
    } else if works && s.open == MakeNonce {
    } else if MidCommit(s.dispatch) {
      LateFailKeepsInv(s);
    } else {
      FailKeepsInv(s);
    }
  }

  lemma SendKeepsInv(s: State, n: nat)
    requires Inv(s) && n in s.senders
    ensures Inv(Next(s, FinishSend(n)))
  {
    LogKeepsEvents(s.(senders := s.senders - {n}), Sent(Data));
    ConfirmAppears(s.events, Sent(Data));
  }

  lemma NextKeepsInv(s: State, a: Action)
    requires Inv(s) && Enabled(s, a)
    ensures Inv(Next(s, a))
  {
    match a
    case Open =>
    case OpenMove(nonce, works) => OpenKeepsInv(s, nonce, works);
    case Receive(msg) => WalkingOnKeepsInv(s, Decode(msg, s.auth.authenticated));
    case DispatchMove(works) => DispatchKeepsInv(s, works);
    case TimerFires => if MidCommit(s.dispatch) { LateFailKeepsInv(s); } else { FailKeepsInv(s); }
    case StopDispatch =>
    case Close =>
    case StartSend(n) =>
    case FinishSend(n) => SendKeepsInv(s, n);
  }

  lemma {:induction false} RunKeepsInv(states: seq<State>, actions: seq<Action>, i: nat)
    requires IsRun(states, actions) && i < |states|
    ensures Inv(states[i])
  {
    if i > 0 {
      RunKeepsInv(states, actions, i - 1);
      assert Follows(states, actions, i - 1);
      NextKeepsInv(states[i - 1], actions[i - 1]);
    }
  }

  // ------------------------------------------------------------- the theorems

  /** Authentication resolves at most once, as success or failure, and the verdict never changes. */
  lemma {:induction false} ResolvesOnce(states: seq<State>, actions: seq<Action>, i: nat, j: nat)
    requires IsRun(states, actions) && i <= j < |states|
    ensures states[j].auth.resolved <==> |states[j].verdicts| == 1
    ensures !states[j].auth.resolved ==> states[j].verdicts == []
    ensures states[i].auth.resolved ==> states[j].auth.resolved && states[j].verdicts == states[i].verdicts
  {
    RunKeepsInv(states, actions, j);
    if i < j {
      ResolvesOnce(states, actions, i, j - 1);
      RunKeepsInv(states, actions, j - 1);
      assert Follows(states, actions, j - 1);
      if states[j - 1].auth.resolved { ResolutionStays(states[j - 1], actions[j - 1]); }
    }
  }

  lemma ResolutionStays(s: State, a: Action)
    requires s.auth.resolved
    ensures Next(s, a).auth.resolved && Next(s, a).verdicts == s.verdicts
  {
    match a
    case OpenMove(nonce, works) => OpenResolvesNothing(s, nonce, works);
    case DispatchMove(works) => DispatchResolvesNothing(s, works);
    case Open =>
    case Receive(_) =>
    case TimerFires =>
    case StopDispatch =>
    case Close =>
    case StartSend(_) =>
    case FinishSend(_) =>
  }

  lemma OpenResolvesNothing(s: State, nonce: Bytes, works: bool)
    requires s.auth.resolved
    ensures OpenMoves(s, nonce, works).auth.resolved && OpenMoves(s, nonce, works).verdicts == s.verdicts
  {
  }

  lemma DispatchResolvesNothing(s: State, works: bool)
    requires s.auth.resolved
    ensures DispatchMoves(s, works).auth.resolved && DispatchMoves(s, works).verdicts == s.verdicts
  {
    match s.dispatch
    case Decode(_, _) =>
    case Verify(_, _, _) =>
    case CommitResponse(_, _) =>
    case _ =>
  }

  /** Between two messages, a peer counts as authenticated exactly when auth_confirm went out. */
  lemma IdleMeansConfirmed(states: seq<State>, actions: seq<Action>, i: nat)
    requires IsRun(states, actions) && i < |states| && states[i].dispatch == Idle
    ensures var a, events := states[i].auth, states[i].events;
            && (a.authenticated <==> a.confirmed)
            && (a.confirmed <==> exists j :: 0 <= j < |events| && IsConfirm(events[j]))
  {
    RunKeepsInv(states, actions, i);
    var s := states[i];
    if j :| 0 <= j < |s.events| && IsConfirm(s.events[j]) {
      assert HasConfirm(s.events, |s.events|);
    }
    if s.auth.confirmed {
      var j :| 0 <= j < |s.events| && j < |s.events| && s.events[j].Sent? && s.events[j].wire.Confirm?;
      assert IsConfirm(s.events[j]);
    }
  }

  /**
   Every request that reaches the handler, and every message sent other than
   the handshake, comes behind an auth_confirm that was sent, which in turn
   comes behind a response whose MAC over the nonce that this host issued was
   verified; and the auth_confirm is the host's MAC over the same transcript.
   */
  lemma NothingBeforeProof(states: seq<State>, actions: seq<Action>, n: nat, k: nat)
    requires IsRun(states, actions) && n < |states|
    requires k < |states[n].events| && NeedsConfirm(states[n].events[k])
    ensures exists i, j :: 0 <= i < j < k && IsProvenAt(states[n], i) && IsConfirmAt(states[n], i, j)
  {
    RunKeepsInv(states, actions, n);
    var s := states[n];
    var j :| 0 <= j < |s.events| && j < k && s.events[j].Sent? && s.events[j].wire.Confirm?;
    var i :| i < j && IsEarned(s.keys, s.events, i, s.events[j].wire.mac);
    assert IsProvenAt(s, i) && IsConfirmAt(s, i, j);
  }

  /** Event i is the mobile's MAC under its own label over the issued nonce, its nonce and both fingerprints. */
  predicate IsProvenAt(s: State, i: nat) {
    && i < |s.events| && s.events[i].Proven?
    && s.issued == Some(s.events[i].hostNonce) && |s.events[i].hostNonce| == NONCE_SIZE
    && s.events[i].response.Response?
    && s.events[i].response.nonce.Some? && |s.events[i].response.nonce.value| == NONCE_SIZE
    && s.events[i].response.mac == Some(s.keys.mac(s.keys.secret,
         Ascii("pocketmux-auth-v2 mobile->host") + s.events[i].hostNonce + s.events[i].response.nonce.value
         + s.keys.hostFp + s.keys.mobileFp))
  }

  /** Event j is the host's MAC under its own label over the same nonces and fingerprints. */
  predicate IsConfirmAt(s: State, i: nat, j: nat)
    requires IsProvenAt(s, i)
  {
    && j < |s.events|
    && s.events[j] == Sent(Confirm(s.keys.mac(s.keys.secret,
         Ascii("pocketmux-auth-v2 host->mobile") + s.events[i].hostNonce + s.events[i].response.nonce.value
         + s.keys.hostFp + s.keys.mobileFp)))
  }

  /** Authentication is over and this peer was not let in. */
  predicate IsTurnedAway(s: State) {
    s.auth.resolved && !s.auth.confirmed && !MidCommit(s.dispatch)
  }

  /**
   A peer whose authentication failed, or whose auth_confirm could not be
   sent, never gets a request through to the handler and is never sent
   anything but handshake messages, before or after.
   */
  lemma TurnedAwayForGood(states: seq<State>, actions: seq<Action>, i: nat, j: nat)
    requires IsRun(states, actions) && i <= j < |states| && IsTurnedAway(states[i])
    ensures IsTurnedAway(states[j]) && !states[j].auth.authenticated
    ensures forall k :: 0 <= k < |states[j].events| ==> !NeedsConfirm(states[j].events[k])
  {
    StaysTurnedAwayInRun(states, actions, i, j);
    RunKeepsInv(states, actions, j);
    TurnedAwayIsSilent(states[j]);
  }

  lemma {:induction false} StaysTurnedAwayInRun(states: seq<State>, actions: seq<Action>, i: nat, j: nat)
    requires IsRun(states, actions) && i <= j < |states| && IsTurnedAway(states[i])
    ensures IsTurnedAway(states[j])
  {
    if i < j {
      StaysTurnedAwayInRun(states, actions, i, j - 1);
      TurnedAwayByOne(states, actions, j);
    }
  }

  lemma TurnedAwayByOne(states: seq<State>, actions: seq<Action>, j: nat)
    requires IsRun(states, actions) && 0 < j < |states| && IsTurnedAway(states[j - 1])
    ensures IsTurnedAway(states[j])
  {
    RunKeepsInv(states, actions, j - 1);
    assert Follows(states, actions, j - 1);
    StaysTurnedAway(states[j - 1], actions[j - 1]);
  }

  lemma TurnedAwayIsSilent(s: State)
    requires Inv(s) && IsTurnedAway(s)
    ensures !s.auth.authenticated
    ensures forall k :: 0 <= k < |s.events| ==> !NeedsConfirm(s.events[k])
  {
    forall k | 0 <= k < |s.events| ensures !NeedsConfirm(s.events[k]) {
      NeedIsMet(s.events, k);
    }
  }

  lemma NeedIsMet(events: seq<Event>, k: nat)
    requires InOrder(events) && k < |events|
    ensures NeedsConfirm(events[k]) ==> HasConfirm(events, |events|)
  {
    if NeedsConfirm(events[k]) {
      var c :| 0 <= c < |events| && c < k && events[c].Sent? && events[c].wire.Confirm?;
      assert events[c].Sent?;
    }
  }

  lemma StaysTurnedAway(s: State, a: Action)
    requires Inv(s) && IsTurnedAway(s) && Enabled(s, a)
    ensures IsTurnedAway(Next(s, a))
  {
  }

  /** No request has reached the handler since the log had n events. */
  predicate SilentSince(events: seq<Event>, n: nat) {
    n <= |events| && forall k :: n <= k < |events| ==> !events[k].Handled?
  }

  /** Behind stopDispatch, no further request reaches the handler. */
  lemma {:induction false} StoppedMeansSilent(states: seq<State>, actions: seq<Action>, i: nat, j: nat)
    requires IsRun(states, actions) && i <= j < |states| && states[i].auth.dispatchStopped
    ensures states[j].auth.dispatchStopped && states[j].dispatch == Idle
    ensures SilentSince(states[j].events, |states[i].events|)
  {
    if i < j {
      StoppedMeansSilent(states, actions, i, j - 1);
      assert Follows(states, actions, j - 1);
      StopIsSilent(states[j - 1], actions[j - 1], |states[i].events|);
    } else {
      StopWaitsForIdle(states, actions, i);
    }
  }

  lemma StopIsSilent(s: State, a: Action, n: nat)
    requires Enabled(s, a) && s.auth.dispatchStopped && s.dispatch == Idle && SilentSince(s.events, n)
    ensures var s' := Next(s, a);
            s'.auth.dispatchStopped && s'.dispatch == Idle && SilentSince(s'.events, n)
  {
    match a
    case Open =>
    case OpenMove(_, _) =>
    case Receive(_) =>
    case TimerFires =>
    case StopDispatch =>
    case Close =>
    case StartSend(_) =>
    case FinishSend(_) =>
  }

  lemma {:induction false} StopWaitsForIdle(states: seq<State>, actions: seq<Action>, i: nat)
    requires IsRun(states, actions) && i < |states|
    ensures states[i].auth.dispatchStopped ==> states[i].dispatch == Idle
  {
    if i > 0 {
      StopWaitsForIdle(states, actions, i - 1);
      var s, a := states[i - 1], actions[i - 1];
      assert Follows(states, actions, i - 1);
      if a.DispatchMove? { DispatchLeavesStop(s, a.works); }
    }
  }

  lemma DispatchLeavesStop(s: State, works: bool)
    ensures DispatchMoves(s, works).auth.dispatchStopped == s.auth.dispatchStopped
  {
    match s.dispatch
    case Decode(_, _) =>
    case Verify(_, _, _) =>
    case CommitResponse(_, _) =>
    case _ =>
  }
}
