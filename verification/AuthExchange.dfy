/** What the two MACs of the handshake prove, and what each message that a peer sends leads to. */
module AuthExchange {
  import opened Common
  import opened PeerAuth
  import opened AuthTheorems

  // --------------------------------------------------------------- transcripts

  /** Different secrets or messages have different MACs. */
  ghost predicate IsInjective(mac: Mac) {
    forall k: Bytes, m: Bytes, k': Bytes, m': Bytes :: mac(k, m) == mac(k', m') ==> k == k' && m == m'
  }

  lemma SplitsOnce(a: Bytes, b: Bytes, a': Bytes, b': Bytes)
    requires a + b == a' + b' && |a| == |a'|
    ensures a == a' && b == b'
  {
    assert a == (a + b)[..|a|] && a' == (a' + b')[..|a'|];
    assert b == (a + b)[|a|..] && b' == (a' + b')[|a'|..];
  }

  function Framed(k: Bytes, m: Bytes): Bytes {
    (seq(|k|, _ => 1 as byte) + [0]) + (k + m)
  }

  lemma FrameEnds(k: Bytes, m: Bytes)
    ensures |Framed(k, m)| > |k| && Framed(k, m)[|k|] == 0
    ensures forall i :: 0 <= i < |k| ==> Framed(k, m)[i] == 1
  {
  }

  /** Such MACs exist, though HMAC is only as good as one. */
  lemma FramedIsInjective()
    ensures IsInjective(Framed)
  {
    forall k: Bytes, m: Bytes, k': Bytes, m': Bytes | Framed(k, m) == Framed(k', m') ensures k == k' && m == m' {
      FrameEnds(k, m);
      FrameEnds(k', m');
      SplitsOnce(seq(|k|, _ => 1 as byte) + [0], k + m, seq(|k'|, _ => 1 as byte) + [0], k' + m');
      SplitsOnce(k, m, k', m');
    }
  }

  /** No transcript under one label is a transcript under the other, whatever the rest is. */
  lemma LabelsDiffer(hn: Bytes, mn: Bytes, hf: Bytes, mf: Bytes, hn': Bytes, mn': Bytes, hf': Bytes, mf': Bytes)
    ensures Ascii("pocketmux-auth-v2 mobile->host") + hn + mn + hf + mf
         != Ascii("pocketmux-auth-v2 host->mobile") + hn' + mn' + hf' + mf'
  {
    assert (Ascii("pocketmux-auth-v2 mobile->host") + hn + mn + hf + mf)[18] == 109;
    assert (Ascii("pocketmux-auth-v2 host->mobile") + hn' + mn' + hf' + mf')[18] == 104;
  }

  /** Nothing stands between the parts of a transcript, but their sizes are fixed, so it has only one reading. */
  lemma TranscriptsHaveOneReading(tag: Bytes, hn: Bytes, mn: Bytes, hf: Bytes, mf: Bytes,
      hn': Bytes, mn': Bytes, hf': Bytes, mf': Bytes)
    requires |hn| == |hn'| && |mn| == |mn'| && |hf| == |hf'|
    requires tag + hn + mn + hf + mf == tag + hn' + mn' + hf' + mf'
    ensures hn == hn' && mn == mn' && hf == hf' && mf == mf'
  {
    SplitsOnce(tag + hn + mn + hf, mf, tag + hn' + mn' + hf', mf');
    SplitsOnce(tag + hn + mn, hf, tag + hn' + mn', hf');
    SplitsOnce(tag + hn, mn, tag + hn', mn');
    SplitsOnce(tag, hn, tag, hn');
  }

  lemma {:induction false} KeysAreSound(states: seq<State>, actions: seq<Action>, i: nat)
    requires IsRun(states, actions) && i < |states|
    ensures |states[i].keys.hostFp| == FINGERPRINT_SIZE && |states[i].keys.mobileFp| == FINGERPRINT_SIZE
  {
    if i > 0 {
      KeysAreSound(states, actions, i - 1);
      assert Follows(states, actions, i - 1);
      KeysStay(states[i - 1], actions[i - 1]);
    }
  }

  lemma KeysStay(s: State, a: Action)
    ensures Next(s, a).keys == s.keys
  {
    match a
    case OpenMove(nonce, works) =>
    case DispatchMove(works) => DispatchKeepsKeys(s, works);
    case _ =>
  }

  lemma DispatchKeepsKeys(s: State, works: bool)
    ensures DispatchMoves(s, works).keys == s.keys
  {
    match s.dispatch
    case Decode(_, _) =>
    case Verify(_, _, _) =>
    case CommitResponse(_, _) =>
    case _ =>
  }

  /** Every auth_confirm answers a proof before it: the MACs, label by label, over one transcript. */
  lemma ConfirmAnswersProof(states: seq<State>, actions: seq<Action>, n: nat, j: nat)
    requires IsRun(states, actions) && n < |states|
    requires j < |states[n].events| && IsConfirm(states[n].events[j])
    ensures exists i: nat :: i < j && IsProvenAt(states[n], i) && IsConfirmAt(states[n], i, j)
  {
    RunKeepsInv(states, actions, n);
    var s := states[n];
    var i :| i < j && IsEarned(s.keys, s.events, i, s.events[j].wire.mac);
    assert IsProvenAt(s, i) && IsConfirmAt(s, i, j);
  }

  /**
   No auth_confirm of any connection is the MAC of a response that any
   connection accepted, its own included: what the host answers can be neither
   an echo of what it was sent nor be used to answer its challenges.
   */
  lemma ConfirmsAreNoProofs(states: seq<State>, actions: seq<Action>, n: nat, j: nat,
      states': seq<State>, actions': seq<Action>, n': nat, i': nat)
    requires IsRun(states, actions) && n < |states| && IsRun(states', actions') && n' < |states'|
    requires states[n].keys.mac == states'[n'].keys.mac && IsInjective(states[n].keys.mac)
    requires j < |states[n].events| && IsConfirm(states[n].events[j])
    requires i' < |states'[n'].events| && states'[n'].events[i'].Proven?
    ensures IsProvenAt(states'[n'], i') && states'[n'].events[i'].response.mac != Some(states[n].events[j].wire.mac)
  {
    ConfirmAnswersProof(states, actions, n, j);
    ProofIsReal(states', actions', n', i');
    var s, s' := states[n], states'[n'];
    var i: nat :| i < j && IsProvenAt(s, i) && IsConfirmAt(s, i, j);
    var e, e' := s.events[i], s'.events[i'];
    LabelsDiffer(e'.hostNonce, e'.response.nonce.value, s'.keys.hostFp, s'.keys.mobileFp,
      e.hostNonce, e.response.nonce.value, s.keys.hostFp, s.keys.mobileFp);
  }

  lemma ProofIsReal(states: seq<State>, actions: seq<Action>, n: nat, i: nat)
    requires IsRun(states, actions) && n < |states| && i < |states[n].events| && states[n].events[i].Proven?
    ensures IsProvenAt(states[n], i)
  {
    RunKeepsInv(states, actions, n);
  }

  /** Both answer the same response of the same mobile on the same connection's certificates. */
  predicate SameExchange(s: State, i: nat, s': State, i': nat)
    requires IsProvenAt(s, i) && IsProvenAt(s', i')
  {
    && s.keys.secret == s'.keys.secret && s.keys.hostFp == s'.keys.hostFp && s.keys.mobileFp == s'.keys.mobileFp
    && s.events[i].hostNonce == s'.events[i'].hostNonce
    && s.events[i].response.nonce == s'.events[i'].response.nonce
  }

  lemma EqualMacsMeanSameExchange(s: State, i: nat, j: nat, s': State, i': nat, j': nat)
    requires IsProvenAt(s, i) && IsConfirmAt(s, i, j) && IsProvenAt(s', i') && IsConfirmAt(s', i', j')
    requires s.keys.mac == s'.keys.mac && IsInjective(s.keys.mac) && s.events[j] == s'.events[j']
    requires |s.keys.hostFp| == |s'.keys.hostFp|
    ensures SameExchange(s, i, s', i')
  {
    var e, e' := s.events[i], s'.events[i'];
    TranscriptsHaveOneReading(Ascii("pocketmux-auth-v2 host->mobile"),
      e.hostNonce, e.response.nonce.value, s.keys.hostFp, s.keys.mobileFp,
      e'.hostNonce, e'.response.nonce.value, s'.keys.hostFp, s'.keys.mobileFp);
  }

  /** Equal auth_confirms, of any two connections, answer equal nonces under equal secrets and fingerprints. */
  lemma EqualConfirmsAnswerTheSame(states: seq<State>, actions: seq<Action>, n: nat, j: nat,
      states': seq<State>, actions': seq<Action>, n': nat, j': nat)
    requires IsRun(states, actions) && n < |states| && IsRun(states', actions') && n' < |states'|
    requires states[n].keys.mac == states'[n'].keys.mac && IsInjective(states[n].keys.mac)
    requires j < |states[n].events| && j' < |states'[n'].events|
    requires IsConfirm(states[n].events[j]) && states[n].events[j] == states'[n'].events[j']
    ensures exists i: nat, i': nat ::
              && IsProvenAt(states[n], i) && IsProvenAt(states'[n'], i')
              && IsConfirmAt(states[n], i, j) && IsConfirmAt(states'[n'], i', j')
              && SameExchange(states[n], i, states'[n'], i')
  {
    ConfirmAnswersProof(states, actions, n, j);
    ConfirmAnswersProof(states', actions', n', j');
    KeysAreSound(states, actions, n);
    KeysAreSound(states', actions', n');
    var s, s' := states[n], states'[n'];
    var i: nat :| i < j && IsProvenAt(s, i) && IsConfirmAt(s, i, j);
    var i': nat :| i' < j' && IsProvenAt(s', i') && IsConfirmAt(s', i', j');
    EqualMacsMeanSameExchange(s, i, j, s', i', j');
  }

  // ---------------------------------------------------- what a message leads to

  /** The dispatcher's moves until it is idle again, at most n of them, with every call working. */
  function Settle(s: State, n: nat): State
    decreases n
  {
    if n == 0 || s.dispatch == Idle then s else Settle(DispatchMoves(s, true), n - 1)
  }

  /** One message, received and dispatched. */
  function Serve(s: State, msg: Inbound): State {
    Settle(Next(s, Receive(msg)), 6)
  }

  /** The peer waits for the answer to its challenge. */
  predicate IsAsked(s: State) {
    s.dispatch == Idle && !s.auth.resolved && !s.auth.dispatchStopped && !s.auth.closed && s.auth.nonce != []
  }

  /** The mobile's MAC over the nonce that the host has issued and a nonce of its own. */
  predicate IsRightAnswer(s: State, msg: Inbound) {
    && msg.Response? && msg.nonce.Some? && |msg.nonce.value| == NONCE_SIZE
    && msg.mac == Some(s.keys.mac(s.keys.secret,
         Ascii("pocketmux-auth-v2 mobile->host") + s.auth.nonce + msg.nonce.value + s.keys.hostFp + s.keys.mobileFp))
  }

  /** The peer is let in, behind a confirm of the host's own. */
  predicate LetsIn(s: State, s': State, msg: Inbound)
    requires IsRightAnswer(s, msg)
  {
    && s'.dispatch == Idle && s'.verdicts == [Success] && s'.auth.authenticated && s'.auth.confirmed
    && s'.events == s.events + [Proven(s.auth.nonce, msg), Sent(Confirm(s.keys.mac(s.keys.secret,
         Ascii("pocketmux-auth-v2 host->mobile") + s.auth.nonce + msg.nonce.value
         + s.keys.hostFp + s.keys.mobileFp)))]
  }

  lemma RightAnswerLetsIn(s: State, msg: Inbound)
    requires Inv(s) && IsAsked(s) && IsRightAnswer(s, msg)
    ensures LetsIn(s, Serve(s, msg), msg)
  {
    var s1 := s.(dispatch := Decode(msg, false));
    var s2 := s.(dispatch := ReadState(msg));
    var s3 := s.(dispatch := Verify(msg, false, s.auth.nonce));
    var s4 := s.(dispatch := CommitResponse(msg, s.auth.nonce));
    assert Serve(s, msg) == Settle(s1, 6) == Settle(s2, 5) == Settle(s3, 4) == Settle(s4, 3);
    CommitsAndConfirms(s4, msg);
  }

  lemma CommitsAndConfirms(s: State, msg: Inbound)
    requires !s.auth.resolved && !s.auth.closed && s.verdicts == [] && s.auth.nonce != [] && IsRightAnswer(s, msg)
    requires s.dispatch == CommitResponse(msg, s.auth.nonce)
    ensures LetsIn(s, Settle(s, 3), msg)
  {
    var proven, answer := Proven(s.auth.nonce, msg), Sent(Confirm(ConfirmOf(s.keys, s.auth.nonce, msg.nonce.value)));
    var s1 := s.(auth := Commit(s.auth), verdicts := [Success], dispatch := SendConfirm(msg.nonce.value, s.auth.nonce),
                 events := s.events + [proven]);
    var s2 := s1.(dispatch := SetConfirmed, events := s.events + [proven] + [answer]);
    NothingInFront([Success]);
    assert DispatchMoves(s, true) == s1 && DispatchMoves(s1, true) == s2;
    assert Settle(s, 3) == Settle(s1, 2) == Settle(s2, 1) == Settle(DispatchMoves(s2, true), 0);
    Regroup(s.events, [proven], [answer]);
    assert [proven] + [answer] == [proven, answer];
  }

  lemma WrongAnswerFails(s: State, msg: Inbound)
    requires Inv(s) && IsAsked(s) && !IsRightAnswer(s, msg)
    ensures var s' := Serve(s, msg);
            s'.dispatch == Idle && s'.verdicts == [Failure] && IsTurnedAway(s') && s'.events == s.events
  {
    var s1 := s.(dispatch := Decode(msg, false));
    if msg.Undecodable? {
      assert Serve(s, msg) == Settle(s1, 6) == Settle(s.Failing(), 5);
    } else {
      var s2 := s.(dispatch := ReadState(msg));
      var s3 := s.(dispatch := Verify(msg, false, s.auth.nonce));
      assert Serve(s, msg) == Settle(s1, 6) == Settle(s2, 5) == Settle(s3, 4) == Settle(s.Failing(), 3);
    }
  }

  /**
   A peer that was asked is let in exactly by the right answer, whatever it
   sends first: with that it is confirmed, and with anything else it has failed
   for good and been sent nothing.
   */
  lemma FirstAnswerDecides(states: seq<State>, actions: seq<Action>, i: nat, msg: Inbound)
    requires IsRun(states, actions) && i < |states| && IsAsked(states[i])
    ensures var s, s' := states[i], Serve(states[i], msg);
            if IsRightAnswer(s, msg) then LetsIn(s, s', msg)
            else s'.dispatch == Idle && s'.verdicts == [Failure] && IsTurnedAway(s') && s'.events == s.events
  {
    RunKeepsInv(states, actions, i);
    if IsRightAnswer(states[i], msg) { RightAnswerLetsIn(states[i], msg); } else { WrongAnswerFails(states[i], msg); }
  }

  /** Once it is confirmed, each of its requests reaches the handler, once, and no other message does anything. */
  lemma RequestsAreServed(states: seq<State>, actions: seq<Action>, i: nat, msg: Inbound)
    requires IsRun(states, actions) && i < |states|
    requires states[i].dispatch == Idle && states[i].auth.confirmed && !states[i].auth.dispatchStopped
    ensures Serve(states[i], msg) == if msg.Request? then states[i].Log(Handled(msg)) else states[i]
  {
    RunKeepsInv(states, actions, i);
    var s := states[i];
    assert Next(s, Receive(msg)) == s.(dispatch := Decode(msg, true));
    var s1 := s.(dispatch := Decode(msg, true));
    if msg.Request? {
      var s2 := s.(dispatch := CallHandler(msg));
      assert Serve(s, msg) == Settle(s1, 6) == Settle(s2, 5) == Settle(s.Log(Handled(msg)), 4);
    } else {
      assert DispatchMoves(s1, true) == s;
      assert Serve(s, msg) == Settle(s1, 6) == Settle(s, 5);
    }
  }

  /** And its own messages go out. */
  lemma ConfirmedPeersAreSentTo(s: State, n: nat)
    requires s.auth.confirmed && !s.auth.closed && n !in s.senders
    ensures Enabled(s, StartSend(n)) && Enabled(Next(s, StartSend(n)), FinishSend(n))
    ensures Next(Next(s, StartSend(n)), FinishSend(n)).events == s.events + [Sent(Data)]
  {
  }

  /** Without the certificates' fingerprints nobody is let in, whatever the answer. */
  lemma NoFingerprintsNoEntry(states: seq<State>, actions: seq<Action>, i: nat)
    requires IsRun(states, actions) && i < |states| && states[i].dispatch.Verify? && !states[i].auth.resolved
    ensures states[i].dispatch.resolved || DispatchMoves(states[i], false).verdicts == [Failure]
    ensures DispatchMoves(states[i], false).dispatch == Idle && !DispatchMoves(states[i], false).auth.authenticated
  {
    RunKeepsInv(states, actions, i);
  }

  /** Behind its close, nothing but what was past the gate by then is sent to a peer. */
  lemma {:induction false} ClosedPeersFallSilent(states: seq<State>, actions: seq<Action>, i: nat, j: nat)
    requires IsRun(states, actions) && i <= j < |states| && states[i].auth.closed
    ensures states[j].auth.closed && states[j].senders <= states[i].senders
    ensures NothingButData(states[j].events, |states[i].events|)
    decreases j
  {
    if i < j {
      ClosedPeersFallSilent(states, actions, i, j - 1);
      assert Follows(states, actions, j - 1);
      SilentByOne(states[j - 1], actions[j - 1], |states[i].events|);
    }
  }

  /** Of what was sent since the log had n events, everything is data. */
  predicate NothingButData(events: seq<Event>, n: nat) {
    n <= |events| && forall k :: n <= k < |events| && events[k].Sent? ==> events[k].wire.Data?
  }

  lemma SilentByOne(s: State, a: Action, n: nat)
    requires Enabled(s, a) && s.auth.closed && NothingButData(s.events, n)
    ensures Next(s, a).auth.closed && Next(s, a).senders <= s.senders && NothingButData(Next(s, a).events, n)
  {
    match a
    case OpenMove(nonce, works) => OpenIsSilent(s, nonce, works, n);
    case DispatchMove(works) => DispatchIsSilent(s, works, n);
    case _ =>
  }

  lemma OpenIsSilent(s: State, nonce: Bytes, works: bool, n: nat)
    requires s.auth.closed && NothingButData(s.events, n)
    ensures var s' := OpenMoves(s, nonce, works);
            s'.auth.closed && s'.senders == s.senders && NothingButData(s'.events, n)
  {
  }

  lemma DispatchIsSilent(s: State, works: bool, n: nat)
    requires s.auth.closed && NothingButData(s.events, n)
    ensures var s' := DispatchMoves(s, works);
            s'.auth.closed && s'.senders == s.senders && NothingButData(s'.events, n)
  {
    match s.dispatch
    case Decode(_, _) =>
    case Verify(_, _, _) =>
    case CommitResponse(_, _) =>
    case SendConfirm(_, _) =>
    case _ =>
  }

  // ------------------------------------------------------------ nobody lingers

  /** Behind the challenge, an unresolved peer has its nonce, its timeout, and the challenge on its way. */
  ghost predicate ChallengeInv(s: State) {
    && (s.issued.Some? && !s.auth.resolved ==> s.auth.nonce == s.issued.value && (s.auth.timerArmed || s.auth.closed))
    && (s.open == Opened && !s.auth.resolved ==> s.issued.Some? && Sent(Challenge(s.issued.value)) in s.events)
  }

  lemma OpenKeepsChallenge(s: State, nonce: Bytes, works: bool)
    requires Inv(s) && ChallengeInv(s) && Enabled(s, OpenMove(nonce, works))
    ensures ChallengeInv(OpenMoves(s, nonce, works))
  {
  }

  lemma DispatchKeepsChallenge(s: State, works: bool)
    requires Inv(s) && ChallengeInv(s)
    ensures ChallengeInv(DispatchMoves(s, works))
  {
    match s.dispatch
    case Decode(_, _) =>
    case Verify(_, _, _) =>
    case CommitResponse(_, _) =>
    case _ =>
  }

  lemma NextKeepsChallenge(s: State, a: Action)
    requires Inv(s) && ChallengeInv(s) && Enabled(s, a)
    ensures ChallengeInv(Next(s, a))
  {
    match a
    case OpenMove(nonce, works) => OpenKeepsChallenge(s, nonce, works);
    case DispatchMove(works) => DispatchKeepsChallenge(s, works);
    case _ =>
  }

  lemma {:induction false} RunKeepsChallenge(states: seq<State>, actions: seq<Action>, i: nat)
    requires IsRun(states, actions) && i < |states|
    ensures ChallengeInv(states[i])
  {
    if i > 0 {
      RunKeepsChallenge(states, actions, i - 1);
      RunKeepsInv(states, actions, i - 1);
      assert Follows(states, actions, i - 1);
      NextKeepsChallenge(states[i - 1], actions[i - 1]);
    }
  }

  /**
   An open peer does not stay undecided: it has been sent the challenge it must
   answer, and unless it is closed already, its timeout is armed and fails it.
   */
  lemma NobodyLingers(states: seq<State>, actions: seq<Action>, i: nat)
    requires IsRun(states, actions) && i < |states| && states[i].open == Opened && !states[i].auth.resolved
    ensures var s := states[i];
            && s.auth.nonce != [] && Sent(Challenge(s.auth.nonce)) in s.events
            && (s.auth.timerArmed || s.auth.closed)
            && Enabled(s, TimerFires) && IsTurnedAway(Next(s, TimerFires)) && Next(s, TimerFires).verdicts == [Failure]
  {
    RunKeepsInv(states, actions, i);
    RunKeepsChallenge(states, actions, i);
  }
}
