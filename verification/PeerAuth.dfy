/**
 The connect-time proof of key possession on one peer's DataChannel: the host
 sends a nonce, the mobile answers with a MAC over it, and the host confirms
 with a MAC of its own before anything else is dispatched or sent.
 */
module PeerAuth {
  import opened Common

  type Bytes = seq<byte>

  const NONCE_SIZE := 32
  const LABEL_MOBILE_TO_HOST := "pocketmux-auth-v2 mobile->host"
  const LABEL_HOST_TO_MOBILE := "pocketmux-auth-v2 host->mobile"

  const FINGERPRINT_SIZE := 32

  /** A keyed MAC: a secret and a message. */
  type Mac = (Bytes, Bytes) -> Bytes

  predicate IsAscii(s: string) {
    forall i :: 0 <= i < |s| ==> s[i] as int < 128
  }

  function Ascii(s: string): (bytes: Bytes)
    requires IsAscii(s)
    ensures |bytes| == |s|
  {
    seq(|s|, i requires 0 <= i < |s| => (s[i] as int) as byte)
  }

  // -------------------------------------------------------------- the regions

  /** The fields that a peer's goroutines share under its locks. */
  datatype Auth = Auth(
    resolved: bool,
    authenticated: bool,
    confirmed: bool,
    nonce: Bytes,
    timerArmed: bool,
    dispatchStopped: bool,
    closed: bool
  )

  const FRESH := Auth(false, false, false, [], false, false, false)

  /** failAuth: the first resolution counts. */
  function Fail(a: Auth): Auth {
    if a.resolved then a else a.(resolved := true, nonce := [], timerArmed := false)
  }

  /** The commit in verifyAuthResponse, unless the timeout was first. */
  function Commit(a: Auth): Auth {
    if a.resolved then a else a.(resolved := true, authenticated := true, nonce := [], timerArmed := false)
  }

  /** What SendMessageContext and SendRaw let out. */
  predicate MaySend(a: Auth, handshake: bool) {
    !a.closed && (a.confirmed || handshake)
  }

  class Peer {
    var authResolved: bool
    var authenticated: bool
    var authConfirmed: bool
    var authNonce: Bytes
    var timerArmed: bool
    var dispatchStopped: bool
    var closed: bool

    ghost function View(): Auth
      reads this
    {
      Auth(authResolved, authenticated, authConfirmed, authNonce, timerArmed, dispatchStopped, closed)
    }

    constructor ()
      ensures View() == FRESH
    {
      authResolved, authenticated, authConfirmed, authNonce := false, false, false, [];
      timerArmed, dispatchStopped, closed := false, false, false;
    }

    /** The region of sendAuthChallenge. */
    method ArmChallenge(nonce: Bytes)
      modifies this
      ensures View() == old(View()).(nonce := nonce, timerArmed := true)
    {
      authNonce := nonce;
      timerArmed := true;
    }

    /** The region of failAuth. */
    method FailAuth() returns (first: bool)
      modifies this
      ensures View() == Fail(old(View())) && first == !old(authResolved)
    {
      if authResolved {
        return false;
      }
      authResolved := true;
      authNonce := [];
      timerArmed := false;
      first := true;
    }

    /** The region of verifyAuthResponse that commits a proven response. */
    method CommitAuth() returns (first: bool)
      modifies this
      ensures View() == Commit(old(View())) && first == !old(authResolved)
    {
      if authResolved {
        return false;
      }
      authResolved := true;
      authenticated := true;
      authNonce := [];
      timerArmed := false;
      first := true;
    }

    method ConfirmAuth()
      modifies this
      ensures View() == old(View()).(confirmed := true)
    {
      authConfirmed := true;
    }

    method RevokeAuth()
      modifies this
      ensures View() == old(View()).(authenticated := false)
    {
      authenticated := false;
    }

    /** The region of SendMessageContext and SendRaw. */
    method AdmitSend(handshake: bool) returns (admitted: bool)
      ensures admitted == MaySend(View(), handshake)
    {
      if closed {
        return false;
      }
      admitted := authConfirmed || handshake;
    }

    method StopDispatch()
      modifies this
      ensures View() == old(View()).(dispatchStopped := true)
    {
      dispatchStopped := true;
    }

    method MarkClosed()
      modifies this
      ensures View() == old(View()).(closed := true, timerArmed := false)
    {
      closed := true;
      timerArmed := false;
    }
  }

  // --------------------------------------------------------------- the response

  /** What a DataChannel message decodes to. The fields of an auth response may fail to decode. */
  datatype Inbound =
    | Undecodable
    | Response(nonce: Option<Bytes>, mac: Option<Bytes>)
    | Request(id: nat)
    | OtherMessage

  /** What both sides mix into the MACs of one connection. */
  datatype Keys = Keys(mac: Mac, secret: Bytes, hostFp: Bytes, mobileFp: Bytes)

  /** What authMAC hashes: the parts one behind the other, with nothing between them. */
  function Transcript(tag: string, hostNonce: Bytes, mobileNonce: Bytes, hostFp: Bytes, mobileFp: Bytes): Bytes
    requires IsAscii(tag)
  {
    Ascii(tag) + hostNonce + mobileNonce + hostFp + mobileFp
  }

  function ProofOf(k: Keys, hostNonce: Bytes, mobileNonce: Bytes): Bytes {
    k.mac(k.secret, Transcript(LABEL_MOBILE_TO_HOST, hostNonce, mobileNonce, k.hostFp, k.mobileFp))
  }

  function ConfirmOf(k: Keys, hostNonce: Bytes, mobileNonce: Bytes): Bytes {
    k.mac(k.secret, Transcript(LABEL_HOST_TO_MOBILE, hostNonce, mobileNonce, k.hostFp, k.mobileFp))
  }

  /** The checks of verifyAuthResponse before its commit. */
  predicate Accepts(k: Keys, hostNonce: Bytes, fingerprintsKnown: bool, msg: Inbound) {
    && msg.Response?
    && msg.nonce.Some? && |msg.nonce.value| == NONCE_SIZE
    && msg.mac.Some?
    && hostNonce != []
    && fingerprintsKnown
    && ProofOf(k, hostNonce, msg.nonce.value) == msg.mac.value
  }

  // -------------------------------------------------------------- the goroutines

  datatype Wire = Challenge(nonce: Bytes) | Confirm(mac: Bytes) | Data

  datatype Event = Proven(hostNonce: Bytes, response: Inbound) | Sent(wire: Wire) | Handled(msg: Inbound)

  datatype Verdict = Success | Failure

  /** The dispatcher, between taking and releasing dispatchMu. */
  datatype DispatchPlace =
    | Idle
    | Decode(msg: Inbound, authed: bool)
    | ReadState(msg: Inbound)
    | Verify(msg: Inbound, resolved: bool, hostNonce: Bytes)
    | CommitResponse(msg: Inbound, hostNonce: Bytes)
    | SendConfirm(mobileNonce: Bytes, hostNonce: Bytes)
    | Revoke
    | SetConfirmed
    | CallHandler(msg: Inbound)

  /** OnOpen's sendAuthChallenge, which runs once. */
  datatype OpenPlace = NotOpen | MakeNonce | SendChallenge(nonce: Bytes) | Opened

  datatype State = State(
    auth: Auth,
    keys: Keys,
    dispatch: DispatchPlace,
    open: OpenPlace,
    senders: set<nat>,
    events: seq<Event>,
    verdicts: seq<Verdict>,
    issued: Option<Bytes>
  ) {
    function Log(e: Event): State {
      this.(events := events + [e])
    }

    function Failing(): State {
      this.(auth := Fail(auth), verdicts := if auth.resolved then verdicts else verdicts + [Failure])
    }
  }

  ghost predicate Initial(s: State) {
    && |s.keys.hostFp| == FINGERPRINT_SIZE && |s.keys.mobileFp| == FINGERPRINT_SIZE
    && s.auth == FRESH && s.dispatch == Idle && s.open == NotOpen && s.senders == {}
    && s.events == [] && s.verdicts == [] && s.issued == None
  }

  /** handleDataChannelMessage and verifyAuthResponse; works says how a send or a read of the transport comes out. */
  function DispatchMoves(s: State, works: bool): State {
    match s.dispatch
    case Idle => s
    case Decode(msg, authed) =>
      if msg.Undecodable? then (if authed then s else s.Failing()).(dispatch := Idle)
      else if !authed then s.(dispatch := ReadState(msg))
      else s.(dispatch := if msg.Request? then CallHandler(msg) else Idle)
    case ReadState(msg) => s.(dispatch := Verify(msg, s.auth.resolved, s.auth.nonce))
    case Verify(msg, resolved, hostNonce) =>
      if resolved then s.(dispatch := Idle)
      else if Accepts(s.keys, hostNonce, works, msg) then s.(dispatch := CommitResponse(msg, hostNonce))
      else s.Failing().(dispatch := Idle)
    case CommitResponse(msg, hostNonce) =>
      if s.auth.resolved || !msg.Response? || msg.nonce.None? then s.(dispatch := Idle)
      else
        s.(auth := Commit(s.auth), verdicts := s.verdicts + [Success],
           dispatch := SendConfirm(msg.nonce.value, hostNonce))
         .Log(Proven(hostNonce, msg))
    case SendConfirm(mobileNonce, hostNonce) =>
      if works && MaySend(s.auth, true)
      then s.(dispatch := SetConfirmed).Log(Sent(Confirm(ConfirmOf(s.keys, hostNonce, mobileNonce))))
      else s.(dispatch := Revoke)
    case Revoke => s.(auth := s.auth.(authenticated := false), dispatch := Idle)
    case SetConfirmed => s.(auth := s.auth.(confirmed := true), dispatch := Idle)
    case CallHandler(msg) => s.(dispatch := Idle).Log(Handled(msg))
  }

  function OpenMoves(s: State, nonce: Bytes, works: bool): State {
    match s.open
    case MakeNonce =>
      if works then
        s.(auth := s.auth.(nonce := nonce, timerArmed := true), open := SendChallenge(nonce), issued := Some(nonce))
      else s.Failing().(open := Opened)
    case SendChallenge(n) =>
      if works && MaySend(s.auth, true) then s.(open := Opened).Log(Sent(Challenge(n)))
      else s.Failing().(open := Opened)
    case _ => s
  }

  datatype Action =
    | Open
    | OpenMove(nonce: Bytes, works: bool)
    | Receive(msg: Inbound)
    | DispatchMove(works: bool)
    | TimerFires
    | StopDispatch
    | Close
    | StartSend(sender: nat)
    | FinishSend(sender: nat)

  /** A sender passes the gate, then sends. A timer once armed may still fire: stopping it can come too late. */
  predicate Enabled(s: State, a: Action) {
    match a
    case Open => s.open == NotOpen
    case OpenMove(nonce, _) => (s.open == MakeNonce && |nonce| == NONCE_SIZE) || s.open.SendChallenge?
    case Receive(_) => s.dispatch == Idle
    case DispatchMove(_) => s.dispatch != Idle
    case TimerFires => s.issued.Some?
    case StopDispatch => s.dispatch == Idle
    case Close => true
    case StartSend(n) => n !in s.senders
    case FinishSend(n) => n in s.senders
  }

  function Next(s: State, a: Action): State {
    match a
    case Open => s.(open := MakeNonce)
    case OpenMove(nonce, works) => OpenMoves(s, nonce, works)
    case Receive(msg) => if s.auth.dispatchStopped then s else s.(dispatch := Decode(msg, s.auth.authenticated))
    case DispatchMove(works) => DispatchMoves(s, works)
    case TimerFires => s.Failing()
    case StopDispatch => s.(auth := s.auth.(dispatchStopped := true))
    case Close => s.(auth := s.auth.(closed := true, timerArmed := false))
    case StartSend(n) => if MaySend(s.auth, false) then s.(senders := s.senders + {n}) else s
    case FinishSend(n) => s.(senders := s.senders - {n}).Log(Sent(Data))
  }

  ghost predicate Follows(states: seq<State>, actions: seq<Action>, i: nat)
    requires i < |actions| < |states|
  {
    Enabled(states[i], actions[i]) && states[i + 1] == Next(states[i], actions[i])
  }

  ghost predicate IsRun(states: seq<State>, actions: seq<Action>) {
    && |states| == |actions| + 1
    && Initial(states[0])
    && forall i: nat :: i < |actions| ==> Follows(states, actions, i)
  }

  // ------------------------------------------------------------ the invariant

  ghost predicate HasConfirm(events: seq<Event>, before: nat) {
    exists j :: 0 <= j < |events| && j < before && events[j].Sent? && events[j].wire.Confirm?
  }

  /** This MAC is the host's own proof over the transcript of proven response i. */
  predicate IsEarned(k: Keys, events: seq<Event>, i: int, mac: Bytes) {
    && 0 <= i < |events| && events[i].Proven?
    && events[i].response.Response? && events[i].response.nonce.Some?
    && mac == ConfirmOf(k, events[i].hostNonce, events[i].response.nonce.value)
  }

  /** Every auth_confirm comes behind the proven response that it answers. */
  ghost predicate ConfirmsAreEarned(s: State) {
    forall j :: 0 <= j < |s.events| && s.events[j].Sent? && s.events[j].wire.Confirm? ==>
      exists i :: i < j && IsEarned(s.keys, s.events, i, s.events[j].wire.mac)
  }

  /** A proven response carries the mobile's proof over the nonce that this host issued. */
  ghost predicate ProofsAreReal(s: State) {
    forall i :: 0 <= i < |s.events| && s.events[i].Proven? ==>
      && s.issued == Some(s.events[i].hostNonce)
      && Accepts(s.keys, s.events[i].hostNonce, true, s.events[i].response)
  }

  predicate NeedsConfirm(e: Event) {
    e.Handled? || (e.Sent? && e.wire.Data?)
  }

  /** Requests reach the handler, and messages other than the handshake go out, only behind auth_confirm. */
  ghost predicate InOrder(events: seq<Event>) {
    forall k :: 0 <= k < |events| && NeedsConfirm(events[k]) ==> HasConfirm(events, k)
  }

  predicate MidCommit(d: DispatchPlace) {
    d.SendConfirm? || d.Revoke? || d.SetConfirmed?
  }

  ghost predicate AuthInv(s: State) {
    var a := s.auth;
    && (a.resolved <==> s.verdicts != [])
    && (s.verdicts == [] || s.verdicts == [Success] || s.verdicts == [Failure])
    && (a.authenticated || a.confirmed || MidCommit(s.dispatch) ==> s.verdicts == [Success])
    && (MidCommit(s.dispatch) ==> a.authenticated && !a.confirmed)
    && (!MidCommit(s.dispatch) ==> (a.authenticated <==> a.confirmed))
    && (a.nonce != [] ==> s.issued == Some(a.nonce))
    && (s.open.SendChallenge? ==> s.issued == Some(s.open.nonce))
    && (s.open == NotOpen || s.open == MakeNonce ==> s.issued.None?)
    && (s.issued.Some? ==> |s.issued.value| == NONCE_SIZE)
    && (s.senders != {} ==> a.confirmed)
  }

  ghost predicate DispatchInv(s: State) {
    match s.dispatch
    case Decode(_, authed) => authed == s.auth.authenticated
    case ReadState(_) => !s.auth.authenticated
    case Verify(_, _, hostNonce) => !s.auth.authenticated && (hostNonce != [] ==> s.issued == Some(hostNonce))
    case CommitResponse(msg, hostNonce) =>
      !s.auth.authenticated && s.issued == Some(hostNonce) && Accepts(s.keys, hostNonce, true, msg)
    case SendConfirm(mobileNonce, hostNonce) =>
      exists i :: IsEarned(s.keys, s.events, i, ConfirmOf(s.keys, hostNonce, mobileNonce))
    case CallHandler(_) => s.auth.confirmed
    case _ => true
  }

  ghost predicate EventsInv(s: State) {
    && (forall i :: 0 <= i < |s.events| && s.events[i].Proven? ==> s.verdicts == [Success])
    && ConfirmsAreEarned(s) && ProofsAreReal(s) && InOrder(s.events)
  }

  ghost predicate ConfirmInv(s: State) {
    HasConfirm(s.events, |s.events|) <==> s.auth.confirmed || s.dispatch.SetConfirmed?
  }

  ghost predicate Inv(s: State) {
    AuthInv(s) && DispatchInv(s) && ConfirmInv(s) && EventsInv(s)
  }
}
