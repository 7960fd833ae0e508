/** Which connect requests succeed, which are refused, and what cleanups and reloads come to. */
module PeerConnects {
  import opened Common
  import opened PeerBooks
  import opened PeerSteps
  import opened PeerInvariant

  // ------------------------------------------------------------------ sequences

  /** These actions, one after the other, lead from one state to the other. */
  ghost predicate Leads(s: State, actions: seq<Action>, s': State)
    decreases |actions|
  {
    if actions == [] then s == s' else Enabled(s, actions[0]) && Leads(Next(s, actions[0]), actions[1..], s')
  }

  lemma First(s: State, a: Action, rest: seq<Action>, s': State)
    requires Enabled(s, a) && Leads(Next(s, a), rest, s')
    ensures Leads(s, [a] + rest, s')
  {
    assert ([a] + rest)[1..] == rest;
  }

  lemma {:induction false} Onwards(s: State, a: seq<Action>, s': State, b: seq<Action>, s'': State)
    requires Leads(s, a, s') && Leads(s', b, s'')
    ensures Leads(s, a + b, s'')
    decreases |a|
  {
    if a == [] {
      NothingInFront(b);
    } else {
      Onwards(Next(s, a[0]), a[1..], s', b, s'');
      assert (a + b)[1..] == a[1..] + b;
    }
  }

  lemma One(s: State, a: Action)
    requires Enabled(s, a)
    ensures Leads(s, [a], Next(s, a))
  {
  }

  lemma Two(s: State, a: Action, b: Action)
    requires Enabled(s, a) && Enabled(Next(s, a), b)
    ensures Leads(s, [a, b], Next(Next(s, a), b))
  {
    One(Next(s, a), b);
    First(s, a, [b], Next(Next(s, a), b));
    assert [a] + [b] == [a, b];
  }

  // ------------------------------------------------------- requests that succeed

  const ON := ConnectorMove(true)

  const CHECKS := [ON, ON, ON, ON]
  const FINISH := [ON, ON, ON]

  /** The manager is open for the device and has room for it, or a peer of its to replace. */
  predicate IsWelcome(s: State, d: DeviceId) {
    && s.connector == NO_REQUEST && d != ""
    && !s.books.closed && s.books.allowed == d
    && (d in s.books.peers || |s.books.peers| < s.maxPeers)
  }

  /**
   The teardown of the replaced peer, and the reconnect that waits for it: the
   handler's two moves and the end of the wait, or the bound on the wait.
   */
  function Replacing(s: State, inTime: bool): seq<Action> {
    if inTime then [ON, UnitMove(Job(s.jobs)), UnitMove(Job(s.jobs)), ON, ON]
    else [ON, ConnectorMove(false), ON]
  }

  function Connecting(s: State, d: DeviceId, inTime: bool): seq<Action> {
    ([Request(d)] + CHECKS) + ((if d in s.books.peers then Replacing(s, inTime) else [ON]) + FINISH)
  }

  lemma ChecksPass(s: State, d: DeviceId) returns (s': State)
    requires IsWelcome(s, d)
    ensures Leads(s, [Request(d)] + CHECKS, s')
    ensures s' == s.(connector := NO_REQUEST.(device := d, at := TakeOldPeer))
  {
    var c := NO_REQUEST.(device := d);
    var s1 := s.(connector := c.(at := CheckOpen));
    var s2 := s.(connector := c.(at := CheckDevice));
    var s3 := s.(connector := c.(at := CheckSecret));
    var s4 := s.(connector := c.(at := CheckLimit));
    s' := s.(connector := c.(at := TakeOldPeer));
    assert Next(s, Request(d)) == s1 && Next(s1, ON) == s2 && Next(s2, ON) == s3 && Next(s3, ON) == s4;
    assert Next(s4, ON) == s';
    Two(s1, ON, ON);
    Two(s3, ON, ON);
    Onwards(s1, [ON, ON], s3, [ON, ON], s');
    assert [ON, ON] + [ON, ON] == CHECKS;
    First(s, Request(d), CHECKS, s');
  }

  /** Where a reconnect stands once its old peer is out of the way: nothing of it is left in the map. */
  ghost predicate IsReplaced(s: State, s': State, d: DeviceId) {
    && s'.connector.at == Build && s'.connector.device == d
    && s'.books.peers == s.books.peers - {d} && s'.created == s.created && s'.maxPeers == s.maxPeers
    && !s'.books.closed && s'.books.allowed == s.books.allowed
  }

  lemma OldPeerGoes(s: State, d: DeviceId) returns (s': State)
    requires Inv(s) && !s.books.closed && d in s.books.peers
    requires s.connector == NO_REQUEST.(device := d, at := TakeOldPeer)
    ensures Leads(s, Replacing(s, true), s') && IsReplaced(s, s', d)
  {
    var id := Job(s.jobs);
    assert UnitInv(s, id);
    var s1 := TakeOldStep(s);
    var s2 := UnitMoves(s1, id, s1.units[id]);
    var s3 := UnitMoves(s2, id, s2.units[id]);
    assert s3.units[id].phase == Handled;
    var s4 := Next(s3, ON);
    s' := Next(s4, ON);
    Two(s3, ON, ON);
    Two(s1, UnitMove(id), UnitMove(id));
    Onwards(s1, [UnitMove(id), UnitMove(id)], s3, [ON, ON], s');
    First(s, ON, [UnitMove(id), UnitMove(id)] + [ON, ON], s');
    assert [ON] + ([UnitMove(id), UnitMove(id)] + [ON, ON]) == Replacing(s, true);
  }

  lemma OldPeerTakesTooLong(s: State, d: DeviceId) returns (s': State)
    requires Inv(s) && !s.books.closed && d in s.books.peers
    requires s.connector == NO_REQUEST.(device := d, at := TakeOldPeer)
    ensures Leads(s, Replacing(s, false), s') && IsReplaced(s, s', d)
  {
    assert UnitInv(s, Job(s.jobs));
    var s1 := TakeOldStep(s);
    var s2 := Next(s1, ConnectorMove(false));
    assert s2.connector.at == CloseOld;
    s' := Next(s2, ON);
    Two(s1, ConnectorMove(false), ON);
    First(s, ON, [ConnectorMove(false), ON], s');
    assert [ON] + [ConnectorMove(false), ON] == Replacing(s, false);
  }

  lemma NewPeerComes(s: State, d: DeviceId) returns (s': State)
    requires s.connector.at == Build && s.connector.device == d
    requires !s.books.closed && s.books.allowed == d && d !in s.books.peers && |s.books.peers| < s.maxPeers
    ensures Leads(s, FINISH, s')
    ensures s'.connector == NO_REQUEST && s'.books.peers == s.books.peers[d := |s.created|]
    ensures s'.created == s.created + [d]
  {
    var s1 := Next(s, ON);
    var s2 := Next(s1, ON);
    s' := Next(s2, ON);
    Two(s1, ON, ON);
    First(s, ON, [ON, ON], s');
    assert [ON] + [ON, ON] == FINISH;
  }

  lemma OneLess(peers: map<DeviceId, nat>, d: DeviceId)
    requires d in peers
    ensures |peers - {d}| < |peers|
  {
    assert (peers - {d}).Keys + {d} == peers.Keys && d !in (peers - {d}).Keys;
    assert |(peers - {d}).Keys| == |peers - {d}| && |peers.Keys| == |peers|;
  }

  lemma WelcomeConnects(s: State, d: DeviceId, inTime: bool) returns (s': State)
    requires Inv(s) && IsWelcome(s, d)
    ensures Leads(s, Connecting(s, d, inTime), s') && s'.connector == NO_REQUEST
    ensures s'.books.peers == s.books.peers[d := |s.created|] && s'.created == s.created + [d]
  {
    var s1 := ChecksPass(s, d);
    WalkingOnKeepsInv(s, s1.connector);
    var s2: State;
    if d in s.books.peers {
      OneLess(s.books.peers, d);
      if inTime { s2 := OldPeerGoes(s1, d); } else { s2 := OldPeerTakesTooLong(s1, d); }
    } else {
      s2 := Next(s1, ON);
      One(s1, ON);
      assert s.books.peers - {d} == s.books.peers;
    }
    s' := NewPeerComes(s2, d);
    assert (s.books.peers - {d})[d := |s.created|] == s.books.peers[d := |s.created|];
    Onwards(s1, if d in s.books.peers then Replacing(s, inTime) else [ON], s2, FINISH, s');
    Onwards(s, [Request(d)] + CHECKS, s1, (if d in s.books.peers then Replacing(s, inTime) else [ON]) + FINISH, s');
  }

  /**
   From every state of a run in which the manager is open for the device and
   has room for it or a peer of its to replace, a connect request whose calls
   work tracks the new peer, in place of the old one if there was one, and
   whether or not the old one's teardown was in time.
   */
  lemma WelcomeRequestsConnect(states: seq<State>, actions: seq<Action>, i: nat, d: DeviceId, inTime: bool)
    requires IsRun(states, actions) && i < |states| && IsWelcome(states[i], d)
    ensures exists s' :: Leads(states[i], Connecting(states[i], d, inTime), s') && s'.connector == NO_REQUEST
              && s'.books.peers == states[i].books.peers[d := |states[i].created|]
              && s'.created == states[i].created + [d]
  {
    RunKeepsInv(states, actions, i);
    var s' := WelcomeConnects(states[i], d, inTime);
  }

  // ------------------------------------------------------ requests that are refused

  /** The request is given up: there is none any more, and no peer of its making. */
  predicate GivesUp(s: State, s': State) {
    s.connector.at != Waiting && s'.connector == NO_REQUEST
      && (s.connector.at == SetUp ==> s.connector.device !in s'.books.peers)
  }

  /** The manager will not have the device now: it is closed, allows another, or is filled by others. */
  predicate IsUnwelcome(s: State, d: DeviceId) {
    || s.books.closed || d == "" || s.books.allowed != d
    || (d !in s.books.peers && |s.books.peers| >= s.maxPeers)
  }

  /** The device has no secret, or its connection could not be built or set up. */
  predicate CallFails(s: State, a: Action) {
    a == ConnectorMove(false) && (s.connector.at == CheckSecret || s.connector.at == Build || s.connector.at == SetUp)
  }

  lemma MovesGiveUpForAReason(s: State, works: bool)
    requires ConnectorInv(s) && s.connector.at != Waiting && ConnectorMoves(s, works).connector == NO_REQUEST
    ensures || IsUnwelcome(s, s.connector.device) || CallFails(s, ConnectorMove(works))
            || (works && s.connector.at == SetUp && ConnectorMoves(s, works).books == s.books)
  {
    match s.connector.at
    case CheckOpen =>
    case CheckDevice =>
    case CheckSecret =>
    case CheckLimit =>
    case TakeOldPeer =>
    case AwaitTorn =>
    case CloseOld =>
    case Build =>
    case InsertNew =>
    case SetUp =>
  }

  /**
   A connect request is given up only by its own step: because the manager will
   not have the device at that moment, or because a call for it failed. While it
   is welcome and its calls work, nothing else refuses it.
   */
  lemma RefusedForAReason(states: seq<State>, actions: seq<Action>, i: nat)
    requires IsRun(states, actions) && i < |actions| && states[i].connector.at != Waiting
    requires states[i + 1].connector == NO_REQUEST
    ensures var s, a := states[i], actions[i];
            || IsUnwelcome(s, s.connector.device) || CallFails(s, a)
            || (a == ON && s.connector.at == SetUp && states[i + 1].books == s.books)
  {
    RunKeepsInv(states, actions, i);
    assert Follows(states, actions, i);
    match actions[i]
    case ConnectorMove(works) => MovesGiveUpForAReason(states[i], works);
    case UnitMove(id) => UnitsLeaveRequests(states[i], id, states[i].units[id]);
    case _ =>
  }

  lemma UnitsLeaveRequests(s: State, id: UnitId, u: Unit)
    ensures UnitMoves(s, id, u).connector == s.connector
  {
    match u.phase
    case Removing =>
    case _ =>
  }

  /** Where the code looks at each of these: a place of a request, and what is wrong there. */
  predicate IsFoundOut(s: State, works: bool) {
    var d := s.connector.device;
    match s.connector.at
    case CheckOpen => s.books.closed
    case CheckDevice => d == "" || s.books.allowed != d
    case CheckLimit => d !in s.books.peers && |s.books.peers| >= s.maxPeers
    case InsertNew => s.books.closed || s.books.allowed != d || |s.books.peers| >= s.maxPeers
    case CheckSecret => !works
    case Build => !works
    case SetUp => !works
    case _ => false
  }

  /** And what is found out does end the request, with no peer of its making left behind. */
  lemma FoundOutIsRefused(states: seq<State>, actions: seq<Action>, i: nat, works: bool)
    requires IsRun(states, actions) && i < |states| && IsFoundOut(states[i], works)
    ensures Enabled(states[i], ConnectorMove(works)) && GivesUp(states[i], Next(states[i], ConnectorMove(works)))
    ensures Next(states[i], ConnectorMove(works)).books.peers.Keys <= states[i].books.peers.Keys
  {
    RunKeepsInv(states, actions, i);
    FoundOutGivesUp(states[i], works);
  }

  lemma FoundOutGivesUp(s: State, works: bool)
    requires ConnectorInv(s) && IsFoundOut(s, works)
    ensures GivesUp(s, ConnectorMoves(s, works))
    ensures ConnectorMoves(s, works).books.peers.Keys <= s.books.peers.Keys
  {
    match s.connector.at
    case CheckOpen =>
    case CheckDevice =>
    case CheckLimit =>
    case InsertNew =>
    case CheckSecret =>
    case Build =>
    case SetUp =>
  }
}
