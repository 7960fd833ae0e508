/** What every region and wait of the peer manager's goroutines keeps. */
module PeerInvariant {
  import opened PeerBooks
  import opened PeerSteps

  // ------------------------------------------------------------ the invariant

  ghost function TeardownUnits(units: map<UnitId, Unit>): set<UnitId> {
    set id | id in units && InTeardown(units[id])
  }

  ghost function CleanupUnits(units: map<UnitId, Unit>): set<UnitId> {
    set id | id in units && InCleanup(units[id])
  }

  /** The wait groups count the units that have not released them. */
  ghost predicate CountsInv(s: State) {
    && s.books.teardownWg == |TeardownUnits(s.units)|
    && s.books.cleanupWg == |CleanupUnits(s.units)|
  }

  /** A tracked peer was made for its device and is in no snapshot yet. */
  ghost predicate PeerInv(s: State, device: DeviceId) {
    device in s.books.peers ==>
      var n := s.books.peers[device];
      && !s.books.closed
      && n < |s.created| && s.created[n] == device
      && NotifyOf(n) !in s.units
      && (s.reload.at != TakeSnapshot ==> device == s.books.allowed)
  }

  ghost predicate UnitInv(s: State, id: UnitId) {
    id in s.units ==>
      var u := s.units[id];
      && u.peer < |s.created|
      && (id.Job? ==> id.id < s.jobs && !u.kind.Snapshot?)
      && (id.NotifyOf? ==> u == Unit(Snapshot, id.peer, false, u.phase))
      && (u.kind.FailedPeer? || u.kind.OldHandler? ==> u.tracked)
      && (u.kind.Background? ==> IsHandled(u) && u.phase != Handled)
      && (u.kind.Snapshot? ==> u.phase != Removing && u.phase != Checking)
      && (u.kind.OldHandler? ==> u.phase != Removing && u.phase != Closing && u.phase != Checking)
      && (u.kind.Snapshot? && !IsHandled(u) ==>
            || (s.reload.at == AwaitHandlers && u.peer in s.reload.mine)
            || (s.shutdown.at == AwaitHandlers && u.peer in s.shutdown.mine))
  }

  predicate BehindSnapshot(at: CloserPlace) {
    at in {AwaitHandlers, AwaitTeardowns, AwaitCloses, AwaitCleanups, Finish, Returned}
  }

  predicate BehindHandlers(at: CloserPlace) {
    BehindSnapshot(at) && at != AwaitHandlers
  }

  predicate BehindTeardowns(at: CloserPlace) {
    BehindHandlers(at) && at != AwaitTeardowns
  }

  predicate BehindCloses(at: CloserPlace) {
    at == AwaitCleanups || at == Returned
  }

  /** What a closeAll has waited for stays done, since the closed manager counts nothing new. */
  ghost predicate CloserInv(s: State, c: Closer) {
    && (BehindSnapshot(c.at) ==> s.books.closed)
    && (!BehindSnapshot(c.at) ==> c.mine == {})
    && (forall n :: n in c.mine ==> n < |s.created| && NotifyOf(n) in s.units)
    && (BehindHandlers(c.at) ==> AllHandled(s, c.mine))
    && (BehindTeardowns(c.at) ==> s.books.teardownWg == 0)
    && (BehindCloses(c.at) ==> AllClosed(s, c.mine))
    && (c.at == Returned ==> s.books.cleanupWg == 0)
  }

  ghost predicate ClosersInv(s: State) {
    && CloserInv(s, s.reload) && CloserInv(s, s.shutdown)
    && s.reload.at != AwaitCloses && s.reload.at != AwaitCleanups && s.reload.at != Returned
    && s.shutdown.at != Finish
    && (s.books.shutDown <==> s.shutdown.at != Resting && s.shutdown.at != Announce)
  }

  ghost predicate ConnectorInv(s: State) {
    var c := s.connector;
    && (c.at == AwaitTorn || c.at == CloseOld || c.at == Build || c.at == InsertNew ==> c.device !in s.books.peers)
    && (c.at == AwaitTorn ==> c.torn.Some? && c.replaced.Some?)
    && (c.at == AwaitTorn || c.at == CloseOld || c.at == Build || c.at == InsertNew ==>
          && (c.replaced.Some? <==> c.torn.Some?)
          && (c.replaced.Some? ==> c.replaced.value < |s.created| && s.created[c.replaced.value] == c.device)
          && (c.torn.Some? ==>
                && c.torn.value in s.units && s.units[c.torn.value].kind.OldHandler?
                && s.units[c.torn.value].peer == c.replaced.value
                && (c.at != AwaitTorn && !c.timedOut ==> IsHandled(s.units[c.torn.value]))))
    && (c.at == SetUp ==> c.made.Some? && (c.device in s.books.peers ==> s.books.peers[c.device] == c.made.value))
  }

  ghost predicate Inv(s: State) {
    && CountsInv(s)
    && |s.books.peers| <= s.maxPeers
    && (forall d :: PeerInv(s, d))
    && (forall id :: UnitInv(s, id))
    && ClosersInv(s)
    && ConnectorInv(s)
  }

  // ------------------------------------------------------------------ counting

  lemma SubsetsAreSmaller<T>(a: set<T>, b: set<T>)
    requires a <= b
    ensures |a| <= |b|
  {
    assert b == a + (b - a);
  }

  lemma RemovingPeers(peers: map<DeviceId, nat>, device: DeviceId)
    ensures |peers - {device}| <= |peers|
  {
    SubsetsAreSmaller((peers - {device}).Keys, peers.Keys);
  }

  lemma SizesDifferByOne<T>(before: set<T>, after: set<T>, x: T)
    requires forall y :: y != x ==> (y in before <==> y in after)
    ensures |after| == |before| - (if x in before then 1 else 0) + (if x in after then 1 else 0)
  {
    assert before - {x} == after - {x};
    assert |before - {x}| == |before| - (if x in before then 1 else 0);
    assert |after - {x}| == |after| - (if x in after then 1 else 0);
  }

  /** Changing one unit changes the counts by that unit. */
  lemma CountsAfter(units: map<UnitId, Unit>, id: UnitId, u: Unit)
    ensures |TeardownUnits(units[id := u])|
         == |TeardownUnits(units)| - (if id in units && InTeardown(units[id]) then 1 else 0)
            + (if InTeardown(u) then 1 else 0)
    ensures |CleanupUnits(units[id := u])|
         == |CleanupUnits(units)| - (if id in units && InCleanup(units[id]) then 1 else 0)
            + (if InCleanup(u) then 1 else 0)
  {
    SizesDifferByOne(TeardownUnits(units), TeardownUnits(units[id := u]), id);
    SizesDifferByOne(CleanupUnits(units), CleanupUnits(units[id := u]), id);
  }

  /** A snapshot's goroutines are counted in no wait group of the manager. */
  lemma SnapshotCountsNothing(s: State)
    requires forall d :: PeerInv(s, d)
    ensures TeardownUnits(SnapshotStep(s).units) == TeardownUnits(s.units)
    ensures CleanupUnits(SnapshotStep(s).units) == CleanupUnits(s.units)
  {
    forall n | n in s.books.peers.Values ensures NotifyOf(n) !in s.units { SnapshotPeersAreNew(s, n); }
  }

  // --------------------------------------------------------------------- units

  lemma UnitKeepsCounts(s: State, id: UnitId)
    requires CountsInv(s) && UnitInv(s, id) && id in s.units
    ensures CountsInv(UnitMoves(s, id, s.units[id]))
  {
    var u := s.units[id];
    var u' := UnitMoves(s, id, u).units[id];
    CountsAfter(s.units, id, u');
  }

  lemma UnitKeepsPeers(s: State, id: UnitId, d: DeviceId)
    requires PeerInv(s, d) && UnitInv(s, id) && id in s.units
    ensures PeerInv(UnitMoves(s, id, s.units[id]), d)
  {
  }

  lemma UnitKeepsUnits(s: State, id: UnitId, v: UnitId)
    requires UnitInv(s, v) && UnitInv(s, id) && id in s.units
    ensures UnitInv(UnitMoves(s, id, s.units[id]), v)
  {
  }

  lemma UnitKeepsZeros(s: State, id: UnitId)
    requires CountsInv(s) && id in s.units
    ensures s.books.teardownWg == 0 ==> UnitMoves(s, id, s.units[id]).books.teardownWg == 0
    ensures s.books.cleanupWg == 0 ==> UnitMoves(s, id, s.units[id]).books.cleanupWg == 0
  {
    var u := s.units[id];
    if InTeardown(u) { assert id in TeardownUnits(s.units); }
    if InCleanup(u) { assert id in CleanupUnits(s.units); }
  }

  /** Handlers that returned and peers that are closed stay so. */
  lemma UnitKeepsWaits(s: State, id: UnitId, mine: set<nat>)
    requires UnitInv(s, id) && id in s.units
    ensures AllHandled(s, mine) ==> AllHandled(UnitMoves(s, id, s.units[id]), mine)
    ensures AllClosed(s, mine) ==> AllClosed(UnitMoves(s, id, s.units[id]), mine)
  {
  }

  lemma UnitKeepsCloser(s: State, id: UnitId, c: Closer)
    requires CloserInv(s, c) && UnitInv(s, id) && id in s.units && CountsInv(s)
    ensures CloserInv(UnitMoves(s, id, s.units[id]), c)
  {
    UnitKeepsZeros(s, id);
    UnitKeepsWaits(s, id, c.mine);
  }

  lemma UnitKeepsClosers(s: State, id: UnitId)
    requires ClosersInv(s) && UnitInv(s, id) && id in s.units && CountsInv(s)
    ensures ClosersInv(UnitMoves(s, id, s.units[id]))
  {
    UnitKeepsCloser(s, id, s.reload);
    UnitKeepsCloser(s, id, s.shutdown);
  }

  lemma UnitKeepsConnector(s: State, id: UnitId)
    requires ConnectorInv(s) && UnitInv(s, id) && id in s.units
    ensures ConnectorInv(UnitMoves(s, id, s.units[id]))
  {
  }

  lemma UnitKeepsSize(s: State, id: UnitId)
    requires id in s.units
    ensures |UnitMoves(s, id, s.units[id]).books.peers| <= |s.books.peers|
    ensures UnitMoves(s, id, s.units[id]).maxPeers == s.maxPeers
  {
    RemovingPeers(s.books.peers, s.DeviceOf(s.units[id].peer));
  }

  lemma UnitKeepsInv(s: State, id: UnitId)
    requires Inv(s) && id in s.units
    ensures Inv(UnitMoves(s, id, s.units[id]))
  {
    var s' := UnitMoves(s, id, s.units[id]);
    assert UnitInv(s, id);
    UnitKeepsCounts(s, id);
    UnitKeepsSize(s, id);
    forall d ensures PeerInv(s', d) { UnitKeepsPeers(s, id, d); }
    forall v ensures UnitInv(s', v) { UnitKeepsUnits(s, id, v); }
    UnitKeepsClosers(s, id);
    UnitKeepsConnector(s, id);
  }

  // ------------------------------------------------- background work that starts

  lemma ScheduleKeepsInv(s: State, n: nat)
    requires Inv(s) && n < |s.created|
    ensures Inv(Schedule(s, n))
  {
    var s' := Schedule(s, n);
    assert UnitInv(s, Job(s.jobs));
    CountsAfter(s.units, Job(s.jobs), Unit(FailedPeer, n, true, Stopping));
    forall d ensures PeerInv(s', d) { assert PeerInv(s, d); }
    forall v ensures UnitInv(s', v) { assert UnitInv(s, v); }
  }

  lemma GoCleanupKeepsInv(s: State, n: nat, phase: Phase)
    requires Inv(s) && n < |s.created| && (phase == Removing || phase == Closing)
    ensures Inv(GoCleanup(s, n, phase))
  {
    var s' := GoCleanup(s, n, phase);
    assert UnitInv(s, Job(s.jobs));
    CountsAfter(s.units, Job(s.jobs), Unit(Background, n, !s.books.closed, phase));
    forall d ensures PeerInv(s', d) { assert PeerInv(s, d); }
    forall v ensures UnitInv(s', v) { assert UnitInv(s, v); }
  }

  // ----------------------------------------------------------- connect requests

  lemma TakeOldKeepsCounts(s: State)
    requires CountsInv(s) && UnitInv(s, Job(s.jobs))
    ensures CountsInv(TakeOldStep(s))
  {
    var c := s.connector;
    if c.device in s.books.peers {
      CountsAfter(s.units, Job(s.jobs), Unit(OldHandler, s.books.peers[c.device], !s.books.closed, Stopping));
    }
  }

  lemma TakeOldKeepsUnit(s: State, v: UnitId)
    requires UnitInv(s, v) && UnitInv(s, Job(s.jobs)) && PeerInv(s, s.connector.device)
    ensures UnitInv(TakeOldStep(s), v)
  {
  }

  lemma TakeOldKeepsCloser(s: State, c: Closer)
    requires CloserInv(s, c) && UnitInv(s, Job(s.jobs)) && PeerInv(s, s.connector.device)
    ensures CloserInv(TakeOldStep(s), c)
  {
  }

  lemma TakeOldKeepsConnector(s: State)
    requires s.connector.at == TakeOldPeer && PeerInv(s, s.connector.device)
    ensures ConnectorInv(TakeOldStep(s))
  {
  }

  lemma TakeOldKeepsInv(s: State)
    requires Inv(s) && s.connector.at == TakeOldPeer
    ensures Inv(TakeOldStep(s))
  {
    var s' := TakeOldStep(s);
    assert UnitInv(s, Job(s.jobs)) && PeerInv(s, s.connector.device);
    TakeOldKeepsCounts(s);
    RemovingPeers(s.books.peers, s.connector.device);
    forall d ensures PeerInv(s', d) { assert PeerInv(s, d); }
    forall v ensures UnitInv(s', v) { TakeOldKeepsUnit(s, v); }
    TakeOldKeepsCloser(s, s.reload);
    TakeOldKeepsCloser(s, s.shutdown);
    TakeOldKeepsConnector(s);
  }

  lemma InsertKeepsInv(s: State)
    requires Inv(s) && s.connector.at == InsertNew
    ensures Inv(InsertStep(s))
  {
    var s' := InsertStep(s);
    assert UnitInv(s, NotifyOf(|s.created|));
    forall d ensures PeerInv(s', d) { assert PeerInv(s, d); }
    forall v ensures UnitInv(s', v) { assert UnitInv(s, v); }
  }

  /** Moving on in a connect request, without touching anything shared. */
  lemma WalkingOnKeepsInv(s: State, c: Connector)
    requires Inv(s) && ConnectorInv(s.(connector := c))
    ensures Inv(s.(connector := c))
  {
    var s' := s.(connector := c);
    forall d ensures PeerInv(s', d) { assert PeerInv(s, d); }
    forall v ensures UnitInv(s', v) { assert UnitInv(s, v); }
  }

  lemma ClosePeerOfKeepsInv(s: State, device: DeviceId)
    requires Inv(s) && s.connector == NO_REQUEST
    ensures Inv(s.(books := Remove(s.books, device)))
  {
    var s' := s.(books := Remove(s.books, device));
    RemovingPeers(s.books.peers, device);
    forall d ensures PeerInv(s', d) { assert PeerInv(s, d); }
    forall v ensures UnitInv(s', v) { assert UnitInv(s, v); }
  }

  lemma SetUpKeepsInv(s: State, works: bool)
    requires Inv(s) && s.connector.at == SetUp
    ensures Inv(ConnectorMoves(s, works))
  {
    WalkingOnKeepsInv(s, NO_REQUEST);
    if !works { ClosePeerOfKeepsInv(s.(connector := NO_REQUEST), s.connector.device); }
  }

  lemma CloseOldKeepsInv(s: State, works: bool)
    requires Inv(s) && s.connector.at == CloseOld
    ensures Inv(ConnectorMoves(s, works))
  {
    var s0 := if s.connector.replaced.Some? then GoCleanup(s, s.connector.replaced.value, Closing) else s;
    if s.connector.replaced.Some? { GoCleanupKeepsInv(s, s.connector.replaced.value, Closing); }
    var s' := ConnectorMoves(s, works);
    forall d ensures PeerInv(s', d) { assert PeerInv(s0, d); }
    forall v ensures UnitInv(s', v) { assert UnitInv(s0, v); }
  }

  /** The places of a connect request that touch nothing but the request. */
  predicate OnlyWalks(at: ConnectPlace) {
    at in {CheckOpen, CheckDevice, CheckSecret, CheckLimit, AwaitTorn, Build}
  }

  lemma WalkingKeepsConnector(s: State, works: bool)
    requires ConnectorInv(s) && OnlyWalks(s.connector.at)
    ensures ConnectorMoves(s, works) == s.(connector := ConnectorMoves(s, works).connector)
    ensures ConnectorInv(ConnectorMoves(s, works))
  {
    match s.connector.at
    case CheckOpen =>
    case CheckDevice =>
    case CheckSecret =>
    case CheckLimit =>
    case AwaitTorn =>
    case Build =>
  }

  lemma ConnectorKeepsInv(s: State, works: bool)
    requires Inv(s) && ConnectorCanMove(s)
    ensures Inv(ConnectorMoves(s, works))
  {
    match s.connector.at
    case TakeOldPeer => TakeOldKeepsInv(s);
    case CloseOld => CloseOldKeepsInv(s, works);
    case InsertNew => InsertKeepsInv(s);
    case SetUp => SetUpKeepsInv(s, works);
    case _ =>
      WalkingKeepsConnector(s, works);
      WalkingOnKeepsInv(s, ConnectorMoves(s, works).connector);
  }

  // ----------------------------------------------------------- closing all peers

  /** The peers a closeAll takes out were made, and are in no snapshot yet. */
  lemma SnapshotPeersAreNew(s: State, n: nat)
    requires (forall d :: PeerInv(s, d)) && n in s.books.peers.Values
    ensures n < |s.created| && NotifyOf(n) !in s.units
  {
    var d :| d in s.books.peers && s.books.peers[d] == n;
    assert PeerInv(s, d);
  }

  /** What closeAll's region gives both of its callers. */
  lemma SnapshotStarts(s: State, c: Closer)
    requires forall d :: PeerInv(s, d)
    requires c.mine == s.books.peers.Values && c.at == AwaitHandlers
    ensures CloserInv(SnapshotStep(s), c)
  {
    forall n | n in c.mine ensures n < |s.created| { SnapshotPeersAreNew(s, n); }
  }

  lemma SnapshotKeepsCloser(s: State, c: Closer)
    requires (forall d :: PeerInv(s, d)) && CloserInv(s, c)
    ensures CloserInv(SnapshotStep(s), c)
  {
    forall n | n in s.books.peers.Values ensures NotifyOf(n) !in s.units { SnapshotPeersAreNew(s, n); }
  }

  lemma SnapshotKeepsUnit(s: State, v: UnitId)
    requires forall d :: PeerInv(s, d)
    ensures v in SnapshotStep(s).units && v !in s.units ==>
      v.NotifyOf? && v.peer in s.books.peers.Values && v.peer < |s.created|
    ensures v in s.units ==> v in SnapshotStep(s).units && SnapshotStep(s).units[v] == s.units[v]
  {
    if v.NotifyOf? && v.peer in s.books.peers.Values { SnapshotPeersAreNew(s, v.peer); }
  }

  lemma SnapshotKeepsConnector(s: State)
    requires (forall d :: PeerInv(s, d)) && ConnectorInv(s)
    ensures ConnectorInv(SnapshotStep(s))
  {
    if s.connector.torn.Some? { SnapshotKeepsUnit(s, s.connector.torn.value); }
  }

  lemma ReloadSnapshotKeepsUnit(s: State, v: UnitId)
    requires (forall d :: PeerInv(s, d)) && UnitInv(s, v) && s.reload.at == TakeSnapshot
    ensures UnitInv(ReloadMoves(s), v)
  {
    SnapshotKeepsUnit(s, v);
  }

  lemma ShutdownSnapshotKeepsUnit(s: State, v: UnitId)
    requires (forall d :: PeerInv(s, d)) && UnitInv(s, v) && s.shutdown.at == TakeSnapshot
    ensures UnitInv(ShutdownMoves(s), v)
  {
    SnapshotKeepsUnit(s, v);
  }

  lemma ReloadSnapshotKeepsClosers(s: State)
    requires (forall d :: PeerInv(s, d)) && ClosersInv(s) && s.reload.at == TakeSnapshot
    ensures ClosersInv(ReloadMoves(s))
  {
    SnapshotStarts(s, ReloadMoves(s).reload);
    SnapshotKeepsCloser(s, s.shutdown);
  }

  lemma ReloadSnapshotKeepsConnector(s: State)
    requires (forall d :: PeerInv(s, d)) && ConnectorInv(s) && s.reload.at == TakeSnapshot
    ensures ConnectorInv(ReloadMoves(s))
  {
    SnapshotKeepsConnector(s);
  }

  lemma ReloadSnapshotKeepsInv(s: State)
    requires Inv(s) && s.reload.at == TakeSnapshot
    ensures Inv(ReloadMoves(s))
  {
    var s' := ReloadMoves(s);
    SnapshotCountsNothing(s);
    ReloadSnapshotKeepsClosers(s);
    ReloadSnapshotKeepsConnector(s);
    forall v ensures UnitInv(s', v) { ReloadSnapshotKeepsUnit(s, v); }
  }

  lemma ShutdownSnapshotKeepsClosers(s: State)
    requires (forall d :: PeerInv(s, d)) && ClosersInv(s) && s.shutdown.at == TakeSnapshot
    ensures ClosersInv(ShutdownMoves(s))
  {
    SnapshotStarts(s, ShutdownMoves(s).shutdown);
    SnapshotKeepsCloser(s, s.reload);
  }

  lemma ShutdownSnapshotKeepsConnector(s: State)
    requires (forall d :: PeerInv(s, d)) && ConnectorInv(s) && s.shutdown.at == TakeSnapshot
    ensures ConnectorInv(ShutdownMoves(s))
  {
    SnapshotKeepsConnector(s);
  }

  lemma ShutdownSnapshotKeepsInv(s: State)
    requires Inv(s) && s.shutdown.at == TakeSnapshot
    ensures Inv(ShutdownMoves(s))
  {
    var s' := ShutdownMoves(s);
    SnapshotCountsNothing(s);
    ShutdownSnapshotKeepsClosers(s);
    ShutdownSnapshotKeepsConnector(s);
    forall v ensures UnitInv(s', v) { ShutdownSnapshotKeepsUnit(s, v); }
  }

  /** The steps of a closeAll that only announce, wait or finish. */
  lemma ReloadKeepsClosers(s: State)
    requires ClosersInv(s) && CloserCanMove(s, s.reload) && s.reload.at != TakeSnapshot
    ensures ClosersInv(ReloadMoves(s))
  {
    match s.reload.at
    case Announce =>
    case AwaitHandlers =>
    case AwaitTeardowns =>
    case Finish =>
  }

  lemma ShutdownKeepsClosers(s: State)
    requires ClosersInv(s) && CloserCanMove(s, s.shutdown) && s.shutdown.at != TakeSnapshot
    ensures ClosersInv(ShutdownMoves(s))
  {
    match s.shutdown.at
    case Announce =>
    case AwaitHandlers =>
    case AwaitTeardowns =>
    case AwaitCloses =>
    case AwaitCleanups =>
  }

  lemma ReloadKeepsInv(s: State)
    requires Inv(s) && CloserCanMove(s, s.reload)
    ensures Inv(ReloadMoves(s))
  {
    var s' := ReloadMoves(s);
    if s.reload.at == TakeSnapshot {
      ReloadSnapshotKeepsInv(s);
    } else {
      ReloadKeepsClosers(s);
      forall d ensures PeerInv(s', d) { assert PeerInv(s, d); }
      forall v ensures UnitInv(s', v) { assert UnitInv(s, v); }
    }
  }

  lemma ShutdownKeepsInv(s: State)
    requires Inv(s) && CloserCanMove(s, s.shutdown)
    ensures Inv(ShutdownMoves(s))
  {
    var s' := ShutdownMoves(s);
    if s.shutdown.at == TakeSnapshot {
      ShutdownSnapshotKeepsInv(s);
    } else {
      ShutdownKeepsClosers(s);
      forall d ensures PeerInv(s', d) { assert PeerInv(s, d); }
      forall v ensures UnitInv(s', v) { assert UnitInv(s, v); }
    }
  }

  lemma StartKeepsInv(s: State, a: Action)
    requires Inv(s) && Enabled(s, a) && (a.Request? || a.Reload? || a.ShutDown?)
    ensures Inv(Next(s, a))
  {
    var s' := Next(s, a);
    forall d ensures PeerInv(s', d) { assert PeerInv(s, d); }
    forall v ensures UnitInv(s', v) { assert UnitInv(s, v); }
  }

  lemma NextKeepsInv(s: State, a: Action)
    requires Inv(s) && Enabled(s, a)
    ensures Inv(Next(s, a))
  {
    match a
    case ConnectorMove(works) => ConnectorKeepsInv(s, works);
    case ReloadMove => ReloadKeepsInv(s);
    case ShutdownMove => ShutdownKeepsInv(s);
    case UnitMove(id) => UnitKeepsInv(s, id);
    case Fail(n) => ScheduleKeepsInv(s, n);
    case Abandon(n) => GoCleanupKeepsInv(s, n, Removing);
    case _ => StartKeepsInv(s, a);
  }

  lemma InitialInv(s: State)
    requires Initial(s)
    ensures Inv(s)
  {
    assert TeardownUnits(map[]) == {} && CleanupUnits(map[]) == {};
  }

  lemma {:induction false} RunKeepsInv(states: seq<State>, actions: seq<Action>, i: nat)
    requires IsRun(states, actions) && i < |states|
    ensures Inv(states[i])
  {
    if i > 0 {
      RunKeepsInv(states, actions, i - 1);
      assert Follows(states, actions, i - 1);
      NextKeepsInv(states[i - 1], actions[i - 1]);
    } else {
      InitialInv(states[0]);
    }
  }
}
