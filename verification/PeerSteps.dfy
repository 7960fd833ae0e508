/**
 The goroutines that share a peer manager, one region or one wait at a time:
 the signaling reader that handles connect requests, the reload and shutdown
 calls of closeAll, and the background cleanups that they and failed peers start.
 */
module PeerSteps {
  import opened Common
  import opened PeerBooks

  // ------------------------------------------------------------------ cleanups

  /**
   FailedPeer is scheduleCleanup, OldHandler the teardown of a replaced peer,
   Background a goCleanup, and Snapshot closeAll's goroutine for one peer.
   */
  datatype Kind = FailedPeer | OldHandler | Background | Snapshot

  /** Handled stands before teardownWg.Done, Closed before cleanupWg.Done. */
  datatype Phase = Stopping | Checking | Handling | Handled | Removing | Closing | Closed | Over

  datatype Unit = Unit(kind: Kind, peer: nat, tracked: bool, phase: Phase)

  datatype UnitId = Job(id: nat) | NotifyOf(peer: nat)

  /** The disconnect handler is done with, as far as this unit goes. */
  predicate IsHandled(u: Unit) {
    u.phase != Stopping && u.phase != Checking && u.phase != Handling
  }

  /** The unit has not released teardownWg yet. */
  predicate InTeardown(u: Unit) {
    u.tracked && (u.kind.FailedPeer? || u.kind.OldHandler?) && (!IsHandled(u) || u.phase == Handled)
  }

  /** The unit has not released cleanupWg yet. */
  predicate InCleanup(u: Unit) {
    u.tracked && !u.kind.Snapshot? && u.phase != Over
  }

  // ----------------------------------------------------------------- goroutines

  datatype ConnectPlace =
    | Waiting | CheckOpen | CheckDevice | CheckSecret | CheckLimit
    | TakeOldPeer | AwaitTorn | CloseOld | Build | InsertNew | SetUp

  /** The signaling reader: the request it handles, the teardown it waits for, the peer it made. */
  datatype Connector = Connector(
    at: ConnectPlace,
    device: DeviceId,
    replaced: Option<nat>,
    torn: Option<UnitId>,
    timedOut: bool,
    made: Option<nat>
  )

  datatype CloserPlace =
    | Resting | Announce | TakeSnapshot | AwaitHandlers | AwaitTeardowns | AwaitCloses | AwaitCleanups
    | Finish | Returned

  /** A reload or the shutdown: where it is, and the peers of its snapshot. */
  datatype Closer = Closer(at: CloserPlace, mine: set<nat>, allow: DeviceId)

  datatype State = State(
    books: Books,
    created: seq<DeviceId>,
    units: map<UnitId, Unit>,
    jobs: nat,
    connector: Connector,
    reload: Closer,
    shutdown: Closer,
    maxPeers: nat
  ) {
    function Start(u: Unit): State {
      this.(units := units[Job(jobs) := u], jobs := jobs + 1)
    }

    function DeviceOf(peer: nat): DeviceId {
      if peer < |created| then created[peer] else ""
    }
  }

  const NO_REQUEST := Connector(Waiting, "", None, None, false, None)
  const NO_CLOSE := Closer(Resting, {}, "")

  ghost predicate Initial(s: State) {
    && s.books == Books(false, false, s.books.allowed, map[], 0, 0)
    && s.created == [] && s.units == map[] && s.jobs == 0
    && s.connector == NO_REQUEST && s.reload == NO_CLOSE && s.shutdown == NO_CLOSE
  }

  // ---------------------------------------------------------------------- steps

  function UnitMoves(s: State, id: UnitId, u: Unit): State {
    var device := s.DeviceOf(u.peer);
    match u.phase
    case Stopping => s.(units := s.units[id := u.(phase := if u.kind.FailedPeer? then Checking else Handling)])
    case Checking =>
      s.(units := s.units[id := u.(phase := if IsCurrent(s.books, device, u.peer) then Handling else Handled)])
    case Handling => s.(units := s.units[id := u.(phase := Handled)])
    case Handled =>
      var next := match u.kind { case FailedPeer => Removing case Snapshot => Closing case _ => Closed };
      s.(units := s.units[id := u.(phase := next)], books := if InTeardown(u) then TeardownDone(s.books) else s.books)
    case Removing => s.(units := s.units[id := u.(phase := Closing)], books := RemoveIfCurrent(s.books, device, u.peer))
    case Closing => s.(units := s.units[id := u.(phase := Closed)])
    case Closed =>
      s.(units := s.units[id := u.(phase := Over)], books := if InCleanup(u) then CleanupDone(s.books) else s.books)
    case Over => s
  }

  /** scheduleCleanup for any peer that ever was. */
  function Schedule(s: State, peer: nat): State {
    if s.books.closed then s
    else s.(books := CountTeardown(s.books)).Start(Unit(FailedPeer, peer, true, Stopping))
  }

  /** goCleanup of a ClosePeerIfCurrent (Removing) or of a Close (Closing). */
  function GoCleanup(s: State, peer: nat, phase: Phase): State {
    s.(books := CountCleanup(s.books)).Start(Unit(Background, peer, !s.books.closed, phase))
  }

  /** The region of a connect request that takes the old peer out and starts its teardown. */
  function TakeOldStep(s: State): State {
    var c, b := s.connector, s.books;
    if c.device in b.peers then
      s.(books := TakeOld(b, c.device),
         connector := c.(at := AwaitTorn, replaced := Some(b.peers[c.device]), torn := Some(Job(s.jobs))))
       .Start(Unit(OldHandler, b.peers[c.device], !b.closed, Stopping))
    else s.(connector := c.(at := Build, replaced := None, torn := None))
  }

  /** The region of a connect request that inserts the new peer, or drops it. */
  function InsertStep(s: State): State {
    var c, n := s.connector, |s.created|;
    s.(books := Insert(s.books, c.device, n, s.maxPeers),
       created := s.created + [c.device],
       connector := if MayInsert(s.books, c.device, s.maxPeers) then c.(at := SetUp, made := Some(n)) else NO_REQUEST)
  }

  predicate ConnectorCanMove(s: State) {
    s.connector.at != Waiting
  }

  /** One step of handleConnectRequest; works says how its calls come out, or whether the wait's bound was reached. */
  function ConnectorMoves(s: State, works: bool): State {
    var c := s.connector;
    match c.at
    case Waiting => s
    case CheckOpen => s.(connector := if s.books.closed then NO_REQUEST else c.(at := CheckDevice))
    case CheckDevice =>
      s.(connector :=
        if s.books.allowed == "" || c.device != s.books.allowed then NO_REQUEST else c.(at := CheckSecret))
    case CheckSecret => s.(connector := if works then c.(at := CheckLimit) else NO_REQUEST)
    case CheckLimit =>
      s.(connector :=
        if c.device !in s.books.peers && |s.books.peers| >= s.maxPeers then NO_REQUEST else c.(at := TakeOldPeer))
    case TakeOldPeer => TakeOldStep(s)
    case AwaitTorn =>
      if c.torn.Some? && c.torn.value in s.units && IsHandled(s.units[c.torn.value])
      then s.(connector := c.(at := CloseOld))
      else if works then s
      else s.(connector := c.(at := CloseOld, timedOut := true))
    case CloseOld =>
      (if c.replaced.Some? then GoCleanup(s, c.replaced.value, Closing) else s).(connector := c.(at := Build))
    case Build => s.(connector := if works then c.(at := InsertNew) else NO_REQUEST)
    case InsertNew => InsertStep(s)
    case SetUp =>
      s.(books := if works then s.books else Remove(s.books, c.device), connector := NO_REQUEST)
  }

  /** closeAll's region, and the goroutines it starts for its snapshot. */
  function SnapshotUnits(s: State): map<UnitId, Unit> {
    map n <- s.books.peers.Values :: NotifyOf(n) := Unit(Snapshot, n, false, Stopping)
  }

  function SnapshotStep(s: State): State {
    s.(books := TakeAll(s.books), units := s.units + SnapshotUnits(s))
  }

  /** notifyWg: every handler of the snapshot has returned. */
  ghost predicate AllHandled(s: State, mine: set<nat>) {
    forall n :: n in mine ==> NotifyOf(n) in s.units && IsHandled(s.units[NotifyOf(n)])
  }

  /** closeWg: every peer of the snapshot is closed. */
  ghost predicate AllClosed(s: State, mine: set<nat>) {
    forall n :: n in mine ==> NotifyOf(n) in s.units && s.units[NotifyOf(n)].phase == Over
  }

  ghost predicate CloserCanMove(s: State, c: Closer) {
    match c.at
    case Resting => false
    case AwaitHandlers => AllHandled(s, c.mine)
    case AwaitTeardowns => s.books.teardownWg == 0
    case AwaitCloses => AllClosed(s, c.mine)
    case AwaitCleanups => s.books.cleanupWg == 0
    case Returned => false
    case _ => true
  }

  /** The reload goroutine: SetAllowedDeviceID, then CloseAllAndReopen. */
  function ReloadMoves(s: State): State {
    var c := s.reload;
    match c.at
    case Announce => s.(books := s.books.(allowed := c.allow), reload := c.(at := TakeSnapshot))
    case TakeSnapshot => SnapshotStep(s).(reload := c.(at := AwaitHandlers, mine := s.books.peers.Values))
    case AwaitHandlers => s.(reload := c.(at := AwaitTeardowns))
    case AwaitTeardowns => s.(reload := c.(at := Finish))
    case Finish => s.(books := Reopen(s.books), reload := NO_CLOSE)
    case _ => s
  }

  /** CloseAll. */
  function ShutdownMoves(s: State): State {
    var c := s.shutdown;
    match c.at
    case Announce => s.(books := s.books.(shutDown := true), shutdown := c.(at := TakeSnapshot))
    case TakeSnapshot => SnapshotStep(s).(shutdown := c.(at := AwaitHandlers, mine := s.books.peers.Values))
    case AwaitHandlers => s.(shutdown := c.(at := AwaitTeardowns))
    case AwaitTeardowns => s.(shutdown := c.(at := AwaitCloses))
    case AwaitCloses => s.(shutdown := c.(at := AwaitCleanups))
    case AwaitCleanups => s.(shutdown := c.(at := Returned))
    case _ => s
  }

  datatype Action =
    | Request(device: DeviceId)
    | ConnectorMove(works: bool)
    | Reload(allow: DeviceId)
    | ReloadMove
    | ShutDown
    | ShutdownMove
    | UnitMove(id: UnitId)
    | Fail(peer: nat)
    | Abandon(peer: nat)

  ghost predicate Enabled(s: State, a: Action) {
    match a
    case Request(_) => s.connector.at == Waiting
    case ConnectorMove(_) => ConnectorCanMove(s)
    case Reload(_) => s.reload.at == Resting
    case ReloadMove => CloserCanMove(s, s.reload)
    case ShutDown => s.shutdown.at == Resting
    case ShutdownMove => CloserCanMove(s, s.shutdown)
    case UnitMove(id) => id in s.units && s.units[id].phase != Over
    case Fail(n) => n < |s.created|
    case Abandon(n) => n < |s.created|
  }

  function Next(s: State, a: Action): State {
    match a
    case Request(device) => s.(connector := NO_REQUEST.(at := CheckOpen, device := device))
    case ConnectorMove(works) => ConnectorMoves(s, works)
    case Reload(allow) => s.(reload := Closer(Announce, {}, allow))
    case ReloadMove => ReloadMoves(s)
    case ShutDown => s.(shutdown := Closer(Announce, {}, ""))
    case ShutdownMove => ShutdownMoves(s)
    case UnitMove(id) => if id in s.units then UnitMoves(s, id, s.units[id]) else s
    case Fail(n) => Schedule(s, n)
    case Abandon(n) => GoCleanup(s, n, Removing)
  }

  ghost predicate Follows(states: seq<State>, actions: seq<Action>, i: nat)
    requires i < |actions| < |states|
  {
    Enabled(states[i], actions[i]) && states[i + 1] == Next(states[i], actions[i])
  }

  ghost predicate IsRun(states: seq<State>, actions: seq<Action>) {
    && |states| == |actions| + 1
    && Initial(states[0])
    && forall i: nat :: i < |actions| ==> Follows(states, actions, i)
  }
}
