/** What the peer manager promises over every run of connects, cleanups, reloads and one shutdown. */
module PeerTheorems {
  import opened Common
  import opened PeerBooks
  import opened PeerSteps
  import opened PeerInvariant

  // --------------------------------------------------------------- wait groups

  predicate Waits(c: Closer) {
    c.at == AwaitTeardowns || c.at == AwaitCleanups
  }

  /**
   A closed manager tracks no peer. The counters never go below zero, every
   unit counted in teardownWg is counted in cleanupWg, and while a Wait on
   either group is pending, nothing is added to either.
   */
  lemma WaitGroupsAreUsedSafely(states: seq<State>, actions: seq<Action>, i: nat)
    requires IsRun(states, actions) && i < |actions|
    ensures var b, b' := states[i].books, states[i + 1].books;
            && (b.closed ==> b.peers == map[])
            && 0 <= b.teardownWg <= b.cleanupWg
            && (Waits(states[i].reload) || Waits(states[i].shutdown) ==>
                  b.closed && b'.teardownWg <= b.teardownWg && b'.cleanupWg <= b.cleanupWg)
  {
    RunKeepsInv(states, actions, i);
    var s := states[i];
    SubsetsAreSmaller(TeardownUnits(s.units), CleanupUnits(s.units));
    assert forall d :: d in s.books.peers ==> PeerInv(s, d);
    assert Follows(states, actions, i);
    if s.books.closed { ClosedAddsNothing(s, actions[i]); }
  }

  lemma ClosedAddsNothing(s: State, a: Action)
    requires s.books.closed
    ensures Next(s, a).books.teardownWg <= s.books.teardownWg
    ensures Next(s, a).books.cleanupWg <= s.books.cleanupWg
  {
    match a
    case Request(_) =>
    case ConnectorMove(works) => ClosedConnectorAddsNothing(s, works);
    case Reload(_) =>
    case ReloadMove =>
    case ShutDown =>
    case ShutdownMove =>
    case UnitMove(id) => if id in s.units { UnitAddsNothing(s, id, s.units[id]); }
    case Fail(n) =>
    case Abandon(n) =>
  }

  lemma ClosedConnectorAddsNothing(s: State, works: bool)
    requires s.books.closed
    ensures ConnectorMoves(s, works).books.teardownWg <= s.books.teardownWg
    ensures ConnectorMoves(s, works).books.cleanupWg <= s.books.cleanupWg
  {
    match s.connector.at
    case TakeOldPeer =>
    case CloseOld =>
    case InsertNew =>
    case _ =>
  }

  lemma UnitAddsNothing(s: State, id: UnitId, u: Unit)
    ensures UnitMoves(s, id, u).books.teardownWg <= s.books.teardownWg
    ensures UnitMoves(s, id, u).books.cleanupWg <= s.books.cleanupWg
  {
    match u.phase
    case Handled =>
    case Removing =>
    case Closed =>
    case _ =>
  }

  // -------------------------------------------------------------- closing peers

  /** A closeAll that is done waiting: a reload about to reopen, or a shutdown behind its first two waits. */
  predicate HasWaited(c: Closer) {
    c.at == Finish || c.at == AwaitCloses || c.at == AwaitCleanups || c.at == Returned
  }

  /**
   When a closeAll is done waiting, the disconnect handler has returned for
   every peer of its snapshot, and no teardown of a failed or replaced peer is
   anywhere before or inside the handler. The one handler call that can still
   run belongs to the snapshot of an overlapping closeAll.
   */
  lemma CloseAllWaitsForHandlers(states: seq<State>, actions: seq<Action>, i: nat, c: Closer, id: UnitId)
    requires IsRun(states, actions) && i < |states|
    requires c == states[i].reload || c == states[i].shutdown
    requires HasWaited(c) && id in states[i].units
    ensures var s, u := states[i], states[i].units[id];
            && (u.kind.FailedPeer? || u.kind.OldHandler? || u.kind.Background? ==> IsHandled(u))
            && (u.kind.Snapshot? && u.peer in c.mine ==> IsHandled(u))
            && (u.kind.Snapshot? && !IsHandled(u) ==>
                  || (s.reload.at == AwaitHandlers && u.peer in s.reload.mine)
                  || (s.shutdown.at == AwaitHandlers && u.peer in s.shutdown.mine))
  {
    RunKeepsInv(states, actions, i);
    var s := states[i];
    assert UnitInv(s, id);
    assert InTeardown(s.units[id]) ==> id in TeardownUnits(s.units);
  }

  /** When CloseAll returns, every peer of its snapshot and everything that cleanupWg counted is closed. */
  lemma CloseAllWaitsForCloses(states: seq<State>, actions: seq<Action>, i: nat, id: UnitId)
    requires IsRun(states, actions) && i < |states| && states[i].shutdown.at == Returned && id in states[i].units
    ensures var u := states[i].units[id];
            (u.tracked || (u.kind.Snapshot? && u.peer in states[i].shutdown.mine)) ==> u.phase == Over
  {
    RunKeepsInv(states, actions, i);
    var s := states[i];
    assert UnitInv(s, id);
    assert InCleanup(s.units[id]) ==> id in CleanupUnits(s.units);
  }

  lemma {:induction false} ShutdownStays(states: seq<State>, actions: seq<Action>, i: nat, j: nat)
    requires IsRun(states, actions) && i <= j < |states| && BehindSnapshot(states[i].shutdown.at)
    ensures BehindSnapshot(states[j].shutdown.at)
  {
    if j > i {
      ShutdownStays(states, actions, i, j - 1);
      assert Follows(states, actions, j - 1);
    }
  }

  /** Once a shutdown has taken its snapshot, the manager stays closed and empty, whatever a reload does. */
  lemma ShutdownWins(states: seq<State>, actions: seq<Action>, i: nat, j: nat)
    requires IsRun(states, actions) && i <= j < |states| && BehindSnapshot(states[i].shutdown.at)
    ensures states[j].books.closed && states[j].books.shutDown && states[j].books.peers == map[]
  {
    ShutdownStays(states, actions, i, j);
    RunKeepsInv(states, actions, j);
    assert forall d :: d in states[j].books.peers ==> PeerInv(states[j], d);
  }

  ghost predicate Reachable(s: State) {
    exists states, actions :: IsRun(states, actions) && s == states[|actions|]
  }

  lemma Reach(s: State, a: Action)
    requires Reachable(s) && Enabled(s, a)
    ensures Reachable(Next(s, a))
  {
    var states, actions :| IsRun(states, actions) && s == states[|actions|];
    var states', actions' := states + [Next(s, a)], actions + [a];
    forall i: nat | i < |actions'| ensures Follows(states', actions', i) {
      if i < |actions| { assert Follows(states, actions, i); }
    }
    assert IsRun(states', actions');
  }

  ghost predicate PhoneIsWelcome(s: State) {
    !s.books.closed && s.books.allowed == "phone" && s.books.peers == map[] && s.maxPeers == 1
  }

  lemma PhonePassesChecks(s: State)
    requires Reachable(s) && PhoneIsWelcome(s) && s.connector == NO_REQUEST
    ensures Reachable(s.(connector := NO_REQUEST.(device := "phone", at := TakeOldPeer)))
  {
    var c := NO_REQUEST.(device := "phone");
    Reach(s, Request("phone"));
    Reach(s.(connector := c.(at := CheckOpen)), ConnectorMove(true));
    Reach(s.(connector := c.(at := CheckDevice)), ConnectorMove(true));
    Reach(s.(connector := c.(at := CheckSecret)), ConnectorMove(true));
    Reach(s.(connector := c.(at := CheckLimit)), ConnectorMove(true));
  }

  /** A connect request that nothing stands in the way of. */
  lemma PhoneConnects(s: State)
    requires Reachable(s) && PhoneIsWelcome(s) && s.connector == NO_REQUEST
    ensures exists c: Connector :: c.at == SetUp
              && Reachable(s.(books := s.books.(peers := map["phone" := |s.created|]),
                              created := s.created + ["phone"], connector := c))
  {
    PhonePassesChecks(s);
    var c := NO_REQUEST.(device := "phone");
    Reach(s.(connector := c.(at := TakeOldPeer)), ConnectorMove(true));
    Reach(s.(connector := c.(at := Build)), ConnectorMove(true));
    Reach(s.(connector := c.(at := InsertNew)), ConnectorMove(true));
    assert map[]["phone" := |s.created|] == map["phone" := |s.created|];
  }

  /** A shutdown of a closed manager comes to its snapshot, which is empty. */
  lemma ShutdownStarts(s: State)
    requires Reachable(s) && s.shutdown == NO_CLOSE
    ensures Reachable(s.(books := s.books.(shutDown := true), shutdown := Closer(TakeSnapshot, {}, "")))
  {
    Reach(s, ShutDown);
    Reach(s.(shutdown := Closer(Announce, {}, "")), ShutdownMove);
  }

  lemma EmptySnapshotIsTaken(s: State)
    requires Reachable(s) && s.books.peers == map[] && s.books.closed
    requires s.shutdown == Closer(TakeSnapshot, {}, "")
    ensures Reachable(s.(shutdown := Closer(AwaitHandlers, {}, "")))
  {
    Reach(s, ShutdownMove);
    assert SnapshotUnits(s) == map[];
    assert TakeAll(s.books) == s.books;
  }

  /** With nothing to wait for, it runs through. */
  lemma EmptyWaitsEnd(s: State)
    requires Reachable(s) && s.books.teardownWg == 0 && s.books.cleanupWg == 0
    requires s.shutdown == Closer(AwaitHandlers, {}, "")
    ensures Reachable(s.(shutdown := Closer(Returned, {}, "")))
  {
    var c := s.shutdown;
    Reach(s, ShutdownMove);
    Reach(s.(shutdown := c.(at := AwaitTeardowns)), ShutdownMove);
    Reach(s.(shutdown := c.(at := AwaitCloses)), ShutdownMove);
    Reach(s.(shutdown := c.(at := AwaitCleanups)), ShutdownMove);
  }

  lemma EmptyShutdownReturns(s: State)
    requires Reachable(s) && s.books.peers == map[] && s.books.teardownWg == 0 && s.books.cleanupWg == 0
    requires s.shutdown == NO_CLOSE && s.books.closed
    ensures Reachable(s.(books := s.books.(shutDown := true), shutdown := Closer(Returned, {}, "")))
  {
    ShutdownStarts(s);
    var t := s.(books := s.books.(shutDown := true));
    EmptySnapshotIsTaken(t.(shutdown := Closer(TakeSnapshot, {}, "")));
    EmptyWaitsEnd(t.(shutdown := Closer(AwaitHandlers, {}, "")));
  }

  /** A reload comes to the region that closes every peer. */
  lemma ReloadSnapshots(s: State, allow: DeviceId)
    requires Reachable(s) && s.reload == NO_CLOSE && s.books.allowed == allow
    ensures Reachable(ReloadMoves(s.(reload := Closer(TakeSnapshot, {}, allow))))
  {
    Reach(s, Reload(allow));
    Reach(s.(reload := Closer(Announce, {}, allow)), ReloadMove);
    Reach(s.(reload := Closer(TakeSnapshot, {}, allow)), ReloadMove);
  }

  lemma PhoneIsConnected()
    ensures exists s :: Reachable(s) && s.books == Books(false, false, "phone", map["phone" := 0], 0, 0)
              && s.reload == NO_CLOSE && s.shutdown == NO_CLOSE
  {
    var s := State(Books(false, false, "phone", map[], 0, 0), [], map[], 0, NO_REQUEST, NO_CLOSE, NO_CLOSE, 1);
    assert IsRun([s], []);
    PhoneConnects(s);
  }

  /**
   The exception in CloseAllWaitsForHandlers is real: a CloseAll that overlaps
   a reload can return before the disconnect handler has even started for a
   peer that the reload's snapshot took.
   */
  lemma ShutdownCanOutrunReload()
    ensures exists s :: Reachable(s) && s.shutdown.at == Returned
              && NotifyOf(0) in s.units && s.units[NotifyOf(0)].phase == Stopping
  {
    PhoneIsConnected();
    var s0 :| Reachable(s0) && s0.books == Books(false, false, "phone", map["phone" := 0], 0, 0)
      && s0.reload == NO_CLOSE && s0.shutdown == NO_CLOSE;
    ReloadSnapshots(s0, "phone");
    var s := s0.(reload := Closer(TakeSnapshot, {}, "phone"));
    assert 0 in s.books.peers.Values by { assert s.books.peers["phone"] == 0; }
    assert NotifyOf(0) in SnapshotUnits(s);
    EmptyShutdownReturns(ReloadMoves(s));
  }

  // ------------------------------------------------------------------ admission

  /** The reload has changed the allowed device and not closed the peers yet. */
  predicate MidChange(s: State) {
    s.reload.at == TakeSnapshot
  }

  /**
   Outside the window between SetAllowedDeviceID and the closeAll behind it,
   every tracked peer is for the allowed device, even when its connect was in
   flight throughout; there are never more than MaxPeers of them, and each was
   made for the device it is tracked under.
   */
  lemma OnlyTheAllowedDeviceIsTracked(states: seq<State>, actions: seq<Action>, i: nat, d: DeviceId)
    requires IsRun(states, actions) && i < |states| && d in states[i].books.peers
    ensures !MidChange(states[i]) ==> d == states[i].books.allowed
    ensures |states[i].books.peers| <= states[i].maxPeers
    ensures var n := states[i].books.peers[d]; n < |states[i].created| && states[i].created[n] == d
  {
    RunKeepsInv(states, actions, i);
    assert PeerInv(states[i], d);
  }

  /** An insert never overwrites a tracked peer, and tracks the new peer only in an open manager that allows it. */
  lemma InsertOverwritesNothing(states: seq<State>, actions: seq<Action>, i: nat)
    requires IsRun(states, actions) && i < |actions|
    requires actions[i].ConnectorMove? && states[i].connector.at == InsertNew
    ensures var s, b, b' := states[i], states[i].books, states[i + 1].books;
            var d := s.connector.device;
            && d !in b.peers
            && (d in b'.peers <==> !b.closed && b.allowed == d && |b.peers| < s.maxPeers)
            && (d in b'.peers ==> b'.peers[d] == |s.created|)
            && forall other :: other != d ==> (other in b'.peers <==> other in b.peers)
  {
    RunKeepsInv(states, actions, i);
    assert Follows(states, actions, i);
  }

  predicate IsTracked(s: State, d: DeviceId, n: nat) {
    IsCurrent(s.books, d, n)
  }

  /** A cleanup of the peer itself, whose handler call is behind it. */
  predicate ByItsCleanup(s: State, a: Action, n: nat) {
    a.UnitMove? && a.id in s.units && s.units[a.id].peer == n && s.units[a.id].phase == Removing
  }

  /** A reconnect of its device, which starts its teardown. */
  predicate ByItsReconnect(s: State, s': State, a: Action, d: DeviceId, n: nat) {
    && a.ConnectorMove? && s.connector.at == TakeOldPeer && s.connector.device == d
    && Job(s.jobs) in s'.units && s'.units[Job(s.jobs)] == Unit(OldHandler, n, true, Stopping)
  }

  /** The failure of the connect request that made it. */
  predicate ByItsConnect(s: State, a: Action, n: nat) {
    a == ConnectorMove(false) && s.connector.at == SetUp && s.connector.made == Some(n)
  }

  /** A snapshot of all peers, which starts its goroutine. */
  predicate BySnapshot(s: State, s': State, a: Action, n: nat) {
    && ((a.ReloadMove? && s.reload.at == TakeSnapshot) || (a.ShutdownMove? && s.shutdown.at == TakeSnapshot))
    && NotifyOf(n) in s'.units && s'.units[NotifyOf(n)] == Unit(Snapshot, n, false, Stopping)
  }

  /**
   A tracked peer leaves the map only through its own cleanup, a reconnect of
   its device, the failure of its own connect request, or a closeAll: no other
   peer's cleanup and no insert ever evicts it, and a reconnect or a closeAll
   that does starts its teardown in the same step.
   */
  lemma PeersLeaveForAReason(states: seq<State>, actions: seq<Action>, i: nat, d: DeviceId, n: nat)
    requires IsRun(states, actions) && i < |actions|
    requires IsTracked(states[i], d, n) && !IsTracked(states[i + 1], d, n)
    ensures var s, s', a := states[i], states[i + 1], actions[i];
            || ByItsCleanup(s, a, n)
            || ByItsReconnect(s, s', a, d, n)
            || ByItsConnect(s, a, n)
            || BySnapshot(s, s', a, n)
  {
    RunKeepsInv(states, actions, i);
    assert Follows(states, actions, i);
    LeavesForAReason(states[i], actions[i], d, n);
  }

  lemma LeavesForAReason(s: State, a: Action, d: DeviceId, n: nat)
    requires Inv(s) && Enabled(s, a) && IsTracked(s, d, n) && !IsTracked(Next(s, a), d, n)
    ensures ByItsCleanup(s, a, n) || ByItsReconnect(s, Next(s, a), a, d, n) || ByItsConnect(s, a, n)
         || BySnapshot(s, Next(s, a), a, n)
  {
    assert PeerInv(s, d);
    match a
    case UnitMove(id) => assert UnitInv(s, id);
    case ConnectorMove(works) => ConnectorLeavesOthers(s, works, d, n);
    case ReloadMove => assert n in s.books.peers.Values;
    case ShutdownMove => assert n in s.books.peers.Values;
    case _ =>
  }

  lemma ConnectorLeavesOthers(s: State, works: bool, d: DeviceId, n: nat)
    requires ConnectorInv(s) && PeerInv(s, d) && IsTracked(s, d, n) && !IsTracked(ConnectorMoves(s, works), d, n)
    ensures var a, s' := ConnectorMove(works), ConnectorMoves(s, works);
            ByItsReconnect(s, s', a, d, n) || ByItsConnect(s, a, n)
  {
    match s.connector.at
    case TakeOldPeer =>
    case CloseOld =>
    case InsertNew =>
    case SetUp =>
    case _ =>
  }

  /**
   A reconnect inserts its new peer only behind the disconnect handler of the
   peer it replaced, unless the bound on its wait ran out.
   */
  lemma ReconnectComesBehindTeardown(states: seq<State>, actions: seq<Action>, i: nat)
    requires IsRun(states, actions) && i < |states| && states[i].connector.at == InsertNew
    requires states[i].connector.replaced.Some? && !states[i].connector.timedOut
    ensures var s := states[i];
            exists id :: id in s.units && s.units[id].kind.OldHandler? && s.units[id].tracked
              && Some(s.units[id].peer) == s.connector.replaced && IsHandled(s.units[id])
  {
    RunKeepsInv(states, actions, i);
    assert UnitInv(states[i], states[i].connector.torn.value);
  }
}
