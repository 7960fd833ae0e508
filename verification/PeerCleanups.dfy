/** What the cleanups of peers and the reloads come to. */
module PeerCleanups {
  import opened Common
  import opened PeerBooks
  import opened PeerSteps
  import opened PeerInvariant
  import opened PeerTheorems
  import opened PeerConnects

  // ---------------------------------------------------------- what a cleanup has done

  /** The unit makes this move at this place. */
  predicate MovesAt(s: State, a: Action, id: UnitId, phase: Phase) {
    a == UnitMove(id) && id in s.units && s.units[id].phase == phase
  }

  ghost predicate HasMovedAt(states: seq<State>, actions: seq<Action>, i: nat, id: UnitId, phase: Phase)
    requires i <= |actions| < |states|
  {
    exists k: nat :: k < i && MovesAt(states[k], actions[k], id, phase)
  }

  /** Its check found that the peer is not the tracked one any more. */
  predicate FoundStale(s: State, a: Action, id: UnitId) {
    MovesAt(s, a, id, Checking) && !IsCurrent(s.books, s.DeviceOf(s.units[id].peer), s.units[id].peer)
  }

  ghost predicate HasFoundStale(states: seq<State>, actions: seq<Action>, i: nat, id: UnitId)
    requires i <= |actions| < |states|
  {
    exists k: nat :: k < i && FoundStale(states[k], actions[k], id)
  }

  /** What a unit must have done to stand where it does. */
  ghost predicate HasDone(states: seq<State>, actions: seq<Action>, i: nat, id: UnitId)
    requires i <= |actions| < |states|
  {
    id in states[i].units ==>
      var u := states[i].units[id];
      && (IsHandled(u) && !u.kind.Background? ==>
            || HasMovedAt(states, actions, i, id, Handling)
            || (u.kind.FailedPeer? && HasFoundStale(states, actions, i, id)))
      && ((u.phase == Closing || u.phase == Closed || u.phase == Over) && u.kind.FailedPeer? ==>
            HasMovedAt(states, actions, i, id, Removing))
      && ((u.phase == Closed || u.phase == Over) && !u.kind.OldHandler? ==> HasMovedAt(states, actions, i, id, Closing))
  }

  /** One step leaves a unit where it was, starts it, or moves it. */
  lemma UnitByOne(s: State, a: Action, id: UnitId)
    requires Inv(s) && Enabled(s, a) && id in Next(s, a).units
    ensures || (id in s.units && Next(s, a).units[id] == s.units[id])
            || (a == UnitMove(id) && id in s.units)
            || (id !in s.units && !IsHandled(Next(s, a).units[id]))
            || (id !in s.units && Next(s, a).units[id].kind.Background?
                && Next(s, a).units[id].phase in {Removing, Closing})
  {
    assert UnitInv(s, Job(s.jobs));
    match a
    case ConnectorMove(works) => ConnectorStartsUnits(s, works, id);
    case ReloadMove => SnapshotStartsUnits(s, id);
    case ShutdownMove => SnapshotStartsUnits(s, id);
    case UnitMove(v) => UnitMovesItself(s, v, id);
    case _ =>
  }

  lemma ConnectorStartsUnits(s: State, works: bool, id: UnitId)
    requires UnitInv(s, Job(s.jobs)) && id in ConnectorMoves(s, works).units
    ensures var u := ConnectorMoves(s, works).units[id];
            || (id in s.units && u == s.units[id])
            || (id !in s.units && !IsHandled(u))
            || (id !in s.units && u.kind.Background? && u.phase == Closing)
  {
    match s.connector.at
    case TakeOldPeer =>
    case CloseOld =>
    case InsertNew =>
    case _ =>
  }

  lemma SnapshotStartsUnits(s: State, id: UnitId)
    requires Inv(s)
    ensures id in s.units ==> id in SnapshotStep(s).units && SnapshotStep(s).units[id] == s.units[id]
    ensures id in SnapshotStep(s).units && id !in s.units ==> !IsHandled(SnapshotStep(s).units[id])
  {
    SnapshotKeepsUnit(s, id);
  }

  lemma UnitMovesItself(s: State, v: UnitId, id: UnitId)
    requires v in s.units && id in UnitMoves(s, v, s.units[v]).units
    ensures id in s.units && (id != v ==> UnitMoves(s, v, s.units[v]).units[id] == s.units[id])
  {
    match s.units[v].phase
    case Removing =>
    case _ =>
  }

  /** The phases that a unit's own move leads to, and from. */
  lemma OwnMoveDoes(s: State, id: UnitId)
    requires id in s.units && UnitInv(s, id)
    ensures var u, u' := s.units[id], UnitMoves(s, id, s.units[id]).units[id];
            && u'.kind == u.kind && u'.peer == u.peer
            && (IsHandled(u') && !IsHandled(u) ==> u.phase == Handling || FoundStale(s, UnitMove(id), id))
            && (u.phase == Handled && u.kind.FailedPeer? ==> u'.phase == Removing)
            && (u'.phase == Closing ==> u.phase == Removing || u.phase == Closing || u.kind.Snapshot?)
            && (u'.phase == Closed ==> u.phase == Closing || u.phase == Closed || u.kind.OldHandler?)
            && (u'.phase == Over ==> u.phase == Closed || u.phase == Over)
  {
    match s.units[id].phase
    case Removing =>
    case _ =>
  }

  /**
   No unit skips its part: whoever is behind the disconnect handler has called
   it, unless it found its failed peer replaced; a failed peer's unit has been
   through the removal before it closes the peer; and whoever is behind the
   close has closed it.
   */
  lemma {:induction false} UnitsHaveDone(states: seq<State>, actions: seq<Action>, i: nat, id: UnitId)
    requires IsRun(states, actions) && i < |states|
    ensures HasDone(states, actions, i, id)
  {
    if i > 0 {
      UnitsHaveDone(states, actions, i - 1, id);
      RunKeepsInv(states, actions, i - 1);
      assert Follows(states, actions, i - 1);
      if id in states[i].units { DoneByOne(states, actions, i, id); }
    }
  }

  lemma DoneByOne(states: seq<State>, actions: seq<Action>, i: nat, id: UnitId)
    requires 0 < i <= |actions| < |states| && Follows(states, actions, i - 1) && Inv(states[i - 1])
    requires HasDone(states, actions, i - 1, id) && id in states[i].units
    ensures HasDone(states, actions, i, id)
  {
    var s, a := states[i - 1], actions[i - 1];
    UnitByOne(s, a, id);
    if id in s.units && states[i].units[id] == s.units[id] {
    } else if a == UnitMove(id) && id in s.units {
      assert UnitInv(s, id);
      OwnMoveDoes(s, id);
      assert MovesAt(s, a, id, s.units[id].phase);
    }
  }

  // ---------------------------------------------------- closed peers are untracked

  predicate IsGone(s: State, n: nat) {
    n < |s.created| && !IsCurrent(s.books, s.created[n], n)
  }

  predicate IsClosing(u: Unit) {
    u.kind.Snapshot? || u.kind.OldHandler? || u.phase == Closing || u.phase == Closed || u.phase == Over
  }

  ghost predicate GoneInv(s: State, id: UnitId) {
    id in s.units && IsClosing(s.units[id]) ==> IsGone(s, s.units[id].peer)
  }

  /** A peer that is not tracked is never tracked again. */
  lemma GoneStays(s: State, a: Action, n: nat)
    requires Inv(s) && Enabled(s, a) && IsGone(s, n)
    ensures IsGone(Next(s, a), n)
  {
    match a
    case ConnectorMove(works) => ConnectorBringsNoneBack(s, works, n);
    case UnitMove(id) => UnitBringsNoneBack(s, id, s.units[id], n);
    case ReloadMove =>
    case ShutdownMove =>
    case _ =>
  }

  lemma ConnectorBringsNoneBack(s: State, works: bool, n: nat)
    requires IsGone(s, n)
    ensures IsGone(ConnectorMoves(s, works), n)
  {
    match s.connector.at
    case TakeOldPeer =>
    case CloseOld =>
    case InsertNew =>
    case SetUp =>
    case _ =>
  }

  lemma UnitBringsNoneBack(s: State, id: UnitId, u: Unit, n: nat)
    requires IsGone(s, n)
    ensures IsGone(UnitMoves(s, id, u), n)
  {
    match u.phase
    case Removing =>
    case _ =>
  }

  /** A unit moves on to its close only once its peer is untracked. */
  lemma MoverIsGone(s: State, id: UnitId)
    requires Inv(s) && GoneInv(s, id) && id in s.units
    ensures GoneInv(UnitMoves(s, id, s.units[id]), id)
  {
    assert UnitInv(s, id);
    match s.units[id].phase
    case Removing =>
    case _ =>
  }

  /** What starts in its close, or for a peer taken out, starts for a peer that is untracked. */
  lemma StartedIsGone(s: State, a: Action, id: UnitId)
    requires Inv(s) && (forall v :: GoneInv(s, v)) && Enabled(s, a) && id !in s.units
    ensures GoneInv(Next(s, a), id)
  {
    match a
    case Request(_) =>
    case ConnectorMove(works) => ConnectorStartsGone(s, works, id);
    case Reload(_) =>
    case ReloadMove => SnapshotStartsGone(s, id);
    case ShutDown =>
    case ShutdownMove => SnapshotStartsGone(s, id);
    case UnitMove(v) => UnitMovesStartNothing(s, v, id);
    case Fail(_) =>
    case Abandon(_) =>
  }

  lemma UnitMovesStartNothing(s: State, v: UnitId, id: UnitId)
    requires v in s.units && id !in s.units
    ensures id !in UnitMoves(s, v, s.units[v]).units
  {
    match s.units[v].phase
    case Removing =>
    case _ =>
  }

  lemma SnapshotStartsGone(s: State, id: UnitId)
    requires Inv(s) && id !in s.units
    ensures id in SnapshotStep(s).units ==> IsGone(SnapshotStep(s), SnapshotStep(s).units[id].peer)
  {
    SnapshotKeepsUnit(s, id);
  }

  lemma ConnectorStartsGone(s: State, works: bool, id: UnitId)
    requires Inv(s) && (forall v :: GoneInv(s, v)) && id !in s.units
    ensures GoneInv(ConnectorMoves(s, works), id)
  {
    assert UnitInv(s, Job(s.jobs));
    match s.connector.at
    case TakeOldPeer => assert PeerInv(s, s.connector.device);
    case CloseOld => if s.connector.torn.Some? { assert GoneInv(s, s.connector.torn.value); }
    case InsertNew =>
    case _ =>
  }

  lemma NextKeepsGone(s: State, a: Action, id: UnitId)
    requires Inv(s) && (forall v :: GoneInv(s, v)) && Enabled(s, a)
    ensures GoneInv(Next(s, a), id)
  {
    if id in s.units {
      assert GoneInv(s, id);
      if a == UnitMove(id) {
        MoverIsGone(s, id);
      } else {
        BystanderStands(s, a, id);
        if IsClosing(s.units[id]) { GoneStays(s, a, s.units[id].peer); }
      }
    } else {
      StartedIsGone(s, a, id);
    }
  }

  lemma BystanderStands(s: State, a: Action, id: UnitId)
    requires Inv(s) && Enabled(s, a) && id in s.units && a != UnitMove(id)
    ensures id in Next(s, a).units && Next(s, a).units[id] == s.units[id]
  {
    assert UnitInv(s, Job(s.jobs));
    match a
    case ConnectorMove(works) => ConnectorLeavesUnits(s, works, id);
    case UnitMove(v) => UnitLeavesUnits(s, v, id);
    case ReloadMove => SnapshotStartsUnits(s, id);
    case ShutdownMove => SnapshotStartsUnits(s, id);
    case _ =>
  }

  lemma ConnectorLeavesUnits(s: State, works: bool, id: UnitId)
    requires UnitInv(s, Job(s.jobs)) && id in s.units
    ensures id in ConnectorMoves(s, works).units && ConnectorMoves(s, works).units[id] == s.units[id]
  {
    match s.connector.at
    case TakeOldPeer =>
    case CloseOld =>
    case InsertNew =>
    case _ =>
  }

  lemma UnitLeavesUnits(s: State, v: UnitId, id: UnitId)
    requires v in s.units && id in s.units && id != v
    ensures id in UnitMoves(s, v, s.units[v]).units && UnitMoves(s, v, s.units[v]).units[id] == s.units[id]
  {
    match s.units[v].phase
    case Removing =>
    case _ =>
  }

  lemma {:induction false} RunKeepsGone(states: seq<State>, actions: seq<Action>, i: nat)
    requires IsRun(states, actions) && i < |states|
    ensures forall id :: GoneInv(states[i], id)
  {
    if i > 0 {
      RunKeepsGone(states, actions, i - 1);
      RunKeepsInv(states, actions, i - 1);
      assert Follows(states, actions, i - 1);
      forall id ensures GoneInv(states[i], id) { NextKeepsGone(states[i - 1], actions[i - 1], id); }
    }
  }

  lemma {:induction false} GoneForGood(states: seq<State>, actions: seq<Action>, i: nat, j: nat, n: nat)
    requires IsRun(states, actions) && i <= j < |states| && IsGone(states[i], n)
    ensures IsGone(states[j], n)
    decreases j
  {
    if i < j {
      GoneForGood(states, actions, i, j - 1, n);
      GoneByOne(states, actions, j - 1, n);
    }
  }

  lemma GoneByOne(states: seq<State>, actions: seq<Action>, i: nat, n: nat)
    requires IsRun(states, actions) && i < |actions| && IsGone(states[i], n)
    ensures IsGone(states[i + 1], n)
  {
    RunKeepsInv(states, actions, i);
    assert Follows(states, actions, i);
    GoneStays(states[i], actions[i], n);
  }

  /**
   A peer that a cleanup closes or has closed, and one that a reconnect or a
   closeAll has taken out, is not tracked under any device, then or ever after.
   */
  lemma ClosedPeersAreUntracked(states: seq<State>, actions: seq<Action>, i: nat, j: nat, id: UnitId, d: DeviceId)
    requires IsRun(states, actions) && i <= j < |states| && id in states[i].units && IsClosing(states[i].units[id])
    ensures !IsTracked(states[j], d, states[i].units[id].peer)
  {
    RunKeepsGone(states, actions, i);
    assert GoneInv(states[i], id);
    GoneForGood(states, actions, i, j, states[i].units[id].peer);
    RunKeepsInv(states, actions, j);
    assert PeerInv(states[j], d);
  }

  // ------------------------------------------------------- a failed peer's cleanup

  function Moving(id: UnitId, n: nat): seq<Action> {
    if n == 0 then [] else [UnitMove(id)] + Moving(id, n - 1)
  }

  /** The cleanup of a failed peer that is tracked, in an open manager, goes through its handler and takes it out. */
  lemma FailedPeersAreCleanedUp(states: seq<State>, actions: seq<Action>, i: nat, d: DeviceId, n: nat)
    requires IsRun(states, actions) && i < |states| && IsTracked(states[i], d, n) && !states[i].books.closed
    ensures var s, id := states[i], Job(states[i].jobs);
            exists s' :: Leads(s, [Fail(n)] + Moving(id, 7), s') && s'.books == s.books.(peers := s.books.peers - {d})
              && id in s'.units && s'.units[id] == Unit(FailedPeer, n, true, Over)
  {
    RunKeepsInv(states, actions, i);
    assert PeerInv(states[i], d);
    var s1 := Schedule(states[i], n);
    var s2 := HandlerIsCalled(s1, Job(states[i].jobs), d, n);
    var s' := PeerIsRemoved(s2, Job(states[i].jobs), d, n);
    Onwards(s1, Moving(Job(states[i].jobs), 3), s2, Moving(Job(states[i].jobs), 4), s');
    MovingOn(Job(states[i].jobs), 3, 4);
    First(states[i], Fail(n), Moving(Job(states[i].jobs), 7), s');
  }

  lemma {:induction false} MovingOn(id: UnitId, m: nat, n: nat)
    ensures Moving(id, m) + Moving(id, n) == Moving(id, m + n)
  {
    if m == 0 {
      NothingInFront(Moving(id, n));
    } else {
      MovingOn(id, m - 1, n);
      Regroup([UnitMove(id)], Moving(id, m - 1), Moving(id, n));
    }
  }

  lemma MoveFirst(s: State, id: UnitId, n: nat, s': State)
    requires n > 0 && id in s.units && s.units[id].phase != Over
    requires Leads(UnitMoves(s, id, s.units[id]), Moving(id, n - 1), s')
    ensures Leads(s, Moving(id, n), s')
  {
    First(s, UnitMove(id), Moving(id, n - 1), s');
  }

  lemma HandlerIsCalled(s: State, id: UnitId, d: DeviceId, n: nat) returns (s': State)
    requires id in s.units && s.units[id] == Unit(FailedPeer, n, true, Stopping)
    requires n < |s.created| && s.created[n] == d && IsCurrent(s.books, d, n)
    ensures Leads(s, Moving(id, 3), s')
    ensures s' == s.(units := s.units[id := Unit(FailedPeer, n, true, Handled)])
  {
    var s1 := UnitMoves(s, id, s.units[id]);
    var s2 := UnitMoves(s1, id, s1.units[id]);
    s' := UnitMoves(s2, id, s2.units[id]);
    assert s2.units[id].phase == Handling;
    MoveFirst(s2, id, 1, s');
    MoveFirst(s1, id, 2, s');
    MoveFirst(s, id, 3, s');
  }

  lemma PeerIsRemoved(s: State, id: UnitId, d: DeviceId, n: nat) returns (s': State)
    requires id in s.units && s.units[id] == Unit(FailedPeer, n, true, Handled)
    requires n < |s.created| && s.created[n] == d && IsCurrent(s.books, d, n)
    ensures Leads(s, Moving(id, 4), s') && id in s'.units && s'.units[id] == Unit(FailedPeer, n, true, Over)
    ensures s'.books == CleanupDone(TeardownDone(s.books)).(peers := s.books.peers - {d})
  {
    var s1 := UnitMoves(s, id, s.units[id]);
    var s2 := UnitMoves(s1, id, s1.units[id]);
    var s3 := UnitMoves(s2, id, s2.units[id]);
    s' := UnitMoves(s3, id, s3.units[id]);
    MoveFirst(s3, id, 1, s');
    MoveFirst(s2, id, 2, s');
    MoveFirst(s1, id, 3, s');
    MoveFirst(s, id, 4, s');
  }

  // -------------------------------------------------------------------- reloads

  /** From its announcement on, a reload's device is the allowed one. */
  predicate ReloadIsAnnounced(s: State) {
    s.reload.at != Resting && s.reload.at != Announce ==> s.books.allowed == s.reload.allow
  }

  lemma NextKeepsAnnounced(s: State, a: Action)
    requires Inv(s) && ReloadIsAnnounced(s) && Enabled(s, a)
    ensures ReloadIsAnnounced(Next(s, a))
  {
    match a
    case ConnectorMove(works) => ConnectorKeepsAllowed(s, works);
    case UnitMove(id) => UnitKeepsAllowed(s, id, s.units[id]);
    case ReloadMove =>
    case ShutdownMove =>
    case _ =>
  }

  lemma ConnectorKeepsAllowed(s: State, works: bool)
    ensures ConnectorMoves(s, works).books.allowed == s.books.allowed && ConnectorMoves(s, works).reload == s.reload
  {
    match s.connector.at
    case TakeOldPeer =>
    case CloseOld =>
    case InsertNew =>
    case SetUp =>
    case _ =>
  }

  lemma UnitKeepsAllowed(s: State, id: UnitId, u: Unit)
    ensures UnitMoves(s, id, u).books.allowed == s.books.allowed && UnitMoves(s, id, u).reload == s.reload
  {
    match u.phase
    case Removing =>
    case _ =>
  }

  lemma {:induction false} RunKeepsAnnounced(states: seq<State>, actions: seq<Action>, i: nat)
    requires IsRun(states, actions) && i < |states|
    ensures ReloadIsAnnounced(states[i])
  {
    if i > 0 {
      RunKeepsAnnounced(states, actions, i - 1);
      RunKeepsInv(states, actions, i - 1);
      assert Follows(states, actions, i - 1);
      NextKeepsAnnounced(states[i - 1], actions[i - 1]);
    }
  }

  /** A reload ends with no peer tracked and its own device allowed, and the manager open unless a shutdown began. */
  lemma ReloadsOpenForTheirDevice(states: seq<State>, actions: seq<Action>, i: nat)
    requires IsRun(states, actions) && i < |actions| && actions[i].ReloadMove? && states[i].reload.at == Finish
    ensures var b, c := states[i + 1].books, states[i].reload;
            && b.allowed == c.allow && b.peers == map[] && (b.closed <==> b.shutDown)
            && states[i + 1].reload == NO_CLOSE
  {
    RunKeepsInv(states, actions, i);
    RunKeepsAnnounced(states, actions, i);
    assert Follows(states, actions, i);
    assert forall d :: d in states[i].books.peers ==> PeerInv(states[i], d);
  }
}
