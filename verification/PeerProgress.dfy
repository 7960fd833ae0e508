/** Why closing all peers does not wait forever. */
module PeerProgress {
  import opened PeerBooks
  import opened PeerSteps
  import opened PeerInvariant

  /** The reload or the shutdown. */
  datatype Which = TheReload | TheShutdown

  function CloserOf(s: State, w: Which): Closer {
    if w == TheReload then s.reload else s.shutdown
  }

  // ------------------------------------------------------- what a wait waits for

  /** The closer's current wait is for this unit to get on. */
  predicate WaitsFor(c: Closer, id: UnitId, u: Unit) {
    match c.at
    case AwaitHandlers => id.NotifyOf? && id.peer in c.mine && !IsHandled(u)
    case AwaitTeardowns => InTeardown(u)
    case AwaitCloses => id.NotifyOf? && id.peer in c.mine && u.phase != Over
    case AwaitCleanups => InCleanup(u)
    case _ => false
  }

  /** The most moves a unit still makes. */
  function UnitMovesLeft(u: Unit): nat {
    match u.phase
    case Stopping => 7
    case Checking => 6
    case Handling => 5
    case Handled => 4
    case Removing => 3
    case Closing => 2
    case Closed => 1
    case Over => 0
  }

  /** What the closer's wait still has to see of one unit. */
  function Awaited(s: State, c: Closer, id: UnitId): nat {
    if id in s.units && WaitsFor(c, id, s.units[id]) then UnitMovesLeft(s.units[id]) else 0
  }

  function AwaitedJobs(s: State, c: Closer, n: nat): nat {
    if n == 0 then 0 else AwaitedJobs(s, c, n - 1) + Awaited(s, c, Job(n - 1))
  }

  function AwaitedPeers(s: State, c: Closer, n: nat): nat {
    if n == 0 then 0 else AwaitedPeers(s, c, n - 1) + Awaited(s, c, NotifyOf(n - 1))
  }

  /** What the closer's wait still has to see of all units there are. */
  function AwaitedMoves(s: State, c: Closer): nat {
    AwaitedJobs(s, c, s.jobs) + AwaitedPeers(s, c, |s.created|)
  }

  /** The action is a move of a unit that the closer waits for. */
  predicate GetsOn(s: State, c: Closer, a: Action) {
    a.UnitMove? && a.id in s.units && WaitsFor(c, a.id, s.units[a.id])
  }

  // ------------------------------------------------------------ comparing sums

  /** Nothing that the closer waits for grows, and no unit that it did not wait for is added to it. */
  ghost predicate NoMore(s: State, s': State, c: Closer) {
    forall id :: Awaited(s', c, id) <= Awaited(s, c, id)
  }

  lemma {:induction false} JobsShrink(s: State, s': State, c: Closer, n: nat)
    requires NoMore(s, s', c)
    ensures AwaitedJobs(s', c, n) <= AwaitedJobs(s, c, n)
    ensures forall j: nat :: j < n && Awaited(s', c, Job(j)) < Awaited(s, c, Job(j)) ==>
              AwaitedJobs(s', c, n) < AwaitedJobs(s, c, n)
  {
    if n > 0 {
      JobsShrink(s, s', c, n - 1);
      assert Awaited(s', c, Job(n - 1)) <= Awaited(s, c, Job(n - 1));
    }
  }

  lemma {:induction false} PeersShrink(s: State, s': State, c: Closer, n: nat)
    requires NoMore(s, s', c)
    ensures AwaitedPeers(s', c, n) <= AwaitedPeers(s, c, n)
    ensures forall j: nat :: j < n && Awaited(s', c, NotifyOf(j)) < Awaited(s, c, NotifyOf(j)) ==>
              AwaitedPeers(s', c, n) < AwaitedPeers(s, c, n)
  {
    if n > 0 {
      PeersShrink(s, s', c, n - 1);
      assert Awaited(s', c, NotifyOf(n - 1)) <= Awaited(s, c, NotifyOf(n - 1));
    }
  }

  /** Units beyond those there are count nothing. */
  lemma {:induction false} NoJobsBeyond(s: State, c: Closer, n: nat)
    requires s.jobs <= n && forall id :: UnitInv(s, id)
    ensures AwaitedJobs(s, c, n) == AwaitedJobs(s, c, s.jobs)
  {
    if s.jobs < n {
      NoJobsBeyond(s, c, n - 1);
      assert UnitInv(s, Job(n - 1));
    }
  }

  lemma {:induction false} NoPeersBeyond(s: State, c: Closer, n: nat)
    requires |s.created| <= n && forall id :: UnitInv(s, id)
    ensures AwaitedPeers(s, c, n) == AwaitedPeers(s, c, |s.created|)
  {
    if |s.created| < n {
      NoPeersBeyond(s, c, n - 1);
      assert UnitInv(s, NotifyOf(n - 1));
    }
  }

  lemma {:induction false} JobsAreBounded(s: State, c: Closer, n: nat)
    ensures AwaitedJobs(s, c, n) <= 7 * n
  {
    if n > 0 { JobsAreBounded(s, c, n - 1); }
  }

  lemma {:induction false} PeersAreBounded(s: State, c: Closer, n: nat)
    ensures AwaitedPeers(s, c, n) <= 7 * n
  {
    if n > 0 { PeersAreBounded(s, c, n - 1); }
  }

  // ---------------------------------------------------------------- single steps

  /** A unit's own move brings it on, and nobody else moves it. */
  lemma UnitGetsOn(s: State, c: Closer, id: UnitId, v: UnitId)
    requires id in s.units && s.units[id].phase != Over
    ensures Awaited(UnitMoves(s, id, s.units[id]), c, v) <= Awaited(s, c, v)
    ensures v == id && WaitsFor(c, id, s.units[id]) ==> Awaited(UnitMoves(s, id, s.units[id]), c, v) < Awaited(s, c, v)
  {
  }

  /** What a closed manager starts is not counted, and a snapshot it takes is empty. */
  lemma ClosedStartsNothing(s: State, a: Action, c: Closer, v: UnitId)
    requires s.books.closed && s.books.peers == map[] && !a.UnitMove?
    requires UnitInv(s, v) && UnitInv(s, Job(s.jobs))
    ensures Awaited(Next(s, a), c, v) <= Awaited(s, c, v)
  {
    match a
    case Request(_) =>
    case ConnectorMove(works) => ClosedConnectorStartsNothing(s, works, c, v);
    case Reload(_) =>
    case ReloadMove => ClosedSnapshotIsEmpty(s);
    case ShutDown =>
    case ShutdownMove => ClosedSnapshotIsEmpty(s);
    case Fail(_) =>
    case Abandon(n) => ClosedCountsNothing(s, n, Removing, c, v);
  }

  lemma ClosedCountsNothing(s: State, n: nat, phase: Phase, c: Closer, v: UnitId)
    requires s.books.closed && UnitInv(s, v) && UnitInv(s, Job(s.jobs))
    ensures Awaited(GoCleanup(s, n, phase), c, v) <= Awaited(s, c, v)
  {
  }

  lemma ClosedConnectorStartsNothing(s: State, works: bool, c: Closer, v: UnitId)
    requires s.books.closed && s.books.peers == map[] && UnitInv(s, v) && UnitInv(s, Job(s.jobs))
    ensures Awaited(ConnectorMoves(s, works), c, v) <= Awaited(s, c, v)
  {
    match s.connector.at
    case TakeOldPeer =>
    case CloseOld =>
      if s.connector.replaced.Some? { ClosedCountsNothing(s, s.connector.replaced.value, Closing, c, v); }
    case InsertNew =>
    case _ =>
  }

  lemma ClosedTracksNobody(s: State)
    requires Inv(s) && s.books.closed
    ensures s.books.peers == map[]
  {
    assert forall d :: d in s.books.peers ==> PeerInv(s, d);
  }

  lemma ClosedSnapshotIsEmpty(s: State)
    requires s.books.peers == map[]
    ensures SnapshotStep(s).units == s.units
  {
    assert SnapshotUnits(s) == map[];
  }

  lemma NothingIsAdded(s: State, a: Action, c: Closer)
    requires Inv(s) && s.books.closed && Enabled(s, a)
    ensures NoMore(s, Next(s, a), c)
  {
    ClosedTracksNobody(s);
    forall v ensures Awaited(Next(s, a), c, v) <= Awaited(s, c, v) {
      assert UnitInv(s, v) && UnitInv(s, Job(s.jobs));
      if a.UnitMove? { UnitGetsOn(s, c, a.id, v); } else { ClosedStartsNothing(s, a, c, v); }
    }
  }

  lemma CountsGrow(s: State, a: Action)
    ensures s.jobs <= Next(s, a).jobs && |s.created| <= |Next(s, a).created|
  {
    if a.ConnectorMove? {
      match s.connector.at
      case TakeOldPeer =>
      case CloseOld =>
      case InsertNew =>
      case _ =>
    }
  }

  lemma AwaitedFalls(s: State, a: Action, c: Closer)
    requires Inv(s) && s.books.closed && Enabled(s, a)
    ensures AwaitedMoves(Next(s, a), c) <= AwaitedMoves(s, c)
    ensures GetsOn(s, c, a) ==> AwaitedMoves(Next(s, a), c) < AwaitedMoves(s, c)
  {
    var s' := Next(s, a);
    CountsGrow(s, a);
    NothingIsAdded(s, a, c);
    JobsShrink(s, s', c, s'.jobs);
    PeersShrink(s, s', c, |s'.created|);
    NoJobsBeyond(s, c, s'.jobs);
    NoPeersBeyond(s, c, |s'.created|);
    if GetsOn(s, c, a) {
      UnitGetsOn(s, c, a.id, a.id);
      assert UnitInv(s, a.id);
    }
  }

  // ------------------------------------------------------------------ whole runs

  predicate IsWaiting(c: Closer) {
    c.at == AwaitHandlers || c.at == AwaitTeardowns || c.at == AwaitCloses || c.at == AwaitCleanups
  }

  /** Some unit that the closer waits for can move. */
  ghost predicate IsHelped(s: State, c: Closer) {
    exists id :: GetsOn(s, c, UnitMove(id)) && Enabled(s, UnitMove(id))
  }

  lemma BlockedIsHelped(s: State, w: Which)
    requires Inv(s) && IsWaiting(CloserOf(s, w)) && !CloserCanMove(s, CloserOf(s, w))
    ensures IsHelped(s, CloserOf(s, w))
  {
    var c := CloserOf(s, w);
    match c.at
    case AwaitHandlers =>
      var n :| n in c.mine && !(NotifyOf(n) in s.units && IsHandled(s.units[NotifyOf(n)]));
      assert GetsOn(s, c, UnitMove(NotifyOf(n)));
    case AwaitTeardowns =>
      assert TeardownUnits(s.units) != {};
      var id :| id in TeardownUnits(s.units);
      assert GetsOn(s, c, UnitMove(id));
    case AwaitCloses =>
      var n :| n in c.mine && !(NotifyOf(n) in s.units && s.units[NotifyOf(n)].phase == Over);
      assert GetsOn(s, c, UnitMove(NotifyOf(n)));
    case AwaitCleanups =>
      assert CleanupUnits(s.units) != {};
      var id :| id in CleanupUnits(s.units);
      assert GetsOn(s, c, UnitMove(id));
  }

  /** The moves between two points of a run of the units that a closer waits for. */
  function MovesMade(states: seq<State>, actions: seq<Action>, w: Which, i: nat, j: nat): nat
    requires i <= j <= |actions| && |states| == |actions| + 1
    decreases j
  {
    if i == j then 0
    else
      var s := states[j - 1];
      MovesMade(states, actions, w, i, j - 1) + if GetsOn(s, CloserOf(s, w), actions[j - 1]) then 1 else 0
  }

  /** The closer is blocked in the wait that it was in at the start. */
  ghost predicate IsBlocked(s: State, w: Which, c: Closer) {
    CloserOf(s, w) == c && !CloserCanMove(s, c)
  }

  /**
   While a reload or the shutdown is blocked in one of its waits, some unit
   that it waits for can move; those units' moves are bounded from the start by
   seven for each unit there is; and nothing is added to them, since the
   manager is closed.
   */
  lemma {:induction false} EveryCloseEnds(states: seq<State>, actions: seq<Action>, w: Which, c: Closer, i: nat, j: nat)
    requires IsRun(states, actions) && i <= j < |states| && IsWaiting(c)
    requires forall k :: i <= k <= j ==> IsBlocked(states[k], w, c)
    ensures IsHelped(states[j], c)
    ensures MovesMade(states, actions, w, i, j) + AwaitedMoves(states[j], c) <= AwaitedMoves(states[i], c)
    ensures AwaitedMoves(states[i], c) <= 7 * (states[i].jobs + |states[i].created|)
    decreases j
  {
    JobsAreBounded(states[i], c, states[i].jobs);
    PeersAreBounded(states[i], c, |states[i].created|);
    if i < j {
      EveryCloseEnds(states, actions, w, c, i, j - 1);
      WaitShortens(states, actions, w, c, j - 1);
    }
    BlockedInRunIsHelped(states, actions, w, c, j);
  }

  lemma WaitShortens(states: seq<State>, actions: seq<Action>, w: Which, c: Closer, i: nat)
    requires IsRun(states, actions) && i < |actions| && IsWaiting(c) && IsBlocked(states[i], w, c)
    ensures AwaitedMoves(states[i + 1], c) + (if GetsOn(states[i], c, actions[i]) then 1 else 0)
         <= AwaitedMoves(states[i], c)
  {
    RunKeepsInv(states, actions, i);
    assert Follows(states, actions, i);
    AwaitedFalls(states[i], actions[i], c);
  }

  lemma BlockedInRunIsHelped(states: seq<State>, actions: seq<Action>, w: Which, c: Closer, i: nat)
    requires IsRun(states, actions) && i < |states| && IsWaiting(c) && IsBlocked(states[i], w, c)
    ensures IsHelped(states[i], c)
  {
    RunKeepsInv(states, actions, i);
    BlockedIsHelped(states[i], w);
  }
}
