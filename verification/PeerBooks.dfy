/**
 The peer manager's shared fields, and what each region that runs under its
 lock does to them. A peer is named by its number among all peers created.
 */
module PeerBooks {
  import opened Common

  type DeviceId = string

  /** closed, shutDown, allowedDeviceID, peers, and the counters of the two wait groups. */
  datatype Books = Books(
    closed: bool,
    shutDown: bool,
    allowed: DeviceId,
    peers: map<DeviceId, nat>,
    teardownWg: int,
    cleanupWg: int
  )

  predicate IsCurrent(b: Books, device: DeviceId, peer: nat) {
    device in b.peers && b.peers[device] == peer
  }

  // -------------------------------------------------------------- the regions

  /** goCleanup: the cleanup is counted while the manager is open. */
  function CountCleanup(b: Books): Books {
    if b.closed then b else b.(cleanupWg := b.cleanupWg + 1)
  }

  /** scheduleCleanup and goTeardownLocked: a handler teardown counts in both groups. */
  function CountTeardown(b: Books): Books {
    if b.closed then b else b.(teardownWg := b.teardownWg + 1, cleanupWg := b.cleanupWg + 1)
  }

  /** A reconnect takes the old peer out of the map and counts its teardown in the same hold. */
  function TakeOld(b: Books, device: DeviceId): Books {
    if device in b.peers then CountTeardown(b.(peers := b.peers - {device})) else b
  }

  predicate MayInsert(b: Books, device: DeviceId, maxPeers: nat) {
    && !b.closed
    && b.allowed == device
    && (device in b.peers || |b.peers| < maxPeers)
  }

  function Insert(b: Books, device: DeviceId, peer: nat, maxPeers: nat): Books {
    if MayInsert(b, device, maxPeers) then b.(peers := b.peers[device := peer]) else b
  }

  function Remove(b: Books, device: DeviceId): Books {
    b.(peers := b.peers - {device})
  }

  /** ClosePeerIfCurrent. */
  function RemoveIfCurrent(b: Books, device: DeviceId, peer: nat): Books {
    if IsCurrent(b, device, peer) then Remove(b, device) else b
  }

  /** closeAll: the manager closes and forgets every peer. */
  function TakeAll(b: Books): Books {
    b.(closed := true, peers := map[])
  }

  /** A reload opens the manager again, unless a shutdown overlaps it. */
  function Reopen(b: Books): Books {
    if b.shutDown then b else b.(closed := false)
  }

  function TeardownDone(b: Books): Books {
    b.(teardownWg := b.teardownWg - 1)
  }

  function CleanupDone(b: Books): Books {
    b.(cleanupWg := b.cleanupWg - 1)
  }

  // -------------------------------------------------------------- the manager

  class PeerManager {
    var closed: bool
    var shutDown: bool
    var allowedDeviceID: DeviceId
    var peers: map<DeviceId, nat>
    var teardownWg: int
    var cleanupWg: int
    const MaxPeers: nat

    ghost function View(): Books
      reads this
    {
      Books(closed, shutDown, allowedDeviceID, peers, teardownWg, cleanupWg)
    }

    constructor (maxPeers: nat)
      ensures View() == Books(false, false, "", map[], 0, 0) && MaxPeers == maxPeers
    {
      MaxPeers := maxPeers;
      closed, shutDown, allowedDeviceID, peers := false, false, "", map[];
      teardownWg, cleanupWg := 0, 0;
    }

    method SetAllowedDeviceID(id: DeviceId)
      modifies this
      ensures View() == old(View()).(allowed := id)
    {
      allowedDeviceID := id;
    }

    /** The region of goCleanup. */
    method TrackCleanup() returns (tracked: bool)
      modifies this
      ensures View() == CountCleanup(old(View())) && tracked == !closed
    {
      tracked := !closed;
      if tracked {
        cleanupWg := cleanupWg + 1;
      }
    }

    /** The region of scheduleCleanup. */
    method ScheduleCleanup() returns (scheduled: bool)
      modifies this
      ensures View() == CountTeardown(old(View())) && scheduled == !closed
    {
      if closed {
        return false;
      }
      teardownWg := teardownWg + 1;
      cleanupWg := cleanupWg + 1;
      scheduled := true;
    }

    /** The region of handleConnectRequest that makes room for a reconnect. */
    method TakeOldPeer(device: DeviceId) returns (oldPeer: Option<nat>, tracked: bool)
      modifies this
      ensures View() == TakeOld(old(View()), device)
      ensures oldPeer == if device in old(peers) then Some(old(peers)[device]) else None
      ensures tracked == (oldPeer.Some? && !closed)
    {
      oldPeer, tracked := None, false;
      if device in peers {
        oldPeer := Some(peers[device]);
        peers := peers - {device};
        tracked := !closed;
        if tracked {
          teardownWg := teardownWg + 1;
          cleanupWg := cleanupWg + 1;
        }
      }
    }

    /** The region of handleConnectRequest that re-checks admission and inserts. */
    method InsertPeer(device: DeviceId, peer: nat) returns (inserted: bool)
      modifies this
      ensures View() == Insert(old(View()), device, peer, MaxPeers)
      ensures inserted == MayInsert(old(View()), device, MaxPeers)
    {
      if closed || allowedDeviceID != device {
        return false;
      }
      if device !in peers && |peers| >= MaxPeers {
        return false;
      }
      peers := peers[device := peer];
      inserted := true;
    }

    method ClosePeer(device: DeviceId) returns (peer: Option<nat>)
      modifies this
      ensures View() == Remove(old(View()), device)
      ensures peer == if device in old(peers) then Some(old(peers)[device]) else None
    {
      peer := None;
      if device in peers {
        peer := Some(peers[device]);
      }
      peers := peers - {device};
    }

    method ClosePeerIfCurrent(device: DeviceId, peer: nat)
      modifies this
      ensures View() == RemoveIfCurrent(old(View()), device, peer)
    {
      if device !in peers || peers[device] != peer {
        return;
      }
      peers := peers - {device};
    }

    /** The region of closeAll: the snapshot is what was tracked. */
    method TakeAllPeers() returns (snapshot: map<DeviceId, nat>)
      modifies this
      ensures View() == TakeAll(old(View())) && snapshot == old(peers)
    {
      closed := true;
      snapshot := peers;
      peers := map[];
    }

    /** The region at the start of CloseAll. */
    method ShutDown()
      modifies this
      ensures View() == old(View()).(shutDown := true)
    {
      shutDown := true;
    }

    /** The region at the end of CloseAllAndReopen. */
    method ReopenUnlessShutDown()
      modifies this
      ensures View() == Reopen(old(View()))
    {
      if !shutDown {
        closed := false;
      }
    }
  }
}
