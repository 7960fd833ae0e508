/**
 The maps that the message handler keeps per peer, and what each region that
 runs under the handler's lock does to them.

 An attachment is named by its number among its peer's attachments; that number
 stands for the bridge, the cancel function and the done channel created for it.
 */
module HandlerEntries {
  import opened Common

  type PeerId = string
  type PaneId = string

  /** The done channel of one attachment. */
  datatype Done = Done(peer: PeerId, att: nat)

  /** One peer's share of the handler's maps. */
  datatype Entry = Entry(
    bridge: Option<nat>,
    cancel: Option<nat>,
    pane: Option<PaneId>,
    done: Option<nat>,
    superseded: set<nat>,
    exitNotified: bool,
    pinged: bool
  )

  const NO_ENTRY := Entry(None, None, None, None, {}, false, false)

  // ------------------------------------------------- the regions, on one peer

  /** A detach: takes the attachment out of the maps and, to wait, marks its stream superseded. */
  function Detach(e: Entry, wait: bool): Entry {
    var marked := if wait && e.done.Some? then e.(superseded := e.superseded + {e.done.value}) else e;
    if e.bridge.Some?
    then marked.(bridge := None, cancel := None, pane := None, exitNotified := false)
    else marked
  }

  function Register(e: Entry, att: nat, pane: PaneId): Entry {
    e.(bridge := Some(att), cancel := Some(att), done := Some(att), pane := Some(pane))
  }

  /** A stream ends: its done entry goes if it is still its own, and its superseded mark goes. */
  function End(e: Entry, att: nat): Entry {
    e.(done := if e.done == Some(att) then None else e.done, superseded := e.superseded - {att})
  }

  predicate MayClaimExit(e: Entry) {
    e.pane.Some? && !e.exitNotified
  }

  function ClaimExit(e: Entry): Entry {
    if MayClaimExit(e) then e.(exitNotified := true) else e
  }

  // ------------------------------------------------------------- the handler

  function Lookup<V>(m: map<PeerId, V>, peer: PeerId): Option<V> {
    if peer in m then Some(m[peer]) else None
  }

  /** The attachments of one peer whose done channels are marked. */
  function MarkedOf(superseded: map<Done, bool>, peer: PeerId): set<nat> {
    set d <- superseded.Keys | d.peer == peer :: d.att
  }

  lemma MarkedIsMember(superseded: map<Done, bool>, peer: PeerId, att: nat)
    ensures att in MarkedOf(superseded, peer) <==> Done(peer, att) in superseded
  {
    if Done(peer, att) in superseded { assert Done(peer, att).att in MarkedOf(superseded, peer); }
  }

  lemma SameMarks(before: map<Done, bool>, after: map<Done, bool>, peer: PeerId)
    requires forall att :: Done(peer, att) in before <==> Done(peer, att) in after
    ensures MarkedOf(before, peer) == MarkedOf(after, peer)
  {
    forall att: nat ensures att in MarkedOf(before, peer) <==> att in MarkedOf(after, peer) {
      MarkedIsMember(before, peer, att);
      MarkedIsMember(after, peer, att);
    }
  }

  /** A mark is set for its own peer and attachment only. */
  lemma MarkingAdds(superseded: map<Done, bool>, peer: PeerId, att: nat)
    ensures MarkedOf(superseded[Done(peer, att) := true], peer) == MarkedOf(superseded, peer) + {att}
    ensures forall p :: p != peer ==> MarkedOf(superseded[Done(peer, att) := true], p) == MarkedOf(superseded, p)
  {
    var after := superseded[Done(peer, att) := true];
    forall n: nat ensures n in MarkedOf(after, peer) <==> n in MarkedOf(superseded, peer) + {att} {
      MarkedIsMember(superseded, peer, n);
      MarkedIsMember(after, peer, n);
    }
    forall p | p != peer ensures MarkedOf(after, p) == MarkedOf(superseded, p) { SameMarks(superseded, after, p); }
  }

  lemma UnmarkingRemoves(superseded: map<Done, bool>, peer: PeerId, att: nat)
    ensures MarkedOf(superseded - {Done(peer, att)}, peer) == MarkedOf(superseded, peer) - {att}
    ensures forall p :: p != peer ==> MarkedOf(superseded - {Done(peer, att)}, p) == MarkedOf(superseded, p)
  {
    var after := superseded - {Done(peer, att)};
    forall n: nat ensures n in MarkedOf(after, peer) <==> n in MarkedOf(superseded, peer) - {att} {
      MarkedIsMember(superseded, peer, n);
      MarkedIsMember(after, peer, n);
    }
    forall p | p != peer ensures MarkedOf(after, p) == MarkedOf(superseded, p) { SameMarks(superseded, after, p); }
  }

  class Handler {
    var bridges: map<PeerId, nat>
    var cancels: map<PeerId, nat>
    var streamDone: map<PeerId, nat>
    var superseded: map<Done, bool>
    var paneForPeer: map<PeerId, PaneId>
    var lastPingTime: map<PeerId, nat>
    var exitNotified: map<PeerId, bool>

    /** Flags are only ever stored as true, and a bridge, its cancel and its pane share their keys. */
    ghost predicate Valid()
      reads this
    {
      && bridges.Keys == cancels.Keys == paneForPeer.Keys
      && (forall d :: d in superseded ==> superseded[d])
      && (forall p :: p in exitNotified ==> exitNotified[p])
    }

    ghost function Of(peer: PeerId): Entry
      reads this
    {
      Entry(
        Lookup(bridges, peer),
        Lookup(cancels, peer),
        Lookup(paneForPeer, peer),
        Lookup(streamDone, peer),
        MarkedOf(superseded, peer),
        peer in exitNotified,
        peer in lastPingTime)
    }

    constructor ()
      ensures Valid()
      ensures forall peer :: Of(peer) == NO_ENTRY
    {
      bridges, cancels, streamDone, superseded := map[], map[], map[], map[];
      paneForPeer, lastPingTime, exitNotified := map[], map[], map[];
    }

    /** The locked region of detachPeerWait. */
    method TakeAttachment(peer: PeerId, wait: bool)
      returns (bridge: Option<nat>, cancel: Option<nat>, pane: Option<PaneId>, done: Option<nat>)
      requires Valid()
      modifies this
      ensures Valid()
      ensures Of(peer) == Detach(old(Of(peer)), wait)
      ensures forall p :: p != peer ==> Of(p) == old(Of(p))
      ensures (bridge, cancel, pane, done)
           == (old(Of(peer)).bridge, old(Of(peer)).cancel, old(Of(peer)).pane, old(Of(peer)).done)
    {
      bridge := Lookup(bridges, peer);
      cancel := Lookup(cancels, peer);
      pane := Lookup(paneForPeer, peer);
      done := Lookup(streamDone, peer);
      if wait && done.Some? {
        MarkingAdds(superseded, peer, done.value);
        superseded := superseded[Done(peer, done.value) := true];
      }
      if bridge.Some? {
        bridges := bridges - {peer};
        cancels := cancels - {peer};
        paneForPeer := paneForPeer - {peer};
        exitNotified := exitNotified - {peer};
      }
    }

    /** The locked region of handleAttach that installs a fresh attachment. */
    method Install(peer: PeerId, att: nat, pane: PaneId)
      requires Valid()
      modifies this
      ensures Valid()
      ensures Of(peer) == Register(old(Of(peer)), att, pane)
      ensures forall p :: p != peer ==> Of(p) == old(Of(p))
    {
      bridges := bridges[peer := att];
      cancels := cancels[peer := att];
      streamDone := streamDone[peer := att];
      paneForPeer := paneForPeer[peer := pane];
    }

    /** The locked region of endStream. */
    method ForgetStream(peer: PeerId, att: nat)
      requires Valid()
      modifies this
      ensures Valid()
      ensures Of(peer) == End(old(Of(peer)), att)
      ensures forall p :: p != peer ==> Of(p) == old(Of(p))
    {
      if peer in streamDone && streamDone[peer] == att {
        streamDone := streamDone - {peer};
      }
      UnmarkingRemoves(superseded, peer, att);
      superseded := superseded - {Done(peer, att)};
    }

    /** The locked region of handlePaneExit: only the first caller per attachment is told the pane. */
    method TryClaimExit(peer: PeerId) returns (pane: Option<PaneId>)
      requires Valid()
      modifies this
      ensures Valid()
      ensures Of(peer) == ClaimExit(old(Of(peer)))
      ensures forall p :: p != peer ==> Of(p) == old(Of(p))
      ensures pane == if MayClaimExit(old(Of(peer))) then old(Of(peer)).pane else None
    {
      if peer !in paneForPeer || peer in exitNotified {
        return None;
      }
      exitNotified := exitNotified[peer := true];
      pane := Some(paneForPeer[peer]);
    }

    /** The locked region of resetStream. */
    method IsSuperseded(peer: PeerId, att: nat) returns (marked: bool)
      requires Valid()
      ensures marked <==> att in Of(peer).superseded
    {
      marked := Done(peer, att) in superseded && superseded[Done(peer, att)];
      MarkedIsMember(superseded, peer, att);
    }

    method RecordPing(peer: PeerId, now: nat)
      requires Valid()
      modifies this
      ensures Valid()
      ensures Of(peer) == old(Of(peer)).(pinged := true)
      ensures forall p :: p != peer ==> Of(p) == old(Of(p))
    {
      lastPingTime := lastPingTime[peer := now];
    }

    /** The locked region of PeerDisconnected. */
    method ForgetPing(peer: PeerId)
      requires Valid()
      modifies this
      ensures Valid()
      ensures Of(peer) == old(Of(peer)).(pinged := false)
      ensures forall p :: p != peer ==> Of(p) == old(Of(p))
    {
      lastPingTime := lastPingTime - {peer};
    }
  }
}
