/**
 One run of pmux pair: the local record, the session and the server, in either
 of the server's modes. A server that holds the mobile for confirmation commits
 only on pair_accept; a legacy server has committed before pair_complete is seen.
 */
module RunPairs {
  import opened Common
  import opened PairingStore
  import opened PairSessions

  const MAX_MOBILE_NAME_LEN := 64

  function TruncateMobileName(name: string): (kept: string)
    ensures |kept| <= 64 && kept <= name && (|name| <= 64 ==> kept == name)
  {
    if |name| > MAX_MOBILE_NAME_LEN then name[..MAX_MOBILE_NAME_LEN] else name
  }

  /** How everything that RunPair calls comes out. */
  datatype Env = Env(
    // before the session: the local record, the user's answer, keys, QR code and token
    load: Faults,
    answersYes: bool,
    setUp: bool,
    // the server's mode and what it sends
    confirmed: bool,
    authSends: bool,
    authFrames: seq<Frame>,
    waitFrames: seq<Frame>,
    timesOut: bool,
    // the mobile's proof and the key exchange
    macValid: bool,
    secret: Option<Secret>,
    dirs: bool,
    // the decision
    acceptSends: bool,
    commits: bool,
    acceptFrames: seq<Frame>,
    rejectSends: bool,
    // storing the device, and the cleanups
    add: Faults,
    forget: Faults,
    deletesPairing: bool,
    remove: Faults
  )

  /** The server confirms a commit only when it has committed. */
  ghost predicate HonestServer(e: Env) {
    forall mobile :: Confirms(e.acceptFrames, mobile) ==> e.acceptSends && e.commits
  }

  /** The server's record of the mobile paired with this host. */
  class Server {
    var paired: Option<DeviceId>

    constructor (paired: Option<DeviceId>)
      ensures this.paired == paired
    {
      this.paired := paired;
    }
  }

  function FirstDevice(disk: Disk): Option<DeviceId> {
    if disk.devices == [] then None else Some(disk.devices[0].id)
  }

  /** Both sides name the same device, or none. */
  predicate Agree(disk: Disk, paired: Option<DeviceId>) {
    FirstDevice(disk) == paired
  }

  /** A pair_complete that the server delivers before its auth reply. */
  function Early(e: Env): Option<Completion> {
    if e.authSends then FirstCompletion(BeforeAuthEnd(e.authFrames)) else None
  }

  /** The pair_complete that reaches the session in the course of a run. */
  function Arriving(e: Env): Option<Completion> {
    if Early(e).Some? then Early(e) else FirstCompletion(e.waitFrames)
  }

  /** The checks between the wait and the decision. */
  predicate Verified(e: Env, c: Completion) {
    && ValidDeviceId(c.mobile)
    && (Early(e).Some? || !e.timesOut)
    && e.macValid && e.secret.Some? && e.dirs
  }

  datatype Exit = NoSession | Failed | Stored

  /**
   The deferred cleanup for a legacy server, whose pairing already replaced the
   old one: what was not stored is removed on both sides.
   */
  method CleanUpLegacy(store: HostStore, server: Server, e: Env, existing: Option<Device>,
      received: Option<Completion>, stored: bool)
    modifies store, server
    ensures e.confirmed || received.None? || stored ==>
      store.View() == old(store.View()) && server.paired == old(server.paired)
    ensures !e.confirmed && received.Some? && !stored ==>
      && server.paired == (if e.deletesPairing then None else old(server.paired))
      && store.View()
         == (if existing.None? then old(store.View()) else Removed(old(store.View()), existing.value.id, e.remove).0)
  {
    if e.confirmed || received.None? {
      return;
    }
    if !stored && e.deletesPairing {
      server.paired := None;
    }
    if existing.None? || (stored && existing.value.id == received.value.mobile) {
      return;
    }
    if !stored {
      var _ := store.RemovePairedDevice(existing.value.id, e.remove);
    }
  }

  /** The session asks the server to commit: the one case in which it sends pair_accept. */
  predicate Accepts(e: Env, received: Option<Completion>) {
    e.confirmed && received.Some? && Verified(e, received.value)
  }

  /** The wait, the checks, the decision, and the commit of a server that was asked for it. */
  method Decide(server: Server, sess: PairSession, e: Env) returns (goOn: bool)
    requires HonestServer(e) && sess.confirm == e.confirmed && sess.received == Early(e)
    requires !sess.waited && !sess.decided && sess.decisions == []
    modifies server, sess
    ensures sess.received == Arriving(e)
    ensures sess.decided <==>
      && e.confirmed && sess.received.Some? && ValidDeviceId(sess.received.value.mobile)
      && (Early(e).Some? || !e.timesOut)
      && e.macValid && e.secret.Some? && e.dirs
    ensures sess.decisions == if sess.decided then [PairAccept(sess.received.value.mobile)] else []
    ensures server.paired
         == if sess.decided && e.acceptSends && e.commits then Some(sess.received.value.mobile) else old(server.paired)
    ensures goOn <==>
      && sess.received.Some? && ValidDeviceId(sess.received.value.mobile)
      && (Early(e).Some? || !e.timesOut)
      && e.macValid && e.secret.Some? && e.dirs
      && (e.confirmed ==> e.acceptSends && Confirms(e.acceptFrames, sess.received.value.mobile))
  {
    var msg, ok := sess.WaitForPairComplete(e.waitFrames, e.timesOut);
    if !ok || !e.macValid || e.secret.None? || !e.dirs {
      return false;
    }
    if !e.confirmed {
      return true;
    }
    if e.acceptSends && e.commits {
      server.paired := Some(msg.value.mobile);
    }
    goOn := sess.Accept(e.acceptSends, e.acceptFrames);
  }

  /** Stores the device, in place of any other, and forgets the secret of the one it replaced. */
  method StoreDevice(store: HostStore, e: Env, existing: Option<Device>, c: Completion) returns (stored: bool)
    requires e.secret.Some?
    modifies store
    ensures stored <==> ValidDeviceId(c.mobile) && !e.add.decode && !e.add.put && !e.add.write
    ensures !stored ==> store.devices == old(store.devices)
    ensures stored ==> store.devices == [Device(c.mobile, TruncateMobileName(c.name))]
    ensures stored ==> WithSecret(store.View(), store.devices[0]).secret == e.secret
    ensures stored && existing.Some? && existing.value.id != c.mobile && !e.forget.delete ==>
      existing.value.id !in store.secrets
  {
    stored := store.AddPairedDevice(Device(c.mobile, TruncateMobileName(c.name)), e.secret, e.add);
    if stored && existing.Some? && existing.value.id != c.mobile {
      store.DeleteSecret(existing.value.id, e.forget);
    }
  }

  /** The run gets as far as storing the device, and storing it works. */
  ghost predicate Succeeds(e: Env, received: Option<Completion>) {
    && received.Some? && Verified(e, received.value)
    && (e.confirmed ==> e.acceptSends && Confirms(e.acceptFrames, received.value.mobile))
    && !e.add.decode && !e.add.put && !e.add.write
  }

  /** What must work before the host dials the server. */
  ghost predicate ReachesDial(e: Env, before: Disk) {
    CanLoad(before, e.load) && (before.devices == [] || e.answersYes) && e.setUp
  }

  ghost predicate Dials(e: Env, before: Disk) {
    ReachesDial(e, before) && Authenticates(e.authSends, e.authFrames)
  }

  /**
   The mobile's proof and every other check hold, the server confirmed if it is
   one that does, and storing worked.
   */
  ghost predicate MustStore(e: Env, received: Option<Completion>) {
    && received.Some? && ValidDeviceId(received.value.mobile)
    && (Early(e).Some? || !e.timesOut)
    && e.macValid && e.secret.Some? && e.dirs
    && (e.confirmed ==> e.acceptSends && Confirms(e.acceptFrames, received.value.mobile))
    && !e.add.decode && !e.add.put && !e.add.write
  }

  /**
   With a confirming server a received pair_complete gets exactly one answer:
   pair_accept exactly if the mobile's proof and every check behind it hold,
   and otherwise pair_reject with nothing changed on either side. The local
   record is untouched until the server has confirmed the commit, and the
   server commits nothing that was not accepted. Only a commit whose
   confirmation or whose local store failed leaves the two sides apart.
   */
  ghost predicate ConfirmedOutcome(e: Env, exit: Exit, received: Option<Completion>, decisions: seq<Decision>,
    before: Disk, pairedBefore: Option<DeviceId>, after: Disk, paired: Option<DeviceId>)
  {
    && (exit == Stored <==> MustStore(e, received))
    && (if received.None? then decisions == []
        else if && ValidDeviceId(received.value.mobile) && (Early(e).Some? || !e.timesOut)
                && e.macValid && e.secret.Some? && e.dirs
        then decisions == [PairAccept(received.value.mobile)]
        else decisions == [PairReject(received.value.mobile)] && after == before && paired == pairedBefore)
    && (received.None? || !Confirms(e.acceptFrames, received.value.mobile) ==> exit != Stored && after == before)
    && (exit != Stored ==> after.devices == before.devices)
    && paired
       == (if Accepts(e, received) && e.acceptSends && e.commits then Some(received.value.mobile) else pairedBefore)
    && (Agree(before, pairedBefore) && !Agree(after, paired) ==>
          exit == Failed && paired == Some(received.value.mobile) && decisions == [PairAccept(received.value.mobile)])
  }

  /** What a failed legacy pairing leaves on both sides can be removed; at most one device was paired here. */
  ghost predicate CleanupWorks(e: Env, before: Disk) {
    && |before.devices| <= 1 && e.deletesPairing
    && (before.devices != [] ==> Removed(before, before.devices[0].id, e.remove).1)
  }

  /**
   A legacy server is never answered. When the pairing it made is not stored
   here and the cleanup calls succeed, no pairing is left on either side.
   */
  ghost predicate LegacyOutcome(e: Env, exit: Exit, received: Option<Completion>, decisions: seq<Decision>,
    before: Disk, after: Disk, paired: Option<DeviceId>)
  {
    && decisions == [] && (exit == Stored <==> MustStore(e, received))
    && (exit == Failed && received.Some? && CleanupWorks(e, before) ==> Agree(after, paired) && paired.None?)
  }

  /** Whether the one paired device can be removed does not depend on secrets, and if so none is left. */
  lemma CleanupLeavesNone(before: Disk, now: Disk, f: Faults)
    requires now.devices == before.devices && |before.devices| == 1
    ensures var id := before.devices[0].id;
            && Removed(now, id, f).1 == Removed(before, id, f).1
            && (Removed(now, id, f).1 ==> Removed(now, id, f).0.devices == [])
  {
    WithoutOthers(now.devices, before.devices[0].id);
  }

  /** What was decided, stored and committed lets the two sides come apart only as ConfirmedOutcome says. */
  lemma ConfirmedEnds(e: Env, exit: Exit, received: Option<Completion>, before: Disk, pairedBefore: Option<DeviceId>,
      after: Disk, paired: Option<DeviceId>)
    requires e.confirmed && exit == (if Succeeds(e, received) then Stored else Failed)
    requires exit == Stored ==> |after.devices| == 1 && after.devices[0].id == received.value.mobile
    requires exit != Stored ==> after.devices == before.devices
    requires !Accepts(e, received) || !Confirms(e.acceptFrames, received.value.mobile) ==> after == before
    requires paired
          == if Accepts(e, received) && e.acceptSends && e.commits then Some(received.value.mobile) else pairedBefore
    requires exit == Stored ==> paired == Some(received.value.mobile)
    ensures ConfirmedOutcome(e, exit, received, Answer(e, received), before, pairedBefore, after, paired)
  {
  }

  /** The one answer to a received pair_complete. */
  function Answer(e: Env, received: Option<Completion>): seq<Decision> {
    if received.None? then []
    else if Verified(e, received.value) then [PairAccept(received.value.mobile)]
    else [PairReject(received.value.mobile)]
  }

  /** A legacy pairing that was not stored: the cleanup, if its calls succeed, leaves none on either side. */
  lemma LegacyEnds(e: Env, received: Option<Completion>, existing: Option<Device>, before: Disk, now: Disk,
      after: Disk, paired: Option<DeviceId>)
    requires existing == (if before.devices == [] then None else Some(before.devices[0]))
    requires received.Some? ==> now.devices == before.devices && (e.deletesPairing ==> paired.None?)
    requires received.Some? ==>
      after == if existing.None? then now else Removed(now, existing.value.id, e.remove).0
    requires !Succeeds(e, received)
    ensures LegacyOutcome(e, Failed, received, [], before, after, paired)
  {
    if received.Some? && |before.devices| == 1 { CleanupLeavesNone(before, now, e.remove); }
  }

  /** RunPair from the authenticated session on, with its deferred cleanups. */
  method PairOverSession(store: HostStore, server: Server, sess: PairSession, e: Env, existing: Option<Device>)
    returns (exit: Exit)
    requires HonestServer(e)
    requires existing == if store.devices == [] then None else Some(store.devices[0])
    requires sess.confirm == e.confirmed && sess.received == Early(e)
    requires !sess.waited && !sess.decided && sess.decisions == []
    requires !e.confirmed && Arriving(e).Some? ==> server.paired == Some(Arriving(e).value.mobile)
    modifies store, server, sess
    ensures |old(store.devices)| <= 1 ==> |store.devices| <= 1
    ensures sess.received == Arriving(e) && exit == if Succeeds(e, sess.received) then Stored else Failed
    ensures exit == Stored ==>
      sess.received.Some? && e.secret.Some? && server.paired == Some(sess.received.value.mobile)
    ensures exit == Stored ==>
      store.devices == [Device(sess.received.value.mobile, TruncateMobileName(sess.received.value.name))]
    ensures exit == Stored ==> WithSecret(store.View(), store.devices[0]).secret == e.secret
    ensures e.confirmed ==>
      ConfirmedOutcome(e, exit, sess.received, sess.decisions,
        old(store.View()), old(server.paired), store.View(), server.paired)
    ensures !e.confirmed ==>
      LegacyOutcome(e, exit, sess.received, sess.decisions, old(store.View()), store.View(), server.paired)
  {
    var stored := Decide(server, sess, e);
    if stored {
      stored := StoreDevice(store, e, existing, sess.received.value);
    }
    ghost var now := store.View();
    CleanUpLegacy(store, server, e, existing, sess.received, stored);
    var _ := sess.Close(e.rejectSends);
    exit := if stored then Stored else Failed;
    if e.confirmed {
      ConfirmedEnds(e, exit, sess.received, old(store.View()), old(server.paired), store.View(), server.paired);
    } else if !stored {
      LegacyEnds(e, sess.received, existing, old(store.View()), now, store.View(), server.paired);
    }
  }

  /** A legacy server's pairing that a failed authentication made the host forget about. */
  predicate DialForgets(e: Env) {
    !e.confirmed && Early(e).Some? && !Authenticates(e.authSends, e.authFrames)
  }

  /** RunPair up to the authenticated session, with what a legacy server commits in the meantime. */
  method DialServer(store: HostStore, server: Server, e: Env)
    returns (sess: PairSession?, existing: Option<Device>)
    modifies server
    ensures sess == null <==>
      !(CanLoad(store.View(), e.load) && (store.devices == [] || e.answersYes) && e.setUp
        && Authenticates(e.authSends, e.authFrames))
    ensures sess == null ==>
      server.paired
        == if ReachesDial(e, store.View()) && DialForgets(e) then Some(Early(e).value.mobile) else old(server.paired)
    ensures sess != null ==>
      && fresh(sess) && sess.confirm == e.confirmed && sess.received == Early(e)
      && !sess.waited && !sess.decided && sess.decisions == []
      && existing == (if store.devices == [] then None else Some(store.devices[0]))
    ensures sess != null ==>
      server.paired
        == if !e.confirmed && Arriving(e).Some? then Some(Arriving(e).value.mobile) else old(server.paired)
  {
    sess, existing := null, None;
    var loaded := store.LoadPairedDevice(e.load);
    if loaded.None? || (loaded.value.Some? && !e.answersYes) || !e.setUp {
      return;
    }
    if loaded.value.Some? {
      existing := Some(loaded.value.value.device);
    }
    if !e.confirmed && Early(e).Some? {
      // the server's doing: it has committed what it is about to deliver
      server.paired := Some(Early(e).value.mobile);
    }
    var dialled := new PairSession(e.confirmed);
    var ok := dialled.Authenticate(e.authSends, e.authFrames);
    if !ok {
      return;
    }
    if !e.confirmed && Arriving(e).Some? {
      server.paired := Some(Arriving(e).value.mobile);
    }
    sess := dialled;
  }

  /**
   RunPair. In both modes a stored device is one that the server committed.
   Before there is a session nothing changes here; the server's record becomes
   the mobile of a legacy pairing that completes during an authentication that
   then fails, if the run gets that far, and stays as it was otherwise.
   */
  method RunPair(store: HostStore, server: Server, e: Env)
    returns (exit: Exit, received: Option<Completion>, decisions: seq<Decision>)
    requires HonestServer(e)
    modifies store, server
    ensures |old(store.devices)| <= 1 ==> |store.devices| <= 1
    ensures exit == NoSession <==>
      !(CanLoad(old(store.View()), e.load) && (old(store.devices) == [] || e.answersYes) && e.setUp
        && Authenticates(e.authSends, e.authFrames))
    ensures exit == NoSession ==> store.View() == old(store.View()) && decisions == []
    ensures exit == NoSession ==>
      server.paired
        == if ReachesDial(e, old(store.View())) && DialForgets(e)
           then Some(Early(e).value.mobile)
           else old(server.paired)
    ensures exit != NoSession ==> received == Arriving(e)
    ensures exit == Stored ==>
      received.Some? && Agree(store.View(), server.paired) && server.paired == Some(received.value.mobile)
    ensures exit == Stored ==>
      WithSecret(store.View(), store.devices[0])
        == Loaded(Device(received.value.mobile, TruncateMobileName(received.value.name)), e.secret)
    ensures exit != NoSession && e.confirmed ==>
      ConfirmedOutcome(e, exit, received, decisions, old(store.View()), old(server.paired), store.View(), server.paired)
    ensures exit != NoSession && !e.confirmed ==>
      LegacyOutcome(e, exit, received, decisions, old(store.View()), store.View(), server.paired)
  {
    received, decisions := None, [];
    var sess, existing := DialServer(store, server, e);
    if sess == null {
      return NoSession, received, decisions;
    }
    exit := PairOverSession(store, server, sess, e, existing);
    received, decisions := sess.received, sess.decisions;
  }

  function SomePhone(): Completion {
    Completion(seq(32, _ => 'a'), [], "phone", [])
  }

  /** Everything works, except that the server's confirmation of the commit never arrives. */
  function ConfirmationLost(): Env {
    Env(NO_FAULTS, true, true, true, true, [AuthReply], [PairComplete(SomePhone())], false, true, Some([]), true,
        true, true, [], true, NO_FAULTS, NO_FAULTS, true, NO_FAULTS)
  }

  lemma ConfirmationLostDecides()
    ensures var e := ConfirmationLost();
            && HonestServer(e) && Dials(e, Disk([], map[]))
            && Arriving(e) == Some(SomePhone()) && Accepts(e, Some(SomePhone()))
  {
    var e := ConfirmationLost();
    AuthEndsOnce(e.authFrames, 0);
    assert e.authFrames[..0] == [] && e.waitFrames[..0] == [];
  }

  /** The confirming server commits, its confirmation is lost, and the host knows of no pairing. */
  method ConfirmationCanGetLost() returns (exit: Exit, here: seq<Device>, there: Option<DeviceId>)
    ensures exit == Failed && here == [] && there == Some(SomePhone().mobile)
  {
    var store := new HostStore();
    var server := new Server(None);
    ConfirmationLostDecides();
    var received, decisions;
    exit, received, decisions := RunPair(store, server, ConfirmationLost());
    here, there := store.devices, server.paired;
  }

  /** A legacy server delivers the mobile's pair_complete and then an error in place of its auth reply. */
  function ForgottenOnDial(): Env {
    ConfirmationLost().(confirmed := false, authFrames := [PairComplete(SomePhone()), ErrorFrame])
  }

  lemma ForgottenOnDialForgets()
    ensures var e := ForgottenOnDial();
            HonestServer(e) && ReachesDial(e, Disk([], map[])) && DialForgets(e) && Early(e) == Some(SomePhone())
  {
    var e := ForgottenOnDial();
    AuthEndsOnce(e.authFrames, 1);
    var front := e.authFrames[..1];
    assert front == [PairComplete(SomePhone())] && front[..0] == [];
  }

  /** The legacy server has paired the mobile, and the host, which never had a session, leaves that as it is. */
  method DialCanForget() returns (exit: Exit, here: seq<Device>, there: Option<DeviceId>)
    ensures exit == NoSession && here == [] && there == Some(SomePhone().mobile)
  {
    var store := new HostStore();
    var server := new Server(None);
    ForgottenOnDialForgets();
    var received, decisions;
    exit, received, decisions := RunPair(store, server, ForgottenOnDial());
    here, there := store.devices, server.paired;
  }
}
