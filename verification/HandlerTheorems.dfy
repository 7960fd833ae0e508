/** The handler's promises, stated over whole runs. */
module HandlerTheorems {
  import opened Common
  import opened HandlerSteps
  import opened HandlerInvariant
  import opened HandlerSafety
  import opened HandlerProgress
  import opened HandlerSilence

  // ------------------------------------------------------- streams and messages

  /** A thread that still sends output of attachment n, or resets it. */
  predicate Streams(s: State, t: Tid, n: nat) {
    t in s.threads && s.threads[t].mine == Some(n) && s.threads[t].at != Own(CloseDone)
  }

  /** At most one thread streams, and what it streams is the peer's latest attachment. */
  lemma OneStreamAtMost(states: seq<State>, actions: seq<Action>, i: nat, t: Tid, m: nat, u: Tid, n: nat)
    requires IsRun(states, actions) && i < |states|
    requires Streams(states[i], t, m) && Streams(states[i], u, n)
    ensures t == u && m == n == |states[i].atts| - 1
  {
    RunKeepsInv(states, actions, i);
    var s := states[i];
    assert ThreadInv(s, t) && ThreadInv(s, u);
    assert AttachmentInv(s, m) && AttachmentInv(s, n);
  }

  /**
   Behind the detached event, or the attached event of a later attachment, no
   output and no stream_reset of an earlier attachment follows. No attachment is
   announced behind its own output; each is reset at most once and sends nothing
   behind its reset. Its exit is announced at most once by handlePaneExit, and
   its pane is found missing at most once by a session listing.
   */
  lemma NothingFollowsDetach(states: seq<State>, actions: seq<Action>, i: nat, j: nat, k: nat)
    requires IsRun(states, actions) && i < |states|
    requires j < k < |states[i].sent|
    ensures var earlier, later := states[i].sent[j], states[i].sent[k];
            && (earlier.Attached? && (later.Output? || later.Reset?) ==> earlier.att <= later.att)
            && (earlier.Detached? && (later.Output? || later.Reset?) ==> earlier.before <= later.att)
            && (earlier.Output? && later.Attached? ==> earlier.att != later.att)
            && (earlier.Reset? && (later.Output? || later.Reset?) ==> earlier.att != later.att)
            && (earlier.PaneClosed? && later.PaneClosed? ==> earlier.att != later.att)
            && (earlier.PaneMissing? && later.PaneMissing? ==> earlier.att != later.att)
  {
    RunKeepsSent(states, actions, i);
    assert MayFollow(states[i].sent[j], states[i].sent[k]);
  }

  // ------------------------------------------------------ pane_closed, counted

  predicate IsPaneClosed(e: Event, n: nat) {
    e == PaneClosed(n) || e == PaneMissing(n)
  }

  /** How often the peer was told that the pane of attachment n is closed. */
  function TimesToldClosed(sent: seq<Event>, n: nat): nat {
    if sent == [] then 0
    else
      var last := |sent| - 1;
      TimesToldClosed(sent[..last], n) + if IsPaneClosed(sent[last], n) then 1 else 0
  }

  lemma {:induction false} ToldOncePerSender(sent: seq<Event>, n: nat)
    requires InOrder(sent)
    ensures TimesToldClosed(sent, n)
         == (if PaneClosed(n) in sent then 1 else 0) + (if PaneMissing(n) in sent then 1 else 0)
  {
    if sent != [] {
      var last := |sent| - 1;
      var front, e := sent[..last], sent[last];
      forall i, j | 0 <= i < j < last ensures MayFollow(front[i], front[j]) {
        assert MayFollow(sent[i], sent[j]);
      }
      ToldOncePerSender(front, n);
      forall i | 0 <= i < last ensures IsPaneClosed(e, n) ==> front[i] != e {
        assert MayFollow(sent[i], sent[last]);
      }
      assert forall m :: m in sent <==> m in front || m == e;
    }
  }

  /**
   Of each attachment, a peer is told pane_closed at most twice, and twice
   exactly if both a session listing and the claimant of its exit have sent it.
   */
  lemma ToldClosedAtMostTwice(states: seq<State>, actions: seq<Action>, i: nat, n: nat)
    requires IsRun(states, actions) && i < |states|
    ensures TimesToldClosed(states[i].sent, n) <= 2
    ensures TimesToldClosed(states[i].sent, n) == 2
       <==> PaneClosed(n) in states[i].sent && PaneMissing(n) in states[i].sent
  {
    RunKeepsSent(states, actions, i);
    ToldOncePerSender(states[i].sent, n);
  }

  /**
   Told twice means claimed in time: once an attachment is out of the maps with
   its exit unclaimed, handlePaneExit never announces it, before or after, and
   the peer is told at most once, by the listing.
   */
  lemma SecondNoticeNeedsClaim(states: seq<State>, actions: seq<Action>, i: nat, j: nat, n: nat)
    requires IsRun(states, actions) && i <= j < |states| && LeftUnclaimed(states[i], n)
    ensures PaneClosed(n) !in states[j].sent
    ensures TimesToldClosed(states[j].sent, n) == if PaneMissing(n) in states[j].sent then 1 else 0
  {
    StaysUnclaimed(states, actions, i, j, n);
    RunKeepsSent(states, actions, j);
    ToldOncePerSender(states[j].sent, n);
  }

  /** The attachment is out of the maps, and nobody has claimed its exit. */
  predicate LeftUnclaimed(s: State, n: nat) {
    n < |s.atts| && !s.atts[n].bridge.InMaps? && s.atts[n].exitClaims == 0
  }

  lemma {:induction false} StaysUnclaimed(states: seq<State>, actions: seq<Action>, i: nat, j: nat, n: nat)
    requires IsRun(states, actions) && i <= j < |states| && LeftUnclaimed(states[i], n)
    ensures LeftUnclaimed(states[j], n)
  {
    if i < j {
      StaysUnclaimed(states, actions, i, j - 1, n);
      RunKeepsInv(states, actions, j - 1);
      assert Follows(states, actions, j - 1);
      NextLeavesUnclaimed(states[j - 1], actions[j - 1], n);
    }
  }

  /** An exit is claimed only for the attachment in the maps. */
  lemma NextLeavesUnclaimed(s: State, a: Action, n: nat)
    requires Inv(s) && Enabled(s, a) && LeftUnclaimed(s, n)
    ensures LeftUnclaimed(Next(s, a), n)
  {
    match a
    case Move(t, c) =>
      StaysOut(s, t, c, n);
      assert AttachmentInv(s, n);
      ClaimsOnlyInMaps(s, t, c, n);
    case Disconnect(_, _) =>
    case ShutDownAgent =>
    case Displace(_) =>
    case NextConnection =>
  }

  lemma ClaimsOnlyInMaps(s: State, t: Tid, c: Choice, n: nat)
    requires t in s.threads && n < |s.atts| && s.entry.bridge != Some(n)
    ensures n < |Step(s, t, c).atts| && Step(s, t, c).atts[n].exitClaims == s.atts[n].exitClaims
  {
    var th := s.threads[t];
    match th.at
    case Detach(d) => DetachClaimsNothing(s, t, th, d, n);
    case Serve(r) => ServeClaimsNothing(s, t, th, r, c, n);
    case Own(o) => OwnClaimsNothing(s, t, th, o, c, n);
    case Exit(x) => ExitingClaims(s, t, th, x, c, n);
    case _ => RestingKeepsAttachments(s, t, c);
  }

  lemma DetachClaimsNothing(s: State, t: Tid, th: Thread, d: DetachPlace, n: nat)
    requires n < |s.atts|
    ensures DetachStep(s, t, th, d).atts[n].exitClaims == s.atts[n].exitClaims
  {
    match d
    case TakeEntry =>
    case CancelStream =>
    case CloseBridge =>
    case AwaitDone =>
  }

  lemma ServeClaimsNothing(s: State, t: Tid, th: Thread, r: ServePlace, c: Choice, n: nat)
    requires n < |s.atts|
    ensures n < |ServeStep(s, t, th, r, c).atts| && ServeStep(s, t, th, r, c).atts[n].exitClaims == s.atts[n].exitClaims
  {
    match r
    case InstallBridge =>
    case _ =>
  }

  lemma OwnClaimsNothing(s: State, t: Tid, th: Thread, o: OwnPlace, c: Choice, n: nat)
    requires n < |s.atts|
    ensures n < |OwnStep(s, t, th, o, c).atts| && OwnStep(s, t, th, o, c).atts[n].exitClaims == s.atts[n].exitClaims
  {
    if o == PreStream {
      StartIgnoresSent(s, t, th, Control(s, c, OwnEvent(th, o)).sent);
    } else if o == EndStream {
    } else if o == CloseDone {
    } else {
    }
  }

  lemma ExitingClaims(s: State, t: Tid, th: Thread, x: ExitPlace, c: Choice, n: nat)
    requires n < |s.atts| && s.entry.bridge != Some(n)
    ensures ExitingStep(s, t, th, x, c).atts[n].exitClaims == s.atts[n].exitClaims
  {
    match x
    case TryExit =>
    case SendPaneClosed =>
    case SendExitSessions =>
  }

  // ---------------------------------------------------- resets during a detach

  /**
   From the moment a detach waits for a stream, no stream_reset of that stream
   is sent any more, unless it had already passed its check for one.
   */
  lemma AwaitedStreamSendsNoReset(states: seq<State>, actions: seq<Action>, i: nat, j: nat, u: Tid, n: nat)
    requires IsRun(states, actions) && i <= j < |states|
    requires u in states[i].threads && states[i].threads[u].waitOn == Some(n)
    requires !PastItsCheck(states[i], n)
    ensures states[i].sent <= states[j].sent
    ensures forall k :: |states[i].sent| <= k < |states[j].sent| ==> states[j].sent[k] != Reset(n)
  {
    RunKeepsInv(states, actions, i);
    AwaitedIsSilenced(states[i], u);
    SilenceLasts(states, actions, i, j, n);
  }

  /** A stream that is past its check does go on to send it, whoever waits for it. */
  lemma PastItsCheckResets(states: seq<State>, actions: seq<Action>, i: nat, n: nat)
    requires IsRun(states, actions) && i < |states| && PastItsCheck(states[i], n)
    ensures var a := Move(states[i].atts[n].life.owner, Works);
            Enabled(states[i], a) && Next(states[i], a).sent == states[i].sent + [Reset(n)]
  {
    RunKeepsInv(states, actions, i);
    assert AttachmentInv(states[i], n);
  }

  // ------------------------------------------------------------- conservation

  /** A bridge is either the peer's current one, or in the hands of one detach, or closed. */
  ghost predicate BridgeAccounted(s: State, n: nat)
    requires n < |s.atts|
  {
    match s.atts[n].bridge
    case InMaps => s.entry.bridge == Some(n) && s.entry.cancel == Some(n) && s.entry.pane.Some?
    case Held(h) => h in s.threads && s.threads[h].held == Some(n) && CanMove(s, h)
    case Closed => s.entry.bridge != Some(n)
  }

  /**
   No bridge is overwritten, leaked or closed twice, no done channel is closed
   twice, an open one has an owner, a superseded mark names the live stream,
   and an exit is claimed at most once.
   */
  lemma NothingLeaks(states: seq<State>, actions: seq<Action>, i: nat, n: nat)
    requires IsRun(states, actions) && i < |states| && n < |states[i].atts|
    ensures var s, a := states[i], states[i].atts[n];
            && BridgeAccounted(s, n)
            && a.bridgeCloses == (if a.bridge.Closed? then 1 else 0)
            && a.doneCloses == (if a.life.Over? then 1 else 0)
            && (a.life.Over? || (a.life.owner in s.threads && s.threads[a.life.owner].mine == Some(n)))
            && (n in s.entry.superseded ==> a.life.Live? && s.entry.done == Some(n))
            && a.exitClaims <= 1
  {
    RunKeepsInv(states, actions, i);
    var s := states[i];
    assert AttachmentInv(s, n);
    if s.atts[n].bridge.Held? { assert ThreadInv(s, s.atts[n].bridge.holder); }
  }

  /** A new attachment is installed over nothing: no bridge or stream is there to be lost. */
  lemma InstallsOverNothing(states: seq<State>, actions: seq<Action>, i: nat, t: Tid)
    requires IsRun(states, actions) && i < |states|
    requires t in states[i].threads && states[i].threads[t].at == Serve(InstallBridge)
    ensures var e := states[i].entry;
            e.bridge.None? && e.cancel.None? && e.pane.None? && e.done.None? && e.superseded == {} && !e.exitNotified
  {
    RunKeepsInv(states, actions, i);
    assert ThreadInv(states[i], t);
  }
}
