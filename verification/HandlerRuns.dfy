/** Runs that show where the handler's promises end. */
module HandlerRuns {
  import opened Common
  import opened HandlerEntries
  import opened HandlerSteps
  import opened HandlerSilence
  import opened HandlerTheorems
  import HandlerResets
  import HandlerPaths

  ghost predicate Reachable(s: State) {
    exists states, actions :: IsRun(states, actions) && s == states[|actions|]
  }

  lemma Reach(s: State, a: Action)
    requires Reachable(s) && Enabled(s, a)
    ensures Reachable(Next(s, a))
  {
    var states, actions :| IsRun(states, actions) && s == states[|actions|];
    var states', actions' := states + [Next(s, a)], actions + [a];
    forall i: nat | i < |actions'| ensures Follows(states', actions', i) {
      if i < |actions| { assert Follows(states, actions, i); }
    }
    assert IsRun(states', actions');
  }

  /** One move of a thread. */
  lemma Moves(s: State, t: Tid, c: Choice) returns (s': State)
    requires Reachable(s) && t in s.threads && CanMove(s, t)
    ensures s' == Step(s, t, c) && Reachable(s')
  {
    Reach(s, Move(t, c));
    s' := Step(s, t, c);
  }

  // ------------------------------------------------- a first attachment streams

  const OPENING := RESTING.(at := Serve(OpenBridge), pane := "%1", wait := true, cont := ToOpen)

  lemma FirstOpens() returns (s: State)
    ensures Reachable(s)
    ensures s == INITIAL.(threads := map[Dispatcher := OPENING])
  {
    assert IsRun([INITIAL], []);
    s := Moves(INITIAL, Dispatcher, Requested(AttachTo("%1")));
    s := Moves(s, Dispatcher, Works);
    s := Moves(s, Dispatcher, Works);
    s := Moves(s, Dispatcher, Works);
    s := Moves(s, Dispatcher, Works);
    assert s.threads == map[Dispatcher := OPENING];
  }

  /** The first attachment streams and is watched, and the dispatcher is idle. */
  ghost predicate StreamsFirst(s: State) {
    && Dispatcher in s.threads && Stream(0) in s.threads && Watcher(0) in s.threads
    && s.threads[Dispatcher] == OPENING.(at := Idle)
    && s.threads[Stream(0)] == RESTING.(at := Own(StreamLoop), mine := Some(0))
    && s.threads[Watcher(0)] == RESTING.(at := Watching)
    && s.entry == Entry(Some(0), Some(0), Some("%1"), Some(0), {}, false, false)
    && s.atts == [Attachment(InMaps, 0, false, false, Live(Stream(0)), 0, 0, None)]
    && s.sent == [Attached(0)] && !s.link.stopped
  }

  lemma FirstStreams() returns (s: State)
    ensures Reachable(s) && StreamsFirst(s)
  {
    s := FirstOpens();
    s := Moves(s, Dispatcher, Works);
    s := Moves(s, Dispatcher, Works);
    s := Moves(s, Dispatcher, Works);
    s := Moves(s, Dispatcher, Skips);
  }

  /** Reading from an open bridge can block, until somebody closes it. */
  lemma ReadsCanBlock()
    ensures exists s :: Reachable(s) && Stream(0) in s.threads && CanMove(s, Stream(0)) && !Unblocked(s, Stream(0))
  {
    var s := FirstStreams();
    s := Moves(s, Stream(0), Works);
    assert !Unblocked(s, Stream(0));
  }

  // ------------------------------------------------------- an attached event lost

  /** The error from sending attached is ignored, so output can reach a peer that was never told of the attachment. */
  lemma OutputCanComeUnannounced()
    ensures exists s :: Reachable(s) && Output(0) in s.sent && Attached(0) !in s.sent
  {
    var s := FirstOpens();
    s := Moves(s, Dispatcher, Works);
    s := Moves(s, Dispatcher, Works);
    s := Moves(s, Dispatcher, Fails);
    s := Moves(s, Dispatcher, Works);
    assert s.sent == [Output(0)];
  }

  // ------------------------------------------- a failure cut short by the shutdown

  lemma FirstReads() returns (s: State)
    ensures Reachable(s) && Stream(0) in s.threads
    ensures s.threads[Stream(0)] == RESTING.(at := Own(StreamGot), mine := Some(0))
    ensures |s.atts| == 1 && !s.atts[0].cancelled && s.entry.superseded == {} && s.sent == [Attached(0)]
  {
    s := FirstStreams();
    s := Moves(s, Stream(0), Works);
    s := Moves(s, Stream(0), Works);
  }

  lemma FirstFails() returns (s: State)
    ensures Reachable(s) && HandlerResets.HasFailed(s, Stream(0), 0) && !s.IsCancelled(Some(0)) && |s.atts| == 1
    ensures s.threads[Stream(0)].at == Own(StreamFailed)
    ensures s.entry.superseded == {} && Reset(0) !in s.sent
  {
    s := FirstReads();
    s := Moves(s, Stream(0), Works);
    s := Moves(s, Stream(0), Fails);
  }

  /** A failed stream that finds itself cancelled ends at once. */
  lemma CancelledFailureEnds(s: State) returns (s': State)
    requires Stream(0) in s.threads && s.threads[Stream(0)].at == Own(StreamFailed)
    requires s.threads[Stream(0)].mine == Some(0) && s.IsCancelled(Some(0)) && s.entry.superseded == {}
    ensures HandlerPaths.Leads(s, HandlerPaths.Moves(Stream(0), HandlerPaths.Well(2)), s')
    ensures Stream(0) in s'.threads && s'.threads[Stream(0)].at == Own(CloseDone)
    ensures s'.sent == s.sent && s'.entry.superseded == {}
  {
    var s1 := s.Set(Stream(0), s.threads[Stream(0)].(at := Own(EndStream)));
    s' := Step(s1, Stream(0), Works);
    assert HandlerPaths.GoesTo(s, Stream(0), s1);
    HandlerPaths.Twice(s, Stream(0), s1, s');
  }

  lemma ShutdownEnds(s: State) returns (s': State)
    requires Stream(0) in s.threads && s.threads[Stream(0)].at == Own(StreamFailed)
    requires s.threads[Stream(0)].mine == Some(0) && |s.atts| == 1 && s.entry.superseded == {}
    ensures HandlerPaths.Leads(s, [ShutDownAgent] + HandlerPaths.Moves(Stream(0), HandlerPaths.Well(2)), s')
    ensures Stream(0) in s'.threads && s'.threads[Stream(0)].at == Own(CloseDone)
    ensures s'.sent == s.sent && s'.entry.superseded == {}
  {
    s' := CancelledFailureEnds(Next(s, ShutDownAgent));
    var rest := HandlerPaths.Moves(Stream(0), HandlerPaths.Well(2));
    assert ([ShutDownAgent] + rest)[1..] == rest;
  }

  /** A stream whose send has failed ends without its reset when the agent shuts down before it goes on. */
  lemma ShutdownCutsFailureShort()
    ensures exists s, s' ::
              && Reachable(s) && HandlerResets.HasFailed(s, Stream(0), 0) && !s.IsCancelled(Some(0))
              && HandlerPaths.Leads(s, [ShutDownAgent] + HandlerPaths.Moves(Stream(0), HandlerPaths.Well(2)), s')
              && Stream(0) in s'.threads && s'.threads[Stream(0)].at == Own(CloseDone)
              && s'.sent == s.sent && s'.entry.superseded == {} && Reset(0) !in s'.sent
  {
    var s := FirstFails();
    var s' := ShutdownEnds(s);
  }

  // -------------------------------------------------------- told twice of an exit

  /**
   The listing and the watcher can both announce that a pane is closed: the
   watcher claims the exit between the listing's message and its detach.
   */
  lemma ExitCanBeToldTwice()
    ensures exists s :: Reachable(s) && TimesToldClosed(s.sent, 0) == 2
  {
    var s := FirstStreams();
    s := Moves(s, Dispatcher, Requested(ListNow));
    s := Moves(s, Dispatcher, Fails);
    s := Moves(s, Dispatcher, Works);
    assert s.sent == [Attached(0), PaneMissing(0)];
    s := WatcherAnnounces(s);
    assert PaneMissing(0) in s.sent && PaneClosed(0) in s.sent;
    var states, actions :| IsRun(states, actions) && s == states[|actions|];
    ToldClosedAtMostTwice(states, actions, |actions|, 0);
  }

  lemma WatcherAnnounces(s: State) returns (s': State)
    requires Reachable(s) && Watcher(0) in s.threads && s.threads[Watcher(0)] == RESTING.(at := Watching)
    requires MayClaimExit(s.entry) && s.entry.bridge == Some(0)
    ensures Reachable(s') && s'.sent == s.sent + [PaneClosed(0)]
  {
    s' := Moves(s, Watcher(0), Fails);
    s' := Moves(s', Watcher(0), Works);
    s' := Moves(s', Watcher(0), Works);
  }

  // ------------------------------------------------------ a reset during a detach

  const RESETTING := RESTING.(mine := Some(0), cont := ToReset)

  /** The first stream, displaced, has taken itself out of the maps and stands at a place behind that. */
  ghost predicate DetachesFirst(s: State, th: Thread) {
    && Dispatcher in s.threads && Stream(0) in s.threads
    && s.threads[Dispatcher] == OPENING.(at := Idle)
    && s.threads[Stream(0)] == th
    && s.entry == Entry(None, None, None, Some(0), {}, false, false)
    && |s.atts| == 1 && s.atts[0].life == Live(Stream(0)) && !s.link.stopped
  }

  lemma FirstIsDisplaced() returns (s: State)
    ensures Reachable(s)
    ensures s.entry == Entry(Some(0), Some(0), Some("%1"), Some(0), {}, false, false) && !s.link.stopped
    ensures Dispatcher in s.threads && s.threads[Dispatcher] == OPENING.(at := Idle)
    ensures Stream(0) in s.threads && s.threads[Stream(0)] == RESTING.(at := Own(StreamRead), mine := Some(0))
    ensures s.atts == [Attachment(InMaps, 0, true, false, Live(Stream(0)), 0, 0, None)]
  {
    s := FirstStreams();
    s := Moves(s, Stream(0), Works);
    Reach(s, Displace(0));
    s := Next(s, Displace(0));
  }

  lemma FirstTakesItselfOut() returns (s: State)
    ensures Reachable(s)
    ensures DetachesFirst(s, RESETTING.(at := Detach(CancelStream), held := Some(0), cancel := Some(0)))
  {
    s := FirstIsDisplaced();
    s := Moves(s, Stream(0), Fails);
    s := Moves(s, Stream(0), Works);
  }

  lemma FirstCloses() returns (s: State)
    ensures Reachable(s) && DetachesFirst(s, RESETTING.(at := Detach(AwaitDone)))
  {
    s := FirstTakesItselfOut();
    s := Moves(s, Stream(0), Works);
    s := Moves(s, Stream(0), Works);
  }

  lemma FirstPassesCheck() returns (s: State)
    ensures Reachable(s) && DetachesFirst(s, RESETTING.(at := Own(SendReset)))
  {
    s := FirstCloses();
    s := Moves(s, Stream(0), Works);
    s := Moves(s, Stream(0), Works);
  }

  /** A detach can wait for a stream that is past its check, and that then still sends its stream_reset. */
  lemma ResetCanComeDuringWait()
    ensures exists s, u :: Reachable(s) && PastItsCheck(s, 0) && u in s.threads && s.threads[u].waitOn == Some(0)
  {
    var s := FirstPassesCheck();
    s := Moves(s, Dispatcher, Requested(DetachNow));
    var waiting := Moves(s, Dispatcher, Works);
    assert waiting.threads[Dispatcher].waitOn == Some(0);
  }
}
