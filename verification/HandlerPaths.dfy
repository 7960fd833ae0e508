/** What each of the handler's calls, streams and watchers does when nothing stands in its way. */
module HandlerPaths {
  import opened Common
  import opened HandlerEntries
  import opened HandlerSteps
  import opened HandlerInvariant

  // ------------------------------------------------------------------ sequences

  /** These actions, one after the other, lead from one state to the other. */
  ghost predicate Leads(s: State, actions: seq<Action>, s': State)
    decreases |actions|
  {
    if actions == [] then s == s' else Enabled(s, actions[0]) && Leads(Next(s, actions[0]), actions[1..], s')
  }

  /** A thread's moves, with what comes of each. */
  function Moves(t: Tid, cs: seq<Choice>): seq<Action> {
    if cs == [] then [] else [Move(t, cs[0])] + Moves(t, cs[1..])
  }

  /** Moves that all work. */
  function Well(n: nat): seq<Choice> {
    if n == 0 then [] else [Works] + Well(n - 1)
  }

  lemma First(s: State, t: Tid, c: Choice, cs: seq<Choice>, s': State)
    requires t in s.threads && CanMove(s, t) && Leads(Step(s, t, c), Moves(t, cs), s')
    ensures Leads(s, Moves(t, [c] + cs), s')
  {
    assert ([c] + cs)[1..] == cs;
    assert Moves(t, [c] + cs)[1..] == Moves(t, cs);
  }

  lemma WorksFirst(s: State, t: Tid, n: nat, s': State)
    requires n > 0 && t in s.threads && CanMove(s, t) && Leads(Step(s, t, Works), Moves(t, Well(n - 1)), s')
    ensures Leads(s, Moves(t, Well(n)), s')
  {
    First(s, t, Works, Well(n - 1), s');
  }

  lemma {:induction false} Onwards(s: State, a: seq<Action>, s': State, b: seq<Action>, s'': State)
    requires Leads(s, a, s') && Leads(s', b, s'')
    ensures Leads(s, a + b, s'')
    decreases |a|
  {
    if a == [] {
      NothingInFront(b);
    } else {
      Onwards(Next(s, a[0]), a[1..], s', b, s'');
      assert (a + b)[1..] == a[1..] + b;
    }
  }

  lemma {:induction false} MovesJoin(t: Tid, a: seq<Choice>, b: seq<Choice>)
    ensures Moves(t, a) + Moves(t, b) == Moves(t, a + b)
    decreases |a|
  {
    if a == [] {
      NothingInFront(b);
      NothingInFront(Moves(t, b));
    } else {
      MovesJoin(t, a[1..], b);
      assert (a + b)[1..] == a[1..] + b;
      Regroup([Move(t, a[0])], Moves(t, a[1..]), Moves(t, b));
    }
  }

  lemma Then(s: State, t: Tid, a: seq<Choice>, s': State, b: seq<Choice>, s'': State)
    requires Leads(s, Moves(t, a), s') && Leads(s', Moves(t, b), s'')
    ensures Leads(s, Moves(t, a + b), s'')
  {
    Onwards(s, Moves(t, a), s', Moves(t, b), s'');
    MovesJoin(t, a, b);
  }

  /** The thread's next operation, if it works, leads there. */
  predicate GoesTo(s: State, t: Tid, s': State) {
    t in s.threads && CanMove(s, t) && Step(s, t, Works) == s'
  }

  lemma Twice(s: State, t: Tid, s1: State, s2: State)
    requires GoesTo(s, t, s1) && GoesTo(s1, t, s2)
    ensures Leads(s, Moves(t, Well(2)), s2)
  {
    WorksFirst(s1, t, 1, s2);
    WorksFirst(s, t, 2, s2);
  }

  lemma Thrice(s: State, t: Tid, s1: State, s2: State, s3: State)
    requires GoesTo(s, t, s1) && GoesTo(s1, t, s2) && GoesTo(s2, t, s3)
    ensures Leads(s, Moves(t, Well(3)), s3)
  {
    Twice(s1, t, s2, s3);
    WorksFirst(s, t, 3, s3);
  }

  lemma SetTwice(s: State, t: Tid, a: Thread, b: Thread)
    ensures s.Set(t, a).Set(t, b) == s.Set(t, b)
  {
    assert s.threads[t := a][t := b] == s.threads[t := b];
  }

  // -------------------------------------------------------------------- a detach

  /** The attachment that a detach took out, once it is cancelled and its bridge closed. */
  function ClosedAtt(a: Attachment): Attachment {
    a.(bridge := Closed, cancelled := true, bridgeCloses := a.bridgeCloses + 1)
  }

  /** The state in which a thread's detach comes to its wait. */
  function Detached(s: State, t: Tid, th: Thread): State {
    s.(entry := HandlerEntries.Detach(s.entry, th.wait))
     .Set(t, th.(at := Detach(AwaitDone), held := None, cancel := None,
                 waitOn := if th.wait then s.entry.done else None))
     .With(s.entry.bridge, ClosedAtt(s.Att(s.entry.bridge)))
  }

  /** No attachment is left in the maps, and the stream that a wait is for is marked. */
  lemma DetachedIsOut(s: State, t: Tid, th: Thread)
    requires EntryInv(s)
    ensures var e, e' := s.entry, Detached(s, t, th).entry;
            && e' == NO_ENTRY.(done := e.done, pinged := e.pinged, superseded := e'.superseded)
            && e'.superseded == (if th.wait && e.done.Some? then e.superseded + {e.done.value} else e.superseded)
  {
  }

  lemma SetWithAgain(s: State, t: Tid, a: Thread, b: Thread, n: Option<nat>, x: Attachment, y: Attachment)
    ensures s.Set(t, a).With(n, x).Set(t, b).With(n, y) == s.Set(t, b).With(n, y)
    ensures n.Some? && n.value < |s.atts| ==> s.Set(t, a).With(n, x).Att(n) == x
  {
    SetTwice(s, t, a, b);
    if n.Some? && n.value < |s.atts| { assert s.atts[n.value := x][n.value := y] == s.atts[n.value := y]; }
  }

  /** The detach behind its first operation, and behind its second. */
  function Taken(s: State, t: Tid, th: Thread, held: Attachment, cancel: Option<nat>, at: DetachPlace): State {
    s.(entry := HandlerEntries.Detach(s.entry, th.wait))
     .Set(t, th.(at := Detach(at), held := s.entry.bridge, cancel := cancel,
                 waitOn := if th.wait then s.entry.done else None))
     .With(s.entry.bridge, held)
  }

  lemma Takes(s: State, t: Tid)
    requires t in s.threads && s.threads[t].at == Detach(TakeEntry)
    ensures var held := s.Att(s.entry.bridge).(bridge := Held(t));
            GoesTo(s, t, Taken(s, t, s.threads[t], held, s.entry.cancel, CancelStream))
  {
  }

  lemma Cancels(s: State, t: Tid, th: Thread, held: Attachment)
    requires s.entry.bridge == s.entry.cancel && (s.entry.bridge.Some? ==> s.entry.bridge.value < |s.atts|)
    ensures GoesTo(Taken(s, t, th, held, s.entry.cancel, CancelStream), t,
                   Taken(s, t, th, held.(cancelled := true), None, CloseBridge))
  {
    var s0 := s.(entry := HandlerEntries.Detach(s.entry, th.wait));
    SetWithAgain(s0, t, Taken(s, t, th, held, s.entry.cancel, CancelStream).threads[t],
      Taken(s, t, th, held, None, CloseBridge).threads[t], s.entry.bridge, held, held.(cancelled := true));
  }

  lemma Closes(s: State, t: Tid, th: Thread, held: Attachment)
    requires s.entry.bridge.Some? ==> s.entry.bridge.value < |s.atts|
    requires ClosedAtt(s.Att(s.entry.bridge)) == held.(bridge := Closed, bridgeCloses := held.bridgeCloses + 1)
    ensures GoesTo(Taken(s, t, th, held, None, CloseBridge), t, Detached(s, t, th))
  {
    var s0 := s.(entry := HandlerEntries.Detach(s.entry, th.wait));
    SetWithAgain(s0, t, Taken(s, t, th, held, None, CloseBridge).threads[t],
      Detached(s, t, th).threads[t], s.entry.bridge, held, ClosedAtt(s.Att(s.entry.bridge)));
  }

  /** A detach takes the attachment out, cancels its stream and closes its bridge, in three operations. */
  lemma DetachTakesOut(s: State, t: Tid)
    requires t in s.threads && s.threads[t].at == Detach(TakeEntry)
    requires s.entry.bridge == s.entry.cancel && (s.entry.bridge.Some? ==> s.entry.bridge.value < |s.atts|)
    ensures Leads(s, Moves(t, Well(3)), Detached(s, t, s.threads[t]))
  {
    var th, held := s.threads[t], s.Att(s.entry.bridge).(bridge := Held(t));
    Takes(s, t);
    Cancels(s, t, th, held);
    Closes(s, t, th, held.(cancelled := true));
    Thrice(s, t, Taken(s, t, th, held, s.entry.cancel, CancelStream),
      Taken(s, t, th, held.(cancelled := true), None, CloseBridge), Detached(s, t, th));
  }

  // -------------------------------------------------------------- a stream's turn

  /** The places of a stream's loop in front of its send. */
  function PlaceAfter(o: OwnPlace): OwnPlace {
    match o
    case StreamLoop => StreamRead
    case StreamRead => StreamGot
    case _ => StreamSend
  }

  lemma StreamGoesOn(s: State, t: Tid, th: Thread, o: OwnPlace, n: nat)
    requires th.at == Own(o) && o in {StreamLoop, StreamRead, StreamGot}
    requires th.mine == Some(n) && !s.IsCancelled(Some(n))
    ensures var s1 := s.Set(t, th);
            GoesTo(s1, t, s.Set(t, th.(at := Own(PlaceAfter(o)))))
  {
    SetTwice(s, t, th, th.(at := Own(PlaceAfter(o))));
  }

  lemma StreamSends(s: State, t: Tid, th: Thread, n: nat)
    requires th.at == Own(StreamSend) && th.mine == Some(n)
    ensures var s1 := s.Set(t, th);
            GoesTo(s1, t, s.Sent(Output(n)).Set(t, th.(at := Own(StreamLoop))))
  {
    SetTwice(s, t, th, th.(at := Own(StreamLoop)));
  }

  /** A stream that is not cancelled reads, and what it read goes out: it is back at the top of its loop. */
  lemma StreamSendsOutput(s: State, t: Tid, n: nat)
    requires t in s.threads && s.threads[t].at == Own(StreamLoop) && s.threads[t].mine == Some(n)
    requires !s.IsCancelled(Some(n))
    ensures Leads(s, Moves(t, Well(4)), s.Sent(Output(n)))
  {
    var th := s.threads[t];
    var th1, th2, th3 := th.(at := Own(StreamRead)), th.(at := Own(StreamGot)), th.(at := Own(StreamSend));
    assert s.Set(t, th) == s && s.Sent(Output(n)).Set(t, th) == s.Sent(Output(n)) by {
      assert s.threads[t := th] == s.threads;
    }
    StreamGoesOn(s, t, th, StreamLoop, n);
    StreamGoesOn(s, t, th1, StreamRead, n);
    StreamGoesOn(s, t, th2, StreamGot, n);
    StreamSends(s, t, th3, n);
    Thrice(s.Set(t, th1), t, s.Set(t, th2), s.Set(t, th3), s.Sent(Output(n)));
    WorksFirst(s, t, 4, s.Sent(Output(n)));
  }

  // -------------------------------------------------------------- a pane's exit

  /** The exit of attachment n has been told, with a listing behind it, and the detach is next. */
  predicate HasAnnounced(s: State, s': State, t: Tid, n: nat) {
    && t in s.threads && n < |s.atts|
    && s'.sent == s.sent + [PaneClosed(n), Notice]
    && s'.entry == s.entry.(exitNotified := true)
    && s'.threads == s.threads[t := s.threads[t].(at := Detach(TakeEntry), exited := None)]
    && s'.atts == s.atts[n := s.atts[n].(exitClaims := s.atts[n].exitClaims + 1, claimant := Some(t))]
    && s'.link == s.link && s'.agentDown == s.agentDown
  }

  /** The claim, the message and the listing, one operation each. */
  function Claimed(s: State, t: Tid, th: Thread, n: nat): State {
    s.(entry := s.entry.(exitNotified := true)).Set(t, th.(at := Exit(SendPaneClosed), exited := Some(n)))
     .With(Some(n), s.Att(Some(n)).(exitClaims := s.Att(Some(n)).exitClaims + 1, claimant := Some(t)))
  }

  lemma Claims(s: State, t: Tid, n: nat)
    requires t in s.threads && s.threads[t].at == Exit(TryExit)
    requires n < |s.atts| && s.entry.bridge == Some(n) && MayClaimExit(s.entry)
    ensures GoesTo(s, t, Claimed(s, t, s.threads[t], n))
  {
  }

  lemma Announces(s: State, t: Tid, n: nat)
    requires t in s.threads && s.threads[t].at == Exit(SendPaneClosed) && s.threads[t].exited == Some(n)
    ensures var th := s.threads[t];
            var s1 := s.Sent(PaneClosed(n)).Set(t, th.(at := Exit(SendExitSessions), exited := None));
            && GoesTo(s, t, s1)
            && GoesTo(s1, t, s1.Sent(Notice).Set(t, th.(at := Detach(TakeEntry), exited := None)))
  {
  }

  lemma ExitIsAnnounced(s: State, t: Tid, n: nat) returns (s': State)
    requires t in s.threads && s.threads[t].at == Exit(TryExit)
    requires n < |s.atts| && s.entry.bridge == Some(n) && MayClaimExit(s.entry)
    ensures Leads(s, Moves(t, Well(3)), s') && HasAnnounced(s, s', t, n)
  {
    var th := s.threads[t];
    var s1 := Claimed(s, t, th, n);
    var s2 := s1.Sent(PaneClosed(n)).Set(t, th.(at := Exit(SendExitSessions), exited := None));
    s' := s2.Sent(Notice).Set(t, th.(at := Detach(TakeEntry), exited := None));
    Claims(s, t, n);
    Announces(s1, t, n);
    Thrice(s, t, s1, s2, s');
    Regroup(s.sent, [PaneClosed(n)], [Notice]);
    assert [PaneClosed(n)] + [Notice] == [PaneClosed(n), Notice];
    assert s'.threads == s.threads[t := s'.threads[t]];
  }

  // ------------------------------------------------------------ a stream's end

  /** The attachment is out of every map, its bridge and its done channel are closed. */
  predicate IsEnded(s: State, n: nat) {
    && n < |s.atts| && s.atts[n].bridge.Closed? && s.atts[n].life.Over?
    && s.entry.bridge.None? && s.entry.cancel.None? && s.entry.pane.None? && s.entry.done.None?
    && n !in s.entry.superseded && !s.entry.exitNotified
  }

  /** The state in which a stream that ends has closed its done channel. */
  function Ended(s: State, t: Tid, th: Thread, n: nat): State {
    s.(entry := End(s.entry, n))
     .Set(t, th.(at := if t == Dispatcher then Idle else Finished, mine := None))
     .With(Some(n), s.Att(Some(n)).(life := Over, doneCloses := s.Att(Some(n)).doneCloses + 1))
  }

  function EndingNow(s: State, t: Tid, th: Thread, n: nat): State {
    s.(entry := End(s.entry, n)).Set(t, th.(at := Own(CloseDone)))
     .With(Some(n), s.Att(Some(n)).(life := Ending(t)))
  }

  lemma ClosesDone(s: State, t: Tid, th: Thread, n: nat)
    requires th.mine == Some(n) && n < |s.atts|
    ensures GoesTo(EndingNow(s, t, th, n), t, Ended(s, t, th, n))
  {
    var a := s.Att(Some(n));
    SetWithAgain(s.(entry := End(s.entry, n)), t, th.(at := Own(CloseDone)), Ended(s, t, th, n).threads[t],
      Some(n), a.(life := Ending(t)), a.(life := Over, doneCloses := a.doneCloses + 1));
  }

  lemma StreamEnds(s: State, t: Tid, n: nat)
    requires t in s.threads && s.threads[t].at == Own(EndStream) && s.threads[t].mine == Some(n) && n < |s.atts|
    ensures Leads(s, Moves(t, Well(2)), Ended(s, t, s.threads[t], n))
  {
    assert GoesTo(s, t, EndingNow(s, t, s.threads[t], n));
    ClosesDone(s, t, s.threads[t], n);
    Twice(s, t, EndingNow(s, t, s.threads[t], n), Ended(s, t, s.threads[t], n));
  }

  /** Where a thread that detached its own attachment goes on, without having waited. */
  function Freed(s: State, t: Tid, th: Thread): State {
    Detached(s, t, th).Set(t, th.(at := PlaceBehind(th.cont), held := None, cancel := None, waitOn := None))
  }

  lemma GoesOnBehind(s: State, t: Tid, th: Thread)
    requires !th.wait && (th.cont == ToReset || th.cont == ToEnd)
    ensures CanMove(Detached(s, t, th), t) && Step(Detached(s, t, th), t, Works) == Freed(s, t, th)
  {
  }

  lemma DetachesItself(s: State, t: Tid)
    requires t in s.threads && s.threads[t].at == Detach(TakeEntry) && !s.threads[t].wait
    requires s.threads[t].cont == ToReset || s.threads[t].cont == ToEnd
    requires s.entry.bridge == s.entry.cancel && (s.entry.bridge.Some? ==> s.entry.bridge.value < |s.atts|)
    ensures Leads(s, Moves(t, Well(4)), Freed(s, t, s.threads[t]))
  {
    var s1, s2 := Detached(s, t, s.threads[t]), Freed(s, t, s.threads[t]);
    DetachTakesOut(s, t);
    GoesOnBehind(s, t, s.threads[t]);
    WorksFirst(s1, t, 1, s2);
    Then(s, t, Well(3), s1, Well(1), s2);
    WellJoins(3, 1);
  }

  lemma {:induction false} WellJoins(m: nat, n: nat)
    ensures Well(m) + Well(n) == Well(m + n)
  {
    if m == 0 {
      NothingInFront(Well(n));
    } else {
      WellJoins(m - 1, n);
      Regroup([Works], Well(m - 1), Well(n));
    }
  }

  /** What is left once a thread has detached its own attachment and ended its stream. */
  lemma FreedAndEnded(s: State, t: Tid, th: Thread, n: nat, th1: Thread)
    requires EntryInv(s) && s.entry.bridge == Some(n) && s.entry.done == Some(n) && n < |s.atts| && !th.wait
    ensures IsEnded(Ended(Freed(s, t, th), t, th1, n), n)
  {
    DetachedIsOut(s, t, th);
  }

  /** The thread streams attachment n, which nobody has cancelled, displaced, detached or announced. */
  predicate IsStreaming(s: State, t: Tid, n: nat) {
    && t in s.threads && s.threads[t].at.Own? && s.threads[t].mine == Some(n)
    && !s.IsCancelled(Some(n)) && !IsDisplaced(s, Some(n))
    && s.entry.bridge == Some(n) && !s.entry.exitNotified && n !in s.entry.superseded
  }

  lemma StreamingIsLive(s: State, t: Tid, n: nat)
    requires Inv(s) && IsStreaming(s, t, n) && s.threads[t].at != Own(CloseDone)
    ensures n < |s.atts| && s.entry.cancel == Some(n) && s.entry.done == Some(n) && s.entry.pane.Some?
  {
    assert ThreadInv(s, t);
    assert AttachmentInv(s, n);
  }

  /** From its own detach on, a thread that owes nothing more comes to its end. */
  lemma DetachesAndEnds(s: State, t: Tid, n: nat) returns (s': State)
    requires EntryInv(s) && t in s.threads && s.threads[t].at == Detach(TakeEntry) && s.threads[t].cont == ToEnd
    requires !s.threads[t].wait && s.threads[t].mine == Some(n)
    requires s.entry.bridge == Some(n) && s.entry.done == Some(n) && n < |s.atts|
    ensures Leads(s, Moves(t, Well(6)), s') && s'.sent == s.sent && IsEnded(s', n)
  {
    var th := s.threads[t];
    var s1 := Freed(s, t, th);
    DetachesItself(s, t);
    FreedEnds(s, t, th, n);
    s' := Ended(s1, t, s1.threads[t], n);
    FreedAndEnded(s, t, th, n, s1.threads[t]);
    Then(s, t, Well(4), s1, Well(2), s');
    WellJoins(4, 2);
  }

  lemma FreedEnds(s: State, t: Tid, th: Thread, n: nat)
    requires th.cont == ToEnd && th.mine == Some(n) && n < |s.atts|
    ensures var s1 := Freed(s, t, th);
            && Leads(s1, Moves(t, Well(2)), Ended(s1, t, s1.threads[t], n))
            && Ended(s1, t, s1.threads[t], n).sent == s.sent
  {
    StreamEnds(Freed(s, t, th), t, n);
  }

  /**
   When the bridge of a stream ends because its pane exited, the stream tells
   the peer, with a listing behind it, takes the attachment out and ends.
   */
  lemma PaneExitEndsStream(s: State, t: Tid, n: nat) returns (s': State)
    requires Inv(s) && IsStreaming(s, t, n) && s.threads[t].at == Own(StreamRead)
    ensures Leads(s, Moves(t, [Fails] + Well(9)), s')
    ensures s'.sent == s.sent + [PaneClosed(n), Notice] && IsEnded(s', n)
  {
    StreamingIsLive(s, t, n);
    ReadEnds(s, t, n);
    s' := ExitsAndEnds(s.Set(t, s.threads[t].Exiting(false, ToEnd)), t, n);
    First(s, t, Fails, Well(9), s');
  }

  lemma ReadEnds(s: State, t: Tid, n: nat)
    requires IsStreaming(s, t, n) && s.threads[t].at == Own(StreamRead)
    ensures Step(s, t, Fails) == s.Set(t, s.threads[t].Exiting(false, ToEnd))
  {
  }

  lemma ExitsAndEnds(s: State, t: Tid, n: nat) returns (s': State)
    requires EntryInv(s) && t in s.threads && s.threads[t].at == Exit(TryExit) && s.threads[t].cont == ToEnd
    requires !s.threads[t].wait && s.threads[t].mine == Some(n) && n < |s.atts|
    requires s.entry.bridge == Some(n) && s.entry.done == Some(n) && MayClaimExit(s.entry)
    ensures Leads(s, Moves(t, Well(9)), s')
    ensures s'.sent == s.sent + [PaneClosed(n), Notice] && IsEnded(s', n)
  {
    var s1 := ExitIsAnnounced(s, t, n);
    s' := DetachesAndEnds(s1, t, n);
    Then(s, t, Well(3), s1, Well(6), s');
    WellJoins(3, 6);
  }

  lemma DetachesAndResets(s: State, t: Tid, n: nat) returns (s': State)
    requires EntryInv(s) && t in s.threads && s.threads[t].at == Detach(TakeEntry) && s.threads[t].cont == ToReset
    requires !s.threads[t].wait && s.threads[t].mine == Some(n) && n !in s.entry.superseded
    requires s.entry.bridge == Some(n) && s.entry.done == Some(n) && n < |s.atts|
    ensures Leads(s, Moves(t, Well(8)), s') && s'.sent == s.sent + [Reset(n)] && IsEnded(s', n)
  {
    DetachesItself(s, t);
    s' := FreedResets(s, t, s.threads[t], n);
    Then(s, t, Well(4), Freed(s, t, s.threads[t]), Well(4), s');
    WellJoins(4, 4);
  }

  lemma FreedResets(s: State, t: Tid, th: Thread, n: nat) returns (s': State)
    requires EntryInv(s) && !th.wait && th.cont == ToReset && th.mine == Some(n) && n !in s.entry.superseded
    requires s.entry.bridge == Some(n) && s.entry.done == Some(n) && n < |s.atts|
    ensures Leads(Freed(s, t, th), Moves(t, Well(4)), s') && s'.sent == s.sent + [Reset(n)] && IsEnded(s', n)
  {
    var s1 := Freed(s, t, th);
    DetachedIsOut(s, t, th);
    s' := ResetsAndEnds(s1, t, n);
    FreedAndEnded(s, t, th, n, s1.threads[t]);
  }

  lemma FailureDetaches(s: State, t: Tid, n: nat)
    requires t in s.threads && s.threads[t].mine == Some(n) && !s.IsCancelled(Some(n))
    requires s.threads[t].at == Own(StreamFailed) || s.threads[t].at == Own(PreStreamFailed)
    ensures GoesTo(s, t, s.Set(t, s.threads[t].Detaching(false, ToReset)))
  {
  }

  /**
   A stream whose send or compression failed takes its attachment out, sends
   stream_reset and ends.
   */
  lemma FailedStreamIsReset(s: State, t: Tid, n: nat) returns (s': State)
    requires Inv(s) && IsStreaming(s, t, n)
    requires s.threads[t].at == Own(StreamFailed) || s.threads[t].at == Own(PreStreamFailed)
    ensures Leads(s, Moves(t, Well(9)), s')
    ensures s'.sent == s.sent + [Reset(n)] && IsEnded(s', n)
  {
    StreamingIsLive(s, t, n);
    s' := FailureIsReset(s, t, n);
  }

  lemma FailureIsReset(s: State, t: Tid, n: nat) returns (s': State)
    requires EntryInv(s) && s.entry.bridge == Some(n) && s.entry.done == Some(n) && n !in s.entry.superseded
    requires n < |s.atts| && !s.atts[n].cancelled && t in s.threads && s.threads[t].mine == Some(n)
    requires s.threads[t].at == Own(StreamFailed) || s.threads[t].at == Own(PreStreamFailed)
    ensures Leads(s, Moves(t, Well(9)), s')
    ensures s'.sent == s.sent + [Reset(n)] && IsEnded(s', n)
  {
    s' := DetachesAndResets(s.Set(t, s.threads[t].Detaching(false, ToReset)), t, n);
    FailureDetaches(s, t, n);
    WorksFirst(s, t, 9, s');
  }

  /** The call that ends an attach in front of its stream: a panic, or a send or compression that fails. */
  predicate FailsInFront(th: Thread, c: Choice) {
    (th.at == Own(SendAttached) && c.Panics?) || (th.at == Own(PreStream) && (c.Fails? || c.Panics?))
  }

  lemma FailsThere(s: State, c: Choice)
    requires Dispatcher in s.threads && FailsInFront(s.threads[Dispatcher], c)
    ensures Step(s, Dispatcher, c) == s.Set(Dispatcher, s.threads[Dispatcher].(at := Own(PreStreamFailed)))
  {
  }

  /** An attach that fails in front of its stream is undone as a failed stream is, and told to the peer. */
  lemma FailedAttachIsReset(s: State, c: Choice, n: nat) returns (s': State)
    requires Inv(s) && IsStreaming(s, Dispatcher, n) && FailsInFront(s.threads[Dispatcher], c)
    ensures Leads(s, Moves(Dispatcher, [c] + Well(9)), s')
    ensures s'.sent == s.sent + [Reset(n)] && IsEnded(s', n)
  {
    StreamingIsLive(s, Dispatcher, n);
    FailsThere(s, c);
    var s1 := s.Set(Dispatcher, s.threads[Dispatcher].(at := Own(PreStreamFailed)));
    s' := FailureIsReset(s1, Dispatcher, n);
    First(s, Dispatcher, c, Well(9), s');
  }

  lemma PanicDetaches(s: State, t: Tid)
    requires t in s.threads && (s.threads[t].at == Own(StreamRead) || s.threads[t].at == Own(StreamGot))
    ensures Step(s, t, Panics) == s.Set(t, s.threads[t].Detaching(false, ToEnd))
  {
  }

  /** A stream that panics takes its attachment out and ends, without a word to the peer. */
  lemma PanickedStreamEnds(s: State, t: Tid, n: nat) returns (s': State)
    requires Inv(s) && IsStreaming(s, t, n)
    requires s.threads[t].at == Own(StreamRead) || s.threads[t].at == Own(StreamGot)
    ensures Leads(s, Moves(t, [Panics] + Well(6)), s')
    ensures s'.sent == s.sent && IsEnded(s', n)
  {
    StreamingIsLive(s, t, n);
    PanicDetaches(s, t);
    s' := DetachesAndEnds(s.Set(t, s.threads[t].Detaching(false, ToEnd)), t, n);
    First(s, t, Panics, Well(6), s');
  }

  lemma ResetIsSent(s: State, t: Tid, n: nat, s': State)
    requires t in s.threads && s.threads[t].at == Own(CheckSuperseded) && s.threads[t].mine == Some(n)
    requires n !in s.entry.superseded && s' == s.Sent(Reset(n)).Set(t, s.threads[t].(at := Own(EndStream)))
    ensures Leads(s, Moves(t, Well(2)), s')
  {
    var s1 := s.Set(t, s.threads[t].(at := Own(SendReset)));
    SetTwice(s.Sent(Reset(n)), t, s1.threads[t], s'.threads[t]);
    assert Step(s, t, Works) == s1;
    assert Step(s1, t, Works) == s';
    WorksFirst(s1, t, 1, s');
    WorksFirst(s, t, 2, s');
  }

  lemma ResetsAndEnds(s: State, t: Tid, n: nat) returns (s': State)
    requires t in s.threads && s.threads[t].at == Own(CheckSuperseded) && s.threads[t].mine == Some(n)
    requires n < |s.atts| && n !in s.entry.superseded
    ensures Leads(s, Moves(t, Well(4)), s')
    ensures s' == Ended(s, t, s.threads[t], n).Sent(Reset(n))
  {
    var th := s.threads[t].(at := Own(EndStream));
    var s1 := s.Sent(Reset(n)).Set(t, th);
    ResetIsSent(s, t, n, s1);
    StreamEnds(s1, t, n);
    EndedAgain(s, t, s.threads[t], th, n);
    s' := Ended(s1, t, th, n);
    Then(s, t, Well(2), s1, Well(2), s');
    WellJoins(2, 2);
  }

  lemma EndedAgain(s: State, t: Tid, th: Thread, th1: Thread, n: nat)
    requires th1 == th.(at := th1.at)
    ensures Ended(s.Sent(Reset(n)).Set(t, th1), t, th1, n) == Ended(s, t, th, n).Sent(Reset(n))
  {
    SetTwice(s, t, th1, th.(at := if t == Dispatcher then Idle else Finished, mine := None));
  }

  // ------------------------------------------------------------------- watchers

  /** A thread stands at its wait, with attachment n out of the maps, closed, and marked for its stream. */
  predicate AwaitsEnd(s: State, t: Tid, n: nat) {
    && t in s.threads && s.threads[t].at == Detach(AwaitDone) && s.threads[t].waitOn == s.entry.done
    && n < |s.atts| && s.atts[n].bridge.Closed? && s.atts[n].cancelled
    && s.entry.bridge.None? && s.entry.pane.None? && !s.entry.exitNotified
    && (s.entry.done.Some? ==> s.entry.done.value in s.entry.superseded)
  }

  lemma DetachAwaitsEnd(s: State, t: Tid, n: nat)
    requires EntryInv(s) && t in s.threads && s.threads[t].wait && s.entry.bridge == Some(n) && n < |s.atts|
    ensures AwaitsEnd(Detached(s, t, s.threads[t]), t, n)
  {
    DetachedIsOut(s, t, s.threads[t]);
  }

  lemma DetachesOthers(s: State, t: Tid, n: nat)
    requires EntryInv(s) && t in s.threads && s.threads[t].at == Detach(TakeEntry) && s.threads[t].wait
    requires s.entry.bridge == Some(n) && n < |s.atts|
    ensures var s' := Detached(s, t, s.threads[t]);
            Leads(s, Moves(t, Well(3)), s') && s'.sent == s.sent && AwaitsEnd(s', t, n)
  {
    DetachTakesOut(s, t);
    DetachAwaitsEnd(s, t, n);
  }

  /** A watcher that sees its pane gone tells the peer, takes the attachment out and waits for its stream. */
  lemma WatcherTellsExit(s: State, t: Tid, n: nat) returns (s': State)
    requires EntryInv(s) && t in s.threads && s.threads[t].at == Watching && n < |s.atts|
    requires s.entry.bridge == Some(n) && !s.entry.exitNotified
    ensures Leads(s, Moves(t, [Fails] + Well(6)), s')
    ensures s'.sent == s.sent + [PaneClosed(n), Notice] && AwaitsEnd(s', t, n)
  {
    var s1 := s.Set(t, s.threads[t].Exiting(true, ToFinish));
    assert Step(s, t, Fails) == s1;
    var s2 := ExitIsAnnounced(s1, t, n);
    DetachesOthers(s2, t, n);
    s' := Detached(s2, t, s2.threads[t]);
    Then(s1, t, Well(3), s2, Well(3), s');
    WellJoins(3, 3);
    First(s, t, Fails, Well(6), s');
  }

  /** A watcher of an attachment that was cancelled ends. */
  lemma WatcherEnds(s: State, n: nat)
    requires Watcher(n) in s.threads && s.threads[Watcher(n)].at == Watching && s.IsCancelled(Some(n))
    ensures Step(s, Watcher(n), Works) == s.Set(Watcher(n), s.threads[Watcher(n)].(at := Finished))
  {
  }

  // -------------------------------------------------------------- handler calls

  predicate IsReady(s: State) {
    Dispatcher in s.threads && s.threads[Dispatcher].at == Idle && !s.link.stopped
  }

  /** A ping is answered and leaves a ping on record, and touches nothing else. */
  lemma PingIsRecorded(s: State)
    requires IsReady(s)
    ensures Leads(s, Moves(Dispatcher, [Requested(Ping)] + []), s.(entry := s.entry.(pinged := true)).Sent(Notice))
  {
    First(s, Dispatcher, Requested(Ping), [], s.(entry := s.entry.(pinged := true)).Sent(Notice));
  }

  /** A detach request takes out what is attached, and comes to its wait. */
  lemma DetachRequestTakesOut(s: State) returns (s': State)
    requires Inv(s) && IsReady(s)
    ensures Leads(s, Moves(Dispatcher, [Requested(DetachNow)] + Well(3)), s') && s'.sent == s.sent
    ensures Dispatcher in s'.threads
    ensures s'.threads[Dispatcher].at == Detach(AwaitDone) && s'.threads[Dispatcher].cont == ToDetached
    ensures s.entry.bridge.Some? ==> AwaitsEnd(s', Dispatcher, s.entry.bridge.value)
  {
    s' := RequestDetaches(s, DetachNow, s.threads[Dispatcher].Detaching(true, ToDetached));
  }

  /** An attach request first takes out what is attached, and comes to its wait. */
  lemma AttachRequestTakesOut(s: State, pane: PaneId) returns (s': State)
    requires Inv(s) && IsReady(s)
    ensures Leads(s, Moves(Dispatcher, [Requested(AttachTo(pane))] + Well(3)), s') && s'.sent == s.sent
    ensures Dispatcher in s'.threads
    ensures s'.threads[Dispatcher].at == Detach(AwaitDone) && s'.threads[Dispatcher].cont == ToOpen
    ensures s'.threads[Dispatcher].pane == pane
    ensures s.entry.bridge.Some? ==> AwaitsEnd(s', Dispatcher, s.entry.bridge.value)
  {
    s' := RequestDetaches(s, AttachTo(pane), s.threads[Dispatcher].(pane := pane).Detaching(true, ToOpen));
  }

  lemma RequestDetaches(s: State, r: Request, th: Thread) returns (s': State)
    requires Inv(s) && IsReady(s) && th.at == Detach(TakeEntry) && th.wait
    requires DispatchStep(s, Dispatcher, s.threads[Dispatcher], r) == s.Set(Dispatcher, th)
    ensures Leads(s, Moves(Dispatcher, [Requested(r)] + Well(3)), s') && s'.sent == s.sent
    ensures Dispatcher in s'.threads && s'.threads[Dispatcher].at == Detach(AwaitDone)
    ensures s'.threads[Dispatcher].cont == th.cont && s'.threads[Dispatcher].pane == th.pane
    ensures s.entry.bridge.Some? ==> AwaitsEnd(s', Dispatcher, s.entry.bridge.value)
  {
    var s1 := s.Set(Dispatcher, th);
    DetachTakesOut(s1, Dispatcher);
    s' := Detached(s1, Dispatcher, th);
    First(s, Dispatcher, Requested(r), Well(3), s');
    if s.entry.bridge.Some? { DetachAwaitsEnd(s1, Dispatcher, s.entry.bridge.value); }
  }

  /** Behind its wait, a detach request tells the peer, and the dispatcher is idle again. */
  lemma DetachRequestTells(s: State)
    requires Dispatcher in s.threads && CanMove(s, Dispatcher)
    requires s.threads[Dispatcher].at == Detach(AwaitDone) && s.threads[Dispatcher].cont == ToDetached
    ensures var th := s.threads[Dispatcher].(at := Idle, waitOn := None);
            Leads(s, Moves(Dispatcher, Well(2)), s.Sent(Event.Detached(|s.atts|)).Set(Dispatcher, th))
  {
    var s1 := s.Set(Dispatcher, s.threads[Dispatcher].(at := Serve(SendDetached), waitOn := None));
    var s' := s.Sent(Event.Detached(|s.atts|)).Set(Dispatcher, s.threads[Dispatcher].(at := Idle, waitOn := None));
    SetTwice(s.Sent(Event.Detached(|s.atts|)), Dispatcher, s1.threads[Dispatcher], s'.threads[Dispatcher]);
    assert Step(s, Dispatcher, Works) == s1;
    assert Step(s1, Dispatcher, Works) == s';
    WorksFirst(s1, Dispatcher, 1, s');
    WorksFirst(s, Dispatcher, 2, s');
  }

  lemma ListingMisses(s: State, n: nat, s1: State)
    requires IsReady(s) && s.entry.bridge == Some(n) && s.entry.pane.Some?
    requires s1 == s.Sent(PaneMissing(n)).Set(Dispatcher, s.threads[Dispatcher].Detaching(true, ToSessions))
    ensures Leads(s, Moves(Dispatcher, [Requested(ListNow)] + ([Fails] + Well(1))), s1)
  {
    var t, th := Dispatcher, s.threads[Dispatcher];
    var s2, s3 := s.Set(t, th.(at := Serve(ReadPane))), s.Set(t, th.(at := Serve(SendPaneMissing(n))));
    SetTwice(s, t, s2.threads[t], s3.threads[t]);
    SetTwice(s.Sent(PaneMissing(n)), t, s3.threads[t], s1.threads[t]);
    assert Step(s, t, Requested(ListNow)) == s2;
    assert Step(s2, t, Fails) == s3;
    assert Step(s3, t, Works) == s1;
    WorksFirst(s3, t, 1, s1);
    First(s2, t, Fails, Well(1), s1);
    First(s, t, Requested(ListNow), [Fails] + Well(1), s1);
  }

  /** A listing that misses the attached pane tells the peer, takes the attachment out and comes to its wait. */
  lemma ListingTellsMissing(s: State, n: nat) returns (s': State)
    requires Inv(s) && IsReady(s) && s.entry.bridge == Some(n)
    ensures Leads(s, Moves(Dispatcher, ([Requested(ListNow)] + ([Fails] + Well(1))) + Well(3)), s')
    ensures s'.sent == s.sent + [PaneMissing(n)] && AwaitsEnd(s', Dispatcher, n)
    ensures s'.threads[Dispatcher].cont == ToSessions
  {
    assert n < |s.atts|;
    var s1 := s.Sent(PaneMissing(n)).Set(Dispatcher, s.threads[Dispatcher].Detaching(true, ToSessions));
    ListingMisses(s, n, s1);
    DetachTakesOut(s1, Dispatcher);
    s' := Detached(s1, Dispatcher, s1.threads[Dispatcher]);
    Then(s, Dispatcher, [Requested(ListNow)] + ([Fails] + Well(1)), s1, Well(3), s');
    assert EntryInv(s1);
    DetachAwaitsEnd(s1, Dispatcher, n);
  }

  /** Behind its wait, and for any other listing, the sessions go out and the dispatcher is idle again. */
  lemma ListingAnswers(s: State)
    requires Dispatcher in s.threads && CanMove(s, Dispatcher)
    requires s.threads[Dispatcher].at == Detach(AwaitDone) && s.threads[Dispatcher].cont == ToSessions
    ensures var th := s.threads[Dispatcher].(at := Idle, waitOn := None);
            Leads(s, Moves(Dispatcher, Well(2)), s.Sent(Notice).Set(Dispatcher, th))
  {
    var s1 := s.Set(Dispatcher, s.threads[Dispatcher].(at := Serve(SendSessions), waitOn := None));
    var s' := s.Sent(Notice).Set(Dispatcher, s.threads[Dispatcher].(at := Idle, waitOn := None));
    SetTwice(s.Sent(Notice), Dispatcher, s1.threads[Dispatcher], s'.threads[Dispatcher]);
    assert Step(s, Dispatcher, Works) == s1 && Step(s1, Dispatcher, Works) == s';
    WorksFirst(s1, Dispatcher, 1, s');
    WorksFirst(s, Dispatcher, 2, s');
  }

  // -------------------------------------------------------------------- attaches

  /** The new attachment streams and is watched, its pane is on record, and the peer has been told and shown it. */
  predicate HasAttached(s: State, s': State, n: nat, pane: PaneId) {
    && s'.sent == s.sent + [Attached(n), Output(n)]
    && s'.entry == s.entry.(bridge := Some(n), cancel := Some(n), done := Some(n), pane := Some(pane))
    && |s'.atts| == n + 1 && s'.atts[..n] == s.atts
    && s'.atts[n] == Attachment(InMaps, 0, false, s.agentDown, Live(Stream(n)), 0, 0, None)
    && Stream(n) in s'.threads && s'.threads[Stream(n)] == RESTING.(at := Own(StreamLoop), mine := Some(n))
    && Watcher(n) in s'.threads && s'.threads[Watcher(n)] == RESTING.(at := Watching)
    && Dispatcher in s'.threads && s'.threads[Dispatcher].at == Idle && s'.threads[Dispatcher].mine.None?
  }

  lemma Installs(s: State, th: Thread)
    requires th.at == Serve(InstallBridge) && Dispatcher in s.threads && s.threads[Dispatcher] == th
    ensures var n := |s.atts|;
            var a := Attachment(InMaps, 0, false, s.agentDown, Live(Dispatcher), 0, 0, None);
            var s1 := s.(entry := Register(s.entry, n, th.pane), atts := s.atts + [a])
                       .Set(Dispatcher, th.(at := Own(SendAttached), mine := Some(n)));
            && GoesTo(s, Dispatcher, s1)
            && GoesTo(s1, Dispatcher, s1.Sent(Attached(n)).Set(Dispatcher, th.(at := Own(PreStream), mine := Some(n))))
  {
  }

  /** From opening its bridge on, an attach whose calls work streams its pane. */
  lemma AttachStreams(s: State) returns (s': State)
    requires Dispatcher in s.threads && s.threads[Dispatcher].at == Serve(OpenBridge)
    ensures Leads(s, Moves(Dispatcher, Well(4)), s') && HasAttached(s, s', |s.atts|, s.threads[Dispatcher].pane)
  {
    var t, th, n := Dispatcher, s.threads[Dispatcher], |s.atts|;
    var a := Attachment(InMaps, 0, false, s.agentDown, Live(t), 0, 0, None);
    var s1 := s.Set(t, th.(at := Serve(InstallBridge)));
    var s2 := s1.(entry := Register(s.entry, n, th.pane), atts := s.atts + [a])
                .Set(t, th.(at := Own(SendAttached), mine := Some(n)));
    var s3 := s2.Sent(Attached(n)).Set(t, th.(at := Own(PreStream), mine := Some(n)));
    assert GoesTo(s, t, s1);
    Installs(s1, s1.threads[t]);
    Thrice(s, t, s1, s2, s3);
    s' := StartsStreaming(s3, n);
    Then(s, t, Well(3), s3, Well(1), s');
    WellJoins(3, 1);
    Regroup(s.sent, [Attached(n)], [Output(n)]);
    assert [Attached(n)] + [Output(n)] == [Attached(n), Output(n)];
  }

  lemma StartsStreaming(s: State, n: nat) returns (s': State)
    requires Dispatcher in s.threads && s.threads[Dispatcher].at == Own(PreStream)
    requires s.threads[Dispatcher].mine == Some(n) && n + 1 == |s.atts|
    ensures Leads(s, Moves(Dispatcher, Well(1)), s')
    ensures s'.sent == s.sent + [Output(n)] && s'.entry == s.entry
    ensures s'.atts == s.atts[n := s.atts[n].(life := Live(Stream(n)))]
    ensures Stream(n) in s'.threads && s'.threads[Stream(n)] == RESTING.(at := Own(StreamLoop), mine := Some(n))
    ensures Watcher(n) in s'.threads && s'.threads[Watcher(n)] == RESTING.(at := Watching)
    ensures Dispatcher in s'.threads && s'.threads[Dispatcher].at == Idle && s'.threads[Dispatcher].mine.None?
  {
    s' := Step(s, Dispatcher, Works);
    assert s' == StartStep(s.Sent(Output(n)), Dispatcher, s.threads[Dispatcher]);
    WorksFirst(s, Dispatcher, 1, s');
  }

  // ------------------------------------------------------------------- teardowns

  /** A teardown that has stopped the peer's dispatch and cleaned up: nothing of the peer is left. */
  predicate HasTornDown(s: State, s': State, t: Tid) {
    && t in s'.threads && s'.threads[t].at == Detach(AwaitDone) && s'.threads[t].cont == ToFinish
    && s'.threads[t].stopped == Some(s.link.connection) && s'.threads[t].waitOn == s.entry.done
    && s'.link == s.link.(sendsStopped := true, stopped := true)
    && s'.entry.bridge.None? && !s'.entry.pinged && s'.sent == s.sent
  }

  /** Where a teardown stands that has stopped the peer's dispatch and forgotten its ping. */
  function Stopped(s: State, t: Tid): State {
    s.(link := s.link.(sendsStopped := true, stopped := true), entry := s.entry.(pinged := false))
     .Set(t, RESTING.(at := Detach(TakeEntry), wait := true, stopped := Some(s.link.connection)))
  }

  lemma TeardownStops(s: State, t: Tid)
    requires t in s.threads && t != Dispatcher && DispatcherIdle(s) && s.threads[t] == RESTING.(at := StopSends)
    ensures Leads(s, Moves(t, Well(3)), Stopped(s, t))
  {
    var th1 := RESTING.(at := StopDispatch, stopped := Some(s.link.connection));
    var th2 := RESTING.(at := ForgetPing, stopped := Some(s.link.connection));
    var s1 := s.(link := s.link.(sendsStopped := true)).Set(t, th1);
    var s2 := s.(link := s.link.(sendsStopped := true, stopped := true)).Set(t, th2);
    SetTwice(s, t, th1, th2);
    SetTwice(s, t, th2, Stopped(s, t).threads[t]);
    assert Step(s, t, Works) == s1;
    assert Step(s1, t, Works) == s2;
    assert Step(s2, t, Works) == Stopped(s, t);
    WorksFirst(s2, t, 1, Stopped(s, t));
    WorksFirst(s1, t, 2, Stopped(s, t));
    WorksFirst(s, t, 3, Stopped(s, t));
  }

  lemma StoppedIsTornDown(s: State, t: Tid)
    requires EntryInv(s)
    ensures HasTornDown(s, Detached(Stopped(s, t), t, Stopped(s, t).threads[t]), t)
  {
  }

  /** A teardown that finds the dispatcher idle stops it, forgets the peer's ping and takes out what is attached. */
  lemma TeardownCleansUp(s: State, id: nat) returns (s': State)
    requires Inv(s) && Teardown(id) !in s.threads && DispatcherIdle(s)
    ensures Leads(s, [Disconnect(id, true)] + Moves(Teardown(id), Well(6)), s')
    ensures HasTornDown(s, s', Teardown(id))
  {
    var t := Teardown(id);
    var s1 := Next(s, Disconnect(id, true));
    s' := StopsAndDetaches(s1, t);
    assert ([Disconnect(id, true)] + Moves(t, Well(6)))[1..] == Moves(t, Well(6));
  }

  lemma StopsAndDetaches(s: State, t: Tid) returns (s': State)
    requires EntryInv(s) && t in s.threads && t != Dispatcher && DispatcherIdle(s)
    requires s.threads[t] == RESTING.(at := StopSends)
    ensures Leads(s, Moves(t, Well(6)), s') && HasTornDown(s, s', t)
  {
    TeardownStops(s, t);
    DetachTakesOut(Stopped(s, t), t);
    s' := Detached(Stopped(s, t), t, Stopped(s, t).threads[t]);
    Then(s, t, Well(3), Stopped(s, t), Well(3), s');
    WellJoins(3, 3);
    StoppedIsTornDown(s, t);
  }

  /** Where a disconnect stands that has forgotten the peer's ping. */
  function Forgotten(s: State, t: Tid): State {
    s.(entry := s.entry.(pinged := false)).Set(t, RESTING.(at := Detach(TakeEntry), wait := true))
  }

  lemma ForgetsPing(s: State, t: Tid)
    ensures GoesTo(s.Set(t, RESTING.(at := ForgetPing)), t, Forgotten(s, t))
  {
    SetTwice(s, t, RESTING.(at := ForgetPing), Forgotten(s, t).threads[t]);
  }

  lemma ForgottenIsDetached(s: State, t: Tid)
    requires EntryInv(s)
    ensures var s' := Detached(Forgotten(s, t), t, Forgotten(s, t).threads[t]);
            && s'.entry.bridge.None? && s'.entry.pane.None? && !s'.entry.pinged
            && s'.sent == s.sent && s'.link == s.link
            && t in s'.threads && s'.threads[t].at == Detach(AwaitDone) && s'.threads[t].cont == ToFinish
            && s'.threads[t].waitOn == s.entry.done
  {
  }

  /** A disconnect whose peer's dispatch was stopped before forgets the ping and takes out what is attached. */
  lemma DisconnectCleansUp(s: State, id: nat) returns (s': State)
    requires EntryInv(s) && Teardown(id) !in s.threads
    ensures Leads(s, [Disconnect(id, false)] + Moves(Teardown(id), Well(4)), s')
    ensures s'.entry.bridge.None? && s'.entry.pane.None? && !s'.entry.pinged && s'.sent == s.sent && s'.link == s.link
    ensures Teardown(id) in s'.threads && s'.threads[Teardown(id)].at == Detach(AwaitDone)
    ensures s'.threads[Teardown(id)].cont == ToFinish && s'.threads[Teardown(id)].waitOn == s.entry.done
  {
    var t := Teardown(id);
    ForgetsPing(s, t);
    DetachTakesOut(Forgotten(s, t), t);
    s' := Detached(Forgotten(s, t), t, Forgotten(s, t).threads[t]);
    ForgottenIsDetached(s, t);
    WorksFirst(s.Set(t, RESTING.(at := ForgetPing)), t, 4, s');
    assert Next(s, Disconnect(id, false)) == s.Set(t, RESTING.(at := ForgetPing));
    assert ([Disconnect(id, false)] + Moves(t, Well(4)))[1..] == Moves(t, Well(4));
  }
}
