/** What a peer can and cannot see on its connection, in every run of the handler's threads. */
module HandlerSafety {
  import opened Common
  import opened HandlerSteps
  import opened HandlerInvariant

  /** Attachments below this number are over once the message has been sent. */
  function Fence(e: Event): nat {
    match e
    case Attached(n) => n
    case Detached(before) => before
    case _ => 0
  }

  predicate FromStream(e: Event) {
    e.Output? || e.Reset?
  }

  /** Whether a message may follow an earlier one on the connection. */
  predicate MayFollow(earlier: Event, later: Event) {
    && (FromStream(later) ==> Fence(earlier) <= later.att)
    && (FromStream(later) ==> earlier != Reset(later.att))
    && (later.Attached? ==>
          earlier != Attached(later.att) && earlier != Output(later.att) && earlier != Reset(later.att))
    && (later.PaneClosed? || later.PaneMissing? ==> earlier != later)
  }

  ghost predicate InOrder(sent: seq<Event>) {
    forall i, j :: 0 <= i < j < |sent| ==> MayFollow(sent[i], sent[j])
  }

  /** The dispatcher is about to take out the attachment whose pane the listing missed. */
  predicate TakesMissing(s: State) {
    && Dispatcher in s.threads
    && s.threads[Dispatcher].at == Detach(TakeEntry) && s.threads[Dispatcher].cont == ToSessions
  }

  /** A listing announces a missing pane only right in front of the detach that takes the attachment out. */
  ghost predicate MissingInv(s: State, e: Event) {
    e.PaneMissing? ==> e.att < |s.atts| && (s.entry.bridge == Some(e.att) ==> TakesMissing(s))
  }

  ghost predicate EventsInv(s: State) {
    forall e :: e in s.sent ==>
      && MissingInv(s, e)
      && Fence(e) <= |s.atts|
      && (s.entry.done.Some? ==> Fence(e) <= s.entry.done.value)
      && (e.Attached? || e.Output? || e.Reset? || e.PaneClosed? ==> e.att < |s.atts|)
      && (e.PaneClosed? ==> s.atts[e.att].exitClaims >= 1)
  }

  /** What a thread may still send, because it has not been sent yet. */
  ghost predicate SenderInv(s: State, t: Tid) {
    t in s.threads ==>
      var th := s.threads[t];
      && (th.mine.Some? && th.at == Own(SendAttached) ==>
            Attached(th.mine.value) !in s.sent && Output(th.mine.value) !in s.sent)
      && (th.mine.Some? && !(th.at.Own? && (th.at.own == EndStream || th.at.own == CloseDone)) ==>
            Reset(th.mine.value) !in s.sent)
      && (th.exited.Some? <==> th.at == Exit(SendPaneClosed))
      && (th.exited.Some? ==>
            && th.exited.value < |s.atts|
            && s.atts[th.exited.value].exitClaims >= 1
            && s.atts[th.exited.value].claimant == Some(t)
            && PaneClosed(th.exited.value) !in s.sent)
      && (th.at.Serve? && th.at.serve.SendPaneMissing? ==>
            th.at.serve.att < |s.atts| && PaneMissing(th.at.serve.att) !in s.sent)
  }

  ghost predicate SentInv(s: State) {
    InOrder(s.sent) && EventsInv(s) && forall t :: SenderInv(s, t)
  }

  // ------------------------------------------------------------- preservation

  /** The message that thread t sends where it stands, if it sends one. */
  function EventAt(s: State, th: Thread): Event {
    match th.at
    case Serve(SendDetached) => Detached(|s.atts|)
    case Serve(SendPaneMissing(n)) => PaneMissing(n)
    case Own(o) => OwnEvent(th, o)
    case Exit(SendPaneClosed) => if th.exited.Some? then PaneClosed(th.exited.value) else Notice
    case _ => Notice
  }

  /** A message that thread t may send where it stands. */
  ghost predicate MaySend(s: State, t: Tid, e: Event)
    requires t in s.threads
  {
    var th := s.threads[t];
    match e
    case Attached(n) => th.mine == Some(n) && th.at == Own(SendAttached)
    case Output(n) => th.mine == Some(n) && th.at.Own? && (th.at.own == PreStream || th.at.own == StreamSend)
    case Reset(n) => th.mine == Some(n) && th.at == Own(SendReset)
    case Detached(before) => before == |s.atts| && s.entry.done.None?
    case PaneClosed(n) => th.exited == Some(n)
    case PaneMissing(n) => th.at == Serve(SendPaneMissing(n))
    case Notice => true
  }

  lemma SendKeepsOrder(s: State, t: Tid, e: Event)
    requires Inv(s) && SentInv(s) && t in s.threads && MaySend(s, t, e)
    ensures InOrder(s.sent + [e])
  {
    assert ThreadInv(s, t) && SenderInv(s, t);
    if s.threads[t].mine.Some? { assert AttachmentInv(s, s.threads[t].mine.value); }
    var sent := s.sent + [e];
    forall i, j | 0 <= i < j < |sent| ensures MayFollow(sent[i], sent[j]) {
      assert sent[i] in s.sent;
    }
  }

  predicate Adds(s: State, s': State, e: Event) {
    s'.sent == s.sent || s'.sent == s.sent + [e]
  }

  lemma DetachStepSendsNothing(s: State, t: Tid, th: Thread, d: DetachPlace)
    ensures DetachStep(s, t, th, d).sent == s.sent
  {
    match d
    case TakeEntry =>
    case CancelStream =>
    case CloseBridge =>
    case AwaitDone =>
  }

  lemma ServeStepAdds(s: State, t: Tid, th: Thread, r: ServePlace, c: Choice)
    requires th.at == Serve(r)
    ensures Adds(s, ServeStep(s, t, th, r, c), EventAt(s, th))
  {
    match r
    case ReadPane =>
    case SendPaneMissing(_) =>
    case SendSessions =>
    case SendDetached =>
    case OpenBridge =>
    case OpenFailed =>
    case InstallBridge =>
  }

  lemma OwnStepAdds(s: State, t: Tid, th: Thread, o: OwnPlace, c: Choice)
    requires th.at == Own(o)
    ensures Adds(s, OwnStep(s, t, th, o, c), EventAt(s, th))
  {
    match o
    case SendAttached =>
    case PreStream => StartIgnoresSent(s, t, th, Control(s, c, OwnEvent(th, PreStream)).sent);
    case EndStream =>
    case CloseDone =>
    case _ =>
  }

  lemma ExitingStepAdds(s: State, t: Tid, th: Thread, x: ExitPlace, c: Choice)
    requires th.at == Exit(x)
    ensures Adds(s, ExitingStep(s, t, th, x, c), EventAt(s, th))
  {
  }

  lemma StepAdds(s: State, t: Tid, c: Choice)
    requires t in s.threads
    ensures Adds(s, Step(s, t, c), EventAt(s, s.threads[t]))
  {
    var th := s.threads[t];
    match th.at
    case Detach(d) => DetachStepSendsNothing(s, t, th, d);
    case Serve(r) => ServeStepAdds(s, t, th, r, c);
    case Own(o) => OwnStepAdds(s, t, th, o, c);
    case Exit(x) => ExitingStepAdds(s, t, th, x, c);
    case _ =>
  }

  lemma EventMaybeSent(s: State, t: Tid)
    requires Inv(s) && SentInv(s) && t in s.threads
    ensures MaySend(s, t, EventAt(s, s.threads[t]))
  {
    assert ThreadInv(s, t) && SenderInv(s, t);
  }

  /** How a step may change the attachments while what was sent stays true. */
  ghost predicate Grows(s: State, s': State) {
    && |s.atts| <= |s'.atts|
    && (s'.entry.done == s.entry.done || s'.entry.done.None? || s'.entry.done.value == |s.atts|)
    && (s'.entry.bridge == s.entry.bridge || s'.entry.bridge.None? || s'.entry.bridge.value == |s.atts|)
    && forall n :: 0 <= n < |s.atts| ==>
         && s.atts[n].bridgeCloses <= s'.atts[n].bridgeCloses
         && s.atts[n].doneCloses <= s'.atts[n].doneCloses
         && s.atts[n].exitClaims <= s'.atts[n].exitClaims
         && (s.atts[n].exitClaims >= 1 ==> s'.atts[n].claimant == s.atts[n].claimant)
  }

  lemma DetachStepGrows(s: State, t: Tid, th: Thread, d: DetachPlace)
    ensures Grows(s, DetachStep(s, t, th, d))
  {
    match d
    case TakeEntry =>
    case CancelStream =>
    case CloseBridge =>
    case AwaitDone =>
  }

  lemma StartGrows(s: State, t: Tid, th: Thread)
    ensures Grows(s, StartStep(s, t, th))
  {
  }

  lemma CloseDoneGrows(s: State, t: Tid, th: Thread)
    ensures Grows(s, CloseDoneStep(s, t, th))
  {
  }

  lemma EntriesGrow(s: State, t: Tid, th: Thread)
    ensures Grows(s, EndStep(s, t, th))
    ensures Grows(s, InstallStep(s, t, th))
  {
  }

  lemma OwnStepGrows(s: State, t: Tid, o: OwnPlace, c: Choice)
    requires t in s.threads && ThreadInv(s, t) && s.threads[t].at == Own(o)
    ensures Grows(s, OwnStep(s, t, s.threads[t], o, c))
  {
    var th := s.threads[t];
    StartGrows(s, t, th);
    CloseDoneGrows(s, t, th);
    EntriesGrow(s, t, th);
    if o == PreStream {
      StartIgnoresSent(s, t, th, Control(s, c, OwnEvent(th, PreStream)).sent);
    } else if o != EndStream && o != CloseDone {
      OwnStepIsQuiet(s, t, o, c);
    }
  }

  lemma ExitingStepGrows(s: State, t: Tid, th: Thread, x: ExitPlace, c: Choice)
    requires EntryInv(s) && (s.entry.bridge.Some? ==> AttachmentInv(s, s.entry.bridge.value))
    ensures Grows(s, ExitingStep(s, t, th, x, c))
  {
  }

  lemma StepGrows(s: State, t: Tid, c: Choice)
    requires Inv(s) && t in s.threads && CanMove(s, t)
    ensures Grows(s, Step(s, t, c))
  {
    var th := s.threads[t];
    assert ThreadInv(s, t);
    match th.at
    case Detach(d) => DetachStepGrows(s, t, th, d);
    case Serve(r) => EntriesGrow(s, t, th); if r != InstallBridge { ServeStepIsQuiet(s, t, r, c); }
    case Own(o) => OwnStepGrows(s, t, o, c);
    case Exit(x) => ExitingStepGrows(s, t, th, x, c);
    case Idle => if c.Requested? { DispatchIsQuiet(s, c.request); }
    case Finished =>
    case _ => RestingStepIsQuiet(s, t, c);
  }

  lemma StepKeepsEvents(s: State, t: Tid, c: Choice)
    requires Inv(s) && SentInv(s) && t in s.threads && CanMove(s, t)
    ensures EventsInv(Step(s, t, c))
  {
    var s', e := Step(s, t, c), EventAt(s, s.threads[t]);
    StepAdds(s, t, c);
    StepGrows(s, t, c);
    EventMaybeSent(s, t);
    assert ThreadInv(s, t) && SenderInv(s, t);
    if s.threads[t].mine.Some? { assert AttachmentInv(s, s.threads[t].mine.value); }
    forall m | m in s'.sent
      ensures Fence(m) <= |s'.atts|
      ensures s'.entry.done.Some? ==> Fence(m) <= s'.entry.done.value
      ensures m.Attached? || m.Output? || m.Reset? || m.PaneClosed? ==> m.att < |s'.atts|
      ensures m.PaneClosed? ==> s'.atts[m.att].exitClaims >= 1
      ensures MissingInv(s', m)
    {
      assert m in s.sent || m == e;
      if m == e { SendKeepsMissing(s, t, c); } else { StepKeepsMissing(s, t, c, m); }
    }
  }

  lemma SendKeepsMissing(s: State, t: Tid, c: Choice)
    requires Inv(s) && SentInv(s) && t in s.threads && CanMove(s, t)
    ensures MissingInv(Step(s, t, c), EventAt(s, s.threads[t]))
  {
    assert ThreadInv(s, t) && SenderInv(s, t);
    if s.threads[t].at.Serve? && s.threads[t].at.serve.SendPaneMissing? {
      assert t == Dispatcher;
    }
  }

  /** An announced attachment never returns to the maps, and stays in them only until the dispatcher's next move. */
  lemma StepKeepsMissing(s: State, t: Tid, c: Choice, e: Event)
    requires Inv(s) && t in s.threads && CanMove(s, t) && MissingInv(s, e)
    ensures MissingInv(Step(s, t, c), e)
  {
    var s' := Step(s, t, c);
    StepGrows(s, t, c);
    assert t == Dispatcher && TakesMissing(s) ==> s'.entry.bridge.None?;
    assert ThreadInv(s, t);
    if t != Dispatcher { StepLeavesOthers(s, t, c, Dispatcher); }
  }

  /** A thread that does not move keeps its promises: no one else sends about its attachment. */
  lemma OtherSendersKept(s: State, t: Tid, c: Choice, u: Tid)
    requires Inv(s) && SentInv(s) && t in s.threads && CanMove(s, t)
    requires u in s.threads && u in Step(s, t, c).threads
    requires Step(s, t, c).threads[u] == s.threads[u] && u != t
    ensures SenderInv(Step(s, t, c), u)
  {
    StepAdds(s, t, c);
    StepGrows(s, t, c);
    EventMaybeSent(s, t);
    assert ThreadInv(s, t) && ThreadInv(s, u) && SenderInv(s, t) && SenderInv(s, u);
  }

  /** Every step but the start of a stream leaves the other threads where they are. */
  ghost predicate Untouched(s: State, s': State, u: Tid) {
    && (u in s'.threads <==> u in s.threads)
    && (u in s.threads ==> s'.threads[u] == s.threads[u])
  }

  lemma ResumeLeavesOthers(s: State, t: Tid, th: Thread, u: Tid)
    requires u != t
    ensures Untouched(s, Resume(s, t, th), u)
  {
  }

  lemma DetachLeavesOthers(s: State, t: Tid, th: Thread, d: DetachPlace, u: Tid)
    requires u != t
    ensures Untouched(s, DetachStep(s, t, th, d), u)
  {
    match d
    case TakeEntry =>
    case CancelStream =>
    case CloseBridge =>
    case AwaitDone => ResumeLeavesOthers(s, t, th, u);
  }

  lemma ServeLeavesOthers(s: State, t: Tid, th: Thread, r: ServePlace, c: Choice, u: Tid)
    requires u != t
    ensures Untouched(s, ServeStep(s, t, th, r, c), u)
  {
  }

  lemma OwnLeavesOthers(s: State, t: Tid, th: Thread, o: OwnPlace, c: Choice, u: Tid)
    requires u != t && o != PreStream
    ensures Untouched(s, OwnStep(s, t, th, o, c), u)
  {
    match o
    case EndStream =>
    case CloseDone =>
    case _ =>
      var s1 := if Speaks(o) then Control(s, c, OwnEvent(th, o)) else s;
      SetLeavesOthers(s, s1, t, NextOwn(s, th, o, c), u);
  }

  lemma SetLeavesOthers(s: State, s1: State, t: Tid, th: Thread, u: Tid)
    requires u != t && s1.threads == s.threads
    ensures Untouched(s, s1.Set(t, th), u)
  {
  }

  lemma ExitingLeavesOthers(s: State, t: Tid, th: Thread, x: ExitPlace, c: Choice, u: Tid)
    requires u != t
    ensures Untouched(s, ExitingStep(s, t, th, x, c), u)
  {
    if x == TryExit {
      ResumeLeavesOthers(s, t, th, u);
    }
  }

  lemma StepLeavesOthers(s: State, t: Tid, c: Choice, u: Tid)
    requires t in s.threads && u != t && s.threads[t].at != Own(PreStream)
    ensures Untouched(s, Step(s, t, c), u)
  {
    var th := s.threads[t];
    match th.at
    case Detach(d) => DetachLeavesOthers(s, t, th, d, u);
    case Serve(r) => ServeLeavesOthers(s, t, th, r, c, u);
    case Own(o) => OwnLeavesOthers(s, t, th, o, c, u);
    case Exit(x) => ExitingLeavesOthers(s, t, th, x, c, u);
    case _ =>
  }

  lemma StartLeavesOthers(s: State, t: Tid, th: Thread, u: Tid)
    requires th.mine.Some? && u != t && u != Stream(th.mine.value) && u != Watcher(th.mine.value)
    ensures Untouched(s, StartStep(s, t, th), u)
  {
  }

  lemma DetachKeepsSender(s: State, t: Tid, d: DetachPlace)
    requires t in s.threads && ThreadInv(s, t) && SenderInv(s, t) && s.threads[t].at == Detach(d)
    ensures SenderInv(DetachStep(s, t, s.threads[t], d), t)
  {
    match d
    case TakeEntry =>
    case CancelStream =>
    case CloseBridge =>
    case AwaitDone =>
  }

  lemma ServeKeepsSender(s: State, t: Tid, r: ServePlace, c: Choice)
    requires t in s.threads && ThreadInv(s, t) && SenderInv(s, t) && s.threads[t].at == Serve(r)
    requires EventsInv(s) && EntryInv(s)
    ensures SenderInv(ServeStep(s, t, s.threads[t], r, c), t)
  {
    match r
    case InstallBridge =>
      assert forall e :: e in s.sent && (e.Attached? || e.Output? || e.Reset?) ==> e.att < |s.atts|;
    case ReadPane => ReadPaneKeepsSender(s, t, c);
    case _ => assert s.threads[t].mine.None?;
  }

  /** What the listing finds missing now, it has not announced before: it would have taken it out since. */
  lemma ReadPaneKeepsSender(s: State, t: Tid, c: Choice)
    requires t in s.threads && ThreadInv(s, t) && SenderInv(s, t) && s.threads[t].at == Serve(ReadPane)
    requires EventsInv(s) && EntryInv(s)
    ensures SenderInv(ServeStep(s, t, s.threads[t], ReadPane, c), t)
  {
    assert t == Dispatcher && s.threads[t].mine.None?;
    if s.entry.bridge.Some? {
      var e := PaneMissing(s.entry.bridge.value);
      assert e in s.sent ==> MissingInv(s, e);
    }
  }

  lemma SilentOwnKeepsSender(s: State, t: Tid, o: OwnPlace, c: Choice)
    requires t in s.threads && ThreadInv(s, t) && SenderInv(s, t) && s.threads[t].at == Own(o)
    requires o in {PreStreamFailed, StreamLoop, StreamRead, StreamGot, StreamFailed, CheckSuperseded}
    ensures SenderInv(OwnStep(s, t, s.threads[t], o, c), t)
  {
    match o
    case PreStreamFailed =>
    case StreamLoop =>
    case StreamRead =>
    case StreamGot =>
    case StreamFailed =>
    case CheckSuperseded =>
  }

  lemma PreStreamKeepsSender(s: State, t: Tid, c: Choice)
    requires t in s.threads && ThreadInv(s, t) && SenderInv(s, t) && s.threads[t].at == Own(PreStream)
    ensures SenderInv(OwnStep(s, t, s.threads[t], PreStream, c), t)
  {
  }

  lemma OwnKeepsSender(s: State, t: Tid, o: OwnPlace, c: Choice)
    requires t in s.threads && ThreadInv(s, t) && SenderInv(s, t) && s.threads[t].at == Own(o)
    ensures SenderInv(OwnStep(s, t, s.threads[t], o, c), t)
  {
    match o
    case SendAttached => SpeakingOwnKeepsSender(s, t, o, c);
    case StreamSend => SpeakingOwnKeepsSender(s, t, o, c);
    case SendReset => SpeakingOwnKeepsSender(s, t, o, c);
    case PreStream => PreStreamKeepsSender(s, t, c);
    case EndStream =>
    case CloseDone =>
    case _ => SilentOwnKeepsSender(s, t, o, c);
  }

  lemma SpeakingOwnKeepsSender(s: State, t: Tid, o: OwnPlace, c: Choice)
    requires t in s.threads && ThreadInv(s, t) && SenderInv(s, t) && s.threads[t].at == Own(o)
    requires o in {SendAttached, StreamSend, SendReset}
    ensures SenderInv(OwnStep(s, t, s.threads[t], o, c), t)
  {
    match o
    case SendAttached =>
    case StreamSend =>
    case SendReset =>
  }

  lemma ExitingKeepsSender(s: State, t: Tid, x: ExitPlace, c: Choice)
    requires t in s.threads && ThreadInv(s, t) && SenderInv(s, t) && s.threads[t].at == Exit(x)
    requires EventsInv(s) && EntryInv(s) && (s.entry.bridge.Some? ==> AttachmentInv(s, s.entry.bridge.value))
    ensures SenderInv(ExitingStep(s, t, s.threads[t], x, c), t)
  {
    if x == TryExit && s.entry.bridge.Some? && PaneClosed(s.entry.bridge.value) in s.sent {
      assert s.atts[s.entry.bridge.value].exitClaims >= 1;
    }
  }

  lemma StepKeepsOwnSender(s: State, t: Tid, c: Choice)
    requires Inv(s) && SentInv(s) && t in s.threads && CanMove(s, t)
    ensures SenderInv(Step(s, t, c), t)
  {
    assert ThreadInv(s, t) && SenderInv(s, t);
    match s.threads[t].at
    case Detach(d) => DetachKeepsSender(s, t, d);
    case Serve(r) => ServeKeepsSender(s, t, r, c);
    case Own(o) => OwnKeepsSender(s, t, o, c);
    case Exit(x) =>
      if s.entry.bridge.Some? { assert AttachmentInv(s, s.entry.bridge.value); }
      ExitingKeepsSender(s, t, x, c);
    case _ => RestingKeepsSender(s, t, c);
  }

  lemma DispatchKeepsSender(s: State, t: Tid, r: Request)
    requires t in s.threads && ThreadInv(s, t) && SenderInv(s, t) && s.threads[t].at.Idle?
    ensures SenderInv(DispatchStep(s, t, s.threads[t], r), t)
  {
    match r
    case AttachTo(_) =>
    case DetachNow =>
    case ListNow =>
    case Ping =>
    case OtherRequest =>
  }

  lemma RestingKeepsSender(s: State, t: Tid, c: Choice)
    requires t in s.threads && ThreadInv(s, t) && SenderInv(s, t)
    requires var at := s.threads[t].at; !at.Detach? && !at.Serve? && !at.Own? && !at.Exit?
    ensures SenderInv(Step(s, t, c), t)
  {
    match s.threads[t].at
    case Idle => if c.Requested? { DispatchKeepsSender(s, t, c.request); }
    case Finished =>
    case Watching =>
    case StopSends =>
    case StopDispatch =>
    case ForgetPing =>
  }

  /** A stream starts without having sent a reset, and neither it nor its watcher has announced an exit. */
  lemma StartedSenders(s: State, c: Choice, u: Tid)
    requires Inv(s) && SentInv(s) && Dispatcher in s.threads && s.threads[Dispatcher].at == Own(PreStream)
    requires u != Dispatcher && u !in s.threads
    ensures SenderInv(Step(s, Dispatcher, c), u)
  {
    var th := s.threads[Dispatcher];
    assert ThreadInv(s, Dispatcher) && SenderInv(s, Dispatcher);
    if c.Fails? || c.Panics? {
      assert u !in Step(s, Dispatcher, c).threads;
    } else {
      StartedSender(Control(s, c, OwnEvent(th, PreStream)), th, u);
    }
  }

  lemma StartedSender(s: State, th: Thread, u: Tid)
    requires th.mine.Some? && u != Dispatcher && u !in s.threads && Reset(th.mine.value) !in s.sent
    ensures SenderInv(StartStep(s, Dispatcher, th), u)
  {
  }

  lemma BystandersOfStart(s: State, c: Choice, u: Tid)
    requires Inv(s) && SentInv(s) && Dispatcher in s.threads && s.threads[Dispatcher].at == Own(PreStream)
    requires u != Dispatcher && u in s.threads
    ensures SenderInv(Step(s, Dispatcher, c), u)
  {
    var th := s.threads[Dispatcher];
    var n := th.mine.value;
    assert ThreadInv(s, Dispatcher);
    assert AttachmentInv(s, n);
    if !(c.Fails? || c.Panics?) { StartLeavesOthers(Control(s, c, OwnEvent(th, PreStream)), Dispatcher, th, u); }
    OtherSendersKept(s, Dispatcher, c, u);
  }

  lemma StepKeepsSent(s: State, t: Tid, c: Choice)
    requires Inv(s) && SentInv(s) && t in s.threads && CanMove(s, t)
    ensures SentInv(Step(s, t, c))
  {
    var s' := Step(s, t, c);
    StepAdds(s, t, c);
    EventMaybeSent(s, t);
    SendKeepsOrder(s, t, EventAt(s, s.threads[t]));
    StepKeepsEvents(s, t, c);
    forall u ensures SenderInv(s', u) {
      if u == t {
        StepKeepsOwnSender(s, t, c);
      } else if s.threads[t].at == Own(PreStream) {
        assert ThreadInv(s, t);
        if u in s.threads { BystandersOfStart(s, c, u); } else { StartedSenders(s, c, u); }
      } else {
        StepLeavesOthers(s, t, c, u);
        if u in s'.threads { OtherSendersKept(s, t, c, u); }
      }
    }
  }

  lemma NextKeepsSent(s: State, a: Action)
    requires Inv(s) && SentInv(s) && Enabled(s, a)
    ensures SentInv(Next(s, a))
  {
    if a.Move? {
      StepKeepsSent(s, a.t, a.c);
    } else {
      EnvironmentKeepsSent(s, a);
    }
  }

  lemma EnvironmentKeepsSent(s: State, a: Action)
    requires Inv(s) && SentInv(s) && Enabled(s, a) && !a.Move?
    ensures SentInv(Next(s, a))
  {
    var s' := Next(s, a);
    assert s'.sent == s.sent && s'.entry == s.entry;
    forall e | e in s.sent ensures MissingInv(s', e) {
      assert MissingInv(s, e);
    }
    forall u ensures SenderInv(s', u) {
      EnvironmentKeepsSender(s, a, u);
    }
  }

  lemma EnvironmentKeepsSender(s: State, a: Action, u: Tid)
    requires SenderInv(s, u) && Enabled(s, a) && !a.Move?
    ensures SenderInv(Next(s, a), u)
  {
    match a
    case Disconnect(_, _) =>
    case ShutDownAgent =>
    case Displace(_) =>
    case NextConnection =>
  }

  lemma {:induction false} RunKeepsSent(states: seq<State>, actions: seq<Action>, i: nat)
    requires IsRun(states, actions) && i < |states|
    ensures Inv(states[i]) && SentInv(states[i])
  {
    RunKeepsInv(states, actions, i);
    if i > 0 {
      RunKeepsSent(states, actions, i - 1);
      SentByOne(states, actions, i);
    }
  }

  lemma SentByOne(states: seq<State>, actions: seq<Action>, i: nat)
    requires IsRun(states, actions) && 0 < i < |states|
    requires Inv(states[i - 1]) && SentInv(states[i - 1])
    ensures SentInv(states[i])
  {
    assert Follows(states, actions, i - 1);
    NextKeepsSent(states[i - 1], actions[i - 1]);
  }
}
