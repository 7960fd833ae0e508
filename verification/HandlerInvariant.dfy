/** What every step of the handler's threads keeps. */
module HandlerInvariant {
  import opened Common
  import opened HandlerEntries
  import opened HandlerSteps

  /** Places that only the dispatcher reaches. */
  predicate DispatcherOnly(th: Thread) {
    || th.at.Serve?
    || (th.at.Own? && th.at.own in {SendAttached, PreStream, PreStreamFailed})
    || th.cont in {ToOpen, ToDetached, ToSessions}
  }

  /** The detach in front of an attach or a detached event has been through the lock. */
  predicate HasDetached(th: Thread) {
    match th.at
    case Detach(d) => d != TakeEntry && (th.cont == ToOpen || th.cont == ToDetached)
    case Serve(r) => r in {SendDetached, OpenBridge, OpenFailed, InstallBridge}
    case _ => false
  }

  /** Places at which a thread must have an attachment of its own. */
  predicate NeedsMine(th: Thread) {
    th.at.Own? || ((th.at.Detach? || th.at.Exit?) && (th.cont == ToReset || th.cont == ToEnd))
  }

  predicate Fits(th: Thread, t: Tid) {
    && (NeedsMine(th) <==> th.mine.Some?)
    && (DispatcherOnly(th) ==> t == Dispatcher)
    && (th.at.Detach? || th.at.Exit? ==> (th.mine.Some? ==> !th.wait))
    && (th.at.Detach? ==> (th.cont == ToOpen || th.cont == ToDetached ==> th.wait))
    && (th.at.Exit? ==> th.cont == ToEnd || th.cont == ToFinish)
  }

  ghost predicate EntryInv(s: State) {
    && s.entry.bridge == s.entry.cancel
    && (s.entry.pane.Some? <==> s.entry.bridge.Some?)
    && (s.entry.exitNotified ==> s.entry.bridge.Some?)
    && (s.entry.bridge.Some? ==> s.entry.bridge.value + 1 == |s.atts|)
    && (s.entry.done.Some? ==> s.entry.done.value + 1 == |s.atts|)
    && (forall n :: n in s.entry.superseded ==> s.entry.done == Some(n))
  }

  ghost predicate AttachmentInv(s: State, n: nat)
    requires n < |s.atts|
  {
    var a := s.atts[n];
    && (a.bridge.InMaps? <==> s.entry.bridge == Some(n))
    && (a.life.Live? <==> s.entry.done == Some(n))
    && a.bridgeCloses == (if a.bridge.Closed? then 1 else 0)
    && a.doneCloses == (if a.life.Over? then 1 else 0)
    && (a.bridge.Closed? ==> a.cancelled)
    && a.exitClaims <= 1
    && (a.bridge.InMaps? ==> a.exitClaims == if s.entry.exitNotified then 1 else 0)
    && (a.bridge.Held? ==> a.bridge.holder in s.threads && s.threads[a.bridge.holder].held == Some(n))
    && (!a.life.Over? ==>
          && a.life.owner in s.threads
          && s.threads[a.life.owner].mine == Some(n)
          && (a.life.owner == Dispatcher || a.life.owner == Stream(n)))
    && (!a.life.Over? && a.life.owner == Dispatcher ==> Stream(n) !in s.threads && Watcher(n) !in s.threads)
  }

  ghost predicate AttachmentsInv(s: State) {
    forall n :: 0 <= n < |s.atts| ==> AttachmentInv(s, n)
  }

  ghost predicate ThreadInv(s: State, t: Tid)
    requires t in s.threads
  {
    var th := s.threads[t];
    && (th.held.Some? ==>
          && th.held.value < |s.atts| && s.atts[th.held.value].bridge == Held(t)
          && (th.at == Detach(CancelStream) || th.at == Detach(CloseBridge))
          && (th.at == Detach(CloseBridge) ==> s.IsCancelled(th.held)))
    && (th.at == Detach(CancelStream) ==> th.cancel == th.held)
    && (th.mine.Some? ==>
          && th.mine.value < |s.atts|
          && s.atts[th.mine.value].life == (if th.at == Own(CloseDone) then Ending(t) else Live(t))
          && th.waitOn.None?)
    && (th.waitOn.Some? ==>
          var n := th.waitOn.value;
          && n < |s.atts|
          && !s.atts[n].bridge.InMaps?
          && (s.atts[n].life.Live? ==> n in s.entry.superseded)
          && th.at.Detach? && th.at.detach != TakeEntry)
    && Fits(th, t)
    && (t.Stream? || t.Watcher? ==> t.att < |s.atts|)
  }

  ghost predicate ThreadsInv(s: State) {
    forall t :: t in s.threads ==> ThreadInv(s, t)
  }

  ghost predicate DispatchInv(s: State) {
    && Dispatcher in s.threads
    && (HasDetached(s.threads[Dispatcher]) ==>
          && s.entry.bridge.None?
          && (s.entry.done.None? || s.entry.done == s.threads[Dispatcher].waitOn))
  }

  ghost predicate Inv(s: State) {
    EntryInv(s) && AttachmentsInv(s) && ThreadsInv(s) && DispatchInv(s)
  }

  // ------------------------------------------------------------- preservation

  /** A step that changes only its thread's place, and nothing the place stands for. */
  ghost predicate Quiet(s: State, s': State, t: Tid)
    requires t in s.threads
  {
    && t in s'.threads && s'.threads == s.threads[t := s'.threads[t]]
    && s'.atts == s.atts
    && s'.entry == s.entry.(pinged := s'.entry.pinged)
    && var th, th' := s.threads[t], s'.threads[t];
       && th'.held.None? && th.held.None? && th'.waitOn.None?
       && th'.mine == th.mine && th.at != Own(CloseDone) && th'.at != Own(CloseDone) && th'.at != Detach(CancelStream)
       && Fits(th', t)
       && (HasDetached(th') ==> t == Dispatcher && s.entry.bridge.None? && s.entry.done.None?)
  }

  lemma QuietKeepsInv(s: State, s': State, t: Tid)
    requires Inv(s) && t in s.threads && Quiet(s, s', t)
    ensures Inv(s')
  {
    forall n | 0 <= n < |s'.atts| ensures AttachmentInv(s', n) {
      assert AttachmentInv(s, n);
    }
    forall u | u in s'.threads ensures ThreadInv(s', u) {
      assert ThreadInv(s, u);
    }
  }

  /** The parts of the invariant that one thread and one attachment meet in. */
  ghost predicate Local(s: State, t: Tid, u: Tid) {
    && EntryInv(s)
    && t in s.threads && ThreadInv(s, t)
    && (u in s.threads ==> ThreadInv(s, u))
    && (s.entry.bridge.Some? ==> AttachmentInv(s, s.entry.bridge.value))
    && (s.entry.done.Some? ==> AttachmentInv(s, s.entry.done.value))
    && (s.threads[t].mine.Some? ==> AttachmentInv(s, s.threads[t].mine.value))
  }

  lemma InvIsLocal(s: State, t: Tid, u: Tid)
    requires Inv(s) && t in s.threads
    ensures Local(s, t, u)
  {
  }

  lemma TakeKeepsOther(s: State, t: Tid, u: Tid)
    requires Local(s, t, u) && s.threads[t].at == Detach(TakeEntry)
    requires u in s.threads && u != t
    ensures ThreadInv(TakeStep(s, t, s.threads[t]), u)
  {
    assert TakeStep(s, t, s.threads[t]).threads[u] == s.threads[u];
  }

  lemma TakeKeepsThread(s: State, t: Tid, u: Tid)
    requires Local(s, t, u) && s.threads[t].at == Detach(TakeEntry)
    requires u in TakeStep(s, t, s.threads[t]).threads
    ensures ThreadInv(TakeStep(s, t, s.threads[t]), u)
  {
    if t != u {
      TakeKeepsOther(s, t, u);
    }
  }

  lemma TakeKeepsAttachment(s: State, t: Tid, n: nat)
    requires Local(s, t, t) && n < |s.atts| && AttachmentInv(s, n) && s.threads[t].at == Detach(TakeEntry)
    ensures AttachmentInv(TakeStep(s, t, s.threads[t]), n)
  {
  }

  lemma TakeKeepsInv(s: State, t: Tid)
    requires Inv(s) && t in s.threads && s.threads[t].at == Detach(TakeEntry)
    ensures Inv(TakeStep(s, t, s.threads[t]))
  {
    var s' := TakeStep(s, t, s.threads[t]);
    InvIsLocal(s, t, t);
    forall n | 0 <= n < |s'.atts| ensures AttachmentInv(s', n) {
      TakeKeepsAttachment(s, t, n);
    }
    forall u | u in s'.threads ensures ThreadInv(s', u) {
      InvIsLocal(s, t, u);
      TakeKeepsThread(s, t, u);
    }
  }

  lemma CancelKeepsOther(s: State, t: Tid, u: Tid)
    requires t in s.threads && ThreadInv(s, t) && s.threads[t].at == Detach(CancelStream)
    requires u in s.threads && ThreadInv(s, u) && t != u
    ensures ThreadInv(CancelStep(s, t, s.threads[t]), u)
  {
    assert CancelStep(s, t, s.threads[t]).threads[u] == s.threads[u];
  }

  lemma CancelKeepsThread(s: State, t: Tid, u: Tid)
    requires t in s.threads && ThreadInv(s, t) && s.threads[t].at == Detach(CancelStream)
    requires u in s.threads && ThreadInv(s, u)
    ensures ThreadInv(CancelStep(s, t, s.threads[t]), u)
  {
    if t != u {
      CancelKeepsOther(s, t, u);
    }
  }

  lemma CancelKeepsAttachment(s: State, t: Tid, n: nat)
    requires t in s.threads && ThreadInv(s, t) && s.threads[t].at == Detach(CancelStream)
    requires n < |s.atts| && AttachmentInv(s, n)
    ensures AttachmentInv(CancelStep(s, t, s.threads[t]), n)
  {
    var s' := CancelStep(s, t, s.threads[t]);
    if s.threads[t].cancel == Some(n) {
      assert s'.atts[n] == s.atts[n].(cancelled := true);
    } else {
      assert s'.atts[n] == s.atts[n];
    }
  }

  lemma CancelKeepsInv(s: State, t: Tid)
    requires Inv(s) && t in s.threads && s.threads[t].at == Detach(CancelStream)
    ensures Inv(CancelStep(s, t, s.threads[t]))
  {
    var s' := CancelStep(s, t, s.threads[t]);
    InvIsLocal(s, t, t);
    forall n | 0 <= n < |s'.atts| ensures AttachmentInv(s', n) {
      CancelKeepsAttachment(s, t, n);
    }
    forall u | u in s'.threads ensures ThreadInv(s', u) {
      CancelKeepsThread(s, t, u);
    }
  }

  lemma CloseKeepsOther(s: State, t: Tid, u: Tid)
    requires t in s.threads && ThreadInv(s, t) && s.threads[t].at == Detach(CloseBridge)
    requires u in s.threads && ThreadInv(s, u) && t != u
    ensures ThreadInv(CloseStep(s, t, s.threads[t]), u)
  {
    assert CloseStep(s, t, s.threads[t]).threads[u] == s.threads[u];
  }

  lemma CloseKeepsThread(s: State, t: Tid, u: Tid)
    requires t in s.threads && ThreadInv(s, t) && s.threads[t].at == Detach(CloseBridge)
    requires u in s.threads && ThreadInv(s, u)
    ensures ThreadInv(CloseStep(s, t, s.threads[t]), u)
  {
    if t != u {
      CloseKeepsOther(s, t, u);
    }
  }

  lemma CloseKeepsAttachment(s: State, t: Tid, n: nat)
    requires t in s.threads && ThreadInv(s, t) && s.threads[t].at == Detach(CloseBridge)
    requires n < |s.atts| && AttachmentInv(s, n)
    ensures AttachmentInv(CloseStep(s, t, s.threads[t]), n)
  {
    var s' := CloseStep(s, t, s.threads[t]);
    if s.threads[t].held == Some(n) {
      assert s'.atts[n] == s.atts[n].(bridge := Closed, bridgeCloses := 1);
    } else {
      assert s'.atts[n] == s.atts[n];
    }
  }

  lemma CloseKeepsInv(s: State, t: Tid)
    requires Inv(s) && t in s.threads && s.threads[t].at == Detach(CloseBridge)
    ensures Inv(CloseStep(s, t, s.threads[t]))
  {
    var s' := CloseStep(s, t, s.threads[t]);
    InvIsLocal(s, t, t);
    forall n | 0 <= n < |s'.atts| ensures AttachmentInv(s', n) {
      CloseKeepsAttachment(s, t, n);
    }
    forall u | u in s'.threads ensures ThreadInv(s', u) {
      CloseKeepsThread(s, t, u);
    }
  }

  lemma InstallKeepsThread(s: State, t: Tid, u: Tid)
    requires Local(s, t, u) && s.threads[t].at == Serve(InstallBridge)
    requires u in InstallStep(s, t, s.threads[t]).threads
    ensures ThreadInv(InstallStep(s, t, s.threads[t]), u)
  {
  }

  lemma InstallKeepsAttachment(s: State, t: Tid, n: nat)
    requires Inv(s) && t in s.threads && s.threads[t].at == Serve(InstallBridge)
    requires n < |InstallStep(s, t, s.threads[t]).atts|
    ensures AttachmentInv(InstallStep(s, t, s.threads[t]), n)
  {
    assert ThreadInv(s, t);
    if n < |s.atts| {
      assert AttachmentInv(s, n);
    } else {
      assert forall u :: u in s.threads && (u.Stream? || u.Watcher?) ==> ThreadInv(s, u) && u.att < n;
    }
  }

  lemma InstallKeepsInv(s: State, t: Tid)
    requires Inv(s) && t in s.threads && s.threads[t].at == Serve(InstallBridge)
    ensures Inv(InstallStep(s, t, s.threads[t]))
  {
    var s' := InstallStep(s, t, s.threads[t]);
    InvIsLocal(s, t, t);
    forall n | 0 <= n < |s'.atts| ensures AttachmentInv(s', n) {
      InstallKeepsAttachment(s, t, n);
    }
    forall u | u in s'.threads ensures ThreadInv(s', u) {
      InvIsLocal(s, t, u);
      InstallKeepsThread(s, t, u);
    }
  }

  lemma StartKeepsThread(s: State, t: Tid, u: Tid)
    requires Local(s, t, u) && s.threads[t].at == Own(PreStream)
    requires u in StartStep(s, t, s.threads[t]).threads
    ensures ThreadInv(StartStep(s, t, s.threads[t]), u)
  {
    if t != u {
    }
  }

  lemma StartKeepsAttachment(s: State, t: Tid, n: nat)
    requires Local(s, t, t) && n < |s.atts| && AttachmentInv(s, n) && s.threads[t].at == Own(PreStream)
    ensures AttachmentInv(StartStep(s, t, s.threads[t]), n)
  {
  }

  lemma StartKeepsRest(s: State, t: Tid)
    requires EntryInv(s) && DispatchInv(s) && t in s.threads && ThreadInv(s, t) && s.threads[t].at == Own(PreStream)
    ensures EntryInv(StartStep(s, t, s.threads[t])) && DispatchInv(StartStep(s, t, s.threads[t]))
  {
    assert t == Dispatcher;
  }

  lemma StartKeepsInv(s: State, t: Tid)
    requires Inv(s) && t in s.threads && s.threads[t].at == Own(PreStream)
    ensures Inv(StartStep(s, t, s.threads[t]))
  {
    var s' := StartStep(s, t, s.threads[t]);
    InvIsLocal(s, t, t);
    StartKeepsRest(s, t);
    forall n | 0 <= n < |s'.atts| ensures AttachmentInv(s', n) {
      StartKeepsAttachment(s, t, n);
    }
    forall u | u in s'.threads ensures ThreadInv(s', u) {
      InvIsLocal(s, t, u);
      StartKeepsThread(s, t, u);
    }
  }

  lemma EndKeepsThread(s: State, t: Tid, u: Tid)
    requires Local(s, t, u) && s.threads[t].at == Own(EndStream)
    requires u in EndStep(s, t, s.threads[t]).threads
    ensures ThreadInv(EndStep(s, t, s.threads[t]), u)
  {
    if t != u {
      assert EndStep(s, t, s.threads[t]).threads[u] == s.threads[u];
    }
  }

  lemma EndKeepsAttachment(s: State, t: Tid, n: nat)
    requires Local(s, t, t) && n < |s.atts| && AttachmentInv(s, n) && s.threads[t].at == Own(EndStream)
    ensures AttachmentInv(EndStep(s, t, s.threads[t]), n)
  {
  }

  lemma EndKeepsInv(s: State, t: Tid)
    requires Inv(s) && t in s.threads && s.threads[t].at == Own(EndStream)
    ensures Inv(EndStep(s, t, s.threads[t]))
  {
    var s' := EndStep(s, t, s.threads[t]);
    InvIsLocal(s, t, t);
    forall n | 0 <= n < |s'.atts| ensures AttachmentInv(s', n) {
      EndKeepsAttachment(s, t, n);
    }
    forall u | u in s'.threads ensures ThreadInv(s', u) {
      InvIsLocal(s, t, u);
      EndKeepsThread(s, t, u);
    }
  }

  lemma CloseDoneKeepsThread(s: State, t: Tid, u: Tid)
    requires Local(s, t, u) && s.threads[t].at == Own(CloseDone)
    requires u in CloseDoneStep(s, t, s.threads[t]).threads
    ensures ThreadInv(CloseDoneStep(s, t, s.threads[t]), u)
  {
  }

  lemma CloseDoneKeepsAttachment(s: State, t: Tid, n: nat)
    requires Local(s, t, t) && n < |s.atts| && AttachmentInv(s, n) && s.threads[t].at == Own(CloseDone)
    ensures AttachmentInv(CloseDoneStep(s, t, s.threads[t]), n)
  {
  }

  lemma CloseDoneKeepsInv(s: State, t: Tid)
    requires Inv(s) && t in s.threads && s.threads[t].at == Own(CloseDone)
    ensures Inv(CloseDoneStep(s, t, s.threads[t]))
  {
    var s' := CloseDoneStep(s, t, s.threads[t]);
    InvIsLocal(s, t, t);
    forall n | 0 <= n < |s'.atts| ensures AttachmentInv(s', n) {
      CloseDoneKeepsAttachment(s, t, n);
    }
    forall u | u in s'.threads ensures ThreadInv(s', u) {
      InvIsLocal(s, t, u);
      CloseDoneKeepsThread(s, t, u);
    }
  }

  lemma ExitKeepsThread(s: State, t: Tid, u: Tid)
    requires Local(s, t, u) && s.threads[t].at == Exit(TryExit) && MayClaimExit(s.entry)
    requires u in ExitStep(s, t, s.threads[t]).threads
    ensures ThreadInv(ExitStep(s, t, s.threads[t]), u)
  {
  }

  lemma ExitKeepsAttachment(s: State, t: Tid, n: nat)
    requires Local(s, t, t) && s.threads[t].at == Exit(TryExit) && MayClaimExit(s.entry)
    requires n < |s.atts| && AttachmentInv(s, n)
    ensures AttachmentInv(ExitStep(s, t, s.threads[t]), n)
  {
  }

  lemma ExitKeepsInv(s: State, t: Tid)
    requires Inv(s) && t in s.threads && s.threads[t].at == Exit(TryExit) && MayClaimExit(s.entry)
    ensures Inv(ExitStep(s, t, s.threads[t]))
  {
    var s' := ExitStep(s, t, s.threads[t]);
    InvIsLocal(s, t, t);
    forall n | 0 <= n < |s'.atts| ensures AttachmentInv(s', n) {
      ExitKeepsAttachment(s, t, n);
    }
    forall u | u in s'.threads ensures ThreadInv(s', u) {
      InvIsLocal(s, t, u);
      ExitKeepsThread(s, t, u);
    }
  }

  /** Once the dispatcher's wait is over, no stream of the detached attachment is left. */
  lemma AwaitedIsGone(s: State, t: Tid)
    requires Local(s, t, t) && DispatchInv(s) && CanMove(s, t)
    requires s.threads[t].at == Detach(AwaitDone) && HasDetached(s.threads[t])
    ensures t == Dispatcher && s.entry.bridge.None? && s.entry.done.None?
  {
  }

  lemma OwnResumeIsQuiet(s: State, t: Tid)
    requires t in s.threads && ThreadInv(s, t)
    requires s.threads[t].at == Detach(AwaitDone) || s.threads[t].at == Exit(TryExit)
    requires s.threads[t].cont in {ToReset, ToEnd, ToFinish}
    ensures Quiet(s, Resume(s, t, s.threads[t]), t)
  {
  }

  lemma ResumeIsQuiet(s: State, t: Tid)
    requires t in s.threads && ThreadInv(s, t)
    requires s.threads[t].at == Detach(AwaitDone) || s.threads[t].at == Exit(TryExit)
    requires HasDetached(s.threads[t]) ==> t == Dispatcher && s.entry.bridge.None? && s.entry.done.None?
    ensures Quiet(s, Resume(s, t, s.threads[t]), t)
  {
    match s.threads[t].cont
    case ToOpen =>
    case ToDetached =>
    case ToSessions =>
    case _ => OwnResumeIsQuiet(s, t);
  }

  lemma ListingIsQuiet(s: State, t: Tid, r: ServePlace, c: Choice)
    requires t in s.threads && ThreadInv(s, t) && s.threads[t].at == Serve(r)
    requires r == ReadPane || r.SendPaneMissing?
    ensures Quiet(s, ServeStep(s, t, s.threads[t], r, c), t)
  {
    assert t == Dispatcher && s.threads[t].waitOn.None?;
  }

  lemma ServeStepIsQuiet(s: State, t: Tid, r: ServePlace, c: Choice)
    requires t in s.threads && ThreadInv(s, t) && s.threads[t].at == Serve(r)
    requires DispatchInv(s) && r != InstallBridge
    ensures Quiet(s, ServeStep(s, t, s.threads[t], r, c), t)
  {
    assert t == Dispatcher && s.threads[t].waitOn.None?;
    match r
    case ReadPane => ListingIsQuiet(s, t, r, c);
    case SendPaneMissing(_) => ListingIsQuiet(s, t, r, c);
    case SendSessions =>
    case SendDetached =>
    case OpenBridge =>
    case OpenFailed =>
  }

  lemma StreamReadIsQuiet(s: State, t: Tid, c: Choice)
    requires t in s.threads && ThreadInv(s, t) && s.threads[t].at == Own(StreamRead)
    ensures Quiet(s, OwnStep(s, t, s.threads[t], StreamRead, c), t)
  {
  }

  lemma StreamGotIsQuiet(s: State, t: Tid, c: Choice)
    requires t in s.threads && ThreadInv(s, t) && s.threads[t].at == Own(StreamGot)
    ensures Quiet(s, OwnStep(s, t, s.threads[t], StreamGot, c), t)
  {
  }

  lemma SpeakingStepIsQuiet(s: State, t: Tid, o: OwnPlace, c: Choice)
    requires t in s.threads && ThreadInv(s, t) && s.threads[t].at == Own(o)
    requires o in {SendAttached, StreamSend, SendReset}
    ensures Quiet(s, OwnStep(s, t, s.threads[t], o, c), t)
  {
    match o
    case SendAttached =>
    case StreamSend =>
    case SendReset =>
  }

  lemma OwnStepIsQuiet(s: State, t: Tid, o: OwnPlace, c: Choice)
    requires t in s.threads && ThreadInv(s, t) && s.threads[t].at == Own(o)
    requires o != PreStream && o != EndStream && o != CloseDone
    ensures Quiet(s, OwnStep(s, t, s.threads[t], o, c), t)
  {
    match o
    case SendAttached => SpeakingStepIsQuiet(s, t, o, c);
    case PreStreamFailed =>
    case StreamLoop =>
    case StreamRead => StreamReadIsQuiet(s, t, c);
    case StreamGot => StreamGotIsQuiet(s, t, c);
    case StreamSend => SpeakingStepIsQuiet(s, t, o, c);
    case StreamFailed =>
    case CheckSuperseded =>
    case SendReset => SpeakingStepIsQuiet(s, t, o, c);
  }

  lemma ExitingStepIsQuiet(s: State, t: Tid, x: ExitPlace, c: Choice)
    requires t in s.threads && ThreadInv(s, t) && s.threads[t].at == Exit(x)
    requires x != TryExit
    ensures Quiet(s, ExitingStep(s, t, s.threads[t], x, c), t)
  {
  }

  lemma DispatchIsQuiet(s: State, r: Request)
    requires Dispatcher in s.threads && ThreadInv(s, Dispatcher) && s.threads[Dispatcher].at.Idle?
    ensures Quiet(s, DispatchStep(s, Dispatcher, s.threads[Dispatcher], r), Dispatcher)
  {
  }

  lemma WatchingIsQuiet(s: State, t: Tid, c: Choice)
    requires t in s.threads && ThreadInv(s, t) && s.threads[t].at.Watching?
    ensures Quiet(s, Step(s, t, c), t)
  {
  }

  lemma RestingStepIsQuiet(s: State, t: Tid, c: Choice)
    requires t in s.threads && ThreadInv(s, t)
    requires var at := s.threads[t].at; at.Watching? || at.StopSends? || at.StopDispatch? || at.ForgetPing?
    ensures Quiet(s, Step(s, t, c), t)
  {
    match s.threads[t].at
    case Watching => WatchingIsQuiet(s, t, c);
    case StopSends =>
    case StopDispatch =>
    case ForgetPing =>
  }

  /** Only detaches, installs, streams and claimed exits change attachments. */
  lemma RestingKeepsAttachments(s: State, t: Tid, c: Choice)
    requires t in s.threads
    requires var at := s.threads[t].at; !at.Detach? && !at.Serve? && !at.Own? && !at.Exit?
    ensures Step(s, t, c).atts == s.atts
  {
    match s.threads[t].at
    case Idle =>
    case Finished =>
    case Watching =>
    case StopSends =>
    case StopDispatch =>
    case ForgetPing =>
  }

  lemma DetachStepKeepsInv(s: State, t: Tid, d: DetachPlace)
    requires Inv(s) && t in s.threads && s.threads[t].at == Detach(d) && CanMove(s, t)
    ensures Inv(DetachStep(s, t, s.threads[t], d))
  {
    match d
    case TakeEntry => TakeKeepsInv(s, t);
    case CancelStream => CancelKeepsInv(s, t);
    case CloseBridge => CloseKeepsInv(s, t);
    case AwaitDone => ResumeKeepsInv(s, t);
  }

  lemma ServeStepKeepsInv(s: State, t: Tid, r: ServePlace, c: Choice)
    requires Inv(s) && t in s.threads && s.threads[t].at == Serve(r)
    ensures Inv(ServeStep(s, t, s.threads[t], r, c))
  {
    if r == InstallBridge {
      InstallKeepsInv(s, t);
    } else {
      assert ThreadInv(s, t);
      ServeStepIsQuiet(s, t, r, c);
      QuietKeepsInv(s, ServeStep(s, t, s.threads[t], r, c), t);
    }
  }

  lemma OwnStepKeepsInv(s: State, t: Tid, o: OwnPlace, c: Choice)
    requires Inv(s) && t in s.threads && s.threads[t].at == Own(o)
    ensures Inv(OwnStep(s, t, s.threads[t], o, c))
  {
    if o == PreStream {
      PreStreamKeepsInv(s, t, c);
    } else if o == EndStream {
      EndKeepsInv(s, t);
    } else if o == CloseDone {
      CloseDoneKeepsInv(s, t);
    } else {
      assert ThreadInv(s, t);
      OwnStepIsQuiet(s, t, o, c);
      QuietKeepsInv(s, OwnStep(s, t, s.threads[t], o, c), t);
    }
  }

  lemma PreStreamKeepsInv(s: State, t: Tid, c: Choice)
    requires Inv(s) && t in s.threads && s.threads[t].at == Own(PreStream)
    ensures Inv(OwnStep(s, t, s.threads[t], PreStream, c))
  {
    var th := s.threads[t];
    assert ThreadInv(s, t);
    if c.Fails? || c.Panics? {
      QuietKeepsInv(s, s.Set(t, th.(at := Own(PreStreamFailed))), t);
    } else {
      StartKeepsInv(s, t);
      InvIgnoresSent(StartStep(s, t, th), Control(s, c, OwnEvent(th, PreStream)).sent);
      StartIgnoresSent(s, t, th, Control(s, c, OwnEvent(th, PreStream)).sent);
    }
  }

  lemma StartIgnoresSent(s: State, t: Tid, th: Thread, sent: seq<Event>)
    ensures StartStep(s.(sent := sent), t, th) == StartStep(s, t, th).(sent := sent)
  {
  }

  lemma ExitingStepKeepsInv(s: State, t: Tid, x: ExitPlace, c: Choice)
    requires Inv(s) && t in s.threads && s.threads[t].at == Exit(x) && CanMove(s, t)
    ensures Inv(ExitingStep(s, t, s.threads[t], x, c))
  {
    if x != TryExit {
      assert ThreadInv(s, t);
      ExitingStepIsQuiet(s, t, x, c);
      QuietKeepsInv(s, ExitingStep(s, t, s.threads[t], x, c), t);
    } else if MayClaimExit(s.entry) {
      ExitKeepsInv(s, t);
    } else {
      ResumeKeepsInv(s, t);
    }
  }

  lemma ResumeKeepsInv(s: State, t: Tid)
    requires Inv(s) && t in s.threads && CanMove(s, t)
    requires s.threads[t].at == Detach(AwaitDone) || (s.threads[t].at == Exit(TryExit) && !MayClaimExit(s.entry))
    ensures Inv(Resume(s, t, s.threads[t]))
  {
    InvIsLocal(s, t, t);
    if HasDetached(s.threads[t]) { AwaitedIsGone(s, t); }
    ResumeIsQuiet(s, t);
    QuietKeepsInv(s, Resume(s, t, s.threads[t]), t);
  }

  lemma StepKeepsInv(s: State, t: Tid, c: Choice)
    requires Inv(s) && t in s.threads && CanMove(s, t)
    ensures Inv(Step(s, t, c))
  {
    match s.threads[t].at
    case Detach(d) => DetachStepKeepsInv(s, t, d);
    case Serve(r) => ServeStepKeepsInv(s, t, r, c);
    case Own(o) => OwnStepKeepsInv(s, t, o, c);
    case Exit(x) => ExitingStepKeepsInv(s, t, x, c);
    case Idle =>
      if c.Requested? {
        assert ThreadInv(s, t);
        DispatchIsQuiet(s, c.request);
        QuietKeepsInv(s, Step(s, t, c), t);
      }
    case Finished =>
    case _ =>
      assert ThreadInv(s, t);
      RestingStepIsQuiet(s, t, c);
      QuietKeepsInv(s, Step(s, t, c), t);
  }

  lemma InvIgnoresSent(s: State, sent: seq<Event>)
    requires Inv(s)
    ensures Inv(s.(sent := sent))
  {
    var s' := s.(sent := sent);
    forall n | 0 <= n < |s'.atts| ensures AttachmentInv(s', n) {
      assert AttachmentInv(s, n);
    }
    forall u | u in s'.threads ensures ThreadInv(s', u) {
      assert ThreadInv(s, u);
    }
  }

  lemma EnvironmentKeepsAttachment(s: State, a: Action, n: nat)
    requires Enabled(s, a) && !a.Move? && n < |s.atts| && AttachmentInv(s, n)
    ensures n < |Next(s, a).atts| && AttachmentInv(Next(s, a), n)
  {
    match a
    case Disconnect(_, _) =>
    case ShutDownAgent =>
    case Displace(_) =>
    case NextConnection =>
  }

  lemma EnvironmentKeepsThread(s: State, a: Action, u: Tid)
    requires Enabled(s, a) && !a.Move? && u in Next(s, a).threads
    requires u in s.threads ==> ThreadInv(s, u)
    ensures ThreadInv(Next(s, a), u)
  {
    match a
    case Disconnect(_, _) =>
    case ShutDownAgent =>
    case Displace(_) =>
    case NextConnection =>
  }

  lemma NextKeepsInv(s: State, a: Action)
    requires Inv(s) && Enabled(s, a)
    ensures Inv(Next(s, a))
  {
    if a.Move? {
      StepKeepsInv(s, a.t, a.c);
    } else {
      var s' := Next(s, a);
      forall n | 0 <= n < |s'.atts| ensures AttachmentInv(s', n) {
        assert AttachmentInv(s, n);
        EnvironmentKeepsAttachment(s, a, n);
      }
      forall u | u in s'.threads ensures ThreadInv(s', u) {
        EnvironmentKeepsThread(s, a, u);
      }
    }
  }

  lemma {:induction false} RunKeepsInv(states: seq<State>, actions: seq<Action>, i: nat)
    requires IsRun(states, actions) && i < |states|
    ensures Inv(states[i])
  {
    if i > 0 {
      RunKeepsInv(states, actions, i - 1);
      assert Follows(states, actions, i - 1);
      NextKeepsInv(states[i - 1], actions[i - 1]);
    }
  }
}
