/**
 One peer's share of the message handler as a system of threads: the message
 dispatcher, one output stream and one pane watcher per attachment, and any
 number of disconnect teardowns. A step is one region under the handler's lock,
 one send, one receive, or one call to the bridge, taken by any thread that can
 move; the environment may shut the agent down, displace a bridge, start a
 teardown at any time, and bring up the peer's next connection.
 */
module HandlerSteps {
  import opened Common
  import opened HandlerEntries

  datatype Tid =
    | Dispatcher
    | Stream(att: nat)
    | Watcher(att: nat)
    | Teardown(id: nat)

  /** detachPeerWait. */
  datatype DetachPlace = TakeEntry | CancelStream | CloseBridge | AwaitDone

  /** The dispatcher without an attachment in the making: listing, detaching, opening a bridge. */
  datatype ServePlace =
    | ReadPane | SendPaneMissing(att: nat) | SendSessions
    | SendDetached
    | OpenBridge | OpenFailed | InstallBridge

  /** A thread that must end an attachment: the rest of handleAttach, streamOutput, resetStream, endStream. */
  datatype OwnPlace =
    | SendAttached | PreStream | PreStreamFailed
    | StreamLoop | StreamRead | StreamGot | StreamSend | StreamFailed
    | CheckSuperseded | SendReset
    | EndStream | CloseDone

  /** handlePaneExit. */
  datatype ExitPlace = TryExit | SendPaneClosed | SendExitSessions

  /** The operation that a thread performs next. */
  datatype Place =
    | Idle
    | Finished
    | Detach(detach: DetachPlace)
    | Serve(serve: ServePlace)
    | Own(own: OwnPlace)
    | Exit(exit: ExitPlace)
    | Watching
    // PeerDisconnected, with or without the peer's stopDispatch in front
    | StopSends
    | StopDispatch
    | ForgetPing

  /** Where a thread goes on after a detach. */
  datatype Cont = ToOpen | ToDetached | ToSessions | ToReset | ToEnd | ToFinish

  /**
   A thread's local variables: the attachment whose done channel it must close,
   the bridge, cancel function and done channel that its detach took out of the
   maps, the attachment whose exit it announces, and the connection whose
   dispatch it stops.
   */
  datatype Thread = Thread(
    at: Place,
    mine: Option<nat>,
    held: Option<nat>,
    cancel: Option<nat>,
    waitOn: Option<nat>,
    wait: bool,
    cont: Cont,
    pane: PaneId,
    exited: Option<nat>,
    stopped: Option<nat>
  ) {
    function Detaching(wait: bool, cont: Cont): Thread {
      this.(at := Detach(TakeEntry), wait := wait, cont := cont)
    }

    function Exiting(wait: bool, cont: Cont): Thread {
      this.(at := Exit(TryExit), wait := wait, cont := cont)
    }
  }

  const RESTING := Thread(Idle, None, None, None, None, false, ToFinish, "", None, None)

  datatype BridgeState = InMaps | Held(holder: Tid) | Closed

  /** Who is still going to close an attachment's done channel, and whether its entry is gone. */
  datatype Life = Live(owner: Tid) | Ending(owner: Tid) | Over

  datatype Attachment = Attachment(
    bridge: BridgeState,
    bridgeCloses: nat,
    displaced: bool,
    cancelled: bool,
    life: Life,
    doneCloses: nat,
    exitClaims: nat,
    claimant: Option<Tid>
  )

  const NO_ATTACHMENT := Attachment(Closed, 0, false, false, Over, 0, 0, None)

  /**
   A message that reached the peer. A pane_closed about an attachment is
   PaneClosed from handlePaneExit and PaneMissing from a session listing;
   control messages about no attachment are Notice.
   */
  datatype Event =
    | Attached(att: nat)
    | Output(att: nat)
    | Reset(att: nat)
    | Detached(before: nat)
    | PaneClosed(att: nat)
    | PaneMissing(att: nat)
    | Notice

  /** The peer's connection: its number, what a teardown has stopped, and the connections torn down so far. */
  datatype Link = Link(connection: nat, sendsStopped: bool, stopped: bool, tornDown: set<nat>)

  datatype State = State(
    entry: Entry,
    atts: seq<Attachment>,
    threads: map<Tid, Thread>,
    sent: seq<Event>,
    agentDown: bool,
    link: Link
  ) {
    function Set(t: Tid, th: Thread): State {
      this.(threads := threads[t := th])
    }

    function With(n: Option<nat>, a: Attachment): State {
      if n.Some? && n.value < |atts| then this.(atts := atts[n.value := a]) else this
    }

    function Att(n: Option<nat>): Attachment {
      if n.Some? && n.value < |atts| then atts[n.value] else NO_ATTACHMENT
    }

    function Sent(e: Event): State {
      this.(sent := sent + [e])
    }

    predicate IsCancelled(n: Option<nat>) {
      n.Some? && n.value < |atts| && atts[n.value].cancelled
    }
  }

  datatype Request = AttachTo(pane: PaneId) | DetachNow | ListNow | Ping | OtherRequest

  /** How an operation that can go more than one way goes. */
  datatype Choice = Works | Fails | Skips | Panics | Requested(request: Request)

  const INITIAL := State(NO_ENTRY, [], map[Dispatcher := RESTING], [], false, Link(0, false, false, {}))

  // ---------------------------------------------------------------- one step

  predicate IsOver(s: State, n: nat) {
    n < |s.atts| && s.atts[n].life.Over?
  }

  predicate DispatcherIdle(s: State) {
    Dispatcher in s.threads && s.threads[Dispatcher].at.Idle?
  }

  /** Whether the thread's next operation returns, rather than blocking. */
  predicate CanMove(s: State, t: Tid)
    requires t in s.threads
  {
    var th := s.threads[t];
    match th.at
    case Idle => t == Dispatcher && !s.link.stopped
    case Finished => false
    case Detach(AwaitDone) => th.waitOn.Some? ==> IsOver(s, th.waitOn.value)
    case StopDispatch => th.stopped == Some(s.link.connection) ==> DispatcherIdle(s)
    case _ => true
  }

  /**
   Whether the thread's next operation is sure to return. A read blocks until
   its bridge is closed or displaced, and an output send, when the buffer is
   full, until its context is cancelled or the peer's sends are stopped.
   */
  predicate Unblocked(s: State, t: Tid)
    requires t in s.threads
  {
    var th := s.threads[t];
    && CanMove(s, t)
    && (th.at == Own(StreamRead) ==> s.Att(th.mine).bridge.Closed? || IsDisplaced(s, th.mine))
    && (th.at == Own(StreamSend) || th.at == Own(PreStream) ==> s.IsCancelled(th.mine) || s.link.sendsStopped)
  }

  /** The locked region of a detach. */
  function TakeStep(s: State, t: Tid, th: Thread): State {
    var e := s.entry;
    s.(entry := HandlerEntries.Detach(e, th.wait))
     .Set(t, th.(at := Detach(CancelStream), held := e.bridge, cancel := e.cancel,
                 waitOn := if th.wait then e.done else None))
     .With(e.bridge, s.Att(e.bridge).(bridge := Held(t)))
  }

  function CancelStep(s: State, t: Tid, th: Thread): State {
    s.Set(t, th.(at := Detach(CloseBridge), cancel := None)).With(th.cancel, s.Att(th.cancel).(cancelled := true))
  }

  function CloseStep(s: State, t: Tid, th: Thread): State {
    s.Set(t, th.(at := Detach(AwaitDone), held := None))
     .With(th.held, s.Att(th.held).(bridge := Closed, bridgeCloses := s.Att(th.held).bridgeCloses + 1))
  }

  function PlaceBehind(cont: Cont): Place {
    match cont
    case ToOpen => Serve(OpenBridge)
    case ToDetached => Serve(SendDetached)
    case ToSessions => Serve(SendSessions)
    case ToReset => Own(CheckSuperseded)
    case ToEnd => Own(EndStream)
    case ToFinish => Finished
  }

  /** Goes on behind a detach, or behind a pane exit that was already announced. */
  function Resume(s: State, t: Tid, th: Thread): State {
    var s1 := s.Set(t, th.(at := PlaceBehind(th.cont), waitOn := None));
    if th.cont == ToFinish && th.stopped.Some?
    then s1.(link := s.link.(tornDown := s.link.tornDown + {th.stopped.value}))
    else s1
  }

  function InstallStep(s: State, t: Tid, th: Thread): State {
    var n := |s.atts|;
    s.(entry := Register(s.entry, n, th.pane),
       atts := s.atts + [Attachment(InMaps, 0, false, s.agentDown, Live(t), 0, 0, None)])
     .Set(t, th.(at := Own(SendAttached), mine := Some(n)))
  }

  /** Hands the attachment to its stream and starts its watcher. */
  function StartStep(s: State, t: Tid, th: Thread): State {
    if th.mine.None? then s
    else
      var n := th.mine.value;
      s.Set(t, th.(at := Idle, mine := None))
       .Set(Stream(n), RESTING.(at := Own(StreamLoop), mine := Some(n)))
       .Set(Watcher(n), RESTING.(at := Watching))
       .With(th.mine, s.Att(th.mine).(life := Live(Stream(n))))
  }

  /** The locked region of endStream. */
  function EndStep(s: State, t: Tid, th: Thread): State {
    if th.mine.None? then s
    else
      s.(entry := End(s.entry, th.mine.value))
       .Set(t, th.(at := Own(CloseDone)))
       .With(th.mine, s.Att(th.mine).(life := Ending(t)))
  }

  function CloseDoneStep(s: State, t: Tid, th: Thread): State {
    s.Set(t, th.(at := if t == Dispatcher then Idle else Finished, mine := None))
     .With(th.mine, s.Att(th.mine).(life := Over, doneCloses := s.Att(th.mine).doneCloses + 1))
  }

  /** The locked region of handlePaneExit. */
  function ExitStep(s: State, t: Tid, th: Thread): State {
    if MayClaimExit(s.entry) then
      s.(entry := ClaimExit(s.entry))
       .Set(t, th.(at := Exit(SendPaneClosed), exited := s.entry.bridge))
       .With(s.entry.bridge,
             s.Att(s.entry.bridge).(exitClaims := s.Att(s.entry.bridge).exitClaims + 1, claimant := Some(t)))
    else Resume(s, t, th)
  }

  function DispatchStep(s: State, t: Tid, th: Thread, r: Request): State {
    match r
    case AttachTo(pane) => s.Set(t, th.(pane := pane).Detaching(true, ToOpen))
    case DetachNow => s.Set(t, th.Detaching(true, ToDetached))
    case ListNow => s.Set(t, th.(at := Serve(ReadPane)))
    case Ping => s.(entry := s.entry.(pinged := true)).Sent(Notice)
    case OtherRequest => s.Sent(Notice)
  }

  /** A control message that may be lost, its error ignored. */
  function Control(s: State, c: Choice, e: Event): State {
    if c.Works? then s.Sent(e) else s
  }

  /** Ends the thread's own stream: at once when it was cancelled, else by way of a reset. */
  function Failing(s: State, th: Thread): Thread {
    if s.IsCancelled(th.mine) then th.(at := Own(EndStream)) else th.Detaching(false, ToReset)
  }

  predicate IsDisplaced(s: State, n: Option<nat>) {
    n.Some? && n.value < |s.atts| && s.atts[n.value].displaced && !s.atts[n.value].bridge.Closed?
  }

  /** detachPeerWait. */
  function DetachStep(s: State, t: Tid, th: Thread, d: DetachPlace): State {
    match d
    case TakeEntry => TakeStep(s, t, th)
    case CancelStream => CancelStep(s, t, th)
    case CloseBridge => CloseStep(s, t, th)
    case AwaitDone => Resume(s, t, th)
  }

  /** handleListSessions and handleDetach around their detach, and handleAttach until it owns an attachment. */
  function ServeStep(s: State, t: Tid, th: Thread, r: ServePlace, c: Choice): State {
    match r
    case ReadPane =>
      if c.Skips? then s.Sent(Notice).Set(t, th.(at := Idle))
      else if c.Fails? && s.entry.pane.Some? && s.entry.bridge.Some?
      then s.Set(t, th.(at := Serve(SendPaneMissing(s.entry.bridge.value))))
      else s.Set(t, th.(at := Serve(SendSessions)))
    case SendPaneMissing(n) => Control(s, c, PaneMissing(n)).Set(t, th.Detaching(true, ToSessions))
    case SendSessions => Control(s, c, Notice).Set(t, th.(at := Idle))
    case SendDetached => Control(s, c, Detached(|s.atts|)).Set(t, th.(at := Idle))
    case OpenBridge => s.Set(t, th.(at := Serve(if c.Works? then InstallBridge else OpenFailed)))
    case OpenFailed =>
      if c.Skips? then s.Sent(Notice).Set(t, th.(at := Idle))
      else Control(s, c, Notice).Set(t, th.(at := Serve(SendSessions)))
    case InstallBridge => InstallStep(s, t, th)
  }

  /** Where a thread with an attachment of its own goes on. */
  function NextOwn(s: State, th: Thread, o: OwnPlace, c: Choice): Thread {
    match o
    case SendAttached => th.(at := Own(if c.Panics? then PreStreamFailed else PreStream))
    case PreStream => th.(at := Own(PreStreamFailed))
    case PreStreamFailed => Failing(s, th)
    case StreamLoop => th.(at := Own(if s.IsCancelled(th.mine) then EndStream else StreamRead))
    case StreamRead =>
      if c.Works? then th.(at := Own(StreamGot))
      else if c.Panics? then th.Detaching(false, ToEnd)
      else if s.IsCancelled(th.mine) then th.(at := Own(EndStream))
      else if IsDisplaced(s, th.mine) then th.Detaching(false, ToReset)
      else th.Exiting(false, ToEnd)
    case StreamGot =>
      if c.Panics? then th.Detaching(false, ToEnd)
      else if s.IsCancelled(th.mine) then th.(at := Own(EndStream))
      else th.(at := Own(if c.Works? then StreamSend else if c.Fails? then StreamFailed else StreamLoop))
    case StreamSend => th.(at := Own(if c.Works? then StreamLoop else StreamFailed))
    case StreamFailed => Failing(s, th)
    case CheckSuperseded =>
      th.(at := Own(if th.mine.Some? && th.mine.value in s.entry.superseded then EndStream else SendReset))
    case SendReset => th.(at := Own(EndStream))
    case _ => th
  }

  /** What a thread says about its own attachment. */
  function OwnEvent(th: Thread, o: OwnPlace): Event {
    if th.mine.None? then Notice
    else
      match o
      case SendAttached => Attached(th.mine.value)
      case PreStream => Output(th.mine.value)
      case StreamSend => Output(th.mine.value)
      case SendReset => Reset(th.mine.value)
      case _ => Notice
  }

  predicate Speaks(o: OwnPlace) {
    o == SendAttached || o == PreStream || o == StreamSend || o == SendReset
  }

  /** The rest of handleAttach, streamOutput, resetStream and endStream. */
  function OwnStep(s: State, t: Tid, th: Thread, o: OwnPlace, c: Choice): State {
    if o == EndStream then EndStep(s, t, th)
    else if o == CloseDone then CloseDoneStep(s, t, th)
    else
      var s1 := if Speaks(o) then Control(s, c, OwnEvent(th, o)) else s;
      if o == PreStream && !c.Fails? && !c.Panics?
      then StartStep(s1, t, th)
      else s1.Set(t, NextOwn(s, th, o, c))
  }

  /** handlePaneExit. */
  function ExitingStep(s: State, t: Tid, th: Thread, x: ExitPlace, c: Choice): State {
    match x
    case TryExit => ExitStep(s, t, th)
    case SendPaneClosed =>
      (if th.exited.Some? then Control(s, c, PaneClosed(th.exited.value)) else s)
        .Set(t, th.(at := Exit(SendExitSessions), exited := None))
    case SendExitSessions => Control(s, c, Notice).Set(t, th.(at := Detach(TakeEntry)))
  }

  /** The state after thread t's next operation. */
  function Step(s: State, t: Tid, c: Choice): State
    requires t in s.threads
  {
    var th := s.threads[t];
    match th.at
    case Idle => if c.Requested? then DispatchStep(s, t, th, c.request) else s
    case Finished => s
    case Detach(d) => DetachStep(s, t, th, d)
    case Serve(r) => ServeStep(s, t, th, r, c)
    case Own(o) => OwnStep(s, t, th, o, c)
    case Exit(x) => ExitingStep(s, t, th, x, c)
    case Watching =>
      if c.Fails? then s.Set(t, th.Exiting(true, ToFinish))
      else if t.Watcher? && s.IsCancelled(Some(t.att)) then s.Set(t, th.(at := Finished))
      else s
    case StopSends =>
      s.(link := s.link.(sendsStopped := true)).Set(t, th.(at := StopDispatch, stopped := Some(s.link.connection)))
    case StopDispatch =>
      s.(link := s.link.(stopped := s.link.stopped || th.stopped == Some(s.link.connection)))
       .Set(t, th.(at := ForgetPing))
    case ForgetPing => s.(entry := s.entry.(pinged := false)).Set(t, th.Detaching(true, ToFinish))
  }

  // --------------------------------------------------------------- the system

  datatype Action =
    | Move(t: Tid, c: Choice)
    | Disconnect(id: nat, stopsDispatch: bool)
    | ShutDownAgent
    | Displace(att: nat)
    | NextConnection

  predicate Enabled(s: State, a: Action) {
    match a
    case Move(t, _) => t in s.threads && CanMove(s, t)
    case Disconnect(id, _) => Teardown(id) !in s.threads
    case ShutDownAgent => true
    case Displace(n) => n < |s.atts|
    case NextConnection => DispatcherIdle(s)
  }

  function Next(s: State, a: Action): State
    requires Enabled(s, a)
  {
    match a
    case Move(t, c) => Step(s, t, c)
    case Disconnect(id, stopsDispatch) =>
      s.Set(Teardown(id), RESTING.(at := if stopsDispatch then StopSends else ForgetPing))
    case ShutDownAgent =>
      s.(agentDown := true, atts := seq(|s.atts|, i requires 0 <= i < |s.atts| => s.atts[i].(cancelled := true)))
    case Displace(n) => s.With(Some(n), s.atts[n].(displaced := true))
    case NextConnection =>
      s.(link := s.link.(connection := s.link.connection + 1, sendsStopped := false, stopped := false))
  }

  ghost predicate Follows(states: seq<State>, actions: seq<Action>, i: nat)
    requires i < |actions| < |states|
  {
    Enabled(states[i], actions[i]) && states[i + 1] == Next(states[i], actions[i])
  }

  /** A run: each state follows from the one before by the action between them. */
  ghost predicate IsRun(states: seq<State>, actions: seq<Action>) {
    && |states| == |actions| + 1
    && states[0] == INITIAL
    && forall i: nat :: i < |actions| ==> Follows(states, actions, i)
  }
}
