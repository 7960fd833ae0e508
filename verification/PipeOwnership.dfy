/**
 Which bridge a pane's output pipe belongs to. tmux has at most one pipe per
 pane; the client records whose it is. The client's and the bridges' locked
 regions are functions here, which the objects' methods are proved to compute
 and of which the steps of concurrent attaches and closes are made.
 */
module PipeOwnership {
  import opened Common

  type PaneId = string

  // -------------------------------------------------------------- the regions

  datatype Flags = Flags(closed: bool, displaced: bool)

  /** AttachPane records a new owner and keeps the bridge it replaced. */
  function TakeOver(pipes: map<PaneId, nat>, pane: PaneId, bridge: nat): (map<PaneId, nat>, Option<nat>) {
    (pipes[pane := bridge], if pane in pipes then Some(pipes[pane]) else None)
  }

  predicate Owns(pipes: map<PaneId, nat>, pane: PaneId, bridge: nat) {
    pane in pipes && pipes[pane] == bridge
  }

  /** releasePipe forgets the owner, if it is this bridge. */
  function GiveUp(pipes: map<PaneId, nat>, pane: PaneId, bridge: nat): map<PaneId, nat> {
    if Owns(pipes, pane, bridge) then pipes - {pane} else pipes
  }

  /** displace: a closed bridge has nothing left to be told. */
  function Displace(f: Flags): Flags {
    if f.closed then f else f.(displaced := true)
  }

  class PaneBridge {
    const id: nat
    const pane: PaneId
    var closed: bool
    var displaced: bool
    var relayOpen: bool

    ghost function View(): Flags
      reads this
    {
      Flags(closed, displaced)
    }

    /** A displaced bridge's relay is closed, so no read on it blocks. */
    ghost predicate Valid()
      reads this
    {
      displaced ==> !relayOpen
    }

    constructor (id: nat, pane: PaneId)
      ensures Valid() && View() == Flags(false, false) && relayOpen
      ensures this.id == id && this.pane == pane
    {
      this.id, this.pane := id, pane;
      closed, displaced, relayOpen := false, false, true;
    }

    method MarkDisplaced()
      requires Valid()
      modifies this
      ensures Valid() && View() == Displace(old(View()))
      ensures relayOpen == (old(relayOpen) && (old(closed) || old(displaced)))
    {
      if closed || displaced {
        return;
      }
      displaced := true;
      relayOpen := false;
    }

    /** The region at the start of Close: only the first caller goes on. */
    method MarkClosed() returns (first: bool)
      requires Valid()
      modifies this
      ensures Valid() && View() == old(View()).(closed := true) && relayOpen == old(relayOpen)
      ensures first == !old(closed)
    {
      first := !closed;
      closed := true;
    }

    /** What Read makes of its relay's end: a displaced bridge says so until it is closed. */
    method OnRelayEnd() returns (saysDisplaced: bool)
      ensures saysDisplaced <==> displaced && !closed
    {
      saysDisplaced := displaced && !closed;
    }
  }

  class PaneLock {
    constructor () {
    }
  }

  class Client {
    var pipes: map<PaneId, nat>
    var paneLocks: map<PaneId, PaneLock>

    /** Every pane has a lock of its own. */
    ghost predicate Valid()
      reads this
    {
      forall p, q :: p in paneLocks && q in paneLocks && paneLocks[p] == paneLocks[q] ==> p == q
    }

    constructor ()
      ensures Valid() && pipes == map[] && paneLocks == map[]
    {
      pipes, paneLocks := map[], map[];
    }

    /** The lookup in lockPane: a pane keeps the lock it was first given. */
    method LockFor(pane: PaneId) returns (lock: PaneLock)
      requires Valid()
      modifies this`paneLocks
      ensures Valid()
      ensures pane in paneLocks && paneLocks[pane] == lock
      ensures forall p :: p in old(paneLocks) ==> p in paneLocks && paneLocks[p] == old(paneLocks)[p]
      ensures paneLocks.Keys == old(paneLocks).Keys + {pane}
    {
      if pane in paneLocks {
        return paneLocks[pane];
      }
      lock := new PaneLock();
      paneLocks := paneLocks[pane := lock];
    }

    method RecordOwner(pane: PaneId, bridge: nat) returns (prev: Option<nat>)
      modifies this`pipes
      ensures (pipes, prev) == TakeOver(old(pipes), pane, bridge)
    {
      prev := if pane in pipes then Some(pipes[pane]) else None;
      pipes := pipes[pane := bridge];
    }

    method ForgetOwner(pane: PaneId, bridge: nat) returns (owner: bool)
      modifies this`pipes
      ensures pipes == GiveUp(old(pipes), pane, bridge)
      ensures owner <==> Owns(old(pipes), pane, bridge)
    {
      owner := pane in pipes && pipes[pane] == bridge;
      if owner {
        pipes := pipes - {pane};
      }
    }
  }

  // ---------------------------------------------------- attaches and closes

  /** The attach that makes a bridge, or one of the calls that close it. */
  datatype Tid = Attacher(bridge: nat) | Closer(id: nat)

  datatype AttachPlace =
    | WantLock | RunPipe | Record | UnlockAttached | TellPrevious | Returned
    | UnlockFailed | Failed

  datatype ClosePlace = Mark | WantPaneLock | CheckOwner | RunDisable | Unlock | Finished

  datatype Place = Attach(attach: AttachPlace) | Close(close: ClosePlace)

  datatype Thread = Thread(at: Place, bridge: nat, prev: Option<nat>)

  /** Where a bridge stands with its pane's record. */
  datatype Custody = NotYet | Owner | Replaced(newer: nat) | Told | GaveUp

  datatype Bridge = Bridge(pane: PaneId, flags: Flags, custody: Custody)

  /** What a pane's pipe feeds: one of the client's bridges, or a pipe that was there before. */
  datatype Feed = Ours(bridge: nat) | Theirs

  datatype State = State(
    tmux: map<PaneId, Feed>,
    pipes: map<PaneId, nat>,
    locks: map<PaneId, Tid>,
    bridges: seq<Bridge>,
    threads: map<Tid, Thread>
  ) {
    function Set(t: Tid, th: Thread): State {
      this.(threads := threads[t := th])
    }

    function With(b: nat, br: Bridge): State {
      if b < |bridges| then this.(bridges := bridges[b := br]) else this
    }

    function Lock(p: PaneId, t: Tid): State {
      this.(locks := locks[p := t])
    }

    function Release(p: PaneId): State {
      this.(locks := locks - {p})
    }
  }

  ghost predicate Initial(s: State) {
    && s.pipes == map[] && s.locks == map[] && s.bridges == [] && s.threads == map[]
    && forall p :: p in s.tmux ==> s.tmux[p] == Theirs
  }

  predicate CanMove(s: State, t: Tid)
    requires t in s.threads && s.threads[t].bridge < |s.bridges|
  {
    var th := s.threads[t];
    match th.at
    case Attach(a) => if a == WantLock then s.bridges[th.bridge].pane !in s.locks else a != Returned && a != Failed
    case Close(c) => if c == WantPaneLock then s.bridges[th.bridge].pane !in s.locks else c != Finished
  }

  /** AttachPane from its pipe-pane on. A tmux command that fails changes nothing. */
  function AttachStep(s: State, t: Tid, th: Thread, a: AttachPlace, works: bool): State
    requires th.bridge < |s.bridges|
  {
    var b, br := th.bridge, s.bridges[th.bridge];
    match a
    case WantLock => s.Lock(br.pane, t).Set(t, th.(at := Attach(RunPipe)))
    case RunPipe =>
      if works then s.(tmux := s.tmux[br.pane := Ours(b)]).Set(t, th.(at := Attach(Record)))
      else s.Set(t, th.(at := Attach(UnlockFailed)))
    case Record =>
      var (pipes, prev) := TakeOver(s.pipes, br.pane, b);
      var s1 := s.(pipes := pipes)
        .Set(t, th.(at := Attach(UnlockAttached), prev := prev))
        .With(b, br.(custody := Owner));
      if prev.Some? && prev.value < |s.bridges|
      then s1.With(prev.value, s.bridges[prev.value].(custody := Replaced(b)))
      else s1
    case UnlockAttached => s.Release(br.pane).Set(t, th.(at := Attach(TellPrevious)))
    case TellPrevious =>
      var s1 := s.Set(t, th.(at := Attach(Returned), prev := None));
      if th.prev.Some? && th.prev.value < |s.bridges| then
        var told := s.bridges[th.prev.value];
        s1.With(th.prev.value, told.(flags := Displace(told.flags), custody := Told))
      else s1
    case UnlockFailed => s.Release(br.pane).Set(t, th.(at := Attach(Failed)))
    case _ => s
  }

  /** Close, with releasePipe. */
  function CloseStep(s: State, t: Tid, th: Thread, c: ClosePlace, works: bool): State
    requires th.bridge < |s.bridges|
  {
    var b, br := th.bridge, s.bridges[th.bridge];
    match c
    case Mark =>
      if br.flags.closed then s.Set(t, th.(at := Close(Finished)))
      else s.With(b, br.(flags := br.flags.(closed := true))).Set(t, th.(at := Close(WantPaneLock)))
    case WantPaneLock => s.Lock(br.pane, t).Set(t, th.(at := Close(CheckOwner)))
    case CheckOwner =>
      if Owns(s.pipes, br.pane, b) then
        s.(pipes := GiveUp(s.pipes, br.pane, b)).With(b, br.(custody := GaveUp)).Set(t, th.(at := Close(RunDisable)))
      else s.Set(t, th.(at := Close(Unlock)))
    case RunDisable =>
      (if works then s.(tmux := s.tmux - {br.pane}) else s).Set(t, th.(at := Close(Unlock)))
    case Unlock => s.Release(br.pane).Set(t, th.(at := Close(Finished)))
    case Finished => s
  }

  function Step(s: State, t: Tid, works: bool): State
    requires t in s.threads && s.threads[t].bridge < |s.bridges|
  {
    var th := s.threads[t];
    match th.at
    case Attach(a) => AttachStep(s, t, th, a, works)
    case Close(c) => CloseStep(s, t, th, c, works)
  }

  datatype Action =
    | StartAttach(pane: PaneId)
    | StartClose(id: nat, bridge: nat)
    | Move(t: Tid, works: bool)

  /** A bridge can be closed once AttachPane has returned it, by any number of callers. */
  predicate Enabled(s: State, a: Action) {
    match a
    case StartAttach(_) => Attacher(|s.bridges|) !in s.threads
    case StartClose(id, b) =>
      && Closer(id) !in s.threads && b < |s.bridges|
      && Attacher(b) in s.threads && s.threads[Attacher(b)].at == Attach(Returned)
    case Move(t, _) => t in s.threads && s.threads[t].bridge < |s.bridges| && CanMove(s, t)
  }

  function Next(s: State, a: Action): State
    requires Enabled(s, a)
  {
    match a
    case StartAttach(pane) =>
      s.(bridges := s.bridges + [Bridge(pane, Flags(false, false), NotYet)])
       .Set(Attacher(|s.bridges|), Thread(Attach(WantLock), |s.bridges|, None))
    case StartClose(id, b) => s.Set(Closer(id), Thread(Close(Mark), b, None))
    case Move(t, works) => Step(s, t, works)
  }

  ghost predicate Follows(states: seq<State>, actions: seq<Action>, i: nat)
    requires i < |actions| < |states|
  {
    Enabled(states[i], actions[i]) && states[i + 1] == Next(states[i], actions[i])
  }

  ghost predicate IsRun(states: seq<State>, actions: seq<Action>) {
    && |states| == |actions| + 1
    && Initial(states[0])
    && forall i: nat :: i < |actions| ==> Follows(states, actions, i)
  }

  // ------------------------------------------------------------ the invariant

  predicate HoldsLock(at: Place) {
    match at
    case Attach(a) => a == RunPipe || a == Record || a == UnlockAttached || a == UnlockFailed
    case Close(c) => c == CheckOwner || c == RunDisable || c == Unlock
  }

  predicate HoldsPrevious(at: Place) {
    at == Attach(UnlockAttached) || at == Attach(TellPrevious)
  }

  predicate NotInstalled(at: Place) {
    at.Attach? && at.attach in {WantLock, RunPipe, Record, UnlockFailed, Failed}
  }

  ghost predicate BridgeInv(s: State, b: nat) {
    b < |s.bridges| ==>
      var br := s.bridges[b];
      && Attacher(b) in s.threads
      && (br.custody == NotYet <==> NotInstalled(s.threads[Attacher(b)].at))
      && (br.custody == Owner <==> Owns(s.pipes, br.pane, b))
      && (br.custody.Replaced? ==>
            Attacher(br.custody.newer) in s.threads && s.threads[Attacher(br.custody.newer)].prev == Some(b))
      && (br.custody == Told ==> br.flags.displaced || br.flags.closed)
      && (br.custody == GaveUp ==> br.flags.closed)
      && (br.flags.displaced ==> br.custody == Told)
  }

  ghost predicate ThreadInv(s: State, t: Tid) {
    t in s.threads ==>
      var th := s.threads[t];
      && th.bridge < |s.bridges|
      && (t.Attacher? ==> th.at.Attach? && th.bridge == t.bridge)
      && (t.Closer? ==> th.at.Close? && th.prev.None? && s.bridges[th.bridge].custody != NotYet)
      && (t.Closer? && th.at != Close(Mark) ==> s.bridges[th.bridge].flags.closed)
      && (HoldsLock(th.at) ==> s.bridges[th.bridge].pane in s.locks && s.locks[s.bridges[th.bridge].pane] == t)
      && (th.prev.Some? ==>
            && HoldsPrevious(th.at) && t.Attacher? && th.prev.value < |s.bridges|
            && s.bridges[th.prev.value].custody == Replaced(t.bridge))
      && (th.at == Attach(Record) ==>
            s.bridges[th.bridge].pane in s.tmux && s.tmux[s.bridges[th.bridge].pane] == Ours(th.bridge))
      && (th.at == Close(RunDisable) ==>
            && s.bridges[th.bridge].pane !in s.pipes
            && s.bridges[th.bridge].pane in s.tmux && s.tmux[s.bridges[th.bridge].pane] == Ours(th.bridge))
  }

  /** An attach is between giving its bridge the pipe and recording that. */
  ghost predicate Changing(s: State, p: PaneId) {
    p in s.locks && s.locks[p] in s.threads && s.threads[s.locks[p]].at == Attach(Record)
  }

  ghost predicate PaneInv(s: State, p: PaneId) {
    && (p in s.locks ==>
          var t := s.locks[p];
          && t in s.threads && HoldsLock(s.threads[t].at)
          && s.threads[t].bridge < |s.bridges| && s.bridges[s.threads[t].bridge].pane == p)
    && (p in s.pipes ==>
          s.pipes[p] < |s.bridges| && s.bridges[s.pipes[p]].pane == p && s.bridges[s.pipes[p]].custody == Owner)
    && (p in s.pipes && !Changing(s, p) ==> p in s.tmux && s.tmux[p] == Ours(s.pipes[p]))
    && (p in s.tmux && s.tmux[p].Ours? ==>
          var b := s.tmux[p].bridge;
          && b < |s.bridges| && s.bridges[b].pane == p
          && (Owns(s.pipes, p, b) || s.bridges[b].flags.closed || (Changing(s, p) && s.locks[p] == Attacher(b))))
  }

  ghost predicate Inv(s: State) {
    && (forall b: nat :: BridgeInv(s, b))
    && (forall t :: ThreadInv(s, t))
    && (forall p :: PaneInv(s, p))
  }
}
