/** What the record of pipe owners promises over whole runs of concurrent attaches and closes. */
module PipeTheorems {
  import opened Common
  import opened PipeOwnership

  /** The facts about one thread that its next move rests on. */
  ghost predicate Local(s: State, t: Tid) {
    t in s.threads ==>
      && ThreadInv(s, t)
      && BridgeInv(s, s.threads[t].bridge)
      && (s.threads[t].prev.Some? ==> BridgeInv(s, s.threads[t].prev.value))
      && PaneInv(s, s.bridges[s.threads[t].bridge].pane)
  }

  lemma InvIsLocal(s: State, t: Tid)
    requires Inv(s)
    ensures Local(s, t)
  {
    if t in s.threads {
      assert ThreadInv(s, t) && BridgeInv(s, s.threads[t].bridge);
      if s.threads[t].prev.Some? { assert BridgeInv(s, s.threads[t].prev.value); }
    }
  }

  lemma AttachKeepsItself(s: State, t: Tid, a: AttachPlace, works: bool)
    requires t in s.threads && s.threads[t].bridge < |s.bridges| && s.threads[t].at == Attach(a) && CanMove(s, t)
    requires Local(s, t)
    ensures ThreadInv(AttachStep(s, t, s.threads[t], a, works), t)
  {
    match a
    case WantLock =>
    case RunPipe =>
    case Record =>
    case UnlockAttached =>
    case TellPrevious =>
    case UnlockFailed =>
  }

  lemma RecordKeepsOthers(s: State, t: Tid, works: bool, u: Tid)
    requires t in s.threads && s.threads[t].bridge < |s.bridges| && s.threads[t].at == Attach(Record)
    requires Local(s, t) && Local(s, u) && u != t
    ensures ThreadInv(AttachStep(s, t, s.threads[t], Record, works), u)
  {
  }

  lemma TellPreviousKeepsOthers(s: State, t: Tid, works: bool, u: Tid)
    requires t in s.threads && s.threads[t].bridge < |s.bridges| && s.threads[t].at == Attach(TellPrevious)
    requires Local(s, t) && Local(s, u) && u != t
    ensures ThreadInv(AttachStep(s, t, s.threads[t], TellPrevious, works), u)
  {
  }

  lemma AttachKeepsOthers(s: State, t: Tid, a: AttachPlace, works: bool, u: Tid)
    requires t in s.threads && s.threads[t].bridge < |s.bridges| && s.threads[t].at == Attach(a) && CanMove(s, t)
    requires Local(s, t) && Local(s, u) && u != t
    ensures ThreadInv(AttachStep(s, t, s.threads[t], a, works), u)
  {
    match a
    case WantLock =>
    case RunPipe =>
    case Record => RecordKeepsOthers(s, t, works, u);
    case UnlockAttached =>
    case TellPrevious => TellPreviousKeepsOthers(s, t, works, u);
    case UnlockFailed =>
  }

  lemma CloseKeepsItself(s: State, t: Tid, c: ClosePlace, works: bool)
    requires t in s.threads && s.threads[t].bridge < |s.bridges| && s.threads[t].at == Close(c) && CanMove(s, t)
    requires Local(s, t)
    ensures ThreadInv(CloseStep(s, t, s.threads[t], c, works), t)
  {
    match c
    case Mark =>
    case WantPaneLock =>
    case CheckOwner =>
    case RunDisable =>
    case Unlock =>
  }

  lemma CheckOwnerKeepsOthers(s: State, t: Tid, works: bool, u: Tid)
    requires t in s.threads && s.threads[t].bridge < |s.bridges| && s.threads[t].at == Close(CheckOwner)
    requires Local(s, t) && Local(s, u) && u != t
    ensures ThreadInv(CloseStep(s, t, s.threads[t], CheckOwner, works), u)
  {
  }

  lemma MarkKeepsOthers(s: State, t: Tid, works: bool, u: Tid)
    requires t in s.threads && s.threads[t].bridge < |s.bridges| && s.threads[t].at == Close(Mark)
    requires ThreadInv(s, u) && u != t
    ensures ThreadInv(CloseStep(s, t, s.threads[t], Mark, works), u)
  {
  }

  lemma CloseKeepsOthers(s: State, t: Tid, c: ClosePlace, works: bool, u: Tid)
    requires t in s.threads && s.threads[t].bridge < |s.bridges| && s.threads[t].at == Close(c) && CanMove(s, t)
    requires Local(s, t) && Local(s, u) && u != t
    ensures ThreadInv(CloseStep(s, t, s.threads[t], c, works), u)
  {
    match c
    case Mark => MarkKeepsOthers(s, t, works, u);
    case WantPaneLock =>
    case CheckOwner => CheckOwnerKeepsOthers(s, t, works, u);
    case RunDisable =>
    case Unlock =>
  }

  ghost predicate LocalBridge(s: State, b: nat) {
    b < |s.bridges| ==>
      && BridgeInv(s, b) && ThreadInv(s, Attacher(b))
      && (s.bridges[b].custody.Replaced? ==> ThreadInv(s, Attacher(s.bridges[b].custody.newer)))
  }

  lemma RecordKeepsBridge(s: State, t: Tid, works: bool, b: nat)
    requires t in s.threads && s.threads[t].bridge < |s.bridges| && s.threads[t].at == Attach(Record)
    requires Local(s, t) && LocalBridge(s, b)
    ensures BridgeInv(AttachStep(s, t, s.threads[t], Record, works), b)
  {
  }

  lemma TellPreviousKeepsBridge(s: State, t: Tid, works: bool, b: nat)
    requires t in s.threads && s.threads[t].bridge < |s.bridges| && s.threads[t].at == Attach(TellPrevious)
    requires Local(s, t) && LocalBridge(s, b)
    ensures BridgeInv(AttachStep(s, t, s.threads[t], TellPrevious, works), b)
  {
  }

  lemma AttachKeepsBridge(s: State, t: Tid, a: AttachPlace, works: bool, b: nat)
    requires t in s.threads && s.threads[t].bridge < |s.bridges| && s.threads[t].at == Attach(a) && CanMove(s, t)
    requires Local(s, t) && LocalBridge(s, b)
    ensures BridgeInv(AttachStep(s, t, s.threads[t], a, works), b)
  {
    match a
    case WantLock =>
    case RunPipe =>
    case Record => RecordKeepsBridge(s, t, works, b);
    case UnlockAttached =>
    case TellPrevious => TellPreviousKeepsBridge(s, t, works, b);
    case UnlockFailed =>
  }

  lemma MarkKeepsBridge(s: State, t: Tid, works: bool, b: nat)
    requires t in s.threads && s.threads[t].bridge < |s.bridges| && s.threads[t].at == Close(Mark)
    requires Local(s, t) && LocalBridge(s, b)
    ensures BridgeInv(CloseStep(s, t, s.threads[t], Mark, works), b)
  {
  }

  lemma CloseKeepsBridge(s: State, t: Tid, c: ClosePlace, works: bool, b: nat)
    requires t in s.threads && s.threads[t].bridge < |s.bridges| && s.threads[t].at == Close(c) && CanMove(s, t)
    requires Local(s, t) && LocalBridge(s, b)
    ensures BridgeInv(CloseStep(s, t, s.threads[t], c, works), b)
  {
    match c
    case Mark => MarkKeepsBridge(s, t, works, b);
    case WantPaneLock =>
    case CheckOwner =>
    case RunDisable =>
    case Unlock =>
  }

  lemma RecordKeepsPane(s: State, t: Tid, works: bool, p: PaneId)
    requires t in s.threads && s.threads[t].bridge < |s.bridges| && s.threads[t].at == Attach(Record)
    requires Local(s, t) && PaneInv(s, p)
    ensures PaneInv(AttachStep(s, t, s.threads[t], Record, works), p)
  {
  }

  lemma AttachKeepsPane(s: State, t: Tid, a: AttachPlace, works: bool, p: PaneId)
    requires t in s.threads && s.threads[t].bridge < |s.bridges| && s.threads[t].at == Attach(a) && CanMove(s, t)
    requires Local(s, t) && PaneInv(s, p)
    ensures PaneInv(AttachStep(s, t, s.threads[t], a, works), p)
  {
    match a
    case WantLock =>
    case RunPipe =>
    case Record => RecordKeepsPane(s, t, works, p);
    case UnlockAttached =>
    case TellPrevious =>
    case UnlockFailed =>
  }

  lemma CheckOwnerKeepsPane(s: State, t: Tid, works: bool, p: PaneId)
    requires t in s.threads && s.threads[t].bridge < |s.bridges| && s.threads[t].at == Close(CheckOwner)
    requires Local(s, t) && PaneInv(s, p)
    ensures PaneInv(CloseStep(s, t, s.threads[t], CheckOwner, works), p)
  {
  }

  lemma MarkKeepsPane(s: State, t: Tid, works: bool, p: PaneId)
    requires t in s.threads && s.threads[t].bridge < |s.bridges| && s.threads[t].at == Close(Mark)
    requires PaneInv(s, p)
    ensures PaneInv(CloseStep(s, t, s.threads[t], Mark, works), p)
  {
  }

  lemma CloseKeepsPane(s: State, t: Tid, c: ClosePlace, works: bool, p: PaneId)
    requires t in s.threads && s.threads[t].bridge < |s.bridges| && s.threads[t].at == Close(c) && CanMove(s, t)
    requires Local(s, t) && PaneInv(s, p)
    ensures PaneInv(CloseStep(s, t, s.threads[t], c, works), p)
  {
    match c
    case Mark => MarkKeepsPane(s, t, works, p);
    case WantPaneLock =>
    case CheckOwner => CheckOwnerKeepsPane(s, t, works, p);
    case RunDisable =>
    case Unlock =>
  }

  lemma StepKeepsThreads(s: State, t: Tid, works: bool, u: Tid)
    requires Inv(s) && t in s.threads && s.threads[t].bridge < |s.bridges| && CanMove(s, t)
    ensures ThreadInv(Step(s, t, works), u)
  {
    InvIsLocal(s, t);
    InvIsLocal(s, u);
    match s.threads[t].at
    case Attach(a) => if u == t { AttachKeepsItself(s, t, a, works); } else { AttachKeepsOthers(s, t, a, works, u); }
    case Close(c) => if u == t { CloseKeepsItself(s, t, c, works); } else { CloseKeepsOthers(s, t, c, works, u); }
  }

  lemma StepKeepsBridges(s: State, t: Tid, works: bool, b: nat)
    requires Inv(s) && t in s.threads && s.threads[t].bridge < |s.bridges| && CanMove(s, t)
    ensures BridgeInv(Step(s, t, works), b)
  {
    InvIsLocal(s, t);
    assert LocalBridge(s, b) by { assert BridgeInv(s, b); }
    match s.threads[t].at
    case Attach(a) => AttachKeepsBridge(s, t, a, works, b);
    case Close(c) => CloseKeepsBridge(s, t, c, works, b);
  }

  lemma StepKeepsPanes(s: State, t: Tid, works: bool, p: PaneId)
    requires Inv(s) && t in s.threads && s.threads[t].bridge < |s.bridges| && CanMove(s, t)
    ensures PaneInv(Step(s, t, works), p)
  {
    InvIsLocal(s, t);
    match s.threads[t].at
    case Attach(a) => AttachKeepsPane(s, t, a, works, p);
    case Close(c) => CloseKeepsPane(s, t, c, works, p);
  }

  lemma StepKeepsInv(s: State, t: Tid, works: bool)
    requires Inv(s) && t in s.threads && s.threads[t].bridge < |s.bridges| && CanMove(s, t)
    ensures Inv(Step(s, t, works))
  {
    forall b: nat ensures BridgeInv(Step(s, t, works), b) { StepKeepsBridges(s, t, works, b); }
    forall u ensures ThreadInv(Step(s, t, works), u) { StepKeepsThreads(s, t, works, u); }
    forall p ensures PaneInv(Step(s, t, works), p) { StepKeepsPanes(s, t, works, p); }
  }

  lemma StartKeepsInv(s: State, a: Action)
    requires Inv(s) && Enabled(s, a) && !a.Move?
    ensures Inv(Next(s, a))
  {
    var s' := Next(s, a);
    if a.StartAttach? { assert PaneInv(s, a.pane); }
    forall b: nat ensures BridgeInv(s', b) { assert BridgeInv(s, b); }
    forall u ensures ThreadInv(s', u) {
      assert ThreadInv(s, u);
      if a.StartClose? {
        assert BridgeInv(s, a.bridge);
        assert s'.bridges == s.bridges;
      } else if u in s.threads && s.threads[u].prev.Some? {
        assert s'.bridges[s.threads[u].prev.value] == s.bridges[s.threads[u].prev.value];
      }
    }
    forall p ensures PaneInv(s', p) { assert PaneInv(s, p); }
  }

  lemma {:induction false} RunKeepsInv(states: seq<State>, actions: seq<Action>, i: nat)
    requires IsRun(states, actions) && i < |states|
    ensures Inv(states[i])
  {
    if i > 0 {
      RunKeepsInv(states, actions, i - 1);
      assert Follows(states, actions, i - 1);
      if actions[i - 1].Move? {
        StepKeepsInv(states[i - 1], actions[i - 1].t, actions[i - 1].works);
      } else {
        StartKeepsInv(states[i - 1], actions[i - 1]);
      }
    }
  }

  // ------------------------------------------------------------ the theorems

  /**
   While nobody holds a pane's lock, the record and tmux agree: a recorded
   bridge has the pipe, and a bridge that has the pipe is the recorded one,
   unless it was closed and the command that should stop its pipe failed.
   */
  lemma RecordAgreesWithTmux(states: seq<State>, actions: seq<Action>, i: nat, p: PaneId)
    requires IsRun(states, actions) && i < |states| && p !in states[i].locks
    ensures var s := states[i];
            && (p in s.pipes ==> p in s.tmux && s.tmux[p] == Ours(s.pipes[p]))
            && (p in s.tmux && s.tmux[p].Ours? ==>
                  var b := s.tmux[p].bridge;
                  b < |s.bridges| && s.bridges[b].pane == p && (Owns(s.pipes, p, b) || s.bridges[b].flags.closed))
  {
    RunKeepsInv(states, actions, i);
    assert PaneInv(states[i], p);
  }

  /**
   A bridge's pipe stops feeding it only because its own close turned the pipe
   off, or because a newer attach to its pane took the pipe over.
   */
  lemma OnlyItsOwnCloseTurnsAPipeOff(states: seq<State>, actions: seq<Action>, i: nat, p: PaneId, b: nat)
    requires IsRun(states, actions) && i < |actions|
    requires p in states[i].tmux && states[i].tmux[p] == Ours(b)
    requires !(p in states[i + 1].tmux && states[i + 1].tmux[p] == Ours(b))
    ensures actions[i].Move?
    ensures var s, t, tmux := states[i], actions[i].t, states[i + 1].tmux;
            && t in s.threads
            && if p in tmux
               then t.Attacher? && tmux[p] == Ours(t.bridge) && s.threads[t].at == Attach(RunPipe)
               else t.Closer? && s.threads[t].bridge == b && s.threads[t].at == Close(RunDisable)
  {
    RunKeepsInv(states, actions, i);
    assert Follows(states, actions, i);
    if actions[i].Move? {
      var t := actions[i].t;
      assert ThreadInv(states[i], t);
      match states[i].threads[t].at
      case Attach(a) =>
      case Close(c) =>
    }
  }

  predicate Holds(s: State, t: Tid, b: nat) {
    t in s.threads && s.threads[t].prev == Some(b)
  }

  /**
   A bridge that was installed is its pane's owner, or closed or being closed,
   or was told that it is displaced, or is held by the one attach about to tell it.
   */
  lemma NoBridgeIsForgotten(states: seq<State>, actions: seq<Action>, i: nat, b: nat)
    requires IsRun(states, actions) && i < |states| && b < |states[i].bridges|
    requires states[i].bridges[b].custody != NotYet
    ensures var s, br := states[i], states[i].bridges[b];
            || Owns(s.pipes, br.pane, b)
            || br.flags.closed
            || br.flags.displaced
            || exists t :: Holds(s, t, b) && HoldsPrevious(s.threads[t].at)
    ensures forall t, u :: Holds(states[i], t, b) && Holds(states[i], u, b) ==> t == u
  {
    RunKeepsInv(states, actions, i);
    var s := states[i];
    assert BridgeInv(s, b);
    forall t, u | Holds(s, t, b) && Holds(s, u, b) ensures t == u {
      assert ThreadInv(s, t) && ThreadInv(s, u);
    }
    if s.bridges[b].custody.Replaced? {
      var t := Attacher(s.bridges[b].custody.newer);
      assert Holds(s, t, b) && ThreadInv(s, t);
    }
  }

  /** The owner was never told that it is displaced, and a displaced bridge never owns its pane again. */
  lemma OwnersAreNotDisplaced(states: seq<State>, actions: seq<Action>, i: nat, b: nat)
    requires IsRun(states, actions) && i < |states| && b < |states[i].bridges|
    requires Owns(states[i].pipes, states[i].bridges[b].pane, b)
    ensures !states[i].bridges[b].flags.displaced
  {
    RunKeepsInv(states, actions, i);
    assert BridgeInv(states[i], b);
  }

  /** The next move of t tells b, or brings t to the place where it does. */
  ghost predicate TellsNext(s: State, t: Tid, b: nat)
    requires t in s.threads && s.threads[t].bridge < |s.bridges|
  {
    var s' := Step(s, t, true);
    && b < |s'.bridges|
    && if s.threads[t].at == Attach(TellPrevious)
       then s'.bridges[b].flags.displaced || s'.bridges[b].flags.closed
       else Holds(s', t, b) && s'.threads[t].at == Attach(TellPrevious)
  }

  lemma HolderTells(s: State, t: Tid, b: nat)
    requires ThreadInv(s, t) && Holds(s, t, b)
    ensures CanMove(s, t) && TellsNext(s, t, b)
  {
    match s.threads[t].at.attach
    case UnlockAttached =>
    case TellPrevious =>
  }

  /** An attach that holds a replaced bridge never waits, and tells it with its second move at the latest. */
  lemma HeldBridgesAreTold(states: seq<State>, actions: seq<Action>, i: nat, t: Tid, b: nat)
    requires IsRun(states, actions) && i < |states| && Holds(states[i], t, b)
    ensures t in states[i].threads && states[i].threads[t].bridge < |states[i].bridges|
    ensures CanMove(states[i], t) && TellsNext(states[i], t, b)
  {
    RunKeepsInv(states, actions, i);
    assert ThreadInv(states[i], t);
    HolderTells(states[i], t, b);
  }

  /** One thread at a time is behind a pane's lock, and it can move. */
  lemma LockHoldersMove(states: seq<State>, actions: seq<Action>, i: nat, p: PaneId)
    requires IsRun(states, actions) && i < |states| && p in states[i].locks
    ensures var s, t := states[i], states[i].locks[p];
            && t in s.threads && s.threads[t].bridge < |s.bridges| && CanMove(s, t)
            && forall u :: (u in s.threads && HoldsLock(s.threads[u].at) && s.threads[u].bridge < |s.bridges|
                            && s.bridges[s.threads[u].bridge].pane == p) ==> u == t
  {
    RunKeepsInv(states, actions, i);
    var s := states[i];
    assert PaneInv(s, p);
    forall u | u in s.threads && HoldsLock(s.threads[u].at) && s.threads[u].bridge < |s.bridges|
      && s.bridges[s.threads[u].bridge].pane == p
      ensures u == s.locks[p]
    {
      assert ThreadInv(s, u);
    }
  }

  /** How many moves a thread behind a pane's lock makes until it releases the lock. */
  function HoldLeft(at: Place): nat {
    match at
    case Attach(RunPipe) => 3
    case Attach(Record) => 2
    case Attach(UnlockAttached) => 1
    case Attach(UnlockFailed) => 1
    case Close(CheckOwner) => 3
    case Close(RunDisable) => 2
    case Close(Unlock) => 1
    case _ => 0
  }

  function LeftToRelease(s: State, t: Tid): nat {
    if t in s.threads then HoldLeft(s.threads[t].at) else 0
  }

  function MovesOf(actions: seq<Action>, t: Tid, i: nat, j: nat): nat
    requires i <= j <= |actions|
    decreases j
  {
    if i == j then 0
    else MovesOf(actions, t, i, j - 1) + if actions[j - 1].Move? && actions[j - 1].t == t then 1 else 0
  }

  predicate HasLock(s: State, p: PaneId, t: Tid) {
    p in s.locks && s.locks[p] == t && t in s.threads
  }

  lemma OwnMoveShortensHold(s: State, t: Tid, works: bool, p: PaneId)
    requires PaneInv(s, p) && HasLock(s, p, t) && CanMove(s, t) && HasLock(Step(s, t, works), p, t)
    ensures LeftToRelease(Step(s, t, works), t) < LeftToRelease(s, t)
  {
    match s.threads[t].at
    case Attach(_) =>
    case Close(_) =>
  }

  lemma HoldFalls(s: State, a: Action, p: PaneId, t: Tid)
    requires PaneInv(s, p) && Enabled(s, a) && HasLock(s, p, t) && HasLock(Next(s, a), p, t)
    ensures var before, after := LeftToRelease(s, t), LeftToRelease(Next(s, a), t);
            if a.Move? && a.t == t then after < before else after == before
  {
    if a.Move? && a.t == t {
      OwnMoveShortensHold(s, t, a.works, p);
    } else if a.Move? {
      match s.threads[a.t].at
      case Attach(_) =>
      case Close(_) =>
    }
  }

  /**
   Nobody waits for a lock forever: whoever has it releases it after at most
   three moves of its own, each of which it can make, and no other step sets
   that back.
   */
  lemma {:induction false} LocksAreReleased(states: seq<State>, actions: seq<Action>, p: PaneId, t: Tid, i: nat, j: nat)
    requires IsRun(states, actions) && i <= j < |states|
    requires forall k :: i <= k <= j ==> HasLock(states[k], p, t)
    ensures MovesOf(actions, t, i, j) + LeftToRelease(states[j], t) <= LeftToRelease(states[i], t) <= 3
    ensures 0 < LeftToRelease(states[j], t) && t in states[j].threads
    ensures states[j].threads[t].bridge < |states[j].bridges| && CanMove(states[j], t)
    decreases j
  {
    RunKeepsInv(states, actions, j);
    assert PaneInv(states[j], p);
    if i < j {
      LocksAreReleased(states, actions, p, t, i, j - 1);
      RunKeepsInv(states, actions, j - 1);
      assert Follows(states, actions, j - 1);
      assert PaneInv(states[j - 1], p);
      HoldFalls(states[j - 1], actions[j - 1], p, t);
    }
  }
}
