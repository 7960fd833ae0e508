/** Where a pane's pipe ends up: with the attach that took it, and with nobody behind a close. */
module PipeReleases {
  import opened Common
  import opened PipeOwnership
  import opened PipeTheorems

  predicate Feeds(s: State, p: PaneId, b: nat) {
    p in s.tmux && s.tmux[p] == Ours(b)
  }

  // ---------------------------------------------------- a pipe that was turned off

  /** The bridge was installed once and has no pipe. */
  ghost predicate IsDry(s: State, b: nat) {
    && b < |s.bridges| && s.bridges[b].custody != NotYet
    && forall p :: !Feeds(s, p, b)
  }

  /** The command of a close that works takes its bridge's pipe away, and leaves every other pane's pipe alone. */
  lemma DisableDries(s: State, t: Tid)
    requires Inv(s) && t in s.threads && s.threads[t].at == Close(RunDisable)
    ensures s.threads[t].bridge < |s.bridges| && IsDry(Step(s, t, true), s.threads[t].bridge)
    ensures Step(s, t, true).tmux == s.tmux - {s.bridges[s.threads[t].bridge].pane}
  {
    assert ThreadInv(s, t);
    var b := s.threads[t].bridge;
    forall p ensures !Feeds(Step(s, t, true), p, b) { assert PaneInv(s, p); }
  }

  /** Only the attach that made a bridge gives it a pipe. */
  lemma FedByItsAttach(s: State, a: Action, p: PaneId, b: nat)
    requires Inv(s) && Enabled(s, a) && !Feeds(s, p, b) && Feeds(Next(s, a), p, b)
    ensures a.Move? && a.t == Attacher(b) && s.threads[a.t].at == Attach(RunPipe)
    ensures b < |s.bridges| && s.bridges[b].custody == NotYet
  {
    assert a.Move?;
    assert ThreadInv(s, a.t);
    match s.threads[a.t].at
    case Attach(_) => assert BridgeInv(s, b);
    case Close(_) =>
  }

  lemma FedOnlyByAttach(s: State, a: Action, p: PaneId, b: nat)
    requires Inv(s) && Enabled(s, a) && Feeds(Next(s, a), p, b)
    requires a.Move? ==> s.threads[a.t].at.Close?
    ensures Feeds(s, p, b)
  {
    if !Feeds(s, p, b) { FedByItsAttach(s, a, p, b); }
  }

  lemma NothingNewIsFed(s: State, a: Action, s': State, b: nat)
    requires Inv(s) && Enabled(s, a) && (a.Move? ==> s.threads[a.t].at.Close?) && s' == Next(s, a)
    ensures forall p :: Feeds(s', p, b) ==> Feeds(s, p, b)
  {
    forall p: PaneId | Feeds(s', p, b) ensures Feeds(s, p, b) { FedOnlyByAttach(s, a, p, b); }
  }

  lemma StaysInstalled(s: State, a: Action, b: nat)
    requires Enabled(s, a) && b < |s.bridges| && s.bridges[b].custody != NotYet
    ensures b < |Next(s, a).bridges| && Next(s, a).bridges[b].custody != NotYet
  {
    if a.Move? {
      match s.threads[a.t].at
      case Attach(_) =>
      case Close(_) =>
    }
  }

  lemma {:induction false} DryStaysDry(states: seq<State>, actions: seq<Action>, i: nat, j: nat, b: nat)
    requires IsRun(states, actions) && i <= j < |states| && IsDry(states[i], b)
    ensures IsDry(states[j], b)
    decreases j
  {
    if i < j {
      DryStaysDry(states, actions, i, j - 1, b);
      DryByOne(states, actions, j - 1, b);
    }
  }

  lemma DryByOne(states: seq<State>, actions: seq<Action>, i: nat, b: nat)
    requires IsRun(states, actions) && i < |actions| && IsDry(states[i], b)
    ensures IsDry(states[i + 1], b)
  {
    RunKeepsInv(states, actions, i);
    assert Follows(states, actions, i);
    StaysInstalled(states[i], actions[i], b);
    var s' := states[i + 1];
    forall p: PaneId ensures !Feeds(s', p, b) {
      if Feeds(s', p, b) { FedByItsAttach(states[i], actions[i], p, b); }
    }
  }

  /**
   When the pipe-pane command of a close works, no pane's pipe feeds its bridge
   in any later state, and no other pane's pipe changes.
   */
  lemma ClosedPipesStayOff(states: seq<State>, actions: seq<Action>, i: nat, j: nat, t: Tid)
    requires IsRun(states, actions) && i < |actions| && i < j < |states| && actions[i] == Move(t, true)
    requires t in states[i].threads && states[i].threads[t].at == Close(RunDisable)
    ensures var s, b := states[i], states[i].threads[t].bridge;
            && b < |s.bridges| && states[i + 1].tmux == s.tmux - {s.bridges[b].pane}
            && forall p :: !Feeds(states[j], p, b)
  {
    RunKeepsInv(states, actions, i);
    assert Follows(states, actions, i);
    DisableDries(states[i], t);
    DryStaysDry(states, actions, i + 1, j, states[i].threads[t].bridge);
  }

  // ------------------------------------------- a closed bridge that keeps its pipe

  /** The first call to close the bridge has not run its pipe-pane command yet. */
  predicate IsClosing(s: State, t: Tid, b: nat) {
    && t in s.threads && s.threads[t].bridge == b
    && (s.threads[t].at == Close(WantPaneLock) || s.threads[t].at == Close(CheckOwner)
        || s.threads[t].at == Close(RunDisable))
  }

  /** What a close rests on: its bridge was installed, it is the only one, and nobody else gave up the record. */
  ghost predicate ReleaseInv(s: State, b: nat) {
    b < |s.bridges| ==>
      var br := s.bridges[b];
      && (br.flags.closed ==> br.custody != NotYet)
      && (forall t :: IsClosing(s, t, b) ==> br.flags.closed)
      && (forall t, u :: IsClosing(s, t, b) && IsClosing(s, u, b) ==> t == u)
      && (br.custody == GaveUp ==> forall t :: IsClosing(s, t, b) ==> s.threads[t].at == Close(RunDisable))
      && (br.custody.Replaced? || br.custody.Told? ==> forall p :: !Feeds(s, p, b))
  }

  /** A thread's step moves only that thread, and not to another bridge. */
  lemma StepMovesOne(s: State, t: Tid, works: bool, u: Tid)
    requires t in s.threads && s.threads[t].bridge < |s.bridges|
    ensures u in Step(s, t, works).threads <==> u in s.threads
    ensures u in s.threads && u != t ==> Step(s, t, works).threads[u] == s.threads[u]
  {
    match s.threads[t].at
    case Attach(a) => AttachMovesOne(s, t, a, works, u);
    case Close(c) => CloseMovesOne(s, t, c, works, u);
  }

  lemma AttachMovesOne(s: State, t: Tid, a: AttachPlace, works: bool, u: Tid)
    requires t in s.threads && s.threads[t].bridge < |s.bridges|
    ensures u in AttachStep(s, t, s.threads[t], a, works).threads <==> u in s.threads
    ensures u in s.threads && u != t ==> AttachStep(s, t, s.threads[t], a, works).threads[u] == s.threads[u]
    ensures s.threads[t].at.Attach? ==> AttachStep(s, t, s.threads[t], a, works).threads[t].at.Attach?
  {
    match a
    case Record =>
    case TellPrevious =>
    case _ =>
  }

  lemma CloseMovesOne(s: State, t: Tid, c: ClosePlace, works: bool, u: Tid)
    requires t in s.threads && s.threads[t].bridge < |s.bridges|
    ensures u in CloseStep(s, t, s.threads[t], c, works).threads <==> u in s.threads
    ensures u in s.threads && u != t ==> CloseStep(s, t, s.threads[t], c, works).threads[u] == s.threads[u]
  {
    match c
    case Mark =>
    case CheckOwner =>
    case _ =>
  }

  lemma CloseMovesOn(s: State, t: Tid, c: ClosePlace, works: bool, b: nat)
    requires t in s.threads && s.threads[t].bridge < |s.bridges| && s.threads[t].at == Close(c)
    requires IsClosing(CloseStep(s, t, s.threads[t], c, works), t, b)
    ensures s.threads[t].bridge == b
    ensures IsClosing(s, t, b) || (c == Mark && !s.bridges[b].flags.closed)
  {
    match c
    case Mark =>
    case WantPaneLock =>
    case CheckOwner =>
    case RunDisable =>
    case Unlock =>
    case Finished =>
  }

  /** A step of another thread, or for another bridge, leaves who is closing as it was. */
  lemma ClosingBefore(s: State, a: Action, t: Tid, b: nat)
    requires Enabled(s, a) && IsClosing(Next(s, a), t, b)
    ensures IsClosing(s, t, b) || (a.Move? && a.t == t && t in s.threads && s.threads[t].at == Close(Mark)
              && s.threads[t].bridge == b && b < |s.bridges| && !s.bridges[b].flags.closed)
  {
    if a.Move? {
      StepMovesOne(s, a.t, a.works, t);
      if a.t == t {
        match s.threads[t].at
        case Attach(p) => AttachMovesOne(s, t, p, a.works, t);
        case Close(c) => CloseMovesOn(s, t, c, a.works, b);
      }
    }
  }

  /** Replaced on record means replaced in tmux: the newer attach has given its own bridge the pipe. */
  lemma ReplacedIsDry(s: State, t: Tid, b: nat, p: PaneId)
    requires Inv(s) && t in s.threads && s.threads[t].at == Attach(Record)
    requires b < |s.bridges| && Owns(s.pipes, s.bridges[b].pane, b)
    requires s.threads[t].bridge < |s.bridges| && s.bridges[s.threads[t].bridge].pane == s.bridges[b].pane
    ensures !Feeds(s, p, b)
  {
    assert ThreadInv(s, t) && BridgeInv(s, b) && PaneInv(s, p) && BridgeInv(s, s.threads[t].bridge);
  }

  /** An attach moves a bridge it does not own only from owner to replaced, or on from there. */
  lemma AttachReplaces(s: State, t: Tid, works: bool, b: nat)
    requires Inv(s) && Enabled(s, Move(t, works)) && s.threads[t].at.Attach? && b < |s.bridges|
    ensures var s' := Step(s, t, works);
            && b < |s'.bridges| && s'.bridges[b].flags.closed == s.bridges[b].flags.closed
            && (s'.bridges[b].custody.GaveUp? ==> s.bridges[b].custody.GaveUp?)
            && (s'.bridges[b].custody == NotYet ==> s.bridges[b].custody == NotYet)
            && (s'.bridges[b].custody.Told? ==> s.bridges[b].custody.Told? || s.bridges[b].custody.Replaced?)
            && (s'.bridges[b].custody.Replaced? && !s.bridges[b].custody.Replaced? ==>
                  && s.threads[t].at == Attach(Record) && Owns(s.pipes, s.bridges[b].pane, b)
                  && s.bridges[s.threads[t].bridge].pane == s.bridges[b].pane)
  {
    assert ThreadInv(s, t) && PaneInv(s, s.bridges[s.threads[t].bridge].pane);
    match s.threads[t].at.attach
    case Record =>
    case TellPrevious =>
    case _ =>
  }

  lemma AttachKeepsRelease(s: State, t: Tid, works: bool, b: nat)
    requires Inv(s) && Enabled(s, Move(t, works)) && s.threads[t].at.Attach? && ReleaseInv(s, b)
    ensures b < |s.bridges| ==> ReleaseInv(Step(s, t, works), b)
  {
    if b < |s.bridges| {
      var s' := Step(s, t, works);
      AttachReplaces(s, t, works, b);
      forall u ensures IsClosing(s', u, b) ==> IsClosing(s, u, b) && s'.threads[u] == s.threads[u] {
        if IsClosing(s', u, b) { ClosingBefore(s, Move(t, works), u, b); }
      }
      forall p: PaneId ensures s'.bridges[b].custody.Replaced? || s'.bridges[b].custody.Told? ==> !Feeds(s', p, b) {
        if Feeds(s', p, b) && !Feeds(s, p, b) { FedByItsAttach(s, Move(t, works), p, b); }
        if s'.bridges[b].custody.Replaced? && !s.bridges[b].custody.Replaced? {
          ReplacedIsDry(s, t, b, p);
        }
      }
    }
  }

  // ------------------------------------------------------ what the moves of a close do

  lemma MarkKeepsRelease(s: State, t: Tid, works: bool, b: nat)
    requires Inv(s) && Enabled(s, Move(t, works)) && s.threads[t].at == Close(Mark) && ReleaseInv(s, b)
    ensures b < |s.bridges| ==> ReleaseInv(Step(s, t, works), b)
  {
    if b < |s.bridges| {
      var s' := Step(s, t, works);
      assert ThreadInv(s, t) && BridgeInv(s, b);
      NothingNewIsFed(s, Move(t, works), s', b);
      forall u ensures IsClosing(s', u, b) ==>
          IsClosing(s, u, b) || (u == t && s.threads[t].bridge == b && !s.bridges[b].flags.closed) {
        if IsClosing(s', u, b) { ClosingBefore(s, Move(t, works), u, b); }
      }
    }
  }

  lemma CheckOwnerKeepsRelease(s: State, t: Tid, works: bool, b: nat)
    requires Inv(s) && Enabled(s, Move(t, works)) && s.threads[t].at == Close(CheckOwner) && ReleaseInv(s, b)
    ensures b < |s.bridges| ==> ReleaseInv(Step(s, t, works), b)
  {
    if b < |s.bridges| {
      var s' := Step(s, t, works);
      assert ThreadInv(s, t);
      assert IsClosing(s, t, s.threads[t].bridge);
      NothingNewIsFed(s, Move(t, works), s', b);
      forall u ensures IsClosing(s', u, b) ==> IsClosing(s, u, b) && (u != t ==> s'.threads[u] == s.threads[u]) {
        if IsClosing(s', u, b) { ClosingBefore(s, Move(t, works), u, b); }
      }
    }
  }

  lemma CloseKeepsRelease(s: State, t: Tid, works: bool, b: nat)
    requires Inv(s) && Enabled(s, Move(t, works)) && s.threads[t].at.Close? && ReleaseInv(s, b)
    ensures b < |s.bridges| ==> ReleaseInv(Step(s, t, works), b)
  {
    if s.threads[t].at == Close(Mark) {
      MarkKeepsRelease(s, t, works, b);
    } else if s.threads[t].at == Close(CheckOwner) {
      CheckOwnerKeepsRelease(s, t, works, b);
    } else if b < |s.bridges| {
      WalkingKeepsRelease(s, t, works, b);
    }
  }

  lemma WalkingKeepsRelease(s: State, t: Tid, works: bool, b: nat)
    requires Inv(s) && Enabled(s, Move(t, works)) && s.threads[t].at.Close? && ReleaseInv(s, b) && b < |s.bridges|
    requires s.threads[t].at.close in {WantPaneLock, RunDisable, Unlock}
    ensures ReleaseInv(Step(s, t, works), b)
  {
    var s' := Step(s, t, works);
    NothingNewIsFed(s, Move(t, works), s', b);
    forall u ensures IsClosing(s', u, b) ==>
        IsClosing(s, u, b) && (s.threads[u].at == Close(RunDisable) ==> s'.threads[u] == s.threads[u]) {
      if IsClosing(s', u, b) { ClosingBefore(s, Move(t, works), u, b); }
    }
  }

  lemma StartKeepsRelease(s: State, a: Action, b: nat)
    requires Inv(s) && Enabled(s, a) && !a.Move? && ReleaseInv(s, b)
    ensures ReleaseInv(Next(s, a), b)
  {
    var s' := Next(s, a);
    NothingNewIsFed(s, a, s', b);
    forall u ensures IsClosing(s', u, b) ==> IsClosing(s, u, b) && s'.threads[u] == s.threads[u] {
      if IsClosing(s', u, b) { ClosingBefore(s, a, u, b); }
    }
    forall u | IsClosing(s, u, b) ensures b < |s.bridges| { assert ThreadInv(s, u); }
  }

  lemma NextKeepsRelease(s: State, a: Action, b: nat)
    requires Inv(s) && Enabled(s, a) && ReleaseInv(s, b)
    ensures ReleaseInv(Next(s, a), b)
  {
    if !a.Move? {
      StartKeepsRelease(s, a, b);
    } else if b < |s.bridges| {
      if s.threads[a.t].at.Attach? {
        AttachKeepsRelease(s, a.t, a.works, b);
      } else {
        CloseKeepsRelease(s, a.t, a.works, b);
      }
    } else {
      MovesMakeNoBridge(s, a.t, a.works);
    }
  }

  lemma MovesMakeNoBridge(s: State, t: Tid, works: bool)
    requires Enabled(s, Move(t, works))
    ensures |Step(s, t, works).bridges| == |s.bridges|
  {
    match s.threads[t].at
    case Attach(_) =>
    case Close(_) =>
  }

  lemma {:induction false} RunKeepsRelease(states: seq<State>, actions: seq<Action>, i: nat, b: nat)
    requires IsRun(states, actions) && i < |states|
    ensures ReleaseInv(states[i], b)
  {
    if i > 0 {
      RunKeepsRelease(states, actions, i - 1, b);
      RunKeepsInv(states, actions, i - 1);
      assert Follows(states, actions, i - 1);
      NextKeepsRelease(states[i - 1], actions[i - 1], b);
    }
  }

  // ------------------------------------------------------------------ whole runs

  /** The pipe-pane command of a close of this bridge fails. */
  predicate DisableFails(s: State, a: Action, b: nat) {
    && a.Move? && !a.works && a.t in s.threads
    && s.threads[a.t].at == Close(RunDisable) && s.threads[a.t].bridge == b
  }

  ghost predicate IsBeingClosed(s: State, b: nat) {
    exists t :: IsClosing(s, t, b)
  }

  ghost predicate HasFailedBefore(states: seq<State>, actions: seq<Action>, i: nat, b: nat)
    requires i <= |actions| < |states|
  {
    exists k: nat :: k < i && DisableFails(states[k], actions[k], b)
  }

  /** A close under way goes on, until its command has failed or the bridge has no pipe. */
  lemma ClosingGoesOn(s: State, t: Tid, works: bool, p: PaneId, b: nat)
    requires Inv(s) && ReleaseInv(s, b) && Enabled(s, Move(t, works)) && b < |s.bridges| && IsClosing(s, t, b)
    requires Feeds(Step(s, t, works), p, b)
    ensures IsClosing(Step(s, t, works), t, b) || DisableFails(s, Move(t, works), b)
  {
    assert ThreadInv(s, t) && BridgeInv(s, b) && PaneInv(s, p);
    FedOnlyByAttach(s, Move(t, works), p, b);
    match s.threads[t].at.close
    case WantPaneLock =>
    case CheckOwner =>
    case RunDisable => if works { DisableDries(s, t); }
  }

  lemma BystandersGoOn(s: State, a: Action, t: Tid, b: nat)
    requires Enabled(s, a) && IsClosing(s, t, b) && !(a.Move? && a.t == t)
    ensures IsClosing(Next(s, a), t, b)
  {
    if a.Move? { StepMovesOne(s, a.t, a.works, t); }
  }

  lemma CloseMarks(s: State, t: Tid, c: ClosePlace, works: bool, b: nat)
    requires t in s.threads && s.threads[t].bridge < |s.bridges| && s.threads[t].at == Close(c) && b < |s.bridges|
    requires !s.bridges[b].flags.closed && CloseStep(s, t, s.threads[t], c, works).bridges[b].flags.closed
    ensures IsClosing(CloseStep(s, t, s.threads[t], c, works), t, b)
  {
    match c
    case Mark =>
    case WantPaneLock =>
    case CheckOwner =>
    case RunDisable =>
    case Unlock =>
    case Finished =>
  }

  /** Only a first call to close marks a bridge closed. */
  lemma MarkedByItsClose(s: State, a: Action, b: nat)
    requires Inv(s) && Enabled(s, a) && b < |s.bridges|
    requires !s.bridges[b].flags.closed && Next(s, a).bridges[b].flags.closed
    ensures IsBeingClosed(Next(s, a), b)
  {
    assert a.Move?;
    if s.threads[a.t].at.Attach? {
      AttachReplaces(s, a.t, a.works, b);
    } else {
      CloseMarks(s, a.t, s.threads[a.t].at.close, a.works, b);
    }
  }

  /** A closed bridge keeps its pipe only as long as its close is under way, unless that close's command fails. */
  lemma FeedsOnlyByFailure(s: State, a: Action, p: PaneId, b: nat)
    requires Inv(s) && ReleaseInv(s, b) && Enabled(s, a) && b < |s.bridges|
    requires Feeds(Next(s, a), p, b) && Next(s, a).bridges[b].flags.closed
    ensures IsBeingClosed(Next(s, a), b) || DisableFails(s, a, b)
         || (!IsBeingClosed(s, b) && Feeds(s, p, b) && s.bridges[b].flags.closed)
  {
    if !s.bridges[b].flags.closed {
      MarkedByItsClose(s, a, b);
    } else if t :| IsClosing(s, t, b) {
      if a.Move? && a.t == t { ClosingGoesOn(s, t, a.works, p, b); } else { BystandersGoOn(s, a, t, b); }
    } else if !Feeds(s, p, b) {
      FedByItsAttach(s, a, p, b);
    }
  }

  lemma NewBridgesAreOpen(s: State, a: Action, b: nat)
    requires Enabled(s, a) && |s.bridges| <= b < |Next(s, a).bridges|
    ensures !Next(s, a).bridges[b].flags.closed
  {
    if a.Move? { MovesMakeNoBridge(s, a.t, a.works); }
  }

  /**
   A closed bridge whose close is not under way any more has a pipe only if the
   pipe-pane command of its close has failed: neither the check of the record
   nor a newer attach ever makes a close leave its own pipe on.
   */
  lemma {:induction false} KeptOnlyByFailure(states: seq<State>, actions: seq<Action>, i: nat, p: PaneId, b: nat)
    requires IsRun(states, actions) && i < |states| && b < |states[i].bridges|
    requires Feeds(states[i], p, b) && states[i].bridges[b].flags.closed && !IsBeingClosed(states[i], b)
    ensures HasFailedBefore(states, actions, i, b)
  {
    assert i > 0;
    var s, a := states[i - 1], actions[i - 1];
    RunKeepsInv(states, actions, i - 1);
    RunKeepsRelease(states, actions, i - 1, b);
    assert Follows(states, actions, i - 1);
    if b < |s.bridges| {
      FeedsOnlyByFailure(s, a, p, b);
      if !DisableFails(s, a, b) { KeptOnlyByFailure(states, actions, i - 1, p, b); }
    } else {
      NewBridgesAreOpen(s, a, b);
    }
  }

  // ------------------------------------------------------- with everything working

  /** These actions, one after the other, lead from one state to the other. */
  ghost predicate Leads(s: State, actions: seq<Action>, s': State)
    decreases |actions|
  {
    if actions == [] then s == s' else Enabled(s, actions[0]) && Leads(Next(s, actions[0]), actions[1..], s')
  }

  lemma First(s: State, a: Action, rest: seq<Action>, s': State)
    requires Enabled(s, a) && Leads(Next(s, a), rest, s')
    ensures Leads(s, [a] + rest, s')
  {
    assert ([a] + rest)[1..] == rest;
  }

  function Moves(t: Tid, n: nat): seq<Action> {
    if n == 0 then [] else [Move(t, true)] + Moves(t, n - 1)
  }

  /** What an attach that works leaves: its bridge has the pipe and the record, and the bridge it replaced knows. */
  ghost predicate TakesThePipe(s: State, s': State, p: PaneId) {
    var b := |s.bridges|;
    && |s'.bridges| == b + 1
    && s'.tmux == s.tmux[p := Ours(b)] && s'.pipes == s.pipes[p := b] && s'.locks == s.locks
    && (p in s.pipes && s.pipes[p] < b ==>
          var f := s'.bridges[s.pipes[p]].flags;
          f == Flags(s.bridges[s.pipes[p]].flags.closed, !s.bridges[s.pipes[p]].flags.closed))
    && forall o :: 0 <= o < b && !Owns(s.pipes, p, o) ==> s'.bridges[o] == s.bridges[o]
  }

  /** One more move of a thread in front of others. */
  lemma MoveFirst(s: State, t: Tid, n: nat, s': State)
    requires n > 0 && Enabled(s, Move(t, true)) && Leads(Step(s, t, true), Moves(t, n - 1), s')
    ensures Leads(s, Moves(t, n), s')
  {
    First(s, Move(t, true), Moves(t, n - 1), s');
  }

  /** An attach with its pane's lock: it records itself, releases the lock and tells the bridge it replaced. */
  lemma RecordsAndTells(s: State, t: Tid, p: PaneId) returns (s': State)
    requires t in s.threads && t.Attacher? && t.bridge < |s.bridges| && p in s.locks
    requires s.threads[t] == Thread(Attach(Record), t.bridge, None)
    requires s.bridges[t.bridge] == Bridge(p, Flags(false, false), NotYet)
    requires p in s.pipes ==> s.pipes[p] < t.bridge && !s.bridges[s.pipes[p]].flags.displaced
    ensures Leads(s, Moves(t, 3), s')
    ensures |s'.bridges| == |s.bridges| && s'.tmux == s.tmux && s'.pipes == s.pipes[p := t.bridge]
    ensures s'.locks == s.locks - {p}
    ensures p in s.pipes ==>
      var f := s.bridges[s.pipes[p]].flags; s'.bridges[s.pipes[p]].flags == Flags(f.closed, !f.closed)
    ensures forall o :: 0 <= o < |s.bridges| && o != t.bridge && !Owns(s.pipes, p, o) ==> s'.bridges[o] == s.bridges[o]
  {
    var s1 := Step(s, t, true);
    var s2 := Step(s1, t, true);
    s' := Step(s2, t, true);
    assert s2.threads[t].at == Attach(TellPrevious);
    MoveFirst(s2, t, 1, s');
    MoveFirst(s1, t, 2, s');
    MoveFirst(s, t, 3, s');
  }

  /** A new attach that has its pane's lock and has given its bridge the pipe. */
  function Piped(s: State, p: PaneId): State {
    var b := |s.bridges|;
    s.(tmux := s.tmux[p := Ours(b)], locks := s.locks[p := Attacher(b)],
       bridges := s.bridges + [Bridge(p, Flags(false, false), NotYet)],
       threads := s.threads[Attacher(b) := Thread(Attach(Record), b, None)])
  }

  lemma TakesPipe(s: State, p: PaneId) returns (s1: State, s2: State)
    requires p !in s.locks && Attacher(|s.bridges|) !in s.threads
    ensures s1 == Next(s, StartAttach(p))
    ensures Enabled(s1, Move(Attacher(|s.bridges|), true)) && s2 == Step(s1, Attacher(|s.bridges|), true)
    ensures Enabled(s2, Move(Attacher(|s.bridges|), true)) && Piped(s, p) == Step(s2, Attacher(|s.bridges|), true)
  {
    var b, t := |s.bridges|, Attacher(|s.bridges|);
    s1 := Next(s, StartAttach(p));
    s2 := s1.(locks := s.locks[p := t], threads := s.threads[t := Thread(Attach(RunPipe), b, None)]);
    assert s1.threads[t := s2.threads[t]] == s2.threads;
    assert s2.threads[t := Thread(Attach(Record), b, None)] == Piped(s, p).threads;
  }

  lemma TakesAndRecords(s: State, p: PaneId) returns (s': State)
    requires p !in s.locks && Attacher(|s.bridges|) !in s.threads
    requires p in s.pipes ==> s.pipes[p] < |s.bridges| && !s.bridges[s.pipes[p]].flags.displaced
    ensures Leads(s, [StartAttach(p)] + Moves(Attacher(|s.bridges|), 5), s')
    ensures TakesThePipe(s, s', p)
  {
    var t := Attacher(|s.bridges|);
    var s1, s2 := TakesPipe(s, p);
    s' := PipedRecords(s, p);
    MoveFirst(s2, t, 4, s');
    MoveFirst(s1, t, 5, s');
    First(s, StartAttach(p), Moves(t, 5), s');
  }

  lemma PipedRecords(s: State, p: PaneId) returns (s': State)
    requires p !in s.locks
    requires p in s.pipes ==> s.pipes[p] < |s.bridges| && !s.bridges[s.pipes[p]].flags.displaced
    ensures Leads(Piped(s, p), Moves(Attacher(|s.bridges|), 3), s') && TakesThePipe(s, s', p)
  {
    s' := RecordsAndTells(Piped(s, p), Attacher(|s.bridges|), p);
    assert s.locks[p := Attacher(|s.bridges|)] - {p} == s.locks;
  }

  /** From any state in which nobody holds the pane's lock, an attach whose commands work takes the pane's pipe. */
  lemma AttachTakesPipe(states: seq<State>, actions: seq<Action>, i: nat, p: PaneId)
    requires IsRun(states, actions) && i < |states| && p !in states[i].locks
    ensures exists s' :: Leads(states[i], [StartAttach(p)] + Moves(Attacher(|states[i].bridges|), 5), s')
                      && TakesThePipe(states[i], s', p)
  {
    RunKeepsInv(states, actions, i);
    var s := states[i];
    assert PaneInv(s, p) && ThreadInv(s, Attacher(|s.bridges|));
    if p in s.pipes { assert BridgeInv(s, s.pipes[p]); }
    var s' := TakesAndRecords(s, p);
  }

  /** What a close that works leaves: its bridge is off the record, and no pane's pipe feeds it. */
  ghost predicate FreesThePipe(s: State, s': State, b: nat)
    requires b < |s.bridges|
  {
    var p := s.bridges[b].pane;
    && s'.pipes == (if Owns(s.pipes, p, b) then s.pipes - {p} else s.pipes)
    && s'.tmux == (if Owns(s.pipes, p, b) then s.tmux - {p} else s.tmux)
    && s'.locks == s.locks
    && |s'.bridges| == |s.bridges| && s'.bridges[b].flags.closed
    && forall o :: 0 <= o < |s.bridges| && o != b ==> s'.bridges[o] == s.bridges[o]
  }

  lemma DisablesAndUnlocks(s: State, t: Tid, b: nat) returns (s': State)
    requires t in s.threads && b < |s.bridges| && s.threads[t] == Thread(Close(CheckOwner), b, None)
    requires s.bridges[b].pane in s.locks && s.bridges[b].flags.closed
    ensures Leads(s, Moves(t, if Owns(s.pipes, s.bridges[b].pane, b) then 3 else 2), s')
    ensures FreesThePipe(s.(locks := s.locks - {s.bridges[b].pane}), s', b)
  {
    var s1 := Step(s, t, true);
    var s2 := Step(s1, t, true);
    if Owns(s.pipes, s.bridges[b].pane, b) {
      s' := Step(s2, t, true);
      MoveFirst(s2, t, 1, s');
      MoveFirst(s1, t, 2, s');
      MoveFirst(s, t, 3, s');
    } else {
      s' := s2;
      MoveFirst(s1, t, 1, s');
      MoveFirst(s, t, 2, s');
    }
  }

  /** A first close that has its pane's lock. */
  function Locked(s: State, id: nat, b: nat): State
    requires b < |s.bridges|
  {
    s.(locks := s.locks[s.bridges[b].pane := Closer(id)],
       bridges := s.bridges[b := s.bridges[b].(flags := s.bridges[b].flags.(closed := true))],
       threads := s.threads[Closer(id) := Thread(Close(CheckOwner), b, None)])
  }

  lemma MarksAndLocks(s: State, id: nat, b: nat) returns (s1: State, s2: State)
    requires Enabled(s, StartClose(id, b)) && !s.bridges[b].flags.closed && s.bridges[b].pane !in s.locks
    ensures s1 == Next(s, StartClose(id, b))
    ensures Enabled(s1, Move(Closer(id), true)) && s2 == Step(s1, Closer(id), true)
    ensures Enabled(s2, Move(Closer(id), true)) && Locked(s, id, b) == Step(s2, Closer(id), true)
  {
    var t := Closer(id);
    s1 := Next(s, StartClose(id, b));
    s2 := s.(bridges := Locked(s, id, b).bridges, threads := s.threads[t := Thread(Close(WantPaneLock), b, None)]);
    assert s1.threads[t := s2.threads[t]] == s2.threads;
    assert s2.threads[t := Thread(Close(CheckOwner), b, None)] == Locked(s, id, b).threads;
  }

  lemma LocksAndFrees(s: State, id: nat, b: nat) returns (s': State)
    requires Enabled(s, StartClose(id, b)) && !s.bridges[b].flags.closed && s.bridges[b].pane !in s.locks
    ensures var n := if Owns(s.pipes, s.bridges[b].pane, b) then 5 else 4;
            Leads(s, [StartClose(id, b)] + Moves(Closer(id), n), s')
    ensures FreesThePipe(s, s', b)
  {
    var t, p := Closer(id), s.bridges[b].pane;
    var n := if Owns(s.pipes, p, b) then 5 else 4;
    var s1, s2 := MarksAndLocks(s, id, b);
    s' := DisablesAndUnlocks(Locked(s, id, b), t, b);
    MoveFirst(s2, t, n - 1, s');
    MoveFirst(s1, t, n, s');
    First(s, StartClose(id, b), Moves(t, n), s');
    assert s.locks[p := t] - {p} == s.locks;
  }

  /** A close that finds its bridge on record finds the pipe there too; one that does not, finds no pipe. */
  lemma FreedIsDry(s: State, s': State, b: nat, p: PaneId)
    requires Inv(s) && ReleaseInv(s, b) && b < |s.bridges| && FreesThePipe(s, s', b)
    requires !s.bridges[b].flags.closed && s.bridges[b].custody != NotYet
    ensures !Feeds(s', p, b)
  {
    assert PaneInv(s, p) && BridgeInv(s, b);
  }

  /**
   From any state in which nobody holds its pane's lock, the first close of an
   attached bridge whose command works frees its pipe if the bridge is on
   record, and touches no pipe if it is not; either way no pipe feeds it then.
   */
  lemma CloseFreesPipe(states: seq<State>, actions: seq<Action>, i: nat, id: nat, b: nat)
    requires IsRun(states, actions) && i < |states| && Enabled(states[i], StartClose(id, b))
    requires !states[i].bridges[b].flags.closed && states[i].bridges[b].pane !in states[i].locks
    ensures exists s', n :: n <= 5 && Leads(states[i], [StartClose(id, b)] + Moves(Closer(id), n), s')
                         && FreesThePipe(states[i], s', b) && forall p :: !Feeds(s', p, b)
  {
    RunKeepsInv(states, actions, i);
    RunKeepsRelease(states, actions, i, b);
    var s' := LocksAndFrees(states[i], id, b);
    assert BridgeInv(states[i], b);
    forall p ensures !Feeds(s', p, b) { FreedIsDry(states[i], s', b, p); }
  }
}
