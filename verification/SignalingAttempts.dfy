/** What each attempt of the signaling loop to connect comes to, and what the loop does next. */
module SignalingAttempts {
  import opened Signaling

  // --------------------------------------------------------------- how long it lasted

  /** At step k an authenticated connection is published. */
  predicate Begins(states: seq<State>, actions: seq<Action>, k: nat)
    requires k < |actions| < |states|
  {
    states[k].run == PublishNow && actions[k].Run? && !states[k].client.suspended
  }

  /** The loop serves that connection up to state m. */
  ghost predicate Serves(states: seq<State>, k: nat, m: nat)
    requires k < m < |states|
  {
    forall x :: k < x <= m ==> states[x].run == Serve(states[k].clock)
  }

  predicate IsBehind(p: Place, connected: bool) {
    p == Disconnect(Lost(connected)) || p == Judge(connected)
  }

  /** The connection published at k was lost at m, and counts as stable exactly if that took thirty seconds. */
  ghost predicate Served(states: seq<State>, actions: seq<Action>, k: nat, m: nat, i: nat, connected: bool)
    requires k < m < i < |states| && |states| == |actions| + 1
  {
    && Begins(states, actions, k) && Serves(states, k, m) && actions[m].Run?
    && (connected <==> states[m].clock - states[k].clock >= 30_000_000_000)
    && forall x :: m < x <= i ==> IsBehind(states[x].run, connected)
  }

  ghost predicate HasServed(states: seq<State>, actions: seq<Action>, i: nat, connected: bool)
    requires i < |states| && |states| == |actions| + 1
  {
    exists k: nat, m: nat :: k < m < i && Served(states, actions, k, m, i, connected)
  }

  /** At step k a dial, or the authentication behind it, failed. */
  predicate FailsToConnect(states: seq<State>, actions: seq<Action>, k: nat)
    requires k < |actions| < |states|
  {
    states[k].run == Connect && actions[k].Run? && !actions[k].c.Works? && !actions[k].c.CredentialsRejected?
  }

  ghost predicate HasFailed(states: seq<State>, actions: seq<Action>, i: nat)
    requires i < |states| && |states| == |actions| + 1
  {
    exists k: nat :: k < i && FailsToConnect(states, actions, k)
                     && forall x :: k < x <= i ==> states[x].run == Judge(false)
  }

  ghost predicate IsServing(states: seq<State>, actions: seq<Action>, i: nat)
    requires i < |states| && |states| == |actions| + 1
  {
    exists k: nat :: k < i && Begins(states, actions, k) && Serves(states, k, i)
  }

  /** What the place of the loop says about the attempt it is in. */
  ghost predicate AttemptInv(states: seq<State>, actions: seq<Action>, i: nat)
    requires i < |states| && |states| == |actions| + 1
  {
    match states[i].run
    case Serve(_) => IsServing(states, actions, i)
    case Disconnect(Lost(connected)) => HasServed(states, actions, i, connected)
    case Judge(connected) => HasServed(states, actions, i, connected) || (!connected && HasFailed(states, actions, i))
    case _ => true
  }

  lemma PlaceStays(s: State, a: Action)
    requires Enabled(s, a) && !a.Run? && !a.Cancel?
    ensures Next(s, a).run == s.run
  {
  }

  /** A step that leaves the loop where it is leaves its attempt what it was. */
  lemma AttemptStands(states: seq<State>, actions: seq<Action>, i: nat)
    requires 0 < i < |states| && |states| == |actions| + 1
    requires AttemptInv(states, actions, i - 1) && states[i].run == states[i - 1].run
    ensures AttemptInv(states, actions, i)
  {
    match states[i].run
    case Serve(_) =>
      var k: nat :| k < i - 1 && Begins(states, actions, k) && Serves(states, k, i - 1);
      assert Serves(states, k, i);
    case Disconnect(Lost(connected)) => ServedStands(states, actions, i, connected);
    case Judge(connected) =>
      if HasServed(states, actions, i - 1, connected) {
        ServedStands(states, actions, i, connected);
      } else {
        var k: nat :| k < i - 1 && FailsToConnect(states, actions, k)
          && forall x :: k < x <= i - 1 ==> states[x].run == Judge(false);
        assert FailsToConnect(states, actions, k) && forall x :: k < x <= i ==> states[x].run == Judge(false);
      }
    case _ =>
  }

  lemma ServedStands(states: seq<State>, actions: seq<Action>, i: nat, connected: bool)
    requires 0 < i < |states| && |states| == |actions| + 1
    requires HasServed(states, actions, i - 1, connected) && IsBehind(states[i].run, connected)
    ensures HasServed(states, actions, i, connected)
  {
    var k: nat, m: nat :| k < m < i - 1 && Served(states, actions, k, m, i - 1, connected);
    assert Served(states, actions, k, m, i, connected);
  }

  lemma AttemptMoves(states: seq<State>, actions: seq<Action>, i: nat)
    requires 0 < i < |states| && |states| == |actions| + 1 && Follows(states, actions, i - 1)
    requires AttemptInv(states, actions, i - 1) && actions[i - 1].Run?
    ensures AttemptInv(states, actions, i)
  {
    var s := states[i - 1];
    match s.run
    case PublishNow => if !s.client.suspended { assert Begins(states, actions, i - 1) && Serves(states, i - 1, i); }
    case Connect => if states[i].run.Judge? { assert FailsToConnect(states, actions, i - 1); }
    case Serve(_) =>
      if states[i].run.Disconnect? && states[i].run.outcome.Lost? { LosesConnection(states, actions, i); }
    case Disconnect(Lost(connected)) => ServedStands(states, actions, i, connected);
    case _ =>
  }

  lemma LosesConnection(states: seq<State>, actions: seq<Action>, i: nat)
    requires 0 < i < |states| && |states| == |actions| + 1 && Follows(states, actions, i - 1)
    requires IsServing(states, actions, i - 1) && actions[i - 1].Run? && states[i - 1].run.Serve?
    requires states[i].run.Disconnect? && states[i].run.outcome.Lost?
    ensures HasServed(states, actions, i, states[i].run.outcome.connected)
  {
    var k: nat :| k < i - 1 && Begins(states, actions, k) && Serves(states, k, i - 1);
    assert Served(states, actions, k, i - 1, i, states[i].run.outcome.connected);
  }

  lemma {:induction false} RunKeepsAttempt(states: seq<State>, actions: seq<Action>, i: nat)
    requires IsRun(states, actions) && i < |states|
    ensures AttemptInv(states, actions, i)
  {
    if i > 0 {
      RunKeepsAttempt(states, actions, i - 1);
      assert Follows(states, actions, i - 1);
      if actions[i - 1].Run? {
        AttemptMoves(states, actions, i);
      } else if !actions[i - 1].Cancel? {
        PlaceStays(states[i - 1], actions[i - 1]);
        AttemptStands(states, actions, i);
      }
    }
  }

  /**
   An attempt counts as stable exactly if its connection was published and then
   served for at least thirty seconds; it counts as a failure exactly if it was
   served for less, or was never made. A connection given up because the host
   was suspended midway counts as neither.
   */
  lemma StableMeansThirtySeconds(states: seq<State>, actions: seq<Action>, i: nat)
    requires IsRun(states, actions) && i < |actions| && actions[i].Run? && states[i].run.Judge?
    ensures states[i + 1].log == states[i].log + [
              if states[i].run.connected then Stable(states[i].clock) else Failed(states[i].clock)]
    ensures HasServed(states, actions, i, states[i].run.connected)
         || (!states[i].run.connected && HasFailed(states, actions, i))
  {
    RunKeepsAttempt(states, actions, i);
    assert Follows(states, actions, i);
  }

  /** And nothing else is ever counted. */
  lemma OnlyAttemptsCount(states: seq<State>, actions: seq<Action>, i: nat)
    requires IsRun(states, actions) && i < |actions| && states[i + 1].log != states[i].log
    ensures actions[i].Run? && (states[i].run.Judge? || (IsWait(states[i].run) && states[i].client.signal))
  {
    assert Follows(states, actions, i);
    if actions[i].Run? && states[i].run.BackoffWait? && TimerIsUp(states[i], actions[i].c) { }
  }

  // ------------------------------------------------------------ what the loop does next

  /** These actions, one after the other, lead from one state to the other. */
  ghost predicate Leads(s: State, actions: seq<Action>, s': State)
    decreases |actions|
  {
    if actions == [] then s == s' else Enabled(s, actions[0]) && Leads(Next(s, actions[0]), actions[1..], s')
  }

  lemma First(s: State, a: Action, rest: seq<Action>, s': State)
    requires Enabled(s, a) && Leads(Next(s, a), rest, s')
    ensures Leads(s, [a] + rest, s')
  {
    assert ([a] + rest)[1..] == rest;
  }

  const WORKS := Run(Works)

  /** With the host awake and the client not dormant, a loop whose calls work is soon connected and shows it. */
  lemma AwakeLoopConnects(s: State)
    requires s.run == Top && !s.client.dormant && !s.client.suspended
    ensures Leads(s, [WORKS, WORKS, WORKS, WORKS],
              s.(client := s.client.(conn := Open)).At(Serve(s.clock)))
  {
    var s' := s.(client := s.client.(conn := Open)).At(Serve(s.clock));
    assert [WORKS] + [] == [WORKS] && [WORKS] + [WORKS] == [WORKS, WORKS];
    First(s.At(PublishNow), WORKS, [], s');
    First(s.At(Connect), WORKS, [WORKS], s');
    First(s.At(CheckSuspend), WORKS, [WORKS, WORKS], s');
    assert [WORKS] + [WORKS, WORKS] == [WORKS, WORKS, WORKS];
    First(s, WORKS, [WORKS, WORKS, WORKS], s');
    assert [WORKS] + [WORKS, WORKS, WORKS] == [WORKS, WORKS, WORKS, WORKS];
  }

  /** A dial is begun only behind a check that found the host awake. */
  ghost predicate FoundAwake(states: seq<State>, actions: seq<Action>, i: nat)
    requires i < |states| && |states| == |actions| + 1
  {
    exists k: nat :: k < i && states[k].run == CheckSuspend && actions[k].Run? && !states[k].client.suspended
                     && forall x :: k < x <= i ==> states[x].run == Connect
  }

  lemma {:induction false} DialsOnlyAwake(states: seq<State>, actions: seq<Action>, i: nat)
    requires IsRun(states, actions) && i < |states| && states[i].run == Connect
    ensures FoundAwake(states, actions, i)
  {
    assert i > 0;
    assert Follows(states, actions, i - 1);
    if states[i - 1].run == Connect {
      DialsOnlyAwake(states, actions, i - 1);
      var k: nat :| k < i - 1 && states[k].run == CheckSuspend && actions[k].Run? && !states[k].client.suspended
        && forall x :: k < x <= i - 1 ==> states[x].run == Connect;
      assert states[k].run == CheckSuspend && actions[k].Run? && forall x :: k < x <= i ==> states[x].run == Connect;
    } else {
      assert states[i - 1].run == CheckSuspend && actions[i - 1].Run?;
    }
  }

  /**
   The loop stops only when it is cancelled or the server rejects its
   credentials; and a rejection, of a dial or of a connection, stops it with
   its next two steps, counting nothing.
   */
  lemma OnlyRejectionStops(states: seq<State>, actions: seq<Action>, i: nat)
    requires IsRun(states, actions) && i < |actions| && states[i].run != Stopped && states[i + 1].run == Stopped
    ensures || actions[i] == Cancel
            || (actions[i] == Run(CredentialsRejected) && states[i].run == Connect)
            || (actions[i].Run? && states[i].run == Disconnect(Rejected))
  {
    assert Follows(states, actions, i);
  }

  lemma RejectionStops(s: State, c: Choice)
    requires s.run == Connect || s.run.Serve?
    ensures var s1 := RunMoves(s, CredentialsRejected);
            if s.run == Connect then s1 == s.At(Stopped)
            else s1 == s.At(Disconnect(Rejected))
                 && RunMoves(s1, c) == s.(client := s.client.(conn := Nothing)).At(Stopped)
  {
  }

  /** A rejected connection is never served up to a loss, so only the server can lead there. */
  lemma RejectedByTheServer(states: seq<State>, actions: seq<Action>, i: nat)
    requires IsRun(states, actions) && 0 < i < |states| && states[i].run == Disconnect(Rejected)
    ensures states[i - 1].run == Disconnect(Rejected)
         || (states[i - 1].run.Serve? && actions[i - 1] == Run(CredentialsRejected))
  {
    assert Follows(states, actions, i - 1);
  }

  /** The wait for a backoff, for as long as was drawn, up to its timer. */
  function Waiting(backoff: nat, draw: nat): seq<Action> {
    [Run(Draws(draw))] + ([Tick(backoff + draw)] + ([Run(TimerFires)] + []))
  }

  /** Behind the wait: later by what was drawn, with twice the backoff, up to thirty seconds. */
  function Waited(s: State, draw: nat): State {
    s.(clock := s.clock + (s.backoff + draw), run := Top,
       backoff := if 2 * s.backoff < 30_000_000_000 then 2 * s.backoff else 30_000_000_000)
  }

  lemma TimerEndsWait(s: State, wait: nat)
    requires s.run == BackoffWait(s.clock, wait) && s.backoff <= wait
    ensures var s1 := s.(clock := s.clock + wait);
            && Enabled(s1, Run(TimerFires))
            && Next(s1, Run(TimerFires))
            == s1.(run := Top, backoff := if 2 * s.backoff < 30_000_000_000 then 2 * s.backoff else 30_000_000_000)
  {
  }

  lemma DrawBeginsWait(s: State, draw: nat)
    requires s.run == PickWait && draw < s.backoff / 2 + 1
    ensures Enabled(s, Run(Draws(draw)))
    ensures Next(s, Run(Draws(draw))) == s.At(BackoffWait(s.clock, s.backoff + draw))
  {
  }

  lemma TimerRunsOut(s: State, wait: nat, s': State)
    requires s.run == BackoffWait(s.clock, wait) && s.backoff <= wait
    requires s' == s.(clock := s.clock + wait, run := Top,
                      backoff := if 2 * s.backoff < 30_000_000_000 then 2 * s.backoff else 30_000_000_000)
    ensures Leads(s, [Tick(wait)] + ([Run(TimerFires)] + []), s')
  {
    TimerEndsWait(s, wait);
    First(s.(clock := s.clock + wait), Run(TimerFires), [], s');
    First(s, Tick(wait), [Run(TimerFires)] + [], s');
  }

  lemma WaitsOut(s: State, draw: nat)
    requires s.run == PickWait && draw < s.backoff / 2 + 1
    ensures Leads(s, Waiting(s.backoff, draw), Waited(s, draw))
  {
    var wait := s.backoff + draw;
    DrawBeginsWait(s, draw);
    TimerRunsOut(s.At(BackoffWait(s.clock, wait)), wait, Waited(s, draw));
    First(s, Run(Draws(draw)), [Tick(wait)] + ([Run(TimerFires)] + []), Waited(s, draw));
  }

  /** What the end of an attempt leaves, when it brings no dormancy: the entry, and the backoff for the next wait. */
  function Judged(s: State): State
    requires s.run.Judge?
  {
    var c := s.run.connected;
    s.(client := Ended(s.client, c, s.clock), run := PickWait, backoff := if c then s.start else s.backoff,
       log := s.log + [if c then Stable(s.clock) else Failed(s.clock)])
  }

  lemma JudgeGoesOn(s: State)
    requires s.run.Judge? && !Ended(s.client, s.run.connected, s.clock).dormant
    ensures Next(s, WORKS) == Judged(s)
  {
  }

  /**
   Behind a failure that brings no dormancy, and behind a stable connection,
   the loop waits for its backoff, for whatever is drawn, and then tries again:
   with twice the backoff, or from the start behind a stable connection.
   */
  lemma EveryEndIsRetried(s: State, draw: nat)
    requires s.run.Judge? && !Ended(s.client, s.run.connected, s.clock).dormant
    requires draw < (if s.run.connected then s.start else s.backoff) / 2 + 1
    ensures Leads(s, [WORKS] + Waiting(if s.run.connected then s.start else s.backoff, draw), Waited(Judged(s), draw))
  {
    JudgeGoesOn(s);
    WaitsOut(Judged(s), draw);
    First(s, WORKS, Waiting(Judged(s).backoff, draw), Waited(Judged(s), draw));
  }

  /** Every wait from the backoff to one and a half times as long can be drawn, and no other. */
  lemma JitterCoversItsRange(backoff: nat, wait: nat)
    ensures (exists draw :: 0 <= draw < backoff / 2 + 1 && Jitter(backoff, draw) == wait)
       <==> backoff <= wait <= backoff + backoff / 2
  {
    if backoff <= wait <= backoff + backoff / 2 { assert Jitter(backoff, wait - backoff) == wait; }
  }

  /** A connection given up midway is not shown, and the loop goes to its suspend wait without counting anything. */
  lemma SuspendedMidwayWaits(s: State)
    requires s.run == PublishNow && s.client.suspended && !s.client.dormant
    ensures Leads(s, [WORKS, WORKS, WORKS, WORKS], s.(client := s.client.(conn := Nothing)).At(SuspendWait))
  {
    var s1, s2 := s.At(Disconnect(SuspendedMidway)), s.(client := s.client.(conn := Nothing)).At(Top);
    var s3, s' := s2.At(CheckSuspend), s2.At(SuspendWait);
    assert [WORKS] + [] == [WORKS] && [WORKS] + [WORKS] == [WORKS, WORKS];
    First(s3, WORKS, [], s');
    First(s2, WORKS, [WORKS], s');
    First(s1, WORKS, [WORKS, WORKS], s');
    assert [WORKS] + [WORKS, WORKS] == [WORKS, WORKS, WORKS];
    First(s, WORKS, [WORKS, WORKS, WORKS], s');
    assert [WORKS] + [WORKS, WORKS, WORKS] == [WORKS, WORKS, WORKS, WORKS];
  }
}
