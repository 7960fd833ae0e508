/** What the signaling run loop promises over every interleaving with its callers. */
module SignalingTheorems {
  import opened Common
  import opened Signaling

  // ------------------------------------------------------------------ history

  /** When the current streak of failures began: the first failure behind the last stable connection or wake. */
  function StreakStart(log: seq<Entry>): Option<nat> {
    if log == [] then None
    else
      var n := |log| - 1;
      match log[n]
      case Failed(t) => if StreakStart(log[..n]).Some? then StreakStart(log[..n]) else Some(t)
      case _ => None
  }

  /** Entry i is a failure, everything behind it is one too, and what is right before it is not. */
  ghost predicate IsStreak(log: seq<Entry>, i: nat) {
    && i < |log|
    && (forall j :: i <= j < |log| ==> log[j].Failed?)
    && (i > 0 ==> !log[i - 1].Failed?)
  }

  /** StreakStart finds that streak, and there is none when it finds nothing. */
  lemma {:induction false} StreakStartIsRight(log: seq<Entry>)
    ensures StreakStart(log).Some? ==> exists i: nat :: IsStreak(log, i) && StreakStart(log) == Some(log[i].at)
    ensures StreakStart(log).None? ==> log == [] || !log[|log| - 1].Failed?
  {
    if log != [] {
      var n := |log| - 1;
      StreakStartIsRight(log[..n]);
      if log[n].Failed? {
        if StreakStart(log[..n]).Some? {
          var i: nat :| IsStreak(log[..n], i) && StreakStart(log[..n]) == Some(log[..n][i].at);
          assert forall j :: i <= j < n ==> log[j] == log[..n][j];
          assert IsStreak(log, i) && StreakStart(log) == Some(log[i].at);
        } else {
          assert IsStreak(log, n) && StreakStart(log) == Some(log[n].at);
        }
      }
    }
  }

  lemma StreakSnoc(log: seq<Entry>, e: Entry)
    ensures StreakStart(log + [e])
         == if !e.Failed? then None else if StreakStart(log).Some? then StreakStart(log) else Some(e.at)
  {
    assert (log + [e])[..|log|] == log;
  }

  // ---------------------------------------------------------------- invariant

  function Larger(a: nat, b: nat): nat {
    if a < b then b else a
  }

  ghost predicate Inv(s: State) {
    var c := s.client;
    && (c.suspended ==> c.conn != Open)
    && (c.conn != Nothing ==> s.run.Serve? || s.run.Disconnect?)
    && (s.run == SuspendWait ==> c.suspended || c.signal || s.resumers > 0)
    && c.failureStart == StreakStart(s.log)
    && (c.failureStart.Some? ==> c.failureStart.value <= s.clock)
    && (c.dormant ==> s.run == Top || s.run == DormantWait || s.run == Stopped)
    && (c.dormant ==> c.failureStart.Some? && s.clock - c.failureStart.value >= DORMANCY_TIMEOUT)
    && (s.run == DormantWait ==> c.dormant)
    && 0 < s.start && 0 < s.backoff <= Larger(s.start, MAX_BACKOFF)
    && (s.run.BackoffWait? ==> s.backoff <= s.run.wait && 2 * s.run.wait <= 3 * s.backoff && s.run.began <= s.clock)
    && (s.run.Serve? ==> s.run.since <= s.clock)
  }

  lemma JudgeKeepsInv(s: State, c: Choice)
    requires Inv(s) && s.run.Judge?
    ensures Inv(RunMoves(s, c))
  {
    StreakSnoc(s.log, Stable(s.clock));
    StreakSnoc(s.log, Failed(s.clock));
  }

  lemma WakeKeepsInv(s: State, p: Place)
    requires Inv(s) && IsWait(s.run) && (p == Top || p == CheckSuspend)
    ensures Inv(s.Wake(p))
  {
    StreakSnoc(s.log, Woke(s.clock));
  }

  lemma RunKeepsInv(s: State, c: Choice)
    requires Inv(s) && CanRun(s, c)
    ensures Inv(RunMoves(s, c))
  {
    match s.run
    case Judge(_) => JudgeKeepsInv(s, c);
    case DormantWait => WakeKeepsInv(s, CheckSuspend);
    case SuspendWait => WakeKeepsInv(s, Top);
    case BackoffWait(_, _) => WakeKeepsInv(s, Top);
    case _ =>
  }

  lemma NextKeepsInv(s: State, a: Action)
    requires Inv(s) && Enabled(s, a)
    ensures Inv(Next(s, a))
  {
    if a.Run? { RunKeepsInv(s, a.c); }
  }

  lemma {:induction false} StatesKeepInv(states: seq<State>, actions: seq<Action>, i: nat)
    requires IsRun(states, actions) && i < |states|
    ensures Inv(states[i])
  {
    if i > 0 {
      StatesKeepInv(states, actions, i - 1);
      assert Follows(states, actions, i - 1);
      NextKeepsInv(states[i - 1], actions[i - 1]);
    }
  }

  // ------------------------------------------------------------- the theorems

  /** While the host is suspended, no open connection is published. */
  lemma SuspendedMeansOffline(states: seq<State>, actions: seq<Action>, i: nat)
    requires IsRun(states, actions) && i < |states| && states[i].client.suspended
    ensures states[i].client.conn != Open
  {
    StatesKeepInv(states, actions, i);
  }

  /**
   A Resume that has returned is never lost: with nothing suspending the
   client, the run loop is not left blocked in the suspend wait.
   */
  lemma ResumeIsNotLost(states: seq<State>, actions: seq<Action>, i: nat)
    requires IsRun(states, actions) && i < |states| && states[i].run == SuspendWait
    requires !states[i].client.suspended && states[i].resumers == 0
    ensures CanRun(states[i], Works) && RunMoves(states[i], Works).run == Top
  {
    StatesKeepInv(states, actions, i);
  }

  /**
   The client goes dormant exactly when an attempt fails five minutes or more
   after the streak of failures that it ends began, a streak that no stable
   connection and no consumed wake breaks.
   */
  lemma DormancyIsEarned(states: seq<State>, actions: seq<Action>, i: nat)
    requires IsRun(states, actions) && i < |actions|
    requires actions[i].Run? && states[i].run == Judge(false)
    ensures var s' := states[i + 1];
            && StreakStart(s'.log).Some?
            && (s'.client.dormant <==> s'.clock - StreakStart(s'.log).value >= DORMANCY_TIMEOUT)
  {
    StatesKeepInv(states, actions, i);
    assert Follows(states, actions, i);
    StreakSnoc(states[i].log, Failed(states[i].clock));
  }

  /** Nothing else makes it dormant, and as long as it is, that streak is its whole recent past. */
  lemma DormantBehindFailures(states: seq<State>, actions: seq<Action>, i: nat)
    requires IsRun(states, actions) && i < |states| && states[i].client.dormant
    ensures exists k: nat :: IsStreak(states[i].log, k) && states[i].clock - states[i].log[k].at >= DORMANCY_TIMEOUT
    ensures i > 0 && !states[i - 1].client.dormant ==> actions[i - 1].Run? && states[i - 1].run == Judge(false)
  {
    StatesKeepInv(states, actions, i);
    StreakStartIsRight(states[i].log);
    if i > 0 {
      StatesKeepInv(states, actions, i - 1);
      assert Follows(states, actions, i - 1);
    }
  }

  /** Backoff stays between zero and the larger of its start and 30 seconds, and each wait is 1 to 1.5 times it. */
  lemma BackoffIsBounded(states: seq<State>, actions: seq<Action>, i: nat)
    requires IsRun(states, actions) && i < |states|
    ensures 0 < states[i].backoff <= Larger(states[i].start, MAX_BACKOFF)
    ensures states[i].run.BackoffWait? ==>
      states[i].backoff <= states[i].run.wait && 2 * states[i].run.wait <= 3 * states[i].backoff
  {
    StatesKeepInv(states, actions, i);
  }

  /**
   A backoff wait that no wake cuts short lasts as long as was drawn for it, so
   at least its backoff; and so the backoff then always grows, up to its bound.
   */
  lemma WaitsLastTheirBackoff(states: seq<State>, actions: seq<Action>, i: nat)
    requires IsRun(states, actions) && i < |actions|
    requires states[i].run.BackoffWait? && actions[i].Run? && states[i + 1].log == states[i].log
    ensures var s, s' := states[i], states[i + 1];
            && s.clock - s.run.began >= s.run.wait >= s.backoff
            && s'.backoff == (if 2 * s.backoff < MAX_BACKOFF then 2 * s.backoff else MAX_BACKOFF)
            && s'.run == Top
  {
    StatesKeepInv(states, actions, i);
    assert Follows(states, actions, i);
    BackoffEndsLogged(states[i], actions[i].c);
  }

  lemma BackoffEndsLogged(s: State, c: Choice)
    requires s.run.BackoffWait? && CanRun(s, c)
    ensures TimerIsUp(s, c) || RunMoves(s, c).log != s.log
  {
    assert !TimerIsUp(s, c) ==> |RunMoves(s, c).log| == |s.log| + 1;
  }

  /** The action is a step of the run loop itself, or the end of its context. */
  predicate MovesLoop(a: Action) {
    a.Run? || a.Cancel?
  }

  /**
   A wake is never lost: while the run loop is in any of its waits, a token
   stays in the channel until the loop moves, and the loop can take it; that
   gets it out of the wait with a fresh backoff and retry window.
   */
  lemma {:induction false} WakesReachEveryWait(states: seq<State>, actions: seq<Action>, i: nat, j: nat)
    requires IsRun(states, actions) && i <= j < |states| && IsWait(states[i].run) && states[i].client.signal
    requires forall k :: i <= k < j ==> !MovesLoop(actions[k])
    ensures states[j].run == states[i].run && states[j].client.signal && CanRun(states[j], Works)
    ensures var s' := RunMoves(states[j], Works);
            && s'.backoff == s'.start && !s'.client.dormant && StreakStart(s'.log).None?
            && (s'.run == Top || s'.run == CheckSuspend)
  {
    if i < j {
      WakesReachEveryWait(states, actions, i, j - 1);
      assert Follows(states, actions, j - 1) && !MovesLoop(actions[j - 1]);
    }
    StreakSnoc(states[j].log, Woke(states[j].clock));
  }
}
