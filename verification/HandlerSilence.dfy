/** When a stream that a detach waits for still sends a stream_reset. */
module HandlerSilence {
  import opened Common
  import opened HandlerSteps
  import opened HandlerInvariant
  import opened HandlerSafety
  import opened HandlerProgress

  /** The attachment's own thread has passed its check and is about to send the reset. */
  ghost predicate PastItsCheck(s: State, n: nat) {
    && n < |s.atts| && s.atts[n].life.Live?
    && s.atts[n].life.owner in s.threads
    && s.threads[s.atts[n].life.owner].at == Own(SendReset)
  }

  /** The attachment is detached, marked as long as its thread lives, and that thread has not passed its check. */
  ghost predicate Silenced(s: State, n: nat) {
    && n < |s.atts| && !s.atts[n].bridge.InMaps?
    && (s.atts[n].life.Live? ==> n in s.entry.superseded)
    && !PastItsCheck(s, n)
  }

  /** Whoever a detach waits for is silenced, unless it is past its check. */
  lemma AwaitedIsSilenced(s: State, u: Tid)
    requires Inv(s) && u in s.threads && s.threads[u].waitOn.Some?
    ensures Silenced(s, s.threads[u].waitOn.value) || PastItsCheck(s, s.threads[u].waitOn.value)
  {
    assert ThreadInv(s, u);
  }

  // --------------------------------------------------------------- preservation

  /** A mark is only ever taken off by the thread whose attachment it names. */
  lemma MarkStays(s: State, t: Tid, c: Choice, n: nat)
    requires t in s.threads && n in s.entry.superseded
    ensures (s.threads[t].at == Own(EndStream) && s.threads[t].mine == Some(n)) || n in Step(s, t, c).entry.superseded
  {
    var th := s.threads[t];
    match th.at
    case Detach(d) => DetachKeepsMark(s, t, th, d, n);
    case Serve(r) => ServeKeepsMark(s, t, th, r, c, n);
    case Own(o) => OwnKeepsMark(s, t, th, o, c, n);
    case Exit(x) => ExitingKeepsMark(s, t, th, x, c, n);
    case _ =>
  }

  lemma DetachKeepsMark(s: State, t: Tid, th: Thread, d: DetachPlace, n: nat)
    requires n in s.entry.superseded
    ensures n in DetachStep(s, t, th, d).entry.superseded
  {
    match d
    case TakeEntry =>
    case CancelStream =>
    case CloseBridge =>
    case AwaitDone =>
  }

  lemma ServeKeepsMark(s: State, t: Tid, th: Thread, r: ServePlace, c: Choice, n: nat)
    requires n in s.entry.superseded
    ensures n in ServeStep(s, t, th, r, c).entry.superseded
  {
    match r
    case ReadPane =>
    case SendPaneMissing(_) =>
    case SendSessions =>
    case SendDetached =>
    case OpenBridge =>
    case OpenFailed =>
    case InstallBridge =>
  }

  lemma OwnKeepsMark(s: State, t: Tid, th: Thread, o: OwnPlace, c: Choice, n: nat)
    requires n in s.entry.superseded
    ensures (o == EndStream && th.mine == Some(n)) || n in OwnStep(s, t, th, o, c).entry.superseded
  {
    match o
    case EndStream =>
    case CloseDone =>
    case PreStream =>
    case _ =>
  }

  lemma ExitingKeepsMark(s: State, t: Tid, th: Thread, x: ExitPlace, c: Choice, n: nat)
    requires n in s.entry.superseded
    ensures n in ExitingStep(s, t, th, x, c).entry.superseded
  {
  }

  /** Thread t has just been let through to its reset, unmarked, by its check. */
  predicate LetThrough(s: State, s': State, t: Tid) {
    t in s.threads && t in s'.threads && s'.threads[t].at == Own(SendReset) ==>
      && s.threads[t].at == Own(CheckSuperseded)
      && s.threads[t].mine.Some? && s.threads[t].mine.value !in s.entry.superseded
  }

  /** Only the check lets a thread through to the reset, and not while its attachment is marked. */
  lemma OnlyTheCheckLetsThrough(s: State, t: Tid, c: Choice)
    requires t in s.threads && CanMove(s, t) && ThreadInv(s, t)
    ensures LetThrough(s, Step(s, t, c), t)
  {
    match s.threads[t].at
    case Detach(d) => DetachLetsNoneThrough(s, t, d);
    case Serve(r) => ServeLetsNoneThrough(s, t, r, c);
    case Own(o) => OwnLetsThrough(s, t, o, c);
    case Exit(x) => ExitingLetsNoneThrough(s, t, x, c);
    case _ =>
  }

  lemma DetachLetsNoneThrough(s: State, t: Tid, d: DetachPlace)
    requires t in s.threads && s.threads[t].at == Detach(d)
    ensures LetThrough(s, DetachStep(s, t, s.threads[t], d), t)
  {
    match d
    case TakeEntry =>
    case CancelStream =>
    case CloseBridge =>
    case AwaitDone =>
  }

  lemma ServeLetsNoneThrough(s: State, t: Tid, r: ServePlace, c: Choice)
    requires t in s.threads && s.threads[t].at == Serve(r)
    ensures LetThrough(s, ServeStep(s, t, s.threads[t], r, c), t)
  {
    match r
    case ReadPane =>
    case SendPaneMissing(_) =>
    case SendSessions =>
    case SendDetached =>
    case OpenBridge =>
    case OpenFailed =>
    case InstallBridge =>
  }

  lemma ExitingLetsNoneThrough(s: State, t: Tid, x: ExitPlace, c: Choice)
    requires t in s.threads && s.threads[t].at == Exit(x)
    ensures LetThrough(s, ExitingStep(s, t, s.threads[t], x, c), t)
  {
    match x
    case TryExit =>
    case SendPaneClosed =>
    case SendExitSessions =>
  }

  lemma OwnLetsThrough(s: State, t: Tid, o: OwnPlace, c: Choice)
    requires t in s.threads && ThreadInv(s, t) && s.threads[t].at == Own(o)
    ensures LetThrough(s, OwnStep(s, t, s.threads[t], o, c), t)
  {
    match o
    case CheckSuperseded =>
    case PreStream =>
    case EndStream =>
    case CloseDone =>
    case _ =>
  }

  /** What a silenced attachment's thread does: it stays where no reset lies ahead. */
  lemma StepKeepsSilence(s: State, t: Tid, c: Choice, n: nat)
    requires Inv(s) && t in s.threads && CanMove(s, t) && Silenced(s, n)
    ensures Silenced(Step(s, t, c), n)
  {
    var s' := Step(s, t, c);
    StaysOut(s, t, c, n);
    StepGrows(s, t, c);
    assert AttachmentInv(s, n) && AttachmentInv(s', n) && ThreadInv(s, t);
    if s'.atts[n].life.Live? {
      EndedIsNotLive(s, t, c, n);
      MarkStays(s, t, c, n);
      LiveOwnerIsBeforeReset(s, t, c, n);
    }
  }

  lemma EndedIsNotLive(s: State, t: Tid, c: Choice, n: nat)
    requires Inv(s) && t in s.threads && CanMove(s, t) && n < |s.atts|
    ensures n < |Step(s, t, c).atts|
    ensures s.threads[t].at == Own(EndStream) && s.threads[t].mine == Some(n) ==> !Step(s, t, c).atts[n].life.Live?
  {
    assert ThreadInv(s, t);
    StepGrows(s, t, c);
  }

  lemma LiveOwnerIsBeforeReset(s: State, t: Tid, c: Choice, n: nat)
    requires Inv(s) && t in s.threads && CanMove(s, t) && Silenced(s, n) && s.atts[n].life.Live?
    requires var s' := Step(s, t, c); Inv(s') && n < |s'.atts| && s'.atts[n].life.Live?
    ensures !PastItsCheck(Step(s, t, c), n)
  {
    var s' := Step(s, t, c);
    var owner := s'.atts[n].life.owner;
    assert AttachmentInv(s, n) && AttachmentInv(s', n) && ThreadInv(s, t) && ThreadInv(s', owner);
    OnlyTheCheckLetsThrough(s, t, c);
    if owner != t {
      if owner in s.threads { OthersStay(s, t, c, owner); } else { StartedInLoop(s, t, c, n); }
    }
  }

  /** A thread that owns an attachment from its start is a stream, at the head of its loop. */
  lemma StartedInLoop(s: State, t: Tid, c: Choice, n: nat)
    requires Inv(s) && t in s.threads && CanMove(s, t) && Stream(n) !in s.threads && Stream(n) in Step(s, t, c).threads
    ensures Step(s, t, c).threads[Stream(n)].at == Own(StreamLoop)
  {
    assert ThreadInv(s, t);
    if s.threads[t].at != Own(PreStream) { StepLeavesOthers(s, t, c, Stream(n)); }
  }

  lemma NextKeepsSilence(s: State, a: Action, n: nat)
    requires Inv(s) && Silenced(s, n) && Enabled(s, a)
    ensures Silenced(Next(s, a), n)
  {
    match a
    case Move(t, c) => StepKeepsSilence(s, t, c, n);
    case Disconnect(_, _) =>
    case ShutDownAgent =>
    case Displace(_) =>
    case NextConnection =>
  }

  /** What is sent is never taken back, and a silenced attachment's reset is not among what comes next. */
  ghost predicate AddsNoReset(s: State, s': State, n: nat) {
    s.sent <= s'.sent && forall k :: |s.sent| <= k < |s'.sent| ==> s'.sent[k] != Reset(n)
  }

  lemma NextAddsNoReset(s: State, a: Action, n: nat)
    requires Inv(s) && SentInv(s) && Silenced(s, n) && Enabled(s, a)
    ensures AddsNoReset(s, Next(s, a), n)
  {
    if a.Move? {
      StepAdds(s, a.t, a.c);
      EventMaybeSent(s, a.t);
      assert ThreadInv(s, a.t);
    } else {
      assert Next(s, a).sent == s.sent;
    }
  }

  lemma {:induction false} SilenceLasts(states: seq<State>, actions: seq<Action>, i: nat, j: nat, n: nat)
    requires IsRun(states, actions) && i <= j < |states| && Silenced(states[i], n)
    ensures Silenced(states[j], n) && AddsNoReset(states[i], states[j], n)
  {
    if i < j {
      SilenceLasts(states, actions, i, j - 1, n);
      RunKeepsSent(states, actions, j - 1);
      assert Follows(states, actions, j - 1);
      NextKeepsSilence(states[j - 1], actions[j - 1], n);
      NextAddsNoReset(states[j - 1], actions[j - 1], n);
      NoResetChains(states[i], states[j - 1], states[j], n);
    }
  }

  lemma NoResetChains(s: State, t: State, u: State, n: nat)
    requires AddsNoReset(s, t, n) && AddsNoReset(t, u, n)
    ensures AddsNoReset(s, u, n)
  {
    forall k | |s.sent| <= k < |u.sent| ensures u.sent[k] != Reset(n) {
      assert k < |t.sent| ==> u.sent[k] == t.sent[k];
    }
  }
}
