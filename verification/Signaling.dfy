/**
 The signaling client's run loop, which reconnects with growing backoff, goes
 dormant after long failure and pauses while the host sleeps, against Suspend,
 Resume, SignalActivity and Close from other goroutines. Times are nanoseconds.
 */
module Signaling {
  import opened Common

  const SECOND := 1_000_000_000
  const MAX_BACKOFF := 30 * SECOND
  const DORMANCY_TIMEOUT := 300 * SECOND
  const STABLE_CONNECTION := 30 * SECOND

  // -------------------------------------------------------------- the regions

  /** The connection that other goroutines can see. */
  datatype Published = Nothing | Open | Shut

  /** The fields that the run loop shares, and the one-slot wake channel. */
  datatype Client = Client(
    conn: Published,
    suspended: bool,
    dormant: bool,
    closed: bool,
    failureStart: Option<nat>,
    signal: bool
  )

  function Suspended(c: Client): Client {
    if c.closed then c
    else c.(suspended := true, conn := if c.conn == Open then Shut else c.conn)
  }

  /** The publication step: an authenticated connection is shown unless the host was suspended meanwhile. */
  function Publish(c: Client): Client {
    if c.suspended then c else c.(conn := Open)
  }

  /** A consumed wake grants a fresh retry window. */
  function Woken(c: Client): Client {
    c.(signal := false, dormant := false, failureStart := None)
  }

  function StartedAt(c: Client, now: nat): nat {
    if c.failureStart.Some? then c.failureStart.value else now
  }

  /** What a connection's end does: a stable one clears the failures, another counts and may bring dormancy. */
  function Ended(c: Client, connected: bool, now: nat): Client {
    if connected then c.(failureStart := None)
    else
      c.(failureStart := Some(StartedAt(c, now)),
         dormant := c.dormant || now - StartedAt(c, now) >= DORMANCY_TIMEOUT)
  }

  /** The wait for a backoff: longer by a random part of at most half of it. */
  function Jitter(backoff: nat, draw: nat): (wait: nat)
    requires draw < backoff / 2 + 1
    ensures backoff <= wait && 2 * wait <= 3 * backoff
  {
    backoff + draw
  }

  function Grown(backoff: nat): nat {
    if backoff * 2 < MAX_BACKOFF then backoff * 2 else MAX_BACKOFF
  }

  class SignalingClient {
    var conn: Published
    var suspended: bool
    var dormant: bool
    var closed: bool
    var failureStart: Option<nat>
    var activitySignal: bool

    ghost function View(): Client
      reads this
    {
      Client(conn, suspended, dormant, closed, failureStart, activitySignal)
    }

    /** While the host is suspended, no open connection is shown. */
    ghost predicate Valid()
      reads this
    {
      suspended ==> conn != Open
    }

    constructor ()
      ensures Valid() && View() == Client(Nothing, false, false, false, None, false)
    {
      conn, suspended, dormant, closed, failureStart, activitySignal := Nothing, false, false, false, None, false;
    }

    method SignalActivity()
      requires Valid()
      modifies this
      ensures Valid() && View() == old(View()).(signal := true)
    {
      activitySignal := true;
    }

    method Suspend()
      requires Valid()
      modifies this
      ensures Valid() && View() == Suspended(old(View()))
    {
      if closed {
        return;
      }
      suspended := true;
      if conn == Open {
        conn := Shut;
      }
    }

    method Resume()
      requires Valid()
      modifies this
      ensures Valid() && View() == old(View()).(suspended := false, signal := true)
    {
      suspended := false;
      SignalActivity();
    }

    method Close()
      requires Valid()
      modifies this
      ensures Valid()
      ensures View()
           == old(View()).(closed := true, conn := if old(closed) || old(conn) != Open then old(conn) else Shut)
    {
      if closed {
        return;
      }
      closed := true;
      if conn == Open {
        conn := Shut;
      }
    }

    /** The publication step of connectAndServe. */
    method PublishConn() returns (published: bool)
      requires Valid()
      modifies this
      ensures Valid() && View() == Publish(old(View())) && published == !suspended
    {
      if suspended {
        return false;
      }
      conn := Open;
      published := true;
    }

    /** The deferred end of connectAndServe. */
    method DropConn()
      requires Valid()
      modifies this
      ensures Valid() && View() == old(View()).(conn := Nothing)
    {
      conn := Nothing;
    }

    /** Run takes a token from the wake channel. */
    method TakeWake()
      requires Valid() && activitySignal
      modifies this
      ensures Valid() && View() == Woken(old(View()))
    {
      activitySignal := false;
      dormant := false;
      failureStart := None;
    }

    /** Run takes note of how a connection attempt ended. */
    method NoteEnd(connected: bool, now: nat) returns (goesDormant: bool)
      requires Valid()
      modifies this
      ensures Valid() && View() == Ended(old(View()), connected, now)
      ensures goesDormant == (!connected && now - StartedAt(old(View()), now) >= DORMANCY_TIMEOUT)
    {
      if connected {
        failureStart := None;
        return false;
      }
      if failureStart.None? {
        failureStart := Some(now);
      }
      goesDormant := now - failureStart.value >= DORMANCY_TIMEOUT;
      if goesDormant {
        dormant := true;
      }
    }
  }

  // ------------------------------------------------------------------ the loop

  /** How connectAndServe ends once it has dialled. */
  datatype Outcome = Lost(connected: bool) | SuspendedMidway | Rejected

  datatype Place =
    | Top
    | DormantWait
    | CheckSuspend
    | SuspendWait
    | Connect
    | PublishNow
    | Serve(since: nat)
    | Disconnect(outcome: Outcome)
    | Judge(connected: bool)
    | PickWait
    | BackoffWait(began: nat, wait: nat)
    | Stopped

  /** What the run loop has been through: failures, stable connections, consumed wakes. */
  datatype Entry = Failed(at: nat) | Stable(at: nat) | Woke(at: nat)

  datatype State = State(
    client: Client,
    clock: nat,
    run: Place,
    start: nat,
    backoff: nat,
    resumers: nat,
    log: seq<Entry>
  ) {
    function At(p: Place): State {
      this.(run := p)
    }

    function Log(e: Entry): State {
      this.(log := log + [e])
    }

    function Wake(p: Place): State {
      this.(client := Woken(client), backoff := start, run := p).Log(Woke(clock))
    }
  }

  ghost predicate Initial(s: State) {
    && s.client == Client(Nothing, false, false, false, None, false)
    && s.run == Top && s.start > 0 && s.backoff == s.start && s.resumers == 0 && s.log == []
  }

  /** How an attempt or a wait of the run loop goes on. */
  datatype Choice = Works | Fails | CredentialsRejected | TimerFires | Draws(draw: nat)

  predicate IsWait(p: Place) {
    p == DormantWait || p == SuspendWait || p.BackoffWait?
  }

  /** The timer of a backoff wait fires once the wait is over. */
  predicate TimerIsUp(s: State, c: Choice) {
    c.TimerFires? && s.run.BackoffWait? && s.clock - s.run.began >= s.run.wait
  }

  predicate CanRun(s: State, c: Choice) {
    match s.run
    case DormantWait => s.client.signal
    case SuspendWait => s.client.signal
    case BackoffWait(_, _) => s.client.signal || TimerIsUp(s, c)
    case PickWait => c.Draws? && c.draw < s.backoff / 2 + 1
    case Stopped => false
    case _ => true
  }

  /** One step of Run and connectAndServe. */
  function RunMoves(s: State, c: Choice): State
    requires CanRun(s, c)
  {
    match s.run
    case Top => s.At(if s.client.dormant then DormantWait else CheckSuspend)
    case DormantWait => s.Wake(CheckSuspend)
    case CheckSuspend => s.At(if s.client.suspended then SuspendWait else Connect)
    case SuspendWait => s.Wake(Top)
    case Connect => s.At(if c.Works? then PublishNow else if c.CredentialsRejected? then Stopped else Judge(false))
    case PublishNow =>
      s.(client := Publish(s.client)).At(if s.client.suspended then Disconnect(SuspendedMidway) else Serve(s.clock))
    case Serve(since) =>
      s.At(Disconnect(if c.CredentialsRejected? then Rejected else Lost(s.clock - since >= STABLE_CONNECTION)))
    case Disconnect(outcome) =>
      s.(client := s.client.(conn := Nothing))
       .At(match outcome case Lost(connected) => Judge(connected) case SuspendedMidway => Top case Rejected => Stopped)
    case Judge(connected) =>
      var s1 := s.(client := Ended(s.client, connected, s.clock))
        .Log(if connected then Stable(s.clock) else Failed(s.clock));
      if connected then s1.(backoff := s.start, run := PickWait)
      else s1.At(if s1.client.dormant then Top else PickWait)
    case PickWait => s.At(BackoffWait(s.clock, Jitter(s.backoff, c.draw)))
    case BackoffWait(began, wait) =>
      if TimerIsUp(s, c) then
        s.(backoff := if s.clock - began >= s.backoff / 2 then Grown(s.backoff) else s.backoff, run := Top)
      else s.Wake(Top)
    case Stopped => s
  }

  datatype Action =
    | Run(c: Choice)
    | Cancel
    | Suspend
    | ResumeClears
    | ResumeSignals
    | Activity
    | Close
    | ConnFails
    | Tick(ns: nat)

  predicate Enabled(s: State, a: Action) {
    match a
    case Run(c) => CanRun(s, c)
    case Cancel => s.run == Top || s.run.Judge? || IsWait(s.run)
    case ResumeSignals => s.resumers > 0
    case _ => true
  }

  function Next(s: State, a: Action): State
    requires Enabled(s, a)
  {
    match a
    case Run(c) => RunMoves(s, c)
    case Cancel => s.At(Stopped)
    case Suspend => s.(client := Suspended(s.client))
    case ResumeClears => s.(client := s.client.(suspended := false), resumers := s.resumers + 1)
    case ResumeSignals => s.(client := s.client.(signal := true), resumers := s.resumers - 1)
    case Activity => s.(client := s.client.(signal := true))
    case Close =>
      s.(client := s.client.(closed := true,
         conn := if s.client.closed || s.client.conn != Open then s.client.conn else Shut))
    case ConnFails => s.(client := s.client.(conn := if s.client.conn == Open then Shut else s.client.conn))
    case Tick(ns) => s.(clock := s.clock + ns)
  }

  ghost predicate Follows(states: seq<State>, actions: seq<Action>, i: nat)
    requires i < |actions| < |states|
  {
    Enabled(states[i], actions[i]) && states[i + 1] == Next(states[i], actions[i])
  }

  ghost predicate IsRun(states: seq<State>, actions: seq<Action>) {
    && |states| == |actions| + 1
    && Initial(states[0])
    && forall i: nat :: i < |actions| ==> Follows(states, actions, i)
  }
}
