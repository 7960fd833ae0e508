/**
 The wait for pair_complete as it runs: the caller, its reader goroutine and its
 keepalive goroutine, with a result channel of capacity one between them.
 */
module PairReading {
  import opened Common
  import opened PairSessions

  datatype ReaderPlace = Reading | Sending(msg: Option<Completion>) | ReaderDone

  datatype MainPlace = Selecting | AwaitReader | StopKeepalive | AwaitKeepalive | Returned

  datatype KeepalivePlace = Idling | Writing | KeepaliveDone

  /** A result is a message, or none for a read error. */
  datatype State = State(
    reader: ReaderPlace,
    main: MainPlace,
    keepalive: KeepalivePlace,
    results: Option<Option<Completion>>,
    contextDone: bool,
    deadlinePassed: bool,
    stop: bool,
    tick: bool,
    buffered: nat,
    seen: seq<Frame>,
    received: Option<Completion>,
    failed: bool
  )

  const INITIAL := State(Reading, Selecting, Idling, None, false, false, false, false, 0, [], None, false)

  datatype Action =
    // what the connection, the context and the ticker do
    | FrameArrives(frame: Frame)
    | ConnectionFails
    | ContextEnds
    | Tick
    // what the three goroutines do
    | ReadTimesOut
    | ReaderSends
    | MainTakesResult
    | MainTimesOut(buffered: nat)
    | MainStopsKeepalive
    | MainReturns
    | KeepaliveStops
    | KeepaliveWrites
    | WriteReturns(works: bool)

  predicate IsOwn(a: Action) {
    !a.FrameArrives? && !a.ConnectionFails? && !a.ContextEnds? && !a.Tick?
  }

  /**
   A read returns with a frame or a failure of the connection, or because its
   deadline has passed. Behind the deadline it still returns the frames that
   were buffered by then.
   */
  predicate Enabled(s: State, a: Action) {
    match a
    case FrameArrives(_) => s.reader == Reading && (s.deadlinePassed ==> s.buffered > 0)
    case ContextEnds => true
    case Tick => true
    case ConnectionFails => s.reader == Reading
    case ReadTimesOut => s.reader == Reading && s.deadlinePassed
    case ReaderSends => s.reader.Sending? && s.results.None?
    case MainTakesResult => (s.main == Selecting || s.main == AwaitReader) && s.results.Some?
    case MainTimesOut(_) => s.main == Selecting && s.contextDone
    case MainStopsKeepalive => s.main == StopKeepalive
    case MainReturns => s.main == AwaitKeepalive && s.keepalive == KeepaliveDone
    case KeepaliveStops => s.keepalive == Idling && s.stop
    case KeepaliveWrites => s.keepalive == Idling && s.tick
    case WriteReturns(_) => s.keepalive == Writing
  }

  function Next(s: State, a: Action): State
    requires Enabled(s, a)
  {
    match a
    case FrameArrives(f) =>
      s.(seen := s.seen + [f],
         buffered := if s.buffered > 0 then s.buffered - 1 else 0,
         reader := if f.PairComplete? then Sending(Some(f.msg)) else Reading)
    case ContextEnds => s.(contextDone := true)
    case Tick => s.(tick := true)
    case ConnectionFails => s.(reader := Sending(None))
    case ReadTimesOut => s.(reader := Sending(None))
    case ReaderSends => s.(results := Some(s.reader.msg), reader := ReaderDone)
    case MainTakesResult =>
      s.(results := None, received := s.results.value, main := StopKeepalive,
         failed := s.main == AwaitReader || s.results.value.None?)
    case MainTimesOut(buffered) => s.(deadlinePassed := true, buffered := buffered, main := AwaitReader)
    case MainStopsKeepalive => s.(stop := true, main := AwaitKeepalive)
    case MainReturns => s.(main := Returned)
    case KeepaliveStops => s.(keepalive := KeepaliveDone)
    case KeepaliveWrites => s.(keepalive := Writing, tick := false)
    case WriteReturns(works) => s.(keepalive := if works then Idling else KeepaliveDone)
  }

  ghost predicate Follows(states: seq<State>, actions: seq<Action>, i: nat)
    requires i < |actions| < |states|
  {
    Enabled(states[i], actions[i]) && states[i + 1] == Next(states[i], actions[i])
  }

  ghost predicate IsRun(states: seq<State>, actions: seq<Action>) {
    && |states| == |actions| + 1
    && states[0] == INITIAL
    && forall i: nat :: i < |actions| ==> Follows(states, actions, i)
  }

  /** A pair_complete taken off the wire is with the reader, in the channel, or with the caller. */
  ghost predicate Inv(s: State) {
    var taken := FirstCompletion(s.seen);
    && (s.main == Selecting || s.main == AwaitReader ==>
          && s.received.None?
          && match s.reader
             case Reading => s.results.None? && taken.None?
             case Sending(msg) => s.results.None? && msg == taken
             case ReaderDone => s.results == Some(taken))
    && (s.main != Selecting && s.main != AwaitReader ==>
          && s.reader == ReaderDone && s.results.None?
          && s.received == taken)
    && (s.stop <==> s.main == AwaitKeepalive || s.main == Returned)
    && (s.main == Returned ==> s.keepalive == KeepaliveDone)
    && (s.main == AwaitReader ==> s.deadlinePassed)
    && (s.deadlinePassed ==> s.contextDone && s.main != Selecting)
    && (s.main != Selecting && s.main != AwaitReader ==> (s.failed <==> s.deadlinePassed || s.received.None?))
  }

  lemma SeenGrows(seen: seq<Frame>, f: Frame)
    ensures FirstCompletion(seen + [f])
         == if FirstCompletion(seen).Some? then FirstCompletion(seen) else if f.PairComplete? then Some(f.msg) else None
  {
    assert (seen + [f])[..|seen|] == seen;
  }

  lemma NextKeepsInv(s: State, a: Action)
    requires Inv(s) && Enabled(s, a)
    ensures Inv(Next(s, a))
  {
    if a.FrameArrives? { SeenGrows(s.seen, a.frame); }
  }

  lemma {:induction false} RunKeepsInv(states: seq<State>, actions: seq<Action>, i: nat)
    requires IsRun(states, actions) && i < |states|
    ensures Inv(states[i])
  {
    if i > 0 {
      RunKeepsInv(states, actions, i - 1);
      assert Follows(states, actions, i - 1);
      NextKeepsInv(states[i - 1], actions[i - 1]);
    }
  }

  /**
   When the wait returns, whichever of the message and the deadline won: the
   first pair_complete that was read off the wire is the one received, none is
   received otherwise, and the reader and the keepalive have both ended. The
   wait fails exactly if it received nothing or its context ended before the
   message came to it.
   */
  lemma NothingIsLost(states: seq<State>, actions: seq<Action>, i: nat)
    requires IsRun(states, actions) && i < |states| && states[i].main == Returned
    ensures var s := states[i];
            && s.received == FirstCompletion(s.seen)
            && s.reader == ReaderDone && s.keepalive == KeepaliveDone && s.results.None?
            && (s.failed <==> s.received.None? || s.deadlinePassed)
            && (s.deadlinePassed ==> s.contextDone)
  {
    RunKeepsInv(states, actions, i);
  }

  predicate HasHappened(actions: seq<Action>, i: nat, a: Action, b: Action) {
    exists k :: 0 <= k < i && k < |actions| && (actions[k] == a || actions[k] == b)
  }

  /** The reader has ended, or is about to, without a message. */
  predicate ReadsNothing(s: State) {
    s.reader == Sending(None) || (s.reader == ReaderDone && FirstCompletion(s.seen).None?)
  }

  lemma ReaderByOne(s: State, a: Action)
    requires Inv(s) && Enabled(s, a) && ReadsNothing(Next(s, a))
    ensures ReadsNothing(s) || a == ConnectionFails || a == ReadTimesOut
  {
    if a.FrameArrives? { SeenGrows(s.seen, a.frame); }
  }

  lemma KeepaliveByOne(s: State, a: Action)
    requires Enabled(s, a) && Next(s, a).keepalive == KeepaliveDone
    ensures s.keepalive == KeepaliveDone || s.stop || a == WriteReturns(false)
    ensures s.stop ==> Next(s, a).stop
  {
  }

  /**
   No goroutine ends early: the reader gives up without a message only because
   the connection failed or its deadline passed, whatever else it reads, and
   the keepalive stops only because it was told to or its write failed.
   */
  lemma {:induction false} NobodyGivesUpEarly(states: seq<State>, actions: seq<Action>, i: nat)
    requires IsRun(states, actions) && i < |states|
    ensures ReadsNothing(states[i]) ==> HasHappened(actions, i, ConnectionFails, ReadTimesOut)
    ensures states[i].keepalive == KeepaliveDone ==>
      states[i].stop || HasHappened(actions, i, WriteReturns(false), WriteReturns(false))
  {
    if i > 0 {
      NobodyGivesUpEarly(states, actions, i - 1);
      RunKeepsInv(states, actions, i - 1);
      assert Follows(states, actions, i - 1);
      if ReadsNothing(states[i]) { ReaderByOne(states[i - 1], actions[i - 1]); }
      if states[i].keepalive == KeepaliveDone { KeepaliveByOne(states[i - 1], actions[i - 1]); }
    }
  }

  // ------------------------------------------------------------------- progress

  /** How many moves the three goroutines have left before the wait returns. */
  function MovesLeft(s: State): nat {
    (match s.main
     case Selecting => 4
     case AwaitReader => 3
     case StopKeepalive => 2
     case AwaitKeepalive => 1
     case Returned => 0)
    + (match s.reader case Reading => 2 case Sending(_) => 1 case ReaderDone => 0)
    + (match s.keepalive case Idling => 1 case Writing => 2 case KeepaliveDone => 0)
    + (if s.tick then 2 else 0)
  }

  /**
   Once its context has ended, the wait cannot get stuck: a goroutine can move
   until it has returned, and every move of a goroutine brings the return
   nearer. It is the deadline that the caller sets which unblocks the reader.
   Only frames read before that or buffered by then, and ticks, which come at
   most every keepalive interval, can put the return off.
   */
  lemma WaitEnds(states: seq<State>, actions: seq<Action>, i: nat, a: Action)
    requires IsRun(states, actions) && i < |states| && states[i].contextDone
    ensures states[i].main != Returned ==> exists b :: IsOwn(b) && Enabled(states[i], b)
    ensures IsOwn(a) && Enabled(states[i], a) ==> MovesLeft(Next(states[i], a)) < MovesLeft(states[i]) <= 10
    ensures a.ConnectionFails? && Enabled(states[i], a) ==> MovesLeft(Next(states[i], a)) < MovesLeft(states[i])
    ensures a.FrameArrives? && Enabled(states[i], a) ==>
      && MovesLeft(Next(states[i], a)) <= MovesLeft(states[i])
      && (states[i].main == Selecting || Next(states[i], a).buffered < states[i].buffered)
  {
    RunKeepsInv(states, actions, i);
    if states[i].main != Returned { SomeoneCanMove(states[i]); }
    if Enabled(states[i], a) {
      if IsOwn(a) { OwnMovesCount(states[i], a); }
      if a.FrameArrives? { FramesAreBounded(states[i], a); }
    }
  }

  lemma SomeoneCanMove(s: State)
    requires Inv(s) && s.contextDone && s.main != Returned
    ensures exists b :: IsOwn(b) && Enabled(s, b)
  {
    match s.main
    case Selecting => assert Enabled(s, MainTimesOut(0));
    case AwaitReader =>
      match s.reader {
        case Reading => assert Enabled(s, ReadTimesOut);
        case Sending(_) => assert Enabled(s, ReaderSends);
        case ReaderDone => assert Enabled(s, MainTakesResult);
      }
    case StopKeepalive => assert Enabled(s, MainStopsKeepalive);
    case AwaitKeepalive =>
      match s.keepalive {
        case Idling => assert Enabled(s, KeepaliveStops);
        case Writing => assert Enabled(s, WriteReturns(true));
        case KeepaliveDone => assert Enabled(s, MainReturns);
      }
  }

  lemma OwnMovesCount(s: State, a: Action)
    requires Inv(s) && IsOwn(a) && Enabled(s, a)
    ensures MovesLeft(Next(s, a)) < MovesLeft(s) <= 10
  {
    match a
    case MainTakesResult =>
    case KeepaliveWrites =>
    case _ =>
  }

  lemma FramesAreBounded(s: State, a: Action)
    requires Inv(s) && a.FrameArrives? && Enabled(s, a)
    ensures MovesLeft(Next(s, a)) <= MovesLeft(s)
    ensures s.main == Selecting || Next(s, a).buffered < s.buffered
  {
  }
}
