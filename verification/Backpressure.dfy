/**
 The gate in front of a DataChannel's send buffer. Output waits for the buffer
 to drain; control messages do not wait but are refused above a ceiling. Each
 check is separate from the send behind it, so other senders come in between.
 */
module Backpressure {

  const LOW_THRESHOLD := 4096
  const MAX_BUFFERED := 512 * 1024
  const MAX_CONTROL_BUFFERED := 2 * MAX_BUFFERED

  /** The one output sender: resting, past the drain of a stale signal, waiting, or let through. */
  datatype OutputPlace = Resting | Drained | Waiting | LetThrough

  /** The buffer, the one-slot sendReady channel, the output sender, and the control senders past their check. */
  datatype State = State(buffered: nat, sendReady: bool, output: OutputPlace, controls: nat)

  const INITIAL := State(0, false, Resting, 0)

  datatype Action =
    | StartOutput
    | CheckBuffer
    | TakeSignal
    | GiveUp
    | SendOutput(size: nat)
    | CheckControl
    | SendControl(size: nat)
    | Drain(bytes: nat)

  /** At most maxControls control senders at a time, and messages of at most maxSize bytes. */
  predicate Enabled(s: State, a: Action, maxControls: nat, maxSize: nat) {
    match a
    case StartOutput => s.output == Resting
    case CheckBuffer => s.output == Drained
    case TakeSignal => s.output == Waiting && s.sendReady
    case GiveUp => s.output == Waiting
    case SendOutput(size) => s.output == LetThrough && size <= maxSize
    case CheckControl => s.controls < maxControls
    case SendControl(size) => s.controls > 0 && size <= maxSize
    case Drain(bytes) => bytes <= s.buffered
  }

  /** The low-water callback runs with the drain that crosses the threshold. */
  function Next(s: State, a: Action, maxControls: nat, maxSize: nat): State
    requires Enabled(s, a, maxControls, maxSize)
  {
    match a
    case StartOutput => s.(output := Drained, sendReady := false)
    case CheckBuffer => s.(output := if s.buffered <= MAX_BUFFERED then LetThrough else Waiting)
    case TakeSignal => s.(output := LetThrough, sendReady := false)
    case GiveUp => s.(output := Resting)
    case SendOutput(size) => s.(output := Resting, buffered := s.buffered + size)
    case CheckControl => if s.buffered <= MAX_CONTROL_BUFFERED then s.(controls := s.controls + 1) else s
    case SendControl(size) => s.(controls := s.controls - 1, buffered := s.buffered + size)
    case Drain(bytes) =>
      var left := s.buffered - bytes;
      s.(buffered := left, sendReady := s.sendReady || s.buffered > LOW_THRESHOLD >= left)
  }

  ghost predicate Follows(states: seq<State>, actions: seq<Action>, maxControls: nat, maxSize: nat, i: nat)
    requires i < |actions| < |states|
  {
    Enabled(states[i], actions[i], maxControls, maxSize)
      && states[i + 1] == Next(states[i], actions[i], maxControls, maxSize)
  }

  ghost predicate IsRun(states: seq<State>, actions: seq<Action>, maxControls: nat, maxSize: nat) {
    && |states| == |actions| + 1
    && states[0] == INITIAL
    && forall i: nat :: i < |actions| ==> Follows(states, actions, maxControls, maxSize, i)
  }

  function Bound(maxControls: nat, maxSize: nat): nat {
    MAX_CONTROL_BUFFERED + (maxControls + 1) * maxSize
  }

  /** Output that was let through, or is about to be by a signal newer than its last drain. */
  predicate SignalIsFresh(s: State) {
    s.output == LetThrough || (s.sendReady && (s.output == Drained || s.output == Waiting))
  }

  /**
   The buffer and everything that control senders may still add stay below the
   bound, with room for one more output message where one may be let through.
   */
  ghost predicate Inv(s: State, maxControls: nat, maxSize: nat) {
    && s.controls <= maxControls
    && s.buffered + s.controls * maxSize <= Bound(maxControls, maxSize)
    && (SignalIsFresh(s) ==> s.buffered + s.controls * maxSize + maxSize <= Bound(maxControls, maxSize))
  }

  lemma Products(controls: nat, maxControls: nat, maxSize: nat)
    ensures (controls + 1) * maxSize == controls * maxSize + maxSize
    ensures controls <= maxControls ==> controls * maxSize <= maxControls * maxSize
  {
  }

  lemma NextKeepsInv(s: State, a: Action, maxControls: nat, maxSize: nat)
    requires Inv(s, maxControls, maxSize) && Enabled(s, a, maxControls, maxSize)
    ensures Inv(Next(s, a, maxControls, maxSize), maxControls, maxSize)
  {
    Products(s.controls, maxControls, maxSize);
    Products(s.controls + 1, maxControls, maxSize);
    Products(maxControls, maxControls, maxSize);
    if s.controls > 0 { Products(s.controls - 1, maxControls, maxSize); }
  }

  /** In every run the buffer stays within the ceiling and one message for each control sender and the output sender. */
  lemma {:induction false} BufferStaysBounded(states: seq<State>, actions: seq<Action>,
      maxControls: nat, maxSize: nat, i: nat)
    requires IsRun(states, actions, maxControls, maxSize) && i < |states|
    ensures Inv(states[i], maxControls, maxSize)
    ensures states[i].buffered <= MAX_CONTROL_BUFFERED + (maxControls + 1) * maxSize
  {
    if i > 0 {
      BufferStaysBounded(states, actions, maxControls, maxSize, i - 1);
      assert Follows(states, actions, maxControls, maxSize, i - 1);
      NextKeepsInv(states[i - 1], actions[i - 1], maxControls, maxSize);
    }
  }

  // ------------------------------------------------------------ no lost wake-up

  /** An output send that waits on a drained buffer has its signal waiting for it. */
  predicate IsWoken(s: State) {
    s.output == Waiting && s.buffered <= LOW_THRESHOLD ==> s.sendReady
  }

  /** No signal is lost: whenever the buffer has drained, a waiting output send can go on. */
  lemma {:induction false} DrainWakesOutput(states: seq<State>, actions: seq<Action>,
      maxControls: nat, maxSize: nat, i: nat)
    requires IsRun(states, actions, maxControls, maxSize) && i < |states|
    ensures IsWoken(states[i])
    ensures states[i].output == Waiting && states[i].buffered <= LOW_THRESHOLD ==>
      Enabled(states[i], TakeSignal, maxControls, maxSize)
  {
    if i > 0 {
      DrainWakesOutput(states, actions, maxControls, maxSize, i - 1);
      assert Follows(states, actions, maxControls, maxSize, i - 1);
    }
  }

  /** Step k drains the buffer across the low-water mark, and the token of that has been there since. */
  ghost predicate DrainedAt(states: seq<State>, actions: seq<Action>, k: nat, i: nat)
    requires k < i < |states| && |states| == |actions| + 1
  {
    && actions[k].Drain? && states[k].buffered > 4096 && states[k + 1].buffered <= 4096
    && forall x :: k < x <= i ==> states[x].sendReady
  }

  /** A wakeup never comes from nowhere: the buffer was drained across the mark since the last one was taken. */
  lemma {:induction false} WakeupsComeFromDrains(states: seq<State>, actions: seq<Action>,
      maxControls: nat, maxSize: nat, i: nat)
    requires IsRun(states, actions, maxControls, maxSize) && i < |states| && states[i].sendReady
    ensures exists k: nat :: k < i && DrainedAt(states, actions, k, i)
  {
    assert i > 0;
    assert Follows(states, actions, maxControls, maxSize, i - 1);
    if states[i - 1].sendReady {
      WakeupsComeFromDrains(states, actions, maxControls, maxSize, i - 1);
      var k: nat :| k < i - 1 && DrainedAt(states, actions, k, i - 1);
      assert DrainedAt(states, actions, k, i);
    } else {
      assert DrainedAt(states, actions, i - 1, i);
    }
  }

  // --------------------------------------------------- when the gate holds back

  /** The output send is where it came to at step k, and nothing has moved it since. */
  ghost predicate StandsSince(states: seq<State>, actions: seq<Action>, k: nat, i: nat)
    requires k < i < |states| && |states| == |actions| + 1
  {
    forall x :: k < x <= i ==> states[x].output == states[i].output
  }

  /** It waits since a check that found more than 512 KiB in the buffer. */
  ghost predicate WaitsForBacklog(states: seq<State>, actions: seq<Action>, i: nat)
    requires i < |states| && |states| == |actions| + 1
  {
    exists k: nat :: k < i && StandsSince(states, actions, k, i)
                     && actions[k] == CheckBuffer && states[k].buffered > 524_288
  }

  /** It was let through by a check that found no more than that, or by a wakeup. */
  ghost predicate WasLetThrough(states: seq<State>, actions: seq<Action>, i: nat)
    requires i < |states| && |states| == |actions| + 1
  {
    exists k: nat :: k < i && StandsSince(states, actions, k, i)
                     && ((actions[k] == CheckBuffer && states[k].buffered <= 524_288) || actions[k] == TakeSignal)
  }

  /**
   Output is held back only behind a check that found more than 512 KiB in the
   buffer, and sent only behind a check that found no more, or behind a wakeup.
   */
  lemma {:induction false} GateHasItsReason(states: seq<State>, actions: seq<Action>,
      maxControls: nat, maxSize: nat, i: nat)
    requires IsRun(states, actions, maxControls, maxSize) && i < |states|
    ensures states[i].output == Waiting ==> WaitsForBacklog(states, actions, i)
    ensures states[i].output == LetThrough ==> WasLetThrough(states, actions, i)
  {
    if i > 0 {
      GateHasItsReason(states, actions, maxControls, maxSize, i - 1);
      assert Follows(states, actions, maxControls, maxSize, i - 1);
      if states[i].output == states[i - 1].output {
        ReasonStands(states, actions, i);
      } else if states[i].output == Waiting || states[i].output == LetThrough {
        assert StandsSince(states, actions, i - 1, i);
      }
    }
  }

  lemma ReasonStands(states: seq<State>, actions: seq<Action>, i: nat)
    requires 0 < i < |states| && |states| == |actions| + 1 && states[i].output == states[i - 1].output
    ensures WaitsForBacklog(states, actions, i - 1) ==> WaitsForBacklog(states, actions, i)
    ensures WasLetThrough(states, actions, i - 1) ==> WasLetThrough(states, actions, i)
  {
    if WaitsForBacklog(states, actions, i - 1) {
      var k: nat :| k < i - 1 && actions[k] == CheckBuffer && states[k].buffered > 524_288
        && StandsSince(states, actions, k, i - 1);
      assert StandsSince(states, actions, k, i);
    }
    if WasLetThrough(states, actions, i - 1) {
      var k: nat :| k < i - 1 && StandsSince(states, actions, k, i - 1)
        && ((actions[k] == CheckBuffer && states[k].buffered <= 524_288) || actions[k] == TakeSignal);
      assert StandsSince(states, actions, k, i);
    }
  }

  /** Output that starts on a buffer of at most 512 KiB goes out without waiting, and on a fuller one it waits. */
  lemma OutputGoesOut(s: State, size: nat, maxControls: nat, maxSize: nat)
    requires s.output == Resting && size <= maxSize
    ensures var s1 := Next(s, StartOutput, maxControls, maxSize);
            var s2 := Next(s1, CheckBuffer, maxControls, maxSize);
            if s.buffered <= 524_288
            then Enabled(s2, SendOutput(size), maxControls, maxSize)
                 && Next(s2, SendOutput(size), maxControls, maxSize)
                    == s.(buffered := s.buffered + size, sendReady := false)
            else s2.output == Waiting && !s2.sendReady && forall n :: !Enabled(s2, SendOutput(n), maxControls, maxSize)
  {
  }

  /** A control message never waits: it goes out on a buffer of at most 1 MiB, and is refused on a fuller one. */
  lemma ControlGoesOut(s: State, size: nat, maxControls: nat, maxSize: nat)
    requires s.controls < maxControls && size <= maxSize
    ensures var s1 := Next(s, CheckControl, maxControls, maxSize);
            if s.buffered <= 1_048_576
            then Enabled(s1, SendControl(size), maxControls, maxSize)
                 && Next(s1, SendControl(size), maxControls, maxSize) == s.(buffered := s.buffered + size)
            else s1 == s
  {
  }

  // ------------------------------------------------------- the bound is reached

  ghost predicate Reachable(s: State, maxControls: nat, maxSize: nat) {
    exists states, actions :: IsRun(states, actions, maxControls, maxSize) && s == states[|actions|]
  }

  lemma Reach(s: State, a: Action, maxControls: nat, maxSize: nat)
    requires Reachable(s, maxControls, maxSize) && Enabled(s, a, maxControls, maxSize)
    ensures Reachable(Next(s, a, maxControls, maxSize), maxControls, maxSize)
  {
    var states, actions :| IsRun(states, actions, maxControls, maxSize) && s == states[|actions|];
    var states', actions' := states + [Next(s, a, maxControls, maxSize)], actions + [a];
    forall i: nat | i < |actions'| ensures Follows(states', actions', maxControls, maxSize, i) {
      if i < |actions| { assert Follows(states, actions, maxControls, maxSize, i); }
    }
    assert IsRun(states', actions', maxControls, maxSize);
  }

  /** Control messages of one byte fill the buffer to any level up to the ceiling. */
  lemma {:induction false} ControlsFill(s: State, level: nat, maxControls: nat, maxSize: nat)
    requires Reachable(s, maxControls, maxSize) && s.controls == 0 && maxControls > 0 && maxSize > 0
    requires s.buffered <= level <= MAX_CONTROL_BUFFERED
    ensures Reachable(s.(buffered := level), maxControls, maxSize)
    decreases level - s.buffered
  {
    if s.buffered < level {
      Reach(s, CheckControl, maxControls, maxSize);
      Reach(s.(controls := 1), SendControl(1), maxControls, maxSize);
      ControlsFill(s.(buffered := s.buffered + 1), level, maxControls, maxSize);
    }
  }

  /** At the ceiling, every control sender still passes its check. */
  lemma {:induction false} ControlsPass(s: State, n: nat, maxControls: nat, maxSize: nat)
    requires Reachable(s.(controls := 0), maxControls, maxSize)
    requires s.buffered <= MAX_CONTROL_BUFFERED && n <= maxControls
    ensures Reachable(s.(controls := n), maxControls, maxSize)
  {
    if n > 0 {
      ControlsPass(s, n - 1, maxControls, maxSize);
      Reach(s.(controls := n - 1), CheckControl, maxControls, maxSize);
    }
  }

  lemma {:induction false} ControlsSend(s: State, maxControls: nat, maxSize: nat)
    requires Reachable(s, maxControls, maxSize)
    ensures Reachable(s.(controls := 0, buffered := s.buffered + s.controls * maxSize), maxControls, maxSize)
    decreases s.controls
  {
    if s.controls > 0 {
      Reach(s, SendControl(maxSize), maxControls, maxSize);
      Products(s.controls - 1, maxControls, maxSize);
      ControlsSend(s.(controls := s.controls - 1, buffered := s.buffered + maxSize), maxControls, maxSize);
    }
  }

  /** The bound cannot be improved: with at least one control sender, some run reaches it. */
  lemma BoundIsReached(maxControls: nat, maxSize: nat)
    requires maxControls > 0 && maxSize > 0
    ensures exists s :: Reachable(s, maxControls, maxSize) && s.buffered == Bound(maxControls, maxSize)
  {
    assert IsRun([INITIAL], [], maxControls, maxSize);
    ControlsFill(INITIAL, MAX_CONTROL_BUFFERED, maxControls, maxSize);
    var full := INITIAL.(buffered := MAX_CONTROL_BUFFERED);
    Reach(full, StartOutput, maxControls, maxSize);
    Reach(full.(output := Drained), CheckBuffer, maxControls, maxSize);
    Reach(full.(output := Waiting), Drain(MAX_CONTROL_BUFFERED), maxControls, maxSize);
    var drained := State(0, true, Waiting, 0);
    ControlsFill(drained, MAX_CONTROL_BUFFERED, maxControls, maxSize);
    var refilled := drained.(buffered := MAX_CONTROL_BUFFERED);
    ControlsPass(refilled, maxControls, maxControls, maxSize);
    Reach(refilled.(controls := maxControls), TakeSignal, maxControls, maxSize);
    var let := State(MAX_CONTROL_BUFFERED, false, LetThrough, maxControls);
    Reach(let, SendOutput(maxSize), maxControls, maxSize);
    ControlsSend(let.(output := Resting, buffered := MAX_CONTROL_BUFFERED + maxSize), maxControls, maxSize);
    Products(maxControls, maxControls, maxSize);
  }
}
