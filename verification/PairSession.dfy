/**
 The pairing WebSocket session: authentication, the wait for the mobile's
 pair_complete, and the host's one answer to it. A method that reads is given
 the frames that arrive before its connection's read fails.
 */
module PairSessions {
  import opened Common
  import opened PairingStore

  datatype Completion = Completion(mobile: DeviceId, key: seq<byte>, name: string, mac: seq<byte>)

  /** A frame by what it unmarshals to; a pair_complete that does not unmarshal is Malformed. */
  datatype Frame =
    | Malformed
    | AuthReply
    | ErrorFrame
    | PairComplete(msg: Completion)
    | PairResult(mobile: DeviceId, ok: bool)
    | OtherFrame

  datatype Decision = PairAccept(mobile: DeviceId) | PairReject(mobile: DeviceId)

  function FirstCompletion(frames: seq<Frame>): Option<Completion> {
    if frames == [] then None
    else
      var n := |frames| - 1;
      var earlier := FirstCompletion(frames[..n]);
      if earlier.Some? then earlier
      else if frames[n].PairComplete? then Some(frames[n].msg)
      else None
  }

  ghost predicate CompletesAt(frames: seq<Frame>, i: nat, m: Completion) {
    && i < |frames| && frames[i] == PairComplete(m)
    && forall j :: 0 <= j < i ==> !frames[j].PairComplete?
  }

  /** It is the first one: it is there, and none is before it. */
  lemma {:induction false} FirstCompletionIsFirst(frames: seq<Frame>)
    ensures match FirstCompletion(frames)
            case None => forall i :: 0 <= i < |frames| ==> !frames[i].PairComplete?
            case Some(_) => exists i: nat :: CompletesAt(frames, i, FirstCompletion(frames).value)
  {
    if frames != [] {
      var n := |frames| - 1;
      FirstCompletionIsFirst(frames[..n]);
      assert forall i :: 0 <= i < n ==> frames[..n][i] == frames[i];
      if FirstCompletion(frames[..n]).Some? {
        var i: nat :| CompletesAt(frames[..n], i, FirstCompletion(frames[..n]).value);
        assert CompletesAt(frames, i, FirstCompletion(frames).value);
      } else if frames[n].PairComplete? {
        forall j | 0 <= j < n ensures !frames[j].PairComplete? { assert frames[j] == frames[..n][j]; }
        assert CompletesAt(frames, n, FirstCompletion(frames).value);
      }
    }
  }

  predicate EndsAuth(f: Frame) {
    f.AuthReply? || f.ErrorFrame?
  }

  /** The frames in front of the one that ends the wait for the server's auth reply. */
  function BeforeAuthEnd(frames: seq<Frame>): (front: seq<Frame>)
    ensures front <= frames
    ensures forall f :: f in front ==> !EndsAuth(f)
    ensures |front| < |frames| ==> EndsAuth(frames[|front|])
  {
    if frames == [] || EndsAuth(frames[0]) then [] else [frames[0]] + BeforeAuthEnd(frames[1..])
  }

  /** It is the only such front of the frames. */
  lemma {:induction false} AuthEndsOnce(frames: seq<Frame>, k: nat)
    requires k <= |frames| && forall j :: 0 <= j < k ==> !EndsAuth(frames[j])
    requires k < |frames| ==> EndsAuth(frames[k])
    ensures BeforeAuthEnd(frames) == frames[..k]
  {
    if k > 0 {
      AuthEndsOnce(frames[1..], k - 1);
      assert frames[..k] == [frames[0]] + frames[1..][..k - 1];
    }
  }

  predicate Authenticates(sends: bool, frames: seq<Frame>) {
    var k := |BeforeAuthEnd(frames)|;
    sends && k < |frames| && frames[k] == AuthReply
  }

  predicate AnswersAccept(f: Frame, mobile: DeviceId) {
    f.ErrorFrame? || (f.PairResult? && f.mobile == mobile)
  }

  /** The frame that decides an Accept, if one arrives: the first about this mobile, or the first error. */
  ghost predicate IsVerdict(frames: seq<Frame>, i: nat, mobile: DeviceId) {
    && i < |frames| && AnswersAccept(frames[i], mobile)
    && forall j :: 0 <= j < i ==> !AnswersAccept(frames[j], mobile)
  }

  /** The server said, first of all, that it committed the pairing with this mobile. */
  ghost predicate Confirms(frames: seq<Frame>, mobile: DeviceId) {
    exists i: nat :: IsVerdict(frames, i, mobile) && frames[i] == PairResult(mobile, true)
  }

  /** The session's fields, and the decisions it tried to send. */
  datatype Session = Session(
    confirm: bool,
    received: Option<Completion>,
    waited: bool,
    decided: bool,
    decisions: seq<Decision>
  )

  predicate MayDecide(s: Session) {
    s.confirm && s.received.Some?
  }

  function Rejecting(s: Session): Session {
    if MayDecide(s) then s.(decided := true, decisions := s.decisions + [PairReject(s.received.value.mobile)]) else s
  }

  function Accepting(s: Session): Session {
    if MayDecide(s) then s.(decided := true, decisions := s.decisions + [PairAccept(s.received.value.mobile)]) else s
  }

  /** Close rejects what was received and not answered. */
  function Closing(s: Session): Session {
    if s.decided then s else Rejecting(s)
  }

  class PairSession {
    const confirm: bool
    var received: Option<Completion>
    var waited: bool
    var decided: bool
    var decisions: seq<Decision>

    ghost function View(): Session
      reads this
    {
      Session(confirm, received, waited, decided, decisions)
    }

    constructor (confirm: bool)
      ensures View() == Session(confirm, None, false, false, [])
    {
      this.confirm := confirm;
      received, waited, decided, decisions := None, false, false, [];
    }

    /**
     Reads until the auth reply. A pair_complete that comes first is kept,
     and only the first one.
     */
    method Authenticate(sends: bool, frames: seq<Frame>) returns (ok: bool)
      requires received == None
      modifies this`received
      ensures ok <==> Authenticates(sends, frames)
      ensures received == if sends then FirstCompletion(BeforeAuthEnd(frames)) else None
    {
      if !sends {
        return false;
      }
      var i := 0;
      while i < |frames|
        invariant 0 <= i <= |frames|
        invariant forall j :: 0 <= j < i ==> !EndsAuth(frames[j])
        invariant received == FirstCompletion(frames[..i])
      {
        match frames[i] {
          case AuthReply =>
            AuthEndsOnce(frames, i);
            return true;
          case ErrorFrame =>
            AuthEndsOnce(frames, i);
            return false;
          case PairComplete(msg) =>
            if received.None? {
              received := Some(msg);
            }
          case _ =>
        }
        assert frames[..i + 1][..i] == frames[..i];
        i := i + 1;
      }
      AuthEndsOnce(frames, i);
      ok := false;
    }

    /**
     Waits for a pair_complete, once. Whenever one was received it is
     returned, whether or not it comes with an error.
     */
    method WaitForPairComplete(frames: seq<Frame>, timesOut: bool) returns (msg: Option<Completion>, ok: bool)
      modifies this`received, this`waited
      ensures waited
      ensures old(waited) ==> (msg, ok) == (None, false) && received == old(received)
      ensures !old(waited) ==>
        && received == (if old(received).Some? then old(received) else FirstCompletion(frames))
        && msg == received
        && (ok <==> received.Some? && ValidDeviceId(received.value.mobile) && (old(received).Some? || !timesOut))
    {
      if waited {
        return None, false;
      }
      waited := true;
      if received.None? {
        received := ReadPairComplete(frames);
        if timesOut || received.None? {
          return received, false;
        }
      }
      return received, ValidDeviceId(received.value.mobile);
    }

    /** The reader's loop: frames until the first pair_complete. */
    static method ReadPairComplete(frames: seq<Frame>) returns (msg: Option<Completion>)
      ensures msg == FirstCompletion(frames)
    {
      msg := None;
      var i := 0;
      while i < |frames| && msg.None?
        invariant 0 <= i <= |frames|
        invariant msg == FirstCompletion(frames[..i])
      {
        assert frames[..i + 1][..i] == frames[..i];
        if frames[i].PairComplete? {
          msg := Some(frames[i].msg);
        }
        i := i + 1;
      }
      if msg.Some? { FirstCompletionStays(frames, i); }
      assert frames[..|frames|] == frames;
    }

    method SendDecision(d: Decision, sends: bool) returns (ok: bool)
      modifies this`decided, this`decisions
      ensures decided && decisions == old(decisions) + [d] && ok == sends
    {
      decided := true;
      decisions := decisions + [d];
      ok := sends;
    }

    method Reject(sends: bool) returns (ok: bool)
      modifies this`decided, this`decisions
      ensures View() == Rejecting(old(View()))
      ensures ok == (MayDecide(View()) && sends)
    {
      if !confirm || received.None? {
        return false;
      }
      ok := SendDecision(PairReject(received.value.mobile), sends);
    }

    /** Succeeds only if the server said that it committed this mobile. */
    method Accept(sends: bool, frames: seq<Frame>) returns (ok: bool)
      modifies this`decided, this`decisions
      ensures View() == Accepting(old(View()))
      ensures ok <==> MayDecide(old(View())) && sends && Confirms(frames, old(received).value.mobile)
    {
      if !confirm || received.None? {
        return false;
      }
      var mobile := received.value.mobile;
      var sent := SendDecision(PairAccept(mobile), sends);
      if !sent {
        return false;
      }
      var i := 0;
      while i < |frames|
        invariant 0 <= i <= |frames|
        invariant decided && decisions == old(decisions) + [PairAccept(mobile)] && received == old(received)
        invariant forall j :: 0 <= j < i ==> !AnswersAccept(frames[j], mobile)
      {
        match frames[i] {
          case PairResult(m, committed) =>
            if m == mobile {
              assert IsVerdict(frames, i, mobile);
              return committed;
            }
          case ErrorFrame =>
            assert IsVerdict(frames, i, mobile);
            return false;
          case _ =>
        }
        i := i + 1;
      }
      ok := false;
    }

    method Close(sends: bool) returns (ok: bool)
      modifies this`decided, this`decisions
      ensures View() == Closing(old(View()))
    {
      ok := true;
      if confirm && received.Some? && !decided {
        ok := Reject(sends);
      }
    }
  }

  lemma {:induction false} FirstCompletionStays(frames: seq<Frame>, i: nat)
    requires i <= |frames| && FirstCompletion(frames[..i]).Some?
    ensures FirstCompletion(frames) == FirstCompletion(frames[..i])
  {
    if i == |frames| {
      assert frames[..i] == frames;
    } else {
      var n := |frames| - 1;
      assert frames[..n][..i] == frames[..i];
      FirstCompletionStays(frames[..n], i);
    }
  }
}
