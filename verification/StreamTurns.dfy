/** One turn of the output stream, as the bytes see it and as the handler's threads see it. */
module StreamTurns {
  import opened HandlerSteps
  import StreamPayloads

  type Turn = StreamPayloads.Turn
  type Ending = StreamPayloads.Ending
  type Chunk = StreamPayloads.Chunk

  /** How the thread's read, what it makes of the data, and its send come out in a turn. */
  function ReadChoice(turn: Turn): Choice {
    if turn.read.Bytes? then Works else Fails
  }

  function GotChoice(turn: Turn, text: Chunk, compressed: bool): Choice {
    if text == [] then Skips else if compressed && !turn.compresses then Fails else Works
  }

  function SendChoice(turn: Turn): Choice {
    if turn.sends then Works else Fails
  }

  /** The states that the thread finds at its steps of one turn; others move in between. */
  datatype Seen = Seen(atTop: State, atRead: State, behindRead: State, atSend: State, atFailure: State)

  /** The thread's steps of one turn: top of the loop, read, data, send, and what follows a failure. */
  function Turned(th: Thread, seen: Seen, turn: Turn, text: Chunk, compressed: bool): Thread {
    var top := NextOwn(seen.atTop, th, StreamLoop, Works);
    if top.at != Own(StreamRead) then top
    else
      var read := NextOwn(seen.atRead, top, StreamRead, ReadChoice(turn));
      if read.at != Own(StreamGot) then read
      else
        var got := NextOwn(seen.behindRead, read, StreamGot, GotChoice(turn, text, compressed));
        var sent := if got.at == Own(StreamSend) then NextOwn(seen.atSend, got, StreamSend, SendChoice(turn)) else got;
        if sent.at == Own(StreamFailed) then NextOwn(seen.atFailure, sent, StreamFailed, Works) else sent
  }

  /** The turn tells what the thread finds: who has been cancelled when it asks, and what its read returns. */
  predicate Tells(turn: Turn, seen: Seen, th: Thread) {
    && seen.atTop.IsCancelled(th.mine) == turn.cancelledBefore
    && (if turn.read.Bytes? then seen.behindRead else seen.atRead).IsCancelled(th.mine) == turn.cancelledAfterRead
    && (!turn.read.Bytes? ==> (IsDisplaced(seen.atRead, th.mine) <==> turn.read.BridgeDisplaced?))
    && seen.atFailure.IsCancelled(th.mine) == turn.cancelledAtFailure
  }

  /** Where each ending leads: round the loop, out, to the pane's exit, or to a detach with a reset behind it. */
  function Behind(th: Thread, ending: Ending): Thread {
    match ending
    case Running => th
    case Cancelled => th.(at := Own(EndStream))
    case PaneExited => th.(at := Exit(TryExit), wait := false, cont := ToEnd)
    case Displaced => th.(at := Detach(TakeEntry), wait := false, cont := ToReset)
    case CompressionFailed => th.(at := Detach(TakeEntry), wait := false, cont := ToReset)
    case SendFailed => th.(at := Detach(TakeEntry), wait := false, cont := ToReset)
  }

  /**
   Both descriptions of a turn agree, whatever other threads do between the
   thread's steps: the ending that the turn of bytes comes to is where the
   handler's thread goes on.
   */
  lemma TurnsAgree(th: Thread, seen: Seen, turn: Turn, text: Chunk, compressed: bool, ending: Ending)
    requires th.at == Own(StreamLoop) && Tells(turn, seen, th)
    requires StreamPayloads.EndsRightly(turn, text, compressed, ending)
    ensures Turned(th, seen, turn, text, compressed) == Behind(th, ending)
  {
    match ending
    case Running =>
    case Cancelled => CancelledTurnsAgree(th, seen, turn, text, compressed);
    case PaneExited =>
    case Displaced =>
    case CompressionFailed =>
    case SendFailed =>
  }

  lemma CancelledTurnsAgree(th: Thread, seen: Seen, turn: Turn, text: Chunk, compressed: bool)
    requires th.at == Own(StreamLoop) && Tells(turn, seen, th)
    requires StreamPayloads.EndsRightly(turn, text, compressed, StreamPayloads.Cancelled)
    ensures Turned(th, seen, turn, text, compressed) == th.(at := Own(EndStream))
  {
  }
}
