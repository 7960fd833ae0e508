/**
 The payloads of one attachment: the bytes sent before the stream starts, then
 what the output stream reads from its bridge, filters, compresses and sends.

 The compressor is any pair of functions in which inflating the payloads in
 order gives back the data in order; nothing is promised about a sequence of
 payloads with a gap or with raw bytes in it.
 */
module StreamPayloads {
  import opened Common
  import opened TitleFilters

  type Chunk = seq<byte>

  // -------------------------------------------------------------------- codec

  /**
   A stateful compressor by what it returns: the payload of a chunk, given the
   chunks compressed before it, and the data of a payload, given the payloads
   inflated before it.
   */
  datatype Codec = Codec(
    deflate: (seq<Chunk>, Chunk) -> Chunk,
    inflate: (seq<Chunk>, Chunk) -> Chunk
  )

  function Encode(codec: Codec, chunks: seq<Chunk>): (payloads: seq<Chunk>)
    ensures |payloads| == |chunks|
  {
    if chunks == [] then []
    else
      var n := |chunks| - 1;
      Encode(codec, chunks[..n]) + [codec.deflate(chunks[..n], chunks[n])]
  }

  function Decode(codec: Codec, payloads: seq<Chunk>): Chunk {
    if payloads == [] then []
    else
      var n := |payloads| - 1;
      Decode(codec, payloads[..n]) + codec.inflate(payloads[..n], payloads[n])
  }

  /** Inflating is the inverse of compressing, as long as every payload so far came in, in order. */
  ghost predicate Lawful(codec: Codec) {
    forall history: seq<Chunk>, data: Chunk ::
      codec.inflate(Encode(codec, history), codec.deflate(history, data)) == data
  }

  lemma {:induction false} FlattenSnoc(chunks: seq<Chunk>, last: Chunk)
    ensures Flatten(chunks + [last]) == Flatten(chunks) + last
  {
    FlattenAppend(chunks, [last]);
    FlattenOne(last);
  }

  lemma EncodeSnoc(codec: Codec, chunks: seq<Chunk>, last: Chunk)
    ensures Encode(codec, chunks + [last]) == Encode(codec, chunks) + [codec.deflate(chunks, last)]
  {
    assert (chunks + [last])[..|chunks|] == chunks;
  }

  /** A fresh inflater fed a gap-free sequence of payloads recovers the data. */
  lemma {:induction false} DecodeEncode(codec: Codec, chunks: seq<Chunk>)
    requires Lawful(codec)
    ensures Decode(codec, Encode(codec, chunks)) == Flatten(chunks)
  {
    if chunks != [] {
      var n := |chunks| - 1;
      DecodeEncode(codec, chunks[..n]);
      assert chunks == chunks[..n] + [chunks[n]];
      FlattenSnoc(chunks[..n], chunks[n]);
      assert Encode(codec, chunks)[..n] == Encode(codec, chunks[..n]);
    }
  }

  // ------------------------------------------------------------- an example

  function Flipped(data: Chunk, flip: bool): (r: Chunk)
    ensures |r| == |data|
  {
    seq(|data|, i requires 0 <= i < |data| => if flip then 255 - data[i] else data[i])
  }

  predicate IsOdd(chunks: seq<Chunk>) {
    |Flatten(chunks)| % 2 == 1
  }

  /** A codec whose payloads depend on everything sent before, as those of deflate do. */
  function FlippingCodec(): Codec {
    Codec((history, data) => Flipped(data, IsOdd(history)),
          (received, payload) => Flipped(payload, IsOdd(received)))
  }

  lemma {:induction false} FlippingKeepsLengths(chunks: seq<Chunk>)
    ensures |Flatten(Encode(FlippingCodec(), chunks))| == |Flatten(chunks)|
  {
    if chunks != [] {
      var n := |chunks| - 1;
      FlippingKeepsLengths(chunks[..n]);
      assert chunks == chunks[..n] + [chunks[n]];
      FlattenSnoc(chunks[..n], chunks[n]);
      FlattenSnoc(Encode(FlippingCodec(), chunks[..n]), Flipped(chunks[n], IsOdd(chunks[..n])));
    }
  }

  lemma FlippingIsLawful()
    ensures Lawful(FlippingCodec())
  {
    forall history: seq<Chunk>, data: Chunk
      ensures FlippingCodec().inflate(Encode(FlippingCodec(), history), FlippingCodec().deflate(history, data)) == data
    {
      FlippingKeepsLengths(history);
      assert Flipped(Flipped(data, IsOdd(history)), IsOdd(history)) == data;
    }
  }

  lemma FlippingPayloads(first: Chunk, second: Chunk)
    requires |first| == 1
    ensures Encode(FlippingCodec(), [first]) == [Flipped(first, false)]
    ensures Encode(FlippingCodec(), [first, second]) == [Flipped(first, false), Flipped(second, true)]
  {
    assert [first, second] == [first] + [second] && [first] == [] + [first];
    EncodeSnoc(FlippingCodec(), [], first);
    EncodeSnoc(FlippingCodec(), [first], second);
    FlattenOne(first);
  }

  /** Even with a lawful codec, one lost payload is enough to lose what comes behind it. */
  lemma GapsAreNotRecovered()
    ensures exists codec, first: Chunk, second: Chunk ::
              Lawful(codec) && Decode(codec, Encode(codec, [first, second])[1..]) != second
  {
    var codec, zero := FlippingCodec(), [0 as byte];
    FlippingIsLawful();
    FlippingPayloads(zero, zero);
    var late := Encode(codec, [zero, zero])[1..];
    assert late == [Flipped(zero, true)] && late[..0] == [];
    assert Decode(codec, late) == [] + codec.inflate([], Flipped(zero, true));
    assert Decode(codec, late)[0] == 255;
  }

  /** Nor are raw bytes recovered behind a compressed payload. */
  lemma RawBytesAreNotRecovered()
    ensures exists codec, first: Chunk, second: Chunk ::
              Lawful(codec) && Decode(codec, Encode(codec, [first]) + [second]) != first + second
  {
    var codec, zero := FlippingCodec(), [0 as byte];
    FlippingIsLawful();
    FlippingPayloads(zero, zero);
    DecodeEncode(codec, [zero]);
    FlattenOne(zero);
    FlattenOne(Flipped(zero, false));
    var payloads := Encode(codec, [zero]);
    assert (payloads + [zero])[..1] == payloads;
    assert Decode(codec, payloads + [zero]) == zero + codec.inflate(payloads, zero);
    assert codec.inflate(payloads, zero)[0] == 255;
    assert (zero + codec.inflate(payloads, zero))[1] == 255;
  }

  // ------------------------------------------------- compressed or not at all

  /** What goes on the wire for the chunks of an attachment. */
  function Payloads(codec: Option<Codec>, chunks: seq<Chunk>): seq<Chunk> {
    if codec.None? then chunks else Encode(codec.value, chunks)
  }

  /** What the receiver reads: the payloads as they are, or through a fresh inflater. */
  function Received(codec: Option<Codec>, payloads: seq<Chunk>): Chunk {
    if codec.None? then Flatten(payloads) else Decode(codec.value, payloads)
  }

  function Payload(codec: Option<Codec>, history: seq<Chunk>, data: Chunk): Chunk {
    if codec.None? then data else codec.value.deflate(history, data)
  }

  lemma PayloadsSnoc(codec: Option<Codec>, chunks: seq<Chunk>, last: Chunk)
    ensures Payloads(codec, chunks + [last]) == Payloads(codec, chunks) + [Payload(codec, chunks, last)]
  {
    if codec.Some? { EncodeSnoc(codec.value, chunks, last); }
  }

  class OutputCompressor {
    const codec: Codec
    ghost var chunks: seq<Chunk>
    var window: seq<Chunk>

    ghost predicate Valid()
      reads this
    {
      window == chunks
    }

    constructor (codec: Codec)
      ensures Valid() && this.codec == codec && chunks == []
    {
      this.codec := codec;
      chunks, window := [], [];
    }

    /** Compresses one chunk. A failure leaves the writer in an unknown state. */
    method Compress(data: Chunk, works: bool) returns (payload: Option<Chunk>)
      requires Valid()
      modifies this
      ensures payload.Some? <==> works
      ensures works ==> Valid() && chunks == old(chunks) + [data]
      ensures works ==> payload.value == codec.deflate(old(chunks), data)
    {
      if !works {
        window := *;
        return None;
      }
      payload := Some(codec.deflate(window, data));
      window := window + [data];
      chunks := chunks + [data];
    }
  }

  // --------------------------------------------------------------- the stream

  datatype Read = Bytes(data: Chunk) | BridgeDisplaced | BridgeEnded

  /** How the calls made in one turn of the stream's loop come out, and what its context says when asked. */
  datatype Turn = Turn(
    cancelledBefore: bool,
    read: Read,
    cancelledAfterRead: bool,
    compresses: bool,
    sends: bool,
    cancelledAtFailure: bool
  )

  datatype Ending = Running | Cancelled | PaneExited | Displaced | CompressionFailed | SendFailed

  /** The bytes that the turns read from the bridge, one chunk per turn. */
  function Reads(turns: seq<Turn>): seq<Chunk> {
    if turns == [] then []
    else
      var n := |turns| - 1;
      Reads(turns[..n]) + (if turns[n].read.Bytes? then [turns[n].read.data] else [])
  }

  lemma {:induction false} ReadsOfPrefix(turns: seq<Turn>, done: nat)
    requires done <= |turns|
    ensures Flatten(Reads(turns[..done])) <= Flatten(Reads(turns))
  {
    if done == |turns| {
      assert turns[..done] == turns;
    } else {
      var n := |turns| - 1;
      ReadsOfPrefix(turns[..n], done);
      assert turns[..n][..done] == turns[..done];
      FlattenAppend(Reads(turns[..n]), if turns[n].read.Bytes? then [turns[n].read.data] else []);
    }
  }

  function NonEmpty(chunks: seq<Chunk>): seq<Chunk> {
    if chunks == [] then []
    else
      var n := |chunks| - 1;
      NonEmpty(chunks[..n]) + (if chunks[n] == [] then [] else [chunks[n]])
  }

  lemma {:induction false} NonEmptyKeepsBytes(chunks: seq<Chunk>)
    ensures Flatten(NonEmpty(chunks)) == Flatten(chunks)
  {
    if chunks != [] {
      var n := |chunks| - 1;
      NonEmptyKeepsBytes(chunks[..n]);
      assert chunks == chunks[..n] + [chunks[n]];
      FlattenSnoc(chunks[..n], chunks[n]);
      if chunks[n] == [] {
        assert Flatten(chunks[..n]) + [] == Flatten(chunks[..n]);
        assert NonEmpty(chunks[..n]) + [] == NonEmpty(chunks[..n]);
      } else {
        FlattenSnoc(NonEmpty(chunks[..n]), chunks[n]);
      }
    }
  }

  /** The chunks that the stream has to send for the reads of some turns. */
  function Texts(turns: seq<Turn>): seq<Chunk> {
    NonEmpty(RunChunks(START, Reads(turns)).1)
  }

  lemma {:induction false} RunChunksSnoc(st: FilterState, chunks: seq<Chunk>, last: Chunk)
    ensures var mid := RunChunks(st, chunks);
            RunChunks(st, chunks + [last]) == (Run(mid.0, last).0, mid.1 + [Run(mid.0, last).1])
    decreases |chunks|
  {
    if chunks == [] {
      assert [last][1..] == [] && chunks + [last] == [last];
      var (next, out) := Run(st, last);
      assert RunChunks(next, []) == (next, []);
      assert RunChunks(st, [last]) == (next, [out] + []);
      assert [out] + [] == [] + [out];
    } else {
      assert (chunks + [last])[1..] == chunks[1..] + [last];
      var (next, out) := Run(st, chunks[0]);
      RunChunksSnoc(next, chunks[1..], last);
      var (end, outs) := RunChunks(next, chunks[1..]);
      assert [out] + (outs + [Run(end, last).1]) == ([out] + outs) + [Run(end, last).1];
    }
  }

  /** One more turn with data: the filter goes on from its state, and what it lets out is the next text. */
  lemma TextsSnoc(turns: seq<Turn>, i: nat)
    requires i < |turns| && turns[i].read.Bytes?
    ensures var st := RunChunks(START, Reads(turns[..i])).0;
            var (next, out) := Run(st, turns[i].read.data);
            && RunChunks(START, Reads(turns[..i + 1])).0 == next
            && Texts(turns[..i + 1]) == Texts(turns[..i]) + (if out == [] then [] else [out])
  {
    assert turns[..i + 1][..i] == turns[..i];
    RunChunksSnoc(START, Reads(turns[..i]), turns[i].read.data);
    var outs := RunChunks(START, Reads(turns[..i])).1;
    var out := Run(RunChunks(START, Reads(turns[..i])).0, turns[i].read.data).1;
    assert (outs + [out])[..|outs|] == outs;
  }

  /** How sending a text comes out. */
  function SendVerdict(turn: Turn, compressed: bool): Ending {
    if compressed && !turn.compresses then (if turn.cancelledAtFailure then Cancelled else CompressionFailed)
    else if !turn.sends then (if turn.cancelledAtFailure then Cancelled else SendFailed)
    else Running
  }

  /** What a turn must end the stream with, given the text it has to send. */
  function Verdict(turn: Turn, text: Chunk, compressed: bool): Ending {
    if turn.cancelledBefore then Cancelled
    else if turn.cancelledAfterRead then Cancelled
    else if turn.read.BridgeDisplaced? then Displaced
    else if turn.read.BridgeEnded? then PaneExited
    else if text == [] then Running
    else SendVerdict(turn, compressed)
  }

  /**
   What a turn's ending says about it. The stream goes on exactly if its context
   lasted, the bridge gave it bytes, and what they add to the output could be
   compressed and sent; a chunk that adds nothing needs no send. It ends as
   displaced or exited exactly if the bridge said so and nobody had cancelled it,
   as failed only if it was still not cancelled then, and as cancelled otherwise.
   */
  predicate EndsRightly(turn: Turn, text: Chunk, compressed: bool, ending: Ending) {
    var lasted := !turn.cancelledBefore && !turn.cancelledAfterRead;
    var mustSend := lasted && turn.read.Bytes? && text != [];
    && (ending == Running <==>
          lasted && turn.read.Bytes? && (text != [] ==> turn.sends && (compressed ==> turn.compresses)))
    && (ending == Displaced <==> lasted && turn.read.BridgeDisplaced?)
    && (ending == PaneExited <==> lasted && turn.read.BridgeEnded?)
    && (ending == CompressionFailed <==> mustSend && compressed && !turn.compresses && !turn.cancelledAtFailure)
    && (ending == SendFailed <==>
          mustSend && (compressed ==> turn.compresses) && !turn.sends && !turn.cancelledAtFailure)
    && (ending == Cancelled ==> turn.cancelledBefore || turn.cancelledAfterRead || turn.cancelledAtFailure)
  }

  lemma VerdictEndsRightly(turn: Turn, text: Chunk, compressed: bool)
    ensures EndsRightly(turn, text, compressed, Verdict(turn, text, compressed))
  {
  }

  /** The text of turn i, as the whole stream up to it determines it. */
  function TextAt(turns: seq<Turn>, i: nat): Chunk
    requires i < |turns|
  {
    if turns[i].read.Bytes? then Run(RunChunks(START, Reads(turns[..i])).0, turns[i].read.data).1 else []
  }

  function CodecOf(compressor: OutputCompressor?): Option<Codec> {
    if compressor == null then None else Some(compressor.codec)
  }

  /** The compressor, if there is one, was used for exactly these chunks. */
  ghost predicate HasSeen(compressor: OutputCompressor?, chunks: seq<Chunk>)
    reads compressor
  {
    compressor != null ==> compressor.Valid() && compressor.chunks == chunks
  }

  /** Compresses and sends one text, as the stream and the sends before it both do. */
  method SendText(compressor: OutputCompressor?, ghost history: seq<Chunk>, text: Chunk, turn: Turn)
    returns (payload: Chunk, ending: Ending)
    requires HasSeen(compressor, history)
    modifies compressor
    ensures ending == SendVerdict(turn, compressor != null)
    ensures ending == Running ==> HasSeen(compressor, history + [text])
    ensures ending == Running ==>
      Payloads(CodecOf(compressor), history + [text]) == Payloads(CodecOf(compressor), history) + [payload]
  {
    payload := text;
    if compressor != null {
      var compressed := compressor.Compress(text, turn.compresses);
      if compressed.None? {
        return payload, if turn.cancelledAtFailure then Cancelled else CompressionFailed;
      }
      payload := compressed.value;
    }
    if !turn.sends {
      return payload, if turn.cancelledAtFailure then Cancelled else SendFailed;
    }
    ending := Running;
    PayloadsSnoc(CodecOf(compressor), history, text);
  }

  /** Sent is what the compressor made of the texts of some turns, without a gap behind what was sent before. */
  ghost predicate WithoutGap(codec: Option<Codec>, before: seq<Chunk>, sent: seq<Chunk>, turns: seq<Turn>) {
    Payloads(codec, before) + sent == Payloads(codec, before + Texts(turns))
  }

  lemma TurnLeavesNoGap(codec: Option<Codec>, before: seq<Chunk>, sent: seq<Chunk>, turns: seq<Turn>, i: nat,
      payloads: seq<Chunk>)
    requires i < |turns| && turns[i].read.Bytes? && WithoutGap(codec, before, sent, turns[..i])
    requires var text, history := TextAt(turns, i), before + Texts(turns[..i]);
             if text == [] then payloads == []
             else Payloads(codec, history + [text]) == Payloads(codec, history) + payloads
    ensures WithoutGap(codec, before, sent + payloads, turns[..i + 1])
  {
    var text := TextAt(turns, i);
    TextsSnoc(turns, i);
    if text == [] {
      assert Texts(turns[..i + 1]) == Texts(turns[..i]);
      assert sent + payloads == sent;
    } else {
      Regroup(before, Texts(turns[..i]), [text]);
      Regroup(Payloads(codec, before), sent, payloads);
    }
  }

  /** The stream's filter and compressor are where the texts of some turns leave them. */
  ghost predicate StandsAt(filter: TitleFilter, compressor: OutputCompressor?, before: seq<Chunk>, turns: seq<Turn>)
    reads filter, compressor
  {
    && filter.Valid() && filter.View() == RunChunks(START, Reads(turns)).0
    && HasSeen(compressor, before + Texts(turns))
  }

  lemma NoTurnsYet(codec: Option<Codec>, before: seq<Chunk>, turns: seq<Turn>)
    ensures RunChunks(START, Reads(turns[..0])).0 == START
    ensures before + Texts(turns[..0]) == before
    ensures WithoutGap(codec, before, [], turns[..0])
  {
    assert turns[..0] == [];
    assert Texts([]) == [];
    NothingBehind(before);
    NothingBehind(Payloads(codec, before));
  }

  /** One turn of the stream's loop: at most one payload. */
  method StreamTurn(filter: TitleFilter, compressor: OutputCompressor?, ghost before: seq<Chunk>,
      turns: seq<Turn>, i: nat)
    returns (payloads: seq<Chunk>, ending: Ending)
    requires i < |turns| && StandsAt(filter, compressor, before, turns[..i])
    modifies filter, compressor
    ensures ending == Verdict(turns[i], TextAt(turns, i), compressor != null)
    ensures ending == Running ==> turns[i].read.Bytes? && StandsAt(filter, compressor, before, turns[..i + 1])
    ensures ending == Running ==>
      var text, history, codec := TextAt(turns, i), before + Texts(turns[..i]), CodecOf(compressor);
      if text == [] then payloads == []
      else Payloads(codec, history + [text]) == Payloads(codec, history) + payloads
  {
    var turn := turns[i];
    payloads, ending := [], Running;
    if turn.cancelledBefore {
      return payloads, Cancelled;
    }
    if !turn.read.Bytes? {
      ending :=
        if turn.cancelledAfterRead then Cancelled else if turn.read.BridgeDisplaced? then Displaced else PaneExited;
      return;
    }
    if turn.cancelledAfterRead {
      return payloads, Cancelled;
    }
    var text := filter.Filter(turn.read.data);
    TextsSnoc(turns, i);
    ghost var history := before + Texts(turns[..i]);
    if text == [] {
      assert before + Texts(turns[..i + 1]) == history;
      return;
    }
    var payload;
    payload, ending := SendText(compressor, history, text, turn);
    payloads := [payload];
    assert before + Texts(turns[..i + 1]) == history + [text];
  }

  /** The turns in front of done all read some bytes and let the stream go on. */
  ghost predicate GoesOn(turns: seq<Turn>, done: nat, compressed: bool)
    requires done <= |turns|
  {
    forall i :: 0 <= i < done ==> turns[i].read.Bytes? && EndsRightly(turns[i], TextAt(turns, i), compressed, Running)
  }

  /**
   The output stream, for as many turns as it is followed. It ends with the
   first turn that says so, and what it sent extends the payloads before it
   without a gap.
   */
  method StreamOutput(compressor: OutputCompressor?, ghost before: seq<Chunk>, turns: seq<Turn>)
    returns (sent: seq<Chunk>, done: nat, ending: Ending)
    requires HasSeen(compressor, before)
    modifies compressor
    ensures done <= |turns| && GoesOn(turns, done, compressor != null)
    ensures done == |turns| ==> ending == Running
    ensures done < |turns| ==>
      ending != Running && EndsRightly(turns[done], TextAt(turns, done), compressor != null, ending)
    ensures WithoutGap(CodecOf(compressor), before, sent, turns[..done])
  {
    var filter := new TitleFilter();
    sent, done, ending := [], 0, Running;
    NoTurnsYet(CodecOf(compressor), before, turns);
    while done < |turns|
      invariant done <= |turns| && GoesOn(turns, done, compressor != null)
      invariant ending == Running && StandsAt(filter, compressor, before, turns[..done])
      invariant WithoutGap(CodecOf(compressor), before, sent, turns[..done])
      decreases |turns| - done
    {
      var payloads;
      payloads, ending := StreamTurn(filter, compressor, before, turns, done);
      VerdictEndsRightly(turns[done], TextAt(turns, done), compressor != null);
      if ending != Running {
        return;
      }
      TurnLeavesNoGap(CodecOf(compressor), before, sent, turns, done, payloads);
      sent, done := sent + payloads, done + 1;
    }
  }

  /** The text of a turn is what its bytes add to the filtered output of the stream so far. */
  lemma TextIsNewOutput(turns: seq<Turn>, i: nat)
    requires i < |turns| && turns[i].read.Bytes?
    ensures Output(WholeStream(Flatten(Reads(turns[..i + 1]))).pieces)
         == Output(WholeStream(Flatten(Reads(turns[..i]))).pieces) + TextAt(turns, i)
  {
    var chunks := Reads(turns[..i]);
    assert turns[..i + 1][..i] == turns[..i];
    FilteredChunksAreWholeStream(chunks);
    FilteredChunksAreWholeStream(chunks + [turns[i].read.data]);
    RunChunksSnoc(START, chunks, turns[i].read.data);
    FlattenSnoc(RunChunks(START, chunks).1, TextAt(turns, i));
  }

  // ----------------------------------------------------------- the attachment

  /**
   What the receiver of a gap-free prefix reads: the data sent before the
   stream, then the bytes of a prefix of the pane's output with the titles cut out.
   */
  lemma GapFreePrefixIsReadable(codec: Option<Codec>, before: seq<Chunk>, sent: seq<Chunk>, turns: seq<Turn>, done: nat)
    requires codec.Some? ==> Lawful(codec.value)
    requires done <= |turns| && WithoutGap(codec, before, sent, turns[..done])
    ensures var read := Flatten(Reads(turns[..done]));
            && read <= Flatten(Reads(turns))
            && Received(codec, Payloads(codec, before) + sent) == Flatten(before) + Output(WholeStream(read).pieces)
  {
    var chunks := Reads(turns[..done]);
    ReadsOfPrefix(turns, done);
    FilteredChunksAreWholeStream(chunks);
    NonEmptyKeepsBytes(RunChunks(START, chunks).1);
    FlattenAppend(before, Texts(turns[..done]));
    if codec.Some? { DecodeEncode(codec.value, before + Texts(turns[..done])); }
  }

  /**
   One attachment: announced with or without compression, an optional send of
   the pane's state, and the stream. Whenever it is looked at, the receiver has
   the data sent before the stream and the filtered form of a prefix of the
   bytes read from the pane; while the stream runs the prefix is all of them,
   and when the first send fails nothing was sent.
   */
  method RunAttachment(codec: Option<Codec>, preStream: Option<Chunk>, preTurn: Turn, turns: seq<Turn>)
    returns (sent: seq<Chunk>, done: nat, ending: Ending)
    requires codec.Some? ==> Lawful(codec.value)
    ensures done <= |turns|
    ensures done < |turns| && (preStream.None? || SendVerdict(preTurn, codec.Some?) == Running) ==>
      ending != Running && EndsRightly(turns[done], TextAt(turns, done), codec.Some?, ending)
    ensures var started := preStream.None? || SendVerdict(preTurn, codec.Some?) == Running;
            var read := Flatten(Reads(turns[..done]));
            && read <= Flatten(Reads(turns))
            && (ending == Running ==> read == Flatten(Reads(turns)))
            && (if started
                then Received(codec, sent)
                  == (if preStream.Some? then preStream.value else []) + Output(WholeStream(read).pieces)
                else sent == [] && done == 0 && ending == SendVerdict(preTurn, codec.Some?))
  {
    var compressor: OutputCompressor? := null;
    if codec.Some? {
      compressor := new OutputCompressor(codec.value);
    }
    ghost var before: seq<Chunk> := [];
    sent, done := [], 0;
    if preStream.Some? {
      var payload;
      payload, ending := SendText(compressor, [], preStream.value, preTurn);
      if ending != Running {
        assert turns[..0] == [];
        return;
      }
      sent, before := [payload], [preStream.value];
      assert [] + [preStream.value] == before;
      FlattenOne(preStream.value);
    }
    assert sent == Payloads(codec, before);
    var streamed;
    streamed, done, ending := StreamOutput(compressor, before, turns);
    GapFreePrefixIsReadable(codec, before, streamed, turns, done);
    sent := sent + streamed;
    assert turns[..|turns|] == turns;
  }
}
