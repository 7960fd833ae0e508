/**
 When the filter's output itself contains the opening of a title, ESC k. The
 filter cuts titles out of its input; what it copies is not scanned again.
 */
module TitleOutputs {
  import opened Common
  import opened TitleFilters

  ghost predicate ContainsOpening(bytes: seq<byte>) {
    exists i :: 0 <= i && i + 1 < |bytes| && bytes[i] == ESC && bytes[i + 1] == LETTER_K
  }

  /** The flush of a title that grew too long. */
  predicate IsFlush(p: Piece) {
    p.Copied? && |p.bytes| == MAX_TITLE_LEN + 1
  }

  /** A lone ESC and a lone k, with nothing but dropped titles between them, and at least one. */
  ghost predicate IsSeam(pieces: seq<Piece>, i: int, j: int) {
    && 0 <= i && i + 1 < j < |pieces|
    && pieces[i] == Copied([ESC]) && pieces[j] == Copied([LETTER_K])
    && forall m :: i < m < j ==> pieces[m].Dropped?
  }

  ghost predicate HasFlush(pieces: seq<Piece>) {
    exists i :: 0 <= i < |pieces| && IsFlush(pieces[i])
  }

  ghost predicate HasSeam(pieces: seq<Piece>) {
    exists i, j :: IsSeam(pieces, i, j)
  }

  // -------------------------------------------------------- the shape of a scan

  /** Copied pieces are single bytes or flushed openings, and a lone ESC is never followed directly by a lone k. */
  predicate WellShaped(p: Piece) {
    p.Copied? ==> |p.bytes| == 1 || (IsFlush(p) && OpensTitle(p.bytes))
  }

  ghost predicate IsScan(pieces: seq<Piece>) {
    && (forall i :: 0 <= i < |pieces| ==> WellShaped(pieces[i]))
    && forall i :: 0 <= i && i + 1 < |pieces| && pieces[i] == Copied([ESC]) ==> pieces[i + 1] != Copied([LETTER_K])
  }

  lemma ScanCons(first: Piece, rest: seq<Piece>)
    requires IsScan(rest) && WellShaped(first)
    requires rest != [] && first == Copied([ESC]) ==> rest[0] != Copied([LETTER_K])
    ensures IsScan([first] + rest)
  {
    var pieces := [first] + rest;
    forall i | 0 <= i && i + 1 < |pieces| && pieces[i] == Copied([ESC]) ensures pieces[i + 1] != Copied([LETTER_K]) {
      assert i > 0 ==> pieces[i] == rest[i - 1];
    }
  }

  /** What is copied first of some input is its first byte, or a flush. */
  lemma FirstPiece(data: seq<byte>)
    ensures var pieces := WholeStream(data).pieces;
            pieces != [] ==> data != [] && (pieces[0] == Copied([LETTER_K]) ==> data[0] == LETTER_K)
  {
  }

  lemma {:induction false} WholeStreamIsScan(data: seq<byte>)
    ensures IsScan(WholeStream(data).pieces)
    decreases |data|
  {
    if data == [] || data == [ESC] {
    } else if !OpensTitle(data) {
      WholeStreamIsScan(data[1..]);
      FirstPiece(data[1..]);
      ScanCons(Copied(data[..1]), WholeStream(data[1..]).pieces);
    } else {
      var end := FirstTerminator(data, 2) + 2;
      if end <= |data| && end <= MAX_TITLE_LEN + 1 {
        WholeStreamIsScan(data[end..]);
        ScanCons(Dropped(data[..end]), WholeStream(data[end..]).pieces);
      } else if |data| > MAX_TITLE_LEN {
        WholeStreamIsScan(data[MAX_TITLE_LEN + 1..]);
        ScanCons(Copied(data[..MAX_TITLE_LEN + 1]), WholeStream(data[MAX_TITLE_LEN + 1..]).pieces);
      }
    }
  }

  // -------------------------------------------------------- openings in the output

  /** The first byte to come out is a k: the first copied piece begins with one. */
  ghost predicate StartsWithK(pieces: seq<Piece>) {
    exists j :: LeadsWithK(pieces, j)
  }

  ghost predicate LeadsWithK(pieces: seq<Piece>, j: int) {
    0 <= j < |pieces| && pieces[j] == Copied([LETTER_K]) && forall m :: 0 <= m < j ==> pieces[m].Dropped?
  }

  lemma OutputCons(first: Piece, rest: seq<Piece>)
    ensures Output([first] + rest) == (if first.Copied? then first.bytes else []) + Output(rest)
  {
    assert ([first] + rest)[1..] == rest;
  }

  lemma {:induction false} FirstByteOut(pieces: seq<Piece>)
    requires IsScan(pieces) && !HasFlush(pieces)
    ensures (Output(pieces) != [] && Output(pieces)[0] == LETTER_K) <==> StartsWithK(pieces)
  {
    if pieces != [] {
      var first, rest := pieces[0], pieces[1..];
      assert pieces == [first] + rest;
      assert WellShaped(first) && !IsFlush(first);
      OutputCons(first, rest);
      if first.Copied? {
        assert first.bytes == [first.bytes[0]];
        if first.bytes[0] == LETTER_K { assert LeadsWithK(pieces, 0); }
      } else {
        ScanTail(pieces);
        FirstByteOut(rest);
        StartsBehindDropped(first, rest);
        NothingInFront(Output(rest));
      }
    }
  }

  lemma StartsBehindDropped(first: Piece, rest: seq<Piece>)
    requires first.Dropped?
    ensures StartsWithK([first] + rest) <==> StartsWithK(rest)
  {
    var pieces := [first] + rest;
    if StartsWithK(rest) {
      var j :| LeadsWithK(rest, j);
      forall m | 0 <= m < j + 1 ensures pieces[m].Dropped? { assert m > 0 ==> pieces[m] == rest[m - 1]; }
      assert LeadsWithK(pieces, j + 1);
    }
    if StartsWithK(pieces) {
      var j :| LeadsWithK(pieces, j);
      forall m | 0 <= m < j - 1 ensures rest[m].Dropped? { assert rest[m] == pieces[m + 1]; }
      assert LeadsWithK(rest, j - 1);
    }
  }

  lemma ScanTail(pieces: seq<Piece>)
    requires IsScan(pieces) && pieces != [] && !HasFlush(pieces)
    ensures IsScan(pieces[1..]) && !HasFlush(pieces[1..])
  {
    var rest := pieces[1..];
    forall i | 0 <= i < |rest| ensures WellShaped(rest[i]) && !IsFlush(rest[i]) { assert rest[i] == pieces[i + 1]; }
    forall i | 0 <= i && i + 1 < |rest| && rest[i] == Copied([ESC]) ensures rest[i + 1] != Copied([LETTER_K]) {
      assert rest[i] == pieces[i + 1] && rest[i + 1] == pieces[i + 2];
    }
  }

  /** A seam starts at the first piece, or lies in the rest. */
  lemma SeamCons(first: Piece, rest: seq<Piece>)
    requires IsScan([first] + rest)
    ensures HasSeam([first] + rest) <==> HasSeam(rest) || (first == Copied([ESC]) && StartsWithK(rest))
  {
    var pieces := [first] + rest;
    if HasSeam(pieces) {
      var i, j :| IsSeam(pieces, i, j);
      if i == 0 {
        forall m | 0 <= m < j - 1 ensures rest[m].Dropped? { assert rest[m] == pieces[m + 1]; }
        assert LeadsWithK(rest, j - 1);
      } else {
        forall m | i - 1 < m < j - 1 ensures rest[m].Dropped? { assert rest[m] == pieces[m + 1]; }
        assert IsSeam(rest, i - 1, j - 1);
      }
    }
    if HasSeam(rest) {
      var i, j :| IsSeam(rest, i, j);
      forall m | i + 1 < m < j + 1 ensures pieces[m].Dropped? { assert pieces[m] == rest[m - 1]; }
      assert IsSeam(pieces, i + 1, j + 1);
    }
    if first == Copied([ESC]) && StartsWithK(rest) {
      var j :| LeadsWithK(rest, j);
      assert pieces[0] == first && pieces[1] == rest[0];
      forall m | 0 < m < j + 1 ensures pieces[m].Dropped? { assert pieces[m] == rest[m - 1]; }
      assert IsSeam(pieces, 0, j + 1);
    }
  }

  lemma OpeningCons(b: byte, rest: seq<byte>)
    ensures ContainsOpening([b] + rest)
       <==> ContainsOpening(rest) || (b == ESC && rest != [] && rest[0] == LETTER_K)
  {
    var bytes := [b] + rest;
    if ContainsOpening(rest) {
      var i :| 0 <= i && i + 1 < |rest| && rest[i] == ESC && rest[i + 1] == LETTER_K;
      assert bytes[i + 1] == ESC && bytes[i + 1 + 1] == LETTER_K;
    }
    if b == ESC && rest != [] && rest[0] == LETTER_K {
      assert bytes[0] == ESC && bytes[0 + 1] == LETTER_K;
    }
    if ContainsOpening(bytes) {
      var i :| 0 <= i && i + 1 < |bytes| && bytes[i] == ESC && bytes[i + 1] == LETTER_K;
      if i > 0 { assert rest[i - 1] == ESC && rest[i - 1 + 1] == LETTER_K; }
    }
  }

  /** Without a flush, an opening comes out exactly at a seam. */
  lemma {:induction false} OpeningsAreSeams(pieces: seq<Piece>)
    requires IsScan(pieces) && !HasFlush(pieces)
    ensures ContainsOpening(Output(pieces)) <==> HasSeam(pieces)
  {
    if pieces != [] {
      var first, rest := pieces[0], pieces[1..];
      assert pieces == [first] + rest;
      assert WellShaped(first) && !IsFlush(first);
      ScanTail(pieces);
      OpeningsAreSeams(rest);
      FirstByteOut(rest);
      SeamCons(first, rest);
      OutputCons(first, rest);
      if first.Copied? {
        assert first.bytes == [first.bytes[0]];
        OpeningCons(first.bytes[0], Output(rest));
      } else {
        NothingInFront(Output(rest));
      }
    }
  }

  /** A flush always brings its own opening out. */
  lemma {:induction false} FlushOpens(pieces: seq<Piece>, i: nat)
    requires IsScan(pieces) && i < |pieces| && IsFlush(pieces[i])
    ensures ContainsOpening(Output(pieces))
    decreases i
  {
    var first, rest := pieces[0], pieces[1..];
    assert pieces == [first] + rest;
    OutputCons(first, rest);
    if i == 0 {
      assert WellShaped(first);
      var out := Output(pieces);
      assert out[0] == ESC && out[0 + 1] == LETTER_K;
    } else {
      ScanRest(pieces);
      FlushOpens(rest, i - 1);
      OpeningBehind(if first.Copied? then first.bytes else [], Output(rest));
    }
  }

  lemma ScanRest(pieces: seq<Piece>)
    requires IsScan(pieces) && pieces != []
    ensures IsScan(pieces[1..])
  {
    var rest := pieces[1..];
    forall i | 0 <= i < |rest| ensures WellShaped(rest[i]) { assert rest[i] == pieces[i + 1]; }
    forall i | 0 <= i && i + 1 < |rest| && rest[i] == Copied([ESC]) ensures rest[i + 1] != Copied([LETTER_K]) {
      assert rest[i] == pieces[i + 1] && rest[i + 1] == pieces[i + 2];
    }
  }

  lemma OpeningBehind(front: seq<byte>, back: seq<byte>)
    requires ContainsOpening(back)
    ensures ContainsOpening(front + back)
  {
    var i :| 0 <= i && i + 1 < |back| && back[i] == ESC && back[i + 1] == LETTER_K;
    var bytes, j := front + back, |front| + i;
    assert bytes[j] == ESC && bytes[j + 1] == LETTER_K;
  }

  /**
   The output of a fresh filter contains the opening of a title exactly if a
   title too long was flushed, or titles were cut out between an ESC and a k.
   */
  lemma OutputOpensTitle(data: seq<byte>)
    ensures var pieces := WholeStream(data).pieces;
            ContainsOpening(Run(START, data).1) <==> HasFlush(pieces) || HasSeam(pieces)
  {
    var pieces := WholeStream(data).pieces;
    RunIsWholeStream(data);
    WholeStreamIsScan(data);
    if HasFlush(pieces) {
      var i :| 0 <= i < |pieces| && IsFlush(pieces[i]);
      FlushOpens(pieces, i);
    } else {
      OpeningsAreSeams(pieces);
    }
  }

  /** ESC ESC k t ESC \ k comes out as ESC k: the title between them is cut out. */
  lemma CuttingCanOpen()
    ensures Run(START, [ESC, ESC, LETTER_K, 0x74, ESC, BACKSLASH, LETTER_K]).1 == [ESC, LETTER_K]
  {
    var data: seq<byte> := [ESC, ESC, LETTER_K, 0x74, ESC, BACKSLASH, LETTER_K];
    var title := FilterState(InTitle, [ESC, LETTER_K]);
    assert data[0..] == data;
    RunFrom(START, data, 0);
    RunFrom(FilterState(SawEsc, []), data, 1);
    RunFrom(FilterState(SawEsc, []), data, 2);
    RunFrom(title, data, 3);
    RunFrom(FilterState(InTitle, [ESC, LETTER_K, 0x74]), data, 4);
    RunFrom(FilterState(SawEscInTitle, [ESC, LETTER_K, 0x74, ESC]), data, 5);
    RunFrom(START, data, 6);
    assert data[7..] == [];
  }
}
