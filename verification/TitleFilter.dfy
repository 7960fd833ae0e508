/**
 The output filter that strips the terminal's "set window title" sequences
 (ESC k ... ESC \) from a stream that arrives in arbitrary chunks.

 Three descriptions are related here: the object that the agent runs
 (TitleFilter.Filter, with its bulk-copy path and its 512-byte buffer), a byte
 automaton (Run), and a description of the whole stream that knows nothing of
 chunks or states (WholeStream).
 */
module TitleFilters {
  import opened Common

  const ESC: byte := 0x1b
  const LETTER_K: byte := 0x6b
  const BACKSLASH: byte := 0x5c
  const MAX_TITLE_LEN := 512

  datatype Mode = Passthrough | SawEsc | InTitle | SawEscInTitle

  /** What the filter carries from one byte to the next. */
  datatype FilterState = FilterState(mode: Mode, titleBuf: seq<byte>) {
    /** The input bytes that are neither output nor dropped yet. */
    function Held(): seq<byte> {
      match mode
      case Passthrough => []
      case SawEsc => [ESC]
      case _ => titleBuf
    }

    predicate Valid() {
      match mode
      case Passthrough => titleBuf == []
      case SawEsc => titleBuf == []
      case InTitle => 2 <= |titleBuf| <= MAX_TITLE_LEN && OpensTitle(titleBuf) && titleBuf[|titleBuf| - 1] != ESC
      case SawEscInTitle => 2 < |titleBuf| <= MAX_TITLE_LEN && OpensTitle(titleBuf) && titleBuf[|titleBuf| - 1] == ESC
    }
  }

  const START := FilterState(Passthrough, [])

  // ---------------------------------------------------------------- automaton

  function AppendTitle(mode: Mode, titleBuf: seq<byte>, b: byte): (FilterState, seq<byte>) {
    if |titleBuf| + 1 > MAX_TITLE_LEN
    then (START, titleBuf + [b])
    else (FilterState(mode, titleBuf + [b]), [])
  }

  /** One input byte: the state after it and the bytes it lets out. */
  function StepByte(st: FilterState, b: byte): (FilterState, seq<byte>) {
    match st.mode
    case Passthrough =>
      if b == ESC then (FilterState(SawEsc, st.titleBuf), []) else (st, [b])
    case SawEsc =>
      if b == LETTER_K then (FilterState(InTitle, [ESC, LETTER_K]), [])
      else if b == ESC then (st, [ESC])
      else (FilterState(Passthrough, st.titleBuf), [ESC, b])
    case InTitle =>
      AppendTitle(if b == ESC then SawEscInTitle else InTitle, st.titleBuf, b)
    case SawEscInTitle =>
      if b == BACKSLASH then (START, [])
      else AppendTitle(if b == ESC then SawEscInTitle else InTitle, st.titleBuf, b)
  }

  function Run(st: FilterState, data: seq<byte>): (FilterState, seq<byte>)
    decreases |data|
  {
    if data == [] then (st, [])
    else
      var (next, out) := StepByte(st, data[0]);
      var (last, rest) := Run(next, data[1..]);
      (last, out + rest)
  }

  /** Running over two stretches is running over the first, then the second. */
  lemma {:induction false} RunAppend(st: FilterState, a: seq<byte>, b: seq<byte>)
    ensures Run(st, a + b).0 == Run(Run(st, a).0, b).0
    ensures Run(st, a + b).1 == Run(st, a).1 + Run(Run(st, a).0, b).1
    decreases |a|
  {
    if a == [] {
      assert a + b == b;
    } else {
      assert (a + b)[1..] == a[1..] + b;
      RunAppend(StepByte(st, a[0]).0, a[1..], b);
    }
  }

  lemma RunByte(st: FilterState, b: byte, rest: seq<byte>)
    ensures Run(st, [b] + rest).0 == Run(StepByte(st, b).0, rest).0
    ensures Run(st, [b] + rest).1 == StepByte(st, b).1 + Run(StepByte(st, b).0, rest).1
  {
    assert ([b] + rest)[1..] == rest;
  }

  /** The bulk-copy path: in passthrough, bytes without ESC go out unchanged. */
  lemma {:induction false} RunPlain(st: FilterState, plain: seq<byte>)
    requires st.mode == Passthrough && ESC !in plain
    ensures Run(st, plain) == (st, plain)
  {
    if plain != [] {
      assert plain[0] in plain && plain[0] != ESC;
      RunPlain(st, plain[1..]);
      assert [plain[0]] + plain[1..] == plain;
    }
  }

  lemma {:induction false} RunKeepsValid(st: FilterState, data: seq<byte>)
    requires st.Valid()
    ensures Run(st, data).0.Valid()
    decreases |data|
  {
    if data != [] {
      RunKeepsValid(StepByte(st, data[0]).0, data[1..]);
    }
  }

  // ------------------------------------------------------------- whole stream

  predicate OpensTitle(data: seq<byte>) {
    |data| >= 2 && data[0] == ESC && data[1] == LETTER_K
  }

  predicate TerminatorAt(data: seq<byte>, i: int) {
    2 <= i && i + 1 < |data| && data[i] == ESC && data[i + 1] == BACKSLASH
  }

  /** The index of the first ESC \ at or after from, or the length when there is none. */
  function FirstTerminator(data: seq<byte>, from: nat): (i: nat)
    requires 2 <= from <= |data|
    ensures from <= i <= |data|
    ensures i < |data| ==> TerminatorAt(data, i)
    ensures forall j :: from <= j < i ==> !TerminatorAt(data, j)
    decreases |data| - from
  {
    if from == |data| then from
    else if TerminatorAt(data, from) then from
    else FirstTerminator(data, from + 1)
  }

  /** A stretch of the input, marked with what became of it. */
  datatype Piece = Copied(bytes: seq<byte>) | Dropped(bytes: seq<byte>)

  datatype Scanned = Scanned(pieces: seq<Piece>, held: seq<byte>)

  function Output(pieces: seq<Piece>): seq<byte> {
    if pieces == [] then []
    else (if pieces[0].Copied? then pieces[0].bytes else []) + Output(pieces[1..])
  }

  /** Every byte of every piece, output or not, in input order. */
  function Source(pieces: seq<Piece>): seq<byte> {
    if pieces == [] then [] else pieces[0].bytes + Source(pieces[1..])
  }

  /** A complete title: ESC k, text without ESC \, then ESC \, in at most 513 bytes. */
  ghost predicate IsTitle(bytes: seq<byte>) {
    && OpensTitle(bytes)
    && 4 <= |bytes| <= MAX_TITLE_LEN + 1
    && TerminatorAt(bytes, |bytes| - 2)
    && forall j :: 2 <= j < |bytes| - 2 ==> !TerminatorAt(bytes, j)
  }

  /** The input that no decision has been reached about yet: a lone ESC, or an unfinished title. */
  ghost predicate IsUndecided(held: seq<byte>) {
    || held == []
    || held == [ESC]
    || (OpensTitle(held) && |held| <= MAX_TITLE_LEN && forall j :: !TerminatorAt(held, j))
  }

  /**
   Scans the whole stream from the left: a title that ends within 513 bytes is
   dropped, the first 513 bytes of a longer one are copied and scanning resumes
   behind them, every other byte is copied, and an undecided tail is held.
   */
  function WholeStream(data: seq<byte>): Scanned
    decreases |data|
  {
    if data == [] || data == [ESC] then Scanned([], data)
    else if !OpensTitle(data) then
      var rest := WholeStream(data[1..]);
      Scanned([Copied(data[..1])] + rest.pieces, rest.held)
    else
      var end := FirstTerminator(data, 2) + 2;
      if end <= |data| && end <= MAX_TITLE_LEN + 1 then
        var rest := WholeStream(data[end..]);
        Scanned([Dropped(data[..end])] + rest.pieces, rest.held)
      else if |data| > MAX_TITLE_LEN then
        var rest := WholeStream(data[MAX_TITLE_LEN + 1..]);
        Scanned([Copied(data[..MAX_TITLE_LEN + 1])] + rest.pieces, rest.held)
      else
        Scanned([], data)
  }

  /**
   Nothing is lost or reordered: the copied and dropped stretches and the held
   tail, in order, are the input; only complete titles of at most 513 bytes are
   dropped, and only a lone ESC or an unfinished title is held.
   */
  lemma {:induction false} WholeStreamAccounts(data: seq<byte>)
    ensures Source(WholeStream(data).pieces) + WholeStream(data).held == data
    ensures IsUndecided(WholeStream(data).held)
    ensures forall p :: p in WholeStream(data).pieces && p.Dropped? ==> IsTitle(p.bytes)
    decreases |data|, 0
  {
    if data == [] || data == [ESC] {
    } else if !OpensTitle(data) {
      AccountsFrom(data, 1, Copied(data[..1]));
    } else {
      var end := FirstTerminator(data, 2) + 2;
      if end <= |data| && end <= MAX_TITLE_LEN + 1 {
        assert data[..end][end - 2] == ESC && data[..end][end - 1] == BACKSLASH;
        forall j | 2 <= j < end - 2 ensures !TerminatorAt(data[..end], j) {
          assert !TerminatorAt(data, j);
        }
        AccountsFrom(data, end, Dropped(data[..end]));
      } else if |data| > MAX_TITLE_LEN {
        AccountsFrom(data, MAX_TITLE_LEN + 1, Copied(data[..MAX_TITLE_LEN + 1]));
      }
    }
  }

  lemma SourceOfFirst(first: Piece, rest: seq<Piece>)
    ensures Source([first] + rest) == first.bytes + Source(rest)
  {
    assert ([first] + rest)[1..] == rest;
  }

  lemma {:induction false} AccountsFrom(data: seq<byte>, cut: nat, first: Piece)
    requires 0 < cut <= |data| && first.bytes == data[..cut]
    requires first.Dropped? ==> IsTitle(first.bytes)
    ensures var rest := WholeStream(data[cut..]);
            && Source([first] + rest.pieces) + rest.held == data
            && IsUndecided(rest.held)
            && forall p :: p in [first] + rest.pieces && p.Dropped? ==> IsTitle(p.bytes)
    decreases |data| - cut, 1
  {
    var rest := WholeStream(data[cut..]);
    WholeStreamAccounts(data[cut..]);
    SourceOfFirst(first, rest.pieces);
    Regroup(data[..cut], Source(rest.pieces), rest.held);
    Cut(data, cut);
  }

  /** The automaton's state while it is j bytes into an unfinished title. */
  function InsideTitle(data: seq<byte>, j: nat): FilterState
    requires 2 <= j <= |data|
  {
    FilterState(if data[j - 1] == ESC then SawEscInTitle else InTitle, data[..j])
  }

  lemma {:induction false} RunIntoTitle(data: seq<byte>, j: nat)
    requires OpensTitle(data)
    requires 2 <= j <= |data| && j <= MAX_TITLE_LEN
    requires forall i :: 2 <= i && i + 1 < j ==> !TerminatorAt(data, i)
    ensures Run(START, data[..j]) == (InsideTitle(data, j), [])
  {
    if j == 2 {
      assert data[..2] == [ESC, LETTER_K];
      assert [ESC, LETTER_K] == [ESC] + [LETTER_K];
      RunAppend(START, [ESC], [LETTER_K]);
      RunByte(START, ESC, []);
      RunByte(FilterState(SawEsc, []), LETTER_K, []);
      assert [ESC] + [] == [ESC] && [LETTER_K] + [] == [LETTER_K];
    } else {
      RunIntoTitle(data, j - 1);
      assert data[..j] == data[..j - 1] + [data[j - 1]];
      RunAppend(START, data[..j - 1], [data[j - 1]]);
      RunByte(InsideTitle(data, j - 1), data[j - 1], []);
      assert [data[j - 1]] + [] == [data[j - 1]];
      if j > 3 { assert !TerminatorAt(data, j - 2); }
    }
  }

  /** The automaton computes the whole-stream description: same output, same bytes held back. */
  lemma {:induction false} RunIsWholeStream(data: seq<byte>)
    ensures Run(START, data).1 == Output(WholeStream(data).pieces)
    ensures Run(START, data).0.Held() == WholeStream(data).held
    decreases |data|
  {
    if data == [] || data == [ESC] {
    } else if !OpensTitle(data) {
      RunIsWholeStream(data[1..]);
      if data[0] == ESC {
        RunLoneEsc(data);
      }
    } else {
      var end := FirstTerminator(data, 2) + 2;
      if end <= |data| && end <= MAX_TITLE_LEN + 1 {
        RunIsWholeStream(data[end..]);
        RunDroppedTitle(data, end);
      } else if |data| > MAX_TITLE_LEN {
        RunIsWholeStream(data[MAX_TITLE_LEN + 1..]);
        RunLongTitle(data);
      } else {
        RunIntoTitle(data, |data|);
        assert data[..|data|] == data;
      }
    }
  }

  /** Running from within a stream is one step, then running from behind that byte. */
  lemma RunFrom(st: FilterState, data: seq<byte>, i: nat)
    requires i < |data|
    ensures Run(st, data[i..]).0 == Run(StepByte(st, data[i]).0, data[i + 1..]).0
    ensures Run(st, data[i..]).1 == StepByte(st, data[i]).1 + Run(StepByte(st, data[i]).0, data[i + 1..]).1
  {
    OneMore(data, i);
  }

  lemma RunLoneEsc(data: seq<byte>)
    requires |data| >= 2 && data[0] == ESC && data[1] != LETTER_K
    ensures Run(START, data).0 == Run(START, data[1..]).0
    ensures Run(START, data).1 == [ESC] + Run(START, data[1..]).1
  {
    var sawEsc := FilterState(SawEsc, []);
    assert data[0..] == data;
    RunFrom(START, data, 0);
    RunFrom(sawEsc, data, 1);
    RunFrom(START, data, 1);
    NothingInFront(Run(sawEsc, data[1..]).1);
    if data[1] == ESC {
      NothingInFront(Run(sawEsc, data[2..]).1);
    } else {
      Regroup([ESC], [data[1]], Run(START, data[2..]).1);
    }
  }

  /** Behind j bytes of an unfinished title, nothing is out and the rest is still to run. */
  lemma RunOnInTitle(data: seq<byte>, j: nat)
    requires OpensTitle(data)
    requires 2 <= j <= |data| && j <= MAX_TITLE_LEN
    requires forall i :: 2 <= i && i + 1 < j ==> !TerminatorAt(data, i)
    ensures Run(START, data) == Run(InsideTitle(data, j), data[j..])
  {
    RunIntoTitle(data, j);
    Cut(data, j);
    RunAppend(START, data[..j], data[j..]);
    NothingInFront(Run(InsideTitle(data, j), data[j..]).1);
  }

  lemma RunDroppedTitle(data: seq<byte>, end: nat)
    requires OpensTitle(data) && 4 <= end <= |data| && end <= MAX_TITLE_LEN + 1
    requires FirstTerminator(data, 2) + 2 == end
    ensures Run(START, data) == Run(START, data[end..])
  {
    assert data[end - 1] == BACKSLASH && data[end - 2] == ESC;
    RunOnInTitle(data, end - 1);
    RunFrom(InsideTitle(data, end - 1), data, end - 1);
    NothingInFront(Run(START, data[end..]).1);
  }

  lemma RunLongTitle(data: seq<byte>)
    requires OpensTitle(data) && |data| > MAX_TITLE_LEN
    requires var end := FirstTerminator(data, 2) + 2; end > |data| || end > MAX_TITLE_LEN + 1
    ensures Run(START, data).0 == Run(START, data[MAX_TITLE_LEN + 1..]).0
    ensures Run(START, data).1 == data[..MAX_TITLE_LEN + 1] + Run(START, data[MAX_TITLE_LEN + 1..]).1
  {
    var j := MAX_TITLE_LEN;
    RunOnInTitle(data, j);
    assert !TerminatorAt(data, j - 1);
    RunFrom(InsideTitle(data, j), data, j);
    OneMore(data, j);
  }

  // ----------------------------------------------------------------- chunking

  /** The filter called once per chunk: the last state, and what each call returned. */
  function RunChunks(st: FilterState, chunks: seq<seq<byte>>): (FilterState, seq<seq<byte>>)
    decreases |chunks|
  {
    if chunks == [] then (st, [])
    else
      var (next, out) := Run(st, chunks[0]);
      var (last, outs) := RunChunks(next, chunks[1..]);
      (last, [out] + outs)
  }

  lemma {:induction false} ChunksDoNotMatter(st: FilterState, chunks: seq<seq<byte>>)
    ensures RunChunks(st, chunks).0 == Run(st, Flatten(chunks)).0
    ensures Flatten(RunChunks(st, chunks).1) == Run(st, Flatten(chunks)).1
    decreases |chunks|
  {
    if chunks != [] {
      var next := Run(st, chunks[0]).0;
      ChunksDoNotMatter(next, chunks[1..]);
      RunAppend(st, chunks[0], Flatten(chunks[1..]));
      var outs := RunChunks(next, chunks[1..]).1;
      assert ([Run(st, chunks[0]).1] + outs)[1..] == outs;
    }
  }

  /**
   However the stream is cut, a fresh filter lets out exactly the bytes the
   whole-stream description copies, holds back exactly its undecided tail, and
   buffers no more than 512 bytes of a title.
   */
  lemma FilteredChunksAreWholeStream(chunks: seq<seq<byte>>)
    ensures Flatten(RunChunks(START, chunks).1) == Output(WholeStream(Flatten(chunks)).pieces)
    ensures RunChunks(START, chunks).0.Held() == WholeStream(Flatten(chunks)).held
    ensures |RunChunks(START, chunks).0.titleBuf| <= MAX_TITLE_LEN
  {
    ChunksDoNotMatter(START, chunks);
    RunIsWholeStream(Flatten(chunks));
    RunKeepsValid(START, Flatten(chunks));
  }

  /** What was let out is never taken back: more input only extends the output. */
  lemma OutputOnlyGrows(data: seq<byte>, more: seq<byte>)
    ensures Output(WholeStream(data).pieces) <= Output(WholeStream(data + more).pieces)
  {
    RunIsWholeStream(data);
    RunIsWholeStream(data + more);
    RunAppend(START, data, more);
  }

  // ------------------------------------------------------------------- object

  /** The position of the first ESC at or after from, or the length when there is none. */
  method IndexEsc(data: seq<byte>, from: nat) returns (i: nat)
    requires from <= |data|
    ensures from <= i <= |data|
    ensures ESC !in data[from..i]
    ensures i < |data| ==> data[i] == ESC
  {
    i := from;
    while i < |data| && data[i] != ESC
      invariant from <= i <= |data|
      invariant ESC !in data[from..i]
    {
      assert data[from..i + 1] == data[from..i] + [data[i]];
      i := i + 1;
    }
  }

  class TitleFilter {
    var mode: Mode
    var titleBuf: seq<byte>
    var out: seq<byte>

    ghost function View(): FilterState
      reads this
    {
      FilterState(mode, titleBuf)
    }

    ghost predicate Valid()
      reads this
    {
      View().Valid()
    }

    constructor ()
      ensures Valid() && View() == START
    {
      mode, titleBuf, out := Passthrough, [], [];
    }

    /** Returns to passthrough; an unfinished title is forgotten. */
    method Reset()
      modifies this
      ensures Valid() && View() == START && out == old(out)
    {
      mode, titleBuf := Passthrough, [];
    }

    method BufferTitle(b: byte)
      modifies this
      ensures View() == AppendTitle(old(mode), old(titleBuf), b).0
      ensures out == old(out) + AppendTitle(old(mode), old(titleBuf), b).1
    {
      titleBuf := titleBuf + [b];
      if |titleBuf| > MAX_TITLE_LEN {
        out := out + titleBuf;
        titleBuf := [];
        mode := Passthrough;
      }
    }

    /** Handles one byte outside passthrough. */
    method Consume(b: byte)
      requires Valid() && mode != Passthrough
      modifies this
      ensures Valid()
      ensures View() == StepByte(old(View()), b).0
      ensures out == old(out) + StepByte(old(View()), b).1
    {
      match mode
      case SawEsc =>
        if b == LETTER_K {
          mode := InTitle;
          titleBuf := [ESC, LETTER_K];
        } else if b == ESC {
          out := out + [ESC];
        } else {
          out := out + [ESC, b];
          mode := Passthrough;
        }
      case InTitle =>
        if b == ESC {
          mode := SawEscInTitle;
        }
        BufferTitle(b);
      case SawEscInTitle =>
        if b == BACKSLASH {
          titleBuf := [];
          mode := Passthrough;
        } else if b == ESC {
          BufferTitle(b);
        } else {
          mode := InTitle;
          BufferTitle(b);
        }
    }

    /** Filters one chunk, copying stretches without ESC in bulk. */
    method Filter(data: seq<byte>) returns (filtered: seq<byte>)
      requires Valid()
      modifies this
      ensures Valid()
      ensures (View(), filtered) == Run(old(View()), data)
    {
      if data == [] {
        return [];
      }
      out := [];
      var i := 0;
      ghost var before := View();
      assert data[0..] == data;
      NothingInFront(Run(before, data).1);
      while i < |data|
        invariant 0 <= i <= |data|
        invariant Valid()
        invariant Owes(before, data, View(), out, i)
      {
        ghost var st, seen := View(), out;
        if mode == Passthrough {
          var next := IndexEsc(data, i);
          out := out + data[i..next];
          OwesPlain(before, data, st, seen, i, next);
          if next == |data| {
            i := next;
          } else {
            OwesNext(before, data, st, out, next);
            NothingBehind(out);
            i := next + 1;
            mode := SawEsc;
          }
        } else {
          Consume(data[i]);
          OwesNext(before, data, st, seen, i);
          i := i + 1;
        }
      }
      NothingBehind(out);
      filtered := out;
    }
  }

  // ---------------------------------------------------------- the object's loop

  /** With out already let out and the state st, the bytes from i on remain to be run. */
  ghost predicate Owes(before: FilterState, data: seq<byte>, st: FilterState, out: seq<byte>, i: nat)
    requires i <= |data|
  {
    && Run(before, data).0 == Run(st, data[i..]).0
    && Run(before, data).1 == out + Run(st, data[i..]).1
  }

  lemma OwesNext(before: FilterState, data: seq<byte>, st: FilterState, out: seq<byte>, i: nat)
    requires i < |data| && Owes(before, data, st, out, i)
    ensures Owes(before, data, StepByte(st, data[i]).0, out + StepByte(st, data[i]).1, i + 1)
  {
    RunFrom(st, data, i);
    Regroup(out, StepByte(st, data[i]).1, Run(StepByte(st, data[i]).0, data[i + 1..]).1);
  }

  lemma OwesPlain(before: FilterState, data: seq<byte>, st: FilterState, out: seq<byte>, i: nat, next: nat)
    requires i <= next <= |data| && st.mode == Passthrough && ESC !in data[i..next]
    requires Owes(before, data, st, out, i)
    ensures Owes(before, data, st, out + data[i..next], next)
  {
    RunPlain(st, data[i..next]);
    assert data[i..] == data[i..next] + data[next..];
    RunAppend(st, data[i..next], data[next..]);
    Regroup(out, data[i..next], Run(st, data[next..]).1);
  }
}
