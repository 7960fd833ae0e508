/**
 Quoting of a file name that becomes one argument of a shell command line, and
 the part of the shell's word reading that undoes it: the backslash and the
 single quote of sections 2.2.1 and 2.2.2 of the POSIX.1-2017 Shell Command
 Language.
 */
module ShellQuoting {
  import opened Common

  const QUOTE: char := '\''

  function EscapeQuotes(s: string): string {
    if s == "" then ""
    else (if s[0] == QUOTE then "'\\''" else [s[0]]) + EscapeQuotes(s[1..])
  }

  function ShellQuote(s: string): string {
    "'" + EscapeQuotes(s) + "'"
  }

  /** The command that tmux runs to copy a pane's output into the file at path. */
  const SCRIPT := "cat > \"$0\""

  function PipeCommand(path: string): string {
    "exec" + " " + "sh" + " " + "-c" + " " + ("'" + SCRIPT + "'") + " " + ShellQuote(path)
  }

  // ------------------------------------------------------------------- reader

  /** Where a left-to-right reading of a command line stands. */
  datatype Reader =
    | Between
    | InWord(word: string)
    | InQuotes(word: string)

  predicate IsBlank(c: char) {
    c == ' ' || c == '\t'
  }

  /** Unquoted, these mean more than themselves, and reading stops at them. */
  predicate IsSpecial(c: char) {
    c in "|&;<>()$`\"*?[]#~=%!{}\n"
  }

  predicate IsPlain(c: char) {
    c != QUOTE && c != '\\' && !IsBlank(c) && !IsSpecial(c)
  }

  function WordSoFar(r: Reader): string {
    if r.Between? then "" else r.word
  }

  /**
   The words of the rest of a command line, or None where it is malformed or
   uses more of the shell language than quoting.
   */
  function Words(r: Reader, line: string): Option<seq<string>>
    decreases |line|
  {
    if line == "" then
      match r
      case Between => Some([])
      case InWord(w) => Some([w])
      case InQuotes(_) => None
    else
      var c := line[0];
      if r.InQuotes? then
        Words(if c == QUOTE then InWord(r.word) else InQuotes(r.word + [c]), line[1..])
      else if c == QUOTE then
        Words(InQuotes(WordSoFar(r)), line[1..])
      else if c == '\\' then
        if |line| == 1 then None
        else if line[1] == '\n' then Words(r, line[2..])
        else Words(InWord(WordSoFar(r) + [line[1]]), line[2..])
      else if IsBlank(c) then
        if r.InWord? then Prepend(r.word, Words(Between, line[1..])) else Words(Between, line[1..])
      else if IsSpecial(c) then
        None
      else
        Words(InWord(WordSoFar(r) + [c]), line[1..])
  }

  function Prepend(w: string, rest: Option<seq<string>>): Option<seq<string>> {
    match rest
    case None => None
    case Some(ws) => Some([w] + ws)
  }

  function ReadCommand(line: string): Option<seq<string>> {
    Words(Between, line)
  }

  // ------------------------------------------------------------------- lemmas

  /** The escaped quote closes the quoting, adds a quote and opens the quoting again. */
  lemma EscapedQuoteAddsQuote(word: string, tail: string)
    ensures Words(InQuotes(word), "'\\''" + tail) == Words(InQuotes(word + [QUOTE]), tail)
  {
    var line := "'\\''" + tail;
    assert line[1..][2..] == "'" + tail && ("'" + tail)[1..] == tail;
    assert Words(InQuotes(word), line) == Words(InWord(word), line[1..]);
    assert Words(InWord(word), line[1..]) == Words(InWord(word + [QUOTE]), "'" + tail);
  }

  lemma EscapedHead(s: string, rest: string)
    requires s != ""
    ensures EscapeQuotes(s) + "'" + rest
         == (if s[0] == QUOTE then "'\\''" else [s[0]]) + (EscapeQuotes(s[1..]) + "'" + rest)
  {
  }

  lemma ClosingQuoteEndsQuoting(word: string, rest: string)
    ensures Words(InQuotes(word), "" + "'" + rest) == Words(InWord(word + ""), rest)
  {
    assert "" + "'" + rest == "'" + rest && ("'" + rest)[1..] == rest;
    assert word + "" == word;
  }

  lemma OrdinaryTextIsKept(word: string, c: char, tail: string)
    requires c != QUOTE
    ensures Words(InQuotes(word), [c] + tail) == Words(InQuotes(word + [c]), tail)
  {
    assert ([c] + tail)[1..] == tail;
  }

  lemma {:induction false} EscapedTextStaysQuoted(word: string, s: string, rest: string)
    ensures Words(InQuotes(word), EscapeQuotes(s) + "'" + rest) == Words(InWord(word + s), rest)
    decreases |s|
  {
    if s == "" {
      ClosingQuoteEndsQuoting(word, rest);
    } else {
      var tail := EscapeQuotes(s[1..]) + "'" + rest;
      EscapedTextStaysQuoted(word + [s[0]], s[1..], rest);
      assert word + [s[0]] + s[1..] == word + s;
      EscapedHead(s, rest);
      if s[0] == QUOTE {
        EscapedQuoteAddsQuote(word, tail);
      } else {
        OrdinaryTextIsKept(word, s[0], tail);
      }
    }
  }

  /**
   In front of any remaining command line, quoted text adds exactly its
   original characters to the current word: none of them ends the word, starts
   another quote or is read as syntax.
   */
  lemma QuotedTextIsLiteral(r: Reader, s: string, rest: string)
    requires !r.InQuotes?
    ensures Words(r, ShellQuote(s) + rest) == Words(InWord(WordSoFar(r) + s), rest)
  {
    var line := ShellQuote(s) + rest;
    assert line[0] == QUOTE && line[1..] == EscapeQuotes(s) + "'" + rest;
    EscapedTextStaysQuoted(WordSoFar(r), s, rest);
  }

  lemma QuotedRoundTrip(s: string)
    ensures ReadCommand(ShellQuote(s)) == Some([s])
  {
    QuotedTextIsLiteral(Between, s, "");
    assert ShellQuote(s) + "" == ShellQuote(s);
    assert "" + s == s;
  }

  function QuoteAll(words: seq<string>): string {
    if words == [] then "" else ShellQuote(words[0]) + " " + QuoteAll(words[1..])
  }

  /** Any list of arguments survives: each quoted one comes back as one word, in order. */
  lemma {:induction false} QuotedWordsRoundTrip(words: seq<string>)
    ensures ReadCommand(QuoteAll(words)) == Some(words)
    decreases |words|
  {
    if words != [] {
      var rest := QuoteAll(words[1..]);
      assert QuoteAll(words) == ShellQuote(words[0]) + (" " + rest);
      QuotedTextIsLiteral(Between, words[0], " " + rest);
      assert "" + words[0] == words[0];
      assert (" " + rest)[1..] == rest;
      QuotedWordsRoundTrip(words[1..]);
      assert [words[0]] + words[1..] == words;
    }
  }

  /** Reads a stretch of ordinary characters that is followed by a blank. */
  lemma {:induction false} PlainWord(word: string, s: string, rest: string)
    requires forall i :: 0 <= i < |s| ==> IsPlain(s[i])
    ensures Words(InWord(word), s + " " + rest) == Prepend(word + s, Words(Between, rest))
    decreases |s|
  {
    var line := s + " " + rest;
    if s == "" {
      assert line[1..] == rest && word + s == word;
    } else {
      assert IsPlain(s[0]);
      assert line[1..] == s[1..] + " " + rest;
      assert word + [s[0]] + s[1..] == word + s;
      PlainWord(word + [s[0]], s[1..], rest);
    }
  }

  lemma PlainArgument(s: string, rest: string)
    requires s != ""
    requires forall i :: 0 <= i < |s| ==> IsPlain(s[i])
    ensures ReadCommand(s + " " + rest) == Prepend(s, ReadCommand(rest))
  {
    var line := s + " " + rest;
    assert IsPlain(s[0]);
    assert line[0] == s[0] && line[1..] == s[1..] + " " + rest;
    assert "" + [s[0]] == [s[0]] && [s[0]] + s[1..] == s;
    PlainWord([s[0]], s[1..], rest);
  }

  lemma CommandRegroups(a: string, b: string, c: string, blank: string, quoted: string, last: string)
    ensures a + blank + b + blank + c + blank + quoted + blank + last
         == a + blank + (b + blank + (c + blank + (quoted + (blank + last))))
  {
  }

  lemma QuotedPair(first: string, second: string)
    ensures ReadCommand(ShellQuote(first) + (" " + ShellQuote(second))) == Some([first, second])
  {
    var rest := ShellQuote(second);
    QuotedTextIsLiteral(Between, first, " " + rest);
    assert "" + first == first;
    assert (" " + rest)[1..] == rest;
    QuotedRoundTrip(second);
    assert [first] + [second] == [first, second];
  }

  /**
   Whatever the path, the shell sees exactly five words, and the path is the
   whole of the last one; the script that names it only as $0 never changes.
   */
  lemma PipeCommandNamesThePath(path: string)
    ensures ReadCommand(PipeCommand(path)) == Some(["exec", "sh", "-c", SCRIPT, path])
  {
    var script, last := SCRIPT, ShellQuote(path);
    NoQuotesToEscape(script);
    CommandRegroups("exec", "sh", "-c", " ", ShellQuote(script), last);
    QuotedPair(script, path);
    PlainNames();
    ThreePlainArguments("exec", "sh", "-c", ShellQuote(script) + (" " + last));
    FiveWords("exec", "sh", "-c", script, path);
  }

  lemma FiveWords(a: string, b: string, c: string, d: string, e: string)
    ensures Prepend(a, Prepend(b, Prepend(c, Some([d, e])))) == Some([a, b, c, d, e])
  {
    assert [a] + ([b] + ([c] + [d, e])) == [a, b, c, d, e];
  }

  lemma PlainNames()
    ensures forall i :: 0 <= i < |"exec"| ==> IsPlain("exec"[i])
    ensures forall i :: 0 <= i < |"sh"| ==> IsPlain("sh"[i])
    ensures forall i :: 0 <= i < |"-c"| ==> IsPlain("-c"[i])
  {
  }

  lemma ThreePlainArguments(a: string, b: string, c: string, rest: string)
    requires a != "" && b != "" && c != ""
    requires forall i :: 0 <= i < |a| ==> IsPlain(a[i])
    requires forall i :: 0 <= i < |b| ==> IsPlain(b[i])
    requires forall i :: 0 <= i < |c| ==> IsPlain(c[i])
    ensures ReadCommand(a + " " + (b + " " + (c + " " + rest)))
         == Prepend(a, Prepend(b, Prepend(c, ReadCommand(rest))))
  {
    PlainArgument(c, rest);
    PlainArgument(b, c + " " + rest);
    PlainArgument(a, b + " " + (c + " " + rest));
  }

  lemma {:induction false} NoQuotesToEscape(s: string)
    requires QUOTE !in s
    ensures EscapeQuotes(s) == s
    decreases |s|
  {
    if s != "" {
      assert s[0] in s;
      NoQuotesToEscape(s[1..]);
      assert [s[0]] + s[1..] == s;
    }
  }
}
