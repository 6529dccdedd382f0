/**
 * A text quoted for POSIX sh, and how sh reads it back.
 *
 * The lexer follows sections 2.2.1 (escape character) and 2.2.2 (single-quotes) of the Shell Command
 * Language volume of POSIX.1-2017 and the delimiting rules of its section 2.3; any construct outside
 * them is `Unsupported`, so a proof about a word shows none was met.
 */
module ShellQuote {
  const QUOTE := '\''
  const BACKSLASH := '\\'

  /** Every single quote becomes: close, an escaped quote, open again. */
  function EscapeQuotes(s: string): string {
    if s == "" then ""
    else (if s[0] == QUOTE then [QUOTE, BACKSLASH, QUOTE, QUOTE] else [s[0]]) + EscapeQuotes(s[1..])
  }

  function SingleQuoted(s: string): string { [QUOTE] + EscapeQuotes(s) + [QUOTE] }

  // ---- a word of sh ---------------------------------------------------------------------------

  datatype Lexed = Word(text: string, rest: string) | Unterminated | Unsupported

  /** Characters that end an unquoted word and are left for the next token. */
  predicate EndsWord(c: char) { c in {' ', '\t', '\n', ';', '&', '|', '(', ')', '<', '>'} }

  /** Characters whose unquoted meaning is not modelled. */
  predicate Special(c: char) { c in {'"', '$', '`', '#', '*', '?', '[', '~', '=', '{', '}', '!'} }

  function Prepend(c: char, l: Lexed): Lexed {
    if l.Word? then l.(text := [c] + l.text) else l
  }

  /** Outside quotes: a quote opens, a backslash takes the next character, a delimiter ends the word. */
  function LexUnquoted(s: string): Lexed
    decreases |s|
  {
    if s == "" then Word("", "")
    else if s[0] == QUOTE then LexQuoted(s[1..])
    else if s[0] == BACKSLASH then
      if |s| == 1 then Unterminated
      else if s[1] == '\n' then LexUnquoted(s[2..])
      else Prepend(s[1], LexUnquoted(s[2..]))
    else if EndsWord(s[0]) then Word("", s)
    else if Special(s[0]) then Unsupported
    else Prepend(s[0], LexUnquoted(s[1..]))
  }

  /** Inside single quotes every character but the closing quote stands for itself. */
  function LexQuoted(s: string): Lexed
    decreases |s|
  {
    if s == "" then Unterminated
    else if s[0] == QUOTE then LexUnquoted(s[1..])
    else Prepend(s[0], LexQuoted(s[1..]))
  }

  lemma EscapeCons(s: string, after: string)
    requires s != ""
    ensures var tail := EscapeQuotes(s[1..]) + [QUOTE] + after;
      EscapeQuotes(s) + [QUOTE] + after ==
      if s[0] == QUOTE then [QUOTE] + ([BACKSLASH, QUOTE] + ([QUOTE] + tail)) else [s[0]] + tail
  {
  }

  /** Reading an escaped text up to its closing quote gives the text, then whatever follows. */
  lemma {:induction false} EscapedReadsBack(s: string, after: string)
    ensures LexQuoted(EscapeQuotes(s) + [QUOTE] + after) == Prefixed(s, LexUnquoted(after))
  {
    if s == "" {
      assert "" + [QUOTE] + after == [QUOTE] + after;
      assert ([QUOTE] + after)[1..] == after;
    } else {
      var tail := EscapeQuotes(s[1..]) + [QUOTE] + after;
      EscapedReadsBack(s[1..], after);
      PrefixedCons(s, LexUnquoted(after));
      EscapeCons(s, after);
      if s[0] == QUOTE {
        EscapedQuote(tail);
      } else {
        PlainCharacter(s[0], tail);
      }
    }
  }

  /** Close, an escaped quote, open again: one quote character. */
  lemma EscapedQuote(tail: string)
    ensures LexQuoted([QUOTE] + ([BACKSLASH, QUOTE] + ([QUOTE] + tail))) == Prepend(QUOTE, LexQuoted(tail))
  {
    var escaped := [BACKSLASH, QUOTE] + ([QUOTE] + tail);
    assert ([QUOTE] + escaped)[1..] == escaped;
    assert escaped[0] == BACKSLASH && escaped[1] == QUOTE && escaped[2..] == [QUOTE] + tail;
    assert ([QUOTE] + tail)[1..] == tail;
    assert LexUnquoted([QUOTE] + tail) == LexQuoted(tail);
    assert LexUnquoted(escaped) == Prepend(QUOTE, LexUnquoted([QUOTE] + tail));
  }

  lemma PlainCharacter(c: char, tail: string)
    requires c != QUOTE
    ensures LexQuoted([c] + tail) == Prepend(c, LexQuoted(tail))
  {
    assert ([c] + tail)[1..] == tail;
  }

  /** A text put in front of a word. */
  function Prefixed(s: string, l: Lexed): Lexed {
    if l.Word? then l.(text := s + l.text) else l
  }

  lemma PrefixedCons(s: string, l: Lexed)
    requires s != ""
    ensures Prefixed(s, l) == Prepend(s[0], Prefixed(s[1..], l))
  {
    if l.Word? {
      assert [s[0]] + (s[1..] + l.text) == s + l.text;
    }
  }

  /** Whatever follows, the quoted text is read as the text itself, and the word runs on from there. */
  lemma QuotedRunsOn(s: string, after: string)
    ensures LexUnquoted(SingleQuoted(s) + after) == Prefixed(s, LexUnquoted(after))
  {
    var text := SingleQuoted(s) + after;
    assert text == [QUOTE] + (EscapeQuotes(s) + [QUOTE] + after);
    assert text[1..] == EscapeQuotes(s) + [QUOTE] + after;
    EscapedReadsBack(s, after);
  }

  /**
   * Whatever the text, its single-quoted form is read as exactly one word, the text itself, and
   * reading stops at the delimiter that follows.
   */
  lemma QuotedIsOneWord(s: string, after: string)
    requires after == "" || EndsWord(after[0])
    ensures LexUnquoted(SingleQuoted(s) + after) == Word(s, after)
  {
    QuotedRunsOn(s, after);
    assert s + "" == s;
  }
}
