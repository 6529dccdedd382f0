/** Which changed lines the approval prompt shows: those of the first 120 lines of the trimmed script. */
module Visibility {
  import opened Lcs
  import opened Diff
  import opened DiffText
  import opened UnifiedDiff
  import opened Lines

  /** The minimal script for a change, before its context is trimmed. */
  function ScriptFor(x: string, y: string): seq<string> { BestScript(SplitLines(x), SplitLines(y)) }

  /** No changed line stands at or past this index. */
  predicate QuietFrom(ls: seq<string>, start: nat) {
    forall i :: start <= i < |ls| ==> Context(ls[i])
  }

  lemma {:induction false} OnlyContext(ls: seq<string>)
    ensures OnlyChanges(ls) == [] <==> QuietFrom(ls, 0)
  {
    if ls != [] {
      OnlyContext(ls[..|ls| - 1]);
    }
  }

  /** The diff lines of a prompt: those after the first, up to a blank one. */
  function DiffLines(text: string): seq<string> { UpToBlank(Split(text)[1..]) }

  function UpToBlank(ls: seq<string>): seq<string> {
    if ls == [] || ls[0] == "" then [] else [ls[0]] + UpToBlank(ls[1..])
  }

  lemma {:induction false} UpToBlankIs(ls: seq<string>, rest: seq<string>)
    requires (forall i :: 0 <= i < |ls| ==> ls[i] != "") && (rest != [] ==> rest[0] == "")
    ensures UpToBlank(ls + rest) == ls
  {
    if ls == [] {
      assert ls + rest == rest;
    } else {
      assert (ls + rest)[1..] == ls[1..] + rest;
      UpToBlankIs(ls[1..], rest);
    }
  }

  lemma ShownIsPrintable(x: string, y: string)
    ensures var shown := Change(x, y).shown; forall i :: 0 <= i < |shown| ==> Printable(shown[i])
  {
    hide Printable, BestScript, Trimmed;
    var s := ScriptFor(x, y);
    ScriptIsPrintable(x, y);
    assert Change(x, y).shown <= Trimmed(s, |s|);
  }

  /** The text of a change holds the lines it renders. */
  lemma DiffLinesAreShown(x: string, y: string)
    ensures DiffLines(Layout(Change(x, y))) == Change(x, y).shown
  {
    hide Layout, Split, FirstLine, OneLine;
    var r := Change(x, y);
    ShownIsPrintable(x, y);
    LayoutIsLines(r);
    assert TextLines(r)[1..] == r.shown + NoticeLines(r.cut);
    UpToBlankIs(r.shown, NoticeLines(r.cut));
  }

  /**
   * What the text holds of the changed lines is always the first of them, in order; and it is all of
   * them, the operator seeing every changed line, exactly when the trimmed script has none past the cut.
   */
  lemma EveryChangeShownIff(x: string, y: string)
    ensures var s, read := ScriptFor(x, y), DiffLines(Layout(Change(x, y)));
      && OnlyChanges(read) <= OnlyChanges(s)
      && (OnlyChanges(read) == OnlyChanges(s) <==> QuietFrom(Trimmed(s, |s|), MAX_LINES))
  {
    DiffLinesAreShown(x, y);
    RenderedChanges(x, y);
  }

  /** The same of the rendering. */
  lemma RenderedChanges(x: string, y: string)
    ensures var s, shown := ScriptFor(x, y), Change(x, y).shown;
      && OnlyChanges(shown) <= OnlyChanges(s)
      && (OnlyChanges(shown) == OnlyChanges(s) <==> QuietFrom(Trimmed(s, |s|), MAX_LINES))
  {
    hide BestScript, OnlyChanges;
    var s := ScriptFor(x, y);
    var t, shown := Trimmed(s, |s|), Change(x, y).shown;
    TrimmingKeepsChanges(s, |s|);
    assert s[..|s|] == s && t == shown + t[|shown|..];
    OnlyChangesConcat(shown, t[|shown|..]);
    OnlyContext(t[|shown|..]);
    if QuietFrom(t[|shown|..], 0) {
      forall i | MAX_LINES <= i < |t|
        ensures Context(t[i])
      {
        assert t[i] == t[|shown|..][i - |shown|];
      }
    }
  }

  /** Every changed line of a script is a removal or an addition. */
  lemma {:induction false} ChangesAreCounted(s: seq<string>, n: nat)
    requires IsScript(s) && n <= |s|
    ensures ChangesBefore(s, n) == Removals(s[..n]) + Additions(s[..n])
  {
    if n > 0 {
      ChangesAreCounted(s, n - 1);
      assert s[..n] == s[..n - 1] + [s[n - 1]];
      CountsConcat(s[..n - 1], [s[n - 1]]);
      CountsOne(s[n - 1]);
    } else {
      assert s[..0] == [];
    }
  }

  /** A change of at most fifteen lines is never cut, so all of them are shown. */
  lemma SmallChangesAreShown(x: string, y: string)
    requires 8 * (Change(x, y).added + Change(x, y).removed) <= MAX_LINES
    ensures Change(x, y).cut == 0 && OnlyChanges(DiffLines(Layout(Change(x, y)))) == OnlyChanges(ScriptFor(x, y))
  {
    var s := ScriptFor(x, y);
    WalkIsCommon(SplitLines(x), SplitLines(y));
    ScriptReadsBack(SplitLines(x), SplitLines(y), Walk(SplitLines(x), SplitLines(y)));
    ChangesAreCounted(s, |s|);
    assert s[..|s|] == s;
    TrimmingKeepsCounts(s);
    TrimmedIsShort(s);
    EveryChangeShownIff(x, y);
  }

  // ---- a new file -----------------------------------------------------------------------------

  lemma {:induction false} MarkedAt(mark: string, ls: seq<string>)
    ensures |Marked(mark, ls)| == |ls| && forall i :: 0 <= i < |ls| ==> Marked(mark, ls)[i] == mark + ls[i]
  {
    if ls != [] {
      MarkedAt(mark, ls[1..]);
    }
  }

  lemma NewFileScript(y: string)
    ensures ScriptFor("", y) == Marked("+ ", SplitLines(y))
  {
    assert Marked("- ", []) + Marked("+ ", SplitLines(y)) == Marked("+ ", SplitLines(y));
  }

  lemma {:induction false} AllShown(s: seq<string>, n: nat)
    requires n <= |s| && forall i :: 0 <= i < |s| ==> Changed(s[i])
    ensures Trimmed(s, n) == s[..n]
  {
    if n > 0 {
      AllShown(s, n - 1);
      assert Changed(s[n - 1]) && Near(s, n - 1);
      if n > 1 {
        assert Changed(s[n - 2]) && Near(s, n - 2);
      }
      assert s[..n] == s[..n - 1] + [s[n - 1]];
    }
  }

  /** Of a new file: every line counted, the first 120 shown. */
  lemma NewFileShows(y: string)
    ensures var ls, r := SplitLines(y), Change("", y);
      && r.added == |ls| && r.removed == 0
      && |r.shown| == (if |ls| < MAX_LINES then |ls| else MAX_LINES) && |r.shown| + r.cut == |ls|
      && forall i :: 0 <= i < |r.shown| ==> r.shown[i] == "+ " + ls[i]
  {
    var s := ScriptFor("", y);
    NewFileScript(y);
    MarkedAt("+ ", SplitLines(y));
    AllShown(s, |s|);
    assert s[..|s|] == s;
    ChangeCounts("", y);
  }

  lemma SameMark(k: string, l: string)
    ensures "+ " + k == "+ " + l <==> k == l
  {
    assert ("+ " + k)[2..] == k && ("+ " + l)[2..] == l;
  }

  /** Two new files have the same text exactly when they have equally many lines and the same first 120. */
  lemma NewFilesLookAlikeIff(x: string, y: string)
    ensures var a, b := SplitLines(x), SplitLines(y);
      Layout(Change("", x)) == Layout(Change("", y)) <==>
      |a| == |b| && forall i :: 0 <= i < |a| && i < MAX_LINES ==> a[i] == b[i]
  {
    hide Layout, Change, SplitLines;
    NewFilesRenderAlikeIff(x, y);
    if Layout(Change("", x)) == Layout(Change("", y)) {
      LayoutShowsCounts(Change("", x), Change("", y));
      DiffLinesAreShown("", x);
      DiffLinesAreShown("", y);
      NewFileShows(x);
      NewFileShows(y);
    }
  }

  lemma NewFilesRenderAlikeIff(x: string, y: string)
    ensures var a, b := SplitLines(x), SplitLines(y);
      Change("", x) == Change("", y) <==>
      |a| == |b| && forall i :: 0 <= i < |a| && i < MAX_LINES ==> a[i] == b[i]
  {
    var a, b := SplitLines(x), SplitLines(y);
    NewFileShows(x);
    NewFileShows(y);
    if Change("", x) == Change("", y) {
      forall i | 0 <= i < |a| && i < MAX_LINES
        ensures a[i] == b[i]
      {
        assert Change("", x).shown[i] == Change("", y).shown[i];
        SameMark(a[i], b[i]);
      }
    }
  }

  /** A file of 121 lines, each of one letter, given its last. */
  function LongFile(last: char): string { Unsplit(LongLines(last)) }

  function LongLines(last: char): seq<string> { seq(MAX_LINES, _ => "a") + [[last]] }

  lemma LongFileLines(last: char)
    requires last != '\n'
    ensures SplitLines(LongFile(last)) == LongLines(last)
  {
    SplitUnsplit(LongLines(last));
    UnsplitEnds(LongLines(last));
  }

  /** Two different new files with the same text: they part in their 121st line. */
  lemma HiddenPastTheCut()
    ensures var x, y := LongFile('b'), LongFile('c');
      && x != y && Layout(Change("", x)) == Layout(Change("", y))
      && OnlyChanges(DiffLines(Layout(Change("", x)))) != OnlyChanges(ScriptFor("", x))
  {
    hide Layout, Change, SplitLines, Trimmed, DiffLines, ScriptFor, Unsplit;
    var x, y := LongFile('b'), LongFile('c');
    LongFileLines('b');
    LongFileLines('c');
    assert LongLines('b')[MAX_LINES] == ['b'] && LongLines('c')[MAX_LINES] == ['c'];
    NewFilesLookAlikeIff(x, y);
    EveryChangeShownIff("", x);
    HiddenLine(x);
  }

  lemma HiddenLine(y: string)
    requires |SplitLines(y)| > MAX_LINES
    ensures var s := ScriptFor("", y); !QuietFrom(Trimmed(s, |s|), MAX_LINES)
  {
    var s := ScriptFor("", y);
    NewFileScript(y);
    MarkedAt("+ ", SplitLines(y));
    AllShown(s, |s|);
    assert s[..|s|] == s && Changed(s[MAX_LINES]);
  }
}
