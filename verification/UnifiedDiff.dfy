/** The diff as the approval prompt computes it: split, script, trim, count. */
module UnifiedDiff {
  import opened Wrappers
  import opened Lcs
  import opened Diff
  import opened DiffText
  import opened Lines

  // ---- lines ----------------------------------------------------------------------------------

  function TrimNewline(s: string): string { if EndsInNewline(s) then s[..|s| - 1] else s }

  function SplitLines(s: string): seq<string> { if s == "" then [] else Split(TrimNewline(s)) }

  /** Two contents that differ in nothing but a final newline. */
  predicate OnlyFinalNewline(x: string, y: string) {
    || (x != "" && !EndsInNewline(x) && y == x + "\n")
    || (y != "" && !EndsInNewline(y) && x == y + "\n")
  }

  /** The lines of a text hold no newline and, put together, are the text, but for a final newline. */
  lemma SplitLinesReadBack(s: string)
    ensures var ls := SplitLines(s);
      && (ls == [] <==> s == "")
      && (forall i :: 0 <= i < |ls| ==> OneLine(ls[i]))
      && (s == Unsplit(ls) || s == Unsplit(ls) + "\n")
  {
    SplitOneLine(TrimNewline(s));
    UnsplitSplit(TrimNewline(s));
    TrimUndone(s);
  }

  /** Different contents have the same lines exactly when only a final newline tells them apart. */
  lemma SameLinesIff(x: string, y: string)
    requires x != y
    ensures SplitLines(x) == SplitLines(y) <==> OnlyFinalNewline(x, y)
  {
    UnsplitSplit(TrimNewline(x));
    UnsplitSplit(TrimNewline(y));
    TrimUndone(x);
    TrimUndone(y);
    if SplitLines(x) == SplitLines(y) && x != "" {
      assert TrimNewline(x) == TrimNewline(y);
    }
    if OnlyFinalNewline(x, y) {
      assert (x + "\n")[..|x|] == x && (y + "\n")[..|y|] == y;
    }
  }

  lemma TrimUndone(s: string)
    ensures s == TrimNewline(s) + if EndsInNewline(s) then "\n" else ""
  {
  }

  // ---- counting -------------------------------------------------------------------------------

  /** The counts depend on the changed lines alone. */
  lemma {:induction false} CountsOfChanges(ls: seq<string>)
    ensures Removals(ls) == Removals(OnlyChanges(ls)) && Additions(ls) == Additions(OnlyChanges(ls))
  {
    if ls != [] {
      var init, l := ls[..|ls| - 1], ls[|ls| - 1];
      assert ls == init + [l];
      CountsOfChanges(init);
      CountsConcat(init, [l]);
      CountsConcat(OnlyChanges(init), if Changed(l) then [l] else []);
      CountsOne(l);
    }
  }

  lemma TrimmingKeepsCounts(ls: seq<string>)
    ensures var t := Trimmed(ls, |ls|); Removals(t) == Removals(ls) && Additions(t) == Additions(ls)
  {
    TrimmingKeepsChanges(ls, |ls|);
    assert ls[..|ls|] == ls;
    CountsOfChanges(ls);
    CountsOfChanges(Trimmed(ls, |ls|));
  }

  // ---- trimming -------------------------------------------------------------------------------

  /** Line k is within three lines of a change among the first n. */
  predicate NearBefore(ls: seq<string>, n: nat, k: int)
    requires n <= |ls|
  {
    exists j :: 0 <= j < n && k - CONTEXT <= j <= k + CONTEXT && Changed(ls[j])
  }

  lemma NearBeforeStep(ls: seq<string>, n: nat, k: int)
    requires n < |ls|
    ensures NearBefore(ls, n + 1, k) <==> NearBefore(ls, n, k) || (Changed(ls[n]) && k - CONTEXT <= n <= k + CONTEXT)
  {
    if NearBefore(ls, n, k) {
      var j :| 0 <= j < n && k - CONTEXT <= j <= k + CONTEXT && Changed(ls[j]);
      assert 0 <= j < n + 1;
    }
  }

  method MarkKept(lines: seq<string>) returns (keep: array<bool>)
    ensures fresh(keep) && keep.Length == |lines|
    ensures forall k :: 0 <= k < |lines| ==> keep[k] == Near(lines, k)
  {
    keep := new bool[|lines|](_ => false);
    for i := 0 to |lines|
      invariant forall k :: 0 <= k < |lines| ==> keep[k] == NearBefore(lines, i, k)
    {
      forall k | 0 <= k < |lines| {
        NearBeforeStep(lines, i, k);
      }
      if Context(lines[i]) {
        continue;
      }
      for d := -CONTEXT to CONTEXT + 1
        invariant forall k :: 0 <= k < |lines| ==> keep[k] == (NearBefore(lines, i, k) || i - CONTEXT <= k < i + d)
      {
        if i + d >= 0 && i + d < |lines| {
          keep[i + d] := true;
        }
      }
    }
  }

  method TrimContext(lines: seq<string>) returns (out: seq<string>)
    ensures out == Trimmed(lines, |lines|)
  {
    var keep := MarkKept(lines);
    out := [];
    var skipping := false;
    for i := 0 to |lines|
      invariant out == Trimmed(lines, i)
      invariant skipping == (i > 0 && !Near(lines, i - 1))
    {
      if keep[i] {
        if skipping {
          out := out + [GAP];
          skipping := false;
        }
        out := out + [lines[i]];
        continue;
      }
      skipping := true;
    }
  }

  // ---- the diff -------------------------------------------------------------------------------

  /** The suffixes still to be written hold the common lines still to be reached. */
  predicate Ahead(a: seq<string>, b: seq<string>, common: seq<string>, i: nat, j: nat, k: nat) {
    && i <= |a| && j <= |b| && k <= |common|
    && Subsequence(common[k..], a[i..]) && Subsequence(common[k..], b[j..])
  }

  function Rest(a: seq<string>, b: seq<string>, common: seq<string>, i: nat, j: nat, k: nat): seq<string>
    requires Ahead(a, b, common, i, j, k)
  {
    Script(a[i..], b[j..], common[k..])
  }

  /** What is written and what is still to be written make up the script. */
  predicate Underway(a: seq<string>, b: seq<string>, common: seq<string>, lines: seq<string>, i: nat, j: nat, k: nat) {
    && Subsequence(common, a) && Subsequence(common, b)
    && Ahead(a, b, common, i, j, k)
    && lines + Rest(a, b, common, i, j, k) == Script(a, b, common)
  }

  /** Writing the line that comes next. */
  lemma Written(lines: seq<string>, l: string, rest: seq<string>)
    ensures (lines + [l]) + rest == lines + ([l] + rest)
  {
  }

  lemma RestDeletes(a: seq<string>, b: seq<string>, common: seq<string>, lines: seq<string>, i: nat, j: nat, k: nat)
    requires Underway(a, b, common, lines, i, j, k) && k < |common| && i < |a| && a[i] != common[k]
    ensures Underway(a, b, common, lines + ["- " + a[i]], i + 1, j, k)
  {
    assert a[i..][1..] == a[i + 1..];
    SubsequenceGreedy(common[k..], a[i..]);
    assert Rest(a, b, common, i, j, k) == ["- " + a[i]] + Rest(a, b, common, i + 1, j, k);
    Written(lines, "- " + a[i], Rest(a, b, common, i + 1, j, k));
  }

  lemma RestInserts(a: seq<string>, b: seq<string>, common: seq<string>, lines: seq<string>, i: nat, j: nat, k: nat)
    requires Underway(a, b, common, lines, i, j, k) && k < |common|
    requires i < |a| && a[i] == common[k] && j < |b| && b[j] != common[k]
    ensures Underway(a, b, common, lines + ["+ " + b[j]], i, j + 1, k)
  {
    assert b[j..][1..] == b[j + 1..];
    SubsequenceGreedy(common[k..], b[j..]);
    assert Rest(a, b, common, i, j, k) == ["+ " + b[j]] + Rest(a, b, common, i, j + 1, k);
    Written(lines, "+ " + b[j], Rest(a, b, common, i, j + 1, k));
  }

  lemma RestKeeps(a: seq<string>, b: seq<string>, common: seq<string>, lines: seq<string>, i: nat, j: nat, k: nat)
    requires Underway(a, b, common, lines, i, j, k) && k < |common|
    requires i < |a| && a[i] == common[k] && j < |b| && b[j] == common[k]
    ensures Underway(a, b, common, lines + ["  " + common[k]], i + 1, j + 1, k + 1)
  {
    assert a[i..][1..] == a[i + 1..] && b[j..][1..] == b[j + 1..] && common[k..][1..] == common[k + 1..];
    SubsequenceGreedy(common[k..], a[i..]);
    SubsequenceGreedy(common[k..], b[j..]);
    assert Rest(a, b, common, i, j, k) == ["  " + common[k]] + Rest(a, b, common, i + 1, j + 1, k + 1);
    Written(lines, "  " + common[k], Rest(a, b, common, i + 1, j + 1, k + 1));
  }

  /** A common line still ahead is found on both sides. */
  lemma NotPastEnd(a: seq<string>, b: seq<string>, common: seq<string>, i: nat, j: nat, k: nat)
    requires Ahead(a, b, common, i, j, k) && k < |common|
    ensures i < |a| && j < |b|
  {
  }

  /** The walk along the common lines that writes the script. */
  method WriteScript(a: seq<string>, b: seq<string>, common: seq<string>) returns (lines: seq<string>)
    requires Subsequence(common, a) && Subsequence(common, b)
    ensures lines == Script(a, b, common)
  {
    lines := [];
    var i, j := 0, 0;
    for k := 0 to |common|
      invariant Underway(a, b, common, lines, i, j, k)
    {
      var c := common[k];
      NotPastEnd(a, b, common, i, j, k);
      while i < |a| && a[i] != c
        invariant i < |a| && Underway(a, b, common, lines, i, j, k)
      {
        RestDeletes(a, b, common, lines, i, j, k);
        NotPastEnd(a, b, common, i + 1, j, k);
        lines := lines + ["- " + a[i]];
        i := i + 1;
      }
      while j < |b| && b[j] != c
        invariant j < |b| && Underway(a, b, common, lines, i, j, k)
      {
        RestInserts(a, b, common, lines, i, j, k);
        NotPastEnd(a, b, common, i, j + 1, k);
        lines := lines + ["+ " + b[j]];
        j := j + 1;
      }
      RestKeeps(a, b, common, lines, i, j, k);
      lines := lines + ["  " + c];
      i, j := i + 1, j + 1;
    }
    lines := WriteRest(a, b, common, lines, i, j);
  }

  /** After the last common line: what is left of the old side, then what is left of the new. */
  method WriteRest(a: seq<string>, b: seq<string>, common: seq<string>, lines: seq<string>, i: nat, j: nat)
    returns (out: seq<string>)
    requires Underway(a, b, common, lines, i, j, |common|)
    ensures out == Script(a, b, common)
  {
    assert common[|common|..] == [];
    var removed := MarkRest("- ", a, i);
    var added := MarkRest("+ ", b, j);
    Reassociate(lines, removed, added);
    out := lines + removed + added;
  }

  /** The lines left over on one side, marked. */
  method MarkRest(mark: string, ls: seq<string>, start: nat) returns (out: seq<string>)
    requires start <= |ls|
    ensures out == Marked(mark, ls[start..])
  {
    out := [];
    for i := start to |ls|
      invariant out + Marked(mark, ls[i..]) == Marked(mark, ls[start..])
    {
      assert ls[i..][1..] == ls[i + 1..];
      out := out + [mark + ls[i]];
    }
    assert out + [] == out;
  }

  /** What is rendered for a change. */
  function Change(before: string, after: string): Rendering {
    var s := BestScript(SplitLines(before), SplitLines(after));
    Shown(Trimmed(s, |s|))
  }

  /** What is rendered counts what the longest common subsequence leaves over on each side. */
  lemma ChangeCounts(before: string, after: string)
    ensures var a, b := SplitLines(before), SplitLines(after);
      Change(before, after).added == |b| - |Walk(a, b)| && Change(before, after).removed == |a| - |Walk(a, b)|
  {
    var a, b := SplitLines(before), SplitLines(after);
    WalkIsCommon(a, b);
    ScriptReadsBack(a, b, Walk(a, b));
    ScriptKeepsCommon(BestScript(a, b));
    TrimmingKeepsCounts(BestScript(a, b));
  }

  /**
   * The whole diff: empty for identical contents and only then; otherwise the text of counts that are
   * what the longest common subsequence leaves over on each side, over the first lines of the trimmed
   * minimal script.
   */
  method UnifiedDiff(before: string, after: string) returns (text: string)
    ensures text == "" <==> before == after
    ensures before != after ==>
      var a, b := SplitLines(before), SplitLines(after);
      && text == Layout(Change(before, after))
      && Change(before, after).added == |b| - |Walk(a, b)| && Change(before, after).removed == |a| - |Walk(a, b)|
    ensures before != after ==>
      var a, b := SplitLines(before), SplitLines(after);
      var t := Trimmed(BestScript(a, b), |BestScript(a, b)|);
      Split(text) == Presented(|b| - |Walk(a, b)|, |a| - |Walk(a, b)|, t)
  {
    hide Split, Presented, Layout, Trimmed, Printable, SplitLines, Shown;
    if before == after {
      return "";
    }
    var a, b := SplitLines(before), SplitLines(after);
    var common := Lcs.Lcs(a, b);
    var lines := WriteScript(a, b, common);
    var trimmed := TrimContext(lines);
    text := Render(trimmed);
    assert lines == BestScript(a, b);
    assert Split(text) == Presented(Additions(trimmed), Removals(trimmed), trimmed) by {
      ScriptIsPrintable(before, after);
    }
    ChangeCounts(before, after);
    ChangeIs(before, after);
    HeadlineLeads(Change(before, after));
  }

  lemma ChangeIs(before: string, after: string)
    ensures var s := BestScript(SplitLines(before), SplitLines(after)); var t := Trimmed(s, |s|);
      && Change(before, after) == Shown(t)
      && Change(before, after).added == Additions(t) && Change(before, after).removed == Removals(t)
  {
  }

  // ---- every line of a script can be printed --------------------------------------------------

  predicate AllOneLine(ls: seq<string>) { forall i :: 0 <= i < |ls| ==> OneLine(ls[i]) }

  lemma LinesAreOne(s: string)
    ensures AllOneLine(SplitLines(s))
  {
    SplitOneLine(TrimNewline(s));
  }

  lemma {:induction false} MarkedIsOne(mark: string, ls: seq<string>)
    requires OneLine(mark) && AllOneLine(ls)
    ensures AllOneLine(Marked(mark, ls))
  {
    if ls != [] {
      MarkedIsOne(mark, ls[1..]);
      OneLineConcat(mark, ls[0]);
    }
  }

  lemma OneMore(l: string, ls: seq<string>)
    requires OneLine(l) && AllOneLine(ls)
    ensures AllOneLine([l] + ls)
  {
  }

  lemma OneAppended(s: seq<string>, t: seq<string>)
    requires AllOneLine(s) && AllOneLine(t)
    ensures AllOneLine(s + t)
  {
  }

  lemma {:induction false} ScriptIsOne(a: seq<string>, b: seq<string>, common: seq<string>)
    requires Subsequence(common, a) && Subsequence(common, b) && AllOneLine(a) && AllOneLine(b)
    ensures AllOneLine(Script(a, b, common))
    decreases |a| + |b|
  {
    hide AllOneLine;
    if common == [] {
      MarkedIsOne("- ", a);
      MarkedIsOne("+ ", b);
      OneAppended(Marked("- ", a), Marked("+ ", b));
    } else if a[0] != common[0] {
      RestIsOne(a);
      ScriptIsOne(a[1..], b, common);
      OneLineConcat("- ", a[0]);
      OneMore("- " + a[0], Script(a[1..], b, common));
    } else if b[0] != common[0] {
      RestIsOne(b);
      ScriptIsOne(a, b[1..], common);
      OneLineConcat("+ ", b[0]);
      OneMore("+ " + b[0], Script(a, b[1..], common));
    } else {
      RestIsOne(a);
      RestIsOne(b);
      SubsequenceGreedy(common, a);
      SubsequenceGreedy(common, b);
      ScriptIsOne(a[1..], b[1..], common[1..]);
      OneLineConcat("  ", common[0]);
      OneMore("  " + common[0], Script(a[1..], b[1..], common[1..]));
    }
  }

  lemma RestIsOne(ls: seq<string>)
    requires AllOneLine(ls) && ls != []
    ensures OneLine(ls[0]) && AllOneLine(ls[1..])
  {
  }

  /** What trimming shows has two mark characters in front and no newline, markers of a gap included. */
  lemma TrimmedIsPrintable(s: seq<string>)
    requires IsScript(s) && AllOneLine(s)
    ensures var t := Trimmed(s, |s|); forall i :: 0 <= i < |t| ==> Printable(t[i]) && |t[i]| >= 2
  {
    TagsShow(s, |s|);
    var t, tags := Trimmed(s, |s|), Tags(s, |s|);
    forall i | 0 <= i < |t|
      ensures Printable(t[i]) && |t[i]| >= 2
    {
      TagsInRange(s, |s|);
      assert t[i] == if tags[i] == -1 then GAP else s[tags[i]];
    }
  }

  lemma TagsInRange(s: seq<string>, n: nat)
    requires n <= |s|
    ensures forall p :: 0 <= p < |Tags(s, n)| ==> -1 <= Tags(s, n)[p] < |s|
  {
    TagsNameNear(s, n);
  }

  lemma ScriptIsPrintable(before: string, after: string)
    ensures var a, b := SplitLines(before), SplitLines(after); var s := BestScript(a, b); var t := Trimmed(s, |s|);
      forall i :: 0 <= i < |t| ==> Printable(t[i])
  {
    var a, b := SplitLines(before), SplitLines(after);
    WalkIsCommon(a, b);
    LinesAreOne(before);
    LinesAreOne(after);
    ScriptIsOne(a, b, Walk(a, b));
    ScriptReadsBack(a, b, Walk(a, b));
    TrimmedIsPrintable(BestScript(a, b));
  }

  lemma {:induction false} WholeSubsequence(c: seq<string>, a: seq<string>)
    requires Subsequence(c, a) && |c| == |a|
    ensures c == a
    decreases |a|
  {
    if a != [] {
      if c[0] == a[0] && Subsequence(c[1..], a[1..]) {
        WholeSubsequence(c[1..], a[1..]);
        assert c == [c[0]] + c[1..] && a == [a[0]] + a[1..];
      } else {
        SubsequenceLength(c, a[1..]);
      }
    }
  }

  lemma {:induction false} WalkOfSame(a: seq<string>)
    ensures Walk(a, a) == a
  {
    if a != [] {
      WalkOfSame(a[1..]);
    }
  }

  lemma {:induction false} NothingChanged(s: seq<string>)
    requires IsScript(s) && Removals(s) == 0 && Additions(s) == 0
    ensures forall i :: 0 <= i < |s| ==> Context(s[i])
  {
    if s != [] {
      assert forall i :: 0 <= i < |s[1..]| ==> s[1..][i] == s[i + 1];
      NothingChanged(s[1..]);
      forall i | 0 <= i < |s|
        ensures Context(s[i])
      {
        if i > 0 {
          assert s[i] == s[1..][i - 1];
        }
      }
    }
  }

  lemma {:induction false} NothingShown(s: seq<string>, n: nat)
    requires n <= |s| && forall i :: 0 <= i < |s| ==> Context(s[i])
    ensures Trimmed(s, n) == []
  {
    if n > 0 {
      NothingShown(s, n - 1);
    }
  }

  /** A change counted as nothing added and nothing removed shows no line either. */
  lemma NothingCounted(x: string, y: string)
    requires Change(x, y).added == 0 && Change(x, y).removed == 0
    ensures Layout(Change(x, y)) == NO_CHANGE
  {
    var a, b := SplitLines(x), SplitLines(y);
    var s := BestScript(a, b);
    WalkIsCommon(a, b);
    ScriptReadsBack(a, b, Walk(a, b));
    TrimmingKeepsCounts(s);
    NothingChanged(s);
    NothingShown(s, |s|);
    BareLayout(0, 0);
  }

  /** "0 line(s) added, 0 removed": what the prompt says of a change it cannot see. */
  const NO_CHANGE := Headline(0, 0)

  /**
   * When a change is invisible: different contents are presented as nothing added and nothing
   * removed, with no line shown, exactly when they differ in a final newline alone.
   */
  lemma InvisibleChangeIff(x: string, y: string)
    requires x != y
    ensures Layout(Change(x, y)) == NO_CHANGE <==> OnlyFinalNewline(x, y)
  {
    ChangeCounts(x, y);
    CountedNothingIff(x, y);
    if Layout(Change(x, y)) == NO_CHANGE {
      BareLayout(0, 0);
      LayoutShowsCounts(Change(x, y), Rendering(0, 0, [], 0));
    }
    if Change(x, y).added == 0 && Change(x, y).removed == 0 {
      NothingCounted(x, y);
    }
  }

  lemma CountedNothingIff(x: string, y: string)
    requires x != y
    ensures var a, b := SplitLines(x), SplitLines(y);
      |a| - |Walk(a, b)| == 0 && |b| - |Walk(a, b)| == 0 <==> OnlyFinalNewline(x, y)
  {
    var a, b := SplitLines(x), SplitLines(y);
    WalkIsCommon(a, b);
    if |Walk(a, b)| == |a| == |b| {
      WholeSubsequence(Walk(a, b), a);
      WholeSubsequence(Walk(a, b), b);
    }
    WalkOfSame(a);
    SameLinesIff(x, y);
  }

  /** For example, a newline added to the end of a file. */
  lemma AddedNewlineIsInvisible(x: string)
    requires x != "" && !EndsInNewline(x)
    ensures x != x + "\n" && Layout(Change(x, x + "\n")) == NO_CHANGE
  {
    assert |x + "\n"| == |x| + 1;
    InvisibleChangeIff(x, x + "\n");
  }
}
