/** The text an approval prompt shows for a diff: counts first, then the lines, then what was cut. */
module DiffText {
  import opened Diff
  import opened Text
  import opened Lines

  /** What the operator is shown: the counts, the lines, and how many were cut. */
  datatype Rendering = Rendering(added: nat, removed: nat, shown: seq<string>, cut: nat)

  const BETWEEN := "line(s) added, "
  const LAST := "removed"

  /** The first line, without its newline. */
  function Headline(added: nat, removed: nat): string {
    DecimalNat(added) + [' '] + (BETWEEN + (DecimalNat(removed) + [' '] + LAST))
  }

  function Lined(ls: seq<string>): string {
    if ls == [] then "" else Lined(ls[..|ls| - 1]) + (ls[|ls| - 1] + "\n")
  }

  const NOT_SHOWN :=
    " more diff line(s) " + ("not shown. A change " + ("this large " + ("is one to read " +
    ("with git, not to " + "approve from a prompt."))))

  /** Said last, and only when lines were cut. */
  function Notice(cut: nat): string {
    if cut == 0 then ""
    else "\n… " + DecimalNat(cut) + NOT_SHOWN + "\n"
  }

  function TrimNewlines(s: string): string {
    if s != "" && s[|s| - 1] == '\n' then TrimNewlines(s[..|s| - 1]) else s
  }

  function Layout(r: Rendering): string {
    TrimNewlines(Headline(r.added, r.removed) + "\n" + Lined(r.shown) + Notice(r.cut))
  }

  /** Trimming takes nothing before a character it keeps. */
  lemma {:induction false} TrimKeeps(front: string, back: string)
    requires front != "" && front[|front| - 1] != '\n'
    ensures front <= TrimNewlines(front + back)
    decreases |back|
  {
    var s := front + back;
    if back == "" {
      assert s == front;
    } else if s[|s| - 1] == '\n' {
      assert s[..|s| - 1] == front + back[..|back| - 1];
      TrimKeeps(front, back[..|back| - 1]);
    }
  }

  lemma HeadlineLeads(r: Rendering)
    ensures Headline(r.added, r.removed) <= Layout(r) && Layout(r) != ""
  {
    var head := Headline(r.added, r.removed);
    assert head[|head| - 1] == 'd' by {
      assert LAST[|LAST| - 1] == 'd';
    }
    var back := "\n" + Lined(r.shown) + Notice(r.cut);
    assert head + "\n" + Lined(r.shown) + Notice(r.cut) == head + back;
    TrimKeeps(head, back);
  }

  lemma DigitsHaveNoSpace(n: nat)
    ensures Without(DecimalNat(n), ' ')
  {
  }

  /** A text begins with at most one pair of counts. */
  lemma HeadlineShowsCounts(a: nat, b: nat, c: nat, d: nat, r: string, q: string)
    requires Headline(a, b) + r == Headline(c, d) + q
    ensures a == c && b == d
  {
    OpenHeadline(a, b, r);
    OpenHeadline(c, d, q);
    var m, n := DecimalNat(b) + [' '] + (LAST + r), DecimalNat(d) + [' '] + (LAST + q);
    DigitsHaveNoSpace(a);
    DigitsHaveNoSpace(c);
    FieldsAgree(DecimalNat(a), ' ', BETWEEN + m, DecimalNat(c), ' ', BETWEEN + n);
    DecimalNatInjective(a, c);
    assert (BETWEEN + m)[|BETWEEN|..] == m && (BETWEEN + n)[|BETWEEN|..] == n;
    DigitsHaveNoSpace(b);
    DigitsHaveNoSpace(d);
    FieldsAgree(DecimalNat(b), ' ', LAST + r, DecimalNat(d), ' ', LAST + q);
    DecimalNatInjective(b, d);
  }

  lemma OpenHeadline(a: nat, b: nat, r: string)
    ensures Headline(a, b) + r == DecimalNat(a) + [' '] + (BETWEEN + (DecimalNat(b) + [' '] + (LAST + r)))
  {
    OpenFields(DecimalNat(a) + [' '], BETWEEN, DecimalNat(b) + [' '], LAST, r);
  }

  lemma OpenFields(x: string, between: string, y: string, last: string, r: string)
    ensures (x + (between + (y + last))) + r == x + (between + (y + (last + r)))
  {
  }

  /** Equal texts show equal counts. */
  lemma LayoutShowsCounts(r: Rendering, q: Rendering)
    requires Layout(r) == Layout(q)
    ensures r.added == q.added && r.removed == q.removed
  {
    HeadlineLeads(r);
    HeadlineLeads(q);
    var head, other, text := Headline(r.added, r.removed), Headline(q.added, q.removed), Layout(r);
    assert text == head + text[|head|..] && text == other + text[|other|..];
    HeadlineShowsCounts(r.added, r.removed, q.added, q.removed, text[|head|..], text[|other|..]);
  }

  /** With nothing to show and nothing cut, the text is the counts. */
  lemma BareLayout(added: nat, removed: nat)
    ensures Layout(Rendering(added, removed, [], 0)) == Headline(added, removed)
  {
    var head := Headline(added, removed);
    assert head[|head| - 1] == 'd' by {
      assert LAST[|LAST| - 1] == 'd';
    }
    assert head + "\n" + Lined([]) + Notice(0) == head + "\n";
    TrimOne(head);
  }

  lemma TrimOne(s: string)
    requires s != "" && s[|s| - 1] != '\n'
    ensures TrimNewlines(s + "\n") == s
  {
    assert (s + "\n")[..|s|] == s;
  }

  // ---- the lines of the text ------------------------------------------------------------------

  /** No newline in it, and something. */
  predicate Printable(l: string) { OneLine(l) && l != "" }

  lemma {:induction false} LinedConcat(s: seq<string>, t: seq<string>)
    ensures Lined(s + t) == Lined(s) + Lined(t)
  {
    if t == [] {
      assert s + t == s;
    } else {
      assert (s + t)[..|s + t| - 1] == s + t[..|t| - 1];
      LinedConcat(s, t[..|t| - 1]);
    }
  }

  lemma {:induction false} LinedIsUnsplit(ls: seq<string>)
    requires ls != []
    ensures Lined(ls) == Unsplit(ls) + "\n"
  {
    var init, l := ls[..|ls| - 1], ls[|ls| - 1];
    assert ls == init + [l];
    if init == [] {
      assert Lined(init) == "" && Unsplit(ls) == l;
    } else {
      LinedIsUnsplit(init);
      UnsplitSnoc(init, l);
      assert Unsplit(init) + "\n" + (l + "\n") == (Unsplit(init) + ("\n" + l)) + "\n";
    }
  }

  /** What the operator is told of lines that were cut: nothing, or their number after a blank line. */
  function NoticeLines(cut: nat): seq<string> {
    if cut == 0 then []
    else ["", "… " + DecimalNat(cut) + NOT_SHOWN]
  }

  lemma NoticeIsLines(cut: nat)
    ensures Notice(cut) == Lined(NoticeLines(cut))
  {
    if cut > 0 {
      var ls := NoticeLines(cut);
      assert ls[..1] == [""] && [""][..0] == [];
    }
  }

  /** What the text begins with: both counts, in words. */
  function FirstLine(added: nat, removed: nat): string {
    DecimalNat(added) + " line(s) added, " + DecimalNat(removed) + " removed"
  }

  lemma HeadlineIs(added: nat, removed: nat)
    ensures Headline(added, removed) == FirstLine(added, removed)
  {
  }

  /** The first line, those shown, and what is said of those cut. */
  function TextLines(r: Rendering): seq<string> { [FirstLine(r.added, r.removed)] + r.shown + NoticeLines(r.cut) }

  lemma EndsPlainly(r: Rendering)
    requires forall i :: 0 <= i < |r.shown| ==> Printable(r.shown[i])
    ensures forall i :: 0 <= i < |TextLines(r)| ==> OneLine(TextLines(r)[i])
    ensures TextLines(r)[|TextLines(r)| - 1] != ""
  {
    hide FirstLine;
    FirstLineIsOne(r.added, r.removed);
    if r.cut > 0 {
      NoticeIsOne(r.cut);
    }
  }

  lemma OneLineConcat(s: string, t: string)
    requires OneLine(s) && OneLine(t)
    ensures OneLine(s + t)
  {
  }

  lemma FirstLineIsOne(added: nat, removed: nat)
    ensures OneLine(FirstLine(added, removed)) && FirstLine(added, removed) != ""
  {
    NoNewlineInDigits(added);
    NoNewlineInDigits(removed);
    OneLineConcat(DecimalNat(added), " line(s) added, ");
    OneLineConcat(DecimalNat(added) + " line(s) added, ", DecimalNat(removed));
    OneLineConcat(DecimalNat(added) + " line(s) added, " + DecimalNat(removed), " removed");
  }

  lemma NoticeIsOne(cut: nat)
    requires cut > 0
    ensures OneLine(NoticeLines(cut)[1]) && NoticeLines(cut)[1] != ""
  {
    NoNewlineInDigits(cut);
    NotShownIsOne();
    OneLineConcat("… ", DecimalNat(cut));
    OneLineConcat("… " + DecimalNat(cut), NOT_SHOWN);
  }

  lemma NotShownIsOne()
    ensures OneLine(NOT_SHOWN)
  {
    OneLineConcat("with git, not to ", "approve from a prompt.");
    OneLineConcat("is one to read ", "with git, not to " + "approve from a prompt.");
    OneLineConcat("this large ", "is one to read " + ("with git, not to " + "approve from a prompt."));
    var rest := "this large " + ("is one to read " + ("with git, not to " + "approve from a prompt."));
    OneLineConcat("not shown. A change ", rest);
    OneLineConcat(" more diff line(s) ", "not shown. A change " + rest);
  }

  lemma NoNewlineInDigits(n: nat)
    ensures OneLine(DecimalNat(n))
  {
  }

  /** The text is those lines, each shown whole: trimming takes no more than the newline after the last. */
  lemma LayoutIsLines(r: Rendering)
    requires forall i :: 0 <= i < |r.shown| ==> Printable(r.shown[i])
    ensures Split(Layout(r)) == TextLines(r)
  {
    hide Split, Unsplit, Notice, NoticeLines, TrimNewlines, FirstLine, Headline;
    var ls, head := TextLines(r), FirstLine(r.added, r.removed);
    EndsPlainly(r);
    HeadlineIs(r.added, r.removed);
    NoticeIsLines(r.cut);
    LinedConcat([head] + r.shown, NoticeLines(r.cut));
    LinedConcat([head], r.shown);
    LinedOne(head);
    LinedIsUnsplit(ls);
    UnsplitEnds(ls);
    TrimOne(Unsplit(ls));
    SplitUnsplit(ls);
  }

  lemma LinedOne(l: string)
    ensures Lined([l]) == l + "\n"
  {
    assert [l][..0] == [];
    assert "" + (l + "\n") == l + "\n";
  }

  // ---- counting -------------------------------------------------------------------------------

  lemma {:induction false} CountsConcat(s: seq<string>, t: seq<string>)
    ensures Removals(s + t) == Removals(s) + Removals(t) && Additions(s + t) == Additions(s) + Additions(t)
  {
    if s == [] {
      assert s + t == t;
    } else {
      assert (s + t)[1..] == s[1..] + t;
      CountsConcat(s[1..], t);
    }
  }

  lemma CountsOne(l: string)
    ensures Removals([l]) == (if Removed(l) then 1 else 0) && Additions([l]) == if Added(l) then 1 else 0
  {
    assert [l][1..] == [];
  }

  /** The most that is shown, and the counts over everything. */
  function Shown(lines: seq<string>): (r: Rendering)
    ensures r.shown <= lines && |r.shown| <= MAX_LINES && |r.shown| + r.cut == |lines|
  {
    var most := if |lines| > MAX_LINES then MAX_LINES else |lines|;
    Rendering(Additions(lines), Removals(lines), lines[..most], |lines| - most)
  }

  method CountChanges(lines: seq<string>) returns (added: nat, removed: nat)
    ensures added == Additions(lines) && removed == Removals(lines)
  {
    added, removed := 0, 0;
    for i := 0 to |lines|
      invariant added == Additions(lines[..i]) && removed == Removals(lines[..i])
    {
      assert lines[..i + 1] == lines[..i] + [lines[i]];
      CountsConcat(lines[..i], [lines[i]]);
      CountsOne(lines[i]);
      if Added(lines[i]) {
        added := added + 1;
      } else if Removed(lines[i]) {
        removed := removed + 1;
      }
    }
    assert lines[..|lines|] == lines;
  }

  /** One line each, after what is already written. */
  method WriteLines(head: string, ls: seq<string>) returns (b: string)
    ensures b == head + Lined(ls)
  {
    b := head;
    for i := 0 to |ls|
      invariant b == head + Lined(ls[..i])
    {
      assert ls[..i + 1][..|ls[..i + 1]| - 1] == ls[..i];
      b := b + (ls[i] + "\n");
    }
    assert ls[..|ls|] == ls;
  }

  /** The lines of the text for a trimmed script: the counts, the first 120 lines, what is said of the others. */
  function Presented(added: nat, removed: nat, lines: seq<string>): seq<string> {
    if |lines| <= 120 then [FirstLine(added, removed)] + lines
    else [FirstLine(added, removed)] + lines[..120] + NoticeLines(|lines| - 120)
  }

  lemma PresentedIs(lines: seq<string>)
    ensures TextLines(Shown(lines)) == Presented(Additions(lines), Removals(lines), lines)
  {
    hide FirstLine, NoticeLines, Additions, Removals;
    if |lines| <= 120 {
      assert lines[..|lines|] == lines;
      NoticeOfNone();
    }
  }

  lemma NoticeOfNone()
    ensures NoticeLines(0) == []
  {
  }

  lemma RenderedLines(lines: seq<string>)
    requires forall i :: 0 <= i < |lines| ==> Printable(lines[i])
    ensures Split(Layout(Shown(lines))) == Presented(Additions(lines), Removals(lines), lines)
  {
    hide Split, Layout, TextLines, Presented, Additions, Removals;
    LayoutIsLines(Shown(lines));
    PresentedIs(lines);
  }

  method Render(lines: seq<string>) returns (text: string)
    ensures text == Layout(Shown(lines))
    ensures (forall i :: 0 <= i < |lines| ==> Printable(lines[i])) ==>
      Split(text) == Presented(Additions(lines), Removals(lines), lines)
  {
    hide Split, Presented, Printable, TrimNewlines, Additions, Removals;
    if forall i :: 0 <= i < |lines| ==> Printable(lines[i]) {
      RenderedLines(lines);
    }
    var added, removed := CountChanges(lines);
    var shown, cut := lines, 0;
    if |shown| > MAX_LINES {
      cut := |shown| - MAX_LINES;
      shown := shown[..MAX_LINES];
    }
    assert lines[..|lines|] == lines;
    var b := WriteLines(Headline(added, removed) + "\n", shown);
    assert b + "" == b;
    if cut > 0 {
      b := b + Notice(cut);
    }
    text := TrimNewlines(b);
  }
}
