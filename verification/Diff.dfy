/** The approval diff: the edit script, the context trimmer and the counts the operator is shown. */
module Diff {
  import opened Lcs

  const CONTEXT := 3
  const MAX_LINES := 120
  const GAP := "  …"

  /** The line starts with this character and a space. */
  predicate HasMark(l: string, mark: char) { |l| >= 2 && l[0] == mark && l[1] == ' ' }

  predicate Removed(l: string) { HasMark(l, '-') }
  predicate Added(l: string) { HasMark(l, '+') }
  predicate Context(l: string) { HasMark(l, ' ') }
  predicate Changed(l: string) { !Context(l) }

  // ---- edit scripts ---------------------------------------------------------------------------

  /** Every line is a removal, an addition or context. */
  predicate IsScript(s: seq<string>) {
    forall i :: 0 <= i < |s| ==> Removed(s[i]) || Added(s[i]) || Context(s[i])
  }

  datatype Side = Old | New | Kept

  /** Which lines a side consists of: what was there, what is there, what is in both. */
  predicate On(side: Side, l: string) {
    match side
    case Old => Removed(l) || Context(l)
    case New => Added(l) || Context(l)
    case Kept => Context(l)
  }

  /** One side of a script, its marks taken off. */
  function Read(side: Side, s: seq<string>): seq<string> {
    if s == [] then [] else (if On(side, s[0]) then [s[0][2..]] else []) + Read(side, s[1..])
  }

  function Removals(s: seq<string>): nat {
    if s == [] then 0 else (if Removed(s[0]) then 1 else 0) + Removals(s[1..])
  }

  function Additions(s: seq<string>): nat {
    if s == [] then 0 else (if Added(s[0]) then 1 else 0) + Additions(s[1..])
  }

  /** The kept lines of any script are a common subsequence, and the rest of each side is its changes. */
  lemma {:induction false} ScriptKeepsCommon(s: seq<string>)
    requires IsScript(s)
    ensures Subsequence(Read(Kept, s), Read(Old, s)) && Subsequence(Read(Kept, s), Read(New, s))
    ensures |Read(Old, s)| == Removals(s) + |Read(Kept, s)| && |Read(New, s)| == Additions(s) + |Read(Kept, s)|
  {
    if s != [] {
      ScriptKeepsCommon(s[1..]);
      ReadHead(Old, s);
      ReadHead(New, s);
      ReadHead(Kept, s);
      if Removed(s[0]) {
        SubsequenceSkip(Read(Kept, s), Read(Old, s));
      } else if Added(s[0]) {
        SubsequenceSkip(Read(Kept, s), Read(New, s));
      }
    }
  }

  lemma ReadHead(side: Side, s: seq<string>)
    requires s != []
    ensures if On(side, s[0])
            then Read(side, s) != [] && Read(side, s)[0] == s[0][2..] && Read(side, s)[1..] == Read(side, s[1..])
            else Read(side, s) == Read(side, s[1..])
  {
  }

  function Marked(mark: string, ls: seq<string>): seq<string> {
    if ls == [] then [] else [mark + ls[0]] + Marked(mark, ls[1..])
  }

  /** The script along a common subsequence: before each common line, first removals, then additions. */
  function Script(a: seq<string>, b: seq<string>, common: seq<string>): seq<string>
    requires Subsequence(common, a) && Subsequence(common, b)
    decreases |a| + |b|
  {
    if common == [] then Marked("- ", a) + Marked("+ ", b)
    else if a[0] != common[0] then ["- " + a[0]] + Script(a[1..], b, common)
    else if b[0] != common[0] then ["+ " + b[0]] + Script(a, b[1..], common)
    else
      SubsequenceGreedy(common, a);
      SubsequenceGreedy(common, b);
      ["  " + common[0]] + Script(a[1..], b[1..], common[1..])
  }

  lemma {:induction false} MarkedSides(mark: char, ls: seq<string>)
    requires mark == '-' || mark == '+'
    ensures var s := Marked([mark, ' '], ls);
      && IsScript(s) && Read(Kept, s) == []
      && Read(Old, s) == (if mark == '-' then ls else []) && Read(New, s) == if mark == '+' then ls else []
  {
    if ls != [] {
      MarkedSides(mark, ls[1..]);
      var s := Marked([mark, ' '], ls);
      assert s == [[mark, ' '] + ls[0]] + Marked([mark, ' '], ls[1..]);
      hide Read, Marked;
      ReadCons(Old, mark, ls[0], Marked([mark, ' '], ls[1..]));
      ReadCons(New, mark, ls[0], Marked([mark, ' '], ls[1..]));
      ReadCons(Kept, mark, ls[0], Marked([mark, ' '], ls[1..]));
    }
  }

  /** One marked line in front of a script. */
  lemma ReadCons(side: Side, mark: char, l: string, s: seq<string>)
    ensures Read(side, [[mark, ' '] + l] + s) ==
            (if mark == ' ' || (mark == '-' && side.Old?) || (mark == '+' && side.New?) then [l] else []) +
              Read(side, s)
  {
    var m := [mark, ' '] + l;
    assert ([m] + s)[1..] == s && m[2..] == l;
  }

  lemma {:induction false} ReadConcat(side: Side, s: seq<string>, t: seq<string>)
    ensures Read(side, s + t) == Read(side, s) + Read(side, t)
  {
    if s == [] {
      assert s + t == t;
    } else {
      assert (s + t)[1..] == s[1..] + t;
      ReadConcat(side, s[1..], t);
      ReadHead(side, s);
    }
  }

  /** With no common line left, all that remains is removed and then added. */
  lemma LeftoversReadBack(a: seq<string>, b: seq<string>)
    ensures var s := Marked("- ", a) + Marked("+ ", b);
      IsScript(s) && Read(Old, s) == a && Read(New, s) == b && Read(Kept, s) == []
  {
    MarkedSides('-', a);
    MarkedSides('+', b);
    ReadConcat(Old, Marked("- ", a), Marked("+ ", b));
    ReadConcat(New, Marked("- ", a), Marked("+ ", b));
    ReadConcat(Kept, Marked("- ", a), Marked("+ ", b));
  }

  /** Both texts can be read back off the script, and it keeps exactly the common lines. */
  lemma {:induction false} ScriptReadsBack(a: seq<string>, b: seq<string>, common: seq<string>)
    requires Subsequence(common, a) && Subsequence(common, b)
    ensures var s := Script(a, b, common);
      IsScript(s) && Read(Old, s) == a && Read(New, s) == b && Read(Kept, s) == common
    decreases |a| + |b|
  {
    if common == [] {
      LeftoversReadBack(a, b);
    } else if a[0] != common[0] {
      ScriptReadsBack(a[1..], b, common);
      LineReadsBack('-', a[0], Script(a[1..], b, common));
    } else if b[0] != common[0] {
      ScriptReadsBack(a, b[1..], common);
      LineReadsBack('+', b[0], Script(a, b[1..], common));
    } else {
      SubsequenceGreedy(common, a);
      SubsequenceGreedy(common, b);
      ScriptReadsBack(a[1..], b[1..], common[1..]);
      LineReadsBack(' ', common[0], Script(a[1..], b[1..], common[1..]));
    }
  }

  lemma LineReadsBack(mark: char, l: string, s: seq<string>)
    requires (mark == '-' || mark == '+' || mark == ' ') && IsScript(s)
    ensures var t := [[mark, ' '] + l] + s;
      && IsScript(t)
      && Read(Old, t) == (if mark == '+' then [] else [l]) + Read(Old, s)
      && Read(New, t) == (if mark == '-' then [] else [l]) + Read(New, s)
      && Read(Kept, t) == (if mark == ' ' then [l] else []) + Read(Kept, s)
  {
    ReadCons(Old, mark, l, s);
    ReadCons(New, mark, l, s);
    ReadCons(Kept, mark, l, s);
  }

  /** The script the diff builds, along the longest common subsequence. */
  function BestScript(a: seq<string>, b: seq<string>): seq<string> {
    WalkIsCommon(a, b);
    Script(a, b, Walk(a, b))
  }

  /** The lines with this mark or two spaces in front, and without it. */
  function Unmarked(mark: string, s: seq<string>): seq<string> {
    if s == [] then []
    else
      (if mark <= s[0] then [s[0][|mark|..]] else if "  " <= s[0] then [s[0][2..]] else []) + Unmarked(mark, s[1..])
  }

  lemma {:induction false} SidesAreUnmarked(s: seq<string>)
    ensures Read(Old, s) == Unmarked("- ", s) && Read(New, s) == Unmarked("+ ", s)
  {
    if s != [] {
      SidesAreUnmarked(s[1..]);
      PrefixIsMark(s[0]);
    }
  }

  lemma PrefixIsMark(l: string)
    ensures "- " <= l <==> Removed(l)
    ensures "+ " <= l <==> Added(l)
    ensures "  " <= l <==> Context(l)
  {
  }

  /**
   * The script turns the old lines into the new ones, its counts are what the longest common
   * subsequence leaves over on each side, and no script between the same texts changes fewer lines.
   */
  lemma BestScriptIsMinimal(a: seq<string>, b: seq<string>, rival: seq<string>)
    requires IsScript(rival) && Unmarked("- ", rival) == a && Unmarked("+ ", rival) == b
    ensures var s := BestScript(a, b);
      && IsScript(s) && Unmarked("- ", s) == a && Unmarked("+ ", s) == b
      && Removals(s) == |a| - |Walk(a, b)| && Additions(s) == |b| - |Walk(a, b)|
      && Removals(s) <= Removals(rival) && Additions(s) <= Additions(rival)
  {
    WalkIsCommon(a, b);
    ScriptReadsBack(a, b, Walk(a, b));
    SidesAreUnmarked(BestScript(a, b));
    SidesAreUnmarked(rival);
    ScriptKeepsCommon(BestScript(a, b));
    ScriptKeepsCommon(rival);
    CommonIsBounded(Read(Kept, rival), a, b);
  }

  // ---- trimming context -----------------------------------------------------------------------

  /** Line i is within three lines of a change. */
  predicate Near(ls: seq<string>, i: int) {
    exists j :: 0 <= j < |ls| && i - CONTEXT <= j <= i + CONTEXT && Changed(ls[j])
  }

  /** What line i contributes: itself when near a change, after a gap marker when the line before is dropped. */
  function Piece(ls: seq<string>, i: nat): seq<string>
    requires i < |ls|
  {
    if !Near(ls, i) then []
    else if i > 0 && !Near(ls, i - 1) then [GAP, ls[i]]
    else [ls[i]]
  }

  function Trimmed(ls: seq<string>, n: nat): seq<string>
    requires n <= |ls|
  {
    if n == 0 then [] else Trimmed(ls, n - 1) + Piece(ls, n - 1)
  }

  function OnlyChanges(ls: seq<string>): seq<string> {
    if ls == [] then []
    else OnlyChanges(ls[..|ls| - 1]) + if Changed(ls[|ls| - 1]) then [ls[|ls| - 1]] else []
  }

  lemma {:induction false} OnlyChangesConcat(s: seq<string>, t: seq<string>)
    ensures OnlyChanges(s + t) == OnlyChanges(s) + OnlyChanges(t)
  {
    if t == [] {
      assert s + t == s;
    } else {
      assert (s + t)[..|s + t| - 1] == s + t[..|t| - 1];
      OnlyChangesConcat(s, t[..|t| - 1]);
    }
  }

  lemma PieceChanges(ls: seq<string>, i: nat)
    requires i < |ls|
    ensures OnlyChanges(Piece(ls, i)) == if Changed(ls[i]) then [ls[i]] else []
  {
    assert GAP[0] == ' ' && GAP[1] == ' ';
    OneChange(GAP);
    OneChange(ls[i]);
    OnlyChangesConcat([GAP], [ls[i]]);
    assert [GAP] + [ls[i]] == [GAP, ls[i]];
    if Changed(ls[i]) {
      assert Near(ls, i);
    }
  }

  lemma OneChange(l: string)
    ensures OnlyChanges([l]) == if Changed(l) then [l] else []
  {
    assert [l][..0] == [];
  }

  /** No change is ever dropped, added or moved by trimming. */
  lemma {:induction false} TrimmingKeepsChanges(ls: seq<string>, n: nat)
    requires n <= |ls|
    ensures OnlyChanges(Trimmed(ls, n)) == OnlyChanges(ls[..n])
  {
    if n == 0 {
      assert ls[..0] == [];
    } else {
      TrimmingKeepsChanges(ls, n - 1);
      OnlyChangesConcat(Trimmed(ls, n - 1), Piece(ls, n - 1));
      PieceChanges(ls, n - 1);
      assert ls[..n][..n - 1] == ls[..n - 1];
    }
  }

  /** Which line each shown line is, -1 for a gap marker. */
  function Tags(ls: seq<string>, n: nat): seq<int>
    requires n <= |ls|
  {
    if n == 0 then []
    else if !Near(ls, n - 1) then Tags(ls, n - 1)
    else Tags(ls, n - 1) + (if AfterDrop(ls, n - 1) then [-1] else []) + [n - 1]
  }

  /** The tags name the lines below n that are near a change, each once and in order. */
  predicate NamesNear(ls: seq<string>, tags: seq<int>, n: nat)
    requires n <= |ls|
  {
    && (forall i :: 0 <= i < n ==> (i in tags <==> Near(ls, i)))
    && (forall p :: 0 <= p < |tags| ==> -1 <= tags[p] < n)
    && (forall p, q :: 0 <= p < q < |tags| && tags[p] >= 0 && tags[q] >= 0 ==> tags[p] < tags[q])
  }

  /** A gap marker stands exactly in front of each kept line whose predecessor was dropped. */
  predicate GapsMarkDrops(ls: seq<string>, tags: seq<int>) {
    forall p :: 0 <= p < |tags| ==> GapMarksDrop(ls, tags, p)
  }

  predicate GapMarksDrop(ls: seq<string>, tags: seq<int>, p: nat)
    requires p < |tags|
  {
    if tags[p] == -1 then p + 1 < |tags| && AfterDrop(ls, tags[p + 1])
    else (p > 0 && tags[p - 1] == -1) == AfterDrop(ls, tags[p])
  }

  /** The line before this one is dropped. */
  predicate AfterDrop(ls: seq<string>, i: int) { i > 0 && !Near(ls, i - 1) }

  lemma GapsExtend(ls: seq<string>, tags: seq<int>, i: nat)
    requires GapsMarkDrops(ls, tags) && (tags != [] ==> tags[|tags| - 1] != -1)
    ensures GapsMarkDrops(ls, tags + (if AfterDrop(ls, i) then [-1] else []) + [i])
  {
    var more := tags + (if AfterDrop(ls, i) then [-1] else []) + [i];
    forall p | 0 <= p < |more|
      ensures GapMarksDrop(ls, more, p)
    {
      if p < |tags| {
        assert GapMarksDrop(ls, tags, p);
      }
    }
  }

  lemma NamesExtend(ls: seq<string>, tags: seq<int>, i: nat)
    requires i < |ls| && NamesNear(ls, tags, i) && Near(ls, i)
    ensures NamesNear(ls, tags + (if AfterDrop(ls, i) then [-1] else []) + [i], i + 1)
  {
    var more := tags + (if AfterDrop(ls, i) then [-1] else []) + [i];
    assert more[|more| - 1] == i;
    forall k | 0 <= k < i
      ensures k in more <==> k in tags
    {
    }
  }

  lemma NamesSkip(ls: seq<string>, tags: seq<int>, i: nat)
    requires i < |ls| && NamesNear(ls, tags, i) && !Near(ls, i)
    ensures NamesNear(ls, tags, i + 1)
  {
    assert i !in tags;
  }

  lemma {:induction false} TagsNameNear(ls: seq<string>, n: nat)
    requires n <= |ls|
    ensures NamesNear(ls, Tags(ls, n), n)
  {
    if n > 0 {
      hide NamesNear, Near;
      TagsNameNear(ls, n - 1);
      if Near(ls, n - 1) {
        NamesExtend(ls, Tags(ls, n - 1), n - 1);
      } else {
        NamesSkip(ls, Tags(ls, n - 1), n - 1);
      }
    }
  }

  lemma {:induction false} TagsMarkDrops(ls: seq<string>, n: nat)
    requires n <= |ls|
    ensures GapsMarkDrops(ls, Tags(ls, n)) && (Tags(ls, n) != [] ==> Tags(ls, n)[|Tags(ls, n)| - 1] != -1)
  {
    if n > 0 {
      TagsMarkDrops(ls, n - 1);
      GapsExtend(ls, Tags(ls, n - 1), n - 1);
    }
  }

  lemma {:induction false} TagsShow(ls: seq<string>, n: nat)
    requires n <= |ls|
    ensures |Tags(ls, n)| == |Trimmed(ls, n)|
    ensures forall p :: 0 <= p < |Tags(ls, n)| ==>
      var t := Tags(ls, n)[p]; -1 <= t < |ls| && Trimmed(ls, n)[p] == if t == -1 then GAP else ls[t]
  {
    if n > 0 {
      TagsShow(ls, n - 1);
    }
  }

  /** Within three lines, before or after, stands one that does not begin with two spaces. */
  predicate WithinThree(ls: seq<string>, i: int) {
    exists j :: 0 <= j < |ls| && -3 <= j - i <= 3 && !("  " <= ls[j])
  }

  lemma NearIsWithinThree(ls: seq<string>)
    ensures forall i :: Near(ls, i) <==> WithinThree(ls, i)
  {
    forall j | 0 <= j < |ls|
      ensures Changed(ls[j]) <==> !("  " <= ls[j])
    {
    }
  }

  /**
   * What trimming shows: exactly the lines within three of a change, in order, with one marker in
   * front of each kept line that follows a dropped one, and none anywhere else, the end included.
   */
  lemma TrimmingLayout(ls: seq<string>)
    ensures var tags := Tags(ls, |ls|); var out := Trimmed(ls, |ls|);
      && NamesNear(ls, tags, |ls|) && GapsMarkDrops(ls, tags)
      && (forall i :: Near(ls, i) <==> WithinThree(ls, i))
      && (tags != [] ==> tags[|tags| - 1] != -1)
      && |out| == |tags|
      && forall p :: 0 <= p < |tags| ==> out[p] == if tags[p] == -1 then GAP else ls[tags[p]]
  {
    NearIsWithinThree(ls);
    TagsNameNear(ls, |ls|);
    TagsMarkDrops(ls, |ls|);
    TagsShow(ls, |ls|);
  }

  // ---- how long the trimmed script can be -----------------------------------------------------

  function ChangedAt(ls: seq<string>, i: int): nat {
    if 0 <= i < |ls| && Changed(ls[i]) then 1 else 0
  }

  /** Changes among the lines before index n. */
  function ChangesBefore(ls: seq<string>, n: int): nat
    decreases if n < 0 then 0 else n
  {
    if n <= 0 then 0 else ChangesBefore(ls, n - 1) + ChangedAt(ls, n - 1)
  }

  function Changes(ls: seq<string>): nat { ChangesBefore(ls, |ls|) }

  lemma {:induction false} ChangesMonotone(ls: seq<string>, m: int, n: int)
    requires m <= n
    ensures ChangesBefore(ls, m) <= ChangesBefore(ls, n)
    decreases n - m
  {
    if m < n {
      ChangesMonotone(ls, m, n - 1);
    }
  }

  lemma {:induction false} ChangesPastEnd(ls: seq<string>, n: nat)
    requires |ls| <= n
    ensures ChangesBefore(ls, n) == Changes(ls)
  {
    if |ls| < n {
      ChangesPastEnd(ls, n - 1);
    }
  }

  /** Seven times over, the changes seen through each of the seven offsets. */
  function Window(ls: seq<string>, n: int): nat {
    ChangesBefore(ls, n - 3) + ChangesBefore(ls, n - 2) + ChangesBefore(ls, n - 1) + ChangesBefore(ls, n)
    + ChangesBefore(ls, n + 1) + ChangesBefore(ls, n + 2) + ChangesBefore(ls, n + 3)
  }

  /** A gap marker in front of line i announces a change exactly three lines on. */
  lemma GapAnnouncesChange(ls: seq<string>, i: nat)
    requires i < |ls| && i > 0 && Near(ls, i) && !Near(ls, i - 1)
    ensures ChangedAt(ls, i + 3) == 1
  {
    var j :| 0 <= j < |ls| && i - CONTEXT <= j <= i + CONTEXT && Changed(ls[j]);
    if j < i + 3 {
      assert i - 1 - CONTEXT <= j <= i - 1 + CONTEXT;
      assert Near(ls, i - 1);
    }
  }

  /** Changes within three lines of i. */
  function Around(ls: seq<string>, i: int): nat {
    ChangedAt(ls, i - 3) + ChangedAt(ls, i - 2) + ChangedAt(ls, i - 1) + ChangedAt(ls, i)
    + ChangedAt(ls, i + 1) + ChangedAt(ls, i + 2) + ChangedAt(ls, i + 3)
  }

  lemma NearIsSeen(ls: seq<string>, i: nat)
    requires i < |ls| && Near(ls, i)
    ensures 1 <= Around(ls, i)
  {
    var j :| 0 <= j < |ls| && i - CONTEXT <= j <= i + CONTEXT && Changed(ls[j]);
    assert ChangedAt(ls, j) == 1;
  }

  lemma WindowStep(ls: seq<string>, n: nat)
    ensures Window(ls, n + 1) == Window(ls, n) + Around(ls, n)
  {
    BeforeStep(ls, n - 3);
    BeforeStep(ls, n - 2);
    BeforeStep(ls, n - 1);
    BeforeStep(ls, n);
    BeforeStep(ls, n + 1);
    BeforeStep(ls, n + 2);
    BeforeStep(ls, n + 3);
  }

  lemma BeforeStep(ls: seq<string>, n: int)
    ensures ChangesBefore(ls, n + 1) == ChangesBefore(ls, n) + ChangedAt(ls, n)
  {
  }

  lemma PieceBound(ls: seq<string>, i: nat)
    requires i < |ls|
    ensures |Piece(ls, i)| <= Around(ls, i) + ChangedAt(ls, i + 3)
  {
    if Near(ls, i) {
      NearIsSeen(ls, i);
      if i > 0 && !Near(ls, i - 1) {
        GapAnnouncesChange(ls, i);
      }
    }
  }

  /** What the pieces before index n can amount to. */
  function Bound(ls: seq<string>, n: nat): nat {
    if n == 0 then 0 else Bound(ls, n - 1) + (Around(ls, n - 1) + ChangedAt(ls, n + 2))
  }

  lemma {:induction false} TrimmedBound(ls: seq<string>, n: nat)
    requires n <= |ls|
    ensures |Trimmed(ls, n)| <= Bound(ls, n)
  {
    if n > 0 {
      TrimmedBound(ls, n - 1);
      PieceBound(ls, n - 1);
    }
  }

  /** Seven windows and the announced changes, as one running total. */
  function Ceiling(ls: seq<string>, n: nat): nat { Window(ls, n) + ChangesBefore(ls, n + 3) }

  lemma CeilingStep(ls: seq<string>, n: nat)
    ensures Ceiling(ls, n + 1) == Ceiling(ls, n) + (Around(ls, n) + ChangedAt(ls, n + 3))
  {
    WindowStep(ls, n);
    BeforeStep(ls, n + 3);
  }

  lemma {:induction false} BoundIsWindow(ls: seq<string>, n: nat)
    ensures Bound(ls, n) <= Ceiling(ls, n)
  {
    if n > 0 {
      BoundIsWindow(ls, n - 1);
      CeilingStep(ls, n - 1);
    }
  }

  /** What is shown is at most eight lines for each change. */
  lemma TrimmedIsShort(ls: seq<string>)
    ensures |Trimmed(ls, |ls|)| <= 8 * Changes(ls)
  {
    TrimmedBound(ls, |ls|);
    BoundIsWindow(ls, |ls|);
    ChangesMonotone(ls, |ls| - 3, |ls|);
    ChangesMonotone(ls, |ls| - 2, |ls|);
    ChangesMonotone(ls, |ls| - 1, |ls|);
    ChangesPastEnd(ls, |ls| + 1);
    ChangesPastEnd(ls, |ls| + 2);
    ChangesPastEnd(ls, |ls| + 3);
  }
}
