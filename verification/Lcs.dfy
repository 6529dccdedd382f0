/** Longest common subsequences of line lists: the definition, the table, and why the table is right. */
module Lcs {

  /** c is a subsequence of a: a with some lines dropped. */
  predicate Subsequence<T(==)>(c: seq<T>, a: seq<T>)
    decreases |a|
  {
    if c == [] then true
    else if a == [] then false
    else (c[0] == a[0] && Subsequence(c[1..], a[1..])) || Subsequence(c, a[1..])
  }

  function Max(a: nat, b: nat): nat { if a < b then b else a }

  /** What the table holds for the suffixes a and b. */
  function Length<T(==)>(a: seq<T>, b: seq<T>): nat
    decreases |a| + |b|
  {
    if a == [] || b == [] then 0
    else if a[0] == b[0] then 1 + Length(a[1..], b[1..])
    else Max(Length(a[1..], b), Length(a, b[1..]))
  }

  /** The walk through the table: match, else move where the table promises no less. */
  function Walk<T(==)>(a: seq<T>, b: seq<T>): seq<T>
    decreases |a| + |b|
  {
    if a == [] || b == [] then []
    else if a[0] == b[0] then [a[0]] + Walk(a[1..], b[1..])
    else if Length(a[1..], b) >= Length(a, b[1..]) then Walk(a[1..], b)
    else Walk(a, b[1..])
  }

  // ---- subsequences ---------------------------------------------------------------------------

  lemma {:induction false} SubsequenceTail<T>(c: seq<T>, a: seq<T>)
    requires c != [] && Subsequence(c, a)
    ensures Subsequence(c[1..], a)
    decreases |a|
  {
    if a != [] {
      if c[0] == a[0] && Subsequence(c[1..], a[1..]) {
        SubsequenceSkip(c[1..], a);
      } else {
        SubsequenceTail(c, a[1..]);
        SubsequenceSkip(c[1..], a);
      }
    }
  }

  lemma SubsequenceSkip<T>(c: seq<T>, a: seq<T>)
    requires a != [] && Subsequence(c, a[1..])
    ensures Subsequence(c, a)
  {
  }

  /** Matching the first line greedily loses nothing. */
  lemma SubsequenceGreedy<T>(c: seq<T>, a: seq<T>)
    requires c != [] && a != [] && Subsequence(c, a)
    ensures if c[0] == a[0] then Subsequence(c[1..], a[1..]) else Subsequence(c, a[1..])
  {
    if c[0] == a[0] && !Subsequence(c[1..], a[1..]) {
      SubsequenceTail(c, a[1..]);
    }
  }

  lemma {:induction false} SubsequenceLength<T>(c: seq<T>, a: seq<T>)
    requires Subsequence(c, a)
    ensures |c| <= |a|
    decreases |a|
  {
    if c != [] {
      if c[0] == a[0] && Subsequence(c[1..], a[1..]) {
        SubsequenceLength(c[1..], a[1..]);
      } else {
        SubsequenceLength(c, a[1..]);
      }
    }
  }

  // ---- the table bounds every common subsequence ----------------------------------------------

  /** No common subsequence is longer than the table says. */
  lemma {:induction false} CommonIsBounded<T>(c: seq<T>, a: seq<T>, b: seq<T>)
    requires Subsequence(c, a) && Subsequence(c, b)
    ensures |c| <= Length(a, b)
    decreases |a| + |b|
  {
    if c != [] {
      SubsequenceGreedy(c, a);
      SubsequenceGreedy(c, b);
      if a[0] == b[0] {
        if c[0] == a[0] {
          CommonIsBounded(c[1..], a[1..], b[1..]);
        } else {
          CommonIsBounded(c, a[1..], b[1..]);
        }
      } else if c[0] != a[0] {
        CommonIsBounded(c, a[1..], b);
      } else {
        CommonIsBounded(c, a, b[1..]);
      }
    }
  }

  /** The walk finds a common subsequence of exactly that length. */
  lemma {:induction false} WalkIsCommon<T>(a: seq<T>, b: seq<T>)
    ensures var c := Walk(a, b); Subsequence(c, a) && Subsequence(c, b) && |c| == Length(a, b)
    decreases |a| + |b|
  {
    if a != [] && b != [] {
      if a[0] == b[0] {
        WalkIsCommon(a[1..], b[1..]);
        assert Walk(a, b)[1..] == Walk(a[1..], b[1..]);
      } else if Length(a[1..], b) >= Length(a, b[1..]) {
        WalkIsCommon(a[1..], b);
        SubsequenceSkip(Walk(a[1..], b), a);
      } else {
        WalkIsCommon(a, b[1..]);
        SubsequenceSkip(Walk(a, b[1..]), b);
      }
    }
  }

  /** What the method's result is: common to both, and as long as any common subsequence. */
  lemma WalkIsLongest<T>(a: seq<T>, b: seq<T>, c: seq<T>)
    ensures Subsequence(Walk(a, b), a) && Subsequence(Walk(a, b), b)
    ensures Subsequence(c, a) && Subsequence(c, b) ==> |c| <= |Walk(a, b)|
  {
    WalkIsCommon(a, b);
    if Subsequence(c, a) && Subsequence(c, b) {
      CommonIsBounded(c, a, b);
    }
  }

  lemma NoneIsLonger<T(!new)>(a: seq<T>, b: seq<T>)
    ensures Subsequence(Walk(a, b), a) && Subsequence(Walk(a, b), b)
    ensures forall c: seq<T> :: Subsequence(c, a) && Subsequence(c, b) ==> |c| <= |Walk(a, b)|
  {
    forall c: seq<T>
      ensures Subsequence(c, a) && Subsequence(c, b) ==> |c| <= |Walk(a, b)|
    {
      WalkIsLongest(a, b, c);
    }
    WalkIsCommon(a, b);
  }

  // ---- the algorithm --------------------------------------------------------------------------

  function Cell<T(==)>(a: seq<T>, b: seq<T>, i: nat, j: nat): nat
    requires i <= |a| && j <= |b|
  {
    Length(a[i..], b[j..])
  }

  /** How a cell follows from its neighbours below and to the right. */
  lemma CellStep<T>(a: seq<T>, b: seq<T>, i: nat, j: nat)
    requires i < |a| && j < |b|
    ensures Cell(a, b, i, j) ==
            if a[i] == b[j] then 1 + Cell(a, b, i + 1, j + 1) else Max(Cell(a, b, i + 1, j), Cell(a, b, i, j + 1))
  {
    assert a[i..][1..] == a[i + 1..] && b[j..][1..] == b[j + 1..];
  }

  lemma CellEdge<T>(a: seq<T>, b: seq<T>, i: nat, j: nat)
    requires i <= |a| && j <= |b| && (i == |a| || j == |b|)
    ensures Cell(a, b, i, j) == 0
  {
  }

  method FillTable<T(==)>(a: seq<T>, b: seq<T>) returns (table: array2<int>)
    ensures fresh(table) && table.Length0 == |a| + 1 && table.Length1 == |b| + 1
    ensures forall i, j :: 0 <= i <= |a| && 0 <= j <= |b| ==> table[i, j] == Cell(a, b, i, j)
  {
    table := new int[|a| + 1, |b| + 1]((i, j) => 0);
    forall j | 0 <= j <= |b|
      ensures table[|a|, j] == Cell(a, b, |a|, j)
    {
      CellEdge(a, b, |a|, j);
    }
    for i := |a| downto 0
      invariant forall k, j :: i <= k <= |a| && 0 <= j <= |b| ==> table[k, j] == Cell(a, b, k, j)
      invariant forall k :: 0 <= k < i ==> table[k, |b|] == 0
    {
      CellEdge(a, b, i, |b|);
      for j := |b| downto 0
        invariant forall k, m :: i < k <= |a| && 0 <= m <= |b| ==> table[k, m] == Cell(a, b, k, m)
        invariant forall m :: j <= m <= |b| ==> table[i, m] == Cell(a, b, i, m)
        invariant forall k :: 0 <= k < i ==> table[k, |b|] == 0
      {
        CellStep(a, b, i, j);
        if a[i] == b[j] {
          table[i, j] := table[i + 1, j + 1] + 1;
        } else {
          table[i, j] := if table[i + 1, j] < table[i, j + 1] then table[i, j + 1] else table[i + 1, j];
        }
      }
    }
  }

  /** The longest common subsequence of two line lists: no common subsequence is longer. */
  method Lcs<T(==,!new)>(a: seq<T>, b: seq<T>) returns (out: seq<T>)
    ensures out == Walk(a, b)
    ensures Subsequence(out, a) && Subsequence(out, b)
    ensures forall c: seq<T> :: Subsequence(c, a) && Subsequence(c, b) ==> |c| <= |out|
  {
    if |a| == 0 || |b| == 0 {
      NoneIsLonger(a, b);
      return [];
    }
    var table := FillTable(a, b);
    out := [];
    var i, j := 0, 0;
    while i < |a| && j < |b|
      invariant 0 <= i <= |a| && 0 <= j <= |b|
      invariant out + Walk(a[i..], b[j..]) == Walk(a, b)
      decreases |a| - i + |b| - j
    {
      assert a[i..][1..] == a[i + 1..] && b[j..][1..] == b[j + 1..];
      assert table[i + 1, j] == Cell(a, b, i + 1, j) && table[i, j + 1] == Cell(a, b, i, j + 1);
      if a[i] == b[j] {
        assert (out + [a[i]]) + Walk(a[i + 1..], b[j + 1..]) == out + ([a[i]] + Walk(a[i + 1..], b[j + 1..]));
        out := out + [a[i]];
        i, j := i + 1, j + 1;
      } else if table[i + 1, j] >= table[i, j + 1] {
        i := i + 1;
      } else {
        j := j + 1;
      }
    }
    assert out + [] == out;
    NoneIsLonger(a, b);
  }

}
