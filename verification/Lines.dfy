/** A text as its lines. */
module Lines {

  /** Cutting at every newline; there is always at least one piece. */
  function Split(s: string): (ls: seq<string>)
    ensures ls != []
  {
    if s == "" then [""]
    else
      var rest := Split(s[1..]);
      if s[0] == '\n' then [""] + rest else [[s[0]] + rest[0]] + rest[1..]
  }

  function Unsplit(ls: seq<string>): string {
    if ls == [] then "" else if |ls| == 1 then ls[0] else ls[0] + "\n" + Unsplit(ls[1..])
  }

  predicate OneLine(s: string) { forall i :: 0 <= i < |s| ==> s[i] != '\n' }

  predicate EndsInNewline(s: string) { s != "" && s[|s| - 1] == '\n' }

  lemma {:induction false} UnsplitSplit(s: string)
    ensures Unsplit(Split(s)) == s
  {
    if s != "" {
      UnsplitSplit(s[1..]);
      var rest := Split(s[1..]);
      if s[0] == '\n' {
        assert ([""] + rest)[1..] == rest;
        assert "" + "\n" + Unsplit(rest) == s;
      } else {
        UnsplitPrepend(s[0], rest);
        assert [s[0]] + s[1..] == s;
      }
    }
  }

  lemma UnsplitPrepend(c: char, ls: seq<string>)
    requires ls != []
    ensures Unsplit([[c] + ls[0]] + ls[1..]) == [c] + Unsplit(ls)
  {
    var m := [[c] + ls[0]] + ls[1..];
    assert m[1..] == ls[1..];
    if |ls| > 1 {
      assert ([c] + ls[0]) + "\n" + Unsplit(ls[1..]) == [c] + (ls[0] + "\n" + Unsplit(ls[1..]));
    }
  }

  lemma {:induction false} SplitOneLine(s: string)
    ensures forall i :: 0 <= i < |Split(s)| ==> OneLine(Split(s)[i])
  {
    if s != "" {
      SplitOneLine(s[1..]);
    }
  }

  lemma {:induction false} SplitLine(l: string, rest: string)
    requires OneLine(l)
    ensures Split(l) == [l] && Split(l + "\n" + rest) == [l] + Split(rest)
  {
    if l == "" {
      assert l + "\n" + rest == "\n" + rest && ("\n" + rest)[1..] == rest;
    } else {
      SplitLine(l[1..], rest);
      assert (l + "\n" + rest)[1..] == l[1..] + "\n" + rest;
      assert [l[0]] + l[1..] == l;
      assert ([l[1..]] + Split(rest))[1..] == Split(rest);
    }
  }

  /** Lines put together are split where they were put together. */
  lemma {:induction false} SplitUnsplit(ls: seq<string>)
    requires ls != [] && forall i :: 0 <= i < |ls| ==> OneLine(ls[i])
    ensures Split(Unsplit(ls)) == ls
  {
    if |ls| == 1 {
      SplitLine(ls[0], "");
    } else {
      SplitUnsplit(ls[1..]);
      SplitLine(ls[0], Unsplit(ls[1..]));
    }
  }

  lemma {:induction false} UnsplitEnds(ls: seq<string>)
    requires ls != [] && OneLine(ls[|ls| - 1]) && ls[|ls| - 1] != ""
    ensures !EndsInNewline(Unsplit(ls)) && Unsplit(ls) != ""
  {
    if |ls| > 1 {
      UnsplitEnds(ls[1..]);
      var s, rest := Unsplit(ls), Unsplit(ls[1..]);
      assert s[|s| - 1] == rest[|rest| - 1];
    }
  }

  lemma {:induction false} UnsplitSnoc(ls: seq<string>, l: string)
    requires ls != []
    ensures Unsplit(ls + [l]) == Unsplit(ls) + ("\n" + l)
  {
    assert (ls + [l])[1..] == ls[1..] + [l];
    if |ls| == 1 {
      assert ls[1..] + [l] == [l];
      assert ls[0] + "\n" + l == ls[0] + ("\n" + l);
    } else {
      UnsplitSnoc(ls[1..], l);
      var rest := Unsplit(ls[1..]);
      assert ls[0] + "\n" + (rest + ("\n" + l)) == (ls[0] + "\n" + rest) + ("\n" + l);
    }
  }

  /** Cutting a text at its newlines: pieces without any, which put together again are the text, and only these. */
  lemma SplitIs(s: string, ls: seq<string>)
    ensures ls == Split(s) <==>
            ls != [] && (forall i :: 0 <= i < |ls| ==> OneLine(ls[i])) && Unsplit(ls) == s
  {
    SplitOneLine(s);
    UnsplitSplit(s);
    if ls != [] && forall i :: 0 <= i < |ls| ==> OneLine(ls[i]) {
      SplitUnsplit(ls);
    }
  }
}
