/** One line of a server-sent-event stream: blanks trimmed off it, and the payload a `data:` line carries. */
module SseLines {
  import opened Wrappers

  predicate IsSpace(c: char) { c == ' ' || '\t' <= c <= '\r' }

  function TrimLeft(s: string): string {
    if s != [] && IsSpace(s[0]) then TrimLeft(s[1..]) else s
  }

  function TrimRight(s: string): string {
    if s != [] && IsSpace(s[|s| - 1]) then TrimRight(s[..|s| - 1]) else s
  }

  function Trim(s: string): string { TrimRight(TrimLeft(s)) }

  const DATA := "data:"

  // ---- what a line carries --------------------------------------------------------------------

  /** Space, tab, newline, vertical tab, form feed, carriage return. */
  predicate BlankChar(c: char) { c in {' ', '\t', '\n', 11 as char, 12 as char, '\r'} }

  predicate Blank(s: string) { forall i :: 0 <= i < |s| ==> BlankChar(s[i]) }

  /** Nothing to trim at either end. */
  predicate Solid(s: string) { s == "" || (!BlankChar(s[0]) && !BlankChar(s[|s| - 1])) }

  predicate Spelled(line: string, u: string, v: string, p: string, w: string) {
    Blank(u) && Blank(v) && Blank(w) && Solid(p) && line == u + ("data:" + (v + (p + w)))
  }

  /** The line is `data:` and this payload, with any blanks around and between. */
  ghost predicate Carries(line: string, p: string) { exists u, v, w :: Spelled(line, u, v, p, w) }

  /** The payload of a data line; no other line has one. */
  ghost function Payload(line: string): Option<string> {
    if p :| Carries(line, p) then Some(p) else None
  }

  // ---- trimming -------------------------------------------------------------------------------

  lemma {:induction false} TrimLeftIs(u: string, r: string)
    requires Blank(u) && (r == "" || !BlankChar(r[0]))
    ensures TrimLeft(u + r) == r
  {
    if u == "" {
      assert u + r == r;
    } else {
      assert (u + r)[1..] == u[1..] + r;
      assert BlankChar(u[0]);
      TrimLeftIs(u[1..], r);
    }
  }

  lemma {:induction false} TrimRightIs(r: string, w: string)
    requires Blank(w) && (r == "" || !BlankChar(r[|r| - 1]))
    ensures TrimRight(r + w) == r
  {
    if w == "" {
      assert r + w == r;
    } else {
      assert (r + w)[..|r + w| - 1] == r + w[..|w| - 1];
      assert BlankChar(w[|w| - 1]);
      TrimRightIs(r, w[..|w| - 1]);
    }
  }

  /** Trimming takes exactly the blanks at the ends. */
  lemma TrimIs(u: string, q: string, w: string)
    requires Blank(u) && Blank(w) && Solid(q)
    ensures Trim(u + (q + w)) == q
  {
    if q == "" {
      assert u + (q + w) == (u + w) + "";
      BlankConcat(u, w);
      TrimLeftIs(u + w, "");
    } else {
      TrimLeftIs(u, q + w);
      TrimRightIs(q, w);
    }
  }

  lemma BlankConcat(u: string, w: string)
    requires Blank(u) && Blank(w)
    ensures Blank(u + w)
  {
  }

  lemma {:induction false} TrimLeftSplits(s: string) returns (u: string)
    ensures Blank(u) && s == u + TrimLeft(s) && (TrimLeft(s) == "" || !BlankChar(TrimLeft(s)[0]))
  {
    u := "";
    if s != "" && IsSpace(s[0]) {
      var rest := TrimLeftSplits(s[1..]);
      u := [s[0]] + rest;
      assert s == [s[0]] + (rest + TrimLeft(s[1..]));
    }
  }

  lemma {:induction false} TrimRightSplits(s: string) returns (w: string)
    ensures Blank(w) && s == TrimRight(s) + w && TrimRight(s) <= s
    ensures TrimRight(s) == "" || !BlankChar(TrimRight(s)[|TrimRight(s)| - 1])
  {
    w := "";
    if s != "" && IsSpace(s[|s| - 1]) {
      var rest := TrimRightSplits(s[..|s| - 1]);
      w := rest + [s[|s| - 1]];
      assert s == (TrimRight(s[..|s| - 1]) + rest) + [s[|s| - 1]];
    }
  }

  lemma TrimSplits(s: string) returns (u: string, w: string)
    ensures Blank(u) && Blank(w) && Solid(Trim(s)) && s == u + (Trim(s) + w)
  {
    u := TrimLeftSplits(s);
    w := TrimRightSplits(TrimLeft(s));
    assert Trim(s) != "" ==> Trim(s)[0] == TrimLeft(s)[0];
  }

  // ---- what reading a line comes to -----------------------------------------------------------

  /** A data line, once trimmed, is the mark and a rest that trims to its payload. */
  lemma CarriedIsTrimmed(line: string, p: string)
    requires Carries(line, p)
    ensures DATA <= Trim(line) && Trim(Trim(line)[|DATA|..]) == p
  {
    var u, v, w :| Spelled(line, u, v, p, w);
    if p == "" {
      assert line == u + (DATA + (v + w)) && v + ("" + "") == v;
      BlankConcat(v, w);
      TrimIs(u, DATA, v + w);
      TrimIs("", "", "");
    } else {
      var q := DATA + (v + p);
      assert line == u + (q + w) && q[|q| - 1] == p[|p| - 1] && q[0] == DATA[0];
      TrimIs(u, q, w);
      assert q[|DATA|..] == v + (p + "");
      TrimIs(v, p, "");
    }
  }

  /** And every line that reads so carries it. */
  lemma TrimmedIsCarried(line: string)
    requires DATA <= Trim(line)
    ensures Carries(line, Trim(Trim(line)[|DATA|..]))
  {
    var u, w := TrimSplits(line);
    var t := Trim(line);
    var rest := t[|DATA|..];
    var p := Trim(rest);
    var v, x := TrimSplits(rest);
    assert t == DATA + rest;
    BlankConcat(x, w);
    assert line == u + (DATA + (v + (p + (x + w))));
    assert Spelled(line, u, v, p, x + w);
  }

  lemma PayloadIsTrimmed(line: string)
    ensures Payload(line) == if DATA <= Trim(line) then Some(Trim(Trim(line)[|DATA|..])) else None
  {
    if DATA <= Trim(line) {
      TrimmedIsCarried(line);
    }
    if p :| Carries(line, p) {
      CarriedIsTrimmed(line, Payload(line).value);
    }
  }

  /** A line has the payload it carries, and no other. */
  lemma PayloadIs(line: string, p: string)
    ensures Payload(line) == Some(p) <==> Carries(line, p)
  {
    if Carries(line, p) {
      CarriedIsTrimmed(line, p);
      PayloadIsTrimmed(line);
    }
  }
}
