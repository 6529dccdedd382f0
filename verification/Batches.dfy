/**
 * Limited runs one after another. Attempts are numbered over all runs, so a migration that failed may
 * succeed when a later run tries it again.
 */
module Batches {
  import opened Wrappers
  import opened Migration

  // ---- what attempts alone decide -------------------------------------------------------------

  /** Where j attempts lead, starting at position d with attempt n: each is at the position reached. */
  function Settled(db: Database, vs: seq<Version>, d: nat, n: nat, j: nat): (p: nat)
    requires d <= |vs|
    ensures d <= p <= |vs|
  {
    if j == 0 then d
    else
      var p := Settled(db, vs, d, n, j - 1);
      if p < |vs| && Good(db, n + j - 1, vs[p]) then p + 1 else p
  }

  /** Which migrations they carry out, in order. */
  function Log(db: Database, vs: seq<Version>, d: nat, n: nat, j: nat): seq<Version>
    requires d <= |vs|
  {
    if j == 0 then []
    else
      var p := Settled(db, vs, d, n, j - 1);
      Log(db, vs, d, n, j - 1) + if p < |vs| && db.up(n + j - 1, vs[p]) then [vs[p]] else []
  }

  lemma {:induction false} SettledGrows(db: Database, vs: seq<Version>, d: nat, n: nat, i: nat, j: nat)
    requires d <= |vs| && i <= j
    ensures Settled(db, vs, d, n, i) <= Settled(db, vs, d, n, j) && Log(db, vs, d, n, i) <= Log(db, vs, d, n, j)
    decreases j
  {
    if i < j {
      SettledGrows(db, vs, d, n, i, j - 1);
    }
  }

  /** Attempts after the first a go on from where those led. */
  lemma {:induction false} SettledSplits(db: Database, vs: seq<Version>, d: nat, n: nat, a: nat, b: nat)
    requires d <= |vs|
    ensures var p := Settled(db, vs, d, n, a);
      && Settled(db, vs, d, n, a + b) == Settled(db, vs, p, n + a, b)
      && Log(db, vs, d, n, a + b) == Log(db, vs, d, n, a) + Log(db, vs, p, n + a, b)
    decreases b
  {
    var p := Settled(db, vs, d, n, a);
    if b == 0 {
      assert Log(db, vs, d, n, a) + [] == Log(db, vs, d, n, a);
    } else {
      SettledSplits(db, vs, d, n, a, b - 1);
      assert n + (a + b) - 1 == (n + a) + b - 1;
    }
  }

  /** How many attempts one run makes from position d on: until its limit, the end, or a failure. */
  function Made(db: Database, vs: seq<Version>, d: nat, n: nat, limit: int): nat
    requires d <= |vs|
    decreases |vs| - d
  {
    if limit <= 0 || d == |vs| then 0
    else if !Good(db, n, vs[d]) then 1
    else 1 + Made(db, vs, d + 1, n + 1, limit - 1)
  }

  /** One attempt, then the rest. */
  lemma OneThenRest(db: Database, vs: seq<Version>, d: nat, n: nat, j: nat)
    requires d < |vs|
    ensures var p := if Good(db, n, vs[d]) then d + 1 else d;
      && Settled(db, vs, d, n, 1 + j) == Settled(db, vs, p, n + 1, j)
      && Log(db, vs, d, n, 1 + j) == (if db.up(n, vs[d]) then [vs[d]] else []) + Log(db, vs, p, n + 1, j)
  {
    SettledSplits(db, vs, d, n, 1, j);
    assert Settled(db, vs, d, n, 0) == d && [] + [vs[d]] == [vs[d]];
  }

  /** What a run over what is left of a list amounts to, one version later. */
  lemma CarriedStep(db: Database, ws: seq<Version>, n: nat, limit: int)
    requires ws != [] && limit > 0 && Good(db, n, ws[0])
    ensures Reach(db, ws, n, limit) == 1 + Reach(db, ws[1..], n + 1, limit - 1)
    ensures Tried(db, ws, n, limit) == 1 + Tried(db, ws[1..], n + 1, limit - 1)
    ensures Carried(db, ws, n, limit) == [ws[0]] + Carried(db, ws[1..], n + 1, limit - 1)
  {
    var m := Reach(db, ws[1..], n + 1, limit - 1);
    assert ws[..m + 1] == [ws[0]] + ws[1..][..m];
  }

  /** What one run records, carries out and attempts over what is left of a list is what those attempts do. */
  lemma {:induction false} RunIsItsAttempts(db: Database, vs: seq<Version>, d: nat, n: nat, limit: int)
    requires d <= |vs|
    ensures var t := Made(db, vs, d, n, limit);
      && Settled(db, vs, d, n, t) == d + Reach(db, vs[d..], n, limit)
      && Log(db, vs, d, n, t) == Carried(db, vs[d..], n, limit)
      && t == Tried(db, vs[d..], n, limit)
    decreases |vs| - d
  {
    hide Settled, Log, Reach, Tried, Carried;
    if limit > 0 && d < |vs| && Good(db, n, vs[d]) {
      assert vs[d..][1..] == vs[d + 1..];
      RunIsItsAttempts(db, vs, d + 1, n + 1, limit - 1);
      OneThenRest(db, vs, d, n, Made(db, vs, d + 1, n + 1, limit - 1));
      CarriedStep(db, vs[d..], n, limit);
    } else {
      RunStopsHere(db, vs, d, n, limit);
    }
  }

  lemma RunStopsHere(db: Database, vs: seq<Version>, d: nat, n: nat, limit: int)
    requires d <= |vs| && (limit <= 0 || d == |vs| || !Good(db, n, vs[d]))
    ensures var t := Made(db, vs, d, n, limit);
      && Settled(db, vs, d, n, t) == d + Reach(db, vs[d..], n, limit)
      && Log(db, vs, d, n, t) == Carried(db, vs[d..], n, limit)
      && t == Tried(db, vs[d..], n, limit)
  {
    if limit > 0 && d < |vs| {
      OneThenRest(db, vs, d, n, 0);
    }
  }

  // ---- k runs ---------------------------------------------------------------------------------

  /** What has happened so far: what is recorded, what was carried out, the attempts made. */
  datatype Progress = Progress(records: set<Version>, carriedOut: seq<Version>, attempts: nat)

  /** One more run. */
  function Then(db: Database, sorted: seq<Step>, p: Progress, limit: int): Progress {
    var o := RunOnce(db, sorted, p.records, limit, p.attempts);
    Progress(o.records, p.carriedOut + o.carriedOut, o.attempts)
  }

  /** k runs with the same limit, each reading every record. */
  function RunTimes(db: Database, sorted: seq<Step>, p: Progress, limit: int, k: nat): Progress {
    if k == 0 then p else Then(db, sorted, RunTimes(db, sorted, p, limit, k - 1), limit)
  }

  /** How many attempts they make. */
  function Attempts(db: Database, vs: seq<Version>, n: nat, limit: int, k: nat): nat {
    if k == 0 then 0
    else
      var a := Attempts(db, vs, n, limit, k - 1);
      a + Made(db, vs, Settled(db, vs, 0, n, a), n + a, limit)
  }

  /** Where a attempts lead. */
  function After(db: Database, vs: seq<Version>, p: Progress, a: nat): Progress {
    Progress(With(p.records, vs, Settled(db, vs, 0, p.attempts, a)),
             p.carriedOut + Log(db, vs, 0, p.attempts, a), p.attempts + a)
  }

  lemma AfterNone(db: Database, vs: seq<Version>, p: Progress)
    ensures After(db, vs, p, 0) == p
  {
    assert p.carriedOut + [] == p.carriedOut;
  }

  /** Once a prefix of what is pending is recorded, the rest is what is pending. */
  lemma {:induction false} PendingAfter(steps: seq<Step>, records: set<Version>, n: nat)
    requires DistinctVersions(steps) && n <= |Pending(steps, records)|
    ensures Pending(steps, With(records, Pending(steps, records), n)) == Pending(steps, records)[n..]
    decreases |steps|
  {
    hide With;
    WithHolds(records, Pending(steps, records), n);
    if steps != [] && n > 0 {
      var v, rest := steps[0].version, steps[1..];
      DistinctTail(steps);
      if v in records {
        PendingAfter(rest, records, n);
      } else {
        PendingUnrelated(rest, records, v);
        PendingAfter(rest, records + {v}, n - 1);
        WithTail(records, v, Pending(rest, records), n - 1);
        assert ([v] + Pending(rest, records))[n..] == Pending(rest, records)[n - 1..];
      }
    }
  }

  lemma WithHolds(records: set<Version>, vs: seq<Version>, n: nat)
    requires n <= |vs|
    ensures records <= With(records, vs, n)
    ensures if n > 0 then vs[0] in With(records, vs, n) else With(records, vs, n) == records
  {
    WithIs(records, vs, n);
  }

  lemma WithTail(records: set<Version>, v: Version, ws: seq<Version>, n: nat)
    requires n <= |ws|
    ensures With(records, [v] + ws, n + 1) == With(records + {v}, ws, n)
  {
    WithSplits(records, [v] + ws, 1, n);
    assert ([v] + ws)[1..] == ws;
  }

  lemma {:induction false} PendingUnrelated(steps: seq<Step>, records: set<Version>, v: Version)
    requires forall i :: 0 <= i < |steps| ==> steps[i].version != v
    ensures Pending(steps, records + {v}) == Pending(steps, records)
  {
    if steps != [] {
      PendingUnrelated(steps[1..], records, v);
    }
  }

  /** A run from position d, as its attempts. */
  function Turn(db: Database, vs: seq<Version>, d: nat, q: Progress, limit: int): Progress
    requires d <= |vs|
  {
    var t := Made(db, vs, d, q.attempts, limit);
    Progress(With(q.records, vs[d..], Settled(db, vs, d, q.attempts, t) - d),
             q.carriedOut + Log(db, vs, d, q.attempts, t), q.attempts + t)
  }

  lemma ThenIsTurn(db: Database, sorted: seq<Step>, vs: seq<Version>, d: nat, q: Progress, limit: int)
    requires DistinctVersions(sorted) && d <= |vs| && Pending(sorted, q.records) == vs[d..]
    ensures Then(db, sorted, q, limit) == Turn(db, vs, d, q, limit)
  {
    hide Settled, Log, Reach, Tried, Carried, Made, With, RunOnce, Pending;
    WholeReadPasses(db, sorted, q.records, limit, q.attempts);
    RunIsItsAttempts(db, vs, d, q.attempts, limit);
  }

  lemma TurnMoves(db: Database, vs: seq<Version>, p: Progress, a: nat, limit: int)
    ensures var d := Settled(db, vs, 0, p.attempts, a);
      Turn(db, vs, d, After(db, vs, p, a), limit) == After(db, vs, p, a + Made(db, vs, d, p.attempts + a, limit))
  {
    hide With, Log, Settled, Made;
    var d := Settled(db, vs, 0, p.attempts, a);
    var t := Made(db, vs, d, p.attempts + a, limit);
    SettledSplits(db, vs, 0, p.attempts, a, t);
    WithSplits(p.records, vs, d, Settled(db, vs, d, p.attempts + a, t) - d);
    Reassociate(p.carriedOut, Log(db, vs, 0, p.attempts, a), Log(db, vs, d, p.attempts + a, t));
  }

  lemma {:induction false} OneMoreRun(db: Database, sorted: seq<Step>, vs: seq<Version>, p: Progress, q: Progress,
                                      a: nat, limit: int)
    requires DistinctVersions(sorted) && Pending(sorted, p.records) == vs && q == After(db, vs, p, a)
    ensures Then(db, sorted, q, limit) ==
            After(db, vs, p, a + Made(db, vs, Settled(db, vs, 0, p.attempts, a), p.attempts + a, limit))
  {
    PendingAfter(sorted, p.records, Settled(db, vs, 0, p.attempts, a));
    ThenIsTurn(db, sorted, vs, Settled(db, vs, 0, p.attempts, a), q, limit);
    TurnMoves(db, vs, p, a, limit);
  }

  /**
   * Batching decides only how many attempts are made. After k runs, whatever fails and whatever is
   * retried, the records, what was carried out and the attempts are those of so many attempts, each at
   * the first pending migration not yet recorded.
   */
  lemma {:induction false} RunsAreTheirAttempts(db: Database, sorted: seq<Step>, p: Progress, limit: int, k: nat)
    requires DistinctVersions(sorted)
    ensures var vs := Pending(sorted, p.records);
      RunTimes(db, sorted, p, limit, k) == After(db, vs, p, Attempts(db, vs, p.attempts, limit, k))
  {
    hide After, Settled, Made, Then, Pending;
    var vs := Pending(sorted, p.records);
    if k == 0 {
      AfterNone(db, vs, p);
    } else {
      RunsAreTheirAttempts(db, sorted, p, limit, k - 1);
      var q, a := RunTimes(db, sorted, p, limit, k - 1), Attempts(db, vs, p.attempts, limit, k - 1);
      OneMoreRun(db, sorted, vs, p, q, a, limit);
    }
  }
}
