/** What limited batches change: only what retries after the first failure achieve. */
module BatchedRuns {
  import opened Sorting
  import opened Migration
  import opened Batches
  import opened Retries

  lemma OneRunIs(db: Database, sorted: seq<Step>, p: Progress, limit: int, k: nat)
    requires DistinctVersions(sorted)
    ensures var vs := Pending(sorted, p.records);
      Then(db, sorted, p, k * limit) == After(db, vs, p, One(db, vs, p.attempts, limit, k))
  {
    var vs := Pending(sorted, p.records);
    AfterNone(db, vs, p);
    OneMoreRun(db, sorted, vs, p, p, 0, k * limit);
  }

  lemma AfterGrows(db: Database, vs: seq<Version>, p: Progress, a: nat, b: nat)
    requires a <= b
    ensures var q, r := After(db, vs, p, a), After(db, vs, p, b);
      q.records <= r.records && q.carriedOut <= r.carriedOut && q.attempts <= r.attempts
  {
    SettledGrows(db, vs, 0, p.attempts, a, b);
    WithIs(p.records, vs, Settled(db, vs, 0, p.attempts, a));
    WithIs(p.records, vs, Settled(db, vs, 0, p.attempts, b));
  }

  lemma WithSame(records: set<Version>, vs: seq<Version>, m: nat, l: nat)
    requires m <= l <= |vs| && Distinct(vs) && forall v :: v in vs ==> v !in records
    ensures With(records, vs, m) == With(records, vs, l) <==> m == l
  {
    WithIs(records, vs, m);
    WithIs(records, vs, l);
    if m < l {
      assert vs[m] in With(records, vs, l);
    }
  }

  /**
   * Whatever fails and whatever is retried, k runs with limit L record no less, carry out no less, and
   * attempt no less than one run with limit k*L.
   */
  lemma BatchesDoNoLess(db: Database, sorted: seq<Step>, p: Progress, limit: int, k: nat)
    requires DistinctVersions(sorted)
    ensures var one, all := Then(db, sorted, p, k * limit), RunTimes(db, sorted, p, limit, k);
      one.records <= all.records && one.carriedOut <= all.carriedOut && one.attempts <= all.attempts
  {
    hide After, One, Attempts, Then, RunTimes;
    var vs := Pending(sorted, p.records);
    OneRunIs(db, sorted, p, limit, k);
    RunsAreTheirAttempts(db, sorted, p, limit, k);
    OneRunTriesLess(db, vs, p.attempts, limit, k);
    AfterGrows(db, vs, p, One(db, vs, p.attempts, limit, k), Attempts(db, vs, p.attempts, limit, k));
  }

  /**
   * They record the same if and only if none of the runs that meet the first failing migration again
   * gets it recorded.
   */
  lemma BatchesRecordTheSameIff(db: Database, sorted: seq<Step>, p: Progress, limit: int, k: nat)
    requires DistinctVersions(sorted)
    ensures RunTimes(db, sorted, p, limit, k).records == Then(db, sorted, p, k * limit).records
      <==> !RetryRecords(db, Pending(sorted, p.records), p.attempts, limit, k)
  {
    hide One, Attempts, Then, RunTimes, Settled, Log, With, RetryRecords;
    var vs := Pending(sorted, p.records);
    var one, all := One(db, vs, p.attempts, limit, k), Attempts(db, vs, p.attempts, limit, k);
    OneRunIs(db, sorted, p, limit, k);
    RunsAreTheirAttempts(db, sorted, p, limit, k);
    OneRunTriesLess(db, vs, p.attempts, limit, k);
    FurtherIff(db, vs, p.attempts, limit, k);
    PendingOnce(sorted, p.records);
    SettledGrows(db, vs, 0, p.attempts, one, all);
    WithSame(p.records, vs, Settled(db, vs, 0, p.attempts, one), Settled(db, vs, 0, p.attempts, all));
  }

  lemma SamePrefix(before: seq<Version>, x: seq<Version>, y: seq<Version>)
    ensures before + x == before + y <==> x == y
  {
    assert (before + x)[|before|..] == x && (before + y)[|before|..] == y;
  }

  /** They carry out the same if and only if none of those runs carries it out. */
  lemma BatchesCarryOutTheSameIff(db: Database, sorted: seq<Step>, p: Progress, limit: int, k: nat)
    requires DistinctVersions(sorted)
    ensures RunTimes(db, sorted, p, limit, k).carriedOut == Then(db, sorted, p, k * limit).carriedOut
      <==> !RetrySucceeds(db, Pending(sorted, p.records), p.attempts, limit, k)
  {
    hide One, Attempts, Then, RunTimes, Settled, Log, With, RetrySucceeds;
    var vs := Pending(sorted, p.records);
    var one, all := One(db, vs, p.attempts, limit, k), Attempts(db, vs, p.attempts, limit, k);
    OneRunIs(db, sorted, p, limit, k);
    RunsAreTheirAttempts(db, sorted, p, limit, k);
    MoreIff(db, vs, p.attempts, limit, k);
    SamePrefix(p.carriedOut, Log(db, vs, 0, p.attempts, one), Log(db, vs, 0, p.attempts, all));
  }

  /**
   * What k runs carry out while no retry gets recorded: each pending migration short of the first
   * failure once, in order, as far as the limits reach, and the failing one for each attempt at it that
   * carries it out, the run that met it first included.
   */
  lemma WhatBatchesCarryOut(db: Database, sorted: seq<Step>, p: Progress, limit: int, k: nat)
    requires DistinctVersions(sorted) && !RetryRecords(db, Pending(sorted, p.records), p.attempts, limit, k)
    ensures var vs := Pending(sorted, p.records); var g := GoodPrefix(db, vs, p.attempts);
      RunTimes(db, sorted, p, limit, k).carriedOut ==
      p.carriedOut + (vs[..Least(Room(k * limit), g)] +
        if g < |vs| then CarriedAgain(db, vs, p.attempts, Arrivals(g, limit, k)) else [])
  {
    hide Attempts, RunTimes, Settled, Log, With, CarriedAgain, Arrivals;
    var vs := Pending(sorted, p.records);
    RunsAreTheirAttempts(db, sorted, p, limit, k);
    FirstFails(db, vs, p.attempts);
    AllSettle(db, vs, p.attempts, limit, k);
  }

  // ---- a database that accepts every record -------------------------------------------------------

  lemma {:induction false} AcceptedLog(db: Database, vs: seq<Version>, n: nat, j: nat)
    requires forall i: nat, v: Version :: db.store(i, v)
    ensures Log(db, vs, 0, n, j) == vs[..Settled(db, vs, 0, n, j)]
  {
    if j > 0 {
      AcceptedLog(db, vs, n, j - 1);
    }
  }

  /**
   * When every record is accepted, whichever migrations fail and whenever they succeed: what is carried
   * out is what gets recorded, in order, and each once.
   */
  lemma AcceptedOnce(db: Database, sorted: seq<Step>, p: Progress, limit: int, k: nat)
    requires DistinctVersions(sorted) && forall i: nat, v: Version :: db.store(i, v)
    ensures var vs := Pending(sorted, p.records); var all := RunTimes(db, sorted, p, limit, k);
      exists m :: 0 <= m <= |vs| && Distinct(vs[..m]) &&
        all.records == With(p.records, vs, m) && all.carriedOut == p.carriedOut + vs[..m]
  {
    hide Attempts, RunTimes, Settled, Log;
    var vs := Pending(sorted, p.records);
    RunsAreTheirAttempts(db, sorted, p, limit, k);
    PendingOnce(sorted, p.records);
    AcceptedLog(db, vs, p.attempts, Attempts(db, vs, p.attempts, limit, k));
  }

  // ---- a database that never changes its mind -----------------------------------------------------

  /** Every attempt at a migration turns out the same. */
  ghost predicate Steady(db: Database) {
    forall i: nat, j: nat, v: Version :: db.up(i, v) == db.up(j, v) && db.store(i, v) == db.store(j, v)
  }

  lemma SteadyIsStuck(db: Database, vs: seq<Version>, n: nat, limit: int, k: nat)
    requires Steady(db)
    ensures !RetryRecords(db, vs, n, limit, k)
    ensures RetrySucceeds(db, vs, n, limit, k) <==>
            Arrivals(GoodPrefix(db, vs, n), limit, k) > 1 && Redone(db, vs, n, 0)
  {
    FirstFails(db, vs, n);
    if Arrivals(GoodPrefix(db, vs, n), limit, k) > 1 && Redone(db, vs, n, 0) {
      assert Redone(db, vs, n, 1);
    }
  }

  /** Then k runs with limit L leave the records of one run with limit k*L. */
  lemma BatchesAddUp(db: Database, sorted: seq<Step>, p: Progress, limit: int, k: nat)
    requires DistinctVersions(sorted) && Steady(db)
    ensures RunTimes(db, sorted, p, limit, k).records == Then(db, sorted, p, k * limit).records
  {
    SteadyIsStuck(db, Pending(sorted, p.records), p.attempts, limit, k);
    BatchesRecordTheSameIff(db, sorted, p, limit, k);
  }

  /** A refused record, met by more than one of the runs. */
  predicate Repeats(db: Database, vs: seq<Version>, n: nat, limit: int, k: nat) {
    Redone(db, vs, n, 0) && k > 0 && (k - 1) * limit > GoodPrefix(db, vs, n)
  }

  lemma RepeatsIff(db: Database, vs: seq<Version>, n: nat, limit: int, k: nat)
    ensures Repeats(db, vs, n, limit, k) <==> Redone(db, vs, n, 0) && Arrivals(GoodPrefix(db, vs, n), limit, k) > 1
  {
    if k > 0 {
      ArrivalsIff(GoodPrefix(db, vs, n), limit, k - 1);
      ArrivalsIff(GoodPrefix(db, vs, n), limit, k);
      BatchArithmetic(k, limit);
    }
  }

  /**
   * And they carry out the same migrations, in the same order and each once, if and only if no refused
   * record is met by more than one of the runs.
   */
  lemma SteadyBatchesCarryOutOnceIff(db: Database, sorted: seq<Step>, records: set<Version>, n: nat, limit: int, k: nat)
    requires DistinctVersions(sorted) && Steady(db)
    ensures var p := Progress(records, [], n); var vs := Pending(sorted, records);
      var carried := RunTimes(db, sorted, p, limit, k).carriedOut;
      && (carried == Then(db, sorted, p, k * limit).carriedOut <==> !Repeats(db, vs, n, limit, k))
      && (Distinct(carried) <==> !Repeats(db, vs, n, limit, k))
  {
    hide RunTimes, Then, Arrivals, CarriedAgain, RetryRecords, RetrySucceeds;
    var p, vs := Progress(records, [], n), Pending(sorted, records);
    SteadyIsStuck(db, vs, n, limit, k);
    BatchesCarryOutTheSameIff(db, sorted, p, limit, k);
    WhatBatchesCarryOut(db, sorted, p, limit, k);
    RepeatsIff(db, vs, n, limit, k);
    ArrivalsIff(GoodPrefix(db, vs, n), limit, k);
    PendingOnce(sorted, records);
    var g := GoodPrefix(db, vs, n);
    CarriedDistinct(db, vs, n, Least(Room(k * limit), g), Arrivals(g, limit, k));
  }

  lemma {:induction false} SteadyAgain(db: Database, vs: seq<Version>, n: nat, i: nat)
    requires Steady(db) && GoodPrefix(db, vs, n) < |vs|
    ensures CarriedAgain(db, vs, n, i) == if Redone(db, vs, n, 0) then seq(i, _ => vs[GoodPrefix(db, vs, n)]) else []
  {
    if i > 0 {
      SteadyAgain(db, vs, n, i - 1);
    }
  }

  lemma CarriedDistinct(db: Database, vs: seq<Version>, n: nat, m: nat, i: nat)
    requires Steady(db) && Distinct(vs) && m <= GoodPrefix(db, vs, n)
    ensures var g := GoodPrefix(db, vs, n);
      Distinct([] + (vs[..m] + if g < |vs| then CarriedAgain(db, vs, n, i) else [])) <==>
        !(Redone(db, vs, n, 0) && i > 1)
  {
    var g := GoodPrefix(db, vs, n);
    if g < |vs| {
      SteadyAgain(db, vs, n, i);
      var s := [] + (vs[..m] + CarriedAgain(db, vs, n, i));
      if Redone(db, vs, n, 0) && i > 1 {
        assert s[m] == s[m + 1];
      }
    }
  }

  /** In particular, each once and the same as one run when every record is accepted. */
  lemma BatchesCarryOutTheSame(db: Database, sorted: seq<Step>, records: set<Version>, n: nat, limit: int, k: nat)
    requires DistinctVersions(sorted) && Steady(db) && forall i: nat, v: Version :: db.store(i, v)
    ensures var p := Progress(records, [], n); var carried := RunTimes(db, sorted, p, limit, k).carriedOut;
      carried == Then(db, sorted, p, k * limit).carriedOut && Distinct(carried)
  {
    FirstFails(db, Pending(sorted, records), n);
    SteadyBatchesCarryOutOnceIff(db, sorted, records, n, limit, k);
  }

  // ---- one that does ------------------------------------------------------------------------------

  /** A migration fails once and then succeeds: two runs with limit 1 record it, one run with limit 2 does not. */
  lemma ARetryIsRecorded()
    ensures var db := Database((n, _) => n > 0, (_, _) => true);
      var sorted, p := [Step("1", "")], Progress({}, [], 0);
      && RunTimes(db, sorted, p, 1, 2) == Progress({"1"}, ["1"], 2)
      && Then(db, sorted, p, 2) == Progress({}, [], 1)
  {
    var db := Database((n, _) => n > 0, (_, _) => true);
    var sorted, p := [Step("1", "")], Progress({}, [], 0);
    assert RunTimes(db, sorted, p, 1, 1) == Progress({}, [], 1);
  }
}
