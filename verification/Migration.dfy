/** Limited-batch migrations: sorted by version, each applied and recorded once. */
module Migration {
  import opened Wrappers
  import opened Sorting

  type Version = string

  datatype Step = Step(version: Version, description: string)

  /** Go's string order: byte by byte, a prefix before what extends it. */
  predicate Less(a: Version, b: Version) {
    b != [] && (a == [] || a[0] < b[0] || (a[0] == b[0] && Less(a[1..], b[1..])))
  }

  lemma {:induction false} LessIrreflexive(a: Version)
    ensures !Less(a, a)
  {
    if a != [] {
      LessIrreflexive(a[1..]);
    }
  }

  lemma {:induction false} LessTotal(a: Version, b: Version)
    requires a != b
    ensures Less(a, b) != Less(b, a)
    decreases |a|
  {
    if a != [] && b != [] && a[0] == b[0] {
      assert a == [a[0]] + a[1..] && b == [b[0]] + b[1..];
      LessTotal(a[1..], b[1..]);
    }
  }

  lemma {:induction false} LessTransitive(a: Version, b: Version, c: Version)
    requires Less(a, b) && Less(b, c)
    ensures Less(a, c)
    decreases |a|
  {
    if a != [] && a[0] == b[0] && b[0] == c[0] {
      LessTransitive(a[1..], b[1..], c[1..]);
    }
  }

  /** The texts agree up to a place where the first ends, or where its byte is the smaller. */
  ghost predicate ComesFirst(a: Version, b: Version) {
    exists k :: PartsAt(a, b, k)
  }

  predicate PartsAt(a: Version, b: Version, k: int) {
    && 0 <= k <= |a| && k < |b| && a[..k] == b[..k]
    && (k == |a| || a[k] < b[k])
  }

  /** The order in use is that one. */
  lemma {:induction false} LessIsComesFirst(a: Version, b: Version)
    ensures Less(a, b) <==> ComesFirst(a, b)
    decreases |a|
  {
    if a == [] || b == [] || a[0] != b[0] {
      assert PartsAt(a, b, 0) <==> Less(a, b);
      forall k | PartsAt(a, b, k)
        ensures k == 0
      {
        PartsAgreeBefore(a, b, k);
      }
    } else {
      LessIsComesFirst(a[1..], b[1..]);
      PartsFurther(a, b);
    }
  }

  lemma PartsAgreeBefore(a: Version, b: Version, k: int)
    requires PartsAt(a, b, k)
    ensures k > 0 ==> a[0] == b[0]
  {
    if k > 0 {
      assert a[..k][0] == b[..k][0];
    }
  }

  lemma PartsFurther(a: Version, b: Version)
    requires a != [] && b != [] && a[0] == b[0]
    ensures ComesFirst(a, b) <==> ComesFirst(a[1..], b[1..])
  {
    if k :| PartsAt(a, b, k) {
      assert a[..k][1..] == a[1..][..k - 1] && b[..k][1..] == b[1..][..k - 1];
      assert PartsAt(a[1..], b[1..], k - 1);
    }
    if k :| PartsAt(a[1..], b[1..], k) {
      assert a[..k + 1] == [a[0]] + a[1..][..k] && b[..k + 1] == [b[0]] + b[1..][..k];
      assert PartsAt(a, b, k + 1);
    }
  }

  /** By version; the description only breaks ties, which distinct versions never have. */
  predicate Before(s: Step, t: Step) {
    Less(s.version, t.version) || (s.version == t.version && Less(s.description, t.description))
  }

  const BY_VERSION: (Step, Step) -> bool := (s: Step, t: Step) => Before(s, t)

  lemma ByVersionIsOrder()
    ensures StrictOrder(BY_VERSION)
  {
    forall s: Step, t: Step | s != t
      ensures Before(s, t) != Before(t, s)
    {
      BeforeTotal(s, t);
    }
    forall s: Step
      ensures !Before(s, s)
    {
      LessIrreflexive(s.version);
      LessIrreflexive(s.description);
    }
    forall s: Step, t: Step, u: Step | Before(s, t) && Before(t, u)
      ensures Before(s, u)
    {
      BeforeTransitive(s, t, u);
    }
  }

  lemma BeforeTotal(s: Step, t: Step)
    requires s != t
    ensures Before(s, t) != Before(t, s)
  {
    if s.version != t.version {
      LessTotal(s.version, t.version);
    } else {
      LessIrreflexive(s.version);
      LessTotal(s.description, t.description);
    }
  }

  lemma BeforeTransitive(s: Step, t: Step, u: Step)
    requires Before(s, t) && Before(t, u)
    ensures Before(s, u)
  {
    if Less(s.version, t.version) && Less(t.version, u.version) {
      LessTransitive(s.version, t.version, u.version);
    } else if s.version == t.version == u.version {
      LessTransitive(s.description, t.description, u.description);
    }
  }

  function Versions(steps: seq<Step>): seq<Version> {
    seq(|steps|, i requires 0 <= i < |steps| => steps[i].version)
  }

  /** Of two different versions, the one that comes first stands first. */
  ghost predicate InOrder(vs: seq<Version>) {
    forall i, j :: 0 <= i < |vs| && 0 <= j < |vs| && vs[i] != vs[j] ==> (i < j <==> ComesFirst(vs[i], vs[j]))
  }

  lemma InOrderFrom(vs: seq<Version>)
    requires forall i, j :: 0 <= i < j < |vs| && vs[i] != vs[j] ==> Less(vs[i], vs[j])
    ensures InOrder(vs)
  {
    forall i, j | 0 <= i < |vs| && 0 <= j < |vs| && vs[i] != vs[j]
      ensures i < j <==> ComesFirst(vs[i], vs[j])
    {
      LessIsComesFirst(vs[i], vs[j]);
      LessTotal(vs[i], vs[j]);
    }
  }

  /** Sorting puts the versions in order, whatever was registered, and loses and adds no step. */
  lemma SortedInOrder(steps: seq<Step>)
    ensures var s := Sort(steps, BY_VERSION); multiset(s) == multiset(steps) && InOrder(Versions(s))
  {
    var s := Sort(steps, BY_VERSION);
    ByVersionIsOrder();
    SortElements(steps, BY_VERSION);
    SortNeverReverses(steps, BY_VERSION);
    forall i, j | 0 <= i < j < |s| && s[i].version != s[j].version
      ensures Less(s[i].version, s[j].version)
    {
      assert !BY_VERSION(s[j], s[i]);
      LessTotal(s[i].version, s[j].version);
    }
    InOrderFrom(Versions(s));
  }

  // ---- one run --------------------------------------------------------------------------------

  /**
   * How attempts turn out: whether the n-th attempt at a migration succeeds, and whether the database
   * accepts its record. Attempts are numbered over all runs, so a retry may fare differently.
   */
  datatype Database = Database(up: (nat, Version) -> bool, store: (nat, Version) -> bool)

  predicate Good(db: Database, n: nat, v: Version) { db.up(n, v) && db.store(n, v) }

  datatype Verdict = Done | UpFailed(version: Version) | RecordFailed(version: Version)

  /** What is recorded, which migrations were carried out, in order, how it ended, and the attempts made by then. */
  datatype Outcome = Outcome(records: set<Version>, carriedOut: seq<Version>, verdict: Verdict, attempts: nat)

  /** A run ended by this migration: it failed, or it was carried out and its record was refused. */
  function Failed(db: Database, records: set<Version>, v: Version, n: nat): Outcome {
    if db.up(n, v) then Outcome(records, [v], RecordFailed(v), n + 1) else Outcome(records, [], UpFailed(v), n + 1)
  }

  /**
   * The rest of a run: `applied` is what was read at the start, `records` what is stored by now, `n`
   * the attempts made by now.
   */
  function RunFrom(db: Database, steps: seq<Step>, applied: set<Version>, records: set<Version>, limit: int, ran: nat,
                   n: nat): Outcome
    decreases |steps|
  {
    if steps == [] || ran >= limit then Outcome(records, [], Done, n)
    else
      var v := steps[0].version;
      if v in applied then RunFrom(db, steps[1..], applied, records, limit, ran, n)
      else if !(db.up(n, v) && v !in records && db.store(n, v)) then Failed(db, records, v, n)
      else
        var rest := RunFrom(db, steps[1..], applied, records + {v}, limit, ran + 1, n + 1);
        rest.(carriedOut := [v] + rest.carriedOut)
  }

  /** A run whose reading of the records succeeded. */
  function RunOnce(db: Database, sorted: seq<Step>, records: set<Version>, limit: int, n: nat): Outcome {
    RunFrom(db, sorted, records, records, limit, 0, n)
  }

  predicate DistinctVersions(steps: seq<Step>) {
    forall i, j :: 0 <= i < j < |steps| ==> steps[i].version != steps[j].version
  }

  /** The versions still to apply, in order. */
  function Pending(steps: seq<Step>, records: set<Version>): seq<Version> {
    if steps == [] then []
    else if steps[0].version in records then Pending(steps[1..], records)
    else [steps[0].version] + Pending(steps[1..], records)
  }

  /** How many of them, attempted one after another from attempt n on, succeed before the first that does not. */
  function GoodPrefix(db: Database, vs: seq<Version>, n: nat): (g: nat)
    ensures g <= |vs|
    decreases |vs|
  {
    if vs == [] || !Good(db, n, vs[0]) then 0 else 1 + GoodPrefix(db, vs[1..], n + 1)
  }

  lemma {:induction false} GoodPrefixIs(db: Database, vs: seq<Version>, n: nat)
    ensures var g := GoodPrefix(db, vs, n);
      (forall i :: 0 <= i < g ==> Good(db, n + i, vs[i])) && (g < |vs| ==> !Good(db, n + g, vs[g]))
    decreases |vs|
  {
    if vs != [] && Good(db, n, vs[0]) {
      GoodPrefixIs(db, vs[1..], n + 1);
      forall i | 1 <= i < GoodPrefix(db, vs, n)
        ensures Good(db, n + i, vs[i])
      {
        assert vs[i] == vs[1..][i - 1] && Good(db, n + 1 + (i - 1), vs[1..][i - 1]);
      }
    }
  }

  function Room(limit: int): nat { if limit < 0 then 0 else limit }

  function Least(a: nat, b: nat): nat { if a < b then a else b }

  /** The records once the first m of these versions are stored too. */
  function With(records: set<Version>, vs: seq<Version>, m: nat): set<Version>
    requires m <= |vs|
  {
    if m == 0 then records else With(records, vs, m - 1) + {vs[m - 1]}
  }

  lemma {:induction false} WithIs(records: set<Version>, vs: seq<Version>, m: nat)
    requires m <= |vs|
    ensures With(records, vs, m) == records + set i | 0 <= i < m :: vs[i]
  {
    if m > 0 {
      WithIs(records, vs, m - 1);
    }
  }

  /** First what came before position d, then the rest. */
  lemma {:induction false} WithSplits(records: set<Version>, vs: seq<Version>, d: nat, m: nat)
    requires d + m <= |vs|
    ensures With(With(records, vs, d), vs[d..], m) == With(records, vs, d + m)
    decreases m
  {
    if m > 0 {
      WithSplits(records, vs, d, m - 1);
      assert vs[d..][m - 1] == vs[d + m - 1];
    }
  }

  /** How far a run with this limit gets through what is pending. */
  function Reach(db: Database, vs: seq<Version>, n: nat, limit: int): nat { Least(Room(limit), GoodPrefix(db, vs, n)) }

  /** It stops at a migration it attempted and did not get recorded. */
  predicate Stops(db: Database, vs: seq<Version>, n: nat, limit: int) {
    Reach(db, vs, n, limit) < |vs| && Reach(db, vs, n, limit) < Room(limit)
  }

  /** How many attempts it makes. */
  function Tried(db: Database, vs: seq<Version>, n: nat, limit: int): nat {
    Reach(db, vs, n, limit) + if Stops(db, vs, n, limit) then 1 else 0
  }

  /** What it carries out: everything it records, and the migration it stops at if only its record was refused. */
  function Carried(db: Database, vs: seq<Version>, n: nat, limit: int): seq<Version> {
    Through(vs, Reach(db, vs, n, limit), StopsRefused(db, vs, n, limit))
  }

  /** It stops at a migration it carried out whose record was refused. */
  predicate StopsRefused(db: Database, vs: seq<Version>, n: nat, limit: int) {
    Stops(db, vs, n, limit) && db.up(n + Reach(db, vs, n, limit), vs[Reach(db, vs, n, limit)])
  }

  /** The first m versions, and perhaps the next. */
  function Through(vs: seq<Version>, m: nat, next: bool): seq<Version>
    requires m <= |vs| && (next ==> m < |vs|)
  {
    vs[..m] + if next then [vs[m]] else []
  }

  function Ending(db: Database, vs: seq<Version>, n: nat, limit: int): Verdict {
    var m := Reach(db, vs, n, limit);
    if !Stops(db, vs, n, limit) then Done else if db.up(n + m, vs[m]) then RecordFailed(vs[m]) else UpFailed(vs[m])
  }

  /**
   * A run over these versions: it records them in order, up to the limit and short of the first that
   * fails, which it names; a failure leaves exactly its predecessors recorded.
   */
  function Passed(db: Database, vs: seq<Version>, records: set<Version>, n: nat, limit: int): Outcome {
    Outcome(With(records, vs, Reach(db, vs, n, limit)), Carried(db, vs, n, limit),
            Ending(db, vs, n, limit), n + Tried(db, vs, n, limit))
  }

  lemma {:induction false} PendingWithin(steps: seq<Step>, records: set<Version>)
    ensures forall v :: v in Pending(steps, records) ==>
      v !in records && exists i :: 0 <= i < |steps| && steps[i].version == v
  {
    if steps != [] {
      PendingWithin(steps[1..], records);
      forall v | v in Pending(steps, records)
        ensures v !in records && exists i :: 0 <= i < |steps| && steps[i].version == v
      {
        if v in Pending(steps[1..], records) {
          var i :| 0 <= i < |steps[1..]| && steps[1..][i].version == v;
          assert steps[i + 1].version == v;
        } else {
          assert steps[0].version == v;
        }
      }
    }
  }

  /** A run over exactly the pending versions. */
  function RunList(db: Database, vs: seq<Version>, records: set<Version>, room: int, n: nat): Outcome
    decreases |vs|
  {
    if vs == [] || room <= 0 then Outcome(records, [], Done, n)
    else if !db.up(n, vs[0]) then Outcome(records, [], UpFailed(vs[0]), n + 1)
    else if !db.store(n, vs[0]) then Outcome(records, [vs[0]], RecordFailed(vs[0]), n + 1)
    else
      var rest := RunList(db, vs[1..], records + {vs[0]}, room - 1, n + 1);
      rest.(carriedOut := [vs[0]] + rest.carriedOut)
  }

  /** The same database, refusing a second record of what it already holds. */
  function Holding(db: Database, held: set<Version>): Database {
    Database(db.up, (n: nat, v: Version) => v !in held && db.store(n, v))
  }

  /** Of the steps still to come, exactly those are stored by now that were held at the start. */
  predicate Current(steps: seq<Step>, held: set<Version>, records: set<Version>) {
    forall i :: 0 <= i < |steps| ==> (steps[i].version in records <==> steps[i].version in held)
  }

  lemma DistinctTail(steps: seq<Step>)
    requires DistinctVersions(steps) && steps != []
    ensures DistinctVersions(steps[1..])
    ensures forall i :: 0 <= i < |steps[1..]| ==> steps[1..][i].version != steps[0].version
  {
  }

  /** Skipping what was read as applied, a run is a run over the rest, whatever is really recorded. */
  lemma {:induction false} RunFromIsList(db: Database, steps: seq<Step>, applied: set<Version>, held: set<Version>,
                                         records: set<Version>, limit: int, ran: nat, n: nat)
    requires DistinctVersions(steps) && Current(steps, held, records)
    ensures RunFrom(db, steps, applied, records, limit, ran, n) ==
            RunList(Holding(db, held), Pending(steps, applied), records, limit - ran, n)
    decreases |steps|
  {
    if steps != [] && ran < limit {
      var v, rest := steps[0].version, steps[1..];
      DistinctTail(steps);
      if v in applied {
        RunFromIsList(db, rest, applied, held, records, limit, ran, n);
        assert Pending(steps, applied) == Pending(rest, applied);
      } else {
        assert Pending(steps, applied) == [v] + Pending(rest, applied);
        assert ([v] + Pending(rest, applied))[1..] == Pending(rest, applied);
        if Good(Holding(db, held), n, v) {
          RunFromIsList(db, rest, applied, held, records + {v}, limit, ran + 1, n + 1);
        }
      }
    }
  }

  lemma {:induction false} ListPasses(db: Database, vs: seq<Version>, records: set<Version>, room: int, n: nat)
    ensures RunList(db, vs, records, room, n) == Passed(db, vs, records, n, room)
    decreases |vs|
  {
    if vs != [] && room > 0 && Good(db, n, vs[0]) {
      ListPasses(db, vs[1..], records + {vs[0]}, room - 1, n + 1);
      PassedStep(db, vs, records, n, room);
    }
  }

  lemma PassedStep(db: Database, vs: seq<Version>, records: set<Version>, n: nat, room: int)
    requires vs != [] && room > 0 && Good(db, n, vs[0])
    ensures var rest := Passed(db, vs[1..], records + {vs[0]}, n + 1, room - 1);
      Passed(db, vs, records, n, room) == rest.(carriedOut := [vs[0]] + rest.carriedOut)
  {
    var m := Reach(db, vs[1..], n + 1, room - 1);
    assert Reach(db, vs, n, room) == m + 1;
    WithSplits(records, vs, 1, m);
    assert vs[..m + 1] == [vs[0]] + vs[1..][..m];
  }

  /** One run, whatever it read, passes over what it did not read as applied, short of what is already held. */
  lemma RunPasses(db: Database, sorted: seq<Step>, applied: set<Version>, records: set<Version>, limit: int, n: nat)
    requires DistinctVersions(sorted)
    ensures RunFrom(db, sorted, applied, records, limit, 0, n) ==
            Passed(Holding(db, records), Pending(sorted, applied), records, n, limit)
  {
    RunFromIsList(db, sorted, applied, records, records, limit, 0, n);
    ListPasses(Holding(db, records), Pending(sorted, applied), records, limit, n);
  }

  /** Nothing pending is held, so a complete read takes the holding out of play. */
  lemma {:induction false} HoldingNothingPending(db: Database, held: set<Version>, vs: seq<Version>, n: nat)
    requires forall v :: v in vs ==> v !in held
    ensures GoodPrefix(Holding(db, held), vs, n) == GoodPrefix(db, vs, n)
    decreases |vs|
  {
    if vs != [] && Good(db, n, vs[0]) {
      HoldingNothingPending(db, held, vs[1..], n + 1);
    }
  }

  /** One run that read every record passes over what is pending. */
  lemma WholeReadPasses(db: Database, sorted: seq<Step>, records: set<Version>, limit: int, n: nat)
    requires DistinctVersions(sorted)
    ensures RunOnce(db, sorted, records, limit, n) == Passed(db, Pending(sorted, records), records, n, limit)
  {
    var vs := Pending(sorted, records);
    RunPasses(db, sorted, records, records, limit, n);
    PendingWithin(sorted, records);
    HoldingNothingPending(db, records, vs, n);
    PassedAlike(Holding(db, records), db, vs, records, n, limit);
  }

  lemma PassedAlike(a: Database, b: Database, vs: seq<Version>, records: set<Version>, n: nat, limit: int)
    requires a.up == b.up && GoodPrefix(a, vs, n) == GoodPrefix(b, vs, n)
    ensures Passed(a, vs, records, n, limit) == Passed(b, vs, records, n, limit)
  {
  }

  /** Nothing pending is recorded or pending twice, so nothing is carried out twice. */
  lemma {:induction false} PendingOnce(steps: seq<Step>, records: set<Version>)
    requires DistinctVersions(steps)
    ensures Distinct(Pending(steps, records)) && forall v :: v in Pending(steps, records) ==> v !in records
  {
    if steps != [] {
      DistinctTail(steps);
      PendingOnce(steps[1..], records);
      PendingWithin(steps[1..], records);
    }
  }

  // ---- what is read of the records ------------------------------------------------------------

  /** The documents the cursor yielded, each decoded to a version or not. */
  function Decoded(docs: seq<Option<Version>>): set<Version> {
    set i | 0 <= i < |docs| && docs[i].Some? :: docs[i].value
  }

  /** A query that fails reads nothing. */
  function Applied(found: Option<seq<Option<Version>>>): set<Version> {
    if found.Some? then Decoded(found.value) else {}
  }

  /** What was carried out before and what the rest of the run does make up the whole run. */
  predicate Continues(whole: Outcome, before: seq<Version>, rest: Outcome) {
    whole == rest.(carriedOut := before + rest.carriedOut)
  }

  lemma ContinuesPast(whole: Outcome, before: seq<Version>, v: Version, rest: Outcome)
    requires Continues(whole, before, rest.(carriedOut := [v] + rest.carriedOut))
    ensures Continues(whole, before + [v], rest)
  {
    Reassociate(before, [v], rest.carriedOut);
  }

  /** A run at its i-th migration: over, skipping it, stopped by it, or past it. */
  lemma RunFromStep(db: Database, steps: seq<Step>, i: nat, applied: set<Version>, records: set<Version>,
                    limit: int, ran: nat, n: nat)
    requires i < |steps|
    ensures var v := steps[i].version; var o := RunFrom(db, steps[i..], applied, records, limit, ran, n);
      if ran >= limit then o == Outcome(records, [], Done, n)
      else if v in applied then o == RunFrom(db, steps[i + 1..], applied, records, limit, ran, n)
      else if !(db.up(n, v) && v !in records && db.store(n, v)) then
        o == Failed(db, records, v, n)
      else
        var rest := RunFrom(db, steps[i + 1..], applied, records + {v}, limit, ran + 1, n + 1);
        o == rest.(carriedOut := [v] + rest.carriedOut)
  {
    assert steps[i..][1..] == steps[i + 1..];
  }

  lemma RunFromNone(db: Database, applied: set<Version>, records: set<Version>, limit: int, ran: nat, n: nat)
    ensures RunFrom(db, [], applied, records, limit, ran, n) == Outcome(records, [], Done, n)
  {
  }

  // ---- the manager ----------------------------------------------------------------------------

  /** Each version is related to all that follow it. */
  predicate Ordered(vs: seq<Version>, rel: (Version, Version) -> bool) {
    forall i, j :: 0 <= i < j < |vs| ==> rel(vs[i], vs[j])
  }

  lemma {:induction false} CarriedKeepsOrder(db: Database, steps: seq<Step>, applied: set<Version>,
                                             records: set<Version>, limit: int, ran: nat, n: nat,
                                             rel: (Version, Version) -> bool)
    requires Ordered(Versions(steps), rel)
    ensures var vs := RunFrom(db, steps, applied, records, limit, ran, n).carriedOut;
      Ordered(vs, rel) && forall i :: 0 <= i < |vs| ==> vs[i] in Versions(steps)
    decreases |steps|
  {
    if steps != [] && ran < limit {
      var v := steps[0].version;
      assert Versions(steps) == [v] + Versions(steps[1..]);
      assert Versions(steps)[1..] == Versions(steps[1..]);
      if v in applied {
        CarriedKeepsOrder(db, steps[1..], applied, records, limit, ran, n, rel);
      } else {
        CarriedKeepsOrder(db, steps[1..], applied, records + {v}, limit, ran + 1, n + 1, rel);
      }
    }
  }

  /** What a run carries out is in order and, when versions are distinct, strictly increasing. */
  lemma CarriedOutInOrder(db: Database, registered: seq<Step>, applied: set<Version>, records: set<Version>,
                          limit: int, n: nat)
    ensures var vs := RunFrom(db, Sort(registered, BY_VERSION), applied, records, limit, 0, n).carriedOut;
      && InOrder(vs)
      && (DistinctVersions(registered) ==> forall i, j :: 0 <= i < j < |vs| ==> ComesFirst(vs[i], vs[j]))
  {
    var s := Sort(registered, BY_VERSION);
    var vs := RunFrom(db, s, applied, records, limit, 0, n).carriedOut;
    SortedInOrder(registered);
    forall i, j | 0 <= i < j < |s|
      ensures s[i].version == s[j].version || Less(s[i].version, s[j].version)
    {
      assert s[i].version == Versions(s)[i] && s[j].version == Versions(s)[j];
      LessIsComesFirst(s[i].version, s[j].version);
    }
    CarriedKeepsOrder(db, s, applied, records, limit, 0, n, (a, b) => a == b || Less(a, b));
    InOrderFrom(vs);
    if DistinctVersions(registered) {
      SortedByVersion(registered);
      CarriedKeepsOrder(db, s, applied, records, limit, 0, n, Less);
      forall i, j | 0 <= i < j < |vs|
        ensures ComesFirst(vs[i], vs[j])
      {
        LessIsComesFirst(vs[i], vs[j]);
      }
    }
  }

  class Manager {
    const db: Database
    var migrations: seq<Step>
    var records: set<Version>

    // Attempts made so far, by this manager and those before it.
    var attempts: nat

    constructor (db: Database)
      ensures this.db == db && migrations == [] && records == {} && attempts == 0
    {
      this.db := db;
      migrations, records, attempts := [], {}, 0;
    }

    method Register(s: Step)
      modifies this`migrations
      ensures migrations == old(migrations) + [s]
    {
      migrations := migrations + [s];
    }

    /** What the records that could be read and decoded say is applied. */
    method ReadApplied(found: Option<seq<Option<Version>>>) returns (applied: set<Version>)
      ensures applied == Applied(found)
    {
      applied := {};
      if found.Some? {
        var docs := found.value;
        for i := 0 to |docs|
          invariant applied == Decoded(docs[..i])
        {
          assert docs[..i + 1] == docs[..i] + [docs[i]];
          if docs[i].Some? {
            applied := applied + {docs[i].value};
          }
        }
        assert docs[..|docs|] == docs;
      }
    }

    /** Carries out one migration and, when that succeeds, inserts its record. */
    method Attempt(v: Version) returns (up: bool, recorded: bool)
      modifies this`attempts, this`records
      ensures attempts == old(attempts) + 1 && up == db.up(old(attempts), v)
      ensures recorded == (up && v !in old(records) && db.store(old(attempts), v))
      ensures records == old(records) + if recorded then {v} else {}
    {
      attempts := attempts + 1;
      up := db.up(attempts - 1, v);
      recorded := up && v !in records && db.store(attempts - 1, v);
      if recorded {
        records := records + {v};
      }
    }

    /**
     * Sorts the registered migrations in place and runs what is left of them, up to the limit. A
     * failed read of the records is not an error, nor is a record that does not decode: the run goes
     * on as if those were not applied.
     */
    method RunMigrations(limit: int, found: Option<seq<Option<Version>>>)
      returns (carriedOut: seq<Version>, verdict: Verdict)
      modifies this
      ensures migrations == Sort(old(migrations), BY_VERSION)
      ensures multiset(migrations) == multiset(old(migrations)) && InOrder(Versions(migrations))
      ensures InOrder(carriedOut)
      ensures DistinctVersions(old(migrations)) ==>
        forall i, j :: 0 <= i < j < |carriedOut| ==> ComesFirst(carriedOut[i], carriedOut[j])
      ensures Outcome(records, carriedOut, verdict, attempts) ==
              RunFrom(db, migrations, Applied(found), old(records), limit, 0, old(attempts))
    {
      var applied := ReadApplied(found);
      SortedInOrder(migrations);
      CarriedOutInOrder(db, migrations, applied, records, limit, attempts);
      migrations := Sort(migrations, BY_VERSION);
      carriedOut, verdict := RunSorted(limit, applied);
    }

    /** The loop over the sorted migrations, skipping what was read as applied. */
    method RunSorted(limit: int, applied: set<Version>) returns (carriedOut: seq<Version>, verdict: Verdict)
      modifies this`records, this`attempts
      ensures Outcome(records, carriedOut, verdict, attempts) ==
              RunFrom(db, migrations, applied, old(records), limit, 0, old(attempts))
    {
      hide RunFrom;
      carriedOut := [];
      ghost var steps := migrations;
      ghost var whole := RunFrom(db, steps, applied, records, limit, 0, attempts);
      var ran := 0;
      var i := 0;
      while i < |migrations|
        invariant i <= |steps| && ran >= 0 && migrations == steps
        invariant Continues(whole, carriedOut, RunFrom(db, steps[i..], applied, records, limit, ran, attempts))
      {
        RunFromStep(db, steps, i, applied, records, limit, ran, attempts);
        var v := migrations[i].version;
        if ran >= limit {
          break;
        }
        i := i + 1;
        if v in applied {
          continue;
        }
        var up, recorded := Attempt(v);
        if !up {
          return carriedOut, UpFailed(v);
        }
        carriedOut := carriedOut + [v];
        if !recorded {
          return carriedOut, RecordFailed(v);
        }
        ran := ran + 1;
        ContinuesPast(whole, carriedOut[..|carriedOut| - 1], v,
                      RunFrom(db, steps[i..], applied, records, limit, ran, attempts));
      }
      if i == |steps| {
        assert steps[i..] == [];
        RunFromNone(db, applied, records, limit, ran, attempts);
      }
      verdict := Done;
    }
  }

  /** Sorting keeps the versions distinct and puts them in order. */
  lemma SortedByVersion(steps: seq<Step>)
    requires DistinctVersions(steps)
    ensures var s := Sort(steps, BY_VERSION);
      && multiset(s) == multiset(steps)
      && forall i, j :: 0 <= i < j < |s| ==> Less(s[i].version, s[j].version)
  {
    ByVersionIsOrder();
    SortElements(steps, BY_VERSION);
    SortSorts(steps, BY_VERSION);
    var s := Sort(steps, BY_VERSION);
    forall i, j | 0 <= i < j < |s|
      ensures Less(s[i].version, s[j].version)
    {
      SortedDistinct(s, BY_VERSION);
      assert s[i] in s && s[j] in s;
      MemberOfBoth(s, steps, s[i]);
      MemberOfBoth(s, steps, s[j]);
      var a :| 0 <= a < |steps| && steps[a] == s[i];
      var b :| 0 <= b < |steps| && steps[b] == s[j];
      assert BY_VERSION(s[i], s[j]);
    }
  }

  // ---- records that are not read --------------------------------------------------------------

  /** Where the first version already held stands, if any does. */
  function FirstHeld(vs: seq<Version>, held: set<Version>): (p: nat)
    ensures p <= |vs|
    ensures forall i :: 0 <= i < p ==> vs[i] !in held
    ensures p < |vs| ==> vs[p] in held
  {
    if vs == [] || vs[0] in held then 0 else 1 + FirstHeld(vs[1..], held)
  }

  lemma {:induction false} HoldingStopsAtHeld(db: Database, held: set<Version>, vs: seq<Version>, n: nat)
    ensures GoodPrefix(Holding(db, held), vs, n) == Least(GoodPrefix(db, vs, n), FirstHeld(vs, held))
    decreases |vs|
  {
    if vs != [] {
      HoldingStopsAtHeld(db, held, vs[1..], n + 1);
    }
  }

  /** The first version held is attempted, and its migration succeeds. */
  predicate Reruns(db: Database, vs: seq<Version>, held: set<Version>, n: nat, limit: int) {
    var p := FirstHeld(vs, held);
    p < |vs| && p < limit && (forall i :: 0 <= i < p ==> Good(db, n + i, vs[i])) && db.up(n + p, vs[p])
  }

  /** Attempting the first held version is what it takes to stop there with a refused record. */
  lemma StopsAtHeldIff(db: Database, vs: seq<Version>, held: set<Version>, n: nat, limit: int)
    ensures var h, p := Holding(db, held), FirstHeld(vs, held); var m := Reach(h, vs, n, limit);
      m <= p && (Reruns(db, vs, held, n, limit) <==> m == p && StopsRefused(h, vs, n, limit))
  {
    HoldingStopsAtHeld(db, held, vs, n);
    GoodPrefixIs(db, vs, n);
  }

  /**
   * When some records are not read, because the read failed or a record did not decode, a recorded
   * migration is carried out again if and only if the first such one that was not read is within the
   * limit, everything before it succeeds and is recorded, and it succeeds too. It is then the last to
   * be carried out: its record is refused and the run ends there.
   */
  lemma UnreadableRecordsRerunIff(db: Database, sorted: seq<Step>, applied: set<Version>, records: set<Version>,
                                  limit: int, n: nat)
    requires DistinctVersions(sorted)
    ensures var vs := Pending(sorted, applied); var p := FirstHeld(vs, records);
      var o := RunFrom(db, sorted, applied, records, limit, 0, n);
      && ((exists v :: v in records && v in o.carriedOut) <==> Reruns(db, vs, records, n, limit))
      && (Reruns(db, vs, records, n, limit) ==>
        o == Outcome(With(records, vs, p), vs[..p + 1], RecordFailed(vs[p]), n + p + 1))
  {
    RunPasses(db, sorted, applied, records, limit, n);
    PassedReruns(db, Pending(sorted, applied), records, n, limit);
  }

  lemma PassedReruns(db: Database, vs: seq<Version>, held: set<Version>, n: nat, limit: int)
    ensures var p := FirstHeld(vs, held); var o := Passed(Holding(db, held), vs, held, n, limit);
      && ((exists v :: v in held && v in o.carriedOut) <==> Reruns(db, vs, held, n, limit))
      && (Reruns(db, vs, held, n, limit) ==>
        o == Outcome(With(held, vs, p), vs[..p + 1], RecordFailed(vs[p]), n + p + 1))
  {
    var h := Holding(db, held);
    var m := Reach(h, vs, n, limit);
    StopsAtHeldIff(db, vs, held, n, limit);
    HeldIsLast(vs, held, m, StopsRefused(h, vs, n, limit));
  }

  /** Of what a run gets through and the one it may stop at, only that one can be held already. */
  lemma HeldIsLast(vs: seq<Version>, held: set<Version>, m: nat, stopped: bool)
    requires m <= FirstHeld(vs, held) && (stopped ==> m < |vs|)
    ensures (exists v :: v in held && v in Through(vs, m, stopped)) <==> stopped && m == FirstHeld(vs, held)
    ensures stopped ==> Through(vs, m, stopped) == vs[..m + 1]
  {
    if stopped {
      assert Through(vs, m, stopped)[m] == vs[m];
    }
  }

  /**
   * A record that does not decode: the second of three migrations is carried out a second time, its
   * record is refused, and the third, which is still to do, is not reached.
   */
  lemma ARecordedMigrationRunsAgain()
    ensures var sorted := [Step("1", ""), Step("2", ""), Step("3", "")];
      DistinctVersions(sorted) &&
      RunFrom(Database((_, _) => true, (_, _) => true), sorted, {"1"}, {"1", "2"}, 10, 0, 0)
      == Outcome({"1", "2"}, ["2"], RecordFailed("2"), 1)
  {
    var sorted := [Step("1", ""), Step("2", ""), Step("3", "")];
    assert "1"[0] != "2"[0] && "1"[0] != "3"[0] && "2"[0] != "3"[0];
    assert sorted[1..][0] == sorted[1];
  }
}
