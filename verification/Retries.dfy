/** Attempts up to the first that fails, and those that follow it at the same migration. */
module Retries {
  import opened Wrappers
  import opened Migration
  import opened Batches

  // ---- up to the first failure ----------------------------------------------------------------

  /** Two runs after each other have the room of one. */
  predicate AddsUp(limit: int, rest: int, total: int) { Room(total) == Room(limit) + Room(rest) }

  lemma BatchArithmetic(k: nat, limit: int)
    requires k > 0
    ensures AddsUp((k - 1) * limit, limit, k * limit)
  {
    assert k * limit == limit + (k - 1) * limit;
    if limit < 0 {
      assert (k - 1) * limit <= 0;
    }
  }

  lemma {:induction false} GoodPrefixDrop(db: Database, vs: seq<Version>, n: nat, i: nat)
    requires i <= GoodPrefix(db, vs, n)
    ensures GoodPrefix(db, vs[i..], n + i) == GoodPrefix(db, vs, n) - i
    decreases i
  {
    if i > 0 {
      FirstIsGood(db, vs, n);
      hide GoodPrefix;
      GoodPrefixDrop(db, vs[1..], n + 1, i - 1);
      assert vs[1..][i - 1..] == vs[i..];
    } else {
      assert vs[0..] == vs;
    }
  }

  lemma FirstIsGood(db: Database, vs: seq<Version>, n: nat)
    requires GoodPrefix(db, vs, n) > 0
    ensures vs != [] && GoodPrefix(db, vs[1..], n + 1) == GoodPrefix(db, vs, n) - 1
  {
  }

  lemma {:induction false} SettledWhileGood(db: Database, vs: seq<Version>, n: nat, j: nat)
    requires j <= GoodPrefix(db, vs, n)
    ensures Settled(db, vs, 0, n, j) == j && Log(db, vs, 0, n, j) == vs[..j]
  {
    if j > 0 {
      SettledWhileGood(db, vs, n, j - 1);
      GoodPrefixIs(db, vs, n);
      assert Good(db, n + (j - 1), vs[j - 1]);
      assert vs[..j - 1] + [vs[j - 1]] == vs[..j];
    }
  }

  /** How many attempts a run makes that starts with i of them already good. */
  lemma MadeWhileGood(db: Database, vs: seq<Version>, n: nat, i: nat, limit: int)
    requires i <= GoodPrefix(db, vs, n)
    ensures var g := GoodPrefix(db, vs, n);
      Made(db, vs, i, n + i, limit) ==
      Least(Room(limit), g - i) + if g < |vs| && Room(limit) > g - i then 1 else 0
  {
    hide Settled, Log, Made, GoodPrefix, Carried;
    RunIsItsAttempts(db, vs, i, n + i, limit);
    GoodPrefixDrop(db, vs, n, i);
  }

  // ---- after it -------------------------------------------------------------------------------

  /** How many of k runs have room for more than the first g attempts of all. */
  function Arrivals(g: nat, limit: int, k: nat): nat {
    if k == 0 then 0 else Arrivals(g, limit, k - 1) + if Room(k * limit) > g then 1 else 0
  }

  lemma {:induction false} ArrivalsIff(g: nat, limit: int, k: nat)
    ensures Arrivals(g, limit, k) > 0 <==> Room(k * limit) > g
  {
    if k == 0 {
      assert k * limit == 0;
    } else {
      ArrivalsIff(g, limit, k - 1);
      BatchArithmetic(k, limit);
    }
  }

  /** The i-th attempt after the first failure, if it is at the same migration, succeeds and is recorded. */
  predicate Mended(db: Database, vs: seq<Version>, n: nat, i: nat) {
    var g := GoodPrefix(db, vs, n);
    g < |vs| && Good(db, n + g + i, vs[g])
  }

  /** The i-th attempt after the first failure, if it is at the same migration, carries it out. */
  predicate Redone(db: Database, vs: seq<Version>, n: nat, i: nat) {
    var g := GoodPrefix(db, vs, n);
    g < |vs| && db.up(n + g + i, vs[g])
  }

  /** The first attempt fails, and so do those before the i-th. */
  predicate Stuck(db: Database, vs: seq<Version>, n: nat, i: nat) {
    forall h :: 0 <= h < i ==> !Mended(db, vs, n, h)
  }

  lemma FirstFails(db: Database, vs: seq<Version>, n: nat)
    ensures !Mended(db, vs, n, 0)
  {
    GoodPrefixIs(db, vs, n);
  }

  /** One more attempt at the migration that fails first. */
  lemma AnotherTry(db: Database, vs: seq<Version>, n: nat, i: nat)
    requires GoodPrefix(db, vs, n) < |vs| && Settled(db, vs, 0, n, GoodPrefix(db, vs, n) + i) == GoodPrefix(db, vs, n)
    ensures var g := GoodPrefix(db, vs, n);
      && Settled(db, vs, 0, n, g + (i + 1)) == g + (if Mended(db, vs, n, i) then 1 else 0)
      && Log(db, vs, 0, n, g + (i + 1)) == Log(db, vs, 0, n, g + i) + if Redone(db, vs, n, i) then [vs[g]] else []
  {
    assert n + (GoodPrefix(db, vs, n) + (i + 1)) - 1 == n + GoodPrefix(db, vs, n) + i;
  }

  lemma {:induction false} SettledStuck(db: Database, vs: seq<Version>, n: nat, i: nat)
    requires GoodPrefix(db, vs, n) < |vs| && Stuck(db, vs, n, i)
    ensures Settled(db, vs, 0, n, GoodPrefix(db, vs, n) + i) == GoodPrefix(db, vs, n)
    decreases i
  {
    var g := GoodPrefix(db, vs, n);
    if i == 0 {
      SettledWhileGood(db, vs, n, g);
    } else {
      SettledStuck(db, vs, n, i - 1);
      AnotherTry(db, vs, n, i - 1);
    }
  }

  /** How many attempts are made by runs with room for r when the first failure is met so often. */
  function Met(db: Database, vs: seq<Version>, n: nat, r: nat, arrivals: nat): nat {
    var g := GoodPrefix(db, vs, n);
    Least(r, g) + if g < |vs| then arrivals else 0
  }

  /** While the failing migration keeps failing, every run with room for it makes one attempt at it. */
  lemma {:induction false} AttemptsStuck(db: Database, vs: seq<Version>, n: nat, limit: int, k: nat)
    requires Stuck(db, vs, n, Arrivals(GoodPrefix(db, vs, n), limit, k))
    ensures Attempts(db, vs, n, limit, k) == Met(db, vs, n, Room(k * limit), Arrivals(GoodPrefix(db, vs, n), limit, k))
  {
    hide Made, Settled, Stuck, GoodPrefix;
    var g := GoodPrefix(db, vs, n);
    if k == 0 {
      assert k * limit == 0;
    } else {
      StuckBefore(db, vs, n, Arrivals(g, limit, k - 1), Arrivals(g, limit, k));
      AttemptsStuck(db, vs, n, limit, k - 1);
      ArrivalsIff(g, limit, k - 1);
      BatchArithmetic(k, limit);
      NextStuck(db, vs, n, Room((k - 1) * limit), Arrivals(g, limit, k - 1), limit);
    }
  }

  lemma StuckBefore(db: Database, vs: seq<Version>, n: nat, h: nat, i: nat)
    requires Stuck(db, vs, n, i) && h <= i
    ensures Stuck(db, vs, n, h)
  {
  }

  /** The next run on the way to the first failure. */
  lemma NextArrives(db: Database, vs: seq<Version>, n: nat, r: nat, limit: int)
    requires r <= GoodPrefix(db, vs, n)
    ensures var a := Met(db, vs, n, r, 0);
      a + Made(db, vs, Settled(db, vs, 0, n, a), n + a, limit) ==
      Met(db, vs, n, r + Room(limit), if r + Room(limit) > GoodPrefix(db, vs, n) then 1 else 0)
  {
    hide Log, Settled, Made, GoodPrefix;
    SettledWhileGood(db, vs, n, r);
    MadeWhileGood(db, vs, n, r, limit);
  }

  lemma NotMended(db: Database, vs: seq<Version>, n: nat, i: nat)
    requires Stuck(db, vs, n, i + 1)
    ensures !Mended(db, vs, n, i)
  {
  }

  /** The next run: on the way to the first failure, or at it again. */
  lemma NextStuck(db: Database, vs: seq<Version>, n: nat, r: nat, arrivals: nat, limit: int)
    requires arrivals > 0 <==> r > GoodPrefix(db, vs, n)
    requires var more := if r + Room(limit) > GoodPrefix(db, vs, n) then 1 else 0; Stuck(db, vs, n, arrivals + more)
    requires arrivals > 0 ==> limit > 0
    ensures var a := Met(db, vs, n, r, arrivals);
      a + Made(db, vs, Settled(db, vs, 0, n, a), n + a, limit) ==
      Met(db, vs, n, r + Room(limit), arrivals + if r + Room(limit) > GoodPrefix(db, vs, n) then 1 else 0)
  {
    hide Log, GoodPrefix;
    var g := GoodPrefix(db, vs, n);
    if r <= g {
      NextArrives(db, vs, n, r, limit);
    } else if g < |vs| {
      hide Settled, Stuck;
      SettledStuck(db, vs, n, arrivals);
      NotMended(db, vs, n, arrivals);
    } else {
      hide Settled;
      SettledWhileGood(db, vs, n, g);
    }
  }

  // ---- the first attempt that mends it ----------------------------------------------------------

  /** A run that gets to the first failure after i attempts at it makes one more, whatever comes of it. */
  lemma {:induction false} TriesAgain(db: Database, vs: seq<Version>, n: nat, limit: int, k: nat, i: nat)
    requires GoodPrefix(db, vs, n) < |vs| && i < Arrivals(GoodPrefix(db, vs, n), limit, k) && Stuck(db, vs, n, i)
    ensures Attempts(db, vs, n, limit, k) > GoodPrefix(db, vs, n) + i
  {
    hide Made, Settled, Stuck, GoodPrefix;
    var g := GoodPrefix(db, vs, n);
    if i < Arrivals(g, limit, k - 1) {
      TriesAgain(db, vs, n, limit, k - 1, i);
    } else {
      AttemptsStuck(db, vs, n, limit, k - 1);
      ArrivalsIff(g, limit, k - 1);
      BatchArithmetic(k, limit);
      OneMoreTry(db, vs, n, Room((k - 1) * limit), i, limit);
    }
  }

  lemma OneMoreTry(db: Database, vs: seq<Version>, n: nat, r: nat, i: nat, limit: int)
    requires GoodPrefix(db, vs, n) < |vs| && Stuck(db, vs, n, i) && r + Room(limit) > GoodPrefix(db, vs, n)
    requires i > 0 <==> r > GoodPrefix(db, vs, n)
    requires i > 0 ==> limit > 0
    ensures var a := Met(db, vs, n, r, i);
      a + Made(db, vs, Settled(db, vs, 0, n, a), n + a, limit) > GoodPrefix(db, vs, n) + i
  {
    hide Log, Settled, GoodPrefix, Stuck;
    if r <= GoodPrefix(db, vs, n) {
      NextArrives(db, vs, n, r, limit);
    } else {
      SettledStuck(db, vs, n, i);
    }
  }

  /** The attempts of one run with room for all that k runs have room for. */
  function One(db: Database, vs: seq<Version>, n: nat, limit: int, k: nat): nat { Made(db, vs, 0, n, k * limit) }

  /** One run with room for all of them attempts no more than they do, and the same while nothing is mended. */
  lemma OneRunTriesLess(db: Database, vs: seq<Version>, n: nat, limit: int, k: nat)
    ensures var g, one := GoodPrefix(db, vs, n), One(db, vs, n, limit, k);
      && one == Met(db, vs, n, Room(k * limit), if Room(k * limit) > g then 1 else 0)
      && one <= Attempts(db, vs, n, limit, k)
  {
    hide Stuck, Made, Attempts;
    var g := GoodPrefix(db, vs, n);
    MadeWhileGood(db, vs, n, 0, k * limit);
    ArrivalsIff(g, limit, k);
    if g < |vs| && Room(k * limit) > g {
      StuckAtFirst(db, vs, n);
      TriesAgain(db, vs, n, limit, k, 0);
    } else {
      NeverMended(db, vs, n, Arrivals(g, limit, k));
      AttemptsStuck(db, vs, n, limit, k);
    }
  }

  lemma StuckAtFirst(db: Database, vs: seq<Version>, n: nat)
    ensures Stuck(db, vs, n, 0) && Stuck(db, vs, n, 1)
  {
    FirstFails(db, vs, n);
  }

  lemma NeverMended(db: Database, vs: seq<Version>, n: nat, i: nat)
    requires GoodPrefix(db, vs, n) == |vs| || i == 0
    ensures Stuck(db, vs, n, i)
  {
  }

  /** The attempt that mends the first failure gets past it. */
  lemma Mends(db: Database, vs: seq<Version>, n: nat, i: nat)
    requires Stuck(db, vs, n, i) && Mended(db, vs, n, i)
    ensures var g := GoodPrefix(db, vs, n);
      Settled(db, vs, 0, n, g + i) == g && Settled(db, vs, 0, n, g + i + 1) == g + 1
  {
    SettledStuck(db, vs, n, i);
    AnotherTry(db, vs, n, i);
  }

  /** The migration that fails first, once for each of the first i attempts at it that carries it out. */
  function CarriedAgain(db: Database, vs: seq<Version>, n: nat, i: nat): seq<Version>
    requires GoodPrefix(db, vs, n) < |vs|
  {
    if i == 0 then []
    else CarriedAgain(db, vs, n, i - 1) + if Redone(db, vs, n, i - 1) then [vs[GoodPrefix(db, vs, n)]] else []
  }

  lemma {:induction false} LogStuck(db: Database, vs: seq<Version>, n: nat, i: nat)
    requires GoodPrefix(db, vs, n) < |vs| && Stuck(db, vs, n, i)
    ensures var g := GoodPrefix(db, vs, n);
      Log(db, vs, 0, n, g + i) == vs[..g] + CarriedAgain(db, vs, n, i)
    decreases i
  {
    var g := GoodPrefix(db, vs, n);
    if i == 0 {
      SettledWhileGood(db, vs, n, g);
      assert vs[..g] + [] == vs[..g];
    } else {
      LogStuck(db, vs, n, i - 1);
      SettledStuck(db, vs, n, i - 1);
      AnotherTry(db, vs, n, i - 1);
      Reassociate(vs[..g], CarriedAgain(db, vs, n, i - 1), if Redone(db, vs, n, i - 1) then [vs[g]] else []);
    }
  }

  /** While the failing migration keeps failing: what the attempts settle and carry out. */
  lemma MetStuck(db: Database, vs: seq<Version>, n: nat, r: nat, arrivals: nat)
    requires Stuck(db, vs, n, arrivals) && (arrivals > 0 <==> r > GoodPrefix(db, vs, n))
    ensures var g, a := GoodPrefix(db, vs, n), Met(db, vs, n, r, arrivals);
      && Settled(db, vs, 0, n, a) == Least(r, g)
      && Log(db, vs, 0, n, a) == vs[..Least(r, g)] + if g < |vs| then CarriedAgain(db, vs, n, arrivals) else []
  {
    var g := GoodPrefix(db, vs, n);
    if arrivals > 0 && g < |vs| {
      SettledStuck(db, vs, n, arrivals);
      LogStuck(db, vs, n, arrivals);
    } else {
      SettledWhileGood(db, vs, n, Least(r, g));
      assert vs[..Least(r, g)] + [] == vs[..Least(r, g)];
    }
  }

  // ---- k runs or one ------------------------------------------------------------------------------

  /** A run after the first to meet the failing migration gets it recorded. */
  predicate RetryRecords(db: Database, vs: seq<Version>, n: nat, limit: int, k: nat) {
    exists i :: 1 <= i < Arrivals(GoodPrefix(db, vs, n), limit, k) && Mended(db, vs, n, i)
  }

  /** A run after the first to meet the failing migration carries it out. */
  predicate RetrySucceeds(db: Database, vs: seq<Version>, n: nat, limit: int, k: nat) {
    exists i :: 1 <= i < Arrivals(GoodPrefix(db, vs, n), limit, k) && Redone(db, vs, n, i)
  }

  lemma {:induction false} FirstMended(db: Database, vs: seq<Version>, n: nat, hi: nat) returns (i: nat)
    ensures i <= hi && Stuck(db, vs, n, i) && (i < hi ==> i >= 1 && Mended(db, vs, n, i))
  {
    FirstFails(db, vs, n);
    if hi == 0 {
      i := 0;
    } else {
      i := FirstMended(db, vs, n, hi - 1);
      if i == hi - 1 && !Mended(db, vs, n, i) {
        i := hi;
      }
    }
  }

  lemma {:induction false} FirstRedone(db: Database, vs: seq<Version>, n: nat, hi: nat) returns (i: nat)
    requires hi > 0
    ensures 1 <= i <= hi && (forall h :: 1 <= h < i ==> !Redone(db, vs, n, h)) && (i < hi ==> Redone(db, vs, n, i))
    ensures Stuck(db, vs, n, i)
  {
    FirstFails(db, vs, n);
    if hi == 1 {
      i := 1;
    } else {
      i := FirstRedone(db, vs, n, hi - 1);
      if i == hi - 1 && !Redone(db, vs, n, i) {
        i := hi;
      }
    }
  }

  /** What one run settles and carries out. */
  lemma OneSettles(db: Database, vs: seq<Version>, n: nat, limit: int, k: nat)
    ensures var g, one := GoodPrefix(db, vs, n), One(db, vs, n, limit, k); var m := Least(Room(k * limit), g);
      && Settled(db, vs, 0, n, one) == m
      && Log(db, vs, 0, n, one) == vs[..m] +
           if g < |vs| then CarriedAgain(db, vs, n, if Room(k * limit) > g then 1 else 0) else []
  {
    hide Made, Settled, Log, CarriedAgain;
    var g := GoodPrefix(db, vs, n);
    OneRunTriesLess(db, vs, n, limit, k);
    StuckAtFirst(db, vs, n);
    MetStuck(db, vs, n, Room(k * limit), if Room(k * limit) > g then 1 else 0);
  }

  /** And what k runs do, while nothing mends the first failure. */
  lemma AllSettle(db: Database, vs: seq<Version>, n: nat, limit: int, k: nat)
    requires Stuck(db, vs, n, Arrivals(GoodPrefix(db, vs, n), limit, k))
    ensures var g, all := GoodPrefix(db, vs, n), Attempts(db, vs, n, limit, k); var m := Least(Room(k * limit), g);
      && Settled(db, vs, 0, n, all) == m
      && Log(db, vs, 0, n, all) == vs[..m] + if g < |vs| then CarriedAgain(db, vs, n, Arrivals(g, limit, k)) else []
  {
    hide Attempts, Settled, Log, CarriedAgain, Stuck;
    ArrivalsIff(GoodPrefix(db, vs, n), limit, k);
    AttemptsStuck(db, vs, n, limit, k);
    MetStuck(db, vs, n, Room(k * limit), Arrivals(GoodPrefix(db, vs, n), limit, k));
  }

  /** They get further than one run if and only if a retry gets the failing migration recorded. */
  lemma FurtherIff(db: Database, vs: seq<Version>, n: nat, limit: int, k: nat)
    ensures Settled(db, vs, 0, n, One(db, vs, n, limit, k)) != Settled(db, vs, 0, n, Attempts(db, vs, n, limit, k))
      <==> RetryRecords(db, vs, n, limit, k)
  {
    hide One, Attempts, Settled, Log, GoodPrefix, Stuck;
    var g := GoodPrefix(db, vs, n);
    var arrivals := Arrivals(g, limit, k);
    var i := FirstMended(db, vs, n, arrivals);
    OneSettles(db, vs, n, limit, k);
    if i < arrivals {
      TriesAgain(db, vs, n, limit, k, i);
      Mends(db, vs, n, i);
      SettledGrows(db, vs, 0, n, g + i + 1, Attempts(db, vs, n, limit, k));
    } else {
      AllSettle(db, vs, n, limit, k);
      StuckMeansNone(db, vs, n, limit, k);
    }
  }

  lemma StuckMeansNone(db: Database, vs: seq<Version>, n: nat, limit: int, k: nat)
    requires Stuck(db, vs, n, Arrivals(GoodPrefix(db, vs, n), limit, k))
    ensures !RetryRecords(db, vs, n, limit, k)
  {
  }

  /** They carry out more than one run if and only if a retry carries out the failing migration. */
  lemma MoreIff(db: Database, vs: seq<Version>, n: nat, limit: int, k: nat)
    ensures Log(db, vs, 0, n, One(db, vs, n, limit, k)) != Log(db, vs, 0, n, Attempts(db, vs, n, limit, k))
      <==> RetrySucceeds(db, vs, n, limit, k)
  {
    hide One, Attempts, Settled, Log, GoodPrefix, Stuck;
    var g := GoodPrefix(db, vs, n);
    var arrivals := Arrivals(g, limit, k);
    OneSettles(db, vs, n, limit, k);
    ArrivalsIff(g, limit, k);
    if g == |vs| || arrivals == 0 {
      NeverMended(db, vs, n, arrivals);
      AllSettle(db, vs, n, limit, k);
    } else {
      var i := FirstRedone(db, vs, n, arrivals);
      SameCarried(db, vs, n, 1, i);
      if i < arrivals {
        TriesAgain(db, vs, n, limit, k, i);
        RedoneIsLonger(db, vs, n, i);
        SettledGrows(db, vs, 0, n, g + i + 1, Attempts(db, vs, n, limit, k));
      } else {
        AllSettle(db, vs, n, limit, k);
      }
    }
  }

  lemma {:induction false} SameCarried(db: Database, vs: seq<Version>, n: nat, i: nat, j: nat)
    requires GoodPrefix(db, vs, n) < |vs| && i <= j && forall h :: i <= h < j ==> !Redone(db, vs, n, h)
    ensures CarriedAgain(db, vs, n, j) == CarriedAgain(db, vs, n, i)
    decreases j
  {
    if i < j {
      SameCarried(db, vs, n, i, j - 1);
    }
  }

  lemma RedoneIsLonger(db: Database, vs: seq<Version>, n: nat, i: nat)
    requires GoodPrefix(db, vs, n) < |vs| && Stuck(db, vs, n, i) && Redone(db, vs, n, i)
    ensures var g := GoodPrefix(db, vs, n);
      |Log(db, vs, 0, n, g + i + 1)| > |vs[..g] + CarriedAgain(db, vs, n, i)|
  {
    SettledStuck(db, vs, n, i);
    LogStuck(db, vs, n, i);
    AnotherTry(db, vs, n, i);
  }
}
