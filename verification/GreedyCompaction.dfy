/** Why heaviest first is right, and exactly when: the first pass elides as few results as possible. */
module GreedyCompaction {
  import opened Conversation
  import opened Eligibility
  import opened Sorting
  import opened Compaction
  import opened Text

  // ---- a list of savings ----------------------------------------------------------------------

  /** The first n savings together. */
  function Prefix(v: seq<int>, n: nat): int
    requires n <= |v|
  {
    if n == 0 then 0 else Prefix(v, n - 1) + v[n - 1]
  }

  /** Those of the first n savings that are picked. */
  function Picked(v: seq<int>, pick: seq<bool>, n: nat): int
    requires n <= |v| == |pick|
  {
    if n == 0 then 0 else Picked(v, pick, n - 1) + if pick[n - 1] then v[n - 1] else 0
  }

  function Count(pick: seq<bool>, n: nat): (c: nat)
    requires n <= |pick|
    ensures c <= n
  {
    if n == 0 then 0 else Count(pick, n - 1) + if pick[n - 1] then 1 else 0
  }

  /** No saving worth having comes after a smaller one. */
  predicate Falling(v: seq<int>) { forall i, j :: 0 <= i < j < |v| && v[j] > 0 ==> v[i] >= v[j] }

  /** When savings fall, no choice saves more than as many taken from the front, or fewer. */
  lemma {:induction false} FrontSavesMost(v: seq<int>, pick: seq<bool>, n: nat) returns (k: nat)
    requires n <= |v| == |pick| && Falling(v)
    ensures k <= Count(pick, n) && Picked(v, pick, n) <= Prefix(v, k)
  {
    if n == 0 {
      k := 0;
    } else {
      k := FrontSavesMost(v, pick, n - 1);
      if pick[n - 1] && v[n - 1] > 0 {
        assert v[k] >= v[n - 1];
        k := k + 1;
      }
    }
  }

  /** A saving that rises is larger than some one before it, and no smaller than any before that. */
  predicate Rise(v: seq<int>, p: nat, j: nat) {
    p < j < |v| && v[j] > 0 && v[p] < v[j] && forall q :: 0 <= q < p ==> v[q] >= v[j]
  }

  lemma FirstRise(v: seq<int>) returns (p: nat, j: nat)
    requires !Falling(v)
    ensures Rise(v, p, j)
  {
    var i: nat;
    i, j :| 0 <= i < j < |v| && v[j] > 0 && v[i] < v[j];
    p := 0;
    while v[p] >= v[j]
      invariant p <= i && forall q :: 0 <= q < p ==> v[q] >= v[j]
      decreases i - p
    {
      p := p + 1;
    }
  }

  lemma {:induction false} PrefixGrows(v: seq<int>, m: nat, n: nat)
    requires m <= n <= |v| && forall q :: 0 <= q < n ==> v[q] > 0
    ensures Prefix(v, m) <= Prefix(v, n)
    decreases n
  {
    if m < n {
      PrefixGrows(v, m, n - 1);
    }
  }

  // ---- sizes as savings -----------------------------------------------------------------------

  /** The savings along the order. */
  function Savings(ms: seq<Message>, order: seq<nat>, stub: string): seq<int>
    requires Indexes(order, ms)
  {
    seq(|order|, i requires 0 <= i < |order| => Saving(ms[order[i]], stub))
  }

  function Picks(order: seq<nat>, gone: set<nat>): seq<bool> {
    seq(|order|, i requires 0 <= i < |order| => order[i] in gone)
  }

  lemma NextSize(ms: seq<Message>, order: seq<nat>, k: nat, stub: string)
    requires Indexes(order, ms) && k < |order|
    ensures Size(ElideFirst(ms, order, k + 1, stub)) ==
            Size(ElideFirst(ms, order, k, stub)) - Savings(ms, order, stub)[k]
  {
    ElideOneMore(ms, order, k, stub);
  }

  lemma {:induction false} SizeOfFirst(ms: seq<Message>, order: seq<nat>, n: nat, stub: string)
    requires Indexes(order, ms) && n <= |order|
    ensures Size(ElideFirst(ms, order, n, stub)) == Size(ms) - Prefix(Savings(ms, order, stub), n)
  {
    hide ElideFirst, Size;
    if n == 0 {
      ElideNone(ms, order, stub);
    } else {
      SizeOfFirst(ms, order, n - 1, stub);
      NextSize(ms, order, n - 1, stub);
    }
  }

  lemma FirstStep(order: seq<nat>, n: nat, gone: set<nat>)
    requires 0 < n <= |order| && Distinct(order)
    ensures order[n - 1] !in First(order, n - 1)
    ensures if order[n - 1] in gone then gone * First(order, n) == gone * First(order, n - 1) + {order[n - 1]}
            else gone * First(order, n) == gone * First(order, n - 1)
  {
    assert First(order, n) == First(order, n - 1) + {order[n - 1]};
  }

  /** Stubbing one message more. */
  lemma ElideAnother(ms: seq<Message>, gone: set<nat>, i: nat, stub: string)
    requires i < |ms| && i !in gone
    ensures Size(Elide(ms, gone + {i}, stub)) == Size(Elide(ms, gone, stub)) - Saving(ms[i], stub)
  {
    var prev := Elide(ms, gone, stub);
    assert Elide(ms, gone + {i}, stub) == prev[i := Stubbed(ms[i], stub)];
    SizeUpdate(prev, i, Stubbed(ms[i], stub));
  }

  lemma {:induction false} SizeOfRestricted(ms: seq<Message>, order: seq<nat>, n: nat, gone: set<nat>, stub: string)
    requires Indexes(order, ms) && n <= |order|
    ensures Size(Elide(ms, gone * First(order, n), stub)) ==
            Size(ms) - Picked(Savings(ms, order, stub), Picks(order, gone), n)
  {
    if n == 0 {
      assert Elide(ms, gone * First(order, 0), stub) == ms;
    } else {
      SizeOfRestricted(ms, order, n - 1, gone, stub);
      FirstStep(order, n, gone);
      assert Picks(order, gone)[n - 1] == (order[n - 1] in gone);
      if order[n - 1] in gone {
        ElideAnother(ms, gone * First(order, n - 1), order[n - 1], stub);
      }
    }
  }

  lemma {:induction false} CountIsCardinality(order: seq<nat>, n: nat, gone: set<nat>)
    requires Distinct(order) && n <= |order|
    ensures Count(Picks(order, gone), n) == |gone * First(order, n)|
  {
    if n == 0 {
      assert gone * First(order, 0) == {};
    } else {
      CountIsCardinality(order, n - 1, gone);
      FirstStep(order, n, gone);
    }
  }

  /** Savings worth having never increase along the order. */
  predicate SavingsFall(ms: seq<Message>, order: seq<nat>, stub: string)
    requires Indexes(order, ms)
  {
    Falling(Savings(ms, order, stub))
  }

  /** Every set of eligible results that would fit is at least as large as what the first pass elides. */
  predicate Minimal(ms: seq<Message>, order: seq<nat>, target: int, gone: set<nat>, stub: string)
    requires Indexes(order, ms)
  {
    gone <= First(order, |order|) && Size(Elide(ms, gone, stub)) <= target ==>
      StopAt(ms, order, target, stub, 0) <= |gone|
  }

  /** Greedy is minimal, for every target, as soon as savings fall along its order. */
  lemma FallingSavingsAreMinimal(ms: seq<Message>, order: seq<nat>, target: int, gone: set<nat>, stub: string)
    requires Indexes(order, ms) && SavingsFall(ms, order, stub)
    ensures Minimal(ms, order, target, gone, stub)
  {
    if gone <= First(order, |order|) && Size(Elide(ms, gone, stub)) <= target {
      assert gone * First(order, |order|) == gone;
      SizeOfRestricted(ms, order, |order|, gone, stub);
      var k := FrontSavesMost(Savings(ms, order, stub), Picks(order, gone), |order|);
      CountIsCardinality(order, |order|, gone);
      SizeOfFirst(ms, order, k, stub);
      assert Size(ElideFirst(ms, order, k, stub)) <= target;
    }
  }

  // ---- the exact condition --------------------------------------------------------------------

  /** The front of the order, and then result j instead of the next. */
  function Skipping(order: seq<nat>, p: nat, j: nat): set<nat>
    requires p < j < |order|
  {
    First(order, p) + {order[j]}
  }

  lemma SkippingCount(order: seq<nat>, p: nat, j: nat)
    requires p < j < |order|
    ensures |Skipping(order, p, j)| <= p + 1 && Skipping(order, p, j) <= First(order, |order|)
  {
    FirstCount(order, p);
  }

  lemma {:induction false} FirstCount(order: seq<nat>, p: nat)
    requires p <= |order|
    ensures |First(order, p)| <= p
  {
    if p == 0 {
      assert First(order, 0) == {};
    } else {
      FirstCount(order, p - 1);
      assert First(order, p) == First(order, p - 1) + {order[p - 1]};
    }
  }

  /** At a rise, skipping to the larger saving beats any front as large. */
  lemma SkippingIsSmaller(ms: seq<Message>, order: seq<nat>, p: nat, j: nat, n: nat, stub: string)
    requires Indexes(order, ms) && Rise(Savings(ms, order, stub), p, j) && n <= p + 1
    ensures Size(ElideFirst(ms, order, n, stub)) > Size(Elide(ms, Skipping(order, p, j), stub))
  {
    SkippingSize(ms, order, p, j, stub);
    SizeOfFirst(ms, order, n, stub);
    if n <= p {
      PrefixGrows(Savings(ms, order, stub), n, p);
    }
  }

  lemma SkippingSize(ms: seq<Message>, order: seq<nat>, p: nat, j: nat, stub: string)
    requires Indexes(order, ms) && p < j < |order|
    ensures var v := Savings(ms, order, stub);
      Size(Elide(ms, Skipping(order, p, j), stub)) == Size(ms) - Prefix(v, p) - v[j]
  {
    assert order[j] !in First(order, p);
    ElideAnother(ms, First(order, p), order[j], stub);
    SizeOfFirst(ms, order, p, stub);
  }

  /** So there is a target the skipping set meets with fewer results than greedy needs. */
  lemma RiseIsNotMinimal(ms: seq<Message>, order: seq<nat>, p: nat, j: nat, stub: string)
    requires Indexes(order, ms) && Rise(Savings(ms, order, stub), p, j)
    ensures !Minimal(ms, order, Size(Elide(ms, Skipping(order, p, j), stub)), Skipping(order, p, j), stub)
  {
    var target := Size(Elide(ms, Skipping(order, p, j), stub));
    SkippingCount(order, p, j);
    forall n | 0 <= n <= p + 1
      ensures Size(ElideFirst(ms, order, n, stub)) > target
    {
      SkippingIsSmaller(ms, order, p, j, n, stub);
    }
    var n := StopAt(ms, order, target, stub, 0);
    assert n == |order| || Size(ElideFirst(ms, order, n, stub)) <= target;
  }

  /**
   * The exact condition, for any results: heaviest first elides as few as any set that fits, for
   * every target, if and only if savings worth having fall along its order.
   */
  lemma GreedyIsMinimalIff(ms: seq<Message>, order: seq<nat>, stub: string)
    requires Indexes(order, ms)
    ensures SavingsFall(ms, order, stub) <==>
            forall target: int, gone: set<nat> :: Minimal(ms, order, target, gone, stub)
  {
    if SavingsFall(ms, order, stub) {
      forall target: int, gone: set<nat>
        ensures Minimal(ms, order, target, gone, stub)
      {
        FallingSavingsAreMinimal(ms, order, target, gone, stub);
      }
    } else {
      var p, j := FirstRise(Savings(ms, order, stub));
      RiseIsNotMinimal(ms, order, p, j, stub);
    }
  }

  // ---- when the condition holds ---------------------------------------------------------------

  lemma {:induction false} DigitsGrow(a: nat, b: nat)
    requires a <= b
    ensures a - DigitCount(a) <= b - DigitCount(b)
    decreases b - a
  {
    if a < b {
      DigitsGrow(a, b - 1);
      DigitCountStep(b - 1);
    }
  }

  lemma SavingOf(m: Message, stub: string)
    ensures Saving(m, stub) == |m.content| - DigitCount(|m.content|) - |stub| - 16
  {
  }

  /** Eligible results with ids of one length and no calls of their own. */
  predicate Plain(ms: seq<Message>, opt: Options, idLength: nat) {
    forall i :: 0 <= i < |ms| && Eligible(ms, opt.keepHeadTurns, opt.keepTailTurns, i) ==>
      |ms[i].toolCallID| == idLength && ms[i].toolCalls == []
  }

  lemma PlainSavingsFall(ms: seq<Message>, opt: Options, idLength: nat)
    requires Plain(ms, opt, idLength)
    ensures SavingsFall(ms, OrderFor(ms, opt), StubOf(opt))
  {
    var order := OrderFor(ms, opt);
    OrderIsRight(ms, opt.keepHeadTurns, opt.keepTailTurns);
    forall i, j | 0 <= i < j < |order|
      ensures Saving(ms[order[i]], StubOf(opt)) >= Saving(ms[order[j]], StubOf(opt))
    {
      assert order[i] in order && order[j] in order;
      assert ByWeight(ms)(order[i], order[j]);
      DigitsGrow(|ms[order[j]].content|, |ms[order[i]].content|);
      SavingOf(ms[order[i]], StubOf(opt));
      SavingOf(ms[order[j]], StubOf(opt));
    }
  }

  /**
   * With ids of one length, the first pass elides the fewest results any set of eligible results
   * could elide and fit.
   */
  lemma FewestElisions(ms: seq<Message>, opt: Options, idLength: nat, gone: set<nat>)
    requires Plain(ms, opt, idLength)
    requires forall i :: i in gone ==> i < |ms| && Eligible(ms, opt.keepHeadTurns, opt.keepTailTurns, i)
    requires Size(Elide(ms, gone, StubOf(opt))) <= opt.targetChars
    ensures ResultsElided(ms, opt) <= |gone|
  {
    var order := OrderFor(ms, opt);
    PlainSavingsFall(ms, opt, idLength);
    FallingSavingsAreMinimal(ms, order, opt.targetChars, gone, StubOf(opt));
    OrderIsRight(ms, opt.keepHeadTurns, opt.keepTailTurns);
    forall i | i in gone
      ensures i in First(order, |order|)
    {
      assert i in order;
    }
  }

  // ---- a conversation where heaviest first takes too much -------------------------------------

  function Letters(n: nat): string { seq(n, _ => 'x') }

  /** One turn, two answered calls: the first with a long id and little to save, the second the reverse. */
  function LongID(): seq<Message> {
    var heavy, light := ToolCall(Letters(100), "t", "{}"), ToolCall("b", "t", "{}");
    [UserMessage("go"), AssistantTurn([heavy, light]), ToolAnswer(heavy, Letters(30)), ToolAnswer(light, Letters(40))]
  }

  /** A target the second result alone would meet: its stub saves 21 characters, the first's only 11. */
  function LongIDOptions(): Options { Options(Size(LongID()) - 21, 0, 0, false, "s") }

  lemma LongIDTurns()
    ensures WellFormed(LongID()) && Size(LongID()) > 21
    ensures forall i :: 0 <= i < 4 ==> (Eligible(LongID(), 0, 0, i) <==> i == 2 || i == 3)
  {
    var ms := LongID();
    assert USER[0] != TOOL[0] && ASSISTANT[0] != TOOL[0];
    BlockTurn(ms[1].toolCalls, [ms[2], ms[3]]);
    UserTurn("go");
    TurnsConcat([ms[0]], [ms[1]] + [ms[2], ms[3]]);
    assert [ms[0]] + ([ms[1]] + [ms[2], ms[3]]) == ms;
    TurnsNotSystem(ms);
    assert Size(ms) == MessageChars(ms[0]) + (MessageChars(ms[1]) + (MessageChars(ms[2]) + Size(ms[3..]))) by {
      assert ms[1..][1..] == ms[2..] && ms[2..][1..] == ms[3..];
    }
  }

  lemma LongIDOrder()
    ensures OrderFor(LongID(), LongIDOptions()) == [2, 3]
  {
    var ms, order := LongID(), OrderFor(LongID(), LongIDOptions());
    OrderIsRight(ms, 0, 0);
    LongIDTurns();
    assert Weight(ms, 2) == 130 && Weight(ms, 3) == 41;
    forall k | 0 <= k < |order|
      ensures order[k] == 2 || order[k] == 3
    {
      assert order[k] in order;
    }
    TwoInOrder(order, ByWeight(ms), 2, 3);
  }

  lemma TwoInOrder(order: seq<nat>, before: (nat, nat) -> bool, i: nat, j: nat)
    requires Sorted(order, before) && Distinct(order) && i != j && !before(j, i)
    requires i in order && j in order && forall k :: 0 <= k < |order| ==> order[k] == i || order[k] == j
    ensures order == [i, j]
  {
    var a :| 0 <= a < |order| && order[a] == i;
    var b :| 0 <= b < |order| && order[b] == j;
    assert a < b && order[0] == i && order[|order| - 1] == j;
    assert order[1] == j;
  }

  lemma LongIDSavings()
    ensures Saving(LongID()[2], "s") == 11 && Saving(LongID()[3], "s") == 21
  {
    SavingOf(LongID()[2], "s");
    SavingOf(LongID()[3], "s");
    assert DigitCount(30) == 2 && DigitCount(40) == 2;
  }

  /** Where the second result alone would do, the first is taken too. */
  lemma BothAreTaken(ms: seq<Message>, stub: string)
    requires |ms| == 4 && Saving(ms[2], stub) == 11 && Saving(ms[3], stub) == 21
    ensures Indexes([2, 3], ms) && !SavingsFall(ms, [2, 3], stub)
    ensures StopAt(ms, [2, 3], Size(ms) - 21, stub, 0) == 2
    ensures Size(Elide(ms, {3}, stub)) == Size(ms) - 21
  {
    hide Size, StopAt, ElideFirst;
    var order, v := [2, 3], Savings(ms, [2, 3], stub);
    assert v[0] < v[1];
    ElideNone(ms, order, stub);
    NextSize(ms, order, 0, stub);
    assert Elide(ms, {}, stub) == ms && {} + {3} == {3};
    ElideAnother(ms, {}, 3, stub);
    StopsAfterTwo(ms, order, Size(ms) - 21, stub);
  }

  lemma StopsAfterTwo(ms: seq<Message>, order: seq<nat>, target: int, stub: string)
    requires |order| == 2 && Size(ElideFirst(ms, order, 0, stub)) > target &&
             Size(ElideFirst(ms, order, 1, stub)) > target
    ensures StopAt(ms, order, target, stub, 0) == 2
  {
  }

  /**
   * Ids of different length put weight and saving at odds: in this well-formed conversation one
   * elision would have met the target, and heaviest first makes two.
   */
  lemma HeaviestFirstTakesTooMuch()
    ensures var ms, opt := LongID(), LongIDOptions();
      && WellFormed(ms) && !NothingToDo(ms, opt)
      && Eligible(ms, opt.keepHeadTurns, opt.keepTailTurns, 3) && Size(Elide(ms, {3}, StubOf(opt))) <= opt.targetChars
      && ResultsElided(ms, opt) == 2
      && !SavingsFall(ms, OrderFor(ms, opt), StubOf(opt))
  {
    LongIDTurns();
    LongIDOrder();
    LongIDSavings();
    BothAreTaken(LongID(), "s");
  }
}
