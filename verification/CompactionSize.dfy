/** When compaction makes a conversation larger, and when compacting it again changes nothing. */
module CompactionSize {
  import opened Conversation
  import opened Eligibility
  import opened Compaction
  import opened CompactionFacts
  import opened GreedyCompaction

  // ---- the argument pass as a saving ----------------------------------------------------------

  /** What stubbing every spent argument buys; never negative. */
  function ArgumentSavings(ms: seq<Message>, ids: set<string>): int {
    if ms == [] then 0
    else (MessageChars(ms[0]) - MessageChars(StubArguments(ms[0], ids))) + ArgumentSavings(ms[1..], ids)
  }

  lemma {:induction false} ArgumentsOnlySave(ms: seq<Message>, ids: set<string>)
    ensures ArgumentSavings(ms, ids) >= 0
  {
    if ms != [] {
      StubArgumentsShape(ms[0], ids);
      ArgumentsOnlySave(ms[1..], ids);
    }
  }

  lemma {:induction false} SizeOfAllStubbed(ms: seq<Message>, ids: set<string>)
    ensures Size(UpTo(ms, ids, |ms|)) == Size(ms) - ArgumentSavings(ms, ids)
  {
    if ms != [] {
      assert UpTo(ms, ids, |ms|)[1..] == UpTo(ms[1..], ids, |ms[1..]|);
      SizeOfAllStubbed(ms[1..], ids);
    }
  }

  /** Two conversations whose messages have the same roles and the same calls. */
  predicate SameCalls(a: seq<Message>, b: seq<Message>) {
    |a| == |b| && forall i :: 0 <= i < |a| ==> a[i].role == b[i].role && a[i].toolCalls == b[i].toolCalls
  }

  lemma {:induction false} SavingsOfSameCalls(a: seq<Message>, b: seq<Message>, ids: set<string>)
    requires SameCalls(a, b)
    ensures ArgumentSavings(a, ids) == ArgumentSavings(b, ids)
    decreases |a|
  {
    if a != [] {
      SavingsOfSameCalls(a[1..], b[1..], ids);
    }
  }

  /** The second pass saves at most everything, and everything when it never meets the target. */
  lemma SecondPassSaves(ms: seq<Message>, ids: set<string>, target: int)
    ensures var out, all := Size(StubFrom(ms, ids, target, 0)), Size(ms) - ArgumentSavings(ms, ids);
      all <= out <= Size(ms) && (out > target ==> out == all)
  {
    var out := StubFrom(ms, ids, target, 0);
    StubFromPointwise(ms, ids, target, 0);
    StubFromShrinks(ms, ids, target, 0);
    SizeOfAllStubbed(ms, ids);
    if Size(out) > target {
      assert out == UpTo(ms, ids, |ms|);
    }
    forall i | 0 <= i < |ms|
      ensures MessageChars(UpTo(ms, ids, |ms|)[i]) <= MessageChars(out[i])
    {
      StubArgumentsShape(ms[i], ids);
    }
    SizeMonotone(UpTo(ms, ids, |ms|), out);
  }

  lemma {:induction false} SizeMonotone(a: seq<Message>, b: seq<Message>)
    requires |a| == |b| && forall i :: 0 <= i < |a| ==> MessageChars(a[i]) <= MessageChars(b[i])
    ensures Size(a) <= Size(b)
    decreases |a|
  {
    if a != [] {
      SizeMonotone(a[1..], b[1..]);
    }
  }

  // ---- growth ---------------------------------------------------------------------------------

  /** Everything the second pass may save once every eligible result is gone. */
  function AllArguments(ms: seq<Message>, opt: Options): int {
    if opt.elideToolCallArgs then ArgumentSavings(ms, ElidedIDs(ms, OrderFor(ms, opt), |OrderFor(ms, opt)|)) else 0
  }

  /** With the first m results elided the target is still missed. */
  predicate Misses(ms: seq<Message>, order: seq<nat>, target: int, stub: string, m: nat)
    requires Indexes(order, ms) && m <= |order|
  {
    Size(ms) - Prefix(Savings(ms, order, stub), m) > target
  }

  /** No number of results elided in order meets the target. */
  predicate AllMiss(ms: seq<Message>, order: seq<nat>, target: int, stub: string)
    requires Indexes(order, ms)
  {
    forall m :: 0 <= m <= |order| ==> Misses(ms, order, target, stub, m)
  }

  predicate NeverFits(ms: seq<Message>, opt: Options) { AllMiss(ms, OrderFor(ms, opt), opt.targetChars, StubOf(opt)) }

  lemma StopsAtMiss(ms: seq<Message>, order: seq<nat>, target: int, stub: string, m: nat)
    requires Indexes(order, ms) && m <= |order|
    ensures var n := StopAt(ms, order, target, stub, 0);
      && (m == n ==> Size(ElideFirst(ms, order, n, stub)) == Size(ms) - Prefix(Savings(ms, order, stub), n))
      && (m < n ==> Misses(ms, order, target, stub, m))
      && (n < |order| ==> !Misses(ms, order, target, stub, n))
  {
    var n := StopAt(ms, order, target, stub, 0);
    SizeOfFirst(ms, order, m, stub);
    SizeOfFirst(ms, order, n, stub);
  }

  lemma AllMissIff(ms: seq<Message>, order: seq<nat>, target: int, stub: string)
    requires Indexes(order, ms)
    ensures var n := StopAt(ms, order, target, stub, 0);
      && Size(ElideFirst(ms, order, n, stub)) == Size(ms) - Prefix(Savings(ms, order, stub), n)
      && (AllMiss(ms, order, target, stub) <==> Size(ElideFirst(ms, order, n, stub)) > target)
      && (AllMiss(ms, order, target, stub) ==> n == |order|)
  {
    var n := StopAt(ms, order, target, stub, 0);
    StopsAtMiss(ms, order, target, stub, n);
    if Misses(ms, order, target, stub, n) {
      forall m | 0 <= m <= |order|
        ensures Misses(ms, order, target, stub, m)
      {
        StopsAtMiss(ms, order, target, stub, m);
      }
    }
  }

  lemma NeverFitsIff(ms: seq<Message>, opt: Options)
    ensures NeverFits(ms, opt) <==> Size(AfterResults(ms, opt)) > opt.targetChars
    ensures NeverFits(ms, opt) ==> ResultsElided(ms, opt) == |OrderFor(ms, opt)|
    ensures Size(AfterResults(ms, opt)) ==
            Size(ms) - Prefix(Savings(ms, OrderFor(ms, opt), StubOf(opt)), ResultsElided(ms, opt))
  {
    AllMissIff(ms, OrderFor(ms, opt), opt.targetChars, StubOf(opt));
  }

  /**
   * Exactly when compaction makes a conversation larger: there was something to do, no number of
   * results elided heaviest first meets the target, and all the stubs together, less all the
   * arguments that may go with them, cost more than they replace.
   */
  lemma CompactionGrowsIff(ms: seq<Message>, opt: Options)
    ensures var v := Savings(ms, OrderFor(ms, opt), StubOf(opt));
      Size(Compacted(ms, opt)) > Size(ms) <==>
      !NothingToDo(ms, opt) && NeverFits(ms, opt) && Prefix(v, |v|) + AllArguments(ms, opt) < 0
  {
    if !NothingToDo(ms, opt) {
      var mid := AfterResults(ms, opt);
      NeverFitsIff(ms, opt);
      SecondPassSaves(mid, IDsElided(ms, opt), opt.targetChars);
      SavingsOfSameCalls(mid, ms, IDsElided(ms, opt));
      ArgumentsOnlySave(ms, IDsElided(ms, opt));
    }
  }

  lemma {:induction false} PrefixNotNegative(v: seq<int>, n: nat)
    requires n <= |v| && forall i :: 0 <= i < |v| ==> v[i] >= 0
    ensures Prefix(v, n) >= 0
  {
    if n > 0 {
      PrefixNotNegative(v, n - 1);
    }
  }

  /** In particular it never does when every eligible result is at least as long as its stub. */
  lemma CompactionShrinks(ms: seq<Message>, opt: Options)
    requires forall i :: 0 <= i < |ms| && Eligible(ms, opt.keepHeadTurns, opt.keepTailTurns, i) ==>
             Saving(ms[i], StubOf(opt)) >= 0
    ensures Size(Compacted(ms, opt)) <= Size(ms)
  {
    var order := OrderFor(ms, opt);
    var v := Savings(ms, order, StubOf(opt));
    OrderIsRight(ms, opt.keepHeadTurns, opt.keepTailTurns);
    forall i | 0 <= i < |v|
      ensures v[i] >= 0
    {
      assert order[i] in order;
    }
    PrefixNotNegative(v, |v|);
    ArgumentsOnlySave(ms, ElidedIDs(ms, order, |order|));
    CompactionGrowsIff(ms, opt);
  }

  /** A short result grows: its stub, with the count of what was removed, is longer than it was. */
  lemma ShortResultsGrow(m: Message, stub: string)
    ensures Saving(m, stub) < 0 <==> |m.content| < |StubText(stub, |m.content|)|
  {
    SavingOf(m, stub);
  }

  // ---- a conversation that grows --------------------------------------------------------------

  /** One answered call whose result is two characters long. */
  function ShortResult(): seq<Message> {
    var call := ToolCall("c", "t", "{}");
    [UserMessage("go"), AssistantTurn([call]), ToolAnswer(call, "ok")]
  }

  /** A target it already misses by far. */
  const ONE_CHARACTER := Options(1, 0, 0, false, "")

  lemma ShortResultIsEligible()
    ensures WellFormed(ShortResult())
    ensures forall i :: 0 <= i < 3 ==> (Eligible(ShortResult(), 0, 0, i) <==> i == 2)
  {
    var ms := ShortResult();
    assert USER[0] != TOOL[0] && ASSISTANT[0] != TOOL[0];
    BlockTurn(ms[1].toolCalls, [ms[2]]);
    UserTurn("go");
    TurnsConcat([ms[0]], [ms[1]] + [ms[2]]);
    assert [ms[0]] + ([ms[1]] + [ms[2]]) == ms;
    TurnsNotSystem(ms);
  }

  /** Eliding "ok" leaves its stub and a count in its place, and the conversation is longer for it. */
  lemma CompactionCanGrow()
    ensures WellFormed(ShortResult()) && Size(Compacted(ShortResult(), ONE_CHARACTER)) > Size(ShortResult())
  {
    ShortResultIsEligible();
    OneShortResultGrows(ShortResult(), ONE_CHARACTER, 2);
  }

  lemma OneShortResultGrows(ms: seq<Message>, opt: Options, i: nat)
    requires !NothingToDo(ms, opt) && !opt.elideToolCallArgs
    requires i < |ms| && |ms[i].content| < |StubOf(opt)|
    requires forall j :: 0 <= j < |ms| ==> (Eligible(ms, opt.keepHeadTurns, opt.keepTailTurns, j) <==> j == i)
    ensures Size(Compacted(ms, opt)) > Size(ms)
  {
    var order := OrderFor(ms, opt);
    OnlyOneInOrder(ms, opt, i);
    ShortResultsGrow(ms[i], StubOf(opt));
    var v := Savings(ms, order, StubOf(opt));
    assert Prefix(v, 0) == 0 && Prefix(v, 1) == v[0] < 0;
    forall m | 0 <= m <= |order|
      ensures Misses(ms, order, opt.targetChars, StubOf(opt), m)
    {
      assert m == 0 || m == 1;
    }
    CompactionGrowsIff(ms, opt);
  }

  lemma OnlyOneInOrder(ms: seq<Message>, opt: Options, i: nat)
    requires i < |ms|
    requires forall j :: 0 <= j < |ms| ==> (Eligible(ms, opt.keepHeadTurns, opt.keepTailTurns, j) <==> j == i)
    ensures OrderFor(ms, opt) == [i]
  {
    var order := OrderFor(ms, opt);
    OrderIsRight(ms, opt.keepHeadTurns, opt.keepTailTurns);
    assert i in order;
    forall k | 0 <= k < |order|
      ensures order[k] == i
    {
      assert order[k] in order;
    }
    assert order[0] == i == order[|order| - 1];
  }
}
