/** Compacting what was already compacted: exactly when it changes nothing more. */
module Recompaction {
  import opened Conversation
  import opened Eligibility
  import opened Compaction
  import opened CompactionFacts
  import opened CompactionSize
  import opened Text

  /** The message a missed target leaves in place of message i. */
  function Exhausted(ms: seq<Message>, opt: Options, i: nat): Message
    requires i < |ms|
  {
    var m := if Eligible(ms, opt.keepHeadTurns, opt.keepTailTurns, i) then Stubbed(ms[i], StubOf(opt)) else ms[i];
    StubArguments(m, Spent(ms, opt))
  }

  predicate Missed(ms: seq<Message>, opt: Options) {
    opt.targetChars > 0 && Size(Compacted(ms, opt)) > opt.targetChars
  }

  /** A missed target has taken everything it may, in every message. */
  lemma MissedPointwise(ms: seq<Message>, opt: Options)
    requires Missed(ms, opt)
    ensures !NothingToDo(ms, opt) && |Compacted(ms, opt)| == |ms|
    ensures forall i :: 0 <= i < |ms| ==> Compacted(ms, opt)[i] == Exhausted(ms, opt, i)
  {
    var mid, ids := AfterResults(ms, opt), IDsElided(ms, opt);
    StubFromShrinks(mid, ids, opt.targetChars, 0);
    StubFromPointwise(mid, ids, opt.targetChars, 0);
    EveryResultElided(ms, opt);
    forall i | 0 <= i < |ms|
      ensures Compacted(ms, opt)[i] == Exhausted(ms, opt, i)
    {
      if Elided(ms, opt, i) {
        ElidedIsEligible(ms, opt, i);
      }
      StubArgumentsShape(mid[i], Spent(ms, opt));
    }
  }

  // ---- the same results are eligible again ----------------------------------------------------

  predicate SameRoles(a: seq<Message>, b: seq<Message>) {
    |a| == |b| && forall i :: 0 <= i < |a| ==> a[i].role == b[i].role && (a[i].content == "" <==> b[i].content == "")
  }

  lemma {:induction false} UsersOfSameRoles(a: seq<Message>, b: seq<Message>, n: nat)
    requires SameRoles(a, b) && n <= |a|
    ensures UsersBefore(a, n) == UsersBefore(b, n)
  {
    if n > 0 {
      UsersOfSameRoles(a, b, n - 1);
    }
  }

  lemma EligibleOfSameRoles(a: seq<Message>, b: seq<Message>, head: int, tail: int, i: nat)
    requires SameRoles(a, b) && i < |a|
    ensures Eligible(a, head, tail, i) <==> Eligible(b, head, tail, i)
  {
    UsersOfSameRoles(a, b, |a|);
    UsersOfSameRoles(a, b, i + 1);
  }

  lemma CompactedSameRoles(ms: seq<Message>, opt: Options)
    requires Missed(ms, opt)
    ensures SameRoles(ms, Compacted(ms, opt))
  {
    MissedPointwise(ms, opt);
    forall i | 0 <= i < |ms|
      ensures ms[i].role == Compacted(ms, opt)[i].role && (ms[i].content == "" <==> Compacted(ms, opt)[i].content == "")
    {
      assert Compacted(ms, opt)[i] == Exhausted(ms, opt, i);
    }
  }

  // ---- stubbing twice -------------------------------------------------------------------------

  /** The result is exactly as long as the stub that replaces it. */
  predicate StubSized(m: Message, stub: string) { |m.content| == |StubText(stub, |m.content|)| }

  lemma StubTextInjective(stub: string, a: nat, b: nat)
    requires StubText(stub, a) == StubText(stub, b)
    ensures a == b
  {
    var s, t := StubText(stub, a), StubText(stub, b);
    var tail := |" chars elided)"|;
    assert s[|stub| + 2..|s| - tail] == DecimalNat(a);
    assert t[|stub| + 2..|t| - tail] == DecimalNat(b);
    DecimalNatInjective(a, b);
  }

  lemma {:induction false} StubCallsAgain(calls: seq<ToolCall>, ids: set<string>, more: set<string>)
    requires more <= ids
    ensures StubCalls(StubCalls(calls, ids), more) == StubCalls(calls, ids)
  {
    if calls != [] {
      var rest := StubCalls(calls[1..], ids);
      assert ([StubCall(calls[0], ids)] + rest)[1..] == rest;
      StubCallsAgain(calls[1..], ids, more);
    }
  }

  lemma StubArgumentsAgain(m: Message, ids: set<string>, more: set<string>)
    requires more <= ids
    ensures StubArguments(StubArguments(m, ids), more) == StubArguments(m, ids)
  {
    StubCallsAgain(m.toolCalls, ids, more);
  }

  /** A second compaction spends no id the first did not. */
  lemma SpentAgain(ms: seq<Message>, opt: Options)
    requires Missed(ms, opt)
    ensures Spent(Compacted(ms, opt), opt) <= Spent(ms, opt)
  {
    var out := Compacted(ms, opt);
    MissedPointwise(ms, opt);
    CompactedSameRoles(ms, opt);
    MissedTargetMeansExhausted(ms, opt);
    forall id | id in Spent(out, opt)
      ensures id in Spent(ms, opt)
    {
      var j := SpentBy(out, opt, id);
      EligibleOfSameRoles(ms, out, opt.keepHeadTurns, opt.keepTailTurns, j);
      assert out[j] == Exhausted(ms, opt, j);
      ElidedIdIsSpent(ms, opt, j);
    }
  }

  // ---- the exact condition --------------------------------------------------------------------

  /** Every eligible result is as long as its stub. */
  predicate AllStubSized(ms: seq<Message>, opt: Options) {
    forall i :: 0 <= i < |ms| && Eligible(ms, opt.keepHeadTurns, opt.keepTailTurns, i) ==> StubSized(ms[i], StubOf(opt))
  }

  /** If nothing changes, every stub was as long as what it replaced. */
  lemma StableIsStubSized(ms: seq<Message>, opt: Options)
    requires Missed(ms, opt) && Compacted(Compacted(ms, opt), opt) == Compacted(ms, opt)
    ensures AllStubSized(ms, opt)
  {
    var out := Compacted(ms, opt);
    MissedPointwise(ms, opt);
    MissedPointwise(out, opt);
    CompactedSameRoles(ms, opt);
    forall i | 0 <= i < |ms| && Eligible(ms, opt.keepHeadTurns, opt.keepTailTurns, i)
      ensures StubSized(ms[i], StubOf(opt))
    {
      EligibleOfSameRoles(ms, out, opt.keepHeadTurns, opt.keepTailTurns, i);
      assert out[i] == Exhausted(ms, opt, i) && out[i] == Exhausted(out, opt, i);
      StubTextInjective(StubOf(opt), |out[i].content|, |ms[i].content|);
    }
  }

  /** And then stubbing again changes no message. */
  lemma StubSizedIsStable(ms: seq<Message>, opt: Options)
    requires Missed(ms, opt) && AllStubSized(ms, opt)
    ensures Compacted(Compacted(ms, opt), opt) == Compacted(ms, opt)
  {
    var out := Compacted(ms, opt);
    MissedPointwise(ms, opt);
    CompactedSameRoles(ms, opt);
    SpentAgain(ms, opt);
    CompactedPointwise(out, opt);
    forall i | 0 <= i < |out|
      ensures Compacted(out, opt)[i] == out[i]
    {
      assert out[i] == Exhausted(ms, opt, i);
      EligibleOfSameRoles(ms, out, opt.keepHeadTurns, opt.keepTailTurns, i);
      if Elided(out, opt, i) {
        ElidedIsEligible(out, opt, i);
        assert Stubbed(out[i], StubOf(opt)) == out[i];
      }
      var m := if Eligible(ms, opt.keepHeadTurns, opt.keepTailTurns, i) then Stubbed(ms[i], StubOf(opt)) else ms[i];
      StubArgumentsAgain(m, Spent(ms, opt), Spent(out, opt));
    }
  }

  /**
   * Compacting again changes nothing if and only if there is nothing to do, because the result fits
   * or no target was set, or every eligible result happened to be exactly as long as its stub:
   * otherwise the stubs are stubbed, each now counting the characters of the one before.
   */
  lemma RecompactingIsStableIff(ms: seq<Message>, opt: Options)
    ensures Compacted(Compacted(ms, opt), opt) == Compacted(ms, opt) <==>
            NothingToDo(Compacted(ms, opt), opt) || AllStubSized(ms, opt)
  {
    if Missed(ms, opt) {
      if AllStubSized(ms, opt) {
        StubSizedIsStable(ms, opt);
      } else if Compacted(Compacted(ms, opt), opt) == Compacted(ms, opt) {
        StableIsStubSized(ms, opt);
      }
    }
  }

  /** For example a short result: its stub is stubbed again, with a different count. */
  lemma CompactingAgainCanChange()
    ensures var once := Compacted(ShortResult(), ONE_CHARACTER); Compacted(once, ONE_CHARACTER) != once
  {
    CompactionCanGrow();
    ShortResultIsEligible();
    assert !StubSized(ShortResult()[2], StubOf(ONE_CHARACTER));
    RecompactingIsStableIff(ShortResult(), ONE_CHARACTER);
  }
}
