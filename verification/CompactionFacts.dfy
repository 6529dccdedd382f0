/** What compaction may change, what it must leave alone, and what its verdict means. */
module CompactionFacts {
  import opened Conversation
  import opened Eligibility
  import opened Compaction

  // ---- shape ----------------------------------------------------------------------------------

  /** The same message up to its content and the arguments of its calls. */
  predicate SameShape(m: Message, n: Message) {
    && m.role == n.role && m.toolCallID == n.toolCallID
    && |m.toolCalls| == |n.toolCalls|
    && forall c :: 0 <= c < |m.toolCalls| ==>
      n.toolCalls[c].id == m.toolCalls[c].id && n.toolCalls[c].name == m.toolCalls[c].name
  }

  lemma StubArgumentsShape(m: Message, ids: set<string>)
    ensures SameShape(m, StubArguments(m, ids)) && StubArguments(m, ids).content == m.content
    ensures MessageChars(StubArguments(m, ids)) <= MessageChars(m)
    ensures m.role != ASSISTANT || (forall c :: 0 <= c < |m.toolCalls| ==> m.toolCalls[c].id !in ids) ==>
            StubArguments(m, ids) == m
  {
    StubCallsShape(m.toolCalls, ids);
    if forall c :: 0 <= c < |m.toolCalls| ==> m.toolCalls[c].id !in ids {
      assert StubCalls(m.toolCalls, ids) == m.toolCalls;
    }
  }

  lemma {:induction false} StubFromPointwise(ms: seq<Message>, ids: set<string>, target: int, i: nat)
    requires i <= |ms|
    ensures var out := StubFrom(ms, ids, target, i);
      && |out| == |ms|
      && (forall j :: 0 <= j < |ms| ==> out[j] == ms[j] || out[j] == StubArguments(ms[j], ids))
      && (forall j :: 0 <= j < i ==> out[j] == ms[j])
      && (Size(out) > target ==> forall j :: i <= j < |ms| ==> out[j] == StubArguments(ms[j], ids))
    decreases |ms| - i
  {
    if i < |ms| && Size(ms) > target {
      StubFromPointwise(ms[i := StubArguments(ms[i], ids)], ids, target, i + 1);
    }
  }

  lemma {:induction false} StubFromShrinks(ms: seq<Message>, ids: set<string>, target: int, i: nat)
    requires i <= |ms|
    ensures Size(StubFrom(ms, ids, target, i)) <= Size(ms)
    decreases |ms| - i
  {
    if i < |ms| && Size(ms) > target {
      StubArgumentsShape(ms[i], ids);
      SizeUpdate(ms, i, StubArguments(ms[i], ids));
      StubFromShrinks(ms[i := StubArguments(ms[i], ids)], ids, target, i + 1);
    }
  }

  /** The conversation with the spent arguments of its first i messages stubbed. */
  function UpTo(ms: seq<Message>, ids: set<string>, i: nat): seq<Message>
    requires i <= |ms|
  {
    seq(|ms|, j requires 0 <= j < |ms| => if j < i then StubArguments(ms[j], ids) else ms[j])
  }

  lemma UpToStep(ms: seq<Message>, ids: set<string>, i: nat)
    requires i < |ms|
    ensures UpTo(ms, ids, i)[i := StubArguments(ms[i], ids)] == UpTo(ms, ids, i + 1)
    ensures Size(UpTo(ms, ids, i + 1)) <= Size(UpTo(ms, ids, i))
  {
    assert UpTo(ms, ids, i)[i := StubArguments(ms[i], ids)] == UpTo(ms, ids, i + 1);
    StubArgumentsShape(ms[i], ids);
    SizeUpdate(UpTo(ms, ids, i), i, StubArguments(ms[i], ids));
  }

  lemma {:induction false} UpToShrinks(ms: seq<Message>, ids: set<string>, i: nat, j: nat)
    requires i <= j <= |ms|
    ensures Size(UpTo(ms, ids, j)) <= Size(UpTo(ms, ids, i))
    decreases j
  {
    if i < j {
      UpToShrinks(ms, ids, i, j - 1);
      UpToStep(ms, ids, j - 1);
    }
  }

  /** The second pass reaches exactly the messages before which the target is still missed. */
  lemma {:induction false} StubFromReaches(ms: seq<Message>, ids: set<string>, target: int, i: nat)
    requires i <= |ms|
    ensures var out := StubFrom(UpTo(ms, ids, i), ids, target, i);
      && |out| == |ms|
      && forall j :: i <= j < |ms| ==>
        out[j] == if Size(UpTo(ms, ids, j)) > target then StubArguments(ms[j], ids) else ms[j]
    decreases |ms| - i
  {
    if i == |ms| || Size(UpTo(ms, ids, i)) <= target {
      StubFromStops(ms, ids, target, i);
    } else {
      UpToStep(ms, ids, i);
      StubFromReaches(ms, ids, target, i + 1);
      StubFromPointwise(UpTo(ms, ids, i + 1), ids, target, i + 1);
    }
  }

  /** Once the target is met, or the end is reached, nothing more is touched. */
  lemma StubFromStops(ms: seq<Message>, ids: set<string>, target: int, i: nat)
    requires i <= |ms| && (i == |ms| || Size(UpTo(ms, ids, i)) <= target)
    ensures StubFrom(UpTo(ms, ids, i), ids, target, i) == UpTo(ms, ids, i)
    ensures forall j :: i <= j < |ms| ==> Size(UpTo(ms, ids, j)) <= target && UpTo(ms, ids, i)[j] == ms[j]
  {
    forall j | i <= j < |ms|
      ensures Size(UpTo(ms, ids, j)) <= target
    {
      UpToShrinks(ms, ids, i, j);
    }
  }

  /** A message loses arguments exactly when one of its calls has long ones and a spent id. */
  lemma StubArgumentsIff(m: Message, ids: set<string>)
    ensures StubArguments(m, ids) != m <==>
            m.role == ASSISTANT &&
            exists c :: 0 <= c < |m.toolCalls| && m.toolCalls[c].id in ids && |m.toolCalls[c].arguments| > |COMPACTED|
  {
    var calls := m.toolCalls;
    StubCallsShape(calls, ids);
    if c :| 0 <= c < |calls| && calls[c].id in ids && |calls[c].arguments| > |COMPACTED| {
      assert StubCalls(calls, ids)[c] == StubCall(calls[c], ids) != calls[c];
    } else {
      assert StubCalls(calls, ids) == calls;
    }
  }

  /** Message i's result was among those elided. */
  predicate Elided(ms: seq<Message>, opt: Options, i: nat) {
    !NothingToDo(ms, opt) && i in First(OrderFor(ms, opt), ResultsElided(ms, opt))
  }

  /** The ids whose calls may lose their arguments. */
  function Spent(ms: seq<Message>, opt: Options): set<string> {
    if NothingToDo(ms, opt) || !opt.elideToolCallArgs then {} else IDsElided(ms, opt)
  }

  /** Every message is kept, stubbed if it was elided, and at most stripped of spent arguments. */
  lemma CompactedPointwise(ms: seq<Message>, opt: Options)
    ensures var out := Compacted(ms, opt);
      && |out| == |ms|
      && forall i :: 0 <= i < |ms| ==>
        var m := if Elided(ms, opt, i) then Stubbed(ms[i], StubOf(opt)) else ms[i];
        out[i] == m || out[i] == StubArguments(m, Spent(ms, opt))
  {
    if !NothingToDo(ms, opt) && opt.elideToolCallArgs {
      StubFromPointwise(AfterResults(ms, opt), IDsElided(ms, opt), opt.targetChars, 0);
    }
  }

  lemma ElidedIsEligible(ms: seq<Message>, opt: Options, i: nat)
    requires i < |ms| && Elided(ms, opt, i)
    ensures Eligible(ms, opt.keepHeadTurns, opt.keepTailTurns, i)
  {
    var order := OrderFor(ms, opt);
    OrderIsRight(ms, opt.keepHeadTurns, opt.keepTailTurns);
    assert i in order;
  }

  /** An id is spent only by an elided result, which is eligible. */
  lemma SpentBy(ms: seq<Message>, opt: Options, id: string) returns (j: nat)
    requires id in Spent(ms, opt)
    ensures j < |ms| && Elided(ms, opt, j) && ms[j].toolCallID == id && id != ""
    ensures ms[j].role == TOOL && Eligible(ms, opt.keepHeadTurns, opt.keepTailTurns, j)
  {
    var order := OrderFor(ms, opt);
    var i :| 0 <= i < ResultsElided(ms, opt) && ms[order[i]].toolCallID != "" && ms[order[i]].toolCallID == id;
    j := order[i];
    assert j in First(order, ResultsElided(ms, opt));
    ElidedIsEligible(ms, opt, j);
  }

  lemma ElidedIdIsSpent(ms: seq<Message>, opt: Options, j: nat)
    requires j < |ms| && Elided(ms, opt, j) && ms[j].toolCallID != ""
    ensures ms[j].toolCallID in IDsElided(ms, opt)
  {
    var k :| 0 <= k < ResultsElided(ms, opt) && OrderFor(ms, opt)[k] == j;
  }

  /**
   * Compaction keeps every message in place with its role, its ids and its calls' names; only an
   * elided tool result's body changes, and only spent calls lose their arguments.
   */
  lemma CompactionKeepsShape(ms: seq<Message>, opt: Options)
    ensures var out := Compacted(ms, opt);
      && |out| == |ms|
      && forall i :: 0 <= i < |ms| ==>
        && SameShape(ms[i], out[i])
        && (out[i].content != ms[i].content ==> Elided(ms, opt, i) && ms[i].role == TOOL)
        && (out[i].toolCalls != ms[i].toolCalls ==>
          ms[i].role == ASSISTANT && exists c :: 0 <= c < |ms[i].toolCalls| && ms[i].toolCalls[c].id in Spent(ms, opt))
  {
    CompactedPointwise(ms, opt);
    forall i | 0 <= i < |ms|
      ensures var out := Compacted(ms, opt);
        && SameShape(ms[i], out[i])
        && (out[i].content != ms[i].content ==> Elided(ms, opt, i) && ms[i].role == TOOL)
        && (out[i].toolCalls != ms[i].toolCalls ==>
          ms[i].role == ASSISTANT && exists c :: 0 <= c < |ms[i].toolCalls| && ms[i].toolCalls[c].id in Spent(ms, opt))
    {
      var m := if Elided(ms, opt, i) then Stubbed(ms[i], StubOf(opt)) else ms[i];
      StubArgumentsShape(m, Spent(ms, opt));
      if Elided(ms, opt, i) {
        ElidedIsEligible(ms, opt, i);
      }
    }
  }

  // ---- well-formedness ------------------------------------------------------------------------

  predicate SameShapes(a: seq<Message>, b: seq<Message>) {
    |a| == |b| && forall i :: 0 <= i < |a| ==> SameShape(a[i], b[i])
  }

  lemma {:induction false} TurnsOfShape(a: seq<Message>, b: seq<Message>)
    requires SameShapes(a, b) && Turns(a)
    ensures Turns(b)
    decreases |a|
  {
    if a != [] {
      assert SameShape(a[0], b[0]);
      var k := if IsUser(a[0]) then 0 else |a[0].toolCalls|;
      if !IsUser(a[0]) {
        AnswersOfShape(a[0].toolCalls, a[1..k + 1], b[0].toolCalls, b[1..k + 1]);
      }
      TurnsOfShape(a[k + 1..], b[k + 1..]);
    }
  }

  lemma AnswersOfShape(calls: seq<ToolCall>, results: seq<Message>, calls': seq<ToolCall>, results': seq<Message>)
    requires Answers(calls, results) && SameShapes(results, results')
    requires |calls| == |calls'| && forall c :: 0 <= c < |calls| ==> calls[c].id == calls'[c].id
    ensures Answers(calls', results')
  {
    forall i | 0 <= i < |calls'|
      ensures results'[i].role == TOOL && results'[i].toolCallID == calls'[i].id && results'[i].toolCalls == []
    {
      assert SameShape(results[i], results'[i]);
    }
  }

  lemma WellFormedOfShape(a: seq<Message>, b: seq<Message>)
    requires SameShapes(a, b) && WellFormed(a)
    ensures WellFormed(b)
  {
    if a != [] && IsSystem(a[0]) {
      assert SameShape(a[0], b[0]);
      TurnsOfShape(a[1..], b[1..]);
    } else {
      assert a != [] ==> SameShape(a[0], b[0]);
      TurnsOfShape(a, b);
    }
  }

  /** A well-formed conversation is compacted to a well-formed one. */
  lemma CompactionKeepsWellFormed(ms: seq<Message>, opt: Options)
    requires WellFormed(ms)
    ensures WellFormed(Compacted(ms, opt))
  {
    CompactionKeepsShape(ms, opt);
    WellFormedOfShape(ms, Compacted(ms, opt));
  }

  // ---- the verdict ----------------------------------------------------------------------------

  /**
   * When the target is missed there was nothing left to take: every eligible result is elided and,
   * when arguments may go too, no spent call keeps arguments longer than their stub.
   */
  lemma MissedTargetMeansExhausted(ms: seq<Message>, opt: Options)
    requires opt.targetChars > 0 && Size(Compacted(ms, opt)) > opt.targetChars
    ensures forall i :: 0 <= i < |ms| && Eligible(ms, opt.keepHeadTurns, opt.keepTailTurns, i) ==> Elided(ms, opt, i)
    ensures opt.elideToolCallArgs ==>
      var out := Compacted(ms, opt);
      && |out| == |ms|
      && forall i, c | 0 <= i < |out| && out[i].role == ASSISTANT && 0 <= c < |out[i].toolCalls| ::
        out[i].toolCalls[c].id in Spent(ms, opt) ==> |out[i].toolCalls[c].arguments| <= |COMPACTED|
  {
    var mid := AfterResults(ms, opt);
    var ids := IDsElided(ms, opt);
    StubFromShrinks(mid, ids, opt.targetChars, 0);
    assert Size(mid) > opt.targetChars;
    EveryResultElided(ms, opt);
    if opt.elideToolCallArgs {
      StubFromPointwise(mid, ids, opt.targetChars, 0);
      var out := Compacted(ms, opt);
      forall i, c | 0 <= i < |out| && out[i].role == ASSISTANT && 0 <= c < |out[i].toolCalls| &&
        out[i].toolCalls[c].id in Spent(ms, opt)
        ensures |out[i].toolCalls[c].arguments| <= |COMPACTED|
      {
        StubCallsShape(mid[i].toolCalls, ids);
        assert out[i].toolCalls[c] == StubCall(mid[i].toolCalls[c], ids);
      }
    }
  }

  lemma EveryResultElided(ms: seq<Message>, opt: Options)
    requires !NothingToDo(ms, opt) && Size(AfterResults(ms, opt)) > opt.targetChars
    ensures forall i :: 0 <= i < |ms| && Eligible(ms, opt.keepHeadTurns, opt.keepTailTurns, i) ==> Elided(ms, opt, i)
  {
    var order := OrderFor(ms, opt);
    OrderIsRight(ms, opt.keepHeadTurns, opt.keepTailTurns);
    assert ResultsElided(ms, opt) == |order|;
    forall i | 0 <= i < |ms| && Eligible(ms, opt.keepHeadTurns, opt.keepTailTurns, i)
      ensures Elided(ms, opt, i)
    {
      assert i in order;
      var k :| 0 <= k < |order| && order[k] == i;
    }
  }
}
