/** What compaction leaves alone in the turns it is told to keep, and exactly when it does not. */
module ProtectedTurns {
  import opened Conversation
  import opened Eligibility
  import opened Compaction
  import opened CompactionFacts

  /** Compaction changes message i; it never adds or removes one. */
  predicate Changed(ms: seq<Message>, opt: Options, i: nat)
    requires i < |ms|
  {
    |Compacted(ms, opt)| != |ms| || Compacted(ms, opt)[i] != ms[i]
  }

  /** No two calls share a non-empty id. */
  predicate UniqueCalls(ms: seq<Message>) {
    forall i, c, j, d | 0 <= i < |ms| && 0 <= c < |ms[i].toolCalls| && 0 <= j < |ms| && 0 <= d < |ms[j].toolCalls| ::
      ms[i].toolCalls[c].id != "" && ms[i].toolCalls[c].id == ms[j].toolCalls[d].id ==> i == j
  }

  /** Message j answers a call of message b, with no user message in between. */
  predicate AnsweredFrom(ms: seq<Message>, b: nat, j: nat) {
    && b < j < |ms|
    && UsersBefore(ms, b + 1) == UsersBefore(ms, j + 1)
    && exists c :: 0 <= c < |ms[b].toolCalls| && ms[b].toolCalls[c].id == ms[j].toolCallID
  }

  lemma {:induction false} UsersOfSuffix(ms: seq<Message>, d: nat, n: nat)
    requires d + n <= |ms|
    ensures UsersBefore(ms, d + n) == UsersBefore(ms, d) + UsersBefore(ms[d..], n)
    decreases n
  {
    if n > 0 {
      UsersOfSuffix(ms, d, n - 1);
    }
  }

  lemma AnsweredFromSuffix(ms: seq<Message>, d: nat, b: nat, j: nat)
    requires d <= |ms| && AnsweredFrom(ms[d..], b, j)
    ensures AnsweredFrom(ms, d + b, d + j)
  {
    UsersOfSuffix(ms, d, b + 1);
    UsersOfSuffix(ms, d, j + 1);
    assert ms[d..][b] == ms[d + b] && ms[d..][j] == ms[d + j];
  }

  lemma {:induction false} NoUsersAmong(ms: seq<Message>, n: nat)
    requires n < |ms| && forall i :: 1 <= i <= n ==> ms[i].role != USER
    ensures UsersBefore(ms, n + 1) == UsersBefore(ms, 1)
  {
    if n > 0 {
      NoUsersAmong(ms, n - 1);
    }
  }

  /** The results of a block belong to it. */
  lemma FirstBlockAnswers(ms: seq<Message>, j: nat)
    requires Turns(ms) && 0 < j < |ms| && !IsUser(ms[0]) && j <= |ms[0].toolCalls|
    ensures AnsweredFrom(ms, 0, j)
  {
    RolesDiffer();
    var results := ms[1..|ms[0].toolCalls| + 1];
    forall i | 1 <= i <= j
      ensures ms[i].role != USER && ms[i].toolCallID == ms[0].toolCalls[i - 1].id
    {
      assert ms[i] == results[i - 1];
    }
    NoUsersAmong(ms, j);
  }

  /** In complete turns, every tool result belongs to a block in its own turn. */
  lemma {:induction false} ResultHasBlock(ms: seq<Message>, j: nat) returns (b: nat)
    requires Turns(ms) && j < |ms| && ms[j].role == TOOL
    ensures AnsweredFrom(ms, b, j)
    decreases |ms|
  {
    hide AnsweredFrom, Turns;
    RolesDiffer();
    FirstTurnIsComplete(ms);
    var k := if IsUser(ms[0]) then 0 else |ms[0].toolCalls|;
    if j <= k {
      FirstBlockAnswers(ms, j);
      b := 0;
    } else {
      assert ms[j] == ms[k + 1..][j - (k + 1)];
      b := ResultHasBlock(ms[k + 1..], j - (k + 1));
      AnsweredFromSuffix(ms, k + 1, b, j - (k + 1));
      b := k + 1 + b;
    }
  }

  lemma FirstTurnIsComplete(ms: seq<Message>)
    requires Turns(ms) && ms != []
    ensures IsUser(ms[0]) || IsAsking(ms[0])
    ensures var k := if IsUser(ms[0]) then 0 else |ms[0].toolCalls|; k < |ms| && Turns(ms[k + 1..])
  {
  }

  lemma RolesDiffer()
    ensures TOOL != USER && ASSISTANT != USER && TOOL != ASSISTANT && SYSTEM != TOOL
  {
    assert TOOL[0] != USER[0] && ASSISTANT[0] != USER[0] && TOOL[0] != ASSISTANT[0] && SYSTEM[0] != TOOL[0];
  }

  lemma ResultHasBlockInConversation(ms: seq<Message>, j: nat) returns (b: nat)
    requires WellFormed(ms) && j < |ms| && ms[j].role == TOOL
    ensures AnsweredFrom(ms, b, j)
  {
    hide AnsweredFrom, Turns;
    RolesDiffer();
    if ms != [] && IsSystem(ms[0]) {
      assert ms[j] == ms[1..][j - 1];
      b := ResultHasBlock(ms[1..], j - 1);
      AnsweredFromSuffix(ms, 1, b, j - 1);
      b := 1 + b;
    } else {
      b := ResultHasBlock(ms, j);
    }
  }

  /** Spent calls sit in the turn of the result that spent them, so never in a protected turn. */
  lemma SpentIsUnprotected(ms: seq<Message>, opt: Options, i: nat, c: nat)
    requires WellFormed(ms) && UniqueCalls(ms)
    requires i < |ms| && c < |ms[i].toolCalls| && ms[i].toolCalls[c].id in Spent(ms, opt)
    ensures !Protected(ms, opt.keepHeadTurns, opt.keepTailTurns, i)
  {
    var j := SpentBy(ms, opt, ms[i].toolCalls[c].id);
    var b := ResultHasBlockInConversation(ms, j);
    var d :| 0 <= d < |ms[b].toolCalls| && ms[b].toolCalls[d].id == ms[j].toolCallID;
    assert b == i;
  }

  /**
   * The protected turns of a well-formed conversation with unique call ids come through identical,
   * tool bodies and call arguments included.
   */
  lemma ProtectedTurnsAreUntouched(ms: seq<Message>, opt: Options, i: nat)
    requires WellFormed(ms) && UniqueCalls(ms)
    requires i < |ms| && Protected(ms, opt.keepHeadTurns, opt.keepTailTurns, i)
    ensures !Changed(ms, opt, i)
  {
    CompactedPointwise(ms, opt);
    if Elided(ms, opt, i) {
      ElidedIsEligible(ms, opt, i);
    }
    forall c | 0 <= c < |ms[i].toolCalls|
      ensures ms[i].toolCalls[c].id !in Spent(ms, opt)
    {
      if ms[i].toolCalls[c].id in Spent(ms, opt) {
        SpentIsUnprotected(ms, opt, i, c);
      }
    }
    StubArgumentsShape(ms[i], Spent(ms, opt));
  }

  /** The second pass gets as far as message i, and one of its calls has long arguments and a spent id. */
  predicate Reached(ms: seq<Message>, opt: Options, i: nat)
    requires i < |ms|
  {
    && !NothingToDo(ms, opt) && opt.elideToolCallArgs && ms[i].role == ASSISTANT
    && Size(UpTo(AfterResults(ms, opt), IDsElided(ms, opt), i)) > opt.targetChars
    && exists c :: 0 <= c < |ms[i].toolCalls|
                   && ms[i].toolCalls[c].id in IDsElided(ms, opt) && |ms[i].toolCalls[c].arguments| > |COMPACTED|
  }

  /**
   * The exact condition, for any conversation: a protected message is changed if and only if it is an
   * assistant turn the second pass reaches before the target is met, one of whose calls has long
   * arguments and an id an elided result also carries. Ids alone decide; the turn it sits in does not.
   */
  lemma ProtectedTouchedIff(ms: seq<Message>, opt: Options, i: nat)
    requires i < |ms| && Protected(ms, opt.keepHeadTurns, opt.keepTailTurns, i)
    ensures Changed(ms, opt, i) <==> Reached(ms, opt, i)
  {
    if !NothingToDo(ms, opt) {
      var mid, ids := AfterResults(ms, opt), IDsElided(ms, opt);
      if Elided(ms, opt, i) {
        ElidedIsEligible(ms, opt, i);
      }
      assert mid[i] == ms[i];
      assert UpTo(mid, ids, 0) == mid;
      StubFromReaches(mid, ids, opt.targetChars, 0);
      StubArgumentsIff(ms[i], ids);
    }
  }

  lemma {:induction false} SizeAtLeast(ms: seq<Message>, i: nat)
    requires i < |ms|
    ensures Size(ms) >= MessageChars(ms[i])
  {
    if i > 0 {
      SizeAtLeast(ms[1..], i - 1);
    }
  }

  /** Two turns, each with one answered call; both calls carry the same id. */
  function RepeatedID(arguments: string): seq<Message> {
    var first, second := ToolCall("call", "t", arguments), ToolCall("call", "t", "");
    [UserMessage(""), AssistantTurn([first]), ToolAnswer(first, ""),
     UserMessage(""), AssistantTurn([second]), ToolAnswer(second, "body")]
  }

  /** Keep the first turn, drop what can be dropped after it, arguments too. */
  const KEEP_FIRST := Options(1, 1, 0, true, "")

  lemma OneAnsweredTurn(call: ToolCall, content: string)
    ensures Turns([UserMessage(""), AssistantTurn([call]), ToolAnswer(call, content)])
  {
    UserTurn("");
    BlockTurn([call], [ToolAnswer(call, content)]);
    TurnsConcat([UserMessage("")], [AssistantTurn([call])] + [ToolAnswer(call, content)]);
    assert [UserMessage("")] + ([AssistantTurn([call])] + [ToolAnswer(call, content)]) ==
           [UserMessage(""), AssistantTurn([call]), ToolAnswer(call, content)];
  }

  lemma RepeatedIDTurns(arguments: string)
    ensures var ms := RepeatedID(arguments);
      WellFormed(ms) && Protected(ms, 1, 0, 1) && Eligible(ms, 1, 0, 5)
  {
    var ms := RepeatedID(arguments);
    var first, second := ms[1].toolCalls[0], ms[4].toolCalls[0];
    OneAnsweredTurn(first, "");
    OneAnsweredTurn(second, "body");
    assert ms[..3] + ms[3..] == ms && ms[..3] == [ms[0], ms[1], ms[2]] && ms[3..] == [ms[3], ms[4], ms[5]];
    TurnsConcat(ms[..3], ms[3..]);
    TurnsNotSystem(ms);
    RolesDiffer();
    assert UsersBefore(ms, 1) == 1 && UsersBefore(ms, 2) == 1 && UsersBefore(ms, 3) == 1;
    assert UsersBefore(ms, 4) == 2 && UsersBefore(ms, 5) == 2 && UsersBefore(ms, 6) == 2;
  }

  /** A tool message's id is never taken away, so a target of one character cannot be met. */
  lemma IdsStay(ms: seq<Message>, i: nat)
    requires i < |ms| && ms[i].toolCallID == "call"
    ensures Size(ms) > 1
  {
    SizeAtLeast(ms, i);
  }

  /** A call in the protected first turn loses its arguments to an elided result of the second. */
  lemma RepeatedIdReachesProtectedTurn(arguments: string)
    requires |arguments| > |COMPACTED|
    ensures var ms := RepeatedID(arguments);
      && WellFormed(ms) && Protected(ms, KEEP_FIRST.keepHeadTurns, KEEP_FIRST.keepTailTurns, 1)
      && Changed(ms, KEEP_FIRST, 1)
  {
    var ms := RepeatedID(arguments);
    RepeatedIDTurns(arguments);
    IdsStay(ms, 2);
    IdsStay(AfterResults(ms, KEEP_FIRST), 2);
    EveryResultElided(ms, KEEP_FIRST);
    ElidedIdIsSpent(ms, KEEP_FIRST, 5);
    IdsStay(UpTo(AfterResults(ms, KEEP_FIRST), IDsElided(ms, KEEP_FIRST), 1), 2);
    assert ms[1].toolCalls[0].id == "call" == ms[5].toolCallID;
    ProtectedTouchedIff(ms, KEEP_FIRST, 1);
  }
}
