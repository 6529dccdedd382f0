/** What a compacted conversation reads like: which bodies and arguments went, what stands there instead. */
module CompactionBodies {
  import opened Conversation
  import opened Eligibility
  import opened Sorting
  import opened Text
  import opened Compaction
  import opened CompactionFacts

  // ---- which turns are kept -------------------------------------------------------------------

  /** The user messages between two positions. */
  function UsersIn(ms: seq<Message>, from: nat, to: nat): set<nat>
    requires to <= |ms|
  {
    set j: nat | from <= j < to && ms[j].role == "user"
  }

  /**
   * Message i stands in one of the first `head` turns or of the last `tail`, a turn being a user
   * message and what follows it; what precedes the first user message goes with the head.
   */
  predicate InKeptTurns(ms: seq<Message>, head: int, tail: int, i: nat)
    requires i < |ms|
  {
    var upTo, after := |UsersIn(ms, 0, i + 1)|, |UsersIn(ms, i + 1, |ms|)|;
    && upTo + after > 0
    && ((head > 0 && upTo <= head) || (tail > 0 && upTo > 0 && after < tail))
  }

  /** A tool result with something in it, outside those turns. */
  predicate MayGo(ms: seq<Message>, opt: Options, i: nat)
    requires i < |ms|
  {
    ms[i].role == "tool" && ms[i].content != "" && !InKeptTurns(ms, opt.keepHeadTurns, opt.keepTailTurns, i)
  }

  lemma {:induction false} UsersBeforeCounts(ms: seq<Message>, n: nat)
    requires n <= |ms|
    ensures UsersBefore(ms, n) == |UsersIn(ms, 0, n)|
  {
    if n > 0 {
      UsersBeforeCounts(ms, n - 1);
      var users := UsersIn(ms, 0, n - 1);
      assert UsersIn(ms, 0, n) == if ms[n - 1].role == "user" then users + {n - 1} else users;
    }
  }

  lemma UsersSplit(ms: seq<Message>, i: nat)
    requires i < |ms|
    ensures |UsersIn(ms, 0, |ms|)| == |UsersIn(ms, 0, i + 1)| + |UsersIn(ms, i + 1, |ms|)|
  {
    assert UsersIn(ms, 0, |ms|) == UsersIn(ms, 0, i + 1) + UsersIn(ms, i + 1, |ms|);
  }

  /** Eligibility, by counting user messages on either side. */
  lemma EligibleIffMayGo(ms: seq<Message>, opt: Options, i: nat)
    requires i < |ms|
    ensures Eligible(ms, opt.keepHeadTurns, opt.keepTailTurns, i) <==> MayGo(ms, opt, i)
  {
    UsersBeforeCounts(ms, i + 1);
    UsersBeforeCounts(ms, |ms|);
    UsersSplit(ms, i);
  }

  // ---- bodies ---------------------------------------------------------------------------------

  /** What stands in place of a body that went. */
  function Instead(opt: Options, body: string): string {
    (if opt.stub == "" then "[compacted: tool output elided to fit the context window]" else opt.stub)
    + " (" + DecimalNat(|body|) + " chars elided)"
  }

  lemma InsteadIsStub(m: Message, opt: Options)
    ensures Stubbed(m, StubOf(opt)) == m.(content := Instead(opt, m.content))
  {
  }

  /** Elided results read as said, other bodies as they did. */
  lemma BodyOf(ms: seq<Message>, opt: Options, i: nat)
    requires i < |ms|
    ensures var out := Compacted(ms, opt);
      |out| == |ms| && out[i].content == if Elided(ms, opt, i) then Instead(opt, ms[i].content) else ms[i].content
  {
    CompactedPointwise(ms, opt);
    InsteadIsStub(ms[i], opt);
  }

  /** Elided before another that may go: longer, or as long and earlier. */
  lemma ElidedBefore(ms: seq<Message>, opt: Options, i: nat, j: nat)
    requires i < |ms| && j < |ms| && Elided(ms, opt, i) && !Elided(ms, opt, j) && MayGo(ms, opt, j)
    ensures Heavier(ms, i, j)
  {
    var order := OrderFor(ms, opt);
    OrderIsRight(ms, opt.keepHeadTurns, opt.keepTailTurns);
    EligibleIffMayGo(ms, opt, j);
    assert j in order;
    var p :| 0 <= p < ResultsElided(ms, opt) && order[p] == i;
    var q :| 0 <= q < |order| && order[q] == j;
    assert p < q && ByWeight(ms)(order[p], order[q]);
  }

  /** When i's body went and j's, which may, did not, i is the longer message, or as long and earlier. */
  predicate LongestFirst(ms: seq<Message>, opt: Options, out: seq<Message>, i: nat, j: nat)
    requires |out| == |ms| && i < |ms| && j < |ms|
  {
    out[i].content != ms[i].content && MayGo(ms, opt, j) && out[j].content != Instead(opt, ms[j].content) ==>
      var x, y := |WrittenOut([ms[i]])|, |WrittenOut([ms[j]])|; x > y || (x == y && i < j)
  }

  /**
   * The bodies of a compacted conversation. One changes only if it is a tool result's outside the kept
   * turns, and then reads as the stub with the number of characters it had; those that change are the
   * longest of those that may, ties by position; and all that may have changed when the target is missed.
   */
  lemma BodiesThatGo(ms: seq<Message>, opt: Options)
    ensures var out := Compacted(ms, opt);
      && |out| == |ms|
      && (forall i :: 0 <= i < |ms| && out[i].content != ms[i].content ==>
        MayGo(ms, opt, i) && out[i].content == Instead(opt, ms[i].content))
      && (forall i, j :: 0 <= i < |ms| && 0 <= j < |ms| ==> LongestFirst(ms, opt, out, i, j))
      && (opt.targetChars > 0 && |WrittenOut(out)| > opt.targetChars ==>
        forall i :: 0 <= i < |ms| && MayGo(ms, opt, i) ==> out[i].content == Instead(opt, ms[i].content))
  {
    hide Elided, MayGo, Instead, WrittenOut;
    var out := Compacted(ms, opt);
    CompactedPointwise(ms, opt);
    forall i | 0 <= i < |ms|
      ensures out[i].content == if Elided(ms, opt, i) then Instead(opt, ms[i].content) else ms[i].content
      ensures Elided(ms, opt, i) ==> MayGo(ms, opt, i)
    {
      BodyOf(ms, opt, i);
      EligibleIffMayGo(ms, opt, i);
      if Elided(ms, opt, i) {
        ElidedIsEligible(ms, opt, i);
      }
    }
    forall i, j | 0 <= i < |ms| && 0 <= j < |ms|
      ensures LongestFirst(ms, opt, out, i, j)
    {
      if Elided(ms, opt, i) && !Elided(ms, opt, j) && MayGo(ms, opt, j) {
        ElidedBefore(ms, opt, i, j);
      }
      WrittenOne(ms[i]);
      WrittenOne(ms[j]);
    }
    SizeIsText(out);
    if opt.targetChars > 0 && |WrittenOut(out)| > opt.targetChars {
      MissedTargetMeansExhausted(ms, opt);
      forall i | 0 <= i < |ms| && MayGo(ms, opt, i)
        ensures out[i].content == Instead(opt, ms[i].content)
      {
        EligibleIffMayGo(ms, opt, i);
      }
    }
  }

  // ---- arguments ------------------------------------------------------------------------------

  /** A result of this call was elided. */
  predicate ResultGone(ms: seq<Message>, opt: Options, id: string) {
    id != "" && exists j :: 0 <= j < |ms| && ms[j].toolCallID == id && MayGo(ms, opt, j) && BodyGone(ms, opt, j)
  }

  predicate BodyGone(ms: seq<Message>, opt: Options, j: nat) {
    j < |ms| && |Compacted(ms, opt)| == |ms| && Compacted(ms, opt)[j].content == Instead(opt, ms[j].content)
  }

  const ARGUMENTS_GONE := "{\"compacted\":\"arguments elided to fit the context window\"}"

  /** A call after compaction: as it was, or, its result elided, without arguments that were longer than this. */
  predicate CallKept(ms: seq<Message>, opt: Options, c: ToolCall, d: ToolCall) {
    d == c || (opt.elideToolCallArgs && ResultGone(ms, opt, c.id) && |c.arguments| > |ARGUMENTS_GONE|
               && d == c.(arguments := ARGUMENTS_GONE))
  }

  lemma SpentIsGone(ms: seq<Message>, opt: Options, id: string)
    requires id in Spent(ms, opt)
    ensures ResultGone(ms, opt, id)
  {
    var j := SpentBy(ms, opt, id);
    EligibleIffMayGo(ms, opt, j);
    BodyOf(ms, opt, j);
    assert BodyGone(ms, opt, j);
  }

  /** The calls of a compacted conversation: all kept, in place, and only those of assistant turns stripped. */
  lemma ArgumentsThatGo(ms: seq<Message>, opt: Options)
    ensures var out := Compacted(ms, opt);
      && |out| == |ms|
      && forall i :: 0 <= i < |ms| ==>
        && |out[i].toolCalls| == |ms[i].toolCalls|
        && (ms[i].role != "assistant" ==> out[i].toolCalls == ms[i].toolCalls)
        && forall c :: 0 <= c < |ms[i].toolCalls| ==> CallKept(ms, opt, ms[i].toolCalls[c], out[i].toolCalls[c])
  {
    hide CallKept;
    CompactedPointwise(ms, opt);
    forall i | 0 <= i < |ms|
      ensures var out := Compacted(ms, opt);
        && |out[i].toolCalls| == |ms[i].toolCalls|
        && (ms[i].role != "assistant" ==> out[i].toolCalls == ms[i].toolCalls)
        && forall c :: 0 <= c < |ms[i].toolCalls| ==> CallKept(ms, opt, ms[i].toolCalls[c], out[i].toolCalls[c])
    {
      StubCallsShape(ms[i].toolCalls, Spent(ms, opt));
      forall c | 0 <= c < |ms[i].toolCalls|
        ensures CallKept(ms, opt, ms[i].toolCalls[c], StubCall(ms[i].toolCalls[c], Spent(ms, opt)))
        ensures CallKept(ms, opt, ms[i].toolCalls[c], ms[i].toolCalls[c])
      {
        CallStripped(ms, opt, ms[i].toolCalls[c]);
      }
    }
  }

  lemma CallStripped(ms: seq<Message>, opt: Options, c: ToolCall)
    ensures CallKept(ms, opt, c, StubCall(c, Spent(ms, opt))) && CallKept(ms, opt, c, c)
  {
    hide ResultGone, Spent;
    if c.id in Spent(ms, opt) {
      SpentIsGone(ms, opt, c.id);
      SpentNeedsOption(ms, opt, c.id);
    }
  }

  lemma SpentNeedsOption(ms: seq<Message>, opt: Options, id: string)
    requires id in Spent(ms, opt)
    ensures opt.elideToolCallArgs
  {
  }

  // ---- the count reported ---------------------------------------------------------------------

  /** The messages whose calls were stripped. */
  function Stripped(ms: seq<Message>, out: seq<Message>): set<nat>
    requires |out| == |ms|
  {
    set i: nat | i < |ms| && out[i].toolCalls != ms[i].toolCalls
  }

  function ResultsGone(ms: seq<Message>, opt: Options): set<nat> { set i: nat | i < |ms| && Elided(ms, opt, i) }

  lemma StripsCallsOnly(m: Message, ids: set<string>)
    ensures StubArguments(m, ids) != m <==> StubArguments(m, ids).toolCalls != m.toolCalls
  {
  }

  lemma {:induction false} StubCountCounts(ms: seq<Message>, ids: set<string>, target: int, i: nat)
    requires i <= |ms|
    ensures var out := StubFrom(ms, ids, target, i);
      |out| == |ms| && StubCount(ms, ids, target, i) == |Stripped(ms, out)|
    decreases |ms| - i
  {
    hide Size, StubArguments, Stripped;
    StubFromPointwise(ms, ids, target, i);
    var out := StubFrom(ms, ids, target, i);
    if i == |ms| || Size(ms) <= target {
      NoneStripped(ms);
    } else {
      var next := ms[i := StubArguments(ms[i], ids)];
      StubCountCounts(next, ids, target, i + 1);
      StubFromPointwise(next, ids, target, i + 1);
      StripsCallsOnly(ms[i], ids);
      OneStripped(ms, i, StubArguments(ms[i], ids), out);
    }
  }

  lemma NoneStripped(ms: seq<Message>)
    ensures Stripped(ms, ms) == {}
  {
  }

  /** Of two conversations that differ in message i, which the outcome has as the second does. */
  lemma OneStripped(ms: seq<Message>, i: nat, m: Message, out: seq<Message>)
    requires i < |ms| && |out| == |ms| && out[i] == m
    ensures |Stripped(ms, out)| == |Stripped(ms[i := m], out)| + if m.toolCalls != ms[i].toolCalls then 1 else 0
  {
    var rest := Stripped(ms[i := m], out);
    assert i !in rest;
    assert Stripped(ms, out) == if m.toolCalls != ms[i].toolCalls then rest + {i} else rest;
  }

  lemma {:induction false} FirstCounts(order: seq<nat>, k: nat)
    requires k <= |order| && Distinct(order)
    ensures |First(order, k)| == k
  {
    if k > 0 {
      FirstCounts(order, k - 1);
      assert First(order, k) == First(order, k - 1) + {order[k - 1]};
    }
  }

  /** What the report counts: the results elided and the messages whose calls were stripped. */
  lemma ElidedCountCounts(ms: seq<Message>, opt: Options)
    ensures var out := Compacted(ms, opt);
      |out| == |ms| && ElidedCount(ms, opt) == |ResultsGone(ms, opt)| + |Stripped(ms, out)|
  {
    hide StubCount, StubFrom, Size, StopAt, OrderFor;
    var out, order, k := Compacted(ms, opt), OrderFor(ms, opt), ResultsElided(ms, opt);
    CompactedPointwise(ms, opt);
    if NothingToDo(ms, opt) {
      assert ResultsGone(ms, opt) == {} && Stripped(ms, out) == {};
    } else {
      assert ResultsGone(ms, opt) == First(order, k);
      FirstCounts(order, k);
      var mid := AfterResults(ms, opt);
      if opt.elideToolCallArgs {
        StubCountCounts(mid, IDsElided(ms, opt), opt.targetChars, 0);
        assert Stripped(ms, out) == Stripped(mid, out);
      } else {
        assert Stripped(ms, out) == {};
      }
    }
  }
}
