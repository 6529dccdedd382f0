/** Compaction on values: sizes, the greedy first pass, the argument-stubbing second pass. */
module Compaction {
  import opened Conversation
  import opened Eligibility
  import opened Sorting
  import opened Text

  const DEFAULT_STUB := "[compacted: tool output elided to fit the context window]"
  const COMPACTED := "{\"compacted\":\"arguments elided to fit the context window\"}"

  // ---- sizes ----------------------------------------------------------------------------------

  function CallsChars(calls: seq<ToolCall>): nat {
    if calls == [] then 0 else |calls[0].id| + |calls[0].name| + |calls[0].arguments| + CallsChars(calls[1..])
  }

  function MessageChars(m: Message): nat { |m.content| + |m.toolCallID| + CallsChars(m.toolCalls) }

  function Size(ms: seq<Message>): nat {
    if ms == [] then 0 else MessageChars(ms[0]) + Size(ms[1..])
  }

  /** A call's id, name and arguments, one call after another. */
  function CallsWritten(calls: seq<ToolCall>): string {
    if calls == [] then "" else calls[0].id + calls[0].name + calls[0].arguments + CallsWritten(calls[1..])
  }

  /** Everything a conversation is charged for, written out one after another. */
  function WrittenOut(ms: seq<Message>): string {
    if ms == [] then ""
    else ms[0].content + ms[0].toolCallID + CallsWritten(ms[0].toolCalls) + WrittenOut(ms[1..])
  }

  lemma {:induction false} CallsCharsIsText(calls: seq<ToolCall>)
    ensures CallsChars(calls) == |CallsWritten(calls)|
  {
    if calls != [] {
      CallsCharsIsText(calls[1..]);
    }
  }

  /** The size of a conversation is the length of that text. */
  lemma {:induction false} SizeIsText(ms: seq<Message>)
    ensures Size(ms) == |WrittenOut(ms)|
  {
    if ms != [] {
      CallsCharsIsText(ms[0].toolCalls);
      SizeIsText(ms[1..]);
    }
  }

  lemma WrittenOne(m: Message)
    ensures MessageChars(m) == |WrittenOut([m])|
  {
    SizeIsText([m]);
    assert [m][1..] == [];
  }

  /** Replacing one message moves the size by exactly the difference. */
  lemma {:induction false} SizeUpdate(ms: seq<Message>, i: nat, m: Message)
    requires i < |ms|
    ensures Size(ms[i := m]) == Size(ms) - MessageChars(ms[i]) + MessageChars(m)
  {
    if i == 0 {
      assert ms[0 := m][1..] == ms[1..];
    } else {
      assert ms[i := m][1..] == ms[1..][i - 1 := m];
      SizeUpdate(ms[1..], i - 1, m);
    }
  }

  // ---- the first pass -------------------------------------------------------------------------

  function StubText(stub: string, elided: nat): string {
    stub + " (" + DecimalNat(elided) + " chars elided)"
  }

  function Stubbed(m: Message, stub: string): Message { m.(content := StubText(stub, |m.content|)) }

  /** What eliding a result buys; negative when the stub is longer than what it replaces. */
  function Saving(m: Message, stub: string): int { MessageChars(m) - MessageChars(Stubbed(m, stub)) }

  function Weight(ms: seq<Message>, i: nat): nat { if i < |ms| then MessageChars(ms[i]) else 0 }

  /** Heavier first, ties by position. */
  predicate Heavier(ms: seq<Message>, i: nat, j: nat) {
    Weight(ms, i) > Weight(ms, j) || (Weight(ms, i) == Weight(ms, j) && i < j)
  }

  function ByWeight(ms: seq<Message>): (nat, nat) -> bool { (i: nat, j: nat) => Heavier(ms, i, j) }

  lemma ByWeightIsOrder(ms: seq<Message>)
    ensures StrictOrder(ByWeight(ms))
  {
  }

  /** The order in which results are elided. */
  function Order(ms: seq<Message>, head: int, tail: int): seq<nat> {
    Sort(EligibleBelow(ms, head, tail, |ms|), ByWeight(ms))
  }

  /** Valid, distinct indices into ms. */
  predicate Indexes(order: seq<nat>, ms: seq<Message>) {
    (forall k :: 0 <= k < |order| ==> order[k] < |ms|) && Distinct(order)
  }

  /** The order holds each eligible index once, heaviest first. */
  lemma OrderIsRight(ms: seq<Message>, head: int, tail: int)
    ensures var order := Order(ms, head, tail);
      && Indexes(order, ms) && Sorted(order, ByWeight(ms))
      && (forall i :: 0 <= i < |ms| ==> (i in order <==> Eligible(ms, head, tail, i)))
  {
    var below := EligibleBelow(ms, head, tail, |ms|);
    EligibleBelowAll(ms, head, tail, |ms|);
    SortMembers(below, ByWeight(ms));
    OrderIsSorted(ms, head, tail);
    forall k | 0 <= k < |Order(ms, head, tail)|
      ensures Order(ms, head, tail)[k] < |ms|
    {
      assert Order(ms, head, tail)[k] in Order(ms, head, tail);
    }
  }

  lemma OrderIsSorted(ms: seq<Message>, head: int, tail: int)
    ensures Sorted(Order(ms, head, tail), ByWeight(ms)) && Distinct(Order(ms, head, tail))
  {
    EligibleBelowAll(ms, head, tail, |ms|);
    ByWeightIsOrder(ms);
    SortSorts<nat>(EligibleBelow(ms, head, tail, |ms|), ByWeight(ms));
    SortedDistinct<nat>(Order(ms, head, tail), ByWeight(ms));
  }

  lemma SortMembers(s: seq<nat>, before: (nat, nat) -> bool)
    ensures forall i: nat :: i in Sort(s, before) <==> i in s
  {
    SortElements<nat>(s, before);
    forall i: nat
      ensures i in Sort(s, before) <==> i in s
    {
      assert i in multiset(s) <==> i in s;
      assert i in multiset(Sort(s, before)) <==> i in Sort(s, before);
    }
  }

  /** The conversation with a set of messages stubbed. */
  function Elide(ms: seq<Message>, gone: set<nat>, stub: string): seq<Message> {
    seq(|ms|, i requires 0 <= i < |ms| => if i in gone then Stubbed(ms[i], stub) else ms[i])
  }

  function First(order: seq<nat>, k: nat): set<nat>
    requires k <= |order|
  {
    set i | 0 <= i < k :: order[i]
  }

  function ElideFirst(ms: seq<Message>, order: seq<nat>, k: nat, stub: string): seq<Message>
    requires k <= |order|
  {
    Elide(ms, First(order, k), stub)
  }

  /** Eliding one more in order is one update of what is there. */
  lemma ElideOneMore(ms: seq<Message>, order: seq<nat>, k: nat, stub: string)
    requires Indexes(order, ms) && k < |order|
    ensures ElideFirst(ms, order, k, stub)[order[k]] == ms[order[k]]
    ensures ElideFirst(ms, order, k + 1, stub) ==
            ElideFirst(ms, order, k, stub)[order[k] := Stubbed(ms[order[k]], stub)]
    ensures Size(ElideFirst(ms, order, k + 1, stub)) ==
            Size(ElideFirst(ms, order, k, stub)) - Saving(ms[order[k]], stub)
  {
    assert First(order, k + 1) == First(order, k) + {order[k]};
    assert order[k] !in First(order, k);
    assert ElideFirst(ms, order, k + 1, stub) ==
      ElideFirst(ms, order, k, stub)[order[k] := Stubbed(ms[order[k]], stub)];
    SizeUpdate(ElideFirst(ms, order, k, stub), order[k], Stubbed(ms[order[k]], stub));
  }

  lemma ElideNone(ms: seq<Message>, order: seq<nat>, stub: string)
    ensures ElideFirst(ms, order, 0, stub) == ms
  {
  }

  /** Where the first pass stops, having elided k already: at the target, or with nothing left. */
  function StopAt(ms: seq<Message>, order: seq<nat>, target: int, stub: string, k: nat): (n: nat)
    requires k <= |order|
    ensures k <= n <= |order|
    ensures n == |order| || Size(ElideFirst(ms, order, n, stub)) <= target
    ensures forall j :: k <= j < n ==> Size(ElideFirst(ms, order, j, stub)) > target
    decreases |order| - k
  {
    if k == |order| || Size(ElideFirst(ms, order, k, stub)) <= target then k
    else StopAt(ms, order, target, stub, k + 1)
  }

  /** The non-empty ids of the results elided. */
  function ElidedIDs(ms: seq<Message>, order: seq<nat>, k: nat): set<string>
    requires Indexes(order, ms) && k <= |order|
  {
    set i | 0 <= i < k && ms[order[i]].toolCallID != "" :: ms[order[i]].toolCallID
  }

  // ---- the second pass ------------------------------------------------------------------------

  function StubCall(c: ToolCall, ids: set<string>): ToolCall {
    if c.id in ids && |c.arguments| > |COMPACTED| then c.(arguments := COMPACTED) else c
  }

  function StubCalls(calls: seq<ToolCall>, ids: set<string>): seq<ToolCall> {
    if calls == [] then [] else [StubCall(calls[0], ids)] + StubCalls(calls[1..], ids)
  }

  function StubArguments(m: Message, ids: set<string>): Message {
    if m.role == ASSISTANT then m.(toolCalls := StubCalls(m.toolCalls, ids)) else m
  }

  /** Stubbing arguments from message i on, until the target is met. */
  function StubFrom(ms: seq<Message>, ids: set<string>, target: int, i: nat): seq<Message>
    requires i <= |ms|
    decreases |ms| - i
  {
    if i == |ms| || Size(ms) <= target then ms
    else StubFrom(ms[i := StubArguments(ms[i], ids)], ids, target, i + 1)
  }

  /** How many messages that changes. */
  function StubCount(ms: seq<Message>, ids: set<string>, target: int, i: nat): nat
    requires i <= |ms|
    decreases |ms| - i
  {
    if i == |ms| || Size(ms) <= target then 0
    else
      (if StubArguments(ms[i], ids) != ms[i] then 1 else 0)
      + StubCount(ms[i := StubArguments(ms[i], ids)], ids, target, i + 1)
  }

  lemma {:induction false} StubCallsShape(calls: seq<ToolCall>, ids: set<string>)
    ensures var stubbed := StubCalls(calls, ids);
      && |stubbed| == |calls|
      && (forall i :: 0 <= i < |calls| ==> stubbed[i] == StubCall(calls[i], ids))
      && CallsChars(stubbed) <= CallsChars(calls)
      && (CallsChars(stubbed) == CallsChars(calls) ==> stubbed == calls)
  {
    if calls != [] {
      StubCallsShape(calls[1..], ids);
      assert StubCalls(calls, ids)[1..] == StubCalls(calls[1..], ids);
      assert calls == [calls[0]] + calls[1..];
    }
  }

  // ---- the whole ------------------------------------------------------------------------------

  datatype Options = Options(
    targetChars: int, keepHeadTurns: int, keepTailTurns: int, elideToolCallArgs: bool, stub: string)

  function StubOf(opt: Options): string { if opt.stub == "" then DEFAULT_STUB else opt.stub }

  predicate NothingToDo(ms: seq<Message>, opt: Options) {
    opt.targetChars <= 0 || Size(ms) <= opt.targetChars
  }

  function OrderFor(ms: seq<Message>, opt: Options): (order: seq<nat>)
    ensures Indexes(order, ms)
  {
    OrderIsRight(ms, opt.keepHeadTurns, opt.keepTailTurns);
    Order(ms, opt.keepHeadTurns, opt.keepTailTurns)
  }

  /** How many results the first pass elides. */
  function ResultsElided(ms: seq<Message>, opt: Options): nat {
    StopAt(ms, OrderFor(ms, opt), opt.targetChars, StubOf(opt), 0)
  }

  function AfterResults(ms: seq<Message>, opt: Options): seq<Message> {
    ElideFirst(ms, OrderFor(ms, opt), ResultsElided(ms, opt), StubOf(opt))
  }

  function IDsElided(ms: seq<Message>, opt: Options): set<string> {
    ElidedIDs(ms, OrderFor(ms, opt), ResultsElided(ms, opt))
  }

  function Compacted(ms: seq<Message>, opt: Options): seq<Message> {
    if NothingToDo(ms, opt) then ms
    else if opt.elideToolCallArgs then StubFrom(AfterResults(ms, opt), IDsElided(ms, opt), opt.targetChars, 0)
    else AfterResults(ms, opt)
  }

  function ElidedCount(ms: seq<Message>, opt: Options): nat {
    if NothingToDo(ms, opt) then 0
    else
      ResultsElided(ms, opt)
      + if opt.elideToolCallArgs then StubCount(AfterResults(ms, opt), IDsElided(ms, opt), opt.targetChars, 0) else 0
  }
}
