/** Compaction as it runs: a copied buffer, a running size, two passes over it, a re-chained result. */
module Compactor {
  import opened Wrappers
  import opened Conversation
  import opened Checkpoints
  import opened Resume
  import opened Eligibility
  import opened Compaction
  import Sorting
  import opened CompactionFacts
  import opened Text

  datatype CompactError = NoCheckpoint | WrongVersion(found: int) | Empty

  datatype Report = Report(beforeChars: nat, afterChars: nat, elided: nat, fit: bool)

  method CountChars(msgs: array<Message>) returns (n: nat)
    ensures n == Size(msgs[..])
  {
    n := 0;
    for i := 0 to msgs.Length
      invariant n + Size(msgs[i..]) == Size(msgs[..])
    {
      assert msgs[i..][1..] == msgs[i + 1..];
      n := n + MessageChars(msgs[i]);
    }
  }

  /** Replaces one result's body; returns the characters that removed, negative when it grew. */
  method StubResult(msgs: array<Message>, idx: nat, stub: string) returns (saved: int)
    requires idx < msgs.Length
    modifies msgs
    ensures msgs[..] == old(msgs[..])[idx := Stubbed(old(msgs[idx]), stub)]
    ensures saved == Saving(old(msgs[idx]), stub)
  {
    var m := msgs[idx];
    msgs[idx] := m.(content := StubText(stub, |m.content|));
    saved := MessageChars(m) - MessageChars(msgs[idx]);
  }

  /** First pass: results in the given order, until the running size meets the target. */
  method ElideResults(msgs: array<Message>, eligible: seq<nat>, target: int, stub: string, ghost ms: seq<Message>)
    returns (cur: int, ids: set<string>, elided: nat)
    requires msgs[..] == ms && Indexes(eligible, ms)
    modifies msgs
    ensures elided == StopAt(ms, eligible, target, stub, 0)
    ensures msgs[..] == ElideFirst(ms, eligible, elided, stub) && cur == Size(msgs[..])
    ensures ids == ElidedIDs(ms, eligible, elided)
  {
    cur := CountChars(msgs);
    ids, elided := {}, 0;
    ElideNone(ms, eligible, stub);
    while elided < |eligible|
      invariant elided <= |eligible|
      invariant msgs[..] == ElideFirst(ms, eligible, elided, stub)
      invariant cur == Size(msgs[..])
      invariant ids == ElidedIDs(ms, eligible, elided)
      invariant StopAt(ms, eligible, target, stub, elided) == StopAt(ms, eligible, target, stub, 0)
    {
      if cur <= target {
        break;
      }
      var idx := eligible[elided];
      ElideOneMore(ms, eligible, elided, stub);
      assert msgs[idx] == msgs[..][idx];
      var saved := StubResult(msgs, idx, stub);
      cur := cur - saved;
      var id := msgs[idx].toolCallID;
      assert id == ms[idx].toolCallID;
      ids := if id != "" then ids + {id} else ids;
      IDsStep(ms, eligible, elided);
      elided := elided + 1;
    }
  }

  lemma IDsStep(ms: seq<Message>, order: seq<nat>, k: nat)
    requires Indexes(order, ms) && k < |order|
    ensures ElidedIDs(ms, order, k + 1) ==
            ElidedIDs(ms, order, k) + if ms[order[k]].toolCallID != "" then {ms[order[k]].toolCallID} else {}
  {
  }

  lemma {:induction false} CallsCharsConcat(a: seq<ToolCall>, b: seq<ToolCall>)
    ensures CallsChars(a + b) == CallsChars(a) + CallsChars(b)
  {
    if a == [] {
      assert a + b == b;
    } else {
      assert (a + b)[1..] == a[1..] + b;
      CallsCharsConcat(a[1..], b);
    }
  }

  lemma {:induction false} StubCallsConcat(a: seq<ToolCall>, b: seq<ToolCall>, ids: set<string>)
    ensures StubCalls(a + b, ids) == StubCalls(a, ids) + StubCalls(b, ids)
  {
    if a == [] {
      assert a + b == b;
    } else {
      assert (a + b)[1..] == a[1..] + b;
      StubCallsConcat(a[1..], b, ids);
    }
  }

  /** The calls with spent arguments stubbed, and what that removed; the calls given are not changed. */
  method StubCallArgs(calls: seq<ToolCall>, ids: set<string>) returns (stubbed: seq<ToolCall>, saved: nat)
    ensures stubbed == StubCalls(calls, ids)
    ensures saved == CallsChars(calls) - CallsChars(stubbed)
  {
    stubbed, saved := [], 0;
    for i := 0 to |calls|
      invariant stubbed == StubCalls(calls[..i], ids)
      invariant saved + CallsChars(stubbed) == CallsChars(calls[..i])
    {
      var c := calls[i];
      assert calls[..i + 1] == calls[..i] + [c];
      StubCallsConcat(calls[..i], [c], ids);
      CallsCharsConcat(calls[..i], [c]);
      var d := c;
      if c.id in ids && |c.arguments| > |COMPACTED| {
        saved := saved + (|c.arguments| - |COMPACTED|);
        d := c.(arguments := COMPACTED);
      }
      CallsCharsConcat(stubbed, [d]);
      stubbed := stubbed + [d];
    }
    assert calls[..|calls|] == calls;
  }

  /** Second pass: the arguments of spent calls, assistant turn by assistant turn. */
  method ElideArguments(msgs: array<Message>, ids: set<string>, target: int, cur0: int, ghost ms: seq<Message>)
    returns (cur: int, elided: nat)
    requires msgs[..] == ms && cur0 == Size(ms)
    modifies msgs
    ensures msgs[..] == StubFrom(ms, ids, target, 0) && cur == Size(msgs[..])
    ensures elided == StubCount(ms, ids, target, 0)
  {
    cur, elided := cur0, 0;
    var i := 0;
    while i < msgs.Length
      invariant i <= msgs.Length
      invariant cur == Size(msgs[..])
      invariant StubFrom(msgs[..], ids, target, i) == StubFrom(ms, ids, target, 0)
      invariant elided + StubCount(msgs[..], ids, target, i) == StubCount(ms, ids, target, 0)
    {
      if cur <= target {
        break;
      }
      ghost var before := msgs[..];
      var m := msgs[i];
      StubCallsShape(m.toolCalls, ids);
      if m.role == ASSISTANT && |m.toolCalls| > 0 {
        var stubbed, saved := StubCallArgs(m.toolCalls, ids);
        if saved > 0 {
          msgs[i] := m.(toolCalls := stubbed);
          cur := cur - saved;
          elided := elided + 1;
        }
      }
      assert msgs[..] == before[i := StubArguments(m, ids)];
      SizeUpdate(before, i, StubArguments(m, ids));
      i := i + 1;
    }
  }

  /** A checkpoint of the compacted messages whose previous hash is the source's. */
  function Rechained(hash: Hash, src: Checkpoint, ms: seq<Message>): Checkpoint {
    Seal(hash, src.turn, src.hash, ms)
  }

  /** Works on a copy of the messages, so the source keeps its own. */
  method Shrink(messages: seq<Message>, opt: Options) returns (out: seq<Message>, report: Report)
    ensures out == Compacted(messages, opt)
    ensures report.beforeChars == Size(messages) && report.afterChars == Size(out)
    ensures report.elided == ElidedCount(messages, opt)
    ensures report.fit <==> NothingToDo(messages, opt) || Size(out) <= opt.targetChars
  {
    var stub := if opt.stub == "" then DEFAULT_STUB else opt.stub;
    var msgs := new Message[|messages|](i requires 0 <= i < |messages| => messages[i]);
    assert msgs[..] == messages;
    var before := CountChars(msgs);
    if opt.targetChars <= 0 || before <= opt.targetChars {
      return msgs[..], Report(before, before, 0, true);
    }
    var listed := EligibleToolResults(messages, opt.keepHeadTurns, opt.keepTailTurns);
    var eligible := Sorting.Sort(listed, ByWeight(messages));
    assert eligible == OrderFor(messages, opt);
    var cur, ids, elided := ElideResults(msgs, eligible, opt.targetChars, stub, messages);
    if opt.elideToolCallArgs && cur > opt.targetChars {
      var more: nat;
      cur, more := ElideArguments(msgs, ids, opt.targetChars, cur, msgs[..]);
      elided := elided + more;
    }
    var after := CountChars(msgs);
    return msgs[..], Report(before, after, elided, after <= opt.targetChars);
  }

  /**
   * Compacts a checkpoint into the next link of its chain, and reports sizes that are exact. The
   * source's messages are a value and cannot change.
   */
  method Compact(hash: Hash, src: Option<Checkpoint>, opt: Options)
    returns (r: Result<Checkpoint, CompactError>, report: Report)
    ensures src.None? ==> r == Err(NoCheckpoint)
    ensures src.Some? && src.value.version != VERSION ==> r == Err(WrongVersion(src.value.version))
    ensures src.Some? && src.value.version == VERSION && src.value.messages == [] ==> r == Err(Empty)
    ensures src.Some? && src.value.version == VERSION && src.value.messages != [] ==>
      var out := Compacted(src.value.messages, opt);
      && r == Ok(Rechained(hash, src.value, out))
      && Restore(r.value, 0).Ok?
      && r.value.turn == src.value.turn && r.value.prevHash == src.value.hash && Sealed(hash, r.value)
      && report.beforeChars == |WrittenOut(src.value.messages)| && report.afterChars == |WrittenOut(out)|
      && report.elided == ElidedCount(src.value.messages, opt)
      && (opt.targetChars <= 0 || report.beforeChars <= opt.targetChars ==> out == src.value.messages)
      && (report.fit <==> opt.targetChars <= 0 || |WrittenOut(out)| <= opt.targetChars)
  {
    report := Report(0, 0, 0, false);
    if src.None? {
      return Err(NoCheckpoint), report;
    }
    var c := src.value;
    if c.version != VERSION {
      return Err(WrongVersion(c.version)), report;
    }
    if |c.messages| == 0 {
      return Err(Empty), report;
    }
    var out;
    out, report := Shrink(c.messages, opt);
    CompactedPointwise(c.messages, opt);
    SizeIsText(c.messages);
    SizeIsText(out);
    r := Ok(Rechained(hash, c, out));
  }

  // ---- the chain ------------------------------------------------------------------------------

  lemma CleanConcat(a: string, b: string)
    requires Clean(a) && Clean(b)
    ensures Clean(a + b)
  {
  }

  lemma StubTextIsClean(stub: string, n: nat)
    requires Clean(stub)
    ensures Clean(StubText(stub, n))
  {
    CleanConcat(stub, " (");
    CleanConcat(stub + " (", DecimalNat(n));
    CleanConcat(stub + " (" + DecimalNat(n), " chars elided)");
  }

  /** A clean stub puts no separator into a conversation that has none, so its last hash still pins its messages. */
  lemma CompactionKeepsClean(ms: seq<Message>, opt: Options)
    requires CleanMessages(ms) && Clean(StubOf(opt))
    ensures CleanMessages(Compacted(ms, opt))
  {
    var out := Compacted(ms, opt);
    CompactionKeepsShape(ms, opt);
    CompactedPointwise(ms, opt);
    forall i | 0 <= i < |out|
      ensures Clean(out[i].role) && Clean(out[i].content) && Clean(out[i].toolCallID) && CleanCalls(out[i].toolCalls)
    {
      assert SameShape(ms[i], out[i]);
      StubTextIsClean(StubOf(opt), |ms[i].content|);
    }
  }

  /** Compacting the last checkpoint of a chain writes the chain's next link. */
  lemma CompactionExtendsTheChain(hash: Hash, cs: seq<Checkpoint>, opt: Options)
    requires cs != [] && Chain(hash, cs)
    ensures var last := cs[|cs| - 1];
      Chain(hash, cs + [Rechained(hash, last, Compacted(last.messages, opt))])
  {
    var last := cs[|cs| - 1];
    ChainExtends(hash, cs, Rechained(hash, last, Compacted(last.messages, opt)));
  }
}
