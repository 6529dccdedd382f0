/** Checkpoints of a conversation and the hash chain that links them. */
module Checkpoints {
  import opened Conversation
  import opened Text

  const VERSION := 1

  /** The separators of the hashed form: unit, record, and the NUL between the fields. */
  const US := 0x1f as char
  const RS := 0x1e as char
  const NUL := 0 as char

  datatype Checkpoint = Checkpoint(version: int, turn: int, prevHash: string, hash: string, messages: seq<Message>)

  // ---- the hashed form ------------------------------------------------------------------------

  function CallsKey(calls: seq<ToolCall>): string {
    if calls == [] then "" else calls[0].id + [US] + (calls[0].name + [RS] + CallsKey(calls[1..]))
  }

  function MessageKey(m: Message): string {
    m.role + [US] + (m.content + [US] + (m.toolCallID + [US] + ("[" + (CallsKey(m.toolCalls) + ("]" + [RS])))))
  }

  function MessagesKey(ms: seq<Message>): string {
    if ms == [] then "" else MessageKey(ms[0]) + MessagesKey(ms[1..])
  }

  function Preimage(turn: int, prevHash: string, ms: seq<Message>): string {
    Decimal(turn) + [NUL] + (prevHash + [NUL] + MessagesKey(ms))
  }

  predicate Clean(s: string) { Without(s, US) && Without(s, RS) }

  predicate CleanCalls(calls: seq<ToolCall>) {
    forall i :: 0 <= i < |calls| ==> Clean(calls[i].id) && Clean(calls[i].name)
  }

  /** No hashed field holds a separator. */
  predicate CleanMessages(ms: seq<Message>) {
    forall i :: 0 <= i < |ms| ==>
      Clean(ms[i].role) && Clean(ms[i].content) && Clean(ms[i].toolCallID) && CleanCalls(ms[i].toolCalls)
  }

  /** What the hash sees of a conversation: everything but the arguments of the calls. */
  function ErasedCalls(calls: seq<ToolCall>): seq<ToolCall> {
    if calls == [] then [] else [calls[0].(arguments := "")] + ErasedCalls(calls[1..])
  }

  function Erased(ms: seq<Message>): seq<Message> {
    if ms == [] then [] else [ms[0].(toolCalls := ErasedCalls(ms[0].toolCalls))] + Erased(ms[1..])
  }

  lemma {:induction false} CallsKeySnoc(calls: seq<ToolCall>, tc: ToolCall)
    ensures CallsKey(calls + [tc]) == CallsKey(calls) + (tc.id + [US] + (tc.name + [RS]))
  {
    if calls == [] {
      assert ([] + [tc])[1..] == [];
    } else {
      assert (calls + [tc])[1..] == calls[1..] + [tc];
      CallsKeySnoc(calls[1..], tc);
    }
  }

  lemma {:induction false} MessagesKeySnoc(ms: seq<Message>, m: Message)
    ensures MessagesKey(ms + [m]) == MessagesKey(ms) + MessageKey(m)
  {
    if ms == [] {
      assert ([] + [m])[1..] == [];
    } else {
      assert (ms + [m])[1..] == ms[1..] + [m];
      MessagesKeySnoc(ms[1..], m);
    }
  }

  /** The builder: one pass over the messages, a nested pass over each message's calls. */
  method BuildMessagesKey(ms: seq<Message>) returns (b: string)
    ensures b == MessagesKey(ms)
  {
    b := "";
    for i := 0 to |ms|
      invariant b == MessagesKey(ms[..i])
    {
      var m := ms[i];
      var calls := "";
      for j := 0 to |m.toolCalls|
        invariant calls == CallsKey(m.toolCalls[..j])
      {
        CallsKeySnoc(m.toolCalls[..j], m.toolCalls[j]);
        assert m.toolCalls[..j + 1] == m.toolCalls[..j] + [m.toolCalls[j]];
        calls := calls + (m.toolCalls[j].id + [US] + (m.toolCalls[j].name + [RS]));
      }
      assert m.toolCalls[..|m.toolCalls|] == m.toolCalls;
      MessagesKeySnoc(ms[..i], m);
      assert ms[..i + 1] == ms[..i] + [m];
      b := b + (m.role + [US] + (m.content + [US] + (m.toolCallID + [US] + ("[" + (calls + ("]" + [RS]))))));
    }
    assert ms[..|ms|] == ms;
  }

  lemma {:induction false} CallsKeyConcat(a: seq<ToolCall>, b: seq<ToolCall>)
    ensures CallsKey(a + b) == CallsKey(a) + CallsKey(b)
  {
    if a == [] {
      assert a + b == b;
    } else {
      assert (a + b)[1..] == a[1..] + b;
      CallsKeyConcat(a[1..], b);
      Rejoin(a[0].id, [US], a[0].name, [RS], CallsKey(a[1..]), CallsKey(b));
    }
  }

  lemma Rejoin(i: string, u: string, n: string, r: string, x: string, y: string)
    ensures (i + u + (n + r + x)) + y == i + u + (n + r + (x + y))
  {
  }

  lemma {:induction false} MessagesKeyConcat(a: seq<Message>, b: seq<Message>)
    ensures MessagesKey(a + b) == MessagesKey(a) + MessagesKey(b)
  {
    if a == [] {
      assert a + b == b;
    } else {
      assert (a + b)[1..] == a[1..] + b;
      MessagesKeyConcat(a[1..], b);
    }
  }

  /**
   * The hashed text, byte for byte: the turn and the previous hash, a NUL after each, and the messages
   * one after another; of each its fields with a unit separator after each, then in brackets its calls,
   * one after another, and a record separator; of each call the id, a unit separator, the name, a record
   * separator.
   */
  lemma HashedForm(turn: int, prevHash: string, ms: seq<Message>, ns: seq<Message>, m: Message, calls: seq<ToolCall>,
                   ds: seq<ToolCall>, tc: ToolCall)
    ensures Preimage(turn, prevHash, ms) == Decimal(turn) + [0 as char] + (prevHash + [0 as char] + MessagesKey(ms))
    ensures MessagesKey(ms + ns) == MessagesKey(ms) + MessagesKey(ns)
    ensures MessagesKey([m]) ==
            m.role + [31 as char] + (m.content + [31 as char] + (m.toolCallID + [31 as char]
            + ("[" + (CallsKey(m.toolCalls) + ("]" + [30 as char])))))
    ensures CallsKey(calls + ds) == CallsKey(calls) + CallsKey(ds)
    ensures CallsKey([tc]) == tc.id + [31 as char] + (tc.name + [30 as char])
  {
    MessagesKeyConcat(ms, ns);
    CallsKeyConcat(calls, ds);
    assert [m][1..] == [] && [tc][1..] == [];
    assert MessageKey(m) + "" == MessageKey(m);
    assert tc.name + [RS] + "" == tc.name + [RS];
  }

  // ---- unique decoding ------------------------------------------------------------------------

  lemma {:induction false} CallsAgree(a: seq<ToolCall>, r: string, b: seq<ToolCall>, q: string)
    requires CleanCalls(a) && CleanCalls(b)
    requires CallsKey(a) + ("]" + [RS]) + r == CallsKey(b) + ("]" + [RS]) + q
    ensures ErasedCalls(a) == ErasedCalls(b) && r == q
    decreases |a|
  {
    if a == [] && b == [] {
      EndAgrees(r, q);
    } else if a == [] {
      EndIsNoCall(r, b, q);
    } else if b == [] {
      EndIsNoCall(q, a, r);
    } else {
      OpenCall(a, r);
      OpenCall(b, q);
      var a', b' := CallsKey(a[1..]) + ("]" + [RS]) + r, CallsKey(b[1..]) + ("]" + [RS]) + q;
      FieldsAgree(a[0].id, US, a[0].name + [RS] + a', b[0].id, US, b[0].name + [RS] + b');
      FieldsAgree(a[0].name, RS, a', b[0].name, RS, b');
      CallsAgree(a[1..], r, b[1..], q);
    }
  }

  lemma EndAgrees(r: string, q: string)
    requires "" + ("]" + [RS]) + r == "" + ("]" + [RS]) + q
    ensures r == q
  {
    assert ("" + ("]" + [RS]) + r)[2..] == r && ("" + ("]" + [RS]) + q)[2..] == q;
  }

  lemma OpenCall(a: seq<ToolCall>, r: string)
    requires a != []
    ensures CallsKey(a) + ("]" + [RS]) + r ==
            a[0].id + [US] + (a[0].name + [RS] + (CallsKey(a[1..]) + ("]" + [RS]) + r))
  {
  }

  /** The bracket that ends the calls is followed by RS, an id by US. */
  lemma EndIsNoCall(r: string, b: seq<ToolCall>, q: string)
    requires b != [] && CleanCalls(b)
    ensures CallsKey([]) + ("]" + [RS]) + r != CallsKey(b) + ("]" + [RS]) + q
  {
    OpenCall(b, q);
    assert CallsKey([]) + ("]" + [RS]) + r == "]" + [RS] + r;
    if "]" + [RS] + r == b[0].id + [US] + (b[0].name + [RS] + (CallsKey(b[1..]) + ("]" + [RS]) + q)) {
      FieldsAgree("]", RS, r, b[0].id, US, b[0].name + [RS] + (CallsKey(b[1..]) + ("]" + [RS]) + q));
    }
  }

  lemma OpenMessage(m: Message, r: string)
    ensures MessageKey(m) + r ==
            m.role + [US] + (m.content + [US] + (m.toolCallID + [US] +
              ("[" + (CallsKey(m.toolCalls) + ("]" + [RS]) + r))))
  {
  }

  lemma {:induction false} KeysAgree(a: seq<Message>, b: seq<Message>)
    requires CleanMessages(a) && CleanMessages(b)
    requires MessagesKey(a) == MessagesKey(b)
    ensures Erased(a) == Erased(b)
    decreases |a|
  {
    if a != [] && b != [] {
      var r, q := MessagesKey(a[1..]), MessagesKey(b[1..]);
      MessageAgrees(a[0], r, b[0], q);
      KeysAgree(a[1..], b[1..]);
    }
  }

  lemma MessageAgrees(m: Message, r: string, n: Message, q: string)
    requires CleanMessages([m]) && CleanMessages([n])
    requires MessageKey(m) + r == MessageKey(n) + q
    ensures m.role == n.role && m.content == n.content && m.toolCallID == n.toolCallID
    ensures ErasedCalls(m.toolCalls) == ErasedCalls(n.toolCalls) && r == q
  {
    assert CleanMessages([m]) ==> Clean([m][0].role);
    assert CleanMessages([n]) ==> Clean([n][0].role);
    OpenMessage(m, r);
    OpenMessage(n, q);
    var m3, n3 := CallsKey(m.toolCalls) + ("]" + [RS]) + r, CallsKey(n.toolCalls) + ("]" + [RS]) + q;
    var m2, n2 := m.toolCallID + [US] + ("[" + m3), n.toolCallID + [US] + ("[" + n3);
    FieldsAgree(m.role, US, m.content + [US] + m2, n.role, US, n.content + [US] + n2);
    FieldsAgree(m.content, US, m2, n.content, US, n2);
    FieldsAgree(m.toolCallID, US, "[" + m3, n.toolCallID, US, "[" + n3);
    assert ("[" + m3)[1..] == m3 && ("[" + n3)[1..] == n3;
    CallsAgree(m.toolCalls, r, n.toolCalls, q);
  }

  lemma {:induction false} CallsKeyErased(calls: seq<ToolCall>)
    ensures CallsKey(calls) == CallsKey(ErasedCalls(calls))
  {
    if calls != [] {
      CallsKeyErased(calls[1..]);
      assert ErasedCalls(calls)[1..] == ErasedCalls(calls[1..]);
    }
  }

  lemma {:induction false} MessagesKeyErased(ms: seq<Message>)
    ensures MessagesKey(ms) == MessagesKey(Erased(ms))
  {
    if ms != [] {
      CallsKeyErased(ms[0].toolCalls);
      MessagesKeyErased(ms[1..]);
      assert Erased(ms)[1..] == Erased(ms[1..]);
    }
  }

  /** Separator-free conversations have the same hashed form exactly when they differ at most in arguments. */
  lemma SameKeyIff(a: seq<Message>, b: seq<Message>)
    requires CleanMessages(a) && CleanMessages(b)
    ensures MessagesKey(a) == MessagesKey(b) <==> Erased(a) == Erased(b)
  {
    MessagesKeyErased(a);
    MessagesKeyErased(b);
    if MessagesKey(a) == MessagesKey(b) {
      KeysAgree(a, b);
    }
  }

  /** With one side known to be separator-free, equal forms mean equal up to arguments exactly when the other is. */
  lemma CleanSideIff(a: seq<Message>, b: seq<Message>)
    requires CleanMessages(a) && MessagesKey(a) == MessagesKey(b)
    ensures Erased(a) == Erased(b) <==> CleanMessages(b)
  {
    if CleanMessages(b) {
      KeysAgree(a, b);
    } else if Erased(a) == Erased(b) {
      CleanErased(a);
      CleanErased(b);
    }
  }

  lemma {:induction false} ErasedCallsAt(calls: seq<ToolCall>)
    ensures |ErasedCalls(calls)| == |calls|
    ensures forall i :: 0 <= i < |calls| ==> ErasedCalls(calls)[i] == calls[i].(arguments := "")
  {
    if calls != [] {
      ErasedCallsAt(calls[1..]);
    }
  }

  lemma {:induction false} ErasedAt(ms: seq<Message>)
    ensures |Erased(ms)| == |ms|
    ensures forall i :: 0 <= i < |ms| ==> Erased(ms)[i] == ms[i].(toolCalls := ErasedCalls(ms[i].toolCalls))
  {
    if ms != [] {
      ErasedAt(ms[1..]);
    }
  }

  /** Erasing arguments neither adds nor removes a separator. */
  lemma CleanErased(ms: seq<Message>)
    ensures CleanMessages(Erased(ms)) <==> CleanMessages(ms)
  {
    ErasedAt(ms);
    forall i | 0 <= i < |ms|
      ensures CleanCalls(Erased(ms)[i].toolCalls) <==> CleanCalls(ms[i].toolCalls)
    {
      CleanCallsErased(ms[i].toolCalls);
    }
  }

  lemma CleanCallsErased(calls: seq<ToolCall>)
    ensures CleanCalls(ErasedCalls(calls)) <==> CleanCalls(calls)
  {
    ErasedCallsAt(calls);
    var es := ErasedCalls(calls);
    if CleanCalls(es) {
      forall i | 0 <= i < |calls|
        ensures Clean(calls[i].id) && Clean(calls[i].name)
      {
        assert Clean(es[i].id) && Clean(es[i].name);
      }
    }
  }

  // ---- without the hypothesis -----------------------------------------------------------------

  /** A separator typed into a content moves a field. */
  lemma SeparatorsAreNotEscaped()
    ensures exists a: seq<Message>, b: seq<Message> ::
      |a| == |b| == 1 && a[0].role == b[0].role && Erased(a) != Erased(b) && MessagesKey(a) == MessagesKey(b)
  {
    var a, b := [Message("tool", [US], "", [])], [Message("tool", "", [US], [])];
    assert a[1..] == [] && b[1..] == [];
    assert MessageKey(a[0]) == "tool" + [US, US, US, US] + "[]" + [RS] == MessageKey(b[0]);
    assert Erased(a)[0].content != Erased(b)[0].content;
  }

  /** Everything between the first content and the last message's calls, as one call id. */
  function Swallowed(ms: seq<Message>): string
    requires ms != []
  {
    if |ms| == 1 then ms[0].toolCallID
    else
      ms[0].toolCallID + ([US] + ("[" + (CallsKey(ms[0].toolCalls) + ("]" + [RS] +
        (ms[1].role + ([US] + (ms[1].content + ([US] + Swallowed(ms[1..])))))))))
  }

  /** One message that reads the same: its call id holds all that follows the first content. */
  function TwinOf(ms: seq<Message>): Message
    requires ms != []
  {
    Message(ms[0].role, ms[0].content, Swallowed(ms), ms[|ms| - 1].toolCalls)
  }

  /** From a message's call id on. */
  function KeyTail(id: string, calls: seq<ToolCall>): string { id + ([US] + ("[" + (CallsKey(calls) + ("]" + [RS])))) }

  lemma KeyIsTail(m: Message)
    ensures MessageKey(m) == m.role + ([US] + (m.content + ([US] + KeyTail(m.toolCallID, m.toolCalls))))
  {
  }

  /** What is swallowed, one message further. */
  lemma SwallowOne(m: Message, n: Message, swallowed: string, calls: seq<ToolCall>)
    ensures KeyTail(m.toolCallID, m.toolCalls) + (n.role + ([US] + (n.content + ([US] + KeyTail(swallowed, calls))))) ==
            KeyTail(m.toolCallID + ([US] + ("[" + (CallsKey(m.toolCalls) + ("]" + [RS] +
              (n.role + ([US] + (n.content + ([US] + swallowed)))))))), calls)
  {
  }

  lemma {:induction false} TwinKey(ms: seq<Message>)
    requires ms != []
    ensures MessageKey(TwinOf(ms)) == MessagesKey(ms)
  {
    if |ms| == 1 {
      assert MessagesKey(ms[1..]) == "" && MessageKey(ms[0]) + "" == MessageKey(ms[0]);
    } else {
      var rest := ms[1..];
      var twin, last := TwinOf(rest), ms[|ms| - 1].toolCalls;
      TwinKey(rest);
      KeyIsTail(twin);
      KeyIsTail(TwinOf(ms));
      KeyIsTail(ms[0]);
      SwallowOne(ms[0], ms[1], Swallowed(rest), last);
      OpenTwo(ms[0], KeyTail(ms[0].toolCallID, ms[0].toolCalls), MessagesKey(rest));
    }
  }

  lemma OpenTwo(m: Message, tail: string, more: string)
    ensures (m.role + ([US] + (m.content + ([US] + tail)))) + more ==
            m.role + ([US] + (m.content + ([US] + (tail + more))))
  {
  }

  /**
   * Every conversation of two or more messages has the hashed form, under every hash function the
   * hash, of a conversation of one: nothing but the absence of separators tells them apart.
   */
  lemma EveryConversationHasATwin(hash: Hash, c: Checkpoint)
    requires |c.messages| >= 2 && Sealed(hash, c)
    ensures var twin := [TwinOf(c.messages)];
      && MessagesKey(twin) == MessagesKey(c.messages) && Erased(twin) != Erased(c.messages)
      && Sealed(hash, c.(messages := twin)) && !CleanMessages(twin)
  {
    var twin := [TwinOf(c.messages)];
    TwinKey(c.messages);
    assert twin[1..] == [] && MessageKey(twin[0]) + "" == MessageKey(twin[0]);
    ErasedAt(twin);
    ErasedAt(c.messages);
    var m := c.messages[0];
    assert Swallowed(c.messages)[|m.toolCallID|] == US;
    assert !Clean(twin[0].toolCallID);
  }

  lemma {:induction false} PreimagesAgree(t: int, p: string, a: seq<Message>, u: int, q: string, b: seq<Message>)
    requires Without(p, NUL) && Without(q, NUL)
    requires Preimage(t, p, a) == Preimage(u, q, b)
    ensures t == u && p == q && MessagesKey(a) == MessagesKey(b)
  {
    DecimalHasNoNul(t);
    DecimalHasNoNul(u);
    FieldsAgree(Decimal(t), NUL, p + [NUL] + MessagesKey(a), Decimal(u), NUL, q + [NUL] + MessagesKey(b));
    FieldsAgree(p, NUL, MessagesKey(a), q, NUL, MessagesKey(b));
    DecimalInjective(t, u);
  }

  lemma DecimalHasNoNul(n: int)
    ensures Without(Decimal(n), NUL)
  {
  }

  // ---- the chain ------------------------------------------------------------------------------

  type Hash = string -> string

  /** The hash a checkpoint is given is the one its own fields determine. */
  predicate Sealed(hash: Hash, c: Checkpoint) {
    c.hash == hash(Preimage(c.turn, c.prevHash, c.messages))
  }

  /** Link i is sealed and names the link before it. */
  predicate InPlace(hash: Hash, cs: seq<Checkpoint>, i: nat)
    requires i < |cs|
  {
    Sealed(hash, cs[i]) && cs[i].prevHash == if i == 0 then "" else cs[i - 1].hash
  }

  predicate Chain(hash: Hash, cs: seq<Checkpoint>) { forall i :: 0 <= i < |cs| ==> InPlace(hash, cs, i) }

  /** A sealed link that names the last hash extends the chain. */
  lemma ChainExtends(hash: Hash, cs: seq<Checkpoint>, c: Checkpoint)
    requires Chain(hash, cs) && Sealed(hash, c)
    requires c.prevHash == if cs == [] then "" else cs[|cs| - 1].hash
    ensures Chain(hash, cs + [c])
  {
    hide Sealed;
    var ds := cs + [c];
    forall i | 0 <= i < |ds|
      ensures InPlace(hash, ds, i)
    {
      if i < |cs| {
        StaysInPlace(hash, cs, c, i);
      }
    }
  }

  lemma StaysInPlace(hash: Hash, cs: seq<Checkpoint>, c: Checkpoint, i: nat)
    requires i < |cs| && InPlace(hash, cs, i)
    ensures InPlace(hash, cs + [c], i)
  {
  }

  /** Hex digests: never empty, never a NUL. */
  ghost predicate Digest(hash: Hash) { forall s :: hash(s) != "" && Without(hash(s), NUL) }

  function PreimageOf(c: Checkpoint): string { Preimage(c.turn, c.prevHash, c.messages) }

  predicate ToldApart(hash: Hash, a: seq<Checkpoint>, b: seq<Checkpoint>, i: nat, j: nat)
    requires i < |a| && j < |b|
  {
    hash(PreimageOf(a[i])) == hash(PreimageOf(b[j])) ==> PreimageOf(a[i]) == PreimageOf(b[j])
  }

  /** No collision among the texts these two chains actually hash. */
  predicate NoCollision(hash: Hash, a: seq<Checkpoint>, b: seq<Checkpoint>) {
    forall i, j :: 0 <= i < |a| && 0 <= j < |b| ==> ToldApart(hash, a, b, i, j)
  }

  lemma {:induction false} PrevHasNoNul(hash: Hash, cs: seq<Checkpoint>, i: nat)
    requires Digest(hash) && Chain(hash, cs) && i < |cs|
    ensures Without(cs[i].prevHash, NUL) && (i > 0 ==> cs[i].prevHash != "")
  {
    assert InPlace(hash, cs, i);
    if i > 0 {
      assert InPlace(hash, cs, i - 1);
    }
  }

  lemma LinksAgree(hash: Hash, a: seq<Checkpoint>, i: nat, b: seq<Checkpoint>, j: nat)
    requires Digest(hash) && Chain(hash, a) && Chain(hash, b) && NoCollision(hash, a, b)
    requires i < |a| && j < |b| && a[i].hash == b[j].hash
    ensures a[i].turn == b[j].turn && a[i].prevHash == b[j].prevHash
    ensures MessagesKey(a[i].messages) == MessagesKey(b[j].messages)
  {
    assert InPlace(hash, a, i) && InPlace(hash, b, j) && ToldApart(hash, a, b, i, j);
    PrevHasNoNul(hash, a, i);
    PrevHasNoNul(hash, b, j);
    PreimagesAgree(a[i].turn, a[i].prevHash, a[i].messages, b[j].turn, b[j].prevHash, b[j].messages);
  }

  lemma PrevNamesTheLink(hash: Hash, cs: seq<Checkpoint>, i: nat)
    requires Digest(hash) && Chain(hash, cs) && i < |cs|
    ensures (cs[i].prevHash == "" <==> i == 0) && (i > 0 ==> cs[i].prevHash == cs[i - 1].hash)
  {
    PrevHasNoNul(hash, cs, i);
    assert InPlace(hash, cs, i);
  }

  /** The same link as far as hashing goes. */
  predicate Agree(c: Checkpoint, d: Checkpoint) {
    c.turn == d.turn && c.hash == d.hash && c.prevHash == d.prevHash &&
      MessagesKey(c.messages) == MessagesKey(d.messages)
  }

  /** Links with equal hashes agree, and either both are first or both have predecessors with equal hashes. */
  predicate StepsBack(a: seq<Checkpoint>, b: seq<Checkpoint>, i: nat, j: nat)
    requires i < |a| && j < |b|
  {
    a[i].hash == b[j].hash ==>
      Agree(a[i], b[j]) && (i == 0 <==> j == 0) && (i > 0 && j > 0 ==> a[i - 1].hash == b[j - 1].hash)
  }

  lemma LinksStepBack(hash: Hash, a: seq<Checkpoint>, i: nat, b: seq<Checkpoint>, j: nat)
    requires Digest(hash) && Chain(hash, a) && Chain(hash, b) && NoCollision(hash, a, b)
    requires i < |a| && j < |b|
    ensures StepsBack(a, b, i, j)
  {
    if a[i].hash == b[j].hash {
      LinksAgree(hash, a, i, b, j);
      PrevNamesTheLink(hash, a, i);
      PrevNamesTheLink(hash, b, j);
    }
  }

  predicate AllStepBack(a: seq<Checkpoint>, b: seq<Checkpoint>) {
    forall i, j :: 0 <= i < |a| && 0 <= j < |b| ==> StepsBack(a, b, i, j)
  }

  lemma ChainsStepBack(hash: Hash, a: seq<Checkpoint>, b: seq<Checkpoint>)
    requires Digest(hash) && Chain(hash, a) && Chain(hash, b) && NoCollision(hash, a, b)
    ensures AllStepBack(a, b)
  {
    forall i, j | 0 <= i < |a| && 0 <= j < |b|
      ensures StepsBack(a, b, i, j)
    {
      LinksStepBack(hash, a, i, b, j);
    }
  }

  /** The first n links agree. */
  predicate AgreeBelow(a: seq<Checkpoint>, b: seq<Checkpoint>, n: nat) {
    n <= |a| && n <= |b| && forall k :: 0 <= k < n ==> Agree(a[k], b[k])
  }

  lemma OneMoreAgrees(a: seq<Checkpoint>, b: seq<Checkpoint>, n: nat)
    requires AgreeBelow(a, b, n) && n < |a| && n < |b| && Agree(a[n], b[n])
    ensures AgreeBelow(a, b, n + 1)
  {
  }

  /** Stepping back from two links with equal hashes, both chains reach their first at once. */
  lemma {:induction false} HashPinsThePast(a: seq<Checkpoint>, i: nat, b: seq<Checkpoint>, j: nat)
    requires AllStepBack(a, b)
    requires i < |a| && j < |b| && a[i].hash == b[j].hash
    ensures i == j && AgreeBelow(a, b, i + 1)
    decreases i
  {
    assert StepsBack(a, b, i, j);
    if i > 0 {
      HashPinsThePast(a, i - 1, b, j - 1);
      OneMoreAgrees(a, b, i);
    }
  }

  /**
   * The last hash pins the whole history: two chains that end in the same hash have the same length
   * and agree, link by link, on the turn, on the hash before, and on the hashed form of the messages.
   */
  lemma LastHashPinsTheChain(hash: Hash, a: seq<Checkpoint>, b: seq<Checkpoint>)
    requires Digest(hash) && Chain(hash, a) && Chain(hash, b) && NoCollision(hash, a, b)
    requires a != [] && b != [] && a[|a| - 1].hash == b[|b| - 1].hash
    ensures |a| == |b| && AgreeBelow(a, b, |a|)
  {
    ChainsStepBack(hash, a, b);
    HashPinsThePast(a, |a| - 1, b, |b| - 1);
  }

  /**
   * So an edit to a chain of separator-free conversations that keeps its last hash went no further
   * than call arguments in exactly the links where it put no separator into a field.
   */
  lemma LastHashPinsTheMessagesIff(hash: Hash, a: seq<Checkpoint>, b: seq<Checkpoint>)
    requires Digest(hash) && Chain(hash, a) && Chain(hash, b) && NoCollision(hash, a, b)
    requires a != [] && b != [] && a[|a| - 1].hash == b[|b| - 1].hash
    requires forall k :: 0 <= k < |a| ==> CleanMessages(a[k].messages)
    ensures |a| == |b| && forall k :: 0 <= k < |a| ==>
      (Erased(a[k].messages) == Erased(b[k].messages) <==> CleanMessages(b[k].messages))
  {
    LastHashPinsTheChain(hash, a, b);
    forall k | 0 <= k < |a|
      ensures Erased(a[k].messages) == Erased(b[k].messages) <==> CleanMessages(b[k].messages)
    {
      assert Agree(a[k], b[k]);
      CleanSideIff(a[k].messages, b[k].messages);
    }
  }

  /**
   * What the chain does not notice: a conversation that differs from the sealed one only in call
   * arguments carries the same hash under every hash function.
   */
  lemma ArgumentsAreNotSealed(hash: Hash, c: Checkpoint, ms: seq<Message>)
    requires Sealed(hash, c) && Erased(ms) == Erased(c.messages)
    ensures Sealed(hash, c.(messages := ms))
  {
    MessagesKeyErased(ms);
    MessagesKeyErased(c.messages);
  }
}
