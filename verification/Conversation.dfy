/**
 * The conversation the loop accumulates and what makes it well-formed: an optional system
 * message, then user messages and blocks of one assistant turn followed by exactly its results.
 *
 * A Go string is a sequence of bytes; here a `char` stands for one byte, so |s| is len(s).
 */
module Conversation {

  const SYSTEM := "system"
  const USER := "user"
  const ASSISTANT := "assistant"
  const TOOL := "tool"

  datatype ToolCall = ToolCall(id: string, name: string, arguments: string)

  datatype Message = Message(role: string, content: string, toolCallID: string, toolCalls: seq<ToolCall>)

  function SystemMessage(content: string): Message { Message(SYSTEM, content, "", []) }
  function UserMessage(content: string): Message { Message(USER, content, "", []) }
  function AssistantTurn(calls: seq<ToolCall>): Message { Message(ASSISTANT, "", "", calls) }
  function ToolAnswer(call: ToolCall, content: string): Message { Message(TOOL, content, call.id, []) }

  predicate IsUser(m: Message) { m.role == USER && m.toolCallID == "" && m.toolCalls == [] }
  predicate IsSystem(m: Message) { m.role == SYSTEM && m.toolCallID == "" && m.toolCalls == [] }
  predicate IsAsking(m: Message) { m.role == ASSISTANT && m.toolCallID == "" && m.toolCalls != [] }

  /** The results answer the calls one for one, in the order the calls were made. */
  predicate Answers(calls: seq<ToolCall>, results: seq<Message>) {
    && |results| == |calls|
    && forall i :: 0 <= i < |calls| ==>
      results[i].role == TOOL && results[i].toolCallID == calls[i].id && results[i].toolCalls == []
  }

  /** User messages and complete assistant-with-results blocks, and nothing else. */
  predicate Turns(ms: seq<Message>) {
    if ms == [] then true
    else if IsUser(ms[0]) then Turns(ms[1..])
    else
      var k := |ms[0].toolCalls|;
      IsAsking(ms[0]) && k < |ms| && Answers(ms[0].toolCalls, ms[1..k + 1]) && Turns(ms[k + 1..])
  }

  /** The messages after the optional system message. */
  function Body(ms: seq<Message>): seq<Message> {
    if ms != [] && IsSystem(ms[0]) then ms[1..] else ms
  }

  predicate WellFormed(ms: seq<Message>) {
    Turns(Body(ms))
  }

  /** Every call the conversation records, in order. */
  function Calls(ms: seq<Message>): seq<ToolCall> {
    if ms == [] then [] else ms[0].toolCalls + Calls(ms[1..])
  }

  /** Every tool output the conversation records, in order. */
  function Outputs(ms: seq<Message>): seq<string> {
    if ms == [] then []
    else (if ms[0].role == TOOL then [ms[0].content] else []) + Outputs(ms[1..])
  }

  lemma {:induction false} TurnsConcat(a: seq<Message>, b: seq<Message>)
    requires Turns(a) && Turns(b)
    ensures Turns(a + b)
  {
    if a == [] {
      assert a + b == b;
    } else {
      var k := if IsUser(a[0]) then 0 else |a[0].toolCalls|;
      assert (a + b)[1..k + 1] == a[1..k + 1];
      assert (a + b)[k + 1..] == a[k + 1..] + b;
      TurnsConcat(a[k + 1..], b);
    }
  }

  lemma BodyConcat(a: seq<Message>, b: seq<Message>)
    requires b != [] ==> !IsSystem(b[0])
    ensures Body(a + b) == Body(a) + b
  {
    if a == [] {
      assert a + b == b;
    } else {
      assert (a + b)[1..] == a[1..] + b;
    }
  }

  lemma TurnsNotSystem(ms: seq<Message>)
    requires Turns(ms) && ms != []
    ensures !IsSystem(ms[0])
  {
    assert SYSTEM[0] != USER[0] && SYSTEM[0] != ASSISTANT[0];
  }

  /** A well-formed conversation stays well-formed when complete turns are appended. */
  lemma WellFormedConcat(a: seq<Message>, b: seq<Message>)
    requires WellFormed(a) && Turns(b)
    ensures WellFormed(a + b)
  {
    if b != [] {
      TurnsNotSystem(b);
    }
    BodyConcat(a, b);
    TurnsConcat(Body(a), b);
  }

  lemma UserTurn(text: string)
    ensures Turns([UserMessage(text)])
  {
  }

  lemma BlockTurn(calls: seq<ToolCall>, results: seq<Message>)
    requires calls != [] && Answers(calls, results)
    ensures Turns([AssistantTurn(calls)] + results)
  {
    var ms := [AssistantTurn(calls)] + results;
    assert ms[1..|calls| + 1] == results;
    assert ms[|calls| + 1..] == [];
  }

  lemma {:induction false} CallsConcat(a: seq<Message>, b: seq<Message>)
    ensures Calls(a + b) == Calls(a) + Calls(b)
  {
    if a == [] {
      assert a + b == b;
    } else {
      assert (a + b)[1..] == a[1..] + b;
      CallsConcat(a[1..], b);
    }
  }

  lemma {:induction false} OutputsConcat(a: seq<Message>, b: seq<Message>)
    ensures Outputs(a + b) == Outputs(a) + Outputs(b)
  {
    if a == [] {
      assert a + b == b;
    } else {
      assert (a + b)[1..] == a[1..] + b;
      OutputsConcat(a[1..], b);
    }
  }
}
