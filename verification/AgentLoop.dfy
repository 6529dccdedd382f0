/** The loop as the mutable object its callers hold, each method refining the value-level machine. */
module AgentLoop {
  import opened Wrappers
  import opened Conversation
  import opened LoopMachine
  import opened Checkpoints
  import opened Resume
  import Text

  class Loop {
    var state: State
    var messages: seq<Message>
    var pending: seq<ToolCall>
    var answered: seq<Message>
    var maxTools: int
    var used: int
    var textShownThisTurn: bool
    var budget: int

    /** The loop's whole state as a value. */
    function View(): LoopState
      reads this
    {
      LoopState(state, messages, pending, answered, maxTools, used, textShownThisTurn, budget)
    }

    constructor (system: string, maxTools: int)
      ensures View() == LoopMachine.New(system, maxTools)
      ensures state == Idle && used == 0 && this.maxTools == budget == maxTools
      ensures messages == if system == "" then [] else [Message("system", system, "", [])]
    {
      state, pending, answered := Idle, [], [];
      this.maxTools, budget, used, textShownThisTurn := maxTools, maxTools, 0, false;
      messages := if system != "" then [SystemMessage(system)] else [];
    }

    /** Starts idle on a given history, with the whole budget unspent. */
    constructor Restored(history: seq<Message>, maxTools: int)
      ensures View() == LoopMachine.New("", maxTools).(messages := history)
    {
      state, pending, answered := Idle, [], [];
      this.maxTools, budget, used, textShownThisTurn := maxTools, maxTools, 0, false;
      messages := history;
    }

    method Step(e: Event) returns (actions: seq<Action>)
      modifies this
      ensures Outcome(View(), actions) == LoopMachine.Step(old(View()), e)
      ensures old(state) == Idle && e.UserInput? ==>
        messages == old(messages) + [Message("user", e.text, "", [])] && actions == [SendTurn(messages)]
    {
      match e {
        case UserInput(text) =>
          if state != Idle {
            return [];
          }
          used := 0;
          textShownThisTurn := false;
          messages := messages + [UserMessage(text)];
          state := Awaiting;
          return [SendTurn(messages)];
        case ModelText(text) =>
          if text != "" {
            textShownThisTurn := true;
          }
          return [ShowText(text)];
        case ModelReasoning(text) =>
          return [ShowReasoning(text)];
        case ModelToolCall(call) =>
          if call.None? {
            return [];
          }
          pending := pending + [call.value];
          return [];
        case ModelDone(finish) =>
          actions := TurnEnded(finish);
        case ModelError(err) =>
          state, pending, answered := Idle, [], [];
          return [ShowError(err), AwaitInput];
        case ToolResult(call, result, _) =>
          actions := ToolReturned(call, result);
        case BudgetAnswer(allow, grant) =>
          actions := BudgetAnswered(allow, grant);
        case Interrupt =>
          state, pending, answered := Idle, [], [];
          return [AwaitInput];
      }
    }

    method TurnEnded(finish: string) returns (actions: seq<Action>)
      modifies this
      ensures Outcome(View(), actions) == LoopMachine.TurnEnded(old(View()), finish)
    {
      if |pending| == 0 {
        state := Idle;
        if finish == "length" || finish == "incomplete" {
          return [ShowTruncated(finish), AwaitInput];
        }
        if !textShownThisTurn {
          return [ShowNote(SILENT_TURN), AwaitInput];
        }
        return [AwaitInput];
      }
      if used + |pending| > maxTools {
        state := Asking;
        return [AskToContinue(|pending|, used, maxTools)];
      }
      actions := RunPending();
    }

    method BudgetAnswered(allow: bool, grant: int) returns (actions: seq<Action>)
      modifies this
      ensures Outcome(View(), actions) == LoopMachine.BudgetAnswered(old(View()), allow, grant)
      ensures maxTools == old(maxTools) +
              if !(old(state) == Asking && allow) then 0
              else if grant > 0 then grant else if budget > 0 then budget else old(maxTools)
    {
      if state != Asking {
        return [];
      }
      if !allow {
        var n := |pending|;
        state, pending, answered := Idle, [], [];
        return [ShowError(BudgetStop(n, maxTools)), AwaitInput];
      }
      if grant > 0 {
        maxTools := maxTools + grant;
      } else {
        maxTools := maxTools + Granted();
      }
      actions := RunPending();
    }

    /** What a yes without a number adds: the original budget, or the ceiling when there was none. */
    function Granted(): int
      reads this
    {
      if budget > 0 then budget else maxTools
    }

    method RunPending() returns (actions: seq<Action>)
      modifies this
      ensures Outcome(View(), actions) == LoopMachine.RunPending(old(View()))
    {
      messages := messages + [AssistantTurn(pending)];
      state := Running;
      used := used + |pending|;
      actions := [];
      for i := 0 to |pending|
        invariant |actions| == i
        invariant forall j :: 0 <= j < i ==> actions[j] == RunTool(pending[j])
      {
        actions := actions + [RunTool(pending[i])];
      }
    }

    method ToolReturned(call: Option<ToolCall>, result: string) returns (actions: seq<Action>)
      modifies this
      ensures Outcome(View(), actions) == LoopMachine.ToolReturned(old(View()), call, result)
    {
      if state != Running || call.None? {
        return [];
      }
      answered := answered + [ToolAnswer(call.value, result)];
      if |answered| < |pending| {
        return [];
      }
      messages := messages + answered;
      pending, answered := [], [];
      state := Awaiting;
      return [SendTurn(messages)];
    }

    /** The conversation as it stands, or a refusal when the loop is mid-turn. */
    method Checkpoint(hash: Hash, turn: int, prevHash: string) returns (r: Result<Checkpoint, CheckpointError>)
      ensures r == Take(hash, View(), turn, prevHash)
      ensures state != Idle ==> r == Err(MidTurn(state))
      ensures state == Idle ==>
        r.Ok? && r.value.turn == turn && r.value.prevHash == prevHash && r.value.messages == messages
    {
      match state {
        case Running => return Err(MidTurn(state));
        case Asking => return Err(MidTurn(state));
        case Awaiting => return Err(MidTurn(state));
        case Idle =>
      }
      var key := BuildMessagesKey(messages);
      return Ok(Checkpoints.Checkpoint(VERSION, turn, prevHash,
                                       hash(Text.Decimal(turn) + [NUL] + (prevHash + [NUL] + key)), messages));
    }

    /** A checkpoint that continues the file the loop was restored from. */
    method CheckpointChainedFrom(hash: Hash, restored: Option<Checkpoint>, turn: int)
      returns (r: Result<Checkpoint, CheckpointError>)
      ensures r == Take(hash, View(), turn, if restored.Some? then restored.value.hash else "")
    {
      if restored.None? {
        r := Checkpoint(hash, turn, "");
      } else {
        r := Checkpoint(hash, turn, restored.value.hash);
      }
    }
  }

  /** A loop holding the conversation of a checkpoint file that decodes, is of this version and is not empty. */
  method RestoreCheckpoint(decode: Decoder, file: string, maxTools: int)
    returns (loop: Loop?, r: Result<LoopState, CheckpointError>)
    ensures r == RestoreFile(decode, file, maxTools)
    ensures match decode(file)
            case None => r == Err(NotJSON)
            case Some(c) =>
              if c.version != 1 then r == Err(UnknownVersion(c.version))
              else if c.messages == [] then r == Err(NoMessages)
              else r.Ok? && r.value.messages == c.messages
    ensures r.Ok? <==> loop != null
    ensures loop != null ==> fresh(loop) && loop.View() == r.value
  {
    var decoded := decode(file);
    if decoded.None? {
      return null, Err(NotJSON);
    }
    var c := decoded.value;
    if c.version != VERSION {
      return null, Err(UnknownVersion(c.version));
    }
    if |c.messages| == 0 {
      return null, Err(NoMessages);
    }
    loop := new Loop.Restored(c.messages, maxTools);
    r := Ok(loop.View());
  }
}
