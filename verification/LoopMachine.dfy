/** The loop as a pure state machine on values: events go in, actions come out. */
module LoopMachine {
  import opened Wrappers
  import opened Conversation

  datatype Failure = BudgetStop(more: nat, budget: int) | Reported(text: string)

  datatype Event =
    | UserInput(text: string)
    | ModelText(text: string)
    | ModelReasoning(text: string)
    | ModelToolCall(call: Option<ToolCall>)
    | ModelDone(finish: string)
    | ModelError(err: Failure)
    | ToolResult(call: Option<ToolCall>, result: string, ok: bool)
    | Interrupt
    | BudgetAnswer(allow: bool, grant: int)

  datatype Action =
    | SendTurn(send: seq<Message>)
    | RunTool(call: ToolCall)
    | ShowText(text: string)
    | ShowReasoning(text: string)
    | ShowError(err: Failure)
    | AwaitInput
    | ShowTruncated(finish: string)
    | ShowNote(text: string)
    | AskToContinue(pending: nat, used: int, budget: int)

  datatype State = Idle | Awaiting | Running | Asking

  const SILENT_TURN := "the model ended the turn without a message"

  /** What a loop holds. `budget` is the ceiling it started with, `maxTools` what it has grown to. */
  datatype LoopState = LoopState(
    state: State, messages: seq<Message>, pending: seq<ToolCall>, answered: seq<Message>,
    maxTools: int, used: int, textShown: bool, budget: int)

  datatype Outcome = Outcome(loop: LoopState, actions: seq<Action>)

  function New(system: string, maxTools: int): LoopState {
    LoopState(Idle, if system == "" then [] else [SystemMessage(system)], [], [], maxTools, 0, false, maxTools)
  }

  function Step(l: LoopState, e: Event): Outcome {
    match e
    case UserInput(text) =>
      if l.state != Idle then Outcome(l, [])
      else
        var messages := l.messages + [UserMessage(text)];
        Outcome(l.(used := 0, textShown := false, messages := messages, state := Awaiting), [SendTurn(messages)])
    case ModelText(text) => Outcome(l.(textShown := l.textShown || text != ""), [ShowText(text)])
    case ModelReasoning(text) => Outcome(l, [ShowReasoning(text)])
    case ModelToolCall(call) =>
      if call.None? then Outcome(l, []) else Outcome(l.(pending := l.pending + [call.value]), [])
    case ModelDone(finish) => TurnEnded(l, finish)
    case ModelError(err) => Outcome(HandBack(l), [ShowError(err), AwaitInput])
    case ToolResult(call, result, _) => ToolReturned(l, call, result)
    case BudgetAnswer(allow, grant) => BudgetAnswered(l, allow, grant)
    case Interrupt => Outcome(HandBack(l), [AwaitInput])
  }

  /** Back to the user with nothing outstanding. */
  function HandBack(l: LoopState): LoopState {
    l.(state := Idle, pending := [], answered := [])
  }

  function TurnEnded(l: LoopState, finish: string): Outcome {
    if l.pending == [] then
      Outcome(l.(state := Idle),
              (if finish == "length" || finish == "incomplete" then [ShowTruncated(finish)]
               else if !l.textShown then [ShowNote(SILENT_TURN)]
               else []) + [AwaitInput])
    else if l.used + |l.pending| > l.maxTools then
      Outcome(l.(state := Asking), [AskToContinue(|l.pending|, l.used, l.maxTools)])
    else
      RunPending(l)
  }

  function BudgetAnswered(l: LoopState, allow: bool, grant: int): Outcome {
    if l.state != Asking then Outcome(l, [])
    else if !allow then
      Outcome(HandBack(l), [ShowError(BudgetStop(|l.pending|, l.maxTools)), AwaitInput])
    else RunPending(l.(maxTools := l.maxTools + Grant(l, grant)))
  }

  /** How far a yes raises the ceiling: the number given, or one original budget. */
  function Grant(l: LoopState, grant: int): int {
    if grant > 0 then grant else if l.budget > 0 then l.budget else l.maxTools
  }

  function RunPending(l: LoopState): Outcome {
    Outcome(l.(messages := l.messages + [AssistantTurn(l.pending)], state := Running, used := l.used + |l.pending|),
            seq(|l.pending|, i requires 0 <= i < |l.pending| => RunTool(l.pending[i])))
  }

  function ToolReturned(l: LoopState, call: Option<ToolCall>, result: string): Outcome {
    if l.state != Running || call.None? then Outcome(l, [])
    else
      var answered := l.answered + [ToolAnswer(call.value, result)];
      if |answered| < |l.pending| then Outcome(l.(answered := answered), [])
      else
        var messages := l.messages + answered;
        Outcome(l.(messages := messages, pending := [], answered := [], state := Awaiting), [SendTurn(messages)])
  }

  /** The actions and the final loop of a whole event sequence. */
  function Run(l: LoopState, es: seq<Event>): Outcome
    decreases |es|
  {
    if es == [] then Outcome(l, [])
    else
      var first := Step(l, es[0]);
      var rest := Run(first.loop, es[1..]);
      Outcome(rest.loop, first.actions + rest.actions)
  }

  /** What every reachable loop satisfies. */
  ghost predicate Reachable(l: LoopState) {
    && (l.state == Asking || l.state == Running ==> l.pending != [])
    && (l.state == Idle || l.state == Awaiting ==> l.answered == [])
  }

  lemma StepReachable(l: LoopState, e: Event)
    requires Reachable(l)
    ensures Reachable(Step(l, e).loop)
  {
  }

  lemma NewReachable(system: string, maxTools: int)
    ensures Reachable(New(system, maxTools)) && WellFormed(New(system, maxTools).messages)
  {
  }
}
