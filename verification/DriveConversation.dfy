/**
 * What a whole input does to the conversation when every reply ends exactly once: it is well-formed
 * at every send and at the end, and records each tool run once, with the output it produced.
 */
module DriveConversation {
  import opened Wrappers
  import opened Conversation
  import opened LoopMachine
  import opened Drive

  predicate Narration(e: Event) { e.ModelText? || e.ModelReasoning? || (e.ModelToolCall? && e.call.Some?) }

  /** Narration, then one terminal event, then nothing. */
  predicate Disciplined(es: seq<Event>) {
    && es != []
    && Terminal(es[|es| - 1])
    && forall i :: 0 <= i < |es| - 1 ==> Narration(es[i])
  }

  ghost predicate DisciplinedWorld(w: World) {
    forall n: nat, ms: seq<Message> :: Disciplined(Heard(w.reply(n, ms)))
  }

  /** A turn has just been sent: its whole reply is queued and nothing of it has been read. */
  predicate JustSent(w: World, c: Config) {
    && c.loop.state == Awaiting && c.loop.pending == [] && c.loop.answered == [] && WellFormed(c.loop.messages)
    && c.sent != [] && c.sent[|c.sent| - 1] == c.loop.messages
    && c.queue == Heard(w.reply(|c.sent| - 1, c.loop.messages))
  }

  // ---- running a block of calls ---------------------------------------------------------------

  function Runs(w: World, n: nat, calls: seq<ToolCall>): seq<Run> {
    seq(|calls|, i requires 0 <= i < |calls| => Run(calls[i], w.tool(n + i, calls[i]).output))
  }

  function Results(w: World, n: nat, calls: seq<ToolCall>): seq<Event> {
    seq(|calls|, i requires 0 <= i < |calls| =>
      ToolResult(Some(calls[i]), w.tool(n + i, calls[i]).output, w.tool(n + i, calls[i]).ok))
  }

  lemma {:induction false} PerformRuns(w: World, c: Config, calls: seq<ToolCall>, actions: seq<Action>)
    requires |actions| == |calls| && forall i :: 0 <= i < |calls| ==> actions[i] == RunTool(calls[i])
    ensures PerformAll(w, c, actions) ==
            c.(queue := c.queue + Results(w, |c.ran|, calls), ran := c.ran + Runs(w, |c.ran|, calls))
    decreases |calls|
  {
    if calls == [] {
      assert c.queue + Results(w, |c.ran|, calls) == c.queue && c.ran + Runs(w, |c.ran|, calls) == c.ran;
    } else {
      hide Runs, Results;
      var d := Perform(w, c, actions[0]);
      PerformRuns(w, d, calls[1..], actions[1..]);
      RunsHead(w, |c.ran|, calls);
      Reassociate(c.queue, [d.queue[|c.queue|]], Results(w, |d.ran|, calls[1..]));
      Reassociate(c.ran, [d.ran[|c.ran|]], Runs(w, |d.ran|, calls[1..]));
    }
  }

  lemma RunsHead(w: World, n: nat, calls: seq<ToolCall>)
    requires calls != []
    ensures Runs(w, n, calls) == [Run(calls[0], w.tool(n, calls[0]).output)] + Runs(w, n + 1, calls[1..])
    ensures Results(w, n, calls) ==
            [ToolResult(Some(calls[0]), w.tool(n, calls[0]).output, w.tool(n, calls[0]).ok)] +
              Results(w, n + 1, calls[1..])
  {
  }

  function ResultMessage(e: Event): Message {
    if e.ToolResult? && e.call.Some? then ToolAnswer(e.call.value, e.result) else SystemMessage("")
  }

  /** The messages queued results will become. */
  function Told(q: seq<Event>): seq<Message> {
    seq(|q|, i requires 0 <= i < |q| => ResultMessage(q[i]))
  }

  function Made(runs: seq<Run>): seq<ToolCall> {
    seq(|runs|, i requires 0 <= i < |runs| => runs[i].call)
  }

  function Yielded(runs: seq<Run>): seq<string> {
    seq(|runs|, i requires 0 <= i < |runs| => runs[i].output)
  }

  lemma {:induction false} AnswersRecord(calls: seq<ToolCall>, results: seq<Message>)
    requires Answers(calls, results)
    ensures Calls(results) == [] && |Outputs(results)| == |results|
    ensures forall i :: 0 <= i < |results| ==> Outputs(results)[i] == results[i].content
    decreases |calls|
  {
    if calls != [] {
      AnswersRecord(calls[1..], results[1..]);
    }
  }

  /** A block built from a run of calls records those calls and those outputs. */
  lemma BlockRecords(w: World, n: nat, calls: seq<ToolCall>)
    ensures Answers(calls, Told(Results(w, n, calls)))
    ensures Calls([AssistantTurn(calls)] + Told(Results(w, n, calls))) == Made(Runs(w, n, calls))
    ensures Outputs([AssistantTurn(calls)] + Told(Results(w, n, calls))) == Yielded(Runs(w, n, calls))
  {
    var results := Told(Results(w, n, calls));
    AnswersRecord(calls, results);
    CallsConcat([AssistantTurn(calls)], results);
    OutputsConcat([AssistantTurn(calls)], results);
    assert [AssistantTurn(calls)][1..] == [];
    assert Calls([AssistantTurn(calls)]) == calls == Made(Runs(w, n, calls));
    assert ASSISTANT[0] != TOOL[0];
    assert Outputs([AssistantTurn(calls)]) == [];
    assert Outputs(results) == Yielded(Runs(w, n, calls));
  }

  // ---- the invariant --------------------------------------------------------------------------

  /** The conversation as it will stand once the results already obtained are delivered. */
  function History(c: Config): seq<Message> {
    if c.loop.state == Running then c.loop.messages + (c.loop.answered + Told(c.queue)) else c.loop.messages
  }

  /** Where the loop is decides what is still queued and what is still owed. */
  predicate Orderly(c: Config) {
    var l := c.loop;
    match l.state
    case Idle => c.queue == [] && l.pending == [] && l.answered == [] && WellFormed(l.messages)
    case Awaiting => Disciplined(c.queue) && l.answered == [] && WellFormed(l.messages)
    case Asking => |c.queue| == 1 && c.queue[0].BudgetAnswer? && l.pending != [] && l.answered == [] &&
      WellFormed(l.messages)
    case Running => OpenBlock(l) && Owed(l, c.queue)
  }

  /** The conversation ends in the assistant turn whose calls are being run. */
  predicate OpenBlock(l: LoopState) {
    && l.messages != []
    && l.messages[|l.messages| - 1] == AssistantTurn(l.pending)
    && WellFormed(l.messages[..|l.messages| - 1])
  }

  /** What was answered and what is queued are together the results of the open block. */
  predicate Owed(l: LoopState, q: seq<Event>) {
    && |l.answered| < |l.pending|
    && (forall i :: 0 <= i < |q| ==> q[i].ToolResult? && q[i].call.Some?)
    && Answers(l.pending, l.answered + Told(q))
  }

  /** An open block closed by its results is a well-formed conversation. */
  lemma BlockCloses(l: LoopState, results: seq<Message>)
    requires OpenBlock(l) && l.pending != [] && Answers(l.pending, results)
    ensures WellFormed(l.messages + results)
  {
    var before := l.messages[..|l.messages| - 1];
    BlockTurn(l.pending, results);
    WellFormedConcat(before, [AssistantTurn(l.pending)] + results);
    SplitLast(l.messages, results);
  }

  lemma SplitLast<T>(s: seq<T>, t: seq<T>)
    requires s != []
    ensures s + t == s[..|s| - 1] + ([s[|s| - 1]] + t)
  {
  }

  /** The conversation only grows, and every conversation sent was well-formed and is still its prefix. */
  predicate Kept(base: seq<Message>, sent0: seq<seq<Message>>, messages: seq<Message>, sent: seq<seq<Message>>) {
    && base <= messages
    && sent0 <= sent
    && forall i :: |sent0| <= i < |sent| ==> WellFormed(sent[i]) && base < sent[i] <= messages
  }

  /** Nothing run is forgotten, and nothing is recorded that was not run. */
  predicate Recorded(base: seq<Message>, ran0: seq<Run>, history: seq<Message>, ran: seq<Run>) {
    && ran0 <= ran
    && Calls(history) == Calls(base) + Made(ran[|ran0|..])
    && Outputs(history) == Outputs(base) + Yielded(ran[|ran0|..])
  }

  predicate Faithful(c: Config, start: Config) {
    && Kept(start.loop.messages, start.sent, c.loop.messages, c.sent)
    && Recorded(start.loop.messages, start.ran, History(c), c.ran)
  }

  lemma KeptGrows(base: seq<Message>, sent0: seq<seq<Message>>, messages: seq<Message>, sent: seq<seq<Message>>,
                  more: seq<Message>)
    requires Kept(base, sent0, messages, sent)
    ensures Kept(base, sent0, messages + more, sent)
  {
  }

  lemma KeptSends(base: seq<Message>, sent0: seq<seq<Message>>, messages: seq<Message>, sent: seq<seq<Message>>)
    requires Kept(base, sent0, messages, sent) && WellFormed(messages) && base < messages
    ensures Kept(base, sent0, messages, sent + [messages])
  {
  }

  lemma RecordedGrows(base: seq<Message>, ran0: seq<Run>, history: seq<Message>, ran: seq<Run>, block: seq<Message>,
                      more: seq<Run>)
    requires Recorded(base, ran0, history, ran)
    requires Calls(block) == Made(more) && Outputs(block) == Yielded(more)
    ensures Recorded(base, ran0, history + block, ran + more)
  {
    CallsConcat(history, block);
    OutputsConcat(history, block);
    var since := ran[|ran0|..];
    assert (ran + more)[|ran0|..] == since + more;
    MadeConcat(since, more);
    Reassociate(Calls(base), Made(since), Made(more));
    Reassociate(Outputs(base), Yielded(since), Yielded(more));
  }

  lemma MadeConcat(a: seq<Run>, b: seq<Run>)
    ensures Made(a + b) == Made(a) + Made(b) && Yielded(a + b) == Yielded(a) + Yielded(b)
  {
  }

  // ---- every step keeps it --------------------------------------------------------------------

  lemma PerformShows(w: World, c: Config, actions: seq<Action>)
    requires |actions| <= 2
    requires forall i :: 0 <= i < |actions| ==> Quiet(actions[i]) && !actions[i].AskToContinue?
    ensures var d := PerformAll(w, c, actions); d == c.(failed := d.failed)
  {
    if |actions| > 0 {
      var d := Perform(w, c, actions[0]);
      assert PerformAll(w, c, actions) == PerformAll(w, d, actions[1..]);
      if |actions| == 2 {
        assert actions[1..] == [actions[1]];
        assert PerformAll(w, d, [actions[1]]) == Perform(w, d, actions[1]);
      }
    }
  }

  /** Dispatching the pending calls opens a block and queues all its results. */
  lemma DispatchStep(w: World, c: Config, start: Config)
    requires c.queue == [] && c.loop.pending != [] && c.loop.answered == [] && WellFormed(c.loop.messages)
    requires c.loop.state != Running && Faithful(c, start)
    ensures var o := RunPending(c.loop); var d := PerformAll(w, c.(loop := o.loop), o.actions);
      d == Dispatched(w, c) && d.sent == c.sent && Orderly(d) && Faithful(d, start)
  {
    var o := RunPending(c.loop);
    PerformRuns(w, c.(loop := o.loop), c.loop.pending, o.actions);
    assert [] + Results(w, |c.ran|, c.loop.pending) == Results(w, |c.ran|, c.loop.pending);
    DispatchOrder(w, |c.ran|, c.loop);
    DispatchFaith(w, c, start);
  }

  lemma DispatchOrder(w: World, n: nat, l: LoopState)
    requires l.pending != [] && l.answered == [] && WellFormed(l.messages)
    ensures OpenBlock(RunPending(l).loop) && Owed(RunPending(l).loop, Results(w, n, l.pending))
  {
    var m := RunPending(l).loop;
    assert m.messages[..|m.messages| - 1] == l.messages;
    BlockRecords(w, n, l.pending);
    assert l.answered + Told(Results(w, n, l.pending)) == Told(Results(w, n, l.pending));
  }

  /** The configuration after the pending calls have all been run. */
  function Dispatched(w: World, c: Config): Config {
    c.(loop := RunPending(c.loop).loop, queue := Results(w, |c.ran|, c.loop.pending),
       ran := c.ran + Runs(w, |c.ran|, c.loop.pending))
  }

  /** The block that dispatching adds to the history. */
  function Block(w: World, c: Config): seq<Message> {
    [AssistantTurn(c.loop.pending)] + Told(Results(w, |c.ran|, c.loop.pending))
  }

  lemma DispatchHistory(w: World, c: Config)
    requires c.loop.answered == []
    ensures History(Dispatched(w, c)) == c.loop.messages + Block(w, c)
  {
    var results := Told(Results(w, |c.ran|, c.loop.pending));
    assert [] + results == results;
    Reassociate(c.loop.messages, [AssistantTurn(c.loop.pending)], results);
  }

  lemma DispatchFaith(w: World, c: Config, start: Config)
    requires c.loop.answered == [] && c.loop.state != Running && Faithful(c, start)
    ensures Faithful(Dispatched(w, c), start)
  {
    DispatchHistory(w, c);
    BlockRecords(w, |c.ran|, c.loop.pending);
    assert History(c) == c.loop.messages;
    KeptGrows(start.loop.messages, start.sent, c.loop.messages, c.sent, [AssistantTurn(c.loop.pending)]);
    RecordedGrows(start.loop.messages, start.ran, c.loop.messages, c.ran, Block(w, c),
      Runs(w, |c.ran|, c.loop.pending));
  }

  /** While a reply is being read out: narration, the end of the turn, or an error. */
  lemma AwaitingStep(w: World, c: Config, start: Config)
    requires c.loop.state == Awaiting && Orderly(c) && Faithful(c, start)
    ensures var d := DriveStep(w, c); Orderly(d) && d.sent == c.sent && Faithful(d, start)
  {
    var e := c.queue[0];
    if Narration(e) {
      NarrationStep(w, c);
    } else {
      assert |c.queue| == 1 && c.queue[1..] == [];
      if e.ModelDone? && c.loop.pending != [] && c.loop.used + |c.loop.pending| <= c.loop.maxTools {
        DispatchStep(w, c.(queue := []), start);
      } else {
        TurnOverStep(w, c);
      }
    }
  }

  lemma NarrationStep(w: World, c: Config)
    requires c.loop.state == Awaiting && Orderly(c) && Narration(c.queue[0])
    ensures var d := DriveStep(w, c);
      Orderly(d) && d.loop.messages == c.loop.messages && d.loop.state == Awaiting && d.ran == c.ran && d.sent == c.sent
  {
    var o := Step(c.loop, c.queue[0]);
    PerformShows(w, c.(loop := o.loop, queue := c.queue[1..]), o.actions);
  }

  /** The turn ends without running anything: back to the user, or to the budget question. */
  lemma TurnOverStep(w: World, c: Config)
    requires c.loop.state == Awaiting && Orderly(c) && |c.queue| == 1
    requires c.queue[0].ModelDone? ==> c.loop.pending == [] || c.loop.used + |c.loop.pending| > c.loop.maxTools
    ensures var d := DriveStep(w, c);
      Orderly(d) && d.loop.messages == c.loop.messages && d.loop.state != Running && d.ran == c.ran && d.sent == c.sent
  {
    var o := Step(c.loop, c.queue[0]);
    var b := c.(loop := o.loop, queue := c.queue[1..]);
    assert c.queue[1..] == [];
    if o.loop.state == Asking {
      AskStep(w, b, o.actions);
    } else {
      PerformShows(w, b, o.actions);
    }
  }

  lemma AskStep(w: World, b: Config, actions: seq<Action>)
    requires b.queue == [] && |actions| == 1 && actions[0].AskToContinue?
    ensures var d := PerformAll(w, b, actions);
      && |d.queue| == 1 && d.queue[0].BudgetAnswer?
      && d == b.(queue := d.queue, answers := d.answers)
  {
    assert PerformAll(w, b, actions) == PerformAll(w, Perform(w, b, actions[0]), actions[1..]);
  }

  /** The operator's answer: stop, or dispatch what was held. */
  lemma AskingStep(w: World, c: Config, start: Config)
    requires c.loop.state == Asking && Orderly(c) && Faithful(c, start)
    ensures var d := DriveStep(w, c); Orderly(d) && d.sent == c.sent && Faithful(d, start)
  {
    if c.queue[0].allow {
      AllowedStep(w, c, start);
    } else {
      RefusedStep(w, c);
    }
  }

  lemma RefusedStep(w: World, c: Config)
    requires c.loop.state == Asking && Orderly(c) && !c.queue[0].allow
    ensures var d := DriveStep(w, c);
      Orderly(d) && d.loop.messages == c.loop.messages && d.loop.state != Running && d.ran == c.ran && d.sent == c.sent
  {
    var o := Step(c.loop, c.queue[0]);
    assert c.queue[1..] == [];
    PerformShows(w, c.(loop := o.loop, queue := []), o.actions);
  }

  lemma AllowedStep(w: World, c: Config, start: Config)
    requires c.loop.state == Asking && Orderly(c) && Faithful(c, start) && c.queue[0].allow
    ensures var d := DriveStep(w, c); Orderly(d) && d.sent == c.sent && Faithful(d, start)
  {
    var b := Raised(c);
    YesDispatches(w, c);
    assert Faithful(b, start);
    DispatchStep(w, b, start);
  }

  /** The configuration once the ceiling is raised and the answer consumed. */
  function Raised(c: Config): Config
    requires |c.queue| == 1 && c.queue[0].BudgetAnswer?
  {
    c.(loop := c.loop.(maxTools := c.loop.maxTools + Grant(c.loop, c.queue[0].grant)), queue := [])
  }

  lemma YesDispatches(w: World, c: Config)
    requires c.loop.state == Asking && |c.queue| == 1 && c.queue[0].BudgetAnswer? && c.queue[0].allow
    ensures var b := Raised(c);
      DriveStep(w, c) == PerformAll(w, b.(loop := RunPending(b.loop).loop), RunPending(b.loop).actions)
  {
    assert c.queue[1..] == [];
  }

  /** A result: collected, or the last one, which closes the block and sends the conversation. */
  lemma RunningStep(w: World, c: Config, start: Config)
    requires c.queue != [] && c.loop.state == Running && Orderly(c) && Faithful(c, start)
    ensures Stepped(w, c, DriveStep(w, c)) && Faithful(DriveStep(w, c), start)
  {
    ResultStep(c.loop, c.queue);
    var o := Step(c.loop, c.queue[0]);
    if o.loop.state == Running {
      assert DriveStep(w, c) == c.(loop := o.loop, queue := c.queue[1..]);
    } else {
      ClosingStep(w, c, start);
    }
  }

  /** The last result owed. */
  lemma ClosingStep(w: World, c: Config, start: Config)
    requires c.queue != [] && c.loop.state == Running && Orderly(c) && Faithful(c, start)
    requires Step(c.loop, c.queue[0]).loop.state != Running
    ensures JustSent(w, DriveStep(w, c)) && |DriveStep(w, c).sent| == |c.sent| + 1 && Faithful(DriveStep(w, c), start)
  {
    var o := Step(c.loop, c.queue[0]);
    ResultStep(c.loop, c.queue);
    BlockCloses(c.loop, c.loop.answered + Told(c.queue));
    SendStep(w, c.(loop := o.loop, queue := c.queue[1..]), o.actions, o.loop.messages);
    assert History(DriveStep(w, c)) == History(c);
    SendFaith(c, start, o.loop.messages);
  }

  /** A step stays within one turn, or ends by sending the next. */
  predicate Stepped(w: World, c: Config, d: Config) {
    (Orderly(d) && d.sent == c.sent) || (JustSent(w, d) && |d.sent| == |c.sent| + 1)
  }

  /** One result read: still owed the rest, or everything delivered into the conversation. */
  lemma ResultStep(l: LoopState, q: seq<Event>)
    requires l.state == Running && q != [] && OpenBlock(l) && Owed(l, q)
    ensures var o := Step(l, q[0]);
      && (o.loop.state == Running ==>
        && o.loop == l.(answered := o.loop.answered) && o.actions == [] && Owed(o.loop, q[1..])
        && o.loop.answered + Told(q[1..]) == l.answered + Told(q))
      && (o.loop.state != Running ==>
        && q[1..] == [] && o.loop.state == Awaiting && o.loop.answered == []
        && o.loop.messages == l.messages + (l.answered + Told(q)) && o.actions == [SendTurn(o.loop.messages)])
  {
    var answered := l.answered + [ResultMessage(q[0])];
    assert |l.answered + Told(q)| == |l.pending|;
    assert answered + Told(q[1..]) == l.answered + Told(q);
    if |answered| == |l.pending| {
      assert answered == l.answered + Told(q);
    }
  }

  lemma SendFaith(c: Config, start: Config, ms: seq<Message>)
    requires c.loop.state == Running && OpenBlock(c.loop) && Owed(c.loop, c.queue) && Faithful(c, start)
    requires ms == History(c) && WellFormed(ms)
    ensures Kept(start.loop.messages, start.sent, ms, c.sent + [ms])
  {
    var results := c.loop.answered + Told(c.queue);
    assert |results| > 0;
    KeptGrows(start.loop.messages, start.sent, c.loop.messages, c.sent, results);
    KeptSends(start.loop.messages, start.sent, ms, c.sent);
  }

  lemma SendStep(w: World, b: Config, actions: seq<Action>, ms: seq<Message>)
    requires b.queue == [] && actions == [SendTurn(ms)]
    ensures PerformAll(w, b, actions) == b.(queue := Heard(w.reply(|b.sent|, ms)), sent := b.sent + [ms])
  {
    assert PerformAll(w, b, actions) == PerformAll(w, Perform(w, b, actions[0]), actions[1..]);
    assert actions[1..] == [];
  }

  /** Whatever the world, a step keeps the invariant until the next reply, which it leaves unread. */
  lemma OrderlyStep(w: World, c: Config, start: Config)
    requires c.queue != [] && Orderly(c) && Faithful(c, start)
    ensures Stepped(w, c, DriveStep(w, c)) && Faithful(DriveStep(w, c), start)
  {
    match c.loop.state
    case Idle => assert false;
    case Awaiting => AwaitingStep(w, c, start);
    case Asking => AskingStep(w, c, start);
    case Running => RunningStep(w, c, start);
  }

  lemma {:induction false} OrderlyRun(w: World, c: Config, start: Config)
    requires DisciplinedWorld(w) && Orderly(c) && Faithful(c, start)
    ensures var d := DriveRun(w, c); d.queue == [] && Orderly(d) && Faithful(d, start)
    decreases RankOf(c).inputs, RankOf(c).grants, RankOf(c).fuel, RankOf(c).weight
  {
    if c.queue != [] {
      DriveStepDescends(w, c);
      OrderlyStep(w, c, start);
      OrderlyRun(w, DriveStep(w, c), start);
    }
  }

  /** Between inputs: nothing pending, nothing owed, a well-formed conversation. */
  predicate AtRest(l: LoopState) {
    l.state == Idle && l.pending == [] && l.answered == [] && WellFormed(l.messages)
  }

  lemma FirstInput(w: World, c: Config, text: string)
    requires AtRest(c.loop) && c.queue == [UserInput(text)]
    ensures var d := DriveStep(w, c);
      && JustSent(w, d) && |d.sent| == |c.sent| + 1 && Faithful(d, c)
      && d.loop.messages == c.loop.messages + [UserMessage(text)]
      && d.loop.used == 0 && d.loop.maxTools == c.loop.maxTools && d.ran == c.ran
  {
    var ms := c.loop.messages + [UserMessage(text)];
    var o := Step(c.loop, c.queue[0]);
    assert c.queue[1..] == [];
    SendStep(w, c.(loop := o.loop, queue := []), o.actions, ms);
    UserTurn(text);
    WellFormedConcat(c.loop.messages, [UserMessage(text)]);
    KeptSends(c.loop.messages, c.sent, ms, c.sent);
    InputRecords(c.loop.messages, c.ran, text);
  }

  lemma InputRecords(ms: seq<Message>, ran: seq<Run>, text: string)
    ensures Recorded(ms, ran, ms + [UserMessage(text)], ran)
  {
    assert [UserMessage(text)][1..] == [];
    assert USER[0] != TOOL[0];
    assert ran + [] == ran && ran[|ran|..] == [];
    RecordedGrows(ms, ran, ms, ran, [UserMessage(text)], []);
  }

  /**
   * One whole input, for every world whose replies end exactly once: the loop comes back to rest,
   * the conversation has grown by the input and complete turns only, every conversation sent on the
   * way was well-formed and a prefix of what is kept, and the calls and outputs recorded since are
   * exactly the tools run, in order.
   */
  lemma InputEndsAtRest(w: World, c: Config, text: string)
    requires DisciplinedWorld(w) && AtRest(c.loop) && c.queue == [UserInput(text)]
    ensures var d := DriveRun(w, c);
      && AtRest(d.loop) && d.queue == []
      && c.loop.messages + [UserMessage(text)] <= d.loop.messages
      && (forall i :: |c.sent| <= i < |d.sent| ==>
        WellFormed(d.sent[i]) && c.loop.messages < d.sent[i] <= d.loop.messages)
      && c.ran <= d.ran
      && Calls(d.loop.messages) == Calls(c.loop.messages) + Made(d.ran[|c.ran|..])
      && Outputs(d.loop.messages) == Outputs(c.loop.messages) + Yielded(d.ran[|c.ran|..])
  {
    FirstInput(w, c, text);
    var first := DriveStep(w, c);
    assert DriveRun(w, c) == DriveRun(w, first);
    OrderlyRun(w, first, c);
    MessagesGrow(w, first);
  }

  lemma StepAppends(l: LoopState, e: Event)
    ensures l.messages <= Step(l, e).loop.messages
  {
  }

  lemma {:induction false} MessagesGrow(w: World, c: Config)
    ensures c.loop.messages <= DriveRun(w, c).loop.messages
    decreases RankOf(c).inputs, RankOf(c).grants, RankOf(c).fuel, RankOf(c).weight
  {
    if c.queue != [] {
      DriveStepDescends(w, c);
      StepAppends(c.loop, c.queue[0]);
      DriveStepLoop(w, c);
      MessagesGrow(w, DriveStep(w, c));
    }
  }

  lemma DriveStepLoop(w: World, c: Config)
    requires c.queue != []
    ensures DriveStep(w, c).loop == Step(c.loop, c.queue[0]).loop
  {
    var o := Step(c.loop, c.queue[0]);
    PerformAllCounts(w, c.(loop := o.loop, queue := c.queue[1..]), o.actions);
  }
}
