/**
 * Driving the loop through one input: a FIFO queue of events, each step of which turns the loop's
 * actions into model turns, tool runs and budget questions whose outcomes are queued in turn.
 *
 * The gateway and the tools are an arbitrary `World`; the operator is the finite list of grants still
 * to be given, after which (or from the start, when nobody can be asked) every question is a no.
 */
module Drive {
  import opened Wrappers
  import opened Conversation
  import opened LoopMachine
  import opened Stream

  datatype Reply = Refused(err: Failure) | Streamed(chunks: seq<StreamChunk>)

  datatype ToolOutcome = ToolOutcome(output: string, ok: bool)

  /** How the n-th turn is answered and the n-th tool call turns out; any function may be the world. */
  datatype World = World(reply: (nat, seq<Message>) -> Reply, tool: (nat, ToolCall) -> ToolOutcome)

  datatype Run = Run(call: ToolCall, output: string)

  datatype Config = Config(
    loop: LoopState, queue: seq<Event>, answers: seq<int>,
    sent: seq<seq<Message>>, ran: seq<Run>, failed: seq<Failure>)

  // ---- collecting one reply -------------------------------------------------------------------

  function EventOf(c: StreamChunk): seq<Event> {
    match c
    case Text(text) => [ModelText(text)]
    case Reasoning(text) => [ModelReasoning(text)]
    case Call(call) => [ModelToolCall(Some(call))]
    case Done(finish) => [ModelDone(finish)]
    case Error(code, message) => [ModelError(Reported(code + ": " + message))]
    case Usage(_) => []
  }

  function EventsOf(cs: seq<StreamChunk>): seq<Event> {
    if cs == [] then [] else EventsOf(cs[..|cs| - 1]) + EventOf(cs[|cs| - 1])
  }

  predicate Terminal(e: Event) { e.ModelDone? || e.ModelError? }

  predicate EndsTheTurn(es: seq<Event>) { exists i :: 0 <= i < |es| && Terminal(es[i]) }

  /** The events one reply becomes; a stream with no terminal event is ended as incomplete. */
  function Heard(r: Reply): seq<Event> {
    match r
    case Refused(err) => [ModelError(err)]
    case Streamed(cs) => EventsOf(cs) + if EndsTheTurn(EventsOf(cs)) then [] else [ModelDone("incomplete")]
  }

  // ---- one step of the queue ------------------------------------------------------------------

  function Perform(w: World, c: Config, a: Action): Config {
    match a
    case SendTurn(ms) => c.(queue := c.queue + Heard(w.reply(|c.sent|, ms)), sent := c.sent + [ms])
    case RunTool(call) =>
      var t := w.tool(|c.ran|, call);
      c.(queue := c.queue + [ToolResult(Some(call), t.output, t.ok)], ran := c.ran + [Run(call, t.output)])
    case AskToContinue(_, _, _) =>
      var grant := if c.answers == [] then 0 else c.answers[0];
      c.(queue := c.queue + [BudgetAnswer(grant > 0, grant)],
         answers := if c.answers == [] then [] else c.answers[1..])
    case ShowError(err) => c.(failed := c.failed + [err])
    case _ => c
  }

  function PerformAll(w: World, c: Config, actions: seq<Action>): Config
    decreases |actions|
  {
    if actions == [] then c else PerformAll(w, Perform(w, c, actions[0]), actions[1..])
  }

  function DriveStep(w: World, c: Config): Config
    requires c.queue != []
  {
    var o := Step(c.loop, c.queue[0]);
    PerformAll(w, c.(loop := o.loop, queue := c.queue[1..]), o.actions)
  }

  // ---- termination: every run ends, whatever the gateway sends ---------------------------------

  function Inputs(q: seq<Event>): nat {
    if q == [] then 0 else Inputs(q[..|q| - 1]) + if q[|q| - 1].UserInput? then 1 else 0
  }

  function Yeses(q: seq<Event>): nat {
    if q == [] then 0
    else Yeses(q[..|q| - 1]) + if q[|q| - 1].BudgetAnswer? && q[|q| - 1].allow then 1 else 0
  }

  function Weight(q: seq<Event>): nat {
    if q == [] then 0 else Weight(q[..|q| - 1]) + if q[|q| - 1].ModelDone? then 2 else 1
  }

  /** Tool calls the ceiling still admits, doubled, and one more while results are owed. */
  function Fuel(l: LoopState): nat {
    (if l.used < l.maxTools then 2 * (l.maxTools - l.used) else 0) + if l.state == Running then 1 else 0
  }

  lemma {:induction false} CountsAppend(q: seq<Event>, r: seq<Event>)
    ensures Inputs(q + r) == Inputs(q) + Inputs(r)
    ensures Yeses(q + r) == Yeses(q) + Yeses(r)
    ensures Weight(q + r) == Weight(q) + Weight(r)
  {
    if r == [] {
      assert q + r == q;
    } else {
      assert (q + r)[..|q + r| - 1] == q + r[..|r| - 1];
      CountsAppend(q, r[..|r| - 1]);
    }
  }

  lemma CountsOne(e: Event)
    ensures Inputs([e]) == if e.UserInput? then 1 else 0
    ensures Yeses([e]) == if e.BudgetAnswer? && e.allow then 1 else 0
    ensures Weight([e]) == if e.ModelDone? then 2 else 1
  {
    assert [e][..0] == [];
  }

  lemma CountsHead(q: seq<Event>)
    requires q != []
    ensures Inputs(q) == Inputs(q[1..]) + if q[0].UserInput? then 1 else 0
    ensures Yeses(q) == Yeses(q[1..]) + if q[0].BudgetAnswer? && q[0].allow then 1 else 0
    ensures Weight(q) == Weight(q[1..]) + if q[0].ModelDone? then 2 else 1
  {
    assert q == [q[0]] + q[1..];
    CountsAppend([q[0]], q[1..]);
    CountsOne(q[0]);
  }

  lemma {:induction false} RepliesOnlyNarrate(cs: seq<StreamChunk>)
    ensures Inputs(EventsOf(cs)) == 0 && Yeses(EventsOf(cs)) == 0
  {
    if cs != [] {
      RepliesOnlyNarrate(cs[..|cs| - 1]);
      ChunkOnlyNarrates(cs[|cs| - 1]);
      CountsAppend(EventsOf(cs[..|cs| - 1]), EventOf(cs[|cs| - 1]));
    }
  }

  lemma ChunkOnlyNarrates(c: StreamChunk)
    ensures Inputs(EventOf(c)) == 0 && Yeses(EventOf(c)) == 0
  {
    if EventOf(c) != [] {
      CountsOne(EventOf(c)[0]);
      assert EventOf(c) == [EventOf(c)[0]];
    }
  }

  lemma HeardOnlyNarrates(r: Reply)
    ensures Inputs(Heard(r)) == 0 && Yeses(Heard(r)) == 0
  {
    match r
    case Refused(err) => CountsOne(ModelError(err));
    case Streamed(cs) =>
      RepliesOnlyNarrate(cs);
      var tail := if EndsTheTurn(EventsOf(cs)) then [] else [ModelDone("incomplete")];
      CountsAppend(EventsOf(cs), tail);
      CountsOne(ModelDone("incomplete"));
  }

  /** The size of a configuration, compared lexicographically. */
  datatype Rank = Rank(inputs: nat, grants: nat, fuel: nat, weight: nat)

  function RankOf(c: Config): Rank {
    Rank(Inputs(c.queue), |c.answers| + Yeses(c.queue), Fuel(c.loop), Weight(c.queue))
  }

  predicate Below(a: Rank, b: Rank) {
    || a.inputs < b.inputs
    || (a.inputs == b.inputs && a.grants < b.grants)
    || (a.inputs == b.inputs && a.grants == b.grants && a.fuel < b.fuel)
    || (a.inputs == b.inputs && a.grants == b.grants && a.fuel == b.fuel && a.weight < b.weight)
  }

  /** What carrying out one action can do to the size of the queue. */
  lemma PerformCounts(w: World, c: Config, a: Action)
    ensures var d := Perform(w, c, a);
      && d.loop == c.loop
      && Inputs(d.queue) == Inputs(c.queue)
      && |d.answers| + Yeses(d.queue) <= |c.answers| + Yeses(c.queue)
      && (!a.SendTurn? ==> Weight(d.queue) <= Weight(c.queue) + if a.RunTool? || a.AskToContinue? then 1 else 0)
  {
    var d := Perform(w, c, a);
    if d.queue != c.queue {
      var more := d.queue[|c.queue|..];
      assert d.queue == c.queue + more;
      CountsAppend(c.queue, more);
      if a.SendTurn? {
        HeardOnlyNarrates(w.reply(|c.sent|, a.send));
      } else {
        CountsOne(more[0]);
      }
    }
  }

  /** Neither a turn to send nor a tool to run. */
  predicate Quiet(a: Action) { !a.SendTurn? && !a.RunTool? }

  function Asks(actions: seq<Action>): nat {
    if actions == [] then 0 else (if actions[0].AskToContinue? then 1 else 0) + Asks(actions[1..])
  }

  lemma {:induction false} PerformAllCounts(w: World, c: Config, actions: seq<Action>)
    ensures var d := PerformAll(w, c, actions);
      && d.loop == c.loop
      && Inputs(d.queue) == Inputs(c.queue)
      && |d.answers| + Yeses(d.queue) <= |c.answers| + Yeses(c.queue)
      && ((forall i :: 0 <= i < |actions| ==> Quiet(actions[i])) ==> Weight(d.queue) <= Weight(c.queue) + Asks(actions))
    decreases |actions|
  {
    if actions != [] {
      PerformCounts(w, c, actions[0]);
      PerformAllCounts(w, Perform(w, c, actions[0]), actions[1..]);
    }
  }

  /** Outside an input or a yes, an event that dispatches or sends spends fuel; none adds any. */
  lemma FuelSettles(l: LoopState, e: Event)
    requires !e.UserInput? && !(e.BudgetAnswer? && e.allow)
    requires Fuel(Step(l, e).loop) >= Fuel(l)
    ensures Fuel(Step(l, e).loop) == Fuel(l)
    ensures var o := Step(l, e);
      && (forall i :: 0 <= i < |o.actions| ==> Quiet(o.actions[i]))
      && Asks(o.actions) <= if e.ModelDone? then 1 else 0
  {
    FewAsks(Step(l, e).actions);
  }

  lemma FewAsks(actions: seq<Action>)
    requires |actions| <= 2
    ensures Asks(actions) == (if |actions| > 0 && actions[0].AskToContinue? then 1 else 0) +
            (if |actions| > 1 && actions[1].AskToContinue? then 1 else 0)
  {
    if |actions| == 2 {
      assert actions[1..] == [actions[1]];
    }
  }

  lemma DriveStepDescends(w: World, c: Config)
    requires c.queue != []
    ensures Below(RankOf(DriveStep(w, c)), RankOf(c))
  {
    var e := c.queue[0];
    var o := Step(c.loop, e);
    PerformAllCounts(w, c.(loop := o.loop, queue := c.queue[1..]), o.actions);
    CountsHead(c.queue);
    if !e.UserInput? && !(e.BudgetAnswer? && e.allow) && Fuel(o.loop) >= Fuel(c.loop) {
      FuelSettles(c.loop, e);
    }
  }

  /** The whole run: it ends for every world and every finite list of grants. */
  function DriveRun(w: World, c: Config): Config
    decreases RankOf(c).inputs, RankOf(c).grants, RankOf(c).fuel, RankOf(c).weight
  {
    if c.queue == [] then c
    else
      DriveStepDescends(w, c);
      DriveRun(w, DriveStep(w, c))
  }
}
