/** The runner: the object that turns a loop's actions into I/O and feeds the outcomes back. */
module AgentRunner {
  import opened Wrappers
  import opened Conversation
  import opened LoopMachine
  import opened Stream
  import opened Drive
  import opened Checkpoints
  import opened AgentLoop
  import opened Session

  class Runner {
    const host: Host

    // The operator's remaining grants, and what has gone out, been run and been offered so far.
    var answers: seq<int>
    var sent: seq<seq<Message>>
    var ran: seq<Run>
    var offered: nat

    // The run's place in the checkpoint chain, and the links handed to the boundary callback.
    var turn: int
    var prevHash: string
    var written: seq<Checkpoint>

    constructor (host: Host, answers: seq<int>)
      ensures this.host == host && this.answers == answers && sent == [] && ran == [] && offered == 0 && written == []
      ensures turn == 0 && prevHash == ""
    {
      this.host, this.answers := host, answers;
      sent, ran, offered, written, turn, prevHash := [], [], 0, [], 0, "";
    }

    /** The queue and everything it can reach, as one value. */
    ghost function Now(loop: Loop, queue: seq<Event>, failed: seq<Failure>): Config
      reads this, loop
    {
      Config(loop.View(), queue, answers, sent, ran, failed)
    }

    /** Sends a conversation and reads the whole reply, one event for each chunk but usage. */
    method Send(ms: seq<Message>) returns (es: seq<Event>)
      modifies this`sent
      ensures es == Heard(host.world.reply(|old(sent)|, ms)) && sent == old(sent) + [ms]
      ensures var r := host.world.reply(|old(sent)|, ms); r.Refused? ==> es == [ModelError(r.err)]
    {
      var reply := host.world.reply(|sent|, ms);
      sent := sent + [ms];
      if reply.Refused? {
        return [ModelError(reply.err)];
      }
      es := [];
      var cs := reply.chunks;
      for i := 0 to |cs|
        invariant es == EventsOf(cs[..i])
      {
        assert cs[..i + 1][..|cs[..i + 1]| - 1] == cs[..i];
        match cs[i] {
          case Text(text) => es := es + [ModelText(text)];
          case Reasoning(text) => es := es + [ModelReasoning(text)];
          case Call(call) => es := es + [ModelToolCall(Some(call))];
          case Done(finish) => es := es + [ModelDone(finish)];
          case Error(code, message) => es := es + [ModelError(Reported(code + ": " + message))];
          case Usage(_) =>
        }
      }
      assert cs[..|cs|] == cs;
      var ended := CheckEndsTheTurn(es);
      if !ended {
        es := es + [ModelDone("incomplete")];
      }
    }

    method CheckEndsTheTurn(es: seq<Event>) returns (b: bool)
      ensures b == EndsTheTurn(es)
    {
      for i := 0 to |es|
        invariant forall j :: 0 <= j < i ==> !Terminal(es[j])
      {
        if es[i].ModelDone? || es[i].ModelError? {
          return true;
        }
      }
      return false;
    }

    method RunOneTool(call: ToolCall) returns (e: Event)
      modifies this`ran
      ensures var t := host.world.tool(|old(ran)|, call);
        e == ToolResult(Some(call), t.output, t.ok) && ran == old(ran) + [Run(call, t.output)]
    {
      var t := host.world.tool(|ran|, call);
      ran := ran + [Run(call, t.output)];
      e := ToolResult(Some(call), t.output, t.ok);
    }

    /** Carries out one batch of actions, queueing what each produces. */
    method CarryOut(loop: Loop, actions: seq<Action>, queue0: seq<Event>, failed0: seq<Failure>)
      returns (queue: seq<Event>, failed: seq<Failure>)
      modifies this`answers, this`sent, this`ran
      ensures Now(loop, queue, failed) == PerformAll(host.world, old(Now(loop, queue0, failed0)), actions)
    {
      queue, failed := queue0, failed0;
      for i := 0 to |actions|
        invariant unchanged(loop)
        invariant PerformAll(host.world, Now(loop, queue, failed), actions[i..]) ==
                  PerformAll(host.world, old(Now(loop, queue0, failed0)), actions)
      {
        assert actions[i..][1..] == actions[i + 1..];
        ghost var before := Now(loop, queue, failed);
        match actions[i] {
          case ShowError(err) =>
            failed := failed + [err];
          case AskToContinue(_, _, _) =>
            var grant := 0;
            if answers != [] {
              grant := answers[0];
              answers := answers[1..];
            }
            queue := queue + [BudgetAnswer(grant > 0, grant)];
          case RunTool(call) =>
            var e := RunOneTool(call);
            queue := queue + [e];
          case SendTurn(ms) =>
            var es := Send(ms);
            queue := queue + es;
          case _ =>
        }
        assert Now(loop, queue, failed) == Perform(host.world, before, actions[i]);
      }
      assert actions[|actions|..] == [];
    }

    /** Works through the queue that starts with one event; what the actions yield joins its end. */
    method Drive(loop: Loop, first: Event) returns (failed: seq<Failure>)
      modifies this`answers, this`sent, this`ran, loop
      ensures Now(loop, [], failed) == DriveRun(host.world, old(Now(loop, [first], [])))
    {
      var queue := [first];
      failed := [];
      ghost var start := Now(loop, queue, failed);
      while queue != []
        invariant DriveRun(host.world, Now(loop, queue, failed)) == DriveRun(host.world, start)
        decreases RankOf(Now(loop, queue, failed)).inputs, RankOf(Now(loop, queue, failed)).grants,
                  RankOf(Now(loop, queue, failed)).fuel, RankOf(Now(loop, queue, failed)).weight
      {
        ghost var before := Now(loop, queue, failed);
        DriveStepDescends(host.world, before);
        var e := queue[0];
        queue := queue[1..];
        var actions := loop.Step(e);
        queue, failed := CarryOut(loop, actions, queue, failed);
        assert Now(loop, queue, failed) == DriveStep(host.world, before);
      }
    }

    /** The whole of the run as a value. */
    ghost function Progress(loop: Loop, failures: seq<Failure>, stop: Option<Stop>): RunState
      reads this, loop
    {
      RunState(loop.View(), answers, sent, ran, offered, turn, prevHash, written, failures, stop)
    }

    /** The boundary checkpoint: nothing when nobody is checkpointing, a stop when the write fails. */
    method WriteBoundary(loop: Loop) returns (stop: Option<Stop>)
      requires loop.state == Idle
      modifies this`turn, this`prevHash, this`written
      ensures Progress(loop, [], stop) == Boundary(host, old(Progress(loop, [], None)))
    {
      turn := turn + 1;
      if !host.checkpointing {
        return None;
      }
      var r := loop.Checkpoint(host.hash, turn, prevHash);
      if !host.writable(turn) {
        return Some(WriteFailed(turn));
      }
      written := written + [r.value];
      prevHash := r.value.hash;
      return None;
    }

    /** Takes one line: skipped, handed to the command layer, or driven to its turn boundary. */
    method TakeOne(loop: Loop, line: InputLine, failures0: seq<Failure>)
      returns (failures: seq<Failure>, stop: Option<Stop>)
      modifies this, loop
      ensures Progress(loop, failures, stop) == TakeLine(host, old(Progress(loop, failures0, None)), line)
    {
      failures, stop := failures0, None;
      match line {
        case Interrupted => return;
        case Unreadable(err) => stop := Some(ReadFailed(err)); return;
        case Typed(text) =>
          if text == "" {
            return;
          }
          offered := offered + 1;
          match host.intercept(offered - 1, text) {
            case Handled => return;
            case Refused(err) => stop := Some(InterceptFailed(err)); return;
            case Pass =>
          }
          failures, stop := TakeText(loop, text, failures0);
      }
    }

    /** Drives one input to its end and writes its boundary, once the loop is idle again. */
    method TakeText(loop: Loop, text: string, failures0: seq<Failure>)
      returns (failures: seq<Failure>, stop: Option<Stop>)
      modifies this, loop
      ensures Progress(loop, failures, stop) == TakeInput(host, old(Progress(loop, failures0, None)), text)
    {
      failures, stop := failures0, None;
      var shown := Drive(loop, UserInput(text));
      if loop.state == Idle {
        stop := WriteBoundary(loop);
        if stop.Some? {
          return;
        }
      }
      failures := failures + shown;
    }

    /** What this runner has asked of the world so far. */
    function Earlier(): Past
      reads this
    {
      Past(sent, ran, offered)
    }

    /** Drives a loop, fresh or restored, through every line. */
    method RunWithLoop(loop: Loop, resumed: Option<Checkpoint>, lines: seq<InputLine>)
      returns (failures: seq<Failure>, stop: Option<Stop>)
      modifies this, loop
      ensures Progress(loop, failures, stop) ==
              TakeLines(host, Begin(old(loop.View()), old(answers), old(Earlier()), resumed), lines)
    {
      turn, prevHash, written := 0, "", [];
      if resumed.Some? {
        turn, prevHash := resumed.value.turn, resumed.value.hash;
      }
      failures, stop := [], None;
      var i := 0;
      while i < |lines| && stop.None?
        invariant 0 <= i <= |lines|
        invariant TakeLines(host, Progress(loop, failures, stop), lines[i..]) ==
                  TakeLines(host, Begin(old(loop.View()), old(answers), old(Earlier()), resumed), lines)
      {
        assert lines[i..][1..] == lines[i + 1..];
        failures, stop := TakeOne(loop, lines[i], failures);
        i := i + 1;
      }
    }
  }
}
