/**
 * Driving as a run of the machine: the events read are those queued at the start and then what came of
 * each action, in the order the actions were emitted, and each action is carried out exactly once.
 */
module DriveTrace {
  import opened Wrappers
  import opened Conversation
  import opened LoopMachine
  import opened Drive

  // ---- what actions leave behind --------------------------------------------------------------

  function SentBy(actions: seq<Action>): seq<seq<Message>> {
    if actions == [] then [] else (if actions[0].SendTurn? then [actions[0].send] else []) + SentBy(actions[1..])
  }

  function CallsBy(actions: seq<Action>): seq<ToolCall> {
    if actions == [] then [] else (if actions[0].RunTool? then [actions[0].call] else []) + CallsBy(actions[1..])
  }

  function ErrorsBy(actions: seq<Action>): seq<Failure> {
    if actions == [] then [] else ErrorOf(actions[0]) + ErrorsBy(actions[1..])
  }

  function ErrorOf(a: Action): seq<Failure> { if a.ShowError? then [a.err] else [] }

  /** The answers left once every question asked has taken one. */
  function AnswersLeft(answers: seq<int>, actions: seq<Action>): seq<int>
    decreases |actions|
  {
    if actions == [] then answers
    else AnswersLeft(if actions[0].AskToContinue? && answers != [] then answers[1..] else answers, actions[1..])
  }

  /** The runs of these calls, the first of them the n-th of all. */
  function RunsOf(w: World, n: nat, calls: seq<ToolCall>): seq<Run> {
    seq(|calls|, i requires 0 <= i < |calls| => Run(calls[i], w.tool(n + i, calls[i]).output))
  }

  /**
   * What comes of actions, in their order: the whole reply to each turn sent, the result of each call
   * run, and to each question the operator's next number, a yes when it is positive, and no number once
   * there are none left.
   */
  function Outcomes(w: World, sent: nat, ran: nat, answers: seq<int>, actions: seq<Action>): seq<Event>
    decreases |actions|
  {
    if actions == [] then []
    else
      match actions[0]
      case SendTurn(ms) => Heard(w.reply(sent, ms)) + Outcomes(w, sent + 1, ran, answers, actions[1..])
      case RunTool(call) =>
        [ToolResult(Some(call), w.tool(ran, call).output, w.tool(ran, call).ok)]
        + Outcomes(w, sent, ran + 1, answers, actions[1..])
      case AskToContinue(_, _, _) =>
        if answers == [] then [BudgetAnswer(false, 0)] + Outcomes(w, sent, ran, [], actions[1..])
        else [BudgetAnswer(answers[0] > 0, answers[0])] + Outcomes(w, sent, ran, answers[1..], actions[1..])
      case _ => Outcomes(w, sent, ran, answers, actions[1..])
  }

  /** A configuration once actions have been carried out. */
  function CarriedOut(w: World, c: Config, actions: seq<Action>): Config {
    Config(c.loop, c.queue + Outcomes(w, |c.sent|, |c.ran|, c.answers, actions), AnswersLeft(c.answers, actions),
           c.sent + SentBy(actions), c.ran + RunsOf(w, |c.ran|, CallsBy(actions)), c.failed + ErrorsBy(actions))
  }

  lemma RunsOfHead(w: World, n: nat, call: ToolCall, calls: seq<ToolCall>)
    ensures RunsOf(w, n, [call] + calls) == [Run(call, w.tool(n, call).output)] + RunsOf(w, n + 1, calls)
  {
  }

  lemma NothingAdded(w: World, c: Config)
    ensures CarriedOut(w, c, []) == c
  {
    assert c.queue + [] == c.queue && c.sent + [] == c.sent && c.ran + [] == c.ran && c.failed + [] == c.failed;
    assert RunsOf(w, |c.ran|, []) == [];
  }

  lemma OneCarriedOut(w: World, c: Config, a: Action, rest: seq<Action>)
    ensures CarriedOut(w, c, [a] + rest) == CarriedOut(w, Perform(w, c, a), rest)
  {
    if a.SendTurn? {
      SendCarriedOut(w, c, a, rest);
    } else if a.RunTool? {
      CallCarriedOut(w, c, a, rest);
    } else if a.AskToContinue? {
      AskCarriedOut(w, c, a, rest);
    } else {
      ShowCarriedOut(w, c, a, rest);
    }
  }

  lemma SendCarriedOut(w: World, c: Config, a: Action, rest: seq<Action>)
    requires a.SendTurn?
    ensures CarriedOut(w, c, [a] + rest) == CarriedOut(w, Perform(w, c, a), rest)
  {
    hide Heard;
    assert ([a] + rest)[1..] == rest;
    Reassociate(c.sent, [a.send], SentBy(rest));
    Reassociate(c.queue, Heard(w.reply(|c.sent|, a.send)), Outcomes(w, |c.sent| + 1, |c.ran|, c.answers, rest));
  }

  lemma CallCarriedOut(w: World, c: Config, a: Action, rest: seq<Action>)
    requires a.RunTool?
    ensures CarriedOut(w, c, [a] + rest) == CarriedOut(w, Perform(w, c, a), rest)
  {
    var d := Perform(w, c, a);
    assert ([a] + rest)[1..] == rest;
    RunsOfHead(w, |c.ran|, a.call, CallsBy(rest));
    Reassociate(c.ran, [d.ran[|c.ran|]], RunsOf(w, |c.ran| + 1, CallsBy(rest)));
    Reassociate(c.queue, [d.queue[|c.queue|]], Outcomes(w, |c.sent|, |c.ran| + 1, c.answers, rest));
  }

  lemma AskCarriedOut(w: World, c: Config, a: Action, rest: seq<Action>)
    requires a.AskToContinue?
    ensures CarriedOut(w, c, [a] + rest) == CarriedOut(w, Perform(w, c, a), rest)
  {
    var d := Perform(w, c, a);
    assert ([a] + rest)[1..] == rest;
    Reassociate(c.queue, [d.queue[|c.queue|]], Outcomes(w, |c.sent|, |c.ran|, d.answers, rest));
  }

  lemma ShowCarriedOut(w: World, c: Config, a: Action, rest: seq<Action>)
    requires !a.SendTurn? && !a.RunTool? && !a.AskToContinue?
    ensures CarriedOut(w, c, [a] + rest) == CarriedOut(w, Perform(w, c, a), rest)
  {
    assert ([a] + rest)[1..] == rest;
    if a.ShowError? {
      Reassociate(c.failed, [a.err], ErrorsBy(rest));
    }
  }

  /** Carrying actions out one by one. */
  lemma {:induction false} PerformAllIs(w: World, c: Config, actions: seq<Action>)
    ensures PerformAll(w, c, actions) == CarriedOut(w, c, actions)
    decreases |actions|
  {
    if actions == [] {
      NothingAdded(w, c);
    } else {
      hide CarriedOut, Perform;
      PerformAllIs(w, Perform(w, c, actions[0]), actions[1..]);
      OneCarriedOut(w, c, actions[0], actions[1..]);
      assert [actions[0]] + actions[1..] == actions;
    }
  }

  lemma {:induction false} CarriedOutConcat(w: World, c: Config, a: seq<Action>, b: seq<Action>)
    ensures CarriedOut(w, c, a + b) == CarriedOut(w, CarriedOut(w, c, a), b)
    decreases |a|
  {
    hide CarriedOut, Perform;
    if a == [] {
      NothingAdded(w, c);
      assert a + b == b;
    } else {
      var d := Perform(w, c, a[0]);
      assert [a[0]] + a[1..] == a && [a[0]] + (a[1..] + b) == a + b;
      OneCarriedOut(w, c, a[0], a[1..] + b);
      OneCarriedOut(w, c, a[0], a[1..]);
      CarriedOutConcat(w, d, a[1..], b);
    }
  }

  // ---- the whole run --------------------------------------------------------------------------

  /** The events driving reads, in order. */
  function Trace(w: World, c: Config): seq<Event>
    decreases RankOf(c).inputs, RankOf(c).grants, RankOf(c).fuel, RankOf(c).weight
  {
    if c.queue == [] then []
    else
      DriveStepDescends(w, c);
      [c.queue[0]] + Trace(w, DriveStep(w, c))
  }

  /** Everything the run emits. */
  function Emitted(w: World, c: Config): seq<Action> { LoopMachine.Run(c.loop, Trace(w, c)).actions }

  /** What the driver has read, sent, run, reported and used up is what these actions come to. */
  predicate Answered(w: World, c: Config, d: Config, read: seq<Event>, actions: seq<Action>) {
    && d == CarriedOut(w, c, actions).(loop := d.loop, queue := [])
    && read == CarriedOut(w, c, actions).queue
  }

  lemma CarriedOutAt(w: World, c: Config, l: LoopState, q: seq<Event>, actions: seq<Action>)
    ensures CarriedOut(w, c.(loop := l, queue := q), actions) ==
            CarriedOut(w, c, actions).(loop := l, queue := q + Outcomes(w, |c.sent|, |c.ran|, c.answers, actions))
  {
  }

  lemma StepAnswered(w: World, c: Config, d: Config, read: seq<Event>, more: seq<Action>)
    requires c.queue != [] && Answered(w, DriveStep(w, c), d, read, more)
    ensures Answered(w, c, d, [c.queue[0]] + read, Step(c.loop, c.queue[0]).actions + more)
  {
    var o := Step(c.loop, c.queue[0]);
    var b := c.(loop := o.loop, queue := c.queue[1..]);
    PerformAllIs(w, b, o.actions);
    CarriedOutConcat(w, b, o.actions, more);
    CarriedOutAt(w, c, o.loop, c.queue[1..], o.actions + more);
    hide CarriedOut, DriveStep, Outcomes;
    var outcomes := Outcomes(w, |c.sent|, |c.ran|, c.answers, o.actions + more);
    QueueOf(w, c, o.actions + more);
    assert [c.queue[0]] + (c.queue[1..] + outcomes) == c.queue + outcomes;
  }

  lemma QueueOf(w: World, c: Config, actions: seq<Action>)
    ensures CarriedOut(w, c, actions).queue == c.queue + Outcomes(w, |c.sent|, |c.ran|, c.answers, actions)
  {
  }

  lemma {:induction false} RunAnswered(w: World, c: Config)
    ensures var d, es := DriveRun(w, c), Trace(w, c); var o := LoopMachine.Run(c.loop, es);
      d.loop == o.loop && d.queue == [] && Answered(w, c, d, es, o.actions)
    decreases RankOf(c).inputs, RankOf(c).grants, RankOf(c).fuel, RankOf(c).weight
  {
    if c.queue == [] {
      NothingAdded(w, c);
    } else {
      hide Answered, CarriedOut;
      DriveStepDescends(w, c);
      var e, next := DriveStep(w, c), Trace(w, DriveStep(w, c));
      RunAnswered(w, e);
      StepAnswered(w, c, DriveRun(w, c), next, LoopMachine.Run(e.loop, next).actions);
      StepLoop(w, c);
      assert ([c.queue[0]] + next)[1..] == next;
    }
  }

  lemma StepLoop(w: World, c: Config)
    requires c.queue != []
    ensures DriveStep(w, c).loop == Step(c.loop, c.queue[0]).loop
  {
    var o := Step(c.loop, c.queue[0]);
    PerformAllIs(w, c.(loop := o.loop, queue := c.queue[1..]), o.actions);
  }

  /**
   * Driving is a run of the machine over the events it reads. Those are the events queued at the start,
   * and then what came of every action the run emits, in the order it emits them; every turn it asks to
   * send is sent, every call run, every error reported, once each and in order, and every question takes
   * one of the operator's answers.
   */
  lemma EveryActionIsAnswered(w: World, c: Config)
    ensures var d, es := DriveRun(w, c), Trace(w, c); var o := LoopMachine.Run(c.loop, es);
      && d.loop == o.loop && d.queue == []
      && es == c.queue + Outcomes(w, |c.sent|, |c.ran|, c.answers, o.actions)
      && d.sent == c.sent + SentBy(o.actions)
      && d.ran == c.ran + RunsOf(w, |c.ran|, CallsBy(o.actions))
      && d.failed == c.failed + ErrorsBy(o.actions)
      && d.answers == AnswersLeft(c.answers, o.actions)
  {
    RunAnswered(w, c);
  }

  // ---- what is reported -----------------------------------------------------------------------

  /** What the operator should hear of: every error in a reply, and every question declined. */
  function Complaints(l: LoopState, es: seq<Event>): seq<Failure>
    decreases |es|
  {
    if es == [] then []
    else
      var e := es[0];
      (if e.ModelError? then [e.err]
       else if e.BudgetAnswer? && !e.allow && l.state == Asking then [BudgetStop(|l.pending|, l.maxTools)]
       else []) + Complaints(Step(l, e).loop, es[1..])
  }

  lemma {:induction false} ErrorsConcat(a: seq<Action>, b: seq<Action>)
    ensures ErrorsBy(a + b) == ErrorsBy(a) + ErrorsBy(b)
  {
    if a == [] {
      assert a + b == b;
    } else {
      assert (a + b)[1..] == a[1..] + b;
      ErrorsConcat(a[1..], b);
      Reassociate(ErrorOf(a[0]), ErrorsBy(a[1..]), ErrorsBy(b));
    }
  }

  lemma {:induction false} NoErrorsIn(actions: seq<Action>)
    requires forall i :: 0 <= i < |actions| ==> !actions[i].ShowError?
    ensures ErrorsBy(actions) == []
  {
    if actions != [] {
      NoErrorsIn(actions[1..]);
    }
  }

  lemma OneError(a: Action)
    ensures ErrorsBy([a, AwaitInput]) == ErrorOf(a)
  {
    assert [a, AwaitInput][1..] == [AwaitInput] && [AwaitInput][1..] == [];
    assert ErrorsBy([AwaitInput]) == [] + [];
    assert ErrorOf(a) + [] == ErrorOf(a);
  }

  lemma StepComplains(l: LoopState, e: Event)
    ensures ErrorsBy(Step(l, e).actions) ==
            if e.ModelError? then [e.err]
            else if e.BudgetAnswer? && !e.allow && l.state == Asking then [BudgetStop(|l.pending|, l.maxTools)]
            else []
  {
    var actions := Step(l, e).actions;
    if e.ModelError? || (e.BudgetAnswer? && !e.allow && l.state == Asking) {
      OneError(actions[0]);
      assert actions == [actions[0], AwaitInput];
    } else {
      NoErrorsIn(actions);
    }
  }

  lemma {:induction false} ErrorsAreComplaints(l: LoopState, es: seq<Event>)
    ensures ErrorsBy(LoopMachine.Run(l, es).actions) == Complaints(l, es)
    decreases |es|
  {
    if es != [] {
      hide Step;
      var first := Step(l, es[0]);
      StepComplains(l, es[0]);
      ErrorsAreComplaints(first.loop, es[1..]);
      ErrorsConcat(first.actions, LoopMachine.Run(first.loop, es[1..]).actions);
    }
  }

  /** Whatever the world: what an input fails at is every error heard and every question declined, in order. */
  lemma FailuresAreComplaints(w: World, c: Config)
    ensures DriveRun(w, c).failed == c.failed + Complaints(c.loop, Trace(w, c))
  {
    EveryActionIsAnswered(w, c);
    ErrorsAreComplaints(c.loop, Trace(w, c));
  }
}
