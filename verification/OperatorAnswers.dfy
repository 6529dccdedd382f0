/** What the operator's numbers come to over one input: the ceiling it leaves behind. */
module OperatorAnswers {
  import opened LoopMachine
  import opened Drive
  import opened DriveConversation
  import opened DriveTrace

  /** The positive numbers among these, added up. */
  function Positives(answers: seq<int>): int {
    if answers == [] then 0
    else Positives(answers[..|answers| - 1]) + if answers[|answers| - 1] > 0 then answers[|answers| - 1] else 0
  }

  /** A yes given and not yet read. */
  function Unread(c: Config): int {
    if c.loop.state == Asking && |c.queue| == 1 && c.queue[0].BudgetAnswer? && c.queue[0].allow
    then c.queue[0].grant else 0
  }

  /** How many answers have been taken since the start. */
  function Taken(c: Config, start: Config): int { |start.answers| - |c.answers| }

  /** The answers are taken from the front, and the ceiling stands where those taken have put it. */
  predicate Lifted(c: Config, start: Config) {
    && 0 <= Taken(c, start) && c.answers == start.answers[Taken(c, start)..]
    && c.loop.maxTools + Unread(c) == start.loop.maxTools + Positives(start.answers[..Taken(c, start)])
    && (c.loop.state == Asking ==>
      |c.queue| == 1 && c.queue[0].BudgetAnswer? && (c.queue[0].allow <==> c.queue[0].grant > 0))
  }

  lemma {:induction false} NoQuestions(answers: seq<int>, actions: seq<Action>)
    requires forall i :: 0 <= i < |actions| ==> !actions[i].AskToContinue?
    ensures AnswersLeft(answers, actions) == answers
    decreases |actions|
  {
    if actions != [] {
      NoQuestions(answers, actions[1..]);
    }
  }

  lemma DriveStepIs(w: World, c: Config)
    requires c.queue != []
    ensures var o := Step(c.loop, c.queue[0]);
      DriveStep(w, c) == CarriedOut(w, c.(loop := o.loop, queue := c.queue[1..]), o.actions)
  {
    var o := Step(c.loop, c.queue[0]);
    PerformAllIs(w, c.(loop := o.loop, queue := c.queue[1..]), o.actions);
  }

  lemma OneAction(w: World, c: Config)
    requires c.queue != [] && |Step(c.loop, c.queue[0]).actions| == 1
    ensures var o := Step(c.loop, c.queue[0]);
      DriveStep(w, c) == Perform(w, c.(loop := o.loop, queue := c.queue[1..]), o.actions[0])
  {
    var o := Step(c.loop, c.queue[0]);
    var b := c.(loop := o.loop, queue := c.queue[1..]);
    assert o.actions[1..] == [];
    assert PerformAll(w, b, o.actions) == PerformAll(w, Perform(w, b, o.actions[0]), o.actions[1..]);
  }

  /** A step that asks nothing takes no answer. */
  lemma QuietStep(w: World, c: Config, start: Config)
    requires c.queue != [] && Lifted(c, start)
    requires var o := Step(c.loop, c.queue[0]);
      && (forall i :: 0 <= i < |o.actions| ==> !o.actions[i].AskToContinue?)
      && o.loop.state != Asking && o.loop.maxTools == c.loop.maxTools + Unread(c)
    ensures Lifted(DriveStep(w, c), start)
  {
    var o := Step(c.loop, c.queue[0]);
    DriveStepIs(w, c);
    NoQuestions(c.answers, o.actions);
  }

  /** One that asks takes the next. */
  lemma AskingTakes(w: World, c: Config, start: Config)
    requires |c.queue| == 1 && Lifted(c, start) && c.loop.state != Asking
    requires var o := Step(c.loop, c.queue[0]);
      |o.actions| == 1 && o.actions[0].AskToContinue? && o.loop.maxTools == c.loop.maxTools
    ensures Lifted(DriveStep(w, c), start)
  {
    var d := DriveStep(w, c);
    OneAction(w, c);
    assert c.queue[1..] == [];
    var k := Taken(c, start);
    if c.answers == [] {
      assert d.answers == [] && d.queue == [BudgetAnswer(false, 0)];
    } else {
      assert d.answers == c.answers[1..] && d.queue == [BudgetAnswer(c.answers[0] > 0, c.answers[0])];
      assert start.answers[..k + 1][..k] == start.answers[..k];
      assert start.answers[..k + 1][k] == c.answers[0];
    }
  }

  lemma LiftedStep(w: World, c: Config, start: Config)
    requires c.queue != [] && Orderly(c) && Lifted(c, start)
    ensures Lifted(DriveStep(w, c), start)
  {
    var e, l := c.queue[0], c.loop;
    if l.state == Awaiting && e.ModelDone? && l.pending != [] && l.used + |l.pending| > l.maxTools {
      AskingTakes(w, c, start);
    } else {
      QuietStep(w, c, start);
    }
  }

  lemma {:induction false} LiftedRun(w: World, c: Config, origin: Config, start: Config)
    requires DisciplinedWorld(w) && Orderly(c) && Faithful(c, origin) && Lifted(c, start)
    ensures Lifted(DriveRun(w, c), start)
    decreases RankOf(c).inputs, RankOf(c).grants, RankOf(c).fuel, RankOf(c).weight
  {
    hide Lifted;
    if c.queue != [] {
      DriveStepDescends(w, c);
      OrderlyStep(w, c, origin);
      LiftedStep(w, c, start);
      LiftedRun(w, DriveStep(w, c), origin, start);
    }
  }

  /**
   * After one input, with replies that end once: the operator's answers were taken from the front of
   * those still to be given, and the ceiling is what it was and every positive number among them.
   */
  lemma AnswersRaiseTheCeiling(w: World, c: Config, text: string)
    requires DisciplinedWorld(w) && AtRest(c.loop) && c.queue == [UserInput(text)]
    ensures var d := DriveRun(w, c); var k := |c.answers| - |d.answers|;
      && k >= 0 && d.answers == c.answers[k..]
      && d.loop.maxTools == c.loop.maxTools + Positives(c.answers[..k])
  {
    hide Lifted, Orderly, Faithful, DisciplinedWorld, DriveStep;
    FirstInput(w, c, text);
    InputLifts(w, c, text);
    JustSentIsOrderly(w, DriveStep(w, c));
    LiftedRun(w, DriveStep(w, c), c, c);
    InputEndsAtRest(w, c, text);
    LiftedAtRest(DriveRun(w, c), c);
    assert DriveRun(w, c) == DriveRun(w, DriveStep(w, c));
  }

  lemma JustSentIsOrderly(w: World, c: Config)
    requires DisciplinedWorld(w) && JustSent(w, c)
    ensures Orderly(c)
  {
  }

  lemma InputLifts(w: World, c: Config, text: string)
    requires c.loop.state == Idle && c.queue == [UserInput(text)]
    ensures Lifted(DriveStep(w, c), c)
  {
    OneAction(w, c);
    assert c.answers[..0] == [] && c.answers[0..] == c.answers;
  }

  lemma LiftedAtRest(d: Config, start: Config)
    requires Lifted(d, start) && d.loop.state == Idle
    ensures var k := |start.answers| - |d.answers|;
      && k >= 0 && d.answers == start.answers[k..]
      && d.loop.maxTools == start.loop.maxTools + Positives(start.answers[..k])
  {
  }
}
