/** What an unattended input can cost, whatever the gateway streams back. */
module DriveSpending {
  import opened LoopMachine
  import opened Drive
  import opened Budget

  lemma {:induction false} PerformAllSpends(w: World, c: Config, actions: seq<Action>)
    ensures var d := PerformAll(w, c, actions);
      && |d.ran| == |c.ran| + Dispatched(actions)
      && |d.sent| == |c.sent| + Sent(actions)
    decreases |actions|
  {
    if actions != [] {
      PerformAllSpends(w, Perform(w, c, actions[0]), actions[1..]);
    }
  }

  /** One step of the queue runs the tools the loop books as used, and sends at most one turn. */
  lemma DriveStepSpends(w: World, c: Config)
    requires c.queue != []
    ensures var d := DriveStep(w, c); var e := c.queue[0]; var accepted := AcceptedInput(c.loop, e);
      && d.loop == Step(c.loop, e).loop
      && |d.ran| == |c.ran| + d.loop.used - (if accepted then 0 else c.loop.used)
      && |c.sent| <= |d.sent| <= |c.sent| + 1
      && (|d.sent| > |c.sent| ==>
          |d.ran| == |c.ran| && d.loop.state == Awaiting && (accepted || c.loop.state == Running))
      && Inputs(d.queue) == Inputs(c.queue) - (if e.UserInput? then 1 else 0)
      && |d.answers| + Yeses(d.queue) <= |c.answers| + Yeses(c.queue)
  {
    var o := Step(c.loop, c.queue[0]);
    var start := c.(loop := o.loop, queue := c.queue[1..]);
    CountsHead(c.queue);
    PerformAllCounts(w, start, o.actions);
    PerformAllSpends(w, start, o.actions);
    StepEmits(c.loop, c.queue[0]);
  }

  /** No grant outstanding, and the spend so far within the ceiling of the input. */
  predicate Frugal(c: Config, ceiling: int, ran0: nat, sent0: nat) {
    && Inputs(c.queue) == 0
    && |c.answers| + Yeses(c.queue) == 0
    && c.loop.maxTools == ceiling
    && c.loop.used == |c.ran| - ran0
    && 0 <= c.loop.used <= Max(0, ceiling)
    && |c.sent| - sent0 + (if c.loop.state == Running then 1 else 0) <= 1 + c.loop.used
  }

  lemma CeilingKept(l: LoopState, e: Event)
    requires !(e.BudgetAnswer? && e.allow) && !e.UserInput?
    ensures var m := Step(l, e).loop;
      && m.maxTools == l.maxTools
      && (m.used == l.used || l.used < m.used <= l.maxTools)
      && (m.state == Running ==> l.state == Running || l.used < m.used)
  {
  }

  lemma FrugalStep(w: World, c: Config, ceiling: int, ran0: nat, sent0: nat)
    requires c.queue != [] && Frugal(c, ceiling, ran0, sent0)
    ensures Frugal(DriveStep(w, c), ceiling, ran0, sent0)
  {
    var e := c.queue[0];
    DriveStepSpends(w, c);
    CountsHead(c.queue);
    assert !(e.BudgetAnswer? && e.allow) && !e.UserInput?;
    CeilingKept(c.loop, e);
  }

  lemma {:induction false} FrugalRun(w: World, c: Config, ceiling: int, ran0: nat, sent0: nat)
    requires Frugal(c, ceiling, ran0, sent0)
    ensures Frugal(DriveRun(w, c), ceiling, ran0, sent0)
    decreases RankOf(c).inputs, RankOf(c).grants, RankOf(c).fuel, RankOf(c).weight
  {
    if c.queue != [] {
      DriveStepDescends(w, c);
      FrugalStep(w, c, ceiling, ran0, sent0);
      FrugalRun(w, DriveStep(w, c), ceiling, ran0, sent0);
    }
  }

  /**
   * With nobody to ask, one input runs at most `maxTools` tools and sends at most one turn more
   * than it ran tools, disciplined streams or not.
   */
  lemma UnattendedSpend(w: World, c: Config, text: string)
    requires c.queue == [UserInput(text)] && c.answers == []
    ensures var d := DriveRun(w, c);
      && |c.ran| <= |d.ran| <= |c.ran| + Max(0, c.loop.maxTools)
      && |c.sent| <= |d.sent| <= |c.sent| + 1 + (|d.ran| - |c.ran|)
      && d.queue == []
  {
    RunEmptiesQueue(w, c);
    var d := DriveStep(w, c);
    assert DriveRun(w, c) == DriveRun(w, d);
    assert c.queue[1..] == [];
    if c.loop.state == Idle {
      FirstStep(w, c, text);
      FrugalRun(w, d, c.loop.maxTools, |c.ran|, |c.sent|);
      SentGrows(w, d);
    }
  }

  lemma SentOnFirst(w: World, c: Config, text: string)
    requires c.queue == [UserInput(text)] && c.loop.state == Idle
    ensures |DriveStep(w, c).sent| == |c.sent| + 1
  {
    var o := Step(c.loop, c.queue[0]);
    PerformAllSpends(w, c.(loop := o.loop, queue := c.queue[1..]), o.actions);
    assert o.actions[1..] == [];
  }

  lemma FirstStep(w: World, c: Config, text: string)
    requires c.queue == [UserInput(text)] && c.answers == [] && c.loop.state == Idle
    ensures var d := DriveStep(w, c);
      Frugal(d, c.loop.maxTools, |c.ran|, |c.sent|) && |d.sent| == |c.sent| + 1
  {
    DriveStepSpends(w, c);
    CountsHead(c.queue);
    assert c.queue[1..] == [];
    SentOnFirst(w, c, text);
  }

  lemma {:induction false} SentGrows(w: World, c: Config)
    ensures |c.sent| <= |DriveRun(w, c).sent|
    decreases RankOf(c).inputs, RankOf(c).grants, RankOf(c).fuel, RankOf(c).weight
  {
    if c.queue != [] {
      DriveStepDescends(w, c);
      var o := Step(c.loop, c.queue[0]);
      PerformAllSpends(w, c.(loop := o.loop, queue := c.queue[1..]), o.actions);
      SentGrows(w, DriveStep(w, c));
    }
  }

  lemma {:induction false} RunEmptiesQueue(w: World, c: Config)
    ensures DriveRun(w, c).queue == []
    decreases RankOf(c).inputs, RankOf(c).grants, RankOf(c).fuel, RankOf(c).weight
  {
    if c.queue != [] {
      DriveStepDescends(w, c);
      RunEmptiesQueue(w, DriveStep(w, c));
    }
  }
}
