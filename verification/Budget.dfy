/** What one input may spend: tool calls dispatched and model turns sent, over any events at all. */
module Budget {
  import Conversation
  import opened LoopMachine
  import opened Wrappers

  function Dispatched(actions: seq<Action>): nat {
    if actions == [] then 0 else (if actions[0].RunTool? then 1 else 0) + Dispatched(actions[1..])
  }

  function Sent(actions: seq<Action>): nat {
    if actions == [] then 0 else (if actions[0].SendTurn? then 1 else 0) + Sent(actions[1..])
  }

  function Max(a: int, b: int): int { if a < b then b else a }

  /** How far an answer raises a ceiling: by its number, else by the ceiling set at the start, else twofold. */
  function Raise(start: int, now: int, number: int): int {
    if number > 0 then number else if start > 0 then start else now
  }

  /** A loop together with what was spent since the last accepted input, and what it was allowed. */
  datatype Ledger = Ledger(loop: LoopState, dispatched: nat, turns: nat, allowance: int)

  predicate AcceptedInput(l: LoopState, e: Event) { e.UserInput? && l.state == Idle }
  predicate AcceptedYes(l: LoopState, e: Event) { e.BudgetAnswer? && e.allow && l.state == Asking }

  /**
   * Books one event. An accepted input opens a new account at the current ceiling; an accepted yes
   * raises the allowance by the grant, or by the calls it lets through when there are more of them.
   */
  function Book(g: Ledger, e: Event): Ledger {
    var o := Step(g.loop, e);
    if AcceptedInput(g.loop, e) then
      Ledger(o.loop, Dispatched(o.actions), Sent(o.actions), g.loop.maxTools)
    else
      Ledger(o.loop, g.dispatched + Dispatched(o.actions), g.turns + Sent(o.actions),
             g.allowance + if AcceptedYes(g.loop, e)
                           then Max(Raise(g.loop.budget, g.loop.maxTools, e.grant), |g.loop.pending|) else 0)
  }

  function BookAll(g: Ledger, es: seq<Event>): Ledger
    decreases |es|
  {
    if es == [] then g else BookAll(Book(g, es[0]), es[1..])
  }

  function Open(l: LoopState): Ledger { Ledger(l, 0, 0, l.maxTools) }

  ghost predicate Solvent(g: Ledger) {
    && Reachable(g.loop)
    && g.loop.used == g.dispatched
    && g.dispatched <= g.allowance
    && 0 <= g.loop.maxTools <= g.allowance
    && g.turns + (if g.loop.state == Running then 1 else 0) <= 1 + g.dispatched
  }

  lemma {:induction false} AllDispatches(actions: seq<Action>)
    requires forall i :: 0 <= i < |actions| ==> actions[i].RunTool?
    ensures Dispatched(actions) == |actions| && Sent(actions) == 0
  {
    if actions != [] {
      AllDispatches(actions[1..]);
    }
  }

  lemma FewActions(actions: seq<Action>)
    requires |actions| <= 2
    ensures Dispatched(actions) == (if |actions| > 0 && actions[0].RunTool? then 1 else 0) +
            (if |actions| > 1 && actions[1].RunTool? then 1 else 0)
    ensures Sent(actions) == (if |actions| > 0 && actions[0].SendTurn? then 1 else 0) +
            (if |actions| > 1 && actions[1].SendTurn? then 1 else 0)
  {
    if |actions| == 2 {
      assert actions[1..] == [actions[1]];
    }
  }

  /** What every event emits: the pending calls, or one turn to send, or neither. */
  lemma StepEmits(l: LoopState, e: Event)
    ensures var o := Step(l, e);
      && Dispatched(o.actions) == o.loop.used - (if AcceptedInput(l, e) then 0 else l.used)
      && (Dispatched(o.actions) == 0 ||
          (Dispatched(o.actions) == |l.pending| && Sent(o.actions) == 0 && o.loop.state == Running))
      && Sent(o.actions) <= 1
      && (Sent(o.actions) == 1 ==> o.loop.state == Awaiting && (AcceptedInput(l, e) || l.state == Running))
  {
    var o := Step(l, e);
    if (forall i :: 0 <= i < |o.actions| ==> o.actions[i].RunTool?) {
      AllDispatches(o.actions);
    } else {
      FewActions(o.actions);
    }
  }

  lemma BookKeepsSolvent(g: Ledger, e: Event)
    requires Solvent(g)
    ensures Solvent(Book(g, e))
  {
    StepReachable(g.loop, e);
    StepEmits(g.loop, e);
  }

  lemma {:induction false} BookAllSolvent(g: Ledger, es: seq<Event>)
    requires Solvent(g)
    ensures Solvent(BookAll(g, es))
    decreases |es|
  {
    if es != [] {
      BookKeepsSolvent(g, es[0]);
      BookAllSolvent(Book(g, es[0]), es[1..]);
    }
  }

  lemma {:induction false} BookAllIsRun(g: Ledger, es: seq<Event>)
    ensures BookAll(g, es).loop == Run(g.loop, es).loop
    decreases |es|
  {
    if es != [] {
      BookAllIsRun(Book(g, es[0]), es[1..]);
    }
  }

  // ---- where the ceiling stands ---------------------------------------------------------------

  /** What the accepted yeses of a run add up to: the number each gives, or n for each that gives none. */
  function YesesGrant(l: LoopState, n: int, es: seq<Event>): int
    decreases |es|
  {
    if es == [] then 0
    else
      (if AcceptedYes(l, es[0]) then if es[0].grant > 0 then es[0].grant else n else 0)
      + YesesGrant(Step(l, es[0]).loop, n, es[1..])
  }

  lemma {:induction false} CeilingGrows(l: LoopState, es: seq<Event>)
    requires l.budget > 0
    ensures Run(l, es).loop.maxTools == l.maxTools + YesesGrant(l, l.budget, es)
    decreases |es|
  {
    if es != [] {
      CeilingGrows(Step(l, es[0]).loop, es[1..]);
    }
  }

  /**
   * After any events the ceiling of a loop started at a positive one is that, and for every yes that
   * was accepted the number it gave, or, when it gave none, the starting ceiling once more.
   */
  lemma CeilingIsTheSum(system: string, n: int, es: seq<Event>)
    requires n > 0
    ensures Run(New(system, n), es).loop.maxTools == n + YesesGrant(New(system, n), n, es)
  {
    CeilingGrows(New(system, n), es);
  }

  /** What the accepted yeses since the last input let through beyond what they grant. */
  function Overshoot(l: LoopState, n: int, so: int, es: seq<Event>): int
    decreases |es|
  {
    if es == [] then so
    else
      var next :=
        if AcceptedInput(l, es[0]) then 0
        else if AcceptedYes(l, es[0]) then so + Max(0, |l.pending| - if es[0].grant > 0 then es[0].grant else n)
        else so;
      Overshoot(Step(l, es[0]).loop, n, next, es[1..])
  }

  lemma {:induction false} AllowanceIsCeilingAndOvershoot(g: Ledger, so: int, es: seq<Event>)
    requires g.loop.budget > 0 && g.allowance == g.loop.maxTools + so
    ensures var h := BookAll(g, es); h.allowance == h.loop.maxTools + Overshoot(g.loop, g.loop.budget, so, es)
    decreases |es|
  {
    if es != [] {
      var next :=
        if AcceptedInput(g.loop, es[0]) then 0
        else if AcceptedYes(g.loop, es[0])
        then so + Max(0, |g.loop.pending| - if es[0].grant > 0 then es[0].grant else g.loop.budget)
        else so;
      AllowanceIsCeilingAndOvershoot(Book(g, es[0]), next, es[1..]);
    }
  }

  /**
   * Whatever events arrive, in whatever order: the calls dispatched since the last input are
   * exactly `used`, the turns sent are at most one more, and the calls never exceed the allowance,
   * which from a positive start is that, the sum of what all accepted yeses granted, and what those
   * since the input let through beyond their grants.
   */
  lemma SpendIsBounded(system: string, maxTools: nat, es: seq<Event>)
    ensures var l := New(system, maxTools); var g := BookAll(Open(l), es);
      && g.loop == Run(l, es).loop
      && g.loop.used == g.dispatched <= g.allowance
      && g.turns <= 1 + g.dispatched
      && (maxTools > 0 ==>
        g.allowance == maxTools + YesesGrant(l, maxTools, es) + Overshoot(l, maxTools, 0, es))
  {
    var l := New(system, maxTools);
    NewReachable(system, maxTools);
    BookAllSolvent(Open(l), es);
    BookAllIsRun(Open(l), es);
    if maxTools > 0 {
      AllowanceIsCeilingAndOvershoot(Open(l), 0, es);
      CeilingIsTheSum(system, maxTools, es);
    }
  }

  /** The same from a ceiling that was never positive: a number adds itself, none doubles what there is. */
  function YesesDouble(l: LoopState, now: int, es: seq<Event>): int
    decreases |es|
  {
    if es == [] then now
    else
      var next := if !AcceptedYes(l, es[0]) then now else if es[0].grant > 0 then now + es[0].grant else now * 2;
      YesesDouble(Step(l, es[0]).loop, next, es[1..])
  }

  lemma {:induction false} CeilingDoubles(l: LoopState, es: seq<Event>)
    requires l.budget <= 0
    ensures Run(l, es).loop.maxTools == YesesDouble(l, l.maxTools, es)
    decreases |es|
  {
    if es != [] {
      CeilingDoubles(Step(l, es[0]).loop, es[1..]);
    }
  }

  lemma CeilingWithoutStart(system: string, n: int, es: seq<Event>)
    requires n <= 0
    ensures Run(New(system, n), es).loop.maxTools == YesesDouble(New(system, n), n, es)
  {
    CeilingDoubles(New(system, n), es);
  }

  /** The event is no yes, or a yes that grants enough for the calls it lets through. */
  predicate Covered(l: LoopState, e: Event) {
    AcceptedYes(l, e) ==> l.used + |l.pending| <= l.maxTools + Raise(l.budget, l.maxTools, e.grant)
  }

  predicate WithinCeiling(l: LoopState) { l.used <= l.maxTools }

  /** The ceiling holds now and after every event. */
  predicate AlwaysWithin(l: LoopState, es: seq<Event>)
    decreases |es|
  {
    WithinCeiling(l) && (es != [] ==> AlwaysWithin(Step(l, es[0]).loop, es[1..]))
  }

  /** Every yes, where it is accepted, covers what it lets through. */
  predicate AlwaysCovered(l: LoopState, es: seq<Event>)
    decreases |es|
  {
    es != [] ==> Covered(l, es[0]) && AlwaysCovered(Step(l, es[0]).loop, es[1..])
  }

  lemma CeilingStep(l: LoopState, e: Event)
    requires 0 <= l.maxTools && WithinCeiling(l)
    ensures 0 <= Step(l, e).loop.maxTools && (WithinCeiling(Step(l, e).loop) <==> Covered(l, e))
  {
  }

  lemma {:induction false} AlwaysWithinIff(l: LoopState, es: seq<Event>)
    requires 0 <= l.maxTools && WithinCeiling(l)
    ensures AlwaysWithin(l, es) <==> AlwaysCovered(l, es)
    decreases |es|
  {
    if es != [] {
      CeilingStep(l, es[0]);
      if Covered(l, es[0]) {
        AlwaysWithinIff(Step(l, es[0]).loop, es[1..]);
      }
    }
  }

  /** What holds always holds after every prefix. */
  lemma {:induction false} AlwaysWithinPrefixes(l: LoopState, es: seq<Event>)
    ensures AlwaysWithin(l, es) <==> forall k :: 0 <= k <= |es| ==> WithinCeiling(Run(l, es[..k]).loop)
    decreases |es|
  {
    assert es[..0] == [] && Run(l, es[..0]).loop == l;
    if es != [] {
      AlwaysWithinPrefixes(Step(l, es[0]).loop, es[1..]);
      forall k | 1 <= k <= |es|
        ensures Run(l, es[..k]).loop == Run(Step(l, es[0]).loop, es[1..][..k - 1]).loop
      {
        assert es[..k][1..] == es[1..][..k - 1];
      }
      if forall k :: 0 <= k <= |es| ==> WithinCeiling(Run(l, es[..k]).loop) {
        forall k | 0 <= k <= |es[1..]|
          ensures WithinCeiling(Run(Step(l, es[0]).loop, es[1..][..k]).loop)
        {
          assert WithinCeiling(Run(l, es[..k + 1]).loop);
        }
      }
    }
  }

  /**
   * Over a whole run, whatever the events: the calls booked stay within the ceiling after every
   * prefix if and only if every yes that was accepted covered what it let through.
   */
  lemma CeilingHoldsIff(system: string, maxTools: nat, es: seq<Event>)
    ensures (forall k :: 0 <= k <= |es| ==> WithinCeiling(Run(New(system, maxTools), es[..k]).loop)) <==>
            AlwaysCovered(New(system, maxTools), es)
  {
    AlwaysWithinPrefixes(New(system, maxTools), es);
    AlwaysWithinIff(New(system, maxTools), es);
  }

  /** For a fresh loop: an input, these calls asked for at once, and a yes to the question that follows. */
  function YesToAll(calls: seq<Conversation.ToolCall>, grant: int): seq<Event> {
    [UserInput("")] + (Asked(calls) + [ModelDone(""), BudgetAnswer(true, grant)])
  }

  /** With a ceiling of one, a yes that grants one more runs all three calls, past the ceiling it raised. */
  lemma AYesCanOverrunTheCeiling(call: Conversation.ToolCall)
    ensures var l := Run(New("", 1), YesToAll([call, call, call], 1)).loop;
      l.used == 3 && l.maxTools == 2
    ensures !AlwaysCovered(New("", 1), YesToAll([call, call, call], 1))
  {
    var calls, after := [call, call, call], [ModelDone(""), BudgetAnswer(true, 1)];
    var es := YesToAll(calls, 1);
    var l := Step(New("", 1), UserInput("")).loop;
    assert es[1..] == Asked(calls) + after;
    AskedCollects(l, calls, after);
    YesRunsAll(l.(pending := calls));
    assert es[..|es|] == es && !WithinCeiling(Run(New("", 1), es[..|es|]).loop);
    CeilingHoldsIff("", 1, es);
  }

  lemma YesRunsAll(l: LoopState)
    requires |l.pending| == 3 && l.used == 0 && l.maxTools == 1
    ensures var m := Run(l, [ModelDone(""), BudgetAnswer(true, 1)]).loop; m.used == 3 && m.maxTools == 2
  {
    var es := [ModelDone(""), BudgetAnswer(true, 1)];
    assert es[1..] == [BudgetAnswer(true, 1)] && es[1..][1..] == [];
  }

  /**
   * Asking is not a verdict: a question answered yes leads where the turn would have led had the
   * ceiling been the raised one all along, whenever that is enough for the calls waiting.
   */
  lemma YesResumesTheTurn(l: LoopState, finish: string, grant: int)
    requires l.pending != [] && l.used + |l.pending| > l.maxTools
    requires l.used + |l.pending| <= l.maxTools + Raise(l.budget, l.maxTools, grant)
    ensures var asked := Step(l, ModelDone(finish));
      && asked.loop.messages == l.messages && asked.loop.pending == l.pending
      && Step(asked.loop, BudgetAnswer(true, grant)) ==
         Step(l.(maxTools := l.maxTools + Raise(l.budget, l.maxTools, grant)), ModelDone(finish))
  {
  }

  /** The calls a run of events leaves waiting are dispatched in the order they were asked for. */
  lemma CallsRunInOrder(l: LoopState, calls: seq<Conversation.ToolCall>, finish: string)
    requires l.pending == [] && calls != [] && l.used + |calls| <= l.maxTools
    ensures var o := Run(l, Asked(calls) + [ModelDone(finish)]);
      && o.actions == seq(|calls|, i requires 0 <= i < |calls| => RunTool(calls[i]))
      && o.loop.messages == l.messages + [Conversation.AssistantTurn(calls)]
      && o.loop.state == Running && o.loop.used == l.used + |calls|
  {
    AskedCollects(l, calls, [ModelDone(finish)]);
    var full := l.(pending := calls);
    assert [] + calls == calls;
    assert [ModelDone(finish)][1..] == [];
    var o := Step(full, ModelDone(finish));
    assert o.actions + [] == o.actions;
  }

  function Asked(calls: seq<Conversation.ToolCall>): seq<Event> {
    seq(|calls|, i requires 0 <= i < |calls| => ModelToolCall(Some(calls[i])))
  }

  lemma {:induction false} AskedCollects(l: LoopState, calls: seq<Conversation.ToolCall>, after: seq<Event>)
    ensures Run(l, Asked(calls) + after) == Run(l.(pending := l.pending + calls), after)
    decreases |calls|
  {
    if calls == [] {
      assert Asked(calls) + after == after && l.pending + calls == l.pending;
    } else {
      assert (Asked(calls) + after)[1..] == Asked(calls[1..]) + after;
      AskedCollects(l.(pending := l.pending + [calls[0]]), calls[1..], after);
      assert (l.pending + [calls[0]]) + calls[1..] == l.pending + calls;
    }
  }

  // ---- how a turn ends ------------------------------------------------------------------------

  /** Some assistant text was shown. */
  predicate ShowsText(es: seq<Event>) { exists i :: 0 <= i < |es| && es[i].ModelText? && es[i].text != "" }

  predicate NoInput(es: seq<Event>) { forall i :: 0 <= i < |es| ==> !es[i].UserInput? }

  lemma {:induction false} TextShownIff(l: LoopState, es: seq<Event>)
    requires NoInput(es)
    ensures Run(l, es).loop.textShown <==> l.textShown || ShowsText(es)
    decreases |es|
  {
    if es != [] {
      assert forall i :: 0 <= i < |es[1..]| ==> es[1..][i] == es[i + 1];
      TextShownIff(Step(l, es[0]).loop, es[1..]);
      if ShowsText(es) {
        var i :| 0 <= i < |es| && es[i].ModelText? && es[i].text != "";
        assert i > 0 ==> es[1..][i - 1] == es[i];
      }
    }
  }

  /**
   * What the operator sees when a turn ends with nothing left to run: a truncation warning exactly
   * for a cut reply, and otherwise the silent-turn note exactly when no text at all was shown since
   * the input.
   */
  lemma TurnEndSaysWhy(l: LoopState, input: string, es: seq<Event>, finish: string)
    requires l.state == Idle && NoInput(es)
    requires var m := Run(Step(l, UserInput(input)).loop, es).loop; m.pending == []
    ensures var m := Run(Step(l, UserInput(input)).loop, es).loop; var o := Step(m, ModelDone(finish));
      && o.loop.state == Idle && o.actions != [] && o.actions[|o.actions| - 1] == AwaitInput
      && (ShowTruncated(finish) in o.actions <==> finish in {"length", "incomplete"})
      && (ShowNote(SILENT_TURN) in o.actions <==> finish !in {"length", "incomplete"} && !ShowsText(es))
  {
    TextShownIff(Step(l, UserInput(input)).loop, es);
  }
}
