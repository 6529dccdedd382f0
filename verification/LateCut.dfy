/**
 * Replies that end twice, as a stream that breaks between its finish and its sentinel does: exactly
 * when such a reply leaves the conversation with a call nobody answers.
 */
module LateCut {
  import opened Wrappers
  import opened Conversation
  import opened LoopMachine
  import opened Stream
  import opened Drive
  import opened DriveConversation
  import opened StreamDiscipline
  import opened StreamContent
  import DriveSpending

  // ---- reading such a reply -------------------------------------------------------------------

  /** Events an idle loop does not listen to: results and answers that come too late. */
  predicate Stale(q: seq<Event>) { forall i :: 0 <= i < |q| ==> q[i].ToolResult? || q[i].BudgetAnswer? }

  /** One event consumed without any action to carry out. */
  lemma StepOnly(w: World, c: Config, o: Outcome)
    requires c.queue != [] && o == Step(c.loop, c.queue[0]) && o.actions == []
    ensures DriveRun(w, c) == DriveRun(w, c.(loop := o.loop, queue := c.queue[1..]))
  {
  }

  lemma {:induction false} StaleIsIgnored(w: World, c: Config)
    requires c.loop.state == Idle && Stale(c.queue)
    ensures DriveRun(w, c) == c.(queue := [])
    decreases |c.queue|
  {
    if c.queue != [] {
      StepOnly(w, c, Outcome(c.loop, []));
      StaleIsIgnored(w, c.(queue := c.queue[1..]));
    }
  }

  /** The error hands back to the user, and what is queued behind it is ignored. */
  lemma ErrorHandsBack(w: World, c: Config)
    requires c.queue != [] && c.queue[0].ModelError? && Stale(c.queue[1..])
    ensures var d := DriveRun(w, c); d == c.(loop := HandBack(c.loop), queue := [], failed := d.failed)
  {
    var o := Step(c.loop, c.queue[0]);
    PerformShows(w, c.(loop := o.loop, queue := c.queue[1..]), o.actions);
    StaleIsIgnored(w, DriveStep(w, c));
    assert DriveRun(w, c) == DriveRun(w, DriveStep(w, c));
  }

  /** Reading narration collects its calls and changes nothing else that is kept. */
  lemma {:induction false} NarrationIsRead(w: World, c: Config, said: seq<Event>, rest: seq<Event>) returns (d: Config)
    requires c.queue == said + rest && Narrates(said)
    ensures DriveRun(w, c) == DriveRun(w, d)
    ensures d == c.(loop := d.loop, queue := rest, failed := d.failed)
    ensures d.loop == c.loop.(pending := c.loop.pending + Gathered(said).calls, textShown := d.loop.textShown)
    decreases |said|
  {
    if said == [] {
      assert c.queue == rest && c.loop.pending + Gathered(said).calls == c.loop.pending;
      d := c;
    } else {
      var o := Step(c.loop, c.queue[0]);
      var b := c.(loop := o.loop, queue := c.queue[1..]);
      PerformShows(w, b, o.actions);
      assert c.queue[1..] == said[1..] + rest;
      d := NarrationIsRead(w, DriveStep(w, c), said[1..], rest);
      Reassociate(c.loop.pending, EventGist(said[0]).calls, Gathered(said[1..]).calls);
      assert DriveRun(w, c) == DriveRun(w, DriveStep(w, c));
      assert o.loop.pending == c.loop.pending + EventGist(said[0]).calls;
    }
  }

  /** The calls waiting fit under the ceiling. */
  predicate Fits(l: LoopState, calls: seq<ToolCall>) { calls != [] && l.used + |calls| <= l.maxTools }

  /** Ending the turn dispatches the calls that fit, and queues nothing an idle loop would hear. */
  lemma DoneIsRead(w: World, c: Config, rest: seq<Event>) returns (late: seq<Event>)
    requires c.queue != [] && c.queue[0].ModelDone? && c.queue[1..] == rest
    ensures var d := DriveStep(w, c); var fits := Fits(c.loop, c.loop.pending);
      && d.queue == rest + late && Stale(late)
      && d.sent == c.sent && d.loop.maxTools == c.loop.maxTools
      && d.loop.messages == c.loop.messages + (if fits then [AssistantTurn(c.loop.pending)] else [])
      && |d.ran| == |c.ran| + (if fits then |c.loop.pending| else 0)
  {
    var o := Step(c.loop, c.queue[0]);
    var b := c.(loop := o.loop, queue := rest);
    assert c.loop.messages + [] == c.loop.messages;
    if Fits(c.loop, c.loop.pending) {
      PerformRuns(w, b, c.loop.pending, o.actions);
      late := Results(w, |c.ran|, c.loop.pending);
    } else if c.loop.pending != [] {
      assert PerformAll(w, b, o.actions) == PerformAll(w, Perform(w, b, o.actions[0]), o.actions[1..]);
      late := DriveStep(w, c).queue[|rest|..];
    } else {
      PerformShows(w, b, o.actions);
      late := [];
    }
  }

  /** An assistant turn with calls and nothing after it is not a complete turn. */
  lemma {:induction false} OpenTurnIsIncomplete(ms: seq<Message>, calls: seq<ToolCall>)
    requires Turns(ms) && calls != []
    ensures !Turns(ms + [AssistantTurn(calls)])
  {
    var open := ms + [AssistantTurn(calls)];
    if ms != [] {
      var k := if IsUser(ms[0]) then 0 else |ms[0].toolCalls|;
      assert open[k + 1..] == ms[k + 1..] + [AssistantTurn(calls)];
      OpenTurnIsIncomplete(ms[k + 1..], calls);
    }
  }

  lemma OrphanIsMalformed(ms: seq<Message>, calls: seq<ToolCall>)
    requires WellFormed(ms) && calls != []
    ensures !WellFormed(ms + [AssistantTurn(calls)])
  {
    assert SYSTEM[0] != ASSISTANT[0];
    BodyConcat(ms, [AssistantTurn(calls)]);
    OpenTurnIsIncomplete(Body(ms), calls);
  }

  /** Back with the user, nothing waiting and nothing owed. */
  predicate HandedBack(c: Config) {
    c.queue == [] && c.loop.state == Idle && c.loop.pending == [] && c.loop.answered == []
  }

  /** A reply whose turn has ended, well or badly, and that then fails. */
  predicate EndsTwice(es: seq<Event>) {
    |es| >= 2 && Narrates(es[..|es| - 2]) && Terminal(es[|es| - 2]) && es[|es| - 1].ModelError?
  }

  /** Such a reply loses its results when it ended well and asked for calls that fit. */
  predicate Orphans(es: seq<Event>, used: int, maxTools: int) {
    EndsTwice(es) && es[|es| - 2].ModelDone? &&
    var calls := Gathered(es).calls; calls != [] && used + |calls| <= maxTools
  }

  lemma TwiceGathered(said: seq<Event>, end: Event, err: Failure)
    requires Terminal(end)
    ensures Gathered(said + [end, ModelError(err)]) == Gathered(said)
  {
    assert said + [end, ModelError(err)] == (said + [end]) + [ModelError(err)];
    TerminalCarriesNothing(said + [end], ModelError(err));
    TerminalCarriesNothing(said, end);
  }

  /** From the end of its turn on, such a reply runs what fits and hands back. */
  lemma EndingTwice(w: World, c: Config, end: Event, err: Failure)
    requires Terminal(end) && c.queue == [end, ModelError(err)]
    ensures var d := DriveRun(w, c); var fits := end.ModelDone? && Fits(c.loop, c.loop.pending);
      && HandedBack(d) && d.sent == c.sent && d.loop.maxTools == c.loop.maxTools
      && d.loop.messages == c.loop.messages + (if fits then [AssistantTurn(c.loop.pending)] else [])
      && |d.ran| == |c.ran| + (if fits then |c.loop.pending| else 0)
  {
    assert c.queue[1..] == [ModelError(err)];
    var d := DriveStep(w, c);
    if end.ModelDone? {
      var late := DoneIsRead(w, c, [ModelError(err)]);
      assert d.queue[1..] == late;
    } else {
      var o := Step(c.loop, c.queue[0]);
      PerformShows(w, c.(loop := o.loop, queue := c.queue[1..]), o.actions);
      assert c.loop.messages + [] == c.loop.messages;
      assert d.queue[1..] == [];
    }
    ErrorHandsBack(w, d);
    assert DriveRun(w, c) == DriveRun(w, d);
  }

  /**
   * The exact condition, for a reply read at any turn: the loop always comes back with nothing
   * outstanding, and the conversation is left malformed if and only if the reply ended well before it
   * failed and asked for calls that fit under the ceiling. Those calls are run and recorded, and
   * their results are thrown away.
   */
  lemma LateCutIff(w: World, c: Config)
    requires c.loop.pending == [] && WellFormed(c.loop.messages) && EndsTwice(c.queue)
    ensures var d := DriveRun(w, c); var calls := Gathered(c.queue).calls;
      var orphans := Orphans(c.queue, c.loop.used, c.loop.maxTools);
      && HandedBack(d) && d.sent == c.sent && d.loop.maxTools == c.loop.maxTools
      && d.loop.messages == c.loop.messages + (if orphans then [AssistantTurn(calls)] else [])
      && |d.ran| == |c.ran| + (if orphans then |calls| else 0)
      && (WellFormed(d.loop.messages) <==> !orphans)
  {
    var n := |c.queue| - 2;
    var said, end, err := c.queue[..n], c.queue[n], c.queue[n + 1].err;
    assert c.queue == said + [end, ModelError(err)];
    TwiceGathered(said, end, err);
    var b := NarrationIsRead(w, c, said, [end, ModelError(err)]);
    assert b.loop.pending == Gathered(said).calls;
    EndingTwice(w, b, end, err);
    assert c.loop.messages + [] == c.loop.messages;
    if Orphans(c.queue, c.loop.used, c.loop.maxTools) {
      OrphanIsMalformed(c.loop.messages, Gathered(said).calls);
    }
  }

  /** The same for the first reply to an input, whatever the world does afterwards. */
  lemma FirstReplyCutIff(w: World, c: Config, text: string, said: seq<Event>, finish: string, err: Failure)
    requires AtRest(c.loop) && c.queue == [UserInput(text)] && Narrates(said)
    requires Heard(w.reply(|c.sent|, c.loop.messages + [UserMessage(text)])) ==
             said + [ModelDone(finish), ModelError(err)]
    ensures var d := DriveRun(w, c); var calls := Gathered(said).calls;
      var fits := calls != [] && |calls| <= c.loop.maxTools;
      && HandedBack(d)
      && d.loop.messages == c.loop.messages + [UserMessage(text)] + (if fits then [AssistantTurn(calls)] else [])
      && |d.ran| == |c.ran| + (if fits then |calls| else 0)
      && (WellFormed(d.loop.messages) <==> !fits)
  {
    FirstInput(w, c, text);
    assert DriveRun(w, c) == DriveRun(w, DriveStep(w, c));
    CutOfReply(w, DriveStep(w, c), said, finish, err);
  }

  lemma CutOfReply(w: World, c: Config, said: seq<Event>, finish: string, err: Failure)
    requires JustSent(w, c) && Narrates(said) && c.queue == said + [ModelDone(finish), ModelError(err)]
    ensures var d := DriveRun(w, c); var calls := Gathered(said).calls; var fits := Fits(c.loop, calls);
      && HandedBack(d)
      && d.loop.messages == c.loop.messages + (if fits then [AssistantTurn(calls)] else [])
      && |d.ran| == |c.ran| + (if fits then |calls| else 0)
      && (WellFormed(d.loop.messages) <==> !fits)
  {
    TwiceGathered(said, ModelDone(finish), err);
    assert c.queue[..|c.queue| - 2] == said;
    LateCutIff(w, c);
  }

  // ---- a whole input --------------------------------------------------------------------------

  /** Every reply ends once, and last, or ends and then fails. */
  ghost predicate EndsOnceOrTwice(w: World) {
    forall n: nat, ms: seq<Message> :: var es := Heard(w.reply(n, ms)); Disciplined(es) || EndsTwice(es)
  }

  /** The reply to the last conversation sent. */
  function LastReply(w: World, c: Config): seq<Event>
    requires c.sent != []
  {
    Heard(w.reply(|c.sent| - 1, c.sent[|c.sent| - 1]))
  }

  /** Tools run since the start are what the loop books as used. */
  predicate Booked(c: Config, start: Config) { c.loop.used == |c.ran| - |start.ran| }

  lemma BookedStep(w: World, c: Config, start: Config)
    requires c.queue != [] && c.loop.state != Idle && Booked(c, start)
    ensures Booked(DriveStep(w, c), start)
  {
    DriveSpending.DriveStepSpends(w, c);
  }

  /** How many calls a conversation records beyond those of another. */
  function CallsSince(base: seq<Message>, ms: seq<Message>): int { |Calls(ms)| - |Calls(base)| }

  /** How an input ends, judged by the last reply it received. */
  predicate EndsAsItsReply(w: World, start: Config, d: Config) {
    && HandedBack(d) && |d.sent| > |start.sent|
    && (forall i :: |start.sent| <= i < |d.sent| ==> WellFormed(d.sent[i]))
    && (WellFormed(d.loop.messages) <==>
        !Orphans(LastReply(w, d), CallsSince(start.loop.messages, d.sent[|d.sent| - 1]), d.loop.maxTools))
  }

  /** With nothing owed, the calls booked are the calls recorded. */
  lemma BookedIsRecorded(c: Config, start: Config)
    requires c.loop.state != Running && Booked(c, start) && Recorded(start.loop.messages, start.ran, History(c), c.ran)
    ensures CallsSince(start.loop.messages, c.loop.messages) == c.loop.used
  {
  }

  /** Where an input stands: a turn just sent, or its reply, which ends once, being dealt with. */
  predicate Underway(w: World, c: Config, start: Config) {
    |c.sent| > |start.sent| && Faithful(c, start) && Booked(c, start) && Placed(w, c)
  }

  predicate Placed(w: World, c: Config)
    requires c.sent != []
  {
    JustSent(w, c) || (Orderly(c) && Disciplined(LastReply(w, c)))
  }

  lemma UnderwayStep(w: World, c: Config, start: Config)
    requires Underway(w, c, start) && c.queue != [] && Orderly(c) && Disciplined(LastReply(w, c))
    ensures Underway(w, DriveStep(w, c), start)
  {
    OrderlyStep(w, c, start);
    BookedStep(w, c, start);
    StaysPlaced(w, c, DriveStep(w, c));
  }

  lemma StaysPlaced(w: World, c: Config, d: Config)
    requires c.sent != [] && Disciplined(LastReply(w, c)) && Stepped(w, c, d)
    ensures d.sent != [] && Placed(w, d)
  {
    if d.sent == c.sent {
      assert LastReply(w, d) == LastReply(w, c);
    }
  }

  /** A turn just sent whose reply ends once is a turn like any other. */
  lemma OnceIsOrderly(w: World, c: Config)
    requires JustSent(w, c) && Disciplined(c.queue)
    ensures Orderly(c) && Disciplined(LastReply(w, c))
  {
  }

  /** A reply that ends twice ends the input. */
  lemma TwiceEndsTheInput(w: World, c: Config, start: Config)
    requires JustSent(w, c) && Underway(w, c, start) && EndsTwice(c.queue)
    ensures EndsAsItsReply(w, start, DriveRun(w, c))
  {
    BookedIsRecorded(c, start);
    LateCutIff(w, c);
    SentWasWellFormed(c, start);
    JudgedByLast(w, c, DriveRun(w, c), start);
  }

  lemma JudgedByLast(w: World, c: Config, d: Config, start: Config)
    requires JustSent(w, c) && |c.sent| > |start.sent| && d.sent == c.sent && HandedBack(d)
    requires forall i :: |start.sent| <= i < |c.sent| ==> WellFormed(c.sent[i])
    requires CallsSince(start.loop.messages, c.loop.messages) == c.loop.used && d.loop.maxTools == c.loop.maxTools
    requires WellFormed(d.loop.messages) <==> !Orphans(c.queue, c.loop.used, c.loop.maxTools)
    ensures EndsAsItsReply(w, start, d)
  {
    LastReplyKept(w, c, d);
  }

  lemma LastReplyKept(w: World, c: Config, d: Config)
    requires JustSent(w, c) && d.sent == c.sent
    ensures LastReply(w, d) == c.queue && d.sent[|d.sent| - 1] == c.loop.messages
  {
  }

  lemma SentWasWellFormed(c: Config, start: Config)
    requires Kept(start.loop.messages, start.sent, c.loop.messages, c.sent)
    ensures forall i :: |start.sent| <= i < |c.sent| ==> WellFormed(c.sent[i])
  {
  }

  /** An input whose every reply ended once ends at rest. */
  lemma OnceEndsAtRest(w: World, c: Config, start: Config)
    requires Underway(w, c, start) && c.queue == [] && Orderly(c) && Disciplined(LastReply(w, c))
    ensures EndsAsItsReply(w, start, c)
  {
    OnceIsNotTwice(LastReply(w, c));
    SentWasWellFormed(c, start);
  }

  lemma OnceIsNotTwice(es: seq<Event>)
    requires Disciplined(es)
    ensures !EndsTwice(es)
  {
  }

  lemma {:induction false} OnceOrTwiceRun(w: World, c: Config, start: Config)
    requires EndsOnceOrTwice(w) && Underway(w, c, start)
    ensures EndsAsItsReply(w, start, DriveRun(w, c))
    decreases RankOf(c).inputs, RankOf(c).grants, RankOf(c).fuel, RankOf(c).weight
  {
    if JustSent(w, c) && EndsTwice(c.queue) {
      TwiceEndsTheInput(w, c, start);
    } else {
      if JustSent(w, c) {
        OnceIsOrderly(w, c);
      }
      if c.queue == [] {
        OnceEndsAtRest(w, c, start);
      } else {
        DriveStepDescends(w, c);
        UnderwayStep(w, c, start);
        OnceOrTwiceRun(w, DriveStep(w, c), start);
      }
    }
  }

  /**
   * One whole input, for every gateway whose replies end once or end and then fail: the loop comes
   * back with nothing outstanding, every conversation sent on the way was well-formed, and the one it
   * is left with is well-formed if and only if the last reply did not end well, ask for calls that
   * fit, and then fail. Calls fit when those this input has run so far leave room under the ceiling.
   */
  lemma InputEndsWellFormedIff(w: World, c: Config, text: string)
    requires EndsOnceOrTwice(w) && AtRest(c.loop) && c.queue == [UserInput(text)]
    ensures EndsAsItsReply(w, c, DriveRun(w, c))
  {
    FirstInput(w, c, text);
    assert DriveRun(w, c) == DriveRun(w, DriveStep(w, c));
    OnceOrTwiceRun(w, DriveStep(w, c), c);
  }

  // ---- which streams these are ----------------------------------------------------------------

  /**
   * A stream that says nothing after an ending frame is heard as ending once when it is complete or
   * never ended its turn, and otherwise as ending twice.
   */
  lemma TidyEndsOnceOrTwice(codec: Codec, lines: seq<string>, broken: Option<string>)
    requires Tidy(codec, FramesRead(codec, lines))
    ensures var es := Heard(Streamed(Scanned(codec, lines, broken)));
      if Complete(codec, lines, broken) || Unended(codec, FramesRead(codec, lines))
      then Disciplined(es) else EndsTwice(es)
  {
    HeardDisciplinedIff(codec, lines, broken);
    var frames := FramesRead(codec, lines);
    if Complete(codec, lines, broken) {
    } else if !Unended(codec, frames) {
      BodyDisciplined(codec, frames);
      var err := ErrorIsHeard(codec, lines, broken);
      DisciplinedThenError(BodyEvents(codec, frames), ModelError(err));
    }
  }

  lemma DisciplinedThenError(es: seq<Event>, e: Event)
    requires Disciplined(es) && e.ModelError?
    ensures EndsTwice(es + [e])
  {
    assert (es + [e])[..|es| - 1] == es[..|es| - 1];
  }

  /** So every gateway that says nothing after an ending frame, however its streams break off, qualifies. */
  lemma TidyGatewayEndsOnceOrTwice(w: World, codec: Codec,
                                   lines: (nat, seq<Message>) -> seq<string>,
                                   broken: (nat, seq<Message>) -> Option<string>)
    requires forall n: nat, ms: seq<Message> :: w.reply(n, ms) == Streamed(Scanned(codec, lines(n, ms), broken(n, ms)))
    requires forall n: nat, ms: seq<Message> :: Tidy(codec, FramesRead(codec, lines(n, ms)))
    ensures EndsOnceOrTwice(w)
  {
    forall n: nat, ms: seq<Message>
      ensures var es := Heard(w.reply(n, ms)); Disciplined(es) || EndsTwice(es)
    {
      TidyEndsOnceOrTwice(codec, lines(n, ms), broken(n, ms));
    }
  }

  /**
   * The same condition on the lines: a conversation is left malformed by a stream that finished with
   * whole calls that fit and then broke.
   */
  lemma BrokenStreamOrphansIff(codec: Codec, lines: seq<string>, broken: Option<string>, used: int, maxTools: int)
    requires var body := FramesRead(codec, lines); Tidy(codec, body) && Whole(codec, body)
    ensures var calls := Carried(FramesRead(codec, lines)).calls;
      Orphans(Heard(Streamed(Scanned(codec, lines, broken))), used, maxTools) <==>
      && !Complete(codec, lines, broken) && !Unended(codec, FramesRead(codec, lines))
      && calls != [] && used + |calls| <= maxTools
  {
    var es := Heard(Streamed(Scanned(codec, lines, broken)));
    TidyEndsOnceOrTwice(codec, lines, broken);
    if !Complete(codec, lines, broken) && !Unended(codec, FramesRead(codec, lines)) {
      var said, finish, err := LateCutIsHeardTwice(codec, lines, broken);
      TwiceGathered(said, ModelDone(finish), err);
    } else {
      OnceIsNotTwice(es);
    }
  }

  // ---- a concrete stream ----------------------------------------------------------------------

  /** One frame with a call and a finish, then no sentinel: heard as done, and then as failed. */
  lemma CutAfterFinishIsHeardTwice(codec: Codec, line: string, call: ToolCall, finish: string)
    requires Classify(codec, line) == Data(Frame([Choice("", "", [call], finish)], None, None))
    requires codec.valid(call.arguments) && finish != ""
    ensures var es := Heard(Streamed(Scanned(codec, [line], None)));
      EndsTwice(es) && !Disciplined(es) && Gathered(es).calls == [call]
  {
    var f := Frame([Choice("", "", [call], finish)], None, None);
    OneFrameRead(codec, line, f);
    assert Ending(codec, [f][0]) && AllValid(codec, [call]);
    TidyEndsOnceOrTwice(codec, [line], None);
    var said, done, err := LateCutIsHeardTwice(codec, [line], None);
    TwiceGathered(said, ModelDone(done), err);
  }

  lemma OneFrameRead(codec: Codec, line: string, f: Frame)
    requires Classify(codec, line) == Data(f)
    ensures FramesRead(codec, [line]) == [f] && !CleanEnd(codec, [line])
    ensures Carried([f]) == FrameGist(f)
  {
    assert [line][1..] == [] && FramesRead(codec, []) == [] && [f] + [] == [f];
    assert [f][1..] == [] && Carried([]) == NOTHING;
    assert Join(FrameGist(f), NOTHING) == FrameGist(f);
  }

  /**
   * The smallest case: the call such a reply asked for is run, its result is thrown away, and the
   * conversation is left ending in an assistant turn nobody answers.
   */
  lemma CutAfterFinishOrphansTheCall(w: World, c: Config, text: string, call: ToolCall, finish: string, err: Failure)
    requires AtRest(c.loop) && c.queue == [UserInput(text)] && c.loop.maxTools >= 1
    requires Heard(w.reply(|c.sent|, c.loop.messages + [UserMessage(text)])) ==
             [ModelToolCall(Some(call)), ModelDone(finish), ModelError(err)]
    ensures var d := DriveRun(w, c);
      && d.loop.state == Idle
      && d.loop.messages == c.loop.messages + [UserMessage(text)] + [AssistantTurn([call])]
      && |d.ran| == |c.ran| + 1
      && !WellFormed(d.loop.messages)
  {
    var said := [ModelToolCall(Some(call))];
    GatheredOne(said[0]);
    assert said + [ModelDone(finish), ModelError(err)] ==
      [ModelToolCall(Some(call)), ModelDone(finish), ModelError(err)];
    FirstReplyCutIff(w, c, text, said, finish, err);
  }
}
