/** What a stream carries to the loop: complete, cut before its finish, or broken after it. */
module StreamContent {
  import opened Wrappers
  import opened Conversation
  import opened LoopMachine
  import opened Stream
  import opened Drive
  import opened DriveConversation
  import opened StreamDiscipline

  /** The answer, the thinking and the calls a stretch of stream amounts to. */
  datatype Gist = Gist(text: string, reasoning: string, calls: seq<ToolCall>)

  const NOTHING := Gist("", "", [])

  function Join(a: Gist, b: Gist): Gist {
    Gist(a.text + b.text, a.reasoning + b.reasoning, a.calls + b.calls)
  }

  function EventGist(e: Event): Gist {
    match e
    case ModelText(text) => Gist(text, "", [])
    case ModelReasoning(text) => Gist("", text, [])
    case ModelToolCall(Some(call)) => Gist("", "", [call])
    case _ => NOTHING
  }

  function Gathered(es: seq<Event>): Gist {
    if es == [] then NOTHING else Join(EventGist(es[0]), Gathered(es[1..]))
  }

  function FrameGist(f: Frame): Gist {
    if f.choices == [] then NOTHING
    else Gist(f.choices[0].content, f.choices[0].reasoning, f.choices[0].toolCalls)
  }

  function Carried(body: seq<Frame>): Gist {
    if body == [] then NOTHING else Join(FrameGist(body[0]), Carried(body[1..]))
  }

  /** Every call in the body arrived with complete arguments. */
  predicate Whole(codec: Codec, body: seq<Frame>) {
    forall i :: 0 <= i < |body| && body[i].choices != [] ==> AllValid(codec, body[i].choices[0].toolCalls)
  }

  lemma {:induction false} GatheredConcat(a: seq<Event>, b: seq<Event>)
    ensures Gathered(a + b) == Join(Gathered(a), Gathered(b))
  {
    if a == [] {
      assert a + b == b;
      assert Join(NOTHING, Gathered(b)) == Gathered(b);
    } else {
      assert (a + b)[1..] == a[1..] + b;
      GatheredConcat(a[1..], b);
      JoinAssociates(EventGist(a[0]), Gathered(a[1..]), Gathered(b));
    }
  }

  lemma JoinAssociates(a: Gist, b: Gist, c: Gist)
    ensures Join(Join(a, b), c) == Join(a, Join(b, c))
  {
    Reassociate(a.text, b.text, c.text);
    Reassociate(a.reasoning, b.reasoning, c.reasoning);
    Reassociate(a.calls, b.calls, c.calls);
  }

  lemma GatheredOne(e: Event)
    ensures Gathered([e]) == EventGist(e)
  {
    assert [e][1..] == [];
  }

  lemma {:induction false} CallsGathered(codec: Codec, calls: seq<ToolCall>)
    requires AllValid(codec, calls)
    ensures Gathered(EventsOf(CallChunks(codec, calls))) == Gist("", "", calls)
  {
    if calls != [] {
      AllValidHead(codec, calls);
      CallsGathered(codec, calls[1..]);
      CallEventsCons(codec, calls);
      GatheredConcat([ModelToolCall(Some(calls[0]))], EventsOf(CallChunks(codec, calls[1..])));
      GatheredOne(ModelToolCall(Some(calls[0])));
    }
  }

  /** One optional chunk, heard. */
  function Part(present: bool, c: StreamChunk): seq<StreamChunk> { if present then [c] else [] }

  lemma PartsGathered(text: string)
    ensures Gathered(EventsOf(Part(text != "", Reasoning(text)))) == Gist("", text, [])
    ensures Gathered(EventsOf(Part(text != "", Text(text)))) == Gist(text, "", [])
    ensures Gathered(EventsOf(Part(text != "", Done(text)))) == NOTHING
  {
    EventsOne(Reasoning(text));
    EventsOne(Text(text));
    EventsOne(Done(text));
    GatheredOne(ModelReasoning(text));
    GatheredOne(ModelText(text));
    GatheredOne(ModelDone(text));
  }

  lemma JoinProse(reasoning: string, text: string)
    ensures Join(Gist("", reasoning, []), Join(Gist(text, "", []), NOTHING)) == Gist(text, reasoning, [])
  {
  }

  lemma ProseGathered(c: Choice)
    ensures Gathered(EventsOf(ProseChunks(c))) == Gist(c.content, c.reasoning, [])
  {
    var r := Part(c.reasoning != "", Reasoning(c.reasoning));
    var t := Part(c.content != "", Text(c.content));
    var d := Part(c.finish != "", Done(c.finish));
    assert ProseChunks(c) == r + (t + d);
    GatherPair(r, t + d);
    GatherPair(t, d);
    PartsGathered(c.reasoning);
    PartsGathered(c.content);
    PartsGathered(c.finish);
    JoinProse(c.reasoning, c.content);
  }

  lemma GatherPair(a: seq<StreamChunk>, b: seq<StreamChunk>)
    ensures Gathered(EventsOf(a + b)) == Join(Gathered(EventsOf(a)), Gathered(EventsOf(b)))
  {
    EventsConcat(a, b);
    GatheredConcat(EventsOf(a), EventsOf(b));
  }

  lemma FrameGathered(codec: Codec, f: Frame)
    requires f.choices != [] ==> AllValid(codec, f.choices[0].toolCalls)
    ensures Gathered(FrameEvents(codec, f)) == FrameGist(f)
  {
    FrameIsDelta(codec, f);
    if f.choices != [] {
      var c := f.choices[0];
      GatherPair(CallChunks(codec, c.toolCalls), ProseChunks(c));
      CallsGathered(codec, c.toolCalls);
      ProseGathered(c);
    }
  }

  lemma {:induction false} BodyGathered(codec: Codec, body: seq<Frame>)
    requires Whole(codec, body)
    ensures Gathered(BodyEvents(codec, body)) == Carried(body)
  {
    if body != [] {
      FrameGathered(codec, body[0]);
      forall i | 0 <= i < |body[1..]|
        ensures body[1..][i] == body[i + 1]
      {
      }
      BodyGathered(codec, body[1..]);
      GatheredConcat(FrameEvents(codec, body[0]), BodyEvents(codec, body[1..]));
    }
  }

  /**
   * A stream that reaches its sentinel unbroken, with complete calls and nothing said after the
   * finish, is heard as one disciplined turn carrying exactly the text, the thinking and the calls of
   * its frames, each in frame order.
   */
  lemma CompleteStreamIsHeard(codec: Codec, lines: seq<string>, broken: Option<string>)
    requires Complete(codec, lines, broken) && Tidy(codec, FramesRead(codec, lines)) &&
             Whole(codec, FramesRead(codec, lines))
    ensures var es := Heard(Streamed(Scanned(codec, lines, broken)));
      Disciplined(es) && es[|es| - 1].ModelDone? && Gathered(es) == Carried(FramesRead(codec, lines))
  {
    var body := FramesRead(codec, lines);
    HeardDisciplinedIff(codec, lines, broken);
    ScannedEvents(codec, lines, broken);
    BodyGathered(codec, body);
    NoErrors(codec, body);
    HeardOnce(BodyEvents(codec, body));
  }

  /** Ending an unended turn as incomplete adds nothing to what was said. */
  lemma HeardOnce(events: seq<Event>)
    requires Errorless(events)
    ensures var es := events + if EndsTheTurn(events) then [] else [ModelDone("incomplete")];
      Errorless(es) && Gathered(es) == Gathered(events)
  {
    if EndsTheTurn(events) {
      assert events + [] == events;
    } else {
      GatheredConcat(events, [ModelDone("incomplete")]);
      GatheredOne(ModelDone("incomplete"));
    }
  }

  predicate Errorless(es: seq<Event>) { forall i :: 0 <= i < |es| ==> !es[i].ModelError? }

  /** Whole frames produce no error. */
  lemma {:induction false} NoErrors(codec: Codec, body: seq<Frame>)
    requires Whole(codec, body)
    ensures Errorless(BodyEvents(codec, body))
  {
    if body != [] {
      forall i | 0 <= i < |body[1..]|
        ensures body[1..][i] == body[i + 1]
      {
      }
      NoErrors(codec, body[1..]);
      FrameHasNoError(codec, body[0]);
    }
  }

  lemma FrameHasNoError(codec: Codec, f: Frame)
    requires f.choices != [] ==> AllValid(codec, f.choices[0].toolCalls)
    ensures Errorless(FrameEvents(codec, f))
  {
    hide EventsOf, CallChunks, ProseChunks;
    FrameIsDelta(codec, f);
    if f.choices != [] {
      var c := f.choices[0];
      EventsConcat(CallChunks(codec, c.toolCalls), ProseChunks(c));
      CallEvents(codec, c.toolCalls);
      ProseEvents(c);
      EndsDone(EventsOf(ProseChunks(c)));
      ErrorlessConcat(EventsOf(CallChunks(codec, c.toolCalls)), EventsOf(ProseChunks(c)));
    }
  }

  lemma EndsDone(es: seq<Event>)
    requires Narrates(es) || (Disciplined(es) && es[|es| - 1].ModelDone?)
    ensures Errorless(es)
  {
  }

  lemma ErrorlessConcat(a: seq<Event>, b: seq<Event>)
    requires Narrates(a) && Errorless(b)
    ensures Errorless(a + b)
  {
  }

  /** The end of a turn, good or bad, carries nothing. */
  lemma TerminalCarriesNothing(es: seq<Event>, e: Event)
    requires Terminal(e)
    ensures Gathered(es + [e]) == Gathered(es)
  {
    GatheredConcat(es, [e]);
    GatheredOne(e);
    assert Join(Gathered(es), NOTHING) == Gathered(es);
  }

  /** The failure is the error these chunks end with, its code and its message. */
  predicate Names(err: Failure, chunks: seq<StreamChunk>) {
    && chunks != [] && chunks[|chunks| - 1].Error?
    && err == Reported(chunks[|chunks| - 1].code + ": " + chunks[|chunks| - 1].message)
  }

  lemma ErrorIsLast(codec: Codec, lines: seq<string>, broken: Option<string>)
    requires !Complete(codec, lines, broken)
    ensures var chunks := Read(codec, lines, broken); var es := EventsOf(Scanned(codec, lines, broken));
      es != [] && es[|es| - 1].ModelError? && Names(es[|es| - 1].err, chunks)
  {
    ScannedIsRead(codec, lines, broken);
    ScannedSplits(codec, lines, broken);
    var front, last := BodyChunks(codec, FramesRead(codec, lines)), LastChunk(codec, lines, broken);
    EventsConcat(front, last);
    EventsOne(last[0]);
    assert last == [last[0]];
  }

  /** An error at the end is heard as it is. */
  lemma ErrorIsHeard(codec: Codec, lines: seq<string>, broken: Option<string>) returns (err: Failure)
    requires !Complete(codec, lines, broken)
    ensures Heard(Streamed(Scanned(codec, lines, broken))) ==
            BodyEvents(codec, FramesRead(codec, lines)) + [ModelError(err)]
    ensures Names(err, Read(codec, lines, broken))
  {
    ErrorIsLast(codec, lines, broken);
    ScannedEvents(codec, lines, broken);
    var es := EventsOf(Scanned(codec, lines, broken));
    var e :| es == BodyEvents(codec, FramesRead(codec, lines)) + [e] && e.ModelError?;
    err := e.err;
    assert es[|es| - 1] == e && Terminal(es[|es| - 1]);
    assert EndsTheTurn(es) && es + [] == es;
  }

  /**
   * A stream that ends in an error before any finish is heard as what its frames carried, and then
   * that error.
   */
  lemma CutStreamIsOneError(codec: Codec, lines: seq<string>, broken: Option<string>)
    requires !Complete(codec, lines, broken) && Unended(codec, FramesRead(codec, lines))
    ensures var es := Heard(Streamed(Scanned(codec, lines, broken)));
      && Disciplined(es) && Gathered(es) == Carried(FramesRead(codec, lines))
      && es[|es| - 1].ModelError? && Names(es[|es| - 1].err, Read(codec, lines, broken))
  {
    HeardDisciplinedIff(codec, lines, broken);
    UnendedIsWhole(codec, FramesRead(codec, lines));
    BodyGathered(codec, FramesRead(codec, lines));
    var err := ErrorIsHeard(codec, lines, broken);
    TerminalCarriesNothing(BodyEvents(codec, FramesRead(codec, lines)), ModelError(err));
  }

  lemma UnendedIsWhole(codec: Codec, body: seq<Frame>)
    requires Unended(codec, body)
    ensures Whole(codec, body)
  {
  }

  /**
   * A stream that finished its turn and then broke, at its sentinel or short of it, is heard twice
   * over: as what its frames carried and done, and then as failed.
   */
  lemma LateCutIsHeardTwice(codec: Codec, lines: seq<string>, broken: Option<string>)
    returns (said: seq<Event>, finish: string, err: Failure)
    requires !Complete(codec, lines, broken)
    requires var body := FramesRead(codec, lines); Tidy(codec, body) && !Unended(codec, body) && Whole(codec, body)
    ensures Heard(Streamed(Scanned(codec, lines, broken))) == said + [ModelDone(finish), ModelError(err)]
    ensures Narrates(said) && Gathered(said) == Carried(FramesRead(codec, lines))
    ensures Names(err, Read(codec, lines, broken))
  {
    var frames := FramesRead(codec, lines);
    BodyDisciplined(codec, frames);
    NoErrors(codec, frames);
    BodyGathered(codec, frames);
    err := ErrorIsHeard(codec, lines, broken);
    said, finish := SplitAtDone(BodyEvents(codec, frames), ModelError(err));
  }

  /** A turn that ended well, apart from its end. */
  lemma SplitAtDone(es: seq<Event>, after: Event) returns (said: seq<Event>, finish: string)
    requires Disciplined(es) && Errorless(es)
    ensures es + [after] == said + [ModelDone(finish), after]
    ensures Narrates(said) && Gathered(said) == Gathered(es)
  {
    said, finish := es[..|es| - 1], es[|es| - 1].finish;
    assert es == said + [ModelDone(finish)];
    TerminalCarriesNothing(said, ModelDone(finish));
  }

  // ---- what it meters and shows ---------------------------------------------------------------

  function Metered(cs: seq<StreamChunk>): seq<nat> {
    if cs == [] then [] else (if cs[0].Usage? then [cs[0].tokens] else []) + Metered(cs[1..])
  }

  function UsageRead(body: seq<Frame>): seq<nat> {
    if body == [] then [] else (if body[0].usage.Some? then [body[0].usage.value] else []) + UsageRead(body[1..])
  }

  lemma {:induction false} MeteredConcat(a: seq<StreamChunk>, b: seq<StreamChunk>)
    ensures Metered(a + b) == Metered(a) + Metered(b)
  {
    if a == [] {
      assert a + b == b;
    } else {
      assert (a + b)[1..] == a[1..] + b;
      MeteredConcat(a[1..], b);
    }
  }

  lemma {:induction false} NothingMetered(cs: seq<StreamChunk>)
    requires forall i :: 0 <= i < |cs| ==> !cs[i].Usage?
    ensures Metered(cs) == []
  {
    if cs != [] {
      NothingMetered(cs[1..]);
    }
  }

  lemma {:induction false} CallsAreNotUsage(codec: Codec, calls: seq<ToolCall>)
    ensures forall i :: 0 <= i < |CallChunks(codec, calls)| ==> !CallChunks(codec, calls)[i].Usage?
  {
    if calls != [] {
      CallsAreNotUsage(codec, calls[1..]);
    }
  }

  lemma FrameMetered(codec: Codec, f: Frame)
    ensures Metered(FrameChunks(codec, f)) == if f.usage.Some? then [f.usage.value] else []
  {
    var usage := if f.usage.Some? then [Usage(f.usage.value)] else [];
    var delta := if f.choices == [] then [] else DeltaChunks(codec, f.choices[0]);
    MeteredConcat(usage, delta);
    if f.choices != [] {
      CallsAreNotUsage(codec, f.choices[0].toolCalls);
    }
    NothingMetered(delta);
    assert [Usage(0)][1..] == [];
    if f.usage.Some? {
      assert usage[1..] == [];
    }
  }

  lemma {:induction false} BodyMetered(codec: Codec, body: seq<Frame>)
    ensures Metered(BodyChunks(codec, body)) == UsageRead(body)
  {
    if body != [] {
      FrameMetered(codec, body[0]);
      BodyMetered(codec, body[1..]);
      MeteredConcat(FrameChunks(codec, body[0]), BodyChunks(codec, body[1..]));
    }
  }

  /** Every frame read is metered once, in order, choices or not, and nothing else is. */
  lemma UsageIsMetered(codec: Codec, lines: seq<string>, broken: Option<string>)
    ensures Metered(Read(codec, lines, broken)) == UsageRead(FramesRead(codec, lines))
  {
    hide Metered, UsageRead, FramesRead, BodyChunks, Read, Scanned;
    ScannedIsRead(codec, lines, broken);
    ScannedSplits(codec, lines, broken);
    BodyMetered(codec, FramesRead(codec, lines));
    MeteredConcat(BodyChunks(codec, FramesRead(codec, lines)), LastChunk(codec, lines, broken));
    NothingMetered(LastChunk(codec, lines, broken));
  }

  /** The text and the thinking that actions show. */
  function TextShown(actions: seq<Action>): string {
    if actions == [] then "" else (if actions[0].ShowText? then actions[0].text else "") + TextShown(actions[1..])
  }

  function ReasoningShown(actions: seq<Action>): string {
    if actions == [] then ""
    else (if actions[0].ShowReasoning? then actions[0].text else "") + ReasoningShown(actions[1..])
  }

  lemma {:induction false} ShownConcat(a: seq<Action>, b: seq<Action>)
    ensures TextShown(a + b) == TextShown(a) + TextShown(b)
    ensures ReasoningShown(a + b) == ReasoningShown(a) + ReasoningShown(b)
  {
    if a == [] {
      assert a + b == b;
    } else {
      assert (a + b)[1..] == a[1..] + b;
      ShownConcat(a[1..], b);
    }
  }

  lemma {:induction false} NothingShown(actions: seq<Action>)
    requires forall i :: 0 <= i < |actions| ==> !actions[i].ShowText? && !actions[i].ShowReasoning?
    ensures TextShown(actions) == "" && ReasoningShown(actions) == ""
  {
    if actions != [] {
      NothingShown(actions[1..]);
    }
  }

  lemma StepShows(l: LoopState, e: Event)
    ensures var o := Step(l, e);
      TextShown(o.actions) == EventGist(e).text && ReasoningShown(o.actions) == EventGist(e).reasoning
  {
    var o := Step(l, e);
    if e.ModelText? || e.ModelReasoning? {
      assert o.actions[1..] == [];
    } else {
      NothingShown(o.actions);
    }
  }

  /**
   * Over any run, from any state: the text shown to the operator is the text of the replies, and the
   * reasoning shown their reasoning, nothing left out, added, or moved.
   */
  lemma {:induction false} ShownIsSaid(l: LoopState, es: seq<Event>)
    ensures TextShown(LoopMachine.Run(l, es).actions) == Gathered(es).text
    ensures ReasoningShown(LoopMachine.Run(l, es).actions) == Gathered(es).reasoning
    decreases |es|
  {
    if es != [] {
      var first := Step(l, es[0]);
      StepShows(l, es[0]);
      ShownIsSaid(first.loop, es[1..]);
      ShownConcat(first.actions, LoopMachine.Run(first.loop, es[1..]).actions);
    }
  }

  /** A gateway whose every stream meets the exact condition is a disciplined world. */
  lemma TidyGatewayIsDisciplined(w: World, codec: Codec,
                                 lines: (nat, seq<Message>) -> seq<string>,
                                   broken: (nat, seq<Message>) -> Option<string>)
    requires forall n: nat, ms: seq<Message> :: w.reply(n, ms) == Streamed(Scanned(codec, lines(n, ms), broken(n, ms)))
    requires forall n: nat, ms: seq<Message> ::
      if Complete(codec, lines(n, ms), broken(n, ms)) then Tidy(codec, FramesRead(codec, lines(n, ms)))
      else Unended(codec, FramesRead(codec, lines(n, ms)))
    ensures DisciplinedWorld(w)
  {
    forall n: nat, ms: seq<Message>
      ensures Disciplined(Heard(w.reply(n, ms)))
    {
      HeardDisciplinedIff(codec, lines(n, ms), broken(n, ms));
    }
  }
}
