/** What a whole session writes, for every gateway whose replies end once or end and then fail. */
module Coverage {
  import opened Wrappers
  import opened Conversation
  import opened LoopMachine
  import opened Drive
  import opened DriveConversation
  import opened LateCut
  import opened Checkpoints
  import opened Resume
  import opened Session
  import opened Segments

  // ---- a call nobody answers is never answered ------------------------------------------------

  /** A user message begins a new turn, so what comes before it must be complete on its own. */
  lemma {:induction false} TurnsSplitAtUser(before: seq<Message>, rest: seq<Message>)
    requires rest != [] && IsUser(rest[0])
    ensures Turns(before + rest) <==> Turns(before) && Turns(rest)
    decreases |before|
  {
    var ms := before + rest;
    if before == [] {
      assert ms == rest;
    } else {
      var k := if IsUser(before[0]) then 0 else |before[0].toolCalls|;
      if k < |before| {
        assert ms[k + 1..] == before[k + 1..] + rest;
        assert ms[1..k + 1] == before[1..k + 1];
        TurnsSplitAtUser(before[k + 1..], rest);
      } else if Turns(ms) {
        UserAnswersNothing(ms[0].toolCalls, ms[1..k + 1], |before| - 1, rest[0]);
      }
    }
  }

  lemma UserAnswersNothing(calls: seq<ToolCall>, results: seq<Message>, i: nat, m: Message)
    requires i < |results| && results[i] == m && IsUser(m)
    ensures !Answers(calls, results)
  {
    assert USER[0] != TOOL[0];
  }

  lemma WellFormedSplitsAtUser(before: seq<Message>, rest: seq<Message>)
    requires rest != [] && IsUser(rest[0])
    ensures WellFormed(before + rest) <==> WellFormed(before) && Turns(rest)
  {
    assert SYSTEM[0] != USER[0];
    BodyConcat(before, rest);
    TurnsSplitAtUser(Body(before), rest);
  }

  /** A conversation left with a call nobody answers stays malformed, whatever later inputs append. */
  lemma OrphanIsPermanent(ms: seq<Message>, calls: seq<ToolCall>, text: string, rest: seq<Message>)
    requires WellFormed(ms) && calls != []
    ensures !WellFormed((ms + [AssistantTurn(calls)]) + ([UserMessage(text)] + rest))
  {
    OrphanIsMalformed(ms, calls);
    WellFormedSplitsAtUser(ms + [AssistantTurn(calls)], [UserMessage(text)] + rest);
  }

  // ---- the inputs of a session ----------------------------------------------------------------

  /** Of the inputs a session takes, in order: whether each was orphaned. */
  function Fates(h: Host, s: RunState, lines: seq<InputLine>): seq<bool>
    decreases |lines|
  {
    if s.stop.Some? || lines == [] then []
    else Fate(h, s, lines[0]) + Fates(h, TakeLine(h, s, lines[0]), lines[1..])
  }

  /** One line's part of that: nothing, for a line that does not reach the model. */
  function Fate(h: Host, s: RunState, line: InputLine): seq<bool> {
    if ReachesTheModel(h, s.offered, line) then [Orphaned(h.world, Start(s, line.text))] else []
  }

  /** How many lines reach the model when the first of them is the n-th to be offered. */
  function Inputs(h: Host, n: nat, lines: seq<InputLine>): nat
    decreases |lines|
  {
    if lines == [] then 0
    else
      var rest := Inputs(h, if Offered(lines[0]) then n + 1 else n, lines[1..]);
      if ReachesTheModel(h, n, lines[0]) then 1 + rest else rest
  }

  /** None of the first n inputs was orphaned. */
  predicate Spared(fates: seq<bool>, n: nat)
    requires n <= |fates|
  {
    forall i :: 0 <= i < n ==> !fates[i]
  }

  predicate StrictlyGrowing(cs: seq<Checkpoint>) {
    forall i, j :: 0 <= i < j < |cs| ==> cs[i].messages < cs[j].messages
  }

  predicate EndsAt(cs: seq<Checkpoint>, current: seq<Message>) {
    cs != [] ==> cs[|cs| - 1].messages == current
  }

  /** Link i is well-formed exactly when the session started so and none of its inputs so far was orphaned. */
  predicate Judged(first: seq<Message>, fates: seq<bool>, cs: seq<Checkpoint>, i: nat)
    requires i < |cs| <= |fates|
  {
    WellFormed(cs[i].messages) <==> WellFormed(first) && Spared(fates, i + 1)
  }

  /** So far: a link for each input, each longer than the last and judged by the inputs up to it. */
  predicate Covered(first: seq<Message>, fates: seq<bool>, s: RunState) {
    && |s.written| <= |fates| && StrictlyGrowing(s.written)
    && (forall i :: 0 <= i < |s.written| ==> Judged(first, fates, s.written, i))
    && (s.stop.None? ==> Current(first, fates, s))
  }

  /** A session that has not stopped is up to date and ready for the next line. */
  predicate Current(first: seq<Message>, fates: seq<bool>, s: RunState) {
    && |s.written| == |fates| && EndsAt(s.written, s.loop.messages) && Ready(s.loop)
    && (WellFormed(s.loop.messages) <==> WellFormed(first) && Spared(fates, |fates|))
  }

  // ---- one input ------------------------------------------------------------------------------

  lemma DrivenAppends(h: Host, s: RunState, text: string)
    requires EndsOnceOrTwice(h.world) && Ready(s.loop)
    ensures var l := Driven(h, s, text).loop;
      && Ready(l) && s.loop.messages < l.messages
      && (WellFormed(l.messages) <==> WellFormed(s.loop.messages) && !Orphaned(h.world, Start(s, text)))
  {
    hide DriveRun, Orphaned;
    var segment := InputAppends(h.world, Start(s, text), text);
    assert segment[0] == UserMessage(text);
    WellFormedSplitsAtUser(s.loop.messages, segment);
  }

  lemma SparedMore(fates: seq<bool>, more: bool, n: nat)
    requires n <= |fates|
    ensures Spared(fates + [more], n) <==> Spared(fates, n)
    ensures Spared(fates + [more], |fates| + 1) <==> Spared(fates, |fates|) && !more
  {
    assert (fates + [more])[|fates|] == more;
    if Spared(fates + [more], n) {
      assert forall i :: 0 <= i < n ==> (fates + [more])[i] == fates[i];
    }
    if Spared(fates + [more], |fates| + 1) {
      assert forall i :: 0 <= i < |fates| ==> (fates + [more])[i] == fates[i];
    }
  }

  lemma JudgedStill(first: seq<Message>, fates: seq<bool>, more: bool, cs: seq<Checkpoint>, ds: seq<Checkpoint>)
    requires |cs| <= |fates| && cs <= ds && |ds| <= |fates| + 1
    requires forall i :: 0 <= i < |cs| ==> Judged(first, fates, cs, i)
    ensures forall i :: 0 <= i < |cs| ==> Judged(first, fates + [more], ds, i)
  {
    forall i | 0 <= i < |cs|
      ensures Judged(first, fates + [more], ds, i)
    {
      assert Judged(first, fates, cs, i);
      SparedMore(fates, more, i + 1);
    }
  }

  lemma StrictlyExtend(cs: seq<Checkpoint>, current: seq<Message>, c: Checkpoint)
    requires StrictlyGrowing(cs) && EndsAt(cs, current) && current < c.messages
    ensures StrictlyGrowing(cs + [c]) && EndsAt(cs + [c], c.messages)
  {
    var ds := cs + [c];
    forall i, j | 0 <= i < j < |ds|
      ensures ds[i].messages < ds[j].messages
    {
      if j == |cs| && i < |cs| - 1 {
        assert cs[i].messages < cs[|cs| - 1].messages;
      }
    }
  }

  /** The boundary after an input that came back with a longer conversation. */
  lemma BoundaryCovers(h: Host, first: seq<Message>, fates: seq<bool>, orphaned: bool, s: RunState, t: RunState)
    requires h.checkpointing && s.stop.None? && Covered(first, fates, s)
    requires t == s.(loop := t.loop, answers := t.answers, sent := t.sent, ran := t.ran)
    requires Ready(t.loop) && s.loop.messages < t.loop.messages
    requires WellFormed(t.loop.messages) <==> WellFormed(s.loop.messages) && !orphaned
    ensures Covered(first, fates + [orphaned], Boundary(h, t))
  {
    hide WellFormed, Ready;
    var c := Seal(h.hash, t.turn + 1, t.prevHash, t.loop.messages);
    JudgedStill(first, fates, orphaned, s.written, s.written);
    JudgedStill(first, fates, orphaned, s.written, s.written + [c]);
    StrictlyExtend(s.written, s.loop.messages, c);
    SparedMore(fates, orphaned, |fates|);
    assert |s.written + [c]| == |fates| + 1;
    assert Judged(first, fates + [orphaned], s.written + [c], |fates|);
  }

  lemma TakeInputCovers(h: Host, first: seq<Message>, fates: seq<bool>, s: RunState, text: string)
    requires h.checkpointing && EndsOnceOrTwice(h.world) && s.stop.None? && Covered(first, fates, s)
    ensures Covered(first, fates + [Orphaned(h.world, Start(s, text))], TakeInput(h, s, text))
  {
    hide WellFormed, Orphaned, DriveRun;
    DrivenAppends(h, s, text);
    BoundaryCovers(h, first, fates, Orphaned(h.world, Start(s, text)), s, Driven(h, s, text));
  }

  lemma TakeLineCovers(h: Host, first: seq<Message>, fates: seq<bool>, s: RunState, line: InputLine)
    requires h.checkpointing && EndsOnceOrTwice(h.world) && s.stop.None? && Covered(first, fates, s)
    ensures Covered(first, fates + Fate(h, s, line), TakeLine(h, s, line))
  {
    hide TakeInput, Orphaned, WellFormed;
    if ReachesTheModel(h, s.offered, line) {
      TakeInputCovers(h, first, fates, s.(offered := s.offered + 1), line.text);
    } else {
      assert fates + [] == fates;
    }
  }

  lemma {:induction false} RunCovers(h: Host, first: seq<Message>, fates: seq<bool>, s: RunState, lines: seq<InputLine>)
    requires h.checkpointing && EndsOnceOrTwice(h.world) && Covered(first, fates, s)
    ensures Covered(first, fates + Fates(h, s, lines), TakeLines(h, s, lines))
    decreases |lines|
  {
    hide TakeLine, Fate, Covered;
    if s.stop.None? && lines != [] {
      TakeLineCovers(h, first, fates, s, lines[0]);
      var t := TakeLine(h, s, lines[0]);
      RunCovers(h, first, fates + Fate(h, s, lines[0]), t, lines[1..]);
      Reassociate(fates, Fate(h, s, lines[0]), Fates(h, t, lines[1..]));
    } else {
      assert fates + [] == fates;
    }
  }

  /** A session that does not stop takes every line that reaches the model. */
  lemma {:induction false} FatesCount(h: Host, s: RunState, lines: seq<InputLine>)
    requires TakeLines(h, s, lines).stop.None?
    ensures |Fates(h, s, lines)| == Inputs(h, s.offered, lines)
    decreases |lines|
  {
    if lines != [] {
      OfferedStep(h, s, lines[0]);
      FatesCount(h, TakeLine(h, s, lines[0]), lines[1..]);
    }
  }

  lemma OfferedStep(h: Host, s: RunState, line: InputLine)
    ensures TakeLine(h, s, line).offered == s.offered + if Offered(line) then 1 else 0
  {
  }

  /**
   * A whole session, for every gateway whose replies end once or end and then fail, started from any
   * conversation: each link is strictly longer than the one before, and is well-formed if and only if
   * the session started well-formed and no input up to it was orphaned. Unless the session stopped,
   * there is exactly one link for each line that reached the model, and the last is the conversation
   * the loop still holds, ready for the next line.
   */
  lemma CheckpointsCoverTheRun(h: Host, loop: LoopState, answers: seq<int>, past: Past, resumed: Option<Checkpoint>,
                               lines: seq<InputLine>)
    requires h.checkpointing && EndsOnceOrTwice(h.world) && Ready(loop)
    ensures var s := Begin(loop, answers, past, resumed); var t, fates := TakeLines(h, s, lines), Fates(h, s, lines);
      && Covered(loop.messages, fates, t)
      && (t.stop.None? ==> |fates| == Inputs(h, past.offered, lines))
  {
    hide Fates, TakeLines;
    var s := Begin(loop, answers, past, resumed);
    RunCovers(h, loop.messages, [], s, lines);
    assert [] + Fates(h, s, lines) == Fates(h, s, lines);
    if TakeLines(h, s, lines).stop.None? {
      FatesCount(h, s, lines);
    }
  }

  // ---- gateways whose replies end once --------------------------------------------------------

  lemma DisciplinedSpares(w: World, c: Config)
    requires DisciplinedWorld(w)
    ensures !Orphaned(w, c)
  {
    var d := DriveRun(w, c);
    if d.sent != [] {
      OnceIsNotTwice(LastReply(w, d));
    }
  }

  lemma {:induction false} DisciplinedFates(h: Host, s: RunState, lines: seq<InputLine>)
    requires DisciplinedWorld(h.world)
    ensures var fates := Fates(h, s, lines); Spared(fates, |fates|)
    decreases |lines|
  {
    if s.stop.None? && lines != [] {
      if ReachesTheModel(h, s.offered, lines[0]) {
        DisciplinedSpares(h.world, Start(s, lines[0].text));
      }
      DisciplinedFates(h, TakeLine(h, s, lines[0]), lines[1..]);
    }
  }

  /** There no input is orphaned, so every link of a session that starts well-formed is. */
  lemma DisciplinedSessionIsWellFormed(h: Host, loop: LoopState, answers: seq<int>, past: Past,
                                       resumed: Option<Checkpoint>, lines: seq<InputLine>)
    requires h.checkpointing && DisciplinedWorld(h.world) && AtRest(loop)
    ensures var t := TakeLines(h, Begin(loop, answers, past, resumed), lines);
      && (forall i :: 0 <= i < |t.written| ==> WellFormed(t.written[i].messages))
      && (t.stop.None? ==> AtRest(t.loop))
  {
    hide Fates, TakeLines;
    var s := Begin(loop, answers, past, resumed);
    CheckpointsCoverTheRun(h, loop, answers, past, resumed, lines);
    DisciplinedFates(h, s, lines);
    forall i | 0 <= i < |TakeLines(h, s, lines).written|
      ensures WellFormed(TakeLines(h, s, lines).written[i].messages)
    {
      assert Judged(loop.messages, Fates(h, s, lines), TakeLines(h, s, lines).written, i);
    }
  }
}
