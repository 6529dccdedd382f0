/** A session stopped after a checkpoint and taken up again from its file, compared with one that went on. */
module Restart {
  import opened Wrappers
  import opened LoopMachine
  import opened Drive
  import opened DriveConversation
  import opened Checkpoints
  import opened Resume
  import opened Session

  // ---- loops alike are driven alike -----------------------------------------------------------

  /** The same configuration around loops no continuation tells apart. */
  predicate Matched(c: Config, d: Config) { d == c.(loop := d.loop) && Alike(c.loop, d.loop) }

  /** What actions do does not depend on the loop that asked for them. */
  lemma {:induction false} ActionsIgnoreLoop(w: World, c: Config, l: LoopState, actions: seq<Action>)
    ensures PerformAll(w, c.(loop := l), actions) == PerformAll(w, c, actions).(loop := l)
    decreases |actions|
  {
    if actions != [] {
      ActionsIgnoreLoop(w, Perform(w, c, actions[0]), l, actions[1..]);
    }
  }

  lemma PerformMatches(w: World, c: Config, d: Config, actions: seq<Action>)
    requires Matched(c, d)
    ensures Matched(PerformAll(w, c, actions), PerformAll(w, d, actions))
  {
    ActionsIgnoreLoop(w, c, c.loop, actions);
    ActionsIgnoreLoop(w, c, d.loop, actions);
  }

  lemma StepMatches(w: World, c: Config, d: Config)
    requires Matched(c, d) && c.queue != []
    ensures Matched(DriveStep(w, c), DriveStep(w, d))
  {
    hide PerformAll;
    AlikeStep(c.loop, d.loop, c.queue[0]);
    var o, p := Step(c.loop, c.queue[0]), Step(d.loop, d.queue[0]);
    PerformMatches(w, c.(loop := o.loop, queue := c.queue[1..]), d.(loop := p.loop, queue := d.queue[1..]), o.actions);
  }

  lemma {:induction false} RunMatches(w: World, c: Config, d: Config)
    requires Matched(c, d)
    ensures Matched(DriveRun(w, c), DriveRun(w, d))
    decreases RankOf(c).inputs, RankOf(c).grants, RankOf(c).fuel, RankOf(c).weight
  {
    hide DriveStep;
    if c.queue != [] {
      DriveStepDescends(w, c);
      StepMatches(w, c, d);
      RunMatches(w, DriveStep(w, c), DriveStep(w, d));
    }
  }

  /** Alike, but between inputs also but for what the next input resets. */
  predicate Kin(a: LoopState, b: LoopState) {
    Alike(a, b) || (a.state == b.state == Idle && Alike(a.(used := b.used, textShown := b.textShown), b))
  }

  lemma InputMatches(w: World, c: Config, d: Config, text: string)
    requires d == c.(loop := d.loop) && Kin(c.loop, d.loop) && c.queue == [UserInput(text)]
    ensures Matched(DriveRun(w, c), DriveRun(w, d))
  {
    hide PerformAll;
    var o, p := Step(c.loop, c.queue[0]), Step(d.loop, d.queue[0]);
    assert Alike(o.loop, p.loop) && o.actions == p.actions;
    PerformMatches(w, c.(loop := o.loop, queue := c.queue[1..]), d.(loop := p.loop, queue := d.queue[1..]), o.actions);
    RunMatches(w, DriveStep(w, c), DriveStep(w, d));
    assert DriveRun(w, c) == DriveRun(w, DriveStep(w, c)) && DriveRun(w, d) == DriveRun(w, DriveStep(w, d));
  }

  // ---- sessions that keep in step -------------------------------------------------------------

  /** The session s is where t is, having written and failed at more before. */
  predicate Follows(s: RunState, t: RunState, cs: seq<Checkpoint>, fs: seq<Failure>) {
    && Kin(s.loop, t.loop)
    && s == t.(loop := s.loop, written := cs + t.written, failures := fs + t.failures)
  }

  lemma DrivenFollows(h: Host, s: RunState, t: RunState, cs: seq<Checkpoint>, fs: seq<Failure>, text: string)
    requires Follows(s, t, cs, fs)
    ensures Follows(Driven(h, s, text), Driven(h, t, text), cs, fs)
    ensures DriveRun(h.world, Start(s, text)).failed == DriveRun(h.world, Start(t, text)).failed
  {
    hide DriveRun;
    InputMatches(h.world, Start(s, text), Start(t, text), text);
  }

  lemma BoundaryFollows(h: Host, s: RunState, t: RunState, cs: seq<Checkpoint>, fs: seq<Failure>)
    requires Follows(s, t, cs, fs)
    ensures Follows(Boundary(h, s), Boundary(h, t), cs, fs)
  {
    hide Kin;
    assert s.loop.messages == t.loop.messages by {
      KinHoldSame(s.loop, t.loop);
    }
    Reassociate(cs, t.written, [Seal(h.hash, s.turn + 1, s.prevHash, s.loop.messages)]);
  }

  lemma KinHoldSame(a: LoopState, b: LoopState)
    requires Kin(a, b)
    ensures a.messages == b.messages && a.state == b.state
  {
  }

  lemma TakeInputFollows(h: Host, s: RunState, t: RunState, cs: seq<Checkpoint>, fs: seq<Failure>, text: string)
    requires Follows(s, t, cs, fs)
    ensures Follows(TakeInput(h, s, text), TakeInput(h, t, text), cs, fs)
  {
    hide DriveRun, Boundary, Driven, Kin;
    DrivenFollows(h, s, t, cs, fs, text);
    var s1, t1 := Driven(h, s, text), Driven(h, t, text);
    KinHoldSame(s1.loop, t1.loop);
    BoundaryFollows(h, s1, t1, cs, fs);
    var t2 := if t1.loop.state == Idle then Boundary(h, t1) else t1;
    Reassociate(fs, t2.failures, DriveRun(h.world, Start(t, text)).failed);
  }

  lemma TakeLineFollows(h: Host, s: RunState, t: RunState, cs: seq<Checkpoint>, fs: seq<Failure>, line: InputLine)
    requires Follows(s, t, cs, fs)
    ensures Follows(TakeLine(h, s, line), TakeLine(h, t, line), cs, fs)
  {
    hide TakeInput, Kin;
    if ReachesTheModel(h, s.offered, line) {
      TakeInputFollows(h, s.(offered := s.offered + 1), t.(offered := t.offered + 1), cs, fs, line.text);
    }
  }

  lemma {:induction false} TakeLinesFollows(h: Host, s: RunState, t: RunState, cs: seq<Checkpoint>, fs: seq<Failure>,
                                            lines: seq<InputLine>)
    requires Follows(s, t, cs, fs)
    ensures Follows(TakeLines(h, s, lines), TakeLines(h, t, lines), cs, fs)
    decreases |lines|
  {
    hide TakeLine, Kin;
    if s.stop.None? && lines != [] {
      TakeLineFollows(h, s, t, cs, fs, lines[0]);
      TakeLinesFollows(h, TakeLine(h, s, lines[0]), TakeLine(h, t, lines[0]), cs, fs, lines[1..]);
    }
  }

  lemma {:induction false} TakeLinesConcat(h: Host, s: RunState, a: seq<InputLine>, b: seq<InputLine>)
    ensures TakeLines(h, s, a + b) == TakeLines(h, TakeLines(h, s, a), b)
    decreases |a|
  {
    hide TakeLine;
    if a == [] {
      assert a + b == b;
    } else if s.stop.None? {
      assert (a + b)[1..] == a[1..] + b;
      TakeLinesConcat(h, TakeLine(h, s, a[0]), a[1..], b);
    }
  }

  // ---- what the last link holds ---------------------------------------------------------------

  /** An idle loop that has written anything has written what it holds. */
  predicate UpToDate(s: RunState) {
    s.loop.state == Idle && s.written != [] ==>
      s.written[|s.written| - 1].messages == s.loop.messages != [] && s.written[|s.written| - 1].version == VERSION
  }

  /** A loop that was left mid-turn never listens to another input. */
  lemma BusyIgnoresInput(w: World, c: Config, text: string)
    requires c.loop.state != Idle && c.queue == [UserInput(text)]
    ensures DriveRun(w, c) == c.(queue := [])
  {
    assert c.queue[1..] == [];
    assert DriveRun(w, c) == DriveRun(w, DriveStep(w, c));
  }

  lemma InputLeavesSomething(w: World, c: Config, text: string)
    requires c.loop.state == Idle && c.queue == [UserInput(text)]
    ensures DriveRun(w, c).loop.messages != []
  {
    DriveStepLoop(w, c);
    MessagesGrow(w, DriveStep(w, c));
    assert DriveRun(w, c) == DriveRun(w, DriveStep(w, c));
  }

  lemma {:induction false} RunReachable(w: World, c: Config)
    requires Reachable(c.loop)
    ensures Reachable(DriveRun(w, c).loop)
    decreases RankOf(c).inputs, RankOf(c).grants, RankOf(c).fuel, RankOf(c).weight
  {
    hide Reachable;
    if c.queue != [] {
      DriveStepDescends(w, c);
      DriveStepLoop(w, c);
      StepReachable(c.loop, c.queue[0]);
      RunReachable(w, DriveStep(w, c));
    }
  }

  lemma TakeInputUpToDate(h: Host, s: RunState, text: string)
    requires h.checkpointing && s.stop.None? && UpToDate(s) && Reachable(s.loop)
    ensures var t := TakeInput(h, s, text); Reachable(t.loop) && (t.stop.None? ==> UpToDate(t))
  {
    hide DriveRun, Reachable;
    RunReachable(h.world, Start(s, text));
    if s.loop.state == Idle {
      InputLeavesSomething(h.world, Start(s, text), text);
    } else {
      BusyIgnoresInput(h.world, Start(s, text), text);
    }
  }

  lemma TakeLineUpToDate(h: Host, s: RunState, line: InputLine)
    requires h.checkpointing && s.stop.None? && UpToDate(s) && Reachable(s.loop)
    ensures var t := TakeLine(h, s, line); Reachable(t.loop) && (t.stop.None? ==> UpToDate(t))
  {
    hide TakeInput, Reachable;
    if ReachesTheModel(h, s.offered, line) {
      TakeInputUpToDate(h, s.(offered := s.offered + 1), line.text);
    }
  }

  lemma {:induction false} TakeLinesUpToDate(h: Host, s: RunState, lines: seq<InputLine>)
    requires h.checkpointing && s.stop.None? && UpToDate(s) && Reachable(s.loop)
    ensures var t := TakeLines(h, s, lines); Reachable(t.loop) && (t.stop.None? ==> UpToDate(t))
    decreases |lines|
  {
    hide TakeLine, Reachable, UpToDate;
    if lines != [] {
      TakeLineUpToDate(h, s, lines[0]);
      if TakeLine(h, s, lines[0]).stop.None? {
        TakeLinesUpToDate(h, TakeLine(h, s, lines[0]), lines[1..]);
      }
    }
  }

  // ---- the restart ----------------------------------------------------------------------------

  /** What has been asked of the world by the end of a session. */
  function Asked(s: RunState): Past { Past(s.sent, s.ran, s.offered) }

  function LastLink(s: RunState): Checkpoint
    requires s.written != []
  {
    s.written[|s.written| - 1]
  }

  lemma RestoredIsKin(l: LoopState, maxTools: int)
    requires Reachable(l) && l.state == Idle && Resumable(l, maxTools)
    ensures Kin(l, New("", maxTools).(messages := l.messages))
  {
  }

  /**
   * Restarting changes nothing. A session over some lines that ended idle, and then one over the rest
   * with the loop restored from the last checkpoint file, write the links, send the conversations, run
   * the tools, report the failures and stop where one session over all the lines does, and hold the
   * same conversation, when the restored loop cannot be told from the one it was taken from.
   */
  lemma RestartChangesNothing(h: Host, decode: Decoder, file: string, loop: LoopState, answers: seq<int>, past: Past,
                              resumed: Option<Checkpoint>, a: seq<InputLine>, b: seq<InputLine>, maxTools: int)
    requires h.checkpointing && Reachable(loop)
    requires var s := TakeLines(h, Begin(loop, answers, past, resumed), a);
      && s.stop.None? && s.written != [] && s.loop.state == Idle
      && Resumable(s.loop, maxTools) && decode(file) == Some(LastLink(s))
    ensures var s := TakeLines(h, Begin(loop, answers, past, resumed), a);
      var r := RestoreFile(decode, file, maxTools);
      && r.Ok?
      && var whole := TakeLines(h, Begin(loop, answers, past, resumed), a + b);
         var rest := TakeLines(h, Begin(r.value, s.answers, Asked(s), Some(LastLink(s))), b);
         && whole ==
            rest.(loop := whole.loop, written := s.written + rest.written, failures := s.failures + rest.failures)
         && whole.loop.messages == rest.loop.messages && whole.loop.state == rest.loop.state
  {
    hide TakeLines, Kin, Reachable;
    var begin := Begin(loop, answers, past, resumed);
    var s := TakeLines(h, begin, a);
    TakeLinesUpToDate(h, begin, a);
    RestoredIsKin(s.loop, maxTools);
    CheckpointsLink(h, loop, answers, past, resumed, a);
    assert Link(h.hash, begin.turn, begin.prevHash, s.written, |s.written| - 1);
    var r := RestoreFile(decode, file, maxTools).value;
    var t := Begin(r, s.answers, Asked(s), Some(LastLink(s)));
    assert s.written + [] == s.written && s.failures + [] == s.failures;
    assert Follows(s, t, s.written, s.failures);
    TakeLinesFollows(h, s, t, s.written, s.failures, b);
    TakeLinesConcat(h, begin, a, b);
    KinHoldSame(TakeLines(h, s, b).loop, TakeLines(h, t, b).loop);
  }
}
