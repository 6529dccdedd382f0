/** Taking a checkpoint, restoring a loop from it, and when the restored loop is the same loop. */
module Resume {
  import opened Wrappers
  import opened Conversation
  import opened LoopMachine
  import opened Checkpoints

  datatype CheckpointError = MidTurn(state: State) | NotJSON | UnknownVersion(found: int) | NoMessages

  function Seal(hash: Hash, turn: int, prevHash: string, ms: seq<Message>): Checkpoint {
    Checkpoint(VERSION, turn, prevHash, hash(Preimage(turn, prevHash, ms)), ms)
  }

  /** Only an idle loop has a checkpoint. */
  function Take(hash: Hash, l: LoopState, turn: int, prevHash: string): Result<Checkpoint, CheckpointError> {
    if l.state != Idle then Err(MidTurn(l.state)) else Ok(Seal(hash, turn, prevHash, l.messages))
  }

  function Restore(c: Checkpoint, maxTools: int): Result<LoopState, CheckpointError> {
    if c.version != VERSION then Err(UnknownVersion(c.version))
    else if c.messages == [] then Err(NoMessages)
    else Ok(New("", maxTools).(messages := c.messages))
  }

  /** How a checkpoint file decodes, if it is JSON at all. */
  type Decoder = string -> Option<Checkpoint>

  function RestoreFile(decode: Decoder, file: string, maxTools: int): Result<LoopState, CheckpointError> {
    if decode(file).None? then Err(NotJSON) else Restore(decode(file).value, maxTools)
  }

  /**
   * Out to a file and back: a loop has a checkpoint if and only if it is idle, and a file that decodes
   * to it restores if and only if it holds a message, to an idle loop holding the same conversation.
   */
  lemma CheckpointRoundTrip(hash: Hash, decode: Decoder, file: string, l: LoopState, turn: int, prevHash: string,
                            maxTools: int)
    ensures var taken := Take(hash, l, turn, prevHash); var r := RestoreFile(decode, file, maxTools);
      && (taken.Ok? <==> l.state == Idle)
      && (taken.Ok? && decode(file) == Some(taken.value) ==>
        && (r.Ok? <==> l.messages != [])
        && (r.Ok? ==> r.value.state == Idle && r.value.messages == l.messages))
  {
  }

  /** A file restores if and only if it decodes to a checkpoint of version 1 that holds a message. */
  lemma RestoresIff(decode: Decoder, file: string, maxTools: int)
    ensures RestoreFile(decode, file, maxTools).Ok? <==>
            exists c :: decode(file) == Some(c) && c.version == 1 && c.messages != []
  {
  }

  /** Interrupted anywhere, a loop takes the next input, and sends all it holds and that. */
  lemma InterruptHandsBack(l: LoopState, text: string)
    ensures Run(l, [Interrupt, UserInput(text)]).actions ==
            [AwaitInput, SendTurn(l.messages + [Message("user", text, "", [])])]
  {
    assert [Interrupt, UserInput(text)] == [Interrupt] + [UserInput(text)];
    RunCons(l, Interrupt, [UserInput(text)]);
    RunOne(Step(l, Interrupt).loop, UserInput(text));
  }

  // ---- indistinguishable loops ----------------------------------------------------------------

  /** No continuation that starts with an input tells the two apart. */
  ghost predicate Indistinguishable(a: LoopState, b: LoopState) {
    forall text: string, es: seq<Event> :: SameBehaviour(a, b, [UserInput(text)] + es)
  }

  predicate SameBehaviour(a: LoopState, b: LoopState, es: seq<Event>) {
    && Run(a, es).actions == Run(b, es).actions
    && Run(a, es).loop.messages == Run(b, es).loop.messages
    && Run(a, es).loop.state == Run(b, es).loop.state
  }

  /** Equal but for original budgets that no yes can tell apart. */
  predicate Alike(a: LoopState, b: LoopState) {
    a == b.(budget := a.budget) && (a.budget == b.budget || (a.budget <= 0 && b.budget <= 0))
  }

  lemma AlikeStep(a: LoopState, b: LoopState, e: Event)
    requires Alike(a, b)
    ensures Alike(Step(a, e).loop, Step(b, e).loop) && Step(a, e).actions == Step(b, e).actions
  {
  }

  lemma {:induction false} AlikeRun(a: LoopState, b: LoopState, es: seq<Event>)
    requires Alike(a, b)
    ensures SameBehaviour(a, b, es)
    decreases |es|
  {
    if es != [] {
      AlikeStep(a, b, es[0]);
      AlikeRun(Step(a, es[0]).loop, Step(b, es[0]).loop, es[1..]);
    }
  }

  lemma {:induction false} RunConcat(l: LoopState, a: seq<Event>, b: seq<Event>)
    ensures Run(l, a + b) == Outcome(Run(Run(l, a).loop, b).loop, Run(l, a).actions + Run(Run(l, a).loop, b).actions)
    decreases |a|
  {
    if a == [] {
      assert a + b == b;
      assert [] + Run(l, b).actions == Run(l, b).actions;
    } else {
      hide Step, Run;
      var first := Step(l, a[0]);
      assert a + b == [a[0]] + (a[1..] + b) && a == [a[0]] + a[1..];
      RunCons(l, a[0], a[1..] + b);
      RunCons(l, a[0], a[1..]);
      RunConcat(first.loop, a[1..], b);
      var mid := Run(first.loop, a[1..]);
      Reassociate(first.actions, mid.actions, Run(mid.loop, b).actions);
    }
  }

  lemma RunOne(l: LoopState, e: Event)
    ensures Run(l, [e]) == Step(l, e)
  {
    assert [e][1..] == [];
    assert Step(l, e).actions + [] == Step(l, e).actions;
  }

  lemma RunCons(l: LoopState, e: Event, es: seq<Event>)
    ensures Run(l, [e] + es) ==
            Outcome(Run(Step(l, e).loop, es).loop, Step(l, e).actions + Run(Step(l, e).loop, es).actions)
  {
    assert ([e] + es)[1..] == es;
  }

  // ---- telling them apart ---------------------------------------------------------------------

  /** n calls with nothing else between them. */
  function Burst(n: nat): seq<ToolCall> { seq(n, i => ToolCall("", "", "")) }

  function BurstEvents(calls: seq<ToolCall>): seq<Event> {
    seq(|calls|, i requires 0 <= i < |calls| => ModelToolCall(Some(calls[i])))
  }

  lemma {:induction false} BurstCollects(l: LoopState, calls: seq<ToolCall>)
    ensures Run(l, BurstEvents(calls)) == Outcome(l.(pending := l.pending + calls), [])
    decreases |calls|
  {
    if calls == [] {
      assert l.pending + calls == l.pending;
    } else {
      assert BurstEvents(calls) == [ModelToolCall(Some(calls[0]))] + BurstEvents(calls[1..]);
      RunCons(l, ModelToolCall(Some(calls[0])), BurstEvents(calls[1..]));
      BurstCollects(l.(pending := l.pending + [calls[0]]), calls[1..]);
      assert l.pending + [calls[0]] + calls[1..] == l.pending + calls;
    }
  }

  const DONE := ModelDone("stop")
  const PLAIN_YES := BudgetAnswer(true, 0)

  /** Two plain yeses, each followed by a fresh end of turn. */
  const PROBE := [DONE] + ([PLAIN_YES] + ([DONE] + ([PLAIN_YES] + [DONE])))

  /** The ceiling after one plain yes. */
  function Lifted(maxTools: int, budget: int): int { maxTools + if budget > 0 then budget else maxTools }

  /** Over the ceiling, the end of a turn asks, and a plain yes then runs what is pending. */
  lemma AskThenRun(l: LoopState, rest: seq<Event>)
    requires l.pending != [] && l.used + |l.pending| > l.maxTools
    ensures var next := RunPending(l.(maxTools := Lifted(l.maxTools, l.budget)));
      Run(l, [DONE] + ([PLAIN_YES] + rest)).actions ==
      [AskToContinue(|l.pending|, l.used, l.maxTools)] + (next.actions + Run(next.loop, rest).actions)
  {
    hide Step, Run, RunPending;
    var asked := l.(state := Asking);
    AsksThenRuns(l);
    RunCons(l, DONE, [PLAIN_YES] + rest);
    RunCons(asked, PLAIN_YES, rest);
  }

  lemma AsksThenRuns(l: LoopState)
    requires l.pending != [] && l.used + |l.pending| > l.maxTools
    ensures Step(l, DONE) == Outcome(l.(state := Asking), [AskToContinue(|l.pending|, l.used, l.maxTools)])
    ensures Step(l.(state := Asking), PLAIN_YES) == RunPending(l.(maxTools := Lifted(l.maxTools, l.budget)))
  {
  }

  lemma ProbeAsks(l: LoopState)
    requires l.pending != [] && l.used == 0
    requires var n := |l.pending|; var m1 := Lifted(l.maxTools, l.budget);
      n > l.maxTools && 2 * n > m1 && 3 * n > Lifted(m1, l.budget)
    ensures var n := |l.pending|; var m1 := Lifted(l.maxTools, l.budget); var actions := Run(l, PROBE).actions;
      && |actions| == 2 * n + 3
      && actions[0] == AskToContinue(n, 0, l.maxTools)
      && actions[n + 1] == AskToContinue(n, n, m1)
      && actions[2 * n + 2] == AskToContinue(n, 2 * n, Lifted(m1, l.budget))
  {
    hide Run;
    AskThenRun(l, [DONE] + ([PLAIN_YES] + [DONE]));
    var one := RunPending(l.(maxTools := Lifted(l.maxTools, l.budget)));
    AskThenRun(one.loop, [DONE]);
    var two := RunPending(one.loop.(maxTools := Lifted(one.loop.maxTools, l.budget)));
    RunOne(two.loop, DONE);
    assert |one.actions| == |two.actions| == |l.pending|;
  }

  function Abs(x: int): nat { if x < 0 then -x else x }

  /** A burst too large for either loop's ceiling, even after two plain yeses. */
  function Distinguisher(a: LoopState, b: LoopState): seq<ToolCall> {
    Burst(1 + 4 * (Abs(a.maxTools) + Abs(b.maxTools) + Abs(a.budget) + Abs(b.budget)))
  }

  lemma BurstAsks(l: LoopState, calls: seq<ToolCall>)
    requires l.state == Idle && l.pending == [] && |calls| > 4 * (Abs(l.maxTools) + Abs(l.budget))
    ensures var n := |calls|; var m1 := Lifted(l.maxTools, l.budget);
      var actions := Run(l, [UserInput("")] + (BurstEvents(calls) + PROBE)).actions;
      && |actions| == 2 * n + 4
      && actions[1] == AskToContinue(n, 0, l.maxTools)
      && actions[n + 2] == AskToContinue(n, n, m1)
      && actions[2 * n + 3] == AskToContinue(n, 2 * n, Lifted(m1, l.budget))
  {
    hide Run;
    var fed := Step(l, UserInput("")).loop;
    RunCons(l, UserInput(""), BurstEvents(calls) + PROBE);
    RunConcat(fed, BurstEvents(calls), PROBE);
    BurstCollects(fed, calls);
    assert [] + calls == calls;
    ProbeAsks(fed.(pending := calls));
  }

  lemma IndistinguishableBudgets(a: LoopState, b: LoopState)
    requires a.state == b.state == Idle && a.pending == b.pending == [] && Indistinguishable(a, b)
    ensures a.maxTools == b.maxTools
    ensures var m1 := Lifted(a.maxTools, a.budget);
      m1 == Lifted(b.maxTools, b.budget) && Lifted(m1, a.budget) == Lifted(m1, b.budget)
  {
    var calls := Distinguisher(a, b);
    var es := BurstEvents(calls) + PROBE;
    assert SameBehaviour(a, b, [UserInput("")] + es);
    BurstAsks(a, calls);
    BurstAsks(b, calls);
  }

  lemma PendingShows(a: LoopState, b: LoopState)
    requires a.state == b.state == Idle && a.pending != [] && b.pending == []
    ensures !Indistinguishable(a, b)
  {
    var es := [DONE];
    var a1, b1 := Step(a, UserInput("")).loop, Step(b, UserInput("")).loop;
    RunCons(a, UserInput(""), es);
    RunCons(b, UserInput(""), es);
    RunOne(a1, DONE);
    RunOne(b1, DONE);
    assert Step(b1, DONE).actions[0] == ShowNote(SILENT_TURN);
    assert !Step(a1, DONE).actions[0].ShowNote?;
    assert Run(a, [UserInput("")] + es).actions[1] == Step(a1, DONE).actions[0];
    assert Run(b, [UserInput("")] + es).actions[1] == Step(b1, DONE).actions[0];
    assert !SameBehaviour(a, b, [UserInput("")] + es);
  }

  /** Nothing is pending, the ceiling chosen again is the current one, and a plain yes would grant the same. */
  predicate Resumable(l: LoopState, maxTools: int) {
    l.pending == [] && l.maxTools == maxTools && (l.budget == maxTools || (l.budget <= 0 && maxTools <= 0))
  }

  lemma RestoredForward(l: LoopState, r: LoopState)
    requires l.state == Idle && Reachable(l) && r == New("", r.maxTools).(messages := l.messages)
    requires Resumable(l, r.maxTools)
    ensures Indistinguishable(l, r)
  {
    forall text: string, es: seq<Event>
      ensures SameBehaviour(l, r, [UserInput(text)] + es)
    {
      RunCons(l, UserInput(text), es);
      RunCons(r, UserInput(text), es);
      AlikeRun(Step(l, UserInput(text)).loop, Step(r, UserInput(text)).loop, es);
    }
  }

  /**
   * A file that decodes to the checkpoint of an idle loop restores to a loop no continuation can tell
   * from it exactly when nothing was left pending, the ceiling chosen again is the current one, and
   * that is what a plain yes would grant.
   */
  lemma RestoreResumesIff(hash: Hash, decode: Decoder, file: string, l: LoopState, turn: int, prevHash: string,
                          maxTools: int)
    requires Reachable(l) && l.state == Idle && l.messages != []
    requires Take(hash, l, turn, prevHash).Ok? && decode(file) == Some(Take(hash, l, turn, prevHash).value)
    ensures var r := RestoreFile(decode, file, maxTools);
      && r.Ok?
      && (Indistinguishable(l, r.value) <==> Resumable(l, maxTools))
  {
    var r := RestoreFile(decode, file, maxTools).value;
    if l.pending != [] {
      PendingShows(l, r);
    } else if Indistinguishable(l, r) {
      IndistinguishableBudgets(l, r);
    }
    if Resumable(l, maxTools) {
      RestoredForward(l, r);
    }
  }
}
