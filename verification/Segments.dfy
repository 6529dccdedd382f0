/**
 * What one input appends to a conversation, whatever stands before it: the loop never looks at what
 * it was handed, so an input behaves after any history as it does after none.
 */
module Segments {
  import opened Wrappers
  import opened Conversation
  import opened LoopMachine
  import opened Drive
  import opened DriveConversation
  import opened LateCut

  // ---- a history nobody looks at --------------------------------------------------------------

  /** The same loop with a history in front. */
  function Behind(base: seq<Message>, l: LoopState): LoopState { l.(messages := base + l.messages) }

  function SendsBehind(base: seq<Message>, a: Action): Action {
    if a.SendTurn? then SendTurn(base + a.send) else a
  }

  predicate ActBehind(base: seq<Message>, a: seq<Action>, b: seq<Action>) {
    |a| == |b| && forall i :: 0 <= i < |a| ==> b[i] == SendsBehind(base, a[i])
  }

  lemma StepBehind(base: seq<Message>, l: LoopState, e: Event)
    ensures Step(Behind(base, l), e).loop == Behind(base, Step(l, e).loop)
    ensures ActBehind(base, Step(l, e).actions, Step(Behind(base, l), e).actions)
  {
    hide ToolReturned;
    match e
    case UserInput(text) => Reassociate(base, l.messages, [UserMessage(text)]);
    case ModelDone(_) => RunPendingBehind(base, l);
    case BudgetAnswer(_, grant) => RunPendingBehind(base, l.(maxTools := l.maxTools + Grant(l, grant)));
    case ToolResult(call, result, _) => ToolReturnedBehind(base, l, call, result);
    case _ =>
  }

  lemma ToolReturnedBehind(base: seq<Message>, l: LoopState, call: Option<ToolCall>, result: string)
    ensures ToolReturned(Behind(base, l), call, result).loop == Behind(base, ToolReturned(l, call, result).loop)
    ensures ActBehind(base, ToolReturned(l, call, result).actions, ToolReturned(Behind(base, l), call, result).actions)
  {
    if call.Some? {
      Reassociate(base, l.messages, l.answered + [ToolAnswer(call.value, result)]);
    }
  }

  lemma RunPendingBehind(base: seq<Message>, l: LoopState)
    ensures RunPending(Behind(base, l)).loop == Behind(base, RunPending(l).loop)
    ensures RunPending(Behind(base, l)).actions == RunPending(l).actions
  {
    Reassociate(base, l.messages, [AssistantTurn(l.pending)]);
  }

  /** The conversations sent from the n-th on, each behind the history. */
  function SentBehind(base: seq<Message>, n: nat, sent: seq<seq<Message>>): seq<seq<Message>> {
    seq(|sent|, i requires 0 <= i < |sent| => if i < n then sent[i] else base + sent[i])
  }

  /** The world as it answers behind the history. */
  function WorldBehind(base: seq<Message>, w: World): World {
    World((n: nat, ms: seq<Message>) => w.reply(n, base + ms), w.tool)
  }

  function ConfigBehind(base: seq<Message>, n: nat, c: Config): Config {
    c.(loop := Behind(base, c.loop), sent := SentBehind(base, n, c.sent))
  }

  lemma PerformBehind(base: seq<Message>, n: nat, w: World, c: Config, a: Action)
    requires n <= |c.sent|
    ensures Perform(w, ConfigBehind(base, n, c), SendsBehind(base, a)) ==
            ConfigBehind(base, n, Perform(WorldBehind(base, w), c, a))
    ensures n <= |Perform(WorldBehind(base, w), c, a).sent|
  {
    if a.SendTurn? {
      assert SentBehind(base, n, c.sent + [a.send]) == SentBehind(base, n, c.sent) + [base + a.send];
    }
  }

  lemma {:induction false} PerformAllBehind(base: seq<Message>, n: nat, w: World, c: Config, a: seq<Action>,
                                            b: seq<Action>)
    requires n <= |c.sent| && ActBehind(base, a, b)
    ensures PerformAll(w, ConfigBehind(base, n, c), b) == ConfigBehind(base, n, PerformAll(WorldBehind(base, w), c, a))
    ensures n <= |PerformAll(WorldBehind(base, w), c, a).sent|
    decreases |a|
  {
    if a != [] {
      PerformBehind(base, n, w, c, a[0]);
      PerformAllBehind(base, n, w, Perform(WorldBehind(base, w), c, a[0]), a[1..], b[1..]);
    }
  }

  lemma DriveStepBehind(base: seq<Message>, n: nat, w: World, c: Config)
    requires n <= |c.sent| && c.queue != []
    ensures DriveStep(w, ConfigBehind(base, n, c)) == ConfigBehind(base, n, DriveStep(WorldBehind(base, w), c))
    ensures n <= |DriveStep(WorldBehind(base, w), c).sent|
  {
    hide Perform, PerformAll, Step;
    StepBehind(base, c.loop, c.queue[0]);
    var o, p := Step(c.loop, c.queue[0]), Step(Behind(base, c.loop), c.queue[0]);
    PerformAllBehind(base, n, w, c.(loop := o.loop, queue := c.queue[1..]), o.actions, p.actions);
  }

  lemma {:induction false} DriveRunBehind(base: seq<Message>, n: nat, w: World, c: Config)
    requires n <= |c.sent|
    ensures DriveRun(w, ConfigBehind(base, n, c)) == ConfigBehind(base, n, DriveRun(WorldBehind(base, w), c))
    decreases RankOf(c).inputs, RankOf(c).grants, RankOf(c).fuel, RankOf(c).weight
  {
    hide DriveStep, SentBehind;
    if c.queue != [] {
      DriveStepDescends(WorldBehind(base, w), c);
      DriveStepBehind(base, n, w, c);
      DriveRunBehind(base, n, w, DriveStep(WorldBehind(base, w), c));
    }
  }

  // ---- one input ------------------------------------------------------------------------------

  /** Back with the user, nothing waiting and nothing owed, whatever the conversation. */
  predicate Ready(l: LoopState) { l.state == Idle && l.pending == [] && l.answered == [] }

  /** The last reply this input received ended well, asked for calls that fit, and then failed. */
  predicate Orphaned(w: World, c: Config) {
    var d := DriveRun(w, c);
    d.sent != [] &&
    Orphans(LastReply(w, d), CallsSince(c.loop.messages, d.sent[|d.sent| - 1]), d.loop.maxTools)
  }

  /** What an input appends: the input, and complete turns exactly when it was not orphaned. */
  predicate Appends(w: World, c: Config, text: string, segment: seq<Message>) {
    var d := DriveRun(w, c);
    && Ready(d.loop) && d.queue == []
    && d.loop.messages == c.loop.messages + segment && [UserMessage(text)] <= segment
    && (Turns(segment) <==> !Orphaned(w, c))
  }

  /** For every gateway whose replies end once or twice, after any conversation, well-formed or not. */
  lemma InputAppends(w: World, c: Config, text: string) returns (segment: seq<Message>)
    requires EndsOnceOrTwice(w) && Ready(c.loop) && c.queue == [UserInput(text)]
    ensures Appends(w, c, text, segment)
  {
    hide DriveRun, LastReply, CallsSince, Orphans;
    var base, v := c.loop.messages, WorldBehind(c.loop.messages, w);
    var b := c.(loop := c.loop.(messages := []));
    assert ConfigBehind(base, |c.sent|, b) == c by {
      assert base + [] == base && SentBehind(base, |c.sent|, c.sent) == c.sent;
    }
    DriveRunBehind(base, |c.sent|, w, b);
    BehindEndsOnceOrTwice(base, w);
    InputEndsWellFormedIff(v, b, text);
    segment := DriveRun(v, b).loop.messages;
    SegmentStarts(v, b, text);
    SameLastReply(base, |c.sent|, w, DriveRun(v, b));
    SameCallsSince(base, DriveRun(v, b).sent[|DriveRun(v, b).sent| - 1]);
  }

  lemma BehindEndsOnceOrTwice(base: seq<Message>, w: World)
    requires EndsOnceOrTwice(w)
    ensures EndsOnceOrTwice(WorldBehind(base, w))
  {
  }

  lemma SegmentStarts(v: World, b: Config, text: string)
    requires b.loop.state == Idle && b.loop.messages == [] && b.queue == [UserInput(text)]
    ensures [UserMessage(text)] <= DriveRun(v, b).loop.messages
    ensures var ms := DriveRun(v, b).loop.messages; WellFormed(ms) <==> Turns(ms)
  {
    DriveStepLoop(v, b);
    MessagesGrow(v, DriveStep(v, b));
    assert [] + [UserMessage(text)] == [UserMessage(text)];
    assert DriveRun(v, b) == DriveRun(v, DriveStep(v, b));
    assert SYSTEM[0] != USER[0];
  }

  lemma SameLastReply(base: seq<Message>, n: nat, w: World, d: Config)
    requires n < |d.sent|
    ensures LastReply(w, ConfigBehind(base, n, d)) == LastReply(WorldBehind(base, w), d)
  {
  }

  lemma SameCallsSince(base: seq<Message>, ms: seq<Message>)
    ensures CallsSince(base, base + ms) == CallsSince([], ms)
  {
    CallsConcat(base, ms);
  }
}
