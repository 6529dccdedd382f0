/** A whole run: one line at a time, each driven to its end, with a checkpoint at every turn boundary. */
module Session {
  import opened Wrappers
  import opened Conversation
  import opened LoopMachine
  import opened Drive
  import opened DriveConversation
  import opened Checkpoints
  import opened Resume

  /** What reading a line yields, blank edges already trimmed; the sequence of lines ends at EOF. */
  datatype InputLine = Interrupted | Unreadable(err: string) | Typed(text: string)

  datatype Interception = Pass | Handled | Refused(err: string)

  /**
   * What surrounds the runner: the command layer, which may answer the n-th line it is shown as it
   * likes, and whether checkpoints are written and which turns' writes succeed.
   */
  datatype Host = Host(
    world: World, hash: Hash, intercept: (nat, string) -> Interception, checkpointing: bool, writable: int -> bool)

  datatype Stop = ReadFailed(err: string) | InterceptFailed(err: string) | WriteFailed(turn: int)

  datatype RunState = RunState(
    loop: LoopState, answers: seq<int>, sent: seq<seq<Message>>, ran: seq<Run>, offered: nat,
    turn: int, prevHash: string, written: seq<Checkpoint>, failures: seq<Failure>, stop: Option<Stop>)

  /** What earlier runs have already asked of the world: turns sent, tools run, lines offered to the command layer. */
  datatype Past = Past(sent: seq<seq<Message>>, ran: seq<Run>, offered: nat)

  /** The first link continues the file the run was resumed from, if any. */
  function Begin(loop: LoopState, answers: seq<int>, past: Past, resumed: Option<Checkpoint>): RunState {
    var turn := if resumed.Some? then resumed.value.turn else 0;
    var prevHash := if resumed.Some? then resumed.value.hash else "";
    RunState(loop, answers, past.sent, past.ran, past.offered, turn, prevHash, [], [], None)
  }

  /** The line is the n-th to be offered to the command layer, which lets it pass. */
  predicate ReachesTheModel(h: Host, n: nat, line: InputLine) {
    Offered(line) && h.intercept(n, line.text).Pass?
  }

  predicate Offered(line: InputLine) { line.Typed? && line.text != "" }

  function Start(s: RunState, text: string): Config {
    Config(s.loop, [UserInput(text)], s.answers, s.sent, s.ran, [])
  }

  /** The run state once a line has been driven to its end, before any boundary. */
  function Driven(h: Host, s: RunState, text: string): RunState {
    var d := DriveRun(h.world, Start(s, text));
    s.(loop := d.loop, answers := d.answers, sent := d.sent, ran := d.ran)
  }

  function TakeLine(h: Host, s: RunState, line: InputLine): RunState {
    match line
    case Interrupted => s
    case Unreadable(err) => s.(stop := Some(ReadFailed(err)))
    case Typed(text) =>
      if text == "" then s
      else
        var o := s.(offered := s.offered + 1);
        match h.intercept(s.offered, text)
        case Handled => o
        case Refused(err) => o.(stop := Some(InterceptFailed(err)))
        case Pass => TakeInput(h, o, text)
  }

  /** An input: driven to its end, then the boundary, then what it failed at. */
  function TakeInput(h: Host, s: RunState, text: string): RunState {
    var t := Driven(h, s, text);
    var b := if t.loop.state == Idle then Boundary(h, t) else t;
    if b.stop.Some? then b else b.(failures := b.failures + DriveRun(h.world, Start(s, text)).failed)
  }

  /** A turn boundary: count it and, when checkpointing, write the next link. */
  function Boundary(h: Host, s: RunState): RunState {
    var t := s.(turn := s.turn + 1);
    if !h.checkpointing then t
    else
      var c := Seal(h.hash, t.turn, s.prevHash, s.loop.messages);
      if h.writable(t.turn) then t.(written := s.written + [c], prevHash := c.hash)
      else t.(stop := Some(WriteFailed(t.turn)))
  }

  function TakeLines(h: Host, s: RunState, lines: seq<InputLine>): RunState
    decreases |lines|
  {
    if s.stop.Some? || lines == [] then s else TakeLines(h, TakeLine(h, s, lines[0]), lines[1..])
  }

  // ---- the chain ------------------------------------------------------------------------------

  /** Link i is sealed, next in turn order, and names the hash before it. */
  predicate Link(hash: Hash, turn0: int, prev0: string, cs: seq<Checkpoint>, i: nat)
    requires i < |cs|
  {
    && cs[i].version == VERSION
    && cs[i].turn == turn0 + 1 + i
    && cs[i].prevHash == (if i == 0 then prev0 else cs[i - 1].hash)
    && Sealed(hash, cs[i])
  }

  predicate Links(hash: Hash, turn0: int, prev0: string, cs: seq<Checkpoint>) {
    forall i :: 0 <= i < |cs| ==> Link(hash, turn0, prev0, cs, i)
  }

  /** Every conversation written is a prefix of every later one and of the current one. */
  predicate Prefixes(cs: seq<Checkpoint>, current: seq<Message>) {
    && (forall i :: 0 <= i < |cs| ==> cs[i].messages <= current)
    && (forall i, j :: 0 <= i < j < |cs| ==> cs[i].messages <= cs[j].messages)
  }

  function LastHash(prev0: string, cs: seq<Checkpoint>): string {
    if cs == [] then prev0 else cs[|cs| - 1].hash
  }

  /** The links written so far extend (turn0, prev0) without a gap, over a growing conversation. */
  predicate Linked(h: Host, turn0: int, prev0: string, s: RunState) {
    && Links(h.hash, turn0, prev0, s.written)
    && Prefixes(s.written, s.loop.messages)
    && (s.stop.None? ==> s.turn == turn0 + |s.written|)
    && s.prevHash == LastHash(prev0, s.written)
  }

  lemma LinksExtend(hash: Hash, turn0: int, prev0: string, cs: seq<Checkpoint>, c: Checkpoint)
    requires Links(hash, turn0, prev0, cs)
    requires c.version == VERSION && c.turn == turn0 + 1 + |cs| && c.prevHash == LastHash(prev0, cs) && Sealed(hash, c)
    ensures Links(hash, turn0, prev0, cs + [c])
  {
    forall i | 0 <= i < |cs + [c]|
      ensures Link(hash, turn0, prev0, cs + [c], i)
    {
      if i < |cs| {
        assert Link(hash, turn0, prev0, cs, i);
      }
    }
  }

  lemma PrefixesGrow(cs: seq<Checkpoint>, current: seq<Message>, longer: seq<Message>)
    requires Prefixes(cs, current) && current <= longer
    ensures Prefixes(cs, longer)
  {
  }

  lemma PrefixesExtend(cs: seq<Checkpoint>, c: Checkpoint)
    requires Prefixes(cs, c.messages)
    ensures Prefixes(cs + [c], c.messages)
  {
  }

  lemma BoundaryLinks(h: Host, turn0: int, prev0: string, s: RunState)
    requires h.checkpointing && s.stop.None? && Linked(h, turn0, prev0, s)
    ensures Linked(h, turn0, prev0, Boundary(h, s))
  {
    var c := Seal(h.hash, s.turn + 1, s.prevHash, s.loop.messages);
    LinksExtend(h.hash, turn0, prev0, s.written, c);
    PrefixesExtend(s.written, c);
  }

  lemma DriveLinks(h: Host, turn0: int, prev0: string, s: RunState, text: string)
    requires Linked(h, turn0, prev0, s)
    ensures Linked(h, turn0, prev0, Driven(h, s, text))
  {
    MessagesGrow(h.world, Start(s, text));
    PrefixesGrow(s.written, s.loop.messages, Driven(h, s, text).loop.messages);
  }

  lemma TakeInputLinks(h: Host, turn0: int, prev0: string, s: RunState, text: string)
    requires h.checkpointing && s.stop.None? && Linked(h, turn0, prev0, s)
    ensures Linked(h, turn0, prev0, TakeInput(h, s, text))
  {
    hide DriveRun;
    DriveLinks(h, turn0, prev0, s, text);
    var t := Driven(h, s, text);
    if t.loop.state == Idle {
      BoundaryLinks(h, turn0, prev0, t);
    }
  }

  lemma TakeLineLinks(h: Host, turn0: int, prev0: string, s: RunState, line: InputLine)
    requires h.checkpointing && s.stop.None? && Linked(h, turn0, prev0, s)
    ensures Linked(h, turn0, prev0, TakeLine(h, s, line))
  {
    hide TakeInput;
    if ReachesTheModel(h, s.offered, line) {
      TakeInputLinks(h, turn0, prev0, s.(offered := s.offered + 1), line.text);
    }
  }

  lemma {:induction false} RunLinks(h: Host, turn0: int, prev0: string, s: RunState, lines: seq<InputLine>)
    requires h.checkpointing && Linked(h, turn0, prev0, s)
    ensures Linked(h, turn0, prev0, TakeLines(h, s, lines))
    decreases |lines|
  {
    if s.stop.None? && lines != [] {
      TakeLineLinks(h, turn0, prev0, s, lines[0]);
      RunLinks(h, turn0, prev0, TakeLine(h, s, lines[0]), lines[1..]);
    }
  }

  /**
   * Any run that checkpoints, whatever the gateway streams and wherever it stops: turn numbers are
   * consecutive from the resumed one, each link names the hash before it, and each conversation is a
   * prefix of the next.
   */
  lemma CheckpointsLink(h: Host, loop: LoopState, answers: seq<int>, past: Past, resumed: Option<Checkpoint>,
                        lines: seq<InputLine>)
    requires h.checkpointing
    ensures var s := Begin(loop, answers, past, resumed);
      Linked(h, s.turn, s.prevHash, TakeLines(h, s, lines))
  {
    var s := Begin(loop, answers, past, resumed);
    RunLinks(h, s.turn, s.prevHash, s, lines);
  }

  /** The checkpoint a run resumes from, when there is a chain to resume. */
  function Last(cs: seq<Checkpoint>): Option<Checkpoint> { if cs == [] then None else Some(cs[|cs| - 1]) }

  /**
   * A run resumed from the last link of a chain extends that chain, and a fresh run starts one: the
   * hash of the last link written pins every conversation before it, across the restart.
   */
  lemma RunExtendsTheChain(h: Host, loop: LoopState, answers: seq<int>, past: Past, cs: seq<Checkpoint>,
                           lines: seq<InputLine>)
    requires h.checkpointing && Chain(h.hash, cs)
    ensures Chain(h.hash, cs + TakeLines(h, Begin(loop, answers, past, Last(cs)), lines).written)
  {
    CheckpointsLink(h, loop, answers, past, Last(cs), lines);
    var s := Begin(loop, answers, past, Last(cs));
    var t := TakeLines(h, s, lines);
    LinksChain(h.hash, s.turn, cs, t.written);
  }

  /** Links that continue the last hash of a chain, one after another. */
  lemma LinksChain(hash: Hash, turn0: int, cs: seq<Checkpoint>, more: seq<Checkpoint>)
    requires Chain(hash, cs) && Links(hash, turn0, LastHash("", cs), more)
    ensures Chain(hash, cs + more)
  {
    hide Sealed;
    forall i | 0 <= i < |cs + more|
      ensures InPlace(hash, cs + more, i)
    {
      LinkInPlace(hash, turn0, cs, more, i);
    }
  }

  lemma LinkInPlace(hash: Hash, turn0: int, cs: seq<Checkpoint>, more: seq<Checkpoint>, i: nat)
    requires Chain(hash, cs) && Links(hash, turn0, LastHash("", cs), more) && i < |cs + more|
    ensures InPlace(hash, cs + more, i)
  {
    hide Sealed;
    if i < |cs| {
      assert InPlace(hash, cs, i);
    } else {
      assert Link(hash, turn0, LastHash("", cs), more, i - |cs|);
    }
  }

  /** A fresh run's links are a hash chain on their own. */
  lemma FreshRunIsAChain(h: Host, loop: LoopState, answers: seq<int>, past: Past, lines: seq<InputLine>)
    requires h.checkpointing
    ensures Chain(h.hash, TakeLines(h, Begin(loop, answers, past, None), lines).written)
  {
    RunExtendsTheChain(h, loop, answers, past, [], lines);
    assert [] + TakeLines(h, Begin(loop, answers, past, None), lines).written ==
           TakeLines(h, Begin(loop, answers, past, None), lines).written;
  }
}
