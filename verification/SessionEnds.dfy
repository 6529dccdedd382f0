/** How a session ends and what it reports. */
module SessionEnds {
  import opened Wrappers
  import opened LoopMachine
  import opened Drive
  import opened DriveTrace
  import opened LateCut
  import opened Session
  import opened Segments
  import Coverage

  // ---- what stops it --------------------------------------------------------------------------

  /**
   * What stops a session, judged by the lines alone, when `offered` lines have been shown to the command
   * layer and `turn` turns counted: a line that cannot be read, a command that fails, or a turn whose
   * checkpoint cannot be written.
   */
  function Stopped(h: Host, offered: nat, turn: int, lines: seq<InputLine>): Option<Stop>
    decreases |lines|
  {
    if lines == [] then None
    else
      match lines[0]
      case Interrupted => Stopped(h, offered, turn, lines[1..])
      case Unreadable(err) => Some(ReadFailed(err))
      case Typed(text) =>
        if text == "" then Stopped(h, offered, turn, lines[1..])
        else
          match h.intercept(offered, text)
          case Handled => Stopped(h, offered + 1, turn, lines[1..])
          case Refused(err) => Some(InterceptFailed(err))
          case Pass =>
            if h.checkpointing && !h.writable(turn + 1) then Some(WriteFailed(turn + 1))
            else Stopped(h, offered + 1, turn + 1, lines[1..])
  }

  lemma InputStops(h: Host, s: RunState, text: string)
    requires EndsOnceOrTwice(h.world) && Ready(s.loop) && s.stop.None?
    ensures var t := TakeInput(h, s, text);
      && Ready(t.loop) && t.turn == s.turn + 1 && t.offered == s.offered
      && t.stop == if h.checkpointing && !h.writable(s.turn + 1) then Some(WriteFailed(s.turn + 1)) else None
  {
    hide DriveRun, Orphaned;
    Coverage.DrivenAppends(h, s, text);
  }

  /**
   * For every gateway whose replies end once or twice, whatever it says, and whatever the tools and the
   * operator do: a session ends as its lines, the command layer and the checkpoint writes decide.
   */
  lemma {:induction false} SessionStopsAsItsLines(h: Host, s: RunState, lines: seq<InputLine>)
    requires EndsOnceOrTwice(h.world) && Ready(s.loop) && s.stop.None?
    ensures TakeLines(h, s, lines).stop == Stopped(h, s.offered, s.turn, lines)
    decreases |lines|
  {
    hide TakeInput;
    if lines != [] {
      var o := s.(offered := s.offered + 1);
      if ReachesTheModel(h, s.offered, lines[0]) {
        InputStops(h, o, lines[0].text);
      }
      var t := TakeLine(h, s, lines[0]);
      if t.stop.None? {
        SessionStopsAsItsLines(h, t, lines[1..]);
      }
    }
  }

  // ---- what it reports ------------------------------------------------------------------------

  /** What each input taken failed at, one input after another. */
  function Reports(h: Host, s: RunState, lines: seq<InputLine>): seq<Failure>
    decreases |lines|
  {
    if s.stop.Some? || lines == [] then []
    else Report(h, s, lines[0]) + Reports(h, TakeLine(h, s, lines[0]), lines[1..])
  }

  function Report(h: Host, s: RunState, line: InputLine): seq<Failure> {
    if ReachesTheModel(h, s.offered, line) then Complaints(s.loop, Trace(h.world, Start(s, line.text))) else []
  }

  lemma LineReports(h: Host, s: RunState, line: InputLine)
    requires s.stop.None?
    ensures var t := TakeLine(h, s, line);
      t.failures == s.failures + if t.stop.None? then Report(h, s, line) else []
  {
    hide DriveRun, Complaints, Trace;
    assert s.failures + [] == s.failures;
    if ReachesTheModel(h, s.offered, line) {
      FailuresAreComplaints(h.world, Start(s, line.text));
      assert [] + Complaints(s.loop, Trace(h.world, Start(s, line.text))) ==
        Complaints(s.loop, Trace(h.world, Start(s, line.text)));
      assert Start(s.(offered := s.offered + 1), line.text) == Start(s, line.text);
    }
  }

  /**
   * Whatever the world: the failures of a session are every error its inputs heard and every question
   * they declined, in order, but for those of an input whose checkpoint could not be written.
   */
  lemma {:induction false} SessionReportsEverything(h: Host, s: RunState, lines: seq<InputLine>)
    ensures var t := TakeLines(h, s, lines);
      && t.failures <= s.failures + Reports(h, s, lines)
      && (t.stop.None? ==> t.failures == s.failures + Reports(h, s, lines))
    decreases |lines|
  {
    hide TakeLine, Report;
    if s.stop.None? && lines != [] {
      var t := TakeLine(h, s, lines[0]);
      LineReports(h, s, lines[0]);
      SessionReportsEverything(h, t, lines[1..]);
      Reassociate(s.failures, Report(h, s, lines[0]), Reports(h, t, lines[1..]));
      if t.stop.Some? {
        assert t.failures == s.failures;
      }
    } else {
      assert s.failures + Reports(h, s, lines) == s.failures;
    }
  }
}
