/** The shell script that waits for a command: what it reads as, and how it ends. */
module WaitLoop {
  import opened Wrappers
  import opened Text
  import opened ShellQuote

  // ---- the script -----------------------------------------------------------------------------

  function AtLeastOne(n: int): nat { if n < 1 then 1 else n }

  /** The script up to its command: a deadline at least a second away, and the head of the poll loop. */
  function Prologue(timeout: int): string {
    "__end=$(( $(date +%s) + " + (Decimal(AtLeastOne(timeout)) + (" ))\n" + ("while :; do\n" + "  if sh -c ")))
  }

  /** And from its command on: stop on success, give up at the deadline, sleep, again. */
  function Epilogue(interval: int): string {
    "; then exit " + ("0" + ("; fi\n" + ("  if [ \"$(date +%s)\" -ge \"$__end\" ]; then exit " + ("97" + ("; fi\n"
    + ("  sleep " + (Decimal(AtLeastOne(interval)) + ("\n" + "done\n"))))))))
  }

  // ---- reading it -----------------------------------------------------------------------------

  /**
   * A wait: how many seconds it lasts at most, the command, the exit codes for its success and for the
   * deadline, and the seconds between two tries.
   */
  datatype Poll = Poll(wait: int, command: string, success: int, expired: int, interval: int)

  predicate IsDigit(c: char) { '0' <= c <= '9' }

  function Digits(s: string): (k: nat)
    ensures k <= |s|
  {
    if s != "" && IsDigit(s[0]) then 1 + Digits(s[1..]) else 0
  }

  /** What follows a piece of script, where it stands. */
  function After(piece: string, s: string): Option<string> {
    if piece <= s then Some(s[|piece|..]) else None
  }

  /** A number, and what follows it. */
  function Number(s: string): (int, string) { (Value(s[..Digits(s)]), s[Digits(s)..]) }

  /** A number between two pieces of script. */
  function Between(before: string, after: string, s: string): Option<(int, string)> {
    match After(before, s)
    case None => None
    case Some(t) =>
      match After(after, Number(t).1)
      case None => None
      case Some(rest) => Some((Number(t).0, rest))
  }

  /** The script as the shell reads it; None for any other. */
  function ReadPoll(script: string): Option<Poll> {
    match Between("__end=$(( $(date +%s) + ", " ))\n" + ("while :; do\n" + "  if sh -c "), script)
    case None => None
    case Some((wait, tail)) =>
      match LexUnquoted(tail)
      case Unterminated => None
      case Unsupported => None
      case Word(command, rest) => ReadRest(wait, command, rest)
  }

  function ReadRest(wait: int, command: string, rest: string): Option<Poll> {
    match Between("; then exit ", "; fi\n", rest)
    case None => None
    case Some((success, check)) =>
      match Between("  if [ \"$(date +%s)\" -ge \"$__end\" ]; then exit ", "; fi\n", check)
      case None => None
      case Some((expired, sleep)) =>
        match Between("  sleep ", "\n" + "done\n", sleep)
        case None => None
        case Some((interval, end)) => if end == "" then Some(Poll(wait, command, success, expired, interval)) else None
  }

  lemma {:induction false} DigitsOf(s: string, rest: string)
    requires (forall i :: 0 <= i < |s| ==> IsDigit(s[i])) && (rest == "" || !IsDigit(rest[0]))
    ensures Digits(s + rest) == |s|
  {
    if s == "" {
      assert s + rest == rest;
    } else {
      assert (s + rest)[1..] == s[1..] + rest;
      DigitsOf(s[1..], rest);
    }
  }

  lemma NumberReads(n: nat, rest: string)
    requires rest == "" || !IsDigit(rest[0])
    ensures Number(DecimalNat(n) + rest) == (n, rest)
  {
    DigitsOf(DecimalNat(n), rest);
    DecimalReads(n);
    var s := DecimalNat(n) + rest;
    assert s[..|DecimalNat(n)|] == DecimalNat(n) && s[|DecimalNat(n)|..] == rest;
  }

  lemma AfterReads(piece: string, rest: string)
    ensures After(piece, piece + rest) == Some(rest)
  {
  }

  lemma BetweenReads(before: string, n: nat, after: string, rest: string)
    requires after != "" && !IsDigit(after[0])
    ensures Between(before, after, before + (DecimalNat(n) + (after + rest))) == Some((n as int, rest))
  {
    AfterReads(before, DecimalNat(n) + (after + rest));
    NumberReads(n, after + rest);
    AfterReads(after, rest);
  }

  lemma Codes()
    ensures DecimalNat(0) == "0" && DecimalNat(97) == "97"
  {
    assert DecimalNat(9) == "9";
    assert DecimalNat(97) == DecimalNat(9) + [Digit(7)];
  }

  lemma EpilogueReads(wait: int, command: string, interval: int)
    ensures ReadRest(wait, command, Epilogue(interval)) == Some(Poll(wait, command, 0, 97, AtLeastOne(interval)))
  {
    hide Between, DecimalNat;
    var sleep := "  sleep " + (Decimal(AtLeastOne(interval)) + ("\n" + "done\n"));
    var check := "  if [ \"$(date +%s)\" -ge \"$__end\" ]; then exit " + ("97" + ("; fi\n" + sleep));
    Codes();
    BetweenReads("; then exit ", 0, "; fi\n", check);
    BetweenReads("  if [ \"$(date +%s)\" -ge \"$__end\" ]; then exit ", 97, "; fi\n", sleep);
    BetweenReads("  sleep ", AtLeastOne(interval), "\n" + "done\n", "");
    assert ("\n" + "done\n") + "" == "\n" + "done\n";
  }

  lemma ScriptReads(script: string, command: string, timeout: int, interval: int)
    requires script == Prologue(timeout) + (SingleQuoted(command) + Epilogue(interval))
    ensures ReadPoll(script) == Some(Poll(AtLeastOne(timeout), command, 0, 97, AtLeastOne(interval)))
  {
    hide Between, DecimalNat, Epilogue, SingleQuoted;
    var head, tail := " ))\n" + ("while :; do\n" + "  if sh -c "), SingleQuoted(command) + Epilogue(interval);
    OpensWithSemicolon(interval);
    QuotedIsOneWord(command, Epilogue(interval));
    Regroup("__end=$(( $(date +%s) + ", Decimal(AtLeastOne(timeout)), head, tail);
    BetweenReads("__end=$(( $(date +%s) + ", AtLeastOne(timeout), head, tail);
    EpilogueReads(AtLeastOne(timeout), command, interval);
  }

  lemma OpensWithSemicolon(interval: int)
    ensures Epilogue(interval) != "" && EndsWord(Epilogue(interval)[0])
  {
  }

  lemma Regroup(a: string, b: string, c: string, d: string)
    ensures (a + (b + c)) + d == a + (b + (c + d))
  {
  }

  /**
   * The poll loop. Whatever the command, the script reads as: run that very command until it succeeds
   * and then exit 0, or exit 97 once at least a second and the whole timeout have passed, and sleep at
   * least a second between two tries. Nothing in the command can end its word early or run past it.
   */
  method WaitLoopScript(command: string, timeout: int, interval: int) returns (script: string)
    ensures ReadPoll(script) ==
            Some(Poll(if timeout < 1 then 1 else timeout, command, 0, 97, if interval < 1 then 1 else interval))
  {
    var secs := timeout;
    if secs < 1 {
      secs := 1;
    }
    var ivl := interval;
    if ivl < 1 {
      ivl := 1;
    }
    var b := "__end=$(( $(date +%s) + " + (Decimal(secs) + " ))\n");
    b := b + "while :; do\n";
    b := b + ("  if sh -c " + (SingleQuoted(command) + ("; then exit " + ("0" + "; fi\n"))));
    b := b + ("  if [ \"$(date +%s)\" -ge \"$__end\" ]; then exit " + ("97" + "; fi\n"));
    b := b + ("  sleep " + (Decimal(ivl) + "\n"));
    b := b + "done\n";
    script := b;
    Written("__end=$(( $(date +%s) + ", Decimal(secs), " ))\n", "while :; do\n", "  if sh -c ", SingleQuoted(command),
            "; then exit ", "0", "; fi\n", "  if [ \"$(date +%s)\" -ge \"$__end\" ]; then exit ", "97", "  sleep ",
            Decimal(ivl), "\n", "done\n");
    ScriptReads(script, command, timeout, interval);
  }

  /** The lines as they are written, regrouped around the quoted command. */
  lemma Written(end: string, secs: string, close: string, loop: string, run: string, quoted: string, exit: string,
                zero: string, fi: string, check: string, late: string, sleep: string, ivl: string, nl: string,
                done: string)
    ensures (end + (secs + close)) + loop + (run + (quoted + (exit + (zero + fi)))) + (check + (late + fi))
            + (sleep + (ivl + nl)) + done ==
            (end + (secs + (close + (loop + run)))) +
            (quoted + (exit + (zero + (fi + (check + (late + (fi + (sleep + (ivl + (nl + done))))))))))
  {
  }

  // ---- how it ends ----------------------------------------------------------------------------

  /** The clock read in each round is at least the time slept later than in the one before. */
  ghost predicate Ticks(p: Poll, clock: nat -> int) {
    p.interval >= 1 && forall i: nat :: clock(i + 1) >= clock(i) + p.interval
  }

  /**
   * The exit code, from round i on: `works(i)` says whether the command succeeds in it, `clock(i)` what
   * the clock reads in it, `begun` what it read when the deadline was set.
   */
  ghost function ExitCode(p: Poll, works: nat -> bool, clock: nat -> int, begun: int, i: nat): int
    requires Ticks(p, clock)
    decreases if clock(i) < begun + p.wait then begun + p.wait - clock(i) else 0
  {
    if works(i) then p.success
    else if clock(i) >= begun + p.wait then p.expired
    else ExitCode(p, works, clock, begun, i + 1)
  }

  /** The command succeeds in some round from this one on, and no round before that one found the time over. */
  ghost predicate InTime(p: Poll, works: nat -> bool, clock: nat -> int, begun: int, i: nat) {
    exists k: nat :: i <= k && works(k) && forall j: nat :: i <= j < k ==> clock(j) < begun + p.wait
  }

  lemma {:induction false} ExitsInTimeIff(p: Poll, works: nat -> bool, clock: nat -> int, begun: int, i: nat)
    requires Ticks(p, clock)
    ensures ExitCode(p, works, clock, begun, i) == if InTime(p, works, clock, begun, i) then p.success else p.expired
    decreases if clock(i) < begun + p.wait then begun + p.wait - clock(i) else 0
  {
    if works(i) {
      assert InTime(p, works, clock, begun, i);
    } else if clock(i) < begun + p.wait {
      ExitsInTimeIff(p, works, clock, begun, i + 1);
    }
  }

  /**
   * So the wait always ends, whatever the command does: with 0 exactly when it succeeded in a round that
   * no round found the time over before, and with 97 otherwise.
   */
  lemma WaitEnds(script: string, command: string, timeout: int, interval: int,
                 works: nat -> bool, clock: nat -> int, begun: int)
    requires ReadPoll(script) ==
             Some(Poll(if timeout < 1 then 1 else timeout, command, 0, 97, if interval < 1 then 1 else interval))
    requires Ticks(ReadPoll(script).value, clock)
    ensures var p := ReadPoll(script).value;
      ExitCode(p, works, clock, begun, 0) == if InTime(p, works, clock, begun, 0) then 0 else 97
  {
    ExitsInTimeIff(ReadPoll(script).value, works, clock, begun, 0);
  }
}
