/** Which tool results compaction may touch: those outside the protected head and tail turns. */
module Eligibility {
  import opened Conversation

  function Min(a: int, b: int): int { if a < b then a else b }

  /** User messages among the first n. */
  function UsersBefore(ms: seq<Message>, n: nat): nat
    requires n <= |ms|
  {
    if n == 0 then 0 else UsersBefore(ms, n - 1) + if ms[n - 1].role == USER then 1 else 0
  }

  /** The turn message i belongs to: the user messages at or before it. */
  function TurnOf(ms: seq<Message>, i: nat): nat
    requires i < |ms|
  {
    UsersBefore(ms, i + 1)
  }

  function Users(ms: seq<Message>): nat { UsersBefore(ms, |ms|) }

  /** Turn t is one of the first `head` or of the last `tail`; with no user message nothing is protected. */
  predicate Protected(ms: seq<Message>, head: int, tail: int, i: nat)
    requires i < |ms|
  {
    && Users(ms) > 0
    && ((head > 0 && TurnOf(ms, i) <= head) || (tail > 0 && TurnOf(ms, i) > Users(ms) - Min(tail, Users(ms))))
  }

  predicate Eligible(ms: seq<Message>, head: int, tail: int, i: nat)
    requires i < |ms|
  {
    ms[i].role == TOOL && ms[i].content != "" && !Protected(ms, head, tail, i)
  }

  /** The eligible indices below n, in order. */
  function EligibleBelow(ms: seq<Message>, head: int, tail: int, n: nat): seq<nat>
    requires n <= |ms|
  {
    if n == 0 then []
    else EligibleBelow(ms, head, tail, n - 1) + if Eligible(ms, head, tail, n - 1) then [n - 1] else []
  }

  lemma {:induction false} EligibleBelowAll(ms: seq<Message>, head: int, tail: int, n: nat)
    requires n <= |ms|
    ensures var s := EligibleBelow(ms, head, tail, n);
      && (forall i :: 0 <= i < n ==> (i in s <==> Eligible(ms, head, tail, i)))
      && (forall k :: 0 <= k < |s| ==> s[k] < n)
      && (forall j, k :: 0 <= j < k < |s| ==> s[j] < s[k])
  {
    if n > 0 {
      EligibleBelowAll(ms, head, tail, n - 1);
    }
  }

  // ---- the boundaries the code computes -------------------------------------------------------

  function UserIndices(ms: seq<Message>, n: nat): (s: seq<nat>)
    requires n <= |ms|
    ensures |s| == UsersBefore(ms, n)
  {
    if n == 0 then [] else UserIndices(ms, n - 1) + if ms[n - 1].role == USER then [n - 1] else []
  }

  /** The k-th user message is at or before i exactly when i's turn number exceeds k. */
  lemma {:induction false} TurnStarts(ms: seq<Message>, n: nat, k: nat, i: nat)
    requires n <= |ms| && k < UsersBefore(ms, n) && i < n
    ensures UserIndices(ms, n)[k] <= i <==> TurnOf(ms, i) > k
  {
    if k < UsersBefore(ms, n - 1) {
      if i < n - 1 {
        TurnStarts(ms, n - 1, k, i);
      } else {
        IndicesBelow(ms, n - 1, k);
      }
    } else if i < n - 1 {
      UsersMonotone(ms, i + 1, n - 1);
    }
  }

  lemma {:induction false} IndicesBelow(ms: seq<Message>, n: nat, k: nat)
    requires n <= |ms| && k < UsersBefore(ms, n)
    ensures UserIndices(ms, n)[k] < n
  {
    if k < UsersBefore(ms, n - 1) {
      IndicesBelow(ms, n - 1, k);
    }
  }

  lemma {:induction false} UsersMonotone(ms: seq<Message>, m: nat, n: nat)
    requires m <= n <= |ms|
    ensures UsersBefore(ms, m) <= UsersBefore(ms, n)
    decreases n
  {
    if m < n {
      UsersMonotone(ms, m, n - 1);
    }
  }

  /** Being inside [headEnd, tailStart), as the code computes them, is not being protected. */
  predicate Inside(ms: seq<Message>, headEnd: nat, tailStart: nat, head: int, tail: int) {
    forall i :: 0 <= i < |ms| ==> (headEnd <= i < tailStart <==> !Protected(ms, head, tail, i))
  }

  /** Where the protected head ends and the protected tail begins. */
  method Bounds(ms: seq<Message>, userAt: seq<nat>, head: int, tail: int) returns (headEnd: nat, tailStart: nat)
    requires userAt == UserIndices(ms, |ms|)
    ensures Inside(ms, headEnd, tailStart, head, tail)
  {
    tailStart := |ms|;
    if tail > 0 && |userAt| > 0 {
      var k := tail;
      if k > |userAt| {
        k := |userAt|;
      }
      tailStart := userAt[|userAt| - k];
    }
    headEnd := 0;
    if head > 0 && |userAt| > 0 {
      if head >= |userAt| {
        headEnd := tailStart;
      } else {
        headEnd := userAt[head];
      }
    }
    forall i | 0 <= i < |ms|
      ensures headEnd <= i < tailStart <==> !Protected(ms, head, tail, i)
    {
      UsersMonotone(ms, i + 1, |ms|);
      if |userAt| > 0 {
        if tail > 0 {
          TurnStarts(ms, |ms|, |userAt| - Min(tail, |userAt|), i);
        }
        if 0 < head < |userAt| {
          TurnStarts(ms, |ms|, head, i);
        }
      }
    }
  }

  method EligibleToolResults(ms: seq<Message>, keepHead: int, keepTail: int) returns (out: seq<nat>)
    ensures out == EligibleBelow(ms, keepHead, keepTail, |ms|)
  {
    var userAt: seq<nat> := [];
    for i := 0 to |ms|
      invariant userAt == UserIndices(ms, i)
    {
      if ms[i].role == USER {
        userAt := userAt + [i];
      }
    }
    var headEnd, tailStart := Bounds(ms, userAt, keepHead, keepTail);
    out := [];
    for i := 0 to |ms|
      invariant out == EligibleBelow(ms, keepHead, keepTail, i)
    {
      if i < headEnd || i >= tailStart {
        continue;
      }
      if ms[i].role != TOOL {
        continue;
      }
      if |ms[i].content| == 0 {
        continue;
      }
      out := out + [i];
    }
  }
}
