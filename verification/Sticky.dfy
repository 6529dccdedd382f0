/** Sticky comments: one per key on an issue, updated in place, found through a paginated list. */
module Sticky {
  import opened Wrappers
  import opened Text

  datatype Comment = Comment(id: int, body: string)

  // ---- markers --------------------------------------------------------------------------------

  const PREFIX := "<!-- leartech-sticky: "
  const SUFFIX := " -->"

  function Marker(key: string): string { PREFIX + key + SUFFIX }

  function Full(key: string, body: string): string { Marker(key) + "\n" + body }

  predicate OccursAt(s: string, m: string, i: int) { 0 <= i && i + |m| <= |s| && s[i..i + |m|] == m }

  predicate Contains(s: string, m: string) { exists i :: 0 <= i <= |s| && OccursAt(s, m, i) }

  /** A key that cannot be mistaken for the markup around it. */
  predicate CleanKey(key: string) { Without(key, '<') && Without(key, '>') }

  lemma PrefixShape()
    ensures |PREFIX| == 22 && PREFIX[0] == '<' && Without(PREFIX[1..], '<') && Without(PREFIX, '>')
    ensures |SUFFIX| == 4 && Without(SUFFIX, '<') && SUFFIX[3] == '>' && Without(SUFFIX[..3], '>')
  {
    assert PREFIX == ['<', '!', '-', '-', ' ', 'l', 'e', 'a', 'r', 't', 'e', 'c', 'h', '-',
                      's', 't', 'i', 'c', 'k', 'y', ':', ' '];
  }

  /** The only angle bracket that opens in a marked body before its content is the first character. */
  lemma OpensOnlyAtStart(key: string, body: string, i: nat)
    requires CleanKey(key) && 0 < i < |Marker(key)| + 1
    ensures Full(key, body)[i] != '<'
  {
    PrefixShape();
    var full := Full(key, body);
    if i < |PREFIX| {
      assert full[i] == PREFIX[i] == PREFIX[1..][i - 1];
    } else if i < |PREFIX| + |key| {
      assert full[i] == key[i - |PREFIX|];
    } else if i < |Marker(key)| {
      assert full[i] == SUFFIX[i - |PREFIX| - |key|];
    } else {
      assert full[i] == '\n';
    }
  }

  /** Two markers that start the same text are the same marker. */
  lemma MarkersAgree(k1: string, k2: string, body: string)
    requires CleanKey(k1) && CleanKey(k2) && OccursAt(Full(k2, body), Marker(k1), 0)
    ensures k1 == k2
  {
    PrefixShape();
    var full, m := Full(k2, body), Marker(k1);
    assert full[..|m|] == m;
    var at1, at2 := |PREFIX| + |k1| + 3, |PREFIX| + |k2| + 3;
    assert m[at1] == SUFFIX[3] == '>' && full[at2] == SUFFIX[3] == '>';
    if at1 < at2 {
      ClosesFirst(k2, body, at1);
    } else if at2 < at1 {
      ClosesFirst(k1, "", at2);
    }
    assert m[|PREFIX|..|PREFIX| + |k1|] == k1;
    assert full[|PREFIX|..|PREFIX| + |k2|] == k2;
  }

  lemma ClosesFirst(key: string, body: string, i: nat)
    requires CleanKey(key) && i < |PREFIX| + |key| + 3
    ensures Full(key, body)[i] != '>'
  {
    PrefixShape();
    var full := Full(key, body);
    if i < |PREFIX| {
      assert full[i] == PREFIX[i];
    } else if i < |PREFIX| + |key| {
      assert full[i] == key[i - |PREFIX|];
    } else {
      assert full[i] == SUFFIX[i - |PREFIX| - |key|] == SUFFIX[..3][i - |PREFIX| - |key|];
    }
  }

  /** A marked body contains another key's marker only if its content does. */
  lemma MarkerFoundIff(k1: string, k2: string, body: string)
    requires CleanKey(k1) && CleanKey(k2)
    ensures Contains(Full(k2, body), Marker(k1)) <==> k1 == k2 || Contains(body, Marker(k1))
  {
    if Contains(Full(k2, body), Marker(k1)) {
      FoundMarker(k1, k2, body);
    }
    if k1 == k2 {
      assert OccursAt(Full(k2, body), Marker(k1), 0);
    } else if Contains(body, Marker(k1)) {
      MarkerInside(k1, k2, body);
    }
  }

  lemma FoundMarker(k1: string, k2: string, body: string)
    requires CleanKey(k1) && CleanKey(k2) && Contains(Full(k2, body), Marker(k1))
    ensures k1 == k2 || Contains(body, Marker(k1))
  {
    var full, m, d := Full(k2, body), Marker(k1), |Marker(k2)| + 1;
    var i :| 0 <= i <= |full| && OccursAt(full, m, i);
    OpensThere(full, k1, i);
    if 0 < i < d {
      OpensOnlyAtStart(k2, body, i);
    } else if i == 0 {
      MarkersAgree(k1, k2, body);
    } else {
      assert full[d..] == body;
      OccursInSuffix(full, m, d, i);
    }
  }

  lemma OpensThere(s: string, key: string, i: nat)
    requires OccursAt(s, Marker(key), i)
    ensures i < |s| && s[i] == '<'
  {
    PrefixShape();
    assert s[i..i + |Marker(key)|][0] == s[i];
  }

  lemma OccursInSuffix(s: string, m: string, d: nat, i: nat)
    requires d <= i && OccursAt(s, m, i)
    ensures Contains(s[d..], m)
  {
    assert s[d..][i - d..i - d + |m|] == s[i..i + |m|];
    assert OccursAt(s[d..], m, i - d);
  }

  lemma MarkerInside(k1: string, k2: string, body: string)
    requires Contains(body, Marker(k1))
    ensures Contains(Full(k2, body), Marker(k1))
  {
    var full, m, d := Full(k2, body), Marker(k1), |Marker(k2)| + 1;
    var i :| 0 <= i <= |body| && OccursAt(body, m, i);
    assert full[d..] == body;
    assert full[i + d..i + d + |m|] == body[i..i + |m|];
    assert OccursAt(full, m, i + d);
  }

  /** Text with a marker in it has the marker's prefix in it. */
  lemma MarkerShowsPrefix(s: string, key: string)
    ensures Contains(s, Marker(key)) ==> Contains(s, PREFIX)
  {
    if Contains(s, Marker(key)) {
      var i :| 0 <= i <= |s| && OccursAt(s, Marker(key), i);
      assert s[i..i + |PREFIX|] == s[i..i + |Marker(key)|][..|PREFIX|] == PREFIX;
      assert OccursAt(s, PREFIX, i);
    }
  }

  // ---- one upsert -----------------------------------------------------------------------------

  /** The first comment carrying the marker, or the number of comments. */
  function Find(cs: seq<Comment>, marker: string): (i: nat)
    ensures i <= |cs|
    ensures i < |cs| ==> Contains(cs[i].body, marker)
    ensures forall j :: 0 <= j < i ==> !Contains(cs[j].body, marker)
  {
    if cs == [] || Contains(cs[0].body, marker) then 0
    else
      var i := Find(cs[1..], marker);
      assert forall j :: 0 < j < i + 1 ==> cs[j] == cs[1..][j - 1];
      i + 1
  }

  function Upsert(cs: seq<Comment>, next: int, key: string, body: string): seq<Comment> {
    var i := Find(cs, Marker(key));
    if i < |cs| then cs[i := Comment(cs[i].id, Full(key, body))] else cs + [Comment(next, Full(key, body))]
  }

  // ---- what the comments stand for ------------------------------------------------------------

  predicate Unmarked(s: string) { !Contains(s, PREFIX) }

  /** Keys without angle brackets, and contents that do not quote the marker's prefix. */
  type Key = k: string | CleanKey(k) witness ""
  type Content = s: string | Unmarked(s) witness ""

  datatype Slot = Foreign(comment: Comment) | Own(id: int, key: Key)

  predicate ShowsSlot(c: Comment, slot: Slot, bodies: map<Key, Content>) {
    match slot
    case Foreign(f) => c == f
    case Own(id, key) => key in bodies && c == Comment(id, Full(key, bodies[key]))
  }

  predicate OwnedBy(slot: Slot, key: Key) { slot.Own? && slot.key == key }

  /** The comment list is: foreign comments, and one comment per key with the body last put there. */
  ghost predicate Shows(cs: seq<Comment>, slots: seq<Slot>, bodies: map<Key, Content>) {
    && |cs| == |slots|
    && (forall i :: 0 <= i < |slots| ==> ShowsSlot(cs[i], slots[i], bodies))
    && (forall i, j :: 0 <= i < j < |slots| && slots[i].Own? ==> !OwnedBy(slots[j], slots[i].key))
    && (forall k :: k in bodies ==> exists i :: 0 <= i < |slots| && OwnedBy(slots[i], k))
  }

  /** No foreign comment quotes the key's marker. */
  predicate Unquoted(slots: seq<Slot>, key: Key) {
    forall i :: 0 <= i < |slots| && slots[i].Foreign? ==> !Contains(slots[i].comment.body, Marker(key))
  }

  /** Only the slot that is the key's own carries its marker. */
  lemma MarkerIsOwn(c: Comment, slot: Slot, bodies: map<Key, Content>, key: Key)
    requires ShowsSlot(c, slot, bodies) && (slot.Foreign? ==> !Contains(slot.comment.body, Marker(key)))
    ensures Contains(c.body, Marker(key)) <==> OwnedBy(slot, key)
  {
    match slot
    case Foreign(_) =>
    case Own(_, k) =>
      MarkerFoundIff(key, k, bodies[k]);
      MarkerShowsPrefix(bodies[k], key);
  }

  function Slots(slots: seq<Slot>, bodies: map<Key, Content>, next: int, key: Key): seq<Slot> {
    if key in bodies then slots else slots + [Own(next, key)]
  }

  /** One upsert changes the key's own comment, or adds it at the end; every other comment stays. */
  lemma UpsertRefines(cs: seq<Comment>, slots: seq<Slot>, bodies: map<Key, Content>, next: int, key: Key, body: Content)
    requires Shows(cs, slots, bodies) && Unquoted(slots, key)
    ensures Shows(Upsert(cs, next, key, body), Slots(slots, bodies, next, key), bodies[key := body])
  {
    var i := Find(cs, Marker(key));
    forall j | 0 <= j < |cs|
      ensures Contains(cs[j].body, Marker(key)) <==> OwnedBy(slots[j], key)
    {
      MarkerIsOwn(cs[j], slots[j], bodies, key);
    }
    if i < |cs| {
      UpdateShows(cs, slots, bodies, i, key, body);
    } else {
      assert key !in bodies;
      CreateShows(cs, slots, bodies, next, key, body);
    }
  }

  lemma UpdateShows(cs: seq<Comment>, slots: seq<Slot>, bodies: map<Key, Content>, i: nat, key: Key, body: Content)
    requires Shows(cs, slots, bodies) && i < |cs| && OwnedBy(slots[i], key)
    ensures key in bodies && Shows(cs[i := Comment(cs[i].id, Full(key, body))], slots, bodies[key := body])
  {
    assert ShowsSlot(cs[i], slots[i], bodies);
    var cs', bodies' := cs[i := Comment(cs[i].id, Full(key, body))], bodies[key := body];
    forall j | 0 <= j < |slots|
      ensures ShowsSlot(cs'[j], slots[j], bodies')
    {
      assert ShowsSlot(cs[j], slots[j], bodies);
      assert j < i ==> slots[j].Own? ==> !OwnedBy(slots[i], slots[j].key);
      assert j > i ==> !OwnedBy(slots[j], slots[i].key);
    }
    forall k | k in bodies'
      ensures exists j :: 0 <= j < |slots| && OwnedBy(slots[j], k)
    {
      assert k in bodies;
    }
  }

  lemma CreateShows(cs: seq<Comment>, slots: seq<Slot>, bodies: map<Key, Content>, next: int, key: Key, body: Content)
    requires Shows(cs, slots, bodies) && key !in bodies
    ensures Shows(cs + [Comment(next, Full(key, body))], slots + [Own(next, key)], bodies[key := body])
  {
    var slots', bodies' := slots + [Own(next, key)], bodies[key := body];
    forall j | 0 <= j < |slots'|
      ensures ShowsSlot((cs + [Comment(next, Full(key, body))])[j], slots'[j], bodies')
    {
      if j < |slots| {
        assert ShowsSlot(cs[j], slots[j], bodies);
      }
    }
    forall i, j | 0 <= i < j < |slots'| && slots'[i].Own?
      ensures !OwnedBy(slots'[j], slots'[i].key)
    {
      assert ShowsSlot(cs[i], slots[i], bodies);
    }
    forall k | k in bodies'
      ensures exists j :: 0 <= j < |slots'| && OwnedBy(slots'[j], k)
    {
      if k == key {
        assert OwnedBy(slots'[|slots|], k);
      } else {
        var j :| 0 <= j < |slots| && OwnedBy(slots[j], k);
        assert OwnedBy(slots'[j], k);
      }
    }
  }

  // ---- any sequence of upserts ----------------------------------------------------------------

  datatype Op = Op(key: Key, body: Content)

  /** The comments of an issue and the id the next one gets. */
  datatype Issue = Issue(comments: seq<Comment>, next: int)

  /** One upsert; it draws an id when it creates a comment. */
  function Put(issue: Issue, op: Op): Issue {
    var after := Upsert(issue.comments, issue.next, op.key, op.body);
    Issue(after, issue.next + |after| - |issue.comments|)
  }

  function PutAll(issue: Issue, ops: seq<Op>): Issue
    decreases |ops|
  {
    if ops == [] then issue else PutAll(Put(issue, ops[0]), ops[1..])
  }

  /** What an issue stands for. */
  datatype Board = Board(slots: seq<Slot>, bodies: map<Key, Content>)

  function Note(b: Board, next: int, op: Op): Board {
    Board(Slots(b.slots, b.bodies, next, op.key), b.bodies[op.key := op.body])
  }

  function LastBodies(bodies: map<Key, Content>, ops: seq<Op>): map<Key, Content>
    decreases |ops|
  {
    if ops == [] then bodies else LastBodies(bodies[ops[0].key := ops[0].body], ops[1..])
  }

  ghost predicate Shown(issue: Issue, b: Board) { Shows(issue.comments, b.slots, b.bodies) }

  lemma PutRefines(issue: Issue, b: Board, op: Op)
    requires Shown(issue, b) && Unquoted(b.slots, op.key)
    ensures Shown(Put(issue, op), Note(b, issue.next, op)) && Grown(b.slots, Note(b, issue.next, op).slots)
  {
    UpsertRefines(issue.comments, b.slots, b.bodies, issue.next, op.key, op.body);
  }

  /** Slots only ever grow, and only by own ones. */
  predicate Grown(slots: seq<Slot>, slots': seq<Slot>) {
    slots <= slots' && forall i :: |slots| <= i < |slots'| ==> slots'[i].Own?
  }

  lemma GrownTransitive(a: seq<Slot>, b: seq<Slot>, c: seq<Slot>)
    requires Grown(a, b) && Grown(b, c)
    ensures Grown(a, c)
  {
  }

  lemma GrownUnquoted(a: seq<Slot>, b: seq<Slot>, key: Key)
    requires Grown(a, b) && Unquoted(a, key)
    ensures Unquoted(b, key)
  {
  }

  lemma {:induction false} PutAllRefines(issue: Issue, b: Board, ops: seq<Op>) returns (c: Board)
    requires Shown(issue, b) && forall i :: 0 <= i < |ops| ==> Unquoted(b.slots, ops[i].key)
    ensures Shown(PutAll(issue, ops), c) && Grown(b.slots, c.slots) && c.bodies == LastBodies(b.bodies, ops)
    decreases |ops|
  {
    if ops == [] {
      c := b;
    } else {
      var d := Note(b, issue.next, ops[0]);
      PutRefines(issue, b, ops[0]);
      forall i | 0 <= i < |ops[1..]|
        ensures Unquoted(d.slots, ops[1..][i].key)
      {
        GrownUnquoted(b.slots, d.slots, ops[i + 1].key);
      }
      c := PutAllRefines(Put(issue, ops[0]), d, ops[1..]);
      GrownTransitive(b.slots, d.slots, c.slots);
    }
  }

  predicate OnlyAt(cs: seq<Comment>, i: nat, key: Key) {
    i < |cs| && forall j :: 0 <= j < |cs| ==> (Contains(cs[j].body, Marker(key)) <==> j == i)
  }

  /** Exactly one comment of the list, not before `from`, answers to the key, and it shows this body. */
  predicate OneFor(cs: seq<Comment>, from: nat, key: Key, body: Content) {
    exists i :: from <= i < |cs| && OnlyAt(cs, i, key) && cs[i].body == Full(key, body)
  }

  lemma ShownOnce(cs: seq<Comment>, slots: seq<Slot>, bodies: map<Key, Content>, from: nat, key: Key)
    requires Shows(cs, slots, bodies) && key in bodies && Unquoted(slots, key)
    requires from <= |slots| && forall i :: 0 <= i < from ==> slots[i].Foreign?
    ensures OneFor(cs, from, key, bodies[key])
  {
    var i :| 0 <= i < |slots| && OwnedBy(slots[i], key);
    assert ShowsSlot(cs[i], slots[i], bodies);
    forall j | 0 <= j < |cs|
      ensures Contains(cs[j].body, Marker(key)) <==> j == i
    {
      MarkerIsOwn(cs[j], slots[j], bodies, key);
      assert j < i && slots[j].Own? ==> !OwnedBy(slots[i], slots[j].key);
    }
    assert OnlyAt(cs, i, key);
  }

  predicate Holds(c: Comment, key: Key, bodies: map<Key, Content>) {
    key in bodies && c.body == Full(key, bodies[key])
  }

  ghost predicate Owned(c: Comment, bodies: map<Key, Content>) { exists k: Key :: Holds(c, k, bodies) }

  /** Every comment beyond the foreign ones is some key's. */
  ghost predicate AllOwned(cs: seq<Comment>, from: nat, bodies: map<Key, Content>) {
    forall i :: from <= i < |cs| ==> Owned(cs[i], bodies)
  }

  lemma ShownOwned(cs: seq<Comment>, slots: seq<Slot>, bodies: map<Key, Content>, from: nat)
    requires Shows(cs, slots, bodies) && forall i :: from <= i < |slots| ==> slots[i].Own?
    ensures AllOwned(cs, from, bodies)
  {
    forall i | from <= i < |cs|
      ensures Owned(cs[i], bodies)
    {
      assert ShowsSlot(cs[i], slots[i], bodies);
      assert Holds(cs[i], slots[i].key, bodies);
    }
  }

  lemma ShownForeign(cs: seq<Comment>, slots: seq<Slot>, bodies: map<Key, Content>, foreign: seq<Comment>)
    requires Shows(cs, slots, bodies) && |foreign| <= |slots|
    requires forall i :: 0 <= i < |foreign| ==> slots[i] == Foreign(foreign[i])
    ensures foreign <= cs
  {
    forall i | 0 <= i < |foreign|
      ensures cs[i] == foreign[i]
    {
      assert ShowsSlot(cs[i], slots[i], bodies);
    }
  }

  /** Before any upsert the list shows its foreign comments and no key. */
  function AllForeign(foreign: seq<Comment>): seq<Slot> {
    seq(|foreign|, i requires 0 <= i < |foreign| => Foreign(foreign[i]))
  }

  /** No comment quotes the marker of a key these upserts use. */
  predicate QuotesNone(cs: seq<Comment>, ops: seq<Op>) {
    forall i, j :: 0 <= i < |cs| && 0 <= j < |ops| ==> !Contains(cs[i].body, Marker(ops[j].key))
  }

  /**
   * From a list of comments none of which quotes the marker of a key used, any sequence of upserts
   * leaves those comments as they were, in front, and after them exactly one comment for each key used,
   * holding the last body given for it.
   */
  lemma StickiesAreAMap(foreign: seq<Comment>, next: int, ops: seq<Op>)
    requires QuotesNone(foreign, ops)
    ensures var cs := PutAll(Issue(foreign, next), ops).comments; var bodies := LastBodies(map[], ops);
      && foreign <= cs && AllOwned(cs, |foreign|, bodies)
      && forall k :: k in bodies ==> OneFor(cs, |foreign|, k, bodies[k])
  {
    ForeignShows(foreign);
    ForeignUnquoted(foreign, ops);
    var c := PutAllRefines(Issue(foreign, next), Board(AllForeign(foreign), map[]), ops);
    forall k | k in c.bodies
      ensures Unquoted(c.slots, k)
    {
      BodiesAreUsed(map[], ops, k);
      GrownUnquoted(AllForeign(foreign), c.slots, k);
    }
    StickiesShown(PutAll(Issue(foreign, next), ops).comments, c.slots, c.bodies, foreign);
  }

  lemma ForeignUnquoted(foreign: seq<Comment>, ops: seq<Op>)
    requires QuotesNone(foreign, ops)
    ensures forall j :: 0 <= j < |ops| ==> Unquoted(AllForeign(foreign), ops[j].key)
  {
  }

  lemma {:induction false} BodiesAreUsed(bodies: map<Key, Content>, ops: seq<Op>, k: Key)
    requires k in LastBodies(bodies, ops)
    ensures k in bodies || exists j :: 0 <= j < |ops| && ops[j].key == k
    decreases |ops|
  {
    if ops != [] {
      BodiesAreUsed(bodies[ops[0].key := ops[0].body], ops[1..], k);
      if j :| 0 <= j < |ops[1..]| && ops[1..][j].key == k {
        assert ops[j + 1].key == k;
      } else if k !in bodies {
        assert ops[0].key == k;
      }
    }
  }

  lemma ForeignShows(foreign: seq<Comment>)
    ensures Shows(foreign, AllForeign(foreign), map[])
  {
  }

  lemma StickiesShown(cs: seq<Comment>, slots': seq<Slot>, bodies: map<Key, Content>, foreign: seq<Comment>)
    requires Shows(cs, slots', bodies) && Grown(AllForeign(foreign), slots')
    requires forall k :: k in bodies ==> Unquoted(slots', k)
    ensures foreign <= cs && AllOwned(cs, |foreign|, bodies)
    ensures forall k :: k in bodies ==> OneFor(cs, |foreign|, k, bodies[k])
  {
    ForeignStay(slots', foreign);
    ShownForeign(cs, slots', bodies, foreign);
    ShownOwned(cs, slots', bodies, |foreign|);
    forall k | k in bodies
      ensures OneFor(cs, |foreign|, k, bodies[k])
    {
      ShownOnce(cs, slots', bodies, |foreign|, k);
    }
  }

  lemma ForeignStay(slots': seq<Slot>, foreign: seq<Comment>)
    requires Grown(AllForeign(foreign), slots')
    ensures |foreign| <= |slots'| && forall i :: 0 <= i < |foreign| ==> slots'[i] == Foreign(foreign[i])
    ensures forall i :: |foreign| <= i < |slots'| ==> slots'[i].Own?
  {
    forall i | 0 <= i < |foreign|
      ensures slots'[i] == Foreign(foreign[i])
    {
      assert slots'[i] == AllForeign(foreign)[i];
    }
  }

  // ---- comments that quote a marker -----------------------------------------------------------

  /** What an upsert writes. */
  function Written(op: Op): string { Full(op.key, op.body) }

  /** The text is what one of these upserts writes. */
  predicate WrittenBy(s: string, ops: seq<Op>) { exists j :: 0 <= j < |ops| && s == Written(ops[j]) }

  /** An upsert leaves a comment alone or writes it. */
  lemma PutWrites(issue: Issue, op: Op)
    ensures var after := Put(issue, op).comments;
      |issue.comments| <= |after| && forall p :: 0 <= p < |issue.comments| ==>
        after[p] == issue.comments[p] || after[p].body == Written(op)
  {
  }

  /** Once written, a comment always holds what one of the upserts wrote. */
  lemma {:induction false} StaysWritten(issue: Issue, ops: seq<Op>, done: seq<Op>, p: nat)
    requires p < |issue.comments| && WrittenBy(issue.comments[p].body, done)
    ensures var after := PutAll(issue, ops).comments; p < |after| && WrittenBy(after[p].body, done + ops)
    decreases |ops|
  {
    if ops == [] {
      assert done + ops == done;
    } else {
      PutWrites(issue, ops[0]);
      var more := done + [ops[0]];
      assert more[|done|] == ops[0];
      var s := Put(issue, ops[0]).comments[p].body;
      if s == issue.comments[p].body {
        var j :| 0 <= j < |done| && s == Written(done[j]);
        assert s == Written(more[j]);
      }
      StaysWritten(Put(issue, ops[0]), ops[1..], more, p);
      assert more + ops[1..] == done + ops;
    }
  }

  /** The first key quoted takes a foreign comment over, and it is never given back. */
  lemma {:induction false} QuotedIsTaken(foreign: seq<Comment>, issue: Issue, done: seq<Op>, ops: seq<Op>)
    requires foreign <= issue.comments && !QuotesNone(foreign, ops)
    ensures var after := PutAll(issue, ops).comments;
      |foreign| <= |after| && exists p :: 0 <= p < |foreign| && WrittenBy(after[p].body, done + ops)
    decreases |ops|
  {
    var op, rest := ops[0], ops[1..];
    var after := Put(issue, op).comments;
    var p := Find(issue.comments, Marker(op.key));
    PutAllGrows(Put(issue, op), rest);
    assert (done + [op]) + rest == done + ops && (done + [op])[|done|] == op;
    if p < |foreign| {
      assert after[p].body == Written(op);
      StaysWritten(Put(issue, op), rest, done + [op], p);
    } else {
      QuotedLater(foreign, issue.comments, ops);
      assert foreign <= after;
      QuotedIsTaken(foreign, Put(issue, op), done + [op], rest);
    }
  }

  /** If no foreign comment quotes the first key, one quotes a later one. */
  lemma QuotedLater(foreign: seq<Comment>, cs: seq<Comment>, ops: seq<Op>)
    requires foreign <= cs && ops != [] && !QuotesNone(foreign, ops) && Find(cs, Marker(ops[0].key)) >= |foreign|
    ensures !QuotesNone(foreign, ops[1..])
  {
    var i, j :| 0 <= i < |foreign| && 0 <= j < |ops| && Contains(foreign[i].body, Marker(ops[j].key));
    assert foreign[i] == cs[i];
    assert j > 0 && ops[1..][j - 1] == ops[j];
  }

  lemma {:induction false} PutAllGrows(issue: Issue, ops: seq<Op>)
    ensures |issue.comments| <= |PutAll(issue, ops).comments|
    decreases |ops|
  {
    if ops != [] {
      PutWrites(issue, ops[0]);
      PutAllGrows(Put(issue, ops[0]), ops[1..]);
    }
  }

  /**
   * Comments the upserts did not write are left as they were if and only if none of them quotes the
   * marker of a key used: the first that is quoted takes over the first comment quoting it.
   */
  lemma ForeignKeptIff(foreign: seq<Comment>, next: int, ops: seq<Op>)
    requires forall i :: 0 <= i < |foreign| ==> !WrittenBy(foreign[i].body, ops)
    ensures foreign <= PutAll(Issue(foreign, next), ops).comments <==> QuotesNone(foreign, ops)
  {
    if QuotesNone(foreign, ops) {
      StickiesAreAMap(foreign, next, ops);
    } else {
      QuotedIsTaken(foreign, Issue(foreign, next), [], ops);
      assert [] + ops == ops;
    }
  }

  // ---- the forge ------------------------------------------------------------------------------

  const PER_PAGE := 100

  function Min(a: int, b: int): int { if a < b then a else b }

  /** One page of a list, empty past its end. */
  function Page(cs: seq<Comment>, page: nat): seq<Comment>
    requires page >= 1
  {
    cs[Min(PER_PAGE * (page - 1), |cs|)..Min(PER_PAGE * page, |cs|)]
  }

  predicate DistinctIDs(cs: seq<Comment>, next: int) {
    && (forall i :: 0 <= i < |cs| ==> cs[i].id < next)
    && (forall i, j :: 0 <= i < j < |cs| ==> cs[i].id != cs[j].id)
  }

  /** The list with the body of one comment replaced. */
  function Edited(cs: seq<Comment>, id: int, body: string): seq<Comment> {
    seq(|cs|, i requires 0 <= i < |cs| => if cs[i].id == id then Comment(id, body) else cs[i])
  }

  predicate HasID(cs: seq<Comment>, id: int) { exists i :: 0 <= i < |cs| && cs[i].id == id }

  datatype StickyError = ListFailed | UpdateFailed(id: int) | CreateFailed

  /** The issue's comments as the forge keeps them; the n-th request succeeds when `answers(n)`. */
  class Forge {
    const answers: nat -> bool
    var comments: seq<Comment>
    var next: int
    var requests: nat

    constructor (answers: nat -> bool)
      ensures comments == [] && requests == 0 && Valid()
    {
      this.answers := answers;
      comments, next, requests := [], 1, 0;
    }

    ghost predicate Valid()
      reads this
    {
      DistinctIDs(comments, next)
    }

    method GetPage(page: nat) returns (r: Result<seq<Comment>, ()>)
      requires page >= 1
      modifies this`requests
      ensures requests == old(requests) + 1
      ensures r == if answers(old(requests)) then Ok(Page(comments, page)) else Err(())
    {
      requests := requests + 1;
      r := if answers(requests - 1) then Ok(Page(comments, page)) else Err(());
    }

    /** Asks for page after page until one is short; every comment, in order, or nothing. */
    method ListIssueComments() returns (r: Result<seq<Comment>, ()>)
      modifies this`requests
      ensures r.Ok? ==> r.value == comments
      ensures r.Err? <==> exists n :: old(requests) <= n < requests && !answers(n)
      ensures r.Ok? ==> requests == old(requests) + |comments| / PER_PAGE + 1
    {
      var out := [];
      var page := 1;
      while true
        invariant page >= 1 && PER_PAGE * (page - 1) <= |comments|
        invariant out == comments[..PER_PAGE * (page - 1)]
        invariant requests == old(requests) + page - 1
        invariant forall n :: old(requests) <= n < requests ==> answers(n)
        decreases |comments| - PER_PAGE * (page - 1)
      {
        var batch := GetPage(page);
        if batch.Err? {
          assert !answers(requests - 1);
          return Err(());
        }
        out := out + batch.value;
        if |batch.value| < PER_PAGE {
          return Ok(out);
        }
        page := page + 1;
      }
    }

    method UpdateIssueComment(id: int, body: string) returns (r: Result<Comment, ()>)
      requires Valid()
      modifies this`requests, this`comments
      ensures Valid() && requests == old(requests) + 1
      ensures r.Ok? <==> answers(old(requests)) && HasID(old(comments), id)
      ensures r.Err? ==> comments == old(comments)
      ensures r.Ok? ==> r.value == Comment(id, body) && comments == Edited(old(comments), id, body)
    {
      requests := requests + 1;
      if !answers(requests - 1) || !HasID(comments, id) {
        return Err(());
      }
      comments := Edited(comments, id, body);
      r := Ok(Comment(id, body));
    }

    method CreateIssueComment(body: string) returns (r: Result<Comment, ()>)
      requires Valid()
      modifies this`requests, this`comments, this`next
      ensures Valid() && requests == old(requests) + 1
      ensures r.Ok? <==> answers(old(requests))
      ensures r.Err? ==> comments == old(comments) && next == old(next)
      ensures r.Ok? ==>
        r.value == Comment(old(next), body) && comments == old(comments) + [r.value] && next == old(next) + 1
    {
      requests := requests + 1;
      if !answers(requests - 1) {
        return Err(());
      }
      r := Ok(Comment(next, body));
      comments := comments + [r.value];
      next := next + 1;
    }
  }

  /** Posts a body under a key, or edits the comment already carrying the key's marker. */
  method UpsertSticky(f: Forge, key: string, body: string) returns (r: Result<Comment, StickyError>)
    requires f.Valid()
    modifies f
    ensures f.Valid()
    ensures r.Err? ==> f.comments == old(f.comments) && f.next == old(f.next)
    ensures r.Ok? ==>
      && f.comments == Upsert(old(f.comments), old(f.next), key, body)
      && f.next == old(f.next) + |f.comments| - |old(f.comments)|
      && r.value in f.comments && r.value.body == "<!-- leartech-sticky: " + key + " -->" + "\n" + body
    ensures r.Err? <==> exists n :: old(f.requests) <= n < f.requests && !f.answers(n)
  {
    var marker := Marker(key);
    var full := marker + "\n" + body;
    var listed := f.ListIssueComments();
    if listed.Err? {
      return Err(ListFailed);
    }
    var existing := listed.value;
    ghost var found := Find(existing, marker);
    for i := 0 to |existing|
      invariant i <= found
      invariant f.Valid() && f.comments == existing == old(f.comments) && f.next == old(f.next)
      invariant forall n :: old(f.requests) <= n < f.requests ==> f.answers(n)
    {
      if Contains(existing[i].body, marker) {
        var updated := f.UpdateIssueComment(existing[i].id, full);
        if updated.Err? {
          assert !f.answers(f.requests - 1);
          return Err(UpdateFailed(existing[i].id));
        }
        assert f.comments == Upsert(existing, f.next, key, body);
        assert f.comments[i] == updated.value;
        return Ok(updated.value);
      }
    }
    var created := f.CreateIssueComment(full);
    if created.Err? {
      assert !f.answers(f.requests - 1);
      return Err(CreateFailed);
    }
    r := Ok(created.value);
  }
}
