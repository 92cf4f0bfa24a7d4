/**
 Branches made before the branch message was recorded: their boundary is the time they were made,
 but the window of rows that is read is not bounded by it. What a later message in such a parent
 does to the inherited history and documents, exactly.
 */
module OldBranches {
  import opened BranchContext
  import opened BranchLineage
  import opened HistoryBudget
  import opened MessageRows
  import opened Sequences
  import opened Text
  import opened Wrappers

  // ------------------------------------------------------------------ the window of an old segment

  /** What an old branch, bounded by a time, contributes. */
  function OldSegment(s: Partition, upto: int, limit: nat): seq<Row> {
    Filtered(Filtered(History(s, limit, None), InTime(upto)), Usable)
  }

  predicate Contributes(m: Row, upto: int) {
    m.status != Deleted && m.created <= upto && Usable(m)
  }

  lemma OneRow(x: Row, upto: int)
    ensures Filtered(Filtered(Live([x]), InTime(upto)), Usable) == if Contributes(x, upto) then [x] else []
  {
    hide Usable;
    var live := if x.status == Deleted then [] else [x];
    assert Live([x]) == live;
    var timely := if x.status == Deleted || x.created > upto then [] else [x];
    assert live[..0] == [] && Filtered(live, InTime(upto)) == timely;
    assert timely[..0] == [];
  }

  /** What is kept of a list of rows, newest first. */
  function Kept(rows: seq<Row>, upto: int): seq<Row> {
    Filtered(Filtered(Live(rows), InTime(upto)), Usable)
  }

  lemma KeptOne(x: Row, upto: int)
    ensures Kept([x], upto) == if Contributes(x, upto) then [x] else []
    ensures x.created > upto ==> Kept([x], upto) == []
  {
    OneRow(x, upto);
  }

  lemma KeptConcat(a: seq<Row>, b: seq<Row>, upto: int)
    ensures Kept(a + b, upto) == Kept(a, upto) + Kept(b, upto)
  {
    hide Usable, InTime, Live, Filtered;
    LiveConcat(a, b);
    FilteredConcat(Live(a), Live(b), InTime(upto));
    FilteredConcat(Filtered(Live(a), InTime(upto)), Filtered(Live(b), InTime(upto)), Usable);
  }

  lemma OldSegmentIsKept(s: Partition, upto: int, limit: nat)
    ensures OldSegment(s, upto, limit) == Kept(Clip(s, limit), upto)
  {
    hide Usable, InTime, Live, Filtered;
    assert Below(s, None) == s;
  }

  lemma OldSegmentOf(s: Partition, upto: int, limit: nat)
    requires 0 < limit
    ensures limit <= |s| ==>
      OldSegment(s, upto, limit) ==
        OldSegment(s, upto, limit - 1) + (if Contributes(s[limit - 1], upto) then [s[limit - 1]] else [])
    ensures limit > |s| ==> OldSegment(s, upto, limit) == OldSegment(s, upto, limit - 1)
  {
    hide OldSegment, Kept, Contributes;
    OldSegmentIsKept(s, upto, limit);
    OldSegmentIsKept(s, upto, limit - 1);
    if limit <= |s| {
      var x := s[limit - 1];
      KeptConcat(Clip(s, limit - 1), [x], upto);
      KeptOne(x, upto);
      assert Clip(s, limit) == Clip(s, limit - 1) + [x];
    }
  }

  /** A newer message is outside the time bound but inside the window. */
  lemma NewerTakesAPlace(s: Partition, upto: int, limit: nat, row: Row)
    requires 0 < limit && (s == [] || s[0].id < row.id) && row.created > upto
    ensures OldSegment(Put(s, row), upto, limit) == OldSegment(s, upto, limit - 1)
  {
    hide OldSegment, Kept, Contributes;
    OldSegmentIsKept(Put(s, row), upto, limit);
    OldSegmentIsKept(s, upto, limit - 1);
    KeptConcat([row], Clip(s, limit - 1), upto);
    KeptOne(row, upto);
    assert Clip(Put(s, row), limit) == [row] + Clip(s, limit - 1);
  }

  // ------------------------------------------------------------------ the lineage around it

  /** The segment of an old branch. */
  predicate IsOld(seg: Segment, upto: int) {
    seg.uptoMessage.None? && seg.uptoTime == Some(upto)
  }

  lemma OldMessages(store: Store, seg: Segment, upto: int, limit: nat)
    requires IsOld(seg, upto)
    ensures SegmentMessages(store, seg, limit) == OldSegment(RowsIn(store, seg.conversation), upto, limit)
  {
  }

  /** None of the segments is of this conversation. */
  predicate Elsewhere(segs: seq<Segment>, c: nat) {
    forall i :: 0 <= i < |segs| ==> segs[i].conversation != c
  }

  /** In a lineage the other segments always are. */
  lemma OthersAreElsewhere(db: Catalog, conv: Conversation, lineage: Lineage, i: nat)
    requires IsLineage(db, conv, Reversed(lineage.segments), lineage.truncated) && i < |lineage.segments|
    ensures var c := lineage.segments[i].conversation;
            Elsewhere(lineage.segments[..i], c) && Elsewhere(lineage.segments[i + 1..], c)
  {
    var chain := Reversed(lineage.segments);
    forall j | 0 <= j < |chain| && j != i ensures lineage.segments[j].conversation != lineage.segments[i].conversation {
      var a, b := |chain| - 1 - j, |chain| - 1 - i;
      assert chain[a] == lineage.segments[j] && chain[b] == lineage.segments[i];
      AncestorsAreDistinct(db, conv, chain, lineage.truncated, if a < b then a else b, if a < b then b else a);
    }
  }

  lemma {:induction false} AllTurnsConcat(store: Store, a: seq<Segment>, b: seq<Segment>)
    ensures AllTurns(store, a + b) == AllTurns(store, a) + AllTurns(store, b)
  {
    hide SegmentTurns;
    if b == [] {
      assert a + b == a;
    } else {
      AllTurnsConcat(store, a, b[..|b| - 1]);
      assert (a + b)[..|a + b| - 1] == a + b[..|b| - 1];
      var last := SegmentTurns(store, b[|b| - 1]);
      assert AllTurns(store, a) + AllTurns(store, b[..|b| - 1]) + last == AllTurns(store, a) + (AllTurns(store, b[..|b| - 1]) + last);
    }
  }

  lemma {:induction false} AllFilesConcat(store: Store, a: seq<Segment>, b: seq<Segment>)
    ensures AllFiles(store, a + b) == AllFiles(store, a) + AllFiles(store, b)
  {
    hide SegmentFiles;
    if b == [] {
      assert a + b == a;
    } else {
      AllFilesConcat(store, a, b[..|b| - 1]);
      assert (a + b)[..|a + b| - 1] == a + b[..|b| - 1];
      var last := SegmentFiles(store, b[|b| - 1]);
      assert AllFiles(store, a) + AllFiles(store, b[..|b| - 1]) + last == AllFiles(store, a) + (AllFiles(store, b[..|b| - 1]) + last);
    }
  }

  /** A write to one conversation changes nothing for segments of others. */
  lemma {:induction false} ElsewhereIsSame(store: Store, w: Write, segs: seq<Segment>)
    requires Elsewhere(segs, w.conversation)
    ensures AllTurns(Written(store, w), segs) == AllTurns(store, segs)
    ensures AllFiles(Written(store, w), segs) == AllFiles(store, segs)
  {
    if segs != [] {
      var last := segs[|segs| - 1];
      assert RowsIn(Written(store, w), last.conversation) == RowsIn(store, last.conversation);
      SameRows(Written(store, w), store, last);
      hide SegmentTurns, SegmentFiles;
      ElsewhereIsSame(store, w, segs[..|segs| - 1]);
    }
  }

  lemma SameRows(a: Store, b: Store, seg: Segment)
    requires RowsIn(a, seg.conversation) == RowsIn(b, seg.conversation)
    ensures SegmentTurns(a, seg) == SegmentTurns(b, seg) && SegmentFiles(a, seg) == SegmentFiles(b, seg)
  {
    forall limit: nat ensures SegmentRows(a, seg, limit) == SegmentRows(b, seg, limit) {
    }
    hide SegmentRows, FilesOfAll, UsableTurns;
  }

  lemma {:induction false} TurnsOf(c: nat, rows: seq<Row>, t: Turn)
    requires t in UsableTurns(c, rows, MAX_MESSAGE_CHARS)
    ensures t.conversation == c && exists m :: m in rows && m.id == t.messageId
  {
    var front, last := rows[..|rows| - 1], rows[|rows| - 1];
    if t in UsableTurns(c, front, MAX_MESSAGE_CHARS) {
      TurnsOf(c, front, t);
      var m :| m in front && m.id == t.messageId;
      assert m in rows;
    } else {
      assert last in rows;
    }
  }

  lemma {:induction false} TurnsElsewhere(store: Store, segs: seq<Segment>, c: nat, t: Turn)
    requires Elsewhere(segs, c) && t in AllTurns(store, segs)
    ensures t.conversation != c
  {
    hide SegmentMessages;
    var front, last := segs[..|segs| - 1], segs[|segs| - 1];
    if t in AllTurns(store, front) {
      TurnsElsewhere(store, front, c, t);
    } else {
      TurnsOf(last.conversation, SegmentMessages(store, last, MAX_MESSAGES * 2), t);
    }
  }

  lemma {:induction false} FilesAre(seg: Segment, rows: seq<Row>, d: Document)
    requires d in FilesOfAll(seg, rows)
    ensures d.conversation == seg.conversation && exists m :: m in rows && m.id == d.message
  {
    var front, last := rows[..|rows| - 1], rows[|rows| - 1];
    if d in FilesOfAll(seg, front) {
      FilesAre(seg, front, d);
      var m :| m in front && m.id == d.message;
      assert m in rows;
    } else {
      assert last in rows;
    }
  }

  lemma {:induction false} FilesElsewhere(store: Store, segs: seq<Segment>, c: nat, d: Document)
    requires Elsewhere(segs, c) && d in AllFiles(store, segs)
    ensures d.conversation != c
  {
    hide SegmentMessages, Reversed;
    var front, last := segs[..|segs| - 1], segs[|segs| - 1];
    if d in AllFiles(store, front) {
      FilesElsewhere(store, front, c, d);
    } else {
      FilesAre(last, Reversed(SegmentMessages(store, last, SCAN_PER_SEGMENT)), d);
    }
  }

  // ------------------------------------------------------------------ the inherited history

  /** The candidates of the nearer segments, and of the part of the old one that the new message leaves in the window. */
  function Nearer(store: Store, nearestFirst: seq<Segment>, seg: Segment, upto: int): seq<Turn> {
    AllTurns(store, nearestFirst) +
    UsableTurns(seg.conversation, OldSegment(RowsIn(store, seg.conversation), upto, MAX_MESSAGES * 2 - 1), MAX_MESSAGE_CHARS)
  }

  /** One more element is within the budgets. */
  predicate GoesFurther(ts: seq<Turn>, n: nat) {
    n < |ts| && Fits(ts[..n + 1], MAX_MESSAGES, MAX_CHARS)
  }

  lemma LongestGoesFurther(ts: seq<Turn>, n: nat)
    requires n <= |ts|
    ensures |LongestFitting(ts, MAX_MESSAGES, MAX_CHARS)| > n <==> GoesFurther(ts, n)
  {
    var r := LongestFitting(ts, MAX_MESSAGES, MAX_CHARS);
    if GoesFurther(ts, n) {
      LongestIsMaximal(ts, MAX_MESSAGES, MAX_CHARS, ts[..n + 1]);
    }
    if |r| > n {
      CharsGrow(ts[..n + 1], r);
    }
  }

  /** Two lists that part after p: their longest beginnings are equal if they end there. */
  lemma LongestPart(a: seq<Turn>, b: seq<Turn>, p: seq<Turn>, t: Turn)
    requires p <= a && p + [t] <= b && t !in a
    ensures LongestFitting(a, MAX_MESSAGES, MAX_CHARS) == LongestFitting(b, MAX_MESSAGES, MAX_CHARS) <==>
              !Fits(p + [t], MAX_MESSAGES, MAX_CHARS) && !GoesFurther(a, |p|)
  {
    var la, lb := LongestFitting(a, MAX_MESSAGES, MAX_CHARS), LongestFitting(b, MAX_MESSAGES, MAX_CHARS);
    assert b[..|p| + 1] == p + [t] && b[..|p|] == p == a[..|p|];
    LongestGoesFurther(a, |p|);
    LongestGoesFurther(b, |p|);
    hide LongestFitting;
    if |lb| > |p| {
      assert lb[|p|] == t;
      assert |la| > |p| ==> la[|p|] in a;
    } else if |la| <= |p| {
      assert la <= p && lb <= p;
      LongestIsMaximal(a, MAX_MESSAGES, MAX_CHARS, lb);
      LongestIsMaximal(b, MAX_MESSAGES, MAX_CHARS, la);
    }
  }

  /** Picking with one candidate more, in the middle. */
  lemma PickedWith(near: seq<Turn>, t: Turn, far: seq<Turn>)
    requires t !in near + far
    ensures var p := FirstOnes(near, MessageIdOf);
            var a, b := FirstOnes(near + far, MessageIdOf), FirstOnes(near + [t] + far, MessageIdOf);
            LongestFitting(a, MAX_MESSAGES, MAX_CHARS) == LongestFitting(b, MAX_MESSAGES, MAX_CHARS) <==>
              t.messageId in KeysOf(p, MessageIdOf) || (!Fits(p + [t], MAX_MESSAGES, MAX_CHARS) && !GoesFurther(a, |p|))
  {
    hide FirstOnes, LongestFitting, KeysOf, GoesFurther, Fits;
    var p := FirstOnes(near, MessageIdOf);
    FirstOnesStep(near, t, MessageIdOf);
    if t.messageId in KeysOf(p, MessageIdOf) {
      SameFirstOnes(near, near + [t], far, MessageIdOf);
    } else {
      var a, b := FirstOnes(near + far, MessageIdOf), FirstOnes(near + [t] + far, MessageIdOf);
      FirstOnesGrow(near, far, MessageIdOf);
      FirstOnesGrow(near + [t], far, MessageIdOf);
      FirstOnesKeys(near + far, MessageIdOf);
      LongestPart(a, b, p, t);
    }
  }

  /** Which turns the old segment offers, before and after a later message. */
  lemma OldTurns(store: Store, seg: Segment, upto: int, row: Row)
    requires IsOld(seg, upto) && row.created > upto
    requires var s := RowsIn(store, seg.conversation); s == [] || s[0].id < row.id
    ensures var s := RowsIn(store, seg.conversation);
            var c, n := seg.conversation, MAX_MESSAGES * 2;
            var left := UsableTurns(c, OldSegment(s, upto, n - 1), MAX_MESSAGE_CHARS);
            && SegmentTurns(Written(store, Write(c, row)), seg) == left
            && SegmentTurns(store, seg) ==
                 left + if n <= |s| && Contributes(s[n - 1], upto) then [TurnOf(c, s[n - 1], MAX_MESSAGE_CHARS)] else []
  {
    hide OldSegment, UsableTurns, Put, SegmentMessages, Strip;
    var s := RowsIn(store, seg.conversation);
    var c, n := seg.conversation, MAX_MESSAGES * 2;
    var t := Written(store, Write(c, row));
    OldMessages(store, seg, upto, n);
    OldMessages(t, seg, upto, n);
    assert RowsIn(t, c) == Put(s, row);
    NewerTakesAPlace(s, upto, n, row);
    OldSegmentOf(s, upto, n);
    if n <= |s| && Contributes(s[n - 1], upto) {
      var rows := OldSegment(s, upto, n - 1);
      UsableStep(c, rows + [s[n - 1]], |rows|, MAX_MESSAGE_CHARS);
      assert (rows + [s[n - 1]])[..|rows|] == rows && (rows + [s[n - 1]])[..|rows| + 1] == rows + [s[n - 1]];
    } else {
      assert OldSegment(s, upto, n - 1) + [] == OldSegment(s, upto, n - 1);
      assert SegmentTurns(store, seg) == UsableTurns(c, OldSegment(s, upto, n - 1), MAX_MESSAGE_CHARS);
    }
  }

  lemma OldSegmentRows(s: Partition, upto: int, n: nat, m: Row)
    requires m in OldSegment(s, upto, n)
    ensures exists i :: 0 <= i < n && i < |s| && s[i] == m
  {
    assert Below(s, None) == s;
    var rows := Clip(s, n);
    FilteredMembers(Filtered(Live(rows), InTime(upto)), Usable, m);
    FilteredMembers(Live(rows), InTime(upto), m);
    LiveMembers(rows);
    var i :| 0 <= i < |rows| && rows[i] == m;
    assert s[i] == m;
  }

  /** The turn that is pushed out is not among the other candidates. */
  lemma PushedOutIsNew(store: Store, near: seq<Segment>, seg: Segment, far: seq<Segment>, upto: int, t: Turn)
    requires Elsewhere(near, seg.conversation) && Elsewhere(far, seg.conversation)
    requires var s := RowsIn(store, seg.conversation);
             MAX_MESSAGES * 2 <= |s| && t == TurnOf(seg.conversation, s[MAX_MESSAGES * 2 - 1], MAX_MESSAGE_CHARS)
    ensures t !in Nearer(store, near, seg, upto) + AllTurns(store, far)
  {
    hide AllTurns, UsableTurns, OldSegment, Strip;
    var c, n := seg.conversation, MAX_MESSAGES * 2;
    var s := RowsIn(store, c);
    var left := OldSegment(s, upto, n - 1);
    if t in AllTurns(store, near) {
      TurnsElsewhere(store, near, c, t);
    }
    if t in AllTurns(store, far) {
      TurnsElsewhere(store, far, c, t);
    }
    if t in UsableTurns(c, left, MAX_MESSAGE_CHARS) {
      TurnsOf(c, left, t);
      var m :| m in left && m.id == t.messageId;
      OldSegmentRows(s, upto, n - 1, m);
    }
  }

  lemma CandidatesAround(store: Store, near: seq<Segment>, seg: Segment, far: seq<Segment>)
    ensures AllTurns(store, near + [seg] + far) == AllTurns(store, near) + SegmentTurns(store, seg) + AllTurns(store, far)
  {
    hide SegmentTurns;
    AllTurnsConcat(store, near + [seg], far);
    AllTurnsStep(store, near + [seg], |near|);
    assert (near + [seg])[..|near| + 1] == near + [seg] && (near + [seg])[..|near|] == near;
  }

  lemma ReversedAround(far: seq<Segment>, seg: Segment, near: seq<Segment>)
    ensures Reversed(far + [seg] + near) == Reversed(near) + [seg] + Reversed(far)
  {
  }

  /** What happens to the pick, in terms of the candidates around the one that is pushed out. */
  ghost predicate PickIsSpared(near: seq<Turn>, t: Turn, far: seq<Turn>) {
    var p := FirstOnes(near, MessageIdOf);
    || t.messageId in KeysOf(p, MessageIdOf)
    || (!Fits(p + [t], MAX_MESSAGES, MAX_CHARS) && !GoesFurther(FirstOnes(near + far, MessageIdOf), |p|))
  }

  lemma PickedAround(store: Store, near: seq<Segment>, seg: Segment, far: seq<Segment>, upto: int, row: Row)
    requires IsOld(seg, upto) && Elsewhere(near, seg.conversation) && Elsewhere(far, seg.conversation)
    requires var s := RowsIn(store, seg.conversation); (s == [] || s[0].id < row.id) && row.created > upto
    ensures var s := RowsIn(store, seg.conversation);
            var c, n := seg.conversation, MAX_MESSAGES * 2;
            Picked(Written(store, Write(c, row)), near + [seg] + far) == Picked(store, near + [seg] + far) <==>
              (|s| < n || !Contributes(s[n - 1], upto) ||
               PickIsSpared(Nearer(store, near, seg, upto), TurnOf(c, s[n - 1], MAX_MESSAGE_CHARS), AllTurns(store, far)))
  {
    hide AllTurns, SegmentTurns, FirstOnes, LongestFitting, UsableTurns, OldSegment, Contributes, Strip, Written, KeysOf, Fits, GoesFurther;
    var c, n := seg.conversation, MAX_MESSAGES * 2;
    var s, w := RowsIn(store, c), Write(c, row);
    var left := UsableTurns(c, OldSegment(s, upto, n - 1), MAX_MESSAGE_CHARS);
    OldTurns(store, seg, upto, row);
    ElsewhereIsSame(store, w, near);
    ElsewhereIsSame(store, w, far);
    CandidatesAround(store, near, seg, far);
    CandidatesAround(Written(store, w), near, seg, far);
    if n <= |s| && Contributes(s[n - 1], upto) {
      var t := TurnOf(c, s[n - 1], MAX_MESSAGE_CHARS);
      var x := Nearer(store, near, seg, upto);
      PushedOutIsNew(store, near, seg, far, upto, t);
      PickedWith(x, t, AllTurns(store, far));
      assert AllTurns(store, near) + (left + [t]) + AllTurns(store, far) == x + [t] + AllTurns(store, far);
    } else {
      assert left + [] == left;
    }
  }

  /**
   A later message in the parent leaves the history an old branch inherits as it is, exactly if the
   row it pushes out of the window of 32 had nothing to contribute, or the pick does without it: it
   holds the message already, or it was full before it and no farther ancestor takes its place.
   */
  lemma OldBranchesMayForgetMessages(store: Store, far: seq<Segment>, seg: Segment, near: seq<Segment>, upto: int, row: Row)
    requires IsOld(seg, upto) && Elsewhere(near, seg.conversation) && Elsewhere(far, seg.conversation)
    requires var s := RowsIn(store, seg.conversation); (s == [] || s[0].id < row.id) && row.created > upto
    ensures var s := RowsIn(store, seg.conversation);
            var c, n := seg.conversation, MAX_MESSAGES * 2;
            var segments := far + [seg] + near;
            Inherited(Written(store, Write(c, row)), segments) == Inherited(store, segments) <==>
              (|s| < n || !Contributes(s[n - 1], upto) ||
               PickIsSpared(Nearer(store, Reversed(near), seg, upto), TurnOf(c, s[n - 1], MAX_MESSAGE_CHARS),
                            AllTurns(store, Reversed(far))))
  {
    hide Picked, PickIsSpared, Nearer, Contributes, Strip, Written;
    var w := Write(seg.conversation, row);
    ReversedAround(far, seg, near);
    PickedAround(store, Reversed(near), seg, Reversed(far), upto, row);
    ReversedTwice(Picked(store, Reversed(far + [seg] + near)));
    ReversedTwice(Picked(Written(store, w), Reversed(far + [seg] + near)));
  }

  // ------------------------------------------------------------------ the inherited documents

  lemma {:induction false} FilesConcat(seg: Segment, a: seq<Row>, b: seq<Row>)
    ensures FilesOfAll(seg, a + b) == FilesOfAll(seg, a) + FilesOfAll(seg, b)
  {
    hide FilesOf;
    if b == [] {
      assert a + b == a;
    } else {
      FilesConcat(seg, a, b[..|b| - 1]);
      assert (a + b)[..|a + b| - 1] == a + b[..|b| - 1];
      var last := FilesOf(seg, b[|b| - 1]);
      assert FilesOfAll(seg, a) + FilesOfAll(seg, b[..|b| - 1]) + last == FilesOfAll(seg, a) + (FilesOfAll(seg, b[..|b| - 1]) + last);
    }
  }

  lemma FilesOfOne(seg: Segment, m: Row)
    ensures FilesOfAll(seg, [m]) == FilesOf(seg, m)
  {
    assert [m][..0] == [];
  }

  /** What the rows that stay in the window contribute. */
  function FilesLeft(store: Store, seg: Segment, upto: int): seq<Document> {
    FilesOfAll(seg, Reversed(OldSegment(RowsIn(store, seg.conversation), upto, SCAN_PER_SEGMENT - 1)))
  }

  /** The files of the row that is pushed out, if it contributes. */
  function PushedOutFiles(store: Store, seg: Segment, upto: int): seq<Document> {
    var s := RowsIn(store, seg.conversation);
    if SCAN_PER_SEGMENT <= |s| && Contributes(s[SCAN_PER_SEGMENT - 1], upto) then FilesOf(seg, s[SCAN_PER_SEGMENT - 1]) else []
  }

  /** Which files the old segment offers, before and after a later message. */
  lemma OldFiles(store: Store, seg: Segment, upto: int, row: Row)
    requires IsOld(seg, upto) && row.created > upto
    requires var s := RowsIn(store, seg.conversation); s == [] || s[0].id < row.id
    ensures SegmentFiles(Written(store, Write(seg.conversation, row)), seg) == FilesLeft(store, seg, upto)
    ensures SegmentFiles(store, seg) == PushedOutFiles(store, seg, upto) + FilesLeft(store, seg, upto)
  {
    hide OldSegment, FilesOfAll, FilesOf, Put, SegmentMessages, Contributes;
    var s := RowsIn(store, seg.conversation);
    var n := SCAN_PER_SEGMENT;
    var t := Written(store, Write(seg.conversation, row));
    OldMessages(store, seg, upto, n);
    OldMessages(t, seg, upto, n);
    assert RowsIn(t, seg.conversation) == Put(s, row);
    NewerTakesAPlace(s, upto, n, row);
    OldSegmentOf(s, upto, n);
    var rows := OldSegment(s, upto, n - 1);
    if n <= |s| && Contributes(s[n - 1], upto) {
      assert Reversed(rows + [s[n - 1]]) == [s[n - 1]] + Reversed(rows);
      FilesConcat(seg, [s[n - 1]], Reversed(rows));
      FilesOfOne(seg, s[n - 1]);
    } else {
      assert rows + [] == rows;
      assert [] + FilesLeft(store, seg, upto) == FilesLeft(store, seg, upto);
    }
  }

  /** Nothing new in `more`: the same first ones. */
  lemma {:induction false} NothingNew(a: seq<Document>, more: seq<Document>)
    requires forall d :: d in more ==> d.id in KeysOf(FirstOnes(a, DocumentIdOf), DocumentIdOf)
    ensures FirstOnes(a + more, DocumentIdOf) == FirstOnes(a, DocumentIdOf)
    decreases |more|
  {
    hide FirstOnes, KeysOf;
    if more == [] {
      assert a + more == a;
    } else {
      var front, x := more[..|more| - 1], more[|more| - 1];
      assert x in more;
      NothingNew(a, front);
      FirstOnesStep(a + front, x, DocumentIdOf);
      assert a + front + [x] == a + more;
    }
  }

  /** Something new in `more`: the first of it comes right after the first ones. */
  lemma {:induction false} SomethingNew(a: seq<Document>, more: seq<Document>)
    requires exists d :: d in more && d.id !in KeysOf(FirstOnes(a, DocumentIdOf), DocumentIdOf)
    ensures var q, r := FirstOnes(a, DocumentIdOf), FirstOnes(a + more, DocumentIdOf);
            |q| < |r| && r[|q|] in more
    decreases |more|
  {
    hide FirstOnes, KeysOf;
    var front, x := more[..|more| - 1], more[|more| - 1];
    var q := FirstOnes(a, DocumentIdOf);
    FirstOnesStep(a + front, x, DocumentIdOf);
    assert a + front + [x] == a + more;
    if exists d :: d in front && d.id !in KeysOf(q, DocumentIdOf) {
      SomethingNew(a, front);
    } else {
      NothingNew(a, front);
      assert x in more;
    }
  }

  /** Listing with some files more, in the middle. */
  lemma ListedWith(far: seq<Document>, files: seq<Document>, near: seq<Document>)
    requires forall d :: d in files ==> d !in far + near
    ensures var q := FirstOnes(far, DocumentIdOf);
            Clip(FirstOnes(far + near, DocumentIdOf), MAX_DOCUMENTS)
              == Clip(FirstOnes(far + files + near, DocumentIdOf), MAX_DOCUMENTS) <==>
              |q| >= MAX_DOCUMENTS || forall d :: d in files ==> d.id in KeysOf(q, DocumentIdOf)
  {
    hide FirstOnes, KeysOf;
    var q := FirstOnes(far, DocumentIdOf);
    var a, b := FirstOnes(far + near, DocumentIdOf), FirstOnes(far + files + near, DocumentIdOf);
    FirstOnesGrow(far, near, DocumentIdOf);
    FirstOnesGrow(far, files, DocumentIdOf);
    FirstOnesGrow(far + files, near, DocumentIdOf);
    if |q| >= MAX_DOCUMENTS {
      assert a[..MAX_DOCUMENTS] == q[..MAX_DOCUMENTS] == b[..MAX_DOCUMENTS];
    } else if forall d :: d in files ==> d.id in KeysOf(q, DocumentIdOf) {
      NothingNew(far, files);
      SameFirstOnes(far, far + files, near, DocumentIdOf);
    } else {
      SomethingNew(far, files);
      FirstOnesKeys(far + near, DocumentIdOf);
      NewOneIsMissing(a, b, |q|, far + near);
    }
  }

  lemma NewOneIsMissing(a: seq<Document>, b: seq<Document>, k: nat, all: seq<Document>)
    requires k < |b| && k < MAX_DOCUMENTS && b[k] !in all && forall d :: d in a ==> d in all
    ensures Clip(a, MAX_DOCUMENTS) != Clip(b, MAX_DOCUMENTS)
  {
    assert Clip(b, MAX_DOCUMENTS)[k] == b[k];
    assert k < |Clip(a, MAX_DOCUMENTS)| ==> Clip(a, MAX_DOCUMENTS)[k] in a;
  }

  lemma {:induction false} FilesOfRow(seg: Segment, m: Row, d: Document)
    requires d in FilesOf(seg, m)
    ensures d.conversation == seg.conversation && d.message == m.id
  {
  }

  /** The files that are pushed out are not among the others: each names its message. */
  lemma PushedOutFilesAreNew(store: Store, far: seq<Segment>, seg: Segment, near: seq<Segment>, upto: int, d: Document)
    requires Elsewhere(near, seg.conversation) && Elsewhere(far, seg.conversation)
    requires var s := RowsIn(store, seg.conversation);
             SCAN_PER_SEGMENT <= |s| && d in FilesOf(seg, s[SCAN_PER_SEGMENT - 1])
    ensures d !in AllFiles(store, far) + (FilesLeft(store, seg, upto) + AllFiles(store, near))
  {
    hide AllFiles, FilesOfAll, FilesOf, OldSegment, Reversed;
    var s := RowsIn(store, seg.conversation);
    FilesOfRow(seg, s[SCAN_PER_SEGMENT - 1], d);
    if d in AllFiles(store, far) {
      FilesElsewhere(store, far, seg.conversation, d);
    }
    if d in AllFiles(store, near) {
      FilesElsewhere(store, near, seg.conversation, d);
    }
    var left := OldSegment(s, upto, SCAN_PER_SEGMENT - 1);
    if d in FilesLeft(store, seg, upto) {
      FilesAre(seg, Reversed(left), d);
      var m :| m in Reversed(left) && m.id == d.message;
      InReversed(left, m);
      OldSegmentRows(s, upto, SCAN_PER_SEGMENT - 1, m);
    }
  }

  lemma InReversed(rows: seq<Row>, m: Row)
    requires m in Reversed(rows)
    ensures m in rows
  {
  }

  lemma FilesAround(store: Store, far: seq<Segment>, seg: Segment, near: seq<Segment>)
    ensures AllFiles(store, far + [seg] + near) == AllFiles(store, far) + SegmentFiles(store, seg) + AllFiles(store, near)
  {
    hide SegmentFiles;
    AllFilesConcat(store, far + [seg], near);
    AllFilesStep(store, far + [seg], |far|);
    assert (far + [seg])[..|far| + 1] == far + [seg] && (far + [seg])[..|far|] == far;
  }

  lemma Regrouped(a: seq<Document>, b: seq<Document>, c: seq<Document>, d: seq<Document>)
    ensures a + (b + c) + d == a + b + (c + d) && a + c + d == a + (c + d)
  {
  }

  lemma FilesBeforeAndAfter(store: Store, far: seq<Segment>, seg: Segment, near: seq<Segment>, upto: int, row: Row)
    requires IsOld(seg, upto) && Elsewhere(near, seg.conversation) && Elsewhere(far, seg.conversation)
    requires var s := RowsIn(store, seg.conversation); (s == [] || s[0].id < row.id) && row.created > upto
    ensures var f, rest := AllFiles(store, far), FilesLeft(store, seg, upto) + AllFiles(store, near);
            && AllFiles(store, far + [seg] + near) == f + PushedOutFiles(store, seg, upto) + rest
            && AllFiles(Written(store, Write(seg.conversation, row)), far + [seg] + near) == f + rest
  {
    hide AllFiles, SegmentFiles, FilesLeft, PushedOutFiles, Written, Elsewhere;
    var w := Write(seg.conversation, row);
    OldFiles(store, seg, upto, row);
    ElsewhereIsSame(store, w, near);
    ElsewhereIsSame(store, w, far);
    FilesAround(store, far, seg, near);
    FilesAround(Written(store, w), far, seg, near);
    Regrouped(AllFiles(store, far), PushedOutFiles(store, seg, upto), FilesLeft(store, seg, upto), AllFiles(store, near));
  }

  /**
   A later message in the parent leaves the documents an old branch inherits as they are, exactly if
   the row it pushes out of the window of 200 had nothing to contribute, or each of its files is
   listed by a farther ancestor too, or those fill the list already.
   */
  lemma OldBranchesMayForgetDocuments(store: Store, far: seq<Segment>, seg: Segment, near: seq<Segment>, upto: int, row: Row)
    requires IsOld(seg, upto) && Elsewhere(near, seg.conversation) && Elsewhere(far, seg.conversation)
    requires var s := RowsIn(store, seg.conversation); (s == [] || s[0].id < row.id) && row.created > upto
    ensures var s, n := RowsIn(store, seg.conversation), SCAN_PER_SEGMENT;
            var segments := far + [seg] + near;
            var q := FirstOnes(AllFiles(store, far), DocumentIdOf);
            Documents(Written(store, Write(seg.conversation, row)), segments) == Documents(store, segments) <==>
              (|s| < n || !Contributes(s[n - 1], upto) || |q| >= MAX_DOCUMENTS ||
               forall d :: d in FilesOf(seg, s[n - 1]) ==> d.id in KeysOf(q, DocumentIdOf))
  {
    hide AllFiles, FilesLeft, FilesOf, FirstOnes, KeysOf, Contributes, Written, Elsewhere, Clip;
    FilesBeforeAndAfter(store, far, seg, near, upto, row);
    var f, files, rest := AllFiles(store, far), PushedOutFiles(store, seg, upto), FilesLeft(store, seg, upto) + AllFiles(store, near);
    forall d | d in files ensures d !in f + rest {
      PushedOutFilesAreNew(store, far, seg, near, upto, d);
    }
    ListedWith(f, files, rest);
  }

  /** Both, at any place of a lineage: no other segment of it is of the same conversation. */
  lemma OldAncestorsMayForget(db: Catalog, conv: Conversation, lineage: Lineage, i: nat, store: Store, upto: int, row: Row)
    requires IsLineage(db, conv, Reversed(lineage.segments), lineage.truncated)
    requires i < |lineage.segments| && IsOld(lineage.segments[i], upto)
    requires var s := RowsIn(store, lineage.segments[i].conversation); (s == [] || s[0].id < row.id) && row.created > upto
    ensures var far, seg, near := lineage.segments[..i], lineage.segments[i], lineage.segments[i + 1..];
            var after, s := Written(store, Write(seg.conversation, row)), RowsIn(store, seg.conversation);
            && (Inherited(after, lineage.segments) == Inherited(store, lineage.segments) <==>
                  (|s| < MAX_MESSAGES * 2 || !Contributes(s[MAX_MESSAGES * 2 - 1], upto) ||
                   PickIsSpared(Nearer(store, Reversed(near), seg, upto),
                                TurnOf(seg.conversation, s[MAX_MESSAGES * 2 - 1], MAX_MESSAGE_CHARS),
                                AllTurns(store, Reversed(far)))))
            && (Documents(after, lineage.segments) == Documents(store, lineage.segments) <==>
                  (|s| < SCAN_PER_SEGMENT || !Contributes(s[SCAN_PER_SEGMENT - 1], upto) ||
                   |FirstOnes(AllFiles(store, far), DocumentIdOf)| >= MAX_DOCUMENTS ||
                   forall d :: d in FilesOf(seg, s[SCAN_PER_SEGMENT - 1]) ==>
                     d.id in KeysOf(FirstOnes(AllFiles(store, far), DocumentIdOf), DocumentIdOf)))
  {
    hide Inherited, Documents, Contributes, PickIsSpared, Nearer, AllTurns, AllFiles, FirstOnes, KeysOf, FilesOf, Written,
      IsLineage, Elsewhere, Strip, TurnOf;
    var far, seg, near := lineage.segments[..i], lineage.segments[i], lineage.segments[i + 1..];
    OthersAreElsewhere(db, conv, lineage, i);
    assert lineage.segments == far + [seg] + near;
    OldBranchesMayForgetMessages(store, far, seg, near, upto, row);
    OldBranchesMayForgetDocuments(store, far, seg, near, upto, row);
  }

  // ------------------------------------------------------------------ and they do forget

  /** A parent of n prompts with a file each; only the oldest is from before the branch was made, at time 0. */
  function Parent(n: nat): Partition {
    seq(n, i requires 0 <= i < n => Row(n - i, User, "a", if i == n - 1 then 0 else 1, Sent, [7]))
  }

  const OLD_SEGMENT := Segment(5, "parent", None, Some(0))

  lemma LaterRowsDoNotCount(rows: seq<Row>, upto: int)
    requires forall m :: m in rows ==> m.created > upto
    ensures Kept(rows, upto) == []
  {
    LiveMembers(rows);
    FilteredNothing(Live(rows), InTime(upto));
  }

  lemma ParentIsPushedOut(n: nat)
    requires n > 0
    ensures var x := Parent(n)[n - 1];
            Contributes(x, 0) && x.sender == User && x.fileIds == [7] && |TurnOf(5, x, MAX_MESSAGE_CHARS).content| <= 1
    ensures Parent(n)[0].id == n && OldSegment(Parent(n), 0, n - 1) == []
  {
    assert "a"[0] == 'a';
    hide OldSegment, Kept;
    OldSegmentIsKept(Parent(n), 0, n - 1);
    LaterRowsDoNotCount(Clip(Parent(n), n - 1), 0);
  }

  /** The one message the branch inherits is lost to a later one in its parent. */
  lemma AnOldBranchForgets(store: Store, row: Row)
    requires RowsIn(store, 5) == Parent(MAX_MESSAGES * 2) && row.id > MAX_MESSAGES * 2 && row.created > 0
    ensures Inherited(Written(store, Write(5, row)), [OLD_SEGMENT]) != Inherited(store, [OLD_SEGMENT])
  {
    hide OldSegment, Contributes, Inherited, Written, Strip, TurnOf, PickIsSpared, Nearer, AllTurns;
    var n := MAX_MESSAGES * 2;
    assert |Parent(n)| == n;
    ParentIsPushedOut(n);
    hide Parent;
    OldBranchesMayForgetMessages(store, [], OLD_SEGMENT, [], 0, row);
    assert [] + [OLD_SEGMENT] + [] == [OLD_SEGMENT];
    NothingPickedBefore(store, TurnOf(5, Parent(n)[n - 1], MAX_MESSAGE_CHARS));
  }

  lemma NothingPickedBefore(store: Store, t: Turn)
    requires OldSegment(RowsIn(store, 5), 0, MAX_MESSAGES * 2 - 1) == [] && |t.content| <= 1
    ensures !PickIsSpared(Nearer(store, Reversed([]), OLD_SEGMENT, 0), t, AllTurns(store, Reversed([])))
  {
    assert Nearer(store, Reversed([]), OLD_SEGMENT, 0) == [];
    assert [t][..0] == [];
    assert Chars([t]) == |t.content|;
  }

  /** So is its one document, when the parent is longer. */
  lemma AnOldBranchForgetsItsDocument(store: Store, row: Row)
    requires RowsIn(store, 5) == Parent(SCAN_PER_SEGMENT) && row.id > SCAN_PER_SEGMENT && row.created > 0
    ensures Documents(Written(store, Write(5, row)), [OLD_SEGMENT]) != Documents(store, [OLD_SEGMENT])
  {
    hide OldSegment, Contributes, Documents, Written, Strip, AllFiles, KeysOf, FirstOnes, TurnOf;
    var n := SCAN_PER_SEGMENT;
    assert |Parent(n)| == n;
    ParentIsPushedOut(n);
    hide Parent;
    OldBranchesMayForgetDocuments(store, [], OLD_SEGMENT, [], 0, row);
    assert [] + [OLD_SEGMENT] + [] == [OLD_SEGMENT];
    NothingListedBefore(store);
    assert FilesOf(OLD_SEGMENT, Parent(n)[n - 1])[0].id == 7;
  }

  lemma NothingListedBefore(store: Store)
    ensures FirstOnes(AllFiles(store, []), DocumentIdOf) == [] && KeysOf<Document>([], DocumentIdOf) == {}
  {
  }
}
