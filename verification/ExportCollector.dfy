/**
 Which messages of a conversation an export contains: `_messages` and `snapshot` of
 app/exports/collector.py. History is read in pages, newest first; soft-deleted rows take a place
 in a page but are not returned.
 */
module ExportCollector {
  import opened MessageRows
  import opened Sequences
  import opened Text
  import opened Wrappers

  const PAGE := 100

  predicate IsLive(m: Row) {
    m.status != Deleted
  }

  // ------------------------------------------------------------------ how far the pages reach

  /** The length of a page without the deleted rows at its end: the cursor points there. */
  function LiveEnd(s: seq<Row>): (n: nat)
    ensures n <= |s|
    ensures forall i :: n <= i < |s| ==> s[i].status == Deleted
    ensures n > 0 ==> s[n - 1].status != Deleted
  {
    if s == [] then 0 else if IsLive(s[|s| - 1]) then |s| else LiveEnd(s[..|s| - 1])
  }

  /** Where the loop stops when it has read the first n rows. */
  function ReadTo(s: seq<Row>, maxMessages: nat, n: nat): (r: nat)
    requires n <= |s|
    ensures n <= r <= |s|
    decreases |s| - n
  {
    var step := LiveEnd(Clip(s[n..], PAGE));
    if |Live(s[..n])| >= maxMessages || step == 0 then n else ReadTo(s, maxMessages, n + step)
  }

  lemma ReadToStep(s: seq<Row>, maxMessages: nat, n: nat)
    requires n <= |s|
    ensures var step := LiveEnd(Clip(s[n..], PAGE));
            && n + step <= |s|
            && ReadTo(s, maxMessages, n) ==
                 (if |Live(s[..n])| >= maxMessages || step == 0 then n else ReadTo(s, maxMessages, n + step))
  {
  }

  /** What the loop collects, newest first. */
  function Collected(s: seq<Row>, maxMessages: nat): seq<Row> {
    Live(s[..ReadTo(s, maxMessages, 0)])
  }

  lemma {:induction false} NoneLive(s: seq<Row>)
    requires forall i :: 0 <= i < |s| ==> s[i].status == Deleted
    ensures Live(s) == []
  {
    if s != [] {
      NoneLive(s[1..]);
    }
  }

  lemma SomeLive(s: seq<Row>, i: nat)
    requires i < |s| && IsLive(s[i])
    ensures Live(s) != []
  {
    LiveMembers(s);
    assert s[i] in Live(s);
  }

  lemma LiveSplit(s: seq<Row>, n: nat)
    requires n <= |s|
    ensures Live(s) == Live(s[..n]) + Live(s[n..])
  {
    assert s == s[..n] + s[n..];
    LiveConcat(s[..n], s[n..]);
  }

  lemma {:induction false} FirstBelowUnique(s: seq<Row>, id: nat, n: nat)
    requires n <= |s| && (forall i :: 0 <= i < n ==> s[i].id >= id) && (n < |s| ==> s[n].id < id)
    ensures FirstBelow(s, Some(id)) == n
  {
    if n > 0 {
      FirstBelowUnique(s[1..], id, n - 1);
    }
  }

  /** Below a row come the rows after it. */
  lemma FirstBelowIs(s: Partition, n: nat)
    requires 0 < n <= |s|
    ensures Below(s, Some(s[n - 1].id)) == s[n..]
  {
    FirstBelowUnique(s, s[n - 1].id, n);
  }

  lemma LiveOne(x: Row)
    ensures Live([x]) == if IsLive(x) then [x] else []
  {
    assert [x][1..] == [];
  }

  lemma LiveLast(s: seq<Row>)
    requires s != [] && IsLive(s[|s| - 1])
    ensures Live(s) != [] && Live(s)[|Live(s)| - 1] == s[|s| - 1]
  {
    hide Live;
    LiveSplit(s, |s| - 1);
    assert s[|s| - 1..] == [s[|s| - 1]];
    LiveOne(s[|s| - 1]);
  }

  /** A page without its deleted rows: what there is up to `LiveEnd`, which is its last. */
  lemma LivePage(rows: seq<Row>)
    ensures var step := LiveEnd(rows);
            && Live(rows) == Live(rows[..step])
            && (step == 0 ==> Live(rows) == [])
            && (step > 0 ==> Live(rows) != [] && Live(rows)[|Live(rows)| - 1] == rows[step - 1])
  {
    hide Live, LiveEnd;
    var step := LiveEnd(rows);
    LiveSplit(rows, step);
    NoneLive(rows[step..]);
    if step > 0 {
      LiveLast(rows[..step]);
    } else {
      NoneLive(rows[..step]);
    }
  }

  /** The page read at n, and the cursor after it. */
  lemma NextPage(s: Partition, n: nat, cursor: Option<nat>)
    requires n <= |s| && Below(s, cursor) == s[n..]
    ensures var page := History(s, PAGE, cursor);
            var step := LiveEnd(Clip(s[n..], PAGE));
            && (page == [] <==> step == 0)
            && Live(s[..n + step]) == Live(s[..n]) + page
            && (page != [] ==> Below(s, Some(page[|page| - 1].id)) == s[n + step..])
  {
    hide Live, Below, LiveEnd;
    var rows := Clip(s[n..], PAGE);
    var step := LiveEnd(rows);
    LivePage(rows);
    assert rows[..step] == s[n..n + step];
    assert s[..n + step] == s[..n] + s[n..n + step];
    LiveConcat(s[..n], s[n..n + step]);
    if step > 0 {
      assert rows[step - 1] == s[n + step - 1];
      FirstBelowIs(s, n + step);
    }
  }

  // ------------------------------------------------------------------ what is exported of it

  predicate IsText(m: Row) {
    m.status == Sent && Strip(m.content) != []
  }

  function AtMostId(id: nat): Row -> bool {
    (m: Row) => m.id <= id
  }

  /** Up to the marker, if the marker is there; the list is oldest first. */
  function UpTo(oldestFirst: seq<Row>, marker: Option<nat>): seq<Row> {
    if marker.Some? && exists i :: 0 <= i < |oldestFirst| && oldestFirst[i].id == marker.value
    then Filtered(oldestFirst, AtMostId(marker.value))
    else oldestFirst
  }

  function Exported(newestFirst: seq<Row>, marker: Option<nat>): seq<Row> {
    Filtered(UpTo(Reversed(newestFirst), marker), IsText)
  }

  predicate Ascending(s: seq<Row>) {
    forall i, j :: 0 <= i < j < |s| ==> s[i].id < s[j].id
  }

  lemma {:induction false} AtMost(s: seq<Row>, id: nat, k: nat)
    requires Ascending(s) && k < |s| && s[k].id == id
    ensures Filtered(s, AtMostId(id)) == s[..k + 1]
    decreases |s|
  {
    var front := s[..|s| - 1];
    if k == |s| - 1 {
      AllAtMost(front, id);
      assert s == front + [s[k]];
    } else {
      AtMost(front, id, k);
      assert front[..k + 1] == s[..k + 1];
    }
  }

  lemma {:induction false} AllAtMost(s: seq<Row>, id: nat)
    requires forall i :: 0 <= i < |s| ==> s[i].id <= id
    ensures Filtered(s, AtMostId(id)) == s
  {
    if s != [] {
      AllAtMost(s[..|s| - 1], id);
      assert s == s[..|s| - 1] + [s[|s| - 1]];
    }
  }

  /** `_messages`: pages until there is enough, then the part up to the marker, finished messages with text only. */
  method Messages(s: Partition, maxMessages: nat, marker: Option<nat>) returns (out: seq<Row>)
    ensures out == Exported(Collected(s, maxMessages), marker)
  {
    hide Live, ReadTo, Strip, Filtered;
    var collected := ReadPages(s, maxMessages);
    LiveDescending(s[..ReadTo(s, maxMessages, 0)]);
    collected := Reversed(collected);
    ghost var oldestFirst := collected;
    if marker.Some? {
      var k := 0;
      while k < |collected| && collected[k].id != marker.value
        invariant k <= |collected|
        invariant forall i :: 0 <= i < k ==> collected[i].id != marker.value
      {
        k := k + 1;
      }
      if k < |collected| {
        AtMost(collected, marker.value, k);
        collected := collected[..k + 1];
      }
    }
    assert collected == UpTo(oldestFirst, marker);
    out := Texts(collected);
  }

  /** The last loop: each message once, sent and not blank. */
  method Texts(collected: seq<Row>) returns (out: seq<Row>)
    requires Ascending(collected)
    ensures out == Filtered(collected, IsText)
  {
    hide Strip;
    out := [];
    var seen: set<nat> := {};
    assert collected[..0] == [];
    for i := 0 to |collected|
      invariant out == Filtered(collected[..i], IsText)
      invariant forall id :: id in seen ==> exists j :: 0 <= j < i && collected[j].id == id
    {
      var m := collected[i];
      assert collected[..i + 1][..i] == collected[..i];
      if m.status != Sent || Strip(m.content) == [] || m.id in seen {
        continue;
      }
      seen := seen + {m.id};
      out := out + [m];
    }
    assert collected[..|collected|] == collected;
  }

  method ReadPages(s: Partition, maxMessages: nat) returns (collected: seq<Row>)
    ensures collected == Collected(s, maxMessages)
  {
    hide Live, History, Below, LiveEnd, Clip, ReadTo;
    collected := [];
    var cursor: Option<nat> := None;
    ghost var n := 0;
    StartOfPages(s);
    while |collected| < maxMessages
      invariant n <= |s| && Below(s, cursor) == s[n..]
      invariant collected == Live(s[..n])
      invariant ReadTo(s, maxMessages, n) == ReadTo(s, maxMessages, 0)
      decreases |s| - n
    {
      var page := History(s, PAGE, cursor);
      NextPage(s, n, cursor);
      ReadToStep(s, maxMessages, n);
      if page == [] {
        break;
      }
      collected := collected + page;
      cursor := Some(page[|page| - 1].id);
      n := n + LiveEnd(Clip(s[n..], PAGE));
    }
    ReadToStep(s, maxMessages, n);
  }

  lemma StartOfPages(s: Partition)
    ensures Below(s, None) == s[0..] && Live(s[..0]) == []
  {
  }

  // ------------------------------------------------------------------ when everything is read

  /** A page full of deleted rows from i on, with a message that is older still. */
  predicate IsGap(s: seq<Row>, i: nat) {
    && i + PAGE <= |s|
    && (forall k :: i <= k < i + PAGE ==> s[k].status == Deleted)
    && (exists j :: i + PAGE <= j < |s| && IsLive(s[j]))
  }

  ghost predicate HasGap(s: seq<Row>) {
    exists i: nat :: IsGap(s, i)
  }

  lemma {:induction false} ReadsAll(s: Partition, maxMessages: nat, n: nat)
    requires n <= |s| && |Live(s)| <= maxMessages && !HasGap(s)
    ensures Live(s[..ReadTo(s, maxMessages, n)]) == Live(s)
    decreases |s| - n
  {
    hide Live, HasGap, ReadTo, LiveEnd, Clip;
    var step := LiveEnd(Clip(s[n..], PAGE));
    LiveSplit(s, n);
    ReadToStep(s, maxMessages, n);
    if |Live(s[..n])| < maxMessages {
      if step > 0 {
        ReadsAll(s, maxMessages, n + step);
      } else {
        NothingLeft(s, n);
      }
    }
  }

  /** A longer conversation: without gaps the newest messages are read, at least as many as allowed. */
  lemma {:induction false} ReadsEnough(s: Partition, maxMessages: nat, n: nat)
    requires n <= |s| && !HasGap(s)
    ensures var r := Live(s[..ReadTo(s, maxMessages, n)]);
            r <= Live(s) && (r == Live(s) || |r| >= maxMessages)
    decreases |s| - n
  {
    hide Live, HasGap, ReadTo, LiveEnd, Clip;
    var step := LiveEnd(Clip(s[n..], PAGE));
    LiveSplit(s, n);
    ReadToStep(s, maxMessages, n);
    if |Live(s[..n])| < maxMessages {
      if step > 0 {
        ReadsEnough(s, maxMessages, n + step);
      } else {
        NothingLeft(s, n);
      }
    }
  }

  /** Without gaps, nothing on a page means nothing after it. */
  lemma NothingLeft(s: seq<Row>, n: nat)
    requires n <= |s| && !HasGap(s) && LiveEnd(Clip(s[n..], PAGE)) == 0
    ensures Live(s[n..]) == []
  {
    var page := Clip(s[n..], PAGE);
    assert forall k :: 0 <= k < |page| ==> page[k] == s[n + k] && page[k].status == Deleted;
    if |page| < PAGE {
      assert page == s[n..];
    } else {
      assert !IsGap(s, n);
      assert forall k :: n <= k < n + PAGE ==> s[k] == page[k - n];
    }
    NoneLive(s[n..]);
  }

  /** A page that starts before a gap ends, without its deleted rows, before it too. */
  lemma PageEndsAtGap(s: seq<Row>, n: nat, i: nat)
    requires n <= i && IsGap(s, i)
    ensures n + LiveEnd(Clip(s[n..], PAGE)) <= i
  {
    var page := Clip(s[n..], PAGE);
    var step := LiveEnd(page);
    if step > 0 {
      assert page[step - 1] == s[n + step - 1];
    }
  }

  lemma {:induction false} StopsAtGap(s: Partition, maxMessages: nat, n: nat, i: nat)
    requires n <= i && IsGap(s, i)
    ensures ReadTo(s, maxMessages, n) <= i
    decreases |s| - n
  {
    hide Live, ReadTo, LiveEnd, Clip;
    var step := LiveEnd(Clip(s[n..], PAGE));
    ReadToStep(s, maxMessages, n);
    PageEndsAtGap(s, n, i);
    if step > 0 && |Live(s[..n])| < maxMessages {
      StopsAtGap(s, maxMessages, n + step, i);
    }
  }

  lemma GapLosesSomething(s: Partition, maxMessages: nat, i: nat)
    requires IsGap(s, i)
    ensures |Collected(s, maxMessages)| < |Live(s)|
  {
    hide Live, ReadTo;
    var r := ReadTo(s, maxMessages, 0);
    StopsAtGap(s, maxMessages, 0, i);
    LiveSplit(s, r);
    var j :| i + PAGE <= j < |s| && IsLive(s[j]);
    assert s[r..][j - r] == s[j];
    SomeLive(s[r..], j - r);
  }

  /** The pages reach every message exactly when there is no gap, if the conversation is not longer than allowed. */
  lemma CollectsAllWithoutGaps(s: Partition, maxMessages: nat)
    requires |Live(s)| <= maxMessages
    ensures Collected(s, maxMessages) == Live(s) <==> !HasGap(s)
  {
    hide Live, ReadTo, IsGap;
    if HasGap(s) {
      var i: nat :| IsGap(s, i);
      GapLosesSomething(s, maxMessages, i);
    } else {
      ReadsAll(s, maxMessages, 0);
    }
  }

  /** Without gaps what is read are the newest messages: all of them, or as many as allowed. */
  lemma CollectsTheNewest(s: Partition, maxMessages: nat)
    requires !HasGap(s)
    ensures Collected(s, maxMessages) <= Live(s)
    ensures Collected(s, maxMessages) == Live(s) || |Collected(s, maxMessages)| >= maxMessages
  {
    ReadsEnough(s, maxMessages, 0);
  }

  // ------------------------------------------------------------------ the snapshot

  /** What an export promises: finished messages with text up to the marker. */
  predicate IsPromised(m: Row, marker: nat) {
    m.id <= marker && m.status == Sent && Strip(m.content) != []
  }

  lemma ExportedMembers(newestFirst: seq<Row>, marker: nat, m: Row)
    requires exists x :: x in newestFirst && x.id == marker
    ensures m in Exported(newestFirst, Some(marker)) <==> m in newestFirst && IsPromised(m, marker)
  {
    assert IsPromised(m, marker) <==> m.id <= marker && IsText(m);
    hide IsText, IsPromised;
    var all := Reversed(newestFirst);
    var x :| x in newestFirst && x.id == marker;
    ReversedMembers(newestFirst, x);
    ReversedMembers(newestFirst, m);
    var i :| 0 <= i < |all| && all[i] == x;
    FilteredMembers(all, AtMostId(marker), m);
    FilteredMembers(UpTo(all, Some(marker)), IsText, m);
  }

  lemma ExportedAscending(newestFirst: seq<Row>, marker: Option<nat>)
    requires Descending(newestFirst)
    ensures Ascending(Exported(newestFirst, marker))
  {
    hide IsText;
    var all := Reversed(newestFirst);
    assert Ascending(all);
    hide Ascending;
    if marker.Some? {
      FilteredAscending(all, AtMostId(marker.value));
    }
    FilteredAscending(UpTo(all, marker), IsText);
  }

  /**
   If the marker is still a message and everything is read, the export is exactly the promised
   messages, oldest first and each once.
   */
  lemma ExportMeetsThePromise(s: Partition, maxMessages: nat, marker: nat, i: nat)
    requires |Live(s)| <= maxMessages && !HasGap(s)
    requires i < |s| && s[i].id == marker && IsLive(s[i])
    ensures Ascending(Exported(Collected(s, maxMessages), Some(marker)))
    ensures forall m :: m in Exported(Collected(s, maxMessages), Some(marker)) <==> m in s && IsPromised(m, marker)
  {
    hide Exported, Collected, HasGap, Live;
    CollectsAllWithoutGaps(s, maxMessages);
    LiveDescending(s);
    LiveMembers(s);
    assert s[i] in Live(s);
    ExportedAscending(Live(s), Some(marker));
    forall m ensures m in Exported(Live(s), Some(marker)) <==> m in s && IsPromised(m, marker) {
      ExportedMembers(Live(s), marker, m);
    }
  }

  /** Without a marker it is all finished messages. */
  lemma ExportWithoutMarker(s: Partition, maxMessages: nat)
    requires |Live(s)| <= maxMessages && !HasGap(s)
    ensures Ascending(Exported(Collected(s, maxMessages), None))
    ensures forall m :: m in Exported(Collected(s, maxMessages), None) <==> m in s && m.status == Sent && Strip(m.content) != []
  {
    assert forall m :: IsText(m) <==> m.status == Sent && Strip(m.content) != [];
    hide Collected, HasGap, Live, Strip, IsText;
    CollectsAllWithoutGaps(s, maxMessages);
    LiveDescending(s);
    LiveMembers(s);
    ExportedAscending(Live(s), None);
    forall m ensures m in Exported(Live(s), None) <==> m in s && m.status == Sent && Strip(m.content) != [] {
      ReversedMembers(Live(s), m);
      FilteredMembers(Reversed(Live(s)), IsText, m);
    }
  }

  lemma ReversedMembers(s: seq<Row>, m: Row)
    ensures m in Reversed(s) <==> m in s
  {
    if m in s {
      var j :| 0 <= j < |s| && s[j] == m;
      assert Reversed(s)[|s| - 1 - j] == m;
    }
  }

  lemma {:induction false} FilteredAscending(s: seq<Row>, keep: Row -> bool)
    requires Ascending(s)
    ensures Ascending(Filtered(s, keep))
  {
    if s != [] {
      var front := s[..|s| - 1];
      FilteredAscending(front, keep);
      forall x | x in Filtered(front, keep) ensures x.id < s[|s| - 1].id {
        FilteredMembers(front, keep, x);
      }
    }
  }

  /** `snapshot`: the newest row's id; nothing if there is none or it is deleted. */
  function Marker(s: Partition): Option<nat> {
    var latest := History(s, 1, None);
    if latest == [] then None else Some(latest[0].id)
  }

  lemma MarkerIsNewest(s: Partition)
    ensures Marker(s) == if s != [] && IsLive(s[0]) then Some(s[0].id) else None
  {
    assert Below(s, None) == s;
    if s != [] {
      assert Clip(s, 1) == [s[0]];
      LiveOne(s[0]);
    }
  }

  lemma CollectedWithinMarker(collected: seq<Row>, marker: nat)
    ensures (forall m :: m in Exported(collected, Some(marker)) ==> m.id <= marker) <==>
              ((exists m :: m in collected && m.id == marker) || forall m :: m in collected && IsText(m) ==> m.id <= marker)
  {
    hide IsText, Exported;
    if exists m :: m in collected && m.id == marker {
      forall m | m in Exported(collected, Some(marker)) ensures m.id <= marker {
        ExportedMembers(collected, marker, m);
        assert IsPromised(m, marker);
      }
    } else {
      forall m ensures m in Exported(collected, Some(marker)) <==> m in collected && IsText(m) {
        ExportedWithoutMarker(collected, marker, m);
      }
    }
  }

  lemma ExportedWithoutMarker(newestFirst: seq<Row>, marker: nat, m: Row)
    requires forall x :: x in newestFirst ==> x.id != marker
    ensures m in Exported(newestFirst, Some(marker)) <==> m in newestFirst && IsText(m)
  {
    hide IsText;
    var all := Reversed(newestFirst);
    ReversedMembers(newestFirst, m);
    assert forall i :: 0 <= i < |all| ==> all[i] in newestFirst;
    FilteredMembers(all, IsText, m);
  }

  /** The marker is still a message of these rows, or none of their finished messages is newer. */
  ghost predicate Limits(rows: seq<Row>, marker: nat) {
    || (exists m :: m in rows && IsLive(m) && m.id == marker)
    || (forall m :: m in rows && IsText(m) ==> m.id <= marker)
  }

  lemma LimitsByLive(rows: seq<Row>, marker: nat)
    ensures Limits(rows, marker) <==>
              ((exists m :: m in Live(rows) && m.id == marker) || forall m :: m in Live(rows) && IsText(m) ==> m.id <= marker)
  {
    hide Live, Strip;
    LiveMembers(rows);
    if m :| m in rows && IsLive(m) && m.id == marker {
      assert m in Live(rows);
    }
  }

  /**
   "Never beyond the snapshot" is a matter of the rows the pages reach, which are all rows without
   gaps and within the limit: a marker that was deleted in the meantime limits nothing.
   */
  lemma StaysWithinTheSnapshot(s: Partition, maxMessages: nat, marker: nat)
    ensures (forall m :: m in Exported(Collected(s, maxMessages), Some(marker)) ==> m.id <= marker) <==>
              Limits(s[..ReadTo(s, maxMessages, 0)], marker)
    ensures |Live(s)| <= maxMessages && !HasGap(s) ==>
              (Limits(s[..ReadTo(s, maxMessages, 0)], marker) <==> Limits(s, marker))
  {
    hide Exported, Live, ReadTo, HasGap, Limits, IsText;
    CollectedWithinMarker(Collected(s, maxMessages), marker);
    LimitsByLive(s[..ReadTo(s, maxMessages, 0)], marker);
    LimitsByLive(s, marker);
    if |Live(s)| <= maxMessages && !HasGap(s) {
      CollectsAllWithoutGaps(s, maxMessages);
    }
  }

  const QUESTION := Row(5, User, "a", 1, Sent, [])

  const AFTERWARDS := Row(9, User, "b", 2, Sent, [])

  /** The export was requested at `QUESTION`, which was deleted since; what was said afterwards is exported. */
  lemma DeletedMarkerLimitsNothing(s: Partition)
    requires s == [AFTERWARDS, QUESTION.(status := Deleted)]
    ensures Marker([QUESTION]) == Some(5)
    ensures |Live(s)| <= 1000 && !HasGap(s)
    ensures exists m :: m in Exported(Collected(s, 1000), Some(5)) && m.id > 5
  {
    hide Exported, Live, ReadTo, IsText, History;
    MarkerIsNewest([QUESTION]);
    LiveMembers(s);
    StaysWithinTheSnapshot(s, 1000, 5);
    AfterwardsIsText();
    assert s[0] in s && s[0].id == 9;
  }

  lemma AfterwardsIsText()
    ensures IsText(AFTERWARDS)
  {
    assert "b"[0] == 'b';
  }
}
