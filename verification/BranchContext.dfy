/**
 What a branch inherits: `_segment_messages`, `inherited_history` and the documents of `context`
 (app/services/branch_context_service.py).
 */
module BranchContext {
  import opened BranchLineage
  import opened HistoryBudget
  import opened MessageRows
  import opened Sequences
  import opened Text
  import opened Wrappers

  /** The rows of every conversation. */
  type Store = map<nat, Partition>

  function RowsIn(store: Store, c: nat): Partition {
    if c in store then store[c] else []
  }

  const MAX_MESSAGES := 16
  const MAX_MESSAGE_CHARS := 2000
  const MAX_CHARS := 12000
  const SCAN_PER_SEGMENT := 200
  const MAX_DOCUMENTS := 50

  // ------------------------------------------------------------------ specification

  function InTime(upto: int): Row -> bool {
    (m: Row) => m.created <= upto
  }

  /** The stored messages of a segment within its boundary, newest first. */
  function SegmentRows(store: Store, seg: Segment, limit: nat): seq<Row> {
    var rows := RowsIn(store, seg.conversation);
    if seg.uptoMessage.Some? then HistoryUpto(rows, seg.uptoMessage.value, limit)
    else if seg.uptoTime.Some? then Filtered(History(rows, limit, None), InTime(seg.uptoTime.value))
    else History(rows, limit, None)
  }

  function SegmentMessages(store: Store, seg: Segment, limit: nat): seq<Row> {
    Filtered(SegmentRows(store, seg, limit), Usable)
  }

  function SegmentTurns(store: Store, seg: Segment): seq<Turn> {
    UsableTurns(seg.conversation, SegmentMessages(store, seg, MAX_MESSAGES * 2), MAX_MESSAGE_CHARS)
  }

  /** The candidates of a list of segments, nearest first. */
  function AllTurns(store: Store, nearestFirst: seq<Segment>): seq<Turn> {
    if nearestFirst == [] then []
    else AllTurns(store, nearestFirst[..|nearestFirst| - 1]) + SegmentTurns(store, nearestFirst[|nearestFirst| - 1])
  }

  function MessageIdOf(t: Turn): nat {
    t.messageId
  }

  /** The longest fitting list of different messages, nearest ancestor first. */
  function Picked(store: Store, nearestFirst: seq<Segment>): seq<Turn> {
    LongestFitting(FirstOnes(AllTurns(store, nearestFirst), MessageIdOf), MAX_MESSAGES, MAX_CHARS)
  }

  /** The inherited history of a lineage (root first), oldest first. */
  function Inherited(store: Store, segments: seq<Segment>): seq<Turn> {
    Reversed(Picked(store, Reversed(segments)))
  }

  datatype Document = Document(id: nat, conversation: nat, title: string, message: nat)

  function FilesOf(seg: Segment, m: Row): (r: seq<Document>) {
    if m.sender != User then []
    else seq(|m.fileIds|, i requires 0 <= i < |m.fileIds| => Document(m.fileIds[i], seg.conversation, seg.title, m.id))
  }

  function FilesOfAll(seg: Segment, rows: seq<Row>): seq<Document> {
    if rows == [] then [] else FilesOfAll(seg, rows[..|rows| - 1]) + FilesOf(seg, rows[|rows| - 1])
  }

  function SegmentFiles(store: Store, seg: Segment): seq<Document> {
    FilesOfAll(seg, Reversed(SegmentMessages(store, seg, SCAN_PER_SEGMENT)))
  }

  /** The files attached anywhere in a list of segments, root first. */
  function AllFiles(store: Store, segments: seq<Segment>): seq<Document> {
    if segments == [] then []
    else AllFiles(store, segments[..|segments| - 1]) + SegmentFiles(store, segments[|segments| - 1])
  }

  function DocumentIdOf(d: Document): nat {
    d.id
  }

  /** The first 50 different ones. */
  function Documents(store: Store, segments: seq<Segment>): seq<Document> {
    Clip(FirstOnes(AllFiles(store, segments), DocumentIdOf), MAX_DOCUMENTS)
  }

  // ------------------------------------------------------------------ inherited_history

  lemma Picking(all: seq<Turn>, done: seq<Turn>, t: Turn)
    requires done + [t] <= all
    requires var picked := FirstOnes(done, MessageIdOf);
             && t.messageId !in KeysOf(picked, MessageIdOf)
             && Fits(picked, MAX_MESSAGES, MAX_CHARS)
             && (|picked| >= MAX_MESSAGES || Chars(picked) + |t.content| > MAX_CHARS)
    ensures LongestFitting(FirstOnes(all, MessageIdOf), MAX_MESSAGES, MAX_CHARS) == FirstOnes(done, MessageIdOf)
  {
    var picked := FirstOnes(done, MessageIdOf);
    FirstOnesStep(done, t, MessageIdOf);
    assert all == done + [t] + all[|done| + 1..];
    FirstOnesGrow(done + [t], all[|done| + 1..], MessageIdOf);
    var firsts := FirstOnes(all, MessageIdOf);
    assert firsts[..|picked| + 1] == picked + [t];
    assert (picked + [t])[..|picked|] == picked;
    StopsAtLongest(firsts, MAX_MESSAGES, MAX_CHARS, picked);
  }

  lemma AllTurnsStep(store: Store, segs: seq<Segment>, i: nat)
    requires i < |segs|
    ensures AllTurns(store, segs[..i + 1]) == AllTurns(store, segs[..i]) + SegmentTurns(store, segs[i])
  {
    assert segs[..i + 1][..i] == segs[..i];
  }

  lemma {:induction false} AllTurnsGrow(store: Store, segs: seq<Segment>, i: nat)
    requires i <= |segs|
    ensures AllTurns(store, segs[..i]) <= AllTurns(store, segs)
    decreases |segs| - i
  {
    hide AllTurns, SegmentTurns;
    if i < |segs| {
      AllTurnsStep(store, segs, i);
      AllTurnsGrow(store, segs, i + 1);
    } else {
      assert segs[..i] == segs;
    }
  }

  /** Every message `_segment_messages` returns is usable, so it is a candidate. */
  lemma {:induction false} TurnsOfUsable(c: nat, rows: seq<Row>, j: nat)
    requires j < |rows| && forall m :: m in rows ==> Usable(m)
    ensures UsableTurns(c, rows[..j], MAX_MESSAGE_CHARS) + [TurnOf(c, rows[j], MAX_MESSAGE_CHARS)] ==
              UsableTurns(c, rows[..j + 1], MAX_MESSAGE_CHARS)
    ensures UsableTurns(c, rows[..j + 1], MAX_MESSAGE_CHARS) <= UsableTurns(c, rows, MAX_MESSAGE_CHARS)
  {
    assert rows[j] in rows;
    UsableStep(c, rows, j, MAX_MESSAGE_CHARS);
    UsableGrow(c, rows, j + 1, MAX_MESSAGE_CHARS);
  }

  lemma SegmentMessagesAreUsable(store: Store, seg: Segment, limit: nat)
    ensures forall m :: m in SegmentMessages(store, seg, limit) ==> Usable(m)
  {
    forall m | m in SegmentMessages(store, seg, limit) ensures Usable(m) {
      FilteredMembers(SegmentRows(store, seg, limit), Usable, m);
    }
  }

  /** Where the loops are: `done` has been looked at, what comes next is t. */
  lemma NextTurn(store: Store, segs: seq<Segment>, i: nat, j: nat)
    requires i < |segs| && j < |SegmentMessages(store, segs[i], MAX_MESSAGES * 2)|
    ensures var seg := segs[i];
            var rows := SegmentMessages(store, seg, MAX_MESSAGES * 2);
            var done := AllTurns(store, segs[..i]) + UsableTurns(seg.conversation, rows[..j], MAX_MESSAGE_CHARS);
            var t := TurnOf(seg.conversation, rows[j], MAX_MESSAGE_CHARS);
            && done + [t] <= AllTurns(store, segs)
            && done + [t] == AllTurns(store, segs[..i]) + UsableTurns(seg.conversation, rows[..j + 1], MAX_MESSAGE_CHARS)
  {
    hide AllTurns, UsableTurns, SegmentMessages, Usable, Strip;
    var seg := segs[i];
    var rows := SegmentMessages(store, seg, MAX_MESSAGES * 2);
    SegmentMessagesAreUsable(store, seg, MAX_MESSAGES * 2);
    TurnsOfUsable(seg.conversation, rows, j);
    AllTurnsStep(store, segs, i);
    AllTurnsGrow(store, segs, i + 1);
    NextInPrefix(AllTurns(store, segs[..i]), UsableTurns(seg.conversation, rows[..j], MAX_MESSAGE_CHARS),
                 TurnOf(seg.conversation, rows[j], MAX_MESSAGE_CHARS),
                 UsableTurns(seg.conversation, rows, MAX_MESSAGE_CHARS), AllTurns(store, segs));
  }

  lemma NextInPrefix(a: seq<Turn>, u: seq<Turn>, t: Turn, segment: seq<Turn>, all: seq<Turn>)
    requires u + [t] <= segment && a + segment <= all
    ensures a + u + [t] == a + (u + [t]) && a + u + [t] <= all
  {
    assert a + (u + [t]) <= a + segment;
  }

  /** The state of the loops while everything so far fitted. */
  ghost predicate Fitting(done: seq<Turn>, picked: seq<Turn>, seen: set<nat>, chars: int) {
    && picked == FirstOnes(done, MessageIdOf)
    && seen == KeysOf(picked, MessageIdOf)
    && chars == MAX_CHARS - Chars(picked)
    && Fits(picked, MAX_MESSAGES, MAX_CHARS)
  }

  lemma FittingSkips(done: seq<Turn>, picked: seq<Turn>, seen: set<nat>, chars: int, t: Turn)
    requires Fitting(done, picked, seen, chars) && t.messageId in seen
    ensures Fitting(done + [t], picked, seen, chars)
  {
    FirstOnesStep(done, t, MessageIdOf);
  }

  lemma FittingPicks(done: seq<Turn>, picked: seq<Turn>, seen: set<nat>, chars: int, t: Turn)
    requires Fitting(done, picked, seen, chars) && t.messageId !in seen
    requires |picked| < MAX_MESSAGES && chars - |t.content| >= 0
    ensures Fitting(done + [t], picked + [t], seen + {t.messageId}, chars - |t.content|)
  {
    FirstOnesStep(done, t, MessageIdOf);
    KeysOfAppended(picked, t, MessageIdOf);
    assert (picked + [t])[..|picked|] == picked;
  }

  /** `inherited_history`: nearest ancestor first, stopping at the first message that does not fit. */
  method InheritedHistory(store: Store, segments: seq<Segment>) returns (history: seq<Turn>)
    ensures history == Inherited(store, segments)
  {
    hide AllTurns, FirstOnes, LongestFitting, UsableTurns, SegmentMessages, Fitting, Strip, Reversed, KeysOf, Chars;
    var picked: seq<Turn> := [];
    var seen: set<nat> := {};
    var chars := MAX_CHARS;
    var full := false;
    var segs := Reversed(segments);
    ghost var all := AllTurns(store, segs);
    NothingPicked(store, segs);
    for i := 0 to |segs|
      invariant !full && Fitting(AllTurns(store, segs[..i]), picked, seen, chars)
    {
      var c := segs[i].conversation;
      var rows := SegmentMessages(store, segs[i], MAX_MESSAGES * 2);
      NoTurns(c, rows[..0], MAX_MESSAGE_CHARS);
      ghost var done := AllTurns(store, segs[..i]);
      assert done + [] == done;
      for j := 0 to |rows|
        invariant !full
        invariant done == AllTurns(store, segs[..i]) + UsableTurns(c, rows[..j], MAX_MESSAGE_CHARS)
        invariant Fitting(done, picked, seen, chars)
      {
        var m := rows[j];
        ghost var t := TurnOf(c, m, MAX_MESSAGE_CHARS);
        NextTurn(store, segs, i, j);
        if m.id in seen {
          FittingSkips(done, picked, seen, chars, t);
          done := done + [t];
          continue;
        }
        var text := Clip(Strip(m.content), MAX_MESSAGE_CHARS);
        if |picked| >= MAX_MESSAGES || (picked != [] && chars - |text| < 0) {
          full := true;
          DoesNotFit(all, done, picked, seen, chars, t);
          break;
        }
        FirstAlwaysFits(done, picked, seen, chars);
        FittingPicks(done, picked, seen, chars, t);
        done := done + [t];
        seen := seen + {m.id};
        chars := chars - |text|;
        picked := picked + [Turn(m.sender, text, c, m.id)];
      }
      if full {
        break;
      }
      assert rows[..|rows|] == rows;
      AllTurnsStep(store, segs, i);
    }
    if !full {
      assert segs[..|segs|] == segs;
      EverythingFits(all, picked, seen, chars);
    }
    history := Reversed(picked);
  }

  lemma NothingPicked(store: Store, segs: seq<Segment>)
    ensures Fitting(AllTurns(store, segs[..0]), [], {}, MAX_CHARS)
  {
  }

  lemma FirstAlwaysFits(done: seq<Turn>, picked: seq<Turn>, seen: set<nat>, chars: int)
    requires Fitting(done, picked, seen, chars)
    ensures picked == [] ==> chars == MAX_CHARS
    ensures |picked| <= MAX_MESSAGES
  {
  }

  lemma DoesNotFit(all: seq<Turn>, done: seq<Turn>, picked: seq<Turn>, seen: set<nat>, chars: int, t: Turn)
    requires Fitting(done, picked, seen, chars) && t.messageId !in seen && done + [t] <= all
    requires |picked| >= MAX_MESSAGES || chars - |t.content| < 0
    ensures LongestFitting(FirstOnes(all, MessageIdOf), MAX_MESSAGES, MAX_CHARS) == picked
  {
    Picking(all, done, t);
  }

  lemma EverythingFits(all: seq<Turn>, picked: seq<Turn>, seen: set<nat>, chars: int)
    requires Fitting(all, picked, seen, chars)
    ensures LongestFitting(FirstOnes(all, MessageIdOf), MAX_MESSAGES, MAX_CHARS) == picked
  {
  }

  /** Within both budgets, and nothing longer that starts at the same end is. */
  lemma InheritedIsLongest(store: Store, segments: seq<Segment>, q: seq<Turn>)
    requires q <= FirstOnes(AllTurns(store, Reversed(segments)), MessageIdOf) && Fits(q, MAX_MESSAGES, MAX_CHARS)
    ensures Fits(Reversed(Inherited(store, segments)), MAX_MESSAGES, MAX_CHARS)
    ensures q <= Reversed(Inherited(store, segments)) <= FirstOnes(AllTurns(store, Reversed(segments)), MessageIdOf)
  {
    hide FirstOnes, AllTurns;
    ReversedTwice(Picked(store, Reversed(segments)));
    LongestIsMaximal(FirstOnes(AllTurns(store, Reversed(segments)), MessageIdOf), MAX_MESSAGES, MAX_CHARS, q);
  }

  // ------------------------------------------------------------------ the documents of `context`

  /** The state of the loops over files. */
  ghost predicate Listed(done: seq<Document>, documents: seq<Document>, seen: set<nat>) {
    documents == Clip(FirstOnes(done, DocumentIdOf), MAX_DOCUMENTS) && seen == KeysOf(documents, DocumentIdOf)
  }

  lemma ListedStep(done: seq<Document>, documents: seq<Document>, seen: set<nat>, d: Document)
    requires Listed(done, documents, seen)
    ensures d.id in seen || |documents| >= MAX_DOCUMENTS ==> Listed(done + [d], documents, seen)
    ensures d.id !in seen && |documents| < MAX_DOCUMENTS ==> Listed(done + [d], documents + [d], seen + {d.id})
  {
    FirstOnesStep(done, d, DocumentIdOf);
    KeysOfAppended(documents, d, DocumentIdOf);
    var firsts := FirstOnes(done, DocumentIdOf);
    if |documents| >= MAX_DOCUMENTS {
      assert FirstOnes(done + [d], DocumentIdOf)[..MAX_DOCUMENTS] == firsts[..MAX_DOCUMENTS];
    }
  }

  lemma FilesStep(seg: Segment, rows: seq<Row>, j: nat)
    requires j < |rows|
    ensures FilesOfAll(seg, rows[..j + 1]) == FilesOfAll(seg, rows[..j]) + FilesOf(seg, rows[j])
  {
    assert rows[..j + 1][..j] == rows[..j];
  }

  lemma AllFilesStep(store: Store, segs: seq<Segment>, i: nat)
    requires i < |segs|
    ensures AllFiles(store, segs[..i + 1]) == AllFiles(store, segs[..i]) + SegmentFiles(store, segs[i])
  {
    assert segs[..i + 1][..i] == segs[..i];
  }

  lemma NothingListed(store: Store, segs: seq<Segment>, seg: Segment, rows: seq<Row>)
    ensures Listed(AllFiles(store, segs[..0]), [], {}) && FilesOfAll(seg, rows[..0]) == []
  {
  }

  /** Adds the files of one message to the documents. */
  method AddFiles(seg: Segment, m: Row, documents: seq<Document>, seen: set<nat>, ghost done: seq<Document>)
    returns (documents': seq<Document>, seen': set<nat>)
    requires Listed(done, documents, seen)
    ensures Listed(done + FilesOf(seg, m), documents', seen')
  {
    hide Listed;
    documents', seen' := documents, seen;
    assert done + [] == done;
    if m.sender != User {
      return;
    }
    ghost var files := FilesOf(seg, m);
    assert files[..0] == [];
    for k := 0 to |m.fileIds|
      invariant Listed(done + files[..k], documents', seen')
    {
      var fid := m.fileIds[k];
      var document := Document(fid, seg.conversation, seg.title, m.id);
      ListedStep(done + files[..k], documents', seen', document);
      assert done + files[..k] + [document] == done + files[..k + 1];
      if fid in seen' || |documents'| >= MAX_DOCUMENTS {
        continue;
      }
      seen' := seen' + {fid};
      documents' := documents' + [document];
    }
    assert files[..|files|] == files;
  }

  /** The documents of `context`: root first, oldest message first, each once, at most 50. */
  method InheritedDocuments(store: Store, segments: seq<Segment>) returns (documents: seq<Document>)
    ensures documents == Documents(store, segments)
  {
    hide Listed, AllFiles, FilesOfAll, FilesOf, Reversed, SegmentMessages;
    documents := [];
    var seen: set<nat> := {};
    for i := 0 to |segments|
      invariant Listed(AllFiles(store, segments[..i]), documents, seen) || i == 0
      invariant i == 0 ==> documents == [] && seen == {}
    {
      var seg := segments[i];
      var rows := Reversed(SegmentMessages(store, seg, SCAN_PER_SEGMENT));
      ghost var before := AllFiles(store, segments[..i]);
      NothingListed(store, segments, seg, rows);
      assert before + [] == before;
      for j := 0 to |rows|
        invariant Listed(before + FilesOfAll(seg, rows[..j]), documents, seen)
      {
        FilesStep(seg, rows, j);
        ghost var done := before + FilesOfAll(seg, rows[..j]);
        assert done + FilesOf(seg, rows[j]) == before + FilesOfAll(seg, rows[..j + 1]);
        documents, seen := AddFiles(seg, rows[j], documents, seen, done);
      }
      assert rows[..|rows|] == rows;
      AllFilesStep(store, segments, i);
    }
    assert segments[..|segments|] == segments;
    ListedIsAll(store, segments, documents, seen);
  }

  lemma ListedIsAll(store: Store, segments: seq<Segment>, documents: seq<Document>, seen: set<nat>)
    requires Listed(AllFiles(store, segments), documents, seen) || (segments == [] && documents == [])
    ensures documents == Documents(store, segments)
  {
  }

  // ------------------------------------------------------------------ what is inherited, message by message

  /**
   The messages of a segment that count: stored, finished user or assistant text, and among the newest
   `limit` stored rows up to and including the branch message. Old branches have a time instead, which
   is looked at only within the newest rows of all.
   */
  lemma SegmentHolds(store: Store, seg: Segment, limit: nat, m: Row)
    ensures var rows := RowsIn(store, seg.conversation);
            var bound := if seg.uptoMessage.Some? then Some(seg.uptoMessage.value + 1) else None;
            m in SegmentMessages(store, seg, limit) <==>
              && m in rows && m.sender in {User, Assistant} && m.status == Sent && Strip(m.content) != []
              && (seg.uptoMessage.Some? ==> m.id <= seg.uptoMessage.value)
              && (seg.uptoMessage.None? && seg.uptoTime.Some? ==> m.created <= seg.uptoTime.value)
              && |Before(rows, m.id, bound)| < limit
  {
    var rows := RowsIn(store, seg.conversation);
    PageMembers(rows, limit, if seg.uptoMessage.Some? then Some(seg.uptoMessage.value + 1) else None, m);
    FilteredMembers(SegmentRows(store, seg, limit), Usable, m);
    if seg.uptoMessage.None? && seg.uptoTime.Some? {
      FilteredMembers(History(rows, limit, None), InTime(seg.uptoTime.value), m);
    }
    hide Filtered, History, HistoryUpto, Before, Strip;
  }

  /** The branch message comes first among the rows up to it. */
  lemma BranchMessageIsNewest(s: Partition, m: Row, limit: nat)
    requires m in s && m.status != Deleted && limit > 0
    ensures HistoryUpto(s, m.id, limit) != [] && HistoryUpto(s, m.id, limit)[0] == m
  {
    var below := Below(s, Some(m.id + 1));
    BelowMembers(s, Some(m.id + 1), m);
    var n := FirstBelow(s, Some(m.id + 1));
    assert below[0] == s[n] && s[n].id <= m.id;
    var j :| 0 <= j < |s| && s[j] == m;
    Ordered(s, n, j);
    assert Clip(below, limit)[0] == m;
  }

  lemma {:induction false} FilteredKeepsFirst<T>(s: seq<T>, keep: T -> bool)
    requires s != [] && keep(s[0])
    ensures Filtered(s, keep) != [] && Filtered(s, keep)[0] == s[0]
    decreases |s|
  {
    if |s| > 1 {
      FilteredKeepsFirst(s[..|s| - 1], keep);
    } else {
      assert Filtered(s[..0], keep) == [];
    }
  }

  lemma {:induction false} TurnsKeepFirst(conversation: nat, rows: seq<Row>, maxLength: nat)
    requires rows != [] && Usable(rows[0])
    ensures var ts := UsableTurns(conversation, rows, maxLength);
            ts != [] && ts[0] == Turn(rows[0].sender, Clip(Strip(rows[0].content), maxLength), conversation, rows[0].id)
    decreases |rows|
  {
    if |rows| > 1 {
      TurnsKeepFirst(conversation, rows[..|rows| - 1], maxLength);
    } else {
      assert UsableTurns(conversation, rows[..0], maxLength) == [];
    }
  }

  lemma {:induction false} AllTurnsKeepFirst(store: Store, segs: seq<Segment>)
    requires segs != [] && SegmentTurns(store, segs[0]) != []
    ensures AllTurns(store, segs) != [] && AllTurns(store, segs)[0] == SegmentTurns(store, segs[0])[0]
    decreases |segs|
  {
    hide SegmentTurns;
    if |segs| > 1 {
      AllTurnsKeepFirst(store, segs[..|segs| - 1]);
    } else {
      assert AllTurns(store, segs[..0]) == [];
    }
  }

  lemma FirstOnesKeepFirst(all: seq<Turn>)
    requires all != []
    ensures [all[0]] <= FirstOnes(all, MessageIdOf)
  {
    FirstOnesStep([], all[0], MessageIdOf);
    assert [] + [all[0]] == [all[0]] && KeysOf([], MessageIdOf) == {};
    assert FirstOnes([], MessageIdOf) == [];
    hide FirstOnes, KeysOf;
    assert FirstOnes([all[0]], MessageIdOf) == [all[0]];
    FirstOnesGrow([all[0]], all[1..], MessageIdOf);
    assert [all[0]] + all[1..] == all;
  }

  lemma OneFits(t: Turn)
    requires |t.content| <= MAX_CHARS
    ensures Fits([t], MAX_MESSAGES, MAX_CHARS)
  {
    assert [t][..0] == [] && Chars([]) == 0;
  }

  lemma FirstIsPicked(all: seq<Turn>)
    requires all != [] && |all[0].content| <= MAX_CHARS
    ensures var p := LongestFitting(FirstOnes(all, MessageIdOf), MAX_MESSAGES, MAX_CHARS); p != [] && p[0] == all[0]
  {
    hide FirstOnes, LongestFitting, Fits;
    FirstOnesKeepFirst(all);
    OneFits(all[0]);
    LongestIsMaximal(FirstOnes(all, MessageIdOf), MAX_MESSAGES, MAX_CHARS, [all[0]]);
  }

  /** A branch begins with the message it was taken at: its text is the last turn of the inherited history. */
  lemma BranchMessageIsInherited(store: Store, segments: seq<Segment>, m: Row)
    requires segments != [] && m in RowsIn(store, segments[|segments| - 1].conversation)
    requires segments[|segments| - 1].uptoMessage == Some(m.id)
    requires m.sender in {User, Assistant} && m.status == Sent && Strip(m.content) != []
    ensures var history := Inherited(store, segments);
            && history != []
            && history[|history| - 1] == Turn(m.sender, Clip(Strip(m.content), 2000), segments[|segments| - 1].conversation, m.id)
  {
    var seg := segments[|segments| - 1];
    var rows := SegmentRows(store, seg, MAX_MESSAGES * 2);
    BranchMessageIsNewest(RowsIn(store, seg.conversation), m, MAX_MESSAGES * 2);
    FilteredKeepsFirst(rows, Usable);
    TurnsKeepFirst(seg.conversation, Filtered(rows, Usable), MAX_MESSAGE_CHARS);
    hide SegmentRows, Filtered, UsableTurns, Strip, AllTurns, FirstOnes, LongestFitting, RowsIn;
    var nearestFirst := Reversed(segments);
    assert nearestFirst[0] == seg;
    AllTurnsKeepFirst(store, nearestFirst);
    FirstIsPicked(AllTurns(store, nearestFirst));
  }

  lemma {:induction false} FilesOfAllHold(seg: Segment, rows: seq<Row>, m: Row, d: Document)
    requires m in rows && d in FilesOf(seg, m)
    ensures d in FilesOfAll(seg, rows)
    decreases |rows|
  {
    var last := rows[|rows| - 1];
    if m != last {
      assert rows == rows[..|rows| - 1] + [last];
      FilesOfAllHold(seg, rows[..|rows| - 1], m, d);
    }
  }

  lemma {:induction false} AllFilesHold(store: Store, segments: seq<Segment>, i: nat, d: Document)
    requires i < |segments| && d in SegmentFiles(store, segments[i])
    ensures d in AllFiles(store, segments)
    decreases |segments|
  {
    hide SegmentFiles;
    if i < |segments| - 1 {
      AllFilesHold(store, segments[..|segments| - 1], i, d);
    }
  }

  /**
   The files of a prompt that counts in some segment are among the documents, at least under the same
   file id, unless there are more than 50 different ones.
   */
  lemma FilesAreInherited(store: Store, segments: seq<Segment>, i: nat, m: Row, k: nat)
    requires i < |segments| && m in SegmentMessages(store, segments[i], 200) && m.sender == User && k < |m.fileIds|
    ensures var d := Document(m.fileIds[k], segments[i].conversation, segments[i].title, m.id);
            var candidates := AllFiles(store, segments);
            && d in candidates
            && (|KeysOf(candidates, DocumentIdOf)| <= 50 ==> exists x :: x in Documents(store, segments) && x.id == m.fileIds[k])
  {
    hide AllFiles, SegmentMessages, FilesOfAll, FirstOnes, KeysOf;
    var rows := SegmentMessages(store, segments[i], SCAN_PER_SEGMENT);
    var d := Document(m.fileIds[k], segments[i].conversation, segments[i].title, m.id);
    assert FilesOf(segments[i], m)[k] == d;
    hide FilesOf;
    var j :| 0 <= j < |rows| && rows[j] == m;
    assert Reversed(rows)[|rows| - 1 - j] == m;
    FilesOfAllHold(segments[i], Reversed(rows), m, d);
    AllFilesHold(store, segments, i, d);
    if |KeysOf(AllFiles(store, segments), DocumentIdOf)| <= 50 {
      FewAreAll(AllFiles(store, segments), d);
    }
  }

  /** So the files of the message a branch was taken at are, at every level. */
  lemma BranchFilesAreInherited(store: Store, segments: seq<Segment>, i: nat, m: Row, k: nat)
    requires i < |segments| && segments[i].uptoMessage == Some(m.id) && m in RowsIn(store, segments[i].conversation)
    requires m.sender == User && m.status == Sent && Strip(m.content) != [] && k < |m.fileIds|
    ensures var d := Document(m.fileIds[k], segments[i].conversation, segments[i].title, m.id);
            var candidates := AllFiles(store, segments);
            && d in candidates
            && (|KeysOf(candidates, DocumentIdOf)| <= 50 ==> exists x :: x in Documents(store, segments) && x.id == m.fileIds[k])
  {
    BranchMessageIsNewest(RowsIn(store, segments[i].conversation), m, SCAN_PER_SEGMENT);
    FilteredMembers(SegmentRows(store, segments[i], SCAN_PER_SEGMENT), Usable, m);
    hide AllFiles, Documents, Filtered, HistoryUpto, KeysOf;
    FilesAreInherited(store, segments, i, m, k);
  }

  lemma FewAreAll(all: seq<Document>, d: Document)
    requires d in all && |KeysOf(all, DocumentIdOf)| <= MAX_DOCUMENTS
    ensures exists x :: x in Clip(FirstOnes(all, DocumentIdOf), MAX_DOCUMENTS) && x.id == d.id
  {
    var r := FirstOnes(all, DocumentIdOf);
    FirstOnesKeys(all, DocumentIdOf);
    hide FirstOnes;
    DistinctKeys(r);
    var i :| 0 <= i < |all| && all[i] == d;
    assert DocumentIdOf(all[i]) in KeysOf(all, DocumentIdOf);
    assert d.id in KeysOf(r, DocumentIdOf);
    var j :| 0 <= j < |r| && DocumentIdOf(r[j]) == d.id;
    assert r[j] in r;
  }

  lemma {:induction false} DistinctKeys(r: seq<Document>)
    requires forall i, j :: 0 <= i < j < |r| ==> DocumentIdOf(r[i]) != DocumentIdOf(r[j])
    ensures |KeysOf(r, DocumentIdOf)| == |r|
  {
    if r == [] {
      assert KeysOf(r, DocumentIdOf) == {};
    } else {
      var front := r[..|r| - 1];
      DistinctKeys(front);
      KeysOfAppended(front, r[|r| - 1], DocumentIdOf);
      assert r == front + [r[|r| - 1]];
    }
  }

  // ------------------------------------------------------------------ non-interference

  /** Every step of the lineage has a recorded branch message. */
  predicate HasBoundaries(segments: seq<Segment>) {
    forall i :: 0 <= i < |segments| ==> segments[i].uptoMessage.Some?
  }

  /** Two stores hold the same rows at and below every boundary. */
  ghost predicate Agree(a: Store, b: Store, segments: seq<Segment>)
    requires HasBoundaries(segments)
  {
    forall i :: 0 <= i < |segments| ==>
      var last := Some(segments[i].uptoMessage.value + 1);
      Below(RowsIn(a, segments[i].conversation), last) == Below(RowsIn(b, segments[i].conversation), last)
  }

  lemma SameSegment(a: Store, b: Store, seg: Segment)
    requires seg.uptoMessage.Some?
    requires var last := Some(seg.uptoMessage.value + 1);
             Below(RowsIn(a, seg.conversation), last) == Below(RowsIn(b, seg.conversation), last)
    ensures SegmentTurns(a, seg) == SegmentTurns(b, seg)
    ensures SegmentFiles(a, seg) == SegmentFiles(b, seg)
  {
    forall limit: nat ensures SegmentRows(a, seg, limit) == SegmentRows(b, seg, limit) {
    }
    hide SegmentRows, FilesOfAll, UsableTurns;
  }

  lemma {:induction false} SameSegments(a: Store, b: Store, segments: seq<Segment>)
    requires HasBoundaries(segments) && Agree(a, b, segments)
    ensures AllTurns(a, segments) == AllTurns(b, segments)
    ensures AllFiles(a, segments) == AllFiles(b, segments)
  {
    hide SegmentTurns, SegmentFiles, Below, RowsIn;
    if segments != [] {
      SameSegments(a, b, segments[..|segments| - 1]);
      SameSegment(a, b, segments[|segments| - 1]);
    }
  }

  lemma AgreeReversed(a: Store, b: Store, segments: seq<Segment>)
    requires HasBoundaries(segments) && Agree(a, b, segments)
    ensures HasBoundaries(Reversed(segments)) && Agree(a, b, Reversed(segments))
  {
    hide Below, RowsIn;
  }

  /** What a branch inherits depends on nothing but the rows up to its boundaries. */
  lemma InheritsUpToBoundaries(a: Store, b: Store, segments: seq<Segment>)
    requires HasBoundaries(segments) && Agree(a, b, segments)
    ensures Inherited(a, segments) == Inherited(b, segments)
    ensures Documents(a, segments) == Documents(b, segments)
  {
    hide AllTurns, AllFiles, Agree, HasBoundaries, LongestFitting, FirstOnes;
    AgreeReversed(a, b, segments);
    SameSegments(a, b, Reversed(segments));
    SameSegments(a, b, segments);
  }

  /** A row written to some conversation: a new message, an edit or a soft delete. */
  datatype Write = Write(conversation: nat, row: Row)

  function Written(store: Store, w: Write): Store {
    store[w.conversation := Put(RowsIn(store, w.conversation), w.row)]
  }

  function WrittenAll(store: Store, ws: seq<Write>): Store {
    if ws == [] then store else Written(WrittenAll(store, ws[..|ws| - 1]), ws[|ws| - 1])
  }

  /** If it is to one of the ancestors, it is to a message above the boundary there. */
  predicate IsAbove(segments: seq<Segment>, w: Write) {
    forall i :: 0 <= i < |segments| && segments[i].conversation == w.conversation ==>
      segments[i].uptoMessage.Some? && w.row.id > segments[i].uptoMessage.value
  }

  lemma BelowHead(s: seq<Row>, last: nat)
    requires s != [] && s[0].id > last
    ensures Below(s, Some(last + 1)) == Below(s[1..], Some(last + 1))
  {
  }

  lemma {:induction false} PutAbove(s: Partition, row: Row, last: nat)
    requires row.id > last
    ensures Below(Put(s, row), Some(last + 1)) == Below(s, Some(last + 1))
  {
    hide Below;
    var r := Put(s, row);
    BelowHead(r, last);
    if s == [] || s[0].id < row.id {
      assert r[1..] == s;
    } else {
      BelowHead(s, last);
      if row.id < s[0].id {
        PutAbove(s[1..], row, last);
        assert r[1..] == Put(s[1..], row);
      } else {
        assert r[1..] == s[1..];
      }
    }
  }

  lemma WriteAgrees(store: Store, segments: seq<Segment>, w: Write)
    requires HasBoundaries(segments) && IsAbove(segments, w)
    ensures Agree(store, Written(store, w), segments)
  {
    hide Below, Put;
    forall i | 0 <= i < |segments|
      ensures var last := Some(segments[i].uptoMessage.value + 1);
              Below(RowsIn(store, segments[i].conversation), last) == Below(RowsIn(Written(store, w), segments[i].conversation), last)
    {
      if segments[i].conversation == w.conversation {
        PutAbove(RowsIn(store, w.conversation), w.row, segments[i].uptoMessage.value);
      }
    }
  }

  /**
   Whatever is written above the boundaries in the ancestors, and anywhere in the conversation
   itself, in siblings or in unrelated conversations, leaves what a branch inherits as it was.
   */
  lemma {:induction false} BranchesDoNotInterfere(store: Store, segments: seq<Segment>, ws: seq<Write>)
    requires HasBoundaries(segments) && forall w :: w in ws ==> IsAbove(segments, w)
    ensures Inherited(WrittenAll(store, ws), segments) == Inherited(store, segments)
    ensures Documents(WrittenAll(store, ws), segments) == Documents(store, segments)
  {
    hide Inherited, Documents, Agree, Written, IsAbove;
    if ws != [] {
      var w := ws[|ws| - 1];
      var before := WrittenAll(store, ws[..|ws| - 1]);
      BranchesDoNotInterfere(store, segments, ws[..|ws| - 1]);
      assert w in ws;
      WriteAgrees(before, segments, w);
      InheritsUpToBoundaries(before, Written(before, w), segments);
    }
  }

  /** The conversation itself is never among its ancestors, so its own messages cannot matter. */
  lemma OwnMessagesAreAbove(db: Catalog, conv: Conversation, lineage: Lineage, row: Row)
    requires IsLineage(db, conv, Reversed(lineage.segments), lineage.truncated)
    ensures IsAbove(lineage.segments, Write(conv.id, row))
  {
    var chain := Reversed(lineage.segments);
    forall i | 0 <= i < |lineage.segments| ensures lineage.segments[i].conversation != conv.id {
      assert chain[|chain| - 1 - i] == lineage.segments[i];
      assert IsLink(db, conv, chain, |chain| - 1 - i);
    }
  }
}
