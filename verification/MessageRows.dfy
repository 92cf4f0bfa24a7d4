/**
 Message rows and their repository (app/repositories/message_repository.py).

 A conversation is one partition, clustered by message id, newest first. A partition is a
 sequence with strictly decreasing ids; `AsMap` is the same partition as a map from id to row.
 */
module MessageRows {
  import opened Wrappers
  import opened Text

  datatype Sender = User | Assistant | System | NoSender

  datatype Status = Pending | Sent | Failed | Deleted

  datatype Row = Row(id: nat, sender: Sender, content: string, created: int, status: Status, fileIds: seq<nat>)

  predicate Descending(s: seq<Row>) {
    forall i, j :: 0 <= i < j < |s| ==> s[i].id > s[j].id
  }

  type Partition = s: seq<Row> | Descending(s) witness []

  function AsMap(s: seq<Row>): map<nat, Row> {
    if s == [] then map[] else AsMap(s[1..])[s[0].id := s[0]]
  }

  lemma {:induction false} AsMapFinds(s: Partition, k: nat)
    ensures k in AsMap(s) <==> exists i :: 0 <= i < |s| && s[i].id == k
    ensures forall i :: 0 <= i < |s| && s[i].id == k ==> AsMap(s)[k] == s[i]
  {
    if s != [] {
      AsMapFinds(s[1..], k);
      assert forall i :: 1 <= i < |s| ==> s[i] == s[1..][i - 1];
    }
  }

  /** The rows a reader gets to see: soft-deleted ones are skipped. */
  function Live(s: seq<Row>): seq<Row> {
    if s == [] then []
    else if s[0].status == Deleted then Live(s[1..])
    else [s[0]] + Live(s[1..])
  }

  lemma {:induction false} LiveMembers(s: seq<Row>)
    ensures forall x :: x in Live(s) <==> x in s && x.status != Deleted
    ensures |Live(s)| <= |s|
  {
    if s != [] {
      LiveMembers(s[1..]);
      assert s == [s[0]] + s[1..];
    }
  }

  lemma {:induction false} LiveDescending(s: seq<Row>)
    requires Descending(s)
    ensures Descending(Live(s))
  {
    if s != [] {
      LiveDescending(s[1..]);
      LiveMembers(s[1..]);
    }
  }

  lemma {:induction false} LiveConcat(a: seq<Row>, b: seq<Row>)
    ensures Live(a + b) == Live(a) + Live(b)
  {
    if a == [] {
      assert a + b == b;
    } else {
      LiveConcat(a[1..], b);
      assert (a + b)[0] == a[0] && (a + b)[1..] == a[1..] + b;
      assert [a[0]] + (Live(a[1..]) + Live(b)) == [a[0]] + Live(a[1..]) + Live(b);
    }
  }

  /** Where the rows below a cursor start. */
  function FirstBelow(s: seq<Row>, cursor: Option<nat>): (n: nat)
    ensures n <= |s|
    ensures forall i :: 0 <= i < n ==> cursor.Some? && s[i].id >= cursor.value
    ensures n < |s| ==> cursor.None? || s[n].id < cursor.value
  {
    if s == [] || cursor.None? || s[0].id < cursor.value then 0 else 1 + FirstBelow(s[1..], cursor)
  }

  /** `WHERE message_id < cursor`, or everything without a cursor. */
  function Below(s: seq<Row>, cursor: Option<nat>): seq<Row> {
    s[FirstBelow(s, cursor)..]
  }

  lemma BelowMembers(s: Partition, cursor: Option<nat>, x: Row)
    ensures x in Below(s, cursor) <==> x in s && (cursor.None? || x.id < cursor.value)
  {
    var n := FirstBelow(s, cursor);
    if x in s {
      var i :| 0 <= i < |s| && s[i] == x;
      if i >= n {
        assert s[n..][i - n] == x;
      }
    }
    if x in s[n..] {
      var i :| 0 <= i < |s| - n && s[n..][i] == x;
      assert s[n + i] == x && s[n + i].id <= s[n].id;
    }
  }

  /** `history`: the newest `limit` stored rows below the cursor, without the soft-deleted ones. */
  function History(s: Partition, limit: nat, cursor: Option<nat>): seq<Row> {
    Live(Clip(Below(s, cursor), limit))
  }

  /** `history_upto`: the newest `limit` stored rows up to and including `last`, without the soft-deleted ones. */
  function HistoryUpto(s: Partition, last: nat, limit: nat): seq<Row> {
    Live(Clip(Below(s, Some(last + 1)), limit))
  }

  /** The stored rows that come before an id in a page: newer ones, below the bound. */
  function Before(s: seq<Row>, id: nat, bound: Option<nat>): set<nat> {
    set i: nat | i < |s| && s[i].id > id && (bound.None? || s[i].id < bound.value)
  }

  function Interval(lo: nat, hi: nat): (r: set<nat>)
    requires lo <= hi
    ensures forall i: nat :: i in r <==> lo <= i < hi
    ensures |r| == hi - lo
    decreases hi
  {
    if lo == hi then {} else Interval(lo, hi - 1) + {hi - 1}
  }

  lemma BeforeSize(s: Partition, j: nat, bound: Option<nat>)
    requires j < |s| && (bound.Some? ==> s[j].id < bound.value)
    ensures FirstBelow(s, bound) <= j && |Before(s, s[j].id, bound)| == j - FirstBelow(s, bound)
  {
    var n := FirstBelow(s, bound);
    hide FirstBelow;
    forall i: nat | i < |s| ensures i in Before(s, s[j].id, bound) <==> n <= i < j {
      Ordered(s, i, j);
      if n < |s| {
        Ordered(s, i, n);
      }
    }
    hide Before, Interval;
    assert Before(s, s[j].id, bound) == Interval(n, j);
  }

  lemma Ordered(s: Partition, i: nat, j: nat)
    requires i < |s| && j < |s|
    ensures s[i].id > s[j].id <==> i < j
  {
  }

  lemma PageHolds(s: Partition, limit: nat, bound: Option<nat>, j: nat)
    requires FirstBelow(s, bound) <= j < |s|
    ensures s[j] in Clip(Below(s, bound), limit) <==> j - FirstBelow(s, bound) < limit
  {
    hide FirstBelow;
    var n := FirstBelow(s, bound);
    var page := Clip(s[n..], limit);
    if j - n < limit {
      assert page[j - n] == s[j];
    } else {
      forall k | 0 <= k < |page| ensures page[k] != s[j] {
        assert page[k] == s[n + k] && s[n + k].id > s[j].id;
      }
    }
  }

  /**
   A page holds a row exactly when it is stored below the bound and not deleted, and fewer than `limit`
   stored rows, deleted ones included, lie between it and the bound.
   */
  lemma PageMembers(s: Partition, limit: nat, bound: Option<nat>, m: Row)
    ensures m in History(s, limit, bound) <==>
              && m in s && m.status != Deleted && (bound.Some? ==> m.id < bound.value)
              && |Before(s, m.id, bound)| < limit
  {
    var page := Clip(Below(s, bound), limit);
    LiveMembers(page);
    BelowMembers(s, bound, m);
    hide Before, Live, FirstBelow, Below;
    if m in s && (bound.Some? ==> m.id < bound.value) {
      var j :| 0 <= j < |s| && s[j] == m;
      BeforeSize(s, j, bound);
      PageHolds(s, limit, bound, j);
    }
  }

  /** An upsert into a partition. */
  function Put(s: Partition, row: Row): (r: Partition)
    ensures r != [] && r[0].id == if s == [] || s[0].id < row.id then row.id else s[0].id
  {
    if s == [] || s[0].id < row.id then [row] + s
    else if s[0].id == row.id then [row] + s[1..]
    else
      var rest := Put(s[1..], row);
      assert forall j :: 0 <= j < |rest| ==> rest[j].id <= rest[0].id < s[0].id;
      [s[0]] + rest
  }

  lemma {:induction false} PutIsMapUpdate(s: Partition, row: Row)
    ensures AsMap(Put(s, row)) == AsMap(s)[row.id := row]
  {
    var r := Put(s, row);
    if s == [] || s[0].id < row.id {
      assert r[1..] == s;
    } else if s[0].id == row.id {
      assert r[1..] == s[1..];
    } else {
      PutIsMapUpdate(s[1..], row);
      assert r[1..] == Put(s[1..], row);
    }
  }
}
