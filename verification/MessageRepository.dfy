/**
 The repository that stores message rows (app/repositories/message_repository.py): partitions per
 conversation, and the outbox written in the same batch as a message.
 */
module MessageRepository {
  import opened MessageRows
  import opened Text
  import opened Wrappers

  datatype OutboxEvent = OutboxEvent(id: nat, kind: string, payload: string)

  /** The rows of a conversation as a map from id to row; what is not there is not in the map. */
  function Lookup(partitions: map<nat, Partition>, c: nat, id: nat): Option<Row> {
    if c in partitions && id in AsMap(partitions[c]) then Some(AsMap(partitions[c])[id]) else None
  }

  /** One row of one conversation was written and nothing else. */
  ghost predicate OnlyWritten(before: map<nat, Partition>, after: map<nat, Partition>, c: nat, row: Row) {
    forall k, id :: Lookup(after, k, id) == if k == c && id == row.id then Some(row) else Lookup(before, k, id)
  }

  lemma PutIsOnlyWritten(partitions: map<nat, Partition>, c: nat, row: Row)
    ensures OnlyWritten(partitions, partitions[c := Put(if c in partitions then partitions[c] else [], row)], c, row)
  {
    var s: Partition := if c in partitions then partitions[c] else [];
    PutIsMapUpdate(s, row);
    hide Put, AsMap;
    NoRows();
  }

  lemma NoRows()
    ensures AsMap([]) == map[]
  {
  }

  class Repository {
    var partitions: map<nat, Partition>
    var outbox: seq<OutboxEvent>

    constructor ()
      ensures partitions == map[] && outbox == []
    {
      partitions, outbox := map[], [];
    }

    function RowsOf(c: nat): Partition
      reads this
    {
      if c in partitions then partitions[c] else []
    }

    method Store(c: nat, row: Row)
      modifies `partitions
      ensures OnlyWritten(old(partitions), partitions, c, row)
    {
      PutIsOnlyWritten(partitions, c, row);
      partitions := partitions[c := Put(RowsOf(c), row)];
    }

    /** The row with an id, by walking down the partition. */
    method Find(c: nat, id: nat) returns (row: Option<Row>)
      ensures row == Lookup(partitions, c, id)
    {
      var s := RowsOf(c);
      NoRows();
      AsMapFinds(s, id);
      for i := 0 to |s|
        invariant forall j :: 0 <= j < i ==> s[j].id != id
      {
        if s[i].id == id {
          return Some(s[i]);
        }
      }
      return None;
    }

    /** `create_with_outbox`: the message and its event in one batch. */
    method CreateWithOutbox(c: nat, row: Row, event: OutboxEvent)
      modifies `partitions, `outbox
      ensures OnlyWritten(old(partitions), partitions, c, row) && outbox == old(outbox) + [event]
    {
      Store(c, row);
      outbox := outbox + [event];
    }

    /** `create_message_direct`: an upsert that does not touch the attached files. */
    method CreateMessageDirect(c: nat, id: nat, sender: Sender, content: string, now: int, status: Status)
      modifies `partitions
      ensures var was := old(Lookup(partitions, c, id));
              OnlyWritten(old(partitions), partitions, c,
                          Row(id, sender, content, now, status, if was.Some? then was.value.fileIds else []))
    {
      var was := Find(c, id);
      Store(c, Row(id, sender, content, now, status, if was.Some? then was.value.fileIds else []));
    }

    /** `delete`: an UPDATE of the status alone, which creates an otherwise empty row if there is none. */
    method Delete(c: nat, id: nat) returns (done: bool)
      modifies `partitions
      ensures done
      ensures var was := old(Lookup(partitions, c, id));
              OnlyWritten(old(partitions), partitions, c,
                          if was.Some? then was.value.(status := Deleted) else Row(id, NoSender, "", 0, Deleted, []))
    {
      var was := Find(c, id);
      AsMapFinds(RowsOf(c), id);
      Store(c, if was.Some? then was.value.(status := Deleted) else Row(id, NoSender, "", 0, Deleted, []));
      return true;
    }

    /** `get_message` */
    method GetMessage(c: nat, id: nat) returns (row: Option<Row>)
      ensures var stored := Lookup(partitions, c, id);
              row == if stored.Some? && stored.value.status == Deleted then Some(stored.value.(status := Failed)) else stored
    {
      row := Find(c, id);
      if row.Some? && row.value.status == Deleted {
        row := Some(row.value.(status := Failed));
      }
    }

    /** The loop of both history queries: soft-deleted rows are dropped. */
    method LiveRows(rows: seq<Row>) returns (messages: seq<Row>)
      ensures messages == Live(rows)
    {
      messages := [];
      assert rows[..0] == [];
      for i := 0 to |rows|
        invariant messages == Live(rows[..i])
      {
        assert rows[..i + 1] == rows[..i] + [rows[i]];
        LiveConcat(rows[..i], [rows[i]]);
        assert [rows[i]][1..] == [];
        if rows[i].status == Deleted {
          continue;
        }
        messages := messages + [rows[i]];
      }
      assert rows[..|rows|] == rows;
    }

    /** `history` */
    method History(c: nat, limit: nat, cursor: Option<nat>) returns (messages: seq<Row>)
      ensures messages == MessageRows.History(RowsOf(c), limit, cursor)
      ensures Descending(messages)
      ensures forall m :: m in messages <==>
        && m in RowsOf(c) && m.status != Deleted && (cursor.Some? ==> m.id < cursor.value)
        && |set i: nat | i < |RowsOf(c)| && m.id < RowsOf(c)[i].id && (cursor.Some? ==> RowsOf(c)[i].id < cursor.value)| < limit
    {
      var rows := Clip(Below(RowsOf(c), cursor), limit);
      messages := LiveRows(rows);
      PageOf(RowsOf(c), limit, cursor);
      forall m: Row
        ensures Before(RowsOf(c), m.id, cursor)
             == set i: nat | i < |RowsOf(c)| && m.id < RowsOf(c)[i].id && (cursor.Some? ==> RowsOf(c)[i].id < cursor.value)
      {
      }
    }

    /** `history_upto` */
    method HistoryUpto(c: nat, upto: nat, limit: nat) returns (messages: seq<Row>)
      ensures messages == MessageRows.HistoryUpto(RowsOf(c), upto, limit)
      ensures Descending(messages)
      ensures forall m :: m in messages <==>
        && m in RowsOf(c) && m.status != Deleted && m.id <= upto
        && |set i: nat | i < |RowsOf(c)| && m.id < RowsOf(c)[i].id <= upto| < limit
    {
      var rows := Clip(Below(RowsOf(c), Some(upto + 1)), limit);
      messages := LiveRows(rows);
      PageOf(RowsOf(c), limit, Some(upto + 1));
      forall m: Row
        ensures Before(RowsOf(c), m.id, Some(upto + 1)) == set i: nat | i < |RowsOf(c)| && m.id < RowsOf(c)[i].id <= upto
      {
      }
    }
  }

  lemma PageOf(s: Partition, limit: nat, cursor: Option<nat>)
    ensures var page := MessageRows.History(s, limit, cursor);
            && page == Live(Clip(Below(s, cursor), limit))
            && Descending(page)
            && forall m :: m in page <==>
                 && m in s && m.status != Deleted && (cursor.Some? ==> m.id < cursor.value)
                 && |Before(s, m.id, cursor)| < limit
  {
    var below := Below(s, cursor);
    var rows := Clip(below, limit);
    LiveDescending(rows);
    forall m
      ensures m in Live(rows) <==>
                && m in s && m.status != Deleted && (cursor.Some? ==> m.id < cursor.value)
                && |Before(s, m.id, cursor)| < limit
    {
      PageMembers(s, limit, cursor, m);
    }
  }
}
