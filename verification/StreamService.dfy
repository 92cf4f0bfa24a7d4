/**
 `publish_token` and `subscribe` of app/services/stream_service.py as code: the two halves of a
 publish, and the two loops of a message-scoped connection. The connection's fields are proved to
 follow the steps of `EventStream`.
 */
module StreamService {
  import opened EventStream
  import opened Wrappers

  /** The replay log and what was published on the channel. */
  class Bus {
    var log: seq<Logged>
    var channel: seq<Live>

    constructor ()
      ensures log == [] && channel == []
    {
      log, channel := [], [];
    }

    /**
     `publish_token`: append, then publish with the id the append returned. `appended` is the id if the
     append took effect; without a report of it, or when it failed, the event goes out without an id.
     */
    method PublishToken(event: Event, appended: Option<EventId>, reported: bool, published: bool)
      modifies this
      ensures log == old(log) + if appended.Some? then [Logged(appended.value, event)] else []
      ensures channel == old(channel) + if published then [Live(if reported then appended else None, event)] else []
    {
      var eventId: Option<EventId> := None;
      if appended.Some? {
        log := log + [Logged(appended.value, event)];
        if reported {
          eventId := appended;
        }
      }
      if published {
        channel := channel + [Live(eventId, event)];
      }
    }
  }

  /** The connection after it has yielded all of its replay, or a terminal event of it. */
  function Drained(c: Connection): Connection
    requires c.phase.Replaying?
    decreases |c.phase.queue|
  {
    var d := YieldReplayed(c);
    if d.phase.Replaying? then Drained(d) else d
  }

  /** The connection after messages of the channel, up to the one that ends it. */
  function Fed(c: Connection, messages: seq<Live>): Connection {
    if messages == [] then c
    else
      var d := Fed(c, messages[..|messages| - 1]);
      if d.phase.Following? then Receive(d, messages[|messages| - 1]) else d
  }

  lemma {:induction false} FedClosed(c: Connection, messages: seq<Live>, n: nat)
    requires n <= |messages| && !Fed(c, messages[..n]).phase.Following?
    ensures Fed(c, messages) == Fed(c, messages[..n])
  {
    if n < |messages| {
      assert messages[..|messages| - 1][..n] == messages[..n];
      FedClosed(c, messages[..|messages| - 1], n);
    } else {
      assert messages[..n] == messages;
    }
  }

  class Subscription {
    const messageId: nat
    const since: Option<EventId>
    var lastId: EventId
    var frames: seq<Live>
    var over: bool
    ghost var conn: Connection

    constructor (m: nat, after: Option<EventId>)
      ensures Valid() && messageId == m && since == after && conn == Connection(m, after, Subscribed, BEFORE_ALL, [])
    {
      messageId, since, lastId, frames, over := m, after, BEFORE_ALL, [], false;
      conn := Connection(m, after, Subscribed, BEFORE_ALL, []);
    }

    ghost predicate Valid()
      reads this
    {
      && conn.m == messageId && conn.since == since && conn.lastId == lastId && conn.yielded == frames
      && over == conn.phase.Closed?
    }

    /** The first loop of `subscribe`: the replay, up to a terminal event. */
    method ServeReplay(log: seq<Logged>)
      requires Valid() && conn.phase.Subscribed?
      modifies this
      ensures Valid() && (conn.phase.Following? || conn.phase.Closed?)
      ensures conn == Drained(old(conn).(phase := Replaying(Replay(log, messageId, since))))
    {
      var events := ReplayRows(log, messageId, since);
      ghost var start := conn.(phase := Replaying(events));
      conn := start;
      assert events[0..] == events;
      for i := 0 to |events|
        invariant Valid() && conn.phase == Replaying(events[i..]) && Drained(conn) == Drained(start)
      {
        var ev := events[i];
        assert events[i..][0] == ev && events[i..][1..] == events[i + 1..];
        conn := YieldReplayed(conn);
        lastId := Max(lastId, ev.id);
        frames := frames + [Live(Some(ev.id), ev.event)];
        if ev.event.isFinal || ev.event.outcome.Completed? {
          over := true;
          return;
        }
      }
      conn := YieldReplayed(conn);
    }

    /** The second loop: messages of the channel, without those of others and those already delivered. */
    method ServeLive(messages: seq<Live>)
      requires Valid() && conn.phase.Following?
      modifies this
      ensures Valid() && conn == Fed(old(conn), messages)
    {
      ghost var start := conn;
      assert messages[..0] == [];
      for i := 0 to |messages|
        invariant Valid() && conn.phase.Following? && conn == Fed(start, messages[..i])
      {
        var data := messages[i];
        assert messages[..i + 1][..i] == messages[..i];
        conn := Receive(conn, data);
        if data.event.messageId != messageId {
          continue;
        }
        if data.id.Some? && !Less(lastId, data.id.value) {
          continue;
        }
        lastId := if data.id.Some? then Max(lastId, data.id.value) else lastId;
        frames := frames + [data];
        if data.event.isFinal || data.event.outcome.Completed? {
          over := true;
          FedClosed(start, messages, i + 1);
          return;
        }
      }
      assert messages[..|messages|] == messages;
    }
  }

  // ------------------------------------------------------------------ one event, in the parts of its id

  lemma FedStep(c: Connection, before: seq<Live>, x: Live)
    ensures Fed(c, before + [x]) ==
              if Fed(c, before).phase.Following? then Receive(Fed(c, before), x) else Fed(c, before)
  {
    assert (before + [x])[..|before|] == before;
  }

  /**
   A connection that has last yielded the id `ms-seqNo` yields an event of its message exactly when that has
   no id, a later millisecond, or the same one and a larger number; and the stream ends with it exactly
   when it is marked final, whatever its outcome, or completed.
   */
  lemma NewerIsYielded(c: Connection, before: seq<Live>, x: Live)
    requires Fed(c, before).phase.Following?
    ensures var d, e := Fed(c, before), Fed(c, before + [x]);
            var last := d.lastId;
            var ours := x.event.messageId == c.m;
            var newer := match x.id
                         case None => true
                         case Some(id) => id.ms > last.ms || (id.ms == last.ms && id.seqNo > last.seqNo);
            && (e.yielded == d.yielded + [x] <==> ours && newer)
            && (e.yielded == d.yielded <==> !(ours && newer))
            && (e.phase == Closed <==> ours && newer && (x.event.isFinal || x.event.outcome == Completed))
            && e.lastId == if ours && newer && x.id.Some? then x.id.value else last
  {
    FedGrows(c, before);
    FedStep(c, before, x);
    assert |Fed(c, before).yielded + [x]| == |Fed(c, before).yielded| + 1;
  }

  /** The same for the replay: `Drained` yields up to the first event that is final or completed. */
  lemma {:induction false} ReplayEndsAtTerminal(c: Connection, i: nat)
    requires c.phase.Replaying? && i <= |c.phase.queue|
    requires forall k :: 0 <= k < i ==> !c.phase.queue[k].event.isFinal && c.phase.queue[k].event.outcome != Completed
    requires i < |c.phase.queue| ==> c.phase.queue[i].event.isFinal || c.phase.queue[i].event.outcome == Completed
    ensures var d, q := Drained(c), c.phase.queue;
            var n := if i < |q| then i + 1 else i;
            && d.phase == (if i < |q| then Closed else Following)
            && d.yielded == c.yielded + seq(n, k requires 0 <= k < n => Live(Some(q[k].id), q[k].event))
    decreases i
  {
    var q := c.phase.queue;
    if q != [] && i > 0 {
      var d := YieldReplayed(c);
      ReplayEndsAtTerminal(d, i - 1);
      var n := if i < |q| then i else i - 1;
      assert [Live(Some(q[0].id), q[0].event)] + seq(n, k requires 0 <= k < n => Live(Some(q[1..][k].id), q[1..][k].event))
          == seq(n + 1, k requires 0 <= k < n + 1 => Live(Some(q[k].id), q[k].event));
    }
  }

  /** What a connection yields is what it yielded before and more: frames are never taken back. */
  lemma {:induction false} FedGrows(c: Connection, messages: seq<Live>)
    ensures c.yielded <= Fed(c, messages).yielded
    ensures Fed(c, messages).m == c.m
  {
    if messages != [] {
      FedGrows(c, messages[..|messages| - 1]);
    }
  }

  /** `last_eid` is not below any id yielded so far. */
  ghost predicate LastIdIsHighest(c: Connection) {
    forall j :: 0 <= j < |c.yielded| && c.yielded[j].id.Some? ==> !Less(c.lastId, c.yielded[j].id.value)
  }

  /** Every live frame is of the connection's message, and its id is above all ids yielded before it. */
  lemma {:induction false} LiveFramesAreNew(c: Connection, messages: seq<Live>, i: nat)
    requires |c.yielded| <= i < |Fed(c, messages).yielded|
    requires LastIdIsHighest(c)
    ensures var f := Fed(c, messages).yielded;
            && f[i].event.messageId == c.m
            && (f[i].id.Some? ==> forall j :: 0 <= j < i && f[j].id.Some? ==> Less(f[j].id.value, f[i].id.value))
    decreases |messages|
  {
    var front := messages[..|messages| - 1];
    var d := Fed(c, front);
    FedGrows(c, front);
    LastIsAbove(c, front);
    if i < |d.yielded| {
      LiveFramesAreNew(c, front, i);
    }
  }

  lemma ReceiveIsAbove(c: Connection, x: Live)
    requires c.phase.Following? && LastIdIsHighest(c)
    ensures LastIdIsHighest(Receive(c, x))
  {
    var d := Receive(c, x);
    forall j | 0 <= j < |d.yielded| && d.yielded[j].id.Some? ensures !Less(d.lastId, d.yielded[j].id.value) {
      if j < |c.yielded| {
        assert d.yielded[j] == c.yielded[j];
      }
    }
  }

  lemma {:induction false} LastIsAbove(c: Connection, messages: seq<Live>)
    requires LastIdIsHighest(c)
    ensures LastIdIsHighest(Fed(c, messages))
  {
    if messages != [] {
      var d := Fed(c, messages[..|messages| - 1]);
      LastIsAbove(c, messages[..|messages| - 1]);
      if d.phase.Following? {
        ReceiveIsAbove(d, messages[|messages| - 1]);
      }
    }
  }
}
