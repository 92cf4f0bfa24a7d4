/**
 The replayable event stream of a conversation (app/services/stream_service.py).

 Publishers append an event to the log, which assigns a growing id, and then publish it on the
 live channel. A message-scoped connection subscribes first, then reads the log, then follows
 the channel and drops what it has already delivered. The two halves of a publish and the steps
 of the connection interleave freely at the awaits.
 */
module EventStream {
  import opened Wrappers

  /** A Redis stream id `<ms>-<seq>`. */
  datatype EventId = EventId(ms: int, seqNo: int)

  /** `event_id_key` of a missing id, and the start value of `last_eid`. */
  const BEFORE_ALL := EventId(-1, -1)

  predicate Less(a: EventId, b: EventId) {
    a.ms < b.ms || (a.ms == b.ms && a.seqNo < b.seqNo)
  }

  function Max(a: EventId, b: EventId): EventId {
    if Less(a, b) then b else a
  }

  datatype Outcome = Token | Completed | Failure

  /** What the connection looks at in an event. */
  datatype Event = Event(messageId: nat, isFinal: bool, outcome: Outcome, body: string) {
    /** The event ends the stream of its message. */
    predicate Terminal() { isFinal || outcome.Completed? }
  }

  /** An event in the log. */
  datatype Logged = Logged(id: EventId, event: Event)

  /** An event on the channel; without an id when the log append failed. */
  datatype Live = Live(id: Option<EventId>, event: Event)

  // ------------------------------------------------------------------ replay

  predicate After(id: EventId, since: Option<EventId>) {
    since.None? || Less(since.value, id)
  }

  /** The events of one message newer than `since`. */
  function OfMessage(log: seq<Logged>, m: nat, since: Option<EventId>): (r: seq<Logged>)
    ensures |r| <= |log|
  {
    if log == [] then []
    else
      var rest := OfMessage(log[1..], m, since);
      if log[0].event.messageId == m && After(log[0].id, since) then [log[0]] + rest else rest
  }

  function WithoutFailures(s: seq<Logged>): (r: seq<Logged>)
    ensures |r| <= |s|
  {
    if s == [] then []
    else if s[0].event.outcome.Failure? then WithoutFailures(s[1..])
    else [s[0]] + WithoutFailures(s[1..])
  }

  predicate HasCompleted(s: seq<Logged>) {
    exists i :: 0 <= i < |s| && s[i].event.outcome.Completed?
  }

  /** What `replay` returns. */
  function Replay(log: seq<Logged>, m: nat, since: Option<EventId>): seq<Logged> {
    var events := OfMessage(log, m, since);
    if HasCompleted(events) then WithoutFailures(events) else events
  }

  lemma SelectionStep(log: seq<Logged>, i: nat, m: nat, since: Option<EventId>, events: seq<Logged>)
    requires i < |log|
    ensures var x := log[i];
            events + OfMessage(log[i..], m, since) ==
              (if x.event.messageId == m && After(x.id, since) then events + [x] else events) + OfMessage(log[i + 1..], m, since)
  {
    assert log[i..][1..] == log[i + 1..];
    var rest := OfMessage(log[i + 1..], m, since);
    assert events + ([log[i]] + rest) == events + [log[i]] + rest;
  }

  lemma CompletedStep(events: seq<Logged>, x: Logged)
    ensures HasCompleted(events + [x]) <==> HasCompleted(events) || x.event.outcome.Completed?
  {
    var all := events + [x];
    assert all[|events|] == x;
    assert forall k :: 0 <= k < |events| ==> all[k] == events[k];
  }

  /** The first loop of `replay`: the events of the message, and whether one of them completes it. */
  method SelectRows(log: seq<Logged>, m: nat, since: Option<EventId>) returns (events: seq<Logged>, completed: bool)
    ensures events == OfMessage(log, m, since)
    ensures completed <==> HasCompleted(events)
  {
    events, completed := [], false;
    var i := 0;
    assert log[0..] == log;
    while i < |log|
      invariant i <= |log|
      invariant events + OfMessage(log[i..], m, since) == OfMessage(log, m, since)
      invariant completed <==> HasCompleted(events)
    {
      hide OfMessage, HasCompleted;
      SelectionStep(log, i, m, since, events);
      if log[i].event.messageId == m && After(log[i].id, since) {
        completed := completed || log[i].event.outcome.Completed?;
        CompletedStep(events, log[i]);
        events := events + [log[i]];
      }
      i := i + 1;
    }
  }

  /** The comprehension that drops the failed events. */
  method DropFailures(events: seq<Logged>) returns (kept: seq<Logged>)
    ensures kept == WithoutFailures(events)
  {
    kept := [];
    var i := 0;
    while i < |events|
      invariant i <= |events|
      invariant kept + WithoutFailures(events[i..]) == WithoutFailures(events)
    {
      assert events[i..][1..] == events[i + 1..];
      if !events[i].event.outcome.Failure? {
        assert kept + ([events[i]] + WithoutFailures(events[i + 1..])) == (kept + [events[i]]) + WithoutFailures(events[i + 1..]);
        kept := kept + [events[i]];
      }
      i := i + 1;
    }
  }

  /** An event is of the message, and later than `since`: a later millisecond, or the same one and a larger number. */
  predicate IsDue(x: Logged, m: nat, since: Option<EventId>) {
    && x.event.messageId == m
    && match since
       case None => true
       case Some(id) => x.id.ms > id.ms || (x.id.ms == id.ms && x.id.seqNo > id.seqNo)
  }

  lemma {:induction false} OfMessageIsDue(log: seq<Logged>, m: nat, since: Option<EventId>)
    ensures forall x :: x in OfMessage(log, m, since) <==> x in log && IsDue(x, m, since)
  {
    if log != [] {
      OfMessageIsDue(log[1..], m, since);
      assert log == [log[0]] + log[1..];
    }
  }

  lemma {:induction false} KeptAreNoFailures(s: seq<Logged>)
    ensures forall x :: x in WithoutFailures(s) <==> x in s && x.event.outcome != Failure
  {
    if s != [] {
      KeptAreNoFailures(s[1..]);
      assert s == [s[0]] + s[1..];
    }
  }

  /** What is replayed, event by event. */
  lemma ReplayHolds(log: seq<Logged>, m: nat, since: Option<EventId>, x: Logged)
    ensures x in Replay(log, m, since) <==>
              && x in log && IsDue(x, m, since)
              && (x.event.outcome == Failure ==> forall y :: y in log && IsDue(y, m, since) ==> y.event.outcome != Completed)
  {
    var events := OfMessage(log, m, since);
    OfMessageIsDue(log, m, since);
    KeptAreNoFailures(events);
    if HasCompleted(events) {
      var i :| 0 <= i < |events| && events[i].event.outcome.Completed?;
      assert events[i] in log && IsDue(events[i], m, since);
    }
  }

  /** `replay` */
  method ReplayRows(log: seq<Logged>, m: nat, since: Option<EventId>) returns (events: seq<Logged>)
    ensures events == Replay(log, m, since)
    ensures forall x :: x in events <==>
              && x in log && IsDue(x, m, since)
              && (x.event.outcome == Failure ==> forall y :: y in log && IsDue(y, m, since) ==> y.event.outcome != Completed)
  {
    forall x
      ensures x in Replay(log, m, since) <==>
                && x in log && IsDue(x, m, since)
                && (x.event.outcome == Failure ==> forall y :: y in log && IsDue(y, m, since) ==> y.event.outcome != Completed)
    {
      ReplayHolds(log, m, since, x);
    }
    var completed;
    events, completed := SelectRows(log, m, since);
    if completed {
      events := DropFailures(events);
    }
  }

  // ------------------------------------------------------------------ the connection

  datatype Phase =
    | Idle                              // not subscribed yet
    | Subscribed                        // the log is still to be read
    | Replaying(queue: seq<Logged>)     // events of the replay not yet yielded
    | Following                         // reading the channel
    | Closed

  /** A connection for message `m` that resumes after `since`; `yielded` are the frames sent so far. */
  datatype Connection = Connection(m: nat, since: Option<EventId>, phase: Phase, lastId: EventId, yielded: seq<Live>)

  /** Yields the next replayed event, or starts following when there is none left. */
  function YieldReplayed(c: Connection): Connection
    requires c.phase.Replaying?
  {
    if c.phase.queue == [] then c.(phase := Following)
    else
      var x := c.phase.queue[0];
      c.(lastId := Max(c.lastId, x.id),
         yielded := c.yielded + [Live(Some(x.id), x.event)],
         phase := if x.event.Terminal() then Closed else Replaying(c.phase.queue[1..]))
  }

  /** Handles one message of the channel. */
  function Receive(c: Connection, x: Live): Connection
    requires c.phase.Following?
  {
    if x.event.messageId != c.m then c
    else if x.id.Some? && !Less(c.lastId, x.id.value) then c
    else
      c.(lastId := if x.id.Some? then Max(c.lastId, x.id.value) else c.lastId,
         yielded := c.yielded + [x],
         phase := if x.event.Terminal() then Closed else Following)
  }

  // ------------------------------------------------------------------ the whole system

  datatype State = State(
    log: seq<Logged>,           // what the log retains
    lastLogged: EventId,        // the newest id ever assigned
    inFlight: seq<Live>,        // appended, not yet published
    buffer: seq<Live>,          // published to the connection, not yet read by it
    conn: Connection,
    subscribedAt: nat,          // history: how many logged events were published before the subscription
    readAt: nat,                // history: how many events the log held when it was read
    replayed: seq<Logged>,      // history: what reading it returned
    heard: seq<Live>            // history: what was published to the connection, in that order
  )

  function Start(m: nat, since: Option<EventId>): State {
    State([], BEFORE_ALL, [], [], Connection(m, since, Idle, BEFORE_ALL, []), 0, 0, [], [])
  }

  datatype Label =
      // no id: the append failed; not reported: it was made, but the publisher does not learn the id
    | Append(event: Event, id: Option<EventId>, reported: bool)
    | Publish(index: nat, delivered: bool)          // any appended event; not delivered: the publish failed
    | Trim(count: nat)                              // the log is capped
    | Subscribe
    | ReadLog
    | Yield
    | Poll
    | Disconnect                                    // time limit, client gone

  predicate Enabled(s: State, l: Label) {
    match l
    case Append(_, id, _) => id.Some? ==> Less(s.lastLogged, id.value)
    case Publish(i, _) => i < |s.inFlight|
    case Trim(n) => n <= |s.log|
    case Subscribe => s.conn.phase.Idle?
    case ReadLog => s.conn.phase.Subscribed?
    case Yield => s.conn.phase.Replaying?
    case Poll => s.conn.phase.Following? && s.buffer != []
    case Disconnect => true
  }

  function Step(s: State, l: Label): State
    requires Enabled(s, l)
  {
    match l
    case Append(e, id, reported) =>
      var t := s.(inFlight := s.inFlight + [Live(if reported then id else None, e)]);
      if id.Some? then t.(log := s.log + [Logged(id.value, e)], lastLogged := id.value) else t
    case Publish(i, delivered) =>
      var t := s.(inFlight := s.inFlight[..i] + s.inFlight[i + 1..]);
      if delivered && !s.conn.phase.Idle? && !s.conn.phase.Closed?
      then t.(buffer := s.buffer + [s.inFlight[i]], heard := s.heard + [s.inFlight[i]])
      else t
    case Trim(n) => s.(log := s.log[n..])
    case Subscribe =>
      s.(conn := s.conn.(phase := Subscribed),
         subscribedAt := if |s.inFlight| <= |s.log| then |s.log| - |s.inFlight| else 0)
    case ReadLog =>
      var rows := Replay(s.log, s.conn.m, s.conn.since);
      s.(readAt := |s.log|, replayed := rows, conn := s.conn.(phase := Replaying(rows)))
    case Yield => s.(conn := YieldReplayed(s.conn))
    case Poll => s.(buffer := s.buffer[1..], conn := Receive(s.conn, s.buffer[0]))
    case Disconnect => s.(conn := s.conn.(phase := Closed))
  }

  predicate IsRun(s: State, ls: seq<Label>)
    decreases |ls|
  {
    ls == [] || (Enabled(s, ls[0]) && IsRun(Step(s, ls[0]), ls[1..]))
  }

  function Final(s: State, ls: seq<Label>): State
    requires IsRun(s, ls)
    decreases |ls|
  {
    if ls == [] then s else Final(Step(s, ls[0]), ls[1..])
  }

  lemma RunCons(s: State, l: Label, ls: seq<Label>)
    requires Enabled(s, l) && IsRun(Step(s, l), ls)
    ensures IsRun(s, [l] + ls) && Final(s, [l] + ls) == Final(Step(s, l), ls)
  {
    assert ([l] + ls)[1..] == ls;
  }

  lemma RunPair(s: State, k: Label, l: Label, ls: seq<Label>)
    requires Enabled(s, k) && Enabled(Step(s, k), l) && IsRun(Step(Step(s, k), l), ls)
    ensures IsRun(s, [k, l] + ls) && Final(s, [k, l] + ls) == Final(Step(Step(s, k), l), ls)
  {
    RunCons(Step(s, k), l, ls);
    RunCons(s, k, [l] + ls);
    assert [k, l] + ls == [k] + ([l] + ls);
  }

  lemma {:induction false} RunConcat(s: State, a: seq<Label>, b: seq<Label>)
    requires IsRun(s, a) && IsRun(Final(s, a), b)
    ensures IsRun(s, a + b) && Final(s, a + b) == Final(Final(s, a), b)
    decreases |a|
  {
    if a == [] {
      assert a + b == b;
    } else {
      assert (a + b)[0] == a[0] && (a + b)[1..] == a[1..] + b;
      RunConcat(Step(s, a[0]), a[1..], b);
    }
  }
}
