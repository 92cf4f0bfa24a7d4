/**
 What a message-scoped connection delivers, over all interleavings with the publishers.
 */
module StreamGuarantees {
  import opened Wrappers
  import opened EventStream

  // ------------------------------------------------------------------ strictly increasing, in every run

  ghost predicate Increasing(s: seq<Logged>) {
    forall i, j :: 0 <= i < j < |s| ==> Less(s[i].id, s[j].id)
  }

  /** The ids among the frames sent grow strictly; frames without an id are not constrained. */
  ghost predicate IdsIncrease(s: seq<Live>) {
    forall i, j :: 0 <= i < j < |s| && s[i].id.Some? && s[j].id.Some? ==> Less(s[i].id.value, s[j].id.value)
  }

  predicate AtMost(a: EventId, b: EventId) {
    !Less(b, a)
  }

  ghost predicate OrderOk(s: State) {
    && Increasing(s.log)
    && (forall i :: 0 <= i < |s.log| ==> AtMost(s.log[i].id, s.lastLogged))
    && IdsIncrease(s.conn.yielded)
    && (forall i :: 0 <= i < |s.conn.yielded| && s.conn.yielded[i].id.Some? ==> AtMost(s.conn.yielded[i].id.value, s.conn.lastId))
    && (s.conn.phase.Idle? || s.conn.phase.Subscribed? ==> s.conn.yielded == [] && s.conn.lastId == BEFORE_ALL)
    && (forall i :: 0 <= i < |s.log| ==> Less(BEFORE_ALL, s.log[i].id))
    && AtMost(BEFORE_ALL, s.lastLogged)
    && (s.conn.phase.Replaying? ==>
          && Increasing(s.conn.phase.queue)
          && forall i :: 0 <= i < |s.conn.phase.queue| ==> Less(s.conn.lastId, s.conn.phase.queue[i].id))
  }

  lemma {:induction false} SelectionKeepsOrder(log: seq<Logged>, m: nat, since: Option<EventId>)
    requires Increasing(log)
    ensures Increasing(OfMessage(log, m, since))
    ensures forall x :: x in OfMessage(log, m, since) <==> x in log && x.event.messageId == m && EventStream.After(x.id, since)
  {
    if log != [] {
      SelectionKeepsOrder(log[1..], m, since);
      assert log == [log[0]] + log[1..];
    }
  }

  lemma {:induction false} DroppingKeepsOrder(s: seq<Logged>)
    requires Increasing(s)
    ensures Increasing(WithoutFailures(s))
    ensures forall x :: x in WithoutFailures(s) <==> x in s && !x.event.outcome.Failure?
  {
    if s != [] {
      DroppingKeepsOrder(s[1..]);
      assert s == [s[0]] + s[1..];
    }
  }

  lemma ReadOrder(s: State)
    requires OrderOk(s) && s.conn.phase.Subscribed?
    ensures OrderOk(Step(s, ReadLog))
  {
    var r := OfMessage(s.log, s.conn.m, s.conn.since);
    SelectionKeepsOrder(s.log, s.conn.m, s.conn.since);
    DroppingKeepsOrder(r);
    var q := Replay(s.log, s.conn.m, s.conn.since);
    assert forall i :: 0 <= i < |q| ==> q[i] in s.log;
  }

  lemma ConnectionOrder(s: State, l: Label)
    requires OrderOk(s) && Enabled(s, l) && (l.Yield? || l.Poll?)
    ensures OrderOk(Step(s, l))
  {
  }

  lemma StepOrder(s: State, l: Label)
    requires OrderOk(s) && Enabled(s, l)
    ensures OrderOk(Step(s, l))
  {
    if l.ReadLog? {
      ReadOrder(s);
    } else if l.Yield? || l.Poll? {
      ConnectionOrder(s, l);
    }
  }

  lemma {:induction false} RunOrder(s: State, ls: seq<Label>)
    requires OrderOk(s) && IsRun(s, ls)
    ensures OrderOk(Final(s, ls))
    decreases |ls|
  {
    if ls != [] {
      StepOrder(s, ls[0]);
      RunOrder(Step(s, ls[0]), ls[1..]);
    }
  }

  /**
   Whatever the order of the publishes, whatever is lost, repeated or trimmed: the event ids a
   connection sees grow strictly, so none is seen twice.
   */
  lemma NeverTwice(m: nat, since: Option<EventId>, ls: seq<Label>)
    requires IsRun(Start(m, since), ls)
    ensures IdsIncrease(Final(Start(m, since), ls).conn.yielded)
  {
    RunOrder(Start(m, since), ls);
  }

  // ------------------------------------------------------------------ nothing is missed, when publishes keep the append order

  /**
   The step keeps the log and the channel in step: appends succeed, publishes are delivered in
   append order, nothing is trimmed, and the client stays.
   */
  predicate InOrder(l: Label) {
    match l
    case Append(_, id, reported) => id.Some? && reported
    case Publish(i, delivered) => i == 0 && delivered
    case Trim(_) => false
    case Disconnect => false
    case _ => true
  }

  function AsLive(s: seq<Logged>): (r: seq<Live>)
    ensures |r| == |s|
    ensures forall i :: 0 <= i < |s| ==> r[i] == Live(Some(s[i].id), s[i].event)
  {
    seq(|s|, i requires 0 <= i < |s| => Live(Some(s[i].id), s[i].event))
  }

  /** The events up to and including the first terminal one. */
  function ToTerminal(s: seq<Logged>): (r: seq<Logged>)
    ensures r <= s
    ensures forall i :: 0 <= i < |r| - 1 ==> !r[i].event.Terminal()
    ensures |r| < |s| ==> r != [] && r[|r| - 1].event.Terminal()
  {
    if s == [] then [] else if s[0].event.Terminal() then [s[0]] else [s[0]] + ToTerminal(s[1..])
  }

  predicate NoTerminal(s: seq<Logged>) {
    forall i :: 0 <= i < |s| ==> !s[i].event.Terminal()
  }

  /** The events up to the first terminal one are determined by what `ToTerminal` says of them. */
  lemma ToTerminalIs(s: seq<Logged>, r: seq<Logged>)
    requires r <= s && (forall i :: 0 <= i < |r| - 1 ==> !r[i].event.Terminal())
    requires |r| < |s| ==> r != [] && r[|r| - 1].event.Terminal()
    ensures ToTerminal(s) == r
  {
    hide ToTerminal;
    var t := ToTerminal(s);
    assert forall i :: 0 <= i < |t| && i < |r| ==> t[i] == r[i];
    assert |t| == |r|;
  }

  lemma ToTerminalOf(s: seq<Logged>, rest: seq<Logged>)
    ensures NoTerminal(s) ==> ToTerminal(s + rest) == s + ToTerminal(rest)
    ensures !NoTerminal(s) ==> ToTerminal(s + rest) == ToTerminal(s)
  {
    hide ToTerminal;
    if NoTerminal(s) {
      ToTerminalIs(s + rest, s + ToTerminal(rest));
    } else {
      var i :| 0 <= i < |s| && s[i].event.Terminal();
      assert i < |ToTerminal(s)| ==> ToTerminal(s)[i] == s[i];
      ToTerminalIs(s + rest, ToTerminal(s));
    }
  }

  lemma {:induction false} SelectionConcat(a: seq<Logged>, b: seq<Logged>, m: nat, since: Option<EventId>)
    ensures OfMessage(a + b, m, since) == OfMessage(a, m, since) + OfMessage(b, m, since)
  {
    if a == [] {
      assert a + b == b;
    } else {
      assert (a + b)[0] == a[0] && (a + b)[1..] == a[1..] + b;
      SelectionConcat(a[1..], b, m, since);
    }
  }

  /** What the log held for the connection when it was read. */
  function ReplayOf(s: State): seq<Logged>
    requires s.readAt <= |s.log|
  {
    Replay(s.log[..s.readAt], s.conn.m, s.conn.since)
  }

  function LastOf(s: seq<Logged>): EventId {
    if s == [] then BEFORE_ALL else s[|s| - 1].id
  }

  /** Everything the connection has been given to deliver once the log is read up to `upTo` on the channel. */
  function Due(s: State, upTo: nat): seq<Logged>
    requires s.readAt <= |s.log| && s.subscribedAt <= upTo <= |s.log|
  {
    var r := ReplayOf(s);
    r + OfMessage(s.log[s.subscribedAt..upTo], s.conn.m, Some(LastOf(r)))
  }

  /** What waits in the connection's buffer was published since it subscribed, and comes last. */
  ghost predicate BufferOk(phase: Phase, log: seq<Logged>, subscribedAt: nat, published: nat, buffer: seq<Live>)
    requires published <= |log|
  {
    && (phase.Idle? ==> buffer == [])
    && (phase.Subscribed? || phase.Replaying? ==>
          subscribedAt <= published && buffer == AsLive(log[subscribedAt..published]))
    && (phase.Following? ==>
          && subscribedAt + |buffer| <= published
          && buffer == AsLive(log[published - |buffer|..published]))
  }

  ghost predicate ChannelOk(s: State) {
    && |s.inFlight| <= |s.log|
    && var published := |s.log| - |s.inFlight|;
       && s.inFlight == AsLive(s.log[published..])
       && BufferOk(s.conn.phase, s.log, s.subscribedAt, published, s.buffer)
  }

  ghost predicate DeliveryOk(s: State) {
    && (s.conn.phase.Replaying? || s.conn.phase.Following? || s.conn.phase.Closed? ==>
          s.subscribedAt <= s.readAt <= |s.log|)
    && match s.conn.phase
       case Idle => true
       case Subscribed => s.subscribedAt <= |s.log|
       case Replaying(queue) =>
         var r := ReplayOf(s);
         var k := |s.conn.yielded|;
         && k <= |r| && queue == r[k..]
         && s.conn.yielded == AsLive(r[..k]) && NoTerminal(r[..k])
         && s.conn.lastId == LastOf(r[..k])
       case Following =>
         && |s.inFlight| + |s.buffer| + s.subscribedAt <= |s.log|
         && var due := Due(s, |s.log| - |s.inFlight| - |s.buffer|);
            s.conn.yielded == AsLive(due) && NoTerminal(due) && s.conn.lastId == LastOf(due)
       case Closed =>
         && !NoTerminal(Due(s, |s.log|))
         && s.conn.yielded == AsLive(ToTerminal(Due(s, |s.log|)))
  }

  lemma AsLiveConcat(a: seq<Logged>, b: seq<Logged>)
    ensures AsLive(a + b) == AsLive(a) + AsLive(b)
  {
  }

  lemma AppendChannel(s: State, l: Label)
    requires ChannelOk(s) && Enabled(s, l) && InOrder(l) && l.Append?
    ensures ChannelOk(Step(s, l))
  {
    var t := Step(s, l);
    var published := |s.log| - |s.inFlight|;
    var x := Logged(l.id.value, l.event);
    assert t.log[published..] == s.log[published..] + [x];
    AsLiveConcat(s.log[published..], [x]);
    assert AsLive([x]) == [Live(l.id, l.event)];
    if s.subscribedAt <= published {
      assert t.log[s.subscribedAt..published] == s.log[s.subscribedAt..published];
    }
    if |s.buffer| <= published {
      assert t.log[published - |s.buffer|..published] == s.log[published - |s.buffer|..published];
    }
  }

  lemma AsLiveTail(log: seq<Logged>, from: nat)
    requires from < |log|
    ensures AsLive(log[from..])[0] == Live(Some(log[from].id), log[from].event)
    ensures AsLive(log[from..])[1..] == AsLive(log[from + 1..])
  {
  }

  lemma AsLiveSlice(log: seq<Logged>, from: nat, to: nat)
    requires from <= to < |log|
    ensures AsLive(log[from..to + 1]) == AsLive(log[from..to]) + [Live(Some(log[to].id), log[to].event)]
  {
  }

  lemma PublishBuffer(phase: Phase, log: seq<Logged>, subscribedAt: nat, published: nat, buffer: seq<Live>)
    requires published < |log| && BufferOk(phase, log, subscribedAt, published, buffer)
    ensures var x := Live(Some(log[published].id), log[published].event);
            BufferOk(phase, log, subscribedAt, published + 1, if phase.Idle? || phase.Closed? then buffer else buffer + [x])
  {
    match phase
    case Idle =>
    case Following => AsLiveSlice(log, published - |buffer|, published);
    case Closed =>
    case _ => AsLiveSlice(log, subscribedAt, published);
  }

  lemma PublishChannel(s: State, l: Label)
    requires ChannelOk(s) && Enabled(s, l) && InOrder(l) && l.Publish?
    ensures ChannelOk(Step(s, l))
  {
    hide BufferOk, AsLive;
    var published := |s.log| - |s.inFlight|;
    assert published < |s.log|;
    AsLiveTail(s.log, published);
    assert s.inFlight[..0] + s.inFlight[1..] == s.inFlight[1..];
    PublishBuffer(s.conn.phase, s.log, s.subscribedAt, published, s.buffer);
  }

  lemma PollBuffer(log: seq<Logged>, subscribedAt: nat, published: nat, buffer: seq<Live>)
    requires published <= |log| && BufferOk(Following, log, subscribedAt, published, buffer) && buffer != []
    ensures BufferOk(Following, log, subscribedAt, published, buffer[1..])
  {
    var from := published - |buffer|;
    assert log[from..published] == [log[from]] + log[from + 1..published];
    AsLiveConcat([log[from]], log[from + 1..published]);
  }

  lemma PollChannel(s: State, l: Label)
    requires ChannelOk(s) && Enabled(s, l) && l.Poll?
    ensures ChannelOk(Step(s, l))
  {
    PollBuffer(s.log, s.subscribedAt, |s.log| - |s.inFlight|, s.buffer);
    hide BufferOk;
    assert Step(s, l).conn.phase.Following? || Step(s, l).conn.phase.Closed?;
  }

  lemma StepChannel(s: State, l: Label)
    requires ChannelOk(s) && Enabled(s, l) && InOrder(l)
    ensures ChannelOk(Step(s, l))
  {
    var published := |s.log| - |s.inFlight|;
    match l
    case Append(_, _, _) => AppendChannel(s, l);
    case Publish(_, _) => PublishChannel(s, l);
    case Poll => PollChannel(s, l);
    case Yield =>
    case Subscribe => assert s.log[published..published] == [];
    case ReadLog =>
  }

  /** A longer log does not change what is due from its beginning. */
  lemma DueIsStable(s: State, t: State, upTo: nat)
    requires s.readAt <= |s.log| && s.subscribedAt <= upTo <= |s.log|
    requires s.log <= t.log && t.readAt == s.readAt && t.subscribedAt == s.subscribedAt
    requires t.conn.m == s.conn.m && t.conn.since == s.conn.since
    ensures Due(t, upTo) == Due(s, upTo)
  {
    assert t.log[..s.readAt] == s.log[..s.readAt];
    assert t.log[s.subscribedAt..upTo] == s.log[s.subscribedAt..upTo];
  }

  /** One more event on the channel adds itself to what is due, if it is the message's and newer than the replay. */
  lemma DueGrows(s: State, upTo: nat)
    requires s.readAt <= |s.log| && s.subscribedAt <= upTo < |s.log|
    ensures Due(s, upTo + 1) ==
              Due(s, upTo) + OfMessage([s.log[upTo]], s.conn.m, Some(LastOf(ReplayOf(s))))
  {
    var slice := s.log[s.subscribedAt..upTo];
    assert s.log[s.subscribedAt..upTo + 1] == slice + [s.log[upTo]];
    SelectionConcat(slice, [s.log[upTo]], s.conn.m, Some(LastOf(ReplayOf(s))));
  }

  /** What was yielded last is older than the next event on the channel exactly when the replay ends before it. */
  lemma LastDue(s: State, upTo: nat)
    requires Increasing(s.log) && s.readAt <= |s.log| && s.subscribedAt <= upTo < |s.log|
    ensures Less(LastOf(Due(s, upTo)), s.log[upTo].id) <==> Less(LastOf(ReplayOf(s)), s.log[upTo].id)
  {
    var slice := s.log[s.subscribedAt..upTo];
    var since := Some(LastOf(ReplayOf(s)));
    var newer := OfMessage(slice, s.conn.m, since);
    SelectionKeepsOrder(slice, s.conn.m, since);
    if newer != [] {
      var last := newer[|newer| - 1];
      assert last in newer;
      assert last in slice;
      assert LastOf(Due(s, upTo)) == last.id;
    } else {
      assert Due(s, upTo) == ReplayOf(s);
    }
  }

  lemma NextDue(s: State, upTo: nat)
    requires Increasing(s.log) && s.readAt <= |s.log| && s.subscribedAt <= upTo < |s.log|
    ensures var x := s.log[upTo];
            Due(s, upTo + 1) ==
              if x.event.messageId == s.conn.m && Less(LastOf(Due(s, upTo)), x.id) then Due(s, upTo) + [x]
              else Due(s, upTo)
  {
    LastDue(s, upTo);
    DueGrows(s, upTo);
    assert [s.log[upTo]][1..] == [];
  }

  /** What the connection makes of the next message on the channel. */
  lemma PollReads(s: State)
    requires ChannelOk(s) && s.readAt <= |s.log| && Enabled(s, Poll)
    ensures var c := |s.log| - |s.inFlight| - |s.buffer|;
            && s.subscribedAt <= c < |s.log|
            && Step(s, Poll) == s.(buffer := s.buffer[1..],
                                   conn := Receive(s.conn, Live(Some(s.log[c].id), s.log[c].event)))
  {
  }

  lemma PollDelivery(s: State)
    requires Increasing(s.log) && ChannelOk(s) && DeliveryOk(s) && Enabled(s, Poll)
    ensures DeliveryOk(Step(s, Poll))
  {
    hide Due, Increasing, NoTerminal, BufferOk;
    PollReads(s);
    var c := |s.log| - |s.inFlight| - |s.buffer|;
    NextDue(s, c);
    AfterPoll(s, Step(s, Poll), c);
  }

  lemma AfterPoll(s: State, t: State, c: nat)
    requires s.conn.phase.Following? && s.subscribedAt <= s.readAt <= |s.log| && s.subscribedAt <= c < |s.log|
    requires c == |s.log| - |s.inFlight| - |s.buffer| && s.buffer != []
    requires t == s.(buffer := s.buffer[1..], conn := Receive(s.conn, Live(Some(s.log[c].id), s.log[c].event)))
    requires s.conn.yielded == AsLive(Due(s, c)) && NoTerminal(Due(s, c)) && s.conn.lastId == LastOf(Due(s, c))
    requires var x := s.log[c];
             Due(s, c + 1) ==
               if x.event.messageId == s.conn.m && Less(LastOf(Due(s, c)), x.id) then Due(s, c) + [x] else Due(s, c)
    ensures DeliveryOk(t)
  {
    hide Due, ReplayOf, ToTerminal;
    var x := s.log[c];
    DueIsStable(s, t, c + 1);
    AsLiveConcat(Due(s, c), [x]);
    if x.event.messageId == s.conn.m && Less(s.conn.lastId, x.id) && x.event.Terminal() {
      ClosingYield(s, t, Due(s, c), x, c + 1);
    }
  }

  /** The connection that has just yielded a terminal event has delivered everything up to it. */
  lemma ClosingYield(s: State, t: State, before: seq<Logged>, x: Logged, upTo: nat)
    requires s.readAt <= |s.log| && s.subscribedAt <= upTo <= |s.log|
    requires t.log == s.log && t.readAt == s.readAt && t.subscribedAt == s.subscribedAt
    requires t.conn.m == s.conn.m && t.conn.since == s.conn.since
    requires NoTerminal(before) && x.event.Terminal() && before + [x] <= Due(s, upTo)
    ensures !NoTerminal(Due(t, |t.log|)) && ToTerminal(Due(t, |t.log|)) == before + [x]
  {
    var all := Due(s, upTo);
    assert all == (before + [x]) + all[|before| + 1..];
    assert (before + [x])[|before|] == x && all[|before|] == x;
    assert ToTerminal([x]) == [x];
    ToTerminalOf(before, [x]);
    ToTerminalOf(before + [x], all[|before| + 1..]);
    DueToTheEnd(s, upTo);
    DueIsStable(s, t, |s.log|);
  }

  /** Once a terminal event is due, what follows on the channel does not matter. */
  lemma {:induction false} DueToTheEnd(s: State, upTo: nat)
    requires s.readAt <= |s.log| && s.subscribedAt <= upTo <= |s.log|
    requires !NoTerminal(Due(s, upTo))
    ensures !NoTerminal(Due(s, |s.log|))
    ensures ToTerminal(Due(s, |s.log|)) == ToTerminal(Due(s, upTo))
    decreases |s.log| - upTo
  {
    if upTo < |s.log| {
      DueGrows(s, upTo);
      var due, more := Due(s, upTo), OfMessage([s.log[upTo]], s.conn.m, Some(LastOf(ReplayOf(s))));
      ToTerminalOf(due, more);
      assert !NoTerminal(due + more) by {
        var i :| 0 <= i < |due| && due[i].event.Terminal();
        assert (due + more)[i] == due[i];
      }
      DueToTheEnd(s, upTo + 1);
    }
  }

  lemma SameReplay(s: State, t: State)
    requires s.readAt <= |s.log|
    requires t.log == s.log && t.readAt == s.readAt && t.conn.m == s.conn.m && t.conn.since == s.conn.since
    ensures ReplayOf(t) == ReplayOf(s)
  {
  }

  lemma DueAtReplay(s: State)
    requires s.subscribedAt <= s.readAt <= |s.log|
    ensures Due(s, s.subscribedAt) == ReplayOf(s)
  {
    assert s.log[s.subscribedAt..s.subscribedAt] == [];
  }

  lemma YieldNothing(s: State)
    requires ChannelOk(s) && DeliveryOk(s) && Enabled(s, Yield) && s.conn.phase.queue == []
    ensures DeliveryOk(Step(s, Yield))
  {
    hide Due, ReplayOf;
    var t := Step(s, Yield);
    DueAtReplay(s);
    DueIsStable(s, t, s.subscribedAt);
    assert ReplayOf(s)[..|s.conn.yielded|] == ReplayOf(s);
  }

  lemma YieldOne(s: State)
    requires DeliveryOk(s) && Enabled(s, Yield) && s.conn.phase.queue != []
    requires forall x :: x in s.conn.phase.queue ==> Less(s.conn.lastId, x.id)
    ensures DeliveryOk(Step(s, Yield))
  {
    hide Due, ReplayOf, ToTerminal;
    var t := Step(s, Yield);
    var r, k := ReplayOf(s), |s.conn.yielded|;
    var x := r[k];
    assert s.conn.phase.queue[0] == x && x in s.conn.phase.queue;
    DueAtReplay(s);
    SameReplay(s, t);
    assert r[..k + 1] == r[..k] + [x];
    AsLiveConcat(r[..k], [x]);
    assert s.conn.phase.queue[1..] == r[k + 1..];
    if x.event.Terminal() {
      ClosingYield(s, t, r[..k], x, s.subscribedAt);
    }
  }

  lemma YieldDelivery(s: State)
    requires OrderOk(s) && ChannelOk(s) && DeliveryOk(s) && Enabled(s, Yield)
    ensures DeliveryOk(Step(s, Yield))
  {
    hide ChannelOk, DeliveryOk, Step;
    if s.conn.phase.queue == [] {
      YieldNothing(s);
    } else {
      YieldOne(s);
    }
  }

  lemma AppendDelivery(s: State, l: Label)
    requires ChannelOk(s) && DeliveryOk(s) && Enabled(s, l) && InOrder(l) && l.Append?
    ensures DeliveryOk(Step(s, l))
  {
    var t := Step(s, l);
    match s.conn.phase
    case Replaying(_) =>
      assert t.log[..s.readAt] == s.log[..s.readAt];
    case Following =>
      DueIsStable(s, t, |s.log| - |s.inFlight| - |s.buffer|);
    case Closed =>
      DueIsStable(s, t, |s.log|);
      DueToTheEnd(t, |s.log|);
    case _ =>
  }

  lemma PublishDelivery(s: State, l: Label)
    requires ChannelOk(s) && DeliveryOk(s) && Enabled(s, l) && InOrder(l) && l.Publish?
    ensures DeliveryOk(Step(s, l))
  {
    var t := Step(s, l);
    match s.conn.phase
    case Following =>
      DueIsStable(s, t, |s.log| - |s.inFlight| - |s.buffer|);
    case Closed =>
      DueIsStable(s, t, |s.log|);
    case _ =>
  }

  lemma StepDelivery(s: State, l: Label)
    requires OrderOk(s) && ChannelOk(s) && DeliveryOk(s) && Enabled(s, l) && InOrder(l)
    ensures DeliveryOk(Step(s, l))
  {
    match l
    case Append(_, _, _) => AppendDelivery(s, l);
    case Publish(_, _) => PublishDelivery(s, l);
    case Yield => YieldDelivery(s);
    case Poll => PollDelivery(s);
    case ReadLog => assert s.log[..|s.log|] == s.log;
    case Subscribe =>
  }

  ghost predicate StreamOk(s: State) {
    OrderOk(s) && ChannelOk(s) && DeliveryOk(s)
  }

  lemma {:induction false} RunDelivery(s: State, ls: seq<Label>)
    requires StreamOk(s) && IsRun(s, ls) && forall l :: l in ls ==> InOrder(l)
    ensures StreamOk(Final(s, ls))
    ensures Final(s, ls).conn.m == s.conn.m && Final(s, ls).conn.since == s.conn.since
    decreases |ls|
  {
    if ls != [] {
      assert ls[0] in ls && forall l :: l in ls[1..] ==> l in ls;
      StepOrder(s, ls[0]);
      StepChannel(s, ls[0]);
      StepDelivery(s, ls[0]);
      assert Step(s, ls[0]).conn.m == s.conn.m && Step(s, ls[0]).conn.since == s.conn.since;
      hide OrderOk, ChannelOk, DeliveryOk, Step, Enabled;
      RunDelivery(Step(s, ls[0]), ls[1..]);
    }
  }

  /** The stream has ended, or the connection has caught up with everything appended. */
  predicate Settled(s: State) {
    s.conn.phase.Closed? || (s.conn.phase.Following? && s.buffer == [] && s.inFlight == [])
  }

  lemma StartOk(m: nat, since: Option<EventId>)
    ensures StreamOk(Start(m, since))
  {
  }

  /** A settled connection has delivered exactly what was due, up to the first terminal event. */
  lemma DeliversExactly(m: nat, since: Option<EventId>, ls: seq<Label>)
    requires IsRun(Start(m, since), ls) && (forall l :: l in ls ==> InOrder(l)) && Settled(Final(Start(m, since), ls))
    ensures var s := Final(Start(m, since), ls);
            && s.conn.m == m && s.conn.since == since && Increasing(s.log) && s.subscribedAt <= s.readAt <= |s.log|
            && s.conn.yielded == AsLive(ToTerminal(Due(s, |s.log|)))
  {
    hide Due, IsRun, Final, ToTerminal, ChannelOk;
    StartOk(m, since);
    RunDelivery(Start(m, since), ls);
    var s := Final(Start(m, since), ls);
    if s.conn.phase.Following? {
      var due := Due(s, |s.log|);
      ToTerminalOf(due, []);
      assert due + [] == due;
    }
  }

  // ------------------------------------------------------------------ what is due, in terms of the log alone

  /** Every id of the log is newer than `since` and `other`, so both select the same. */
  lemma {:induction false} SameSelection(log: seq<Logged>, m: nat, a: Option<EventId>, b: Option<EventId>)
    requires forall x :: x in log && x.event.messageId == m ==> (EventStream.After(x.id, a) <==> EventStream.After(x.id, b))
    ensures OfMessage(log, m, a) == OfMessage(log, m, b)
  {
    if log != [] {
      assert log[0] in log && forall x :: x in log[1..] ==> x in log;
      SameSelection(log[1..], m, a, b);
    }
  }

  /**
   What is due, without reference to the moments at which the connection subscribed and read the
   log: all events of the message newer than `since`.
   */
  lemma DueAfterReplay(s: State)
    requires Increasing(s.log) && s.subscribedAt <= s.readAt <= |s.log|
    requires !HasCompleted(OfMessage(s.log[..s.readAt], s.conn.m, s.conn.since)) && ReplayOf(s) != []
    ensures Due(s, |s.log|) == OfMessage(s.log, s.conn.m, s.conn.since)
  {
    var m, since := s.conn.m, s.conn.since;
    var early, late := s.log[..s.readAt], s.log[s.readAt..];
    var between := s.log[s.subscribedAt..s.readAt];
    var last := Some(LastOf(ReplayOf(s)));
    assert s.log == early + late;
    SelectionConcat(early, late, m, since);
    assert s.log[s.subscribedAt..|s.log|] == between + late;
    SelectionConcat(between, late, m, last);
    LastIsNewest(s.log, s.readAt, m, since);
    NothingNewer(between, m, last);
    SameSelection(late, m, last, since);
  }

  /** When the log held nothing for the connection: all that was published since it subscribed, newer than `since` or not. */
  lemma DueAfterEmptyReplay(s: State)
    requires s.subscribedAt <= s.readAt <= |s.log| && ReplayOf(s) == []
    requires forall x :: x in s.log ==> Less(BEFORE_ALL, x.id)
    ensures Due(s, |s.log|) == OfMessage(s.log[s.subscribedAt..], s.conn.m, None)
  {
    var tail := s.log[s.subscribedAt..];
    assert tail == s.log[s.subscribedAt..|s.log|];
    SameSelection(tail, s.conn.m, Some(BEFORE_ALL), None);
  }

  /** The last event selected from a prefix of the log is newer than all others of its message there, and than `since`. */
  lemma LastIsNewest(log: seq<Logged>, n: nat, m: nat, since: Option<EventId>)
    requires Increasing(log) && n <= |log| && OfMessage(log[..n], m, since) != []
    ensures var last := LastOf(OfMessage(log[..n], m, since));
            && EventStream.After(last, since)
            && (forall i :: 0 <= i < n && log[i].event.messageId == m ==> AtMost(log[i].id, last))
            && (forall i :: n <= i < |log| ==> Less(last, log[i].id) && EventStream.After(log[i].id, since))
  {
    var sel := OfMessage(log[..n], m, since);
    SelectionKeepsOrder(log[..n], m, since);
    var x := sel[|sel| - 1];
    assert x in sel && x in log[..n];
    forall i | 0 <= i < n && log[i].event.messageId == m ensures AtMost(log[i].id, x.id) {
      if EventStream.After(log[i].id, since) {
        assert log[..n][i] == log[i];
        assert log[i] in sel;
      }
    }
  }

  lemma {:induction false} NothingNewer(log: seq<Logged>, m: nat, last: Option<EventId>)
    requires forall x :: x in log && x.event.messageId == m ==> !EventStream.After(x.id, last)
    ensures OfMessage(log, m, last) == []
  {
    if log != [] {
      assert log[0] in log && forall x :: x in log[1..] ==> x in log;
      NothingNewer(log[1..], m, last);
    }
  }

  // ------------------------------------------------------------------ the promise to the client

  ghost predicate Delivered(s: State, x: Logged) {
    Live(Some(x.id), x.event) in s.conn.yielded
  }

  /** The stream ended with a terminal event older than `x`. */
  ghost predicate EndedBefore(s: State, x: Logged) {
    var y := s.conn.yielded;
    y != [] && y[|y| - 1].event.Terminal() && y[|y| - 1].id.Some? && Less(y[|y| - 1].id.value, x.id)
  }

  /** When the log was read, the reply was already complete. */
  ghost predicate CompletedAtReplay(s: State) {
    s.readAt <= |s.log| && HasCompleted(OfMessage(s.log[..s.readAt], s.conn.m, s.conn.since))
  }

  lemma InOrPast(due: seq<Logged>, x: Logged)
    requires Increasing(due) && x in due
    ensures var cut := ToTerminal(due);
            x in cut || (cut != [] && cut[|cut| - 1].event.Terminal() && Less(cut[|cut| - 1].id, x.id))
  {
    var cut := ToTerminal(due);
    var i :| 0 <= i < |due| && due[i] == x;
    if i < |cut| {
      assert cut[i] == x;
    } else {
      assert cut[|cut| - 1] == due[|cut| - 1];
    }
  }

  lemma DueIsInOrder(s: State, x: Logged)
    requires Increasing(s.log) && (forall y :: y in s.log ==> Less(BEFORE_ALL, y.id)) && s.subscribedAt <= s.readAt <= |s.log|
    requires !CompletedAtReplay(s) && x in s.log && x.event.messageId == s.conn.m && EventStream.After(x.id, s.conn.since)
    ensures Increasing(Due(s, |s.log|)) && x in Due(s, |s.log|)
  {
    if ReplayOf(s) != [] {
      DueAfterReplay(s);
      SelectionKeepsOrder(s.log, s.conn.m, s.conn.since);
    } else {
      DueWithoutReplay(s, x);
    }
  }

  lemma DueWithoutReplay(s: State, x: Logged)
    requires Increasing(s.log) && (forall y :: y in s.log ==> Less(BEFORE_ALL, y.id)) && s.subscribedAt <= s.readAt <= |s.log|
    requires !CompletedAtReplay(s) && ReplayOf(s) == []
    requires x in s.log && x.event.messageId == s.conn.m && EventStream.After(x.id, s.conn.since)
    ensures Increasing(Due(s, |s.log|)) && x in Due(s, |s.log|)
  {
    var m, since := s.conn.m, s.conn.since;
    assert OfMessage(s.log[..s.readAt], m, since) == [];
    DueAfterEmptyReplay(s);
    hide Due, ReplayOf, OfMessage, CompletedAtReplay;
    var tail := s.log[s.subscribedAt..];
    SelectionKeepsOrder(tail, m, None);
    var i :| 0 <= i < |s.log| && s.log[i] == x;
    SelectionFinds(s.log, s.readAt, m, since, i);
    assert tail[i - s.subscribedAt] == x;
  }

  lemma SelectionFinds(log: seq<Logged>, n: nat, m: nat, since: Option<EventId>, i: nat)
    requires Increasing(log) && n <= |log| && i < |log|
    requires log[i].event.messageId == m && EventStream.After(log[i].id, since)
    ensures i < n ==> OfMessage(log[..n], m, since) != []
  {
    SelectionKeepsOrder(log[..n], m, since);
    if i < n {
      assert log[..n][i] == log[i];
    }
  }

  /** After a completed replay only the log as read matters. */
  lemma CompletedCut(s: State)
    requires Increasing(s.log) && CompletedAtReplay(s) && s.subscribedAt <= s.readAt <= |s.log|
    ensures var kept := WithoutFailures(OfMessage(s.log[..s.readAt], s.conn.m, s.conn.since));
            !NoTerminal(kept) && ToTerminal(Due(s, |s.log|)) == ToTerminal(kept)
  {
    var sel := OfMessage(s.log[..s.readAt], s.conn.m, s.conn.since);
    var kept := WithoutFailures(sel);
    SelectionKeepsOrder(s.log[..s.readAt], s.conn.m, s.conn.since);
    DroppingKeepsOrder(sel);
    var c :| 0 <= c < |sel| && sel[c].event.outcome.Completed?;
    assert sel[c] in kept;
    var due := Due(s, |s.log|);
    assert due == kept + due[|kept|..];
    ToTerminalOf(kept, due[|kept|..]);
  }

  lemma CompletedReplay(s: State, x: Logged)
    requires Increasing(s.log) && s.subscribedAt <= s.readAt <= |s.log|
    requires CompletedAtReplay(s) && x in s.log && x.event.messageId == s.conn.m && EventStream.After(x.id, s.conn.since)
    ensures var cut := ToTerminal(Due(s, |s.log|));
            x in cut || x.event.outcome.Failure? || (cut != [] && cut[|cut| - 1].event.Terminal() && Less(cut[|cut| - 1].id, x.id))
  {
    var m, since := s.conn.m, s.conn.since;
    var early := s.log[..s.readAt];
    var sel := OfMessage(early, m, since);
    var kept := WithoutFailures(sel);
    CompletedCut(s);
    hide CompletedAtReplay, Due, OfMessage, WithoutFailures, ToTerminal;
    SelectionKeepsOrder(early, m, since);
    DroppingKeepsOrder(sel);
    var cut := ToTerminal(kept);
    var i :| 0 <= i < |s.log| && s.log[i] == x;
    if i < s.readAt {
      assert early[i] == x;
      assert x in sel;
      hide Increasing;
      if !x.event.outcome.Failure? {
        InOrPast(kept, x);
      }
    } else {
      ToTerminalEnds(kept);
      assert cut[|cut| - 1] in kept;
      assert cut[|cut| - 1] in early;
    }
  }

  lemma {:induction false} ToTerminalEnds(s: seq<Logged>)
    requires !NoTerminal(s)
    ensures ToTerminal(s) != [] && ToTerminal(s)[|ToTerminal(s)| - 1].event.Terminal()
  {
    if !s[0].event.Terminal() {
      ToTerminalEnds(s[1..]);
    }
  }

  /**
   Every logged event of the message newer than `since` is delivered, or the stream had already
   ended with an older terminal event; only failures are left out, and only when the replay
   already knew that the reply was completed.
   */
  lemma MissesNothing(m: nat, since: Option<EventId>, ls: seq<Label>, x: Logged)
    requires IsRun(Start(m, since), ls) && (forall l :: l in ls ==> InOrder(l)) && Settled(Final(Start(m, since), ls))
    requires x in Final(Start(m, since), ls).log && x.event.messageId == m && EventStream.After(x.id, since)
    ensures var s := Final(Start(m, since), ls);
            Delivered(s, x) || EndedBefore(s, x) || (x.event.outcome.Failure? && CompletedAtReplay(s))
  {
    hide Due, IsRun, Final, DeliveryOk, ChannelOk, CompletedAtReplay, ToTerminal;
    DeliversExactly(m, since, ls);
    StartOk(m, since);
    RunDelivery(Start(m, since), ls);
    var s := Final(Start(m, since), ls);
    var cut := ToTerminal(Due(s, |s.log|));
    if CompletedAtReplay(s) {
      CompletedReplay(s, x);
    } else {
      DueIsInOrder(s, x);
      InOrPast(Due(s, |s.log|), x);
    }
    if x in cut {
      var i :| 0 <= i < |cut| && cut[i] == x;
      assert s.conn.yielded[i] == Live(Some(x.id), x.event);
    }
  }

  lemma DueIsLogged(s: State, x: Logged)
    requires Increasing(s.log) && s.subscribedAt <= s.readAt <= |s.log| && x in Due(s, |s.log|)
    requires forall y :: y in s.log ==> Less(BEFORE_ALL, y.id)
    ensures x in s.log && x.event.messageId == s.conn.m
    ensures EventStream.After(x.id, s.conn.since) || ReplayOf(s) == []
  {
    var m, since, r := s.conn.m, s.conn.since, ReplayOf(s);
    var early, tail := s.log[..s.readAt], s.log[s.subscribedAt..|s.log|];
    SelectionKeepsOrder(early, m, since);
    DroppingKeepsOrder(OfMessage(early, m, since));
    SelectionKeepsOrder(tail, m, Some(LastOf(r)));
    if x !in r && r != [] {
      assert r[|r| - 1] in r;
    }
  }

  /** Nothing but logged events of the message is delivered; an old one only if the log had nothing newer when it was read. */
  lemma NothingForeign(m: nat, since: Option<EventId>, ls: seq<Label>, y: Live)
    requires IsRun(Start(m, since), ls) && (forall l :: l in ls ==> InOrder(l)) && Settled(Final(Start(m, since), ls))
    requires y in Final(Start(m, since), ls).conn.yielded
    ensures var s := Final(Start(m, since), ls);
            && y.id.Some? && Logged(y.id.value, y.event) in s.log && y.event.messageId == m
            && s.readAt <= |s.log|
            && (EventStream.After(y.id.value, since) || ReplayOf(s) == [])
  {
    DeliversExactly(m, since, ls);
    StartOk(m, since);
    RunDelivery(Start(m, since), ls);
    var s := Final(Start(m, since), ls);
    var i :| 0 <= i < |s.conn.yielded| && s.conn.yielded[i] == y;
    assert Due(s, |s.log|)[i] == ToTerminal(Due(s, |s.log|))[i];
    DueIsLogged(s, Due(s, |s.log|)[i]);
  }

  // ------------------------------------------------------------------ why the publishes must keep the append order

  const OLDER := Event(7, false, Token, "a")
  const NEWER := Event(7, false, Token, "b")

  const IN_ORDER: seq<Label> := [Append(OLDER, Some(EventId(1, 0)), true), Append(NEWER, Some(EventId(1, 1)), true)]

  const SWAPPED: seq<Label> := [Publish(1, true), Publish(0, true)]

  /** A connection that has found the log empty and follows the channel. */
  const FOLLOWING := State([], BEFORE_ALL, [], [], Connection(7, None, Following, BEFORE_ALL, []), 0, 0, [], [])

  const OPENING: seq<Label> := [Subscribe, ReadLog, Yield]

  lemma FollowsAnEmptyLog()
    ensures IsRun(Start(7, None), OPENING) && Final(Start(7, None), OPENING) == FOLLOWING
  {
    RunCons(Step(Step(Start(7, None), Subscribe), ReadLog), Yield, []);
    RunPair(Start(7, None), Subscribe, ReadLog, [Yield] + []);
    assert [Subscribe, ReadLog] + ([Yield] + []) == OPENING;
  }

  const READING: seq<Label> := [Poll, Poll]

  lemma SwappedPublishesFollow()
    ensures var ls := IN_ORDER + (SWAPPED + (READING + []));
            && IsRun(FOLLOWING, ls)
            && Settled(Final(FOLLOWING, ls))
            && Final(FOLLOWING, ls).log == [Logged(EventId(1, 0), OLDER), Logged(EventId(1, 1), NEWER)]
            && Final(FOLLOWING, ls).conn.yielded == [Live(Some(EventId(1, 1)), NEWER)]
  {
    var s := FOLLOWING;
    var older, newer := Live(Some(EventId(1, 0)), OLDER), Live(Some(EventId(1, 1)), NEWER);
    var s2 := Step(Step(s, IN_ORDER[0]), IN_ORDER[1]);
    assert s2.inFlight == [older, newer];
    var s4 := Step(Step(s2, SWAPPED[0]), SWAPPED[1]);
    assert s4.inFlight == [] && s4.buffer == [newer, older];
    var s5 := Step(s4, Poll);
    assert s5.buffer == [older] && Step(s5, Poll).buffer == [];
    RunPair(s4, Poll, Poll, []);
    RunPair(s2, SWAPPED[0], SWAPPED[1], READING + []);
    RunPair(s, IN_ORDER[0], IN_ORDER[1], SWAPPED + (READING + []));
  }

  /**
   The append order matters: if two publishers swap their publishes, the older event arrives after
   the newer one and is taken for a duplicate. It is logged, newer than `since`, and never delivered.
   */
  lemma SwappedPublishesLoseAnEvent()
    ensures var ls := OPENING + (IN_ORDER + (SWAPPED + (READING + [])));
            && IsRun(Start(7, None), ls)
            && var t := Final(Start(7, None), ls);
               && Settled(t)
               && t.log == [Logged(EventId(1, 0), OLDER), Logged(EventId(1, 1), NEWER)]
               && t.conn.yielded == [Live(Some(EventId(1, 1)), NEWER)]
  {
    hide IsRun, Final;
    FollowsAnEmptyLog();
    SwappedPublishesFollow();
    RunConcat(Start(7, None), OPENING, IN_ORDER + (SWAPPED + (READING + [])));
  }
}
