/**
 What a message-scoped connection delivers when the publishes come in any order, get lost or carry
 no id, the log is trimmed and the client goes away: in every run, as a function of what the replay
 returned and what was heard on the channel. Which tells exactly which events are lost when
 publishers do not keep the append order.
 */
module StreamReordering {
  import opened EventStream
  import opened StreamGuarantees
  import opened Wrappers

  // ------------------------------------------------------------------ what is kept of the channel

  /** The highest id of the message among the first messages heard, and `last`. */
  function Highest(m: nat, heard: seq<Live>, last: EventId): EventId {
    if heard == [] then last
    else
      var h, x := Highest(m, heard[..|heard| - 1], last), heard[|heard| - 1];
      if x.event.messageId == m && x.id.Some? then Max(h, x.id.value) else h
  }

  /** Those of the message whose id is higher than all before, or missing. */
  function Risers(m: nat, heard: seq<Live>, last: EventId): seq<Live> {
    if heard == [] then []
    else
      var front, x := heard[..|heard| - 1], heard[|heard| - 1];
      if x.event.messageId == m && (x.id.None? || Less(Highest(m, front, last), x.id.value))
      then Risers(m, front, last) + [x]
      else Risers(m, front, last)
  }

  /** The k-th message heard is the connection's, and newer than the replay and all of the message heard before. */
  predicate Rises(m: nat, heard: seq<Live>, last: EventId, k: nat)
    requires k < |heard|
  {
    && heard[k].event.messageId == m
    && (heard[k].id.Some? ==>
          && Less(last, heard[k].id.value)
          && forall j :: 0 <= j < k && heard[j].event.messageId == m && heard[j].id.Some? ==>
               Less(heard[j].id.value, heard[k].id.value))
  }

  lemma RisersStep(m: nat, heard: seq<Live>, x: Live, last: EventId)
    ensures Highest(m, heard + [x], last) ==
              if x.event.messageId == m && x.id.Some? then Max(Highest(m, heard, last), x.id.value) else Highest(m, heard, last)
    ensures Risers(m, heard + [x], last) == Risers(m, heard, last) +
              if x.event.messageId == m && (x.id.None? || Less(Highest(m, heard, last), x.id.value)) then [x] else []
  {
    assert (heard + [x])[..|heard|] == heard;
  }

  lemma {:induction false} HighestIsBelow(m: nat, heard: seq<Live>, last: EventId, id: EventId)
    ensures Less(Highest(m, heard, last), id) <==>
              Less(last, id) && forall j :: 0 <= j < |heard| && heard[j].event.messageId == m && heard[j].id.Some? ==>
                                  Less(heard[j].id.value, id)
  {
    if heard != [] {
      HighestIsBelow(m, heard[..|heard| - 1], last, id);
    }
  }

  lemma LastRises(m: nat, heard: seq<Live>, x: Live, last: EventId)
    ensures Risers(m, heard + [x], last) == Risers(m, heard, last) + if Rises(m, heard + [x], last, |heard|) then [x] else []
  {
    RisersStep(m, heard, x, last);
    if x.id.Some? {
      HighestIsBelow(m, heard, last, x.id.value);
    }
  }

  lemma EarlierRises(m: nat, heard: seq<Live>, x: Live, last: EventId, k: nat)
    requires k < |heard|
    ensures Rises(m, heard + [x], last, k) <==> Rises(m, heard, last, k)
  {
    assert forall j :: 0 <= j <= k ==> (heard + [x])[j] == heard[j];
  }

  /** Kept are exactly the messages that rise. */
  lemma {:induction false} RisersMembers(m: nat, heard: seq<Live>, last: EventId, y: Live)
    ensures y in Risers(m, heard, last) <==> exists k :: 0 <= k < |heard| && heard[k] == y && Rises(m, heard, last, k)
  {
    if heard != [] {
      var front, x := heard[..|heard| - 1], heard[|heard| - 1];
      assert heard == front + [x];
      RisersMembers(m, front, last, y);
      LastRises(m, front, x, last);
      hide Rises, Risers;
      forall k {:trigger Rises(m, heard, last, k)} | 0 <= k < |front|
        ensures front[k] == heard[k] && (Rises(m, heard, last, k) <==> Rises(m, front, last, k))
      {
        EarlierRises(m, front, x, last, k);
      }
      if k :| 0 <= k < |front| && front[k] == y && Rises(m, front, last, k) {
        assert heard[k] == y && Rises(m, heard, last, k);
      }
      if k :| 0 <= k < |heard| && heard[k] == y && Rises(m, heard, last, k) {
        if k < |front| {
          assert front[k] == y && Rises(m, front, last, k);
        }
      }
    }
  }

  // ------------------------------------------------------------------ what a connection yields, in every run

  predicate NoEnd(s: seq<Live>) {
    forall i :: 0 <= i < |s| ==> !s[i].event.Terminal()
  }

  /** The messages up to and including the first terminal one. */
  function UpToEnd(s: seq<Live>): (r: seq<Live>)
    ensures r <= s
    ensures NoEnd(s) ==> r == s
  {
    if s == [] then [] else if s[0].event.Terminal() then [s[0]] else [s[0]] + UpToEnd(s[1..])
  }

  lemma {:induction false} EndsAt(s: seq<Live>, before: seq<Live>, x: Live)
    requires before + [x] <= s && NoEnd(before) && x.event.Terminal()
    ensures UpToEnd(s) == before + [x]
  {
    assert (before + [x])[0] == s[0];
    if before != [] {
      assert s[0] == before[0];
      assert before[1..] + [x] == (before + [x])[1..] <= s[1..];
      EndsAt(s[1..], before[1..], x);
      assert [before[0]] + (before[1..] + [x]) == before + [x];
    }
  }

  lemma {:induction false} RisersGrow(m: nat, heard: seq<Live>, last: EventId, n: nat)
    requires n <= |heard|
    ensures Risers(m, heard[..n], last) <= Risers(m, heard, last)
  {
    if n == |heard| {
      assert heard[..n] == heard;
    } else {
      assert heard[..|heard| - 1][..n] == heard[..n];
      RisersGrow(m, heard[..|heard| - 1], last, n);
    }
  }

  /** The replay, and what rises above it among the first n messages heard. */
  function Offered(s: State, n: nat): seq<Live>
    requires n <= |s.heard|
  {
    AsLive(s.replayed) + Risers(s.conn.m, s.heard[..n], LastOf(s.replayed))
  }

  function AllOffered(s: State): seq<Live> {
    AsLive(s.replayed) + Risers(s.conn.m, s.heard, LastOf(s.replayed))
  }

  /** `gone`: the connection may have been cut off. */
  ghost predicate YieldOk(s: State, gone: bool) {
    match s.conn.phase
    case Idle => s.heard == [] && s.buffer == []
    case Subscribed => s.buffer == s.heard && s.conn.yielded == []
    case Replaying(queue) =>
      var k := |s.conn.yielded|;
      && s.buffer == s.heard
      && k <= |s.replayed| && queue == s.replayed[k..]
      && s.conn.yielded == AsLive(s.replayed[..k]) && NoEnd(s.conn.yielded)
      && s.conn.lastId == LastOf(s.replayed[..k])
    case Following =>
      && |s.buffer| <= |s.heard|
      && var n := |s.heard| - |s.buffer|;
         && s.buffer == s.heard[n..]
         && s.conn.yielded == Offered(s, n) && NoEnd(s.conn.yielded)
         && s.conn.lastId == Highest(s.conn.m, s.heard[..n], LastOf(s.replayed))
    case Closed =>
      if gone then s.conn.yielded <= UpToEnd(AllOffered(s))
      else s.conn.yielded == UpToEnd(AllOffered(s)) && !NoEnd(s.conn.yielded)
  }

  lemma OfferedIsPrefix(s: State, n: nat)
    requires n <= |s.heard|
    ensures Offered(s, n) <= AllOffered(s)
  {
    RisersGrow(s.conn.m, s.heard, LastOf(s.replayed), n);
  }

  /** The connection that has just yielded a terminal event has yielded all it is going to. */
  lemma EndedThere(s: State, t: State, before: seq<Live>, x: Live, n: nat)
    requires n <= |s.heard| && before + [x] <= Offered(s, n) && NoEnd(before) && x.event.Terminal()
    requires t.heard == s.heard && t.replayed == s.replayed && t.conn.m == s.conn.m
    requires t.conn.phase.Closed? && t.conn.yielded == before + [x]
    ensures YieldOk(t, false)
  {
    hide Risers, AsLive, UpToEnd;
    OfferedIsPrefix(s, n);
    EndsAt(AllOffered(s), before, x);
    assert t.conn.yielded[|before|] == x;
  }

  lemma YieldNothing(s: State)
    requires YieldOk(s, false) && Enabled(s, Yield) && s.conn.phase.queue == []
    ensures YieldOk(Step(s, Yield), false)
  {
    hide UpToEnd;
    assert s.heard[..0] == [];
    assert s.replayed[..|s.conn.yielded|] == s.replayed;
    assert s.heard[0..] == s.heard;
  }

  lemma YieldOne(s: State)
    requires YieldOk(s, false) && Enabled(s, Yield) && s.conn.phase.queue != []
    requires Less(s.conn.lastId, s.conn.phase.queue[0].id)
    ensures YieldOk(Step(s, Yield), false)
  {
    hide UpToEnd, Risers, Highest, UpToEnd;
    var t := Step(s, Yield);
    var k := |s.conn.yielded|;
    var x := s.replayed[k];
    var y := Live(Some(x.id), x.event);
    assert s.conn.phase.queue[0] == x && s.conn.phase.queue[1..] == s.replayed[k + 1..];
    assert s.replayed[..k + 1] == s.replayed[..k] + [x];
    assert t.conn.yielded == s.conn.yielded + [y];
    assert AsLive(s.replayed[..k + 1]) == s.conn.yielded + [y];
    if x.event.Terminal() {
      assert s.conn.yielded + [y] <= AsLive(s.replayed);
      EndedThere(s, t, s.conn.yielded, y, 0);
    }
  }

  /** What polling does to what has been offered. */
  lemma OfferedNext(s: State, n: nat)
    requires n < |s.heard|
    ensures var x, m, last := s.heard[n], s.conn.m, LastOf(s.replayed);
            var h := Highest(m, s.heard[..n], last);
            && Offered(s, n + 1) ==
                 Offered(s, n) + (if x.event.messageId == m && (x.id.None? || Less(h, x.id.value)) then [x] else [])
            && Highest(m, s.heard[..n + 1], last) == if x.event.messageId == m && x.id.Some? then Max(h, x.id.value) else h
  {
    hide Risers, Highest;
    assert s.heard[..n + 1] == s.heard[..n] + [s.heard[n]];
    RisersStep(s.conn.m, s.heard[..n], s.heard[n], LastOf(s.replayed));
  }

  lemma PollStep(s: State)
    requires YieldOk(s, false) && Enabled(s, Poll)
    ensures YieldOk(Step(s, Poll), false)
  {
    hide Risers, Highest, UpToEnd;
    var t := Step(s, Poll);
    var n := |s.heard| - |s.buffer|;
    var x := s.buffer[0];
    assert x == s.heard[n] && s.buffer[1..] == s.heard[n + 1..];
    OfferedNext(s, n);
    assert Offered(t, n + 1) == Offered(s, n + 1);
    hide Offered;
    if t.conn.phase.Closed? {
      EndedThere(s, t, s.conn.yielded, x, n + 1);
    }
  }

  lemma PublishStep(s: State, l: Label, gone: bool)
    requires YieldOk(s, gone) && Enabled(s, l) && l.Publish?
    ensures YieldOk(Step(s, l), gone)
  {
    hide Risers, Highest, UpToEnd;
    var t := Step(s, l);
    if s.conn.phase.Following? {
      var n := |s.heard| - |s.buffer|;
      assert t.heard[..n] == s.heard[..n];
      assert t.buffer == t.heard[n..];
    }
  }

  lemma {:induction false} PrefixOfEnd(a: seq<Live>, b: seq<Live>)
    requires a <= b && NoEnd(a)
    ensures a <= UpToEnd(b)
  {
    if a != [] {
      assert a[0] == b[0];
      PrefixOfEnd(a[1..], b[1..]);
    }
  }

  /** What an open connection has yielded is a beginning of all it is going to. */
  lemma YieldedIsOffered(s: State)
    requires YieldOk(s, false) && (s.conn.phase.Replaying? || s.conn.phase.Following?)
    ensures s.conn.yielded <= UpToEnd(AllOffered(s))
  {
    hide UpToEnd, Risers, Highest;
    if s.conn.phase.Following? {
      OfferedIsPrefix(s, |s.heard| - |s.buffer|);
    } else {
      assert AsLive(s.replayed[..|s.conn.yielded|]) <= AsLive(s.replayed);
    }
    hide Offered;
    PrefixOfEnd(s.conn.yielded, AllOffered(s));
  }

  lemma DisconnectStep(s: State, gone: bool)
    requires YieldOk(s, gone) && OrderOk(s) && (gone ==> s.conn.phase.Closed?)
    ensures YieldOk(Step(s, Disconnect), true)
  {
    hide UpToEnd, Risers, Highest, AsLive;
    var t := Step(s, Disconnect);
    assert AllOffered(t) == AllOffered(s);
    if s.conn.phase.Replaying? || s.conn.phase.Following? {
      YieldedIsOffered(s);
    }
    hide AllOffered, Offered;
    assert t.conn.yielded <= UpToEnd(AllOffered(t));
  }

  lemma StepYields(s: State, l: Label, gone: bool)
    requires YieldOk(s, gone) && OrderOk(s) && Enabled(s, l) && (gone ==> s.conn.phase.Closed?)
    ensures YieldOk(Step(s, l), gone || l.Disconnect?)
  {
    hide UpToEnd, Risers, Highest;
    match l
    case Publish(_, _) => PublishStep(s, l, gone);
    case Yield => if s.conn.phase.queue == [] { YieldNothing(s); } else { YieldOne(s); }
    case Poll => PollStep(s);
    case Disconnect => DisconnectStep(s, gone);
    case ReadLog => assert s.conn.yielded == [] && AsLive([]) == [];
    case _ =>
  }

  lemma {:induction false} RunYields(s: State, ls: seq<Label>, gone: bool)
    requires YieldOk(s, gone) && OrderOk(s) && IsRun(s, ls) && (gone ==> s.conn.phase.Closed?)
    ensures YieldOk(Final(s, ls), gone || Disconnect in ls) && OrderOk(Final(s, ls))
    ensures Final(s, ls).conn.m == s.conn.m
    decreases |ls|
  {
    if ls != [] {
      StepYields(s, ls[0], gone);
      StepOrder(s, ls[0]);
      assert Disconnect in ls <==> ls[0].Disconnect? || Disconnect in ls[1..];
      assert Step(s, ls[0]).conn.m == s.conn.m && (gone || ls[0].Disconnect? ==> Step(s, ls[0]).conn.phase.Closed?);
      hide YieldOk, OrderOk, Step, Enabled;
      RunYields(Step(s, ls[0]), ls[1..], gone || ls[0].Disconnect?);
    }
  }

  /**
   Whatever happens, a connection yields a beginning of this: what the replay returned, then the
   messages heard that rise above it and above each other, up to the first terminal event. It
   yields all of it unless the client went away first.
   */
  lemma YieldsTheRisers(m: nat, since: Option<EventId>, ls: seq<Label>)
    requires IsRun(Start(m, since), ls)
    ensures var s := Final(Start(m, since), ls);
            var due := UpToEnd(AsLive(s.replayed) + Risers(m, s.heard, LastOf(s.replayed)));
            && (!s.conn.phase.Idle? && !s.conn.phase.Subscribed? ==> s.conn.yielded <= due)
            && (Disconnect !in ls && (s.conn.phase.Closed? || (s.conn.phase.Following? && s.buffer == [])) ==> s.conn.yielded == due)
  {
    hide UpToEnd, Risers, Highest, IsRun, Final;
    RunYields(Start(m, since), ls, false);
    var s := Final(Start(m, since), ls);
    if s.conn.phase.Replaying? || s.conn.phase.Following? {
      YieldedIsOffered(s);
    }
    if s.conn.phase.Following? && s.buffer == [] {
      assert s.heard[..|s.heard|] == s.heard;
    }
  }

  // ------------------------------------------------------------------ which events are lost, when all are published

  /** As `InOrder`, but the publishes come in any order. */
  predicate AnyOrder(l: Label) {
    match l
    case Append(_, id, reported) => id.Some? && reported
    case Publish(_, delivered) => delivered
    case Trim(_) => false
    case Disconnect => false
    case _ => true
  }

  function AsMessage(x: Logged): Live {
    Live(Some(x.id), x.event)
  }

  ghost predicate Distinct(s: seq<Live>) {
    forall i, j :: 0 <= i < j < |s| ==> s[i].id != s[j].id
  }

  ghost predicate Apart(s: seq<Live>, t: seq<Live>) {
    forall i, j :: 0 <= i < |s| && 0 <= j < |t| ==> s[i].id != t[j].id
  }

  ghost predicate UpTo(s: seq<Live>, id: EventId) {
    forall i :: 0 <= i < |s| ==> s[i].id.Some? && AtMost(s[i].id.value, id)
  }

  /** Every event is published once. */
  ghost predicate OnceEach(s: State) {
    && Distinct(s.heard) && Distinct(s.inFlight) && Apart(s.heard, s.inFlight)
    && UpTo(s.heard, s.lastLogged) && UpTo(s.inFlight, s.lastLogged)
  }

  /** What was appended after the log was read is published to the connection, or will be. */
  ghost predicate Reaches(s: State) {
    && (s.conn.phase.Replaying? || s.conn.phase.Following? ==>
          && s.readAt <= |s.log| && s.replayed == Replay(s.log[..s.readAt], s.conn.m, s.conn.since)
          && forall i :: s.readAt <= i < |s.log| ==> AsMessage(s.log[i]) in s.inFlight || AsMessage(s.log[i]) in s.heard)
  }

  lemma AppendOnce(s: State, l: Label)
    requires OnceEach(s) && Enabled(s, l) && AnyOrder(l) && l.Append?
    ensures OnceEach(Step(s, l))
  {
  }

  lemma PublishOnce(s: State, l: Label)
    requires OnceEach(s) && Enabled(s, l) && l.Publish?
    ensures OnceEach(Step(s, l))
  {
    var t := Step(s, l);
    assert forall j :: 0 <= j < |t.inFlight| ==> t.inFlight[j] == s.inFlight[if j < l.index then j else j + 1];
  }

  lemma AppendReaches(s: State, l: Label)
    requires Reaches(s) && Enabled(s, l) && AnyOrder(l) && l.Append?
    ensures Reaches(Step(s, l))
  {
    var t := Step(s, l);
    if s.conn.phase.Replaying? || s.conn.phase.Following? {
      assert t.log[..s.readAt] == s.log[..s.readAt];
      forall i | s.readAt <= i < |t.log| ensures AsMessage(t.log[i]) in t.inFlight || AsMessage(t.log[i]) in t.heard {
        if i == |s.log| {
          assert t.inFlight[|s.inFlight|] == AsMessage(t.log[i]);
        } else {
          assert t.log[i] == s.log[i];
        }
      }
    }
  }

  lemma PublishReaches(s: State, l: Label)
    requires Reaches(s) && Enabled(s, l) && AnyOrder(l) && l.Publish?
    ensures Reaches(Step(s, l))
  {
    var t := Step(s, l);
    if s.conn.phase.Replaying? || s.conn.phase.Following? {
      forall x | x in s.inFlight ensures x in t.inFlight || x in t.heard {
        var j :| 0 <= j < |s.inFlight| && s.inFlight[j] == x;
        if j < l.index {
          assert t.inFlight[j] == x;
        } else if j > l.index {
          assert t.inFlight[j - 1] == x;
        } else {
          assert t.heard[|s.heard|] == x;
        }
      }
    }
  }

  lemma StepReaches(s: State, l: Label)
    requires OnceEach(s) && Reaches(s) && Enabled(s, l) && AnyOrder(l)
    ensures OnceEach(Step(s, l)) && Reaches(Step(s, l))
  {
    match l
    case Append(_, _, _) => AppendOnce(s, l); AppendReaches(s, l);
    case Publish(_, _) => PublishOnce(s, l); PublishReaches(s, l);
    case ReadLog => assert s.log[..|s.log|] == s.log;
    case _ =>
  }

  lemma {:induction false} RunReaches(s: State, ls: seq<Label>)
    requires OnceEach(s) && Reaches(s) && IsRun(s, ls) && forall l :: l in ls ==> AnyOrder(l)
    ensures OnceEach(Final(s, ls)) && Reaches(Final(s, ls)) && Disconnect !in ls
    ensures Final(s, ls).conn.m == s.conn.m && Final(s, ls).conn.since == s.conn.since
    decreases |ls|
  {
    hide OnceEach, Reaches;
    if ls != [] {
      assert ls[0] in ls && forall l :: l in ls[1..] ==> l in ls;
      StepReaches(s, ls[0]);
      assert Step(s, ls[0]).conn.m == s.conn.m && Step(s, ls[0]).conn.since == s.conn.since;
      hide Step, Enabled;
      RunReaches(Step(s, ls[0]), ls[1..]);
    }
  }

  /** An event of the message with a larger id was received before `x`. */
  ghost predicate Overtaken(s: State, x: Logged) {
    exists j, k {:trigger s.heard[j], s.heard[k]} ::
      && 0 <= j < k < |s.heard| && s.heard[k] == AsMessage(x)
      && s.heard[j].event.messageId == s.conn.m && s.heard[j].id.Some? && Less(x.id, s.heard[j].id.value)
  }

  lemma DeliveredBy(s: State, x: Logged)
    requires s.conn.yielded == AllOffered(s)
    ensures Delivered(s, x) <==>
              x in s.replayed ||
              exists k :: 0 <= k < |s.heard| && s.heard[k] == AsMessage(x) && Rises(s.conn.m, s.heard, LastOf(s.replayed), k)
  {
    hide Rises, Risers, LastOf;
    RisersMembers(s.conn.m, s.heard, LastOf(s.replayed), AsMessage(x));
    var r := AsLive(s.replayed);
    if x in s.replayed {
      var i :| 0 <= i < |s.replayed| && s.replayed[i] == x;
      assert r[i] == AsMessage(x);
    }
    if AsMessage(x) in r {
      var i :| 0 <= i < |r| && r[i] == AsMessage(x);
      assert s.replayed[i] == x;
    }
  }

  /** A replay that knows the completing event ends with a terminal one. */
  lemma CompletedReplayEnds(sel: seq<Logged>)
    requires Increasing(sel) && HasCompleted(sel)
    ensures !NoTerminal(WithoutFailures(sel))
  {
    DroppingKeepsOrder(sel);
    var c :| 0 <= c < |sel| && sel[c].event.outcome.Completed?;
    assert sel[c] in WithoutFailures(sel);
  }

  lemma EarlyIsSelected(log: seq<Logged>, n: nat, m: nat, since: Option<EventId>, i: nat)
    requires Increasing(log) && n <= |log| && i < |log| && log[i].event.messageId == m && EventStream.After(log[i].id, since)
    ensures i < n ==> log[i] in OfMessage(log[..n], m, since)
  {
    SelectionKeepsOrder(log[..n], m, since);
    if i < n {
      assert log[..n][i] == log[i];
    }
  }

  /** An event that the open stream did not replay is newer than the replay. */
  lemma NotReplayedIsNewer(s: State, x: Logged)
    requires Increasing(s.log) && s.readAt <= |s.log| && s.replayed == Replay(s.log[..s.readAt], s.conn.m, s.conn.since)
    requires forall y :: y in s.log ==> Less(BEFORE_ALL, y.id)
    requires NoTerminal(s.replayed) && x in s.log && x !in s.replayed
    requires x.event.messageId == s.conn.m && EventStream.After(x.id, s.conn.since)
    ensures exists i :: s.readAt <= i < |s.log| && s.log[i] == x
    ensures Less(LastOf(s.replayed), x.id)
  {
    hide OfMessage, WithoutFailures, HasCompleted;
    var sel := OfMessage(s.log[..s.readAt], s.conn.m, s.conn.since);
    SelectionKeepsOrder(s.log[..s.readAt], s.conn.m, s.conn.since);
    assert !HasCompleted(sel) by {
      if HasCompleted(sel) {
        CompletedReplayEnds(sel);
      }
    }
    var i :| 0 <= i < |s.log| && s.log[i] == x;
    EarlyIsSelected(s.log, s.readAt, s.conn.m, s.conn.since, i);
    if s.replayed != [] {
      LastIsNewest(s.log, s.readAt, s.conn.m, s.conn.since);
    }
  }

  /** An event that came up, and does not rise, was overtaken. */
  lemma DoesNotRise(s: State, x: Logged, k: nat)
    requires k < |s.heard| && s.heard[k] == AsMessage(x) && Distinct(s.heard) && x.event.messageId == s.conn.m
    requires Less(LastOf(s.replayed), x.id)
    ensures Rises(s.conn.m, s.heard, LastOf(s.replayed), k) <==> !Overtaken(s, x)
  {
    if !Rises(s.conn.m, s.heard, LastOf(s.replayed), k) {
      var j :| 0 <= j < k && s.heard[j].event.messageId == s.conn.m && s.heard[j].id.Some?
                && !Less(s.heard[j].id.value, x.id);
      assert s.heard[j].id != s.heard[k].id;
      assert Less(x.id, s.heard[j].id.value);
    }
  }

  /**
   Which events an open stream has lost when everything is published, in whatever order: those not
   replayed that were received after one of the message with a larger id. All others are delivered.
   */
  lemma LostIfOvertaken(m: nat, since: Option<EventId>, ls: seq<Label>, x: Logged)
    requires IsRun(Start(m, since), ls) && forall l :: l in ls ==> AnyOrder(l)
    requires var s := Final(Start(m, since), ls);
             s.conn.phase.Following? && s.buffer == [] && s.inFlight == [] && x in s.log
    requires x.event.messageId == m && EventStream.After(x.id, since)
    ensures var s := Final(Start(m, since), ls);
            !Delivered(s, x) <==> x !in s.replayed && Overtaken(s, x)
  {
    hide IsRun, Final, Risers, Highest, UpToEnd, Replay;
    var s := Final(Start(m, since), ls);
    RunReaches(Start(m, since), ls);
    RunYields(Start(m, since), ls, false);
    assert s.heard[..|s.heard|] == s.heard;
    assert s.conn.yielded == AllOffered(s);
    DeliveredBy(s, x);
    assert NoTerminal(s.replayed) by {
      assert forall i :: 0 <= i < |s.replayed| ==> s.conn.yielded[i] == AsMessage(s.replayed[i]);
    }
    if x !in s.replayed {
      NotReplayedIsNewer(s, x);
      hide YieldOk, OrderOk, Delivered;
      var i :| s.readAt <= i < |s.log| && s.log[i] == x;
      assert AsMessage(x) in s.heard;
      var k :| 0 <= k < |s.heard| && s.heard[k] == AsMessage(x);
      DoesNotRise(s, x, k);
      forall k' | 0 <= k' < |s.heard| && s.heard[k'] == AsMessage(x) ensures k' == k {
        assert s.heard[k'].id == s.heard[k].id;
      }
    }
  }
}
