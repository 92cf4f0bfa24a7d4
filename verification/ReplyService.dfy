/**
 The code that takes the steps of `ReplyProtocol`, as it runs when nobody else is in between:
 `send`/`regenerate` with their compensation, the handler of chat.response.generated, and one
 timeout pass. The stores are the fields; every remote call is given its outcome. Each method
 proves that what it does to the stores is a run of the protocol, so what the protocol guarantees
 over all interleavings is about this code.
 */
module ReplyService {
  import opened MessageRows
  import ReplyGuarantees
  import opened ReplyProtocol
  import opened Wrappers

  /** Message rows, the marker keys, the deadlines in the sorted set, handled final events and staged requests. */
  datatype Stores = Stores(rows: map<Id, Slot>, keys: set<Id>, deadlines: map<Id, int>, inbox: set<Id>, outbox: set<Id>)

  /** What the stores hold under one id is what the protocol's record says. */
  predicate MirrorsAt(x: Stores, e: Entry, id: Id) {
    && e.row == (if id in x.rows then Some(x.rows[id]) else None)
    && e.key == (id in x.keys)
    && e.deadline == (if id in x.deadlines then Some(x.deadlines[id]) else None)
    && e.inbox == (id in x.inbox)
    && e.staged == (id in x.outbox)
  }

  ghost predicate Mirrors(x: Stores, s: State) {
    forall id {:trigger s.At(id)} :: MirrorsAt(x, s.At(id), id)
  }

  predicate SameAt(x: Stores, y: Stores, id: Id) {
    && (id in x.rows <==> id in y.rows) && (id in x.rows ==> x.rows[id] == y.rows[id])
    && (id in x.keys <==> id in y.keys)
    && (id in x.deadlines <==> id in y.deadlines) && (id in x.deadlines ==> x.deadlines[id] == y.deadlines[id])
    && (id in x.inbox <==> id in y.inbox)
    && (id in x.outbox <==> id in y.outbox)
  }

  /** Steps that change the records of some ids, and code that does the same to the stores. */
  lemma MirrorsBut(x: Stores, y: Stores, s: State, t: State, ids: set<Id>)
    requires Mirrors(x, s) && forall k {:trigger t.At(k)} :: k in ids ==> MirrorsAt(y, t.At(k), k)
    requires forall k {:trigger SameAt(x, y, k)} :: k !in ids ==> SameAt(x, y, k)
    requires forall k {:trigger t.At(k)} :: k !in ids ==> t.At(k) == s.At(k)
    ensures Mirrors(y, t)
  {
    forall k ensures MirrorsAt(y, t.At(k), k) {
      if k !in ids {
        assert SameAt(x, y, k);
        assert MirrorsAt(x, s.At(k), k);
      }
    }
  }

  // ------------------------------------------------------------------ runs, one label at a time

  /** What the labels of one actor do to the record it has in hand. */
  lemma CallStep(s: State, rid: Id, c: SendCall)
    requires Enabled(s, Call(rid, c))
    ensures var t := Step(s, Call(rid, c));
            t.At(rid) == AfterCall(s.At(rid), c) && t.procs == s.procs && forall k :: k != rid ==> t.At(k) == s.At(k)
  {
  }

  lemma MoveStep(s: State, pid: nat, c: ProcCall)
    requires Enabled(s, Move(pid, c))
    ensures var t := Step(s, Move(pid, c));
            var p := s.procs[pid];
            var next := ProcAfter(s.At(InHand(p)), p, c);
            && t.At(InHand(p)) == AfterMove(s.At(InHand(p)), p, c)
            && (forall k :: k != InHand(p) ==> t.At(k) == s.At(k))
            && (next.Some? ==> pid in t.procs && t.procs[pid] == next.value)
            && (next.None? ==> pid !in t.procs)
  {
  }

  lemma DeliverStep(s: State, pid: nat, rid: Id, success: bool, text: string)
    requires Enabled(s, Deliver(pid, rid, success, text))
    ensures var l := Deliver(pid, rid, success, text);
            var t := Step(s, l);
            && IsRun(s, [l]) && After(s, [l]) == t
            && (s.At(rid).inbox || !Writable(s.At(rid).row) ==> t == s)
            && (!s.At(rid).inbox && Writable(s.At(rid).row) ==>
                  && t.At(rid) == AnsweredEntry(s.At(rid), success, text)
                  && (forall k :: k != rid ==> t.At(k) == s.At(k))
                  && pid in t.procs && t.procs[pid] == Handler(rid, DropKey))
  {
    var l := Deliver(pid, rid, success, text);
    RunSnoc(s, [], l);
    assert [] + [l] == [l];
  }

  /** What clearing the marker leaves, when its second call is only made after the first succeeded. */
  function Cleared(e: Entry, keyIo: Io, deadlineIo: Io): Entry {
    var f := WithoutKey(e, keyIo);
    if keyIo.Done? then WithoutDeadline(f, deadlineIo) else f
  }

  /** A delivery handled to the end. */
  function HandlerLabels(pid: nat, rid: Id, success: bool, text: string, keyIo: Io, deadlineIo: Io): seq<Label> {
    [Deliver(pid, rid, success, text), Move(pid, HandlerKey(keyIo))] +
    (if keyIo.Done? then [Move(pid, HandlerDeadline(deadlineIo))] else []) +
    [Move(pid, HandlerSave)]
  }

  lemma HandlerRuns(s: State, pid: nat, rid: Id, success: bool, text: string, keyIo: Io, deadlineIo: Io)
    requires Enabled(s, Deliver(pid, rid, success, text)) && !s.At(rid).inbox && Writable(s.At(rid).row)
    ensures var ls := HandlerLabels(pid, rid, success, text, keyIo, deadlineIo);
            && IsRun(s, ls)
            && var t := After(s, ls);
               && t.At(rid) == Cleared(AnsweredEntry(s.At(rid), success, text), keyIo, deadlineIo).(inbox := true)
               && (forall k :: k != rid ==> t.At(k) == s.At(k))
               && pid !in t.procs
  {
    DeliverStep(s, pid, rid, success, text);
    hide Step, Enabled, IsRun, After;
    var run := [Deliver(pid, rid, success, text)];
    var t := After(s, run);
    HandlerMoves(s, run, t, pid, HandlerKey(keyIo));
    run := run + [Move(pid, HandlerKey(keyIo))];
    t := After(s, run);
    if keyIo.Done? {
      HandlerMoves(s, run, t, pid, HandlerDeadline(deadlineIo));
      run := run + [Move(pid, HandlerDeadline(deadlineIo))];
      t := After(s, run);
    }
    HandlerMoves(s, run, t, pid, HandlerSave);
    assert run + [Move(pid, HandlerSave)] == HandlerLabels(pid, rid, success, text, keyIo, deadlineIo);
  }

  /** The stores after a final event that was handled to the end. */
  function HandledStores(x: Stores, rid: Id, success: bool, text: string, keyIo: Io, deadlineIo: Io): Stores {
    var row := if rid in x.rows then Some(x.rows[rid]) else None;
    var written := if success then Finalized(row, text) else FailedBy(row, text);
    ClearedStores(x, rid, keyIo, deadlineIo).(rows := if written.Some? then x.rows[rid := written.value] else x.rows,
                                              inbox := x.inbox + {rid})
  }

  lemma HandledAt(x: Stores, e: Entry, rid: Id, success: bool, text: string, keyIo: Io, deadlineIo: Io)
    requires MirrorsAt(x, e, rid) && Writable(e.row)
    ensures MirrorsAt(HandledStores(x, rid, success, text, keyIo, deadlineIo),
                      Cleared(AnsweredEntry(e, success, text), keyIo, deadlineIo).(inbox := true), rid)
  {
  }

  lemma HandledSame(x: Stores, rid: Id, success: bool, text: string, keyIo: Io, deadlineIo: Io, k: Id)
    requires k != rid
    ensures SameAt(x, HandledStores(x, rid, success, text, keyIo, deadlineIo), k)
  {
  }

  /** The code for one delivery does to the stores what the protocol does to the record. */
  lemma HandledMirrors(x: Stores, s: State, t: State, rid: Id, success: bool, text: string, keyIo: Io, deadlineIo: Io)
    requires Mirrors(x, s) && Writable(s.At(rid).row) && forall k :: k != rid ==> t.At(k) == s.At(k)
    requires t.At(rid) == Cleared(AnsweredEntry(s.At(rid), success, text), keyIo, deadlineIo).(inbox := true)
    ensures Mirrors(HandledStores(x, rid, success, text, keyIo, deadlineIo), t)
  {
    var y := HandledStores(x, rid, success, text, keyIo, deadlineIo);
    assert MirrorsAt(x, s.At(rid), rid);
    HandledAt(x, s.At(rid), rid, success, text, keyIo, deadlineIo);
    hide HandledStores, Cleared, AnsweredEntry, MirrorsAt, SameAt, Writable;
    forall k | k != rid ensures SameAt(x, y, k) {
      HandledSame(x, rid, success, text, keyIo, deadlineIo, k);
    }
    MirrorsBut(x, y, s, t, {rid});
  }

  lemma HandledRuns(x: Stores, s: State, pid: nat, rid: Id, success: bool, text: string, keyIo: Io, deadlineIo: Io)
    requires Mirrors(x, s) && Enabled(s, Deliver(pid, rid, success, text))
    requires !s.At(rid).inbox && Writable(s.At(rid).row)
    ensures var ls := HandlerLabels(pid, rid, success, text, keyIo, deadlineIo);
            IsRun(s, ls) && Mirrors(HandledStores(x, rid, success, text, keyIo, deadlineIo), After(s, ls))
  {
    hide Step, Enabled, IsRun, After, Mirrors, HandledStores, Cleared, AnsweredEntry, HandlerLabels, Writable;
    HandlerRuns(s, pid, rid, success, text, keyIo, deadlineIo);
    HandledMirrors(x, s, After(s, HandlerLabels(pid, rid, success, text, keyIo, deadlineIo)), rid, success, text, keyIo, deadlineIo);
  }

  // ------------------------------------------------------------------ one entry of a timeout pass

  /** What happens to the calls for one entry. */
  datatype Fate = Fate(probeFails: bool, publishFails: bool, keyIo: Io, deadlineIo: Io)

  function SweepLabels(pid: nat, e: Entry, fate: Fate): seq<Label> {
    if fate.probeFails then [Move(pid, SweepError)]
    else
      [Move(pid, Probe), Move(pid, Judge)] +
      (if !e.key then [Move(pid, SweepDropDeadline(fate.deadlineIo))]
       else if fate.publishFails && TimesOut(e) then [Move(pid, SweepError)]
       else
         [Move(pid, SweepDropKey(fate.keyIo))] +
         (if fate.keyIo.Done? then [Move(pid, SweepDropDeadline(fate.deadlineIo))] else []))
  }

  /** The pass writes a timeout over this row. */
  predicate TimesOut(e: Entry) {
    RowTimesOut(e.row)
  }

  predicate RowTimesOut(row: Option<Slot>) {
    !(row.Some? && row.value.sender == Assistant && row.value.status == Sent)
  }

  function Swept(e: Entry, fate: Fate): Entry {
    if fate.probeFails then e
    else if !e.key then WithoutDeadline(e, fate.deadlineIo)
    else
      var f := e.(row := TimedOut(e.row));
      if fate.publishFails && TimesOut(e) then f else Cleared(f, fate.keyIo, fate.deadlineIo)
  }

  function ClearedStores(x: Stores, id: Id, keyIo: Io, deadlineIo: Io): Stores {
    x.(keys := if keyIo.Lost? then x.keys else x.keys - {id},
       deadlines := if keyIo.Done? && !deadlineIo.Lost? then x.deadlines - {id} else x.deadlines)
  }

  function SweptStores(x: Stores, id: Id, fate: Fate): Stores {
    if fate.probeFails then x
    else if id !in x.keys then x.(deadlines := if fate.deadlineIo.Lost? then x.deadlines else x.deadlines - {id})
    else if id in x.rows && !RowTimesOut(Some(x.rows[id])) then ClearedStores(x, id, fate.keyIo, fate.deadlineIo)
    else
      var y := x.(rows := x.rows[id := Slot(Assistant, TIMEOUT_MESSAGE, Failed)]);
      if fate.publishFails then y else ClearedStores(y, id, fate.keyIo, fate.deadlineIo)
  }

  /** The code for one entry does to the stores what the protocol does to the record. */
  lemma SweptMirrors(x: Stores, s: State, t: State, id: Id, fate: Fate)
    requires Mirrors(x, s) && t.At(id) == Swept(s.At(id), fate) && forall k :: k != id ==> t.At(k) == s.At(k)
    ensures Mirrors(SweptStores(x, id, fate), t)
    ensures id in x.keys <==> s.At(id).key
    ensures RowTimesOut(if id in x.rows then Some(x.rows[id]) else None) == TimesOut(s.At(id))
  {
    assert MirrorsAt(x, s.At(id), id);
    SweptAt(x, s.At(id), id, fate);
    hide SweptStores, Swept, MirrorsAt, SameAt;
    forall k | k != id ensures SameAt(x, SweptStores(x, id, fate), k) {
      SweptSame(x, id, fate, k);
    }
    MirrorsBut(x, SweptStores(x, id, fate), s, t, {id});
  }

  lemma SweptAt(x: Stores, e: Entry, id: Id, fate: Fate)
    requires MirrorsAt(x, e, id)
    ensures MirrorsAt(SweptStores(x, id, fate), Swept(e, fate), id)
    ensures id in x.keys <==> e.key
    ensures RowTimesOut(if id in x.rows then Some(x.rows[id]) else None) == TimesOut(e)
  {
  }

  lemma SweptSame(x: Stores, id: Id, fate: Fate, k: Id)
    requires k != id
    ensures SameAt(x, SweptStores(x, id, fate), k)
  {
  }

  lemma SweepMoves(start: State, run: seq<Label>, s: State, pid: nat, c: ProcCall)
    requires IsRun(start, run) && s == After(start, run) && pid in s.procs && ProcAwaits(s.procs[pid], c) && s.procs[pid].Sweep?
    ensures Enabled(s, Move(pid, c)) && IsRun(start, run + [Move(pid, c)])
    ensures var t := After(start, run + [Move(pid, c)]);
            var id := s.procs[pid].todo[0];
            && t.At(id) == AfterMove(s.At(id), s.procs[pid], c)
            && (forall k :: k != id ==> t.At(k) == s.At(k))
            && pid in t.procs && Some(t.procs[pid]) == ProcAfter(s.At(id), s.procs[pid], c)
  {
    RunSnoc(start, run, Move(pid, c));
    MoveStep(s, pid, c);
  }

  lemma SweepRuns(s: State, pid: nat, fate: Fate)
    requires pid in s.procs && s.procs[pid].Sweep? && s.procs[pid].spc == Next && s.procs[pid].todo != []
    ensures var id := s.procs[pid].todo[0];
            var ls := SweepLabels(pid, s.At(id), fate);
            && IsRun(s, ls)
            && var t := After(s, ls);
               && t.At(id) == Swept(s.At(id), fate)
               && (forall k :: k != id ==> t.At(k) == s.At(k))
               && pid in t.procs && t.procs[pid].Sweep? && t.procs[pid].spc == Next
               && t.procs[pid].todo == s.procs[pid].todo[1..]
  {
    var id := s.procs[pid].todo[0];
    var e := s.At(id);
    assert IsRun(s, []) && After(s, []) == s;
    hide Step, Enabled, IsRun, After;
    if fate.probeFails {
      SweepMoves(s, [], s, pid, SweepError);
      assert [] + [Move(pid, SweepError)] == SweepLabels(pid, e, fate);
    } else {
      SweepMoves(s, [], s, pid, Probe);
      var run := [] + [Move(pid, Probe)];
      SweepMoves(s, run, After(s, run), pid, Judge);
      run := run + [Move(pid, Judge)];
      assert run == [Move(pid, Probe), Move(pid, Judge)];
      SweepEnds(s, run, pid, e, fate);
    }
  }

  /** The part of an entry after the judgement. */
  lemma SweepEnds(s: State, run: seq<Label>, pid: nat, e: Entry, fate: Fate)
    requires run == [Move(pid, Probe), Move(pid, Judge)] && IsRun(s, run) && !fate.probeFails
    requires pid in s.procs && s.procs[pid].Sweep? && s.procs[pid].todo != [] && e == s.At(s.procs[pid].todo[0])
    requires var t := After(s, run);
             var id := s.procs[pid].todo[0];
             && pid in t.procs
             && t.procs[pid] == s.procs[pid].(spc := if e.key then SweepKey else SweepDeadline)
             && t.At(id) == (if e.key then e.(row := TimedOut(e.row)) else e)
             && (forall k :: k != id ==> t.At(k) == s.At(k))
    ensures var id := s.procs[pid].todo[0];
            var ls := SweepLabels(pid, e, fate);
            && IsRun(s, ls)
            && var t := After(s, ls);
               && t.At(id) == Swept(e, fate)
               && (forall k :: k != id ==> t.At(k) == s.At(k))
               && pid in t.procs && t.procs[pid].Sweep? && t.procs[pid].spc == Next
               && t.procs[pid].todo == s.procs[pid].todo[1..]
  {
    hide Step, Enabled, IsRun, After;
    if !e.key {
      SweepMoves(s, run, After(s, run), pid, SweepDropDeadline(fate.deadlineIo));
    } else if fate.publishFails && TimesOut(e) {
      SweepMoves(s, run, After(s, run), pid, SweepError);
    } else {
      SweepMoves(s, run, After(s, run), pid, SweepDropKey(fate.keyIo));
      var more := run + [Move(pid, SweepDropKey(fate.keyIo))];
      if fate.keyIo.Done? {
        SweepMoves(s, more, After(s, more), pid, SweepDropDeadline(fate.deadlineIo));
        assert more + [Move(pid, SweepDropDeadline(fate.deadlineIo))] == SweepLabels(pid, e, fate);
      } else {
        assert more == SweepLabels(pid, e, fate);
      }
    }
  }

  lemma ScanStep(s: State, pid: nat, now: int, todo: seq<Id>)
    requires Enabled(s, Scan(pid, now, todo))
    ensures var l := Scan(pid, now, todo);
            var t := After(s, [l]);
            && IsRun(s, [l])
            && (forall k :: t.At(k) == s.At(k))
            && pid in t.procs && t.procs[pid].Sweep? && t.procs[pid].spc == Next && t.procs[pid].todo == todo
  {
    var l := Scan(pid, now, todo);
    RunSnoc(s, [], l);
    assert [] + [l] == [l];
  }

  // ------------------------------------------------------------------ send and regenerate

  /** The outcomes of the calls a request makes, the compensating ones included. */
  datatype Luck = Luck(setKey: Io, addDeadline: Io, stage: Io, undoKey: Io, undoDeadline: Io, deleteOk: bool)

  function UndoLabels(rid: Id, luck: Luck): seq<Label> {
    [Call(rid, UndoRedisKey(luck.undoKey))] +
    (if luck.undoKey.Done? then [Call(rid, UndoRedisDeadline(luck.undoDeadline))] else [])
  }

  /** A pass has gone over this id without an error: no marker is left, and what was not answered has failed. */
  predicate IsExpired(x: Stores, y: Stores, id: Id) {
    var answered := id in x.rows && x.rows[id].sender == Assistant && x.rows[id].status == Sent;
    && id !in y.keys && id !in y.deadlines
    && if id in x.keys && !answered then id in y.rows && y.rows[id] == Slot(Assistant, TIMEOUT_MESSAGE, Failed)
       else (id in y.rows <==> id in x.rows) && (id in y.rows ==> y.rows[id] == x.rows[id])
  }

  /** What one entry of a pass does, by the calls that fail. */
  predicate EntryProcessed(x: Stores, y: Stores, id: Id, fate: Fate, counted: bool) {
    var answered := id in x.rows && x.rows[id].sender == Assistant && x.rows[id].status == Sent;
    var fails := !fate.probeFails && id in x.keys && !answered;
    var clears := !fate.probeFails && id in x.keys && !(fails && fate.publishFails);
    && y.rows == (if fails then x.rows[id := Slot(Assistant, TIMEOUT_MESSAGE, Failed)] else x.rows)
    && y.keys == (if clears && fate.keyIo != Lost then x.keys - {id} else x.keys)
    && y.deadlines == (if ((clears && fate.keyIo == Done) || (!fate.probeFails && id !in x.keys)) && fate.deadlineIo != Lost
                       then x.deadlines - {id} else x.deadlines)
    && counted == (fails && !fate.publishFails && fate.keyIo == Done && fate.deadlineIo == Done)
  }

  lemma SweptLater(x: Stores, y: Stores, id: Id, fate: Fate, k: Id)
    requires IsExpired(x, y, k) && k != id
    ensures IsExpired(x, SweptStores(y, id, fate), k)
  {
  }

  lemma SweptNow(x: Stores, y: Stores, id: Id)
    requires SameAt(x, y, id)
    ensures IsExpired(x, SweptStores(y, id, Fate(false, false, Done, Done)), id)
  {
  }

  lemma SameStill(x: Stores, y: Stores, z: Stores, id: Id)
    requires SameAt(x, y, id) && SameAt(y, z, id)
    ensures SameAt(x, z, id)
  {
  }

  /** One request from its first write to its return. */
  function SendLabels(rid: Id, kind: Kind, score: int, luck: Luck): seq<Label> {
    [Begin(rid, kind), Call(rid, RedisSet(luck.setKey))] +
    (if !luck.setKey.Done? then UndoLabels(rid, luck) + [Call(rid, UndoPlaceholder(luck.deleteOk))]
     else
       [Call(rid, RedisAdd(score, luck.addDeadline))] +
       (if !luck.addDeadline.Done? then UndoLabels(rid, luck) + [Call(rid, UndoPlaceholder(luck.deleteOk))]
        else
          [StageRequest(rid, luck.stage, luck.deleteOk)] +
          (if luck.stage.Done? then [] else UndoLabels(rid, luck))))
  }

  /** The markers after the registration as far as it got. */
  function Registered(e: Entry, score: int, luck: Luck): Entry {
    var f := e.(key := !luck.setKey.Lost?);
    if luck.setKey.Done? && !luck.addDeadline.Lost? then f.(deadline := Some(score)) else f
  }

  predicate Registers(luck: Luck) {
    luck.setKey.Done? && luck.addDeadline.Done?
  }

  /** What a request leaves under its response id. */
  function RequestLeft(kind: Kind, score: int, luck: Luck): Entry {
    var e := Registered(BLANK.(row := Reply("", Pending), role := ResponseId), score, luck);
    if !Registers(luck) then
      var f := Cleared(e, luck.undoKey, luck.undoDeadline);
      if luck.deleteOk then RemovedEntry(f) else f
    else
      var f := if luck.stage.Lost? then e else StagedEntry(e, kind);
      if luck.stage.Done? then f
      else Cleared(if luck.deleteOk then RemovedEntry(f) else f, luck.undoKey, luck.undoDeadline)
  }

  /** Under the prompt's id, and under that of a replaced answer. */
  function PromptLeft(text: string, luck: Luck): Entry {
    var f := BLANK.(role := PromptId);
    if Registers(luck) && !luck.stage.Lost? then f.(row := Some(Slot(User, text, Sent))) else f
  }

  function TargetLeft(e: Entry, luck: Luck): Entry {
    if Registers(luck) && luck.stage.Done? && luck.deleteOk then RemovedEntry(e) else e
  }

  /** A request and how it stands. */
  ghost predicate Opened(s: State, t: State, rid: Id, kind: Kind, e: Entry) {
    && t.At(rid) == e
    && (kind.Prompt? ==> t.At(kind.uid) == BLANK.(role := PromptId))
    && (forall k :: k != rid && (kind.Prompt? ==> k != kind.uid) ==> t.At(k) == s.At(k))
  }

  lemma CallMoves(start: State, run: seq<Label>, rid: Id, kind: Kind, e: Entry, c: SendCall)
    requires IsRun(start, run) && Opened(start, After(start, run), rid, kind, e)
    requires e.send.Some? && Awaits(e.send.value, c) && (kind.Prompt? ==> kind.uid != rid)
    ensures IsRun(start, run + [Call(rid, c)])
    ensures Opened(start, After(start, run + [Call(rid, c)]), rid, kind, AfterCall(e, c))
  {
    RunSnoc(start, run, Call(rid, c));
    CallStep(After(start, run), rid, c);
  }

  lemma BeginStep(s: State, rid: Id, kind: Kind)
    requires Enabled(s, Begin(rid, kind))
    ensures IsRun(s, [Begin(rid, kind)])
    ensures Opened(s, After(s, [Begin(rid, kind)]), rid, kind,
                   BLANK.(row := Reply("", Pending), send := Some(Send(kind, SetKey)), role := ResponseId))
  {
    RunSnoc(s, [], Begin(rid, kind));
    assert [] + [Begin(rid, kind)] == [Begin(rid, kind)];
  }

  /** The compensation, before or after the batch. */
  lemma UndoRuns(start: State, run: seq<Label>, rid: Id, kind: Kind, e: Entry, luck: Luck)
    requires IsRun(start, run) && Opened(start, After(start, run), rid, kind, e) && (kind.Prompt? ==> kind.uid != rid)
    requires e.send.Some? && e.send.value.pc == UndoKey(true)
    ensures var ls := run + UndoLabels(rid, luck) + [Call(rid, UndoPlaceholder(luck.deleteOk))];
            && IsRun(start, ls)
            && Opened(start, After(start, ls), rid, kind,
                      var f := Cleared(e, luck.undoKey, luck.undoDeadline).(send := None);
                      if luck.deleteOk then RemovedEntry(f) else f)
  {
    hide IsRun, After, Opened;
    CallMoves(start, run, rid, kind, e, UndoRedisKey(luck.undoKey));
    var run1 := run + [Call(rid, UndoRedisKey(luck.undoKey))];
    var e1 := AfterCall(e, UndoRedisKey(luck.undoKey));
    var last := UndoPlaceholder(luck.deleteOk);
    if luck.undoKey.Done? {
      CallMoves(start, run1, rid, kind, e1, UndoRedisDeadline(luck.undoDeadline));
      var run2 := run1 + [Call(rid, UndoRedisDeadline(luck.undoDeadline))];
      CallMoves(start, run2, rid, kind, AfterCall(e1, UndoRedisDeadline(luck.undoDeadline)), last);
      assert run2 + [Call(rid, last)] == run + UndoLabels(rid, luck) + [Call(rid, last)];
    } else {
      CallMoves(start, run1, rid, kind, e1, last);
      assert run1 + [Call(rid, last)] == run + UndoLabels(rid, luck) + [Call(rid, last)];
    }
  }

  /** The entry of a request whose registration failed, just before the compensation. */
  function Unregistered(kind: Kind, score: int, luck: Luck): Entry {
    Registered(BLANK.(row := Reply("", Pending), role := ResponseId), score, luck).(send := Some(Send(kind, UndoKey(true))))
  }

  lemma UnregisteredEntry(kind: Kind, score: int, luck: Luck)
    requires !Registers(luck)
    ensures var e := AfterCall(BLANK.(row := Reply("", Pending), send := Some(Send(kind, SetKey)), role := ResponseId),
                               RedisSet(luck.setKey));
            if luck.setKey.Done? then
              && e.send.Some? && Awaits(e.send.value, RedisAdd(score, luck.addDeadline))
              && AfterCall(e, RedisAdd(score, luck.addDeadline)) == Unregistered(kind, score, luck)
            else e == Unregistered(kind, score, luck)
  {
  }

  lemma UndoneEntry(kind: Kind, score: int, luck: Luck)
    requires !Registers(luck)
    ensures RequestLeft(kind, score, luck) ==
              var f := Cleared(Unregistered(kind, score, luck), luck.undoKey, luck.undoDeadline).(send := None);
              if luck.deleteOk then RemovedEntry(f) else f
  {
  }

  lemma RegisterRuns(start: State, rid: Id, kind: Kind, score: int, luck: Luck)
    requires Enabled(start, Begin(rid, kind)) && !Registers(luck)
    ensures var ls := SendLabels(rid, kind, score, luck);
            IsRun(start, ls) && Opened(start, After(start, ls), rid, kind, RequestLeft(kind, score, luck))
  {
    BeginStep(start, rid, kind);
    assert kind.Prompt? ==> kind.uid != rid;
    UnregisteredEntry(kind, score, luck);
    UndoneEntry(kind, score, luck);
    hide IsRun, After, Opened, Enabled, AfterCall, RequestLeft, Cleared, RemovedEntry;
    var e := BLANK.(row := Reply("", Pending), send := Some(Send(kind, SetKey)), role := ResponseId);
    var run := [Begin(rid, kind)];
    CallMoves(start, run, rid, kind, e, RedisSet(luck.setKey));
    run := run + [Call(rid, RedisSet(luck.setKey))];
    e := AfterCall(e, RedisSet(luck.setKey));
    if luck.setKey.Done? {
      CallMoves(start, run, rid, kind, e, RedisAdd(score, luck.addDeadline));
      run := run + [Call(rid, RedisAdd(score, luck.addDeadline))];
      e := AfterCall(e, RedisAdd(score, luck.addDeadline));
    }
    UndoRuns(start, run, rid, kind, e, luck);
    assert run + UndoLabels(rid, luck) + [Call(rid, UndoPlaceholder(luck.deleteOk))] == SendLabels(rid, kind, score, luck);
  }

  ghost predicate OthersSame(s: State, t: State, rid: Id) {
    forall k {:trigger t.At(k)} :: k != rid ==> t.At(k) == s.At(k)
  }

  /** What a request leaves everywhere. */
  ghost predicate Finished(s: State, t: State, rid: Id, kind: Kind, score: int, luck: Luck) {
    && t.At(rid) == RequestLeft(kind, score, luck)
    && (kind.Prompt? ==>
          && t.At(kind.uid) == PromptLeft(kind.text, luck)
          && forall k {:trigger t.At(k)} :: k != rid && k != kind.uid ==> t.At(k) == s.At(k))
    && (kind == Regeneration(None) ==> OthersSame(s, t, rid))
    && (kind.Regeneration? && kind.target.Some? ==>
          && t.At(kind.target.value) == TargetLeft(s.At(kind.target.value), luck)
          && forall k {:trigger t.At(k)} :: k != rid && k != kind.target.value ==> t.At(k) == s.At(k))
  }

  lemma UndoMoves(start: State, run: seq<Label>, rid: Id, c: SendCall)
    requires IsRun(start, run) && Enabled(After(start, run), Call(rid, c))
    ensures IsRun(start, run + [Call(rid, c)])
    ensures var s, t := After(start, run), After(start, run + [Call(rid, c)]);
            t.At(rid) == AfterCall(s.At(rid), c) && OthersSame(s, t, rid)
  {
    RunSnoc(start, run, Call(rid, c));
    CallStep(After(start, run), rid, c);
  }

  lemma MayCall(s: State, rid: Id, c: SendCall)
    requires s.At(rid).send.Some? && Awaits(s.At(rid).send.value, c)
    ensures Enabled(s, Call(rid, c))
  {
  }

  /** The compensation after a batch that failed; the placeholder was dealt with in the same step. */
  lemma DiscardRuns(start: State, run: seq<Label>, rid: Id, luck: Luck)
    requires IsRun(start, run)
    requires var e := After(start, run).At(rid); e.send.Some? && e.send.value.pc == UndoKey(false)
    ensures IsRun(start, run + UndoLabels(rid, luck))
    ensures var s, t := After(start, run), After(start, run + UndoLabels(rid, luck));
            t.At(rid) == Cleared(s.At(rid), luck.undoKey, luck.undoDeadline).(send := None) && OthersSame(s, t, rid)
  {
    var first, second := UndoRedisKey(luck.undoKey), UndoRedisDeadline(luck.undoDeadline);
    var e := After(start, run).At(rid);
    DiscardedEntry(e, luck);
    MayCall(After(start, run), rid, first);
    hide IsRun, After, Enabled, AfterCall, WithoutKey, WithoutDeadline, Cleared;
    UndoMoves(start, run, rid, first);
    var run1 := run + [Call(rid, first)];
    if luck.undoKey.Done? {
      MayCall(After(start, run1), rid, second);
      UndoMoves(start, run1, rid, second);
      assert run1 + [Call(rid, second)] == run + UndoLabels(rid, luck);
    } else {
      assert run1 == run + UndoLabels(rid, luck);
    }
  }

  lemma DiscardedEntry(e: Entry, luck: Luck)
    requires e.send.Some? && e.send.value.pc == UndoKey(false)
    ensures var f := AfterCall(e, UndoRedisKey(luck.undoKey));
            var done := Cleared(e, luck.undoKey, luck.undoDeadline).(send := None);
            if luck.undoKey.Done? then
              && f.send.Some? && Awaits(f.send.value, UndoRedisDeadline(luck.undoDeadline))
              && AfterCall(f, UndoRedisDeadline(luck.undoDeadline)) == done
            else f == done
  {
  }

  lemma StageAt(s: State, rid: Id, kind: Kind, luck: Luck, k: Id)
    requires s.At(rid).send == Some(Send(kind, Stage))
    requires kind.Prompt? ==> kind.uid != rid
    requires kind.Regeneration? ==> kind.target != Some(rid)
    ensures var t := StageStep(s, rid, luck.stage, luck.deleteOk);
            t.At(k) ==
              if k == rid then AfterStage(s.At(rid), luck.stage, luck.deleteOk)
              else if kind.Prompt? && k == kind.uid && !luck.stage.Lost? then s.At(k).(row := Some(Slot(User, kind.text, Sent)))
              else if kind.Regeneration? && kind.target == Some(k) && luck.stage.Done? && luck.deleteOk then RemovedEntry(s.At(k))
              else s.At(k)
  {
  }

  /** A registered request. */
  function Standing(kind: Kind, score: int): Entry {
    BLANK.(row := Reply("", Pending), key := true, deadline := Some(score), send := Some(Send(kind, Stage)), role := ResponseId)
  }

  lemma RegisteredRuns(start: State, rid: Id, kind: Kind, score: int, luck: Luck)
    requires Enabled(start, Begin(rid, kind)) && Registers(luck)
    ensures var ls := [Begin(rid, kind), Call(rid, RedisSet(luck.setKey)), Call(rid, RedisAdd(score, luck.addDeadline))];
            IsRun(start, ls) && Opened(start, After(start, ls), rid, kind, Standing(kind, score))
  {
    BeginStep(start, rid, kind);
    assert kind.Prompt? ==> kind.uid != rid;
    hide IsRun, After, Opened, Enabled;
    var e := BLANK.(row := Reply("", Pending), send := Some(Send(kind, SetKey)), role := ResponseId);
    var run := [Begin(rid, kind)];
    CallMoves(start, run, rid, kind, e, RedisSet(luck.setKey));
    run := run + [Call(rid, RedisSet(luck.setKey))];
    CallMoves(start, run, rid, kind, AfterCall(e, RedisSet(luck.setKey)), RedisAdd(score, luck.addDeadline));
    assert run + [Call(rid, RedisAdd(score, luck.addDeadline))] ==
           [Begin(rid, kind), Call(rid, RedisSet(luck.setKey)), Call(rid, RedisAdd(score, luck.addDeadline))];
  }

  /** Up to and including the batch. */
  lemma StageRuns(start: State, run: seq<Label>, rid: Id, kind: Kind, score: int, luck: Luck)
    requires IsRun(start, run) && Opened(start, After(start, run), rid, kind, Standing(kind, score))
    requires (kind.Prompt? ==> kind.uid != rid) && (kind.Regeneration? ==> kind.target != Some(rid))
    ensures var ls := run + [StageRequest(rid, luck.stage, luck.deleteOk)];
            && IsRun(start, ls)
            && After(start, ls) == StageStep(After(start, run), rid, luck.stage, luck.deleteOk)
  {
    RunSnoc(start, run, StageRequest(rid, luck.stage, luck.deleteOk));
  }

  lemma StageFinishes(start: State, s: State, t: State, u: State, rid: Id, kind: Kind, score: int, luck: Luck)
    requires Opened(start, s, rid, kind, Standing(kind, score)) && Registers(luck)
    requires (kind.Prompt? ==> kind.uid != rid) && (kind.Regeneration? ==> kind.target != Some(rid))
    requires t == StageStep(s, rid, luck.stage, luck.deleteOk)
    requires if luck.stage.Done? then u == t
             else u.At(rid) == Cleared(t.At(rid), luck.undoKey, luck.undoDeadline).(send := None) && OthersSame(t, u, rid)
    ensures Finished(start, u, rid, kind, score, luck)
  {
    hide StageStep;
    forall k ensures t.At(k) ==
      if k == rid then AfterStage(s.At(rid), luck.stage, luck.deleteOk)
      else if kind.Prompt? && k == kind.uid && !luck.stage.Lost? then s.At(k).(row := Some(Slot(User, kind.text, Sent)))
      else if kind.Regeneration? && kind.target == Some(k) && luck.stage.Done? && luck.deleteOk then RemovedEntry(s.At(k))
      else s.At(k)
    {
      StageAt(s, rid, kind, luck, k);
    }
  }

  lemma SendRuns(start: State, rid: Id, kind: Kind, score: int, luck: Luck)
    requires Enabled(start, Begin(rid, kind)) && (kind.Regeneration? ==> kind.target != Some(rid))
    ensures var ls := SendLabels(rid, kind, score, luck);
            IsRun(start, ls) && Finished(start, After(start, ls), rid, kind, score, luck)
  {
    assert kind.Prompt? ==> kind.uid != rid;
    if !Registers(luck) {
      hide IsRun, After, Enabled, SendLabels;
      RegisterRuns(start, rid, kind, score, luck);
    } else {
      RegisteredRuns(start, rid, kind, score, luck);
      var run := [Begin(rid, kind), Call(rid, RedisSet(luck.setKey)), Call(rid, RedisAdd(score, luck.addDeadline))];
      hide IsRun, After, Enabled, Finished, Opened;
      StageRuns(start, run, rid, kind, score, luck);
      var s := After(start, run);
      var run1 := run + [StageRequest(rid, luck.stage, luck.deleteOk)];
      assert run1 == [Begin(rid, kind), Call(rid, RedisSet(luck.setKey))] + [Call(rid, RedisAdd(score, luck.addDeadline))] +
                     [StageRequest(rid, luck.stage, luck.deleteOk)];
      if luck.stage.Done? {
        StageFinishes(start, s, After(start, run1), After(start, run1), rid, kind, score, luck);
        assert run1 == SendLabels(rid, kind, score, luck);
      } else {
        StagedGivesUp(start, s, rid, kind, score, luck);
        DiscardRuns(start, run1, rid, luck);
        var all := run1 + UndoLabels(rid, luck);
        StageFinishes(start, s, After(start, run1), After(start, all), rid, kind, score, luck);
        assert all == SendLabels(rid, kind, score, luck);
      }
    }
  }

  lemma StagedGivesUp(start: State, s: State, rid: Id, kind: Kind, score: int, luck: Luck)
    requires Opened(start, s, rid, kind, Standing(kind, score)) && !luck.stage.Done?
    requires (kind.Prompt? ==> kind.uid != rid) && (kind.Regeneration? ==> kind.target != Some(rid))
    ensures var e := StageStep(s, rid, luck.stage, luck.deleteOk).At(rid);
            e.send.Some? && e.send.value.pc == UndoKey(false)
  {
    StageAt(s, rid, kind, luck, rid);
  }

  /**
   When a request that ran to its return is left behind without protection: exactly when the batch
   took effect although it was reported as failed, the placeholder could not be removed, and the
   compensation then took the marker's key away.
   */
  lemma StrandedByFailedCleanup(kind: Kind, score: int, luck: Luck)
    ensures ReplyGuarantees.NotStranded(RequestLeft(kind, score, luck)) <==>
              !(Registers(luck) && luck.stage.Applied? && !luck.deleteOk && !luck.undoKey.Lost?)
  {
  }

  // ------------------------------------------------------------------ the same on the stores

  function RegisteredStores(x: Stores, rid: Id, score: int, luck: Luck): Stores {
    var y := if luck.setKey.Lost? then x else x.(keys := x.keys + {rid});
    if luck.setKey.Done? && !luck.addDeadline.Lost? then y.(deadlines := y.deadlines[rid := score]) else y
  }

  function DeletedStores(x: Stores, id: Id, ok: bool): Stores {
    if !ok then x
    else x.(rows := x.rows[id := SoftDeleted(if id in x.rows then Some(x.rows[id]) else None).value])
  }

  function StagedStores(x: Stores, rid: Id, kind: Kind): Stores {
    x.(outbox := x.outbox + {rid},
       rows := if kind.Prompt? then x.rows[kind.uid := Slot(User, kind.text, Sent)]
               else x.rows[rid := Slot(Assistant, "", Pending)])
  }

  function SentStores(x: Stores, rid: Id, kind: Kind, score: int, luck: Luck): Stores {
    var y := RegisteredStores(x.(rows := x.rows[rid := Slot(Assistant, "", Pending)]), rid, score, luck);
    if !Registers(luck) then DeletedStores(ClearedStores(y, rid, luck.undoKey, luck.undoDeadline), rid, luck.deleteOk)
    else
      var z := if luck.stage.Lost? then y else StagedStores(y, rid, kind);
      if !luck.stage.Done? then ClearedStores(DeletedStores(z, rid, luck.deleteOk), rid, luck.undoKey, luck.undoDeadline)
      else if kind.Regeneration? && kind.target.Some? then DeletedStores(z, kind.target.value, luck.deleteOk)
      else z
  }

  /** What a request that is accepted, and one that is refused and cleaned up, leave in the stores. */
  lemma SentResult(x: Stores, rid: Id, kind: Kind, score: int, luck: Luck)
    requires kind.Prompt? ==> kind.uid != rid
    requires kind.Regeneration? ==> kind.target != Some(rid)
    ensures var y := SentStores(x, rid, kind, score, luck);
            luck.setKey == Done && luck.addDeadline == Done && luck.stage == Done ==>
              && y.keys == x.keys + {rid} && y.deadlines == x.deadlines[rid := score]
              && y.inbox == x.inbox && y.outbox == x.outbox + {rid}
              && var begun := x.rows[rid := Slot(Assistant, "", Pending)];
                 y.rows == if kind.Prompt? then begun[kind.uid := Slot(User, kind.text, Sent)]
                           else if kind.target.None? || !luck.deleteOk then begun
                           else begun[kind.target.value := if kind.target.value in x.rows
                                                            then x.rows[kind.target.value].(status := Deleted)
                                                            else Slot(NoSender, "", Deleted)]
    ensures var y := SentStores(x, rid, kind, score, luck);
            !(luck.setKey == Done && luck.addDeadline == Done && luck.stage == Done)
            && luck.undoKey == Done && luck.undoDeadline == Done && luck.deleteOk ==>
              && rid !in y.keys && rid !in y.deadlines && y.inbox == x.inbox
              && rid in y.rows && y.rows[rid].status == Deleted && y.rows[rid].sender == Assistant
              && y.outbox == if luck.setKey == Done && luck.addDeadline == Done && luck.stage == Applied
                             then x.outbox + {rid} else x.outbox
  {
    assert x.rows[rid := Slot(Assistant, "", Pending)][rid := Slot(Assistant, "", Pending)]
        == x.rows[rid := Slot(Assistant, "", Pending)];
  }

  lemma UnregisteredAt(x: Stores, rid: Id, kind: Kind, score: int, luck: Luck)
    requires MirrorsAt(x, BLANK, rid) && !Registers(luck)
    ensures MirrorsAt(SentStores(x, rid, kind, score, luck), RequestLeft(kind, score, luck), rid)
  {
  }

  lemma RegisteredAt(x: Stores, rid: Id, kind: Kind, score: int, luck: Luck)
    requires MirrorsAt(x, BLANK, rid) && Registers(luck)
    requires (kind.Prompt? ==> kind.uid != rid) && (kind.Regeneration? ==> kind.target != Some(rid))
    ensures MirrorsAt(SentStores(x, rid, kind, score, luck), RequestLeft(kind, score, luck), rid)
  {
    hide MirrorsAt, SentStores, RequestLeft, Registers;
    if luck.stage.Done? {
      StagedAt(x, rid, kind, score, luck);
    } else {
      UnstagedAt(x, rid, kind, score, luck);
    }
  }

  lemma StagedAt(x: Stores, rid: Id, kind: Kind, score: int, luck: Luck)
    requires MirrorsAt(x, BLANK, rid) && Registers(luck) && luck.stage.Done?
    requires (kind.Prompt? ==> kind.uid != rid) && (kind.Regeneration? ==> kind.target != Some(rid))
    ensures MirrorsAt(SentStores(x, rid, kind, score, luck), RequestLeft(kind, score, luck), rid)
  {
  }

  lemma UnstagedAt(x: Stores, rid: Id, kind: Kind, score: int, luck: Luck)
    requires MirrorsAt(x, BLANK, rid) && Registers(luck) && !luck.stage.Done?
    requires (kind.Prompt? ==> kind.uid != rid) && (kind.Regeneration? ==> kind.target != Some(rid))
    ensures MirrorsAt(SentStores(x, rid, kind, score, luck), RequestLeft(kind, score, luck), rid)
  {
  }

  lemma SentAtPrompt(x: Stores, rid: Id, kind: Kind, score: int, luck: Luck)
    requires kind.Prompt? && MirrorsAt(x, BLANK, kind.uid) && kind.uid != rid
    ensures MirrorsAt(SentStores(x, rid, kind, score, luck), PromptLeft(kind.text, luck), kind.uid)
  {
  }

  lemma SentAtTarget(x: Stores, e: Entry, rid: Id, kind: Kind, score: int, luck: Luck)
    requires kind.Regeneration? && kind.target.Some? && kind.target.value != rid && MirrorsAt(x, e, kind.target.value)
    ensures MirrorsAt(SentStores(x, rid, kind, score, luck), TargetLeft(e, luck), kind.target.value)
  {
  }

  lemma SentElsewhere(x: Stores, rid: Id, kind: Kind, score: int, luck: Luck, k: Id)
    requires k != rid && (kind.Prompt? ==> k != kind.uid) && (kind.Regeneration? ==> kind.target != Some(k))
    ensures SameAt(x, SentStores(x, rid, kind, score, luck), k)
  {
  }

  /** The ids a request touches. */
  function Touched(rid: Id, kind: Kind): set<Id> {
    match kind
    case Prompt(uid, _) => {rid, uid}
    case Regeneration(target) => if target.Some? then {rid, target.value} else {rid}
  }

  lemma SentMirrors(x: Stores, s: State, t: State, rid: Id, kind: Kind, score: int, luck: Luck)
    requires Mirrors(x, s) && Enabled(s, Begin(rid, kind)) && (kind.Regeneration? ==> kind.target != Some(rid))
    requires Finished(s, t, rid, kind, score, luck)
    ensures Mirrors(SentStores(x, rid, kind, score, luck), t)
  {
    assert MirrorsAt(x, s.At(rid), rid);
    assert kind.Prompt? ==> MirrorsAt(x, s.At(kind.uid), kind.uid);
    assert kind.Regeneration? && kind.target.Some? ==> MirrorsAt(x, s.At(kind.target.value), kind.target.value);
    if Registers(luck) {
      RegisteredAt(x, rid, kind, score, luck);
    } else {
      UnregisteredAt(x, rid, kind, score, luck);
    }
    if kind.Prompt? {
      SentAtPrompt(x, rid, kind, score, luck);
    }
    if kind.Regeneration? && kind.target.Some? {
      SentAtTarget(x, s.At(kind.target.value), rid, kind, score, luck);
    }
    var y := SentStores(x, rid, kind, score, luck);
    hide SentStores, RequestLeft, PromptLeft, TargetLeft, MirrorsAt, SameAt;
    forall k | k !in Touched(rid, kind) ensures SameAt(x, y, k) {
      SentElsewhere(x, rid, kind, score, luck, k);
    }
    MirrorsBut(x, y, s, t, Touched(rid, kind));
  }

  class Service {
    var rows: map<Id, Slot>
    var keys: set<Id>
    var deadlines: map<Id, int>
    var inbox: set<Id>
    var outbox: set<Id>
    ghost var model: State

    constructor ()
      ensures Valid() && model == INIT
    {
      rows, keys, deadlines, inbox, outbox, model := map[], {}, map[], {}, {}, INIT;
    }

    ghost function View(): Stores
      reads this
    {
      Stores(rows, keys, deadlines, inbox, outbox)
    }

    ghost predicate Valid()
      reads this
    {
      Mirrors(View(), model)
    }

    function Row(id: Id): (r: Option<Slot>)
      reads this
      ensures r == if id in rows then Some(rows[id]) else None
    {
      if id in rows then Some(rows[id]) else None
    }

    // ---------------------------------------------------------------- guarded writes

    method CreateMessageDirect(id: Id, content: string, status: Status)
      modifies `rows
      ensures rows == old(rows)[id := Slot(Assistant, content, status)]
    {
      rows := rows[id := Slot(Assistant, content, status)];
    }

    /** `_is_writable_assistant_row` */
    method IsWritable(id: Id) returns (ok: bool)
      ensures ok == (id in rows ==> rows[id].sender == Assistant)
    {
      if id in rows && rows[id].sender != Assistant {
        return false;
      }
      return true;
    }

    /** `finalize_assistant_message`; false if the id belongs to somebody else's message. */
    method FinalizeAssistantMessage(id: Id, content: string) returns (written: bool)
      modifies `rows
      ensures written == (id in old(rows) ==> old(rows)[id].sender == Assistant)
      ensures rows == if written then old(rows)[id := Slot(Assistant, content, Sent)] else old(rows)
    {
      var ok := IsWritable(id);
      if !ok {
        return false;
      }
      CreateMessageDirect(id, content, Sent);
      return true;
    }

    /** `fail_assistant_message`: a stored reply with text in it is left alone. */
    method FailAssistantMessage(id: Id, error: string) returns (written: bool)
      modifies `rows
      ensures written == (id in old(rows) ==> old(rows)[id].sender == Assistant)
      ensures var answered := id in old(rows) && old(rows)[id].status == Sent && old(rows)[id].content != "";
              rows == if written && !answered then old(rows)[id := Slot(Assistant, error, Failed)] else old(rows)
    {
      var ok := IsWritable(id);
      if !ok {
        return false;
      }
      if id in rows && rows[id].status == Sent && rows[id].content != "" {
        return true;
      }
      CreateMessageDirect(id, error, Failed);
      return true;
    }

    /** `repo.delete`, if the database takes it. */
    method SoftDelete(id: Id, ok: bool)
      modifies `rows
      ensures rows == if !ok then old(rows)
                      else old(rows)[id := if id in old(rows) then old(rows)[id].(status := Deleted) else Slot(NoSender, "", Deleted)]
    {
      if ok {
        rows := rows[id := if id in rows then rows[id].(status := Deleted) else Slot(NoSender, "", Deleted)];
      }
    }

    // ---------------------------------------------------------------- send and regenerate

    /** `_register_pending_response`: key, then deadline; a half-registered marker is cleared again. */
    method RegisterPendingResponse(rid: Id, score: int, luck: Luck) returns (ok: bool)
      modifies `keys, `deadlines
      ensures ok == (luck.setKey == Done && luck.addDeadline == Done)
      ensures ok ==> keys == old(keys) + {rid} && deadlines == old(deadlines)[rid := score]
      ensures !ok ==> keys == if luck.undoKey != Lost then old(keys) - {rid}
                              else if luck.setKey != Lost then old(keys) + {rid} else old(keys)
      ensures !ok ==>
        var added := luck.setKey == Done && luck.addDeadline != Lost;
        deadlines == if luck.undoKey == Done && luck.undoDeadline != Lost then old(deadlines) - {rid}
                     else if added then old(deadlines)[rid := score] else old(deadlines)
      ensures var y := RegisteredStores(old(View()), rid, score, luck);
              View() == if ok then y else ClearedStores(y, rid, luck.undoKey, luck.undoDeadline)
    {
      if !luck.setKey.Lost? {
        keys := keys + {rid};
      }
      if luck.setKey.Done? && !luck.addDeadline.Lost? {
        deadlines := deadlines[rid := score];
      }
      if !luck.setKey.Done? || !luck.addDeadline.Done? {
        ClearPendingResponse(rid, luck.undoKey, luck.undoDeadline);
        return false;
      }
      return true;
    }

    /** `create_with_outbox`: one batch with the event and the prompt, or the regenerated reply's row. */
    method CreateWithOutbox(rid: Id, kind: Kind, io: Io) returns (ok: bool)
      modifies `rows, `outbox
      ensures ok == (io == Done)
      ensures io == Lost ==> rows == old(rows) && outbox == old(outbox)
      ensures io != Lost ==>
        && outbox == old(outbox) + {rid}
        && rows == if kind.Prompt? then old(rows)[kind.uid := Slot(User, kind.text, Sent)]
                   else old(rows)[rid := Slot(Assistant, "", Pending)]
      ensures View() == if io.Lost? then old(View()) else StagedStores(old(View()), rid, kind)
    {
      if !io.Lost? {
        if kind.Prompt? {
          rows := rows[kind.uid := Slot(User, kind.text, Sent)];
        } else {
          rows := rows[rid := Slot(Assistant, "", Pending)];
        }
        outbox := outbox + {rid};
      }
      return io.Done?;
    }

    /**
     `send` and `regenerate` after the response id is allocated: placeholder, marker, batch, and the
     compensation for whatever of it failed. True if the request was accepted.
     */
    method SendRequest(rid: Id, kind: Kind, score: int, luck: Luck) returns (ok: bool)
      requires Valid() && Enabled(model, Begin(rid, kind)) && (kind.Regeneration? ==> kind.target != Some(rid))
      modifies this
      ensures Valid() && ok == (Registers(luck) && luck.stage.Done?)
      ensures var ls := SendLabels(rid, kind, score, luck);
              IsRun(old(model), ls) && model == After(old(model), ls)
      ensures ok == (luck.setKey == Done && luck.addDeadline == Done && luck.stage == Done)
      ensures ok ==>
        && keys == old(keys) + {rid} && deadlines == old(deadlines)[rid := score]
        && inbox == old(inbox) && outbox == old(outbox) + {rid}
        && var begun := old(rows)[rid := Slot(Assistant, "", Pending)];
           rows == if kind.Prompt? then begun[kind.uid := Slot(User, kind.text, Sent)]
                   else if kind.target.None? || !luck.deleteOk then begun
                   else begun[kind.target.value := if kind.target.value in old(rows)
                                                    then old(rows)[kind.target.value].(status := Deleted)
                                                    else Slot(NoSender, "", Deleted)]
      ensures !ok && luck.undoKey == Done && luck.undoDeadline == Done && luck.deleteOk ==>
        && rid !in keys && rid !in deadlines && inbox == old(inbox)
        && rid in rows && rows[rid].status == Deleted && rows[rid].sender == Assistant
        && outbox == if luck.setKey == Done && luck.addDeadline == Done && luck.stage == Applied then old(outbox) + {rid} else old(outbox)
    {
      SentResult(View(), rid, kind, score, luck);
      hide IsRun, After, Enabled, Mirrors, Finished, SentStores;
      ghost var before, start := View(), model;
      SendRuns(start, rid, kind, score, luck);
      SentMirrors(before, start, After(start, SendLabels(rid, kind, score, luck)), rid, kind, score, luck);
      ok := PerformRequest(rid, kind, score, luck);
      model := After(start, SendLabels(rid, kind, score, luck));
    }

    method PerformRequest(rid: Id, kind: Kind, score: int, luck: Luck) returns (ok: bool)
      modifies `rows, `keys, `deadlines, `outbox
      ensures View() == SentStores(old(View()), rid, kind, score, luck)
      ensures ok == (Registers(luck) && luck.stage.Done?)
    {
      // _open_pending_response
      CreateMessageDirect(rid, "", Pending);
      var registered := RegisterPendingResponse(rid, score, luck);
      if !registered {
        SoftDelete(rid, luck.deleteOk);
        return false;
      }
      var staged := CreateWithOutbox(rid, kind, luck.stage);
      if !staged {
        // _discard_pending_response
        SoftDelete(rid, luck.deleteOk);
        ClearPendingResponse(rid, luck.undoKey, luck.undoDeadline);
        return false;
      }
      if kind.Regeneration? && kind.target.Some? {
        SoftDelete(kind.target.value, luck.deleteOk);
      }
      return true;
    }

    // ---------------------------------------------------------------- chat.response.generated

    /** `clear_pending_response`: two calls, the second only if the first succeeded; failures are swallowed. */
    method ClearPendingResponse(rid: Id, keyIo: Io, deadlineIo: Io)
      modifies `keys, `deadlines
      ensures keys == if keyIo.Lost? then old(keys) else old(keys) - {rid}
      ensures deadlines == if keyIo.Done? && !deadlineIo.Lost? then old(deadlines) - {rid} else old(deadlines)
    {
      if !keyIo.Lost? {
        keys := keys - {rid};
      }
      if !keyIo.Done? {
        return;
      }
      if !deadlineIo.Lost? {
        deadlines := deadlines - {rid};
      }
    }

    /**
     One delivery of a final event: dedup by the inbox, the guarded write, the marker's removal,
     then the inbox. An event that is refused or a duplicate changes nothing.
     */
    method HandleResponseGenerated(rid: Id, success: bool, text: string, keyIo: Io, deadlineIo: Io, ghost pid: nat)
      requires Valid() && Enabled(model, Deliver(pid, rid, success, text))
      modifies this
      ensures Valid()
      ensures if old(rid in inbox || !Writable(Row(rid))) then View() == old(View()) && model == old(model)
              else
                var ls := HandlerLabels(pid, rid, success, text, keyIo, deadlineIo);
                IsRun(old(model), ls) && model == After(old(model), ls)
      ensures outbox == old(outbox)
      ensures rid !in old(inbox) && (rid in old(rows) ==> old(rows)[rid].sender == Assistant) ==>
        && inbox == old(inbox) + {rid}
        && keys == (if keyIo == Lost then old(keys) else old(keys) - {rid})
        && deadlines == (if keyIo == Done && deadlineIo != Lost then old(deadlines) - {rid} else old(deadlines))
        && var answered := rid in old(rows) && old(rows)[rid].status == Sent && old(rows)[rid].content != "";
           rows == if success then old(rows)[rid := Slot(Assistant, text, Sent)]
                   else if answered then old(rows)
                   else old(rows)[rid := Slot(Assistant, text, Failed)]
    {
      ghost var before, start := View(), model;
      assert MirrorsAt(before, model.At(rid), rid);
      hide Step, Enabled, IsRun, After, Mirrors, HandledStores, HandlerLabels;
      var handled := HandleEvent(rid, success, text, keyIo, deadlineIo);
      if handled {
        HandledRuns(before, start, pid, rid, success, text, keyIo, deadlineIo);
        model := After(start, HandlerLabels(pid, rid, success, text, keyIo, deadlineIo));
      }
    }

    /** The same as far as the stores go; false if the event is a duplicate or refused. */
    method HandleEvent(rid: Id, success: bool, text: string, keyIo: Io, deadlineIo: Io) returns (handled: bool)
      modifies `rows, `keys, `deadlines, `inbox
      ensures handled == (rid !in old(inbox) && (rid in old(rows) ==> old(rows)[rid].sender == Assistant))
      ensures View() == if handled then HandledStores(old(View()), rid, success, text, keyIo, deadlineIo) else old(View())
      ensures handled ==>
        && inbox == old(inbox) + {rid}
        && keys == (if keyIo == Lost then old(keys) else old(keys) - {rid})
        && deadlines == (if keyIo == Done && deadlineIo != Lost then old(deadlines) - {rid} else old(deadlines))
        && var answered := rid in old(rows) && old(rows)[rid].status == Sent && old(rows)[rid].content != "";
           rows == if success then old(rows)[rid := Slot(Assistant, text, Sent)]
                   else if answered then old(rows)
                   else old(rows)[rid := Slot(Assistant, text, Failed)]
    {
      if rid in inbox {
        return false;
      }
      var written;
      if success {
        written := FinalizeAssistantMessage(rid, text);
      } else {
        written := FailAssistantMessage(rid, text);
      }
      if !written {
        return false;
      }
      ClearPendingResponse(rid, keyIo, deadlineIo);
      inbox := inbox + {rid};
      return true;
    }

    // ---------------------------------------------------------------- the timeout pass

    /** The body of the loop of `process_expired_pending`; true if the message was failed and its marker cleared. */
    method ProcessEntry(id: Id, fate: Fate) returns (counted: bool)
      modifies `rows, `keys, `deadlines
      ensures View() == SweptStores(old(View()), id, fate)
      ensures EntryProcessed(old(View()), View(), id, fate, counted)
    {
      counted := false;
      if fate.probeFails {
        return;
      }
      if id !in keys {
        if !fate.deadlineIo.Lost? {
          deadlines := deadlines - {id};
        }
        return;
      }
      if id in rows && rows[id].sender == Assistant && rows[id].status == Sent {
        ClearPendingResponse(id, fate.keyIo, fate.deadlineIo);
        return;
      }
      CreateMessageDirect(id, TIMEOUT_MESSAGE, Failed);
      if fate.publishFails {
        return;
      }
      ClearPendingResponse(id, fate.keyIo, fate.deadlineIo);
      counted := fate.keyIo.Done? && fate.deadlineIo.Done?;
    }

    /** `process_expired_pending`: a scan and its entries; how many messages were failed. */
    method ProcessExpiredPending(now: int, expired: seq<Id>, fates: seq<Fate>, ghost pid: nat)
      returns (failed: nat, ghost run: seq<Label>)
      requires Valid() && |fates| == |expired| && Enabled(model, Scan(pid, now, expired))
      requires forall i, j :: 0 <= i < j < |expired| ==> expired[i] != expired[j]
      modifies this
      ensures Valid() && IsRun(old(model), run) && model == After(old(model), run)
      ensures run != [] && run[0] == Scan(pid, now, expired)
      ensures pid in model.procs && model.procs[pid].Sweep? && model.procs[pid].todo == []
      ensures failed == CountedIn(old(model), expired, fates)
      ensures inbox == old(inbox) && outbox == old(outbox)
      ensures forall id :: id !in expired ==> SameAt(old(View()), View(), id)
      ensures forall i :: 0 <= i < |expired| && fates[i] == Fate(false, false, Done, Done) ==>
        IsExpired(old(View()), View(), expired[i])
    {
      hide Step, Enabled, IsRun, After;
      ghost var start := model;
      failed := 0;
      run := [Scan(pid, now, expired)];
      ScanStep(start, pid, now, expired);
      model := After(start, run);
      MirrorsBut(View(), View(), start, model, {});
      ghost var first := View();
      hide Mirrors, SweptStores, MirrorsAt, SameAt, IsExpired, EntryProcessed, Swept, SweepLabels;
      for i := 0 to |expired|
        invariant Valid() && IsRun(start, run) && model == After(start, run)
        invariant run != [] && run[0] == Scan(pid, now, expired)
        invariant pid in model.procs && model.procs[pid].Sweep? && model.procs[pid].spc == Next
        invariant model.procs[pid].todo == expired[i..]
        invariant forall j :: i <= j < |expired| ==> model.At(expired[j]) == start.At(expired[j])
        invariant failed == CountedIn(start, expired[..i], fates[..i])
        invariant inbox == old(inbox) && outbox == old(outbox)
        invariant forall id :: id !in expired[..i] ==> SameAt(first, View(), id)
        invariant forall j :: 0 <= j < i && fates[j] == Fate(false, false, Done, Done) ==> IsExpired(first, View(), expired[j])
      {
        ghost var ls := SweepLabels(pid, model.At(expired[i]), fates[i]);
        ghost var s := model;
        ghost var before := View();
        SweepRuns(s, pid, fates[i]);
        var counted := ProcessEntry(expired[i], fates[i]);
        model := After(s, ls);
        SweptMirrors(before, s, model, expired[i], fates[i]);
        RunConcat(start, run, ls);
        run := run + ls;
        CountedStep(start, expired, fates, i);
        EntryDone(first, before, expired, fates, i);
        if counted {
          failed := failed + 1;
        }
      }
      assert expired[..|expired|] == expired && fates[..|fates|] == fates;
    }
  }

  /** What has been settled stays so, and what is still to come is as it was. */
  lemma EntryDone(first: Stores, x: Stores, expired: seq<Id>, fates: seq<Fate>, i: nat)
    requires i < |fates| == |expired| && forall j, k :: 0 <= j < k < |expired| ==> expired[j] != expired[k]
    requires forall id :: id !in expired[..i] ==> SameAt(first, x, id)
    requires forall j :: 0 <= j < i && fates[j] == Fate(false, false, Done, Done) ==> IsExpired(first, x, expired[j])
    ensures var y := SweptStores(x, expired[i], fates[i]);
            && (forall id :: id !in expired[..i + 1] ==> SameAt(first, y, id))
            && (forall j :: 0 <= j < i + 1 && fates[j] == Fate(false, false, Done, Done) ==> IsExpired(first, y, expired[j]))
            && y.inbox == x.inbox && y.outbox == x.outbox
  {
    var y := SweptStores(x, expired[i], fates[i]);
    assert y.inbox == x.inbox && y.outbox == x.outbox;
    assert expired[..i + 1] == expired[..i] + [expired[i]];
    hide SweptStores, SameAt, IsExpired;
    forall id | id !in expired[..i + 1] ensures SameAt(first, y, id) {
      SweptSame(x, expired[i], fates[i], id);
      SameStill(first, x, y, id);
    }
    forall j | 0 <= j < i + 1 && fates[j] == Fate(false, false, Done, Done) ensures IsExpired(first, y, expired[j]) {
      if j < i {
        SweptLater(first, x, expired[i], fates[i], expired[j]);
      } else {
        assert expired[i] !in expired[..i];
        SweptNow(first, x, expired[i]);
      }
    }
  }

  /** The entry adds to the number of failed messages. */
  predicate Counted(e: Entry, fate: Fate) {
    !fate.probeFails && e.key && TimesOut(e) && !fate.publishFails && fate.keyIo.Done? && fate.deadlineIo.Done?
  }

  function CountedIn(s: State, expired: seq<Id>, fates: seq<Fate>): nat
    requires |fates| == |expired|
  {
    if expired == [] then 0
    else
      var n := |expired| - 1;
      CountedIn(s, expired[..n], fates[..n]) + (if Counted(s.At(expired[n]), fates[n]) then 1 else 0)
  }

  lemma CountedStep(s: State, expired: seq<Id>, fates: seq<Fate>, i: nat)
    requires i < |fates| == |expired|
    ensures CountedIn(s, expired[..i + 1], fates[..i + 1]) ==
              CountedIn(s, expired[..i], fates[..i]) + (if Counted(s.At(expired[i]), fates[i]) then 1 else 0)
  {
    assert expired[..i + 1][..i] == expired[..i] && fates[..i + 1][..i] == fates[..i];
  }

  lemma HandlerMoves(start: State, run: seq<Label>, s: State, pid: nat, c: ProcCall)
    requires IsRun(start, run) && s == After(start, run) && pid in s.procs && ProcAwaits(s.procs[pid], c) && s.procs[pid].Handler?
    ensures Enabled(s, Move(pid, c)) && IsRun(start, run + [Move(pid, c)]) && After(start, run + [Move(pid, c)]) == Step(s, Move(pid, c))
    ensures var t := Step(s, Move(pid, c));
            var rid := s.procs[pid].rid;
            && t.At(rid) == AfterMove(s.At(rid), s.procs[pid], c)
            && (forall k :: k != rid ==> t.At(k) == s.At(k))
            && (!c.HandlerSave? ==> pid in t.procs && t.procs[pid] == ProcAfter(s.At(rid), s.procs[pid], c).value)
  {
    RunSnoc(start, run, Move(pid, c));
    MoveStep(s, pid, c);
  }
}
