/**
 The methods of the artifact service (app/artifacts/service.py) on the row and the stored video, as
 they run when nobody else is in between. Every await is matched by a step of `ArtifactLifecycle`;
 the steps taken so far are kept, so what is proved about all runs is about this code.
 */
module ArtifactService {
  import opened ArtifactGuarantees
  import opened ArtifactLifecycle
  import opened ArtifactRounds
  import opened Mp4Boxes
  import opened Wrappers

  datatype Adoption = Adopted(row: Row) | Nothing | Broke(ending: Ending)

  // ------------------------------------------------------------------ what a round amounts to

  function Broken(r: Round, a: Await): Call {
    DoError(a !in r.lost, a in r.cancelled)
  }

  /** The call a worker makes, or the exception it gets instead. */
  function NextCall(pc: Pc, r: Round): Call
    requires !pc.Finish?
  {
    match pc
    case Stat => if r.Breaks(AtStat) then Broken(r, AtStat) else DoStat
    case Fetch => if r.Breaks(AtFetch) then Broken(r, AtFetch) else DoFetch
    case Discard => if r.Breaks(AtDiscard) then Broken(r, AtDiscard) else DoDiscard
    case Adopt(_) => if r.Breaks(AtAdopt) then Broken(r, AtAdopt) else DoAdopt
    case Submit => if r.Breaks(AtSubmit) then Broken(r, AtSubmit) else DoSubmit(r.submit)
    case Enqueue(_) => if r.Breaks(AtEnqueue) then Broken(r, AtEnqueue) else DoEnqueue
    case GiveUp => if r.Breaks(AtGiveUp) then Broken(r, AtGiveUp) else DoGiveUp
    case Poll => if r.Breaks(AtPoll) then Broken(r, AtPoll) else DoPoll(r.job)
    case Move(_, _) => if r.Breaks(AtMove) then Broken(r, AtMove) else DoMove
    case Download => if r.Breaks(AtDownload) then Broken(r, AtDownload) else DoDownload(r.fetched)
    case Store(_) => if r.Breaks(AtStore) then Broken(r, AtStore) else DoStore
    case Confirm(_) => if r.Breaks(AtConfirm) then Broken(r, AtConfirm) else DoConfirm
    case Publish(_) => if r.Breaks(AtPublish) then Broken(r, AtPublish) else DoPublish
  }

  /** How far the worker is from the end of its round. */
  function Distance(pc: Pc): nat {
    match pc
    case Stat => 9
    case Fetch => 8
    case Discard => 7
    case Adopt(_) => 7
    case Submit => 6
    case Poll => 6
    case Download => 6
    case Store(_) => 5
    case Confirm(_) => 4
    case Publish(_) => 3
    case Enqueue(_) => 2
    case Move(_, _) => 2
    case GiveUp => 1
    case Finish(_) => 0
  }

  ghost function WorldAfter(x: World, w: Worker, c: Call): World
    requires Awaits(w.pc, c)
  {
    World(RowAfter(x, w, c), ObjectAfter(x, w, c))
  }

  predicate RoundOver(w: Worker, w': Worker) {
    w'.pc.Finish? || w'.round != w.round
  }

  lemma CallGetsCloser(x: World, w: Worker, c: Call)
    requires Awaits(w.pc, c) && !c.DoFinish?
    ensures var w' := WorkerAfter(x, w, c);
            if RoundOver(w, w') then w'.pc.Finish? || w'.round == w.round + 1 < MAX_ROUNDS else Distance(w'.pc) < Distance(w.pc)
  {
  }

  /** The steps a worker takes, and what they leave. */
  datatype Trace = Trace(labels: seq<Label>, world: World, worker: Worker)

  /** From where the worker is to the end of its round, when nobody else is in between. */
  ghost function RoundTrace(pid: nat, x: World, w: Worker, r: Round): (t: Trace)
    requires !w.pc.Finish?
    ensures t.worker.pc.Finish? || t.worker.round == w.round + 1 < MAX_ROUNDS
    decreases Distance(w.pc)
  {
    var c := NextCall(w.pc, r);
    CallGetsCloser(x, w, c);
    var w' := WorkerAfter(x, w, c);
    if RoundOver(w, w') then Trace([Work(pid, c)], WorldAfter(x, w, c), w')
    else
      var t := RoundTrace(pid, WorldAfter(x, w, c), w', r);
      Trace([Work(pid, c)] + t.labels, t.world, t.worker)
  }

  /** Round after round, until the worker has only its lease to give back. */
  ghost function AdvanceTrace(pid: nat, x: World, w: Worker, rounds: seq<Round>): Trace
    requires |rounds| == MAX_ROUNDS && w.round < MAX_ROUNDS
    decreases MAX_ROUNDS - w.round
  {
    if w.pc.Finish? then Trace([], x, w)
    else
      var t := RoundTrace(pid, x, w, rounds[w.round]);
      if t.worker.pc.Finish? then t
      else
        var u := AdvanceTrace(pid, t.world, t.worker, rounds);
        Trace(t.labels + u.labels, u.world, u.worker)
  }

  /** The trace begins with what the worker does next. */
  lemma RoundGoesOn(pid: nat, x: World, w: Worker, r: Round, before: seq<Label>)
    requires !w.pc.Finish?
    ensures var c := NextCall(w.pc, r);
            var x', w' := WorldAfter(x, w, c), WorkerAfter(x, w, c);
            var t := RoundTrace(pid, x, w, r);
            if RoundOver(w, w') then t == Trace([Work(pid, c)], x', w')
            else
              !w'.pc.Finish? &&
              var u := RoundTrace(pid, x', w', r);
              t.world == u.world && t.worker == u.worker && before + t.labels == before + [Work(pid, c)] + u.labels
  {
    var c := NextCall(w.pc, r);
    hide WorkerAfter, RowAfter, ObjectAfter, NextCall;
    if !RoundOver(w, WorkerAfter(x, w, c)) {
      var u := RoundTrace(pid, WorldAfter(x, w, c), WorkerAfter(x, w, c), r);
      assert before + ([Work(pid, c)] + u.labels) == before + [Work(pid, c)] + u.labels;
    }
  }

  /** A worker whose round is decided by the row it got. */
  predicate Decided(w: Worker, w': Worker, e: Ending) {
    match e
    case WithRow(row) => w' == NextRound(w, row)
    case WithNone => w'.pc == Finish(false)
    case Raised => w'.pc == Finish(true)
    case Cancelled => w'.pc == Finish(false)
  }

  /** What `_adopt_existing_object` comes to. */
  ghost function AdoptionOf(x: World, r: Round): Adoption {
    if r.Breaks(AtStat) then Broke(r.Interrupted(AtStat))
    else if x.stored.None? then Nothing
    else if r.Breaks(AtFetch) then Broke(r.Interrupted(AtFetch))
    else if !Valid(x.stored.value) then (if r.Breaks(AtDiscard) then Broke(r.Interrupted(AtDiscard)) else Nothing)
    else if r.Breaks(AtAdopt) then Broke(r.Interrupted(AtAdopt))
    else if x.row.status in ACTIVE then Adopted(MadeReady(x.row, x.stored.value))
    else Nothing
  }

  lemma AdvanceGoesOn(pid: nat, x: World, w: Worker, rounds: seq<Round>, before: seq<Label>)
    requires |rounds| == MAX_ROUNDS && w.round < MAX_ROUNDS && !w.pc.Finish?
    ensures var t := RoundTrace(pid, x, w, rounds[w.round]);
            var a := AdvanceTrace(pid, x, w, rounds);
            if t.worker.pc.Finish? then a == t
            else
              var u := AdvanceTrace(pid, t.world, t.worker, rounds);
              a.world == u.world && a.worker == u.worker && before + a.labels == before + t.labels + u.labels
  {
    var t := RoundTrace(pid, x, w, rounds[w.round]);
    hide RoundTrace;
    if !t.worker.pc.Finish? {
      var u := AdvanceTrace(pid, t.world, t.worker, rounds);
      assert before + (t.labels + u.labels) == before + t.labels + u.labels;
    }
  }

  /**
   How `advance` ends. After an exception it keeps the lease for a pause; without one, or if that write breaks, it
   releases the lease, and if that breaks without effect the lease stays as it is, like after a crash.
   */
  function LastSteps(pid: nat, pause: bool, backoff: Io, release: Io, later: int): seq<Label> {
    var released := if release.Lost? then Crash(pid) else Work(pid, DoFinish(later));
    if !pause then [Tick(later), released]
    else if backoff.Done? then [Tick(later), Work(pid, DoFinish(later))]
    else [Tick(later), Work(pid, DoPauseError(later, backoff.Applied?)), released]
  }

  class Service {
    var row: Row
    var stored: Option<seq<Byte>>
    var now: int
    ghost const start: State
    ghost var log: seq<Label>
    ghost var model: State

    constructor (id: nat, time: int)
      ensures Valid() && start == Fresh(id, time) && log == []
    {
      row, stored, now, start, log, model := Registered(id), None, time, Fresh(id, time), [], Fresh(id, time);
    }

    ghost predicate Valid()
      reads this
    {
      IsRun(start, log) && Final(start, log) == model && model.world == World(row, stored) && model.now == now
    }

    /** The worker is at an await, with this row in hand. */
    ghost predicate At(pid: nat, snapshot: Row)
      reads this
    {
      Valid() && pid in model.workers && model.workers[pid].row == snapshot
    }

    /** What the worker would do up to the end of its round, from where it is. */
    ghost function Ahead(r: Round, pid: nat): Trace
      requires pid in model.workers && !model.workers[pid].pc.Finish?
      reads this
    {
      RoundTrace(pid, model.world, model.workers[pid], r)
    }

    ghost function Now(): World
      reads this
    {
      World(row, stored)
    }

    /** Exactly these steps have been taken. */
    ghost predicate Performed(before: seq<Label>, t: Trace, pid: nat)
      reads this
    {
      && Valid() && pid in model.workers
      && log == before + t.labels && model.world == t.world && model.workers[pid] == t.worker
    }

    /** A beginning of these steps has been taken, and the rest is ahead. */
    ghost predicate Underway(before: seq<Label>, t: Trace, r: Round, pid: nat)
      reads this
    {
      && Valid() && pid in model.workers && !model.workers[pid].pc.Finish?
      && var u := Ahead(r, pid);
         t.world == u.world && t.worker == u.worker && before + t.labels == log + u.labels
    }

    /** One await has been done on the fields: the protocol takes the same step. */
    ghost method Did(pid: nat, r: Round, was: World)
      requires IsRun(start, log) && Final(start, log) == model && model.world == was && model.now == now
      requires pid in model.workers && !model.workers[pid].pc.Finish?
      requires var w := model.workers[pid];
               World(row, stored) == WorldAfter(was, w, NextCall(w.pc, r))
      modifies `log, `model
      ensures Valid() && pid in model.workers
      ensures var w := old(model).workers[pid];
              model.workers[pid] == WorkerAfter(was, w, NextCall(w.pc, r))
      ensures if RoundOver(old(model).workers[pid], model.workers[pid]) then Performed(old(log), old(Ahead(r, pid)), pid)
              else Underway(old(log), old(Ahead(r, pid)), r, pid)
    {
      hide IsRun, Final, WorkerAfter, RowAfter, ObjectAfter, RoundTrace;
      var w := model.workers[pid];
      var l := Work(pid, NextCall(w.pc, r));
      assert Enabled(model, l);
      RunSnoc(start, log, l);
      RoundGoesOn(pid, was, w, r, log);
      hide NextCall;
      log := log + [l];
      model := Step(model, l);
    }

    /** Time passes. */
    method Wait(later: int)
      requires Valid() && now <= later
      modifies `now, `log, `model
      ensures Valid() && now == later && log == old(log) + [Tick(later)] && model.workers == old(model).workers
    {
      RunSnoc(start, log, Tick(later));
      log := log + [Tick(later)];
      model := Step(model, Tick(later));
      now := later;
    }

    // ---------------------------------------------------------------- updates of the row

    /** `_cas` */
    method CasRow(allowed: set<Status>, changed: Row) returns (updated: Option<Row>)
      modifies `row
      ensures row == if old(row).status in allowed then changed else old(row)
      ensures updated == if old(row).status in allowed then Some(row) else None
    {
      if row.status !in allowed {
        return None;
      }
      row := changed;
      return Some(row);
    }

    /** `retry`, in one go: only a failed artifact moves, and only so often. */
    method Retry(ghost rid: nat) returns (moved: bool)
      requires Valid() && rid !in model.retrying
      modifies `row, `log, `model
      ensures Valid()
      ensures moved == (old(row).status.Failed? && old(row).retries < MAX_MANUAL)
      ensures row == if moved then old(row).(status := Pending, attempts := 0, retries := old(row).retries + 1, job := None, lease := None)
                     else old(row)
      ensures log == if moved then old(log) + [RetryRead(rid), RetryCas(rid)] else old(log)
    {
      if !row.status.Failed? || row.retries >= MAX_MANUAL {
        return false;
      }
      RunSnoc(start, log, RetryRead(rid));
      ghost var read := Step(model, RetryRead(rid));
      RunSnoc(start, log + [RetryRead(rid)], RetryCas(rid));
      assert log + [RetryRead(rid)] + [RetryCas(rid)] == log + [RetryRead(rid), RetryCas(rid)];
      log := log + [RetryRead(rid), RetryCas(rid)];
      var updated := CasRow({Status.Failed}, MadeRetried(row, row.retries + 1));
      model := Step(read, RetryCas(rid));
      return updated.Some?;
    }

    /** `mark_object_missing` */
    method MarkObjectMissing()
      requires Valid()
      modifies `row, `log, `model
      ensures Valid() && log == old(log) + [ReportMissing]
      ensures row == if old(row).status != Ready then old(row)
                     else old(row).(status := Pending, objectKey := None, size := None, checksum := None, mime := None, job := None,
                                    attempts := 0, lease := None)
    {
      RunSnoc(start, log, ReportMissing);
      log := log + [ReportMissing];
      model := Step(model, ReportMissing);
      var updated := CasRow({Ready}, MadeMissing(row));
    }

    /** `_claim` */
    method ClaimRow(ghost pid: nat) returns (snapshot: Option<Row>)
      requires Valid() && pid !in model.workers
      modifies `row, `log, `model
      ensures Valid()
      ensures if old(row).status in ACTIVE && Lapsed(old(row), now) then
                && row == old(row).(lease := Some(now + LEASE_SECONDS)) && snapshot == Some(row)
                && log == old(log) + [Claim(pid, now)]
                && pid in model.workers && model.workers[pid] == Enter(row, 0)
              else row == old(row) && snapshot == None && log == old(log) && model == old(model)
    {
      if row.status !in ACTIVE || (row.lease.Some? && row.lease.value >= now) {
        return None;
      }
      RunSnoc(start, log, Claim(pid, now));
      log := log + [Claim(pid, now)];
      model := Step(model, Claim(pid, now));
      row := row.(lease := Some(now + LEASE_SECONDS));
      return Some(row);
    }

    // ---------------------------------------------------------------- one round

    /** `_adopt_existing_object`: a valid video under the key makes the artifact ready; an invalid one is deleted. */
    method AdoptExistingObject(snapshot: Row, r: Round, ghost pid: nat) returns (a: Adoption)
      requires At(pid, snapshot) && model.workers[pid].pc.Stat?
      modifies `row, `stored, `log, `model
      ensures a == AdoptionOf(old(model).world, r)
      ensures if a.Nothing? then Underway(old(log), old(Ahead(r, pid)), r, pid) else Performed(old(log), old(Ahead(r, pid)), pid)
      ensures var w := old(model).workers[pid];
              match a
              case Adopted(row') => model.workers[pid] == NextRound(w, row')
              case Nothing => model.workers[pid] == NothingToAdopt(w)
              case Broke(e) => (e.Raised? || e.Cancelled?) && model.workers[pid] == w.(pc := Finish(e.Raised?))
      ensures old(row).status in ACTIVE ==>
        match a
        case Nothing => row == old(row) && AdoptOf(old(Now()), r) == GoOn(Now(), r)
        case Adopted(q) => AdoptOf(old(Now()), r) == Stepped(Now(), WithRow(q))
        case Broke(e) => AdoptOf(old(Now()), r) == Stepped(Now(), e)
    {
      hide IsRun, Final, RoundTrace;
      Did(pid, r, World(row, stored));
      if r.Breaks(AtStat) {
        return Broke(r.Interrupted(AtStat));
      }
      if stored.None? {
        return Nothing;
      }
      Did(pid, r, World(row, stored));
      if r.Breaks(AtFetch) {
        return Broke(r.Interrupted(AtFetch));
      }
      a := Judge(stored.value, r, pid);
    }

    /** A fetched leftover is adopted if it is a valid video, else deleted. */
    method Judge(video: seq<Byte>, r: Round, ghost pid: nat) returns (a: Adoption)
      requires Valid() && pid in model.workers && stored == Some(video)
      requires model.workers[pid].pc == if ArtifactLifecycle.Valid(video) then Adopt(video) else Discard
      modifies `row, `stored, `log, `model
      ensures a == if r.Breaks(AtDiscard) && !ArtifactLifecycle.Valid(video) then Broke(r.Interrupted(AtDiscard))
                   else if r.Breaks(AtAdopt) && ArtifactLifecycle.Valid(video) then Broke(r.Interrupted(AtAdopt))
                   else if ArtifactLifecycle.Valid(video) && old(row).status in ACTIVE then Adopted(MadeReady(old(row), video))
                   else Nothing
      ensures if a.Nothing? then Underway(old(log), old(Ahead(r, pid)), r, pid) else Performed(old(log), old(Ahead(r, pid)), pid)
      ensures var w := old(model).workers[pid];
              match a
              case Adopted(row') => model.workers[pid] == NextRound(w, row')
              case Nothing => model.workers[pid] == NothingToAdopt(w)
              case Broke(e) => (e.Raised? || e.Cancelled?) && model.workers[pid] == w.(pc := Finish(e.Raised?))
      ensures old(row).status in ACTIVE && !r.Breaks(AtStat) && !r.Breaks(AtFetch) ==>
        match a
        case Nothing => row == old(row) && AdoptOf(old(Now()), r) == GoOn(Now(), r)
        case Adopted(q) => AdoptOf(old(Now()), r) == Stepped(Now(), WithRow(q))
        case Broke(e) => AdoptOf(old(Now()), r) == Stepped(Now(), e)
    {
      hide IsRun, Final, RoundTrace;
      var info := ValidateMp4(video, MAX_VIDEO);
      ghost var was := World(row, stored);
      if info.None? {
        if AtDiscard !in r.lost {
          stored := None;
        }
        Did(pid, r, was);
        return if r.Breaks(AtDiscard) then Broke(r.Interrupted(AtDiscard)) else Nothing;
      }
      var updated: Option<Row> := None;
      if AtAdopt !in r.lost {
        updated := CasRow(ACTIVE, MadeReady(row, video));
      }
      Did(pid, r, was);
      return if r.Breaks(AtAdopt) then Broke(r.Interrupted(AtAdopt)) else if updated.Some? then Adopted(updated.value) else Nothing;
    }

    /** `_fail` */
    method Fail(r: Round, ghost pid: nat) returns (e: Ending)
      requires Valid() && pid in model.workers && model.workers[pid].pc.GiveUp?
      modifies `row, `stored, `log, `model
      ensures Performed(old(log), old(Ahead(r, pid)), pid)
      ensures !e.WithRow? && Decided(old(model).workers[pid], model.workers[pid], e)
      ensures old(row).status in ACTIVE ==> Stepped(Now(), e) == WithFailed(old(Now()), r)
    {
      ghost var was := World(row, stored);
      if AtGiveUp !in r.lost {
        var updated := CasRow(ACTIVE, MadeFailed(row));
      }
      Did(pid, r, was);
      return if r.Breaks(AtGiveUp) then r.Interrupted(AtGiveUp) else WithNone;
    }

    /** A compare-and-set that ends the round. */
    method Moved(to: Status, allowed: set<Status>, r: Round, ghost pid: nat) returns (e: Ending)
      requires Valid() && pid in model.workers && model.workers[pid].pc == Move(to, allowed)
      modifies `row, `stored, `log, `model
      ensures Performed(old(log), old(Ahead(r, pid)), pid)
      ensures Decided(old(model).workers[pid], model.workers[pid], e)
      ensures old(row).status in allowed ==> Stepped(Now(), e) == WithStatus(old(Now()), MadeActive(old(row), to), r)
    {
      ghost var was := World(row, stored);
      var updated: Option<Row> := None;
      if AtMove !in r.lost {
        updated := CasRow(allowed, MadeActive(row, to));
      }
      Did(pid, r, was);
      return if r.Breaks(AtMove) then r.Interrupted(AtMove) else if updated.Some? then WithRow(updated.value) else WithNone;
    }

    /** The render was lost: again, while attempts are left. */
    method Lost(snapshot: Row, allowed: set<Status>, r: Round, ghost pid: nat) returns (e: Ending)
      requires At(pid, snapshot)
      requires model.workers[pid].pc == if snapshot.attempts >= MAX_AUTO then GiveUp else Move(Pending, allowed)
      modifies `row, `stored, `log, `model
      ensures Performed(old(log), old(Ahead(r, pid)), pid)
      ensures Decided(old(model).workers[pid], model.workers[pid], e)
      ensures old(row) == snapshot && snapshot.status in allowed && allowed <= ACTIVE ==>
        Stepped(Now(), e) == Rerendered(old(Now()), r)
    {
      if snapshot.attempts >= MAX_AUTO {
        e := Fail(r, pid);
        return;
      }
      e := Moved(Pending, allowed, r, pid);
    }

    /** `_dispatch` */
    method Dispatch(snapshot: Row, r: Round, ghost pid: nat) returns (e: Ending)
      requires At(pid, snapshot) && model.workers[pid].pc.Stat? && snapshot.status.Pending?
      modifies `row, `stored, `log, `model
      ensures Performed(old(log), old(Ahead(r, pid)), pid)
      ensures Decided(old(model).workers[pid], model.workers[pid], e)
      ensures old(row) == snapshot ==> Stepped(Now(), e) == AdoptOf(old(Now()), r)
      ensures old(row) == snapshot && old(stored) == None && r.lost == {} && r.applied == {} ==>
        && stored == None
        && if snapshot.attempts >= MAX_AUTO || r.submit == None
           then row == snapshot.(status := Failed, lease := None) && e == WithNone
           else row == snapshot.(status := Queued, attempts := snapshot.attempts + 1, job := r.submit) && e == WithRow(row)
    {
      hide IsRun, Final, RoundTrace, AdoptionOf;
      var adoption := AdoptExistingObject(snapshot, r, pid);
      if adoption.Broke? {
        return adoption.ending;
      }
      if adoption.Adopted? {
        return WithRow(adoption.row);
      }
      if snapshot.attempts >= MAX_AUTO {
        e := Fail(r, pid);
        return;
      }
      e := Submit(snapshot, r, pid);
    }

    /** The rest of `_dispatch`: submit the job and take note of it. */
    method Submit(snapshot: Row, r: Round, ghost pid: nat) returns (e: Ending)
      requires At(pid, snapshot) && model.workers[pid].pc.Submit?
      modifies `row, `stored, `log, `model
      ensures Performed(old(log), old(Ahead(r, pid)), pid)
      ensures Decided(old(model).workers[pid], model.workers[pid], e)
      ensures old(row) == snapshot && snapshot.status == Pending && snapshot.attempts < MAX_AUTO ==>
        Stepped(Now(), e) == SubmitOf(old(Now()), r)
    {
      hide IsRun, Final, RoundTrace;
      Did(pid, r, World(row, stored));
      if r.Breaks(AtSubmit) {
        return r.Interrupted(AtSubmit);
      }
      if r.submit.None? {
        e := Fail(r, pid);
        return;
      }
      e := Enqueued(snapshot, r, pid);
    }

    method Enqueued(snapshot: Row, r: Round, ghost pid: nat) returns (e: Ending)
      requires At(pid, snapshot) && r.submit.Some? && model.workers[pid].pc == Enqueue(r.submit.value)
      modifies `row, `stored, `log, `model
      ensures Performed(old(log), old(Ahead(r, pid)), pid)
      ensures Decided(old(model).workers[pid], model.workers[pid], e)
      ensures old(row) == snapshot && snapshot.status == Pending ==>
        var queued := snapshot.(status := Queued, attempts := snapshot.attempts + 1, job := r.submit);
        Stepped(Now(), e) == Write(old(Now()), World(queued, old(stored)), AtEnqueue, WithRow(queued), r)
    {
      ghost var was := World(row, stored);
      var updated: Option<Row> := None;
      if AtEnqueue !in r.lost {
        updated := CasRow({Pending}, MadeQueued(row, snapshot.attempts + 1, r.submit.value));
      }
      Did(pid, r, was);
      return if r.Breaks(AtEnqueue) then r.Interrupted(AtEnqueue) else if updated.Some? then WithRow(updated.value) else WithNone;
    }

    /** `_poll`: one question to the renderer. */
    method PollJob(snapshot: Row, r: Round, ghost pid: nat) returns (e: Ending)
      requires At(pid, snapshot) && model.workers[pid].pc.Poll?
      modifies `row, `stored, `log, `model
      ensures Performed(old(log), old(Ahead(r, pid)), pid)
      ensures Decided(old(model).workers[pid], model.workers[pid], e)
      ensures old(row) == snapshot && snapshot.status in {Queued, Rendering} ==> Stepped(Now(), e) == PollOf(old(Now()), r)
      ensures old(row) == snapshot && snapshot.status in {Queued, Rendering} && r.lost == {} && r.applied == {} ==>
        && stored == old(stored)
        && match r.job
           case JobOver => row == snapshot.(status := Failed, lease := None) && e == WithNone
           case JobTimedOut => row == snapshot.(status := Failed, lease := None) && e == WithNone
           case JobReady => row == snapshot.(status := Uploading) && e == WithRow(row)
           case JobWaiting => row == snapshot.(status := Queued) && e == WithRow(row)
           case JobWorking => row == snapshot.(status := Rendering) && e == WithRow(row)
           case JobLost =>
             if snapshot.attempts >= MAX_AUTO then row == snapshot.(status := Failed, lease := None) && e == WithNone
             else row == snapshot.(status := Pending, job := None) && e == WithRow(row)
    {
      hide IsRun, Final, RoundTrace;
      Did(pid, r, World(row, stored));
      if r.Breaks(AtPoll) {
        return r.Interrupted(AtPoll);
      }
      match r.job {
        case JobLost => e := Lost(snapshot, {Queued, Rendering}, r, pid);
        case JobReady => e := Moved(Uploading, {Queued, Rendering}, r, pid);
        case JobOver => e := Fail(r, pid);
        case JobTimedOut => e := Fail(r, pid);
        case _ =>
          var wanted := if r.job.JobWaiting? then Queued else Rendering;
          if snapshot.status != wanted {
            e := Moved(wanted, {Queued, Rendering}, r, pid);
          } else {
            e := WithRow(snapshot);
          }
      }
    }

    /** `_upload` */
    method Upload(snapshot: Row, r: Round, ghost pid: nat) returns (e: Ending)
      requires At(pid, snapshot) && model.workers[pid].pc.Stat? && snapshot.status.Uploading?
      modifies `row, `stored, `log, `model
      ensures Performed(old(log), old(Ahead(r, pid)), pid)
      ensures Decided(old(model).workers[pid], model.workers[pid], e)
      ensures old(row) == snapshot ==> Stepped(Now(), e) == AdoptOf(old(Now()), r)
      ensures old(row) == snapshot && old(stored) == None && r.lost == {} && r.applied == {} ==>
        match r.fetched
        case Refused => stored == None && row == snapshot.(status := Failed, lease := None) && e == WithNone
        case NotFound =>
          && stored == None
          && if snapshot.attempts >= MAX_AUTO then row == snapshot.(status := Failed, lease := None) && e == WithNone
             else row == snapshot.(status := Pending, job := None) && e == WithRow(row)
        case Bytes(video) =>
          if !ArtifactLifecycle.Valid(video)
          then stored == None && row == snapshot.(status := Failed, lease := None) && e == WithNone
          else
            && stored == Some(video) && e == WithRow(row)
            && row == snapshot.(status := Ready, objectKey := Some(VideoKey(snapshot.id)), size := Some(|video|),
                                checksum := Some(Sha256(video)), mime := Some("video/mp4"), lease := None)
    {
      hide IsRun, Final, RoundTrace, AdoptionOf;
      var adoption := AdoptExistingObject(snapshot, r, pid);
      if adoption.Broke? {
        return adoption.ending;
      }
      if adoption.Adopted? {
        return WithRow(adoption.row);
      }
      e := Downloaded(snapshot, r, pid);
    }

    method Downloaded(snapshot: Row, r: Round, ghost pid: nat) returns (e: Ending)
      requires At(pid, snapshot) && model.workers[pid].pc.Download?
      modifies `row, `stored, `log, `model
      ensures Performed(old(log), old(Ahead(r, pid)), pid)
      ensures Decided(old(model).workers[pid], model.workers[pid], e)
      ensures old(row) == snapshot && snapshot.status == Uploading ==> Stepped(Now(), e) == DownloadOf(old(Now()), r)
    {
      hide IsRun, Final, RoundTrace;
      Did(pid, r, World(row, stored));
      if r.Breaks(AtDownload) {
        return r.Interrupted(AtDownload);
      }
      match r.fetched {
        case NotFound => e := Lost(snapshot, {Uploading}, r, pid);
        case Refused => e := Fail(r, pid);
        case Bytes(video) =>
          var info := ValidateMp4(video, MAX_VIDEO);
          if info.None? {
            e := Fail(r, pid);
          } else {
            e := StoreVideo(snapshot, video, r, pid);
          }
      }
    }

    /** The upload under the deterministic key. */
    method StoreVideo(snapshot: Row, video: seq<Byte>, r: Round, ghost pid: nat) returns (e: Ending)
      requires At(pid, snapshot) && model.workers[pid].pc == Store(video)
      modifies `row, `stored, `log, `model
      ensures Performed(old(log), old(Ahead(r, pid)), pid)
      ensures Decided(old(model).workers[pid], model.workers[pid], e)
      ensures old(row).status in ACTIVE ==> Stepped(Now(), e) == StoreOf(old(Now()), video, r)
    {
      hide IsRun, Final, RoundTrace;
      ghost var was := World(row, stored);
      if AtStore !in r.lost {
        stored := Some(video);
      }
      Did(pid, r, was);
      if r.Breaks(AtStore) {
        return r.Interrupted(AtStore);
      }
      e := ConfirmVideo(snapshot, video, r, pid);
    }

    /** Only a stored object of the right size is published. */
    method ConfirmVideo(snapshot: Row, video: seq<Byte>, r: Round, ghost pid: nat) returns (e: Ending)
      requires At(pid, snapshot) && model.workers[pid].pc == Confirm(video)
      modifies `row, `stored, `log, `model
      ensures Performed(old(log), old(Ahead(r, pid)), pid)
      ensures Decided(old(model).workers[pid], model.workers[pid], e)
      ensures old(row).status in ACTIVE && old(stored) == Some(video) ==>
        Stepped(Now(), e) == if r.Breaks(AtConfirm) then Stepped(old(Now()), r.Interrupted(AtConfirm))
                             else Write(old(Now()), World(ReadyRow(old(row), video), old(stored)), AtPublish,
                                        WithRow(ReadyRow(old(row), video)), r)
    {
      hide IsRun, Final, RoundTrace;
      Did(pid, r, World(row, stored));
      if r.Breaks(AtConfirm) {
        return r.Interrupted(AtConfirm);
      }
      if stored.None? || |stored.value| != |video| {
        return Raised;
      }
      e := PublishVideo(snapshot, video, r, pid);
    }

    method PublishVideo(snapshot: Row, video: seq<Byte>, r: Round, ghost pid: nat) returns (e: Ending)
      requires At(pid, snapshot) && model.workers[pid].pc == Publish(video)
      modifies `row, `stored, `log, `model
      ensures Performed(old(log), old(Ahead(r, pid)), pid)
      ensures Decided(old(model).workers[pid], model.workers[pid], e)
      ensures old(row).status in ACTIVE ==>
        Stepped(Now(), e) == Write(old(Now()), World(ReadyRow(old(row), video), old(stored)), AtPublish,
                                   WithRow(ReadyRow(old(row), video)), r)
    {
      ghost var was := World(row, stored);
      var updated: Option<Row> := None;
      if AtPublish !in r.lost {
        updated := CasRow(ACTIVE, MadeReady(row, video));
      }
      Did(pid, r, was);
      return if r.Breaks(AtPublish) then r.Interrupted(AtPublish) else if updated.Some? then WithRow(updated.value) else WithNone;
    }

    // ---------------------------------------------------------------- advance

    /** `_step` */
    method StepOnce(snapshot: Row, r: Round, ghost round: nat, ghost pid: nat) returns (e: Ending)
      requires Valid() && pid in model.workers && model.workers[pid] == Enter(snapshot, round) && snapshot.status in ACTIVE
      modifies `row, `stored, `log, `model
      ensures Performed(old(log), old(Ahead(r, pid)), pid)
      ensures Decided(old(model).workers[pid], model.workers[pid], e)
      ensures old(row) == snapshot ==> Stepped(Now(), e) == StepOf(old(Now()), r)
    {
      hide IsRun, Final, RoundTrace;
      if snapshot.status.Pending? {
        e := Dispatch(snapshot, r, pid);
      } else if snapshot.status.Queued? || snapshot.status.Rendering? {
        e := PollJob(snapshot, r, pid);
      } else {
        e := Upload(snapshot, r, pid);
      }
    }

    /** The last writes of `advance`, some time after its claim: a pause if need be, and without one the release. */
    method GiveBackLease(pause: bool, backoff: Io, release: Io, later: int, ghost pid: nat)
      requires Valid() && pid in model.workers && model.workers[pid].pc == Pc.Finish(pause) && now <= later
      modifies `row, `now, `log, `model
      ensures Valid() && pid !in model.workers && now == later
      ensures log == old(log) + LastSteps(pid, pause, backoff, release, later)
      ensures row == old(row).(lease := LastLease(old(row).lease, pause, backoff, release, later))
    {
      hide IsRun, Final;
      Wait(later);
      if pause {
        if backoff.Done? {
          row := row.(lease := Some(later + BACKOFF_SECONDS));
          TakeLastStep(pid, Work(pid, DoFinish(later)));
          return;
        }
        if backoff.Applied? {
          row := row.(lease := Some(later + BACKOFF_SECONDS));
        }
        TakeLastStep(pid, Work(pid, DoPauseError(later, backoff.Applied?)));
      }
      if release.Lost? {
        TakeLastStep(pid, Crash(pid));
      } else {
        row := row.(lease := None);
        TakeLastStep(pid, Work(pid, DoFinish(later)));
      }
    }

    /** The protocol takes the step that the fields have just taken. */
    ghost method TakeLastStep(pid: nat, l: Label)
      requires IsRun(start, log) && Final(start, log) == model && model.now == now && Enabled(model, l)
      requires Step(model, l).world == World(row, stored) && Step(model, l).now == now
      modifies `log, `model
      ensures Valid() && log == old(log) + [l] && model == Step(old(model), l)
    {
      hide Step, Enabled;
      RunSnoc(start, log, l);
      log := log + [l];
      model := Step(model, l);
    }

    /**
     `advance`: claim, then rounds while the status changes, at most five, then the lease. Nothing at all
     happens to a row that cannot be claimed. Otherwise the steps are the claim, those of the rounds for
     whatever the renderer answers and whatever breaks, and the writes of the lease, which may break too.
     */
    method Advance(rounds: seq<Round>, backoff: Io, release: Io, later: int, ghost pid: nat)
      requires Valid() && pid !in model.workers && |rounds| == MAX_ROUNDS && now <= later
      modifies `row, `stored, `now, `log, `model
      ensures Valid()
      ensures if old(row).status in ACTIVE && Lapsed(old(row), old(now)) then
                var claimed := old(row).(lease := Some(old(now) + LEASE_SECONDS));
                var t := AdvanceTrace(pid, World(claimed, old(stored)), Enter(claimed, 0), rounds);
                && t.worker.pc.Finish?
                && var pause := t.worker.pc.pause;
                && log == old(log) + [Claim(pid, old(now))] + t.labels + LastSteps(pid, pause, backoff, release, later)
                && row == t.world.row.(lease := LastLease(t.world.row.lease, pause, backoff, release, later))
                && stored == t.world.stored && now == later && pid !in model.workers
              else log == old(log) && row == old(row) && stored == old(stored) && now == old(now)
      ensures old(row).status in ACTIVE && Lapsed(old(row), old(now)) ==>
                var s := RoundsOf(World(old(row).(lease := Some(old(now) + LEASE_SECONDS)), old(stored)), rounds, 0);
                && stored == s.world.stored
                && row == s.world.row.(lease :=
                     if s.ending.Raised? && backoff.Done? then Some(later + BACKOFF_SECONDS)
                     else if release.Done? || release.Applied? then None
                     else if s.ending.Raised? && backoff.Applied? then Some(later + BACKOFF_SECONDS)
                     else s.world.row.lease)
      ensures old(row).status in {Queued, Rendering} && Lapsed(old(row), old(now)) && rounds[0].lost == {} && rounds[0].applied == {}
              && (rounds[0].job == JobOver || rounds[0].job == JobTimedOut) ==>
                row == old(row).(status := Failed, lease := None) && stored == old(stored)
    {
      hide IsRun, Final, RoundTrace, AdvanceTrace, StepOf, RoundsOf;
      FailedRoundEnds(World(row.(lease := Some(now + LEASE_SECONDS)), stored), rounds);
      var claimed := ClaimRow(pid);
      if claimed.None? {
        return;
      }
      var snapshot := claimed.value;
      var pause := false;
      var i := 0;
      ghost var claimedLog := log;
      ghost var goal := AdvanceTrace(pid, World(row, stored), Enter(row, 0), rounds);
      ghost var end := RoundsOf(Now(), rounds, 0);
      ghost var e := WithNone;
      while true
        invariant i < MAX_ROUNDS && snapshot.status in ACTIVE && now == old(now) && !pause
        invariant Valid() && pid in model.workers && model.workers[pid] == Enter(snapshot, i)
        invariant var a := AdvanceTrace(pid, model.world, model.workers[pid], rounds);
                  goal.world == a.world && goal.worker == a.worker && claimedLog + goal.labels == log + a.labels
        invariant row == snapshot && RoundsOf(Now(), rounds, i) == end
        decreases MAX_ROUNDS - i
      {
        RoundsGoOn(Now(), rounds, i);
        AdvanceGoesOn(pid, model.world, model.workers[pid], rounds, log);
        var before := snapshot.status;
        var ending := StepOnce(snapshot, rounds[i], i, pid);
        e := ending;
        if ending.Raised? {
          pause := true;
          break;
        }
        if ending.Cancelled? || ending.WithNone? || ending.row.status !in ACTIVE || ending.row.status == before {
          break;
        }
        snapshot := ending.row;
        i := i + 1;
        if i == MAX_ROUNDS {
          break;
        }
      }
      assert Performed(claimedLog, goal, pid) && end == Stepped(Now(), e) && pause == e.Raised?;
      GiveBackLease(pause, backoff, release, later, pid);
    }
  }

  /** So a service started on a fresh row only ever shows what the protocol guarantees. */
  lemma ReadyRowIsVerified(service: Service, id: nat, now: int)
    requires service.Valid() && service.start == Fresh(id, now)
    ensures var r := service.row;
            && r.attempts <= MAX_AUTO && r.retries <= MAX_MANUAL
            && (r.status.Ready? ==>
                  exists video :: ArtifactLifecycle.Valid(video)
                    && r.objectKey == Some(VideoKey(r.id)) && r.size == Some(|video|) && r.checksum == Some(Sha256(video)))
            && (!r.status.Ready? ==> r.objectKey.None? && r.size.None? && r.checksum.None? && r.mime.None?)
  {
    ReadyMeansVerified(id, now, service.log);
  }
}
