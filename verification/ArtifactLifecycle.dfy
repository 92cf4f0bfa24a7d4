/**
 The render lifecycle of one Manim artifact (app/artifacts/service.py).

 Any number of workers advance the row by compare-and-set, each on the snapshot of the row that
 its last successful update returned. They poll a flaky renderer, store the video under one
 deterministic key, and may crash or be suspended at every await. Users retry a failed artifact
 and readers report a vanished object.
 */
module ArtifactLifecycle {
  import opened Wrappers
  import opened Mp4Boxes

  const MAX_AUTO := 3
  const MAX_MANUAL := 5
  const MAX_VIDEO := 50 * 1024 * 1024
  const LEASE_SECONDS := 60
  const BACKOFF_SECONDS := 10
  const MAX_ROUNDS := 5

  datatype Status = Pending | Queued | Rendering | Uploading | Ready | Failed

  const ACTIVE := {Pending, Queued, Rendering, Uploading}

  /** The object key of an artifact's video, a function of its id alone. */
  datatype ObjectKey = VideoKey(artifact: nat)

  datatype Row = Row(
    id: nat,
    status: Status,
    objectKey: Option<ObjectKey>,
    size: Option<nat>,
    checksum: Option<Digest>,
    mime: Option<string>,
    attempts: nat,              // renders begun automatically
    retries: nat,               // explicit retries
    job: Option<nat>,
    lease: Option<int>
  )

  /** A newly registered animation. */
  function Registered(id: nat): Row {
    Row(id, Pending, None, None, None, None, 0, 0, None, None)
  }

  ghost predicate Valid(video: seq<Byte>) {
    ValidMp4(video, MAX_VIDEO)
  }

  // ------------------------------------------------------------------ updates of the row

  function MadeReady(r: Row, video: seq<Byte>): Row {
    r.(status := Ready, objectKey := Some(VideoKey(r.id)), size := Some(|video|), checksum := Some(Sha256(video)),
       mime := Some("video/mp4"), lease := None)
  }

  function MadeFailed(r: Row): Row {
    r.(status := Failed, lease := None)
  }

  function MadeQueued(r: Row, attempts: nat, job: nat): Row {
    r.(status := Queued, attempts := attempts, job := Some(job))
  }

  /** The other moves of `_poll` and `_upload`; a job that was lost is forgotten. */
  function MadeActive(r: Row, to: Status): Row {
    if to.Pending? then r.(status := Pending, job := None) else r.(status := to)
  }

  function MadeRetried(r: Row, retries: nat): Row {
    r.(status := Pending, attempts := 0, retries := retries, job := None, lease := None)
  }

  function MadeMissing(r: Row): Row {
    r.(status := Pending, objectKey := None, size := None, checksum := None, mime := None, job := None, attempts := 0,
       lease := None)
  }

  // ------------------------------------------------------------------ a worker

  /** Which await of `advance` the worker is at. */
  datatype Pc =
    | Stat                                      // is there an object under the key?
    | Fetch
    | Discard                                   // an invalid leftover
    | Adopt(video: seq<Byte>)
    | Submit
    | Enqueue(job: nat)
    | GiveUp
    | Poll
    | Move(to: Status, allowed: set<Status>)
    | Download
    | Store(video: seq<Byte>)
    | Confirm(video: seq<Byte>)
    | Publish(video: seq<Byte>)
    | Finish(pause: bool)                       // release the lease, or set it for a pause (and release it if that fails)

  /** `row` is the snapshot of this round, the `round`-th of at most five. */
  datatype Worker = Worker(row: Row, round: nat, pc: Pc)

  function Enter(row: Row, round: nat): Worker {
    Worker(row, round,
           match row.status
           case Pending => Stat
           case Queued => Poll
           case Rendering => Poll
           case Uploading => Stat
           case _ => Finish(false))
  }

  /** The loop of `advance` after a step that returned `row`. */
  function NextRound(w: Worker, row: Row): Worker {
    if row.status !in ACTIVE || row.status == w.row.status || w.round + 1 >= MAX_ROUNDS
    then Worker(row, w.round, Finish(false))
    else Enter(row, w.round + 1)
  }

  /** Nothing to adopt: `_dispatch` submits (or has no attempt left), `_upload` downloads. */
  function NothingToAdopt(w: Worker): Worker {
    w.(pc := if w.row.status.Uploading? then Download else if w.row.attempts >= MAX_AUTO then GiveUp else Submit)
  }

  /** The renderer lost the work: back to pending while attempts are left. */
  function LostWork(w: Worker, allowed: set<Status>): Worker {
    w.(pc := if w.row.attempts >= MAX_AUTO then GiveUp else Move(Pending, allowed))
  }

  datatype JobState = JobLost | JobReady | JobOver | JobTimedOut | JobWaiting | JobWorking

  datatype Fetched = Bytes(video: seq<Byte>) | NotFound | Refused

  datatype Call =
    | DoStat
    | DoFetch
    | DoDiscard
    | DoAdopt
    | DoSubmit(accepted: Option<nat>)
    | DoEnqueue
    | DoGiveUp
    | DoPoll(job: JobState)
    | DoMove
    | DoDownload(fetched: Fetched)
    | DoStore
    | DoConfirm
    | DoPublish
    | DoFinish(now: int)
      // an exception or a cancellation at any await, before or after the call took effect
    | DoError(applied: bool, cancelled: bool)
      // the same at the write of the pause
    | DoPauseError(now: int, applied: bool)

  predicate Awaits(pc: Pc, c: Call) {
    match c
    case DoStat => pc.Stat?
    case DoFetch => pc.Fetch?
    case DoDiscard => pc.Discard?
    case DoAdopt => pc.Adopt?
    case DoSubmit(_) => pc.Submit?
    case DoEnqueue => pc.Enqueue?
    case DoGiveUp => pc.GiveUp?
    case DoPoll(_) => pc.Poll?
    case DoMove => pc.Move?
    case DoDownload(_) => pc.Download?
    case DoStore => pc.Store?
    case DoConfirm => pc.Confirm?
    case DoPublish => pc.Publish?
    case DoFinish(_) => pc.Finish?
    case DoError(_, _) => !pc.Finish?
    case DoPauseError(_, _) => pc == Finish(true)
  }

  /** The row and the stored object a worker's call leaves behind, and where the worker goes on. */
  datatype World = World(row: Row, stored: Option<seq<Byte>>)

  function Cas(r: Row, allowed: set<Status>, changed: Row): Row {
    if r.status in allowed then changed else r
  }

  /** What the call the worker is at does to the row. */
  function RowEffect(r: Row, w: Worker): Row {
    match w.pc
    case Adopt(video) => Cas(r, ACTIVE, MadeReady(r, video))
    case Enqueue(job) => Cas(r, {Pending}, MadeQueued(r, w.row.attempts + 1, job))
    case GiveUp => Cas(r, ACTIVE, MadeFailed(r))
    case Move(to, allowed) => Cas(r, allowed, MadeActive(r, to))
    case Publish(video) => Cas(r, ACTIVE, MadeReady(r, video))
    case _ => r
  }

  function RowAfter(x: World, w: Worker, c: Call): Row
    requires Awaits(w.pc, c)
  {
    match c
    case DoFinish(now) => x.row.(lease := if w.pc.pause then Some(now + BACKOFF_SECONDS) else None)
    case DoError(applied, _) => if applied then RowEffect(x.row, w) else x.row
    case DoPauseError(now, applied) => if applied then x.row.(lease := Some(now + BACKOFF_SECONDS)) else x.row
    case _ => RowEffect(x.row, w)
  }

  function ObjectAfter(x: World, w: Worker, c: Call): Option<seq<Byte>>
    requires Awaits(w.pc, c)
  {
    if c.DoError? && !c.applied then x.stored
    else
      match w.pc
      case Discard => None
      case Store(video) => Some(video)
      case _ => x.stored
  }

  /** The worker after a compare-and-set: the next round on the new row, or out if it lost a race. */
  function AfterCas(x: World, w: Worker, c: Call, allowed: set<Status>): Worker
    requires Awaits(w.pc, c)
  {
    if x.row.status in allowed then NextRound(w, RowAfter(x, w, c)) else w.(pc := Finish(false))
  }

  ghost function WorkerAfter(x: World, w: Worker, c: Call): Worker
    requires Awaits(w.pc, c) && !c.DoFinish?
  {
    match c
    case DoStat => if x.stored.None? then NothingToAdopt(w) else w.(pc := Fetch)
    case DoFetch =>
      w.(pc := if x.stored.None? then Finish(true)
               else if Valid(x.stored.value) then Adopt(x.stored.value) else Discard)
    case DoDiscard => NothingToAdopt(w)
    case DoAdopt => if x.row.status in ACTIVE then NextRound(w, RowAfter(x, w, c)) else NothingToAdopt(w)
    case DoSubmit(accepted) => w.(pc := if accepted.Some? then Enqueue(accepted.value) else GiveUp)
    case DoEnqueue => AfterCas(x, w, c, {Pending})
    case DoGiveUp => w.(pc := Finish(false))
    case DoPoll(job) =>
      (match job
       case JobLost => LostWork(w, {Queued, Rendering})
       case JobReady => w.(pc := Move(Uploading, {Queued, Rendering}))
       case JobOver => w.(pc := GiveUp)
       case JobTimedOut => w.(pc := GiveUp)
       case _ =>
         var wanted := if job.JobWaiting? then Queued else Rendering;
         w.(pc := if w.row.status != wanted then Move(wanted, {Queued, Rendering}) else Finish(false)))
    case DoMove => AfterCas(x, w, c, w.pc.allowed)
    case DoDownload(got) =>
      (match got
       case NotFound => LostWork(w, {Uploading})
       case Refused => w.(pc := GiveUp)
       case Bytes(video) => w.(pc := if Valid(video) then Store(video) else GiveUp))
    case DoStore => w.(pc := Confirm(w.pc.video))
    case DoConfirm =>
      w.(pc := if x.stored.None? || |x.stored.value| != |w.pc.video| then Finish(true) else Publish(w.pc.video))
    case DoPublish => AfterCas(x, w, c, ACTIVE)
    case DoError(_, cancelled) => w.(pc := Finish(!cancelled))
    case DoPauseError(_, _) => w.(pc := Finish(false))
  }

  // ------------------------------------------------------------------ the whole system

  /** `retrying`: the retry counts that running `retry` calls have read from a failed row; `now`: the database's clock. */
  datatype State = State(world: World, workers: map<nat, Worker>, retrying: map<nat, nat>, now: int)

  function Fresh(id: nat, now: int): State {
    State(World(Registered(id), None), map[], map[], now)
  }

  /** No lease, or one that has run out. */
  predicate Lapsed(r: Row, now: int) {
    r.lease.None? || r.lease.value < now
  }

  datatype Label =
    | Tick(now: int)
    | Claim(pid: nat, now: int)
    | Work(pid: nat, call: Call)
    | Crash(pid: nat)
    | RetryRead(rid: nat)
    | RetryCas(rid: nat)
    | ReportMissing
    | LoseObject

  predicate Enabled(s: State, l: Label) {
    match l
    case Tick(now) => s.now <= now
    case Claim(pid, now) => now == s.now && pid !in s.workers && s.world.row.status in ACTIVE && Lapsed(s.world.row, now)
    case Work(pid, c) => pid in s.workers && Awaits(s.workers[pid].pc, c) && (c.DoFinish? || c.DoPauseError? ==> c.now == s.now)
    case Crash(pid) => pid in s.workers
    case RetryRead(rid) => rid !in s.retrying && s.world.row.status.Failed? && s.world.row.retries < MAX_MANUAL
    case RetryCas(rid) => rid in s.retrying
    case ReportMissing => true
    case LoseObject => true
  }

  function WithRow(s: State, r: Row): State {
    s.(world := s.world.(row := r))
  }

  ghost function Step(s: State, l: Label): State
    requires Enabled(s, l)
  {
    match l
    case Tick(now) => s.(now := now)
    case Claim(pid, now) =>
      var r := s.world.row.(lease := Some(now + LEASE_SECONDS));
      WithRow(s, r).(workers := s.workers[pid := Enter(r, 0)])
    case Work(pid, c) =>
      var w := s.workers[pid];
      var x := World(RowAfter(s.world, w, c), ObjectAfter(s.world, w, c));
      s.(world := x, workers := if c.DoFinish? then s.workers - {pid} else s.workers[pid := WorkerAfter(s.world, w, c)])
    case Crash(pid) => s.(workers := s.workers - {pid})
    case RetryRead(rid) => s.(retrying := s.retrying[rid := s.world.row.retries])
    case RetryCas(rid) =>
      WithRow(s, Cas(s.world.row, {Failed}, MadeRetried(s.world.row, s.retrying[rid] + 1))).(retrying := s.retrying - {rid})
    case ReportMissing => WithRow(s, Cas(s.world.row, {Ready}, MadeMissing(s.world.row)))
    case LoseObject => s.(world := s.world.(stored := None))
  }

  ghost predicate IsRun(s: State, ls: seq<Label>)
    decreases |ls|
  {
    ls == [] || (Enabled(s, ls[0]) && IsRun(Step(s, ls[0]), ls[1..]))
  }

  ghost function Final(s: State, ls: seq<Label>): State
    requires IsRun(s, ls)
    decreases |ls|
  {
    if ls == [] then s else Final(Step(s, ls[0]), ls[1..])
  }

  lemma RunCons(s: State, l: Label, ls: seq<Label>)
    requires Enabled(s, l) && IsRun(Step(s, l), ls)
    ensures IsRun(s, [l] + ls) && Final(s, [l] + ls) == Final(Step(s, l), ls)
  {
    assert ([l] + ls)[1..] == ls;
  }

  lemma RunPair(s: State, k: Label, l: Label, ls: seq<Label>)
    requires Enabled(s, k) && Enabled(Step(s, k), l) && IsRun(Step(Step(s, k), l), ls)
    ensures IsRun(s, [k, l] + ls) && Final(s, [k, l] + ls) == Final(Step(Step(s, k), l), ls)
  {
    RunCons(Step(s, k), l, ls);
    RunCons(s, k, [l] + ls);
    assert [k, l] + ls == [k] + ([l] + ls);
  }

  lemma {:induction false} RunConcat(s: State, a: seq<Label>, b: seq<Label>)
    requires IsRun(s, a) && IsRun(Final(s, a), b)
    ensures IsRun(s, a + b) && Final(s, a + b) == Final(Final(s, a), b)
    decreases |a|
  {
    hide Step, Enabled;
    if a == [] {
      assert a + b == b;
    } else {
      assert (a + b)[0] == a[0] && (a + b)[1..] == a[1..] + b;
      RunConcat(Step(s, a[0]), a[1..], b);
    }
  }

  lemma RunSnoc(s: State, ls: seq<Label>, l: Label)
    requires IsRun(s, ls) && Enabled(Final(s, ls), l)
    ensures IsRun(s, ls + [l]) && Final(s, ls + [l]) == Step(Final(s, ls), l)
  {
    hide Step, Enabled;
    RunCons(Final(s, ls), l, []);
    assert [l] + [] == [l];
    RunConcat(s, ls, [l]);
  }

  lemma AssembleFive(s: State, ls: seq<Label>)
    requires |ls| == 5 && Enabled(s, ls[0]) && Enabled(Step(s, ls[0]), ls[1])
    requires var s2 := Step(Step(s, ls[0]), ls[1]);
             Enabled(s2, ls[2]) && Enabled(Step(s2, ls[2]), ls[3]) && Enabled(Step(Step(s2, ls[2]), ls[3]), ls[4])
    ensures IsRun(s, ls)
    ensures Final(s, ls) == Step(Step(Step(Step(Step(s, ls[0]), ls[1]), ls[2]), ls[3]), ls[4])
  {
    var s2 := Step(Step(s, ls[0]), ls[1]);
    RunCons(Step(Step(s2, ls[2]), ls[3]), ls[4], []);
    RunPair(s2, ls[2], ls[3], [ls[4]] + []);
    RunPair(s, ls[0], ls[1], [ls[2], ls[3]] + ([ls[4]] + []));
    assert ls == [ls[0], ls[1]] + ([ls[2], ls[3]] + ([ls[4]] + []));
  }
}
