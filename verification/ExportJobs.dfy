/**
 The life of one export job (app/exports/service.py).

 Workers claim the job under a lease, build the file, upload it, and settle the job; the timeout of
 a lease lets another worker in. Retention deletes the object and expires the job; an orphan sweep
 deletes objects no live job refers to. Any of them may crash or be suspended at every await, and
 every remote call may fail with or without effect.
 */
module ExportJobs {
  import opened Mp4Boxes
  import opened Wrappers

  const MAX_ATTEMPTS := 3
  const LEASE_SECONDS := 300
  const BACKOFF_SECONDS := 10
  const RETENTION_SECONDS := 24 * 3600

  type Content = seq<Byte>

  datatype Status = Pending | Processing | Ready | Failed | Expired

  /** `file` stands for the key `exports/<job id>/<file>`. */
  datatype Job = Job(
    owner: nat,
    request: nat,
    status: Status,
    attempts: nat,
    lease: Option<int>,
    file: Option<string>,
    size: Option<nat>,
    checksum: Option<Digest>,
    expires: Option<int>
  ) {
    predicate Live() { status.Pending? || status.Processing? || status.Ready? }

    predicate Open() { status.Pending? || status.Processing? }

    /** No lease, or one that has run out. */
    predicate Lapsed(now: int) { lease.None? || lease.value < now }

    predicate Due(now: int) { status.Ready? && expires.Some? && expires.value < now }
  }

  function NewJob(owner: nat, request: nat): Job {
    Job(owner, request, Pending, 0, None, None, None, None, None)
  }

  // ------------------------------------------------------------------ row updates

  function Claimed(j: Job, now: int): Job {
    j.(status := Processing, attempts := j.attempts + 1, lease := Some(now + LEASE_SECONDS))
  }

  function MadeFailed(j: Job): Job {
    if j.Open() then j.(status := Failed, lease := None) else j
  }

  function Released(j: Job, now: int): Job {
    if j.status.Processing? then j.(status := Pending, lease := Some(now + BACKOFF_SECONDS)) else j
  }

  function MadeReady(j: Job, file: string, content: Content, now: int): Job {
    if j.status.Processing? then
      j.(status := Ready, file := Some(file), size := Some(|content|), checksum := Some(Sha256(content)), lease := None,
         expires := Some(now + RETENTION_SECONDS))
    else j
  }

  // ------------------------------------------------------------------ workers and cleaners

  /** Where `process` is: building, confirming the upload, settling, removing a file nobody wants, or giving up. */
  datatype Pc =
    | Build
    | Confirm(file: string, content: Content)
    | Settle(file: string, content: Content)
    | Drop(file: string)
    | GiveUp(permanent: bool)

  /** `attempt`: the attempt count its claim returned. */
  datatype Worker = Worker(attempt: nat, pc: Pc)

  datatype Cleaner = DropObject(file: Option<string>) | MarkExpired

  datatype Io = Done | Lost | Applied

  datatype Call =
    | DoUpload(file: string, content: Content, io: Io)
    | DoConfirm
    | DoSettle(io: Io)
    | DoDrop(io: Io)
    | DoGiveUp
    | DoError(permanent: bool)      // an exception that is not about one of the calls above

  predicate Awaits(pc: Pc, c: Call) {
    match c
    case DoUpload(_, _, _) => pc.Build?
    case DoConfirm => pc.Confirm?
    case DoSettle(_) => pc.Settle?
    case DoDrop(_) => pc.Drop?
    case DoGiveUp => pc.GiveUp?
    case DoError(permanent) => !pc.GiveUp? && (permanent ==> pc.Build?)
  }

  /** The job, what is stored for it, and who is at work on it; `claims` counts successful claims. */
  datatype State = State(
    job: Option<Job>,
    objects: map<string, Content>,
    workers: map<nat, Worker>,
    cleaners: map<nat, Cleaner>,
    claims: nat,
    now: int
  )

  function Start(owner: nat, request: nat, now: int): State {
    State(Some(NewJob(owner, request)), map[], map[], map[], 0, now)
  }

  function JobAfter(s: State, w: Worker, c: Call): Option<Job>
    requires Awaits(w.pc, c)
  {
    if s.job.None? then None
    else
      var j := s.job.value;
      match c
      case DoSettle(io) => Some(if io.Lost? then j else MadeReady(j, w.pc.file, w.pc.content, s.now))
      case DoGiveUp => Some(if w.pc.permanent || w.attempt >= MAX_ATTEMPTS then MadeFailed(j) else Released(j, s.now))
      case _ => s.job
  }

  function ObjectsAfter(s: State, w: Worker, c: Call): map<string, Content>
    requires Awaits(w.pc, c)
  {
    match c
    case DoUpload(file, content, io) => if io.Lost? then s.objects else s.objects[file := content]
    case DoDrop(io) => if io.Lost? then s.objects else s.objects - {w.pc.file}
    case _ => s.objects
  }

  /** Where the worker goes on; None when it is done. */
  function PcAfter(s: State, w: Worker, c: Call): Option<Pc>
    requires Awaits(w.pc, c)
  {
    match c
    case DoUpload(file, content, io) => Some(if io.Done? then Confirm(file, content) else GiveUp(false))
    case DoConfirm =>
      Some(if w.pc.file in s.objects && |s.objects[w.pc.file]| == |w.pc.content| then Settle(w.pc.file, w.pc.content)
           else GiveUp(false))
    case DoSettle(io) =>
      if !io.Done? then Some(GiveUp(false))
      else if s.job.Some? && s.job.value.status.Processing? then None
      else Some(Drop(w.pc.file))
    case DoDrop(io) => if io.Done? then None else Some(GiveUp(false))
    case DoGiveUp => None
    case DoError(permanent) => Some(GiveUp(permanent))
  }

  datatype Label =
    | Claim(wid: nat)
    | Work(wid: nat, call: Call)
    | Crash(wid: nat)
    | FailExhausted
    | ExpireForReuse                // the first statement of `create`
    | Scan(cid: nat)
    | Clean(cid: nat)
    | CrashCleaner(cid: nat)
    | Prune
    | SweepOrphan(file: string)     // status check and deletion, taken together
    | Tick(now: int)

  predicate Enabled(s: State, l: Label) {
    match l
    case Claim(wid) =>
      wid !in s.workers && s.job.Some? && s.job.value.Open() && s.job.value.attempts < MAX_ATTEMPTS && s.job.value.Lapsed(s.now)
    case Work(wid, c) => wid in s.workers && Awaits(s.workers[wid].pc, c)
    case Crash(wid) => wid in s.workers
    case FailExhausted =>
      s.job.Some? && s.job.value.Open() && s.job.value.attempts >= MAX_ATTEMPTS && s.job.value.Lapsed(s.now)
    case ExpireForReuse => s.job.Some? && s.job.value.Due(s.now)
    case Scan(cid) => cid !in s.cleaners && s.job.Some? && s.job.value.Due(s.now)
    case Clean(cid) => cid in s.cleaners
    case CrashCleaner(cid) => cid in s.cleaners
    case Prune => s.job.Some? && !s.job.value.Live()
    case SweepOrphan(_) => s.job.Some? ==> !s.job.value.status.Ready? && !s.job.value.status.Processing?
    case Tick(now) => s.now <= now
  }

  function Step(s: State, l: Label): State
    requires Enabled(s, l)
  {
    match l
    case Claim(wid) =>
      var j := Claimed(s.job.value, s.now);
      s.(job := Some(j), workers := s.workers[wid := Worker(j.attempts, Build)], claims := s.claims + 1)
    case Work(wid, c) =>
      var w := s.workers[wid];
      var pc := PcAfter(s, w, c);
      s.(job := JobAfter(s, w, c), objects := ObjectsAfter(s, w, c),
         workers := if pc.Some? then s.workers[wid := w.(pc := pc.value)] else s.workers - {wid})
    case Crash(wid) => s.(workers := s.workers - {wid})
    case FailExhausted => s.(job := Some(MadeFailed(s.job.value)))
    case ExpireForReuse => s.(job := Some(s.job.value.(status := Expired)))
    case Scan(cid) => s.(cleaners := s.cleaners[cid := DropObject(s.job.value.file)])
    case Clean(cid) =>
      (match s.cleaners[cid]
       case DropObject(file) =>
         s.(objects := if file.Some? then s.objects - {file.value} else s.objects, cleaners := s.cleaners[cid := MarkExpired])
       case MarkExpired =>
         s.(cleaners := s.cleaners - {cid},
            job := if s.job.Some? && s.job.value.status.Ready? then Some(s.job.value.(status := Expired, file := None)) else s.job))
    case CrashCleaner(cid) => s.(cleaners := s.cleaners - {cid})
    case Prune => s.(job := None)
    case SweepOrphan(file) => s.(objects := s.objects - {file})
    case Tick(now) => s.(now := now)
  }

  predicate IsRun(s: State, ls: seq<Label>)
    decreases |ls|
  {
    ls == [] || (Enabled(s, ls[0]) && IsRun(Step(s, ls[0]), ls[1..]))
  }

  function Final(s: State, ls: seq<Label>): State
    requires IsRun(s, ls)
    decreases |ls|
  {
    if ls == [] then s else Final(Step(s, ls[0]), ls[1..])
  }

  // ------------------------------------------------------------------ in every interleaving

  /** A job as it is at any time: the attempts are the claims, and a ready one is fully described. */
  predicate Sound(s: State) {
    s.job.Some? ==>
      var j := s.job.value;
      && s.claims == j.attempts <= MAX_ATTEMPTS
      && (j.status.Ready? ==>
            && j.file.Some? && j.expires.Some? && j.lease.None?
            && j.checksum.Some? && j.size == Some(|j.checksum.value.content|))
  }

  /** How a status may change: failed and expired jobs never come back, and a ready one can only expire. */
  predicate MayFollow(j: Option<Job>, j': Option<Job>) {
    && (j.None? ==> j'.None?)
    && (j.Some? && j'.Some? ==>
          && j'.value.owner == j.value.owner && j'.value.request == j.value.request
          && (!j.value.Live() ==> j' == j)
          && (j.value.status.Ready? ==> j'.value.status.Ready? || j'.value.status.Expired?)
          && (j.value.status.Ready? && j'.value.status.Ready? ==> j' == j))
  }

  lemma StepSound(s: State, l: Label)
    requires Sound(s) && Enabled(s, l)
    ensures Sound(Step(s, l)) && MayFollow(s.job, Step(s, l).job)
    ensures s.job.Some? && Step(s, l).job.None? ==> !s.job.value.Live()
  {
  }

  lemma {:induction false} RunSound(s: State, ls: seq<Label>)
    requires Sound(s) && IsRun(s, ls)
    ensures Sound(Final(s, ls)) && MayFollow(s.job, Final(s, ls).job)
    decreases |ls|
  {
    if ls != [] {
      StepSound(s, ls[0]);
      RunSound(Step(s, ls[0]), ls[1..]);
    }
  }

  /** Claims never exceed the maximum, whoever runs when. */
  lemma ClaimsAreBounded(owner: nat, request: nat, now: int, ls: seq<Label>)
    requires IsRun(Start(owner, request, now), ls)
    ensures var s := Final(Start(owner, request, now), ls);
            s.job.Some? ==> s.claims == s.job.value.attempts <= MAX_ATTEMPTS
  {
    RunSound(Start(owner, request, now), ls);
  }

  // ------------------------------------------------------------------ every job comes to an end

  /** What a worker pass does with a job it has found open and without a running lease. */
  function Visit(s: State, wid: nat): State {
    if Enabled(s, Claim(wid)) then Step(s, Claim(wid))
    else if Enabled(s, FailExhausted) then Step(s, FailExhausted)
    else s
  }

  /** Whatever happens in between, and then a pass that finds the job. */
  datatype Round = Round(before: seq<Label>, wid: nat)

  predicate IsFound(s: State, wid: nat) {
    wid !in s.workers && (s.job.Some? && s.job.value.Open() ==> s.job.value.Lapsed(s.now))
  }

  predicate AreRounds(s: State, rs: seq<Round>)
    decreases |rs|
  {
    rs == [] ||
    (IsRun(s, rs[0].before) && var t := Final(s, rs[0].before);
     IsFound(t, rs[0].wid) && AreRounds(Visit(t, rs[0].wid), rs[1..]))
  }

  function AfterRounds(s: State, rs: seq<Round>): State
    requires AreRounds(s, rs)
    decreases |rs|
  {
    if rs == [] then s else AfterRounds(Visit(Final(s, rs[0].before), rs[0].wid), rs[1..])
  }

  predicate IsOpen(s: State) {
    s.job.Some? && s.job.value.Open()
  }

  /** Visits that are left before the job must be settled. */
  function VisitsLeft(s: State): nat
    requires Sound(s)
  {
    if IsOpen(s) then MAX_ATTEMPTS + 1 - s.job.value.attempts else 0
  }

  lemma {:induction false} RunKeepsVisits(s: State, ls: seq<Label>)
    requires Sound(s) && IsRun(s, ls)
    ensures Sound(Final(s, ls)) && VisitsLeft(Final(s, ls)) <= VisitsLeft(s)
    decreases |ls|
  {
    if ls != [] {
      StepSound(s, ls[0]);
      StepKeepsVisits(s, ls[0]);
      hide Step, Enabled, Sound, VisitsLeft;
      RunKeepsVisits(Step(s, ls[0]), ls[1..]);
    }
  }

  lemma StepKeepsVisits(s: State, l: Label)
    requires Sound(s) && Enabled(s, l) && Sound(Step(s, l))
    ensures VisitsLeft(Step(s, l)) <= VisitsLeft(s)
  {
  }

  /** A found job is claimed or failed. */
  lemma VisitCounts(s: State, wid: nat)
    requires Sound(s) && IsFound(s, wid)
    ensures Sound(Visit(s, wid)) && VisitsLeft(Visit(s, wid)) <= VisitsLeft(s)
    ensures IsOpen(s) ==> VisitsLeft(Visit(s, wid)) < VisitsLeft(s)
  {
  }

  /** Found once more than there are attempts left, a job is settled, whatever its workers, crashes and cleaners did. */
  lemma {:induction false} EveryJobSettles(s: State, rs: seq<Round>)
    requires Sound(s) && AreRounds(s, rs)
    ensures Sound(AfterRounds(s, rs)) && VisitsLeft(AfterRounds(s, rs)) <= VisitsLeft(s)
    ensures |rs| >= VisitsLeft(s) ==> !IsOpen(AfterRounds(s, rs))
    decreases |rs|
  {
    if rs != [] {
      var t := Final(s, rs[0].before);
      RunKeepsVisits(s, rs[0].before);
      VisitCounts(t, rs[0].wid);
      hide Visit, Sound, IsFound, IsRun, Final;
      EveryJobSettles(Visit(t, rs[0].wid), rs[1..]);
    }
  }

  // ------------------------------------------------------------------ what the lease gives

  /** A worker is done, or has crashed, before the lease of its open job has run out. */
  predicate InTime(s: State, l: Label) {
    l.Tick? && s.workers != map[] && s.job.Some? && s.job.value.Open() ==> !s.job.value.Lapsed(l.now)
  }

  predicate InTimeRun(s: State, ls: seq<Label>)
    requires IsRun(s, ls)
    decreases |ls|
  {
    ls == [] || (InTime(s, ls[0]) && InTimeRun(Step(s, ls[0]), ls[1..]))
  }

  /** One worker at most, and it holds a running lease as long as the job is open. */
  ghost predicate Held(s: State) {
    && (forall a, b :: a in s.workers && b in s.workers ==> a == b)
    && (s.workers != map[] && s.job.Some? && s.job.value.Open() ==> !s.job.value.Lapsed(s.now))
  }

  /** Nobody claims or fails the job while a worker is at it. */
  predicate Calm(s: State, l: Label) {
    l.Claim? || l.FailExhausted? ==> s.workers == map[]
  }

  lemma StepHeld(s: State, l: Label)
    requires Held(s) && Enabled(s, l) && InTime(s, l)
    ensures Held(Step(s, l)) && Calm(s, l)
  {
    var t := Step(s, l);
    if l.Work? {
      forall a | a in t.workers ensures a == l.wid {
        assert a in s.workers;
      }
      if t.workers == map[] {
      } else {
        assert l.wid in t.workers;
      }
    }
  }

  lemma {:induction false} RunHeld(s: State, ls: seq<Label>)
    requires Held(s) && IsRun(s, ls) && InTimeRun(s, ls)
    ensures Held(Final(s, ls))
    decreases |ls|
  {
    hide Held;
    if ls != [] {
      StepHeld(s, ls[0]);
      RunHeld(Step(s, ls[0]), ls[1..]);
    }
  }

  /** The lease keeps workers apart: a claim, or the failing of an exhausted job, never meets another worker. */
  lemma LeaseExcludes(owner: nat, request: nat, now: int, ls: seq<Label>, l: Label)
    requires IsRun(Start(owner, request, now), ls) && InTimeRun(Start(owner, request, now), ls)
    requires Enabled(Final(Start(owner, request, now), ls), l)
    ensures var s := Final(Start(owner, request, now), ls);
            && (forall a, b :: a in s.workers && b in s.workers ==> a == b)
            && (l.Claim? || l.FailExhausted? ==> s.workers == map[])
  {
    RunHeld(Start(owner, request, now), ls);
  }

  /** The lease keeps workers apart after any steps in time. */
  ghost predicate StaysExclusive(s: State) {
    forall ls, l {:trigger Enabled(Final(s, ls), l)} ::
      IsRun(s, ls) && InTimeRun(s, ls) && Enabled(Final(s, ls), l) ==> Calm(Final(s, ls), l)
  }

  /** The condition is exact: a step is in time if and only if the lease goes on keeping workers apart after it. */
  lemma InTimeIsExact(s: State, l: Label)
    requires Held(s) && Enabled(s, l)
    ensures InTime(s, l) <==> StaysExclusive(Step(s, l))
  {
    var t := Step(s, l);
    if InTime(s, l) {
      StepHeld(s, l);
      hide Step, Enabled, Held;
      forall ls, k | IsRun(t, ls) && InTimeRun(t, ls) && Enabled(Final(t, ls), k) ensures Calm(Final(t, ls), k) {
        RunHeld(t, ls);
        InTimeOrTick(Final(t, ls), k);
      }
    } else {
      var wid :| wid in s.workers;
      var other := wid + 1;
      assert other !in t.workers by {
        assert other != wid;
      }
      assert Final(t, []) == t && t.workers == s.workers;
      assert Enabled(Final(t, []), Claim(other)) || Enabled(Final(t, []), FailExhausted);
    }
  }

  lemma InTimeOrTick(s: State, l: Label)
    requires Held(s) && Enabled(s, l)
    ensures Calm(s, l)
  {
    if !l.Tick? {
      StepHeld(s, l);
    }
  }

  // ------------------------------------------------------------------ when a ready job has its file

  predicate IsStored(s: State, j: Job) {
    j.file.Some? && j.checksum.Some? && j.file.value in s.objects && s.objects[j.file.value] == j.checksum.value.content
  }

  /** The worker may still upload, settle or remove its file. */
  predicate AtWork(w: Worker) {
    !w.pc.GiveUp?
  }

  /** Before the lease of a job with attempts left runs out, its workers are done, have crashed, or have given up. */
  predicate Timely(s: State, l: Label) {
    l.Tick? && s.job.Some? && s.job.value.Open() && s.job.value.attempts < MAX_ATTEMPTS && s.job.value.Lapsed(l.now) ==>
      forall a :: a in s.workers ==> !AtWork(s.workers[a])
  }

  predicate TimelyRun(s: State, ls: seq<Label>)
    requires IsRun(s, ls)
    decreases |ls|
  {
    ls == [] || (Timely(s, ls[0]) && TimelyRun(Step(s, ls[0]), ls[1..]))
  }

  /** Nobody else can claim the job of a worker at work, and while it is processed the worker's file is there. */
  predicate WorkerOk(s: State, w: Worker) {
    AtWork(w) && s.job.Some? ==>
      var j := s.job.value;
      && !j.status.Ready?
      && (j.Open() && j.attempts < MAX_ATTEMPTS ==> !j.Lapsed(s.now))
      && (j.status.Processing? ==> !w.pc.Drop? && (w.pc.Build? || (w.pc.file in s.objects && s.objects[w.pc.file] == w.pc.content)))
  }

  ghost predicate Kept(s: State) {
    && Sound(s)
    && (forall a, b :: a in s.workers && b in s.workers && AtWork(s.workers[a]) && AtWork(s.workers[b]) ==> a == b)
    && (forall a {:trigger s.workers[a]} :: a in s.workers ==> WorkerOk(s, s.workers[a]))
    && (s.job.Some? && s.job.value.status.Ready? && !s.job.value.Due(s.now) ==> IsStored(s, s.job.value))
    && (s.cleaners != map[] ==> s.job.Some? && s.job.value.Live() ==> s.job.value.Due(s.now))
  }

  lemma WorkKept(s: State, l: Label)
    requires Kept(s) && Enabled(s, l) && l.Work?
    ensures Kept(Step(s, l))
  {
    StepSound(s, l);
    hide Sound;
    assert WorkerOk(s, s.workers[l.wid]);
    var t := Step(s, l);
    forall a | a in t.workers ensures WorkerOk(t, t.workers[a]) {
      if a != l.wid {
        assert WorkerOk(s, s.workers[a]);
      }
    }
  }

  lemma OtherKept(s: State, l: Label)
    requires Kept(s) && Enabled(s, l) && Timely(s, l) && !l.Work?
    ensures Kept(Step(s, l))
  {
    StepSound(s, l);
    hide Sound;
    var t := Step(s, l);
    forall a | a in t.workers ensures WorkerOk(t, t.workers[a]) {
      if a in s.workers {
        assert WorkerOk(s, s.workers[a]);
      }
    }
  }

  lemma {:induction false} RunKept(s: State, ls: seq<Label>)
    requires Kept(s) && IsRun(s, ls) && TimelyRun(s, ls)
    ensures Kept(Final(s, ls))
    decreases |ls|
  {
    hide Kept, Timely;
    if ls != [] {
      if ls[0].Work? {
        WorkKept(s, ls[0]);
      } else {
        OtherKept(s, ls[0]);
      }
      RunKept(Step(s, ls[0]), ls[1..]);
    }
  }

  /** A ready job that is not yet due has its file in the store, with the recorded size and checksum. */
  lemma ReadyIsStored(owner: nat, request: nat, now: int, ls: seq<Label>)
    requires IsRun(Start(owner, request, now), ls) && TimelyRun(Start(owner, request, now), ls)
    ensures var s := Final(Start(owner, request, now), ls);
            s.job.Some? && s.job.value.status.Ready? && !s.job.value.Due(s.now) ==>
              var j := s.job.value;
              && j.file.Some? && j.file.value in s.objects
              && j.size == Some(|s.objects[j.file.value]|) && j.checksum == Some(Sha256(s.objects[j.file.value]))
  {
    RunKept(Start(owner, request, now), ls);
  }

  // ------------------------------------------------------------------ what becomes of a late worker

  lemma RunCons(s: State, l: Label, ls: seq<Label>)
    requires Enabled(s, l) && IsRun(Step(s, l), ls)
    ensures IsRun(s, [l] + ls) && Final(s, [l] + ls) == Final(Step(s, l), ls)
  {
    assert ([l] + ls)[1..] == ls;
  }

  lemma {:induction false} RunConcat(s: State, a: seq<Label>, b: seq<Label>)
    requires IsRun(s, a) && IsRun(Final(s, a), b)
    ensures IsRun(s, a + b) && Final(s, a + b) == Final(Final(s, a), b)
    decreases |a|
  {
    if a == [] {
      assert a + b == b;
    } else {
      assert (a + b)[0] == a[0] && (a + b)[1..] == a[1..] + b;
      RunConcat(Step(s, a[0]), a[1..], b);
    }
  }

  lemma RunSnoc(s: State, ls: seq<Label>, l: Label)
    requires IsRun(s, ls) && Enabled(Final(s, ls), l)
    ensures IsRun(s, ls + [l]) && Final(s, ls + [l]) == Step(Final(s, ls), l)
  {
    RunCons(Final(s, ls), l, []);
    assert [l] + [] == [l];
    RunConcat(s, ls, [l]);
  }

  /** The file a worker has in hand; one that is still building may build anything. */
  function FileOf(pc: Pc): string
    requires !pc.GiveUp?
  {
    if pc.Build? then "a.zip" else pc.file
  }

  function ContentOf(pc: Pc): Content {
    if pc.Confirm? || pc.Settle? then pc.content else []
  }

  lemma RunPair(s: State, k: Label, l: Label)
    requires Enabled(s, k) && Enabled(Step(s, k), l)
    ensures IsRun(s, [k, l]) && Final(s, [k, l]) == Step(Step(s, k), l)
  {
    RunCons(Step(s, k), l, []);
    RunCons(s, k, [l] + []);
    assert [k, l] == [k] + ([l] + []);
  }

  /** A second worker claims the job and publishes the file the first one has in hand. */
  function Overtaking(wid: nat, file: string, content: Content): seq<Label> {
    [Claim(wid), Work(wid, DoUpload(file, content, Done))] + [Work(wid, DoConfirm), Work(wid, DoSettle(Done))]
  }

  lemma PublishingRuns(s: State, wid: nat, file: string, content: Content)
    requires wid in s.workers && s.workers[wid].pc == Confirm(file, content) && file in s.objects && s.objects[file] == content
    requires s.job.Some? && s.job.value.status.Processing?
    ensures var ls := [Work(wid, DoConfirm), Work(wid, DoSettle(Done))];
            && IsRun(s, ls)
            && Final(s, ls) == s.(job := Some(MadeReady(s.job.value, file, content, s.now)), workers := s.workers - {wid})
  {
    var t := Step(s, Work(wid, DoConfirm));
    assert t.workers - {wid} == s.workers - {wid};
    RunPair(s, Work(wid, DoConfirm), Work(wid, DoSettle(Done)));
  }

  lemma OvertakingRuns(s: State, wid: nat, file: string, content: Content)
    requires Enabled(s, Claim(wid))
    ensures var ls := Overtaking(wid, file, content);
            && IsRun(s, ls)
            && Final(s, ls) == s.(job := Some(MadeReady(Claimed(s.job.value, s.now), file, content, s.now)),
                                  claims := s.claims + 1, objects := s.objects[file := content])
  {
    hide IsRun, Final;
    var upload := Work(wid, DoUpload(file, content, Done));
    RunPair(s, Claim(wid), upload);
    var t := Step(Step(s, Claim(wid)), upload);
    PublishingRuns(t, wid, file, content);
    assert t.workers - {wid} == s.workers;
    RunConcat(s, [Claim(wid), upload], [Work(wid, DoConfirm), Work(wid, DoSettle(Done))]);
  }

  /** The first worker comes back: its update is refused, and it removes the file. */
  function Returning(wid: nat, pc: Pc): seq<Label>
    requires !pc.GiveUp?
    decreases if pc.Build? then 3 else if pc.Confirm? then 2 else if pc.Settle? then 1 else 0
  {
    match pc
    case Build => [Work(wid, DoUpload(FileOf(pc), [], Done))] + Returning(wid, Confirm(FileOf(pc), []))
    case Confirm(file, content) => [Work(wid, DoConfirm)] + Returning(wid, Settle(file, content))
    case Settle(file, _) => [Work(wid, DoSettle(Done))] + Returning(wid, Drop(file))
    case Drop(_) => [Work(wid, DoDrop(Done))]
  }

  lemma {:induction false} ReturningRuns(s: State, wid: nat)
    requires wid in s.workers && !s.workers[wid].pc.GiveUp? && s.job.Some? && s.job.value.status.Ready?
    requires var pc := s.workers[wid].pc; FileOf(pc) in s.objects && (pc.Confirm? ==> s.objects[pc.file] == pc.content)
    ensures var ls := Returning(wid, s.workers[wid].pc);
            IsRun(s, ls) && Final(s, ls).job == s.job && Final(s, ls).now == s.now && FileOf(s.workers[wid].pc) !in Final(s, ls).objects
    decreases match s.workers[wid].pc case Build => 3 case Confirm(_, _) => 2 case Settle(_, _) => 1 case _ => 0
  {
    var pc := s.workers[wid].pc;
    var l := Returning(wid, pc)[0];
    if pc.Drop? {
      RunCons(s, l, []);
      assert [l] + [] == [l];
    } else {
      ReturningRuns(Step(s, l), wid);
      RunCons(s, l, Returning(wid, Step(s, l).workers[wid].pc));
    }
  }

  function LateRun(s: State, wid: nat, other: nat): seq<Label>
    requires wid in s.workers && !s.workers[wid].pc.GiveUp?
  {
    var pc := s.workers[wid].pc;
    Overtaking(other, FileOf(pc), ContentOf(pc)) + Returning(wid, pc)
  }

  predicate LosesTheFile(s: State) {
    s.job.Some? && s.job.value.status.Ready? && !s.job.value.Due(s.now) && !IsStored(s, s.job.value)
  }

  /**
   Wherever a claim succeeds while an other worker has not given up, the job may end ready with its
   file gone: the late worker removes it.
   */
  lemma LateWorkerDeletesTheFile(s: State, wid: nat, other: nat)
    requires Enabled(s, Claim(other)) && wid in s.workers && !s.workers[wid].pc.GiveUp?
    ensures IsRun(s, LateRun(s, wid, other)) && LosesTheFile(Final(s, LateRun(s, wid, other)))
  {
    hide IsRun, Final;
    var pc := s.workers[wid].pc;
    var ls := Overtaking(other, FileOf(pc), ContentOf(pc));
    OvertakingRuns(s, other, FileOf(pc), ContentOf(pc));
    ReturningRuns(Final(s, ls), wid);
    RunConcat(s, ls, Returning(wid, pc));
  }

  /** So the lease must not run out on a worker at work while attempts are left. */
  lemma OverdueWorkerMayDeleteTheFile(s: State, l: Label, wid: nat, other: nat)
    requires Enabled(s, l) && !Timely(s, l)
    requires wid in s.workers && AtWork(s.workers[wid]) && other !in s.workers
    ensures var ls := [l] + LateRun(Step(s, l), wid, other);
            IsRun(s, ls) && LosesTheFile(Final(s, ls))
  {
    hide IsRun, Final;
    LateWorkerDeletesTheFile(Step(s, l), wid, other);
    RunCons(s, l, LateRun(Step(s, l), wid, other));
  }

  /** No run of timely steps ends with a ready job whose file is gone. */
  ghost predicate KeepsTheFile(s: State) {
    forall ls {:trigger Final(s, ls)} :: IsRun(s, ls) && TimelyRun(s, ls) ==> !LosesTheFile(Final(s, ls))
  }

  lemma {:induction false} WithoutTicks(s: State, ls: seq<Label>)
    requires IsRun(s, ls) && forall l :: l in ls ==> !l.Tick?
    ensures TimelyRun(s, ls)
    decreases |ls|
  {
    if ls != [] {
      assert ls[0] in ls && forall l :: l in ls[1..] ==> l in ls;
      WithoutTicks(Step(s, ls[0]), ls[1..]);
    }
  }

  lemma {:induction false} ReturningHasNoTick(wid: nat, pc: Pc)
    requires !pc.GiveUp?
    ensures forall l :: l in Returning(wid, pc) ==> !l.Tick?
    decreases if pc.Build? then 3 else if pc.Confirm? then 2 else if pc.Settle? then 1 else 0
  {
    match pc
    case Build => ReturningHasNoTick(wid, Confirm(FileOf(pc), []));
    case Confirm(file, content) => ReturningHasNoTick(wid, Settle(file, content));
    case Settle(file, _) => ReturningHasNoTick(wid, Drop(file));
    case Drop(_) =>
  }

  lemma LateRunIsTimely(s: State, wid: nat, other: nat)
    requires wid in s.workers && !s.workers[wid].pc.GiveUp? && IsRun(s, LateRun(s, wid, other))
    ensures TimelyRun(s, LateRun(s, wid, other))
  {
    ReturningHasNoTick(wid, s.workers[wid].pc);
    WithoutTicks(s, LateRun(s, wid, other));
  }

  /** There is always an unused id. */
  lemma {:induction false} FreshId(ids: set<nat>) returns (id: nat)
    ensures id !in ids && forall k :: k in ids ==> k < id
    decreases ids
  {
    id := 0;
    if ids != {} {
      var k :| k in ids;
      var below := FreshId(ids - {k});
      id := if below <= k then k + 1 else below;
      assert forall j :: j in ids ==> j == k || j in ids - {k};
    }
  }

  /**
   The condition is exact: after a step, the file of a ready job is safe in all timely runs if and
   only if the step is timely itself.
   */
  lemma TimelyIsExact(s: State, l: Label)
    requires Kept(s) && Enabled(s, l)
    ensures Timely(s, l) <==> KeepsTheFile(Step(s, l))
  {
    var t := Step(s, l);
    if Timely(s, l) {
      if l.Work? {
        WorkKept(s, l);
      } else {
        OtherKept(s, l);
      }
      hide Step, Enabled;
      forall ls | IsRun(t, ls) && TimelyRun(t, ls) ensures !LosesTheFile(Final(t, ls)) {
        RunKept(t, ls);
      }
    } else {
      var wid :| wid in s.workers && AtWork(s.workers[wid]);
      var other := FreshId(s.workers.Keys);
      assert t == s.(now := l.now) && Enabled(t, Claim(other));
      hide Kept, Timely, Step, Enabled;
      LateWorkerDeletesTheFile(t, wid, other);
      LateRunIsTimely(t, wid, other);
    }
  }

  /** From the start: one worker claims the job and is suspended for longer than the lease. */
  lemma LeaseRunsOut(owner: nat, request: nat, now: int)
    ensures var s := Start(owner, request, now);
            var t := Step(s, Claim(0));
            var ls := [Claim(0)] + ([Tick(now + LEASE_SECONDS + 1)] + LateRun(Step(t, Tick(now + LEASE_SECONDS + 1)), 0, 1));
            IsRun(s, ls) && LosesTheFile(Final(s, ls))
  {
    hide IsRun, Final;
    var s := Start(owner, request, now);
    var t := Step(s, Claim(0));
    var l := Tick(now + LEASE_SECONDS + 1);
    assert 0 in t.workers && AtWork(t.workers[0]);
    OverdueWorkerMayDeleteTheFile(t, l, 0, 1);
    RunCons(s, Claim(0), [l] + LateRun(Step(t, l), 0, 1));
  }

  // ------------------------------------------------------------------ all jobs together

  datatype TableLabel =
    | At(id: nat, step: Label)
    | Insert(id: nat, owner: nat, request: nat, now: int)

  /** All jobs ever created, by id. */
  type Table = map<nat, State>

  predicate IsLive(s: State) {
    s.job.Some? && s.job.value.Live()
  }

  predicate SameRequest(s: State, owner: nat, request: nat) {
    s.job.Some? && s.job.value.owner == owner && s.job.value.request == request
  }

  predicate TableEnabled(t: Table, l: TableLabel) {
    match l
    case At(id, step) => id in t && Enabled(t[id], step)
    case Insert(id, _, _, _) => id !in t
  }

  /** The partial unique index: no second live job of an owner for the same request. */
  function TableStep(t: Table, l: TableLabel): Table
    requires TableEnabled(t, l)
  {
    match l
    case At(id, step) => t[id := Step(t[id], step)]
    case Insert(id, owner, request, now) =>
      if exists k :: k in t && IsLive(t[k]) && SameRequest(t[k], owner, request) then t
      else t[id := Start(owner, request, now)]
  }

  predicate IsTableRun(t: Table, ls: seq<TableLabel>)
    decreases |ls|
  {
    ls == [] || (TableEnabled(t, ls[0]) && IsTableRun(TableStep(t, ls[0]), ls[1..]))
  }

  function TableFinal(t: Table, ls: seq<TableLabel>): Table
    requires IsTableRun(t, ls)
    decreases |ls|
  {
    if ls == [] then t else TableFinal(TableStep(t, ls[0]), ls[1..])
  }

  ghost predicate OneLiveEach(t: Table) {
    && (forall k :: k in t ==> Sound(t[k]))
    && (forall a, b :: a in t && b in t && a != b && IsLive(t[a]) && IsLive(t[b]) ==>
          !SameRequest(t[a], t[b].job.value.owner, t[b].job.value.request))
  }

  lemma TableStepOneLive(t: Table, l: TableLabel)
    requires OneLiveEach(t) && TableEnabled(t, l)
    ensures OneLiveEach(TableStep(t, l))
  {
    if l.At? {
      StepSound(t[l.id], l.step);
      hide Step, Sound;
    } else {
      assert Sound(Start(l.owner, l.request, l.now));
      hide Sound;
    }
  }

  /** At most one live job per owner and request, in every run of creations, workers and clean-ups. */
  lemma {:induction false} OneLiveJobPerRequest(t: Table, ls: seq<TableLabel>)
    requires OneLiveEach(t) && IsTableRun(t, ls)
    ensures OneLiveEach(TableFinal(t, ls))
    decreases |ls|
  {
    hide OneLiveEach;
    if ls != [] {
      TableStepOneLive(t, ls[0]);
      OneLiveJobPerRequest(TableStep(t, ls[0]), ls[1..]);
    }
  }
}
