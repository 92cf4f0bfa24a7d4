/**
 The methods of the export service (app/exports/service.py) on the job row and its stored objects,
 as they run when nobody else is in between. Each is proved to be a run of `ExportJobs`; creation
 works on the table of all jobs.
 */
module ExportService {
  import opened ExportJobs
  import opened Mp4Boxes
  import opened Wrappers

  // ------------------------------------------------------------------ runs of one worker

  /** How building the file and the calls after it turn out. */
  datatype Fate =
    | BuildFails(permanent: bool)
    | Builds(file: string, content: Content, uploadIo: Io, settleIo: Io)

  function ProcessLabels(wid: nat, fate: Fate): seq<Label> {
    [Claim(wid)] +
    match fate
    case BuildFails(permanent) => [Work(wid, DoError(permanent)), Work(wid, DoGiveUp)]
    case Builds(file, content, uploadIo, settleIo) =>
      [Work(wid, DoUpload(file, content, uploadIo))] +
      if !uploadIo.Done? then [Work(wid, DoGiveUp)]
      else [Work(wid, DoConfirm), Work(wid, DoSettle(settleIo))] + if settleIo.Done? then [] else [Work(wid, DoGiveUp)]
  }

  /** The job after a claim that is processed to the end. */
  function Processed(j: Job, now: int, fate: Fate): Job {
    var c := Claimed(j, now);
    match fate
    case BuildFails(permanent) => if permanent || c.attempts >= MAX_ATTEMPTS then MadeFailed(c) else Released(c, now)
    case Builds(file, content, uploadIo, settleIo) =>
      if uploadIo.Done? && !settleIo.Lost? then MadeReady(c, file, content, now)
      else if c.attempts >= MAX_ATTEMPTS then MadeFailed(c)
      else Released(c, now)
  }

  function ObjectsLeft(objects: map<string, Content>, fate: Fate): map<string, Content> {
    if fate.Builds? && !fate.uploadIo.Lost? then objects[fate.file := fate.content] else objects
  }

  /** The worker's part of the state, and the rest. */
  ghost predicate Stands(s: State, t: State, wid: nat, j: Job, objects: map<string, Content>, pc: Option<Pc>)
    requires s.job.Some?
  {
    && t.job == Some(j) && t.objects == objects && t.now == s.now && t.cleaners == s.cleaners && t.claims == s.claims + 1
    && t.workers == if pc.Some? then s.workers[wid := Worker(s.job.value.attempts + 1, pc.value)] else s.workers
  }

  lemma ClaimStands(s: State, wid: nat)
    requires Enabled(s, Claim(wid))
    ensures IsRun(s, [Claim(wid)])
    ensures Stands(s, Final(s, [Claim(wid)]), wid, Claimed(s.job.value, s.now), s.objects, Some(Build))
  {
    RunSnoc(s, [], Claim(wid));
    assert [] + [Claim(wid)] == [Claim(wid)];
  }

  lemma WorkStands(s: State, run: seq<Label>, wid: nat, j: Job, objects: map<string, Content>, pc: Pc, c: Call)
    requires wid !in s.workers && s.job.Some? && IsRun(s, run) && Stands(s, Final(s, run), wid, j, objects, Some(pc))
    requires Awaits(pc, c)
    ensures IsRun(s, run + [Work(wid, c)])
    ensures var t := Final(s, run);
            var w := Worker(s.job.value.attempts + 1, pc);
            Stands(s, Final(s, run + [Work(wid, c)]), wid, JobAfter(t, w, c).value, ObjectsAfter(t, w, c), PcAfter(t, w, c))
  {
    RunSnoc(s, run, Work(wid, c));
    assert s.workers[wid := Worker(s.job.value.attempts + 1, pc)] - {wid} == s.workers;
  }

  lemma ProcessRuns(s: State, wid: nat, fate: Fate)
    requires Enabled(s, Claim(wid))
    ensures var ls := ProcessLabels(wid, fate);
            && IsRun(s, ls)
            && Stands(s, Final(s, ls), wid, Processed(s.job.value, s.now, fate), ObjectsLeft(s.objects, fate), None)
  {
    ClaimStands(s, wid);
    var j := Claimed(s.job.value, s.now);
    assert wid !in s.workers && s.job.Some?;
    hide IsRun, Final, Enabled;
    var run := [Claim(wid)];
    match fate
    case BuildFails(permanent) =>
      WorkStands(s, run, wid, j, s.objects, Build, DoError(permanent));
      run := run + [Work(wid, DoError(permanent))];
      WorkStands(s, run, wid, j, s.objects, GiveUp(permanent), DoGiveUp);
      assert run + [Work(wid, DoGiveUp)] == ProcessLabels(wid, fate);
    case Builds(file, content, uploadIo, settleIo) =>
      UploadRuns(s, run, wid, j, fate);
  }

  lemma UploadRuns(s: State, start: seq<Label>, wid: nat, j: Job, fate: Fate)
    requires fate.Builds? && wid !in s.workers && s.job.Some? && j == Claimed(s.job.value, s.now)
    requires start == [Claim(wid)] && IsRun(s, start) && Stands(s, Final(s, start), wid, j, s.objects, Some(Build))
    ensures var ls := ProcessLabels(wid, fate);
            && IsRun(s, ls)
            && Stands(s, Final(s, ls), wid, Processed(s.job.value, s.now, fate), ObjectsLeft(s.objects, fate), None)
  {
    hide IsRun, Final, Enabled;
    var upload, settle := DoUpload(fate.file, fate.content, fate.uploadIo), DoSettle(fate.settleIo);
    WorkStands(s, start, wid, j, s.objects, Build, upload);
    var run := start + [Work(wid, upload)];
    var objects := ObjectsLeft(s.objects, fate);
    if !fate.uploadIo.Done? {
      WorkStands(s, run, wid, j, objects, GiveUp(false), DoGiveUp);
      assert run + [Work(wid, DoGiveUp)] == ProcessLabels(wid, fate);
    } else {
      WorkStands(s, run, wid, j, objects, Confirm(fate.file, fate.content), DoConfirm);
      run := run + [Work(wid, DoConfirm)];
      WorkStands(s, run, wid, j, objects, Settle(fate.file, fate.content), settle);
      run := run + [Work(wid, settle)];
      if fate.settleIo.Done? {
        assert run == ProcessLabels(wid, fate);
      } else {
        var j' := if fate.settleIo.Lost? then j else MadeReady(j, fate.file, fate.content, s.now);
        WorkStands(s, run, wid, j', objects, GiveUp(false), DoGiveUp);
        assert run + [Work(wid, DoGiveUp)] == ProcessLabels(wid, fate);
      }
    }
  }

  // ------------------------------------------------------------------ the service

  /** What the WHERE clause of a claim asks for. */
  predicate IsClaimable(job: Option<Job>, now: int) {
    && job.Some? && job.value.status in {Pending, Processing} && job.value.attempts < MAX_ATTEMPTS
    && (job.value.lease == None || job.value.lease.value < now)
  }

  /** A published job: its file with size and checksum, no lease, and the retention from now on. */
  function Published(j: Job, file: string, content: Content, now: int): Job {
    j.(status := Ready, file := Some(file), size := Some(|content|), checksum := Some(Sha256(content)), lease := None,
       expires := Some(now + RETENTION_SECONDS))
  }

  /** How a claimed job ends that was processed while nobody else was in between. */
  function Outcome(j: Job, fate: Fate, now: int): Job {
    var attempts := j.attempts + 1;
    var failed := j.(status := Failed, attempts := attempts, lease := None);
    var again := j.(status := Pending, attempts := attempts, lease := Some(now + BACKOFF_SECONDS));
    match fate
    case BuildFails(permanent) => if permanent || attempts >= MAX_ATTEMPTS then failed else again
    case Builds(file, content, uploadIo, settleIo) =>
      if uploadIo == Done && settleIo != Lost then Published(j.(attempts := attempts), file, content, now)
      else if attempts >= MAX_ATTEMPTS then failed
      else again
  }

  class Service {
    var job: Option<Job>
    var objects: map<string, Content>
    var now: int
    ghost var model: State

    constructor (owner: nat, request: nat, time: int)
      ensures Valid() && model == Start(owner, request, time)
    {
      job, objects, now, model := Some(NewJob(owner, request)), map[], time, Start(owner, request, time);
    }

    ghost predicate Valid()
      reads this
    {
      model.job == job && model.objects == objects && model.now == now
    }

    /** `_claim`: one UPDATE with its guard; the attempt count if it matched. */
    method ClaimJob() returns (attempt: Option<nat>)
      modifies `job
      ensures if IsClaimable(old(job), now)
              then attempt == Some(old(job).value.attempts + 1)
                   && job == Some(old(job).value.(status := Processing, attempts := old(job).value.attempts + 1,
                                                  lease := Some(now + LEASE_SECONDS)))
              else job == old(job) && attempt == None
    {
      if job.None? || !(job.value.status.Pending? || job.value.status.Processing?) || job.value.attempts >= MAX_ATTEMPTS {
        return None;
      }
      if job.value.lease.Some? && job.value.lease.value >= now {
        return None;
      }
      job := Some(job.value.(status := Processing, attempts := job.value.attempts + 1, lease := Some(now + LEASE_SECONDS)));
      return Some(job.value.attempts);
    }

    /** `_fail` */
    method Fail()
      modifies `job
      ensures job == if old(job).Some? && old(job).value.status in {Pending, Processing}
                     then Some(old(job).value.(status := Failed, lease := None)) else old(job)
    {
      if job.Some? && (job.value.status.Pending? || job.value.status.Processing?) {
        job := Some(job.value.(status := Failed, lease := None));
      }
    }

    /** The transient end of `process`: back to pending, with a pause. */
    method Release()
      modifies `job
      ensures job == if old(job).Some? && old(job).value.status == Processing
                     then Some(old(job).value.(status := Pending, lease := Some(now + BACKOFF_SECONDS))) else old(job)
    {
      if job.Some? && job.value.status.Processing? {
        job := Some(job.value.(status := Pending, lease := Some(now + BACKOFF_SECONDS)));
      }
    }

    /** The update that publishes the file; false if the job is not being processed any more. */
    method SetReady(file: string, content: Content) returns (ok: bool)
      modifies `job
      ensures ok == (old(job).Some? && old(job).value.status == Processing)
      ensures job == if ok then Some(Published(old(job).value, file, content, now)) else old(job)
    {
      if job.None? || !job.value.status.Processing? {
        return false;
      }
      job := Some(MadeReady(job.value, file, content, now));
      return true;
    }

    /** The end of `_produce`; a file the job no longer wants is removed. False if a call of these reported an error. */
    method Settle(file: string, content: Content, settleIo: Io, dropIo: Io) returns (settled: bool)
      modifies `job, `objects
      ensures job == if !settleIo.Lost? && old(job).Some? && old(job).value.status == Processing
                     then Some(Published(old(job).value, file, content, now)) else old(job)
      ensures var refused := old(job).None? || !old(job).value.status.Processing?;
              && settled == (settleIo.Done? && (refused ==> dropIo.Done?))
              && objects == if settleIo.Done? && refused && !dropIo.Lost? then old(objects) - {file} else old(objects)
    {
      var ok := false;
      if !settleIo.Lost? {
        ok := SetReady(file, content);
      }
      if !settleIo.Done? {
        return false;
      }
      if ok {
        return true;
      }
      if !dropIo.Lost? {
        objects := objects - {file};
      }
      return dropIo.Done?;
    }

    /** `process`: claim, build, upload, confirm, settle; and what follows an exception. */
    method Process(fate: Fate, ghost wid: nat)
      requires Valid() && wid !in model.workers
      modifies this
      ensures Valid()
      ensures if Enabled(old(model), Claim(wid)) then
                var ls := ProcessLabels(wid, fate);
                IsRun(old(model), ls) && model == Final(old(model), ls)
              else model == old(model)
      ensures if IsClaimable(old(job), now) then
                && job == Some(Outcome(old(job).value, fate, now))
                && objects == if fate.Builds? && fate.uploadIo != Lost then old(objects)[fate.file := fate.content] else old(objects)
              else job == old(job) && objects == old(objects)
    {
      hide IsRun, Final;
      ghost var start := model;
      var attempt := ClaimJob();
      if attempt.None? {
        assert !Enabled(start, Claim(wid));
        return;
      }
      ProcessRuns(start, wid, fate);
      model := Final(start, ProcessLabels(wid, fate));
      hide Enabled;
      var permanent := false;
      match fate {
        case BuildFails(gone) =>
          permanent := gone;
        case Builds(file, content, uploadIo, settleIo) =>
          if !uploadIo.Lost? {
            objects := objects[file := content];
          }
          if uploadIo.Done? && file in objects && |objects[file]| == |content| {
            var settled := Settle(file, content, settleIo, Done);
            if settled {
              return;
            }
          }
      }
      if permanent || attempt.value >= MAX_ATTEMPTS {
        Fail();
      } else {
        Release();
      }
    }

    /** `_fail_exhausted` */
    method FailExhaustedJobs()
      requires Valid()
      modifies this
      ensures Valid()
      ensures model == if Enabled(old(model), FailExhausted) then Step(old(model), FailExhausted) else old(model)
      ensures now == old(now) && objects == old(objects)
      ensures job == if old(job).Some? && old(job).value.status in {Pending, Processing} && old(job).value.attempts >= MAX_ATTEMPTS
                        && (old(job).value.lease == None || old(job).value.lease.value < now)
                     then Some(old(job).value.(status := Failed, lease := None)) else old(job)
    {
      if job.Some? && (job.value.status.Pending? || job.value.status.Processing?) && job.value.attempts >= MAX_ATTEMPTS {
        if job.value.lease.None? || job.value.lease.value < now {
          model := Step(model, FailExhausted);
          job := Some(job.value.(status := Failed, lease := None));
        }
      }
    }

    /** The first part of `cleanup`: an export past its retention loses its object, then its row expires. */
    method ExpireDue(ghost cid: nat)
      requires Valid() && cid !in model.cleaners
      modifies this
      ensures Valid()
      ensures if old(job).Some? && old(job).value.Due(now) then
                var ls := [Scan(cid), Clean(cid), Clean(cid)];
                IsRun(old(model), ls) && model == Final(old(model), ls)
              else model == old(model)
      ensures now == old(now)
      ensures if old(job).Some? && old(job).value.status == Ready && old(job).value.expires.Some? && old(job).value.expires.value < now
              then
                && job == Some(old(job).value.(status := Expired, file := None))
                && objects == if old(job).value.file.Some? then old(objects) - {old(job).value.file.value} else old(objects)
              else job == old(job) && objects == old(objects)
    {
      if job.Some? && job.value.status.Ready? && job.value.expires.Some? && job.value.expires.value < now {
        CleanRuns(model, cid);
        model := Final(model, [Scan(cid), Clean(cid), Clean(cid)]);
        var file := job.value.file;
        if file.Some? {
          objects := objects - {file.value};
        }
        if job.value.status.Ready? {
          job := Some(job.value.(status := Expired, file := None));
        }
      }
    }
  }

  lemma CleanRuns(s: State, cid: nat)
    requires s.job.Some? && s.job.value.Due(s.now) && cid !in s.cleaners
    ensures var ls := [Scan(cid), Clean(cid), Clean(cid)];
            && IsRun(s, ls)
            && var t := Final(s, ls);
               && t.job == Some(s.job.value.(status := Expired, file := None)) && t.now == s.now
               && t.objects == (if s.job.value.file.Some? then s.objects - {s.job.value.file.value} else s.objects)
  {
    var s1 := Step(s, Scan(cid));
    var s2 := Step(s1, Clean(cid));
    RunCons(s2, Clean(cid), []);
    RunCons(s1, Clean(cid), [Clean(cid)]);
    RunCons(s, Scan(cid), [Clean(cid)] + [Clean(cid)]);
    assert [Scan(cid)] + ([Clean(cid)] + [Clean(cid)]) == [Scan(cid), Clean(cid), Clean(cid)];
    assert [Clean(cid)] + [] == [Clean(cid)];
  }

  // ------------------------------------------------------------------ creation

  datatype Creation = Existing(id: nat) | New(id: nat) | LimitReached

  /** `create` is asked again for what this job is. */
  predicate Answers(j: Job, owner: nat, request: nat) {
    j.owner == owner && j.request == request && j.Live()
  }

  /** What the unique index guarantees. */
  ghost predicate IndexHolds(jobs: map<nat, Job>) {
    forall a, b {:trigger jobs[a], jobs[b]} ::
      a in jobs && b in jobs && a != b && jobs[a].Live() ==> !Answers(jobs[b], jobs[a].owner, jobs[a].request)
  }

  function Refreshed(jobs: map<nat, Job>, owner: nat, request: nat, now: int): map<nat, Job> {
    map k | k in jobs ::
      if jobs[k].owner == owner && jobs[k].request == request && jobs[k].Due(now) then jobs[k].(status := Expired) else jobs[k]
  }

  function OpenJobs(jobs: map<nat, Job>, owner: nat): set<nat> {
    set k | k in jobs && jobs[k].owner == owner && jobs[k].Open()
  }

  /** The finished export of this request, past its retention. */
  predicate IsOverdue(j: Job, owner: nat, request: nat, now: int) {
    j.owner == owner && j.request == request && j.status == Ready && j.expires.Some? && j.expires.value < now
  }

  /** An export of this request that is under way, or finished and not past its retention. */
  predicate IsReusable(j: Job, owner: nat, request: nat, now: int) {
    && j.owner == owner && j.request == request
    && (j.status == Pending || j.status == Processing || (j.status == Ready && !IsOverdue(j, owner, request, now)))
  }

  class Exports {
    var jobs: map<nat, Job>

    constructor ()
      ensures jobs == map[] && IndexHolds(jobs)
    {
      jobs := map[];
    }

    /**
     `create`: an export under way, or finished and not past its retention, is reused as it is. Without
     one there is a new job, unless the owner has too many under way; then the transaction is rolled
     back. Otherwise a finished export past its retention expires, and nothing else changes.
     */
    method Create(id: nat, owner: nat, request: nat, now: int, maxLive: nat) returns (r: Creation)
      requires IndexHolds(jobs) && id !in jobs
      modifies this
      ensures IndexHolds(jobs)
      ensures forall k :: k in old(jobs) && IsReusable(old(jobs)[k], owner, request, now) ==> r == Existing(k)
      ensures r.Existing? ==> r.id in old(jobs) && IsReusable(old(jobs)[r.id], owner, request, now)
      ensures !r.Existing? ==>
        var underWay := set k | k in old(jobs) && old(jobs)[k].owner == owner && old(jobs)[k].status in {Pending, Processing};
        r == if |underWay| >= maxLive then LimitReached else New(id)
      ensures jobs.Keys == old(jobs).Keys + (if r.New? then {id} else {})
      ensures r.New? ==> jobs[id] == Job(owner, request, Pending, 0, None, None, None, None, None)
      ensures forall k :: k in old(jobs) ==>
        jobs[k] == if !r.LimitReached? && IsOverdue(old(jobs)[k], owner, request, now) then old(jobs)[k].(status := Expired)
                   else old(jobs)[k]
      ensures !r.LimitReached? ==>
        Answers(jobs[r.id], owner, request) && !jobs[r.id].Due(now) &&
        forall k :: k in jobs && Answers(jobs[k], owner, request) ==> k == r.id
    {
      var before := jobs;
      jobs := Refreshed(jobs, owner, request, now);
      var open := |OpenJobs(jobs, owner)|;
      SameOpen(before, owner, request, now);
      StillAnswers(before, owner, request, now);
      if k :| k in jobs && Answers(jobs[k], owner, request) {
        return Existing(k);
      }
      if open >= maxLive {
        jobs := before;
        return LimitReached;
      }
      jobs := jobs[id := NewJob(owner, request)];
      return New(id);
    }
  }

  lemma StillAnswers(jobs: map<nat, Job>, owner: nat, request: nat, now: int)
    ensures forall k :: k in jobs ==>
      (Answers(Refreshed(jobs, owner, request, now)[k], owner, request) <==> IsReusable(jobs[k], owner, request, now))
  {
  }

  lemma SameOpen(jobs: map<nat, Job>, owner: nat, request: nat, now: int)
    ensures OpenJobs(Refreshed(jobs, owner, request, now), owner) == OpenJobs(jobs, owner)
    ensures OpenJobs(jobs, owner) == set k | k in jobs && jobs[k].owner == owner && jobs[k].status in {Pending, Processing}
  {
  }
}
