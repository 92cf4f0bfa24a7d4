/**
 The stored video of a ready row: when it is certain to be there, exactly, and when it is never
 rendered again. The store has one key for all advances of an artifact, so a second advance may
 overwrite or delete what the first one has published.
 */
module ArtifactVideo {
  import opened ArtifactGuarantees
  import opened ArtifactLifecycle
  import opened Mp4Boxes
  import opened Wrappers

  ghost predicate Stored(x: World) {
    x.stored.Some? && Valid(x.stored.value)
  }

  /** A ready row's video is in the store. */
  predicate VideoIsThere(x: World) {
    x.row.status.Ready? ==> x.row.checksum.Some? && x.stored == Some(x.row.checksum.value.content)
  }

  /** Nobody is about to mark the row ready for a video that he has seen in the store. */
  predicate NobodyReliesOnIt(s: State) {
    !s.world.row.status.Ready? && forall pid :: pid in s.workers ==> !s.workers[pid].pc.Adopt? && !s.workers[pid].pc.Publish?
  }

  /** The step keeps advances apart, and an object is lost only while nobody relies on it. */
  ghost predicate Careful(s: State, l: Label) {
    InTime(s, l) && (l.LoseObject? ==> NobodyReliesOnIt(s))
  }

  ghost predicate CarefulRun(s: State, ls: seq<Label>)
    requires IsRun(s, ls)
    decreases |ls|
  {
    ls == [] || (Careful(s, ls[0]) && CarefulRun(Step(s, ls[0]), ls[1..]))
  }

  /** What the worker has seen of the store is still so. */
  ghost predicate StoreFits(x: World, pc: Pc) {
    match pc
    case Discard => !Stored(x)
    case Adopt(video) => x.stored == Some(video)
    case Submit => !Stored(x)
    case Enqueue(_) => !Stored(x)
    case Download => !Stored(x)
    case Store(_) => !Stored(x)
    case Confirm(video) => x.stored.Some? ==> x.stored == Some(video)
    case Publish(video) => x.stored == Some(video)
    case _ => true
  }

  ghost predicate Orderly(s: State) {
    && Tracked(s)
    && VideoIsThere(s.world)
    && (forall pid :: pid in s.workers ==> StoreFits(s.world, s.workers[pid].pc))
  }

  lemma CallOrderly(x: World, w: Worker, c: Call)
    requires RowOk(x.row) && WorkerOk(w) && Following(x.row, w) && Awaits(w.pc, c)
    requires VideoIsThere(x) && StoreFits(x, w.pc)
    requires x.row.status !in ACTIVE ==> w.pc.Finish?
    ensures var y := World(RowAfter(x, w, c), ObjectAfter(x, w, c));
            && VideoIsThere(y)
            && (!c.DoFinish? ==> StoreFits(y, WorkerAfter(x, w, c).pc))
  {
  }

  lemma StepOrderly(s: State, l: Label)
    requires Orderly(s) && Enabled(s, l) && Careful(s, l)
    ensures Orderly(Step(s, l))
  {
    StepTracked(s, l);
    if l.Work? {
      assert Held(s) && Following(s.world.row, s.workers[l.pid]);
      CallOrderly(s.world, s.workers[l.pid], l.call);
      hide RowAfter, ObjectAfter, WorkerAfter, Held, InTime, StoreFits;
    }
    hide Tracked;
  }

  lemma {:induction false} RunOrderly(s: State, ls: seq<Label>)
    requires Orderly(s) && IsRun(s, ls) && CarefulRun(s, ls)
    ensures Orderly(Final(s, ls))
    decreases |ls|
  {
    hide Orderly;
    if ls != [] {
      StepOrderly(s, ls[0]);
      RunOrderly(Step(s, ls[0]), ls[1..]);
    }
  }

  /** A ready row's video is in the store, with the recorded size and checksum. */
  lemma ReadyIsStored(id: nat, now: int, ls: seq<Label>)
    requires IsRun(Fresh(id, now), ls) && CarefulRun(Fresh(id, now), ls)
    requires Final(Fresh(id, now), ls).world.row.status.Ready?
    ensures var x := Final(Fresh(id, now), ls).world;
            x.stored.Some? && x.row.size == Some(|x.stored.value|) && x.row.checksum == Some(Sha256(x.stored.value))
  {
    RunOrderly(Fresh(id, now), ls);
  }

  // ------------------------------------------------------------------ never rendered again

  /** The step asks the renderer for a new render, or downloads its output. */
  predicate Rerenders(l: Label) {
    l.Work? && (l.call.DoSubmit? || l.call.DoEnqueue? || l.call.DoDownload?)
  }

  lemma StepKeepsVideo(s: State, l: Label)
    requires Orderly(s) && Enabled(s, l) && l != LoseObject && Stored(s.world)
    ensures Step(s, l).world.stored == s.world.stored
    ensures !Rerenders(l)
  {
    if l.Work? {
      assert StoreFits(s.world, s.workers[l.pid].pc);
    }
  }

  /**
   Once a valid video is stored it stays, and whatever crashes, retries and reports follow, no
   render is submitted and nothing is downloaded again.
   */
  lemma {:induction false} NeverRenderedAgain(s: State, ls: seq<Label>)
    requires Orderly(s) && Stored(s.world) && IsRun(s, ls) && InTimeRun(s, ls) && LoseObject !in ls
    ensures forall l :: l in ls ==> !Rerenders(l)
    ensures Final(s, ls).world.stored == s.world.stored
    decreases |ls|
  {
    hide Orderly, Stored, Step, Enabled;
    if ls != [] {
      assert ls[0] in ls && forall l :: l in ls[1..] ==> l in ls;
      StepOrderly(s, ls[0]);
      StepKeepsVideo(s, ls[0]);
      SameIsStored(s.world, Step(s, ls[0]).world);
      NeverRenderedAgain(Step(s, ls[0]), ls[1..]);
    }
  }

  lemma SameIsStored(x: World, y: World)
    requires Stored(x) && y.stored == x.stored
    ensures Stored(y)
  {
  }

  /** The five steps of an undisturbed advance that adopts a stored video. */
  function Adoption(pid: nat, now: int): seq<Label> {
    [Claim(pid, now), Work(pid, DoStat), Work(pid, DoFetch), Work(pid, DoAdopt), Work(pid, DoFinish(now))]
  }

  /** The first half: the worker has the stored video in hand. */
  lemma AdoptionBegins(s: State, pid: nat, now: int)
    requires now == s.now
    requires Stored(s.world) && pid !in s.workers
    requires s.world.row.status in {Pending, Uploading} && Lapsed(s.world.row, s.now)
    ensures var s1 := Step(s, Claim(pid, now));
            && Enabled(s1, Work(pid, DoStat))
            && var s2 := Step(s1, Work(pid, DoStat));
               && Enabled(s2, Work(pid, DoFetch))
               && var s3 := Step(s2, Work(pid, DoFetch));
                  && s1.world == World(s.world.row.(lease := Some(now + LEASE_SECONDS)), s.world.stored)
                  && s3 == s1.(workers := s.workers[pid := Worker(s1.world.row, 0, Adopt(s.world.stored.value))])
  {
  }

  /** The second half: it marks the row ready and releases it. */
  lemma AdoptionEnds(s: State, pid: nat, now: int, row: Row, video: seq<Byte>)
    requires now == s.now && s.world.row.status in ACTIVE && s.workers == map[pid := Worker(row, 0, Adopt(video))]
    ensures Enabled(s, Work(pid, DoAdopt)) && Enabled(Step(s, Work(pid, DoAdopt)), Work(pid, DoFinish(now)))
    ensures var x := Step(Step(s, Work(pid, DoAdopt)), Work(pid, DoFinish(now))).world;
            x.row.status.Ready? && x.row.checksum == Some(Sha256(video)) && x.stored == s.world.stored && x.row.lease.None?
  {
    assert Step(s, Work(pid, DoAdopt)).workers[pid].pc == Finish(false);
  }

  /**
   After a crash between the upload and the update of the row, or after a mistaken report that the
   object is missing, one undisturbed advance makes the row ready again.
   */
  lemma CrashAfterUploadRecovers(s: State, pid: nat, now: int)
    requires now == s.now
    requires Stored(s.world) && s.workers == map[]
    requires s.world.row.status in {Pending, Uploading} && Lapsed(s.world.row, s.now)
    ensures IsRun(s, Adoption(pid, now))
    ensures var x := Final(s, Adoption(pid, now)).world;
            && x.row.status.Ready? && x.row.checksum == Some(Sha256(s.world.stored.value))
            && x.stored == s.world.stored && x.row.lease.None?
  {
    AdoptionBegins(s, pid, now);
    var ls := Adoption(pid, now);
    var s1 := Step(s, ls[0]);
    var s3 := Step(Step(s1, ls[1]), ls[2]);
    AdoptionEnds(s3, pid, now, s1.world.row, s.world.stored.value);
    AssembleFive(s, ls);
  }

  // ------------------------------------------------------------------ two valid videos

  /** A `ftyp` and a `moov` box without content, and a `mdat` box up to the end. */
  const HEADERS: seq<Byte> := [0, 0, 0, 8] + FTYP + ([0, 0, 0, 8] + MOOV) + ([0, 0, 0, 0] + MDAT)

  function Sample(b: Byte): seq<Byte> {
    HEADERS + seq(1000, _ => b)
  }

  const SAMPLE_CUTS: seq<nat> := [0, 8, 16, 1024]

  lemma BigEndianOf(d: seq<Byte>, p: nat)
    requires p + 4 <= |d|
    requires d[p] == d[p + 1] == d[p + 2] == 0
    ensures BigEndian(d, p, 4) == d[p + 3]
  {
    assert BigEndian(d, p, 1) == 0;
    assert BigEndian(d, p, 2) == 0;
    assert BigEndian(d, p, 3) == 0;
  }

  lemma SampleTiling(b: Byte)
    ensures Tiling(Sample(b), SAMPLE_CUTS)
  {
    var d := Sample(b);
    BigEndianOf(d, 0);
    BigEndianOf(d, 8);
    BigEndianOf(d, 16);
    assert IsBox(d, 0, 8) && IsBox(d, 8, 16) && IsBox(d, 16, 1024);
  }

  lemma SampleTypes(b: Byte)
    ensures TypeAt(Sample(b), 0) == FTYP && TypeAt(Sample(b), 8) == MOOV && TypeAt(Sample(b), 16) == MDAT
  {
  }

  lemma SampleIsValid(b: Byte)
    ensures Valid(Sample(b))
  {
    var d := Sample(b);
    SampleTiling(b);
    SampleTypes(b);
    hide Sample, HEADERS;
    assert AcceptableTiling(d, SAMPLE_CUTS);
    forall cuts | Tiling(d, cuts) ensures MOOV in Types(d, cuts) && MDAT in Types(d, cuts) {
      TilingIsUnique(d, cuts, SAMPLE_CUTS);
      assert TypeAt(d, cuts[1]) == MOOV && TypeAt(d, cuts[2]) == MDAT;
    }
  }

  lemma SamplesDiffer(a: Byte, b: Byte)
    requires a != b
    ensures Sample(a) != Sample(b)
  {
    assert Sample(a)[24] == a && Sample(b)[24] == b;
  }

  // ------------------------------------------------------------------ how an overlap loses the video

  /** A worker at any await is cancelled, and has only its release to make. */
  function Cancelling(late: nat, pc: Pc, now: int): seq<Label> {
    if pc == Finish(false) then []
    else if pc.Finish? then [Work(late, DoPauseError(now, false))]
    else [Work(late, DoError(false, true))]
  }

  lemma CancellingRuns(s: State, late: nat)
    requires late in s.workers
    ensures var ls := Cancelling(late, s.workers[late].pc, s.now);
            && IsRun(s, ls)
            && Final(s, ls) == s.(workers := s.workers[late := s.workers[late].(pc := Finish(false))])
  {
    var pc := s.workers[late].pc;
    var ls := Cancelling(late, pc, s.now);
    if ls == [] {
      assert s.workers[late := s.workers[late].(pc := Finish(false))] == s.workers;
    } else {
      RunSnoc(s, [], ls[0]);
      assert [] + [ls[0]] == ls;
    }
  }

  /** An undisturbed worker gets as far as `_upload`. */
  function ToUpload(pid: nat, st: Status): seq<Label> {
    match st
    case Pending => [Work(pid, DoStat), Work(pid, DoSubmit(Some(0)))] + ([Work(pid, DoEnqueue)] + Polling(pid))
    case Uploading => []
    case _ => Polling(pid)
  }

  function Polling(pid: nat): seq<Label> {
    [Work(pid, DoPoll(JobReady)), Work(pid, DoMove)] + []
  }

  /** The worker is about to upload, and nothing is stored. */
  ghost predicate AtUpload(s: State, pid: nat) {
    && s.world.row.status.Uploading? && s.world.stored.None?
    && pid in s.workers && s.workers[pid].pc.Stat? && s.workers[pid].row.status.Uploading?
  }

  ghost predicate OthersWait(s: State, t: State, pid: nat) {
    t.now == s.now && t.workers.Keys == s.workers.Keys && forall k :: k in s.workers && k != pid ==> t.workers[k] == s.workers[k]
  }

  lemma PollingRuns(s: State, pid: nat)
    requires pid in s.workers && s.workers[pid].pc.Poll? && s.workers[pid].round + 1 < MAX_ROUNDS
    requires s.world.row == s.workers[pid].row && s.world.row.status in {Queued, Rendering} && s.world.stored.None?
    ensures IsRun(s, Polling(pid))
    ensures AtUpload(Final(s, Polling(pid)), pid) && OthersWait(s, Final(s, Polling(pid)), pid)
  {
    RunPair(s, Work(pid, DoPoll(JobReady)), Work(pid, DoMove), []);
  }

  lemma DispatchingRuns(s: State, pid: nat)
    requires pid in s.workers && s.workers[pid].pc.Stat? && s.workers[pid].round + 1 < MAX_ROUNDS
    requires s.world.row == s.workers[pid].row && s.world.row.status.Pending? && s.world.stored.None?
    requires s.world.row.attempts < MAX_AUTO
    ensures var s1 := Step(s, Work(pid, DoStat));
            && Enabled(s1, Work(pid, DoSubmit(Some(0))))
            && var s2 := Step(s1, Work(pid, DoSubmit(Some(0))));
               && Enabled(s2, Work(pid, DoEnqueue))
               && var t := Step(s2, Work(pid, DoEnqueue));
                  && t.world.row.status.Queued? && t.world.stored.None? && OthersWait(s, t, pid)
                  && t.workers[pid] == Worker(t.world.row, s.workers[pid].round + 1, Poll)
  {
  }

  lemma ToUploadRuns(s: State, pid: nat)
    requires pid in s.workers && s.world.stored.None? && s.world.row.status in ACTIVE
    requires s.workers[pid] == Enter(s.world.row, 0)
    requires s.world.row.status.Pending? ==> s.world.row.attempts < MAX_AUTO
    ensures var ls := ToUpload(pid, s.world.row.status);
            IsRun(s, ls) && AtUpload(Final(s, ls), pid) && OthersWait(s, Final(s, ls), pid)
  {
    match s.world.row.status
    case Pending =>
      DispatchingRuns(s, pid);
      var s2 := Step(Step(s, Work(pid, DoStat)), Work(pid, DoSubmit(Some(0))));
      var t := Step(s2, Work(pid, DoEnqueue));
      hide Step, Enabled, AtUpload, IsRun, Final;
      PollingRuns(t, pid);
      RunCons(s2, Work(pid, DoEnqueue), Polling(pid));
      RunPair(s, Work(pid, DoStat), Work(pid, DoSubmit(Some(0))), [Work(pid, DoEnqueue)] + Polling(pid));
    case Uploading =>
    case _ =>
      PollingRuns(s, pid);
  }

  /** The late release, and another claim. */
  function LetIn(late: nat, d: nat, now: int): seq<Label> {
    [Work(late, DoFinish(now)), Claim(d, now)] + []
  }

  /** Two workers upload: the second one downloads when the first one has published. */
  function UploadTwice(b: nat, d: nat, v: seq<Byte>, w: seq<Byte>): seq<Label> {
    [Work(d, DoStat), Work(b, DoStat)] +
    ([Work(b, DoDownload(Bytes(v))), Work(b, DoStore)] +
     ([Work(b, DoConfirm), Work(b, DoPublish)] +
      ([Work(d, DoDownload(Bytes(w))), Work(d, DoStore)] + [])))
  }

  lemma LetInRuns(s: State, late: nat, b: nat, d: nat)
    requires AtUpload(s, b) && late in s.workers && s.workers[late].pc == Finish(false) && late != b
    requires d !in s.workers
    ensures IsRun(s, LetIn(late, d, s.now))
    ensures var t := Final(s, LetIn(late, d, s.now)); AtUpload(t, b) && AtUpload(t, d) && b != d
  {
    RunPair(s, Work(late, DoFinish(s.now)), Claim(d, s.now), []);
  }

  /** The first part: both have found nothing, and the first one has stored its video. */
  lemma UploadsBegin(s: State, b: nat, d: nat, v: seq<Byte>)
    requires AtUpload(s, b) && AtUpload(s, d) && b != d && Valid(v)
    ensures Enabled(s, Work(d, DoStat)) && Enabled(Step(s, Work(d, DoStat)), Work(b, DoStat))
    ensures var s2 := Step(Step(s, Work(d, DoStat)), Work(b, DoStat));
            && Enabled(s2, Work(b, DoDownload(Bytes(v)))) && Enabled(Step(s2, Work(b, DoDownload(Bytes(v)))), Work(b, DoStore))
            && var s4 := Step(Step(s2, Work(b, DoDownload(Bytes(v)))), Work(b, DoStore));
               && s4.world.row.status.Uploading? && s4.world.stored == Some(v)
               && b in s4.workers && s4.workers[b].pc == Confirm(v) && d in s4.workers && s4.workers[d].pc.Download?
  {
  }

  lemma FirstPublishes(s: State, b: nat, d: nat, v: seq<Byte>)
    requires s.world.row.status.Uploading? && s.world.stored == Some(v) && b != d
    requires b in s.workers && s.workers[b].pc == Confirm(v) && d in s.workers && s.workers[d].pc.Download?
    ensures Enabled(s, Work(b, DoConfirm)) && Enabled(Step(s, Work(b, DoConfirm)), Work(b, DoPublish))
    ensures var t := Step(Step(s, Work(b, DoConfirm)), Work(b, DoPublish));
            && t.world.row.status.Ready? && t.world.row.checksum == Some(Sha256(v))
            && d in t.workers && t.workers[d].pc.Download?
  {
  }

  lemma SecondOverwrites(s: State, d: nat, w: seq<Byte>)
    requires d in s.workers && s.workers[d].pc.Download? && Valid(w)
    ensures Enabled(s, Work(d, DoDownload(Bytes(w)))) && Enabled(Step(s, Work(d, DoDownload(Bytes(w)))), Work(d, DoStore))
    ensures Step(Step(s, Work(d, DoDownload(Bytes(w)))), Work(d, DoStore)).world == World(s.world.row, Some(w))
  {
  }

  lemma UploadTwiceRuns(s: State, b: nat, d: nat, v: seq<Byte>, w: seq<Byte>)
    requires AtUpload(s, b) && AtUpload(s, d) && b != d && Valid(v) && Valid(w) && v != w
    ensures IsRun(s, UploadTwice(b, d, v, w)) && !VideoIsThere(Final(s, UploadTwice(b, d, v, w)).world)
  {
    UploadsBegin(s, b, d, v);
    var s2 := Step(Step(s, Work(d, DoStat)), Work(b, DoStat));
    var s4 := Step(Step(s2, Work(b, DoDownload(Bytes(v)))), Work(b, DoStore));
    FirstPublishes(s4, b, d, v);
    var s6 := Step(Step(s4, Work(b, DoConfirm)), Work(b, DoPublish));
    SecondOverwrites(s6, d, w);
    assert IsRun(Step(Step(s6, Work(d, DoDownload(Bytes(w)))), Work(d, DoStore)), []);
    hide Step, Enabled, AtUpload;
    RunPair(s6, Work(d, DoDownload(Bytes(w))), Work(d, DoStore), []);
    hide IsRun, Final;
    var end := [Work(d, DoDownload(Bytes(w))), Work(d, DoStore)] + [];
    RunPair(s4, Work(b, DoConfirm), Work(b, DoPublish), end);
    end := [Work(b, DoConfirm), Work(b, DoPublish)] + end;
    RunPair(s2, Work(b, DoDownload(Bytes(v))), Work(b, DoStore), end);
    end := [Work(b, DoDownload(Bytes(v))), Work(b, DoStore)] + end;
    RunPair(s, Work(d, DoStat), Work(b, DoStat), end);
  }

  /** All of it, from a state in which the row can be claimed beside its worker. */
  function Losing(late: nat, pc: Pc, st: Status, b: nat, d: nat, now: int): seq<Label> {
    Cancelling(late, pc, now) +
    ([LoseObject] + ([Claim(b, now)] + (ToUpload(b, st) + (LetIn(late, d, now) + UploadTwice(b, d, Sample(0), Sample(1))))))
  }

  /** Work and claims only. */
  ghost predicate Quiet(ls: seq<Label>) {
    forall l :: l in ls ==> l.Work? || l.Claim?
  }

  lemma {:induction false} QuietThenCareful(s: State, a: seq<Label>, b: seq<Label>)
    requires IsRun(s, a) && Quiet(a) && IsRun(Final(s, a), b) && CarefulRun(Final(s, a), b)
    ensures IsRun(s, a + b) && CarefulRun(s, a + b)
    decreases |a|
  {
    RunConcat(s, a, b);
    if a == [] {
      assert a + b == b;
    } else {
      assert a[0] in a && forall l :: l in a[1..] ==> l in a;
      assert (a + b)[0] == a[0] && (a + b)[1..] == a[1..] + b;
      hide Step, Enabled;
      QuietThenCareful(Step(s, a[0]), a[1..], b);
    }
  }

  lemma QuietParts(late: nat, pc: Pc, st: Status, b: nat, d: nat, now: int)
    ensures Quiet(Cancelling(late, pc, now)) && Quiet(ToUpload(b, st)) && Quiet(LetIn(late, d, now))
    ensures Quiet(UploadTwice(b, d, Sample(0), Sample(1))) && Quiet([Claim(b, now)])
  {
    hide Sample;
  }

  /** From where the store is empty and the row can be claimed beside a worker that has only its release to make. */
  lemma OverlapLosesIt(s: State, late: nat, b: nat, d: nat)
    requires s.workers.Keys == {late} && s.workers[late].pc == Finish(false) && b != late && d != late && b != d
    requires s.world.row.status in ACTIVE && Lapsed(s.world.row, s.now) && s.world.stored.None?
    requires s.world.row.status.Pending? ==> s.world.row.attempts < MAX_AUTO
    ensures var ls := [Claim(b, s.now)] + (ToUpload(b, s.world.row.status) +
                        (LetIn(late, d, s.now) + UploadTwice(b, d, Sample(0), Sample(1))));
            IsRun(s, ls) && CarefulRun(s, ls) && !VideoIsThere(Final(s, ls).world)
  {
    var st, now := s.world.row.status, s.now;
    QuietParts(late, Finish(false), st, b, d, now);
    var s1 := Step(s, Claim(b, now));
    assert s1.world.row.status == st && s1.workers[late] == s.workers[late];
    ToUploadRuns(s1, b);
    var s2 := Final(s1, ToUpload(b, st));
    LetInRuns(s2, late, b, d);
    var s3 := Final(s2, LetIn(late, d, now));
    SampleIsValid(0);
    SampleIsValid(1);
    SamplesDiffer(0, 1);
    hide Sample, Step, AtUpload, VideoIsThere, ToUpload, LetIn, UploadTwice, Quiet, Careful;
    UploadTwiceRuns(s3, b, d, Sample(0), Sample(1));
    var e := UploadTwice(b, d, Sample(0), Sample(1));
    QuietRun(s3, e);
    QuietThenCareful(s2, LetIn(late, d, now), e);
    RunConcat(s2, LetIn(late, d, now), e);
    QuietThenCareful(s1, ToUpload(b, st), LetIn(late, d, now) + e);
    RunConcat(s1, ToUpload(b, st), LetIn(late, d, now) + e);
    RunCons(s, Claim(b, now), ToUpload(b, st) + (LetIn(late, d, now) + e));
    ClaimRuns(s, b, now);
    QuietThenCareful(s, [Claim(b, now)], ToUpload(b, st) + (LetIn(late, d, now) + e));
  }

  lemma ClaimRuns(s: State, b: nat, now: int)
    requires Enabled(s, Claim(b, now))
    ensures IsRun(s, [Claim(b, now)]) && Final(s, [Claim(b, now)]) == Step(s, Claim(b, now))
  {
    RunSnoc(s, [], Claim(b, now));
    assert [] + [Claim(b, now)] == [Claim(b, now)];
  }

  lemma QuietRun(s: State, ls: seq<Label>)
    requires IsRun(s, ls) && Quiet(ls)
    ensures CarefulRun(s, ls)
  {
    QuietThenCareful(s, ls, []);
    assert ls + [] == ls;
  }

  lemma LosingRuns(s: State, late: nat, b: nat, d: nat)
    requires s.workers.Keys == {late} && b != late && d != late && b != d
    requires s.world.row.status in ACTIVE && Lapsed(s.world.row, s.now)
    requires s.world.row.status.Pending? ==> s.world.row.attempts < MAX_AUTO
    ensures var ls := Losing(late, s.workers[late].pc, s.world.row.status, b, d, s.now);
            IsRun(s, ls) && CarefulRun(s, ls) && !VideoIsThere(Final(s, ls).world)
  {
    var st, now, pc := s.world.row.status, s.now, s.workers[late].pc;
    var a := Cancelling(late, pc, now);
    QuietParts(late, pc, st, b, d, now);
    CancellingRuns(s, late);
    var s1 := Final(s, a);
    var s2 := Step(s1, LoseObject);
    assert Careful(s1, LoseObject);
    OverlapLosesIt(s2, late, b, d);
    hide Sample, Step, Enabled, AtUpload, VideoIsThere, ToUpload, LetIn, UploadTwice, Quiet, Careful, Cancelling, IsRun, Final;
    var rest := [Claim(b, now)] + (ToUpload(b, st) + (LetIn(late, d, now) + UploadTwice(b, d, Sample(0), Sample(1))));
    RunCons(s1, LoseObject, rest);
    CarefulCons(s1, LoseObject, rest);
    QuietThenCareful(s, a, [LoseObject] + rest);
    RunConcat(s, a, [LoseObject] + rest);
  }

  lemma CarefulCons(s: State, l: Label, ls: seq<Label>)
    requires Enabled(s, l) && Careful(s, l) && IsRun(Step(s, l), ls) && CarefulRun(Step(s, l), ls)
    ensures IsRun(s, [l] + ls) && CarefulRun(s, [l] + ls)
  {
    assert ([l] + ls)[1..] == ls;
  }

  // ------------------------------------------------------------------ how an overlap renders again

  /** A worker claims the row and has the stored video in hand. */
  function Seeing(pid: nat, now: int): seq<Label> {
    [Claim(pid, now), Work(pid, DoStat)] + [Work(pid, DoFetch)]
  }

  ghost function HasSeen(s: State, pid: nat): State
    requires s.world.stored.Some?
  {
    var r := s.world.row.(lease := Some(s.now + LEASE_SECONDS));
    WithRow(s, r).(workers := s.workers[pid := Worker(r, 0, Adopt(s.world.stored.value))])
  }

  lemma SeeingRuns(s: State, pid: nat)
    requires Stored(s.world) && pid !in s.workers
    requires s.world.row.status in {Pending, Uploading} && Lapsed(s.world.row, s.now)
    ensures IsRun(s, Seeing(pid, s.now)) && Final(s, Seeing(pid, s.now)) == HasSeen(s, pid)
  {
    AdoptionBegins(s, pid, s.now);
    var s2 := Step(Step(s, Claim(pid, s.now)), Work(pid, DoStat));
    RunCons(s2, Work(pid, DoFetch), []);
    assert [Work(pid, DoFetch)] + [] == [Work(pid, DoFetch)];
    hide Step, Enabled, IsRun, Final;
    RunPair(s, Claim(pid, s.now), Work(pid, DoStat), [Work(pid, DoFetch)]);
  }

  /** What a worker that finds nothing to adopt does next. */
  function Again(d: nat, st: Status): Label {
    Work(d, if st.Uploading? then DoDownload(Refused) else DoSubmit(None))
  }

  /** Two workers have the stored video in hand; the one that is not the first to adopt it renders again. */
  function AdoptTwice(b: nat, d: nat, st: Status): seq<Label> {
    [Work(b, DoAdopt), Work(d, DoAdopt)] + [Again(d, st)]
  }

  lemma AdoptTwiceRuns(s: State, b: nat, d: nat, video: seq<Byte>)
    requires b in s.workers && s.workers[b].pc == Adopt(video) && d in s.workers && s.workers[d].pc == Adopt(video) && b != d
    requires s.world.row.status in ACTIVE && s.workers[d].row.status in {Pending, Uploading}
    requires s.workers[d].row.status.Pending? ==> s.workers[d].row.attempts < MAX_AUTO
    ensures IsRun(s, AdoptTwice(b, d, s.workers[d].row.status))
  {
    var st := s.workers[d].row.status;
    var s1 := Step(s, Work(b, DoAdopt));
    assert s1.world.row.status.Ready? && s1.workers[d] == s.workers[d];
    var s2 := Step(s1, Work(d, DoAdopt));
    assert s2.workers[d] == NothingToAdopt(s.workers[d]);
    RunCons(s2, Again(d, st), []);
    assert [Again(d, st)] + [] == [Again(d, st)];
    hide Step, Enabled, IsRun, Final;
    RunPair(s, Work(b, DoAdopt), Work(d, DoAdopt), [Again(d, st)]);
  }

  function RenderingAgain(late: nat, b: nat, d: nat, st: Status, now: int): seq<Label> {
    Seeing(b, now) + ([Work(late, DoFinish(now))] + (Seeing(d, now) + AdoptTwice(b, d, st)))
  }

  lemma RenderingAgainIsQuiet(late: nat, b: nat, d: nat, st: Status, now: int)
    ensures var ls := RenderingAgain(late, b, d, st, now);
            Quiet(ls) && LoseObject !in ls && exists l :: l in ls && Rerenders(l)
  {
    var ls := RenderingAgain(late, b, d, st, now);
    assert |ls| == 10 && ls[9] == Again(d, st);
    assert Again(d, st) in ls && Rerenders(Again(d, st));
  }

  /** The release lets a second worker in, while the first one has the video in hand. */
  lemma BothSee(s: State, late: nat, b: nat, d: nat)
    requires s.workers.Keys == {late} && s.workers[late].pc == Finish(false) && b != late && d != late && b != d
    requires s.world.row.status in {Pending, Uploading} && Stored(s.world)
    ensures Enabled(HasSeen(s, b), Work(late, DoFinish(s.now)))
    ensures var t := Step(HasSeen(s, b), Work(late, DoFinish(s.now)));
            && t.world == World(s.world.row.(lease := None), s.world.stored) && t.now == s.now && d !in t.workers
            && var u := HasSeen(t, d);
               && b in u.workers && u.workers[b].pc == Adopt(s.world.stored.value)
               && u.workers[d].pc == Adopt(s.world.stored.value)
               && u.workers[d].row.status == u.world.row.status == s.world.row.status
               && u.workers[d].row.attempts == s.world.row.attempts
  {
  }

  /**
   Advances that overlap may render again what is stored: from where a row with a stored video can be
   claimed beside a worker that has only its release to make, two more may have it in hand at once.
   */
  lemma OverlapRendersAgain(s: State, late: nat, b: nat, d: nat)
    requires s.workers.Keys == {late} && s.workers[late].pc == Finish(false) && b != late && d != late && b != d
    requires s.world.row.status in {Pending, Uploading} && Lapsed(s.world.row, s.now) && Stored(s.world)
    requires s.world.row.status.Pending? ==> s.world.row.attempts < MAX_AUTO
    ensures var ls := RenderingAgain(late, b, d, s.world.row.status, s.now);
            IsRun(s, ls) && InTimeRun(s, ls) && LoseObject !in ls && exists l :: l in ls && Rerenders(l)
  {
    var st, now := s.world.row.status, s.now;
    SeeingRuns(s, b);
    BothSee(s, late, b, d);
    var s1, release := HasSeen(s, b), Work(late, DoFinish(now));
    var s2 := Step(s1, release);
    SeeingRuns(s2, d);
    AdoptTwiceRuns(HasSeen(s2, d), b, d, s.world.stored.value);
    RenderingAgainIsQuiet(late, b, d, st, now);
    hide Step, Enabled, Seeing, AdoptTwice, HasSeen, Stored, Quiet, Rerenders, IsRun, Final;
    var e := Seeing(d, now) + AdoptTwice(b, d, st);
    RunConcat(s2, Seeing(d, now), AdoptTwice(b, d, st));
    RunCons(s1, release, e);
    RunConcat(s, Seeing(b, now), [release] + e);
    QuietRun(s, RenderingAgain(late, b, d, st, now));
    CarefulIsInTime(s, RenderingAgain(late, b, d, st, now));
  }

  lemma {:induction false} CarefulIsInTime(s: State, ls: seq<Label>)
    requires IsRun(s, ls) && CarefulRun(s, ls)
    ensures InTimeRun(s, ls)
    decreases |ls|
  {
    hide Step, Enabled, InTime;
    if ls != [] {
      CarefulIsInTime(Step(s, ls[0]), ls[1..]);
    }
  }

  // ------------------------------------------------------------------ the exact condition

  /** In all careful runs a ready row has its video. */
  ghost predicate KeepsTheVideo(s: State) {
    forall ls {:trigger Final(s, ls)} :: IsRun(s, ls) && CarefulRun(s, ls) ==> VideoIsThere(Final(s, ls).world)
  }

  /** An object that is lost while somebody relies on it. */
  lemma LossIsFelt(s: State)
    requires Orderly(s) && !NobodyReliesOnIt(s)
    ensures !KeepsTheVideo(Step(s, LoseObject))
  {
    var t := Step(s, LoseObject);
    if s.world.row.status.Ready? {
      assert IsRun(t, []) && CarefulRun(t, []) && Final(t, []) == t;
    } else {
      var pid :| pid in s.workers && (s.workers[pid].pc.Adopt? || s.workers[pid].pc.Publish?);
      assert Following(s.world.row, s.workers[pid]);
      var l := Work(pid, if s.workers[pid].pc.Adopt? then DoAdopt else DoPublish);
      assert Step(t, l).world.row.status.Ready? && Step(t, l).world.stored.None?;
      RunSnoc(t, [], l);
      assert [] + [l] == [l];
      QuietRun(t, [l]);
    }
  }

  /**
   The condition is exact: after a step the video of a ready row is safe in all careful runs, if and
   only if the step is careful itself.
   */
  lemma CarefulIsExact(s: State, l: Label)
    requires Orderly(s) && Enabled(s, l)
    ensures Careful(s, l) <==> KeepsTheVideo(Step(s, l))
  {
    var t := Step(s, l);
    if Careful(s, l) {
      StepOrderly(s, l);
      hide Step, Enabled, Careful;
      forall ls | IsRun(t, ls) && CarefulRun(t, ls) ensures VideoIsThere(Final(t, ls).world) {
        RunOrderly(t, ls);
      }
    } else if InTime(s, l) {
      LossIsFelt(s);
    } else {
      var late :| late in s.workers;
      LateStep(s, l, late);
      hide Step, Enabled, Careful, Orderly, InTime;
      var b, d := late + 1, late + 2;
      LosingRuns(t, late, b, d);
    }
  }

  /** What a step that is not in time leaves. */
  lemma LateStep(s: State, l: Label, late: nat)
    requires Orderly(s) && Enabled(s, l) && !InTime(s, l) && late in s.workers
    ensures var t := Step(s, l);
            && t.workers.Keys == {late} && t.world.row.status in ACTIVE && Lapsed(t.world.row, t.now)
            && (t.world.row.status.Pending? ==> t.world.row.attempts < MAX_AUTO)
  {
    assert Tracked(s) && Held(s);
    assert s.workers.Keys == {late};
  }
}
