/**
 What the artifact lifecycle keeps. First in every interleaving, stale workers included; then what
 the lease gives, and what holds of runs in which it keeps the advances of the row apart.
 */
module ArtifactGuarantees {
  import opened Wrappers
  import opened Mp4Boxes
  import opened ArtifactLifecycle

  // ------------------------------------------------------------------ in every interleaving

  /** A ready row describes a valid video under the deterministic key; any other row describes none. */
  ghost predicate RowOk(r: Row) {
    && r.attempts <= MAX_AUTO
    && r.retries <= MAX_MANUAL
    && if r.status.Ready? then
         && r.objectKey == Some(VideoKey(r.id))
         && r.mime == Some("video/mp4")
         && r.checksum.Some? && Valid(r.checksum.value.content)
         && r.size == Some(|r.checksum.value.content|)
       else
         r.objectKey.None? && r.mime.None? && r.checksum.None? && r.size.None?
  }

  /** A worker only publishes validated videos and only begins a render while it has seen an attempt left. */
  ghost predicate WorkerOk(w: Worker) {
    match w.pc
    case Adopt(video) => Valid(video)
    case Store(video) => Valid(video)
    case Confirm(video) => Valid(video)
    case Publish(video) => Valid(video)
    case Submit => w.row.attempts < MAX_AUTO
    case Enqueue(_) => w.row.attempts < MAX_AUTO
    case Move(to, allowed) => to in ACTIVE && allowed <= ACTIVE
    case _ => true
  }

  ghost predicate Sound(s: State) {
    && RowOk(s.world.row)
    && (forall pid :: pid in s.workers ==> WorkerOk(s.workers[pid]))
    && (forall rid :: rid in s.retrying ==> s.retrying[rid] < MAX_MANUAL)
  }

  lemma CallKeepsRow(x: World, w: Worker, c: Call)
    requires RowOk(x.row) && WorkerOk(w) && Awaits(w.pc, c)
    ensures RowOk(RowAfter(x, w, c))
    ensures x.row.status !in ACTIVE ==> RowAfter(x, w, c) == x.row.(lease := RowAfter(x, w, c).lease)
  {
  }

  lemma CallKeepsWorker(x: World, w: Worker, c: Call)
    requires WorkerOk(w) && Awaits(w.pc, c) && !c.DoFinish?
    ensures WorkerOk(WorkerAfter(x, w, c))
  {
  }

  lemma StepSound(s: State, l: Label)
    requires Sound(s) && Enabled(s, l)
    ensures Sound(Step(s, l))
    ensures Step(s, l).world.row.id == s.world.row.id
    ensures s.world.row.status.Ready? && Step(s, l).world.row.status != Ready ==> l.ReportMissing?
    ensures s.world.row.status.Failed? && Step(s, l).world.row.status != Failed ==> l.RetryCas?
  {
    if l.Work? {
      CallKeepsRow(s.world, s.workers[l.pid], l.call);
      if !l.call.DoFinish? {
        CallKeepsWorker(s.world, s.workers[l.pid], l.call);
      }
    }
  }

  /**
   In every run from registration, with any number of workers, expired leases, races, crashes and
   lost objects: a ready row has the deterministic key and the size and checksum of bytes that
   passed validation, any other row has none of them, and both counters stay within their limits.
   */
  lemma {:induction false} RunSound(s: State, ls: seq<Label>)
    requires Sound(s) && IsRun(s, ls)
    ensures Sound(Final(s, ls))
    decreases |ls|
  {
    if ls != [] {
      StepSound(s, ls[0]);
      RunSound(Step(s, ls[0]), ls[1..]);
    }
  }

  lemma ReadyMeansVerified(id: nat, now: int, ls: seq<Label>)
    requires IsRun(Fresh(id, now), ls)
    ensures var r := Final(Fresh(id, now), ls).world.row;
            && r.attempts <= MAX_AUTO && r.retries <= MAX_MANUAL
            && (r.status.Ready? ==>
                  exists video :: Valid(video) && |video| >= 1024
                    && r.objectKey == Some(VideoKey(r.id)) && r.size == Some(|video|) && r.checksum == Some(Sha256(video)))
            && (!r.status.Ready? ==> r.objectKey.None? && r.size.None? && r.checksum.None? && r.mime.None?)
  {
    RunSound(Fresh(id, now), ls);
    var r := Final(Fresh(id, now), ls).world.row;
    if r.status.Ready? {
      var video := r.checksum.value.content;
      assert Valid(video) && r.checksum == Some(Sha256(video));
    }
  }

  // ------------------------------------------------------------------ what the lease gives

  /** A failed artifact is retried, or a ready one goes back to pending. */
  ghost predicate Resets(s: State, l: Label) {
    (l.RetryCas? && s.world.row.status.Failed?) || (l.ReportMissing? && s.world.row.status.Ready?)
  }

  /**
   A worker is done, or has crashed, before the lease of its active row runs out; and a finished row
   is reset only after the worker that finished it has made its release.
   */
  ghost predicate InTime(s: State, l: Label) {
    if l.Tick? then s.workers != map[] && s.world.row.status in ACTIVE ==> !Lapsed(s.world.row, l.now)
    else Resets(s, l) ==> s.workers == map[]
  }

  ghost predicate InTimeRun(s: State, ls: seq<Label>)
    requires IsRun(s, ls)
    decreases |ls|
  {
    ls == [] || (InTime(s, ls[0]) && InTimeRun(Step(s, ls[0]), ls[1..]))
  }

  /** One worker at most; it holds a running lease while the row is active, and after that it only has its release to make. */
  ghost predicate Held(s: State) {
    && Sound(s)
    && (forall a, b :: a in s.workers && b in s.workers ==> a == b)
    && (s.workers != map[] && s.world.row.status in ACTIVE ==> !Lapsed(s.world.row, s.now))
    && (s.world.row.status !in ACTIVE ==> forall a :: a in s.workers ==> s.workers[a].pc.Finish?)
  }

  /** A call of the one worker: the lease is kept, unless the row is finished and nothing but the release is left. */
  lemma CallHeld(x: World, w: Worker, c: Call)
    requires WorkerOk(w) && Awaits(w.pc, c) && (x.row.status !in ACTIVE ==> w.pc.Finish?) && !c.DoFinish? && !c.DoPauseError?
    ensures var r := RowAfter(x, w, c);
            if r.status in ACTIVE then r.lease == x.row.lease && x.row.status in ACTIVE
            else WorkerAfter(x, w, c).pc.Finish?
  {
  }

  lemma WorkHeld(s: State, l: Label)
    requires Held(s) && Enabled(s, l) && l.Work?
    ensures Held(Step(s, l))
  {
    StepSound(s, l);
    var t := Step(s, l);
    if l.call.DoFinish? {
      assert t.workers == map[];
    } else if l.call.DoPauseError? {
      assert forall a :: a in t.workers ==> a in s.workers;
    } else {
      CallHeld(s.world, s.workers[l.pid], l.call);
      assert l.pid in s.workers && s.workers != map[];
      hide WorkerAfter, RowAfter, Sound;
      forall a | a in t.workers ensures a == l.pid {
        assert a in s.workers;
      }
    }
  }

  lemma StepHeld(s: State, l: Label)
    requires Held(s) && Enabled(s, l) && InTime(s, l)
    ensures Held(Step(s, l))
    ensures l.Claim? ==> s.workers == map[]
  {
    if l.Work? {
      WorkHeld(s, l);
    } else {
      StepSound(s, l);
      hide Sound;
    }
  }

  lemma {:induction false} RunHeld(s: State, ls: seq<Label>)
    requires Held(s) && IsRun(s, ls) && InTimeRun(s, ls)
    ensures Held(Final(s, ls))
    decreases |ls|
  {
    hide Held;
    if ls != [] {
      StepHeld(s, ls[0]);
      RunHeld(Step(s, ls[0]), ls[1..]);
    }
  }

  /** One worker at a time: no claim ever meets another worker. */
  lemma LeaseExcludes(id: nat, now: int, ls: seq<Label>, l: Label)
    requires IsRun(Fresh(id, now), ls) && InTimeRun(Fresh(id, now), ls) && Enabled(Final(Fresh(id, now), ls), l)
    ensures var s := Final(Fresh(id, now), ls);
            (forall a, b :: a in s.workers && b in s.workers ==> a == b) && (l.Claim? ==> s.workers == map[])
  {
    RunHeld(Fresh(id, now), ls);
  }

  /** No claim meets another worker, in any continuation in time. */
  ghost predicate StaysExclusive(s: State) {
    forall ls, pid, now {:trigger Enabled(Final(s, ls), Claim(pid, now))} ::
      IsRun(s, ls) && InTimeRun(s, ls) && Enabled(Final(s, ls), Claim(pid, now)) ==> Final(s, ls).workers == map[]
  }

  /** The condition is exact: a step is in time if and only if the lease goes on keeping workers apart after it. */
  lemma InTimeIsExact(s: State, l: Label)
    requires Held(s) && Enabled(s, l)
    ensures InTime(s, l) <==> StaysExclusive(Step(s, l))
  {
    var t := Step(s, l);
    if InTime(s, l) {
      StepHeld(s, l);
      hide Step, Enabled, Held;
      forall ls, pid, now | IsRun(t, ls) && InTimeRun(t, ls) && Enabled(Final(t, ls), Claim(pid, now))
        ensures Final(t, ls).workers == map[]
      {
        RunHeld(t, ls);
        StepHeld(Final(t, ls), Claim(pid, now));
      }
    } else {
      var pid :| pid in s.workers;
      assert t.workers == s.workers;
      var other := pid + 1;
      assert other !in t.workers by {
        assert other != pid;
      }
      assert Final(t, []) == t && Enabled(Final(t, []), Claim(other, t.now));
    }
  }

  /** When a lease that is released at this time can be claimed again. */
  function FreeAgain(pause: bool, now: int): int {
    if pause then now + BACKOFF_SECONDS + 1 else now
  }

  /** A reset, a claim, the release that was still to be made, and another claim as soon as that allows it. */
  function ResetTooSoon(l: Label, late: nat, pause: bool, a: nat, b: nat, now: int): seq<Label> {
    [l, Claim(a, now)] +
    ([Work(late, DoFinish(now)), Tick(FreeAgain(pause, now))] + [Claim(b, FreeAgain(pause, now))])
  }

  /** Two workers have just begun, the first one within the lease it was given at `since`. */
  ghost predicate TwoAdvances(s: State, a: nat, b: nat, since: int) {
    a in s.workers && b in s.workers && a != b && s.workers[a].pc == Stat && s.workers[b].pc == Stat
    && s.now < since + LEASE_SECONDS
  }

  /**
   The release is unconditional. If a row is reset while the worker that finished it has yet to make
   its release, this takes away the lease of the worker that claims the row next, and another one
   can claim it, at once or after the pause: two fresh advances run at the same time.
   */
  lemma LateReleaseLetsAdvancesOverlap(s: State, l: Label, late: nat, a: nat, b: nat)
    requires Held(s) && Enabled(s, l) && Resets(s, l) && late in s.workers
    requires a !in s.workers && b !in s.workers && a != b
    ensures s.workers[late].pc.Finish?
    ensures var ls := ResetTooSoon(l, late, s.workers[late].pc.pause, a, b, s.now);
            && IsRun(s, ls) && TwoAdvances(Final(s, ls), a, b, s.now)
            && Final(s, ls).now == FreeAgain(s.workers[late].pc.pause, s.now)
  {
    var s2 := Step(Step(s, l), Claim(a, s.now));
    var pause := s.workers[late].pc.pause;
    assert s2.workers[late] == s.workers[late] && s2.workers[a].pc == Stat;
    assert b !in s2.workers;
    ReleaseAndClaim(s2, late, pause, a, b);
    RunPair(s, l, Claim(a, s.now),
            [Work(late, DoFinish(s.now)), Tick(FreeAgain(pause, s.now))] + [Claim(b, FreeAgain(pause, s.now))]);
  }

  lemma ReleaseAndClaim(s: State, late: nat, pause: bool, a: nat, b: nat)
    requires late in s.workers && s.workers[late].pc == Pc.Finish(pause) && a in s.workers && b !in s.workers && a != late
    requires s.world.row.status.Pending? && s.workers[a].pc == Stat
    ensures var ls := [Work(late, DoFinish(s.now)), Tick(FreeAgain(pause, s.now))] + [Claim(b, FreeAgain(pause, s.now))];
            && IsRun(s, ls) && TwoAdvances(Final(s, ls), a, b, s.now)
            && Final(s, ls).now == FreeAgain(pause, s.now)
  {
    var release, tick := Work(late, DoFinish(s.now)), Tick(FreeAgain(pause, s.now));
    var claim := Claim(b, FreeAgain(pause, s.now));
    var t := Step(Step(s, release), tick);
    RunCons(t, claim, []);
    assert [claim] + [] == [claim];
    RunPair(s, release, tick, [claim]);
  }

  // ------------------------------------------------------------------ what every run in time keeps of the row

  /** Statuses in the order in which a render goes through them, the last one lowest. */
  function Rank(st: Status): nat {
    match st
    case Queued => 3
    case Rendering => 2
    case Uploading => 1
    case _ => 0
  }

  /** The worker's snapshot is the row, and its program point fits the row's status. */
  ghost predicate Following(r: Row, w: Worker) {
    w.pc.Finish? ||
    (&& r.(lease := None) == w.row.(lease := None)
     && match w.pc
        case Submit => r.status.Pending?
        case Enqueue(_) => r.status.Pending?
        case GiveUp => r.status in ACTIVE
        case Poll => r.status in {Queued, Rendering}
        case Move(to, allowed) =>
          && r.status in allowed
          && (to.Pending? ==> r.attempts < MAX_AUTO)
          && (Rank(to) < Rank(r.status) || (to.Queued? && r.status.Rendering?))
        case Download => r.status.Uploading?
        case Store(_) => r.status.Uploading?
        case Confirm(_) => r.status.Uploading?
        case Publish(_) => r.status.Uploading?
        case _ => r.status in {Pending, Uploading})
  }

  ghost predicate Tracked(s: State) {
    && Held(s)
    && (s.world.row.status.Pending? ==> s.world.row.attempts < MAX_AUTO)
    && (forall pid :: pid in s.workers ==> Following(s.world.row, s.workers[pid]))
  }

  lemma CallFollows(x: World, w: Worker, c: Call)
    requires RowOk(x.row) && WorkerOk(w) && Following(x.row, w) && Awaits(w.pc, c)
    requires x.row.status.Pending? ==> x.row.attempts < MAX_AUTO
    ensures var r := RowAfter(x, w, c);
            && (r.status.Pending? ==> r.attempts < MAX_AUTO)
            && (!c.DoFinish? ==> Following(r, WorkerAfter(x, w, c)))
  {
  }

  lemma StepTracked(s: State, l: Label)
    requires Tracked(s) && Enabled(s, l) && InTime(s, l)
    ensures Tracked(Step(s, l))
  {
    StepHeld(s, l);
    if l.Work? {
      assert Held(s);
      CallFollows(s.world, s.workers[l.pid], l.call);
      hide RowAfter, WorkerAfter, Held, InTime;
    }
    hide Held;
  }

  lemma {:induction false} RunTracked(s: State, ls: seq<Label>)
    requires Tracked(s) && IsRun(s, ls) && InTimeRun(s, ls)
    ensures Tracked(Final(s, ls))
    decreases |ls|
  {
    hide Tracked;
    if ls != [] {
      StepTracked(s, ls[0]);
      RunTracked(Step(s, ls[0]), ls[1..]);
    }
  }

  // ------------------------------------------------------------------ an overlap, from the start

  /** A worker fails the row (which frees the lease) and has yet to release it; a user retries at once. */
  const RETRIED_TOO_SOON: seq<Label> := [
    Claim(1, 0), Work(1, DoStat), Work(1, DoSubmit(None)), Work(1, DoGiveUp), RetryRead(0)
  ]

  function FailedOnce(id: nat): State {
    State(World(MadeFailed(Registered(id)), None),
          map[1 := Worker(Registered(id).(lease := Some(LEASE_SECONDS)), 0, Finish(false))],
          map[0 := 0], 0)
  }

  lemma RetriedTooSoon(id: nat)
    ensures IsRun(Fresh(id, 0), RETRIED_TOO_SOON) && Final(Fresh(id, 0), RETRIED_TOO_SOON) == FailedOnce(id)
  {
    hide Valid;
    var ls := RETRIED_TOO_SOON;
    var s2 := Step(Step(Fresh(id, 0), ls[0]), ls[1]);
    assert s2.workers[1].pc == Submit;
    var s4 := Step(Step(s2, ls[2]), ls[3]);
    assert s4.workers == FailedOnce(id).workers;
    AssembleFive(Fresh(id, 0), ls);
  }

  /** Every advance ends within its lease, no time passes at all, and yet two of them overlap. */
  lemma RetryBeforeTheRelease(id: nat)
    ensures var ls := RETRIED_TOO_SOON + ResetTooSoon(RetryCas(0), 1, false, 2, 3, 0);
            && IsRun(Fresh(id, 0), ls)
            && TwoAdvances(Final(Fresh(id, 0), ls), 2, 3, 0) && Final(Fresh(id, 0), ls).now == 0
  {
    RetriedTooSoon(id);
    hide IsRun, Final;
    var s := FailedOnce(id);
    assert Held(s);
    LateReleaseLetsAdvancesOverlap(s, RetryCas(0), 1, 2, 3);
    RunConcat(Fresh(id, 0), RETRIED_TOO_SOON, ResetTooSoon(RetryCas(0), 1, false, 2, 3, 0));
  }
}
