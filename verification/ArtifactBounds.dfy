/**
 How often a row can change its status, and how many renders it can begin: bounds over all runs in
 which the lease keeps advances apart, in terms of what users, readers and the renderer did. What is
 counted is really without a bound otherwise.
 */
module ArtifactBounds {
  import opened ArtifactGuarantees
  import opened ArtifactLifecycle
  import opened Mp4Boxes
  import opened Wrappers

  // ------------------------------------------------------------------ counting

  function B(b: bool): nat {
    if b then 1 else 0
  }

  /** The row after the step. */
  ghost function Next(s: State, l: Label): Row
    requires Enabled(s, l)
  {
    Step(s, l).world.row
  }

  ghost predicate Changes(s: State, l: Label)
    requires Enabled(s, l)
  {
    Next(s, l).status != s.world.row.status
  }

  /** A render is taken note of. */
  ghost predicate Dispatched(s: State, l: Label)
    requires Enabled(s, l)
  {
    s.world.row.status.Pending? && Next(s, l).status.Queued?
  }

  /** A job that was working waits again. */
  ghost predicate FallsBack(s: State, l: Label)
    requires Enabled(s, l)
  {
    s.world.row.status.Rendering? && Next(s, l).status.Queued?
  }

  /** A reader reports the video of a ready row as missing. */
  predicate Reported(s: State, l: Label) {
    l.ReportMissing? && s.world.row.status.Ready?
  }

  /** What happened in a run, how often. */
  datatype Tally = Tally(changes: int, dispatches: int, fallbacks: int, resets: int, reports: int)

  function Plus(a: Tally, b: Tally): Tally {
    Tally(a.changes + b.changes, a.dispatches + b.dispatches, a.fallbacks + b.fallbacks, a.resets + b.resets,
          a.reports + b.reports)
  }

  lemma PlusIs(a: Tally, b: Tally, c: Tally)
    requires c.changes == a.changes + b.changes && c.dispatches == a.dispatches + b.dispatches
    requires c.fallbacks == a.fallbacks + b.fallbacks && c.resets == a.resets + b.resets && c.reports == a.reports + b.reports
    ensures Plus(a, b) == c
  {
  }

  const NOTHING := Tally(0, 0, 0, 0, 0)

  ghost function TallyOf(s: State, l: Label): Tally
    requires Enabled(s, l)
  {
    Tally(B(Changes(s, l)), B(Dispatched(s, l)), B(FallsBack(s, l)), B(Resets(s, l)), B(Reported(s, l)))
  }

  ghost function Count(s: State, ls: seq<Label>): Tally
    requires IsRun(s, ls)
    decreases |ls|
  {
    if ls == [] then NOTHING else Plus(TallyOf(s, ls[0]), Count(Step(s, ls[0]), ls[1..]))
  }

  /** How many more status changes the row can go through by itself. */
  function Potential(r: Row): nat
    requires r.attempts <= MAX_AUTO
  {
    if r.status in ACTIVE then 4 * (MAX_AUTO - r.attempts) + Rank(r.status) else 0
  }

  // ------------------------------------------------------------------ the bounds

  lemma CallPotential(x: World, w: Worker, c: Call)
    requires RowOk(x.row) && WorkerOk(w) && Following(x.row, w) && Awaits(w.pc, c)
    requires x.row.status.Pending? ==> x.row.attempts < MAX_AUTO
    ensures var r, q := x.row, RowAfter(x, w, c);
            && q.attempts <= MAX_AUTO
            && Potential(q) + B(q.status != r.status) <= Potential(r) + 2 * B(r.status.Rendering? && q.status.Queued?)
            && B(r.status.Pending? && q.status.Queued?) + r.attempts <= q.attempts
  {
  }

  /** What happened between two rows is paid for by the potential and the attempts. */
  ghost predicate PaidFor(r: Row, q: Row, t: Tally) {
    && r.attempts <= MAX_AUTO && q.attempts <= MAX_AUTO
    && t.changes + Potential(q) <= Potential(r) + 2 * t.fallbacks + (1 + 4 * MAX_AUTO) * t.resets
    && t.dispatches + r.attempts <= q.attempts + MAX_AUTO * t.resets
  }

  lemma PaidForTogether(r: Row, q: Row, p: Row, t: Tally, u: Tally)
    requires PaidFor(r, q, t) && PaidFor(q, p, u)
    ensures PaidFor(r, p, Plus(t, u))
  {
    hide Potential;
  }

  lemma StepPotential(s: State, l: Label)
    requires Tracked(s) && Enabled(s, l)
    ensures PaidFor(s.world.row, Next(s, l), TallyOf(s, l))
  {
    if l.Work? {
      assert Held(s) && Following(s.world.row, s.workers[l.pid]);
      CallPotential(s.world, s.workers[l.pid], l.call);
      hide RowAfter, ObjectAfter, WorkerAfter, Held;
    }
  }

  /** Every status change uses up potential; only fallbacks and resets give some back. */
  lemma {:induction false} ChangesAreBounded(s: State, ls: seq<Label>)
    requires Tracked(s) && IsRun(s, ls) && InTimeRun(s, ls)
    ensures PaidFor(s.world.row, Final(s, ls).world.row, Count(s, ls))
    decreases |ls|
  {
    hide Potential, Tracked;
    if ls == [] {
      AttemptsAreFew(s);
    } else {
      var t := Step(s, ls[0]);
      StepPotential(s, ls[0]);
      StepTracked(s, ls[0]);
      hide Step, Enabled, TallyOf, InTime, PaidFor;
      ChangesAreBounded(t, ls[1..]);
      PaidForTogether(s.world.row, t.world.row, Final(t, ls[1..]).world.row, TallyOf(s, ls[0]), Count(t, ls[1..]));
    }
  }

  lemma AttemptsAreFew(s: State)
    requires Tracked(s)
    ensures s.world.row.attempts <= MAX_AUTO
  {
    assert Held(s);
  }

  lemma EndOfPotential(s: State)
    requires Tracked(s) && s.world.row.attempts <= MAX_AUTO
    ensures Potential(s.world.row) == 0 ==> s.world.row.status !in ACTIVE
    ensures s.world.row.status.Pending? ==> s.world.row.attempts < MAX_AUTO
  {
  }

  /**
   A fresh row changes its status at most 4 * MAX_AUTO times, but for fallbacks of the renderer and
   resets by users and readers. When it has used that up it is ready or failed, and as long as it is
   pending it has an attempt left.
   */
  lemma FreshRowEnds(id: nat, now: int, ls: seq<Label>)
    requires IsRun(Fresh(id, now), ls) && InTimeRun(Fresh(id, now), ls)
    ensures var r, t := Final(Fresh(id, now), ls).world.row, Count(Fresh(id, now), ls);
            var bound := 4 * MAX_AUTO + 2 * t.fallbacks + (1 + 4 * MAX_AUTO) * t.resets;
            && t.changes <= bound
            && (t.changes == bound ==> r.status !in ACTIVE)
            && (r.status.Pending? ==> r.attempts < MAX_AUTO)
  {
    var s := Fresh(id, now);
    assert Tracked(s) && Potential(s.world.row) == 4 * MAX_AUTO;
    hide IsRun, Final, Tracked, Count, InTimeRun;
    RunTracked(s, ls);
    ChangesAreBounded(s, ls);
    EndOfPotential(Final(s, ls));
  }

  // ------------------------------------------------------------------ retries

  /** A retry that takes effect has read the current count: retries of one artifact do not overtake each other. */
  predicate AtomicRetry(s: State, l: Label) {
    l.RetryCas? && s.world.row.status.Failed? ==> l.rid in s.retrying && s.retrying[l.rid] == s.world.row.retries
  }

  ghost predicate AtomicRun(s: State, ls: seq<Label>)
    requires IsRun(s, ls)
    decreases |ls|
  {
    ls == [] || (AtomicRetry(s, ls[0]) && AtomicRun(Step(s, ls[0]), ls[1..]))
  }

  lemma StepRetries(s: State, l: Label)
    requires Enabled(s, l) && AtomicRetry(s, l)
    ensures TallyOf(s, l).resets == Next(s, l).retries - s.world.row.retries + TallyOf(s, l).reports
  {
    if l.Work? {
      CallKeepsRetries(s.world, s.workers[l.pid], l.call);
    }
    hide RowAfter, ObjectAfter, WorkerAfter;
  }

  lemma CallKeepsRetries(x: World, w: Worker, c: Call)
    requires Awaits(w.pc, c)
    ensures RowAfter(x, w, c).retries == x.row.retries
  {
  }

  /** In every interleaving the retry count counts the retries, if they do not overtake each other. */
  lemma {:induction false} RetriesAreCounted(s: State, ls: seq<Label>)
    requires IsRun(s, ls) && AtomicRun(s, ls)
    ensures Count(s, ls).resets == Final(s, ls).world.row.retries - s.world.row.retries + Count(s, ls).reports
    decreases |ls|
  {
    if ls != [] {
      StepRetries(s, ls[0]);
      hide Step, Enabled, TallyOf, AtomicRetry;
      RetriesAreCounted(Step(s, ls[0]), ls[1..]);
    }
  }

  /** Over a whole life: at most MAX_AUTO renders for the registration and for each reset. */
  lemma RendersPerReset(id: nat, now: int, ls: seq<Label>)
    requires IsRun(Fresh(id, now), ls) && InTimeRun(Fresh(id, now), ls)
    ensures var t := Count(Fresh(id, now), ls); t.dispatches <= MAX_AUTO * (1 + t.resets)
  {
    hide IsRun, Final, Count, InTimeRun;
    assert Tracked(Fresh(id, now));
    ChangesAreBounded(Fresh(id, now), ls);
  }

  /** If no retry overtakes another one: MAX_AUTO for the registration, each allowed retry, and each reported loss. */
  lemma RendersOfOneArtifact(id: nat, now: int, ls: seq<Label>)
    requires IsRun(Fresh(id, now), ls) && InTimeRun(Fresh(id, now), ls) && AtomicRun(Fresh(id, now), ls)
    ensures var t := Count(Fresh(id, now), ls); t.dispatches <= MAX_AUTO * (1 + MAX_MANUAL + t.reports)
  {
    RendersPerReset(id, now, ls);
    RetriesAreCounted(Fresh(id, now), ls);
    RunSound(Fresh(id, now), ls);
  }

  // ------------------------------------------------------------------ fallbacks

  /** A job that was seen working is not reported as waiting afterwards. */
  predicate NoFallback(s: State, l: Label) {
    l.Work? && l.call == DoPoll(JobWaiting) ==> l.pid in s.workers && s.workers[l.pid].row.status.Queued?
  }

  ghost predicate NoFallbackRun(s: State, ls: seq<Label>)
    requires IsRun(s, ls)
    decreases |ls|
  {
    ls == [] || (NoFallback(s, ls[0]) && NoFallbackRun(Step(s, ls[0]), ls[1..]))
  }

  /** No worker is about to put the row back to queued. */
  ghost predicate NeverBack(s: State) {
    forall pid :: pid in s.workers ==> !(s.workers[pid].pc.Move? && s.workers[pid].pc.to.Queued?)
  }

  lemma StepNeverBack(s: State, l: Label)
    requires NeverBack(s) && Enabled(s, l) && NoFallback(s, l)
    ensures NeverBack(Step(s, l)) && !FallsBack(s, l)
  {
    if l.Work? {
      CallNeverBack(s.world, s.workers[l.pid], l.call);
      hide RowAfter, ObjectAfter, WorkerAfter;
    }
  }

  lemma CallNeverBack(x: World, w: Worker, c: Call)
    requires Awaits(w.pc, c) && !(w.pc.Move? && w.pc.to.Queued?) && (c == DoPoll(JobWaiting) ==> w.row.status.Queued?)
    ensures !(x.row.status.Rendering? && RowAfter(x, w, c).status.Queued?)
    ensures !c.DoFinish? ==> !(WorkerAfter(x, w, c).pc.Move? && WorkerAfter(x, w, c).pc.to.Queued?)
  {
  }

  /** Fallbacks are the renderer's: without such an answer there are none, in every interleaving. */
  lemma {:induction false} WithoutFallbacks(s: State, ls: seq<Label>)
    requires NeverBack(s) && IsRun(s, ls) && NoFallbackRun(s, ls)
    ensures Count(s, ls).fallbacks == 0
    decreases |ls|
  {
    if ls != [] {
      StepNeverBack(s, ls[0]);
      assert TallyOf(s, ls[0]).fallbacks == 0;
      hide Step, Enabled, TallyOf, NoFallback, NeverBack, FallsBack;
      WithoutFallbacks(Step(s, ls[0]), ls[1..]);
    }
  }

  // ------------------------------------------------------------------ runs that are counted

  /** A run in time, where it ends and what happened in it. */
  ghost predicate Reaches(s: State, ls: seq<Label>, t: State, n: Tally) {
    IsRun(s, ls) && InTimeRun(s, ls) && Final(s, ls) == t && Count(s, ls) == n
  }

  lemma {:induction false} Together(s: State, a: seq<Label>, t: State, n: Tally, b: seq<Label>, u: State, m: Tally)
    requires Reaches(s, a, t, n) && Reaches(t, b, u, m)
    ensures Reaches(s, a + b, u, Plus(n, m))
    decreases |a|
  {
    hide Step, Enabled, InTime, TallyOf;
    if a == [] {
      assert a + b == b;
    } else {
      assert (a + b)[0] == a[0] && (a + b)[1..] == a[1..] + b;
      Together(Step(s, a[0]), a[1..], t, Count(Step(s, a[0]), a[1..]), b, u, m);
    }
  }

  lemma Alone(s: State, l: Label)
    requires Enabled(s, l) && InTime(s, l)
    ensures Reaches(s, [l], Step(s, l), TallyOf(s, l))
  {
    hide Step, Enabled, InTime, TallyOf;
    assert [l][1..] == [] && [l][0] == l;
    assert IsRun(Step(s, l), []) && InTimeRun(Step(s, l), []);
    assert IsRun(s, [l]);
    assert Final(Step(s, l), []) == Step(s, l);
    assert Final(s, [l]) == Final(Step(s, l), [l][1..]);
    assert InTimeRun(s, [l]);
    assert Count(Step(s, l), []) == NOTHING;
    assert Count(s, [l]) == Plus(TallyOf(s, l), Count(Step(s, l), [l][1..]));
    PlusNothing(TallyOf(s, l));
  }

  lemma PlusNothing(t: Tally)
    ensures Plus(t, NOTHING) == t && Plus(NOTHING, t) == t
  {
  }

  lemma OneMore(s: State, ls: seq<Label>, t: State, n: Tally, l: Label)
    requires Reaches(s, ls, t, n) && Enabled(t, l) && InTime(t, l)
    ensures Reaches(s, ls + [l], Step(t, l), Plus(n, TallyOf(t, l)))
  {
    hide Reaches, Step, Enabled, InTime, TallyOf;
    Alone(t, l);
    Together(s, ls, t, n, [l], Step(t, l), TallyOf(t, l));
  }

  /** The state with this worker at work on the row. */
  function Busy(s: State, pid: nat, row: Row, w: Worker): State {
    s.(world := s.world.(row := row), workers := s.workers[pid := w])
  }

  function TallyOfRows(r: Row, q: Row): Tally {
    Tally(B(q.status != r.status), B(r.status.Pending? && q.status.Queued?), B(r.status.Rendering? && q.status.Queued?), 0, 0)
  }

  lemma WorkStep(s: State, pid: nat, row: Row, w: Worker, c: Call)
    requires Awaits(w.pc, c) && !c.DoFinish? && !c.DoPauseError?
    requires ObjectAfter(World(row, s.world.stored), w, c) == s.world.stored
    ensures var x := World(row, s.world.stored);
            var t, l := Busy(s, pid, row, w), Work(pid, c);
            && Enabled(t, l) && InTime(t, l)
            && Step(t, l) == Busy(s, pid, RowAfter(x, w, c), WorkerAfter(x, w, c))
            && TallyOf(t, l) == TallyOfRows(row, RowAfter(x, w, c))
  {
    hide RowAfter, ObjectAfter, WorkerAfter;
    assert s.workers[pid := w][pid := WorkerAfter(World(row, s.world.stored), w, c)]
        == s.workers[pid := WorkerAfter(World(row, s.world.stored), w, c)];
  }

  lemma Works(s: State, ls: seq<Label>, pid: nat, row: Row, w: Worker, n: Tally, c: Call)
    requires Reaches(s, ls, Busy(s, pid, row, w), n)
    requires Awaits(w.pc, c) && !c.DoFinish? && !c.DoPauseError?
    requires ObjectAfter(World(row, s.world.stored), w, c) == s.world.stored
    ensures var x := World(row, s.world.stored);
            Reaches(s, ls + [Work(pid, c)], Busy(s, pid, RowAfter(x, w, c), WorkerAfter(x, w, c)),
                    Plus(n, TallyOfRows(row, RowAfter(x, w, c))))
  {
    WorkStep(s, pid, row, w, c);
    hide RowAfter, ObjectAfter, WorkerAfter, Reaches, Busy, Step, Enabled, InTime, TallyOf;
    OneMore(s, ls, Busy(s, pid, row, w), n, Work(pid, c));
  }

  /** No worker is there and the row is not leased. */
  predicate IsFree(s: State, st: Status) {
    s.workers == map[] && s.world.row.status == st && s.world.row.lease.None? && s.world.stored.None?
  }

  function Leased(s: State): Row {
    s.world.row.(lease := Some(s.now + LEASE_SECONDS))
  }

  lemma Claims(s: State, pid: nat, st: Status)
    requires IsFree(s, st) && st in ACTIVE
    ensures Reaches(s, [Claim(pid, s.now)], Busy(s, pid, Leased(s), Enter(Leased(s), 0)), NOTHING)
  {
    Alone(s, Claim(pid, s.now));
    hide Reaches;
  }

  function Freed(s: State, row: Row): State {
    s.(world := s.world.(row := row.(lease := None)))
  }

  lemma Finishes(s: State, ls: seq<Label>, pid: nat, row: Row, w: Worker, n: Tally)
    requires s.workers == map[] && Reaches(s, ls, Busy(s, pid, row, w), n) && w.pc == Finish(false)
    ensures Reaches(s, ls + [Work(pid, DoFinish(s.now))], Freed(s, row), n)
  {
    OneMore(s, ls, Busy(s, pid, row, w), n, Work(pid, DoFinish(s.now)));
    hide Reaches;
    assert s.workers[pid := w] - {pid} == s.workers;
    assert TallyOf(Busy(s, pid, row, w), Work(pid, DoFinish(s.now))) == NOTHING;
  }

  // ------------------------------------------------------------------ a job that falls back again and again

  const EITHER := {Queued, Rendering}

  /** What the renderer's answer makes of the row. */
  predicate PollLeadsTo(row: Row, job: JobState, to: Status) {
    match job
    case JobLost => row.attempts < MAX_AUTO && to.Pending?
    case JobWorking => row.status.Queued? && to.Rendering?
    case JobWaiting => row.status.Rendering? && to.Queued?
    case _ => false
  }

  /** The worker polls, and moves the row. */
  lemma PollsAndMoves(s: State, ls: seq<Label>, pid: nat, row: Row, k: nat, n: Tally, job: JobState, to: Status)
    requires Reaches(s, ls, Busy(s, pid, row, Worker(row, k, Poll)), n)
    requires row.status in EITHER && k + 1 < MAX_ROUNDS
    requires PollLeadsTo(row, job, to) && to in ACTIVE && to != row.status
    ensures Reaches(s, ls + [Work(pid, DoPoll(job))] + [Work(pid, DoMove)],
                    Busy(s, pid, MadeActive(row, to), Enter(MadeActive(row, to), k + 1)),
                    Plus(n, TallyOfRows(row, MadeActive(row, to))))
  {
    hide Reaches, Busy;
    Works(s, ls, pid, row, Worker(row, k, Poll), n, DoPoll(job));
    Works(s, ls + [Work(pid, DoPoll(job))], pid, row, Worker(row, k, Move(to, EITHER)), n, DoMove);
  }

  /** The worker polls, and nothing has changed. */
  lemma PollsInVain(s: State, ls: seq<Label>, pid: nat, row: Row, k: nat, n: Tally)
    requires Reaches(s, ls, Busy(s, pid, row, Worker(row, k, Poll)), n) && row.status.Queued?
    ensures Reaches(s, ls + [Work(pid, DoPoll(JobWaiting))], Busy(s, pid, row, Worker(row, k, Finish(false))), n)
  {
    hide Reaches, Busy;
    Works(s, ls, pid, row, Worker(row, k, Poll), n, DoPoll(JobWaiting));
  }

  /** One advance in which the job is seen working and then waiting again: nothing has changed after it. */
  lemma FallsBackOnce(s: State, pid: nat) returns (ls: seq<Label>)
    requires IsFree(s, Queued)
    ensures Reaches(s, ls, s, Tally(2, 0, 1, 0, 0))
  {
    hide Reaches, Busy, Valid;
    assert s.world.row.lease.None? && s.world.row.status.Queued?;
    var r := Leased(s);
    var q := MadeActive(r, Rendering);
    assert MadeActive(q, Queued) == r && Freed(s, r) == s;
    Claims(s, pid, Queued);
    ls := [Claim(pid, s.now)];
    PollsAndMoves(s, ls, pid, r, 0, NOTHING, JobWorking, Rendering);
    ls := ls + [Work(pid, DoPoll(JobWorking))] + [Work(pid, DoMove)];
    PollsAndMoves(s, ls, pid, q, 1, Tally(1, 0, 0, 0, 0), JobWaiting, Queued);
    ls := ls + [Work(pid, DoPoll(JobWaiting))] + [Work(pid, DoMove)];
    PollsInVain(s, ls, pid, r, 2, Tally(2, 0, 1, 0, 0));
    ls := ls + [Work(pid, DoPoll(JobWaiting))];
    Finishes(s, ls, pid, r, Worker(r, 2, Finish(false)), Tally(2, 0, 1, 0, 0));
    ls := ls + [Work(pid, DoFinish(s.now))];
  }

  /** So there is no bound without the fallbacks: a queued row may change its status any number of times. */
  lemma {:induction false} FallsBackForever(s: State, pid: nat, n: nat) returns (ls: seq<Label>)
    requires IsFree(s, Queued)
    ensures Reaches(s, ls, s, Tally(2 * n, 0, n, 0, 0))
    decreases n
  {
    if n == 0 {
      ls := [];
    } else {
      hide Reaches, Valid;
      var first := FallsBackOnce(s, pid);
      var more := FallsBackForever(s, pid, n - 1);
      Together(s, first, s, Tally(2, 0, 1, 0, 0), more, s, Tally(2 * (n - 1), 0, n - 1, 0, 0));
      ls := first + more;
    }
  }

  // ------------------------------------------------------------------ retries that overtake each other

  /** The worker finds nothing stored and submits the render. */
  lemma Dispatches(s: State, ls: seq<Label>, pid: nat, row: Row, k: nat, n: Tally) returns (more: seq<Label>, w: Worker)
    requires Reaches(s, ls, Busy(s, pid, row, Worker(row, k, Stat)), n) && s.world.stored.None?
    requires row.status.Pending? && row.attempts < MAX_AUTO && k < MAX_ROUNDS
    ensures var q := MadeQueued(row, row.attempts + 1, 0);
            && Reaches(s, more, Busy(s, pid, q, w), Plus(n, Tally(1, 1, 0, 0, 0)))
            && w == (if k + 1 < MAX_ROUNDS then Worker(q, k + 1, Poll) else Worker(q, k, Finish(false)))
  {
    hide Reaches, Busy;
    var q := MadeQueued(row, row.attempts + 1, 0);
    w := NextRound(Worker(row, k, Enqueue(0)), q);
    Works(s, ls, pid, row, Worker(row, k, Stat), n, DoStat);
    more := ls + [Work(pid, DoStat)];
    Works(s, more, pid, row, Worker(row, k, Submit), n, DoSubmit(Some(0)));
    more := more + [Work(pid, DoSubmit(Some(0)))];
    Works(s, more, pid, row, Worker(row, k, Enqueue(0)), n, DoEnqueue);
    more := more + [Work(pid, DoEnqueue)];
  }

  /** The row as it was, with its attempts used up. */
  function UsedUp(row: Row, status: Status): Row {
    row.(status := status, attempts := MAX_AUTO, job := Some(0), lease := None)
  }

  /** The renderer loses the job, and the worker submits it again. */
  lemma DispatchesAgain(s: State, ls: seq<Label>, pid: nat, row: Row, k: nat, n: Tally) returns (more: seq<Label>, w: Worker)
    requires Reaches(s, ls, Busy(s, pid, row, Worker(row, k, Poll)), n) && s.world.stored.None?
    requires row.status.Queued? && row.attempts < MAX_AUTO && k + 1 < MAX_ROUNDS
    ensures var q := MadeQueued(MadeActive(row, Pending), row.attempts + 1, 0);
            && Reaches(s, more, Busy(s, pid, q, w), Plus(n, Tally(2, 1, 0, 0, 0)))
            && w == (if k + 2 < MAX_ROUNDS then Worker(q, k + 2, Poll) else Worker(q, k + 1, Finish(false)))
  {
    hide Reaches, Busy, Valid;
    var r := MadeActive(row, Pending);
    assert Enter(r, k + 1) == Worker(r, k + 1, Stat) && TallyOfRows(row, r) == Tally(1, 0, 0, 0, 0);
    PollsAndMoves(s, ls, pid, row, k, n, JobLost, Pending);
    hide Enter, TallyOfRows;
    more := ls + [Work(pid, DoPoll(JobLost))] + [Work(pid, DoMove)];
    more, w := Dispatches(s, more, pid, r, k + 1, Plus(n, Tally(1, 0, 0, 0, 0)));
    assert Plus(Plus(n, Tally(1, 0, 0, 0, 0)), Tally(1, 1, 0, 0, 0)) == Plus(n, Tally(2, 1, 0, 0, 0));
  }

  /** The row after n dispatches. */
  function DispatchedRow(r: Row, n: nat): Row
    requires n > 0
  {
    MadeQueued(if n == 1 then r else MadeActive(DispatchedRow(r, n - 1), Pending), n, 0)
  }

  lemma DispatchedRows(r: Row)
    ensures DispatchedRow(r, 1) == MadeQueued(r, 1, 0)
    ensures DispatchedRow(r, 2) == MadeQueued(MadeActive(DispatchedRow(r, 1), Pending), 2, 0)
    ensures DispatchedRow(r, 3) == MadeQueued(MadeActive(DispatchedRow(r, 2), Pending), 3, 0)
    ensures DispatchedRow(r, 3) == r.(status := Queued, attempts := MAX_AUTO, job := Some(0))
  {
  }

  lemma {:induction false} DispatchedIsQueued(r: Row, n: nat)
    requires n > 0
    ensures DispatchedRow(r, n).status.Queued? && DispatchedRow(r, n).attempts == n
  {
  }

  lemma DispatchesFirst(s: State, ls: seq<Label>, pid: nat, row: Row, n: Tally) returns (more: seq<Label>, w: Worker)
    requires Reaches(s, ls, Busy(s, pid, row, Worker(row, 0, Stat)), n) && n == NOTHING && s.world.stored.None?
    requires row.status.Pending? && row.attempts == 0
    ensures Reaches(s, more, Busy(s, pid, MadeQueued(row, 1, 0), w), Tally(1, 1, 0, 0, 0))
    ensures w == Worker(MadeQueued(row, 1, 0), 1, Poll)
  {
    PlusIs(n, Tally(1, 1, 0, 0, 0), Tally(1, 1, 0, 0, 0));
    hide Reaches, Busy, Valid, Plus, MadeQueued;
    more, w := Dispatches(s, ls, pid, row, 0, n);
  }

  /** The first third of an advance in which the renderer loses every job. */
  lemma RendersOnce(s: State, pid: nat) returns (ls: seq<Label>)
    requires IsFree(s, Pending) && s.world.row.attempts == 0
    ensures var q := DispatchedRow(Leased(s), 1);
            Reaches(s, ls, Busy(s, pid, q, Worker(q, 1, Poll)), Tally(1, 1, 0, 0, 0))
  {
    hide Reaches, Busy, Valid;
    var r := Leased(s);
    DispatchedRows(r);
    assert r.status.Pending? && r.attempts == 0 && Enter(r, 0) == Worker(r, 0, Stat) && s.world.stored.None?;
    Claims(s, pid, Pending);
    hide MadeQueued, Enter, IsFree, Plus, Leased, DispatchedRow;
    var w: Worker;
    ls, w := DispatchesFirst(s, [Claim(pid, s.now)], pid, r, NOTHING);
  }

  /** The first two thirds. */
  lemma RendersTwice(s: State, pid: nat) returns (ls: seq<Label>)
    requires IsFree(s, Pending) && s.world.row.attempts == 0
    ensures var q := DispatchedRow(Leased(s), 2);
            Reaches(s, ls, Busy(s, pid, q, Worker(q, 3, Poll)), Tally(3, 2, 0, 0, 0))
  {
    hide Reaches, Busy, Valid;
    var r := Leased(s);
    DispatchedRows(r);
    DispatchedIsQueued(r, 1);
    assert s.world.stored.None?;
    ls := RendersOnce(s, pid);
    hide MadeQueued, MadeActive, IsFree, Plus, Leased, DispatchedRow;
    PlusIs(Tally(1, 1, 0, 0, 0), Tally(2, 1, 0, 0, 0), Tally(3, 2, 0, 0, 0));
    var w: Worker;
    ls, w := DispatchesAgain(s, ls, pid, DispatchedRow(r, 1), 1, Tally(1, 1, 0, 0, 0));
  }

  /** All three renders; the rounds are used up. */
  lemma RendersAgain(s: State, pid: nat) returns (ls: seq<Label>, w: Worker)
    requires IsFree(s, Pending) && s.world.row.attempts == 0
    ensures w.pc == Finish(false)
    ensures Reaches(s, ls, Busy(s, pid, DispatchedRow(Leased(s), 3), w), Tally(5, 3, 0, 0, 0))
  {
    hide Reaches, Busy, Valid;
    var r := Leased(s);
    DispatchedRows(r);
    DispatchedIsQueued(r, 2);
    assert s.world.stored.None?;
    ls := RendersTwice(s, pid);
    hide MadeQueued, MadeActive, IsFree, Plus, Leased, DispatchedRow;
    PlusIs(Tally(3, 2, 0, 0, 0), Tally(2, 1, 0, 0, 0), Tally(5, 3, 0, 0, 0));
    ls, w := DispatchesAgain(s, ls, pid, DispatchedRow(r, 2), 3, Tally(3, 2, 0, 0, 0));
  }

  /** One advance in which the renderer loses every job: three renders are begun. */
  lemma RendersThrice(s: State, pid: nat) returns (ls: seq<Label>)
    requires IsFree(s, Pending) && s.world.row.attempts == 0 && s.world.row.job.None?
    ensures Reaches(s, ls, Freed(s, UsedUp(s.world.row, Queued)), Tally(5, 3, 0, 0, 0))
  {
    hide Reaches, Busy, Valid, Plus;
    var r := Leased(s);
    DispatchedRows(r);
    hide DispatchedRow;
    assert Freed(s, DispatchedRow(r, 3)) == Freed(s, UsedUp(s.world.row, Queued));
    assert s.workers == map[];
    hide Leased, Freed, UsedUp, MadeQueued, MadeActive;
    var w;
    ls, w := RendersAgain(s, pid);
    hide IsFree;
    Finishes(s, ls, pid, DispatchedRow(r, 3), w, Tally(5, 3, 0, 0, 0));
    ls := ls + [Work(pid, DoFinish(s.now))];
  }

  /** Nothing is left to try for a lost job. */
  lemma PollsForNothing(s: State, ls: seq<Label>, pid: nat, row: Row)
    requires Reaches(s, ls, Busy(s, pid, row, Worker(row, 0, Poll)), NOTHING)
    requires row.status.Queued? && row.attempts >= MAX_AUTO
    ensures Reaches(s, ls + [Work(pid, DoPoll(JobLost))], Busy(s, pid, row, Worker(row, 0, GiveUp)), NOTHING)
  {
    hide Reaches, Busy, Valid, Plus;
    var x := World(row, s.world.stored);
    assert WorkerAfter(x, Worker(row, 0, Poll), DoPoll(JobLost)) == Worker(row, 0, GiveUp);
    assert RowAfter(x, Worker(row, 0, Poll), DoPoll(JobLost)) == row;
    hide RowAfter, WorkerAfter;
    PlusIs(NOTHING, TallyOfRows(row, row), NOTHING);
    Works(s, ls, pid, row, Worker(row, 0, Poll), NOTHING, DoPoll(JobLost));
  }

  lemma GivesUp(s: State, ls: seq<Label>, pid: nat, row: Row)
    requires Reaches(s, ls, Busy(s, pid, row, Worker(row, 0, GiveUp)), NOTHING) && row.status.Queued?
    ensures Reaches(s, ls + [Work(pid, DoGiveUp)], Busy(s, pid, MadeFailed(row), Worker(row, 0, Finish(false))),
                    Tally(1, 0, 0, 0, 0))
  {
    hide Reaches, Busy, Valid, Plus;
    var x := World(row, s.world.stored);
    assert WorkerAfter(x, Worker(row, 0, GiveUp), DoGiveUp) == Worker(row, 0, Finish(false));
    assert RowAfter(x, Worker(row, 0, GiveUp), DoGiveUp) == MadeFailed(row);
    hide RowAfter, WorkerAfter;
    assert TallyOfRows(row, MadeFailed(row)) == Tally(1, 0, 0, 0, 0);
    hide TallyOfRows, MadeFailed;
    PlusNothing(Tally(1, 0, 0, 0, 0));
    Works(s, ls, pid, row, Worker(row, 0, GiveUp), NOTHING, DoGiveUp);
  }

  /** The next advance fails the row. */
  lemma FailsIt(s: State, pid: nat) returns (ls: seq<Label>)
    requires IsFree(s, Queued) && s.world.row.attempts == MAX_AUTO
    ensures Reaches(s, ls, Freed(s, s.world.row.(status := Failed)), Tally(1, 0, 0, 0, 0))
  {
    hide Reaches, Busy, Valid;
    var r := Leased(s);
    assert MadeFailed(r).(lease := None) == s.world.row.(status := Failed, lease := None);
    assert Freed(s, MadeFailed(r)) == Freed(s, s.world.row.(status := Failed));
    assert Enter(r, 0) == Worker(r, 0, Poll);
    Claims(s, pid, Queued);
    ls := [Claim(pid, s.now)];
    PollsForNothing(s, ls, pid, r);
    ls := ls + [Work(pid, DoPoll(JobLost))];
    GivesUp(s, ls, pid, r);
    ls := ls + [Work(pid, DoGiveUp)];
    Finishes(s, ls, pid, MadeFailed(r), Worker(r, 0, Finish(false)), Tally(1, 0, 0, 0, 0));
    ls := ls + [Work(pid, DoFinish(s.now))];
  }

  /** A pending row uses up its attempts and fails. */
  lemma Exhausts(s: State, pid: nat) returns (ls: seq<Label>)
    requires IsFree(s, Pending) && s.world.row.attempts == 0 && s.world.row.job.None?
    ensures Reaches(s, ls, Freed(s, UsedUp(s.world.row, Failed)), Tally(6, 3, 0, 0, 0))
  {
    hide Reaches, Valid;
    var t := Freed(s, UsedUp(s.world.row, Queued));
    var a := RendersThrice(s, pid);
    var b := FailsIt(t, pid);
    var u := Freed(s, UsedUp(s.world.row, Failed));
    assert Freed(t, t.world.row.(status := Failed)) == u;
    Together(s, a, t, Tally(5, 3, 0, 0, 0), b, u, Tally(1, 0, 0, 0, 0));
    ls := a + b;
  }

  /** n running `retry` calls have read the same count. */
  function Stale(n: nat, count: nat): (m: map<nat, nat>)
    ensures forall i :: i in m <==> 0 <= i < n
  {
    if n == 0 then map[] else Stale(n - 1, count)[n - 1 := count]
  }

  /** A retry that read an older count. */
  lemma RetriesOnce(s: State, n: nat, count: nat)
    requires IsFree(s, Failed) && n > 0 && s.retrying == Stale(n, count)
    ensures var r := MadeRetried(s.world.row, count + 1);
            Reaches(s, [RetryCas(n - 1)], Freed(s, r).(retrying := Stale(n - 1, count)), Tally(1, 0, 0, 1, 0))
  {
    hide Reaches, Valid;
    var l := RetryCas(n - 1);
    assert Stale(n, count) - {n - 1} == Stale(n - 1, count);
    assert TallyOf(s, l) == Tally(1, 0, 0, 1, 0);
    Alone(s, l);
  }

  /** Each of them makes the failed row pending again, though the count goes up only once. */
  lemma {:induction false} StaleRetriesGoOn(s: State, n: nat, count: nat) returns (ls: seq<Label>, t: State)
    requires IsFree(s, Failed) && s.retrying == Stale(n, count)
    ensures Reaches(s, ls, t, Tally(7 * n, MAX_AUTO * n, 0, n, 0))
    ensures t.world.row.retries == if n == 0 then s.world.row.retries else count + 1
    decreases n
  {
    hide Reaches, Valid;
    if n == 0 {
      Stays(s);
      ls, t := [], s;
    } else {
      RetriesOnce(s, n, count);
      var s1 := Freed(s, MadeRetried(s.world.row, count + 1)).(retrying := Stale(n - 1, count));
      var a := Exhausts(s1, 0);
      var s2 := Freed(s1, UsedUp(s1.world.row, Failed));
      hide Stale;
      var b;
      b, t := StaleRetriesGoOn(s2, n - 1, count);
      Together(s, [RetryCas(n - 1)], s1, Tally(1, 0, 0, 1, 0), a, s2, Tally(6, 3, 0, 0, 0));
      Together(s, [RetryCas(n - 1)] + a, s2, Tally(7, 3, 0, 1, 0), b, t, Tally(7 * (n - 1), MAX_AUTO * (n - 1), 0, n - 1, 0));
      ls := [RetryCas(n - 1)] + a + b;
    }
  }

  lemma Stays(s: State)
    ensures Reaches(s, [], s, NOTHING)
  {
  }

  /** The retry calls begin, one after the other. */
  lemma {:induction false} RetriesBegin(s: State, n: nat) returns (ls: seq<Label>)
    requires IsFree(s, Failed) && s.world.row.retries < MAX_MANUAL && s.retrying == map[]
    ensures Reaches(s, ls, s.(retrying := Stale(n, s.world.row.retries)), NOTHING)
    decreases n
  {
    hide Reaches, Valid;
    var count := s.world.row.retries;
    if n == 0 {
      Stays(s);
      ls := [];
      assert s.(retrying := Stale(0, count)) == s;
    } else {
      ls := RetriesBegin(s, n - 1);
      ReadsAgain(s.(retrying := Stale(n - 1, count)), n);
      Together(s, ls, s.(retrying := Stale(n - 1, count)), NOTHING, [RetryRead(n - 1)], s.(retrying := Stale(n, count)), NOTHING);
      ls := ls + [RetryRead(n - 1)];
    }
  }

  lemma ReadsAgain(s: State, n: nat)
    requires IsFree(s, Failed) && s.world.row.retries < MAX_MANUAL && n > 0 && s.retrying == Stale(n - 1, s.world.row.retries)
    ensures Reaches(s, [RetryRead(n - 1)], s.(retrying := Stale(n, s.world.row.retries)), NOTHING)
  {
    hide Reaches, Valid;
    assert TallyOf(s, RetryRead(n - 1)) == NOTHING;
    Alone(s, RetryRead(n - 1));
  }

  /**
   So there is no bound without that condition: n retries that have read the same count begin n times
   as many renders, and the count still says that one retry was made.
   */
  lemma StaleRetriesHaveNoBound(id: nat, now: int, n: nat) returns (ls: seq<Label>)
    ensures IsRun(Fresh(id, now), ls) && InTimeRun(Fresh(id, now), ls)
    ensures Count(Fresh(id, now), ls).dispatches == MAX_AUTO * (1 + n) && Count(Fresh(id, now), ls).reports == 0
    ensures Final(Fresh(id, now), ls).world.row.retries <= 1
  {
    hide Valid, Stale;
    var s := Fresh(id, now);
    var s1 := Freed(s, UsedUp(s.world.row, Failed));
    var s2 := s1.(retrying := Stale(n, 0));
    var a := Exhausts(s, 0);
    var b := RetriesBegin(s1, n);
    var c, t := StaleRetriesGoOn(s2, n, 0);
    Together(s, a, s1, Tally(6, 3, 0, 0, 0), b, s2, NOTHING);
    Together(s, a + b, s2, Tally(6, 3, 0, 0, 0), c, t, Tally(7 * n, MAX_AUTO * n, 0, n, 0));
    ls := a + b + c;
  }

  /** Nor are the status changes bounded otherwise: a renderer whose job waits again and again makes any number of them. */
  lemma FallbacksHaveNoBound(id: nat, now: int, n: nat) returns (ls: seq<Label>)
    ensures IsRun(Fresh(id, now), ls) && InTimeRun(Fresh(id, now), ls)
    ensures Count(Fresh(id, now), ls) == Tally(1 + 2 * n, 1, n, 0, 0)
  {
    var s := Fresh(id, now);
    var t, a := WaitsForTheRenderer(s, 0);
    var b := FallsBackForever(t, 0, n);
    hide Valid;
    Together(s, a, t, Tally(1, 1, 0, 0, 0), b, t, Tally(2 * n, 0, n, 0, 0));
    PlusIs(Tally(1, 1, 0, 0, 0), Tally(2 * n, 0, n, 0, 0), Tally(1 + 2 * n, 1, n, 0, 0));
    ls := a + b;
  }

  /** One advance that submits the render and leaves the job waiting. */
  lemma WaitsForTheRenderer(s: State, pid: nat) returns (t: State, ls: seq<Label>)
    requires IsFree(s, Pending) && s.world.row.attempts == 0
    ensures IsFree(t, Queued) && Reaches(s, ls, t, Tally(1, 1, 0, 0, 0))
  {
    hide Reaches, Busy, Valid, Plus;
    var q := DispatchedRow(Leased(s), 1);
    DispatchedIsQueued(Leased(s), 1);
    t := Freed(s, q);
    assert IsFree(t, Queued) && s.workers == map[];
    ls := RendersOnce(s, pid);
    hide IsFree, Freed, Leased, DispatchedRow;
    PollsInVain(s, ls, pid, q, 1, Tally(1, 1, 0, 0, 0));
    ls := ls + [Work(pid, DoPoll(JobWaiting))];
    Finishes(s, ls, pid, q, Worker(q, 1, Finish(false)), Tally(1, 1, 0, 0, 0));
    ls := ls + [Work(pid, DoFinish(s.now))];
  }

  // ------------------------------------------------------------------ advances that overlap

  lemma PlusIsAssociative(a: Tally, b: Tally, c: Tally)
    ensures Plus(Plus(a, b), c) == Plus(a, Plus(b, c))
  {
  }

  lemma {:induction false} CountConcat(s: State, a: seq<Label>, b: seq<Label>)
    requires IsRun(s, a) && IsRun(Final(s, a), b)
    ensures IsRun(s, a + b) && Count(s, a + b) == Plus(Count(s, a), Count(Final(s, a), b))
    decreases |a|
  {
    hide Step, Enabled, TallyOf, Plus;
    RunConcat(s, a, b);
    if a == [] {
      assert a + b == b;
      PlusNothing(Count(s, b));
    } else {
      var t, more := Step(s, a[0]), a[1..];
      assert (a + b)[0] == a[0] && (a + b)[1..] == more + b;
      CountConcat(t, more, b);
      assert Final(t, more) == Final(s, a);
      PlusIsAssociative(TallyOf(s, a[0]), Count(t, more), Count(Final(s, a), b));
    }
  }

  /** The worker has submitted a render and not yet taken note of it. */
  lemma Submits(s: State, pid: nat) returns (ls: seq<Label>)
    requires IsFree(s, Pending) && s.world.row.attempts == 0
    ensures Reaches(s, ls, Busy(s, pid, Leased(s), Worker(Leased(s), 0, Enqueue(0))), NOTHING)
  {
    hide Reaches, Busy, Valid, Plus;
    var r := Leased(s);
    assert Enter(r, 0) == Worker(r, 0, Stat) && TallyOfRows(r, r) == NOTHING && s.world.stored.None?;
    PlusNothing(NOTHING);
    Claims(s, pid, Pending);
    hide Leased, IsFree;
    ls := [Claim(pid, s.now)];
    Works(s, ls, pid, r, Worker(r, 0, Stat), NOTHING, DoStat);
    ls := ls + [Work(pid, DoStat)];
    Works(s, ls, pid, r, Worker(r, 0, Submit), NOTHING, DoSubmit(Some(0)));
    ls := ls + [Work(pid, DoSubmit(Some(0)))];
  }

  /** A claim beside another worker, and two renders that are lost. */
  lemma RendersBeside(s: State, pid: nat) returns (ls: seq<Label>)
    requires Enabled(s, Claim(pid, s.now)) && s.world.stored.None?
    requires s.world.row.status.Pending? && s.world.row.attempts == 0
    ensures var r := MadeActive(DispatchedRow(Leased(s), 2), Pending);
            Reaches(s, ls, Busy(s, pid, r, Worker(r, 4, Stat)), Tally(4, 2, 0, 0, 0))
  {
    hide Reaches, Valid;
    var r := Leased(s);
    DispatchedRows(r);
    DispatchedIsQueued(r, 1);
    DispatchedIsQueued(r, 2);
    Alone(s, Claim(pid, s.now));
    assert TallyOf(s, Claim(pid, s.now)) == NOTHING && Enter(r, 0) == Worker(r, 0, Stat);
    assert r.status.Pending? && r.attempts == 0;
    var p := MadeActive(DispatchedRow(r, 2), Pending);
    assert Enter(p, 4) == Worker(p, 4, Stat) && TallyOfRows(DispatchedRow(r, 2), p) == Tally(1, 0, 0, 0, 0);
    hide MadeQueued, MadeActive, Enter, Plus, Leased, DispatchedRow, Enabled, Step, TallyOf, TallyOfRows, Busy;
    var w: Worker;
    ls, w := DispatchesFirst(s, [Claim(pid, s.now)], pid, r, NOTHING);
    ls := DispatchesTwice(s, ls, pid, r);
    PlusIs(Tally(3, 2, 0, 0, 0), Tally(1, 0, 0, 0, 0), Tally(4, 2, 0, 0, 0));
    PollsAndMoves(s, ls, pid, DispatchedRow(r, 2), 3, Tally(3, 2, 0, 0, 0), JobLost, Pending);
    ls := ls + [Work(pid, DoPoll(JobLost))] + [Work(pid, DoMove)];
  }

  lemma DispatchesTwice(s: State, ls: seq<Label>, pid: nat, r: Row) returns (more: seq<Label>)
    requires var q := DispatchedRow(r, 1); Reaches(s, ls, Busy(s, pid, q, Worker(q, 1, Poll)), Tally(1, 1, 0, 0, 0))
    requires s.world.stored.None?
    ensures var q := DispatchedRow(r, 2); Reaches(s, more, Busy(s, pid, q, Worker(q, 3, Poll)), Tally(3, 2, 0, 0, 0))
  {
    hide Reaches, Busy, Valid;
    DispatchedRows(r);
    DispatchedIsQueued(r, 1);
    hide MadeQueued, MadeActive, Plus, DispatchedRow;
    PlusIs(Tally(1, 1, 0, 0, 0), Tally(2, 1, 0, 0, 0), Tally(3, 2, 0, 0, 0));
    var w: Worker;
    more, w := DispatchesAgain(s, ls, pid, DispatchedRow(r, 1), 1, Tally(1, 1, 0, 0, 0));
  }

  /** A late worker takes note of its render: by its snapshot it is the first one. */
  lemma EnqueuesLate(s: State, pid: nat, row: Row)
    requires pid in s.workers && s.workers[pid] == Worker(row, 0, Enqueue(0)) && row.attempts == 0 && row.status.Pending?
    requires s.world.row.status.Pending?
    ensures var l := Work(pid, DoEnqueue);
            && Enabled(s, l)
            && var q := MadeQueued(s.world.row, 1, 0);
               && Reaches(s, [l], Step(s, l), Tally(1, 1, 0, 0, 0))
               && Step(s, l) == Busy(Step(s, l), pid, q, Worker(q, 1, Poll)) && Step(s, l).world.stored == s.world.stored
  {
    var l := Work(pid, DoEnqueue);
    var q := MadeQueued(s.world.row, 1, 0);
    var t := Step(s, l);
    assert t.workers[pid] == Worker(q, 1, Poll) && Busy(t, pid, q, Worker(q, 1, Poll)) == t;
    assert TallyOf(s, l) == Tally(1, 1, 0, 0, 0);
    Alone(s, l);
    hide Reaches;
  }

  /** So there are attempts left again, and the renderer loses another job. */
  lemma TakesNoteLate(s: State, pid: nat, row: Row) returns (ls: seq<Label>)
    requires pid in s.workers && s.workers[pid] == Worker(row, 0, Enqueue(0)) && row.attempts == 0 && row.status.Pending?
    requires s.world.row.status.Pending? && s.world.stored.None?
    ensures IsRun(s, ls) && Count(s, ls) == Tally(3, 2, 0, 0, 0)
  {
    hide Valid, Reaches, Step, Enabled, TallyOf, Busy, Plus;
    var l := Work(pid, DoEnqueue);
    var q := MadeQueued(s.world.row, 1, 0);
    EnqueuesLate(s, pid, row);
    assert q.status.Queued? && q.attempts == 1;
    var t := Step(s, l);
    Stays(t);
    hide MadeQueued;
    var more, w := DispatchesAgain(t, [], pid, q, 1, NOTHING);
    PlusIs(NOTHING, Tally(2, 1, 0, 0, 0), Tally(2, 1, 0, 0, 0));
    PlusIs(Tally(1, 1, 0, 0, 0), Tally(2, 1, 0, 0, 0), Tally(3, 2, 0, 0, 0));
    var u := Busy(t, pid, MadeQueued(MadeActive(q, Pending), 2, 0), w);
    Together(s, [l], t, Tally(1, 1, 0, 0, 0), more, u, Tally(2, 1, 0, 0, 0));
    ls := [l] + more;
    CountReached(s, ls, u, Tally(3, 2, 0, 0, 0));
  }

  lemma CountReached(s: State, ls: seq<Label>, t: State, n: Tally)
    requires Reaches(s, ls, t, n)
    ensures IsRun(s, ls) && Final(s, ls) == t && Count(s, ls) == n
  {
  }

  /** Without the lease keeping advances apart the bound does not hold: one more render, and nobody reset the row. */
  lemma OverlapRendersTooOften(id: nat, now: int) returns (ls: seq<Label>)
    ensures IsRun(Fresh(id, now), ls)
    ensures Count(Fresh(id, now), ls).dispatches == MAX_AUTO + 1 && Count(Fresh(id, now), ls).resets == 0
  {
    hide Valid, Reaches;
    var s := Fresh(id, now);
    var a := Submits(s, 0);
    var s1 := Busy(s, 0, Leased(s), Worker(Leased(s), 0, Enqueue(0)));
    CountReached(s, a, s1, NOTHING);
    var tick := Tick(now + LEASE_SECONDS + 1);
    var s2 := Step(s1, tick);
    assert TallyOf(s1, tick) == NOTHING;
    var b := RendersBeside(s2, 1);
    var r := MadeActive(DispatchedRow(Leased(s2), 2), Pending);
    var s3 := Busy(s2, 1, r, Worker(r, 4, Stat));
    CountReached(s2, b, s3, Tally(4, 2, 0, 0, 0));
    assert s3.workers[0] == s1.workers[0] && s3.world.stored.None?;
    hide DispatchedRow;
    var c := TakesNoteLate(s3, 0, Leased(s));
    hide IsRun, Final, Count, Step, Enabled, TallyOf, Busy, Leased;
    AfterTick(s1, tick, b + c);
    CountConcat(s2, b, c);
    CountConcat(s, a, [tick] + (b + c));
    ls := a + ([tick] + (b + c));
  }

  lemma AfterTick(s: State, l: Label, ls: seq<Label>)
    requires Enabled(s, l) && TallyOf(s, l) == NOTHING
    ensures IsRun(Step(s, l), ls) ==> IsRun(s, [l] + ls) && Count(s, [l] + ls) == Count(Step(s, l), ls)
  {
    hide Step, Enabled, TallyOf;
    assert ([l] + ls)[1..] == ls && ([l] + ls)[0] == l;
    if IsRun(Step(s, l), ls) {
      PlusNothing(Count(Step(s, l), ls));
    }
  }
}
