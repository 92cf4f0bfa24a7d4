/**
 What one step, and one whole `advance`, of the artifact service makes of the row and the stored video when
 nobody else is in between (app/artifacts/service.py): by the answers of the renderer and by what breaks.
 This is said on rows alone, without workers and awaits; `ArtifactService` proves that the code, which
 takes the steps of a worker of `ArtifactLifecycle`, comes to the same.
 */
module ArtifactRounds {
  import opened ArtifactLifecycle
  import opened Mp4Boxes
  import opened Wrappers

  /** The await of a round at which the remote side breaks down. */
  datatype Await = AtStat | AtFetch | AtDiscard | AtAdopt | AtSubmit | AtEnqueue | AtGiveUp | AtPoll | AtMove | AtDownload
    | AtStore | AtConfirm | AtPublish

  /**
   What the renderer answers in one round of `advance`, and what breaks: before it takes effect, or after. Of the
   breaks some are cancellations of the task and the others exceptions.
   */
  datatype Round = Round(
    submit: Option<nat>,
    job: JobState,
    fetched: Fetched,
    lost: set<Await>,
    applied: set<Await>,
    cancelled: set<Await>
  ) {
    predicate Breaks(a: Await) { a in lost || a in applied }

    function Interrupted(a: Await): Ending { if a in cancelled then Cancelled else Raised }
  }

  /** How a step of `advance` ends: with a row, with None, with an exception, or with the cancellation of the task. */
  datatype Ending = WithRow(row: Row) | WithNone | Raised | Cancelled

  /** How a write of the lease goes: done, or broken before or after it took effect. */
  datatype Io = Done | Lost | Applied

  // ------------------------------------------------------------------ one step

  /** What is left of a step, and how it ends. */
  datatype Stepped = Stepped(world: World, ending: Ending)

  /** A write at an await: it may break, before or after it took effect. */
  function Write(x: World, y: World, a: Await, e: Ending, r: Round): Stepped {
    Stepped(if a in r.lost then x else y, if r.Breaks(a) then r.Interrupted(a) else e)
  }

  function WithFailed(x: World, r: Round): Stepped {
    Write(x, x.(row := x.row.(status := Failed, lease := None)), AtGiveUp, WithNone, r)
  }

  function WithStatus(x: World, row: Row, r: Round): Stepped {
    Write(x, x.(row := row), AtMove, WithRow(row), r)
  }

  /** The row of a ready artifact. */
  function ReadyRow(row: Row, video: seq<Byte>): Row {
    row.(status := Ready, objectKey := Some(VideoKey(row.id)), size := Some(|video|), checksum := Some(Sha256(video)),
         mime := Some("video/mp4"), lease := None)
  }

  /** The render is gone: again while attempts are left. */
  function Rerendered(x: World, r: Round): Stepped {
    if x.row.attempts >= MAX_AUTO then WithFailed(x, r) else WithStatus(x, x.row.(status := Pending, job := None), r)
  }

  function PollOf(x: World, r: Round): Stepped {
    if r.Breaks(AtPoll) then Stepped(x, r.Interrupted(AtPoll))
    else
      match r.job
      case JobLost => Rerendered(x, r)
      case JobReady => WithStatus(x, x.row.(status := Uploading), r)
      case JobOver => WithFailed(x, r)
      case JobTimedOut => WithFailed(x, r)
      case JobWaiting => if x.row.status == Queued then Stepped(x, WithRow(x.row)) else WithStatus(x, x.row.(status := Queued), r)
      case JobWorking =>
        if x.row.status == Rendering then Stepped(x, WithRow(x.row)) else WithStatus(x, x.row.(status := Rendering), r)
  }

  function SubmitOf(x: World, r: Round): Stepped {
    if x.row.attempts >= MAX_AUTO then WithFailed(x, r)
    else if r.Breaks(AtSubmit) then Stepped(x, r.Interrupted(AtSubmit))
    else if r.submit.None? then WithFailed(x, r)
    else
      var queued := x.row.(status := Queued, attempts := x.row.attempts + 1, job := r.submit);
      Write(x, x.(row := queued), AtEnqueue, WithRow(queued), r)
  }

  function StoreOf(x: World, video: seq<Byte>, r: Round): Stepped {
    var y := if AtStore in r.lost then x else x.(stored := Some(video));
    if r.Breaks(AtStore) then Stepped(y, r.Interrupted(AtStore))
    else if r.Breaks(AtConfirm) then Stepped(y, r.Interrupted(AtConfirm))
    else Write(y, y.(row := ReadyRow(x.row, video)), AtPublish, WithRow(ReadyRow(x.row, video)), r)
  }

  ghost function DownloadOf(x: World, r: Round): Stepped {
    if r.Breaks(AtDownload) then Stepped(x, r.Interrupted(AtDownload))
    else
      match r.fetched
      case NotFound => Rerendered(x, r)
      case Refused => WithFailed(x, r)
      case Bytes(video) => if Valid(video) then StoreOf(x, video, r) else WithFailed(x, r)
  }

  /** A stored valid video is adopted and an invalid one deleted; without one `_dispatch` or `_upload` go on. */
  ghost function AdoptOf(x: World, r: Round): Stepped {
    if r.Breaks(AtStat) then Stepped(x, r.Interrupted(AtStat))
    else if x.stored.None? then GoOn(x, r)
    else if r.Breaks(AtFetch) then Stepped(x, r.Interrupted(AtFetch))
    else if Valid(x.stored.value) then
      var row := ReadyRow(x.row, x.stored.value);
      Write(x, x.(row := row), AtAdopt, WithRow(row), r)
    else
      var y := if AtDiscard in r.lost then x else x.(stored := None);
      if r.Breaks(AtDiscard) then Stepped(y, r.Interrupted(AtDiscard)) else GoOn(y, r)
  }

  ghost function GoOn(x: World, r: Round): Stepped {
    if x.row.status == Uploading then DownloadOf(x, r) else SubmitOf(x, r)
  }

  /** `_step` on an active row. */
  ghost function StepOf(x: World, r: Round): Stepped {
    if x.row.status == Queued || x.row.status == Rendering then PollOf(x, r) else AdoptOf(x, r)
  }

  lemma RowInHand(x: World, r: Round)
    ensures StepOf(x, r).ending.WithRow? ==> StepOf(x, r).ending.row == StepOf(x, r).world.row
  {
  }

  // ------------------------------------------------------------------ a whole advance

  /** The rounds from the i-th on, while the status changes and is not final, at most five. */
  ghost function RoundsOf(x: World, rounds: seq<Round>, i: nat): Stepped
    requires |rounds| == MAX_ROUNDS && i < MAX_ROUNDS
    decreases MAX_ROUNDS - i
  {
    var s := StepOf(x, rounds[i]);
    if s.ending.WithRow? && s.ending.row.status in ACTIVE && s.ending.row.status != x.row.status && i + 1 < MAX_ROUNDS
    then RoundsOf(s.world, rounds, i + 1)
    else s
  }

  function LastLease(lease: Option<int>, pause: bool, backoff: Io, release: Io, later: int): Option<int> {
    if pause && backoff.Done? then Some(later + BACKOFF_SECONDS)
    else if !release.Lost? then None
    else if pause && backoff.Applied? then Some(later + BACKOFF_SECONDS)
    else lease
  }

  lemma RoundsGoOn(x: World, rounds: seq<Round>, i: nat)
    requires |rounds| == MAX_ROUNDS && i < MAX_ROUNDS
    ensures var s := StepOf(x, rounds[i]);
            && (s.ending.WithRow? ==> s.ending.row == s.world.row)
            && RoundsOf(x, rounds, i) ==
                 if s.ending.WithRow? && s.ending.row.status in ACTIVE && s.ending.row.status != x.row.status && i + 1 < MAX_ROUNDS
                 then RoundsOf(s.world, rounds, i + 1) else s
  {
    RowInHand(x, rounds[i]);
  }

  /** Whatever has failed at the renderer ends the advance, and the artifact. */
  lemma FailedRoundEnds(x: World, rounds: seq<Round>)
    requires |rounds| == MAX_ROUNDS
    ensures x.row.status in {Queued, Rendering} && rounds[0].lost == {} && rounds[0].applied == {}
            && (rounds[0].job == JobOver || rounds[0].job == JobTimedOut) ==>
              RoundsOf(x, rounds, 0) == Stepped(World(x.row.(status := Failed, lease := None), x.stored), WithNone)
  {
  }

  predicate Smooth(r: Round) {
    r.lost == {} && r.applied == {}
  }

  /** When the renderer is quick, one advance takes a new artifact through all of it. */
  lemma OnePass(x: World, rounds: seq<Round>, video: seq<Byte>)
    requires |rounds| == MAX_ROUNDS && forall i :: 0 <= i < 3 ==> Smooth(rounds[i])
    requires x.row.status == Pending && x.row.attempts < MAX_AUTO && x.stored == None
    requires rounds[0].submit.Some? && rounds[1].job == JobReady && rounds[2].fetched == Bytes(video) && Valid(video)
    ensures var s := RoundsOf(x, rounds, 0);
            && s.world.stored == Some(video) && s.ending == WithRow(s.world.row)
            && s.world.row == x.row.(status := Ready, attempts := x.row.attempts + 1, job := rounds[0].submit,
                                     objectKey := Some(VideoKey(x.row.id)), size := Some(|video|),
                                     checksum := Some(Sha256(video)), mime := Some("video/mp4"), lease := None)
  {
    assert Smooth(rounds[0]) && Smooth(rounds[1]) && Smooth(rounds[2]);
    var y := StepOf(x, rounds[0]).world;
    var z := StepOf(y, rounds[1]).world;
    hide Valid;
    assert RoundsOf(z, rounds, 2) == StepOf(z, rounds[2]);
    assert RoundsOf(y, rounds, 1) == RoundsOf(z, rounds, 2);
  }

  /** A render that is lost in each round is begun again, three times in all; then the artifact fails. */
  lemma LostRendersEnd(x: World, rounds: seq<Round>)
    requires |rounds| == MAX_ROUNDS && forall i :: 0 <= i < MAX_ROUNDS ==>
               Smooth(rounds[i]) && rounds[i].job == JobLost && rounds[i].submit.Some?
    requires x.row.status == Pending && x.row.attempts == 0 && x.stored == None
    ensures var s := RoundsOf(x, rounds, 0).world;
            && s == x.(row := x.row.(status := Queued, attempts := MAX_AUTO, job := rounds[4].submit))
            && RoundsOf(s, rounds, 0).world == x.(row := s.row.(status := Failed, lease := None))
  {
    assert Smooth(rounds[0]) && Smooth(rounds[1]) && Smooth(rounds[2]) && Smooth(rounds[3]) && Smooth(rounds[4]);
    var a := StepOf(x, rounds[0]).world;
    var b := StepOf(a, rounds[1]).world;
    var c := StepOf(b, rounds[2]).world;
    var d := StepOf(c, rounds[3]).world;
    assert RoundsOf(d, rounds, 4) == StepOf(d, rounds[4]);
    assert RoundsOf(c, rounds, 3) == RoundsOf(d, rounds, 4);
    assert RoundsOf(b, rounds, 2) == RoundsOf(c, rounds, 3);
    assert RoundsOf(a, rounds, 1) == RoundsOf(b, rounds, 2);
  }

  /** An exception at the first await leaves everything as it is, for a pause; a cancellation does without the pause. */
  lemma BrokenAtOnce(x: World, rounds: seq<Round>)
    requires |rounds| == MAX_ROUNDS && x.row.status in ACTIVE
    requires rounds[0].Breaks(if x.row.status == Queued || x.row.status == Rendering then AtPoll else AtStat)
    ensures var s := RoundsOf(x, rounds, 0);
            var a := if x.row.status == Queued || x.row.status == Rendering then AtPoll else AtStat;
            && s.world == x
            && s.ending == (if a in rounds[0].cancelled then Cancelled else Raised)
  {
  }
}
