/**
 The migration of legacy preferences (app/migration/preferences_to_postgres.py): batches, the
 guarded upsert, dry runs and the report. What `transform` makes of the single fields is taken as
 given: a legacy row carries its validated content and how many fields were replaced.
 */
module PreferencesMigration {
  import opened Wrappers

  /** `user_id` as found in the legacy row. */
  datatype UserRef = Valid(id: nat) | Invalid(text: string)

  datatype Legacy = Legacy(user: UserRef, content: string, normalized: nat, version: int, updated: Option<int>)

  datatype Values = Values(user: nat, content: string, version: int, updated: int)

  /** A row of the new table; `custom` is the mode chosen in the new application. */
  datatype Stored = Stored(content: string, custom: Option<nat>, version: int, created: int, updated: int)

  type Table = map<nat, Stored>

  /** `transform` for a row whose user id is valid; a row without a time gets the current one. */
  function Transformed(row: Legacy, now: int): Values
    requires row.user.Valid?
  {
    Values(row.user.id, row.content, if row.version > 1 then row.version else 1,
           if row.updated.Some? then row.updated.value else now)
  }

  datatype Outcome = Inserted | Refreshed | Skipped

  /** The WHERE clause of the upsert: newer in both version and time. */
  predicate IsNewer(v: Values, s: Stored) {
    s.version < v.version && s.updated < v.updated
  }

  function OutcomeOf(t: Table, v: Values): Outcome {
    if v.user !in t then Inserted else if IsNewer(v, t[v.user]) then Refreshed else Skipped
  }

  /** `_UPSERT` */
  function Upserted(t: Table, v: Values): Table {
    match OutcomeOf(t, v)
    case Inserted => t[v.user := Stored(v.content, None, v.version, v.updated, v.updated)]
    case Refreshed => t[v.user := Stored(v.content, None, v.version, t[v.user].created, v.updated)]
    case Skipped => t
  }

  datatype Report = Report(
    examined: nat,
    inserted: nat,
    refreshed: nat,
    skipped: nat,
    rejected: nat,
    normalized: nat,
    rejects: seq<string>
  ) {
    function Count(o: Outcome): Report {
      match o
      case Inserted => this.(inserted := inserted + 1)
      case Refreshed => this.(refreshed := refreshed + 1)
      case Skipped => this.(skipped := skipped + 1)
    }
  }

  const NOTHING_YET := Report(0, 0, 0, 0, 0, 0, [])

  // ------------------------------------------------------------------ row by row

  /** The table after upserting a list one by one. */
  function UpsertAll(t: Table, vs: seq<Values>): Table {
    if vs == [] then t else Upserted(UpsertAll(t, vs[..|vs| - 1]), vs[|vs| - 1])
  }

  /** How often each outcome occurs on the way; a dry run compares with the table as it is. */
  function CountAll(t: Table, vs: seq<Values>, dryRun: bool, r: Report): Report {
    if vs == [] then r
    else
      var front, last := vs[..|vs| - 1], vs[|vs| - 1];
      CountAll(t, front, dryRun, r).Count(OutcomeOf(if dryRun then t else UpsertAll(t, front), last))
  }

  /** The rows that can be migrated at all. */
  function Accepted(rows: seq<Legacy>, now: int): seq<Values> {
    if rows == [] then []
    else
      var last := rows[|rows| - 1];
      Accepted(rows[..|rows| - 1], now) + (if last.user.Valid? then [Transformed(last, now)] else [])
  }

  /** What reading the rows adds to the report. */
  function Reading(rows: seq<Legacy>): Report {
    if rows == [] then NOTHING_YET
    else
      var r := Reading(rows[..|rows| - 1]);
      var last := rows[|rows| - 1];
      match last.user
      case Valid(_) => r.(examined := r.examined + 1, normalized := r.normalized + last.normalized)
      case Invalid(text) => r.(examined := r.examined + 1, rejected := r.rejected + 1, rejects := r.rejects + [text])
  }

  /** The table and the report of a run that takes the rows one by one, without batches. */
  function TableAfter(t: Table, rows: seq<Legacy>, now: int, dryRun: bool): Table {
    if dryRun then t else UpsertAll(t, Accepted(rows, now))
  }

  function ReportOf(t: Table, rows: seq<Legacy>, now: int, dryRun: bool): Report {
    CountAll(t, Accepted(rows, now), dryRun, Reading(rows))
  }

  // ------------------------------------------------------------------ in batches

  lemma UpsertAllStep(t: Table, vs: seq<Values>, v: Values)
    ensures UpsertAll(t, vs + [v]) == Upserted(UpsertAll(t, vs), v)
  {
    assert (vs + [v])[..|vs|] == vs;
  }

  lemma CountAllStep(t: Table, vs: seq<Values>, v: Values, dryRun: bool, r: Report)
    ensures CountAll(t, vs + [v], dryRun, r) ==
              CountAll(t, vs, dryRun, r).Count(OutcomeOf(if dryRun then t else UpsertAll(t, vs), v))
  {
    assert (vs + [v])[..|vs|] == vs;
  }

  /** Reading more rows and counting outcomes do not get in each other's way. */
  lemma {:induction false} CountAllKeepsReading(t: Table, vs: seq<Values>, dryRun: bool, r: Report, r': Report)
    requires r' == r.(examined := r'.examined, rejected := r'.rejected, normalized := r'.normalized, rejects := r'.rejects)
    ensures var a, b := CountAll(t, vs, dryRun, r), CountAll(t, vs, dryRun, r');
            b == a.(examined := r'.examined, rejected := r'.rejected, normalized := r'.normalized, rejects := r'.rejects)
    ensures var a := CountAll(t, vs, dryRun, r);
            a.examined == r.examined && a.rejected == r.rejected && a.normalized == r.normalized && a.rejects == r.rejects
  {
    if vs != [] {
      CountAllKeepsReading(t, vs[..|vs| - 1], dryRun, r, r');
    }
  }

  class Migrator {
    var table: Table
    var batch: seq<Values>
    var report: Report
    const dryRun: bool

    constructor (t: Table, dry: bool)
      ensures table == t && dryRun == dry && batch == [] && report == NOTHING_YET
    {
      table, dryRun, batch, report := t, dry, [], NOTHING_YET;
    }

    /** `flush`: one transaction for the batch; in a dry run one query and comparisons. */
    method Flush(ghost start: Table, ghost done: seq<Values>, ghost read: Report)
      requires table == (if dryRun then start else UpsertAll(start, done))
      requires report == CountAll(start, done, dryRun, read)
      modifies `table, `batch, `report
      ensures batch == []
      ensures table == if dryRun then start else UpsertAll(start, done + old(batch))
      ensures report == CountAll(start, done + old(batch), dryRun, read)
    {
      hide UpsertAll, CountAll;
      var existing := table;
      ghost var waiting := batch;
      assert done + batch[..0] == done;
      for i := 0 to |batch|
        invariant batch == waiting
        invariant table == if dryRun then start else UpsertAll(start, done + batch[..i])
        invariant report == CountAll(start, done + batch[..i], dryRun, read)
        invariant dryRun ==> existing == start
      {
        var v := batch[i];
        UpsertAllStep(start, done + batch[..i], v);
        CountAllStep(start, done + batch[..i], v, dryRun, read);
        assert done + batch[..i] + [v] == done + batch[..i + 1];
        if dryRun {
          if v.user !in existing {
            report := report.(inserted := report.inserted + 1);
          } else if existing[v.user].version < v.version && existing[v.user].updated < v.updated {
            report := report.(refreshed := report.refreshed + 1);
          } else {
            report := report.(skipped := report.skipped + 1);
          }
        } else {
          var outcome := OutcomeOf(table, v);
          table := Upserted(table, v);
          report := report.Count(outcome);
        }
      }
      assert done + batch[..|batch|] == done + batch;
      batch := [];
    }

    /** `migrate`: whatever the batch size, the same as row by row. */
    method Migrate(rows: seq<Legacy>, now: int, batchSize: int)
      requires batch == [] && report == NOTHING_YET
      modifies `table, `batch, `report
      ensures table == TableAfter(old(table), rows, now, dryRun)
      ensures table == if dryRun then old(table) else UpsertAll(old(table), Accepted(rows, now))
      ensures report == ReportOf(old(table), rows, now, dryRun)
    {
      hide UpsertAll, CountAll;
      ghost var start := table;
      ghost var done: seq<Values> := [];
      assert rows[..0] == [];
      NothingDone(start, dryRun);
      for i := 0 to |rows|
        invariant done + batch == Accepted(rows[..i], now)
        invariant table == if dryRun then start else UpsertAll(start, done)
        invariant report == CountAll(start, done, dryRun, Reading(rows[..i]))
      {
        var row := rows[i];
        ghost var before := Reading(rows[..i]);
        assert rows[..i + 1][..i] == rows[..i];
        CountAllKeepsReading(start, done, dryRun, before, Reading(rows[..i + 1]));
        report := report.(examined := report.examined + 1);
        if row.user.Invalid? {
          report := report.(rejected := report.rejected + 1, rejects := report.rejects + [row.user.text]);
          continue;
        }
        report := report.(normalized := report.normalized + row.normalized);
        batch := batch + [Transformed(row, now)];
        if |batch| >= batchSize {
          ghost var more := done + batch;
          Flush(start, done, Reading(rows[..i + 1]));
          done := more;
          assert done + [] == done;
        }
      }
      assert rows[..|rows|] == rows;
      Flush(start, done, Reading(rows));
    }
  }

  lemma NothingDone(t: Table, dryRun: bool)
    ensures UpsertAll(t, []) == t && CountAll(t, [], dryRun, NOTHING_YET) == NOTHING_YET
  {
  }

  // ------------------------------------------------------------------ the counters

  lemma {:induction false} ReadingAddsUp(rows: seq<Legacy>, now: int)
    ensures var r := Reading(rows);
            && r.examined == |rows| && r.rejected == |r.rejects| && |Accepted(rows, now)| + r.rejected == |rows|
            && r.inserted == r.refreshed == r.skipped == 0
  {
    if rows != [] {
      ReadingAddsUp(rows[..|rows| - 1], now);
    }
  }

  lemma {:induction false} OutcomesAddUp(t: Table, vs: seq<Values>, dryRun: bool, r: Report)
    ensures var c := CountAll(t, vs, dryRun, r);
            c.inserted + c.refreshed + c.skipped == r.inserted + r.refreshed + r.skipped + |vs|
  {
    if vs != [] {
      OutcomesAddUp(t, vs[..|vs| - 1], dryRun, r);
    }
  }

  /** Every examined row is inserted, refreshed, skipped or rejected. */
  lemma CountersAddUp(t: Table, rows: seq<Legacy>, now: int, dryRun: bool)
    ensures var r := ReportOf(t, rows, now, dryRun);
            r.examined == |rows| && r.examined == r.inserted + r.refreshed + r.skipped + r.rejected
  {
    ReadingAddsUp(rows, now);
    OutcomesAddUp(t, Accepted(rows, now), dryRun, Reading(rows));
    CountAllKeepsReading(t, Accepted(rows, now), dryRun, Reading(rows), Reading(rows));
  }

  // ------------------------------------------------------------------ what is stored only gets newer

  /** Nothing is dropped, and versions and times never go back. */
  ghost predicate NotOlder(t: Table, t': Table) {
    forall u :: u in t ==> u in t' && t[u].version <= t'[u].version && t[u].updated <= t'[u].updated && t'[u].created == t[u].created
  }

  lemma {:induction false} VersionsNeverDecrease(t: Table, vs: seq<Values>)
    ensures NotOlder(t, UpsertAll(t, vs))
  {
    if vs != [] {
      VersionsNeverDecrease(t, vs[..|vs| - 1]);
    }
  }

  /** The legacy row has nothing newer than what is stored: it is and stays skipped. */
  predicate IsSettled(t: Table, v: Values) {
    v.user in t && !IsNewer(v, t[v.user])
  }

  lemma SettledStays(t: Table, t': Table, v: Values)
    requires IsSettled(t, v) && NotOlder(t, t')
    ensures IsSettled(t', v)
  {
  }

  lemma UpsertSettles(t: Table, v: Values)
    ensures IsSettled(Upserted(t, v), v) && NotOlder(t, Upserted(t, v))
  {
  }

  lemma {:induction false} AllSettled(t: Table, vs: seq<Values>, i: nat)
    requires i < |vs|
    ensures IsSettled(UpsertAll(t, vs), vs[i])
  {
    var front, last := vs[..|vs| - 1], vs[|vs| - 1];
    UpsertSettles(UpsertAll(t, front), last);
    if i < |front| {
      AllSettled(t, front, i);
      SettledStays(UpsertAll(t, front), UpsertAll(t, vs), vs[i]);
    }
  }

  lemma {:induction false} SettledChangeNothing(t: Table, vs: seq<Values>, r: Report)
    requires forall i :: 0 <= i < |vs| ==> IsSettled(t, vs[i])
    ensures UpsertAll(t, vs) == t
    ensures CountAll(t, vs, false, r) == r.(skipped := r.skipped + |vs|)
  {
    if vs != [] {
      SettledChangeNothing(t, vs[..|vs| - 1], r);
    }
  }

  /** Running the same rows again changes nothing and skips them all, repeated user ids or not. */
  lemma RerunChangesNothing(t: Table, vs: seq<Values>, r: Report)
    ensures UpsertAll(UpsertAll(t, vs), vs) == UpsertAll(t, vs)
    ensures CountAll(UpsertAll(t, vs), vs, false, r) == r.(skipped := r.skipped + |vs|)
  {
    forall i | 0 <= i < |vs| ensures IsSettled(UpsertAll(t, vs), vs[i]) {
      AllSettled(t, vs, i);
    }
    SettledChangeNothing(UpsertAll(t, vs), vs, r);
  }

  lemma {:induction false} UpsertAllConcat(t: Table, a: seq<Values>, b: seq<Values>)
    ensures UpsertAll(t, a + b) == UpsertAll(UpsertAll(t, a), b)
  {
    if b == [] {
      assert a + b == a;
    } else {
      UpsertAllConcat(t, a, b[..|b| - 1]);
      UpsertAllStep(t, a + b[..|b| - 1], b[|b| - 1]);
      assert a + b[..|b| - 1] + [b[|b| - 1]] == a + b;
    }
  }

  /** A run that stopped after k rows, followed by a full one, is the full run. */
  lemma ResumingIsTheFullRun(t: Table, vs: seq<Values>, k: nat)
    requires k <= |vs|
    ensures UpsertAll(UpsertAll(t, vs[..k]), vs) == UpsertAll(t, vs)
  {
    var a, b := vs[..k], vs[k..];
    assert vs == a + b;
    UpsertAllConcat(UpsertAll(t, a), a, b);
    UpsertAllConcat(t, a, b);
    RerunChangesNothing(t, a, NOTHING_YET);
  }

  // ------------------------------------------------------------------ running again later

  /** A list of values leaves a table alone exactly when all of them are settled there. */
  lemma NothingToDo(t: Table, vs: seq<Values>)
    ensures UpsertAll(t, vs) == t <==> forall i :: 0 <= i < |vs| ==> IsSettled(t, vs[i])
  {
    if UpsertAll(t, vs) == t {
      forall i | 0 <= i < |vs| ensures IsSettled(t, vs[i]) {
        AllSettled(t, vs, i);
      }
    } else if forall i :: 0 <= i < |vs| ==> IsSettled(t, vs[i]) {
      SettledChangeNothing(t, vs, NOTHING_YET);
    }
  }

  lemma {:induction false} AcceptedRows(rows: seq<Legacy>, now: int, v: Values)
    ensures v in Accepted(rows, now) <==> exists i :: 0 <= i < |rows| && rows[i].user.Valid? && v == Transformed(rows[i], now)
  {
    if rows != [] {
      var front, last := rows[..|rows| - 1], rows[|rows| - 1];
      AcceptedRows(front, now, v);
      if v in Accepted(front, now) {
        var i :| 0 <= i < |front| && front[i].user.Valid? && v == Transformed(front[i], now);
        assert rows[i] == front[i];
      }
      if i :| 0 <= i < |rows| && rows[i].user.Valid? && v == Transformed(rows[i], now) {
        assert i == |front| || rows[i] == front[i];
      }
    }
  }

  /** Every row that can be migrated is settled once it has been. */
  lemma MigratedRowIsSettled(t: Table, rows: seq<Legacy>, now: int, i: nat)
    requires i < |rows| && rows[i].user.Valid?
    ensures IsSettled(UpsertAll(t, Accepted(rows, now)), Transformed(rows[i], now))
  {
    var v := Transformed(rows[i], now);
    AcceptedRows(rows, now, v);
    var k :| 0 <= k < |Accepted(rows, now)| && Accepted(rows, now)[k] == v;
    AllSettled(t, Accepted(rows, now), k);
  }

  /** A row without a time of its own, which a run at that time would apply to its user's stored row. */
  predicate IsDueAt(t: Table, row: Legacy, time: int) {
    && row.user.Valid? && row.updated.None?
    && row.user.id in t && IsNewer(Transformed(row, time), t[row.user.id])
  }

  /**
   The same rows, run again at a later time. A row without a time of its own gets the time of the run,
   so the rerun changes nothing exactly when no such row has a later version than what is stored for
   its user since before that time. Repeated user ids or not.
   */
  lemma RerunLater(t: Table, rows: seq<Legacy>, now: int, later: int, r: Report)
    ensures var done := UpsertAll(t, Accepted(rows, now));
            var vs := Accepted(rows, later);
            var harmless := forall i :: 0 <= i < |rows| ==> !IsDueAt(done, rows[i], later);
            && (UpsertAll(done, vs) == done <==> harmless)
            && (harmless ==> CountAll(done, vs, false, r) == r.(skipped := r.skipped + |vs|))
  {
    hide Accepted, UpsertAll, CountAll;
    var done := UpsertAll(t, Accepted(rows, now));
    var vs := Accepted(rows, later);
    NothingToDo(done, vs);
    if i :| 0 <= i < |rows| && IsDueAt(done, rows[i], later) {
      AcceptedRows(rows, later, Transformed(rows[i], later));
      var k :| 0 <= k < |vs| && vs[k] == Transformed(rows[i], later);
      assert !IsSettled(done, vs[k]);
    } else {
      forall k | 0 <= k < |vs| ensures IsSettled(done, vs[k]) {
        AcceptedRows(rows, later, vs[k]);
        var i :| 0 <= i < |rows| && rows[i].user.Valid? && vs[k] == Transformed(rows[i], later);
        MigratedRowIsSettled(t, rows, now, i);
        assert !IsDueAt(done, rows[i], later);
      }
      SettledChangeNothing(done, vs, r);
    }
  }

  /** With one row for each user, this can be told from the table before the first run. */
  lemma RerunLaterOfUniqueUsers(t: Table, rows: seq<Legacy>, now: int, later: int)
    requires UniqueUsers(Accepted(rows, now))
    ensures var done := UpsertAll(t, Accepted(rows, now));
            UpsertAll(done, Accepted(rows, later)) == done <==>
              forall i :: 0 <= i < |rows| && IsDueAt(t, rows[i], later) ==> t[rows[i].user.id].updated < now
  {
    hide Accepted, UpsertAll, UniqueUsers;
    var vs := Accepted(rows, now);
    var done := UpsertAll(t, vs);
    RerunLater(t, rows, now, later, NOTHING_YET);
    forall i | 0 <= i < |rows|
      ensures IsDueAt(done, rows[i], later) <==> IsDueAt(t, rows[i], later) && now <= t[rows[i].user.id].updated
    {
      if rows[i].user.Valid? {
        var v := Transformed(rows[i], now);
        AcceptedRows(rows, now, v);
        var k :| 0 <= k < |vs| && vs[k] == v;
        OnlyItsOwnRow(t, vs, k);
      }
    }
  }

  lemma {:induction false} OnlyItsOwnRow(t: Table, vs: seq<Values>, i: nat)
    requires UniqueUsers(vs) && i < |vs|
    ensures var u := vs[i].user;
            u in UpsertAll(t, vs) && UpsertAll(t, vs)[u] == Upserted(t, vs[i])[u]
  {
    var front, last := vs[..|vs| - 1], vs[|vs| - 1];
    if i < |front| {
      OnlyItsOwnRow(t, front, i);
    } else {
      OthersUntouched(t, front, last.user);
    }
  }

  /**
   What a run makes of the row of a user that occurs once: a new row; or, if the legacy row is later in both
   version and time, its values, without the mode chosen in the new application and with the creation time
   as it was; else the stored row as it is.
   */
  lemma MigratedRow(t: Table, rows: seq<Legacy>, now: int, i: nat)
    requires UniqueUsers(Accepted(rows, now)) && i < |rows| && rows[i].user.Valid?
    ensures var u, row := rows[i].user.id, rows[i];
            var version, time := if row.version < 1 then 1 else row.version, if row.updated.Some? then row.updated.value else now;
            var done := UpsertAll(t, Accepted(rows, now));
            && u in done
            && done[u] == if u !in t then Stored(row.content, None, version, time, time)
                          else if t[u].version < version && t[u].updated < time
                               then Stored(row.content, None, version, t[u].created, time)
                          else t[u]
  {
    hide Accepted, UpsertAll, UniqueUsers;
    var v := Transformed(rows[i], now);
    AcceptedRows(rows, now, v);
    var k :| 0 <= k < |Accepted(rows, now)| && Accepted(rows, now)[k] == v;
    OnlyItsOwnRow(t, Accepted(rows, now), k);
  }

  /** Such a rerun: a row of the new application is older when the second run comes, though it was not at the first. */
  lemma RerunOverwritesAnEdit(user: nat, edited: string, legacy: string)
    requires edited != legacy
    ensures var t: Table := map[user := Stored(edited, None, 1, 0, 10)];
            var rows := [Legacy(Valid(user), legacy, 0, 2, None)];
            var done := UpsertAll(t, Accepted(rows, 10));
            && done == t
            && UpsertAll(done, Accepted(rows, 20)) == map[user := Stored(legacy, None, 2, 0, 20)]
  {
    var t: Table := map[user := Stored(edited, None, 1, 0, 10)];
    var row := Legacy(Valid(user), legacy, 0, 2, None);
    assert [row][..0] == [] && Accepted([], 10) == Accepted([], 20) == [];
    assert Accepted([row], 10) == [Transformed(row, 10)] && Accepted([row], 20) == [Transformed(row, 20)];
    UpsertAllStep(t, [], Transformed(row, 10));
    UpsertAllStep(t, [], Transformed(row, 20));
    assert [] + [Transformed(row, 10)] == [Transformed(row, 10)] && [] + [Transformed(row, 20)] == [Transformed(row, 20)];
  }

  // ------------------------------------------------------------------ dry runs

  ghost predicate UniqueUsers(vs: seq<Values>) {
    forall i, j :: 0 <= i < j < |vs| ==> vs[i].user != vs[j].user
  }

  lemma {:induction false} OthersUntouched(t: Table, vs: seq<Values>, u: nat)
    requires forall i :: 0 <= i < |vs| ==> vs[i].user != u
    ensures (u in UpsertAll(t, vs) <==> u in t) && (u in t ==> UpsertAll(t, vs)[u] == t[u])
  {
    if vs != [] {
      OthersUntouched(t, vs[..|vs| - 1], u);
    }
  }

  /** Every row fares in the real run as against the table the run started with. */
  ghost predicate OutcomesAgree(t: Table, vs: seq<Values>) {
    forall i :: 0 <= i < |vs| ==> OutcomeOf(UpsertAll(t, vs[..i]), vs[i]) == OutcomeOf(t, vs[i])
  }

  function Weight(o: Outcome): nat {
    match o
    case Inserted => 2
    case Refreshed => 1
    case Skipped => 0
  }

  function Score(r: Report): nat {
    2 * r.inserted + r.refreshed
  }

  /** What was stored on the way can only turn an insert into a refresh or a refresh into a skip. */
  lemma OutcomesOnlyDrop(t: Table, t': Table, v: Values)
    requires NotOlder(t, t')
    ensures Weight(OutcomeOf(t', v)) <= Weight(OutcomeOf(t, v))
  {
  }

  lemma AgreeStep(t: Table, vs: seq<Values>, v: Values)
    ensures OutcomesAgree(t, vs + [v]) <==> OutcomesAgree(t, vs) && OutcomeOf(UpsertAll(t, vs), v) == OutcomeOf(t, v)
  {
    hide UpsertAll, OutcomeOf;
    var all := vs + [v];
    assert forall i :: 0 <= i <= |vs| ==> all[..i] == vs[..i];
    assert vs[..|vs|] == vs && all[|vs|] == v;
    if OutcomesAgree(t, all) {
      assert OutcomeOf(UpsertAll(t, all[..|vs|]), all[|vs|]) == OutcomeOf(t, all[|vs|]);
      forall i | 0 <= i < |vs| ensures OutcomeOf(UpsertAll(t, vs[..i]), vs[i]) == OutcomeOf(t, vs[i]) {
        assert OutcomeOf(UpsertAll(t, all[..i]), all[i]) == OutcomeOf(t, all[i]);
      }
    }
  }

  lemma NothingCounted(t: Table, r: Report)
    ensures CountAll(t, [], true, r) == r && CountAll(t, [], false, r) == r && OutcomesAgree(t, [])
  {
  }

  /** Two counts that differ in score, or in the next outcome, still differ after it. */
  lemma CountsStayApart(a: Report, b: Report, o: Outcome, p: Outcome)
    requires Score(a) <= Score(b) && Weight(o) <= Weight(p)
    ensures Score(a.Count(o)) <= Score(b.Count(p))
    ensures Score(a.Count(o)) == Score(b.Count(p)) ==> Score(a) == Score(b) && o == p
    ensures a == b && o == p ==> a.Count(o) == b.Count(p)
  {
  }

  /** The counters agree exactly if the rows do, one by one: deviations never cancel out. */
  lemma {:induction false} CountersShowOutcomes(t: Table, vs: seq<Values>, r: Report)
    ensures Score(CountAll(t, vs, false, r)) <= Score(CountAll(t, vs, true, r))
    ensures Score(CountAll(t, vs, false, r)) == Score(CountAll(t, vs, true, r)) ==> OutcomesAgree(t, vs)
    ensures OutcomesAgree(t, vs) ==> CountAll(t, vs, true, r) == CountAll(t, vs, false, r)
  {
    hide CountAll, OutcomesAgree, OutcomeOf, UpsertAll, NotOlder, Score;
    if vs == [] {
      NothingCounted(t, r);
    } else {
      var front, last := vs[..|vs| - 1], vs[|vs| - 1];
      assert vs == front + [last];
      CountersShowOutcomes(t, front, r);
      VersionsNeverDecrease(t, front);
      OutcomesOnlyDrop(t, UpsertAll(t, front), last);
      AgreeStep(t, front, last);
      CountAllStep(t, front, last, true, r);
      CountAllStep(t, front, last, false, r);
      CountsStayApart(CountAll(t, front, false, r), CountAll(t, front, true, r),
                      OutcomeOf(UpsertAll(t, front), last), OutcomeOf(t, last));
    }
  }

  /** Among the rows of one user, the ones newer than the stored row come oldest first; a new user has only one. */
  ghost predicate RepeatsAscend(t: Table, vs: seq<Values>) {
    forall i, j :: 0 <= j < i < |vs| && vs[j].user == vs[i].user ==> Ascends(t, vs[j], vs[i])
  }

  predicate Ascends(t: Table, earlier: Values, later: Values) {
    && later.user in t
    && (IsNewer(earlier, t[later.user]) && IsNewer(later, t[later.user]) ==>
          earlier.version < later.version && earlier.updated < later.updated)
  }

  /** Where a row of a run comes from: it was there before, or an earlier legacy row brought it. */
  ghost predicate ComesFrom(t: Table, vs: seq<Values>, u: nat, s: Stored) {
    || (u in t && s == t[u])
    || (exists j :: 0 <= j < |vs| && vs[j].user == u && s.version == vs[j].version && s.updated == vs[j].updated
                    && (u in t ==> IsNewer(vs[j], t[u])))
  }

  lemma {:induction false} StoredComesFrom(t: Table, vs: seq<Values>, u: nat)
    requires u in UpsertAll(t, vs)
    ensures ComesFrom(t, vs, u, UpsertAll(t, vs)[u])
  {
    if vs != [] {
      var front, last := vs[..|vs| - 1], vs[|vs| - 1];
      var before := UpsertAll(t, front);
      VersionsNeverDecrease(t, front);
      if last.user == u && OutcomeOf(before, last) != Skipped {
        assert vs[|vs| - 1].user == u;
      } else {
        StoredComesFrom(t, front, u);
        if j :| 0 <= j < |front| && front[j].user == u && before[u].version == front[j].version
                && before[u].updated == front[j].updated && (u in t ==> IsNewer(front[j], t[u])) {
          assert vs[j] == front[j];
        }
      }
    }
  }

  /** One row: it fares as against the first table exactly when no earlier row of its user is in its way. */
  lemma RowAgrees(t: Table, vs: seq<Values>, v: Values)
    requires OutcomesAgree(t, vs)
    ensures OutcomeOf(UpsertAll(t, vs), v) == OutcomeOf(t, v) <==>
              forall j :: 0 <= j < |vs| && vs[j].user == v.user ==> Ascends(t, vs[j], v)
  {
    hide UpsertAll;
    var after := UpsertAll(t, vs);
    VersionsNeverDecrease(t, vs);
    if OutcomeOf(after, v) == OutcomeOf(t, v) {
      forall j | 0 <= j < |vs| && vs[j].user == v.user ensures Ascends(t, vs[j], v) {
        EarlierRowIsStored(t, vs, j);
      }
    } else {
      assert v.user in after;
      StoredComesFrom(t, vs, v.user);
    }
  }

  /** Every row is stored after its turn, in this version or a later one, if it was newer than the first table's. */
  lemma EarlierRowIsStored(t: Table, vs: seq<Values>, j: nat)
    requires OutcomesAgree(t, vs) && j < |vs|
    ensures var u, after := vs[j].user, UpsertAll(t, vs);
            u in after && (u !in t || IsNewer(vs[j], t[u]) ==> vs[j].version <= after[u].version && vs[j].updated <= after[u].updated)
  {
    hide UpsertAll, NotOlder, Upserted;
    var a, b := vs[..j + 1], vs[j + 1..];
    var before, after := UpsertAll(t, vs[..j]), UpsertAll(t, a);
    assert OutcomeOf(before, vs[j]) == OutcomeOf(t, vs[j]);
    hide OutcomesAgree;
    assert vs == a + b && a == vs[..j] + [vs[j]];
    UpsertAllStep(t, vs[..j], vs[j]);
    UpsertAllConcat(t, a, b);
    VersionsNeverDecrease(after, b);
    StoredIfApplied(before, vs[j]);
    NotOlderAt(after, UpsertAll(after, b), vs[j].user);
  }

  lemma StoredIfApplied(t: Table, v: Values)
    ensures var t' := Upserted(t, v);
            v.user in t' && (OutcomeOf(t, v) != Skipped ==> t'[v.user].version == v.version && t'[v.user].updated == v.updated)
  {
  }

  lemma NotOlderAt(t: Table, t': Table, u: nat)
    requires NotOlder(t, t') && u in t
    ensures u in t' && t[u].version <= t'[u].version && t[u].updated <= t'[u].updated
  {
  }

  lemma {:induction false} AgreeingRepeatsAscend(t: Table, vs: seq<Values>)
    ensures OutcomesAgree(t, vs) <==> RepeatsAscend(t, vs)
  {
    hide UpsertAll, OutcomeOf;
    if vs != [] {
      var front, last := vs[..|vs| - 1], vs[|vs| - 1];
      assert vs == front + [last];
      AgreeingRepeatsAscend(t, front);
      AgreeStep(t, front, last);
      if OutcomesAgree(t, front) {
        RowAgrees(t, front, last);
      }
      AscendStep(t, front, last);
      hide OutcomesAgree, RepeatsAscend;
    }
  }

  lemma AscendStep(t: Table, vs: seq<Values>, v: Values)
    ensures RepeatsAscend(t, vs + [v]) <==>
              RepeatsAscend(t, vs) && forall j :: 0 <= j < |vs| && vs[j].user == v.user ==> Ascends(t, vs[j], v)
  {
    hide Ascends;
    var all := vs + [v];
    assert forall i :: 0 <= i < |vs| ==> all[i] == vs[i];
    if RepeatsAscend(t, all) {
      forall j | 0 <= j < |vs| && vs[j].user == v.user ensures Ascends(t, vs[j], v) {
        assert all[j].user == all[|vs|].user;
      }
      forall i, j | 0 <= j < i < |vs| && vs[j].user == vs[i].user ensures Ascends(t, vs[j], vs[i]) {
        assert all[j].user == all[i].user;
      }
    }
  }

  /** A dry run predicts the report exactly when the rows of a repeated user are harmless. */
  lemma DryRunPredicts(t: Table, vs: seq<Values>, r: Report)
    ensures CountAll(t, vs, true, r) == CountAll(t, vs, false, r) <==> RepeatsAscend(t, vs)
  {
    hide CountAll, OutcomesAgree, RepeatsAscend;
    CountersShowOutcomes(t, vs, r);
    AgreeingRepeatsAscend(t, vs);
  }

  /** Which of the first n values have an outcome against the table as it is. */
  function Places(vs: seq<Values>, n: nat, p: Values -> bool): set<nat>
    requires n <= |vs|
  {
    set i: nat | i < n && p(vs[i])
  }

  /**
   What a dry run counts: users without a row as inserted, values later in both version and time as
   refreshed, all others as skipped. By `DryRunPredicts` the real run counts the same.
   */
  lemma {:induction false} DryRunCounts(t: Table, vs: seq<Values>, r: Report)
    ensures var c := CountAll(t, vs, true, r);
            && c.inserted == r.inserted + |Places(vs, |vs|, (v: Values) => v.user !in t)|
            && c.refreshed == r.refreshed + |Places(vs, |vs|, (v: Values) =>
                 v.user in t && v.version > t[v.user].version && v.updated > t[v.user].updated)|
            && c.skipped == r.skipped + |Places(vs, |vs|, (v: Values) =>
                 v.user in t && !(v.version > t[v.user].version && v.updated > t[v.user].updated))|
  {
    if vs == [] {
    } else {
      var front, last := vs[..|vs| - 1], vs[|vs| - 1];
      DryRunCounts(t, front, r);
      hide Places;
      PlacesStep(vs, (v: Values) => v.user !in t);
      PlacesStep(vs, (v: Values) => v.user in t && v.version > t[v.user].version && v.updated > t[v.user].updated);
      PlacesStep(vs, (v: Values) => v.user in t && !(v.version > t[v.user].version && v.updated > t[v.user].updated));
    }
  }

  lemma PlacesStep(vs: seq<Values>, p: Values -> bool)
    requires vs != []
    ensures var front := vs[..|vs| - 1];
            |Places(vs, |vs|, p)| == |Places(front, |front|, p)| + (if p(vs[|vs| - 1]) then 1 else 0)
  {
    var n := |vs| - 1;
    var front := Places(vs[..n], n, p);
    assert Places(vs, n + 1, p) == if p(vs[n]) then front + {n} else front;
  }

  /** With a repeated id it may not: a dry run sees two new rows where the real one inserts one. */
  lemma DryRunMissesRepeats(v: Values)
    ensures CountAll(map[], [v, v], true, NOTHING_YET).inserted == 2
    ensures CountAll(map[], [v, v], false, NOTHING_YET).inserted == 1
  {
    assert [v, v] == [v] + [v];
    assert [v] == [] + [v];
    CountAllStep(map[], [v], v, true, NOTHING_YET);
    CountAllStep(map[], [], v, true, NOTHING_YET);
    CountAllStep(map[], [v], v, false, NOTHING_YET);
    CountAllStep(map[], [], v, false, NOTHING_YET);
    UpsertAllStep(map[], [], v);
  }

  // ------------------------------------------------------------------ verify

  /** Which users `verify` reports: the row is missing, or differs although it is not of a later version. */
  predicate Mismatches(t: Table, v: Values) {
    v.user !in t || (t[v.user].version <= v.version && t[v.user].content != v.content)
  }

  predicate Verifies(t: Table, v: Values) {
    v.user in t && t[v.user].version <= v.version && t[v.user].content == v.content
  }

  function MismatchesIn(t: Table, vs: seq<Values>): seq<nat> {
    if vs == [] then []
    else
      var last := vs[|vs| - 1];
      MismatchesIn(t, vs[..|vs| - 1]) + (if Mismatches(t, last) then [last.user] else [])
  }

  function VerifiedIn(t: Table, vs: seq<Values>): nat {
    if vs == [] then 0
    else VerifiedIn(t, vs[..|vs| - 1]) + (if Verifies(t, vs[|vs| - 1]) then 1 else 0)
  }

  lemma VerifyStep(t: Table, vs: seq<Values>, v: Values)
    ensures VerifiedIn(t, vs + [v]) == VerifiedIn(t, vs) + (if Verifies(t, v) then 1 else 0)
    ensures MismatchesIn(t, vs + [v]) == MismatchesIn(t, vs) + (if Mismatches(t, v) then [v.user] else [])
  {
    assert (vs + [v])[..|vs|] == vs;
  }

  lemma AcceptedStep(rows: seq<Legacy>, i: nat, now: int)
    requires i < |rows|
    ensures Accepted(rows[..i + 1], now) ==
              if rows[i].user.Valid? then Accepted(rows[..i], now) + [Transformed(rows[i], now)] else Accepted(rows[..i], now)
  {
    assert rows[..i + 1][..i] == rows[..i];
  }

  lemma NothingVerified(t: Table, rows: seq<Legacy>, now: int)
    ensures VerifiedIn(t, Accepted(rows[..0], now)) == 0 && MismatchesIn(t, Accepted(rows[..0], now)) == []
  {
  }

  /** The version a legacy row is migrated with. */
  function VersionOf(row: Legacy): int {
    if row.version < 1 then 1 else row.version
  }

  /** Nothing is stored for the user of this row, or something else, of no later version. */
  predicate IsMissed(t: Table, row: Legacy) {
    && row.user.Valid?
    && (row.user.id !in t || (t[row.user.id].version <= VersionOf(row) && t[row.user.id].content != row.content))
  }

  /** The user of this row has a later version. */
  predicate IsOutrun(t: Table, row: Legacy) {
    row.user.Valid? && row.user.id in t && t[row.user.id].version > VersionOf(row)
  }

  /** Which of the first n rows these are. */
  function Indices(rows: seq<Legacy>, n: nat, p: Legacy -> bool): set<nat>
    requires n <= |rows|
  {
    set i: nat | i < n && p(rows[i])
  }

  lemma IndicesStep(rows: seq<Legacy>, n: nat, p: Legacy -> bool)
    requires n < |rows|
    ensures |Indices(rows, n + 1, p)| == |Indices(rows, n, p)| + (if p(rows[n]) then 1 else 0)
  {
    var before := Indices(rows, n, p);
    assert Indices(rows, n + 1, p) == if p(rows[n]) then before + {n} else before;
  }

  /** `at` are the places of the missed rows among the first n, in order, and `mismatches` their users. */
  ghost predicate Lists(t: Table, rows: seq<Legacy>, n: nat, at: seq<nat>, mismatches: seq<nat>)
    requires n <= |rows|
  {
    && |at| == |mismatches|
    && (forall j, k :: 0 <= j < k < |at| ==> at[j] < at[k])
    && (forall i: nat :: i in at <==> i < n && IsMissed(t, rows[i]))
    && (forall k :: 0 <= k < |at| ==> at[k] < n && rows[at[k]].user == Valid(mismatches[k]))
  }

  lemma ListsStep(t: Table, rows: seq<Legacy>, n: nat, at: seq<nat>, mismatches: seq<nat>)
    requires n < |rows| && Lists(t, rows, n, at, mismatches)
    ensures IsMissed(t, rows[n]) ==> Lists(t, rows, n + 1, at + [n], mismatches + [rows[n].user.id])
    ensures !IsMissed(t, rows[n]) ==> Lists(t, rows, n + 1, at, mismatches)
  {
    assert IsMissed(t, rows[n]) ==> rows[n].user == Valid(rows[n].user.id);
    hide IsMissed;
    if IsMissed(t, rows[n]) {
      var more := at + [n];
      forall i: nat ensures i in more <==> i < n + 1 && IsMissed(t, rows[i]) {
        assert i in more <==> i in at || i == n;
      }
    }
  }

  /**
   `verify`: one mismatch for each row that is missed, in the order of the rows. All others that can be
   migrated are verified or have a later version.
   */
  method Verify(t: Table, rows: seq<Legacy>, now: int) returns (verified: nat, mismatches: seq<nat>, ghost at: seq<nat>)
    ensures verified == VerifiedIn(t, Accepted(rows, now)) && mismatches == MismatchesIn(t, Accepted(rows, now))
    ensures Lists(t, rows, |rows|, at, mismatches)
    ensures forall u :: u in mismatches <==> exists i :: 0 <= i < |rows| && rows[i].user == Valid(u) && IsMissed(t, rows[i])
    ensures verified + |mismatches| + |Indices(rows, |rows|, (row: Legacy) => IsOutrun(t, row))|
              == |Indices(rows, |rows|, (row: Legacy) => row.user.Valid?)|
  {
    hide Accepted, VerifiedIn, MismatchesIn, Lists, Indices;
    verified, mismatches, at := 0, [], [];
    NothingVerified(t, rows, now);
    ghost var outrun, valid := (row: Legacy) => IsOutrun(t, row), (row: Legacy) => row.user.Valid?;
    NothingListed(t, rows, outrun, valid);
    for i := 0 to |rows|
      invariant verified == VerifiedIn(t, Accepted(rows[..i], now))
      invariant mismatches == MismatchesIn(t, Accepted(rows[..i], now))
      invariant Lists(t, rows, i, at, mismatches)
      invariant verified + |mismatches| + |Indices(rows, i, outrun)| == |Indices(rows, i, valid)|
    {
      AcceptedStep(rows, i, now);
      ListsStep(t, rows, i, at, mismatches);
      IndicesStep(rows, i, outrun);
      IndicesStep(rows, i, valid);
      if rows[i].user.Invalid? {
        continue;
      }
      var v := Transformed(rows[i], now);
      VerifyStep(t, Accepted(rows[..i], now), v);
      if v.user !in t {
        mismatches := mismatches + [v.user];
        at := at + [i];
        continue;
      }
      if t[v.user].version > v.version {
        continue;
      }
      if t[v.user].content != v.content {
        mismatches := mismatches + [v.user];
        at := at + [i];
      } else {
        verified := verified + 1;
      }
    }
    assert rows[..|rows|] == rows;
    ListedUsers(t, rows, at, mismatches);
  }

  lemma NothingListed(t: Table, rows: seq<Legacy>, p: Legacy -> bool, q: Legacy -> bool)
    ensures Lists(t, rows, 0, [], []) && |Indices(rows, 0, p)| == |Indices(rows, 0, q)| == 0
  {
    assert Indices(rows, 0, p) == {} && Indices(rows, 0, q) == {};
  }

  lemma ListedUsers(t: Table, rows: seq<Legacy>, at: seq<nat>, mismatches: seq<nat>)
    requires Lists(t, rows, |rows|, at, mismatches)
    ensures forall u :: u in mismatches <==> exists i :: 0 <= i < |rows| && rows[i].user == Valid(u) && IsMissed(t, rows[i])
  {
    hide IsMissed;
    forall u | u in mismatches ensures exists i :: 0 <= i < |rows| && rows[i].user == Valid(u) && IsMissed(t, rows[i]) {
      var k :| 0 <= k < |mismatches| && mismatches[k] == u;
      assert at[k] in at;
    }
    forall i | 0 <= i < |rows| && rows[i].user.Valid? && IsMissed(t, rows[i]) ensures rows[i].user.id in mismatches {
      assert i in at;
      var k :| 0 <= k < |at| && at[k] == i;
      assert mismatches[k] == rows[i].user.id;
    }
  }

  /** A mismatch after the run: exactly where an other content of no later version was kept because it is not older. */
  lemma {:induction false} MigratedRowVerifies(t: Table, vs: seq<Values>, i: nat)
    requires UniqueUsers(vs) && i < |vs|
    ensures var v := vs[i];
            Mismatches(UpsertAll(t, vs), v) <==>
              (v.user in t && t[v.user].content != v.content && t[v.user].version <= v.version && !IsNewer(v, t[v.user]))
  {
    var front, last := vs[..|vs| - 1], vs[|vs| - 1];
    if i < |front| {
      MigratedRowVerifies(t, front, i);
    } else {
      OthersUntouched(t, front, last.user);
    }
  }

  /** A migration into a table that knows none of the users is verified completely. */
  lemma {:induction false} FreshMigrationVerifies(t: Table, vs: seq<Values>, n: nat)
    requires UniqueUsers(vs) && n <= |vs| && forall i :: 0 <= i < |vs| ==> vs[i].user !in t
    ensures MismatchesIn(UpsertAll(t, vs), vs[..n]) == [] && VerifiedIn(UpsertAll(t, vs), vs[..n]) == n
    decreases n
  {
    if n > 0 {
      FreshMigrationVerifies(t, vs, n - 1);
      assert vs[..n][..n - 1] == vs[..n - 1];
      FreshRowVerifies(t, vs, n - 1);
    }
  }

  lemma {:induction false} FreshRowVerifies(t: Table, vs: seq<Values>, i: nat)
    requires UniqueUsers(vs) && i < |vs| && vs[i].user !in t
    ensures Verifies(UpsertAll(t, vs), vs[i])
  {
    var front, last := vs[..|vs| - 1], vs[|vs| - 1];
    if i < |front| {
      FreshRowVerifies(t, front, i);
    } else {
      OthersUntouched(t, front, last.user);
    }
  }
}
