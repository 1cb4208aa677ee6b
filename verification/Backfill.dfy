/** Exporting the raw tables by hour and restoring them from the lake
    (services/ingestor/app/parquet_writer.py, tools/backfill.py).

    Time is in whole seconds, hours and days being numbered from the same origin. */
module Backfill {
  import opened Options
  import opened Ingestor

  datatype Table = Demand | Weather

  /** A raw row with its `ingested_at`, which the database sets when it inserts. */
  datatype Stamped = Stamped(row: Row, at: nat)

  type Contents = seq<Stamped>

  function RowsIn(t: Contents): (r: seq<Row>)
    ensures |r| == |t| && forall i | 0 <= i < |t| :: r[i] == t[i].row
  {
    seq(|t|, i requires 0 <= i < |t| => t[i].row)
  }

  function HourOf(at: nat): nat {
    at / 3600
  }

  // ---------------------------------------------------------------- export

  /** The file of one hour: SELECT ... WHERE ingested_at >= start AND ingested_at < start + 1 hour. */
  function HourFile(t: Contents, hour: nat): seq<Row> {
    if t == [] then []
    else
      var last := t[|t| - 1];
      HourFile(t[..|t| - 1], hour) + (if hour * 3600 <= last.at < (hour + 1) * 3600 then [last.row] else [])
  }

  /** Hour files partition the rows: a row is in the file of its own hour and in no other. */
  lemma {:induction false} HourFileHas(t: Contents, hour: nat, row: Row)
    ensures row in HourFile(t, hour) <==> exists s :: s in t && s.row == row && HourOf(s.at) == hour
  {
    if t != [] {
      var init, last := t[..|t| - 1], t[|t| - 1];
      assert t == init + [last];
      HourFileHas(init, hour, row);
      InHour(last.at, hour);
      assert forall s :: s in t <==> s in init || s == last;
    }
  }

  /** The number of rows in the files of the first `hours` hours. */
  function RowsInFiles(t: Contents, hours: nat): nat {
    if hours == 0 then 0 else RowsInFiles(t, hours - 1) + |HourFile(t, hours - 1)|
  }

  /** And the sizes add up: no row is exported twice or left out. */
  lemma {:induction false} HourFilesAddUp(t: Contents, hours: nat)
    requires forall s | s in t :: HourOf(s.at) < hours
    ensures RowsInFiles(t, hours) == |t|
  {
    if t == [] {
      NoRows(hours);
    } else {
      assert t == t[..|t| - 1] + [t[|t| - 1]];
      HourFilesAddUp(t[..|t| - 1], hours);
      OneMoreRow(t, hours);
    }
  }

  lemma {:induction false} NoRows(hours: nat)
    ensures RowsInFiles([], hours) == 0
  {
    if hours > 0 { NoRows(hours - 1); }
  }

  lemma {:induction false} OneMoreRow(t: Contents, hours: nat)
    requires t != []
    ensures RowsInFiles(t, hours)
            == RowsInFiles(t[..|t| - 1], hours) + (if HourOf(t[|t| - 1].at) < hours then 1 else 0)
  {
    if hours > 0 {
      OneMoreRow(t, hours - 1);
      InHour(t[|t| - 1].at, hours - 1);
    }
  }

  lemma InHour(at: nat, hour: nat)
    ensures hour * 3600 <= at < (hour + 1) * 3600 <==> HourOf(at) == hour
  {
  }

  // ---------------------------------------------------------------- insert

  function InsertStamped(t: Contents, rows: seq<Row>, now: nat): Contents {
    if rows == [] then t
    else
      var before := InsertStamped(t, rows[..|rows| - 1], now);
      var row := rows[|rows| - 1];
      if Conflicts(RowsIn(before), row) then before else before + [Stamped(row, now)]
  }

  /** Apart from the time stamps this is the ingestor's insert; what it adds is stamped `now`, not with the
      exported time. */
  lemma {:induction false} InsertStampedIsInsertAll(t: Contents, rows: seq<Row>, now: nat)
    ensures RowsIn(InsertStamped(t, rows, now)) == InsertAll(RowsIn(t), rows)
    ensures t <= InsertStamped(t, rows, now)
    ensures forall i | |t| <= i < |InsertStamped(t, rows, now)| :: InsertStamped(t, rows, now)[i].at == now
  {
    if rows != [] {
      InsertStampedIsInsertAll(t, rows[..|rows| - 1], now);
      var before := InsertStamped(t, rows[..|rows| - 1], now);
      var after := InsertStamped(t, rows, now);
      if after != before {
        assert RowsIn(after) == RowsIn(before) + [rows[|rows| - 1]];
      }
    }
  }

  // ---------------------------------------------------------------- backfill

  /** One file to look for. */
  datatype Job = Job(table: Table, hour: nat)

  /** The files that exist.  An absent or unreadable file is not in the map. */
  type Lake = map<Job, seq<Row>>

  function HourJobs(table: Table, day: nat, hours: nat): seq<Job> {
    if hours == 0 then [] else HourJobs(table, day, hours - 1) + [Job(table, 24 * day + hours - 1)]
  }

  function TableJobs(tables: seq<Table>, day: nat): seq<Job> {
    if tables == [] then [] else TableJobs(tables[..|tables| - 1], day) + HourJobs(tables[|tables| - 1], day, 24)
  }

  /** Dates outermost, then tables, then the 24 hours; both ends of the range are included. */
  function Jobs(from: nat, to: int, tables: seq<Table>): seq<Job>
    decreases if from <= to then to - from + 1 else 0
  {
    if to < from then [] else Jobs(from, to - 1, tables) + TableJobs(tables, to)
  }

  lemma OneMoreHour(done: seq<Job>, table: Table, day: nat, hour: nat)
    ensures done + HourJobs(table, day, hour) + [Job(table, 24 * day + hour)] == done + HourJobs(table, day, hour + 1)
  {
  }

  lemma OneMoreDay(from: nat, day: nat, tables: seq<Table>)
    requires from <= day
    ensures Jobs(from, day, tables) == Jobs(from, day - 1, tables) + TableJobs(tables, day)
  {
  }

  lemma OneMoreTable(done: seq<Job>, tables: seq<Table>, day: nat, t: nat)
    requires t < |tables|
    ensures done + TableJobs(tables[..t], day) + HourJobs(tables[t], day, 24) == done + TableJobs(tables[..t + 1], day)
  {
    assert tables[..t + 1][..t] == tables[..t];
  }

  datatype Db = Db(demand: Contents, weather: Contents)

  function ContentsOf(db: Db, t: Table): Contents {
    if t == Demand then db.demand else db.weather
  }

  function WithContents(db: Db, t: Table, c: Contents): Db {
    if t == Demand then db.(demand := c) else db.(weather := c)
  }

  function Size(db: Db): nat {
    |db.demand| + |db.weather|
  }

  function FileFor(lake: Lake, j: Job): seq<Row> {
    if j in lake then lake[j] else []
  }

  function RunJob(db: Db, lake: Lake, j: Job, now: Job -> nat): Db {
    WithContents(db, j.table, InsertStamped(ContentsOf(db, j.table), FileFor(lake, j), now(j)))
  }

  function RunJobs(db: Db, lake: Lake, jobs: seq<Job>, now: Job -> nat): Db {
    if jobs == [] then db else RunJob(RunJobs(db, lake, jobs[..|jobs| - 1], now), lake, jobs[|jobs| - 1], now)
  }

  /** The number of non-empty files among the jobs. */
  function FileCount(lake: Lake, jobs: seq<Job>): nat {
    if jobs == [] then 0
    else FileCount(lake, jobs[..|jobs| - 1]) + (if FileFor(lake, jobs[|jobs| - 1]) == [] then 0 else 1)
  }

  /** What a dry run reports: every row of every file. */
  function RowCount(lake: Lake, jobs: seq<Job>): nat {
    if jobs == [] then 0 else RowCount(lake, jobs[..|jobs| - 1]) + |FileFor(lake, jobs[|jobs| - 1])|
  }

  /** Both counts add up over the jobs; a file counts once if it has rows, and for its rows in a dry run. */
  lemma {:induction false} CountsAddUp(lake: Lake, a: seq<Job>, b: seq<Job>, j: Job)
    ensures FileCount(lake, a + b) == FileCount(lake, a) + FileCount(lake, b)
    ensures RowCount(lake, a + b) == RowCount(lake, a) + RowCount(lake, b)
    ensures FileCount(lake, []) == 0 && RowCount(lake, []) == 0
    ensures FileCount(lake, [j]) == (if j in lake && lake[j] != [] then 1 else 0)
    ensures RowCount(lake, [j]) == (if j in lake then |lake[j]| else 0)
    decreases |b|
  {
    assert [j][..0] == [];
    if b == [] {
      assert a + b == a;
    } else {
      CountsAddUp(lake, a, b[..|b| - 1], j);
      assert (a + b)[..|a + b| - 1] == a + b[..|b| - 1];
    }
  }

  class Restorer {
    var db: Db

    constructor (db: Db)
      ensures this.db == db
    {
      this.db := db;
    }

    /** Insert the rows of one file in one transaction; count what the file holds and what was new. */
    method InsertPartition(j: Job, rows: seq<Row>, now: nat, dryRun: bool) returns (attempted: nat, inserted: nat)
      modifies this
      ensures attempted == |rows|
      ensures dryRun ==> db == old(db) && inserted == |rows|
      ensures !dryRun ==> db == old(WithContents(db, j.table, InsertStamped(ContentsOf(db, j.table), rows, now)))
                          && Size(db) == old(Size(db)) + inserted
    {
      if rows == [] {
        return 0, 0;
      }
      if dryRun {
        return |rows|, |rows|;
      }
      var before := ContentsOf(db, j.table);
      InsertStampedIsInsertAll(before, rows, now);
      var after := InsertStamped(before, rows, now);
      db := WithContents(db, j.table, after);
      return |rows|, |after| - |before|;
    }

    /** Restore a range of dates.  The reported totals are the number of files and of rows really added. */
    method Backfill(from: nat, to: int, tables: seq<Table>, lake: Lake, now: Job -> nat, dryRun: bool)
      returns (totalRows: nat, totalFiles: nat)
      modifies this
      ensures totalFiles == FileCount(lake, Jobs(from, to, tables))
      ensures dryRun ==> db == old(db) && totalRows == RowCount(lake, Jobs(from, to, tables))
      ensures !dryRun ==> db == RunJobs(old(db), lake, Jobs(from, to, tables), now)
                          && Size(db) == old(Size(db)) + totalRows
      ensures !dryRun ==> |db.demand| + |db.weather| == old(|db.demand| + |db.weather|) + totalRows
    {
      totalRows, totalFiles := AllDays(from, to, tables, lake, now, dryRun);
    }

    method AllDays(from: nat, to: int, tables: seq<Table>, lake: Lake, now: Job -> nat, dryRun: bool)
      returns (totalRows: nat, totalFiles: nat)
      modifies this
      ensures Progress(old(db), lake, Jobs(from, to, tables), now, dryRun, totalRows, totalFiles)
    {
      totalRows, totalFiles := 0, 0;
      ghost var start := db;
      var day := from;
      assert Jobs(from, day - 1, tables) == [];
      while day <= to
        invariant from <= day && (day <= to + 1 || day == from)
        invariant Progress(start, lake, Jobs(from, day - 1, tables), now, dryRun, totalRows, totalFiles)
        decreases if day <= to then to - day + 1 else 0
      {
        OneMoreDay(from, day, tables);
        totalRows, totalFiles := OneDay(start, Jobs(from, day - 1, tables), day, tables, lake, now, dryRun,
                                        totalRows, totalFiles);
        day := day + 1;
      }
      assert Jobs(from, day - 1, tables) == Jobs(from, to, tables);
    }

    method OneDay(ghost start: Db, ghost done: seq<Job>, day: nat, tables: seq<Table>, lake: Lake, now: Job -> nat,
                  dryRun: bool, rows: nat, files: nat) returns (totalRows: nat, totalFiles: nat)
      requires Progress(start, lake, done, now, dryRun, rows, files)
      modifies this
      ensures Progress(start, lake, done + TableJobs(tables, day), now, dryRun, totalRows, totalFiles)
    {
      totalRows, totalFiles := rows, files;
      assert done + TableJobs(tables[..0], day) == done;
      for t := 0 to |tables|
        invariant Progress(start, lake, done + TableJobs(tables[..t], day), now, dryRun, totalRows, totalFiles)
      {
        OneMoreTable(done, tables, day, t);
        ghost var before := done + TableJobs(tables[..t], day);
        totalRows, totalFiles := OneTable(start, before, day, tables[t], lake, now, dryRun, totalRows, totalFiles);
      }
      assert tables[..|tables|] == tables;
    }

    method OneTable(ghost start: Db, ghost done: seq<Job>, day: nat, table: Table, lake: Lake, now: Job -> nat,
                    dryRun: bool, rows: nat, files: nat) returns (totalRows: nat, totalFiles: nat)
      requires Progress(start, lake, done, now, dryRun, rows, files)
      modifies this
      ensures Progress(start, lake, done + HourJobs(table, day, 24), now, dryRun, totalRows, totalFiles)
    {
      totalRows, totalFiles := rows, files;
      assert done + HourJobs(table, day, 0) == done;
      for hour := 0 to 24
        invariant Progress(start, lake, done + HourJobs(table, day, hour), now, dryRun, totalRows, totalFiles)
      {
        var j := Job(table, 24 * day + hour);
        ghost var before := done + HourJobs(table, day, hour);
        totalRows, totalFiles := OneFile(start, before, lake, j, now, dryRun, totalRows, totalFiles);
        OneMoreHour(done, table, day, hour);
      }
    }

    ghost predicate Progress(start: Db, lake: Lake, done: seq<Job>, now: Job -> nat, dryRun: bool, rows: nat,
                             files: nat)
      reads this
    {
      && files == FileCount(lake, done)
      && (dryRun ==> db == start && rows == RowCount(lake, done))
      && (!dryRun ==> db == RunJobs(start, lake, done, now) && Size(db) == Size(start) + rows)
    }

    method OneFile(ghost start: Db, ghost done: seq<Job>, lake: Lake, j: Job, now: Job -> nat, dryRun: bool,
                   rows: nat, files: nat) returns (totalRows: nat, totalFiles: nat)
      requires Progress(start, lake, done, now, dryRun, rows, files)
      modifies this
      ensures Progress(start, lake, done + [j], now, dryRun, totalRows, totalFiles)
    {
      assert (done + [j])[..|done|] == done;
      totalRows, totalFiles := rows, files;
      if j !in lake || lake[j] == [] {
        return;
      }
      var attempted, inserted := InsertPartition(j, lake[j], now(j), dryRun);
      if attempted > 0 {
        totalFiles := totalFiles + 1;
        totalRows := totalRows + inserted;
      }
    }
  }

  // ---------------------------------------------------------------- what a backfill restores

  /** The rows that the jobs bring to one table, in order. */
  function RowsFor(lake: Lake, jobs: seq<Job>, t: Table): seq<Row> {
    if jobs == [] then []
    else RowsFor(lake, jobs[..|jobs| - 1], t)
         + (if jobs[|jobs| - 1].table == t then FileFor(lake, jobs[|jobs| - 1]) else [])
  }

  lemma {:induction false} InsertAllJoin(table: seq<Row>, a: seq<Row>, b: seq<Row>)
    ensures InsertAll(table, a + b) == InsertAll(InsertAll(table, a), b)
  {
    if b == [] {
      assert a + b == a;
    } else {
      InsertAllJoin(table, a, b[..|b| - 1]);
      assert (a + b)[..|a + b| - 1] == a + b[..|b| - 1];
    }
  }

  /** Each table gets its own files and nothing else; rows already there are not touched. */
  lemma {:induction false} JobsInsert(db: Db, lake: Lake, jobs: seq<Job>, now: Job -> nat, t: Table)
    ensures RowsIn(ContentsOf(RunJobs(db, lake, jobs, now), t)) ==
        InsertAll(RowsIn(ContentsOf(db, t)), RowsFor(lake, jobs, t))
    ensures ContentsOf(db, t) <= ContentsOf(RunJobs(db, lake, jobs, now), t)
  {
    if jobs != [] {
      var init, j := jobs[..|jobs| - 1], jobs[|jobs| - 1];
      JobsInsert(db, lake, init, now, t);
      var before := RunJobs(db, lake, init, now);
      InsertStampedIsInsertAll(ContentsOf(before, t), FileFor(lake, j), now(j));
      InsertAllJoin(RowsIn(ContentsOf(db, t)), RowsFor(lake, init, t), FileFor(lake, j));
      if j.table != t {
        assert RowsFor(lake, init, t) + [] == RowsFor(lake, init, t);
      }
    }
  }

  /** The event ids of a table. */
  function Ids(rows: seq<Row>): set<string> {
    set r | r in rows && r.eventId.Some? :: r.eventId.value
  }

  lemma {:induction false} InsertAllIds(table: seq<Row>, rows: seq<Row>)
    ensures Ids(InsertAll(table, rows)) == Ids(table) + Ids(rows)
  {
    if rows != [] {
      var init, last := rows[..|rows| - 1], rows[|rows| - 1];
      InsertAllIds(table, init);
      assert rows == init + [last];
      IdsSnoc(init, last);
      IdsSnoc(InsertAll(table, init), last);
      if Conflicts(InsertAll(table, init), last) {
        assert last.eventId.value in Ids(InsertAll(table, init));
      }
    }
  }

  lemma IdsSnoc(rows: seq<Row>, r: Row)
    ensures Ids(rows + [r]) == Ids(rows) + (if r.eventId.Some? then {r.eventId.value} else {})
  {
    var all := rows + [r];
    assert forall x :: x in all <==> x in rows || x == r;
  }

  /** The lake was exported from `original`: the file of each written hour is that hour's rows. */
  ghost predicate ExportedFrom(lake: Lake, t: Table, original: Contents) {
    forall j | j in lake && j.table == t :: lake[j] == HourFile(original, j.hour)
  }

  /** The rows of the original whose hour was written and is among the jobs. */
  function Restorable(lake: Lake, jobs: seq<Job>, t: Table, original: Contents): set<string> {
    set s | s in original && Job(t, HourOf(s.at)) in lake && Job(t, HourOf(s.at)) in jobs && s.row.eventId.Some?
      :: s.row.eventId.value
  }

  lemma {:induction false} RowsForHas(lake: Lake, jobs: seq<Job>, t: Table, r: Row)
    ensures r in RowsFor(lake, jobs, t) <==> exists j :: j in jobs && j.table == t && r in FileFor(lake, j)
  {
    if jobs != [] {
      var init, last := jobs[..|jobs| - 1], jobs[|jobs| - 1];
      assert jobs == init + [last];
      assert forall j :: j in jobs <==> j in init || j == last;
      RowsForHas(lake, init, t, r);
    }
  }

  lemma FileIds(lake: Lake, jobs: seq<Job>, t: Table, original: Contents)
    requires ExportedFrom(lake, t, original)
    ensures Ids(RowsFor(lake, jobs, t)) == Restorable(lake, jobs, t, original)
  {
    forall id | id in Ids(RowsFor(lake, jobs, t)) ensures id in Restorable(lake, jobs, t, original) {
      var r :| r in RowsFor(lake, jobs, t) && r.eventId == Some(id);
      RowsForHas(lake, jobs, t, r);
      var j :| j in jobs && j.table == t && r in FileFor(lake, j);
      HourFileHas(original, j.hour, r);
      var s :| s in original && s.row == r && HourOf(s.at) == j.hour;
      assert j == Job(t, HourOf(s.at));
    }
    forall id | id in Restorable(lake, jobs, t, original) ensures id in Ids(RowsFor(lake, jobs, t)) {
      var s :| s in original && Job(t, HourOf(s.at)) in lake && Job(t, HourOf(s.at)) in jobs
          && s.row.eventId == Some(id);
      var j := Job(t, HourOf(s.at));
      HourFileHas(original, j.hour, s.row);
      assert s.row in FileFor(lake, j);
      RowsForHas(lake, jobs, t, s.row);
    }
  }

  lemma {:induction false} InsertAllFrom(table: seq<Row>, rows: seq<Row>, r: Row)
    requires r in InsertAll(table, rows)
    ensures r in table || r in rows
  {
    if rows != [] {
      var init, last := rows[..|rows| - 1], rows[|rows| - 1];
      assert rows == init + [last];
      if r != last || r in InsertAll(table, init) { InsertAllFrom(table, init, r); }
    }
  }

  lemma RestoredRowsAreOriginal(db: Db, lake: Lake, jobs: seq<Job>, now: Job -> nat, t: Table, original: Contents)
    requires ExportedFrom(lake, t, original)
    ensures forall r | r in RowsIn(ContentsOf(RunJobs(db, lake, jobs, now), t)) ::
              r in RowsIn(ContentsOf(db, t)) || r in RowsIn(original)
  {
    JobsInsert(db, lake, jobs, now, t);
    forall r | r in RowsIn(ContentsOf(RunJobs(db, lake, jobs, now), t)) && r !in RowsIn(ContentsOf(db, t))
      ensures r in RowsIn(original)
    {
      InsertAllFrom(RowsIn(ContentsOf(db, t)), RowsFor(lake, jobs, t), r);
      RowsForHas(lake, jobs, t, r);
      var j :| j in jobs && j.table == t && r in FileFor(lake, j);
      HourFileHas(original, j.hour, r);
      RowsInHas(original, r);
    }
  }

  lemma RowsInHas(t: Contents, r: Row)
    ensures r in RowsIn(t) <==> exists s :: s in t && s.row == r
  {
    if r in RowsIn(t) {
      var i :| 0 <= i < |RowsIn(t)| && RowsIn(t)[i] == r;
      assert t[i] in t;
    }
    if s :| s in t && s.row == r {
      var i :| 0 <= i < |t| && t[i] == s;
      assert RowsIn(t)[i] == r;
    }
  }

  /** Export then backfill: into a table holding any part of the original, a backfill adds exactly the missing
      event ids of the hours that were written and are in range, keeps the rows that were there, never makes
      two rows of one id, and every row it adds is a row of the original. */
  lemma BackfillRestores(db: Db, lake: Lake, jobs: seq<Job>, now: Job -> nat, t: Table, original: Contents)
    requires ExportedFrom(lake, t, original) && UniqueIds(RowsIn(ContentsOf(db, t)))
    ensures var after := ContentsOf(RunJobs(db, lake, jobs, now), t);
            && Ids(RowsIn(after)) == Ids(RowsIn(ContentsOf(db, t))) + Restorable(lake, jobs, t, original)
            && ContentsOf(db, t) <= after
            && UniqueIds(RowsIn(after))
            && (forall r | r in RowsIn(after) :: r in RowsIn(ContentsOf(db, t)) || r in RowsIn(original))
  {
    RestoredRowsAreOriginal(db, lake, jobs, now, t, original);
    JobsInsert(db, lake, jobs, now, t);
    InsertAllIds(RowsIn(ContentsOf(db, t)), RowsFor(lake, jobs, t));
    InsertAllKeeps(RowsIn(ContentsOf(db, t)), RowsFor(lake, jobs, t));
    FileIds(lake, jobs, t, original);
  }

  /** Which jobs a date range stands for: every hour of every day of the range, for each table asked for. */
  lemma {:induction false} JobsHas(from: nat, to: int, tables: seq<Table>, j: Job)
    ensures j in Jobs(from, to, tables) <==> j.table in tables && from <= j.hour / 24 <= to
    decreases if from <= to then to - from + 1 else 0
  {
    if from <= to {
      JobsHas(from, to - 1, tables, j);
      TableJobsHas(tables, to, j);
    }
  }

  lemma {:induction false} TableJobsHas(tables: seq<Table>, day: nat, j: Job)
    ensures j in TableJobs(tables, day) <==> j.table in tables && j.hour / 24 == day
  {
    if tables != [] {
      TableJobsHas(tables[..|tables| - 1], day, j);
      HourJobsHas(tables[|tables| - 1], day, 24, j);
      assert tables == tables[..|tables| - 1] + [tables[|tables| - 1]];
    }
  }

  lemma {:induction false} HourJobsHas(table: Table, day: nat, hours: nat, j: Job)
    requires hours <= 24
    ensures j in HourJobs(table, day, hours) <==> j.table == table && 24 * day <= j.hour < 24 * day + hours
  {
    if hours > 0 {
      HourJobsHas(table, day, hours - 1, j);
    }
  }

  /** A second backfill of the same range adds nothing if and only if no file of the range holds a row with a
      null event id; such rows are added again on every run. */
  lemma SecondBackfillAddsNothingIff(db: Db, lake: Lake, jobs: seq<Job>, now: Job -> nat, later: Job -> nat, t: Table)
    ensures var once := RunJobs(db, lake, jobs, now);
            RowsIn(ContentsOf(RunJobs(once, lake, jobs, later), t)) == RowsIn(ContentsOf(once, t))
            <==> forall r | r in RowsFor(lake, jobs, t) :: r.eventId.Some?
  {
    var once := RunJobs(db, lake, jobs, now);
    JobsInsert(db, lake, jobs, now, t);
    JobsInsert(once, lake, jobs, later, t);
    InsertAllStores(RowsIn(ContentsOf(db, t)), RowsFor(lake, jobs, t));
    ReinsertIsNoOpIff(RowsIn(ContentsOf(once, t)), RowsFor(lake, jobs, t));
  }

  /** A run that failed after some of its files can simply be repeated: with event ids on every row, the
      repeated run leaves the rows that one undisturbed run would have left. */
  lemma RepeatAfterFailure(db: Db, lake: Lake, jobs: seq<Job>, done: nat, now: Job -> nat, later: Job -> nat, t: Table)
    requires done <= |jobs| && forall r | r in RowsFor(lake, jobs, t) :: r.eventId.Some?
    ensures RowsIn(ContentsOf(RunJobs(RunJobs(db, lake, jobs[..done], now), lake, jobs, later), t))
            == RowsIn(ContentsOf(RunJobs(db, lake, jobs, now), t))
  {
    var table := RowsIn(ContentsOf(db, t));
    var a, b := RowsFor(lake, jobs[..done], t), RowsFor(lake, jobs[done..], t);
    RowsForJoin(lake, jobs[..done], jobs[done..], t);
    assert jobs[..done] + jobs[done..] == jobs;
    JobsInsert(db, lake, jobs[..done], now, t);
    JobsInsert(RunJobs(db, lake, jobs[..done], now), lake, jobs, later, t);
    JobsInsert(db, lake, jobs, now, t);
    InsertAllJoin(InsertAll(table, a), a, b);
    InsertAllJoin(table, a, b);
    InsertAllStores(table, a);
    assert forall r | r in a :: r in a + b;
    ReinsertIsNoOpIff(InsertAll(table, a), a);
  }

  lemma {:induction false} RowsForJoin(lake: Lake, x: seq<Job>, y: seq<Job>, t: Table)
    ensures RowsFor(lake, x + y, t) == RowsFor(lake, x, t) + RowsFor(lake, y, t)
  {
    if y == [] {
      assert x + y == x;
    } else {
      RowsForJoin(lake, x, y[..|y| - 1], t);
      assert (x + y)[..|x + y| - 1] == x + y[..|y| - 1];
    }
  }
}
