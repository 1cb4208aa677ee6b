/** Any sequence of nightly syncs, each of which may die after any command, among the stream writers'
    HSETs: what the completion sentinel says about a route (services/worker/app/feature_store.py). */
module SyncRuns {
  import opened Options
  import opened RouteHash
  import opened FeatureRegistry
  import opened FeatureWriters
  import opened NightlySync

  /** A run that got as far as having rows to write; `written` of them have reached Redis. */
  datatype Run = Run(stamp: int, rows: seq<RouteRow>, written: nat, completed: bool)

  datatype State = State(hashes: Hashes, sentinel: Option<int>, runs: seq<Run>)

  const EMPTY := State(map[], None, [])

  /** A run that dies simply takes no further step; the next night starts another. */
  datatype Step =
    | Start(rows: seq<RouteRow>, stamp: int)
    | WriteNext
    | Complete
    | StreamWrite(route: string, write: Write)

  predicate Enabled(s: State, step: Step) {
    match step
    case Start(rows, stamp) => rows != [] && (s.runs != [] ==> s.runs[|s.runs| - 1].stamp < stamp)
    case WriteNext => s.runs != [] && Unfinished(s.runs[|s.runs| - 1])
        && s.runs[|s.runs| - 1].written < |s.runs[|s.runs| - 1].rows|
    case Complete => s.runs != [] && Unfinished(s.runs[|s.runs| - 1])
        && s.runs[|s.runs| - 1].written == |s.runs[|s.runs| - 1].rows|
    case StreamWrite(_, write) => !write.BatchWrite?
  }

  predicate Unfinished(run: Run) {
    !run.completed
  }

  function Do(registry: seq<Feature>, s: State, step: Step): State
    requires Enabled(s, step)
  {
    match step
    case Start(rows, stamp) => s.(runs := s.runs + [Run(stamp, rows, 0, false)])
    case WriteNext =>
      var last := s.runs[|s.runs| - 1];
      s.(hashes := RowWritten(s.hashes, registry, last.rows[last.written], last.stamp),
         runs := s.runs[..|s.runs| - 1] + [last.(written := last.written + 1)])
    case Complete =>
      var last := s.runs[|s.runs| - 1];
      s.(sentinel := Some(last.stamp), runs := s.runs[..|s.runs| - 1] + [last.(completed := true)])
    case StreamWrite(route, write) =>
      s.(hashes := HsetAt(s.hashes, route, MappingOf(registry, write)))
  }

  function After(registry: seq<Feature>, steps: seq<Step>): Option<State> {
    if steps == [] then Some(EMPTY)
    else
      var before := After(registry, steps[..|steps| - 1]);
      if before.Some? && Enabled(before.value, steps[|steps| - 1])
      then Some(Do(registry, before.value, steps[|steps| - 1]))
      else None
  }

  // ---------------------------------------------------------------- who wrote a route last

  /** The last of the rows that is of this route. */
  function LastRow(rows: seq<RouteRow>, route: string): (r: Option<Row>)
    ensures r.Some? <==> exists row :: row in rows && row.route == route
  {
    if rows == [] then None
    else
      var init, last := rows[..|rows| - 1], rows[|rows| - 1];
      assert rows == init + [last];
      if last.route == route then assert last in rows; Some(last.values)
      else LastRow(init, route)
  }

  function RowIn(run: Run, route: string): Option<Row> {
    if run.written <= |run.rows| then LastRow(run.rows[..run.written], route) else None
  }

  predicate Wrote(run: Run, route: string) {
    RowIn(run, route).Some?
  }

  /** The last run that wrote this route. */
  function LastWriter(runs: seq<Run>, route: string): (i: Option<nat>)
    ensures i.Some? ==> i.value < |runs| && Wrote(runs[i.value], route)
    ensures i.Some? ==> forall j | i.value < j < |runs| :: !Wrote(runs[j], route)
    ensures i.None? ==> forall j | 0 <= j < |runs| :: !Wrote(runs[j], route)
  {
    if runs == [] then None
    else if Wrote(runs[|runs| - 1], route) then Some(|runs| - 1)
    else LastWriter(runs[..|runs| - 1], route)
  }

  /** The batch freshness stamp of a route. */
  function StampAt(hashes: Hashes, route: string): Option<int> {
    var h := HashOf(hashes, route);
    if BatchComputedAt in h && h[BatchComputedAt].Stamp? then Some(h[BatchComputedAt].at) else None
  }

  /** A hash carries a run's stamp and every value of the run's row. */
  ghost predicate Carries(registry: seq<Feature>, h: Hash, stamp: int, row: Row) {
    var m := BatchMapping(registry, row, stamp);
    forall x | x in m :: x in h && h[x] == m[x]
  }

  // ---------------------------------------------------------------- the invariant

  ghost predicate RunsOk(s: State) {
    && (forall i, j | 0 <= i < j < |s.runs| :: s.runs[i].stamp < s.runs[j].stamp)
    && (forall i | 0 <= i < |s.runs| ::
          s.runs[i].written <= |s.runs[i].rows| && (s.runs[i].completed ==> s.runs[i].written == |s.runs[i].rows|))
  }

  ghost predicate IsLastCompleted(runs: seq<Run>, i: int) {
    && 0 <= i < |runs| && runs[i].completed
    && forall j | i < j < |runs| :: !runs[j].completed
  }

  /** The sentinel is the stamp of the last run that completed. */
  ghost predicate SentinelOk(s: State) {
    && (s.sentinel.Some? ==> exists i :: IsLastCompleted(s.runs, i) && s.runs[i].stamp == s.sentinel.value)
    && (s.sentinel.None? ==> forall i | 0 <= i < |s.runs| :: !s.runs[i].completed)
  }

  /** A route's batch fields come from the last run that wrote it. */
  ghost predicate RouteOk(registry: seq<Feature>, s: State, route: string) {
    var source := Source(s.runs, route);
    if source.Some? then
      Carries(registry, HashOf(s.hashes, route), source.value.0, source.value.1)
    else
      BatchComputedAt !in HashOf(s.hashes, route)
  }

  /** The stamp and the row a route was last written with. */
  function Source(runs: seq<Run>, route: string): Option<(int, Row)> {
    var i := LastWriter(runs, route);
    if i.Some? then Some((runs[i.value].stamp, RowIn(runs[i.value], route).value)) else None
  }

  ghost predicate Inv(registry: seq<Feature>, s: State) {
    && RunsOk(s) && SentinelOk(s) && forall route :: RouteOk(registry, s, route)
  }

  lemma LastRunChanged(runs: seq<Run>, last: Run, route: string)
    requires runs != []
    ensures var next := runs[..|runs| - 1] + [last];
            LastWriter(next, route) == if Wrote(last, route) then Some(|runs| - 1)
                else LastWriter(runs[..|runs| - 1], route)
  {
    var next := runs[..|runs| - 1] + [last];
    assert next[..|next| - 1] == runs[..|runs| - 1];
  }

  lemma WriterAfterStart(runs: seq<Run>, run: Run, route: string)
    requires run.written == 0
    ensures LastWriter(runs + [run], route) == LastWriter(runs, route)
  {
    assert (runs + [run])[..|runs|] == runs;
    assert run.rows[..0] == [];
  }

  lemma StartKeeps(registry: seq<Feature>, s: State, step: Step)
    requires Inv(registry, s) && step.Start? && Enabled(s, step)
    ensures Inv(registry, Do(registry, s, step))
  {
    var run := Run(step.stamp, step.rows, 0, false);
    var t := s.(runs := s.runs + [run]);
    if s.sentinel.Some? {
      var i :| IsLastCompleted(s.runs, i) && s.runs[i].stamp == s.sentinel.value;
      assert IsLastCompleted(t.runs, i);
    }
    forall route ensures RouteOk(registry, t, route) {
      assert RouteOk(registry, s, route);
      WriterAfterStart(s.runs, run, route);
    }
  }

  lemma SourceAfterComplete(runs: seq<Run>, route: string)
    requires runs != []
    ensures var n := |runs| - 1; Source(runs[..n] + [runs[n].(completed := true)], route) == Source(runs, route)
  {
    var n := |runs| - 1;
    var done := runs[n].(completed := true);
    LastRunChanged(runs, done, route);
    LastRunChanged(runs, runs[n], route);
    assert runs[..n] + [runs[n]] == runs;
    assert RowIn(done, route) == RowIn(runs[n], route);
  }

  lemma CompleteKeeps(registry: seq<Feature>, s: State, step: Step)
    requires Inv(registry, s) && step.Complete? && Enabled(s, step)
    ensures Inv(registry, Do(registry, s, step))
  {
    var t, n := Do(registry, s, step), |s.runs|;
    assert IsLastCompleted(t.runs, n - 1);
    forall route ensures RouteOk(registry, t, route) {
      assert RouteOk(registry, s, route);
      SourceAfterComplete(s.runs, route);
    }
  }

  lemma RowInNext(run: Run, route: string)
    requires run.written < |run.rows|
    ensures RowIn(run.(written := run.written + 1), route) ==
            if run.rows[run.written].route == route then Some(run.rows[run.written].values) else RowIn(run, route)
  {
    assert run.rows[..run.written + 1][..run.written] == run.rows[..run.written];
  }

  lemma WriteKeepsRuns(registry: seq<Feature>, s: State, step: Step)
    requires Inv(registry, s) && step.WriteNext? && Enabled(s, step)
    ensures RunsOk(Do(registry, s, step)) && SentinelOk(Do(registry, s, step))
  {
    var t := Do(registry, s, step);
    if s.sentinel.Some? {
      var i :| IsLastCompleted(s.runs, i) && s.runs[i].stamp == s.sentinel.value;
      assert IsLastCompleted(t.runs, i);
    }
  }

  lemma WriterAfterWrite(runs: seq<Run>, route: string)
    requires runs != [] && var last := runs[|runs| - 1]; last.written < |last.rows|
    ensures var last := runs[|runs| - 1];
            LastWriter(runs[..|runs| - 1] + [last.(written := last.written + 1)], route) ==
              if last.rows[last.written].route == route then Some(|runs| - 1) else LastWriter(runs, route)
  {
    var last := runs[|runs| - 1];
    RowInNext(last, route);
    LastRunChanged(runs, last.(written := last.written + 1), route);
  }

  lemma WriteSetsRoute(registry: seq<Feature>, s: State)
    requires Enabled(s, WriteNext)
    ensures var last := s.runs[|s.runs| - 1];
            RouteOk(registry, Do(registry, s, WriteNext), last.rows[last.written].route)
  {
    var n := |s.runs|;
    var last := s.runs[n - 1];
    var row := last.rows[last.written];
    WriterAfterWrite(s.runs, row.route);
    RowInNext(last, row.route);
    var h := HashOf(RowWritten(s.hashes, registry, row, last.stamp), row.route);
    assert h == Hset(HashOf(s.hashes, row.route), BatchMapping(registry, row.values, last.stamp));
    assert Carries(registry, h, last.stamp, row.values);
  }

  lemma WriteKeepsRoute(registry: seq<Feature>, s: State, route: string)
    requires RouteOk(registry, s, route) && Enabled(s, WriteNext)
    requires var last := s.runs[|s.runs| - 1]; last.rows[last.written].route != route
    ensures RouteOk(registry, Do(registry, s, WriteNext), route)
  {
    var last := s.runs[|s.runs| - 1];
    var t := Do(registry, s, WriteNext);
    assert HashOf(t.hashes, route) == HashOf(s.hashes, route);
    assert Source(t.runs, route) == Source(s.runs, route) by {
      SourceAfterWrite(s.runs, route);
    }
  }

  lemma SourceAfterWrite(runs: seq<Run>, route: string)
    requires runs != []
    requires var last := runs[|runs| - 1]; last.written < |last.rows| && last.rows[last.written].route != route
    ensures var last := runs[|runs| - 1];
            Source(runs[..|runs| - 1] + [last.(written := last.written + 1)], route) == Source(runs, route)
  {
    WriterAfterWrite(runs, route);
    RowInNext(runs[|runs| - 1], route);
  }

  lemma StreamKeepsRoute(registry: seq<Feature>, s: State, route: string, at: string, mapping: Hash)
    requires RouteOk(registry, s, route) && mapping.Keys !! BatchSide(registry)
    ensures RouteOk(registry, s.(hashes := HsetAt(s.hashes, at, mapping)), route)
  {
    var g, h := HashOf(s.hashes, route), HashOf(HsetAt(s.hashes, at, mapping), route);
    assert h == if at == route then Hset(g, mapping) else g;
    var i := LastWriter(s.runs, route);
    if i.Some? {
      var stamp, row := s.runs[i.value].stamp, RowIn(s.runs[i.value], route).value;
      assert BatchMapping(registry, row, stamp).Keys <= BatchSide(registry);
      assert Carries(registry, h, stamp, row);
    }
  }

  lemma StreamKeeps(registry: seq<Feature>, s: State, step: Step)
    requires Suitable(registry) && Inv(registry, s) && step.StreamWrite? && Enabled(s, step)
    ensures Inv(registry, Do(registry, s, step))
  {
    var mapping := MappingOf(registry, step.write);
    SidesAreDisjoint(registry);
    SidesOfMappings(registry, step.write);
    forall route ensures RouteOk(registry, Do(registry, s, step), route) {
      StreamKeepsRoute(registry, s, route, step.route, mapping);
    }
  }

  lemma InvStep(registry: seq<Feature>, s: State, step: Step)
    requires Suitable(registry) && Inv(registry, s) && Enabled(s, step)
    ensures Inv(registry, Do(registry, s, step))
  {
    match step
    case Start(_, _) => StartKeeps(registry, s, step);
    case WriteNext =>
      WriteKeepsRuns(registry, s, step);
      forall route ensures RouteOk(registry, Do(registry, s, step), route) {
        if s.runs[|s.runs| - 1].rows[s.runs[|s.runs| - 1].written].route == route {
          WriteSetsRoute(registry, s);
        } else {
          WriteKeepsRoute(registry, s, route);
        }
      }
    case Complete => CompleteKeeps(registry, s, step);
    case StreamWrite(_, _) => StreamKeeps(registry, s, step);
  }

  lemma {:induction false} InvHolds(registry: seq<Feature>, steps: seq<Step>)
    requires Suitable(registry) && After(registry, steps).Some?
    ensures Inv(registry, After(registry, steps).value)
  {
    if steps != [] {
      var init := steps[..|steps| - 1];
      InvHolds(registry, init);
      InvStep(registry, After(registry, init).value, steps[|steps| - 1]);
    }
  }

  // ---------------------------------------------------------------- what the sentinel means

  lemma StampIsLastWriters(registry: seq<Feature>, s: State, route: string)
    requires Inv(registry, s)
    ensures var w := LastWriter(s.runs, route);
            StampAt(s.hashes, route) == if w.Some? then Some(s.runs[w.value].stamp) else None
  {
    assert RouteOk(registry, s, route);
    var w := LastWriter(s.runs, route);
    if w.Some? {
      var m := BatchMapping(registry, RowIn(s.runs[w.value], route).value, s.runs[w.value].stamp);
      assert BatchComputedAt in m;
    }
  }

  lemma CompleteRunIsFresh(registry: seq<Feature>, s: State, i: nat, route: string)
    requires Inv(registry, s) && IsLastCompleted(s.runs, i)
    requires exists row :: row in s.runs[i].rows && row.route == route
    ensures StampAt(s.hashes, route).Some? && s.runs[i].stamp <= StampAt(s.hashes, route).value
  {
    assert s.runs[i].rows[..s.runs[i].written] == s.runs[i].rows;
    assert Wrote(s.runs[i], route);
    StampIsLastWriters(registry, s, route);
    assert LastWriter(s.runs, route).Some? && i <= LastWriter(s.runs, route).value;
  }

  /** The sentinel always names a run all of whose rows were written, and every route of that run is at
      least as fresh as the sentinel. */
  lemma SentinelNamesACompleteRun(registry: seq<Feature>, steps: seq<Step>, s: State) returns (i: nat)
    requires Suitable(registry) && After(registry, steps) == Some(s) && s.sentinel.Some?
    ensures IsLastCompleted(s.runs, i) && s.runs[i].stamp == s.sentinel.value && s.runs[i].written == |s.runs[i].rows|
    ensures forall row | row in s.runs[i].rows ::
              StampAt(s.hashes, row.route).Some? && s.sentinel.value <= StampAt(s.hashes, row.route).value
  {
    InvHolds(registry, steps);
    var k :| IsLastCompleted(s.runs, k) && s.runs[k].stamp == s.sentinel.value;
    i := k;
    forall row | row in s.runs[i].rows
      ensures StampAt(s.hashes, row.route).Some? && s.sentinel.value <= StampAt(s.hashes, row.route).value
    {
      CompleteRunIsFresh(registry, s, i, row.route);
    }
  }

  /** A route's stamp equals the sentinel exactly when the completed run was the last to write it, and then
      its hash carries every value of that run's row. */
  lemma EqualToSentinelIff(registry: seq<Feature>, steps: seq<Step>, s: State, i: nat, route: string)
    requires Suitable(registry) && After(registry, steps) == Some(s) && IsLastCompleted(s.runs, i)
    ensures StampAt(s.hashes, route) == Some(s.runs[i].stamp)
            <==> Wrote(s.runs[i], route) && forall j | i < j < |s.runs| :: !Wrote(s.runs[j], route)
    ensures StampAt(s.hashes, route) == Some(s.runs[i].stamp)
            ==> Carries(registry, HashOf(s.hashes, route), s.runs[i].stamp, RowIn(s.runs[i], route).value)
  {
    InvHolds(registry, steps);
    EqualStamp(registry, s, i, route);
  }

  lemma EqualStamp(registry: seq<Feature>, s: State, i: nat, route: string)
    requires Inv(registry, s) && i < |s.runs|
    ensures StampAt(s.hashes, route) == Some(s.runs[i].stamp)
            <==> Wrote(s.runs[i], route) && forall j | i < j < |s.runs| :: !Wrote(s.runs[j], route)
    ensures StampAt(s.hashes, route) == Some(s.runs[i].stamp)
            ==> Carries(registry, HashOf(s.hashes, route), s.runs[i].stamp, RowIn(s.runs[i], route).value)
  {
    StampIsLastWriters(registry, s, route);
    assert RouteOk(registry, s, route);
    var w := LastWriter(s.runs, route);
    if w.Some? && w.value != i {
      assert s.runs[w.value].stamp != s.runs[i].stamp;
    }
  }

  lemma NewerStamp(registry: seq<Feature>, s: State, i: nat, route: string)
    requires Inv(registry, s) && i < |s.runs|
    ensures StampAt(s.hashes, route).Some? && s.runs[i].stamp < StampAt(s.hashes, route).value
            <==> LastWriter(s.runs, route).Some? && i < LastWriter(s.runs, route).value
  {
    StampIsLastWriters(registry, s, route);
    var w := LastWriter(s.runs, route);
    if w.Some? && i < w.value {
      assert s.runs[i].stamp < s.runs[w.value].stamp;
    }
    if w.Some? && w.value < i {
      assert s.runs[w.value].stamp < s.runs[i].stamp;
    }
  }

  /** A route is newer than the sentinel exactly when a later run wrote it, and no later run has completed. */
  lemma NewerThanSentinelIff(registry: seq<Feature>, steps: seq<Step>, s: State, i: nat, route: string)
    requires Suitable(registry) && After(registry, steps) == Some(s) && IsLastCompleted(s.runs, i)
    ensures StampAt(s.hashes, route).Some? && s.runs[i].stamp < StampAt(s.hashes, route).value
            <==> exists j | i < j < |s.runs| :: !s.runs[j].completed && Wrote(s.runs[j], route)
  {
    InvHolds(registry, steps);
    NewerStamp(registry, s, i, route);
    var w := LastWriter(s.runs, route);
    if w.Some? && i < w.value {
      assert !s.runs[w.value].completed && Wrote(s.runs[w.value], route);
    }
  }

  /** Before any run has completed, a batch stamp comes from a run that has not. */
  lemma StampWithoutSentinel(registry: seq<Feature>, steps: seq<Step>, s: State, route: string)
    requires Suitable(registry) && After(registry, steps) == Some(s) && s.sentinel == None
    ensures StampAt(s.hashes, route).Some?
            <==> exists j | 0 <= j < |s.runs| :: !s.runs[j].completed && Wrote(s.runs[j], route)
  {
    InvHolds(registry, steps);
    StampIsLastWriters(registry, s, route);
  }

  // ---------------------------------------------------------------- the sync, step by step

  /** The state after the newest run has written `k` of its rows. */
  function WriteMany(registry: seq<Feature>, s: State, k: nat): State
    requires s.runs != [] && var last := s.runs[|s.runs| - 1]; !last.completed && last.written + k <= |last.rows|
    decreases k
  {
    if k == 0 then s else WriteMany(registry, Do(registry, s, WriteNext), k - 1)
  }

  /** The same state, written out: the newest run has written `k` more rows. */
  function Further(registry: seq<Feature>, s: State, k: nat): State
    requires s.runs != [] && var last := s.runs[|s.runs| - 1]; !last.completed && last.written + k <= |last.rows|
  {
    var last := s.runs[|s.runs| - 1];
    s.(hashes := RowsWritten(s.hashes, registry, last.rows[last.written..last.written + k], last.stamp),
       runs := s.runs[..|s.runs| - 1] + [last.(written := last.written + k)])
  }

  lemma RowsFromFirst(registry: seq<Feature>, hashes: Hashes, rows: seq<RouteRow>, i: nat, j: nat, stamp: int)
    requires i < j <= |rows|
    ensures RowsWritten(RowWritten(hashes, registry, rows[i], stamp), registry, rows[i + 1..j], stamp)
         == RowsWritten(hashes, registry, rows[i..j], stamp)
  {
    RowsWrittenJoin(hashes, registry, [rows[i]], rows[i + 1..j], stamp);
    assert [rows[i]] + rows[i + 1..j] == rows[i..j];
    assert [rows[i]][..0] == [];
    assert RowsWritten(hashes, registry, [rows[i]], stamp) == RowWritten(hashes, registry, rows[i], stamp);
  }

  lemma FurtherByOne(registry: seq<Feature>, s: State, k: nat)
    requires 0 < k && s.runs != []
    requires var last := s.runs[|s.runs| - 1]; !last.completed && last.written + k <= |last.rows|
    ensures Further(registry, Do(registry, s, WriteNext), k - 1) == Further(registry, s, k)
  {
    var last := s.runs[|s.runs| - 1];
    var next := Do(registry, s, WriteNext);
    RowsFromFirst(registry, s.hashes, last.rows, last.written, last.written + k, last.stamp);
    assert next.runs[..|next.runs| - 1] == s.runs[..|s.runs| - 1];
  }

  lemma {:induction false} WriteManyWrites(registry: seq<Feature>, s: State, k: nat)
    requires s.runs != [] && var last := s.runs[|s.runs| - 1]; !last.completed && last.written + k <= |last.rows|
    ensures WriteMany(registry, s, k) == Further(registry, s, k)
    decreases k
  {
    var last := s.runs[|s.runs| - 1];
    if k == 0 {
      assert s.runs[..|s.runs| - 1] + [last] == s.runs;
    } else {
      WriteManyWrites(registry, Do(registry, s, WriteNext), k - 1);
      FurtherByOne(registry, s, k);
    }
  }

  /** A sync with a positive batch size is one such run: it starts, writes the rows that get through in
      order, and completes when the sentinel gets through.  The batching shows nowhere. */
  lemma SyncIsARun(registry: seq<Feature>, s: State, rows: seq<RouteRow>, batchSize: int, stamp: int, reached: nat)
    requires rows != [] && 0 < batchSize && Enabled(s, Start(rows, stamp))
    ensures var written := WriteMany(registry, Do(registry, s, Start(rows, stamp)),
                                     RowsReached(|rows|, batchSize, reached));
            && written.sentinel == s.sentinel
            && written.hashes == RowsWritten(s.hashes, registry, rows[..RowsReached(|rows|, batchSize, reached)], stamp)
            && (SentinelReached(|rows|, batchSize, reached) <==> Enabled(written, Complete) && |rows| < reached)
            && (Enabled(written, Complete) ==>
                  Do(registry, written, Complete) ==
                      written.(sentinel := Some(stamp), runs := s.runs + [Run(stamp, rows, |rows|, true)]))
  {
    var k := RowsReached(|rows|, batchSize, reached);
    var started := Do(registry, s, Start(rows, stamp));
    WriteManyWrites(registry, started, k);
    assert started.runs[..|started.runs| - 1] == s.runs;
    assert rows[0..k] == rows[..k];
  }

  /** What a sync leaves alone: a value that is null in every row of a route stays what it was. */
  lemma {:induction false} NullsKeepOlderValues(registry: seq<Feature>, hashes: Hashes, rows: seq<RouteRow>, stamp: int,
                                                route: string, x: Field)
    requires x != BatchComputedAt
    requires forall row | row in rows && row.route == route :: !Present(row.values, x)
    ensures SameOn(HashOf(RowsWritten(hashes, registry, rows, stamp), route), HashOf(hashes, route), {x})
  {
    if rows != [] {
      var init, last := rows[..|rows| - 1], rows[|rows| - 1];
      assert rows == init + [last];
      NullsKeepOlderValues(registry, hashes, init, stamp, route, x);
      assert last in rows;
    }
  }
}
