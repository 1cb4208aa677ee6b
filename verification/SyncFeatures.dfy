/** Which nightly run each batch feature of a route comes from, and so what a route's equality with the
    completion sentinel does and does not tell (services/worker/app/feature_store.py). */
module SyncFeatures {
  import opened Options
  import opened RouteHash
  import opened FeatureRegistry
  import opened FeatureWriters
  import opened NightlySync
  import opened SyncRuns

  /** The last value that rows of this route give a feature; a null gives none. */
  function LastValue(rows: seq<RouteRow>, route: string, x: Field): Option<real> {
    if rows == [] then None
    else
      var last := rows[|rows| - 1];
      if last.route == route && Present(last.values, x) then last.values[x]
      else LastValue(rows[..|rows| - 1], route, x)
  }

  /** The value a run has given the feature so far. */
  function Given(run: Run, route: string, x: Field): Option<real> {
    if run.written <= |run.rows| then LastValue(run.rows[..run.written], route, x) else None
  }

  /** The last run that gave the feature a value, and the value. */
  function Giver(runs: seq<Run>, route: string, x: Field): (g: Option<(nat, real)>)
    ensures g.Some? ==> g.value.0 < |runs| && Given(runs[g.value.0], route, x) == Some(g.value.1)
    ensures g.Some? ==> forall j | g.value.0 < j < |runs| :: Given(runs[j], route, x).None?
    ensures g.None? ==> forall j | 0 <= j < |runs| :: Given(runs[j], route, x).None?
  {
    if runs == [] then None
    else
      var n := |runs| - 1;
      var v := Given(runs[n], route, x);
      if v.Some? then Some((n, v.value)) else Giver(runs[..n], route, x)
  }

  function BatchNames(registry: seq<Feature>): set<Field> {
    Names(BySource(registry, Batch))
  }

  // ---------------------------------------------------------------- the invariant

  /** The hash holds the feature's last given value, and nothing if no run ever gave one. */
  ghost predicate FeatureOk(hashes: Hashes, runs: seq<Run>, route: string, x: Field) {
    var h, g := HashOf(hashes, route), Giver(runs, route, x);
    if g.Some? then x in h && h[x] == Num(g.value.1) else x !in h
  }

  ghost predicate FeaturesOk(registry: seq<Feature>, s: State) {
    forall route, x | x in BatchNames(registry) :: FeatureOk(s.hashes, s.runs, route, x)
  }

  lemma GiverSnoc(runs: seq<Run>, run: Run, route: string, x: Field)
    ensures Giver(runs + [run], route, x) ==
            if Given(run, route, x).Some? then Some((|runs|, Given(run, route, x).value)) else Giver(runs, route, x)
  {
    assert (runs + [run])[..|runs|] == runs;
  }

  lemma GivenNext(run: Run, route: string, x: Field)
    requires run.written < |run.rows|
    ensures var row := run.rows[run.written];
            Given(run.(written := run.written + 1), route, x) ==
              if row.route == route && Present(row.values, x) then row.values[x] else Given(run, route, x)
  {
    assert run.rows[..run.written + 1][..run.written] == run.rows[..run.written];
  }

  /** Only the newest run's progress matters for what changes. */
  lemma GiverOfLast(runs: seq<Run>, last: Run, route: string, x: Field)
    requires runs != []
    ensures var init := runs[..|runs| - 1];
            Giver(init + [last], route, x) ==
              if Given(last, route, x).Some? then Some((|runs| - 1, Given(last, route, x).value))
                  else Giver(init, route, x)
  {
    GiverSnoc(runs[..|runs| - 1], last, route, x);
  }

  lemma GiverAfterWrite(runs: seq<Run>, route: string, x: Field)
    requires runs != [] && var last := runs[|runs| - 1]; last.written < |last.rows|
    ensures var n, last := |runs| - 1, runs[|runs| - 1];
            var row := last.rows[last.written];
            Giver(runs[..n] + [last.(written := last.written + 1)], route, x) ==
              if row.route == route && Present(row.values, x) then Some((n, row.values[x].value))
                  else Giver(runs, route, x)
  {
    var n, last := |runs| - 1, runs[|runs| - 1];
    GivenNext(last, route, x);
    GiverOfLast(runs, last, route, x);
    GiverOfLast(runs, last.(written := last.written + 1), route, x);
    assert runs[..n] + [last] == runs;
  }

  lemma WriteKeepsFeature(registry: seq<Feature>, hashes: Hashes, runs: seq<Run>, route: string, x: Field)
    requires x in BatchNames(registry) && x != BatchComputedAt
    requires runs != [] && var last := runs[|runs| - 1]; last.written < |last.rows|
    requires FeatureOk(hashes, runs, route, x)
    ensures var n, last := |runs| - 1, runs[|runs| - 1];
            FeatureOk(RowWritten(hashes, registry, last.rows[last.written], last.stamp),
                      runs[..n] + [last.(written := last.written + 1)], route, x)
  {
    var last := runs[|runs| - 1];
    GiverAfterWrite(runs, route, x);
    WrittenField(registry, hashes, last.rows[last.written], last.stamp, route, x);
  }

  lemma NotFreshness(registry: seq<Feature>, x: Field)
    requires Suitable(registry) && x in BatchNames(registry)
    ensures x != BatchComputedAt && x !in STREAM_SIDE
  {
    SidesAreDisjoint(registry);
    var f :| f in BySource(registry, Batch) && f.name == x;
    BySourceHas(registry, Batch, f);
  }

  lemma WrittenField(registry: seq<Feature>, hashes: Hashes, row: RouteRow, stamp: int, route: string, x: Field)
    requires x in BatchNames(registry) && x != BatchComputedAt
    ensures var g, h := HashOf(hashes, route), HashOf(RowWritten(hashes, registry, row, stamp), route);
            if row.route == route && Present(row.values, x) then x in h && h[x] == Num(row.values[x].value)
            else SameOn(g, h, {x})
  {
  }

  lemma StreamKeepsFeature(registry: seq<Feature>, s: State, step: Step, route: string, x: Field)
    requires Suitable(registry) && x in BatchNames(registry) && step.StreamWrite? && Enabled(s, step)
    requires FeatureOk(s.hashes, s.runs, route, x)
    ensures FeatureOk(Do(registry, s, step).hashes, s.runs, route, x)
  {
    NotFreshness(registry, x);
    SidesOfMappings(registry, step.write);
    UntouchedField(s.hashes, step.route, MappingOf(registry, step.write), route, x);
  }

  lemma UntouchedField(hashes: Hashes, at: string, mapping: Hash, route: string, x: Field)
    requires x !in mapping
    ensures SameOn(HashOf(hashes, route), HashOf(HsetAt(hashes, at, mapping), route), {x})
  {
  }

  lemma StartKeepsFeature(s: State, run: Run, route: string, x: Field)
    requires run.written == 0 && FeatureOk(s.hashes, s.runs, route, x)
    ensures FeatureOk(s.hashes, s.runs + [run], route, x)
  {
    GiverSnoc(s.runs, run, route, x);
    assert run.rows[..0] == [];
  }

  lemma CompleteKeepsFeature(s: State, route: string, x: Field)
    requires s.runs != [] && FeatureOk(s.hashes, s.runs, route, x)
    ensures var n := |s.runs| - 1; FeatureOk(s.hashes, s.runs[..n] + [s.runs[n].(completed := true)], route, x)
  {
    var n := |s.runs| - 1;
    var done := s.runs[n].(completed := true);
    GiverOfLast(s.runs, done, route, x);
    GiverOfLast(s.runs, s.runs[n], route, x);
    assert s.runs[..n] + [s.runs[n]] == s.runs;
    assert Given(done, route, x) == Given(s.runs[n], route, x);
  }

  lemma StepKeepsFeatures(registry: seq<Feature>, s: State, step: Step)
    requires Suitable(registry) && FeaturesOk(registry, s) && Enabled(s, step)
    ensures FeaturesOk(registry, Do(registry, s, step))
  {
    var t := Do(registry, s, step);
    forall route, x | x in BatchNames(registry) ensures FeatureOk(t.hashes, t.runs, route, x) {
      assert FeatureOk(s.hashes, s.runs, route, x);
      match step
      case Start(rows, stamp) => StartKeepsFeature(s, Run(stamp, rows, 0, false), route, x);
      case WriteNext =>
        NotFreshness(registry, x);
        WriteKeepsFeature(registry, s.hashes, s.runs, route, x);
      case Complete => CompleteKeepsFeature(s, route, x);
      case StreamWrite(_, _) => StreamKeepsFeature(registry, s, step, route, x);
    }
  }

  /** In every reachable state a batch feature holds the last value any run gave it. */
  lemma {:induction false} FeaturesHold(registry: seq<Feature>, steps: seq<Step>)
    requires Suitable(registry) && After(registry, steps).Some?
    ensures FeaturesOk(registry, After(registry, steps).value)
  {
    if steps != [] {
      var init := steps[..|steps| - 1];
      FeaturesHold(registry, init);
      StepKeepsFeatures(registry, After(registry, init).value, steps[|steps| - 1]);
    }
  }

  // ---------------------------------------------------------------- what equality with the sentinel tells

  /** Every batch feature the hash holds is one this run gave, with the run's value. */
  ghost predicate AllFrom(registry: seq<Feature>, h: Hash, run: Run, route: string) {
    forall x | x in BatchNames(registry) && x in h ::
      Given(run, route, x).Some? && h[x] == Num(Given(run, route, x).value)
  }

  /** Every batch feature that an earlier run ever gave the route, run `i` gave as well. */
  ghost predicate NothingDropped(registry: seq<Feature>, runs: seq<Run>, i: nat, route: string)
    requires i < |runs|
  {
    forall j, x | 0 <= j < i && x in BatchNames(registry) && Given(runs[j], route, x).Some? ::
        Given(runs[i], route, x).Some?
  }

  /** For a route as fresh as the sentinel: all its batch features come from the run the sentinel names if and
      only if no feature that an earlier run gave the route is null in the named run. */
  lemma SentinelVouchesForAllIff(registry: seq<Feature>, steps: seq<Step>, s: State, i: nat, route: string)
    requires Suitable(registry) && After(registry, steps) == Some(s) && IsLastCompleted(s.runs, i)
    requires StampAt(s.hashes, route) == Some(s.runs[i].stamp)
    ensures AllFrom(registry, HashOf(s.hashes, route), s.runs[i], route) <==> NothingDropped(registry, s.runs, i, route)
  {
    EqualToSentinelIff(registry, steps, s, i, route);
    FeaturesHold(registry, steps);
    forall j, x | i < j < |s.runs| ensures Given(s.runs[j], route, x).None? {
      NotWrittenNotGiven(s.runs[j], route, x);
    }
    VouchedIff(registry, s, i, route);
  }

  lemma NotWrittenNotGiven(run: Run, route: string, x: Field)
    requires !Wrote(run, route)
    ensures Given(run, route, x).None?
  {
    if run.written <= |run.rows| {
      NoRowNoValue(run.rows[..run.written], route, x);
    }
  }

  lemma {:induction false} NoRowNoValue(rows: seq<RouteRow>, route: string, x: Field)
    requires LastRow(rows, route).None?
    ensures LastValue(rows, route, x).None?
  {
    if rows != [] {
      NoRowNoValue(rows[..|rows| - 1], route, x);
    }
  }

  lemma VouchedIff(registry: seq<Feature>, s: State, i: nat, route: string)
    requires FeaturesOk(registry, s) && i < |s.runs|
    requires forall j, x | i < j < |s.runs| :: Given(s.runs[j], route, x).None?
    ensures AllFrom(registry, HashOf(s.hashes, route), s.runs[i], route) <==> NothingDropped(registry, s.runs, i, route)
  {
    var h := HashOf(s.hashes, route);
    forall x | x in BatchNames(registry) ensures FeatureOk(s.hashes, s.runs, route, x) {}
    if NothingDropped(registry, s.runs, i, route) {
      forall x | x in BatchNames(registry) && x in h
        ensures Given(s.runs[i], route, x).Some? && h[x] == Num(Given(s.runs[i], route, x).value)
      {
        var g := Giver(s.runs, route, x);
        assert g.Some? && g.value.0 <= i;
      }
    }
    if AllFrom(registry, h, s.runs[i], route) {
      forall j, x | 0 <= j < i && x in BatchNames(registry) && Given(s.runs[j], route, x).Some?
        ensures Given(s.runs[i], route, x).Some?
      {
        assert Giver(s.runs, route, x).Some?;
      }
    }
  }

  /** A route with one row in the run has its features given exactly as they are present in that row. */
  lemma {:induction false} OneRowGives(rows: seq<RouteRow>, k: nat, x: Field)
    requires k < |rows| && forall m | 0 <= m < |rows| && m != k :: rows[m].route != rows[k].route
    ensures LastValue(rows, rows[k].route, x) == if Present(rows[k].values, x) then rows[k].values[x] else None
    decreases |rows|
  {
    var n := |rows| - 1;
    if k < n {
      OneRowGives(rows[..n], k, x);
    } else {
      NoRowsOfRoute(rows[..n], rows[k].route, x);
    }
  }

  lemma {:induction false} NoRowsOfRoute(rows: seq<RouteRow>, route: string, x: Field)
    requires forall m | 0 <= m < |rows| :: rows[m].route != route
    ensures LastValue(rows, route, x) == None
  {
    if rows != [] {
      NoRowsOfRoute(rows[..|rows| - 1], route, x);
    }
  }

  // ---------------------------------------------------------------- a stale feature under a fresh sentinel

  lemma AfterOne(registry: seq<Feature>, steps: seq<Step>, s: State, step: Step)
    requires After(registry, steps) == Some(s) && Enabled(s, step)
    ensures After(registry, steps + [step]) == Some(Do(registry, s, step))
  {
    assert (steps + [step])[..|steps|] == steps;
  }

  /** A whole run over one row. */
  lemma OneRowRun(registry: seq<Feature>, steps: seq<Step>, s: State, row: RouteRow, stamp: int)
      returns (all: seq<Step>, t: State)
    requires After(registry, steps) == Some(s) && Enabled(s, Start([row], stamp))
    ensures After(registry, all) == Some(t) && all == steps + [Start([row], stamp)] + [WriteNext] + [Complete]
    ensures t == State(RowWritten(s.hashes, registry, row, stamp), Some(stamp), s.runs + [Run(stamp, [row], 1, true)])
  {
    AfterOne(registry, steps, s, Start([row], stamp));
    var s1 := State(s.hashes, s.sentinel, s.runs + [Run(stamp, [row], 0, false)]);
    AfterOne(registry, steps + [Start([row], stamp)], s1, WriteNext);
    var s2 := Do(registry, s1, WriteNext);
    assert s1.runs[..|s.runs|] == s.runs;
    assert s2 == State(RowWritten(s.hashes, registry, row, stamp), s.sentinel, s.runs + [Run(stamp, [row], 1, false)]);
    AfterOne(registry, steps + [Start([row], stamp)] + [WriteNext], s2, Complete);
    assert s2.runs[..|s.runs|] == s.runs;
    all, t := steps + [Start([row], stamp)] + [WriteNext] + [Complete], Do(registry, s2, Complete);
  }

  const FIRST_STAMP := 1
  const SECOND_STAMP := 2

  lemma TwoNightsHash(registry: seq<Feature>, a: RouteRow, b: RouteRow, x: Field)
    requires x in BatchNames(registry) && x != BatchComputedAt
    requires a.route == b.route && Present(a.values, x) && !Present(b.values, x)
    ensures var hashes := RowWritten(RowWritten(map[], registry, a, FIRST_STAMP), registry, b, SECOND_STAMP);
            && x in HashOf(hashes, a.route) && HashOf(hashes, a.route)[x] == Num(a.values[x].value)
            && StampAt(hashes, a.route) == Some(SECOND_STAMP)
  {
    var once := RowWritten(map[], registry, a, FIRST_STAMP);
    WrittenField(registry, map[], a, FIRST_STAMP, a.route, x);
    WrittenField(registry, once, b, SECOND_STAMP, a.route, x);
    assert BatchComputedAt in BatchMapping(registry, b.values, SECOND_STAMP);
  }

  lemma TwoNights(registry: seq<Feature>, a: RouteRow, b: RouteRow) returns (steps: seq<Step>, s: State)
    ensures After(registry, steps) == Some(s)
    ensures s == State(RowWritten(RowWritten(map[], registry, a, FIRST_STAMP), registry, b, SECOND_STAMP),
                       Some(SECOND_STAMP), [Run(FIRST_STAMP, [a], 1, true), Run(SECOND_STAMP, [b], 1, true)])
  {
    var first, s1 := OneRowRun(registry, [], EMPTY, a, FIRST_STAMP);
    steps, s := OneRowRun(registry, first, s1, b, SECOND_STAMP);
  }

  lemma NotAllFrom(registry: seq<Feature>, h: Hash, run: Run, route: string, x: Field)
    requires x in BatchNames(registry) && x in h && Given(run, route, x).None?
    ensures !AllFrom(registry, h, run, route)
  {
  }

  /** The stale case is reachable, for every batch feature: two nights, the feature null on the second.  The
      route's stamp equals the sentinel, and the feature is the first night's. */
  lemma SentinelOverAStaleFeature(registry: seq<Feature>, x: Field) returns (steps: seq<Step>, s: State)
    requires Suitable(registry) && x in BatchNames(registry)
    ensures After(registry, steps) == Some(s) && IsLastCompleted(s.runs, 1)
    ensures s.sentinel == Some(SECOND_STAMP) && StampAt(s.hashes, "london") == s.sentinel
    ensures x in HashOf(s.hashes, "london") && HashOf(s.hashes, "london")[x] == Num(1.0)
    ensures !AllFrom(registry, HashOf(s.hashes, "london"), s.runs[1], "london")
  {
    var route := "london";
    var a, b := RouteRow(route, map[x := Some(1.0)]), RouteRow(route, map[]);
    steps, s := TwoNights(registry, a, b);
    assert x != BatchComputedAt by { NotFreshness(registry, x); }
    TwoNightsHash(registry, a, b, x);
    NothingGiven(s.runs[1], b, x);
    NotAllFrom(registry, HashOf(s.hashes, route), s.runs[1], route, x);
  }

  lemma NothingGiven(run: Run, row: RouteRow, x: Field)
    requires run.rows == [row] && run.written == 1 && !Present(row.values, x)
    ensures Given(run, row.route, x).None?
  {
    assert run.rows[..1] == [row] && [row][..0] == [];
    assert LastValue([], row.route, x).None?;
  }
}
