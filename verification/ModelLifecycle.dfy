/** Trainers, promotions and the API's hot swap, interleaved between any two registry accesses
    (services/trainer/app/promote.py, services/worker/app/auto_retrain.py, services/api/app/main.py). */
module ModelLifecycle {
  import opened Options
  import opened ModelRegistry

  // ---------------------------------------------------------------- training jobs

  /** Where a training job stands with its freshly registered version. */
  datatype JobPhase =
    | Gating                        // the trainer's drift gate is next
    | Querying                      // asking for the Production versions
    | Evaluating                    // loading and scoring the Production model
    | Tagging(prodMae: real)        // comparison done, tags not written
    | StagingNext | RejectingNext
    | Finished

  datatype Job = Job(version: nat, phase: JobPhase)

  /** `history` lists the versions in the order they were promoted. */
  datatype Registered = Registered(versions: Versions, jobs: seq<Job>, history: seq<nat>)

  const FRESH := Registered([], [], [])

  function NewJob(r: Registered, gated: bool, mae: real): Registered {
    Registered(r.versions + [Version(NoStage, false, mae, None)],
               r.jobs + [Job(|r.versions|, if gated then Gating else Querying)], r.history)
  }

  predicate JobEnabled(r: Registered, i: nat) {
    i < |r.jobs| && !r.jobs[i].phase.Finished? && r.jobs[i].version < |r.versions|
  }

  /** A job's next registry access.  `ok` is the drift gate's answer, or whether the query or the evaluation
      succeeded; `mae` is the error measured for whatever the Production URI yields at that moment. */
  function JobStep(r: Registered, i: nat, ok: bool, mae: real): Registered
    requires JobEnabled(r, i)
  {
    var v := r.jobs[i].version;
    match r.jobs[i].phase
    case Gating => At(r, i, if ok then Querying else RejectingNext)
    case Querying => At(r, i, if ok && HighestIn(r.versions, Production).Some? then Evaluating else StagingNext)
    case Evaluating => At(r, i, if ok && HighestIn(r.versions, Production).Some? then Tagging(mae) else StagingNext)
    case Tagging(prodMae) =>
      At(r, i, if r.versions[v].mae < prodMae then StagingNext else RejectingNext)
        .(versions := r.versions[v := r.versions[v].(prodMae := Some(prodMae))])
    case StagingNext => At(r, i, Finished).(versions := WithStage(r.versions, v, Staging))
    case RejectingNext => At(r, i, Finished).(versions := r.versions[v := r.versions[v].(rejected := true)])
    case Finished => r
  }

  function At(r: Registered, i: nat, phase: JobPhase): Registered
    requires i < |r.jobs|
  {
    r.(jobs := r.jobs[i := r.jobs[i].(phase := phase)])
  }

  function Promote(r: Registered, v: nat): Registered
    requires v < |r.versions|
  {
    Registered(Promoted(r.versions, v), r.jobs, r.history + [v])
  }

  // ---------------------------------------------------------------- the registry invariant

  /** What the tags of a version say about its stage. */
  ghost predicate VersionOk(v: Version) {
    && (v.rejected ==> v.stage == NoStage)
    && (v.stage != NoStage && v.prodMae.Some? ==> v.mae < v.prodMae.value)
    && (v.rejected && v.prodMae.Some? ==> v.prodMae.value <= v.mae)
  }

  ghost predicate JobOk(vs: Versions, j: Job) {
    && j.version < |vs|
    && (!j.phase.Finished? ==> vs[j.version].stage == NoStage && !vs[j.version].rejected)
    && (j.phase.StagingNext? && vs[j.version].prodMae.Some? ==> vs[j.version].mae < vs[j.version].prodMae.value)
    && (j.phase.RejectingNext? && vs[j.version].prodMae.Some? ==> vs[j.version].prodMae.value <= vs[j.version].mae)
    && (j.phase.Gating? || j.phase.Querying? || j.phase.Evaluating? || j.phase.Tagging? ==> vs[j.version].prodMae.None?)
  }

  /** The last promoted version is in Production, the ones before it are archived, nothing else is either. */
  ghost predicate HistoryOk(r: Registered) {
    && (forall k | 0 <= k < |r.history| :: r.history[k] < |r.versions|)
    && (forall k, l | 0 <= k < l < |r.history| :: r.history[k] != r.history[l])
    && (forall v | 0 <= v < |r.versions| ::
          (r.versions[v].stage == Production <==> r.history != [] && v == r.history[|r.history| - 1])
          && (r.versions[v].stage == Archived ==> v in r.history)
          && (v in r.history ==> r.versions[v].stage == Production || r.versions[v].stage == Archived))
  }

  ghost predicate JobsOk(r: Registered) {
    && (forall i | 0 <= i < |r.jobs| :: JobOk(r.versions, r.jobs[i]))
    && (forall i, j | 0 <= i < j < |r.jobs| :: r.jobs[i].version != r.jobs[j].version)
  }

  ghost predicate RegistryInv(r: Registered) {
    && (forall v | 0 <= v < |r.versions| :: VersionOk(r.versions[v]))
    && JobsOk(r) && HistoryOk(r)
  }

  lemma NewJobKeeps(r: Registered, gated: bool, mae: real)
    requires RegistryInv(r)
    ensures RegistryInv(NewJob(r, gated, mae))
  {
    var t := NewJob(r, gated, mae);
    forall i | 0 <= i < |t.jobs| ensures JobOk(t.versions, t.jobs[i]) {
      if i < |r.jobs| { assert JobOk(r.versions, r.jobs[i]); }
    }
  }

  /** A job touches its own version only, and never one that was promoted. */
  lemma JobStepIsLocal(r: Registered, i: nat, ok: bool, mae: real)
    requires RegistryInv(r) && JobEnabled(r, i)
    ensures var t := JobStep(r, i, ok, mae);
            && |t.versions| == |r.versions| && t.history == r.history && |t.jobs| == |r.jobs|
            && (forall v | 0 <= v < |r.versions| && v != r.jobs[i].version :: t.versions[v] == r.versions[v])
            && (forall j | 0 <= j < |r.jobs| && j != i :: t.jobs[j] == r.jobs[j])
            && r.jobs[i].version !in r.history
            && t.jobs[i].version == r.jobs[i].version
            && (t.versions[r.jobs[i].version].stage == NoStage || t.versions[r.jobs[i].version].stage == Staging)
            && JobOk(t.versions, t.jobs[i]) && VersionOk(t.versions[r.jobs[i].version])
  {
    assert JobOk(r.versions, r.jobs[i]);
    assert VersionOk(r.versions[r.jobs[i].version]);
  }

  lemma JobStepKeeps(r: Registered, i: nat, ok: bool, mae: real)
    requires RegistryInv(r) && JobEnabled(r, i)
    ensures RegistryInv(JobStep(r, i, ok, mae))
  {
    JobStepIsLocal(r, i, ok, mae);
    var t := JobStep(r, i, ok, mae);
    forall j | 0 <= j < |t.jobs| ensures JobOk(t.versions, t.jobs[j]) {
      if j != i {
        assert JobOk(r.versions, r.jobs[j]);
        assert r.jobs[j].version != r.jobs[i].version;
      }
    }
    forall v | 0 <= v < |t.versions| ensures VersionOk(t.versions[v]) {
      if v != r.jobs[i].version { assert VersionOk(r.versions[v]); }
    }
    LocalChangeKeepsHistory(r, t, r.jobs[i].version);
  }

  lemma LocalChangeKeepsHistory(r: Registered, t: Registered, v: nat)
    requires HistoryOk(r) && v < |r.versions| && v !in r.history
    requires |t.versions| == |r.versions| && t.history == r.history
    requires forall w | 0 <= w < |r.versions| && w != v :: t.versions[w] == r.versions[w]
    requires t.versions[v].stage == NoStage || t.versions[v].stage == Staging
    ensures HistoryOk(t)
  {
  }

  lemma PromoteKeepsHistory(r: Registered, v: nat)
    requires HistoryOk(r) && v < |r.versions| && r.versions[v].stage == Staging
    ensures HistoryOk(Promote(r, v))
  {
    var t, n := Promote(r, v), |r.history|;
    assert v !in r.history;
    forall w | 0 <= w < |t.versions|
      ensures (t.versions[w].stage == Production <==> w == v)
           && (t.versions[w].stage == Archived ==> w in t.history)
           && (w in t.history ==> t.versions[w].stage == Production || t.versions[w].stage == Archived)
    {
    }
  }

  lemma PromoteKeeps(r: Registered, v: nat)
    requires RegistryInv(r) && v < |r.versions| && r.versions[v].stage == Staging
    ensures RegistryInv(Promote(r, v))
  {
    PromoteKeepsHistory(r, v);
    var t := Promote(r, v);
    forall w | 0 <= w < |t.versions| ensures VersionOk(t.versions[w]) {
      assert VersionOk(r.versions[w]);
    }
    forall i | 0 <= i < |t.jobs| ensures JobOk(t.versions, t.jobs[i]) {
      assert JobOk(r.versions, r.jobs[i]);
    }
  }

  lemma ProductionIsLastPromoted(r: Registered)
    requires HistoryOk(r)
    ensures HighestIn(r.versions, Production) == if r.history == [] then None else Some(r.history[|r.history| - 1])
  {
    var h := HighestIn(r.versions, Production);
    if r.history != [] {
      assert r.versions[r.history[|r.history| - 1]].stage == Production;
    }
  }

  /** A training job whose registry query fails stages its version without comparing it. */
  lemma UncomparedStaging(r: Registered)
    requires RegistryInv(r)
    ensures var i, r1 := |r.jobs|, NewJob(r, false, 0.0);
            && JobEnabled(r1, i) && JobEnabled(JobStep(r1, i, false, 0.0), i)
            && var t := JobStep(JobStep(r1, i, false, 0.0), i, true, 0.0);
               RegistryInv(t) && t.history == r.history && HighestIn(t.versions, Staging) == Some(|r.versions|)
  {
    var i, r1 := |r.jobs|, NewJob(r, false, 0.0);
    NewJobKeeps(r, false, 0.0);
    JobStepKeeps(r1, i, false, 0.0);
    var r2 := JobStep(r1, i, false, 0.0);
    JobStepKeeps(r2, i, true, 0.0);
    var t := JobStep(r2, i, true, 0.0);
    assert t.versions[|r.versions|].stage == Staging;
  }

  // ---------------------------------------------------------------- a job nobody interrupts

  /** The job's remaining steps, with the answers they get. */
  function Finish(r: Registered, i: nat, driftPassed: bool, queryOk: bool, prodMae: Option<real>): Registered
    requires i < |r.jobs| && r.jobs[i].version < |r.versions|
    decreases match r.jobs[i].phase {
                case Gating => 5 case Querying => 4 case Evaluating => 3 case Tagging(_) => 2
                case Finished => 0 case _ => 1 }
  {
    var phase := r.jobs[i].phase;
    if phase.Finished? then r
    else
      var ok := if phase.Gating? then driftPassed else if phase.Querying? then queryOk else prodMae.Some?;
      Finish(JobStep(r, i, ok, if prodMae.Some? then prodMae.value else 0.0), i, driftPassed, queryOk, prodMae)
  }

  /** Step by step and undisturbed, a job registers its version and leaves it as the verdict it deserves says:
      what the two trainers' functions do in one call. */
  lemma UndisturbedJob(r: Registered, gated: bool, mae: real, driftPassed: bool, queryOk: bool, prodMae: Option<real>,
                       verdict: Verdict)
    requires Deserves(r.versions, !gated || driftPassed, queryOk, mae, prodMae, verdict)
    ensures Finish(NewJob(r, gated, mae), |r.jobs|, driftPassed, queryOk, prodMae).versions
            == r.versions + [Judged(mae, verdict)]
  {
    var i, r1 := |r.jobs|, NewJob(r, gated, mae);
    RegisteringKeepsHighest(r.versions, mae);
    var r2 := if gated then At(r1, i, if driftPassed then Querying else RejectingNext) else r1;
    assert r2.versions == r1.versions && r2.jobs[i].version == |r.versions|;
    if verdict.DriftRejected? {
      LastStep(r2, i, driftPassed, queryOk, prodMae);
    } else {
      var found := !verdict.NoProductionModel?;
      var r3 := At(r2, i, if found then Evaluating else StagingNext);
      if !found {
        LastStep(r3, i, driftPassed, queryOk, prodMae);
      } else {
        Evaluation(r3, i, driftPassed, queryOk, prodMae);
      }
    }
  }

  lemma LastStep(r: Registered, i: nat, driftPassed: bool, queryOk: bool, prodMae: Option<real>)
    requires i < |r.jobs| && r.jobs[i].version < |r.versions|
    requires r.jobs[i].phase.StagingNext? || r.jobs[i].phase.RejectingNext?
    ensures var v := r.jobs[i].version;
            Finish(r, i, driftPassed, queryOk, prodMae).versions ==
              if r.jobs[i].phase.StagingNext? then WithStage(r.versions, v, Staging)
              else r.versions[v := r.versions[v].(rejected := true)]
  {
  }

  lemma Evaluation(r: Registered, i: nat, driftPassed: bool, queryOk: bool, prodMae: Option<real>)
    requires i < |r.jobs| && r.jobs[i].version < |r.versions| && r.jobs[i].phase.Evaluating?
    requires HighestIn(r.versions, Production).Some?
    ensures var v := r.jobs[i].version;
            Finish(r, i, driftPassed, queryOk, prodMae).versions ==
              if prodMae.None? then WithStage(r.versions, v, Staging)
              else if r.versions[v].mae < prodMae.value then
                r.versions[v := r.versions[v].(prodMae := prodMae, stage := Staging)]
              else r.versions[v := r.versions[v].(prodMae := prodMae, rejected := true)]
  {
    var v := r.jobs[i].version;
    if prodMae.None? {
      LastStep(At(r, i, StagingNext), i, driftPassed, queryOk, prodMae);
    } else {
      var r1 := At(r, i, Tagging(prodMae.value));
      var r2 := JobStep(r1, i, true, prodMae.value);
      LastStep(r2, i, driftPassed, queryOk, prodMae);
    }
  }
}
