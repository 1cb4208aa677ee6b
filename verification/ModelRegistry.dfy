/** The model registry and the gates a new version passes on its way to Staging
    (services/trainer/app/promote.py, services/worker/app/auto_retrain.py).

    A trained model is a version number with its error on the trainer's holdout; the registry numbers its
    versions from 0 here. */
module ModelRegistry {
  import opened Options

  datatype Stage = NoStage | Staging | Production | Archived

  /** `rejected` is the rejection_reason tag; `prodMae` the prod_val_mae tag; `mae` the version's own error
      on the holdout it was compared on. */
  datatype Version = Version(stage: Stage, rejected: bool, mae: real, prodMae: Option<real>)

  type Versions = seq<Version>

  /** The highest version in a stage: what get_latest_versions and a stage URI yield. */
  function HighestIn(vs: Versions, stage: Stage): (v: Option<nat>)
    ensures v.Some? ==> v.value < |vs| && vs[v.value].stage == stage
    ensures v.Some? ==> forall i | v.value < i < |vs| :: vs[i].stage != stage
    ensures v.None? ==> forall i | 0 <= i < |vs| :: vs[i].stage != stage
  {
    if vs == [] then None
    else if vs[|vs| - 1].stage == stage then Some(|vs| - 1)
    else HighestIn(vs[..|vs| - 1], stage)
  }

  function WithStage(vs: Versions, v: nat, stage: Stage): Versions
    requires v < |vs|
  {
    vs[v := vs[v].(stage := stage)]
  }

  /** A transition to Production that archives the versions already there. */
  function Promoted(vs: Versions, v: nat): (r: Versions)
    requires v < |vs|
    ensures |r| == |vs| && r[v] == vs[v].(stage := Production)
    ensures forall i | 0 <= i < |vs| && i != v ::
              r[i] == if vs[i].stage == Production then vs[i].(stage := Archived) else vs[i]
  {
    seq(|vs|, i requires 0 <= i < |vs| =>
      if i == v then vs[v].(stage := Production)
      else if vs[i].stage == Production then vs[i].(stage := Archived)
      else vs[i])
  }

  // ---------------------------------------------------------------- the gates

  /** Why a version went where it went. */
  datatype Verdict =
    | DriftRejected
    | NoProductionModel
    | EvaluationFailed
    | BeatsProduction(prodMae: real)
    | NotBetter(prodMae: real)

  predicate Stages(v: Verdict) {
    v.NoProductionModel? || v.EvaluationFailed? || v.BeatsProduction?
  }

  function Judged(mae: real, verdict: Verdict): Version {
    Version(if Stages(verdict) then Staging else NoStage, !Stages(verdict), mae,
            if verdict.BeatsProduction? || verdict.NotBetter? then Some(verdict.prodMae) else None)
  }

  /** The verdict a version deserves.  `queryOk` is false when the registry query raised; `prodMae` is the
      Production model's error on the same holdout, None when it cannot be evaluated. */
  predicate Deserves(vs: Versions, driftPassed: bool, queryOk: bool, mae: real, prodMae: Option<real>,
                     verdict: Verdict) {
    && (verdict.DriftRejected? <==> !driftPassed)
    && (verdict.NoProductionModel? <==> driftPassed && (!queryOk || HighestIn(vs, Production).None?))
    && (verdict.EvaluationFailed? <==> driftPassed && queryOk && HighestIn(vs, Production).Some? && prodMae.None?)
    && (verdict.BeatsProduction? ==> prodMae == Some(verdict.prodMae) && mae < verdict.prodMae)
    && (verdict.NotBetter? ==> prodMae == Some(verdict.prodMae) && verdict.prodMae <= mae)
  }

  class Registry {
    var versions: Versions

    constructor ()
      ensures versions == []
    {
      versions := [];
    }

    method Register(mae: real) returns (v: nat)
      modifies this
      ensures v == |old(versions)| && versions == old(versions) + [Version(NoStage, false, mae, None)]
    {
      v := |versions|;
      versions := versions + [Version(NoStage, false, mae, None)];
    }

    /** The holdout comparison both trainers make. */
    method MaybePromote(v: nat, queryOk: bool, prodMae: Option<real>) returns (verdict: Verdict)
      requires v < |versions| && versions[v] == Version(NoStage, false, versions[v].mae, None)
      modifies this
      ensures Deserves(old(versions), true, queryOk, old(versions)[v].mae, prodMae, verdict)
      ensures versions == old(versions)[v := Judged(old(versions)[v].mae, verdict)]
    {
      var prod := if queryOk then HighestIn(versions, Production) else None;
      if prod.None? {
        versions := WithStage(versions, v, Staging);
        return NoProductionModel;
      }
      if prodMae.None? {
        versions := WithStage(versions, v, Staging);
        return EvaluationFailed;
      }
      versions := versions[v := versions[v].(prodMae := prodMae)];
      if versions[v].mae < prodMae.value {
        versions := WithStage(versions, v, Staging);
        verdict := BeatsProduction(prodMae.value);
      } else {
        versions := versions[v := versions[v].(rejected := true)];
        verdict := NotBetter(prodMae.value);
      }
    }

    /** The trainer's form: a drift gate comes first. */
    method RegisterAndMaybePromote(mae: real, driftPassed: bool, queryOk: bool, prodMae: Option<real>)
        returns (verdict: Verdict)
      modifies this
      ensures Deserves(old(versions), driftPassed, queryOk, mae, prodMae, verdict)
      ensures versions == old(versions) + [Judged(mae, verdict)]
    {
      var v := Register(mae);
      if !driftPassed {
        versions := versions[v := versions[v].(rejected := true)];
        return DriftRejected;
      }
      RegisteringKeepsHighest(old(versions), mae);
      verdict := MaybePromote(v, queryOk, prodMae);
    }
  }

  lemma RegisteringKeepsHighest(vs: Versions, mae: real)
    ensures HighestIn(vs + [Version(NoStage, false, mae, None)], Production) == HighestIn(vs, Production)
  {
    assert (vs + [Version(NoStage, false, mae, None)])[..|vs|] == vs;
  }
}
