/** Loading, reloading and promoting as the API's handlers do it when nothing interrupts them
    (services/api/app/main.py). */
module ModelServer {
  import opened Options
  import opened ModelRegistry

  /** The two models and the versions reported for them. */
  datatype Models = Models(prodModel: nat, prodInfo: nat, stagingModel: Option<nat>, stagingInfo: Option<nat>)

  /** max(versions in the stage, by version number), or None. */
  method LatestInStage(vs: Versions, stage: Stage) returns (latest: Option<nat>)
    ensures latest == HighestIn(vs, stage)
  {
    latest := None;
    for v := 0 to |vs|
      invariant latest == HighestIn(vs[..v], stage)
    {
      assert vs[..v + 1][..v] == vs[..v];
      if vs[v].stage == stage {
        latest := Some(v);
      }
    }
    assert vs[..|vs|] == vs;
  }

  /** How a call into the registry or a model fetch ends. */
  datatype Attempt = Succeeds | RaisesValueError | RaisesOther

  /** What a load ends in.  No Production version is a RuntimeError. */
  datatype LoadResult = Loaded(models: Models) | ValueErrorRaised | OtherRaised

  /** The ways the outside answers one load: the version search and the two fetches.  A Staging fetch that
      raises anything is tolerated. */
  datatype LoadAnswers = LoadAnswers(search: Attempt, prodFetch: Attempt, stagingFetched: bool)

  method DoLoadModels(vs: Versions, answers: LoadAnswers) returns (r: LoadResult)
    ensures r.Loaded? <==> answers.search.Succeeds? && HighestIn(vs, Production).Some? && answers.prodFetch.Succeeds?
    ensures r.ValueErrorRaised? <==> LoadRaisesValueError(vs, answers)
    ensures r.Loaded? ==>
              Some(r.models.prodModel) == HighestIn(vs, Production) == Some(r.models.prodInfo)
              && r.models.stagingModel == r.models.stagingInfo
              && r.models.stagingInfo == if answers.stagingFetched then HighestIn(vs, Staging) else None
  {
    if answers.search != Succeeds {
      return if answers.search == RaisesValueError then ValueErrorRaised else OtherRaised;
    }
    var pv := LatestInStage(vs, Production);
    if pv.None? {
      return OtherRaised;
    }
    if answers.prodFetch != Succeeds {
      return if answers.prodFetch == RaisesValueError then ValueErrorRaised else OtherRaised;
    }
    var prodModel := HighestIn(vs, Production).value;
    var sv := LatestInStage(vs, Staging);
    var stagingModel, stagingInfo := None, None;
    if sv.Some? && answers.stagingFetched {
      stagingModel, stagingInfo := HighestIn(vs, Staging), sv;
    }
    r := Loaded(Models(prodModel, pv.value, stagingModel, stagingInfo));
  }

  predicate LoadRaisesValueError(vs: Versions, answers: LoadAnswers) {
    answers.search == RaisesValueError
    || (answers.search.Succeeds? && HighestIn(vs, Production).Some? && answers.prodFetch == RaisesValueError)
  }

  datatype Reply = Ok(version: nat) | Conflict | ServerError

  class AppState {
    var prodModel: Option<nat>
    var prodInfo: Option<nat>
    var stagingModel: Option<nat>
    var stagingInfo: Option<nat>

    constructor ()
      ensures prodModel == prodInfo == stagingModel == stagingInfo == None
    {
      prodModel, prodInfo, stagingModel, stagingInfo := None, None, None, None;
    }

    ghost predicate Holds(m: Models)
      reads this
    {
      prodModel == Some(m.prodModel) && prodInfo == Some(m.prodInfo)
      && stagingModel == m.stagingModel && stagingInfo == m.stagingInfo
    }

    ghost predicate Unchanged(p: Option<nat>, pi: Option<nat>, s: Option<nat>, si: Option<nat>)
      reads this
    {
      prodModel == p && prodInfo == pi && stagingModel == s && stagingInfo == si
    }

    method Store(m: Models)
      modifies this
      ensures Holds(m)
    {
      prodModel, prodInfo := Some(m.prodModel), Some(m.prodInfo);
      stagingModel, stagingInfo := m.stagingModel, m.stagingInfo;
    }

    /** Reload: either all four fields come from the new load, or none changes.  Every exception is a 500. */
    method AdminReload(registry: Registry, answers: LoadAnswers) returns (reply: Reply)
      modifies this
      ensures reply.Ok? <==>
              answers.search.Succeeds? && HighestIn(registry.versions, Production).Some? && answers.prodFetch.Succeeds?
      ensures reply.Ok? ==> prodModel == prodInfo == HighestIn(registry.versions, Production) == Some(reply.version)
      ensures reply.Ok? ==>
              stagingModel == stagingInfo
              && stagingInfo == if answers.stagingFetched then HighestIn(registry.versions, Staging) else None
      ensures !reply.Ok? ==>
              reply.ServerError? && Unchanged(old(prodModel), old(prodInfo), old(stagingModel), old(stagingInfo))
    {
      var r := DoLoadModels(registry.versions, answers);
      if !r.Loaded? {
        return ServerError;
      }
      Store(r.models);
      reply := Ok(r.models.prodInfo);
    }

    /** Promote the highest Staging version and load it.  `search` and `transition` say how the two registry
        calls of the promotion itself end; a transition that raises has not happened.  A ValueError anywhere is
        answered 409, also one that the load raises when the version is already in Production: then, as with
        any failed load, the registry is ahead of what is served. */
    method AdminPromote(registry: Registry, search: Attempt, transition: Attempt, answers: LoadAnswers)
        returns (reply: Reply)
      modifies this, registry
      ensures var vs, staged := old(registry.versions), HighestIn(old(registry.versions), Staging);
              var moved := search.Succeeds? && staged.Some? && transition.Succeeds?;
              && registry.versions == (if moved then Promoted(vs, staged.value) else vs)
              && (reply.Conflict? <==>
                    || search == RaisesValueError
                    || (search.Succeeds? && staged.None?)
                    || (search.Succeeds? && staged.Some? && transition == RaisesValueError)
                    || (moved && LoadRaisesValueError(registry.versions, answers)))
              && (reply.Ok? <==> moved && answers.search.Succeeds? && answers.prodFetch.Succeeds?)
              && (reply.Ok? ==> prodModel == prodInfo == Some(reply.version) == staged)
      ensures !reply.Ok? ==> Unchanged(old(prodModel), old(prodInfo), old(stagingModel), old(stagingInfo))
    {
      if search != Succeeds {
        return if search == RaisesValueError then Conflict else ServerError;
      }
      var sv := LatestInStage(registry.versions, Staging);
      if sv.None? {
        return Conflict;
      }
      if transition != Succeeds {
        return if transition == RaisesValueError then Conflict else ServerError;
      }
      PromotedIsHighest(registry.versions, sv.value);
      registry.versions := Promoted(registry.versions, sv.value);
      var r := DoLoadModels(registry.versions, answers);
      match r {
        case ValueErrorRaised => return Conflict;
        case OtherRaised => return ServerError;
        case Loaded(models) =>
          Store(models);
          reply := Ok(sv.value);
      }
    }
  }

  /** So a 409 tells the caller nothing about the registry: with a staged version and a load that raises a
      ValueError, the answer is 409 and the version is in Production. */
  method ConflictAfterTheMove(registry: Registry, state: AppState) returns (reply: Reply)
    requires HighestIn(registry.versions, Staging).Some?
    modifies registry, state
    ensures reply.Conflict?
    ensures HighestIn(registry.versions, Production) == HighestIn(old(registry.versions), Staging)
    ensures state.prodInfo == old(state.prodInfo) && state.prodModel == old(state.prodModel)
  {
    PromotedIsHighest(registry.versions, HighestIn(registry.versions, Staging).value);
    reply := state.AdminPromote(registry, Succeeds, Succeeds, LoadAnswers(Succeeds, RaisesValueError, true));
  }

  /** After a promotion the promoted version is the only one in Production. */
  lemma PromotedIsHighest(vs: Versions, v: nat)
    requires v < |vs|
    ensures HighestIn(Promoted(vs, v), Production) == Some(v)
    ensures forall i | 0 <= i < |vs| :: Promoted(vs, v)[i].stage == Production <==> i == v
  {
    var h := HighestIn(Promoted(vs, v), Production);
    assert Promoted(vs, v)[v].stage == Production;
  }
}
