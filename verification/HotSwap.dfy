/** The serving API's model fields: loads, promotions and reloads under one lock, the startup retry outside
    it, and predictions that span an await (services/api/app/main.py).

    One API process runs beside any number of training jobs; everything interleaves between any two registry
    accesses, which run in a thread while the event loop serves other requests. */
module HotSwap {
  import opened Options
  import opened ModelRegistry
  import opened ModelLifecycle

  /** What one load returns.  `asOf` and `loadedAt` say how many promotions there had been when the version
      list was searched and when the Production model was fetched. */
  datatype Loaded = Loaded(prodModel: nat, prodInfo: nat, stagingModel: Option<nat>, stagingInfo: Option<nat>,
                           asOf: nat, loadedAt: nat)

  datatype Kind = Promoting | Reloading | Retrying

  datatype CallPhase =
    | Queued
    | Picking
    | Transiting(v: nat)
    | Searching
    | LoadingProd(pv: nat, sv: Option<nat>, asOf: nat)
    | LoadingStaging(pv: nat, found: nat, model: nat, asOf: nat, loadedAt: nat)
    | Ready(load: Loaded)
    | Closed(ok: bool)

  datatype Call = Call(kind: Kind, phase: CallPhase, promoted: Option<nat>)

  /** A prediction: the model it used, and the label it reported once the model had answered.  `begun` and
      `ended` say how many swaps there had been. */
  datatype Prediction = Prediction(model: nat, begun: nat, reported: Option<nat>, ended: nat)

  datatype Served = Served(prodModel: Option<nat>, prodInfo: Option<nat>, stagingModel: Option<nat>,
                           stagingInfo: Option<nat>)

  const NOTHING := Served(None, None, None, None)

  datatype State = State(reg: Registered, calls: seq<Call>, lock: Option<nat>, served: Served, swaps: seq<Loaded>,
                         predictions: seq<Prediction>)

  const BOOT := State(FRESH, [], None, NOTHING, [], [])

  datatype Event =
    | NewTraining(gated: bool, mae: real)
    | TrainingStep(job: nat, trainOk: bool, prodMae: real)
    | NewCall(kind: Kind)
    | CallStep(call: nat, ok: bool)
    | Predict
    | Answer(prediction: nat)

  /** Promote and reload wait for the lock first; the retry loop takes it only to store the result. */
  predicate NeedsLock(c: Call) {
    c.phase.Queued? || (c.kind.Retrying? && c.phase.Ready?)
  }

  predicate Enabled(s: State, e: Event) {
    match e
    case NewTraining(_, _) => true
    case TrainingStep(i, _, _) => JobEnabled(s.reg, i)
    case NewCall(_) => true
    case CallStep(i, _) =>
      i < |s.calls| && !s.calls[i].phase.Closed? && (NeedsLock(s.calls[i]) ==> s.lock.None?)
      && (s.calls[i].phase.Transiting? ==> s.calls[i].phase.v < |s.reg.versions|)
    case Predict => s.served.prodModel.Some?
    case Answer(i) => i < |s.predictions| && s.predictions[i].ended == 0
  }

  function To(s: State, i: nat, phase: CallPhase): State
    requires i < |s.calls|
  {
    s.(calls := s.calls[i := s.calls[i].(phase := phase)])
  }

  /** A request fails: the lock is released if it was held, nothing is stored. */
  function Fail(s: State, i: nat): State
    requires i < |s.calls|
  {
    To(s, i, Closed(false)).(lock := if s.calls[i].kind.Retrying? then s.lock else None)
  }

  function FieldsOf(l: Loaded): Served {
    Served(Some(l.prodModel), Some(l.prodInfo), l.stagingModel, l.stagingInfo)
  }

  function Swap(s: State, i: nat, l: Loaded): State
    requires i < |s.calls|
  {
    To(s, i, Closed(true)).(lock := if s.calls[i].kind.Retrying? then s.lock else None,
                            served := FieldsOf(l), swaps := s.swaps + [l])
  }

  function CallDo(s: State, i: nat, ok: bool): State
    requires Enabled(s, CallStep(i, ok))
  {
    var prod, staged := HighestIn(s.reg.versions, Production), HighestIn(s.reg.versions, Staging);
    match s.calls[i].phase
    case Queued => To(s, i, if s.calls[i].kind.Promoting? then Picking else Searching).(lock := Some(i))
    case Picking => if ok && staged.Some? then To(s, i, Transiting(staged.value)) else Fail(s, i)
    case Transiting(v) =>
      if ok then
        s.(reg := Promote(s.reg, v), calls := s.calls[i := s.calls[i].(phase := Searching, promoted := Some(v))])
      else Fail(s, i)
    case Searching =>
      if ok && prod.Some? then To(s, i, LoadingProd(prod.value, staged, |s.reg.history|)) else Fail(s, i)
    case LoadingProd(pv, sv, asOf) =>
      if !ok || prod.None? then Fail(s, i)
      else if sv.Some? then To(s, i, LoadingStaging(pv, sv.value, prod.value, asOf, |s.reg.history|))
      else To(s, i, Ready(Loaded(prod.value, pv, None, None, asOf, |s.reg.history|)))
    case LoadingStaging(pv, sv, model, asOf, loadedAt) =>
      if ok && staged.Some? then To(s, i, Ready(Loaded(model, pv, staged, Some(sv), asOf, loadedAt)))
      else To(s, i, Ready(Loaded(model, pv, None, None, asOf, loadedAt)))
    case Ready(l) => Swap(s, i, l)
    case Closed(_) => s
  }

  function Do(s: State, e: Event): State
    requires Enabled(s, e)
  {
    match e
    case NewTraining(gated, mae) => s.(reg := NewJob(s.reg, gated, mae))
    case TrainingStep(i, ok, mae) => s.(reg := JobStep(s.reg, i, ok, mae))
    case NewCall(kind) => s.(calls := s.calls + [Call(kind, if kind.Retrying? then Searching else Queued, None)])
    case CallStep(i, ok) => CallDo(s, i, ok)
    case Predict => s.(predictions := s.predictions + [Prediction(s.served.prodModel.value, |s.swaps|, None, 0)])
    case Answer(i) =>
      var p := s.predictions[i].(reported := s.served.prodInfo, ended := |s.swaps|);
      s.(predictions := s.predictions[i := p])
  }

  function After(events: seq<Event>): Option<State> {
    if events == [] then Some(BOOT)
    else
      var before := After(events[..|events| - 1]);
      if before.Some? && Enabled(before.value, events[|events| - 1])
      then Some(Do(before.value, events[|events| - 1]))
      else None
  }

  // ---------------------------------------------------------------- the invariant

  predicate Holds(c: Call) {
    !c.kind.Retrying? && !c.phase.Queued? && !c.phase.Closed?
  }

  ghost predicate LockOk(s: State) {
    && (s.lock.Some? ==> s.lock.value < |s.calls| && Holds(s.calls[s.lock.value]))
    && (forall k | 0 <= k < |s.calls| && Holds(s.calls[k]) :: s.lock == Some(k))
  }

  /** `v` was the Production version after `n` promotions. */
  ghost predicate WasProduction(history: seq<nat>, v: nat, n: nat) {
    1 <= n <= |history| && history[n - 1] == v
  }

  ghost predicate LoadOk(history: seq<nat>, l: Loaded) {
    l.asOf <= l.loadedAt && WasProduction(history, l.prodInfo, l.asOf)
        && WasProduction(history, l.prodModel, l.loadedAt)
  }

  ghost predicate PhaseOk(r: Registered, c: Call) {
    match c.phase
    case Queued => !c.kind.Retrying?
    case Picking => c.kind.Promoting?
    case Transiting(v) => c.kind.Promoting? && v < |r.versions| && r.versions[v].stage == Staging
    case Searching => true
    case LoadingProd(pv, sv, asOf) =>
      WasProduction(r.history, pv, asOf) && (Holds(c) ==> asOf == |r.history|) && StagedOnce(r, sv, Holds(c))
    case LoadingStaging(pv, sv, model, asOf, loadedAt) =>
      LoadOk(r.history, Loaded(model, pv, None, None, asOf, loadedAt)) && (Holds(c) ==> asOf == |r.history|)
      && StagedOnce(r, Some(sv), Holds(c))
    case Ready(l) =>
      LoadOk(r.history, l) && (Holds(c) ==> l.asOf == |r.history|) && StagingOk(r, l)
      && (Holds(c) ==> InStaging(r, l))
    case Closed(_) => true
  }

  /** A version that has been staged; `still` says that it still is. */
  predicate StagedOnce(r: Registered, v: Option<nat>, still: bool) {
    v.Some? ==> v.value < |r.versions|
                && r.versions[v.value].stage != NoStage && (still ==> r.versions[v.value].stage == Staging)
  }

  /** The Staging fields of a load: both there or neither, and both of them versions that were staged. */
  predicate StagingOk(r: Registered, l: Loaded) {
    && (l.stagingModel.Some? <==> l.stagingInfo.Some?)
    && StagedOnce(r, l.stagingModel, false) && StagedOnce(r, l.stagingInfo, false)
  }

  /** Both are still in Staging, and the reported version is not the newer one: a version staged between the
      search and the fetch is loaded under the older one's name. */
  predicate InStaging(r: Registered, l: Loaded) {
    && StagedOnce(r, l.stagingModel, true) && StagedOnce(r, l.stagingInfo, true)
    && (l.stagingModel.Some? && l.stagingInfo.Some? ==> l.stagingInfo.value <= l.stagingModel.value)
  }

  /** A promote that has done its transition still holds the lock, and its version is in Production. */
  ghost predicate PromotedOk(r: Registered, c: Call) {
    c.kind.Promoting? && Holds(c) && !c.phase.Picking? && !c.phase.Transiting? ==>
      r.history != [] && c.promoted == Some(r.history[|r.history| - 1])
  }

  ghost predicate CallOk(r: Registered, c: Call) {
    PhaseOk(r, c) && PromotedOk(r, c)
  }

  ghost predicate SwapsOk(s: State) {
    && (forall k | 0 <= k < |s.swaps| :: LoadOk(s.reg.history, s.swaps[k]) && StagingOk(s.reg, s.swaps[k]))
    && s.served == (if s.swaps == [] then NOTHING else FieldsOf(s.swaps[|s.swaps| - 1]))
  }

  ghost predicate PredictionOk(swaps: seq<Loaded>, p: Prediction) {
    && 1 <= p.begun <= |swaps| && p.model == swaps[p.begun - 1].prodModel
    && (p.ended != 0 ==> p.begun <= p.ended <= |swaps| && p.reported == Some(swaps[p.ended - 1].prodInfo))
  }

  ghost predicate Inv(s: State) {
    && RegistryInv(s.reg) && LockOk(s) && SwapsOk(s)
    && (forall k | 0 <= k < |s.calls| :: CallOk(s.reg, s.calls[k]))
    && (forall k | 0 <= k < |s.predictions| :: PredictionOk(s.swaps, s.predictions[k]))
  }

  /** The registry has gone on without a promotion: what was staged is where it was. */
  ghost predicate GoesOn(r: Registered, t: Registered) {
    && t.history == r.history && |r.versions| <= |t.versions|
    && forall v | 0 <= v < |r.versions| && r.versions[v].stage != NoStage :: t.versions[v].stage == r.versions[v].stage
  }

  lemma CallGoesOn(r: Registered, t: Registered, c: Call)
    requires GoesOn(r, t) && CallOk(r, c)
    ensures CallOk(t, c)
  {
  }

  lemma SwapsGoOn(s: State, t: Registered)
    requires SwapsOk(s) && GoesOn(s.reg, t)
    ensures SwapsOk(s.(reg := t))
  {
  }

  lemma TrainingGoesOn(s: State, e: Event)
    requires RegistryInv(s.reg) && (e.NewTraining? || e.TrainingStep?) && Enabled(s, e)
    ensures GoesOn(s.reg, Do(s, e).reg)
  {
    if e.TrainingStep? {
      JobStepIsLocal(s.reg, e.job, e.trainOk, e.prodMae);
      assert JobOk(s.reg.versions, s.reg.jobs[e.job]);
    }
  }

  lemma TrainingKeeps(s: State, e: Event)
    requires Inv(s) && (e.NewTraining? || e.TrainingStep?) && Enabled(s, e)
    ensures Inv(Do(s, e))
  {
    if e.NewTraining? {
      NewJobKeeps(s.reg, e.gated, e.mae);
    } else {
      JobStepKeeps(s.reg, e.job, e.trainOk, e.prodMae);
    }
    TrainingGoesOn(s, e);
    SwapsGoOn(s, Do(s, e).reg);
    var t := Do(s, e);
    forall k | 0 <= k < |t.calls| ensures CallOk(t.reg, t.calls[k]) {
      CallGoesOn(s.reg, t.reg, s.calls[k]);
    }
  }

  /** A call's own step, other than its transition, touches no other call and not the registry. */
  lemma OwnStepFrame(s: State, i: nat, ok: bool)
    requires Enabled(s, CallStep(i, ok)) && (s.calls[i].phase.Transiting? ==> !ok)
    ensures var t := CallDo(s, i, ok);
            t.reg == s.reg && |t.calls| == |s.calls| && t.predictions == s.predictions
            && forall k | 0 <= k < |s.calls| && k != i :: t.calls[k] == s.calls[k]
  {
  }

  lemma OwnStepOk(s: State, i: nat, ok: bool)
    requires HistoryOk(s.reg) && Enabled(s, CallStep(i, ok)) && (s.calls[i].phase.Transiting? ==> !ok)
    requires CallOk(s.reg, s.calls[i])
    ensures CallOk(s.reg, CallDo(s, i, ok).calls[i])
  {
    OwnPhaseOk(s, i, ok);
    OwnPromotionOk(s, i, ok);
  }

  lemma OwnPhaseOk(s: State, i: nat, ok: bool)
    requires HistoryOk(s.reg) && Enabled(s, CallStep(i, ok)) && (s.calls[i].phase.Transiting? ==> !ok)
    requires PhaseOk(s.reg, s.calls[i])
    ensures PhaseOk(s.reg, CallDo(s, i, ok).calls[i])
  {
    if s.calls[i].phase.Searching? || s.calls[i].phase.LoadingProd? {
      OwnProductionOk(s, i, ok);
    } else if s.calls[i].phase.LoadingStaging? {
      OwnStagingOk(s, i, ok);
    }
  }

  lemma OwnProductionOk(s: State, i: nat, ok: bool)
    requires HistoryOk(s.reg) && Enabled(s, CallStep(i, ok)) && PhaseOk(s.reg, s.calls[i])
    requires s.calls[i].phase.Searching? || s.calls[i].phase.LoadingProd?
    ensures PhaseOk(s.reg, CallDo(s, i, ok).calls[i])
  {
    ProductionIsLastPromoted(s.reg);
  }

  lemma OwnStagingOk(s: State, i: nat, ok: bool)
    requires Enabled(s, CallStep(i, ok)) && PhaseOk(s.reg, s.calls[i]) && s.calls[i].phase.LoadingStaging?
    ensures PhaseOk(s.reg, CallDo(s, i, ok).calls[i])
  {
  }

  lemma OwnPromotionOk(s: State, i: nat, ok: bool)
    requires Enabled(s, CallStep(i, ok)) && (s.calls[i].phase.Transiting? ==> !ok)
    requires PhaseOk(s.reg, s.calls[i]) && PromotedOk(s.reg, s.calls[i])
    ensures PromotedOk(s.reg, CallDo(s, i, ok).calls[i])
  {
  }

  lemma StepKeepsLock(s: State, i: nat, ok: bool)
    requires LockOk(s) && Enabled(s, CallStep(i, ok))
    requires PhaseOk(s.reg, s.calls[i])
    ensures LockOk(CallDo(s, i, ok))
  {
    var t := CallDo(s, i, ok);
    forall k | 0 <= k < |t.calls| && Holds(t.calls[k]) ensures t.lock == Some(k) {
      if k != i { assert t.calls[k] == s.calls[k]; }
    }
  }

  lemma StepKeepsSwaps(s: State, i: nat, ok: bool)
    requires SwapsOk(s) && Enabled(s, CallStep(i, ok)) && PhaseOk(s.reg, s.calls[i])
    requires s.calls[i].phase.Transiting? ==> !ok
    ensures SwapsOk(CallDo(s, i, ok)) && |s.swaps| <= |CallDo(s, i, ok).swaps|
    ensures CallDo(s, i, ok).swaps[..|s.swaps|] == s.swaps
  {
  }

  lemma QuietCallKeeps(s: State, i: nat, ok: bool)
    requires Inv(s) && Enabled(s, CallStep(i, ok)) && (s.calls[i].phase.Transiting? ==> !ok)
    ensures Inv(CallDo(s, i, ok))
  {
    assert CallOk(s.reg, s.calls[i]);
    OwnStepFrame(s, i, ok);
    OwnStepOk(s, i, ok);
    StepKeepsLock(s, i, ok);
    StepKeepsSwaps(s, i, ok);
    var t := CallDo(s, i, ok);
    forall k | 0 <= k < |t.calls| ensures CallOk(t.reg, t.calls[k]) {
      if k != i { assert CallOk(s.reg, s.calls[k]); }
    }
    forall k | 0 <= k < |t.predictions| ensures PredictionOk(t.swaps, t.predictions[k]) {
      assert PredictionOk(s.swaps, s.predictions[k]);
      assert forall n | 0 <= n < |s.swaps| :: t.swaps[n] == t.swaps[..|s.swaps|][n];
    }
  }

  /** A promotion only makes the history longer, so what other calls remember stays true. */
  lemma TransitionKeepsOther(r: Registered, v: nat, c: Call)
    requires v < |r.versions| && CallOk(r, c) && !Holds(c)
    ensures CallOk(Promote(r, v), c)
  {
  }

  lemma TransitionKeepsSwaps(s: State, v: nat)
    requires SwapsOk(s) && v < |s.reg.versions|
    ensures SwapsOk(s.(reg := Promote(s.reg, v)))
  {
    var r, t := s.reg, Promote(s.reg, v);
    assert forall n | 0 <= n < |r.history| :: t.history[n] == r.history[n];
  }

  lemma TransitionKeepsCalls(s: State, i: nat)
    requires LockOk(s) && (forall k | 0 <= k < |s.calls| :: CallOk(s.reg, s.calls[k]))
    requires Enabled(s, CallStep(i, true)) && s.calls[i].phase.Transiting?
    ensures var t := CallDo(s, i, true); forall k | 0 <= k < |t.calls| :: CallOk(t.reg, t.calls[k])
  {
    assert CallOk(s.reg, s.calls[i]);
    var t := CallDo(s, i, true);
    forall k | 0 <= k < |t.calls| ensures CallOk(t.reg, t.calls[k]) {
      if k != i {
        assert CallOk(s.reg, s.calls[k]);
        assert Holds(s.calls[i]) && !Holds(s.calls[k]);
        TransitionKeepsOther(s.reg, s.calls[i].phase.v, s.calls[k]);
      }
    }
  }

  lemma TransitionKeeps(s: State, i: nat)
    requires Inv(s) && Enabled(s, CallStep(i, true)) && s.calls[i].phase.Transiting?
    ensures Inv(CallDo(s, i, true))
  {
    assert CallOk(s.reg, s.calls[i]);
    PromoteKeeps(s.reg, s.calls[i].phase.v);
    StepKeepsLock(s, i, true);
    TransitionKeepsSwaps(s, s.calls[i].phase.v);
    TransitionKeepsCalls(s, i);
  }

  lemma PredictionKeeps(s: State, e: Event)
    requires Inv(s) && (e.Predict? || e.Answer?) && Enabled(s, e)
    ensures Inv(Do(s, e))
  {
    var t := Do(s, e);
    forall k | 0 <= k < |t.predictions| ensures PredictionOk(t.swaps, t.predictions[k]) {
      if k < |s.predictions| { assert PredictionOk(s.swaps, s.predictions[k]); }
    }
  }

  lemma NewCallKeeps(s: State, e: Event)
    requires Inv(s) && e.NewCall?
    ensures Inv(Do(s, e))
  {
    var t := Do(s, e);
    forall k | 0 <= k < |t.calls| ensures CallOk(t.reg, t.calls[k]) {
      if k < |s.calls| { assert CallOk(s.reg, s.calls[k]); }
    }
  }

  lemma InvStep(s: State, e: Event)
    requires Inv(s) && Enabled(s, e)
    ensures Inv(Do(s, e))
  {
    if e.NewTraining? || e.TrainingStep? { TrainingKeeps(s, e); }
    else if e.Predict? || e.Answer? { PredictionKeeps(s, e); }
    else if e.NewCall? { NewCallKeeps(s, e); }
    else if s.calls[e.call].phase.Transiting? && e.ok { TransitionKeeps(s, e.call); }
    else { QuietCallKeeps(s, e.call, e.ok); }
  }

  lemma {:induction false} InvHolds(events: seq<Event>)
    requires After(events).Some?
    ensures Inv(After(events).value)
  {
    if events != [] {
      InvHolds(events[..|events| - 1]);
      InvStep(After(events[..|events| - 1]).value, events[|events| - 1]);
    }
  }

  // ---------------------------------------------------------------- the promises

  /** A version moves only from registration to Staging, from Staging to Production, from Production to the
      archive; and a rejected version stays where it is, rejected. */
  lemma StagesMoveForward(events: seq<Event>, s: State, e: Event, v: nat)
    requires After(events) == Some(s) && Enabled(s, e) && v < |s.reg.versions|
    ensures v < |Do(s, e).reg.versions| && Moves(s.reg.versions[v], Do(s, e).reg.versions[v])
  {
    InvHolds(events);
    StepMoves(s, e, v);
  }

  predicate Moves(a: Version, b: Version) {
    && (b.stage == a.stage
        || (a.stage == NoStage && b.stage == Staging)
        || (a.stage == Staging && b.stage == Production)
        || (a.stage == Production && b.stage == Archived))
    && (a.rejected ==> b.rejected && b.stage == NoStage)
  }

  lemma StepMoves(s: State, e: Event, v: nat)
    requires Inv(s) && Enabled(s, e) && v < |s.reg.versions|
    ensures v < |Do(s, e).reg.versions| && Moves(s.reg.versions[v], Do(s, e).reg.versions[v])
  {
    assert VersionOk(s.reg.versions[v]);
    if e.TrainingStep? {
      JobStepIsLocal(s.reg, e.job, e.trainOk, e.prodMae);
      assert JobOk(s.reg.versions, s.reg.jobs[e.job]);
    } else if e.CallStep? {
      assert CallOk(s.reg, s.calls[e.call]);
      if !(s.calls[e.call].phase.Transiting? && e.ok) { OwnStepFrame(s, e.call, e.ok); }
    }
  }

  /** At most one version is in Production, in every reachable state: the one promoted last.  A version that
      was rejected is in no stage, and a staged version that was compared with Production beat it. */
  lemma OneProduction(events: seq<Event>, s: State, v: nat)
    requires After(events) == Some(s) && v < |s.reg.versions|
    ensures s.reg.versions[v].stage == Production <==> s.reg.history != [] && v == s.reg.history[|s.reg.history| - 1]
    ensures VersionOk(s.reg.versions[v])
  {
    InvHolds(events);
  }

  /** At every moment the four model fields are empty or all come from one load. */
  lemma FieldsComeFromOneLoad(events: seq<Event>, s: State)
    requires After(events) == Some(s)
    ensures s.served == NOTHING || exists k | 0 <= k < |s.swaps| :: s.served == FieldsOf(s.swaps[k])
  {
    InvHolds(events);
  }

  /** When a promote returns, the API serves and reports the version it promoted, and so does the registry. */
  lemma PromotedVersionIsServed(events: seq<Event>, s: State, i: nat)
    requires After(events) == Some(s) && i < |s.calls| && s.calls[i].kind.Promoting? && s.calls[i].phase.Ready?
    ensures var t := Swap(s, i, s.calls[i].phase.load);
            Do(s, CallStep(i, true)) == t && Serves(t, t.calls[i].promoted) && t.calls[i].phase == Closed(true)
  {
    InvHolds(events);
    assert CallOk(s.reg, s.calls[i]);
    StoringAPromotion(s, i);
  }

  /** The version is served, reported and in Production. */
  predicate Serves(s: State, v: Option<nat>) {
    v.Some? && s.served.prodModel == v && s.served.prodInfo == v && HighestIn(s.reg.versions, Production) == v
  }

  lemma StoringAPromotion(s: State, i: nat)
    requires HistoryOk(s.reg) && i < |s.calls| && CallOk(s.reg, s.calls[i])
    requires s.calls[i].kind.Promoting? && s.calls[i].phase.Ready?
    ensures Serves(Swap(s, i, s.calls[i].phase.load), s.calls[i].promoted)
  {
    ProductionIsLastPromoted(s.reg);
  }

  lemma HistoryIsInjective(r: Registered, v: nat, m: nat, n: nat)
    requires HistoryOk(r) && WasProduction(r.history, v, m) && 1 <= n <= |r.history|
    ensures WasProduction(r.history, v, n) <==> m == n
  {
  }

  /** The served model is the registry's Production version exactly when no promotion came after the stored
      load fetched it; the reported version is the served one exactly when none came in between. */
  lemma ServedIsCurrentIff(events: seq<Event>, s: State)
    requires After(events) == Some(s) && s.swaps != []
    ensures var l := s.swaps[|s.swaps| - 1];
            && (s.served.prodModel == HighestIn(s.reg.versions, Production) <==> l.loadedAt == |s.reg.history|)
            && (s.served.prodInfo == s.served.prodModel <==> l.asOf == l.loadedAt)
  {
    InvHolds(events);
    StoredLoad(s);
  }

  lemma StoredLoad(s: State)
    requires HistoryOk(s.reg) && SwapsOk(s) && s.swaps != []
    ensures var l := s.swaps[|s.swaps| - 1];
            && (s.served.prodModel == HighestIn(s.reg.versions, Production) <==> l.loadedAt == |s.reg.history|)
            && (s.served.prodInfo == s.served.prodModel <==> l.asOf == l.loadedAt)
  {
    var l := s.swaps[|s.swaps| - 1];
    ProductionIsLastPromoted(s.reg);
    HistoryIsInjective(s.reg, l.prodModel, l.loadedAt, |s.reg.history|);
    HistoryIsInjective(s.reg, l.prodInfo, l.asOf, l.loadedAt);
  }

  /** A load made under the lock is current when it is stored, and reports the version it serves. */
  lemma LockedLoadsAreCurrent(events: seq<Event>, s: State, i: nat)
    requires After(events) == Some(s) && i < |s.calls| && Holds(s.calls[i]) && s.calls[i].phase.Ready?
    ensures var t := Swap(s, i, s.calls[i].phase.load);
            Do(s, CallStep(i, true)) == t && Serves(t, HighestIn(s.reg.versions, Production))
  {
    InvHolds(events);
    assert CallOk(s.reg, s.calls[i]);
    StoringUnderTheLock(s, i);
  }

  lemma StoringUnderTheLock(s: State, i: nat)
    requires HistoryOk(s.reg) && i < |s.calls| && CallOk(s.reg, s.calls[i]) && Holds(s.calls[i])
        && s.calls[i].phase.Ready?
    ensures Serves(Swap(s, i, s.calls[i].phase.load), HighestIn(s.reg.versions, Production))
  {
    ProductionIsLastPromoted(s.reg);
  }

  /** The Staging fields are both empty or both filled, always with versions that passed into Staging and were
      never rejected. */
  lemma StagingFieldsWereStaged(events: seq<Event>, s: State)
    requires After(events) == Some(s)
    ensures s.served.stagingModel.Some? <==> s.served.stagingInfo.Some?
    ensures StagedOnce(s.reg, s.served.stagingModel, false) && StagedOnce(s.reg, s.served.stagingInfo, false)
  {
    InvHolds(events);
    LastSwapStaging(s);
  }

  lemma LastSwapStaging(s: State)
    requires SwapsOk(s)
    ensures s.served.stagingModel.Some? <==> s.served.stagingInfo.Some?
    ensures StagedOnce(s.reg, s.served.stagingModel, false) && StagedOnce(s.reg, s.served.stagingInfo, false)
  {
    if s.swaps != [] { assert StagingOk(s.reg, s.swaps[|s.swaps| - 1]); }
  }

  /** A load stored under the lock serves and reports versions that are in Staging at that moment, and never
      reports a newer one than it serves. */
  lemma LockedStagingIsCurrent(events: seq<Event>, s: State, i: nat)
    requires After(events) == Some(s) && i < |s.calls| && Holds(s.calls[i]) && s.calls[i].phase.Ready?
    ensures var t := Swap(s, i, s.calls[i].phase.load);
            && Do(s, CallStep(i, true)) == t && InStaging(t.reg, s.calls[i].phase.load)
            && t.served.stagingModel == s.calls[i].phase.load.stagingModel
            && t.served.stagingInfo == s.calls[i].phase.load.stagingInfo
  {
    InvHolds(events);
    assert CallOk(s.reg, s.calls[i]);
  }

  /** A prediction reports the version of the model it used exactly when no promotion came between that
      model's fetch and the version search of the load that was current when the answer was put together. */
  lemma PredictionIsLabelledRightIff(events: seq<Event>, s: State, p: Prediction)
    requires After(events) == Some(s) && p in s.predictions && p.ended != 0
    ensures 1 <= p.begun <= p.ended <= |s.swaps|
    ensures p.reported == Some(p.model) <==> s.swaps[p.ended - 1].asOf == s.swaps[p.begun - 1].loadedAt
  {
    InvHolds(events);
    assert PredictionOk(s.swaps, p);
    AnswerLabelledRight(s, p);
  }

  lemma AnswerLabelledRight(s: State, p: Prediction)
    requires HistoryOk(s.reg) && SwapsOk(s) && PredictionOk(s.swaps, p) && p.ended != 0
    ensures p.reported == Some(p.model) <==> s.swaps[p.ended - 1].asOf == s.swaps[p.begun - 1].loadedAt
  {
    var first, last := s.swaps[p.begun - 1], s.swaps[p.ended - 1];
    assert LoadOk(s.reg.history, first) && LoadOk(s.reg.history, last);
    HistoryIsInjective(s.reg, last.prodInfo, last.asOf, first.loadedAt);
  }

  /** Left alone, a load yields the Production version and the highest Staging one, each under its own name. */
  lemma UndisturbedLoad(s: State, i: nat)
    requires i < |s.calls| && s.calls[i].phase.Searching? && HighestIn(s.reg.versions, Production).Some?
    ensures var s1 := CallDo(s, i, true);
            && Enabled(s1, CallStep(i, true))
            && var s2 := CallDo(s1, i, true);
               var prod, staged, n := HighestIn(s.reg.versions, Production), HighestIn(s.reg.versions, Staging),
                   |s.reg.history|;
               && (staged.Some? ==> s2.calls[i].phase.LoadingStaging? && Enabled(s2, CallStep(i, true)))
               && var s3 := if staged.Some? then CallDo(s2, i, true) else s2;
                  s3.reg == s.reg && s3.calls[i].phase == Ready(Loaded(prod.value, prod.value, staged, staged, n, n))
  {
  }

  /** A call that raises closes as failed, stores nothing and leaves the lock free if it held it. */
  lemma FailedCallStoresNothing(s: State, i: nat)
    requires LockOk(s) && Enabled(s, CallStep(i, false)) && PhaseOk(s.reg, s.calls[i])
    requires var p := s.calls[i].phase; !p.Queued? && !p.Ready? && !p.LoadingStaging?
    ensures var t := CallDo(s, i, false);
            && t.calls[i].phase == Closed(false) && t.served == s.served && t.swaps == s.swaps && t.reg == s.reg
            && (Holds(s.calls[i]) ==> t.lock.None?) && (!Holds(s.calls[i]) ==> t.lock == s.lock)
  {
  }

  /** A prediction uses the model served when it starts and reports the version served when it answers. */
  lemma PredictionReportsLater(s: State, t: State, i: nat)
    requires Enabled(s, Predict) && Enabled(t, Answer(i))
    ensures var u := Do(s, Predict); var p := u.predictions[|s.predictions|];
            Some(p.model) == s.served.prodModel && Enabled(u, Answer(|s.predictions|))
    ensures Do(t, Answer(i)).predictions[i] == t.predictions[i].(reported := t.served.prodInfo, ended := |t.swaps|)
  {
  }

  // ---------------------------------------------------------------- a stale store after a promotion

  function Run(s: State, events: seq<Event>): Option<State>
    decreases |events|
  {
    if events == [] then Some(s)
    else if Enabled(s, events[0]) then Run(Do(s, events[0]), events[1..])
    else None
  }

  lemma {:induction false} RunConcat(s: State, a: seq<Event>, b: seq<Event>)
    requires Run(s, a).Some?
    ensures Run(s, a + b) == Run(Run(s, a).value, b)
    decreases |a|
  {
    if a == [] {
      assert a + b == b;
    } else {
      RunConcat(Do(s, a[0]), a[1..], b);
      assert (a + b)[1..] == a[1..] + b;
    }
  }

  lemma {:induction false} AfterRun(events: seq<Event>, more: seq<Event>)
    requires After(events).Some? && Run(After(events).value, more).Some?
    ensures After(events + more) == Run(After(events).value, more)
    decreases |more|
  {
    if more == [] {
      assert events + more == events;
    } else {
      assert (events + [more[0]])[..|events|] == events;
      AfterRun(events + [more[0]], more[1..]);
      assert events + [more[0]] + more[1..] == events + more;
    }
  }

  /** Everything the last event left standing, for a call that is driven to its end. */
  ghost predicate Drivable(s: State, i: nat) {
    && Inv(s) && i < |s.calls| && s.calls[i].kind.Promoting? && !s.calls[i].phase.Closed?
    && (s.calls[i].phase.Queued? ==> s.lock.None?)
    && (s.calls[i].phase.Queued? || s.calls[i].phase.Picking? ==> HighestIn(s.reg.versions, Staging).Some?)
  }

  function Rank(p: CallPhase): nat {
    match p
    case Queued => 7 case Picking => 6 case Transiting(_) => 5 case Searching => 4
    case LoadingProd(_, _, _) => 3 case LoadingStaging(_, _, _, _, _) => 2 case Ready(_) => 1 case Closed(_) => 0
  }

  lemma DriveFrame(s: State, i: nat)
    requires Drivable(s, i)
    ensures Enabled(s, CallStep(i, true))
    ensures var t := CallDo(s, i, true);
            && |t.calls| == |s.calls| && (forall k | 0 <= k < |s.calls| && k != i :: t.calls[k] == s.calls[k])
            && t.calls[i].kind == s.calls[i].kind
            && |t.reg.history| == |s.reg.history| + (if s.calls[i].phase.Transiting? then 1 else 0)
  {
    assert CallOk(s.reg, s.calls[i]);
  }

  lemma DriveOn(s: State, i: nat)
    requires Drivable(s, i) && Enabled(s, CallStep(i, true))
    ensures var t := CallDo(s, i, true);
            && Rank(t.calls[i].phase) < Rank(s.calls[i].phase)
            && (Rank(t.calls[i].phase) < 5 <==> Rank(s.calls[i].phase) <= 5)
            && (s.calls[i].phase.Ready? ==> t.calls[i].phase == Closed(true) && t.lock.None?)
            && (!s.calls[i].phase.Ready? ==> !t.calls[i].phase.Closed? && !t.calls[i].phase.Queued?)
            && (t.calls[i].phase.Picking? ==> t.reg == s.reg && s.calls[i].phase.Queued?)
  {
    assert CallOk(s.reg, s.calls[i]);
    if Rank(s.calls[i].phase) < 5 {
      assert s.reg.history != [];
      ProductionIsLastPromoted(s.reg);
    }
  }

  /** The version a promote is going to have promoted. */
  function Candidate(s: State, i: nat): Option<nat>
    requires i < |s.calls|
  {
    var p := s.calls[i].phase;
    if p.Queued? || p.Picking? then HighestIn(s.reg.versions, Staging)
    else if p.Transiting? then Some(p.v)
    else s.calls[i].promoted
  }

  lemma DriveKeepsCandidate(s: State, i: nat)
    requires Drivable(s, i) && Enabled(s, CallStep(i, true)) && !s.calls[i].phase.Ready?
    ensures |CallDo(s, i, true).calls| == |s.calls| && Candidate(CallDo(s, i, true), i) == Candidate(s, i)
  {
    assert CallOk(s.reg, s.calls[i]);
    if Rank(s.calls[i].phase) < 5 { ProductionIsLastPromoted(s.reg); }
  }

  lemma DriveOne(s: State, i: nat)
    requires Drivable(s, i) && Enabled(s, CallStep(i, true))
    ensures Inv(CallDo(s, i, true))
    ensures !s.calls[i].phase.Ready? ==> Drivable(CallDo(s, i, true), i)
  {
    InvStep(s, CallStep(i, true));
    DriveFrame(s, i);
    DriveOn(s, i);
  }

  /** Left alone, a promote with something to promote goes through. */
  lemma Drive(s: State, i: nat) returns (events: seq<Event>, t: State)
    requires Drivable(s, i)
    ensures Run(s, events) == Some(t) && Inv(t) && |t.calls| == |s.calls| && t.lock.None?
    ensures t.calls[i].phase == Closed(true)
    ensures forall k | 0 <= k < |s.calls| && k != i :: t.calls[k] == s.calls[k]
    ensures |t.reg.history| == |s.reg.history| + (if Rank(s.calls[i].phase) < 5 then 0 else 1)
    ensures t.served.prodModel == HighestIn(t.reg.versions, Production) == Candidate(s, i)
    decreases Rank(s.calls[i].phase)
  {
    DriveFrame(s, i);
    DriveOn(s, i);
    DriveOne(s, i);
    var next := CallDo(s, i, true);
    if s.calls[i].phase.Ready? {
      events, t := [CallStep(i, true)], next;
      assert CallOk(s.reg, s.calls[i]);
      StoringAPromotion(s, i);
      assert Run(next, []) == Some(next);
    } else {
      DriveKeepsCandidate(s, i);
      var rest;
      rest, t := Drive(next, i);
      events := [CallStep(i, true)] + rest;
      assert events[1..] == rest;
    }
  }

  lemma RunOne(s: State, e: Event)
    requires Inv(s) && Enabled(s, e)
    ensures Run(s, [e]) == Some(Do(s, e)) && Inv(Do(s, e))
  {
    InvStep(s, e);
    assert Run(Do(s, e), [e][1..]) == Some(Do(s, e));
  }

  lemma StageOne(s: State) returns (events: seq<Event>, t: State)
    requires Inv(s)
    ensures Run(s, events) == Some(t) && Inv(t) && HighestIn(t.reg.versions, Staging).Some?
    ensures t == s.(reg := t.reg) && t.reg.history == s.reg.history
  {
    var i := |s.reg.jobs|;
    UncomparedStaging(s.reg);
    var e1, e2, e3 := NewTraining(false, 0.0), TrainingStep(i, false, 0.0), TrainingStep(i, true, 0.0);
    RunOne(s, e1);
    RunOne(Do(s, e1), e2);
    RunOne(Do(Do(s, e1), e2), e3);
    RunConcat(s, [e1], [e2]);
    RunConcat(s, [e1] + [e2], [e3]);
    events, t := [e1] + [e2] + [e3], Do(Do(Do(s, e1), e2), e3);
  }

  /** Stage a version and promote it. */
  lemma PromoteOne(s: State) returns (events: seq<Event>, t: State)
    requires Inv(s) && s.lock.None?
    ensures Run(s, events) == Some(t) && Inv(t) && t.lock.None? && |t.calls| == |s.calls| + 1
    ensures t.calls[..|s.calls|] == s.calls && t.calls[|s.calls|].phase == Closed(true)
    ensures |t.reg.history| == |s.reg.history| + 1
    ensures t.served.prodModel == HighestIn(t.reg.versions, Production)
  {
    var staging, s1 := StageOne(s);
    var call := NewCall(Promoting);
    InvStep(s1, call);
    var s2 := Do(s1, call);
    var driving, s3 := Drive(s2, |s.calls|);
    t := s3;
    RunConcat(s, staging, [call] + driving);
    assert ([call] + driving)[1..] == driving;
    events := staging + ([call] + driving);
    assert t.calls[..|s.calls|] == s.calls;
  }

  lemma StartRetry(s: State) returns (t: State)
    requires Inv(s) && s.reg.history != []
    ensures Run(s, [NewCall(Retrying)] + [CallStep(|s.calls|, true)]) == Some(t) && Inv(t) && t.lock == s.lock
        && t.reg == s.reg
    ensures |t.calls| == |s.calls| + 1 && t.calls[|s.calls|].kind.Retrying? && t.calls[|s.calls|].phase.LoadingProd?
  {
    var e1, e2 := NewCall(Retrying), CallStep(|s.calls|, true);
    ProductionIsLastPromoted(s.reg);
    RunOne(s, e1);
    RunOne(Do(s, e1), e2);
    RunConcat(s, [e1], [e2]);
    t := Do(Do(s, e1), e2);
  }

  lemma FetchProd(s: State, i: nat) returns (t: State)
    requires Inv(s) && s.reg.history != [] && i < |s.calls| && s.calls[i].kind.Retrying?
        && s.calls[i].phase.LoadingProd?
    ensures Run(s, [CallStep(i, true)]) == Some(t) && Inv(t)
    ensures t == s.(calls := t.calls) && |t.calls| == |s.calls| && t.calls[i].kind.Retrying?
    ensures (t.calls[i].phase.Ready? && t.calls[i].phase.load.loadedAt == |s.reg.history|)
         || (t.calls[i].phase.LoadingStaging? && t.calls[i].phase.loadedAt == |s.reg.history|)
  {
    ProductionIsLastPromoted(s.reg);
    RunOne(s, CallStep(i, true));
    t := Do(s, CallStep(i, true));
  }

  lemma FetchStaging(s: State, i: nat) returns (t: State)
    requires Inv(s) && i < |s.calls| && s.calls[i].kind.Retrying? && s.calls[i].phase.LoadingStaging?
    ensures Run(s, [CallStep(i, true)]) == Some(t) && Inv(t)
    ensures t == s.(calls := t.calls) && |t.calls| == |s.calls| && t.calls[i].kind.Retrying?
    ensures t.calls[i].phase.Ready? && t.calls[i].phase.load.loadedAt == s.calls[i].phase.loadedAt
  {
    RunOne(s, CallStep(i, true));
    t := Do(s, CallStep(i, true));
  }

  /** A startup retry that has fetched its models and not stored them yet. */
  lemma RetryLoads(s: State) returns (events: seq<Event>, t: State)
    requires Inv(s) && s.reg.history != []
    ensures Run(s, events) == Some(t) && Inv(t) && t.lock == s.lock && t.reg == s.reg && |t.calls| == |s.calls| + 1
    ensures t.calls[|s.calls|].phase.Ready? && t.calls[|s.calls|].phase.load.loadedAt == |s.reg.history|
  {
    var i := |s.calls|;
    var step := [CallStep(i, true)];
    var s1 := StartRetry(s);
    t := FetchProd(s1, i);
    events := [NewCall(Retrying)] + step;
    RunConcat(s, events, step);
    events := events + step;
    if t.calls[i].phase.LoadingStaging? {
      t := FetchStaging(t, i);
      RunConcat(s, events, step);
      events := events + step;
    }
  }

  lemma BootOk()
    ensures Inv(BOOT) && After([]) == Some(BOOT)
  {
  }

  /** A promote returns with its version served, and then a retry that had fetched the models before the
      promotion stores them: the API serves a version that is no longer in Production. */
  lemma RetryCanUndoAPromote() returns (events: seq<Event>, s: State, retry: nat)
    ensures After(events) == Some(s) && s.calls != [] && s.calls[|s.calls| - 1].phase == Closed(true)
    ensures s.served.prodModel == HighestIn(s.reg.versions, Production)
    ensures Enabled(s, CallStep(retry, true))
    ensures var t := Do(s, CallStep(retry, true));
            t.served.prodModel.Some? && t.served.prodModel != HighestIn(t.reg.versions, Production)
  {
    BootOk();
    var a, s1 := PromoteOne(BOOT);
    var b, s2 := RetryLoads(s1);
    var c;
    retry := |s1.calls|;
    c, s := PromoteOne(s2);
    RunConcat(BOOT, a, b);
    RunConcat(BOOT, a + b, c);
    AfterRun([], a + b + c);
    events := [] + (a + b + c);
    assert s.calls[retry] == s.calls[..|s2.calls|][retry];
    StaleStore(s, retry);
  }

  lemma StaleStore(s: State, i: nat)
    requires Inv(s) && s.lock.None? && i < |s.calls| && s.calls[i].phase.Ready?
    requires s.calls[i].phase.load.loadedAt < |s.reg.history|
    ensures Enabled(s, CallStep(i, true))
    ensures var t := Do(s, CallStep(i, true));
            t.served.prodModel.Some? && t.served.prodModel != HighestIn(t.reg.versions, Production)
  {
    assert CallOk(s.reg, s.calls[i]);
    ProductionIsLastPromoted(s.reg);
    var l := s.calls[i].phase.load;
    HistoryIsInjective(s.reg, l.prodModel, l.loadedAt, |s.reg.history|);
  }
}
