/** The auto-retrain trigger: a drift check with a cooldown, a weekly job, and one lock
    (services/worker/app/auto_retrain.py).

    Threads interleave between any two reads or writes of shared state. */
module Retrain {
  import opened Options

  // ---------------------------------------------------------------- one call at a time

  datatype DriftScore = DriftScore(feature: string, score: Option<real>, detected: Option<bool>)

  predicate Exceeds(d: DriftScore, threshold: real) {
    (d.score.Some? && d.score.value > threshold) || (d.score.None? && 0.0 > threshold) || d.detected == Some(true)
  }

  /** A score counts when it is above the threshold, a missing score counts as zero, and a detection flag counts
      whatever the score. */
  lemma WhatExceeds(f: string, x: real, threshold: real)
    ensures Exceeds(DriftScore(f, Some(x), None), threshold) <==> threshold < x
    ensures Exceeds(DriftScore(f, Some(x), Some(false)), threshold) <==> threshold < x
    ensures Exceeds(DriftScore(f, None, None), threshold) <==> threshold < 0.0
    ensures Exceeds(DriftScore(f, None, Some(false)), threshold) <==> threshold < 0.0
    ensures Exceeds(DriftScore(f, Some(x), Some(true)), threshold)
        && Exceeds(DriftScore(f, None, Some(true)), threshold)
  {
  }

  /** The cooldown guard, for one value of the clock and of the shared stamp. */
  predicate Cooled(last: Option<real>, clock: real, cooldown: real) {
    last.None? || cooldown <= clock - last.value
  }

  /** How the training part of a run ends. */
  datatype Ending = TooFewRows | EmptySplit | Raised | Trained

  class Retrainer {
    var locked: bool
    var last: Option<real>

    constructor ()
      ensures !locked && last == None
    {
      locked, last := false, None;
    }

    /** The decision of a drift check: the features that exceed, and whether a run is launched. */
    method MaybeTrigger(enabled: bool, scores: seq<DriftScore>, threshold: real, cooldownMinutes: int, clock: real)
      returns (launch: bool)
      ensures launch <==> enabled && (exists d :: d in scores && Exceeds(d, threshold))
                          && Cooled(last, clock, (cooldownMinutes * 60) as real)
      ensures enabled && (exists d ::
                          d in scores && (d.detected == Some(true) || (d.score.Some? && threshold < d.score.value)))
              ==> (launch <==> last.None? || 60.0 * cooldownMinutes as real <= clock - last.value)
      ensures !enabled || (last.Some? && clock - last.value < 60.0 * cooldownMinutes as real) ==> !launch
      ensures (forall d | d in scores ::
               d.detected != Some(true) && d.score.Some? && d.score.value <= threshold) ==> !launch
    {
      if !enabled {
        return false;
      }
      var exceeding: seq<string> := [];
      for i := 0 to |scores|
        invariant exceeding != [] <==> exists d :: d in scores[..i] && Exceeds(d, threshold)
      {
        assert scores[..i + 1] == scores[..i] + [scores[i]];
        var d := scores[i];
        if (if d.score.Some? then d.score.value else 0.0) > threshold || d.detected == Some(true) {
          assert Exceeds(d, threshold) && d in scores[..i + 1];
          exceeding := exceeding + [d.feature];
        }
      }
      assert scores[..|scores|] == scores;
      if exceeding == [] {
        return false;
      }
      if last.Some? {
        var elapsed := clock - last.value;
        if elapsed < (cooldownMinutes * 60) as real {
          return false;
        }
      }
      launch := true;
    }

    /** A run that nobody interrupts: whatever way the training ends, the lock is back where it was, and
        the stamp moved exactly if the run got the lock. */
    method RunAutoRetrain(clock: real, rows: nat, trainRows: nat, valRows: nat, fails: bool)
        returns (ending: Option<Ending>)
      modifies this
      ensures locked == old(locked)
      ensures last == if old(locked) then old(last) else Some(clock)
      ensures ending.None? <==> old(locked)
      ensures ending == Some(Trained) <==> !old(locked) && 100 <= rows && 0 < trainRows && 0 < valRows && !fails
    {
      if locked {
        return None;
      }
      locked := true;
      last := Some(clock);
      if rows < 100 {
        ending := Some(TooFewRows);
      } else if trainRows == 0 || valRows == 0 {
        ending := Some(EmptySplit);
      } else if fails {
        ending := Some(Raised);
      } else {
        ending := Some(Trained);
      }
      locked := false;
    }
  }

  // ---------------------------------------------------------------- all interleavings

  /** Where a job stands.  A drift job reads the stamp, the clock and the stamp again; then it, or a weekly
      job, goes for the lock, reads the clock, stores the stamp, trains and releases. */
  datatype Phase =
    | Checking
    | Clocking
    | Comparing(clock: real)
    | Wanting
    | Locked
    | Stamping(stamp: real)
    | Training
    | Releasing
    | Done

  /** `seen` and `checked` say how many starts a drift job's check knew of, and the time it went by;
      `acquired` says how many starts there had been when the job got the lock. */
  datatype Job = Job(drift: bool, phase: Phase, seen: nat, checked: real, acquired: nat)

  datatype StartRecord = StartRecord(time: real, drift: bool, seen: nat, acquired: nat)

  datatype State = State(now: real, last: Option<real>, lock: Option<nat>, jobs: seq<Job>, starts: seq<StartRecord>)

  const IDLE := State(0.0, None, None, [], [])

  datatype Event = Tick(to: real) | DriftFound | WeeklyDue | Step(job: nat)

  predicate Enabled(s: State, e: Event) {
    match e
    case Tick(to) => s.now <= to
    case DriftFound => true
    case WeeklyDue => true
    case Step(i) => i < |s.jobs| && s.jobs[i].phase != Done && (s.jobs[i].phase.Comparing? ==> s.last.Some?)
  }

  /** A job's next micro-step.  The clock value compared was read before the stamp was read again. */
  function StepOf(s: State, i: nat, cooldown: real): State
    requires Enabled(s, Step(i))
  {
    var j := s.jobs[i];
    match j.phase
    case Checking =>
      if s.last.None? then s.(jobs := s.jobs[i := j.(phase := Wanting, seen := |s.starts|, checked := s.now)])
      else s.(jobs := s.jobs[i := j.(phase := Clocking)])
    case Clocking => s.(jobs := s.jobs[i := j.(phase := Comparing(s.now))])
    case Comparing(clock) =>
      if !Cooled(s.last, clock, cooldown) then s.(jobs := s.jobs[i := j.(phase := Done)])
      else s.(jobs := s.jobs[i := j.(phase := Wanting, seen := |s.starts|, checked := clock)])
    case Wanting =>
      if s.lock.Some? then s.(jobs := s.jobs[i := j.(phase := Done)])
      else s.(lock := Some(i), jobs := s.jobs[i := j.(phase := Locked, acquired := |s.starts|)])
    case Locked => s.(jobs := s.jobs[i := j.(phase := Stamping(s.now))])
    case Stamping(stamp) =>
      s.(last := Some(stamp), starts := s.starts + [StartRecord(stamp, j.drift, j.seen, j.acquired)],
         jobs := s.jobs[i := j.(phase := Training)])
    case Training => s.(jobs := s.jobs[i := j.(phase := Releasing)])
    case Releasing => s.(lock := None, jobs := s.jobs[i := j.(phase := Done)])
    case Done => s
  }

  function Do(s: State, e: Event, cooldown: real): State
    requires Enabled(s, e)
  {
    match e
    case Tick(to) => s.(now := to)
    case DriftFound => s.(jobs := s.jobs + [Job(true, Checking, 0, 0.0, 0)])
    case WeeklyDue => s.(jobs := s.jobs + [Job(false, Wanting, 0, 0.0, 0)])
    case Step(i) => StepOf(s, i, cooldown)
  }

  function After(events: seq<Event>, cooldown: real): Option<State> {
    if events == [] then Some(IDLE)
    else
      var before := After(events[..|events| - 1], cooldown);
      if before.Some? && Enabled(before.value, events[|events| - 1])
      then Some(Do(before.value, events[|events| - 1], cooldown))
      else None
  }

  // ---------------------------------------------------------------- the invariant

  predicate Active(p: Phase) {
    p.Locked? || p.Stamping? || p.Training? || p.Releasing?
  }

  /** Exactly the lock's holder is active. */
  ghost predicate LockOk(s: State) {
    && (s.lock.Some? ==> s.lock.value < |s.jobs| && Active(s.jobs[s.lock.value].phase))
    && (forall i | 0 <= i < |s.jobs| && Active(s.jobs[i].phase) :: s.lock == Some(i))
  }

  ghost predicate StampsOk(s: State) {
    && s.last == (if s.starts == [] then None else Some(s.starts[|s.starts| - 1].time))
    && (forall i, j | 0 <= i < j < |s.starts| :: s.starts[i].time <= s.starts[j].time)
    && (s.starts != [] ==> s.starts[|s.starts| - 1].time <= s.now)
  }

  /** A clock value at which the first `seen` starts had all cooled down. */
  ghost predicate CooledSince(starts: seq<StartRecord>, seen: nat, clock: real, cooldown: real) {
    seen <= |starts| && forall i | 0 <= i < seen :: starts[i].time + cooldown <= clock
  }

  ghost predicate JobOk(s: State, j: Job, cooldown: real) {
    && (j.phase.Clocking? || j.phase.Comparing? ==> s.starts != [])
    && (j.phase.Comparing? ==> j.phase.clock <= s.now)
    && (j.phase.Checking? || j.phase.Clocking? || j.phase.Comparing? ==> j.drift)
    && (j.drift && (j.phase.Wanting? || j.phase.Locked? || j.phase.Stamping?) ==>
          CooledSince(s.starts, j.seen, j.checked, cooldown) && j.checked <= s.now)
    && (j.phase.Locked? || j.phase.Stamping? ==> j.acquired == |s.starts|)
    && (j.phase.Stamping? ==> j.phase.stamp <= s.now && (s.last.Some? ==> s.last.value <= j.phase.stamp))
    && (j.phase.Stamping? && j.drift ==> j.checked <= j.phase.stamp)
  }

  ghost predicate StartOk(starts: seq<StartRecord>, k: nat, cooldown: real)
    requires k < |starts|
  {
    && starts[k].acquired == k
    && (starts[k].drift ==> starts[k].seen <= k && CooledSince(starts, starts[k].seen, starts[k].time, cooldown))
  }

  ghost predicate Inv(s: State, cooldown: real) {
    && LockOk(s) && StampsOk(s)
    && (forall i | 0 <= i < |s.jobs| :: JobOk(s, s.jobs[i], cooldown))
    && (forall k | 0 <= k < |s.starts| :: StartOk(s.starts, k, cooldown))
  }

  lemma StepKeepsLock(s: State, i: nat, cooldown: real)
    requires LockOk(s) && Enabled(s, Step(i))
    ensures LockOk(StepOf(s, i, cooldown))
  {
    var t := StepOf(s, i, cooldown);
    forall k | 0 <= k < |t.jobs| && Active(t.jobs[k].phase) ensures t.lock == Some(k) {
      if k != i { assert t.jobs[k] == s.jobs[k]; }
    }
  }

  /** Steps other than the storing of a stamp leave the starts alone. */
  lemma QuietStepKeeps(s: State, i: nat, cooldown: real)
    requires Inv(s, cooldown) && Enabled(s, Step(i)) && !s.jobs[i].phase.Stamping?
    ensures Inv(StepOf(s, i, cooldown), cooldown)
  {
    StepKeepsLock(s, i, cooldown);
    var t := StepOf(s, i, cooldown);
    assert t.starts == s.starts && t.last == s.last && t.now == s.now;
    OwnStepOk(s, i, cooldown);
    forall k | 0 <= k < |t.jobs| ensures JobOk(t, t.jobs[k], cooldown) {
      if k != i { assert JobOk(s, s.jobs[k], cooldown); }
    }
  }

  lemma OwnStepOk(s: State, i: nat, cooldown: real)
    requires StampsOk(s) && Enabled(s, Step(i)) && JobOk(s, s.jobs[i], cooldown) && !s.jobs[i].phase.Stamping?
    ensures JobOk(StepOf(s, i, cooldown), StepOf(s, i, cooldown).jobs[i], cooldown)
  {
    if s.jobs[i].phase.Comparing? {
      var clock := s.jobs[i].phase.clock;
      if cooldown <= clock - s.last.value {
        assert forall k | 0 <= k < |s.starts| :: s.starts[k].time <= s.last.value;
      }
    }
  }

  lemma StampKeepsStarts(s: State, i: nat, cooldown: real)
    requires StampsOk(s) && (forall k | 0 <= k < |s.starts| :: StartOk(s.starts, k, cooldown))
    requires Enabled(s, Step(i)) && s.jobs[i].phase.Stamping? && JobOk(s, s.jobs[i], cooldown)
    ensures var t := StepOf(s, i, cooldown);
            StampsOk(t) && forall k | 0 <= k < |t.starts| :: StartOk(t.starts, k, cooldown)
  {
    var t, n := StepOf(s, i, cooldown), |s.starts|;
    assert t.starts[..n] == s.starts;
    forall a, b | 0 <= a < b < |t.starts| ensures t.starts[a].time <= t.starts[b].time {
      if b == n && a < n - 1 { assert s.starts[a].time <= s.starts[n - 1].time; }
    }
    forall k | 0 <= k < |t.starts| ensures StartOk(t.starts, k, cooldown) {
      if k < n { assert StartOk(s.starts, k, cooldown); }
    }
  }

  lemma StampStepKeeps(s: State, i: nat, cooldown: real)
    requires Inv(s, cooldown) && Enabled(s, Step(i)) && s.jobs[i].phase.Stamping?
    ensures Inv(StepOf(s, i, cooldown), cooldown)
  {
    StepKeepsLock(s, i, cooldown);
    assert JobOk(s, s.jobs[i], cooldown);
    StampKeepsStarts(s, i, cooldown);
    var t := StepOf(s, i, cooldown);
    forall k | 0 <= k < |t.jobs| ensures JobOk(t, t.jobs[k], cooldown) {
      if k != i {
        assert JobOk(s, s.jobs[k], cooldown);
        assert !Active(s.jobs[k].phase);
      }
    }
  }

  lemma InvStep(s: State, e: Event, cooldown: real)
    requires Inv(s, cooldown) && Enabled(s, e)
    ensures Inv(Do(s, e, cooldown), cooldown)
  {
    if e.Step? {
      if s.jobs[e.job].phase.Stamping? {
        StampStepKeeps(s, e.job, cooldown);
      } else {
        QuietStepKeeps(s, e.job, cooldown);
      }
    } else {
      var t := Do(s, e, cooldown);
      forall k | 0 <= k < |t.jobs| ensures JobOk(t, t.jobs[k], cooldown) {
        if k < |s.jobs| { assert JobOk(s, s.jobs[k], cooldown); }
      }
    }
  }

  lemma {:induction false} InvHolds(events: seq<Event>, cooldown: real)
    requires After(events, cooldown).Some?
    ensures Inv(After(events, cooldown).value, cooldown)
  {
    if events != [] {
      var init := events[..|events| - 1];
      InvHolds(init, cooldown);
      InvStep(After(init, cooldown).value, events[|events| - 1], cooldown);
    }
  }

  // ---------------------------------------------------------------- the promises

  /** At most one run is active, and when nobody is active the lock is free. */
  lemma AtMostOneActive(events: seq<Event>, cooldown: real, s: State)
    requires After(events, cooldown) == Some(s)
    ensures forall i, j | 0 <= i < |s.jobs| && 0 <= j < |s.jobs|
                          && Active(s.jobs[i].phase) && Active(s.jobs[j].phase) :: i == j
    ensures s.lock.None? <==> forall i | 0 <= i < |s.jobs| :: !Active(s.jobs[i].phase)
  {
    InvHolds(events, cooldown);
  }

  /** A drift-triggered start comes within the cooldown of an earlier start only if that start was stamped
      after the drift job's own check and before the drift job got the lock. */
  lemma DriftStartsKeepTheCooldown(events: seq<Event>, cooldown: real, s: State, i: nat, k: nat)
    requires After(events, cooldown) == Some(s) && i < k < |s.starts|
    requires s.starts[k].drift && s.starts[k].time < s.starts[i].time + cooldown
    ensures s.starts[k].seen <= i < s.starts[k].acquired
  {
    InvHolds(events, cooldown);
    assert StartOk(s.starts, k, cooldown);
  }

  function Steps(s: State, i: nat, n: nat, cooldown: real): Option<State>
    decreases n
  {
    if n == 0 then Some(s)
    else if Enabled(s, Step(i)) then Steps(StepOf(s, i, cooldown), i, n - 1, cooldown)
    else None
  }

  /** The holder's own steps always lead to the release, whatever the other jobs do meanwhile: no step
      of another job changes the holder's phase. */
  lemma HolderReleases(events: seq<Event>, cooldown: real, s: State) returns (n: nat)
    requires After(events, cooldown) == Some(s) && s.lock.Some?
    ensures 1 <= n <= 4
    ensures Steps(s, s.lock.value, n, cooldown).Some? && Steps(s, s.lock.value, n, cooldown).value.lock.None?
    ensures forall j | Enabled(s, Step(j)) && j != s.lock.value ::
              var t := StepOf(s, j, cooldown); t.lock == s.lock && t.jobs[s.lock.value] == s.jobs[s.lock.value]
  {
    InvHolds(events, cooldown);
    var i := s.lock.value;
    var phase := s.jobs[i].phase;
    n := if phase.Locked? then 4 else if phase.Stamping? then 3 else if phase.Training? then 2 else 1;
    assert Active(phase);
    StepsToRelease(s, i, cooldown);
  }

  lemma StepsToRelease(s: State, i: nat, cooldown: real)
    requires i < |s.jobs| && Active(s.jobs[i].phase)
    ensures var n := match s.jobs[i].phase { case Locked => 4 case Stamping(_) => 3 case Training => 2 case _ => 1 };
            Steps(s, i, n, cooldown).Some? && Steps(s, i, n, cooldown).value.lock.None?
    decreases match s.jobs[i].phase { case Locked => 3 case Stamping(_) => 2 case Training => 1 case _ => 0 }
  {
    if !s.jobs[i].phase.Releasing? {
      StepsToRelease(StepOf(s, i, cooldown), i, cooldown);
    } else {
      assert Steps(StepOf(s, i, cooldown), i, 0, cooldown).Some?;
    }
  }

  lemma AfterOne(events: seq<Event>, e: Event, cooldown: real)
    requires After(events, cooldown).Some? && Enabled(After(events, cooldown).value, e)
    ensures After(events + [e], cooldown) == Some(Do(After(events, cooldown).value, e, cooldown))
  {
    assert (events + [e])[..|events|] == events;
  }

  lemma {:induction false} AfterSteps(events: seq<Event>, i: nat, n: nat, cooldown: real) returns (more: seq<Event>)
    requires After(events, cooldown).Some? && Steps(After(events, cooldown).value, i, n, cooldown).Some?
    ensures After(more, cooldown) == Steps(After(events, cooldown).value, i, n, cooldown)
    decreases n
  {
    if n == 0 {
      more := events;
    } else {
      AfterOne(events, Step(i), cooldown);
      more := AfterSteps(events + [Step(i)], i, n - 1, cooldown);
    }
  }

  /** A drift check that passes, and the weekly job, before either goes for the lock. */
  lemma DriftAndWeekly(cooldown: real) returns (events: seq<Event>)
    ensures After(events, cooldown) ==
        Some(IDLE.(jobs := [Job(true, Wanting, 0, 0.0, 0), Job(false, Wanting, 0, 0.0, 0)]))
  {
    var first, free := Job(true, Checking, 0, 0.0, 0), Job(true, Wanting, 0, 0.0, 0);
    var weekly := Job(false, Wanting, 0, 0.0, 0);
    AfterOne([], DriftFound, cooldown);
    events := [] + [DriftFound];
    AfterOne(events, WeeklyDue, cooldown);
    events := events + [WeeklyDue];
    assert IDLE.jobs + [first] + [weekly] == [first, weekly];
    AfterOne(events, Step(0), cooldown);
    events := events + [Step(0)];
    assert [first, weekly][0 := free] == [free, weekly];
  }

  /** Going for the free lock, a job starts, trains and releases it in five steps. */
  lemma FiveSteps(s: State, i: nat, cooldown: real)
    requires i < |s.jobs| && s.jobs[i].phase.Wanting? && s.lock.None?
    ensures var j := s.jobs[i];
            Steps(s, i, 5, cooldown) ==
              Some(s.(last := Some(s.now), starts := s.starts + [StartRecord(s.now, j.drift, j.seen, |s.starts|)],
                      jobs := s.jobs[i := j.(phase := Done, acquired := |s.starts|)]))
  {
    var j := s.jobs[i];
    var s1 := s.(lock := Some(i), jobs := s.jobs[i := j.(phase := Locked, acquired := |s.starts|)]);
    var j1 := s1.jobs[i];
    var s2 := s1.(jobs := s.jobs[i := j1.(phase := Stamping(s.now))]);
    var s3 := s2.(last := Some(s.now), starts := s.starts + [StartRecord(s.now, j.drift, j.seen, |s.starts|)],
                  jobs := s.jobs[i := j1.(phase := Training)]);
    var s4 := s3.(jobs := s.jobs[i := j1.(phase := Releasing)]);
    var s5 := s4.(lock := None, jobs := s.jobs[i := j1.(phase := Done)]);
    assert StepOf(s, i, cooldown) == s1;
    assert StepOf(s1, i, cooldown) == s2;
    assert StepOf(s2, i, cooldown) == s3;
    assert StepOf(s3, i, cooldown) == s4;
    assert StepOf(s4, i, cooldown) == s5;
    assert Steps(s4, i, 1, cooldown) == Steps(s5, i, 0, cooldown);
    assert Steps(s3, i, 2, cooldown) == Steps(s4, i, 1, cooldown);
    assert Steps(s2, i, 3, cooldown) == Steps(s3, i, 2, cooldown);
    assert Steps(s1, i, 4, cooldown) == Steps(s2, i, 3, cooldown);
  }

  /** The exception is real: whatever the cooldown, a weekly run that ends between a drift check and its
      thread's attempt at the lock is followed by the drift run at once. */
  lemma CooldownCanBeOutrun(cooldown: real) returns (events: seq<Event>)
    requires 0.0 < cooldown
    ensures After(events, cooldown).Some?
    ensures var starts := After(events, cooldown).value.starts;
            |starts| == 2 && !starts[0].drift && starts[1].drift && starts[1].time < starts[0].time + cooldown
  {
    events := DriftAndWeekly(cooldown);
    FiveSteps(After(events, cooldown).value, 1, cooldown);
    events := AfterSteps(events, 1, 5, cooldown);
    FiveSteps(After(events, cooldown).value, 0, cooldown);
    events := AfterSteps(events, 0, 5, cooldown);
  }

  /** A drift check that nobody disturbs: if nothing has started yet, or the cooldown is over, and the lock is free,
      it starts a run at once; within the cooldown it starts none. */
  lemma UndisturbedDrift(s: State, cooldown: real)
    requires StampsOk(s) && s.lock.None?
    ensures var i, t := |s.jobs|, Do(s, DriftFound, cooldown);
            && (s.last.None? ==> StartsAtOnce(t, i, 1, cooldown))
            && (s.last.Some? && cooldown <= s.now - s.last.value ==> StartsAtOnce(t, i, 3, cooldown))
            && (s.last.Some? && s.now - s.last.value < cooldown ==>
                  var u := Steps(t, i, 3, cooldown);
                  u.Some? && u.value.starts == s.starts && u.value.jobs[i].phase == Done && u.value.lock.None?)
  {
    var i, t := |s.jobs|, Do(s, DriftFound, cooldown);
    if s.last.None? {
      OneStep(t, i, cooldown);
      FiveSteps(StepOf(t, i, cooldown), i, cooldown);
    } else {
      var t1 := StepOf(t, i, cooldown);
      var t2 := StepOf(t1, i, cooldown);
      var t3 := StepOf(t2, i, cooldown);
      OneStep(t2, i, cooldown);
      assert Steps(t1, i, 2, cooldown) == Steps(t2, i, 1, cooldown);
      assert Steps(t, i, 3, cooldown) == Steps(t1, i, 2, cooldown);
      if cooldown <= s.now - s.last.value {
        FiveSteps(t3, i, cooldown);
      }
    }
  }

  lemma OneStep(s: State, i: nat, cooldown: real)
    requires Enabled(s, Step(i))
    ensures Steps(s, i, 1, cooldown) == Some(StepOf(s, i, cooldown))
  {
    assert Steps(StepOf(s, i, cooldown), i, 0, cooldown) == Some(StepOf(s, i, cooldown));
  }

  /** After its `checks` steps of checking, the job goes for the lock, starts a run stamped now and ends. */
  ghost predicate StartsAtOnce(t: State, i: nat, checks: nat, cooldown: real) {
    var u := Steps(t, i, checks, cooldown);
    && u.Some? && i < |u.value.jobs| && u.value.jobs[i].phase.Wanting? && u.value.starts == t.starts
    && var v := Steps(u.value, i, 5, cooldown);
       v.Some? && v.value.lock.None? && v.value.last == Some(t.now) && |v.value.starts| == |t.starts| + 1
       && v.value.starts[|t.starts|].time == t.now && v.value.starts[|t.starts|].drift
  }

  /** The weekly job knows no cooldown: with the lock free it starts, whenever the last run was; with the lock
      held it gives up. */
  lemma WeeklyKnowsNoCooldown(s: State, cooldown: real)
    ensures var i, t := |s.jobs|, Do(s, WeeklyDue, cooldown);
            && (s.lock.None? ==>
                  var v := Steps(t, i, 5, cooldown);
                  v.Some? && v.value.lock.None? && v.value.last == Some(s.now) && |v.value.starts| == |s.starts| + 1)
            && (s.lock.Some? ==>
                  var v := Steps(t, i, 1, cooldown);
                  v.Some? && v.value.jobs[i].phase == Done && v.value.starts == s.starts && v.value.lock == s.lock)
  {
    var i, t := |s.jobs|, Do(s, WeeklyDue, cooldown);
    if s.lock.None? { FiveSteps(t, i, cooldown); } else { OneStep(t, i, cooldown); }
  }

  /** The cooldown ends: once it is over, a drift check starts a run again. */
  lemma CooldownEnds(s: State, cooldown: real)
    requires StampsOk(s) && s.lock.None? && s.last.Some? && s.now <= s.last.value + cooldown
    ensures Enabled(s, Tick(s.last.value + cooldown))
    ensures var t := Do(s, Tick(s.last.value + cooldown), cooldown);
            t.now == s.last.value + cooldown && StartsAtOnce(Do(t, DriftFound, cooldown), |s.jobs|, 3, cooldown)
  {
    UndisturbedDrift(Do(s, Tick(s.last.value + cooldown), cooldown), cooldown);
  }
}
