/** The drift report over the monitored features, the trainer's first gate (services/trainer/app/promote.py). */
module DriftReport {
  import opened Options

  /** A monitored feature with its PSI, in the order they are computed. */
  datatype Score = Score(feature: string, psi: real)

  datatype Report = Report(drifted: seq<string>, maxPsi: real, worst: Option<string>, passed: bool)

  function Drifted(scores: seq<Score>, threshold: real): seq<string> {
    if scores == [] then []
    else Drifted(scores[..|scores| - 1], threshold)
         + (if threshold < scores[|scores| - 1].psi then [scores[|scores| - 1].feature] else [])
  }

  /** `i` is the first feature with the greatest PSI. */
  ghost predicate IsWorst(scores: seq<Score>, i: int) {
    && 0 <= i < |scores|
    && (forall j | 0 <= j < |scores| :: scores[j].psi <= scores[i].psi)
    && (forall j | 0 <= j < i :: scores[j].psi < scores[i].psi)
  }

  /** The list names the features above the threshold and no others, in their order. */
  lemma {:induction false} DriftedOfParts(a: seq<Score>, b: seq<Score>, s: Score, threshold: real)
    ensures Drifted(a + b, threshold) == Drifted(a, threshold) + Drifted(b, threshold)
    ensures Drifted([], threshold) == []
    ensures Drifted([s], threshold) == if s.psi > threshold then [s.feature] else []
    decreases |b|
  {
    if b == [] {
      assert a + b == a;
    } else {
      DriftedOfParts(a, b[..|b| - 1], s, threshold);
      assert (a + b)[..|a + b| - 1] == a + b[..|b| - 1];
    }
    assert [s][..0] == [];
  }

  lemma {:induction false} DriftedIsEmptyIff(scores: seq<Score>, threshold: real)
    ensures Drifted(scores, threshold) == [] <==> forall i | 0 <= i < |scores| :: scores[i].psi <= threshold
  {
    if scores != [] {
      var init := scores[..|scores| - 1];
      DriftedIsEmptyIff(init, threshold);
      assert forall i | 0 <= i < |init| :: init[i] == scores[i];
    }
  }

  /** The gate passes exactly when no PSI is above the threshold, which the reported maximum decides. */
  method ComputeDrift(scores: seq<Score>, threshold: real) returns (r: Report)
    ensures r.drifted == Drifted(scores, threshold)
    ensures r.passed <==> forall i | 0 <= i < |scores| :: scores[i].psi <= threshold
    ensures scores == [] ==> r.maxPsi == 0.0 && r.worst == None
    ensures scores != [] ==> exists i ::
        IsWorst(scores, i) && r.maxPsi == scores[i].psi && r.worst == Some(scores[i].feature)
    ensures scores != [] ==> (r.passed <==> r.maxPsi <= threshold)
  {
    var drifted: seq<string> := [];
    for i := 0 to |scores|
      invariant drifted == Drifted(scores[..i], threshold)
    {
      assert scores[..i + 1][..i] == scores[..i];
      if threshold < scores[i].psi {
        drifted := drifted + [scores[i].feature];
      }
    }
    assert scores[..|scores|] == scores;
    DriftedIsEmptyIff(scores, threshold);
    if scores == [] {
      return Report(drifted, 0.0, None, |drifted| == 0);
    }
    var worst := 0;
    for i := 1 to |scores|
      invariant IsWorst(scores[..i], worst)
    {
      if scores[worst].psi < scores[i].psi {
        worst := i;
      }
    }
    assert IsWorst(scores, worst);
    r := Report(drifted, scores[worst].psi, Some(scores[worst].feature), |drifted| == 0);
  }
}
