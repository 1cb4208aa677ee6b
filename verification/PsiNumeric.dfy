/** PSI of a numeric feature: bins at the training percentiles (services/trainer/app/promote.py). */
module PsiNumeric {
  import opened Options
  import opened PsiTerms

  const N_BINS: nat := 10
  const MIN_TRAIN: nat := 10
  const MIN_VAL: nat := 5

  /** The values that are not NaN; a NaN is `None`. */
  function Known(vals: seq<Option<real>>): seq<real> {
    if vals == [] then []
    else (if vals[0].Some? then [vals[0].value] else []) + Known(vals[1..])
  }

  // ---------------------------------------------------------------- percentiles

  ghost predicate Ordered(s: seq<real>) {
    forall i, j | 0 <= i < j < |s| :: s[i] <= s[j]
  }

  ghost predicate Increasing(s: seq<real>) {
    forall i, j | 0 <= i < j < |s| :: s[i] < s[j]
  }

  function Insert(x: real, s: seq<real>): seq<real> {
    if s == [] || x <= s[0] then [x] + s else [s[0]] + Insert(x, s[1..])
  }

  function Sort(vals: seq<real>): seq<real> {
    if vals == [] then [] else Insert(vals[0], Sort(vals[1..]))
  }

  lemma {:induction false} InsertAdds(x: real, s: seq<real>)
    ensures multiset(Insert(x, s)) == multiset{x} + multiset(s)
  {
    if s != [] && s[0] < x {
      InsertAdds(x, s[1..]);
      assert s == [s[0]] + s[1..];
    }
  }

  lemma {:induction false} InsertKeepsOrder(x: real, s: seq<real>)
    requires Ordered(s)
    ensures Ordered(Insert(x, s))
  {
    if s != [] && s[0] < x {
      var rest := Insert(x, s[1..]);
      InsertKeepsOrder(x, s[1..]);
      InsertAdds(x, s[1..]);
      forall v | v in multiset(rest) ensures s[0] <= v {
        assert v == x || v in multiset(s[1..]);
      }
      LeastGoesFirst(s[0], rest);
    }
  }

  lemma LeastGoesFirst(h: real, rest: seq<real>)
    requires Ordered(rest) && forall v | v in multiset(rest) :: h <= v
    ensures Ordered([h] + rest)
  {
    forall j | 0 <= j < |rest| ensures h <= rest[j] { assert rest[j] in multiset(rest); }
  }

  lemma {:induction false} SortSorts(vals: seq<real>)
    ensures Ordered(Sort(vals)) && multiset(Sort(vals)) == multiset(vals)
  {
    if vals != [] {
      SortSorts(vals[1..]);
      InsertKeepsOrder(vals[0], Sort(vals[1..]));
      InsertAdds(vals[0], Sort(vals[1..]));
      assert vals == [vals[0]] + vals[1..];
    }
  }

  /** The place below the k-th of N_BINS percentiles, and the tenths beyond it. */
  function Floor(n: nat, k: nat): nat
    requires 0 < n
  {
    k * (n - 1) / N_BINS
  }

  function Tenths(n: nat, k: nat): nat
    requires 0 < n
  {
    k * (n - 1) % N_BINS
  }

  lemma FloorFits(n: nat, k: nat)
    requires 0 < n && k <= N_BINS
    ensures Floor(n, k) <= n - 1
    ensures 0 < Tenths(n, k) ==> Floor(n, k) < n - 1
  {
    assert k * (n - 1) <= N_BINS * (n - 1);
  }

  lemma FloorGrows(n: nat, k: nat)
    requires 0 < n
    ensures Floor(n, k) < Floor(n, k + 1) || (Floor(n, k) == Floor(n, k + 1) && Tenths(n, k) <= Tenths(n, k + 1))
  {
    assert (k + 1) * (n - 1) == k * (n - 1) + (n - 1);
    var a, b := k * (n - 1), (k + 1) * (n - 1);
    assert a <= b;
  }

  /** The point `r` tenths of the way from a to b. */
  function Between(a: real, b: real, r: nat): real {
    a + (r as real / 10.0) * (b - a)
  }

  lemma NoNegativeProduct(x: real, d: real)
    requires 0.0 <= x && 0.0 <= d
    ensures 0.0 <= x * d
  {
  }

  lemma ProductsGrow(x: real, y: real, d: real)
    requires 0.0 <= x <= y <= 1.0 && 0.0 <= d
    ensures 0.0 <= x * d <= y * d <= d
  {
    NoNegativeProduct(x, d);
    NoNegativeProduct(y - x, d);
    NoNegativeProduct(1.0 - y, d);
    assert (y - x) * d == y * d - x * d;
    assert (1.0 - y) * d == d - y * d;
  }

  lemma BetweenGrows(a: real, b: real, r: nat, q: nat)
    requires r <= q < N_BINS && a <= b
    ensures a <= Between(a, b, r) <= Between(a, b, q) <= b
  {
    var x, y, d := r as real / 10.0, q as real / 10.0, b - a;
    assert 0.0 <= x <= y <= 1.0;
    ProductsGrow(x, y, d);
    assert Between(a, b, r) == a + x * d && Between(a, b, q) == a + y * d && b == a + d;
  }

  /** A percentile: linear interpolation between two neighbours of the sorted values. */
  function Percentile(s: seq<real>, k: nat): real
    requires s != [] && k <= N_BINS
  {
    FloorFits(|s|, k);
    var i, r := Floor(|s|, k), Tenths(|s|, k);
    if r == 0 then s[i] else Between(s[i], s[i + 1], r)
  }

  lemma PercentileIsBetween(s: seq<real>, k: nat)
    requires s != [] && Ordered(s) && k <= N_BINS
    ensures Floor(|s|, k) < |s| && s[Floor(|s|, k)] <= Percentile(s, k)
    ensures Floor(|s|, k) + 1 < |s| ==> Percentile(s, k) <= s[Floor(|s|, k) + 1]
  {
    FloorFits(|s|, k);
    var i, r := Floor(|s|, k), Tenths(|s|, k);
    if i + 1 < |s| {
      assert s[i] <= s[i + 1];
      BetweenGrows(s[i], s[i + 1], r, r);
    }
  }

  lemma PercentilesGrow(s: seq<real>, k: nat)
    requires s != [] && Ordered(s) && k < N_BINS
    ensures Percentile(s, k) <= Percentile(s, k + 1)
  {
    FloorGrows(|s|, k);
    FloorFits(|s|, k);
    FloorFits(|s|, k + 1);
    PercentileIsBetween(s, k);
    PercentileIsBetween(s, k + 1);
    var i, j := Floor(|s|, k), Floor(|s|, k + 1);
    if i < j {
      assert s[i + 1] <= s[j];
    } else if 0 < Tenths(|s|, k) {
      BetweenGrows(s[i], s[i + 1], Tenths(|s|, k), Tenths(|s|, k + 1));
    }
  }

  function Percentiles(s: seq<real>): (p: seq<real>)
    requires s != []
    ensures |p| == N_BINS + 1
  {
    seq(N_BINS + 1, k requires 0 <= k <= N_BINS => Percentile(s, k))
  }

  lemma {:induction false} PercentilesFrom(s: seq<real>, i: nat, j: nat)
    requires s != [] && Ordered(s) && i <= j <= N_BINS
    ensures Percentile(s, i) <= Percentile(s, j)
    decreases j
  {
    if i < j {
      PercentilesFrom(s, i, j - 1);
      PercentilesGrow(s, j - 1);
    }
  }

  // ---------------------------------------------------------------- edges

  /** Equal neighbours collapse into one. */
  function Distinct(s: seq<real>): seq<real> {
    if |s| <= 1 then s
    else
      var init := Distinct(s[..|s| - 1]);
      if s[|s| - 1] == s[|s| - 2] then init else init + [s[|s| - 1]]
  }

  lemma {:induction false} DistinctIncreases(s: seq<real>)
    requires s != [] && Ordered(s)
    ensures Distinct(s) != [] && Increasing(Distinct(s))
    ensures Distinct(s)[0] == s[0] && Distinct(s)[|Distinct(s)| - 1] == s[|s| - 1]
  {
    if 1 < |s| {
      DistinctIncreases(s[..|s| - 1]);
    }
  }

  function Edges(train: seq<real>): seq<real>
    requires train != []
  {
    SortSorts(train);
    assert train[0] in multiset(train);
    Distinct(Percentiles(Sort(train)))
  }

  /** The edges increase, and run from the least to the greatest training value. */
  lemma EdgesSpanTrain(train: seq<real>)
    requires train != []
    ensures var e := Edges(train); e != [] && Increasing(e) && forall v | v in train :: e[0] <= v <= e[|e| - 1]
  {
    SortSorts(train);
    var s := Sort(train);
    assert train[0] in multiset(s);
    var p := Percentiles(s);
    forall i, j | 0 <= i < j < |p| ensures p[i] <= p[j] {
      PercentilesFrom(s, i, j);
    }
    DistinctIncreases(p);
    assert Floor(|s|, N_BINS) == |s| - 1 && Tenths(|s|, N_BINS) == 0 by {
      assert N_BINS * (|s| - 1) / N_BINS == |s| - 1;
    }
    assert Floor(|s|, 0) == 0 && Tenths(|s|, 0) == 0;
    forall v | v in train ensures s[0] <= v <= s[|s| - 1] {
      assert v in multiset(s);
      var i :| 0 <= i < |s| && s[i] == v;
    }
  }

  // ---------------------------------------------------------------- the histogram

  /** Every bin is closed below and open above, except the last, which is closed. */
  predicate InBin(v: real, edges: seq<real>, j: nat) {
    j + 1 < |edges| && edges[j] <= v && (v < edges[j + 1] || (j + 2 == |edges| && v == edges[j + 1]))
  }

  predicate InRange(v: real, edges: seq<real>) {
    edges != [] && edges[0] <= v <= edges[|edges| - 1]
  }

  function CountBin(vals: seq<real>, edges: seq<real>, j: nat): nat {
    if vals == [] then 0 else CountBin(vals[1..], edges, j) + (if InBin(vals[0], edges, j) then 1 else 0)
  }

  function CountRange(vals: seq<real>, edges: seq<real>): nat {
    if vals == [] then 0 else CountRange(vals[1..], edges) + (if InRange(vals[0], edges) then 1 else 0)
  }

  /** The counts of the first `m` bins, added up. */
  function CountBins(vals: seq<real>, edges: seq<real>, m: nat): nat {
    if m == 0 then 0 else CountBins(vals, edges, m - 1) + CountBin(vals, edges, m - 1)
  }

  /** In how many of the first `m` bins a value lies. */
  function BinsOf(v: real, edges: seq<real>, m: nat): nat {
    if m == 0 then 0 else BinsOf(v, edges, m - 1) + (if InBin(v, edges, m - 1) then 1 else 0)
  }

  lemma {:induction false} OneBinEach(v: real, edges: seq<real>, m: nat)
    requires Increasing(edges) && 1 <= m < |edges|
    ensures BinsOf(v, edges, m) ==
            if edges[0] <= v && (v < edges[m] || (m + 1 == |edges| && v == edges[m])) then 1 else 0
    decreases m
  {
    if 1 < m {
      OneBinEach(v, edges, m - 1);
      assert edges[0] < edges[m - 1] < edges[m];
    } else {
      assert BinsOf(v, edges, 0) == 0;
    }
  }

  lemma {:induction false} CountBinsCons(vals: seq<real>, edges: seq<real>, m: nat)
    requires vals != []
    ensures CountBins(vals, edges, m) == CountBins(vals[1..], edges, m) + BinsOf(vals[0], edges, m)
  {
    if 0 < m {
      CountBinsCons(vals, edges, m - 1);
    }
  }

  lemma {:induction false} CountBinsOfNone(edges: seq<real>, m: nat)
    ensures CountBins([], edges, m) == 0
  {
    if 0 < m {
      CountBinsOfNone(edges, m - 1);
    }
  }

  /** The histogram counts every value in range once and no other value. */
  lemma {:induction false} HistogramCountsRange(vals: seq<real>, edges: seq<real>)
    requires Increasing(edges) && 2 <= |edges|
    ensures CountBins(vals, edges, |edges| - 1) == CountRange(vals, edges)
    decreases |vals|
  {
    if vals == [] {
      CountBinsOfNone(edges, |edges| - 1);
    } else {
      HistogramCountsRange(vals[1..], edges);
      CountBinsCons(vals, edges, |edges| - 1);
      OneBinEach(vals[0], edges, |edges| - 1);
    }
  }

  lemma {:induction false} CountRangeAll(vals: seq<real>, edges: seq<real>)
    ensures CountRange(vals, edges) <= |vals|
    ensures CountRange(vals, edges) == |vals| <==> forall v | v in vals :: InRange(v, edges)
  {
    if vals != [] {
      CountRangeAll(vals[1..], edges);
      assert vals == [vals[0]] + vals[1..];
    }
  }

  // ---------------------------------------------------------------- the index

  function SumTo(m: nat, f: nat -> real): real {
    if m == 0 then 0.0 else SumTo(m - 1, f) + f(m - 1)
  }

  function ShareOf(vals: seq<real>, edges: seq<real>): nat -> real
    requires 2 <= |edges|
  {
    (j: nat) => Smooth(CountBin(vals, edges, j), |vals|, |edges| - 1)
  }

  function TermOf(ln: real -> real, train: seq<real>, val: seq<real>, edges: seq<real>): nat -> real
    requires 2 <= |edges|
  {
    (j: nat) => Term(ln, Smooth(CountBin(train, edges, j), |train|, |edges| - 1),
                         Smooth(CountBin(val, edges, j), |val|, |edges| - 1))
  }

  /** Too few values on either side, or a nearly constant feature, count as no drift. */
  predicate TooSparse(train: seq<real>, val: seq<real>) {
    |train| < MIN_TRAIN || |val| < MIN_VAL || |Edges(train)| < 3
  }

  function Psi(ln: real -> real, trainVals: seq<Option<real>>, valVals: seq<Option<real>>): real {
    var train, val := Known(trainVals), Known(valVals);
    if TooSparse(train, val) then 0.0
    else SumTo(|Edges(train)| - 1, TermOf(ln, train, val, Edges(train)))
  }

  // ---------------------------------------------------------------- the laws

  lemma {:induction false} SharesTo(vals: seq<real>, edges: seq<real>, m: nat)
    requires 1 <= m < |edges|
    ensures SumTo(m, ShareOf(vals, edges)) ==
            (CountBins(vals, edges, m) as real + PSI_EPS * m as real) / Total(|vals|, |edges| - 1)
    decreases m
  {
    var share := ShareOf(vals, edges);
    assert SumTo(0, share) == 0.0;
    if 1 < m {
      SharesTo(vals, edges, m - 1);
      QuotientsAdd(CountBins(vals, edges, m - 1) as real + PSI_EPS * (m - 1) as real,
                   CountBin(vals, edges, m - 1) as real + PSI_EPS, Total(|vals|, |edges| - 1));
    } else {
      assert CountBins(vals, edges, 0) == 0;
    }
  }

  lemma QuotientAgainstOne(a: real, d: real)
    requires 0.0 < a && 0.0 < d
    ensures a <= d ==> a / d <= 1.0
    ensures a / d == 1.0 <==> a == d
  {
    RatioAboveOne(a, d);
    Quotient(a, d);
  }

  /** The smoothed proportions over the bins sum to at most one, and to exactly one when, and only when,
      no value falls outside the training range. */
  lemma SharesSum(vals: seq<real>, edges: seq<real>)
    requires Increasing(edges) && 2 <= |edges|
    ensures SumTo(|edges| - 1, ShareOf(vals, edges)) <= 1.0
    ensures SumTo(|edges| - 1, ShareOf(vals, edges)) == 1.0 <==> forall v | v in vals :: InRange(v, edges)
  {
    var m := |edges| - 1;
    SharesTo(vals, edges, m);
    HistogramCountsRange(vals, edges);
    CountRangeAll(vals, edges);
    QuotientAgainstOne(CountRange(vals, edges) as real + PSI_EPS * m as real, Total(|vals|, m));
  }

  /** For the training side nothing ever falls outside: its proportions sum to one. */
  lemma TrainSharesSumToOne(train: seq<real>, val: seq<real>)
    requires !TooSparse(train, val)
    ensures SumTo(|Edges(train)| - 1, ShareOf(train, Edges(train))) == 1.0
    ensures SumTo(|Edges(train)| - 1, ShareOf(val, Edges(train))) <= 1.0
  {
    EdgesSpanTrain(train);
    SharesSum(train, Edges(train));
    SharesSum(val, Edges(train));
  }

  lemma {:induction false} SumOfNonNegatives(m: nat, f: nat -> real)
    requires forall j | 0 <= j < m :: 0.0 <= f(j)
    ensures 0.0 <= SumTo(m, f)
    ensures SumTo(m, f) == 0.0 <==> forall j | 0 <= j < m :: f(j) == 0.0
  {
    if 0 < m {
      SumOfNonNegatives(m - 1, f);
    }
  }

  ghost predicate SameShares(train: seq<real>, val: seq<real>, edges: seq<real>)
    requires 2 <= |edges|
  {
    forall j: nat | j < |edges| - 1 :: ShareOf(train, edges)(j) == ShareOf(val, edges)(j)
  }

  /** PSI is never negative; with enough data it is zero exactly when every bin has the same smoothed share
      on both sides. */
  lemma PsiIsNonNegative(ln: real -> real, trainVals: seq<Option<real>>, valVals: seq<Option<real>>)
    requires IsLog(ln)
    ensures 0.0 <= Psi(ln, trainVals, valVals)
    ensures var train, val := Known(trainVals), Known(valVals);
            !TooSparse(train, val) ==>
              (Psi(ln, trainVals, valVals) == 0.0 <==> SameShares(train, val, Edges(train)))
  {
    var train, val := Known(trainVals), Known(valVals);
    if !TooSparse(train, val) {
      var edges := Edges(train);
      var f := TermOf(ln, train, val, edges);
      forall j: nat | j < |edges| - 1
        ensures 0.0 <= f(j) && (f(j) == 0.0 <==> ShareOf(train, edges)(j) == ShareOf(val, edges)(j))
      {
        TermIsNonNegative(ln, Smooth(CountBin(train, edges, j), |train|, |edges| - 1),
                              Smooth(CountBin(val, edges, j), |val|, |edges| - 1));
      }
      SumOfNonNegatives(|edges| - 1, f);
    }
  }

  ghost predicate SameCounts(train: seq<real>, val: seq<real>, edges: seq<real>) {
    forall j: nat | j < |edges| - 1 :: CountBin(train, edges, j) == CountBin(val, edges, j)
  }

  lemma SameSharesIffSameCounts(train: seq<real>, val: seq<real>, edges: seq<real>)
    requires 2 <= |edges| && |train| == |val|
    ensures SameShares(train, val, edges) <==> SameCounts(train, val, edges)
  {
    var bins := |edges| - 1;
    if SameShares(train, val, edges) {
      forall j: nat | j < bins ensures CountBin(train, edges, j) == CountBin(val, edges, j) {
        assert ShareOf(train, edges)(j) == ShareOf(val, edges)(j);
        SmoothIsInjective(CountBin(train, edges, j), CountBin(val, edges, j), |train|, bins);
      }
    }
  }

  /** On samples of one size and with enough data, PSI is zero exactly when both fill every bin alike. */
  lemma ZeroIffSameHistogram(ln: real -> real, trainVals: seq<Option<real>>, valVals: seq<Option<real>>)
    requires IsLog(ln)
    requires var train, val := Known(trainVals), Known(valVals); !TooSparse(train, val) && |train| == |val|
    ensures var train, val := Known(trainVals), Known(valVals);
            Psi(ln, trainVals, valVals) == 0.0 <==> SameCounts(train, val, Edges(train))
  {
    PsiIsNonNegative(ln, trainVals, valVals);
    SameSharesIffSameCounts(Known(trainVals), Known(valVals), Edges(Known(trainVals)));
  }

  // ---------------------------------------------------------------- spelled out

  /** Dropping NaNs, piece by piece. */
  lemma {:induction false} KnownOfParts(a: seq<Option<real>>, b: seq<Option<real>>)
    ensures Known(a + b) == Known(a) + Known(b)
  {
    if a == [] {
      assert a + b == b;
    } else {
      var x, rest := a[0], a[1..];
      KnownOfParts(rest, b);
      assert a == [x] + rest && a + b == [x] + (rest + b);
      KnownCons(x, rest);
      KnownCons(x, rest + b);
      Associates(if x.Some? then [x.value] else [], Known(rest), Known(b));
    }
  }

  lemma Associates(a: seq<real>, b: seq<real>, c: seq<real>)
    ensures (a + b) + c == a + (b + c)
  {
  }

  lemma KnownCons(x: Option<real>, rest: seq<Option<real>>)
    ensures Known([x] + rest) == (if x.Some? then [x.value] else []) + Known(rest)
  {
    var all := [x] + rest;
    assert all[0] == x && all[1..] == rest;
  }

  lemma KnownOfOne(x: real)
    ensures Known([]) == [] && Known([None]) == [] && Known([Some(x)]) == [x]
  {
    var one: seq<Option<real>> := [Some(x)];
    var nan: seq<Option<real>> := [None];
    assert one[1..] == [] && nan[1..] == [];
  }

  /** The k-th percentile stands k tenths of the way along the sorted values, in proportion between its two
      neighbours. */
  lemma PercentileIsLinear(s: seq<real>, k: nat) returns (i: nat, r: nat)
    requires s != [] && k <= 10
    ensures 10 * i + r == k * (|s| - 1) && r < 10 && i < |s| && (0 < r ==> i + 1 < |s|)
    ensures 10.0 * Percentile(s, k) ==
            (10 - r) as real * s[i] + r as real * (if 0 < r then s[i + 1] else s[i])
  {
    FloorFits(|s|, k);
    i, r := Floor(|s|, k), Tenths(|s|, k);
    if 0 < r {
      TenthsSpread(s[i], s[i + 1], r as real);
    }
  }

  lemma TenthsSpread(a: real, b: real, x: real)
    ensures 10.0 * (a + (x / 10.0) * (b - a)) == (10.0 - x) * a + x * b
  {
    var y := x / 10.0;
    assert 10.0 * (a + y * (b - a)) == 10.0 * a + (10.0 * y) * (b - a);
  }

  lemma {:induction false} DistinctHas(s: seq<real>, v: real)
    requires s != []
    ensures v in Distinct(s) <==> v in s
  {
    if 1 < |s| {
      DistinctHas(s[..|s| - 1], v);
      assert s == s[..|s| - 1] + [s[|s| - 1]];
      assert s[|s| - 2] == s[..|s| - 1][|s| - 2];
    }
  }

  /** The edges are the eleven percentiles, each once. */
  lemma EdgesArePercentiles(train: seq<real>, v: real)
    requires train != []
    ensures Sort(train) != [] && (v in Edges(train) <==> exists k: nat | k <= 10 :: v == Percentile(Sort(train), k))
  {
    SortSorts(train);
    assert train[0] in multiset(Sort(train));
    DistinctHas(Percentiles(Sort(train)), v);
    if v in Edges(train) {
      var k :| 0 <= k <= 10 && Percentiles(Sort(train))[k] == v;
    }
    if k: nat :| k <= 10 && v == Percentile(Sort(train), k) {
      assert Percentiles(Sort(train))[k] == v;
    }
  }

  /** A value on an edge is counted in the bin the edge opens, and on the last edge in the last bin. */
  lemma EdgeOpensItsBin(edges: seq<real>, j: nat, k: nat)
    requires Increasing(edges) && 2 <= |edges| && j < |edges|
    ensures InBin(edges[j], edges, k) <==> k == if j + 1 < |edges| then j else j - 1
  {
    if k + 1 < |edges| {
      assert k < j ==> edges[k] < edges[j];
      assert j < k ==> edges[j] < edges[k];
      assert j < k + 1 ==> edges[j] < edges[k + 1];
      assert k + 1 < j ==> edges[k + 1] < edges[j];
    }
  }

  /** No drift is reported below ten training values, five validation values or two bins. */
  lemma SparseMeansNoDrift(ln: real -> real, trainVals: seq<Option<real>>, valVals: seq<Option<real>>)
    ensures var train, val := Known(trainVals), Known(valVals);
            (|train| < 10 || |val| < 5 ==> Psi(ln, trainVals, valVals) == 0.0)
            && (10 <= |train| && 5 <= |val| ==>
                  if |Edges(train)| < 3 then Psi(ln, trainVals, valVals) == 0.0 else !TooSparse(train, val))
  {
  }

  /** The bins' smoothed proportions, from their counts, the sample size and the number of bins. */
  function Proportions(vals: seq<real>, edges: seq<real>): nat -> real
    requires 2 <= |edges|
  {
    (j: nat) => (CountBin(vals, edges, j) as real + 0.5) / (|vals| as real + 0.5 * (|edges| - 1) as real)
  }

  function EntropyOf(ln: real -> real, p: nat -> real, q: nat -> real): nat -> real {
    (j: nat) => if 0.0 < p(j) && 0.0 < q(j) then p(j) * ln(p(j) / q(j)) else 0.0
  }

  lemma {:induction false} SumToAdds(m: nat, f: nat -> real, g: nat -> real, h: nat -> real)
    requires forall j: nat | j < m :: h(j) == f(j) + g(j)
    ensures SumTo(m, h) == SumTo(m, f) + SumTo(m, g)
  {
    if 0 < m {
      SumToAdds(m - 1, f, g, h);
    }
  }

  lemma TermParts(ln: real -> real, p: nat -> real, q: nat -> real, j: nat)
    requires IsLog(ln) && 0.0 < p(j) && 0.0 < q(j)
    ensures Term(ln, p(j), q(j)) == EntropyOf(ln, q, p)(j) + EntropyOf(ln, p, q)(j)
  {
    var x, y := p(j), q(j);
    TermIsBothEntropies(ln, x, y);
    assert EntropyOf(ln, q, p)(j) == y * ln(y / x);
    assert EntropyOf(ln, p, q)(j) == x * ln(x / y);
  }

  lemma SumOfTerms(m: nat, ln: real -> real, p: nat -> real, q: nat -> real, h: nat -> real)
    requires IsLog(ln) && forall j: nat | j < m :: 0.0 < p(j) && 0.0 < q(j) && h(j) == Term(ln, p(j), q(j))
    ensures SumTo(m, h) == SumTo(m, EntropyOf(ln, q, p)) + SumTo(m, EntropyOf(ln, p, q))
  {
    var f, g := EntropyOf(ln, q, p), EntropyOf(ln, p, q);
    forall j: nat | j < m ensures h(j) == f(j) + g(j) {
      TermParts(ln, p, q, j);
    }
    SumToAdds(m, f, g, h);
  }

  lemma BinShare(vals: seq<real>, edges: seq<real>, j: nat)
    requires 2 <= |edges|
    ensures Smooth(CountBin(vals, edges, j), |vals|, |edges| - 1) == Proportions(vals, edges)(j)
    ensures 0.0 < Proportions(vals, edges)(j)
  {
    SmoothSpelledOut(CountBin(vals, edges, j), |vals|, |edges| - 1);
  }

  /** With enough data the index is the sum of the two relative entropies between the smoothed histograms. */
  lemma PsiIsBothEntropies(ln: real -> real, trainVals: seq<Option<real>>, valVals: seq<Option<real>>)
    requires IsLog(ln) && !TooSparse(Known(trainVals), Known(valVals))
    ensures var train, val := Known(trainVals), Known(valVals);
            var edges := Edges(train);
            var p, q := Proportions(train, edges), Proportions(val, edges);
            Psi(ln, trainVals, valVals) ==
              SumTo(|edges| - 1, EntropyOf(ln, q, p)) + SumTo(|edges| - 1, EntropyOf(ln, p, q))
  {
    var train, val := Known(trainVals), Known(valVals);
    HistogramEntropies(ln, train, val, Edges(train));
  }

  lemma HistogramEntropies(ln: real -> real, train: seq<real>, val: seq<real>, edges: seq<real>)
    requires IsLog(ln) && 2 <= |edges|
    ensures var p, q := Proportions(train, edges), Proportions(val, edges);
            SumTo(|edges| - 1, TermOf(ln, train, val, edges)) ==
              SumTo(|edges| - 1, EntropyOf(ln, q, p)) + SumTo(|edges| - 1, EntropyOf(ln, p, q))
  {
    var bins := |edges| - 1;
    forall j: nat | j < bins
      ensures TermOf(ln, train, val, edges)(j)
           == Term(ln, Smooth(CountBin(train, edges, j), |train|, bins), Smooth(CountBin(val, edges, j), |val|, bins))
      ensures Smooth(CountBin(train, edges, j), |train|, bins) == Proportions(train, edges)(j) > 0.0
      ensures Smooth(CountBin(val, edges, j), |val|, bins) == Proportions(val, edges)(j) > 0.0
    {
      BinShare(train, edges, j);
      BinShare(val, edges, j);
    }
    SumOfTerms(bins, ln, Proportions(train, edges), Proportions(val, edges), TermOf(ln, train, val, edges));
  }
}
