/** The feature registry and the writers that share a route's hash
    (libs/common/common/features/registry.py, services/worker/app/feature_store.py,
    services/worker/app/stream_features/redis_ops.py). */
module FeatureRegistry {
  import opened RouteHash

  datatype Source = Batch | Stream

  datatype Feature = Feature(name: Field, source: Source)

  datatype Built = Registry(features: seq<Feature>, byName: map<Field, Feature>) | Duplicates(names: seq<Field>)

  ghost predicate DistinctNames(fs: seq<Feature>) {
    forall i, j | 0 <= i < j < |fs| :: fs[i].name != fs[j].name
  }

  /** {f.name: f for f in features}: a later feature replaces an earlier one of its name. */
  function ByName(fs: seq<Feature>): (m: map<Field, Feature>)
    ensures forall x :: x in m <==> Occurs(fs, x)
    ensures forall x | x in m :: m[x] in fs && m[x].name == x
    ensures |m| <= |fs|
  {
    if fs == [] then map[]
    else
      var init, last := fs[..|fs| - 1], fs[|fs| - 1];
      assert fs == init + [last];
      var m := ByName(init);
      assert (m[last.name := last]).Keys == m.Keys + {last.name};
      m[last.name := last]
  }

  /** The names that occur again after their first occurrence, in order. */
  function Repeats(fs: seq<Feature>): seq<Field> {
    if fs == [] then []
    else
      var init, last := fs[..|fs| - 1], fs[|fs| - 1];
      Repeats(init) + (if Occurs(init, last.name) then [last.name] else [])
  }

  /** How many features have this name. */
  function Times(fs: seq<Feature>, name: Field): nat {
    if fs == [] then 0 else Times(fs[..|fs| - 1], name) + (if fs[|fs| - 1].name == name then 1 else 0)
  }

  /** Every name is reported once for each time it occurs again, and the report of a longer list goes on from
      that of a shorter one. */
  lemma {:induction false} RepeatsOf(fs: seq<Feature>, name: Field)
    ensures multiset(Repeats(fs))[name] == if Times(fs, name) == 0 then 0 else Times(fs, name) - 1
    ensures Times(fs, name) == 0 <==> !Occurs(fs, name)
    ensures fs != [] ==> Repeats(fs[..|fs| - 1]) <= Repeats(fs)
  {
    if fs != [] {
      RepeatsOf(fs[..|fs| - 1], name);
      OccursSnoc(fs);
    }
  }

  predicate Occurs(fs: seq<Feature>, name: Field) {
    exists f :: f in fs && f.name == name
  }

  lemma OccursSnoc(fs: seq<Feature>)
    requires fs != []
    ensures forall x :: Occurs(fs, x) <==> Occurs(fs[..|fs| - 1], x) || x == fs[|fs| - 1].name
  {
    var init, last := fs[..|fs| - 1], fs[|fs| - 1];
    assert fs == init + [last];
    forall x ensures Occurs(fs, x) <==> Occurs(init, x) || x == last.name {
      if x == last.name { assert last in fs; }
      if Occurs(init, x) {
        var f :| f in init && f.name == x;
        assert f in fs;
      }
    }
  }

  lemma DistinctSnoc(fs: seq<Feature>)
    requires fs != []
    ensures var init, last := fs[..|fs| - 1], fs[|fs| - 1];
            DistinctNames(fs) <==> DistinctNames(init) && !Occurs(init, last.name)
  {
    var init, last := fs[..|fs| - 1], fs[|fs| - 1];
    if Occurs(init, last.name) {
      var i :| 0 <= i < |init| && init[i].name == last.name;
      assert fs[i].name == fs[|init|].name;
    } else {
      forall i | 0 <= i < |init| ensures fs[i].name != last.name { assert init[i] in init; }
      if DistinctNames(init) {
        forall i, j | 0 <= i < j < |fs| ensures fs[i].name != fs[j].name {
          if j < |init| { assert init[i].name != init[j].name; }
        }
      }
    }
    if DistinctNames(fs) {
      forall i, j | 0 <= i < j < |init| ensures init[i].name != init[j].name { assert fs[i].name != fs[j].name; }
    }
  }

  lemma ByNameSnoc(fs: seq<Feature>)
    requires fs != []
    ensures var init, last := fs[..|fs| - 1], fs[|fs| - 1];
            |ByName(fs)| == |ByName(init)| + (if Occurs(init, last.name) then 0 else 1)
  {
    var init, last := fs[..|fs| - 1], fs[|fs| - 1];
    var m := ByName(init);
    assert ByName(fs).Keys == m.Keys + {last.name};
    if Occurs(init, last.name) {
      assert m.Keys + {last.name} == m.Keys;
    }
  }

  lemma {:induction false} AllNamesCountIffDistinct(fs: seq<Feature>)
    ensures |ByName(fs)| == |fs| <==> DistinctNames(fs)
    ensures DistinctNames(fs) <==> Repeats(fs) == []
  {
    if fs != [] {
      AllNamesCountIffDistinct(fs[..|fs| - 1]);
      DistinctSnoc(fs);
      ByNameSnoc(fs);
    }
  }

  method IndexByName(features: seq<Feature>) returns (byName: map<Field, Feature>)
    ensures byName == ByName(features)
  {
    byName := map[];
    for i := 0 to |features|
      invariant byName == ByName(features[..i])
    {
      assert features[..i + 1][..i] == features[..i];
      byName := byName[features[i].name := features[i]];
    }
    assert features[..|features|] == features;
  }

  method FindRepeats(features: seq<Feature>) returns (dupes: seq<Field>)
    ensures dupes == Repeats(features)
  {
    var seen: set<Field> := {};
    dupes := [];
    for i := 0 to |features|
      invariant forall x :: x in seen <==> Occurs(features[..i], x)
      invariant dupes == Repeats(features[..i])
    {
      OccursSnoc(features[..i + 1]);
      assert features[..i + 1][..i] == features[..i];
      if features[i].name in seen {
        dupes := dupes + [features[i].name];
      } else {
        seen := seen + {features[i].name};
      }
    }
    assert features[..|features|] == features;
  }

  /** Registry construction: it fails exactly on duplicate names, and then reports the repeated ones. */
  method BuildRegistry(features: seq<Feature>) returns (r: Built)
    ensures r.Registry? <==> DistinctNames(features)
    ensures r.Registry? ==> r.features == features && r.byName == ByName(features)
    ensures r.Duplicates? ==> r.names == Repeats(features) && r.names != []
  {
    var byName := IndexByName(features);
    AllNamesCountIffDistinct(features);
    if |byName| != |features| {
      var dupes := FindRepeats(features);
      return Duplicates(dupes);
    }
    r := Registry(features, byName);
  }

  function BySource(fs: seq<Feature>, source: Source): seq<Feature> {
    if fs == [] then []
    else BySource(fs[..|fs| - 1], source) + (if fs[|fs| - 1].source == source then [fs[|fs| - 1]] else [])
  }

  function Names(fs: seq<Feature>): set<Field> {
    set f | f in fs :: f.name
  }

  lemma {:induction false} BySourceHas(fs: seq<Feature>, source: Source, f: Feature)
    ensures f in BySource(fs, source) <==> f in fs && f.source == source
  {
    if fs != [] {
      BySourceHas(fs[..|fs| - 1], source, f);
      assert fs == fs[..|fs| - 1] + [fs[|fs| - 1]];
    }
  }

  /** Unique names make the two sources field-disjoint, and between them they cover the registry. */
  lemma SourcesSplitTheNames(fs: seq<Feature>)
    requires DistinctNames(fs)
    ensures Names(BySource(fs, Batch)) !! Names(BySource(fs, Stream))
    ensures Names(BySource(fs, Batch)) + Names(BySource(fs, Stream)) == Names(fs)
  {
    forall f: Feature ensures f in BySource(fs, Batch) <==> f in fs && f.source == Batch { BySourceHas(fs, Batch, f); }
    forall f: Feature ensures f in BySource(fs, Stream) <==> f in fs && f.source == Stream {
      BySourceHas(fs, Stream, f);
    }
    forall f, g | f in fs && g in fs && f.name == g.name ensures f == g {
      var i :| 0 <= i < |fs| && fs[i] == f;
      var j :| 0 <= j < |fs| && fs[j] == g;
    }
  }

  // ---------------------------------------------------------------- the registry in use

  const ROUTE_FEATURES: seq<Feature> := [
    Feature(AvgBookings90d, Batch),
    Feature(SeasonalityMon, Batch), Feature(SeasonalityTue, Batch), Feature(SeasonalityWed, Batch),
    Feature(SeasonalityThu, Batch), Feature(SeasonalityFri, Batch), Feature(SeasonalitySat, Batch),
    Feature(SeasonalitySun, Batch),
    Feature(LeadTimeP50, Batch), Feature(LeadTimeP90, Batch), Feature(CancellationRate180d, Batch),
    Feature(ElasticityEstimate, Batch),
    Feature(Searches5m, Stream), Feature(Bookings15m, Stream), Feature(LookToBook1h, Stream),
    Feature(WeatherTempC, Stream), Feature(WeatherPrecipMm, Stream), Feature(WeatherCondition, Stream)]

  const STREAM_FIELDS: set<Field> :=
    {Searches5m, Bookings15m, LookToBook1h, WeatherTempC, WeatherPrecipMm, WeatherCondition}

  /** What the writers need of a registry: unique names, the stream writers' fields marked as such, and
      neither freshness field among the features. */
  ghost predicate Suitable(fs: seq<Feature>) {
    && DistinctNames(fs)
    && (forall x | x in STREAM_FIELDS :: Feature(x, Stream) in fs)
    && (forall f | f in fs :: f.name != BatchComputedAt && f.name != StreamComputedAt)
  }

  function Place(f: Field): int {
    match f
    case AvgBookings90d => 0
    case SeasonalityMon => 1 case SeasonalityTue => 2 case SeasonalityWed => 3 case SeasonalityThu => 4
    case SeasonalityFri => 5 case SeasonalitySat => 6 case SeasonalitySun => 7
    case LeadTimeP50 => 8 case LeadTimeP90 => 9 case CancellationRate180d => 10 case ElasticityEstimate => 11
    case Searches5m => 12 case Bookings15m => 13 case LookToBook1h => 14
    case WeatherTempC => 15 case WeatherPrecipMm => 16 case WeatherCondition => 17
    case _ => 18
  }

  /** Every feature stands at the place its name determines, so no name stands twice. */
  lemma Placed(i: nat)
    requires i < |ROUTE_FEATURES|
    ensures Place(ROUTE_FEATURES[i].name) == i
  {
  }

  lemma RouteFeaturesDistinct()
    ensures DistinctNames(ROUTE_FEATURES)
  {
    forall i, j | 0 <= i < j < |ROUTE_FEATURES| ensures ROUTE_FEATURES[i].name != ROUTE_FEATURES[j].name {
      Placed(i);
      Placed(j);
    }
  }

  lemma RouteFeaturesHaveStreamFields(x: Field)
    requires x in STREAM_FIELDS
    ensures Feature(x, Stream) in ROUTE_FEATURES
  {
    assert ROUTE_FEATURES[Place(x)] == Feature(x, Stream);
  }

  lemma NoFreshnessFeature(f: Feature)
    requires f in ROUTE_FEATURES
    ensures f.name != BatchComputedAt && f.name != StreamComputedAt
  {
    var i :| 0 <= i < |ROUTE_FEATURES| && ROUTE_FEATURES[i] == f;
    Placed(i);
  }

  lemma RouteFeaturesSuitable()
    ensures Suitable(ROUTE_FEATURES)
  {
    var fs := ROUTE_FEATURES;
    RouteFeaturesDistinct();
    forall x | x in STREAM_FIELDS ensures Feature(x, Stream) in fs { RouteFeaturesHaveStreamFields(x); }
    forall f | f in fs ensures f.name != BatchComputedAt && f.name != StreamComputedAt { NoFreshnessFeature(f); }
  }

  const BATCH_FIELDS: set<Field> := {
    AvgBookings90d,
    SeasonalityMon, SeasonalityTue, SeasonalityWed, SeasonalityThu, SeasonalityFri, SeasonalitySat, SeasonalitySun,
    LeadTimeP50, LeadTimeP90, CancellationRate180d, ElasticityEstimate}

  lemma BatchFieldListed(x: Field)
    requires x in BATCH_FIELDS
    ensures Feature(x, Batch) in ROUTE_FEATURES
  {
    assert ROUTE_FEATURES[Place(x)] == Feature(x, Batch);
  }

  lemma ListedFieldIsKnown(f: Feature)
    requires f in ROUTE_FEATURES
    ensures f.name in BATCH_FIELDS || f.name in STREAM_FIELDS
  {
    var i :| 0 <= i < |ROUTE_FEATURES| && ROUTE_FEATURES[i] == f;
    Placed(i);
  }

  lemma NamedBySource(fs: seq<Feature>, f: Feature)
    requires DistinctNames(fs) && f in fs
    ensures f.name in Names(BySource(fs, f.source))
    ensures f.name !in Names(BySource(fs, if f.source == Batch then Stream else Batch))
  {
    SourcesSplitTheNames(fs);
    BySourceHas(fs, f.source, f);
    assert f in BySource(fs, f.source);
  }

  lemma NotNamed(fs: seq<Feature>, x: Field)
    requires forall f | f in fs :: f.name != x
    ensures x !in Names(BySource(fs, Batch)) && x !in Names(BySource(fs, Stream))
  {
    forall f: Feature, source | f in BySource(fs, source) ensures f.name != x { BySourceHas(fs, source, f); }
  }

  lemma BatchFieldNamed(x: Field)
    requires x in BATCH_FIELDS
    ensures x in Names(BySource(ROUTE_FEATURES, Batch)) && x !in Names(BySource(ROUTE_FEATURES, Stream))
  {
    RouteFeaturesDistinct();
    BatchFieldListed(x);
    NamedBySource(ROUTE_FEATURES, Feature(x, Batch));
  }

  lemma StreamFieldNamed(x: Field)
    requires x in STREAM_FIELDS
    ensures x in Names(BySource(ROUTE_FEATURES, Stream)) && x !in Names(BySource(ROUTE_FEATURES, Batch))
  {
    RouteFeaturesDistinct();
    RouteFeaturesHaveStreamFields(x);
    NamedBySource(ROUTE_FEATURES, Feature(x, Stream));
  }

  lemma OtherFieldNotNamed(x: Field)
    requires x !in BATCH_FIELDS && x !in STREAM_FIELDS
    ensures x !in Names(BySource(ROUTE_FEATURES, Batch)) && x !in Names(BySource(ROUTE_FEATURES, Stream))
  {
    forall f | f in ROUTE_FEATURES ensures f.name != x { ListedFieldIsKnown(f); }
    NotNamed(ROUTE_FEATURES, x);
  }

  /** The features in use: the twelve the nightly batch writes and the six of the stream writers. */
  lemma RouteFeaturesBySource(x: Field)
    ensures x in Names(BySource(ROUTE_FEATURES, Batch)) <==> x in BATCH_FIELDS
    ensures x in Names(BySource(ROUTE_FEATURES, Stream)) <==> x in STREAM_FIELDS
  {
    if x in BATCH_FIELDS { BatchFieldNamed(x); }
    else if x in STREAM_FIELDS { StreamFieldNamed(x); }
    else { OtherFieldNotNamed(x); }
  }
}
