/** The three writers of a route's hash - nightly batch, demand stream, weather stream - and why batch and
    stream never disturb each other (services/worker/app/feature_store.py,
    services/worker/app/stream_features/redis_ops.py). */
module FeatureWriters {
  import opened Options
  import opened RouteHash
  import opened SlidingWindow
  import opened FeatureRegistry

  /** A row of the feature mart; a column may be absent or null. */
  type Row = map<Field, Option<real>>

  predicate Present(row: Row, x: Field) {
    x in row && row[x].Some?
  }

  /** The mapping built from a list of features: absent and null values are left out. */
  function ValuesOf(features: seq<Feature>, row: Row): (m: Hash)
    ensures forall x :: x in m <==> x in Names(features) && Present(row, x)
    ensures forall x | Present(row, x) && x in m :: m[x] == Num(row[x].value)
  {
    if features == [] then map[]
    else
      var init, last := features[..|features| - 1], features[|features| - 1];
      assert features == init + [last];
      assert Names(features) == Names(init) + {last.name};
      var m := ValuesOf(init, row);
      if Present(row, last.name) then m[last.name := Num(row[last.name].value)] else m
  }

  function BatchMapping(registry: seq<Feature>, row: Row, stamp: int): Hash {
    ValuesOf(BySource(registry, Batch), row)[BatchComputedAt := Stamp(stamp)]
  }

  datatype Write =
    | BatchWrite(row: Row, batchStamp: int)
    | DemandWrite(aggregates: Aggregates, demandStamp: int)
    | WeatherWrite(reading: Reading, weatherStamp: int)

  function MappingOf(registry: seq<Feature>, w: Write): Hash {
    match w
    case BatchWrite(row, stamp) => BatchMapping(registry, row, stamp)
    case DemandWrite(a, stamp) => DemandMapping(a, stamp)
    case WeatherWrite(r, stamp) => WeatherMapping(r, stamp)
  }

  /** The hash after a sequence of HSETs in any interleaving. */
  function HashAfter(registry: seq<Feature>, h: Hash, ws: seq<Write>): Hash {
    if ws == [] then h
    else Hset(HashAfter(registry, h, ws[..|ws| - 1]), MappingOf(registry, ws[|ws| - 1]))
  }

  /** Write `i` is the last one to give field `x` a value. */
  ghost predicate LastGiving(registry: seq<Feature>, ws: seq<Write>, x: Field, i: nat) {
    && i < |ws|
    && x in MappingOf(registry, ws[i])
    && forall j | i < j < |ws| :: x !in MappingOf(registry, ws[j])
  }

  ghost predicate NeverGiven(registry: seq<Feature>, ws: seq<Write>, x: Field) {
    forall j | 0 <= j < |ws| :: x !in MappingOf(registry, ws[j])
  }

  lemma {:induction false} FieldNeverWritten(registry: seq<Feature>, h: Hash, ws: seq<Write>, x: Field)
    requires NeverGiven(registry, ws, x)
    ensures SameOn(HashAfter(registry, h, ws), h, {x})
  {
    if ws != [] {
      FieldNeverWritten(registry, h, ws[..|ws| - 1], x);
    }
  }

  /** A field holds the last value written to it; a null or an absent value counts as no write. */
  lemma {:induction false} FieldIsLastWrite(registry: seq<Feature>, h: Hash, ws: seq<Write>, x: Field, i: nat)
    requires LastGiving(registry, ws, x, i)
    ensures x in HashAfter(registry, h, ws) && HashAfter(registry, h, ws)[x] == MappingOf(registry, ws[i])[x]
    decreases |ws|
  {
    var n := |ws| - 1;
    LastHset(registry, h, ws, x);
    if i < n {
      assert forall j | i <= j < n :: ws[..n][j] == ws[j];
      FieldIsLastWrite(registry, h, ws[..n], x, i);
    }
  }

  lemma LastHset(registry: seq<Feature>, h: Hash, ws: seq<Write>, x: Field)
    requires ws != []
    ensures var m := MappingOf(registry, ws[|ws| - 1]);
            if x in m then x in HashAfter(registry, h, ws) && HashAfter(registry, h, ws)[x] == m[x]
            else SameOn(HashAfter(registry, h, ws), HashAfter(registry, h, ws[..|ws| - 1]), {x})
  {
  }

  function Keep(ws: seq<Write>, mine: Write -> bool): seq<Write> {
    if ws == [] then []
    else Keep(ws[..|ws| - 1], mine) + (if mine(ws[|ws| - 1]) then [ws[|ws| - 1]] else [])
  }

  ghost predicate SameOn(g: Hash, h: Hash, fields: set<Field>) {
    forall x | x in fields :: (x in g <==> x in h) && (x in g && x in h ==> g[x] == h[x])
  }

  /** Writes that touch none of some fields may be dropped from any interleaving without changing them. */
  lemma {:induction false} OthersDoNotMatter(registry: seq<Feature>, h: Hash, ws: seq<Write>, mine: Write -> bool,
                                             fields: set<Field>)
    requires forall w | w in ws && !mine(w) :: MappingOf(registry, w).Keys !! fields
    ensures SameOn(HashAfter(registry, h, ws), HashAfter(registry, h, Keep(ws, mine)), fields)
  {
    if ws != [] {
      var init, last := ws[..|ws| - 1], ws[|ws| - 1];
      assert ws == init + [last];
      OthersDoNotMatter(registry, h, init, mine, fields);
      if mine(last) {
        assert Keep(ws, mine)[..|Keep(ws, mine)| - 1] == Keep(init, mine);
      } else {
        assert Keep(ws, mine) == Keep(init, mine);
        assert MappingOf(registry, last).Keys !! fields;
      }
    }
  }

  // ---------------------------------------------------------------- batch against stream

  function BatchSide(registry: seq<Feature>): set<Field> {
    Names(BySource(registry, Batch)) + {BatchComputedAt}
  }

  const STREAM_SIDE: set<Field> := STREAM_FIELDS + {StreamComputedAt}

  lemma SidesOfMappings(registry: seq<Feature>, w: Write)
    ensures w.BatchWrite? ==> MappingOf(registry, w).Keys <= BatchSide(registry)
    ensures !w.BatchWrite? ==> MappingOf(registry, w).Keys <= STREAM_SIDE
  {
  }

  /** Whatever the other side writes, a side's fields are what they would be had it written alone. */
  ghost predicate Independent(registry: seq<Feature>) {
    forall h: Hash, ws: seq<Write> ::
      && SameOn(HashAfter(registry, h, ws), HashAfter(registry, h, Keep(ws, (w: Write) => w.BatchWrite?)),
                BatchSide(registry))
      && SameOn(HashAfter(registry, h, ws), HashAfter(registry, h, Keep(ws, (w: Write) => !w.BatchWrite?)), STREAM_SIDE)
  }

  lemma DisjointSidesAreIndependent(registry: seq<Feature>)
    requires BatchSide(registry) !! STREAM_SIDE
    ensures Independent(registry)
  {
    forall w: Write
      ensures w.BatchWrite? ==> MappingOf(registry, w).Keys !! STREAM_SIDE
      ensures !w.BatchWrite? ==> MappingOf(registry, w).Keys !! BatchSide(registry)
    {
      SidesOfMappings(registry, w);
    }
    forall h: Hash, ws: seq<Write>
      ensures SameOn(HashAfter(registry, h, ws), HashAfter(registry, h, Keep(ws, (w: Write) => w.BatchWrite?)),
                     BatchSide(registry))
      ensures SameOn(HashAfter(registry, h, ws), HashAfter(registry, h, Keep(ws, (w: Write) => !w.BatchWrite?)),
                     STREAM_SIDE)
    {
      OthersDoNotMatter(registry, h, ws, (w: Write) => w.BatchWrite?, BatchSide(registry));
      OthersDoNotMatter(registry, h, ws, (w: Write) => !w.BatchWrite?, STREAM_SIDE);
    }
  }

  function ClashingWrite(x: Field): Write {
    if x in WEATHER_ONLY
    then WeatherWrite(Reading(Some(0.0), Some(0.0), Some("")), 0)
    else DemandWrite(Aggregates(0, 0, 0.0), 0)
  }

  /** Every stream-side field can be given a value that is not the number 1. */
  lemma ClashingValue(registry: seq<Feature>, x: Field)
    requires x in STREAM_SIDE
    ensures var m := MappingOf(registry, ClashingWrite(x)); x in m && m[x] != Num(1.0)
    ensures !ClashingWrite(x).BatchWrite?
  {
  }

  lemma Snoc(registry: seq<Feature>, ws: seq<Write>, w: Write, mine: Write -> bool)
    ensures Keep(ws + [w], mine) == Keep(ws, mine) + (if mine(w) then [w] else [])
    ensures HashAfter(registry, map[], ws + [w]) == Hset(HashAfter(registry, map[], ws), MappingOf(registry, w))
  {
    assert (ws + [w])[..|ws|] == ws;
  }

  lemma TwoWrites(registry: seq<Feature>, batch: Write, stream: Write)
    requires batch.BatchWrite? && !stream.BatchWrite?
    ensures var mine := (w: Write) => w.BatchWrite?;
            Keep([batch, stream], mine) == [batch]
    ensures HashAfter(registry, map[], [batch]) == MappingOf(registry, batch)
    ensures HashAfter(registry, map[], [batch, stream]) == MappingOf(registry, batch) + MappingOf(registry, stream)
  {
    var mine := (w: Write) => w.BatchWrite?;
    Snoc(registry, [], batch, mine);
    Snoc(registry, [batch], stream, mine);
    assert [] + [batch] == [batch] && [batch] + [stream] == [batch, stream];
  }

  lemma ClashShows(registry: seq<Feature>, x: Field)
    requires x in BatchSide(registry) && x in STREAM_SIDE
    ensures !Independent(registry)
  {
    var batch, stream := BatchWrite(map[x := Some(1.0)], 0), ClashingWrite(x);
    ClashingValue(registry, x);
    TwoWrites(registry, batch, stream);
    assert MappingOf(registry, batch)[x] == Num(1.0);
    assert !SameOn(HashAfter(registry, map[], [batch, stream]), MappingOf(registry, batch), BatchSide(registry));
  }

  /** Batch and stream are independent in every interleaving exactly when no field is on both sides. */
  lemma IndependentIffDisjoint(registry: seq<Feature>)
    ensures Independent(registry) <==> BatchSide(registry) !! STREAM_SIDE
  {
    if BatchSide(registry) !! STREAM_SIDE {
      DisjointSidesAreIndependent(registry);
    } else {
      var x :| x in BatchSide(registry) && x in STREAM_SIDE;
      ClashShows(registry, x);
    }
  }

  lemma StreamFieldIsNotBatch(registry: seq<Feature>, x: Field)
    requires Suitable(registry) && x in STREAM_FIELDS
    ensures x !in Names(BySource(registry, Batch))
  {
    SourcesSplitTheNames(registry);
    BySourceHas(registry, Stream, Feature(x, Stream));
    assert Feature(x, Stream) in BySource(registry, Stream);
  }

  lemma FreshnessIsNotBatch(registry: seq<Feature>)
    requires Suitable(registry)
    ensures StreamComputedAt !in Names(BySource(registry, Batch))
  {
    forall f | f in BySource(registry, Batch) ensures f.name != StreamComputedAt {
      BySourceHas(registry, Batch, f);
    }
  }

  /** Unique names and the source split are what makes the sides disjoint. */
  lemma SidesAreDisjoint(registry: seq<Feature>)
    requires Suitable(registry)
    ensures BatchSide(registry) !! STREAM_SIDE
  {
    FreshnessIsNotBatch(registry);
    forall x | x in STREAM_FIELDS ensures x !in BatchSide(registry) {
      StreamFieldIsNotBatch(registry, x);
    }
  }

  lemma SuitableIsIndependent(registry: seq<Feature>)
    requires Suitable(registry)
    ensures Independent(registry)
  {
    SidesAreDisjoint(registry);
    DisjointSidesAreIndependent(registry);
  }

  lemma RouteWritersAreIndependent()
    ensures Independent(ROUTE_FEATURES)
  {
    RouteFeaturesSuitable();
    SuitableIsIndependent(ROUTE_FEATURES);
  }

  // ---------------------------------------------------------------- demand against weather

  const DEMAND_ONLY: set<Field> := {Searches5m, Bookings15m, LookToBook1h}
  const WEATHER_ONLY: set<Field> := {WeatherTempC, WeatherPrecipMm, WeatherCondition}

  lemma StreamMappings(registry: seq<Feature>, w: Write)
    requires !w.BatchWrite?
    ensures StreamComputedAt in MappingOf(registry, w)
    ensures MappingOf(registry, w)[StreamComputedAt] == Stamp(if w.DemandWrite? then w.demandStamp else w.weatherStamp)
    ensures MappingOf(registry, w).Keys !! (if w.DemandWrite? then WEATHER_ONLY else DEMAND_ONLY)
  {
  }

  /** The two stream writers leave each other's features alone. */
  lemma StreamWritersKeepApart(registry: seq<Feature>, h: Hash, ws: seq<Write>)
    requires Suitable(registry)
    ensures SameOn(HashAfter(registry, h, ws), HashAfter(registry, h, Keep(ws, (w: Write) => w.DemandWrite?)),
                   DEMAND_ONLY)
    ensures SameOn(HashAfter(registry, h, ws), HashAfter(registry, h, Keep(ws, (w: Write) => w.WeatherWrite?)),
                   WEATHER_ONLY)
  {
    SidesAreDisjoint(registry);
    assert DEMAND_ONLY <= STREAM_SIDE && WEATHER_ONLY <= STREAM_SIDE;
    forall w: Write
      ensures !w.DemandWrite? ==> MappingOf(registry, w).Keys !! DEMAND_ONLY
      ensures !w.WeatherWrite? ==> MappingOf(registry, w).Keys !! WEATHER_ONLY
    {
      SidesOfMappings(registry, w);
      if !w.BatchWrite? { StreamMappings(registry, w); }
    }
    OthersDoNotMatter(registry, h, ws, (w: Write) => w.DemandWrite?, DEMAND_ONLY);
    OthersDoNotMatter(registry, h, ws, (w: Write) => w.WeatherWrite?, WEATHER_ONLY);
  }

  function StampOf(w: Write): int {
    match w
    case BatchWrite(_, stamp) => stamp
    case DemandWrite(_, stamp) => stamp
    case WeatherWrite(_, stamp) => stamp
  }

  /** They share the freshness field: it tells when either of them last wrote, so a live demand stream
      hides a weather stream that has stopped, and the other way round. */
  lemma StreamFreshnessIsShared(registry: seq<Feature>, h: Hash, ws: seq<Write>, i: nat)
    requires Suitable(registry)
    requires i < |ws| && !ws[i].BatchWrite? && forall j | i < j < |ws| :: ws[j].BatchWrite?
    ensures StreamComputedAt in HashAfter(registry, h, ws)
    ensures HashAfter(registry, h, ws)[StreamComputedAt] == Stamp(StampOf(ws[i]))
  {
    SidesAreDisjoint(registry);
    StreamMappings(registry, ws[i]);
    forall j | i < j < |ws| ensures StreamComputedAt !in MappingOf(registry, ws[j]) {
      SidesOfMappings(registry, ws[j]);
    }
    FieldIsLastWrite(registry, h, ws, StreamComputedAt, i);
  }
}
