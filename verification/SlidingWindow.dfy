/** Sliding-window demand aggregates of one route: two sorted sets that each event adds to, trims and
    counts (services/worker/app/stream_features/redis_ops.py).

    Times are exact reals.  A sorted set is a map from member to score. */
module SlidingWindow {
  import opened Options
  import opened AtLeastOnce
  import opened RouteHash

  const W_5M := 300.0
  const W_15M := 900.0
  const W_1H := 3600.0

  /** An event leaves a sorted set once it is this much older than the event being handled. */
  const TRIM_AGE := W_1H + 1.0

  datatype Event = Event(id: string, eventType: string, epoch: real)

  datatype Side = Searches | Bookings

  function TypeOf(side: Side): string {
    match side
    case Searches => "search"
    case Bookings => "booking"
  }

  predicate Joins(e: Event, side: Side) {
    e.eventType == TypeOf(side)
  }

  // ---------------------------------------------------------------- sorted-set commands

  type ZSet = map<string, real>

  function ZAdd(z: ZSet, member: string, score: real): ZSet {
    z[member := score]
  }

  /** ZREMRANGEBYSCORE key -inf upper: the upper bound is inclusive. */
  function ZRemUpTo(z: ZSet, upper: real): ZSet {
    map m | m in z && upper < z[m] :: z[m]
  }

  /** The members ZCOUNT counts: both bounds are inclusive. */
  function ZRange(z: ZSet, lo: real, hi: real): set<string> {
    set m | m in z && lo <= z[m] <= hi
  }

  function ZCount(z: ZSet, lo: real, hi: real): nat {
    |ZRange(z, lo, hi)|
  }

  /** What one event does to one sorted set: `add` and `trim` say which of the two commands ran. */
  function Effect(z: ZSet, e: Event, side: Side, add: bool, trim: bool): ZSet {
    var added := if add && Joins(e, side) then ZAdd(z, e.id, e.epoch) else z;
    if trim then ZRemUpTo(added, e.epoch - TRIM_AGE) else added
  }

  // ---------------------------------------------------------------- the Redis side of one route

  datatype Aggregates = Aggregates(searches5m: nat, bookings15m: nat, lookToBook1h: real)

  function Ratio(bookings: nat, searches: nat): real {
    bookings as real / (if searches < 1 then 1.0 else searches as real)
  }

  /** `r` is bookings per search; without a search it is the number of bookings. */
  predicate IsRatio(r: real, bookings: nat, searches: nat) {
    if 0 < searches then r * searches as real == bookings as real else r == bookings as real
  }

  lemma RatioIsBookingsPerSearch(bookings: nat, searches: nat)
    ensures IsRatio(Ratio(bookings, searches), bookings, searches)
  {
  }

  /** What a route's hash says after a whole update at time `t`, read off the sorted sets: ids of the last five
      minutes, ids of the last quarter of an hour, and bookings per search of the last hour. */
  ghost predicate Published(h: Hash, searches: ZSet, bookings: ZSet, t: real, stamp: int) {
    && Searches5m in h && Bookings15m in h && LookToBook1h in h && StreamComputedAt in h
    && h[Searches5m] == Num(|set m | m in searches && t - 300.0 <= searches[m] <= t| as real)
    && h[Bookings15m] == Num(|set m | m in bookings && t - 900.0 <= bookings[m] <= t| as real)
    && h[LookToBook1h].Num?
    && IsRatio(h[LookToBook1h].value, |set m | m in bookings && t - 3600.0 <= bookings[m] <= t|,
               |set m | m in searches && t - 3600.0 <= searches[m] <= t|)
    && h[StreamComputedAt] == Stamp(stamp)
  }

  lemma UpdatePublishes(h: Hash, searches: ZSet, bookings: ZSet, t: real, stamp: int)
    ensures Published(Hset(h, DemandMapping(AggregatesAt(searches, bookings, t), stamp)), searches, bookings, t, stamp)
  {
    RatioIsBookingsPerSearch(ZCount(bookings, t - W_1H, t), ZCount(searches, t - W_1H, t));
    assert ZRange(searches, t - W_5M, t) == set m | m in searches && t - 300.0 <= searches[m] <= t;
    assert ZRange(bookings, t - W_15M, t) == set m | m in bookings && t - 900.0 <= bookings[m] <= t;
    assert ZRange(searches, t - W_1H, t) == set m | m in searches && t - 3600.0 <= searches[m] <= t;
    assert ZRange(bookings, t - W_1H, t) == set m | m in bookings && t - 3600.0 <= bookings[m] <= t;
  }

  /** What a whole update does to a sorted set, member by member: a search goes into the one, a booking into the
      other, any other event into neither, and whatever is 3601 seconds or more behind the event leaves. */
  lemma EffectOnMember(z: ZSet, e: Event, side: Side, m: string)
    ensures var kind := if side == Searches then "search" else "booking";
            var score := if m == e.id && e.eventType == kind then Some(e.epoch) else if m in z then Some(z[m])
                else None;
            var after := Effect(z, e, side, true, true);
            if score.Some? && e.epoch < score.value + 3601.0 then m in after && after[m] == score.value else m !in after
  {
  }

  function AggregatesAt(searches: ZSet, bookings: ZSet, t: real): Aggregates {
    Aggregates(ZCount(searches, t - W_5M, t), ZCount(bookings, t - W_15M, t),
               Ratio(ZCount(bookings, t - W_1H, t), ZCount(searches, t - W_1H, t)))
  }

  function DemandMapping(a: Aggregates, stamp: int): Hash {
    map[Searches5m := Num(a.searches5m as real), Bookings15m := Num(a.bookings15m as real),
        LookToBook1h := Num(a.lookToBook1h), StreamComputedAt := Stamp(stamp)]
  }

  /** A weather reading; each value may be missing. */
  datatype Reading = Reading(temperature: Option<real>, precip: Option<real>, condition: Option<string>)

  /** Missing values are left out, so they overwrite nothing. */
  function WeatherMapping(r: Reading, stamp: int): Hash {
    map[StreamComputedAt := Stamp(stamp)]
    + (if r.temperature.Some? then map[WeatherTempC := Num(r.temperature.value)] else map[])
    + (if r.precip.Some? then map[WeatherPrecipMm := Num(r.precip.value)] else map[])
    + (if r.condition.Some? then map[WeatherCondition := Text(r.condition.value)] else map[])
  }

  /** Each value of the reading is in its own field; what is missing is as it was, and so is every other field
      but the freshness stamp. */
  predicate WeatherShows(before: Hash, after: Hash, r: Reading, stamp: int) {
    && FieldIs(after, StreamComputedAt, Some(Stamp(stamp)))
    && FieldIs(after, WeatherTempC, if r.temperature.Some? then Some(Num(r.temperature.value))
               else FieldOf(before, WeatherTempC))
    && FieldIs(after, WeatherPrecipMm, if r.precip.Some? then Some(Num(r.precip.value))
               else FieldOf(before, WeatherPrecipMm))
    && FieldIs(after, WeatherCondition, if r.condition.Some? then Some(Text(r.condition.value))
               else FieldOf(before, WeatherCondition))
  }

  function FieldOf(h: Hash, x: Field): Option<Cell> {
    if x in h then Some(h[x]) else None
  }

  predicate FieldIs(h: Hash, x: Field, v: Option<Cell>) {
    if x in h then v == Some(h[x]) else v == None
  }

  lemma WeatherWriteShows(h: Hash, r: Reading, stamp: int)
    ensures WeatherShows(h, Hset(h, WeatherMapping(r, stamp)), r, stamp)
    ensures forall x | x in h && x !in {StreamComputedAt, WeatherTempC, WeatherPrecipMm, WeatherCondition} ::
              Hset(h, WeatherMapping(r, stamp))[x] == h[x]
  {
  }

  /** The number of commands `UpdateDemandFeatures` sends: ZADD, two trims, four counts, one HSET. */
  const COMMANDS: nat := 8

  class RouteStore {
    var searches: ZSet
    var bookings: ZSet
    var hash: Hash

    constructor ()
      ensures searches == map[] && bookings == map[] && hash == map[]
    {
      searches, bookings, hash := map[], map[], map[];
    }

    /** Handle one event.  The connection is lost after `reached` commands; the pipeline is not a
        transaction, so the commands before that point stay done.  `ok` is false when an error is raised. */
    method UpdateDemandFeatures(e: Event, stamp: int, reached: nat) returns (ok: bool)
      modifies this
      ensures ok <==> 8 <= reached
      ensures searches == Effect(old(searches), e, Searches, 1 <= reached, 2 <= reached)
      ensures bookings == Effect(old(bookings), e, Bookings, 1 <= reached, 3 <= reached)
      ensures hash == if ok then Hset(old(hash), DemandMapping(AggregatesAt(searches, bookings, e.epoch), stamp))
                      else old(hash)
      ensures ok ==> Published(hash, searches, bookings, e.epoch, stamp)
      ensures forall x | x in old(hash) && x !in {Searches5m, Bookings15m, LookToBook1h, StreamComputedAt} ::
                x in hash && hash[x] == old(hash)[x]
    {
      var sent, searches5m, bookings15m, searches1h, bookings1h := SendPipeline(e, reached);
      if !sent || reached < COMMANDS {
        return false;
      }
      var lookToBook1h := Ratio(bookings1h, searches1h);
      UpdatePublishes(hash, searches, bookings, e.epoch, stamp);
      hash := Hset(hash, map[Searches5m := Num(searches5m as real), Bookings15m := Num(bookings15m as real),
                             LookToBook1h := Num(lookToBook1h), StreamComputedAt := Stamp(stamp)]);
      ok := true;
    }

    /** The first seven commands, in one round trip. */
    method SendPipeline(e: Event, reached: nat)
      returns (ok: bool, searches5m: nat, bookings15m: nat, searches1h: nat, bookings1h: nat)
      modifies `searches, `bookings
      ensures ok <==> COMMANDS - 1 <= reached
      ensures searches == Effect(old(searches), e, Searches, 1 <= reached, 2 <= reached)
      ensures bookings == Effect(old(bookings), e, Bookings, 1 <= reached, 3 <= reached)
      ensures ok ==> searches5m == ZCount(searches, e.epoch - W_5M, e.epoch)
                     && bookings15m == ZCount(bookings, e.epoch - W_15M, e.epoch)
                     && searches1h == ZCount(searches, e.epoch - W_1H, e.epoch)
                     && bookings1h == ZCount(bookings, e.epoch - W_1H, e.epoch)
    {
      ok, searches5m, bookings15m, searches1h, bookings1h := false, 0, 0, 0, 0;
      var lo5m, lo15m, lo1h := e.epoch - W_5M, e.epoch - W_15M, e.epoch - W_1H;
      if reached < 1 { return; }
      if e.eventType == "search" {
        searches := ZAdd(searches, e.id, e.epoch);
      } else if e.eventType == "booking" {
        bookings := ZAdd(bookings, e.id, e.epoch);
      }
      var trimUpper := lo1h - 1.0;
      if reached < 2 { return; }
      searches := ZRemUpTo(searches, trimUpper);
      if reached < 3 { return; }
      bookings := ZRemUpTo(bookings, trimUpper);
      if reached < COMMANDS - 1 { return; }
      searches5m := ZCount(searches, lo5m, e.epoch);
      bookings15m := ZCount(bookings, lo15m, e.epoch);
      searches1h := ZCount(searches, lo1h, e.epoch);
      bookings1h := ZCount(bookings, lo1h, e.epoch);
      ok := true;
    }

    method UpdateWeatherFeatures(r: Reading, stamp: int)
      modifies `hash
      ensures hash == Hset(old(hash), WeatherMapping(r, stamp))
      ensures WeatherShows(old(hash), hash, r, stamp)
    {
      WeatherWriteShows(hash, r, stamp);
      var mapping := MapWeather(r, stamp);
      hash := Hset(hash, mapping);
    }

    static method MapWeather(r: Reading, stamp: int) returns (mapping: Hash)
      ensures mapping == WeatherMapping(r, stamp)
    {
      mapping := map[StreamComputedAt := Stamp(stamp)];
      if r.temperature.Some? {
        mapping := mapping[WeatherTempC := Num(r.temperature.value)];
      }
      if r.precip.Some? {
        mapping := mapping[WeatherPrecipMm := Num(r.precip.value)];
      }
      if r.condition.Some? {
        mapping := mapping[WeatherCondition := Text(r.condition.value)];
      }
    }
  }

  // ---------------------------------------------------------------- delivery runs

  predicate Adds(v: Visit) {
    v.whole || 1 <= v.part
  }

  predicate Trims(v: Visit, side: Side) {
    v.whole || (if side == Searches then 2 else 3) <= v.part
  }

  /** A visit stands for a call whose connection lasts for `reached` commands. */
  lemma VisitIsTheCall(pos: nat, reached: nat)
    ensures var v := Visit(pos, 8 <= reached, reached);
            && (Adds(v) <==> 1 <= reached) && (Trims(v, Searches) <==> 2 <= reached)
            && (Trims(v, Bookings) <==> 3 <= reached) && (Publishes(v) <==> 8 <= reached)
  {
  }

  /** One side's sorted set after a delivery run over `log`. */
  ghost function SetAfter(log: seq<Event>, w: seq<Visit>, side: Side): ZSet
    requires Walk(w, |log|)
  {
    if w == [] then map[]
    else
      var v := w[|w| - 1];
      Effect(SetAfter(log, w[..|w| - 1], side), log[v.pos], side, Adds(v), Trims(v, side))
  }

  /** Visit `j` added member `x` to the set. */
  ghost predicate AddsMember(log: seq<Event>, w: seq<Visit>, side: Side, x: string, j: int)
    requires Walk(w, |log|)
  {
    0 <= j < |w| && Adds(w[j]) && Joins(log[w[j].pos], side) && log[w[j].pos].id == x
  }

  /** Visit `j` was the last to add `x`, with score `s`, and nothing since trimmed it. */
  ghost predicate Survives(log: seq<Event>, w: seq<Visit>, side: Side, x: string, s: real, j: int)
    requires Walk(w, |log|)
  {
    && AddsMember(log, w, side, x, j)
    && log[w[j].pos].epoch == s
    && (forall k | j < k < |w| :: !AddsMember(log, w, side, x, k))
    && (forall k | j <= k < |w| :: Trims(w[k], side) ==> log[w[k].pos].epoch - TRIM_AGE < s)
  }

  ghost predicate Kept(log: seq<Event>, w: seq<Visit>, side: Side, x: string, s: real)
    requires Walk(w, |log|)
  {
    exists j :: Survives(log, w, side, x, s, j)
  }

  /** The retention law: a member is in the set exactly when nothing handled since its last addition is
      TRIM_AGE or more ahead of it. */
  lemma {:induction false} Retention(log: seq<Event>, w: seq<Visit>, side: Side, x: string, s: real)
    requires Walk(w, |log|)
    ensures (x in SetAfter(log, w, side) && SetAfter(log, w, side)[x] == s) <==> Kept(log, w, side, x, s)
  {
    if w == [] {
    } else {
      Retention(log, w[..|w| - 1], side, x, s);
      KeptStep(log, w, side, x, s);
    }
  }

  lemma KeptStep(log: seq<Event>, w: seq<Visit>, side: Side, x: string, s: real)
    requires Walk(w, |log|) && w != []
    ensures var m := |w| - 1; var e := log[w[m].pos];
            Kept(log, w, side, x, s) <==>
              if Adds(w[m]) && Joins(e, side) && e.id == x then e.epoch == s
              else Kept(log, w[..m], side, x, s) && (Trims(w[m], side) ==> e.epoch - TRIM_AGE < s)
  {
    var m := |w| - 1;
    var u := w[..m];
    if AddsMember(log, w, side, x, m) {
      if log[w[m].pos].epoch == s {
        assert Survives(log, w, side, x, s, m);
      }
      if j :| Survives(log, w, side, x, s, j) {
        assert j == m;
      }
    } else {
      if j :| Survives(log, u, side, x, s, j) { OneMoreVisit(log, w, side, x, s, j); }
      if j :| Survives(log, w, side, x, s, j) { OneMoreVisit(log, w, side, x, s, j); }
    }
  }

  lemma OneMoreVisit(log: seq<Event>, w: seq<Visit>, side: Side, x: string, s: real, j: int)
    requires Walk(w, |log|) && 0 <= j < |w| - 1
    ensures Survives(log, w, side, x, s, j) <==>
            && Survives(log, w[..|w| - 1], side, x, s, j)
            && !AddsMember(log, w, side, x, |w| - 1)
            && (Trims(w[|w| - 1], side) ==> log[w[|w| - 1].pos].epoch - TRIM_AGE < s)
  {
    var m := |w| - 1;
    var u := w[..m];
    forall k | 0 <= k < m ensures AddsMember(log, u, side, x, k) == AddsMember(log, w, side, x, k) {}
    if Survives(log, u, side, x, s, j) {
      forall k | j <= k < m && Trims(w[k], side) ensures log[w[k].pos].epoch - TRIM_AGE < s {
        assert u[k] == w[k];
      }
    }
  }

  /** The same law read off the log alone: position `p` is the last one of `x`, and no later position is
      TRIM_AGE or more ahead of it. */
  ghost predicate KeptByLog(log: seq<Event>, side: Side, x: string, s: real, p: int) {
    && 0 <= p < |log|
    && Joins(log[p], side) && log[p].id == x && log[p].epoch == s
    && (forall q | p < q < |log| :: !(Joins(log[q], side) && log[q].id == x))
    && (forall q | p < q < |log| :: log[q].epoch - TRIM_AGE < s)
  }

  lemma RunKeepsWhatLogKeeps(log: seq<Event>, w: seq<Visit>, side: Side, x: string, s: real, p: int)
    requires CaughtUp(w, |log|) && KeptByLog(log, side, x, s, p)
    ensures Kept(log, w, side, x, s)
  {
    var j := LastVisit(w, |log|, p);
    assert Survives(log, w, side, x, s, j);
  }

  lemma LogKeepsWhatRunKeeps(log: seq<Event>, w: seq<Visit>, side: Side, x: string, s: real, j: int)
    requires CaughtUp(w, |log|) && Survives(log, w, side, x, s, j)
    ensures KeptByLog(log, side, x, s, w[j].pos)
  {
    var p := w[j].pos;
    var l := LastVisit(w, |log|, p);
    assert AddsMember(log, w, side, x, l);
    forall q | p < q < |log|
      ensures !(Joins(log[q], side) && log[q].id == x) && log[q].epoch - TRIM_AGE < s
    {
      var k := LastVisitsInOrder(w, |log|, p, j, q);
      assert !AddsMember(log, w, side, x, k);
      assert Trims(w[k], side);
    }
  }

  /** Replay convergence: whatever crashes, partial pipelines and offset resets a run went through, once
      it has caught up with the log both sorted sets are what one uninterrupted pass leaves. */
  lemma Convergence(log: seq<Event>, w: seq<Visit>, side: Side)
    requires CaughtUp(w, |log|)
    ensures SetAfter(log, w, side) == SetAfter(log, Straight(|log|), side)
  {
    StraightCaughtUp(|log|);
    SameMembers(log, w, Straight(|log|), side);
    SameMembers(log, Straight(|log|), w, side);
  }

  lemma SameMembers(log: seq<Event>, w: seq<Visit>, v: seq<Visit>, side: Side)
    requires CaughtUp(w, |log|) && CaughtUp(v, |log|)
    ensures forall x | x in SetAfter(log, w, side) ::
              x in SetAfter(log, v, side) && SetAfter(log, v, side)[x] == SetAfter(log, w, side)[x]
  {
    forall x | x in SetAfter(log, w, side)
      ensures x in SetAfter(log, v, side) && SetAfter(log, v, side)[x] == SetAfter(log, w, side)[x]
    {
      var s := SetAfter(log, w, side)[x];
      Retention(log, w, side, x, s);
      var j :| Survives(log, w, side, x, s, j);
      LogKeepsWhatRunKeeps(log, w, side, x, s, j);
      RunKeepsWhatLogKeeps(log, v, side, x, s, w[j].pos);
      Retention(log, v, side, x, s);
    }
  }

  /** Membership of a caught-up run's set, read off the log. */
  lemma KeptIsKeptByLog(log: seq<Event>, w: seq<Visit>, side: Side, x: string, s: real)
    requires CaughtUp(w, |log|)
    ensures (x in SetAfter(log, w, side) && SetAfter(log, w, side)[x] == s)
            <==> exists p :: KeptByLog(log, side, x, s, p)
  {
    Retention(log, w, side, x, s);
    if j :| Survives(log, w, side, x, s, j) { LogKeepsWhatRunKeeps(log, w, side, x, s, j); }
    if p :| KeptByLog(log, side, x, s, p) { RunKeepsWhatLogKeeps(log, w, side, x, s, p); }
  }

  predicate Publishes(v: Visit) {
    v.whole || COMMANDS <= v.part
  }

  /** The aggregates in the route hash after a run: those of the last visit that reached its HSET. */
  ghost function AggregatesAfter(log: seq<Event>, w: seq<Visit>): (r: seq<Aggregates>)
    requires Walk(w, |log|)
    ensures |r| <= 1
  {
    if w == [] then []
    else
      var v := w[|w| - 1];
      if Publishes(v) then
        [AggregatesAt(SetAfter(log, w, Searches), SetAfter(log, w, Bookings), log[v.pos].epoch)]
      else AggregatesAfter(log, w[..|w| - 1])
  }

  /** The three published aggregates converge with the sets. */
  lemma AggregatesConverge(log: seq<Event>, w: seq<Visit>)
    requires CaughtUp(w, |log|)
    ensures AggregatesAfter(log, w) == AggregatesAfter(log, Straight(|log|))
  {
    Convergence(log, w, Searches);
    Convergence(log, w, Bookings);
    StraightCaughtUp(|log|);
    if log != [] {
      EndsWhole(w, |log|);
      EndsWhole(Straight(|log|), |log|);
    } else {
      assert w == [] && Straight(|log|) == [];
    }
  }

  lemma ReplayCatchesUp(n: nat, from: nat)
    requires from <= n
    ensures CaughtUp(Straight(n) + seq(n - from, i requires 0 <= i => Visit(from + i, true, 0)), n)
  {
    var w := Straight(n) + seq(n - from, i requires 0 <= i => Visit(from + i, true, 0));
    forall p: nat | p < n ensures Settled(w, p) {
      assert IsLastVisit(w, p, if p < from then p else n + p - from);
    }
  }

  /** The replay tool's case: the whole log, then any suffix of it once more. */
  lemma ReplayingASuffixChangesNothing(log: seq<Event>, from: nat, side: Side)
    requires from <= |log|
    ensures var again := seq(|log| - from, i requires 0 <= i => Visit(from + i, true, 0));
            var w := Straight(|log|) + again;
            && Walk(w, |log|)
            && SetAfter(log, w, side) == SetAfter(log, Straight(|log|), side)
            && AggregatesAfter(log, w) == AggregatesAfter(log, Straight(|log|))
  {
    var again := seq(|log| - from, i requires 0 <= i => Visit(from + i, true, 0));
    var w := Straight(|log|) + again;
    ReplayCatchesUp(|log|, from);
    Convergence(log, w, side);
    AggregatesConverge(log, w);
  }

  // ---------------------------------------------------------------- counts against the raw history

  /** The distinct ids with an event of this side in [lo, hi]. */
  function WindowIds(log: seq<Event>, side: Side, lo: real, hi: real): set<string> {
    set e | e in log && Joins(e, side) && lo <= e.epoch <= hi :: e.id
  }

  /** An event id stands for one event, so its copies carry one epoch. */
  ghost predicate Consistent(log: seq<Event>) {
    forall i, j | 0 <= i < |log| && 0 <= j < |log| && log[i].id == log[j].id
                  && log[i].eventType == log[j].eventType :: log[i].epoch == log[j].epoch
  }

  /** Position `p` is the last of its id on this side, and a later event was far enough ahead to trim it. */
  ghost predicate TrimmedEarly(log: seq<Event>, side: Side, p: int) {
    && 0 <= p < |log| && Joins(log[p], side)
    && (forall q | p < q < |log| :: !(Joins(log[q], side) && log[q].id == log[p].id))
    && exists q :: p < q < |log| && log[p].epoch + TRIM_AGE <= log[q].epoch
  }

  /** The ids of the window that a disordered history has already trimmed. */
  ghost function TrimmedIds(log: seq<Event>, side: Side, lo: real, hi: real): set<string> {
    set p | 0 <= p < |log| && TrimmedEarly(log, side, p) && lo <= log[p].epoch <= hi :: log[p].id
  }

  lemma SubsetCount(a: set<string>, b: set<string>)
    requires a <= b
    ensures |a| + |b - a| == |b|
  {
    assert b == a + (b - a);
  }

  /** Any history, in any order, with any crashes: no window count exceeds the distinct count. */
  lemma NeverOvercounts(log: seq<Event>, w: seq<Visit>, side: Side, lo: real, hi: real)
    requires CaughtUp(w, |log|)
    ensures ZRange(SetAfter(log, w, side), lo, hi) <= WindowIds(log, side, lo, hi)
    ensures ZCount(SetAfter(log, w, side), lo, hi) <= |WindowIds(log, side, lo, hi)|
  {
    var z := SetAfter(log, w, side);
    forall x | x in ZRange(z, lo, hi) ensures x in WindowIds(log, side, lo, hi) {
      KeptIsKeptByLog(log, w, side, x, z[x]);
      var p :| KeptByLog(log, side, x, z[x], p);
      assert log[p] in log;
    }
    SubsetCount(ZRange(z, lo, hi), WindowIds(log, side, lo, hi));
  }

  lemma LastOccurrence(log: seq<Event>, side: Side, p: int) returns (l: int)
    requires 0 <= p < |log| && Joins(log[p], side)
    ensures p <= l < |log| && Joins(log[l], side) && log[l].id == log[p].id
    ensures forall q | l < q < |log| :: !(Joins(log[q], side) && log[q].id == log[p].id)
  {
    l := |log| - 1;
    while !(Joins(log[l], side) && log[l].id == log[p].id)
      invariant p <= l < |log|
      invariant forall q | l < q < |log| :: !(Joins(log[q], side) && log[q].id == log[p].id)
      decreases l
    {
      l := l - 1;
    }
  }

  lemma WindowIdKeptOrTrimmed(log: seq<Event>, w: seq<Visit>, side: Side, lo: real, hi: real, x: string)
    requires CaughtUp(w, |log|) && Consistent(log) && x in WindowIds(log, side, lo, hi)
    ensures x in ZRange(SetAfter(log, w, side), lo, hi) || x in TrimmedIds(log, side, lo, hi)
  {
    var e :| e in log && Joins(e, side) && lo <= e.epoch <= hi && e.id == x;
    var p :| 0 <= p < |log| && log[p] == e;
    var l := LastOccurrence(log, side, p);
    if !TrimmedEarly(log, side, l) {
      assert KeptByLog(log, side, x, log[l].epoch, l);
      KeptIsKeptByLog(log, w, side, x, log[l].epoch);
    }
  }

  lemma TrimmedIsNotKeptByLog(log: seq<Event>, side: Side, p: int, s: real, q: int)
    requires TrimmedEarly(log, side, p)
    ensures !KeptByLog(log, side, log[p].id, s, q)
  {
  }

  lemma TrimmedIsNotKept(log: seq<Event>, w: seq<Visit>, side: Side, lo: real, hi: real, x: string)
    requires CaughtUp(w, |log|) && x in TrimmedIds(log, side, lo, hi)
    ensures x in WindowIds(log, side, lo, hi) && x !in SetAfter(log, w, side)
  {
    var p :| 0 <= p < |log| && TrimmedEarly(log, side, p) && lo <= log[p].epoch <= hi && log[p].id == x;
    assert log[p] in log;
    var z := SetAfter(log, w, side);
    var s := if x in z then z[x] else 0.0;
    KeptIsKeptByLog(log, w, side, x, s);
    forall q ensures !KeptByLog(log, side, x, s, q) {
      TrimmedIsNotKeptByLog(log, side, p, s, q);
    }
  }

  /** The exact deficit: a window count falls short of the distinct count by precisely the ids of the
      window that were trimmed early. */
  lemma CountDeficit(log: seq<Event>, w: seq<Visit>, side: Side, lo: real, hi: real)
    requires CaughtUp(w, |log|) && Consistent(log)
    ensures ZRange(SetAfter(log, w, side), lo, hi)
            == WindowIds(log, side, lo, hi) - TrimmedIds(log, side, lo, hi)
    ensures ZCount(SetAfter(log, w, side), lo, hi) + |TrimmedIds(log, side, lo, hi)|
            == |WindowIds(log, side, lo, hi)|
  {
    var z := SetAfter(log, w, side);
    var ids, gone := WindowIds(log, side, lo, hi), TrimmedIds(log, side, lo, hi);
    NeverOvercounts(log, w, side, lo, hi);
    forall x | x in ids ensures x in ZRange(z, lo, hi) || x in gone {
      WindowIdKeptOrTrimmed(log, w, side, lo, hi, x);
    }
    forall x | x in gone ensures x in ids && x !in ZRange(z, lo, hi) {
      TrimmedIsNotKept(log, w, side, lo, hi, x);
    }
    assert ZRange(z, lo, hi) == ids - gone;
    SubsetCount(gone, ids);
  }

  /** No event is `d` or more ahead of the last one. */
  ghost predicate DisorderBelow(log: seq<Event>, d: real) {
    log != [] && forall i | 0 <= i < |log| :: log[i].epoch < log[|log| - 1].epoch + d
  }

  /** In every run, the count for a window of width `width` ending at the last event is the distinct count. */
  ghost predicate Exact(log: seq<Event>, side: Side, width: real)
    requires log != []
  {
    var t := log[|log| - 1].epoch;
    forall w | CaughtUp(w, |log|) ::
      ZCount(SetAfter(log, w, side), t - width, t) == |WindowIds(log, side, t - width, t)|
  }

  /** A count is exact if and only if no id of its window was trimmed early. */
  lemma ExactIffNothingTrimmed(log: seq<Event>, side: Side, width: real)
    requires Consistent(log) && log != []
    ensures var t := log[|log| - 1].epoch;
            Exact(log, side, width) <==> TrimmedIds(log, side, t - width, t) == {}
  {
    var t := log[|log| - 1].epoch;
    if TrimmedIds(log, side, t - width, t) == {} {
      forall w | CaughtUp(w, |log|)
        ensures ZCount(SetAfter(log, w, side), t - width, t) == |WindowIds(log, side, t - width, t)|
      {
        CountIsFullIffNoneGone(log, w, side, t - width, t);
      }
    } else {
      StraightCaughtUp(|log|);
      CountIsFullIffNoneGone(log, Straight(|log|), side, t - width, t);
    }
  }

  lemma CountIsFullIffNoneGone(log: seq<Event>, w: seq<Visit>, side: Side, lo: real, hi: real)
    requires CaughtUp(w, |log|) && Consistent(log)
    ensures ZCount(SetAfter(log, w, side), lo, hi) == |WindowIds(log, side, lo, hi)|
            <==> TrimmedIds(log, side, lo, hi) == {}
  {
    CountDeficit(log, w, side, lo, hi);
  }

  ghost predicate Tolerates(side: Side, width: real, d: real) {
    forall log: seq<Event> | Consistent(log) && DisorderBelow(log, d) :: Exact(log, side, width)
  }

  /** A history whose last but one event is `TRIM_AGE - width` ahead of its last. */
  function Overshoot(side: Side, width: real): seq<Event> {
    [Event("seen", TypeOf(side), -width), Event("ahead", "cancellation", TRIM_AGE - width),
     Event("now", "cancellation", 0.0)]
  }

  lemma OvershootTrims(side: Side, width: real)
    requires 0.0 <= width <= TRIM_AGE
    ensures TrimmedEarly(Overshoot(side, width), side, 0)
  {
    var log := Overshoot(side, width);
    assert log[0].epoch + TRIM_AGE <= log[1].epoch;
    assert !Joins(log[1], side) && !Joins(log[2], side);
  }

  lemma OvershootUndercounts(side: Side, width: real)
    requires 0.0 <= width <= TRIM_AGE
    ensures Consistent(Overshoot(side, width)) && !Exact(Overshoot(side, width), side, width)
  {
    var log := Overshoot(side, width);
    ExactIffNothingTrimmed(log, side, width);
    OvershootTrims(side, width);
    assert "seen" in TrimmedIds(log, side, 0.0 - width, 0.0);
  }

  lemma BoundedDisorderIsExact(log: seq<Event>, side: Side, width: real, d: real)
    requires Consistent(log) && DisorderBelow(log, d) && d <= TRIM_AGE - width
    ensures Exact(log, side, width)
  {
    var t := log[|log| - 1].epoch;
    ExactIffNothingTrimmed(log, side, width);
    assert TrimmedIds(log, side, t - width, t) == {};
  }

  /** The disorder bound is exact: counts for a window of width `width` are right on every history whose
      events stay less than `d` ahead of the last one if and only if d <= 3601 - width. */
  lemma ToleranceIsExact(side: Side, width: real, d: real)
    requires 0.0 <= width <= TRIM_AGE
    ensures Tolerates(side, width, d) <==> d <= TRIM_AGE - width
  {
    if d <= TRIM_AGE - width {
      forall log: seq<Event> | Consistent(log) && DisorderBelow(log, d) ensures Exact(log, side, width) {
        BoundedDisorderIsExact(log, side, width, d);
      }
    } else {
      var log := Overshoot(side, width);
      OvershootUndercounts(side, width);
      assert DisorderBelow(log, d);
    }
  }

  /** The three widths in use: 3301 s for searches_5m, 2701 s for bookings_15m and 1 s for the ratio. */
  lemma TolerancesInUse(d: real)
    ensures Tolerates(Searches, W_5M, d) <==> d <= 3301.0
    ensures Tolerates(Bookings, W_15M, d) <==> d <= 2701.0
    ensures Tolerates(Searches, W_1H, d) <==> d <= 1.0
    ensures Tolerates(Bookings, W_1H, d) <==> d <= 1.0
  {
    ToleranceIsExact(Searches, W_5M, d);
    ToleranceIsExact(Bookings, W_15M, d);
    ToleranceIsExact(Searches, W_1H, d);
    ToleranceIsExact(Bookings, W_1H, d);
  }
}
