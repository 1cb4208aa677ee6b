/** Point-in-time reconstruction of the window counts from the stream lake (tools/reconstruct.py).

    An hour partition is named by the number of whole hours since the epoch. */
module LakeQuery {
  import opened Options
  import opened AtLeastOnce
  import opened SlidingWindow

  datatype Record = Record(city: string, event: Event)

  type File = seq<Record>

  /** The part files of each hour partition of stream/demand_events/. */
  type Lake = map<int, seq<File>>

  datatype WindowResult = WindowResult(searches5m: nat, bookings15m: nat, lookToBook1h: real,
                                       searches1h: nat, bookings1h: nat, filesScanned: nat)

  function HourOf(t: real): int {
    (t / 3600.0).Floor
  }

  lemma HourOfMonotone(a: real, b: real)
    requires a <= b
    ensures HourOf(a) <= HourOf(b)
  {
    assert a / 3600.0 <= b / 3600.0;
  }

  function Span(lo: int, hi: int): (r: seq<int>)
    requires lo <= hi + 1
    ensures |r| == hi + 1 - lo && forall i | 0 <= i < |r| :: r[i] == lo + i
  {
    seq(hi + 1 - lo, i requires 0 <= i => lo + i)
  }

  /** The hour slots that a window of `windowS` seconds ending at `t` can touch. */
  method WindowSlots(t: real, windowS: real) returns (slots: seq<int>)
    requires 0.0 <= windowS
    ensures HourOf(t - windowS) <= HourOf(t) && slots == Span(HourOf(t - windowS), HourOf(t))
  {
    HourOfMonotone(t - windowS, t);
    var lo, hi := HourOf(t - windowS), HourOf(t);
    slots := [];
    var cur := lo;
    while cur <= hi
      invariant lo <= cur <= hi + 1
      invariant slots == Span(lo, cur - 1)
    {
      slots := slots + [cur];
      cur := cur + 1;
    }
  }

  /** One hour always needs exactly two slots, the hour of `t` and the one before it. */
  lemma OneHourTakesTwoSlots(t: real)
    ensures Span(HourOf(t - W_1H), HourOf(t)) == [HourOf(t) - 1, HourOf(t)]
  {
    assert (t - 3600.0) / 3600.0 == t / 3600.0 - 1.0;
  }

  function FilesIn(lake: Lake, slots: seq<int>): seq<File> {
    if slots == [] then []
    else FilesIn(lake, slots[..|slots| - 1])
         + (if slots[|slots| - 1] in lake then lake[slots[|slots| - 1]] else [])
  }

  method ListStreamPaths(lake: Lake, slots: seq<int>) returns (found: seq<File>)
    ensures found == FilesIn(lake, slots)
  {
    found := [];
    for i := 0 to |slots|
      invariant found == FilesIn(lake, slots[..i])
    {
      assert slots[..i + 1][..i] == slots[..i];
      if slots[i] in lake {
        found := found + lake[slots[i]];
      }
    }
    assert slots[..|slots|] == slots;
  }

  function RowsOf(files: seq<File>): set<Record> {
    set f, r | f in files && r in f :: r
  }

  function AllRows(lake: Lake): set<Record> {
    set h, f, r | h in lake && f in lake[h] && r in f :: r
  }

  /** COUNT(DISTINCT event_id) over the rows of one route, type and time range counts this set. */
  function DistinctIds(rows: set<Record>, city: string, side: Side, lo: real, hi: real): set<string> {
    set r | r in rows && r.city == city && Joins(r.event, side) && lo <= r.event.epoch <= hi :: r.event.id
  }

  function Answer(rows: set<Record>, city: string, t: real, files: nat): WindowResult {
    var s5, b15 := |DistinctIds(rows, city, Searches, t - W_5M, t)|, |DistinctIds(rows, city, Bookings, t - W_15M, t)|;
    var s1h, b1h := |DistinctIds(rows, city, Searches, t - W_1H, t)|, |DistinctIds(rows, city, Bookings, t - W_1H, t)|;
    WindowResult(s5, b15, Ratio(b1h, s1h), s1h, b1h, files)
  }

  /** The answer, spelled out over the rows: distinct event ids of the route by kind and window, and bookings per
      search of the last hour. */
  ghost predicate AnswersAbout(rows: set<Record>, city: string, t: real, a: WindowResult) {
    && a.searches5m == |IdsSince(rows, city, "search", t - 300.0, t)|
    && a.bookings15m == |IdsSince(rows, city, "booking", t - 900.0, t)|
    && a.searches1h == |IdsSince(rows, city, "search", t - 3600.0, t)|
    && a.bookings1h == |IdsSince(rows, city, "booking", t - 3600.0, t)|
    && IsRatio(a.lookToBook1h, a.bookings1h, a.searches1h)
  }

  ghost function IdsSince(rows: set<Record>, city: string, kind: string, lo: real, hi: real): set<string> {
    set r | r in rows && r.city == city && r.event.eventType == kind && lo <= r.event.epoch <= hi :: r.event.id
  }

  lemma AnswerAnswers(rows: set<Record>, city: string, t: real, files: nat)
    ensures AnswersAbout(rows, city, t, Answer(rows, city, t, files))
  {
    RatioIsBookingsPerSearch(|DistinctIds(rows, city, Bookings, t - W_1H, t)|,
                             |DistinctIds(rows, city, Searches, t - W_1H, t)|);
    SameIds(rows, city, Searches, t - W_5M, t);
    SameIds(rows, city, Bookings, t - W_15M, t);
    SameIds(rows, city, Searches, t - W_1H, t);
    SameIds(rows, city, Bookings, t - W_1H, t);
  }

  lemma SameIds(rows: set<Record>, city: string, side: Side, lo: real, hi: real)
    ensures DistinctIds(rows, city, side, lo, hi)
         == IdsSince(rows, city, if side == Searches then "search" else "booking", lo, hi)
  {
  }

  /** Every row sits in the partition of its own hour. */
  ghost predicate WellPlaced(lake: Lake) {
    forall h, f, r | h in lake && f in lake[h] && r in f :: HourOf(r.event.epoch) == h
  }

  method Reconstruct(lake: Lake, route: string, t: real) returns (res: Option<WindowResult>)
    ensures res.None? <==> FilesIn(lake, [HourOf(t) - 1, HourOf(t)]) == []
    ensures res.Some? ==> res.value.filesScanned == |FilesIn(lake, [HourOf(t) - 1, HourOf(t)])|
    ensures WellPlaced(lake) && res.Some? ==> res.value == Answer(AllRows(lake), route, t, res.value.filesScanned)
    ensures WellPlaced(lake) && res.Some? ==> AnswersAbout(AllRows(lake), route, t, res.value)
    ensures WellPlaced(lake) && res.None? ==> Answer(AllRows(lake), route, t, 0) == WindowResult(0, 0, 0.0, 0, 0, 0)
  {
    var slots := WindowSlots(t, W_1H);
    OneHourTakesTwoSlots(t);
    var paths := ListStreamPaths(lake, slots);
    if WellPlaced(lake) {
      TwoSlotsAreEnough(lake, route, t);
    }
    AnswerAnswers(AllRows(lake), route, t, |paths|);
    if paths == [] {
      return None;
    }
    return Some(Answer(RowsOf(paths), route, t, |paths|));
  }

  lemma {:induction false} FilesInHas(lake: Lake, slots: seq<int>, f: File)
    ensures f in FilesIn(lake, slots) <==> exists h :: h in slots && h in lake && f in lake[h]
  {
    if slots != [] {
      var init, last := slots[..|slots| - 1], slots[|slots| - 1];
      FilesInHas(lake, init, f);
      assert slots == init + [last];
      assert forall h :: h in slots <==> h in init || h == last;
      assert f in FilesIn(lake, slots) <==> f in FilesIn(lake, init) || (last in lake && f in lake[last]);
    }
  }

  /** Partition pruning is lossless: in every window that the query uses, scanning the two slots finds the
      same distinct ids as scanning the whole lake. */
  lemma SlotScanFindsAll(lake: Lake, city: string, side: Side, lo: real, t: real)
    requires WellPlaced(lake) && t - W_1H <= lo
    ensures DistinctIds(RowsOf(FilesIn(lake, [HourOf(t) - 1, HourOf(t)])), city, side, lo, t)
            == DistinctIds(AllRows(lake), city, side, lo, t)
  {
    var slots := [HourOf(t) - 1, HourOf(t)];
    var scanned := RowsOf(FilesIn(lake, slots));
    OneHourTakesTwoSlots(t);
    assert Span(HourOf(t - W_1H), HourOf(t))[0] == HourOf(t - W_1H);
    forall r | r in AllRows(lake) && lo <= r.event.epoch <= t ensures r in scanned {
      var h, f :| h in lake && f in lake[h] && r in f;
      HourOfMonotone(t - W_1H, r.event.epoch);
      HourOfMonotone(r.event.epoch, t);
      assert h in slots;
      FilesInHas(lake, slots, f);
    }
    forall r | r in scanned ensures r in AllRows(lake) {
      var f :| f in FilesIn(lake, slots) && r in f;
      FilesInHas(lake, slots, f);
    }
  }

  lemma TwoSlotsAreEnough(lake: Lake, city: string, t: real)
    requires WellPlaced(lake)
    ensures forall n: nat :: var files := FilesIn(lake, [HourOf(t) - 1, HourOf(t)]);
              Answer(RowsOf(files), city, t, n) == Answer(AllRows(lake), city, t, n)
    ensures FilesIn(lake, [HourOf(t) - 1, HourOf(t)]) == []
            ==> Answer(AllRows(lake), city, t, 0) == WindowResult(0, 0, 0.0, 0, 0, 0)
  {
    SlotScanFindsAll(lake, city, Searches, t - W_5M, t);
    SlotScanFindsAll(lake, city, Bookings, t - W_15M, t);
    SlotScanFindsAll(lake, city, Searches, t - W_1H, t);
    SlotScanFindsAll(lake, city, Bookings, t - W_1H, t);
  }

  // ---------------------------------------------------------------- lake against Redis

  /** The lake holds each event of the route's history at least once, and no other event of the route. */
  ghost predicate Mirrors(lake: Lake, city: string, log: seq<Event>) {
    && (forall e | e in log :: Record(city, e) in AllRows(lake))
    && (forall r | r in AllRows(lake) && r.city == city :: r.event in log)
  }

  lemma LakeIdsAreWindowIds(lake: Lake, city: string, log: seq<Event>, side: Side, lo: real, hi: real)
    requires Mirrors(lake, city, log)
    ensures DistinctIds(AllRows(lake), city, side, lo, hi) == WindowIds(log, side, lo, hi)
  {
    forall x | x in WindowIds(log, side, lo, hi) ensures x in DistinctIds(AllRows(lake), city, side, lo, hi) {
      var e :| e in log && Joins(e, side) && lo <= e.epoch <= hi && e.id == x;
      assert Record(city, e) in AllRows(lake);
    }
  }

  ghost predicate NonDecreasing(log: seq<Event>) {
    forall i, j | 0 <= i <= j < |log| :: log[i].epoch <= log[j].epoch
  }

  /** On an ordered history no window id is ever missing, even when copies of an id disagree about their time. */
  lemma OrderedHistoryKeepsWindow(log: seq<Event>, w: seq<Visit>, side: Side, lo: real)
    requires log != [] && CaughtUp(w, |log|) && NonDecreasing(log) && log[|log| - 1].epoch - W_1H <= lo
    ensures var t := log[|log| - 1].epoch;
            ZRange(SetAfter(log, w, side), lo, t) == WindowIds(log, side, lo, t)
  {
    var t := log[|log| - 1].epoch;
    NeverOvercounts(log, w, side, lo, t);
    forall x | x in WindowIds(log, side, lo, t) ensures x in ZRange(SetAfter(log, w, side), lo, t) {
      var e :| e in log && Joins(e, side) && lo <= e.epoch <= t && e.id == x;
      var p :| 0 <= p < |log| && log[p] == e;
      var l := LastOccurrence(log, side, p);
      assert KeptByLog(log, side, x, log[l].epoch, l);
      KeptIsKeptByLog(log, w, side, x, log[l].epoch);
    }
  }

  /** The lake query at the last event's time gives the four counts Redis publishes, for every ordered
      history and whatever crashes and replays both sides went through. */
  lemma LakeAgreesWithRedis(lake: Lake, city: string, log: seq<Event>, w: seq<Visit>)
    requires log != [] && CaughtUp(w, |log|) && NonDecreasing(log) && Mirrors(lake, city, log)
    ensures var t := log[|log| - 1].epoch; var a := Answer(AllRows(lake), city, t, 0);
            && AggregatesAfter(log, w) == [Aggregates(a.searches5m, a.bookings15m, a.lookToBook1h)]
            && a.searches1h == ZCount(SetAfter(log, w, Searches), t - W_1H, t)
            && a.bookings1h == ZCount(SetAfter(log, w, Bookings), t - W_1H, t)
  {
    var t := log[|log| - 1].epoch;
    PublishedAtTheEnd(log, w);
    RouteCountAgrees(lake, city, log, w, Searches, t - W_5M);
    RouteCountAgrees(lake, city, log, w, Bookings, t - W_15M);
    RouteCountAgrees(lake, city, log, w, Searches, t - W_1H);
    RouteCountAgrees(lake, city, log, w, Bookings, t - W_1H);
  }

  lemma PublishedAtTheEnd(log: seq<Event>, w: seq<Visit>)
    requires log != [] && CaughtUp(w, |log|)
    ensures AggregatesAfter(log, w) ==
            [AggregatesAt(SetAfter(log, w, Searches), SetAfter(log, w, Bookings), log[|log| - 1].epoch)]
  {
    EndsWhole(w, |log|);
  }

  lemma RouteCountAgrees(lake: Lake, city: string, log: seq<Event>, w: seq<Visit>, side: Side, lo: real)
    requires log != [] && CaughtUp(w, |log|) && NonDecreasing(log) && Mirrors(lake, city, log)
    requires log[|log| - 1].epoch - W_1H <= lo
    ensures var t := log[|log| - 1].epoch;
            |DistinctIds(AllRows(lake), city, side, lo, t)| == ZCount(SetAfter(log, w, side), lo, t)
  {
    OrderedHistoryKeepsWindow(log, w, side, lo);
    LakeIdsAreWindowIds(lake, city, log, side, lo, log[|log| - 1].epoch);
  }

  /** In general a window count of Redis and of the lake agree if and only if disorder trimmed no id of the
      window; otherwise Redis is short by exactly the trimmed ids. */
  lemma LakeMinusRedis(lake: Lake, city: string, log: seq<Event>, w: seq<Visit>, side: Side, lo: real)
    requires log != [] && CaughtUp(w, |log|) && Consistent(log) && Mirrors(lake, city, log)
    ensures var t := log[|log| - 1].epoch;
            && DistinctIds(AllRows(lake), city, side, lo, t) - ZRange(SetAfter(log, w, side), lo, t)
               == TrimmedIds(log, side, lo, t)
            && (|DistinctIds(AllRows(lake), city, side, lo, t)| == ZCount(SetAfter(log, w, side), lo, t)
                <==> TrimmedIds(log, side, lo, t) == {})
  {
    var t := log[|log| - 1].epoch;
    LakeIdsAreWindowIds(lake, city, log, side, lo, t);
    CountDeficit(log, w, side, lo, t);
    CountIsFullIffNoneGone(log, w, side, lo, t);
    forall x | x in TrimmedIds(log, side, lo, t) ensures x in WindowIds(log, side, lo, t) {
      TrimmedIsNotKept(log, w, side, lo, t, x);
    }
  }
}
