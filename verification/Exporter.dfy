/** The hourly lake exporter (services/ingestor/app/parquet_writer.py): start-up from the S3 listing,
    25 hours of catch-up, then one pass per hour rollover.

    Hours are numbered as in `LakeKeys`.  A clock reading is the hour it falls in. */
module Exporter {
  import opened Options
  import opened LakeKeys

  const LOOKBACK_HOURS: nat := 25

  const TABLES: seq<string> := ["demand_events", "weather_readings"]

  type Hour = nat

  /** How a partition is named: the (table, date, hour) triple that `_written` holds and object keys spell.
      The code's naming is `KeyOf`; what is proved here holds for any. */
  type Naming = (string, Hour) -> Parsed

  function KeyOf(table: string, h: Hour): Parsed {
    Parsed(table, PrintDate(DateOf(h / 24)), h % 24)
  }

  /** Distinct partitions have distinct names, and the object key is the canonical key of the name. */
  lemma KeyOfIsFaithful(t: string, g: Hour, u: string, h: Hour)
    requires HourPrintable(g) && HourPrintable(h) && SlashFree(t)
    ensures KeyOf(t, g) == KeyOf(u, h) <==> t == u && g == h
    ensures Parse(Canonical(t, KeyOf(t, g).dt, KeyOf(t, g).hour)) == Some(KeyOf(t, g))
  {
    if KeyOf(t, g) == KeyOf(u, h) {
      PrintDateInjective(DateOf(g / 24), DateOf(h / 24));
      if g / 24 < h / 24 { DaysAreOrdered(g / 24, h / 24); }
      if h / 24 < g / 24 { DaysAreOrdered(h / 24, g / 24); }
    }
    ParseOfRawKey(t, DateOf(g / 24), g % 24);
  }

  /** A name says which hour it stands for: its date text prints the day of the calendar, and its number is the
      hour of that day. */
  lemma KeyOfNamesTheHour(t: string, h: Hour) returns (d: Date)
    ensures IsDay(d) && KeyOf(t, h).table == t && KeyOf(t, h).dt == PrintDate(d) && KeyOf(t, h).hour < 24
    ensures 24 * (DayNumber(d) - DayNumber(FIRST_DAY)) + KeyOf(t, h).hour == h
  {
    d := DateOf(h / 24);
    DateOfIsGregorian(h / 24);
  }

  /** One attempt at a partition, with the clock reading that caused it. */
  datatype Try = Try(table: string, hour: Hour, clock: nat)

  /** How Postgres and S3 answer an attempt. */
  datatype Answer = Wrote | NoRows | Failed

  /** `objects` are the partitions whose canonical object is in the bucket; `attempted` is history. */
  datatype Export = Export(written: set<Parsed>, objects: set<Parsed>, attempted: set<(string, Hour)>)

  function Attempt(name: Naming, s: Export, t: Try, answer: Answer): Export {
    if name(t.table, t.hour) in s.written then s
    else
      var u := s.(attempted := s.attempted + {(t.table, t.hour)});
      if answer != Wrote then u
      else u.(written := u.written + {name(t.table, t.hour)}, objects := u.objects + {name(t.table, t.hour)})
  }

  /** An attempt leaves a partition alone that counts as written; of the others it uploads and remembers exactly
      those that have rows and whose upload succeeds. */
  lemma OneAttempt(name: Naming, s: Export, t: Try, answer: Answer)
    ensures var u, p := Attempt(name, s, t, answer), name(t.table, t.hour);
            && (p in s.written ==> u == s)
            && (p !in s.written && answer == Wrote ==> u.written == s.written + {p} && u.objects == s.objects + {p})
            && (p !in s.written && answer != Wrote ==> u.written == s.written && u.objects == s.objects)
            && (p !in s.written ==> u.attempted == s.attempted + {(t.table, t.hour)})
  {
  }

  function AttemptAll(name: Naming, s: Export, tries: seq<Try>, answer: Try -> Answer): Export {
    if tries == [] then s
    else Attempt(name, AttemptAll(name, s, tries[..|tries| - 1], answer), tries[|tries| - 1],
                 answer(tries[|tries| - 1]))
  }

  /** Both tables of one hour. */
  function HourTries(h: Hour, clock: nat): seq<Try> {
    [Try(TABLES[0], h, clock), Try(TABLES[1], h, clock)]
  }

  /** The hours of [from, upTo) in order. */
  function RangeTries(from: nat, upTo: Hour, clock: nat): seq<Try>
    requires from <= upTo
  {
    if from == upTo then []
    else RangeTries(from, upTo - 1, clock) + HourTries(upTo - 1, clock)
  }

  /** The most recent `k` completed hours, newest first. */
  function CatchUpTries(now: Hour, k: nat): seq<Try>
    requires k <= now
  {
    if k == 0 then [] else CatchUpTries(now, k - 1) + HourTries(now - k, now)
  }

  /** The rollover passes for a list of clock readings. */
  function RollTries(tracked: nat, readings: seq<Hour>): seq<Try>
    decreases |readings|
  {
    if readings == [] then []
    else if readings[0] > tracked then
      RangeTries(tracked, readings[0], readings[0]) + RollTries(readings[0], readings[1..])
    else RollTries(tracked, readings[1..])
  }

  function TrackedAfter(tracked: nat, readings: seq<Hour>): nat
    decreases |readings|
  {
    if readings == [] then tracked
    else TrackedAfter(if readings[0] > tracked then readings[0] else tracked, readings[1..])
  }

  /** The written-set that listing these keys adds. */
  function Listed(keys: seq<string>): set<Parsed> {
    set k | k in keys && Parse(k).Some? :: Parse(k).value
  }

  class ParquetWriter {
    const name: Naming
    var written: set<Parsed>
    var objects: set<Parsed>
    ghost var attempted: set<(string, Hour)>

    ghost function Now(): Export
      reads this
    {
      Export(written, objects, attempted)
    }

    /** A new process over an existing bucket. */
    constructor (name: Naming, objects: set<Parsed>, ghost attempted: set<(string, Hour)>)
      ensures Now() == Export({}, objects, attempted) && this.name == name
    {
      this.name := name;
      this.written, this.objects, this.attempted := {}, objects, attempted;
    }

    /** Record every recognised key of the listing.  The listing may fail part-way: `keys` is what arrived. */
    method SyncWrittenSetFromS3(keys: seq<string>)
      modifies this
      ensures Now() == old(Now()).(written := old(written) + Listed(keys))
    {
      for i := 0 to |keys|
        invariant Now() == old(Now()).(written := old(written) + Listed(keys[..i]))
      {
        assert keys[..i + 1] == keys[..i] + [keys[i]];
        var parsed := Parse(keys[i]);
        if parsed.Some? {
          written := written + {parsed.value};
        }
      }
      assert keys[..|keys|] == keys;
    }

    method MaybeWrite(t: Try, answer: Answer)
      modifies this
      ensures Now() == old(Attempt(name, Now(), t, answer))
    {
      var key := name(t.table, t.hour);
      if key in written {
        return;
      }
      var ok := WritePartition(t, answer);
      if ok {
        written := written + {key};
      }
    }

    method WritePartition(t: Try, answer: Answer) returns (ok: bool)
      modifies `objects, `attempted
      ensures ok <==> answer == Wrote
      ensures attempted == old(attempted) + {(t.table, t.hour)}
      ensures objects == if ok then old(objects) + {name(t.table, t.hour)} else old(objects)
    {
      attempted := attempted + {(t.table, t.hour)};
      ok := answer == Wrote;
      if ok {
        objects := objects + {name(t.table, t.hour)};
      }
    }

    method WriteHour(h: Hour, clock: nat, answer: Try -> Answer)
      modifies this
      ensures Now() == old(AttemptAll(name, Now(), HourTries(h, clock), answer))
    {
      ghost var s := Now();
      var i := 0;
      while i < |TABLES|
        invariant 0 <= i <= |TABLES|
        invariant Now() == AttemptAll(name, s, HourTries(h, clock)[..i], answer)
      {
        assert HourTries(h, clock)[..i + 1][..i] == HourTries(h, clock)[..i];
        MaybeWrite(Try(TABLES[i], h, clock), answer(Try(TABLES[i], h, clock)));
        i := i + 1;
      }
      assert HourTries(h, clock)[..2] == HourTries(h, clock);
    }

    method CatchUp(now: Hour, answer: Try -> Answer)
      requires LOOKBACK_HOURS <= now
      modifies this
      ensures Now() == old(AttemptAll(name, Now(), CatchUpTries(now, LOOKBACK_HOURS), answer))
    {
      ghost var s := Now();
      for hoursAgo := 1 to LOOKBACK_HOURS + 1
        invariant Now() == AttemptAll(name, s, CatchUpTries(now, hoursAgo - 1), answer)
      {
        OneMoreCatchUp(name, s, now, hoursAgo, answer);
        WriteHour(now - hoursAgo, now, answer);
      }
    }

    method FlushRolledHours(from: nat, upTo: Hour, answer: Try -> Answer)
      requires from <= upTo
      modifies this
      ensures Now() == old(AttemptAll(name, Now(), RangeTries(from, upTo, upTo), answer))
    {
      ghost var s := Now();
      var cursor: nat := from;
      while cursor < upTo
        invariant from <= cursor <= upTo
        invariant Now() == AttemptAll(name, s, RangeTries(from, cursor, upTo), answer)
      {
        AttemptJoin(name, s, RangeTries(from, cursor, upTo), HourTries(cursor, upTo), answer);
        WriteHour(cursor, upTo, answer);
        cursor := cursor + 1;
      }
    }

    /** The steady-state loop and the shutdown pass: one pass per reading that shows a new hour. */
    method Steady(tracking: Hour, readings: seq<Hour>, answer: Try -> Answer)
      modifies this
      ensures Now() == old(AttemptAll(name, Now(), RollTries(tracking, readings), answer))
    {
      ghost var end := AttemptAll(name, Now(), RollTries(tracking, readings), answer);
      var trackedHour := tracking;
      var i := 0;
      while i < |readings|
        invariant 0 <= i <= |readings|
        invariant AttemptAll(name, Now(), RollTries(trackedHour, readings[i..]), answer) == end
      {
        RollUnrolls(name, Now(), trackedHour, readings, i, answer);
        if readings[i] > trackedHour {
          FlushRolledHours(trackedHour, readings[i], answer);
          trackedHour := readings[i];
        }
        i := i + 1;
      }
    }

    /** A process that is stopped normally: the listing, the catch-up at reading `start`, the reading that
        sets the tracked hour, and the passes. */
    method Run(keys: seq<string>, start: Hour, tracking: Hour, readings: seq<Hour>, answer: Try -> Answer)
      requires LOOKBACK_HOURS <= start
      modifies this
      ensures Now() == AttemptAll(name, old(Now()).(written := old(written) + Listed(keys)),
                                  LifeTries(start, tracking, readings), answer)
    {
      SyncWrittenSetFromS3(keys);
      AttemptJoin(name, Now(), CatchUpTries(start, LOOKBACK_HOURS), RollTries(tracking, readings), answer);
      CatchUp(start, answer);
      Steady(tracking, readings, answer);
    }
  }

  /** Everything one process attempts, in order. */
  function LifeTries(start: Hour, tracking: Hour, readings: seq<Hour>): seq<Try>
    requires LOOKBACK_HOURS <= start
  {
    CatchUpTries(start, LOOKBACK_HOURS) + RollTries(tracking, readings)
  }

  lemma {:induction false} AttemptJoin(name: Naming, s: Export, a: seq<Try>, b: seq<Try>, answer: Try -> Answer)
    ensures AttemptAll(name, s, a + b, answer) == AttemptAll(name, AttemptAll(name, s, a, answer), b, answer)
  {
    if b == [] {
      assert a + b == a;
    } else {
      AttemptJoin(name, s, a, b[..|b| - 1], answer);
      assert (a + b)[..|a + b| - 1] == a + b[..|b| - 1];
    }
  }

  lemma OneMoreCatchUp(name: Naming, s: Export, now: Hour, k: nat, answer: Try -> Answer)
    requires 0 < k <= now
    ensures AttemptAll(name, s, CatchUpTries(now, k), answer)
         == AttemptAll(name, AttemptAll(name, s, CatchUpTries(now, k - 1), answer), HourTries(now - k, now), answer)
  {
    AttemptJoin(name, s, CatchUpTries(now, k - 1), HourTries(now - k, now), answer);
  }

  lemma RollUnrolls(name: Naming, s: Export, tracked: nat, readings: seq<Hour>, i: nat, answer: Try -> Answer)
    requires i < |readings|
    ensures var now := readings[i];
            AttemptAll(name, s, RollTries(tracked, readings[i..]), answer) ==
              if now > tracked then
                AttemptAll(name, AttemptAll(name, s, RangeTries(tracked, now, now), answer),
                           RollTries(now, readings[i + 1..]), answer)
              else AttemptAll(name, s, RollTries(tracked, readings[i + 1..]), answer)
  {
    var now := readings[i];
    assert readings[i..][0] == now && readings[i..][1..] == readings[i + 1..];
    if now > tracked {
      AttemptJoin(name, s, RangeTries(tracked, now, now), RollTries(now, readings[i + 1..]), answer);
    }
  }

  // ---------------------------------------------------------------- which hours a process attempts

  lemma {:induction false} RangeHas(from: nat, upTo: Hour, clock: nat, t: Try)
    requires from <= upTo
    ensures t in RangeTries(from, upTo, clock) <==> t.table in TABLES && from <= t.hour < upTo && t.clock == clock
  {
    if from < upTo {
      RangeHas(from, upTo - 1, clock, t);
    }
  }

  lemma {:induction false} CatchUpHas(now: Hour, k: nat, t: Try)
    requires k <= now
    ensures t in CatchUpTries(now, k) <==> t.table in TABLES && now - k <= t.hour < now && t.clock == now
  {
    if k > 0 {
      CatchUpHas(now, k - 1, t);
    }
  }

  lemma {:induction false} RollHas(tracked: nat, readings: seq<Hour>, table: string, h: Hour)
    ensures (exists c :: Try(table, h, c) in RollTries(tracked, readings))
            <==> table in TABLES && tracked <= h < TrackedAfter(tracked, readings)
    ensures tracked <= TrackedAfter(tracked, readings)
    decreases |readings|
  {
    if readings != [] {
      var now := readings[0];
      if now > tracked {
        RollHas(now, readings[1..], table, h);
        RangeHas(tracked, now, now, Try(table, h, now));
        forall c ensures Try(table, h, c) in RollTries(tracked, readings) <==>
                         Try(table, h, c) in RangeTries(tracked, now, now)
                         || Try(table, h, c) in RollTries(now, readings[1..]) {}
        forall c | Try(table, h, c) in RangeTries(tracked, now, now)
          ensures Try(table, h, now) in RangeTries(tracked, now, now)
        {
          RangeHas(tracked, now, now, Try(table, h, c));
        }
      } else {
        RollHas(tracked, readings[1..], table, h);
      }
    }
  }

  /** The hours a process attempts are exactly the 25 before its catch-up reading and those from its tracked
      hour to its last reading.  Hours between the catch-up reading and the tracked hour are left out. */
  lemma LifeAttemptsExactly(start: Hour, tracking: Hour, readings: seq<Hour>, table: string, h: Hour)
    requires LOOKBACK_HOURS <= start
    ensures (exists c :: Try(table, h, c) in LifeTries(start, tracking, readings)) <==>
            table in TABLES && (start - LOOKBACK_HOURS <= h < start || tracking <= h < TrackedAfter(tracking, readings))
  {
    CatchUpHas(start, LOOKBACK_HOURS, Try(table, h, start));
    RollHas(tracking, readings, table, h);
    forall c ensures Try(table, h, c) in LifeTries(start, tracking, readings) <==>
                     Try(table, h, c) in CatchUpTries(start, LOOKBACK_HOURS)
                     || Try(table, h, c) in RollTries(tracking, readings) {}
    forall c | Try(table, h, c) in CatchUpTries(start, LOOKBACK_HOURS)
      ensures Try(table, h, start) in CatchUpTries(start, LOOKBACK_HOURS)
    {
      CatchUpHas(start, LOOKBACK_HOURS, Try(table, h, c));
    }
  }

  /** The same in figures, for the two tables by name: 25 hours back, and on from the tracked hour. */
  lemma BothTablesADayBack(start: Hour, tracking: Hour, readings: seq<Hour>, h: Hour)
    requires 25 <= start
    ensures var reached := start - 25 <= h < start || tracking <= h < TrackedAfter(tracking, readings);
            && ((exists c :: Try("demand_events", h, c) in LifeTries(start, tracking, readings)) <==> reached)
            && ((exists c :: Try("weather_readings", h, c) in LifeTries(start, tracking, readings)) <==> reached)
  {
    LifeAttemptsExactly(start, tracking, readings, "demand_events", h);
    LifeAttemptsExactly(start, tracking, readings, "weather_readings", h);
    assert TABLES[0] == "demand_events" && TABLES[1] == "weather_readings";
  }

  /** The tracked hour ends up at the latest reading, or where it started if no reading is later. */
  lemma {:induction false} TrackedIsLatest(tracked: nat, readings: seq<Hour>)
    ensures var t := TrackedAfter(tracked, readings);
            (t == tracked || t in readings) && tracked <= t && forall r | r in readings :: r <= t
    decreases |readings|
  {
    if readings != [] {
      TrackedIsLatest(if readings[0] > tracked then readings[0] else tracked, readings[1..]);
      assert readings == [readings[0]] + readings[1..];
    }
  }

  // ---------------------------------------------------------------- no retry

  /** No partition is attempted twice. */
  ghost predicate Once(tries: seq<Try>) {
    forall i, j | 0 <= i < j < |tries| :: tries[i].table != tries[j].table || tries[i].hour != tries[j].hour
  }

  lemma OnceJoin(a: seq<Try>, b: seq<Try>)
    requires Once(a) && Once(b) && forall t, u | t in a && u in b :: t.hour != u.hour
    ensures Once(a + b)
  {
    forall i, j | 0 <= i < j < |a + b|
      ensures (a + b)[i].table != (a + b)[j].table || (a + b)[i].hour != (a + b)[j].hour
    {
      if i < |a| && |a| <= j {
        assert (a + b)[i] in a && (a + b)[j] in b;
      }
    }
  }

  lemma HourOnce(h: Hour, clock: nat)
    ensures Once(HourTries(h, clock))
  {
    assert |TABLES[0]| != |TABLES[1]|;
  }

  lemma {:induction false} RangeOnce(from: nat, upTo: Hour, clock: nat)
    requires from <= upTo
    ensures Once(RangeTries(from, upTo, clock))
  {
    if from < upTo {
      RangeOnce(from, upTo - 1, clock);
      HourOnce(upTo - 1, clock);
      forall t | t in RangeTries(from, upTo - 1, clock) ensures t.hour < upTo - 1 {
        RangeHas(from, upTo - 1, clock, t);
      }
      OnceJoin(RangeTries(from, upTo - 1, clock), HourTries(upTo - 1, clock));
    }
  }

  lemma {:induction false} CatchUpOnce(now: Hour, k: nat)
    requires k <= now
    ensures Once(CatchUpTries(now, k))
  {
    if 0 < k {
      CatchUpOnce(now, k - 1);
      HourOnce(now - k, now);
      forall t | t in CatchUpTries(now, k - 1) ensures now - k < t.hour { CatchUpHas(now, k - 1, t); }
      OnceJoin(CatchUpTries(now, k - 1), HourTries(now - k, now));
    }
  }

  lemma RollFrom(tracked: nat, readings: seq<Hour>, t: Try)
    requires t in RollTries(tracked, readings)
    ensures tracked <= t.hour
  {
    RollHas(tracked, readings, t.table, t.hour);
    assert Try(t.table, t.hour, t.clock) in RollTries(tracked, readings);
  }

  lemma {:induction false} RollOnce(tracked: nat, readings: seq<Hour>)
    ensures Once(RollTries(tracked, readings))
    decreases |readings|
  {
    if readings != [] {
      var now := readings[0];
      if now > tracked {
        RangeOnce(tracked, now, now);
        RollOnce(now, readings[1..]);
        forall t | t in RangeTries(tracked, now, now) ensures t.hour < now { RangeHas(tracked, now, now, t); }
        forall t | t in RollTries(now, readings[1..]) ensures now <= t.hour { RollFrom(now, readings[1..], t); }
        OnceJoin(RangeTries(tracked, now, now), RollTries(now, readings[1..]));
      } else {
        RollOnce(tracked, readings[1..]);
      }
    }
  }

  /** A process attempts each partition at most once: a failed write is not retried before the next
      start-up. */
  lemma NoRetryWithinALife(start: Hour, tracking: Hour, readings: seq<Hour>)
    requires LOOKBACK_HOURS <= start <= tracking
    ensures Once(LifeTries(start, tracking, readings))
  {
    CatchUpOnce(start, LOOKBACK_HOURS);
    RollOnce(tracking, readings);
    forall t | t in CatchUpTries(start, LOOKBACK_HOURS) ensures t.hour < start { CatchUpHas(start, LOOKBACK_HOURS, t); }
    forall t | t in RollTries(tracking, readings) ensures tracking <= t.hour { RollFrom(tracking, readings, t); }
    OnceJoin(CatchUpTries(start, LOOKBACK_HOURS), RollTries(tracking, readings));
  }

  // ---------------------------------------------------------------- no live hour

  lemma {:induction false} RollsNoLiveHour(tracked: nat, readings: seq<Hour>, t: Try)
    requires t in RollTries(tracked, readings)
    ensures t.hour < t.clock
    decreases |readings|
  {
    if readings[0] > tracked {
      RangeHas(tracked, readings[0], readings[0], t);
      if t in RollTries(readings[0], readings[1..]) { RollsNoLiveHour(readings[0], readings[1..], t); }
    } else {
      RollsNoLiveHour(tracked, readings[1..], t);
    }
  }

  /** No live hour is ever uploaded: the clock has passed the end of every hour attempted. */
  lemma NoLiveHour(start: Hour, tracking: Hour, readings: seq<Hour>, t: Try)
    requires LOOKBACK_HOURS <= start && t in LifeTries(start, tracking, readings)
    ensures t.hour < t.clock
  {
    if t in CatchUpTries(start, LOOKBACK_HOURS) {
      CatchUpHas(start, LOOKBACK_HOURS, t);
    } else {
      RollsNoLiveHour(tracking, readings, t);
    }
  }

  // ---------------------------------------------------------------- the written set

  /** `_written` names only partitions whose object is in the bucket. */
  ghost predicate Honest(s: Export) {
    s.written <= s.objects
  }

  lemma {:induction false} AttemptsStayHonest(name: Naming, s: Export, tries: seq<Try>, answer: Try -> Answer)
    requires Honest(s)
    ensures var t := AttemptAll(name, s, tries, answer);
            Honest(t) && s.written <= t.written && s.objects <= t.objects && s.attempted <= t.attempted
  {
    if tries != [] {
      AttemptsStayHonest(name, s, tries[..|tries| - 1], answer);
    }
  }

  /** The partitions whose canonical key is among the keys of a bucket. */
  ghost predicate ObjectsOf(objects: set<Parsed>, bucket: set<string>) {
    forall r :: r in objects <==> Regular(r) && Canonical(r.table, r.dt, r.hour) in bucket
  }

  /** Starting from a listing makes `_written` honest if and only if, whatever a listed key ends in, the
      canonical key it ends in is itself in the bucket. */
  lemma ListingIsHonestIff(s: Export, bucket: set<string>, keys: seq<string>)
    requires ObjectsOf(s.objects, bucket)
    ensures Honest(s.(written := Listed(keys))) <==>
            forall k, r | k in keys && Regular(r) && EndsIn(k, r) :: Canonical(r.table, r.dt, r.hour) in bucket
  {
    var t := s.(written := Listed(keys));
    if Honest(t) {
      forall k, r | k in keys && Regular(r) && EndsIn(k, r) ensures Canonical(r.table, r.dt, r.hour) in bucket {
        EndsInParses(k, r);
        assert r in Listed(keys);
      }
    }
    if forall k, r | k in keys && Regular(r) && EndsIn(k, r) :: Canonical(r.table, r.dt, r.hour) in bucket {
      forall r | r in Listed(keys) ensures r in s.objects {
        var k :| k in keys && Parse(k) == Some(r);
        ParseIsEndsIn(k, r);
      }
    }
  }

  /** It can fail: with nothing in the bucket but a copy of a key below another prefix, the original counts as
      written. */
  lemma CopyMakesListingDishonest(table: string, d: Date, hour: nat)
    requires SlashFree(table) && hour < 24
    ensures var copy := "raw/archive/" + RawKey(table, d, hour);
            ObjectsOf({}, {copy}) && !Honest(Export(Listed([copy]), {}, {}))
  {
    var copy := "raw/archive/" + RawKey(table, d, hour);
    CopiesParseAsOriginals(table, d, hour);
    assert Parsed(table, PrintDate(d), hour) in Listed([copy]);
    forall r | Regular(r) ensures Canonical(r.table, r.dt, r.hour) != copy {
      if Canonical(r.table, r.dt, r.hour) == copy {
        CanonicalIsNoCopy(r, RawKey(table, d, hour));
      }
    }
  }

  lemma CanonicalIsNoCopy(r: Parsed, key: string)
    requires Regular(r) && |key| >= 4 && key[..4] == "raw/"
    ensures Canonical(r.table, r.dt, r.hour) != "raw/archive/" + key
  {
    CanonicalParsesHere(r, "");
    assert Canonical(r.table, r.dt, r.hour) + "" == Canonical(r.table, r.dt, r.hour);
    ArchivePrefixNeverMatches(key, 0);
    assert ("raw/archive/" + key)[0..] == "raw/archive/" + key;
  }

  /** A listing of nothing but what the exporter itself has put there is honest. */
  lemma OwnListingIsHonest(s: Export, keys: seq<string>)
    requires forall k | k in keys && Parse(k).Some? ::
               exists t, h :: SlashFree(t) && HourPrintable(h) && KeyOf(t, h) in s.objects && IsKeyOf(k, t, h)
    ensures Honest(s.(written := Listed(keys)))
  {
    forall k | k in keys && Parse(k).Some? ensures Parse(k).value in s.objects {
      var t, h :| SlashFree(t) && HourPrintable(h) && KeyOf(t, h) in s.objects && IsKeyOf(k, t, h);
      KeyOfIsFaithful(t, h, t, h);
    }
  }

  predicate IsKeyOf(key: string, table: string, h: Hour) {
    key == Canonical(table, KeyOf(table, h).dt, KeyOf(table, h).hour)
  }

  /** The hour was attempted, or its object is already in the bucket. */
  predicate Tried(name: Naming, s: Export, table: string, h: Hour) {
    (table, h) in s.attempted || name(table, h) in s.objects
  }

  lemma TriedStays(name: Naming, s: Export, tries: seq<Try>, answer: Try -> Answer, table: string, h: Hour)
    requires Honest(s) && Tried(name, s, table, h)
    ensures Tried(name, AttemptAll(name, s, tries, answer), table, h)
  {
    AttemptsStayHonest(name, s, tries, answer);
  }

  lemma {:induction false} AttemptedIsTried(name: Naming, s: Export, tries: seq<Try>, answer: Try -> Answer, i: nat)
    requires Honest(s) && i < |tries|
    ensures Tried(name, AttemptAll(name, s, tries, answer), tries[i].table, tries[i].hour)
  {
    var n := |tries| - 1;
    AttemptsStayHonest(name, s, tries[..n], answer);
    if i < n {
      AttemptedIsTried(name, s, tries[..n], answer, i);
    }
  }

  /** One process: what it lists, its clock readings, and after how many attempts it ends.  Ending before
      the last attempt is a crash. */
  datatype Life = Life(keys: seq<string>, start: Hour, tracking: Hour, readings: seq<Hour>, ends: nat,
                       answer: Try -> Answer)

  predicate LifeOk(l: Life) {
    LOOKBACK_HOURS <= l.start <= l.tracking && l.ends <= |LifeTries(l.start, l.tracking, l.readings)|
  }

  function AfterLife(name: Naming, s: Export, l: Life): Export
    requires LifeOk(l)
  {
    AttemptAll(name, s.(written := Listed(l.keys)), LifeTries(l.start, l.tracking, l.readings)[..l.ends], l.answer)
  }

  /** The first hour not known to be tried, if `frontier` was it before this process. */
  function FrontierAfter(frontier: nat, l: Life): nat
    requires LifeOk(l)
  {
    if l.ends < 2 * LOOKBACK_HOURS then frontier
    else Max(frontier, l.tracking + (l.ends - 2 * LOOKBACK_HOURS) / 2)
  }

  function Max(a: nat, b: nat): nat {
    if a < b then b else a
  }

  /** The process was started with at most 25 completed hours behind, and not across an hour boundary. */
  predicate StartsInTime(frontier: nat, l: Life) {
    l.start - LOOKBACK_HOURS <= frontier && l.start == l.tracking
  }

  ghost predicate CoveredTo(name: Naming, s: Export, origin: nat, frontier: nat) {
    forall table, h: Hour | table in TABLES && origin <= h < frontier :: Tried(name, s, table, h)
  }

  lemma {:induction false} CatchUpLength(now: Hour, k: nat)
    requires k <= now
    ensures |CatchUpTries(now, k)| == 2 * k
  {
    if k > 0 { CatchUpLength(now, k - 1); }
  }

  /** The catch-up goes backwards: its j-th pair of attempts is the j-th hour before the reading. */
  lemma {:induction false} CatchUpGoesBack(now: Hour, k: nat, j: nat)
    requires 1 <= j <= k <= now
    ensures |CatchUpTries(now, k)| == 2 * k
    ensures CatchUpTries(now, k)[2 * j - 2] == Try("demand_events", now - j, now)
    ensures CatchUpTries(now, k)[2 * j - 1] == Try("weather_readings", now - j, now)
  {
    CatchUpLength(now, k);
    CatchUpLength(now, k - 1);
    if j < k {
      CatchUpGoesBack(now, k - 1, j);
    }
  }

  /** Where the attempts of a pass over hours sit. */
  lemma {:induction false} RangeAt(from: nat, upTo: Hour, clock: nat, h: Hour)
    requires from <= h < upTo
    ensures |RangeTries(from, upTo, clock)| == 2 * (upTo - from)
    ensures RangeTries(from, upTo, clock)[2 * (h - from)] == Try(TABLES[0], h, clock)
    ensures RangeTries(from, upTo, clock)[2 * (h - from) + 1] == Try(TABLES[1], h, clock)
  {
    RangeLength(from, upTo - 1, clock);
    if h < upTo - 1 {
      RangeAt(from, upTo - 1, clock, h);
    }
  }

  lemma {:induction false} RangeLength(from: nat, upTo: Hour, clock: nat)
    requires from <= upTo
    ensures |RangeTries(from, upTo, clock)| == 2 * (upTo - from)
  {
    if from < upTo {
      RangeLength(from, upTo - 1, clock);
    }
  }

  lemma {:induction false} RollAt(tracked: nat, readings: seq<Hour>, h: Hour)
    requires tracked <= h && 2 * (h - tracked) + 1 < |RollTries(tracked, readings)|
    ensures RollTries(tracked, readings)[2 * (h - tracked)].table == TABLES[0]
    ensures RollTries(tracked, readings)[2 * (h - tracked) + 1].table == TABLES[1]
    ensures RollTries(tracked, readings)[2 * (h - tracked)].hour == h
    ensures RollTries(tracked, readings)[2 * (h - tracked) + 1].hour == h
    decreases |readings|
  {
    if readings[0] > tracked {
      RangeLength(tracked, readings[0], readings[0]);
      if h < readings[0] {
        RangeAt(tracked, readings[0], readings[0], h);
      } else {
        RollAt(readings[0], readings[1..], h);
      }
    } else {
      RollAt(tracked, readings[1..], h);
    }
  }

  lemma TriedInLife(name: Naming, s: Export, l: Life, i: nat)
    requires LifeOk(l) && i < l.ends && Honest(s.(written := Listed(l.keys)))
    ensures var t := LifeTries(l.start, l.tracking, l.readings)[i]; Tried(name, AfterLife(name, s, l), t.table, t.hour)
  {
    AttemptedIsTried(name, s.(written := Listed(l.keys)), LifeTries(l.start, l.tracking, l.readings)[..l.ends],
                     l.answer, i);
  }

  /** Hours the catch-up reached. */
  lemma CatchUpCovers(name: Naming, s: Export, l: Life, table: string, h: Hour)
    requires LifeOk(l) && 2 * LOOKBACK_HOURS <= l.ends && Honest(s.(written := Listed(l.keys)))
    requires table in TABLES && l.start - LOOKBACK_HOURS <= h < l.start
    ensures Tried(name, AfterLife(name, s, l), table, h)
  {
    var c := CatchUpTries(l.start, LOOKBACK_HOURS);
    CatchUpHas(l.start, LOOKBACK_HOURS, Try(table, h, l.start));
    CatchUpLength(l.start, LOOKBACK_HOURS);
    var i :| 0 <= i < |c| && c[i] == Try(table, h, l.start);
    TriedInLife(name, s, l, i);
  }

  /** Hours the rollover passes reached. */
  lemma RollsCover(name: Naming, s: Export, l: Life, table: string, h: Hour)
    requires LifeOk(l) && 2 * LOOKBACK_HOURS <= l.ends && Honest(s.(written := Listed(l.keys)))
    requires table in TABLES && l.tracking <= h < l.tracking + (l.ends - 2 * LOOKBACK_HOURS) / 2
    ensures Tried(name, AfterLife(name, s, l), table, h)
  {
    CatchUpLength(l.start, LOOKBACK_HOURS);
    RollAt(l.tracking, l.readings, h);
    var i := 2 * LOOKBACK_HOURS + 2 * (h - l.tracking) + (if table == TABLES[0] then 0 else 1);
    TriedInLife(name, s, l, i);
  }

  lemma LifeExtendsCoverage(name: Naming, s: Export, l: Life, origin: nat, frontier: nat)
    requires LifeOk(l) && StartsInTime(frontier, l) && Honest(s.(written := Listed(l.keys)))
    requires CoveredTo(name, s, origin, frontier)
    ensures CoveredTo(name, AfterLife(name, s, l), origin, FrontierAfter(frontier, l))
  {
    forall table, h: Hour | table in TABLES && origin <= h < FrontierAfter(frontier, l)
      ensures Tried(name, AfterLife(name, s, l), table, h)
    {
      if h < frontier {
        assert Tried(name, s, table, h);
        TriedStays(name, s.(written := Listed(l.keys)), LifeTries(l.start, l.tracking, l.readings)[..l.ends],
                   l.answer, table, h);
      } else if h < l.start {
        CatchUpCovers(name, s, l, table, h);
      } else {
        RollsCover(name, s, l, table, h);
      }
    }
  }

  /** The bucket and history after a list of processes. */
  function AfterLives(name: Naming, s: Export, lives: seq<Life>): Export
    requires forall l | l in lives :: LifeOk(l)
  {
    if lives == [] then s else AfterLife(name, AfterLives(name, s, lives[..|lives| - 1]), lives[|lives| - 1])
  }

  function Frontier(origin: nat, lives: seq<Life>): nat
    requires forall l | l in lives :: LifeOk(l)
  {
    if lives == [] then origin else FrontierAfter(Frontier(origin, lives[..|lives| - 1]), lives[|lives| - 1])
  }

  /** Every process starts in time and lists only what is in the bucket. */
  ghost predicate AllInTime(name: Naming, s: Export, origin: nat, lives: seq<Life>)
    requires forall l | l in lives :: LifeOk(l)
  {
    lives == [] ||
    (var init, l := lives[..|lives| - 1], lives[|lives| - 1];
     && AllInTime(name, s, origin, init)
     && StartsInTime(Frontier(origin, init), l)
     && Honest(AfterLives(name, s, init).(written := Listed(l.keys))))
  }

  /** Coverage over process lifetimes: whatever fails and wherever the processes crash, if each starts with at
      most 25 completed hours behind and not across an hour boundary, every hour from `origin` up to the
      frontier is attempted or in the bucket, for both tables, and `_written` stays honest. */
  lemma {:induction false} Coverage(name: Naming, s: Export, origin: nat, lives: seq<Life>)
    requires (forall l | l in lives :: LifeOk(l)) && AllInTime(name, s, origin, lives) && Honest(s)
    ensures CoveredTo(name, AfterLives(name, s, lives), origin, Frontier(origin, lives))
    ensures Honest(AfterLives(name, s, lives))
  {
    if lives != [] {
      var init, l := lives[..|lives| - 1], lives[|lives| - 1];
      Coverage(name, s, origin, init);
      LifeExtendsCoverage(name, AfterLives(name, s, init), l, origin, Frontier(origin, init));
      AttemptsStayHonest(name, AfterLives(name, s, init).(written := Listed(l.keys)),
                         LifeTries(l.start, l.tracking, l.readings)[..l.ends], l.answer);
    }
  }

  lemma {:induction false} RollLength(tracked: nat, readings: seq<Hour>)
    ensures |RollTries(tracked, readings)| == 2 * (TrackedAfter(tracked, readings) - tracked)
    ensures tracked <= TrackedAfter(tracked, readings)
    decreases |readings|
  {
    if readings != [] {
      if readings[0] > tracked {
        RangeLength(tracked, readings[0], readings[0]);
        RollLength(readings[0], readings[1..]);
      } else {
        RollLength(tracked, readings[1..]);
      }
    }
  }

  /** For a process that has finished its passes, the frontier has reached its last clock reading. */
  lemma FrontierIsTrackedHour(frontier: nat, l: Life)
    requires LifeOk(l) && l.ends == |LifeTries(l.start, l.tracking, l.readings)|
    ensures TrackedAfter(l.tracking, l.readings) <= FrontierAfter(frontier, l)
  {
    CatchUpLength(l.start, LOOKBACK_HOURS);
    RollLength(l.tracking, l.readings);
  }
}
