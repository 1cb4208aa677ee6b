/** Object keys of the lake: printing, parsing and ordering hour partitions
    (services/ingestor/app/parquet_writer.py, tools/backfill.py, tools/reconstruct.py).

    Digits are the ASCII ones. */
module LakeKeys {
  import opened Options

  // ---------------------------------------------------------------- the calendar

  datatype Date = Date(year: nat, month: nat, day: nat)

  predicate Leap(y: nat) {
    y % 4 == 0 && (y % 100 != 0 || y % 400 == 0)
  }

  function DaysIn(y: nat, m: nat): nat {
    if m == 2 then (if Leap(y) then 29 else 28) else if m == 4 || m == 6 || m == 9 || m == 11 then 30 else 31
  }

  predicate Valid(d: Date) {
    1 <= d.month <= 12 && 1 <= d.day <= DaysIn(d.year, d.month)
  }

  /** date + timedelta(days=1) */
  function NextDay(d: Date): (r: Date)
    requires Valid(d)
    ensures Valid(r)
  {
    if d.day < DaysIn(d.year, d.month) then d.(day := d.day + 1)
    else if d.month < 12 then Date(d.year, d.month + 1, 1)
    else Date(d.year + 1, 1, 1)
  }

  /** The date `n` days after 1 January 1000, the first day whose year prints with four digits. */
  function DateOf(n: nat): (d: Date)
    ensures Valid(d)
  {
    if n == 0 then Date(1000, 1, 1) else NextDay(DateOf(n - 1))
  }

  // ---------------------------------------------------------------- the Gregorian day count

  /** Days of a common year before each month. */
  const BEFORE_MONTH: seq<nat> := [0, 31, 59, 90, 120, 151, 181, 212, 243, 273, 304, 334, 365]

  /** One day in a year divisible by 4 but not by 100, or by 400. */
  function LeapDay(y: nat): nat {
    (if y % 4 == 0 then 1 else 0) - (if y % 100 == 0 then 1 else 0) + (if y % 400 == 0 then 1 else 0)
  }

  /** A day of the Gregorian calendar. */
  predicate IsDay(d: Date) {
    && 1 <= d.year && 1 <= d.month <= 12
    && 1 <= d.day <= BEFORE_MONTH[d.month] - BEFORE_MONTH[d.month - 1] + (if d.month == 2 then LeapDay(d.year) else 0)
  }

  /** The number of days in the years before year `y`, from year 1 on. */
  function BeforeYear(y: nat): int
    requires 1 <= y
  {
    365 * (y - 1) + (y - 1) / 4 - (y - 1) / 100 + (y - 1) / 400
  }

  /** 1 January of year 1 is day 1. */
  function DayNumber(d: Date): int
    requires IsDay(d)
  {
    BeforeYear(d.year) + BEFORE_MONTH[d.month - 1] + (if 2 < d.month then LeapDay(d.year) else 0) + d.day
  }

  lemma OneMoreYear(y: nat)
    requires 1 <= y
    ensures BeforeYear(y + 1) == BeforeYear(y) + 365 + LeapDay(y)
  {
    assert y / 4 == (y - 1) / 4 + (if y % 4 == 0 then 1 else 0);
    assert y / 100 == (y - 1) / 100 + (if y % 100 == 0 then 1 else 0);
    assert y / 400 == (y - 1) / 400 + (if y % 400 == 0 then 1 else 0);
  }

  lemma LeapDayIsOne(y: nat)
    ensures LeapDay(y) == if Leap(y) then 1 else 0
  {
    DivisorsNest(y);
  }

  lemma HundredsAreFours(q: nat)
    ensures (100 * q) % 4 == 0
  {
  }

  lemma FourHundredsAreHundreds(q: nat)
    ensures (400 * q) % 100 == 0
  {
  }

  lemma DivisorsNest(y: nat)
    ensures y % 400 == 0 ==> y % 100 == 0
    ensures y % 100 == 0 ==> y % 4 == 0
  {
    HundredsAreFours(y / 100);
    FourHundredsAreHundreds(y / 400);
  }

  lemma ValidIsDay(d: Date)
    requires 1 <= d.year
    ensures Valid(d) <==> IsDay(d)
  {
    LeapDayIsOne(d.year);
  }

  lemma NextDayIsOneMore(d: Date)
    requires Valid(d) && IsDay(d)
    ensures IsDay(NextDay(d)) && DayNumber(NextDay(d)) == DayNumber(d) + 1
  {
    LeapDayIsOne(d.year);
    ValidIsDay(NextDay(d));
    OneMoreYear(d.year);
  }

  const FIRST_DAY := Date(1000, 1, 1)

  /** The naming of days is the Gregorian calendar's: the n-th date is n days after 1 January 1000. */
  lemma {:induction false} DateOfIsGregorian(n: nat)
    ensures IsDay(DateOf(n)) && DayNumber(DateOf(n)) == DayNumber(FIRST_DAY) + n
  {
    if n > 0 {
      DateOfIsGregorian(n - 1);
      NextDayIsOneMore(DateOf(n - 1));
    }
  }

  lemma {:induction false} YearsAdd(y: nat, z: nat)
    requires 1 <= y < z
    ensures BeforeYear(y) + 365 + LeapDay(y) <= BeforeYear(z)
  {
    if y + 1 < z {
      YearsAdd(y, z - 1);
      LeapDayIsOne(z - 1);
      OneMoreYear(z - 1);
    } else {
      OneMoreYear(y);
    }
  }

  lemma WithinYear(d: Date)
    requires IsDay(d)
    ensures BeforeYear(d.year) < DayNumber(d) <= BeforeYear(d.year) + 365 + LeapDay(d.year)
  {
    LeapDayIsOne(d.year);
  }

  /** A day number names one day only. */
  lemma DayNumberIsInjective(a: Date, b: Date)
    requires IsDay(a) && IsDay(b) && DayNumber(a) == DayNumber(b)
    ensures a == b
  {
    WithinYear(a);
    WithinYear(b);
    if a.year < b.year { YearsAdd(a.year, b.year); }
    if b.year < a.year { YearsAdd(b.year, a.year); }
    LeapDayIsOne(a.year);
  }

  predicate Earlier(a: Date, b: Date) {
    a.year < b.year || (a.year == b.year && (a.month < b.month || (a.month == b.month && a.day < b.day)))
  }

  lemma {:induction false} DaysAreOrdered(m: nat, n: nat)
    requires m < n
    ensures Earlier(DateOf(m), DateOf(n))
  {
    if m < n - 1 {
      DaysAreOrdered(m, n - 1);
    }
  }

  // ---------------------------------------------------------------- printing

  function Digit(n: nat): char
    requires n < 10
  {
    ('0' as int + n) as char
  }

  /** The last two digits of `n`. */
  function Print2(n: nat): string {
    [Digit(n / 10 % 10), Digit(n % 10)]
  }

  function Print4(n: nat): string {
    Print2(n / 100) + Print2(n % 100)
  }

  predicate Printable(d: Date) {
    Valid(d) && d.year < 10000
  }

  function PrintDate(d: Date): (s: string)
    ensures IsDateText(s)
  {
    Print4(d.year) + "-" + Print2(d.month) + "-" + Print2(d.day)
  }

  /** The canonical key of an exported hour. */
  function RawKey(table: string, d: Date, hour: nat): string {
    Canonical(table, PrintDate(d), hour)
  }

  /** What follows the table name. */
  function TailText(dt: string, hour: nat): string {
    "/dt=" + dt + "/hour=" + Print2(hour) + "/data.parquet"
  }

  function Canonical(table: string, dt: string, hour: nat): string {
    "raw/" + (table + TailText(dt, hour))
  }

  /** A key, spelled out: the seventh hour of 1 March 2025. */
  lemma KeySpelledOut(table: string)
    ensures RawKey(table, Date(2025, 3, 1), 7)
         == "raw/" + (table + ("/dt=" + "2025-03-01" + "/hour=" + "07" + "/data.parquet"))
  {
    assert Print4(2025) == "2025" && Print2(3) == "03" && Print2(1) == "01" && Print2(7) == "07";
    assert PrintDate(Date(2025, 3, 1)) == "2025-03-01";
  }

  // ---------------------------------------------------------------- parsing

  predicate IsDigit(c: char) {
    '0' <= c <= '9'
  }

  function Value(c: char): nat
    requires IsDigit(c)
  {
    c as int - '0' as int
  }

  /** \d{4}-\d{2}-\d{2} */
  predicate IsDateText(s: string) {
    && |s| == 10
    && (forall i | i in [0, 1, 2, 3, 5, 6, 8, 9] :: IsDigit(s[i]))
    && s[4] == '-' && s[7] == '-'
  }

  function FirstSlash(s: string): (i: nat)
    ensures i <= |s| && (forall j | 0 <= j < i :: s[j] != '/') && (i < |s| ==> s[i] == '/')
  {
    if s == [] || s[0] == '/' then 0 else 1 + FirstSlash(s[1..])
  }

  datatype Parsed = Parsed(table: string, dt: string, hour: nat)

  /** What follows the table name, up to the end of the key or a final newline. */
  function ParseTail(table: string, tail: string): Option<Parsed> {
    if && (|tail| == 35 || (|tail| == 36 && tail[35] == '\n'))
       && tail[..4] == "/dt=" && IsDateText(tail[4..14])
       && tail[14..20] == "/hour=" && IsDigit(tail[20]) && IsDigit(tail[21])
       && tail[22..35] == "/data.parquet"
    then Some(Parsed(table, tail[4..14], 10 * Value(tail[20]) + Value(tail[21])))
    else None
  }

  /** The pattern matched at the start of `s`.  The table is [^/]+, so it ends at the first slash. */
  function ParseHere(s: string): Option<Parsed> {
    if |s| < 4 || s[..4] != "raw/" then None
    else
      var i := FirstSlash(s[4..]);
      if i == 0 then None else ParseTail(s[4..4 + i], s[4 + i..])
  }

  /** The pattern searched from the left: it need not start where the key starts. */
  function Parse(key: string): Option<Parsed> {
    if ParseHere(key).Some? then ParseHere(key)
    else if key == [] then None
    else Parse(key[1..])
  }

  predicate SlashFree(table: string) {
    table != [] && '/' !in table
  }

  lemma FirstSlashAfter(table: string, tail: string)
    requires '/' !in table && tail != [] && tail[0] == '/'
    ensures FirstSlash(table + tail) == |table|
  {
    var s := table + tail;
    assert forall j | 0 <= j < |table| :: s[j] == table[j] && table[j] in table;
    assert s[|table|] == '/';
  }

  lemma TailParses(table: string, dt: string, hour: nat)
    requires IsDateText(dt) && hour < 100
    ensures ParseTail(table, TailText(dt, hour)) == Some(Parsed(table, dt, hour))
  {
    var tail := TailText(dt, hour);
    assert |tail| == 35;
    assert tail[..4] == "/dt=";
    assert tail[4..14] == dt;
    assert tail[14..20] == "/hour=";
    assert tail[20] == Print2(hour)[0] && tail[21] == Print2(hour)[1];
    assert tail[22..35] == "/data.parquet";
  }

  /** Parsing a printed key gives the table, the date text and the hour back. */
  lemma ParseOfRawKey(table: string, d: Date, hour: nat)
    requires SlashFree(table) && hour < 24
    ensures Parse(RawKey(table, d, hour)) == Some(Parsed(table, PrintDate(d), hour))
  {
    var tail := TailText(PrintDate(d), hour);
    var s := table + tail;
    FirstSlashAfter(table, tail);
    assert s[..|table|] == table && s[|table|..] == tail;
    TailParses(table, PrintDate(d), hour);
    ParseHereSplits("raw/" + s, |table|);
    assert ("raw/" + s)[4..] == s;
  }

  lemma ParseHereSplits(s: string, i: nat)
    requires |s| >= 4 && s[..4] == "raw/" && FirstSlash(s[4..]) == i > 0
    ensures ParseHere(s) == ParseTail(s[4..][..i], s[4..][i..])
  {
    assert s[4..4 + i] == s[4..][..i] && s[4 + i..] == s[4..][i..];
  }

  lemma TailIsSound(table: string, tail: string)
    requires ParseTail(table, tail).Some?
    ensures var r := ParseTail(table, tail).value;
            && r.table == table && IsDateText(r.dt) && r.hour < 100
            && tail == TailText(r.dt, r.hour) + tail[35..] && (tail[35..] == "" || tail[35..] == "\n")
  {
    var r := ParseTail(table, tail).value;
    assert Print2(r.hour) == [tail[20], tail[21]];
    assert tail == tail[..4] + tail[4..14] + tail[14..20] + [tail[20], tail[21]] + tail[22..35] + tail[35..];
  }

  /** The key is the canonical key of `r`, with something before it and at most a newline after it. */
  ghost predicate EndsIn(key: string, r: Parsed) {
    exists before, after :: (after == "" || after == "\n") && key == before + Canonical(r.table, r.dt, r.hour) + after
  }

  lemma HereIsSound(key: string)
    requires ParseHere(key).Some?
    ensures var r := ParseHere(key).value; SlashFree(r.table) && IsDateText(r.dt) && r.hour < 100 && EndsIn(key, r)
  {
    var i := FirstSlash(key[4..]);
    var table, tail := key[4..][..i], key[4..][i..];
    ParseHereSplits(key, i);
    TailIsSound(table, tail);
    NoSlashBefore(key[4..], i);
    Reassembled(key, i);
    Joined(key, "", ParseHere(key).value, tail[35..]);
  }

  lemma Reassembled(key: string, i: nat)
    requires 4 <= |key| && key[..4] == "raw/" && i <= |key[4..]|
    ensures key == "" + ("raw/" + (key[4..][..i] + key[4..][i..]))
  {
    assert key == key[..4] + key[4..];
  }

  lemma NoSlashBefore(s: string, i: nat)
    requires i == FirstSlash(s)
    ensures '/' !in s[..i]
  {
  }

  lemma Joined(key: string, before: string, r: Parsed, after: string)
    requires after == "" || after == "\n"
    requires key == before + ("raw/" + (r.table + (TailText(r.dt, r.hour) + after)))
    ensures EndsIn(key, r)
  {
    assert key == before + Canonical(r.table, r.dt, r.hour) + after;
  }

  /** What a successful parse says about a key: it ends in the canonical form, a final newline aside. */
  lemma {:induction false} ParseIsSound(key: string)
    requires Parse(key).Some?
    ensures var r := Parse(key).value; SlashFree(r.table) && IsDateText(r.dt) && r.hour < 100 && EndsIn(key, r)
  {
    if ParseHere(key).Some? {
      HereIsSound(key);
    } else {
      ParseIsSound(key[1..]);
      LongerEndsIn(key, Parse(key).value);
    }
  }

  lemma LongerEndsIn(key: string, r: Parsed)
    requires key != [] && EndsIn(key[1..], r)
    ensures EndsIn(key, r)
  {
    var before, after :|
        (after == "" || after == "\n") && key[1..] == before + Canonical(r.table, r.dt, r.hour) + after;
    assert key == [key[0]] + key[1..];
    assert key == ([key[0]] + before) + Canonical(r.table, r.dt, r.hour) + after;
  }

  // ---------------------------------------------------------------- and the converse

  /** A parse result the pattern can give. */
  predicate Regular(r: Parsed) {
    SlashFree(r.table) && IsDateText(r.dt) && r.hour < 100
  }

  lemma TailShape(dt: string, hour: nat)
    requires IsDateText(dt) && hour < 100
    ensures var tail := TailText(dt, hour);
            && |tail| == 35 && tail[0] == '/' && tail[34] == 't'
            && tail[4..14] == dt && tail[20..22] == Print2(hour)
  {
    var tail := TailText(dt, hour);
    assert tail == "/dt=" + dt + "/hour=" + Print2(hour) + "/data.parquet";
  }

  lemma TailWithNewlineParses(table: string, dt: string, hour: nat, after: string)
    requires IsDateText(dt) && hour < 100 && (after == "" || after == "\n")
    ensures ParseTail(table, TailText(dt, hour) + after) == Some(Parsed(table, dt, hour))
  {
    TailParses(table, dt, hour);
    var t, s := TailText(dt, hour), TailText(dt, hour) + after;
    TailShape(dt, hour);
    assert s[..35] == t;
    assert s[..4] == t[..4] && s[4..14] == t[4..14] && s[14..20] == t[14..20] && s[22..35] == t[22..35];
  }

  lemma CanonicalParsesHere(r: Parsed, after: string)
    requires Regular(r) && (after == "" || after == "\n")
    ensures ParseHere(Canonical(r.table, r.dt, r.hour) + after).Some?
  {
    var tail := TailText(r.dt, r.hour) + after;
    var s := Canonical(r.table, r.dt, r.hour) + after;
    TailShape(r.dt, r.hour);
    TailWithNewlineParses(r.table, r.dt, r.hour, after);
    FirstSlashAfter(r.table, tail);
    assert s == "raw/" + (r.table + tail);
    assert s[4..] == r.table + tail;
    assert (r.table + tail)[..|r.table|] == r.table && (r.table + tail)[|r.table|..] == tail;
    ParseHereSplits(s, |r.table|);
  }

  lemma {:induction false} SuffixParses(before: string, s: string)
    requires Parse(s).Some?
    ensures Parse(before + s).Some?
  {
    if before == "" {
      assert before + s == s;
    } else {
      SuffixParses(before[1..], s);
      assert (before + s)[1..] == before[1..] + s;
    }
  }

  /** A text ends in one table name after a slash in one way only. */
  lemma LastSegment(a: string, t: string, b: string, u: string)
    requires a + ("/" + t) == b + ("/" + u) && '/' !in t && '/' !in u
    ensures t == u
  {
    var s := a + ("/" + t);
    assert s[|a|] == '/' && s[|b|] == '/';
    forall i | |a| < i < |s| ensures s[i] != '/' { assert s[i] == t[i - |a| - 1]; }
    forall i | |b| < i < |s| ensures s[i] != '/' { assert s[i] == u[i - |b| - 1]; }
    assert |a| == |b|;
    assert s[|a| + 1..] == t && s[|b| + 1..] == u;
  }

  lemma SameTail(dt: string, hour: nat, et: string, other: nat)
    requires IsDateText(dt) && hour < 100 && IsDateText(et) && other < 100 && TailText(dt, hour) == TailText(et, other)
    ensures dt == et && hour == other
  {
    TailShape(dt, hour);
    TailShape(et, other);
    Print2Injective(hour, other);
  }

  /** The key, split at its last 35 characters (not counting a newline). */
  lemma SplitEnd(key: string, before: string, r: Parsed, after: string)
    requires Regular(r) && (after == "" || after == "\n") && key == before + Canonical(r.table, r.dt, r.hour) + after
    ensures var n := |key| - |after| - 35;
            && 0 <= n && key[n..n + 35] == TailText(r.dt, r.hour) && key[..n] == before + "raw" + ("/" + r.table)
            && key[n + 34] == 't' && (after == "\n" <==> key[|key| - 1] == '\n')
  {
    TailShape(r.dt, r.hour);
    var tail := TailText(r.dt, r.hour);
    var front := before + "raw" + ("/" + r.table);
    assert "raw/" == "raw" + "/";
    assert key == front + (tail + after);
    assert key[|front|..] == tail + after;
    assert key[..|front|] == front;
  }

  lemma EndsInOneWay(key: string, r: Parsed, q: Parsed)
    requires Regular(r) && Regular(q) && EndsIn(key, r) && EndsIn(key, q)
    ensures r == q
  {
    var before, after :| (after == "" || after == "\n") && key == before + Canonical(r.table, r.dt, r.hour) + after;
    var front, rest :| (rest == "" || rest == "\n") && key == front + Canonical(q.table, q.dt, q.hour) + rest;
    SplitEnd(key, before, r, after);
    SplitEnd(key, front, q, rest);
    assert after == rest;
    SameTail(r.dt, r.hour, q.dt, q.hour);
    LastSegment(before + "raw", r.table, front + "raw", q.table);
  }

  lemma EndsInParses(key: string, r: Parsed)
    requires Regular(r) && EndsIn(key, r)
    ensures Parse(key) == Some(r)
  {
    var before, after :| (after == "" || after == "\n") && key == before + Canonical(r.table, r.dt, r.hour) + after;
    CanonicalParsesHere(r, after);
    SuffixParses(before, Canonical(r.table, r.dt, r.hour) + after);
    assert key == before + (Canonical(r.table, r.dt, r.hour) + after);
    ParseIsSound(key);
    EndsInOneWay(key, r, Parse(key).value);
  }

  /** What the search finds, exactly: a key parses to `r` if and only if `r` is regular and the key ends in its
      canonical form, whatever stands before it and a final newline aside. */
  lemma ParseIsEndsIn(key: string, r: Parsed)
    ensures Parse(key) == Some(r) <==> Regular(r) && EndsIn(key, r)
  {
    if Parse(key) == Some(r) { ParseIsSound(key); }
    if Regular(r) && EndsIn(key, r) { EndsInParses(key, r); }
  }

  lemma Print2Injective(m: nat, n: nat)
    requires m < 100 && n < 100 && Print2(m) == Print2(n)
    ensures m == n
  {
    assert Print2(m)[0] == Print2(n)[0] && Print2(m)[1] == Print2(n)[1];
  }

  lemma PrintDateParts(d: Date)
    ensures var s := PrintDate(d);
            s[..2] == Print2(d.year / 100) && s[2..4] == Print2(d.year % 100)
            && s[5..7] == Print2(d.month) && s[8..] == Print2(d.day)
  {
    var y, z := Print2(d.year / 100), Print2(d.year % 100);
    assert (y + z)[..2] == y && (y + z)[2..4] == z;
    assert PrintDate(d)[..4] == y + z;
  }

  lemma PrintDateInjective(a: Date, b: Date)
    requires Printable(a) && Printable(b) && PrintDate(a) == PrintDate(b)
    ensures a == b
  {
    var s, t := PrintDate(a), PrintDate(b);
    PrintDateParts(a);
    PrintDateParts(b);
    Print2Injective(a.year / 100, b.year / 100);
    Print2Injective(a.year % 100, b.year % 100);
    Print2Injective(a.month, b.month);
    Print2Injective(a.day, b.day);
  }

  /** No two hours of any two tables share a key. */
  lemma RawKeyInjective(t: string, a: Date, g: nat, u: string, b: Date, h: nat)
    requires SlashFree(t) && SlashFree(u) && Printable(a) && Printable(b) && g < 24 && h < 24
    ensures RawKey(t, a, g) == RawKey(u, b, h) <==> t == u && a == b && g == h
  {
    ParseOfRawKey(t, a, g);
    ParseOfRawKey(u, b, h);
    if RawKey(t, a, g) == RawKey(u, b, h) {
      PrintDateInjective(a, b);
    }
  }

  lemma {:induction false} SkipMany(s: string, n: nat)
    requires n <= |s| && forall i | 0 <= i < n :: ParseHere(s[i..]).None?
    ensures Parse(s) == Parse(s[n..])
    decreases n
  {
    if n == 0 {
      assert s[0..] == s;
    } else {
      assert s[0..] == s;
      forall i | 0 <= i < n - 1 ensures ParseHere(s[1..][i..]).None? {
        assert s[1..][i..] == s[i + 1..];
      }
      SkipMany(s[1..], n - 1);
      assert s[1..][n - 1..] == s[n..];
    }
  }

  lemma ArchivePrefixNeverMatches(key: string, i: nat)
    requires |key| >= 4 && key[..4] == "raw/" && i < 12
    ensures ParseHere(("raw/archive/" + key)[i..]).None?
  {
    var s := "raw/archive/" + key;
    if i == 0 {
      assert s[4..] == "archive" + ("/" + key);
      FirstSlashAfter("archive", "/" + key);
      assert s[11] == '/' && s[12] == 'r';
      assert s[0..] == s && s[11..][..4][1] == 'r';
    } else {
      var p := "raw/archive/";
      assert s[i] == p[i];
      assert s[i..][..4][0] == p[i];
      if i == 5 {
        assert s[i..][..4][1] == p[6];
      }
    }
  }

  /** The search is not anchored: a copy of a canonical key below another prefix parses as the original, so
      the exporter takes the original for written although its key may be absent. */
  lemma CopiesParseAsOriginals(table: string, d: Date, hour: nat)
    requires SlashFree(table) && hour < 24
    ensures Parse("raw/archive/" + RawKey(table, d, hour)) == Some(Parsed(table, PrintDate(d), hour))
  {
    var key := RawKey(table, d, hour);
    ParseOfRawKey(table, d, hour);
    var s := "raw/archive/" + key;
    forall i | 0 <= i < 12 ensures ParseHere(s[i..]).None? {
      ArchivePrefixNeverMatches(key, i);
    }
    SkipMany(s, 12);
    assert s[12..] == key;
  }

  // ---------------------------------------------------------------- order

  /** String order as sort() compares keys: by code point from the left. */
  predicate Less(a: string, b: string) {
    b != [] && (a == [] || a[0] < b[0] || (a[0] == b[0] && Less(a[1..], b[1..])))
  }

  lemma {:induction false} LessOfJoin(a: string, b: string, c: string, d: string)
    requires |a| == |c|
    ensures Less(a + b, c + d) <==> Less(a, c) || (a == c && Less(b, d))
  {
    if a == [] {
      assert a + b == b && c + d == d;
    } else {
      LessOfJoin(a[1..], b, c[1..], d);
      assert (a + b)[1..] == a[1..] + b && (c + d)[1..] == c[1..] + d;
      assert a == [a[0]] + a[1..] && c == [c[0]] + c[1..];
    }
  }

  lemma {:induction false} LessIrreflexive(a: string)
    ensures !Less(a, a)
  {
    if a != [] { LessIrreflexive(a[1..]); }
  }

  lemma Print2Order(m: nat, n: nat)
    requires m < 100 && n < 100
    ensures Less(Print2(m), Print2(n)) <==> m < n
  {
    var a, b := Print2(m), Print2(n);
    assert a[1..] == [Digit(m % 10)] && b[1..] == [Digit(n % 10)];
    assert a[1..][1..] == [] && b[1..][1..] == [];
    assert Less(a[1..], b[1..]) <==> m % 10 < n % 10;
  }

  /** The part of a stream key that names the hour. */
  function HourPart(d: Date, hour: nat): string {
    "dt=" + PrintDate(d) + "/hour=" + Print2(hour)
  }

  lemma SamePrefix(p: string, a: string, b: string)
    ensures Less(p + a, p + b) <==> Less(a, b)
  {
    LessOfJoin(p, a, p, b);
    LessIrreflexive(p);
  }

  lemma Print2Equal(m: nat, n: nat)
    requires m < 100 && n < 100
    ensures Print2(m) == Print2(n) <==> m == n
  {
    if Print2(m) == Print2(n) { Print2Injective(m, n); }
  }

  lemma DateOrder(a: Date, b: Date)
    requires Printable(a) && Printable(b)
    ensures Less(PrintDate(a), PrintDate(b)) <==> Earlier(a, b)
  {
    var ya, yb := Print2(a.year / 100), Print2(b.year / 100);
    var za, zb := Print2(a.year % 100), Print2(b.year % 100);
    var ma, mb := Print2(a.month), Print2(b.month);
    var da, db := Print2(a.day), Print2(b.day);
    assert PrintDate(a) == ya + (za + ("-" + (ma + ("-" + da))));
    assert PrintDate(b) == yb + (zb + ("-" + (mb + ("-" + db))));
    LessOfJoin(ya, za + ("-" + (ma + ("-" + da))), yb, zb + ("-" + (mb + ("-" + db))));
    LessOfJoin(za, "-" + (ma + ("-" + da)), zb, "-" + (mb + ("-" + db)));
    SamePrefix("-", ma + ("-" + da), mb + ("-" + db));
    LessOfJoin(ma, "-" + da, mb, "-" + db);
    SamePrefix("-", da, db);
    Print2Order(a.year / 100, b.year / 100);
    Print2Order(a.year % 100, b.year % 100);
    Print2Order(a.month, b.month);
    Print2Order(a.day, b.day);
    Print2Equal(a.year / 100, b.year / 100);
    Print2Equal(a.year % 100, b.year % 100);
    Print2Equal(a.month, b.month);
  }

  /** An hour of the calendar, `n` hours after 1 January 1000. */
  predicate HourPrintable(n: nat) {
    Printable(DateOf(n / 24))
  }

  function HourPartOf(n: nat): string {
    HourPart(DateOf(n / 24), n % 24)
  }

  lemma HourTextOrder(a: Date, g: nat, b: Date, h: nat)
    requires Printable(a) && Printable(b) && g < 24 && h < 24
    ensures Less(HourPart(a, g), HourPart(b, h)) <==> Earlier(a, b) || (a == b && g < h)
  {
    var s, t := PrintDate(a), PrintDate(b);
    var u, v := "/hour=" + Print2(g), "/hour=" + Print2(h);
    assert HourPart(a, g) == "dt=" + (s + u) && HourPart(b, h) == "dt=" + (t + v);
    SamePrefix("dt=", s + u, t + v);
    LessOfJoin(s, u, t, v);
    SamePrefix("/hour=", Print2(g), Print2(h));
    Print2Order(g, h);
    DateOrder(a, b);
    if s == t { PrintDateInjective(a, b); }
  }

  /** The zero-padded dt=/hour= parts sort as the hours do, over every calendar date of four digits. */
  lemma HourPartOrder(m: nat, n: nat)
    requires HourPrintable(m) && HourPrintable(n)
    ensures Less(HourPartOf(m), HourPartOf(n)) <==> m < n
  {
    HourTextOrder(DateOf(m / 24), m % 24, DateOf(n / 24), n % 24);
    if m / 24 < n / 24 { DaysAreOrdered(m / 24, n / 24); }
    if n / 24 < m / 24 { DaysAreOrdered(n / 24, m / 24); }
  }

  function StreamKey(table: string, n: nat, file: string): string {
    "stream/" + table + "/" + HourPartOf(n) + "/" + file
  }

  lemma StreamKeySplits(table: string, n: nat, file: string)
    ensures StreamKey(table, n, file) == ("stream/" + table + "/") + (HourPartOf(n) + ("/" + file))
  {
  }

  lemma EarlierHourSortsFirst(table: string, m: nat, f: string, n: nat, g: string)
    requires HourPrintable(m) && HourPrintable(n) && m < n
    ensures Less(StreamKey(table, m, f), StreamKey(table, n, g))
  {
    var p := "stream/" + table + "/";
    var a, b := HourPartOf(m), HourPartOf(n);
    StreamKeySplits(table, m, f);
    StreamKeySplits(table, n, g);
    SamePrefix(p, a + ("/" + f), b + ("/" + g));
    LessOfJoin(a, "/" + f, b, "/" + g);
    HourPartOrder(m, n);
  }

  /** The newest-file search: the key that sorts last lies in the latest hour that has a file. */
  lemma LastKeyIsInLatestHour(table: string, hours: seq<nat>, files: seq<string>, last: nat)
    requires |hours| == |files| && last < |hours|
    requires forall i | 0 <= i < |hours| :: HourPrintable(hours[i])
    requires forall i | 0 <= i < |hours| ::
               !Less(StreamKey(table, hours[last], files[last]), StreamKey(table, hours[i], files[i]))
    ensures forall i | 0 <= i < |hours| :: hours[i] <= hours[last]
  {
    forall i | 0 <= i < |hours| ensures hours[i] <= hours[last] {
      if hours[last] < hours[i] {
        EarlierHourSortsFirst(table, hours[last], files[last], hours[i], files[i]);
      }
    }
  }
}
