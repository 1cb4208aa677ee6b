/** The ingestor's consume / batch / insert / commit protocol and the replay tool
    (services/ingestor/app/consumers.py, services/ingestor/app/db.py, tools/replay.py).

    The protocol is a machine over broker offsets, the raw table, the dead-letter topic and the consumer's
    memory.  It can crash between any two of its steps. */
module Ingestor {
  import opened Options
  import opened Offsets

  const BATCH_SIZE: nat := 500
  const BATCH_TIMEOUT := 2.0

  // ---------------------------------------------------------------- messages and validation

  /** A dictionary entry; the key itself may be absent. */
  datatype Entry<+T> = Absent | Present(v: T)

  /** What a message body decodes to.  `Strange` stands for JSON on which the code raises an exception it
      does not catch, such as a body that is no object. */
  datatype Body =
    | NotJson
    | Strange
    | Envelope(schemaVersion: Entry<int>, eventId: Entry<Option<string>>, payload: Entry<map<string, string>>)

  datatype Verdict = Accept(eventId: Option<string>, payload: map<string, string>) | Reject | Raise

  /** The two topics differ in the schema version they know and the payload fields they need. */
  datatype Topic = Topic(knownVersion: int, required: set<string>)

  const DEMAND := Topic(1, {"city", "event_type", "sim_ts", "quantity"})
  const WEATHER := Topic(1, {"city", "polled_at"})

  function Validate(topic: Topic, body: Body): Verdict {
    match body
    case NotJson => Reject
    case Strange => Raise
    case Envelope(version, eventId, payload) =>
      if version.Absent? || eventId.Absent? || payload.Absent? then Reject
      else if version.v != topic.knownVersion then Reject
      else if !(topic.required <= payload.v.Keys) then Reject
      else Accept(eventId.v, payload.v)
  }

  /** A body that is accepted, by its keys: the three envelope keys are there, the version is the known one,
      and the payload has every required field. */
  predicate WellFormed(topic: Topic, body: Body) {
    && body.Envelope?
    && body.schemaVersion == Present(topic.knownVersion)
    && body.eventId.Present?
    && body.payload.Present?
    && forall field | field in topic.required :: field in body.payload.v
  }

  /** What validation does with every body: a well-formed one is accepted with its own id and payload, one on
      which the code raises something else is neither accepted nor rejected, and all others are rejected. */
  lemma ValidationIsByKeys(topic: Topic, body: Body)
    ensures Validate(topic, body) ==
            if body.Strange? then Raise
            else if WellFormed(topic, body) then Accept(body.eventId.v, body.payload.v)
            else Reject
  {
  }

  /** The demand topic: version 1 and the four fields. */
  lemma DemandIsAcceptedIff(body: Body)
    ensures Validate(DEMAND, body).Accept? <==>
            && body.Envelope? && body.schemaVersion == Present(1) && body.eventId.Present? && body.payload.Present?
            && "city" in body.payload.v && "event_type" in body.payload.v
            && "sim_ts" in body.payload.v && "quantity" in body.payload.v
  {
    ValidationIsByKeys(DEMAND, body);
    assert DEMAND.required == {"city", "event_type", "sim_ts", "quantity"};
  }

  /** The weather topic: version 1 and the two fields. */
  lemma WeatherIsAcceptedIff(body: Body)
    ensures Validate(WEATHER, body).Accept? <==>
            && body.Envelope? && body.schemaVersion == Present(1) && body.eventId.Present? && body.payload.Present?
            && "city" in body.payload.v && "polled_at" in body.payload.v
  {
    ValidationIsByKeys(WEATHER, body);
    assert WEATHER.required == {"city", "polled_at"};
  }

  /** The topic: a sequence of bodies per partition, offsets being indices. */
  type Log = seq<seq<Body>>

  function VerdictAt(topic: Topic, log: Log, at: Pos): Verdict
    requires InLog(log, at)
  {
    Validate(topic, log[at.partition][at.offset])
  }

  predicate Accepted(topic: Topic, log: Log, at: Pos) {
    InLog(log, at) && VerdictAt(topic, log, at).Accept?
  }

  // ---------------------------------------------------------------- the raw table

  datatype Row = Row(eventId: Option<string>, payload: map<string, string>, at: Pos)

  function RowAt(topic: Topic, log: Log, at: Pos): Row
    requires Accepted(topic, log, at)
  {
    var v := VerdictAt(topic, log, at);
    Row(v.eventId, v.payload, at)
  }

  /** The row of an accepted message carries the id and the payload of its body. */
  lemma RowIsTheMessage(topic: Topic, log: Log, at: Pos)
    requires InLog(log, at) && WellFormed(topic, log[at.partition][at.offset])
    ensures var body := log[at.partition][at.offset];
            Accepted(topic, log, at) && RowAt(topic, log, at) == Row(body.eventId.v, body.payload.v, at)
  {
    ValidationIsByKeys(topic, log[at.partition][at.offset]);
  }

  /** The UNIQUE constraint: NULL ids never conflict. */
  predicate Conflicts(table: seq<Row>, row: Row) {
    row.eventId.Some? && exists r | r in table :: r.eventId == row.eventId
  }

  function InsertOne(table: seq<Row>, row: Row): seq<Row> {
    if Conflicts(table, row) then table else table + [row]
  }

  /** INSERT ... ON CONFLICT (event_id) DO NOTHING for a list of rows, in one transaction. */
  function InsertAll(table: seq<Row>, rows: seq<Row>): seq<Row> {
    if rows == [] then table else InsertOne(InsertAll(table, rows[..|rows| - 1]), rows[|rows| - 1])
  }

  function RowsAt(topic: Topic, log: Log, batch: seq<Pos>): (rows: seq<Row>)
    requires forall b | b in batch :: Accepted(topic, log, b)
    ensures |rows| == |batch|
  {
    seq(|batch|, i requires 0 <= i < |batch| => RowAt(topic, log, batch[i]))
  }

  ghost predicate UniqueIds(table: seq<Row>) {
    forall i, j | 0 <= i < j < |table| && table[i].eventId.Some? :: table[i].eventId != table[j].eventId
  }

  /** The row, or an earlier row with its event id, is in the table. */
  predicate Stored(table: seq<Row>, row: Row) {
    row in table || Conflicts(table, row)
  }

  lemma {:induction false} InsertAllKeeps(table: seq<Row>, rows: seq<Row>)
    ensures table <= InsertAll(table, rows)
    ensures UniqueIds(table) ==> UniqueIds(InsertAll(table, rows))
  {
    if rows != [] {
      InsertAllKeeps(table, rows[..|rows| - 1]);
    }
  }

  lemma {:induction false} InsertAllStores(table: seq<Row>, rows: seq<Row>)
    ensures forall row | row in rows :: Stored(InsertAll(table, rows), row)
  {
    if rows != [] {
      var init, last := rows[..|rows| - 1], rows[|rows| - 1];
      InsertAllStores(table, init);
      assert rows == init + [last];
      forall row | row in rows ensures Stored(InsertAll(table, rows), row) {
        if row in init { StoredGrows(InsertAll(table, init), InsertAll(table, rows), row); }
      }
    }
  }

  lemma StoredGrows(t: seq<Row>, u: seq<Row>, row: Row)
    requires t <= u && Stored(t, row)
    ensures Stored(u, row)
  {
    if row in t {
      var i :| 0 <= i < |t| && t[i] == row;
      assert u[i] == row;
    } else {
      var r :| r in t && r.eventId == row.eventId;
      var i :| 0 <= i < |t| && t[i] == r;
      assert u[i] == r;
    }
  }

  /** Inserting again rows that are already stored changes nothing if and only if each of them carries an
      event id: the constraint does not see NULL ids, which are inserted again every time. */
  lemma {:induction false} ReinsertIsNoOpIff(table: seq<Row>, rows: seq<Row>)
    requires forall row | row in rows :: Stored(table, row)
    ensures InsertAll(table, rows) == table <==> forall row | row in rows :: row.eventId.Some?
  {
    if rows != [] {
      var init, last := rows[..|rows| - 1], rows[|rows| - 1];
      assert rows == init + [last];
      ReinsertIsNoOpIff(table, init);
      InsertAllKeeps(table, init);
      assert last in rows;
      StoredGrows(table, InsertAll(table, init), last);
    }
  }

  // ---------------------------------------------------------------- the machine

  datatype Phase =
    | Polling                     // at the loop head, about to poll
    | Deciding                    // a poll has returned; flush or go on?
    | Inserted                    // the batch is committed to the table, the offsets are not
    | DeadLettering(next: nat)    // the insert failed; items before `next` have gone to the DLQ
    | Down                        // no process

  /** `lost` holds the messages whose DLQ produce raised an error, which the code logs and ignores.
      `firstInserts` and `dbFailed` are history: the order in which positions first reached the table, and
      whether any insert has failed. */
  datatype State = State(
    committed: map<nat, nat>, table: seq<Row>, dlq: set<Pos>, lost: set<Pos>,
    phase: Phase, position: map<nat, nat>, batch: seq<Pos>, pending: map<nat, nat>,
    firstInserts: seq<Pos>, dbFailed: bool)

  const INIT := State(map[], [], {}, {}, Down, map[], [], map[], [], false)

  function NewPositions(seen: seq<Pos>, batch: seq<Pos>): seq<Pos> {
    if batch == [] then seen
    else
      var before := NewPositions(seen, batch[..|batch| - 1]);
      if batch[|batch| - 1] in before then before else before + [batch[|batch| - 1]]
  }

  datatype Event =
    | Poll(p: nat, dlqOk: bool)       // receive and route the next message of a partition
    | PollNothing
    | GoOn                            // no flush due, back to the loop head
    | Insert
    | InsertFails
    | DeadLetter(ok: bool)            // the next item of a failed batch
    | Commit
    | CommitFails
    | Crash
    | CrashAfterDlq(p: nat)           // after the produce, before the offset is noted
    | Restart
    | Reset(to: map<nat, nat>)        // the replay tool, while no process runs

  function Next(s: State, p: nat): Pos {
    Pos(p, Get(s.position, p))
  }

  predicate CanPoll(topic: Topic, log: Log, s: State, p: nat) {
    s.phase == Polling && InLog(log, Next(s, p)) && !VerdictAt(topic, log, Next(s, p)).Raise?
  }

  predicate BatchAccepted(topic: Topic, log: Log, s: State) {
    forall b | b in s.batch :: Accepted(topic, log, b)
  }

  predicate AllHandled(s: State) {
    s.phase == Inserted || s.phase == DeadLettering(|s.batch|)
  }

  predicate Enabled(topic: Topic, log: Log, s: State, ev: Event) {
    match ev
    case Poll(p, _) => CanPoll(topic, log, s, p)
    case PollNothing => s.phase == Polling
    case GoOn => s.phase == Deciding && (s.pending == map[] || |s.batch| < BATCH_SIZE)
    case Insert => s.phase == Deciding && s.pending != map[] && BatchAccepted(topic, log, s)
    case InsertFails => s.phase == Deciding && s.pending != map[] && s.batch != []
    case DeadLetter(_) => s.phase.DeadLettering? && s.phase.next < |s.batch|
    case Commit => AllHandled(s)
    case CommitFails => AllHandled(s)
    case Crash => s.phase != Down
    case CrashAfterDlq(p) => CanPoll(topic, log, s, p) && VerdictAt(topic, log, Next(s, p)).Reject?
    case Restart => s.phase == Down
    case Reset(to) => s.phase == Down
  }

  function ToDlq(s: State, at: Pos, ok: bool): State {
    if ok then s.(dlq := s.dlq + {at}) else s.(lost := s.lost + {at})
  }

  function Stop(s: State): State {
    s.(phase := Down, position := map[], batch := [], pending := map[])
  }

  function Do(topic: Topic, log: Log, s: State, ev: Event): State
    requires Enabled(topic, log, s, ev)
  {
    match ev
    case Poll(p, dlqOk) =>
      var at := Next(s, p);
      var routed := if VerdictAt(topic, log, at).Accept? then s.(batch := s.batch + [at]) else ToDlq(s, at, dlqOk);
      routed.(phase := Deciding, position := s.position[p := at.offset + 1],
              pending := UpdateMax(s.pending, p, at.offset))
    case PollNothing => s.(phase := Deciding)
    case GoOn => s.(phase := Polling)
    case Insert =>
      s.(phase := Inserted, table := InsertAll(s.table, RowsAt(topic, log, s.batch)),
         firstInserts := NewPositions(s.firstInserts, s.batch))
    case InsertFails => s.(phase := DeadLettering(0), dbFailed := true)
    case DeadLetter(ok) => ToDlq(s, s.batch[s.phase.next], ok).(phase := DeadLettering(s.phase.next + 1))
    case Commit =>
      s.(phase := Polling, committed := CommitOffsets(s.committed, s.pending), batch := [], pending := map[])
    case CommitFails => s.(phase := Deciding)
    case Crash => Stop(s)
    case CrashAfterDlq(p) => Stop(ToDlq(s, Next(s, p), true))
    case Restart => s.(phase := Polling, position := s.committed)
    case Reset(to) => s.(committed := to)
  }

  /** The state after a list of events, if each of them was possible. */
  ghost function After(topic: Topic, log: Log, evs: seq<Event>): Option<State> {
    if evs == [] then Some(INIT)
    else
      var before := After(topic, log, evs[..|evs| - 1]);
      if before.Some? && Enabled(topic, log, before.value, evs[|evs| - 1])
      then Some(Do(topic, log, before.value, evs[|evs| - 1]))
      else None
  }

  // ---------------------------------------------------------------- safety

  /** The message has reached the table or the DLQ, or the DLQ producer refused it. */
  predicate Settled(topic: Topic, log: Log, s: State, at: Pos)
    requires InLog(log, at)
  {
    || at in s.dlq
    || at in s.lost
    || (VerdictAt(topic, log, at).Accept? && Stored(s.table, RowAt(topic, log, at)))
  }

  /** Nothing below a committed offset is missing. */
  ghost predicate Safe(topic: Topic, log: Log, s: State) {
    forall at: Pos | InLog(log, at) && at.offset < Get(s.committed, at.partition) :: Settled(topic, log, s, at)
  }

  /** `pending` names exactly the partitions read past their committed offset, and how far. */
  ghost predicate PendingOk(s: State) {
    forall p: nat ::
      && Get(s.committed, p) <= Get(s.position, p)
      && (Get(s.committed, p) < Get(s.position, p) <==> p in s.pending)
      && (p in s.pending ==> s.pending[p] + 1 == Get(s.position, p))
  }

  /** A position read but not yet committed. */
  predicate Uncommitted(s: State, at: Pos) {
    Get(s.committed, at.partition) <= at.offset < Get(s.position, at.partition)
  }

  /** Each message read since the last commit is in the batch or was dead-lettered on arrival, and the batch
      holds nothing else. */
  ghost predicate Covered(topic: Topic, log: Log, s: State) {
    && PendingOk(s)
    && (forall at: Pos | InLog(log, at) && Uncommitted(s, at) ::
          if VerdictAt(topic, log, at).Accept? then at in s.batch else at in s.dlq || at in s.lost)
    && (forall b | b in s.batch :: Accepted(topic, log, b) && Uncommitted(s, b))
  }

  ghost predicate PhaseOk(topic: Topic, log: Log, s: State)
    requires BatchAccepted(topic, log, s)
  {
    && |s.batch| <= BATCH_SIZE
    && (s.phase.Polling? ==> |s.batch| < BATCH_SIZE)
    && (s.phase.Inserted? ==> forall b | b in s.batch :: Stored(s.table, RowAt(topic, log, b)))
    && (s.phase.DeadLettering? ==> s.phase.next <= |s.batch|)
    && (s.phase.DeadLettering? ==>
          forall i | 0 <= i < s.phase.next && i < |s.batch| :: s.batch[i] in s.dlq || s.batch[i] in s.lost)
  }

  ghost predicate Inv(topic: Topic, log: Log, s: State) {
    && Safe(topic, log, s)
    && UniqueIds(s.table)
    && (s.phase == Down ==> s.batch == [] && s.pending == map[])
    && (s.phase != Down ==> Covered(topic, log, s) && PhaseOk(topic, log, s))
  }

  /** Stores only grow, so what is settled stays settled. */
  lemma SettledStays(topic: Topic, log: Log, s: State, t: State, at: Pos)
    requires InLog(log, at) && Settled(topic, log, s, at)
    requires s.table <= t.table && s.dlq <= t.dlq && s.lost <= t.lost
    ensures Settled(topic, log, t, at)
  {
    if at !in s.dlq && at !in s.lost {
      StoredGrows(s.table, t.table, RowAt(topic, log, at));
    }
  }

  lemma StoresGrow(topic: Topic, log: Log, s: State, ev: Event)
    requires Enabled(topic, log, s, ev)
    ensures var t := Do(topic, log, s, ev); s.table <= t.table && s.dlq <= t.dlq && s.lost <= t.lost
  {
    if ev.Insert? {
      InsertAllKeeps(s.table, RowsAt(topic, log, s.batch));
    }
  }

  lemma InvCommit(topic: Topic, log: Log, s: State)
    requires Inv(topic, log, s) && AllHandled(s)
    ensures Inv(topic, log, Do(topic, log, s, Commit))
  {
    var t := Do(topic, log, s, Commit);
    forall at: Pos | InLog(log, at) && at.offset < Get(t.committed, at.partition)
      ensures Settled(topic, log, t, at)
    {
      if Get(s.committed, at.partition) <= at.offset {
        assert at.partition in s.pending;
        if VerdictAt(topic, log, at).Accept? {
          var i :| 0 <= i < |s.batch| && s.batch[i] == at;
        }
      } else {
        assert Settled(topic, log, s, at);
      }
    }
  }

  lemma InvPoll(topic: Topic, log: Log, s: State, p: nat, dlqOk: bool)
    requires Inv(topic, log, s) && CanPoll(topic, log, s, p)
    ensures Inv(topic, log, Do(topic, log, s, Poll(p, dlqOk)))
  {
    SafeStep(topic, log, s, Poll(p, dlqOk));
    PollKeepsPending(topic, log, s, p, dlqOk);
    PollCovers(topic, log, s, p, dlqOk);
  }

  lemma PollKeepsPending(topic: Topic, log: Log, s: State, p: nat, dlqOk: bool)
    requires CanPoll(topic, log, s, p) && PendingOk(s)
    ensures PendingOk(Do(topic, log, s, Poll(p, dlqOk)))
  {
  }

  lemma PollCovers(topic: Topic, log: Log, s: State, p: nat, dlqOk: bool)
    requires CanPoll(topic, log, s, p) && Covered(topic, log, s)
    ensures Covered(topic, log, Do(topic, log, s, Poll(p, dlqOk)))
  {
    var t := Do(topic, log, s, Poll(p, dlqOk));
    var new_ := Next(s, p);
    PollKeepsPending(topic, log, s, p, dlqOk);
    assert t.batch == s.batch || t.batch == s.batch + [new_];
    assert VerdictAt(topic, log, new_).Accept? ==> t.batch[|s.batch|] == new_;
    forall at: Pos ensures Uncommitted(t, at) <==> Uncommitted(s, at) || at == new_ {}
  }

  lemma InvInsert(topic: Topic, log: Log, s: State)
    requires Inv(topic, log, s) && Enabled(topic, log, s, Insert)
    ensures Inv(topic, log, Do(topic, log, s, Insert))
  {
    var t := Do(topic, log, s, Insert);
    SafeStep(topic, log, s, Insert);
    var rows := RowsAt(topic, log, s.batch);
    InsertAllKeeps(s.table, rows);
    InsertAllStores(s.table, rows);
    forall b | b in t.batch ensures Stored(t.table, RowAt(topic, log, b)) {
      var i :| 0 <= i < |s.batch| && s.batch[i] == b;
      assert rows[i] == RowAt(topic, log, b);
    }
  }

  predicate GoesBack(s: State, ev: Event) {
    ev.Reset? ==> NotForward(ev.to, s.committed)
  }

  /** Every event but a commit leaves the committed stretch no longer, so it stays settled. */
  lemma SafeStep(topic: Topic, log: Log, s: State, ev: Event)
    requires Safe(topic, log, s) && Enabled(topic, log, s, ev) && !ev.Commit? && GoesBack(s, ev)
    ensures Safe(topic, log, Do(topic, log, s, ev))
  {
    var t := Do(topic, log, s, ev);
    StoresGrow(topic, log, s, ev);
    forall at: Pos | InLog(log, at) && at.offset < Get(t.committed, at.partition)
      ensures Settled(topic, log, t, at)
    {
      SettledStays(topic, log, s, t, at);
    }
  }

  lemma InvGoOn(topic: Topic, log: Log, s: State)
    requires Inv(topic, log, s) && Enabled(topic, log, s, GoOn)
    ensures Inv(topic, log, Do(topic, log, s, GoOn))
  {
    SafeStep(topic, log, s, GoOn);
    if s.batch != [] {
      assert s.batch[0] in s.batch;
    }
  }

  lemma InvDeadLetter(topic: Topic, log: Log, s: State, ev: Event)
    requires Inv(topic, log, s) && Enabled(topic, log, s, ev) && ev.DeadLetter?
    ensures Inv(topic, log, Do(topic, log, s, ev))
  {
    SafeStep(topic, log, s, ev);
  }

  lemma InvQuiet(topic: Topic, log: Log, s: State, ev: Event)
    requires Inv(topic, log, s) && Enabled(topic, log, s, ev) && GoesBack(s, ev)
    requires !ev.Poll? && !ev.Commit? && !ev.Insert? && !ev.GoOn? && !ev.DeadLetter?
    ensures Inv(topic, log, Do(topic, log, s, ev))
  {
    SafeStep(topic, log, s, ev);
  }

  lemma InvStep(topic: Topic, log: Log, s: State, ev: Event)
    requires Inv(topic, log, s) && Enabled(topic, log, s, ev) && GoesBack(s, ev)
    ensures Inv(topic, log, Do(topic, log, s, ev))
  {
    match ev
    case Poll(p, dlqOk) => InvPoll(topic, log, s, p, dlqOk);
    case Commit => InvCommit(topic, log, s);
    case Insert => InvInsert(topic, log, s);
    case GoOn => InvGoOn(topic, log, s);
    case DeadLetter(_) => InvDeadLetter(topic, log, s, ev);
    case _ => InvQuiet(topic, log, s, ev);
  }

  /** Every reset in the run goes back, or stays, on every partition. */
  ghost predicate ResetsGoBack(topic: Topic, log: Log, evs: seq<Event>) {
    forall i | 0 <= i < |evs| ::
      var before := After(topic, log, evs[..i]);
      before.Some? ==> GoesBack(before.value, evs[i])
  }

  lemma {:induction false} InvHolds(topic: Topic, log: Log, evs: seq<Event>)
    requires ResetsGoBack(topic, log, evs) && After(topic, log, evs).Some?
    ensures Inv(topic, log, After(topic, log, evs).value)
  {
    if evs != [] {
      var init := evs[..|evs| - 1];
      forall i | 0 <= i < |init| ensures init[..i] == evs[..i] && init[i] == evs[i] {}
      InvHolds(topic, log, init);
      InvStep(topic, log, After(topic, log, init).value, evs[|evs| - 1]);
    }
  }

  /** Safety of every run, with crashes and restarts at any step: a message below a committed offset has
      its event id in the table or its value in the DLQ, unless the DLQ producer itself refused it.  At the
      loop head the batch holds fewer than BATCH_SIZE messages, all of them covered by `pending`. */
  lemma CommittedMeansSettled(topic: Topic, log: Log, evs: seq<Event>, at: Pos)
    requires ResetsGoBack(topic, log, evs) && After(topic, log, evs).Some?
    ensures var s := After(topic, log, evs).value;
            && (InLog(log, at) && at.offset < Get(s.committed, at.partition) ==> Settled(topic, log, s, at))
            && (s.phase.Polling? ==> |s.batch| < BATCH_SIZE)
            && (forall b | b in s.batch :: b.partition in s.pending && b.offset <= s.pending[b.partition])
  {
    InvHolds(topic, log, evs);
    InvSays(topic, log, After(topic, log, evs).value, at);
  }

  lemma InvSays(topic: Topic, log: Log, s: State, at: Pos)
    requires Inv(topic, log, s)
    ensures InLog(log, at) && at.offset < Get(s.committed, at.partition) ==> Settled(topic, log, s, at)
    ensures s.phase.Polling? ==> |s.batch| < BATCH_SIZE
    ensures forall b | b in s.batch :: b.partition in s.pending && b.offset <= s.pending[b.partition]
  {
  }

  predicate ProduceSucceeds(ev: Event) {
    (ev.Poll? ==> ev.dlqOk) && (ev.DeadLetter? ==> ev.ok)
  }

  /** Messages get lost at the DLQ only when a produce raises. */
  lemma {:induction false} NothingLost(topic: Topic, log: Log, evs: seq<Event>)
    requires After(topic, log, evs).Some? && forall ev | ev in evs :: ProduceSucceeds(ev)
    ensures After(topic, log, evs).value.lost == {}
  {
    if evs != [] {
      var init := evs[..|evs| - 1];
      assert evs == init + [evs[|evs| - 1]];
      NothingLost(topic, log, init);
      StepLosesNothing(topic, log, After(topic, log, init).value, evs[|evs| - 1]);
    }
  }

  lemma StepLosesNothing(topic: Topic, log: Log, s: State, ev: Event)
    requires Enabled(topic, log, s, ev) && ProduceSucceeds(ev)
    ensures Do(topic, log, s, ev).lost == s.lost
  {
  }

  /** So with every produce succeeding, each message below a committed offset has its event id in the raw table
      or its value in the DLQ. */
  lemma CommittedIsStoredOrDeadLettered(topic: Topic, log: Log, evs: seq<Event>, at: Pos)
    requires ResetsGoBack(topic, log, evs) && After(topic, log, evs).Some? && forall ev | ev in evs ::
        ProduceSucceeds(ev)
    requires InLog(log, at) && at.offset < Get(After(topic, log, evs).value.committed, at.partition)
    ensures var s := After(topic, log, evs).value;
            at in s.dlq || (Accepted(topic, log, at) && Stored(s.table, RowAt(topic, log, at)))
  {
    NothingLost(topic, log, evs);
    CommittedMeansSettled(topic, log, evs, at);
  }

  ghost predicate OnlyRejected(topic: Topic, log: Log, s: State) {
    && !s.phase.DeadLettering?
    && forall at | at in s.dlq || at in s.lost :: InLog(log, at) && VerdictAt(topic, log, at).Reject?
  }

  /** While no insert has failed, nothing but rejected messages goes to the DLQ. */
  lemma {:induction false} OnlyRejectedAreDeadLettered(topic: Topic, log: Log, evs: seq<Event>)
    requires After(topic, log, evs).Some? && !After(topic, log, evs).value.dbFailed
    ensures OnlyRejected(topic, log, After(topic, log, evs).value)
  {
    if evs != [] {
      var init := evs[..|evs| - 1];
      StepKeepsOnlyRejected(topic, log, After(topic, log, init).value, evs[|evs| - 1]);
      OnlyRejectedAreDeadLettered(topic, log, init);
      StepKeepsOnlyRejected(topic, log, After(topic, log, init).value, evs[|evs| - 1]);
    }
  }

  lemma StepKeepsOnlyRejected(topic: Topic, log: Log, s: State, ev: Event)
    requires Enabled(topic, log, s, ev)
    ensures s.dbFailed ==> Do(topic, log, s, ev).dbFailed
    ensures OnlyRejected(topic, log, s) && !Do(topic, log, s, ev).dbFailed ==>
        OnlyRejected(topic, log, Do(topic, log, s, ev))
  {
  }

  /** A reset keeps safety if and only if every message it skips is already settled.  The replay tool moves
      a partition to its end when all its messages are older than the requested time, so it can skip. */
  lemma ResetIsSafeIff(topic: Topic, log: Log, s: State, to: map<nat, nat>)
    requires Safe(topic, log, s) && s.phase == Down
    ensures Safe(topic, log, Do(topic, log, s, Reset(to))) <==>
            forall at: Pos | InLog(log, at) && Get(s.committed, at.partition) <= at.offset < Get(to, at.partition) ::
              Settled(topic, log, s, at)
  {
    var t := Do(topic, log, s, Reset(to));
    assert forall at: Pos | InLog(log, at) :: Settled(topic, log, t, at) == Settled(topic, log, s, at);
  }

  // ---------------------------------------------------------------- exactly-once effect

  /** Every acceptable message carries a non-null event id. */
  ghost predicate AllIdsPresent(topic: Topic, log: Log) {
    forall at: Pos | Accepted(topic, log, at) :: VerdictAt(topic, log, at).eventId.Some?
  }

  ghost predicate AllAccepted(topic: Topic, log: Log, q: seq<Pos>) {
    forall at | at in q :: Accepted(topic, log, at)
  }

  ghost predicate NoRepeats(q: seq<Pos>) {
    forall i, j | 0 <= i < j < |q| :: q[i] != q[j]
  }

  predicate Precedes(at: Pos, b: Pos) {
    at.partition == b.partition && at.offset < b.offset
  }

  /** Each item of `q` comes after every earlier acceptable message of its partition, which is either in
      `base` or before it in `q`. */
  ghost predicate InLogOrder(topic: Topic, log: Log, base: set<Pos>, q: seq<Pos>) {
    forall i, at: Pos | 0 <= i < |q| && Accepted(topic, log, at) && Precedes(at, q[i]) :: at in base || at in q[..i]
  }

  function Positions(q: seq<Pos>): set<Pos> {
    set at | at in q
  }

  ghost function TableFrom(topic: Topic, log: Log, q: seq<Pos>): seq<Row>
    requires AllAccepted(topic, log, q)
  {
    InsertAll([], RowsAt(topic, log, q))
  }

  lemma TableFromSnoc(topic: Topic, log: Log, q: seq<Pos>, b: Pos)
    requires AllAccepted(topic, log, q + [b])
    ensures AllAccepted(topic, log, q)
    ensures TableFrom(topic, log, q + [b]) == InsertOne(TableFrom(topic, log, q), RowAt(topic, log, b))
  {
    forall at | at in q ensures Accepted(topic, log, at) { assert at in q + [b]; }
    var rows := RowsAt(topic, log, q + [b]);
    assert rows[..|q|] == RowsAt(topic, log, q);
  }

  /** Inserting a batch into the table that `seen` produced gives the table that `seen` and then the unseen
      positions of the batch produce: positions met before change nothing. */
  lemma {:induction false} BatchAddsOnlyNewPositions(topic: Topic, log: Log, seen: seq<Pos>, batch: seq<Pos>)
    requires AllIdsPresent(topic, log)
    requires AllAccepted(topic, log, seen) && AllAccepted(topic, log, batch) && NoRepeats(seen)
    ensures var q := NewPositions(seen, batch);
            && AllAccepted(topic, log, q) && NoRepeats(q)
            && InsertAll(TableFrom(topic, log, seen), RowsAt(topic, log, batch)) == TableFrom(topic, log, q)
            && (forall at :: at in q <==> at in seen || at in batch)
  {
    if batch != [] {
      var init, b := batch[..|batch| - 1], batch[|batch| - 1];
      assert batch == init + [b];
      BatchAddsOnlyNewPositions(topic, log, seen, init);
      var before := NewPositions(seen, init);
      assert RowsAt(topic, log, batch)[..|init|] == RowsAt(topic, log, init);
      if b in before {
        AlreadyStored(topic, log, before, b);
      } else {
        forall at | at in before + [b] ensures Accepted(topic, log, at) {}
        TableFromSnoc(topic, log, before, b);
      }
    }
  }

  lemma AlreadyStored(topic: Topic, log: Log, q: seq<Pos>, b: Pos)
    requires AllIdsPresent(topic, log) && AllAccepted(topic, log, q) && b in q
    ensures Conflicts(TableFrom(topic, log, q), RowAt(topic, log, b))
  {
    var rows := RowsAt(topic, log, q);
    InsertAllStores([], rows);
    var i :| 0 <= i < |q| && q[i] == b;
    assert rows[i] == RowAt(topic, log, b) && rows[i] in rows;
  }

  lemma {:induction false} NewPositionsInOrder(topic: Topic, log: Log, seen: seq<Pos>, batch: seq<Pos>)
    requires InLogOrder(topic, log, {}, seen) && InLogOrder(topic, log, Positions(seen), batch)
    ensures InLogOrder(topic, log, {}, NewPositions(seen, batch))
    ensures forall at :: at in NewPositions(seen, batch) <==> at in seen || at in batch
  {
    if batch != [] {
      var init, b := batch[..|batch| - 1], batch[|batch| - 1];
      assert batch == init + [b];
      assert forall i | 0 <= i < |init| :: init[..i] == batch[..i];
      NewPositionsInOrder(topic, log, seen, init);
      var before := NewPositions(seen, init);
      var q := NewPositions(seen, batch);
      forall i, at: Pos | 0 <= i < |q| && Accepted(topic, log, at) && Precedes(at, q[i]) ensures at in q[..i] {
        if i < |before| {
          assert before[..i] == q[..i];
        } else {
          assert q[..i] == before && q[i] == batch[|init|] && batch[..|init|] == init;
        }
      }
    }
  }

  ghost predicate OrderInv(topic: Topic, log: Log, s: State) {
    && AllAccepted(topic, log, s.firstInserts)
    && NoRepeats(s.firstInserts)
    && s.table == TableFrom(topic, log, s.firstInserts)
  }

  /** With no failed insert, what was first inserted is in log order and reaches the committed offsets. */
  ghost predicate NoGaps(topic: Topic, log: Log, s: State) {
    && InLogOrder(topic, log, {}, s.firstInserts)
    && (forall at | Accepted(topic, log, at) && at.offset < Get(s.committed, at.partition) :: at in s.firstInserts)
    && (s.phase.Inserted? ==> forall b | b in s.batch :: b in s.firstInserts)
    && InLogOrder(topic, log, Below(topic, log, s), s.batch)
    && !s.phase.DeadLettering?
  }

  /** The acceptable positions below the committed offsets, as a finite set. */
  ghost function Below(topic: Topic, log: Log, s: State): set<Pos> {
    set p, o | 0 <= p < |log| && 0 <= o < |log[p]| && o < Get(s.committed, p) && Accepted(topic, log, Pos(p, o)) ::
        Pos(p, o)
  }

  lemma OrderStep(topic: Topic, log: Log, s: State, ev: Event)
    requires AllIdsPresent(topic, log) && Inv(topic, log, s) && Enabled(topic, log, s, ev)
    requires OrderInv(topic, log, s)
    ensures OrderInv(topic, log, Do(topic, log, s, ev))
  {
    if ev.Insert? {
      BatchAddsOnlyNewPositions(topic, log, s.firstInserts, s.batch);
    }
  }

  lemma GapStepPoll(topic: Topic, log: Log, s: State, p: nat, dlqOk: bool)
    requires Inv(topic, log, s) && CanPoll(topic, log, s, p) && NoGaps(topic, log, s)
    ensures NoGaps(topic, log, Do(topic, log, s, Poll(p, dlqOk)))
  {
    var t := Do(topic, log, s, Poll(p, dlqOk));
    var b := Next(s, p);
    if t.batch != s.batch {
      assert t.batch == s.batch + [b];
      forall i, at: Pos | 0 <= i < |t.batch| && Accepted(topic, log, at) && Precedes(at, t.batch[i])
        ensures at in Below(topic, log, t) || at in t.batch[..i]
      {
        if i < |s.batch| {
          assert t.batch[..i] == s.batch[..i];
        } else {
          assert t.batch[..i] == s.batch;
        }
      }
    }
  }

  lemma GapStepInsert(topic: Topic, log: Log, s: State)
    requires Inv(topic, log, s) && Enabled(topic, log, s, Insert) && NoGaps(topic, log, s)
    ensures NoGaps(topic, log, Do(topic, log, s, Insert))
  {
    assert InLogOrder(topic, log, Positions(s.firstInserts), s.batch);
    NewPositionsInOrder(topic, log, s.firstInserts, s.batch);
    assert Below(topic, log, Do(topic, log, s, Insert)) == Below(topic, log, s);
  }

  lemma GapStepCommit(topic: Topic, log: Log, s: State)
    requires Inv(topic, log, s) && s.phase == Inserted && NoGaps(topic, log, s)
    ensures NoGaps(topic, log, Do(topic, log, s, Commit))
  {
    var t := Do(topic, log, s, Commit);
    forall at | Accepted(topic, log, at) && at.offset < Get(t.committed, at.partition) ensures at in t.firstInserts {
      if Get(s.committed, at.partition) <= at.offset {
        assert Uncommitted(s, at);
      }
    }
  }

  lemma GapStep(topic: Topic, log: Log, s: State, ev: Event)
    requires Inv(topic, log, s) && Enabled(topic, log, s, ev) && GoesBack(s, ev) && !ev.InsertFails?
    requires NoGaps(topic, log, s)
    ensures NoGaps(topic, log, Do(topic, log, s, ev))
  {
    if ev.Poll? {
      GapStepPoll(topic, log, s, ev.p, ev.dlqOk);
    } else if ev.Insert? {
      GapStepInsert(topic, log, s);
    } else if ev.Commit? {
      GapStepCommit(topic, log, s);
    } else if !ev.Reset? {
      assert Below(topic, log, Do(topic, log, s, ev)) == Below(topic, log, s);
    }
  }

  lemma {:induction false} OrderHolds(topic: Topic, log: Log, evs: seq<Event>)
    requires AllIdsPresent(topic, log) && ResetsGoBack(topic, log, evs) && After(topic, log, evs).Some?
    ensures OrderInv(topic, log, After(topic, log, evs).value)
    ensures !After(topic, log, evs).value.dbFailed ==> NoGaps(topic, log, After(topic, log, evs).value)
  {
    if evs != [] {
      var init := evs[..|evs| - 1];
      forall i | 0 <= i < |init| ensures init[..i] == evs[..i] && init[i] == evs[i] {}
      OrderHolds(topic, log, init);
      InvHolds(topic, log, init);
      var s, ev := After(topic, log, init).value, evs[|evs| - 1];
      OrderStep(topic, log, s, ev);
      if !Do(topic, log, s, ev).dbFailed {
        GapStep(topic, log, s, ev);
      }
    }
  }

  /** The positions of `q` on one partition. */
  function OnPartition(q: seq<Pos>, p: nat): seq<Pos> {
    if q == [] then []
    else OnPartition(q[..|q| - 1], p) + (if q[|q| - 1].partition == p then [q[|q| - 1]] else [])
  }

  /** The acceptable messages among the first `k` of a partition, in log order. */
  function AcceptedBelow(topic: Topic, log: Log, p: nat, k: nat): seq<Pos> {
    if k == 0 then []
    else AcceptedBelow(topic, log, p, k - 1) + (if Accepted(topic, log, Pos(p, k - 1)) then [Pos(p, k - 1)] else [])
  }

  lemma {:induction false} SameAcceptedBelow(topic: Topic, log: Log, p: nat, j: nat, k: nat)
    requires j <= k && forall o: nat | j <= o < k :: !Accepted(topic, log, Pos(p, o))
    ensures AcceptedBelow(topic, log, p, j) == AcceptedBelow(topic, log, p, k)
  {
    if j < k {
      SameAcceptedBelow(topic, log, p, j, k - 1);
    }
  }

  lemma {:induction false} AcceptedBelowHas(topic: Topic, log: Log, p: nat, k: nat, at: Pos)
    ensures at in AcceptedBelow(topic, log, p, k) <==> at.partition == p && at.offset < k && Accepted(topic, log, at)
  {
    if k != 0 {
      AcceptedBelowHas(topic, log, p, k - 1, at);
    }
  }

  lemma {:induction false} OnPartitionHas(q: seq<Pos>, p: nat, at: Pos)
    ensures at in OnPartition(q, p) <==> at in q && at.partition == p
  {
    if q != [] {
      OnPartitionHas(q[..|q| - 1], p, at);
      assert q == q[..|q| - 1] + [q[|q| - 1]];
    }
  }

  lemma LastIsFurthest(topic: Topic, log: Log, q: seq<Pos>)
    requires q != [] && AllAccepted(topic, log, q) && NoRepeats(q) && InLogOrder(topic, log, {}, q)
    ensures var x := q[|q| - 1]; forall i | 0 <= i < |q| - 1 && q[i].partition == x.partition :: q[i].offset < x.offset
  {
    var x := q[|q| - 1];
    forall i | 0 <= i < |q| - 1 && q[i].partition == x.partition ensures q[i].offset < x.offset {
      assert x !in q[..i] && q[i] != x;
      assert Accepted(topic, log, x) && !Precedes(x, q[i]);
    }
  }

  lemma EarlierOnesArePresent(topic: Topic, log: Log, q: seq<Pos>, at: Pos)
    requires q != [] && InLogOrder(topic, log, {}, q) && Accepted(topic, log, at)
    ensures Precedes(at, q[|q| - 1]) ==> at in q[..|q| - 1]
  {
  }

  /** Log order without repeats means: on each partition, exactly the acceptable messages up to some point,
      in order, which is what an uninterrupted consumer takes. */
  lemma {:induction false} InOrderIsUninterrupted(topic: Topic, log: Log, q: seq<Pos>, p: nat) returns (k: nat)
    requires AllAccepted(topic, log, q) && NoRepeats(q) && InLogOrder(topic, log, {}, q)
    ensures OnPartition(q, p) == AcceptedBelow(topic, log, p, k)
  {
    if q == [] { return 0; }
    var init, x := q[..|q| - 1], q[|q| - 1];
    assert q == init + [x];
    assert forall i | 0 <= i < |init| :: init[..i] == q[..i];
    k := InOrderIsUninterrupted(topic, log, init, p);
    if x.partition == p {
      LastIsFurthest(topic, log, q);
      forall o: nat ensures Accepted(topic, log, Pos(p, o)) ==> (o < k <==> o < x.offset) {
        AcceptedBelowHas(topic, log, p, k, Pos(p, o));
        OnPartitionHas(init, p, Pos(p, o));
        if Accepted(topic, log, Pos(p, o)) { EarlierOnesArePresent(topic, log, q, Pos(p, o)); }
      }
      SameAcceptedBelow(topic, log, p, if k <= x.offset then k else x.offset, if k <= x.offset then x.offset else k);
      k := x.offset + 1;
    }
  }

  /** Exactly-once effect.  If every acceptable message carries an event id, then after any run of crashes,
      failed commits and backward resets with no failed insert the table is the one that inserting
      `firstInserts` once produces; and on each partition `firstInserts` is what an uninterrupted consumer
      takes, up to at least the committed offset. */
  lemma ExactlyOnceEffect(topic: Topic, log: Log, evs: seq<Event>, p: nat) returns (k: nat)
    requires AllIdsPresent(topic, log) && ResetsGoBack(topic, log, evs) && After(topic, log, evs).Some?
    requires !After(topic, log, evs).value.dbFailed
    ensures var s := After(topic, log, evs).value;
            && AllAccepted(topic, log, s.firstInserts) && s.table == TableFrom(topic, log, s.firstInserts)
            && OnPartition(s.firstInserts, p) == AcceptedBelow(topic, log, p, k)
            && (forall at | Accepted(topic, log, at) && at.partition == p && at.offset < Get(s.committed, p) ::
                  at in AcceptedBelow(topic, log, p, k))
  {
    OrderHolds(topic, log, evs);
    var s := After(topic, log, evs).value;
    k := InOrderIsUninterrupted(topic, log, s.firstInserts, p);
    forall at | Accepted(topic, log, at) && at.partition == p && at.offset < Get(s.committed, p)
      ensures at in AcceptedBelow(topic, log, p, k)
    {
      OnPartitionHas(s.firstInserts, p, at);
    }
  }

  /** In every run, whatever fails: at most one row per event id, and a row once inserted is never changed,
      moved or removed. */
  lemma {:induction false} RowsArePermanent(topic: Topic, log: Log, evs: seq<Event>, more: seq<Event>)
    requires After(topic, log, evs + more).Some?
    ensures After(topic, log, evs).Some?
    ensures UniqueIds(After(topic, log, evs).value.table)
    ensures After(topic, log, evs).value.table <= After(topic, log, evs + more).value.table
  {
    if more == [] {
      assert evs + more == evs;
      UniqueAlways(topic, log, evs);
    } else {
      var init := more[..|more| - 1];
      assert (evs + more)[..|evs + more| - 1] == evs + init;
      RowsArePermanent(topic, log, evs, init);
      StoresGrow(topic, log, After(topic, log, evs + init).value, more[|more| - 1]);
    }
  }

  lemma {:induction false} UniqueAlways(topic: Topic, log: Log, evs: seq<Event>)
    requires After(topic, log, evs).Some?
    ensures UniqueIds(After(topic, log, evs).value.table)
  {
    if evs != [] {
      UniqueAlways(topic, log, evs[..|evs| - 1]);
      var s := After(topic, log, evs[..|evs| - 1]).value;
      if evs[|evs| - 1].Insert? {
        InsertAllKeeps(s.table, RowsAt(topic, log, s.batch));
      }
    }
  }
}
