/** The stream feature consumer (services/worker/app/stream_features/consumer.py): Redis update, Parquet
    buffer and offset commits on independent timers.

    Its offset discipline differs from the ingestor's: a message that hits a Redis error is not noted, but
    the next message of its partition is, and the commit goes to the partition maximum. */
module StreamConsumer {
  import opened Options
  import opened Offsets

  const COMMIT_SIZE: nat := 500
  const COMMIT_TIMEOUT := 2.0

  /** `Invalid` fails to parse or validate; `Strange` raises an exception the loop does not catch. */
  datatype Message = Valid | Invalid | Strange

  type Log = seq<seq<Message>>

  function MessageAt(log: Log, at: Pos): Message
    requires InLog(log, at)
  {
    log[at.partition][at.offset]
  }

  /** `applied` is what Redis has taken, `lake` what has been uploaded, `buffer` what waits in memory.
      History: `base` is the committed map the process started from, `failedOn` the partitions with a Redis
      failure in this process, `overtaken` whether a message was ever handled on such a partition, and `gone`
      the rows that crashes have cost the lake. */
  datatype State = State(
    committed: map<nat, nat>, applied: set<Pos>, lake: set<Pos>,
    running: bool, position: map<nat, nat>, pending: map<nat, nat>, buffer: set<Pos>,
    base: map<nat, nat>, failedOn: set<nat>, overtaken: bool, gone: set<Pos>)

  const INIT := State(map[], {}, {}, false, map[], map[], {}, map[], {}, false, {})

  datatype Event =
    | Deliver(p: nat, redisOk: bool)
    | Commit
    | Flush(stored: set<Pos>)     // the records whose partition upload succeeds
    | Crash
    | Restart
    | Reset(to: map<nat, nat>)    // the replay tool going back, while no process runs

  function Next(s: State, p: nat): Pos {
    Pos(p, Get(s.position, p))
  }

  predicate Enabled(log: Log, s: State, ev: Event) {
    match ev
    case Deliver(p, _) => s.running && InLog(log, Next(s, p)) && MessageAt(log, Next(s, p)) != Strange
    case Commit => s.running && s.pending != map[]
    case Flush(_) => s.running
    case Crash => s.running
    case Restart => !s.running
    case Reset(to) => !s.running && NotForward(to, s.committed)
  }

  /** Handle one message: a valid one is applied and buffered unless Redis fails; the offset is noted unless
      Redis fails. */
  function Handle(log: Log, s: State, p: nat, redisOk: bool): State
    requires InLog(log, Next(s, p))
  {
    var at := Next(s, p);
    var moved := s.(position := s.position[p := at.offset + 1]);
    if MessageAt(log, at) == Valid && !redisOk then moved.(failedOn := s.failedOn + {p})
    else
      var noted := moved.(pending := UpdateMax(s.pending, p, at.offset), overtaken := s.overtaken || p in s.failedOn);
      if MessageAt(log, at) == Valid then noted.(applied := s.applied + {at}, buffer := s.buffer + {at}) else noted
  }

  /** The three cases: a valid message that Redis takes is applied, buffered and noted; an invalid one is noted
      only; a valid one that Redis refuses is passed over with nothing noted. */
  lemma HandlingOneMessage(log: Log, s: State, p: nat, redisOk: bool)
    requires InLog(log, Next(s, p)) && MessageAt(log, Next(s, p)) != Strange
    ensures var at, t := Next(s, p), Handle(log, s, p, redisOk);
            && Get(t.position, p) == at.offset + 1 && t.committed == s.committed && t.lake == s.lake
            && (MessageAt(log, at) == Valid && redisOk ==> t.applied == s.applied + {at} && t.buffer == s.buffer + {at})
            && (MessageAt(log, at) == Invalid || !redisOk ==> t.applied == s.applied && t.buffer == s.buffer)
            && (MessageAt(log, at) == Invalid || redisOk ==> p in t.pending && at.offset <= t.pending[p])
            && (MessageAt(log, at) == Valid && !redisOk ==> t.pending == s.pending)
  {
  }

  function Stop(s: State): State {
    s.(running := false, position := map[], pending := map[], buffer := {}, failedOn := {},
       gone := s.gone + set at | at in s.buffer && at.offset < Get(s.committed, at.partition) && at !in s.lake)
  }

  /** Rows that will be delivered again are not lost any more. */
  function ResetTo(s: State, to: map<nat, nat>): State {
    s.(committed := to, gone := set at | at in s.gone && at.offset < Get(to, at.partition))
  }

  function Do(log: Log, s: State, ev: Event): State
    requires Enabled(log, s, ev)
  {
    match ev
    case Deliver(p, redisOk) => Handle(log, s, p, redisOk)
    case Commit => s.(committed := CommitOffsets(s.committed, s.pending), pending := map[])
    case Flush(stored) => s.(lake := s.lake + s.buffer * stored, buffer := s.buffer - stored)
    case Crash => Stop(s)
    case Restart => s.(running := true, position := s.committed, base := s.committed)
    case Reset(to) => ResetTo(s, to)
  }

  ghost function After(log: Log, evs: seq<Event>): Option<State> {
    if evs == [] then Some(INIT)
    else
      var before := After(log, evs[..|evs| - 1]);
      if before.Some? && Enabled(log, before.value, evs[|evs| - 1])
      then Some(Do(log, before.value, evs[|evs| - 1]))
      else None
  }

  // ---------------------------------------------------------------- the commit rule

  predicate HandledAt(log: Log, s: State, at: Pos)
    requires InLog(log, at)
  {
    at in s.applied || MessageAt(log, at) == Invalid
  }

  /** Every message below a committed offset was applied to Redis or was invalid. */
  ghost predicate Safe(log: Log, s: State) {
    forall at: Pos | InLog(log, at) && at.offset < Get(s.committed, at.partition) :: HandledAt(log, s, at)
  }

  ghost predicate PositionsOk(log: Log, s: State) {
    && (forall p: nat :: Get(s.base, p) <= Get(s.committed, p) <= Get(s.position, p))
    && (forall p: nat | p < |log| :: Get(s.position, p) <= |log[p]|)
    && (forall p | p in s.pending :: p < |log| && Get(s.committed, p) <= s.pending[p] < Get(s.position, p))
  }

  ghost predicate OffsetsOk(log: Log, s: State) {
    && PositionsOk(log, s)
    && (forall at: Pos | InLog(log, at) && at.offset < Get(s.position, at.partition) :: MessageAt(log, at) != Strange)
  }

  /** On a partition without a Redis failure everything read is handled; on any other, everything up to the
      noted offset is, as long as nothing was overtaken. */
  ghost predicate NotOvertaken(log: Log, s: State) {
    && Safe(log, s)
    && (forall at: Pos | InLog(log, at) && at.offset < Get(s.position, at.partition) && at.partition !in s.failedOn ::
          HandledAt(log, s, at))
    && (forall at: Pos | InLog(log, at) && at.partition in s.pending && at.offset <= s.pending[at.partition] ::
          HandledAt(log, s, at))
  }

  ghost predicate Inv(log: Log, s: State) {
    && (s.running ==> OffsetsOk(log, s))
    && (!s.running ==> s.position == map[] && s.pending == map[] && s.buffer == {} && s.failedOn == {})
    && (forall p: nat | p < |log| :: Get(s.committed, p) <= |log[p]|)
    && (forall at: Pos | InLog(log, at) && at.offset < Get(s.committed, at.partition) :: MessageAt(log, at) != Strange)
    && (!s.overtaken ==> NotOvertaken(log, s))
  }

  lemma HandleKeepsPositions(log: Log, s: State, p: nat, redisOk: bool)
    requires PositionsOk(log, s) && Enabled(log, s, Deliver(p, redisOk))
    ensures PositionsOk(log, Handle(log, s, p, redisOk))
  {
    var t := Handle(log, s, p, redisOk);
    forall q: nat ensures Get(t.position, q) == (if q == p then Get(s.position, q) + 1 else Get(s.position, q)) {}
  }

  lemma HandleKeepsOffsets(log: Log, s: State, p: nat, redisOk: bool)
    requires OffsetsOk(log, s) && Enabled(log, s, Deliver(p, redisOk))
    ensures OffsetsOk(log, Handle(log, s, p, redisOk))
  {
    HandleKeepsPositions(log, s, p, redisOk);
  }

  lemma HandleOvertakesNothing(log: Log, s: State, p: nat, redisOk: bool)
    requires OffsetsOk(log, s) && NotOvertaken(log, s) && Enabled(log, s, Deliver(p, redisOk))
    requires !Handle(log, s, p, redisOk).overtaken
    ensures NotOvertaken(log, Handle(log, s, p, redisOk))
  {
    var t := Handle(log, s, p, redisOk);
    assert forall at: Pos | InLog(log, at) && HandledAt(log, s, at) :: HandledAt(log, t, at);
    assert (MessageAt(log, Next(s, p)) == Valid && !redisOk) || HandledAt(log, t, Next(s, p));
  }

  lemma HandleKeeps(log: Log, s: State, p: nat, redisOk: bool)
    requires Inv(log, s) && Enabled(log, s, Deliver(p, redisOk))
    ensures Inv(log, Handle(log, s, p, redisOk))
  {
    HandleKeepsOffsets(log, s, p, redisOk);
    if !Handle(log, s, p, redisOk).overtaken {
      HandleOvertakesNothing(log, s, p, redisOk);
    }
  }

  lemma CommitKeeps(log: Log, s: State)
    requires Inv(log, s) && Enabled(log, s, Commit)
    ensures Inv(log, Do(log, s, Commit))
  {
    var t := Do(log, s, Commit);
    assert forall at: Pos | InLog(log, at) && HandledAt(log, s, at) :: HandledAt(log, t, at);
  }

  lemma RestartKeeps(log: Log, s: State)
    requires Inv(log, s) && Enabled(log, s, Restart)
    ensures Inv(log, Do(log, s, Restart))
  {
    var t := Do(log, s, Restart);
    assert forall at: Pos | InLog(log, at) && HandledAt(log, s, at) :: HandledAt(log, t, at);
  }

  lemma QuietKeeps(log: Log, s: State, ev: Event)
    requires Inv(log, s) && Enabled(log, s, ev) && (ev.Flush? || ev.Crash? || ev.Reset?)
    ensures Inv(log, Do(log, s, ev))
  {
    var t := Do(log, s, ev);
    assert forall at: Pos | InLog(log, at) && HandledAt(log, s, at) :: HandledAt(log, t, at);
  }

  lemma InvStep(log: Log, s: State, ev: Event)
    requires Inv(log, s) && Enabled(log, s, ev)
    ensures Inv(log, Do(log, s, ev))
  {
    if ev.Deliver? { HandleKeeps(log, s, ev.p, ev.redisOk); }
    else if ev.Commit? { CommitKeeps(log, s); }
    else if ev.Restart? { RestartKeeps(log, s); }
    else { QuietKeeps(log, s, ev); }
  }

  lemma {:induction false} InvHolds(log: Log, evs: seq<Event>)
    requires After(log, evs).Some?
    ensures Inv(log, After(log, evs).value)
  {
    if evs != [] {
      InvHolds(log, evs[..|evs| - 1]);
      InvStep(log, After(log, evs[..|evs| - 1]).value, evs[|evs| - 1]);
    }
  }

  /** The commit rule that holds: in every run in which no message is handled on a partition after a Redis
      failure there in the same process, everything below a committed offset was applied or invalid. */
  lemma CommitRule(log: Log, evs: seq<Event>)
    requires After(log, evs).Some? && !After(log, evs).value.overtaken
    ensures Safe(log, After(log, evs).value)
  {
    InvHolds(log, evs);
  }

  /** A message read by this process that Redis has never taken. */
  predicate Skipped(log: Log, s: State, at: Pos) {
    && InLog(log, at)
    && Get(s.committed, at.partition) <= at.offset < Get(s.position, at.partition)
    && MessageAt(log, at) == Valid
    && at !in s.applied
  }

  /** A commit keeps the rule if and only if it does not go past a skipped message. */
  lemma CommitIsSafeIff(log: Log, s: State)
    requires Inv(log, s) && Safe(log, s) && Enabled(log, s, Commit)
    ensures Safe(log, Do(log, s, Commit)) <==>
            forall at: Pos | Skipped(log, s, at) && at.partition in s.pending :: s.pending[at.partition] < at.offset
  {
    var t := Do(log, s, Commit);
    if forall at: Pos | Skipped(log, s, at) && at.partition in s.pending :: s.pending[at.partition] < at.offset {
      forall at: Pos | InLog(log, at) && at.offset < Get(t.committed, at.partition) ensures HandledAt(log, t, at) {
        if Get(s.committed, at.partition) <= at.offset {
          assert at.partition in s.pending;
          assert !Skipped(log, s, at);
        } else {
          assert HandledAt(log, s, at);
        }
      }
    }
    if Safe(log, t) {
      forall at: Pos | Skipped(log, s, at) && at.partition in s.pending ensures s.pending[at.partition] < at.offset {
        assert at.offset < Get(t.committed, at.partition) ==> HandledAt(log, t, at);
      }
    }
  }

  /** While no process runs, the offsets can be set back to any earlier place, or left where they are. */
  lemma BackwardResetsArePossible(log: Log, s: State, to: map<nat, nat>)
    requires !s.running && forall p | p in to :: to[p] <= Get(s.committed, p)
    ensures Enabled(log, s, Reset(to)) && Do(log, s, Reset(to)).committed == to
  {
  }

  /** An offset reset, forward or back, keeps the rule if and only if every message it leaves behind was
      applied or invalid; so a reset that goes back always does. */
  lemma ResetIsSafeIff(log: Log, s: State, to: map<nat, nat>)
    requires Safe(log, s)
    ensures Safe(log, ResetTo(s, to)) <==>
            forall at: Pos | InLog(log, at) && Get(s.committed, at.partition) <= at.offset < Get(to, at.partition) ::
              HandledAt(log, s, at)
    ensures NotForward(to, s.committed) ==> Safe(log, ResetTo(s, to))
  {
    var t := ResetTo(s, to);
    assert forall at: Pos | InLog(log, at) :: HandledAt(log, t, at) == HandledAt(log, s, at);
  }

  /** A failure on offset 0, a good message on offset 1, and a commit. */
  const OVERTAKING: seq<Event> := [Restart, Deliver(0, false), Deliver(0, true), Commit]

  lemma OvertakingStates() returns (s1: State, s2: State, s3: State, s4: State)
    ensures var log := [[Valid, Valid]];
            && After(log, OVERTAKING[..1]) == Some(s1) && After(log, OVERTAKING[..2]) == Some(s2)
            && After(log, OVERTAKING[..3]) == Some(s3) && After(log, OVERTAKING) == Some(s4)
            && Enabled(log, s1, Deliver(0, false)) && s2 == Handle(log, s1, 0, false) && Get(s1.position, 0) == 0
            && Enabled(log, s2, Deliver(0, true)) && s3 == Handle(log, s2, 0, true) && Get(s2.position, 0) == 1
            && s4.committed == map[0 := 2] && s4.applied == {Pos(0, 1)}
  {
    var log := [[Valid, Valid]];
    var evs := OVERTAKING;
    assert evs[..3][..2] == evs[..2] && evs[..2][..1] == evs[..1] && evs[..1][..0] == [];
    s1 := Do(log, INIT, Restart);
    assert After(log, evs[..1]) == Some(s1);
    s2 := Do(log, s1, Deliver(0, false));
    assert After(log, evs[..2]) == Some(s2);
    s3 := Do(log, s2, Deliver(0, true));
    assert After(log, evs[..3]) == Some(s3);
    s4 := Do(log, s3, Commit);
  }

  /** The rule fails in general: that run leaves offset 2 committed with offset 0 never applied. */
  lemma CommitPassesAFailedMessage()
    ensures var log := [[Valid, Valid]];
            var s := After(log, OVERTAKING);
            s.Some? && s.value.committed == map[0 := 2] && Pos(0, 0) !in s.value.applied && !Safe(log, s.value)
  {
    var s1, s2, s3, s4 := OvertakingStates();
    assert InLog([[Valid, Valid]], Pos(0, 0)) && !HandledAt([[Valid, Valid]], s4, Pos(0, 0));
  }

  /** `len(pending_offsets)` counts partitions: on a topic of fewer than COMMIT_SIZE partitions the size
      threshold never fires, and commits happen on the timer alone. */
  lemma SizeThresholdCountsPartitions(log: Log, evs: seq<Event>, now: real, started: real)
    requires After(log, evs).Some? && |log| < COMMIT_SIZE
    ensures CommitDue(After(log, evs).value, now, started) <==>
            After(log, evs).value.pending != map[] && now - started >= COMMIT_TIMEOUT
  {
    InvHolds(log, evs);
    var s := After(log, evs).value;
    assert s.pending.Keys <= Below(|log|);
    SubsetCount(s.pending.Keys, Below(|log|));
  }

  function Below(n: nat): (r: set<nat>)
    ensures |r| == n && forall p: nat :: p in r <==> p < n
  {
    if n == 0 then {} else Below(n - 1) + {n - 1}
  }

  lemma SubsetCount(a: set<nat>, b: set<nat>)
    requires a <= b
    ensures |a| <= |b|
  {
    assert b == a + (b - a);
  }

  predicate CommitDue(s: State, now: real, started: real) {
    s.pending != map[] && (|s.pending| >= COMMIT_SIZE || now - started >= COMMIT_TIMEOUT)
  }

  // ---------------------------------------------------------------- what the lake loses

  /** A message noted by this process is uploaded or buffered; one that is only committed may also be gone. */
  ghost predicate LakeInv(log: Log, s: State) {
    && (!s.overtaken ==> LakeHasCommitted(log, s) && LakeHasNoted(log, s))
    && LakeApart(s)
  }

  ghost predicate LakeHasCommitted(log: Log, s: State) {
    forall at: Pos | InLog(log, at) && at.offset < Get(s.committed, at.partition) && MessageAt(log, at) == Valid ::
      at in s.lake || at in s.buffer || at in s.gone
  }

  ghost predicate LakeHasNoted(log: Log, s: State) {
    forall at: Pos | InLog(log, at) && Noted(s, at) && MessageAt(log, at) == Valid :: at in s.lake || at in s.buffer
  }

  ghost predicate LakeApart(s: State) {
    && (forall at | at in s.buffer :: Get(s.base, at.partition) <= at.offset)
    && (forall at | at in s.gone ::
        at !in s.lake && at.offset < Get(if s.running then s.base else s.committed, at.partition))
  }

  /** Read by this process since the last commit, and not beyond a failure. */
  predicate Noted(s: State, at: Pos) {
    && Get(s.committed, at.partition) <= at.offset < Get(s.position, at.partition)
    && (at.partition !in s.failedOn || (at.partition in s.pending && at.offset <= s.pending[at.partition]))
  }

  lemma LakeDeliver(log: Log, s: State, p: nat, redisOk: bool)
    requires Inv(log, s) && LakeInv(log, s) && Enabled(log, s, Deliver(p, redisOk))
    ensures LakeInv(log, Handle(log, s, p, redisOk))
  {
    if !Handle(log, s, p, redisOk).overtaken {
      DeliverNotes(log, s, p, redisOk);
    }
  }

  lemma DeliverNotes(log: Log, s: State, p: nat, redisOk: bool)
    requires OffsetsOk(log, s) && LakeHasNoted(log, s) && Enabled(log, s, Deliver(p, redisOk))
    requires !Handle(log, s, p, redisOk).overtaken
    ensures LakeHasNoted(log, Handle(log, s, p, redisOk))
  {
    var t := Handle(log, s, p, redisOk);
    forall at: Pos ensures Noted(t, at) ==> Noted(s, at) || (at == Next(s, p) && t.failedOn == s.failedOn) {}
  }

  lemma LakeStep(log: Log, s: State, ev: Event)
    requires Inv(log, s) && LakeInv(log, s) && Enabled(log, s, ev)
    ensures LakeInv(log, Do(log, s, ev))
  {
    match ev
    case Deliver(p, redisOk) => LakeDeliver(log, s, p, redisOk);
    case Commit => LakeCommit(log, s);
    case _ =>
  }

  lemma LakeCommit(log: Log, s: State)
    requires Inv(log, s) && LakeInv(log, s) && Enabled(log, s, Commit)
    ensures LakeInv(log, Do(log, s, Commit))
  {
    var t := Do(log, s, Commit);
    if !t.overtaken {
      forall at: Pos | InLog(log, at) && at.offset < Get(t.committed, at.partition) && MessageAt(log, at) == Valid
        ensures at in t.lake || at in t.buffer || at in t.gone
      {
        if Get(s.committed, at.partition) <= at.offset {
          assert Noted(s, at);
        }
      }
    }
  }

  lemma {:induction false} LakeHolds(log: Log, evs: seq<Event>)
    requires After(log, evs).Some?
    ensures LakeInv(log, After(log, evs).value)
  {
    if evs != [] {
      LakeHolds(log, evs[..|evs| - 1]);
      InvHolds(log, evs[..|evs| - 1]);
      LakeStep(log, After(log, evs[..|evs| - 1]).value, evs[|evs| - 1]);
    }
  }

  /** What crashes cost the lake, over every run in which no failed message was overtaken: a valid message
      below a committed offset is missing from lake and buffer if and only if it sat unsaved in the buffer
      at a crash that came after its commit and no reset has gone back to it since.  In every run, a row that
      is gone is not in the lake. */
  lemma LakeAccounting(log: Log, evs: seq<Event>, at: Pos)
    requires After(log, evs).Some? && InLog(log, at) && MessageAt(log, at) == Valid
    ensures var s := After(log, evs).value;
            && (!s.overtaken && at.offset < Get(s.committed, at.partition) ==>
                  (at in s.gone <==> at !in s.lake && at !in s.buffer))
            && (at in s.gone ==> at !in s.lake)
  {
    LakeHolds(log, evs);
    InvHolds(log, evs);
  }

  /** A row that is gone stays gone until the offsets are reset to it or to before it. */
  lemma GoneUntilReset(log: Log, s: State, ev: Event, at: Pos)
    requires Enabled(log, s, ev) && at in s.gone
    ensures at in Do(log, s, ev).gone <==> !(ev.Reset? && Get(ev.to, at.partition) <= at.offset)
  {
  }

  /** And crashes do cost rows: one message applied, committed and not yet uploaded when the process dies. */
  lemma CrashLosesACommittedRow()
    ensures var s := After([[Valid]], [Restart, Deliver(0, true), Commit, Crash]);
            s.Some? && s.value.committed == map[0 := 1] && Pos(0, 0) in s.value.gone && Pos(0, 0) !in s.value.lake
            && !s.value.overtaken
  {
    var log := [[Valid]];
    var evs := [Restart, Deliver(0, true), Commit, Crash];
    assert evs[..3] == [Restart, Deliver(0, true), Commit];
    assert evs[..3][..2] == [Restart, Deliver(0, true)];
    assert evs[..3][..2][..1] == [Restart];
    assert evs[..3][..2][..1][..0] == [];
    var s1 := Do(log, INIT, Restart);
    assert After(log, [Restart]) == Some(s1);
    var s2 := Do(log, s1, Deliver(0, true));
    assert After(log, [Restart, Deliver(0, true)]) == Some(s2);
    var s3 := Do(log, s2, Commit);
    assert After(log, evs[..3]) == Some(s3);
    assert Pos(0, 0) in s3.buffer && Get(s3.committed, 0) == 1;
    assert Pos(0, 0) in Do(log, s3, Crash).gone;
  }

  // ---------------------------------------------------------------- the loop

  datatype Received = Nothing | ErrorFrame | Message(partition: nat)

  /** One turn: what was polled, whether Redis and the broker answer, which uploads succeed and whether one of
      them raises something the buffer does not catch, the clock. */
  datatype Tick = Tick(received: Received, redisOk: bool, commitOk: bool, stored: set<Pos>, escapes: bool, now: real)

  /** The loop's variables.  `raised` is set when an exception leaves it, `escaped` when it left in the middle
      of a flush: then the rows in the model's `buffer` are in nobody's hands and are never uploaded. */
  datatype Loop = Loop(s: State, commitStarted: real, parquetFlushed: real, raised: bool, escaped: bool)

  predicate Delivers(log: Log, s: State, r: Received) {
    r.Message? && InLog(log, Next(s, r.partition))
  }

  function CommitTimer(l: Loop, tick: Tick): Loop {
    if !CommitDue(l.s, tick.now, l.commitStarted) then l
    else if !tick.commitOk then l.(raised := true)
    else l.(s := l.s.(committed := CommitOffsets(l.s.committed, l.s.pending), pending := map[]),
            commitStarted := tick.now)
  }

  function FlushTimer(l: Loop, tick: Tick, interval: real): Loop {
    if tick.now - l.parquetFlushed < interval then l
    else
      var s := l.s.(lake := l.s.lake + l.s.buffer * tick.stored, buffer := l.s.buffer - tick.stored);
      if tick.escapes then l.(s := s, raised := true, escaped := true) else l.(s := s, parquetFlushed := tick.now)
  }

  /** The two independent timers, in the order the loop looks at them. */
  function TimersOf(l: Loop, tick: Tick, interval: real): Loop {
    var m := CommitTimer(l, tick);
    if m.raised then m else FlushTimer(m, tick, interval)
  }

  function TurnOf(log: Log, l: Loop, tick: Tick, interval: real): Loop {
    if !Delivers(log, l.s, tick.received) then TimersOf(l, tick, interval)
    else if MessageAt(log, Next(l.s, tick.received.partition)) == Strange then l.(raised := true)
    else TimersOf(l.(s := Handle(log, l.s, tick.received.partition, tick.redisOk)), tick, interval)
  }

  function LoopOf(log: Log, l: Loop, script: seq<Tick>, interval: real): Loop
    decreases |script|
  {
    if script == [] || l.raised then l else LoopOf(log, TurnOf(log, l, script[0], interval), script[1..], interval)
  }

  lemma LoopUnrolls(log: Log, l: Loop, script: seq<Tick>, i: nat, interval: real)
    requires !l.raised && i < |script|
    ensures LoopOf(log, l, script[i..], interval)
         == LoopOf(log, TurnOf(log, l, script[i], interval), script[i + 1..], interval)
  {
    assert script[i..][0] == script[i] && script[i..][1..] == script[i + 1..];
  }

  /** A process from start to stop. */
  function ConsumerRun(log: Log, s: State, now: real, script: seq<Tick>, interval: real, commitOk: bool,
                       stored: set<Pos>): State
    requires !s.running
  {
    var m := LoopOf(log, Loop(Do(log, s, Restart), now, now, false, false), script, interval);
    Drained(m.s, commitOk, if m.escaped then {} else stored)
  }

  /** The drain after the loop: commit what is noted, flush, stop. */
  function Drained(s: State, commitOk: bool, stored: set<Pos>): State {
    var t := if s.pending != map[] && commitOk
             then s.(committed := CommitOffsets(s.committed, s.pending), pending := map[]) else s;
    Stop(t.(lake := t.lake + t.buffer * stored, buffer := t.buffer - stored))
  }

  class StreamLoop {
    const log: Log
    const flushInterval: real

    // Outside the process: group offsets, Redis, the stream lake.
    var committed: map<nat, nat>
    var applied: set<Pos>
    var lake: set<Pos>

    // In the process.
    var running: bool
    var position: map<nat, nat>
    var pending: map<nat, nat>
    var buffer: set<Pos>
    var commitStarted: real
    var parquetFlushed: real

    // The machine's history variables.
    ghost var base: map<nat, nat>
    ghost var failedOn: set<nat>
    ghost var overtaken: bool
    ghost var gone: set<Pos>

    ghost function Now(): State
      reads this
    {
      State(committed, applied, lake, running, position, pending, buffer, base, failedOn, overtaken, gone)
    }

    constructor (log: Log, flushInterval: real)
      ensures Now() == INIT && this.log == log && this.flushInterval == flushInterval
    {
      this.log, this.flushInterval := log, flushInterval;
      committed, applied, lake, running, position, pending, buffer := map[], {}, {}, false, map[], map[], {};
      commitStarted, parquetFlushed := 0.0, 0.0;
      base, failedOn, overtaken, gone := map[], {}, false, {};
    }

    method HandleMessage(p: nat, redisOk: bool)
      requires InLog(log, Next(Now(), p)) && MessageAt(log, Next(Now(), p)) != Strange
      modifies this
      ensures Now() == old(Handle(log, Now(), p, redisOk))
      ensures commitStarted == old(commitStarted) && parquetFlushed == old(parquetFlushed)
    {
      var offset := Get(position, p);
      position := position[p := offset + 1];
      if log[p][offset] == Valid {
        if !redisOk {
          failedOn := failedOn + {p};
          return;
        }
        applied := applied + {Pos(p, offset)};
        buffer := buffer + {Pos(p, offset)};
      }
      pending := UpdateMax(pending, p, offset);
      overtaken := overtaken || p in failedOn;
    }

    method CommitPending()
      modifies `committed, `pending
      ensures committed == CommitOffsets(old(committed), old(pending)) && pending == map[]
    {
      committed := CommitOffsets(committed, pending);
      pending := map[];
    }

    method FlushBuffer(stored: set<Pos>)
      modifies `lake, `buffer
      ensures lake == old(lake) + old(buffer) * stored && buffer == old(buffer) - stored
    {
      lake, buffer := lake + buffer * stored, buffer - stored;
    }

    method MaybeCommit(tick: Tick) returns (raised: bool)
      modifies `committed, `pending, `commitStarted
      ensures Loop(Now(), commitStarted, parquetFlushed, raised, false)
              == old(CommitTimer(Loop(Now(), commitStarted, parquetFlushed, false, false), tick))
    {
      if pending != map[] && (|pending| >= COMMIT_SIZE || tick.now - commitStarted >= COMMIT_TIMEOUT) {
        if !tick.commitOk {
          return true;
        }
        CommitPending();
        commitStarted := tick.now;
      }
      raised := false;
    }

    method MaybeFlush(tick: Tick) returns (raised: bool)
      modifies `lake, `buffer, `parquetFlushed
      ensures Loop(Now(), commitStarted, parquetFlushed, raised, raised)
              == old(FlushTimer(Loop(Now(), commitStarted, parquetFlushed, false, false), tick, flushInterval))
    {
      raised := false;
      if tick.now - parquetFlushed >= flushInterval {
        FlushBuffer(tick.stored);
        if tick.escapes {
          return true;
        }
        parquetFlushed := tick.now;
      }
    }

    method Timers(tick: Tick) returns (raised: bool, escaped: bool)
      modifies this
      ensures Loop(Now(), commitStarted, parquetFlushed, raised, escaped)
              == old(TimersOf(Loop(Now(), commitStarted, parquetFlushed, false, false), tick, flushInterval))
    {
      raised := MaybeCommit(tick);
      escaped := false;
      if !raised {
        raised := MaybeFlush(tick);
        escaped := raised;
      }
    }

    method Turn(tick: Tick) returns (raised: bool, escaped: bool)
      modifies this
      ensures Loop(Now(), commitStarted, parquetFlushed, raised, escaped)
              == TurnOf(log, old(Loop(Now(), commitStarted, parquetFlushed, false, false)), tick, flushInterval)
    {
      if tick.received.Message? && InLog(log, Pos(tick.received.partition, Get(position, tick.received.partition))) {
        var p := tick.received.partition;
        if log[p][Get(position, p)] == Strange {
          return true, false;
        }
        HandleMessage(p, tick.redisOk);
      }
      raised, escaped := Timers(tick);
    }

    method Close()
      modifies this
      ensures Now() == old(Stop(Now()))
    {
      gone := gone + set at | at in buffer && at.offset < Get(committed, at.partition) && at !in lake;
      running, position, pending, buffer, failedOn := false, map[], map[], {}, {};
    }

    method Drain(commitOk: bool, stored: set<Pos>)
      modifies this
      ensures Now() == old(Drained(Now(), commitOk, stored))
    {
      if pending != map[] && commitOk {
        CommitPending();
      }
      FlushBuffer(stored);
      Close();
    }

    method Open(now: real)
      requires !running
      modifies this
      ensures Now() == old(Do(log, Now(), Restart)) && commitStarted == now && parquetFlushed == now
    {
      running, position, base := true, committed, committed;
      commitStarted, parquetFlushed := now, now;
    }

    method RunLoop(script: seq<Tick>) returns (escaped: bool)
      modifies this
      ensures var m := LoopOf(log, old(Loop(Now(), commitStarted, parquetFlushed, false, false)), script,
                              flushInterval);
              Now() == m.s && escaped == m.escaped
    {
      var i := 0;
      var raised := false;
      escaped := false;
      ghost var start := Loop(Now(), commitStarted, parquetFlushed, false, false);
      while i < |script| && !raised
        invariant 0 <= i <= |script|
        invariant !raised ==> !escaped
        invariant LoopOf(log, Loop(Now(), commitStarted, parquetFlushed, raised, escaped), script[i..], flushInterval)
                  == LoopOf(log, start, script, flushInterval)
      {
        LoopUnrolls(log, Loop(Now(), commitStarted, parquetFlushed, false, false), script, i, flushInterval);
        raised, escaped := Turn(script[i]);
        i := i + 1;
      }
    }

    /** A process from start to stop keeps the commit rule as long as no Redis failure is overtaken. */
    method ConsumerLoop(now: real, script: seq<Tick>, commitOk: bool, stored: set<Pos>)
      requires !running && Inv(log, Now())
      modifies this
      ensures !running && Inv(log, Now())
      ensures !overtaken ==> Safe(log, Now())
      ensures Now() == ConsumerRun(log, old(Now()), now, script, flushInterval, commitOk, stored)
      ensures old(applied) <= applied && old(lake) <= lake
    {
      InvStep(log, Now(), Restart);
      Open(now);
      LoopKeepsInv(log, Loop(Now(), now, now, false, false), script, flushInterval);
      var escaped := RunLoop(script);
      var saved := if escaped then {} else stored;
      DrainKeepsInv(log, Now(), commitOk, saved);
      Drain(commitOk, saved);
    }
  }

  // ---------------------------------------------------------------- the loop is a run of the machine

  lemma TimersAreEvents(log: Log, l: Loop, tick: Tick, interval: real) returns (evs: seq<Event>)
    requires l.s.running && !l.raised
    ensures |evs| <= 2 && Chain(log, l.s, evs) == Some(TimersOf(l, tick, interval).s)
  {
    var m := CommitTimer(l, tick);
    evs := if m.s == l.s then [] else [Commit];
    assert evs != [] ==> evs[1..] == [];
    assert Chain(log, l.s, evs) == Some(m.s);
    if !m.raised && tick.now - m.parquetFlushed >= interval {
      ChainSnoc(log, l.s, evs, Flush(tick.stored));
      evs := evs + [Flush(tick.stored)];
    }
  }

  /** Each turn is a few events of the machine. */
  lemma TurnIsEvents(log: Log, l: Loop, tick: Tick, interval: real) returns (evs: seq<Event>)
    requires l.s.running && !l.raised
    ensures |evs| <= 3 && Chain(log, l.s, evs) == Some(TurnOf(log, l, tick, interval).s)
  {
    if !Delivers(log, l.s, tick.received) {
      evs := TimersAreEvents(log, l, tick, interval);
    } else if MessageAt(log, Next(l.s, tick.received.partition)) == Strange {
      evs := [];
    } else {
      var first := Deliver(tick.received.partition, tick.redisOk);
      var rest := TimersAreEvents(log, l.(s := Do(log, l.s, first)), tick, interval);
      evs := [first] + rest;
      assert evs[1..] == rest;
    }
  }

  ghost function Chain(log: Log, s: State, evs: seq<Event>): Option<State>
    decreases |evs|
  {
    if evs == [] then Some(s)
    else if Enabled(log, s, evs[0]) then Chain(log, Do(log, s, evs[0]), evs[1..])
    else None
  }

  lemma {:induction false} ChainSnoc(log: Log, s: State, evs: seq<Event>, ev: Event)
    requires Chain(log, s, evs).Some? && Enabled(log, Chain(log, s, evs).value, ev)
    ensures Chain(log, s, evs + [ev]) == Some(Do(log, Chain(log, s, evs).value, ev))
    decreases |evs|
  {
    if evs == [] {
      assert [ev][1..] == [];
    } else {
      ChainSnoc(log, Do(log, s, evs[0]), evs[1..], ev);
      assert (evs + [ev])[1..] == evs[1..] + [ev];
    }
  }

  lemma {:induction false} InvAlongChain(log: Log, s: State, evs: seq<Event>)
    requires Inv(log, s) && Chain(log, s, evs).Some?
    ensures Inv(log, Chain(log, s, evs).value)
    decreases |evs|
  {
    if evs != [] {
      InvStep(log, s, evs[0]);
      InvAlongChain(log, Do(log, s, evs[0]), evs[1..]);
    }
  }

  lemma StoresGrow(log: Log, s: State, ev: Event)
    requires Enabled(log, s, ev)
    ensures s.applied <= Do(log, s, ev).applied && s.lake <= Do(log, s, ev).lake
  {
  }

  lemma {:induction false} StoresGrowAlongChain(log: Log, s: State, evs: seq<Event>)
    requires Chain(log, s, evs).Some?
    ensures s.applied <= Chain(log, s, evs).value.applied && s.lake <= Chain(log, s, evs).value.lake
    decreases |evs|
  {
    if evs != [] {
      StoresGrow(log, s, evs[0]);
      StoresGrowAlongChain(log, Do(log, s, evs[0]), evs[1..]);
    }
  }

  lemma TurnKeepsInv(log: Log, l: Loop, tick: Tick, interval: real)
    requires l.s.running && !l.raised && Inv(log, l.s)
    ensures var m := TurnOf(log, l, tick, interval);
            m.s.running && Inv(log, m.s) && l.s.applied <= m.s.applied && l.s.lake <= m.s.lake
  {
    var evs := TurnIsEvents(log, l, tick, interval);
    InvAlongChain(log, l.s, evs);
    StoresGrowAlongChain(log, l.s, evs);
    TurnKeepsRunning(log, l, tick, interval);
  }

  lemma {:induction false} LoopKeepsInv(log: Log, l: Loop, script: seq<Tick>, interval: real)
    requires l.s.running && Inv(log, l.s)
    ensures var m := LoopOf(log, l, script, interval);
            m.s.running && Inv(log, m.s) && l.s.applied <= m.s.applied && l.s.lake <= m.s.lake
    decreases |script|
  {
    if script != [] && !l.raised {
      TurnKeepsInv(log, l, script[0], interval);
      LoopKeepsInv(log, TurnOf(log, l, script[0], interval), script[1..], interval);
    }
  }

  lemma TurnKeepsRunning(log: Log, l: Loop, tick: Tick, interval: real)
    requires l.s.running
    ensures TurnOf(log, l, tick, interval).s.running
  {
    TimersKeepRunning(l, tick, interval);
    if Delivers(log, l.s, tick.received) {
      var s := Handle(log, l.s, tick.received.partition, tick.redisOk);
      assert s.running;
      TimersKeepRunning(l.(s := s), tick, interval);
    }
  }

  lemma TimersKeepRunning(l: Loop, tick: Tick, interval: real)
    requires l.s.running
    ensures TimersOf(l, tick, interval).s.running
  {
  }

  lemma DrainKeepsInv(log: Log, s: State, commitOk: bool, stored: set<Pos>)
    requires s.running && Inv(log, s)
    ensures var t := Drained(s, commitOk, stored);
            !t.running && Inv(log, t) && s.applied <= t.applied && s.lake <= t.lake
  {
    var t := s;
    if s.pending != map[] && commitOk {
      InvStep(log, s, Commit);
      t := Do(log, s, Commit);
    }
    InvStep(log, t, Flush(stored));
    InvStep(log, Do(log, t, Flush(stored)), Crash);
  }
}
