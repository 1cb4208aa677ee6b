/** How long the stream consumer keeps a row in memory and an offset uncommitted
    (services/worker/app/stream_features/consumer.py). */
module StreamProgress {
  import opened Options
  import opened Offsets
  import opened StreamConsumer

  /** A turn does not get as far as its timers when the message raises something the loop does not catch. */
  predicate ReachesTimers(log: Log, l: Loop, tick: Tick) {
    !l.raised && !(Delivers(log, l.s, tick.received) && MessageAt(log, Next(l.s, tick.received.partition)) == Strange)
  }

  /** The state when the turn looks at its timers. */
  function Received(log: Log, l: Loop, tick: Tick): State {
    if Delivers(log, l.s, tick.received) then Handle(log, l.s, tick.received.partition, tick.redisOk) else l.s
  }

  lemma TurnIsTimers(log: Log, l: Loop, tick: Tick, interval: real)
    requires ReachesTimers(log, l, tick)
    ensures TurnOf(log, l, tick, interval) == TimersOf(l.(s := Received(log, l, tick)), tick, interval)
    ensures Received(log, l, tick).lake == l.s.lake && Received(log, l, tick).committed == l.s.committed
  {
  }

  /** Uploaded when due, and only then. */
  ghost predicate UploadsIffDue(l: Loop, m: Loop, tick: Tick, interval: real) {
    && (forall at | at in l.s.buffer :: at in m.s.lake || at in m.s.buffer)
    && (if interval <= tick.now - l.parquetFlushed
        then m.parquetFlushed == tick.now
             && forall at | at in l.s.buffer ::
                  if at in tick.stored then at in m.s.lake && at !in m.s.buffer else at in m.s.buffer
        else m.parquetFlushed == l.parquetFlushed && m.s.lake == l.s.lake && m.s.buffer == l.s.buffer)
  }

  lemma TimersUpload(l: Loop, tick: Tick, interval: real)
    requires !l.raised && !TimersOf(l, tick, interval).raised
    ensures UploadsIffDue(l, TimersOf(l, tick, interval), tick, interval)
  {
    var c := CommitTimer(l, tick);
    assert c.s.buffer == l.s.buffer && c.s.lake == l.s.lake && c.parquetFlushed == l.parquetFlushed;
  }

  /** The upload timer: when the interval is over, every row in memory whose upload succeeds - also one applied
      in this turn - is in the lake and out of the buffer, and the timer starts anew; before that, nothing is
      uploaded. */
  lemma TurnUploadsIffDue(log: Log, l: Loop, tick: Tick, interval: real)
    requires ReachesTimers(log, l, tick) && !TurnOf(log, l, tick, interval).raised
    ensures UploadsIffDue(l.(s := Received(log, l, tick)), TurnOf(log, l, tick, interval), tick, interval)
  {
    TurnIsTimers(log, l, tick, interval);
    TimersUpload(l.(s := Received(log, l, tick)), tick, interval);
  }

  /** Committed when due and the broker answers, and only then. */
  ghost predicate CommitsIffDue(l: Loop, m: Loop, tick: Tick) {
    && (tick.commitOk && (500 <= |l.s.pending| || 2.0 <= tick.now - l.commitStarted) ==>
          && m.s.pending == map[]
          && (forall p: nat :: Get(m.s.committed, p) == if p in l.s.pending then l.s.pending[p] + 1
              else Get(l.s.committed, p))
          && m.commitStarted == (if l.s.pending == map[] then l.commitStarted else tick.now))
    && ((|l.s.pending| < 500 && tick.now - l.commitStarted < 2.0) || !tick.commitOk ==>
          m.s.committed == l.s.committed && m.s.pending == l.s.pending && m.commitStarted == l.commitStarted)
    && (!tick.commitOk && 2.0 <= tick.now - l.commitStarted && l.s.pending != map[] ==> m.raised)
  }

  lemma CommitTimerCommits(l: Loop, tick: Tick)
    requires !l.raised
    ensures CommitsIffDue(l, CommitTimer(l, tick), tick)
  {
  }

  lemma FlushLeavesOffsets(l: Loop, tick: Tick, interval: real)
    ensures var c, m := CommitTimer(l, tick), TimersOf(l, tick, interval);
            m.s.committed == c.s.committed && m.s.pending == c.s.pending && m.commitStarted == c.commitStarted
            && (c.raised ==> m.raised)
  {
  }

  /** The commit timer: when two seconds are over, or 500 partitions noted, and the broker answers, every noted
      offset is committed; before that nothing is; and a commit that is due and fails ends the loop. */
  lemma TurnCommitsIffDue(log: Log, l: Loop, tick: Tick, interval: real)
    requires ReachesTimers(log, l, tick)
    ensures CommitsIffDue(l.(s := Received(log, l, tick)), TurnOf(log, l, tick, interval), tick)
  {
    var t := l.(s := Received(log, l, tick));
    TurnIsTimers(log, l, tick, interval);
    CommitTimerCommits(t, tick);
    FlushLeavesOffsets(t, tick, interval);
  }

  /** A turn that receives a message takes it: the position moves past it, and a valid one that Redis takes is
      applied. */
  lemma TurnTakesTheMessage(log: Log, l: Loop, tick: Tick, interval: real, p: nat)
    requires !l.raised && tick.received == Message(p)
    requires p < |log| && Get(l.s.position, p) < |log[p]| && log[p][Get(l.s.position, p)] != Strange
    ensures Get(TurnOf(log, l, tick, interval).s.position, p) == Get(l.s.position, p) + 1
    ensures log[p][Get(l.s.position, p)] == Valid && tick.redisOk ==>
              Pos(p, Get(l.s.position, p)) in TurnOf(log, l, tick, interval).s.applied
  {
    TurnIsTimers(log, l, tick, interval);
    HandlingOneMessage(log, l.s, p, tick.redisOk);
    TimersLeaveProgress(l.(s := Received(log, l, tick)), tick, interval);
  }

  lemma TimersLeaveProgress(l: Loop, tick: Tick, interval: real)
    ensures var m := TimersOf(l, tick, interval); m.s.position == l.s.position && m.s.applied == l.s.applied
  {
  }

  /** How a turn ends: it raises on a message that raises, on a due commit that fails, and on a due flush that raises,
      and only in the last case the rows in memory are given up. */
  lemma TurnRaisesIff(log: Log, l: Loop, tick: Tick, interval: real)
    requires !l.raised && !l.escaped
    ensures var m := TurnOf(log, l, tick, interval);
            var strange := !ReachesTimers(log, l, tick);
            var commitFails := CommitDue(Received(log, l, tick), tick.now, l.commitStarted) && !tick.commitOk;
            var flushRaises := interval <= tick.now - l.parquetFlushed && tick.escapes;
            && (m.raised <==> strange || commitFails || flushRaises)
            && (m.escaped <==> !strange && !commitFails && flushRaises)
  {
    if ReachesTimers(log, l, tick) {
      TurnIsTimers(log, l, tick, interval);
    }
  }

  /** A flush that raises keeps the uploads it made before, and the commit of the same turn stands. */
  lemma EscapedFlushKeepsUploads(log: Log, l: Loop, tick: Tick, interval: real)
    requires !l.raised && !l.escaped && TurnOf(log, l, tick, interval).escaped
    ensures var m, t := TurnOf(log, l, tick, interval), Received(log, l, tick);
            && (forall at | at in t.buffer && at in tick.stored :: at in m.s.lake && at !in m.s.buffer)
            && (forall at | at in t.buffer && at !in tick.stored ::
                at in m.s.buffer && (at in m.s.lake ==> at in t.lake))
  {
    TurnRaisesIff(log, l, tick, interval);
    TurnIsTimers(log, l, tick, interval);
    var c := CommitTimer(l.(s := Received(log, l, tick)), tick);
    assert c.s.buffer == Received(log, l, tick).buffer && c.s.lake == Received(log, l, tick).lake;
  }

  /** Rows given up by a flush that raised are not uploaded at the stop; otherwise the stop uploads what it can. */
  lemma StopAfterEscape(log: Log, s: State, now: real, script: seq<Tick>, interval: real, commitOk: bool,
                        stored: set<Pos>)
    requires !s.running
    ensures var m := LoopOf(log, Loop(Do(log, s, Restart), now, now, false, false), script, interval);
            var t := ConsumerRun(log, s, now, script, interval, commitOk, stored);
            t.lake == m.s.lake + (if m.escaped then {} else m.s.buffer * stored)
  {
  }

  // ---------------------------------------------------------------- rows

  /** The row is in the lake, or it is in memory and the upload timer was started by `t0`. */
  predicate RowWaits(l: Loop, at: Pos, t0: real) {
    at in l.s.lake || (at in l.s.buffer && l.parquetFlushed <= t0)
  }

  lemma TurnKeepsRowWaiting(log: Log, l: Loop, tick: Tick, interval: real, at: Pos, t0: real)
    requires !l.raised && !TurnOf(log, l, tick, interval).raised && RowWaits(l, at, t0) && at in tick.stored
    ensures RowWaits(TurnOf(log, l, tick, interval), at, t0)
    ensures interval <= tick.now - t0 ==> at in TurnOf(log, l, tick, interval).s.lake
  {
    QuietTurnReachesTimers(log, l, tick, interval);
    TurnUploadsIffDue(log, l, tick, interval);
    TurnIsTimers(log, l, tick, interval);
    assert at in l.s.buffer ==> at in Received(log, l, tick).buffer;
  }

  lemma {:induction false} RowArrives(log: Log, l: Loop, script: seq<Tick>, interval: real, at: Pos, t0: real)
    requires !l.raised && script != [] && !LoopOf(log, l, script, interval).raised && RowWaits(l, at, t0)
    requires (forall tick | tick in script :: at in tick.stored) && interval <= script[|script| - 1].now - t0
    ensures at in LoopOf(log, l, script, interval).s.lake
    decreases |script|
  {
    var m := TurnOf(log, l, script[0], interval);
    assert LoopOf(log, l, script, interval) == LoopOf(log, m, script[1..], interval);
    TurnKeepsRowWaiting(log, l, script[0], interval, at, t0);
    if |script| > 1 {
      RowArrives(log, m, script[1..], interval, at, t0);
    }
  }

  /** No row waits longer than the interval while uploads succeed: a row that is in memory at time `t0`, the
      upload timer having been started by then, is in the lake after the first turn that comes an interval
      later, or before. */
  lemma NoRowWaitsLonger(log: Log, l: Loop, script: seq<Tick>, interval: real, at: Pos, t0: real)
    requires !l.raised && script != [] && !LoopOf(log, l, script, interval).raised
    requires at in l.s.buffer && l.parquetFlushed <= t0
    requires (forall tick | tick in script :: at in tick.stored) && interval <= script[|script| - 1].now - t0
    ensures at in LoopOf(log, l, script, interval).s.lake
  {
    RowArrives(log, l, script, interval, at, t0);
  }

  // ---------------------------------------------------------------- offsets

  /** The offset is committed, or it is noted and the commit timer was started by `t0`. */
  predicate OffsetWaits(l: Loop, p: nat, o: nat, t0: real) {
    o < Get(l.s.committed, p) || (p in l.s.pending && o <= l.s.pending[p] && l.commitStarted <= t0)
  }

  lemma ReceivedKeepsOffsetWaiting(log: Log, l: Loop, tick: Tick, p: nat, o: nat, t0: real)
    requires ReachesTimers(log, l, tick) && OffsetWaits(l, p, o, t0)
    ensures OffsetWaits(l.(s := Received(log, l, tick)), p, o, t0)
  {
  }

  lemma ReceivedKeepsInv(log: Log, l: Loop, tick: Tick)
    requires ReachesTimers(log, l, tick) && l.s.running && Inv(log, l.s)
    ensures Received(log, l, tick).running && Inv(log, Received(log, l, tick))
  {
    if Delivers(log, l.s, tick.received) {
      InvStep(log, l.s, Deliver(tick.received.partition, tick.redisOk));
    }
  }

  lemma CommitReaches(l: Loop, m: Loop, tick: Tick, p: nat, o: nat, t0: real)
    requires CommitsIffDue(l, m, tick) && !m.raised && OffsetWaits(l, p, o, t0)
    requires forall q | q in l.s.pending :: Get(l.s.committed, q) <= l.s.pending[q]
    ensures OffsetWaits(m, p, o, t0)
    ensures 2.0 <= tick.now - t0 ==> o < Get(m.s.committed, p)
  {
    assert Get(m.s.committed, p) == (if p in l.s.pending then l.s.pending[p] + 1 else Get(l.s.committed, p))
           || m.s.committed == l.s.committed;
  }

  lemma TurnKeepsOffsetWaiting(log: Log, l: Loop, tick: Tick, interval: real, p: nat, o: nat, t0: real)
    requires ReachesTimers(log, l, tick) && !TurnOf(log, l, tick, interval).raised
    requires l.s.running && Inv(log, l.s) && OffsetWaits(l, p, o, t0)
    ensures OffsetWaits(TurnOf(log, l, tick, interval), p, o, t0)
    ensures 2.0 <= tick.now - t0 ==> o < Get(TurnOf(log, l, tick, interval).s.committed, p)
  {
    ReceivedKeepsInv(log, l, tick);
    ReceivedKeepsOffsetWaiting(log, l, tick, p, o, t0);
    TurnCommitsIffDue(log, l, tick, interval);
    CommitReaches(l.(s := Received(log, l, tick)), TurnOf(log, l, tick, interval), tick, p, o, t0);
  }

  /** A turn that does not raise got as far as its timers. */
  lemma QuietTurnReachesTimers(log: Log, l: Loop, tick: Tick, interval: real)
    requires !l.raised && !TurnOf(log, l, tick, interval).raised
    ensures ReachesTimers(log, l, tick)
  {
  }

  lemma {:induction false} OffsetArrives(log: Log, l: Loop, script: seq<Tick>, interval: real, p: nat, o: nat, t0: real)
    requires !l.raised && script != [] && !LoopOf(log, l, script, interval).raised && l.s.running && Inv(log, l.s)
    requires OffsetWaits(l, p, o, t0) && 2.0 <= script[|script| - 1].now - t0
    ensures o < Get(LoopOf(log, l, script, interval).s.committed, p)
    decreases |script|
  {
    var m := TurnOf(log, l, script[0], interval);
    assert LoopOf(log, l, script, interval) == LoopOf(log, m, script[1..], interval);
    QuietTurnReachesTimers(log, l, script[0], interval);
    TurnKeepsOffsetWaiting(log, l, script[0], interval, p, o, t0);
    if |script| > 1 {
      TurnKeepsInv(log, l, script[0], interval);
      OffsetArrives(log, m, script[1..], interval, p, o, t0);
    }
  }

  /** No noted offset waits longer than two seconds: it is committed after the first turn that comes two seconds
      after `t0`, or before, unless a commit or a flush raises and ends the loop. */
  lemma NoOffsetWaitsLonger(log: Log, l: Loop, script: seq<Tick>, interval: real, p: nat, t0: real)
    requires !l.raised && script != [] && !LoopOf(log, l, script, interval).raised && l.s.running && Inv(log, l.s)
    requires p in l.s.pending && l.commitStarted <= t0 && 2.0 <= script[|script| - 1].now - t0
    ensures l.s.pending[p] < Get(LoopOf(log, l, script, interval).s.committed, p)
  {
    OffsetArrives(log, l, script, interval, p, l.s.pending[p], t0);
  }

  // ---------------------------------------------------------------- the stop

  /** A stop with an answering broker commits every noted offset, uploads every row in memory whose upload
      succeeds, and so loses nothing when all do; with a broker that does not answer it commits nothing. */
  lemma ClosingSavesEverything(log: Log, s: State, stored: set<Pos>)
    requires s.running && Inv(log, s)
    ensures var t := Drained(s, true, stored);
            && !t.running && t.buffer == {} && t.applied == s.applied
            && (forall p: nat :: Get(t.committed, p) == if p in s.pending then s.pending[p] + 1
                else Get(s.committed, p))
            && (forall at | at in s.buffer && at in stored :: at in t.lake) && s.lake <= t.lake
            && (s.buffer <= stored ==> t.gone == s.gone)
    ensures var t := Drained(s, false, stored);
            && t.committed == s.committed
            && (forall at | at in s.buffer && at in stored :: at in t.lake) && s.lake <= t.lake
  {
  }

  // ---------------------------------------------------------------- a whole process

  /** The process is offered the next message of the partition, and nothing fails. */
  predicate CleanTick(tick: Tick, p: nat) {
    tick.received == Message(p) && tick.redisOk && tick.commitOk && !tick.escapes
  }

  /** Everything of the partition from offset `c` to the position is applied, in the lake or in memory, and
      committed or noted. */
  ghost predicate Clean(log: Log, l: Loop, p: nat, c: nat) {
    && p < |log| && !l.raised && !l.escaped && l.s.running && Inv(log, l.s)
    && c <= Get(l.s.position, p) <= |log[p]|
    && (Get(l.s.committed, p) ==
        Get(l.s.position, p) || (p in l.s.pending && l.s.pending[p] + 1 == Get(l.s.position, p)))
    && forall o: nat | c <= o < Get(l.s.position, p) && log[p][o] == Valid ::
         Pos(p, o) in l.s.applied && (Pos(p, o) in l.s.lake || Pos(p, o) in l.s.buffer)
  }

  lemma ReceivedIsClean(log: Log, l: Loop, tick: Tick, p: nat, c: nat)
    requires Clean(log, l, p, c) && CleanTick(tick, p)
    requires Get(l.s.position, p) < |log[p]| && log[p][Get(l.s.position, p)] != Strange
    ensures ReachesTimers(log, l, tick)
    ensures var t := Received(log, l, tick);
            && Get(t.position, p) == Get(l.s.position, p) + 1 && Clean(log, l.(s := t), p, c)
            && p in t.pending && t.pending[p] + 1 == Get(t.position, p)
  {
    HandlingOneMessage(log, l.s, p, true);
    ReceivedKeepsInv(log, l, tick);
    var t := Received(log, l, tick);
    assert t == Handle(log, l.s, p, true);
    assert p in l.s.pending ==> l.s.pending[p] < Get(l.s.position, p);
  }

  lemma TimersKeepClean(log: Log, l: Loop, tick: Tick, interval: real, p: nat, c: nat)
    requires Clean(log, l, p, c) && CleanTick(tick, p) && p in l.s.pending && l.s.pending[p] + 1 == Get(l.s.position, p)
    ensures var m := TimersOf(l, tick, interval);
            && !m.raised && !m.escaped && Get(m.s.position, p) == Get(l.s.position, p)
            && (Get(m.s.committed, p) ==
                Get(m.s.position, p) || (p in m.s.pending && m.s.pending[p] + 1 == Get(m.s.position, p)))
            && forall o: nat | c <= o < Get(m.s.position, p) && log[p][o] == Valid ::
                 Pos(p, o) in m.s.applied && (Pos(p, o) in m.s.lake || Pos(p, o) in m.s.buffer)
  {
    CommitTimerCommits(l, tick);
    FlushLeavesOffsets(l, tick, interval);
    TimersLeaveProgress(l, tick, interval);
    CleanTimersDoNotRaise(l, tick, interval);
    TimersUpload(l, tick, interval);
    CommitTimerCases(l, tick);
  }

  lemma CleanTimersDoNotRaise(l: Loop, tick: Tick, interval: real)
    requires !l.raised && !l.escaped && tick.commitOk && !tick.escapes
    ensures !TimersOf(l, tick, interval).raised && !TimersOf(l, tick, interval).escaped
  {
  }

  lemma CommitTimerCases(l: Loop, tick: Tick)
    requires tick.commitOk
    ensures var m := CommitTimer(l, tick);
            || (m.s.committed == l.s.committed && m.s.pending == l.s.pending)
            || (m.s.pending == map[] && forall p | p in l.s.pending :: Get(m.s.committed, p) == l.s.pending[p] + 1)
  {
  }

  lemma TurnKeepsClean(log: Log, l: Loop, tick: Tick, interval: real, p: nat, c: nat)
    requires Clean(log, l, p, c) && CleanTick(tick, p)
    requires Get(l.s.position, p) < |log[p]| && log[p][Get(l.s.position, p)] != Strange
    ensures var m := TurnOf(log, l, tick, interval);
            Clean(log, m, p, c) && Get(m.s.position, p) == Get(l.s.position, p) + 1
  {
    ReceivedIsClean(log, l, tick, p, c);
    TurnIsTimers(log, l, tick, interval);
    TimersKeepClean(log, l.(s := Received(log, l, tick)), tick, interval, p, c);
    TurnKeepsInv(log, l, tick, interval);
  }

  lemma {:induction false} LoopStaysClean(log: Log, l: Loop, script: seq<Tick>, interval: real, p: nat, c: nat)
    requires Clean(log, l, p, c) && (forall tick | tick in script :: CleanTick(tick, p))
    requires Get(l.s.position, p) + |script| <= |log[p]| && forall o: nat | o < |log[p]| :: log[p][o] != Strange
    ensures var m := LoopOf(log, l, script, interval);
            Clean(log, m, p, c) && Get(m.s.position, p) == Get(l.s.position, p) + |script|
    decreases |script|
  {
    if script != [] {
      TurnKeepsClean(log, l, script[0], interval, p, c);
      assert forall tick | tick in script[1..] :: tick in script;
      LoopStaysClean(log, TurnOf(log, l, script[0], interval), script[1..], interval, p, c);
    }
  }

  /** A whole process, when nothing fails: each of the messages it is offered is applied to Redis if it is valid, is
      in the lake when the process has stopped, and is committed; and the next process goes on after the last. */
  lemma CleanProcessHandlesAll(log: Log, s: State, now: real, script: seq<Tick>, interval: real, stored: set<Pos>,
                               p: nat)
    requires !s.running && Inv(log, s) && p < |log| && (forall tick | tick in script :: CleanTick(tick, p))
    requires Get(s.committed, p) + |script| <= |log[p]| && forall o: nat | o < |log[p]| :: log[p][o] != Strange
    requires forall o: nat | o < |log[p]| :: Pos(p, o) in stored
    ensures var t, c := ConsumerRun(log, s, now, script, interval, true, stored), Get(s.committed, p);
            && Get(t.committed, p) == c + |script|
            && forall o: nat | c <= o < c + |script| && log[p][o] == Valid ::
                Pos(p, o) in t.applied && Pos(p, o) in t.lake
  {
    var l := Loop(Do(log, s, Restart), now, now, false, false);
    InvStep(log, s, Restart);
    LoopStaysClean(log, l, script, interval, p, Get(s.committed, p));
    var m := LoopOf(log, l, script, interval);
    ClosingSavesEverything(log, m.s, stored);
    assert p in m.s.pending ==> Get(m.s.committed, p) <= m.s.pending[p] < Get(m.s.position, p);
  }
}
