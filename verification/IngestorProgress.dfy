/** How long the ingestor makes a message wait, and what each flush achieves
    (services/ingestor/app/consumers.py). */
module IngestorProgress {
  import opened Options
  import opened Offsets
  import opened Ingestor
  import opened IngestorLoop

  /** Everything read is committed and nothing is buffered. */
  predicate Settles(s: State) {
    s.batch == [] && s.pending == map[]
  }

  ghost predicate AllCommitted(s: State) {
    forall p: nat :: Get(s.committed, p) == Get(s.position, p)
  }

  lemma {:induction false} DeadLetteredHas(s: State, dlqOk: Pos -> bool, k: nat)
    requires k <= |s.batch|
    ensures var t := DeadLettered(s, dlqOk, k);
            && t.table == s.table
            && (forall b :: b in t.dlq <==> b in s.dlq || (b in s.batch[..k] && dlqOk(b)))
            && (forall b :: b in t.lost <==> b in s.lost || (b in s.batch[..k] && !dlqOk(b)))
  {
  }

  /** A flush puts every buffered message into the table, or, when the insert fails, leaves the table alone and
      offers every one to the DLQ; if the commit goes through, everything read is committed. */
  lemma FlushSettles(topic: Topic, log: Log, s: State, insertOk: bool, commitOk: bool, dlqOk: Pos -> bool)
    requires BatchAccepted(topic, log, s)
    ensures var t := Flushed(topic, log, s, insertOk, commitOk, dlqOk);
            && t.position == s.position
            && (insertOk ==> forall b | b in s.batch :: Stored(t.table, RowAt(topic, log, b)))
            && (insertOk ==> t.dlq == s.dlq && t.lost == s.lost)
            && (!insertOk ==> t.table == s.table)
            && (!insertOk ==> forall b :: b in t.dlq <==> b in s.dlq || (b in s.batch && dlqOk(b)))
            && (!insertOk ==> forall b :: b in t.lost <==> b in s.lost || (b in s.batch && !dlqOk(b)))
            && (commitOk ==> Settles(t))
            && (commitOk && PendingOk(s) ==> AllCommitted(t))
            && (!commitOk ==> t.committed == s.committed && t.batch == s.batch && t.pending == s.pending)
  {
    var rows := RowsAt(topic, log, s.batch);
    InsertAllStores(s.table, rows);
    forall b | b in s.batch && insertOk
      ensures Stored(Flushed(topic, log, s, insertOk, commitOk, dlqOk).table, RowAt(topic, log, b))
    {
      var i :| 0 <= i < |s.batch| && s.batch[i] == b;
      assert rows[i] == RowAt(topic, log, b);
    }
    DeadLetteredHas(s, dlqOk, |s.batch|);
    assert s.batch[..|s.batch|] == s.batch;
    if s.batch == [] { assert rows == []; }
  }

  /** What a turn does before it looks at its timer. */
  function Routed(topic: Topic, log: Log, l: Loop, tick: Tick, dlqOk: Pos -> bool): State
    requires AtHead(topic, log, l) && !l.raised
    requires !(Delivers(log, l.s, tick.received) && VerdictAt(topic, log, Next(l.s, tick.received.partition)).Raise?)
  {
    if Delivers(log, l.s, tick.received)
    then Do(topic, log, l.s, Poll(tick.received.partition, dlqOk(Next(l.s, tick.received.partition))))
    else Do(topic, log, l.s, PollNothing)
  }

  ghost predicate Running(topic: Topic, log: Log, l: Loop) {
    AtHead(topic, log, l) && !l.raised && Inv(topic, log, l.s)
  }

  lemma RoutedIsCovered(topic: Topic, log: Log, l: Loop, tick: Tick, dlqOk: Pos -> bool)
    requires Running(topic, log, l)
    requires !(Delivers(log, l.s, tick.received) && VerdictAt(topic, log, Next(l.s, tick.received.partition)).Raise?)
    ensures var t := Routed(topic, log, l, tick, dlqOk);
            PendingOk(t) && BatchAccepted(topic, log, t) && |t.batch| <= |l.s.batch| + 1
            && t.committed == l.s.committed && (t.pending == map[] ==> t.batch == [])
            && forall p: nat :: Get(l.s.position, p) <= Get(t.position, p)
  {
    var ev := if Delivers(log, l.s, tick.received)
              then Poll(tick.received.partition, dlqOk(Next(l.s, tick.received.partition))) else PollNothing;
    InvStep(topic, log, l.s, ev);
    var t := Do(topic, log, l.s, ev);
    if t.batch != [] {
      assert t.batch[0] in t.batch && Uncommitted(t, t.batch[0]);
    }
  }

  /** A turn that does not raise flushes exactly when 500 messages are buffered or two seconds have passed since
      the last flush: then everything read is committed, nothing is buffered and the timer starts anew if
      there was anything; otherwise nothing is committed and the timer runs on. */
  lemma TurnFlushesIffDue(topic: Topic, log: Log, l: Loop, tick: Tick, dlqOk: Pos -> bool)
    requires Running(topic, log, l) && !TurnOf(topic, log, l, tick, dlqOk).raised
    ensures var m, t := TurnOf(topic, log, l, tick, dlqOk), Routed(topic, log, l, tick, dlqOk);
            && m.s.position == t.position
            && (500 <= |t.batch| || 2.0 <= tick.now - l.started ==>
                  && Settles(m.s) && AllCommitted(m.s)
                  && m.started == (if t.pending == map[] then l.started else tick.now))
            && (|t.batch| < 500 && tick.now - l.started < 2.0 ==>
                  && m.s.committed == l.s.committed && m.s.batch == t.batch
                  && m.s.table == t.table && m.started == l.started)
  {
    RoutedIsCovered(topic, log, l, tick, dlqOk);
    var t := Routed(topic, log, l, tick, dlqOk);
    FlushSettles(topic, log, t, tick.insertOk, tick.commitOk, dlqOk);
  }

  /** A turn that receives a message takes it: the position moves past it. */
  lemma TurnTakesTheMessage(topic: Topic, log: Log, l: Loop, tick: Tick, dlqOk: Pos -> bool, p: nat)
    requires Running(topic, log, l) && !TurnOf(topic, log, l, tick, dlqOk).raised && tick.received == Message(p)
    requires p < |log| && Get(l.s.position, p) < |log[p]|
    ensures Get(TurnOf(topic, log, l, tick, dlqOk).s.position, p) == Get(l.s.position, p) + 1
  {
    TurnFlushesIffDue(topic, log, l, tick, dlqOk);
  }

  lemma TurnKeepsRunning(topic: Topic, log: Log, l: Loop, tick: Tick, dlqOk: Pos -> bool)
    requires Running(topic, log, l) && !TurnOf(topic, log, l, tick, dlqOk).raised
    ensures Running(topic, log, TurnOf(topic, log, l, tick, dlqOk))
  {
    var evs := TurnChain(topic, log, l, tick, dlqOk);
    InvAlongChain(topic, log, l.s, evs);
  }

  /** What was read by time `t0` is committed, or the timer was started by then. */
  ghost predicate Waiting(l: Loop, goal: map<nat, nat>, t0: real) {
    || (forall p | p in goal :: goal[p] <= Get(l.s.committed, p))
    || (l.started <= t0 && forall p | p in goal :: goal[p] <= Get(l.s.position, p))
  }

  lemma TurnKeepsWaiting(topic: Topic, log: Log, l: Loop, tick: Tick, dlqOk: Pos -> bool, goal: map<nat, nat>, t0: real)
    requires Running(topic, log, l) && !TurnOf(topic, log, l, tick, dlqOk).raised && Waiting(l, goal, t0)
    ensures Waiting(TurnOf(topic, log, l, tick, dlqOk), goal, t0)
    ensures 2.0 <= tick.now - t0 ==>
            forall p | p in goal :: goal[p] <= Get(TurnOf(topic, log, l, tick, dlqOk).s.committed, p)
  {
    RoutedIsCovered(topic, log, l, tick, dlqOk);
    TurnFlushesIffDue(topic, log, l, tick, dlqOk);
    assert PendingOk(l.s);
  }

  lemma {:induction false} GoalReached(topic: Topic, log: Log, l: Loop, script: seq<Tick>, dlqOk: Pos -> bool,
                                       goal: map<nat, nat>, t0: real)
    requires Running(topic, log, l) && script != [] && !LoopOf(topic, log, l, script, dlqOk).raised
    requires Waiting(l, goal, t0) && 2.0 <= script[|script| - 1].now - t0
    ensures forall p | p in goal :: goal[p] <= Get(LoopOf(topic, log, l, script, dlqOk).s.committed, p)
    decreases |script|
  {
    var m := TurnOf(topic, log, l, script[0], dlqOk);
    assert LoopOf(topic, log, l, script, dlqOk) == LoopOf(topic, log, m, script[1..], dlqOk);
    TurnKeepsWaiting(topic, log, l, script[0], dlqOk, goal, t0);
    if |script| > 1 {
      TurnKeepsRunning(topic, log, l, script[0], dlqOk);
      GoalReached(topic, log, m, script[1..], dlqOk, goal, t0);
    }
  }

  /** No message waits longer than two seconds for its flush, however few there are: what has been read when the
      timer stands at `t0` or before is committed by the first turn, or an earlier one, that comes two seconds
      after `t0`, as long as the broker takes the commits. */
  lemma NoMessageWaitsLonger(topic: Topic, log: Log, l: Loop, script: seq<Tick>, dlqOk: Pos -> bool, t0: real, p: nat)
    requires Running(topic, log, l) && script != [] && !LoopOf(topic, log, l, script, dlqOk).raised
    requires l.started <= t0 && 2.0 <= script[|script| - 1].now - t0
    ensures Get(l.s.position, p) <= Get(LoopOf(topic, log, l, script, dlqOk).s.committed, p)
  {
    GoalReached(topic, log, l, script, dlqOk, map[p := Get(l.s.position, p)], t0);
  }

  /** And a normal stop leaves nothing behind: what is buffered goes into the table, or to the DLQ if the insert
      fails, and everything read is committed if the commit goes through. */
  lemma ClosingSettles(topic: Topic, log: Log, s: State, last: Tick, dlqOk: Pos -> bool, p: nat)
    requires Inv(topic, log, s) && s.phase == Polling
    ensures var t := Closed(topic, log, s, last, dlqOk);
            && Get(t.committed, p) == Get(if last.commitOk then s.position else s.committed, p)
            && (last.insertOk ==> t.dlq == s.dlq && t.lost == s.lost)
            && (last.insertOk ==> forall b | b in s.batch :: Stored(t.table, RowAt(topic, log, b)))
            && (!last.insertOk ==> t.table == s.table)
            && (!last.insertOk ==> forall b | b in s.batch :: if dlqOk(b) then b in t.dlq else b in t.lost)
  {
    FlushSettles(topic, log, s, last.insertOk, last.commitOk, dlqOk);
    assert PendingOk(s);
    if s.pending == map[] { NothingPendingNothingBuffered(topic, log, s); }
  }

  lemma NothingPendingNothingBuffered(topic: Topic, log: Log, s: State)
    requires Inv(topic, log, s) && s.phase == Polling && s.pending == map[]
    ensures s.batch == []
  {
    FirstIsIn(s.batch);
  }

  lemma FirstIsIn(batch: seq<Pos>)
    ensures batch != [] ==> batch[0] in batch
  {
  }

  // ---------------------------------------------------------------- a whole process

  predicate CleanTick(tick: Tick, p: nat) {
    tick.received == Message(p) && tick.insertOk && tick.commitOk
  }

  lemma CleanTurn(topic: Topic, log: Log, l: Loop, tick: Tick, dlqOk: Pos -> bool, p: nat)
    requires Running(topic, log, l) && CleanTick(tick, p)
    requires p < |log| && Get(l.s.position, p) < |log[p]| && !log[p][Get(l.s.position, p)].Strange?
    ensures var m := TurnOf(topic, log, l, tick, dlqOk);
            Running(topic, log, m) && Get(m.s.position, p) == Get(l.s.position, p) + 1
  {
    ValidationIsByKeys(topic, log[p][Get(l.s.position, p)]);
    assert !TurnOf(topic, log, l, tick, dlqOk).raised;
    TurnKeepsRunning(topic, log, l, tick, dlqOk);
    TurnTakesTheMessage(topic, log, l, tick, dlqOk, p);
  }

  lemma {:induction false} CleanLoop(topic: Topic, log: Log, l: Loop, script: seq<Tick>, dlqOk: Pos -> bool, p: nat)
    requires Running(topic, log, l) && p < |log| && (forall tick | tick in script :: CleanTick(tick, p))
    requires Get(l.s.position, p) + |script| <= |log[p]| && forall o: nat | o < |log[p]| :: !log[p][o].Strange?
    ensures var m := LoopOf(topic, log, l, script, dlqOk);
            Running(topic, log, m) && Get(m.s.position, p) == Get(l.s.position, p) + |script|
    decreases |script|
  {
    if script != [] {
      CleanTurn(topic, log, l, script[0], dlqOk, p);
      assert forall tick | tick in script[1..] :: tick in script;
      CleanLoop(topic, log, TurnOf(topic, log, l, script[0], dlqOk), script[1..], dlqOk, p);
    }
  }

  /** A whole process, when nothing fails: every message it is offered is committed, and is in the table or the DLQ
      when the process has stopped; the next process goes on after the last. */
  lemma CleanProcessHandlesAll(topic: Topic, log: Log, s: State, started: real, script: seq<Tick>, last: Tick,
                               dlqOk: Pos -> bool, p: nat, o: nat)
    requires Inv(topic, log, s) && s.phase == Down && p < |log| && last.commitOk
    requires (forall tick | tick in script :: CleanTick(tick, p)) && forall i: nat | i < |log[p]| :: !log[p][i].Strange?
    requires Get(s.committed, p) + |script| <= |log[p]|
    ensures var t := ConsumerRun(topic, log, s, started, script, last, dlqOk);
            && Get(t.committed, p) == Get(s.committed, p) + |script|
            && (o < Get(s.committed, p) + |script| ==> Settled(topic, log, t, Pos(p, o)))
  {
    var l := Loop(Do(topic, log, s, Restart), started, false);
    InvStep(topic, log, s, Restart);
    CleanLoop(topic, log, l, script, dlqOk, p);
    ClosingSettles(topic, log, LoopOf(topic, log, l, script, dlqOk).s, last, dlqOk, p);
    ConsumerRunIsSafe(topic, log, s, started, script, last, dlqOk);
  }
}
