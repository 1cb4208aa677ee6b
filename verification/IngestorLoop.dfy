/** The consumer thread itself, as the loop the ingestor runs, and the offset replay tool.

    The class is proved to compute `ConsumerRun`, and `ConsumerRun` is proved to be a run of the machine in
    `Ingestor`, so everything proved there about all runs holds of the loop. */
module IngestorLoop {
  import opened Options
  import opened Offsets
  import opened Ingestor

  /** What one poll returned. */
  datatype Received = Nothing | ErrorFrame | Message(partition: nat)

  /** One turn of the loop: what was polled, the clock, and how the database and the broker answer. */
  datatype Tick = Tick(received: Received, now: real, insertOk: bool, commitOk: bool)

  function Refused(batch: seq<Pos>, dlqOk: Pos -> bool): set<Pos> {
    set b | b in batch && !dlqOk(b)
  }

  function Produced(batch: seq<Pos>, dlqOk: Pos -> bool): set<Pos> {
    set b | b in batch && dlqOk(b)
  }

  /** The first `k` items of the batch have been offered to the DLQ. */
  function DeadLettered(s: State, dlqOk: Pos -> bool, k: nat): State
    requires k <= |s.batch|
  {
    s.(phase := DeadLettering(k), dlq := s.dlq + Produced(s.batch[..k], dlqOk),
       lost := s.lost + Refused(s.batch[..k], dlqOk), dbFailed := true)
  }

  lemma OneMoreDeadLettered(s: State, dlqOk: Pos -> bool, k: nat)
    requires k < |s.batch|
    ensures var t := DeadLettered(s, dlqOk, k);
            DeadLettered(s, dlqOk, k + 1) == ToDlq(t, s.batch[k], dlqOk(s.batch[k])).(phase := DeadLettering(k + 1))
  {
    assert s.batch[..k + 1] == s.batch[..k] + [s.batch[k]];
  }

  /** A flush: the batch is stored, or all of it is offered to the DLQ; then the offsets are committed and
      the buffers emptied, unless the commit fails, which leaves both as they were. */
  function Flushed(topic: Topic, log: Log, s: State, insertOk: bool, commitOk: bool, dlqOk: Pos -> bool): State
    requires BatchAccepted(topic, log, s)
  {
    var stored :=
      if insertOk || s.batch == [] then
        s.(table := InsertAll(s.table, RowsAt(topic, log, s.batch)),
           firstInserts := NewPositions(s.firstInserts, s.batch))
      else DeadLettered(s, dlqOk, |s.batch|);
    if commitOk then
      stored.(phase := Polling, committed := CommitOffsets(s.committed, s.pending), batch := [], pending := map[])
    else stored.(phase := Deciding)
  }

  /** The loop's variables.  `raised` is set when an exception leaves the loop. */
  datatype Loop = Loop(s: State, started: real, raised: bool)

  predicate AtHead(topic: Topic, log: Log, l: Loop) {
    BatchAccepted(topic, log, l.s) && (!l.raised ==> l.s.phase == Polling)
  }

  predicate FlushDue(s: State, now: real, started: real) {
    s.pending != map[] && (|s.batch| >= BATCH_SIZE || now - started >= BATCH_TIMEOUT)
  }

  predicate Delivers(log: Log, s: State, r: Received) {
    r.Message? && InLog(log, Next(s, r.partition))
  }

  function TurnOf(topic: Topic, log: Log, l: Loop, tick: Tick, dlqOk: Pos -> bool): (m: Loop)
    requires AtHead(topic, log, l) && !l.raised
    ensures AtHead(topic, log, m)
  {
    if Delivers(log, l.s, tick.received) && VerdictAt(topic, log, Next(l.s, tick.received.partition)).Raise? then
      l.(raised := true)
    else
      var t := if Delivers(log, l.s, tick.received)
               then Do(topic, log, l.s, Poll(tick.received.partition, dlqOk(Next(l.s, tick.received.partition))))
               else Do(topic, log, l.s, PollNothing);
      if FlushDue(t, tick.now, l.started)
      then Loop(Flushed(topic, log, t, tick.insertOk, tick.commitOk, dlqOk),
                if tick.commitOk then tick.now else l.started, !tick.commitOk)
      else Loop(t.(phase := Polling), l.started, false)
  }

  function LoopOf(topic: Topic, log: Log, l: Loop, script: seq<Tick>, dlqOk: Pos -> bool): (m: Loop)
    requires AtHead(topic, log, l)
    ensures AtHead(topic, log, m)
    decreases |script|
  {
    if script == [] || l.raised then l
    else LoopOf(topic, log, TurnOf(topic, log, l, script[0], dlqOk), script[1..], dlqOk)
  }

  lemma LoopUnrolls(topic: Topic, log: Log, l: Loop, script: seq<Tick>, i: nat, dlqOk: Pos -> bool)
    requires AtHead(topic, log, l) && !l.raised && i < |script|
    ensures LoopOf(topic, log, l, script[i..], dlqOk)
            == LoopOf(topic, log, TurnOf(topic, log, l, script[i], dlqOk), script[i + 1..], dlqOk)
  {
    assert script[i..][0] == script[i] && script[i..][1..] == script[i + 1..];
  }

  /** The `finally` block: one more flush if offsets are noted, whatever comes of it, then the end. */
  function Closed(topic: Topic, log: Log, s: State, last: Tick, dlqOk: Pos -> bool): State
    requires BatchAccepted(topic, log, s)
  {
    Stop(if s.pending != map[] then Flushed(topic, log, s, last.insertOk, last.commitOk, dlqOk) else s)
  }

  function ConsumerRun(topic: Topic, log: Log, s: State, started: real, script: seq<Tick>, last: Tick,
                       dlqOk: Pos -> bool): State
    requires s.phase == Down && s.batch == []
  {
    var l := LoopOf(topic, log, Loop(Do(topic, log, s, Restart), started, false), script, dlqOk);
    Closed(topic, log, l.s, last, dlqOk)
  }

  class Consumer {
    const topic: Topic
    const log: Log

    // Outside the process: group offsets, raw table, DLQ topic.
    var committed: map<nat, nat>
    var table: seq<Row>
    var dlq: set<Pos>
    var lost: set<Pos>

    // In the process.
    var position: map<nat, nat>
    var batch: seq<Pos>
    var pending: map<nat, nat>
    var batchStarted: real

    // The program counter and the machine's history variables.
    ghost var phase: Phase
    ghost var firstInserts: seq<Pos>
    ghost var dbFailed: bool

    ghost function Now(): State
      reads this
    {
      State(committed, table, dlq, lost, phase, position, batch, pending, firstInserts, dbFailed)
    }

    constructor (topic: Topic, log: Log)
      ensures Now() == INIT && this.topic == topic && this.log == log
    {
      this.topic, this.log := topic, log;
      committed, table, dlq, lost := map[], [], {}, {};
      position, batch, pending, batchStarted := map[], [], map[], 0.0;
      phase, firstInserts, dbFailed := Down, [], false;
    }

    method SendToDlq(at: Pos, ok: bool)
      modifies `dlq, `lost
      ensures Now() == old(ToDlq(Now(), at, ok))
    {
      if ok { dlq := dlq + {at}; } else { lost := lost + {at}; }
    }

    /** Unwrap, validate and route one message, then note its offset.  A body that makes the code raise
        leaves everything as it was. */
    method HandleMessage(p: nat, dlqOk: Pos -> bool) returns (raised: bool)
      requires phase == Polling && InLog(log, Next(Now(), p))
      modifies this
      ensures raised <==> VerdictAt(topic, log, old(Next(Now(), p))).Raise?
      ensures raised ==> Now() == old(Now())
      ensures !raised ==> Now() == old(Do(topic, log, Now(), Poll(p, dlqOk(Next(Now(), p)))))
      ensures batchStarted == old(batchStarted)
      ensures var at := old(Next(Now(), p)); var body := log[p][at.offset];
              && (raised <==> body.Strange?)
              && batch == (if WellFormed(topic, body) then old(batch) + [at] else old(batch))
              && (!WellFormed(topic, body) && !raised && dlqOk(at) ==> dlq == old(dlq) + {at} && lost == old(lost))
              && (!WellFormed(topic, body) && !raised && !dlqOk(at) ==> lost == old(lost) + {at} && dlq == old(dlq))
              && (WellFormed(topic, body) ==> dlq == old(dlq) && lost == old(lost))
              && (!raised ==> Get(position, p) == at.offset + 1 && p in pending && at.offset <= pending[p])
    {
      var offset := Get(position, p);
      var at := Pos(p, offset);
      ValidationIsByKeys(topic, log[p][offset]);
      var verdict := Validate(topic, log[p][offset]);
      if verdict.Raise? {
        return true;
      }
      raised := false;
      if verdict.Accept? {
        batch := batch + [at];
      } else {
        SendToDlq(at, dlqOk(at));
      }
      pending := UpdateMax(pending, p, offset);
      position := position[p := offset + 1];
      phase := Deciding;
    }

    /** Offer every item of a batch whose insert failed to the DLQ. */
    method DeadLetterBatch(dlqOk: Pos -> bool)
      modifies `phase, `dlq, `lost, `dbFailed
      ensures Now() == old(DeadLettered(Now(), dlqOk, |batch|))
    {
      ghost var before := Now();
      dbFailed := true;
      phase := DeadLettering(0);
      var i := 0;
      while i < |batch|
        invariant 0 <= i <= |batch|
        invariant Now() == DeadLettered(before, dlqOk, i)
      {
        OneMoreDeadLettered(before, dlqOk, i);
        SendToDlq(batch[i], dlqOk(batch[i]));
        phase := DeadLettering(i + 1);
        i := i + 1;
      }
    }

    /** Insert or dead-letter the batch, then commit the noted offsets and start new buffers.  When the commit
        fails an exception leaves the method, and the buffers stay. */
    method FlushBatch(insertOk: bool, commitOk: bool, dlqOk: Pos -> bool)
      requires BatchAccepted(topic, log, Now())
      modifies this
      ensures Now() == old(Flushed(topic, log, Now(), insertOk, commitOk, dlqOk))
      ensures batchStarted == old(batchStarted)
    {
      if batch == [] || insertOk {
        table := InsertAll(table, RowsAt(topic, log, batch));
        firstInserts := NewPositions(firstInserts, batch);
      } else {
        DeadLetterBatch(dlqOk);
      }
      if commitOk {
        committed := CommitOffsets(committed, pending);
        batch, pending := [], map[];
        phase := Polling;
      } else {
        phase := Deciding;
      }
    }

    /** One turn of the loop. */
    method Turn(tick: Tick, dlqOk: Pos -> bool) returns (raised: bool)
      requires phase == Polling && BatchAccepted(topic, log, Now())
      modifies this
      ensures Loop(Now(), batchStarted, raised)
              == TurnOf(topic, log, old(Loop(Now(), batchStarted, false)), tick, dlqOk)
    {
      if tick.received.Message? && InLog(log, Pos(tick.received.partition, Get(position, tick.received.partition))) {
        raised := HandleMessage(tick.received.partition, dlqOk);
        if raised {
          return;
        }
      }
      phase := Deciding;
      if pending != map[] && (|batch| >= BATCH_SIZE || tick.now - batchStarted >= BATCH_TIMEOUT) {
        FlushBatch(tick.insertOk, tick.commitOk, dlqOk);
        if tick.commitOk {
          batchStarted := tick.now;
        }
        return !tick.commitOk;
      }
      phase := Polling;
      return false;
    }

    method RunLoop(script: seq<Tick>, dlqOk: Pos -> bool) returns (raised: bool)
      requires phase == Polling && BatchAccepted(topic, log, Now())
      modifies this
      ensures Loop(Now(), batchStarted, raised)
              == LoopOf(topic, log, old(Loop(Now(), batchStarted, false)), script, dlqOk)
    {
      var i := 0;
      raised := false;
      ghost var start := Loop(Now(), batchStarted, false);
      while i < |script| && !raised
        invariant 0 <= i <= |script|
        invariant AtHead(topic, log, Loop(Now(), batchStarted, raised))
        invariant LoopOf(topic, log, Loop(Now(), batchStarted, raised), script[i..], dlqOk)
                  == LoopOf(topic, log, start, script, dlqOk)
        decreases |script| - i
      {
        LoopUnrolls(topic, log, Loop(Now(), batchStarted, false), script, i, dlqOk);
        raised := Turn(script[i], dlqOk);
        i := i + 1;
      }
    }

    /** A process from start to stop. */
    method ConsumerLoop(started: real, script: seq<Tick>, last: Tick, dlqOk: Pos -> bool)
      requires phase == Down && batch == []
      modifies this
      ensures Now() == ConsumerRun(topic, log, old(Now()), started, script, last, dlqOk)
    {
      position := committed;
      batchStarted := started;
      phase := Polling;
      var raised := RunLoop(script, dlqOk);
      Close(last, dlqOk);
    }

    /** Stopping: flush what is pending, then forget everything that lives in the process. */
    method Close(last: Tick, dlqOk: Pos -> bool)
      requires BatchAccepted(topic, log, Now())
      modifies this
      ensures Now() == old(Closed(topic, log, Now(), last, dlqOk))
    {
      if pending != map[] {
        FlushBatch(last.insertOk, last.commitOk, dlqOk);
      }
      position, batch, pending := map[], [], map[];
      phase := Down;
    }
  }

  // ---------------------------------------------------------------- the loop is a run of the machine

  /** The state a list of events leads to from `s`, if each of them is possible. */
  ghost function Chain(topic: Topic, log: Log, s: State, evs: seq<Event>): Option<State>
    decreases |evs|
  {
    if evs == [] then Some(s)
    else if Enabled(topic, log, s, evs[0]) then Chain(topic, log, Do(topic, log, s, evs[0]), evs[1..])
    else None
  }

  lemma {:induction false} ChainJoin(topic: Topic, log: Log, s: State, a: seq<Event>, b: seq<Event>)
    requires Chain(topic, log, s, a).Some?
    ensures Chain(topic, log, s, a + b) == Chain(topic, log, Chain(topic, log, s, a).value, b)
    decreases |a|
  {
    if a == [] {
      assert a + b == b;
    } else {
      ChainJoin(topic, log, Do(topic, log, s, a[0]), a[1..], b);
      assert (a + b)[1..] == a[1..] + b;
    }
  }

  ghost predicate NoResets(evs: seq<Event>) {
    forall ev | ev in evs :: !ev.Reset?
  }

  lemma {:induction false} InvAlongChain(topic: Topic, log: Log, s: State, evs: seq<Event>)
    requires Inv(topic, log, s) && NoResets(evs) && Chain(topic, log, s, evs).Some?
    ensures Inv(topic, log, Chain(topic, log, s, evs).value)
    decreases |evs|
  {
    if evs != [] {
      assert evs[0] in evs;
      InvStep(topic, log, s, evs[0]);
      InvAlongChain(topic, log, Do(topic, log, s, evs[0]), evs[1..]);
    }
  }

  lemma {:induction false} DeadLetterChain(topic: Topic, log: Log, s: State, dlqOk: Pos -> bool, k: nat)
      returns (evs: seq<Event>)
    requires s.phase == Deciding && s.pending != map[] && s.batch != [] && k <= |s.batch|
    ensures NoResets(evs) && Chain(topic, log, s, evs) == Some(DeadLettered(s, dlqOk, k))
  {
    if k == 0 {
      evs := [InsertFails];
      assert Do(topic, log, s, InsertFails) == DeadLettered(s, dlqOk, 0);
      assert evs[1..] == [];
    } else {
      var before := DeadLetterChain(topic, log, s, dlqOk, k - 1);
      var last := DeadLetter(dlqOk(s.batch[k - 1]));
      evs := before + [last];
      ChainJoin(topic, log, s, before, [last]);
      NextDeadLetter(topic, log, s, dlqOk, k - 1);
    }
  }

  lemma NextDeadLetter(topic: Topic, log: Log, s: State, dlqOk: Pos -> bool, k: nat)
    requires k < |s.batch|
    ensures Chain(topic, log, DeadLettered(s, dlqOk, k), [DeadLetter(dlqOk(s.batch[k]))])
         == Some(DeadLettered(s, dlqOk, k + 1))
  {
    OneMoreDeadLettered(s, dlqOk, k);
    assert [DeadLetter(dlqOk(s.batch[k]))][1..] == [];
  }

  lemma FlushChain(topic: Topic, log: Log, s: State, insertOk: bool, commitOk: bool, dlqOk: Pos -> bool)
    returns (evs: seq<Event>)
    requires s.phase == Deciding && s.pending != map[] && BatchAccepted(topic, log, s)
    ensures NoResets(evs) && Chain(topic, log, s, evs) == Some(Flushed(topic, log, s, insertOk, commitOk, dlqOk))
  {
    var first: seq<Event>;
    if insertOk || s.batch == [] {
      first := [Insert];
      assert first[1..] == [];
    } else {
      first := DeadLetterChain(topic, log, s, dlqOk, |s.batch|);
      assert s.batch[..|s.batch|] == s.batch;
    }
    var last := if commitOk then Commit else CommitFails;
    ChainJoin(topic, log, s, first, [last]);
    assert [last][1..] == [];
    evs := first + [last];
  }

  lemma TurnChain(topic: Topic, log: Log, l: Loop, tick: Tick, dlqOk: Pos -> bool) returns (evs: seq<Event>)
    requires AtHead(topic, log, l) && !l.raised
    ensures NoResets(evs) && Chain(topic, log, l.s, evs) == Some(TurnOf(topic, log, l, tick, dlqOk).s)
  {
    if Delivers(log, l.s, tick.received) && VerdictAt(topic, log, Next(l.s, tick.received.partition)).Raise? {
      return [];
    }
    var poll := if Delivers(log, l.s, tick.received)
                then Poll(tick.received.partition, dlqOk(Next(l.s, tick.received.partition))) else PollNothing;
    var t := Do(topic, log, l.s, poll);
    assert [poll][1..] == [];
    var rest: seq<Event>;
    if FlushDue(t, tick.now, l.started) {
      rest := FlushChain(topic, log, t, tick.insertOk, tick.commitOk, dlqOk);
    } else {
      rest := [GoOn];
      assert [GoOn][1..] == [];
    }
    ChainJoin(topic, log, l.s, [poll], rest);
    evs := [poll] + rest;
  }

  lemma {:induction false} LoopChain(topic: Topic, log: Log, l: Loop, script: seq<Tick>, dlqOk: Pos -> bool)
    returns (evs: seq<Event>)
    requires AtHead(topic, log, l)
    ensures NoResets(evs) && Chain(topic, log, l.s, evs) == Some(LoopOf(topic, log, l, script, dlqOk).s)
    decreases |script|
  {
    if script == [] || l.raised {
      return [];
    }
    var first := TurnChain(topic, log, l, script[0], dlqOk);
    var rest := LoopChain(topic, log, TurnOf(topic, log, l, script[0], dlqOk), script[1..], dlqOk);
    ChainJoin(topic, log, l.s, first, rest);
    evs := first + rest;
  }

  lemma CloseChain(topic: Topic, log: Log, l: Loop, last: Tick, dlqOk: Pos -> bool) returns (evs: seq<Event>)
    requires BatchAccepted(topic, log, l.s) && (l.s.phase == Polling || l.s.phase == Deciding)
    ensures NoResets(evs) && Chain(topic, log, l.s, evs) == Some(Closed(topic, log, l.s, last, dlqOk))
  {
    assert [Crash][1..] == [] && [PollNothing][1..] == [];
    var poll := if l.s.phase == Polling then [PollNothing] else [];
    var s := l.s.(phase := Deciding);
    assert Chain(topic, log, l.s, poll) == Some(s);
    var flush := [];
    var t := s;
    if s.pending != map[] {
      flush := FlushChain(topic, log, s, last.insertOk, last.commitOk, dlqOk);
      t := Flushed(topic, log, s, last.insertOk, last.commitOk, dlqOk);
    }
    ChainJoin(topic, log, l.s, poll, flush);
    ChainJoin(topic, log, l.s, poll + flush, [Crash]);
    evs := poll + flush + [Crash];
  }

  lemma {:induction false} LoopPhase(topic: Topic, log: Log, l: Loop, script: seq<Tick>, dlqOk: Pos -> bool)
    requires AtHead(topic, log, l) && (l.s.phase == Polling || l.s.phase == Deciding)
    ensures var m := LoopOf(topic, log, l, script, dlqOk); m.s.phase == Polling || m.s.phase == Deciding
    decreases |script|
  {
    if script != [] && !l.raised {
      LoopPhase(topic, log, TurnOf(topic, log, l, script[0], dlqOk), script[1..], dlqOk);
    }
  }

  /** Every process, whatever it polls and whichever inserts, commits and DLQ produces fail, is a run of the
      machine from start to stop. */
  lemma ConsumerRunIsChain(topic: Topic, log: Log, s: State, started: real, script: seq<Tick>, last: Tick,
                           dlqOk: Pos -> bool) returns (evs: seq<Event>)
    requires s.phase == Down && s.batch == [] && s.pending == map[]
    ensures NoResets(evs)
    ensures Chain(topic, log, s, evs) == Some(ConsumerRun(topic, log, s, started, script, last, dlqOk))
  {
    var l := Loop(Do(topic, log, s, Restart), started, false);
    var m := LoopOf(topic, log, l, script, dlqOk);
    LoopPhase(topic, log, l, script, dlqOk);
    var body := LoopChain(topic, log, l, script, dlqOk);
    var close := CloseChain(topic, log, m, last, dlqOk);
    assert [Restart][1..] == [];
    ChainJoin(topic, log, s, [Restart], body);
    ChainJoin(topic, log, s, [Restart] + body, close);
    evs := [Restart] + body + close;
  }

  /** So a process that starts where nothing committed is missing leaves nothing committed missing, and
      never two rows with one event id. */
  lemma ConsumerRunIsSafe(topic: Topic, log: Log, s: State, started: real, script: seq<Tick>, last: Tick,
                          dlqOk: Pos -> bool)
    requires Inv(topic, log, s) && s.phase == Down
    ensures var t := ConsumerRun(topic, log, s, started, script, last, dlqOk);
            Safe(topic, log, t) && UniqueIds(t.table) && t.phase == Down
  {
    var evs := ConsumerRunIsChain(topic, log, s, started, script, last, dlqOk);
    InvAlongChain(topic, log, s, evs);
  }

  // ---------------------------------------------------------------- the replay tool

  /** The broker's answer to an offset-for-time query: the first offset stamped at or after `ts`. */
  function FirstAtOrAfter(stamps: seq<int>, ts: int, from: nat): (o: Option<nat>)
    requires from <= |stamps|
    ensures o.Some? ==> from <= o.value < |stamps| && stamps[o.value] >= ts
                        && forall i | from <= i < o.value :: stamps[i] < ts
    ensures o.None? ==> forall i | from <= i < |stamps| :: stamps[i] < ts
    decreases |stamps| - from
  {
    if from == |stamps| then None
    else if stamps[from] >= ts then Some(from)
    else FirstAtOrAfter(stamps, ts, from + 1)
  }

  /** Offset resolution: per partition the first message at or after `ts`, or the end if there is none. */
  method Replay(stamps: seq<seq<int>>, ts: int) returns (final: seq<nat>)
    ensures |final| == |stamps|
    ensures forall p | 0 <= p < |stamps| ::
              && final[p] <= |stamps[p]|
              && (forall i | 0 <= i < final[p] :: stamps[p][i] < ts)
              && (final[p] < |stamps[p]| ==> stamps[p][final[p]] >= ts)
  {
    final := [];
    for p := 0 to |stamps|
      invariant |final| == p
      invariant forall q | 0 <= q < p ::
                  && final[q] <= |stamps[q]|
                  && (forall i | 0 <= i < final[q] :: stamps[q][i] < ts)
                  && (final[q] < |stamps[q]| ==> stamps[q][final[q]] >= ts)
    {
      var resolved := FirstAtOrAfter(stamps[p], ts, 0);
      if resolved.None? {
        final := final + [|stamps[p]|];
      } else {
        final := final + [resolved.value];
      }
    }
  }

  function AsOffsets(final: seq<nat>): map<nat, nat> {
    map p: nat | p < |final| :: final[p]
  }

  /** Committing the resolved offsets keeps safety if and only if no message is left behind: every
      uncommitted message that is older than `ts`, with only older messages before it, is settled. */
  lemma ReplayIsSafeIff(topic: Topic, log: Log, s: State, stamps: seq<seq<int>>, ts: int, final: seq<nat>)
    requires Safe(topic, log, s) && s.phase == Down
    requires |stamps| == |log| == |final| && forall p | 0 <= p < |log| :: |stamps[p]| == |log[p]|
    requires forall p | 0 <= p < |stamps| ::
               && final[p] <= |stamps[p]|
               && (forall i | 0 <= i < final[p] :: stamps[p][i] < ts)
               && (final[p] < |stamps[p]| ==> stamps[p][final[p]] >= ts)
    ensures Safe(topic, log, Do(topic, log, s, Reset(AsOffsets(final)))) <==>
            forall at: Pos | InLog(log, at) && Get(s.committed, at.partition) <= at.offset
                             && (forall i | 0 <= i <= at.offset :: stamps[at.partition][i] < ts) ::
              Settled(topic, log, s, at)
  {
    ResetIsSafeIff(topic, log, s, AsOffsets(final));
    forall at: Pos | InLog(log, at)
      ensures at.offset < Get(AsOffsets(final), at.partition)
              <==> forall i | 0 <= i <= at.offset :: stamps[at.partition][i] < ts
    {
    }
  }
}
