/** The nightly Redis sync and its completion sentinel (services/worker/app/feature_store.py). */
module NightlySync {
  import opened Options
  import opened RouteHash
  import opened FeatureRegistry
  import opened FeatureWriters

  /** The latest mart row of a route. */
  datatype RouteRow = RouteRow(route: string, values: Row)

  type Hashes = map<string, Hash>

  function HashOf(hashes: Hashes, route: string): Hash {
    if route in hashes then hashes[route] else map[]
  }

  function HsetAt(hashes: Hashes, route: string, mapping: Hash): Hashes {
    hashes[route := Hset(HashOf(hashes, route), mapping)]
  }

  function RowWritten(hashes: Hashes, registry: seq<Feature>, row: RouteRow, stamp: int): Hashes {
    HsetAt(hashes, row.route, BatchMapping(registry, row.values, stamp))
  }

  function RowsWritten(hashes: Hashes, registry: seq<Feature>, rows: seq<RouteRow>, stamp: int): Hashes {
    if rows == [] then hashes
    else RowWritten(RowsWritten(hashes, registry, rows[..|rows| - 1], stamp), registry, rows[|rows| - 1], stamp)
  }

  // ---------------------------------------------------------------- the specification of one sync

  /** How many rows reach Redis when the connection dies after `reached` commands.  A negative batch size
      makes the range of batch starts empty. */
  function RowsReached(count: nat, batchSize: int, reached: nat): nat {
    if batchSize < 0 then 0 else if reached < count then reached else count
  }

  /** Whether the sentinel, the command after the last row, is written. */
  predicate SentinelReached(count: nat, batchSize: int, reached: nat) {
    RowsReached(count, batchSize, count) < reached
  }

  /** With a positive batch size the rows go out one command each, and the sentinel is the command after the last
      of them; with a negative one no row goes out and the sentinel is the first command. */
  lemma CommandsReached(count: nat, batchSize: int, reached: nat)
    requires 0 < count && batchSize != 0
    ensures 0 < batchSize ==> RowsReached(count, batchSize, reached) <= reached
    ensures 0 < batchSize && reached <= count ==>
              RowsReached(count, batchSize, reached) == reached && !SentinelReached(count, batchSize, reached)
    ensures 0 < batchSize && count < reached ==>
              RowsReached(count, batchSize, reached) == count && SentinelReached(count, batchSize, reached)
    ensures batchSize < 0 ==>
              RowsReached(count, batchSize, reached) == 0
                  && (SentinelReached(count, batchSize, reached) <==> 0 < reached)
  {
  }

  // ---------------------------------------------------------------- the implementation

  datatype Outcome = Skipped | Failed | Completed

  class FeatureStore {
    var hashes: Hashes
    var sentinel: Option<int>

    constructor ()
      ensures hashes == map[] && sentinel == None
    {
      hashes, sentinel := map[], None;
    }

    /** Execute a non-transactional pipeline of HSETs: it may stop after any of them. */
    method Execute(pipe: seq<(string, Hash)>, reached: nat) returns (ok: bool)
      modifies `hashes
      ensures ok <==> |pipe| <= reached
      ensures hashes == Piped(old(hashes), if ok then pipe else pipe[..reached])
    {
      var i := 0;
      while i < |pipe| && i < reached
        invariant 0 <= i <= |pipe| && i <= reached
        invariant hashes == Piped(old(hashes), pipe[..i])
      {
        assert pipe[..i + 1][..i] == pipe[..i];
        hashes := HsetAt(hashes, pipe[i].0, pipe[i].1);
        i := i + 1;
      }
      ok := i == |pipe|;
      assert ok ==> pipe[..i] == pipe;
    }

    /** Queue one batch of rows and send it. */
    method SendBatch(registry: seq<Feature>, batch: seq<RouteRow>, stamp: int, reached: nat)
        returns (ok: bool, sent: nat)
      modifies `hashes
      ensures ok <==> |batch| <= reached
      ensures sent == if ok then |batch| else reached
      ensures hashes == RowsWritten(old(hashes), registry, batch[..sent], stamp)
    {
      var pipe: seq<(string, Hash)> := [];
      for i := 0 to |batch|
        invariant hashes == old(hashes)
        invariant pipe == PipeOf(registry, batch[..i], stamp)
      {
        assert batch[..i + 1][..i] == batch[..i];
        var mapping := BuildMapping(registry, batch[i].values, stamp);
        pipe := pipe + [(batch[i].route, mapping)];
      }
      assert batch[..|batch|] == batch;
      ok := Execute(pipe, reached);
      sent := if ok then |batch| else reached;
      assert ok ==> pipe[..sent] == pipe;
      PipePrefix(registry, batch, stamp, sent);
      PipedRows(old(hashes), registry, batch[..sent], stamp);
    }

    method SyncBatches(registry: seq<Feature>, rows: seq<RouteRow>, batchSize: int, stamp: int, reached: nat)
      returns (ok: bool, done: nat)
      requires batchSize != 0
      modifies `hashes
      ensures done == RowsReached(|rows|, batchSize, reached)
      ensures ok <==> RowsReached(|rows|, batchSize, |rows|) <= reached
      ensures hashes == RowsWritten(old(hashes), registry, rows[..done], stamp)
    {
      ok, done := true, 0;
      while ok && 0 < batchSize && done < |rows|
        invariant 0 <= done <= |rows| && done <= reached
        invariant batchSize < 0 ==> done == 0 && ok
        invariant !ok ==> done == reached < |rows|
        invariant hashes == RowsWritten(old(hashes), registry, rows[..done], stamp)
        decreases |rows| - done, ok
      {
        var end := if done + batchSize < |rows| then done + batchSize else |rows|;
        var sent;
        ok, sent := SendBatch(registry, rows[done..end], stamp, reached - done);
        ExtendRows(old(hashes), registry, rows, done, end, sent, stamp);
        done := done + sent;
      }
    }

    /** One nightly sync.  `reached` is how many Redis commands get through. */
    method Sync(registry: seq<Feature>, rows: seq<RouteRow>, batchSize: int, stamp: int, reached: nat)
      returns (outcome: Outcome)
      modifies this
      ensures outcome.Skipped? <==> rows == []
      ensures outcome.Completed? <==> rows != [] && batchSize != 0 && SentinelReached(|rows|, batchSize, reached)
      ensures sentinel == if outcome.Completed? then Some(stamp) else old(sentinel)
      ensures hashes ==
        if rows == [] || batchSize == 0 then old(hashes)
        else RowsWritten(old(hashes), registry, rows[..RowsReached(|rows|, batchSize, reached)], stamp)
    {
      if rows == [] {
        return Skipped;
      }
      if batchSize == 0 {
        return Failed;
      }
      var ok, done := SyncBatches(registry, rows, batchSize, stamp, reached);
      if !ok || reached == done {
        return Failed;
      }
      sentinel := Some(stamp);
      outcome := Completed;
    }
  }

  method BuildMapping(registry: seq<Feature>, row: Row, stamp: int) returns (mapping: Hash)
    ensures mapping == BatchMapping(registry, row, stamp)
  {
    mapping := map[];
    var features := BySource(registry, Batch);
    for i := 0 to |features|
      invariant mapping == ValuesOf(features[..i], row)
    {
      assert features[..i + 1][..i] == features[..i];
      var name := features[i].name;
      if name in row && row[name].Some? {
        mapping := mapping[name := Num(row[name].value)];
      }
    }
    assert features[..|features|] == features;
    mapping := mapping[BatchComputedAt := Stamp(stamp)];
  }

  function Piped(hashes: Hashes, pipe: seq<(string, Hash)>): Hashes {
    if pipe == [] then hashes
    else HsetAt(Piped(hashes, pipe[..|pipe| - 1]), pipe[|pipe| - 1].0, pipe[|pipe| - 1].1)
  }

  function PipeOf(registry: seq<Feature>, rows: seq<RouteRow>, stamp: int): (pipe: seq<(string, Hash)>)
    ensures |pipe| == |rows|
  {
    if rows == [] then []
    else PipeOf(registry, rows[..|rows| - 1], stamp)
         + [(rows[|rows| - 1].route, BatchMapping(registry, rows[|rows| - 1].values, stamp))]
  }

  lemma {:induction false} PipePrefix(registry: seq<Feature>, rows: seq<RouteRow>, stamp: int, k: nat)
    requires k <= |rows|
    ensures PipeOf(registry, rows, stamp)[..k] == PipeOf(registry, rows[..k], stamp)
    decreases |rows|
  {
    if k < |rows| {
      PipePrefix(registry, rows[..|rows| - 1], stamp, k);
      assert rows[..|rows| - 1][..k] == rows[..k];
    } else {
      assert rows[..k] == rows;
    }
  }

  lemma {:induction false} PipedRows(hashes: Hashes, registry: seq<Feature>, rows: seq<RouteRow>, stamp: int)
    ensures Piped(hashes, PipeOf(registry, rows, stamp)) == RowsWritten(hashes, registry, rows, stamp)
  {
    if rows != [] {
      PipedRows(hashes, registry, rows[..|rows| - 1], stamp);
      var pipe := PipeOf(registry, rows, stamp);
      assert pipe[..|pipe| - 1] == PipeOf(registry, rows[..|rows| - 1], stamp);
    }
  }

  lemma {:induction false} RowsWrittenJoin(hashes: Hashes, registry: seq<Feature>, a: seq<RouteRow>,
                                           b: seq<RouteRow>, stamp: int)
    ensures RowsWritten(hashes, registry, a + b, stamp) ==
        RowsWritten(RowsWritten(hashes, registry, a, stamp), registry, b, stamp)
    decreases |b|
  {
    if b == [] {
      assert a + b == a;
    } else {
      RowsWrittenJoin(hashes, registry, a, b[..|b| - 1], stamp);
      assert (a + b)[..|a + b| - 1] == a + b[..|b| - 1];
    }
  }

  lemma ExtendRows(hashes: Hashes, registry: seq<Feature>, rows: seq<RouteRow>, start: nat, end: nat, sent: nat,
                   stamp: int)
    requires start + sent <= end <= |rows|
    ensures RowsWritten(RowsWritten(hashes, registry, rows[..start], stamp), registry, rows[start..end][..sent], stamp)
         == RowsWritten(hashes, registry, rows[..start + sent], stamp)
  {
    var batch := rows[start..end][..sent];
    RowsWrittenJoin(hashes, registry, rows[..start], batch, stamp);
    assert rows[..start] + batch == rows[..start + sent];
  }
}
