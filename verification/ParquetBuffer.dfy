/** The in-memory buffer in front of the stream lake (services/worker/app/stream_features/parquet_buffer.py).

    `append` and `flush` run on different threads: appends can fall between any two steps of a flush.  An
    upload can fail with the client error the code handles, or with another exception, which leaves
    `flush` at once. */
module ParquetBuffer {
  import opened Options

  datatype Slot = Slot(dt: string, hour: nat)

  datatype Record = Record(slot: Slot, row: string)

  /** The records of one partition; also one uploaded file. */
  datatype Part = Part(slot: Slot, records: seq<Record>)

  /** The records of one partition, in order. */
  function Of(rs: seq<Record>, slot: Slot): seq<Record> {
    if rs == [] then []
    else Of(rs[..|rs| - 1], slot) + (if rs[|rs| - 1].slot == slot then [rs[|rs| - 1]] else [])
  }

  /** The records that a list of parts holds for one partition, in order. */
  function Held(parts: seq<Part>, slot: Slot): seq<Record> {
    if parts == [] then []
    else Held(parts[..|parts| - 1], slot) + (if parts[|parts| - 1].slot == slot then parts[|parts| - 1].records else [])
  }

  lemma {:induction false} OfAppend(a: seq<Record>, b: seq<Record>, slot: Slot)
    ensures Of(a + b, slot) == Of(a, slot) + Of(b, slot)
  {
    if b == [] {
      assert a + b == a;
    } else {
      OfAppend(a, b[..|b| - 1], slot);
      assert (a + b)[..|a + b| - 1] == a + b[..|b| - 1];
    }
  }

  lemma {:induction false} HeldAppend(a: seq<Part>, b: seq<Part>, slot: Slot)
    ensures Held(a + b, slot) == Held(a, slot) + Held(b, slot)
  {
    if b == [] {
      assert a + b == a;
    } else {
      HeldAppend(a, b[..|b| - 1], slot);
      assert (a + b)[..|a + b| - 1] == a + b[..|b| - 1];
    }
  }

  // ---------------------------------------------------------------- grouping

  function IndexOf(parts: seq<Part>, slot: Slot): (i: nat)
    ensures i <= |parts| && (i < |parts| ==> parts[i].slot == slot)
    ensures forall j | 0 <= j < i :: parts[j].slot != slot
  {
    if parts == [] then 0
    else
      var i := IndexOf(parts[..|parts| - 1], slot);
      if i < |parts| - 1 || parts[|parts| - 1].slot == slot then i else |parts|
  }

  /** parts.setdefault(key, []).append(record) on an insertion-ordered dictionary. */
  function AddTo(parts: seq<Part>, r: Record): seq<Part> {
    var i := IndexOf(parts, r.slot);
    if i < |parts| then parts[i := Part(r.slot, parts[i].records + [r])] else parts + [Part(r.slot, [r])]
  }

  function GroupOf(batch: seq<Record>): seq<Part> {
    if batch == [] then [] else AddTo(GroupOf(batch[..|batch| - 1]), batch[|batch| - 1])
  }

  ghost predicate WellGrouped(parts: seq<Part>) {
    && (forall i, j | 0 <= i < j < |parts| :: parts[i].slot != parts[j].slot)
    && (forall i, r | 0 <= i < |parts| && r in parts[i].records :: r.slot == parts[i].slot)
    && (forall i | 0 <= i < |parts| :: parts[i].records != [])
  }

  lemma {:induction false} OfOne(rs: seq<Record>, slot: Slot)
    requires forall r | r in rs :: r.slot == slot
    ensures Of(rs, slot) == rs
  {
    if rs != [] {
      var init := rs[..|rs| - 1];
      assert rs == init + [rs[|rs| - 1]];
      OfOne(init, slot);
    }
  }

  lemma {:induction false} OfOther(rs: seq<Record>, slot: Slot)
    requires forall r | r in rs :: r.slot != slot
    ensures Of(rs, slot) == []
  {
    if rs != [] {
      assert forall r | r in rs[..|rs| - 1] :: r in rs;
      OfOther(rs[..|rs| - 1], slot);
    }
  }

  /** Changing one part of a well-grouped list changes what is held for its slot alone. */
  lemma {:induction false} HeldUpdate(parts: seq<Part>, i: nat, records: seq<Record>, slot: Slot)
    requires i < |parts| && forall j | 0 <= j < |parts| && j != i :: parts[j].slot != parts[i].slot
    ensures Held(parts[i := Part(parts[i].slot, records)], slot)
            == if slot == parts[i].slot then records else Held(parts, slot)
    ensures Held(parts, parts[i].slot) == parts[i].records
  {
    var n := |parts| - 1;
    var part := Part(parts[i].slot, records);
    if i == n {
      assert parts[i := part][..n] == parts[..n];
      HeldNone(parts[..n], part.slot);
    } else {
      assert parts[i := part][..n] == parts[..n][i := part] && parts[i := part][n] == parts[n];
      HeldUpdate(parts[..n], i, records, slot);
    }
  }

  lemma {:induction false} HeldNone(parts: seq<Part>, slot: Slot)
    requires forall j | 0 <= j < |parts| :: parts[j].slot != slot
    ensures Held(parts, slot) == []
  {
    if parts != [] {
      HeldNone(parts[..|parts| - 1], slot);
    }
  }

  lemma AddToWellGrouped(parts: seq<Part>, r: Record)
    requires WellGrouped(parts)
    ensures WellGrouped(AddTo(parts, r))
  {
  }

  lemma AddToHolds(parts: seq<Part>, r: Record, slot: Slot)
    requires WellGrouped(parts)
    ensures Held(AddTo(parts, r), slot) == Held(parts, slot) + (if r.slot == slot then [r] else [])
  {
    var i := IndexOf(parts, r.slot);
    if i < |parts| {
      HeldUpdate(parts, i, parts[i].records + [r], slot);
    }
  }

  /** Grouping keeps every record, in order, per partition, and gives each partition one non-empty part. */
  lemma {:induction false} GroupKeeps(batch: seq<Record>, slot: Slot)
    ensures WellGrouped(GroupOf(batch))
    ensures Held(GroupOf(batch), slot) == Of(batch, slot)
  {
    if batch != [] {
      var init, r := batch[..|batch| - 1], batch[|batch| - 1];
      GroupKeeps(init, slot);
      AddToWellGrouped(GroupOf(init), r);
      AddToHolds(GroupOf(init), r, slot);
    }
  }

  // ---------------------------------------------------------------- the buffer under interleaving

  /** History: `appended` is everything ever appended, `dropped` what left memory without an upload. */
  datatype State = State(pending: seq<Record>, flushing: bool, inFlight: seq<Part>, failed: seq<Record>,
                         lake: seq<Part>, appended: seq<Record>, dropped: seq<Record>)

  const INIT := State([], false, [], [], [], [], [])

  datatype Event =
    | Append(r: Record)
    | Begin          // swap the buffer out and group it
    | Store          // the next part is uploaded
    | Refuse         // its upload fails with the handled error
    | Escape         // its upload raises anything else
    | Finish         // put the failed records back in front

  predicate Enabled(s: State, ev: Event) {
    match ev
    case Append(_) => true
    case Begin => !s.flushing && s.pending != []
    case Store => s.flushing && s.inFlight != []
    case Refuse => s.flushing && s.inFlight != []
    case Escape => s.flushing && s.inFlight != []
    case Finish => s.flushing && s.inFlight == []
  }

  function Flat(parts: seq<Part>): seq<Record> {
    if parts == [] then [] else Flat(parts[..|parts| - 1]) + parts[|parts| - 1].records
  }

  function Do(s: State, ev: Event): State
    requires Enabled(s, ev)
  {
    match ev
    case Append(r) => s.(pending := s.pending + [r], appended := s.appended + [r])
    case Begin => s.(pending := [], flushing := true, inFlight := GroupOf(s.pending), failed := [])
    case Store => s.(lake := s.lake + [s.inFlight[0]], inFlight := s.inFlight[1..])
    case Refuse => s.(failed := s.failed + s.inFlight[0].records, inFlight := s.inFlight[1..])
    case Escape => s.(flushing := false, inFlight := [], failed := [],
                      dropped := s.dropped + s.failed + Flat(s.inFlight))
    case Finish => s.(flushing := false, pending := s.failed + s.pending, failed := [])
  }

  ghost function After(evs: seq<Event>): Option<State> {
    if evs == [] then Some(INIT)
    else
      var before := After(evs[..|evs| - 1]);
      if before.Some? && Enabled(before.value, evs[|evs| - 1]) then Some(Do(before.value, evs[|evs| - 1])) else None
  }

  /** Everything appended for a partition, in order: what is uploaded, then in hand, then pending. */
  function Line(s: State, slot: Slot): seq<Record> {
    Held(s.lake, slot) + Of(s.failed, slot) + Held(s.inFlight, slot) + Of(s.pending, slot)
  }

  ghost predicate Conserved(s: State) {
    forall slot :: Line(s, slot) == Of(s.appended, slot)
  }

  ghost predicate Inv(s: State) {
    && WellGrouped(s.inFlight)
    && (!s.flushing ==> s.inFlight == [] && s.failed == [])
    && (forall i, r | 0 <= i < |s.inFlight| && r in s.failed :: r.slot != s.inFlight[i].slot)
    && (s.dropped == [] ==> Conserved(s))
    && (forall slot :: |Line(s, slot)| + |Of(s.dropped, slot)| == |Of(s.appended, slot)|)
  }

  lemma PopPart(parts: seq<Part>, slot: Slot)
    requires parts != []
    ensures Held(parts, slot) == OfPart(parts[0], slot) + Held(parts[1..], slot)
  {
    assert parts == [parts[0]] + parts[1..];
    HeldAppend([parts[0]], parts[1..], slot);
  }

  lemma MovePast<T>(l: seq<T>, x: seq<T>, f: seq<T>, r: seq<T>, p: seq<T>)
    requires x == [] || f == []
    ensures l + x + f + r + p == l + f + (x + r) + p
  {
  }

  lemma MoveInto<T>(l: seq<T>, x: seq<T>, f: seq<T>, r: seq<T>, p: seq<T>)
    ensures l + (f + x) + r + p == l + f + (x + r) + p
  {
    assert l + (f + x) + r == l + f + (x + r);
  }

  /** What one part holds of a slot. */
  function OfPart(part: Part, slot: Slot): seq<Record> {
    if part.slot == slot then part.records else []
  }

  lemma StoredHolds(lake: seq<Part>, part: Part, slot: Slot)
    ensures Held(lake + [part], slot) == Held(lake, slot) + OfPart(part, slot)
  {
    assert (lake + [part])[..|lake|] == lake;
  }

  lemma RecordsHold(part: Part, slot: Slot)
    requires forall r | r in part.records :: r.slot == part.slot
    ensures Of(part.records, slot) == OfPart(part, slot)
  {
    if part.slot == slot { OfOne(part.records, slot); } else { OfOther(part.records, slot); }
  }

  /** Storing the head part moves its records from in hand to uploaded and leaves the line as it was: none
      of the failed records before it is of the same slot. */
  lemma StoreKeepsLine(s: State, slot: Slot)
    requires Inv(s) && Enabled(s, Store)
    ensures Line(Do(s, Store), slot) == Line(s, slot)
  {
    var part, rest := s.inFlight[0], s.inFlight[1..];
    var x := OfPart(part, slot);
    PopPart(s.inFlight, slot);
    StoredHolds(s.lake, part, slot);
    if part.slot == slot { OfOther(s.failed, slot); }
    MovePast(Held(s.lake, slot), x, Of(s.failed, slot), Held(rest, slot), Of(s.pending, slot));
  }

  /** Refusing the head part moves its records behind the failed ones. */
  lemma RefuseKeepsLine(s: State, slot: Slot)
    requires Inv(s) && Enabled(s, Refuse)
    ensures Line(Do(s, Refuse), slot) == Line(s, slot)
  {
    var part, rest := s.inFlight[0], s.inFlight[1..];
    PopPart(s.inFlight, slot);
    RecordsHold(part, slot);
    OfAppend(s.failed, part.records, slot);
    MoveInto(Held(s.lake, slot), OfPart(part, slot), Of(s.failed, slot), Held(rest, slot), Of(s.pending, slot));
  }

  lemma AppendExtendsLine(s: State, r: Record, slot: Slot)
    ensures var t := Do(s, Append(r));
            Line(t, slot) == Line(s, slot) + Of([r], slot)
                && Of(t.appended, slot) == Of(s.appended, slot) + Of([r], slot)
  {
    OfAppend(s.pending, [r], slot);
    OfAppend(s.appended, [r], slot);
  }

  lemma BeginKeepsLine(s: State, slot: Slot)
    requires Inv(s) && Enabled(s, Begin)
    ensures Line(Do(s, Begin), slot) == Line(s, slot)
  {
    GroupKeeps(s.pending, slot);
  }

  lemma FinishKeepsLine(s: State, slot: Slot)
    requires Inv(s) && Enabled(s, Finish)
    ensures Line(Do(s, Finish), slot) == Line(s, slot)
  {
    OfAppend(s.failed, s.pending, slot);
  }

  lemma {:induction false} FlatIsHeld(parts: seq<Part>, slot: Slot)
    requires WellGrouped(parts)
    ensures Of(Flat(parts), slot) == Held(parts, slot)
  {
    if parts != [] {
      var init, last := parts[..|parts| - 1], parts[|parts| - 1];
      FlatIsHeld(init, slot);
      OfAppend(Flat(init), last.records, slot);
      if last.slot == slot { OfOne(last.records, slot); } else { OfOther(last.records, slot); }
    }
  }

  /** An escaping exception takes exactly the failed and in-flight records out of the line. */
  lemma EscapeShortensLine(s: State, slot: Slot)
    requires Inv(s) && Enabled(s, Escape)
    ensures var t := Do(s, Escape);
            && |Line(t, slot)| + |Of(t.dropped, slot)| == |Line(s, slot)| + |Of(s.dropped, slot)|
            && t.dropped != []
  {
    OfAppend(s.dropped + s.failed, Flat(s.inFlight), slot);
    OfAppend(s.dropped, s.failed, slot);
    FlatIsHeld(s.inFlight, slot);
    FlatIsHeld(s.inFlight, s.inFlight[0].slot);
    PopPart(s.inFlight, s.inFlight[0].slot);
  }

  lemma StepKeepsLines(s: State, ev: Event)
    requires Inv(s) && Enabled(s, ev)
    ensures var t := Do(s, ev);
            && (t.dropped == [] ==> Conserved(t))
            && (forall slot :: |Line(t, slot)| + |Of(t.dropped, slot)| == |Of(t.appended, slot)|)
  {
    var t := Do(s, ev);
    forall slot
      ensures |Line(t, slot)| + |Of(t.dropped, slot)| == |Of(t.appended, slot)|
      ensures t.dropped == [] ==> Line(t, slot) == Of(t.appended, slot)
    {
      match ev
      case Append(r) => AppendExtendsLine(s, r, slot);
      case Begin => BeginKeepsLine(s, slot);
      case Store => StoreKeepsLine(s, slot);
      case Refuse => RefuseKeepsLine(s, slot);
      case Escape => EscapeShortensLine(s, slot);
      case Finish => FinishKeepsLine(s, slot);
    }
  }

  lemma InvStep(s: State, ev: Event)
    requires Inv(s) && Enabled(s, ev)
    ensures Inv(Do(s, ev))
  {
    StepKeepsLines(s, ev);
    if ev.Begin? {
      GroupKeeps(s.pending, Slot("", 0));
    }
  }

  lemma {:induction false} InvHolds(evs: seq<Event>)
    requires After(evs).Some?
    ensures Inv(After(evs).value)
    ensures After(evs).value.dropped == [] <==> Escape !in evs
  {
    if evs != [] {
      var init, ev := evs[..|evs| - 1], evs[|evs| - 1];
      assert evs == init + [ev];
      InvHolds(init);
      InvStep(After(init).value, ev);
      if ev.Escape? {
        EscapeShortensLine(After(init).value, Slot("", 0));
      }
    }
  }

  /** Under any interleaving of appends with a flusher and any pattern of failed uploads: for each partition
      the uploaded rows, then those in hand, then the pending ones are exactly the appended rows, in order,
      if and only if no upload ever raised an error other than the handled one. */
  lemma ConservedIffNothingEscaped(evs: seq<Event>)
    requires After(evs).Some?
    ensures Conserved(After(evs).value) <==> Escape !in evs
  {
    InvHolds(evs);
    var s := After(evs).value;
    if Conserved(s) {
      assert forall slot :: |Line(s, slot)| == |Of(s.appended, slot)| && |Of(s.dropped, slot)| == 0;
      assert s.dropped != [] ==> |Of(s.dropped, s.dropped[|s.dropped| - 1].slot)| > 0;
    }
  }

  // ---------------------------------------------------------------- the class

  datatype Answer = Stored | Refused | Raised

  /** The loop over the parts, from part `i` on, as events. */
  function UploadEvents(parts: seq<Part>, answer: Slot -> Answer): seq<Event> {
    if parts == [] then [Finish]
    else match answer(parts[0].slot)
      case Raised => [Escape]
      case Stored => [Store] + UploadEvents(parts[1..], answer)
      case Refused => [Refuse] + UploadEvents(parts[1..], answer)
  }

  /** The state a list of events leads to from `s`; events that are not possible are skipped. */
  function Apply(s: State, evs: seq<Event>): State
    decreases |evs|
  {
    if evs == [] then s else Apply(if Enabled(s, evs[0]) then Do(s, evs[0]) else s, evs[1..])
  }

  class ParquetBuffer {
    var pending: seq<Record>
    var lake: seq<Part>
    ghost var appended: seq<Record>
    ghost var dropped: seq<Record>

    /** The state between two calls. */
    ghost function Idle(): State
      reads this
    {
      State(pending, false, [], [], lake, appended, dropped)
    }

    constructor ()
      ensures Idle() == INIT
    {
      pending, lake, appended, dropped := [], [], [], [];
    }

    method Append(record: Record)
      modifies this
      ensures Idle() == old(Do(Idle(), Event.Append(record)))
    {
      pending := pending + [record];
      appended := appended + [record];
    }

    method Group(batch: seq<Record>) returns (parts: seq<Part>)
      ensures parts == GroupOf(batch)
    {
      parts := [];
      for i := 0 to |batch|
        invariant parts == GroupOf(batch[..i])
      {
        assert batch[..i + 1][..i] == batch[..i];
        parts := AddTo(parts, batch[i]);
      }
      assert batch[..|batch|] == batch;
    }

    /** Upload every buffered record, partition by partition; put back what was refused.  `raised` tells
        that an exception left the method. */
    method Flush(answer: Slot -> Answer) returns (raised: bool)
      modifies this
      ensures old(pending) == [] ==> Idle() == old(Idle()) && !raised
      ensures old(pending) != [] ==>
                Idle() == old(Apply(Do(Idle(), Begin), UploadEvents(GroupOf(pending), answer)))
      ensures raised <==> exists part :: part in GroupOf(old(pending)) && answer(part.slot) == Raised
    {
      if pending == [] {
        return false;
      }
      var batch := pending;
      pending := [];
      var parts := Group(batch);
      var failed;
      failed, raised := Upload(parts, answer);
      if !raised {
        pending := failed + pending;
      }
    }

    /** Upload the parts one by one.  Refused parts are collected; an exception ends the flush. */
    method Upload(parts: seq<Part>, answer: Slot -> Answer) returns (failed: seq<Record>, raised: bool)
      modifies `lake, `dropped
      ensures var end := old(Apply(State(pending, true, parts, [], lake, appended, dropped),
                                   UploadEvents(parts, answer)));
              end == if raised then Idle() else Idle().(pending := failed + pending)
      ensures raised <==> exists part :: part in parts && answer(part.slot) == Raised
    {
      failed, raised := [], false;
      ghost var s := State(pending, true, parts, [], lake, appended, dropped);
      ghost var start := s;
      var i := 0;
      while i < |parts|
        invariant 0 <= i <= |parts|
        invariant s == State(pending, true, parts[i..], failed, lake, appended, dropped)
        invariant Apply(s, UploadEvents(parts[i..], answer)) == Apply(start, UploadEvents(parts, answer))
        invariant forall k | 0 <= k < i :: answer(parts[k].slot) != Raised
      {
        var part := parts[i];
        assert part in parts;
        UploadUnrolls(s, answer);
        assert parts[i..][1..] == parts[i + 1..];
        match answer(part.slot) {
          case Raised =>
            dropped := dropped + failed + Flat(parts[i..]);
            raised := true;
            return;
          case Stored =>
            s := Do(s, Store);
            lake := lake + [part];
          case Refused =>
            s := Do(s, Refuse);
            failed := failed + part.records;
        }
        i := i + 1;
      }
      assert [Finish][1..] == [];
    }
  }

  lemma UploadUnrolls(s: State, answer: Slot -> Answer)
    requires s.flushing && s.inFlight != []
    ensures var evs := UploadEvents(s.inFlight, answer);
            match answer(s.inFlight[0].slot)
            case Raised => Apply(s, evs) == Do(s, Escape)
            case Stored => Apply(s, evs) == Apply(Do(s, Store), UploadEvents(s.inFlight[1..], answer))
            case Refused => Apply(s, evs) == Apply(Do(s, Refuse), UploadEvents(s.inFlight[1..], answer))
  {
    var evs := UploadEvents(s.inFlight, answer);
    assert evs[1..] == if answer(s.inFlight[0].slot) == Raised then [] else UploadEvents(s.inFlight[1..], answer);
  }

  /** A flush with no appends in between is a run of the machine: each of its events is possible in turn. */
  lemma {:induction false} UploadsArePossible(s: State, answer: Slot -> Answer)
    requires Inv(s) && s.flushing
    ensures Inv(Apply(s, UploadEvents(s.inFlight, answer))) && !Apply(s, UploadEvents(s.inFlight, answer)).flushing
    decreases |s.inFlight|
  {
    if s.inFlight == [] {
      assert [Finish][1..] == [];
      InvStep(s, Finish);
    } else {
      UploadUnrolls(s, answer);
      match answer(s.inFlight[0].slot)
      case Raised => InvStep(s, Escape);
      case Stored => InvStep(s, Store); UploadsArePossible(Do(s, Store), answer);
      case Refused => InvStep(s, Refuse); UploadsArePossible(Do(s, Refuse), answer);
    }
  }

  /** What the loop over the parts does for one partition: stored records go to the lake, refused ones end up
      before what is pending. */
  ghost predicate UploadedSlot(s: State, t: State, answer: Slot -> Answer, slot: Slot) {
    && !t.flushing
    && (answer(slot) == Stored ==>
          Held(t.lake, slot) == Held(s.lake, slot) + Held(s.inFlight, slot)
          && Of(t.pending, slot) == Of(s.failed, slot) + Of(s.pending, slot))
    && (answer(slot) == Refused ==>
          Held(t.lake, slot) == Held(s.lake, slot)
          && Of(t.pending, slot) == Of(s.failed, slot) + Held(s.inFlight, slot) + Of(s.pending, slot))
  }

  lemma StoredFirst(s: State, t: State, answer: Slot -> Answer, slot: Slot)
    requires s.flushing && s.inFlight != [] && answer(s.inFlight[0].slot) == Stored
    requires UploadedSlot(Do(s, Store), t, answer, slot)
    ensures UploadedSlot(s, t, answer, slot)
  {
    var part, rest := s.inFlight[0], Held(s.inFlight[1..], slot);
    PopPart(s.inFlight, slot);
    StoredHolds(s.lake, part, slot);
    var x := OfPart(part, slot);
    assert Held(s.lake, slot) + x + rest == Held(s.lake, slot) + (x + rest);
    assert answer(slot) == Refused ==> x == [] && x + rest == rest;
  }

  lemma RefusedFirst(s: State, t: State, answer: Slot -> Answer, slot: Slot)
    requires s.flushing && s.inFlight != [] && WellGrouped(s.inFlight) && answer(s.inFlight[0].slot) == Refused
    requires UploadedSlot(Do(s, Refuse), t, answer, slot)
    ensures UploadedSlot(s, t, answer, slot)
  {
    var part, rest := s.inFlight[0], Held(s.inFlight[1..], slot);
    PopPart(s.inFlight, slot);
    RecordsHold(part, slot);
    OfAppend(s.failed, part.records, slot);
    var failed, pending := Of(s.failed, slot), Of(s.pending, slot);
    if part.slot == slot {
      Regroup(failed, part.records, rest, pending);
    } else {
      assert failed + [] == failed && [] + rest == rest;
    }
  }

  lemma Regroup<T>(f: seq<T>, x: seq<T>, r: seq<T>, p: seq<T>)
    ensures (f + x) + r + p == f + (x + r) + p
  {
    assert (f + x) + r == f + (x + r);
  }

  lemma {:induction false} UploadsBySlot(s: State, answer: Slot -> Answer, slot: Slot)
    requires s.flushing && WellGrouped(s.inFlight) && forall part | part in s.inFlight :: answer(part.slot) != Raised
    ensures UploadedSlot(s, Apply(s, UploadEvents(s.inFlight, answer)), answer, slot)
    decreases |s.inFlight|
  {
    if s.inFlight == [] {
      assert [Finish][1..] == [];
      OfAppend(s.failed, s.pending, slot);
      assert Apply(s, [Finish]) == Do(s, Finish);
    } else {
      var end := Apply(s, UploadEvents(s.inFlight, answer));
      assert s.inFlight[0] in s.inFlight;
      UploadUnrolls(s, answer);
      if answer(s.inFlight[0].slot) == Stored {
        UploadsBySlot(Do(s, Store), answer, slot);
        StoredFirst(s, end, answer, slot);
      } else {
        UploadsBySlot(Do(s, Refuse), answer, slot);
        RefusedFirst(s, end, answer, slot);
      }
    }
  }

  /** A flush that does not raise, partition by partition: if the upload of a partition succeeds, all its
      buffered records are in the lake, in order, and none is left; if it is refused, they stay as they were. */
  lemma FlushBySlot(s: State, answer: Slot -> Answer, slot: Slot)
    requires Inv(s) && !s.flushing && s.pending != []
    requires forall part | part in GroupOf(s.pending) :: answer(part.slot) != Raised
    ensures Enabled(s, Begin)
    ensures var t := Apply(Do(s, Begin), UploadEvents(GroupOf(s.pending), answer));
            && (answer(slot) == Stored ==>
                  Held(t.lake, slot) == Held(s.lake, slot) + Of(s.pending, slot) && Of(t.pending, slot) == [])
            && (answer(slot) == Refused ==>
                  Held(t.lake, slot) == Held(s.lake, slot) && Of(t.pending, slot) == Of(s.pending, slot))
  {
    GroupKeeps(s.pending, slot);
    UploadsBySlot(Do(s, Begin), answer, slot);
  }
}
