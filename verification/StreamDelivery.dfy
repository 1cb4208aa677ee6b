/** What the stream consumer's offset discipline means for the stores it feeds
    (services/worker/app/stream_features/consumer.py, services/worker/app/stream_features/redis_ops.py).

    Every run of the consumer machine visits the offsets of a partition, whole or in part.  These visits are
    the delivery runs under which the sliding windows converge, unless a failed message was passed. */
module StreamDelivery {
  import opened Options
  import opened Offsets
  import opened AtLeastOnce
  import opened StreamConsumer

  /** The visits of a run to one partition.  `parts` says how many store commands the i-th event got through
      before it failed; a message with nothing to store is whole when it is noted. */
  ghost function VisitsOf(log: Log, evs: seq<Event>, p: nat, parts: nat -> nat): seq<Visit>
    requires After(log, evs).Some?
  {
    if evs == [] then []
    else
      var n := |evs| - 1;
      var before := VisitsOf(log, evs[..n], p, parts);
      if VisitsPartition(evs[n], p) then before + [VisitNow(log, After(log, evs[..n]).value, evs[n], parts(n))]
      else before
  }

  predicate VisitsPartition(ev: Event, p: nat) {
    ev.Deliver? && ev.p == p
  }

  function VisitNow(log: Log, s: State, ev: Event, part: nat): Visit
    requires ev.Deliver? && Enabled(log, s, ev)
  {
    Visit(Get(s.position, ev.p), ev.redisOk || MessageAt(log, Next(s, ev.p)) == Invalid, part)
  }

  /** How far the process has read, or would read on from after a restart. */
  function Reach(s: State, p: nat): nat {
    Get(if s.running then s.position else s.committed, p)
  }

  /** Handled for good, or handled by this process with no failure before it. */
  predicate Secured(s: State, p: nat, q: nat) {
    || q < Get(s.committed, p)
    || (p in s.pending && q <= s.pending[p])
    || (s.running && p !in s.failedOn && q < Get(s.position, p))
  }

  ghost predicate Visited(w: seq<Visit>, q: nat) {
    exists j :: IsLastVisit(w, q, j)
  }

  /** In every run the visits come back in order; with nothing overtaken they were whole. */
  ghost predicate DeliveryInv(log: Log, s: State, p: nat, w: seq<Visit>)
    requires p < |log|
  {
    && Walk(w, |log[p]|)
    && (forall q: nat | q < Reach(s, p) :: Visited(w, q))
    && (!s.overtaken ==> forall q: nat | Secured(s, p, q) :: Settled(w, q))
  }

  lemma MoreVisits(w: seq<Visit>, v: Visit, q: nat)
    requires q <= v.pos
    ensures q < v.pos && Visited(w, q) ==> Visited(w + [v], q)
    ensures q < v.pos && Settled(w, q) ==> Settled(w + [v], q)
    ensures q == v.pos ==> Visited(w + [v], q) && (v.whole ==> Settled(w + [v], q))
  {
    var u := w + [v];
    if q == v.pos {
      assert IsLastVisit(u, q, |w|);
    } else {
      if j :| IsLastVisit(w, q, j) { assert IsLastVisit(u, q, j); }
      if j :| IsLastVisit(w, q, j) && w[j].whole { assert IsLastVisit(u, q, j) && u[j].whole; }
    }
  }

  lemma DeliverKeeps(log: Log, s: State, p: nat, redisOk: bool, part: nat, w: seq<Visit>)
    requires p < |log| && Inv(log, s) && Enabled(log, s, Deliver(p, redisOk)) && DeliveryInv(log, s, p, w)
    ensures DeliveryInv(log, Handle(log, s, p, redisOk), p, w + [VisitNow(log, s, Deliver(p, redisOk), part)])
  {
    var v := VisitNow(log, s, Deliver(p, redisOk), part);
    var t := Handle(log, s, p, redisOk);
    forall q: nat | q < Reach(t, p) ensures Visited(w + [v], q) { MoreVisits(w, v, q); }
    if !t.overtaken {
      forall q: nat | Secured(t, p, q) ensures Settled(w + [v], q) { MoreVisits(w, v, q); }
    }
  }

  lemma OtherKeeps(log: Log, s: State, ev: Event, p: nat, w: seq<Visit>)
    requires p < |log| && Inv(log, s) && Enabled(log, s, ev) && !VisitsPartition(ev, p) && DeliveryInv(log, s, p, w)
    ensures DeliveryInv(log, Do(log, s, ev), p, w)
  {
    var t := Do(log, s, ev);
    forall q: nat | !t.overtaken && Secured(t, p, q) ensures Secured(s, p, q) {
    }
  }

  lemma {:induction false} DeliveryHolds(log: Log, evs: seq<Event>, p: nat, parts: nat -> nat)
    requires p < |log| && After(log, evs).Some?
    ensures DeliveryInv(log, After(log, evs).value, p, VisitsOf(log, evs, p, parts))
  {
    if evs != [] {
      var n := |evs| - 1;
      DeliveryHolds(log, evs[..n], p, parts);
      InvHolds(log, evs[..n]);
      var s, w := After(log, evs[..n]).value, VisitsOf(log, evs[..n], p, parts);
      if VisitsPartition(evs[n], p) {
        DeliverKeeps(log, s, p, evs[n].redisOk, parts(n), w);
      } else {
        OtherKeeps(log, s, evs[n], p, w);
      }
    }
  }

  // ---------------------------------------------------------------- when a run has caught up

  /** The partition has been read to its end: everything is committed, or the process is at the end and no
      message on it failed under its hands. */
  predicate ReadToEnd(log: Log, s: State, p: nat)
    requires p < |log|
  {
    || Get(s.committed, p) == |log[p]|
    || (s.running && p !in s.failedOn && Get(s.position, p) == |log[p]|)
  }

  /** Every run in which no failure was overtaken and that has read the partition to its end has caught up,
      whatever Redis failures, crashes and resets it went through. */
  lemma ReadMeansCaughtUp(log: Log, evs: seq<Event>, p: nat, parts: nat -> nat)
    requires p < |log| && After(log, evs).Some?
    requires !After(log, evs).value.overtaken && ReadToEnd(log, After(log, evs).value, p)
    ensures CaughtUp(VisitsOf(log, evs, p, parts), |log[p]|)
  {
    DeliveryHolds(log, evs, p, parts);
    var s, w := After(log, evs).value, VisitsOf(log, evs, p, parts);
    forall q: nat | q < |log[p]| ensures Settled(w, q) {
      assert Secured(s, p, q);
    }
  }

  /** The last handling of offset `q` failed part-way. */
  ghost predicate Missed(w: seq<Visit>, q: nat) {
    exists j :: 0 <= j < |w| && w[j].pos == q && !w[j].whole && forall k | j < k < |w| :: w[k].pos != q
  }

  lemma MissedOrSettled(w: seq<Visit>, q: nat)
    requires Visited(w, q)
    ensures Missed(w, q) <==> !Settled(w, q)
  {
    var j :| IsLastVisit(w, q, j);
    if w[j].whole {
      assert Settled(w, q);
    } else {
      assert Missed(w, q);
    }
  }

  /** In general, overtaken or not: a run that has read a partition to its end has caught up if and only if no
      message's last handling failed. */
  lemma CaughtUpIffNothingMissed(log: Log, evs: seq<Event>, p: nat, parts: nat -> nat)
    requires p < |log| && After(log, evs).Some? && Reach(After(log, evs).value, p) == |log[p]|
    ensures var w := VisitsOf(log, evs, p, parts);
            CaughtUp(w, |log[p]|) <==> forall q: nat | q < |log[p]| :: !Missed(w, q)
  {
    DeliveryHolds(log, evs, p, parts);
    var w := VisitsOf(log, evs, p, parts);
    forall q: nat | q < |log[p]| ensures Missed(w, q) <==> !Settled(w, q) {
      assert Visited(w, q);
      MissedOrSettled(w, q);
    }
  }

  ghost predicate NoResets(evs: seq<Event>) {
    forall ev | ev in evs :: !ev.Reset?
  }

  /** A failed message that a commit has passed. */
  ghost predicate Passed(log: Log, evs: seq<Event>, p: nat, parts: nat -> nat, q: nat) {
    && After(log, evs).Some?
    && q < Get(After(log, evs).value.committed, p)
    && Missed(VisitsOf(log, evs, p, parts), q)
  }

  lemma PassedStays(log: Log, evs: seq<Event>, p: nat, parts: nat -> nat, q: nat)
    requires evs != [] && After(log, evs).Some? && !evs[|evs| - 1].Reset? && Passed(log, evs[..|evs| - 1], p, parts, q)
    ensures Passed(log, evs, p, parts, q)
  {
    var n := |evs| - 1;
    InvHolds(log, evs[..n]);
    var s, w := After(log, evs[..n]).value, VisitsOf(log, evs[..n], p, parts);
    CommittedGrows(log, s, evs[n], p);
    if VisitsPartition(evs[n], p) {
      assert q < Get(s.position, p);
      MissedStays(w, VisitNow(log, s, evs[n], parts(n)), q);
    }
  }

  /** Once a commit has passed a failed message, no continuation without an offset reset ever catches up. */
  lemma {:induction false} PassedFailureIsFinal(log: Log, evs: seq<Event>, more: seq<Event>, p: nat,
                                                parts: nat -> nat, q: nat)
    requires p < |log| && After(log, evs + more).Some? && NoResets(more) && Passed(log, evs, p, parts, q)
    ensures Passed(log, evs + more, p, parts, q) && !CaughtUp(VisitsOf(log, evs + more, p, parts), |log[p]|)
    decreases |more|
  {
    if more == [] {
      assert evs + more == evs;
    } else {
      var n := |more| - 1;
      var all := evs + more;
      assert all[..|all| - 1] == evs + more[..n] && all[|all| - 1] == more[n];
      PassedFailureIsFinal(log, evs, more[..n], p, parts, q);
      PassedStays(log, all, p, parts, q);
    }
    MissedIsNotCaughtUp(log, evs + more, p, parts, q);
  }

  lemma CommittedGrows(log: Log, s: State, ev: Event, p: nat)
    requires Inv(log, s) && Enabled(log, s, ev) && !ev.Reset?
    ensures Get(s.committed, p) <= Get(Do(log, s, ev).committed, p)
  {
  }

  lemma MissedStays(w: seq<Visit>, v: Visit, q: nat)
    requires Missed(w, q) && v.pos != q
    ensures Missed(w + [v], q)
  {
    var j :| 0 <= j < |w| && w[j].pos == q && !w[j].whole && forall k | j < k < |w| :: w[k].pos != q;
    var u := w + [v];
    assert u[j].pos == q && !u[j].whole;
  }

  lemma MissedIsNotCaughtUp(log: Log, evs: seq<Event>, p: nat, parts: nat -> nat, q: nat)
    requires p < |log| && After(log, evs).Some? && q < Get(After(log, evs).value.committed, p)
    requires Missed(VisitsOf(log, evs, p, parts), q)
    ensures !CaughtUp(VisitsOf(log, evs, p, parts), |log[p]|)
  {
    InvHolds(log, evs);
    DeliveryHolds(log, evs, p, parts);
    assert q < Reach(After(log, evs).value, p) <= |log[p]|;
    MissedOrSettled(VisitsOf(log, evs, p, parts), q);
  }
}
