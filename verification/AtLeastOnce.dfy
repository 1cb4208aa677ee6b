/** At-least-once delivery of one log.

    A consumer works through the positions 0, 1, 2, ... of a log.  A crash or an offset reset sends it back to
    some earlier position.  A failure in the middle of a position leaves only the first few of that position's
    store commands done, and the consumer may go on to later positions before it comes back.  A `Visit` is one
    handling of a position. */
module AtLeastOnce {

  /** `whole` is false when the handling failed part-way; then only the first `part` commands ran. */
  datatype Visit = Visit(pos: nat, whole: bool, part: nat)

  /** Any visits at all, in any order, to the positions below `n`. */
  ghost predicate Walk(w: seq<Visit>, n: nat) {
    forall i | 0 <= i < |w| :: w[i].pos < n
  }

  /** `j` is the last visit of position `p`, and everything after it is further on. */
  ghost predicate IsLastVisit(w: seq<Visit>, p: nat, j: int) {
    && 0 <= j < |w|
    && w[j].pos == p
    && forall k | j < k < |w| :: p < w[k].pos
  }

  /** The last time the consumer came to position `p` it handled it whole, and it has gone on from there. */
  ghost predicate Settled(w: seq<Visit>, p: nat) {
    exists j :: IsLastVisit(w, p, j) && w[j].whole
  }

  ghost predicate CaughtUp(w: seq<Visit>, n: nat) {
    Walk(w, n) && forall p: nat | p < n :: Settled(w, p)
  }

  /** The visits of a process that never fails and is never reset. */
  function Straight(n: nat): (w: seq<Visit>)
    ensures |w| == n && forall i | 0 <= i < n :: w[i] == Visit(i, true, 0)
  {
    seq(n, i requires 0 <= i => Visit(i, true, 0))
  }

  lemma StraightCaughtUp(n: nat)
    ensures CaughtUp(Straight(n), n)
  {
    forall p: nat | p < n ensures Settled(Straight(n), p) {
      assert IsLastVisit(Straight(n), p, p);
    }
  }

  lemma LastVisit(w: seq<Visit>, n: nat, p: nat) returns (j: int)
    requires CaughtUp(w, n) && p < n
    ensures IsLastVisit(w, p, j) && w[j].whole
  {
    assert Settled(w, p);
    j :| IsLastVisit(w, p, j) && w[j].whole;
  }

  /** Last visits come in log order: the visits end as an uninterrupted pass over the log would. */
  lemma LastVisitsInOrder(w: seq<Visit>, n: nat, p: nat, j: int, q: nat) returns (k: int)
    requires CaughtUp(w, n) && IsLastVisit(w, p, j) && p < q < n
    ensures j < k && IsLastVisit(w, q, k) && w[k].whole
  {
    k := LastVisit(w, n, q);
  }

  /** The very last visit is a whole one of the last position. */
  lemma EndsWhole(w: seq<Visit>, n: nat)
    requires CaughtUp(w, n) && 0 < n
    ensures w != [] && w[|w| - 1].pos == n - 1 && w[|w| - 1].whole
  {
    var j := LastVisit(w, n, n - 1);
    assert w[|w| - 1].pos < n;
  }
}
