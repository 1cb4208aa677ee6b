/** Places in a topic and a consumer's bookkeeping of offsets
    (services/ingestor/app/consumers.py, services/worker/app/stream_features/consumer.py). */
module Offsets {

  datatype Pos = Pos(partition: nat, offset: nat)

  /** A topic is a sequence of messages per partition, offsets being indices. */
  predicate InLog<M>(log: seq<seq<M>>, at: Pos) {
    at.partition < |log| && at.offset < |log[at.partition]|
  }

  function Get(m: map<nat, nat>, p: nat): nat {
    if p in m then m[p] else 0
  }

  function UpdateMax(offsets: map<nat, nat>, partition: nat, offset: nat): map<nat, nat> {
    if partition !in offsets || offset > offsets[partition] then offsets[partition := offset] else offsets
  }

  function CommitOffsets(committed: map<nat, nat>, pending: map<nat, nat>): map<nat, nat> {
    committed + map p | p in pending :: pending[p] + 1
  }

  /** A reset that moves no partition forward; a partition it does not name starts over. */
  predicate NotForward(to: map<nat, nat>, committed: map<nat, nat>) {
    forall p | p in to :: to[p] <= Get(committed, p)
  }

  /** Committing a noted offset moves the partition to the one after it, and no other partition. */
  lemma CommitMovesPastNoted(committed: map<nat, nat>, pending: map<nat, nat>, p: nat)
    ensures Get(CommitOffsets(committed, pending), p) == if p in pending then pending[p] + 1 else Get(committed, p)
    ensures NotForward(committed, committed)
  {
  }

  /** The noted offset of a partition is the greatest one. */
  lemma NotesTheGreatest(offsets: map<nat, nat>, partition: nat, offset: nat, p: nat)
    ensures var m := UpdateMax(offsets, partition, offset);
            && partition in m && offset <= m[partition]
                && (m[partition] == offset || (p == partition ==> p in offsets && m[p] == offsets[p]))
            && (p in offsets ==> p in m && offsets[p] <= m[p]) && (p != partition ==> (p in m <==> p in offsets))
            && (p != partition && p in offsets ==> m[p] == offsets[p])
  {
  }
}
