/**
 The per-session journal (server/pantoken-server/src/journal.rs): the seed source for connecting clients and
 the resume ring for reconnecting ones. `seed` and `log` are the history the journal stands for: the events it
 was created from, and every event stamped since; `evicted` of those have left the ring.
 */
module Journal {
  import opened Options
  import opened Logs

  const TAIL_MAX_FRAMES := 1024
  const TAIL_MAX_BYTES := 256 * 1024

  /** One live ring entry. */
  datatype Frame<E> = Frame(number: nat, ev: E, bytes: nat)

  /** The byte estimate of `log[i..j]`. */
  function Bytes<E>(cost: E -> nat, log: seq<E>, i: nat, j: nat): nat
    requires i <= j <= |log|
    decreases j - i
  {
    if i == j then 0 else cost(log[i]) + Bytes(cost, log, i + 1, j)
  }

  lemma {:induction false} BytesPush<E>(cost: E -> nat, log: seq<E>, e: E, i: nat)
    requires i <= |log|
    ensures Bytes(cost, log + [e], i, |log| + 1) == Bytes(cost, log, i, |log|) + cost(e)
    decreases |log| - i
  {
    if i < |log| {
      BytesPush(cost, log, e, i + 1);
    } else {
      assert Bytes(cost, log + [e], i + 1, |log| + 1) == 0;
    }
  }

  /** A ring of `log[i..]` exceeds a cap. */
  predicate OverCap<E>(cost: E -> nat, log: seq<E>, i: nat)
    requires i <= |log|
  {
    |log| - i > TAIL_MAX_FRAMES || Bytes(cost, log, i, |log|) > TAIL_MAX_BYTES
  }

  /** The compacted prefix once the first `n` stamped events have left the ring. */
  function Compaction<E>(merge: (E, E) -> Option<E>, seed: seq<E>, log: seq<E>, n: nat): seq<E>
    requires n <= |log|
  {
    Coalesced(merge, seed + log[..n])
  }

  lemma CompactionStart<E>(merge: (E, E) -> Option<E>, seed: seq<E>)
    ensures Compaction(merge, seed, [], 0) == Coalesced(merge, seed)
  {
    assert seed + [] == seed;
  }

  lemma CompactionOfLonger<E>(merge: (E, E) -> Option<E>, seed: seq<E>, log: seq<E>, e: E, n: nat)
    requires n <= |log|
    ensures Compaction(merge, seed, log + [e], n) == Compaction(merge, seed, log, n)
  {
    assert (log + [e])[..n] == log[..n];
  }

  lemma CompactionPush<E>(merge: (E, E) -> Option<E>, seed: seq<E>, log: seq<E>, n: nat)
    requires n < |log|
    ensures Absorb(merge, Compaction(merge, seed, log, n), log[n]) == Compaction(merge, seed, log, n + 1)
  {
    assert (seed + log[..n + 1])[..|seed| + n] == seed + log[..n];
  }

  /** The seed does not depend on where the log is split between compacted prefix and ring. */
  lemma SeedOverCut<E(!new)>(merge: (E, E) -> Option<E>, seed: seq<E>, log: seq<E>, n: nat)
    requires KeepsNeighbours(merge) && n <= |log|
    ensures Coalesced(merge, Compaction(merge, seed, log, n) + log[n..|log|]) == Coalesced(merge, seed + log)
  {
    var a, b := seed + log[..n], log[n..|log|];
    assert a + b == seed + log;
    CoalesceOverCut(merge, a, b);
  }

  class SessionJournal<E(!new)> {
    const merge: (E, E) -> Option<E>
    const cost: E -> nat           // the byte estimate of an event
    var epoch: nat
    var last: nat                  // last assigned number; 0 when nothing is stamped yet
    var compacted: seq<E>
    var tail: seq<Frame<E>>
    var tailBytes: nat
    ghost var seed: seq<E>
    ghost var log: seq<E>
    ghost var evicted: nat

    /** The ring holds the newest events of the log under their own numbers, and the compacted prefix the rest. */
    ghost predicate Consistent()
      reads this
    {
      last == |log| && evicted + |tail| == last
      && tailBytes == Bytes(cost, log, evicted, last)
      && (forall k :: 0 <= k < |tail| ==> tail[k] == Frame(evicted + k + 1, log[evicted + k], cost(log[evicted + k])))
      && compacted == Compaction(merge, seed, log, evicted)
    }

    ghost predicate Valid()
      reads this
    {
      Consistent() && !OverCap(cost, log, evicted)
    }

    /** `create_journal`. */
    constructor (merge: (E, E) -> Option<E>, cost: E -> nat, epoch: nat, seed: seq<E>)
      ensures Valid() && this.merge == merge && this.cost == cost
      ensures this.epoch == epoch && this.seed == seed && log == [] && evicted == 0
    {
      this.merge, this.cost, this.epoch := merge, cost, epoch;
      last, tail, tailBytes := 0, [], 0;
      this.seed, log, evicted := seed, [], 0;
      new;
      compacted := CoalesceEvents(merge, seed);
      CompactionStart(merge, seed);
    }

    /** `bump_epoch`. */
    method BumpEpoch(epoch: nat, seed: seq<E>)
      modifies this
      ensures Valid()
      ensures this.epoch == epoch && this.seed == seed && log == [] && evicted == 0
    {
      this.epoch := epoch;
      last, tail, tailBytes := 0, [], 0;
      compacted := CoalesceEvents(merge, seed);
      this.seed, log, evicted := seed, [], 0;
      CompactionStart(merge, seed);
    }

    /** Stamp the event and put it at the end of the ring, over the caps or not. */
    method Stamp(ev: E)
      requires Consistent()
      modifies this`last, this`tail, this`tailBytes, this`log
      ensures Consistent() && log == old(log) + [ev]
    {
      BytesPush(cost, log, ev, evicted);
      CompactionOfLonger(merge, seed, log, ev, evicted);
      last := last + 1;
      tail := tail + [Frame(last, ev, cost(ev))];
      tailBytes := tailBytes + cost(ev);
      log := log + [ev];
    }

    /** One turn of the eviction loop: the oldest frame moves into the compacted prefix. */
    method EvictOldest()
      requires Consistent() && tail != []
      modifies this`compacted, this`tail, this`tailBytes, this`evicted
      ensures Consistent() && evicted == old(evicted) + 1
    {
      var oldest := tail[0];
      tail := tail[1..];
      tailBytes := tailBytes - oldest.bytes;
      compacted := Absorb(merge, compacted, oldest.ev);
      CompactionPush(merge, seed, log, evicted);
      assert forall k :: 0 <= k < |tail| ==> tail[k] == old(tail)[k + 1];
      evicted := evicted + 1;
    }

    /** `append_event`: stamps the event and evicts no more of the ring than the caps require. */
    method AppendEvent(ev: E) returns (number: nat)
      requires Valid()
      modifies this
      ensures Valid() && epoch == old(epoch) && seed == old(seed)
      ensures log == old(log) + [ev] && number == last == |log|
      ensures old(evicted) <= evicted <= |log|
      ensures evicted > old(evicted) ==> OverCap(cost, log, evicted - 1)
      ensures |tail| <= 1024 && tailBytes <= 262144
      ensures evicted > old(evicted) ==>
        |log| - (evicted - 1) > 1024 || Bytes(cost, log, evicted - 1, |log|) > 262144
    {
      hide Compaction;
      Stamp(ev);
      number := last;
      while |tail| > TAIL_MAX_FRAMES || tailBytes > TAIL_MAX_BYTES
        invariant Consistent()
        invariant epoch == old(epoch) && seed == old(seed) && log == old(log) + [ev] && number == last
        invariant old(evicted) <= evicted
        invariant evicted > old(evicted) ==> OverCap(cost, log, evicted - 1)
        decreases |tail|
      {
        EvictOldest();
      }
    }

    /** `tail_covers`: exactly when every event after `number` is still in the ring. */
    method TailCovers(number: nat) returns (covers: bool)
      requires Valid()
      ensures covers <==> evicted <= number <= |log|
    {
      if number > last { return false; }
      if number == last { return true; }
      if tail == [] { return false; }
      return tail[0].number <= number + 1;
    }

    /** The ring frames a resuming client is sent: the events after its watermark, in order, none missing. */
    method Replay(number: nat) returns (frames: seq<Frame<E>>)
      requires Valid()
      ensures evicted <= number <= |log| ==>
        |frames| == |log| - number
        && forall k :: 0 <= k < |frames| ==> frames[k].number == number + k + 1 && frames[k].ev == log[number + k]
    {
      frames := [];
      ghost var skipped := if evicted <= number <= last then number - evicted else 0;
      for i := 0 to |tail|
        invariant evicted <= number <= last ==>
          |frames| == (if i <= skipped then 0 else i - skipped)
          && forall k :: 0 <= k < |frames| ==> frames[k] == tail[skipped + k]
      {
        if tail[i].number > number {
          frames := frames + [tail[i]];
        }
      }
    }

    /** `build_seed`: the coalesced history, whatever the ring has evicted so far. */
    method BuildSeed() returns (epoch: nat, number: nat, events: seq<E>)
      requires Valid() && KeepsNeighbours(merge)
      ensures epoch == this.epoch && number == |log|
      ensures events == Coalesced(merge, seed + log)
    {
      epoch, number := this.epoch, last;
      var all := compacted;
      for i := 0 to |tail|
        invariant all == compacted + log[evicted..evicted + i]
      {
        all := all + [tail[i].ev];
      }
      events := CoalesceEvents(merge, all);
      SeedOverCut(merge, seed, log, evicted);
    }
  }
}
