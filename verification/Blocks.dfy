/** The circular-buffer block of the single-producer/single-consumer queue, as a
    value, and what a list of blocks holds.

    A block keeps one slot unused, so `front == tail` always means "empty".
    Indices wrap at `size`; the source masks with `size - 1`, the block sizes being
    powers of two (see Bits.MaskIsMod). */
module Blocks {

  datatype Block<T> = Block(
    front: nat,       // next slot to read; written by the consumer only
    tail: nat,        // next slot to fill; written by the producer only
    localTail: nat,   // the consumer's last reading of tail
    localFront: nat,  // the producer's last reading of front
    next: nat,        // identity of the next block in the circle
    size: nat,        // number of slots
    data: seq<T>,     // slot contents, also of slots that hold no object
    live: seq<bool>   // whether an object has been constructed in the slot and not yet destroyed
  )

  /** The index after `i`. */
  function Next(i: nat, n: nat): nat {
    if i + 1 == n then 0 else i + 1
  }

  /** How many steps of Next lead from `a` to `b`. */
  function Dist(a: nat, b: nat, n: nat): nat
    requires a < n && b < n
  {
    if a <= b then b - a else b + n - a
  }

  /** The index `k` steps after `i`. */
  function Slot(i: nat, k: nat, n: nat): nat {
    if i + k < n then i + k else if i + k < 2 * n then i + k - n else 0
  }

  /** The index invariant of a block: both shadows are stale readings that never
      reach past the true indices. */
  ghost predicate Wf<T>(b: Block<T>) {
    && 2 <= b.size == |b.data| == |b.live|
    && b.front < b.size && b.tail < b.size && b.localTail < b.size && b.localFront < b.size
    && Dist(b.front, b.localTail, b.size) <= Dist(b.front, b.tail, b.size)
    && Dist(b.front, b.tail, b.size) <= Dist(b.localFront, b.tail, b.size)
  }

  /** Number of queued elements in a block. */
  ghost function Count<T>(b: Block<T>): nat
    requires Wf(b)
  {
    Dist(b.front, b.tail, b.size)
  }

  /** Slot `k` lies between front and tail. */
  ghost predicate InRange<T>(b: Block<T>, k: nat)
    requires Wf(b) && k < b.size
  {
    Dist(b.front, k, b.size) < Count(b)
  }

  ghost predicate Full<T>(b: Block<T>)
    requires Wf(b)
  {
    Count(b) == b.size - 1
  }

  /** The queued elements of a block, oldest first. */
  ghost function Items<T>(b: Block<T>): (s: seq<T>)
    requires Wf(b)
    ensures |s| == Count(b)
  {
    seq(Count(b), k requires 0 <= k < Count(b) => b.data[Slot(b.front, k, b.size)])
  }

  lemma ItemsPush<T>(b: Block<T>, c: Block<T>)
    requires Wf(b) && Wf(c) && Count(b) < b.size - 1
    requires c.front == b.front && c.size == b.size && c.data == b.data
    requires c.tail == Next(b.tail, b.size)
    ensures Items(c) == Items(b) + [b.data[b.tail]]
  {
  }

  lemma ItemsPop<T>(b: Block<T>, c: Block<T>)
    requires Wf(b) && Wf(c) && Count(b) > 0
    requires c.tail == b.tail && c.size == b.size && c.data == b.data
    requires c.front == Next(b.front, b.size)
    ensures Items(b) == [b.data[b.front]] + Items(c)
  {
  }

  /** Writing the slot at the tail does not disturb what the block holds. */
  lemma ItemsWrite<T>(b: Block<T>, c: Block<T>, x: T)
    requires Wf(b) && Wf(c)
    requires c.front == b.front && c.tail == b.tail && c.size == b.size
    requires c.data == b.data[b.tail := x]
    ensures Items(c) == Items(b)
  {
  }

  ghost predicate Ids(ids: seq<nat>, n: nat) {
    forall i :: 0 <= i < |ids| ==> ids[i] < n
  }

  ghost predicate AllWf<T>(blocks: seq<Block<T>>) {
    forall i :: 0 <= i < |blocks| ==> Wf(blocks[i])
  }

  /** What the blocks named by `ids` hold, in that order. */
  ghost function Flat<T>(blocks: seq<Block<T>>, ids: seq<nat>): seq<T>
    requires AllWf(blocks) && Ids(ids, |blocks|)
  {
    if ids == [] then [] else Items(blocks[ids[0]]) + Flat(blocks, ids[1..])
  }

  lemma {:induction false} FlatAppend<T>(blocks: seq<Block<T>>, ids: seq<nat>, more: seq<nat>)
    requires AllWf(blocks) && Ids(ids, |blocks|) && Ids(more, |blocks|)
    ensures Flat(blocks, ids + more) == Flat(blocks, ids) + Flat(blocks, more)
  {
    if ids == [] {
      assert ids + more == more;
    } else {
      assert (ids + more)[1..] == ids[1..] + more;
      FlatAppend(blocks, ids[1..], more);
    }
  }

  lemma {:induction false} FlatFrame<T>(blocks: seq<Block<T>>, blocks': seq<Block<T>>, ids: seq<nat>)
    requires AllWf(blocks) && Ids(ids, |blocks|)
    requires AllWf(blocks') && Ids(ids, |blocks'|)
    requires forall i :: 0 <= i < |ids| ==> Items(blocks[ids[i]]) == Items(blocks'[ids[i]])
    ensures Flat(blocks, ids) == Flat(blocks', ids)
  {
    if ids != [] {
      assert Items(blocks[ids[0]]) == Items(blocks'[ids[0]]);
      forall i | 0 <= i < |ids[1..]|
        ensures Items(blocks[ids[1..][i]]) == Items(blocks'[ids[1..][i]])
      {
        assert ids[1..][i] == ids[i + 1];
      }
      FlatFrame(blocks, blocks', ids[1..]);
    }
  }

  /** Capacity of the blocks named by `ids`: each wastes one slot. */
  ghost function Room<T>(blocks: seq<Block<T>>, ids: seq<nat>): nat
    requires AllWf(blocks) && Ids(ids, |blocks|)
  {
    if ids == [] then 0 else blocks[ids[0]].size - 1 + Room(blocks, ids[1..])
  }

  lemma {:induction false} RoomAppend<T>(blocks: seq<Block<T>>, ids: seq<nat>, more: seq<nat>)
    requires AllWf(blocks) && Ids(ids, |blocks|) && Ids(more, |blocks|)
    ensures Room(blocks, ids + more) == Room(blocks, ids) + Room(blocks, more)
  {
    if ids == [] {
      assert ids + more == more;
    } else {
      assert (ids + more)[1..] == ids[1..] + more;
      RoomAppend(blocks, ids[1..], more);
    }
  }

  lemma {:induction false} RoomFrame<T>(blocks: seq<Block<T>>, blocks': seq<Block<T>>, ids: seq<nat>)
    requires AllWf(blocks) && Ids(ids, |blocks|)
    requires AllWf(blocks') && Ids(ids, |blocks'|)
    requires forall i :: 0 <= i < |ids| ==> blocks[ids[i]].size == blocks'[ids[i]].size
    ensures Room(blocks, ids) == Room(blocks', ids)
  {
    if ids != [] {
      forall i | 0 <= i < |ids[1..]|
        ensures blocks[ids[1..][i]].size == blocks'[ids[1..][i]].size
      {
        assert ids[1..][i] == ids[i + 1];
      }
      RoomFrame(blocks, blocks', ids[1..]);
    }
  }

  /** Full blocks hold as many elements as they have room for. */
  lemma {:induction false} FullFlat<T>(blocks: seq<Block<T>>, ids: seq<nat>)
    requires AllWf(blocks) && Ids(ids, |blocks|)
    requires forall i :: 0 <= i < |ids| ==> Full(blocks[ids[i]])
    ensures |Flat(blocks, ids)| == Room(blocks, ids)
  {
    if ids != [] {
      assert Full(blocks[ids[0]]);
      forall i | 0 <= i < |ids[1..]|
        ensures Full(blocks[ids[1..][i]])
      {
        assert ids[1..][i] == ids[i + 1];
      }
      FullFlat(blocks, ids[1..]);
    }
  }
}
