/** The steps of the producer, one by one: each keeps the invariant. */
module SpscProducer {
  import opened Blocks
  import opened SpscSteps

  lemma SameQueue<T>(s: State<T>, t: State<T>)
    requires Shape(s) && Shape(t) && t.ring == s.ring && t.ti == s.ti
    requires forall i :: 0 <= i <= s.ti ==> Items(t.blocks[s.ring[i]]) == Items(s.blocks[s.ring[i]])
    ensures Queued(t) == Queued(s)
  {
    FlatFrame(s.blocks, t.blocks, s.ring[..s.ti + 1]);
  }

  lemma SameRoom<T>(s: State<T>, t: State<T>)
    requires Shape(s) && Shape(t) && t.ring == s.ring
    requires forall i :: 0 <= i < |s.ring| ==> t.blocks[s.ring[i]].size == s.blocks[s.ring[i]].size
    ensures Room(t.blocks, t.ring) == Room(s.blocks, s.ring)
  {
    RoomFrame(s.blocks, t.blocks, s.ring);
  }

  /** The parts of the state that a step which only moves a program counter keeps. */
  ghost predicate SameMemory<T>(s: State<T>, t: State<T>) {
    && t.blocks == s.blocks && t.frontBlock == s.frontBlock && t.tailBlock == s.tailBlock
    && t.largest == s.largest && t.maxBlock == s.maxBlock && t.cap == s.cap
    && t.enq == s.enq && t.deq == s.deq && t.ring == s.ring && t.ti == s.ti
  }

  ghost predicate Settled<T>(p: Producer<T>) {
    !p.PPublish? && !p.PStoreTail? && !p.PNextStoreTail?
  }

  lemma LocalLifetimes<T>(s: State<T>, t: State<T>)
    requires AllWf(s.blocks) && Lifetimes(s) && t.blocks == s.blocks
    requires t.prod == s.prod || (Settled(s.prod) && Settled(t.prod))
    requires t.cons == s.cons || (!s.cons.CStoreFront? && !t.cons.CStoreFront?)
    ensures Lifetimes(t)
  {
    forall i, k | 0 <= i < |t.blocks| && 0 <= k < t.blocks[i].size
      ensures t.blocks[i].live[k] <==> ShouldLive(t, i, k)
    {
      assert s.blocks[i].live[k] <==> ShouldLive(s, i, k);
    }
  }

  /** What the producer may change under the consumer's feet. */
  ghost predicate ProducerFrame<T>(s: State<T>, t: State<T>)
    requires Shape(s) && Shape(t)
  {
    && t.cons == s.cons && t.frontBlock == s.frontBlock && t.deq == s.deq && |s.blocks| <= |t.blocks|
    && s.ti <= t.ti && (s.cons.CIdle? || (s.sawEmpty ==> t.sawEmpty))
    && Queued(s) <= Queued(t)
    && var fb := s.frontBlock;
       && t.blocks[fb].front == s.blocks[fb].front && t.blocks[fb].localTail == s.blocks[fb].localTail
       && (Count(s.blocks[fb]) > 0 ==>
            && Count(t.blocks[fb]) > 0
            && t.blocks[fb].data[s.blocks[fb].front] == s.blocks[fb].data[s.blocks[fb].front])
       && (s.ti > 0 ==>
            && t.blocks[fb].tail == s.blocks[fb].tail && t.blocks[fb].size == s.blocks[fb].size
            && t.ring[1] == s.ring[1]
            && t.blocks[s.ring[1]].front == s.blocks[s.ring[1]].front
            && t.blocks[s.ring[1]].localTail == s.blocks[s.ring[1]].localTail
            && Count(t.blocks[s.ring[1]]) > 0)
  }

  lemma ConsumerKept<T>(s: State<T>, t: State<T>)
    requires Inv(s) && Shape(t) && ProducerFrame(s, t)
    ensures ConsumerOk(t)
  {
  }

  /** `t` is `m` with the history of the step from `s` to `m` brought up to date. */
  ghost predicate Observed<T>(s: State<T>, m: State<T>, t: State<T>) {
    && t == m.(sawEmpty := t.sawEmpty, sawFull := t.sawFull)
    && (s.sawEmpty && !s.cons.CIdle? ==> t.sawEmpty)
    && (s.sawFull && !s.prod.PIdle? ==> t.sawFull)
    && (Shape(t) ==> (Queued(t) == [] ==> t.sawEmpty) && (|Queued(t)| >= t.cap ==> t.sawFull))
  }

  // ---- Producer steps that only move the program counter ----

  /** The producer moved its program counter and nothing else. */
  ghost predicate ProducerLocal<T>(s: State<T>, t: State<T>)
  {
    && SameMemory(s, t) && t.cons == s.cons && (s.cons.CIdle? || (s.sawEmpty ==> t.sawEmpty))
    && Settled(s.prod) && Settled(t.prod) && Shape(t) && ProducerOk(t)
  }

  lemma ProducerLocalKeeps<T>(s: State<T>, t: State<T>)
    requires Inv(s) && ProducerLocal(s, t)
    ensures Inv(t)
  {
    assert Queued(t) == Queued(s);
    LocalLifetimes(s, t);
    ConsumerKept(s, t);
  }

  lemma PIdleMoves<T>(s: State<T>, t: State<T>, e: T, can: bool)
    requires Inv(s) && s.prod == PIdle
    requires Observed(s, s.(prod := PTailBlock(e, can)), t)
    ensures ProducerLocal(s, t)
  {
    hide Queued, Lifetimes, Capacity, Arc, ConsumerOk;
  }

  lemma PTailBlockMoves<T>(s: State<T>, t: State<T>, e: T, can: bool)
    requires Inv(s) && s.prod == PTailBlock(e, can)
    requires Observed(s, s.(prod := PTail(e, can, s.tailBlock)), t)
    ensures ProducerLocal(s, t)
  {
    hide Queued, Lifetimes, Capacity, Arc, ConsumerOk;
  }

  lemma PTailMoves<T>(s: State<T>, t: State<T>, e: T, can: bool, tb: nat)
    requires Inv(s) && s.prod == PTail(e, can, tb)
    requires Observed(s, AtPTail(s, e, can, tb), t)
    ensures ProducerLocal(s, t)
  {
    hide Queued, Lifetimes, Capacity, Arc, ConsumerOk;
  }

  lemma PNextMoves<T>(s: State<T>, t: State<T>, e: T, can: bool, tb: nat)
    requires Inv(s) && s.prod == PNext(e, can, tb)
    requires Observed(s, AtPNext(s, e, can, tb), t)
    ensures ProducerLocal(s, t)
  {
    hide Queued, Lifetimes, Capacity, Arc, ConsumerOk;
  }

  lemma PNextAgainMoves<T>(s: State<T>, t: State<T>, e: T, tb: nat)
    requires Inv(s) && s.prod == PNextAgain(e, tb)
    requires Observed(s, AtPNextAgain(s, e, tb), t)
    ensures ProducerLocal(s, t)
  {
    hide Queued, Lifetimes, Capacity, Arc, ConsumerOk;
    assert Linked(s.blocks, s.ring, s.ti);
  }

  lemma PDoneMoves<T>(s: State<T>, t: State<T>, can: bool, ok: bool)
    requires Inv(s) && s.prod == PDone(can, ok)
    requires Observed(s, s.(prod := PIdle), t)
    ensures ProducerLocal(s, t)
  {
    hide Queued, Lifetimes, Capacity, Arc, ConsumerOk;
  }

  lemma {:induction false} ArcRoom<T>(s: State<T>)
    requires Shape(s) && Arc(s) && Capacity(s)
    requires s.ti == |s.ring| - 1 && s.ti > 0 && Full(s.blocks[s.tailBlock])
    ensures |Queued(s)| >= s.cap
  {
    var rest := s.ring[1..];
    assert s.ring[..s.ti + 1] == s.ring == [s.ring[0]] + rest;
    FlatAppend(s.blocks, [s.ring[0]], rest);
    RoomAppend(s.blocks, [s.ring[0]], rest);
    forall i | 0 <= i < |rest|
      ensures Full(s.blocks[rest[i]])
    {
      assert rest[i] == s.ring[i + 1];
    }
    FullFlat(s.blocks, rest);
    assert Room(s.blocks, [s.ring[0]]) == s.blocks[s.ring[0]].size - 1;
    assert Room(s.blocks, s.ring) - (s.blocks[s.ring[0]].size - 1) >= s.cap;
  }

  lemma SpareOrNot<T>(s: State<T>)
    requires Shape(s)
    ensures s.blocks[s.tailBlock].next == s.frontBlock <==> s.ti == |s.ring| - 1
  {
    assert Linked(s.blocks, s.ring, s.ti);
  }

  /** With the tail block full and the front block right after it, the queue holds
      all it was built for (with one block, it was seen to). */
  lemma NoSpare<T>(s: State<T>)
    requires Shape(s) && Arc(s) && Capacity(s) && TailBlockFull(s)
    requires s.blocks[s.tailBlock].next == s.frontBlock
    ensures s.sawFull || |Queued(s)| >= s.cap
  {
    SpareOrNot(s);
    if s.ti > 0 {
      ArcRoom(s);
    }
  }

  lemma PFrontBlockMoves<T>(s: State<T>, t: State<T>, e: T, can: bool, tb: nat, n: nat)
    requires Inv(s) && s.prod == PFrontBlock(e, can, tb, n)
    requires Observed(s, AtPFrontBlock(s, e, can, tb, n), t)
    ensures ProducerLocal(s, t)
  {
    hide Flat, Items, Room, Lifetimes, ConsumerOk, Arc, Capacity, Distinct, Circle;
    SpareOrNot(s);
    if n == s.frontBlock {
      NoSpare(s);
    }
    assert Queued(t) == Queued(s);
  }

  // ---- Steps that refresh a shadow index ----

  /** Everything but the blocks, a program counter and the history is the same. */
  ghost predicate SameRing<T>(s: State<T>, t: State<T>) {
    && t.frontBlock == s.frontBlock && t.tailBlock == s.tailBlock
    && t.largest == s.largest && t.maxBlock == s.maxBlock && t.cap == s.cap
    && t.enq == s.enq && t.deq == s.deq && t.ring == s.ring && t.ti == s.ti
  }

  /** The blocks differ at most in their shadow indices. */
  ghost predicate ShadowsOnly<T>(blocks: seq<Block<T>>, blocks': seq<Block<T>>) {
    && |blocks'| == |blocks|
    && forall i :: 0 <= i < |blocks| ==>
         blocks'[i] == blocks[i].(localFront := blocks'[i].localFront, localTail := blocks'[i].localTail)
  }

  lemma ShadowsKeepShape<T>(s: State<T>, t: State<T>)
    requires Shape(s) && SameRing(s, t) && AllWf(t.blocks) && ShadowsOnly(s.blocks, t.blocks)
    ensures Shape(t) && Queued(t) == Queued(s) && Room(t.blocks, t.ring) == Room(s.blocks, s.ring)
  {
    forall i | 0 <= i < |t.ring|
      ensures Linked(t.blocks, t.ring, i)
    {
      assert Linked(s.blocks, s.ring, i);
    }
    SameQueue(s, t);
    SameRoom(s, t);
  }

  lemma ShadowsKeepLifetimes<T>(s: State<T>, t: State<T>)
    requires AllWf(s.blocks) && Lifetimes(s) && AllWf(t.blocks) && ShadowsOnly(s.blocks, t.blocks)
    requires t.prod == s.prod || (Settled(s.prod) && Settled(t.prod))
    requires t.cons == s.cons || (!s.cons.CStoreFront? && !t.cons.CStoreFront?)
    ensures Lifetimes(t)
  {
    forall i, k | 0 <= i < |t.blocks| && 0 <= k < t.blocks[i].size
      ensures t.blocks[i].live[k] <==> ShouldLive(t, i, k)
    {
      assert s.blocks[i].live[k] <==> ShouldLive(s, i, k);
    }
  }

  lemma ShadowsKeepRest<T>(s: State<T>, t: State<T>)
    requires Inv(s) && SameRing(s, t) && AllWf(t.blocks) && ShadowsOnly(s.blocks, t.blocks)
    requires t.prod == s.prod || (Settled(s.prod) && Settled(t.prod))
    requires t.cons == s.cons || (!s.cons.CStoreFront? && !t.cons.CStoreFront?)
    ensures Shape(t) && Queued(t) == Queued(s) && Arc(t) && Lifetimes(t) && Capacity(t) && Fifo(t)
  {
    hide Flat, Items, Room, Lifetimes, Distinct, Linked, ConsumerOk, ProducerOk;
    ShadowsKeepShape(s, t);
    ShadowsKeepLifetimes(s, t);
  }

  /** The producer rereads the front index of block `n`. */
  ghost predicate RereadFront<T>(s: State<T>, t: State<T>, n: nat)
    requires n < |s.blocks|
  {
    && t.blocks == s.blocks[n := s.blocks[n].(localFront := s.blocks[n].front)]
    && SameRing(s, t) && t.cons == s.cons && (s.cons.CIdle? || (s.sawEmpty ==> t.sawEmpty))
    && Settled(s.prod) && Settled(t.prod)
  }

  lemma RereadFrontKeeps<T>(s: State<T>, t: State<T>, n: nat)
    requires Inv(s) && n < |s.blocks| && RereadFront(s, t, n)
    ensures Shape(t) && Queued(t) == Queued(s) && Arc(t) && Lifetimes(t) && Capacity(t) && Fifo(t)
    ensures ConsumerOk(t)
  {
    hide Flat, Items, Room, Linked, Distinct, Lifetimes, Capacity, ConsumerOk, ProducerOk;
    assert ShadowsOnly(s.blocks, t.blocks) && AllWf(t.blocks);
    ShadowsKeepRest(s, t);
    ConsumerKept(s, t);
  }

  lemma PFrontKeeps<T>(s: State<T>, t: State<T>, e: T, can: bool, tb: nat, bt: nat, nt: nat)
    requires Inv(s) && s.prod == PFront(e, can, tb, bt, nt)
    requires Observed(s, AtPFront(s, e, can, tb, bt, nt), t)
    ensures Inv(t)
  {
    hide Flat, Items, Room, Linked, Distinct, Lifetimes, Capacity, ConsumerOk, Arc;
    RereadFrontKeeps(s, t, tb);
    if t.prod.PNext? && |s.ring| == 1 {
      OneBlockFull(t);
    }
  }

  lemma OneBlockFull<T>(s: State<T>)
    requires Shape(s) && Capacity(s) && |s.ring| == 1 && Full(s.blocks[s.tailBlock])
    ensures |Queued(s)| >= s.cap
  {
    var ids := s.ring[..s.ti + 1];
    assert ids == [s.tailBlock] && ids[1..] == [];
    FullFlat(s.blocks, ids);
  }

  lemma PNextFrontKeeps<T>(s: State<T>, t: State<T>, e: T, n: nat)
    requires Inv(s) && s.prod == PNextFront(e, n)
    requires Observed(s, AtPNextFront(s, e, n), t)
    ensures Inv(t)
  {
    hide Flat, Items, Room, Linked, Distinct, Lifetimes, Capacity, ConsumerOk, Arc;
    RereadFrontKeeps(s, t, n);
  }

  lemma SpareEmpty<T>(s: State<T>, n: nat)
    requires Shape(s) && Arc(s) && IsSpare(s, n) && !s.prod.PPublish?
    ensures s.blocks[n].front == s.blocks[n].tail
  {
  }

  lemma PNextTailKeeps<T>(s: State<T>, t: State<T>, e: T, n: nat, nf: nat)
    requires Inv(s) && s.prod == PNextTail(e, n, nf)
    requires Observed(s, AtPNextTail(s, e, n, nf), t)
    ensures Inv(t)
  {
    hide Flat, Items, Room, Linked, Distinct, Lifetimes, Capacity, ConsumerOk, Arc;
    SpareEmpty(s, n);
    RereadFrontKeeps(s, t, n);
  }

  // ---- Steps that fill the tail block or the spare block ----

  /** The producer constructs `e` in the slot at the tail of block `n`. */
  ghost predicate Constructed<T>(s: State<T>, t: State<T>, n: nat, e: T)
    requires AllWf(s.blocks) && n < |s.blocks|
  {
    var b := s.blocks[n];
    && t.blocks == s.blocks[n := b.(data := b.data[b.tail := e], live := b.live[b.tail := true])]
    && SameRing(s, t) && t.cons == s.cons && (s.cons.CIdle? || (s.sawEmpty ==> t.sawEmpty))
  }

  lemma ConstructedShape<T>(s: State<T>, t: State<T>, n: nat, e: T)
    requires Inv(s) && n < |s.blocks| && Constructed(s, t, n, e)
    ensures Shape(t) && Queued(t) == Queued(s) && Room(t.blocks, t.ring) == Room(s.blocks, s.ring)
    ensures forall i :: 0 <= i < |s.blocks| ==> Count(t.blocks[i]) == Count(s.blocks[i])
  {
    hide Lifetimes, Arc, Capacity, ConsumerOk, ProducerOk, Room, Flat, Fifo;
    ItemsWrite(s.blocks[n], t.blocks[n], e);
    forall i | 0 <= i < |t.ring|
      ensures Linked(t.blocks, t.ring, i)
    {
      assert Linked(s.blocks, s.ring, i);
    }
    SameQueue(s, t);
    SameRoom(s, t);
  }

  lemma ConstructedLifetimes<T>(s: State<T>, t: State<T>, n: nat, e: T)
    requires AllWf(s.blocks) && AllWf(t.blocks) && Lifetimes(s) && n < |s.blocks| && Constructed(s, t, n, e)
    requires Settled(s.prod)
    requires || (t.prod.PStoreTail? && t.prod.tb == n && t.prod.bt == s.blocks[n].tail)
             || (t.prod.PNextStoreTail? && t.prod.n == n && t.prod.nt == s.blocks[n].tail)
    ensures Lifetimes(t)
  {
    forall i, k | 0 <= i < |t.blocks| && 0 <= k < t.blocks[i].size
      ensures t.blocks[i].live[k] <==> ShouldLive(t, i, k)
    {
      assert s.blocks[i].live[k] <==> ShouldLive(s, i, k);
      assert InRange(t.blocks[i], k) <==> InRange(s.blocks[i], k);
    }
  }

  lemma ConstructedKeeps<T>(s: State<T>, t: State<T>, n: nat, e: T)
    requires Inv(s) && n < |s.blocks| && Constructed(s, t, n, e) && Settled(s.prod)
    requires || (t.prod.PStoreTail? && t.prod.tb == n && t.prod.bt == s.blocks[n].tail)
             || (t.prod.PNextStoreTail? && t.prod.n == n && t.prod.nt == s.blocks[n].tail)
    ensures Shape(t) && Queued(t) == Queued(s) && Arc(t) && Lifetimes(t) && Capacity(t) && Fifo(t)
    ensures ConsumerOk(t)
  {
    hide Flat, Items, Room, Distinct, Linked, Lifetimes, ConsumerOk, ProducerOk;
    ConstructedShape(s, t, n, e);
    ConstructedLifetimes(s, t, n, e);
    ConsumerKept(s, t);
  }

  lemma PConstructKeeps<T>(s: State<T>, t: State<T>, e: T, tb: nat, bt: nat, nt: nat)
    requires Inv(s) && s.prod == PConstruct(e, tb, bt, nt)
    requires Observed(s, Put(s, tb, bt, e).(prod := PStoreTail(e, tb, bt, nt)), t)
    ensures Inv(t)
  {
    hide Flat, Items, Room, Linked, Distinct, Lifetimes, Capacity, ConsumerOk, Arc;
    ConstructedKeeps(s, t, tb, e);
  }

  lemma PNextConstructKeeps<T>(s: State<T>, t: State<T>, e: T, n: nat, nt: nat)
    requires Inv(s) && s.prod == PNextConstruct(e, n, nt)
    requires Observed(s, Put(s, n, nt, e).(prod := PNextStoreTail(e, n, nt)), t)
    ensures Inv(t)
  {
    hide Flat, Items, Room, Linked, Distinct, Lifetimes, Capacity, ConsumerOk, Arc;
    ConstructedKeeps(s, t, n, e);
  }

  // ---- Publication: the tail index moves ----

  lemma StoredTailWf<T>(b: Block<T>, c: Block<T>, e: T)
    requires Wf(b) && Next(b.tail, b.size) != b.localFront && b.data[b.tail] == e
    requires c == b.(tail := Next(b.tail, b.size))
    ensures Wf(c) && Count(c) == Count(b) + 1 && Items(c) == Items(b) + [e]
    ensures forall k :: 0 <= k < b.size ==> (InRange(c, k) <==> InRange(b, k) || k == b.tail)
  {
    ItemsPush(b, c);
  }

  lemma SameLinks<T>(s: State<T>, t: State<T>)
    requires Shape(s) && SameRing(s, t) && |t.blocks| == |s.blocks|
    requires forall i :: 0 <= i < |s.blocks| ==> t.blocks[i].next == s.blocks[i].next
    ensures Circle(t.blocks, t.ring)
  {
    forall i | 0 <= i < |t.ring|
      ensures Linked(t.blocks, t.ring, i)
    {
      assert Linked(s.blocks, s.ring, i);
    }
  }

  lemma PStoreTailShape<T>(s: State<T>, t: State<T>, e: T, tb: nat, bt: nat, nt: nat)
    requires Inv(s) && s.prod == PStoreTail(e, tb, bt, nt)
    requires Observed(s, AtPStoreTail(s, e, tb, nt), t)
    ensures Shape(t) && Queued(t) == Queued(s) + [e] && Room(t.blocks, t.ring) == Room(s.blocks, s.ring)
    ensures forall i :: 0 <= i < |s.blocks| && i != tb ==> t.blocks[i] == s.blocks[i]
    ensures Count(t.blocks[tb]) == Count(s.blocks[tb]) + 1
  {
    hide Lifetimes, Arc, Capacity, ConsumerOk, Room, Flat, Fifo;
    StoredTailWf(s.blocks[tb], t.blocks[tb], e);
    SameLinks(s, t.(enq := s.enq));
    var most := s.ring[..s.ti];
    assert s.ring[..s.ti + 1] == most + [tb];
    FlatAppend(s.blocks, most, [tb]);
    FlatAppend(t.blocks, most, [tb]);
    FlatFrame(s.blocks, t.blocks, most);
    FlatOne(s.blocks, tb);
    FlatOne(t.blocks, tb);
    SameRoom(s, t);
  }

  lemma FlatOne<T>(blocks: seq<Block<T>>, i: nat)
    requires AllWf(blocks) && i < |blocks|
    ensures Flat(blocks, [i]) == Items(blocks[i])
  {
  }

  lemma PStoreTailLifetimes<T>(s: State<T>, t: State<T>, e: T, tb: nat, bt: nat, nt: nat)
    requires AllWf(s.blocks) && Lifetimes(s) && s.prod == PStoreTail(e, tb, bt, nt) && AllWf(t.blocks)
    requires tb < |s.blocks| && t.blocks == s.blocks[tb := s.blocks[tb].(tail := nt)] && Settled(t.prod)
    requires t.cons == s.cons
    requires forall k :: 0 <= k < s.blocks[tb].size ==>
        (InRange(t.blocks[tb], k) <==> InRange(s.blocks[tb], k) || k == bt)
    requires s.cons.CStoreFront? && s.cons.fb == tb ==> s.cons.bf != bt
    ensures Lifetimes(t)
  {
    forall i, k | 0 <= i < |t.blocks| && 0 <= k < t.blocks[i].size
      ensures t.blocks[i].live[k] <==> ShouldLive(t, i, k)
    {
      assert s.blocks[i].live[k] <==> ShouldLive(s, i, k);
    }
  }

  lemma PStoreTailFrame<T>(s: State<T>, t: State<T>, e: T, tb: nat, bt: nat, nt: nat)
    requires Inv(s) && s.prod == PStoreTail(e, tb, bt, nt) && Shape(t)
    requires Observed(s, AtPStoreTail(s, e, tb, nt), t)
    requires Queued(t) == Queued(s) + [e] && Count(t.blocks[tb]) == Count(s.blocks[tb]) + 1
    ensures ProducerFrame(s, t)
  {
    hide Flat, Items, Room, Linked, Lifetimes, ConsumerOk, Capacity;
    assert s.ti > 0 ==> s.ring[0] != s.ring[s.ti];
  }

  /** Blocks of the same sizes in the same circle have the same capacity. */
  lemma CapacityKept<T>(s: State<T>, t: State<T>)
    requires Shape(s) && Shape(t) && Capacity(s) && t.ring == s.ring && |t.blocks| == |s.blocks|
    requires forall i :: 0 <= i < |s.blocks| ==> t.blocks[i].size == s.blocks[i].size
    requires Room(t.blocks, t.ring) == Room(s.blocks, s.ring)
    requires t.cap == s.cap && t.maxBlock == s.maxBlock && t.largest == s.largest
    ensures Capacity(t)
  {
    hide Room, Linked, Distinct, Wf;
  }

  /** What the step itself says. */
  lemma PStoreTailStep<T>(s: State<T>, t: State<T>, e: T, tb: nat, bt: nat, nt: nat)
    requires Inv(s) && s.prod == PStoreTail(e, tb, bt, nt)
    requires Observed(s, AtPStoreTail(s, e, tb, nt), t)
    ensures tb == s.tailBlock < |s.blocks| && bt == s.blocks[tb].tail < |s.blocks[tb].data| &&
        s.blocks[tb].data[bt] == e
    ensures nt == Next(bt, s.blocks[tb].size) && nt != s.blocks[tb].localFront
    ensures t.blocks == s.blocks[tb := s.blocks[tb].(tail := nt)] && SameRing(s, t.(enq := s.enq))
    ensures t.enq == s.enq + [e] && t.cons == s.cons && t.prod == PDone(true, true)
    ensures s.cons.CStoreFront? && s.cons.fb == tb ==> s.cons.bf != bt
  {
    hide Flat, Items, Room, Distinct, Linked, Lifetimes, Arc, Capacity, Queued;
  }

  lemma PStoreTailKeeps<T>(s: State<T>, t: State<T>, e: T, tb: nat, bt: nat, nt: nat)
    requires Inv(s) && s.prod == PStoreTail(e, tb, bt, nt)
    requires Observed(s, AtPStoreTail(s, e, tb, nt), t)
    ensures Inv(t)
  {
    hide Flat, Items, Room, Distinct, Linked, Lifetimes, ProducerFrame, Arc, Capacity, ConsumerOk, Observed;
    PStoreTailStep(s, t, e, tb, bt, nt);
    PStoreTailShape(s, t, e, tb, bt, nt);
    StoredTailWf(s.blocks[tb], t.blocks[tb], e);
    PStoreTailLifetimes(s, t, e, tb, bt, nt);
    PStoreTailFrame(s, t, e, tb, bt, nt);
    ConsumerKept(s, t);
    PStoreTailArc(s, t, tb);
    CapacityKept(s, t);
  }

  lemma PStoreTailArc<T>(s: State<T>, t: State<T>, tb: nat)
    requires Shape(s) && Shape(t) && Arc(s) && tb == s.tailBlock && SameRing(s, t.(enq := s.enq))
    requires Settled(s.prod) || s.prod.PStoreTail?
    requires |t.blocks| == |s.blocks| && forall i :: 0 <= i < |s.blocks| && i != tb ==> t.blocks[i] == s.blocks[i]
    requires Count(t.blocks[tb]) > 0
    ensures Arc(t)
  {
  }

  /** `t` differs from `s` in blocks off the arc only, so the queue holds the same. */
  lemma OffArc<T>(s: State<T>, t: State<T>, n: nat)
    requires Shape(s) && AllWf(t.blocks) && SameRing(s, t) && |t.blocks| == |s.blocks| && n < |s.blocks|
    requires forall i :: 0 <= i < |s.blocks| && i != n ==> t.blocks[i] == s.blocks[i]
    requires t.blocks[n].next == s.blocks[n].next && t.blocks[n].size == s.blocks[n].size
    requires forall i :: 0 <= i <= s.ti ==> s.ring[i] != n
    ensures Shape(t) && Queued(t) == Queued(s) && Room(t.blocks, t.ring) == Room(s.blocks, s.ring)
  {
    hide Flat, Items, Room;
    SameLinks(s, t);
    SameQueue(s, t);
    SameRoom(s, t);
  }

  lemma PNextStoreTailLifetimes<T>(s: State<T>, t: State<T>, e: T, n: nat, nt: nat)
    requires AllWf(s.blocks) && Lifetimes(s) && s.prod == PNextStoreTail(e, n, nt) && AllWf(t.blocks)
    requires t.prod.PPublish?
    requires n < |s.blocks| && t.blocks == s.blocks[n := s.blocks[n].(tail := Next(nt, s.blocks[n].size))]
    requires t.cons == s.cons
    requires forall k :: 0 <= k < s.blocks[n].size ==> (InRange(t.blocks[n], k) <==> InRange(s.blocks[n], k) || k == nt)
    requires s.cons.CStoreFront? ==> s.cons.fb != n
    ensures Lifetimes(t)
  {
    forall i, k | 0 <= i < |t.blocks| && 0 <= k < t.blocks[i].size
      ensures t.blocks[i].live[k] <==> ShouldLive(t, i, k)
    {
      assert s.blocks[i].live[k] <==> ShouldLive(s, i, k);
    }
  }

  lemma SpareOffArc<T>(s: State<T>, n: nat)
    requires Shape(s) && IsSpare(s, n)
    ensures forall i :: 0 <= i <= s.ti ==> s.ring[i] != n
    ensures forall i :: 0 <= i < |s.ring| && i != s.ti + 1 ==> s.ring[i] != n
    ensures n != s.frontBlock
  {
  }

  lemma PNextStoreTailShape<T>(s: State<T>, t: State<T>, e: T, n: nat, nt: nat)
    requires Inv(s) && s.prod == PNextStoreTail(e, n, nt)
    requires Observed(s, AtPNextStoreTail(s, e, n, nt), t)
    ensures Shape(t) && Queued(t) == Queued(s) && Room(t.blocks, t.ring) == Room(s.blocks, s.ring)
    ensures Items(t.blocks[n]) == [e] && Lifetimes(t)
  {
    hide Flat, Room, Distinct, Linked, Lifetimes, Capacity;
    SpareOffArc(s, n);
    assert Count(s.blocks[n]) == 0 && Items(s.blocks[n]) == [];
    StoredTailWf(s.blocks[n], t.blocks[n], e);
    OffArc(s, t, n);
    PNextStoreTailLifetimes(s, t, e, n, nt);
  }

  lemma PNextStoreTailFrame<T>(s: State<T>, t: State<T>, e: T, n: nat, nt: nat)
    requires Inv(s) && s.prod == PNextStoreTail(e, n, nt) && Shape(t) && Queued(t) == Queued(s)
    requires Observed(s, AtPNextStoreTail(s, e, n, nt), t)
    ensures ProducerFrame(s, t)
  {
    hide Flat, Items, Room, Distinct, Linked, Lifetimes, Capacity, ConsumerOk;
    SpareOffArc(s, n);
  }

  lemma PNextStoreTailArc<T>(s: State<T>, t: State<T>, e: T, n: nat)
    requires Shape(s) && Shape(t) && Arc(s) && IsSpare(s, n) && SameRing(s, t) && s.prod.PNextStoreTail?
    requires t.prod == PPublish(e, n)
    requires |t.blocks| == |s.blocks| && forall i :: 0 <= i < |s.blocks| && i != n ==> t.blocks[i] == s.blocks[i]
    ensures Arc(t)
  {
    SpareOffArc(s, n);
  }

  /** What the step itself says. */
  lemma PNextStoreTailStep<T>(s: State<T>, t: State<T>, e: T, n: nat, nt: nat)
    requires Inv(s) && s.prod == PNextStoreTail(e, n, nt)
    requires Observed(s, AtPNextStoreTail(s, e, n, nt), t)
    ensures IsSpare(s, n) && TailBlockFull(s) && n < |s.blocks| && SameRing(s, t) && t.prod == PPublish(e, n)
    ensures t.blocks == s.blocks[n := s.blocks[n].(tail := Next(nt, s.blocks[n].size))]
    ensures s.sawFull ==> t.sawFull
  {
    hide Flat, Items, Room, Distinct, Linked, Lifetimes, ConsumerOk, Arc, Capacity, Queued;
  }

  lemma PublishPending<T>(s: State<T>, t: State<T>, e: T, n: nat)
    requires Shape(s) && Shape(t) && SameRing(s, t) && t.prod == PPublish(e, n) && IsSpare(s, n) && TailBlockFull(s)
    requires |t.blocks| == |s.blocks| && forall i :: 0 <= i < |s.blocks| && i != n ==> t.blocks[i] == s.blocks[i]
    requires Items(t.blocks[n]) == [e] && (s.sawFull ==> t.sawFull)
    ensures ProducerOk(t)
  {
    hide Items, Linked;
    SpareOffArc(s, n);
  }

  lemma PNextStoreTailKeeps<T>(s: State<T>, t: State<T>, e: T, n: nat, nt: nat)
    requires Inv(s) && s.prod == PNextStoreTail(e, n, nt)
    requires Observed(s, AtPNextStoreTail(s, e, n, nt), t)
    ensures Inv(t)
  {
    hide Flat, Items, Room, Distinct, Linked, Lifetimes, ProducerFrame, ConsumerOk, Arc, Capacity;
    hide ProducerOk, Observed, IsSpare, TailBlockFull;
    PNextStoreTailStep(s, t, e, n, nt);
    PNextStoreTailShape(s, t, e, n, nt);
    PNextStoreTailFrame(s, t, e, n, nt);
    PNextStoreTailArc(s, t, e, n);
    CapacityKept(s, t);
    PublishPending(s, t, e, n);
    ConsumerKept(s, t);
  }

  lemma PPublishShape<T>(s: State<T>, t: State<T>, e: T, n: nat)
    requires Inv(s) && s.prod == PPublish(e, n)
    requires Observed(s, AtPPublish(s, e, n), t)
    ensures Shape(t) && Queued(t) == Queued(s) + [e] && Arc(t) && Capacity(t) && Fifo(t)
  {
    hide Flat, Items, Room, Distinct, Linked, Lifetimes, ConsumerOk, Arc;
    PublishedArc(s, t, e, n);
    assert s.ring[..t.ti + 1] == s.ring[..s.ti + 1] + [n];
    FlatAppend(s.blocks, s.ring[..s.ti + 1], [n]);
    FlatOne(s.blocks, n);
  }

  /** The published block joins the arc, and the tail block before it is full. */
  lemma PublishedArc<T>(s: State<T>, t: State<T>, e: T, n: nat)
    requires Inv(s) && s.prod == PPublish(e, n)
    requires Observed(s, AtPPublish(s, e, n), t)
    ensures Shape(t) && Arc(t)
  {
    hide Flat, Room, Distinct, Linked, Lifetimes, ConsumerOk, Capacity, Fifo, Queued;
    assert |Items(s.blocks[n])| == 1;
  }

  lemma PublishedLifetimes<T>(s: State<T>, t: State<T>)
    requires AllWf(s.blocks) && Lifetimes(s) && t.blocks == s.blocks && t.cons == s.cons
    requires s.prod.PPublish? && Settled(t.prod)
    ensures Lifetimes(t)
  {
    forall i, k | 0 <= i < |t.blocks| && 0 <= k < t.blocks[i].size
      ensures t.blocks[i].live[k] <==> ShouldLive(t, i, k)
    {
      assert s.blocks[i].live[k] <==> ShouldLive(s, i, k);
    }
  }

  lemma PPublishKeeps<T>(s: State<T>, t: State<T>, e: T, n: nat)
    requires Inv(s) && s.prod == PPublish(e, n)
    requires Observed(s, AtPPublish(s, e, n), t)
    ensures Inv(t)
  {
    hide Flat, Items, Room, Distinct, Linked, Lifetimes, ConsumerOk, Capacity;
    PPublishShape(s, t, e, n);
    PublishedLifetimes(s, t);
    ConsumerKept(s, t);
  }

  // ---- A new block ----

  lemma FilledBlockWf<T>(size: nat, e: T, junk: T)
    requires size >= 2
    ensures Wf(FilledBlock(size, e, junk)) && Items(FilledBlock(size, e, junk)) == [e]
  {
  }

  lemma Grown<T>(s: State<T>, t: State<T>, b: Block<T>)
    requires Shape(s) && Wf(b) && t.blocks == s.blocks + [b] && SameRing(s, t.(largest := s.largest))
    ensures Shape(t) && Queued(t) == Queued(s) && Room(t.blocks, t.ring) == Room(s.blocks, s.ring)
    ensures |s.blocks| !in t.ring
  {
    hide Flat, Items, Room;
    forall i | 0 <= i < |t.ring|
      ensures Linked(t.blocks, t.ring, i)
    {
      assert Linked(s.blocks, s.ring, i);
    }
    SameQueue(s, t);
    SameRoom(s, t);
  }

  lemma GrownLifetimes<T>(s: State<T>, t: State<T>, e: T, size: nat, junk: T)
    requires AllWf(s.blocks) && AllWf(t.blocks) && Lifetimes(s) && Settled(s.prod) && Settled(t.prod)
    requires t.cons == s.cons
    requires size >= 2 && t.blocks == s.blocks + [FilledBlock(size, e, junk)]
    requires s.cons.CStoreFront? ==> s.cons.fb < |s.blocks|
    ensures Lifetimes(t)
  {
    forall i, k | 0 <= i < |t.blocks| && 0 <= k < t.blocks[i].size
      ensures t.blocks[i].live[k] <==> ShouldLive(t, i, k)
    {
      if i < |s.blocks| {
        assert s.blocks[i].live[k] <==> ShouldLive(s, i, k);
      }
    }
  }

  lemma TakenFrom<T>(s: State<T>)
    requires Shape(s) && ConsumerOk(s)
    ensures s.cons.CStoreFront? ==> s.cons.fb == s.frontBlock && s.cons.fb < |s.blocks|
  {
  }

  lemma PAllocShape<T>(s: State<T>, t: State<T>, e: T, tb: nat, junk: T)
    requires Inv(s) && s.prod == PAlloc(e, tb)
    requires Observed(s, AtPAlloc(s, e, tb, true, junk), t)
    ensures Shape(t) && Queued(t) == Queued(s) && Room(t.blocks, t.ring) == Room(s.blocks, s.ring)
    ensures |s.blocks| !in t.ring && Items(t.blocks[|s.blocks|]) == [e] && Lifetimes(t)
    ensures t.blocks[..|s.blocks|] == s.blocks
    ensures t.largest >= s.largest && t.blocks[|s.blocks|].size == t.largest
  {
    hide Flat, Items, Room, Distinct, Linked, Lifetimes, ConsumerOk, Arc;
    var size := if s.largest >= s.maxBlock then s.largest else s.largest * 2;
    FilledBlockWf(size, e, junk);
    Grown(s, t, FilledBlock(size, e, junk));
    TakenFrom(s);
    GrownLifetimes(s, t, e, size, junk);
  }

  lemma PAllocRest<T>(s: State<T>, t: State<T>, e: T, tb: nat, junk: T)
    requires Inv(s) && s.prod == PAlloc(e, tb) && Shape(t)
    requires Observed(s, AtPAlloc(s, e, tb, true, junk), t)
    requires Queued(t) == Queued(s) && Room(t.blocks, t.ring) == Room(s.blocks, s.ring)
    requires t.blocks[..|s.blocks|] == s.blocks && t.largest >= s.largest
    ensures Arc(t) && Capacity(t) && ProducerFrame(s, t)
  {
    hide Flat, Items, Room, Distinct, Linked, Lifetimes, ConsumerOk, ProducerOk;
    assert forall i :: 0 <= i < |s.blocks| ==> t.blocks[i] == s.blocks[i];
  }

  lemma PAllocProducer<T>(s: State<T>, t: State<T>, e: T, tb: nat, junk: T)
    requires Inv(s) && s.prod == PAlloc(e, tb) && Shape(t) && Capacity(t)
    requires Observed(s, AtPAlloc(s, e, tb, true, junk), t)
    requires Queued(t) == Queued(s) && t.blocks[..|s.blocks|] == s.blocks
    requires |s.blocks| !in t.ring && Items(t.blocks[|s.blocks|]) == [e] && t.blocks[|s.blocks|].size == t.largest
    ensures ProducerOk(t) && Fifo(t)
  {
    hide Flat, Items, Room, Distinct, Linked, Lifetimes, ConsumerOk, Arc, Queued;
    assert t.blocks[tb] == s.blocks[tb];
  }

  lemma PAllocFails<T>(s: State<T>, t: State<T>, e: T, tb: nat, junk: T)
    requires Inv(s) && s.prod == PAlloc(e, tb)
    requires Observed(s, AtPAlloc(s, e, tb, false, junk), t)
    ensures ProducerLocal(s, t)
  {
    hide Queued, Lifetimes, Capacity, Arc, ConsumerOk;
  }

  lemma PAllocKeeps<T>(s: State<T>, t: State<T>, e: T, tb: nat, mallocOk: bool, junk: T)
    requires Inv(s) && s.prod == PAlloc(e, tb)
    requires Observed(s, AtPAlloc(s, e, tb, mallocOk, junk), t)
    ensures Inv(t)
  {
    hide Flat, Items, Room, Distinct, Linked, Lifetimes, ConsumerOk, ProducerOk, Arc, Capacity, Fifo, ProducerFrame;
    hide Queued;
    if mallocOk {
      PAllocShape(s, t, e, tb, junk);
      PAllocRest(s, t, e, tb, junk);
      PAllocProducer(s, t, e, tb, junk);
      ConsumerKept(s, t);
    } else {
      PAllocFails(s, t, e, tb, junk);
      ProducerLocalKeeps(s, t);
    }
  }

  lemma RelinkedLifetimes<T>(s: State<T>, t: State<T>)
    requires AllWf(s.blocks) && AllWf(t.blocks) && Lifetimes(s) && Settled(s.prod)
    requires Settled(t.prod) || t.prod.PPublish?
    requires t.cons == s.cons && |t.blocks| == |s.blocks|
    requires forall i :: 0 <= i < |s.blocks| ==> t.blocks[i] == s.blocks[i].(next := t.blocks[i].next)
    ensures Lifetimes(t)
  {
    forall i, k | 0 <= i < |t.blocks| && 0 <= k < t.blocks[i].size
      ensures t.blocks[i].live[k] <==> ShouldLive(t, i, k)
    {
      assert s.blocks[i].live[k] <==> ShouldLive(s, i, k);
    }
  }

  lemma PLinkNewShape<T>(s: State<T>, t: State<T>, e: T, tb: nat, n: nat)
    requires Inv(s) && s.prod == PLinkNew(e, tb, n)
    requires Observed(s, AtPLinkNew(s, e, tb, n), t)
    ensures SameRing(s, t) && t.cons == s.cons && t.prod == PLinkTail(e, tb, n)
    ensures |t.blocks| == |s.blocks| && t.blocks[n] == s.blocks[n].(next := s.blocks[tb].next)
    ensures forall i :: 0 <= i < |s.blocks| && i != n ==> t.blocks[i] == s.blocks[i]
    ensures Shape(t) && Queued(t) == Queued(s) && Room(t.blocks, t.ring) == Room(s.blocks, s.ring)
    ensures Items(t.blocks[n]) == [e]
  {
    hide Flat, Room, Distinct, Lifetimes, ConsumerOk, Arc, Capacity, Fifo;
    forall i | 0 <= i < |t.ring|
      ensures Linked(t.blocks, t.ring, i)
    {
      assert Linked(s.blocks, s.ring, i);
    }
    SameQueue(s, t);
    SameRoom(s, t);
  }

  lemma OffRing<T>(s: State<T>, n: nat)
    requires Shape(s) && n !in s.ring
    ensures n != s.tailBlock && n != s.frontBlock
    ensures forall i :: 0 <= i < |s.ring| ==> s.ring[i] != n
  {
  }

  /** Blocks outside the circle do not matter to the arc. */
  lemma OffRingArc<T>(s: State<T>, t: State<T>, n: nat)
    requires Shape(s) && Shape(t) && Arc(s) && SameRing(s, t) && n !in s.ring && !s.prod.PPublish?
    requires |t.blocks| == |s.blocks| && forall i :: 0 <= i < |s.blocks| && i != n ==> t.blocks[i] == s.blocks[i]
    ensures Arc(t)
  {
    hide Linked, Distinct;
    OffRing(s, n);
  }

  lemma PLinkNewFrame<T>(s: State<T>, t: State<T>, e: T, tb: nat, n: nat)
    requires Inv(s) && s.prod == PLinkNew(e, tb, n) && Shape(t) && Queued(t) == Queued(s)
    requires Observed(s, AtPLinkNew(s, e, tb, n), t)
    ensures ProducerFrame(s, t)
  {
    hide Flat, Items, Room, Distinct, Linked, Lifetimes, ConsumerOk, Capacity;
    OffRing(s, n);
  }

  lemma PLinkNewKeeps<T>(s: State<T>, t: State<T>, e: T, tb: nat, n: nat)
    requires Inv(s) && s.prod == PLinkNew(e, tb, n)
    requires Observed(s, AtPLinkNew(s, e, tb, n), t)
    ensures Inv(t)
  {
    hide Flat, Items, Room, Distinct, Linked, Lifetimes, ConsumerOk, ProducerFrame, Arc, Capacity;
    PLinkNewShape(s, t, e, tb, n);
    PLinkNewFrame(s, t, e, tb, n);
    OffRing(s, n);
    OffRingArc(s, t, n);
    CapacityKept(s, t);
    RelinkedLifetimes(s, t);
    ConsumerKept(s, t);
  }

  lemma InsertedRing(ring: seq<nat>, ring': seq<nat>, k: nat, n: nat)
    requires Distinct(ring) && n !in ring && k < |ring| && ring' == ring[..k + 1] + [n] + ring[k + 1..]
    ensures Distinct(ring') && |ring'| == |ring| + 1 && ring'[k + 1] == n
    ensures forall i :: 0 <= i <= k ==> ring'[i] == ring[i]
    ensures forall i :: k + 1 < i < |ring'| ==> ring'[i] == ring[i - 1]
  {
  }

  lemma InsertedCircle<T>(s: State<T>, t: State<T>, n: nat)
    requires Shape(s) && n < |s.blocks| && n !in s.ring
    requires s.blocks[n].next == s.blocks[s.tailBlock].next
    requires t.blocks == s.blocks[s.tailBlock := s.blocks[s.tailBlock].(next := n)]
    requires t.ring == s.ring[..s.ti + 1] + [n] + s.ring[s.ti + 1..]
    ensures Circle(t.blocks, t.ring)
  {
    InsertedRing(s.ring, t.ring, s.ti, n);
    forall i | 0 <= i < |t.ring|
      ensures Linked(t.blocks, t.ring, i)
    {
      InsertedLink(s, t, n, i);
    }
  }

  lemma InsertedLink<T>(s: State<T>, t: State<T>, n: nat, i: nat)
    requires Shape(s) && n < |s.blocks| && n !in s.ring
    requires s.blocks[n].next == s.blocks[s.tailBlock].next
    requires t.blocks == s.blocks[s.tailBlock := s.blocks[s.tailBlock].(next := n)]
    requires t.ring == s.ring[..s.ti + 1] + [n] + s.ring[s.ti + 1..]
    requires Ids(t.ring, |t.blocks|) && i < |t.ring|
    ensures Linked(t.blocks, t.ring, i)
  {
    hide Distinct, AllWf;
    var k := s.ti;
    InsertedRing(s.ring, t.ring, k, n) by {
      assert Circle(s.blocks, s.ring);
    }
    var j := if i <= k then i else i - 1;
    assert Linked(s.blocks, s.ring, j);
    if i != k && i != k + 1 {
      assert s.ring[j] != s.tailBlock by {
        DistinctAt(s.ring, j, k);
      }
      assert t.blocks[t.ring[i]] == s.blocks[s.ring[j]];
    }
  }

  lemma DistinctAt(ring: seq<nat>, i: nat, j: nat)
    requires Distinct(ring) && i < |ring| && j < |ring| && i != j
    ensures ring[i] != ring[j]
  {
  }

  lemma RelinkedItems<T>(b: Block<T>, n: nat)
    requires Wf(b)
    ensures Wf(b.(next := n)) && Items(b.(next := n)) == Items(b)
  {
  }

  lemma InsertedRoom<T>(s: State<T>, t: State<T>, n: nat)
    requires Shape(s) && AllWf(t.blocks) && n < |s.blocks| == |t.blocks|
    requires forall i :: 0 <= i < |s.blocks| ==> t.blocks[i].size == s.blocks[i].size
    requires t.ring == s.ring[..s.ti + 1] + [n] + s.ring[s.ti + 1..] && Ids(t.ring, |t.blocks|)
    ensures Room(t.blocks, t.ring) == Room(s.blocks, s.ring) + s.blocks[n].size - 1
  {
    var a, b := s.ring[..s.ti + 1], s.ring[s.ti + 1..];
    assert s.ring == a + b;
    RoomAppend(s.blocks, a, b);
    RoomAppend(t.blocks, a + [n], b);
    RoomAppend(t.blocks, a, [n]);
    RoomFrame(s.blocks, t.blocks, a);
    RoomFrame(s.blocks, t.blocks, b);
    assert [n][1..] == [];
    assert Room(t.blocks, [n]) == t.blocks[n].size - 1;
  }

  lemma PLinkTailShape<T>(s: State<T>, t: State<T>, e: T, tb: nat, n: nat)
    requires Inv(s) && s.prod == PLinkTail(e, tb, n)
    requires Observed(s, AtPLinkTail(s, e, tb, n), t)
    ensures Shape(t) && Queued(t) == Queued(s)
    ensures Room(t.blocks, t.ring) == Room(s.blocks, s.ring) + s.blocks[n].size - 1
  {
    hide Flat, Items, Room, Distinct, Linked, Lifetimes, ConsumerOk, Arc, Capacity, Fifo;
    InsertedCircle(s, t, n);
    assert s.ring[..s.ti + 1] == t.ring[..t.ti + 1];
    RelinkedItems(s.blocks[tb], n);
    FlatFrame(s.blocks, t.blocks, s.ring[..s.ti + 1]);
    InsertedRoom(s, t, n);
  }

  lemma InsertedCapacity<T>(s: State<T>, t: State<T>, n: nat)
    requires Shape(s) && Shape(t) && Capacity(s) && n < |s.blocks| == |t.blocks|
    requires forall i :: 0 <= i < |s.blocks| ==> t.blocks[i].size == s.blocks[i].size
    requires t.ring == s.ring[..s.ti + 1] + [n] + s.ring[s.ti + 1..]
    requires t.cap == s.cap && t.maxBlock == s.maxBlock && t.largest == s.largest
    requires |s.ring| == 1 ==> s.blocks[n].size > s.cap
    requires Room(t.blocks, t.ring) == Room(s.blocks, s.ring) + s.blocks[n].size - 1
    ensures Capacity(t)
  {
    if |s.ring| == 1 {
      assert s.ring[1..] == [];
      assert Room(s.blocks, s.ring) == s.blocks[s.ring[0]].size - 1;
    } else {
      assert Room(s.blocks, s.ring) - (s.blocks[s.ring[0]].size - 1) >= s.cap;
    }
    forall j | 0 <= j < |t.ring|
      ensures Room(t.blocks, t.ring) - (t.blocks[t.ring[j]].size - 1) >= t.cap
    {
      if j != s.ti + 1 {
        var k := if j <= s.ti then j else j - 1;
        assert t.ring[j] == s.ring[k];
      }
    }
  }

  lemma InsertedArc<T>(s: State<T>, t: State<T>, e: T, n: nat)
    requires Shape(s) && Shape(t) && Arc(s) && !s.prod.PPublish? && t.prod == PPublish(e, n) && t.ti == s.ti
    requires |t.blocks| == |s.blocks|
    requires forall i :: 0 <= i < |s.blocks| ==> t.blocks[i] == s.blocks[i].(next := t.blocks[i].next)
    requires t.ring == s.ring[..s.ti + 1] + [n] + s.ring[s.ti + 1..]
    ensures Arc(t)
  {
    forall i | s.ti + 1 < i < |t.ring|
      ensures Count(t.blocks[t.ring[i]]) == 0
    {
      assert t.ring[i] == s.ring[i - 1];
    }
  }

  /** What the step itself says. */
  lemma PLinkTailStep<T>(s: State<T>, t: State<T>, e: T, tb: nat, n: nat)
    requires Inv(s) && s.prod == PLinkTail(e, tb, n)
    requires Observed(s, AtPLinkTail(s, e, tb, n), t)
    ensures FreshBlock(s, e, n) && TailBlockFull(s) && tb == s.tailBlock < |s.blocks|
    ensures t.blocks == s.blocks[tb := s.blocks[tb].(next := n)]
    ensures t.ring == s.ring[..s.ti + 1] + [n] + s.ring[s.ti + 1..]
    ensures t == s.(blocks := t.blocks, ring := t.ring, prod := PPublish(e, n), sawEmpty := t.sawEmpty,
        sawFull := t.sawFull)
    ensures s.sawFull ==> t.sawFull
  {
    hide Flat, Items, Room, Distinct, Linked, Lifetimes, ConsumerOk, Arc, Capacity, Queued;
  }

  lemma InsertedPending<T>(s: State<T>, t: State<T>, e: T, tb: nat, n: nat)
    requires Shape(s) && Shape(t) && FreshBlock(s, e, n) && TailBlockFull(s) && tb == s.tailBlock < |s.blocks|
    requires t.blocks == s.blocks[tb := s.blocks[tb].(next := n)] && t.prod == PPublish(e, n)
    requires t.ring == s.ring[..s.ti + 1] + [n] + s.ring[s.ti + 1..]
    requires t.ti == s.ti && t.tailBlock == s.tailBlock && (s.sawFull ==> t.sawFull)
    ensures ProducerOk(t)
  {
    hide Linked, Distinct;
    assert Items(t.blocks[n]) == Items(s.blocks[n]);
  }

  lemma PLinkTailKeeps<T>(s: State<T>, t: State<T>, e: T, tb: nat, n: nat)
    requires Inv(s) && s.prod == PLinkTail(e, tb, n)
    requires Observed(s, AtPLinkTail(s, e, tb, n), t)
    ensures Inv(t)
  {
    hide Flat, Items, Room, Distinct, Linked, Lifetimes, ConsumerOk, Arc, Capacity, ProducerFrame;
    hide ProducerOk, Observed, TailBlockFull;
    PLinkTailStep(s, t, e, tb, n);
    PLinkTailShape(s, t, e, tb, n);
    InsertedCapacity(s, t, n);
    InsertedArc(s, t, e, n);
    RelinkedLifetimes(s, t);
    InsertedPending(s, t, e, tb, n);
    PLinkTailFrame(s, t, e, tb, n);
    ConsumerKept(s, t);
  }

  lemma PLinkTailFrame<T>(s: State<T>, t: State<T>, e: T, tb: nat, n: nat)
    requires Inv(s) && s.prod == PLinkTail(e, tb, n) && Shape(t) && Queued(t) == Queued(s)
    requires Observed(s, AtPLinkTail(s, e, tb, n), t)
    ensures ProducerFrame(s, t)
  {
    hide Flat, Items, Room, Distinct, Linked, Lifetimes, ConsumerOk, Capacity;
  }
}
