/** The steps of the consumer, one by one: each keeps the invariant. */
module SpscConsumer {
  import opened Blocks
  import opened SpscSteps
  import opened SpscProducer

  /** What the consumer may change under the producer's feet. */
  ghost predicate ConsumerFrame<T>(s: State<T>, t: State<T>)
    requires Shape(s) && Shape(t)
  {
    && t.prod == s.prod && t.tailBlock == s.tailBlock && t.cap == s.cap && (s.prod.PIdle? || (s.sawFull ==> t.sawFull))
    && |t.ring| == |s.ring| && |t.blocks| == |s.blocks|
    && (t.ti > 0 ==> s.ti > 0 && Count(t.blocks[s.tailBlock]) == Count(s.blocks[s.tailBlock]))
    && (s.ti + 1 < |s.ring| ==>
          && t.ti + 1 < |t.ring| && t.ring[t.ti + 1] == s.ring[s.ti + 1]
          && t.blocks[s.ring[s.ti + 1]] == s.blocks[s.ring[s.ti + 1]])
    && (forall i :: 0 <= i < |s.blocks| ==>
          t.blocks[i] == s.blocks[i].(front := t.blocks[i].front, localTail := t.blocks[i].localTail,
              live := t.blocks[i].live))
    && (forall n :: n in t.ring ==> n in s.ring)
    && (forall n :: 0 <= n < |s.blocks| && n !in s.ring ==> t.blocks[n] == s.blocks[n])
  }

  lemma ProducerKept<T>(s: State<T>, t: State<T>)
    requires Inv(s) && Shape(t) && ConsumerFrame(s, t)
    ensures ProducerOk(t)
  {
    hide Flat, Room, Linked, Distinct, Lifetimes, ConsumerOk, Capacity, Fifo, Arc;
  }

  // ---- Consumer steps that only move the program counter ----

  ghost predicate ConsumerLocal<T>(s: State<T>, t: State<T>)
  {
    && SameMemory(s, t) && t.prod == s.prod && (s.prod.PIdle? || (s.sawFull ==> t.sawFull))
    && !s.cons.CStoreFront? && !t.cons.CStoreFront? && Shape(t) && ConsumerOk(t)
  }

  lemma ConsumerLocalKeeps<T>(s: State<T>, t: State<T>)
    requires Inv(s) && ConsumerLocal(s, t)
    ensures Inv(t)
  {
    hide Flat, Items, Room, Linked, Distinct, ConsumerOk, ProducerOk;
    assert Queued(t) == Queued(s);
    LocalLifetimes(s, t);
    ProducerKept(s, t);
  }

  lemma CIdleMoves<T>(s: State<T>, t: State<T>, op: Op)
    requires Inv(s) && s.cons == CIdle
    requires Observed(s, s.(cons := CFrontBlock(op)), t)
    ensures ConsumerLocal(s, t)
  {
    hide Lifetimes, Capacity, Arc, ProducerOk, Distinct, Flat, Items, Room;
  }

  lemma CFrontBlockMoves<T>(s: State<T>, t: State<T>, op: Op)
    requires Inv(s) && s.cons == CFrontBlock(op)
    requires Observed(s, s.(cons := CFront(op, s.frontBlock)), t)
    ensures ConsumerLocal(s, t)
  {
    hide Lifetimes, Capacity, Arc, ProducerOk, Distinct, Flat, Items, Room;
  }

  lemma CFrontMoves<T>(s: State<T>, t: State<T>, op: Op, fb: nat)
    requires Inv(s) && s.cons == CFront(op, fb)
    requires Observed(s, AtCFront(s, op, fb), t)
    ensures ConsumerLocal(s, t)
  {
    hide Lifetimes, Capacity, Arc, ProducerOk, Distinct, Flat, Items, Room;
  }

  lemma FrontIsTail<T>(s: State<T>)
    requires Shape(s)
    ensures s.frontBlock == s.tailBlock <==> s.ti == 0
  {
    if s.ti > 0 {
      DistinctAt(s.ring, 0, s.ti);
    }
  }

  lemma CTailBlockMoves<T>(s: State<T>, t: State<T>, op: Op, fb: nat)
    requires Inv(s) && s.cons == CTailBlock(op, fb)
    requires Observed(s, s.(cons := if fb != s.tailBlock then CFrontBlockAgain(op) else CDone(op, None)), t)
    ensures ConsumerLocal(s, t)
  {
    hide Lifetimes, Capacity, Arc, ProducerOk, Distinct, Circle, Flat, Items, Room;
    FrontIsTail(s);
  }

  lemma CFrontBlockAgainMoves<T>(s: State<T>, t: State<T>, op: Op)
    requires Inv(s) && s.cons == CFrontBlockAgain(op)
    requires Observed(s, s.(cons := CTailAgain(op, s.frontBlock)), t)
    ensures ConsumerLocal(s, t)
  {
    hide Lifetimes, Capacity, Arc, ProducerOk, Distinct, Flat, Items, Room;
  }

  lemma CFrontAgainMoves<T>(s: State<T>, t: State<T>, op: Op, fb: nat, bt: nat)
    requires Inv(s) && s.cons == CFrontAgain(op, fb, bt)
    requires Observed(s, AtCFrontAgain(s, op, fb, bt), t)
    ensures ConsumerLocal(s, t)
  {
    hide Lifetimes, Capacity, Arc, ProducerOk, Distinct, Flat, Items, Room;
  }

  lemma CNextMoves<T>(s: State<T>, t: State<T>, op: Op, fb: nat)
    requires Inv(s) && s.cons == CNext(op, fb)
    requires Observed(s, AtCNext(s, op, fb), t)
    ensures ConsumerLocal(s, t)
  {
    hide Lifetimes, Capacity, Arc, ProducerOk, Distinct, Flat, Items, Room;
    assert Linked(s.blocks, s.ring, 0);
  }

  lemma CNextFrontMoves<T>(s: State<T>, t: State<T>, op: Op, n: nat)
    requires Inv(s) && s.cons == CNextFront(op, n)
    requires Observed(s, AtCNextFront(s, op, n), t)
    ensures ConsumerLocal(s, t)
  {
    hide Lifetimes, Capacity, Arc, ProducerOk, Distinct, Flat, Items, Room;
  }

  /** The first queued element is the one at the front of the first block that holds any. */
  lemma QueueHead<T>(s: State<T>, b: nat)
    requires Shape(s) && b < |s.blocks| && Count(s.blocks[b]) > 0
    requires b == s.frontBlock || (FrontExhausted(s) && b == s.ring[1])
    ensures Queued(s) != [] && Queued(s)[0] == s.blocks[b].data[s.blocks[b].front]
  {
    hide Distinct, Linked, Room, Flat;
    var ids := s.ring[..s.ti + 1];
    var k := if b == s.frontBlock then 0 else 1;
    assert ids == ids[..k] + ([b] + ids[k + 1..]);
    FlatAppend(s.blocks, ids[..k], [b] + ids[k + 1..]);
    FlatAppend(s.blocks, [b], ids[k + 1..]);
    FlatOne(s.blocks, b);
    if k == 0 {
      FlatNone(s.blocks);
      assert ids[..k] == [];
    } else {
      assert ids[..k] == [s.frontBlock];
      FlatOne(s.blocks, s.frontBlock);
    }
  }

  lemma FlatNone<T>(blocks: seq<Block<T>>)
    requires AllWf(blocks)
    ensures Flat(blocks, []) == []
  {
  }

  lemma CPeekMoves<T>(s: State<T>, t: State<T>, b: nat, bf: nat)
    requires Inv(s) && s.cons == CPeek(b, bf)
    requires Observed(s, AtCPeek(s, b, bf), t)
    ensures ConsumerLocal(s, t)
  {
    hide Lifetimes, Capacity, Arc, ProducerOk, Distinct, Flat, Items, Room;
    QueueHead(s, b);
  }

  lemma CDoneMoves<T>(s: State<T>, t: State<T>)
    requires Inv(s) && s.cons.CDone?
    requires Observed(s, s.(cons := CIdle), t)
    ensures ConsumerLocal(s, t)
  {
    hide Lifetimes, Capacity, Arc, ProducerOk, Distinct, Flat, Items, Room;
  }

  // ---- Steps that reread a tail index ----

  ghost predicate RereadTail<T>(s: State<T>, t: State<T>, n: nat)
    requires n < |s.blocks|
  {
    && t.blocks == s.blocks[n := s.blocks[n].(localTail := s.blocks[n].tail)]
    && SameRing(s, t) && t.prod == s.prod && (s.prod.PIdle? || (s.sawFull ==> t.sawFull))
    && !s.cons.CStoreFront? && !t.cons.CStoreFront?
  }

  lemma RereadTailFrame<T>(s: State<T>, t: State<T>, n: nat)
    requires Shape(s) && Shape(t) && Arc(s) && n < |s.blocks| && RereadTail(s, t, n)
    requires n == s.frontBlock || (s.ti > 0 && n == s.ring[1])
    ensures ConsumerFrame(s, t)
  {
    hide Linked, Distinct, AllWf;
    if s.ti + 1 < |s.ring| {
      DistinctAt(s.ring, 0, s.ti + 1) by { assert Circle(s.blocks, s.ring); }
      if s.ti > 0 { DistinctAt(s.ring, 1, s.ti + 1); }
    }
  }

  lemma RereadTailKeeps<T>(s: State<T>, t: State<T>, n: nat)
    requires Inv(s) && n < |s.blocks| && RereadTail(s, t, n) && (n == s.frontBlock || (s.ti > 0 && n == s.ring[1]))
    ensures Shape(t) && Queued(t) == Queued(s) && Arc(t) && Lifetimes(t) && Capacity(t) && Fifo(t)
    ensures ProducerOk(t)
  {
    hide Flat, Items, Room, Linked, Distinct, Lifetimes, Capacity, ConsumerOk, ProducerOk, ConsumerFrame;
    assert ShadowsOnly(s.blocks, t.blocks) && AllWf(t.blocks);
    ShadowsKeepRest(s, t);
    RereadTailFrame(s, t, n);
    ProducerKept(s, t);
  }

  lemma CTailKeeps<T>(s: State<T>, t: State<T>, op: Op, fb: nat, bf: nat)
    requires Inv(s) && s.cons == CTail(op, fb, bf)
    requires Observed(s, AtCTail(s, op, fb, bf), t)
    ensures Inv(t)
  {
    hide Flat, Items, Room, Linked, Distinct, Lifetimes, Capacity, ProducerOk, Arc;
    RereadTailKeeps(s, t, fb);
    if t.cons.CTailBlock? && t.ti == 0 {
      EmptyQueue(t);
    }
  }

  lemma EmptyQueue<T>(s: State<T>)
    requires Shape(s) && s.ti == 0 && Count(s.blocks[s.frontBlock]) == 0
    ensures Queued(s) == []
  {
    assert s.ring[..s.ti + 1] == [s.frontBlock];
    FlatOne(s.blocks, s.frontBlock);
  }

  lemma CTailAgainKeeps<T>(s: State<T>, t: State<T>, op: Op, fb: nat)
    requires Inv(s) && s.cons == CTailAgain(op, fb)
    requires Observed(s, AtCTailAgain(s, op, fb), t)
    ensures Inv(t)
  {
    hide Flat, Items, Room, Linked, Distinct, Lifetimes, Capacity, ProducerOk, Arc;
    RereadTailKeeps(s, t, fb);
  }

  lemma SecondNonEmpty<T>(s: State<T>)
    requires Shape(s) && Arc(s) && s.ti > 0
    ensures Count(s.blocks[s.ring[1]]) > 0
  {
  }

  lemma CNextTailKeeps<T>(s: State<T>, t: State<T>, op: Op, n: nat, nf: nat)
    requires Inv(s) && s.cons == CNextTail(op, n, nf)
    requires Observed(s, AtCNextTail(s, op, n, nf), t)
    ensures Inv(t)
  {
    hide Flat, Items, Room, Linked, Distinct, Lifetimes, Capacity, ProducerOk, Arc;
    SecondNonEmpty(s);
    if op == Peek {
      ConsumerLocalKeeps(s, t);
    } else {
      RereadTailKeeps(s, t, n);
      FrontApart(s);
    }
  }

  lemma FrontApart<T>(s: State<T>)
    requires Shape(s) && s.ti > 0
    ensures s.ring[1] != s.frontBlock && s.tailBlock != s.frontBlock
  {
    DistinctAt(s.ring, 0, 1);
    DistinctAt(s.ring, 0, s.ti);
  }

  // ---- The front block is left behind ----

  lemma RotatedCircle<T>(blocks: seq<Block<T>>, ring: seq<nat>, ring': seq<nat>)
    requires Circle(blocks, ring) && |ring| > 1 && ring' == ring[1..] + [ring[0]]
    ensures Circle(blocks, ring')
  {
    forall i | 0 <= i < |ring'|
      ensures Linked(blocks, ring', i)
    {
      assert Linked(blocks, ring, Next(i, |ring|));
    }
  }

  lemma CAdvanceShape<T>(s: State<T>, t: State<T>, op: Op, n: nat, nf: nat)
    requires Inv(s) && s.cons == CAdvance(op, n, nf)
    requires Observed(s, AtCAdvance(s, op, n, nf), t)
    ensures Shape(t) && Queued(t) == Queued(s) && Room(t.blocks, t.ring) == Room(s.blocks, s.ring)
  {
    hide Linked, Distinct, Flat, Items, Room, Lifetimes, Capacity, ProducerOk, Arc;
    RotatedCircle(s.blocks, s.ring, t.ring);
    var rest := s.ring[1..s.ti + 1];
    assert s.ring[..s.ti + 1] == [s.frontBlock] + rest;
    FlatAppend(s.blocks, [s.frontBlock], rest);
    FlatOne(s.blocks, s.frontBlock);
    assert t.ring[..t.ti + 1] == rest;
    assert s.ring == [s.ring[0]] + s.ring[1..];
    RoomAppend(s.blocks, [s.ring[0]], s.ring[1..]);
    RoomAppend(s.blocks, s.ring[1..], [s.ring[0]]);
  }

  lemma CAdvanceArc<T>(s: State<T>, t: State<T>)
    requires Shape(s) && Shape(t) && Arc(s) && FrontExhausted(s) && t.blocks == s.blocks && t.prod == s.prod
    requires t.ring == s.ring[1..] + [s.ring[0]] && t.ti == s.ti - 1
    ensures Arc(t)
  {
    hide Distinct, Linked, Wf, Full;
    forall i | 0 <= i < |t.ring|
      ensures t.ring[i] == if i == |s.ring| - 1 then s.ring[0] else s.ring[i + 1]
    {
    }
  }

  lemma CAdvanceCapacity<T>(s: State<T>, t: State<T>)
    requires Shape(s) && Shape(t) && Capacity(s) && s.ti > 0 && t.blocks == s.blocks
    requires t.ring == s.ring[1..] + [s.ring[0]] && t.cap == s.cap && t.maxBlock == s.maxBlock && t.largest == s.largest
    requires Room(t.blocks, t.ring) == Room(s.blocks, s.ring)
    ensures Capacity(t)
  {
    hide Distinct, Linked, Wf, Room;
    forall j | 0 <= j < |t.ring|
      ensures Room(t.blocks, t.ring) - (t.blocks[t.ring[j]].size - 1) >= t.cap
    {
      assert t.ring[j] == s.ring[Next(j, |s.ring|)];
    }
  }

  lemma CAdvanceFrame<T>(s: State<T>, t: State<T>, op: Op, n: nat, nf: nat)
    requires Inv(s) && s.cons == CAdvance(op, n, nf) && Shape(t)
    requires Observed(s, AtCAdvance(s, op, n, nf), t)
    ensures ConsumerFrame(s, t)
  {
    hide Linked, Distinct, Flat, Items, Room, Lifetimes, Capacity, ProducerOk, Arc, AllWf, Queued, Fifo;
    forall m | m in t.ring
      ensures m in s.ring
    {
    }
  }

  lemma CAdvanceKeeps<T>(s: State<T>, t: State<T>, op: Op, n: nat, nf: nat)
    requires Inv(s) && s.cons == CAdvance(op, n, nf)
    requires Observed(s, AtCAdvance(s, op, n, nf), t)
    ensures Inv(t)
  {
    hide Flat, Items, Room, Linked, Distinct, Lifetimes, Capacity, ProducerOk, Arc, ConsumerFrame;
    CAdvanceShape(s, t, op, n, nf);
    CAdvanceArc(s, t);
    CAdvanceCapacity(s, t);
    CAdvanceFrame(s, t, op, n, nf);
    LocalLifetimes(s, t);
    ProducerKept(s, t);
  }

  // ---- The element is taken ----

  /** The consumer's changes to the front block while taking an element. */
  ghost predicate FrontTouched<T>(s: State<T>, t: State<T>, c: Block<T>)
    requires Shape(s)
  {
    && t.blocks == s.blocks[s.frontBlock := c]
    && c == s.blocks[s.frontBlock].(front := c.front, live := c.live)
    && t.frontBlock == s.frontBlock && t.tailBlock == s.tailBlock
    && t.largest == s.largest && t.maxBlock == s.maxBlock && t.cap == s.cap
    && t.ring == s.ring && t.ti == s.ti && t.prod == s.prod && (s.prod.PIdle? || (s.sawFull ==> t.sawFull))
  }

  lemma FrontTouchedShape<T>(s: State<T>, t: State<T>, c: Block<T>)
    requires Inv(s) && FrontTouched(s, t, c) && Wf(c)
    ensures Shape(t) && Room(t.blocks, t.ring) == Room(s.blocks, s.ring) && ProducerOk(t) && Capacity(t)
  {
    hide Distinct, Flat, Items, Room, Lifetimes, ProducerOk, Arc, Fifo, ConsumerOk;
    forall i | 0 <= i < |t.ring|
      ensures Linked(t.blocks, t.ring, i)
    {
      assert Linked(s.blocks, s.ring, i);
    }
    SameRoom(s, t);
    FrontTouchedFrame(s, t, c);
    ProducerKept(s, t);
  }

  lemma FrontTouchedFrame<T>(s: State<T>, t: State<T>, c: Block<T>)
    requires Shape(s) && FrontTouched(s, t, c) && Shape(t)
    ensures ConsumerFrame(s, t)
  {
    hide Linked, Distinct, Flat, Items, Room;
    if s.ti > 0 {
      FrontApart(s);
    }
    if s.ti + 1 < |s.ring| {
      DistinctAt(s.ring, 0, s.ti + 1) by { assert Circle(s.blocks, s.ring); }
    }
  }

  lemma FrontTouchedArc<T>(s: State<T>, t: State<T>, c: Block<T>)
    requires Shape(s) && Shape(t) && Arc(s) && FrontTouched(s, t, c)
    ensures Arc(t)
  {
    hide Linked;
  }

  lemma CTakeLifetimes<T>(s: State<T>, t: State<T>, op: Op, fb: nat, bf: nat, v: T)
    requires AllWf(s.blocks) && AllWf(t.blocks) && Lifetimes(s) && s.cons == CTake(op, fb, bf)
    requires fb < |s.blocks| && bf == s.blocks[fb].front != s.blocks[fb].tail
    requires t.blocks == s.blocks[fb := s.blocks[fb].(live := s.blocks[fb].live[bf := false])]
    requires t.prod == s.prod && t.cons == CStoreFront(op, fb, bf, v)
    requires s.prod.PStoreTail? ==> s.prod.tb < |s.blocks| && s.prod.bt == s.blocks[s.prod.tb].tail
    requires s.prod.PNextStoreTail? ==> s.prod.n < |s.blocks| && s.prod.nt == s.blocks[s.prod.n].tail
    ensures Lifetimes(t)
  {
    forall i, k | 0 <= i < |t.blocks| && 0 <= k < t.blocks[i].size
      ensures t.blocks[i].live[k] <==> ShouldLive(t, i, k)
    {
      assert s.blocks[i].live[k] <==> ShouldLive(s, i, k);
    }
  }

  /** Where the producer is about to move a tail index. */
  lemma StoringTail<T>(s: State<T>)
    requires Shape(s) && ProducerOk(s)
    ensures s.prod.PStoreTail? ==> s.prod.tb < |s.blocks| && s.prod.bt == s.blocks[s.prod.tb].tail
    ensures s.prod.PNextStoreTail? ==> s.prod.n < |s.blocks| && s.prod.nt == s.blocks[s.prod.n].tail
  {
  }

  lemma CTakeKeeps<T>(s: State<T>, t: State<T>, op: Op, fb: nat, bf: nat)
    requires Inv(s) && s.cons == CTake(op, fb, bf)
    requires Observed(s, AtCTake(s, op, fb, bf), t)
    ensures Inv(t)
  {
    hide Flat, Items, Room, Linked, Distinct, Lifetimes, Capacity, ProducerOk, Arc;
    var c := t.blocks[fb];
    FrontTouchedShape(s, t, c);
    FrontTouchedArc(s, t, c);
    StoringTail(s);
    CTakeLifetimes(s, t, op, fb, bf, s.blocks[fb].data[bf]);
    CTakeQueue(s, t, c);
  }

  lemma CTakeQueue<T>(s: State<T>, t: State<T>, c: Block<T>)
    requires Shape(s) && Shape(t) && FrontTouched(s, t, c) && c.front == s.blocks[s.frontBlock].front
    ensures Queued(t) == Queued(s)
  {
    SameQueue(s, t);
  }

  lemma StoredFrontWf<T>(b: Block<T>, c: Block<T>)
    requires Wf(b) && b.front != b.localTail && c == b.(front := Next(b.front, b.size))
    ensures Wf(c) && Count(c) == Count(b) - 1 && Items(b) == [b.data[b.front]] + Items(c)
    ensures forall k :: 0 <= k < b.size ==> (InRange(b, k) <==> InRange(c, k) || k == b.front)
    ensures !InRange(c, b.front)
  {
    ItemsPop(b, c);
  }

  lemma CStoreFrontQueue<T>(s: State<T>, t: State<T>, c: Block<T>, v: T)
    requires Shape(s) && Shape(t) && FrontTouched(s, t, c)
    requires Wf(c) && Items(s.blocks[s.frontBlock]) == [v] + Items(c)
    ensures Queued(s) == [v] + Queued(t)
  {
    hide Linked, Flat, Items;
    var rest := s.ring[1..s.ti + 1];
    assert s.ring[..s.ti + 1] == [s.frontBlock] + rest;
    FlatAppend(s.blocks, [s.frontBlock], rest);
    FlatAppend(t.blocks, [s.frontBlock], rest);
    FlatOne(s.blocks, s.frontBlock);
    FlatOne(t.blocks, s.frontBlock);
    forall i | 0 <= i < |rest|
      ensures rest[i] != s.frontBlock
    {
      DistinctAt(s.ring, 0, i + 1);
    }
    FlatFrame(s.blocks, t.blocks, rest);
  }

  lemma CStoreFrontLifetimes<T>(s: State<T>, t: State<T>, op: Op, fb: nat, bf: nat, v: T)
    requires AllWf(s.blocks) && AllWf(t.blocks) && Lifetimes(s) && s.cons == CStoreFront(op, fb, bf, v)
    requires fb < |s.blocks| && bf == s.blocks[fb].front != s.blocks[fb].tail
    requires t.blocks == s.blocks[fb := s.blocks[fb].(front := Next(bf, s.blocks[fb].size))]
    requires forall k :: 0 <= k < s.blocks[fb].size ==>
        (InRange(s.blocks[fb], k) <==> InRange(t.blocks[fb], k) || k == bf)
    requires !InRange(t.blocks[fb], bf)
    requires t.prod == s.prod && t.cons.CDone?
    ensures Lifetimes(t)
  {
    forall i, k | 0 <= i < |t.blocks| && 0 <= k < t.blocks[i].size
      ensures t.blocks[i].live[k] <==> ShouldLive(t, i, k)
    {
      assert s.blocks[i].live[k] <==> ShouldLive(s, i, k);
    }
  }

  lemma CStoreFrontKeeps<T>(s: State<T>, t: State<T>, op: Op, fb: nat, bf: nat, v: T)
    requires Inv(s) && s.cons == CStoreFront(op, fb, bf, v)
    requires Observed(s, AtCStoreFront(s, op, fb, bf, v), t)
    ensures Inv(t)
  {
    hide Flat, Items, Room, Linked, Distinct, Lifetimes, Capacity, ProducerOk, Arc;
    var c := t.blocks[fb];
    StoredFrontWf(s.blocks[fb], c);
    FrontTouchedShape(s, t, c);
    FrontTouchedArc(s, t, c);
    CStoreFrontLifetimes(s, t, op, fb, bf, v);
    CStoreFrontQueue(s, t, c, v);
    assert s.deq + ([v] + Queued(t)) == (s.deq + [v]) + Queued(t);
  }
}
