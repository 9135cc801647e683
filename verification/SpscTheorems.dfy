/** What holds of the queue in every interleaving of a producer and a consumer. */
module SpscTheorems {
  import opened Blocks
  import opened Bits
  import opened SpscSteps
  import opened SpscProducer
  import opened SpscConsumer

  // ---- Construction ----------------------------------------------------------------

  /** The blocks reserved by the constructor leave room for maxSize elements in all
      but any one of them. */
  lemma EnoughBlocks(maxSize: nat, maxBlock: nat)
    requires maxSize > 0 && maxBlock >= 2
    ensures var n, size := BlockCount(maxSize, maxBlock), FirstBlockSize(maxSize, maxBlock);
            n >= 1 && size >= 2
            && (n == 1 ==> size > maxSize)
            && (n > 1 ==> (n - 1) * (size - 1) >= maxSize)
  {
    if CeilPow2(maxSize + 1) > maxBlock * 2 {
      var d := maxBlock - 1;
      var x := maxSize + maxBlock * 2 - 3;
      DivMod(x, d);
      var n := x / d;
      assert (n - 1) * d == n * d - d;
      if n <= 1 {
        MulMono(n, 1, d);
      }
    }
  }

  lemma {:induction false} UniformRoom<T>(blocks: seq<Block<T>>, ids: seq<nat>, size: nat)
    requires AllWf(blocks) && Ids(ids, |blocks|) && size >= 1
    requires forall i :: 0 <= i < |ids| ==> blocks[ids[i]].size == size
    ensures Room(blocks, ids) == |ids| * (size - 1)
  {
    hide Wf;
    if ids != [] {
      var rest := ids[1..];
      forall i | 0 <= i < |rest|
        ensures blocks[rest[i]].size == size
      {
        assert rest[i] == ids[i + 1];
      }
      UniformRoom(blocks, rest, size);
      Regroup(|rest|, size - 1);
    }
  }

  lemma Regroup(n: nat, d: nat)
    ensures (n + 1) * d == n * d + d
  {
  }

  lemma ConstructedShape<T>(maxSize: nat, maxBlock: nat, junk: T)
    requires maxSize > 0 && maxBlock >= 2
    ensures Shape(Construct(maxSize, maxBlock, junk))
  {
    hide CeilPow2;
    var s := Construct(maxSize, maxBlock, junk);
    EnoughBlocks(maxSize, maxBlock);
    assert AllWf(s.blocks);
    forall i | 0 <= i < |s.ring|
      ensures Linked(s.blocks, s.ring, i)
    {
    }
  }

  lemma ConstructedInv<T>(maxSize: nat, maxBlock: nat, junk: T)
    requires maxSize > 0 && maxBlock >= 2
    ensures Inv(Construct(maxSize, maxBlock, junk))
  {
    hide Flat, Items, Room, CeilPow2, Linked, Distinct;
    var s := Construct(maxSize, maxBlock, junk);
    EnoughBlocks(maxSize, maxBlock);
    ConstructedShape(maxSize, maxBlock, junk);
    EmptyQueue(s);
    ConstructedCapacity(maxSize, maxBlock, junk);
  }

  lemma ConstructedCapacity<T>(maxSize: nat, maxBlock: nat, junk: T)
    requires maxSize > 0 && maxBlock >= 2 && Shape(Construct(maxSize, maxBlock, junk))
    ensures Capacity(Construct(maxSize, maxBlock, junk))
  {
    hide CeilPow2, Linked, Distinct, Room, Wf;
    var s := Construct(maxSize, maxBlock, junk);
    EnoughBlocks(maxSize, maxBlock);
    UniformRoom(s.blocks, s.ring, s.largest);
    Regroup(|s.ring| - 1, s.largest - 1);
  }

  // ---- Every step keeps the invariant ----------------------------------------------

  lemma ProducerKeeps<T>(s: State<T>, a: Action<T>, t: State<T>)
    requires Inv(s) && a.Produce? && Observed(s, ProducerMove(s, a), t)
    ensures Inv(t)
  {
    hide Inv, Observed;
    match s.prod
    case PIdle => PIdleMoves(s, t, a.elem, a.canAlloc); ProducerLocalKeeps(s, t);
    case PTailBlock(e, can) => PTailBlockMoves(s, t, e, can); ProducerLocalKeeps(s, t);
    case PTail(e, can, tb) => PTailMoves(s, t, e, can, tb); ProducerLocalKeeps(s, t);
    case PFront(e, can, tb, bt, nt) => PFrontKeeps(s, t, e, can, tb, bt, nt);
    case PConstruct(e, tb, bt, nt) => PConstructKeeps(s, t, e, tb, bt, nt);
    case PStoreTail(e, tb, bt, nt) => PStoreTailKeeps(s, t, e, tb, bt, nt);
    case PNext(e, can, tb) => PNextMoves(s, t, e, can, tb); ProducerLocalKeeps(s, t);
    case PFrontBlock(e, can, tb, n) => PFrontBlockMoves(s, t, e, can, tb, n); ProducerLocalKeeps(s, t);
    case PNextAgain(e, tb) => PNextAgainMoves(s, t, e, tb); ProducerLocalKeeps(s, t);
    case PNextFront(e, n) => PNextFrontKeeps(s, t, e, n);
    case PNextTail(e, n, nf) => PNextTailKeeps(s, t, e, n, nf);
    case PNextConstruct(e, n, nt) => PNextConstructKeeps(s, t, e, n, nt);
    case PNextStoreTail(e, n, nt) => PNextStoreTailKeeps(s, t, e, n, nt);
    case PPublish(e, n) => PPublishKeeps(s, t, e, n);
    case PAlloc(e, tb) => PAllocKeeps(s, t, e, tb, a.mallocOk, a.junk);
    case PLinkNew(e, tb, n) => PLinkNewKeeps(s, t, e, tb, n);
    case PLinkTail(e, tb, n) => PLinkTailKeeps(s, t, e, tb, n);
    case PDone(can, ok) => PDoneMoves(s, t, can, ok); ProducerLocalKeeps(s, t);
    case PAssertFailed => NoAssertFails(s);
  }

  lemma ConsumerKeeps<T>(s: State<T>, a: Action<T>, t: State<T>)
    requires Inv(s) && a.Consume? && Observed(s, ConsumerMove(s, a), t)
    ensures Inv(t)
  {
    hide Inv, Observed;
    match s.cons
    case CIdle => CIdleMoves(s, t, a.op); ConsumerLocalKeeps(s, t);
    case CFrontBlock(op) => CFrontBlockMoves(s, t, op); ConsumerLocalKeeps(s, t);
    case CFront(op, fb) => CFrontMoves(s, t, op, fb); ConsumerLocalKeeps(s, t);
    case CTail(op, fb, bf) => CTailKeeps(s, t, op, fb, bf);
    case CTailBlock(op, fb) => CTailBlockMoves(s, t, op, fb); ConsumerLocalKeeps(s, t);
    case CFrontBlockAgain(op) => CFrontBlockAgainMoves(s, t, op); ConsumerLocalKeeps(s, t);
    case CTailAgain(op, fb) => CTailAgainKeeps(s, t, op, fb);
    case CFrontAgain(op, fb, bt) => CFrontAgainMoves(s, t, op, fb, bt); ConsumerLocalKeeps(s, t);
    case CNext(op, fb) => CNextMoves(s, t, op, fb); ConsumerLocalKeeps(s, t);
    case CNextFront(op, n) => CNextFrontMoves(s, t, op, n); ConsumerLocalKeeps(s, t);
    case CNextTail(op, n, nf) => CNextTailKeeps(s, t, op, n, nf);
    case CAdvance(op, n, nf) => CAdvanceKeeps(s, t, op, n, nf);
    case CTake(op, fb, bf) => CTakeKeeps(s, t, op, fb, bf);
    case CStoreFront(op, fb, bf, v) => CStoreFrontKeeps(s, t, op, fb, bf, v);
    case CPeek(b, bf) => CPeekMoves(s, t, b, bf); ConsumerLocalKeeps(s, t);
    case CDone(op, res) => CDoneMoves(s, t); ConsumerLocalKeeps(s, t);
    case CAssertFailed => NoAssertFails(s);
  }

  /** Neither assertion of the source ever fails: a spare block the producer moves on
      to is empty, and a next block the consumer moves on to is not. */
  lemma NoAssertFails<T>(s: State<T>)
    requires Inv(s)
    ensures !s.prod.PAssertFailed? && !s.cons.CAssertFailed?
  {
  }

  lemma MoveShape<T>(s: State<T>, a: Action<T>)
    requires Inv(s)
    ensures Shape(Move(s, a))
  {
    hide *;
    var m := Move(s, a);
    var t := m.(sawEmpty := true, sawFull := true);
    assert Observed(s, m, t) by { Mark(s, m, t); }
    MoveIs(s, a);
    if a.Produce? {
      ProducerKeeps(s, a, t);
    } else {
      ConsumerKeeps(s, a, t);
    }
    SameShape(m, t);
  }

  lemma Mark<T>(s: State<T>, m: State<T>, t: State<T>)
    requires t == m.(sawEmpty := true, sawFull := true)
    ensures Observed(s, m, t)
  {
  }

  lemma MoveIs<T>(s: State<T>, a: Action<T>)
    ensures a.Produce? ==> Move(s, a) == ProducerMove(s, a)
    ensures a.Consume? ==> Move(s, a) == ConsumerMove(s, a)
  {
  }

  lemma SameShape<T>(m: State<T>, t: State<T>)
    requires Inv(t) && t == m.(sawEmpty := true, sawFull := true)
    ensures Shape(m)
  {
  }

  lemma StepObserved<T>(s: State<T>, a: Action<T>)
    requires Inv(s) && Shape(Move(s, a))
    ensures Observed(s, Move(s, a), Step(s, a))
  {
    hide Move, Flat, Lifetimes, Arc, Capacity, Fifo, ProducerOk, ConsumerOk;
  }

  lemma InvShape<T>(s: State<T>)
    requires Inv(s)
    ensures Shape(s)
  {
  }

  lemma StepKeeps<T>(s: State<T>, a: Action<T>)
    requires Inv(s)
    ensures Inv(Step(s, a))
  {
    hide *;
    InvShape(s);
    MoveShape(s, a);
    StepObserved(s, a);
    MoveIs(s, a);
    if a.Produce? {
      ProducerKeeps(s, a, Step(s, a));
    } else {
      ConsumerKeeps(s, a, Step(s, a));
    }
  }

  // ---- Whole runs ------------------------------------------------------------------

  /** The state after the steps `acts`, in the order the scheduler chose. */
  ghost function Run<T>(s: State<T>, acts: seq<Action<T>>): (t: State<T>)
    requires Inv(s)
    ensures Inv(t) && Shape(t)
  {
    if acts == [] then s else
    var u := Run(s, acts[..|acts| - 1]);
    StepKeeps(u, acts[|acts| - 1]);
    Step(u, acts[|acts| - 1])
  }

  /** The new queue after the steps `acts`. */
  ghost function RunNew<T>(maxSize: nat, maxBlock: nat, junk: T, acts: seq<Action<T>>): (t: State<T>)
    requires maxSize > 0 && maxBlock >= 2
    ensures Inv(t)
  {
    ConstructedInv(maxSize, maxBlock, junk);
    Run(Construct(maxSize, maxBlock, junk), acts)
  }

  /** In every interleaving: first in, first out, nothing lost or made up, and no
      assertion of the source fails. */
  lemma EveryInterleavingIsFifo<T>(maxSize: nat, maxBlock: nat, junk: T, acts: seq<Action<T>>)
    requires maxSize > 0 && maxBlock >= 2
    ensures var s := RunNew(maxSize, maxBlock, junk, acts);
            && s.deq + Queued(s) == s.enq
            && !s.prod.PAssertFailed? && !s.cons.CAssertFailed?
  {
    NoAssertFails(RunNew(maxSize, maxBlock, junk, acts));
  }

  /** How a step shows in the abstract queue: not at all, or as one element appended
      at the end by the producer (which thereby completes its call), or as the head
      taken off by the consumer (which thereby completes its call with it). */
  ghost predicate Effect<T>(s: State<T>, a: Action<T>, t: State<T>)
    requires Shape(s) && Shape(t)
  {
    || (t.enq == s.enq && t.deq == s.deq && Queued(t) == Queued(s))
    || (&& a.Produce? && (s.prod.PStoreTail? || s.prod.PPublish?) && t.prod == PDone(true, true)
        && t.enq == s.enq + [s.prod.e] && t.deq == s.deq && Queued(t) == Queued(s) + [s.prod.e])
    || (&& a.Consume? && s.cons.CStoreFront? && Queued(s) != [] && t.cons == CDone(s.cons.op, Some(Queued(s)[0]))
        && t.enq == s.enq && t.deq == s.deq + [Queued(s)[0]] && Queued(t) == Queued(s)[1..])
  }

  lemma StepEffect<T>(s: State<T>, a: Action<T>)
    requires Inv(s)
    ensures Inv(Step(s, a)) && Effect(s, a, Step(s, a))
  {
    hide *;
    InvShape(s);
    MoveShape(s, a);
    StepKeeps(s, a);
    var t := Step(s, a);
    InvShape(t);
    StepObserved(s, a);
    LogEffect(s, a, Move(s, a), t);
    QueueEffect(s, a, t);
  }

  /** What a step does to the two logs. */
  ghost predicate LogsMoved<T>(s: State<T>, a: Action<T>, t: State<T>) {
    || (t.enq == s.enq && t.deq == s.deq)
    || (a.Produce? && (s.prod.PStoreTail? || s.prod.PPublish?) && t.prod == PDone(true, true)
        && t.enq == s.enq + [s.prod.e] && t.deq == s.deq)
    || (a.Consume? && s.cons.CStoreFront? && t.cons == CDone(s.cons.op, Some(s.cons.v))
        && t.enq == s.enq && t.deq == s.deq + [s.cons.v])
  }

  lemma LogEffect<T>(s: State<T>, a: Action<T>, m: State<T>, t: State<T>)
    requires m == Move(s, a) && Observed(s, m, t)
    ensures LogsMoved(s, a, t)
  {
    hide Shape, Queued, ProducerMove, ConsumerMove;
    if a.Produce? {
      ProducerLogs(s, a);
    } else {
      ConsumerLogs(s, a);
    }
  }

  lemma ProducerLogs<T>(s: State<T>, a: Action<T>)
    requires a.Produce?
    ensures LogsMoved(s, a, ProducerMove(s, a))
  {
    match s.prod
    case PStoreTail(e, tb, bt, nt) =>
    case PPublish(e, n) =>
    case _ => assert ProducerMove(s, a).enq == s.enq;
  }

  lemma ConsumerLogs<T>(s: State<T>, a: Action<T>)
    requires a.Consume?
    ensures LogsMoved(s, a, ConsumerMove(s, a))
  {
    match s.cons
    case CStoreFront(op, fb, bf, v) =>
    case _ => assert ConsumerMove(s, a).enq == s.enq && ConsumerMove(s, a).deq == s.deq;
  }

  lemma QueueEffect<T>(s: State<T>, a: Action<T>, t: State<T>)
    requires Inv(s) && Inv(t) && LogsMoved(s, a, t)
    ensures Effect(s, a, t)
  {
    hide Shape, Queued, Arc, Lifetimes, ProducerOk, ConsumerOk, Capacity;
    var q, q' := Queued(s), Queued(t);
    if t.enq == s.enq && t.deq == s.deq {
      SameTail(s.deq, q, q');
    } else if t.deq == s.deq {
      assert s.enq + [s.prod.e] == s.deq + (q + [s.prod.e]);
      SameTail(s.deq, q + [s.prod.e], q');
    } else {
      assert s.deq + [s.cons.v] + q' == s.deq + ([s.cons.v] + q');
      SameTail(s.deq, q, [s.cons.v] + q');
    }
  }

  lemma SameTail<T>(a: seq<T>, b: seq<T>, c: seq<T>)
    requires a + b == a + c
    ensures b == c
  {
    assert (a + b)[|a|..] == b && (a + c)[|a|..] == c;
  }

  // ---- Slots -----------------------------------------------------------------------

  /** The slot a side is about to construct an element in, or to read one from. */
  ghost predicate Writes<T>(s: State<T>, i: nat, k: nat) {
    || (s.prod.PConstruct? && s.prod.tb == i && s.prod.bt == k)
    || (s.prod.PNextConstruct? && s.prod.n == i && s.prod.nt == k)
  }

  ghost predicate Reads<T>(s: State<T>, i: nat, k: nat) {
    || (s.cons.CTake? && s.cons.fb == i && s.cons.bf == k)
    || (s.cons.CPeek? && s.cons.b == i && s.cons.bf == k)
  }

  /** Elements are constructed in vacant slots only and read or destroyed in occupied
      slots only; so no slot is written while it is being read. */
  lemma SlotsAreExclusive<T>(s: State<T>, i: nat, k: nat)
    requires Inv(s)
    ensures Writes(s, i, k) ==> i < |s.blocks| && k < |s.blocks[i].live| && !s.blocks[i].live[k] && !Reads(s, i, k)
    ensures Reads(s, i, k) ==> i < |s.blocks| && k < |s.blocks[i].live| && s.blocks[i].live[k]
  {
    hide Linked, Distinct, Queued, Fifo, Capacity, Items;
    if Writes(s, i, k) {
      if s.prod.PNextConstruct? {
        SpareEmpty(s, i) by { assert IsSpare(s, i); }
      }
      assert s.blocks[i].live[k] <==> ShouldLive(s, i, k);
    }
    if Reads(s, i, k) {
      assert s.blocks[i].live[k] <==> ShouldLive(s, i, k);
    }
  }

  // ---- Refusals --------------------------------------------------------------------

  /** The queue as it was after the first `k` of the steps. */
  ghost function At<T>(s: State<T>, acts: seq<Action<T>>, k: nat): (t: State<T>)
    requires Inv(s) && k <= |acts|
    ensures Inv(t) && Shape(t)
  {
    Run(s, acts[..k])
  }

  /** The consumer starts no call in steps `k` and later. */
  ghost predicate NoNewTake<T>(s: State<T>, acts: seq<Action<T>>, k: nat)
    requires Inv(s) && k <= |acts|
  {
    forall j :: k <= j < |acts| ==> !(acts[j].Consume? && At(s, acts, j).cons.CIdle?)
  }

  ghost predicate NoNewPut<T>(s: State<T>, acts: seq<Action<T>>, k: nat)
    requires Inv(s) && k <= |acts|
  {
    forall j :: k <= j < |acts| ==> !(acts[j].Produce? && At(s, acts, j).prod.PIdle?)
  }

  lemma {:induction false} EmptyMoment<T>(s: State<T>, acts: seq<Action<T>>) returns (k: nat)
    requires Inv(s) && Queued(s) == [] && Run(s, acts).sawEmpty
    ensures k <= |acts| && Queued(At(s, acts, k)) == [] && NoNewTake(s, acts, k)
  {
    hide Inv, Shape, Queued, Move;
    var n := |acts|;
    assert acts[..n] == acts;
    if n == 0 || Queued(Run(s, acts)) == [] {
      k := n;
    } else {
      var before := acts[..n - 1];
      var u := Run(s, before);
      assert Run(s, acts) == Step(u, acts[n - 1]);
      StepSaw(u, acts[n - 1]);
      k := EmptyMoment(s, before);
      assert before[..k] == acts[..k];
      forall j | k <= j < n
        ensures !(acts[j].Consume? && At(s, acts, j).cons.CIdle?)
      {
        if j < n - 1 {
          assert before[..j] == acts[..j] && before[j] == acts[j];
        }
      }
    }
  }

  /** The history flags record what they say. */
  lemma StepSaw<T>(s: State<T>, a: Action<T>)
    requires Inv(s)
    ensures var t := Step(s, a);
            && Inv(t)
            && (t.sawEmpty <==> (s.sawEmpty && !(a.Consume? && s.cons.CIdle?)) || Queued(t) == [])
            && (t.sawFull <==> (s.sawFull && !(a.Produce? && s.prod.PIdle?)) || |Queued(t)| >= t.cap)
  {
    hide Inv, Move, Flat, Circle;
    InvShape(s);
    MoveShape(s, a);
    StepKeeps(s, a);
    InvShape(Step(s, a));
  }

  lemma {:induction false} FullMoment<T>(s: State<T>, acts: seq<Action<T>>) returns (k: nat)
    requires Inv(s) && !s.sawFull && Run(s, acts).sawFull
    ensures k <= |acts| && |Queued(At(s, acts, k))| >= At(s, acts, k).cap && NoNewPut(s, acts, k)
  {
    hide Inv, Shape, Queued, Move;
    var n := |acts|;
    assert acts[..n] == acts;
    if n > 0 {
      var before := acts[..n - 1];
      var u := Run(s, before);
      assert Run(s, acts) == Step(u, acts[n - 1]);
      StepSaw(u, acts[n - 1]);
      if |Queued(Run(s, acts))| >= Run(s, acts).cap {
        k := n;
      } else {
        k := FullMoment(s, before);
        assert before[..k] == acts[..k];
        forall j | k <= j < n
          ensures !(acts[j].Produce? && At(s, acts, j).prod.PIdle?)
        {
          if j < n - 1 {
            assert before[..j] == acts[..j] && before[j] == acts[j];
          }
        }
      }
    }
  }

  lemma {:induction false} RunCap<T>(s: State<T>, acts: seq<Action<T>>)
    requires Inv(s)
    ensures Run(s, acts).cap == s.cap
  {
    hide Inv, Shape, Queued;
    if acts != [] {
      RunCap(s, acts[..|acts| - 1]);
      MoveCap(Run(s, acts[..|acts| - 1]), acts[|acts| - 1]);
    }
  }

  lemma MoveCap<T>(s: State<T>, a: Action<T>)
    ensures Move(s, a).cap == s.cap
  {
  }

  /** A take that reports "empty" is right about some moment of its own call: the queue
      was empty after step `k`, and the call had begun by then. */
  lemma TakesRefuseOnlyWhenEmpty<T>(maxSize: nat, maxBlock: nat, junk: T, acts: seq<Action<T>>, op: Op)
      returns (k: nat)
    requires maxSize > 0 && maxBlock >= 2
    requires RunNew(maxSize, maxBlock, junk, acts).cons == CDone(op, None)
    ensures k <= |acts|
    ensures var s := Construct(maxSize, maxBlock, junk);
            Inv(s) && Queued(At(s, acts, k)) == [] && NoNewTake(s, acts, k)
  {
    hide Flat, Move, BlockCount, FirstBlockSize;
    ConstructedInv(maxSize, maxBlock, junk);
    var s := Construct(maxSize, maxBlock, junk);
    assert s.deq + Queued(s) == s.enq;
    k := EmptyMoment(s, acts);
  }

  /** A try_enqueue that refuses saw the queue hold all of maxSize at some moment of its
      own call; so none refuses while fewer are queued throughout. */
  lemma PutsRefuseOnlyWhenFull<T>(maxSize: nat, maxBlock: nat, junk: T, acts: seq<Action<T>>)
      returns (k: nat)
    requires maxSize > 0 && maxBlock >= 2
    requires RunNew(maxSize, maxBlock, junk, acts).prod == PDone(false, false)
    ensures k <= |acts|
    ensures var s := Construct(maxSize, maxBlock, junk);
            Inv(s) && |Queued(At(s, acts, k))| >= maxSize && NoNewPut(s, acts, k)
  {
    hide Flat, Move, BlockCount, FirstBlockSize;
    ConstructedInv(maxSize, maxBlock, junk);
    var s := Construct(maxSize, maxBlock, junk);
    k := FullMoment(s, acts);
    RunCap(s, acts[..k]);
  }

  /** enqueue fails only when allocation fails. */
  lemma EnqueueFailsOnlyWithMalloc<T>(s: State<T>, a: Action<T>)
    requires Inv(s) && Step(s, a).prod == PDone(true, false) && s.prod != PDone(true, false)
    ensures a.Produce? && s.prod.PAlloc? && !a.mallocOk
  {
    hide Inv, Shape, Queued, Move;
    MoveIs(s, a);
    if a.Produce? {
      MallocFailed(s, a);
    } else {
      ConsumerMovesAlone(s, a);
    }
  }

  lemma MallocFailed<T>(s: State<T>, a: Action<T>)
    requires a.Produce? && ProducerMove(s, a).prod == PDone(true, false) && s.prod != PDone(true, false)
    ensures s.prod.PAlloc? && !a.mallocOk
  {
    hide Put;
    PutProd(s);
  }

  lemma PutProd<T>(s: State<T>)
    ensures forall b, k, e :: Put(s, b, k, e).prod == s.prod && Put(s, b, k, e).cons == s.cons
  {
  }

  lemma ConsumerMovesAlone<T>(s: State<T>, a: Action<T>)
    requires a.Consume?
    ensures ConsumerMove(s, a).prod == s.prod
  {
  }

  lemma ProducerMovesAlone<T>(s: State<T>, a: Action<T>)
    requires a.Produce?
    ensures ProducerMove(s, a).cons == s.cons
  {
    hide Put, FilledBlock, Next;
    PutProd(s);
  }

  // ---- Every call completes --------------------------------------------------------

  /** An upper bound on the steps a call still takes, whatever the other side does. */
  function PutRank<T>(p: Producer<T>): nat {
    match p
    case PIdle => 0
    case PDone(_, _) => 0
    case PAssertFailed => 0
    case PTailBlock(_, _) => 11
    case PTail(_, _, _) => 10
    case PFront(_, _, _, _, _) => 9
    case PNext(_, _, _) => 8
    case PFrontBlock(_, _, _, _) => 7
    case PNextAgain(_, _) => 6
    case PNextFront(_, _) => 5
    case PNextTail(_, _, _) => 4
    case PNextConstruct(_, _, _) => 3
    case PNextStoreTail(_, _, _) => 2
    case PAlloc(_, _) => 4
    case PLinkNew(_, _, _) => 3
    case PLinkTail(_, _, _) => 2
    case PPublish(_, _) => 1
    case PConstruct(_, _, _, _) => 2
    case PStoreTail(_, _, _, _) => 1
  }

  function TakeRank<T>(c: Consumer<T>): nat {
    match c
    case CIdle => 0
    case CDone(_, _) => 0
    case CAssertFailed => 0
    case CFrontBlock(_) => 13
    case CFront(_, _) => 12
    case CTail(_, _, _) => 11
    case CTailBlock(_, _) => 10
    case CFrontBlockAgain(_) => 9
    case CTailAgain(_, _) => 8
    case CFrontAgain(_, _, _) => 7
    case CNext(_, _) => 6
    case CNextFront(_, _) => 5
    case CNextTail(_, _, _) => 4
    case CAdvance(_, _, _) => 3
    case CTake(_, _, _) => 2
    case CStoreFront(_, _, _, _) => 1
    case CPeek(_, _) => 1
  }

  /** Each side's own steps bring its call nearer its end, and the other's do not touch
      it: at most 11 steps for any enqueue and 13 for any take. */
  lemma StepsProgress<T>(s: State<T>, a: Action<T>)
    requires Inv(s)
    ensures var t := Step(s, a);
            && (a.Consume? ==> t.prod == s.prod)
            && (a.Produce? ==> t.cons == s.cons)
            && (a.Produce? && !s.prod.PIdle? && !s.prod.PDone? ==> PutRank(t.prod) < PutRank(s.prod))
            && (a.Consume? && !s.cons.CIdle? && !s.cons.CDone? ==> TakeRank(t.cons) < TakeRank(s.cons))
  {
    hide Flat, Items, Room, Lifetimes, Linked, Distinct, Arc, Capacity, Fifo, Move, ProducerMove, ConsumerMove,
        PutRank, TakeRank;
    hide ProducerOk, ConsumerOk, ProducerReady, ConsumerReady;
    MoveIs(s, a);
    Ready(s);
    NoAssertFails(s);
    if a.Produce? {
      ProducerMovesAlone(s, a);
      if !s.prod.PIdle? && !s.prod.PDone? {
        PutProgress(s, a);
      }
    } else {
      ConsumerMovesAlone(s, a);
      if !s.cons.CIdle? && !s.cons.CDone? {
        TakeProgress(s, a);
      }
    }
  }

  /** The block a side is at exists, and so does the slot it is about to fill. */
  ghost predicate ProducerReady<T>(s: State<T>) {
    match s.prod
    case PTail(_, _, tb) => tb < |s.blocks|
    case PFront(_, _, tb, _, _) => tb < |s.blocks|
    case PConstruct(_, tb, bt, _) => tb < |s.blocks| && bt < |s.blocks[tb].data| && bt < |s.blocks[tb].live|
    case PStoreTail(_, tb, _, _) => tb < |s.blocks|
    case PNext(_, _, tb) => tb < |s.blocks|
    case PNextAgain(_, tb) => tb < |s.blocks|
    case PNextFront(_, n) => n < |s.blocks|
    case PNextTail(_, n, _) => n < |s.blocks|
    case PNextConstruct(_, n, nt) => n < |s.blocks| && nt < |s.blocks[n].data| && nt < |s.blocks[n].live|
    case PNextStoreTail(_, n, _) => n < |s.blocks|
    case PAlloc(_, _) => s.largest > 0
    case PLinkNew(_, tb, n) => tb < |s.blocks| && n < |s.blocks|
    case PLinkTail(_, tb, _) => tb < |s.blocks| && s.ti < |s.ring|
    case _ => true
  }

  ghost predicate ConsumerReady<T>(s: State<T>) {
    match s.cons
    case CFront(_, fb) => fb < |s.blocks|
    case CTail(_, fb, _) => fb < |s.blocks|
    case CTailAgain(_, fb) => fb < |s.blocks|
    case CFrontAgain(_, fb, _) => fb < |s.blocks|
    case CNext(_, fb) => fb < |s.blocks|
    case CNextFront(_, n) => n < |s.blocks|
    case CNextTail(_, n, _) => n < |s.blocks|
    case CAdvance(_, _, _) => 0 < s.ti < |s.ring|
    case CTake(_, fb, bf) => fb < |s.blocks| && bf < |s.blocks[fb].data| && bf < |s.blocks[fb].live|
    case CStoreFront(_, fb, _, _) => fb < |s.blocks|
    case CPeek(b, bf) => b < |s.blocks| && bf < |s.blocks[b].data|
    case _ => true
  }

  lemma Ready<T>(s: State<T>)
    requires Inv(s)
    ensures ProducerReady(s) && ConsumerReady(s)
  {
    hide Flat, Items, Room, Lifetimes, Linked, Distinct, Arc, Fifo, Queued;
  }

  lemma PutProgress<T>(s: State<T>, a: Action<T>)
    requires a.Produce? && ProducerReady(s) && !s.prod.PIdle? && !s.prod.PDone? && !s.prod.PAssertFailed?
    ensures PutRank(ProducerMove(s, a).prod) < PutRank(s.prod)
  {
    hide Put, FilledBlock;
    if s.prod.PAlloc? || s.prod.PLinkNew? || s.prod.PLinkTail? {
      LinkProgress(s, a);
    }
  }

  lemma LinkProgress<T>(s: State<T>, a: Action<T>)
    requires a.Produce? && ProducerReady(s) && (s.prod.PAlloc? || s.prod.PLinkNew? || s.prod.PLinkTail?)
    ensures PutRank(ProducerMove(s, a).prod) < PutRank(s.prod)
  {
    hide Put, FilledBlock;
  }

  lemma TakeProgress<T>(s: State<T>, a: Action<T>)
    requires a.Consume? && ConsumerReady(s) && !s.cons.CIdle? && !s.cons.CDone? && !s.cons.CAssertFailed?
    ensures TakeRank(ConsumerMove(s, a).cons) < TakeRank(s.cons)
  {
    hide ConsumerMove, TakeRank;
    if s.cons.CFront? || s.cons.CTail? || s.cons.CFrontAgain? {
      LookingProgress(s, a);
    } else if s.cons.CNextTail? || s.cons.CTake? || s.cons.CStoreFront? || s.cons.CAdvance? || s.cons.CPeek? {
      TakingProgress(s, a);
    } else {
      OtherProgress(s, a);
    }
  }

  lemma LookingProgress<T>(s: State<T>, a: Action<T>)
    requires a.Consume? && ConsumerReady(s) && (s.cons.CFront? || s.cons.CTail? || s.cons.CFrontAgain?)
    ensures TakeRank(ConsumerMove(s, a).cons) < TakeRank(s.cons)
  {
  }

  lemma TakingProgress<T>(s: State<T>, a: Action<T>)
    requires a.Consume? && ConsumerReady(s)
    requires s.cons.CNextTail? || s.cons.CTake? || s.cons.CStoreFront? || s.cons.CAdvance? || s.cons.CPeek?
    ensures TakeRank(ConsumerMove(s, a).cons) < TakeRank(s.cons)
  {
  }

  lemma OtherProgress<T>(s: State<T>, a: Action<T>)
    requires a.Consume? && ConsumerReady(s)
    requires || s.cons.CFrontBlock? || s.cons.CTailBlock? || s.cons.CFrontBlockAgain? || s.cons.CTailAgain?
             || s.cons.CNext? || s.cons.CNextFront?
    ensures TakeRank(ConsumerMove(s, a).cons) < TakeRank(s.cons)
  {
  }
}
