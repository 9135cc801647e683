/** BlockingReaderWriterQueue: the lock-free queue and the semaphore together, one
    producer and one consumer interleaved at every load and store of either part. */
module BlockingQueue {
  import Q = SpscSteps
  import QT = SpscTheorems
  import S = Semaphore

  /** enqueue and try_enqueue: the inner call, then signal, which may have to post. */
  datatype Putter = PutIdle | PutInner | PutSignal | PutPost | PutDone(ok: bool) | PutAssertFailed

  /** The taking calls: first the semaphore, then the inner call, which must succeed.
      peek goes to the inner queue directly. */
  datatype Taker<T> =
    | TakeIdle
    | TakeWait(op: Q.Op)
    | TakeInner
    | TakePeek
    | TakeDone(res: Q.Option<T>)
    | TakeAssertFailed

  datatype State<T> = State(q: Q.State<T>, sem: S.Sem, p: Putter, w: Taker<T>)

  /** try_dequeue and pop poll, wait_dequeue waits forever, wait_dequeue_timed with a
      non-negative timeout may give up when the kernel semaphore times out. */
  datatype Action<T> =
    | Put(elem: T, canAlloc: bool, mallocOk: bool, junk: T)
    | Take(mode: S.Mode, op: Q.Op, timedOut: bool)

  ghost function PutStep<T>(s: State<T>, a: Action<T>): State<T>
    requires a.Put? && Q.Shape(s.q)
  {
    var q' := Q.Step(s.q, Q.Produce(a.elem, a.canAlloc, a.mallocOk, a.junk));
    match s.p
    case PutIdle => s.(q := q', p := PutInner)
    case PutInner =>
      s.(q := q', p := if !s.q.prod.PDone? then PutInner else if s.q.prod.ok then PutSignal else PutDone(false))
    case PutSignal =>
      if s.sem.count < -1 then s.(p := PutAssertFailed)
      else s.(sem := S.Step(s.sem, S.Signal(1)), p := if s.sem.count < 0 then PutPost else PutDone(true))
    case PutPost => s.(sem := S.Step(s.sem, S.Post), p := PutDone(true))
    case PutDone(_) => s.(p := PutIdle)
    case PutAssertFailed => s
  }

  ghost function TakeStep<T>(s: State<T>, a: Action<T>): State<T>
    requires a.Take? && Q.Shape(s.q)
  {
    var sem' := S.Step(s.sem, S.Wait(a.mode, a.timedOut));
    match s.w
    case TakeIdle =>
      if a.op == Q.Peek then s.(q := Q.Step(s.q, Q.Consume(Q.Peek)), w := TakePeek)
      else s.(sem := sem', w := TakeWait(a.op))
    case TakeWait(op) =>
      if s.sem.waiter == S.WDone(true) then s.(sem := sem', q := Q.Step(s.q, Q.Consume(op)), w := TakeInner)
      else if s.sem.waiter == S.WDone(false) then s.(sem := sem', w := TakeDone(Q.None))
      else s.(sem := sem')
    case TakeInner =>
      s.(q := Q.Step(s.q, Q.Consume(a.op)),
         w := if !s.q.cons.CDone? then TakeInner
              else if s.q.cons.res.None? then TakeAssertFailed else TakeDone(s.q.cons.res))
    case TakePeek =>
      s.(q := Q.Step(s.q, Q.Consume(a.op)), w := if !s.q.cons.CDone? then TakePeek else TakeDone(s.q.cons.res))
    case TakeDone(_) => s.(w := TakeIdle)
    case TakeAssertFailed => s
  }

  ghost function Step<T>(s: State<T>, a: Action<T>): State<T>
    requires Q.Shape(s.q)
  {
    if a.Put? then PutStep(s, a) else TakeStep(s, a)
  }

  // ---- The invariant -------------------------------------------------------------

  /** An element is queued whose signal is still to come. */
  ghost function Unsignalled<T>(s: State<T>): int {
    if (s.p.PutInner? && s.q.prod.PDone? && s.q.prod.ok) || s.p.PutSignal? then 1 else 0
  }

  /** A permit is taken whose element is still queued. */
  ghost function Claimed<T>(s: State<T>): int {
    if (s.w.TakeWait? && s.sem.waiter == S.WDone(true)) || (s.w.TakeInner? && !s.q.cons.CDone?) then 1 else 0
  }

  function OpOf<T>(c: Q.Consumer<T>): Q.Op {
    match c
    case CPeek(_, _) => Q.Peek
    case CIdle => Q.Peek
    case CAssertFailed => Q.Peek
    case CFrontBlock(op) => op
    case CFront(op, _) => op
    case CTail(op, _, _) => op
    case CTailBlock(op, _) => op
    case CFrontBlockAgain(op) => op
    case CTailAgain(op, _) => op
    case CFrontAgain(op, _, _) => op
    case CNext(op, _) => op
    case CNextFront(op, _) => op
    case CNextTail(op, _, _) => op
    case CAdvance(op, _, _) => op
    case CTake(op, _, _) => op
    case CStoreFront(op, _, _, _) => op
    case CDone(op, _) => op
  }

  /** The program counters of the parts agree. */
  ghost predicate Synced<T>(s: State<T>) {
    && !s.p.PutAssertFailed? && !s.w.TakeAssertFailed?
    && (s.p.PutInner? <==> !s.q.prod.PIdle?)
    && (s.w.TakeInner? || s.w.TakePeek? <==> !s.q.cons.CIdle?)
    && (s.w.TakeInner? ==> OpOf(s.q.cons) != Q.Peek)
    && (s.w.TakePeek? ==> OpOf(s.q.cons) == Q.Peek)
    && (s.w.TakeWait? <==> !s.sem.waiter.WIdle?)
    && (s.w.TakeWait? ==> s.w.op != Q.Peek)
    && s.sem.pending == (if s.p.PutPost? then 1 else 0)
  }

  /** Every queued element is accounted for: it has a permit, or its permit is claimed
      or owed to a waiter in debt, or its signal is still to come. */
  ghost predicate Balanced<T>(s: State<T>)
    requires Q.Shape(s.q)
  {
    |Q.Queued(s.q)| == s.sem.count + S.Debt(s.sem.waiter) + Claimed(s) + Unsignalled(s)
  }

  ghost predicate Inv<T>(s: State<T>) {
    && Q.Inv(s.q) && S.Inv(s.sem) && Synced(s) && Balanced(s)
    && (s.w.TakeInner? ==> if s.q.cons.CDone? then s.q.cons.res.Some? else !s.q.sawEmpty)
  }

  /** Everything a step of the inner queue does that matters here. */
  ghost predicate InnerStep<T>(q: Q.State<T>, a: Q.Action<T>, q': Q.State<T>)
    requires Q.Shape(q) && Q.Shape(q')
  {
    && (a.Consume? ==> q'.prod == q.prod) && (a.Produce? ==> q'.cons == q.cons)
    && (q'.sawEmpty <==> (q.sawEmpty && !(a.Consume? && q.cons.CIdle?)) || Q.Queued(q') == [])
    && (a.Produce? && q.prod.PIdle? ==> q'.prod == Q.PTailBlock(a.elem, a.canAlloc))
    && (a.Produce? && q.prod.PDone? ==> q'.prod == Q.PIdle)
    && (a.Produce? && !q.prod.PDone? ==> q'.prod != Q.PIdle)
    && (a.Consume? && q.cons.CIdle? ==> q'.cons == Q.CFrontBlock(a.op))
    && (a.Consume? && q.cons.CDone? ==> q'.cons == Q.CIdle)
    && (a.Consume? && !q.cons.CDone? ==> q'.cons != Q.CIdle)
    && (a.Consume? && !q.cons.CIdle? && !q.cons.CDone? ==> OpOf(q'.cons) == OpOf(q.cons))
    && |Q.Queued(q')| == |Q.Queued(q)|
         + (if a.Produce? && !q.prod.PDone? && q'.prod.PDone? && q'.prod.ok then 1 else 0)
         - (if a.Consume? && !q.cons.CDone? && q'.cons.CDone? && q'.cons.res.Some? &&
             OpOf(q.cons) != Q.Peek then 1 else 0)
  }

  lemma ProducerCounts<T>(s: Q.State<T>, a: Q.Action<T>)
    requires a.Produce? && QT.ProducerReady(s) && !s.prod.PAssertFailed?
    ensures var t := Q.ProducerMove(s, a);
            && (s.prod.PIdle? ==> t.prod == Q.PTailBlock(a.elem, a.canAlloc))
            && (s.prod.PDone? ==> t.prod == Q.PIdle)
            && (!s.prod.PDone? ==> t.prod != Q.PIdle)
            && |t.enq| == |s.enq| + (if !s.prod.PDone? && t.prod.PDone? && t.prod.ok then 1 else 0)
            && t.deq == s.deq
  {
    hide Q.ProducerMove;
    if s.prod.PPublish? || s.prod.PAlloc? || s.prod.PLinkNew? || s.prod.PLinkTail? {
      ProducerCountsLink(s, a);
    } else if s.prod.PTail? || s.prod.PFront? || s.prod.PConstruct? || s.prod.PStoreTail? {
      ProducerCountsHere(s, a);
    } else {
      ProducerCountsElsewhere(s, a);
    }
  }

  lemma ProducerCountsHere<T>(s: Q.State<T>, a: Q.Action<T>)
    requires a.Produce? && QT.ProducerReady(s)
    requires s.prod.PTail? || s.prod.PFront? || s.prod.PConstruct? || s.prod.PStoreTail?
    ensures var t := Q.ProducerMove(s, a);
            && t.prod != Q.PIdle
            && |t.enq| == |s.enq| + (if t.prod.PDone? && t.prod.ok then 1 else 0)
            && t.deq == s.deq
  {
    hide Q.Put;
    PutLogs(s);
  }

  lemma ProducerCountsElsewhere<T>(s: Q.State<T>, a: Q.Action<T>)
    requires a.Produce? && QT.ProducerReady(s) && !s.prod.PAssertFailed?
    requires !s.prod.PPublish? && !s.prod.PAlloc? && !s.prod.PLinkNew? && !s.prod.PLinkTail?
    requires !s.prod.PTail? && !s.prod.PFront? && !s.prod.PConstruct? && !s.prod.PStoreTail?
    ensures var t := Q.ProducerMove(s, a);
            && (s.prod.PIdle? ==> t.prod == Q.PTailBlock(a.elem, a.canAlloc))
            && (s.prod.PDone? ==> t.prod == Q.PIdle)
            && (!s.prod.PDone? ==> t.prod != Q.PIdle)
            && |t.enq| == |s.enq| + (if !s.prod.PDone? && t.prod.PDone? && t.prod.ok then 1 else 0)
            && t.deq == s.deq
  {
    hide Q.Put;
    PutLogs(s);
  }

  lemma ProducerCountsLink<T>(s: Q.State<T>, a: Q.Action<T>)
    requires a.Produce? && QT.ProducerReady(s)
    requires s.prod.PPublish? || s.prod.PAlloc? || s.prod.PLinkNew? || s.prod.PLinkTail?
    ensures var t := Q.ProducerMove(s, a);
            && t.prod != Q.PIdle
            && |t.enq| == |s.enq| + (if t.prod.PDone? && t.prod.ok then 1 else 0)
            && t.deq == s.deq
  {
    hide Q.FilledBlock, Q.Put;
  }

  lemma PutLogs<T>(s: Q.State<T>)
    ensures forall b, k, e :: Q.Put(s, b, k, e).enq == s.enq && Q.Put(s, b, k, e).deq == s.deq
  {
  }

  lemma ConsumerCounts<T>(s: Q.State<T>, a: Q.Action<T>)
    requires a.Consume? && QT.ConsumerReady(s) && !s.cons.CAssertFailed?
    requires s.cons.CStoreFront? ==> s.cons.op != Q.Peek
    ensures var t := Q.ConsumerMove(s, a);
            && (s.cons.CIdle? ==> t.cons == Q.CFrontBlock(a.op))
            && (s.cons.CDone? ==> t.cons == Q.CIdle)
            && (!s.cons.CDone? ==> t.cons != Q.CIdle)
            && t.enq == s.enq
            && |t.deq| == |s.deq| +
                 (if !s.cons.CDone? && t.cons.CDone? && t.cons.res.Some? && OpOf(s.cons) != Q.Peek then 1 else 0)
  {
    hide QT.ConsumerReady;
    if s.cons.CTake? || s.cons.CStoreFront? || s.cons.CPeek? {
      ConsumerCountsTake(s, a);
    }
  }

  lemma ConsumerCountsTake<T>(s: Q.State<T>, a: Q.Action<T>)
    requires a.Consume? && QT.ConsumerReady(s)
    requires s.cons.CTake? || s.cons.CStoreFront? || s.cons.CPeek?
    requires s.cons.CStoreFront? ==> s.cons.op != Q.Peek
    ensures var t := Q.ConsumerMove(s, a);
            && t.cons != Q.CIdle && t.enq == s.enq
            && |t.deq| == |s.deq| + (if t.cons.CDone? && t.cons.res.Some? && OpOf(s.cons) != Q.Peek then 1 else 0)
  {
  }

  lemma OpKept<T>(s: Q.State<T>, a: Q.Action<T>)
    requires a.Consume? && !s.cons.CIdle? && !s.cons.CDone? && !s.cons.CAssertFailed?
    ensures !Q.ConsumerMove(s, a).cons.CAssertFailed? ==> OpOf(Q.ConsumerMove(s, a).cons) == OpOf(s.cons)
  {
    hide Q.ConsumerMove, OpOf;
    if s.cons.CFront? || s.cons.CTail? || s.cons.CFrontAgain? {
      OpKeptLooking(s, a);
    } else if s.cons.CNextTail? || s.cons.CTake? || s.cons.CStoreFront? || s.cons.CAdvance? || s.cons.CPeek? {
      OpKeptTaking(s, a);
    } else {
      OpKeptElsewhere(s, a);
    }
  }

  lemma OpKeptLooking<T>(s: Q.State<T>, a: Q.Action<T>)
    requires a.Consume? && (s.cons.CFront? || s.cons.CTail? || s.cons.CFrontAgain?)
    ensures OpOf(Q.ConsumerMove(s, a).cons) == OpOf(s.cons)
  {
  }

  lemma OpKeptTaking<T>(s: Q.State<T>, a: Q.Action<T>)
    requires a.Consume?
    requires s.cons.CNextTail? || s.cons.CTake? || s.cons.CStoreFront? || s.cons.CAdvance? || s.cons.CPeek?
    ensures !Q.ConsumerMove(s, a).cons.CAssertFailed? ==> OpOf(Q.ConsumerMove(s, a).cons) == OpOf(s.cons)
  {
  }

  lemma OpKeptElsewhere<T>(s: Q.State<T>, a: Q.Action<T>)
    requires a.Consume?
    requires || s.cons.CFrontBlock? || s.cons.CTailBlock? || s.cons.CFrontBlockAgain? || s.cons.CTailAgain?
             || s.cons.CNext? || s.cons.CNextFront?
    ensures OpOf(Q.ConsumerMove(s, a).cons) == OpOf(s.cons)
  {
  }

  lemma StoringIsNoPeek<T>(s: Q.State<T>)
    requires Q.Inv(s)
    ensures s.cons.CStoreFront? ==> s.cons.op != Q.Peek
    ensures |Q.Queued(s)| == |s.enq| - |s.deq|
  {
    hide Q.Arc, Q.Lifetimes, Q.Capacity, Q.ProducerOk;
  }

  lemma InnerSteps<T>(q: Q.State<T>, a: Q.Action<T>)
    requires Q.Inv(q)
    ensures Q.Inv(Q.Step(q, a)) && InnerStep(q, a, Q.Step(q, a))
  {
    hide Q.Inv, Q.Shape, Q.Move, Q.Queued, QT.ProducerReady, QT.ConsumerReady, Q.ProducerMove, Q.ConsumerMove, OpOf;
    QT.InvShape(q);
    QT.StepKeeps(q, a);
    QT.StepSaw(q, a);
    var q' := Q.Step(q, a);
    QT.InvShape(q');
    QT.Ready(q);
    QT.NoAssertFails(q);
    QT.NoAssertFails(q');
    StoringIsNoPeek(q);
    StoringIsNoPeek(q');
    QT.MoveIs(q, a);
    if a.Produce? {
      QT.ProducerMovesAlone(q, a);
      ProducerCounts(q, a);
    } else {
      QT.ConsumerMovesAlone(q, a);
      ConsumerCounts(q, a);
      if !q.cons.CIdle? && !q.cons.CDone? {
        OpKept(q, a);
      }
    }
  }

  lemma PutKeeps<T>(s: State<T>, a: Action<T>)
    requires Inv(s) && a.Put?
    ensures Inv(PutStep(s, a))
  {
    hide Q.Inv, Q.Shape, Q.Step, Q.Queued, OpOf;
    QT.InvShape(s.q);
    var inner := Q.Produce(a.elem, a.canAlloc, a.mallocOk, a.junk);
    InnerSteps(s.q, inner);
    QT.InvShape(Q.Step(s.q, inner));
  }

  lemma TakeKeeps<T>(s: State<T>, a: Action<T>)
    requires Inv(s) && a.Take?
    ensures Inv(TakeStep(s, a))
  {
    hide Q.Inv, Q.Shape, Q.Step, Q.Queued, Q.ConsumerOk, OpOf;
    QT.InvShape(s.q);
    match s.w
    case TakeIdle => TakeIdleKeeps(s, a);
    case TakeWait(op) => TakeWaitKeeps(s, a);
    case TakeInner => TakeInnerKeeps(s, a);
    case TakePeek =>
      InnerSteps(s.q, Q.Consume(a.op));
      QT.InvShape(Q.Step(s.q, Q.Consume(a.op)));
    case TakeDone(_) =>
    case TakeAssertFailed =>
  }

  lemma TakeIdleKeeps<T>(s: State<T>, a: Action<T>)
    requires Inv(s) && a.Take? && s.w.TakeIdle?
    ensures Inv(TakeStep(s, a))
  {
    hide Q.Inv, Q.Shape, Q.Step, Q.Queued, Q.ConsumerOk, OpOf;
    QT.InvShape(s.q);
    InnerSteps(s.q, Q.Consume(Q.Peek));
    QT.InvShape(Q.Step(s.q, Q.Consume(Q.Peek)));
    StartedOp<T>(Q.Peek);
  }

  lemma TakeWaitKeeps<T>(s: State<T>, a: Action<T>)
    requires Inv(s) && a.Take? && s.w.TakeWait?
    ensures Inv(TakeStep(s, a))
  {
    hide Q.Inv, Q.Shape, Q.Step, Q.Queued, Q.ConsumerOk, OpOf;
    QT.InvShape(s.q);
    S.StepKeeps(s.sem, S.Wait(a.mode, a.timedOut));
    InnerSteps(s.q, Q.Consume(s.w.op));
    QT.InvShape(Q.Step(s.q, Q.Consume(s.w.op)));
    StartedOp<T>(s.w.op);
  }

  lemma StartedOp<T>(op: Q.Op)
    ensures OpOf<T>(Q.CFrontBlock(op)) == op
  {
  }

  /** The claimed permit guarantees that the queue is not empty during the inner call,
      and a call that never sees the queue empty does not come back empty-handed. */
  lemma TakeInnerKeeps<T>(s: State<T>, a: Action<T>)
    requires Inv(s) && a.Take? && s.w.TakeInner?
    ensures Inv(TakeStep(s, a))
  {
    hide Q.Inv, Q.Shape, Q.Step, Q.Queued, OpOf;
    QT.InvShape(s.q);
    InnerSteps(s.q, Q.Consume(a.op));
    var q' := Q.Step(s.q, Q.Consume(a.op));
    QT.InvShape(q');
    if q'.cons.CDone? && q'.cons.res.None? {
      NoneSawEmpty(q');
    }
  }

  lemma NoneSawEmpty<T>(q: Q.State<T>)
    requires Q.Inv(q) && q.cons.CDone? && q.cons.res.None?
    ensures q.sawEmpty
  {
    hide Q.Arc, Q.Lifetimes, Q.Capacity, Q.ProducerOk, Q.Fifo;
  }

  lemma StepKeeps<T>(s: State<T>, a: Action<T>)
    requires Inv(s) && Q.Shape(s.q)
    ensures Inv(Step(s, a))
  {
    hide Inv, PutStep, TakeStep;
    if a.Put? {
      PutKeeps(s, a);
    } else {
      TakeKeeps(s, a);
    }
  }

  // ---- Whole runs ------------------------------------------------------------------

  ghost function Construct<T>(maxSize: nat, maxBlock: nat, junk: T): State<T>
    requires maxSize > 0 && maxBlock >= 2
  {
    State(Q.Construct(maxSize, maxBlock, junk), S.Init(0), PutIdle, TakeIdle)
  }

  lemma ConstructedInv<T>(maxSize: nat, maxBlock: nat, junk: T)
    requires maxSize > 0 && maxBlock >= 2
    ensures Inv(Construct(maxSize, maxBlock, junk))
  {
    hide Q.Inv, Q.Shape, Q.Queued, Q.BlockCount, Q.FirstBlockSize;
    var q := Q.Construct(maxSize, maxBlock, junk);
    QT.ConstructedInv(maxSize, maxBlock, junk);
    QT.InvShape(q);
    StoringIsNoPeek(q);
  }

  ghost function Run<T>(s: State<T>, acts: seq<Action<T>>): (t: State<T>)
    requires Inv(s)
    ensures Inv(t)
  {
    if acts == [] then s else
    var u := Run(s, acts[..|acts| - 1]);
    QT.InvShape(u.q);
    StepKeeps(u, acts[|acts| - 1]);
    Step(u, acts[|acts| - 1])
  }

  /** The state after any interleaving of calls on a new queue. */
  ghost function RunNew<T>(maxSize: nat, maxBlock: nat, junk: T, acts: seq<Action<T>>): (t: State<T>)
    requires maxSize > 0 && maxBlock >= 2
    ensures Inv(t) && Q.Shape(t.q)
  {
    ConstructedInv(maxSize, maxBlock, junk);
    var t := Run(Construct(maxSize, maxBlock, junk), acts);
    QT.InvShape(t.q);
    t
  }

  /** In every interleaving: once the semaphore has granted a permit the inner call
      succeeds, no assertion fails, and the order is first in, first out. */
  lemma PermitsAreHonoured<T>(maxSize: nat, maxBlock: nat, junk: T, acts: seq<Action<T>>)
    requires maxSize > 0 && maxBlock >= 2
    ensures var s := RunNew(maxSize, maxBlock, junk, acts);
            && !s.w.TakeAssertFailed? && !s.p.PutAssertFailed?
            && !s.q.prod.PAssertFailed? && !s.q.cons.CAssertFailed?
            && s.q.deq + Q.Queued(s.q) == s.q.enq
  {
    hide Q.Shape, Q.Queued, Q.Arc, Q.Lifetimes, Q.Capacity;
    var s := RunNew(maxSize, maxBlock, junk, acts);
    QT.NoAssertFails(s.q);
  }

  /** size_approx, the available permits, never exceeds what is queued; and when no call
      is under way it is exact. */
  lemma PermitsAreQueued<T>(maxSize: nat, maxBlock: nat, junk: T, acts: seq<Action<T>>)
    requires maxSize > 0 && maxBlock >= 2
    ensures var s := RunNew(maxSize, maxBlock, junk, acts);
            var available := if s.sem.count > 0 then s.sem.count else 0;
            && available <= |Q.Queued(s.q)|
            && (s.p.PutIdle? && s.w.TakeIdle? ==> available == |Q.Queued(s.q)|)
  {
    hide Q.Inv, Q.Shape, Q.Queued;
  }

  /** A consumer that stays asleep while the producer is between calls has nothing to take. */
  lemma SleeperHasNothingToTake<T>(maxSize: nat, maxBlock: nat, junk: T, acts: seq<Action<T>>)
    requires maxSize > 0 && maxBlock >= 2
    ensures var s := RunNew(maxSize, maxBlock, junk, acts);
            s.p.PutIdle? && (s.sem.waiter.WSleep? || s.sem.waiter.WTimedSleep?) && s.sem.kernel == 0 ==>
              Q.Queued(s.q) == []
  {
    hide Q.Inv, Q.Shape, Q.Queued;
  }

  // ---- Calls come to an end ----------------------------------------------------------

  /** How many steps of its own the producer is from the end of its call. */
  function PutRank<T>(s: State<T>): nat {
    match s.p
    case PutInner => 3 + QT.PutRank(s.q.prod)
    case PutSignal => 2
    case PutPost => 1
    case _ => 0
  }

  /** And the consumer. */
  function TakeRank<T>(s: State<T>): nat {
    match s.w
    case TakeWait(_) => 15 + S.Rank(s.sem.waiter)
    case TakeInner => 1 + QT.TakeRank(s.q.cons)
    case TakePeek => 1 + QT.TakeRank(s.q.cons)
    case _ => 0
  }

  predicate Putting<T>(s: State<T>) {
    !s.p.PutIdle? && !s.p.PutDone?
  }

  predicate Taking<T>(s: State<T>) {
    !s.w.TakeIdle? && !s.w.TakeDone?
  }

  predicate Blocked<T>(s: State<T>, a: Action<T>) {
    a.Take? && s.w.TakeWait? && S.Blocked(s.sem, S.Wait(a.mode, a.timedOut))
  }

  predicate TriesTooSoon<T>(s: State<T>, a: Action<T>) {
    a.Take? && s.w.TakeWait? && S.TriesTooSoon(s.sem, S.Wait(a.mode, a.timedOut))
  }

  /** Each side's own steps bring its call nearer its end, at most 14 for a put, and the
      other's do not touch it. The exceptions are those of the semaphore: a take that the
      kernel keeps asleep, with nothing to take but what is about to be signalled, or with
      the post on its way, and one that tries too soon, with the post on its way. */
  lemma StepsProgress<T>(s: State<T>, a: Action<T>)
    requires Inv(s) && Q.Shape(s.q)
    ensures a.Put? ==> TakeRank(Step(s, a)) == TakeRank(s) && (Putting(s) ==> PutRank(Step(s, a)) < PutRank(s) <= 14)
    ensures a.Take? ==> PutRank(Step(s, a)) == PutRank(s)
    ensures a.Take? && Taking(s) && !Blocked(s, a) && !TriesTooSoon(s, a) ==> TakeRank(Step(s, a)) < TakeRank(s)
    ensures Blocked(s, a) ==> s.p.PutPost? || |Q.Queued(s.q)| == Unsignalled(s)
    ensures TriesTooSoon(s, a) ==> s.p.PutPost?
  {
    hide Q.Inv, Q.Shape, Q.Step, Q.Queued, QT.PutRank, QT.TakeRank, OpOf, S.Rank, S.Step;
    if a.Put? {
      PutProgress(s, a);
    } else {
      TakeProgress(s, a);
      if s.w.TakeWait? && S.InCall(s.sem.waiter) {
        S.WaitProgress(s.sem, S.Wait(a.mode, a.timedOut));
      }
    }
  }

  lemma PutProgress<T>(s: State<T>, a: Action<T>)
    requires Inv(s) && Q.Shape(s.q) && a.Put?
    ensures TakeRank(PutStep(s, a)) == TakeRank(s) && (Putting(s) ==> PutRank(PutStep(s, a)) < PutRank(s) <= 14)
  {
    hide Q.Inv, Q.Shape, Q.Step, Q.Queued, QT.TakeRank, OpOf, S.Rank;
    QT.StepsProgress(s.q, Q.Produce(a.elem, a.canAlloc, a.mallocOk, a.junk));
  }

  lemma TakeProgress<T>(s: State<T>, a: Action<T>)
    requires Inv(s) && Q.Shape(s.q) && a.Take?
    ensures PutRank(TakeStep(s, a)) == PutRank(s)
    ensures Taking(s) && !Blocked(s, a) && !TriesTooSoon(s, a) ==> TakeRank(TakeStep(s, a)) < TakeRank(s)
  {
    hide Q.Inv, Q.Shape, Q.Step, Q.Queued, QT.PutRank, OpOf;
    QT.StepsProgress(s.q, Q.Consume(Q.Peek));
    QT.StepsProgress(s.q, Q.Consume(a.op));
    if s.w.TakeWait? {
      QT.StepsProgress(s.q, Q.Consume(s.w.op));
      InnerSteps(s.q, Q.Consume(s.w.op));
      if S.InCall(s.sem.waiter) {
        S.WaitProgress(s.sem, S.Wait(a.mode, a.timedOut));
      }
    }
  }

  /** The take in progress will get an element. */
  predicate Promised<T>(s: State<T>) {
    match s.w
    case TakeWait(_) => S.Promised(s.sem)
    case TakeInner => true
    case TakeDone(res) => res.Some?
    case _ => false
  }

  lemma PromiseStands<T>(s: State<T>, a: Action<T>)
    requires Inv(s) && Q.Shape(s.q) && Taking(s) && Promised(s)
    ensures Promised(Step(s, a))
    ensures TakeRank(Step(s, a)) + (if a.Take? then 1 else 0) <= TakeRank(s)
  {
    hide Q.Inv, Q.Shape, Q.Step, Q.Queued, OpOf, TakeRank, Balanced;
    StepsProgress(s, a);
    if s.w.TakeWait? {
      if S.InCall(s.sem.waiter) {
        PromiseNotBlocked(s, a);
        S.PromiseStands(s.sem, S.Wait(S.Poll, false));
        S.PromiseStands(s.sem, S.Signal(1));
        S.PromiseStands(s.sem, S.Post);
        if a.Take? {
          S.PromiseStands(s.sem, S.Wait(a.mode, a.timedOut));
        }
      }
    }
  }

  lemma PromiseNotBlocked<T>(s: State<T>, a: Action<T>)
    requires s.w.TakeWait? && S.Promised(s.sem)
    ensures !Blocked(s, a) && !TriesTooSoon(s, a)
  {
  }

  function TakeSteps<T>(acts: seq<Action<T>>): nat {
    if acts == [] then 0 else TakeSteps(acts[..|acts| - 1]) + if acts[|acts| - 1].Take? then 1 else 0
  }

  /** In every run: a waiting take for which an element is queued and signalled, with no post
      on its way, returns an element within the steps that it is from its end: it is not
      left asleep, nor sent away by its timeout. */
  lemma TakeSucceedsWithin<T>(s: State<T>, acts: seq<Action<T>>) returns (k: nat)
    requires Inv(s) && Q.Shape(s.q) && s.w.TakeWait? && s.sem.waiter != S.WDone(false)
    requires !s.p.PutPost? && |Q.Queued(s.q)| > Unsignalled(s)
    requires TakeSteps(acts) >= TakeRank(s)
    ensures k <= |acts| && Run(s, acts[..k]).w.TakeDone? && Run(s, acts[..k]).w.res.Some?
  {
    hide Q.Inv, Q.Shape, Q.Queued, Run, TakeSteps, S.Rank;
    if S.InCall(s.sem.waiter) {
      S.PromisedExactlyWhen(s.sem);
    }
    k := PromiseIsKept(s, acts);
    var t := Run(s, acts);
    assert Taking(t) && Promised(t) ==> TakeRank(t) > 0;
  }

  /** Until it has got one it stays as far from its end as its steps have brought it. */
  lemma {:induction false} PromiseIsKept<T>(s: State<T>, acts: seq<Action<T>>) returns (k: nat)
    requires Inv(s) && Taking(s) && Promised(s)
    ensures k <= |acts|
    ensures || (Run(s, acts[..k]).w.TakeDone? && Run(s, acts[..k]).w.res.Some?)
            || (k == |acts| && Taking(Run(s, acts)) && Promised(Run(s, acts)) &&
                TakeRank(Run(s, acts)) + TakeSteps(acts) <= TakeRank(s))
    decreases |acts|
  {
    hide Inv, TakeRank, Step, S.Promised;
    if acts == [] {
      k := 0;
    } else {
      var init, a := acts[..|acts| - 1], acts[|acts| - 1];
      k := PromiseIsKept(s, init);
      assert acts[..k] == init[..k];
      var u := Run(s, init);
      if !(Run(s, acts[..k]).w.TakeDone? && Run(s, acts[..k]).w.res.Some?) {
        ShapeHolds(u);
        PromiseStands(u, a);
        k := |acts|;
        assert acts[..k] == acts;
      }
    }
  }

  lemma ShapeHolds<T>(s: State<T>)
    requires Inv(s)
    ensures Q.Shape(s.q)
  {
    QT.InvShape(s.q);
  }

  // ---- What the taking calls promise -----------------------------------------------------

  /** Where the consumer can be in a taking call that waits in mode `m`; wait_dequeue, which
      waits forever, does not come back without an element. */
  predicate InTake<T>(m: S.Mode, s: State<T>) {
    match s.w
    case TakeWait(_) => S.Of(m, s.sem.waiter)
    case TakeInner => true
    case TakeDone(res) => res.Some? || m != S.Forever
    case _ => false
  }

  lemma TakeModeStays<T>(m: S.Mode, s: State<T>, a: Action<T>)
    requires Inv(s) && Q.Shape(s.q) && Taking(s) && InTake(m, s)
    ensures InTake(m, Step(s, a))
  {
    hide Q.Inv, Q.Shape, Q.Step, Q.Queued, OpOf, Balanced;
    if a.Put? {
      hide S.Step;
      S.SignalsLeaveWaiter(s.sem, S.Signal(1));
      S.SignalsLeaveWaiter(s.sem, S.Post);
    } else if s.w.TakeWait? && S.InCall(s.sem.waiter) {
      S.ModeStays(s.sem, S.Wait(a.mode, a.timedOut), m);
    }
  }

  /** The call goes on during all of the steps `acts`. */
  ghost predicate GoesOn<T>(s: State<T>, acts: seq<Action<T>>)
    requires Inv(s)
  {
    forall k :: 0 <= k < |acts| ==> Taking(Run(s, acts[..k]))
  }

  /** In every run: a taking call stays where its mode allows, to its end; wait_dequeue comes
      back with an element. */
  lemma {:induction false} TakeKeepsMode<T>(m: S.Mode, s: State<T>, acts: seq<Action<T>>)
    requires Inv(s) && InTake(m, s) && GoesOn(s, acts)
    ensures InTake(m, Run(s, acts))
    decreases |acts|
  {
    hide Inv, InTake, Step;
    if acts != [] {
      var init, a := acts[..|acts| - 1], acts[|acts| - 1];
      forall k | 0 <= k < |init|
        ensures Taking(Run(s, init[..k]))
      {
        assert init[..k] == acts[..k];
      }
      TakeKeepsMode(m, s, init);
      assert acts[..|init|] == init;
      ShapeHolds(Run(s, init));
      TakeModeStays(m, Run(s, init), a);
    }
  }

  /** So the step that begins a call puts it there. */
  lemma TakeBegins<T>(s: State<T>, a: Action<T>)
    requires Inv(s) && Q.Shape(s.q) && a.Take? && s.w.TakeIdle? && a.op != Q.Peek
    ensures InTake(a.mode, Step(s, a)) && Taking(Step(s, a))
  {
    hide Q.Inv, Q.Shape, Q.Step, Q.Queued, OpOf, Balanced;
  }

  /** How many steps of its own a call that polls is from its end, at most 17. */
  function PollRank<T>(s: State<T>): nat {
    match s.w
    case TakeWait(_) => if s.sem.waiter.WTry? then 17 else if s.sem.waiter.WTake? then 16 else 15
    case TakeInner => 1 + QT.TakeRank(s.q.cons)
    case _ => 0
  }

  /** try_dequeue and pop are never kept asleep: each of their own steps brings them nearer
      their end. */
  lemma PollProgress<T>(s: State<T>, a: Action<T>)
    requires Inv(s) && Q.Shape(s.q) && Taking(s) && InTake(S.Poll, s)
    ensures !Blocked(s, a) && PollRank(s) <= 17
    ensures if a.Take? then PollRank(Step(s, a)) < PollRank(s) else PollRank(Step(s, a)) == PollRank(s)
  {
    hide Q.Inv, Q.Shape, Q.Step, Q.Queued, OpOf, Balanced;
    if a.Take? {
      QT.StepsProgress(s.q, Q.Consume(a.op));
      if s.w.TakeWait? {
        InnerSteps(s.q, Q.Consume(s.w.op));
      }
    } else {
      QT.StepsProgress(s.q, Q.Produce(a.elem, a.canAlloc, a.mallocOk, a.junk));
    }
  }

  /** In every run: such a call is over after 17 steps of its own, empty-handed or not. */
  lemma PollEndsWithin<T>(s: State<T>, acts: seq<Action<T>>) returns (k: nat)
    requires Inv(s) && Taking(s) && InTake(S.Poll, s) && TakeSteps(acts) >= 17
    ensures k <= |acts| && Run(s, acts[..k]).w.TakeDone?
  {
    hide Inv, Run, TakeSteps, PollRank, InTake;
    k := PollNearsEnd(s, acts);
    if !Run(s, acts[..k]).w.TakeDone? {
      var t := Run(s, acts);
      ShapeHolds(s);
      ShapeHolds(t);
      RankAtMost(s);
      RankPositive(t);
    }
  }

  lemma RankAtMost<T>(s: State<T>)
    requires Inv(s) && Taking(s) && InTake(S.Poll, s)
    ensures PollRank(s) <= 17
  {
    hide Inv;
  }

  lemma RankPositive<T>(s: State<T>)
    requires Taking(s) && InTake(S.Poll, s)
    ensures PollRank(s) > 0
  {
  }

  lemma {:induction false} PollNearsEnd<T>(s: State<T>, acts: seq<Action<T>>) returns (k: nat)
    requires Inv(s) && Taking(s) && InTake(S.Poll, s)
    ensures k <= |acts|
    ensures || Run(s, acts[..k]).w.TakeDone?
            || (k == |acts| && Taking(Run(s, acts)) && InTake(S.Poll, Run(s, acts)) &&
                PollRank(Run(s, acts)) + TakeSteps(acts) <= PollRank(s))
    decreases |acts|
  {
    hide Inv, PollRank, Step, S.Of;
    if acts == [] {
      k := 0;
    } else {
      var init, a := acts[..|acts| - 1], acts[|acts| - 1];
      k := PollNearsEnd(s, init);
      assert acts[..k] == init[..k];
      var u := Run(s, init);
      if !Run(s, acts[..k]).w.TakeDone? {
        ShapeHolds(u);
        PollProgress(u, a);
        TakeModeStays(S.Poll, u, a);
        k := |acts|;
        assert acts[..k] == acts;
      }
    }
  }
}
