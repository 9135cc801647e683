/** The step system with the other side at rest: what a whole call does. */
module SpscSolo {
  import opened Blocks
  import opened SpscSteps
  import opened SpscTheorems
  import SpscProducer
  import SpscConsumer

  lemma PutAdvances<T>(s: State<T>, a: Action<T>)
    requires Inv(s) && Shape(s) && a.Produce? && !s.prod.PIdle?
    ensures Inv(Step(s, a)) && Shape(Step(s, a)) && Step(s, a).cons == s.cons
    ensures s.prod.PDone? ==> Step(s, a).prod == PIdle
    ensures !s.prod.PDone? ==> PutRank(Step(s, a).prod) < PutRank(s.prod) && Step(s, a).prod != PIdle
  {
    hide Inv, Shape, Queued, PutRank, ProducerMove;
    StepKeeps(s, a);
    StepsProgress(s, a);
    InvShape(Step(s, a));
    MoveIs(s, a);
    IdleOnlyAfterDone(s, a);
  }

  lemma IdleOnlyAfterDone<T>(s: State<T>, a: Action<T>)
    requires a.Produce? && !s.prod.PIdle?
    ensures s.prod.PDone? <==> ProducerMove(s, a).prod == PIdle
  {
    hide Put, FilledBlock;
    PutProd(s);
    if s.prod.PPublish? || s.prod.PAlloc? || s.prod.PLinkNew? || s.prod.PLinkTail? {
      LinkingIsNotIdle(s, a);
    }
  }

  lemma LinkingIsNotIdle<T>(s: State<T>, a: Action<T>)
    requires a.Produce? && (s.prod.PPublish? || s.prod.PAlloc? || s.prod.PLinkNew? || s.prod.PLinkTail?)
    ensures ProducerMove(s, a).prod != PIdle
  {
    hide Put, FilledBlock;
  }

  /** Runs the producer alone until its call returns. */
  ghost function PutAlone<T>(s: State<T>, a: Action<T>): (r: (State<T>, bool))
    requires Inv(s) && Shape(s) && a.Produce? && !s.prod.PIdle?
    ensures Inv(r.0) && Shape(r.0) && r.0.prod == PIdle && r.0.cons == s.cons
    decreases PutRank(s.prod), if s.prod.PDone? then 0 else 1
  {
    hide Inv, Shape, Step, PutRank;
    PutAdvances(s, a);
    if s.prod.PDone? then (Step(s, a), s.prod.ok) else PutAlone(Step(s, a), a)
  }

  /** `t` is `s` but for the history flags. */
  ghost predicate Same<T>(s: State<T>, t: State<T>) {
    t == s.(sawEmpty := t.sawEmpty, sawFull := t.sawFull)
  }

  /** One step of PutAlone. */
  lemma PutStep<T>(s: State<T>, a: Action<T>) returns (t: State<T>)
    requires Inv(s) && Shape(s) && a.Produce? && !s.prod.PIdle? && !s.prod.PDone?
    ensures Inv(t) && Shape(t) && Same(ProducerMove(s, a), t) && !t.prod.PIdle? && PutAlone(s, a) == PutAlone(t, a)
  {
    hide Inv, Shape, Queued, PutRank, ProducerMove;
    PutAdvances(s, a);
    t := Step(s, a);
    MoveIs(s, a);
    MoveShape(s, a);
    StepObserved(s, a);
  }

  lemma PutReturns<T>(s: State<T>, a: Action<T>)
    requires Inv(s) && Shape(s) && a.Produce? && s.prod.PDone?
    ensures Same(s.(prod := PIdle), PutAlone(s, a).0) && PutAlone(s, a).1 == s.prod.ok
  {
    hide Inv, Shape, Queued, PutRank;
    PutAdvances(s, a);
    MoveIs(s, a);
    MoveShape(s, a);
    StepObserved(s, a);
  }

  /** The block with `e` put at its tail. */
  function Pushed<T>(b: Block<T>, e: T): Block<T>
    requires b.tail < |b.data| && b.tail < |b.live|
  {
    b.(data := b.data[b.tail := e], live := b.live[b.tail := true], tail := Next(b.tail, b.size))
  }

  /** From the point where there is known to be room in the tail block. */
  lemma PutHere<T>(s: State<T>, a: Action<T>, e: T, tb: nat, bt: nat, nt: nat)
    requires Inv(s) && Shape(s) && a.Produce? && s.prod == PConstruct(e, tb, bt, nt)
    ensures tb == s.tailBlock < |s.blocks| && Wf(s.blocks[tb])
    ensures Same(s.(blocks := s.blocks[tb := Pushed(s.blocks[tb], e)], enq := s.enq + [e], prod := PIdle),
                 PutAlone(s, a).0)
    ensures PutAlone(s, a).1
  {
    hide PutAlone, Flat, Items, Room, Lifetimes, Linked, Distinct, Arc, Capacity, Fifo, ConsumerOk, Queued;
    var s1 := PutStep(s, a);
    var s2 := PutStep(s1, a);
    PutReturns(s2, a);
    assert s2.blocks == s.blocks[tb := Pushed(s.blocks[tb], e)];
  }

  /** From the point where the block after the tail block is known not to be the front
      block. */
  lemma PutNextBlock<T>(s: State<T>, a: Action<T>, e: T, tb: nat)
    requires Inv(s) && Shape(s) && a.Produce? && s.prod == PNextAgain(e, tb)
    ensures tb == s.tailBlock && s.ti + 1 < |s.ring| && s.blocks[tb].next == s.ring[s.ti + 1]
    ensures var n := s.blocks[tb].next;
            && n < |s.blocks| && Wf(s.blocks[n])
            && var c := Pushed(s.blocks[n].(localFront := s.blocks[n].front), e);
               Same(s.(blocks := s.blocks[n := c], tailBlock := n, ti := s.ti + 1, enq := s.enq + [e], prod := PIdle),
                    PutAlone(s, a).0)
    ensures PutAlone(s, a).1
  {
    hide PutAlone, Flat, Items, Room, Lifetimes, Linked, Distinct, Arc, Capacity, Fifo, ConsumerOk, Queued;
    assert Linked(s.blocks, s.ring, s.ti);
    var s1 := PutStep(s, a);
    var n := s.blocks[tb].next;
    assert s1.prod == PNextFront(e, n) && s1.blocks == s.blocks;
    PutSpare(s1, a, e, n);
  }

  /** What the steps from the spare block on are. */
  lemma SpareMoves<T>(s: State<T>, a: Action<T>)
    requires a.Produce?
    ensures s.prod.PNextFront? ==> ProducerMove(s, a) == AtPNextFront(s, s.prod.e, s.prod.n)
    ensures s.prod.PNextTail? ==> ProducerMove(s, a) == AtPNextTail(s, s.prod.e, s.prod.n, s.prod.nf)
    ensures s.prod.PNextConstruct? ==>
              ProducerMove(s, a) ==
              Put(s, s.prod.n, s.prod.nt, s.prod.e).(prod := PNextStoreTail(s.prod.e, s.prod.n, s.prod.nt))
    ensures s.prod.PNextStoreTail? ==> ProducerMove(s, a) == AtPNextStoreTail(s, s.prod.e, s.prod.n, s.prod.nt)
    ensures s.prod.PPublish? ==> ProducerMove(s, a) == AtPPublish(s, s.prod.e, s.prod.n)
    ensures s.prod.PLinkNew? ==> ProducerMove(s, a) == AtPLinkNew(s, s.prod.e, s.prod.tb, s.prod.n)
    ensures s.prod.PLinkTail? ==> ProducerMove(s, a) == AtPLinkTail(s, s.prod.e, s.prod.tb, s.prod.n)
  {
  }

  lemma PutSpare<T>(s: State<T>, a: Action<T>, e: T, n: nat)
    requires Inv(s) && Shape(s) && a.Produce? && s.prod == PNextFront(e, n)
    ensures n < |s.blocks| && Wf(s.blocks[n])
    ensures var c := Pushed(s.blocks[n].(localFront := s.blocks[n].front), e);
            Same(s.(blocks := s.blocks[n := c], tailBlock := n, ti := s.ti + 1, enq := s.enq + [e], prod := PIdle),
                 PutAlone(s, a).0)
    ensures PutAlone(s, a).1
  {
    hide PutAlone, Flat, Items, Room, Lifetimes, Linked, Distinct, Arc, Capacity, Fifo, ConsumerOk, Queued;
    hide Inv, Shape, ProducerOk, ProducerMove;
    var b := SpareBlock(s, n);
    SpareMoves(s, a);
    var s1 := PutStep(s, a);
    assert s1.blocks == s.blocks[n := b.(localFront := b.front)] && s1.prod == PNextTail(e, n, b.front);
    PutSpareSeen(s1, a, e, n);
  }

  lemma PutSpareSeen<T>(s: State<T>, a: Action<T>, e: T, n: nat)
    requires Inv(s) && Shape(s) && a.Produce? && n < |s.blocks| && Wf(s.blocks[n])
    requires s.prod == PNextTail(e, n, s.blocks[n].front) && s.blocks[n].localFront == s.blocks[n].front
    ensures Same(s.(blocks := s.blocks[n := Pushed(s.blocks[n], e)], tailBlock := n, ti := s.ti + 1,
                    enq := s.enq + [e], prod := PIdle),
                 PutAlone(s, a).0)
    ensures PutAlone(s, a).1
  {
    hide PutAlone, Inv, Shape, Queued, ProducerMove;
    SpareMoves(s, a);
    var t := PutStep(s, a);
    NoAssertFails(t);
    assert t.blocks == s.blocks && t.prod == PNextConstruct(e, n, s.blocks[n].tail);
    PutSpareFilled(t, a, e, n, s.blocks[n].tail);
  }

  lemma SpareBlock<T>(s: State<T>, n: nat) returns (b: Block<T>)
    requires Inv(s) && s.prod.PNextFront? && s.prod.n == n
    ensures n < |s.blocks| && b == s.blocks[n] && Wf(b) && Wf(b.(localFront := b.front))
  {
    hide Flat, Items, Room, Lifetimes, Linked, Distinct, Arc, Capacity, Fifo, ConsumerOk, Queued;
    b := s.blocks[n];
  }

  lemma PutSpareFilled<T>(s: State<T>, a: Action<T>, e: T, n: nat, nt: nat)
    requires Inv(s) && Shape(s) && a.Produce? && s.prod == PNextConstruct(e, n, nt)
    ensures n < |s.blocks| && Wf(s.blocks[n])
    ensures Same(s.(blocks := s.blocks[n := Pushed(s.blocks[n], e)], tailBlock := n, ti := s.ti + 1,
                    enq := s.enq + [e], prod := PIdle),
                 PutAlone(s, a).0)
    ensures PutAlone(s, a).1
  {
    hide PutAlone, Inv, Shape, Queued, ProducerMove;
    FillingSpare(s, n, nt);
    SpareMoves(s, a);
    var s1 := PutStep(s, a);
    SpareMoves(s1, a);
    var s2 := PutStep(s1, a);
    assert s2.blocks == s.blocks[n := Pushed(s.blocks[n], e)] && s2.prod == PPublish(e, n);
    PutPublished(s2, a, e, n);
  }

  lemma FillingSpare<T>(s: State<T>, n: nat, nt: nat)
    requires Inv(s) && s.prod.PNextConstruct? && s.prod.n == n && s.prod.nt == nt
    ensures n < |s.blocks| && Wf(s.blocks[n]) && nt == s.blocks[n].tail
  {
    hide Flat, Items, Room, Lifetimes, Linked, Distinct, Arc, Capacity, Fifo, ConsumerOk, Queued;
  }

  function GrownSize<T>(s: State<T>): nat {
    if s.largest >= s.maxBlock then s.largest else s.largest * 2
  }

  lemma TailBlockThere<T>(s: State<T>)
    requires Inv(s)
    ensures s.tailBlock < |s.blocks| && GrownSize(s) >= 2
    ensures s.prod.PAlloc? ==> s.prod.tb == s.tailBlock
    ensures s.prod.PLinkNew? ==> s.prod.tb == s.tailBlock
  {
    hide Flat, Items, Room, Lifetimes, Linked, Distinct, Arc, Fifo, ConsumerOk, Queued;
  }

  /** From the point where a new block is needed. */
  lemma PutNewBlock<T>(s: State<T>, a: Action<T>, e: T, tb: nat)
    requires Inv(s) && Shape(s) && a.Produce? && s.prod == PAlloc(e, tb)
    ensures tb == s.tailBlock < |s.blocks| && GrownSize(s) >= 2
    ensures PutAlone(s, a).1 == a.mallocOk
    ensures a.mallocOk ==>
              var n, b := |s.blocks|, s.blocks[tb];
              Same(s.(blocks := s.blocks[tb := b.(next := n)] + [FilledBlock(GrownSize(s), e, a.junk).(next := b.next)],
                      largest := GrownSize(s), ring := s.ring[..s.ti + 1] + [n] + s.ring[s.ti + 1..],
                      tailBlock := n, ti := s.ti + 1, enq := s.enq + [e], prod := PIdle),
                   PutAlone(s, a).0)
    ensures !a.mallocOk ==> Same(s.(prod := PIdle), PutAlone(s, a).0)
  {
    hide PutAlone, Inv, Shape, FilledBlock, Queued;
    TailBlockThere(s);
    var s1 := PutStep(s, a);
    if a.mallocOk {
      assert s1.blocks == s.blocks + [FilledBlock(GrownSize(s), e, a.junk)];
      assert s1.blocks[..|s.blocks|] == s.blocks;
      PutLinked(s1, a, e, tb, |s.blocks|);
    } else {
      PutReturns(s1, a);
    }
  }

  lemma PutLinked<T>(s: State<T>, a: Action<T>, e: T, tb: nat, n: nat)
    requires Inv(s) && Shape(s) && a.Produce? && s.prod == PLinkNew(e, tb, n) && n == |s.blocks| - 1 && n != tb
    ensures tb < |s.blocks| && s.ti < |s.ring|
    ensures PutAlone(s, a).1
    ensures var b := s.blocks[tb];
            Same(s.(blocks := s.blocks[..n][tb := b.(next := n)] + [s.blocks[n].(next := b.next)],
                    ring := s.ring[..s.ti + 1] + [n] + s.ring[s.ti + 1..],
                    tailBlock := n, ti := s.ti + 1, enq := s.enq + [e], prod := PIdle),
                 PutAlone(s, a).0)
  {
    hide PutAlone, Inv, Queued, AllWf, Circle, ProducerMove;
    TailBlockThere(s);
    var b := s.blocks[tb];
    SpareMoves(s, a);
    var s1 := PutStep(s, a);
    assert s1.blocks == s.blocks[n := s.blocks[n].(next := b.next)] && s1.prod == PLinkTail(e, tb, n);
    SpareMoves(s1, a);
    var s2 := PutStep(s1, a);
    assert s2.blocks == s.blocks[..n][tb := b.(next := n)] + [s.blocks[n].(next := b.next)];
    PutPublished(s2, a, e, n);
  }

  lemma PutPublished<T>(s: State<T>, a: Action<T>, e: T, n: nat)
    requires Inv(s) && Shape(s) && a.Produce? && s.prod == PPublish(e, n)
    ensures PutAlone(s, a).1
    ensures Same(s.(tailBlock := n, ti := s.ti + 1, enq := s.enq + [e], prod := PIdle), PutAlone(s, a).0)
  {
    hide PutAlone, Inv, Shape, Queued;
    var s1 := PutStep(s, a);
    PutReturns(s1, a);
  }

  /** A whole call of enqueue or try_enqueue with nobody else moving. */
  ghost function Enqueue<T>(s: State<T>, a: Action<T>): (r: (State<T>, bool))
    requires Inv(s) && Shape(s) && a.Produce? && s.prod.PIdle?
    ensures Inv(r.0) && Shape(r.0) && r.0.prod == PIdle && r.0.cons == s.cons
  {
    hide Inv, Shape, Step;
    PutCalled(s, a);
    PutAlone(Step(s, a), a)
  }

  lemma PutCalled<T>(s: State<T>, a: Action<T>)
    requires Inv(s) && Shape(s) && a.Produce? && s.prod.PIdle?
    ensures var t := Step(s, a);
            Inv(t) && Shape(t) && Same(s.(prod := PTailBlock(a.elem, a.canAlloc)), t)
            && (t.sawFull ==> |Queued(t)| >= t.cap) && Queued(t) == Queued(s)
  {
    hide Inv, Shape, Queued;
    StepKeeps(s, a);
    InvShape(Step(s, a));
    StepsProgress(s, a);
    MoveShape(s, a);
    StepObserved(s, a);
    StepSaw(s, a);
    StepEffect(s, a);
  }

  lemma PutStarted<T>(s: State<T>, a: Action<T>) returns (t: State<T>)
    requires Inv(s) && Shape(s) && a.Produce? && s.prod.PIdle?
    ensures Inv(t) && Shape(t) && Same(s.(prod := PTail(a.elem, a.canAlloc, s.tailBlock)), t)
    ensures Enqueue(s, a) == PutAlone(t, a) && s.tailBlock < |s.blocks| && Wf(s.blocks[s.tailBlock])
  {
    hide Inv, PutAlone, Queued, Distinct, Linked;
    PutCalled(s, a);
    t := PutStep(Step(s, a), a);
  }

  /** Room by the producer's own reckoning. */
  lemma EnqueueQuick<T>(s: State<T>, a: Action<T>)
    requires Inv(s) && Shape(s) && a.Produce? && s.prod.PIdle?
    requires var b := s.blocks[s.tailBlock]; Next(b.tail, b.size) != b.localFront
    ensures var b := s.blocks[s.tailBlock];
            && Wf(b) && Enqueue(s, a).1
            && Same(s.(blocks := s.blocks[s.tailBlock := Pushed(b, a.elem)], enq := s.enq + [a.elem]), Enqueue(s, a).0)
  {
    hide Inv, Shape, PutAlone, Queued, Enqueue;
    var t := PutStarted(s, a);
    var b := s.blocks[s.tailBlock];
    var u := PutStep(t, a);
    PutHere(u, a, a.elem, s.tailBlock, b.tail, Next(b.tail, b.size));
  }

  lemma PutReread<T>(s: State<T>, a: Action<T>) returns (u: State<T>)
    requires Inv(s) && Shape(s) && a.Produce? && s.prod.PIdle?
    requires var b := s.blocks[s.tailBlock]; Next(b.tail, b.size) == b.localFront
    ensures Inv(u) && Shape(u) && s.tailBlock < |s.blocks| && Wf(s.blocks[s.tailBlock])
    ensures var b := s.blocks[s.tailBlock];
            var nt := Next(b.tail, b.size);
            Same(s.(blocks := s.blocks[s.tailBlock := b.(localFront := b.front)],
                    prod := if nt != b.front then PConstruct(a.elem, s.tailBlock, b.tail, nt)
                            else PNext(a.elem, a.canAlloc, s.tailBlock)), u)
    ensures Enqueue(s, a) == PutAlone(u, a)
  {
    hide Inv, Shape, PutAlone, Queued, Enqueue;
    var t := PutStarted(s, a);
    u := PutStep(t, a);
    u := PutStep(u, a);
  }

  /** Room after rereading the front index. */
  lemma EnqueueReread<T>(s: State<T>, a: Action<T>)
    requires Inv(s) && Shape(s) && a.Produce? && s.prod.PIdle?
    requires var b := s.blocks[s.tailBlock]; Next(b.tail, b.size) == b.localFront != b.front
    ensures var b := s.blocks[s.tailBlock];
            && Wf(b) && Enqueue(s, a).1
            && Same(s.(blocks := s.blocks[s.tailBlock := Pushed(b.(localFront := b.front), a.elem)],
                       enq := s.enq + [a.elem]),
                    Enqueue(s, a).0)
  {
    hide Inv, Shape, PutAlone, Queued, Enqueue;
    var u := PutReread(s, a);
    var b := s.blocks[s.tailBlock];
    PutHere(u, a, a.elem, s.tailBlock, b.tail, Next(b.tail, b.size));
  }

  lemma PutLooksAhead<T>(s: State<T>, a: Action<T>) returns (u: State<T>)
    requires Inv(s) && Shape(s) && a.Produce? && s.prod.PIdle?
    requires var b := s.blocks[s.tailBlock]; Next(b.tail, b.size) == b.localFront == b.front
    ensures Inv(u) && Shape(u) && s.tailBlock < |s.blocks|
    ensures var b := s.blocks[s.tailBlock];
            Same(s.(blocks := s.blocks[s.tailBlock := b.(localFront := b.front)],
                    prod := if b.next != s.frontBlock then PNextAgain(a.elem, s.tailBlock)
                            else if a.canAlloc then PAlloc(a.elem, s.tailBlock) else PDone(false, false)), u)
    ensures Enqueue(s, a) == PutAlone(u, a)
  {
    hide Inv, Shape, PutAlone, Queued, Enqueue;
    u := PutReread(s, a);
    u := PutStep(u, a);
    u := PutStep(u, a);
  }

  /** The tail block is full and the block after it is free. */
  lemma EnqueueNext<T>(s: State<T>, a: Action<T>)
    requires Inv(s) && Shape(s) && a.Produce? && s.prod.PIdle?
    requires var b := s.blocks[s.tailBlock]; Next(b.tail, b.size) == b.localFront == b.front && b.next != s.frontBlock
    ensures var tb, n := s.tailBlock, s.blocks[s.tailBlock].next;
            && n < |s.blocks| && n != tb && Wf(s.blocks[n]) && Enqueue(s, a).1
            && var b, c := s.blocks[tb], Pushed(s.blocks[n].(localFront := s.blocks[n].front), a.elem);
               Same(s.(blocks := s.blocks[tb := b.(localFront := b.front)][n := c], tailBlock := n, ti := s.ti + 1,
                       enq := s.enq + [a.elem]), Enqueue(s, a).0)
  {
    hide Inv, PutAlone, Queued, Enqueue, Linked;
    var u := PutLooksAhead(s, a);
    PutNextBlock(u, a, a.elem, s.tailBlock);
    DistinctTail(u);
  }

  lemma DistinctTail<T>(s: State<T>)
    requires Shape(s) && s.ti + 1 < |s.ring|
    ensures s.ring[s.ti + 1] != s.tailBlock
  {
  }

  /** All blocks are in use. */
  lemma EnqueueNew<T>(s: State<T>, a: Action<T>)
    requires Inv(s) && Shape(s) && a.Produce? && s.prod.PIdle?
    requires var b := s.blocks[s.tailBlock]; Next(b.tail, b.size) == b.localFront == b.front && b.next == s.frontBlock
    ensures var tb, n := s.tailBlock, |s.blocks|;
            && tb < n && GrownSize(s) >= 2 && s.ti < |s.ring|
            && Enqueue(s, a).1 == (a.canAlloc && a.mallocOk)
            && var b := s.blocks[tb].(localFront := s.blocks[tb].front);
               Same(if a.canAlloc && a.mallocOk
                    then s.(blocks := s.blocks[tb := b.(next := n)] +
                        [FilledBlock(GrownSize(s), a.elem, a.junk).(next := b.next)],
                            largest := GrownSize(s), ring := s.ring[..s.ti + 1] + [n] + s.ring[s.ti + 1..],
                            tailBlock := n, ti := s.ti + 1, enq := s.enq + [a.elem])
                    else s.(blocks := s.blocks[tb := b]),
                    Enqueue(s, a).0)
  {
    hide Inv, PutAlone, Queued, Enqueue, Circle, AllWf, FilledBlock;
    var u := PutLooksAhead(s, a);
    TailBlockThere(s);
    if a.canAlloc {
      PutNewBlock(u, a, a.elem, s.tailBlock);
    } else {
      PutReturns(u, a);
    }
  }

  // ---- The consumer alone ------------------------------------------------------

  lemma TakeAdvances<T>(s: State<T>, a: Action<T>)
    requires Inv(s) && Shape(s) && a.Consume? && !s.cons.CIdle?
    ensures Inv(Step(s, a)) && Shape(Step(s, a)) && Step(s, a).prod == s.prod
    ensures s.cons.CDone? ==> Step(s, a).cons == CIdle
    ensures !s.cons.CDone? ==> TakeRank(Step(s, a).cons) < TakeRank(s.cons) && Step(s, a).cons != CIdle
  {
    hide Inv, Shape, Queued, TakeRank, ConsumerMove;
    StepKeeps(s, a);
    StepsProgress(s, a);
    InvShape(Step(s, a));
    MoveIs(s, a);
    RestOnlyAfterDone(s, a);
  }

  lemma RestOnlyAfterDone<T>(s: State<T>, a: Action<T>)
    requires a.Consume? && !s.cons.CIdle?
    ensures s.cons.CDone? <==> ConsumerMove(s, a).cons == CIdle
  {
    hide ConsumerMove;
    if s.cons.CFront? || s.cons.CTail? || s.cons.CFrontAgain? {
      LookingIsNotIdle(s, a);
    } else if s.cons.CNextTail? || s.cons.CTake? || s.cons.CStoreFront? || s.cons.CAdvance? || s.cons.CPeek? {
      TakingIsNotIdle(s, a);
    } else {
      OthersAreNotIdle(s, a);
    }
  }

  lemma LookingIsNotIdle<T>(s: State<T>, a: Action<T>)
    requires a.Consume? && (s.cons.CFront? || s.cons.CTail? || s.cons.CFrontAgain?)
    ensures ConsumerMove(s, a).cons != CIdle
  {
  }

  lemma TakingIsNotIdle<T>(s: State<T>, a: Action<T>)
    requires a.Consume?
    requires s.cons.CNextTail? || s.cons.CTake? || s.cons.CStoreFront? || s.cons.CAdvance? || s.cons.CPeek?
    ensures ConsumerMove(s, a).cons != CIdle
  {
  }

  lemma OthersAreNotIdle<T>(s: State<T>, a: Action<T>)
    requires a.Consume? && !s.cons.CIdle?
    requires !s.cons.CFront? && !s.cons.CTail? && !s.cons.CFrontAgain?
    requires !s.cons.CNextTail? && !s.cons.CTake? && !s.cons.CStoreFront? && !s.cons.CAdvance? && !s.cons.CPeek?
    ensures s.cons.CDone? <==> ConsumerMove(s, a).cons == CIdle
  {
  }

  ghost function TakeAlone<T>(s: State<T>, a: Action<T>): (r: (State<T>, Option<T>))
    requires Inv(s) && Shape(s) && a.Consume? && !s.cons.CIdle?
    ensures Inv(r.0) && Shape(r.0) && r.0.cons == CIdle && r.0.prod == s.prod
    decreases TakeRank(s.cons), if s.cons.CDone? then 0 else 1
  {
    hide Inv, Shape, Step, TakeRank;
    TakeAdvances(s, a);
    if s.cons.CDone? then (Step(s, a), s.cons.res) else TakeAlone(Step(s, a), a)
  }

  lemma TakeStep<T>(s: State<T>, a: Action<T>) returns (t: State<T>)
    requires Inv(s) && Shape(s) && a.Consume? && !s.cons.CIdle? && !s.cons.CDone?
    ensures Inv(t) && Shape(t) && Same(ConsumerMove(s, a), t) && !t.cons.CIdle? && TakeAlone(s, a) == TakeAlone(t, a)
  {
    hide Inv, Shape, Queued, TakeRank, ConsumerMove;
    TakeAdvances(s, a);
    t := Step(s, a);
    MoveIs(s, a);
    MoveShape(s, a);
    StepObserved(s, a);
  }

  lemma TakeReturns<T>(s: State<T>, a: Action<T>)
    requires Inv(s) && Shape(s) && a.Consume? && s.cons.CDone?
    ensures Same(s.(cons := CIdle), TakeAlone(s, a).0) && TakeAlone(s, a).1 == s.cons.res
  {
    hide Inv, Shape, Queued, TakeRank;
    TakeAdvances(s, a);
    MoveIs(s, a);
    MoveShape(s, a);
    StepObserved(s, a);
  }

  /** The block with its first element taken. */
  function Popped<T>(b: Block<T>): Block<T>
    requires b.front < |b.live|
  {
    b.(live := b.live[b.front := false], front := Next(b.front, b.size))
  }

  lemma FrontBlockThere<T>(s: State<T>)
    requires Inv(s)
    ensures s.frontBlock < |s.blocks| && Wf(s.blocks[s.frontBlock])
    ensures s.cons.CTake? ==> s.cons.fb == s.frontBlock && s.cons.bf == s.blocks[s.frontBlock].front
  {
    hide Flat, Items, Room, Lifetimes, Linked, Distinct, Arc, Fifo, Capacity, ProducerOk, Queued;
  }

  lemma TakeHere<T>(s: State<T>, a: Action<T>, op: Op, fb: nat, bf: nat)
    requires Inv(s) && Shape(s) && a.Consume? && s.cons == CTake(op, fb, bf)
    ensures fb == s.frontBlock < |s.blocks| && Wf(s.blocks[fb])
    ensures var b := s.blocks[fb];
            && Same(s.(blocks := s.blocks[fb := Popped(b)], deq := s.deq + [b.data[b.front]], cons := CIdle),
                TakeAlone(s, a).0)
            && TakeAlone(s, a).1 == Some(b.data[b.front])
  {
    hide Inv, Shape, Queued, TakeAlone;
    FrontBlockThere(s);
    var s1 := TakeStep(s, a);
    var s2 := TakeStep(s1, a);
    TakeReturns(s2, a);
    assert s2.blocks == s.blocks[fb := Popped(s.blocks[fb])];
  }

  lemma PeekHere<T>(s: State<T>, a: Action<T>, b: nat, bf: nat)
    requires Inv(s) && Shape(s) && a.Consume? && s.cons == CPeek(b, bf)
    ensures b < |s.blocks| && Wf(s.blocks[b]) && bf == s.blocks[b].front
    ensures Same(s.(cons := CIdle), TakeAlone(s, a).0) && TakeAlone(s, a).1 == Some(s.blocks[b].data[bf])
  {
    hide Queued, TakeAlone, Flat, Items, Room, Lifetimes, Linked, Distinct, Arc, Fifo, Capacity, ProducerOk;
    var s1 := TakeStep(s, a);
    TakeReturns(s1, a);
  }

  /** A whole call of try_dequeue, pop or peek with nobody else moving. */
  ghost function Take<T>(s: State<T>, a: Action<T>): (r: (State<T>, Option<T>))
    requires Inv(s) && Shape(s) && a.Consume? && s.cons.CIdle?
    ensures Inv(r.0) && Shape(r.0) && r.0.cons == CIdle && r.0.prod == s.prod
  {
    hide Inv, Shape, Step;
    TakeCalled(s, a);
    TakeAlone(Step(s, a), a)
  }

  lemma TakeCalled<T>(s: State<T>, a: Action<T>)
    requires Inv(s) && Shape(s) && a.Consume? && s.cons.CIdle?
    ensures var t := Step(s, a); Inv(t) && Shape(t) && Same(s.(cons := CFrontBlock(a.op)), t)
  {
    hide Inv, Shape, Queued;
    StepKeeps(s, a);
    InvShape(Step(s, a));
    MoveShape(s, a);
    StepObserved(s, a);
  }

  lemma TakeStarted<T>(s: State<T>, a: Action<T>) returns (t: State<T>)
    requires Inv(s) && Shape(s) && a.Consume? && s.cons.CIdle?
    ensures Inv(t) && Shape(t) && Same(s.(cons := CFront(a.op, s.frontBlock)), t)
    ensures Take(s, a) == TakeAlone(t, a) && s.frontBlock < |s.blocks| && Wf(s.blocks[s.frontBlock])
  {
    hide Inv, TakeAlone, Queued, Shape;
    FrontBlockThere(s);
    TakeCalled(s, a);
    t := TakeStep(Step(s, a), a);
  }

  /** The front block `b`, as the consumer has refreshed it, holds something. */
  ghost predicate TookFrom<T>(s: State<T>, a: Action<T>, b: Block<T>)
    requires Inv(s) && Shape(s) && a.Consume? && s.cons.CIdle? && s.frontBlock < |s.blocks| && Wf(b)
  {
    && Take(s, a).1 == Some(b.data[b.front])
    && Same(if a.op == Peek then s.(blocks := s.blocks[s.frontBlock := b])
            else s.(blocks := s.blocks[s.frontBlock := Popped(b)], deq := s.deq + [b.data[b.front]]),
            Take(s, a).0)
  }

  lemma TakeQuick<T>(s: State<T>, a: Action<T>)
    requires Inv(s) && Shape(s) && a.Consume? && s.cons.CIdle?
    requires var b := s.blocks[s.frontBlock]; b.front != b.localTail
    ensures Wf(s.blocks[s.frontBlock]) && TookFrom(s, a, s.blocks[s.frontBlock])
  {
    hide Inv, Shape, Queued, TakeAlone, Take;
    var t := TakeStarted(s, a);
    var b := s.blocks[s.frontBlock];
    var u := TakeStep(t, a);
    assert s.blocks[s.frontBlock := b] == s.blocks;
    if a.op == Peek {
      PeekHere(u, a, s.frontBlock, b.front);
    } else {
      TakeHere(u, a, a.op, s.frontBlock, b.front);
    }
  }

  lemma TakeReread<T>(s: State<T>, a: Action<T>)
    requires Inv(s) && Shape(s) && a.Consume? && s.cons.CIdle?
    requires var b := s.blocks[s.frontBlock]; b.front == b.localTail != b.tail
    ensures var b := s.blocks[s.frontBlock].(localTail := s.blocks[s.frontBlock].tail); Wf(b) && TookFrom(s, a, b)
  {
    hide Inv, Shape, Queued, TakeAlone, Take;
    var t := TakeStarted(s, a);
    var b := s.blocks[s.frontBlock];
    var u := TakeStep(t, a);
    u := TakeStep(u, a);
    if a.op == Peek {
      PeekHere(u, a, s.frontBlock, b.front);
    } else {
      TakeHere(u, a, a.op, s.frontBlock, b.front);
    }
  }

  lemma TakeLooksAhead<T>(s: State<T>, a: Action<T>) returns (u: State<T>)
    requires Inv(s) && Shape(s) && a.Consume? && s.cons.CIdle?
    requires var b := s.blocks[s.frontBlock]; b.front == b.localTail == b.tail
    ensures Inv(u) && Shape(u)
    ensures Same(s.(cons := if s.frontBlock != s.tailBlock then CFrontBlockAgain(a.op) else CDone(a.op, None)), u)
    ensures Take(s, a) == TakeAlone(u, a)
  {
    hide Inv, Shape, Queued, TakeAlone, Take;
    u := TakeStarted(s, a);
    u := TakeStep(u, a);
    var b := s.blocks[s.frontBlock];
    assert b.(localTail := b.tail) == b && s.blocks[s.frontBlock := b] == s.blocks;
    u := TakeStep(u, a);
    u := TakeStep(u, a);
  }

  lemma TakeNothing<T>(s: State<T>, a: Action<T>)
    requires Inv(s) && Shape(s) && a.Consume? && s.cons.CIdle?
    requires var b := s.blocks[s.frontBlock]; b.front == b.localTail == b.tail && s.frontBlock == s.tailBlock
    ensures Take(s, a).1 == None && Same(s, Take(s, a).0)
  {
    hide Inv, Shape, Queued, TakeAlone, Take;
    var u := TakeLooksAhead(s, a);
    TakeReturns(u, a);
  }

  lemma TakeMovesOn<T>(s: State<T>, a: Action<T>) returns (u: State<T>)
    requires Inv(s) && Shape(s) && a.Consume? && s.cons.CIdle?
    requires var b := s.blocks[s.frontBlock]; b.front == b.localTail == b.tail && s.frontBlock != s.tailBlock
    ensures Inv(u) && Shape(u) && Same(s.(cons := CNextFront(a.op, s.blocks[s.frontBlock].next)), u)
    ensures Take(s, a) == TakeAlone(u, a)
  {
    hide Inv, Shape, Queued, TakeAlone, Take;
    FrontBlockThere(s);
    u := TakeLooksAhead(s, a);
    u := TakeStep(u, a);
    u := TakeStep(u, a);
    var b := s.blocks[s.frontBlock];
    assert b.(localTail := b.tail) == b && s.blocks[s.frontBlock := b] == s.blocks;
    u := TakeStep(u, a);
    u := TakeStep(u, a);
  }

  lemma NextIsSecond<T>(s: State<T>)
    requires Inv(s) && s.cons.CNextFront?
    ensures 0 < s.ti < |s.ring| && s.cons.n == s.ring[1] < |s.blocks| && Wf(s.blocks[s.ring[1]])
    ensures s.blocks[s.ring[1]].front != s.blocks[s.ring[1]].tail && s.ring[1] != s.frontBlock
  {
    hide Flat, Items, Room, Lifetimes, Linked, Fifo, Capacity, ProducerOk, Queued;
  }

  /** The front block is exhausted and the producer has left it. */
  lemma TakeNext<T>(s: State<T>, a: Action<T>)
    requires Inv(s) && Shape(s) && a.Consume? && s.cons.CIdle?
    requires var b := s.blocks[s.frontBlock]; b.front == b.localTail == b.tail && s.frontBlock != s.tailBlock
    ensures 0 < s.ti < |s.ring| && s.blocks[s.frontBlock].next == s.ring[1] < |s.blocks| && Wf(s.blocks[s.ring[1]])
    ensures s.ring[1] != s.frontBlock && s.blocks[s.ring[1]].front != s.blocks[s.ring[1]].tail
    ensures var n := s.ring[1];
            var c := s.blocks[n].(localTail := s.blocks[n].tail);
            && Take(s, a).1 == Some(c.data[c.front])
            && Same(if a.op == Peek then s
                    else s.(blocks := s.blocks[n := Popped(c)], deq := s.deq + [c.data[c.front]], frontBlock := n,
                            ring := s.ring[1..] + [s.ring[0]], ti := s.ti - 1),
                    Take(s, a).0)
  {
    hide Inv, Shape, Queued, TakeAlone, Take;
    var u := TakeMovesOn(s, a);
    NextIsSecond(u);
    var n := s.ring[1];
    var v := TakeStep(u, a);
    assert v.cons == CNextTail(a.op, n, s.blocks[n].front);
    if a.op == Peek {
      v := TakeStep(v, a);
      PeekHere(v, a, n, s.blocks[n].front);
    } else {
      TakeSecond(v, a, n);
    }
  }

  lemma TakeSecond<T>(s: State<T>, a: Action<T>, n: nat)
    requires Inv(s) && Shape(s) && a.Consume? && 0 < s.ti < |s.ring| && n < |s.blocks| && Wf(s.blocks[n])
    requires s.cons.CNextTail? && s.cons.op != Peek && s.cons.n == n &&
        s.cons.nf == s.blocks[n].front != s.blocks[n].tail
    ensures var c := s.blocks[n].(localTail := s.blocks[n].tail);
            && TakeAlone(s, a).1 == Some(c.data[c.front])
            && Same(s.(blocks := s.blocks[n := Popped(c)], deq := s.deq + [c.data[c.front]], frontBlock := n,
                       ring := s.ring[1..] + [s.ring[0]], ti := s.ti - 1, cons := CIdle),
                    TakeAlone(s, a).0)
  {
    hide Inv, Shape, Queued, TakeAlone;
    var v := TakeStep(s, a);
    var w := TakeStep(v, a);
    TakeHere(w, a, s.cons.op, n, s.blocks[n].front);
  }

  // ---- What whole calls do to the queue ------------------------------------------

  lemma LoggedPut<T>(s: State<T>, t: State<T>, e: T)
    requires Inv(s) && Inv(t) && Shape(s) && Shape(t) && t.deq == s.deq
    ensures t.enq == s.enq ==> Queued(t) == Queued(s)
    ensures t.enq == s.enq + [e] ==> Queued(t) == Queued(s) + [e]
  {
    hide Shape, Queued, Arc, Lifetimes, ProducerOk, ConsumerOk, Capacity;
    if t.enq == s.enq {
      SameTail(s.deq, Queued(s), Queued(t));
    } else if t.enq == s.enq + [e] {
      assert s.deq + Queued(s) + [e] == s.deq + (Queued(s) + [e]);
      SameTail(s.deq, Queued(s) + [e], Queued(t));
    }
  }

  lemma LoggedTake<T>(s: State<T>, t: State<T>, v: T)
    requires Inv(s) && Inv(t) && Shape(s) && Shape(t) && t.enq == s.enq && t.deq == s.deq + [v]
    ensures Queued(s) == [v] + Queued(t)
  {
    hide Shape, Queued, Arc, Lifetimes, ProducerOk, ConsumerOk, Capacity;
    assert s.deq + [v] + Queued(t) == s.deq + ([v] + Queued(t));
    SameTail(s.deq, Queued(s), [v] + Queued(t));
  }

  /** With no room and all blocks in use, the queue holds what it was built for. */
  lemma FullWhenRefused<T>(s: State<T>)
    requires Inv(s) && Shape(s) && s.prod.PIdle?
    requires var b := s.blocks[s.tailBlock]; Next(b.tail, b.size) == b.front && b.next == s.frontBlock
    ensures |Queued(s)| >= s.cap
  {
    hide Flat, Items, Room, Lifetimes, Distinct, Linked, ConsumerOk, ProducerOk, Fifo, Capacity, Arc, Queued;
    SpscProducer.SpareOrNot(s);
    if s.ti > 0 {
      SpscProducer.ArcRoom(s);
    } else {
      SpscProducer.OneBlockFull(s);
    }
  }

  lemma EnqueueEffect<T>(s: State<T>, a: Action<T>)
    requires Inv(s) && Shape(s) && a.Produce? && s.prod.PIdle?
    ensures var (t, ok) := Enqueue(s, a);
            && Queued(t) == (if ok then Queued(s) + [a.elem] else Queued(s))
            && (!ok && a.canAlloc ==> !a.mallocOk)
            && (!ok && !a.canAlloc ==> |Queued(s)| >= s.cap)
            && t.cap == s.cap && t.maxBlock == s.maxBlock
  {
    hide Inv, Shape, Queued, Enqueue, FilledBlock;
    InvShape(s);
    TailBlockThere(s);
    var b := s.blocks[s.tailBlock];
    if Next(b.tail, b.size) != b.localFront {
      EnqueueQuick(s, a);
    } else if Next(b.tail, b.size) != b.front {
      EnqueueReread(s, a);
    } else if b.next != s.frontBlock {
      EnqueueNext(s, a);
    } else {
      EnqueueNew(s, a);
      FullWhenRefused(s);
    }
    LoggedPut(s, Enqueue(s, a).0, a.elem);
  }

  lemma TakeEffect<T>(s: State<T>, a: Action<T>)
    requires Inv(s) && Shape(s) && a.Consume? && s.cons.CIdle?
    ensures var (t, res) := Take(s, a);
            && (res.None? <==> Queued(s) == [])
            && (res.Some? ==> Queued(s)[0] == res.value)
            && Queued(t) == (if res.None? || a.op == Peek then Queued(s) else Queued(s)[1..])
            && t.cap == s.cap && t.maxBlock == s.maxBlock
  {
    hide Inv, Shape, Queued, Take;
    FrontBlockThere(s);
    var b := s.blocks[s.frontBlock];
    if b.front != b.localTail {
      TakeQuick(s, a);
      SpscConsumer.QueueHead(s, s.frontBlock);
    } else if b.front != b.tail {
      TakeReread(s, a);
      SpscConsumer.QueueHead(s, s.frontBlock);
    } else if s.frontBlock == s.tailBlock {
      TakeNothing(s, a);
      SpscConsumer.FrontIsTail(s);
      SpscConsumer.EmptyQueue(s);
    } else {
      TakeNext(s, a);
      SpscConsumer.QueueHead(s, s.ring[1]);
    }
    var (t, res) := Take(s, a);
    if res.Some? && a.op != Peek {
      LoggedTake(s, t, res.value);
    } else {
      LoggedPeek(s, t);
    }
  }

  lemma LoggedPeek<T>(s: State<T>, t: State<T>)
    requires Inv(s) && Inv(t) && Shape(s) && Shape(t) && t.enq == s.enq && t.deq == s.deq
    ensures Queued(t) == Queued(s)
  {
    hide Shape, Queued, Arc, Lifetimes, ProducerOk, ConsumerOk, Capacity;
    SameTail(s.deq, Queued(s), Queued(t));
  }
}
