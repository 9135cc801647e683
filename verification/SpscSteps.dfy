/** The lock-free queue as a step system: one producer inside inner_enqueue and one
    consumer inside try_dequeue, pop or peek, interleaved at every load and store of
    a shared variable. Accesses to memory that only one side ever touches are merged
    with the neighbouring shared access of that side. Sequential consistency is
    assumed, so fences are no steps. */
module SpscSteps {
  import opened Blocks
  import opened Bits

  /** Where the producer is in inner_enqueue. `e` is the element on its way in, `can`
      tells enqueue (may allocate) from try_enqueue (may not). */
  datatype Producer<T> =
    | PIdle
    | PTailBlock(e: T, can: bool)
    | PTail(e: T, can: bool, tb: nat)
    | PFront(e: T, can: bool, tb: nat, bt: nat, nt: nat)
    | PConstruct(e: T, tb: nat, bt: nat, nt: nat)
    | PStoreTail(e: T, tb: nat, bt: nat, nt: nat)
    | PNext(e: T, can: bool, tb: nat)
    | PFrontBlock(e: T, can: bool, tb: nat, n: nat)
    | PNextAgain(e: T, tb: nat)
    | PNextFront(e: T, n: nat)
    | PNextTail(e: T, n: nat, nf: nat)
    | PNextConstruct(e: T, n: nat, nt: nat)
    | PNextStoreTail(e: T, n: nat, nt: nat)
    | PPublish(e: T, n: nat)
    | PAlloc(e: T, tb: nat)
    | PLinkNew(e: T, tb: nat, n: nat)
    | PLinkTail(e: T, tb: nat, n: nat)
    | PDone(can: bool, ok: bool)
    | PAssertFailed

  datatype Op = TryDequeue | Pop | Peek

  datatype Option<T> = None | Some(value: T)

  /** Where the consumer is. `bf` and `nf` are the loaded front indices. */
  datatype Consumer<T> =
    | CIdle
    | CFrontBlock(op: Op)
    | CFront(op: Op, fb: nat)
    | CTail(op: Op, fb: nat, bf: nat)
    | CTailBlock(op: Op, fb: nat)
    | CFrontBlockAgain(op: Op)
    | CTailAgain(op: Op, fb: nat)
    | CFrontAgain(op: Op, fb: nat, bt: nat)
    | CNext(op: Op, fb: nat)
    | CNextFront(op: Op, n: nat)
    | CNextTail(op: Op, n: nat, nf: nat)
    | CAdvance(op: Op, n: nat, nf: nat)
    | CTake(op: Op, fb: nat, bf: nat)
    | CStoreFront(op: Op, fb: nat, bf: nat, v: T)
    | CPeek(b: nat, bf: nat)
    | CDone(op: Op, res: Option<T>)
    | CAssertFailed

  /** The memory, the two program counters, and a history that no step looks at:
      `enq`/`deq` list the elements put in and taken out so far, `ring` lists the
      circle of blocks from the front block on with the tail block at `ti`, and
      `sawEmpty`/`sawFull` record whether the queue was empty, or held at least `cap`
      elements, at some moment of the consumer's or producer's current call. */
  datatype State<T> = State(
    blocks: seq<Block<T>>, frontBlock: nat, tailBlock: nat, largest: nat,
    maxBlock: nat, cap: nat,
    prod: Producer<T>, cons: Consumer<T>,
    enq: seq<T>, deq: seq<T>, ring: seq<nat>, ti: nat, sawEmpty: bool, sawFull: bool)

  /** What the scheduler and the callers decide: who moves, what an idle side calls,
      and whether an allocation succeeds (`junk` is what fresh memory holds). */
  datatype Action<T> =
    | Produce(elem: T, canAlloc: bool, mallocOk: bool, junk: T)
    | Consume(op: Op)

  function NewBlock<T>(size: nat, next: nat, junk: T): Block<T> {
    Block(0, 0, 0, 0, next, size, seq(size, _ => junk), seq(size, _ => false))
  }

  /** A fresh block holding just `e`. */
  function FilledBlock<T>(size: nat, e: T, junk: T): Block<T>
    requires size > 0
  {
    Block(0, 1, 1, 0, 0, size, seq(size, _ => junk)[0 := e], seq(size, _ => false)[0 := true])
  }

  // ---- Construction ------------------------------------------------------------

  function BlockCount(maxSize: nat, maxBlock: nat): nat
    requires maxBlock >= 2
  {
    if CeilPow2(maxSize + 1) > maxBlock * 2
    then (maxSize + maxBlock * 2 - 3) / (maxBlock - 1) else 1
  }

  function FirstBlockSize(maxSize: nat, maxBlock: nat): nat {
    if CeilPow2(maxSize + 1) > maxBlock * 2 then maxBlock else CeilPow2(maxSize + 1)
  }

  function Construct<T>(maxSize: nat, maxBlock: nat, junk: T): State<T>
    requires maxSize > 0 && maxBlock >= 2
  {
    var n := BlockCount(maxSize, maxBlock);
    var size := FirstBlockSize(maxSize, maxBlock);
    State(seq(n, i requires 0 <= i < n => NewBlock(size, Next(i, n), junk)), 0, 0, size, maxBlock, maxSize,
          PIdle, CIdle, [], [], seq(n, i requires 0 <= i < n => i), 0, true, false)
  }

  // ---- Steps -------------------------------------------------------------------

  function ProducerMove<T>(s: State<T>, a: Action<T>): State<T>
    requires a.Produce?
  {
    match s.prod
    case PIdle => s.(prod := PTailBlock(a.elem, a.canAlloc))
    case PTailBlock(e, can) => s.(prod := PTail(e, can, s.tailBlock))
    case PTail(e, can, tb) => AtPTail(s, e, can, tb)
    case PFront(e, can, tb, bt, nt) => AtPFront(s, e, can, tb, bt, nt)
    case PConstruct(e, tb, bt, nt) => Put(s, tb, bt, e).(prod := PStoreTail(e, tb, bt, nt))
    case PStoreTail(e, tb, bt, nt) => AtPStoreTail(s, e, tb, nt)
    case PNext(e, can, tb) => AtPNext(s, e, can, tb)
    case PFrontBlock(e, can, tb, n) => AtPFrontBlock(s, e, can, tb, n)
    case PNextAgain(e, tb) => AtPNextAgain(s, e, tb)
    case PNextFront(e, n) => AtPNextFront(s, e, n)
    case PNextTail(e, n, nf) => AtPNextTail(s, e, n, nf)
    case PNextConstruct(e, n, nt) => Put(s, n, nt, e).(prod := PNextStoreTail(e, n, nt))
    case PNextStoreTail(e, n, nt) => AtPNextStoreTail(s, e, n, nt)
    case PPublish(e, n) => AtPPublish(s, e, n)
    case PAlloc(e, tb) => AtPAlloc(s, e, tb, a.mallocOk, a.junk)
    case PLinkNew(e, tb, n) => AtPLinkNew(s, e, tb, n)
    case PLinkTail(e, tb, n) => AtPLinkTail(s, e, tb, n)
    case PDone(_, _) => s.(prod := PIdle)
    case PAssertFailed => s
  }

  function AtPTail<T>(s: State<T>, e: T, can: bool, tb: nat): State<T> {
    if tb >= |s.blocks| then s else
    var b := s.blocks[tb];
    var nt := Next(b.tail, b.size);
    if nt != b.localFront then s.(prod := PConstruct(e, tb, b.tail, nt))
    else s.(prod := PFront(e, can, tb, b.tail, nt))
  }

  function AtPFront<T>(s: State<T>, e: T, can: bool, tb: nat, bt: nat, nt: nat): State<T> {
    if tb >= |s.blocks| then s else
    var f := s.blocks[tb].front;
    s.(blocks := s.blocks[tb := s.blocks[tb].(localFront := f)],
       prod := if nt != f then PConstruct(e, tb, bt, nt) else PNext(e, can, tb))
  }

  /** Constructs `e` in slot `k` of block `b`. */
  function Put<T>(s: State<T>, b: nat, k: nat, e: T): State<T> {
    if b >= |s.blocks| || k >= |s.blocks[b].data| || k >= |s.blocks[b].live| then s else
    s.(blocks := s.blocks[b := s.blocks[b].(data := s.blocks[b].data[k := e], live := s.blocks[b].live[k := true])])
  }

  function AtPStoreTail<T>(s: State<T>, e: T, tb: nat, nt: nat): State<T> {
    if tb >= |s.blocks| then s else
    s.(blocks := s.blocks[tb := s.blocks[tb].(tail := nt)], enq := s.enq + [e], prod := PDone(true, true))
  }

  function AtPNext<T>(s: State<T>, e: T, can: bool, tb: nat): State<T> {
    if tb >= |s.blocks| then s else s.(prod := PFrontBlock(e, can, tb, s.blocks[tb].next))
  }

  function AtPFrontBlock<T>(s: State<T>, e: T, can: bool, tb: nat, n: nat): State<T> {
    if n != s.frontBlock then s.(prod := PNextAgain(e, tb))
    else if can then s.(prod := PAlloc(e, tb))
    else s.(prod := PDone(can, false))
  }

  function AtPNextAgain<T>(s: State<T>, e: T, tb: nat): State<T> {
    if tb >= |s.blocks| then s else s.(prod := PNextFront(e, s.blocks[tb].next))
  }

  function AtPNextFront<T>(s: State<T>, e: T, n: nat): State<T> {
    if n >= |s.blocks| then s else
    var f := s.blocks[n].front;
    s.(blocks := s.blocks[n := s.blocks[n].(localFront := f)], prod := PNextTail(e, n, f))
  }

  function AtPNextTail<T>(s: State<T>, e: T, n: nat, nf: nat): State<T> {
    if n >= |s.blocks| then s else
    if nf != s.blocks[n].tail then s.(prod := PAssertFailed)
    else s.(blocks := s.blocks[n := s.blocks[n].(localFront := nf)], prod := PNextConstruct(e, n, s.blocks[n].tail))
  }

  function AtPNextStoreTail<T>(s: State<T>, e: T, n: nat, nt: nat): State<T> {
    if n >= |s.blocks| then s else
    s.(blocks := s.blocks[n := s.blocks[n].(tail := Next(nt, s.blocks[n].size))], prod := PPublish(e, n))
  }

  function AtPPublish<T>(s: State<T>, e: T, n: nat): State<T> {
    s.(tailBlock := n, ti := s.ti + 1, enq := s.enq + [e], prod := PDone(true, true))
  }

  /** The new block is reachable by nobody else until it is linked. */
  function AtPAlloc<T>(s: State<T>, e: T, tb: nat, mallocOk: bool, junk: T): State<T> {
    if !mallocOk then s.(prod := PDone(true, false)) else
    var size := if s.largest >= s.maxBlock then s.largest else s.largest * 2;
    if size == 0 then s else
    s.(blocks := s.blocks + [FilledBlock(size, e, junk)], largest := size, prod := PLinkNew(e, tb, |s.blocks|))
  }

  function AtPLinkNew<T>(s: State<T>, e: T, tb: nat, n: nat): State<T> {
    if tb >= |s.blocks| || n >= |s.blocks| then s else
    s.(blocks := s.blocks[n := s.blocks[n].(next := s.blocks[tb].next)], prod := PLinkTail(e, tb, n))
  }

  function AtPLinkTail<T>(s: State<T>, e: T, tb: nat, n: nat): State<T> {
    if tb >= |s.blocks| || s.ti >= |s.ring| then s else
    s.(blocks := s.blocks[tb := s.blocks[tb].(next := n)],
       ring := s.ring[..s.ti + 1] + [n] + s.ring[s.ti + 1..], prod := PPublish(e, n))
  }

  function ConsumerMove<T>(s: State<T>, a: Action<T>): State<T>
    requires a.Consume?
  {
    match s.cons
    case CIdle => s.(cons := CFrontBlock(a.op))
    case CFrontBlock(op) => s.(cons := CFront(op, s.frontBlock))
    case CFront(op, fb) => AtCFront(s, op, fb)
    case CTail(op, fb, bf) => AtCTail(s, op, fb, bf)
    case CTailBlock(op, fb) => s.(cons := if fb != s.tailBlock then CFrontBlockAgain(op) else CDone(op, None))
    case CFrontBlockAgain(op) => s.(cons := CTailAgain(op, s.frontBlock))
    case CTailAgain(op, fb) => AtCTailAgain(s, op, fb)
    case CFrontAgain(op, fb, bt) => AtCFrontAgain(s, op, fb, bt)
    case CNext(op, fb) => AtCNext(s, op, fb)
    case CNextFront(op, n) => AtCNextFront(s, op, n)
    case CNextTail(op, n, nf) => AtCNextTail(s, op, n, nf)
    case CAdvance(op, n, nf) => AtCAdvance(s, op, n, nf)
    case CTake(op, fb, bf) => AtCTake(s, op, fb, bf)
    case CStoreFront(op, fb, bf, v) => AtCStoreFront(s, op, fb, bf, v)
    case CPeek(b, bf) => AtCPeek(s, b, bf)
    case CDone(_, _) => s.(cons := CIdle)
    case CAssertFailed => s
  }

  function AtCFront<T>(s: State<T>, op: Op, fb: nat): State<T> {
    if fb >= |s.blocks| then s else
    var b := s.blocks[fb];
    s.(cons := if b.front != b.localTail then AtElement(op, fb, b.front) else CTail(op, fb, b.front))
  }

  function AtCTail<T>(s: State<T>, op: Op, fb: nat, bf: nat): State<T> {
    if fb >= |s.blocks| then s else
    var t := s.blocks[fb].tail;
    s.(blocks := s.blocks[fb := s.blocks[fb].(localTail := t)],
       cons := if bf != t then AtElement(op, fb, bf) else CTailBlock(op, fb))
  }

  function AtCTailAgain<T>(s: State<T>, op: Op, fb: nat): State<T> {
    if fb >= |s.blocks| then s else
    var t := s.blocks[fb].tail;
    s.(blocks := s.blocks[fb := s.blocks[fb].(localTail := t)], cons := CFrontAgain(op, fb, t))
  }

  function AtCFrontAgain<T>(s: State<T>, op: Op, fb: nat, bt: nat): State<T> {
    if fb >= |s.blocks| then s else
    var f := s.blocks[fb].front;
    s.(cons := if f != bt then AtElement(op, fb, f) else CNext(op, fb))
  }

  function AtCNext<T>(s: State<T>, op: Op, fb: nat): State<T> {
    if fb >= |s.blocks| then s else s.(cons := CNextFront(op, s.blocks[fb].next))
  }

  function AtCNextFront<T>(s: State<T>, op: Op, n: nat): State<T> {
    if n >= |s.blocks| then s else s.(cons := CNextTail(op, n, s.blocks[n].front))
  }

  function AtCNextTail<T>(s: State<T>, op: Op, n: nat, nf: nat): State<T> {
    if n >= |s.blocks| then s else
    var t := s.blocks[n].tail;
    if nf == t then s.(cons := CAssertFailed)
    else if op == Peek then s.(cons := CPeek(n, nf))
    else s.(blocks := s.blocks[n := s.blocks[n].(localTail := t)], cons := CAdvance(op, n, nf))
  }

  function AtCAdvance<T>(s: State<T>, op: Op, n: nat, nf: nat): State<T> {
    if s.ring == [] || s.ti == 0 then s else
    s.(frontBlock := n, ring := s.ring[1..] + [s.ring[0]], ti := s.ti - 1, cons := CTake(op, n, nf))
  }

  function AtCTake<T>(s: State<T>, op: Op, fb: nat, bf: nat): State<T> {
    if fb >= |s.blocks| || bf >= |s.blocks[fb].data| || bf >= |s.blocks[fb].live| then s else
    var b := s.blocks[fb];
    s.(blocks := s.blocks[fb := b.(live := b.live[bf := false])], cons := CStoreFront(op, fb, bf, b.data[bf]))
  }

  function AtCStoreFront<T>(s: State<T>, op: Op, fb: nat, bf: nat, v: T): State<T> {
    if fb >= |s.blocks| then s else
    var b := s.blocks[fb];
    s.(blocks := s.blocks[fb := b.(front := Next(bf, b.size))], deq := s.deq + [v], cons := CDone(op, Some(v)))
  }

  function AtCPeek<T>(s: State<T>, b: nat, bf: nat): State<T> {
    if b >= |s.blocks| || bf >= |s.blocks[b].data| then s else
    s.(cons := CDone(Peek, Some(s.blocks[b].data[bf])))
  }

  /** The element to take is in slot `bf` of the front block. */
  function AtElement<T>(op: Op, fb: nat, bf: nat): Consumer<T> {
    if op == Peek then CPeek(fb, bf) else CTake(op, fb, bf)
  }

  function Move<T>(s: State<T>, a: Action<T>): State<T> {
    if a.Produce? then ProducerMove(s, a) else ConsumerMove(s, a)
  }

  /** What the queue holds: the blocks from the front block to the tail block. */
  ghost function Queued<T>(s: State<T>): seq<T>
    requires Shape(s)
  {
    Flat(s.blocks, s.ring[..s.ti + 1])
  }

  /** One step together with its history. A call starts out of the idle state. */
  ghost function Step<T>(s: State<T>, a: Action<T>): State<T>
    requires Shape(s)
  {
    var t := Move(s, a);
    if !Shape(t) then t else
    t.(sawEmpty := (s.sawEmpty && !(a.Consume? && s.cons.CIdle?)) || Queued(t) == [],
       sawFull := (s.sawFull && !(a.Produce? && s.prod.PIdle?)) || |Queued(t)| >= t.cap)
  }

  // ---- The invariant -------------------------------------------------------------

  /** The `i`th block of the circle points to the one after it. */
  ghost predicate Linked<T>(blocks: seq<Block<T>>, ring: seq<nat>, i: nat)
    requires i < |ring| && Ids(ring, |blocks|)
  {
    blocks[ring[i]].next == ring[Next(i, |ring|)]
  }

  ghost predicate Distinct(ring: seq<nat>) {
    forall i, j :: 0 <= i < j < |ring| ==> ring[i] != ring[j]
  }

  /** `ring` is the circle: distinct blocks, each linked to the next. */
  ghost predicate Circle<T>(blocks: seq<Block<T>>, ring: seq<nat>) {
    Ids(ring, |blocks|) && Distinct(ring) && forall i :: 0 <= i < |ring| ==> Linked(blocks, ring, i)
  }

  /** The circle starts at the front block and has the tail block at `ti`. */
  ghost predicate Shape<T>(s: State<T>) {
    && AllWf(s.blocks) && Circle(s.blocks, s.ring) && s.ti < |s.ring|
    && s.ring[0] == s.frontBlock && s.ring[s.ti] == s.tailBlock
  }

  /** Blocks after the front block up to the tail block hold something, those strictly
      between are full, and those outside hold nothing but for the one that the
      producer has filled and is about to make the tail block. */
  ghost predicate Arc<T>(s: State<T>)
    requires Shape(s)
  {
    && (forall i :: 0 < i <= s.ti ==> Count(s.blocks[s.ring[i]]) > 0)
    && (forall i :: 0 < i < s.ti ==> Full(s.blocks[s.ring[i]]))
    && (forall i :: s.ti < i < |s.ring| ==>
          Count(s.blocks[s.ring[i]]) == 0 || (i == s.ti + 1 && s.prod.PPublish? && s.prod.n == s.ring[i]))
  }

  /** Whether slot `k` of block `i` should hold an object: it does between front and
      tail, except that the producer constructs just before it moves tail and the
      consumer destroys just before it moves front. */
  ghost predicate ShouldLive<T>(s: State<T>, i: nat, k: nat)
    requires AllWf(s.blocks) && i < |s.blocks| && k < s.blocks[i].size
  {
    || (InRange(s.blocks[i], k) && !(s.cons.CStoreFront? && s.cons.fb == i && s.cons.bf == k))
    || (s.prod.PStoreTail? && s.prod.tb == i && s.prod.bt == k)
    || (s.prod.PNextStoreTail? && s.prod.n == i && s.prod.nt == k)
  }

  ghost predicate Lifetimes<T>(s: State<T>)
    requires AllWf(s.blocks)
  {
    forall i, k :: 0 <= i < |s.blocks| && 0 <= k < s.blocks[i].size ==>
      (s.blocks[i].live[k] <==> ShouldLive(s, i, k))
  }

  /** The tail block was seen full, and nothing has made room in it unless it is the
      front block. */
  ghost predicate TailBlockFull<T>(s: State<T>)
    requires Shape(s)
  {
    && (s.ti > 0 ==> Full(s.blocks[s.tailBlock]))
    && (|s.ring| == 1 ==> s.sawFull)
  }

  /** `n` is the block after the tail block, and is not the front block. */
  ghost predicate IsSpare<T>(s: State<T>, n: nat)
    requires Shape(s)
  {
    s.ti + 1 < |s.ring| && n == s.ring[s.ti + 1]
  }

  ghost predicate FreshBlock<T>(s: State<T>, e: T, n: nat)
    requires Shape(s)
  {
    n < |s.blocks| && n !in s.ring && Items(s.blocks[n]) == [e] && (|s.ring| == 1 ==> s.blocks[n].size > s.cap)
  }

  ghost predicate ProducerOk<T>(s: State<T>)
    requires Shape(s)
  {
    match s.prod
    case PIdle => true
    case PTailBlock(_, _) => true
    case PTail(_, _, tb) => tb == s.tailBlock
    case PFront(_, _, tb, bt, nt) =>
      tb == s.tailBlock && bt == s.blocks[tb].tail && nt == Next(bt, s.blocks[tb].size)
    case PConstruct(_, tb, bt, nt) =>
      tb == s.tailBlock && bt == s.blocks[tb].tail && nt == Next(bt, s.blocks[tb].size) && nt != s.blocks[tb].localFront
    case PStoreTail(e, tb, bt, nt) =>
      && tb == s.tailBlock && bt == s.blocks[tb].tail && nt == Next(bt, s.blocks[tb].size) &&
          nt != s.blocks[tb].localFront
      && s.blocks[tb].data[bt] == e
    case PNext(_, _, tb) => tb == s.tailBlock && TailBlockFull(s)
    case PFrontBlock(_, _, tb, n) => tb == s.tailBlock && TailBlockFull(s) && n == s.blocks[tb].next
    case PNextAgain(_, tb) => tb == s.tailBlock && TailBlockFull(s) && s.ti + 1 < |s.ring|
    case PNextFront(_, n) => TailBlockFull(s) && IsSpare(s, n)
    case PNextTail(_, n, nf) => TailBlockFull(s) && IsSpare(s, n) && nf == s.blocks[n].front
    case PNextConstruct(_, n, nt) =>
      TailBlockFull(s) && IsSpare(s, n) && nt == s.blocks[n].tail && s.blocks[n].localFront == s.blocks[n].front
    case PNextStoreTail(e, n, nt) =>
      && TailBlockFull(s) && IsSpare(s, n) && nt == s.blocks[n].tail && s.blocks[n].localFront == s.blocks[n].front
      && s.blocks[n].data[nt] == e
    case PPublish(e, n) => TailBlockFull(s) && IsSpare(s, n) && Items(s.blocks[n]) == [e]
    case PAlloc(_, tb) => tb == s.tailBlock && TailBlockFull(s)
    case PLinkNew(e, tb, n) => tb == s.tailBlock && TailBlockFull(s) && FreshBlock(s, e, n)
    case PLinkTail(e, tb, n) =>
      tb == s.tailBlock && TailBlockFull(s) && FreshBlock(s, e, n) && s.blocks[n].next == s.blocks[tb].next
    case PDone(can, ok) => can || ok || s.sawFull
    case PAssertFailed => false
  }

  /** The front block holds nothing and the producer has left it. */
  ghost predicate FrontExhausted<T>(s: State<T>)
    requires Shape(s)
  {
    s.ti > 0 && Count(s.blocks[s.frontBlock]) == 0
  }

  ghost predicate ConsumerOk<T>(s: State<T>)
    requires Shape(s)
  {
    match s.cons
    case CIdle => true
    case CFrontBlock(_) => true
    case CFront(_, fb) => fb == s.frontBlock
    case CTail(_, fb, bf) => fb == s.frontBlock && bf == s.blocks[fb].front
    case CTailBlock(_, fb) => fb == s.frontBlock && (s.ti == 0 ==> s.sawEmpty)
    case CFrontBlockAgain(_) => s.ti > 0
    case CTailAgain(_, fb) => fb == s.frontBlock && s.ti > 0
    case CFrontAgain(_, fb, bt) =>
      fb == s.frontBlock && s.ti > 0 && bt == s.blocks[fb].tail == s.blocks[fb].localTail
    case CNext(_, fb) => fb == s.frontBlock && FrontExhausted(s)
    case CNextFront(_, n) => FrontExhausted(s) && n == s.ring[1]
    case CNextTail(_, n, nf) => FrontExhausted(s) && n == s.ring[1] && nf == s.blocks[n].front
    case CAdvance(op, n, nf) =>
      op != Peek && FrontExhausted(s) && n == s.ring[1] && nf == s.blocks[n].front && nf != s.blocks[n].localTail
    case CTake(op, fb, bf) =>
      op != Peek && fb == s.frontBlock && bf == s.blocks[fb].front && bf != s.blocks[fb].localTail
    case CStoreFront(op, fb, bf, v) =>
      && op != Peek && fb == s.frontBlock && bf == s.blocks[fb].front && bf != s.blocks[fb].localTail
      && v == s.blocks[fb].data[bf]
    case CPeek(b, bf) =>
      && b < |s.blocks| && bf == s.blocks[b].front && Count(s.blocks[b]) > 0
      && (b == s.frontBlock || (FrontExhausted(s) && b == s.ring[1]))
    case CDone(_, None) => s.sawEmpty
    case CDone(op, Some(v)) =>
      if op == Peek then Queued(s) != [] && Queued(s)[0] == v
      else s.deq != [] && s.deq[|s.deq| - 1] == v
    case CAssertFailed => false
  }

  /** With one block, it has room for `cap` elements; with several, any all-but-one of
      them have. */
  ghost predicate Capacity<T>(s: State<T>)
    requires Shape(s)
  {
    && s.maxBlock >= 2
    && s.cap > 0
    && s.largest >= 2
    && (|s.ring| == 1 ==> s.blocks[s.ring[0]].size > s.cap && s.largest >= s.blocks[s.ring[0]].size)
    && (|s.ring| > 1 ==> forall j :: 0 <= j < |s.ring| ==>
          Room(s.blocks, s.ring) - (s.blocks[s.ring[j]].size - 1) >= s.cap)
  }

  /** Every element enqueued so far has been dequeued, in order, or is still queued. */
  ghost predicate Fifo<T>(s: State<T>)
    requires Shape(s)
  {
    s.deq + Queued(s) == s.enq
  }

  ghost predicate Inv<T>(s: State<T>) {
    Shape(s) && Arc(s) && Lifetimes(s) && ProducerOk(s) && ConsumerOk(s) && Capacity(s) && Fifo(s)
  }
}
