/** The queue as the source writes it: blocks linked in a circle on the heap. The
    methods are proved against the step system run by one side alone (SpscSolo), so
    its invariant, order and capacity are theirs. */
module RwQueue {
  import B = Blocks
  import opened Bits
  import Q = SpscSteps
  import QT = SpscTheorems
  import Solo = SpscSolo

  ghost predicate IsPow2(n: nat) {
    exists k: nat :: n == Pow2(k)
  }

  /** The index after `i`, masked as the source does it. */
  function Wrap(i: nat, mask: nat): nat {
    BitAnd(i + 1, mask)
  }

  lemma WrapIsNext(i: nat, n: nat)
    requires IsPow2(n) && i < n
    ensures Wrap(i, n - 1) == B.Next(i, n)
  {
    var k: nat :| n == Pow2(k);
    MaskIsMod(i + 1, k);
    if i + 1 == n {
      ModIs(i + 1, n, 1, 0);
    } else {
      ModIs(i + 1, n, 0, i + 1);
    }
  }

  /** The masked word difference of two indices is how far apart they are. */
  lemma MaskedDist(f: nat, t: nat, n: nat)
    requires IsPow2(n) && n <= WORD && f < n && t < n
    ensures BitAnd((t + WORD - f) % WORD, n - 1) == B.Dist(f, t, n)
  {
    hide BitAnd, Pow2;
    var k: nat :| n == Pow2(k);
    var d := if f <= t then t - f else WORD + t - f;
    ModIs(t + WORD - f, WORD, if f <= t then 1 else 0, d);
    MaskIsMod(d, k);
    if f <= t {
      ModIs(d, n, 0, d);
    } else {
      var q: nat := WordOver(n, k);
      assert WORD == (q - 1) * n + n;
      ModIs(d, n, q - 1, n + t - f);
    }
  }

  lemma WordOver(n: nat, k: nat) returns (q: nat)
    requires n == Pow2(k) <= WORD
    ensures q >= 1 && WORD == q * n
  {
    WordIsPow2();
    Doubled(64);
    if k > 64 {
      Pow2Monotone(65, k);
    }
    Pow2Sum(64 - k, k);
    q := Pow2(64 - k);
  }

  class Block<T> {
    var front: nat
    var localTail: nat
    var tail: nat
    var localFront: nat
    var next: Block?<T>
    const data: array<T>
    const sizeMask: nat

    /** make_block: fresh memory holds anything, here `junk`. */
    constructor (size: nat, junk: T)
      requires size > 0
      ensures front == localTail == tail == localFront == 0 && next == null && sizeMask == size - 1
      ensures fresh(data) && data.Length == size && forall i :: 0 <= i < size ==> data[i] == junk
    {
      front, localTail, tail, localFront, next := 0, 0, 0, 0, null;
      data := new T[size](_ => junk);
      sizeMask := size - 1;
    }

    ghost predicate Blank(size: nat, junk: T)
      reads this, data
    {
      && front == localTail == tail == localFront == 0
      && sizeMask + 1 == size == data.Length && forall i :: 0 <= i < size ==> data[i] == junk
    }

    /** The block agrees with its value in the step system. */
    ghost predicate Mirrors(b: B.Block<T>)
      reads this, data
    {
      && front == b.front && localTail == b.localTail && tail == b.tail && localFront == b.localFront
      && sizeMask + 1 == b.size && data[..] == b.data
    }

    /** Constructs `e` at the tail. */
    method Append(e: T, ghost b: B.Block<T>)
      requires Mirrors(b) && IsPow2(b.size) && b.tail < b.size == |b.data| && b.tail < |b.live|
      modifies this`tail, data
      ensures Mirrors(Solo.Pushed(b, e))
    {
      hide IsPow2, Wrap;
      data[tail] := e;
      WrapIsNext(tail, sizeMask + 1);
      tail := Wrap(tail, sizeMask);
    }

    /** Constructs `e` in a block ahead of the tail block, which has to be empty. */
    method AppendToSpare(e: T, ghost b: B.Block<T>)
      requires Mirrors(b) && IsPow2(b.size) && b.front == b.tail < b.size == |b.data| && b.tail < |b.live|
      modifies this`localFront, this`tail, data
      ensures Mirrors(Solo.Pushed(b.(localFront := b.front), e))
    {
      hide IsPow2;
      localFront := front;
      var nextBlockFront := localFront;
      var nextBlockTail := tail;
      assert nextBlockFront == nextBlockTail;
      localFront := nextBlockFront;
      Append(e, b.(localFront := b.front));
    }

    /** A fresh block holding just `e`. */
    constructor Filled(size: nat, e: T, ghost b: B.Block<T>)
      requires size >= 2 && b == Q.FilledBlock(size, e, e).(next := b.next)
      ensures fresh(data) && Mirrors(b)
    {
      front, localTail, tail, localFront, next := 0, 1, 1, 0, null;
      data := new T[size](_ => e);
      sizeMask := size - 1;
      new;
      data[0] := e;
      assert data[..] == b.data;
    }
  }

  lemma ConstructedEmpty<T>(maxSize: nat, maxBlock: nat, junk: T)
    requires maxSize > 0 && maxBlock >= 2
    ensures var s := Q.Construct(maxSize, maxBlock, junk); Q.Shape(s) && Q.Queued(s) == []
  {
    hide Q.Arc, Q.Lifetimes, Q.Capacity, Q.ProducerOk, Q.ConsumerOk, Q.BlockCount, Q.FirstBlockSize, Q.Queued;
    QT.ConstructedInv(maxSize, maxBlock, junk);
  }

  lemma ConstructedState<T>(maxSize: nat, maxBlock: nat, junk: T)
    requires 0 < maxSize < WORD / 2 && maxBlock >= 2 && IsPow2(maxBlock) && 2 * maxBlock <= WORD
    ensures var s := Q.Construct(maxSize, maxBlock, junk);
            var size, count := Q.FirstBlockSize(maxSize, maxBlock), Q.BlockCount(maxSize, maxBlock);
            && Q.Inv(s) && Q.Shape(s) && Q.Queued(s) == []
            && size >= 2 && IsPow2(size) && size <= WORD && count >= 1
            && |s.blocks| == count && (forall i :: 0 <= i < count ==>
                s.blocks[i] == Q.NewBlock(size, B.Next(i, count), junk))
            && s.frontBlock == s.tailBlock == 0 && s.largest == size && s.maxBlock == maxBlock && s.cap == maxSize
            && s.prod == Q.PIdle && s.cons == Q.CIdle
  {
    hide Q.Inv, Q.Shape, Q.Queued, IsPow2, CeilPow2;
    QT.ConstructedInv(maxSize, maxBlock, junk);
    QT.EnoughBlocks(maxSize, maxBlock);
    ConstructedEmpty(maxSize, maxBlock, junk);
    SizesFit(maxSize, maxBlock);
  }

  /** The sizes the constructor picks are powers of two that fit a word. */
  lemma SizesFit(maxSize: nat, maxBlock: nat)
    requires 0 < maxSize < WORD / 2 && maxBlock >= 2 && IsPow2(maxBlock) && 2 * maxBlock <= WORD
    ensures IsPow2(Q.FirstBlockSize(maxSize, maxBlock)) && Q.FirstBlockSize(maxSize, maxBlock) <= WORD
  {
    hide Pow2, CeilPow2;
    var k := CeilPow2Least(maxSize + 1);
  }

  class ReaderWriterQueue<T> {
    var frontBlock: Block<T>
    var tailBlock: Block<T>
    var largestBlockSize: nat
    const maxBlockSize: nat
    ghost const maxSize: nat
    ghost var blocks: seq<Block<T>>
    ghost var st: Q.State<T>

    static ghost predicate Apart(blocks: seq<Block<T>>) {
      forall i, j :: 0 <= i < j < |blocks| ==> blocks[i] != blocks[j] && blocks[i].data != blocks[j].data
    }

    ghost predicate LinkMirrored(i: nat)
      reads this, blocks
      requires i < |blocks| == |st.blocks|
    {
      st.blocks[i].next < |blocks| && blocks[i].next == blocks[st.blocks[i].next]
    }

    ghost predicate Mirrored()
      reads this, blocks, set i | 0 <= i < |blocks| :: blocks[i].data
    {
      && |st.blocks| == |blocks|
      && (forall i :: 0 <= i < |blocks| ==> blocks[i].Mirrors(st.blocks[i]))
      && (forall i :: 0 <= i < |blocks| ==> LinkMirrored(i))
      && st.frontBlock < |blocks| && frontBlock == blocks[st.frontBlock]
      && st.tailBlock < |blocks| && tailBlock == blocks[st.tailBlock]
      && largestBlockSize == st.largest && maxBlockSize == st.maxBlock && maxSize == st.cap
    }

    static ghost predicate Sized(bs: seq<B.Block<T>>) {
      forall i :: 0 <= i < |bs| ==> IsPow2(bs[i].size) && bs[i].size <= WORD
    }

    /** The blocks mirror a state of the step system in which neither side is inside a
        call; their sizes are powers of two that fit a word. */
    ghost predicate Valid()
      reads this, blocks, set i | 0 <= i < |blocks| :: blocks[i].data
    {
      && Mirrored() && Apart(blocks)
      && Q.Inv(st) && Q.Shape(st) && st.prod == Q.PIdle && st.cons == Q.CIdle
      && Sized(st.blocks)
      && IsPow2(largestBlockSize) && largestBlockSize <= WORD && 2 * maxBlockSize <= WORD
    }

    /** The queued elements, oldest first. */
    ghost function Contents(): seq<T>
      reads this
      requires Q.Shape(st)
    {
      Q.Queued(st)
    }

    /** Reserves room for `size` elements; allocation is taken to succeed. */
    constructor (size: nat, maxBlock: nat, junk: T)
      requires 0 < size < WORD / 2
      requires maxBlock >= 2 && IsPow2(maxBlock) && 2 * maxBlock <= WORD
      ensures Valid() && fresh(blocks) && maxSize == size && maxBlockSize == maxBlock
      ensures Contents() == []
    {
      hide Q.Inv, Q.Shape, Q.Queued, IsPow2, Q.Construct, Q.BlockCount, Q.FirstBlockSize, CeilPow2;
      hide Follows, Block.Blank, Block.Mirrors, LinkMirrored, Apart, Sized;
      ConstructedState(size, maxBlock, junk);
      var count, largest := Layout(size, maxBlock);
      var first;
      ghost var made;
      first, made := MakeCircle(count, largest, junk);
      frontBlock, tailBlock, largestBlockSize := first, first, largest;
      maxBlockSize, maxSize := maxBlock, size;
      blocks := made;
      st := Q.Construct(size, maxBlock, junk);
      new;
      CircleMirrors(largest, junk);
      FreshSized(st.blocks, largest);
    }

    static lemma FreshSized(bs: seq<B.Block<T>>, size: nat)
      requires IsPow2(size) && size <= WORD && forall i :: 0 <= i < |bs| ==> bs[i].size == size
      ensures Sized(bs)
    {
      hide IsPow2;
    }

    /** A circle of blank blocks agrees with that of the step system. */
    lemma CircleMirrors(size: nat, junk: T)
      requires |blocks| == |st.blocks| && size > 0
      requires forall i :: 0 <= i < |blocks| ==> blocks[i].Blank(size, junk) && Follows(blocks, i)
      requires forall i :: 0 <= i < |blocks| ==> st.blocks[i] == Q.NewBlock(size, B.Next(i, |blocks|), junk)
      ensures forall i :: 0 <= i < |blocks| ==> LinkMirrored(i) && blocks[i].Mirrors(st.blocks[i])
    {
      forall i | 0 <= i < |blocks|
        ensures LinkMirrored(i) && blocks[i].Mirrors(st.blocks[i])
      {
        assert Follows(blocks, i);
      }
    }

    /** How many blocks of what size to start with: one, or so many of the largest size
        that all but one of them have room for `size` elements. */
    static method Layout(size: nat, maxBlock: nat) returns (count: nat, largest: nat)
      requires 0 < size < WORD / 2 && maxBlock >= 2
      ensures count == Q.BlockCount(size, maxBlock) && largest == Q.FirstBlockSize(size, maxBlock)
    {
      hide CeilPow2;
      largest := CeilToPow2(size + 1);
      count := 1;
      if largest > maxBlock * 2 {
        count := (size + maxBlock * 2 - 3) / (maxBlock - 1);
        largest := maxBlock;
      }
    }

    /** The constructor's loop: `count` blocks, each linked to the next and the last to
        the first. */
    static method MakeCircle(count: nat, size: nat, junk: T) returns (first: Block<T>, ghost made: seq<Block<T>>)
      requires count >= 1 && size >= 1
      ensures |made| == count && made[0] == first
      ensures forall j :: 0 <= j < count ==> fresh(made[j]) && fresh(made[j].data) && made[j].Blank(size, junk)
      ensures Apart(made)
      ensures forall j :: 0 <= j < count ==> Follows(made, j)
    {
      first := new Block(size, junk);
      first.next := first;
      var last := first;
      made := [first];
      var i := 1;
      while i != count
        invariant 1 <= i <= count && |made| == i && made[0] == first && made[i - 1] == last && last.next == first
        invariant forall j :: 0 <= j < i ==> fresh(made[j]) && fresh(made[j].data) && made[j].Blank(size, junk)
        invariant forall j, k :: 0 <= j < k < i ==> made[j] != made[k] && made[j].data != made[k].data
        invariant forall j :: 0 <= j < i - 1 ==> made[j].next == made[j + 1]
        decreases count - i
      {
        var block := new Block(size, junk);
        last.next := block;
        last := block;
        block.next := first;
        made := made + [block];
        i := i + 1;
      }
    }

    /** Block `j` of the circle points to the one after it. */
    static ghost predicate Follows(made: seq<Block<T>>, j: nat)
      requires j < |made|
      reads made
    {
      made[j].next == made[B.Next(j, |made|)]
    }

    /** The body that try_dequeue and pop share; they differ in whether the element is
        moved out or just destroyed. */
    method Take(ghost op: Q.Op) returns (res: Q.Option<T>)
      requires Valid() && op != Q.Peek
      modifies this`st, this`frontBlock, blocks
      ensures Valid() && blocks == old(blocks) && Took(old(st), op, res)
    {
      hide Q.Inv, Q.Shape, Q.Queued, Solo.Take, IsPow2, Wrap, B.Wf;
      ghost var s := st;
      Solo.FrontBlockThere(s);
      var fb := frontBlock;
      var blockTail := fb.localTail;
      var blockFront := fb.front;
      if blockFront != blockTail || blockFront != fb.tail {
        res := TakeHere(op);
      } else if fb != tailBlock {
        res := TakeNext(op);
      } else {
        res := Q.None;
        fb.localTail := fb.tail;
        TakenNothing(s, op);
        st := Solo.Take(s, Q.Consume(op)).0;
        forall i | 0 <= i < |blocks|
          ensures LinkMirrored(i)
        {
          assert old(LinkMirrored(i));
        }
      }
    }

    static lemma TakenNothing(s: Q.State<T>, op: Q.Op)
      requires Q.Inv(s) && Q.Shape(s) && s.cons.CIdle?
      requires var b := s.blocks[s.frontBlock]; b.front == b.localTail == b.tail && s.frontBlock == s.tailBlock
      ensures Solo.Take(s, Q.Consume(op)).1 == Q.None
      ensures var t := Solo.Take(s, Q.Consume(op)).0; SameMemory(s, t)
    {
      hide Q.Inv, Q.Shape;
      Solo.TakeNothing(s, Q.Consume(op));
    }

    static ghost predicate SameMemory(s: Q.State<T>, t: Q.State<T>) {
      && t.blocks == s.blocks && t.frontBlock == s.frontBlock && t.tailBlock == s.tailBlock
      && t.prod == s.prod && t.cons == s.cons && t.largest == s.largest && t.maxBlock == s.maxBlock && t.cap == s.cap
    }

    /** Only block `n` has changed, and it still agrees with the step system. */
    twostate lemma Recoupled(n: nat)
      requires old(Mirrored()) && blocks == old(blocks) && n < |blocks| == |st.blocks|
      requires forall i :: 0 <= i < |blocks| && i != n ==> st.blocks[i] == old(st).blocks[i]
      requires forall i :: 0 <= i < |blocks| && i != n ==> unchanged(blocks[i]) && unchanged(blocks[i].data)
      requires st.blocks[n].next == old(st).blocks[n].next && blocks[n].next == old(blocks[n].next)
      requires blocks[n].Mirrors(st.blocks[n])
      ensures forall i :: 0 <= i < |blocks| ==> blocks[i].Mirrors(st.blocks[i])
      ensures forall i :: 0 <= i < |blocks| ==> LinkMirrored(i)
    {
      forall i | 0 <= i < |blocks|
        ensures LinkMirrored(i) && blocks[i].Mirrors(st.blocks[i])
      {
        assert old(LinkMirrored(i));
        assert old(blocks[i].Mirrors(st.blocks[i]));
      }
    }

    /** The part of Take that finds an element in the front block. */
    method TakeHere(ghost op: Q.Op) returns (res: Q.Option<T>)
      requires Valid() && op != Q.Peek
      requires frontBlock.front != frontBlock.localTail || frontBlock.front != frontBlock.tail
      modifies this`st, blocks
      ensures Valid() && blocks == old(blocks) && Took(old(st), op, res)
    {
      hide Q.Inv, Q.Shape, Q.Queued, Solo.Take, Solo.Same, Solo.TookFrom, IsPow2, Wrap, B.Wf;
      ghost var s, a := st, Q.Consume(op);
      ghost var b := RefreshedFront(s, op);
      var fb := frontBlock;
      var blockFront := fb.front;
      if blockFront == fb.localTail {
        fb.localTail := fb.tail;
      }
      res := Q.Some(fb.data[blockFront]);
      WrapIsNext(blockFront, fb.sizeMask + 1);
      fb.front := Wrap(blockFront, fb.sizeMask);
      st := Solo.Take(s, a).0;
      TakenHere(s, st, op, b);
      Recoupled(s.frontBlock);
    }

    /** The step system's account of a taking call. */
    ghost predicate Took(s: Q.State<T>, op: Q.Op, res: Q.Option<T>)
      reads this
    {
      Q.Inv(s) && Q.Shape(s) && s.cons.CIdle? && Solo.Take(s, Q.Consume(op)) == (st, res)
    }

    /** The front block as the call sees it, if it holds something. */
    static lemma RefreshedFront(s: Q.State<T>, op: Q.Op) returns (b: B.Block<T>)
      requires Q.Inv(s) && Q.Shape(s) && s.cons.CIdle? && s.frontBlock < |s.blocks|
      requires var c := s.blocks[s.frontBlock]; c.front != c.localTail || c.front != c.tail
      ensures var c := s.blocks[s.frontBlock];
              b == if c.front == c.localTail then c.(localTail := c.tail) else c
      ensures B.Wf(b) && Solo.TookFrom(s, Q.Consume(op), b) && b.front < b.size == |b.data| == |b.live|
    {
      hide Q.Inv, Q.Shape, Q.Queued, Solo.Take, Solo.Same, Solo.TookFrom;
      b := s.blocks[s.frontBlock];
      if b.front == b.localTail {
        Solo.TakeReread(s, Q.Consume(op));
        b := b.(localTail := b.tail);
      } else {
        Solo.TakeQuick(s, Q.Consume(op));
      }
    }

    static lemma TakenHere(s: Q.State<T>, t: Q.State<T>, op: Q.Op, b: B.Block<T>)
      requires Q.Inv(s) && Q.Shape(s) && s.cons.CIdle? && op != Q.Peek && t == Solo.Take(s, Q.Consume(op)).0
      requires s.frontBlock < |s.blocks| && B.Wf(b) && Solo.TookFrom(s, Q.Consume(op), b)
      ensures B.Wf(b) && Solo.Take(s, Q.Consume(op)).1 == Q.Some(b.data[b.front])
      ensures var k := s.frontBlock;
              && |t.blocks| == |s.blocks|
              && (forall i :: 0 <= i < |s.blocks| && i != k ==> t.blocks[i] == s.blocks[i])
              && t.blocks[k] == Solo.Popped(b)
              && t.frontBlock == s.frontBlock && t.tailBlock == s.tailBlock && t.prod == s.prod && t.cons == s.cons
              && t.largest == s.largest && t.maxBlock == s.maxBlock && t.cap == s.cap
    {
    }

    /** The part of Take that moves on to the next block. */
    method TakeNext(ghost op: Q.Op) returns (res: Q.Option<T>)
      requires Valid() && op != Q.Peek
      requires frontBlock.front == frontBlock.localTail == frontBlock.tail && frontBlock != tailBlock
      modifies this`st, this`frontBlock, blocks
      ensures Valid() && blocks == old(blocks) && Took(old(st), op, res)
    {
      hide Q.Inv, Q.Shape, Q.Queued, Solo.Take, Solo.Same, IsPow2, Wrap, B.Wf;
      ghost var s, a := st, Q.Consume(op);
      TakenNext(s, op);
      ghost var n := s.blocks[s.frontBlock].next;
      assert LinkMirrored(s.frontBlock);
      OthersDiffer(blocks, n);
      res := MoveOn(blocks[n], s.blocks[n]);
      st := Solo.Take(s, a).0;
      Recoupled(n);
    }

    /** Moves on to the next block and takes its first element. */
    method MoveOn(ghost next: Block<T>, ghost c: B.Block<T>) returns (res: Q.Option<T>)
      requires frontBlock.next == next != frontBlock && next.Mirrors(c)
      requires frontBlock.front == frontBlock.localTail == frontBlock.tail
      requires IsPow2(c.size) && c.size <= WORD && c.front != c.tail
      requires c.front < c.size == |c.data| && c.front < |c.live|
      modifies this`frontBlock, frontBlock`localTail, next`localTail, next`front
      ensures frontBlock == next && frontBlock.Mirrors(Solo.Popped(c.(localTail := c.tail)))
      ensures old(frontBlock).localTail == old(frontBlock.localTail) && res == Q.Some(c.data[c.front])
    {
      hide IsPow2, Wrap;
      var fb := frontBlock;
      fb.localTail := fb.tail;
      var blockTail := fb.localTail;
      var blockFront := fb.front;
      // With the producer at rest the front block has not filled in the meantime.
      assert blockFront == blockTail;
      var nextBlock := fb.next;
      var nextBlockFront := nextBlock.front;
      nextBlock.localTail := nextBlock.tail;
      assert nextBlockFront != nextBlock.localTail;
      frontBlock := nextBlock;
      res := Q.Some(nextBlock.data[nextBlockFront]);
      WrapIsNext(nextBlockFront, nextBlock.sizeMask + 1);
      nextBlock.front := Wrap(nextBlockFront, nextBlock.sizeMask);
    }

    static lemma TakenNext(s: Q.State<T>, op: Q.Op)
      requires Q.Inv(s) && Q.Shape(s) && s.cons.CIdle? && op != Q.Peek && s.frontBlock < |s.blocks|
      requires var b := s.blocks[s.frontBlock]; b.front == b.localTail == b.tail && s.frontBlock != s.tailBlock
      ensures var (t, res) := Solo.Take(s, Q.Consume(op));
              var n := s.blocks[s.frontBlock].next;
              && n < |s.blocks| && n != s.frontBlock && |t.blocks| == |s.blocks|
              && (forall i :: 0 <= i < |s.blocks| && i != n ==> t.blocks[i] == s.blocks[i])
              && t.frontBlock == n && t.tailBlock == s.tailBlock && t.prod == s.prod && t.cons == s.cons
              && t.largest == s.largest && t.maxBlock == s.maxBlock && t.cap == s.cap
      ensures var (t, res) := Solo.Take(s, Q.Consume(op));
              var n := s.blocks[s.frontBlock].next;
              var c := s.blocks[n].(localTail := s.blocks[n].tail);
              && c.front < c.size == |c.data| && c.front < |c.live| && c.front != c.tail
              && t.blocks[n] == Solo.Popped(c) && res == Q.Some(c.data[c.front])
    {
      hide Q.Inv, Q.Shape, Solo.Take;
      Solo.TakeNext(s, Q.Consume(op));
    }

    /** Attempts to take the first element. */
    method TryDequeue() returns (res: Q.Option<T>)
      requires Valid()
      modifies this`st, this`frontBlock, blocks
      ensures Valid() && blocks == old(blocks)
      ensures res == if old(Contents()) == [] then Q.None else Q.Some(old(Contents())[0])
      ensures Contents() == if old(Contents()) == [] then [] else old(Contents())[1..]
    {
      hide Q.Inv, Q.Shape, Q.Queued, Solo.Take, Mirrored, Apart;
      Solo.TakeEffect(st, Q.Consume(Q.TryDequeue));
      res := Take(Q.TryDequeue);
    }

    /** Removes the first element, if any. */
    method Pop() returns (ok: bool)
      requires Valid()
      modifies this`st, this`frontBlock, blocks
      ensures Valid() && blocks == old(blocks)
      ensures ok <==> old(Contents()) != []
      ensures Contents() == if old(Contents()) == [] then [] else old(Contents())[1..]
    {
      hide Q.Inv, Q.Shape, Q.Queued, Solo.Take, Mirrored, Apart;
      Solo.TakeEffect(st, Q.Consume(Q.Pop));
      var res := Take(Q.Pop);
      ok := res.Some?;
    }

    /** The first element, if any, which stays where it is. */
    method Peek() returns (res: Q.Option<T>)
      requires Valid()
      modifies this`st, blocks
      ensures Valid() && blocks == old(blocks)
      ensures res == if old(Contents()) == [] then Q.None else Q.Some(old(Contents())[0])
      ensures Contents() == old(Contents())
    {
      hide Q.Inv, Q.Shape, Q.Queued, Solo.Take, IsPow2, B.Wf;
      ghost var s := st;
      Solo.FrontBlockThere(s);
      Solo.TakeEffect(s, Q.Consume(Q.Peek));
      Peeked(s);
      var fb := frontBlock;
      var blockTail := fb.localTail;
      var blockFront := fb.front;
      if blockFront == blockTail {
        fb.localTail := fb.tail;
      }
      if blockFront != fb.localTail {
        res := Q.Some(fb.data[blockFront]);
      } else if fb != tailBlock {
        assert old(LinkMirrored(s.frontBlock));
        var nextBlock := fb.next;
        var nextBlockFront := nextBlock.front;
        assert nextBlockFront != nextBlock.tail;
        res := Q.Some(nextBlock.data[nextBlockFront]);
      } else {
        res := Q.None;
      }
      st := Solo.Take(s, Q.Consume(Q.Peek)).0;
      Recoupled(s.frontBlock);
    }

    static lemma Peeked(s: Q.State<T>)
      requires Q.Inv(s) && Q.Shape(s) && s.cons.CIdle? && s.frontBlock < |s.blocks|
      ensures var (t, res) := Solo.Take(s, Q.Consume(Q.Peek));
              var b := s.blocks[s.frontBlock];
              && t.blocks == s.blocks[s.frontBlock := if b.front == b.localTail then b.(localTail := b.tail) else b]
              && t.frontBlock == s.frontBlock && t.tailBlock == s.tailBlock && t.prod == s.prod && t.cons == s.cons
              && t.largest == s.largest && t.maxBlock == s.maxBlock && t.cap == s.cap
              && b.front < |b.data|
              && (b.front != b.localTail || b.front != b.tail ==> res == Q.Some(b.data[b.front]))
              && (b.front == b.localTail == b.tail && s.frontBlock == s.tailBlock ==> res == Q.None)
      ensures var (t, res) := Solo.Take(s, Q.Consume(Q.Peek));
              var b := s.blocks[s.frontBlock];
              b.front == b.localTail == b.tail && s.frontBlock != s.tailBlock ==>
                && b.next < |s.blocks|
                && s.blocks[b.next].front < |s.blocks[b.next].data|
                && s.blocks[b.next].front != s.blocks[b.next].tail
                && res == Q.Some(s.blocks[b.next].data[s.blocks[b.next].front])
    {
      hide Q.Inv, Q.Shape, Solo.Take;
      Solo.FrontBlockThere(s);
      var b := s.blocks[s.frontBlock];
      if b.front != b.localTail {
        Solo.TakeQuick(s, Q.Consume(Q.Peek));
      } else if b.front != b.tail {
        Solo.TakeReread(s, Q.Consume(Q.Peek));
      } else {
        assert s.blocks[s.frontBlock := b.(localTail := b.tail)] == s.blocks;
        if s.frontBlock == s.tailBlock {
          Solo.TakeNothing(s, Q.Consume(Q.Peek));
        } else {
          Solo.TakeNext(s, Q.Consume(Q.Peek));
        }
      }
    }

    // ---- Enqueuing ---------------------------------------------------------------

    /** The step system's account of an enqueuing call. `e` also stands for what fresh
        memory holds. */
    ghost predicate Put(s: Q.State<T>, e: T, canAlloc: bool, mallocOk: bool, ok: bool)
      reads this
    {
      && Q.Inv(s) && Q.Shape(s) && s.prod.PIdle?
      && Solo.Enqueue(s, Q.Produce(e, canAlloc, mallocOk, e)) == (st, ok)
    }

    /** The body that enqueue (canAlloc) and try_enqueue share; `mallocOk` is whether an
        allocation, if one is needed, succeeds. */
    method InnerEnqueue(e: T, canAlloc: bool, mallocOk: bool) returns (ok: bool)
      requires Valid()
      modifies this, blocks, set i | 0 <= i < |blocks| :: blocks[i].data
      ensures Valid() && Put(old(st), e, canAlloc, mallocOk, ok)
      ensures old(blocks) <= blocks && forall i :: |old(blocks)| <= i < |blocks| ==>
          fresh(blocks[i]) && fresh(blocks[i].data)
    {
      hide Q.Inv, Q.Shape, Q.Queued, Solo.Enqueue, IsPow2, B.Wf, Wrap, Put;
      TailBlockIs(st);
      var tb := tailBlock;
      var nextBlockTail := Wrap(tb.tail, tb.sizeMask);
      WrapIsNext(tb.tail, tb.sizeMask + 1);
      if nextBlockTail != tb.localFront || nextBlockTail != tb.front {
        ok := PutHere(e, canAlloc, mallocOk);
      } else if tb.next != frontBlock {
        ok := PutNext(e, canAlloc, mallocOk);
      } else {
        ok := PutNew(e, canAlloc, mallocOk);
      }
    }

    static lemma TailBlockIs(s: Q.State<T>)
      requires Q.Inv(s)
      ensures s.tailBlock < |s.blocks| && s.blocks[s.tailBlock].tail < s.blocks[s.tailBlock].size
    {
      hide Q.Arc, Q.Lifetimes, Q.Capacity, Q.ProducerOk, Q.ConsumerOk, Q.Fifo;
    }

    /** The part of InnerEnqueue for room in the tail block. */
    method PutHere(e: T, ghost canAlloc: bool, ghost mallocOk: bool) returns (ok: bool)
      requires Valid()
      requires var n := B.Next(tailBlock.tail, tailBlock.sizeMask + 1);
               n != tailBlock.localFront || n != tailBlock.front
      modifies this`st, blocks, tailBlock.data
      ensures Valid() && blocks == old(blocks) && Put(old(st), e, canAlloc, mallocOk, ok)
    {
      hide Q.Inv, Q.Shape, Q.Queued, Solo.Enqueue, IsPow2, B.Wf, Wrap;
      ghost var s := st;
      PuttingHere(s, e, canAlloc, mallocOk);
      var tb := tailBlock;
      var blockTail := tb.tail;
      var nextBlockTail := Wrap(blockTail, tb.sizeMask);
      WrapIsNext(blockTail, tb.sizeMask + 1);
      if nextBlockTail == tb.localFront {
        tb.localFront := tb.front;
      }
      tb.data[blockTail] := e;
      tb.tail := nextBlockTail;
      st := Solo.Enqueue(s, Q.Produce(e, canAlloc, mallocOk, e)).0;
      ok := true;
      Recoupled(s.tailBlock);
    }

    static lemma PuttingHere(s: Q.State<T>, e: T, canAlloc: bool, mallocOk: bool)
      requires Q.Inv(s) && Q.Shape(s) && s.prod.PIdle? && s.tailBlock < |s.blocks|
      requires var b := s.blocks[s.tailBlock];
               B.Next(b.tail, b.size) != b.localFront || B.Next(b.tail, b.size) != b.front
      ensures var (t, ok) := Solo.Enqueue(s, Q.Produce(e, canAlloc, mallocOk, e));
              var b := s.blocks[s.tailBlock];
              var c := if B.Next(b.tail, b.size) == b.localFront then b.(localFront := b.front) else b;
              && ok && b.tail < |b.data| == b.size && b.tail < |b.live|
              && t.blocks == s.blocks[s.tailBlock := Solo.Pushed(c, e)]
              && t.frontBlock == s.frontBlock && t.tailBlock == s.tailBlock && t.prod == s.prod && t.cons == s.cons
              && t.largest == s.largest && t.maxBlock == s.maxBlock && t.cap == s.cap
    {
      hide Q.Inv, Q.Shape, Solo.Enqueue;
      var b := s.blocks[s.tailBlock];
      if B.Next(b.tail, b.size) != b.localFront {
        Solo.EnqueueQuick(s, Q.Produce(e, canAlloc, mallocOk, e));
      } else {
        Solo.EnqueueReread(s, Q.Produce(e, canAlloc, mallocOk, e));
      }
    }

    /** The part of InnerEnqueue for a full tail block with a free block after it. */
    method PutNext(e: T, ghost canAlloc: bool, ghost mallocOk: bool) returns (ok: bool)
      requires Valid()
      requires var n := B.Next(tailBlock.tail, tailBlock.sizeMask + 1); n == tailBlock.localFront == tailBlock.front
      requires tailBlock.next != frontBlock
      modifies this`st, this`tailBlock, blocks, set i | 0 <= i < |blocks| :: blocks[i].data
      ensures Valid() && blocks == old(blocks) && Put(old(st), e, canAlloc, mallocOk, ok)
    {
      hide Q.Inv, Q.Shape, Q.Queued, Solo.Enqueue, IsPow2, B.Wf, Wrap, Apart, Sized, Solo.Pushed;
      ghost var s := st;
      assert LinkMirrored(s.tailBlock);
      OthersDiffer(blocks, s.blocks[s.tailBlock].next);
      assert s.blocks[s.tailBlock].next != s.frontBlock;
      PuttingNext(s, e, canAlloc, mallocOk);
      PushedSized(s.blocks, s.blocks[s.tailBlock].next, e);
      var tb := tailBlock;
      tb.localFront := tb.front;
      var next := tb.next;
      next.AppendToSpare(e, s.blocks[s.blocks[s.tailBlock].next]);
      tailBlock := next;
      st := Solo.Enqueue(s, Q.Produce(e, canAlloc, mallocOk, e)).0;
      ok := true;
      Recoupled(s.blocks[s.tailBlock].next);
    }

    static lemma PuttingNext(s: Q.State<T>, e: T, canAlloc: bool, mallocOk: bool)
      requires Q.Inv(s) && Q.Shape(s) && s.prod.PIdle? && s.tailBlock < |s.blocks|
      requires var b := s.blocks[s.tailBlock];
               B.Next(b.tail, b.size) == b.localFront == b.front && b.next != s.frontBlock
      ensures var (t, ok) := Solo.Enqueue(s, Q.Produce(e, canAlloc, mallocOk, e));
              var n := s.blocks[s.tailBlock].next;
              && ok && n < |s.blocks| && n != s.tailBlock
              && var c := s.blocks[n].(localFront := s.blocks[n].front);
              && c.front == c.tail < c.size == |c.data| && c.tail < |c.live|
              && t.blocks == s.blocks[n := Solo.Pushed(c, e)]
              && t.frontBlock == s.frontBlock && t.tailBlock == n && t.prod == s.prod && t.cons == s.cons
              && t.largest == s.largest && t.maxBlock == s.maxBlock && t.cap == s.cap
    {
      hide Q.Inv, Q.Shape, Solo.Enqueue;
      var a := Q.Produce(e, canAlloc, mallocOk, e);
      Solo.EnqueueNext(s, a);
      var b := s.blocks[s.tailBlock];
      assert b.(localFront := b.front) == b && s.blocks[s.tailBlock := b] == s.blocks;
      SpareIsEmpty(s);
    }

    static lemma SpareIsEmpty(s: Q.State<T>)
      requires Q.Inv(s) && s.prod.PIdle? && s.tailBlock < |s.blocks|
      requires s.blocks[s.tailBlock].next != s.frontBlock && s.blocks[s.tailBlock].next < |s.blocks|
      ensures s.blocks[s.blocks[s.tailBlock].next].front == s.blocks[s.blocks[s.tailBlock].next].tail
    {
      hide Q.Lifetimes, Q.Capacity, Q.ProducerOk, Q.ConsumerOk, Q.Fifo;
      assert Q.Linked(s.blocks, s.ring, s.ti);
    }

    /** The part of InnerEnqueue for when all blocks are in use. */
    method PutNew(e: T, canAlloc: bool, mallocOk: bool) returns (ok: bool)
      requires Valid()
      requires var n := B.Next(tailBlock.tail, tailBlock.sizeMask + 1); n == tailBlock.localFront == tailBlock.front
      requires tailBlock.next == frontBlock
      modifies this, blocks
      ensures Valid() && Put(old(st), e, canAlloc, mallocOk, ok)
      ensures old(blocks) <= blocks && forall i :: |old(blocks)| <= i < |blocks| ==>
          fresh(blocks[i]) && fresh(blocks[i].data)
    {
      hide Q.Inv, Q.Shape, Q.Queued, Solo.Enqueue, IsPow2, B.Wf, Wrap;
      ghost var s := st;
      assert LinkMirrored(s.tailBlock);
      assert s.blocks[s.tailBlock].next == s.frontBlock by {
        SameBlock(s.blocks[s.tailBlock].next, s.frontBlock);
      }
      PuttingNew(s, e, canAlloc, mallocOk);
      var tb := tailBlock;
      tb.localFront := tb.front;
      if canAlloc && mallocOk {
        Grow(e);
        ok := true;
      } else {
        ok := false;
        st := Solo.Enqueue(s, Q.Produce(e, canAlloc, mallocOk, e)).0;
        Recoupled(s.tailBlock);
      }
    }

    lemma SameBlock(i: nat, j: nat)
      requires Apart(blocks) && i < |blocks| && j < |blocks| && blocks[i] == blocks[j]
      ensures i == j
    {
    }

    static lemma PuttingNew(s: Q.State<T>, e: T, canAlloc: bool, mallocOk: bool)
      requires Q.Inv(s) && Q.Shape(s) && s.prod.PIdle? && s.tailBlock < |s.blocks|
      requires var b := s.blocks[s.tailBlock];
               B.Next(b.tail, b.size) == b.localFront == b.front && b.next == s.frontBlock
      ensures var (t, ok) := Solo.Enqueue(s, Q.Produce(e, canAlloc, mallocOk, e));
              var n, b := |s.blocks|, s.blocks[s.tailBlock];
              && ok == (canAlloc && mallocOk) && Solo.GrownSize(s) >= 2
              && (ok ==>
                    var c := Q.FilledBlock(Solo.GrownSize(s), e, e).(next := b.next);
                    t.blocks == Linked(s.blocks, s.tailBlock, c) && |t.blocks| == n + 1 && t.blocks[n] == c)
              && (!ok ==> t.blocks == s.blocks)
              && t.frontBlock == s.frontBlock && t.tailBlock == (if ok then n else s.tailBlock)
              && t.prod == s.prod && t.cons == s.cons
              && t.largest == (if ok then Solo.GrownSize(s) else s.largest)
              && t.maxBlock == s.maxBlock && t.cap == s.cap
    {
      hide Q.Inv, Q.Shape, Solo.Enqueue, Q.FilledBlock;
      Solo.EnqueueNew(s, Q.Produce(e, canAlloc, mallocOk, e));
      var b := s.blocks[s.tailBlock];
      assert b.(localFront := b.front) == b && s.blocks[s.tailBlock := b] == s.blocks;
    }

    /** Moves on to a new block that holds `e`. */
    method Grow(e: T)
      requires Valid()
      requires var b := st.blocks[st.tailBlock];
               B.Next(b.tail, b.size) == b.localFront == b.front && b.next == st.frontBlock
      modifies this, tailBlock
      ensures Valid() && st == Solo.Enqueue(old(st), Q.Produce(e, true, true, e)).0
      ensures old(blocks) <= blocks && forall i :: |old(blocks)| <= i < |blocks| ==>
          fresh(blocks[i]) && fresh(blocks[i].data)
    {
      hide Q.Inv, Q.Shape, Q.Queued, Solo.Enqueue, IsPow2, B.Wf, Wrap, Q.FilledBlock, Apart, Sized, Linked,
          Block.Mirrors;
      ghost var s := st;
      PuttingNew(s, e, true, true);
      DoubledPow2(largestBlockSize);
      LinkedSized(s.blocks, s.tailBlock, e, s.blocks[s.tailBlock].next, Solo.GrownSize(s));
      var newBlockSize := if largestBlockSize >= maxBlockSize then largestBlockSize else largestBlockSize * 2;
      ghost var filled := Q.FilledBlock(newBlockSize, e, e);
      ghost var c := filled.(next := s.blocks[s.tailBlock].next);
      LinkIn(newBlockSize, e, c, s.tailBlock);
      st := Solo.Enqueue(s, Q.Produce(e, true, true, e)).0;
      RecoupledGrown(s.tailBlock);
    }

    /** Makes a block holding `e`, links it in after the tail block, which is block `k`, and
        moves on to it. */
    method LinkIn(size: nat, e: T, ghost c: B.Block<T>, ghost k: nat)
      requires size >= 2 && c == Q.FilledBlock(size, e, e).(next := c.next)
      requires k < |blocks| && tailBlock == blocks[k] && Apart(blocks)
      modifies `tailBlock, `largestBlockSize, `blocks, tailBlock`next
      ensures largestBlockSize == size && |blocks| == |old(blocks)| + 1 && old(blocks) <= blocks && Apart(blocks)
      ensures tailBlock == blocks[|old(blocks)|] && fresh(tailBlock) && fresh(tailBlock.data) && tailBlock.Mirrors(c)
      ensures tailBlock.next == old(blocks[k].next) && blocks[k].next == tailBlock
      ensures forall i :: 0 <= i < |old(blocks)| && i != k ==> blocks[i].next == old(blocks[i].next)
    {
      hide Q.FilledBlock;
      OthersDiffer(blocks, k);
      var newBlock := new Block<T>.Filled(size, e, c);
      newBlock.next := tailBlock.next;
      tailBlock.next := newBlock;
      StillApart(blocks, newBlock);
      largestBlockSize, tailBlock, blocks := size, newBlock, blocks + [newBlock];
    }

    static lemma PushedSized(bs: seq<B.Block<T>>, n: nat, e: T)
      requires Sized(bs) && n < |bs|
      requires bs[n].front == bs[n].tail < |bs[n].data| && bs[n].tail < |bs[n].live|
      ensures var b := Solo.Pushed(bs[n].(localFront := bs[n].front), e);
              IsPow2(bs[n].size) && Sized(bs[n := b]) && b.next == bs[n].next
    {
      hide IsPow2;
    }

    static lemma OthersDiffer(bs: seq<Block<T>>, k: nat)
      requires Apart(bs) && k < |bs|
      ensures forall i :: 0 <= i < |bs| && i != k ==> bs[i] != bs[k] && bs[i].data != bs[k].data
    {
    }

    static lemma StillApart(bs: seq<Block<T>>, b: Block<T>)
      requires Apart(bs) && forall i :: 0 <= i < |bs| ==> bs[i] != b && bs[i].data != b.data
      ensures Apart(bs + [b])
    {
    }

    static lemma LinkedSized(bs: seq<B.Block<T>>, k: nat, e: T, next: nat, size: nat)
      requires Sized(bs) && k < |bs| && size >= 2 && IsPow2(size) && size <= WORD
      ensures Sized(Linked(bs, k, Q.FilledBlock(size, e, e).(next := next)))
    {
      hide IsPow2;
    }

    /** `blocks` with `c` added and linked in after block `k`. */
    static ghost function Linked(blocks: seq<B.Block<T>>, k: nat, c: B.Block<T>): seq<B.Block<T>>
      requires k < |blocks|
    {
      blocks[k := blocks[k].(next := |blocks|)] + [c]
    }

    /** A block linked in after block `k` agrees with the step system, and so do the rest. */
    twostate lemma RecoupledGrown(k: nat)
      requires old(Mirrored()) && k < |old(blocks)| && |blocks| == |old(blocks)| + 1 && old(blocks) <= blocks
      requires |st.blocks| == |blocks| && st.blocks == Linked(old(st).blocks, k, st.blocks[|old(blocks)|])
      requires st.blocks[|old(blocks)|].next == old(st).blocks[k].next
      requires blocks[|old(blocks)|].Mirrors(st.blocks[|old(blocks)|])
      requires blocks[|old(blocks)|].next == old(blocks[k].next) && blocks[k].next == blocks[|old(blocks)|]
      requires forall i :: 0 <= i < |old(blocks)| ==>
                 && (i != k ==> blocks[i].next == old(blocks[i].next)) && unchanged(blocks[i].data)
                 && blocks[i].front == old(blocks[i].front) && blocks[i].tail == old(blocks[i].tail)
                 && blocks[i].localFront == old(blocks[i].localFront) && blocks[i].localTail == old(blocks[i].localTail)
      ensures |st.blocks| == |blocks|
      ensures forall i :: 0 <= i < |blocks| ==> blocks[i].Mirrors(st.blocks[i])
      ensures forall i :: 0 <= i < |blocks| ==> LinkMirrored(i)
    {
      forall i | 0 <= i < |blocks|
        ensures LinkMirrored(i) && blocks[i].Mirrors(st.blocks[i])
      {
        if i < |old(blocks)| {
          assert old(LinkMirrored(i));
          assert old(blocks[i].Mirrors(st.blocks[i]));
        } else {
          assert old(LinkMirrored(k));
        }
      }
    }

    static lemma DoubledPow2(n: nat)
      requires IsPow2(n)
      ensures IsPow2(2 * n)
    {
      var k: nat :| n == Pow2(k);
      assert 2 * n == Pow2(k + 1);
    }

    lemma CapIsMaxSize()
      requires Valid()
      ensures maxSize == st.cap
    {
    }

    /** Enqueues `e` if there is room without allocating: it refuses only when the queue
        holds all it was built for. */
    method TryEnqueue(e: T) returns (ok: bool)
      requires Valid()
      modifies this, blocks, set i | 0 <= i < |blocks| :: blocks[i].data
      ensures Valid() && old(blocks) <= blocks
      ensures Contents() == if ok then old(Contents()) + [e] else old(Contents())
      ensures !ok ==> |old(Contents())| >= maxSize
    {
      hide Q.Inv, Q.Shape, Q.Queued, Solo.Enqueue, Mirrored, Apart;
      Solo.EnqueueEffect(st, Q.Produce(e, false, false, e));
      CapIsMaxSize();
      ok := InnerEnqueue(e, false, false);
    }

    /** Enqueues `e`, allocating if need be: it fails only when allocation fails. */
    method Enqueue(e: T, mallocOk: bool) returns (ok: bool)
      requires Valid()
      modifies this, blocks, set i | 0 <= i < |blocks| :: blocks[i].data
      ensures Valid() && old(blocks) <= blocks
      ensures Contents() == if ok then old(Contents()) + [e] else old(Contents())
      ensures !ok ==> !mallocOk
    {
      hide Q.Inv, Q.Shape, Q.Queued, Solo.Enqueue, Mirrored, Apart;
      Solo.EnqueueEffect(st, Q.Produce(e, true, mallocOk, e));
      ok := InnerEnqueue(e, true, mallocOk);
    }

    // ---- Counting ----------------------------------------------------------------

    /** The circle that SizeApprox follows. */
    static lemma Circular(s: Q.State<T>)
      requires Q.Inv(s) && Q.Shape(s)
      ensures B.AllWf(s.blocks) && B.Ids(s.ring, |s.blocks|) && |s.ring| > 0 && s.ring[0] == s.frontBlock
      ensures B.Flat(s.blocks, s.ring[..0]) == []
    {
      hide Q.Inv, B.AllWf;
    }

    /** What one round of the loop adds. */
    static lemma Counted(s: Q.State<T>, i: nat)
      requires Q.Inv(s) && Q.Shape(s) && Sized(s.blocks) && i < |s.ring|
      requires B.AllWf(s.blocks) && B.Ids(s.ring, |s.blocks|)
      ensures var b, n := s.blocks[s.ring[i]], B.Next(i, |s.ring|);
              && b.front < b.size && b.tail < b.size && b.size <= WORD && b.next == s.ring[n]
              && (s.ring[n] == s.frontBlock <==> n == 0)
              && BitAnd((b.tail + WORD - b.front) % WORD, b.size - 1) == B.Dist(b.front, b.tail, b.size)
              && |B.Flat(s.blocks, s.ring[..i + 1])| ==
                  |B.Flat(s.blocks, s.ring[..i])| + B.Dist(b.front, b.tail, b.size)
    {
      hide Q.Inv, B.Flat, IsPow2, BitAnd;
      var b := s.blocks[s.ring[i]];
      MaskedDist(b.front, b.tail, b.size);
      assert Q.Linked(s.blocks, s.ring, i);
      assert s.ring[..i + 1] == s.ring[..i] + [s.ring[i]];
      B.FlatAppend(s.blocks, s.ring[..i], [s.ring[i]]);
      FlatOne(s.blocks, s.ring[i]);
    }

    static lemma FlatOne(bs: seq<B.Block<T>>, k: nat)
      requires B.AllWf(bs) && k < |bs|
      ensures |B.Flat(bs, [k])| == B.Count(bs[k])
    {
      assert [k][1..] == [];
    }

    /** With the producer at rest the blocks after the tail block hold nothing. */
    static lemma AllCounted(s: Q.State<T>)
      requires Q.Inv(s) && Q.Shape(s) && s.prod.PIdle? && B.AllWf(s.blocks) && B.Ids(s.ring, |s.blocks|)
      ensures |B.Flat(s.blocks, s.ring)| == |Q.Queued(s)|
    {
      hide Q.Lifetimes, Q.Capacity, Q.ProducerOk, Q.ConsumerOk, Q.Fifo, B.Flat, Q.Linked, B.Wf;
      var rest := s.ring[s.ti + 1..];
      assert s.ring == s.ring[..s.ti + 1] + rest;
      B.FlatAppend(s.blocks, s.ring[..s.ti + 1], rest);
      forall i | 0 <= i < |rest|
        ensures B.Count(s.blocks[rest[i]]) == 0
      {
        assert rest[i] == s.ring[s.ti + 1 + i];
      }
      FlatNone(s.blocks, rest);
    }

    static lemma {:induction false} FlatNone(bs: seq<B.Block<T>>, ids: seq<nat>)
      requires B.AllWf(bs) && B.Ids(ids, |bs|) && forall i :: 0 <= i < |ids| ==> B.Count(bs[ids[i]]) == 0
      ensures B.Flat(bs, ids) == []
    {
      if ids != [] {
        FlatNone(bs, ids[1..]);
      }
    }

    /** Follows the circle once from the front block and adds up what each block holds,
        in 64-bit arithmetic. */
    method SizeApprox() returns (result: nat)
      requires Valid()
      ensures result == |Contents()| % WORD
    {
      hide Q.Inv, Q.Shape, Q.Queued, IsPow2, B.Wf, B.Flat, Q.Circle, B.AllWf, B.Count, BitAnd, B.Dist, Sized;
      Circular(st);
      result := 0;
      var frontBlock_ := frontBlock;
      var block := frontBlock_;
      ghost var i: nat := 0;
      var more := true;
      while more
        invariant i <= |st.ring| && more == (i == 0 || i < |st.ring|)
        invariant block == blocks[st.ring[if i == |st.ring| then 0 else i]]
        invariant result == |B.Flat(st.blocks, st.ring[..i])| % WORD
        decreases |st.ring| - i
      {
        var blockFront := block.front;
        var blockTail := block.tail;
        result := (result + BitAnd((blockTail + WORD - blockFront) % WORD, block.sizeMask)) % WORD;
        Counted(st, i);
        assert LinkMirrored(st.ring[i]);
        block := block.next;
        i := i + 1;
        more := block != frontBlock_;
      }
      assert st.ring[..i] == st.ring;
      AllCounted(st);
    }
  }
}
