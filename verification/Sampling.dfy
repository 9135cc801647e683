/** The driver's synchronous sampling: it reads one block and cuts it into overlapping
    segments. */
module Sampling {
  import opened Bits
  import Averaging

  type Byte = b: nat | b < 256

  const BULK_TRANSFER_MULTIPLE: nat := 512
  const UINT: nat := 0x1_0000_0000   // values of unsigned int

  /** A sample: its two bytes. */
  datatype IQ = IQ(i: Byte, q: Byte)

  /** A segment; `id` stands for the identity of the object, how many there were before. */
  datatype Segment = Segment(id: nat, centerFreq: nat, samples: seq<IQ>)

  /** The overlap that the context accepts for segments of `n` samples. */
  function SetSoverlap(soverlap: nat, n: nat): (s: nat)
    requires n >= 1
    ensures s < n && if soverlap < n then s == soverlap else 2 * s <= n < 2 * s + 2
  {
    if soverlap > n - 1 then n / 2 else soverlap
  }

  /** How many samples `a` segments of `n` cover if neighbours share `s`. */
  function Covered(n: nat, s: nat, a: nat): nat
    requires s < n
  {
    (n - s) * a + s
  }

  /** The sample at position `k` of the block. */
  function At(block: seq<Byte>, k: nat): IQ
    requires 2 * k + 1 < |block|
  {
    IQ(block[2 * k], block[2 * k + 1])
  }

  lemma Reach(n: nat, s: nat, a: nat, i: nat, j: nat)
    requires s < n && i < a && j < n
    ensures i * (n - s) + j < Covered(n, s, a)
  {
    MulMono(i + 1, a, n - s);
    assert (i + 1) * (n - s) == i * (n - s) + (n - s);
  }

  /** Sample `j` of segment `i`. */
  function SampleOf(block: seq<Byte>, n: nat, s: nat, a: nat, i: nat, j: nat): IQ
    requires s < n && 2 * Covered(n, s, a) <= |block| && i < a && j < n
  {
    Reach(n, s, a, i, j);
    At(block, i * (n - s) + j)
  }

  ghost predicate IsSegment(block: seq<Byte>, n: nat, s: nat, a: nat, centerFreq: nat, i: nat, x: Segment)
    requires s < n && 2 * Covered(n, s, a) <= |block| && i < a
  {
    && x.centerFreq == centerFreq && |x.samples| == n
    && forall j :: 0 <= j < n ==> x.samples[j] == SampleOf(block, n, s, a, i, j)
  }

  /** What a pass over a block should give: at the end `a` segments. */
  ghost predicate Cut(block: seq<Byte>, n: nat, s: nat, a: nat, centerFreq: nat, out: seq<Segment>)
    requires s < n && 2 * Covered(n, s, a) <= |block|
  {
    |out| <= a && forall i :: 0 <= i < |out| ==> IsSegment(block, n, s, a, centerFreq, i, out[i])
  }

  /** Neighbouring segments share exactly the last `s` samples of the one and the first of
      the other: they are the same positions of the block. */
  lemma NeighboursOverlap(block: seq<Byte>, n: nat, s: nat, a: nat, centerFreq: nat, out: seq<Segment>, i: nat)
    requires s < n && 2 * Covered(n, s, a) <= |block| && Cut(block, n, s, a, centerFreq, out) && i + 1 < |out|
    ensures |out[i].samples| == |out[i + 1].samples| == n
    ensures out[i].samples[n - s..] == out[i + 1].samples[..s]
    ensures (i + 1) * (n - s) == i * (n - s) + (n - s)
  {
    assert IsSegment(block, n, s, a, centerFreq, i, out[i]);
    assert IsSegment(block, n, s, a, centerFreq, i + 1, out[i + 1]);
    var x, y := out[i].samples[n - s..], out[i + 1].samples[..s];
    forall j | 0 <= j < s
      ensures x[j] == y[j]
    {
      assert (i + 1) * (n - s) + j == i * (n - s) + (n - s + j);
      assert x[j] == SampleOf(block, n, s, a, i, n - s + j);
      assert y[j] == SampleOf(block, n, s, a, i + 1, j);
    }
  }

  /** Every covered position is in some segment. */
  lemma EverySampleIsCut(n: nat, s: nat, a: nat, k: nat) returns (i: nat, j: nat)
    requires s < n && a >= 1 && k < Covered(n, s, a)
    ensures i < a && j < n && k == i * (n - s) + j
  {
    var step: nat := n - s;
    if k < step * a {
      DivMod(k, step);
      i, j := k / step, k % step;
      MulCancel(i, a, step);
    } else {
      i := a - 1;
      assert i * step + step == step * a;
      j := k - i * step;
    }
  }

  /** The length of a transfer. */
  function TransferSize(need: nat): nat {
    (need + 511) / 512 * 512
  }

  /** It is the least multiple of the transfer unit that is large enough. */
  lemma TransferSizeIsLeast(need: nat, size: nat)
    ensures TransferSize(need) % BULK_TRANSFER_MULTIPLE == 0 && TransferSize(need) >= need
    ensures size % BULK_TRANSFER_MULTIPLE == 0 && size >= need ==> size >= TransferSize(need)
  {
  }

  /** What the conversion does to the bytes that were read. */
  function Inverted(data: seq<Byte>, mustInvert: bool): (r: seq<Byte>)
    ensures |r| == |data|
  {
    seq(|data|, i requires 0 <= i < |data| => if mustInvert && i % 2 == 0 then 255 - data[i] else data[i])
  }

  /** Of every sample the I byte is mirrored and the Q byte kept; doing it twice undoes it. */
  lemma InvertedMirrors(data: seq<Byte>, k: nat)
    requires 2 * k + 1 < |data|
    ensures Inverted(data, true)[2 * k] + data[2 * k] == 255 && Inverted(data, true)[2 * k + 1] == data[2 * k + 1]
    ensures Inverted(data, false) == data && Inverted(Inverted(data, true), true) == data
  {
    var once := Inverted(data, true);
    assert forall i :: 0 <= i < |data| ==> Inverted(once, true)[i] == data[i];
  }

  // ---- The segments are the block ------------------------------------------------

  /** What the segments show of the block, one after the other: the whole first one, and of
      the others what the one before did not have. */
  function NewParts(out: seq<Segment>, s: nat): seq<IQ>
    requires forall i :: 0 <= i < |out| ==> s <= |out[i].samples|
  {
    if |out| <= 1 then (if out == [] then [] else out[0].samples)
    else NewParts(out[..|out| - 1], s) + out[|out| - 1].samples[s..]
  }

  /** It is the covered block, from its first byte on: I and Q bytes in turn. */
  lemma {:induction false} SegmentsAreTheBlock(block: seq<Byte>, n: nat, s: nat, a: nat, centerFreq: nat,
                                               out: seq<Segment>)
    requires s < n && 2 * Covered(n, s, a) <= |block| && Cut(block, n, s, a, centerFreq, out) && out != []
    ensures forall i :: 0 <= i < |out| ==> s <= |out[i].samples|
    ensures var parts := NewParts(out, s);
            && |parts| == Covered(n, s, |out|) && 2 * |parts| <= |block|
            && forall k :: 0 <= k < |parts| ==> parts[k].i == block[2 * k] && parts[k].q == block[2 * k + 1]
    decreases |out|
  {
    hide Covered, IsSegment, SampleOf;
    forall i | 0 <= i < |out|
      ensures s <= |out[i].samples|
    {
      var at := SegmentReads(block, n, s, a, centerFreq, i, out[i]);
    }
    CoveredSteps(n, s, |out|, a);
    var last: nat := |out| - 1;
    var at := SegmentReads(block, n, s, a, centerFreq, last, out[last]);
    if last > 0 {
      SegmentsAreTheBlock(block, n, s, a, centerFreq, out[..last]);
      CoveredSteps(n, s, last, a);
      var before, parts := NewParts(out[..last], s), NewParts(out, s);
      assert |before| == last * (n - s) + s;
      forall k | |before| <= k < |parts|
        ensures parts[k].i == block[2 * k] && parts[k].q == block[2 * k + 1]
      {
        assert parts[k] == out[last].samples[s + (k - |before|)];
      }
    }
  }

  /** Sample `j` of segment `i` is the one at position i * (n - s) + j of the block. */
  lemma SegmentReads(block: seq<Byte>, n: nat, s: nat, a: nat, centerFreq: nat, i: nat, x: Segment)
    returns (at: nat)
    requires s < n && 2 * Covered(n, s, a) <= |block| && i < a && IsSegment(block, n, s, a, centerFreq, i, x)
    ensures |x.samples| == n && at == i * (n - s) && 2 * (at + n) <= |block|
    ensures forall j :: 0 <= j < n ==>
              x.samples[j].i == block[2 * (at + j)] && x.samples[j].q == block[2 * (at + j) + 1]
  {
    hide Covered, SampleOf;
    Reach(n, s, a, i, n - 1);
    at := i * (n - s);
    forall j | 0 <= j < n
      ensures x.samples[j].i == block[2 * (at + j)] && x.samples[j].q == block[2 * (at + j) + 1]
    {
      SampleBytes(block, n, s, a, i, j, at);
    }
  }

  lemma SampleBytes(block: seq<Byte>, n: nat, s: nat, a: nat, i: nat, j: nat, at: nat)
    requires s < n && 2 * Covered(n, s, a) <= |block| && i < a && j < n && at == i * (n - s) && 2 * (at + n) <= |block|
    ensures SampleOf(block, n, s, a, i, j) == IQ(block[2 * (at + j)], block[2 * (at + j) + 1])
  {
    hide Covered;
  }

  lemma CoveredSteps(n: nat, s: nat, k: nat, a: nat)
    requires s < n && 1 <= k <= a
    ensures Covered(n, s, k) == k * (n - s) + s <= Covered(n, s, a)
    ensures Covered(n, s, k) == (k - 1) * (n - s) + n
  {
    MulMono(k, a, n - s);
    assert k * (n - s) == (k - 1) * (n - s) + (n - s);
  }

  ghost predicate OneFrequency(s: seq<Segment>) {
    forall i, j :: 0 <= i < j < |s| ==> s[i].centerFreq == s[j].centerFreq
  }

  lemma CutHasOneFrequency(block: seq<Byte>, n: nat, s: nat, a: nat, centerFreq: nat, out: seq<Segment>)
    requires s < n && 2 * Covered(n, s, a) <= |block| && Cut(block, n, s, a, centerFreq, out)
    ensures OneFrequency(out)
  {
  }

  lemma {:induction false} FlattenAppend(gs: seq<seq<Segment>>, g: seq<Segment>)
    ensures Averaging.Flatten(gs + [g]) == Averaging.Flatten(gs) + g
  {
    if gs == [] {
      assert (gs + [g])[1..] == [];
    } else {
      assert (gs + [g])[1..] == gs[1..] + [g];
      FlattenAppend(gs[1..], g);
    }
  }

  class Sampler {
    const soverlap: nat
    const avgFactor: nat
    var fft_size: nat
    var slen: nat
    var iq_buf: array?<Byte>
    var mRunning: bool
    var queueOut: seq<Segment>
    ghost var passes: seq<seq<Segment>>

    /** The block fits what the segments of `fft_size` samples cover, and what was enqueued
        are whole passes of segments of one frequency each. */
    ghost predicate Valid()
      reads this
    {
      && BufferFits() && queueOut == Averaging.Flatten(passes)
      && (forall i :: 0 <= i < |passes| ==> |passes[i]| == avgFactor && OneFrequency(passes[i]))
      && forall i :: 0 <= i < |queueOut| ==> queueOut[i].id == i
    }

    ghost predicate BufferFits()
      reads this`fft_size, this`slen, this`iq_buf
    {
      (fft_size == 0 && slen == 0 && iq_buf == null) ||
      (soverlap < fft_size && iq_buf != null && iq_buf.Length == slen &&
       slen == TransferSize(2 * Covered(fft_size, soverlap, avgFactor)))
    }

    constructor (soverlap: nat, avgFactor: nat)
      ensures Valid() && fft_size == 0 && queueOut == [] && passes == [] && mRunning
      ensures this.soverlap == soverlap && this.avgFactor == avgFactor
    {
      this.soverlap, this.avgFactor := soverlap, avgFactor;
      fft_size, slen, iq_buf, queueOut, mRunning := 0, 0, null, [], true;
      passes := [];
    }

    /** The part of the loop that makes the buffer when the segment size has changed. */
    method Resize(current_fft_size: nat)
      requires BufferFits() && soverlap < current_fft_size
      requires 2 * Covered(current_fft_size, soverlap, avgFactor) + BULK_TRANSFER_MULTIPLE <= UINT
      modifies this`fft_size, this`slen, this`iq_buf
      ensures BufferFits() && fft_size == current_fft_size && iq_buf != null
      ensures iq_buf == old(iq_buf) || fresh(iq_buf)
    {
      if fft_size != current_fft_size {
        fft_size := current_fft_size;
        hide Covered;
        RoundedUp(2 * Covered(current_fft_size, soverlap, avgFactor));
        slen := ScaledLength(current_fft_size);
        if slen % BULK_TRANSFER_MULTIPLE != 0 {
          slen := slen + (BULK_TRANSFER_MULTIPLE - slen % BULK_TRANSFER_MULTIPLE);
        }
        iq_buf := new Byte[slen];
      }
    }

    /** The bytes of the samples that are needed, in 32-bit arithmetic. */
    function ScaledLength(n: nat): (len: nat)
      requires soverlap < n && 2 * Covered(n, soverlap, avgFactor) < UINT
      ensures len == 2 * Covered(n, soverlap, avgFactor)
    {
      (((n - soverlap) * avgFactor + soverlap) * 2) % UINT
    }

    static lemma RoundedUp(x: nat)
      ensures TransferSize(x) == if x % BULK_TRANSFER_MULTIPLE == 0 then x
                                 else x + (BULK_TRANSFER_MULTIPLE - x % BULK_TRANSFER_MULTIPLE)
    {
    }

    /** What a read of `n_read` bytes leaves in the buffer, and the inversion after it. */
    method Read(data: seq<Byte>, mustInvert: bool)
      requires BufferFits() && iq_buf != null && |data| <= slen
      modifies this`mRunning, iq_buf
      ensures iq_buf[..|data|] == Inverted(data, mustInvert) && iq_buf[|data|..] == old(iq_buf[|data|..])
      ensures mRunning == (old(mRunning) && |data| == slen)
    {
      var n_read := |data|;
      forall i | 0 <= i < n_read {
        iq_buf[i] := data[i];
      }
      if n_read != slen {
        mRunning := false;
      }
      if mustInvert {
        Invert(n_read);
      }
    }

    /** The loop that inverts the I bytes. */
    method Invert(n_read: nat)
      requires iq_buf != null && n_read <= iq_buf.Length
      modifies iq_buf
      ensures iq_buf[..n_read] == Inverted(old(iq_buf[..n_read]), true)
      ensures iq_buf[n_read..] == old(iq_buf[n_read..])
    {
      var i := 0;
      while i < n_read
        invariant 0 <= i <= n_read + 1 && i % 2 == 0
        invariant forall k :: 0 <= k < n_read ==>
                    iq_buf[k] == if k < i && k % 2 == 0 then 255 - old(iq_buf[k]) else old(iq_buf[k])
        invariant forall k :: n_read <= k < iq_buf.Length ==> iq_buf[k] == old(iq_buf[k])
      {
        iq_buf[i] := 255 - iq_buf[i];
        i := i + 2;
      }
    }

    /** Segment `i` of the block. */
    method Extract(i: nat, centerFreq: nat, id: nat) returns (x: Segment)
      requires BufferFits() && iq_buf != null && i < avgFactor
      ensures IsSegment(iq_buf[..], fft_size, soverlap, avgFactor, centerFreq, i, x)
      ensures x.id == id
    {
      hide Covered, At;
      ghost var block := iq_buf[..];
      var iq_vector: seq<IQ> := [];
      var j := 0;
      while j < fft_size * 2
        invariant 0 <= j <= fft_size * 2 && j == 2 * |iq_vector|
        invariant forall k :: 0 <= k < |iq_vector| ==>
                    iq_vector[k] == SampleOf(block, fft_size, soverlap, avgFactor, i, k)
      {
        var at: nat := Position(i, j);
        iq_vector := iq_vector + [IQ(iq_buf[at], iq_buf[at + 1])];
        j := j + 2;
      }
      x := Segment(id, centerFreq, iq_vector);
    }

    /** Where sample `j` / 2 of segment `i` starts in the buffer. */
    function Position(i: nat, j: nat): (at: nat)
      requires BufferFits() && iq_buf != null && i < avgFactor && j < fft_size * 2 && j % 2 == 0
      reads this, iq_buf
      ensures at + 1 < iq_buf.Length
      ensures SampleOf(iq_buf[..], fft_size, soverlap, avgFactor, i, j / 2) == IQ(iq_buf[at], iq_buf[at + 1])
    {
      hide Covered;
      Reach(fft_size, soverlap, avgFactor, i, j / 2);
      TwiceBoth(i, fft_size - soverlap, j);
      j + i * (fft_size - soverlap) * 2
    }

    static lemma TwiceBoth(i: nat, m: nat, j: nat)
      requires j % 2 == 0
      ensures j + i * m * 2 == 2 * (i * m + j / 2)
    {
    }

    /** One pass: `data` is what the device delivers. */
    method Pass(current_fft_size: nat, centerFreq: nat, data: seq<Byte>, mustInvert: bool)
      requires Valid() && soverlap < current_fft_size
      requires 2 * Covered(current_fft_size, soverlap, avgFactor) + BULK_TRANSFER_MULTIPLE <= UINT
      requires |data| <= TransferSize(2 * Covered(current_fft_size, soverlap, avgFactor))
      modifies this, iq_buf
      ensures Valid() && fft_size == current_fft_size && iq_buf != null
      ensures |queueOut| == |old(queueOut)| + avgFactor && queueOut[..|old(queueOut)|] == old(queueOut)
      ensures Cut(iq_buf[..], fft_size, soverlap, avgFactor, centerFreq, queueOut[|old(queueOut)|..])
      ensures iq_buf[..|data|] == Inverted(data, mustInvert)
      ensures mRunning == (old(mRunning) && |data| == slen)
      ensures passes == old(passes) + [queueOut[|old(queueOut)|..]]
    {
      hide Covered, IsSegment, Cut, Inverted;
      Resize(current_fft_size);
      Read(data, mustInvert);
      ghost var n := |queueOut|;
      EnqueueSegments(centerFreq);
      CutHasOneFrequency(iq_buf[..], fft_size, soverlap, avgFactor, centerFreq, queueOut[n..]);
      FlattenAppend(passes, queueOut[n..]);
      passes := passes + [queueOut[n..]];
    }

    /** The loop that cuts the block and enqueues the segments. */
    method EnqueueSegments(centerFreq: nat)
      requires BufferFits() && iq_buf != null && forall k :: 0 <= k < |queueOut| ==> queueOut[k].id == k
      modifies this`queueOut
      ensures |queueOut| == |old(queueOut)| + avgFactor && queueOut[..|old(queueOut)|] == old(queueOut)
      ensures forall k :: 0 <= k < |queueOut| ==> queueOut[k].id == k
      ensures Cut(iq_buf[..], fft_size, soverlap, avgFactor, centerFreq, queueOut[|old(queueOut)|..])
    {
      hide Covered, IsSegment;
      ghost var n := |queueOut|;
      assert queueOut[n..] == [];
      for i := 0 to avgFactor
        invariant |queueOut| == n + i && queueOut[..n] == old(queueOut)
        invariant forall k :: 0 <= k < |queueOut| ==> queueOut[k].id == k
        invariant Cut(iq_buf[..], fft_size, soverlap, avgFactor, centerFreq, queueOut[n..])
      {
        var segment := Extract(i, centerFreq, |queueOut|);
        ghost var out := queueOut[n..];
        queueOut := queueOut + [segment];
        assert queueOut[n..] == out + [segment];
      }
    }
  }
}
