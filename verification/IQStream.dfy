/** The I/Q path: every buffer is split into I and Q samples, each goes through its own
    resampler, and the results are woven together again by the count that the I side
    returned. */
module IQStream {
  import opened Bits
  import opened Downsampler
  import CIC
  import FIR
  import RatePlan

  type Byte = b: nat | b < 256

  const BUFFER: nat := 262144   // 256 * 1024

  /** Every other element, from index `from` on. */
  function Every2nd(s: seq<int>, from: nat): (r: seq<int>)
    requires |s| % 2 == 0 && from < 2
    ensures |r| == |s| / 2
  {
    seq(|s| / 2, i requires 0 <= i < |s| / 2 => s[2 * i + from])
  }

  lemma Every2ndConcat(s: seq<int>, t: seq<int>, from: nat)
    requires |s| % 2 == 0 && |t| % 2 == 0 && from < 2
    ensures Every2nd(s + t, from) == Every2nd(s, from) + Every2nd(t, from)
  {
  }

  function Woven(a: seq<Byte>, b: seq<Byte>): (r: seq<Byte>)
    requires |a| == |b|
    ensures |r| == 2 * |a|
  {
    seq(2 * |a|, i requires 0 <= i < 2 * |a| => if i % 2 == 0 then a[i / 2] else b[i / 2])
  }

  lemma WovenConcat(a: seq<Byte>, b: seq<Byte>, c: seq<Byte>, d: seq<Byte>)
    requires |a| == |b| && |c| == |d|
    ensures Woven(a + c, b + d) == Woven(a, b) + Woven(c, d)
  {
  }

  /** Splitting takes the bytes apart just as weaving puts them together. */
  lemma WovenAgain(s: seq<int>, i: seq<Byte>, q: seq<Byte>)
    requires |s| % 2 == 0 && Every2nd(s, 0) == i && Every2nd(s, 1) == q
    ensures Woven(i, q) == s
  {
    forall k | 0 <= k < |s|
      ensures Woven(i, q)[k] == s[k]
    {
      assert k == 2 * (k / 2) + k % 2;
    }
  }

  /** A conversion that leaves the values of bytes as they are. */
  ghost predicate KeepsBytes(convert: real -> Byte) {
    forall x: real :: 0.0 <= x < 256.0 && x.Floor as real == x ==> convert(x) == x.Floor
  }

  class IQStream {
    const ri: Downsampler<Byte>
    const rq: Downsampler<Byte>
    const inputVectorI: array<int>
    const inputVectorQ: array<int>
    const outputVectorI: array<Byte>
    const outputVectorQ: array<Byte>
    const fbuffer: array<Byte>
    ghost var received: seq<int>   // all bytes of all buffers so far

    /** Both resamplers are made from the same plan and the same taps. */
    constructor (p: RatePlan.Plan, cicOrder: nat, taps: seq<real>, convert: real -> Byte)
      requires p.cicR >= 1 && p.cicD == Pow2(p.cicR - 1) && cicOrder <= CIC.MAX_ORDER
      requires CIC.Power(p.cicD, cicOrder) % CIC.WIDTH != 0
      requires 1 <= p.interpolation <= p.decimation && p.interpolation + p.decimation <= FIR.WIDTH
      requires |taps| + |taps| % p.interpolation >= p.interpolation
      ensures Valid() && SameRates() && received == [] && Sent([]) == []
    {
      hide Stream, Downsampler.Valid, Downsampler.OutOf, Downsampler.Shape, Pow2, CIC.Power, FIR.Used;
      ri := new Downsampler<Byte>(p, cicOrder, taps, BUFFER, convert);
      rq := new Downsampler<Byte>(p, cicOrder, taps, BUFFER, convert);
      inputVectorI := new int[BUFFER];
      inputVectorQ := new int[BUFFER];
      outputVectorI := new Byte[BUFFER];
      outputVectorQ := new Byte[BUFFER];
      fbuffer := new Byte[BUFFER];
      received := [];
      new;
      NothingSent();
    }

    lemma NothingSent()
      requires SameRates()
      ensures Sent([]) == []
    {
      hide FIR.CeilDiv;
      CountFrom(ri, []);
      FIR.CeilDivIs(0, ri.rationalFir_.rateD_, 0, 0);
      ModIs(0, ri.cic_.rate_, 0, 0);
    }

    ghost predicate SameRates() {
      && ri.Shape() && rq.Shape()
      && ri.cic_.rate_ == rq.cic_.rate_ && ri.cic_.order_ == rq.cic_.order_
      && ri.rationalFir_.used == rq.rationalFir_.used && ri.rationalFir_.convert == rq.rationalFir_.convert
      && ri.rationalFir_.rateI_ == rq.rationalFir_.rateI_ <= rq.rationalFir_.rateD_ == ri.rationalFir_.rateD_
    }

    ghost predicate Buffers() {
      && inputVectorI.Length == inputVectorQ.Length == BUFFER && inputVectorI != inputVectorQ
      && outputVectorI.Length == outputVectorQ.Length == fbuffer.Length == BUFFER
      && ri.samplesCIC_.Length == rq.samplesCIC_.Length == BUFFER
      && outputVectorI != outputVectorQ && fbuffer != outputVectorI && fbuffer != outputVectorQ
      && ri in ri.Repr && rq in rq.Repr && ri.Repr !! rq.Repr && this !in ri.Repr + rq.Repr
      && inputVectorI !in ri.Repr + rq.Repr && inputVectorQ !in ri.Repr + rq.Repr
      && outputVectorI !in ri.Repr + rq.Repr && outputVectorQ !in ri.Repr + rq.Repr
      && fbuffer !in ri.Repr + rq.Repr
    }

    ghost predicate Valid()
      reads this, ri.Repr, rq.Repr
    {
      && Buffers() && SameRates() && ri.Valid() && rq.Valid()
      && |received| % 2 == 0 && ri.history == Every2nd(received, 0) && rq.history == Every2nd(received, 1)
    }

    /** All that should have been sent after the bytes `r`: equally much from both sides. */
    ghost function Sent(r: seq<int>): seq<Byte>
      requires SameRates() && |r| % 2 == 0
    {
      Lockstep(Every2nd(r, 0), Every2nd(r, 1));
      Woven(ri.OutOf(Every2nd(r, 0)), rq.OutOf(Every2nd(r, 1)))
    }

    /** With rates of 1, a single tap of 1 and a conversion that keeps bytes as they are,
        everything is sent as it was received: no side is taken for the other. */
    lemma PassesThrough(r: seq<int>)
      requires SameRates() && |r| % 2 == 0 && (forall k :: 0 <= k < |r| ==> 0 <= r[k] < 256)
      requires ri.cic_.rate_ == 1 && ri.rationalFir_.used == [1.0]
      requires ri.rationalFir_.rateI_ == ri.rationalFir_.rateD_ == 1
      requires KeepsBytes(ri.rationalFir_.convert)
      ensures Sent(r) == r
    {
      hide Stream, Woven, CIC.Power, KeepsBytes;
      Passed(ri, Every2nd(r, 0));
      Passed(rq, Every2nd(r, 1));
      WovenAgain(r, ri.OutOf(Every2nd(r, 0)), rq.OutOf(Every2nd(r, 1)));
    }

    static lemma Passed(d: Downsampler<Byte>, h: seq<int>)
      requires d.Shape() && d.cic_.rate_ == 1 && d.rationalFir_.used == [1.0]
      requires d.rationalFir_.rateI_ == d.rationalFir_.rateD_ == 1
      requires (forall k :: 0 <= k < |h| ==> 0 <= h[k] < 256) && KeepsBytes(d.rationalFir_.convert)
      ensures d.OutOf(h) == h
    {
      hide Stream, CIC.Power;
      StreamPassesThrough(h, d.cic_.order_, d.rationalFir_.convert);
      var s := d.OutOf(h);
      forall k | 0 <= k < |h|
        ensures s[k] == h[k]
      {
        assert s[k] == d.rationalFir_.convert(h[k] as real) && (h[k] as real).Floor == h[k];
      }
    }

    /** CountOf, for a resampler. */
    static lemma CountFrom(d: Downsampler<Byte>, h: seq<int>)
      requires d.Shape()
      ensures |d.OutOf(h)| == FIR.CeilDiv(|h| / d.cic_.rate_ * d.rationalFir_.rateI_, d.rationalFir_.rateD_)
    {
      hide Stream, FIR.CeilDiv;
      var fir := d.rationalFir_;
      CountOf(h, d.cic_.rate_, d.cic_.order_, fir.used, fir.rateI_, fir.rateD_, fir.convert);
    }

    /** Equally configured resamplers that were given equally much return equally much. */
    lemma Lockstep(a: seq<int>, b: seq<int>)
      requires SameRates() && |a| == |b|
      ensures |ri.OutOf(a)| == |rq.OutOf(b)|
    {
      hide Stream, FIR.CeilDiv;
      CountFrom(ri, a);
      CountFrom(rq, b);
    }

    /** The loop that splits the buffer. */
    method Split(sbuffer: seq<int>)
      requires Buffers() && |sbuffer| % 2 == 0 && |sbuffer| <= BUFFER
      modifies inputVectorI, inputVectorQ
      ensures inputVectorI[..|sbuffer| / 2] == Every2nd(sbuffer, 0)
      ensures inputVectorQ[..|sbuffer| / 2] == Every2nd(sbuffer, 1)
    {
      var i := 0;
      while i < |sbuffer|
        invariant 0 <= i <= |sbuffer| && i % 2 == 0
        invariant forall k :: 0 <= k < i / 2 ==> inputVectorI[k] == sbuffer[2 * k]
        invariant forall k :: 0 <= k < i / 2 ==> inputVectorQ[k] == sbuffer[2 * k + 1]
      {
        inputVectorI[i / 2] := sbuffer[i];
        inputVectorQ[i / 2] := sbuffer[i + 1];
        i := i + 2;
      }
    }

    /** The loop that weaves the results together. */
    method Weave(outputSamples: nat)
      requires Buffers() && 2 * outputSamples <= BUFFER
      modifies fbuffer
      ensures fbuffer[..2 * outputSamples] == Woven(outputVectorI[..outputSamples], outputVectorQ[..outputSamples])
    {
      for i := 0 to outputSamples
        invariant forall k :: 0 <= k < i ==> fbuffer[2 * k] == outputVectorI[k]
        invariant forall k :: 0 <= k < i ==> fbuffer[2 * k + 1] == outputVectorQ[k]
      {
        fbuffer[2 * i] := outputVectorI[i];
        fbuffer[2 * i + 1] := outputVectorQ[i];
      }
      ghost var w := Woven(outputVectorI[..outputSamples], outputVectorQ[..outputSamples]);
      forall i | 0 <= i < 2 * outputSamples
        ensures fbuffer[i] == w[i]
      {
        assert i == 2 * (i / 2) + i % 2;
      }
    }

    /** There is room for what comes out of one buffer. */
    static lemma Fits(d: Downsampler<Byte>, h: seq<int>, x: seq<int>)
      requires d.Shape() && 1 <= d.rationalFir_.rateI_ <= d.rationalFir_.rateD_
      ensures |d.OutOf(h)| <= |d.OutOf(h + x)| <= |d.OutOf(h)| + |x|
    {
      hide Stream, FIR.CeilDiv;
      CountFrom(d, h);
      CountFrom(d, h + x);
      NoMoreThanIn(|h|, |x|, d.cic_.rate_, d.rationalFir_.rateI_, d.rationalFir_.rateD_);
    }

    /** Resamples one buffer into `fbuffer`; what was sent before and this together are the
        two resampled streams, woven. */
    method Process(sbuffer: seq<int>) returns (count: nat)
      requires Valid() && SameRates() && |sbuffer| % 2 == 0 && |sbuffer| <= BUFFER
      modifies this, ri.Repr, rq.Repr, inputVectorI, inputVectorQ, outputVectorI, outputVectorQ, fbuffer
      ensures Valid() && received == old(received) + sbuffer && count <= fbuffer.Length
      ensures Sent(received) == Sent(old(received)) + fbuffer[..count]
    {
      hide Stream, Downsampler.Valid, Downsampler.Shape, Downsampler.OutOf, FIR.CeilDiv, Every2nd, Woven;
      Split(sbuffer);
      ghost var i, q := Every2nd(sbuffer, 0), Every2nd(sbuffer, 1);
      SidesFit(ri.history, i);
      SidesFit(rq.history, q);
      Every2ndConcat(received, sbuffer, 0);
      Every2ndConcat(received, sbuffer, 1);
      Lockstep(ri.history, rq.history);
      Lockstep(ri.history + i, rq.history + q);
      var outputSamples := ri.Filter(inputVectorI[..|sbuffer| / 2], outputVectorI);
      var outputSamplesQ := rq.Filter(inputVectorQ[..|sbuffer| / 2], outputVectorQ);
      received := received + sbuffer;
      Weave(outputSamples);
      count := 2 * outputSamples;
      WovenConcat(ri.OutOf(old(ri.history)), rq.OutOf(old(rq.history)),
                  outputVectorI[..outputSamples], outputVectorQ[..outputSamples]);
    }

    lemma SidesFit(h: seq<int>, x: seq<int>)
      requires SameRates()
      ensures |ri.OutOf(h + x)| <= |ri.OutOf(h)| + |x| && |rq.OutOf(h + x)| <= |rq.OutOf(h)| + |x|
    {
      Fits(ri, h, x);
      Fits(rq, h, x);
    }
  }
}
