/** The resampler in its rational mode: a decimator, a division by its growth, and a
    rational filter. Samples after the decimator are exact reals. */
module Downsampler {
  import opened Bits
  import CIC
  import FIR
  import RatePlan

  // ---- Reference ---------------------------------------------------------------

  /** What reaches the second stage after the samples `h`; a decimation rate of 1 means
      that the first stage is left out. */
  function FirInput(h: seq<int>, cicD: nat, order: nat): seq<real>
    requires cicD >= 1 && CIC.Power(cicD, order) % CIC.WIDTH != 0
  {
    if cicD == 1 then seq(|h|, i requires 0 <= i < |h| => h[i] as real)
    else
      var growth := CIC.Power(cicD, order) % CIC.WIDTH;
      var s := CIC.Stream(h, cicD, order);
      seq(|s|, i requires 0 <= i < |s| => s[i] / growth as real)
  }

  /** Everything that has come out after the samples `h`. */
  function Stream<Out>(h: seq<int>, cicD: nat, order: nat, taps: seq<real>, l: nat, d: nat,
      convert: real -> Out): seq<Out>
    requires cicD >= 1 && CIC.Power(cicD, order) % CIC.WIDTH != 0 && l >= 1 && d >= 1
  {
    FIR.Stream(taps, FirInput(h, cicD, order), l, d, convert)
  }

  /** How much comes out depends on how much went in only. */
  lemma CountOf<Out>(h: seq<int>, cicD: nat, order: nat, taps: seq<real>, l: nat, d: nat, convert: real -> Out)
    requires cicD >= 1 && CIC.Power(cicD, order) % CIC.WIDTH != 0 && l >= 1 && d >= 1
    ensures |Stream(h, cicD, order, taps, l, d, convert)| == FIR.CeilDiv(|h| / cicD * l, d)
  {
    hide FIR.CeilDiv, CIC.Power, CIC.Smooth;
    if cicD == 1 {
      ModIs(|h|, 1, |h|, 0);
    }
  }

  /** If the fraction is at most one, no more comes out than goes in. */
  lemma NoMoreThanIn(n: nat, k: nat, cicD: nat, l: nat, d: nat)
    requires cicD >= 1 && 1 <= l <= d
    ensures FIR.CeilDiv(n / cicD * l, d) <= FIR.CeilDiv((n + k) / cicD * l, d) <= FIR.CeilDiv(n / cicD * l, d) + k
  {
    hide FIR.CeilDiv;
    var a, b := n / cicD, (n + k) / cicD;
    QuotientGrows(n, k, cicD);
    MulMono(a, b, l);
    FIR.CeilDivMonotone(a * l, b * l, d);
    FractionGrows(a, b - a, l, d);
  }

  lemma QuotientGrows(n: nat, k: nat, d: nat)
    requires d >= 1
    ensures n / d <= (n + k) / d <= n / d + k
  {
    DivMod(n, d);
    DivMod(n + k, d);
    MulCancel(n / d, (n + k) / d + 1, d);
    MulMono(1, d, k);
    assert (n / d + k + 1) * d == n / d * d + k * d + d;
    MulCancel((n + k) / d, n / d + k + 1, d);
  }

  lemma FractionGrows(a: nat, k: nat, l: nat, d: nat)
    requires 1 <= l <= d
    ensures FIR.CeilDiv((a + k) * l, d) <= FIR.CeilDiv(a * l, d) + k
  {
    var x, y := a * l + d - 1, (a + k) * l + d - 1;
    MulMono(l, d, k);
    assert y == x + k * l && k * l <= k * d;
    DivMod(x, d);
    DivMod(y, d);
    assert (x / d + k + 1) * d == x / d * d + k * d + d;
    MulCancel(y / d, x / d + k + 1, d);
  }

  /** When the decimator loses nothing, the samples after it are within the range of those
      before it. */
  lemma FirInputWithin(h: seq<int>, cicD: nat, order: nat, top: nat)
    requires cicD >= 1 && CIC.Within(h, top) && top * CIC.Power(cicD, order) < CIC.WIDTH
    requires CIC.Power(cicD, order) < CIC.WIDTH && CIC.Power(cicD, order) % CIC.WIDTH != 0
    ensures forall i :: 0 <= i < |FirInput(h, cicD, order)| ==> 0.0 <= FirInput(h, cicD, order)[i] <= top as real
  {
    hide CIC.Smooth, CIC.Power, CIC.Output;
    var f := FirInput(h, cicD, order);
    forall i | 0 <= i < |f|
      ensures 0.0 <= f[i] <= top as real
    {
      if cicD > 1 {
        OutputWithin(h, cicD, order, i, top);
        QuotientWithin(CIC.Output(h, cicD, order, i), CIC.Power(cicD, order), top);
      }
    }
  }

  /** When the decimator loses nothing, what reaches the second stage is the moving average
      of the input: the moving sums, divided by the growth. */
  lemma FirInputIsAverage(h: seq<int>, cicD: nat, order: nat, top: nat, i: nat)
    requires cicD > 1 && CIC.Within(h, top) && top * CIC.Power(cicD, order) < CIC.WIDTH
    requires 0 < CIC.Power(cicD, order) < CIC.WIDTH && i < |FirInput(h, cicD, order)|
    ensures FirInput(h, cicD, order)[i] * CIC.Power(cicD, order) as real == CIC.Decimated(h, cicD, order, i) as real
  {
    hide CIC.Smooth, CIC.Power, CIC.Stream, CIC.Decimated;
    CIC.OutputIsExact(h, cicD, order, top, i);
  }

  /** A steady level reaches the second stage unchanged, once the decimator has filled. */
  lemma SteadyLevelPasses(h: seq<int>, cicD: nat, order: nat, level: nat, i: nat)
    requires cicD >= 1 && level * CIC.Power(cicD, order) < CIC.WIDTH && 0 < CIC.Power(cicD, order) < CIC.WIDTH
    requires i < |FirInput(h, cicD, order)| && order * (cicD - 1) < (i + 1) * cicD
    requires forall k :: 0 <= k < |h| ==> h[k] == level
    ensures FirInput(h, cicD, order)[i] == level as real
  {
    hide CIC.Smooth, CIC.Power, CIC.Stream;
    if cicD > 1 {
      CIC.SteadyOutput(h, cicD, order, level, i);
      QuotientOfProduct(level, CIC.Power(cicD, order));
    }
  }

  lemma QuotientOfProduct(level: nat, g: nat)
    requires g > 0
    ensures (level * g) as real / g as real == level as real
  {
    var q, t, n := (level * g) as real / g as real, level as real, g as real;
    assert q * n == t * n;
    SameFactor(q, t, n, q * n);
  }

  lemma SameFactor(a: real, b: real, n: real, c: real)
    requires n > 0.0 && c == a * n && c == b * n
    ensures a == b
  {
    assert (a - b) * n == 0.0;
  }

  /** With rates of 1 and a single tap of 1 everything comes out as it went in. */
  lemma StreamPassesThrough<Out>(h: seq<int>, order: nat, convert: real -> Out)
    requires CIC.Power(1, order) % CIC.WIDTH != 0
    ensures |Stream(h, 1, order, [1.0], 1, 1, convert)| == |h|
    ensures forall i :: 0 <= i < |h| ==> Stream(h, 1, order, [1.0], 1, 1, convert)[i] == convert(h[i] as real)
  {
    hide CIC.Power;
    FIR.PassesThrough(FirInput(h, 1, order), convert);
  }

  lemma OutputWithin(h: seq<int>, cicD: nat, order: nat, m: nat, top: nat)
    requires CIC.Within(h, top) && top * CIC.Power(cicD, order) < CIC.WIDTH
    ensures 0.0 <= CIC.Output(h, cicD, order, m) <= (top * CIC.Power(cicD, order)) as real
  {
    hide CIC.Smooth, CIC.Power;
    CIC.SmoothBound(h, cicD, order, (m + 1) * cicD - 1, top);
  }

  lemma QuotientWithin(y: real, g: nat, top: nat)
    requires g > 0 && 0.0 <= y <= (top * g) as real
    ensures 0.0 <= y / g as real <= top as real
  {
    var q, t, n := y / g as real, top as real, g as real;
    assert q * n == y && (top * g) as real == t * n;
    RatePlan.DividedLess(y, n, 0.0);
  }

  // ---- The resampler -----------------------------------------------------------

  /** `convert` is the conversion of a filtered sample to an output. */
  class Downsampler<Out> {
    const cicR_: nat
    const cic_: CIC.CIC
    const rationalFir_: FIR.RationalFIR<Out>
    const samplesCIC_: array<real>
    ghost const Repr: set<object>  // what filtering changes
    ghost var history: seq<int>    // all samples filtered so far

    ghost predicate Shape() {
      && Repr == {this, cic_, rationalFir_, samplesCIC_, rationalFir_.delayLine_} +
                 (set i | i in cic_.int_) + (set c | c in cic_.comb_)
      && cic_.Shape() && rationalFir_.Shape() && cicR_ >= 1 && (cicR_ == 1 <==> cic_.rate_ == 1)
      && cic_.gain_ == CIC.Power(cic_.rate_, cic_.order_) % CIC.WIDTH != 0
      && samplesCIC_ != rationalFir_.delayLine_
    }

    /** The samples that the second stage has seen. */
    ghost function Passed(): seq<real>
      requires Shape()
      reads this
    {
      FirInput(history, cic_.rate_, cic_.order_)
    }

    ghost predicate Valid()
      reads this, Repr
    {
      && Shape() && cic_.Valid() && rationalFir_.Valid()
      && cic_.history == (if cicR_ != 1 then history else []) && rationalFir_.history == Passed()
    }

    /** Everything that comes out for the samples `h`. */
    ghost function OutOf(h: seq<int>): seq<Out>
      requires Shape()
    {
      Stream(h, cic_.rate_, cic_.order_, rationalFir_.used, rationalFir_.rateI_, rationalFir_.rateD_,
          rationalFir_.convert)
    }

    /** `taps` come out of the filter design for the planned rates. */
    constructor (p: RatePlan.Plan, cicOrder: nat, taps: seq<real>, maxBlockLength: nat, convert: real -> Out)
      requires p.cicR >= 1 && p.cicD == Pow2(p.cicR - 1) && cicOrder <= CIC.MAX_ORDER
      requires CIC.Power(p.cicD, cicOrder) % CIC.WIDTH != 0
      requires p.interpolation >= 1 && p.decimation >= 1 && p.interpolation + p.decimation <= FIR.WIDTH
      requires |taps| + |taps| % p.interpolation >= p.interpolation
      ensures Valid() && Shape() && history == [] && samplesCIC_.Length == maxBlockLength && fresh(Repr) && this in Repr
      ensures cic_.rate_ == p.cicD && cic_.order_ == if p.cicR == 1 then 0 else cicOrder
      ensures rationalFir_.rateI_ == p.interpolation && rationalFir_.rateD_ == p.decimation
      ensures rationalFir_.used == FIR.Used(taps, p.interpolation) && rationalFir_.convert == convert
    {
      hide Pow2, CIC.Power, FIR.Used;
      PowZero();
      Pow2Above(p.cicR);
      cicR_ := p.cicR;
      var order := if p.cicR == 1 then 0 else cicOrder;
      PowerNone(p.cicD);
      var cic := new CIC.CIC(order, p.cicD);
      var fir := new FIR.RationalFIR<Out>(taps, p.interpolation, p.decimation, convert);
      cic_, rationalFir_ := cic, fir;
      samplesCIC_ := new real[maxBlockLength];
      history := [];
      Repr := {this, cic, fir, samplesCIC_, fir.delayLine_} + (set i | i in cic.int_) + (set c | c in cic.comb_);
      new;
      NothingIn(p.cicD, order);
    }

    static lemma Pow2Above(cicR: nat)
      requires cicR >= 1
      ensures Pow2(cicR - 1) == 1 <==> cicR == 1
    {
      if cicR > 1 {
        Pow2Monotone(1, cicR - 1);
      }
    }

    static lemma PowerNone(n: nat)
      ensures CIC.Power(n, 0) % CIC.WIDTH == 1
    {
    }

    static lemma NothingIn(cicD: nat, order: nat)
      requires cicD >= 1 && CIC.Power(cicD, order) % CIC.WIDTH != 0
      ensures FirInput([], cicD, order) == []
    {
      hide CIC.Power, CIC.Output;
      ModIs(0, cicD, 0, 0);
    }

    /** Fills samplesCIC_ with what the second stage gets. */
    method RunCic(samplesIn: seq<int>) returns (n: nat)
      requires Valid() && |samplesIn| <= samplesCIC_.Length
      modifies this`history, cic_`outIndex_, cic_`history, cic_`made, cic_.int_, cic_.comb_, samplesCIC_
      ensures Shape() && cic_.Valid() && cic_.history == (if cicR_ != 1 then history else [])
      ensures history == old(history) + samplesIn
      ensures n <= samplesCIC_.Length && Passed() == old(Passed()) + samplesCIC_[..n]
    {
      hide CIC.Power, CIC.Output, CIC.CIC.IntsHold, CIC.CIC.CombsHold;
      if cicR_ != 1 {
        CicFits(cic_.outIndex_, |samplesIn|, cic_.rate_, samplesCIC_.Length);
        n := cic_.Filter(samplesIn, samplesCIC_);
        history := history + samplesIn;
        DivideByGrowth(n);
      } else {
        n := |samplesIn|;
        history := history + samplesIn;
        for i := 0 to n
          modifies samplesCIC_
          invariant forall k :: 0 <= k < i ==> samplesCIC_[k] == samplesIn[k] as real
        {
          samplesCIC_[i] := samplesIn[i] as real;
        }
      }
    }

    /** The loop that normalises what came out of the decimator. */
    method DivideByGrowth(n: nat)
      requires Shape() && n <= samplesCIC_.Length
      modifies samplesCIC_
      ensures forall i :: 0 <= i < n ==> samplesCIC_[i] == old(samplesCIC_[i]) / cic_.gain_ as real
    {
      var growth := cic_.gain_;
      for i := 0 to n
        invariant forall k :: 0 <= k < i ==> samplesCIC_[k] == old(samplesCIC_[k]) / growth as real
        invariant forall k :: i <= k < n ==> samplesCIC_[k] == old(samplesCIC_[k])
      {
        samplesCIC_[i] := samplesCIC_[i] / growth as real;
      }
    }

    static lemma CicFits(k: nat, n: nat, rate: nat, size: nat)
      requires k < rate && n <= size
      ensures (k + n) / rate <= size
    {
      QuotientGrows(k, n, rate);
      ModIs(k, rate, 0, k);
    }

    /** What comes out, in `samplesOut`, continues what should have come out for the whole
        input so far, however it was cut into calls. */
    method Filter(samplesIn: seq<int>, samplesOut: array<Out>) returns (numOut: nat)
      requires Shape() && Valid() && |samplesIn| <= samplesCIC_.Length && samplesOut !in Repr
      requires |OutOf(history + samplesIn)| <= |OutOf(history)| + samplesOut.Length
      modifies Repr, samplesOut
      ensures Valid() && history == old(history) + samplesIn && numOut <= samplesOut.Length
      ensures OutOf(history) == OutOf(old(history)) + samplesOut[..numOut]
    {
      hide CIC.Power, CIC.Output, CIC.CIC.Valid, FirInput, FIR.Stream;
      var samplesAfterCIC := RunCic(samplesIn);
      numOut := rationalFir_.Filter(samplesCIC_[..samplesAfterCIC], samplesOut);
    }

    /** Cutting the input differently leads to the same final state as well. */
    static lemma StateIsOfHistory(f: Downsampler<Out>, g: Downsampler<Out>)
      requires f.Valid() && g.Valid() && f.history == g.history && f.cicR_ == g.cicR_
      requires f.cic_.rate_ == g.cic_.rate_ && f.cic_.order_ == g.cic_.order_
      requires f.rationalFir_.rateI_ == g.rationalFir_.rateI_ && f.rationalFir_.rateD_ == g.rationalFir_.rateD_
      requires f.rationalFir_.delayLine_.Length == g.rationalFir_.delayLine_.Length
      ensures f.cic_.outIndex_ == g.cic_.outIndex_
      ensures forall j :: 0 <= j < f.cic_.order_ ==>
                && f.cic_.int_[j].value_ == g.cic_.int_[j].value_
                && f.cic_.comb_[j].value_ == g.cic_.comb_[j].value_
      ensures f.rationalFir_.outIndex_ == g.rationalFir_.outIndex_
      ensures f.rationalFir_.delayIndex_ == g.rationalFir_.delayIndex_
      ensures f.rationalFir_.delayLine_[..] == g.rationalFir_.delayLine_[..]
    {
      hide FirInput;
      CIC.CIC.StateIsOfHistory(f.cic_, g.cic_);
      FIR.RationalFIR<Out>.StateIsOfHistory(f.rationalFir_, g.rationalFir_);
    }
  }
}
