/** The cascaded integrator-comb decimator. Its integrators overflow on purpose; the
    combs cancel the overflow, so that what comes out is the cascade of moving sums of
    the whole input, to the width of the register. */
module CIC {
  import opened Bits

  const WIDTH: nat := 0x1_0000_0000   // values of uint32_t, the register type in use

  function Power(b: nat, e: nat): nat {
    if e == 0 then 1 else Power(b, e - 1) * b
  }

  // ---- Reference ---------------------------------------------------------------

  /** Sample `t` of the input; there is silence before the first one. */
  function Sample(h: seq<int>, t: int): int {
    if 0 <= t < |h| then h[t] else 0
  }

  /** The `n`-fold running total of the input, in unbounded arithmetic. */
  function Total(h: seq<int>, n: nat, t: int): int
    decreases n, t
  {
    if t < 0 then 0 else if n == 0 then Sample(h, t) else Total(h, n, t - 1) + Total(h, n - 1, t)
  }

  /** The moving sum over `rate` samples, taken `b` times over, of the `n`-fold running
      total. With n == 0 it is what the decimator is for. */
  function Smooth(h: seq<int>, rate: nat, b: nat, n: nat, t: int): int
    decreases b, rate + 1
  {
    if b == 0 then Total(h, n, t) else Window(h, rate, b, n, t, rate)
  }

  /** The latest `k` terms of the outermost moving sum of Smooth. */
  function Window(h: seq<int>, rate: nat, b: nat, n: nat, t: int, k: nat): int
    requires b > 0 && k <= rate
    decreases b, k
  {
    if k == 0 then 0 else Window(h, rate, b, n, t, k - 1) + Smooth(h, rate, b - 1, n, t - (k - 1))
  }

  /** Output `m` of a decimator of order `order` by `rate`. */
  function Decimated(h: seq<int>, rate: nat, order: nat, m: int): int {
    Smooth(h, rate, order, 0, (m + 1) * rate - 1)
  }

  /** What the register shows of it. */
  function Output(h: seq<int>, rate: nat, order: nat, m: int): real {
    (Decimated(h, rate, order, m) % WIDTH) as real
  }

  /** All that should have come out after the samples `h`. */
  function Stream(h: seq<int>, rate: nat, order: nat): (s: seq<real>)
    requires rate >= 1
  {
    seq(|h| / rate, m => Output(h, rate, order, m))
  }

  // ---- Moving sums and running totals ------------------------------------------

  lemma {:induction false} SmoothSilent(h: seq<int>, rate: nat, b: nat, n: nat, t: int)
    requires t < 0
    ensures Smooth(h, rate, b, n, t) == 0
    decreases b, rate + 1
  {
    if b > 0 {
      WindowSilent(h, rate, b, n, t, rate);
    }
  }

  lemma {:induction false} WindowSilent(h: seq<int>, rate: nat, b: nat, n: nat, t: int, k: nat)
    requires t < 0 && b > 0 && k <= rate
    ensures Window(h, rate, b, n, t, k) == 0
    decreases b, k
  {
    if k > 0 {
      WindowSilent(h, rate, b, n, t, k - 1);
      SmoothSilent(h, rate, b - 1, n, t - (k - 1));
    }
  }

  /** A difference of running totals is a moving sum: this is what a comb undoes. */
  lemma {:induction false} TotalDifference(h: seq<int>, rate: nat, n: nat, t: int, k: nat)
    requires k <= rate
    ensures Total(h, n + 1, t) - Total(h, n + 1, t - k) == Window(h, rate, 1, n, t, k)
  {
    if k > 0 {
      TotalDifference(h, rate, n, t, k - 1);
    }
  }

  /** A comb, `rate` samples apart, trades one running total for one moving sum. */
  lemma {:induction false} CombTrades(h: seq<int>, rate: nat, b: nat, n: nat, t: int)
    ensures Smooth(h, rate, b, n + 1, t) - Smooth(h, rate, b, n + 1, t - rate) == Smooth(h, rate, b + 1, n, t)
    decreases b, rate + 1
  {
    if b == 0 {
      TotalDifference(h, rate, n, t, rate);
    } else {
      CombTradesWindow(h, rate, b, n, t, rate);
    }
  }

  lemma {:induction false} CombTradesWindow(h: seq<int>, rate: nat, b: nat, n: nat, t: int, k: nat)
    requires b > 0 && k <= rate
    ensures Window(h, rate, b, n + 1, t, k) - Window(h, rate, b, n + 1, t - rate, k) == Window(h, rate, b + 1, n, t, k)
    decreases b, k
  {
    if k > 0 {
      CombTradesWindow(h, rate, b, n, t, k - 1);
      CombTrades(h, rate, b - 1, n, t - (k - 1));
      assert t - rate - (k - 1) == t - (k - 1) - rate;
    }
  }

  /** Samples after `t` do not matter. */
  lemma {:induction false} TotalPrefix(h: seq<int>, more: seq<int>, n: nat, t: int)
    requires t < |h|
    ensures Total(h + more, n, t) == Total(h, n, t)
    decreases n, t
  {
    if t >= 0 && n > 0 {
      TotalPrefix(h, more, n, t - 1);
      TotalPrefix(h, more, n - 1, t);
    }
  }

  lemma {:induction false} SmoothPrefix(h: seq<int>, more: seq<int>, rate: nat, b: nat, n: nat, t: int)
    requires t < |h|
    ensures Smooth(h + more, rate, b, n, t) == Smooth(h, rate, b, n, t)
    decreases b, rate + 1
  {
    if b == 0 {
      TotalPrefix(h, more, n, t);
    } else {
      WindowPrefix(h, more, rate, b, n, t, rate);
    }
  }

  lemma {:induction false} WindowPrefix(h: seq<int>, more: seq<int>, rate: nat, b: nat, n: nat, t: int, k: nat)
    requires t < |h| && b > 0 && k <= rate
    ensures Window(h + more, rate, b, n, t, k) == Window(h, rate, b, n, t, k)
    decreases b, k
  {
    if k > 0 {
      WindowPrefix(h, more, rate, b, n, t, k - 1);
      SmoothPrefix(h, more, rate, b - 1, n, t - (k - 1));
    }
  }

  // ---- Size of the result ------------------------------------------------------

  /** Samples are within 0..top. */
  ghost predicate Within(h: seq<int>, top: nat) {
    forall i :: 0 <= i < |h| ==> 0 <= h[i] <= top
  }

  lemma {:induction false} SmoothBound(h: seq<int>, rate: nat, b: nat, t: int, top: nat)
    requires Within(h, top)
    ensures 0 <= Smooth(h, rate, b, 0, t) <= top * Power(rate, b)
    decreases b, rate + 1
  {
    if b > 0 {
      WindowBound(h, rate, b, t, top, rate);
      assert (top * Power(rate, b - 1)) * rate == top * (Power(rate, b - 1) * rate);
    }
  }

  lemma {:induction false} WindowBound(h: seq<int>, rate: nat, b: nat, t: int, top: nat, k: nat)
    requires Within(h, top) && b > 0 && k <= rate
    ensures 0 <= Window(h, rate, b, 0, t, k) <= top * Power(rate, b - 1) * k
    decreases b, k
  {
    if k > 0 {
      WindowBound(h, rate, b, t, top, k - 1);
      SmoothBound(h, rate, b - 1, t - (k - 1), top);
    }
  }

  /** A steady input is amplified by exactly the growth, once the filter has filled. */
  lemma {:induction false} SmoothSteady(h: seq<int>, rate: nat, b: nat, t: int, level: nat)
    requires rate >= 1 && b * (rate - 1) <= t < |h| && forall i :: 0 <= i < |h| ==> h[i] == level
    ensures Smooth(h, rate, b, 0, t) == level * Power(rate, b)
    decreases b, rate + 1
  {
    if b > 0 {
      assert b * (rate - 1) == (b - 1) * (rate - 1) + (rate - 1);
      WindowSteady(h, rate, b, t, level, rate);
      assert (level * Power(rate, b - 1)) * rate == level * (Power(rate, b - 1) * rate);
    }
  }

  lemma OneMoreTime(x: int, k: int)
    ensures x * (k - 1) + x == x * k
  {
  }

  lemma {:induction false} WindowSteady(h: seq<int>, rate: nat, b: nat, t: int, level: nat, k: nat)
    requires b > 0 && 1 <= rate && k <= rate && forall i :: 0 <= i < |h| ==> h[i] == level
    requires (b - 1) * (rate - 1) + (rate - 1) <= t < |h|
    ensures Window(h, rate, b, 0, t, k) == level * Power(rate, b - 1) * k
    decreases b, k
  {
    hide Power;
    if k > 0 {
      WindowSteady(h, rate, b, t, level, k - 1);
      MulMono(0, b - 1, rate - 1);
      SmoothSteady(h, rate, b - 1, t - (k - 1), level);
      OneMoreTime(level * Power(rate, b - 1), k);
    }
  }

  // ---- What the register width loses -------------------------------------------

  /** In general an output is what a register of that width can show of the moving sum: it
      differs from it by `k` times the width. */
  lemma OutputIsResidue(h: seq<int>, rate: nat, order: nat, m: nat) returns (y: nat, k: int)
    requires rate >= 1 && (m + 1) * rate <= |h|
    ensures m < |Stream(h, rate, order)| && Stream(h, rate, order)[m] == y as real
    ensures y < WIDTH && Decimated(h, rate, order, m) == y + k * WIDTH
  {
    hide Smooth;
    InStream(m, |h|, rate);
    var x := Decimated(h, rate, order, m);
    y, k := x % WIDTH, x / WIDTH;
  }

  lemma InStream(m: nat, n: nat, rate: nat)
    requires rate >= 1
    ensures m < n / rate <==> (m + 1) * rate <= n
  {
    DivMod(n, rate);
    if m < n / rate {
      MulMono(m + 1, n / rate, rate);
    } else {
      MulMono(n / rate + 1, m + 1, rate);
    }
  }

  /** Every output is the true moving sum and not just its residue. */
  ghost predicate Lossless(rate: nat, order: nat, top: nat)
    requires rate >= 1
  {
    forall h: seq<int>, m: nat | Within(h, top) && m < |Stream(h, rate, order)| ::
      Stream(h, rate, order)[m] == Decimated(h, rate, order, m) as real
  }

  /** Samples within 0..top come through exactly if and only if `top` times the growth
      fits the register. */
  lemma LosslessExactlyWhen(rate: nat, order: nat, top: nat)
    requires rate >= 1
    ensures Lossless(rate, order, top) <==> top * Power(rate, order) < WIDTH
  {
    hide Smooth, Power, Stream, Decimated;
    if top * Power(rate, order) < WIDTH {
      forall h: seq<int>, m: nat | Within(h, top) && m < |Stream(h, rate, order)|
        ensures Stream(h, rate, order)[m] == Decimated(h, rate, order, m) as real
      {
        OutputIsExact(h, rate, order, top, m);
      }
    } else {
      var h: seq<int> := seq((order + 1) * rate, _ => top);
      assert order * (rate - 1) < (order + 1) * rate;
      SteadySum(h, rate, order, top, order);
      var y, k := OutputIsResidue(h, rate, order, order);
      assert Within(h, top);
    }
  }

  /** Without a loss the outputs are the true moving sums. */
  lemma OutputIsExact(h: seq<int>, rate: nat, order: nat, top: nat, m: nat)
    requires rate >= 1 && Within(h, top) && top * Power(rate, order) < WIDTH && m < |Stream(h, rate, order)|
    ensures Stream(h, rate, order)[m] == Decimated(h, rate, order, m) as real
  {
    hide Smooth, Power;
    InStream(m, |h|, rate);
    SmoothBound(h, rate, order, (m + 1) * rate - 1, top);
    var y, k := OutputIsResidue(h, rate, order, m);
  }

  /** SmoothSteady, for the outputs. */
  lemma SteadySum(h: seq<int>, rate: nat, order: nat, level: nat, m: nat)
    requires rate >= 1 && order * (rate - 1) < (m + 1) * rate <= |h|
    requires forall i :: 0 <= i < |h| ==> h[i] == level
    ensures Decimated(h, rate, order, m) == level * Power(rate, order)
  {
    hide Smooth, Power;
    SmoothSteady(h, rate, order, (m + 1) * rate - 1, level);
  }

  /** A steady input comes out of the filter amplified by exactly the growth, once it has
      filled, if that fits the register. */
  lemma SteadyOutput(h: seq<int>, rate: nat, order: nat, level: nat, m: nat)
    requires rate >= 1 && m < |Stream(h, rate, order)| && level * Power(rate, order) < WIDTH
    requires order * (rate - 1) < (m + 1) * rate
    requires forall i :: 0 <= i < |h| ==> h[i] == level
    ensures Stream(h, rate, order)[m] == (level * Power(rate, order)) as real
  {
    hide Smooth, Power, Stream, Decimated;
    StreamLength(h, rate, order);
    InStream(m, |h|, rate);
    OutputIsExact(h, rate, order, level, m);
    SteadySum(h, rate, order, level, m);
  }

  lemma StreamLength(h: seq<int>, rate: nat, order: nat)
    requires rate >= 1
    ensures |Stream(h, rate, order)| == |h| / rate
  {
  }

  function Sum(s: seq<int>): int {
    if s == [] then 0 else Sum(s[..|s| - 1]) + s[|s| - 1]
  }

  /** At order 1 the outputs are the sums of one period of samples after the other. */
  lemma FirstOrderIsSum(h: seq<int>, rate: nat, m: nat)
    requires rate >= 1 && (m + 1) * rate <= |h|
    ensures 0 <= m * rate <= (m + 1) * rate && Decimated(h, rate, 1, m) == Sum(h[m * rate..(m + 1) * rate])
  {
    assert (m + 1) * rate == m * rate + rate;
    WindowIsSum(h, rate, (m + 1) * rate - 1, rate);
  }

  lemma {:induction false} WindowIsSum(h: seq<int>, rate: nat, t: nat, k: nat)
    requires k <= rate && k <= t + 1 && t < |h|
    ensures Window(h, rate, 1, 0, t, k) == Sum(h[t + 1 - k..t + 1])
  {
    if k > 0 {
      WindowIsSum(h, rate, t, k - 1);
      SumFirst(h[t + 1 - k..t + 1]);
      assert h[t + 1 - k..t + 1][1..] == h[t + 2 - k..t + 1];
    }
  }

  lemma {:induction false} SumFirst(s: seq<int>)
    requires s != []
    ensures Sum(s) == s[0] + Sum(s[1..])
  {
    if |s| > 1 {
      SumFirst(s[..|s| - 1]);
      assert s[..|s| - 1][1..] == s[1..][..|s| - 2];
    }
  }

  // ---- The filter --------------------------------------------------------------

  class Integrator {
    var value_: nat

    constructor ()
      ensures value_ == 0
    {
      value_ := 0;
    }

    method Update(x: nat) returns (out: nat)
      modifies this
      ensures out == value_ == (x + old(value_)) % WIDTH
    {
      out := (x + value_) % WIDTH;
      value_ := out;
    }
  }

  class Comb {
    var value_: nat

    constructor ()
      ensures value_ == 0
    {
      value_ := 0;
    }

    method Update(x: nat) returns (out: nat)
      modifies this
      ensures out == (x - old(value_)) % WIDTH && value_ == x
    {
      out := (x - value_) % WIDTH;
      value_ := x;
    }
  }

  const MAX_ORDER: nat := 16

  class CIC {
    const order_: nat
    const rate_: nat
    const gain_: nat
    var outIndex_: nat
    const int_: seq<Integrator>
    const comb_: seq<Comb>
    ghost var history: seq<int>   // all samples filtered so far
    ghost var made: nat           // how many outputs they gave

    ghost predicate Shape() {
      && rate_ >= 1 && order_ <= MAX_ORDER == |int_| == |comb_|
      && (forall i, j :: 0 <= i < j < MAX_ORDER ==> int_[i] != int_[j] && comb_[i] != comb_[j])
    }

    /** The registers hold residues of the running totals of the input, and of what each
        comb saw last. */
    ghost predicate Valid()
      reads this, int_, comb_
    {
      && Shape()
      && outIndex_ < rate_ && |history| == made * rate_ + outIndex_
      && IntsHold(history) && CombsHold(history, made)
    }

    ghost predicate IntsHold(h: seq<int>)
      requires Shape()
      reads int_
    {
      forall j :: 0 <= j < order_ ==> int_[j].value_ == Integrated(h, j + 1)
    }

    ghost predicate CombsHold(h: seq<int>, m: nat)
      requires Shape()
      reads comb_
    {
      forall j :: 0 <= j < order_ ==> comb_[j].value_ == Combed(h, m, j)
    }

    /** What comes out of `j` integrators for the last of the samples `h`. */
    static ghost function Integrated(h: seq<int>, j: nat): nat {
      Total(h, j, |h| - 1) % WIDTH
    }

    /** What comes out of `j` combs for output `m - 1`. */
    ghost function Combed(h: seq<int>, m: nat, j: nat): nat
      requires j <= order_
    {
      Smooth(h, rate_, j, order_ - j, m * rate_ - 1) % WIDTH
    }

    constructor (order: nat, rate: nat)
      requires order <= MAX_ORDER && rate >= 1
      ensures Valid() && history == [] && order_ == order && rate_ == rate
      ensures gain_ == Power(rate, order) % WIDTH
      ensures fresh(int_) && fresh(comb_)
    {
      order_, rate_, outIndex_, history, made := order, rate, 0, [], 0;
      var gain := 1;
      for i := 0 to order
        invariant gain == Power(rate, i) % WIDTH
      {
        ModTimes(Power(rate, i), rate);
        gain := (gain * rate) % WIDTH;
      }
      gain_ := gain;
      var ints: seq<Integrator>, combs: seq<Comb> := [], [];
      for i := 0 to MAX_ORDER
        invariant |ints| == |combs| == i
        invariant forall j :: 0 <= j < i ==> fresh(ints[j]) && fresh(combs[j]) && ints[j].value_ == combs[j].value_ == 0
        invariant forall j, k :: 0 <= j < k < i ==> ints[j] != ints[k] && combs[j] != combs[k]
      {
        var newInt := new Integrator();
        var newComb := new Comb();
        ints, combs := ints + [newInt], combs + [newComb];
      }
      int_, comb_ := ints, combs;
      new;
      forall j | 0 <= j < order_
        ensures Combed([], 0, j) == 0
      {
        SmoothSilent([], rate_, j, order_ - j, -1);
      }
    }

    lemma ValueAfter(h: seq<int>, x: int, j: nat)
      ensures (Integrated(h + [x], j) + Integrated(h, j + 1)) % WIDTH == Integrated(h + [x], j + 1)
    {
      TotalPrefix(h, [x], j + 1, |h| - 1);
      SumOfResidues(Total(h + [x], j, |h|), Total(h, j + 1, |h| - 1));
    }

    /** The loop over the integrators. */
    method RunIntegrators(x: int, ghost h: seq<int>) returns (sample: nat)
      requires Shape() && IntsHold(h)
      modifies int_
      ensures IntsHold(h + [x]) && sample == Integrated(h + [x], order_)
    {
      hide Total;
      sample := x % WIDTH;
      FirstSample(h, x);
      for j := 0 to order_
        invariant sample == Integrated(h + [x], j)
        invariant forall k :: 0 <= k < j ==> int_[k].value_ == Integrated(h + [x], k + 1)
        invariant forall k :: j <= k < order_ ==> int_[k].value_ == Integrated(h, k + 1)
      {
        ValueAfter(h, x, j);
        sample := int_[j].Update(sample);
      }
    }

    static lemma FirstSample(h: seq<int>, x: int)
      ensures Integrated(h + [x], 0) == x % WIDTH
    {
    }

    lemma CombedAfter(h: seq<int>, m: nat, j: nat)
      requires j < order_
      ensures (Combed(h, m + 1, j) - Combed(h, m, j)) % WIDTH == Combed(h, m + 1, j + 1)
    {
      var t := (m + 1) * rate_ - 1;
      CombTrades(h, rate_, j, order_ - j - 1, t);
      assert t - rate_ == m * rate_ - 1;
      DifferenceOfResidues(Smooth(h, rate_, j, order_ - j, t), Smooth(h, rate_, j, order_ - j, t - rate_));
    }

    /** The loop over the combs. */
    method RunCombs(x: nat, ghost h: seq<int>, ghost m: nat) returns (sample: nat)
      requires Shape() && CombsHold(h, m) && |h| == (m + 1) * rate_ && x == Integrated(h, order_)
      modifies comb_
      ensures CombsHold(h, m + 1) && sample == Decimated(h, rate_, order_, m) % WIDTH
    {
      hide Smooth;
      sample := x;
      SmoothNone(h, rate_, order_, (m + 1) * rate_ - 1);
      for j := 0 to order_
        invariant sample == Combed(h, m + 1, j)
        invariant forall k :: 0 <= k < j ==> comb_[k].value_ == Combed(h, m + 1, k)
        invariant forall k :: j <= k < order_ ==> comb_[k].value_ == Combed(h, m, k)
      {
        CombedAfter(h, m, j);
        sample := comb_[j].Update(sample);
      }
    }

    /** More samples do not change what the combs should hold. */
    lemma CombsHoldStill(h: seq<int>, x: int, m: nat)
      requires Shape() && CombsHold(h, m) && m * rate_ <= |h|
      ensures CombsHold(h + [x], m)
    {
      hide Smooth;
      forall j | 0 <= j < order_
        ensures Combed(h + [x], m, j) == Combed(h, m, j)
      {
        SmoothPrefix(h, [x], rate_, j, order_ - j, m * rate_ - 1);
      }
    }

    /** The outputs `from`, `from` + 1, ... are those of the reference. */
    ghost predicate Correct(out: seq<real>, h: seq<int>, from: nat) {
      forall i :: 0 <= i < |out| ==> out[i] == Output(h, rate_, order_, from + i)
    }

    lemma StillCorrect(out: seq<real>, h: seq<int>, x: int, from: nat)
      requires Correct(out, h, from) && (from + |out|) * rate_ <= |h|
      ensures Correct(out, h + [x], from)
    {
      hide Smooth;
      forall i | 0 <= i < |out|
        ensures out[i] == Output(h + [x], rate_, order_, from + i)
      {
        assert (from + i + 1) * rate_ <= (from + |out|) * rate_;
        SmoothPrefix(h, [x], rate_, order_, 0, (from + i + 1) * rate_ - 1);
      }
    }

    /** The body of the loop over the samples. */
    method FilterSample(x: int, samplesOut: array<real>, n: nat) returns (numOut: nat)
      requires Valid() && n <= samplesOut.Length && (outIndex_ + 1 == rate_ ==> n < samplesOut.Length)
      modifies this`outIndex_, this`history, this`made, int_, comb_, samplesOut
      ensures Valid() && history == old(history) + [x]
      ensures old(outIndex_) + 1 < rate_ ==>
                && numOut == n && outIndex_ == old(outIndex_) + 1 && made == old(made)
                && samplesOut[..] == old(samplesOut[..])
      ensures old(outIndex_) + 1 == rate_ ==>
                && numOut == n + 1 && outIndex_ == 0 && made == old(made) + 1
                && samplesOut[..] == old(samplesOut[..])[n := Output(history, rate_, order_, old(made))]
    {
      hide Decimated, CombsHold, IntsHold, Integrated;
      ghost var h := history;
      var sample := RunIntegrators(x, h);
      history := h + [x];
      CombsHoldStill(h, x, made);
      numOut := n;
      outIndex_ := outIndex_ + 1;
      if outIndex_ >= rate_ {
        outIndex_ := 0;
        sample := RunCombs(sample, history, made);
        samplesOut[numOut] := sample as real;
        numOut := numOut + 1;
        made := made + 1;
      }
    }

    /** The samples that come out, in `samplesOut`, continue what should have come out for
        the whole input so far, however it was cut into calls. */
    method Filter(samplesIn: seq<int>, samplesOut: array<real>) returns (numOut: nat)
      requires Valid() && (outIndex_ + |samplesIn|) / rate_ <= samplesOut.Length
      modifies this`outIndex_, this`history, this`made, int_, comb_, samplesOut
      ensures Valid() && history == old(history) + samplesIn && made == old(made) + numOut
      ensures numOut <= samplesOut.Length
      ensures Stream(history, rate_, order_) == Stream(old(history), rate_, order_) + samplesOut[..numOut]
      ensures samplesOut[numOut..] == old(samplesOut[numOut..])
    {
      hide Decimated, Output, CombsHold, IntsHold, Integrated, Shape;
      numOut := 0;
      NoneYet(history, made);
      for i := 0 to |samplesIn|
        invariant Valid() && history == old(history) + samplesIn[..i] && made == old(made) + numOut
        invariant numOut * rate_ + outIndex_ == old(outIndex_) + i
        invariant numOut <= samplesOut.Length && Correct(samplesOut[..numOut], history, old(made))
        invariant samplesOut[numOut..] == old(samplesOut[numOut..])
      {
        ghost var h, out := history, samplesOut[..numOut];
        FitsStill(numOut, rate_, old(outIndex_) + |samplesIn|, old(outIndex_) + i + 1);
        NextRow(numOut, rate_);
        numOut := FilterSample(samplesIn[i], samplesOut, numOut);
        StillCorrect(out, h, samplesIn[i], old(made));
        assert |out| < numOut ==> samplesOut[..numOut] == out + [samplesOut[|out|]];
        assert |out| == numOut ==> samplesOut[..numOut] == out;
      }
      assert samplesIn[..|samplesIn|] == samplesIn;
      StreamIs(old(history), samplesIn, old(made), old(outIndex_), samplesOut[..numOut], outIndex_);
    }

    /** Correct outputs continue the stream. */
    lemma StreamIs(h: seq<int>, more: seq<int>, m: nat, k: nat, out: seq<real>, l: nat)
      requires rate_ >= 1 && |h| == m * rate_ + k && k < rate_ && Correct(out, h + more, m)
      requires |h| + |more| == (m + |out|) * rate_ + l && l < rate_
      ensures Stream(h + more, rate_, order_) == Stream(h, rate_, order_) + out
    {
      hide Smooth;
      ModIs(|h|, rate_, m, k);
      ModIs(|h| + |more|, rate_, m + |out|, l);
      forall i: nat | i < m
        ensures Decimated(h + more, rate_, order_, i) == Decimated(h, rate_, order_, i)
      {
        MulMono(i + 1, m, rate_);
        SmoothPrefix(h, more, rate_, order_, 0, (i + 1) * rate_ - 1);
      }
      forall i: nat | i < |out|
        ensures Stream(h + more, rate_, order_)[m + i] == out[i]
      {
      }
    }

    /** The whole state depends on the samples filtered so far and not on the calls. */
    static lemma StateIsOfHistory(f: CIC, g: CIC)
      requires f.Valid() && g.Valid() && f.history == g.history && f.rate_ == g.rate_ && f.order_ == g.order_
      ensures f.outIndex_ == g.outIndex_
      ensures forall j :: 0 <= j < f.order_ ==>
          f.int_[j].value_ == g.int_[j].value_ && f.comb_[j].value_ == g.comb_[j].value_
    {
      hide Smooth, Total;
      ModIs(|f.history|, f.rate_, f.made, f.outIndex_);
      ModIs(|g.history|, g.rate_, g.made, g.outIndex_);
    }

    static lemma NextRow(q: nat, rate: nat)
      ensures (q + 1) * rate == q * rate + rate
    {
    }

    lemma NoneYet(h: seq<int>, from: nat)
      ensures Correct([], h, from)
    {
    }
  }

  lemma SmoothNone(h: seq<int>, rate: nat, n: nat, t: int)
    ensures Smooth(h, rate, 0, n, t) == Total(h, n, t)
  {
  }

  lemma SumOfResidues(a: int, b: int)
    ensures (a % WIDTH + b % WIDTH) % WIDTH == (a + b) % WIDTH
  {
  }

  lemma DifferenceOfResidues(a: int, b: int)
    ensures (a % WIDTH - b % WIDTH) % WIDTH == (a - b) % WIDTH
  {
  }

  lemma ModTimes(a: nat, b: nat)
    ensures ((a % WIDTH) * b) % WIDTH == (a * b) % WIDTH
  {
    var q := a / WIDTH;
    assert a == q * WIDTH + a % WIDTH;
    assert a * b == (q * b) * WIDTH + (a % WIDTH) * b;
    AddMultiple((a % WIDTH) * b, q * b);
  }

  lemma {:induction false} AddMultiple(x: nat, k: nat)
    ensures (k * WIDTH + x) % WIDTH == x % WIDTH
  {
  }

  /** There is room for one more output. */
  lemma FitsStill(q: nat, n: nat, x: nat, y: nat)
    requires n >= 1 && y <= x
    ensures q * n + n == y ==> q + 1 <= x / n
  {
    DivMod(x, n);
    if q * n + n == y && x / n <= q {
      MulMono(x / n, q, n);
    }
  }
}
