/** The rational resampling filter: a circular delay line and one branch of the taps per
    output, proved equal to inserting zeros, convolving and keeping every D-th value. */
module FIR {
  import opened Bits

  const WIDTH: nat := 0x1_0000_0000   // values of unsigned int

  // ---- Reference ---------------------------------------------------------------

  /** The input with `l` - 1 zeros put in after every sample, and silence before it. */
  function Stuffed(x: seq<real>, l: nat, n: int): real
    requires l >= 1
  {
    if n >= 0 && n % l == 0 && n / l < |x| then x[n / l] else 0.0
  }

  /** The stuffed input convolved with the first `n` taps, at time `t`. */
  function Convolved(taps: seq<real>, x: seq<real>, l: nat, t: int, n: nat): real
    requires l >= 1 && n <= |taps|
  {
    if n == 0 then 0.0 else Convolved(taps, x, l, t, n - 1) + Stuffed(x, l, t - (n - 1)) * taps[n - 1]
  }

  /** How many multiples of `d` are below `n`. */
  function CeilDiv(n: nat, d: nat): nat
    requires d >= 1
  {
    (n + d - 1) / d
  }

  /** All that comes out after the samples `x`: every `d`-th convolved value, converted to
      what the outputs are. */
  function Stream<Out>(taps: seq<real>, x: seq<real>, l: nat, d: nat, convert: real -> Out): seq<Out>
    requires l >= 1 && d >= 1
  {
    seq(CeilDiv(|x| * l, d), m => convert(Convolved(taps, x, l, m * d, |taps|)))
  }

  // ---- One branch of the taps is enough ----------------------------------------

  /** The sample `age` - 1 before the last one of `x`. */
  function Past(x: seq<real>, age: nat): real {
    if 1 <= age <= |x| then x[|x| - age] else 0.0
  }

  /** The first `n` terms of the branch of the taps that starts at `o`. */
  function Branch(taps: seq<real>, x: seq<real>, l: nat, o: nat, n: nat): real
    requires o < l && n * l <= |taps|
  {
    if n == 0 then 0.0
    else
      BranchIndex(l, o, n - 1);
      Branch(taps, x, l, o, n - 1) + Past(x, n) * taps[o + l * (n - 1)]
  }

  lemma BranchIndex(l: nat, o: nat, j: nat)
    requires o < l
    ensures o + l * j < (j + 1) * l && j * l <= (j + 1) * l
  {
  }

  lemma StuffedAt(x: seq<real>, l: nat, o: nat, j: nat, i: nat)
    requires o < l && i < l && |x| >= 1
    ensures Stuffed(x, l, (|x| - 1) * l + o - (j * l + i)) == if i == o then Past(x, j + 1) else 0.0
  {
    var n := (|x| - 1) * l + o - (j * l + i);
    assert n == (|x| - 1 - j) * l + (o - i);
    if j >= |x| {
      assert (|x| - 1 - j) * l <= -1 * l by { MulMono(|x| - 1 - j, -1, l); }
      assert n < 0 || i == o;
      if i == o {
        assert n < 0;
      }
    } else if i <= o {
      MulMono(0, |x| - 1 - j, l);
      ModIs(n, l, |x| - 1 - j, o - i);
    } else if j < |x| - 1 {
      MulMono(0, |x| - 2 - j, l);
      assert n == (|x| - 2 - j) * l + (l + o - i);
      ModIs(n, l, |x| - 2 - j, l + o - i);
    }
  }

  /** Of `l` taps in a row, just one meets a sample. */
  lemma {:induction false} OneOfEach(taps: seq<real>, x: seq<real>, l: nat, o: nat, j: nat, i: nat)
    requires o < l && i <= l && |x| >= 1 && j * l + i <= |taps|
    ensures Convolved(taps, x, l, (|x| - 1) * l + o, j * l + i) ==
            Convolved(taps, x, l, (|x| - 1) * l + o, j * l) +
            if i > o then Past(x, j + 1) * taps[o + l * j] else 0.0
  {
    hide Stuffed, Past;
    if i > 0 {
      OneOfEach(taps, x, l, o, j, i - 1);
      StuffedAt(x, l, o, j, i - 1);
      assert j * l + i - 1 == j * l + (i - 1);
      assert l * j == j * l;
    }
  }

  /** The convolution over `n` * `l` taps is the branch of `n` taps. */
  lemma {:induction false} BranchIsConvolution(taps: seq<real>, x: seq<real>, l: nat, o: nat, n: nat)
    requires o < l && |x| >= 1 && n * l <= |taps|
    ensures Branch(taps, x, l, o, n) == Convolved(taps, x, l, (|x| - 1) * l + o, n * l)
  {
    hide Stuffed, Past, Convolved;
    if n == 0 {
      NoTaps(taps, x, l, (|x| - 1) * l + o);
    } else {
      var k: nat := (n - 1) * l;
      BranchIndex(l, o, n - 1);
      BranchIsConvolution(taps, x, l, o, n - 1);
      assert k + l == n * l;
      OneOfEach(taps, x, l, o, n - 1, l);
    }
  }

  lemma NoTaps(taps: seq<real>, x: seq<real>, l: nat, t: int)
    requires l >= 1
    ensures Convolved(taps, x, l, t, 0) == 0.0
  {
  }

  /** Samples yet to come do not matter. */
  lemma {:induction false} ConvolvedPrefix(taps: seq<real>, x: seq<real>, more: seq<real>, l: nat, t: int, n: nat)
    requires l >= 1 && n <= |taps| && t < |x| * l
    ensures Convolved(taps, x + more, l, t, n) == Convolved(taps, x, l, t, n)
  {
    if n > 0 {
      ConvolvedPrefix(taps, x, more, l, t, n - 1);
      StuffedPrefix(x, more, l, t - (n - 1));
    }
  }

  lemma StuffedPrefix(x: seq<real>, more: seq<real>, l: nat, n: int)
    requires l >= 1 && n < |x| * l
    ensures Stuffed(x + more, l, n) == Stuffed(x, l, n)
  {
    if n >= 0 {
      DivMod(n, l);
      if n / l >= |x| {
        MulMono(|x|, n / l, l);
      }
    }
  }

  // ---- The zero padding --------------------------------------------------------

  /** The constructor adds as many zeros as the remainder, which is not always as many
      as are missing to a multiple. */
  function Padded(taps: seq<real>, l: nat): (p: seq<real>)
    requires l >= 1
    ensures |p| == |taps| + |taps| % l
  {
    taps + seq(|taps| % l, _ => 0.0)
  }

  /** The taps that the branches reach. */
  function Used(taps: seq<real>, l: nat): (u: seq<real>)
    requires l >= 1
    ensures |u| == (|taps| + |taps| % l) / l * l
  {
    var p := Padded(taps, l);
    DivMod(|p|, l);
    p[..|p| / l * l]
  }

  /** Every output is the convolution with all the taps that were given. */
  ghost predicate AllTapsCount(size: nat, l: nat, d: nat)
    requires l >= 1
  {
    forall taps: seq<real>, x: seq<real>, m: nat | |taps| == size && m * d < |x| * l ::
      Convolved(Used(taps, l), x, l, m * d, |Used(taps, l)|) == Convolved(taps, x, l, m * d, |taps|)
  }

  /** The padding reaches all taps if and only if the remainder is zero or at least half
      of the interpolation rate. */
  lemma AllTapsCountExactlyWhen(size: nat, l: nat, d: nat)
    requires l >= 1 && d >= 1 && size + size % l >= l
    ensures AllTapsCount(size, l, d) <==> size % l == 0 || 2 * (size % l) >= l
  {
    hide Convolved;
    var q, r := size / l, size % l;
    DivMod(size, l);
    UsedSize(size, l);
    if r == 0 || 2 * r >= l {
      forall taps: seq<real>, x: seq<real>, m: nat | |taps| == size && m * d < |x| * l
        ensures Convolved(Used(taps, l), x, l, m * d, |Used(taps, l)|) == Convolved(taps, x, l, m * d, |taps|)
      {
        ZerosDoNotCount(taps, Used(taps, l), x, l, m * d, |Used(taps, l)|);
      }
    } else {
      MissedTap(size, l, d);
    }
  }

  lemma UsedSize(size: nat, l: nat)
    requires l >= 1
    ensures (size + size % l) / l * l ==
            if size % l == 0 then size else if 2 * (size % l) >= l then size - size % l + l else size - size % l
  {
    var q, r := size / l, size % l;
    DivMod(size, l);
    if 2 * r >= l {
      ModIs(size + r, l, q + 1, 2 * r - l);
    } else {
      ModIs(size + r, l, q, 2 * r);
    }
  }

  lemma {:induction false} ZerosDoNotCount(taps: seq<real>, u: seq<real>, x: seq<real>, l: nat, t: int, n: nat)
    requires l >= 1 && |taps| <= n <= |u| && u[..|taps|] == taps && forall k :: |taps| <= k < |u| ==> u[k] == 0.0
    ensures Convolved(u, x, l, t, n) == Convolved(taps, x, l, t, |taps|)
  {
    if n > |taps| {
      ZerosDoNotCount(taps, u, x, l, t, n - 1);
    } else {
      SameTaps(taps, u, x, l, t, n);
    }
  }

  lemma {:induction false} SameTaps(taps: seq<real>, u: seq<real>, x: seq<real>, l: nat, t: int, n: nat)
    requires l >= 1 && n <= |taps| && n <= |u| && u[..n] == taps[..n]
    ensures Convolved(u, x, l, t, n) == Convolved(taps, x, l, t, n)
  {
    if n > 0 {
      assert u[..n - 1] == u[..n][..n - 1] && taps[..n - 1] == taps[..n][..n - 1];
      assert u[..n][n - 1] == taps[..n][n - 1];
      SameTaps(taps, u, x, l, t, n - 1);
    }
  }

  lemma {:induction false} ZeroTaps(taps: seq<real>, x: seq<real>, l: nat, t: int, n: nat)
    requires l >= 1 && n <= |taps| && forall k :: 0 <= k < n ==> taps[k] == 0.0
    ensures Convolved(taps, x, l, t, n) == 0.0
  {
    if n > 0 {
      ZeroTaps(taps, x, l, t, n - 1);
    }
  }

  /** A lone tap just after the last one that is reached has no effect. */
  lemma MissedTap(size: nat, l: nat, d: nat)
    requires l >= 1 && d >= 1 && size >= l && 0 < 2 * (size % l) < l
    ensures !AllTapsCount(size, l, d)
  {
    hide Convolved, Padded;
    DivMod(size, l);
    UsedSize(size, l);
    var q: nat, k: nat := size / l, size - size % l;
    var taps: seq<real> := seq(size, _ => 0.0)[k := 1.0];
    var x: seq<real> := seq(k * d + 1, _ => 1.0);
    var u := Used(taps, l);
    UsedArePrefix(taps, l, k);
    ZeroTaps(u, x, l, k * d, k);
    Regroup(q, l, d);
    LoneTap(taps, x, l, k * d, k, q * (d - 1));
    MulMono(1, l, |x|);
  }

  lemma UsedArePrefix(taps: seq<real>, l: nat, k: nat)
    requires l >= 1 && k <= |taps| && (|taps| + |taps| % l) / l * l == k
    ensures Used(taps, l) == taps[..k]
  {
  }

  lemma Regroup(q: nat, l: nat, d: nat)
    requires d >= 1 && l >= 1
    ensures q * l * d - q * l == q * (d - 1) * l && 0 <= q * (d - 1) < q * l * d + 1
  {
    assert q * l * d - q * l == q * l * (d - 1) == q * (d - 1) * l;
    MulMono(1, l, q * d);
    assert l * (q * d) == q * l * d;
    assert q * (d - 1) == q * d - q;
  }

  lemma LoneTap(taps: seq<real>, x: seq<real>, l: nat, t: nat, k: nat, i: nat)
    requires l >= 1 && k < |taps| && taps == seq(|taps|, _ => 0.0)[k := 1.0]
    requires i < |x| && x[i] == 1.0 && t - k == i * l
    ensures Convolved(taps, x, l, t, |taps|) == 1.0
  {
    hide Convolved;
    ZeroTaps(taps, x, l, t, k);
    ModIs(i * l, l, i, 0);
    assert Stuffed(x, l, t - k) == 1.0;
    OnlyTap(taps, x, l, t, k, |taps|);
  }

  lemma {:induction false} OnlyTap(taps: seq<real>, x: seq<real>, l: nat, t: int, k: nat, n: nat)
    requires l >= 1 && k < n <= |taps| && taps[k] == 1.0 && Convolved(taps, x, l, t, k) == 0.0
    requires Stuffed(x, l, t - k) == 1.0 && forall i :: k < i < |taps| ==> taps[i] == 0.0
    ensures Convolved(taps, x, l, t, n) == 1.0
  {
    if n > k + 1 {
      OnlyTap(taps, x, l, t, k, n - 1);
    }
  }

  // ---- What the filter does, input by input ------------------------------------

  /** Silence with a single 1 at index `j`. */
  function Impulse(n: nat, j: nat): (x: seq<real>)
    requires j < n
    ensures |x| == n
  {
    seq(n, i => if i == j then 1.0 else 0.0)
  }

  /** A single 1 at index `j` makes the taps come out one after the other, from time j * l
      on, and nothing else. */
  lemma {:induction false} ImpulseResponse(taps: seq<real>, n: nat, j: nat, l: nat, t: int, k: nat)
    requires l >= 1 && j < n && k <= |taps|
    ensures Convolved(taps, Impulse(n, j), l, t, k) == if 0 <= t - j * l < k then taps[t - j * l] else 0.0
  {
    if k > 0 {
      ImpulseResponse(taps, n, j, l, t, k - 1);
      ImpulseAt(n, j, l, t - (k - 1));
    }
  }

  lemma ImpulseAt(n: nat, j: nat, l: nat, t: int)
    requires l >= 1 && j < n
    ensures Stuffed(Impulse(n, j), l, t) == if t == j * l then 1.0 else 0.0
  {
    if t == j * l {
      ModIs(t, l, j, 0);
    } else if t >= 0 && t % l == 0 {
      DivMod(t, l);
    }
  }

  /** Outputs depend linearly on the inputs: with ImpulseResponse that settles what comes
      out for all inputs. */
  lemma {:induction false} Superposition(taps: seq<real>, x: seq<real>, y: seq<real>, z: seq<real>, a: real, b: real,
                                         l: nat, t: int, k: nat)
    requires l >= 1 && k <= |taps| && |x| == |y| == |z|
    requires forall i :: 0 <= i < |z| ==> z[i] == a * x[i] + b * y[i]
    ensures Convolved(taps, z, l, t, k) == a * Convolved(taps, x, l, t, k) + b * Convolved(taps, y, l, t, k)
  {
    hide Stuffed;
    if k > 0 {
      Superposition(taps, x, y, z, a, b, l, t, k - 1);
      var n := t - (k - 1);
      StuffedLinear(x, y, z, a, b, l, n);
      Combined(a, b, Convolved(taps, x, l, t, k - 1), Convolved(taps, y, l, t, k - 1),
               Stuffed(x, l, n), Stuffed(y, l, n), taps[k - 1]);
    }
  }

  lemma StuffedLinear(x: seq<real>, y: seq<real>, z: seq<real>, a: real, b: real, l: nat, n: int)
    requires l >= 1 && |x| == |y| == |z| && forall i :: 0 <= i < |z| ==> z[i] == a * x[i] + b * y[i]
    ensures Stuffed(z, l, n) == a * Stuffed(x, l, n) + b * Stuffed(y, l, n)
  {
  }

  lemma Combined(a: real, b: real, c: real, d: real, p: real, q: real, w: real)
    ensures (a * c + b * d) + (a * p + b * q) * w == a * (c + p * w) + b * (d + q * w)
  {
  }

  /** The same, seen at the outputs: of the stuffed impulse every `d`-th tap comes out. */
  lemma ImpulseStream<Out>(taps: seq<real>, n: nat, j: nat, l: nat, d: nat, convert: real -> Out, m: nat)
    requires l >= 1 && d >= 1 && j < n && m * d < n * l
    ensures var s := Stream(taps, Impulse(n, j), l, d, convert);
            m < |s| && s[m] == convert(if 0 <= m * d - j * l < |taps| then taps[m * d - j * l] else 0.0)
  {
    hide Convolved, CeilDiv;
    CeilDivAbove(n * l, d, m);
    ImpulseResponse(taps, n, j, l, m * d, |taps|);
  }

  /** CeilDiv is the number of multiples of `d` below `n`. */
  lemma CeilDivCounts(n: nat, d: nat, m: nat)
    requires d >= 1
    ensures m < CeilDiv(n, d) <==> m * d < n
  {
    hide CeilDiv;
    if m * d < n {
      CeilDivAbove(n, d, m);
    } else if m < CeilDiv(n, d) {
      BelowCeilDiv(n, d, m);
    }
  }

  /** With rates of 1 and a single tap of 1 everything comes out as it went in. */
  lemma PassesThrough<Out>(x: seq<real>, convert: real -> Out)
    ensures |Stream([1.0], x, 1, 1, convert)| == |x|
    ensures forall i :: 0 <= i < |x| ==> Stream([1.0], x, 1, 1, convert)[i] == convert(x[i])
  {
    ModIs(|x|, 1, |x|, 0);
    forall i: nat | i < |x|
      ensures Convolved([1.0], x, 1, i, 1) == x[i]
    {
      ModIs(i, 1, i, 0);
      assert Stuffed(x, 1, i) == x[i];
    }
  }

  // ---- The filter --------------------------------------------------------------

  lemma CeilDivIs(n: nat, d: nat, m: nat, k: nat)
    requires d >= 1 && k < d && m * d == n + k
    ensures CeilDiv(n, d) == m
  {
    ModIs(n + d - 1, d, m, d - 1 - k);
  }

  lemma CeilDivAbove(n: nat, d: nat, m: nat)
    requires d >= 1 && m * d < n
    ensures m < CeilDiv(n, d)
  {
    DivMod(n + d - 1, d);
    if CeilDiv(n, d) <= m {
      MulMono(CeilDiv(n, d), m, d);
    }
  }

  lemma CeilDivMonotone(a: nat, b: nat, d: nat)
    requires d >= 1 && a <= b
    ensures CeilDiv(a, d) <= CeilDiv(b, d)
  {
    DivMod(a + d - 1, d);
    DivMod(b + d - 1, d);
    if CeilDiv(b, d) < CeilDiv(a, d) {
      MulMono(CeilDiv(b, d) + 1, CeilDiv(a, d), d);
    }
  }

  /** `out` continues the stream from output `from` on. */
  ghost predicate Correct<Out>(out: seq<Out>, taps: seq<real>, x: seq<real>, l: nat, d: nat, from: nat,
                               convert: real -> Out)
    requires l >= 1
  {
    forall i :: 0 <= i < |out| ==> out[i] == convert(Convolved(taps, x, l, (from + i) * d, |taps|))
  }

  lemma StillCorrect<Out>(out: seq<Out>, taps: seq<real>, x: seq<real>, more: seq<real>, l: nat, d: nat, from: nat,
                          convert: real -> Out)
    requires l >= 1 && d >= 1 && Correct(out, taps, x, l, d, from, convert) && (from + |out|) * d < |x| * l + d
    ensures Correct(out, taps, x + more, l, d, from, convert)
  {
    hide Convolved;
    forall i | 0 <= i < |out|
      ensures out[i] == convert(Convolved(taps, x + more, l, (from + i) * d, |taps|))
    {
      MulMono(from + i + 1, from + |out|, d);
      assert (from + i + 1) * d == (from + i) * d + d;
      ConvolvedPrefix(taps, x, more, l, (from + i) * d, |taps|);
    }
  }

  lemma CorrectAppend<Out>(out: seq<Out>, more: seq<Out>, taps: seq<real>, x: seq<real>, l: nat, d: nat, from: nat,
                           convert: real -> Out)
    requires l >= 1 && Correct(out, taps, x, l, d, from, convert) && Correct(more, taps, x, l, d, from + |out|, convert)
    ensures Correct(out + more, taps, x, l, d, from, convert)
  {
    hide Convolved;
    forall i | 0 <= i < |out + more|
      ensures (out + more)[i] == convert(Convolved(taps, x, l, (from + i) * d, |taps|))
    {
      if i >= |out| {
        assert more[i - |out|] == convert(Convolved(taps, x, l, (from + |out| + (i - |out|)) * d, |taps|));
      }
    }
  }

  /** Correct outputs, and as many as there should be, continue the stream. */
  lemma StreamIs<Out>(out: seq<Out>, taps: seq<real>, x: seq<real>, more: seq<real>, l: nat, d: nat, m: nat,
                      convert: real -> Out)
    requires l >= 1 && d >= 1 && CeilDiv(|x| * l, d) == m && CeilDiv((|x| + |more|) * l, d) == m + |out|
    requires Correct(out, taps, x + more, l, d, m, convert)
    ensures Stream(taps, x + more, l, d, convert) == Stream(taps, x, l, d, convert) + out
  {
    hide Convolved, CeilDiv;
    forall i: nat | i < m
      ensures Convolved(taps, x + more, l, i * d, |taps|) == Convolved(taps, x, l, i * d, |taps|)
    {
      BelowCeilDiv(|x| * l, d, i);
      ConvolvedPrefix(taps, x, more, l, i * d, |taps|);
    }
    forall i: nat | i < |out|
      ensures Stream(taps, x + more, l, d, convert)[m + i] == out[i]
    {
    }
  }

  lemma BelowCeilDiv(n: nat, d: nat, m: nat)
    requires d >= 1 && m < CeilDiv(n, d)
    ensures m * d < n
  {
    DivMod(n + d - 1, d);
    MulMono(m + 1, CeilDiv(n, d), d);
  }

  class RationalFIR<Out> {
    const taps_: seq<real>
    const rateI_: nat
    const rateD_: nat
    const convert: real -> Out
    const delayLine_: array<real>
    var delayIndex_: nat
    var outIndex_: nat
    ghost const used: seq<real>   // the taps that the branches reach
    ghost var history: seq<real>  // all samples filtered so far
    ghost var made: nat           // how many outputs they gave

    ghost predicate Shape() {
      && rateI_ >= 1 && rateD_ >= 1 && rateI_ + rateD_ <= WIDTH && delayLine_.Length >= 1
      && |used| == delayLine_.Length * rateI_ <= |taps_| && used == taps_[..|used|]
    }

    /** How far slot `p` lies behind slot `n`, going round. */
    static function Age(p: nat, n: nat, size: nat): nat
      requires p < size
    {
      if p < n then n - p else n + size - p
    }

    /** The delay line holds the latest samples, the last one just before slot `n`. */
    ghost predicate Line(x: seq<real>, n: nat)
      reads delayLine_
    {
      forall p :: 0 <= p < delayLine_.Length ==> delayLine_[p] == Past(x, Age(p, n, delayLine_.Length))
    }

    ghost predicate Valid()
      reads this, delayLine_
    {
      && Shape()
      && delayIndex_ == |history| % delayLine_.Length && Line(history, delayIndex_)
      && outIndex_ < rateD_ && made * rateD_ == |history| * rateI_ + outIndex_
    }

    /** To be of use, the delay line needs at least one slot for the taps. */
    constructor (taps: seq<real>, rateI: nat, rateD: nat, convert: real -> Out)
      requires rateI >= 1 && rateD >= 1 && rateI + rateD <= WIDTH
      ensures |taps| + |taps| % rateI >= rateI ==> Valid()
      ensures delayLine_.Length == Slots(|taps|, rateI) && history == [] && this.convert == convert
      ensures rateI_ == rateI && rateD_ == rateD && used == Used(taps, rateI)
      ensures fresh(delayLine_)
    {
      hide Used, Past, Slots, Padded;
      var extraTaps := |taps| % rateI;
      taps_ := taps + seq(extraTaps, _ => 0.0);
      rateI_, rateD_, this.convert := rateI, rateD, convert;
      var n := Slots(|taps|, rateI);
      delayLine_ := new real[n](_ => 0.0);
      delayIndex_, outIndex_ := 0, 0;
      used, history, made := Used(taps, rateI), [], 0;
      new;
      if |taps| + extraTaps >= rateI {
        SlotsFor(taps, rateI);
        EmptyIsValid();
      }
    }

    /** With no samples the delay line is all silence. */
    lemma EmptyIsValid()
      requires Shape() && history == [] && delayIndex_ == outIndex_ == made == 0
      requires forall p :: 0 <= p < delayLine_.Length ==> delayLine_[p] == 0.0
      ensures Valid()
    {
      ModIs(0, delayLine_.Length, 0, 0);
    }

    /** How many slots the delay line gets for `size` taps. */
    static function Slots(size: nat, l: nat): nat
      requires l >= 1
    {
      (size + size % l) / l
    }

    /** The taps fill them. */
    static lemma SlotsFor(taps: seq<real>, l: nat)
      requires l >= 1
      ensures var n, p := Slots(|taps|, l), taps + seq(|taps| % l, _ => 0.0);
              && |Used(taps, l)| == n * l <= |p| && Used(taps, l) == p[..n * l]
              && (|p| >= l ==> n >= 1)
    {
      hide Slots, Used;
      UsedFill(taps, l);
      if |taps| + |taps| % l >= l {
        SomeSlot(|taps|, l);
      }
    }

    static lemma UsedFill(taps: seq<real>, l: nat)
      requires l >= 1
      ensures var n, p := Slots(|taps|, l), taps + seq(|taps| % l, _ => 0.0);
              |Used(taps, l)| == n * l <= |p| && Used(taps, l) == p[..n * l]
    {
      DivMod(|taps| + |taps| % l, l);
    }

    static lemma SomeSlot(size: nat, l: nat)
      requires l >= 1 && size + size % l >= l
      ensures Slots(size, l) >= 1
    {
      DivMod(size + size % l, l);
    }

    /** The slot `j` before slot `n`. */
    static function Back(n: nat, j: nat, size: nat): nat
      requires n < size && j < size
    {
      if j <= n then n - j else n + size - j
    }

    static lemma BackStep(n: nat, j: nat, size: nat)
      requires n < size && j < size
      ensures Back(n, 0, size) == n && Back(n, j, size) < size && Age(Back(n, j, size), n + 1, size) == j + 1
      ensures j + 1 < size ==>
                Back(n, j + 1, size) == if Back(n, j, size) == 0 then size - 1 else Back(n, j, size) - 1
    {
    }

    /** What the first `j` slots back add up to. */
    ghost function Summed(j: nat): real
      requires Shape() && j <= delayLine_.Length && outIndex_ < rateI_
      reads this
    {
      MulMono(j, delayLine_.Length, rateI_);
      Branch(used, history, rateI_, outIndex_, j)
    }

    lemma SummedNone()
      requires Shape() && outIndex_ < rateI_
      ensures Summed(0) == 0.0
    {
    }

    lemma SummedStep(j: nat)
      requires Shape() && j < delayLine_.Length && outIndex_ < rateI_
      ensures outIndex_ + rateI_ * j < |taps_|
      ensures Summed(j + 1) == Summed(j) + Past(history, j + 1) * taps_[outIndex_ + rateI_ * j]
    {
      hide Past;
      BranchIndex(rateI_, outIndex_, j);
      MulMono(j + 1, delayLine_.Length, rateI_);
      assert used[outIndex_ + rateI_ * j] == taps_[outIndex_ + rateI_ * j];
    }

    lemma SummedAll()
      requires Shape() && outIndex_ < rateI_ && |history| >= 1
      ensures Summed(delayLine_.Length) ==
          Convolved(used, history, rateI_, (|history| - 1) * rateI_ + outIndex_, |used|)
    {
      hide Branch, Convolved;
      BranchIsConvolution(used, history, rateI_, outIndex_, delayLine_.Length);
    }

    /** The loop over the delay line, from the latest sample back. */
    method CalcPolyphase() returns (o: real)
      requires Shape() && delayIndex_ < delayLine_.Length && outIndex_ < rateI_
      requires |history| >= 1 && Line(history, delayIndex_ + 1)
      ensures o == Convolved(used, history, rateI_, (|history| - 1) * rateI_ + outIndex_, |used|)
    {
      hide Convolved, Past, Shape, Back, Age, Summed;
      var fIndex := delayIndex_;
      o := 0.0;
      SummedNone();
      BackStep(delayIndex_, 0, delayLine_.Length);
      for j := 0 to delayLine_.Length
        invariant j < delayLine_.Length ==> fIndex == Back(delayIndex_, j, delayLine_.Length)
        invariant o == Summed(j)
      {
        BackStep(delayIndex_, j, delayLine_.Length);
        SummedStep(j);
        o := o + delayLine_[fIndex] * taps_[outIndex_ + rateI_ * j];
        if fIndex == 0 {
          fIndex := delayLine_.Length - 1;
        } else {
          fIndex := fIndex - 1;
        }
      }
      SummedAll();
    }

    /** Output `m` is due `o` steps of the stuffed input after the latest sample. */
    ghost predicate Due(m: nat, o: nat)
      reads `history
    {
      m * rateD_ == (|history| - 1) * rateI_ + o
    }

    lemma DueStep(m: nat, o: nat)
      requires Shape() && Due(m, o) && |history| >= 1 && o < rateI_
      ensures Due(m + 1, o + rateD_) && (o + rateD_) % WIDTH == o + rateD_
      ensures m < CeilDiv(|history| * rateI_, rateD_)
    {
      hide CeilDiv;
      assert (|history| - 1) * rateI_ + rateI_ == |history| * rateI_;
      CeilDivAbove(|history| * rateI_, rateD_, m);
    }

    lemma NoneYet()
      requires Shape()
      ensures Correct([], used, history, rateI_, rateD_, made, convert)
    {
    }

    /** One more output is correct. */
    lemma OneMore(out: seq<Out>, y: real, o: nat, from: nat)
      requires Shape() && |history| >= 1 && Correct(out, used, history, rateI_, rateD_, from, convert)
      requires Due(from + |out|, o)
      requires y == Convolved(used, history, rateI_, (|history| - 1) * rateI_ + o, |used|)
      ensures Correct(out + [convert(y)], used, history, rateI_, rateD_, from, convert)
    {
      hide Convolved;
    }

    /** The loop over the outputs that fall to the latest sample. */
    method RunBranches(samplesOut: array<Out>, n: nat) returns (numOut: nat)
      requires Shape() && delayIndex_ < delayLine_.Length && samplesOut as object != delayLine_
      requires |history| >= 1 && Line(history, delayIndex_ + 1) && outIndex_ < rateD_ && Due(made, outIndex_)
      requires n <= samplesOut.Length && n + CeilDiv(|history| * rateI_, rateD_) - made <= samplesOut.Length
      modifies this`outIndex_, this`made, samplesOut
      ensures rateI_ <= outIndex_ < rateI_ + rateD_ && Due(made, outIndex_)
      ensures old(made) <= made && numOut == n + made - old(made) <= samplesOut.Length
      ensures Correct(samplesOut[n..numOut], used, history, rateI_, rateD_, old(made), convert)
      ensures samplesOut[..n] == old(samplesOut[..n]) && samplesOut[numOut..] == old(samplesOut[numOut..])
    {
      assert rateI_ >= 1;
      hide Convolved, CeilDiv, Past, Line, Shape, Correct, Due;
      numOut := n;
      NoneYet();
      assert samplesOut[n..n] == [];
      while outIndex_ < rateI_
        invariant outIndex_ < rateI_ + rateD_ && Due(made, outIndex_)
        invariant old(made) <= made && numOut == n + made - old(made) <= samplesOut.Length
        invariant Line(history, delayIndex_ + 1)
        invariant Correct(samplesOut[n..numOut], used, history, rateI_, rateD_, old(made), convert)
        invariant samplesOut[..n] == old(samplesOut[..n]) && samplesOut[numOut..] == old(samplesOut[numOut..])
        decreases rateI_ - outIndex_
      {
        DueStep(made, outIndex_);
        ghost var out := samplesOut[n..numOut];
        var sample := CalcPolyphase();
        OneMore(out, sample, outIndex_, old(made));
        samplesOut[numOut] := convert(sample);
        outIndex_ := (outIndex_ + rateD_) % WIDTH;
        numOut := numOut + 1;
        made := made + 1;
        assert samplesOut[n..numOut] == out + [convert(sample)];
        assert old(samplesOut[numOut..]) == old(samplesOut[..])[numOut - 1..][1..];
      }
    }

    lemma NextDue()
      requires Shape() && |history| >= 1 && made * rateD_ == (|history| - 1) * rateI_ + outIndex_
      ensures Due(made, outIndex_)
    {
    }

    lemma RestDue(m: nat, o: nat)
      requires Due(m, o) && |history| >= 1 && o >= rateI_
      ensures m * rateD_ == |history| * rateI_ + (o - rateI_)
    {
    }

    static lemma NextIndex(n: nat, size: nat)
      requires size >= 1
      ensures n % size < size && (n + 1) % size == if n % size + 1 >= size then 0 else n % size + 1
    {
      var q, r := n / size, n % size;
      DivMod(n, size);
      if r + 1 >= size {
        ModIs(n + 1, size, q + 1, 0);
      } else {
        ModIs(n + 1, size, q, r + 1);
      }
    }

    /** The whole state depends on the samples filtered so far and not on the calls. */
    static lemma StateIsOfHistory(f: RationalFIR<Out>, g: RationalFIR<Out>)
      requires f.Valid() && g.Valid() && f.history == g.history
      requires f.rateI_ == g.rateI_ && f.rateD_ == g.rateD_ && f.delayLine_.Length == g.delayLine_.Length
      ensures f.outIndex_ == g.outIndex_ && f.delayIndex_ == g.delayIndex_ && f.delayLine_[..] == g.delayLine_[..]
    {
      hide Past;
      CeilDivIs(|f.history| * f.rateI_, f.rateD_, f.made, f.outIndex_);
      CeilDivIs(|g.history| * g.rateI_, g.rateD_, g.made, g.outIndex_);
    }

    /** The body of the loop over the samples. */
    method FilterSample(x: real, samplesOut: array<Out>, n: nat) returns (numOut: nat)
      requires Valid() && samplesOut as object != delayLine_ && n <= samplesOut.Length
      requires n + CeilDiv((|history| + 1) * rateI_, rateD_) - made <= samplesOut.Length
      modifies this`delayIndex_, this`outIndex_, this`history, this`made, delayLine_, samplesOut
      ensures Valid() && history == old(history) + [x]
      ensures old(made) <= made && numOut == n + made - old(made) <= samplesOut.Length
      ensures Correct(samplesOut[n..numOut], used, history, rateI_, rateD_, old(made), convert)
      ensures samplesOut[..n] == old(samplesOut[..n]) && samplesOut[numOut..] == old(samplesOut[numOut..])
    {
      hide Convolved, CeilDiv, Correct, Due;
      delayLine_[delayIndex_] := x;
      NextIndex(|history|, delayLine_.Length);
      history := history + [x];
      NextDue();
      numOut := RunBranches(samplesOut, n);
      RestDue(made, outIndex_);
      outIndex_ := outIndex_ - rateI_;
      delayIndex_ := delayIndex_ + 1;
      if delayIndex_ >= delayLine_.Length {
        delayIndex_ := 0;
      }
    }

    /** How many outputs are made is all that is left of the past in the count. */
    lemma MadeIs()
      requires Valid()
      ensures made == CeilDiv(|history| * rateI_, rateD_) == |Stream(used, history, rateI_, rateD_, convert)|
    {
      CeilDivIs(|history| * rateI_, rateD_, made, outIndex_);
    }

    lemma MadeSoFar(out: seq<Out>, h: seq<real>, x: seq<real>, from: nat)
      requires Valid() && history == h + x && Correct(out, used, h, rateI_, rateD_, from, convert)
      requires (from + |out|) * rateD_ < |h| * rateI_ + rateD_
      ensures Correct(out, used, history, rateI_, rateD_, from, convert)
    {
      hide Correct;
      StillCorrect(out, used, h, x, rateI_, rateD_, from, convert);
    }

    /** The samples that come out, in `samplesOut`, continue what should have come out for
        the whole input so far, however it was cut into calls. */
    method Filter(samplesIn: seq<real>, samplesOut: array<Out>) returns (numOut: nat)
      requires Valid() && samplesOut as object != delayLine_
      requires |Stream(used, history + samplesIn, rateI_, rateD_, convert)| <=
               |Stream(used, history, rateI_, rateD_, convert)| + samplesOut.Length
      modifies this`delayIndex_, this`outIndex_, this`history, this`made, delayLine_, samplesOut
      ensures Valid() && history == old(history) + samplesIn && numOut <= samplesOut.Length
      ensures Stream(used, history, rateI_, rateD_, convert) ==
              Stream(used, old(history), rateI_, rateD_, convert) + samplesOut[..numOut]
      ensures samplesOut[numOut..] == old(samplesOut[numOut..])
    {
      hide Convolved, CeilDiv, Correct, Line;
      numOut := 0;
      NoneYet();
      MadeIs();
      assert samplesOut[..0] == [];
      for i := 0 to |samplesIn|
        invariant Valid() && history == old(history) + samplesIn[..i]
        invariant old(made) <= made && numOut == made - old(made) <= samplesOut.Length
        invariant Correct(samplesOut[..numOut], used, history, rateI_, rateD_, old(made), convert)
        invariant samplesOut[numOut..] == old(samplesOut[numOut..])
      {
        ghost var h, n, m, out := history, numOut, made, samplesOut[..numOut];
        RoomForOne(samplesIn, i, samplesOut.Length, old(history), old(made));
        numOut := FilterSample(samplesIn[i], samplesOut, numOut);
        MadeSoFar(out, h, [samplesIn[i]], old(made));
        CorrectAppend(out, samplesOut[n..numOut], used, history, rateI_, rateD_, old(made), convert);
        assert samplesOut[..numOut] == out + samplesOut[n..numOut];
      }
      assert samplesIn[..|samplesIn|] == samplesIn;
      MadeIs();
      StreamIs(samplesOut[..numOut], used, old(history), samplesIn, rateI_, rateD_, old(made), convert);
    }

    lemma RoomForOne(samplesIn: seq<real>, i: nat, size: nat, h: seq<real>, m: nat)
      requires Shape() && i < |samplesIn| && |history| == |h| + i
      requires CeilDiv((|h| + |samplesIn|) * rateI_, rateD_) <= m + size
      ensures CeilDiv((|history| + 1) * rateI_, rateD_) <= m + size
    {
      hide CeilDiv;
      MulMono(|history| + 1, |h| + |samplesIn|, rateI_);
      CeilDivMonotone((|history| + 1) * rateI_, (|h| + |samplesIn|) * rateI_, rateD_);
    }
  }
}
