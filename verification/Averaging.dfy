/** The stage that averages the spectra of `avg_factor` segments. */
module Averaging {

  datatype Complex = Complex(re: real, im: real)

  /** A segment as this stage gets it: its spectrum is complete. */
  class SpectrumSegment {
    const centerFrequency: nat
    const iqSamplesFreq: seq<Complex>
    var psdValues: seq<real>

    constructor (centerFrequency: nat, iqSamplesFreq: seq<Complex>)
      ensures this.centerFrequency == centerFrequency && this.iqSamplesFreq == iqSamplesFreq
    {
      this.centerFrequency, this.iqSamplesFreq, psdValues := centerFrequency, iqSamplesFreq, [];
    }
  }

  type Stream = seq<SpectrumSegment>

  // ---- Reference ---------------------------------------------------------------

  ghost predicate Uniform(s: Stream) {
    forall i, j :: 0 <= i < j < |s| ==> s[i].centerFrequency == s[j].centerFrequency
  }

  /** The groups that are completed: whole groups of `a` segments, up to the first one of
      mixed frequencies. */
  ghost function Done(s: Stream, a: nat): seq<Stream>
    requires a >= 1
    decreases |s|
  {
    if |s| >= a && Uniform(s[..a]) then [s[..a]] + Done(s[a..], a) else []
  }

  /** What is held back after them. */
  ghost function Held(s: Stream, a: nat): Stream
    requires a >= 1
    decreases |s|
  {
    if |s| >= a && Uniform(s[..a]) then Held(s[a..], a) else s
  }

  ghost function Flatten<T>(gs: seq<seq<T>>): seq<T> {
    if gs == [] then [] else gs[0] + Flatten(gs[1..])
  }

  /** The segments that carry the averages: the first of each group. */
  ghost function Firsts(gs: seq<Stream>): Stream
    requires forall i :: 0 <= i < |gs| ==> gs[i] != []
  {
    seq(|gs|, i requires 0 <= i < |gs| => gs[i][0])
  }

  /** The segments that are released: the others of each group. */
  ghost function Others(gs: seq<Stream>): Stream
    requires forall i :: 0 <= i < |gs| ==> gs[i] != []
  {
    if gs == [] then [] else gs[0][1..] + Others(gs[1..])
  }

  function Power(x: Complex): real {
    x.re * x.re + x.im * x.im
  }

  ghost predicate Bins(s: Stream, bins: nat) {
    forall j :: 0 <= j < |s| ==> |s[j].iqSamplesFreq| == bins
  }

  /** The summed power of bin `i` over the first `n` segments. */
  ghost function PowerSum(s: Stream, bins: nat, i: nat, n: nat): real
    requires n <= |s| && Bins(s, bins) && i < bins
  {
    if n == 0 then 0.0 else PowerSum(s, bins, i, n - 1) + Power(s[n - 1].iqSamplesFreq[i])
  }

  /** The averaged spectrum of a group; `db` is the conversion to decibels. */
  ghost function Psd(s: Stream, bins: nat, db: real -> real): seq<real>
    requires |s| >= 1 && Bins(s, bins)
  {
    seq(bins, i requires 0 <= i < bins => db(PowerSum(s, bins, i, |s|) / |s| as real))
  }

  // ---- Power and mean --------------------------------------------------------------

  function Times(x: Complex, y: Complex): Complex {
    Complex(x.re * y.re - x.im * y.im, x.re * y.im + x.im * y.re)
  }

  /** Power is the square of the magnitude: it vanishes for 0 only, does not depend on the
      phase, is the square for real numbers, and the power of a product is the product of
      the powers. */
  lemma PowerIsMagnitudeSquared(x: Complex, y: Complex)
    ensures Power(x) >= 0.0 && (Power(x) == 0.0 <==> x == Complex(0.0, 0.0))
    ensures Power(Complex(-x.im, x.re)) == Power(x)
    ensures x.im == 0.0 ==> Power(x) == x.re * x.re
    ensures Power(Times(x, y)) == Power(x) * Power(y)
  {
    hide Times;
    SquareSign(x.re, x.re * x.re);
    SquareSign(x.im, x.im * x.im);
    PowerOfProduct(x, y);
  }

  lemma PowerOfProduct(x: Complex, y: Complex)
    ensures Power(Times(x, y)) == Power(x) * Power(y)
  {
    PowerTimes(x.re, x.im, y.re, y.im);
  }

  lemma SquareSign(a: real, c: real)
    requires c == a * a
    ensures c >= 0.0 && (c == 0.0 <==> a == 0.0)
  {
    if a > 0.0 {
      PositiveProduct(a, a, c);
    } else if a < 0.0 {
      PositiveProduct(-a, -a, c);
    }
  }

  lemma PositiveProduct(a: real, b: real, c: real)
    requires a > 0.0 && b > 0.0 && c == a * b
    ensures c > 0.0
  {
  }

  lemma PowerTimes(a: real, b: real, c: real, d: real)
    ensures (a * c - b * d) * (a * c - b * d) + (a * d + b * c) * (a * d + b * c) == (a * a + b * b) * (c * c + d * d)
  {
    var p, q, r, s := a * c, b * d, a * d, b * c;
    assert p * q == r * s == (a * b) * (c * d);
    assert p * p == (a * a) * (c * c) && q * q == (b * b) * (d * d);
    assert r * r == (a * a) * (d * d) && s * s == (b * b) * (c * c);
  }

  /** What the decibel conversion gets for bin `i`: a mean, which lies between the least and
      the greatest power of the group at that bin. */
  lemma MeanIsBetween(s: Stream, bins: nat, i: nat, db: real -> real, lo: real, hi: real) returns (mean: real)
    requires |s| >= 1 && Bins(s, bins) && i < bins
    requires forall j :: 0 <= j < |s| ==> lo <= Power(s[j].iqSamplesFreq[i]) <= hi
    ensures Psd(s, bins, db)[i] == db(mean) && lo <= mean <= hi
  {
    hide Power;
    SumIsBetween(s, bins, i, |s|, lo, hi);
    var sum, n := PowerSum(s, bins, i, |s|), |s| as real;
    mean := sum / n;
    assert mean * n == sum;
    RepeatedIs(lo, |s|);
    RepeatedIs(hi, |s|);
    AtMost(lo, mean, n, Repeated(lo, |s|), sum);
    AtMost(mean, hi, n, sum, Repeated(hi, |s|));
  }

  lemma AtMost(a: real, b: real, n: real, x: real, y: real)
    requires n > 0.0 && x == a * n && y == b * n && x <= y
    ensures a <= b
  {
    assert (b - a) * n >= 0.0;
  }

  /** `x`, `n` times over. */
  function Repeated(x: real, n: nat): real {
    if n == 0 then 0.0 else Repeated(x, n - 1) + x
  }

  lemma {:induction false} RepeatedIs(x: real, n: nat)
    ensures Repeated(x, n) == x * n as real
  {
    if n > 0 {
      RepeatedIs(x, n - 1);
      NextMultiple(x, (n - 1) as real, Repeated(x, n - 1), n as real);
    }
  }

  lemma NextMultiple(x: real, k: real, a: real, n: real)
    requires a == x * k && n == k + 1.0
    ensures a + x == x * n
  {
  }

  lemma {:induction false} SumIsBetween(s: Stream, bins: nat, i: nat, n: nat, lo: real, hi: real)
    requires n <= |s| && Bins(s, bins) && i < bins
    requires forall j :: 0 <= j < n ==> lo <= Power(s[j].iqSamplesFreq[i]) <= hi
    ensures Repeated(lo, n) <= PowerSum(s, bins, i, n) <= Repeated(hi, n)
  {
    hide Power;
    if n > 0 {
      SumIsBetween(s, bins, i, n - 1, lo, hi);
    }
  }

  /** A group of equal spectra averages to the power of each of them. */
  lemma EqualSpectra(s: Stream, bins: nat, i: nat, db: real -> real)
    requires |s| >= 1 && Bins(s, bins) && i < bins
    requires forall j :: 0 <= j < |s| ==> s[j].iqSamplesFreq == s[0].iqSamplesFreq
    ensures Psd(s, bins, db)[i] == db(Power(s[0].iqSamplesFreq[i]))
  {
    hide Power, Psd;
    var p := Power(s[0].iqSamplesFreq[i]);
    var mean := MeanIsBetween(s, bins, i, db, p, p);
  }

  /** The order of the segments within the group does not matter. */
  lemma OrderDoesNotMatter(s: Stream, t: Stream, bins: nat, db: real -> real)
    requires |s| >= 1 && |t| >= 1 && Bins(s, bins) && multiset(s) == multiset(t)
    ensures Bins(t, bins) && Psd(s, bins, db) == Psd(t, bins, db)
  {
    SameBins(s, t, bins);
    SameLength(s, t);
    forall i | 0 <= i < bins
      ensures PowerSum(s, bins, i, |s|) == PowerSum(t, bins, i, |t|)
    {
      SameSum(s, t, bins, i);
    }
  }

  lemma SameBins(s: Stream, t: Stream, bins: nat)
    requires Bins(s, bins) && multiset(s) == multiset(t)
    ensures Bins(t, bins)
  {
    forall j | 0 <= j < |t|
      ensures |t[j].iqSamplesFreq| == bins
    {
      assert t[j] in multiset(t);
      assert t[j] in multiset(s);
      assert t[j] in s;
    }
  }

  lemma SameLength(s: Stream, t: Stream)
    requires multiset(s) == multiset(t)
    ensures |s| == |t|
  {
    assert |multiset(s)| == |s| && |multiset(t)| == |t|;
  }

  function Without(s: Stream, k: nat): Stream
    requires k < |s|
  {
    s[..k] + s[k + 1..]
  }

  lemma {:induction false} SameSum(s: Stream, t: Stream, bins: nat, i: nat)
    requires Bins(s, bins) && Bins(t, bins) && i < bins && multiset(s) == multiset(t)
    ensures PowerSum(s, bins, i, |s|) == PowerSum(t, bins, i, |t|)
    decreases |s|
  {
    hide Power;
    SameLength(s, t);
    if s != [] {
      var n := |s| - 1;
      assert s[n] in multiset(s);
      assert s[n] in multiset(t);
      var k :| 0 <= k < |t| && t[k] == s[n];
      LastRemoved(s);
      OneRemoved(t, k);
      SameSum(s[..n], Without(t, k), bins, i);
      SumPrefix(s, s[..n], bins, i, n);
      SumWithout(t, bins, i, k, |t|);
    }
  }

  lemma LastRemoved(s: Stream)
    requires s != []
    ensures multiset(s[..|s| - 1]) == multiset(s) - multiset{s[|s| - 1]}
  {
    assert s == s[..|s| - 1] + [s[|s| - 1]];
  }

  lemma OneRemoved(t: Stream, k: nat)
    requires k < |t|
    ensures multiset(Without(t, k)) == multiset(t) - multiset{t[k]}
  {
    assert t == t[..k] + [t[k]] + t[k + 1..];
  }

  lemma {:induction false} SumPrefix(s: Stream, t: Stream, bins: nat, i: nat, n: nat)
    requires n <= |s| && n <= |t| && s[..n] == t[..n] && Bins(s, bins) && Bins(t, bins) && i < bins
    ensures PowerSum(s, bins, i, n) == PowerSum(t, bins, i, n)
  {
    if n > 0 {
      assert s[n - 1] == s[..n][n - 1] == t[..n][n - 1] == t[n - 1];
      assert s[..n - 1] == s[..n][..n - 1] == t[..n][..n - 1] == t[..n - 1];
      SumPrefix(s, t, bins, i, n - 1);
    }
  }

  lemma {:induction false} SumWithout(t: Stream, bins: nat, i: nat, k: nat, n: nat)
    requires k < n <= |t| && Bins(t, bins) && i < bins
    ensures Bins(Without(t, k), bins)
    ensures PowerSum(t, bins, i, n) == PowerSum(Without(t, k), bins, i, n - 1) + Power(t[k].iqSamplesFreq[i])
  {
    hide Power;
    var u := Without(t, k);
    if n == k + 1 {
      SumPrefix(t, u, bins, i, k);
    } else {
      SumWithout(t, bins, i, k, n - 1);
      assert u[n - 2] == t[n - 1];
    }
  }

  // ---- Groups --------------------------------------------------------------------

  /** The completed groups and what is held back are the whole stream, in order. */
  lemma {:induction false} NothingLost(s: Stream, a: nat)
    requires a >= 1
    ensures Flatten(Done(s, a)) + Held(s, a) == s
    decreases |s|
  {
    hide Uniform;
    if |s| >= a && Uniform(s[..a]) {
      var g, rest := s[..a], s[a..];
      NothingLost(rest, a);
      FlattenCons(g, Done(rest, a));
      assert s == g + (Flatten(Done(rest, a)) + Held(rest, a));
    }
  }

  lemma FlattenCons(g: Stream, gs: seq<Stream>)
    ensures Flatten([g] + gs) == g + Flatten(gs)
  {
    assert ([g] + gs)[1..] == gs;
  }

  lemma {:induction false} GroupsAreWhole(s: Stream, a: nat)
    requires a >= 1
    ensures forall i :: 0 <= i < |Done(s, a)| ==> |Done(s, a)[i]| == a && Uniform(Done(s, a)[i])
    decreases |s|
  {
    hide Uniform;
    if |s| >= a && Uniform(s[..a]) {
      GroupsAreWhole(s[a..], a);
    }
  }

  /** One more segment completes the group it belongs to, or is held back as well. */
  lemma {:induction false} OneMore(s: Stream, x: SpectrumSegment, a: nat)
    requires a >= 1
    ensures var h := Held(s, a) + [x];
            var complete := |h| == a && Uniform(h);
            && Done(s + [x], a) == (if complete then Done(s, a) + [h] else Done(s, a))
            && Held(s + [x], a) == (if complete then [] else h)
    decreases |s|
  {
    hide Uniform;
    var t := s + [x];
    if |s| >= a {
      assert t[..a] == s[..a];
      if Uniform(s[..a]) {
        assert t[a..] == s[a..] + [x];
        OneMore(s[a..], x, a);
      }
    } else if |t| >= a {
      assert t[..a] == t;
      assert t[a..] == [];
    }
  }

  /** The stream cut into whole groups, mixed or not. */
  function Chunks(s: Stream, a: nat): seq<Stream>
    requires a >= 1
    decreases |s|
  {
    if |s| < a then [] else [s[..a]] + Chunks(s[a..], a)
  }

  /** All whole groups are completed if and only if none is mixed. */
  lemma {:induction false} AllDoneExactlyWhen(s: Stream, a: nat)
    requires a >= 1
    ensures |Held(s, a)| < a <==> forall i :: 0 <= i < |Chunks(s, a)| ==> Uniform(Chunks(s, a)[i])
    ensures |Held(s, a)| < a ==> Done(s, a) == Chunks(s, a)
    decreases |s|
  {
    hide Uniform;
    if |s| >= a {
      var c, d := Chunks(s, a), Chunks(s[a..], a);
      assert c[0] == s[..a];
      assert forall i :: 0 <= i < |d| ==> c[i + 1] == d[i];
      if Uniform(s[..a]) {
        AllDoneExactlyWhen(s[a..], a);
        assert forall i :: 0 < i < |c| ==> c[i] == d[i - 1];
      }
    }
  }

  /** After a mixed group no group is completed ever again. */
  lemma {:induction false} Wedged(s: Stream, more: Stream, a: nat)
    requires a >= 1 && |Held(s, a)| >= a
    ensures Done(s + more, a) == Done(s, a) && Held(s + more, a) == Held(s, a) + more
    decreases |s|
  {
    hide Uniform;
    assert (s + more)[..a] == s[..a];
    if Uniform(s[..a]) {
      assert (s + more)[a..] == s[a..] + more;
      Wedged(s[a..], more, a);
    }
  }

  /** Every segment ends up in exactly one place: sent on, released, or held back. */
  lemma {:induction false} EverySegmentOnce(gs: seq<Stream>)
    requires forall i :: 0 <= i < |gs| ==> gs[i] != []
    ensures multiset(Flatten(gs)) == multiset(Firsts(gs)) + multiset(Others(gs))
  {
    if gs != [] {
      EverySegmentOnce(gs[1..]);
      assert gs[0] == [gs[0][0]] + gs[0][1..];
      assert Firsts(gs) == [gs[0][0]] + Firsts(gs[1..]);
    }
  }

  /** Passes of `a` segments of one frequency each, and part of another one, are exactly
      the completed groups, and what is held back. */
  lemma {:induction false} PassesAreGroups(passes: seq<Stream>, part: Stream, a: nat)
    requires a >= 1 && |part| < a
    requires forall i :: 0 <= i < |passes| ==> |passes[i]| == a && Uniform(passes[i])
    ensures Done(Flatten(passes) + part, a) == passes
    ensures Held(Flatten(passes) + part, a) == part
  {
    hide Uniform;
    var s := Flatten(passes) + part;
    if passes != [] {
      assert s == passes[0] + (Flatten(passes[1..]) + part);
      assert s[..a] == passes[0];
      assert s[a..] == Flatten(passes[1..]) + part;
      PassesAreGroups(passes[1..], part, a);
    } else {
      assert s == part;
    }
  }

  /** Whatever prefix of such passes arrives, only passes are completed, in order, and less
      than one is held back. */
  lemma {:induction false} OnlyPassesAreDone(passes: seq<Stream>, s: Stream, a: nat)
    requires a >= 1 && s <= Flatten(passes)
    requires forall i :: 0 <= i < |passes| ==> |passes[i]| == a && Uniform(passes[i])
    ensures Done(s, a) <= passes && |Held(s, a)| < a
  {
    hide Uniform;
    if passes != [] {
      var rest := Flatten(passes[1..]);
      assert Flatten(passes) == passes[0] + rest;
      if |s| >= a {
        assert s[..a] == Flatten(passes)[..|s|][..a] == passes[0];
        assert s[a..] == Flatten(passes)[..|s|][a..] == rest[..|s| - a];
        OnlyPassesAreDone(passes[1..], s[a..], a);
        assert passes == [passes[0]] + passes[1..];
      }
    }
  }

  // ---- The stage ---------------------------------------------------------------

  class Averaging {
    const fft_size: nat
    const avg_factor: nat
    const db: real -> real
    var avgVector: Stream
    var queueOut: Stream
    ghost var received: Stream
    ghost var released: Stream

    ghost predicate Valid()
      reads this, queueOut
    {
      && avg_factor >= 1 && fft_size >= 1 && Bins(avgVector, fft_size)
      && avgVector == Held(received, avg_factor)
      && Sent(Done(received, avg_factor), queueOut)
      && released == Others(Done(received, avg_factor))
      && (forall x :: x in avgVector ==> x !in queueOut) && (forall x :: x in queueOut ==> x in received)
    }

    /** The averages of the groups have been sent, each in the first segment of its group. */
    ghost predicate Sent(gs: seq<Stream>, out: Stream)
      reads out
    {
      && (forall i :: 0 <= i < |gs| ==> gs[i] != [] && Bins(gs[i], fft_size))
      && out == Firsts(gs) && forall i :: 0 <= i < |gs| ==> out[i].psdValues == Psd(gs[i], fft_size, db)
    }

    constructor (fft_size: nat, avg_factor: nat, db: real -> real)
      requires fft_size >= 1 && avg_factor >= 1
      ensures Valid() && received == [] && this.avg_factor == avg_factor && this.fft_size == fft_size
      ensures this.db == db
    {
      this.fft_size, this.avg_factor, this.db := fft_size, avg_factor, db;
      avgVector, queueOut, received, released := [], [], [], [];
    }

    /** The check that all segments have the same center frequency. */
    method WrongFrequency() returns (wrong_cf: bool)
      requires |avgVector| == avg_factor >= 1
      ensures wrong_cf <==> !Uniform(avgVector)
    {
      wrong_cf := false;
      for i := 1 to avg_factor
        invariant wrong_cf <==> !Uniform(avgVector[..i])
      {
        if avgVector[i - 1].centerFrequency != avgVector[i].centerFrequency {
          wrong_cf := true;
        }
        NextUniform(avgVector, i);
      }
      assert avgVector[..avg_factor] == avgVector;
    }

    static lemma NextUniform(s: Stream, i: nat)
      requires 0 < i < |s|
      ensures Uniform(s[..i + 1]) <==> Uniform(s[..i]) && s[i - 1].centerFrequency == s[i].centerFrequency
    {
      assert s[..i + 1] == s[..i] + [s[i]];
    }

    /** The loop over the bins. */
    method Average() returns (psd_avg: seq<real>)
      requires |avgVector| == avg_factor >= 1 && Bins(avgVector, fft_size)
      ensures psd_avg == Psd(avgVector, fft_size, db)
    {
      psd_avg := [];
      for i := 0 to fft_size
        invariant |psd_avg| == i
        invariant forall k :: 0 <= k < i ==>
                    psd_avg[k] == db(PowerSum(avgVector, fft_size, k, avg_factor) / avg_factor as real)
      {
        var power := 0.0;
        for j := 0 to |avgVector|
          invariant power == PowerSum(avgVector, fft_size, i, j)
        {
          power := power + Power(avgVector[j].iqSamplesFreq[i]);
        }
        psd_avg := psd_avg + [db(power / avg_factor as real)];
      }
    }

    /** What the loop does with a segment from the queue. */
    method Process(segment: SpectrumSegment)
      requires Valid() && segment !in received && |segment.iqSamplesFreq| == fft_size
      modifies this, avgVector, segment
      ensures Valid() && received == old(received) + [segment]
    {
      hide Uniform, Psd, Sent, Done, Held, Others;
      OneMore(received, segment, avg_factor);
      HeldWasReceived(received, avg_factor);
      avgVector := avgVector + [segment];
      received := received + [segment];
      if |avgVector| == avg_factor {
        var wrong_cf := WrongFrequency();
        if wrong_cf {
          return;
        }
        var psd_avg := Average();
        assert avgVector[0] !in queueOut;
        avgVector[0].psdValues := psd_avg;
        queueOut := queueOut + [avgVector[0]];
        released := released + avgVector[1..];
        OneMoreGroup(old(queueOut), Done(old(received), avg_factor), avgVector);
        avgVector := [];
      }
    }

    static lemma HeldWasReceived(s: Stream, a: nat)
      requires a >= 1
      ensures forall x :: x in Held(s, a) ==> x in s
    {
      NothingLost(s, a);
    }

    lemma OneMoreGroup(out: Stream, gs: seq<Stream>, g: Stream)
      requires Sent(gs, out) && g != [] && Bins(g, fft_size) && g[0].psdValues == Psd(g, fft_size, db)
      ensures Sent(gs + [g], out + [g[0]]) && Others(gs + [g]) == Others(gs) + g[1..]
    {
      hide Psd;
      OthersAppend(gs, g);
    }

    static lemma {:induction false} OthersAppend(gs: seq<Stream>, g: Stream)
      requires g != [] && forall i :: 0 <= i < |gs| ==> gs[i] != []
      ensures Others(gs + [g]) == Others(gs) + g[1..]
    {
      if gs != [] {
        assert (gs + [g])[1..] == gs[1..] + [g];
        OthersAppend(gs[1..], g);
      } else {
        assert (gs + [g])[1..] == [];
      }
    }
  }
}
