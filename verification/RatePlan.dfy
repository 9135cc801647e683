/** How the resampler picks its rates: a power of two for the decimator and a fraction in
    lowest terms for the filter after it. Rates are exact reals. */
module RatePlan {
  import opened Bits
  import CIC

  const WIDTH: nat := 0x1_0000_0000   // values of unsigned int

  ghost predicate Divides(d: nat, n: nat) {
    exists k: nat :: n == d * k
  }

  lemma DividesTimes(d: nat, k: nat)
    ensures Divides(d, d * k)
  {
  }

  lemma DividesMultiple(d: nat, n: nat, q: nat)
    requires Divides(d, n)
    ensures Divides(d, q * n)
  {
    var k: nat :| n == d * k;
    assert q * n == d * (q * k);
  }

  lemma DividesSum(d: nat, x: nat, y: nat)
    requires Divides(d, x)
    ensures Divides(d, x + y) <==> Divides(d, y)
  {
    var k: nat :| x == d * k;
    if Divides(d, y) {
      var j: nat :| y == d * j;
      assert x + y == d * (k + j);
    }
    if Divides(d, x + y) {
      var j: nat :| x + y == d * j;
      if j >= k {
        assert y == d * (j - k);
      } else {
        MulMono(j, k, d);
        assert y == d * 0;
      }
    }
  }

  lemma DividesMod(d: nat, a: nat, b: nat)
    requires b > 0 && Divides(d, b)
    ensures Divides(d, a) <==> Divides(d, a % b)
  {
    hide Divides;
    DivMod(a, b);
    DividesMultiple(d, b, a / b);
    DividesSum(d, a / b * b, a % b);
  }

  /** Euclid's algorithm. */
  method Gcd(v1: nat, v2: nat) returns (r: nat)
    ensures Divides(r, v1) && Divides(r, v2)
    ensures forall d: nat :: Divides(d, v1) && Divides(d, v2) ==> Divides(d, r)
    ensures r == 0 <==> v1 == v2 == 0
  {
    hide Divides;
    var a, b := v1, v2;
    while b != 0
      invariant forall d: nat :: Divides(d, a) && Divides(d, b) <==> Divides(d, v1) && Divides(d, v2)
      invariant a == b == 0 <==> v1 == v2 == 0
      decreases b
    {
      forall d: nat | Divides(d, b)
        ensures Divides(d, a) <==> Divides(d, a % b)
      {
        DividesMod(d, a, b);
      }
      var tmp := b;
      b := a % b;
      a := tmp;
    }
    DividesTimes(a, 1);
    DividesTimes(a, 0);
    forall d: nat
      ensures Divides(d, 0)
    {
      DividesTimes(d, 0);
    }
    r := a;
  }

  /** Only 1 divides both. */
  ghost predicate Coprime(a: nat, b: nat) {
    forall d: nat :: Divides(d, a) && Divides(d, b) ==> d == 1
  }

  lemma DividesProduct(d: nat, g: nat, a: nat)
    requires Divides(d, a)
    ensures Divides(d * g, a * g)
  {
    var k: nat :| a == d * k;
    assert a * g == (d * g) * k;
  }

  lemma OnlyOne(d: nat, g: nat)
    requires g > 0 && Divides(d * g, g)
    ensures d == 1
  {
    var k: nat :| g == (d * g) * k;
    assert g == (d * k) * g;
    if d * k == 0 {
      assert false;
    } else if d * k >= 2 {
      MulMono(2, d * k, g);
      assert false;
    }
    if d >= 2 {
      MulMono(1, k, d);
    }
  }

  /** Dividing by the greatest common divisor leaves lowest terms. */
  lemma Reduced(x: nat, y: nat, g: nat)
    requires g > 0 && Divides(g, x) && Divides(g, y)
    requires forall d: nat :: Divides(d, x) && Divides(d, y) ==> Divides(d, g)
    ensures x == x / g * g && y == y / g * g && Coprime(x / g, y / g)
  {
    Exactly(x, g);
    Exactly(y, g);
    forall d: nat | Divides(d, x / g) && Divides(d, y / g)
      ensures d == 1
    {
      DividesProduct(d, g, x / g);
      DividesProduct(d, g, y / g);
      OnlyOne(d, g);
    }
  }

  lemma Exactly(x: nat, g: nat)
    requires g > 0 && Divides(g, x)
    ensures x == x / g * g
  {
    var k: nat :| x == g * k;
    ModIs(x, g, k, 0);
  }

  // ---- The decimation rate of the first stage ----------------------------------

  /** `k` is the least exponent that brings the rate below `target`. */
  ghost predicate LeastPower(inputRate: real, target: real, k: nat) {
    && inputRate / Pow2(k) as real < target
    && (k > 0 ==> inputRate / Pow2(k - 1) as real >= target)
  }

  lemma DividedLess(x: real, d: real, t: real)
    requires d > 0.0
    ensures x / d < t <==> x < t * d
  {
    assert x == (x / d) * d;
  }

  lemma TimesMonotone(t: real, a: real, b: real)
    requires t >= 0.0 && a <= b
    ensures t * a <= t * b
  {
  }

  function Scaled(target: real, k: nat): real {
    target * Pow2(k) as real
  }

  lemma ScaledMonotone(target: real, j: nat, k: nat)
    requires target >= 0.0 && j <= k
    ensures Scaled(target, j) <= Scaled(target, k)
  {
    Pow2Monotone(j, k);
    TimesMonotone(target, Pow2(j) as real, Pow2(k) as real);
  }

  lemma LeastPowerMeans(inputRate: real, target: real, k: nat)
    ensures LeastPower(inputRate, target, k) <==>
            inputRate < Scaled(target, k) && (k > 0 ==> inputRate >= Scaled(target, k - 1))
  {
    hide Pow2;
    DividedLess(inputRate, Pow2(k) as real, target);
    if k > 0 {
      DividedLess(inputRate, Pow2(k - 1) as real, target);
    }
  }

  lemma LeastPowerIsLeast(inputRate: real, target: real, k: nat, j: nat)
    requires LeastPower(inputRate, target, k) && target > 0.0
    ensures inputRate / Pow2(j) as real < target <==> k <= j
  {
    hide Pow2, LeastPower, Scaled;
    LeastPowerMeans(inputRate, target, k);
    Below(inputRate, target, j);
    if k <= j {
      ScaledMonotone(target, k, j);
    } else {
      ScaledMonotone(target, j, k - 1);
    }
  }

  lemma Below(inputRate: real, target: real, j: nat)
    ensures inputRate / Pow2(j) as real < target <==> inputRate < Scaled(target, j)
  {
    hide Pow2;
    DividedLess(inputRate, Pow2(j) as real, target);
  }

  /** The decimator halves the rate as long as that keeps `factor` times the output
      rate. */
  method PlanDecimation(inputRate: real, outputRate: real, factor: nat) returns (cicR: nat, cicD: nat)
    requires outputRate > 0.0 && factor >= 1 && 0.0 <= inputRate < Pow2(31) as real * (factor as real * outputRate)
    ensures 1 <= cicR <= 32 && cicD == Pow2(cicR - 1)
    ensures LeastPower(inputRate, factor as real * outputRate, cicR - 1)
  {
    hide Pow2;
    cicR, cicD := 1, 1;
    PowZero();
    while inputRate / cicD as real >= factor as real * outputRate
      invariant 1 <= cicR <= 32 && cicD == Pow2(cicR - 1)
      invariant cicR > 1 ==> inputRate / Pow2(cicR - 2) as real >= factor as real * outputRate
      decreases 32 - cicR
    {
      if cicR == 32 {
        DividedLess(inputRate, cicD as real, factor as real * outputRate);
        assert false;
      }
      Doubled(cicR - 1);
      cicR := cicR + 1;
      cicD := cicD * 2;
    }
  }

  // ---- The whole plan ----------------------------------------------------------

  datatype Plan = Plan(cicR: nat, cicD: nat, interpolation: nat, decimation: nat, actualOutputRate: real)

  /** The plan brings the rate down to where the second stage wants it and turns the
      whole parts of the rates into a fraction in lowest terms. */
  ghost predicate Sound(p: Plan, inputRate: real, outputRate: real, factor: nat) {
    && 1 <= p.cicR <= 32 && p.cicD == Pow2(p.cicR - 1)
    && LeastPower(inputRate, factor as real * outputRate, p.cicR - 1)
    && p.interpolation >= 1 && p.decimation >= 1 && Coprime(p.interpolation, p.decimation)
    && p.interpolation * (inputRate / p.cicD as real).Floor == p.decimation * outputRate.Floor
    && p.actualOutputRate * p.decimation as real == inputRate / p.cicD as real * p.interpolation as real
  }

  /** A rate that does not reach one sample at the second stage cannot be planned for. */
  method PlanRates(inputRate: real, outputRate: real, factor: nat, maxInterpolation: nat) returns (ok: bool, p: Plan)
    requires 1.0 <= outputRate < WIDTH as real && 1.0 <= inputRate < WIDTH as real
    requires factor >= 1 && 2.0 <= factor as real * outputRate
    requires inputRate < Pow2(31) as real * (factor as real * outputRate)
    ensures Sound(p, inputRate, outputRate, factor) && (ok <==> p.interpolation <= maxInterpolation)
  {
    hide Pow2, LeastPower, Coprime;
    var cicR, cicD := PlanDecimation(inputRate, outputRate, factor);
    var firInputRate := inputRate / cicD as real;
    AtLeastOne(inputRate, factor as real * outputRate, cicR - 1);
    var interpolation, decimation := Reduce(outputRate.Floor, firInputRate.Floor);
    var actual := firInputRate;
    actual := actual * interpolation as real;
    actual := actual / decimation as real;
    p := Plan(cicR, cicD, interpolation, decimation, actual);
    ok := interpolation <= maxInterpolation;
  }

  /** The part of PlanRates that brings a fraction to lowest terms. */
  method Reduce(x: nat, y: nat) returns (l: nat, d: nat)
    requires x >= 1 && y >= 1
    ensures l >= 1 && d >= 1 && Coprime(l, d) && l * y == d * x
  {
    hide Coprime, Divides;
    var g := Gcd(y, x);
    Reduced(y, x, g);
    CoprimeSymmetric(y / g, x / g);
    CrossProduct(x / g, y / g, g);
    l, d := x / g, y / g;
  }

  lemma CoprimeSymmetric(a: nat, b: nat)
    requires Coprime(a, b)
    ensures Coprime(b, a)
  {
    hide Divides;
  }

  lemma CrossProduct(l: nat, d: nat, g: nat)
    ensures l * (d * g) == d * (l * g)
  {
  }

  /** If the decimator is used at all, it leaves at least half of the target rate. */
  lemma AtLeastOne(inputRate: real, target: real, k: nat)
    requires LeastPower(inputRate, target, k)
    ensures if k == 0 then inputRate / Pow2(k) as real == inputRate else 2.0 * (inputRate / Pow2(k) as real) >= target
  {
    hide Pow2;
    PowZero();
    if k > 0 {
      Doubled(k - 1);
      Halved(inputRate, Pow2(k - 1) as real);
      assert Pow2(k) as real == 2.0 * Pow2(k - 1) as real;
    }
  }

  lemma Halved(x: real, d: real)
    requires d > 0.0
    ensures 2.0 * (x / (2.0 * d)) == x / d
  {
    var h := x / (2.0 * d);
    assert h * (2.0 * d) == x;
    assert (2.0 * h) * d == x;
  }

  /** With the factor the resampler uses, what reaches the second stage is at least twice
      the output rate if the decimator is used, and the fraction is never above one. */
  lemma NeverInterpolatesUp(p: Plan, inputRate: real, outputRate: real, factor: nat)
    requires Sound(p, inputRate, outputRate, factor) && outputRate <= inputRate && factor >= 2 && outputRate >= 1.0
    ensures p.cicD >= 1 && (p.cicR > 1 ==> 2.0 * (inputRate / p.cicD as real) >= factor as real * outputRate)
    ensures p.interpolation <= p.decimation
  {
    hide LeastPower, Coprime, Pow2;
    var fir := inputRate / p.cicD as real;
    LeavesEnough(inputRate, outputRate, factor, p.cicR);
    FractionAtMostOne(p.interpolation, p.decimation, fir.Floor, outputRate.Floor);
  }

  lemma LeavesEnough(inputRate: real, outputRate: real, factor: nat, cicR: nat)
    requires cicR >= 1 && LeastPower(inputRate, factor as real * outputRate, cicR - 1)
    requires outputRate <= inputRate && factor >= 2 && outputRate >= 1.0
    ensures cicR > 1 ==> 2.0 * (inputRate / Pow2(cicR - 1) as real) >= factor as real * outputRate
    ensures inputRate / Pow2(cicR - 1) as real >= outputRate
  {
    hide LeastPower, Pow2;
    AtLeastOne(inputRate, factor as real * outputRate, cicR - 1);
    RealTimesMonotone(2.0, factor as real, outputRate);
  }

  lemma RealTimesMonotone(a: real, b: real, t: real)
    requires t >= 0.0 && a <= b
    ensures a * t <= b * t
  {
  }

  lemma FractionAtMostOne(l: nat, d: nat, x: int, y: int)
    requires l * x == d * y && x >= y >= 1
    ensures l <= d
  {
    MulMono(y, x, d);
    assert (d + 1) * x == d * x + x;
    if l > d {
      MulMono(d + 1, l, x);
    }
  }

  /** The two stages together: the rate that is reported is the input rate times the
      fraction, divided by the decimation of the first stage, whose whole part the fraction
      is made for; and it is off by no more than the parts of the rates after the point. */
  lemma EndToEndRate(p: Plan, inputRate: real, outputRate: real, factor: nat)
    requires Sound(p, inputRate, outputRate, factor) && inputRate >= 0.0
    ensures p.actualOutputRate * (p.cicD * p.decimation) as real == inputRate * p.interpolation as real
    ensures p.cicD >= 1 && p.interpolation * (inputRate / p.cicD as real).Floor == p.decimation * outputRate.Floor
    ensures 0.0 <= (p.actualOutputRate - outputRate.Floor as real) * p.decimation as real < p.interpolation as real
  {
    hide LeastPower, Coprime, Pow2;
    var r, c, d, l := inputRate / p.cicD as real, p.cicD as real, p.decimation as real, p.interpolation as real;
    assert r * c == inputRate;
    assert p.actualOutputRate * (c * d) == (p.actualOutputRate * d) * c == r * l * c == r * c * l;
    WholePart(p.interpolation, r, p.decimation, outputRate.Floor);
    assert (p.actualOutputRate - outputRate.Floor as real) * d == r * l - outputRate.Floor as real * d;
  }

  lemma WholePart(l: nat, r: real, d: nat, y: int)
    requires l >= 1 && l * r.Floor == d * y
    ensures 0.0 <= r * l as real - y as real * d as real < l as real
  {
    var x, n := r.Floor as real, l as real;
    var a, b, c := x * n, r * n, y as real * d as real;
    assert c == (d * y) as real == (l * r.Floor) as real == a;
    Between(x, r, n, a, b);
  }

  lemma Between(x: real, r: real, l: real, a: real, b: real)
    requires x <= r < x + 1.0 && l > 0.0 && a == x * l && b == r * l
    ensures a <= b < a + l
  {
    var w := (x + 1.0 - r) * l;
    PositiveProduct(x + 1.0 - r, l, w);
    assert w == a + l - b;
    RealTimesMonotone(x, r, l);
  }

  lemma PositiveProduct(a: real, b: real, c: real)
    requires a > 0.0 && b > 0.0 && c == a * b
    ensures c > 0.0
  {
  }

  /** Whole rates are met exactly. */
  lemma WholeRatesAreMet(p: Plan, inputRate: real, outputRate: real, factor: nat)
    requires Sound(p, inputRate, outputRate, factor)
    requires (inputRate / p.cicD as real).Floor as real == inputRate / p.cicD as real
    requires outputRate.Floor as real == outputRate
    ensures p.actualOutputRate == outputRate
  {
    hide LeastPower, Coprime, Pow2;
    var d := p.decimation as real;
    assert p.actualOutputRate * d == outputRate * d;
    assert p.actualOutputRate == (outputRate * d) / d;
  }

  // ---- What the decimator's register can take ----------------------------------

  lemma {:induction false} PowerOfPow2(k: nat, e: nat)
    ensures CIC.Power(Pow2(k), e) == Pow2(k * e)
  {
    if e > 0 {
      PowerOfPow2(k, e - 1);
      Pow2Sum(k * (e - 1), k);
      assert k * (e - 1) + k == k * e;
    }
  }

  lemma RegisterIsPow2()
    ensures Pow2(32) == CIC.WIDTH && Pow2(30) == 0x4000_0000 && Pow2(24) == 0x100_0000
  {
    assert Pow2(8) == 256;
    Pow2Sum(8, 8);
    Pow2Sum(16, 8);
    Pow2Sum(24, 6);
    assert Pow2(6) == 64;
    Pow2Sum(24, 8);
  }

  /** With the default order 6 and factor 4, byte samples come out of the decimator without
      loss if and only if the rates are less than 64 apart. */
  lemma BytesLosslessExactlyWhen(inputRate: real, outputRate: real, k: nat)
    requires LeastPower(inputRate, 4.0 * outputRate, k) && outputRate > 0.0
    ensures CIC.Lossless(Pow2(k), 6, 255) <==> inputRate < 64.0 * outputRate
  {
    hide Pow2, LeastPower, CIC.Lossless, CIC.Power;
    CIC.LosslessExactlyWhen(Pow2(k), 6, 255);
    PowerOfPow2(k, 6);
    RegisterIsPow2();
    if k <= 4 {
      Pow2Monotone(6 * k, 24);
    } else {
      Pow2Monotone(30, 6 * k);
    }
    RatioBelow(inputRate, outputRate, k, 4);
    SmallPowers();
  }

  /** The decimator's divisor, its growth as the register shows it, is zero if and only if
      the rates are at least 128 apart. */
  lemma GrowthVanishesExactlyWhen(inputRate: real, outputRate: real, k: nat)
    requires LeastPower(inputRate, 4.0 * outputRate, k) && outputRate > 0.0
    ensures CIC.Power(Pow2(k), 6) % CIC.WIDTH == 0 <==> inputRate >= 128.0 * outputRate
  {
    hide Pow2, LeastPower, CIC.Power;
    PowerOfPow2(k, 6);
    RegisterIsPow2();
    if k <= 5 {
      Pow2Monotone(6 * k, 30);
      ModIs(Pow2(6 * k), CIC.WIDTH, 0, Pow2(6 * k));
    } else {
      Pow2Sum(6 * k - 32, 32);
      ModIs(Pow2(6 * k), CIC.WIDTH, Pow2(6 * k - 32), 0);
    }
    RatioBelow(inputRate, outputRate, k, 5);
    SmallPowers();
  }

  /** So it is for the rates used when no decoder is selected, 2.4 MHz and 6 kHz. */
  lemma GrowthVanishesForTheDefaults()
    ensures LeastPower(2400000.0, 4.0 * 6000.0, 7) && CIC.Power(Pow2(7), 6) % CIC.WIDTH == 0
  {
    hide CIC.Power;
    assert Pow2(6) == 64 && Pow2(7) == 128;
    GrowthVanishesExactlyWhen(2400000.0, 6000.0, 7);
  }

  lemma SmallPowers()
    ensures Pow2(4) == 16 && Pow2(5) == 32
  {
  }

  lemma RatioBelow(inputRate: real, outputRate: real, k: nat, j: nat)
    requires LeastPower(inputRate, 4.0 * outputRate, k) && outputRate > 0.0
    ensures k <= j <==> inputRate < 4.0 * outputRate * Pow2(j) as real
  {
    hide Pow2, LeastPower;
    LeastPowerIsLeast(inputRate, 4.0 * outputRate, k, j);
    DividedLess(inputRate, Pow2(j) as real, 4.0 * outputRate);
  }
}
