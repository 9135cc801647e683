/** The portable floating-point codec, in exact real arithmetic. Exponent field 0 and the
    all-ones field are exponents like any other. */
module Pack754 {
  import opened Bits

  // ---- Powers of two and normal form -------------------------------------------

  function PowR(e: int): (r: real)
    ensures r > 0.0
  {
    if e >= 0 then Pow2(e) as real else 1.0 / Pow2(-e) as real
  }

  lemma PowRStep(e: int)
    ensures PowR(e + 1) == 2.0 * PowR(e)
  {
    hide Pow2;
    PowZero();
    if e >= 0 {
      Doubled(e);
    } else {
      Doubled(-e - 1);
      HalfInverse(Pow2(-e - 1) as real);
    }
  }

  lemma HalfInverse(x: real)
    requires x > 0.0
    ensures 1.0 / x == 2.0 * (1.0 / (2.0 * x))
  {
    var h := 1.0 / (2.0 * x);
    assert h * (2.0 * x) == 1.0;
    assert (2.0 * h) * x == 1.0;
  }

  lemma {:induction false} PowRMonotone(a: int, b: int)
    requires a <= b
    ensures PowR(a) <= PowR(b)
    decreases b - a
  {
    hide PowR;
    if a < b {
      PowRMonotone(a, b - 1);
      PowRStep(b - 1);
    }
  }

  /** `a` written as a number in [1, 2) times a power of two. */
  datatype Normal = Normal(mantissa: real, exponent: int)

  ghost predicate NormalOf(a: real, n: Normal) {
    1.0 <= n.mantissa < 2.0 && a == n.mantissa * PowR(n.exponent)
  }

  /** How often a number above 1 can be halved. */
  function Halvings(x: real): nat
    requires x > 0.0
  {
    x.Floor
  }

  lemma HalvingsDecrease(x: real)
    requires x > 1.0
    ensures Halvings(x / 2.0) < Halvings(x)
  {
  }

  lemma InverseHalves(a: real)
    requires 0.0 < a < 1.0
    ensures 1.0 / a > 1.0 && 1.0 / (2.0 * a) == 1.0 / a / 2.0
  {
    HalfInverse(a);
    var h := 1.0 / a;
    assert h * a == 1.0;
  }

  lemma NormalDoubled(a: real, n: Normal)
    requires NormalOf(a, n)
    ensures NormalOf(2.0 * a, n.(exponent := n.exponent + 1))
  {
    hide PowR;
    PowRStep(n.exponent);
    Regrouped(n.mantissa, PowR(n.exponent));
  }

  lemma NormalHalved(a: real, n: Normal)
    requires NormalOf(2.0 * a, n)
    ensures NormalOf(a, n.(exponent := n.exponent - 1))
  {
    hide PowR;
    PowRStep(n.exponent - 1);
    Regrouped(n.mantissa, PowR(n.exponent - 1));
  }

  lemma NormalAlready(a: real)
    requires 1.0 <= a < 2.0
    ensures NormalOf(a, Normal(a, 0))
  {
  }

  function Normalize(a: real): (n: Normal)
    requires a > 0.0
    ensures NormalOf(a, n)
    decreases a < 1.0, if a < 1.0 then Halvings(1.0 / a) else Halvings(a)
  {
    hide PowR, NormalOf, Halvings;
    if a >= 2.0 then
      HalvingsDecrease(a);
      var n := Normalize(a / 2.0);
      NormalDoubled(a / 2.0, n);
      n.(exponent := n.exponent + 1)
    else if a < 1.0 then
      InverseHalves(a);
      HalvingsDecrease(1.0 / a);
      var n := Normalize(2.0 * a);
      NormalHalved(a, n);
      n.(exponent := n.exponent - 1)
    else
      NormalAlready(a);
      Normal(a, 0)
  }

  lemma PowROne()
    ensures PowR(0) == 1.0
  {
  }

  lemma Regrouped(m: real, p: real)
    ensures m * (2.0 * p) == 2.0 * (m * p)
  {
  }

  /** There is only one normal form. */
  lemma {:induction false} NormalizeIs(a: real, n: Normal)
    requires a > 0.0 && NormalOf(a, n)
    ensures Normalize(a) == n
    decreases if n.exponent >= 0 then n.exponent else -n.exponent
  {
    hide PowR, NormalOf;
    if n.exponent > 0 {
      HalvedForm(a, n);
      NormalizeIs(a / 2.0, n.(exponent := n.exponent - 1));
    } else if n.exponent < 0 {
      DoubledForm(a, n);
      NormalizeIs(2.0 * a, n.(exponent := n.exponent + 1));
    } else {
      PlainForm(a, n);
    }
  }

  lemma HalvedForm(a: real, n: Normal)
    requires NormalOf(a, n) && n.exponent > 0
    ensures a >= 2.0 && NormalOf(a / 2.0, n.(exponent := n.exponent - 1))
  {
    hide PowR;
    PowROne();
    PowRStep(0);
    PowRStep(n.exponent - 1);
    PowRMonotone(1, n.exponent);
    Regrouped(n.mantissa, PowR(n.exponent - 1));
    AtLeast(n.mantissa, PowR(n.exponent), 2.0);
  }

  lemma DoubledForm(a: real, n: Normal)
    requires NormalOf(a, n) && n.exponent < 0
    ensures a < 1.0 && NormalOf(2.0 * a, n.(exponent := n.exponent + 1))
  {
    hide PowR;
    BelowOne(a, n);
    PowRStep(n.exponent);
    Regrouped(n.mantissa, PowR(n.exponent));
  }

  lemma BelowOne(a: real, n: Normal)
    requires NormalOf(a, n) && n.exponent < 0
    ensures a < 1.0
  {
    hide PowR;
    PowROne();
    PowRStep(-1);
    PowRMonotone(n.exponent, -1);
    Below(n.mantissa, PowR(n.exponent), a);
  }

  lemma PlainForm(a: real, n: Normal)
    requires NormalOf(a, n) && n.exponent == 0
    ensures 1.0 <= a < 2.0 && a == n.mantissa
  {
    hide PowR;
    PowROne();
  }

  lemma AtLeast(m: real, p: real, b: real)
    requires m >= 1.0 && p >= b >= 0.0
    ensures m * p >= b
  {
  }

  lemma Below(m: real, p: real, a: real)
    requires m < 2.0 && 0.0 < p <= 0.5 && a == m * p
    ensures a < 1.0
  {
  }

  // ---- The two functions -------------------------------------------------------

  ghost predicate Format(bits: nat, expbits: nat) {
    1 <= expbits <= 31 && expbits < bits <= 64
  }

  function Bias(expbits: nat): nat
    requires expbits >= 1
  {
    Pow2(expbits - 1) - 1
  }

  function Abs(f: real): real {
    if f < 0.0 then -f else f
  }

  /** The exponent of `f` fits its field. */
  predicate Fits(f: real, expbits: nat)
    requires expbits >= 1
  {
    f == 0.0 || 0 <= Normalize(Abs(f)).exponent + Bias(expbits) < Pow2(expbits)
  }

  /** The fraction of a mantissa, scaled and cut off; a mantissa just below 2 gives one
      more than fits `s` bits. */
  function Scaled(mantissa: real, s: nat): (r: nat)
    requires 1.0 <= mantissa < 2.0
    ensures r <= Pow2(s)
  {
    ScaledFits(mantissa - 1.0, Pow2(s));
    ((mantissa - 1.0) * (Pow2(s) as real + 0.5)).Floor
  }

  lemma ScaledFits(x: real, n: nat)
    requires 0.0 <= x < 1.0 && n >= 1
    ensures 0.0 <= x * (n as real + 0.5) < n as real + 0.5
    ensures 0 <= (x * (n as real + 0.5)).Floor <= n
  {
  }

  /** The bit pattern: sign, biased exponent, significand. */
  function Pattern(negative: bool, e: nat, m: nat, bits: nat, expbits: nat): nat
    requires expbits < bits
  {
    (if negative then Pow2(bits - 1) else 0) + BitOr(e * Pow2(bits - expbits - 1), m)
  }

  function Packed(f: real, bits: nat, expbits: nat): nat
    requires Format(bits, expbits) && Fits(f, expbits)
  {
    if f == 0.0 then 0
    else
      var n := Normalize(Abs(f));
      Pattern(f < 0.0, n.exponent + Bias(expbits), Scaled(n.mantissa, bits - expbits - 1), bits, expbits)
  }

  lemma NormalizeStep(a: real)
    requires a > 0.0
    ensures a >= 2.0 ==> Normalize(a) == Normalize(a / 2.0).(exponent := Normalize(a / 2.0).exponent + 1)
    ensures a < 1.0 ==> Normalize(a) == Normalize(a * 2.0).(exponent := Normalize(a * 2.0).exponent - 1)
    ensures 1.0 <= a < 2.0 ==> Normalize(a) == Normal(a, 0)
  {
    hide NormalOf;
    assert a * 2.0 == 2.0 * a;
  }

  /** A value whose exponent does not fit cannot be packed. */
  method Pack754(f: real, bits: nat, expbits: nat) returns (r: nat)
    requires Format(bits, expbits) && Fits(f, expbits)
    ensures r == Packed(f, bits, expbits)
  {
    hide Normalize, NormalOf, Pow2, BitOr, Halvings, PowR;
    var significandbits := bits - expbits - 1;
    if f == 0.0 {
      return 0;
    }
    var sign, fnorm: real;
    if f < 0.0 {
      sign, fnorm := 1, -f;
    } else {
      sign, fnorm := 0, f;
    }
    ghost var n := Normalize(Abs(f));
    var shift: int := 0;
    while fnorm >= 2.0
      invariant fnorm > 0.0 && n == Normalize(fnorm).(exponent := Normalize(fnorm).exponent + shift)
      decreases Halvings(fnorm)
    {
      HalvingsDecrease(fnorm);
      NormalizeStep(fnorm);
      fnorm := fnorm / 2.0;
      shift := shift + 1;
    }
    while fnorm < 1.0
      invariant 0.0 < fnorm < 2.0 && n == Normalize(fnorm).(exponent := Normalize(fnorm).exponent + shift)
      decreases Halvings(1.0 / fnorm)
    {
      InverseHalves(fnorm);
      HalvingsDecrease(1.0 / fnorm);
      NormalizeStep(fnorm);
      fnorm := fnorm * 2.0;
      shift := shift - 1;
    }
    NormalizeStep(fnorm);
    fnorm := fnorm - 1.0;
    ScaledFits(fnorm, Pow2(significandbits));
    var significand: nat := (fnorm * (Pow2(significandbits) as real + 0.5)).Floor;
    var exp: nat := shift + (Pow2(expbits - 1) - 1);
    r := BitOr(BitOr(sign * Pow2(bits - 1), exp * Pow2(bits - expbits - 1)), significand);
    FieldsMeet(sign, exp, significand, bits, expbits);
    assert exp == n.exponent + Bias(expbits) && significand == Scaled(n.mantissa, significandbits);
    assert r == Pattern(f < 0.0, exp, significand, bits, expbits);
  }

  /** The sign stays apart from the other two fields. */
  lemma FieldsMeet(sign: nat, e: nat, m: nat, bits: nat, expbits: nat)
    requires Format(bits, expbits) && e < Pow2(expbits) && m <= Pow2(bits - expbits - 1)
    ensures BitOr(BitOr(sign * Pow2(bits - 1), e * Pow2(bits - expbits - 1)), m) ==
            sign * Pow2(bits - 1) + BitOr(e * Pow2(bits - expbits - 1), m)
    ensures BitOr(e * Pow2(bits - expbits - 1), m) < Pow2(bits - 1)
  {
    hide Pow2, BitOr;
    FieldBelow(e, bits - expbits - 1, expbits);
    Pow2Monotone(bits - expbits, bits - 1);
    Doubled(bits - expbits - 1);
    OrDisjoint(sign, bits - 1, e * Pow2(bits - expbits - 1));
    OrSplit(sign, bits - 1, e * Pow2(bits - expbits - 1), m);
  }

  lemma FieldBelow(e: nat, s: nat, expbits: nat)
    requires e < Pow2(expbits)
    ensures e * Pow2(s) + Pow2(s) <= Pow2(s + expbits)
  {
    hide Pow2;
    Pow2Sum(expbits, s);
    MulMono(e + 1, Pow2(expbits), Pow2(s));
    assert (e + 1) * Pow2(s) == e * Pow2(s) + Pow2(s);
  }

  /** The value of a bit pattern. */
  function Unpacked(i: nat, bits: nat, expbits: nat): real
    requires Format(bits, expbits)
  {
    if i == 0 then 0.0
    else
      var s := bits - expbits - 1;
      var a := ((i % Pow2(s)) as real / Pow2(s) as real + 1.0) * PowR(i / Pow2(s) % Pow2(expbits) - Bias(expbits));
      if i / Pow2(bits - 1) % 2 == 1 then -a else a
  }

  method Unpack754(i: nat, bits: nat, expbits: nat) returns (result: real)
    requires Format(bits, expbits) && i < WORD
    ensures result == Unpacked(i, bits, expbits)
  {
    hide Pow2, PowR, BitAnd, Unpacked;
    var significandbits := bits - expbits - 1;
    if i == 0 {
      ZeroWord(bits, expbits);
      return 0.0;
    }
    Masked(i, significandbits);
    result := BitAnd(i, Pow2(significandbits) - 1) as real;
    result := result / Pow2(significandbits) as real;
    result := result + 1.0;
    ghost var m := result;
    var bias := Pow2(expbits - 1) - 1;
    Masked(i / Pow2(significandbits), expbits);
    var shift: int := BitAnd(i / Pow2(significandbits), Pow2(expbits) - 1) - bias;
    result := TimesPow2(result, shift);
    Masked(i / Pow2(bits - 1), 1);
    OnePow();
    UnpackedFrom(i, bits, expbits, m, shift, result);
    result := result * if BitAnd(i / Pow2(bits - 1), 1) == 1 then -1.0 else 1.0;
  }

  lemma ZeroWord(bits: nat, expbits: nat)
    requires Format(bits, expbits)
    ensures Unpacked(0, bits, expbits) == 0.0
  {
  }

  lemma UnpackedFrom(i: nat, bits: nat, expbits: nat, m: real, e: int, a: real)
    requires Format(bits, expbits) && i != 0 && a == m * PowR(e)
    requires var s := bits - expbits - 1;
             && m == (i % Pow2(s)) as real / Pow2(s) as real + 1.0
             && e == i / Pow2(s) % Pow2(expbits) - (Pow2(expbits - 1) - 1)
    ensures Unpacked(i, bits, expbits) == if i / Pow2(bits - 1) % 2 == 1 then -a else a
  {
    hide Pow2, PowR;
  }

  /** The two loops that scale by a power of two. */
  method TimesPow2(m: real, e: int) returns (result: real)
    ensures result == m * PowR(e)
  {
    hide PowR;
    result := m;
    var shift := e;
    PowROne();
    while shift > 0
      invariant (e >= 0 ==> shift >= 0) && (e <= 0 ==> shift == e)
      invariant result * PowR(shift) == m * PowR(e)
      decreases shift
    {
      PowRStep(shift - 1);
      Regrouped(result, PowR(shift - 1));
      result := result * 2.0;
      shift := shift - 1;
    }
    while shift < 0
      invariant shift <= 0 && result * PowR(shift) == m * PowR(e)
      decreases -shift
    {
      PowRStep(shift);
      Regrouped(result / 2.0, PowR(shift));
      result := result / 2.0;
      shift := shift + 1;
    }
  }

  lemma OnePow()
    ensures Pow2(1) == 2
  {
  }

  lemma Masked(i: nat, k: nat)
    ensures BitAnd(i, Pow2(k) - 1) == i % Pow2(k)
  {
    MaskIsMod(i, k);
  }

  // ---- Round trips -------------------------------------------------------------

  /** The magnitude that significand `m` and exponent `e` stand for. */
  function Value(m: nat, e: int, s: nat): real {
    (m as real / Pow2(s) as real + 1.0) * PowR(e)
  }

  /** A pattern can be taken apart again. */
  lemma FieldsOf(negative: bool, e: nat, m: nat, bits: nat, expbits: nat)
    requires Format(bits, expbits) && e < Pow2(expbits) && m < Pow2(bits - expbits - 1)
    ensures var i, s := Pattern(negative, e, m, bits, expbits), bits - expbits - 1;
            && i == (if negative then Pow2(bits - 1) else 0) + e * Pow2(s) + m
            && i % Pow2(s) == m && i / Pow2(s) % Pow2(expbits) == e
            && i / Pow2(bits - 1) % 2 == (if negative then 1 else 0)
  {
    hide Pow2, BitOr;
    var s: nat := bits - expbits - 1;
    var g := if negative then 1 else 0;
    OrDisjoint(e, s, m);
    FieldBelow(e, s, expbits);
    Pow2Sum(expbits, s);
    assert s + expbits == bits - 1;
    var i := g * Pow2(bits - 1) + e * Pow2(s) + m;
    assert i == (g * Pow2(expbits) + e) * Pow2(s) + m;
    ModIs(i, Pow2(s), g * Pow2(expbits) + e, m);
    ModIs(g * Pow2(expbits) + e, Pow2(expbits), g, e);
    ModIs(i, Pow2(bits - 1), g, e * Pow2(s) + m);
    assert g % 2 == g;
  }

  /** Any word is the pattern of its fields. */
  lemma PatternOf(i: nat, bits: nat, expbits: nat)
    requires Format(bits, expbits)
    ensures var s := bits - expbits - 1;
            Pattern(i / Pow2(bits - 1) % 2 == 1, i / Pow2(s) % Pow2(expbits), i % Pow2(s), bits, expbits) ==
                i % Pow2(bits)
  {
    hide Pow2, BitOr;
    var s: nat := bits - expbits - 1;
    var n, x, p := Pow2(s), Pow2(expbits), Pow2(bits - 1);
    Pow2Sum(expbits, s);
    Doubled(bits - 1);
    DivMod(i, n);
    DivMod(i / n, x);
    OrDisjoint(i / n % x, s, i % n);
    var low := i / n % x * n + i % n;
    var q := i / n / x;
    Nested(i, n, x, q, i / n % x, i % n);
    FieldBelow(i / n % x, s, expbits);
    ModIs(i, p, q, low);
    DivMod(q, 2);
    Nested(i, p, 2, q / 2, q % 2, low);
    var r := q % 2 * p + low;
    MulMono(q % 2, 1, p);
    ModIs(i, 2 * p, q / 2, r);
    assert q % 2 * p == if q % 2 == 1 then p else 0;
  }

  lemma Nested(i: nat, n: nat, x: nat, q: nat, e: nat, m: nat)
    requires i == (q * x + e) * n + m
    ensures i == q * (x * n) + (e * n + m)
  {
  }

  lemma ValueIsNormal(m: nat, e: int, s: nat)
    requires m < Pow2(s)
    ensures NormalOf(Value(m, e, s), Normal(m as real / Pow2(s) as real + 1.0, e)) && Value(m, e, s) > 0.0
    ensures Scaled(m as real / Pow2(s) as real + 1.0, s) == m
  {
    hide Pow2, PowR;
    var n := Pow2(s) as real;
    var x := m as real / n;
    assert x * n == m as real;
    FractionBelow(x, n);
    assert (x + 1.0 - 1.0) * (n + 0.5) == m as real + x * 0.5;
  }

  lemma FractionBelow(x: real, n: real)
    requires n >= 1.0 && 0.0 <= x * n < n
    ensures 0.0 <= x < 1.0
  {
  }

  /** What a pattern stands for. */
  lemma UnpackedPattern(negative: bool, e: nat, m: nat, bits: nat, expbits: nat)
    requires Format(bits, expbits) && e < Pow2(expbits) && m < Pow2(bits - expbits - 1)
    ensures var i := Pattern(negative, e, m, bits, expbits);
            var v := Value(m, e - Bias(expbits), bits - expbits - 1);
            && (i == 0 <==> !negative && e == 0 && m == 0)
            && Unpacked(i, bits, expbits) == if i == 0 then 0.0 else if negative then -v else v
  {
    hide Pow2, PowR, Pattern;
    FieldsOf(negative, e, m, bits, expbits);
    MulMono(0, e, Pow2(bits - expbits - 1));
    if e > 0 {
      MulMono(1, e, Pow2(bits - expbits - 1));
    }
  }

  /** What a value within the format packs to. */
  lemma PackedValue(negative: bool, m: nat, e: int, bits: nat, expbits: nat)
    requires Format(bits, expbits) && m < Pow2(bits - expbits - 1) && 0 <= e + Bias(expbits) < Pow2(expbits)
    ensures var v := Value(m, e, bits - expbits - 1);
            var f := if negative then -v else v;
            && v > 0.0 && Fits(f, expbits)
            && Packed(f, bits, expbits) == Pattern(negative, e + Bias(expbits), m, bits, expbits)
  {
    hide Pow2, PowR, Pattern, Value, Normalize, NormalOf, Scaled;
    var s := bits - expbits - 1;
    ValueIsNormal(m, e, s);
    NormalizeIs(Value(m, e, s), Normal(m as real / Pow2(s) as real + 1.0, e));
  }

  function Signed(negative: bool, v: real): real {
    if negative then -v else v
  }

  lemma UnpackedWord(i: nat, bits: nat, expbits: nat)
    requires Format(bits, expbits) && i != 0
    ensures var s := bits - expbits - 1;
            Unpacked(i, bits, expbits) ==
            Signed(i / Pow2(bits - 1) % 2 == 1, Value(i % Pow2(s), i / Pow2(s) % Pow2(expbits) - Bias(expbits), s))
  {
    hide Pow2, PowR;
  }

  /** `f` can be packed, to the word `r`. */
  ghost predicate PacksTo(f: real, r: nat, bits: nat, expbits: nat)
    requires Format(bits, expbits)
  {
    Fits(f, expbits) && Packed(f, bits, expbits) == r
  }

  /** `f` comes back from being packed. */
  ghost predicate Survives(f: real, bits: nat, expbits: nat)
    requires Format(bits, expbits)
  {
    Fits(f, expbits) && Unpacked(Packed(f, bits, expbits), bits, expbits) == f
  }

  /** Packing undoes unpacking on every word, up to bits above the format. */
  lemma PackUndoesUnpack(i: nat, bits: nat, expbits: nat)
    requires Format(bits, expbits)
    ensures PacksTo(Unpacked(i, bits, expbits), i % Pow2(bits), bits, expbits)
  {
    hide Pow2, PowR, Pattern, Normalize, Scaled, NormalOf, Value;
    var s: nat := bits - expbits - 1;
    if i == 0 {
      ModIs(0, Pow2(bits), 0, 0);
    } else {
      hide Unpacked, Packed, Fits;
      UnpackedWord(i, bits, expbits);
      PatternOf(i, bits, expbits);
      DivMod(i, Pow2(s));
      DivMod(i / Pow2(s), Pow2(expbits));
      PackedValue(i / Pow2(bits - 1) % 2 == 1, i % Pow2(s), i / Pow2(s) % Pow2(expbits) - Bias(expbits), bits, expbits);
    }
  }

  /** Unpacking undoes packing on every value of the format but one: +2^-bias, whose
      pattern is all zeros, comes back as 0. */
  lemma UnpackUndoesPackExactlyWhen(negative: bool, m: nat, e: int, bits: nat, expbits: nat)
    requires Format(bits, expbits) && m < Pow2(bits - expbits - 1) && 0 <= e + Bias(expbits) < Pow2(expbits)
    ensures Survives(Signed(negative, Value(m, e, bits - expbits - 1)), bits, expbits) <==>
            !(!negative && m == 0 && e + Bias(expbits) == 0)
  {
    hide Pow2, PowR, Pattern, Value, Packed, Unpacked, Fits;
    PackedValue(negative, m, e, bits, expbits);
    UnpackedPattern(negative, e + Bias(expbits), m, bits, expbits);
  }

  // ---- Values between those of the format --------------------------------------

  /** How far apart values of the format are near a value with exponent `e`. */
  function Ulp(e: int, s: nat): real {
    PowR(e) / Pow2(s) as real
  }

  lemma ValueIs(m: nat, e: int, s: nat)
    ensures Value(m, e, s) == PowR(e) + m as real * Ulp(e, s)
  {
    hide Pow2, PowR;
    var n, p := Pow2(s) as real, PowR(e);
    var x, u := m as real / n, p / n;
    assert u * n == p && x * n == m as real;
    assert x * p == x * (u * n) == (x * n) * u;
  }

  /** Scaling and cutting off is off by less than one. */
  lemma ScaledNear(mantissa: real, s: nat)
    requires 1.0 <= mantissa < 2.0
    ensures -1.0 < Scaled(mantissa, s) as real - (mantissa - 1.0) * Pow2(s) as real < 1.0
  {
    hide Pow2;
    var x, n := mantissa - 1.0, Pow2(s) as real;
    assert x * (n + 0.5) == x * n + x * 0.5;
  }

  /** Without a carry the value of the pattern is within one unit in the last place. */
  lemma NearWithoutCarry(n: Normal, s: nat)
    requires 1.0 <= n.mantissa < 2.0
    ensures Abs(Value(Scaled(n.mantissa, s), n.exponent, s) - n.mantissa * PowR(n.exponent)) < Ulp(n.exponent, s)
  {
    hide Pow2, PowR, Value, Scaled, Ulp;
    var u, k, y := Ulp(n.exponent, s), Pow2(s) as real, Scaled(n.mantissa, s) as real;
    UlpTimes(n.exponent, s);
    ValueIs(Scaled(n.mantissa, s), n.exponent, s);
    ScaledNear(n.mantissa, s);
    var w := Offset(n.mantissa, k, u, y, PowR(n.exponent));
  }

  /** How far `y` units are from the mantissa `m`, for a unit `u` that fits `k` times. */
  lemma Offset(m: real, k: real, u: real, y: real, p: real) returns (w: real)
    requires u > 0.0 && p == k * u
    ensures (p + y * u) - m * p == w
    ensures -1.0 < y - (m - 1.0) * k < 1.0 ==> -u < w < u
    ensures y - (m - 1.0) * k <= -1.0 ==> w <= -u
  {
    var d := y - (m - 1.0) * k;
    assert d * u == y * u - ((m - 1.0) * k) * u;
    assert ((m - 1.0) * k) * u == (m - 1.0) * (k * u);
    assert m * p == p + (m - 1.0) * p;
    w := Scale(d, u);
  }

  lemma Scale(d: real, u: real) returns (w: real)
    requires u > 0.0
    ensures w == d * u
    ensures -1.0 < d < 1.0 ==> -u < w < u
    ensures d <= -1.0 ==> w <= -u
  {
    w := d * u;
  }

  lemma UlpTimes(e: int, s: nat)
    ensures Ulp(e, s) > 0.0 && Pow2(s) as real * Ulp(e, s) == PowR(e)
  {
    hide Pow2, PowR;
  }

  /** A carry comes out right if the exponent field is even, as the carried bit then meets
      a zero. */
  lemma CarriedPattern(negative: bool, e: nat, bits: nat, expbits: nat)
    requires Format(bits, expbits) && e < Pow2(expbits)
    ensures var k := if e % 2 == 0 then e + 1 else e;
            k < Pow2(expbits) &&
            Pattern(negative, e, Pow2(bits - expbits - 1), bits, expbits) == Pattern(negative, k, 0, bits, expbits)
  {
    hide Pow2, BitOr;
    var s: nat := bits - expbits - 1;
    Doubled(expbits - 1);
    OrShifts(e, 1, s);
    OrOne(e);
    OrZero((if e % 2 == 0 then e + 1 else e) * Pow2(s));
  }

  lemma {:induction false} OrShifts(a: nat, b: nat, s: nat)
    ensures BitOr(a * Pow2(s), b * Pow2(s)) == BitOr(a, b) * Pow2(s)
  {
    hide BitOr;
    if s == 0 {
    } else {
      Halves(a, Pow2(s - 1), 0);
      Halves(b, Pow2(s - 1), 0);
      OrHalves(a * Pow2(s), b * Pow2(s));
      OrShifts(a, b, s - 1);
      Halves(BitOr(a, b), Pow2(s - 1), 0);
    }
  }

  lemma OrOne(e: nat)
    ensures BitOr(e, 1) == if e % 2 == 0 then e + 1 else e
  {
    OrHalves(e, 1);
    OrZero(e / 2);
  }

  /** The carry: the scaled fraction does not fit its field. */
  ghost predicate Carries(f: real, bits: nat, expbits: nat)
    requires f != 0.0 && expbits < bits
  {
    var n := Pow2(bits - expbits - 1) as real;
    (Normalize(Abs(f)).mantissa - 1.0) * (n + 0.5) >= n
  }

  /** The positive values so near to 2^-bias, from above, that nothing is left of them. */
  ghost predicate Vanishes(f: real, bits: nat, expbits: nat) {
    && Format(bits, expbits)
    && var least := PowR(0 - Bias(expbits));
       least <= f < least * (1.0 + 1.0 / (Pow2(bits - expbits - 1) as real + 0.5))
  }

  lemma ScaledBounds(mantissa: real, s: nat)
    requires 1.0 <= mantissa < 2.0
    ensures Scaled(mantissa, s) == 0 <==> (mantissa - 1.0) * (Pow2(s) as real + 0.5) < 1.0
    ensures Scaled(mantissa, s) == Pow2(s) <==> (mantissa - 1.0) * (Pow2(s) as real + 0.5) >= Pow2(s) as real
  {
    hide Pow2;
    ScaledFits(mantissa - 1.0, Pow2(s));
  }

  lemma Inverse(k: real) returns (y: real)
    requires k > 1.0
    ensures y == 1.0 / k && y * k == 1.0 && 0.0 < y < 1.0
  {
    y := 1.0 / k;
    assert y * k == 1.0;
    RealOrder(y, 1.0, k);
  }

  /** Where a value with mantissa `m` lies, for the unit `least` and the step `k`. */
  lemma NearLeast(f: real, m: real, least: real, k: real, y: real)
    requires f == m * least && least > 0.0 && k > 1.0 && y * k == 1.0
    ensures least <= f <==> 1.0 <= m
    ensures f < least * (1.0 + y) <==> m < 1.0 + y
    ensures m < 1.0 + y <==> (m - 1.0) * k < 1.0
  {
    RealOrder(1.0, m, least);
    RealOrder(m, 1.0 + y, least);
    RealOrder(m - 1.0, y, k);
  }

  lemma RealOrder(a: real, b: real, u: real)
    requires u > 0.0
    ensures a < b <==> a * u < b * u
    ensures a <= b <==> a * u <= b * u
  {
  }

  lemma Quotient(f: real, least: real) returns (m: real)
    requires least > 0.0
    ensures f == m * least
  {
    m := f / least;
  }

  lemma VanishesMeans(f: real, bits: nat, expbits: nat)
    requires Vanishes(f, bits, expbits)
    ensures f > 0.0 && Normalize(Abs(f)).exponent + Bias(expbits) == 0
    ensures Scaled(Normalize(Abs(f)).mantissa, bits - expbits - 1) == 0
  {
    hide Pow2, PowR, Normalize, Scaled, Bias;
    var s := bits - expbits - 1;
    var least, k := PowR(0 - Bias(expbits)), Pow2(s) as real + 0.5;
    var y := Inverse(k);
    var m := Quotient(f, least);
    NearLeast(f, m, least, k, y);
    NormalizeIs(f, Normal(m, 0 - Bias(expbits)));
    ScaledBounds(m, s);
  }

  /** The values that vanish are those of the least exponent with an empty significand. */
  lemma VanishesExactlyWhen(f: real, bits: nat, expbits: nat)
    requires Format(bits, expbits) && f != 0.0
    ensures Vanishes(f, bits, expbits) <==>
            && f > 0.0 && Normalize(Abs(f)).exponent + Bias(expbits) == 0
            && Scaled(Normalize(Abs(f)).mantissa, bits - expbits - 1) == 0
  {
    hide Pow2, PowR, Normalize, Scaled, Bias;
    AbsNormal(f);
    var n := Normalize(Abs(f));
    if Vanishes(f, bits, expbits) {
      VanishesMeans(f, bits, expbits);
    } else if f > 0.0 && n.exponent + Bias(expbits) == 0 {
      var s := bits - expbits - 1;
      var least, k := PowR(0 - Bias(expbits)), Pow2(s) as real + 0.5;
      var y := Inverse(k);
      NearLeast(f, n.mantissa, least, k, y);
      ScaledBounds(n.mantissa, s);
    }
  }

  /** Exactly those values pack to zero. */
  lemma PacksToZeroExactlyWhen(f: real, bits: nat, expbits: nat)
    requires Format(bits, expbits) && f != 0.0 && Fits(f, expbits)
    ensures Packed(f, bits, expbits) == 0 <==> Vanishes(f, bits, expbits)
  {
    hide Pow2, PowR, Pattern, Normalize, NormalOf, Scaled, Unpacked, Value, Packed, Fits, Bias, Vanishes;
    var s := bits - expbits - 1;
    var n := Normalize(Abs(f));
    var e: nat := ExponentField(f, bits, expbits);
    AbsNormal(f);
    VanishesExactlyWhen(f, bits, expbits);
    if Scaled(n.mantissa, s) < Pow2(s) {
      UnpackedPattern(f < 0.0, e, Scaled(n.mantissa, s), bits, expbits);
    } else {
      CarriedPattern(f < 0.0, e, bits, expbits);
      UnpackedPattern(f < 0.0, if e % 2 == 0 then e + 1 else e, 0, bits, expbits);
    }
  }

  /** `f` comes back from being packed within one unit in its last place. */
  ghost predicate ComesBackNear(f: real, bits: nat, expbits: nat)
    requires Format(bits, expbits) && f != 0.0 && Fits(f, expbits)
  {
    Abs(Unpacked(Packed(f, bits, expbits), bits, expbits) - f) < Ulp(Normalize(Abs(f)).exponent, bits - expbits - 1)
  }

  /** A carry into an even exponent field gives the next power of two, which is near. */
  lemma NearCarry(n: Normal, s: nat)
    requires 1.0 <= n.mantissa < 2.0 && Scaled(n.mantissa, s) == Pow2(s)
    ensures Abs(Value(0, n.exponent + 1, s) - n.mantissa * PowR(n.exponent)) < Ulp(n.exponent, s)
  {
    hide Pow2, PowR, Scaled, Ulp, Value;
    NearWithoutCarry(n, s);
    ValueIs(Pow2(s), n.exponent, s);
    UlpTimes(n.exponent, s);
    PowRStep(n.exponent);
    ValueIs(0, n.exponent + 1, s);
  }

  /** A carry into an odd exponent field is lost: the value falls to the power of two below. */
  lemma FarCarry(n: Normal, s: nat)
    requires 1.0 <= n.mantissa < 2.0 && Scaled(n.mantissa, s) == Pow2(s) && s >= 1
    ensures n.mantissa * PowR(n.exponent) - Value(0, n.exponent, s) >= Ulp(n.exponent, s)
  {
    hide Pow2, PowR, Scaled, Ulp, Value;
    ValueIs(0, n.exponent, s);
    UlpTimes(n.exponent, s);
    ScaledNear(n.mantissa, s);
    Pow2Monotone(1, s);
    assert Pow2(1) == 2 by { OnePow(); }
    var k, u := Pow2(s) as real, Ulp(n.exponent, s);
    var d := (n.mantissa - 1.0) * k;
    assert d > k - 1.0 >= 1.0;
    var w := Offset(n.mantissa, k, u, 0.0, PowR(n.exponent));
  }

  /** Every value in range comes back near, except those so close to 2^-bias that they
      vanish and those whose carry meets an odd exponent field. */
  lemma ComesBackNearExactlyWhen(f: real, bits: nat, expbits: nat)
    requires Format(bits, expbits) && bits >= expbits + 2 && f != 0.0 && Fits(f, expbits)
    ensures ComesBackNear(f, bits, expbits) <==>
            && !Vanishes(f, bits, expbits)
            && !(Carries(f, bits, expbits) && (Normalize(Abs(f)).exponent + Bias(expbits)) % 2 == 1)
  {
    hide Pow2, Normalize, Scaled, Fits, Bias, Vanishes, ComesBackNear, Packed;
    var s := bits - expbits - 1;
    var n := Normalize(Abs(f));
    AbsNormal(f);
    PacksToZeroExactlyWhen(f, bits, expbits);
    ScaledBounds(n.mantissa, s);
    if Scaled(n.mantissa, s) < Pow2(s) {
      NearUnlessZero(f, bits, expbits);
    } else {
      NearUnlessOdd(f, bits, expbits);
    }
  }

  /** Without a carry. */
  lemma NearUnlessZero(f: real, bits: nat, expbits: nat)
    requires Format(bits, expbits) && f != 0.0 && Fits(f, expbits)
    requires Scaled(Normalize(Abs(f)).mantissa, bits - expbits - 1) < Pow2(bits - expbits - 1)
    ensures ComesBackNear(f, bits, expbits) <==> Packed(f, bits, expbits) != 0
  {
    hide Pow2, PowR, Pattern, Normalize, NormalOf, Scaled, Ulp, Unpacked, Value, Packed, Fits, Bias;
    var s := bits - expbits - 1;
    var n := Normalize(Abs(f));
    var e: nat := ExponentField(f, bits, expbits);
    AbsNormal(f);
    NearWithoutCarry(n, s);
    UnpackedPattern(f < 0.0, e, Scaled(n.mantissa, s), bits, expbits);
    ZeroIsFar(n, s);
  }

  /** With a carry. */
  lemma NearUnlessOdd(f: real, bits: nat, expbits: nat)
    requires Format(bits, expbits) && bits >= expbits + 2 && f != 0.0 && Fits(f, expbits)
    requires Scaled(Normalize(Abs(f)).mantissa, bits - expbits - 1) == Pow2(bits - expbits - 1)
    ensures ComesBackNear(f, bits, expbits) <==> (Normalize(Abs(f)).exponent + Bias(expbits)) % 2 == 0
    ensures (Normalize(Abs(f)).exponent + Bias(expbits)) % 2 == 0 ==> Packed(f, bits, expbits) != 0
  {
    hide Pow2, PowR, Pattern, Normalize, NormalOf, Scaled, Ulp, Unpacked, Value, Packed, Fits, Bias;
    var s := bits - expbits - 1;
    var n := Normalize(Abs(f));
    var e: nat := ExponentField(f, bits, expbits);
    AbsNormal(f);
    CarriedPattern(f < 0.0, e, bits, expbits);
    var k := if e % 2 == 0 then e + 1 else e;
    UnpackedPattern(f < 0.0, k, 0, bits, expbits);
    NearCarry(n, s);
    FarCarry(n, s);
    ZeroIsFar(n, s);
  }

  lemma AbsNormal(f: real)
    requires f != 0.0
    ensures NormalOf(Abs(f), Normalize(Abs(f))) && 1.0 <= Normalize(Abs(f)).mantissa < 2.0
    ensures Abs(f) == Normalize(Abs(f)).mantissa * PowR(Normalize(Abs(f)).exponent)
  {
    hide PowR;
  }

  lemma ExponentField(f: real, bits: nat, expbits: nat) returns (e: nat)
    requires Format(bits, expbits) && f != 0.0 && Fits(f, expbits)
    ensures e == Normalize(Abs(f)).exponent + Bias(expbits) < Pow2(expbits)
    ensures Packed(f, bits, expbits) ==
            Pattern(f < 0.0, e, Scaled(Normalize(Abs(f)).mantissa, bits - expbits - 1), bits, expbits)
  {
    hide Pow2, PowR, Pattern, Normalize, Scaled, NormalOf;
    e := Normalize(Abs(f)).exponent + Bias(expbits);
  }

  lemma ZeroIsFar(n: Normal, s: nat)
    requires n.mantissa >= 1.0
    ensures n.mantissa * PowR(n.exponent) >= Ulp(n.exponent, s)
  {
    hide Pow2, PowR, Ulp;
    var k, u, p := Pow2(s) as real, Ulp(n.exponent, s), PowR(n.exponent);
    UlpTimes(n.exponent, s);
    RealOrder(1.0, n.mantissa, p);
    RealOrder(1.0, k, u);
    assert k * u == p;
    assert u <= p <= n.mantissa * p;
  }

  /** The word of any value of the format: the sign in the highest bit, then the exponent,
      counted from the least one on, and then the fraction. */
  lemma WordOfValue(negative: bool, m: nat, e: int, f: real, bits: nat, expbits: nat)
    requires Format(bits, expbits) && m < Pow2(bits - expbits - 1) && 0 <= e + Pow2(expbits - 1) - 1 < Pow2(expbits)
    requires Abs(f) == (1.0 + m as real / Pow2(bits - expbits - 1) as real) * PowR(e) && (negative <==> f < 0.0)
    ensures Fits(f, expbits)
    ensures Packed(f, bits, expbits) ==
            (if negative then Pow2(bits - 1) else 0) + (e + Pow2(expbits - 1) - 1) * Pow2(bits - expbits - 1) + m
  {
    hide Pow2, PowR, Packed, Pattern, Fits, Value;
    var s := bits - expbits - 1;
    ValueForm(m, e, s);
    PackedValue(negative, m, e, bits, expbits);
    assert f == if negative then -Value(m, e, s) else Value(m, e, s);
    FieldsOf(negative, e + Bias(expbits), m, bits, expbits);
  }

  lemma ValueForm(m: nat, e: int, s: nat)
    ensures Value(m, e, s) == (1.0 + m as real / Pow2(s) as real) * PowR(e)
  {
    hide Pow2, PowR;
  }

  lemma WordOfPowerOfTwo(e: int, bits: nat, expbits: nat)
    requires Format(bits, expbits) && 0 <= e + Pow2(expbits - 1) - 1 < Pow2(expbits)
    ensures Fits(PowR(e), expbits)
    ensures Packed(PowR(e), bits, expbits) == (e + Pow2(expbits - 1) - 1) * Pow2(bits - expbits - 1)
  {
    hide Pow2, PowR, Packed, Fits;
    NoFraction(Pow2(bits - expbits - 1));
    WordOfValue(false, 0, e, PowR(e), bits, expbits);
  }

  lemma NoFraction(n: nat)
    requires n > 0
    ensures 0 as real / n as real == 0.0
  {
  }

  /** So 1 has the pattern of single precision. */
  lemma WordOfOne()
    ensures Fits(1.0, 8) && Packed(1.0, 32, 8) == 0x3F80_0000
  {
    hide Packed, Pow2, Fits;
    PowROne();
    SinglePrecision();
    WordOfPowerOfTwo(0, 32, 8);
  }

  lemma SinglePrecision()
    ensures Pow2(7) == 128 && Pow2(8) == 256 && Pow2(23) == 0x80_0000
  {
    assert Pow2(7) == 128;
    Pow2Sum(8, 8);
    Pow2Sum(16, 7);
  }

  /** A value just below 2 in the 16-bit format comes back as 1. */
  lemma CarryIsLost()
    ensures Fits(1.9999, 5) && Unpacked(Packed(1.9999, 16, 5), 16, 5) == 1.0
  {
    hide Pow2, PowR, Pattern, Normalize, NormalOf, Unpacked;
    NormalizeStep(1.9999);
    PowFour();
    Doubled(4);
    Pow2Sum(4, 4);
    Doubled(8);
    Doubled(9);
    assert Pow2(10) == 1024 && Pow2(5) == 32;
    assert Scaled(1.9999, 10) == 1024;
    CarriedPattern(false, 15, 16, 5);
    UnpackedPattern(false, 15, 0, 16, 5);
    PowROne();
  }
}
