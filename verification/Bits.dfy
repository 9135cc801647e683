/** Bitwise operations on natural numbers, and rounding up to a power of two. */
module Bits {

  function Pow2(k: nat): (r: nat)
    ensures r >= 1
  {
    if k == 0 then 1 else 2 * Pow2(k - 1)
  }

  function BitOr(a: nat, b: nat): nat
    decreases a + b
  {
    if a == 0 then b else if b == 0 then a else
    2 * BitOr(a / 2, b / 2) + if a % 2 == 1 || b % 2 == 1 then 1 else 0
  }

  function BitAnd(a: nat, b: nat): nat
    decreases a + b
  {
    if a == 0 || b == 0 then 0 else
    2 * BitAnd(a / 2, b / 2) + if a % 2 == 1 && b % 2 == 1 then 1 else 0
  }

  lemma {:induction false} Pow2Sum(a: nat, b: nat)
    ensures Pow2(a + b) == Pow2(a) * Pow2(b)
  {
    if a > 0 {
      Pow2Sum(a - 1, b);
    }
  }

  lemma {:induction false} Pow2Monotone(a: nat, b: nat)
    requires a <= b
    ensures Pow2(a) <= Pow2(b)
  {
    if a < b {
      Pow2Monotone(a, b - 1);
    }
  }

  /** Bits below position `p` do not meet those above it. */
  lemma {:induction false} OrSplit(h: nat, p: nat, r: nat, y: nat)
    requires r < Pow2(p) && y < Pow2(p)
    ensures BitOr(h * Pow2(p) + r, y) == h * Pow2(p) + BitOr(r, y)
    ensures y <= BitOr(r, y) < Pow2(p)
  {
    hide BitOr;
    if p > 0 {
      Halves(h, Pow2(p - 1), r);
      OrHalves(h * Pow2(p) + r, y);
      OrHalves(r, y);
      OrSplit(h, p - 1, r / 2, y / 2);
    } else {
      OrZero(h * Pow2(p) + r);
      OrZero(r);
    }
  }

  lemma Halves(h: nat, n: nat, r: nat)
    ensures h * (2 * n) == 2 * (h * n) && (h * (2 * n) + r) / 2 == h * n + r / 2 && (h * (2 * n) + r) % 2 == r % 2
  {
    assert h * (2 * n) == 2 * (h * n);
  }

  lemma OrHalves(a: nat, b: nat)
    ensures BitOr(a, b) == 2 * BitOr(a / 2, b / 2) + if a % 2 == 1 || b % 2 == 1 then 1 else 0
  {
    OrZero(a / 2);
    OrZero(b / 2);
  }

  lemma OrZero(a: nat)
    ensures BitOr(a, 0) == a && BitOr(0, a) == a
  {
  }

  /** Or-ing a field into place is adding it. */
  lemma OrDisjoint(h: nat, p: nat, l: nat)
    requires l < Pow2(p)
    ensures BitOr(h * Pow2(p), l) == h * Pow2(p) + l
  {
    OrSplit(h, p, 0, l);
    OrZero(l);
  }

  lemma DivMod(x: nat, n: nat)
    requires n > 0
    ensures x == (x / n) * n + x % n && x % n < n
  {
  }

  lemma MulMono(a: int, b: int, n: nat)
    requires a <= b
    ensures a * n <= b * n
  {
  }

  lemma MulCancel(a: int, b: int, n: nat)
    requires a * n < b * n
    ensures a < b
  {
    if a >= b {
      MulMono(b, a, n);
    }
  }

  /** Quotient and remainder are unique. */
  lemma ModIs(x: nat, n: nat, q: nat, r: nat)
    requires n > 0 && r < n && x == q * n + r
    ensures x % n == r && x / n == q
  {
    DivMod(x, n);
    var q' := x / n;
    if q < q' {
      MulMono(q + 1, q', n);
    } else if q > q' {
      MulMono(q' + 1, q, n);
    }
  }

  /** The source wraps an index with `& (size - 1)`; for a power of two that is
      the remainder. */
  lemma {:induction false} MaskIsMod(x: nat, k: nat)
    ensures BitAnd(x, Pow2(k) - 1) == x % Pow2(k)
  {
    if k > 0 {
      var n := Pow2(k - 1);
      MaskIsMod(x / 2, k - 1);
      AndHalves(x, n);
      HalvedMod(x, n);
    } else {
      assert Pow2(k) == 1;
    }
  }

  lemma AndHalves(x: nat, n: nat)
    requires n > 0
    ensures BitAnd(x, 2 * n - 1) == 2 * BitAnd(x / 2, n - 1) + x % 2
  {
    assert (2 * n - 1) / 2 == n - 1 && (2 * n - 1) % 2 == 1;
  }

  lemma HalvedMod(x: nat, n: nat)
    requires n > 0
    ensures x % (2 * n) == 2 * ((x / 2) % n) + x % 2
  {
    hide *;
    var h := x / 2;
    DivMod(x, 2);
    DivMod(h, n);
    var q, r := h / n, h % n;
    assert 2 * (q * n) == q * (2 * n);
    ModIs(x, 2 * n, q, 2 * r + x % 2);
  }

  // ---- Rounding up to a power of two -------------------------------------------

  /** The least power of two that is at least `x`. */
  function CeilPow2(x: nat): (r: nat)
    ensures r >= x && r >= 1 && (x >= 1 ==> r < 2 * x)
  {
    if x <= 1 then 1 else 2 * CeilPow2((x + 1) / 2)
  }

  lemma {:induction false} CeilPow2Is(x: nat, k: nat)
    requires Pow2(k) < x <= Pow2(k + 1)
    ensures CeilPow2(x) == Pow2(k + 1)
  {
    if k == 0 {
      assert x == 2;
      assert CeilPow2(1) == 1;
    } else {
      CeilPow2Is((x + 1) / 2, k - 1);
    }
  }

  /** It is a power of two, and no smaller one will do. */
  lemma {:induction false} CeilPow2Least(x: nat) returns (k: nat)
    requires x >= 1
    ensures CeilPow2(x) == Pow2(k)
    ensures forall j: nat :: Pow2(j) >= x ==> CeilPow2(x) <= Pow2(j)
  {
    if x == 1 {
      k := 0;
    } else {
      k := CeilPow2Least((x + 1) / 2);
      forall j: nat | Pow2(j) >= x
        ensures CeilPow2(x) <= Pow2(j)
      {
        if j > 0 {
          assert Pow2(j - 1) >= (x + 1) / 2;
        }
      }
      k := k + 1;
    }
  }

  const WORD: nat := 0x1_0000_0000_0000_0000

  lemma PowFour()
    ensures Pow2(4) == 16
  {
  }

  lemma WordIsPow2()
    ensures Pow2(64) == WORD
  {
    hide Pow2;
    PowFour();
    Pow2Sum(4, 4);
    Pow2Sum(8, 8);
    Pow2Sum(16, 16);
    Pow2Sum(32, 32);
  }

  /** `y` has its top bit at `k`, and at least its `w` topmost bits are set. */
  ghost predicate TopOnes(y: nat, k: nat, w: nat) {
    y < Pow2(k + 1) && y + Pow2(if w < k + 1 then k + 1 - w else 0) >= Pow2(k + 1)
  }

  lemma SmearStep(y: nat, k: nat, w: nat)
    requires TopOnes(y, k, w) && w >= 1
    ensures TopOnes(OrShifted(y, w), k, 2 * w)
  {
    hide BitOr, Pow2;
    var z := y / Pow2(w);
    if w >= k + 1 {
      Pow2Monotone(k + 1, w);
      SmallQuotient(y, Pow2(w));
      OrZero(y);
    } else {
      var p := k + 1 - w;
      Pow2Sum(w, p);
      var h, r := Pow2(w) - 1, y + Pow2(p) - Pow2(k + 1);
      assert h * Pow2(p) == Pow2(w) * Pow2(p) - Pow2(p);
      SmearedLow(y, k, w, p, z);
      OrSplit(h, p, r, z);
    }
  }

  lemma SmallQuotient(y: nat, n: nat)
    requires y < n
    ensures y / n == 0
  {
    ModIs(y, n, 0, y);
  }

  /** The shifted copy has enough ones to fill the next `w` bits. */
  lemma SmearedLow(y: nat, k: nat, w: nat, p: nat, z: nat)
    requires 1 <= w < k + 1 && p == k + 1 - w && TopOnes(y, k, w) && z == y / Pow2(w)
    ensures z < Pow2(p) && z + Pow2(if w < p then p - w else 0) >= Pow2(p)
  {
    hide Pow2;
    var n := Pow2(w);
    Pow2Sum(w, p);
    DivMod(y, n);
    assert Pow2(p) * n == Pow2(k + 1);
    MulCancel(z, Pow2(p), n);
    var d := Pow2(if w < p then p - w else 0);
    assert d * n >= Pow2(p) by {
      if w < p {
        Pow2Sum(w, p - w);
      } else {
        Pow2Monotone(p, w);
        MulMono(1, d, n);
      }
    }
    assert (z + d + 1) * n == z * n + d * n + n;
    MulCancel(Pow2(p), z + d + 1, n);
  }

  /** `x | x >> w` */
  function OrShifted(x: nat, w: nat): nat {
    hide Pow2, BitOr;
    BitOr(x, x / Pow2(w))
  }

  /** The bit-smearing computation, on 64-bit words: it yields 0 where no power of two
      that fits is large enough. */
  method CeilToPow2(x: nat) returns (r: nat)
    requires x < WORD
    ensures 1 <= x <= WORD / 2 ==> r == CeilPow2(x)
    ensures x == 0 || x > WORD / 2 ==> r == 0
  {
    hide OrShifted, CeilPow2, Smeared;
    var y: nat := if x == 0 then WORD - 1 else x - 1;
    ghost var k := TopBitOr0(y);
    Smear(y, k, 1);
    y := OrShifted(y, 1);
    Smear(y, k, 2);
    y := OrShifted(y, 2);
    Smear(y, k, 4);
    y := OrShifted(y, 4);
    var i := 1;
    while i < 8
      invariant i == 1 || i == 2 || i == 4 || i == 8
      invariant Smeared(y, k, 8 * i)
      decreases 8 - i
    {
      Smear(y, k, 8 * i);
      y := OrShifted(y, 8 * i);
      i := 2 * i;
    }
    Rounded(x, y, k);
    r := (y + 1) % WORD;
  }

  /** Smearing leaves 0 alone; `k` is None there, as 0 has no top bit. */
  datatype Top = NoTop | Top(k: nat)

  ghost predicate Smeared(y: nat, top: Top, w: nat) {
    match top
    case NoTop => y == 0
    case Top(k) => TopOnes(y, k, w)
  }

  ghost function TopBitOr0(y: nat): (t: Top)
    ensures Smeared(y, t, 1)
    ensures y > 0 ==> t.Top? && Pow2(t.k) <= y < Pow2(t.k + 1)
    ensures y == 0 ==> t.NoTop?
  {
    if y == 0 then NoTop else if y == 1 then Top(0) else Top(TopBitOr0(y / 2).k + 1)
  }

  lemma Smear(y: nat, top: Top, w: nat)
    requires Smeared(y, top, w) && w >= 1
    ensures Smeared(OrShifted(y, w), top, 2 * w)
  {
    match top
    case NoTop =>
      SmallQuotient(y, Pow2(w));
      OrZero(y);
    case Top(k) => SmearStep(y, k, w);
  }

  lemma CeilOne()
    ensures CeilPow2(1) == 1
  {
  }

  /** Once smeared over the whole word, all bits up to the top one are set. */
  lemma SmearedMeans(y: nat, top: Top)
    requires Smeared(y, top, 64) && (top.Top? ==> top.k < 64)
    ensures match top case NoTop => y == 0 case Top(k) => y + 1 == Pow2(k + 1)
  {
    hide Pow2;
    PowZero();
  }

  lemma Rounded(x: nat, y: nat, top: Top)
    requires x < WORD && top == TopBitOr0(if x == 0 then WORD - 1 else x - 1) && Smeared(y, top, 64)
    ensures 1 <= x <= WORD / 2 ==> (y + 1) % WORD == CeilPow2(x)
    ensures x == 0 || x > WORD / 2 ==> (y + 1) % WORD == 0
  {
    hide Pow2, CeilPow2, Smeared;
    match top
    case NoTop =>
      SmearedMeans(y, top);
      assert CeilPow2(1) == 1 by { CeilOne(); }
    case Top(k) =>
      WordIsPow2();
      TopBelow(if x == 0 then WORD - 1 else x - 1, k);
      SmearedMeans(y, top);
      if x != 0 {
        CeilPow2Is(x, k);
      }
      if k < 63 {
        Pow2Monotone(k + 1, 63);
        assert y + 1 < WORD;
      }
  }

  lemma PowZero()
    ensures Pow2(0) == 1
  {
  }

  lemma TopBelow(y: nat, k: nat)
    requires Pow2(k) <= y < WORD && y < Pow2(k + 1)
    ensures k < 64 && (k == 63 <==> y >= WORD / 2)
  {
    hide Pow2;
    WordIsPow2();
    assert Pow2(64) == 2 * Pow2(63) by { Doubled(63); }
    if k >= 64 {
      Pow2Monotone(64, k);
    } else if k < 63 {
      Pow2Monotone(k + 1, 63);
    }
  }

  lemma Doubled(k: nat)
    ensures Pow2(k + 1) == 2 * Pow2(k)
  {
  }
}
