/**
 * Decimal arithmetic of the ledger. Amounts and rates are exact reals; the
 * decimal library's `Round(places)` rounds half away from zero and
 * `IntPart()` truncates toward zero.
 */
module Money {
  /** 10 to the power `p`, as a real. */
  function Pow10(p: nat): (r: real)
    ensures r >= 1.0
  {
    if p == 0 then 1.0 else 10.0 * Pow10(p - 1)
  }

  /** `v` is a whole number of units of `1 / scale`. */
  predicate OnGrid(v: real, scale: real)
  {
    (v * scale).Floor as real == v * scale
  }

  /**
   * `decimal.Round(places)`: the multiple of 10^-places nearest to `x`,
   * a tie going to the one farther from zero.
   */
  function Round(x: real, places: nat): (r: real)
    ensures OnGrid(r, Pow10(places))
    ensures x >= 0.0 ==> x - 0.5 / Pow10(places) < r <= x + 0.5 / Pow10(places)
    ensures x < 0.0 ==> x - 0.5 / Pow10(places) <= r < x + 0.5 / Pow10(places)
    ensures x >= 0.0 ==> r >= 0.0
    ensures x <= 0.0 ==> r <= 0.0
  {
    var scale := Pow10(places);
    if x >= 0.0 then RoundUnsigned(x, scale)
    else
      NegatedOnGrid(RoundUnsigned(-x, scale), scale);
      -RoundUnsigned(-x, scale)
  }

  lemma NegatedOnGrid(u: real, scale: real)
    requires OnGrid(u, scale)
    ensures OnGrid(-u, scale)
  {
    var n := (u * scale).Floor;
    assert (-u) * scale == -(u * scale);
    FloorOf((-u) * scale, -n);
  }

  /** Rounding of a non-negative value at a scale of at least one, halves upward. */
  function RoundUnsigned(x: real, scale: real): (r: real)
    requires x >= 0.0 && scale >= 1.0
    ensures OnGrid(r, scale)
    ensures x - 0.5 / scale < r <= x + 0.5 / scale
    ensures r >= 0.0
  {
    var k := (x * scale + 0.5).Floor;
    Bracket(x, scale, k as real);
    var r := k as real / scale;
    assert r * scale == k as real;
    FloorOf(r * scale, k);
    assert (r * scale).Floor == k;
    assert OnGrid(r, scale);
    r
  }

  /** `k` within half a unit of `x * scale`, ties upward, puts `k / scale` within half a unit of `x`. */
  lemma Bracket(x: real, scale: real, k: real)
    requires scale >= 1.0
    requires x * scale - 0.5 < k <= x * scale + 0.5
    ensures x - 0.5 / scale < k / scale <= x + 0.5 / scale
  {
    assert (x * scale - 0.5) / scale == x - 0.5 / scale;
    assert (x * scale + 0.5) / scale == x + 0.5 / scale;
    DivMonotone(x * scale - 0.5, k, scale);
    DivMonotone(k, x * scale + 0.5, scale);
  }

  lemma DivMonotone(a: real, b: real, scale: real)
    requires scale >= 1.0 && a <= b
    ensures a / scale <= b / scale
    ensures a < b ==> a / scale < b / scale
  {
    assert b / scale - a / scale == (b - a) / scale;
  }

  /**
   * The contract of `Round` determines it: the only grid point in the
   * half-open interval around `x` is `Round(x, places)`.
   */
  lemma RoundCharacterised(x: real, places: nat, y: real)
    requires OnGrid(y, Pow10(places))
    requires x >= 0.0 ==> x - 0.5 / Pow10(places) < y <= x + 0.5 / Pow10(places)
    requires x < 0.0 ==> x - 0.5 / Pow10(places) <= y < x + 0.5 / Pow10(places)
    ensures y == Round(x, places)
  {
    NearestGridPoint(x, y, Round(x, places), Pow10(places));
  }

  /** Two grid points in the same half-open interval of width one unit around `x` coincide. */
  lemma NearestGridPoint(x: real, y: real, r: real, scale: real)
    requires scale >= 1.0 && OnGrid(y, scale) && OnGrid(r, scale)
    requires x >= 0.0 ==> x - 0.5 / scale < y <= x + 0.5 / scale
    requires x < 0.0 ==> x - 0.5 / scale <= y < x + 0.5 / scale
    requires x >= 0.0 ==> x - 0.5 / scale < r <= x + 0.5 / scale
    requires x < 0.0 ==> x - 0.5 / scale <= r < x + 0.5 / scale
    ensures y == r
  {
    var h := 0.5 / scale;
    assert h + h == 1.0 / scale;
    assert -(1.0 / scale) < y - r < 1.0 / scale;
    ScaledBelowOne(y - r, scale);
    GridUnique(y, r, scale);
  }

  /** Two grid points less than one unit apart coincide. */
  lemma GridUnique(a: real, b: real, scale: real)
    requires scale >= 1.0 && OnGrid(a, scale) && OnGrid(b, scale)
    requires -1.0 < (a - b) * scale < 1.0
    ensures a == b
  {
    var pa, pb := a * scale, b * scale;
    var ka, kb := pa.Floor, pb.Floor;
    var e := (a - b) * scale;
    assert e == pa - pb;
    assert ka == kb;
    assert a == pa / scale && b == pb / scale;
  }

  lemma ScaledBelowOne(v: real, scale: real)
    requires scale >= 1.0 && -(1.0 / scale) < v < 1.0 / scale
    ensures -1.0 < v * scale < 1.0
  {
    var w := 1.0 / scale;
    var p, q := v * scale, w * scale;
    assert q == 1.0;
    var below, above := w - v, v + w;
    MulPositive(below, scale);
    MulPositive(above, scale);
    var e1, e2 := below * scale, above * scale;
    assert e1 == q - p;
    assert e2 == p + q;
  }

  lemma MulPositive(a: real, b: real)
    requires a > 0.0 && b > 0.0
    ensures a * b > 0.0
  {
  }

  /** The floor of `v` is the integer `k` just below it. */
  lemma FloorOf(v: real, k: int)
    requires k as real <= v < k as real + 1.0
    ensures v.Floor == k
  {
  }

  /** Rounding to cents, the precision of every money amount. */
  function Round2(x: real): (r: real)
    ensures OnGrid(r, 100.0)
    ensures x >= 0.0 ==> x - 0.005 < r <= x + 0.005
    ensures x < 0.0 ==> x - 0.005 <= r < x + 0.005
    ensures x >= 0.0 ==> r >= 0.0
    ensures x <= 0.0 ==> r <= 0.0
  {
    assert Pow10(2) == 100.0;
    Round(x, 2)
  }

  /** `decimal.IntPart()`: the integer part, truncated toward zero. */
  function Trunc(x: real): (r: int)
    ensures x >= 0.0 ==> 0 <= r && r as real <= x < r as real + 1.0
    ensures x < 0.0 ==> r <= 0 && r as real - 1.0 < x <= r as real
  {
    if x >= 0.0 then x.Floor else -((-x).Floor)
  }

  /** `percent` per cent of `amount`, unrounded. */
  function PercentOf(amount: real, percent: real): (r: real)
    ensures r * 100.0 == amount * percent
  {
    amount * percent / 100.0
  }

  function Max(a: real, b: real): (r: real)
    ensures r >= a && r >= b && (r == a || r == b)
  {
    if a >= b then a else b
  }

  function Min(a: real, b: real): (r: real)
    ensures r <= a && r <= b && (r == a || r == b)
  {
    if a <= b then a else b
  }

  function Abs(x: real): (r: real)
    ensures r >= 0.0 && (r == x || r == -x)
  {
    if x < 0.0 then -x else x
  }

  /** A value that already has `places` digits (`n` units of 10^-places) is left unchanged. */
  lemma {:induction false} RoundExact(n: int, places: nat)
    ensures Round(n as real / Pow10(places), places) == n as real / Pow10(places)
  {
    var scale := Pow10(places);
    var x := n as real / scale;
    if n >= 0 {
      UnitsExact(n, scale);
    } else {
      assert -x == (-n) as real / scale;
      UnitsExact(-n, scale);
    }
  }

  lemma UnitsExact(n: nat, scale: real)
    requires scale >= 1.0
    ensures RoundUnsigned(n as real / scale, scale) == n as real / scale
  {
    DivMonotone(0.0, n as real, scale);
    WholeFixed(n as real / scale, scale, n);
  }

  lemma WholeFixed(x: real, scale: real, n: int)
    requires x >= 0.0 && scale >= 1.0 && x * scale == n as real
    ensures RoundUnsigned(x, scale) == x
  {
    FloorOf(x * scale + 0.5, n);
  }

  /** A whole number of cents survives rounding to cents unchanged. */
  lemma Round2Cents(k: int)
    ensures Round2(k as real / 100.0) == k as real / 100.0
  {
    assert Pow10(2) == 100.0 by {
      assert Pow10(1) == 10.0;
    }
    RoundExact(k, 2);
  }

  /** Rounding is symmetric about zero. */
  lemma RoundNegate(x: real, places: nat)
    ensures Round(-x, places) == -Round(x, places)
  {
    if x == 0.0 {
      assert -x == x;
    }
  }

  /** Rounding never reverses the order of two values. */
  lemma RoundMonotone(x: real, y: real, places: nat)
    requires x <= y
    ensures Round(x, places) <= Round(y, places)
  {
    var scale := Pow10(places);
    if 0.0 <= x {
      UnsignedMonotone(x, y, scale);
    } else if y < 0.0 {
      UnsignedMonotone(-y, -x, scale);
    }
  }

  lemma UnsignedMonotone(x: real, y: real, scale: real)
    requires 0.0 <= x <= y && scale >= 1.0
    ensures RoundUnsigned(x, scale) <= RoundUnsigned(y, scale)
  {
    assert x * scale <= y * scale;
    var kx := (x * scale + 0.5).Floor;
    var ky := (y * scale + 0.5).Floor;
    assert kx <= ky;
    DivMonotone(kx as real, ky as real, scale);
  }

  /** The case the cashback tests pin down: 0.075 rounds up to 0.08. */
  lemma Round2HalfCent()
    ensures Round2(0.075) == 0.08
    ensures Round2(-0.075) == -0.08
  {
    assert Pow10(2) == 100.0;
    FloorOf(0.075 * 100.0 + 0.5, 8);
  }
}
