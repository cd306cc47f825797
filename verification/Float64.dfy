/**
 What becomes of a 64-bit integer that is stored as JSON and read back into an interface value: the nearest float64,
 ties to even (section 4.3.1 of IEEE 754-2008). Whole numbers below the overflow threshold of the format are treated;
 every 64-bit integer is one.
 */
module Float64 {
  import opened TtlMap

  const MANTISSA := 0x20_0000_0000_0000   // 2^53

  function Pow2(k: nat): (p: nat)
    ensures p >= 1
  {
    if k == 0 then 1 else 2 * Pow2(k - 1)
  }

  // The distance between the float64 numbers around n, at least 1.
  function Ulp(n: nat): (u: nat)
    ensures u >= 1
  {
    if n < MANTISSA then 1 else 2 * Ulp(n / 2)
  }

  // The multiple of u nearest to n; of two that are equally near, the one with the even factor.
  function RoundTo(n: nat, u: nat): nat
    requires u >= 1
  {
    if RoundsUp(n / u, n % u, u) then (n / u + 1) * u else n / u * u
  }

  predicate RoundsUp(q: nat, r: nat, u: nat) {
    2 * r > u || (2 * r == u && q % 2 == 1)
  }

  function Round(n: nat): nat {
    RoundTo(n, Ulp(n))
  }

  // A whole number that a float64 can hold: 53 significant bits and a power of two.
  ghost predicate IsFloat64(n: nat) {
    exists m: nat, k: nat :: Scaled(n, m, k)
  }

  predicate Scaled(n: nat, m: nat, k: nat) {
    m < MANTISSA && n == m * Pow2(k)
  }

  function Dist(a: int, b: int): nat {
    if a <= b then b - a else a - b
  }

  function JsonRoundTrip(v: Value): Value {
    match v
    case Int64(n) => if n >= 0 then Float64(Round(n)) else Float64(0 - Round(-n))
    case _ => v
  }

  lemma MulLe(a: nat, b: nat, u: nat)
    requires a <= b
    ensures a * u <= b * u
  {
  }

  lemma DivMod(n: nat, u: nat)
    requires u >= 1
    ensures n == n / u * u + n % u && n % u < u
    ensures (n / u + 1) * u == n / u * u + u
  {
  }

  lemma DivModUnique(n: nat, u: nat, q: nat, r: nat)
    requires u >= 1 && r < u && n == q * u + r
    ensures n / u == q && n % u == r
  {
    DivMod(n, u);
    if q < n / u {
      MulLe(q + 1, n / u, u);
    }
    if n / u < q {
      MulLe(n / u + 1, q, u);
    }
  }

  lemma MulMod(a: nat, u: nat)
    requires u >= 1
    ensures (a * u) % u == 0 && (a * u) / u == a
  {
    DivModUnique(a * u, u, a, 0);
  }

  // A multiple of u does not lie strictly between n / u * u and (n / u + 1) * u.
  lemma NoMultipleBetween(n: nat, u: nat, k: nat)
    requires u >= 1
    ensures k * u <= n ==> k * u <= n / u * u
    ensures k * u > n ==> k * u >= (n / u + 1) * u
  {
    DivMod(n, u);
    if k <= n / u {
      MulLe(k, n / u, u);
    } else {
      MulLe(n / u + 1, k, u);
    }
  }

  lemma RoundToCases(n: nat, u: nat)
    requires u >= 1
    ensures RoundTo(n, u) == n / u * u || RoundTo(n, u) == (n / u + 1) * u
    ensures 2 * Dist(RoundTo(n, u), n) <= u
    ensures n / u * u <= n < n / u * u + u == (n / u + 1) * u
    ensures Dist(RoundTo(n, u), n) <= Dist(n / u * u, n)
    ensures Dist(RoundTo(n, u), n) <= Dist((n / u + 1) * u, n)
  {
    DivMod(n, u);
  }

  // The result is a nearest multiple of the unit.
  lemma RoundToNearest(n: nat, u: nat, k: nat)
    requires u >= 1
    ensures Dist(RoundTo(n, u), n) <= Dist(k * u, n)
  {
    RoundToCases(n, u);
    NoMultipleBetween(n, u, k);
  }

  // Rounding stays between the multiples of the unit around its argument.
  lemma RoundToBounds(n: nat, u: nat, k: nat)
    requires u >= 1
    ensures k * u <= n ==> k * u <= RoundTo(n, u)
    ensures n <= k * u ==> RoundTo(n, u) <= k * u
  {
    RoundToCases(n, u);
    NoMultipleBetween(n, u, k);
    if n == k * u {
      RoundToNearest(n, u, k);
    }
  }

  lemma RoundToMonotone(m: nat, n: nat, u: nat)
    requires u >= 1 && m <= n
    ensures RoundTo(m, u) <= RoundTo(n, u)
  {
    hide RoundTo;
    if m / u == n / u {
      SameFloor(m, n, u);
    } else {
      RoundToCases(m, u);
      RoundToCases(n, u);
      FloorsApart(m, n, u);
    }
  }

  lemma SameFloor(m: nat, n: nat, u: nat)
    requires u >= 1 && m <= n && m / u == n / u
    ensures RoundTo(m, u) <= RoundTo(n, u)
  {
    var q, r, r' := m / u, m % u, n % u;
    DivMod(m, u);
    DivMod(n, u);
    var low := q * u;
    assert r <= r';
    assert RoundTo(m, u) == if RoundsUp(q, r, u) then low + u else low;
    assert RoundTo(n, u) == if RoundsUp(q, r', u) then low + u else low;
  }

  lemma FloorsApart(m: nat, n: nat, u: nat)
    requires u >= 1 && m <= n && m / u != n / u
    ensures (m / u + 1) * u <= n / u * u
  {
    DivMod(m, u);
    DivMod(n, u);
    if n / u < m / u {
      MulLe(n / u + 1, m / u, u);
    }
    MulLe(m / u + 1, n / u, u);
  }

  lemma {:induction false} UlpMonotone(m: nat, n: nat)
    requires m <= n
    ensures Ulp(m) <= Ulp(n)
    decreases n
  {
    if m >= MANTISSA {
      UlpMonotone(m / 2, n / 2);
    }
  }

  // The unit of a larger number is a multiple of the unit of a smaller one.
  lemma {:induction false} UlpDivides(m: nat, n: nat) returns (k: nat)
    requires m <= n
    ensures k >= 1 && Ulp(n) == k * Ulp(m)
    decreases n
  {
    if n < MANTISSA {
      k := 1;
    } else if m < MANTISSA {
      k := Ulp(n);
    } else {
      k := UlpDivides(m / 2, n / 2);
      assert 2 * (k * Ulp(m / 2)) == k * (2 * Ulp(m / 2));
    }
  }

  lemma DoubleMultiple(a: nat, u: nat)
    requires u >= 1 && a % u == 0
    ensures (2 * a) % (2 * u) == 0
  {
    DivMod(a, u);
    var k := a / u;
    assert 2 * a == k * (2 * u);
    MulMod(k, 2 * u);
  }

  // Where the unit changes from one number to the next, that next number is a multiple of both units.
  lemma {:induction false} UlpStep(n: nat)
    requires Ulp(n) != Ulp(n + 1)
    ensures (n + 1) % Ulp(n + 1) == 0 && (n + 1) % Ulp(n) == 0
    decreases n
  {
    if n < MANTISSA {
      assert n + 1 == MANTISSA;
      assert Ulp(MANTISSA) == 2 * Ulp(MANTISSA / 2);
    } else {
      assert n % 2 == 1 && n / 2 + 1 == (n + 1) / 2;
      UlpStep(n / 2);
      DoubleMultiple((n + 1) / 2, Ulp((n + 1) / 2));
      DoubleMultiple((n + 1) / 2, Ulp(n / 2));
    }
  }

  lemma {:induction false} UlpIsPow2(n: nat) returns (k: nat)
    ensures Ulp(n) == Pow2(k)
    ensures n < MANTISSA * Ulp(n)
  {
    if n < MANTISSA {
      k := 0;
    } else {
      k := UlpIsPow2(n / 2);
      assert n < 2 * (MANTISSA * Ulp(n / 2));
      k := k + 1;
    }
  }

  lemma {:induction false} ScaledIsMultiple(m: nat, k: nat)
    requires m < MANTISSA
    ensures (m * Pow2(k)) % Ulp(m * Pow2(k)) == 0
  {
    var n := m * Pow2(k);
    if n >= MANTISSA {
      assert k > 0;
      var h := m * Pow2(k - 1);
      assert n == 2 * h && n / 2 == h by {
        assert m * (2 * Pow2(k - 1)) == 2 * (m * Pow2(k - 1));
      }
      ScaledIsMultiple(m, k - 1);
      DoubleMultiple(h, Ulp(h));
    }
  }

  /** The numbers the format holds are exactly the multiples of their own unit. */
  lemma Float64Iff(n: nat)
    ensures IsFloat64(n) <==> n % Ulp(n) == 0
  {
    if IsFloat64(n) {
      var m: nat, k: nat :| Scaled(n, m, k);
      ScaledIsMultiple(m, k);
    }
    if n % Ulp(n) == 0 {
      var k := UlpIsPow2(n);
      var m := n / Ulp(n);
      DivMod(n, Ulp(n));
      if m >= MANTISSA {
        MulLe(MANTISSA, m, Ulp(n));
      }
      assert Scaled(n, m, k);
    }
  }

  lemma RoundExact(n: nat)
    requires n % Ulp(n) == 0
    ensures Round(n) == n
  {
    DivMod(n, Ulp(n));
    RoundToNearest(n, Ulp(n), n / Ulp(n));
  }

  // Between two numbers with different units lies a multiple of the larger one.
  lemma {:induction false} UlpBoundary(m: nat, n: nat) returns (b: nat)
    requires m <= n && Ulp(m) != Ulp(n)
    ensures m < b <= n && Ulp(b) == Ulp(n) && b % Ulp(b) == 0
    decreases n - m
  {
    if Ulp(n - 1) == Ulp(n) {
      b := UlpBoundary(m, n - 1);
    } else {
      UlpStep(n - 1);
      b := n;
    }
  }

  // The largest float64 not above n is a multiple of the unit of n.
  lemma FloatBelow(x: nat, n: nat)
    requires x <= n && x % Ulp(x) == 0
    ensures x <= n / Ulp(n) * Ulp(n)
  {
    var b := x;
    if Ulp(x) != Ulp(n) {
      b := UlpBoundary(x, n);
    }
    DivMod(b, Ulp(b));
    NoMultipleBetween(n, Ulp(n), b / Ulp(n));
  }

  lemma FloatAbove(x: nat, n: nat)
    requires x >= n && x % Ulp(x) == 0
    ensures x % Ulp(n) == 0
  {
    var k := UlpDivides(n, x);
    DivMod(x, Ulp(x));
    MulAssociates(x / Ulp(x), k, Ulp(n));
    MulMod(x / Ulp(x) * k, Ulp(n));
  }

  lemma MulAssociates(a: nat, b: nat, c: nat)
    ensures a * (b * c) == (a * b) * c
  {
  }

  /** No float64 is nearer than the result. */
  lemma RoundNearest(n: nat, x: nat)
    requires IsFloat64(x)
    ensures Dist(Round(n), n) <= Dist(x, n)
  {
    Float64Iff(x);
    var u := Ulp(n);
    if x <= n {
      FloatBelow(x, n);
      RoundToNearest(n, u, n / u);
      RoundToCases(n, u);
    } else {
      FloatAbove(x, n);
      DivMod(x, u);
      RoundToNearest(n, u, x / u);
    }
  }

  // The next multiple of the unit is a float64, even where it starts a coarser range.
  lemma {:induction false} NextMultiple(n: nat, k: nat)
    requires k * Ulp(n) <= n + Ulp(n)
    ensures IsFloat64(k * Ulp(n))
  {
    var e := UlpIsPow2(n);
    assert (k - 1) * Ulp(n) == k * Ulp(n) - Ulp(n) <= n < MANTISSA * Ulp(n);
    if k > MANTISSA {
      MulLe(MANTISSA, k - 1, Ulp(n));
    }
    if k < MANTISSA {
      assert Scaled(k * Ulp(n), k, e);
    } else {
      assert Scaled(k * Ulp(n), MANTISSA / 2, e + 1);
    }
  }

  /** The result is a float64. */
  lemma RoundIsFloat64(n: nat)
    ensures IsFloat64(Round(n))
  {
    var u := Ulp(n);
    RoundToCases(n, u);
    var k := if Round(n) == n / u * u then n / u else n / u + 1;
    NextMultiple(n, k);
  }

  // Which multiple a tie goes to.
  lemma TieFactor(n: nat, u: nat) returns (k: nat)
    requires u >= 1 && 2 * (n % u) == u
    ensures RoundTo(n, u) == k * u && k % 2 == 0 && (k == n / u || k == n / u + 1)
  {
    k := if (n / u) % 2 == 1 then n / u + 1 else n / u;
  }

  /** Of two that are equally near, the result is the one with the even factor. */
  lemma RoundTies(n: nat)
    requires 2 * (n % Ulp(n)) == Ulp(n)
    ensures (Round(n) / Ulp(n)) % 2 == 0
    ensures Round(n) / Ulp(n) == n / Ulp(n) || Round(n) / Ulp(n) == n / Ulp(n) + 1
    ensures Round(n) % Ulp(n) == 0
  {
    hide RoundTo, Ulp;
    var k := TieFactor(n, Ulp(n));
    MulMod(k, Ulp(n));
  }

  /** JSON gives back the nearest whole float64 of either sign, and the very number below 2^53. */
  lemma JsonNearest(n: int, x: int)
    requires IsFloat64(if x >= 0 then x else -x)
    ensures JsonRoundTrip(Int64(n)).Float64?
    ensures Dist(JsonRoundTrip(Int64(n)).n, n) <= Dist(x, n)
    ensures IsFloat64(if JsonRoundTrip(Int64(n)).n >= 0 then JsonRoundTrip(Int64(n)).n else -JsonRoundTrip(Int64(n)).n)
    ensures -0x20_0000_0000_0000 < n < 0x20_0000_0000_0000 ==> JsonRoundTrip(Int64(n)).n == n
  {
    hide Round, IsFloat64;
    var m := if n >= 0 then n else -n;
    RoundIsFloat64(m);
    ZeroIsFloat64();
    RoundNearest(m, if x >= 0 then x else -x);
    RoundNearest(m, 0);
    if m < MANTISSA {
      assert m % Ulp(m) == 0;
      RoundExact(m);
    }
  }

  lemma ZeroIsFloat64()
    ensures IsFloat64(0)
  {
    assert Scaled(0, 0, 0);
  }

  /** What is no integer comes back as it is. */
  lemma JsonKeepsOthers(v: Value)
    requires !v.Int64?
    ensures JsonRoundTrip(v) == v
  {
  }

  lemma RoundOneStep(n: nat)
    ensures Round(n) <= Round(n + 1)
  {
    if Ulp(n) == Ulp(n + 1) {
      RoundToMonotone(n, n + 1, Ulp(n));
    } else {
      UlpStep(n);
      DivMod(n + 1, Ulp(n));
      RoundToBounds(n, Ulp(n), (n + 1) / Ulp(n));
      RoundExact(n + 1);
    }
  }

  /** Rounding keeps order, across all magnitudes. */
  lemma {:induction false} RoundMonotone(m: nat, n: nat)
    requires m <= n
    ensures Round(m) <= Round(n)
    decreases n - m
  {
    if m < n {
      RoundMonotone(m, n - 1);
      RoundOneStep(n - 1);
    }
  }

  const LOW := 0x1000_0000_0000_0000   // 2^60 ns after the epoch: July 2006; 2^61 ns are January 2043

  // Halving k times from [2^(52+k), 2^(53+k)) ends below 2^53.
  lemma {:induction false} UlpIn(n: nat, k: nat)
    requires Pow2(k) * (MANTISSA / 2) <= n < Pow2(k) * MANTISSA
    ensures Ulp(n) == Pow2(k)
  {
    if k > 0 {
      UlpIn(n / 2, k - 1);
    }
  }

  /** The exact integers end at 2^53; a time stamp of these decades comes back within 128 ns. */
  lemma TimestampError(n: nat)
    requires 0x1000_0000_0000_0000 <= n < 0x2000_0000_0000_0000
    ensures Dist(Round(n), n) <= 128
    ensures Round(n) == n <==> n % 256 == 0
  {
    assert Pow2(8) == 256 by {
      assert Pow2(4) == 16;
    }
    UlpIn(n, 8);
    RoundToCases(n, 256);
    if n % 256 == 0 {
      RoundExact(n);
    }
  }

  /** Half a unit is really lost: the bound cannot be improved. */
  lemma TimestampErrorIsTight()
    ensures Round(LOW + 128) == LOW
    ensures Round(LOW + 384) == LOW + 512
  {
    assert Pow2(8) == 256 by {
      assert Pow2(4) == 16;
    }
    UlpIn(LOW + 128, 8);
    UlpIn(LOW + 384, 8);
  }
}
