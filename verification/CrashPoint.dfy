/** `crashPoint`: from the first 52 bits of the round digest to the crash point.

    The digest itself is taken as given. The code's floating-point expression is read
    in exact arithmetic with a house edge of 0.01. */
module CrashPoint {
  const TWO32: nat := 4294967296

  /** The code's expression for a remainder. */
  function RawPoint(remainder: nat): real
    requires remainder != 0
  {
    (TWO32 as real / remainder as real) * (1.0 - 0.01) * 100.0
  }

  function CrashPoint(digest: nat): real {
    if digest % 33 == 0 then 1.0
    else
      var remainder := digest % TWO32;
      if remainder == 0 then 1.0
      else
        var point := RawPoint(remainder).Floor as real / 100.0;
        if point > 1.0 then point else 1.0
  }

  /** The crash point in whole hundredths, apart from the divisible-by-33 case. */
  function Hundredths(remainder: nat): nat
    requires remainder != 0
  {
    var h := 99 * TWO32 / remainder;
    if h > 100 then h else 100
  }

  lemma Quotient(n: nat, r: nat)
    requires r != 0
    ensures (n as real / r as real).Floor == n / r
  {
    var q, x := n / r, n as real / r as real;
    assert q * r <= n < (q + 1) * r;
    assert x * r as real == n as real;
    RealProduct(q, r);
    RealProduct(q + 1, r);
    OrderByFactor(q as real, x, r as real);
    StrictOrderByFactor(x, (q + 1) as real, r as real);
  }

  lemma RealProduct(a: nat, b: nat)
    ensures (a * b) as real == a as real * b as real
  {
  }

  lemma StrictOrderByFactor(a: real, b: real, r: real)
    requires a * r < b * r && r > 0.0
    ensures a < b
  {
  }

  lemma OrderByFactor(a: real, b: real, r: real)
    requires a * r <= b * r && r > 0.0
    ensures a <= b
  {
  }

  lemma RawPointFloor(remainder: nat)
    requires remainder != 0
    ensures RawPoint(remainder).Floor == 99 * TWO32 / remainder
  {
    var n := 99 * TWO32;
    assert RawPoint(remainder) == n as real / remainder as real;
    Quotient(n, remainder);
  }

  /** Every crash point is a whole number of hundredths between 1 and 4252017623.04; it
      is 1 for a digest divisible by 33 or by 2^32. */
  lemma CrashPointRange(digest: nat)
    ensures 1.0 <= CrashPoint(digest) <= 4252017623.04
    ensures digest % 33 == 0 || digest % TWO32 == 0 ==> CrashPoint(digest) == 1.0
    ensures digest % 33 != 0 && digest % TWO32 != 0 ==>
              CrashPoint(digest) == Hundredths(digest % TWO32) as real / 100.0
  {
    var r := digest % TWO32;
    if digest % 33 != 0 && r != 0 {
      RawPointFloor(r);
      Smaller(99 * TWO32, r);
    }
  }

  lemma Smaller(n: nat, r: nat)
    requires r != 0
    ensures n / r <= n
  {
    var q := n / r;
    assert q * r <= n;
    FactorOrder(1, r, q);
  }

  /** The remainders whose crash point reaches k hundredths. */
  ghost function Reaching(k: nat): set<nat> {
    set r: nat | 1 <= r < TWO32 && Hundredths(r) >= k
  }

  ghost function UpTo(n: nat): (s: set<nat>)
    ensures forall r :: r in s <==> 1 <= r <= n
    ensures |s| == n
  {
    if n == 0 then {} else UpTo(n - 1) + {n}
  }

  lemma ReachesIff(n: nat, r: nat, k: nat)
    requires r != 0 && k != 0
    ensures n / r >= k <==> r <= n / k
  {
    var q, p := n / r, n / k;
    assert q * r <= n < (q + 1) * r && p * k <= n < (p + 1) * k;
    if q >= k { FactorOrder(k, q, r); assert k * r <= n; if r > p { FactorOrder(p + 1, r, k); } }
    if r <= p { FactorOrder(r, p, k); assert r * k <= n; if q < k { FactorOrder(q + 1, k, r); } }
  }

  lemma FactorOrder(a: nat, b: nat, c: nat)
    requires a <= b
    ensures a * c <= b * c && a * c == c * a && b * c == c * b
  {
  }

  /** The law of the house edge: of the 2^32 - 1 non-zero remainders, exactly
      floor(99 * 2^32 / k) crash at k/100 or later, for every k above 100. */
  lemma TailCount(k: nat)
    requires k > 100
    ensures |Reaching(k)| == 99 * TWO32 / k
  {
    var n := 99 * TWO32 / k;
    ReachesIff(99 * TWO32, 1, k);
    assert n < TWO32 by {
      assert n * k <= 99 * TWO32;
      FactorOrder(100, k, TWO32);
      if n >= TWO32 { FactorOrder(TWO32, n, k); }
    }
    forall r: nat | 1 <= r < TWO32 ensures Hundredths(r) >= k <==> r <= n {
      ReachesIff(99 * TWO32, r, k);
    }
    assert Reaching(k) == UpTo(n);
  }
}
