/** Non-negative integers as doubles: products are rounded to 53 significant bits, ties to even. */
module Doubles {
  import opened Lcg
  import opened Bits

  const MANTISSA: nat := 0x20_0000_0000_0000 // 2^53
  const HALF_MANTISSA: nat := 0x10_0000_0000_0000

  /** The gap between neighbouring doubles around the integer `p`. */
  function Ulp(p: nat): (u: nat)
    ensures u >= 1
  {
    if p < MANTISSA then 1 else 2 * Ulp(p / 2)
  }

  /** `p` rounded to 53 significant bits, ties to even. */
  function RoundToDouble(p: nat): nat {
    var u := Ulp(p);
    var q, r := p / u, p % u;
    if 2 * r < u || (2 * r == u && q % 2 == 0) then q * u else (q + 1) * u
  }

  /** An integer with at most 53 significant bits. */
  predicate IsDouble(d: nat) {
    d % Ulp(d) == 0
  }

  function Distance(a: int, b: int): nat {
    if a < b then b - a else a - b
  }

  // ------------------------------------------------------------- the gaps

  /** `p` has 53 significant bits above its last j. */
  predicate InBinade(p: nat, j: nat) {
    p < Pow2(j) * MANTISSA && (j > 0 ==> Pow2(j) * HALF_MANTISSA <= p)
  }

  lemma {:induction false} GapPower(p: nat) returns (j: nat)
    ensures Ulp(p) == Pow2(j) && InBinade(p, j)
  {
    if p < MANTISSA {
      j := 0;
    } else {
      var h := GapPower(p / 2);
      j := h + 1;
      assert Pow2(j) == 2 * Pow2(h);
      if h == 0 { assert p / 2 >= HALF_MANTISSA; }
    }
  }

  /** The gap is 2^j exactly where 2^(j + 52) <= p < 2^(j + 53); it is 1 below 2^53. */
  lemma GapIff(p: nat, j: nat)
    ensures Ulp(p) == Pow2(j) <==> InBinade(p, j)
  {
    hide Ulp;
    var k := GapPower(p);
    if j < k { PowersApart(j, k); }
    if k < j { PowersApart(k, j); }
  }

  lemma {:induction false} PowersApart(j: nat, k: nat)
    requires j < k
    ensures 2 * Pow2(j) <= Pow2(k)
    decreases k
  {
    if j < k - 1 { PowersApart(j, k - 1); }
  }

  /** Larger numbers have the same gap or one at least twice as wide. */
  lemma GapsApart(p: nat, q: nat)
    requires p <= q
    ensures Ulp(p) == Ulp(q) || 2 * Ulp(p) <= Ulp(q)
  {
    hide Ulp;
    var j := GapPower(p);
    var k := GapPower(q);
    if j < k { PowersApart(j, k); }
    if k < j { PowersApart(k, j); }
  }

  // ------------------------------------------------------------- rounding

  /** The two neighbours, and which of them is taken. */
  lemma Neighbours(p: nat) returns (u: nat, q: nat)
    ensures u == Ulp(p) && q * u <= p < (q + 1) * u
    ensures RoundToDouble(p) == if 2 * (p - q * u) < u || (2 * (p - q * u) == u && q % 2 == 0) then q * u
                                else (q + 1) * u
    ensures (u > 1 ==> HALF_MANTISSA <= q) && q < MANTISSA
  {
    hide Ulp;
    var j := GapPower(p);
    u, q := Ulp(p), p / Ulp(p);
    QuotientBounds(p, u, q);
    if q >= MANTISSA { TimesAtLeast(q, MANTISSA, u); }
    if j > 0 && q < HALF_MANTISSA { TimesAtLeast(HALF_MANTISSA, q + 1, u); }
  }

  lemma QuotientBounds(p: nat, u: nat, q: nat)
    requires u >= 1 && q == p / u
    ensures q * u <= p < (q + 1) * u && p % u == p - q * u
  {
  }

  /** Rounding keeps the order. */
  lemma RoundMonotone(p: nat, q: nat)
    requires p <= q
    ensures RoundToDouble(p) <= RoundToDouble(q)
  {
    hide Ulp, RoundToDouble;
    var u, m := Neighbours(p);
    var v, n := Neighbours(q);
    GapsApart(p, q);
    if u == v {
      if n < m { TimesAtLeast(m, n + 1, u); }
      if m < n { TimesAtLeast(n, m + 1, u); }
    } else {
      TimesAtLeast(MANTISSA, m + 1, u);
      TimesAtLeast(n, HALF_MANTISSA, v);
      assert HALF_MANTISSA * v >= MANTISSA * u;
    }
  }

  lemma MultipleIsDouble(q: nat, j: nat)
    requires (j > 0 ==> HALF_MANTISSA <= q) && q <= MANTISSA
    ensures IsDouble(q * Pow2(j))
  {
    hide Ulp, Pow2;
    var u := Pow2(j);
    if q < MANTISSA {
      if j > 0 { TimesAtLeast(q, HALF_MANTISSA, u); }
      TimesAtMost(q + 1, MANTISSA, u);
      GapIff(q * u, j);
      MultipleHasNoRest(q, u);
    } else {
      TwicePower(j);
      GapIff(q * u, j + 1);
      MultipleHasNoRest(HALF_MANTISSA, 2 * u);
    }
  }

  lemma TwicePower(j: nat)
    ensures Pow2(j + 1) == 2 * Pow2(j)
  {
  }

  lemma TimesAtMost(a: nat, b: nat, u: nat)
    requires a <= b && u >= 1
    ensures (a - 1) * u < b * u
  {
  }

  lemma MultipleHasNoRest(q: nat, u: nat)
    requires u >= 1
    ensures (q * u) % u == 0
  {
    var n := (q * u) / u;
    QuotientBounds(q * u, u, n);
    if n > q { TimesAtLeast(n, q + 1, u); }
    if n < q { TimesAtLeast(q, n + 1, u); }
  }

  /** The result is a double. */
  lemma RoundIsDouble(p: nat)
    ensures IsDouble(RoundToDouble(p))
  {
    hide Ulp, RoundToDouble, IsDouble;
    var u, q := Neighbours(p);
    var j := GapPower(p);
    MultipleIsDouble(q, j);
    if j > 0 || q < MANTISSA { MultipleIsDouble(q + 1, j); }
  }

  /** No double lies strictly between the neighbours. */
  lemma NoneBetween(p: nat, u: nat, q: nat, d: nat)
    requires u == Ulp(p) && q * u <= p < (q + 1) * u && IsDouble(d) && (u > 1 ==> HALF_MANTISSA <= q) && q < MANTISSA
    ensures d <= q * u || (q + 1) * u <= d
  {
    hide Ulp;
    if q * u < d < (q + 1) * u {
      var j := GapPower(p);
      TimesAtLeast(MANTISSA, q + 1, u);
      if j > 0 { TimesAtLeast(q, HALF_MANTISSA, u); }
      GapIff(d, j);
      StrictlyBetween(d, u, q);
    }
  }

  lemma StrictlyBetween(d: nat, u: nat, q: nat)
    requires u >= 1 && q * u < d < (q + 1) * u
    ensures d % u != 0
  {
    var n := d / u;
    QuotientBounds(d, u, n);
    if n > q { TimesAtLeast(n, q + 1, u); }
    if n < q { TimesAtLeast(q, n + 1, u); }
  }

  /** Rounding to nearest: no double is closer, and of two that are equally close the even one is taken. */
  lemma NearestDouble(p: nat, d: nat)
    requires IsDouble(d)
    ensures IsDouble(RoundToDouble(p))
    ensures Distance(RoundToDouble(p), p) <= Distance(d, p)
    ensures Distance(RoundToDouble(p), p) == Distance(d, p) && d != RoundToDouble(p) ==>
              RoundToDouble(p) % (2 * Ulp(p)) == 0
  {
    hide Ulp, RoundToDouble, IsDouble;
    RoundIsDouble(p);
    var u, q := Neighbours(p);
    NoneBetween(p, u, q, d);
    EvenMultiple(q, u);
    EvenMultiple(q + 1, u);
  }

  lemma EvenMultiple(q: nat, u: nat)
    requires u >= 1
    ensures q % 2 == 0 ==> (q * u) % (2 * u) == 0
  {
    if q % 2 == 0 {
      assert q * u == (q / 2) * (2 * u);
      MultipleHasNoRest(q / 2, 2 * u);
    }
  }

  /** Rounding is off by at most one part in 2^53. */
  lemma RoundingError(p: nat)
    ensures 0 - p <= (RoundToDouble(p) - p) * MANTISSA <= p
  {
    hide Ulp, RoundToDouble;
    var u, q := Neighbours(p);
    if u > 1 { TimesAtLeast(q, HALF_MANTISSA, u); }
  }
}
