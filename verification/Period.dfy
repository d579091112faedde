/** The period of the multiplicative generator: from an odd state it returns after exactly 2^126 draws. */
module Period {
  import opened Lcg
  import opened Pcg

  ghost function Exp(a: int, n: nat): int {
    if n == 0 then 1 else a * Exp(a, n - 1)
  }

  ghost predicate Divides(d: int, x: int) {
    exists q :: x == Multiple(d, q)
  }

  lemma {:induction false} ExpSum(a: int, m: nat, n: nat)
    ensures Exp(a, m + n) == Exp(a, m) * Exp(a, n)
  {
    if m > 0 {
      ExpSum(a, m - 1, n);
      assert a * (Exp(a, m - 1) * Exp(a, n)) == (a * Exp(a, m - 1)) * Exp(a, n);
    }
  }

  /** Steps without an increment multiply by a power. */
  lemma {:induction false} PowerIsExp(a: int, n: nat)
    ensures Power(Affine(a, 0), n) == Affine(Exp(a, n), 0)
  {
    if n > 0 { PowerIsExp(a, n - 1); }
  }

  // ------------------------------------------------- residues of powers of a = 5 mod 8

  lemma TimesFiveModEight(a: int, e: int)
    requires a % 8 == 5 && (e % 8 == 1 || e % 8 == 5)
    ensures (a * e) % 8 == if e % 8 == 1 then 5 else 1
  {
    CongruentIff(8, a, 5);
    CongruentIff(8, e, e % 8);
    CongruentProduct(8, a, 5, e, e % 8);
    CongruentIff(8, a * e, 5 * (e % 8));
  }

  lemma {:induction false} ExpModEight(a: int, n: nat)
    requires a % 8 == 5
    ensures Exp(a, n) % 8 == if n % 2 == 0 then 1 else 5
  {
    if n > 0 {
      ExpModEight(a, n - 1);
      TimesFiveModEight(a, Exp(a, n - 1));
    }
  }

  // ------------------------------------------------------------- divisibility by powers of two

  lemma Halve(j: nat, x: int)
    requires Divides(Pow2(j + 1), 2 * x)
    ensures Divides(Pow2(j), x)
  {
    var q :| 2 * x == Multiple(Pow2(j + 1), q);
    TwiceTimes(Pow2(j), q);
    assert x == Multiple(Pow2(j), q);
  }

  lemma Twice(j: nat, x: int)
    requires Divides(Pow2(j), x)
    ensures Divides(Pow2(j + 1), 2 * x)
  {
    var q :| x == Multiple(Pow2(j), q);
    TwiceTimes(Pow2(j), q);
    assert 2 * x == Multiple(Pow2(j + 1), q);
  }

  lemma TwiceTimes(p: int, q: int)
    ensures Multiple(2 * p, q) == 2 * Multiple(p, q)
  {
  }

  lemma EvenIfDivisible(j: nat, x: int)
    requires j > 0 && Divides(Pow2(j), x)
    ensures x % 2 == 0
  {
    hide Multiple;
    var q :| x == Multiple(Pow2(j), q);
    TwiceTimes(Pow2(j - 1), q);
  }

  lemma OddTimesOdd(x: int, y: int)
    requires y % 2 == 1 && (x * y) % 2 == 0
    ensures x % 2 == 0
  {
    if x % 2 == 1 { ProductOfOdds(x, y); }
  }

  lemma ProductOfOdds(x: int, y: int)
    requires x % 2 == 1 && y % 2 == 1
    ensures (x * y) % 2 == 1
  {
    var g, h := x / 2, y / 2;
    assert x * y == (2 * g + 1) * (2 * h + 1) == 2 * (2 * g * h + g + h) + 1;
  }

  /** An odd factor contributes no power of two. */
  lemma {:induction false} CancelOdd(j: nat, x: int, y: int)
    requires y % 2 == 1 && Divides(Pow2(j), x * y)
    ensures Divides(Pow2(j), x)
  {
    if j == 0 {
      assert x == Multiple(1, x);
    } else {
      EvenIfDivisible(j, x * y);
      OddTimesOdd(x, y);
      var h := x / 2;
      assert x * y == 2 * (h * y) by { assert x == 2 * h; }
      Halve(j - 1, h * y);
      CancelOdd(j - 1, h, y);
      Twice(j - 1, h);
    }
  }

  lemma DividesProduct(d: int, x: int, y: int)
    requires Divides(d, x)
    ensures Divides(d, x * y)
  {
    var q :| x == Multiple(d, q);
    assert (d * q) * y == d * (q * y);
    assert x * y == Multiple(d, q * y);
  }

  // ------------------------------------------------------------- the order of a modulo 2^k

  lemma DifferenceOfSquares(a: int, h: nat)
    ensures Exp(a, 2 * h) - 1 == (Exp(a, h) - 1) * (Exp(a, h) + 1)
  {
    ExpSum(a, h, h);
    var e := Exp(a, h);
    assert e * e - 1 == (e - 1) * (e + 1);
  }

  /** e + 1 contributes exactly one factor of two when e = 1 mod 4. */
  lemma SquareStep(k: nat, e: int)
    requires k >= 1 && e % 4 == 1
    ensures Divides(Pow2(k), (e - 1) * (e + 1)) <==> Divides(Pow2(k - 1), e - 1)
  {
    var w := (e + 1) / 2;
    assert (e - 1) * (e + 1) == 2 * ((e - 1) * w) by { assert e + 1 == 2 * w; }
    if Divides(Pow2(k), (e - 1) * (e + 1)) {
      Halve(k - 1, (e - 1) * w);
      CancelOdd(k - 1, e - 1, w);
    }
    if Divides(Pow2(k - 1), e - 1) {
      DividesProduct(Pow2(k - 1), e - 1, w);
      Twice(k - 1, (e - 1) * w);
    }
  }

  lemma OneDivides(x: int)
    ensures Divides(Pow2(0), x)
  {
    assert x == Multiple(Pow2(0), x);
  }

  lemma {:induction false} OrderDividesExponent(k: nat, a: int, n: nat)
    requires k >= 2 && a % 8 == 5 && Divides(Pow2(k), Exp(a, n) - 1)
    ensures Divides(Pow2(k - 2), n)
  {
    hide Exp, Pow2, Divides;
    if k == 2 {
      OneDivides(n);
    } else {
      ExpModEight(a, n);
      EightDivides(k, Exp(a, n) - 1);
      var h := n / 2;
      ExpModEight(a, h);
      DifferenceOfSquares(a, h);
      SquareStep(k, Exp(a, h));
      OrderDividesExponent(k - 1, a, h);
      Twice(k - 3, h);
    }
  }

  lemma EightDivides(k: nat, x: int)
    requires k >= 3 && Divides(Pow2(k), x)
    ensures x % 8 == 0
  {
    hide Multiple;
    var q :| x == Multiple(Pow2(k), q);
    TwiceTimes(Pow2(k - 1), q);
    TwiceTimes(Pow2(k - 2), q);
    TwiceTimes(Pow2(k - 3), q);
    assert x == 8 * Multiple(Pow2(k - 3), q);
  }

  lemma FourDivides(x: int)
    requires x % 4 == 0
    ensures Divides(Pow2(2), x)
  {
    assert Pow2(1) == 2;
    assert x == Multiple(Pow2(2), x / 4);
  }

  lemma {:induction false} OrderReached(k: nat, a: int, n: nat)
    requires k >= 2 && a % 8 == 5 && Divides(Pow2(k - 2), n)
    ensures Divides(Pow2(k), Exp(a, n) - 1)
  {
    hide Exp, Pow2, Divides;
    if k == 2 {
      ExpModEight(a, n);
      FourDivides(Exp(a, n) - 1);
    } else {
      EvenIfDivisible(k - 2, n);
      var h := n / 2;
      Halve(k - 3, h);
      OrderReached(k - 1, a, h);
      ExpModEight(a, h);
      DifferenceOfSquares(a, h);
      SquareStep(k, Exp(a, h));
    }
  }

  // ------------------------------------------------------------- the period

  lemma CongruentIsDivides(m: nat, a: int, b: int)
    requires m > 0
    ensures Congruent(m, a, b) <==> Divides(m, a - b)
  {
    if Congruent(m, a, b) {
      var q :| a == b + Multiple(m, q);
      assert a - b == Multiple(m, q);
    }
    if Divides(m, a - b) {
      var q :| a - b == Multiple(m, q);
      assert a == b + Multiple(m, q);
    }
  }

  /** From an odd state n steps lead back exactly when 2^(k-2) divides n. */
  lemma PeriodOfOddState(k: nat, a: int, s: nat, n: nat)
    requires k >= 2 && a % 8 == 5 && s % 2 == 1 && s < Pow2(k)
    ensures Iterate(Pow2(k), a, 0, s, n) == s <==> Divides(Pow2(k - 2), n)
  {
    hide Pow2, Iterate;
    var m, e, r := Pow2(k), Exp(a, n), Iterate(Pow2(k), a, 0, s, n);
    IterateSmall(m, a, 0, s, n);
    IterateIsPower(m, Affine(a, 0), s, n);
    PowerIsExp(a, n);
    assert Congruent(m, r, e * s);
    CongruentIff(m, r, e * s);
    CongruentIff(m, e * s, s);
    DivModUnique(m, s, 0, s);
    assert r == s <==> Congruent(m, e * s, s);
    CongruentIsDivides(m, e * s, s);
    assert e * s - s == (e - 1) * s;
    if r == s {
      CancelOdd(k, e - 1, s);
      OrderDividesExponent(k, a, n);
    }
    if Divides(Pow2(k - 2), n) {
      OrderReached(k, a, n);
      DividesProduct(m, e - 1, s);
    }
  }

  /** The generator behind pcg64f: its period from every seeded state is 2^126. */
  lemma GeneratorPeriod(state: nat, n: nat)
    requires state < MODULUS && state % 2 == 1
    ensures StateAfter(state, n) == state <==> Divides(Pow2(126), n)
  {
    hide Pow2, Iterate;
    PeriodOfOddState(128, MULTIPLIER, state, n);
  }

  /** Fewer than 2^126 draws never lead back. */
  lemma NoEarlyReturn(state: nat, n: nat)
    requires state < MODULUS && state % 2 == 1 && 0 < n < Pow2(126)
    ensures StateAfter(state, n) != state
  {
    hide Pow2, StateAfter;
    GeneratorPeriod(state, n);
    TooSmall(Pow2(126), n);
  }

  lemma TooSmall(d: nat, n: nat)
    requires 0 < n < d
    ensures !Divides(d, n)
  {
    forall q ensures n != Multiple(d, q) {
      AtLeastOneMultiple(d, q);
    }
  }
}
