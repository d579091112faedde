/** Linear congruential steps x -> mult * x + plus modulo 2^k, and the fast jump over many of them. */
module Lcg {

  function Pow2(k: nat): (p: nat)
    ensures p >= 1
  {
    if k == 0 then 1 else 2 * Pow2(k - 1)
  }

  /** One step of the generator. */
  function Step(m: nat, mult: int, plus: int, x: int): (y: nat)
    requires m > 0
    ensures y < m
  {
    (mult * x + plus) % m
  }

  /** `n` steps, one after the other: what a jump must equal. */
  function Iterate(m: nat, mult: int, plus: int, x: int, n: nat): (y: int)
    requires m > 0
    ensures n > 0 ==> 0 <= y < m
  {
    if n == 0 then x else Step(m, mult, plus, Iterate(m, mult, plus, x, n - 1))
  }

  // ------------------------------------------------------- congruence modulo m

  ghost predicate Congruent(m: nat, a: int, b: int)
    requires m > 0
  {
    exists q :: a == b + Multiple(m, q)
  }

  ghost function Multiple(m: int, q: int): int { m * q }

  lemma CongruentIff(m: nat, a: int, b: int)
    requires m > 0
    ensures Congruent(m, a, b) <==> a % m == b % m
  {
    if Congruent(m, a, b) {
      var q :| a == b + Multiple(m, q);
      ModPlusMultiple(m, b, q);
    }
    if a % m == b % m {
      assert a == m * (a / m) + a % m && b == m * (b / m) + b % m;
      assert a == b + Multiple(m, a / m - b / m) by {
        assert m * (a / m - b / m) == m * (a / m) - m * (b / m);
      }
    }
  }

  lemma {:induction false} ModPlusMultiple(m: nat, b: int, q: int)
    requires m > 0
    ensures (b + Multiple(m, q)) % m == b % m
    decreases if q < 0 then -q else q
  {
    if q > 0 {
      ModPlusMultiple(m, b, q - 1);
      assert Multiple(m, q) == Multiple(m, q - 1) + m;
      ModShift(m, b + Multiple(m, q - 1));
    } else if q < 0 {
      ModPlusMultiple(m, b, q + 1);
      assert Multiple(m, q) == Multiple(m, q + 1) - m;
      ModShift(m, b + Multiple(m, q));
    }
  }

  lemma ModShift(m: nat, a: int)
    requires m > 0
    ensures (a + m) % m == a % m
  {
    var q, r := a / m, a % m;
    assert a == m * q + r;
    DivModUnique(m, a + m, q + 1, r);
  }

  lemma DivModUnique(m: nat, a: int, q: int, r: int)
    requires m > 0 && a == m * q + r && 0 <= r < m
    ensures a % m == r
  {
    var q', r' := a / m, a % m;
    assert a == m * q' + r';
    assert m * (q - q') == m * q - m * q' == r' - r;
    AtLeastOneMultiple(m, q - q');
  }

  lemma AtLeastOneMultiple(m: int, d: int)
    requires m > 0
    ensures d >= 1 ==> m * d >= m
    ensures d <= -1 ==> m * d <= -m
  {
  }

  lemma CongruentReduce(m: nat, a: int)
    requires m > 0
    ensures Congruent(m, a % m, a)
  {
    assert a == m * (a / m) + a % m;
    assert a % m == a + Multiple(m, -(a / m));
  }

  lemma CongruentSum(m: nat, a: int, b: int, c: int, d: int)
    requires m > 0 && Congruent(m, a, b) && Congruent(m, c, d)
    ensures Congruent(m, a + c, b + d)
  {
    var p :| a == b + Multiple(m, p);
    var q :| c == d + Multiple(m, q);
    assert a + c == b + d + Multiple(m, p + q);
  }

  lemma CongruentProduct(m: nat, a: int, b: int, c: int, d: int)
    requires m > 0 && Congruent(m, a, b) && Congruent(m, c, d)
    ensures Congruent(m, a * c, b * d)
  {
    var p :| a == b + Multiple(m, p);
    var q :| c == d + Multiple(m, q);
    calc {
      a * c;
      (b + m * p) * (d + m * q);
      b * d + b * (m * q) + (m * p) * d + (m * p) * (m * q);
      b * d + m * (b * q + p * d + m * p * q);
    }
    assert a * c == b * d + Multiple(m, b * q + p * d + m * p * q);
  }

  lemma CongruentChain(m: nat, a: int, b: int, c: int)
    requires m > 0 && Congruent(m, a, b) && Congruent(m, b, c)
    ensures Congruent(m, a, c)
  {
    var p :| a == b + Multiple(m, p);
    var q :| b == c + Multiple(m, q);
    assert a == c + Multiple(m, p + q);
  }

  lemma CongruentSelf(m: nat, a: int)
    requires m > 0
    ensures Congruent(m, a, a)
  {
    assert a == a + Multiple(m, 0);
  }

  // ------------------------------------- exact affine maps: steps without reduction

  /** x -> mult * x + plus over the integers. */
  datatype Affine = Affine(mult: int, plus: int)

  function Apply(f: Affine, x: int): int { f.mult * x + f.plus }

  /** First g, then f. */
  function Compose(f: Affine, g: Affine): Affine {
    Affine(f.mult * g.mult, f.mult * g.plus + f.plus)
  }

  const IDENTITY := Affine(1, 0)

  function Power(f: Affine, n: nat): Affine {
    if n == 0 then IDENTITY else Compose(f, Power(f, n - 1))
  }

  lemma ComposeAssociative(f: Affine, g: Affine, h: Affine)
    ensures Compose(Compose(f, g), h) == Compose(f, Compose(g, h))
  {
    var a, b, c := f.mult, g.mult, h.plus;
    assert (a * b) * c + (a * g.plus + f.plus) == a * (b * c + g.plus) + f.plus;
    assert (a * b) * h.mult == a * (b * h.mult);
  }

  lemma ComposeApply(f: Affine, g: Affine, x: int)
    ensures Apply(Compose(f, g), x) == Apply(f, Apply(g, x))
  {
    var a, b := f.mult, g.mult;
    assert (a * b) * x + (a * g.plus + f.plus) == a * (b * x + g.plus) + f.plus;
  }

  lemma {:induction false} PowerSum(f: Affine, a: nat, b: nat)
    ensures Power(f, a + b) == Compose(Power(f, a), Power(f, b))
  {
    if a == 0 {
      assert Compose(IDENTITY, Power(f, b)) == Power(f, b);
    } else {
      PowerSum(f, a - 1, b);
      ComposeAssociative(f, Power(f, a - 1), Power(f, b));
      assert a + b - 1 == (a - 1) + b;
    }
  }

  lemma {:induction false} PowerOfSquare(f: Affine, n: nat)
    ensures Power(Compose(f, f), n) == Power(f, 2 * n)
  {
    if n > 0 {
      PowerOfSquare(f, n - 1);
      ComposeAssociative(f, f, Power(f, 2 * n - 2));
      assert Power(f, 2 * n) == Compose(f, Power(f, 2 * n - 1)) == Compose(f, Compose(f, Power(f, 2 * n - 2)));
    }
  }

  /** Steps reduced modulo m agree with the exact power of the affine map. */
  lemma {:induction false} IterateIsPower(m: nat, f: Affine, x: int, n: nat)
    requires m > 0
    ensures Congruent(m, Iterate(m, f.mult, f.plus, x, n), Apply(Power(f, n), x))
  {
    if n == 0 {
      CongruentSelf(m, x);
    } else {
      var before, exact := Iterate(m, f.mult, f.plus, x, n - 1), Apply(Power(f, n - 1), x);
      IterateIsPower(m, f, x, n - 1);
      StepCongruent(m, f, before, exact);
      ComposeApply(f, Power(f, n - 1), x);
    }
  }

  lemma StepCongruent(m: nat, f: Affine, x: int, y: int)
    requires m > 0 && Congruent(m, x, y)
    ensures Congruent(m, Step(m, f.mult, f.plus, x), Apply(f, y))
  {
    CongruentSelf(m, f.mult);
    CongruentSelf(m, f.plus);
    CongruentProduct(m, f.mult, f.mult, x, y);
    CongruentSum(m, f.mult * x, f.mult * y, f.plus, f.plus);
    CongruentReduce(m, f.mult * x + f.plus);
    CongruentChain(m, Step(m, f.mult, f.plus, x), Apply(f, x), Apply(f, y));
  }

  /** Two affine maps with congruent coefficients. */
  ghost predicate Same(m: nat, f: Affine, g: Affine)
    requires m > 0
  {
    Congruent(m, f.mult, g.mult) && Congruent(m, f.plus, g.plus)
  }

  /** What one wrap-around assignment of each accumulator computes. */
  function Reduced(m: nat, f: Affine): Affine
    requires m > 0
  {
    Affine(f.mult % m, f.plus % m)
  }

  lemma SameCompose(m: nat, f: Affine, g: Affine, f': Affine, g': Affine)
    requires m > 0 && Same(m, f, f') && Same(m, g, g')
    ensures Same(m, Reduced(m, Compose(f, g)), Compose(f', g'))
  {
    CongruentProduct(m, f.mult, f'.mult, g.mult, g'.mult);
    CongruentProduct(m, f.mult, f'.mult, g.plus, g'.plus);
    CongruentSum(m, f.mult * g.plus, f'.mult * g'.plus, f.plus, f'.plus);
    CongruentReduce(m, f.mult * g.mult);
    CongruentReduce(m, f.mult * g.plus + f.plus);
    CongruentChain(m, (f.mult * g.mult) % m, f.mult * g.mult, f'.mult * g'.mult);
    CongruentChain(m, (f.mult * g.plus + f.plus) % m, f.mult * g.plus + f.plus, f'.mult * g'.plus + f'.plus);
  }

  lemma SameApply(m: nat, f: Affine, g: Affine, x: int)
    requires m > 0 && Same(m, f, g)
    ensures Congruent(m, Apply(f, x), Apply(g, x))
  {
    CongruentSelf(m, x);
    CongruentProduct(m, f.mult, g.mult, x, x);
    CongruentSum(m, f.mult * x, g.mult * x, f.plus, g.plus);
  }

  /** Halving an even exponent squares the map. */
  lemma JumpEven(f: Affine, half: nat, acc: Affine)
    ensures Compose(Power(f, 2 * half), acc) == Compose(Power(Compose(f, f), half), acc)
  {
    PowerOfSquare(f, half);
  }

  lemma JumpOdd(f: Affine, half: nat, acc: Affine)
    ensures Compose(Power(f, 2 * half + 1), acc) == Compose(Power(f, 2 * half), Compose(f, acc))
  {
    OddPower(f, half);
    ComposeAssociative(Power(f, 2 * half), f, acc);
  }

  lemma OddPower(f: Affine, half: nat)
    ensures Power(f, 2 * half + 1) == Compose(Power(f, 2 * half), f)
  {
    PowerSum(f, 2 * half, 1);
    PowerOne(f);
  }

  lemma PowerOne(f: Affine)
    ensures Power(f, 1) == f
  {
    assert Power(f, 1) == Compose(f, IDENTITY);
  }

  /** pcg_advance_lcg_32, _64 and _128 (k = 32, 64, 128): every assignment wraps modulo 2^k. */
  method AdvanceLcg(k: nat, state: nat, delta0: nat, mult0: nat, plus0: nat) returns (r: nat)
    requires state < Pow2(k) && delta0 < Pow2(k) && mult0 < Pow2(k) && plus0 < Pow2(k)
    ensures r == Iterate(Pow2(k), mult0, plus0, state, delta0)
  {
    var m := Pow2(k);
    var delta, curMult, curPlus := delta0, mult0, plus0;
    var accMult, accPlus := 1 % m, 0;
    ghost var f0 := Affine(mult0, plus0);
    ghost var cur, acc := f0, IDENTITY;
    CongruentSelf(m, mult0);
    CongruentSelf(m, plus0);
    CongruentSelf(m, 0);
    CongruentReduce(m, 1);
    assert Compose(Power(f0, delta0), IDENTITY) == Power(f0, delta0);
    while delta > 0
      invariant 0 <= accMult < m && 0 <= accPlus < m && 0 <= curMult < m && 0 <= curPlus < m
      invariant Same(m, Affine(curMult, curPlus), cur) && Same(m, Affine(accMult, accPlus), acc)
      invariant Compose(Power(cur, delta), acc) == Power(f0, delta0)
      decreases delta
    {
      ghost var half := delta / 2;
      if delta % 2 == 1 {
        SameCompose(m, Affine(curMult, curPlus), Affine(accMult, accPlus), cur, acc);
        assert curMult * accMult == accMult * curMult && curMult * accPlus == accPlus * curMult;
        accMult := (accMult * curMult) % m;
        accPlus := (accPlus * curMult + curPlus) % m;
        JumpOdd(cur, half, acc);
        acc := Compose(cur, acc);
      }
      JumpEven(cur, half, acc);
      SameCompose(m, Affine(curMult, curPlus), Affine(curMult, curPlus), cur, cur);
      assert (curMult + 1) * curPlus == curMult * curPlus + curPlus;
      curPlus := ((curMult + 1) * curPlus) % m;
      curMult := (curMult * curMult) % m;
      cur := Compose(cur, cur);
      delta := delta / 2;
    }
    assert Compose(Power(cur, 0), acc) == acc;
    SameApply(m, Affine(accMult, accPlus), acc, state);
    IterateIsPower(m, f0, state, delta0);
    r := (accMult * state + accPlus) % m;
    CongruentIff(m, accMult * state + accPlus, Apply(acc, state));
    CongruentIff(m, Iterate(m, mult0, plus0, state, delta0), Apply(acc, state));
    IterateSmall(m, mult0, plus0, state, delta0);
  }

  lemma IterateSmall(m: nat, mult: int, plus: int, x: int, n: nat)
    requires m > 0 && 0 <= x < m
    ensures 0 <= Iterate(m, mult, plus, x, n) < m
    ensures Iterate(m, mult, plus, x, n) % m == Iterate(m, mult, plus, x, n)
  {
    DivModUnique(m, Iterate(m, mult, plus, x, n), 0, Iterate(m, mult, plus, x, n));
  }

  // ---------------------------------------------------- jumps compose and undo

  lemma {:induction false} IterateSum(m: nat, mult: int, plus: int, x: int, a: nat, b: nat)
    requires m > 0
    ensures Iterate(m, mult, plus, Iterate(m, mult, plus, x, a), b) == Iterate(m, mult, plus, x, a + b)
  {
    if b > 0 { IterateSum(m, mult, plus, x, a, b - 1); }
  }

  /** For an odd multiplier 2^j steps change every state by a multiple of 2^j. */
  lemma {:induction false} PowerOfTwoSteps(f: Affine, j: nat)
    requires f.mult % 2 == 1
    ensures Same(Pow2(j), Power(f, Pow2(j)), IDENTITY)
    ensures Power(f, Pow2(j)).mult % 2 == 1
  {
    if j == 0 {
      PowerOne(f);
      assert f.mult == 1 + Multiple(1, f.mult - 1) && f.plus == 0 + Multiple(1, f.plus);
    } else {
      var p := Pow2(j - 1);
      PowerOfTwoSteps(f, j - 1);
      var g := Power(f, p);
      PowerSum(f, p, p);
      assert Power(f, Pow2(j)) == Compose(g, g);
      var s :| g.mult == 1 + Multiple(p, s);
      var t :| g.plus == 0 + Multiple(p, t);
      SquareNearIdentity(g, j, p, s, t);
    }
  }

  lemma SquareNearIdentity(g: Affine, j: nat, p: nat, s: int, t: int)
    requires j > 0 && p == Pow2(j - 1) && g.mult % 2 == 1
    requires g.mult == 1 + Multiple(p, s) && g.plus == Multiple(p, t)
    ensures Same(Pow2(j), Compose(g, g), IDENTITY)
    ensures Compose(g, g).mult % 2 == 1
  {
    var h := g.mult / 2;
    SquareOfOdd(g.mult, h, p, s);
    TwiceMultiple(g.mult, g.plus, h, p, t);
    assert g.mult * g.mult == 1 + Multiple(Pow2(j), s * (h + 1));
    assert g.mult * g.plus + g.plus == 0 + Multiple(Pow2(j), t * (h + 1));
  }

  lemma SquareOfOdd(a: int, h: int, p: int, s: int)
    requires a == 2 * h + 1 && a == 1 + p * s
    ensures a * a == 1 + 2 * p * (s * (h + 1))
    ensures (a * a) % 2 == 1
  {
    assert a * a - 1 == (a - 1) * (a + 1);
    assert (a - 1) * (a + 1) == (p * s) * (2 * (h + 1)) == 2 * p * (s * (h + 1));
    assert a * a == 2 * (2 * h * h + 2 * h) + 1;
  }

  lemma TwiceMultiple(a: int, b: int, h: int, p: int, t: int)
    requires a == 2 * h + 1 && b == p * t
    ensures a * b + b == 2 * p * (t * (h + 1))
  {
    assert a * b + b == (2 * (h + 1)) * (p * t);
  }

  /** The full turn: 2^k steps with an odd multiplier lead back to the start. */
  lemma FullTurn(k: nat, mult: int, plus: int, x: nat)
    requires mult % 2 == 1 && x < Pow2(k)
    ensures Iterate(Pow2(k), mult, plus, x, Pow2(k)) == x
  {
    var m, f := Pow2(k), Affine(mult, plus);
    PowerOfTwoSteps(f, k);
    SameApply(m, Power(f, m), IDENTITY, x);
    IterateIsPower(m, f, x, m);
    CongruentChain(m, Iterate(m, mult, plus, x, m), Apply(Power(f, m), x), x);
    CongruentIff(m, Iterate(m, mult, plus, x, m), x);
    IterateSmall(m, mult, plus, x, m);
    DivModUnique(m, x, 0, x);
  }

  /** Jumps add up modulo 2^k when the multiplier is odd. */
  lemma JumpsCompose(k: nat, mult: int, plus: int, x: nat, a: nat, b: nat)
    requires mult % 2 == 1 && x < Pow2(k) && a < Pow2(k) && b < Pow2(k)
    ensures Iterate(Pow2(k), mult, plus, Iterate(Pow2(k), mult, plus, x, a), b)
         == Iterate(Pow2(k), mult, plus, x, (a + b) % Pow2(k))
  {
    hide Pow2, Iterate;
    var m := Pow2(k);
    IterateSum(m, mult, plus, x, a, b);
    if a + b < m {
      DivModUnique(m, a + b, 0, a + b);
    } else {
      DivModUnique(m, a + b, 1, a + b - m);
      FullTurn(k, mult, plus, x);
      IterateSum(m, mult, plus, x, m, a + b - m);
    }
  }

  ghost predicate Undoes(k: nat, mult: int, plus: int, x: int, d: int) {
    0 <= x < Pow2(k) && 0 <= d <= Pow2(k) ==>
      Iterate(Pow2(k), mult, plus, Iterate(Pow2(k), mult, plus, x, d), Pow2(k) - d) == x
  }

  /** Going "the long way round" by 2^k - d really undoes a jump by d, for every state and every d,
      exactly when the multiplier is odd. */
  lemma LongWayRoundIffOdd(k: nat, mult: int, plus: int)
    requires k > 0
    ensures mult % 2 == 1 <==> forall x, d :: Undoes(k, mult, plus, x, d)
  {
    var m := Pow2(k);
    if mult % 2 == 1 {
      forall x, d ensures Undoes(k, mult, plus, x, d) {
        if 0 <= x < m && 0 <= d <= m {
          IterateSum(m, mult, plus, x, d, m - d);
          FullTurn(k, mult, plus, x);
        }
      }
    } else {
      EvenCollides(k, mult, plus);
      var half := Pow2(k - 1);
      assert Iterate(m, mult, plus, 0, 1) == Step(m, mult, plus, Iterate(m, mult, plus, 0, 0));
      assert Iterate(m, mult, plus, half, 1) == Step(m, mult, plus, Iterate(m, mult, plus, half, 0));
      assert !(Undoes(k, mult, plus, 0, 1) && Undoes(k, mult, plus, half, 1));
    }
  }

  /** With an even multiplier 0 and 2^(k-1) step to the same state. */
  lemma EvenCollides(k: nat, mult: int, plus: int)
    requires k > 0 && mult % 2 == 0
    ensures Step(Pow2(k), mult, plus, 0) == Step(Pow2(k), mult, plus, Pow2(k - 1))
  {
    var m, half := Pow2(k), Pow2(k - 1);
    var h := mult / 2;
    assert mult * half + plus == plus + Multiple(m, h) by {
      assert mult * half == (2 * h) * half == (2 * half) * h;
    }
    ModPlusMultiple(m, plus, h);
    assert mult * 0 + plus == plus;
  }
}
