/** The bits of non-negative integers, and what or, exclusive or, shifts and rotations do to them. */
module Bits {
  import opened Lcg

  /** Bit i, the lowest being bit 0. */
  function Bit(n: nat, i: nat): bool {
    if i == 0 then n % 2 == 1 else Bit(n / 2, i - 1)
  }

  function BitOr(a: nat, b: nat): nat {
    if a == 0 && b == 0 then 0
    else 2 * BitOr(a / 2, b / 2) + if a % 2 == 1 || b % 2 == 1 then 1 else 0
  }

  function BitXor(a: nat, b: nat): nat {
    if a == 0 && b == 0 then 0
    else 2 * BitXor(a / 2, b / 2) + if a % 2 != b % 2 then 1 else 0
  }

  lemma {:induction false} OrBits(a: nat, b: nat, i: nat)
    ensures Bit(BitOr(a, b), i) <==> Bit(a, i) || Bit(b, i)
    decreases i
  {
    hide BitOr;
    OrHalf(a, b);
    if i > 0 { OrBits(a / 2, b / 2, i - 1); }
  }

  lemma OrHalf(a: nat, b: nat)
    ensures BitOr(a, b) / 2 == BitOr(a / 2, b / 2)
    ensures BitOr(a, b) % 2 == 1 <==> a % 2 == 1 || b % 2 == 1
  {
  }

  lemma {:induction false} XorBits(a: nat, b: nat, i: nat)
    ensures Bit(BitXor(a, b), i) <==> Bit(a, i) != Bit(b, i)
    decreases i
  {
    hide BitXor;
    XorHalf(a, b);
    if i > 0 { XorBits(a / 2, b / 2, i - 1); }
  }

  lemma XorHalf(a: nat, b: nat)
    ensures BitXor(a, b) / 2 == BitXor(a / 2, b / 2)
    ensures BitXor(a, b) % 2 == 1 <==> (a % 2 != b % 2)
  {
  }

  lemma {:induction false} XorFits(a: nat, b: nat, k: nat)
    requires a < Pow2(k) && b < Pow2(k)
    ensures BitXor(a, b) < Pow2(k)
  {
    if k > 0 { XorFits(a / 2, b / 2, k - 1); }
  }

  /** A number of k bits is determined by them. */
  lemma {:induction false} BitsDetermine(a: nat, b: nat, k: nat)
    requires a < Pow2(k) && b < Pow2(k)
    requires forall i: nat :: i < k ==> (Bit(a, i) <==> Bit(b, i))
    ensures a == b
  {
    if k > 0 {
      assert Bit(a, 0) <==> Bit(b, 0);
      forall i: nat | i < k - 1 ensures Bit(a / 2, i) <==> Bit(b / 2, i) {
        assert Bit(a, i + 1) <==> Bit(b, i + 1);
      }
      BitsDetermine(a / 2, b / 2, k - 1);
    }
  }

  /** So is every number. */
  lemma SameBits(a: nat, b: nat)
    requires forall i: nat :: Bit(a, i) <==> Bit(b, i)
    ensures a == b
  {
    hide Bit;
    BelowPower(a);
    BelowPower(b);
    PowersGrow(a, a + b);
    PowersGrow(b, a + b);
    BitsDetermine(a, b, a + b);
  }

  lemma {:induction false} BelowPower(n: nat)
    ensures n < Pow2(n)
  {
    if n > 0 { BelowPower(n - 1); }
  }

  lemma {:induction false} PowersGrow(j: nat, k: nat)
    requires j <= k
    ensures Pow2(j) <= Pow2(k)
    decreases k
  {
    if j < k { PowersGrow(j, k - 1); }
  }

  /** A number of `m` bits below another one: its bits come first. */
  lemma {:induction false} StackedBits(low: nat, high: nat, m: nat, i: nat)
    requires low < Pow2(m)
    ensures Bit(low + high * Pow2(m), i) <==> if i < m then Bit(low, i) else Bit(high, i - m)
    decreases m
  {
    if m == 0 {
      assert high * Pow2(0) == high;
    } else {
      var n := low + high * Pow2(m);
      HalfOfStack(low, high, Pow2(m - 1));
      if i > 0 { StackedBits(low / 2, high, m - 1, i - 1); }
    }
  }

  lemma HalfOfStack(low: nat, high: nat, p: nat)
    ensures (low + high * (2 * p)) / 2 == low / 2 + high * p && (low + high * (2 * p)) % 2 == low % 2
  {
    assert high * (2 * p) == 2 * (high * p);
  }

  /** x rotated right by `rot` within 64 bits. */
  function RotateRight(x: nat, rot: nat): nat
    requires rot < 64
  {
    x / Pow2(rot) + x % Pow2(rot) * Pow2(64 - rot)
  }

  lemma SplitAt(x: nat, k: nat)
    ensures x == x % Pow2(k) + x / Pow2(k) * Pow2(k) && x % Pow2(k) < Pow2(k)
  {
  }

  lemma {:induction false} PowersMultiply(a: nat, b: nat)
    ensures Pow2(a + b) == Pow2(a) * Pow2(b)
  {
    if a > 0 { PowersMultiply(a - 1, b); }
  }

  lemma QuotientFits(x: nat, rot: nat, k: nat)
    requires x < Pow2(rot + k)
    ensures x / Pow2(rot) < Pow2(k)
  {
    PowersMultiply(rot, k);
    SplitAt(x, rot);
    if x / Pow2(rot) >= Pow2(k) { TimesAtLeast(x / Pow2(rot), Pow2(k), Pow2(rot)); }
  }

  lemma TimesAtLeast(a: int, b: int, c: nat)
    requires a >= b
    ensures a * c >= b * c
  {
  }

  /** Bit i of the rotation is bit i + rot of the number, counted round the 64 bits. */
  lemma RotatedBits(x: nat, rot: nat, i: nat)
    requires x < Pow2(64) && rot < 64 && i < 64
    ensures Bit(RotateRight(x, rot), i) <==> Bit(x, (i + rot) % 64)
  {
    hide Bit, Pow2;
    var low, high := x / Pow2(rot), x % Pow2(rot);
    QuotientFits(x, rot, 64 - rot);
    SplitAt(x, rot);
    StackedBits(low, high, 64 - rot, i);
    if i < 64 - rot {
      StackedBits(high, low, rot, i + rot);
    } else {
      StackedBits(high, low, rot, i + rot - 64);
    }
  }

  lemma RotationFits(x: nat, rot: nat)
    requires x < Pow2(64) && rot < 64
    ensures RotateRight(x, rot) < Pow2(64)
  {
    hide Pow2;
    QuotientFits(x, rot, 64 - rot);
    SplitAt(x, rot);
    PowersMultiply(rot, 64 - rot);
    StackFits(x / Pow2(rot), x % Pow2(rot), Pow2(64 - rot), Pow2(rot));
  }

  lemma StackFits(low: nat, high: nat, p: nat, q: nat)
    requires low < p && high < q
    ensures low + high * p < q * p
  {
    TimesAtLeast(q, high + 1, p);
  }
}
