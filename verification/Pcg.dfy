/** The 128-bit multiplicative PCG generator behind pcg64f_*: seeding, drawing and jumping ahead. */
module Pcg {
  import opened Lcg
  import opened Bits

  const MULTIPLIER: nat := 2549297995355413924 * 0x1_0000_0000_0000_0000 + 4865540595714422341
  const WORD: nat := 0x1_0000_0000_0000_0000

  ghost const MODULUS: nat := Pow2(128)

  /** The state after `n` draws. */
  ghost function StateAfter(state: nat, n: nat): (s: nat)
    requires state < MODULUS
    ensures s < MODULUS
  {
    IterateSmall(MODULUS, MULTIPLIER, 0, state, n);
    Iterate(MODULUS, MULTIPLIER, 0, state, n)
  }

  const TOP_SIX: nat := 0x400_0000_0000_0000_0000_0000_0000_0000 // 2^122

  /** XSL RR: xor the halves, rotate right by the top six bits. */
  function Output(state: nat): (r: nat)
    ensures r < WORD
  {
    var x := BitXor(state / WORD % WORD, state % WORD);
    var rot := state / TOP_SIX % 64;
    WordIsPower();
    XorFits(state / WORD % WORD, state % WORD, 64);
    RotationFits(x, rot);
    RotateRight(x, rot)
  }

  /** Bit i of a word is set exactly when the bits at (i + rot) % 64 of the two halves of the state differ, rot
      being the number in the top six bits. */
  lemma OutputBits(state: nat, i: nat)
    requires state < MODULUS && i < 64
    ensures
      var at := (i + state / TOP_SIX) % 64;
      Bit(Output(state), i) <==> (Bit(state, at) != Bit(state, at + 64))
  {
    hide Bit, RotateRight, Pow2, BitXor;
    var low, high := state % WORD, state / WORD;
    HighIsWord(state);
    var x, rot := BitXor(high, low), state / TOP_SIX;
    WordIsPower();
    XorFits(high, low, 64);
    RotatedBits(x, rot, i);
    var at := (i + rot) % 64;
    XorBits(high, low, at);
    StackedBits(low, high, 64, at);
    StackedBits(low, high, 64, at + 64);
    SplitAt(state, 64);
  }

  /** The high half is one word, and its top six bits are a number below 64. */
  lemma HighIsWord(state: nat)
    requires state < MODULUS
    ensures state / WORD < WORD && state / TOP_SIX < 64
  {
    hide Pow2;
    ModulusIsWordSquared();
  }

  /** No other word has these bits. */
  lemma OutputIsDetermined(state: nat, r: nat)
    requires state < MODULUS && r < WORD
    requires
      forall i: nat :: i < 64 ==>
        var at := (i + state / TOP_SIX) % 64;
        Bit(r, i) <==> (Bit(state, at) != Bit(state, at + 64))
    ensures r == Output(state)
  {
    hide Bit;
    forall i: nat | i < 64 ensures Bit(r, i) <==> Bit(Output(state), i) {
      OutputBits(state, i);
    }
    WordIsPower();
    BitsDetermine(r, Output(state), 64);
  }

  /** Draw number `i` (from 0) of the stream that starts in `state`. */
  ghost function Draw(state: nat, i: nat): (r: nat)
    requires state < MODULUS
    ensures r < WORD
  {
    Output(StateAfter(state, i + 1))
  }

  /** initstate | 1 */
  function Seeded(seed: nat): (state: nat)
    ensures state % 2 == 1 && state / 2 == seed / 2
  {
    if seed % 2 == 0 then seed + 1 else seed
  }

  /** Every draw multiplies the state, within 128 bits. */
  lemma EveryDrawMultiplies(state: nat, n: nat)
    requires state < MODULUS
    ensures StateAfter(state, 0) == state
    ensures StateAfter(state, n + 1) == MULTIPLIER * StateAfter(state, n) % MODULUS
  {
  }

  lemma StateAfterSum(state: nat, a: nat, b: nat)
    requires state < MODULUS
    ensures StateAfter(StateAfter(state, a), b) == StateAfter(state, a + b)
  {
    IterateSum(MODULUS, MULTIPLIER, 0, state, a, b);
  }

  lemma StartsHere(state: nat)
    requires state < MODULUS
    ensures StateAfter(state, 0) == state
  {
  }

  lemma DrawShift(state: nat, a: nat, i: nat)
    requires state < MODULUS
    ensures Draw(StateAfter(state, a), i) == Draw(state, a + i)
  {
    StateAfterSum(state, a, i + 1);
  }

  /** One more draw after `n` of them. */
  lemma NextDraw(state: nat, n: nat)
    requires state < MODULUS
    ensures StateAfter(StateAfter(state, n), 1) == StateAfter(state, n + 1)
    ensures Draw(StateAfter(state, n), 0) == Draw(state, n)
  {
    StateAfterSum(state, n, 1);
    DrawShift(state, n, 0);
  }

  lemma OddStep(m: nat, half: nat, a: nat, x: nat)
    requires m == 2 * half && half > 0 && a % 2 == 1 && x % 2 == 1
    ensures Step(m, a, 0, x) % 2 == 1
  {
    var p := a * x;
    OddProduct(a, x);
    var q := p / m;
    assert p == m * q + p % m;
    assert m * q == 2 * (half * q);
  }

  lemma OddProduct(a: nat, x: nat)
    requires a % 2 == 1 && x % 2 == 1
    ensures (a * x) % 2 == 1
  {
    var h, g := a / 2, x / 2;
    assert a * x == (2 * h + 1) * (2 * g + 1) == 2 * (2 * h * g + h + g) + 1;
  }

  lemma {:induction false} IterateStaysOdd(m: nat, half: nat, a: nat, x: nat, n: nat)
    requires m == 2 * half && half > 0 && a % 2 == 1 && x % 2 == 1
    ensures Iterate(m, a, 0, x, n) % 2 == 1
  {
    if n > 0 {
      IterateStaysOdd(m, half, a, x, n - 1);
      OddStep(m, half, a, Iterate(m, a, 0, x, n - 1));
    }
  }

  /** A seeded state stays odd, so the multiplicative generator never degenerates. */
  lemma StaysOdd(state: nat, n: nat)
    requires state < MODULUS && state % 2 == 1
    ensures StateAfter(state, n) % 2 == 1
  {
    IterateStaysOdd(MODULUS, Pow2(127), MULTIPLIER, state, n);
  }

  class Rng {
    var state: nat

    ghost predicate Valid()
      reads this
    {
      state < MODULUS
    }

    /** pcg_mcg_128_srandom_r with a 64-bit seed. */
    constructor (seed: nat)
      requires seed < WORD
      ensures Valid() && state == Seeded(seed) && state % 2 == 1
    {
      state := if seed % 2 == 0 then seed + 1 else seed;
      new;
      WordFits();
    }

    /** pcg_mcg_128_step_r */
    method Step()
      requires Valid()
      modifies this
      ensures Valid() && state == StateAfter(old(state), 1)
    {
      var m := ComputeModulus();
      state := (state * MULTIPLIER) % m;
      assert old(state) * MULTIPLIER == MULTIPLIER * old(state) + 0;
      assert Iterate(MODULUS, MULTIPLIER, 0, old(state), 0) == old(state);
    }

    /** pcg_mcg_128_xsl_rr_64_random_r */
    method Random() returns (r: nat)
      requires Valid()
      modifies this
      ensures Valid() && state == StateAfter(old(state), 1) && r == Draw(old(state), 0)
    {
      Step();
      r := Output(state);
    }

    /** pcg_mcg_128_advance_r: the jump lands where `delta` draws would. */
    method Advance(delta: nat)
      requires Valid() && delta < MODULUS
      modifies this
      ensures Valid() && state == StateAfter(old(state), delta)
    {
      MultiplierFits();
      state := AdvanceLcg(128, state, delta, MULTIPLIER, 0);
    }
  }

  method ComputeModulus() returns (m: nat)
    ensures m == MODULUS
  {
    m := Pow2(128);
  }

  lemma EightBits(k: nat)
    ensures Pow2(k + 8) == 0x100 * Pow2(k)
  {
    assert Pow2(k + 2) == 4 * Pow2(k);
    assert Pow2(k + 4) == 4 * Pow2(k + 2);
    assert Pow2(k + 6) == 4 * Pow2(k + 4);
    assert Pow2(k + 8) == 4 * Pow2(k + 6);
  }

  lemma ThirtyTwoBits(k: nat)
    ensures Pow2(k + 32) == 0x1_0000_0000 * Pow2(k)
  {
    EightBits(k);
    EightBits(k + 8);
    EightBits(k + 16);
    EightBits(k + 24);
  }

  lemma SixtyFourBits(k: nat)
    ensures Pow2(k + 64) == WORD * Pow2(k)
  {
    ThirtyTwoBits(k);
    ThirtyTwoBits(k + 32);
  }

  lemma ModulusIsWordSquared()
    ensures MODULUS == WORD * WORD
  {
    SixtyFourBits(64);
    WordIsPower();
  }

  lemma WordIsPower()
    ensures Pow2(64) == WORD
  {
    SixtyFourBits(0);
  }

  lemma WordFits()
    ensures WORD + 1 < MODULUS
  {
    ModulusIsWordSquared();
  }

  lemma MultiplierFits()
    ensures MULTIPLIER < MODULUS
  {
    ModulusIsWordSquared();
  }
}
