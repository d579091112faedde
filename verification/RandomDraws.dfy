/** Bounded random numbers and strings drawn from a Pcg.Rng (src/common.c). */
module RandomDraws {
  import opened Bits
  import opened Doubles
  import opened Lcg
  import opened Pcg

  // ------------------------------------------------------------------ get_random

  /** (double) max * genrand64_real2, truncated: the 53-bit draw is exact, the product is rounded. */
  function Scaled(max: nat, draw: nat): nat {
    RoundToDouble(max * (draw / 0x800)) / MANTISSA
  }

  /** For every 0 < max <= 2^53 and every 64-bit draw the result is below max. */
  lemma ScaledInRange(max: nat, draw: nat)
    requires 0 < max <= MANTISSA && draw < WORD
    ensures Scaled(max, draw) < max
  {
    var bits := draw / 0x800;
    var p := max * bits;
    RoundingError(p);
    assert p + max <= max * MANTISSA by { TimesMonotone(max, bits + 1, MANTISSA); }
    BelowQuotient(RoundToDouble(p), max);
  }

  lemma TimesMonotone(a: nat, b: nat, c: nat)
    requires b <= c
    ensures a * b <= a * c
  {
  }

  lemma BelowQuotient(x: nat, max: nat)
    requires x < max * MANTISSA
    ensures x / MANTISSA < max
  {
  }

  /** The value is the floor of max * bits / 2^53, one more exactly where that quotient is within half a gap
      between doubles below the next integer. */
  lemma ScaledExactly(max: nat, draw: nat)
    requires max <= HALF_MANTISSA && draw < WORD
    ensures
      var p := max * (draw / 0x800);
      var floor := p / MANTISSA;
      Scaled(max, draw) == if 2 * ((floor + 1) * MANTISSA - p) <= Ulp(p) then floor + 1 else floor
  {
    hide Ulp, RoundToDouble, Pow2;
    var bits := draw / 0x800;
    ProductFits(max, bits);
    RoundedQuotient(max * bits);
  }

  lemma ProductFits(max: nat, bits: nat)
    requires max <= HALF_MANTISSA && bits < MANTISSA
    ensures max * bits < HALF_MANTISSA * MANTISSA
  {
    TimesAtLeast(HALF_MANTISSA, max, bits);
  }

  lemma RoundedQuotient(p: nat)
    requires p < HALF_MANTISSA * MANTISSA
    ensures
      var floor := p / MANTISSA;
      RoundToDouble(p) / MANTISSA == if 2 * ((floor + 1) * MANTISSA - p) <= Ulp(p) then floor + 1 else floor
  {
    hide Ulp, RoundToDouble, Pow2;
    var floor := p / MANTISSA;
    var half := GapDivides(p);
    QuotientBounds(p, MANTISSA, floor);
    IntegersAreEvenMultiples(floor, half, Ulp(p));
    IntegersAreEvenMultiples(floor + 1, half, Ulp(p));
    NotBelow(p, 2 * (floor * half));
    Reaches(p, 2 * ((floor + 1) * half));
    RoundedFloor(RoundToDouble(p), floor);
  }

  /** Rounding does not cross a multiple of the gap from above ... */
  lemma NotBelow(p: nat, t: nat)
    requires t * Ulp(p) <= p
    ensures t * Ulp(p) <= RoundToDouble(p)
  {
    hide Ulp, RoundToDouble;
    var u, q := Neighbours(p);
    BetweenMultiples(t, q, u, p);
  }

  /** ... nor from below, and it reaches an even one exactly from half a gap away. */
  lemma Reaches(p: nat, t: nat)
    requires p < t * Ulp(p) && t % 2 == 0
    ensures RoundToDouble(p) <= t * Ulp(p)
    ensures RoundToDouble(p) == t * Ulp(p) <==> 2 * (t * Ulp(p) - p) <= Ulp(p)
  {
    hide Ulp, RoundToDouble;
    var u, q := Neighbours(p);
    NextMultiple(t, q, u, p);
  }

  lemma RoundedFloor(x: nat, floor: nat)
    requires floor * MANTISSA <= x <= (floor + 1) * MANTISSA
    ensures x / MANTISSA == if x == (floor + 1) * MANTISSA then floor + 1 else floor
  {
    if x == (floor + 1) * MANTISSA { QuotientIs(x, floor + 1); } else { QuotientIs(x, floor); }
  }

  /** Below 2^105 the gap divides 2^52. */
  lemma GapDivides(p: nat) returns (half: nat)
    requires p < HALF_MANTISSA * MANTISSA
    ensures half * Ulp(p) == HALF_MANTISSA
  {
    hide Ulp;
    var j := GapPower(p);
    FiftyTwo();
    if j > 52 { PowersApart(52, j); }
    half := Pow2(52 - j);
    PowersMultiply(52 - j, j);
  }

  lemma FiftyTwo()
    ensures Pow2(52) == HALF_MANTISSA
  {
    ThirtyTwoBits(20);
    EightBits(12);
    EightBits(4);
  }

  lemma IntegersAreEvenMultiples(n: nat, half: nat, u: nat)
    requires half * u == HALF_MANTISSA
    ensures 2 * (n * half) * u == n * MANTISSA
  {
    assert 2 * (n * half) * u == 2 * (n * (half * u)) by {
      assert n * half * u == n * (half * u);
    }
  }

  lemma BetweenMultiples(t: nat, q: nat, u: nat, p: nat)
    requires t * u <= p < (q + 1) * u
    ensures t <= q && t * u <= q * u
  {
    if t > q { TimesAtLeast(t, q + 1, u); }
    TimesAtLeast(q, t, u);
  }

  lemma NextMultiple(t: nat, q: nat, u: nat, p: nat)
    requires q * u <= p < t * u && p < (q + 1) * u
    ensures q + 1 <= t && (q + 1) * u <= t * u
    ensures q + 1 < t ==> (q + 2) * u <= t * u
  {
    if t <= q { TimesAtLeast(q, t, u); }
    TimesAtLeast(t, q + 1, u);
    if q + 1 < t { TimesAtLeast(t, q + 2, u); }
  }

  /** Larger draws give larger values. */
  lemma ScaledMonotone(max: nat, a: nat, b: nat)
    requires a <= b
    ensures Scaled(max, a) <= Scaled(max, b)
  {
    hide RoundToDouble;
    TimesMonotone(max, a / 0x800, b / 0x800);
    RoundMonotone(max * (a / 0x800), max * (b / 0x800));
  }

  /** Every value of the range is produced by some 64-bit draw. */
  lemma ScaledReachesAll(max: nat, v: nat) returns (draw: nat)
    requires v < max <= 0x8_0000_0000_0000 // 2^51
    ensures draw < WORD && Scaled(max, draw) == v
  {
    // The first 53-bit number whose product clears v * 2^53 by at least max.
    var target := v * MANTISSA + max;
    var bits := (target + max - 1) / max;
    ProductWindow(max, v, target, bits);
    draw := bits * 0x800;
    assert draw / 0x800 == bits;
    RoundingError(max * bits);
    var x := RoundToDouble(max * bits);
    assert v * MANTISSA <= x < (v + 1) * MANTISSA;
    QuotientIs(x, v);
  }

  lemma ProductWindow(max: nat, v: nat, target: nat, bits: nat)
    requires v < max <= 0x8_0000_0000_0000 && target == v * MANTISSA + max && bits == (target + max - 1) / max
    ensures target <= max * bits < target + max
    ensures bits < MANTISSA
  {
    var r := (target + max - 1) % max;
    assert target + max - 1 == max * bits + r;
    assert max * bits < v * MANTISSA + MANTISSA == (v + 1) * MANTISSA;
    TimesMonotone(MANTISSA, v + 1, max);
    FactorBelow(max, bits, MANTISSA);
  }

  lemma FactorBelow(a: nat, b: nat, c: nat)
    requires a * b < a * c
    ensures b < c
  {
    if c <= b { TimesMonotone(a, c, b); }
  }

  lemma QuotientIs(x: nat, v: nat)
    requires v * MANTISSA <= x < (v + 1) * MANTISSA
    ensures x / MANTISSA == v
  {
  }

  /** get_random */
  method GetRandom(rng: Rng, max: nat) returns (v: nat)
    requires rng.Valid()
    modifies rng
    ensures rng.Valid() && rng.state == StateAfter(old(rng.state), 1)
    ensures v == Scaled(max, Draw(old(rng.state), 0))
    ensures 0 < max <= MANTISSA ==> v < max
  {
    hide RoundToDouble, StateAfter, Draw;
    var r := rng.Random();
    v := RoundToDouble(max * (r / 0x800)) / MANTISSA;
    if 0 < max <= MANTISSA { ScaledInRange(max, r); }
  }

  // ------------------------------------------------------------------ get_nurand

  /** The non-uniform number of clause 2.1.6, from the two draws it uses. */
  function NuRand(a: nat, x: nat, y: nat, first: nat, second: nat): nat
    requires x <= y
  {
    BitOr(Scaled(a + 1, first), x + Scaled(y - x + 1, second)) % (y - x + 1) + x
  }

  /** Whatever number n has the bits that are set in one of the two drawn values or in both: the result is the
      number of [x, y] that leaves the rest n + x leaves when divided by y - x + 1. */
  lemma NuRandIs(a: nat, x: nat, y: nat, first: nat, second: nat, n: nat)
    requires x <= y
    requires forall i: nat :: Bit(n, i) <==> Bit(Scaled(a + 1, first), i) || Bit(x + Scaled(y - x + 1, second), i)
    ensures x <= NuRand(a, x, y, first, second) <= y
    ensures (n - (NuRand(a, x, y, first, second) - x)) % (y - x + 1) == 0
  {
    hide Scaled, Bit;
    var left, right := Scaled(a + 1, first), x + Scaled(y - x + 1, second);
    forall i: nat ensures Bit(n, i) <==> Bit(BitOr(left, right), i) {
      OrBits(left, right, i);
    }
    SameBits(n, BitOr(left, right));
    RestRemoved(n, y - x + 1);
  }

  lemma RestRemoved(n: nat, m: nat)
    requires m >= 1
    ensures (n - n % m) % m == 0
  {
    assert n - n % m == m * (n / m);
    MultipleHasNoRest(n / m, m);
  }

  /** Never outside [x, y], whatever the draws. */
  lemma NuRandInRange(a: nat, x: nat, y: nat, first: nat, second: nat)
    requires x <= y
    ensures x <= NuRand(a, x, y, first, second) <= y
  {
  }

  /** get_nurand: exactly two draws of the stream. */
  method GetNuRand(rng: Rng, a: nat, x: nat, y: nat) returns (v: nat)
    requires rng.Valid() && x <= y
    modifies rng
    ensures rng.Valid() && rng.state == StateAfter(old(rng.state), 2)
    ensures v == NuRand(a, x, y, Draw(old(rng.state), 0), Draw(old(rng.state), 1))
    ensures x <= v <= y
  {
    hide Scaled, StateAfter, Draw;
    ghost var start := rng.state;
    var low := GetRandom(rng, a + 1);
    var spread := GetRandom(rng, y - x + 1);
    NextDraw(start, 1);
    NuRandInRange(a, x, y, Draw(start, 0), Draw(start, 1));
    v := BitOr(low, x + spread) % (y - x + 1) + x;
  }

  // --------------------------------------------------------------------- strings

  /** Characters as positions in the alphabet of `letters` characters: the private generator seeded with `seed`
      gives the length first, then one position per character. */
  ghost function StringFrom(seed: nat, x: nat, y: nat, letters: nat): (s: seq<nat>)
    requires seed < WORD && x <= y
  {
    WordFits();
    var state := Seeded(seed);
    Letters(state, letters, x + Scaled(y - x + 1, Draw(state, 0)))
  }

  ghost function Letters(state: nat, letters: nat, n: nat): (s: seq<nat>)
    requires state < MODULUS
    ensures |s| == n
  {
    if n == 0 then [] else Letters(state, letters, n - 1) + [Scaled(letters, Draw(state, n))]
  }

  /** The text that belongs to a seed: its length is the first value of the private stream, its characters the
      following ones, in order. */
  lemma StringIs(seed: nat, x: nat, y: nat, letters: nat)
    requires seed < WORD && x <= y
    ensures Seeded(seed) < MODULUS
    ensures
      var s := StringFrom(seed, x, y, letters);
      && |s| == x + Scaled(y - x + 1, Draw(Seeded(seed), 0))
      && (forall i :: 0 <= i < |s| ==> s[i] == Scaled(letters, Draw(Seeded(seed), i + 1)))
  {
    WordFits();
    LettersAre(Seeded(seed), letters, x + Scaled(y - x + 1, Draw(Seeded(seed), 0)));
  }

  lemma {:induction false} LettersAre(state: nat, letters: nat, n: nat)
    requires state < MODULUS
    ensures forall i :: 0 <= i < n ==> Letters(state, letters, n)[i] == Scaled(letters, Draw(state, i + 1))
  {
    if n > 0 { LettersAre(state, letters, n - 1); }
  }

  /** Between x and y characters, every one of the alphabet. */
  lemma StringFits(seed: nat, x: nat, y: nat, letters: nat)
    requires seed < WORD && x <= y && y - x < MANTISSA && 0 < letters <= MANTISSA
    ensures x <= |StringFrom(seed, x, y, letters)| <= y
    ensures forall i :: 0 <= i < |StringFrom(seed, x, y, letters)| ==> StringFrom(seed, x, y, letters)[i] < letters
  {
    WordFits();
    var state := Seeded(seed);
    ScaledInRange(y - x + 1, Draw(state, 0));
    LettersInAlphabet(state, letters, |StringFrom(seed, x, y, letters)|);
  }

  lemma {:induction false} LettersInAlphabet(state: nat, letters: nat, n: nat)
    requires state < MODULUS && 0 < letters <= MANTISSA
    ensures forall i :: 0 <= i < n ==> Letters(state, letters, n)[i] < letters
  {
    if n > 0 {
      LettersInAlphabet(state, letters, n - 1);
      ScaledInRange(letters, Draw(state, n));
    }
  }

  /** get_a_string, get_l_string, get_n_string (letters = 128, 52, 10): whatever the length,
      exactly one draw of the stream. */
  method GetString(rng: Rng, x: nat, y: nat, letters: nat) returns (s: seq<nat>)
    requires rng.Valid() && x <= y
    modifies rng
    ensures rng.Valid() && rng.state == StateAfter(old(rng.state), 1)
    ensures s == StringFrom(Draw(old(rng.state), 0), x, y, letters)
  {
    hide Scaled, StateAfter, Draw;
    var seed := rng.Random();
    var local := new Rng(seed);
    ghost var state := local.state;
    var extra := GetRandom(local, y - x + 1);
    var length := x + extra + 1;
    s := [];
    var i := 0;
    while i < length - 1
      invariant 0 <= i <= length - 1 && local.Valid() && rng.Valid()
      invariant rng.state == StateAfter(old(rng.state), 1)
      invariant local.state == StateAfter(state, i + 1)
      invariant s == Letters(state, letters, i)
    {
      var c := GetRandom(local, letters);
      NextDraw(state, i + 1);
      s := s + [c];
      i := i + 1;
    }
  }
}
