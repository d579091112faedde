/** Parallel data generation: the rows of partitions 1..P, one after the other, are the rows of one run. */
module Partitions {
  import opened Common
  import opened Doubles
  import opened Lcg
  import opened Pcg
  import opened Period
  import opened RandomDraws
  import opened RandomInsertion
  import opened TableLayouts

  // ------------------------------------------------------------- what is written

  datatype File = TableFile(table: Table) | OrderLineFile

  datatype FileLine = FileLine(file: File, cells: seq<Cell>)

  /** get_percentage(draw) < .10, exactly: both sides in units of 2^-105. */
  function InFirstTenth(draw: nat): bool {
    RoundToDouble((draw / 0x800) * 0x10_0000_0000_0001) < 7205759403792794 * 0x2_0000_0000_0000
  }

  const TENTH_BITS: nat := 900719925474099 // the first 53-bit percentage that is not below .10

  /** The draws that count as below one tenth: those whose 53 leading bits stand for less than 900719925474099. */
  lemma InFirstTenthIff(draw: nat)
    ensures InFirstTenth(draw) <==> draw / 0x800 < TENTH_BITS
  {
    hide RoundToDouble;
    var bits := draw / 0x800;
    LastBelowTenth();
    FirstAboveTenth();
    if bits < TENTH_BITS {
      RoundMonotone(bits * 0x10_0000_0000_0001, 900719925474098 * 0x10_0000_0000_0001);
    } else {
      RoundMonotone(TENTH_BITS * 0x10_0000_0000_0001, bits * 0x10_0000_0000_0001);
    }
  }

  /** The products of the two neighbouring percentages: 2^49 times a number of 53 bits, and a rest that rounds up. */
  lemma LastBelowTenth()
    ensures RoundToDouble(900719925474098 * 0x10_0000_0000_0001) == 7205759403792786 * 0x2_0000_0000_0000
  {
    hide RoundToDouble;
    RoundsUp(900719925474098 * 0x10_0000_0000_0001, 7205759403792785, 337769972052786);
  }

  lemma FirstAboveTenth()
    ensures RoundToDouble(900719925474099 * 0x10_0000_0000_0001) == 7205759403792794 * 0x2_0000_0000_0000
  {
    hide RoundToDouble;
    RoundsUp(900719925474099 * 0x10_0000_0000_0001, 7205759403792793, 337769972052787);
  }

  lemma RoundsUp(p: nat, q: nat, r: nat)
    requires p == q * 0x2_0000_0000_0000 + r && HALF_MANTISSA <= q < MANTISSA
    requires 0x1_0000_0000_0000 < r < 0x2_0000_0000_0000
    ensures RoundToDouble(p) == (q + 1) * 0x2_0000_0000_0000
  {
    hide Ulp, RoundToDouble;
    FortyNine();
    GapIff(p, 49);
    var u, n := Neighbours(p);
  }

  lemma FortyNine()
    ensures Pow2(49) == 0x2_0000_0000_0000
  {
    ThirtyTwoBits(17);
    EightBits(9);
    EightBits(1);
  }

  /** Where "ORIGINAL" goes in a text of `length` characters, or -1; decided by a private stream. */
  ghost function OriginalAt(seed: nat, length: nat): (at: int)
    requires seed < WORD && 8 <= length < MANTISSA
    ensures at == -1 || 0 <= at <= length - 8
  {
    WordFits();
    var local := Seeded(seed);
    ScaledInRange(length - 7, Draw(local, 1));
    if InFirstTenth(Draw(local, 0)) then Scaled(length - 7, Draw(local, 1)) else -1
  }

  /** One text in ten holds "ORIGINAL": those whose private stream begins with a draw below the tenth. The next
      draw says where. */
  lemma OriginalIff(seed: nat, length: nat)
    requires seed < WORD && 8 <= length < MANTISSA
    ensures Seeded(seed) < MODULUS
    ensures OriginalAt(seed, length) >= 0 <==> Draw(Seeded(seed), 0) / 0x800 < TENTH_BITS
    ensures OriginalAt(seed, length) >= 0 ==> OriginalAt(seed, length) == Scaled(length - 7, Draw(Seeded(seed), 1))
  {
    hide InFirstTenth, Scaled, Draw;
    WordFits();
    InFirstTenthIff(Draw(Seeded(seed), 0));
  }

  /** One customer in ten has bad credit: those whose draw is below the tenth. */
  lemma CreditIff(state: nat)
    requires state < MODULUS
    ensures FieldCell(Credit, state) == Text("BC") <==> Draw(state, 0) / 0x800 < TENTH_BITS
    ensures FieldCell(Credit, state) == Text("GC") <==> TENTH_BITS <= Draw(state, 0) / 0x800
  {
    hide InFirstTenth, Draw;
    InFirstTenthIff(Draw(state, 0));
    assert Text("BC") != Text("GC") by { assert "BC"[0] != "GC"[0]; }
  }

  /** The number of lines of an order, first draw of its private stream. */
  ghost function DrawnLineCount(seed: nat): nat
    requires seed < WORD
  {
    WordFits();
    Scaled(11, Draw(Seeded(seed), 0)) + 5
  }

  /** 5 lines, and one more for each eleventh that the draw has reached, rounding aside. */
  lemma LineCountIs(seed: nat)
    requires seed < WORD
    ensures Seeded(seed) < MODULUS
    ensures
      var p := 11 * (Draw(Seeded(seed), 0) / 0x800);
      var n := p / MANTISSA;
      DrawnLineCount(seed) == if 2 * ((n + 1) * MANTISSA - p) <= Ulp(p) then n + 6 else n + 5
  {
    hide Scaled, Draw;
    WordFits();
    ScaledExactly(11, Draw(Seeded(seed), 0));
  }

  ghost function FieldCell(f: Field, state: nat): Cell
    requires state < MODULUS
  {
    match f
    case Fixed(cell) => cell
    case Random(max, plus) => Number(Scaled(max, Draw(state, 0)) + plus)
    case Price(max, plus) => Cents(Scaled(max, Draw(state, 0)) + plus)
    case Name => Number(NuRand(255, 0, 999, Draw(state, 0), Draw(state, 1)))
    case Credit => Text(if InFirstTenth(Draw(state, 0)) then "BC" else "GC")
    case Str(lengths, letters) => Letters(letters, StringFrom(Draw(state, 0), lengths.0, lengths.1, letters))
    case MaybeOriginal =>
      StringFits(Draw(state, 0), 26, 50, A_LETTERS);
      var text := StringFrom(Draw(state, 0), 26, 50, A_LETTERS);
      Data(text, OriginalAt(Draw(state, 1), |text|))
    case LineCount => Number(DrawnLineCount(Draw(state, 0)))
  }

  /** A text that may hold "ORIGINAL": the characters come from the generator that the first draw seeds, the mark
      from the one that the second draw seeds. */
  lemma DataIs(state: nat)
    requires state < MODULUS && Seeded(Draw(state, 0)) < MODULUS && Seeded(Draw(state, 1)) < MODULUS
    ensures
      var (text, mark) := (Seeded(Draw(state, 0)), Seeded(Draw(state, 1)));
      var c := FieldCell(MaybeOriginal, state);
      && c.Data? && |c.positions| == 26 + Scaled(25, Draw(text, 0))
      && (forall i :: 0 <= i < |c.positions| ==> c.positions[i] == Scaled(128, Draw(text, i + 1)))
      && (c.mark >= 0 <==> Draw(mark, 0) / 0x800 < TENTH_BITS)
      && (c.mark >= 0 ==> c.mark == Scaled(|c.positions| - 7, Draw(mark, 1)))
  {
    hide Draw, Scaled, InFirstTenth, StringFrom, OriginalAt;
    StringFits(Draw(state, 0), 26, 50, A_LETTERS);
    StringIs(Draw(state, 0), 26, 50, A_LETTERS);
    OriginalIff(Draw(state, 1), |StringFrom(Draw(state, 0), 26, 50, A_LETTERS)|);
  }

  ghost function CellsUpTo(state: nat, fields: seq<Field>, n: nat): seq<Cell>
    requires state < MODULUS && n <= |fields|
  {
    if n == 0 then []
    else CellsUpTo(state, fields, n - 1) + [FieldCell(fields[n - 1], StateAfter(state, DrawsUpTo(fields, n - 1)))]
  }

  ghost function Cells(state: nat, fields: seq<Field>): seq<Cell>
    requires state < MODULUS
  {
    CellsUpTo(state, fields, |fields|)
  }

  lemma {:induction false} CellAt(state: nat, fields: seq<Field>, n: nat, m: nat)
    requires state < MODULUS && n < m <= |fields|
    ensures |CellsUpTo(state, fields, m)| == m
    ensures CellsUpTo(state, fields, m)[n] == FieldCell(fields[n], StateAfter(state, DrawsUpTo(fields, n)))
    decreases m
  {
    hide FieldCell, StateAfter, DrawsUpTo;
    if n < m - 1 {
      CellAt(state, fields, n, m - 1);
    } else if m > 1 {
      CellAt(state, fields, 0, m - 1);
    }
  }

  // ------------------------------------------------------------- orders and order lines

  /** Draws of the private stream before line n. */
  function DrawsOfLines(items: nat, i: nat, j: nat, k: nat, n: nat): nat {
    if n == 0 then 0 else DrawsOfLines(items, i, j, k, n - 1) + DrawsOfFields(LineFields(items, i, j, k, n - 1))
  }

  /** The first n order lines; `state` is the private stream after the line count. */
  ghost function OrderLines(items: nat, state: nat, i: nat, j: nat, k: nat, n: nat): seq<FileLine>
    requires state < MODULUS
  {
    if n == 0 then []
    else
      OrderLines(items, state, i, j, k, n - 1)
      + [FileLine(OrderLineFile, Cells(StateAfter(state, DrawsOfLines(items, i, j, k, n - 1)),
                                   LineFields(items, i, j, k, n - 1)))]
  }

  /** Position of the line-count draw among the draws of order k. */
  function SeedDraw(k: nat): nat {
    if k < CARRIED then 1 else 0
  }

  ghost function OrderOut(items: nat, state: nat, i: nat, j: nat, k: nat, customer: int): seq<FileLine>
    requires state < MODULUS
  {
    WordFits();
    var seed := Draw(state, SeedDraw(k));
    [FileLine(TableFile(Orders), Cells(state, OrderFields(i, j, k, customer)))]
    + OrderLines(items, StateAfter(Seeded(seed), 1), i, j, k, DrawnLineCount(seed))
  }

  /** The first n orders of a district, customers taken from the list in turn. */
  ghost function OrdersUpTo(items: nat, state: nat, i: nat, j: nat, list: seq<int>, n: nat): seq<FileLine>
    requires state < MODULUS && n <= |list|
  {
    if n == 0 then []
    else
      OrdersUpTo(items, state, i, j, list, n - 1)
      + OrderOut(items, StateAfter(state, DrawsOfOrders(n - 1)), i, j, n - 1, list[n - 1])
  }

  /** Every order finds a customer in its district's list; where one does not, the generator exits. */
  predicate Fits(c: Config, t: Table) {
    t == Orders ==> c.orders <= PickCount(c.customers) + 1
  }

  /** How many orders find a customer. */
  function Served(c: Config): nat {
    if c.orders <= PickCount(c.customers) + 1 then c.orders else PickCount(c.customers) + 1
  }

  ghost function DistrictOrders(c: Config, state: nat, i: nat, j: nat): seq<FileLine>
    requires state < MODULUS
  {
    var picks := PickCount(c.customers);
    OrdersUpTo(c.items, StateAfter(state, picks), i, j, Inserted(Picks(state, picks)), Served(c))
  }

  ghost function EmitUnit(c: Config, u: Unit, state: nat): seq<FileLine>
    requires state < MODULUS
  {
    match u
    case Row(t, fields) => [FileLine(TableFile(t), Cells(state, fields))]
    case OrdersOf(i, j) => DistrictOrders(c, state, i, j)
  }

  /** Everything written for `units`, the main stream being in `state` before them. */
  ghost function Emit(c: Config, state: nat, units: seq<Unit>): seq<FileLine>
    requires state < MODULUS
  {
    if |units| == 0 then []
    else
      var front := units[..|units| - 1];
      Emit(c, state, front) + EmitUnit(c, units[|units| - 1], StateAfter(state, DrawsOf(c, front)))
  }

  lemma {:induction false} EmitAppend(c: Config, state: nat, a: seq<Unit>, b: seq<Unit>)
    requires state < MODULUS
    ensures Emit(c, state, a + b) == Emit(c, state, a) + Emit(c, StateAfter(state, DrawsOf(c, a)), b)
  {
    hide EmitUnit, StateAfter, DrawsOf;
    if |b| == 0 {
      assert a + b == a;
    } else {
      var front := b[..|b| - 1];
      assert (a + b)[..|a + b| - 1] == a + front;
      EmitAppend(c, state, a, front);
      DrawsOfAppend(c, a, front);
      StateAfterSum(state, DrawsOf(c, a), DrawsOf(c, front));
    }
  }

  // ------------------------------------------------------------- one partition

  /** Where the main stream stands when partition `part` starts writing block `start`. */
  ghost function StartState(c: Config, t: Table, seed: nat, part: nat, start: nat): (s: nat)
    requires seed < WORD
    ensures s < MODULUS
  {
    WordFits();
    if part > 1 then StateAfter(Seeded(seed), Delta(c, t, start) % MODULUS) else Seeded(seed)
  }

  /** The rows of blocks start..end-1, as partition `part` draws them. */
  ghost function PartOutput(c: Config, t: Table, seed: nat, part: nat, start: nat, end: nat): seq<FileLine>
    requires seed < WORD
  {
    Emit(c, StartState(c, t, seed, part, start), Blocks(c, t, start, end))
  }

  /** What partition `part` writes, or None where it exits for want of a customer. */
  ghost function Written(c: Config, t: Table, seed: nat, part: nat, start: nat, end: nat): Option<seq<FileLine>>
    requires seed < WORD
  {
    if Fits(c, t) || end <= start then Some(PartOutput(c, t, seed, part, start, end)) else None
  }

  /** Jumping by a wrapped distance is jumping by the distance. */
  lemma WrappedJump(state: nat, d: nat)
    requires state < MODULUS
    ensures StateAfter(state, d % MODULUS) == StateAfter(state, d)
  {
    hide Pow2, StateAfter;
    FullTurns(state, d % MODULUS, d / MODULUS);
    assert d == d % MODULUS + (d / MODULUS) * MODULUS;
  }

  lemma {:induction false} FullTurns(state: nat, d: nat, turns: nat)
    requires state < MODULUS
    ensures StateAfter(state, d + turns * MODULUS) == StateAfter(state, d)
  {
    hide Pow2, StateAfter;
    if turns > 0 {
      FullTurns(state, d, turns - 1);
      var n := d + (turns - 1) * MODULUS;
      assert d + turns * MODULUS == n + MODULUS;
      StateAfterSum(state, n, MODULUS);
      OneTurn(StateAfter(state, n));
    } else {
      assert turns * MODULUS == 0;
    }
  }

  lemma OneTurn(state: nat)
    requires state < MODULUS
    ensures StateAfter(state, MODULUS) == state
  {
    hide Pow2, Iterate;
    FullTurn(128, MULTIPLIER, 0, state);
  }

  /** A partition starts exactly where a sequential run would be. */
  lemma StartsInStep(c: Config, t: Table, seed: nat, part: nat, start: nat)
    requires seed < WORD && (part <= 1 ==> start == 0)
    requires t != Orders || c.customers >= 1
    ensures StartState(c, t, seed, part, start)
         == StateAfter(StartState(c, t, seed, 1, 0), DrawsOf(c, Blocks(c, t, 0, start)))
  {
    hide Pow2, StateAfter, Delta, DrawsOf;
    WordFits();
    DeltaIsExact(c, t, start);
    NothingDrawn(c);
    StartsHere(Seeded(seed));
    WrappedJump(Seeded(seed), DrawsOf(c, Blocks(c, t, 0, start)));
  }

  /** Where a later partition starts is where the sequential run would be exactly when the orders table has
      a customer or nothing is skipped: with no customers the advance falls short by ten draws per warehouse,
      and the generator does not return to a state in so few draws. */
  lemma StartsInStepIff(c: Config, t: Table, seed: nat, part: nat, start: Count)
    requires seed < WORD && part > 1
    ensures StartState(c, t, seed, part, start)
         == StateAfter(StartState(c, t, seed, 1, 0), DrawsOf(c, Blocks(c, t, 0, start)))
        <==> (t != Orders || c.customers >= 1 || start == 0)
  {
    hide Pow2, StateAfter, Delta, DrawsOf, Blocks;
    WordFits();
    DeltaIsExact(c, t, start);
    var exact := DrawsOf(c, Blocks(c, t, 0, start));
    if t != Orders || c.customers >= 1 || start == 0 {
      WrappedJump(Seeded(seed), exact);
    } else {
      DeltaFallsShort(c, start);
      ShortJumpDiffers(Seeded(seed), exact, 10 * start);
    }
  }

  lemma DeltaFallsShort(c: Config, start: nat)
    requires c.customers == 0
    ensures Delta(c, Orders, start) == DrawsOf(c, Blocks(c, Orders, 0, start)) - 10 * start
  {
    hide Delta, DrawsOf, Blocks, BlockDelta;
    BlocksDraws(c, Orders, start);
    DeltaArithmetic(c, Orders, start);
  }

  /** A wrapped jump that falls short by d, and d steps more. */
  lemma ShortJumpAndRest(state: nat, far: nat, d: nat)
    requires state < MODULUS
    ensures StateAfter(StateAfter(state, (far - d) % MODULUS), d) == StateAfter(state, far)
  {
    hide Pow2, StateAfter;
    var near := (far - d) % MODULUS;
    StateAfterSum(state, near, d);
    SameRemainder(far - d, d);
    WrappedJump(state, near + d);
    WrappedJump(state, far);
  }

  /** Jumping short by 0 < d < 2^126 draws ends in another state. */
  lemma ShortJumpDiffers(state: nat, far: nat, d: nat)
    requires state < MODULUS && state % 2 == 1 && 0 < d <= 0x7_0000_0000
    ensures StateAfter(state, (far - d) % MODULUS) != StateAfter(state, far)
  {
    hide Pow2, StateAfter;
    ShortJumpAndRest(state, far, d);
    StaysOdd(state, (far - d) % MODULUS);
    SmallDistance();
    NoEarlyReturn(StateAfter(state, (far - d) % MODULUS), d);
  }

  lemma SameRemainder(a: int, d: nat)
    ensures (a % MODULUS + d) % MODULUS == (a + d) % MODULUS
  {
    hide Pow2;
    CongruentReduce(MODULUS, a);
    CongruentSelf(MODULUS, d);
    CongruentSum(MODULUS, a % MODULUS, a, d, d);
    CongruentIff(MODULUS, a % MODULUS + d, a + d);
  }

  lemma SmallDistance()
    ensures 0x7_0000_0000 < Pow2(126)
  {
    SixtyFourBits(62);
    hide Pow2;
  }

  // ------------------------------------------------------------- partition bounds

  const UNIT_ROUNDOFF_INVERSE: real := 9007199254740992.0 // 2^53

  /** Zero and the magnitudes that occur as quotients and products of ints. */
  predicate Ordinary(x: real) {
    x == 0.0 || 1.0 <= x * 4294967296.0 <= 79228162514264337593543950336.0 // 2^-32 .. 2^64
  }

  /** What is used of rounding to the nearest double: it is monotone and off by one part in 2^53 at most. */
  ghost predicate Rounds(fl: real -> real) {
    && (forall x :: Ordinary(x) ==> -x <= (fl(x) - x) * UNIT_ROUNDOFF_INVERSE <= x)
    && (forall x, y :: Ordinary(x) && Ordinary(y) && x <= y ==> fl(x) <= fl(y))
  }

  /** round() of a non-negative double, as an int. */
  function RoundHalfUp(x: real): int { (x + 0.5).Floor }

  function Quotient(w: int, parts: int): real
    requires parts > 0
  {
    w as real / parts as real
  }

  /** partition_size * (double) p before rounding; partition_size is rounded already. */
  ghost function Product(fl: real -> real, w: Count, parts: Count, p: nat): real
    requires parts > 0
  {
    fl(Quotient(w, parts)) * p as real
  }

  /** Where partition `p` stops and the next one starts, before the clamp. */
  ghost function Bound(fl: real -> real, w: Count, parts: Count, p: nat): int
    requires parts > 0
  {
    RoundHalfUp(fl(Product(fl, w, parts, p)))
  }

  /** Where partition `p` stops: at the start of the next one, but never beyond the last warehouse. */
  ghost function End(fl: real -> real, w: Count, parts: Count, p: nat): int
    requires parts > 0
  {
    if Bound(fl, w, parts, p) > w then w else Bound(fl, w, parts, p)
  }

  lemma QuotientSize(w: Count, parts: Count)
    requires parts > 0
    ensures Quotient(w, parts) * parts as real == w as real
    ensures w == 0 ==> Quotient(w, parts) == 0.0
    ensures w > 0 ==> 1.0 <= Quotient(w, parts) * 2147483648.0 && Quotient(w, parts) <= 2147483648.0
  {
    var q, n := Quotient(w, parts), parts as real;
    assert q * n == w as real;
    if w > 0 {
      assert q >= 0.0;
      assert q * n <= q * 2147483648.0;
      assert q * n >= q;
    }
  }

  lemma RoundingIsClose(fl: real -> real, x: real)
    requires Rounds(fl) && Ordinary(x)
    ensures -x <= (fl(x) - x) * UNIT_ROUNDOFF_INVERSE <= x
    ensures x <= fl(x) * 2.0 <= 4.0 * x
  {
  }

  lemma RoundingIsMonotone(fl: real -> real, x: real, y: real)
    requires Rounds(fl) && Ordinary(x) && Ordinary(y) && x <= y
    ensures fl(x) <= fl(y)
  {
  }

  lemma ProductOrdinary(fl: real -> real, w: Count, parts: Count, p: nat)
    requires parts > 0 && p <= parts && Rounds(fl)
    ensures Ordinary(Quotient(w, parts)) && fl(Quotient(w, parts)) >= 0.0
    ensures Ordinary(Product(fl, w, parts, p)) && (p == 0 ==> Product(fl, w, parts, p) == 0.0)
  {
    hide Rounds, Quotient;
    QuotientSize(w, parts);
    RoundingIsClose(fl, Quotient(w, parts));
    if p > 0 { ScaledOrdinary(fl(Quotient(w, parts)), p as real); }
  }

  lemma ScaledOrdinary(b: real, x: real)
    requires 1.0 <= x <= 2147483648.0
    requires b == 0.0 || (1.0 <= b * 4294967296.0 && b <= 4294967296.0)
    ensures Ordinary(b * x)
  {
    var y := b * x;
    if b == 0.0 {
      assert y == 0.0;
    } else {
      assert b <= y by { ScaleMonotone(b, 1.0, x); }
      assert y <= b * 2147483648.0 by { ScaleMonotone(b, x, 2147483648.0); }
      assert 1.0 <= y * 4294967296.0;
    }
  }

  lemma ProductMonotone(fl: real -> real, w: Count, parts: Count, p: nat)
    requires parts > 0 && p < parts && Rounds(fl)
    ensures 0.0 <= Product(fl, w, parts, p) <= Product(fl, w, parts, p + 1)
  {
    hide Rounds, Quotient;
    ProductOrdinary(fl, w, parts, p);
    var b := fl(Quotient(w, parts));
    ScaleMonotone(b, 0.0, p as real);
    ScaleMonotone(b, p as real, (p + 1) as real);
  }

  lemma BoundsMonotone(fl: real -> real, w: Count, parts: Count, p: nat)
    requires parts > 0 && p < parts && Rounds(fl)
    ensures 0 <= Bound(fl, w, parts, p) <= Bound(fl, w, parts, p + 1)
    ensures p == 0 ==> Bound(fl, w, parts, p) == 0
  {
    hide Rounds, Quotient, Product;
    ProductOrdinary(fl, w, parts, p);
    ProductOrdinary(fl, w, parts, p + 1);
    ProductMonotone(fl, w, parts, p);
    RoundingIsMonotone(fl, Product(fl, w, parts, p), Product(fl, w, parts, p + 1));
    RoundingIsClose(fl, Product(fl, w, parts, p));
  }

  lemma ScaleMonotone(b: real, x: real, y: real)
    requires b >= 0.0 && x <= y
    ensures b * x <= b * y
  {
  }

  /** The last bound reaches w, so nothing is left out. */
  lemma LastBound(fl: real -> real, w: Count, parts: Count)
    requires parts > 0 && Rounds(fl)
    ensures Bound(fl, w, parts, parts) >= w
  {
    hide Rounds, Quotient, Product;
    ProductOrdinary(fl, w, parts, parts);
    var x := Product(fl, w, parts, parts);
    ProductNear(fl, w, parts, parts);
    QuotientSize(w, parts);
    RoundingIsClose(fl, x);
    NearWhole(fl(x), x, w);
  }

  /** The exact share of the first `p` partitions. */
  function Share(w: Count, parts: Count, p: nat): real
    requires parts > 0
  {
    Quotient(w, parts) * p as real
  }

  lemma ProductNear(fl: real -> real, w: Count, parts: Count, p: nat)
    requires parts > 0 && p <= parts && Rounds(fl)
    ensures
      var share := Share(w, parts, p);
      -share <= (Product(fl, w, parts, p) - share) * UNIT_ROUNDOFF_INVERSE <= share
  {
    hide Rounds, Quotient;
    ProductOrdinary(fl, w, parts, p);
    var q := Quotient(w, parts);
    RoundingIsClose(fl, q);
    ScaleError(fl(q), q, p as real, Share(w, parts, p));
  }

  lemma ShareSize(w: Count, parts: Count, p: nat)
    requires parts > 0 && p <= parts
    ensures 0.0 <= Share(w, parts, p) <= w as real
    ensures Share(w, parts, p) * parts as real == (w * p) as real
  {
    hide Quotient;
    QuotientSize(w, parts);
    var q, n, m := Quotient(w, parts), parts as real, p as real;
    assert q >= 0.0;
    ScaleMonotone(q, 0.0, m);
    ScaleMonotone(q, m, n);
    assert (q * m) * n == (q * n) * m;
    assert w as real * m == (w * p) as real;
  }

  /** Every bound is the whole number nearest to w * p / parts, but for what two roundings can shift it. */
  lemma BoundIsNearest(fl: real -> real, w: Count, parts: Count, p: nat)
    requires parts > 0 && p <= parts && Rounds(fl)
    ensures Share(w, parts, p) * parts as real == (w * p) as real
    ensures -0.500001 <= Bound(fl, w, parts, p) as real - Share(w, parts, p) <= 0.500001
  {
    hide Rounds, Quotient, Product, Share;
    ProductOrdinary(fl, w, parts, p);
    ProductNear(fl, w, parts, p);
    ShareSize(w, parts, p);
    RoundingIsClose(fl, Product(fl, w, parts, p));
  }

  lemma ScaleError(b: real, q: real, n: real, w: real)
    requires q * n == w && n >= 0.0 && -q <= (b - q) * UNIT_ROUNDOFF_INVERSE <= q
    ensures -w <= (b * n - w) * UNIT_ROUNDOFF_INVERSE <= w
  {
    assert (b * n - w) * UNIT_ROUNDOFF_INVERSE == ((b - q) * UNIT_ROUNDOFF_INVERSE) * n;
    ScaleMonotone(n, -q, (b - q) * UNIT_ROUNDOFF_INVERSE);
    ScaleMonotone(n, (b - q) * UNIT_ROUNDOFF_INVERSE, q);
  }

  lemma NearWhole(d: real, x: real, w: Count)
    requires -(w as real) <= (x - w as real) * UNIT_ROUNDOFF_INVERSE <= w as real
    requires -x <= (d - x) * UNIT_ROUNDOFF_INVERSE
    ensures RoundHalfUp(d) >= w
  {
    assert d + 0.5 >= w as real;
  }

  // ------------------------------------------------------------- the main theorem

  /** One file after the other; nothing if one of them is missing. */
  function Joined(a: Option<seq<FileLine>>, b: Option<seq<FileLine>>): Option<seq<FileLine>> {
    if a.Some? && b.Some? then Some(a.value + b.value) else None
  }

  /** What partitions 1..p write together, or None if one of them exits. */
  ghost function Pieces(c: Config, t: Table, seed: nat, fl: real -> real, w: Count, parts: Count, p: nat)
    : Option<seq<FileLine>>
    requires seed < WORD && 0 < parts && p <= parts && Rounds(fl)
  {
    if p == 0 then Some([])
    else
      BoundsMonotone(fl, w, parts, p - 1);
      Joined(Pieces(c, t, seed, fl, w, parts, p - 1),
             Written(c, t, seed, p, Bound(fl, w, parts, p - 1), End(fl, w, parts, p)))
  }

  /** The one cardinality of the orders table for which partitions start out of step and write something: without
      customers the list still serves one order. */
  predicate OutOfStep(c: Config, t: Table) { t == Orders && c.customers == 0 && c.orders == 1 }

  lemma {:induction false} PiecesAreOneRun(c: Config, t: Table, seed: nat, fl: real -> real,
                                           w: Count, parts: Count, p: nat)
    requires seed < WORD && 0 < parts && p <= parts && Rounds(fl) && !OutOfStep(c, t)
    ensures Bound(fl, w, parts, p) >= 0
    ensures Pieces(c, t, seed, fl, w, parts, p) == Written(c, t, seed, 1, 0, End(fl, w, parts, p))
  {
    hide Emit, StartState, Bound, DrawsOf, StateAfter, Written, Joined;
    if p == 0 {
      BoundsMonotone(fl, w, parts, 0);
      NothingWritten(c, t, seed, 1, 0, 0);
    } else {
      PiecesAreOneRun(c, t, seed, fl, w, parts, p - 1);
      BoundsMonotone(fl, w, parts, p - 1);
      if p == 1 { BoundsMonotone(fl, w, parts, 0); }
      NextPiece(c, t, seed, p, Bound(fl, w, parts, p - 1), Bound(fl, w, parts, p), w);
    }
  }

  lemma NothingEmitted(c: Config, state: nat)
    requires state < MODULUS
    ensures Emit(c, state, []) == []
  {
  }

  lemma NothingWritten(c: Config, t: Table, seed: nat, part: nat, start: nat, end: nat)
    requires seed < WORD && end <= start
    ensures Written(c, t, seed, part, start, end) == Some([])
  {
    hide Emit, StartState;
    NothingEmitted(c, StartState(c, t, seed, part, start));
  }

  function Min(a: nat, b: nat): nat { if a > b then b else a }

  lemma NextPiece(c: Config, t: Table, seed: nat, part: nat, lo: nat, hi: nat, w: nat)
    requires seed < WORD && lo <= hi && (part <= 1 ==> lo == 0) && !OutOfStep(c, t)
    ensures Written(c, t, seed, 1, 0, Min(hi, w))
         == Joined(Written(c, t, seed, 1, 0, Min(lo, w)), Written(c, t, seed, part, lo, Min(hi, w)))
  {
    hide PartOutput;
    if Min(hi, w) <= lo {
      NothingWritten(c, t, seed, part, lo, Min(hi, w));
      assert PartOutput(c, t, seed, 1, 0, Min(lo, w)) + [] == PartOutput(c, t, seed, 1, 0, Min(hi, w));
    } else if Fits(c, t) {
      NextRows(c, t, seed, part, lo, Min(hi, w));
    }
  }

  /** Where every order finds a customer, a stretch of blocks and the next one are written as one stretch. */
  lemma NextRows(c: Config, t: Table, seed: nat, part: nat, lo: nat, hi: nat)
    requires seed < WORD && lo <= hi && (part <= 1 ==> lo == 0) && !OutOfStep(c, t) && Fits(c, t)
    ensures PartOutput(c, t, seed, 1, 0, hi)
         == PartOutput(c, t, seed, 1, 0, lo) + PartOutput(c, t, seed, part, lo, hi)
  {
    hide Emit, StartState, DrawsOf, StateAfter, Block;
    if t == Orders && c.customers == 0 {
      NoOrdersWritten(c, StartState(c, t, seed, 1, 0), 0, hi);
      NoOrdersWritten(c, StartState(c, t, seed, 1, 0), 0, lo);
      NoOrdersWritten(c, StartState(c, t, seed, part, lo), lo, hi);
    } else {
      StartsInStep(c, t, seed, part, lo);
      BlocksSplit(c, t, 0, lo, hi);
      EmitAppend(c, StartState(c, t, seed, 1, 0), Blocks(c, t, 0, lo), Blocks(c, t, lo, hi));
    }
  }

  lemma NoOrdersWritten(c: Config, state: nat, lo: nat, hi: nat)
    requires state < MODULUS && c.orders == 0
    ensures Emit(c, state, Blocks(c, Orders, lo, hi)) == []
  {
    hide Emit, Blocks;
    BlocksAreOrders(c, lo, hi);
    SilentUnits(c, state, Blocks(c, Orders, lo, hi));
  }

  lemma {:induction false} SilentUnits(c: Config, state: nat, units: seq<Unit>)
    requires state < MODULUS && c.orders == 0 && forall u :: u in units ==> u.OrdersOf?
    ensures Emit(c, state, units) == []
  {
    if |units| > 0 {
      hide StateAfter, DrawsOf;
      SilentUnits(c, state, units[..|units| - 1]);
      assert units[|units| - 1] in units;
    }
  }

  lemma {:induction false} BlocksAreOrders(c: Config, lo: nat, hi: nat)
    ensures forall u :: u in Blocks(c, Orders, lo, hi) ==> u.OrdersOf?
    decreases hi
  {
    hide Districts;
    if lo < hi {
      BlocksAreOrders(c, lo, hi - 1);
      DistrictsAreOrders(c, hi - 1, DISTRICTS);
    }
  }

  lemma {:induction false} DistrictsAreOrders(c: Config, i: nat, n: nat)
    ensures forall u :: u in Districts(c, Orders, i, n) ==> u.OrdersOf?
  {
    if n > 0 { DistrictsAreOrders(c, i, n - 1); }
  }

  /** For every table, seed, cardinality and number of partitions, and whatever the rounding of the bounds, but for
      orders without customers: the partitions together write what a single run writes, and they all succeed
      exactly when every order finds a customer or there is no warehouse. */
  lemma PartitionsConcatenate(c: Config, t: Table, seed: nat, fl: real -> real, w: Count, parts: Count)
    requires seed < WORD && 0 < parts && Rounds(fl) && !OutOfStep(c, t)
    ensures Pieces(c, t, seed, fl, w, parts, parts) == Pieces(c, t, seed, fl, w, 1, 1)
    ensures Pieces(c, t, seed, fl, w, parts, parts) == Written(c, t, seed, 1, 0, w)
    ensures Pieces(c, t, seed, fl, w, parts, parts).Some? <==> Fits(c, t) || w == 0
  {
    hide PartOutput, Bound;
    PiecesAreOneRun(c, t, seed, fl, w, parts, parts);
    LastBound(fl, w, parts);
    PiecesAreOneRun(c, t, seed, fl, w, 1, 1);
    LastBound(fl, w, 1);
  }
}
