/** The values of the generated columns, whatever the state of the stream: Clause 4.3.3.1. */
module RowRanges {
  import opened Common
  import opened Pcg
  import opened Doubles
  import opened RandomDraws
  import opened TableLayouts
  import opened Partitions

  predicate IsNumber(c: Cell, lo: int, hi: int) { c.Number? && lo <= c.n <= hi }

  predicate IsCents(c: Cell, lo: int, hi: int) { c.Cents? && lo <= c.amount <= hi }

  predicate IsString(c: Cell, shortest: nat, longest: nat, letters: nat) {
    && c.Letters? && c.alphabet == letters && shortest <= |c.positions| <= longest
    && forall i :: 0 <= i < |c.positions| ==> c.positions[i] < letters
  }

  /** A text of 26 to 50 characters; "ORIGINAL", where it is, lies within it. */
  predicate IsData(c: Cell) {
    && c.Data? && 26 <= |c.positions| <= 50 && (c.mark == -1 || 0 <= c.mark <= |c.positions| - 8)
    && forall i :: 0 <= i < |c.positions| ==> c.positions[i] < A_LETTERS
  }

  // ------------------------------------------------------------- one field

  /** The draws are numbers below a bound that a double can hold. */
  predicate Drawable(f: Field) {
    match f
    case Random(max, _) => 0 < max <= MANTISSA
    case Price(max, _) => 0 < max <= MANTISSA
    case Str(_, letters) => 0 < letters <= MANTISSA
    case _ => true
  }

  predicate InRange(f: Field, c: Cell) {
    match f
    case Fixed(cell) => c == cell
    case Random(max, plus) => IsNumber(c, plus, max - 1 + plus)
    case Price(max, plus) => IsCents(c, plus, max - 1 + plus)
    case Name => IsNumber(c, 0, 999)
    case Credit => c == Text("BC") || c == Text("GC")
    case Str(lengths, letters) => IsString(c, lengths.0, lengths.1, letters)
    case MaybeOriginal => IsData(c)
    case LineCount => IsNumber(c, 5, 15)
  }

  lemma FieldInRange(f: Field, state: nat)
    requires state < MODULUS && Drawable(f)
    ensures InRange(f, FieldCell(f, state))
  {
    hide Scaled, Draw, StringFrom, InFirstTenth, NuRand, OriginalAt;
    match f
    case Fixed(_) =>
    case Random(max, _) => ScaledInRange(max, Draw(state, 0));
    case Price(max, _) => ScaledInRange(max, Draw(state, 0));
    case Name => NuRandInRange(255, 0, 999, Draw(state, 0), Draw(state, 1));
    case Credit =>
    case Str(lengths, letters) => StringFits(Draw(state, 0), lengths.0, lengths.1, letters);
    case MaybeOriginal => StringFits(Draw(state, 0), 26, 50, A_LETTERS);
    case LineCount =>
      WordFits();
      ScaledInRange(11, Draw(Seeded(Draw(state, 0)), 0));
  }

  // ------------------------------------------------------------- one row

  /** Every cell of a row is in the range of its field. */
  predicate RowInRange(fields: seq<Field>, cells: seq<Cell>) {
    |cells| == |fields| && forall n :: 0 <= n < |fields| ==> InRange(fields[n], cells[n])
  }

  lemma CellsInRange(fields: seq<Field>, state: nat)
    requires state < MODULUS && forall n :: 0 <= n < |fields| ==> Drawable(fields[n])
    ensures RowInRange(fields, Cells(state, fields))
  {
    hide FieldCell, StateAfter, CellsUpTo, InRange, Drawable;
    if |fields| == 0 { NoCells(state, fields); } else { CellAt(state, fields, 0, |fields|); }
    forall n | 0 <= n < |fields|
      ensures InRange(fields[n], Cells(state, fields)[n])
    {
      CellAt(state, fields, n, |fields|);
      FieldInRange(fields[n], StateAfter(state, DrawsUpTo(fields, n)));
    }
  }

  lemma NoCells(state: nat, fields: seq<Field>)
    requires state < MODULUS
    ensures CellsUpTo(state, fields, 0) == []
  {
  }

  lemma ItemRow(state: nat, i: nat)
    requires state < MODULUS
    ensures
      var c := Cells(state, ItemFields(i));
      && |c| == 5 && c[0] == Number(i + 1) && IsNumber(c[1], 1, 10000) && IsString(c[2], 14, 24, 128)
      && IsCents(c[3], 100, 10000) && IsData(c[4])
  {
    hide Cells;
    CellsInRange(ItemFields(i), state);
  }

  lemma WarehouseRow(state: nat, i: nat)
    requires state < MODULUS
    ensures
      var c := Cells(state, WarehouseFields(i));
      && |c| == 9 && c[0] == Number(i + 1) && IsString(c[1], 6, 10, 128)
      && (forall n :: 2 <= n <= 4 ==> IsString(c[n], 10, 20, 128))
      && IsString(c[5], 2, 2, 128) && IsString(c[6], 4, 4, 10) && IsNumber(c[7], 0, 2000) && c[8] == Cents(30000000)
  {
    hide Cells;
    CellsInRange(WarehouseFields(i), state);
  }

  lemma DistrictRow(state: nat, i: nat, j: nat)
    requires state < MODULUS
    ensures
      var c := Cells(state, DistrictFields(i, j));
      && |c| == 11 && c[0] == Number(j + 1) && c[1] == Number(i + 1) && IsString(c[2], 6, 10, 128)
      && (forall n :: 3 <= n <= 5 ==> IsString(c[n], 10, 20, 128))
      && IsString(c[6], 2, 2, 128) && IsString(c[7], 4, 4, 10) && IsNumber(c[8], 0, 2000)
      && c[9] == Cents(3000000) && c[10] == Number(3001)
  {
    hide Cells;
    CellsInRange(DistrictFields(i, j), state);
  }

  lemma StockRow(state: nat, i: nat, j: nat)
    requires state < MODULUS
    ensures
      var c := Cells(state, StockFields(i, j));
      && |c| == 17 && c[0] == Number(j + 1) && c[1] == Number(i + 1) && IsNumber(c[2], 10, 100)
      && (forall n :: 3 <= n <= 12 ==> IsString(c[n], 24, 24, 52))
      && (forall n :: 13 <= n <= 15 ==> c[n] == Number(0)) && IsData(c[16])
  {
    hide Cells;
    CellsInRange(StockFields(i, j), state);
  }

  lemma CustomerRow(state: nat, i: nat, j: nat, k: nat)
    requires state < MODULUS
    ensures
      var c := Cells(state, CustomerFields(i, j, k));
      && |c| == 21 && c[0] == Number(k + 1) && c[1] == Number(j + 1) && c[2] == Number(i + 1)
      && IsString(c[3], 8, 16, 128) && c[4] == Text("OE") && IsNumber(c[5], 0, 999) && (k < 1000 ==> c[5] == Number(k))
  {
    hide Cells, IsString;
    CellsInRange(CustomerFields(i, j, k), state);
  }

  lemma CustomerAddress(state: nat, i: nat, j: nat, k: nat)
    requires state < MODULUS
    ensures
      var c := Cells(state, CustomerFields(i, j, k));
      && |c| == 21 && (forall n :: 6 <= n <= 8 ==> IsString(c[n], 10, 20, 128))
      && IsString(c[9], 2, 2, 128) && IsString(c[10], 4, 4, 10) && IsString(c[11], 16, 16, 10)
  {
    hide Cells, IsString;
    CellsInRange(CustomerFields(i, j, k), state);
  }

  /** Its credit, balance and counters, and what is written about it. */
  lemma CustomerAccount(state: nat, i: nat, j: nat, k: nat)
    requires state < MODULUS
    ensures
      var c := Cells(state, CustomerFields(i, j, k));
      && |c| == 21 && c[12] == Now && (c[13] == Text("GC") || c[13] == Text("BC"))
      && c[14] == Cents(5000000) && IsNumber(c[15], 0, 5000) && c[16] == Cents(-1000) && c[17] == Cents(1000)
      && c[18] == Number(1) && c[19] == Number(0) && IsString(c[20], 300, 500, 128)
  {
    hide Cells, IsString;
    CellsInRange(CustomerFields(i, j, k), state);
  }

  lemma HistoryRow(state: nat, i: nat, j: nat, k: nat)
    requires state < MODULUS
    ensures
      var c := Cells(state, HistoryFields(i, j, k));
      && |c| == 8 && c[0] == Number(k + 1) && c[1] == c[3] == Number(j + 1) && c[2] == c[4] == Number(i + 1)
      && c[5] == Now && c[6] == Cents(1000) && IsString(c[7], 12, 24, 128)
  {
    hide Cells;
    CellsInRange(HistoryFields(i, j, k), state);
  }

  /** The orders with a carrier are the first 2101 of a district. */
  lemma OrderRow(state: nat, i: nat, j: nat, k: nat, customer: int)
    requires state < MODULUS
    ensures
      var c := Cells(state, OrderFields(i, j, k, customer));
      && |c| == 8 && c[0] == Number(k + 1) && c[1] == Number(j + 1) && c[2] == Number(i + 1)
      && c[3] == Number(customer) && c[4] == Now && (if k < 2101 then IsNumber(c[5], 1, 10) else c[5] == Null)
      && IsNumber(c[6], 5, 15) && c[7] == Number(1)
  {
    hide Cells;
    CellsInRange(OrderFields(i, j, k, customer), state);
  }

  /** A delivered line costs nothing. */
  lemma LineRow(state: nat, items: nat, i: nat, j: nat, k: nat, l: nat)
    requires state < MODULUS && 0 < items <= MANTISSA
    ensures
      var c := Cells(state, LineFields(items, i, j, k, l));
      && |c| == 10 && c[0] == Number(k + 1) && c[1] == Number(j + 1) && c[2] == Number(i + 1) && c[3] == Number(l + 1)
      && IsNumber(c[4], 1, items) && c[5] == Number(i + 1) && c[7] == Number(5) && IsString(c[9], 24, 24, 52)
      && (if k < 2101 then c[6] == Now && c[8] == Cents(0) else c[6] == Null && IsCents(c[8], 1, 999999))
  {
    hide Cells;
    CellsInRange(LineFields(items, i, j, k, l), state);
  }
}
