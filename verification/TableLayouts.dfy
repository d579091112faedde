/** What src/datagen.c writes, row by row: which fields, in which order, and how many draws of the
    main stream each of them takes. */
module TableLayouts {
  import opened Common
  import opened RandomInsertion

  const A_LETTERS: nat := 128
  const L_LETTERS: nat := 52
  const N_LETTERS: nat := 10

  datatype Table = Customer | District | History | Item | NewOrder | Orders | Stock | Warehouse

  /** A non-negative C int. */
  type Count = n: nat | n < 0x8000_0000

  datatype Config = Config(customers: Count, items: Count, orders: Count, newOrders: Count)

  /** Shortest and longest length of a random string. */
  type Lengths = p: (nat, nat) | p.0 <= p.1 && p.1 - p.0 < 0x8000_0000 witness (0, 0)

  datatype Cell =
    | Number(n: int)
    | Text(text: string)
    | Cents(amount: int)
    | Letters(alphabet: nat, positions: seq<nat>)
    | Data(positions: seq<nat>, mark: int) // mark: where "ORIGINAL" is written over the text, or -1
    | Null
    | Now

  datatype Field =
    | Fixed(cell: Cell)
    | Random(max: nat, plus: nat)           // get_random(max) + plus
    | Price(max: nat, plus: nat)            // (get_random(max) + plus) / 100
    | Name                                  // get_nurand(255, 0, 999)
    | Credit                                // get_percentage() < .10
    | Str(lengths: Lengths, letters: nat)   // get_a_string, get_l_string, get_n_string
    | MaybeOriginal                         // get_a_string(26, 50), then a private stream for "ORIGINAL"
    | LineCount                             // a private stream for the order's lines

  function DrawsOfField(f: Field): nat {
    match f
    case Fixed(_) => 0
    case Name => 2
    case MaybeOriginal => 2
    case _ => 1
  }

  /** Draws of the first `n` fields. */
  function DrawsUpTo(fields: seq<Field>, n: nat): nat
    requires n <= |fields|
  {
    if n == 0 then 0 else DrawsUpTo(fields, n - 1) + DrawsOfField(fields[n - 1])
  }

  function DrawsOfFields(fields: seq<Field>): nat {
    DrawsUpTo(fields, |fields|)
  }

  function Num(n: int): Field { Fixed(Number(n)) }
  function Lit(s: string): Field { Fixed(Text(s)) }
  function Money(amount: int): Field { Fixed(Cents(amount)) }

  // ------------------------------------------------------------------ the rows

  function CustomerFields(i: nat, j: nat, k: int): seq<Field> {
    [Num(k + 1), Num(j + 1), Num(i + 1), Str((8, 16), A_LETTERS), Lit("OE"),
     if k < 1000 then Num(k) else Name,
     Str((10, 20), A_LETTERS), Str((10, 20), A_LETTERS), Str((10, 20), A_LETTERS), Str((2, 2), A_LETTERS),
     Str((4, 4), N_LETTERS), Str((16, 16), N_LETTERS), Fixed(Now), Credit, Money(5000000), Random(5001, 0),
     Money(-1000), Money(1000), Num(1), Num(0), Str((300, 500), A_LETTERS)]
  }

  function DistrictFields(i: nat, j: nat): seq<Field> {
    [Num(j + 1), Num(i + 1), Str((6, 10), A_LETTERS), Str((10, 20), A_LETTERS), Str((10, 20), A_LETTERS),
     Str((10, 20), A_LETTERS), Str((2, 2), A_LETTERS), Str((4, 4), N_LETTERS), Random(2001, 0),
     Money(3000000), Num(3001)]
  }

  function HistoryFields(i: nat, j: nat, k: int): seq<Field> {
    [Num(k + 1), Num(j + 1), Num(i + 1), Num(j + 1), Num(i + 1), Fixed(Now), Money(1000),
     Str((12, 24), A_LETTERS)]
  }

  function ItemFields(i: nat): seq<Field> {
    [Num(i + 1), Random(10000, 1), Str((14, 24), A_LETTERS), Price(9901, 100), MaybeOriginal]
  }

  function NewOrderFields(i: nat, j: nat, k: int): seq<Field> {
    [Num(k + 1), Num(j + 1), Num(i + 1)]
  }

  function StockFields(i: nat, j: int): seq<Field> {
    [Num(j + 1), Num(i + 1), Random(91, 10),
     Str((24, 24), L_LETTERS), Str((24, 24), L_LETTERS), Str((24, 24), L_LETTERS), Str((24, 24), L_LETTERS),
     Str((24, 24), L_LETTERS), Str((24, 24), L_LETTERS), Str((24, 24), L_LETTERS), Str((24, 24), L_LETTERS),
     Str((24, 24), L_LETTERS), Str((24, 24), L_LETTERS), Num(0), Num(0), Num(0), MaybeOriginal]
  }

  function WarehouseFields(i: nat): seq<Field> {
    [Num(i + 1), Str((6, 10), A_LETTERS), Str((10, 20), A_LETTERS), Str((10, 20), A_LETTERS), Str((10, 20), A_LETTERS),
     Str((2, 2), A_LETTERS), Str((4, 4), N_LETTERS), Random(2001, 0), Money(30000000)]
  }

  function OrderFields(i: nat, j: nat, k: nat, customer: int): seq<Field> {
    [Num(k + 1), Num(j + 1), Num(i + 1), Num(customer), Fixed(Now),
     if k < CARRIED then Random(10, 1) else Fixed(Null), LineCount, Num(1)]
  }

  /** Order lines draw from the order's private stream. */
  function LineFields(items: nat, i: nat, j: nat, k: nat, l: nat): seq<Field> {
    [Num(k + 1), Num(j + 1), Num(i + 1), Num(l + 1), Random(items, 1), Num(i + 1),
     if k < CARRIED then Fixed(Now) else Fixed(Null), Num(5),
     if k < CARRIED then Money(0) else Price(999999, 1), Str((24, 24), L_LETTERS)]
  }

  // ------------------------------------------------------------------ draws per row

  lemma FourFields(fields: seq<Field>, n: nat)
    requires n + 4 <= |fields|
    ensures DrawsUpTo(fields, n + 4) == DrawsUpTo(fields, n) + DrawsOfField(fields[n]) + DrawsOfField(fields[n + 1])
                                      + DrawsOfField(fields[n + 2]) + DrawsOfField(fields[n + 3])
  {
    assert DrawsUpTo(fields, n + 2) == DrawsUpTo(fields, n) + DrawsOfField(fields[n]) + DrawsOfField(fields[n + 1]);
    assert DrawsUpTo(fields, n + 3) == DrawsUpTo(fields, n + 2) + DrawsOfField(fields[n + 2]);
  }

  lemma NextField(fields: seq<Field>, n: nat)
    requires n < |fields|
    ensures DrawsUpTo(fields, n + 1) == DrawsUpTo(fields, n) + DrawsOfField(fields[n])
  {
  }

  lemma NoFields(fields: seq<Field>)
    ensures DrawsUpTo(fields, 0) == 0
  {
  }

  lemma CustomerDraws(i: nat, j: nat, k: int)
    ensures DrawsOfFields(CustomerFields(i, j, k)) == 10 + if k < 1000 then 0 else 2
  {
    hide DrawsUpTo;
    var f := CustomerFields(i, j, k);
    NoFields(f);
    FourFields(f, 0);
    FourFields(f, 4);
    FourFields(f, 8);
    FourFields(f, 12);
    FourFields(f, 16);
    NextField(f, 20);
  }

  lemma DistrictDraws(i: nat, j: nat)
    ensures DrawsOfFields(DistrictFields(i, j)) == 7
  {
    hide DrawsUpTo;
    var f := DistrictFields(i, j);
    NoFields(f);
    FourFields(f, 0);
    FourFields(f, 4);
    NextField(f, 8);
    NextField(f, 9);
    NextField(f, 10);
  }

  lemma HistoryDraws(i: nat, j: nat, k: int)
    ensures DrawsOfFields(HistoryFields(i, j, k)) == 1
  {
    hide DrawsUpTo;
    var f := HistoryFields(i, j, k);
    NoFields(f);
    FourFields(f, 0);
    FourFields(f, 4);
  }

  lemma ItemDraws(i: nat)
    ensures DrawsOfFields(ItemFields(i)) == 5
  {
    hide DrawsUpTo;
    var f := ItemFields(i);
    NoFields(f);
    FourFields(f, 0);
    NextField(f, 4);
  }

  lemma NewOrderDraws(i: nat, j: nat, k: int)
    ensures DrawsOfFields(NewOrderFields(i, j, k)) == 0
  {
    hide DrawsUpTo;
    var f := NewOrderFields(i, j, k);
    NoFields(f);
    NextField(f, 0);
    NextField(f, 1);
    NextField(f, 2);
  }

  lemma StockDraws(i: nat, j: int)
    ensures DrawsOfFields(StockFields(i, j)) == 13
  {
    hide DrawsUpTo;
    var f := StockFields(i, j);
    NoFields(f);
    FourFields(f, 0);
    FourFields(f, 4);
    FourFields(f, 8);
    FourFields(f, 12);
    NextField(f, 16);
  }

  lemma WarehouseDraws(i: nat)
    ensures DrawsOfFields(WarehouseFields(i)) == 7
  {
    hide DrawsUpTo;
    var f := WarehouseFields(i);
    NoFields(f);
    FourFields(f, 0);
    FourFields(f, 4);
    NextField(f, 8);
  }

  /** An order row takes one draw for its lines, and one more while it has a carrier. */
  lemma OrderRowDraws(i: nat, j: nat, k: nat, customer: int)
    ensures DrawsOfFields(OrderFields(i, j, k, customer)) == 1 + if k < CARRIED then 1 else 0
  {
    hide DrawsUpTo;
    var f := OrderFields(i, j, k, customer);
    NoFields(f);
    FourFields(f, 0);
    FourFields(f, 4);
  }

  // ------------------------------------------------- the order in which rows are written

  /** One row, or all orders of one district (whose customers come from the random list). */
  datatype Unit =
    | Row(table: Table, fields: seq<Field>)
    | OrdersOf(i: nat, j: nat)

  function RowOf(t: Table, i: nat, j: nat, k: int): Unit {
    match t
    case Customer => Row(t, CustomerFields(i, j, k))
    case History => Row(t, HistoryFields(i, j, k))
    case Stock => Row(t, StockFields(i, k))
    case _ => Row(NewOrder, NewOrderFields(i, j, k))
  }

  /** Rows k = lo..hi-1 of district j (for stock: of warehouse i). */
  function Numbered(t: Table, i: nat, j: nat, lo: int, hi: int): seq<Unit>
    decreases hi - lo
  {
    if hi <= lo then [] else Numbered(t, i, j, lo, hi - 1) + [RowOf(t, i, j, hi - 1)]
  }

  function InDistrict(c: Config, t: Table, i: nat, j: nat): seq<Unit> {
    match t
    case Customer => Numbered(t, i, j, 0, c.customers)
    case History => Numbered(t, i, j, 0, c.customers)
    case NewOrder => Numbered(t, i, j, c.orders - c.newOrders, c.orders)
    case Orders => [OrdersOf(i, j)]
    case _ => [Row(District, DistrictFields(i, j))]
  }

  function Districts(c: Config, t: Table, i: nat, n: nat): seq<Unit> {
    if n == 0 then [] else Districts(c, t, i, n - 1) + InDistrict(c, t, i, n - 1)
  }

  /** Everything written for warehouse i (for the item table: for item i). */
  function Block(c: Config, t: Table, i: nat): seq<Unit> {
    match t
    case Item => [Row(t, ItemFields(i))]
    case Stock => Numbered(t, i, 0, 0, c.items)
    case Warehouse => [Row(t, WarehouseFields(i))]
    case _ => Districts(c, t, i, DISTRICTS)
  }

  function Blocks(c: Config, t: Table, lo: nat, hi: nat): seq<Unit>
    decreases hi - lo
  {
    if hi <= lo then [] else Blocks(c, t, lo, hi - 1) + Block(c, t, hi - 1)
  }

  lemma {:induction false} BlocksSplit(c: Config, t: Table, lo: nat, mid: nat, hi: nat)
    requires lo <= mid <= hi
    ensures Blocks(c, t, lo, hi) == Blocks(c, t, lo, mid) + Blocks(c, t, mid, hi)
    decreases hi
  {
    if mid < hi { BlocksSplit(c, t, lo, mid, hi - 1); }
  }

  // ------------------------------------------------------------ draws per unit and block

  /** Draws of `n` orders of a district: one for the lines each, one more for a carrier. */
  function DrawsOfOrders(n: nat): nat {
    if n == 0 then 0 else DrawsOfOrders(n - 1) + 1 + if n - 1 < CARRIED then 1 else 0
  }

  function DrawsOfUnit(c: Config, u: Unit): nat {
    match u
    case Row(_, fields) => DrawsOfFields(fields)
    case OrdersOf(_, _) => PickCount(c.customers) + DrawsOfOrders(c.orders)
  }

  function DrawsOf(c: Config, units: seq<Unit>): nat {
    if |units| == 0 then 0 else DrawsOf(c, units[..|units| - 1]) + DrawsOfUnit(c, units[|units| - 1])
  }

  lemma {:induction false} DrawsOfAppend(c: Config, a: seq<Unit>, b: seq<Unit>)
    ensures DrawsOf(c, a + b) == DrawsOf(c, a) + DrawsOf(c, b)
  {
    if |b| == 0 {
      assert a + b == a;
    } else {
      assert (a + b)[..|a + b| - 1] == a + b[..|b| - 1];
      DrawsOfAppend(c, a, b[..|b| - 1]);
    }
  }

  lemma NothingDrawn(c: Config)
    ensures DrawsOf(c, []) == 0
  {
  }

  lemma DrawsOfSingle(c: Config, u: Unit)
    ensures DrawsOf(c, [u]) == DrawsOfUnit(c, u)
  {
    assert [u][..0] == [];
  }

  /** min(n, 2101) + n, as the advance of gen_orders computes it. */
  lemma {:induction false} OrdersClosedForm(n: nat)
    ensures DrawsOfOrders(n) == n + if n < CARRIED then n else CARRIED
  {
    if n > 0 { OrdersClosedForm(n - 1); }
  }

  function CustomersClosedForm(n: nat): nat {
    n * 10 + if n > 1000 then 2 * (n - 1000) else 0
  }

  /** Draws of one row, by table: 13 per stock row, and so on. */
  function RowDraws(t: Table): nat {
    match t
    case Customer => 10
    case History => 1
    case Stock => 13
    case _ => 0
  }

  lemma DrawsOfRow(c: Config, t: Table, i: nat, j: nat, k: int)
    requires t != Customer
    ensures DrawsOfUnit(c, RowOf(t, i, j, k)) == RowDraws(t)
  {
    hide DrawsOfFields;
    match t
    case History => HistoryDraws(i, j, k);
    case Stock => StockDraws(i, k);
    case _ => NewOrderDraws(i, j, k);
  }

  lemma {:induction false} NumberedDraws(c: Config, t: Table, i: nat, j: nat, lo: int, n: nat)
    requires t != Customer
    ensures DrawsOf(c, Numbered(t, i, j, lo, lo + n)) == n * RowDraws(t)
  {
    hide RowDraws, RowOf, DrawsOfUnit, DrawsOf;
    NothingDrawn(c);
    if n > 0 {
      NumberedDraws(c, t, i, j, lo, n - 1);
      var k := lo + n - 1;
      DrawsOfAppend(c, Numbered(t, i, j, lo, k), [RowOf(t, i, j, k)]);
      DrawsOfSingle(c, RowOf(t, i, j, k));
      DrawsOfRow(c, t, i, j, k);
      assert n * RowDraws(t) == (n - 1) * RowDraws(t) + RowDraws(t);
    }
  }

  lemma {:induction false} CustomersDraws(c: Config, i: nat, j: nat, n: nat)
    ensures DrawsOf(c, Numbered(Customer, i, j, 0, n)) == CustomersClosedForm(n)
  {
    if n > 0 {
      CustomersDraws(c, i, j, n - 1);
      DrawsOfAppend(c, Numbered(Customer, i, j, 0, n - 1), [RowOf(Customer, i, j, n - 1)]);
      DrawsOfSingle(c, RowOf(Customer, i, j, n - 1));
      CustomerDraws(i, j, n - 1);
    }
  }

  /** Draws for one district. */
  function DistrictDelta(c: Config, t: Table): nat {
    match t
    case Customer => CustomersClosedForm(c.customers)
    case History => c.customers
    case NewOrder => 0
    case Orders => PickCount(c.customers) + (if c.orders < CARRIED then c.orders else CARRIED) + c.orders
    case _ => 7
  }

  lemma InDistrictDraws(c: Config, t: Table, i: nat, j: nat)
    ensures DrawsOf(c, InDistrict(c, t, i, j)) == DistrictDelta(c, t)
  {
    hide DrawsOf, Numbered, DistrictFields, DrawsOfFields, DrawsOfOrders, CustomersClosedForm;
    match t
    case Customer => CustomersDraws(c, i, j, c.customers);
    case History => NumberedDraws(c, t, i, j, 0, c.customers);
    case NewOrder => NumberedDraws(c, t, i, j, c.orders - c.newOrders, c.newOrders);
    case Orders =>
      DrawsOfSingle(c, OrdersOf(i, j));
      OrdersClosedForm(c.orders);
    case _ =>
      DrawsOfSingle(c, Row(District, DistrictFields(i, j)));
      DistrictDraws(i, j);
  }

  lemma {:induction false} DistrictsDraws(c: Config, t: Table, i: nat, n: nat)
    ensures DrawsOf(c, Districts(c, t, i, n)) == n * DistrictDelta(c, t)
  {
    hide DistrictDelta, InDistrict, DrawsOf;
    NothingDrawn(c);
    if n > 0 {
      DistrictsDraws(c, t, i, n - 1);
      InDistrictDraws(c, t, i, n - 1);
      DrawsOfAppend(c, Districts(c, t, i, n - 1), InDistrict(c, t, i, n - 1));
      assert n * DistrictDelta(c, t) == (n - 1) * DistrictDelta(c, t) + DistrictDelta(c, t);
    }
  }

  /** Draws for one warehouse, or one item. */
  function BlockDelta(c: Config, t: Table): nat {
    match t
    case Item => 5
    case Stock => c.items * 13
    case Warehouse => 7
    case _ => DISTRICTS * DistrictDelta(c, t)
  }

  lemma BlockDraws(c: Config, t: Table, i: nat)
    ensures DrawsOf(c, Block(c, t, i)) == BlockDelta(c, t)
  {
    match t
    case Item =>
      DrawsOfSingle(c, Row(t, ItemFields(i)));
      ItemDraws(i);
    case Stock => NumberedDraws(c, t, i, 0, 0, c.items);
    case Warehouse =>
      DrawsOfSingle(c, Row(t, WarehouseFields(i)));
      WarehouseDraws(i);
    case _ => DistrictsDraws(c, t, i, DISTRICTS);
  }

  lemma {:induction false} BlocksDraws(c: Config, t: Table, n: nat)
    ensures DrawsOf(c, Blocks(c, t, 0, n)) == n * BlockDelta(c, t)
  {
    if n > 0 {
      BlocksDraws(c, t, n - 1);
      BlockDraws(c, t, n - 1);
      DrawsOfAppend(c, Blocks(c, t, 0, n - 1), Block(c, t, n - 1));
      assert n * BlockDelta(c, t) == (n - 1) * BlockDelta(c, t) + BlockDelta(c, t);
    }
  }

  // ------------------------------------------------------------ the advance counts

  /** The argument of pcg64f_advance_r in each generator, before it wraps. */
  function Delta(c: Config, t: Table, start: nat): int {
    match t
    case Customer =>
      start * DISTRICTS * (c.customers * 10 + if c.customers > 1000 then 2 * (c.customers - 1000) else 0)
    case District => start * DISTRICTS * 7
    case History => start * DISTRICTS * c.customers
    case Item => start * 5
    case NewOrder => 0
    case Orders =>
      start * DISTRICTS * ((c.customers - 1) + (if c.orders < CARRIED then c.orders else CARRIED) + c.orders)
    case Stock => start * c.items * 13
    case Warehouse => start * 7
  }

  /** Every advance equals the draws of the iterations it skips; for the orders table exactly when there is
      a customer (or nothing is skipped): with none, the list still starts with one number and takes no draw,
      but the advance counts -1. */
  lemma DeltaIsExact(c: Config, t: Table, start: nat)
    ensures Delta(c, t, start) == DrawsOf(c, Blocks(c, t, 0, start))
        <==> (t != Orders || c.customers >= 1 || start == 0)
  {
    BlocksDraws(c, t, start);
    DeltaArithmetic(c, t, start);
  }

  lemma DeltaArithmetic(c: Config, t: Table, start: nat)
    ensures Delta(c, t, start) == start * BlockDelta(c, t)
                                - if t == Orders && c.customers == 0 then 10 * start else 0
  {
    match t
    case Customer => Regroup(start, CustomersClosedForm(c.customers));
    case History => Regroup(start, c.customers);
    case Orders =>
      var exact: int := DistrictDelta(c, t);
      Regroup(start, exact);
      assert start * DISTRICTS * (exact - 1) == start * DISTRICTS * exact - start * DISTRICTS;
    case Stock => assert start * c.items * 13 == start * (c.items * 13);
    case _ =>
  }

  lemma Regroup(start: nat, x: nat)
    ensures start * DISTRICTS * x == start * (DISTRICTS * x)
  {
  }
}
