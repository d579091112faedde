/** The generators write the load: a single run of a generator writes, in this order, one line for every row that
    the load has in that table (for orders, also in order_line), and no other line. */
module LoadedRows {
  import opened Common
  import opened Pcg
  import opened RandomDraws
  import opened RandomInsertion
  import opened Partitions
  import opened SeededLoad
  import Layout = TableLayouts
  import opened Tables
  import Load = DefaultLoad

  // ------------------------------------------------------------- rows and the lines that hold them

  /** A row by its key; a history row has no key, so by its contents. */
  datatype RowKey =
    | WarehouseRow(w: int)
    | DistrictRow(dk: DistrictKey)
    | CustomerRow(ck: CustomerKey)
    | HistoryRow(h: History)
    | ItemRow(i: int)
    | NewOrderRow(ok: OrderKey)
    | OrderRow(ok: OrderKey)
    | LineRow(lk: LineKey)
    | StockRow(sk: StockKey)

  /** The line of a file holds the row of the database. */
  ghost predicate Holds(db: Db, spelling: Spelling, line: FileLine, key: RowKey) {
    match key
    case WarehouseRow(w) => w in db.warehouse && HoldsWarehouse(line, w, db.warehouse[w])
    case DistrictRow(dk) => dk in db.district && HoldsDistrict(line, dk, db.district[dk])
    case CustomerRow(ck) => ck in db.customer && HoldsCustomer(spelling, line, ck, db.customer[ck])
    case HistoryRow(h) => HoldsHistory(line, h)
    case ItemRow(i) => i in db.item && HoldsItem(line, i, db.item[i])
    case NewOrderRow(ok) => ok in db.newOrder && HoldsNewOrder(line, ok)
    case OrderRow(ok) => ok in db.orders && HoldsOrder(line, ok, db.orders[ok])
    case LineRow(lk) => lk in db.orderLine && HoldsLine(line, lk, db.orderLine[lk])
    case StockRow(sk) => sk in db.stock && HoldsStock(line, sk, db.stock[sk])
  }

  function Num(n: int): Layout.Cell { Layout.Number(n) }

  predicate HoldsWarehouse(line: FileLine, w: int, r: Warehouse) {
    && line.file == TableFile(Layout.Warehouse) && |line.cells| == 9
    && line.cells[0] == Num(w) && line.cells[8] == Layout.Cents(r.ytd)
  }

  predicate HoldsDistrict(line: FileLine, k: DistrictKey, r: District) {
    && line.file == TableFile(Layout.District) && |line.cells| == 11
    && line.cells[0] == Num(k.d) && line.cells[1] == Num(k.w)
    && line.cells[9] == Layout.Cents(r.ytd) && line.cells[10] == Num(r.nextOid)
  }

  predicate HoldsCustomer(spelling: Spelling, line: FileLine, k: CustomerKey, r: Customer) {
    && line.file == TableFile(Layout.Customer) && |line.cells| == 21
    && line.cells[0] == Num(k.c) && line.cells[1] == Num(k.d) && line.cells[2] == Num(k.w)
    && line.cells[3].Letters? && spelling.letters(line.cells[3].positions) == r.first
    && line.cells[5].Number? && spelling.lastName(line.cells[5].n) == r.last
    && line.cells[13] == Layout.Text(if r.goodCredit then "GC" else "BC")
    && line.cells[16] == Layout.Cents(r.balance) && line.cells[17] == Layout.Cents(r.ytdPayment)
    && line.cells[18] == Num(r.paymentCnt) && line.cells[19] == Num(r.deliveryCnt)
  }

  predicate HoldsHistory(line: FileLine, r: History) {
    && line.file == TableFile(Layout.History) && |line.cells| == 8
    && line.cells[0] == Num(r.c) && line.cells[1] == Num(r.cd) && line.cells[2] == Num(r.cw)
    && line.cells[3] == Num(r.d) && line.cells[4] == Num(r.w) && line.cells[6] == Layout.Cents(r.amount)
  }

  predicate HoldsItem(line: FileLine, i: int, r: Item) {
    && line.file == TableFile(Layout.Item) && |line.cells| == 5
    && line.cells[0] == Num(i) && line.cells[3] == Layout.Cents(r.price)
  }

  predicate HoldsNewOrder(line: FileLine, k: OrderKey) {
    && line.file == TableFile(Layout.NewOrder) && |line.cells| == 3
    && line.cells[0] == Num(k.o) && line.cells[1] == Num(k.d) && line.cells[2] == Num(k.w)
  }

  predicate HoldsOrder(line: FileLine, k: OrderKey, r: Order) {
    && line.file == TableFile(Layout.Orders) && |line.cells| == 8
    && line.cells[0] == Num(k.o) && line.cells[1] == Num(k.d) && line.cells[2] == Num(k.w)
    && line.cells[3] == Num(r.customer)
    && line.cells[5] == (if r.carrier.Some? then Num(r.carrier.value) else Layout.Null)
    && line.cells[6] == Num(r.olCnt) && line.cells[7] == Num(r.allLocal)
  }

  predicate HoldsLine(line: FileLine, k: LineKey, r: Line) {
    && line.file == OrderLineFile && |line.cells| == 10
    && line.cells[0] == Num(k.o) && line.cells[1] == Num(k.d) && line.cells[2] == Num(k.w) && line.cells[3] == Num(k.n)
    && line.cells[4] == Num(r.item) && line.cells[5] == Num(r.supply)
    && line.cells[6] == (if r.delivered then Layout.Now else Layout.Null)
    && line.cells[7] == Num(r.quantity) && line.cells[8] == Layout.Cents(r.amount)
  }

  predicate HoldsStock(line: FileLine, k: StockKey, r: Stock) {
    && line.file == TableFile(Layout.Stock) && |line.cells| == 17
    && line.cells[0] == Num(k.i) && line.cells[1] == Num(k.w) && line.cells[2] == Num(r.quantity)
    && line.cells[13] == Num(r.ytd) && line.cells[14] == Num(r.orderCnt) && line.cells[15] == Num(r.remoteCnt)
  }

  /** Line by line. */
  ghost predicate HoldsAll(db: Db, spelling: Spelling, lines: seq<FileLine>, keys: seq<RowKey>) {
    |lines| == |keys| && forall n :: 0 <= n < |lines| ==> Holds(db, spelling, lines[n], keys[n])
  }

  // ------------------------------------------------------------- the rows in the order of the loops

  function KeyOf(t: Layout.Table, i: nat, j: nat, k: int): RowKey {
    match t
    case Customer => CustomerRow(CustomerKey(i + 1, j + 1, k + 1))
    case History => HistoryRow(History(k + 1, j + 1, i + 1, j + 1, i + 1, Load.FIRST_PAYMENT))
    case Stock => StockRow(StockKey(i + 1, k + 1))
    case _ => NewOrderRow(OrderKey(i + 1, j + 1, k + 1))
  }

  function KeysNumbered(t: Layout.Table, i: nat, j: nat, lo: int, hi: int): seq<RowKey>
    decreases hi - lo
  {
    if hi <= lo then [] else KeysNumbered(t, i, j, lo, hi - 1) + [KeyOf(t, i, j, hi - 1)]
  }

  function KeysOfLines(ok: OrderKey, n: nat): seq<RowKey> {
    if n == 0 then [] else KeysOfLines(ok, n - 1) + [LineRow(LineKey(ok.w, ok.d, ok.o, n))]
  }

  function Lines(g: Load.Draws, ok: OrderKey): nat {
    if g.lineCount(ok) < 0 then 0 else g.lineCount(ok)
  }

  /** The first n orders of a district, each before its lines. */
  function KeysOfOrders(g: Load.Draws, i: nat, j: nat, n: nat): seq<RowKey> {
    if n == 0 then []
    else
      var ok := OrderKey(i + 1, j + 1, n);
      KeysOfOrders(g, i, j, n - 1) + ([OrderRow(ok)] + KeysOfLines(ok, Lines(g, ok)))
  }

  function KeysInDistrict(g: Load.Draws, t: Layout.Table, i: nat, j: nat): seq<RowKey> {
    match t
    case Customer => KeysNumbered(t, i, j, 0, CUSTOMERS)
    case History => KeysNumbered(t, i, j, 0, CUSTOMERS)
    case NewOrder => KeysNumbered(t, i, j, ORDERS - NEW_ORDERS, ORDERS)
    case Orders => KeysOfOrders(g, i, j, ORDERS)
    case _ => [DistrictRow(DistrictKey(i + 1, j + 1))]
  }

  function KeysOfDistricts(g: Load.Draws, t: Layout.Table, i: nat, n: nat): seq<RowKey> {
    if n == 0 then [] else KeysOfDistricts(g, t, i, n - 1) + KeysInDistrict(g, t, i, n - 1)
  }

  function KeysOfBlock(g: Load.Draws, t: Layout.Table, i: nat): seq<RowKey> {
    match t
    case Item => [ItemRow(i + 1)]
    case Stock => KeysNumbered(t, i, 0, 0, ITEMS)
    case Warehouse => [WarehouseRow(i + 1)]
    case _ => KeysOfDistricts(g, t, i, DISTRICTS)
  }

  /** The rows of a table in the order in which they are written. */
  function KeysOf(g: Load.Draws, t: Layout.Table, n: nat): seq<RowKey> {
    if n == 0 then [] else KeysOf(g, t, n - 1) + KeysOfBlock(g, t, n - 1)
  }

  // ------------------------------------------------------------- cells of a row

  /** A cell that takes no draw. */
  lemma FixedCell(state: nat, fields: seq<Layout.Field>, n: nat)
    requires state < MODULUS && n < |fields| && fields[n].Fixed?
    ensures |Cells(state, fields)| == |fields| && Cells(state, fields)[n] == fields[n].cell
  {
    hide StateAfter, CellsUpTo, Layout.DrawsUpTo;
    CellAt(state, fields, n, |fields|);
  }

  /** A cell that takes one draw, or two. */
  lemma DrawnCell(state: nat, fields: seq<Layout.Field>, n: nat, draws: nat)
    requires state < MODULUS && n < |fields| && Layout.DrawsUpTo(fields, n) == draws
    ensures |Cells(state, fields)| == |fields|
    ensures Cells(state, fields)[n] == FieldCell(fields[n], StateAfter(state, draws))
    ensures Draw(StateAfter(state, draws), 0) == Draw(state, draws)
    ensures Draw(StateAfter(state, draws), 1) == Draw(state, draws + 1)
  {
    hide StateAfter, CellsUpTo, Layout.DrawsUpTo, FieldCell, Draw;
    CellAt(state, fields, n, |fields|);
    DrawShift(state, draws, 0);
    DrawShift(state, draws, 1);
  }

  // ------------------------------------------------------------- one row of each table

  ghost function LoadOf(w: nat, seed: nat, spelling: Spelling): Db
    requires seed < WORD
  {
    Load.Load(w, FromSeed(seed, spelling))
  }

  lemma WarehouseLine(w: nat, seed: nat, spelling: Spelling, i: nat, state: nat)
    requires seed < WORD && i < w && state < MODULUS
    ensures Holds(LoadOf(w, seed, spelling), spelling,
                  FileLine(TableFile(Layout.Warehouse), Cells(state, Layout.WarehouseFields(i))), WarehouseRow(i + 1))
  {
    hide Cells, FromSeed;
    var f := Layout.WarehouseFields(i);
    FixedCell(state, f, 0);
    FixedCell(state, f, 8);
  }

  lemma DistrictLine(w: nat, seed: nat, spelling: Spelling, i: nat, j: nat, state: nat)
    requires seed < WORD && i < w && j < DISTRICTS && state < MODULUS
    ensures Holds(LoadOf(w, seed, spelling), spelling,
                  FileLine(TableFile(Layout.District), Cells(state, Layout.DistrictFields(i, j))),
                  DistrictRow(DistrictKey(i + 1, j + 1)))
  {
    hide Cells, FromSeed;
    var f := Layout.DistrictFields(i, j);
    FixedCell(state, f, 0);
    FixedCell(state, f, 1);
    FixedCell(state, f, 9);
    FixedCell(state, f, 10);
  }

  lemma HistoryLine(w: nat, seed: nat, spelling: Spelling, i: nat, j: nat, k: nat, state: nat)
    requires seed < WORD && state < MODULUS
    ensures Holds(LoadOf(w, seed, spelling), spelling,
                  FileLine(TableFile(Layout.History), Cells(state, Layout.HistoryFields(i, j, k))),
                  KeyOf(Layout.History, i, j, k))
  {
    hide Cells, FromSeed;
    var f := Layout.HistoryFields(i, j, k);
    FixedCell(state, f, 0);
    FixedCell(state, f, 1);
    FixedCell(state, f, 2);
    FixedCell(state, f, 3);
    FixedCell(state, f, 4);
    FixedCell(state, f, 6);
  }

  lemma NewOrderLine(w: nat, seed: nat, spelling: Spelling, i: nat, j: nat, k: nat, state: nat)
    requires seed < WORD && i < w && j < DISTRICTS && ORDERS - NEW_ORDERS <= k < ORDERS && state < MODULUS
    ensures Holds(LoadOf(w, seed, spelling), spelling,
                  FileLine(TableFile(Layout.NewOrder), Cells(state, Layout.NewOrderFields(i, j, k))),
                  KeyOf(Layout.NewOrder, i, j, k))
  {
    hide Cells, FromSeed;
    var f := Layout.NewOrderFields(i, j, k);
    FixedCell(state, f, 0);
    FixedCell(state, f, 1);
    FixedCell(state, f, 2);
  }

  lemma ItemOfLoad(w: nat, seed: nat, spelling: Spelling, i: nat)
    requires seed < WORD && i < ITEMS
    ensures i + 1 in LoadOf(w, seed, spelling).item
    ensures LoadOf(w, seed, spelling).item[i + 1] == Item(Scaled(9901, Draw(StateOf(seed, BeforeItem(i)), 2)) + 100)
  {
    hide StateOf, BeforeItem, Draw, Scaled;
  }

  lemma ItemLine(w: nat, seed: nat, spelling: Spelling, i: nat)
    requires seed < WORD && i < ITEMS
    ensures Holds(LoadOf(w, seed, spelling), spelling,
                  FileLine(TableFile(Layout.Item), Cells(StateOf(seed, BeforeItem(i)), Layout.ItemFields(i))),
                  ItemRow(i + 1))
  {
    hide LoadOf, Cells, StateOf, BeforeItem, StateAfter, Draw, Scaled, Layout.DrawsUpTo;
    ItemOfLoad(w, seed, spelling, i);
    var f, state := Layout.ItemFields(i), StateOf(seed, BeforeItem(i));
    Layout.NoFields(f);
    Layout.NextField(f, 0);
    Layout.NextField(f, 1);
    Layout.NextField(f, 2);
    FixedCell(state, f, 0);
    DrawnCell(state, f, 3, 2);
  }

  lemma StockOfLoad(w: nat, seed: nat, spelling: Spelling, i: nat, j: nat)
    requires seed < WORD && i < w && j < ITEMS
    ensures StockKey(i + 1, j + 1) in LoadOf(w, seed, spelling).stock
    ensures LoadOf(w, seed, spelling).stock[StockKey(i + 1, j + 1)]
         == Stock(Scaled(91, Draw(StateOf(seed, BeforeStock(i, j)), 0)) + 10, 0, 0, 0)
  {
    hide StateOf, BeforeStock, Draw, Scaled;
  }

  lemma StockLine(w: nat, seed: nat, spelling: Spelling, i: nat, j: nat)
    requires seed < WORD && i < w && j < ITEMS
    ensures Holds(LoadOf(w, seed, spelling), spelling,
                  FileLine(TableFile(Layout.Stock), Cells(StateOf(seed, BeforeStock(i, j)), Layout.StockFields(i, j))),
                  KeyOf(Layout.Stock, i, 0, j))
  {
    hide LoadOf, Cells, StateOf, BeforeStock, StateAfter, Draw, Scaled, Layout.DrawsUpTo;
    StockOfLoad(w, seed, spelling, i, j);
    var f, state := Layout.StockFields(i, j), StateOf(seed, BeforeStock(i, j));
    Layout.NoFields(f);
    Layout.NextField(f, 0);
    Layout.NextField(f, 1);
    FixedCell(state, f, 0);
    FixedCell(state, f, 1);
    DrawnCell(state, f, 2, 0);
    FixedCell(state, f, 13);
    FixedCell(state, f, 14);
    FixedCell(state, f, 15);
  }

  lemma CustomerDrawsBefore(i: nat, j: nat, k: nat)
    ensures var f := Layout.CustomerFields(i, j, k);
            && Layout.DrawsUpTo(f, 3) == 0 && Layout.DrawsUpTo(f, 5) == 1
            && Layout.DrawsUpTo(f, 13) == if k < 1000 then 7 else 9
  {
    hide Layout.DrawsUpTo;
    var f := Layout.CustomerFields(i, j, k);
    Layout.NoFields(f);
    Layout.NextField(f, 0);
    Layout.NextField(f, 1);
    Layout.NextField(f, 2);
    Layout.NextField(f, 3);
    Layout.NextField(f, 4);
    Layout.FourFields(f, 5);
    Layout.FourFields(f, 9);
  }

  lemma CustomerDrawn(i: nat, j: nat, k: nat, state: nat)
    requires state < MODULUS
    ensures var cells := Cells(state, Layout.CustomerFields(i, j, k));
            && |cells| == 21
            && cells[3] == Layout.Letters(Layout.A_LETTERS, StringFrom(Draw(state, 0), 8, 16, Layout.A_LETTERS))
            && cells[5] == Num(if k < 1000 then k else NuRand(255, 0, 999, Draw(state, 1), Draw(state, 2)))
            && cells[13] == Layout.Text(if InFirstTenth(Draw(state, if k < 1000 then 7 else 9)) then "BC" else "GC")
  {
    hide Cells, StateAfter, Draw, StringFrom, NuRand, InFirstTenth, Layout.DrawsUpTo;
    var f := Layout.CustomerFields(i, j, k);
    CustomerDrawsBefore(i, j, k);
    DrawnCell(state, f, 3, 0);
    if k < 1000 { FixedCell(state, f, 5); } else { DrawnCell(state, f, 5, 1); }
    DrawnCell(state, f, 13, if k < 1000 then 7 else 9);
  }

  lemma CustomerFixed(i: nat, j: nat, k: nat, state: nat)
    requires state < MODULUS
    ensures var cells := Cells(state, Layout.CustomerFields(i, j, k));
            && |cells| == 21 && cells[0] == Num(k + 1) && cells[1] == Num(j + 1) && cells[2] == Num(i + 1)
            && cells[16] == Layout.Cents(-1000) && cells[17] == Layout.Cents(1000)
            && cells[18] == Num(1) && cells[19] == Num(0)
  {
    hide Cells;
    var f := Layout.CustomerFields(i, j, k);
    FixedCell(state, f, 0);
    FixedCell(state, f, 1);
    FixedCell(state, f, 2);
    FixedCell(state, f, 16);
    FixedCell(state, f, 17);
    FixedCell(state, f, 18);
    FixedCell(state, f, 19);
  }

  lemma CustomerLine(w: nat, seed: nat, spelling: Spelling, i: nat, j: nat, k: nat)
    requires seed < WORD && i < w && j < DISTRICTS && k < CUSTOMERS
    ensures Holds(LoadOf(w, seed, spelling), spelling,
                  FileLine(TableFile(Layout.Customer),
                           Cells(StateOf(seed, BeforeCustomer(i, j, k)), Layout.CustomerFields(i, j, k))),
                  KeyOf(Layout.Customer, i, j, k))
  {
    hide LoadOf, Cells, StateOf, BeforeCustomer, Draw, StringFrom, NuRand, InFirstTenth, Layout.CustomerFields;
    var state := StateOf(seed, BeforeCustomer(i, j, k));
    CustomerFixed(i, j, k, state);
    CustomerDrawn(i, j, k, state);
    CustomerOfLoad(w, seed, spelling, i, j, k);
  }

  lemma CustomerOfLoad(w: nat, seed: nat, spelling: Spelling, i: nat, j: nat, k: nat)
    requires seed < WORD && i < w && j < DISTRICTS && k < CUSTOMERS
    ensures var ck, state := CustomerKey(i + 1, j + 1, k + 1), StateOf(seed, BeforeCustomer(i, j, k));
            && ck in LoadOf(w, seed, spelling).customer
            && LoadOf(w, seed, spelling).customer[ck]
               == Customer(
                    -1000, 1000, 1, 0,
                    spelling.lastName(if k < 1000 then k else NuRand(255, 0, 999, Draw(state, 1), Draw(state, 2))),
                    spelling.letters(StringFrom(Draw(state, 0), 8, 16, Layout.A_LETTERS)),
                    !InFirstTenth(Draw(state, if k < 1000 then 7 else 9)))
  {
    hide StateOf, BeforeCustomer, Draw, StringFrom, NuRand, InFirstTenth;
    var ck := CustomerKey(i + 1, j + 1, k + 1);
    assert CustomerState(seed, ck) == StateOf(seed, BeforeCustomer(i, j, k));
    assert ck in LoadOf(w, seed, spelling).customer;
    var r := LoadOf(w, seed, spelling).customer[ck];
    assert r.first == spelling.letters(FirstName(seed, ck));
    assert r.last == spelling.lastName(LastName(seed, ck));
    assert r.goodCredit == GoodCredit(seed, ck);
  }

  lemma OrderDrawn(i: nat, j: nat, k: nat, customer: int, state: nat)
    requires state < MODULUS
    ensures var cells := Cells(state, Layout.OrderFields(i, j, k, customer));
            && |cells| == 8
            && cells[5] == (if k < CARRIED then Num(Scaled(10, Draw(state, 0)) + 1) else Layout.Null)
            && cells[6] == Num(DrawnLineCount(Draw(state, SeedDraw(k))))
  {
    hide Cells, StateAfter, Draw, Scaled, DrawnLineCount, Layout.DrawsUpTo;
    var f := Layout.OrderFields(i, j, k, customer);
    Layout.NoFields(f);
    Layout.FourFields(f, 0);
    Layout.NextField(f, 4);
    Layout.NextField(f, 5);
    if k < CARRIED { DrawnCell(state, f, 5, 0); } else { FixedCell(state, f, 5); }
    DrawnCell(state, f, 6, SeedDraw(k));
  }

  lemma OrderFixed(i: nat, j: nat, k: nat, customer: int, state: nat)
    requires state < MODULUS
    ensures var cells := Cells(state, Layout.OrderFields(i, j, k, customer));
            && |cells| == 8 && cells[0] == Num(k + 1) && cells[1] == Num(j + 1) && cells[2] == Num(i + 1)
            && cells[3] == Num(customer) && cells[7] == Num(1)
  {
    hide Cells;
    var f := Layout.OrderFields(i, j, k, customer);
    FixedCell(state, f, 0);
    FixedCell(state, f, 1);
    FixedCell(state, f, 2);
    FixedCell(state, f, 3);
    FixedCell(state, f, 7);
  }

  lemma OrderLine(w: nat, seed: nat, spelling: Spelling, i: nat, j: nat, k: nat)
    requires seed < WORD && i < w && j < DISTRICTS && k < ORDERS
    ensures Holds(LoadOf(w, seed, spelling), spelling,
                  FileLine(TableFile(Layout.Orders),
                           Cells(OrderState(seed, i, j, k),
                                 Layout.OrderFields(i, j, k, CustomerList(seed, i, j)[k]))),
                  OrderRow(OrderKey(i + 1, j + 1, k + 1)))
  {
    hide LoadOf, Cells, OrderState, CustomerList, Draw, Scaled, DrawnLineCount, Layout.OrderFields, SeedDraw;
    var state, customer := OrderState(seed, i, j, k), CustomerList(seed, i, j)[k];
    OrderFixed(i, j, k, customer, state);
    OrderDrawn(i, j, k, customer, state);
    OrderOfLoad(w, seed, spelling, i, j, k);
  }

  lemma OrderOfLoad(w: nat, seed: nat, spelling: Spelling, i: nat, j: nat, k: nat)
    requires seed < WORD && i < w && j < DISTRICTS && k < ORDERS
    ensures var ok, state := OrderKey(i + 1, j + 1, k + 1), OrderState(seed, i, j, k);
            && ok in LoadOf(w, seed, spelling).orders
            && LoadOf(w, seed, spelling).orders[ok]
               == Order(CustomerList(seed, i, j)[k],
                        if k < CARRIED then Some(Scaled(10, Draw(state, 0)) + 1) else None,
                        DrawnLineCount(Draw(state, SeedDraw(k))), 1)
  {
    hide OrderState, CustomerList, Draw, Scaled, DrawnLineCount, SeedDraw;
  }

  lemma LineDrawn(i: nat, j: nat, k: nat, l: nat, state: nat)
    requires state < MODULUS
    ensures var cells := Cells(state, Layout.LineFields(ITEMS, i, j, k, l));
            && |cells| == 10
            && cells[4] == Num(Scaled(ITEMS, Draw(state, 0)) + 1)
            && cells[8] == Layout.Cents(if k < CARRIED then 0 else Scaled(999999, Draw(state, 1)) + 1)
  {
    hide Cells, StateAfter, Draw, Scaled, Layout.DrawsUpTo;
    var f := Layout.LineFields(ITEMS, i, j, k, l);
    Layout.NoFields(f);
    Layout.FourFields(f, 0);
    Layout.FourFields(f, 4);
    DrawnCell(state, f, 4, 0);
    if k < CARRIED { FixedCell(state, f, 8); } else { DrawnCell(state, f, 8, 1); }
  }

  lemma LineFixed(i: nat, j: nat, k: nat, l: nat, state: nat)
    requires state < MODULUS
    ensures var cells := Cells(state, Layout.LineFields(ITEMS, i, j, k, l));
            && |cells| == 10 && cells[0] == Num(k + 1) && cells[1] == Num(j + 1) && cells[2] == Num(i + 1)
            && cells[3] == Num(l + 1) && cells[5] == Num(i + 1)
            && cells[6] == (if k < CARRIED then Layout.Now else Layout.Null) && cells[7] == Num(5)
  {
    hide Cells;
    var f := Layout.LineFields(ITEMS, i, j, k, l);
    FixedCell(state, f, 0);
    FixedCell(state, f, 1);
    FixedCell(state, f, 2);
    FixedCell(state, f, 3);
    FixedCell(state, f, 5);
    FixedCell(state, f, 6);
    FixedCell(state, f, 7);
  }

  lemma OneOrderLine(w: nat, seed: nat, spelling: Spelling, i: nat, j: nat, k: nat, l: nat)
    requires seed < WORD && i < w && j < DISTRICTS && k < ORDERS
    requires l < LineCount(seed, OrderKey(i + 1, j + 1, k + 1))
    ensures Holds(LoadOf(w, seed, spelling), spelling,
                  FileLine(OrderLineFile, Cells(LineState(seed, i, j, k, l), Layout.LineFields(ITEMS, i, j, k, l))),
                  LineRow(LineKey(i + 1, j + 1, k + 1, l + 1)))
  {
    hide LoadOf, Cells, LineState, Draw, Scaled, LineCount, Layout.LineFields;
    var state := LineState(seed, i, j, k, l);
    LineFixed(i, j, k, l, state);
    LineDrawn(i, j, k, l, state);
    LineOfLoad(w, seed, spelling, i, j, k, l);
  }

  lemma LineOfLoad(w: nat, seed: nat, spelling: Spelling, i: nat, j: nat, k: nat, l: nat)
    requires seed < WORD && i < w && j < DISTRICTS && k < ORDERS
    requires l < LineCount(seed, OrderKey(i + 1, j + 1, k + 1))
    ensures var lk, state := LineKey(i + 1, j + 1, k + 1, l + 1), LineState(seed, i, j, k, l);
            && lk in LoadOf(w, seed, spelling).orderLine
            && LoadOf(w, seed, spelling).orderLine[lk]
               == Line(Scaled(ITEMS, Draw(state, 0)) + 1, i + 1, k < CARRIED, 5,
                       if k < CARRIED then 0 else Scaled(999999, Draw(state, 1)) + 1)
  {
    hide LineState, Draw, Scaled, LineCount, Load.Load;
    LineInLoad(w, FromSeed(seed, spelling), LineKey(i + 1, j + 1, k + 1, l + 1));
  }

  lemma LineInLoad(w: nat, g: Load.Draws, lk: LineKey)
    requires lk in Load.LineKeys(w, g)
    ensures lk in Load.Load(w, g).orderLine
    ensures Load.Load(w, g).orderLine[lk] == Line(g.lineItem(lk), lk.w, lk.o - 1 < CARRIED, 5,
                                                  if lk.o - 1 < CARRIED then 0 else g.lineAmount(lk))
  {
    hide Load.LineKeys;
  }

  // ------------------------------------------------------------- what a stretch of rows writes

  /** What the units `part` write after the units `done`. */
  ghost function Piece(seed: nat, done: seq<Layout.Unit>, part: seq<Layout.Unit>): seq<FileLine>
    requires seed < WORD
  {
    Emit(CONFIG, StateOf(seed, done), part)
  }

  lemma PieceAppend(seed: nat, done: seq<Layout.Unit>, a: seq<Layout.Unit>, b: seq<Layout.Unit>)
    requires seed < WORD
    ensures Piece(seed, done, a + b) == Piece(seed, done, a) + Piece(seed, done + a, b)
  {
    hide Emit, StateAfter, Layout.DrawsOf;
    WordFits();
    EmitAppend(CONFIG, StateOf(seed, done), a, b);
    Layout.DrawsOfAppend(CONFIG, done, a);
    StateAfterSum(Seeded(seed), Layout.DrawsOf(CONFIG, done), Layout.DrawsOf(CONFIG, a));
  }

  lemma PieceOne(seed: nat, done: seq<Layout.Unit>, u: Layout.Unit)
    requires seed < WORD
    ensures Piece(seed, done, [u]) == EmitUnit(CONFIG, u, StateOf(seed, done))
  {
    hide EmitUnit, StateOf;
    var state := StateOf(seed, done);
    Layout.NothingDrawn(CONFIG);
    StartsHere(state);
    assert [u][..0] == [];
    assert Emit(CONFIG, state, []) == [];
  }

  lemma PieceNone(seed: nat, done: seq<Layout.Unit>)
    requires seed < WORD
    ensures Piece(seed, done, []) == []
  {
  }

  lemma HoldsAppend(db: Db, spelling: Spelling, a: seq<FileLine>, ka: seq<RowKey>, b: seq<FileLine>, kb: seq<RowKey>)
    requires HoldsAll(db, spelling, a, ka) && HoldsAll(db, spelling, b, kb)
    ensures HoldsAll(db, spelling, a + b, ka + kb)
  {
    hide Holds;
  }

  lemma HoldsOne(db: Db, spelling: Spelling, line: FileLine, key: RowKey)
    requires Holds(db, spelling, line, key)
    ensures HoldsAll(db, spelling, [line], [key])
  {
    hide Holds;
  }

  lemma HoldsNone(db: Db, spelling: Spelling)
    ensures HoldsAll(db, spelling, [], [])
  {
  }

  /** Everything written before the rows k = 0, 1, ... of a district (for stock: of a warehouse). */
  function Base(t: Layout.Table, i: nat, j: nat): seq<Layout.Unit> {
    Layout.Blocks(CONFIG, t, 0, i) + if t == Layout.Stock then [] else Layout.Districts(CONFIG, t, i, j)
  }

  function First(t: Layout.Table): nat { if t == Layout.NewOrder then ORDERS - NEW_ORDERS else 0 }

  /** The tables whose rows are numbered within a district or a warehouse. */
  predicate IsNumbered(t: Layout.Table) {
    t == Layout.Customer || t == Layout.History || t == Layout.NewOrder || t == Layout.Stock
  }

  function Past(t: Layout.Table): nat {
    match t
    case Stock => ITEMS
    case NewOrder => ORDERS
    case _ => CUSTOMERS
  }

  lemma NumberedLine(t: Layout.Table, w: nat, seed: nat, spelling: Spelling, i: nat, j: nat, k: nat)
    requires IsNumbered(t) && seed < WORD && i < w && j < DISTRICTS && First(t) <= k < Past(t)
    requires t == Layout.Stock ==> j == 0
    ensures Layout.RowOf(t, i, j, k).Row?
    ensures var u := Layout.RowOf(t, i, j, k);
            var state := StateOf(seed, Base(t, i, j) + Layout.Numbered(t, i, j, First(t), k));
            var line := FileLine(TableFile(t), Cells(state, u.fields));
            && EmitUnit(CONFIG, u, state) == [line]
            && Holds(LoadOf(w, seed, spelling), spelling, line, KeyOf(t, i, j, k))
  {
    hide Holds, LoadOf, Cells, StateOf, Layout.Numbered, Layout.Blocks, Layout.Districts;
    var state := StateOf(seed, Base(t, i, j) + Layout.Numbered(t, i, j, First(t), k));
    match t
    case Customer => CustomerLine(w, seed, spelling, i, j, k);
    case History => HistoryLine(w, seed, spelling, i, j, k, state);
    case NewOrder => NewOrderLine(w, seed, spelling, i, j, k, state);
    case Stock =>
      assert Layout.Blocks(CONFIG, t, 0, i) + [] == Layout.Blocks(CONFIG, t, 0, i);
      StockLine(w, seed, spelling, i, k);
  }

  lemma {:induction false} NumberedHold(t: Layout.Table, w: nat, seed: nat, spelling: Spelling, i: nat, j: nat, hi: nat)
    requires IsNumbered(t) && seed < WORD && i < w && j < DISTRICTS && First(t) <= hi <= Past(t)
    requires t == Layout.Stock ==> j == 0
    ensures HoldsAll(LoadOf(w, seed, spelling), spelling,
                     Piece(seed, Base(t, i, j), Layout.Numbered(t, i, j, First(t), hi)),
                     KeysNumbered(t, i, j, First(t), hi))
    decreases hi
  {
    hide HoldsAll, Holds, LoadOf, Piece, Base, EmitUnit, Cells, Layout.RowOf, KeyOf, IsNumbered;
    var db, base := LoadOf(w, seed, spelling), Base(t, i, j);
    if hi == First(t) {
      PieceNone(seed, base);
      HoldsNone(db, spelling);
    } else {
      var k := hi - 1;
      var done, u := Layout.Numbered(t, i, j, First(t), k), Layout.RowOf(t, i, j, k);
      NumberedHold(t, w, seed, spelling, i, j, k);
      NumberedLine(t, w, seed, spelling, i, j, k);
      PieceAppend(seed, base, done, [u]);
      PieceOne(seed, base + done, u);
      var line := FileLine(TableFile(t), Cells(StateOf(seed, base + done), u.fields));
      HoldsOne(db, spelling, line, KeyOf(t, i, j, k));
      HoldsAppend(db, spelling, Piece(seed, base, done), KeysNumbered(t, i, j, First(t), k),
                  [line], [KeyOf(t, i, j, k)]);
    }
  }

  // ------------------------------------------------------------- orders and their lines

  /** The private stream of order k before its first line. */
  ghost function LinesStart(seed: nat, i: nat, j: nat, k: nat): (s: nat)
    requires seed < WORD
    ensures s < MODULUS
  {
    WordFits();
    StateAfter(Seeded(Draw(OrderState(seed, i, j, k), SeedDraw(k))), 1)
  }

  lemma {:induction false} LinesHold(w: nat, seed: nat, spelling: Spelling, i: nat, j: nat, k: nat, n: nat)
    requires seed < WORD && i < w && j < DISTRICTS && k < ORDERS
    requires n <= LineCount(seed, OrderKey(i + 1, j + 1, k + 1))
    ensures HoldsAll(LoadOf(w, seed, spelling), spelling,
                     OrderLines(ITEMS, LinesStart(seed, i, j, k), i, j, k, n),
                     KeysOfLines(OrderKey(i + 1, j + 1, k + 1), n))
  {
    hide HoldsAll, Holds, LoadOf, Cells, OrderState, StateAfter, Draw, LineCount, DrawsOfLines;
    var db, ok := LoadOf(w, seed, spelling), OrderKey(i + 1, j + 1, k + 1);
    if n == 0 {
      HoldsNone(db, spelling);
    } else {
      LinesHold(w, seed, spelling, i, j, k, n - 1);
      OneOrderLine(w, seed, spelling, i, j, k, n - 1);
      var line := FileLine(OrderLineFile,
                           Cells(LineState(seed, i, j, k, n - 1), Layout.LineFields(ITEMS, i, j, k, n - 1)));
      HoldsOne(db, spelling, line, LineRow(LineKey(i + 1, j + 1, k + 1, n)));
      HoldsAppend(db, spelling, OrderLines(ITEMS, LinesStart(seed, i, j, k), i, j, k, n - 1), KeysOfLines(ok, n - 1),
                  [line], [LineRow(LineKey(i + 1, j + 1, k + 1, n))]);
    }
  }

  lemma LinesOfSeed(seed: nat, spelling: Spelling, i: nat, j: nat, k: nat)
    requires seed < WORD
    ensures Lines(FromSeed(seed, spelling), OrderKey(i + 1, j + 1, k + 1))
         == LineCount(seed, OrderKey(i + 1, j + 1, k + 1))
         == DrawnLineCount(Draw(OrderState(seed, i, j, k), SeedDraw(k)))
  {
    hide OrderState, Draw, DrawnLineCount, SeedDraw;
  }

  lemma OrderHolds(w: nat, seed: nat, spelling: Spelling, i: nat, j: nat, k: nat)
    requires seed < WORD && i < w && j < DISTRICTS && k < ORDERS
    ensures var ok := OrderKey(i + 1, j + 1, k + 1);
            HoldsAll(LoadOf(w, seed, spelling), spelling,
                     OrderOut(ITEMS, OrderState(seed, i, j, k), i, j, k, CustomerList(seed, i, j)[k]),
                     [OrderRow(ok)] + KeysOfLines(ok, Lines(FromSeed(seed, spelling), ok)))
  {
    hide HoldsAll, Holds, LoadOf, Cells, OrderState, CustomerList, StateAfter, Draw, DrawnLineCount, LineCount, Lines,
         SeedDraw;
    var db, ok := LoadOf(w, seed, spelling), OrderKey(i + 1, j + 1, k + 1);
    LinesOfSeed(seed, spelling, i, j, k);
    OrderLine(w, seed, spelling, i, j, k);
    var n := LineCount(seed, ok);
    LinesHold(w, seed, spelling, i, j, k, n);
    var line := FileLine(TableFile(Layout.Orders),
                         Cells(OrderState(seed, i, j, k), Layout.OrderFields(i, j, k, CustomerList(seed, i, j)[k])));
    HoldsOne(db, spelling, line, OrderRow(ok));
    HoldsAppend(db, spelling, [line], [OrderRow(ok)],
                OrderLines(ITEMS, LinesStart(seed, i, j, k), i, j, k, n), KeysOfLines(ok, n));
  }

  /** The main stream once the list of customers of a district is built. */
  ghost function OrdersStart(seed: nat, i: nat, j: nat): (s: nat)
    requires seed < WORD
    ensures s < MODULUS
  {
    StateAfter(StateOf(seed, BeforeOrders(i, j)), PickCount(CUSTOMERS))
  }

  lemma {:induction false} OrdersHold(w: nat, seed: nat, spelling: Spelling, i: nat, j: nat, n: nat)
    requires seed < WORD && i < w && j < DISTRICTS && n <= ORDERS
    ensures HoldsAll(LoadOf(w, seed, spelling), spelling,
                     OrdersUpTo(ITEMS, OrdersStart(seed, i, j), i, j, CustomerList(seed, i, j), n),
                     KeysOfOrders(FromSeed(seed, spelling), i, j, n))
  {
    hide HoldsAll, Holds, LoadOf, FromSeed, OrderOut, CustomerList, StateAfter, StateOf, BeforeOrders, Lines;
    var db, g := LoadOf(w, seed, spelling), FromSeed(seed, spelling);
    var start, list := OrdersStart(seed, i, j), CustomerList(seed, i, j);
    if n == 0 {
      HoldsNone(db, spelling);
    } else {
      var k, ok := n - 1, OrderKey(i + 1, j + 1, n);
      OrdersHold(w, seed, spelling, i, j, k);
      OrderHolds(w, seed, spelling, i, j, k);
      HoldsAppend(db, spelling, OrdersUpTo(ITEMS, start, i, j, list, k), KeysOfOrders(g, i, j, k),
                  OrderOut(ITEMS, OrderState(seed, i, j, k), i, j, k, list[k]),
                  [OrderRow(ok)] + KeysOfLines(ok, Lines(g, ok)));
    }
  }

  // ------------------------------------------------------------- districts, blocks, tables

  lemma OrdersOfDistrict(seed: nat, i: nat, j: nat)
    requires seed < WORD
    ensures EmitUnit(CONFIG, Layout.OrdersOf(i, j), StateOf(seed, BeforeOrders(i, j)))
         == OrdersUpTo(ITEMS, OrdersStart(seed, i, j), i, j, CustomerList(seed, i, j), ORDERS)
  {
    hide StateOf, BeforeOrders, OrdersUpTo, StateAfter, Inserted, Picks;
  }

  lemma DistrictHolds(t: Layout.Table, w: nat, seed: nat, spelling: Spelling, i: nat, j: nat)
    requires seed < WORD && i < w && j < DISTRICTS && t != Layout.Item && t != Layout.Stock && t != Layout.Warehouse
    ensures HoldsAll(LoadOf(w, seed, spelling), spelling,
                     Piece(seed, Layout.Blocks(CONFIG, t, 0, i) + Layout.Districts(CONFIG, t, i, j),
                           Layout.InDistrict(CONFIG, t, i, j)),
                     KeysInDistrict(FromSeed(seed, spelling), t, i, j))
  {
    hide HoldsAll, Holds, LoadOf, FromSeed, Piece, OrdersUpTo, StateOf, Cells, KeysNumbered, KeysOfOrders,
         Layout.Numbered, Layout.Blocks, Layout.Districts, Layout.DistrictFields, OrdersStart, CustomerList;
    var db, done := LoadOf(w, seed, spelling), Layout.Blocks(CONFIG, t, 0, i) + Layout.Districts(CONFIG, t, i, j);
    match t
    case Orders =>
      PieceOne(seed, done, Layout.OrdersOf(i, j));
      OrdersOfDistrict(seed, i, j);
      OrdersHold(w, seed, spelling, i, j, ORDERS);
    case District =>
      var u := Layout.Row(Layout.District, Layout.DistrictFields(i, j));
      PieceOne(seed, done, u);
      DistrictLine(w, seed, spelling, i, j, StateOf(seed, done));
      HoldsOne(db, spelling, FileLine(TableFile(Layout.District), Cells(StateOf(seed, done), u.fields)),
               DistrictRow(DistrictKey(i + 1, j + 1)));
    case _ => NumberedHold(t, w, seed, spelling, i, j, Past(t));
  }

  lemma {:induction false} DistrictsHold(t: Layout.Table, w: nat, seed: nat, spelling: Spelling, i: nat, n: nat)
    requires seed < WORD && i < w && n <= DISTRICTS && t != Layout.Item && t != Layout.Stock && t != Layout.Warehouse
    ensures HoldsAll(LoadOf(w, seed, spelling), spelling,
                     Piece(seed, Layout.Blocks(CONFIG, t, 0, i), Layout.Districts(CONFIG, t, i, n)),
                     KeysOfDistricts(FromSeed(seed, spelling), t, i, n))
  {
    hide HoldsAll, Holds, LoadOf, FromSeed, Piece, KeysInDistrict, Layout.Blocks, Layout.InDistrict;
    var db, g, before := LoadOf(w, seed, spelling), FromSeed(seed, spelling), Layout.Blocks(CONFIG, t, 0, i);
    if n == 0 {
      PieceNone(seed, before);
      HoldsNone(db, spelling);
    } else {
      var done, here := Layout.Districts(CONFIG, t, i, n - 1), Layout.InDistrict(CONFIG, t, i, n - 1);
      DistrictsHold(t, w, seed, spelling, i, n - 1);
      DistrictHolds(t, w, seed, spelling, i, n - 1);
      PieceAppend(seed, before, done, here);
      HoldsAppend(db, spelling, Piece(seed, before, done), KeysOfDistricts(g, t, i, n - 1),
                  Piece(seed, before + done, here), KeysInDistrict(g, t, i, n - 1));
    }
  }

  /** How many blocks a table has: warehouses, or items. */
  function BlocksOf(t: Layout.Table, w: nat): nat { if t == Layout.Item then ITEMS else w }

  lemma BlockHolds(t: Layout.Table, w: nat, seed: nat, spelling: Spelling, i: nat)
    requires seed < WORD && i < BlocksOf(t, w)
    ensures HoldsAll(LoadOf(w, seed, spelling), spelling,
                     Piece(seed, Layout.Blocks(CONFIG, t, 0, i), Layout.Block(CONFIG, t, i)),
                     KeysOfBlock(FromSeed(seed, spelling), t, i))
  {
    hide HoldsAll, Holds, LoadOf, FromSeed, Piece, StateOf, Cells, KeysNumbered, KeysOfDistricts, Layout.Numbered,
         Layout.Blocks, Layout.Districts, Layout.ItemFields, Layout.WarehouseFields;
    var db, done := LoadOf(w, seed, spelling), Layout.Blocks(CONFIG, t, 0, i);
    match t
    case Item =>
      var u := Layout.Row(t, Layout.ItemFields(i));
      PieceOne(seed, done, u);
      ItemLine(w, seed, spelling, i);
      HoldsOne(db, spelling, FileLine(TableFile(t), Cells(StateOf(seed, done), u.fields)), ItemRow(i + 1));
    case Warehouse =>
      var u := Layout.Row(t, Layout.WarehouseFields(i));
      PieceOne(seed, done, u);
      WarehouseLine(w, seed, spelling, i, StateOf(seed, done));
      HoldsOne(db, spelling, FileLine(TableFile(t), Cells(StateOf(seed, done), u.fields)), WarehouseRow(i + 1));
    case Stock =>
      assert done + [] == done;
      NumberedHold(t, w, seed, spelling, i, 0, ITEMS);
    case _ => DistrictsHold(t, w, seed, spelling, i, DISTRICTS);
  }

  lemma {:induction false} BlocksHold(t: Layout.Table, w: nat, seed: nat, spelling: Spelling, n: nat)
    requires seed < WORD && n <= BlocksOf(t, w)
    ensures HoldsAll(LoadOf(w, seed, spelling), spelling,
                     Piece(seed, [], Layout.Blocks(CONFIG, t, 0, n)), KeysOf(FromSeed(seed, spelling), t, n))
  {
    hide HoldsAll, Holds, LoadOf, FromSeed, Piece, KeysOfBlock, Layout.Block, BlocksOf;
    var db, g := LoadOf(w, seed, spelling), FromSeed(seed, spelling);
    if n == 0 {
      PieceNone(seed, []);
      HoldsNone(db, spelling);
    } else {
      var done, here := Layout.Blocks(CONFIG, t, 0, n - 1), Layout.Block(CONFIG, t, n - 1);
      FewerBlocks(t, w, n);
      BlocksHold(t, w, seed, spelling, n - 1);
      BlockHolds(t, w, seed, spelling, n - 1);
      PieceAppend(seed, [], done, here);
      assert [] + done == done;
      HoldsAppend(db, spelling, Piece(seed, [], done), KeysOf(g, t, n - 1),
                  Piece(seed, done, here), KeysOfBlock(g, t, n - 1));
    }
  }

  lemma FewerBlocks(t: Layout.Table, w: nat, n: nat)
    requires 0 < n <= BlocksOf(t, w)
    ensures n - 1 < BlocksOf(t, w)
  {
  }

  /** For every table, seed and number of warehouses: the single run of the generator writes, line by line, the rows
      of the load in the order of its loops. */
  lemma RunWritesLoad(t: Layout.Table, w: nat, seed: nat, spelling: Spelling)
    requires seed < WORD
    ensures HoldsAll(LoadOf(w, seed, spelling), spelling,
                     PartOutput(CONFIG, t, seed, 1, 0, BlocksOf(t, w)),
                     KeysOf(FromSeed(seed, spelling), t, BlocksOf(t, w)))
  {
    hide HoldsAll, LoadOf, FromSeed, Emit, Layout.Blocks, KeysOf, BlocksOf;
    BlocksHold(t, w, seed, spelling, BlocksOf(t, w));
    WordFits();
    Layout.NothingDrawn(CONFIG);
    StartsHere(Seeded(seed));
  }

  // ------------------------------------------------------------- the rows written are those of the load, each once

  function WarehouseOf(key: RowKey): int {
    match key
    case WarehouseRow(w) => w
    case DistrictRow(dk) => dk.w
    case CustomerRow(ck) => ck.w
    case HistoryRow(h) => h.w
    case ItemRow(i) => i
    case NewOrderRow(ok) => ok.w
    case OrderRow(ok) => ok.w
    case LineRow(lk) => lk.w
    case StockRow(sk) => sk.w
  }

  function DistrictNumber(key: RowKey): int {
    match key
    case DistrictRow(dk) => dk.d
    case CustomerRow(ck) => ck.d
    case HistoryRow(h) => h.d
    case NewOrderRow(ok) => ok.d
    case OrderRow(ok) => ok.d
    case LineRow(lk) => lk.d
    case _ => 1
  }

  /** The rows lo + 1 .. hi of a numbered table in one district (for stock: of one warehouse). */
  predicate AmongNumbered(t: Layout.Table, i: nat, j: nat, lo: int, hi: int, key: RowKey) {
    match t
    case Customer => key.CustomerRow? && key.ck == CustomerKey(i + 1, j + 1, key.ck.c) && lo < key.ck.c <= hi
    case History =>
      && key.HistoryRow? && key.h == History(key.h.c, j + 1, i + 1, j + 1, i + 1, Load.FIRST_PAYMENT)
      && lo < key.h.c <= hi
    case Stock => key.StockRow? && key.sk == StockKey(i + 1, key.sk.i) && lo < key.sk.i <= hi
    case _ => key.NewOrderRow? && key.ok == OrderKey(i + 1, j + 1, key.ok.o) && lo < key.ok.o <= hi
  }

  lemma {:induction false} InNumbered(t: Layout.Table, i: nat, j: nat, lo: int, hi: int, key: RowKey)
    ensures key in KeysNumbered(t, i, j, lo, hi) <==> AmongNumbered(t, i, j, lo, hi, key)
    decreases hi - lo
  {
    if lo < hi { InNumbered(t, i, j, lo, hi - 1, key); }
  }

  lemma {:induction false} InLines(ok: OrderKey, n: nat, key: RowKey)
    ensures key in KeysOfLines(ok, n) <==> key.LineRow? && OrderOf(key.lk) == ok && 1 <= key.lk.n <= n
  {
    if n > 0 { InLines(ok, n - 1, key); }
  }

  predicate AmongOrders(g: Load.Draws, i: nat, j: nat, n: nat, key: RowKey) {
    || (key.OrderRow? && key.ok == OrderKey(i + 1, j + 1, key.ok.o) && 1 <= key.ok.o <= n)
    || (key.LineRow? && OrderOf(key.lk) == OrderKey(i + 1, j + 1, key.lk.o) && 1 <= key.lk.o <= n
        && 1 <= key.lk.n <= Lines(g, OrderOf(key.lk)))
  }

  lemma {:induction false} InOrders(g: Load.Draws, i: nat, j: nat, n: nat, key: RowKey)
    ensures key in KeysOfOrders(g, i, j, n) <==> AmongOrders(g, i, j, n, key)
  {
    hide KeysOfLines, Lines;
    if n > 0 {
      var ok := OrderKey(i + 1, j + 1, n);
      InOrders(g, i, j, n - 1, key);
      InLines(ok, Lines(g, ok), key);
    }
  }

  predicate AmongDistrict(g: Load.Draws, t: Layout.Table, i: nat, j: nat, key: RowKey) {
    match t
    case Customer => AmongNumbered(t, i, j, 0, CUSTOMERS, key)
    case History => AmongNumbered(t, i, j, 0, CUSTOMERS, key)
    case NewOrder => AmongNumbered(t, i, j, ORDERS - NEW_ORDERS, ORDERS, key)
    case Orders => AmongOrders(g, i, j, ORDERS, key)
    case _ => key == DistrictRow(DistrictKey(i + 1, j + 1))
  }

  lemma InOneDistrict(g: Load.Draws, t: Layout.Table, i: nat, j: nat, key: RowKey)
    ensures key in KeysInDistrict(g, t, i, j) <==> AmongDistrict(g, t, i, j, key)
    ensures AmongDistrict(g, t, i, j, key) ==> DistrictNumber(key) == j + 1 || t == Layout.Stock
  {
    hide KeysNumbered, KeysOfOrders, Lines;
    match t
    case Customer => InNumbered(t, i, j, 0, CUSTOMERS, key);
    case History => InNumbered(t, i, j, 0, CUSTOMERS, key);
    case NewOrder => InNumbered(t, i, j, ORDERS - NEW_ORDERS, ORDERS, key);
    case Orders => InOrders(g, i, j, ORDERS, key);
    case _ =>
  }

  lemma InEither(a: seq<RowKey>, b: seq<RowKey>, key: RowKey)
    ensures key in a + b <==> key in a || key in b
  {
  }

  lemma {:induction false} InDistricts(g: Load.Draws, t: Layout.Table, i: nat, n: nat, key: RowKey)
    requires t != Layout.Stock
    ensures key in KeysOfDistricts(g, t, i, n)
       <==> 1 <= DistrictNumber(key) <= n && AmongDistrict(g, t, i, DistrictNumber(key) - 1, key)
  {
    hide KeysInDistrict, AmongDistrict, DistrictNumber;
    if n > 0 {
      InDistricts(g, t, i, n - 1, key);
      InOneDistrict(g, t, i, n - 1, key);
      InEither(KeysOfDistricts(g, t, i, n - 1), KeysInDistrict(g, t, i, n - 1), key);
    }
  }

  predicate AmongBlock(g: Load.Draws, t: Layout.Table, i: nat, key: RowKey) {
    match t
    case Item => key == ItemRow(i + 1)
    case Stock => AmongNumbered(t, i, 0, 0, ITEMS, key)
    case Warehouse => key == WarehouseRow(i + 1)
    case _ => 1 <= DistrictNumber(key) <= DISTRICTS && AmongDistrict(g, t, i, DistrictNumber(key) - 1, key)
  }

  lemma InBlock(g: Load.Draws, t: Layout.Table, i: nat, key: RowKey)
    ensures key in KeysOfBlock(g, t, i) <==> AmongBlock(g, t, i, key)
  {
    hide KeysNumbered, KeysOfDistricts, AmongDistrict;
    match t
    case Item =>
    case Stock => InNumbered(t, i, 0, 0, ITEMS, key);
    case Warehouse =>
    case _ => InDistricts(g, t, i, DISTRICTS, key);
  }

  lemma BlockNumber(g: Load.Draws, t: Layout.Table, i: nat, key: RowKey)
    requires AmongBlock(g, t, i, key)
    ensures WarehouseOf(key) == i + 1
  {
    hide Lines;
  }

  lemma {:induction false} InBlocks(g: Load.Draws, t: Layout.Table, n: nat, key: RowKey)
    ensures key in KeysOf(g, t, n) <==> 1 <= WarehouseOf(key) <= n && AmongBlock(g, t, WarehouseOf(key) - 1, key)
  {
    hide KeysOfBlock, AmongBlock, WarehouseOf;
    if n > 0 {
      InBlocks(g, t, n - 1, key);
      InBlock(g, t, n - 1, key);
      InEither(KeysOf(g, t, n - 1), KeysOfBlock(g, t, n - 1), key);
      if AmongBlock(g, t, n - 1, key) { BlockNumber(g, t, n - 1, key); }
    }
  }

  /** The table has the row (for orders: orders or order_line). */
  ghost predicate Has(db: Db, t: Layout.Table, key: RowKey) {
    match t
    case Customer => key.CustomerRow? && key.ck in db.customer
    case District => key.DistrictRow? && key.dk in db.district
    case History => key.HistoryRow? && key.h in db.history
    case Item => key.ItemRow? && key.i in db.item
    case NewOrder => key.NewOrderRow? && key.ok in db.newOrder
    case Orders => (key.OrderRow? && key.ok in db.orders) || (key.LineRow? && key.lk in db.orderLine)
    case Stock => key.StockRow? && key.sk in db.stock
    case Warehouse => key.WarehouseRow? && key.w in db.warehouse
  }

  /** The generated history holds exactly one first payment per customer. */
  lemma {:induction false} InDistrictHistory(w: int, d: int, n: nat, h: History)
    ensures h in Load.DistrictHistory(w, d, n) <==> 1 <= h.c <= n && h == History(h.c, d, w, d, w, Load.FIRST_PAYMENT)
  {
    if n > 0 { InDistrictHistory(w, d, n - 1, h); }
  }

  lemma {:induction false} InWarehouseHistory(w: int, d: nat, n: nat, h: History)
    ensures h in Load.WarehouseHistory(w, d, n)
       <==> 1 <= h.d <= d && 1 <= h.c <= n && h == History(h.c, h.d, w, h.d, w, Load.FIRST_PAYMENT)
  {
    hide Load.DistrictHistory;
    if d > 0 {
      InWarehouseHistory(w, d - 1, n, h);
      InDistrictHistory(w, d, n, h);
    }
  }

  lemma {:induction false} InHistory(w: nat, d: nat, n: nat, h: History)
    ensures h in Load.AllHistory(w, d, n)
       <==> 1 <= h.w <= w && 1 <= h.d <= d && 1 <= h.c <= n && h == History(h.c, h.d, h.w, h.d, h.w, Load.FIRST_PAYMENT)
  {
    hide Load.WarehouseHistory;
    if w > 0 {
      InHistory(w - 1, d, n, h);
      InWarehouseHistory(w, d, n, h);
    }
  }

  lemma HistoryRows(g: Load.Draws, w: nat, key: RowKey)
    ensures 1 <= WarehouseOf(key) <= w && AmongBlock(g, Layout.History, WarehouseOf(key) - 1, key)
       <==> key.HistoryRow? && key.h in Load.AllHistory(w, DISTRICTS, CUSTOMERS)
  {
    hide Load.AllHistory;
    if key.HistoryRow? { InHistory(w, DISTRICTS, CUSTOMERS, key.h); }
  }

  /** The keys of the load's tables are those of the loops. */
  lemma LoadHas(g: Load.Draws, t: Layout.Table, w: nat, key: RowKey)
    requires Load.Possible(g)
    ensures Has(Load.Load(w, g), t, key)
       <==> 1 <= WarehouseOf(key) <= BlocksOf(t, w) && AmongBlock(g, t, WarehouseOf(key) - 1, key)
  {
    hide Load.AllHistory;
    match t
    case History => HistoryRows(g, w, key);
    case Orders => OrderRows(g, w, key);
    case _ => OtherRows(g, t, w, key);
  }

  lemma OtherRows(g: Load.Draws, t: Layout.Table, w: nat, key: RowKey)
    requires t != Layout.History && t != Layout.Orders
    ensures Has(Load.Load(w, g), t, key)
       <==> 1 <= WarehouseOf(key) <= BlocksOf(t, w) && AmongBlock(g, t, WarehouseOf(key) - 1, key)
  {
    hide Load.AllHistory;
  }

  lemma OrderRows(g: Load.Draws, w: nat, key: RowKey)
    requires Load.Possible(g)
    ensures Has(Load.Load(w, g), Layout.Orders, key)
       <==> 1 <= WarehouseOf(key) <= w && AmongBlock(g, Layout.Orders, WarehouseOf(key) - 1, key)
  {
    hide Load.AllHistory;
    if key.LineRow? {
      var k := key.lk;
      assert k == LineKey(k.w, k.d, k.o, k.n) && OrderOf(k) == OrderKey(k.w, k.d, k.o);
      assert 5 <= g.lineCount(OrderOf(k)) <= 15;
    }
  }

  ghost predicate Distinct(keys: seq<RowKey>) {
    forall m, n :: 0 <= m < n < |keys| ==> keys[m] != keys[n]
  }

  lemma DistinctAppend(a: seq<RowKey>, b: seq<RowKey>)
    requires Distinct(a) && Distinct(b) && forall key :: key in a ==> key !in b
    ensures Distinct(a + b)
  {
    forall m, n | 0 <= m < n < |a + b|
      ensures (a + b)[m] != (a + b)[n]
    {
      if m < |a| <= n { assert a[m] in a && b[n - |a|] in b; }
    }
  }

  lemma {:induction false} NumberedDistinct(t: Layout.Table, i: nat, j: nat, lo: int, hi: int)
    ensures Distinct(KeysNumbered(t, i, j, lo, hi))
    decreases hi - lo
  {
    hide Distinct, KeyOf;
    if lo < hi {
      NumberedDistinct(t, i, j, lo, hi - 1);
      LaterNumbered(t, i, j, lo, hi - 1);
      OneDistinct(KeyOf(t, i, j, hi - 1));
      DistinctAppend(KeysNumbered(t, i, j, lo, hi - 1), [KeyOf(t, i, j, hi - 1)]);
    } else {
      NoneDistinct();
    }
  }

  lemma LaterNumbered(t: Layout.Table, i: nat, j: nat, lo: int, k: int)
    ensures KeyOf(t, i, j, k) !in KeysNumbered(t, i, j, lo, k)
  {
    InNumbered(t, i, j, lo, k, KeyOf(t, i, j, k));
  }

  lemma NoneDistinct()
    ensures Distinct([])
  {
  }

  lemma OneDistinct(key: RowKey)
    ensures Distinct([key])
  {
  }

  lemma {:induction false} LinesDistinct(ok: OrderKey, n: nat)
    ensures Distinct(KeysOfLines(ok, n))
  {
    hide Distinct;
    if n > 0 {
      LinesDistinct(ok, n - 1);
      InLines(ok, n - 1, LineRow(LineKey(ok.w, ok.d, ok.o, n)));
      OneDistinct(LineRow(LineKey(ok.w, ok.d, ok.o, n)));
      DistinctAppend(KeysOfLines(ok, n - 1), [LineRow(LineKey(ok.w, ok.d, ok.o, n))]);
    } else {
      NoneDistinct();
    }
  }

  lemma {:induction false} OrdersDistinct(g: Load.Draws, i: nat, j: nat, n: nat)
    ensures Distinct(KeysOfOrders(g, i, j, n))
  {
    hide Distinct, Lines, KeysOfLines;
    if n > 0 {
      var ok := OrderKey(i + 1, j + 1, n);
      var before, lines := KeysOfOrders(g, i, j, n - 1), KeysOfLines(ok, Lines(g, ok));
      OrdersDistinct(g, i, j, n - 1);
      LinesDistinct(ok, Lines(g, ok));
      OneDistinct(OrderRow(ok));
      InLines(ok, Lines(g, ok), OrderRow(ok));
      DistinctAppend([OrderRow(ok)], lines);
      forall key | key in before
        ensures key !in [OrderRow(ok)] + lines
      {
        InOrders(g, i, j, n - 1, key);
        InLines(ok, Lines(g, ok), key);
      }
      DistinctAppend(before, [OrderRow(ok)] + lines);
    } else {
      NoneDistinct();
    }
  }

  lemma InDistrictDistinct(g: Load.Draws, t: Layout.Table, i: nat, j: nat)
    ensures Distinct(KeysInDistrict(g, t, i, j))
  {
    hide Distinct, KeysNumbered, KeysOfOrders;
    match t
    case Customer => NumberedDistinct(t, i, j, 0, CUSTOMERS);
    case History => NumberedDistinct(t, i, j, 0, CUSTOMERS);
    case NewOrder => NumberedDistinct(t, i, j, ORDERS - NEW_ORDERS, ORDERS);
    case Orders => OrdersDistinct(g, i, j, ORDERS);
    case _ => OneDistinct(DistrictRow(DistrictKey(i + 1, j + 1)));
  }

  lemma {:induction false} DistrictsDistinct(g: Load.Draws, t: Layout.Table, i: nat, n: nat)
    requires t != Layout.Stock
    ensures Distinct(KeysOfDistricts(g, t, i, n))
  {
    hide Distinct, KeysInDistrict, AmongDistrict, DistrictNumber;
    if n > 0 {
      var before, here := KeysOfDistricts(g, t, i, n - 1), KeysInDistrict(g, t, i, n - 1);
      DistrictsDistinct(g, t, i, n - 1);
      InDistrictDistinct(g, t, i, n - 1);
      forall key | key in before
        ensures key !in here
      {
        InDistricts(g, t, i, n - 1, key);
        InOneDistrict(g, t, i, n - 1, key);
      }
      DistinctAppend(before, here);
    } else {
      NoneDistinct();
    }
  }

  lemma BlockDistinct(g: Load.Draws, t: Layout.Table, i: nat)
    ensures Distinct(KeysOfBlock(g, t, i))
  {
    hide Distinct, KeysNumbered, KeysOfDistricts;
    match t
    case Item => OneDistinct(ItemRow(i + 1));
    case Stock => NumberedDistinct(t, i, 0, 0, ITEMS);
    case Warehouse => OneDistinct(WarehouseRow(i + 1));
    case _ => DistrictsDistinct(g, t, i, DISTRICTS);
  }

  lemma {:induction false} AllDistinct(g: Load.Draws, t: Layout.Table, n: nat)
    ensures Distinct(KeysOf(g, t, n))
  {
    hide Distinct, KeysOfBlock, AmongBlock, WarehouseOf;
    if n > 0 {
      var before, here := KeysOf(g, t, n - 1), KeysOfBlock(g, t, n - 1);
      AllDistinct(g, t, n - 1);
      BlockDistinct(g, t, n - 1);
      forall key | key in before
        ensures key !in here
      {
        InBlocks(g, t, n - 1, key);
        InBlock(g, t, n - 1, key);
        if key in here { BlockNumber(g, t, n - 1, key); }
      }
      DistinctAppend(before, here);
    } else {
      NoneDistinct();
    }
  }

  /** For every seed and number of warehouses, the single run of each generator writes every row of the load in its
      table (for orders, also in order_line) on exactly one line, and every line is such a row. */
  lemma RunWritesEveryRowOnce(t: Layout.Table, w: nat, seed: nat, spelling: Spelling, n: nat, key: RowKey)
    requires seed < WORD
    ensures var db := LoadOf(w, seed, spelling);
            var lines := PartOutput(CONFIG, t, seed, 1, 0, BlocksOf(t, w));
            var keys := KeysOf(FromSeed(seed, spelling), t, BlocksOf(t, w));
            && Written(CONFIG, t, seed, 1, 0, BlocksOf(t, w)) == Some(lines)
            && |lines| == |keys| && Distinct(keys)
            && (n < |lines| ==> Has(db, t, keys[n]) && Holds(db, spelling, lines[n], keys[n]))
            && (Has(db, t, key) <==> key in keys)
  {
    hide Holds, FromSeed, PartOutput, Has, Distinct, AmongBlock, WarehouseOf, KeysOf, BlocksOf, Load.Load;
    var db, g, blocks := LoadOf(w, seed, spelling), FromSeed(seed, spelling), BlocksOf(t, w);
    var keys := KeysOf(g, t, blocks);
    FromSeedPossible(seed, spelling);
    RunWritesLoad(t, w, seed, spelling);
    AllDistinct(g, t, blocks);
    LoadHas(g, t, w, key);
    InBlocks(g, t, blocks, key);
    if n < |keys| {
      LoadHas(g, t, w, keys[n]);
      InBlocks(g, t, blocks, keys[n]);
    }
  }

  // ------------------------------------------------------------- history, which has no keys, in its order

  ghost function AsRows(h: seq<History>): seq<RowKey> {
    if h == [] then [] else AsRows(h[..|h| - 1]) + [HistoryRow(h[|h| - 1])]
  }

  lemma {:induction false} AsRowsAppend(a: seq<History>, b: seq<History>)
    ensures AsRows(a + b) == AsRows(a) + AsRows(b)
    decreases |b|
  {
    if b == [] {
      assert a + b == a;
    } else {
      assert (a + b)[..|a + b| - 1] == a + b[..|b| - 1];
      AsRowsAppend(a, b[..|b| - 1]);
    }
  }

  lemma {:induction false} DistrictHistoryInOrder(i: nat, j: nat, n: nat)
    ensures AsRows(Load.DistrictHistory(i + 1, j + 1, n)) == KeysNumbered(Layout.History, i, j, 0, n)
  {
    if n > 0 {
      DistrictHistoryInOrder(i, j, n - 1);
      var h := Load.DistrictHistory(i + 1, j + 1, n);
      assert h[..|h| - 1] == Load.DistrictHistory(i + 1, j + 1, n - 1);
    }
  }

  lemma {:induction false} WarehouseHistoryInOrder(g: Load.Draws, i: nat, d: nat)
    ensures AsRows(Load.WarehouseHistory(i + 1, d, CUSTOMERS)) == KeysOfDistricts(g, Layout.History, i, d)
  {
    hide Load.DistrictHistory, KeysNumbered;
    if d > 0 {
      WarehouseHistoryInOrder(g, i, d - 1);
      DistrictHistoryInOrder(i, d - 1, CUSTOMERS);
      AsRowsAppend(Load.WarehouseHistory(i + 1, d - 1, CUSTOMERS), Load.DistrictHistory(i + 1, d, CUSTOMERS));
    }
  }

  /** The history file holds the rows of the load's history, in its order. */
  lemma {:induction false} HistoryInOrder(g: Load.Draws, w: nat)
    ensures AsRows(Load.AllHistory(w, DISTRICTS, CUSTOMERS)) == KeysOf(g, Layout.History, w)
  {
    hide Load.WarehouseHistory, KeysOfDistricts;
    if w > 0 {
      HistoryInOrder(g, w - 1);
      WarehouseHistoryInOrder(g, w - 1, DISTRICTS);
      AsRowsAppend(Load.AllHistory(w - 1, DISTRICTS, CUSTOMERS), Load.WarehouseHistory(w, DISTRICTS, CUSTOMERS));
    }
  }
}
