/** The tables the data generator produces at its default cardinalities, and what every run from them satisfies. */
module DefaultLoad {
  import opened Common
  import opened FiniteSums
  import opened Tables
  import opened Transactions
  import opened Consistency
  import opened Clauses
  import opened StockLevels
  import opened CustomerCounts
  import opened OrderEffects
  import opened PaymentEffects

  const FIRST_PAYMENT := 1000    // cents
  const DISTRICT_YTD := 3000000
  const WAREHOUSE_YTD := 30000000

  /** The values drawn from the random stream, whatever the seed. */
  datatype Draws = Draws(
    price: int -> int,
    quantity: StockKey -> int,
    last: CustomerKey -> string,
    first: CustomerKey -> string,
    goodCredit: CustomerKey -> bool,
    orderedBy: OrderKey -> int,
    carrier: OrderKey -> int,
    lineCount: OrderKey -> int,
    lineItem: LineKey -> int,
    lineAmount: LineKey -> int)

  /** The ranges the generator draws from. */
  ghost predicate Possible(g: Draws) {
    && (forall k :: 10 <= g.quantity(k) <= 100)
    && (forall k :: 1 <= g.orderedBy(k) <= CUSTOMERS)
    && (forall k :: 5 <= g.lineCount(k) <= 15)
  }

  function DistrictKeys(w: nat): set<DistrictKey> {
    set i, d | 1 <= i <= w && 1 <= d <= DISTRICTS :: DistrictKey(i, d)
  }

  function CustomerKeys(w: nat): set<CustomerKey> {
    set i, d, c | 1 <= i <= w && 1 <= d <= DISTRICTS && 1 <= c <= CUSTOMERS :: CustomerKey(i, d, c)
  }

  function OrderKeys(w: nat, lo: int): set<OrderKey> {
    set i, d, o | 1 <= i <= w && 1 <= d <= DISTRICTS && lo <= o <= ORDERS :: OrderKey(i, d, o)
  }

  function LineKeys(w: nat, g: Draws): set<LineKey> {
    set i, d, o, n | 1 <= i <= w && 1 <= d <= DISTRICTS && 1 <= o <= ORDERS && 1 <= n <= 15
                     && n <= g.lineCount(OrderKey(i, d, o)) :: LineKey(i, d, o, n)
  }

  function StockKeys(w: nat): set<StockKey> {
    set i, j | 1 <= i <= w && 1 <= j <= ITEMS :: StockKey(i, j)
  }

  function DistrictHistory(w: int, d: int, n: nat): seq<History> {
    if n == 0 then [] else DistrictHistory(w, d, n - 1) + [History(n, d, w, d, w, FIRST_PAYMENT)]
  }

  function WarehouseHistory(w: int, d: nat, n: nat): seq<History> {
    if d == 0 then [] else WarehouseHistory(w, d - 1, n) + DistrictHistory(w, d, n)
  }

  /** One payment by each of `n` customers in each of `d` districts of warehouses 1 .. w. */
  function AllHistory(w: nat, d: nat, n: nat): seq<History> {
    if w == 0 then [] else AllHistory(w - 1, d, n) + WarehouseHistory(w, d, n)
  }

  ghost function WarehouseIds(w: nat): set<int> {
    Interval(1, w + 1)
  }

  ghost function ItemIds(): set<int> {
    Interval(1, ITEMS + 1)
  }

  ghost function Load(w: nat, g: Draws): Db {
    Db(map i | i in WarehouseIds(w) :: Warehouse(WAREHOUSE_YTD),
       map k | k in DistrictKeys(w) :: District(DISTRICT_YTD, ORDERS + 1),
       map k | k in CustomerKeys(w) ::
         Customer(-FIRST_PAYMENT, FIRST_PAYMENT, 1, 0, g.last(k), g.first(k), g.goodCredit(k)),
       map i | i in ItemIds() :: Item(g.price(i)),
       map k | k in StockKeys(w) :: Stock(g.quantity(k), 0, 0, 0),
       map k | k in OrderKeys(w, 1) ::
         Order(g.orderedBy(k), if k.o - 1 < CARRIED then Some(g.carrier(k)) else None, g.lineCount(k), 1),
       OrderKeys(w, ORDERS - NEW_ORDERS + 1),
       map k | k in LineKeys(w, g) ::
         Line(g.lineItem(k), k.w, k.o - 1 < CARRIED, 5, if k.o - 1 < CARRIED then 0 else g.lineAmount(k)),
       AllHistory(w, DISTRICTS, CUSTOMERS))
  }

  // ------------------------------------------------------------- the structure

  lemma {:induction false} OrderKeysCount(keys: set<OrderKey>, dk: DistrictKey, lo: int, hi: int)
    requires lo <= hi
    requires forall k :: k in keys <==> DistrictOf(k) == dk && lo <= k.o < hi
    ensures |keys| == hi - lo
    decreases hi - lo
  {
    if lo == hi {
      assert keys == {};
    } else {
      var last := OrderKey(dk.w, dk.d, hi - 1);
      OrderKeysCount(keys - {last}, dk, lo, hi - 1);
    }
  }

  lemma LoadLow(w: nat, g: Draws, dk: DistrictKey)
    requires dk in DistrictKeys(w)
    ensures Low(Load(w, g), dk) == ORDERS - NEW_ORDERS + 1
  {
    OrderKeysCount(PendingOf(Load(w, g), dk), dk, ORDERS - NEW_ORDERS + 1, ORDERS + 1);
  }

  lemma LoadIds(w: nat, g: Draws)
    ensures OrderIds(Load(w, g)) && PendingIds(Load(w, g))
  {
    var db := Load(w, g);
    forall dk, o | dk in db.district
      ensures OrderKey(dk.w, dk.d, o) in db.newOrder <==> Low(db, dk) <= o < db.district[dk].nextOid
    {
      LoadLow(w, g, dk);
    }
  }

  lemma LoadLines(w: nat, g: Draws)
    requires Possible(g)
    ensures LineNumbers(Load(w, g))
  {
    var db := Load(w, g);
    forall k ensures k in db.orderLine <==> OrderOf(k) in db.orders && 1 <= k.n <= db.orders[OrderOf(k)].olCnt {
      assert k == LineKey(k.w, k.d, k.o, k.n) && OrderOf(k) == OrderKey(k.w, k.d, k.o);
      assert OrderOf(k) in db.orders <==> 1 <= k.w <= w && 1 <= k.d <= DISTRICTS && 1 <= k.o <= ORDERS;
      assert g.lineCount(OrderOf(k)) <= 15;
    }
  }

  lemma LoadReferences(w: nat, g: Draws)
    requires Possible(g)
    ensures CustomersExist(Load(w, g)) && Carriers(Load(w, g))
  {
    var db := Load(w, g);
    forall ok | ok in db.orders ensures CustomerOf(ok, db.orders[ok]) in db.customer {
      assert 1 <= g.orderedBy(ok) <= CUSTOMERS;
    }
  }

  // ----------------------------------------------------------------- the money

  lemma {:induction false} TakingsConcat(a: seq<History>, b: seq<History>, w: int, dk: DistrictKey, ck: CustomerKey)
    ensures WarehouseTakings(a + b, w) == WarehouseTakings(a, w) + WarehouseTakings(b, w)
    ensures DistrictTakings(a + b, dk) == DistrictTakings(a, dk) + DistrictTakings(b, dk)
    ensures CustomerPayments(a + b, ck) == CustomerPayments(a, ck) + CustomerPayments(b, ck)
    decreases |b|
  {
    if b == [] {
      assert a + b == a;
    } else {
      var rest, x := b[..|b| - 1], b[|b| - 1];
      TakingsConcat(a, rest, w, dk, ck);
      HistoryAppend(a + rest, x, w, dk, ck);
      HistoryAppend(rest, x, w, dk, ck);
      assert a + b == a + rest + [x] && b == rest + [x];
    }
  }

  function Times(n: nat, x: int): int {
    if n == 0 then 0 else Times(n - 1, x) + x
  }

  function PerDistrict(n: nat): int { Times(n, FIRST_PAYMENT) }

  function PerWarehouse(d: nat, n: nat): int { Times(d, PerDistrict(n)) }

  lemma {:induction false} TimesIsProduct(n: nat, x: int)
    ensures Times(n, x) == n * x
  {
    if n > 0 {
      TimesIsProduct(n - 1, x);
      assert n * x == (n - 1) * x + x;
    }
  }

  lemma {:induction false} DistrictHistoryTotals(i: int, d: int, n: nat, w: int, dk: DistrictKey, ck: CustomerKey)
    ensures WarehouseTakings(DistrictHistory(i, d, n), w) == if i == w then PerDistrict(n) else 0
    ensures DistrictTakings(DistrictHistory(i, d, n), dk) == if DistrictKey(i, d) == dk then PerDistrict(n) else 0
    ensures CustomerPayments(DistrictHistory(i, d, n), ck)
         == if ck.w == i && ck.d == d && 1 <= ck.c <= n then FIRST_PAYMENT else 0
  {
    if n == 0 {
      assert DistrictHistory(i, d, n) == [];
    } else {
      DistrictHistoryTotals(i, d, n - 1, w, dk, ck);
      HistoryAppend(DistrictHistory(i, d, n - 1), History(n, d, i, d, i, FIRST_PAYMENT), w, dk, ck);
    }
  }

  lemma LastDistrict(i: int, d: nat, n: nat, w: int, dk: DistrictKey, ck: CustomerKey)
    requires d > 0
    ensures WarehouseTakings(WarehouseHistory(i, d, n), w)
         == WarehouseTakings(WarehouseHistory(i, d - 1, n), w) + WarehouseTakings(DistrictHistory(i, d, n), w)
    ensures DistrictTakings(WarehouseHistory(i, d, n), dk)
         == DistrictTakings(WarehouseHistory(i, d - 1, n), dk) + DistrictTakings(DistrictHistory(i, d, n), dk)
    ensures CustomerPayments(WarehouseHistory(i, d, n), ck)
         == CustomerPayments(WarehouseHistory(i, d - 1, n), ck) + CustomerPayments(DistrictHistory(i, d, n), ck)
  {
    TakingsConcat(WarehouseHistory(i, d - 1, n), DistrictHistory(i, d, n), w, dk, ck);
  }

  lemma {:induction false} WarehouseHistoryTotals(i: int, d: nat, n: nat, w: int, dk: DistrictKey, ck: CustomerKey)
    ensures WarehouseTakings(WarehouseHistory(i, d, n), w) == if i == w then PerWarehouse(d, n) else 0
    ensures DistrictTakings(WarehouseHistory(i, d, n), dk)
         == if dk.w == i && 1 <= dk.d <= d then PerDistrict(n) else 0
    ensures CustomerPayments(WarehouseHistory(i, d, n), ck)
         == if ck.w == i && 1 <= ck.d <= d && 1 <= ck.c <= n then FIRST_PAYMENT else 0
  {
    if d == 0 {
      assert WarehouseHistory(i, d, n) == [];
    } else {
      LastDistrict(i, d, n, w, dk, ck);
      WarehouseHistoryTotals(i, d - 1, n, w, dk, ck);
      DistrictHistoryTotals(i, d, n, w, dk, ck);
    }
  }

  lemma LastWarehouse(i: nat, d: nat, n: nat, w: int, dk: DistrictKey, ck: CustomerKey)
    requires i > 0
    ensures WarehouseTakings(AllHistory(i, d, n), w)
         == WarehouseTakings(AllHistory(i - 1, d, n), w) + WarehouseTakings(WarehouseHistory(i, d, n), w)
    ensures DistrictTakings(AllHistory(i, d, n), dk)
         == DistrictTakings(AllHistory(i - 1, d, n), dk) + DistrictTakings(WarehouseHistory(i, d, n), dk)
    ensures CustomerPayments(AllHistory(i, d, n), ck)
         == CustomerPayments(AllHistory(i - 1, d, n), ck) + CustomerPayments(WarehouseHistory(i, d, n), ck)
  {
    TakingsConcat(AllHistory(i - 1, d, n), WarehouseHistory(i, d, n), w, dk, ck);
  }

  lemma NothingTaken(w: int, dk: DistrictKey, ck: CustomerKey)
    ensures WarehouseTakings([], w) == 0 && DistrictTakings([], dk) == 0 && CustomerPayments([], ck) == 0
  {
  }

  lemma {:induction false} HistoryTotals(i: nat, d: nat, n: nat, w: int, dk: DistrictKey, ck: CustomerKey)
    ensures WarehouseTakings(AllHistory(i, d, n), w) == if 1 <= w <= i then PerWarehouse(d, n) else 0
    ensures DistrictTakings(AllHistory(i, d, n), dk)
         == if 1 <= dk.w <= i && 1 <= dk.d <= d then PerDistrict(n) else 0
    ensures CustomerPayments(AllHistory(i, d, n), ck)
         == if 1 <= ck.w <= i && 1 <= ck.d <= d && 1 <= ck.c <= n then FIRST_PAYMENT else 0
  {
    hide WarehouseTakings, DistrictTakings, CustomerPayments, WarehouseHistory, PerWarehouse, PerDistrict;
    if i == 0 {
      NothingTaken(w, dk, ck);
      assert AllHistory(i, d, n) == [];
    } else {
      LastWarehouse(i, d, n, w, dk, ck);
      HistoryTotals(i - 1, d, n, w, dk, ck);
      WarehouseHistoryTotals(i, d, n, w, dk, ck);
    }
  }

  lemma {:induction false} DistrictsTotal(keys: set<DistrictKey>, f: DistrictKey -> int, w: int, n: nat)
    requires forall k :: k in keys <==> k.w == w && 1 <= k.d <= n
    requires forall k :: k in keys ==> f(k) == DISTRICT_YTD
    ensures Sum(keys, f) == Times(n, DISTRICT_YTD)
    decreases n
  {
    if n == 0 {
      assert keys == {};
    } else {
      var last := DistrictKey(w, n);
      DistrictsTotal(keys - {last}, f, w, n - 1);
      SumRemove(keys, f, last);
    }
  }

  lemma LoadLedger(w: nat, g: Draws)
    ensures Ledger(Load(w, g))
  {
    var db := Load(w, g);
    TimesIsProduct(CUSTOMERS, FIRST_PAYMENT);
    TimesIsProduct(DISTRICTS, DISTRICT_YTD);
    forall i | i in db.warehouse
      ensures db.warehouse[i].ytd == Sum(DistrictsOf(db, i), YtdOf(db.district)) == WarehouseTakings(db.history, i)
    {
      DistrictsTotal(DistrictsOf(db, i), YtdOf(db.district), i, DISTRICTS);
      HistoryTotals(w, DISTRICTS, CUSTOMERS, i, DistrictKey(0, 0), CustomerKey(0, 0, 0));
    }
    forall dk | dk in db.district ensures db.district[dk].ytd == DistrictTakings(db.history, dk) {
      HistoryTotals(w, DISTRICTS, CUSTOMERS, 0, dk, CustomerKey(0, 0, 0));
    }
  }

  lemma LoadBalances(w: nat, g: Draws)
    ensures Balances(Load(w, g))
  {
    var db := Load(w, g);
    TimesIsProduct(CUSTOMERS, FIRST_PAYMENT);
    TimesIsProduct(DISTRICTS, DISTRICT_YTD);
    forall ck | ck in db.customer
      ensures DeliveredAmount(db, ck) == 0 && CustomerPayments(db.history, ck) == FIRST_PAYMENT
    {
      SumZero(DeliveredLines(db, ck), AmountOf(db.orderLine));
      HistoryTotals(w, DISTRICTS, CUSTOMERS, 0, DistrictKey(0, 0), ck);
    }
  }

  /** The load satisfies every kept condition, for any number of warehouses and any seed. */
  lemma LoadConsistent(w: nat, g: Draws)
    requires Possible(g)
    ensures Consistent(Load(w, g)) && SupplyCounted(Load(w, g), ORDERS) && InRange(Load(w, g).stock)
  {
    var db := Load(w, g);
    ConsistentMeans(db);
    LoadIds(w, g);
    LoadLines(w, g);
    LoadReferences(w, g);
    LoadLedger(w, g);
    LoadBalances(w, g);
    forall sk | sk in db.stock ensures Counted(db.stock[sk]) == SupplyOf(db.orderLine, ORDERS, sk) {
      assert SuppliedLines(db.orderLine, ORDERS, sk) == {};
      assert RemoteLines(db.orderLine, ORDERS, sk) == {};
    }
  }

  // ------------------------------------------------------------- payment counters

  ghost predicate FirstPaymentsOnly(h: seq<History>) {
    forall i :: 0 <= i < |h| ==> h[i].amount == FIRST_PAYMENT
  }

  lemma {:induction false} OnlyFirstPayments(w: nat, d: nat, n: nat)
    ensures FirstPaymentsOnly(AllHistory(w, d, n))
  {
    if w > 0 {
      OnlyFirstPayments(w - 1, d, n);
      WarehouseFirstPayments(w, d, n);
    }
  }

  lemma {:induction false} WarehouseFirstPayments(w: int, d: nat, n: nat)
    ensures FirstPaymentsOnly(WarehouseHistory(w, d, n))
  {
    if d > 0 {
      WarehouseFirstPayments(w, d - 1, n);
      DistrictFirstPayments(w, d, n);
    }
  }

  lemma {:induction false} DistrictFirstPayments(w: int, d: int, n: nat)
    ensures FirstPaymentsOnly(DistrictHistory(w, d, n))
  {
    if n > 0 { DistrictFirstPayments(w, d, n - 1); }
  }

  lemma {:induction false} EqualPayments(h: seq<History>, ck: CustomerKey)
    requires FirstPaymentsOnly(h)
    ensures CustomerPayments(h, ck) == FIRST_PAYMENT * PaymentsBy(h, ck)
  {
    if h != [] { EqualPayments(h[..|h| - 1], ck); }
  }

  lemma LoadPayments(w: nat, g: Draws)
    ensures PaymentsCounted(Load(w, g))
  {
    hide CustomerPayments, PaymentsBy, AllHistory, FirstPaymentsOnly;
    var db := Load(w, g);
    forall ck | ck in db.customer
      ensures PaymentsBy(db.history, ck) == 1
    {
      OnlyFirstPayments(w, DISTRICTS, CUSTOMERS);
      EqualPayments(db.history, ck);
      HistoryTotals(w, DISTRICTS, CUSTOMERS, 0, DistrictKey(0, 0), ck);
    }
  }

  // ------------------------------------------------------------ runs from it

  /** Any run from the default load: all conditions hold, stock and payment counters are exact,
      stock grows by restockings. */
  lemma RunsFromLoad(w: nat, g: Draws, txns: seq<Txn>)
    requires Possible(g)
    ensures Consistent(Run(Load(w, g), txns))
    ensures SupplyCounted(Run(Load(w, g), txns), ORDERS)
    ensures GrowsByRestocks(Load(w, g).stock, Run(Load(w, g), txns).stock)
    ensures PaymentsCounted(Run(Load(w, g), txns))
    ensures (forall i :: 0 <= i < |txns| ==> OrdersDistinctPairs(txns[i])) ==> InRange(Run(Load(w, g), txns).stock)
  {
    hide Consistent, PaymentsCounted, Run;
    LoadConsistent(w, g);
    RunKeepsConsistent(Load(w, g), txns);
    LoadPayments(w, g);
    RunPayments(Load(w, g), txns);
    RunSupply(Load(w, g), txns, ORDERS);
    RunGrows(Load(w, g), txns);
    if forall i :: 0 <= i < |txns| ==> OrdersDistinctPairs(txns[i]) {
      RunKeepsRange(Load(w, g), txns);
    }
  }

  /** Every order line that a run adds names one of the 100,000 items and costs its price times the quantity. */
  lemma PricesFromLoad(w: nat, g: Draws, txns: seq<Txn>)
    ensures
      var db := Run(Load(w, g), txns);
      forall k :: k in db.orderLine && k.o > ORDERS ==>
        var l := db.orderLine[k];
        1 <= l.item <= ITEMS && l.amount == g.price(l.item) * l.quantity
  {
    hide Run;
    assert LinesPriced(Load(w, g), ORDERS);
    RunKeepsPrices(Load(w, g), txns, ORDERS);
    RunKeepsCatalogue(Load(w, g), txns);
  }

  /** The year-to-date columns after a run: what the load puts there, and the payments of the run. */
  lemma TakingsFromLoad(w: nat, g: Draws, txns: seq<Txn>, i: int, d: int, c: int)
    requires 1 <= i <= w && 1 <= d <= DISTRICTS && 1 <= c <= CUSTOMERS
    ensures
      var (dk, ck) := (DistrictKey(i, d), CustomerKey(i, d, c));
      var (before, after) := (Load(w, g), Run(Load(w, g), txns));
      && i in after.warehouse && dk in after.district && ck in after.customer
      && after.warehouse[i].ytd == WAREHOUSE_YTD + PaidInto(before, txns, OfWarehouse(i))
      && after.district[dk].ytd == DISTRICT_YTD + PaidInto(before, txns, OfDistrict(dk))
      && after.customer[ck].ytdPayment == FIRST_PAYMENT + PaidInto(before, txns, OfCustomer(ck))
  {
    hide Run, PaidInto;
    RunPays(Load(w, g), txns, OfWarehouse(i));
    RunPays(Load(w, g), txns, OfDistrict(DistrictKey(i, d)));
    RunPays(Load(w, g), txns, OfCustomer(CustomerKey(i, d, c)));
  }

  // ------------------------------------------------------------ the stock range

  /** The order names rows of a database of `w` warehouses only. */
  predicate NamesRows(inp: NewOrderInput, w: nat) {
    && 1 <= inp.w <= w && 1 <= inp.d <= DISTRICTS && 1 <= inp.c <= CUSTOMERS
    && forall i :: 0 <= i < inp.olCnt <= 15 ==> 1 <= inp.ol[i].item <= ITEMS && 1 <= inp.ol[i].supply <= w
  }

  lemma NamedOrderCommits(w: nat, g: Draws, inp: NewOrderInput)
    requires Possible(g) && Orderable(inp) && NamesRows(inp, w)
    ensures LinesKnown(Load(w, g), inp, inp.olCnt)
    ensures After(Load(w, g), NewOrder(Load(w, g), inp)).stock == StockAfter(Load(w, g), inp, inp.olCnt)
  {
    hide LineFailure;
    var db, o := Load(w, g), ORDERS + 1;
    forall j | 0 <= j < inp.olCnt
      ensures LineFailure(db, inp, o, j).None?
    {
      NamedLine(w, g, inp, j);
    }
    OrderCommits(db, inp, o);
  }

  lemma NamedLine(w: nat, g: Draws, inp: NewOrderInput, j: nat)
    requires j < inp.olCnt && Orderable(inp) && NamesRows(inp, w)
    ensures LineFailure(Load(w, g), inp, ORDERS + 1, j).None?
  {
    assert inp.ol[j].item in ItemIds();
    assert StockKeyOf(inp.ol[j]) in StockKeys(w);
  }

  /** Every order that repeats a pair takes the stock of some generated database out of range. */
  lemma RepeatedPairBreaksLoad(w: nat, inp: NewOrderInput, i: nat, j: nat) returns (g: Draws)
    requires Orderable(inp) && NamesRows(inp, w)
    requires i < j < inp.olCnt && StockKeyOf(inp.ol[i]) == StockKeyOf(inp.ol[j])
    ensures Possible(g) && !InRange(After(Load(w, g), NewOrder(Load(w, g), inp)).stock)
  {
    var sk := StockKeyOf(inp.ol[i]);
    RequestedExceedsLargest(inp, sk, inp.olCnt);
    var quantity := 10 + Largest(inp, sk, inp.olCnt);
    g := Draws(_ => 100, _ => quantity, _ => "", _ => "", _ => true, _ => 1, _ => 1, _ => 5, _ => 1, _ => 1);
    NamedOrderCommits(w, g, inp);
    assert 1 <= inp.ol[i].supply <= w && 1 <= inp.ol[i].item <= ITEMS;
    assert sk in StockKeys(w) && Load(w, g).stock[sk].quantity == quantity;
    AllTaken(Load(w, g), inp, inp.olCnt, sk);
    assert sk in StockAfter(Load(w, g), inp, inp.olCnt);
  }

  /** An order that names existing rows keeps the range 10 .. 100 of every generated database of `w` warehouses
      exactly when its (item, supplier) pairs are distinct. */
  lemma LoadRangeKeptIffDistinct(w: nat, inp: NewOrderInput)
    requires Orderable(inp) && NamesRows(inp, w)
    ensures DistinctPairs(inp)
       <==> forall g :: Possible(g) ==> InRange(After(Load(w, g), NewOrder(Load(w, g), inp)).stock)
  {
    hide Load, NewOrder, InRange, Possible;
    if DistinctPairs(inp) {
      forall g | Possible(g)
        ensures InRange(After(Load(w, g), NewOrder(Load(w, g), inp)).stock)
      {
        LoadConsistent(w, g);
        DistinctKeepsRange(Load(w, g), inp);
      }
    } else {
      var i, j :| 0 <= i < j < inp.olCnt && StockKeyOf(inp.ol[i]) == StockKeyOf(inp.ol[j]);
      var g := RepeatedPairBreaksLoad(w, inp, i, j);
    }
  }

  // --------------------------------------------------------- Clause 3.3.2.5

  /** Exactly the pending orders numbered 2101 have a carrier. */
  ghost predicate OnlyOneMislabelled(db: Db) {
    forall k :: k in Mislabelled(db) <==> k in db.newOrder && k in db.orders && k.o == CARRIED
  }

  lemma StepOnlyOneMislabelled(db: Db, t: Txn)
    requires Consistent(db) && SupplyCounted(db, ORDERS) && OnlyOneMislabelled(db)
    ensures OnlyOneMislabelled(Step(db, t))
  {
    var db' := Step(db, t);
    StepMislabelled(db, t);
    StepKeepsConsistent(db, t);
    ConsistentMeans(db);
    ConsistentMeans(db');
    forall k | k in db'.newOrder && k in db'.orders && k.o == CARRIED
      ensures k in db.newOrder && k in db.orders
    {
      StepDistricts(db, t);
      var dk := DistrictOf(k);
      StepLogMatches(db, t, dk);
      assert k == OrderKey(dk.w, dk.d, k.o);
      assert Low(db, dk) <= Low(db', dk) <= k.o < db.district[dk].nextOid;
    }
  }

  lemma StepDistricts(db: Db, t: Txn)
    requires Consistent(db)
    ensures Step(db, t).district.Keys == db.district.Keys
  {
    if t.DoDelivery? { DeliverFromOnlyDelivers(db, t.w, 1, t.carrier); }
  }

  lemma {:induction false} RunOnlyOneMislabelled(db: Db, txns: seq<Txn>)
    requires Consistent(db) && SupplyCounted(db, ORDERS) && OnlyOneMislabelled(db)
    ensures OnlyOneMislabelled(Run(db, txns)) && Run(db, txns).district.Keys == db.district.Keys
    ensures SupplyCounted(Run(db, txns), ORDERS)
    decreases |txns|
  {
    if txns != [] {
      StepKeepsConsistent(db, txns[0]);
      StepDistricts(db, txns[0]);
      StepSupply(db, txns[0], ORDERS);
      StepOnlyOneMislabelled(db, txns[0]);
      RunOnlyOneMislabelled(Step(db, txns[0]), txns[1..]);
    }
  }

  /** Clause 3.3.2.5 is false on the load itself: order 2101 of every district is pending and has a carrier. */
  lemma LoadBreaksClauseFive(w: nat, g: Draws, dk: DistrictKey)
    requires dk in DistrictKeys(w)
    ensures OrderKey(dk.w, dk.d, CARRIED) in Load(w, g).newOrder && OrderKey(dk.w, dk.d, CARRIED) in Load(w, g).orders
    ensures Load(w, g).orders[OrderKey(dk.w, dk.d, CARRIED)].carrier.Some?
    ensures !CarrierIffDelivered(Load(w, g), dk)
  {
    var k := OrderKey(dk.w, dk.d, CARRIED);
    assert k in OrdersOf(Load(w, g), dk) && k in Load(w, g).newOrder;
  }

  lemma ClauseFiveInState(db: Db, dk: DistrictKey)
    requires Structure(db) && OnlyOneMislabelled(db) && dk in db.district && CARRIED < db.district[dk].nextOid
    ensures CarrierIffDelivered(db, dk) <==> CARRIED < Low(db, dk)
  {
    var k := OrderKey(dk.w, dk.d, CARRIED);
    assert k in db.newOrder <==> Low(db, dk) <= CARRIED < db.district[dk].nextOid;
    if CarrierIffDelivered(db, dk) {
      assert k in db.newOrder ==> k in OrdersOf(db, dk) && k in Mislabelled(db);
    } else {
      var bad :| bad in OrdersOf(db, dk) && !(db.orders[bad].carrier.None? <==> bad in db.newOrder);
      assert bad in Mislabelled(db);
      assert bad == k;
    }
  }

  /** On a run from the load it holds for a district exactly once order 2101 is below the low end. */
  lemma ClauseFiveByLow(w: nat, g: Draws, txns: seq<Txn>, dk: DistrictKey)
    requires Possible(g) && dk in DistrictKeys(w)
    ensures dk in Run(Load(w, g), txns).district
    ensures CarrierIffDelivered(Run(Load(w, g), txns), dk) <==> CARRIED < Low(Run(Load(w, g), txns), dk)
  {
    hide Consistent, Run, Structure, CarrierIffDelivered, Low;
    var db, db' := Load(w, g), Run(Load(w, g), txns);
    LoadConsistent(w, g);
    LoadOnlyOneMislabelled(w, g);
    RunKeepsConsistent(db, txns);
    RunOnlyOneMislabelled(db, txns);
    ConsistentMeans(db');
    ClauseFiveInState(db', dk);
  }

  lemma LoadOnlyOneMislabelled(w: nat, g: Draws)
    ensures OnlyOneMislabelled(Load(w, g))
  {
  }

  /** Whether a transaction is a Delivery for the warehouse of the district. */
  predicate Delivers(t: Txn, dk: DistrictKey) { t.DoDelivery? && t.w == dk.w }

  /** From a consistent state a Delivery moves the low end of each of the ten districts on, if anything is pending. */
  lemma {:induction false} DeliverFromLow(db: Db, w: int, d: int, carrier: int, dk: DistrictKey)
    requires Consistent(db) && 1 <= d <= 11 && dk in db.district && 1 <= dk.d <= 10
    ensures DeliverFrom(db, w, d, carrier).Committed? && dk in DeliverFrom(db, w, d, carrier).db.district
    ensures Low(DeliverFrom(db, w, d, carrier).db, dk)
         == Low(db, dk) + if dk.w == w && d <= dk.d && PendingOf(db, dk) != {} then 1 else 0
    decreases 11 - d
  {
    if d < 11 {
      hide Consistent, DeliverDistrict, DeliverFrom, MislabelledShrinks;
      var here, rest := DeliverFromSplit(db, w, d, carrier);
      DistrictLow(db, DistrictKey(w, d), carrier, dk);
      DeliverFromLow(here.db, w, d + 1, carrier, dk);
    }
  }

  lemma DistrictLow(db: Db, here: DistrictKey, carrier: int, dk: DistrictKey)
    requires Consistent(db) && dk in db.district
    ensures var r := DeliverDistrict(db, here, carrier);
            && r.Committed? && dk in r.db.district
            && Low(r.db, dk) == Low(db, dk) + (if here == dk && PendingOf(db, dk) != {} then 1 else 0)
            && (here != dk ==> PendingOf(r.db, dk) == PendingOf(db, dk))
  {
    hide Consistent;
    DistrictKeepsConsistent(db, here, carrier);
    ConsistentMeans(db);
    if PendingOf(db, here) != {} {
      OldestIsLow(db, here);
      DeliveredLow(db, here, carrier, DeliverDistrict(db, here, carrier).db);
      if here != dk { assert PendingOf(DeliverDistrict(db, here, carrier).db, dk) == PendingOf(db, dk); }
    }
  }

  /** Nothing but a Delivery for its warehouse moves the low end of a district, and only while orders are pending. */
  lemma StepLow(db: Db, t: Txn, dk: DistrictKey)
    requires Consistent(db) && dk in db.district && 1 <= dk.d <= 10
    ensures dk in Step(db, t).district
    ensures Low(Step(db, t), dk) == Low(db, dk) + if Delivers(t, dk) && PendingOf(db, dk) != {} then 1 else 0
  {
    hide Consistent, DeliverFrom;
    ConsistentMeans(db);
    match t
    case DoNewOrder(inp) =>
      if NewOrder(db, inp).Committed? { PlacedLow(db, inp, Step(db, t)); }
    case DoPayment(inp) =>
      if Payment(db, inp).Committed? { PaidStructure(db, inp, Step(db, t)); }
    case DoDelivery(w, carrier) => DeliverFromLow(db, w, 1, carrier, dk);
  }

  ghost predicate SomeDelivers(txns: seq<Txn>, dk: DistrictKey) {
    exists i :: 0 <= i < |txns| && Delivers(txns[i], dk)
  }

  /** Over a run the low end passes the number it starts from exactly if one of the transactions is such a
      Delivery. */
  lemma {:induction false} RunLow(db: Db, txns: seq<Txn>, dk: DistrictKey)
    requires Consistent(db) && dk in db.district && 1 <= dk.d <= 10 && PendingOf(db, dk) != {}
    ensures dk in Run(db, txns).district
    ensures Low(db, dk) <= Low(Run(db, txns), dk)
    ensures Low(db, dk) < Low(Run(db, txns), dk) <==> SomeDelivers(txns, dk)
    decreases |txns|
  {
    if txns != [] {
      hide Consistent, Step, Low, PendingOf;
      StepKeepsConsistent(db, txns[0]);
      StepLow(db, txns[0], dk);
      var mid := Step(db, txns[0]);
      if Delivers(txns[0], dk) {
        RunNeverBack(mid, txns[1..], dk);
        assert SomeDelivers(txns, dk);
      } else {
        StillPending(db, txns[0], dk);
        RunLow(mid, txns[1..], dk);
        SomeDeliversLater(txns, dk);
      }
    }
  }

  lemma SomeDeliversLater(txns: seq<Txn>, dk: DistrictKey)
    requires txns != [] && !Delivers(txns[0], dk)
    ensures SomeDelivers(txns, dk) <==> SomeDelivers(txns[1..], dk)
  {
    if SomeDelivers(txns, dk) {
      var i :| 0 <= i < |txns| && Delivers(txns[i], dk);
      assert Delivers(txns[1..][i - 1], dk);
    }
    if SomeDelivers(txns[1..], dk) {
      var i :| 0 <= i < |txns[1..]| && Delivers(txns[1..][i], dk);
      assert Delivers(txns[i + 1], dk);
    }
  }

  lemma {:induction false} RunNeverBack(db: Db, txns: seq<Txn>, dk: DistrictKey)
    requires Consistent(db) && dk in db.district && 1 <= dk.d <= 10
    ensures dk in Run(db, txns).district && Low(db, dk) <= Low(Run(db, txns), dk)
    decreases |txns|
  {
    if txns != [] {
      hide Consistent, Step, Low;
      StepKeepsConsistent(db, txns[0]);
      StepLow(db, txns[0], dk);
      RunNeverBack(Step(db, txns[0]), txns[1..], dk);
    }
  }

  /** A transaction that is no Delivery for the warehouse leaves the pending orders of the district pending. */
  lemma StillPending(db: Db, t: Txn, dk: DistrictKey)
    requires Consistent(db) && dk in db.district && PendingOf(db, dk) != {} && !Delivers(t, dk)
    ensures PendingOf(Step(db, t), dk) != {}
  {
    hide Consistent, DeliverFrom;
    var some := Member(PendingOf(db, dk));
    match t
    case DoNewOrder(inp) => assert some in PendingOf(Step(db, t), dk);
    case DoPayment(inp) => assert some in PendingOf(Step(db, t), dk);
    case DoDelivery(w, carrier) => DeliverFromElsewhere(db, w, 1, carrier, dk);
  }

  lemma {:induction false} DeliverFromElsewhere(db: Db, w: int, d: int, carrier: int, dk: DistrictKey)
    requires Consistent(db) && 1 <= d <= 11 && dk in db.district && dk.w != w
    ensures DeliverFrom(db, w, d, carrier).Committed?
    ensures PendingOf(DeliverFrom(db, w, d, carrier).db, dk) == PendingOf(db, dk)
    decreases 11 - d
  {
    if d < 11 {
      hide Consistent, DeliverDistrict, DeliverFrom, MislabelledShrinks, PendingOf;
      var here, rest := DeliverFromSplit(db, w, d, carrier);
      DistrictLow(db, DistrictKey(w, d), carrier, dk);
      DeliverFromElsewhere(here.db, w, d + 1, carrier, dk);
    }
  }

  /** On a run from the load Clause 3.3.2.5 holds for a district exactly if one of the transactions is a Delivery
      for its warehouse: the first one delivers order 2101. */
  lemma ClauseFiveExactly(w: nat, g: Draws, txns: seq<Txn>, dk: DistrictKey)
    requires Possible(g) && dk in DistrictKeys(w)
    ensures CarrierIffDelivered(Run(Load(w, g), txns), dk)
       <==> exists i :: 0 <= i < |txns| && txns[i].DoDelivery? && txns[i].w == dk.w
  {
    hide Consistent, Run, Low, CarrierIffDelivered;
    var db := Load(w, g);
    LoadConsistent(w, g);
    ClauseFiveByLow(w, g, txns, dk);
    LoadLow(w, g, dk);
    assert OrderKey(dk.w, dk.d, CARRIED) in PendingOf(db, dk);
    RunLow(db, txns, dk);
    if SomeDelivers(txns, dk) {
      var i :| 0 <= i < |txns| && Delivers(txns[i], dk);
      assert txns[i].DoDelivery? && txns[i].w == dk.w;
    } else {
      forall i | 0 <= i < |txns|
        ensures !(txns[i].DoDelivery? && txns[i].w == dk.w)
      {
        assert !Delivers(txns[i], dk);
      }
    }
  }
}
