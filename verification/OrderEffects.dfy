/** What a New-Order does to each row, in terms of the request and of the rows before it, and what that means
    for the lines and the order ids of a whole run. */
module OrderEffects {
  import opened Common
  import opened FiniteSums
  import opened Tables
  import opened Transactions
  import opened Consistency
  import opened DeliveryEffects

  // ------------------------------------------------------------- when it commits

  /** All rows the order refers to exist. */
  ghost predicate Placeable(db: Db, inp: NewOrderInput) {
    && 1 <= inp.olCnt <= 15
    && inp.w in db.warehouse
    && DistrictKey(inp.w, inp.d) in db.district
    && CustomerKey(inp.w, inp.d, inp.c) in db.customer
    && (forall i :: 0 <= i < inp.olCnt ==>
          inp.ol[i].item != 0 && inp.ol[i].item in db.item && StockKey(inp.ol[i].supply, inp.ol[i].item) in db.stock)
  }

  /** The order id and the line numbers are not yet taken. */
  ghost predicate Unused(db: Db, inp: NewOrderInput, o: int) {
    && OrderKey(inp.w, inp.d, o) !in db.newOrder
    && OrderKey(inp.w, inp.d, o) !in db.orders
    && (forall n :: 1 <= n <= inp.olCnt ==> LineKey(inp.w, inp.d, o, n) !in db.orderLine)
  }

  lemma OrderCommitsIff(db: Db, inp: NewOrderInput)
    ensures NewOrder(db, inp).Committed? <==>
            Placeable(db, inp) && Unused(db, inp, db.district[DistrictKey(inp.w, inp.d)].nextOid)
  {
    if 1 <= inp.olCnt <= 15 && inp.District() in db.district {
      var o := db.district[inp.District()].nextOid;
      if NewOrder(db, inp).Committed? {
        forall i | 0 <= i < inp.olCnt
          ensures inp.ol[i].item != 0 && inp.ol[i].item in db.item
                  && StockKey(inp.ol[i].supply, inp.ol[i].item) in db.stock
        {
          assert LineFailure(db, inp, o, i).None?;
        }
        NoFailure(db, inp, o);
      }
    }
  }

  /** Where the numbering has no gaps the ids are never taken. */
  lemma OrderCommitsIffPlaceable(db: Db, inp: NewOrderInput)
    requires Consistent(db)
    ensures NewOrder(db, inp).Committed? <==> Placeable(db, inp)
  {
    OrderCommitsIff(db, inp);
    ConsistentMeans(db);
    if Placeable(db, inp) {
      var dk := DistrictKey(inp.w, inp.d);
      var ok := OrderKey(inp.w, inp.d, db.district[dk].nextOid);
      assert DistrictOf(ok) == dk;
      forall n | 1 <= n <= inp.olCnt ensures LineKey(inp.w, inp.d, ok.o, n) !in db.orderLine {
        assert OrderOf(LineKey(inp.w, inp.d, ok.o, n)) == ok;
      }
    }
  }

  /** What is looked up before the lines, in this order. */
  lemma MissingRow(db: Db, inp: NewOrderInput)
    requires !(1 <= inp.olCnt <= 15) || inp.w !in db.warehouse || DistrictKey(inp.w, inp.d) !in db.district
             || CustomerKey(inp.w, inp.d, inp.c) !in db.customer
    ensures NewOrder(db, inp) == Aborted(
                                   if !(1 <= inp.olCnt <= 15) then BadLineCount
                                   else if inp.w !in db.warehouse then StatementFailed("NEW_ORDER_1")
                                   else if DistrictKey(inp.w, inp.d) !in db.district then StatementFailed("NEW_ORDER_2")
                                   else StatementFailed("NEW_ORDER_4"))
  {
  }

  /** The first line that cannot be placed decides the error: an unknown item is not a failed statement. */
  lemma FirstBadLine(db: Db, inp: NewOrderInput, i: nat)
    requires 1 <= inp.olCnt <= 15 && i < inp.olCnt && inp.w in db.warehouse
    requires DistrictKey(inp.w, inp.d) in db.district && CustomerKey(inp.w, inp.d, inp.c) in db.customer
    requires Unused(db, inp, db.district[DistrictKey(inp.w, inp.d)].nextOid)
    requires forall j :: 0 <= j < i ==> inp.ol[j].item != 0 && inp.ol[j].item in db.item
                                        && StockKey(inp.ol[j].supply, inp.ol[j].item) in db.stock
    ensures inp.ol[i].item == 0 || inp.ol[i].item !in db.item ==> NewOrder(db, inp) == Aborted(ItemNotFound)
    ensures inp.ol[i].item != 0 && inp.ol[i].item in db.item
            && StockKey(inp.ol[i].supply, inp.ol[i].item) !in db.stock ==>
              NewOrder(db, inp) == Aborted(StatementFailed("NEW_ORDER_8"))
  {
    var o := db.district[DistrictKey(inp.w, inp.d)].nextOid;
    forall j | 0 <= j < i ensures LineFailure(db, inp, o, j).None? {
      assert LineKey(inp.w, inp.d, o, j + 1) !in db.orderLine;
    }
    SkipGoodLines(db, inp, o, 0, i);
    assert LineFailure(db, inp, o, i).Some? ==> FirstFailure(db, inp, o, i) == LineFailure(db, inp, o, i);
  }

  lemma {:induction false} SkipGoodLines(db: Db, inp: NewOrderInput, o: int, from: nat, i: nat)
    requires from <= i < inp.olCnt <= 15
    requires forall j :: from <= j < i ==> LineFailure(db, inp, o, j).None?
    ensures FirstFailure(db, inp, o, from) == FirstFailure(db, inp, o, i)
    decreases i - from
  {
    if from < i { SkipGoodLines(db, inp, o, from + 1, i); }
  }

  // ------------------------------------------------------------- the rows

  /** The order and what it leaves alone. */
  lemma OrderPlaced(db: Db, inp: NewOrderInput, db': Db, o: int)
    requires NewOrder(db, inp) == Committed(db', o)
    ensures
      var dk := DistrictKey(inp.w, inp.d);
      var ok := OrderKey(inp.w, inp.d, o);
      && dk in db.district && o == db.district[dk].nextOid
      && db'.district == db.district[dk := District(db.district[dk].ytd, o + 1)]
      && ok !in db.orders && db'.orders == db.orders[ok := Order(inp.c, None, inp.olCnt, inp.allLocal)]
      && ok !in db.newOrder && db'.newOrder == db.newOrder + {ok}
    ensures db'.warehouse == db.warehouse && db'.customer == db.customer
    ensures db'.item == db.item && db'.history == db.history
  {
    NoFailure(db, inp, o);
  }

  /** Lines 1 to olCnt of the order hold what was requested, at the item's price times the quantity;
      no other line changes. */
  lemma LinesPlaced(db: Db, inp: NewOrderInput, db': Db, o: int)
    requires NewOrder(db, inp) == Committed(db', o)
    ensures forall k :: k in db'.orderLine <==>
              k in db.orderLine || (k.w == inp.w && k.d == inp.d && k.o == o && 1 <= k.n <= inp.olCnt)
    ensures forall k :: k in db.orderLine ==> k in db'.orderLine && db'.orderLine[k] == db.orderLine[k]
    ensures forall n :: 1 <= n <= inp.olCnt <= 15 ==>
              var k, l := LineKey(inp.w, inp.d, o, n), inp.ol[n - 1];
              && k !in db.orderLine && k in db'.orderLine && l.item in db.item
              && db'.orderLine[k] == Line(l.item, l.supply, false, l.quantity, db.item[l.item].price * l.quantity)
  {
    NoFailure(db, inp, o);
    LinesAfterRows(db, inp, o, inp.olCnt);
    forall n | 1 <= n <= inp.olCnt
      ensures OrderOf(LineKey(inp.w, inp.d, o, n)) == inp.Order(o)
    {
    }
  }

  /** The first i lines that are supplied from a stock row, counted from 0. */
  ghost function Requests(inp: NewOrderInput, sk: StockKey, i: nat): set<int>
    requires i <= 15
  {
    set j | 0 <= j < i && inp.ol[j].supply == sk.w && inp.ol[j].item == sk.i
  }

  /** Those for which a stock row with `quantity` pieces has less than the request and ten. */
  ghost function Restocking(inp: NewOrderInput, sk: StockKey, quantity: int, i: nat): set<int>
    requires i <= 15
  {
    set j | j in Requests(inp, sk, i) && quantity < inp.ol[j].quantity + 10
  }

  ghost function QuantityAt(inp: NewOrderInput): int -> int {
    i => if 0 <= i < 15 then inp.ol[i].quantity else 0
  }

  ghost predicate Supplied(inp: NewOrderInput, sk: StockKey, i: nat, before: Stock, after: Stock)
    requires i <= 15
  {
    var pieces := Sum(Requests(inp, sk, i), QuantityAt(inp));
    && after.ytd == before.ytd + pieces
    && after.orderCnt == before.orderCnt + |Requests(inp, sk, i)|
    && after.remoteCnt == before.remoteCnt + (if sk.w == inp.w then 0 else |Requests(inp, sk, i)|)
    && after.quantity == before.quantity - pieces + 91 * |Restocking(inp, sk, before.quantity, i)|
  }

  lemma RequestsGrow(inp: NewOrderInput, sk: StockKey, quantity: int, i: nat)
    requires i < 15
    ensures Requests(inp, sk, i + 1) ==
            Requests(inp, sk, i) + if inp.ol[i].supply == sk.w && inp.ol[i].item == sk.i then {i} else {}
    ensures Restocking(inp, sk, quantity, i + 1) ==
            Restocking(inp, sk, quantity, i) +
            if inp.ol[i].supply == sk.w && inp.ol[i].item == sk.i && quantity < inp.ol[i].quantity + 10
            then {i} else {}
  {
  }

  lemma {:induction false} StockAfterIs(db: Db, inp: NewOrderInput, i: nat, sk: StockKey)
    requires LinesKnown(db, inp, i) && sk in db.stock
    ensures Supplied(inp, sk, i, db.stock[sk], StockAfter(db, inp, i)[sk])
  {
    if i == 0 {
      assert Requests(inp, sk, 0) == {} && Restocking(inp, sk, db.stock[sk].quantity, 0) == {};
    } else {
      StockAfterIs(db, inp, i - 1, sk);
      OneMoreRequest(inp, sk, i - 1, db.stock[sk], StockAfter(db, inp, i - 1)[sk], StockAfter(db, inp, i)[sk]);
    }
  }

  lemma OneMoreRequest(inp: NewOrderInput, sk: StockKey, i: nat, before: Stock, mid: Stock, after: Stock)
    requires i < 15 && Supplied(inp, sk, i, before, mid)
    requires
      var l := inp.ol[i];
      after == if l.supply == sk.w && l.item == sk.i
               then Stock(mid.quantity - Decrement(before.quantity, l.quantity), mid.ytd + l.quantity,
                          mid.orderCnt + 1, mid.remoteCnt + if l.supply == inp.w then 0 else 1)
               else mid
    ensures Supplied(inp, sk, i + 1, before, after)
  {
    hide Sum;
    RequestsGrow(inp, sk, before.quantity, i);
    if inp.ol[i].supply == sk.w && inp.ol[i].item == sk.i {
      SumInsert(Requests(inp, sk, i), QuantityAt(inp), i);
      assert i !in Requests(inp, sk, i) && i !in Restocking(inp, sk, before.quantity, i);
    }
  }

  /** Every stock row gives what the lines ask of it, and takes in 91 pieces for every line that would leave it
      with less than ten of what it held before the order. */
  lemma StockSupplied(db: Db, inp: NewOrderInput, db': Db, o: int)
    requires NewOrder(db, inp) == Committed(db', o)
    ensures 1 <= inp.olCnt <= 15 && db'.stock.Keys == db.stock.Keys
    ensures forall sk :: sk in db.stock ==> Supplied(inp, sk, inp.olCnt, db.stock[sk], db'.stock[sk])
  {
    NoFailure(db, inp, o);
    forall sk | sk in db.stock ensures Supplied(inp, sk, inp.olCnt, db.stock[sk], db'.stock[sk]) {
      StockAfterIs(db, inp, inp.olCnt, sk);
    }
  }

  // ------------------------------------------------------------- runs

  /** What a Delivery leaves alone, whether it commits or not. */
  lemma DeliveryKeeps(db: Db, w: int, carrier: int)
    ensures
      var db' := After(db, Delivery(db, w, carrier));
      && OthersKept(db, db') && db'.customer.Keys == db.customer.Keys && db'.orderLine.Keys == db.orderLine.Keys
      && (forall k :: k in db.orderLine ==>
            db'.orderLine[k] == db.orderLine[k].(delivered := db'.orderLine[k].delivered))
  {
    hide Delivery;
    DeliveryDelivers(db, w, carrier);
  }

  /** No transaction writes the item table, and none adds or removes a warehouse, district, customer or
      stock row. */
  lemma StepKeepsCatalogue(db: Db, t: Txn)
    ensures SameCatalogue(db, Step(db, t))
  {
    match t
    case DoNewOrder(inp) =>
      if NewOrder(db, inp).Committed? {
        OrderPlaced(db, inp, NewOrder(db, inp).db, NewOrder(db, inp).result);
        StockSupplied(db, inp, NewOrder(db, inp).db, NewOrder(db, inp).result);
      }
    case DoPayment(_) =>
    case DoDelivery(w, carrier) => DeliveryKeeps(db, w, carrier);
  }

  ghost predicate SameCatalogue(db: Db, db': Db) {
    && db'.item == db.item
    && db'.warehouse.Keys == db.warehouse.Keys
    && db'.district.Keys == db.district.Keys
    && db'.customer.Keys == db.customer.Keys
    && db'.stock.Keys == db.stock.Keys
  }

  lemma {:induction false} RunKeepsCatalogue(db: Db, txns: seq<Txn>)
    ensures SameCatalogue(db, Run(db, txns))
    decreases |txns|
  {
    if txns != [] {
      hide Step;
      StepKeepsCatalogue(db, txns[0]);
      RunKeepsCatalogue(Step(db, txns[0]), txns[1..]);
    }
  }

  /** Every line of an order placed after the load costs the price of its item times the quantity. */
  ghost predicate LinesPriced(db: Db, loaded: int) {
    forall k :: k in db.orderLine && k.o > loaded ==>
      var l := db.orderLine[k];
      l.item in db.item && l.amount == db.item[l.item].price * l.quantity
  }

  lemma StepKeepsPrices(db: Db, t: Txn, loaded: int)
    requires LinesPriced(db, loaded)
    ensures LinesPriced(Step(db, t), loaded)
  {
    StepKeepsCatalogue(db, t);
    match t
    case DoNewOrder(inp) =>
      if NewOrder(db, inp).Committed? {
        var db', o := NewOrder(db, inp).db, NewOrder(db, inp).result;
        LinesPlaced(db, inp, db', o);
        forall k | k in db'.orderLine && k.o > loaded && k !in db.orderLine
          ensures
            var l := db'.orderLine[k];
            l.item in db.item && l.amount == db.item[l.item].price * l.quantity
        {
          assert k == LineKey(inp.w, inp.d, o, k.n);
        }
      }
    case DoPayment(_) =>
    case DoDelivery(w, carrier) => DeliveryKeeps(db, w, carrier);
  }

  lemma {:induction false} RunKeepsPrices(db: Db, txns: seq<Txn>, loaded: int)
    requires LinesPriced(db, loaded)
    ensures LinesPriced(Run(db, txns), loaded)
    decreases |txns|
  {
    if txns != [] {
      hide Step;
      StepKeepsPrices(db, txns[0], loaded);
      RunKeepsPrices(Step(db, txns[0]), txns[1..], loaded);
    }
  }

  /** How many requests among `txns` are New-Orders of the district whose rows all exist. */
  ghost function OrdersPlaceable(db: Db, txns: seq<Txn>, dk: DistrictKey): nat
    decreases |txns|
  {
    if txns == [] then 0
    else OrdersPlaceable(db, txns[1..], dk) + (if PlacesIn(db, txns[0], dk) then 1 else 0)
  }

  ghost predicate PlacesIn(db: Db, t: Txn, dk: DistrictKey) {
    t.DoNewOrder? && Placeable(db, t.no) && DistrictKey(t.no.w, t.no.d) == dk
  }

  lemma {:induction false} SameOrdersPlaceable(db: Db, db': Db, txns: seq<Txn>, dk: DistrictKey)
    requires SameCatalogue(db, db')
    ensures OrdersPlaceable(db', txns, dk) == OrdersPlaceable(db, txns, dk)
    decreases |txns|
  {
    if txns != [] { SameOrdersPlaceable(db, db', txns[1..], dk); }
  }

  lemma StepOrderId(db: Db, t: Txn, dk: DistrictKey)
    requires Consistent(db) && dk in db.district
    ensures dk in Step(db, t).district
    ensures Step(db, t).district[dk].nextOid == db.district[dk].nextOid + if PlacesIn(db, t, dk) then 1 else 0
  {
    hide Consistent, Placeable;
    match t
    case DoNewOrder(inp) =>
      OrderCommitsIffPlaceable(db, inp);
      if NewOrder(db, inp).Committed? {
        OrderPlaced(db, inp, NewOrder(db, inp).db, NewOrder(db, inp).result);
      }
    case DoPayment(_) =>
    case DoDelivery(w, carrier) => DeliveryKeeps(db, w, carrier);
  }

  /** The ids a run hands out in a district are as many as the New-Orders for it that name existing rows. */
  lemma {:induction false} RunOrderIds(db: Db, txns: seq<Txn>, dk: DistrictKey)
    requires Consistent(db) && dk in db.district
    ensures dk in Run(db, txns).district
    ensures Run(db, txns).district[dk].nextOid == db.district[dk].nextOid + OrdersPlaceable(db, txns, dk)
    decreases |txns|
  {
    hide Consistent, Step, SameCatalogue;
    if txns != [] {
      StepKeepsConsistent(db, txns[0]);
      StepOrderId(db, txns[0], dk);
      StepKeepsCatalogue(db, txns[0]);
      RunOrderIds(Step(db, txns[0]), txns[1..], dk);
      SameOrdersPlaceable(db, Step(db, txns[0]), txns[1..], dk);
    }
  }
}
