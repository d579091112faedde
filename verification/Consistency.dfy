/** The TPC-C consistency conditions (Clause 3.3.2) and the referential facts they rest on,
    kept by every transaction and hence by every run. */
module Consistency {
  import opened Common
  import opened FiniteSums
  import opened Tables
  import opened Transactions

  /** The id of the oldest order a district has not delivered (its next id when nothing is pending). */
  ghost function Low(db: Db, dk: DistrictKey): int
    requires dk in db.district
  {
    db.district[dk].nextOid - |PendingOf(db, dk)|
  }

  /** Orders of a district are numbered 1 .. nextOid - 1 without gaps. */
  ghost predicate OrderIds(db: Db) {
    && (forall k :: k in db.orders ==> DistrictOf(k) in db.district && 1 <= k.o < db.district[DistrictOf(k)].nextOid)
    && (forall dk :: dk in db.district ==> 1 <= db.district[dk].nextOid)
    && (forall dk, o :: dk in db.district && 1 <= o < db.district[dk].nextOid ==> OrderKey(dk.w, dk.d, o) in db.orders)
  }

  /** Pending orders exist, and in each district they are the newest ones, without gaps. */
  ghost predicate PendingIds(db: Db) {
    && (forall k :: k in db.newOrder ==> k in db.orders)
    && (forall dk, o :: dk in db.district ==>
          (OrderKey(dk.w, dk.d, o) in db.newOrder <==> Low(db, dk) <= o < db.district[dk].nextOid))
  }

  /** The lines of an order are numbered 1 .. o_ol_cnt, there is at least one, and every line has its order. */
  ghost predicate LineNumbers(db: Db) {
    && (forall ok :: ok in db.orders ==> 1 <= db.orders[ok].olCnt)
    && (forall k :: k in db.orderLine <==> OrderOf(k) in db.orders && 1 <= k.n <= db.orders[OrderOf(k)].olCnt)
  }

  ghost predicate CustomersExist(db: Db) {
    forall ok :: ok in db.orders ==> CustomerOf(ok, db.orders[ok]) in db.customer
  }

  /** A line is delivered iff its order has a carrier; an order without carrier is pending; a pending
      order has no delivered line worth anything. */
  ghost predicate Carriers(db: Db) {
    && (forall ok :: ok in db.orders && db.orders[ok].carrier.None? ==> ok in db.newOrder)
    && (forall k :: k in db.orderLine && OrderOf(k) in db.orders ==>
          (db.orderLine[k].delivered <==> db.orders[OrderOf(k)].carrier.Some?))
    && (forall k :: k in db.orderLine && OrderOf(k) in db.newOrder && db.orderLine[k].delivered ==>
          db.orderLine[k].amount == 0)
  }

  // ------------------------------------------------------------ money totals

  ghost function WarehouseTakings(h: seq<History>, w: int): int {
    if h == [] then 0
    else WarehouseTakings(h[..|h| - 1], w) + if h[|h| - 1].w == w then h[|h| - 1].amount else 0
  }

  ghost function DistrictTakings(h: seq<History>, dk: DistrictKey): int {
    if h == [] then 0
    else
      var x := h[|h| - 1];
      DistrictTakings(h[..|h| - 1], dk) + if DistrictKey(x.w, x.d) == dk then x.amount else 0
  }

  ghost function CustomerPayments(h: seq<History>, ck: CustomerKey): int {
    if h == [] then 0
    else CustomerPayments(h[..|h| - 1], ck) + if Payer(h[|h| - 1]) == ck then h[|h| - 1].amount else 0
  }

  function Payer(h: History): CustomerKey { CustomerKey(h.cw, h.cd, h.c) }

  lemma HistoryAppend(h: seq<History>, x: History, w: int, dk: DistrictKey, ck: CustomerKey)
    ensures WarehouseTakings(h + [x], w) == WarehouseTakings(h, w) + if x.w == w then x.amount else 0
    ensures DistrictTakings(h + [x], dk) == DistrictTakings(h, dk) + if DistrictKey(x.w, x.d) == dk then x.amount else 0
    ensures CustomerPayments(h + [x], ck) == CustomerPayments(h, ck) + if Payer(x) == ck then x.amount else 0
  {
    assert (h + [x])[..|h + [x]| - 1] == h;
  }

  /** Clauses 3.3.2.1, 3.3.2.8 and 3.3.2.9. */
  ghost predicate Ledger(db: Db) {
    && (forall w :: w in db.warehouse ==>
          db.warehouse[w].ytd == Sum(DistrictsOf(db, w), YtdOf(db.district)) == WarehouseTakings(db.history, w))
    && (forall dk :: dk in db.district ==> db.district[dk].ytd == DistrictTakings(db.history, dk))
  }

  ghost function DeliveredLines(db: Db, ck: CustomerKey): set<LineKey> {
    set k | k in db.orderLine && db.orderLine[k].delivered
            && OrderOf(k) in db.orders && CustomerOf(OrderOf(k), db.orders[OrderOf(k)]) == ck
  }

  ghost function DeliveredAmount(db: Db, ck: CustomerKey): int {
    Sum(DeliveredLines(db, ck), AmountOf(db.orderLine))
  }

  /** Clauses 3.3.2.10 and 3.3.2.12. */
  ghost predicate Balances(db: Db) {
    forall ck :: ck in db.customer ==>
      && db.customer[ck].balance == DeliveredAmount(db, ck) - CustomerPayments(db.history, ck)
      && db.customer[ck].balance + db.customer[ck].ytdPayment == DeliveredAmount(db, ck)
  }

  ghost predicate Structure(db: Db) {
    OrderIds(db) && PendingIds(db) && LineNumbers(db) && CustomersExist(db) && Carriers(db)
  }

  datatype Condition = StructureCondition | LedgerCondition | BalancesCondition

  ghost predicate Holds(db: Db, c: Condition) {
    match c
    case StructureCondition => Structure(db)
    case LedgerCondition => Ledger(db)
    case BalancesCondition => Balances(db)
  }

  ghost predicate Consistent(db: Db) {
    forall c: Condition :: Holds(db, c)
  }

  /** The conditions one by one; elsewhere `Consistent` is used as a whole. */
  lemma ConsistentMeans(db: Db)
    ensures Consistent(db) <==> Structure(db) && Ledger(db) && Balances(db)
  {
    if Consistent(db) {
      assert Holds(db, StructureCondition) && Holds(db, LedgerCondition) && Holds(db, BalancesCondition);
    }
  }

  // --------------------------------------------------------------- New-Order

  lemma {:induction false} LinesAfterRows(db: Db, inp: NewOrderInput, o: int, i: nat)
    requires LinesKnown(db, inp, i)
    ensures forall k :: k in LinesAfter(db, inp, o, i) <==>
              k in db.orderLine || (OrderOf(k) == inp.Order(o) && 1 <= k.n <= i)
    ensures forall k :: k in LinesAfter(db, inp, o, i) ==>
              LinesAfter(db, inp, o, i)[k] ==
                if OrderOf(k) == inp.Order(o) && 1 <= k.n <= i then NewLine(db, inp.ol[k.n - 1]) else db.orderLine[k]
  {
    if i > 0 {
      LinesAfterRows(db, inp, o, i - 1);
      assert forall k :: OrderOf(k) == inp.Order(o) && k.n == i <==> k == LineKey(inp.w, inp.d, o, i);
    }
  }

  /** New-Order changes one district row and adds one order, pending under the district's next id. */
  lemma PlacedLow(db: Db, inp: NewOrderInput, db': Db)
    requires NewOrder(db, inp).Committed? && db' == NewOrder(db, inp).db
    ensures forall dk :: dk in db.district ==> Low(db', dk) == Low(db, dk)
  {
    var ok := inp.Order(db.district[inp.District()].nextOid);
    forall dk | dk in db.district
      ensures Low(db', dk) == Low(db, dk)
    {
      if dk == inp.District() {
        assert PendingOf(db', dk) == PendingOf(db, dk) + {ok};
      } else {
        assert PendingOf(db', dk) == PendingOf(db, dk);
      }
    }
  }

  lemma PlacedOrderIds(db: Db, inp: NewOrderInput, db': Db)
    requires NewOrder(db, inp).Committed? && db' == NewOrder(db, inp).db
    requires OrderIds(db)
    ensures OrderIds(db')
  {
    var ok := inp.Order(db.district[inp.District()].nextOid);
    assert db'.orders.Keys == db.orders.Keys + {ok};
    assert db'.district.Keys == db.district.Keys;
    assert forall dk :: dk in db.district ==>
      db'.district[dk].nextOid == db.district[dk].nextOid + if dk == inp.District() then 1 else 0;
    forall dk, o | dk in db'.district && 1 <= o < db'.district[dk].nextOid
      ensures OrderKey(dk.w, dk.d, o) in db'.orders
    {
      if OrderKey(dk.w, dk.d, o) != ok {
        assert 1 <= o < db.district[dk].nextOid;
      }
    }
  }

  lemma PlacedPendingIds(db: Db, inp: NewOrderInput, db': Db)
    requires NewOrder(db, inp).Committed? && db' == NewOrder(db, inp).db
    requires PendingIds(db)
    ensures PendingIds(db')
  {
    PlacedLow(db, inp, db');
    var ok := inp.Order(db.district[inp.District()].nextOid);
    assert db'.newOrder == db.newOrder + {ok};
    forall dk, o | dk in db'.district
      ensures OrderKey(dk.w, dk.d, o) in db'.newOrder <==> Low(db', dk) <= o < db'.district[dk].nextOid
    {
      assert OrderKey(dk.w, dk.d, o) in db.newOrder <==> Low(db, dk) <= o < db.district[dk].nextOid;
      if dk == inp.District() {
        assert |PendingOf(db, dk)| >= 0;
      } else {
        assert OrderKey(dk.w, dk.d, o) != ok;
      }
    }
  }

  /** The rows New-Order adds: one order without carrier, its lines undelivered. */
  lemma PlacedRows(db: Db, inp: NewOrderInput, db': Db) returns (ok: OrderKey)
    requires NewOrder(db, inp).Committed? && db' == NewOrder(db, inp).db
    ensures inp.District() in db.district && ok == inp.Order(db.district[inp.District()].nextOid)
    ensures ok !in db.orders && ok !in db.newOrder && db'.newOrder == db.newOrder + {ok}
    ensures db'.orders == db.orders[ok := Order(inp.c, None, inp.olCnt, inp.allLocal)] && 1 <= inp.olCnt
    ensures CustomerOf(ok, db'.orders[ok]) in db.customer && db'.customer == db.customer
    ensures forall k :: k in db'.orderLine <==> k in db.orderLine || (OrderOf(k) == ok && 1 <= k.n <= inp.olCnt)
    ensures forall k :: k in db'.orderLine && OrderOf(k) != ok ==> db'.orderLine[k] == db.orderLine[k]
    ensures forall k :: k in db'.orderLine && OrderOf(k) == ok && 1 <= k.n <= inp.olCnt ==> !db'.orderLine[k].delivered
  {
    ok := inp.Order(db.district[inp.District()].nextOid);
    NoFailure(db, inp, ok.o);
    LinesAfterRows(db, inp, ok.o, inp.olCnt);
  }

  lemma PlacedLineNumbers(db: Db, inp: NewOrderInput, db': Db)
    requires NewOrder(db, inp).Committed? && db' == NewOrder(db, inp).db
    requires LineNumbers(db)
    ensures LineNumbers(db')
  {
    var ok := PlacedRows(db, inp, db');
  }

  lemma PlacedCustomers(db: Db, inp: NewOrderInput, db': Db)
    requires NewOrder(db, inp).Committed? && db' == NewOrder(db, inp).db
    requires CustomersExist(db)
    ensures CustomersExist(db')
  {
    var ok := PlacedRows(db, inp, db');
  }

  lemma PlacedCarriers(db: Db, inp: NewOrderInput, db': Db)
    requires NewOrder(db, inp).Committed? && db' == NewOrder(db, inp).db
    requires LineNumbers(db) && Carriers(db)
    ensures Carriers(db')
  {
    var ok := PlacedRows(db, inp, db');
    assert forall k :: k in db.orderLine ==> OrderOf(k) != ok;
  }

  lemma PlacedLedger(db: Db, inp: NewOrderInput, db': Db)
    requires NewOrder(db, inp).Committed? && db' == NewOrder(db, inp).db
    requires Ledger(db)
    ensures Ledger(db')
  {
    forall w | w in db.warehouse
      ensures Sum(DistrictsOf(db', w), YtdOf(db'.district)) == Sum(DistrictsOf(db, w), YtdOf(db.district))
    {
      assert DistrictsOf(db', w) == DistrictsOf(db, w);
      SumCongruent(DistrictsOf(db, w), YtdOf(db.district), YtdOf(db'.district));
    }
  }

  lemma PlacedBalances(db: Db, inp: NewOrderInput, db': Db)
    requires NewOrder(db, inp).Committed? && db' == NewOrder(db, inp).db
    requires LineNumbers(db) && Balances(db)
    ensures Balances(db')
  {
    var ok := PlacedRows(db, inp, db');
    assert forall k :: k in db.orderLine ==> OrderOf(k) != ok;
    forall ck | ck in db.customer ensures DeliveredAmount(db', ck) == DeliveredAmount(db, ck) {
      assert DeliveredLines(db', ck) == DeliveredLines(db, ck);
      SumCongruent(DeliveredLines(db, ck), AmountOf(db.orderLine), AmountOf(db'.orderLine));
    }
  }

  lemma NewOrderKeepsConsistent(db: Db, inp: NewOrderInput)
    requires Consistent(db)
    ensures Consistent(After(db, NewOrder(db, inp)))
  {
    if NewOrder(db, inp).Committed? {
      var db' := NewOrder(db, inp).db;
      ConsistentMeans(db);
      ConsistentMeans(db');
      PlacedOrderIds(db, inp, db');
      PlacedPendingIds(db, inp, db');
      PlacedLineNumbers(db, inp, db');
      PlacedCustomers(db, inp, db');
      PlacedCarriers(db, inp, db');
      PlacedLedger(db, inp, db');
      PlacedBalances(db, inp, db');
    }
  }

  // ----------------------------------------------------------------- Payment

  lemma PaidStructure(db: Db, inp: PaymentInput, db': Db)
    requires Payment(db, inp).Committed? && db' == Payment(db, inp).db
    requires Structure(db)
    ensures Structure(db')
    ensures forall dk :: dk in db.district ==> Low(db', dk) == Low(db, dk)
  {
    assert forall dk :: dk in db.district ==> PendingOf(db', dk) == PendingOf(db, dk);
    assert forall dk :: dk in db.district ==> db'.district[dk].nextOid == db.district[dk].nextOid;
    assert db'.district.Keys == db.district.Keys;
    assert db'.customer.Keys == db.customer.Keys;
  }

  lemma PaidLedger(db: Db, inp: PaymentInput, db': Db)
    requires Payment(db, inp).Committed? && db' == Payment(db, inp).db
    requires Ledger(db)
    ensures Ledger(db')
  {
    var dk0 := DistrictKey(inp.w, inp.d);
    var x := db'.history[|db.history|];
    forall w | w in db'.warehouse
      ensures db'.warehouse[w].ytd == Sum(DistrictsOf(db', w), YtdOf(db'.district)) == WarehouseTakings(db'.history, w)
    {
      HistoryAppend(db.history, x, w, dk0, Payer(x));
      assert DistrictsOf(db', w) == DistrictsOf(db, w);
      if w == inp.w {
        SumChange(DistrictsOf(db, w), YtdOf(db.district), YtdOf(db'.district), dk0);
      } else {
        SumCongruent(DistrictsOf(db, w), YtdOf(db.district), YtdOf(db'.district));
      }
    }
    forall dk | dk in db'.district
      ensures db'.district[dk].ytd == DistrictTakings(db'.history, dk)
    {
      HistoryAppend(db.history, x, inp.w, dk, Payer(x));
    }
  }

  lemma PaidBalances(db: Db, inp: PaymentInput, db': Db)
    requires Payment(db, inp).Committed? && db' == Payment(db, inp).db
    requires Balances(db)
    ensures Balances(db')
  {
    var x := db'.history[|db.history|];
    forall ck | ck in db'.customer
      ensures db'.customer[ck].balance == DeliveredAmount(db', ck) - CustomerPayments(db'.history, ck)
      ensures db'.customer[ck].balance + db'.customer[ck].ytdPayment == DeliveredAmount(db', ck)
    {
      HistoryAppend(db.history, x, inp.w, DistrictKey(inp.w, inp.d), ck);
      assert DeliveredLines(db', ck) == DeliveredLines(db, ck);
    }
  }

  lemma PaymentKeepsConsistent(db: Db, inp: PaymentInput)
    requires Consistent(db)
    ensures Consistent(After(db, Payment(db, inp)))
  {
    if Payment(db, inp).Committed? {
      var db' := Payment(db, inp).db;
      ConsistentMeans(db);
      ConsistentMeans(db');
      PaidStructure(db, inp, db');
      PaidLedger(db, inp, db');
      PaidBalances(db, inp, db');
    }
  }

  // ---------------------------------------------------------------- Delivery

  /** In a consistent state the oldest pending order is number Low, it exists and it has lines: no abort. */
  lemma OldestIsLow(db: Db, dk: DistrictKey)
    requires Structure(db) && PendingOf(db, dk) != {}
    ensures dk in db.district
    ensures Oldest(db, dk) == OrderKey(dk.w, dk.d, Low(db, dk))
    ensures Oldest(db, dk) in db.newOrder && Oldest(db, dk) in db.orders
    ensures LinesOfOrder(db, Oldest(db, dk)) != {}
  {
    var ok := Oldest(db, dk);
    assert ok in db.newOrder && DistrictOf(ok) == dk;
    assert ok == OrderKey(dk.w, dk.d, ok.o);
    assert |PendingOf(db, dk)| > 0;
    var low := OrderKey(dk.w, dk.d, Low(db, dk));
    assert low in db.newOrder;
    assert low in PendingOf(db, dk);
    assert LineKey(ok.w, ok.d, ok.o, 1) in LinesOfOrder(db, ok);
  }

  lemma DeliveredLow(db: Db, dk: DistrictKey, carrier: int, db': Db)
    requires PendingOf(db, dk) != {} && Oldest(db, dk) in db.orders
    requires db' == Delivered(db, Oldest(db, dk), carrier)
    ensures dk in db.district ==> Low(db', dk) == Low(db, dk) + 1
    ensures forall other :: other in db.district && other != dk ==> Low(db', other) == Low(db, other)
  {
    assert PendingOf(db', dk) == PendingOf(db, dk) - {Oldest(db, dk)};
    forall other | other in db.district && other != dk
      ensures Low(db', other) == Low(db, other)
    {
      assert PendingOf(db', other) == PendingOf(db, other);
    }
  }

  lemma DeliveredPendingIds(db: Db, dk: DistrictKey, carrier: int, db': Db)
    requires Structure(db) && PendingOf(db, dk) != {} && Oldest(db, dk) in db.orders
    requires db' == Delivered(db, Oldest(db, dk), carrier)
    ensures PendingIds(db')
  {
    OldestIsLow(db, dk);
    DeliveredLow(db, dk, carrier, db');
    var ok := Oldest(db, dk);
    assert db'.newOrder == db.newOrder - {ok};
    assert db'.district == db.district;
    forall other, o | other in db'.district
      ensures OrderKey(other.w, other.d, o) in db'.newOrder <==> Low(db', other) <= o < db'.district[other].nextOid
    {
      assert OrderKey(other.w, other.d, o) in db.newOrder <==> Low(db, other) <= o < db.district[other].nextOid;
      assert OrderKey(other.w, other.d, o) == ok <==> other == dk && o == Low(db, dk);
    }
  }

  lemma DeliveredOrderIds(db: Db, ok: OrderKey, carrier: int)
    requires OrderIds(db) && ok in db.orders
    ensures OrderIds(Delivered(db, ok, carrier))
  {
    assert Delivered(db, ok, carrier).orders.Keys == db.orders.Keys;
  }

  /** What Delivery leaves in place: which orders, lines and customers there are, and everything about the
      orders and lines it does not deliver. */
  lemma DeliveredRows(db: Db, ok: OrderKey, carrier: int, db': Db)
    requires ok in db.orders && db' == Delivered(db, ok, carrier)
    ensures db'.orders.Keys == db.orders.Keys && db'.orderLine.Keys == db.orderLine.Keys
    ensures db'.customer.Keys == db.customer.Keys
    ensures db'.orders[ok] == db.orders[ok].(carrier := Some(carrier))
    ensures forall k :: k in db.orders && k != ok ==> db'.orders[k] == db.orders[k]
    ensures forall k :: k in db.orderLine ==>
              db'.orderLine[k] == if OrderOf(k) == ok then db.orderLine[k].(delivered := true) else db.orderLine[k]
  {
  }

  lemma DeliveredLineNumbers(db: Db, ok: OrderKey, carrier: int, db': Db)
    requires ok in db.orders && db' == Delivered(db, ok, carrier)
    requires LineNumbers(db) && CustomersExist(db)
    ensures LineNumbers(db') && CustomersExist(db')
  {
    DeliveredRows(db, ok, carrier, db');
    assert forall k :: k in db.orders ==> db'.orders[k].olCnt == db.orders[k].olCnt;
    assert forall k :: k in db.orders ==> db'.orders[k].customer == db.orders[k].customer;
  }

  lemma DeliveredCarriers(db: Db, ok: OrderKey, carrier: int, db': Db)
    requires ok in db.orders && db' == Delivered(db, ok, carrier)
    requires Carriers(db)
    ensures Carriers(db')
  {
    DeliveredRows(db, ok, carrier, db');
  }

  /** What the customer is credited is exactly what his delivered lines grow by. */
  lemma DeliveredCredit(db: Db, ok: OrderKey, carrier: int, db': Db, ck: CustomerKey)
    requires ok in db.orders && db' == Delivered(db, ok, carrier)
    requires forall k :: k in db.orderLine && OrderOf(k) == ok && db.orderLine[k].delivered ==>
               db.orderLine[k].amount == 0
    ensures DeliveredAmount(db', ck) == DeliveredAmount(db, ck)
              + if ck == CustomerOf(ok, db.orders[ok]) then OrderAmount(db, ok) else 0
  {
    var before, lines := DeliveredLines(db, ck), LinesOfOrder(db, ok);
    var amount, amount' := AmountOf(db.orderLine), AmountOf(db'.orderLine);
    SumCongruent(DeliveredLines(db', ck), amount, amount');
    if ck == CustomerOf(ok, db.orders[ok]) {
      DeliveredLinesGrow(db, ok, carrier, db');
      SumUnion(before, lines - before, amount);
      SumZero(lines * before, amount);
      SumUnion(lines * before, lines - before, amount);
      assert lines == lines * before + (lines - before);
    } else {
      assert DeliveredLines(db', ck) == before;
    }
  }

  lemma DeliveredLinesGrow(db: Db, ok: OrderKey, carrier: int, db': Db)
    requires ok in db.orders && db' == Delivered(db, ok, carrier)
    ensures var ck := CustomerOf(ok, db.orders[ok]);
            DeliveredLines(db', ck) == DeliveredLines(db, ck) + (LinesOfOrder(db, ok) - DeliveredLines(db, ck))
  {
  }

  lemma DeliveredMoney(db: Db, dk: DistrictKey, carrier: int, db': Db)
    requires Structure(db) && Ledger(db) && Balances(db)
    requires PendingOf(db, dk) != {} && Oldest(db, dk) in db.orders
    requires db' == Delivered(db, Oldest(db, dk), carrier)
    ensures Ledger(db') && Balances(db')
  {
    OldestIsLow(db, dk);
    assert forall w :: DistrictsOf(db', w) == DistrictsOf(db, w);
    forall ck | ck in db'.customer
      ensures db'.customer[ck].balance == DeliveredAmount(db', ck) - CustomerPayments(db'.history, ck)
      ensures db'.customer[ck].balance + db'.customer[ck].ytdPayment == DeliveredAmount(db', ck)
    {
      DeliveredCredit(db, Oldest(db, dk), carrier, db', ck);
      assert ck in db.customer;
    }
  }

  lemma DistrictKeepsConsistent(db: Db, dk: DistrictKey, carrier: int)
    requires Consistent(db)
    ensures DeliverDistrict(db, dk, carrier).Committed?
    ensures Consistent(DeliverDistrict(db, dk, carrier).db)
    ensures DeliverDistrict(db, dk, carrier).db.district == db.district
  {
    if PendingOf(db, dk) != {} {
      ConsistentMeans(db);
      OldestIsLow(db, dk);
      var db' := DeliverDistrict(db, dk, carrier).db;
      ConsistentMeans(db');
      DeliveredOrderIds(db, Oldest(db, dk), carrier);
      DeliveredPendingIds(db, dk, carrier, db');
      DeliveredLineNumbers(db, Oldest(db, dk), carrier, db');
      DeliveredCarriers(db, Oldest(db, dk), carrier, db');
      DeliveredMoney(db, dk, carrier, db');
    }
  }

  lemma DeliverFromStep(db: Db, w: int, d: int, carrier: int,
                        here: Outcome<seq<OrderKey>>, rest: Outcome<seq<OrderKey>>)
    requires 1 <= d < 11
    requires here == DeliverDistrict(db, DistrictKey(w, d), carrier) && here.Committed?
    requires rest == DeliverFrom(here.db, w, d + 1, carrier) && rest.Committed?
    ensures DeliverFrom(db, w, d, carrier) == Committed(rest.db, here.result + rest.result)
  {
  }

  lemma {:induction false} DeliverFromKeepsConsistent(db: Db, w: int, d: int, carrier: int)
    requires Consistent(db) && 1 <= d <= 11
    ensures DeliverFrom(db, w, d, carrier).Committed?
    ensures Consistent(DeliverFrom(db, w, d, carrier).db)
    ensures DeliverFrom(db, w, d, carrier).db.district == db.district
    decreases 11 - d
  {
    if d < 11 {
      var here := DeliverDistrict(db, DistrictKey(w, d), carrier);
      DistrictKeepsConsistent(db, DistrictKey(w, d), carrier);
      DeliverFromKeepsConsistent(here.db, w, d + 1, carrier);
      var rest := DeliverFrom(here.db, w, d + 1, carrier);
      DeliverFromStep(db, w, d, carrier, here, rest);
    }
  }

  // -------------------------------------------------------------------- Runs

  lemma StepKeepsConsistent(db: Db, t: Txn)
    requires Consistent(db)
    ensures Consistent(Step(db, t))
  {
    match t
    case DoNewOrder(inp) => NewOrderKeepsConsistent(db, inp);
    case DoPayment(inp) => PaymentKeepsConsistent(db, inp);
    case DoDelivery(w, carrier) => DeliverFromKeepsConsistent(db, w, 1, carrier);
  }

  /** Every run, of any transactions with any inputs in any order, keeps every consistency condition. */
  lemma {:induction false} RunKeepsConsistent(db: Db, txns: seq<Txn>)
    requires Consistent(db)
    ensures Consistent(Run(db, txns))
    decreases |txns|
  {
    if txns != [] {
      StepKeepsConsistent(db, txns[0]);
      RunKeepsConsistent(Step(db, txns[0]), txns[1..]);
    }
  }
}
