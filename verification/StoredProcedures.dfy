/** The stored procedures statement by statement, updating the tables in place and undoing everything on an error. */
module StoredProcedures {
  import opened Common
  import opened FiniteSums
  import opened Tables
  import opened Transactions
  import opened Consistency

  lemma {:induction false} FirstFailureAt(db: Db, inp: NewOrderInput, o: int, i: nat, j: nat)
    requires i <= j < inp.olCnt <= 15
    requires forall l :: i <= l < j ==> LineFailure(db, inp, o, l).None?
    requires LineFailure(db, inp, o, j).Some?
    ensures FirstFailure(db, inp, o, i) == LineFailure(db, inp, o, j)
    decreases j - i
  {
    if i < j { FirstFailureAt(db, inp, o, i + 1, j); }
  }

  /** The tables the loop works on after the first `i` lines, none of which failed. */
  ghost predicate PlacedSoFar(db: Db, inp: NewOrderInput, o: int, i: int,
                              stock: map<StockKey, Stock>, lines: map<LineKey, Line>)
  {
    && LinesKnown(db, inp, i)
    && (forall j :: 0 <= j < i ==> LineFailure(db, inp, o, j).None?)
    && stock == StockAfter(db, inp, i) && lines == LinesAfter(db, inp, o, i)
  }

  /** The stock table after line `l` has taken its quantity, given the quantities the snapshot shows. */
  function Taken(stock: map<StockKey, Stock>, snapshot: Db, inp: NewOrderInput, l: LineRequest): map<StockKey, Stock>
    requires StockKeyOf(l) in stock && StockKeyOf(l) in snapshot.stock
  {
    var k, row := StockKeyOf(l), stock[StockKeyOf(l)];
    stock[k := Stock(row.quantity - Decrement(snapshot.stock[k].quantity, l.quantity),
                     row.ytd + l.quantity, row.orderCnt + 1,
                     row.remoteCnt + if l.supply == inp.w then 0 else 1)]
  }

  lemma PlacedOneMore(db: Db, inp: NewOrderInput, o: int, i: nat,
                     stock: map<StockKey, Stock>, lines: map<LineKey, Line>)
    requires i < inp.olCnt <= 15 && PlacedSoFar(db, inp, o, i, stock, lines) && LineFailure(db, inp, o, i).None?
    ensures PlacedSoFar(db, inp, o, i + 1, Taken(stock, db, inp, inp.ol[i]),
                        lines[LineKey(inp.w, inp.d, o, i + 1) := NewLine(db, inp.ol[i])])
  {
  }

  ghost function Prefixed(done: seq<OrderKey>, r: Outcome<seq<OrderKey>>): Outcome<seq<OrderKey>> {
    match r
    case Committed(db, ids) => Committed(db, done + ids)
    case Aborted(e) => Aborted(e)
  }

  lemma PrefixedNothing(r: Outcome<seq<OrderKey>>)
    ensures Prefixed([], r) == r
  {
    if r.Committed? { assert [] + r.result == r.result; }
  }

  lemma OneMoreDistrict(db: Db, w: int, d: int, carrier: int, done: seq<OrderKey>)
    requires 1 <= d <= 10
    ensures Prefixed(done, DeliverFrom(db, w, d, carrier)) ==
      match DeliverDistrict(db, DistrictKey(w, d), carrier)
      case Committed(db1, here) => Prefixed(done + here, DeliverFrom(db1, w, d + 1, carrier))
      case Aborted(e) => Aborted(e)
  {
    match DeliverDistrict(db, DistrictKey(w, d), carrier)
    case Aborted(_) =>
    case Committed(db1, here) =>
      match DeliverFrom(db1, w, d + 1, carrier)
      case Aborted(_) =>
      case Committed(_, rest) => assert done + (here + rest) == done + here + rest;
  }

  lemma MarkingKeepsAmount(db: Db, db': Db, ok: OrderKey)
    requires db'.orderLine == MarkDelivered(db.orderLine, ok)
    ensures LinesOfOrder(db', ok) == LinesOfOrder(db, ok) && OrderAmount(db', ok) == OrderAmount(db, ok)
  {
    assert LinesOfOrder(db', ok) == LinesOfOrder(db, ok);
    SumCongruent(LinesOfOrder(db, ok), AmountOf(db.orderLine), AmountOf(db'.orderLine));
  }

  class Database {
    var warehouse: map<int, Warehouse>
    var district: map<DistrictKey, District>
    var customer: map<CustomerKey, Customer>
    var item: map<int, Item>
    var stock: map<StockKey, Stock>
    var orders: map<OrderKey, Order>
    var newOrder: set<OrderKey>
    var orderLine: map<LineKey, Line>
    var history: seq<History>

    function Contents(): Db
      reads this
    {
      Db(warehouse, district, customer, item, stock, orders, newOrder, orderLine, history)
    }

    constructor (db: Db)
      ensures Contents() == db
    {
      warehouse, district, customer, item := db.warehouse, db.district, db.customer, db.item;
      stock, orders, newOrder, orderLine, history := db.stock, db.orders, db.newOrder, db.orderLine, db.history;
    }

    /** Abort: every change of the call is undone. */
    method Rollback(saved: Db)
      modifies this
      ensures Contents() == saved
    {
      warehouse, district, customer, item := saved.warehouse, saved.district, saved.customer, saved.item;
      stock, orders, newOrder := saved.stock, saved.orders, saved.newOrder;
      orderLine, history := saved.orderLine, saved.history;
    }

    method NewOrder(inp: NewOrderInput) returns (error: Option<Error>, oId: int)
      modifies this
      ensures match Transactions.NewOrder(old(Contents()), inp)
        case Committed(db, o) => error == None && oId == o && Contents() == db
        case Aborted(e) => error == Some(e) && Contents() == old(Contents())
    {
      oId := 0;
      if inp.olCnt < 1 || inp.olCnt > 15 { return Some(BadLineCount), oId; }
      var snapshot := Contents();
      if inp.w !in warehouse { return Some(StatementFailed("NEW_ORDER_1")), oId; }
      var dk := inp.District();
      if dk !in district { return Some(StatementFailed("NEW_ORDER_2")), oId; }
      district := district[dk := district[dk].(nextOid := district[dk].nextOid + 1)];
      oId := district[dk].nextOid - 1;
      if CustomerKey(inp.w, inp.d, inp.c) !in customer {
        Rollback(snapshot);
        return Some(StatementFailed("NEW_ORDER_4")), oId;
      }
      var ok := inp.Order(oId);
      if ok in newOrder || ok in orders {
        Rollback(snapshot);
        return Some(DuplicateKey), oId;
      }
      newOrder := newOrder + {ok};
      orders := orders[ok := Order(inp.c, None, inp.olCnt, inp.allLocal)];
      error := PlaceLines(inp, oId, snapshot);
      if error.Some? {
        Rollback(snapshot);
      } else {
        NoFailure(snapshot, inp, oId);
      }
    }

    /** One order line (`i` from 0); `snapshot` is what the read-only statements see. */
    method PlaceLine(inp: NewOrderInput, o: int, i: nat, snapshot: Db) returns (error: Option<Error>)
      requires i < 15 && item == snapshot.item && stock.Keys == snapshot.stock.Keys
      requires LineKey(inp.w, inp.d, o, i + 1) in orderLine <==> LineKey(inp.w, inp.d, o, i + 1) in snapshot.orderLine
      modifies this`stock, this`orderLine
      ensures error == LineFailure(snapshot, inp, o, i)
      ensures error.None? ==> stock == Taken(old(stock), snapshot, inp, inp.ol[i])
      ensures error.None? ==>
        orderLine == old(orderLine)[LineKey(inp.w, inp.d, o, i + 1) := NewLine(snapshot, inp.ol[i])]
    {
      var l := inp.ol[i];
      if l.item == 0 || l.item !in item { return Some(ItemNotFound); }
      var amount := item[l.item].price * l.quantity;
      var k := StockKeyOf(l);
      if k !in snapshot.stock { return Some(StatementFailed("NEW_ORDER_8")); }
      var decrement := if snapshot.stock[k].quantity >= l.quantity + 10 then l.quantity else l.quantity - 91;
      stock := stock[k := Stock(stock[k].quantity - decrement, stock[k].ytd + l.quantity, stock[k].orderCnt + 1,
                                stock[k].remoteCnt + if l.supply == inp.w then 0 else 1)];
      if LineKey(inp.w, inp.d, o, i + 1) in orderLine { return Some(DuplicateKey); }
      orderLine := orderLine[LineKey(inp.w, inp.d, o, i + 1) := Line(l.item, l.supply, false, l.quantity, amount)];
      return None;
    }

    /** The order-line loop. */
    method PlaceLines(inp: NewOrderInput, o: int, snapshot: Db) returns (error: Option<Error>)
      requires 1 <= inp.olCnt <= 15
      requires item == snapshot.item && stock == snapshot.stock && orderLine == snapshot.orderLine
      modifies this`stock, this`orderLine
      ensures error == FirstFailure(snapshot, inp, o, 0)
      ensures error.None? ==> PlacedSoFar(snapshot, inp, o, inp.olCnt, stock, orderLine)
    {
      var i := 0;
      error := None;
      while i < inp.olCnt
        invariant 0 <= i <= inp.olCnt && error.None? && stock.Keys == snapshot.stock.Keys
        invariant PlacedSoFar(snapshot, inp, o, i, stock, orderLine)
      {
        ghost var stock', lines' := stock, orderLine;
        LinesAfterRows(snapshot, inp, o, i);
        error := PlaceLine(inp, o, i, snapshot);
        if error.Some? {
          FirstFailureAt(snapshot, inp, o, 0, i);
          return;
        }
        PlacedOneMore(snapshot, inp, o, i, stock', lines');
        i := i + 1;
      }
    }

    /** PAYMENT_5: the customer given, or the one in the middle of the listing. */
    method FindPayer(inp: PaymentInput) returns (found: Option<int>)
      ensures found == if inp.c != 0 then Some(inp.c)
                       else if |inp.listing| == 0 then None else Some(inp.listing[(|inp.listing| - 1) / 2])
    {
      if inp.c == 0 {
        if |inp.listing| == 0 { return None; }
        return Some(inp.listing[(|inp.listing| - 1) / 2]);
      }
      return Some(inp.c);
    }

    /** PAYMENT_7 and PAYMENT_8: charge the customer and record the payment. */
    method Charge(inp: PaymentInput, c: int)
      requires CustomerKey(inp.cw, inp.cd, c) in customer
      modifies this`customer, this`history
      ensures var ck := CustomerKey(inp.cw, inp.cd, c);
              customer == old(customer)[ck := Paid(old(customer)[ck], inp.amount)]
      ensures history == old(history) + [History(c, inp.cd, inp.cw, inp.d, inp.w, inp.amount)]
    {
      var ck := CustomerKey(inp.cw, inp.cd, c);
      var r := customer[ck];
      customer := customer[ck := r.(balance := r.balance - inp.amount, ytdPayment := r.ytdPayment + inp.amount,
                                    paymentCnt := r.paymentCnt + 1)];
      history := history + [History(c, inp.cd, inp.cw, inp.d, inp.w, inp.amount)];
    }

    method Payment(inp: PaymentInput) returns (error: Option<Error>, cId: int)
      modifies this
      ensures match Transactions.Payment(old(Contents()), inp)
        case Committed(db, c) => error == None && cId == c && Contents() == db
        case Aborted(e) => error == Some(e) && Contents() == old(Contents())
    {
      hide Paid;
      var saved := Contents();
      cId := inp.c;
      if inp.w !in warehouse { return Some(StatementFailed("PAYMENT_1")), cId; }
      warehouse := warehouse[inp.w := Warehouse(warehouse[inp.w].ytd + inp.amount)];
      var dk := DistrictKey(inp.w, inp.d);
      if dk !in district {
        Rollback(saved);
        return Some(StatementFailed("PAYMENT_3")), cId;
      }
      district := district[dk := district[dk].(ytd := district[dk].ytd + inp.amount)];
      var found := FindPayer(inp);
      if found == None {
        Rollback(saved);
        return Some(StatementFailed("PAYMENT_5")), cId;
      }
      cId := found.value;
      if CustomerKey(inp.cw, inp.cd, cId) !in customer {
        Rollback(saved);
        return Some(StatementFailed("PAYMENT_6")), cId;
      }
      Charge(inp, cId);
      error := None;
    }

    /** DELIVERY_1. */
    method SelectOldest(dk: DistrictKey) returns (found: Option<OrderKey>)
      ensures PendingOf(Contents(), dk) == {} ==> found == None
      ensures PendingOf(Contents(), dk) != {} ==> found == Some(Oldest(Contents(), dk))
    {
      var rest := PendingOf(Contents(), dk);
      found := None;
      while rest != {}
        invariant rest <= PendingOf(Contents(), dk)
        invariant found.None? ==> rest == PendingOf(Contents(), dk)
        invariant found.Some? ==> found.value in PendingOf(Contents(), dk)
        invariant found.Some? ==> forall k :: k in PendingOf(Contents(), dk) && k !in rest ==> found.value.o <= k.o
        decreases rest
      {
        var k :| k in rest;
        if found == None || k.o < found.value.o { found := Some(k); }
        rest := rest - {k};
      }
    }

    /** DELIVERY_6: the sum of the amounts of an order's lines, null when there are none. */
    method SumAmounts(ok: OrderKey) returns (sum: Option<int>)
      ensures sum == if LinesOfOrder(Contents(), ok) == {} then None else Some(OrderAmount(Contents(), ok))
    {
      var rest := LinesOfOrder(Contents(), ok);
      if rest == {} { return None; }
      var total := 0;
      while rest != {}
        invariant rest <= LinesOfOrder(Contents(), ok)
        invariant total + Sum(rest, AmountOf(orderLine)) == OrderAmount(Contents(), ok)
        decreases rest
      {
        var k :| k in rest;
        SumRemove(rest, AmountOf(orderLine), k);
        total := total + orderLine[k].amount;
        rest := rest - {k};
      }
      sum := Some(total);
    }

    /** One iteration of the district loop. */
    method DeliverDistrict(dk: DistrictKey, carrier: int) returns (error: Option<Error>, done: seq<OrderKey>)
      modifies this
      ensures match Transactions.DeliverDistrict(old(Contents()), dk, carrier)
        case Committed(db, ids) => error == None && done == ids && Contents() == db
        case Aborted(e) => error == Some(e)
    {
      hide Oldest, IsOldest, Sum, PendingOf;
      done := [];
      var found := SelectOldest(dk);
      if found == None { return None, []; }
      var ok := found.value;
      newOrder := newOrder - {ok};
      if ok !in orders { return Some(StatementFailed("DELIVERY_3")), []; }
      orders := orders[ok := orders[ok].(carrier := Some(carrier))];
      orderLine := MarkDelivered(orderLine, ok);
      MarkingKeepsAmount(old(Contents()), Contents(), ok);
      var amount := SumAmounts(ok);
      if amount == None { return Some(StatementFailed("DELIVERY_6")), []; }
      var ck := CustomerOf(ok, orders[ok]);
      if ck in customer {
        var r := customer[ck];
        customer := customer[ck := r.(deliveryCnt := r.deliveryCnt + 1, balance := r.balance + amount.value)];
      }
      return None, [ok];
    }

    method Delivery(w: int, carrier: int) returns (error: Option<Error>, done: seq<OrderKey>)
      modifies this
      ensures match Transactions.Delivery(old(Contents()), w, carrier)
        case Committed(db, ids) => error == None && done == ids && Contents() == db
        case Aborted(e) => error == Some(e) && Contents() == old(Contents())
    {
      var saved := Contents();
      done := [];
      PrefixedNothing(Transactions.Delivery(saved, w, carrier));
      var d := 1;
      while d <= 10
        invariant 1 <= d <= 11
        invariant Transactions.Delivery(saved, w, carrier) == Prefixed(done, DeliverFrom(Contents(), w, d, carrier))
      {
        var ids;
        OneMoreDistrict(Contents(), w, d, carrier, done);
        error, ids := DeliverDistrict(DistrictKey(w, d), carrier);
        if error.Some? {
          Rollback(saved);
          return error, [];
        }
        done := done + ids;
        d := d + 1;
      }
      error := None;
    }
  }
}
