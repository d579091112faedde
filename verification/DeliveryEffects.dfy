/** What a Delivery does to each row, in terms of the rows before it: the oldest pending order of each district is
    delivered, and its customer is credited with the sum of its lines. */
module DeliveryEffects {
  import opened Common
  import opened FiniteSums
  import opened Tables
  import opened Transactions

  // ------------------------------------------------------------- the orders that are due

  /** The oldest pending order of one of the districts `d` to 10 of warehouse `w`. */
  ghost predicate IsDue(db: Db, w: int, d: int, k: OrderKey) {
    && k in db.newOrder && k.w == w && d <= k.d <= 10
    && (forall p :: p in db.newOrder && p.w == k.w && p.d == k.d ==> k.o <= p.o)
  }

  ghost function Due(db: Db, w: int, d: int): set<OrderKey> {
    set k | k in db.newOrder && IsDue(db, w, d, k)
  }

  /** The order exists and has a line. */
  ghost predicate Deliverable(db: Db, k: OrderKey) {
    k in db.orders && exists l :: l in db.orderLine && l.w == k.w && l.d == k.d && l.o == k.o
  }

  // ------------------------------------------------------------- what delivering does

  /** The orders among `due` that a customer has placed. */
  ghost function OrdersBy(orders: map<OrderKey, Order>, due: set<OrderKey>, ck: CustomerKey): set<OrderKey> {
    set k | k in due && k in orders && CustomerKey(k.w, k.d, orders[k].customer) == ck
  }

  ghost function LinesIn(lines: map<LineKey, Line>, orders: set<OrderKey>): set<LineKey> {
    set l | l in lines && OrderKey(l.w, l.d, l.o) in orders
  }

  /** The orders of `due` lose their new_order row and gain the carrier, and their lines a delivery date. */
  ghost predicate Marked(db: Db, due: set<OrderKey>, carrier: int, db': Db) {
    && due <= db.orders.Keys
    && db'.newOrder == db.newOrder - due
    && db'.orders.Keys == db.orders.Keys && db'.orderLine.Keys == db.orderLine.Keys
    && (forall k :: k in db.orders ==>
          db'.orders[k] == if k in due then db.orders[k].(carrier := Some(carrier)) else db.orders[k])
    && (forall l :: l in db.orderLine ==>
          db'.orderLine[l] ==
            if OrderKey(l.w, l.d, l.o) in due then db.orderLine[l].(delivered := true) else db.orderLine[l])
  }

  /** The amounts of the lines of a customer's orders among `due`. */
  ghost function CreditFor(db: Db, due: set<OrderKey>, ck: CustomerKey): int {
    Sum(LinesIn(db.orderLine, OrdersBy(db.orders, due, ck)), AmountOf(db.orderLine))
  }

  /** Each customer is credited with the lines of his orders among `due`, and these are counted. */
  ghost predicate CustomersCredited(db: Db, due: set<OrderKey>, db': Db) {
    && db'.customer.Keys == db.customer.Keys
    && (forall ck :: ck in db.customer ==>
          db'.customer[ck] == db.customer[ck].(
            balance := db.customer[ck].balance + CreditFor(db, due, ck),
            deliveryCnt := db.customer[ck].deliveryCnt + |OrdersBy(db.orders, due, ck)|))
  }

  ghost predicate OthersKept(db: Db, db': Db) {
    && db'.warehouse == db.warehouse && db'.district == db.district && db'.item == db.item
    && db'.stock == db.stock && db'.history == db.history
  }

  ghost predicate AllDelivered(db: Db, due: set<OrderKey>, carrier: int, db': Db) {
    Marked(db, due, carrier, db') && CustomersCredited(db, due, db') && OthersKept(db, db')
  }

  // ------------------------------------------------------------- one order, then one more

  lemma NoneDelivered(db: Db, carrier: int)
    ensures AllDelivered(db, {}, carrier, db)
  {
    forall ck | ck in db.customer
      ensures OrdersBy(db.orders, {}, ck) == {} && LinesIn(db.orderLine, OrdersBy(db.orders, {}, ck)) == {}
    {
    }
  }

  lemma OneMarked(db: Db, ok: OrderKey, carrier: int)
    requires ok in db.orders
    ensures Marked(db, {ok}, carrier, Delivered(db, ok, carrier)) && OthersKept(db, Delivered(db, ok, carrier))
  {
  }

  lemma OneCredited(db: Db, ok: OrderKey, carrier: int)
    requires ok in db.orders
    ensures CustomersCredited(db, {ok}, Delivered(db, ok, carrier))
  {
    var payer := CustomerOf(ok, db.orders[ok]);
    assert LinesIn(db.orderLine, {ok}) == LinesOfOrder(db, ok);
    forall ck | ck in db.customer
      ensures OrdersBy(db.orders, {ok}, ck) == if ck == payer then {ok} else {}
      ensures ck != payer ==> LinesIn(db.orderLine, OrdersBy(db.orders, {ok}, ck)) == {}
    {
    }
  }

  lemma MarkedTwice(a: Db, first: set<OrderKey>, b: Db, later: set<OrderKey>, carrier: int, c: Db)
    requires first !! later && Marked(a, first, carrier, b) && Marked(b, later, carrier, c)
    ensures Marked(a, first + later, carrier, c)
  {
  }

  lemma CreditedTwice(a: Db, first: set<OrderKey>, b: Db, later: set<OrderKey>, carrier: int, c: Db)
    requires first !! later && Marked(a, first, carrier, b)
    requires CustomersCredited(a, first, b) && CustomersCredited(b, later, c)
    ensures CustomersCredited(a, first + later, c)
  {
    hide CreditFor, OrdersBy, Marked;
    forall ck | ck in a.customer
      ensures c.customer[ck] == a.customer[ck].(
                balance := a.customer[ck].balance + CreditFor(a, first + later, ck),
                deliveryCnt := a.customer[ck].deliveryCnt + |OrdersBy(a.orders, first + later, ck)|)
    {
      CreditAdds(a, first, b, later, carrier, ck);
    }
  }

  lemma CreditAdds(a: Db, first: set<OrderKey>, b: Db, later: set<OrderKey>, carrier: int, ck: CustomerKey)
    requires first !! later && Marked(a, first, carrier, b)
    ensures CreditFor(a, first + later, ck) == CreditFor(a, first, ck) + CreditFor(b, later, ck)
    ensures |OrdersBy(a.orders, first + later, ck)| == |OrdersBy(a.orders, first, ck)| + |OrdersBy(b.orders, later, ck)|
  {
    hide Sum, LinesIn;
    var one, two := OrdersBy(a.orders, first, ck), OrdersBy(a.orders, later, ck);
    SameOrdersBy(a, first, carrier, b, later, ck);
    CreditParts(a.orderLine, b.orderLine, one, two);
    assert OrdersBy(a.orders, first + later, ck) == one + two;
  }

  lemma SameOrdersBy(a: Db, first: set<OrderKey>, carrier: int, b: Db, later: set<OrderKey>, ck: CustomerKey)
    requires Marked(a, first, carrier, b)
    ensures OrdersBy(b.orders, later, ck) == OrdersBy(a.orders, later, ck)
    ensures forall l :: l in a.orderLine <==> l in b.orderLine
    ensures forall l :: l in a.orderLine ==> a.orderLine[l].amount == b.orderLine[l].amount
  {
  }

  lemma CreditParts(lines: map<LineKey, Line>, lines': map<LineKey, Line>, one: set<OrderKey>, two: set<OrderKey>)
    requires one !! two && lines'.Keys == lines.Keys
    requires forall l :: l in lines ==> lines'[l].amount == lines[l].amount
    ensures Sum(LinesIn(lines, one + two), AmountOf(lines))
         == Sum(LinesIn(lines, one), AmountOf(lines)) + Sum(LinesIn(lines', two), AmountOf(lines'))
    ensures |one + two| == |one| + |two|
  {
    assert LinesIn(lines, one + two) == LinesIn(lines, one) + LinesIn(lines, two);
    SumUnion(LinesIn(lines, one), LinesIn(lines, two), AmountOf(lines));
    assert LinesIn(lines', two) == LinesIn(lines, two);
    SumCongruent(LinesIn(lines, two), AmountOf(lines), AmountOf(lines'));
  }

  lemma DeliveredTwice(a: Db, first: set<OrderKey>, b: Db, later: set<OrderKey>, carrier: int, c: Db)
    requires first !! later && AllDelivered(a, first, carrier, b) && AllDelivered(b, later, carrier, c)
    ensures AllDelivered(a, first + later, carrier, c)
  {
    MarkedTwice(a, first, b, later, carrier, c);
    CreditedTwice(a, first, b, later, carrier, c);
  }

  // ------------------------------------------------------------- one district

  lemma NothingDue(db: Db, w: int, d: int)
    requires PendingOf(db, DistrictKey(w, d)) == {}
    ensures Due(db, w, d) == Due(db, w, d + 1)
  {
    var dk := DistrictKey(w, d);
    assert forall k :: k in PendingOf(db, dk) <==> k in db.newOrder && DistrictOf(k) == dk;
  }

  lemma OldestIsDue(db: Db, w: int, d: int, ok: OrderKey)
    requires d <= 10 && PendingOf(db, DistrictKey(w, d)) != {} && ok == Oldest(db, DistrictKey(w, d))
    ensures Due(db, w, d) == {ok} + Due(db, w, d + 1) && ok !in Due(db, w, d + 1)
    ensures ok.w == w && ok.d == d && ok in db.newOrder
  {
    forall k | k in db.newOrder && k.w == w && k.d == d
      ensures ok.o <= k.o && (IsDue(db, w, d, k) <==> k == ok)
    {
      assert k in PendingOf(db, DistrictKey(w, d));
    }
  }

  /** Delivering in a district leaves the orders due in later ones as they were. */
  lemma DueLater(db: Db, w: int, d: int, ok: OrderKey, db': Db)
    requires ok.d == d && db'.newOrder == db.newOrder - {ok}
    ensures Due(db', w, d + 1) == Due(db, w, d + 1)
  {
  }

  lemma DeliverableLater(a: Db, first: set<OrderKey>, carrier: int, b: Db)
    requires Marked(a, first, carrier, b)
    ensures forall k :: Deliverable(b, k) <==> Deliverable(a, k)
  {
    assert forall l :: l in a.orderLine <==> l in b.orderLine;
  }

  lemma DistrictDelivers(db: Db, w: int, d: int, carrier: int) returns (due: set<OrderKey>)
    requires 1 <= d <= 10
    ensures due !! Due(db, w, d + 1) && Due(db, w, d) == due + Due(db, w, d + 1)
    ensures |due| <= 1 && forall k :: k in due ==> k.d == d
    ensures
      var r := DeliverDistrict(db, DistrictKey(w, d), carrier);
      && (r.Committed? <==> forall k :: k in due ==> Deliverable(db, k))
      && (r.Committed? ==>
            && AllDelivered(db, due, carrier, r.db) && Due(r.db, w, d + 1) == Due(db, w, d + 1)
            && |r.result| == |due| && (forall k :: k in r.result <==> k in due))
      && (r.Aborted? ==> exists k :: k in due && BlockedBy(db, k, r.error))
  {
    var dk := DistrictKey(w, d);
    if PendingOf(db, dk) == {} {
      NothingDue(db, w, d);
      NoneDelivered(db, carrier);
      due := {};
    } else {
      var ok := Oldest(db, dk);
      OldestIsDue(db, w, d, ok);
      due := {ok};
      HasLines(db, ok);
      if Deliverable(db, ok) {
        OneMarked(db, ok, carrier);
        OneCredited(db, ok, carrier);
        DueLater(db, w, d, ok, Delivered(db, ok, carrier));
      }
    }
  }

  lemma HasLines(db: Db, ok: OrderKey)
    ensures LinesOfOrder(db, ok) != {} <==> exists l :: l in db.orderLine && l.w == ok.w && l.d == ok.d && l.o == ok.o
  {
    if l :| l in db.orderLine && l.w == ok.w && l.d == ok.d && l.o == ok.o {
      assert l in LinesOfOrder(db, ok);
    }
  }

  /** Why an order that is due cannot be delivered. */
  ghost predicate BlockedBy(db: Db, k: OrderKey, e: Error) {
    !Deliverable(db, k) && e == StatementFailed(if k !in db.orders then "DELIVERY_3" else "DELIVERY_6")
  }

  // ------------------------------------------------------------- the ten districts

  /** The orders of `due`, one after the other by district. */
  ghost predicate InDistrictOrder(log: seq<OrderKey>, due: set<OrderKey>) {
    && (forall k :: k in log <==> k in due)
    && (forall i, j :: 0 <= i < j < |log| ==> log[i].d < log[j].d)
  }

  lemma OneMoreDistrict(here: seq<OrderKey>, first: set<OrderKey>, rest: seq<OrderKey>, later: set<OrderKey>, d: int)
    requires |here| == |first| <= 1 && (forall k :: k in here <==> k in first)
    requires InDistrictOrder(rest, later)
    requires (forall k :: k in first ==> k.d == d) && (forall k :: k in later ==> d < k.d)
    ensures InDistrictOrder(here + rest, first + later)
  {
    var log := here + rest;
    forall i, j | 0 <= i < j < |log| ensures log[i].d < log[j].d {
      if i < |here| {
        assert here[i] in first && rest[j - |here|] in later;
      }
    }
  }

  lemma {:induction false} DeliverFromDelivers(db: Db, w: int, d: int, carrier: int)
    requires 1 <= d <= 11
    ensures
      var r := DeliverFrom(db, w, d, carrier);
      && (r.Committed? <==> forall k :: k in Due(db, w, d) ==> Deliverable(db, k))
      && (r.Committed? ==>
            AllDelivered(db, Due(db, w, d), carrier, r.db) && InDistrictOrder(r.result, Due(db, w, d)))
      && (r.Aborted? ==> exists k :: k in Due(db, w, d) && BlockedBy(db, k, r.error)
                                     && forall p :: p in Due(db, w, d) && p.d < k.d ==> Deliverable(db, p))
    decreases 11 - d
  {
    hide Marked, CustomersCredited, Deliverable, DeliverDistrict, BlockedBy;
    if d == 11 {
      assert Due(db, w, d) == {};
      NoneDelivered(db, carrier);
    } else {
      var first := DistrictDelivers(db, w, d, carrier);
      var here := DeliverDistrict(db, DistrictKey(w, d), carrier);
      if here.Committed? {
        DeliverFromDelivers(here.db, w, d + 1, carrier);
        DeliverableLater(db, first, carrier, here.db);
        BlockedLater(db, first, carrier, here.db);
        var later := Due(db, w, d + 1);
        var rest := DeliverFrom(here.db, w, d + 1, carrier);
        if rest.Committed? {
          DeliveredTwice(db, first, here.db, later, carrier, rest.db);
          OneMoreDistrict(here.result, first, rest.result, later, d);
        }
      }
    }
  }

  lemma BlockedLater(a: Db, first: set<OrderKey>, carrier: int, b: Db)
    requires Marked(a, first, carrier, b)
    ensures forall k, e :: BlockedBy(b, k, e) <==> BlockedBy(a, k, e)
  {
    DeliverableLater(a, first, carrier, b);
  }

  /** A Delivery commits exactly when every due order exists and has lines.  It then delivers the oldest pending
      order of each of the ten districts, lists them by district, and changes no other row. */
  lemma DeliveryDelivers(db: Db, w: int, carrier: int)
    ensures Delivery(db, w, carrier).Committed? <==> forall k :: k in Due(db, w, 1) ==> Deliverable(db, k)
    ensures Delivery(db, w, carrier).Committed? ==>
              && AllDelivered(db, Due(db, w, 1), carrier, Delivery(db, w, carrier).db)
              && InDistrictOrder(Delivery(db, w, carrier).result, Due(db, w, 1))
  {
    DeliverFromDelivers(db, w, 1, carrier);
  }

  /** Otherwise the first due order that is missing, or has no lines, names the statement that failed. */
  lemma DeliveryAborts(db: Db, w: int, carrier: int) returns (k: OrderKey)
    requires Delivery(db, w, carrier).Aborted?
    ensures IsDue(db, w, 1, k) && BlockedBy(db, k, Delivery(db, w, carrier).error)
    ensures forall p :: IsDue(db, w, 1, p) && p.d < k.d ==> Deliverable(db, p)
  {
    DeliverFromDelivers(db, w, 1, carrier);
    k :| k in Due(db, w, 1) && BlockedBy(db, k, Delivery(db, w, carrier).error)
         && forall p :: p in Due(db, w, 1) && p.d < k.d ==> Deliverable(db, p);
  }
}
