/** What runs do to order rows and to the customers' counters of payments and deliveries. */
module CustomerCounts {
  import opened Common
  import opened Tables
  import opened Transactions
  import opened Consistency
  import opened Clauses

  // ------------------------------------------------------------- payments

  ghost function PaymentsBy(h: seq<History>, ck: CustomerKey): int {
    if h == [] then 0 else PaymentsBy(h[..|h| - 1], ck) + if Payer(h[|h| - 1]) == ck then 1 else 0
  }

  /** c_payment_cnt is the number of the customer's history rows. */
  ghost predicate PaymentsCounted(db: Db) {
    forall ck :: ck in db.customer ==> db.customer[ck].paymentCnt == PaymentsBy(db.history, ck)
  }

  /** Districts d to 10 of a delivery leave payments alone. */
  lemma {:induction false} DeliverFromPayments(db: Db, w: int, d: int, carrier: int)
    requires Consistent(db) && 1 <= d <= 11
    ensures After(db, DeliverFrom(db, w, d, carrier)).history == db.history
    ensures After(db, DeliverFrom(db, w, d, carrier)).customer.Keys == db.customer.Keys
    ensures forall ck :: ck in db.customer ==>
              After(db, DeliverFrom(db, w, d, carrier)).customer[ck].paymentCnt == db.customer[ck].paymentCnt
    decreases 11 - d
  {
    if d < 11 {
      hide Consistent;
      var here, rest := DeliverFromSplit(db, w, d, carrier);
      DistrictPayments(db, DistrictKey(w, d), carrier);
      DeliverFromPayments(here.db, w, d + 1, carrier);
    }
  }

  lemma DistrictPayments(db: Db, dk: DistrictKey, carrier: int)
    ensures After(db, DeliverDistrict(db, dk, carrier)).history == db.history
    ensures After(db, DeliverDistrict(db, dk, carrier)).customer.Keys == db.customer.Keys
    ensures forall ck :: ck in db.customer ==>
              After(db, DeliverDistrict(db, dk, carrier)).customer[ck].paymentCnt == db.customer[ck].paymentCnt
  {
  }

  lemma StepPayments(db: Db, t: Txn)
    requires Consistent(db) && PaymentsCounted(db)
    ensures PaymentsCounted(Step(db, t))
  {
    hide Consistent, DeliverFrom;
    match t
    case DoNewOrder(inp) =>
    case DoPayment(inp) =>
      if Payment(db, inp).Committed? {
        var h := Step(db, t).history;
        assert h[..|h| - 1] == db.history;
      }
    case DoDelivery(w, carrier) => DeliverFromPayments(db, w, 1, carrier);
  }

  /** Every run keeps the payment counters exact. */
  lemma {:induction false} RunPayments(db: Db, txns: seq<Txn>)
    requires Consistent(db) && PaymentsCounted(db)
    ensures PaymentsCounted(Run(db, txns))
    decreases |txns|
  {
    if txns != [] {
      hide Consistent, PaymentsCounted, Step;
      StepKeepsConsistent(db, txns[0]);
      StepPayments(db, txns[0]);
      RunPayments(Step(db, txns[0]), txns[1..]);
    }
  }

  // ------------------------------------------------------------- order rows

  /** Order rows stay; only those in `log` change, and only to the carrier. */
  ghost predicate OrdersStay(db: Db, db': Db, log: seq<OrderKey>, carrier: int) {
    forall k :: k in db.orders ==>
      k in db'.orders
      && db'.orders[k] == if k in log then db.orders[k].(carrier := Some(carrier)) else db.orders[k]
  }

  lemma DistrictOrders(db: Db, dk: DistrictKey, carrier: int)
    requires DeliverDistrict(db, dk, carrier).Committed?
    ensures OrdersStay(db, DeliverDistrict(db, dk, carrier).db, DeliverDistrict(db, dk, carrier).result, carrier)
    ensures forall k :: k in DeliverDistrict(db, dk, carrier).result ==> k in db.orders
  {
  }

  lemma {:induction false} DeliverFromOrders(db: Db, w: int, d: int, carrier: int)
    requires Consistent(db) && 1 <= d <= 11
    ensures DeliverFrom(db, w, d, carrier).Committed?
    ensures OrdersStay(db, DeliverFrom(db, w, d, carrier).db, DeliverFrom(db, w, d, carrier).result, carrier)
    ensures forall k :: k in DeliverFrom(db, w, d, carrier).result ==> k in DeliverFrom(db, w, d, carrier).db.orders
    decreases 11 - d
  {
    if d < 11 {
      hide Consistent, DeliverDistrict;
      var here, rest := DeliverFromSplit(db, w, d, carrier);
      DistrictOrders(db, DistrictKey(w, d), carrier);
      DeliverFromOrders(here.db, w, d + 1, carrier);
    }
  }

  /** A transaction changes no order row that exists, but for the carrier of the orders it delivers. */
  lemma StepOrders(db: Db, t: Txn)
    requires Consistent(db)
    ensures OrdersStay(db, Step(db, t), StepLog(db, t), if t.DoDelivery? then t.carrier else 0)
    ensures forall k :: k in StepLog(db, t) ==> k in Step(db, t).orders
  {
    hide Consistent, DeliverFrom;
    match t
    case DoNewOrder(inp) =>
      if NewOrder(db, inp).Committed? {
        var ok := inp.Order(db.district[inp.District()].nextOid);
        assert ok !in db.orders;
      }
    case DoPayment(inp) =>
    case DoDelivery(w, carrier) => DeliverFromOrders(db, w, 1, carrier);
  }

  // ------------------------------------------------------------- deliveries

  /** How many orders of a delivery log belong to a customer. */
  ghost function DeliveredTo(orders: map<OrderKey, Order>, log: seq<OrderKey>, ck: CustomerKey): int
    decreases |log|
  {
    if log == [] then 0
    else
      (if log[0] in orders && CustomerOf(log[0], orders[log[0]]) == ck then 1 else 0)
      + DeliveredTo(orders, log[1..], ck)
  }

  lemma {:induction false} DeliveredToAppend(orders: map<OrderKey, Order>, a: seq<OrderKey>, b: seq<OrderKey>,
                                             ck: CustomerKey)
    ensures DeliveredTo(orders, a + b, ck) == DeliveredTo(orders, a, ck) + DeliveredTo(orders, b, ck)
    decreases |a|
  {
    if a == [] {
      assert a + b == b;
    } else {
      assert (a + b)[1..] == a[1..] + b;
      DeliveredToAppend(orders, a[1..], b, ck);
    }
  }

  /** Customers of existing orders do not change, so a log can be read against any later state. */
  lemma {:induction false} DeliveredToLater(orders: map<OrderKey, Order>, later: map<OrderKey, Order>,
                                            log: seq<OrderKey>, ck: CustomerKey)
    requires forall k :: k in orders ==> k in later && later[k].customer == orders[k].customer
    requires forall k :: k in log ==> k in orders
    ensures DeliveredTo(later, log, ck) == DeliveredTo(orders, log, ck)
    decreases |log|
  {
    if log != [] { DeliveredToLater(orders, later, log[1..], ck); }
  }

  lemma DistrictDeliveries(db: Db, dk: DistrictKey, carrier: int, ck: CustomerKey)
    requires DeliverDistrict(db, dk, carrier).Committed? && ck in db.customer
    ensures var r := DeliverDistrict(db, dk, carrier);
            && ck in r.db.customer
            && r.db.customer[ck].deliveryCnt == db.customer[ck].deliveryCnt + DeliveredTo(r.db.orders, r.result, ck)
  {
    var r := DeliverDistrict(db, dk, carrier);
    if r.result != [] { assert r.result[1..] == []; }
  }

  lemma SameCustomers(db: Db, db': Db, log: seq<OrderKey>, carrier: int)
    requires OrdersStay(db, db', log, carrier)
    ensures forall k :: k in db.orders ==> k in db'.orders && db'.orders[k].customer == db.orders[k].customer
  {
  }

  lemma {:induction false} DeliverFromDeliveries(db: Db, w: int, d: int, carrier: int, ck: CustomerKey)
    requires Consistent(db) && 1 <= d <= 11 && ck in db.customer
    ensures DeliverFrom(db, w, d, carrier).Committed? && ck in DeliverFrom(db, w, d, carrier).db.customer
    ensures DeliverFrom(db, w, d, carrier).db.customer[ck].deliveryCnt == db.customer[ck].deliveryCnt
          + DeliveredTo(DeliverFrom(db, w, d, carrier).db.orders, DeliverFrom(db, w, d, carrier).result, ck)
    decreases 11 - d
  {
    if d < 11 {
      hide Consistent, DeliverDistrict, OrdersStay;
      var here, rest := DeliverFromSplit(db, w, d, carrier);
      DistrictDeliveries(db, DistrictKey(w, d), carrier, ck);
      DistrictOrders(db, DistrictKey(w, d), carrier);
      SameCustomers(db, here.db, here.result, carrier);
      DeliverFromDeliveries(here.db, w, d + 1, carrier, ck);
      DeliverFromOrders(here.db, w, d + 1, carrier);
      SameCustomers(here.db, rest.db, rest.result, carrier);
      DeliveredToLater(here.db.orders, rest.db.orders, here.result, ck);
      DeliveredToAppend(rest.db.orders, here.result, rest.result, ck);
    }
  }

  lemma StepDeliveries(db: Db, t: Txn, ck: CustomerKey)
    requires Consistent(db) && ck in db.customer
    ensures ck in Step(db, t).customer
    ensures Step(db, t).customer[ck].deliveryCnt
         == db.customer[ck].deliveryCnt + DeliveredTo(Step(db, t).orders, StepLog(db, t), ck)
  {
    hide Consistent, DeliverFrom;
    match t
    case DoNewOrder(inp) =>
    case DoPayment(inp) =>
    case DoDelivery(w, carrier) => DeliverFromDeliveries(db, w, 1, carrier, ck);
  }

  lemma {:induction false} RunKeepsCustomers(db: Db, txns: seq<Txn>)
    requires Consistent(db)
    ensures forall k :: k in db.orders ==>
              k in Run(db, txns).orders && Run(db, txns).orders[k].customer == db.orders[k].customer
    decreases |txns|
  {
    if txns != [] {
      hide Consistent, Step, StepLog, OrdersStay;
      var t := txns[0];
      StepKeepsConsistent(db, t);
      StepOrders(db, t);
      SameCustomers(db, Step(db, t), StepLog(db, t), if t.DoDelivery? then t.carrier else 0);
      RunKeepsCustomers(Step(db, t), txns[1..]);
    }
  }

  /** Over every run c_delivery_cnt of every customer grows by the number of his orders that are delivered. */
  lemma {:induction false} RunDeliveries(db: Db, txns: seq<Txn>, ck: CustomerKey)
    requires Consistent(db) && ck in db.customer
    ensures ck in Run(db, txns).customer
    ensures Run(db, txns).customer[ck].deliveryCnt
         == db.customer[ck].deliveryCnt + DeliveredTo(Run(db, txns).orders, RunLog(db, txns), ck)
    decreases |txns|
  {
    if txns != [] {
      hide Consistent, Step, StepLog, OrdersStay;
      var t := txns[0];
      var mid := Step(db, t);
      StepKeepsConsistent(db, t);
      StepDeliveries(db, t, ck);
      StepOrders(db, t);
      RunDeliveries(mid, txns[1..], ck);
      RunKeepsCustomers(mid, txns[1..]);
      DeliveredToLater(mid.orders, Run(mid, txns[1..]).orders, StepLog(db, t), ck);
      DeliveredToAppend(Run(mid, txns[1..]).orders, StepLog(db, t), RunLog(mid, txns[1..]), ck);
    }
  }
}
