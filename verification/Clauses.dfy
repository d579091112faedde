/** The consistency conditions that follow from the kept invariants, and the order in which runs deliver. */
module Clauses {
  import opened Common
  import opened FiniteSums
  import opened Tables
  import opened Transactions
  import opened Consistency

  /** Clauses 3.3.2.2 and 3.3.2.3: the last id handed out is the largest order id, and the pending ids
      are exactly the interval that ends there. */
  lemma PendingInterval(db: Db, dk: DistrictKey)
    requires Consistent(db) && dk in db.district
    ensures forall k :: k in OrdersOf(db, dk) ==> k.o <= db.district[dk].nextOid - 1
    ensures 1 < db.district[dk].nextOid ==> OrderKey(dk.w, dk.d, db.district[dk].nextOid - 1) in OrdersOf(db, dk)
    ensures (set k | k in PendingOf(db, dk) :: k.o) == Interval(Low(db, dk), db.district[dk].nextOid)
    ensures 1 <= Low(db, dk)
  {
    ConsistentMeans(db);
    var ids := set k | k in PendingOf(db, dk) :: k.o;
    forall o ensures o in ids <==> Low(db, dk) <= o < db.district[dk].nextOid {
      if o in ids {
        var k :| k in PendingOf(db, dk) && k.o == o;
        assert k == OrderKey(dk.w, dk.d, o);
      }
      if Low(db, dk) <= o < db.district[dk].nextOid {
        assert OrderKey(dk.w, dk.d, o) in PendingOf(db, dk);
      }
    }
    if PendingOf(db, dk) != {} {
      OldestIsLow(db, dk);
    }
  }

  /** Clause 3.3.2.6: an order has as many lines as it says. */
  lemma LinesPerOrder(db: Db, ok: OrderKey)
    requires LineNumbers(db) && ok in db.orders
    ensures |LinesOfOrder(db, ok)| == db.orders[ok].olCnt
  {
    LineKeysCount(LinesOfOrder(db, ok), ok, db.orders[ok].olCnt);
  }

  lemma {:induction false} LineKeysCount(keys: set<LineKey>, ok: OrderKey, n: int)
    requires 0 <= n
    requires forall k :: k in keys <==> OrderOf(k) == ok && 1 <= k.n <= n
    ensures |keys| == n
    decreases n
  {
    if n == 0 {
      assert keys == {};
    } else {
      var last := LineKey(ok.w, ok.d, ok.o, n);
      LineKeysCount(keys - {last}, ok, n - 1);
    }
  }

  /** Clause 3.3.2.4: a district's line counts add up to its number of order lines. */
  lemma LinesPerDistrict(db: Db, dk: DistrictKey)
    requires LineNumbers(db)
    ensures |LinesOfDistrict(db, dk)| == Sum(OrdersOf(db, dk), LineCountOf(db.orders))
  {
    var rows, groups := LinesOfDistrict(db, dk), OrdersOf(db, dk);
    var group := (k: LineKey) => OrderOf(k);
    forall ok | ok in groups
      ensures |Members(rows, group, ok)| == LineCountOf(db.orders)(ok)
    {
      LinesPerOrder(db, ok);
      assert Members(rows, group, ok) == LinesOfOrder(db, ok);
    }
    CountByGroup(rows, groups, group, LineCountOf(db.orders));
  }

  // ----------------------------------------------------------- Clause 3.3.2.5

  /** Clause 3.3.2.5 for one district: an order has no carrier iff it is pending. */
  ghost predicate CarrierIffDelivered(db: Db, dk: DistrictKey) {
    forall k :: k in OrdersOf(db, dk) ==> (db.orders[k].carrier.None? <==> k in db.newOrder)
  }

  /** Pending orders that already have a carrier. */
  ghost function Mislabelled(db: Db): set<OrderKey> {
    set k | k in db.newOrder && k in db.orders && db.orders[k].carrier.Some?
  }

  lemma DistrictMislabelled(db: Db, dk: DistrictKey, carrier: int)
    requires Consistent(db)
    ensures DeliverDistrict(db, dk, carrier).Committed?
    ensures MislabelledShrinks(db, DeliverDistrict(db, dk, carrier).db)
  {
    ConsistentMeans(db);
    if PendingOf(db, dk) != {} {
      OldestIsLow(db, dk);
    }
  }

  ghost predicate MislabelledShrinks(db: Db, db': Db) {
    db'.newOrder <= db.newOrder && Mislabelled(db') == Mislabelled(db) * db'.newOrder
  }

  lemma DeliverFromSplit(db: Db, w: int, d: int, carrier: int)
    returns (here: Outcome<seq<OrderKey>>, rest: Outcome<seq<OrderKey>>)
    requires Consistent(db) && 1 <= d < 11
    ensures here == DeliverDistrict(db, DistrictKey(w, d), carrier) && here.Committed? && Consistent(here.db)
    ensures MislabelledShrinks(db, here.db)
    ensures rest == DeliverFrom(here.db, w, d + 1, carrier) && rest.Committed?
    ensures DeliverFrom(db, w, d, carrier) == Committed(rest.db, here.result + rest.result)
  {
    here := DeliverDistrict(db, DistrictKey(w, d), carrier);
    DistrictKeepsConsistent(db, DistrictKey(w, d), carrier);
    DistrictMislabelled(db, DistrictKey(w, d), carrier);
    DeliverFromKeepsConsistent(here.db, w, d + 1, carrier);
    rest := DeliverFrom(here.db, w, d + 1, carrier);
    DeliverFromStep(db, w, d, carrier, here, rest);
  }

  lemma {:induction false} DeliverFromMislabelled(db: Db, w: int, d: int, carrier: int)
    requires Consistent(db) && 1 <= d <= 11
    ensures DeliverFrom(db, w, d, carrier).Committed?
    ensures MislabelledShrinks(db, DeliverFrom(db, w, d, carrier).db)
    decreases 11 - d
  {
    if d < 11 {
      var here, rest := DeliverFromSplit(db, w, d, carrier);
      DeliverFromMislabelled(here.db, w, d + 1, carrier);
      ShrinksTwice(db, here.db, rest.db);
    }
  }

  lemma ShrinksTwice(a: Db, b: Db, c: Db)
    requires MislabelledShrinks(a, b) && MislabelledShrinks(b, c)
    ensures MislabelledShrinks(a, c)
  {
  }

  /** No step mislabels an order: a mislabelled order was mislabelled before, and it stays so exactly
      until it is delivered. */
  lemma StepMislabelled(db: Db, t: Txn)
    requires Consistent(db)
    ensures Mislabelled(Step(db, t)) == Mislabelled(db) * Step(db, t).newOrder
  {
    hide Consistent, DeliverFrom;
    match t
    case DoNewOrder(inp) => NewOrderMislabelled(db, inp);
    case DoPayment(_) =>
    case DoDelivery(w, carrier) => DeliverFromMislabelled(db, w, 1, carrier);
  }

  lemma NewOrderMislabelled(db: Db, inp: NewOrderInput)
    requires Consistent(db)
    ensures Mislabelled(After(db, NewOrder(db, inp))) == Mislabelled(db) * After(db, NewOrder(db, inp)).newOrder
  {
    hide Consistent, StockAfter, LinesAfter, FirstFailure;
    ConsistentMeans(db);
    if NewOrder(db, inp).Committed? {
      var db' := NewOrder(db, inp).db;
      var ok := inp.Order(db.district[inp.District()].nextOid);
      assert db'.newOrder == db.newOrder + {ok} && db'.orders[ok].carrier.None?;
    }
  }

  lemma ClauseFiveKept(db: Db, t: Txn, dk: DistrictKey)
    requires Consistent(db) && CarrierIffDelivered(db, dk)
    ensures CarrierIffDelivered(Step(db, t), dk)
  {
    StepMislabelled(db, t);
    StepKeepsConsistent(db, t);
    var db' := Step(db, t);
    ConsistentMeans(db);
    ConsistentMeans(db');
    forall k | k in OrdersOf(db', dk)
      ensures db'.orders[k].carrier.None? <==> k in db'.newOrder
    {
      assert k in Mislabelled(db') ==> k in Mislabelled(db);
      assert k in Mislabelled(db) ==> k in OrdersOf(db, dk);
    }
  }

  // ------------------------------------------------------- order of deliveries

  /** The ids in a delivery log that belong to one district. */
  ghost function IdsOf(log: seq<OrderKey>, dk: DistrictKey): seq<int> {
    if log == [] then []
    else (if DistrictOf(log[0]) == dk then [log[0].o] else []) + IdsOf(log[1..], dk)
  }

  ghost function Range(lo: int, hi: int): (r: seq<int>)
    requires lo <= hi
    ensures |r| == hi - lo && forall i :: 0 <= i < |r| ==> r[i] == lo + i
    decreases hi - lo
  {
    if lo == hi then [] else Range(lo, hi - 1) + [hi - 1]
  }

  lemma {:induction false} IdsOfAppend(a: seq<OrderKey>, b: seq<OrderKey>, dk: DistrictKey)
    ensures IdsOf(a + b, dk) == IdsOf(a, dk) + IdsOf(b, dk)
    decreases |a|
  {
    if a == [] {
      assert a + b == b;
    } else {
      IdsOfAppend(a[1..], b, dk);
      assert (a + b)[1..] == a[1..] + b;
    }
  }

  /** The log names exactly the ids from the old low end up to the new one, in ascending order. */
  ghost predicate LogMatches(db: Db, log: seq<OrderKey>, db': Db, dk: DistrictKey) {
    dk in db.district && dk in db'.district && Low(db, dk) <= Low(db', dk)
    && IdsOf(log, dk) == Range(Low(db, dk), Low(db', dk))
  }

  lemma LogsCompose(db: Db, log: seq<OrderKey>, db1: Db, log1: seq<OrderKey>, db2: Db, dk: DistrictKey)
    requires LogMatches(db, log, db1, dk) && LogMatches(db1, log1, db2, dk)
    ensures LogMatches(db, log + log1, db2, dk)
  {
    IdsOfAppend(log, log1, dk);
    assert Range(Low(db, dk), Low(db1, dk)) + Range(Low(db1, dk), Low(db2, dk)) == Range(Low(db, dk), Low(db2, dk));
  }

  lemma DistrictLog(db: Db, here: DistrictKey, carrier: int, dk: DistrictKey)
    requires Consistent(db) && dk in db.district
    ensures DeliverDistrict(db, here, carrier).Committed?
    ensures LogMatches(db, DeliverDistrict(db, here, carrier).result, DeliverDistrict(db, here, carrier).db, dk)
    ensures forall k :: k in DeliverDistrict(db, here, carrier).result ==> DistrictOf(k) in db.district
  {
    hide Consistent, LinesOfOrder;
    ConsistentMeans(db);
    if PendingOf(db, here) != {} {
      OldestIsLow(db, here);
      DeliveredLow(db, here, carrier, DeliverDistrict(db, here, carrier).db);
      assert IdsOf([Oldest(db, here)][1..], dk) == [];
    }
  }

  lemma LogSplit(db: Db, w: int, d: int, carrier: int, dk: DistrictKey)
    returns (here: Outcome<seq<OrderKey>>, rest: Outcome<seq<OrderKey>>)
    requires Consistent(db) && 1 <= d < 11 && dk in db.district
    ensures here == DeliverDistrict(db, DistrictKey(w, d), carrier) && here.Committed? && Consistent(here.db)
    ensures LogMatches(db, here.result, here.db, dk)
    ensures rest == DeliverFrom(here.db, w, d + 1, carrier) && rest.Committed?
    ensures DeliverFrom(db, w, d, carrier) == Committed(rest.db, here.result + rest.result)
  {
    here, rest := DeliverFromSplit(db, w, d, carrier);
    DistrictLog(db, DistrictKey(w, d), carrier, dk);
  }

  lemma {:induction false} DeliverFromLog(db: Db, w: int, d: int, carrier: int, dk: DistrictKey)
    requires Consistent(db) && 1 <= d <= 11 && dk in db.district
    ensures DeliverFrom(db, w, d, carrier).Committed?
    ensures LogMatches(db, DeliverFrom(db, w, d, carrier).result, DeliverFrom(db, w, d, carrier).db, dk)
    decreases 11 - d
  {
    if d < 11 {
      var here, rest := LogSplit(db, w, d, carrier, dk);
      DeliverFromLog(here.db, w, d + 1, carrier, dk);
      LogsCompose(db, here.result, here.db, rest.result, rest.db, dk);
    }
  }

  lemma StepLogMatches(db: Db, t: Txn, dk: DistrictKey)
    requires Consistent(db) && dk in db.district
    ensures LogMatches(db, StepLog(db, t), Step(db, t), dk)
  {
    ConsistentMeans(db);
    match t
    case DoNewOrder(inp) =>
      if NewOrder(db, inp).Committed? { PlacedLow(db, inp, Step(db, t)); }
    case DoPayment(inp) =>
      if Payment(db, inp).Committed? { PaidStructure(db, inp, Step(db, t)); }
    case DoDelivery(w, carrier) => DeliverFromLog(db, w, 1, carrier, dk);
  }

  /** Over any run each district's orders are delivered in id order, without a gap and without a repeat. */
  lemma {:induction false} RunLogMatches(db: Db, txns: seq<Txn>, dk: DistrictKey)
    requires Consistent(db) && dk in db.district
    ensures LogMatches(db, RunLog(db, txns), Run(db, txns), dk)
    decreases |txns|
  {
    if txns != [] {
      StepKeepsConsistent(db, txns[0]);
      StepLogMatches(db, txns[0], dk);
      RunLogMatches(Step(db, txns[0]), txns[1..], dk);
      LogsCompose(db, StepLog(db, txns[0]), Step(db, txns[0]), RunLog(Step(db, txns[0]), txns[1..]), Run(db, txns), dk);
    }
  }

  lemma {:induction false} IdsOfOccurrences(log: seq<OrderKey>, ok: OrderKey)
    ensures multiset(log)[ok] == multiset(IdsOf(log, DistrictOf(ok)))[ok.o]
    decreases |log|
  {
    if log != [] {
      IdsOfOccurrences(log[1..], ok);
      assert log == [log[0]] + log[1..];
    }
  }

  lemma {:induction false} RangeOccurrences(lo: int, hi: int, x: int)
    requires lo <= hi
    ensures multiset(Range(lo, hi))[x] == if lo <= x < hi then 1 else 0
    decreases hi - lo
  {
    if lo < hi { RangeOccurrences(lo, hi - 1, x); }
  }

  /** No order is credited twice, and it is credited during the run exactly when it was pending (or was
      placed during the run) and is below the new low end. */
  lemma CreditedOnce(db: Db, txns: seq<Txn>, ok: OrderKey)
    requires Consistent(db) && DistrictOf(ok) in db.district
    ensures DistrictOf(ok) in Run(db, txns).district
    ensures multiset(RunLog(db, txns))[ok]
         == if Low(db, DistrictOf(ok)) <= ok.o < Low(Run(db, txns), DistrictOf(ok)) then 1 else 0
  {
    RunLogMatches(db, txns, DistrictOf(ok));
    IdsOfOccurrences(RunLog(db, txns), ok);
    RangeOccurrences(Low(db, DistrictOf(ok)), Low(Run(db, txns), DistrictOf(ok)), ok.o);
  }
}
