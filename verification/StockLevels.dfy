/** What runs do to stock rows: supply counters, the +91 rule, and when quantities stay within 10 .. 100. */
module StockLevels {
  import opened Common
  import opened FiniteSums
  import opened Tables
  import opened Transactions
  import opened Consistency
  import opened Clauses

  // ---------------------------------------------------------- supply counters

  /** The lines of orders placed after the load (ids above `loaded`) that a stock row supplied. */
  ghost function SuppliedLines(lines: map<LineKey, Line>, loaded: int, sk: StockKey): set<LineKey> {
    set k | k in lines && k.o > loaded && StockKey(lines[k].supply, lines[k].item) == sk
  }

  ghost function RemoteLines(lines: map<LineKey, Line>, loaded: int, sk: StockKey): set<LineKey> {
    set k | k in SuppliedLines(lines, loaded, sk) && k.w != sk.w
  }

  datatype Supply = Supply(quantity: int, lines: int, remote: int)

  ghost function SupplyOf(lines: map<LineKey, Line>, loaded: int, sk: StockKey): Supply {
    Supply(Sum(SuppliedLines(lines, loaded, sk), QuantityOf(lines)),
           |SuppliedLines(lines, loaded, sk)|, |RemoteLines(lines, loaded, sk)|)
  }

  function Counted(r: Stock): Supply { Supply(r.ytd, r.orderCnt, r.remoteCnt) }

  /** Every stock row's s_ytd, s_order_cnt and s_remote_cnt account for the post-load lines it supplied. */
  ghost predicate SupplyCounted(db: Db, loaded: int) {
    && (forall dk :: dk in db.district ==> loaded < db.district[dk].nextOid)
    && (forall sk :: sk in db.stock ==> Counted(db.stock[sk]) == SupplyOf(db.orderLine, loaded, sk))
  }

  lemma {:induction false} PlacedSupply(db: Db, inp: NewOrderInput, o: int, i: nat, loaded: int, sk: StockKey)
    requires LinesKnown(db, inp, i) && loaded < o && sk in db.stock
    requires forall n :: 1 <= n <= i ==> LineKey(inp.w, inp.d, o, n) !in db.orderLine
    requires Counted(db.stock[sk]) == SupplyOf(db.orderLine, loaded, sk)
    ensures Counted(StockAfter(db, inp, i)[sk]) == SupplyOf(LinesAfter(db, inp, o, i), loaded, sk)
  {
    hide SupplyOf;
    if i > 0 {
      var lines := LinesAfter(db, inp, o, i - 1);
      var k := LineKey(inp.w, inp.d, o, i);
      PlacedSupply(db, inp, o, i - 1, loaded, sk);
      assert k !in lines by { LinesAfterRows(db, inp, o, i - 1); }
      SupplyOfNewLine(lines, k, NewLine(db, inp.ol[i - 1]), loaded, sk);
    }
  }

  lemma SupplyOfNewLine(lines: map<LineKey, Line>, k: LineKey, line: Line, loaded: int, sk: StockKey)
    requires k !in lines && k.o > loaded
    ensures var s := SupplyOf(lines, loaded, sk);
      SupplyOf(lines[k := line], loaded, sk) ==
        if StockKey(line.supply, line.item) != sk then s
        else Supply(s.quantity + line.quantity, s.lines + 1, s.remote + if line.supply == k.w then 0 else 1)
  {
    hide Sum;
    var lines' := lines[k := line];
    var before := SuppliedLines(lines, loaded, sk);
    SumCongruent(before, QuantityOf(lines), QuantityOf(lines'));
    if StockKey(line.supply, line.item) == sk {
      SuppliedGrows(lines, k, line, loaded, sk);
      SumInsert(before, QuantityOf(lines'), k);
    } else {
      SuppliedSame(lines, k, line, loaded, sk);
    }
  }

  lemma SuppliedGrows(lines: map<LineKey, Line>, k: LineKey, line: Line, loaded: int, sk: StockKey)
    requires k !in lines && k.o > loaded && StockKey(line.supply, line.item) == sk
    ensures SuppliedLines(lines[k := line], loaded, sk) == SuppliedLines(lines, loaded, sk) + {k}
    ensures RemoteLines(lines[k := line], loaded, sk)
         == RemoteLines(lines, loaded, sk) + if k.w != sk.w then {k} else {}
  {
    assert SuppliedLines(lines[k := line], loaded, sk) == SuppliedLines(lines, loaded, sk) + {k};
  }

  lemma SuppliedSame(lines: map<LineKey, Line>, k: LineKey, line: Line, loaded: int, sk: StockKey)
    requires k !in lines && StockKey(line.supply, line.item) != sk
    ensures SuppliedLines(lines[k := line], loaded, sk) == SuppliedLines(lines, loaded, sk)
    ensures RemoteLines(lines[k := line], loaded, sk) == RemoteLines(lines, loaded, sk)
  {
    assert SuppliedLines(lines[k := line], loaded, sk) == SuppliedLines(lines, loaded, sk);
  }

  /** What a Delivery leaves alone: stock, districts, and every line but for its delivery mark. */
  ghost predicate OnlyDelivers(db: Db, db': Db) {
    && db'.stock == db.stock && db'.district == db.district
    && db'.orderLine.Keys == db.orderLine.Keys
    && forall k :: k in db.orderLine ==>
         db'.orderLine[k].(delivered := false) == db.orderLine[k].(delivered := false)
  }

  lemma {:induction false} DeliverFromOnlyDelivers(db: Db, w: int, d: int, carrier: int)
    requires Consistent(db) && 1 <= d <= 11
    ensures DeliverFrom(db, w, d, carrier).Committed?
    ensures OnlyDelivers(db, DeliverFrom(db, w, d, carrier).db)
    decreases 11 - d
  {
    if d < 11 {
      var here, rest := DeliverFromSplit(db, w, d, carrier);
      DeliverFromOnlyDelivers(here.db, w, d + 1, carrier);
      assert OnlyDelivers(db, here.db);
    }
  }

  lemma SupplySurvivesDelivery(db: Db, db': Db, loaded: int)
    requires SupplyCounted(db, loaded) && OnlyDelivers(db, db')
    ensures SupplyCounted(db', loaded)
  {
    assert forall k :: k in db.orderLine ==> db'.orderLine[k].supply == db.orderLine[k].(delivered := false).supply;
    assert forall k :: k in db.orderLine ==> db'.orderLine[k].item == db.orderLine[k].(delivered := false).item;
    assert forall k :: k in db.orderLine ==> db'.orderLine[k].quantity == db.orderLine[k].(delivered := false).quantity;
    forall sk ensures SupplyOf(db'.orderLine, loaded, sk) == SupplyOf(db.orderLine, loaded, sk) {
      assert SuppliedLines(db'.orderLine, loaded, sk) == SuppliedLines(db.orderLine, loaded, sk);
      assert RemoteLines(db'.orderLine, loaded, sk) == RemoteLines(db.orderLine, loaded, sk);
      SumCongruent(SuppliedLines(db.orderLine, loaded, sk), QuantityOf(db.orderLine), QuantityOf(db'.orderLine));
    }
  }

  lemma StepSupply(db: Db, t: Txn, loaded: int)
    requires Consistent(db) && SupplyCounted(db, loaded)
    ensures SupplyCounted(Step(db, t), loaded)
  {
    match t
    case DoNewOrder(inp) =>
      if NewOrder(db, inp).Committed? {
        var o := db.district[inp.District()].nextOid;
        NoFailure(db, inp, o);
        forall sk | sk in db.stock
          ensures Counted(StockAfter(db, inp, inp.olCnt)[sk]) == SupplyOf(LinesAfter(db, inp, o, inp.olCnt), loaded, sk)
        {
          PlacedSupply(db, inp, o, inp.olCnt, loaded, sk);
        }
      }
    case DoPayment(_) =>
    case DoDelivery(w, carrier) =>
      DeliverFromOnlyDelivers(db, w, 1, carrier);
      SupplySurvivesDelivery(db, Step(db, t), loaded);
  }

  lemma {:induction false} RunSupply(db: Db, txns: seq<Txn>, loaded: int)
    requires Consistent(db) && SupplyCounted(db, loaded)
    ensures SupplyCounted(Run(db, txns), loaded)
    decreases |txns|
  {
    if txns != [] {
      StepKeepsConsistent(db, txns[0]);
      StepSupply(db, txns[0], loaded);
      RunSupply(Step(db, txns[0]), txns[1..], loaded);
    }
  }

  // ---------------------------------------------------------------- +91 rule

  function Restocks(n: nat): int { 91 * n }

  /** `b` is `a` plus some number of restockings of 91. */
  ghost predicate Restocked(a: int, b: int) {
    exists n: nat :: b == a + Restocks(n)
  }

  function Drift(stock: map<StockKey, Stock>, sk: StockKey): int
    requires sk in stock
  {
    stock[sk].quantity + stock[sk].ytd
  }

  /** s_quantity + s_ytd grows only by multiples of 91. */
  ghost predicate GrowsByRestocks(stock: map<StockKey, Stock>, stock': map<StockKey, Stock>) {
    stock'.Keys == stock.Keys
    && forall sk :: sk in stock ==>
         Restocked(Drift(stock, sk), Drift(stock', sk))
  }

  lemma RestockedTwice(a: int, b: int, c: int)
    requires Restocked(a, b) && Restocked(b, c)
    ensures Restocked(a, c)
  {
    var m: nat :| b == a + Restocks(m);
    var n: nat :| c == b + Restocks(n);
    assert c == a + Restocks(m + n);
  }

  lemma TakeRestocks(q: int, read: int, quantity: int, ytd: int)
    ensures Restocked(q + ytd, (q - Decrement(read, quantity)) + (ytd + quantity))
  {
    assert q - Decrement(read, quantity) + ytd + quantity
        == q + ytd + if read >= quantity + 10 then Restocks(0) else Restocks(1);
  }

  lemma {:induction false} StockAfterGrows(db: Db, inp: NewOrderInput, i: nat, sk: StockKey)
    requires LinesKnown(db, inp, i) && sk in db.stock
    ensures Restocked(Drift(db.stock, sk), Drift(StockAfter(db, inp, i), sk))
  {
    if i == 0 {
      assert Drift(db.stock, sk) == Drift(db.stock, sk) + Restocks(0);
    } else {
      var s := StockAfter(db, inp, i - 1);
      StockAfterGrows(db, inp, i - 1, sk);
      if StockKeyOf(inp.ol[i - 1]) == sk {
        TakeRestocks(s[sk].quantity, db.stock[sk].quantity, inp.ol[i - 1].quantity, s[sk].ytd);
        RestockedTwice(Drift(db.stock, sk), Drift(s, sk), Drift(StockAfter(db, inp, i), sk));
      }
    }
  }

  lemma GrowsTwice(a: map<StockKey, Stock>, b: map<StockKey, Stock>, c: map<StockKey, Stock>)
    requires GrowsByRestocks(a, b) && GrowsByRestocks(b, c)
    ensures GrowsByRestocks(a, c)
  {
    forall sk | sk in a ensures Restocked(Drift(a, sk), Drift(c, sk)) {
      RestockedTwice(Drift(a, sk), Drift(b, sk), Drift(c, sk));
    }
  }

  lemma NothingTaken(a: map<StockKey, Stock>)
    ensures GrowsByRestocks(a, a)
  {
    forall sk | sk in a ensures Restocked(Drift(a, sk), Drift(a, sk)) {
      assert Drift(a, sk) == Drift(a, sk) + Restocks(0);
    }
  }

  lemma StepGrows(db: Db, t: Txn)
    requires Consistent(db)
    ensures GrowsByRestocks(db.stock, Step(db, t).stock)
  {
    NothingTaken(db.stock);
    match t
    case DoNewOrder(inp) =>
      if NewOrder(db, inp).Committed? {
        NoFailure(db, inp, db.district[inp.District()].nextOid);
        forall sk | sk in db.stock
          ensures Restocked(Drift(db.stock, sk), Drift(StockAfter(db, inp, inp.olCnt), sk))
        {
          StockAfterGrows(db, inp, inp.olCnt, sk);
        }
      }
    case DoPayment(_) =>
    case DoDelivery(w, carrier) => DeliverFromOnlyDelivers(db, w, 1, carrier);
  }

  lemma {:induction false} RunGrows(db: Db, txns: seq<Txn>)
    requires Consistent(db)
    ensures GrowsByRestocks(db.stock, Run(db, txns).stock)
    decreases |txns|
  {
    if txns == [] {
      NothingTaken(db.stock);
    } else {
      StepKeepsConsistent(db, txns[0]);
      StepGrows(db, txns[0]);
      RunGrows(Step(db, txns[0]), txns[1..]);
      GrowsTwice(db.stock, Step(db, txns[0]).stock, Run(db, txns).stock);
    }
  }

  // ----------------------------------------------------------- quantity range

  ghost predicate InRange(stock: map<StockKey, Stock>) {
    forall sk :: sk in stock ==> 10 <= stock[sk].quantity <= 100
  }

  /** No two lines of the order name the same item at the same supplying warehouse. */
  predicate DistinctPairs(inp: NewOrderInput) {
    forall i, j :: 0 <= i < j < inp.olCnt <= 15 ==> StockKeyOf(inp.ol[i]) != StockKeyOf(inp.ol[j])
  }

  /** The requests the generator makes, apart from the deliberately unknown item. */
  predicate Orderable(inp: NewOrderInput) {
    1 <= inp.olCnt <= 15 && forall i :: 0 <= i < inp.olCnt ==> 1 <= inp.ol[i].quantity <= 10 && inp.ol[i].item != 0
  }

  /** With distinct pairs a row is touched at most once, and then by a decrement computed from its own quantity. */
  lemma {:induction false} TouchedOnce(db: Db, inp: NewOrderInput, i: nat, sk: StockKey)
    requires LinesKnown(db, inp, i) && i <= inp.olCnt <= 15 && DistinctPairs(inp) && sk in db.stock
    ensures var q := StockAfter(db, inp, i)[sk].quantity;
      || (q == db.stock[sk].quantity && forall j :: 0 <= j < i ==> StockKeyOf(inp.ol[j]) != sk)
      || (exists j :: 0 <= j < i && StockKeyOf(inp.ol[j]) == sk
            && q == db.stock[sk].quantity - Decrement(db.stock[sk].quantity, inp.ol[j].quantity))
  {
    if i > 0 {
      TouchedOnce(db, inp, i - 1, sk);
      if StockKeyOf(inp.ol[i - 1]) == sk {
        assert forall j :: 0 <= j < i - 1 ==> StockKeyOf(inp.ol[j]) != sk;
      }
    }
  }

  lemma DistinctKeepsRange(db: Db, inp: NewOrderInput)
    requires InRange(db.stock) && DistinctPairs(inp)
    requires forall i :: 0 <= i < inp.olCnt <= 15 ==> 1 <= inp.ol[i].quantity <= 10
    ensures InRange(After(db, NewOrder(db, inp)).stock)
  {
    if NewOrder(db, inp).Committed? {
      NoFailure(db, inp, db.district[inp.District()].nextOid);
      forall sk | sk in db.stock ensures 10 <= StockAfter(db, inp, inp.olCnt)[sk].quantity <= 100 {
        TouchedOnce(db, inp, inp.olCnt, sk);
      }
    }
  }

  ghost predicate OrdersDistinctPairs(t: Txn) {
    t.DoNewOrder? ==>
      && DistinctPairs(t.no)
      && forall i :: 0 <= i < t.no.olCnt <= 15 ==> 1 <= t.no.ol[i].quantity <= 10
  }

  /** Every run whose orders have pairwise distinct pairs and quantities 1 .. 10 keeps the range. */
  lemma {:induction false} RunKeepsRange(db: Db, txns: seq<Txn>)
    requires Consistent(db) && InRange(db.stock)
    requires forall i :: 0 <= i < |txns| ==> OrdersDistinctPairs(txns[i])
    ensures InRange(Run(db, txns).stock)
    decreases |txns|
  {
    if txns != [] {
      var t := txns[0];
      StepKeepsConsistent(db, t);
      match t {
        case DoNewOrder(inp) => DistinctKeepsRange(db, inp);
        case DoPayment(_) =>
        case DoDelivery(w, carrier) => DeliverFromOnlyDelivers(db, w, 1, carrier);
      }
      RunKeepsRange(Step(db, t), txns[1..]);
    }
  }

  // A repeated pair: some consistent state in range is taken out of range.

  ghost function Requested(inp: NewOrderInput, sk: StockKey, i: nat): int
    requires i <= 15
  {
    if i == 0 then 0
    else Requested(inp, sk, i - 1) + if StockKeyOf(inp.ol[i - 1]) == sk then inp.ol[i - 1].quantity else 0
  }

  ghost function Largest(inp: NewOrderInput, sk: StockKey, i: nat): (m: int)
    requires i <= 15
    ensures 0 <= m && forall j :: 0 <= j < i && StockKeyOf(inp.ol[j]) == sk ==> inp.ol[j].quantity <= m
  {
    if i == 0 then 0
    else
      var m := Largest(inp, sk, i - 1);
      if StockKeyOf(inp.ol[i - 1]) == sk && inp.ol[i - 1].quantity > m then inp.ol[i - 1].quantity else m
  }

  lemma {:induction false} RequestedExceedsLargest(inp: NewOrderInput, sk: StockKey, i: nat)
    requires i <= inp.olCnt && Orderable(inp)
    ensures Largest(inp, sk, i) <= Requested(inp, sk, i) && Largest(inp, sk, i) <= 10
    ensures (exists j :: 0 <= j < i && StockKeyOf(inp.ol[j]) == sk) ==> 1 <= Largest(inp, sk, i)
    ensures (exists j, l :: 0 <= j < l < i && StockKeyOf(inp.ol[j]) == sk == StockKeyOf(inp.ol[l])) ==>
              Largest(inp, sk, i) < Requested(inp, sk, i)
  {
    if i > 0 { RequestedExceedsLargest(inp, sk, i - 1); }
  }

  lemma {:induction false} AllTaken(db: Db, inp: NewOrderInput, i: nat, sk: StockKey)
    requires LinesKnown(db, inp, i) && i <= inp.olCnt <= 15 && sk in db.stock
    requires db.stock[sk].quantity == 10 + Largest(inp, sk, inp.olCnt)
    ensures StockAfter(db, inp, i)[sk].quantity == db.stock[sk].quantity - Requested(inp, sk, i)
  {
    if i > 0 { AllTaken(db, inp, i - 1, sk); }
  }

  ghost function ItemsOf(inp: NewOrderInput): set<int>
    requires Orderable(inp)
  {
    set j | 0 <= j < inp.olCnt :: inp.ol[j].item
  }

  ghost function KeysOf(inp: NewOrderInput): set<StockKey>
    requires Orderable(inp)
  {
    set j | 0 <= j < inp.olCnt :: StockKeyOf(inp.ol[j])
  }

  /** A database without orders in which exactly this request can be placed. */
  ghost function Fresh(inp: NewOrderInput, quantity: int): Db
    requires Orderable(inp)
  {
    Db(map[inp.w := Warehouse(0)],
       map[inp.District() := District(0, 1)],
       map[CustomerKey(inp.w, inp.d, inp.c) := Customer(0, 0, 0, 0, "", "", true)],
       map i | i in ItemsOf(inp) :: Item(100),
       map k | k in KeysOf(inp) :: Stock(quantity, 0, 0, 0),
       map[], {}, map[], [])
  }

  lemma FreshConsistent(inp: NewOrderInput, quantity: int)
    requires Orderable(inp)
    ensures Consistent(Fresh(inp, quantity))
  {
    hide Sum, Consistent;
    var db := Fresh(inp, quantity);
    ConsistentMeans(db);
    assert DistrictsOf(db, inp.w) == {inp.District()};
    SumZero(DistrictsOf(db, inp.w), YtdOf(db.district));
    assert PendingOf(db, inp.District()) == {};
    forall ck ensures DeliveredAmount(db, ck) == 0 {
      SumZero(DeliveredLines(db, ck), AmountOf(db.orderLine));
    }
  }

  lemma FreshLines(inp: NewOrderInput, db: Db)
    requires Orderable(inp) && db.item.Keys == ItemsOf(inp) && db.stock.Keys == KeysOf(inp) && db.orderLine == map[]
    ensures FirstFailure(db, inp, 1, 0).None?
  {
    forall j | 0 <= j < inp.olCnt
      ensures LineFailure(db, inp, 1, j).None?
    {
      assert inp.ol[j].item in ItemsOf(inp) && StockKeyOf(inp.ol[j]) in KeysOf(inp);
    }
  }

  lemma OrderCommits(db: Db, inp: NewOrderInput, o: int)
    requires 1 <= inp.olCnt <= 15 && inp.w in db.warehouse && inp.District() in db.district
    requires CustomerKey(inp.w, inp.d, inp.c) in db.customer && o == db.district[inp.District()].nextOid
    requires inp.Order(o) !in db.newOrder && inp.Order(o) !in db.orders
    requires FirstFailure(db, inp, o, 0).None?
    ensures LinesKnown(db, inp, inp.olCnt)
    ensures After(db, NewOrder(db, inp)).stock == StockAfter(db, inp, inp.olCnt)
  {
    NoFailure(db, inp, o);
  }

  lemma RepeatedPairBreaksRange(inp: NewOrderInput, i: nat, j: nat) returns (db: Db)
    requires Orderable(inp) && i < j < inp.olCnt && StockKeyOf(inp.ol[i]) == StockKeyOf(inp.ol[j])
    ensures Consistent(db) && InRange(db.stock) && !InRange(After(db, NewOrder(db, inp)).stock)
  {
    var sk := StockKeyOf(inp.ol[i]);
    RequestedExceedsLargest(inp, sk, inp.olCnt);
    var quantity := 10 + Largest(inp, sk, inp.olCnt);
    db := Fresh(inp, quantity);
    FreshConsistent(inp, quantity);
    FreshLines(inp, db);
    OrderCommits(db, inp, 1);
    assert sk in KeysOf(inp);
    AllTaken(db, inp, inp.olCnt, sk);
    assert sk in StockAfter(db, inp, inp.olCnt);
  }

  ghost predicate KeepsRange(db: Db, inp: NewOrderInput) {
    Consistent(db) && InRange(db.stock) ==> InRange(After(db, NewOrder(db, inp)).stock)
  }

  /** Because the stock read does not see earlier lines of the same order, the range 10 .. 100 is kept from
      every consistent state exactly when the order's (item, supplier) pairs are pairwise distinct. */
  lemma RangeKeptIffDistinct(inp: NewOrderInput)
    requires Orderable(inp)
    ensures DistinctPairs(inp) <==> forall db: Db :: KeepsRange(db, inp)
  {
    if DistinctPairs(inp) {
      forall db: Db ensures KeepsRange(db, inp) {
        if Consistent(db) && InRange(db.stock) { DistinctKeepsRange(db, inp); }
      }
    } else {
      var i, j :| 0 <= i < j < inp.olCnt && StockKeyOf(inp.ol[i]) == StockKeyOf(inp.ol[j]);
      var db := RepeatedPairBreaksRange(inp, i, j);
      assert !KeepsRange(db, inp);
    }
  }
}
