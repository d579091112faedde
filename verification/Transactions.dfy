/** What each stored procedure does to the tables: a new state and a result, or an abort that changes nothing. */
module Transactions {
  import opened Common
  import opened FiniteSums
  import opened Tables

  datatype Error =
    | BadLineCount
    | StatementFailed(name: string)
    | ItemNotFound
    | DuplicateKey

  datatype Outcome<+T> = Committed(db: Db, result: T) | Aborted(error: Error)

  // ---------------------------------------------------------------- New-Order

  datatype LineRequest = LineRequest(item: int, supply: int, quantity: int)

  /** The fifteen line arguments; an absent one arrives as three zeros. */
  type LineRequests = s: seq<LineRequest> | |s| == 15 witness seq(15, _ => LineRequest(0, 0, 0))

  datatype NewOrderInput = NewOrderInput(w: int, d: int, c: int, allLocal: int, olCnt: int, ol: LineRequests) {
    function District(): DistrictKey { DistrictKey(w, d) }
    function Order(o: int): OrderKey { OrderKey(w, d, o) }
  }

  function StockKeyOf(l: LineRequest): StockKey { StockKey(l.supply, l.item) }

  /** How much is taken from a stock row whose quantity was read as `read`. */
  function Decrement(read: int, quantity: int): int {
    if read >= quantity + 10 then quantity else quantity - 91
  }

  /** Why line `i` (from 0) of order `o` cannot be placed, if it cannot. */
  function LineFailure(db: Db, inp: NewOrderInput, o: int, i: nat): Option<Error>
    requires i < 15
  {
    if inp.ol[i].item == 0 || inp.ol[i].item !in db.item then Some(ItemNotFound)
    else if StockKeyOf(inp.ol[i]) !in db.stock then Some(StatementFailed("NEW_ORDER_8"))
    else if LineKey(inp.w, inp.d, o, i + 1) in db.orderLine then Some(DuplicateKey)
    else None
  }

  function FirstFailure(db: Db, inp: NewOrderInput, o: int, i: nat): (r: Option<Error>)
    requires i <= inp.olCnt <= 15
    ensures r.None? <==> forall j :: i <= j < inp.olCnt ==> LineFailure(db, inp, o, j).None?
    decreases inp.olCnt - i
  {
    if i == inp.olCnt then None
    else
      var f := LineFailure(db, inp, o, i);
      if f.Some? then f else FirstFailure(db, inp, o, i + 1)
  }

  ghost predicate LinesKnown(db: Db, inp: NewOrderInput, i: int) {
    0 <= i <= 15 && forall j :: 0 <= j < i ==> inp.ol[j].item in db.item && StockKeyOf(inp.ol[j]) in db.stock
  }

  lemma NoFailure(db: Db, inp: NewOrderInput, o: int)
    requires 0 <= inp.olCnt <= 15 && FirstFailure(db, inp, o, 0).None?
    ensures LinesKnown(db, inp, inp.olCnt)
    ensures forall n :: 1 <= n <= inp.olCnt ==> LineKey(inp.w, inp.d, o, n) !in db.orderLine
  {
    forall j | 0 <= j < inp.olCnt
      ensures inp.ol[j].item in db.item && StockKeyOf(inp.ol[j]) in db.stock
      ensures LineKey(inp.w, inp.d, o, j + 1) !in db.orderLine
    {
      assert LineFailure(db, inp, o, j).None?;
    }
    forall n | 1 <= n <= inp.olCnt ensures LineKey(inp.w, inp.d, o, n) !in db.orderLine {
      assert LineFailure(db, inp, o, n - 1).None?;
    }
  }

  /** Stock after the first `i` lines.  The quantity compared with the request is the one the
      procedure's snapshot shows (read-only statement), not the one left by earlier lines. */
  ghost function StockAfter(db: Db, inp: NewOrderInput, i: nat): (stock: map<StockKey, Stock>)
    requires LinesKnown(db, inp, i)
    ensures stock.Keys == db.stock.Keys
  {
    if i == 0 then db.stock
    else
      var stock := StockAfter(db, inp, i - 1);
      var l := inp.ol[i - 1];
      var k := StockKeyOf(l);
      stock[k := Stock(stock[k].quantity - Decrement(db.stock[k].quantity, l.quantity),
                       stock[k].ytd + l.quantity,
                       stock[k].orderCnt + 1,
                       stock[k].remoteCnt + if l.supply == inp.w then 0 else 1)]
  }

  function NewLine(db: Db, l: LineRequest): Line
    requires l.item in db.item
  {
    Line(l.item, l.supply, false, l.quantity, db.item[l.item].price * l.quantity)
  }

  /** Order lines after the first `i` lines, numbered from 1. */
  ghost function LinesAfter(db: Db, inp: NewOrderInput, o: int, i: nat): map<LineKey, Line>
    requires LinesKnown(db, inp, i)
  {
    if i == 0 then db.orderLine
    else LinesAfter(db, inp, o, i - 1)[LineKey(inp.w, inp.d, o, i) := NewLine(db, inp.ol[i - 1])]
  }

  ghost function Placed(db: Db, inp: NewOrderInput): Db
    requires inp.District() in db.district
    requires LinesKnown(db, inp, inp.olCnt)
  {
    var d := db.district[inp.District()];
    db.(district := db.district[inp.District() := d.(nextOid := d.nextOid + 1)],
        newOrder := db.newOrder + {inp.Order(d.nextOid)},
        orders := db.orders[inp.Order(d.nextOid) := Order(inp.c, None, inp.olCnt, inp.allLocal)],
        stock := StockAfter(db, inp, inp.olCnt),
        orderLine := LinesAfter(db, inp, d.nextOid, inp.olCnt))
  }

  /** New-Order; the result is the order id. */
  ghost function NewOrder(db: Db, inp: NewOrderInput): Outcome<int> {
    if inp.olCnt < 1 || inp.olCnt > 15 then Aborted(BadLineCount)
    else if inp.w !in db.warehouse then Aborted(StatementFailed("NEW_ORDER_1"))
    else if inp.District() !in db.district then Aborted(StatementFailed("NEW_ORDER_2"))
    else if CustomerKey(inp.w, inp.d, inp.c) !in db.customer then Aborted(StatementFailed("NEW_ORDER_4"))
    else
      var o := db.district[inp.District()].nextOid;
      if inp.Order(o) in db.newOrder || inp.Order(o) in db.orders then Aborted(DuplicateKey)
      else
        match FirstFailure(db, inp, o, 0)
        case Some(e) => Aborted(e)
        case None =>
          NoFailure(db, inp, o);
          Committed(Placed(db, inp), o)
  }

  // ------------------------------------------------------------------ Payment

  /** `listing` is the answer of the query by last name; it is used only when `c` is 0. */
  datatype PaymentInput = PaymentInput(w: int, d: int, c: int, cw: int, cd: int, amount: int, listing: seq<int>)

  predicate LexLess(a: string, b: string) {
    if |b| == 0 then false
    else if |a| == 0 then true
    else a[0] < b[0] || (a[0] == b[0] && LexLess(a[1..], b[1..]))
  }

  /** The customers of a district with a given last name, ordered by first name. */
  ghost predicate IsListing(db: Db, cw: int, cd: int, last: string, ids: seq<int>) {
    && (forall i, j :: 0 <= i < j < |ids| ==> ids[i] != ids[j])
    && (forall i :: 0 <= i < |ids| ==> CustomerKey(cw, cd, ids[i]) in db.customer)
    && (forall c :: CustomerKey(cw, cd, c) in db.customer ==>
          (c in ids <==> db.customer[CustomerKey(cw, cd, c)].last == last))
    && (forall i, j :: 0 <= i < j < |ids| ==>
          !LexLess(db.customer[CustomerKey(cw, cd, ids[j])].first, db.customer[CustomerKey(cw, cd, ids[i])].first))
  }

  function Paid(r: Customer, amount: int): Customer {
    r.(balance := r.balance - amount, ytdPayment := r.ytdPayment + amount, paymentCnt := r.paymentCnt + 1)
  }

  /** Payment; the result is the paying customer's id. */
  ghost function Payment(db: Db, inp: PaymentInput): Outcome<int> {
    var dk := DistrictKey(inp.w, inp.d);
    if inp.w !in db.warehouse then Aborted(StatementFailed("PAYMENT_1"))
    else if dk !in db.district then Aborted(StatementFailed("PAYMENT_3"))
    else if inp.c == 0 && |inp.listing| == 0 then Aborted(StatementFailed("PAYMENT_5"))
    else
      var c := if inp.c == 0 then inp.listing[(|inp.listing| - 1) / 2] else inp.c;
      var ck := CustomerKey(inp.cw, inp.cd, c);
      if ck !in db.customer then Aborted(StatementFailed("PAYMENT_6"))
      else
        var wr := db.warehouse[inp.w];
        var dr := db.district[dk];
        Committed(
          db.(warehouse := db.warehouse[inp.w := wr.(ytd := wr.ytd + inp.amount)],
              district := db.district[dk := dr.(ytd := dr.ytd + inp.amount)],
              customer := db.customer[ck := Paid(db.customer[ck], inp.amount)],
              history := db.history + [History(c, inp.cd, inp.cw, inp.d, inp.w, inp.amount)]),
          c)
  }

  // ----------------------------------------------------------------- Delivery

  ghost predicate IsOldest(db: Db, dk: DistrictKey, k: OrderKey) {
    k in PendingOf(db, dk) && forall p :: p in PendingOf(db, dk) ==> k.o <= p.o
  }

  lemma OldestExists(db: Db, dk: DistrictKey)
    requires PendingOf(db, dk) != {}
    ensures exists k :: IsOldest(db, dk, k)
  {
    var ids := set k | k in PendingOf(db, dk) :: k.o;
    var some := Member(PendingOf(db, dk));
    assert some.o in ids;
    var o := LeastExists(ids);
    var k :| k in PendingOf(db, dk) && k.o == o;
    forall p | p in PendingOf(db, dk) ensures k.o <= p.o {
      assert p.o in ids;
    }
    assert IsOldest(db, dk, k);
  }

  /** The order DELIVERY_1 selects. */
  ghost function Oldest(db: Db, dk: DistrictKey): (k: OrderKey)
    requires PendingOf(db, dk) != {}
    ensures IsOldest(db, dk, k)
  {
    OldestExists(db, dk);
    var k :| IsOldest(db, dk, k); k
  }

  function MarkDelivered(lines: map<LineKey, Line>, ok: OrderKey): map<LineKey, Line> {
    map k | k in lines :: if OrderOf(k) == ok then lines[k].(delivered := true) else lines[k]
  }

  function Credited(customers: map<CustomerKey, Customer>, ck: CustomerKey, amount: int): map<CustomerKey, Customer> {
    if ck !in customers then customers
    else
      var r := customers[ck];
      customers[ck := r.(deliveryCnt := r.deliveryCnt + 1, balance := r.balance + amount)]
  }

  ghost function OrderAmount(db: Db, ok: OrderKey): int {
    Sum(LinesOfOrder(db, ok), AmountOf(db.orderLine))
  }

  /** The state after delivering the pending order `ok`. */
  ghost function Delivered(db: Db, ok: OrderKey, carrier: int): Db
    requires ok in db.orders
  {
    db.(newOrder := db.newOrder - {ok},
        orders := db.orders[ok := db.orders[ok].(carrier := Some(carrier))],
        orderLine := MarkDelivered(db.orderLine, ok),
        customer := Credited(db.customer, CustomerOf(ok, db.orders[ok]), OrderAmount(db, ok)))
  }

  /** One district of Delivery; the result lists the order delivered, if any. */
  ghost function DeliverDistrict(db: Db, dk: DistrictKey, carrier: int): Outcome<seq<OrderKey>> {
    if PendingOf(db, dk) == {} then Committed(db, [])
    else
      var ok := Oldest(db, dk);
      if ok !in db.orders then Aborted(StatementFailed("DELIVERY_3"))
      else if LinesOfOrder(db, ok) == {} then Aborted(StatementFailed("DELIVERY_6"))
      else Committed(Delivered(db, ok, carrier), [ok])
  }

  /** Districts `d` to 10 of one Delivery; the result lists the orders delivered, in district order. */
  ghost function DeliverFrom(db: Db, w: int, d: int, carrier: int): Outcome<seq<OrderKey>>
    requires 1 <= d <= 11
    decreases 11 - d
  {
    if d == 11 then Committed(db, [])
    else
      match DeliverDistrict(db, DistrictKey(w, d), carrier)
      case Aborted(e) => Aborted(e)
      case Committed(db1, here) =>
        match DeliverFrom(db1, w, d + 1, carrier)
        case Aborted(e) => Aborted(e)
        case Committed(db2, rest) => Committed(db2, here + rest)
  }

  ghost function Delivery(db: Db, w: int, carrier: int): Outcome<seq<OrderKey>> {
    DeliverFrom(db, w, 1, carrier)
  }

  // --------------------------------------------------------------------- Runs

  datatype Txn =
    | DoNewOrder(no: NewOrderInput)
    | DoPayment(pay: PaymentInput)
    | DoDelivery(w: int, carrier: int)

  ghost function After<T>(db: Db, r: Outcome<T>): Db {
    if r.Committed? then r.db else db
  }

  ghost function Step(db: Db, t: Txn): Db {
    match t
    case DoNewOrder(inp) => After(db, NewOrder(db, inp))
    case DoPayment(inp) => After(db, Payment(db, inp))
    case DoDelivery(w, carrier) => After(db, Delivery(db, w, carrier))
  }

  ghost function Run(db: Db, txns: seq<Txn>): Db
    decreases |txns|
  {
    if txns == [] then db else Run(Step(db, txns[0]), txns[1..])
  }

  /** The orders delivered by a run, in the order they were delivered. */
  ghost function StepLog(db: Db, t: Txn): seq<OrderKey> {
    if t.DoDelivery? && Delivery(db, t.w, t.carrier).Committed? then Delivery(db, t.w, t.carrier).result else []
  }

  ghost function RunLog(db: Db, txns: seq<Txn>): seq<OrderKey>
    decreases |txns|
  {
    if txns == [] then [] else StepLog(db, txns[0]) + RunLog(Step(db, txns[0]), txns[1..])
  }
}
