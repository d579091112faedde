/** The eight mutable TPC-C tables and the item table, one map per table, keyed by primary key. */
module Tables {

  import opened Common

  datatype DistrictKey = DistrictKey(w: int, d: int)
  datatype CustomerKey = CustomerKey(w: int, d: int, c: int)
  datatype OrderKey = OrderKey(w: int, d: int, o: int)
  datatype LineKey = LineKey(w: int, d: int, o: int, n: int)
  datatype StockKey = StockKey(w: int, i: int)

  // Money is in cents.  A line's delivery date is modelled by whether it is set.
  datatype Warehouse = Warehouse(ytd: int)
  datatype District = District(ytd: int, nextOid: int)
  datatype Customer = Customer(balance: int, ytdPayment: int, paymentCnt: int, deliveryCnt: int,
                               last: string, first: string, goodCredit: bool)
  datatype Item = Item(price: int)
  datatype Stock = Stock(quantity: int, ytd: int, orderCnt: int, remoteCnt: int)
  datatype Order = Order(customer: int, carrier: Option<int>, olCnt: int, allLocal: int)
  datatype Line = Line(item: int, supply: int, delivered: bool, quantity: int, amount: int)
  datatype History = History(c: int, cd: int, cw: int, d: int, w: int, amount: int)

  datatype Db = Db(
    warehouse: map<int, Warehouse>,
    district: map<DistrictKey, District>,
    customer: map<CustomerKey, Customer>,
    item: map<int, Item>,
    stock: map<StockKey, Stock>,
    orders: map<OrderKey, Order>,
    newOrder: set<OrderKey>,
    orderLine: map<LineKey, Line>,
    history: seq<History>)

  function DistrictOf(k: OrderKey): DistrictKey { DistrictKey(k.w, k.d) }

  function OrderOf(k: LineKey): OrderKey { OrderKey(k.w, k.d, k.o) }

  function CustomerOf(k: OrderKey, r: Order): CustomerKey { CustomerKey(k.w, k.d, r.customer) }

  // Row sets selected by the WHERE clauses of the transactions and of the consistency conditions.

  function LinesOfOrder(db: Db, ok: OrderKey): set<LineKey> {
    set k | k in db.orderLine && OrderOf(k) == ok
  }

  function PendingOf(db: Db, dk: DistrictKey): set<OrderKey> {
    set k | k in db.newOrder && DistrictOf(k) == dk
  }

  function OrdersOf(db: Db, dk: DistrictKey): set<OrderKey> {
    set k | k in db.orders && DistrictOf(k) == dk
  }

  function LinesOfDistrict(db: Db, dk: DistrictKey): set<LineKey> {
    set k | k in db.orderLine && DistrictOf(OrderOf(k)) == dk
  }

  function DistrictsOf(db: Db, w: int): set<DistrictKey> {
    set k | k in db.district && k.w == w
  }

  // Columns as functions of the row key.

  ghost function AmountOf(lines: map<LineKey, Line>): LineKey -> int {
    (k: LineKey) => if k in lines then lines[k].amount else 0
  }

  ghost function QuantityOf(lines: map<LineKey, Line>): LineKey -> int {
    (k: LineKey) => if k in lines then lines[k].quantity else 0
  }

  ghost function YtdOf(districts: map<DistrictKey, District>): DistrictKey -> int {
    (k: DistrictKey) => if k in districts then districts[k].ytd else 0
  }

  ghost function LineCountOf(orders: map<OrderKey, Order>): OrderKey -> int {
    (k: OrderKey) => if k in orders then orders[k].olCnt else 0
  }
}
