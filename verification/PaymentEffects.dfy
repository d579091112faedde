/** What a Payment does to each row, in terms of the request and of the rows before it, and where the money of a
    whole run ends up. */
module PaymentEffects {
  import opened Common
  import opened FiniteSums
  import opened Tables
  import opened Transactions
  import opened DeliveryEffects
  import opened OrderEffects

  // ------------------------------------------------------------- when it commits, and who pays

  /** The customer who pays: the one named by id, or the one in the middle of the listing. */
  ghost predicate PaidBy(inp: PaymentInput, c: int) {
    if inp.c != 0 then c == inp.c
    else exists m :: 0 <= m < |inp.listing| && (2 * m == |inp.listing| - 1 || 2 * m == |inp.listing| - 2)
                     && c == inp.listing[m]
  }

  /** The warehouse, the district and the payer exist. */
  ghost predicate Payable(db: Db, inp: PaymentInput) {
    && inp.w in db.warehouse
    && DistrictKey(inp.w, inp.d) in db.district
    && (exists c :: PaidBy(inp, c) && CustomerKey(inp.cw, inp.cd, c) in db.customer)
  }

  lemma OnePayer(inp: PaymentInput, c: int, c': int)
    requires PaidBy(inp, c) && PaidBy(inp, c')
    ensures c == c'
  {
  }

  lemma MiddleOfListing(inp: PaymentInput)
    requires inp.c == 0 && |inp.listing| > 0
    ensures PaidBy(inp, inp.listing[(|inp.listing| - 1) / 2])
  {
    var m := (|inp.listing| - 1) / 2;
    assert 2 * m == |inp.listing| - 1 || 2 * m == |inp.listing| - 2;
  }

  lemma PaymentCommitsIff(db: Db, inp: PaymentInput)
    ensures Payment(db, inp).Committed? <==> Payable(db, inp)
  {
    if inp.c == 0 && |inp.listing| > 0 { MiddleOfListing(inp); }
    if Payable(db, inp) {
      var c :| PaidBy(inp, c) && CustomerKey(inp.cw, inp.cd, c) in db.customer;
      if inp.c == 0 { OnePayer(inp, c, inp.listing[(|inp.listing| - 1) / 2]); }
    } else if inp.c != 0 {
      assert PaidBy(inp, inp.c);
    }
  }

  /** The first row that is missing names the statement that failed. */
  lemma PaymentAborts(db: Db, inp: PaymentInput)
    requires !Payable(db, inp)
    ensures Payment(db, inp) == Aborted(StatementFailed(
                                          if inp.w !in db.warehouse then "PAYMENT_1"
                                          else if DistrictKey(inp.w, inp.d) !in db.district then "PAYMENT_3"
                                          else if forall c :: !PaidBy(inp, c) then "PAYMENT_5" else "PAYMENT_6"))
  {
    PaymentCommitsIff(db, inp);
    if inp.c != 0 {
      assert PaidBy(inp, inp.c);
    } else if |inp.listing| > 0 {
      MiddleOfListing(inp);
    }
  }

  // ------------------------------------------------------------- the rows

  /** The amount goes to the year-to-date columns of the warehouse, the district and the payer, comes off the
      payer's balance, and is written down in one history row; everything else stays. */
  lemma AmountBooked(db: Db, inp: PaymentInput, db': Db, c: int)
    requires Payment(db, inp) == Committed(db', c)
    ensures PaidBy(inp, c)
    ensures
      var dk, ck := DistrictKey(inp.w, inp.d), CustomerKey(inp.cw, inp.cd, c);
      && inp.w in db.warehouse && dk in db.district && ck in db.customer
      && db'.warehouse == db.warehouse[inp.w := Warehouse(db.warehouse[inp.w].ytd + inp.amount)]
      && db'.district == db.district[dk := District(db.district[dk].ytd + inp.amount, db.district[dk].nextOid)]
      && db'.customer == db.customer[ck := db.customer[ck].(
                                       balance := db.customer[ck].balance - inp.amount,
                                       ytdPayment := db.customer[ck].ytdPayment + inp.amount,
                                       paymentCnt := db.customer[ck].paymentCnt + 1)]
      && db'.history == db.history + [History(c, inp.cd, inp.cw, inp.d, inp.w, inp.amount)]
    ensures db'.item == db.item && db'.stock == db.stock && db'.orders == db.orders
    ensures db'.newOrder == db.newOrder && db'.orderLine == db.orderLine
  {
    if inp.c == 0 { MiddleOfListing(inp); }
  }

  // ------------------------------------------------------------- runs

  /** Which of the payments are meant. */
  datatype Account = OfWarehouse(w: int) | OfDistrict(dk: DistrictKey) | OfCustomer(ck: CustomerKey)

  ghost predicate BookedTo(inp: PaymentInput, a: Account) {
    match a
    case OfWarehouse(w) => inp.w == w
    case OfDistrict(dk) => inp.w == dk.w && inp.d == dk.d
    case OfCustomer(ck) => inp.cw == ck.w && inp.cd == ck.d && PaidBy(inp, ck.c)
  }

  ghost predicate Exists(db: Db, a: Account) {
    match a
    case OfWarehouse(w) => w in db.warehouse
    case OfDistrict(dk) => dk in db.district
    case OfCustomer(ck) => ck in db.customer
  }

  /** What the year-to-date column of the account holds. */
  ghost function YearToDate(db: Db, a: Account): int
    requires Exists(db, a)
  {
    match a
    case OfWarehouse(w) => db.warehouse[w].ytd
    case OfDistrict(dk) => db.district[dk].ytd
    case OfCustomer(ck) => db.customer[ck].ytdPayment
  }

  /** What a transaction pays in: the amount of a payment whose rows all exist. */
  ghost function PaysIn(db: Db, t: Txn, a: Account): int {
    if t.DoPayment? && Payable(db, t.pay) && BookedTo(t.pay, a) then t.pay.amount else 0
  }

  ghost function PaidInto(db: Db, txns: seq<Txn>, a: Account): int
    decreases |txns|
  {
    if txns == [] then 0 else PaysIn(db, txns[0], a) + PaidInto(db, txns[1..], a)
  }

  /** Which payments are possible depends on the keys alone. */
  lemma {:induction false} SamePaidInto(db: Db, db': Db, txns: seq<Txn>, a: Account)
    requires SameCatalogue(db, db')
    ensures PaidInto(db', txns, a) == PaidInto(db, txns, a)
    decreases |txns|
  {
    if txns != [] { SamePaidInto(db, db', txns[1..], a); }
  }

  lemma StepPays(db: Db, t: Txn, a: Account)
    requires Exists(db, a)
    ensures Exists(Step(db, t), a)
    ensures YearToDate(Step(db, t), a) == YearToDate(db, a) + PaysIn(db, t, a)
  {
    hide Payable, PaidBy, Payment, NewOrder, Delivery;
    match t
    case DoNewOrder(inp) =>
      if NewOrder(db, inp).Committed? {
        OrderPlaced(db, inp, NewOrder(db, inp).db, NewOrder(db, inp).result);
      }
    case DoPayment(inp) =>
      PaymentCommitsIff(db, inp);
      if Payment(db, inp).Committed? {
        var db', c := Payment(db, inp).db, Payment(db, inp).result;
        AmountBooked(db, inp, db', c);
        if a.OfCustomer? && PaidBy(inp, a.ck.c) { OnePayer(inp, c, a.ck.c); }
      }
    case DoDelivery(w, carrier) =>
      DeliveryDelivers(db, w, carrier);
  }

  /** Over a run every year-to-date column grows by the amounts of the payments booked to it. */
  lemma {:induction false} RunPays(db: Db, txns: seq<Txn>, a: Account)
    requires Exists(db, a)
    ensures Exists(Run(db, txns), a)
    ensures YearToDate(Run(db, txns), a) == YearToDate(db, a) + PaidInto(db, txns, a)
    decreases |txns|
  {
    hide Step, SameCatalogue, PaysIn, YearToDate, Exists;
    if txns != [] {
      StepPays(db, txns[0], a);
      StepKeepsCatalogue(db, txns[0]);
      RunPays(Step(db, txns[0]), txns[1..], a);
      SamePaidInto(db, Step(db, txns[0]), txns[1..], a);
    }
  }
}
