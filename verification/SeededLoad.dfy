/** From a seed to the tables: the values the generators write at the default cardinalities are among those the
    consistency proof starts from, so every run from a generated database is covered. */
module SeededLoad {
  import opened Common
  import opened Pcg
  import opened RandomDraws
  import opened RandomInsertion
  import opened Partitions
  import Layout = TableLayouts
  import Tables
  import Transactions
  import Consistency
  import StockLevels
  import CustomerCounts
  import DefaultLoad

  const CONFIG := Layout.Config(CUSTOMERS, ITEMS, ORDERS, NEW_ORDERS)

  // ------------------------------------------------------------- where a row is drawn

  /** The main stream after the units `done` of a single run. */
  ghost function StateOf(seed: nat, done: seq<Layout.Unit>): (s: nat)
    requires seed < WORD
    ensures s < MODULUS
  {
    WordFits();
    StateAfter(Seeded(seed), Layout.DrawsOf(CONFIG, done))
  }

  /** Everything written before the stock row (i, j), both from 0. */
  function BeforeStock(i: nat, j: nat): seq<Layout.Unit> {
    Layout.Blocks(CONFIG, Layout.Stock, 0, i) + Layout.Numbered(Layout.Stock, i, 0, 0, j)
  }

  /** Everything written before the customer row (i, j, k). */
  function BeforeCustomer(i: nat, j: nat, k: nat): seq<Layout.Unit> {
    Layout.Blocks(CONFIG, Layout.Customer, 0, i) + Layout.Districts(CONFIG, Layout.Customer, i, j)
    + Layout.Numbered(Layout.Customer, i, j, 0, k)
  }

  function BeforeItem(i: nat): seq<Layout.Unit> {
    Layout.Blocks(CONFIG, Layout.Item, 0, i)
  }

  /** Everything written before the orders of district (i, j). */
  function BeforeOrders(i: nat, j: nat): seq<Layout.Unit> {
    Layout.Blocks(CONFIG, Layout.Orders, 0, i) + Layout.Districts(CONFIG, Layout.Orders, i, j)
  }

  /** The list of customers of district (i, j), and the stream once it is built. */
  ghost function CustomerList(seed: nat, i: nat, j: nat): (list: seq<int>)
    requires seed < WORD
    ensures IsPermutation(list, CUSTOMERS)
  {
    var draws := Picks(StateOf(seed, BeforeOrders(i, j)), PickCount(CUSTOMERS));
    InsertedIsPermutation(draws);
    Inserted(draws)
  }

  /** The main stream before order k of district (i, j). */
  ghost function OrderState(seed: nat, i: nat, j: nat, k: nat): (s: nat)
    requires seed < WORD
    ensures s < MODULUS
  {
    StateAfter(StateAfter(StateOf(seed, BeforeOrders(i, j)), PickCount(CUSTOMERS)), Layout.DrawsOfOrders(k))
  }

  /** The private stream of order k before its line l. */
  ghost function LineState(seed: nat, i: nat, j: nat, k: nat, l: nat): (s: nat)
    requires seed < WORD
    ensures s < MODULUS
  {
    WordFits();
    StateAfter(StateAfter(Seeded(Draw(OrderState(seed, i, j, k), SeedDraw(k))), 1),
               DrawsOfLines(ITEMS, i, j, k, l))
  }

  // ------------------------------------------------------------- the values drawn

  ghost function Quantity(seed: nat, k: Tables.StockKey): (q: int)
    requires seed < WORD
    ensures 10 <= q <= 100
  {
    if k.w < 1 || k.i < 1 then 10
    else
      var state := StateOf(seed, BeforeStock(k.w - 1, k.i - 1));
      ScaledInRange(91, Draw(state, 0));
      Scaled(91, Draw(state, 0)) + 10
  }

  ghost function OrderedBy(seed: nat, k: Tables.OrderKey): (c: int)
    requires seed < WORD
    ensures 1 <= c <= CUSTOMERS
  {
    if k.w < 1 || k.d < 1 || k.o < 1 || k.o > CUSTOMERS then 1
    else CustomerList(seed, k.w - 1, k.d - 1)[k.o - 1]
  }

  ghost function LineCount(seed: nat, k: Tables.OrderKey): (n: int)
    requires seed < WORD
    ensures 5 <= n <= 15
  {
    if k.w < 1 || k.d < 1 || k.o < 1 then 5
    else
      WordFits();
      var own := Draw(OrderState(seed, k.w - 1, k.d - 1, k.o - 1), SeedDraw(k.o - 1));
      ScaledInRange(11, Draw(Seeded(own), 0));
      DrawnLineCount(own)
  }

  ghost function Carrier(seed: nat, k: Tables.OrderKey): int
    requires seed < WORD
  {
    if k.w < 1 || k.d < 1 || k.o < 1 then 1
    else Scaled(10, Draw(OrderState(seed, k.w - 1, k.d - 1, k.o - 1), 0)) + 1
  }

  ghost function LineItem(seed: nat, k: Tables.LineKey): int
    requires seed < WORD
  {
    if k.w < 1 || k.d < 1 || k.o < 1 || k.n < 1 then 1
    else Scaled(ITEMS, Draw(LineState(seed, k.w - 1, k.d - 1, k.o - 1, k.n - 1), 0)) + 1
  }

  ghost function LineAmount(seed: nat, k: Tables.LineKey): int
    requires seed < WORD
  {
    if k.w < 1 || k.d < 1 || k.o < 1 || k.n < 1 then 1
    else Scaled(999999, Draw(LineState(seed, k.w - 1, k.d - 1, k.o - 1, k.n - 1), 1)) + 1
  }

  ghost function Price(seed: nat, i: int): int
    requires seed < WORD
  {
    if i < 1 then 100 else Scaled(9901, Draw(StateOf(seed, BeforeItem(i - 1)), 2)) + 100
  }

  ghost function CustomerState(seed: nat, k: Tables.CustomerKey): (s: nat)
    requires seed < WORD
    ensures s < MODULUS
  {
    if k.w < 1 || k.d < 1 || k.c < 1 then StateOf(seed, [])
    else StateOf(seed, BeforeCustomer(k.w - 1, k.d - 1, k.c - 1))
  }

  /** The number behind a customer's last name: his own below 1000, then a drawn one. */
  ghost function LastName(seed: nat, k: Tables.CustomerKey): int
    requires seed < WORD
  {
    var state := CustomerState(seed, k);
    if k.c <= 1000 then k.c - 1 else NuRand(255, 0, 999, Draw(state, 1), Draw(state, 2))
  }

  ghost function FirstName(seed: nat, k: Tables.CustomerKey): seq<nat>
    requires seed < WORD
  {
    StringFrom(Draw(CustomerState(seed, k), 0), 8, 16, Layout.A_LETTERS)
  }

  ghost function GoodCredit(seed: nat, k: Tables.CustomerKey): bool
    requires seed < WORD
  {
    !InFirstTenth(Draw(CustomerState(seed, k), if k.c <= 1000 then 7 else 9))
  }

  /** Nine customers in ten: those whose percentage is not below one tenth. */
  lemma GoodCreditIff(seed: nat, k: Tables.CustomerKey)
    requires seed < WORD
    ensures GoodCredit(seed, k) <==>
            TENTH_BITS <= Draw(CustomerState(seed, k), if k.c <= 1000 then 7 else 9) / 0x800
  {
    hide InFirstTenth, Draw;
    InFirstTenthIff(Draw(CustomerState(seed, k), if k.c <= 1000 then 7 else 9));
  }

  /** How names are spelled: the syllables of a last name's number, the letters of a position in the alphabet. */
  datatype Spelling = Spelling(lastName: int -> string, letters: seq<nat> -> string)

  /** All values of the load that are drawn from a seed. */
  ghost function FromSeed(seed: nat, spelling: Spelling): DefaultLoad.Draws
    requires seed < WORD
  {
    DefaultLoad.Draws(
      (i: int) => Price(seed, i),
      (k: Tables.StockKey) => Quantity(seed, k),
      (k: Tables.CustomerKey) => spelling.lastName(LastName(seed, k)),
      (k: Tables.CustomerKey) => spelling.letters(FirstName(seed, k)),
      (k: Tables.CustomerKey) => GoodCredit(seed, k),
      (k: Tables.OrderKey) => OrderedBy(seed, k),
      (k: Tables.OrderKey) => Carrier(seed, k),
      (k: Tables.OrderKey) => LineCount(seed, k),
      (k: Tables.LineKey) => LineItem(seed, k),
      (k: Tables.LineKey) => LineAmount(seed, k))
  }

  lemma FromSeedPossible(seed: nat, spelling: Spelling)
    requires seed < WORD
    ensures DefaultLoad.Possible(FromSeed(seed, spelling))
  {
  }

  /** In every generated district each customer has placed exactly one order. */
  lemma OneOrderPerCustomer(seed: nat, dk: Tables.DistrictKey, c: int)
    requires seed < WORD && dk.w >= 1 && dk.d >= 1 && 1 <= c <= CUSTOMERS
    ensures exists o :: 1 <= o <= ORDERS && OrderedBy(seed, Tables.OrderKey(dk.w, dk.d, o)) == c
    ensures forall o, p :: 1 <= o < p <= ORDERS ==>
              OrderedBy(seed, Tables.OrderKey(dk.w, dk.d, o)) != OrderedBy(seed, Tables.OrderKey(dk.w, dk.d, p))
  {
    hide CustomerList;
    var list := CustomerList(seed, dk.w - 1, dk.d - 1);
    assert c in list;
    var i :| 0 <= i < |list| && list[i] == c;
    assert OrderedBy(seed, Tables.OrderKey(dk.w, dk.d, i + 1)) == c;
  }

  // ------------------------------------------------------------- runs from a generated database

  /** For any number of warehouses and any seed: every run keeps every consistency condition, the stock
      and payment counters stay exact, and stock grows only by restockings. */
  lemma RunsFromSeed(w: nat, seed: nat, spelling: Spelling, txns: seq<Transactions.Txn>)
    requires seed < WORD
    ensures var db := DefaultLoad.Load(w, FromSeed(seed, spelling));
            && Consistency.Consistent(Transactions.Run(db, txns))
            && StockLevels.SupplyCounted(Transactions.Run(db, txns), ORDERS)
            && CustomerCounts.PaymentsCounted(Transactions.Run(db, txns))
            && StockLevels.GrowsByRestocks(db.stock, Transactions.Run(db, txns).stock)
            && ((forall i :: 0 <= i < |txns| ==> StockLevels.OrdersDistinctPairs(txns[i])) ==>
                  StockLevels.InRange(Transactions.Run(db, txns).stock))
  {
    hide DefaultLoad.Load, Consistency.Consistent, Transactions.Run, FromSeed;
    FromSeedPossible(seed, spelling);
    DefaultLoad.RunsFromLoad(w, FromSeed(seed, spelling), txns);
  }
}
