# DBT-2: a Dafny model of the TPC-C kit

DBT-2 is a fair-use TPC-C kit: it generates a database, drives it with transactions through a threaded
client, and keeps the transaction logic in stored procedures or in client code. This project models four
parts of it and proves what each is for.

* **The write transactions over the nine tables** (`Tables`, `Transactions`, `StoredProcedures`,
  `OrderEffects`, `PaymentEffects`, `DeliveryEffects`, `Consistency`, `Clauses`, `StockLevels`,
  `CustomerCounts`, `MiddlePayer`, `DefaultLoad`, `SeededLoad`, `LoadedRows`). The PostgreSQL stored procedures NEW_ORDER, PAYMENT and DELIVERY are methods of a `Database`
  class that update tables in place, statement by statement, and undo everything on an error; each is proved
  equal to a function on database values. What those functions do to every row, and when they fail, is stated
  in terms of the request and the rows before it, and summed up over runs: prices of lines, order ids,
  year-to-date amounts. About the same functions the consistency conditions of TPC-C (Standard
  Specification Revision 5.11, Clause 3.3.2) are proved for every run, of any length and in any order, from
  the database drawn from any seed for any number of warehouses; the generators are proved to write that
  database, every row on one line and no other line.
* **Random numbers and data generation** (`Lcg`, `Bits`, `Pcg`, `Period`, `Doubles`, `RandomDraws`,
  `RandomInsertion`, `TableLayouts`, `RowRanges`, `Partitions`, `Datagen`). The jump-ahead loop equals that many
  single steps, the generator has period 2^126 and its words are given bit by bit, bounded draws stay in range
  although a product of doubles is rounded to nearest, the random linked list reaches every permutation by
  exactly one sequence of draws, every generated column stays in its range, and the partitions of a parallel
  generation, one after the other, are the output of a single run.
* **The threaded client** (`ClientProtocol`, `ClientInvariants`, `ClientProgress`, `TransactionQueue`,
  `SemaphoreMonitor`). Every section under a mutex and every semaphore operation is one step; the invariants
  hold under every interleaving, and every run without new input ends with all requests answered. The two
  linked lists are proved on the heap, with the stale pointers that popped nodes keep.
* **Around them** (`ProcessTransaction`, `Cursor`): the execute, commit, roll back and reconnect loop, and the
  prefetching SQLite cursor with the growing array that picks the middle customer.

`FiniteSums` holds sums over sets and maps, `Common` the shared constants.

## How to read it

* Money is in whole cents, also in the generated files, where it is written as a decimal. An `ereport(ERROR)`
  is an `Aborted` outcome, after which the database is as it was before the call.
* `Consistent` is a conjunction written as a quantifier over an enumeration, so that it is used as a whole;
  `ConsistentMeans` opens it.
* The lemmas of `OrderEffects`, `PaymentEffects` and `DeliveryEffects` speak of the tables before and after, not
  of the functions that build the tables in `Transactions`; so do `Doubles`, `Bits` and `Pcg.OutputBits` of
  numbers, not of the expressions that compute them.
* In `ClientProtocol` the field `place` of a node is a record of its moves; no step depends on it. A thread
  that follows a freed node, indexes outside the counters or pops from an empty free list sets `crashed`.
* `hide` statements keep definitions out of proofs that do not need them.
* `dafny verify dfyconfig.toml` checks the whole project.

## Where the code and its documentation part

* Clause 3.3.2.5 (an order has no carrier exactly while it is pending) is false of a generated database.
  The orders generator gives a carrier to orders with index below 2101 counted from 0, so order 2101 has a
  carrier, and the new-order generator lists it as pending. `DefaultLoad.LoadBreaksClauseFive` is the
  counterexample; `DefaultLoad.ClauseFiveExactly` says that a run makes the clause true for a district exactly
  if it contains a Delivery for its warehouse.
* The stock quantity is read by a read-only statement, which does not see what earlier lines of the same
  order did. The range 10..100 of stock quantities is therefore kept exactly by orders whose
  (item, supplying warehouse) pairs are distinct: `StockLevels.RangeKeptIffDistinct` and, from generated
  databases, `DefaultLoad.LoadRangeKeptIffDistinct`.
* With no customers the orders generator still starts its list with one number, but its advance counts
  minus one draw for it: `Partitions.StartsInStepIff`. With more orders than customers it exits; then so does
  every partition that has a warehouse to write: `Partitions.PartitionsConcatenate`.
* `process_transaction` can return OK without a commit if a database layer answers OK to a rollback; the
  layers in the repository do not: `ProcessTransaction.TrustworthyIffHonest`.
* C leaves the order of the two draws in `get_nurand` open; the model takes the left one first. No property
  here depends on it.

## Model

| member | source | states |
|---|---|---|
| StoredProcedures.Database.NewOrder | storedproc/pgsql/c/new_order.c:254-430 | the statements in their order commit exactly the state and order id that `Transactions.NewOrder` gives (its rows: `OrderEffects`), or fail with its error and leave every table unchanged; an unknown item is such a failure |
| StoredProcedures.Database.PlaceLines | storedproc/pgsql/c/new_order.c:332-427 | the line loop stops at the first line that cannot be placed, and otherwise leaves stock and order lines as all lines together make them |
| StoredProcedures.Database.PlaceLine | storedproc/pgsql/c/new_order.c:336-418 | one line: item, stock and key failures in that order; else stock taken by the quantity read from the snapshot, with 91 added when fewer than ten would be left |
| StoredProcedures.Database.Payment | storedproc/pgsql/c/payment.c:245-457 | the updates in their order leave exactly the state that `Transactions.Payment` gives (its rows: `PaymentEffects`), or no change at all |
| StoredProcedures.Database.FindPayer | storedproc/pgsql/c/payment.c:308-329 | the customer given, else the one at (n - 1) / 2 of the listing, none for an empty one |
| StoredProcedures.Database.Charge | storedproc/pgsql/c/payment.c:389-457 | only the payer's row and the history change, by the amount |
| StoredProcedures.Database.SelectOldest | storedproc/pgsql/c/delivery.c:160-173 | finds the pending order with the smallest id of a district, if there is one |
| StoredProcedures.Database.SumAmounts | storedproc/pgsql/c/delivery.c:210-229 | the sum of the order's line amounts, none for an order without lines |
| StoredProcedures.Database.DeliverDistrict | storedproc/pgsql/c/delivery.c:154-246 | one district: the oldest pending order is removed, given its carrier, its lines marked and its customer credited |
| StoredProcedures.Database.Delivery | storedproc/pgsql/c/delivery.c:154-246 | ten districts in turn, a district without pending orders skipped, all undone on an error |
| OrderEffects.OrderCommitsIff | storedproc/pgsql/c/new_order.c:254-418 | New-Order commits exactly when it has 1 to 15 lines, its warehouse, district, customer, items (none of them 0) and stock rows exist, and the district's next id and its line numbers are unused |
| OrderEffects.OrderCommitsIffPlaceable | storedproc/pgsql/c/new_order.c:254-418 | from a consistent database the ids are never taken, so it commits exactly when those rows exist |
| OrderEffects.MissingRow | storedproc/pgsql/c/new_order.c:254-310 | a missing warehouse, district or customer is reported in this order, before any line |
| OrderEffects.FirstBadLine | storedproc/pgsql/c/new_order.c:336-387 | the first line that cannot be placed decides: an unknown item is the expected rollback, a missing stock row a failed statement |
| OrderEffects.OrderPlaced | storedproc/pgsql/c/new_order.c:269-330 | the order takes the district's next id, which goes up by one; one order row without carrier and one pending row are added; warehouses, customers, items and history stay |
| OrderEffects.LinesPlaced | storedproc/pgsql/c/new_order.c:361-418 | line n of the order holds item, supplier and quantity of request n, undelivered, at the item's price times the quantity; no other line changes |
| OrderEffects.StockSupplied | storedproc/pgsql/c/new_order.c:389-398 | every stock row loses the pieces its lines ask for and gains 91 for every line asking for more than its quantity before the order less ten; year-to-date, order and remote counts grow by those lines |
| OrderEffects.RunKeepsCatalogue | storedproc/pgsql/c/new_order.c:332-418 | no run changes the item table, or adds or removes a warehouse, district, customer or stock row |
| OrderEffects.RunKeepsPrices | storedproc/pgsql/c/new_order.c:361-361 | over any run every line of an order placed since the load costs its item's price times its quantity |
| OrderEffects.RunOrderIds | storedproc/pgsql/c/new_order.c:269-284 | over any run the ids handed out in a district are as many as the New-Orders for it among the requests whose rows exist |
| PaymentEffects.PaymentCommitsIff | storedproc/pgsql/c/payment.c:245-457 | Payment commits exactly when warehouse, district and payer exist; the payer is the customer given, or one of the listing with as many before as behind him, or one fewer before |
| PaymentEffects.PaymentAborts | storedproc/pgsql/c/payment.c:245-380 | otherwise the first row that is missing names the failed statement |
| PaymentEffects.AmountBooked | storedproc/pgsql/c/payment.c:67-132 | the amount is added to w_ytd, d_ytd and c_ytd_payment, taken from c_balance and written to one history row; c_payment_cnt goes up by one; every other row and table is unchanged |
| PaymentEffects.RunPays | storedproc/pgsql/c/payment.c:67-115 | over any run w_ytd, d_ytd and c_ytd_payment grow by exactly the amounts of the possible payments for that warehouse, district or customer among the requests |
| DeliveryEffects.DeliveryDelivers | storedproc/pgsql/c/delivery.c:154-246 | Delivery commits exactly when the oldest pending order of each district exists and has lines; then exactly these lose their pending row and gain the carrier, their lines are marked, and each customer's balance and delivery count grow by the lines and the number of his orders among them; nothing else changes |
| DeliveryEffects.DeliveryAborts | storedproc/pgsql/c/delivery.c:175-229 | otherwise the first district whose order is missing or has no lines names the failed statement |
| Consistency.StepKeepsConsistent | storedproc/pgsql/c/new_order.c:254-430 | every transaction with any input keeps all consistency conditions and the referential facts under them |
| Consistency.RunKeepsConsistent | storedproc/pgsql/c/delivery.c:154-246 | every run of the three transactions keeps them: Clauses 3.3.2.1 to 3.3.2.4, 3.3.2.6 to 3.3.2.10 and 3.3.2.12 |
| Consistency.NewOrderKeepsConsistent | storedproc/pgsql/c/new_order.c:269-330 | a new order takes the next id, its lines are numbered 1..o_ol_cnt, and no balance or total changes |
| Consistency.PaymentKeepsConsistent | storedproc/pgsql/c/payment.c:245-457 | year-to-date amounts, history and balance move together |
| Consistency.DistrictKeepsConsistent | storedproc/pgsql/c/delivery.c:175-241 | from a consistent state a district's delivery never fails and credits exactly what its customer's delivered lines grow by |
| Consistency.DeliveredCredit | storedproc/pgsql/c/delivery.c:210-241 | a customer's delivered amount grows by the order's amount if the order is his, and by nothing otherwise |
| Consistency.OldestIsLow | storedproc/pgsql/c/delivery.c:160-169 | the order that is delivered is the low end of the pending interval |
| Clauses.PendingInterval | storedproc/pgsql/c/new_order.c:269-330 | Clauses 3.3.2.2 and 3.3.2.3: d_next_o_id - 1 is the largest order id, and the pending ids are exactly an interval that ends there |
| Clauses.LinesPerOrder | storedproc/pgsql/c/new_order.c:320-418 | Clause 3.3.2.6: an order has o_ol_cnt order lines |
| Clauses.LinesPerDistrict | storedproc/pgsql/c/new_order.c:320-418 | Clause 3.3.2.4: a district's o_ol_cnt add up to its number of order lines |
| Clauses.StepMislabelled | storedproc/pgsql/c/delivery.c:175-199 | no step gives a pending order a carrier: the pending orders that have one only ever get fewer, by being delivered |
| Clauses.ClauseFiveKept | storedproc/pgsql/c/delivery.c:175-199 | Clause 3.3.2.5 is kept by every transaction where it holds |
| Clauses.RunLogMatches | storedproc/pgsql/c/delivery.c:154-199 | over any run a district's orders are delivered in id order, without a gap |
| Clauses.CreditedOnce | storedproc/pgsql/c/delivery.c:230-245 | over any run an order is credited exactly once if it lies between the old and the new low end, and otherwise not at all |
| MiddlePayer.PayerIsInTheMiddle | storedproc/pgsql/c/payment.c:308-329 | of the n customers with the given last name one pays with at most (n - 1) / 2 before him by first name and at most n / 2 behind; with an ordered listing the payment never fails because the listed customer is missing |
| CustomerCounts.StepOrders | storedproc/pgsql/c/delivery.c:184-199 | a transaction changes no existing order row but those it delivers, and in those only the carrier, to the given one |
| CustomerCounts.RunPayments | storedproc/pgsql/c/payment.c:109-132 | over any run c_payment_cnt of every customer is the number of his history rows |
| CustomerCounts.RunDeliveries | storedproc/pgsql/c/delivery.c:230-245 | over any run c_delivery_cnt of every customer grows by the number of his orders that are delivered |
| StockLevels.RunSupply | storedproc/pgsql/c/new_order.c:389-398 | over any run s_ytd, s_order_cnt and s_remote_cnt of every stock row equal quantity and number of the lines it supplied since the load |
| StockLevels.RunGrows | storedproc/pgsql/c/new_order.c:384-391 | over any run s_quantity + s_ytd of every stock row grows by a multiple of 91 |
| StockLevels.RunKeepsRange | storedproc/pgsql/c/new_order.c:363-398 | runs of orders with distinct (item, supplier) pairs and quantities 1..10 keep s_quantity in 10..100 |
| StockLevels.RepeatedPairBreaksRange | storedproc/pgsql/c/new_order.c:363-398 | for every order that repeats a pair a consistent database with all quantities in range that it takes out of range |
| StockLevels.RangeKeptIffDistinct | storedproc/pgsql/c/new_order.c:363-398 | an order keeps the range from every consistent database exactly when its pairs are distinct |
| DefaultLoad.LoadConsistent | src/datagen.c:182-301 | the generated database satisfies every condition of `Consistent`, for any number of warehouses and any draws in range |
| DefaultLoad.HistoryTotals | src/datagen.c:640-683 | the generated history adds up per warehouse, district and customer to w_ytd, d_ytd and the first payment |
| DefaultLoad.RunsFromLoad | src/datagen.c:1254-1406 | every run from a generated database keeps the conditions, the supply and payment counters, the growth by restockings and, for distinct pairs, the stock range |
| DefaultLoad.PricesFromLoad | storedproc/pgsql/c/new_order.c:361-361 | in every run from a generated database each added line names one of the 100000 items and costs its generated price times the quantity |
| DefaultLoad.TakingsFromLoad | storedproc/pgsql/c/payment.c:67-115 | after every run from a generated database w_ytd, d_ytd and c_ytd_payment are 300000.00, 30000.00 and 10.00 plus the amounts paid in by the run |
| DefaultLoad.LoadBreaksClauseFive | src/datagen.c:1288-1293 | in every generated district order 2101 is pending and has a carrier, so Clause 3.3.2.5 is false |
| DefaultLoad.RunLow | src/datagen.c:993-1007 | over a run the low end of a district with pending orders moves on exactly if one of the transactions is a Delivery for its warehouse |
| DefaultLoad.ClauseFiveExactly | src/datagen.c:993-1007 | after a run from a generated database Clause 3.3.2.5 holds for a district exactly if one of the run's transactions is a Delivery for its warehouse |
| DefaultLoad.RepeatedPairBreaksLoad | storedproc/pgsql/c/new_order.c:363-398 | for every order on existing rows that repeats a pair a generated database whose stock it takes out of range |
| DefaultLoad.LoadRangeKeptIffDistinct | storedproc/pgsql/c/new_order.c:363-398 | an order on existing rows keeps the range from every generated database exactly when its pairs are distinct |
| SeededLoad.FromSeedPossible | src/datagen.c:1578-1580 | the quantities, customers and line counts drawn from any seed are in the ranges the load needs |
| SeededLoad.OneOrderPerCustomer | src/datagen.c:1253-1274 | in every generated district each customer has placed exactly one order |
| SeededLoad.GoodCreditIff | src/datagen.c:265-269 | a generated customer has good credit exactly when the 53 leading bits of his draw are not below 900719925474099 |
| LoadedRows.RunWritesLoad | src/datagen.c:182-301 | for every table, seed and number of warehouses, each line of the single run holds the row of the load, in the order of the loops: keys, balances, totals, counters, carriers, quantities, amounts and nulls |
| LoadedRows.RunWritesEveryRowOnce | src/datagen.c:1214-1443 | the single run of each generator succeeds and writes every row of the load in its table on exactly one line, and no other line; the orders generator so for orders and order_line together |
| LoadedRows.HistoryInOrder | src/datagen.c:640-683 | the history lines are the load's history rows in its order |
| SeededLoad.RunsFromSeed | src/datagen.c:1207-1305 | for every seed and number of warehouses: every run from the load drawn from it keeps what RunsFromLoad states |
| Lcg.AdvanceLcg | src/pcg/pcg-advance-128.c:45-60 | for widths 32, 64 and 128 alike: the jump-ahead loop, wrapping at every assignment, equals delta single steps |
| Lcg.IterateSum | src/pcg/pcg_variants.h:618-629 | steps add up: b steps after a steps are a + b steps |
| Lcg.FullTurn | src/pcg/pcg-advance-64.c:44-59 | for an odd multiplier 2^k steps lead back to the start |
| Lcg.JumpsCompose | src/pcg/pcg-advance-32.c:44-59 | for an odd multiplier jumps compose by adding their distances modulo 2^k |
| Lcg.LongWayRoundIffOdd | src/pcg/pcg-advance-128.c:40-41 | a jump by 2^k - d undoes a jump by d, for all states and distances, exactly when the multiplier is odd |
| Period.PeriodOfOddState | src/pcg/pcg_variants.h:618-621 | for a multiplier that is 5 modulo 8, n steps from an odd state lead back exactly when 2^(k-2) divides n |
| Period.GeneratorPeriod | src/pcg/pcg_variants.h:618-621 | the 128-bit generator, from every odd state, has period 2^126 |
| Pcg.StaysOdd | src/pcg/pcg_variants.h:812-815 | a seeded state stays odd under any number of draws |
| Pcg.EveryDrawMultiplies | src/pcg/pcg_variants.h:618-621 | every draw multiplies the state by the multiplier, modulo 2^128 |
| Pcg.OutputBits | src/pcg/pcg_variants.h:243-247 | bit i of the word is set exactly when the two halves of the state differ in bit (i + rot) % 64, rot being the top six bits |
| Pcg.OutputIsDetermined | src/pcg/pcg_variants.h:243-247 | no other 64-bit word has these bits |
| Bits.RotatedBits | src/pcg/pcg_variants.h:96-106 | bit i of the rotation to the right is bit (i + rot) % 64 of the number |
| Pcg.Rng.constructor | src/pcg/pcg_variants.h:812-815 | seeding sets the lowest bit, so the state is odd |
| Pcg.Rng.Random | src/pcg/pcg_variants.h:2225-2229 | one draw advances the state by one multiplication and returns the word of the new state, the one `Pcg.OutputBits` describes |
| Pcg.Rng.Advance | src/pcg/pcg_variants.h:625-629 | the jump leaves the state where delta draws would |
| Doubles.GapIff | src/common.c:163-165 | the gap between doubles around p is 2^j exactly where 2^(j+52) <= p < 2^(j+53), and 1 below 2^53 |
| Doubles.NearestDouble | src/common.c:163-165 | the rounded product is a double, no double is nearer, and of two equally near ones it is the even one |
| Doubles.RoundMonotone | src/common.c:163-165 | rounding keeps the order |
| Doubles.RoundingError | src/common.c:163-165 | rounding an integer product to 53 bits is off by at most one part in 2^53 |
| RandomDraws.ScaledInRange | src/common.c:73-75 | for every 0 < max <= 2^53 and every 64-bit draw the result is below max, with the product rounded to nearest |
| RandomDraws.ScaledExactly | src/common.c:163-165 | for max <= 2^52 the result is the floor of max times the 53-bit draw over 2^53, one more exactly when that quotient lies within half a gap below the next integer |
| RandomDraws.ScaledMonotone | src/common.c:163-165 | a larger draw never gives a smaller result |
| RandomDraws.ScaledReachesAll | src/common.c:163-165 | for max <= 2^51 every value below max is the result of some 64-bit draw |
| RandomDraws.GetRandom | src/common.c:163-165 | one draw of the stream, in [0, max) |
| RandomDraws.GetNuRand | src/common.c:152-156 | two draws of the stream, a result in [x, y] whatever they are |
| RandomDraws.NuRandIs | src/common.c:152-156 | the result is the number of [x, y] that is x plus the rest modulo y - x + 1 of the number whose bits are those set in either drawn value |
| RandomDraws.GetString | src/common.c:78-93 | a string of any length takes exactly one draw of the main stream; the rest comes from a private generator |
| RandomDraws.StringFits | src/common.c:114-149 | between x and y characters, all of the alphabet |
| RandomDraws.StringIs | src/common.c:78-93 | the private generator's first value gives the length, its following ones the characters in order |
| RandomInsertion.InsertedIsPermutation | src/datagen.c:1219-1251 | the list always holds exactly the numbers 1..n |
| RandomInsertion.EveryPermutationOnce | src/datagen.c:1222-1251 | for every permutation of 1..n there is exactly one sequence of draws, draw k in [0, k), that produces it |
| RandomInsertion.DrawsCountSmaller | src/datagen.c:1222-1251 | in the finished list as many smaller numbers stand before k as the draw for k says |
| RandomInsertion.ListFromDraws | src/datagen.c:1219-1251 | so the list of customers is the permutation in which get_random(k) smaller numbers precede customer k |
| RandomInsertion.Walk | src/datagen.c:1223-1233 | following iter links ends at that node, or past the tail, with the node before it in hand |
| RandomInsertion.InsertNode | src/datagen.c:1223-1250 | head, middle and tail insertion into the linked list insert into the sequence of values at position iter |
| RandomInsertion.BuildList | src/datagen.c:1216-1251 | the heap list holds the permutation of the draws, customers - 1 of them, or none without customers |
| TableLayouts.CustomerDraws | src/datagen.c:185-301 | a customer row takes 10 draws, two more from the thousandth customer on |
| TableLayouts.StockDraws | src/datagen.c:1569-1672 | a stock row takes 13 draws |
| TableLayouts.OrderRowDraws | src/datagen.c:1287-1298 | an order row takes one draw for its lines, and one more while it has a carrier |
| TableLayouts.BlocksDraws | src/datagen.c:182-301 | the draws of the skipped warehouses or items are their number times the draws of one, table by table |
| TableLayouts.DeltaIsExact | src/datagen.c:1207-1212 | each advance count equals the draws of the skipped iterations; for the orders table exactly when there is a customer or nothing is skipped |
| RowRanges.ItemRow | src/datagen.c:824-860 | i_im_id, i_name, i_price and i_data of every item, whatever the draws |
| RowRanges.WarehouseRow | src/datagen.c:1807-1858 | name and address lengths, tax in 0..2000, w_ytd |
| RowRanges.DistrictRow | src/datagen.c:441-497 | the same for districts, with d_ytd and d_next_o_id |
| RowRanges.StockRow | src/datagen.c:1569-1672 | s_quantity in 10..100, ten texts of 24 letters, counters 0, s_data of 26 to 50 characters |
| RowRanges.CustomerRow | src/datagen.c:185-215 | keys, c_first, c_middle, and c_last numbered by the customer below 1000, drawn from 0..999 after that |
| RowRanges.CustomerAddress | src/datagen.c:217-252 | lengths and alphabets of street, city, state, zip and telephone number |
| RowRanges.CustomerAccount | src/datagen.c:265-301 | credit, limit, discount in 0..5000, balance, payments, counters, c_data of 300 to 500 characters |
| RowRanges.HistoryRow | src/datagen.c:640-683 | keys, amount and 12 to 24 characters of text |
| RowRanges.OrderRow | src/datagen.c:1259-1304 | a carrier 1..10 exactly for the first 2101 orders, 5..15 lines |
| RowRanges.LineRow | src/datagen.c:1345-1406 | an item in range, quantity 5; delivered lines cost nothing, the others 0.01 to 9999.99 |
| Partitions.StartsInStep | src/datagen.c:174-180 | the state of a partition is that of a sequential run at its first warehouse, wrap-around of the distance included |
| Partitions.StartsInStepIff | src/datagen.c:1207-1212 | it is so exactly when the table is not orders, or there is a customer, or nothing is skipped |
| Partitions.BoundsMonotone | src/datagen.c:112-116 | the rounded bounds start at 0 and never decrease |
| Partitions.LastBound | src/datagen.c:112-116 | the last bound reaches the number of warehouses despite two roundings, so clamping makes it exact |
| Partitions.BoundIsNearest | src/datagen.c:112-116 | every bound is w * p / parts rounded to the nearest integer, but for what two roundings can shift it: within 0.500001 |
| Partitions.EmitAppend | src/datagen.c:182-184 | what is written for two stretches of rows is written one after the other, the second from the state the first leaves |
| Partitions.PartitionsConcatenate | src/datagen.c:174-184 | for every table, seed, cardinality (but one order per district without customers) and number of partitions: what partitions 1..P write together, or that one of them exits, is what the single-partition run does; they all succeed exactly when every order finds a customer or there is no warehouse |
| Partitions.OriginalAt | src/datagen.c:1656-1668 | the eight letters written over a text always fit into it |
| Partitions.InFirstTenthIff | src/datagen.c:265-265 | a draw counts as below .10 exactly when its 53 leading bits are a number below 900719925474099 |
| Partitions.CreditIff | src/datagen.c:265-269 | the credit column is BC exactly for those draws, GC exactly for the others |
| Partitions.OriginalIff | src/datagen.c:1656-1668 | a text holds ORIGINAL exactly when the first private draw is one of those, at the place the second says |
| Partitions.DataIs | src/datagen.c:844-858 | the characters of i_data and s_data come from the generator the first draw seeds, ORIGINAL and its place from the one the second draw seeds |
| Partitions.LineCountIs | src/datagen.c:1295-1297 | an order has five lines and as many more as the first private draw, scaled to eleven, says |
| Datagen.DrawField | src/datagen.c:197-301 | each kind of field takes its number of draws and writes the specified cell; the credit column is BC exactly for draws whose 53 leading bits are below 900719925474099 |
| Datagen.WriteOrder | src/datagen.c:1259-1406 | an order row and its lines, the lines drawn from the private stream that one draw of the main stream seeds |
| Datagen.WriteFromList | src/datagen.c:1253-1274 | orders take the customers of the list in turn; it gives up exactly when there are more orders than customers in the list |
| Datagen.Generator.constructor | src/datagen.c:118-180 | seeding and, after the first partition, the jump |
| Datagen.Generate | src/datagen.c:101-340 | the loops of a generator write exactly the rows of the partition, or exit exactly when the partition has a warehouse and an order finds no customer |
| Datagen.PartitionBounds | src/datagen.c:112-116 | start and end as the rounded divisions give them |
| Datagen.GenerateAll | src/datagen.c:2111-2134 | running all partitions of a table writes what a single run writes, and fails exactly where it does |
| ClientInvariants.StepKeepsInvariant | src/listener.c:127-175 | every step of every thread keeps the whole invariant |
| ClientInvariants.RunKeepsInvariant | src/db_threadpool.c:79-124 | so does every interleaving of any number of threads |
| ClientInvariants.OnePlace | src/listener.c:30-52 | every live node is in exactly one place: with one listener, in the queue, with one worker, or free, and there once |
| ClientInvariants.StepKeepsNodes | src/listener.c:127-175 | live sockets belong to one node each, and whoever has a node has a live one |
| ClientInvariants.ListenerKeepsCounts | src/listener.c:132-156 | listeners without a node = nodes queued, with a worker, or free; semaphore, threads past its wait and an unposted append make up each list: kept by the listeners |
| ClientInvariants.WorkerKeepsCounts | src/db_threadpool.c:84-117 | the same kept by the workers |
| ClientInvariants.EmptyBranchesUnreachable | src/transaction_queue.c:59-69 | in every reachable state neither "list is empty" branch can be taken and no freed node is followed |
| ClientInvariants.StepKeepsAnswers | src/db_threadpool.c:89-109 | every request read is answered or carried by exactly one node; every reply goes to the socket its request came from, and none is sent twice |
| ClientInvariants.StepKeepsCounters | src/transaction_queue.c:78-104 | each queued and executing counter is the number of nodes of its type between its increment and its decrement |
| ClientInvariants.CountersNonNegative | src/db_threadpool.c:110-116 | hence never negative |
| ClientInvariants.WaitersAreOutstanding | src/listener.c:33-49 | in every reachable state listeners without a node = nodes queued, with a worker, or free, and each list is as long as its semaphore, the threads past its wait and an unposted append together |
| ClientInvariants.OneNodePerSocket | src/listener.c:87-107 | in every reachable state no two live nodes share a socket |
| ClientInvariants.RepliesGoHome | src/db_threadpool.c:102-109 | in every reachable state each reply went to the socket its request came from, after a transaction of the type requested, no request was answered twice, and each is answered or on its way |
| ClientInvariants.FirstInFirstOut | src/transaction_queue.c:60-122 | in every reachable state the nodes taken off the queue carried 1, 2, 3, ..., and those in it carry the next ids in order |
| ClientInvariants.SparesInOrder | src/listener.c:33-49 | in every reachable state the nodes taken off the free list are the first of those put on it, in that order, and the list holds the others |
| ClientInvariants.ListsAreLocked | src/transaction_queue.c:56-125 | in every reachable state, while a thread has a list's lock no other appends to the list or takes from it |
| ClientProgress.StepCounts | src/db_threadpool.c:79-124 | every internal step of any thread lowers the number of steps left by exactly one |
| ClientProgress.StuckIsQuiet | src/listener.c:33-49 | with a worker, a state in which nothing can move has no waiting listener |
| ClientProgress.EveryRequestAnswered | src/listener.c:132-156 | from every reachable state, however scheduled, the client without new input stops after exactly the counted number of steps with every request answered and every listener back at its socket |
| TransactionQueue.NodeList.Append | src/transaction_queue.c:106-115 | linking a node behind the tail appends it, whatever its next pointer was |
| TransactionQueue.NodeList.Pop | src/listener.c:38-49 | taking the head off yields the first node, null exactly for an empty list, and leaves the node's next pointer stale |
| TransactionQueue.Client.Enqueue | src/transaction_queue.c:97-125 | the node goes last with the next id, its type counted as queued, the free list untouched |
| TransactionQueue.Client.Dequeue | src/transaction_queue.c:56-94 | the first node leaves with the smallest id in the queue and moves from one counter to the other |
| TransactionQueue.Client.Finish | src/db_threadpool.c:110-117 | the node is uncounted and goes to the end of the free list |
| TransactionQueue.Client.GetNode | src/listener.c:30-52 | the first free node, null exactly if there is none |
| SemaphoreMonitor.RunKeepsInvariant | src/_semaphore.c:34-80 | under every interleaving: while somebody sleeps, a broadcast is pending or the count is covered by woken threads and pending signals; the count is initial + posts - successful waits |
| SemaphoreMonitor.NobodyOversleeps | src/_semaphore.c:62-80 | once woken threads have run and signals are out, nobody sleeps beside a positive count |
| SemaphoreMonitor.CountBalances | src/_semaphore.c:34-80 | under every interleaving the count is what it was, plus what was posted, less one for every wait that found a positive count |
| SemaphoreMonitor.Semaphore.Wait | src/_semaphore.c:34-47 | a wait takes one or goes to sleep |
| SemaphoreMonitor.Semaphore.TryWait | src/_semaphore.c:49-60 | 0 and one taken exactly when the count is positive, else -1 and no change |
| SemaphoreMonitor.Semaphore.Post | src/_semaphore.c:62-70 | the count grows by one, a signal is due |
| SemaphoreMonitor.Semaphore.PostMultiple | src/_semaphore.c:72-80 | the count grows by the given number, a broadcast is due |
| ProcessTransaction.Session.ProcessTransaction | src/db.c:107-219 | ends whenever the stop time passes or, without one, the database comes back; status and actions are those of `Process`, which ProcessFollows describes |
| ProcessTransaction.ProcessFollows | src/db.c:171-219 | what the database accepts is committed next, what it refuses and every flagged New-Order is rolled back next; the run ends there on OK or STATUS_ROLLBACK; any other code or answer is followed by a disconnection and reconnection, one second attempt of the same kind, and then the last answer; ERROR where a reconnection fails |
| ProcessTransaction.CommittedOrRolledBack | src/db.c:171-178 | accepted and committed: OK after one execution and one commit; refused or flagged and rolled back: STATUS_ROLLBACK after one execution and one rollback |
| ProcessTransaction.UnknownRefused | src/db.c:165-167 | a type other than 0 to 4 and 10 returns ERROR without any action |
| ProcessTransaction.Session.Reconnect | src/db.c:186-210 | the tries are the next calls of connect, each a failure but a last one that is OK; it gives up only past the stop time |
| ProcessTransaction.Session.ConnectToDb | src/db.c:62-94 | the tries are the next calls of connect, stopping at the first OK; one look at the clock before each, ERROR exactly at the first look past the stop time |
| ProcessTransaction.Session.Attempt | src/db.c:124-180 | one execution with o_all_local computed, then commit, rollback or neither by the return code |
| ProcessTransaction.AttemptsCount | src/db.c:120-180 | at most two executions, at most one successful commit, and no commit of a New-Order that is flagged for rollback |
| ProcessTransaction.CommitEnds | src/db.c:171-175 | nothing follows a successful commit, and OK is returned after it |
| ProcessTransaction.TrustworthyIffHonest | src/db.c:171-218 | OK is returned exactly when a commit succeeded and was the last action, in every run, exactly when rollback never answers OK |
| ProcessTransaction.OkWithoutCommit | src/db.c:176-218 | for a rollback that answers OK a run that returns OK and commits nothing |
| Cursor.Result.Execute | src/sqlite/dbc_common.c:131-139 | the first row is fetched ahead of its time; a query without rows does not keep running |
| Cursor.Result.FetchRow | src/sqlite/dbc_common.c:142-174 | each row once and in order, then the statement is finalized |
| Cursor.Result.Close | src/sqlite/dbc_common.c:176-189 | the statement ends up finalized exactly once, whether or not the rows were read to the end |
| Cursor.Grow | src/nonsp/dbc_order_status.c:112-143 | the array doubles from 16 and keeps its contents |
| Cursor.PickMiddle | src/nonsp/dbc_order_status.c:107-162 | all rows are read, every write in bounds, and row (n - 1) / 2 is picked; -1 for no rows or a null |
| Cursor.FindCustomer | src/nonsp/dbc_order_status.c:81-178 | the picked customer, or -1 where the source gives up, with the statement finalized exactly once |
| Cursor.MiddleIsHalfRoundedUp | src/nonsp/dbc_order_status.c:83-83 | Clause 2.6.2.2: of n rows the picked one is at position n / 2 rounded up |

## Left out

- Money: float4 and numeric rounding of amounts; the model uses exact cents. Taxes, discounts and the total of an order are not modelled.
- Strings: names, addresses, c_data, s_data and the brand of a line; generated strings are positions in their alphabet, and dates only whether they are set.
- Concurrency of transactions: each stored procedure runs alone; isolation levels and lock waits are the database's.
- Width of C integers: row counters, quantities, amounts and the int products inside the advance counts are unbounded; the generator's states, seeds and advance distances wrap as in the source.
- Consistency.RunKeepsConsistent: does not include Clause 3.3.2.5, which the generated database violates; see DefaultLoad.ClauseFiveExactly.
- StoredProcedures.Database.Payment: takes the answer of the query by last name as an argument; the conditions are kept whatever it is, and MiddlePayer.PayerIsInTheMiddle assumes that it is the ordered listing.
- SeededLoad.RunsFromSeed: how a name is spelled (syllables, letters of the alphabets) is a parameter; everything else the transactions use is drawn from the seed.
- Partitions.PartitionsConcatenate: leaves out one order per district without customers, where later partitions start out of step (Partitions.StartsInStepIff); for the rounding of the bounds any monotone rounding within one part in 2^53 is allowed, of which the nearest double is one; timestamps are left out of the rows.
- RandomDraws.GetRandom: says nothing about max beyond 2^53, where the conversion to double rounds too; RandomDraws.ScaledExactly stops at 2^52, far above every bound the program uses.
- Generated files: direct load, rows per commit, delimiters and file names.
- ClientProtocol: the exiting flag, listener_worker_count, thread creation failures and INTEGRITY requests, whose type would index outside the counters; sem_wait is taken to succeed.
- SemaphoreMonitor: errno and failing mutexes, and wrap-around of the unsigned count.
- ProcessTransaction.Session.ProcessTransaction: sleeping between attempts is only time that passes; a database layer is its answers, and a commit that fails is taken to have no effect.
- Cursor.FindCustomer: allocation failures, and the MySQL branch; a statement that fails after some rows is treated as the source does, as if it had ended there.
- Order-Status and Stock-Level queries, the driver's timers and mix, sockets, pinning, logging and argument parsing.
- Other backends: their New-Order takes stock at the home warehouse and their Payment adds 1 to c_ytd_payment, so the stock and balance properties do not hold for them.
