/** The generators of src/datagen.c: nested loops that draw from one stream and write rows. */
module Datagen {
  import opened Common
  import opened Lcg
  import opened Pcg
  import opened Doubles
  import opened RandomDraws
  import opened RandomInsertion
  import opened TableLayouts
  import opened Partitions

  // ------------------------------------------------------------- one field, one row

  method Original(seed: nat, length: nat) returns (at: int)
    requires seed < WORD && 8 <= length < MANTISSA
    ensures at == OriginalAt(seed, length)
    ensures Seeded(seed) < MODULUS && (at >= 0 <==> Draw(Seeded(seed), 0) / 0x800 < TENTH_BITS)
  {
    hide Pow2, StateAfter, Draw, Scaled, InFirstTenth;
    var local := new Rng(seed);
    ghost var state := local.state;
    OriginalIff(seed, length);
    var percentage := local.Random();
    at := -1;
    if InFirstTenth(percentage) {
      NextDraw(state, 1);
      at := GetRandom(local, length - 7);
    }
  }

  method DrawField(rng: Rng, f: Field) returns (cell: Cell)
    requires rng.Valid()
    modifies rng
    ensures rng.Valid() && rng.state == StateAfter(old(rng.state), DrawsOfField(f))
    ensures cell == FieldCell(f, old(rng.state))
    ensures f == Credit ==> cell == Text(if Draw(old(rng.state), 0) / 0x800 < TENTH_BITS then "BC" else "GC")
  {
    hide Pow2, StateAfter, Draw, Scaled, InFirstTenth, NuRand, StringFrom, OriginalAt;
    ghost var start := rng.state;
    match f
    case Fixed(c) =>
      StartsHere(start);
      cell := c;
    case Random(max, plus) =>
      var v := GetRandom(rng, max);
      cell := Number(v + plus);
    case Price(max, plus) =>
      var v := GetRandom(rng, max);
      cell := Cents(v + plus);
    case Name =>
      var v := GetNuRand(rng, 255, 0, 999);
      cell := Number(v);
    case Credit =>
      var r := rng.Random();
      InFirstTenthIff(r);
      cell := Text(if InFirstTenth(r) then "BC" else "GC");
    case Str(lengths, letters) =>
      var s := GetString(rng, lengths.0, lengths.1, letters);
      cell := Letters(letters, s);
    case MaybeOriginal =>
      var s := GetString(rng, 26, 50, A_LETTERS);
      NextDraw(start, 1);
      var seed := rng.Random();
      StringFits(Draw(start, 0), 26, 50, A_LETTERS);
      var at := Original(seed, |s|);
      cell := Data(s, at);
    case LineCount =>
      var seed := rng.Random();
      var local := new Rng(seed);
      var n := GetRandom(local, 11);
      cell := Number(n + 5);
  }

  method DrawRow(rng: Rng, fields: seq<Field>) returns (cells: seq<Cell>)
    requires rng.Valid()
    modifies rng
    ensures rng.Valid() && rng.state == StateAfter(old(rng.state), DrawsOfFields(fields))
    ensures cells == Cells(old(rng.state), fields)
  {
    hide Pow2, StateAfter, Draw, FieldCell, DrawsOfField;
    ghost var start := rng.state;
    StartsHere(start);
    cells := [];
    for n := 0 to |fields|
      invariant rng.Valid() && rng.state == StateAfter(start, DrawsUpTo(fields, n))
      invariant cells == CellsUpTo(start, fields, n)
    {
      StateAfterSum(start, DrawsUpTo(fields, n), DrawsOfField(fields[n]));
      var cell := DrawField(rng, fields[n]);
      cells := cells + [cell];
    }
  }

  // ------------------------------------------------------------- one order and its lines

  lemma {:induction false} PrefixCells(state: nat, fields: seq<Field>, m: nat, n: nat)
    requires state < MODULUS && n <= m <= |fields|
    ensures DrawsUpTo(fields[..m], n) == DrawsUpTo(fields, n)
    ensures CellsUpTo(state, fields[..m], n) == CellsUpTo(state, fields, n)
  {
    hide FieldCell, StateAfter, DrawsOfField;
    if n > 0 { PrefixCells(state, fields, m, n - 1); }
  }

  lemma OrderDrawsBeforeCount(i: nat, j: nat, k: nat, customer: int)
    ensures |OrderFields(i, j, k, customer)| == 8
    ensures DrawsUpTo(OrderFields(i, j, k, customer), 6) == SeedDraw(k)
    ensures DrawsUpTo(OrderFields(i, j, k, customer), 7) == SeedDraw(k) + 1
  {
    hide DrawsUpTo;
    var f := OrderFields(i, j, k, customer);
    NoFields(f);
    FourFields(f, 0);
    NextField(f, 4);
    NextField(f, 5);
    NextField(f, 6);
  }

  lemma LastTwoCells(state: nat, fields: seq<Field>)
    requires state < MODULUS && |fields| == 8
    ensures Cells(state, fields) == CellsUpTo(state, fields, 6)
                                  + [FieldCell(fields[6], StateAfter(state, DrawsUpTo(fields, 6))),
                                     FieldCell(fields[7], StateAfter(state, DrawsUpTo(fields, 7)))]
  {
    hide FieldCell, StateAfter, DrawsUpTo;
    assert CellsUpTo(state, fields, 7)
        == CellsUpTo(state, fields, 6) + [FieldCell(fields[6], StateAfter(state, DrawsUpTo(fields, 6)))];
  }

  lemma LineCountCell(state: nat, n: nat)
    requires state < MODULUS
    ensures FieldCell(LineCount, StateAfter(state, n)) == Number(DrawnLineCount(Draw(state, n)))
  {
    hide StateAfter, Draw, DrawnLineCount;
    DrawShift(state, n, 0);
  }

  /** The order row falls into the fields before the line count, the line count, and a constant. */
  lemma OrderCells(state: nat, i: nat, j: nat, k: nat, customer: int)
    requires state < MODULUS
    ensures var f := OrderFields(i, j, k, customer);
            && |f| == 8 && DrawsOfFields(f[..6]) == SeedDraw(k)
            && Cells(state, f) == Cells(state, f[..6]) + [Number(DrawnLineCount(Draw(state, SeedDraw(k)))), Number(1)]
  {
    hide StateAfter, Draw, DrawnLineCount, DrawsUpTo, CellsUpTo, SeedDraw;
    var f := OrderFields(i, j, k, customer);
    OrderDrawsBeforeCount(i, j, k, customer);
    PrefixCells(state, f, 6, 6);
    LastTwoCells(state, f);
    LineCountCell(state, SeedDraw(k));
  }

  lemma SeedDrawIs(k: nat)
    ensures SeedDraw(k) == if k < CARRIED then 1 else 0
  {
  }

  method WriteOrder(rng: Rng, items: nat, i: nat, j: nat, k: nat, customer: int) returns (out: seq<FileLine>)
    requires rng.Valid()
    modifies rng
    ensures rng.Valid()
    ensures rng.state == StateAfter(old(rng.state), DrawsOfFields(OrderFields(i, j, k, customer)))
    ensures out == OrderOut(items, old(rng.state), i, j, k, customer)
  {
    hide Pow2, StateAfter, Draw, Scaled, Cells, DrawsOfFields, OrderFields, LineFields, SeedDraw;
    ghost var start := rng.state;
    OrderCells(start, i, j, k, customer);
    OrderRowDraws(i, j, k, customer);
    SeedDrawIs(k);
    var cells := DrawRow(rng, OrderFields(i, j, k, customer)[..6]);
    NextDraw(start, SeedDraw(k));
    var seed := rng.Random();
    var olRng := new Rng(seed);
    ghost var olStart := StateAfter(olRng.state, 1);
    var extra := GetRandom(olRng, 11);
    var count := extra + 5;
    out := [FileLine(TableFile(Orders), cells + [Number(count), Number(1)])];
    ghost var order := out;
    StartsHere(olStart);
    for l := 0 to count
      invariant rng.Valid() && rng.state == StateAfter(start, SeedDraw(k) + 1)
      invariant olRng.Valid() && olRng.state == StateAfter(olStart, DrawsOfLines(items, i, j, k, l))
      invariant out == order + OrderLines(items, olStart, i, j, k, l)
    {
      var fields := LineFields(items, i, j, k, l);
      StateAfterSum(olStart, DrawsOfLines(items, i, j, k, l), DrawsOfFields(fields));
      var lineCells := DrawRow(olRng, fields);
      out := out + [FileLine(OrderLineFile, lineCells)];
    }
  }

  lemma NoOrders(items: nat, state: nat, i: nat, j: nat, list: seq<int>)
    requires state < MODULUS
    ensures StateAfter(state, DrawsOfOrders(0)) == state && OrdersUpTo(items, state, i, j, list, 0) == []
  {
  }

  lemma NextOrder(items: nat, state: nat, i: nat, j: nat, list: seq<int>, k: nat)
    requires state < MODULUS && k < |list|
    ensures var here := StateAfter(state, DrawsOfOrders(k));
            && StateAfter(state, DrawsOfOrders(k + 1)) == StateAfter(here, DrawsOfFields(OrderFields(i, j, k, list[k])))
            && OrdersUpTo(items, state, i, j, list, k + 1)
            == OrdersUpTo(items, state, i, j, list, k) + OrderOut(items, here, i, j, k, list[k])
  {
    hide Pow2, StateAfter, OrderOut, DrawsOfFields, OrderFields;
    OrderRowDraws(i, j, k, list[k]);
    StateAfterSum(state, DrawsOfOrders(k), DrawsOfFields(OrderFields(i, j, k, list[k])));
  }

  /** One order per customer of the list, in turn; gives up (the source exits) when the list runs out. */
  method WriteFromList(c: Config, rng: Rng, i: nat, j: nat, head: ListNode, ghost nodes: seq<ListNode>)
    returns (ok: bool, out: seq<FileLine>)
    requires rng.Valid() && Linked(head, nodes)
    modifies rng
    ensures ok <==> c.orders <= |nodes|
    ensures ok ==> rng.Valid() && rng.state == StateAfter(old(rng.state), DrawsOfOrders(c.orders))
    ensures ok ==> out == OrdersUpTo(c.items, old(rng.state), i, j, old(Values(nodes)), c.orders)
  {
    hide Pow2, StateAfter, OrderOut, OrdersUpTo, DrawsOfOrders, SeedDraw, Values, Linked;
    ghost var start := rng.state;
    ghost var list := Values(nodes);
    LinkedMeans(head, nodes);
    NoOrders(c.items, start, i, j, list);
    out := [];
    var current: ListNode? := head;
    for k := 0 to c.orders
      invariant k <= |nodes| && current == At(nodes, k)
      invariant forall n :: 0 <= n < |nodes| ==> nodes[n].next == At(nodes, n + 1) && nodes[n].value == list[n]
      invariant rng.Valid() && rng.state == StateAfter(start, DrawsOfOrders(k))
      invariant out == OrdersUpTo(c.items, start, i, j, list, k)
    {
      if current == null {
        return false, out;
      }
      NextOrder(c.items, start, i, j, list, k);
      var order := WriteOrder(rng, c.items, i, j, k, current.value);
      out := out + order;
      current := current.next;
    }
    ok := true;
  }

  /** All orders of one district: build the random list, then serve the orders from it. */
  method DrawOrders(c: Config, rng: Rng, i: nat, j: nat) returns (ok: bool, out: seq<FileLine>)
    requires rng.Valid()
    modifies rng
    ensures ok <==> c.orders <= PickCount(c.customers) + 1
    ensures ok ==> rng.Valid() && rng.state == StateAfter(old(rng.state), DrawsOfUnit(c, OrdersOf(i, j)))
    ensures ok ==> out == DistrictOrders(c, old(rng.state), i, j)
  {
    hide Pow2, StateAfter, OrdersUpTo, DrawsOfOrders, Inserted, Picks, Values, Linked;
    StateAfterSum(rng.state, PickCount(c.customers), DrawsOfOrders(c.orders));
    var head, nodes := BuildList(rng, c.customers);
    ok, out := WriteFromList(c, rng, i, j, head, nodes);
  }

  /** Writing one more unit. */
  lemma NextUnit(c: Config, origin: nat, done: seq<Unit>, u: Unit)
    requires origin < MODULUS
    ensures var state := StateAfter(origin, DrawsOf(c, done));
            && Emit(c, origin, done + [u]) == Emit(c, origin, done) + EmitUnit(c, u, state)
            && StateAfter(origin, DrawsOf(c, done + [u])) == StateAfter(state, DrawsOfUnit(c, u))
  {
    hide Pow2, StateAfter, EmitUnit, DrawsOfUnit;
    assert (done + [u])[..|done + [u]| - 1] == done;
    StateAfterSum(origin, DrawsOf(c, done), DrawsOfUnit(c, u));
  }

  // ------------------------------------------------------------- one run of a generator

  /** The stream and the output of one generator; the ghost fields name the start and what was written. */
  class Generator {
    const c: Config
    const rng: Rng
    var lines: seq<FileLine>
    ghost var origin: nat
    ghost var done: seq<Unit>

    ghost predicate Valid()
      reads this, rng
    {
      && rng.Valid() && origin < MODULUS
      && rng.state == StateAfter(origin, DrawsOf(c, done))
      && lines == Emit(c, origin, done)
    }

    /** Seed the stream; every partition but the first jumps ahead. */
    constructor (c: Config, t: Table, seed: nat, part: nat, start: nat)
      requires seed < WORD
      ensures Valid() && fresh(rng)
      ensures this.c == c && done == [] && origin == StartState(c, t, seed, part, start)
    {
      var r := new Rng(seed);
      if part > 1 {
        var m := ComputeModulus();
        r.Advance(Delta(c, t, start) % m);
      }
      this.c := c;
      rng := r;
      lines := [];
      done := [];
      origin := r.state;
      new;
      StartsHere(r.state);
    }

    method WriteRow(t: Table, fields: seq<Field>)
      requires Valid()
      modifies this, rng
      ensures Valid() && origin == old(origin) && done == old(done) + [Row(t, fields)]
    {
      hide Pow2, StateAfter, Cells, DrawsOfFields, Emit, DrawsOf;
      NextUnit(c, origin, done, Row(t, fields));
      var cells := DrawRow(rng, fields);
      lines := lines + [FileLine(TableFile(t), cells)];
      done := done + [Row(t, fields)];
    }

    /** The finished output. */
    method Written() returns (out: seq<FileLine>)
      requires Valid()
      ensures out == Emit(c, origin, done)
    {
      out := lines;
    }

    /** The orders of one district. */
    method WriteOrders(i: nat, j: nat) returns (ok: bool)
      requires Valid()
      modifies this, rng
      ensures ok <==> c.orders <= PickCount(c.customers) + 1
      ensures ok ==> Valid() && origin == old(origin) && done == old(done) + [OrdersOf(i, j)]
    {
      hide Pow2, StateAfter, DistrictOrders, Emit, DrawsOf;
      NextUnit(c, origin, done, OrdersOf(i, j));
      var out;
      ok, out := DrawOrders(c, rng, i, j);
      lines := lines + out;
      done := done + [OrdersOf(i, j)];
    }

    /** The innermost loop: rows k = lo..hi-1. */
    method WriteNumbered(t: Table, i: nat, j: nat, lo: int, hi: int)
      requires Valid() && (t == Customer || t == History || t == Stock || t == NewOrder)
      modifies this, rng
      ensures Valid() && origin == old(origin) && done == old(done) + Numbered(t, i, j, lo, hi)
    {
      hide Pow2, Valid;
      var k := lo;
      while k < hi
        invariant lo <= k && (k <= hi || k == lo)
        invariant Valid() && origin == old(origin) && done == old(done) + Numbered(t, i, j, lo, k)
        decreases hi - k
      {
        match t {
          case Customer => WriteRow(t, CustomerFields(i, j, k));
          case History => WriteRow(t, HistoryFields(i, j, k));
          case Stock => WriteRow(t, StockFields(i, k));
          case NewOrder => WriteRow(t, NewOrderFields(i, j, k));
        }
        k := k + 1;
      }
    }

    /** One district. */
    method WriteDistrict(t: Table, i: nat, j: nat) returns (ok: bool)
      requires Valid() && t != Item && t != Stock && t != Warehouse
      modifies this, rng
      ensures ok <==> Fits(c, t)
      ensures ok ==> Valid() && origin == old(origin) && done == old(done) + InDistrict(c, t, i, j)
    {
      hide Pow2, Valid, Numbered;
      ok := true;
      match t
      case Customer => WriteNumbered(t, i, j, 0, c.customers);
      case History => WriteNumbered(t, i, j, 0, c.customers);
      case NewOrder => WriteNumbered(t, i, j, c.orders - c.newOrders, c.orders);
      case Orders => ok := WriteOrders(i, j);
      case District => WriteRow(t, DistrictFields(i, j));
    }

    /** The ten districts of a warehouse. */
    method WriteDistricts(t: Table, i: nat) returns (ok: bool)
      requires Valid() && t != Item && t != Stock && t != Warehouse
      modifies this, rng
      ensures ok <==> Fits(c, t)
      ensures ok ==> Valid() && origin == old(origin) && done == old(done) + Districts(c, t, i, DISTRICTS)
    {
      hide Pow2, Valid, Numbered, InDistrict, Fits;
      var j := 0;
      while j < DISTRICTS
        invariant 0 <= j <= DISTRICTS && (j > 0 ==> Fits(c, t))
        invariant Valid() && origin == old(origin) && done == old(done) + Districts(c, t, i, j)
      {
        ok := WriteDistrict(t, i, j);
        if !ok { return false; }
        j := j + 1;
      }
      ok := true;
    }

    /** One warehouse (one item). */
    method WriteBlock(t: Table, i: nat) returns (ok: bool)
      requires Valid()
      modifies this, rng
      ensures ok <==> Fits(c, t)
      ensures ok ==> Valid() && origin == old(origin) && done == old(done) + Block(c, t, i)
    {
      hide Pow2, Valid, Numbered, Districts;
      ok := true;
      match t
      case Item => WriteRow(t, ItemFields(i));
      case Stock => WriteNumbered(t, i, 0, 0, c.items);
      case Warehouse => WriteRow(t, WarehouseFields(i));
      case _ => ok := WriteDistricts(t, i);
    }
  }

  // ------------------------------------------------------------- the generators

  /** gen_customers, gen_districts, gen_history, gen_items, gen_new_orders, gen_orders, gen_stock and
      gen_warehouses: the loop over warehouses (items) of one partition. `ok` is false where the source
      exits because an order finds no customer. */
  method Generate(c: Config, t: Table, seed: nat, part: nat, start: nat, end: nat)
    returns (ok: bool, lines: seq<FileLine>)
    requires seed < WORD
    ensures Written(c, t, seed, part, start, end) == if ok then Some(lines) else None
  {
    hide Pow2, StartState, Emit, Generator.Valid, Block, Fits;
    var g := new Generator(c, t, seed, part, start);
    lines := [];
    var i := start;
    while i < end
      invariant start <= i && (i <= end || i == start) && (i > start ==> Fits(c, t))
      invariant fresh(g) && fresh(g.rng) && g.Valid() && g.origin == StartState(c, t, seed, part, start)
      invariant g.done == Blocks(c, t, start, i)
    {
      ok := g.WriteBlock(t, i);
      if !ok { return false, lines; }
      i := i + 1;
    }
    ok := true;
    lines := g.Written();
  }

  /** start and end of a partition, from the rounded divisions. */
  method PartitionBounds(fl: real -> real, w: Count, parts: Count, part: nat) returns (start: nat, end: nat)
    requires 1 <= part <= parts && Rounds(fl)
    ensures start == Bound(fl, w, parts, part - 1) && end == End(fl, w, parts, part)
  {
    hide Rounds;
    BoundsMonotone(fl, w, parts, part - 1);
    var size := fl(w as real / parts as real);
    assert size == fl(Quotient(w, parts));
    assert size * (part - 1) as real == Product(fl, w, parts, part - 1);
    assert size * part as real == Product(fl, w, parts, part);
    start := RoundHalfUp(fl(size * (part - 1) as real));
    end := RoundHalfUp(fl(size * part as real));
    end := if end > w then w else end;
  }

  /** The whole job, partition by partition: the output, or the failure, is that of a single run. */
  method GenerateAll(c: Config, t: Table, seed: nat, fl: real -> real, w: Count, parts: Count)
    returns (ok: bool, lines: seq<FileLine>)
    requires seed < WORD && 1 <= parts && Rounds(fl) && !OutOfStep(c, t)
    ensures Written(c, t, seed, 1, 0, w) == if ok then Some(lines) else None
  {
    hide Pow2, Rounds, Written, Bound, End, OutOfStep;
    ok, lines := true, [];
    var part := 1;
    while part <= parts
      invariant 1 <= part <= parts + 1
      invariant Pieces(c, t, seed, fl, w, parts, part - 1) == if ok then Some(lines) else None
    {
      var start, end := PartitionBounds(fl, w, parts, part);
      var done, piece := Generate(c, t, seed, part, start, end);
      ok := ok && done;
      lines := lines + piece;
      part := part + 1;
    }
    PartitionsConcatenate(c, t, seed, fl, w, parts);
  }
}
