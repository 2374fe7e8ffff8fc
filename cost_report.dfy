/**
 * generate_cost_report.py: `get_date_from_filename` and the daily cost table
 * `main` builds from the stored orders of the three platforms before it hands
 * the table to pandas. `daily_costs`, a dict that keeps insertion order, is an
 * association list of rows with distinct dates; the list `data` that `main`
 * builds from `daily_costs.items()` is the same rows in the same order, so the
 * two share one representation here.
 */
module CostReport {
  import opened Wrappers
  import opened Python

  /** `get_date_from_filename`: the part of the name before its first '.'. */
  function DateFromFilename(filename: string): (r: string)
    ensures r <= filename && '.' !in r
    ensures |r| < |filename| ==> filename[|r|] == '.'
    ensures '.' !in filename ==> r == filename
  {
    SplitFirst(filename, '.')
  }

  // ---------------------------------------------------------------------------
  // Rows of the daily table

  datatype Column = PrintfulCost | PrintifyCost | BurgerCost

  /** One value of `daily_costs`: the three platform columns and their running total. */
  datatype DayCosts = DayCosts(printful: real, printify: real, burger: real, total: real)

  /** What the `defaultdict` factory creates for a date not seen before. */
  const Zero := DayCosts(0.0, 0.0, 0.0, 0.0)

  datatype Row = Row(date: string, costs: DayCosts)

  function Cost(c: DayCosts, col: Column): real {
    match col
    case PrintfulCost => c.printful
    case PrintifyCost => c.printify
    case BurgerCost => c.burger
  }

  /** `costs[col] += p; costs["total"] += p`. */
  function AddTo(c: DayCosts, col: Column, p: real): DayCosts {
    match col
    case PrintfulCost => c.(printful := c.printful + p, total := c.total + p)
    case PrintifyCost => c.(printify := c.printify + p, total := c.total + p)
    case BurgerCost => c.(burger := c.burger + p, total := c.total + p)
  }

  /** `daily_costs[e]` as the defaultdict hands it out: the costs of the first row dated `e`, or all zeros. */
  function CostsOn(rows: seq<Row>, e: string): DayCosts
    decreases |rows|
  {
    if rows == [] then Zero
    else if rows[0].date == e then rows[0].costs
    else CostsOn(rows[1..], e)
  }

  /**
   * `daily_costs[d][col] += p; daily_costs[d]["total"] += p`, a new date going
   * to the end: date `d` gains `p` in column `col` and in its total, and every
   * other date keeps its costs.
   */
  function AddCost(rows: seq<Row>, d: string, col: Column, p: real): (r: seq<Row>)
    ensures forall e :: CostsOn(r, e) == if e == d then AddTo(CostsOn(rows, d), col, p) else CostsOn(rows, e)
    ensures |rows| <= |r| <= |rows| + 1
    decreases |rows|
  {
    if rows == [] then [Row(d, AddTo(Zero, col, p))]
    else if rows[0].date == d then
      assert ([Row(d, AddTo(rows[0].costs, col, p))] + rows[1..])[1..] == rows[1..];
      [Row(d, AddTo(rows[0].costs, col, p))] + rows[1..]
    else
      var tail := AddCost(rows[1..], d, col, p);
      assert ([rows[0]] + tail)[1..] == tail;
      [rows[0]] + tail
  }

  /** The dates of the rows. */
  function Dates(rows: seq<Row>): set<string>
    decreases |rows|
  {
    if rows == [] then {} else {rows[0].date} + Dates(rows[1..])
  }

  /** No date has two rows, as in a dict. */
  predicate UniqueDates(rows: seq<Row>)
    decreases |rows|
  {
    rows == [] || (rows[0].date !in Dates(rows[1..]) && UniqueDates(rows[1..]))
  }

  /** Every row's total is the sum of its three platform columns. */
  predicate Balanced(rows: seq<Row>) {
    forall i :: 0 <= i < |rows| ==>
      rows[i].costs.total == rows[i].costs.printful + rows[i].costs.printify + rows[i].costs.burger
  }

  function SumTotal(rows: seq<Row>): real
    decreases |rows|
  {
    if rows == [] then 0.0 else rows[0].costs.total + SumTotal(rows[1..])
  }

  function SumColumn(rows: seq<Row>, col: Column): real
    decreases |rows|
  {
    if rows == [] then 0.0 else Cost(rows[0].costs, col) + SumColumn(rows[1..], col)
  }

  /** With distinct dates, the costs a date is looked up to are those of its own row. */
  lemma {:induction false} CostsOnUnique(rows: seq<Row>, i: int)
    requires UniqueDates(rows) && 0 <= i < |rows|
    ensures CostsOn(rows, rows[i].date) == rows[i].costs
    decreases |rows|
  {
    if i > 0 {
      DatesMember(rows[1..], rows[i].date);
      assert rows[1..][i - 1] == rows[i];
      CostsOnUnique(rows[1..], i - 1);
    }
  }

  /** A date is among the dates of the rows exactly when some row carries it. */
  lemma {:induction false} DatesMember(rows: seq<Row>, x: string)
    ensures x in Dates(rows) <==> exists i :: 0 <= i < |rows| && rows[i].date == x
    decreases |rows|
  {
    if rows != [] {
      DatesMember(rows[1..], x);
      if x in Dates(rows[1..]) {
        var i :| 0 <= i < |rows[1..]| && rows[1..][i].date == x;
        assert rows[i + 1].date == x;
      }
      if exists i :: 0 <= i < |rows| && rows[i].date == x {
        var i :| 0 <= i < |rows| && rows[i].date == x;
        if i > 0 { assert rows[1..][i - 1].date == x; }
      }
    }
  }

  /** Adding a cost adds it to the grand total, and to its own column and no other. */
  lemma {:induction false} AddCostSums(rows: seq<Row>, d: string, col: Column, p: real)
    ensures SumTotal(AddCost(rows, d, col, p)) == SumTotal(rows) + p
    ensures forall c :: SumColumn(AddCost(rows, d, col, p), c) == SumColumn(rows, c) + (if c == col then p else 0.0)
    decreases |rows|
  {
    if rows != [] && rows[0].date != d {
      AddCostSums(rows[1..], d, col, p);
      assert AddCost(rows, d, col, p)[1..] == AddCost(rows[1..], d, col, p);
    }
  }

  /** Adding a cost adds its date, keeps the dates distinct and every row balanced. */
  lemma {:induction false} AddCostShape(rows: seq<Row>, d: string, col: Column, p: real)
    ensures Dates(AddCost(rows, d, col, p)) == Dates(rows) + {d}
    ensures UniqueDates(rows) ==> UniqueDates(AddCost(rows, d, col, p))
    ensures Balanced(rows) ==> Balanced(AddCost(rows, d, col, p))
    decreases |rows|
  {
    var r := AddCost(rows, d, col, p);
    if rows == [] {
    } else if rows[0].date == d {
      assert r[1..] == rows[1..];
    } else {
      AddCostShape(rows[1..], d, col, p);
      assert r[1..] == AddCost(rows[1..], d, col, p);
      if Balanced(rows) {
        assert Balanced(rows[1..]) by {
          forall i | 0 <= i < |rows[1..]| ensures rows[1..][i] == rows[i + 1] { }
        }
        forall i | 0 <= i < |r|
          ensures r[i].costs.total == r[i].costs.printful + r[i].costs.printify + r[i].costs.burger
        {
          if i > 0 { assert r[i] == r[1..][i - 1]; }
        }
      }
    }
  }

  // ---------------------------------------------------------------------------
  // One stored order

  /**
   * The date key of a stored order, `order.get("order_date", "").split(" ")[0]`
   * when `order.get("order_date")` is truthy, and `None` otherwise or when that
   * key is empty (the `if date_str` test).
   */
  function OrderDay(order: Json): (r: Result<Option<string>, Error>)
    ensures order.Obj? && "order_date" !in order.fields ==> r == Ok(None)
    ensures HasKey(order, "order_date") && !Truthy(order.fields["order_date"]) ==> r == Ok(None)
    ensures HasKey(order, "order_date") && Truthy(order.fields["order_date"]) && !order.fields["order_date"].Str? ==>
              r == Err(AttributeError)
    ensures HasKey(order, "order_date") && order.fields["order_date"].Str? ==>
              var day := SplitFirst(order.fields["order_date"].s, ' ');
              r == if day == "" then Ok(None) else Ok(Some(day))
    ensures r.Ok? && r.value.Some? ==>
              && HasKey(order, "order_date") && order.fields["order_date"].Str?
              && r.value.value != ""
              && r.value.value == SplitFirst(order.fields["order_date"].s, ' ')
    ensures !order.Obj? ==> r == Err(AttributeError)
  {
    var value :- Get(order, "order_date", Null);
    if !Truthy(value) then Ok(None)
    else if !value.Str? then Err(AttributeError)
    else
      var day := SplitFirst(value.s, ' ');
      if day == "" then Ok(None) else Ok(Some(day))
  }

  /** `float(order.get("final_price", 0))`. */
  function FinalPrice(rt: Runtime, order: Json): (r: Result<real, Error>)
    ensures order.Obj? && "final_price" !in order.fields ==> r == Ok(0.0)
    ensures HasKey(order, "final_price") ==> r == ToFloat(rt, order.fields["final_price"])
  {
    var price :- Get(order, "final_price", Int(0));
    ToFloat(rt, price)
  }

  /** The body of one platform loop for one order. */
  function Step(rt: Runtime, rows: seq<Row>, col: Column, order: Json): (r: Result<seq<Row>, Error>)
    ensures OrderDay(order) == Ok(None) ==> r == Ok(rows)
    ensures OrderDay(order).Ok? && OrderDay(order).value.Some? && FinalPrice(rt, order).Ok? ==>
              r == Ok(AddCost(rows, OrderDay(order).value.value, col, FinalPrice(rt, order).value))
  {
    var day :- OrderDay(order);
    match day
    case None => Ok(rows)
    case Some(d) =>
      var price :- FinalPrice(rt, order);
      Ok(AddCost(rows, d, col, price))
  }

  /** One platform loop: every order of the list, in order, the first exception aborting. */
  function Accumulate(rt: Runtime, rows: seq<Row>, col: Column, orders: seq<Json>): Result<seq<Row>, Error>
    decreases |orders|
  {
    if orders == [] then Ok(rows)
    else
      var before :- Accumulate(rt, rows, col, orders[..|orders| - 1]);
      Step(rt, before, col, orders[|orders| - 1])
  }

  /** The sum of `final_price` over the orders that have a date. */
  function DatedPriceSum(rt: Runtime, orders: seq<Json>): real
    decreases |orders|
  {
    if orders == [] then 0.0
    else
      var last := orders[|orders| - 1];
      DatedPriceSum(rt, orders[..|orders| - 1])
      + (if OrderDay(last).Ok? && OrderDay(last).value.Some? && FinalPrice(rt, last).Ok?
         then FinalPrice(rt, last).value else 0.0)
  }

  /** The sum of `final_price` over the orders dated `e`. */
  function DatedPriceSumOn(rt: Runtime, orders: seq<Json>, e: string): real
    decreases |orders|
  {
    if orders == [] then 0.0
    else
      var last := orders[|orders| - 1];
      DatedPriceSumOn(rt, orders[..|orders| - 1], e)
      + (if OrderDay(last) == Ok(Some(e)) && FinalPrice(rt, last).Ok? then FinalPrice(rt, last).value else 0.0)
  }

  /** The dates of the orders that have one. */
  function DaysOf(orders: seq<Json>): set<string>
    decreases |orders|
  {
    if orders == [] then {}
    else
      var last := orders[|orders| - 1];
      DaysOf(orders[..|orders| - 1]) + (if OrderDay(last).Ok? && OrderDay(last).value.Some? then {OrderDay(last).value.value} else {})
  }

  /**
   * A platform loop adds the prices of its dated orders to the grand total and
   * to its own column, keeps the rows balanced and their dates distinct, and
   * adds exactly the dates of its dated orders.
   */
  lemma {:induction false} AccumulateFacts(rt: Runtime, rows: seq<Row>, col: Column, orders: seq<Json>)
    requires Accumulate(rt, rows, col, orders).Ok?
    ensures var r := Accumulate(rt, rows, col, orders).value;
            && SumTotal(r) == SumTotal(rows) + DatedPriceSum(rt, orders)
            && (forall c :: SumColumn(r, c) == SumColumn(rows, c) + (if c == col then DatedPriceSum(rt, orders) else 0.0))
            && (Balanced(rows) ==> Balanced(r))
            && (UniqueDates(rows) ==> UniqueDates(r))
            && Dates(r) == Dates(rows) + DaysOf(orders)
    decreases |orders|
  {
    if orders != [] {
      var init := orders[..|orders| - 1];
      var last := orders[|orders| - 1];
      AccumulateFacts(rt, rows, col, init);
      var before := Accumulate(rt, rows, col, init).value;
      if OrderDay(last).value.Some? {
        AddCostSums(before, OrderDay(last).value.value, col, FinalPrice(rt, last).value);
        AddCostShape(before, OrderDay(last).value.value, col, FinalPrice(rt, last).value);
      }
    }
  }

  /**
   * A platform loop adds to date `e`, in its own column and in the total, the
   * prices of exactly the orders dated `e`, and leaves the other columns alone.
   */
  lemma {:induction false} AccumulateOn(rt: Runtime, rows: seq<Row>, col: Column, orders: seq<Json>, e: string)
    requires Accumulate(rt, rows, col, orders).Ok?
    ensures var r := Accumulate(rt, rows, col, orders).value;
            && (forall c :: Cost(CostsOn(r, e), c) == Cost(CostsOn(rows, e), c) + (if c == col then DatedPriceSumOn(rt, orders, e) else 0.0))
            && CostsOn(r, e).total == CostsOn(rows, e).total + DatedPriceSumOn(rt, orders, e)
    decreases |orders|
  {
    if orders != [] {
      var init := orders[..|orders| - 1];
      AccumulateOn(rt, rows, col, init, e);
    }
  }

  /** The three loops of `main`, Printful first, then Printify, then Burger Prints. */
  function DailyCosts(rt: Runtime, printful: seq<Json>, printify: seq<Json>, burger: seq<Json>): Result<seq<Row>, Error> {
    var afterPrintful :- Accumulate(rt, [], PrintfulCost, printful);
    var afterPrintify :- Accumulate(rt, afterPrintful, PrintifyCost, printify);
    Accumulate(rt, afterPrintify, BurgerCost, burger)
  }

  // ---------------------------------------------------------------------------
  // Sorting by date (`df.sort_values('date')`)

  /** Python's `<` on strings: code-point lexicographic order. */
  predicate LexLt(a: string, b: string)
    decreases |a|
  {
    if a == [] then b != []
    else if b == [] then false
    else a[0] < b[0] || (a[0] == b[0] && LexLt(a[1..], b[1..]))
  }

  lemma {:induction false} LexLtIrreflexive(a: string)
    ensures !LexLt(a, a)
    decreases |a|
  {
    if a != [] {
      LexLtIrreflexive(a[1..]);
    }
  }

  lemma {:induction false} LexLtTransitive(a: string, b: string, c: string)
    requires LexLt(a, b) && LexLt(b, c)
    ensures LexLt(a, c)
    decreases |a|
  {
    if a != [] && a[0] == b[0] && b[0] == c[0] {
      LexLtTransitive(a[1..], b[1..], c[1..]);
    }
  }

  lemma {:induction false} LexLtTotal(a: string, b: string)
    requires a != b
    ensures LexLt(a, b) || LexLt(b, a)
    decreases |a|
  {
    if a != [] && b != [] && a[0] == b[0] {
      assert a == [a[0]] + a[1..] && b == [b[0]] + b[1..];
      LexLtTotal(a[1..], b[1..]);
    }
  }

  /** Each row's date is strictly below the next row's. */
  predicate StrictlySorted(rows: seq<Row>)
    decreases |rows|
  {
    |rows| <= 1 || (LexLt(rows[0].date, rows[1].date) && StrictlySorted(rows[1..]))
  }

  function Insert(x: Row, rows: seq<Row>): (r: seq<Row>)
    ensures |r| == |rows| + 1
    decreases |rows|
  {
    if rows == [] || LexLt(x.date, rows[0].date) then [x] + rows
    else [rows[0]] + Insert(x, rows[1..])
  }

  function SortByDate(rows: seq<Row>): (r: seq<Row>)
    ensures |r| == |rows|
    decreases |rows|
  {
    if rows == [] then [] else Insert(rows[0], SortByDate(rows[1..]))
  }

  /** Inserting adds one row: to the multiset, to the dates and to every sum. */
  lemma {:induction false} InsertContents(x: Row, rows: seq<Row>)
    ensures multiset(Insert(x, rows)) == multiset(rows) + multiset{x}
    ensures Dates(Insert(x, rows)) == Dates(rows) + {x.date}
    ensures SumTotal(Insert(x, rows)) == x.costs.total + SumTotal(rows)
    ensures forall c :: SumColumn(Insert(x, rows), c) == Cost(x.costs, c) + SumColumn(rows, c)
    decreases |rows|
  {
    if rows != [] && !LexLt(x.date, rows[0].date) {
      InsertContents(x, rows[1..]);
      assert Insert(x, rows)[1..] == Insert(x, rows[1..]);
      assert rows == [rows[0]] + rows[1..];
    }
  }

  /** Inserting a new date into strictly sorted rows keeps them strictly sorted. */
  lemma {:induction false} InsertSorted(x: Row, rows: seq<Row>)
    requires StrictlySorted(rows) && x.date !in Dates(rows)
    ensures StrictlySorted(Insert(x, rows))
    ensures Insert(x, rows)[0] == x || Insert(x, rows)[0] == rows[0]
    decreases |rows|
  {
    if rows != [] && !LexLt(x.date, rows[0].date) {
      var tail := rows[1..];
      InsertSorted(x, tail);
      LexLtTotal(x.date, rows[0].date);
      var r := Insert(x, rows);
      assert r[1..] == Insert(x, tail);
    }
  }

  /** Sorting keeps the rows, their dates and their sums. */
  lemma {:induction false} SortByDateContents(rows: seq<Row>)
    ensures multiset(SortByDate(rows)) == multiset(rows)
    ensures Dates(SortByDate(rows)) == Dates(rows)
    ensures SumTotal(SortByDate(rows)) == SumTotal(rows)
    ensures forall c :: SumColumn(SortByDate(rows), c) == SumColumn(rows, c)
    decreases |rows|
  {
    if rows != [] {
      SortByDateContents(rows[1..]);
      InsertContents(rows[0], SortByDate(rows[1..]));
      assert rows == [rows[0]] + rows[1..];
    }
  }

  /** Rows with distinct dates sort into strictly increasing dates. */
  lemma {:induction false} SortByDateSorted(rows: seq<Row>)
    requires UniqueDates(rows)
    ensures StrictlySorted(SortByDate(rows))
    decreases |rows|
  {
    if rows != [] {
      SortByDateSorted(rows[1..]);
      SortByDateContents(rows[1..]);
      InsertSorted(rows[0], SortByDate(rows[1..]));
    }
  }

  /** A permutation of balanced rows is balanced. */
  lemma PermutationBalanced(rows: seq<Row>, original: seq<Row>)
    requires multiset(rows) == multiset(original) && Balanced(original)
    ensures Balanced(rows)
  {
    forall i | 0 <= i < |rows|
      ensures rows[i].costs.total == rows[i].costs.printful + rows[i].costs.printify + rows[i].costs.burger
    {
      assert rows[i] in multiset(original);
      var k :| 0 <= k < |original| && original[k] == rows[i];
    }
  }

  /** In strictly sorted rows every earlier date is below every later one. */
  lemma {:induction false} StrictlySortedIncreasing(rows: seq<Row>)
    requires StrictlySorted(rows)
    ensures forall i, j :: 0 <= i < j < |rows| ==> LexLt(rows[i].date, rows[j].date)
    decreases |rows|
  {
    if |rows| > 1 {
      var tail := rows[1..];
      StrictlySortedIncreasing(tail);
      forall i, j | 0 <= i < j < |rows| ensures LexLt(rows[i].date, rows[j].date) {
        if i > 0 {
          assert rows[i] == tail[i - 1] && rows[j] == tail[j - 1];
        } else if j > 1 {
          assert rows[1] == tail[0] && rows[j] == tail[j - 1];
          LexLtTransitive(rows[0].date, rows[1].date, rows[j].date);
        }
      }
    }
  }

  /** Strictly sorted rows have distinct dates. */
  lemma {:induction false} StrictlySortedUnique(rows: seq<Row>)
    requires StrictlySorted(rows)
    ensures UniqueDates(rows)
    decreases |rows|
  {
    if rows != [] {
      var tail := rows[1..];
      if |rows| > 1 {
        StrictlySortedUnique(tail);
      }
      StrictlySortedIncreasing(rows);
      DatesMember(tail, rows[0].date);
      if rows[0].date in Dates(tail) {
        var i :| 0 <= i < |tail| && tail[i].date == rows[0].date;
        assert rows[i + 1] == tail[i];
        LexLtIrreflexive(rows[0].date);
      }
    }
  }

  /**
   * The three loops leave one balanced row per date that some order has; each
   * column sums to the prices of that platform's dated orders.
   */
  lemma DailyCostsFacts(rt: Runtime, printful: seq<Json>, printify: seq<Json>, burger: seq<Json>)
    requires DailyCosts(rt, printful, printify, burger).Ok?
    ensures var rows := DailyCosts(rt, printful, printify, burger).value;
            && UniqueDates(rows)
            && Balanced(rows)
            && Dates(rows) == DaysOf(printful) + DaysOf(printify) + DaysOf(burger)
            && SumColumn(rows, PrintfulCost) == DatedPriceSum(rt, printful)
            && SumColumn(rows, PrintifyCost) == DatedPriceSum(rt, printify)
            && SumColumn(rows, BurgerCost) == DatedPriceSum(rt, burger)
            && SumTotal(rows) == DatedPriceSum(rt, printful) + DatedPriceSum(rt, printify) + DatedPriceSum(rt, burger)
  {
    var a := Accumulate(rt, [], PrintfulCost, printful).value;
    AccumulateFacts(rt, [], PrintfulCost, printful);
    var b := Accumulate(rt, a, PrintifyCost, printify).value;
    AccumulateFacts(rt, a, PrintifyCost, printify);
    AccumulateFacts(rt, b, BurgerCost, burger);
  }

  /** After the three loops each date holds, per platform, the prices of that platform's orders of that date. */
  lemma DailyCostsOn(rt: Runtime, printful: seq<Json>, printify: seq<Json>, burger: seq<Json>, e: string)
    requires DailyCosts(rt, printful, printify, burger).Ok?
    ensures var c := CostsOn(DailyCosts(rt, printful, printify, burger).value, e);
            && c.printful == DatedPriceSumOn(rt, printful, e)
            && c.printify == DatedPriceSumOn(rt, printify, e)
            && c.burger == DatedPriceSumOn(rt, burger, e)
            && c.total == DatedPriceSumOn(rt, printful, e) + DatedPriceSumOn(rt, printify, e) + DatedPriceSumOn(rt, burger, e)
  {
    var a := Accumulate(rt, [], PrintfulCost, printful).value;
    AccumulateOn(rt, [], PrintfulCost, printful, e);
    var b := Accumulate(rt, a, PrintifyCost, printify).value;
    AccumulateOn(rt, a, PrintifyCost, printify, e);
    AccumulateOn(rt, b, BurgerCost, burger, e);
    var c := CostsOn(DailyCosts(rt, printful, printify, burger).value, e);
    assert c.printful == Cost(c, PrintfulCost) && c.printify == Cost(c, PrintifyCost) && c.burger == Cost(c, BurgerCost);
  }

  /**
   * The table `main` writes: the rows of `daily_costs`, sorted by date. With no
   * dated order at all the frame has no `date` column and `sort_values('date')`
   * raises `KeyError`.
   */
  function ReportRows(rt: Runtime, printful: seq<Json>, printify: seq<Json>, burger: seq<Json>): (r: Result<seq<Row>, Error>)
    ensures DailyCosts(rt, printful, printify, burger) == Ok([]) ==> r == Err(KeyError("date"))
    ensures r.Ok? ==> r.value != []
  {
    var rows :- DailyCosts(rt, printful, printify, burger);
    if rows == [] then Err(KeyError("date")) else Ok(SortByDate(rows))
  }

  /**
   * The table has one row per date that some order has, in increasing date
   * order; every row's total is the sum of its columns; each column sums to
   * the prices of that platform's dated orders, and the totals to all of them.
   */
  lemma ReportRowsFacts(rt: Runtime, printful: seq<Json>, printify: seq<Json>, burger: seq<Json>)
    requires ReportRows(rt, printful, printify, burger).Ok?
    ensures var rows := ReportRows(rt, printful, printify, burger).value;
            && StrictlySorted(rows)
            && UniqueDates(rows)
            && Balanced(rows)
            && Dates(rows) == DaysOf(printful) + DaysOf(printify) + DaysOf(burger)
            && (forall i :: 0 <= i < |rows| ==>
                  && rows[i].costs.printful == DatedPriceSumOn(rt, printful, rows[i].date)
                  && rows[i].costs.printify == DatedPriceSumOn(rt, printify, rows[i].date)
                  && rows[i].costs.burger == DatedPriceSumOn(rt, burger, rows[i].date))
            && SumColumn(rows, PrintfulCost) == DatedPriceSum(rt, printful)
            && SumColumn(rows, PrintifyCost) == DatedPriceSum(rt, printify)
            && SumColumn(rows, BurgerCost) == DatedPriceSum(rt, burger)
            && SumTotal(rows) == DatedPriceSum(rt, printful) + DatedPriceSum(rt, printify) + DatedPriceSum(rt, burger)
  {
    var daily := DailyCosts(rt, printful, printify, burger).value;
    DailyCostsFacts(rt, printful, printify, burger);
    SortByDateContents(daily);
    SortByDateSorted(daily);
    var rows := SortByDate(daily);
    PermutationBalanced(rows, daily);
    StrictlySortedUnique(rows);
    forall i | 0 <= i < |rows|
      ensures && rows[i].costs.printful == DatedPriceSumOn(rt, printful, rows[i].date)
              && rows[i].costs.printify == DatedPriceSumOn(rt, printify, rows[i].date)
              && rows[i].costs.burger == DatedPriceSumOn(rt, burger, rows[i].date)
    {
      assert rows[i] in multiset(daily);
      var k :| 0 <= k < |daily| && daily[k] == rows[i];
      CostsOnUnique(daily, k);
      DailyCostsOn(rt, printful, printify, burger, rows[i].date);
    }
  }

  // ---------------------------------------------------------------------------
  // The loops of `main`

  /** One `for order in ..._orders` loop of `main`, updating the table in place. */
  method AccumulatePlatform(rt: Runtime, rows: seq<Row>, col: Column, orders: seq<Json>)
    returns (r: Result<seq<Row>, Error>)
    ensures r == Accumulate(rt, rows, col, orders)
  {
    var daily := rows;
    var i := 0;
    while i < |orders|
      invariant 0 <= i <= |orders|
      invariant Accumulate(rt, rows, col, orders[..i]) == Ok(daily)
    {
      var order := orders[i];
      assert orders[..i + 1][..i] == orders[..i];
      var day := OrderDay(order);
      if day.Err? {
        AccumulatePrefixErr(rt, rows, col, orders, i + 1);
        return Err(day.error);
      }
      if day.value.Some? {
        var price := FinalPrice(rt, order);
        if price.Err? {
          AccumulatePrefixErr(rt, rows, col, orders, i + 1);
          return Err(price.error);
        }
        daily := AddCost(daily, day.value.value, col, price.value);
      }
      i := i + 1;
    }
    assert orders[..i] == orders;
    return Ok(daily);
  }

  /** Once a prefix of the list has failed, the rest is never looked at. */
  lemma {:induction false} AccumulatePrefixErr(rt: Runtime, rows: seq<Row>, col: Column, orders: seq<Json>, n: nat)
    requires n <= |orders| && Accumulate(rt, rows, col, orders[..n]).Err?
    ensures Accumulate(rt, rows, col, orders) == Accumulate(rt, rows, col, orders[..n])
    decreases |orders| - n
  {
    if n < |orders| {
      assert orders[..n + 1][..n] == orders[..n];
      AccumulatePrefixErr(rt, rows, col, orders, n + 1);
    } else {
      assert orders[..n] == orders;
    }
  }

  /**
   * The aggregation in `main`: the three platform loops, the list `data` of
   * rows built from `daily_costs.items()`, then the frame sorted by date.
   */
  method BuildDailyTable(rt: Runtime, printful: seq<Json>, printify: seq<Json>, burger: seq<Json>)
    returns (r: Result<seq<Row>, Error>)
    ensures r == ReportRows(rt, printful, printify, burger)
  {
    var daily := AccumulatePlatform(rt, [], PrintfulCost, printful);
    if daily.Err? {
      return Err(daily.error);
    }
    daily := AccumulatePlatform(rt, daily.value, PrintifyCost, printify);
    if daily.Err? {
      return Err(daily.error);
    }
    daily := AccumulatePlatform(rt, daily.value, BurgerCost, burger);
    if daily.Err? {
      return Err(daily.error);
    }
    var items := daily.value;
    var data: seq<Row> := [];
    var i := 0;
    while i < |items|
      invariant 0 <= i <= |items|
      invariant data == items[..i]
    {
      data := data + [Row(items[i].date, items[i].costs)];
      i := i + 1;
    }
    assert items[..i] == items;
    if data == [] {
      return Err(KeyError("date"));
    }
    return Ok(SortByDate(data));
  }
}
