/** The worksheet layout of app/services/excel_service.py: a header row and sixteen metric rows. */
module ExcelService {
  import opened Wrappers
  import opened JsonValue
  import opened Text
  import opened FinanceModels
  import opened FormulaEngine
  import FinanceService

  /** A cell value. Numbers keep their exact value; how the spreadsheet prints them is not modelled. */
  datatype Cell =
    | Label(s: string)            // a text cell
    | Count(n: int)               // an int
    | Amount(x: real)             // a float
    | Raw(v: Json)                // an assumption value, written as it was stored
    | Percent(hundredths: real)   // f"{rate * 100}%" for a numeric rate; holds rate * 100
    | ListPercent(items: seq<Json>) // f"{rate * 100}%" for a list rate; holds the repeated list, its printing is not modelled
    | RoundedMillions(x: real)    // round(x / 1000000, 2); holds x, the rounding is not modelled

  // ---- `_create_headers` ----

  /** The label "M<i>" of month i. */
  function MonthLabel(i: nat): (s: string)
    ensures |s| >= 2 && s[0] == 'M' && s[1..] == ShowNat(i)
  {
    "M" + ShowNat(i)
  }

  /** `["Metric", "Unit"] + [f"M{i}" for i in range(1, n + 1)]`. */
  function HeaderRow(n: nat): (r: seq<Cell>)
    ensures |r| == n + 2
    ensures r[0] == Label("Metric") && r[1] == Label("Unit")
    ensures forall c :: 2 <= c < n + 2 ==> r[c] == Label(MonthLabel(c - 1))
  {
    [Label("Metric"), Label("Unit")] + seq(n, i requires 0 <= i < n => Label(MonthLabel(i + 1)))
  }

  /** Month labels are distinct: the month is read back from its label. */
  lemma MonthLabelsDistinct(i: nat, j: nat)
    requires MonthLabel(i) == MonthLabel(j)
    ensures i == j
  {
    assert ShowNat(i) == MonthLabel(i)[1..] == MonthLabel(j)[1..] == ShowNat(j);
    DigitsValueShowNat(i);
    DigitsValueShowNat(j);
  }

  // ---- `_populate_data`: the sixteen rows ----

  /** What a row shows, one kind per entry of `data_rows`. */
  datatype RowKind =
    | SalesPeople | LargePerSalesperson | LargeAcquired | LargeCumulative | AverageLargeRevenue
    | MarketingSpend | AverageCac | SalesInquiries | DemoRate | SmallAcquired | SmallCumulative
    | AverageSmallRevenue | LargeRevenue | SmallRevenue | TotalRevenue | TotalRevenueMillions

  /** The rows in the order `data_rows` lists them. */
  const Kinds: seq<RowKind> := [
    SalesPeople, LargePerSalesperson, LargeAcquired, LargeCumulative,
    AverageLargeRevenue, MarketingSpend, AverageCac, SalesInquiries,
    DemoRate, SmallAcquired, SmallCumulative, AverageSmallRevenue,
    LargeRevenue, SmallRevenue, TotalRevenue, TotalRevenueMillions]

  /** The metric name a row prints in column 1. */
  function MetricName(kind: RowKind): string {
    match kind
    case SalesPeople => "# of sales people"
    case LargePerSalesperson => "# of large customer accounts they can sign per month, sales person"
    case LargeAcquired => "# of large customer accounts onboarded per month"
    case LargeCumulative => "Cumulative # of large paying customers"
    case AverageLargeRevenue => "Average revenue per large customer"
    case MarketingSpend => "Digital Marketing spend per month"
    case AverageCac => "Average CAC"
    case SalesInquiries => "# of sales inquiries"
    case DemoRate => "% conversions from demo to sign ups"
    case SmallAcquired => "# of small/medium paying customers onboarded"
    case SmallCumulative => "Cumulative number of small/medium paying customers"
    case AverageSmallRevenue => "Average revenue per small/medium customer"
    case LargeRevenue => "Revenue from large clients"
    case SmallRevenue => "Revenue from small and medium clients"
    case TotalRevenue => "Total Revenues"
    case TotalRevenueMillions => "Total Revenues"
  }

  /** The unit a row prints in column 2. */
  function UnitName(kind: RowKind): string {
    match kind
    case SalesPeople => "#"
    case LargePerSalesperson => "#"
    case LargeAcquired => "#"
    case LargeCumulative => "#"
    case AverageLargeRevenue => "$ per month"
    case MarketingSpend => "$ per month"
    case AverageCac => "$ per customer"
    case SalesInquiries => "#"
    case DemoRate => "%"
    case SmallAcquired => "#"
    case SmallCumulative => "#"
    case AverageSmallRevenue => "$ per customer"
    case LargeRevenue => "$ per month"
    case SmallRevenue => "$ per month"
    case TotalRevenue => "$ per month"
    case TotalRevenueMillions => "$ Mn per month"
  }

  /** `revenue / cumulative if cumulative > 0 else 0`. */
  function Average(revenue: real, cumulative: int): (c: Cell)
    ensures cumulative > 0 ==> c == Amount(revenue / cumulative as real)
    ensures cumulative <= 0 ==> c == Count(0)
  {
    if cumulative > 0 then Amount(revenue / cumulative as real) else Count(0)
  }

  /** `s * k`: a string or list repeated k times; item i is item `i % len(s)` of s. */
  function Repeat<T>(s: seq<T>, k: nat): (r: seq<T>)
    ensures |r| == |s| * k
    ensures forall i :: 0 <= i < |r| ==> r[i] == s[i % |s|]
    decreases k, 1
  {
    if k == 0 then [] else RepeatStep(s, k); Repeat(s, k - 1) + s
  }

  /** Past q whole copies of a length-m string, offset j is position j of the next copy. */
  lemma ModPastCopies(m: nat, q: nat, j: nat)
    requires j < m
    ensures (m * q + j) % m == j
  {
    var x := m * q + j;
    var d := q - x / m;
    assert m * d == x % m - j;
  }

  /** Appending one more copy to k - 1 copies keeps every character where `i % len(s)` says. */
  lemma RepeatStep<T>(s: seq<T>, k: nat)
    requires k >= 1
    ensures forall i :: 0 <= i < |s| * k ==> (Repeat(s, k - 1) + s)[i] == s[i % |s|]
    decreases k, 0
  {
    var front := Repeat(s, k - 1);
    forall i | 0 <= i < |s| * k
      ensures (front + s)[i] == s[i % |s|]
    {
      if i >= |front| {
        ModPastCopies(|s|, k - 1, i - |front|);
      }
    }
  }

  /** `f"{rate * 100}%"`: a number (a bool is 0 or 1) gives a percentage, a string or a list is repeated
      a hundred times; null or a dictionary cannot be multiplied by 100 and raises. */
  function DemoRateCell(rate: Json): (r: Result<Cell>)
    ensures rate.JNum? ==> r == Ok(Percent(rate.n * 100.0))
    ensures rate.JBool? ==> r == Ok(Percent(if rate.b then 100.0 else 0.0))
    ensures rate.JStr? ==> r.Ok? && r.value.Label? && |r.value.s| == 100 * |rate.s| + 1
                           && r.value.s[100 * |rate.s|] == '%'
                           && forall i :: 0 <= i < 100 * |rate.s| ==> r.value.s[i] == rate.s[i % |rate.s|]
    ensures rate.JArr? ==> r.Ok? && r.value.ListPercent? && |r.value.items| == 100 * |rate.items|
                           && forall i :: 0 <= i < |r.value.items| ==> r.value.items[i] == rate.items[i % |rate.items|]
    ensures r.Err? <==> rate.JNull? || rate.JObj?
  {
    match rate
    case JNum(x) => Ok(Percent(x * 100.0))
    case JBool(b) => Ok(Percent(if b then 100.0 else 0.0))
    case JStr(s) => Ok(Label(Repeat(s, 100) + "%"))
    case JArr(a) => Ok(ListPercent(Repeat(a, 100)))
    case _ => Err(WrongType("demo_rate"))
  }

  /** The cell a row of the given kind shows for one month; `demo` is the printed conversion rate. */
  function MetricCell(kind: RowKind, p: MonthlyProjection, assumptions: map<string, Json>, demo: Cell): Cell {
    match kind
    case SalesPeople => Count(p.salesPeople)
    case LargePerSalesperson => Raw(Get(assumptions, "large_customers_per_salesperson", JNum(1.5)))
    case LargeAcquired => Count(p.largeCustomersAcquired)
    case LargeCumulative => Count(p.largeCustomersCumulative)
    case AverageLargeRevenue => Average(p.largeCustomerRevenue, p.largeCustomersCumulative)
    case MarketingSpend => Amount(p.marketingSpend)
    case AverageCac => Raw(Get(assumptions, "cac", JNum(1500.0)))
    case SalesInquiries => Raw(Get(assumptions, "sales_inquiries_per_month", JNum(160.0)))
    case DemoRate => demo
    case SmallAcquired => Count(p.smallCustomersAcquired)
    case SmallCumulative => Count(p.smallCustomersCumulative)
    case AverageSmallRevenue => Average(p.smallCustomerRevenue, p.smallCustomersCumulative)
    case LargeRevenue => Amount(p.largeCustomerRevenue)
    case SmallRevenue => Amount(p.smallCustomerRevenue)
    case TotalRevenue => Amount(p.totalRevenue)
    case TotalRevenueMillions => RoundedMillions(p.totalRevenue)
  }

  datatype DataRow = DataRow(metric: string, unit: string, values: seq<Cell>)

  /** The `data_rows` list. It raises only when there is a month to print and the stored `demo_rate`
      cannot be multiplied by 100. */
  function DataRows(projections: seq<MonthlyProjection>, assumptions: map<string, Json>): (r: Result<seq<DataRow>>)
    ensures r.Err? <==> |projections| > 0 && DemoRateCell(Get(assumptions, "demo_rate", JNum(0.45))).Err?
    ensures r.Ok? ==> |r.value| == |Kinds|
    ensures r.Ok? ==> forall i :: 0 <= i < |Kinds| ==>
              r.value[i].metric == MetricName(Kinds[i]) && r.value[i].unit == UnitName(Kinds[i])
              && |r.value[i].values| == |projections|
  {
    var demo := DemoRateCell(Get(assumptions, "demo_rate", JNum(0.45)));
    if |projections| > 0 && demo.Err? then Err(demo.error)
    else
      var d := if demo.Ok? then demo.value else Count(0);
      Ok(seq(|Kinds|, i requires 0 <= i < |Kinds| =>
        DataRow(MetricName(Kinds[i]), UnitName(Kinds[i]),
                seq(|projections|, j requires 0 <= j < |projections| => MetricCell(Kinds[i], projections[j], assumptions, d)))))
  }

  /** Each cell of a data row is its kind's value for that month's projection. */
  lemma RowCell(projections: seq<MonthlyProjection>, assumptions: map<string, Json>, i: nat, j: nat, kind: RowKind)
    requires DataRows(projections, assumptions).Ok? && i < |Kinds| && Kinds[i] == kind && j < |projections|
    ensures DataRows(projections, assumptions).value[i].values[j]
            == MetricCell(kind, projections[j], assumptions, DemoRateCell(Get(assumptions, "demo_rate", JNum(0.45))).value)
  {
  }

  /** Row 1 prints the looked-up customers a salesperson signs in every month, whatever that month's
      projection. */
  lemma SigningRowConstant(projections: seq<MonthlyProjection>, assumptions: map<string, Json>, j: nat)
    requires DataRows(projections, assumptions).Ok? && j < |projections|
    ensures DataRows(projections, assumptions).value[1].values[j]
            == Raw(Get(assumptions, "large_customers_per_salesperson", JNum(1.5)))
  {
    RowCell(projections, assumptions, 1, j, LargePerSalesperson);
  }

  /** Row 6 prints the looked-up CAC in every month. */
  lemma CacRowConstant(projections: seq<MonthlyProjection>, assumptions: map<string, Json>, j: nat)
    requires DataRows(projections, assumptions).Ok? && j < |projections|
    ensures DataRows(projections, assumptions).value[6].values[j] == Raw(Get(assumptions, "cac", JNum(1500.0)))
  {
    RowCell(projections, assumptions, 6, j, AverageCac);
  }

  /** Row 7 prints the looked-up monthly inquiries in every month. */
  lemma InquiriesRowConstant(projections: seq<MonthlyProjection>, assumptions: map<string, Json>, j: nat)
    requires DataRows(projections, assumptions).Ok? && j < |projections|
    ensures DataRows(projections, assumptions).value[7].values[j]
            == Raw(Get(assumptions, "sales_inquiries_per_month", JNum(160.0)))
  {
    RowCell(projections, assumptions, 7, j, SalesInquiries);
  }

  /** Row 8 shows the printed `demo_rate` in every month. */
  lemma DemoRateRowConstant(projections: seq<MonthlyProjection>, assumptions: map<string, Json>, j: nat)
    requires DataRows(projections, assumptions).Ok? && j < |projections|
    ensures DataRows(projections, assumptions).value[8].values[j]
            == DemoRateCell(Get(assumptions, "demo_rate", JNum(0.45))).value
  {
    RowCell(projections, assumptions, 8, j, DemoRate);
  }

  /** A model whose assumptions have no `demo_rate` key, which is every model the service stores,
      prints a 45% conversion rate whatever its `conversion_rate` is. */
  lemma PrintedRateIsDefault(projections: seq<MonthlyProjection>, assumptions: map<string, Json>, j: nat)
    requires "demo_rate" !in assumptions && j < |projections|
    ensures DataRows(projections, assumptions).Ok?
    ensures DataRows(projections, assumptions).value[8].values[j] == Percent(45.0)
  {
    DemoRateRowConstant(projections, assumptions, j);
  }

  /** Every model the service stores prints the default 45% conversion rate: its assumptions carry the
      rate under `conversion_rate`, never under `demo_rate`, the key the sheet reads. */
  lemma StoredModelsPrintDefaultRate(response: Json, modelId: string, j: nat)
    requires FinanceService.ModelFromResponse(response, modelId).Ok?
    requires j < |FinanceService.ModelFromResponse(response, modelId).value.monthlyProjections|
    ensures var m := FinanceService.ModelFromResponse(response, modelId).value;
            DataRows(m.monthlyProjections, m.assumptions).Ok?
            && DataRows(m.monthlyProjections, m.assumptions).value[8].values[j] == Percent(45.0)
  {
    var m := FinanceService.ModelFromResponse(response, modelId).value;
    assert "demo_rate" !in FinanceService.EngineKeys;
    PrintedRateIsDefault(m.monthlyProjections, m.assumptions, j);
  }

  /** Dividing `count * rate` by a positive count gives the rate back. */
  lemma AverageOfScaled(count: int, rate: real)
    ensures Average(count as real * rate, count) == if count > 0 then Amount(rate) else Count(0)
  {
    if count > 0 {
      assert count as real * rate / count as real == rate;
    }
  }

  /** Row 4 divides a month's large-customer revenue by its cumulative large customers. */
  lemma AverageLargeCell(projections: seq<MonthlyProjection>, assumptions: map<string, Json>, j: nat)
    requires DataRows(projections, assumptions).Ok? && j < |projections|
    ensures var p := projections[j];
            DataRows(projections, assumptions).value[4].values[j]
            == Average(p.largeCustomerRevenue, p.largeCustomersCumulative)
  {
    RowCell(projections, assumptions, 4, j, AverageLargeRevenue);
  }

  /** Row 11 divides a month's small/medium revenue by its cumulative small/medium customers. */
  lemma AverageSmallCell(projections: seq<MonthlyProjection>, assumptions: map<string, Json>, j: nat)
    requires DataRows(projections, assumptions).Ok? && j < |projections|
    ensures var p := projections[j];
            DataRows(projections, assumptions).value[11].values[j]
            == Average(p.smallCustomerRevenue, p.smallCustomersCumulative)
  {
    RowCell(projections, assumptions, 11, j, AverageSmallRevenue);
  }

  /** The average revenue per large customer in the engine's month k is the per-customer rate. */
  lemma LargeAverageAt(inp: Inputs, k: nat)
    ensures var p := ProjectionAt(inp, k);
            Average(p.largeCustomerRevenue, p.largeCustomersCumulative)
            == if LargeCumulativeAt(inp, k) > 0 then Amount(inp.largeCustomerRevenueMonthly) else Count(0)
  {
    var p, c := ProjectionAt(inp, k), LargeCumulativeAt(inp, k);
    assert p.largeCustomerRevenue == c as real * inp.largeCustomerRevenueMonthly && p.largeCustomersCumulative == c;
    AverageOfScaled(c, inp.largeCustomerRevenueMonthly);
  }

  /** The same for small and medium customers. */
  lemma SmallAverageAt(inp: Inputs, k: nat)
    ensures var p := ProjectionAt(inp, k);
            Average(p.smallCustomerRevenue, p.smallCustomersCumulative)
            == if k * FormulaEngine.SmallAcquired(inp) > 0 then Amount(inp.smallCustomerRevenueMonthly) else Count(0)
  {
    var p, c := ProjectionAt(inp, k), k * FormulaEngine.SmallAcquired(inp);
    assert p.smallCustomerRevenue == c as real * inp.smallCustomerRevenueMonthly && p.smallCustomersCumulative == c;
    AverageOfScaled(c, inp.smallCustomerRevenueMonthly);
  }

  // ---- The worksheet ----

  /** The cells a run of values occupies when written along `row` from column `col`, one cell after
      the other. */
  function Placed(row: int, col: int, vs: seq<Cell>): map<(int, int), Cell>
    decreases |vs|
  {
    if |vs| == 0 then map[]
    else Placed(row, col, vs[..|vs| - 1])[(row, col + |vs| - 1) := vs[|vs| - 1]]
  }

  /** Column col + i of the row holds value i, and nothing else is written. */
  lemma {:induction false} PlacedAt(row: int, col: int, vs: seq<Cell>, k: (int, int))
    ensures k in Placed(row, col, vs) <==> k.0 == row && col <= k.1 < col + |vs|
    ensures k in Placed(row, col, vs) ==> Placed(row, col, vs)[k] == vs[k.1 - col]
    decreases |vs|
  {
    if |vs| > 0 {
      var front := vs[..|vs| - 1];
      PlacedAt(row, col, front, k);
      if k.0 == row && col <= k.1 < col + |front| {
        assert vs[k.1 - col] == front[k.1 - col];
      }
    }
  }

  /** One more value at the end of the run is one more cell. */
  lemma PlacedSnoc(row: int, col: int, vs: seq<Cell>, v: Cell)
    ensures Placed(row, col, vs + [v]) == Placed(row, col, vs)[(row, col + |vs|) := v]
  {
    var ws := vs + [v];
    assert ws[..|ws| - 1] == vs && ws[|ws| - 1] == v;
  }

  /** Metric and unit in columns 1 and 2, then the values from column 3. */
  function RowCells(r: DataRow): (cs: seq<Cell>)
    ensures |cs| == |r.values| + 2
  {
    [Label(r.metric), Label(r.unit)] + r.values
  }

  /** The rows written one below the other from row `start`: each row placed from column 1 below the
      rows before it. */
  function Stacked(start: int, rows: seq<DataRow>): map<(int, int), Cell>
    decreases |rows|
  {
    if |rows| == 0 then map[]
    else Stacked(start, rows[..|rows| - 1]) + Placed(start + |rows| - 1, 1, RowCells(rows[|rows| - 1]))
  }

  /** Row start + i of the stack holds row i's cells, columns 1 to its width, and nothing else is
      written. */
  lemma {:induction false} StackedAt(start: int, rows: seq<DataRow>, k: (int, int))
    ensures var inRow := start <= k.0 < start + |rows| && 1 <= k.1 <= |rows[k.0 - start].values| + 2;
            (k in Stacked(start, rows) <==> inRow)
            && (inRow ==> Stacked(start, rows)[k] == RowCells(rows[k.0 - start])[k.1 - 1])
    decreases |rows|
  {
    if |rows| > 0 {
      var front, last := rows[..|rows| - 1], rows[|rows| - 1];
      var above, added := Stacked(start, front), Placed(start + |front|, 1, RowCells(last));
      assert Stacked(start, rows) == above + added;
      StackedAt(start, front, k);
      PlacedAt(start + |front|, 1, RowCells(last), k);
      if start <= k.0 < start + |front| {
        assert rows[k.0 - start] == front[k.0 - start];
        assert k !in added;
      } else if k.0 == start + |front| {
        assert rows[k.0 - start] == last;
        assert k !in above;
      }
    }
  }

  /** Writing one more row below the stack places its cells and changes no other. */
  lemma StackedSnoc(start: int, rows: seq<DataRow>, r: DataRow)
    ensures Stacked(start, rows + [r]) == Stacked(start, rows) + Placed(start + |rows|, 1, RowCells(r))
  {
    var rs := rows + [r];
    assert rs[..|rs| - 1] == rows && rs[|rs| - 1] == r;
  }

  lemma UnionUpdate(a: map<(int, int), Cell>, b: map<(int, int), Cell>, k: (int, int), v: Cell)
    ensures (a + b)[k := v] == a + b[k := v]
  {
  }

  lemma EmptyUnion(a: map<(int, int), Cell>)
    ensures map[] + a == a
  {
  }

  lemma UnionAssoc(a: map<(int, int), Cell>, b: map<(int, int), Cell>, c: map<(int, int), Cell>)
    ensures (a + b) + c == a + (b + c)
  {
  }

  lemma UnionEmpty(a: map<(int, int), Cell>)
    ensures a + map[] == a
  {
  }

  /** A run split in two is placed as its halves side by side. */
  lemma {:induction false} PlacedAppend(row: int, col: int, xs: seq<Cell>, ys: seq<Cell>)
    ensures Placed(row, col, xs + ys) == Placed(row, col, xs) + Placed(row, col + |xs|, ys)
    decreases |ys|
  {
    if |ys| == 0 {
      assert xs + ys == xs;
      UnionEmpty(Placed(row, col, xs));
    } else {
      var front, y := ys[..|ys| - 1], ys[|ys| - 1];
      PlacedAppend(row, col, xs, front);
      assert xs + ys == (xs + front) + [y];
      assert ys == front + [y];
      PlacedSnoc(row, col, xs + front, y);
      PlacedSnoc(row, col + |xs|, front, y);
      UnionUpdate(Placed(row, col, xs), Placed(row, col + |xs|, front), (row, col + |xs| + |front|), y);
    }
  }

  lemma TwoCells(before: map<(int, int), Cell>, row: int, x: Cell, y: Cell)
    ensures before[(row, 1) := x][(row, 2) := y] == before + Placed(row, 1, [x, y])
  {
    PlacedSnoc(row, 1, [], x);
    assert [x] == [] + [x];
    PlacedSnoc(row, 1, [x], y);
    assert [x, y] == [x] + [y];
    UnionUpdate(before, map[], (row, 1), x);
    UnionEmpty(before);
    UnionUpdate(before, Placed(row, 1, [x]), (row, 2), y);
  }

  /** Writing column 1, column 2 and then the values from column 3 places the whole row. */
  lemma RowPlacement(before: map<(int, int), Cell>, row: int, r: DataRow)
    ensures before[(row, 1) := Label(r.metric)][(row, 2) := Label(r.unit)] + Placed(row, 3, r.values)
            == before + Placed(row, 1, RowCells(r))
  {
    TwoCells(before, row, Label(r.metric), Label(r.unit));
    PlacedAppend(row, 1, [Label(r.metric), Label(r.unit)], r.values);
    UnionAssoc(before, Placed(row, 1, [Label(r.metric), Label(r.unit)]), Placed(row, 3, r.values));
  }

  /** One more row written below the first i rows of a stack over `base`. */
  lemma StackedStep(base: map<(int, int), Cell>, rows: seq<DataRow>, i: nat)
    requires i < |rows|
    ensures base + Stacked(2, rows[..i]) + Placed(2 + i, 1, RowCells(DataRow(rows[i].metric, rows[i].unit, rows[i].values)))
            == base + Stacked(2, rows[..i + 1])
  {
    assert rows[..i + 1] == rows[..i] + [rows[i]];
    assert DataRow(rows[i].metric, rows[i].unit, rows[i].values) == rows[i];
    StackedSnoc(2, rows[..i], rows[i]);
    UnionAssoc(base, Stacked(2, rows[..i]), Placed(2 + i, 1, RowCells(rows[i])));
  }

  /** The finished sheet: the header in row 1 and the data rows below it. */
  function Sheet(n: nat, rows: seq<DataRow>): map<(int, int), Cell> {
    Placed(1, 1, HeaderRow(n)) + Stacked(2, rows)
  }

  /** Row 1 holds the header, cell by cell: no data row reaches it. */
  lemma HeaderCell(header: seq<Cell>, rows: seq<DataRow>, c: int)
    requires 1 <= c <= |header|
    ensures (1, c) in Placed(1, 1, header) + Stacked(2, rows)
    ensures (Placed(1, 1, header) + Stacked(2, rows))[(1, c)] == header[c - 1]
  {
    PlacedAt(1, 1, header, (1, c));
    StackedAt(2, rows, (1, c));
  }

  lemma SheetHeader(n: nat, rows: seq<DataRow>, c: int)
    requires 1 <= c <= n + 2
    ensures (1, c) in Sheet(n, rows) && Sheet(n, rows)[(1, c)] == HeaderRow(n)[c - 1]
  {
    HeaderCell(HeaderRow(n), rows, c);
  }

  /** For the sixteen rows of a model with n months: the cells are exactly rows 1 to 17 by
      columns 1 to n + 2, row 1 is the header and row i + 2 is data row i. */
  lemma SheetLayout(projections: seq<MonthlyProjection>, assumptions: map<string, Json>, k: (int, int))
    requires DataRows(projections, assumptions).Ok?
    ensures var n, rows := |projections|, DataRows(projections, assumptions).value;
            (k in Sheet(n, rows) <==> 1 <= k.0 <= 17 && 1 <= k.1 <= n + 2)
            && (k.0 == 1 && 1 <= k.1 <= n + 2 ==> Sheet(n, rows)[k] == HeaderRow(n)[k.1 - 1])
            && (2 <= k.0 <= 17 && 1 <= k.1 <= n + 2 ==> Sheet(n, rows)[k] == RowCells(rows[k.0 - 2])[k.1 - 1])
  {
    var n, rows := |projections|, DataRows(projections, assumptions).value;
    StackedAt(2, rows, k);
    PlacedAt(1, 1, HeaderRow(n), k);
    if k.0 == 1 && 1 <= k.1 <= n + 2 {
      SheetHeader(n, rows, k.1);
    }
  }

  // ---- The column-width rule of `_apply_styling` ----

  /** The longest of the given text lengths, 0 for none. */
  function MaxLength(lengths: seq<nat>): (m: nat)
    ensures forall i :: 0 <= i < |lengths| ==> lengths[i] <= m
    ensures |lengths| == 0 ==> m == 0
    ensures |lengths| > 0 ==> exists i :: 0 <= i < |lengths| && lengths[i] == m
    decreases |lengths|
  {
    if |lengths| == 0 then 0
    else
      var m := MaxLength(lengths[..|lengths| - 1]);
      if lengths[|lengths| - 1] > m then lengths[|lengths| - 1] else m
  }

  class Worksheet {
    /** The written cells by (row, column), both counted from 1. */
    var cells: map<(int, int), Cell>

    constructor()
      ensures cells == map[]
    {
      cells := map[];
    }

    /** Writes `vs` along `row` from column `col`, one cell at a time. */
    method WriteCells(row: int, col: int, vs: seq<Cell>)
      modifies this
      ensures cells == old(cells) + Placed(row, col, vs)
    {
      for i := 0 to |vs|
        invariant cells == old(cells) + Placed(row, col, vs[..i])
      {
        PlacedSnoc(row, col, vs[..i], vs[i]);
        assert vs[..i + 1] == vs[..i] + [vs[i]];
        UnionUpdate(old(cells), Placed(row, col, vs[..i]), (row, col + i), vs[i]);
        cells := cells[(row, col + i) := vs[i]];
      }
      assert vs[..|vs|] == vs;
    }

    /** `_create_headers(ws, n)`: row 1 gets "Metric", "Unit", "M1" .. "Mn". */
    method CreateHeaders(n: nat)
      modifies this
      ensures cells == old(cells) + Placed(1, 1, HeaderRow(n))
    {
      WriteCells(1, 1, HeaderRow(n));
    }

    /** `write_row`: the metric in column 1, the unit in column 2, the values from column 3; the
        returned row counter is one further down. */
    method WriteRow(row: int, metric: string, unit: string, values: seq<Cell>) returns (next: int)
      modifies this
      ensures cells == old(cells) + Placed(row, 1, RowCells(DataRow(metric, unit, values)))
      ensures next == row + 1
    {
      cells := cells[(row, 1) := Label(metric)];
      cells := cells[(row, 2) := Label(unit)];
      WriteCells(row, 3, values);
      next := row + 1;
      RowPlacement(old(cells), row, DataRow(metric, unit, values));
    }

    /** The `for metric, unit, values in data_rows: write_row(...)` loop, from row 2 down. */
    method WriteRows(rows: seq<DataRow>)
      modifies this
      ensures cells == old(cells) + Stacked(2, rows)
    {
      var row := 2;
      for i := 0 to |rows|
        invariant row == 2 + i
        invariant cells == old(cells) + Stacked(2, rows[..i])
      {
        StackedStep(old(cells), rows, i);
        row := WriteRow(row, rows[i].metric, rows[i].unit, rows[i].values);
      }
      assert rows[..|rows|] == rows;
    }

    /** `_populate_data`: the rows of `data_rows` from row 2 down, or nothing when building them raises. */
    method PopulateData(model: FinancialModelData) returns (r: Result<()>)
      modifies this
      ensures r.Err? <==> DataRows(model.monthlyProjections, model.assumptions).Err?
      ensures r.Err? ==> cells == old(cells)
      ensures r.Ok? ==> cells == old(cells) + Stacked(2, DataRows(model.monthlyProjections, model.assumptions).value)
    {
      var dataRows := DataRows(model.monthlyProjections, model.assumptions);
      if dataRows.Err? {
        return Err(dataRows.error);
      }
      WriteRows(dataRows.value);
      return Ok(());
    }
  }

  /** The width of a column whose cells print with the given text lengths: the longest plus 2,
      at most 50. How each value is printed (`str`) is not modelled; its length is the input. */
  method ColumnWidth(lengths: seq<nat>) returns (width: nat)
    ensures width == if MaxLength(lengths) + 2 < 50 then MaxLength(lengths) + 2 else 50
    ensures width <= 50 && forall i :: 0 <= i < |lengths| ==> lengths[i] + 2 <= width || width == 50
  {
    var maxLength := 0;
    for i := 0 to |lengths|
      invariant maxLength == MaxLength(lengths[..i])
    {
      assert lengths[..i + 1][..i] == lengths[..i];
      if lengths[i] > maxLength {
        maxLength := lengths[i];
      }
    }
    assert lengths[..|lengths|] == lengths;
    var adjusted := maxLength + 2;
    width := if adjusted < 50 then adjusted else 50;
  }

  /** `generate_excel` up to the styling and the bytes: the header, then the data, on a new sheet. */
  method GenerateSheet(model: FinancialModelData) returns (r: Result<map<(int, int), Cell>>)
    ensures r.Err? <==> DataRows(model.monthlyProjections, model.assumptions).Err?
    ensures r.Ok? ==> r.value == Sheet(|model.monthlyProjections|, DataRows(model.monthlyProjections, model.assumptions).value)
  {
    var ws := new Worksheet();
    ws.CreateHeaders(|model.monthlyProjections|);
    EmptyUnion(Placed(1, 1, HeaderRow(|model.monthlyProjections|)));
    var populated := ws.PopulateData(model);
    if populated.Err? {
      return Err(populated.error);
    }
    return Ok(ws.cells);
  }
}
