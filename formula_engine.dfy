/** The month-by-month projection loop of app/utils/formula_engine.py. */
module FormulaEngine {
  import opened Wrappers
  import opened JsonValue
  import opened FinanceModels

  /** The assumptions the engine reads, once looked up and type-checked. */
  datatype Inputs = Inputs(
    initialSalesPeople: int,
    salesPeopleGrowthRate: int,
    largeCustomerRevenueMonthly: real,
    smallCustomerRevenueMonthly: real,
    marketingSpendMonthly: real,
    salesInquiriesPerMonth: real,
    conversionRate: real)

  /** An assumption used as a head-count: an integral number (a bool is an int in Python). */
  function IntAssumption(assumptions: map<string, Json>, key: string, default: int): (r: Result<int>)
    ensures key !in assumptions ==> r == Ok(default)
    ensures key in assumptions && assumptions[key].JNum? && IsIntegral(assumptions[key].n)
            ==> r == Ok(assumptions[key].n.Floor)
    ensures key in assumptions && (assumptions[key].JNull? || assumptions[key].JStr?) ==> r.Err?
    ensures key in assumptions && assumptions[key].JBool? ==> r == Ok(if assumptions[key].b then 1 else 0)
    ensures r.Ok? <==> key !in assumptions || assumptions[key].JBool?
                       || (assumptions[key].JNum? && IsIntegral(assumptions[key].n))
  {
    match Get(assumptions, key, JNum(default as real))
    case JNum(n) => if IsIntegral(n) then Ok(n.Floor) else Err(WrongType(key))
    case JBool(b) => Ok(if b then 1 else 0)
    case _ => Err(WrongType(key))
  }

  /** An assumption used as an amount or a rate: any number. */
  function RealAssumption(assumptions: map<string, Json>, key: string, default: real): (r: Result<real>)
    ensures key !in assumptions ==> r == Ok(default)
    ensures key in assumptions && assumptions[key].JNum? ==> r == Ok(assumptions[key].n)
    ensures key in assumptions && (assumptions[key].JNull? || assumptions[key].JStr?) ==> r.Err?
    ensures key in assumptions && assumptions[key].JBool? ==> r == Ok(if assumptions[key].b then 1.0 else 0.0)
    ensures r.Ok? <==> key !in assumptions || assumptions[key].JBool? || assumptions[key].JNum?
  {
    match Get(assumptions, key, JNum(default))
    case JNum(n) => Ok(n)
    case JBool(b) => Ok(if b then 1.0 else 0.0)
    case _ => Err(WrongType(key))
  }

  /** The `assumptions.get(key, default)` lookups of the engine, with its defaults. */
  function ReadInputs(assumptions: map<string, Json>): (r: Result<Inputs>)
    ensures assumptions == map[] ==> r == Ok(Inputs(1, 0, 16667.0, 5000.0, 200000.0, 160.0, 0.45))
    ensures "marketing_spend_monthly" in assumptions && assumptions["marketing_spend_monthly"] == JNull
            ==> r.Err?
    ensures r.Ok? && "initial_sales_people" in assumptions && assumptions["initial_sales_people"].JNum?
            ==> assumptions["initial_sales_people"].n == r.value.initialSalesPeople as real
    ensures r.Ok? <==> IntAssumption(assumptions, "initial_sales_people", 1).Ok?
                       && IntAssumption(assumptions, "sales_people_growth_rate", 0).Ok?
                       && RealAssumption(assumptions, "large_customer_revenue_monthly", 16667.0).Ok?
                       && RealAssumption(assumptions, "small_customer_revenue_monthly", 5000.0).Ok?
                       && RealAssumption(assumptions, "marketing_spend_monthly", 200000.0).Ok?
                       && RealAssumption(assumptions, "sales_inquiries_per_month", 160.0).Ok?
                       && RealAssumption(assumptions, "conversion_rate", 0.45).Ok?
    ensures r.Ok? ==> r.value == Inputs(IntAssumption(assumptions, "initial_sales_people", 1).value,
                                        IntAssumption(assumptions, "sales_people_growth_rate", 0).value,
                                        RealAssumption(assumptions, "large_customer_revenue_monthly", 16667.0).value,
                                        RealAssumption(assumptions, "small_customer_revenue_monthly", 5000.0).value,
                                        RealAssumption(assumptions, "marketing_spend_monthly", 200000.0).value,
                                        RealAssumption(assumptions, "sales_inquiries_per_month", 160.0).value,
                                        RealAssumption(assumptions, "conversion_rate", 0.45).value)
  {
    var initial := IntAssumption(assumptions, "initial_sales_people", 1);
    var growth := IntAssumption(assumptions, "sales_people_growth_rate", 0);
    var large := RealAssumption(assumptions, "large_customer_revenue_monthly", 16667.0);
    var small := RealAssumption(assumptions, "small_customer_revenue_monthly", 5000.0);
    var marketing := RealAssumption(assumptions, "marketing_spend_monthly", 200000.0);
    var inquiries := RealAssumption(assumptions, "sales_inquiries_per_month", 160.0);
    var conversion := RealAssumption(assumptions, "conversion_rate", 0.45);
    if initial.Err? then Err(initial.error)
    else if growth.Err? then Err(growth.error)
    else if large.Err? then Err(large.error)
    else if small.Err? then Err(small.error)
    else if marketing.Err? then Err(marketing.error)
    else if inquiries.Err? then Err(inquiries.error)
    else if conversion.Err? then Err(conversion.error)
    else Ok(Inputs(initial.value, growth.value, large.value, small.value, marketing.value,
                   inquiries.value, conversion.value))
  }

  /** The horizon guard: a non-positive horizon becomes 11 months. */
  function EffectiveHorizon(timeHorizon: int): (n: nat)
    ensures n >= 1
    ensures timeHorizon > 0 ==> n == timeHorizon
    ensures timeHorizon <= 0 ==> n == 11
  {
    if timeHorizon <= 0 then 11 else timeHorizon
  }

  // ---- Specification: the projection for month k in closed form ----

  /** Head-count in month k: linear growth from the initial team. */
  function SalesPeopleAt(inp: Inputs, k: int): int {
    inp.initialSalesPeople + (k - 1) * inp.salesPeopleGrowthRate
  }

  /** `math.floor(sales_people * 1.5)`, exactly. */
  function LargeAcquiredAt(inp: Inputs, k: int): int {
    (3 * SalesPeopleAt(inp, k)) / 2
  }

  /** Large customers signed in months 1..k. */
  function LargeCumulativeAt(inp: Inputs, k: nat): int {
    if k == 0 then 0 else LargeCumulativeAt(inp, k - 1) + LargeAcquiredAt(inp, k)
  }

  /** `math.floor(sales_inquiries * conversion_rate)`: the same every month. */
  function SmallAcquired(inp: Inputs): int {
    (inp.salesInquiriesPerMonth * inp.conversionRate).Floor
  }

  function ProjectionAt(inp: Inputs, k: nat): MonthlyProjection {
    var largeCumulative := LargeCumulativeAt(inp, k);
    var smallCumulative := k * SmallAcquired(inp);
    var largeRevenue := largeCumulative as real * inp.largeCustomerRevenueMonthly;
    var smallRevenue := smallCumulative as real * inp.smallCustomerRevenueMonthly;
    MonthlyProjection(
      k, SalesPeopleAt(inp, k),
      LargeAcquiredAt(inp, k), largeCumulative, largeRevenue,
      SmallAcquired(inp), smallCumulative, smallRevenue,
      inp.marketingSpendMonthly, largeRevenue + smallRevenue)
  }

  /** The first n months of the projection. */
  function Projections(inp: Inputs, n: nat): (ps: seq<MonthlyProjection>)
    ensures |ps| == n
    ensures forall i :: 0 <= i < n ==> ps[i] == ProjectionAt(inp, i + 1)
  {
    seq(n, i requires 0 <= i < n => ProjectionAt(inp, i + 1))
  }

  /** One turn of the loop: the counters for month `month` follow from those of the month before. */
  lemma MonthStep(inp: Inputs, month: nat)
    requires month >= 1
    ensures SalesPeopleAt(inp, month + 1) == SalesPeopleAt(inp, month) + inp.salesPeopleGrowthRate
    ensures LargeCumulativeAt(inp, month) == LargeCumulativeAt(inp, month - 1) + (3 * SalesPeopleAt(inp, month)) / 2
    ensures month * SmallAcquired(inp) == (month - 1) * SmallAcquired(inp) + SmallAcquired(inp)
  {
  }

  /** The record of month k, built from the running totals of large and small customers. */
  lemma ProjectionOfCounters(inp: Inputs, k: nat, largeCumulative: int, smallCumulative: int)
    requires largeCumulative == LargeCumulativeAt(inp, k) && smallCumulative == k * SmallAcquired(inp)
    ensures ProjectionAt(inp, k) == MonthlyProjection(
              k, SalesPeopleAt(inp, k), (3 * SalesPeopleAt(inp, k)) / 2, largeCumulative,
              largeCumulative as real * inp.largeCustomerRevenueMonthly,
              (inp.salesInquiriesPerMonth * inp.conversionRate).Floor, smallCumulative,
              smallCumulative as real * inp.smallCustomerRevenueMonthly, inp.marketingSpendMonthly,
              largeCumulative as real * inp.largeCustomerRevenueMonthly
              + smallCumulative as real * inp.smallCustomerRevenueMonthly)
  {
  }

  /** The projection for one more month extends the shorter one. */
  lemma ProjectionsSnoc(inp: Inputs, n: nat)
    ensures Projections(inp, n + 1) == Projections(inp, n) + [ProjectionAt(inp, n + 1)]
  {
  }

  /** `FormulaEngine.calculate_monthly_projections`: the loop, proved against `Projections`. */
  method CalculateMonthlyProjections(timeHorizon: int, inp: Inputs) returns (projections: seq<MonthlyProjection>)
    ensures projections == Projections(inp, EffectiveHorizon(timeHorizon))
  {
    projections := [];
    var currentSalesPeople := inp.initialSalesPeople;
    var horizon := timeHorizon;
    if horizon <= 0 {
      horizon := 11;
    }
    var cumulativeLarge := 0;
    var cumulativeSmall := 0;
    for month := 1 to horizon + 1
      invariant projections == Projections(inp, month - 1)
      invariant currentSalesPeople == SalesPeopleAt(inp, month)
      invariant cumulativeLarge == LargeCumulativeAt(inp, month - 1)
      invariant cumulativeSmall == (month - 1) * SmallAcquired(inp)
    {
      MonthStep(inp, month);
      var newLarge := (3 * currentSalesPeople) / 2;
      cumulativeLarge := cumulativeLarge + newLarge;
      var largeRevenue := cumulativeLarge as real * inp.largeCustomerRevenueMonthly;
      var marketingCost := inp.marketingSpendMonthly;
      var newSmall := (inp.salesInquiriesPerMonth * inp.conversionRate).Floor;
      cumulativeSmall := cumulativeSmall + newSmall;
      var smallRevenue := cumulativeSmall as real * inp.smallCustomerRevenueMonthly;
      var totalRevenue := largeRevenue + smallRevenue;
      var projection := MonthlyProjection(
        month, currentSalesPeople, newLarge, cumulativeLarge, largeRevenue,
        newSmall, cumulativeSmall, smallRevenue, marketingCost, totalRevenue);
      ProjectionOfCounters(inp, month, cumulativeLarge, cumulativeSmall);
      ProjectionsSnoc(inp, month - 1);
      projections := projections + [projection];
      currentSalesPeople := currentSalesPeople + inp.salesPeopleGrowthRate;
    }
  }

  /** What `calculate_monthly_projections(time_horizon, assumptions, ...)` yields: the projection
      for the guarded horizon, or the error raised by the first unusable assumption. */
  function EngineResult(timeHorizon: int, assumptions: map<string, Json>): (r: Result<seq<MonthlyProjection>>)
    ensures r.Err? <==> ReadInputs(assumptions).Err?
    ensures r.Ok? ==> |r.value| == EffectiveHorizon(timeHorizon)
    ensures r.Ok? ==> r.value == Projections(ReadInputs(assumptions).value, EffectiveHorizon(timeHorizon))
  {
    match ReadInputs(assumptions)
    case Ok(inp) => Ok(Projections(inp, EffectiveHorizon(timeHorizon)))
    case Err(e) => Err(e)
  }

  /** The engine entry point on the raw assumptions dictionary (the drivers argument is unused). */
  method CalculateFromAssumptions(timeHorizon: int, assumptions: map<string, Json>)
    returns (r: Result<seq<MonthlyProjection>>)
    ensures r == EngineResult(timeHorizon, assumptions)
  {
    var inputs := ReadInputs(assumptions);
    if inputs.Err? {
      return Err(inputs.error);
    }
    var projections := CalculateMonthlyProjections(timeHorizon, inputs.value);
    return Ok(projections);
  }

  // ---- Properties of the projection ----

  /** Large customers acquired over the given months. */
  function SumLargeAcquired(ps: seq<MonthlyProjection>): int {
    if |ps| == 0 then 0 else SumLargeAcquired(ps[..|ps| - 1]) + ps[|ps| - 1].largeCustomersAcquired
  }

  /** Each month's entry: its number, head-count, acquisitions and revenues in closed form. */
  lemma ProjectionEntry(inp: Inputs, n: nat, i: nat)
    requires i < n
    ensures var p := Projections(inp, n)[i];
      && p.month == i + 1
      && p.salesPeople == inp.initialSalesPeople + i * inp.salesPeopleGrowthRate
      && p.largeCustomersAcquired == (3 * p.salesPeople) / 2
      && p.smallCustomersAcquired == SmallAcquired(inp)
      && p.smallCustomersCumulative == p.month * p.smallCustomersAcquired
      && p.largeCustomerRevenue == p.largeCustomersCumulative as real * inp.largeCustomerRevenueMonthly
      && p.smallCustomerRevenue == p.smallCustomersCumulative as real * inp.smallCustomerRevenueMonthly
      && p.totalRevenue == p.largeCustomerRevenue + p.smallCustomerRevenue
      && p.marketingSpend == inp.marketingSpendMonthly
  {
  }

  /** The cumulative large-customer count is the running sum of the monthly acquisitions. */
  lemma {:induction false} LargeCumulativeIsPrefixSum(inp: Inputs, n: nat, k: nat)
    requires k < n
    ensures Projections(inp, n)[k].largeCustomersCumulative == SumLargeAcquired(Projections(inp, n)[..k + 1])
  {
    var ps := Projections(inp, n);
    var prefix := ps[..k + 1];
    assert prefix[..k] == ps[..k];
    assert SumLargeAcquired(prefix) == SumLargeAcquired(ps[..k]) + ps[k].largeCustomersAcquired;
    assert ps[k].largeCustomersCumulative == LargeCumulativeAt(inp, k) + ps[k].largeCustomersAcquired;
    if k == 0 {
      assert ps[..k] == [];
    } else {
      LargeCumulativeIsPrefixSum(inp, n, k - 1);
      assert ps[..k] == ps[..k - 1 + 1];
      assert ps[k - 1].largeCustomersCumulative == LargeCumulativeAt(inp, k);
    }
  }

  /** Inputs under which nothing can shrink: no negative head-count, rate or funnel value. */
  predicate NonNegative(inp: Inputs) {
    && inp.initialSalesPeople >= 0
    && inp.salesPeopleGrowthRate >= 0
    && inp.largeCustomerRevenueMonthly >= 0.0
    && inp.smallCustomerRevenueMonthly >= 0.0
    && inp.salesInquiriesPerMonth >= 0.0
    && inp.conversionRate >= 0.0
  }

  lemma LargeAcquiredNonNegative(inp: Inputs, k: nat)
    requires NonNegative(inp) && k >= 1
    ensures LargeAcquiredAt(inp, k) >= 0
  {
    assert (k - 1) * inp.salesPeopleGrowthRate >= 0;
  }

  lemma {:induction false} LargeCumulativeMonotone(inp: Inputs, j: nat, k: nat)
    requires NonNegative(inp) && j <= k
    ensures LargeCumulativeAt(inp, j) <= LargeCumulativeAt(inp, k)
    decreases k - j
  {
    if j < k {
      LargeCumulativeMonotone(inp, j, k - 1);
      LargeAcquiredNonNegative(inp, k);
    }
  }

  lemma ScaleMonotone(a: real, b: real, rate: real)
    requires a <= b && rate >= 0.0
    ensures a * rate <= b * rate
  {
    assert b * rate - a * rate == (b - a) * rate;
  }

  lemma CountMonotone(a: nat, b: nat, s: int)
    requires a <= b && s >= 0
    ensures a * s <= b * s
  {
    assert b * s - a * s == (b - a) * s;
  }

  /** More customers of each kind at non-negative rates is at least as much revenue. */
  lemma RevenueMonotone(large1: real, large2: real, small1: real, small2: real, largeRate: real, smallRate: real)
    requires large1 <= large2 && small1 <= small2 && largeRate >= 0.0 && smallRate >= 0.0
    ensures large1 * largeRate <= large2 * largeRate && small1 * smallRate <= small2 * smallRate
    ensures large1 * largeRate + small1 * smallRate <= large2 * largeRate + small2 * smallRate
  {
    ScaleMonotone(large1, large2, largeRate);
    ScaleMonotone(small1, small2, smallRate);
  }

  lemma SmallAcquiredNonNegative(inp: Inputs)
    requires NonNegative(inp)
    ensures SmallAcquired(inp) >= 0
  {
    assert inp.salesInquiriesPerMonth * inp.conversionRate >= 0.0;
  }

  /** Month j's counts and revenue are at least month i's, for i <= j. */
  lemma ProjectionAtMonotone(inp: Inputs, i: nat, j: nat)
    requires NonNegative(inp) && i <= j
    ensures ProjectionAt(inp, i).largeCustomersCumulative <= ProjectionAt(inp, j).largeCustomersCumulative
    ensures ProjectionAt(inp, i).smallCustomersCumulative <= ProjectionAt(inp, j).smallCustomersCumulative
    ensures ProjectionAt(inp, i).totalRevenue <= ProjectionAt(inp, j).totalRevenue
  {
    LargeCumulativeMonotone(inp, i, j);
    SmallAcquiredNonNegative(inp);
    CountMonotone(i, j, SmallAcquired(inp));
    RevenueMonotone(LargeCumulativeAt(inp, i) as real, LargeCumulativeAt(inp, j) as real,
                    (i * SmallAcquired(inp)) as real, (j * SmallAcquired(inp)) as real,
                    inp.largeCustomerRevenueMonthly, inp.smallCustomerRevenueMonthly);
  }

  /** With non-negative inputs the cumulative counts and the total revenue never decrease. */
  lemma RevenueNeverDecreases(inp: Inputs, n: nat, i: nat, j: nat)
    requires NonNegative(inp) && i <= j < n
    ensures var ps := Projections(inp, n);
      && ps[i].largeCustomersCumulative <= ps[j].largeCustomersCumulative
      && ps[i].smallCustomersCumulative <= ps[j].smallCustomersCumulative
      && ps[i].totalRevenue <= ps[j].totalRevenue
  {
    ProjectionAtMonotone(inp, i + 1, j + 1);
  }

  /** The assumptions of the engine's unit test: two sales people growing by one a month. */
  function TestAssumptions(): map<string, Json> {
    map[
      "initial_sales_people" := JNum(2.0),
      "sales_people_growth_rate" := JNum(1.0),
      "large_customer_revenue_monthly" := JNum(16667.0),
      "small_customer_revenue_monthly" := JNum(5000.0),
      "marketing_spend_monthly" := JNum(200000.0)]
  }

  /** Three months from those assumptions: head-count 2, 3, 4 and revenue that starts positive and grows. */
  lemma TestScenario()
    ensures ReadInputs(TestAssumptions()).Ok?
    ensures var ps := Projections(ReadInputs(TestAssumptions()).value, 3);
      && ps[0].salesPeople == 2 && ps[1].salesPeople == 3 && ps[2].salesPeople == 4
      && ps[0].totalRevenue > 0.0
      && ps[2].totalRevenue > ps[0].totalRevenue
  {
    var inp := Inputs(2, 1, 16667.0, 5000.0, 200000.0, 160.0, 0.45);
    assert ReadInputs(TestAssumptions()) == Ok(inp);
    assert SmallAcquired(inp) == 72;
    assert LargeCumulativeAt(inp, 1) == 3;
    assert LargeCumulativeAt(inp, 3) == 3 + 4 + 6;
  }
}
