/** `FinanceService` of app/services/finance_service.py: from a query to a stored model. */
module FinanceService {
  import opened Wrappers
  import opened JsonValue
  import opened Text
  import opened FinanceModels
  import opened FormulaEngine
  import opened LlmService

  // ---- The time horizon ----

  /** `int(re.search(r"(\d+)", s).group(1))`, or None when s holds no digit. */
  function FirstNumberIn(s: string): (r: Option<nat>)
    ensures r.None? <==> forall k :: 0 <= k < |s| ==> !IsDigit(s[k])
  {
    match FindDigit(s, 0)
    case Some(i) => Some(DigitsValue(s[i..SpanEnd(s, i, Digits)]))
    case None => None
  }

  /** The horizon read from `time_horizon_months`: a number is truncated (a bool is 0 or 1), a string
      gives its first digit run or 11, anything else (also a missing key) gives 11. */
  function CoerceTimeHorizon(raw: Json): (h: int)
    ensures raw.JNum? ==> h == Truncate(raw.n)
    ensures raw.JStr? && FirstNumberIn(raw.s).Some? ==> h == FirstNumberIn(raw.s).value
    ensures raw.JStr? && FirstNumberIn(raw.s).None? ==> h == 11
    ensures raw.JNull? || raw.JArr? || raw.JObj? ==> h == 11
    ensures raw.JBool? ==> h == (if raw.b then 1 else 0)
  {
    match raw
    case JNum(x) => Truncate(x)
    case JBool(b) => if b then 1 else 0
    case JStr(s) => (match FirstNumberIn(s) case Some(n) => n case None => 11)
    case _ => 11
  }

  /** The first digit of s is at i when none comes before it. */
  lemma FirstDigitAt(s: string, i: nat)
    requires i < |s| && IsDigit(s[i])
    requires forall k :: 0 <= k < i ==> !IsDigit(s[k])
    ensures FindDigit(s, 0) == Some(i)
  {
  }

  /** The digit run starting at i ends at j when s[i..j] are digits and s[j] is not. */
  lemma DigitRunEnd(s: string, i: nat, j: nat)
    requires i <= j <= |s|
    requires forall k :: i <= k < j ==> IsDigit(s[k])
    requires j == |s| || !IsDigit(s[j])
    ensures SpanEnd(s, i, Digits) == j
  {
  }

  /** The digits of n, with any digit-free text before it and any text after it that does not
      continue the number, read back as n. */
  lemma NumberInText(before: string, n: nat, after: string)
    requires forall k :: 0 <= k < |before| ==> !IsDigit(before[k])
    requires |after| == 0 || !IsDigit(after[0])
    ensures CoerceTimeHorizon(JStr(before + ShowNat(n) + after)) == n
  {
    var ds := ShowNat(n);
    var s := before + ds + after;
    var i, j := |before|, |before| + |ds|;
    forall k | 0 <= k < i
      ensures !IsDigit(s[k])
    {
      assert s[k] == before[k];
    }
    forall k | i <= k < j
      ensures IsDigit(s[k])
    {
      assert s[k] == ds[k - i];
    }
    if j < |s| {
      assert s[j] == after[0];
    }
    FirstDigitAt(s, i);
    DigitRunEnd(s, i, j);
    assert s[i..j] == ds;
    DigitsValueShowNat(n);
  }

  /** A whole number of months survives the coercion. */
  lemma WholeHorizonKept(n: int)
    ensures CoerceTimeHorizon(JNum(n as real)) == n
  {
  }

  // ---- The assumptions ----

  /** One normalised assumption: the engine's key, the key the language model may use instead,
      and the default when neither is present. */
  datatype Alias = Alias(primary: string, alias: string, default: Json)

  const AliasTable: seq<Alias> := [
    Alias("initial_sales_people", "sales_people_initial", JNum(1.0)),
    Alias("sales_people_growth_rate", "sales_people_growth_monthly", JNum(0.0)),
    Alias("large_customer_revenue_monthly", "revenue_per_large_customer", JNum(16667.0)),
    Alias("small_customer_revenue_monthly", "avg_revenue_per_small_customer", JNum(5000.0)),
    Alias("marketing_spend_monthly", "monthly_marketing_spend", JNum(200000.0)),
    Alias("sales_inquiries_per_month", "sales_inquiries_per_conversion_month", JNum(160.0)),
    Alias("conversion_rate", "demo_rate", JNum(0.45))]

  /** `raw.get(primary, raw.get(alias, default))`. */
  function Resolve(raw: map<string, Json>, a: Alias): (v: Json)
    ensures a.primary in raw ==> v == raw[a.primary]
    ensures a.primary !in raw && a.alias in raw ==> v == raw[a.alias]
    ensures a.primary !in raw && a.alias !in raw ==> v == a.default
  {
    Get(raw, a.primary, Get(raw, a.alias, a.default))
  }

  const EngineKeys: set<string> := {"initial_sales_people", "sales_people_growth_rate",
    "large_customer_revenue_monthly", "small_customer_revenue_monthly", "marketing_spend_monthly",
    "sales_inquiries_per_month", "conversion_rate"}

  /** The assumption dictionary handed to the engine: exactly the seven engine keys, each resolved
      through its alias and default; every other key of the input is dropped. */
  function Normalise(raw: map<string, Json>): (a: map<string, Json>)
    ensures a.Keys == EngineKeys
    ensures forall i :: 0 <= i < |AliasTable| ==> a[AliasTable[i].primary] == Resolve(raw, AliasTable[i])
  {
    map[
      "initial_sales_people" := Resolve(raw, AliasTable[0]),
      "sales_people_growth_rate" := Resolve(raw, AliasTable[1]),
      "large_customer_revenue_monthly" := Resolve(raw, AliasTable[2]),
      "small_customer_revenue_monthly" := Resolve(raw, AliasTable[3]),
      "marketing_spend_monthly" := Resolve(raw, AliasTable[4]),
      "sales_inquiries_per_month" := Resolve(raw, AliasTable[5]),
      "conversion_rate" := Resolve(raw, AliasTable[6])]
  }

  /** Normalising an already normalised dictionary changes nothing. */
  lemma NormaliseIdempotent(raw: map<string, Json>)
    ensures Normalise(Normalise(raw)) == Normalise(raw)
  {
    var a := Normalise(raw);
    forall i | 0 <= i < |AliasTable|
      ensures Normalise(a)[AliasTable[i].primary] == a[AliasTable[i].primary]
    {
      assert AliasTable[i].primary in a;
    }
    assert forall k :: k in EngineKeys ==> exists i :: 0 <= i < |AliasTable| && AliasTable[i].primary == k;
  }

  /** Only the fourteen primary and alias keys matter; any other key of the input is ignored. */
  lemma NormaliseIgnoresOtherKeys(raw: map<string, Json>, key: string, v: Json)
    requires forall i :: 0 <= i < |AliasTable| ==> key != AliasTable[i].primary && key != AliasTable[i].alias
    ensures Normalise(raw[key := v]) == Normalise(raw)
  {
    var a, b := Normalise(raw[key := v]), Normalise(raw);
    forall i | 0 <= i < |AliasTable|
      ensures a[AliasTable[i].primary] == b[AliasTable[i].primary]
    {
    }
    assert forall k :: k in EngineKeys ==> exists i :: 0 <= i < |AliasTable| && AliasTable[i].primary == k;
  }

  // ---- The revenue drivers ----

  /** `RevenueDriver(**rd)`: only a dictionary can be unpacked into keyword arguments. */
  function DriverFrom(item: Json): (r: Result<RevenueDriver>)
    ensures item.JObj? ==> r == RevenueDriverFromJson(item.fields)
    ensures !item.JObj? ==> r.Err?
  {
    match item
    case JObj(fields) => RevenueDriverFromJson(fields)
    case _ => Err(NotAMapping("revenue_drivers"))
  }

  /** The list comprehension over the drivers: it fails at the first entry that fails. */
  function DriversFromItems(items: seq<Json>): (r: Result<seq<RevenueDriver>>)
    ensures r.Ok? <==> forall i :: 0 <= i < |items| ==> DriverFrom(items[i]).Ok?
    ensures r.Ok? ==> |r.value| == |items|
    ensures r.Ok? ==> forall i :: 0 <= i < |items| ==> r.value[i] == DriverFrom(items[i]).value
    decreases |items|
  {
    if |items| == 0 then Ok([])
    else match DriverFrom(items[0])
      case Err(e) => Err(e)
      case Ok(d) =>
        match DriversFromItems(items[1..])
        case Err(e) => Err(e)
        case Ok(ds) => Ok([d] + ds)
  }

  /** Iterating `revenue_drivers`: a list yields its entries, a string its characters and a dictionary
      its keys (so only an empty one works); null, numbers and booleans cannot be iterated. */
  function ExtractDrivers(data: Json): (r: Result<seq<RevenueDriver>>)
    ensures data.JArr? ==> r == DriversFromItems(data.items)
    ensures data.JStr? ==> (r.Ok? <==> data.s == [])
    ensures data.JObj? ==> (r.Ok? <==> data.fields == map[])
    ensures data.JNull? || data.JNum? || data.JBool? ==> r.Err?
    ensures r.Ok? && !data.JArr? ==> r.value == []
  {
    match data
    case JArr(items) => DriversFromItems(items)
    case JStr(s) => if s == [] then Ok([]) else Err(NotAMapping("revenue_drivers"))
    case JObj(m) => if m == map[] then Ok([]) else Err(NotAMapping("revenue_drivers"))
    case _ => Err(NotIterable("revenue_drivers"))
  }

  /** A driver entry lacking `name`, `type` or `unit` makes the conversion fail. */
  lemma MissingDriverFieldFails(items: seq<Json>, i: nat)
    requires i < |items| && items[i].JObj?
    requires "name" !in items[i].fields || "type" !in items[i].fields || "unit" !in items[i].fields
    ensures DriversFromItems(items).Err?
  {
    assert DriverFrom(items[i]).Err?;
  }

  // ---- From the language model's answer to a stored model ----

  /** What `process_query` builds from the answer `response` under the id `modelId`, or the exception
      it raises: `.get` on an answer or assumptions that are not dictionaries, a bad driver entry, or
      an assumption the engine cannot use. */
  function ModelFromResponse(response: Json, modelId: string): (r: Result<FinancialModelData>)
    ensures r.Ok? ==> response.JObj? && Get(response.fields, "assumptions", JObj(map[])).JObj?
    ensures r.Ok? ==> r.value.modelId == modelId
    ensures r.Ok? ==> r.value.timeHorizonMonths == CoerceTimeHorizon(Get(response.fields, "time_horizon_months", JNull))
    ensures r.Ok? ==> r.value.assumptions.Keys == EngineKeys
    ensures response.JObj? && ExtractDrivers(Get(response.fields, "revenue_drivers", JArr([]))).Err? ==> r.Err?
    ensures r.Ok? ==> ExtractDrivers(Get(response.fields, "revenue_drivers", JArr([]))) == Ok(r.value.revenueDrivers)
    ensures r.Ok? ==> r.value.assumptions == Normalise(Get(response.fields, "assumptions", JObj(map[])).fields)
    ensures r.Ok? ==> |r.value.monthlyProjections| == EffectiveHorizon(r.value.timeHorizonMonths)
    ensures r.Ok? ==> Ok(r.value.monthlyProjections) == EngineResult(r.value.timeHorizonMonths, r.value.assumptions)
  {
    if !response.JObj? then Err(NotAMapping("llm_response"))
    else
      var fields := response.fields;
      var timeHorizon := CoerceTimeHorizon(Get(fields, "time_horizon_months", JNull));
      var driversData := Get(fields, "revenue_drivers", JArr([]));
      var rawAssumptions := Get(fields, "assumptions", JObj(map[]));
      if !rawAssumptions.JObj? then Err(NotAMapping("assumptions"))
      else
        var assumptions := Normalise(rawAssumptions.fields);
        match ExtractDrivers(driversData)
        case Err(e) => Err(e)
        case Ok(drivers) =>
          match EngineResult(timeHorizon, assumptions)
          case Err(e) => Err(e)
          case Ok(projections) => Ok(FinancialModelData(modelId, timeHorizon, assumptions, drivers, projections))
  }

  /** The fields of the answer to `process_query`. */
  datatype QueryResponse = QueryResponse(
    modelId: string,
    revenueDrivers: seq<RevenueDriver>,
    monthlyProjections: seq<MonthlyProjection>,
    assumptions: map<string, Json>)

  /** The drivers the service advertises, by name, with their type and unit. */
  function AvailableRevenueDrivers(): (drivers: map<string, Json>)
    ensures drivers.Keys == {"number_of_sales_people", "marketing_spend"}
    ensures forall name :: name in drivers ==> drivers[name].JObj? && drivers[name].fields.Keys == {"type", "unit"}
    ensures drivers["number_of_sales_people"].fields["type"] == JStr("input")
    ensures drivers["number_of_sales_people"].fields["unit"] == JStr("#")
    ensures drivers["marketing_spend"].fields["type"] == JStr("input")
    ensures drivers["marketing_spend"].fields["unit"] == JStr("$")
  {
    map[
      "number_of_sales_people" := JObj(map["type" := JStr("input"), "unit" := JStr("#")]),
      "marketing_spend" := JObj(map["type" := JStr("input"), "unit" := JStr("$")])]
  }

  /** Every driver of the offline answer is an advertised driver, with the advertised type and unit. */
  lemma FallbackDriversAreAvailable(p: Parsed, i: nat)
    requires i < 2
    ensures var d := FallbackFor(p).fields["revenue_drivers"].items[i].fields;
            var name := d["name"].s;
            name in AvailableRevenueDrivers()
            && AvailableRevenueDrivers()[name].fields["type"] == d["type"]
            && AvailableRevenueDrivers()[name].fields["unit"] == d["unit"]
  {
  }

  /** The offline answer's parsed values survive normalisation, the rate moving from `demo_rate`
      to `conversion_rate`. */
  lemma NormaliseFallbackParsed(salesPeople: Json, marketing: Json, conversion: Json)
    ensures var a := Normalise(FallbackAssumptionFields(salesPeople, marketing, conversion));
            a["initial_sales_people"] == salesPeople
            && a["marketing_spend_monthly"] == marketing
            && a["conversion_rate"] == conversion
  {
    var raw := FallbackAssumptionFields(salesPeople, marketing, conversion);
    assert "marketing_spend_monthly" !in raw && "conversion_rate" !in raw;
  }

  /** The offline answer's fixed values, normalised: growth 1 through its alias, the two revenues
      through theirs, and the inquiries under the engine's own key. */
  lemma NormaliseFallbackFixed(salesPeople: Json, marketing: Json, conversion: Json)
    ensures var a := Normalise(FallbackAssumptionFields(salesPeople, marketing, conversion));
            a["sales_people_growth_rate"] == JNum(1.0)
            && a["large_customer_revenue_monthly"] == JNum(16667.0)
            && a["small_customer_revenue_monthly"] == JNum(5000.0)
            && a["sales_inquiries_per_month"] == JNum(160.0)
  {
    var raw := FallbackAssumptionFields(salesPeople, marketing, conversion);
    assert "sales_people_growth_rate" !in raw && "large_customer_revenue_monthly" !in raw;
    assert "small_customer_revenue_monthly" !in raw;
  }

  /** The offline answer's assumptions, normalised: the parsed head-count and spend, growth 1, and the
      parsed (or default) rate under `conversion_rate` through its `demo_rate` alias. */
  lemma FallbackAssumptions(p: Parsed)
    ensures var a := Normalise(FallbackFor(p).fields["assumptions"].fields);
            a["initial_sales_people"] == OrDefault(p.salesPeople, JNum(2.0))
            && a["sales_people_growth_rate"] == JNum(1.0)
            && a["large_customer_revenue_monthly"] == JNum(16667.0)
            && a["small_customer_revenue_monthly"] == JNum(5000.0)
            && a["marketing_spend_monthly"] == OrDefault(p.marketing, JNum(200000.0))
            && a["sales_inquiries_per_month"] == JNum(160.0)
            && a["conversion_rate"] == OrDefault(p.conversion, JNum(0.45))
  {
    var salesPeople, marketing := OrDefault(p.salesPeople, JNum(2.0)), OrDefault(p.marketing, JNum(200000.0));
    var conversion := OrDefault(p.conversion, JNum(0.45));
    assert FallbackFor(p).fields["assumptions"].fields == FallbackAssumptionFields(salesPeople, marketing, conversion);
    NormaliseFallbackParsed(salesPeople, marketing, conversion);
    NormaliseFallbackFixed(salesPeople, marketing, conversion);
  }

  /** A driver entry as the offline answer writes it converts when its value is a number or null. */
  lemma DriverConverts(name: string, value: Json, unit: string)
    requires value.JNum? || value.JNull?
    ensures DriverFrom(Driver(name, value, unit)).Ok?
  {
    var fields := Driver(name, value, unit).fields;
    assert "formula" !in fields && "business_unit" !in fields;
  }

  /** The drivers of the offline answer always convert. */
  lemma FallbackDriversConvert(p: Parsed)
    requires p.salesPeople.None? || p.salesPeople.value.JNum?
    requires p.marketing.None? || p.marketing.value.JNum? || p.marketing.value.JNull?
    ensures ExtractDrivers(FallbackFor(p).fields["revenue_drivers"]).Ok?
  {
    var items := FallbackFor(p).fields["revenue_drivers"].items;
    DriverConverts("number_of_sales_people", OrDefault(p.salesPeople, JNum(2.0)), "#");
    DriverConverts("marketing_spend", OrDefault(p.marketing, JNum(200000.0)), "$");
    assert forall i :: 0 <= i < |items| ==> DriverFrom(items[i]).Ok?;
  }

  /** The engine inputs read from the offline answer. */
  lemma FallbackInputs(p: Parsed, salesPeople: int)
    requires p.salesPeople == Some(JNum(salesPeople as real)) && p.marketing.None? && p.conversion.None?
    ensures ReadInputs(Normalise(FallbackFor(p).fields["assumptions"].fields))
            == Ok(Inputs(salesPeople, 1, 16667.0, 5000.0, 200000.0, 160.0, 0.45))
  {
    FallbackAssumptions(p);
  }

  /** When every step succeeds, the stored projections are the engine's closed form. */
  lemma ModelFromResponseOk(response: Json, modelId: string)
    requires response.JObj? && Get(response.fields, "assumptions", JObj(map[])).JObj?
    requires ExtractDrivers(Get(response.fields, "revenue_drivers", JArr([]))).Ok?
    requires ReadInputs(Normalise(Get(response.fields, "assumptions", JObj(map[])).fields)).Ok?
    ensures ModelFromResponse(response, modelId).Ok?
    ensures ModelFromResponse(response, modelId).value.monthlyProjections
            == Projections(ReadInputs(Normalise(Get(response.fields, "assumptions", JObj(map[])).fields)).value,
                           EffectiveHorizon(CoerceTimeHorizon(Get(response.fields, "time_horizon_months", JNull))))
  {
  }

  /** Offline, a query that names a whole number of months m > 0 and a whole head-count s, and no
      spend or rate, gives m months starting with s sales people. */
  lemma FallbackForecast(p: Parsed, months: int, salesPeople: int, modelId: string)
    requires months > 0
    requires p == Parsed(Some(JNum(months as real)), Some(JNum(salesPeople as real)), None, None)
    ensures ModelFromResponse(FallbackFor(p), modelId).Ok?
    ensures |ModelFromResponse(FallbackFor(p), modelId).value.monthlyProjections| == months
    ensures ModelFromResponse(FallbackFor(p), modelId).value.monthlyProjections[0].salesPeople == salesPeople
  {
    var answer := FallbackFor(p);
    FallbackDriversConvert(p);
    FallbackInputs(p, salesPeople);
    var inputs := Inputs(salesPeople, 1, 16667.0, 5000.0, 200000.0, 160.0, 0.45);
    assert CoerceTimeHorizon(Get(answer.fields, "time_horizon_months", JNull)) == months;
    ModelFromResponseOk(answer, modelId);
    assert Projections(inputs, months)[0] == ProjectionAt(inputs, 1);
  }

  /** The service test: with no API key, "Create 6-month forecast with 3 sales people" yields six
      months whose first has three sales people. */
  lemma TestQueryForecast(modelId: string)
    ensures var answer := GetFinancialModelFromQuery(ServiceQuery, false, None);
            answer.Ok? && ModelFromResponse(answer.value, modelId).Ok?
            && |ModelFromResponse(answer.value, modelId).value.monthlyProjections| == 6
            && ModelFromResponse(answer.value, modelId).value.monthlyProjections[0].salesPeople == 3
  {
    var p := Parsed(Some(JNum(6.0)), Some(JNum(3.0)), None, None);
    TestQueryParsed();
    FallbackForecast(p, 6, 3, modelId);
  }

  class FinanceService {
    /** The models generated so far, by id. */
    var models: map<string, FinancialModelData>

    constructor()
      ensures models == map[]
    {
      models := map[];
    }

    /** `get_model_by_id`: the stored model, or None for an unknown id. */
    function GetModelById(modelId: string): (r: Option<FinancialModelData>)
      reads this
      ensures r.Some? <==> modelId in models
      ensures r.Some? ==> r.value == models[modelId]
    {
      if modelId in models then Some(models[modelId]) else None
    }

    /** `process_query`. The answer of the language model is `reply` (None when the call or the decoding
        fails, or no key is set: see `GetFinancialModelFromQuery`); the fresh uuid is `modelId`.
        On success exactly one model is added under `modelId` and the response repeats its fields;
        on failure the store is unchanged. */
    method ProcessQuery(userQuery: string, apiKeySet: bool, reply: Option<Json>, modelId: string)
      returns (r: Result<QueryResponse>)
      requires modelId !in models
      modifies this
      ensures var answer := GetFinancialModelFromQuery(userQuery, apiKeySet, reply);
              r.Err? <==> answer.Err? || ModelFromResponse(answer.value, modelId).Err?
      ensures r.Ok? ==> var m := ModelFromResponse(GetFinancialModelFromQuery(userQuery, apiKeySet, reply).value, modelId).value;
                        models == old(models)[modelId := m]
                        && r.value == QueryResponse(modelId, m.revenueDrivers, m.monthlyProjections, m.assumptions)
      ensures r.Err? ==> models == old(models)
    {
      var answer := GetFinancialModelFromQuery(userQuery, apiKeySet, reply);
      if answer.Err? {
        return Err(answer.error);
      }
      if !answer.value.JObj? {
        return Err(NotAMapping("llm_response"));
      }
      var response := answer.value.fields;
      var timeHorizon := CoerceTimeHorizon(Get(response, "time_horizon_months", JNull));
      var driversData := Get(response, "revenue_drivers", JArr([]));
      var rawAssumptions := Get(response, "assumptions", JObj(map[]));
      if !rawAssumptions.JObj? {
        return Err(NotAMapping("assumptions"));
      }
      var assumptions := Normalise(rawAssumptions.fields);
      var drivers := ExtractDrivers(driversData);
      if drivers.Err? {
        return Err(drivers.error);
      }
      var projections := CalculateFromAssumptions(timeHorizon, assumptions);
      if projections.Err? {
        return Err(projections.error);
      }
      var model := FinancialModelData(modelId, timeHorizon, assumptions, drivers.value, projections.value);
      models := models[modelId := model];
      return Ok(QueryResponse(modelId, drivers.value, projections.value, assumptions));
    }
  }
}
