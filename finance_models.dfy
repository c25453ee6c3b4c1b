/** The records of app/models/finance_models.py, with their declared defaults. */
module FinanceModels {
  import opened Wrappers
  import opened JsonValue

  /** One month of the projection; revenues and spend are Python floats, held exactly. */
  datatype MonthlyProjection = MonthlyProjection(
    month: int,
    salesPeople: int,
    largeCustomersAcquired: int,
    largeCustomersCumulative: int,
    largeCustomerRevenue: real,
    smallCustomersAcquired: int,
    smallCustomersCumulative: int,
    smallCustomerRevenue: real,
    marketingSpend: real,
    totalRevenue: real)

  /** `MonthlyProjection(month=m)`: every other field takes its default. */
  function NewMonthlyProjection(month: int): (p: MonthlyProjection)
    ensures p.month == month
    ensures p.salesPeople == 0 && p.largeCustomersAcquired == 0 && p.largeCustomersCumulative == 0
    ensures p.smallCustomersAcquired == 0 && p.smallCustomersCumulative == 0
    ensures p.largeCustomerRevenue == 0.0 && p.smallCustomerRevenue == 0.0
    ensures p.marketingSpend == 0.0 && p.totalRevenue == 0.0
  {
    MonthlyProjection(month, 0, 0, 0, 0.0, 0, 0, 0.0, 0.0, 0.0)
  }

  /** A revenue driver; `kind` is the source's `type` field. */
  datatype RevenueDriver = RevenueDriver(
    name: string,
    kind: string,
    value: Option<real>,
    unit: string,
    formula: Option<string>,
    businessUnit: Option<string>)

  /** A required `str` field of a pydantic model. */
  function RequiredText(fields: map<string, Json>, key: string): (r: Result<string>)
    ensures r.Ok? <==> key in fields && fields[key].JStr?
    ensures r.Ok? ==> r.value == fields[key].s
    ensures key !in fields ==> r == Err(MissingField(key))
  {
    if key !in fields then Err(MissingField(key))
    else match fields[key]
      case JStr(s) => Ok(s)
      case _ => Err(WrongType(key))
  }

  /** An `Optional[str]` field; `absent` is its default. */
  function OptionalText(fields: map<string, Json>, key: string, absent: Option<string>): (r: Result<Option<string>>)
    ensures key !in fields ==> r == Ok(absent)
    ensures key in fields && fields[key] == JNull ==> r == Ok(None)
    ensures key in fields && fields[key].JStr? ==> r == Ok(Some(fields[key].s))
    ensures r.Err? <==> key in fields && !fields[key].JNull? && !fields[key].JStr?
  {
    if key !in fields then Ok(absent)
    else match fields[key]
      case JNull => Ok(None)
      case JStr(s) => Ok(Some(s))
      case _ => Err(WrongType(key))
  }

  /** The `Optional[float]` field `value`; a bool is a number to pydantic. */
  function OptionalNumber(fields: map<string, Json>, key: string): (r: Result<Option<real>>)
    ensures key !in fields ==> r == Ok(None)
    ensures key in fields && fields[key] == JNull ==> r == Ok(None)
    ensures key in fields && fields[key].JNum? ==> r == Ok(Some(fields[key].n))
    ensures key in fields && fields[key].JBool? ==> r == Ok(Some(if fields[key].b then 1.0 else 0.0))
    ensures r.Err? <==> key in fields && (fields[key].JStr? || fields[key].JArr? || fields[key].JObj?)
  {
    if key !in fields then Ok(None)
    else match fields[key]
      case JNull => Ok(None)
      case JNum(n) => Ok(Some(n))
      case JBool(b) => Ok(Some(if b then 1.0 else 0.0))
      case _ => Err(WrongType(key))
  }

  /** `RevenueDriver(**rd)`: validation of one driver dictionary; extra keys are ignored. */
  function RevenueDriverFromJson(fields: map<string, Json>): (r: Result<RevenueDriver>)
    ensures "name" !in fields || "type" !in fields || "unit" !in fields ==> r.Err?
    ensures r.Ok? ==>
              fields["name"] == JStr(r.value.name) && fields["type"] == JStr(r.value.kind)
              && fields["unit"] == JStr(r.value.unit)
    ensures r.Ok? && "value" !in fields ==> r.value.value == None
    ensures r.Ok? && "formula" !in fields ==> r.value.formula == None
    ensures r.Ok? && "business_unit" !in fields ==> r.value.businessUnit == Some("assumption")
    ensures r.Ok? <==> RequiredText(fields, "name").Ok? && RequiredText(fields, "type").Ok?
                       && OptionalNumber(fields, "value").Ok? && RequiredText(fields, "unit").Ok?
                       && OptionalText(fields, "formula", None).Ok?
                       && OptionalText(fields, "business_unit", Some("assumption")).Ok?
    ensures r.Ok? ==> r.value == RevenueDriver(RequiredText(fields, "name").value, RequiredText(fields, "type").value,
                                               OptionalNumber(fields, "value").value, RequiredText(fields, "unit").value,
                                               OptionalText(fields, "formula", None).value,
                                               OptionalText(fields, "business_unit", Some("assumption")).value)
  {
    var name := RequiredText(fields, "name");
    var kind := RequiredText(fields, "type");
    var value := OptionalNumber(fields, "value");
    var unit := RequiredText(fields, "unit");
    var formula := OptionalText(fields, "formula", None);
    var businessUnit := OptionalText(fields, "business_unit", Some("assumption"));
    if name.Err? then Err(name.error)
    else if kind.Err? then Err(kind.error)
    else if value.Err? then Err(value.error)
    else if unit.Err? then Err(unit.error)
    else if formula.Err? then Err(formula.error)
    else if businessUnit.Err? then Err(businessUnit.error)
    else Ok(RevenueDriver(name.value, kind.value, value.value, unit.value, formula.value, businessUnit.value))
  }

  /** The stored record of one generated model. */
  datatype FinancialModelData = FinancialModelData(
    modelId: string,
    timeHorizonMonths: int,
    assumptions: map<string, Json>,
    revenueDrivers: seq<RevenueDriver>,
    monthlyProjections: seq<MonthlyProjection>)

  /** `FinancialModelData(model_id=id)` with every other field at its default. */
  function NewFinancialModelData(modelId: string): (d: FinancialModelData)
    ensures d.modelId == modelId && d.timeHorizonMonths == 11
    ensures d.assumptions == map[] && d.revenueDrivers == [] && d.monthlyProjections == []
  {
    FinancialModelData(modelId, 11, map[], [], [])
  }
}
