# SaaS revenue projection backend, modelled in Dafny

The system is a FastAPI backend. It turns a free-text scenario ("Create 6-month forecast with 3 sales
people") into a month-by-month revenue projection for a SaaS company, stores the resulting model
under a fresh id, and exports a stored model as a spreadsheet. This project models its core:

- **The projection engine** (`FormulaEngine.calculate_monthly_projections`). Each month it adds
  `floor(sales_people * 1.5)` large customers and `floor(inquiries * conversion)` small/medium
  customers, keeps both running totals, and derives revenue from them; the head-count grows linearly.
  The loop is the method `FormulaEngine.CalculateMonthlyProjections`, proved against the closed form
  `Projections`, about which the prefix-sum, linear-growth and monotonicity properties are proved.
- **The finance service** (`FinanceService`). It coerces the time horizon, normalises the assumption
  keys (engine key, else the language model's alias, else a default), converts the revenue drivers,
  runs the engine and stores the model in a dictionary that only grows. The store is the class
  `FinanceService.FinanceService` with its `models` map.
- **The offline query parser** (`LLMService._parse_query`, `to_number`, `_fallback_response`). It
  lower-cases the query and searches five regular expressions for months, sales people, marketing
  spend and conversion rate, then fills the fallback answer with defaults. Each `re.search` is modelled
  as a leftmost search over positions with a per-pattern "matches here" function (`LlmService.MatchAt`).
  The rule that picks the fallback (no API key, or the remote call fails) is `GetFinancialModelFromQuery`.
- **The spreadsheet grid** (`ExcelService._create_headers`, `_populate_data` with `write_row`, the
  column-width rule). The worksheet is the class `ExcelService.Worksheet`, whose `cells` map from
  (row, column) to a cell; the methods are proved to write the header row and the sixteen metric
  rows exactly where the closed forms `Placed`, `Stacked` and `Sheet` say.
- **The records** of app/models/finance_models.py with their defaults, and
  `FinancialModel.calculate_projections`, which replaces the projections in place (the class
  `FinancialModelObject.FinancialModel`).

Python's dynamic values are the datatype `JsonValue.Json`; Python `int` and `float` are both `JNum`
and hold an exact rational of any size, so a decoded reply holds finite numbers only and no float
overflows. Within that, the exceptions the source raises on the modelled paths by a `.get` on a
non-dictionary, a pydantic validation error, a `float()` of a malformed literal or arithmetic on
`None` are each an `Err` of `Wrappers.Result`; the float overflows listed under "Left out" are not.

Where a written description of the system or a test disagrees with the code, the model follows the code:

- The millions row of the spreadsheet is `round(total / 1000000, 2)` (app/services/excel_service.py:85),
  not `round(value / 1_000_000 * 100) / 100`; the model keeps that cell as `RoundedMillions(total)`
  and leaves the rounding uninterpreted.
- app/tests/test_api.py:22 expects 11 months for the query "Create 12-month revenue forecast with 2 sales
  people". The code reads 12 from "12-month" (app/services/llm_service.py:30-32), so the model yields 12.
- The spreadsheet reads the conversion rate from the key `demo_rate` (app/services/excel_service.py:78),
  but the service stores it under `conversion_rate` (app/services/finance_service.py:56). Every
  exported model therefore prints 45%; `ExcelService.StoredModelsPrintDefaultRate` proves this.

## Model

| member | source | states |
|---|---|---|
| JsonValue.Get | app/utils/formula_engine.py:26 | `d.get(key, default)`: the stored value when the key is present, the default otherwise |
| JsonValue.Truncate | app/services/finance_service.py:30 | `int(x)` on a float truncates toward zero: the result is within one of x on the side of zero |
| Text.ToLower | app/services/llm_service.py:15 | `lower()` keeps the length and lower-cases each ASCII capital, leaving every other character alone |
| Text.ToLowerIdempotent | app/services/llm_service.py:15 | lower-casing twice is lower-casing once |
| Text.SpanEnd | app/services/llm_service.py:30 | a greedy `[...]*` run ends at the first character outside the class, and every character before it is in the class |
| Text.DigitsValueShowNat | app/services/finance_service.py:33-34 | `int()` of the decimal digits of n gives n back |
| Text.FindChar | app/services/llm_service.py:18 | the first position at or after `from` holding the character, or None exactly when there is none |
| Text.FindDigit | app/services/finance_service.py:33 | the first digit at or after `from`, or None exactly when no digit follows |
| FinanceModels.NewMonthlyProjection | app/models/finance_models.py:29-39 | every field of `MonthlyProjection(month=m)` but `month` defaults to zero |
| FinanceModels.RequiredText | app/models/finance_models.py:15-18 | a required `str` field validates exactly when it is present and a string, and yields that string; a missing field is `MissingField` |
| FinanceModels.OptionalText | app/models/finance_models.py:19-20 | an `Optional[str]` field: absent gives its default, null gives None, a string gives itself, anything else fails |
| FinanceModels.OptionalNumber | app/models/finance_models.py:17 | `value: Optional[float] = None`: absent or null give None, a number gives itself, a bool gives 1.0 or 0.0, and it fails exactly for a string, list or dict |
| FinanceModels.RevenueDriverFromJson | app/models/finance_models.py:14-20 | `RevenueDriver(**rd)` fails when `name`, `type` or `unit` is missing; it succeeds exactly when each of the six fields validates (`RequiredText` for `name`, `type`, `unit`; `OptionalNumber` for `value`; `OptionalText` for `formula` and `business_unit`), and then the record holds exactly those six validated values; `value`, `formula`, `business_unit` default to None, None and "assumption" |
| FinanceModels.NewFinancialModelData | app/models/finance_models.py:6-12 | `FinancialModelData(model_id=id)` has an 11-month horizon and empty assumptions, drivers and projections |
| FormulaEngine.IntAssumption | app/utils/formula_engine.py:26-27 | a head-count assumption is its default when absent, the number when integral, 1 or 0 for a bool; it succeeds exactly when absent, a bool or an integral number, so a fraction, null, a string, a list or a dict is an error |
| FormulaEngine.RealAssumption | app/utils/formula_engine.py:30-34 | an amount or rate assumption is its default when absent, the number when present, 1.0 or 0.0 for a bool; it succeeds exactly when absent, a bool or a number, so null, a string, a list or a dict is an error |
| FormulaEngine.ReadInputs | app/utils/formula_engine.py:26-59 | an empty assumption dictionary reads as the engine's defaults (1, 0, 16667, 5000, 200000, 160, 0.45); a null marketing spend fails; a given initial head-count is read unchanged; the read succeeds exactly when all seven lookups (`IntAssumption` for the two head-counts, `RealAssumption` for the five amounts and rates, each with its default) succeed, and then the inputs are those seven values |
| FormulaEngine.EffectiveHorizon | app/utils/formula_engine.py:39-41 | a positive horizon is kept and a non-positive one becomes 11; the result is at least 1 |
| FormulaEngine.Projections | app/utils/formula_engine.py:48-80 | the first n months: exactly n records, record i being month i + 1 in closed form |
| FormulaEngine.MonthStep | app/utils/formula_engine.py:50-83 | one loop turn: head-count grows by the growth rate, the large total by `floor(sp * 1.5)`, the small total by the fixed monthly intake |
| FormulaEngine.ProjectionOfCounters | app/utils/formula_engine.py:68-79 | the record built from the running totals of month k is the closed-form record of month k |
| FormulaEngine.ProjectionsSnoc | app/utils/formula_engine.py:80 | appending month n + 1 to the first n months gives the first n + 1 |
| FormulaEngine.CalculateMonthlyProjections | app/utils/formula_engine.py:11-85 | the loop returns exactly the closed-form projection for the guarded horizon (11 months for a non-positive horizon) |
| FormulaEngine.EngineResult | app/utils/formula_engine.py:11-85 | the engine fails exactly when an assumption cannot be read; otherwise it yields `EffectiveHorizon` months of the closed form |
| FormulaEngine.CalculateFromAssumptions | app/utils/formula_engine.py:11-85 | reading the assumptions and running the loop gives `EngineResult`, errors included |
| FormulaEngine.ProjectionEntry | app/utils/formula_engine.py:48-83 | entry i is month i + 1 with `initial + i * growth` sales people, `floor(sp * 1.5)` large signings, a constant small intake, `month * intake` small customers, revenues equal to totals times rates, total = large + small, and the marketing assumption as spend |
| FormulaEngine.LargeCumulativeIsPrefixSum | app/utils/formula_engine.py:50-51 | the cumulative large-customer count of month k is the sum of the large acquisitions of months 1..k |
| FormulaEngine.LargeAcquiredNonNegative | app/utils/formula_engine.py:50 | with non-negative head-count and growth no month signs a negative number of large customers |
| FormulaEngine.LargeCumulativeMonotone | app/utils/formula_engine.py:51 | with non-negative inputs the cumulative large-customer count never decreases |
| FormulaEngine.RevenueMonotone | app/utils/formula_engine.py:52-65 | more customers of each kind at non-negative rates give at least as much revenue of each kind and in total |
| FormulaEngine.SmallAcquiredNonNegative | app/utils/formula_engine.py:60 | non-negative inquiries and conversion rate never sign a negative number of small customers |
| FormulaEngine.ProjectionAtMonotone | app/utils/formula_engine.py:51-65 | with non-negative inputs a later month has at least the earlier month's cumulative counts and total revenue |
| FormulaEngine.RevenueNeverDecreases | app/utils/formula_engine.py:51-65 | within one projection, cumulative counts and total revenue never decrease from month to month |
| FormulaEngine.TestScenario | app/tests/test_services.py:16-42 | the engine test's assumptions read successfully; over three months the head-count is 2, 3, 4, and revenue starts positive and grows |
| FinancialModelObject.FinancialModel.constructor | app/models/finance_models.py:41-48 | a new model holds its id and query and empty drivers, projections and assumptions |
| FinancialModelObject.FinancialModel.CalculateProjections | app/models/finance_models.py:50-56 | the projections become the engine's output for `months` (11 by default, so that many records); when the engine raises they are unchanged; no other field changes |
| LlmService.ParseDecimal | app/services/llm_service.py:18 | `float()` of digits and dots parses exactly when the text has at most one dot and at least one digit; a digit string parses to its value; with a dot, the digits before it are the whole part and the k digits after it add their value over 10^k; every result is non-negative |
| LlmService.NoDot | app/services/llm_service.py:18 | digits-and-dots text without a dot is all digits, and holds a digit exactly when it is non-empty |
| LlmService.DotAt | app/services/llm_service.py:18 | around its first dot, such a text has digits before; it has only digits after exactly when it has no second dot, and then it holds a digit exactly when it is longer than the dot |
| LlmService.ParseZeroPoint | app/services/llm_service.py:49-51 | a `0.ddd` literal always parses, to `ddd / 10^len` |
| LlmService.RemoveCommas | app/services/llm_service.py:18 | the result contains no comma and only characters of the input; a comma-free string is unchanged |
| LlmService.RemoveCommasAppend | app/services/llm_service.py:18 | removing commas distributes over concatenation; with the two clauses above it fixes `replace(',', '')`: commas go, all other characters stay in order |
| LlmService.SeparatorRemoved | app/services/llm_service.py:18 | `"1,000".replace(',', '')` is `"1000"` |
| LlmService.OneThousand | app/services/llm_service.py:18 | `"1000"` is all digits with value 1000 |
| LlmService.ThousandsSeparatorExample | app/services/llm_service.py:17-25 | `to_number("1,000", "k")` is 1000000 |
| LlmService.UnitScale | app/services/llm_service.py:21-24 | `k`/`thousand` multiply by 1000, `m`/`million` by 1000000, no unit by 1 |
| LlmService.Scale | app/services/llm_service.py:21-24 | the amount times the unit's multiplier |
| LlmService.ToNumber | app/services/llm_service.py:16-25 | `to_number` succeeds exactly when the comma-free text parses; the result is the scaled amount truncated, never negative |
| LlmService.ToNumberWhole | app/services/llm_service.py:16-25 | a comma-free digit string yields its value times the unit's multiplier |
| LlmService.ScaleWhole | app/services/llm_service.py:21-25 | scaling a whole amount and truncating gives the exact whole product |
| LlmService.MarketingTail | app/services/llm_service.py:40 | after the amount: the optional unit, tried as `k`, `m`, `million`, `thousand`, then a spend word; no match exactly when neither a spend word nor any unit followed by one is there |
| LlmService.DigitsThenWord | app/services/llm_service.py:30-37 | a months or sales match captures a non-empty run of digits and no unit |
| LlmService.MarketingAt | app/services/llm_service.py:40 | a marketing match captures a non-empty run of digits, dots and commas |
| LlmService.PercentAt | app/services/llm_service.py:45 | a percent match captures a non-empty run of digits and dots |
| LlmService.DecimalAt | app/services/llm_service.py:49 | a bare-rate match captures `0.` followed by at least one digit |
| LlmService.MatchAt | app/services/llm_service.py:30-49 | what each of the five patterns captures when it matches at a position |
| LlmService.SearchFrom | app/services/llm_service.py:30 | the first position at or after `from` where the pattern matches, or None exactly when it matches nowhere there |
| LlmService.Search | app/services/llm_service.py:30-49 | `re.search`: the groups of the leftmost match, with each pattern's group shape |
| LlmService.SearchLeftmost | app/services/llm_service.py:30 | when the pattern first matches at i, the search reports the match at i |
| LlmService.SearchAbsent | app/services/llm_service.py:30 | the search finds nothing exactly when the pattern matches at no position |
| LlmService.ConversionOf | app/services/llm_service.py:44-51 | a rate is found exactly when the percent or the bare form matches; the percent form wins; a found rate is non-negative |
| LlmService.ConversionFromPercent | app/services/llm_service.py:45-47 | a percent match gives its number divided by 100, or raises when `float()` rejects it |
| LlmService.ConversionFromDecimal | app/services/llm_service.py:48-51 | without a percent match the bare `0.x` form gives its value, and without either there is no rate |
| LlmService.AmountOf | app/services/llm_service.py:41-42 | the marketing entry is the number `to_number` returns for the captured amount and unit, or null when `to_number` rejects the text; a number is never negative |
| LlmService.ParsedFields | app/services/llm_service.py:27-53 | each key is present exactly when its pattern matched; months and sales people are the captured integers, the rate the found rate; a marketing entry is `AmountOf` the marketing match; the parse raises exactly when the percent number is malformed |
| LlmService.ParseConversion | app/services/llm_service.py:44-51 | the conversion step of the parser computes `ConversionOf` |
| LlmService.ParseQuery | app/services/llm_service.py:13-53 | filling the result one pattern at a time on the lower-cased query gives `ParsedFields` of that text |
| LlmService.OrDefault | app/services/llm_service.py:158-162 | `parsed.get(key, default)`: the parsed value when present, the default otherwise |
| LlmService.FallbackFor | app/services/llm_service.py:163-180 | the offline answer: horizon = parsed months or 11, exactly two drivers carrying the parsed (or default) head-count and spend, assumptions around the parsed values, empty special instructions |
| LlmService.FallbackShape | app/services/llm_service.py:163-180 | the offline answer has exactly five keys and its assumptions exactly seven, holding the parsed head-count, spend and rate (defaults 2, 200000, 0.45) under the alias names |
| LlmService.FallbackResponse | app/services/llm_service.py:154-180 | `_fallback_response` raises exactly when the parse does, and otherwise is the offline answer for the lower-cased query |
| LlmService.GetFinancialModelFromQuery | app/services/llm_service.py:118-152 | without an API key, or when the remote call or its decoding fails, the answer is exactly the fallback; otherwise the decoded reply |
| LlmService.FallbackIgnoresCase | app/services/llm_service.py:15 | a query and its lower-cased form get the same offline answer |
| LlmService.ThousandsExample | app/services/llm_service.py:21-22 | `to_number("200", "k")` is 200000 |
| LlmService.MillionsExample | app/services/llm_service.py:23-24 | `to_number("1.2", "m")` is 1200000 |
| LlmService.OnePointTwo | app/services/llm_service.py:18 | `float("1.2")` is 1.2 |
| LlmService.BareCommaExample | app/services/llm_service.py:17-20 | `to_number(",")` is None |
| LlmService.OnlyMonthsAndSales | app/services/llm_service.py:27-53 | a text where only the months and sales patterns match parses to just those two integers |
| LlmService.TestQueryMonths | app/tests/test_services.py:9 | in the service test's query the months pattern captures "6" |
| LlmService.TestQuerySales | app/tests/test_services.py:9 | in that query the sales pattern captures "3" |
| LlmService.TestQueryNoMarketing | app/tests/test_services.py:9 | in that query the marketing pattern matches nowhere |
| LlmService.TestQueryNoRate | app/tests/test_services.py:9 | in that query neither conversion pattern matches |
| LlmService.TestQueryParsed | app/tests/test_services.py:9 | the service test's query parses to six months and three sales people, nothing else |
| FinanceService.FirstNumberIn | app/services/finance_service.py:33-34 | `re.search(r"(\d+)", s)` finds nothing exactly when s has no digit |
| FinanceService.CoerceTimeHorizon | app/services/finance_service.py:27-36 | a number is truncated, a bool is 0 or 1, a string gives its first digit run or 11, anything else or a missing key gives 11 |
| FinanceService.NumberInText | app/services/finance_service.py:31-34 | a horizon string with digit-free text, then the digits of n, then a non-digit, coerces to n |
| FinanceService.WholeHorizonKept | app/services/finance_service.py:29-30 | a whole number of months survives the coercion |
| FinanceService.Resolve | app/services/finance_service.py:44-56 | one assumption is the engine key's value if present, else the alias key's, else the default |
| FinanceService.Normalise | app/services/finance_service.py:42-57 | the normalised assumptions have exactly the seven engine keys, each resolved through its alias and default |
| FinanceService.NormaliseIdempotent | app/services/finance_service.py:42-57 | normalising normalised assumptions changes nothing |
| FinanceService.NormaliseIgnoresOtherKeys | app/services/finance_service.py:42-57 | a key that is neither an engine key nor an alias has no effect on the result |
| FinanceService.DriverFrom | app/services/finance_service.py:60 | a dictionary entry validates as a `RevenueDriver`; any other entry fails |
| FinanceService.DriversFromItems | app/services/finance_service.py:60 | the drivers convert exactly when every entry does, one driver per entry, in order |
| FinanceService.ExtractDrivers | app/services/finance_service.py:60 | a list converts entry by entry; an empty string or dict gives no drivers, any other string or dict fails, null, numbers and bools cannot be iterated |
| FinanceService.MissingDriverFieldFails | app/services/finance_service.py:60 | a driver entry lacking `name`, `type` or `unit` makes the whole conversion fail |
| FinanceService.ModelFromResponse | app/services/finance_service.py:27-78 | a built model has the given id, the coerced horizon, the normalised assumptions, the converted drivers and the engine's projections for that horizon; a bad driver list fails |
| FinanceService.ModelFromResponseOk | app/services/finance_service.py:63-78 | when the answer and its assumptions are dictionaries, the drivers convert and the assumptions read, a model is built whose projections are the closed form for the coerced horizon |
| FinanceService.AvailableRevenueDrivers | app/services/finance_service.py:99-107 | exactly the drivers `number_of_sales_people` and `marketing_spend`, both of type "input", with units "#" and "$" |
| FinanceService.FallbackDriversAreAvailable | app/services/finance_service.py:99-107 | each driver of the offline answer is an advertised driver with the advertised type and unit |
| FinanceService.NormaliseFallbackParsed | app/services/finance_service.py:44-56 | the offline answer's head-count, spend and rate survive normalisation, the rate moving from `demo_rate` to `conversion_rate` |
| FinanceService.NormaliseFallbackFixed | app/services/finance_service.py:45-55 | the offline answer's fixed values normalise to growth 1, revenues 16667 and 5000, and 160 inquiries |
| FinanceService.FallbackAssumptions | app/services/finance_service.py:42-57 | all seven normalised assumptions of the offline answer, in terms of the parsed values and their defaults |
| FinanceService.DriverConverts | app/services/finance_service.py:60 | a driver as the offline answer writes it converts when its value is a number or null |
| FinanceService.FallbackDriversConvert | app/services/finance_service.py:60 | the offline answer's drivers always convert |
| FinanceService.FallbackInputs | app/services/finance_service.py:42-67 | the offline answer for a head-count s and no spend or rate feeds the engine s sales people growing by 1 and the default rates |
| FinanceService.FallbackForecast | app/services/finance_service.py:14-85 | offline, a query naming m > 0 months and s sales people and no spend or rate gives m months starting with s sales people |
| FinanceService.TestQueryForecast | app/tests/test_services.py:5-14 | with no API key the service test's query yields six months whose first has three sales people |
| FinanceService.FinanceService.constructor | app/services/finance_service.py:9-12 | the store starts empty |
| FinanceService.FinanceService.GetModelById | app/services/finance_service.py:87-97 | the stored model for a known id, None exactly for an unknown one |
| FinanceService.FinanceService.ProcessQuery | app/services/finance_service.py:14-85 | fails exactly when the answer or the model cannot be built; on success the store gains exactly the new model under the fresh id, every other entry unchanged, and the response repeats its drivers, projections and assumptions; on failure the store is unchanged |
| ExcelService.MonthLabel | app/services/excel_service.py:39 | the label of month i is "M" followed by the digits of i |
| ExcelService.HeaderRow | app/services/excel_service.py:39 | the header is "Metric", "Unit", then "M1" .. "Mn": n + 2 cells |
| ExcelService.MonthLabelsDistinct | app/services/excel_service.py:39 | two months with the same label are the same month |
| ExcelService.Average | app/services/excel_service.py:74 | revenue divided by the cumulative count when that is positive, 0 otherwise: no division by zero |
| ExcelService.Repeat | app/services/excel_service.py:78 | `s * k` has k times the length of s, and its character i is character `i % len(s)` of s |
| ExcelService.ModPastCopies | app/services/excel_service.py:78 | past q whole copies of a length-m string, offset j < m is position j of a copy |
| ExcelService.RepeatStep | app/services/excel_service.py:78 | appending one more copy of s keeps character i equal to character `i % len(s)` of s |
| ExcelService.DemoRateCell | app/services/excel_service.py:78 | a numeric rate prints as rate * 100 percent, a boolean as 100 or 0 percent, a string as itself repeated a hundred times then "%", a list as itself repeated a hundred times (its printing uninterpreted); it raises exactly for null and a dict, which cannot be multiplied |
| ExcelService.DataRows | app/services/excel_service.py:69-86 | exactly sixteen rows in the listed order with their metric names and units, each with one value per projection; it raises exactly when there is a month and the stored `demo_rate` cannot be printed |
| ExcelService.RowCell | app/services/excel_service.py:69-86 | value j of row i is its row kind's cell for projection j |
| ExcelService.SigningRowConstant | app/services/excel_service.py:71 | the signings row repeats the looked-up `large_customers_per_salesperson` (default 1.5) every month |
| ExcelService.CacRowConstant | app/services/excel_service.py:76 | the CAC row repeats the looked-up `cac` (default 1500) every month |
| ExcelService.InquiriesRowConstant | app/services/excel_service.py:77 | the inquiries row repeats the looked-up `sales_inquiries_per_month` (default 160) every month |
| ExcelService.DemoRateRowConstant | app/services/excel_service.py:78 | the demo-rate row repeats the printed `demo_rate` every month |
| ExcelService.PrintedRateIsDefault | app/services/excel_service.py:78 | without a `demo_rate` key the rows build and the rate row prints 45% |
| ExcelService.StoredModelsPrintDefaultRate | app/services/excel_service.py:78 | every model the service stores prints a 45% rate, whatever its `conversion_rate` |
| ExcelService.AverageOfScaled | app/services/excel_service.py:74 | dividing count * rate by a positive count gives the rate back |
| ExcelService.AverageLargeCell | app/services/excel_service.py:74 | row 4 holds each month's large-customer revenue divided by its cumulative large customers, or 0 |
| ExcelService.AverageSmallCell | app/services/excel_service.py:81 | row 11 holds each month's small/medium revenue divided by its cumulative small/medium customers, or 0 |
| ExcelService.LargeAverageAt | app/services/excel_service.py:74 | for the engine's projections the large average is the per-customer rate once there is a customer, else 0 |
| ExcelService.SmallAverageAt | app/services/excel_service.py:81 | for the engine's projections the small/medium average is the per-customer rate once there is a customer, else 0 |
| ExcelService.PlacedAt | app/services/excel_service.py:61-62 | writing values along a row from a column fills exactly columns col .. col + n - 1 of that row, value i in column col + i |
| ExcelService.PlacedSnoc | app/services/excel_service.py:61-62 | one more value writes one more cell, just after the others |
| ExcelService.PlacedAppend | app/services/excel_service.py:59-62 | writing two runs one after the other writes their concatenation |
| ExcelService.RowCells | app/services/excel_service.py:59-62 | a written row is its metric, its unit and its values: two more cells than values |
| ExcelService.TwoCells | app/services/excel_service.py:59-60 | writing columns 1 and 2 of a row places the two-cell run there |
| ExcelService.RowPlacement | app/services/excel_service.py:59-62 | metric, unit and then the values from column 3 place the whole row from column 1 |
| ExcelService.StackedAt | app/services/excel_service.py:88-89 | the rows written from row `start` down occupy exactly row start + i, columns 1 to its width, with row i's cells, and nothing else |
| ExcelService.StackedSnoc | app/services/excel_service.py:88-89 | one more row is written just below the others and changes no other cell |
| ExcelService.StackedStep | app/services/excel_service.py:88-89 | writing row i below the first i rows gives the first i + 1 rows |
| ExcelService.HeaderCell | app/services/excel_service.py:44-45 | row 1 holds header cell c in column c; no data row reaches it |
| ExcelService.SheetHeader | app/services/excel_service.py:44-45 | the finished sheet's row 1 is the header "Metric", "Unit", "M1" .. "Mn" |
| ExcelService.SheetLayout | app/services/excel_service.py:21-24 | the finished sheet fills exactly rows 1 to 17 and columns 1 to n + 2: the header in row 1, data row i in row i + 2 |
| ExcelService.MaxLength | app/services/excel_service.py:97-102 | the longest of the lengths (0 for none): no length exceeds it and one equals it |
| ExcelService.Worksheet.constructor | app/services/excel_service.py:16-17 | a new sheet has no cells |
| ExcelService.Worksheet.WriteCells | app/services/excel_service.py:61-62 | the cell-by-cell loop adds exactly the run's cells to the sheet |
| ExcelService.Worksheet.CreateHeaders | app/services/excel_service.py:35-48 | row 1 gets the header from column 1, and nothing else changes |
| ExcelService.Worksheet.WriteRow | app/services/excel_service.py:57-63 | metric in column 1, unit in column 2, value j in column j + 3, and the row counter advances by exactly one |
| ExcelService.Worksheet.WriteRows | app/services/excel_service.py:88-89 | the loop writes the rows one below the other from row 2 |
| ExcelService.Worksheet.PopulateData | app/services/excel_service.py:50-89 | raises exactly when the data rows cannot be built, then writing nothing; otherwise the sixteen rows fill rows 2 to 17 |
| ExcelService.ColumnWidth | app/services/excel_service.py:96-106 | the width is the longest printed length plus 2, at most 50 |
| ExcelService.GenerateSheet | app/services/excel_service.py:12-33 | a new sheet gets the header and then the data: exactly `Sheet`, or the error of building the rows |

## Left out

- The Gemini call (app/services/llm_service.py:134-148) is a foreign network client: its decoded answer is the parameter `reply` of `ProcessQuery` and `GetFinancialModelFromQuery` (None when the call or the decoding raises), and whether `GOOGLE_API_KEY` is set is the parameter `apiKeySet`.
- `uuid.uuid4()` (app/services/finance_service.py:70) is the parameter `modelId` of `ProcessQuery`, required to be fresh in the store; `FinancialModel`'s id is likewise a constructor parameter.
- FormulaEngine.IntAssumption: a fractional head-count or growth rate is an error, as pydantic's `int` field rejects the record it lands in; this over-approximates the one case where it would not matter (a fractional growth rate with a one-month horizon).
- FormulaEngine.RealAssumption: a string amount or rate is an error. In Python a string revenue rate is first repeated by the integer customer count and a numeric string marketing spend is coerced by pydantic; these string paths are not modelled.
- FinanceModels.OptionalNumber: a numeric string driver value such as "3" is an error, although pydantic would coerce it to a float.
- Non-finite numbers: `json.loads` accepts `NaN` and `Infinity` in the reply, and `int()` of such a horizon raises at app/services/finance_service.py:30; a `JNum` holds a finite rational, so that exception is not modelled.
- Float overflow: Python raises `OverflowError` where the model returns a value, and this is not modelled. Examples are `current_sales_people * 1.5` for a head-count beyond the float range (app/utils/formula_engine.py:50, and the products at :60), and `int(n)` after `float()` of a marketing amount of more than 308 digits gives `inf` (app/services/llm_service.py:18-25). The model has no float range: `ReadInputs`, `Projections` and `ToNumber` yield a value there.
- Float arithmetic: all numbers are exact rationals, so float rounding in `sales_inquiries * conversion_rate`, in the revenues, in `float()` of long decimals and in `n *= 1_000` and `n *= 1_000_000` before `int(n)` is not modelled.
- ExcelService.MetricCell: the millions row keeps the total as `RoundedMillions(total)`; `round(x / 1000000, 2)` is left uninterpreted.
- ExcelService.ColumnWidth: `len(str(cell.value))` is not modelled; the printed lengths of a column's cells are its input.
- ExcelService.DemoRateCell: the printed text of a number or a list is not modelled; the cell holds the exact value times a hundred, not Python's float printing (`45.0%`), or the repeated list rather than its `repr` followed by "%".
- openpyxl is left out: workbook creation, fonts, fills, alignment, the sheet title and `wb.save` to bytes. Also left out is openpyxl's refusal of list or dictionary cell values (the signing, CAC and inquiries rows accept any stored value here).
- Lower-casing, `\s` and `\d` follow ASCII; Unicode case mapping and Unicode digits and spaces are not modelled.
- `business_units` and `created_at` of `FinancialModel` are not modelled; no modelled path reads them.
- The `revenue_drivers` argument of the engine is unused by the source and is dropped.
- app/main.py (routing, CORS, static files, temporary files, `os.system`), app/utils/knowledge_base.py, app/config/settings.py and app/models/response_models.py are not part of this model; `QueryResponse` reuses the response's field list.
- The browser presentation layer (tables, charts, tabs, request handling) is not part of this model; its source is not among the repository files modelled here.
