/** The `FinancialModel` object of app/models/finance_models.py, whose projections are recomputed in place. */
module FinancialModelObject {
  import opened Wrappers
  import opened JsonValue
  import opened FinanceModels
  import opened FormulaEngine

  class FinancialModel {
    var modelId: string
    var query: string
    var revenueDrivers: seq<RevenueDriver>
    var monthlyProjections: seq<MonthlyProjection>
    var assumptions: map<string, Json>

    /** `FinancialModel(model_id=..., query=...)`; the id is supplied instead of drawn from uuid4. */
    constructor(modelId: string, query: string)
      ensures this.modelId == modelId && this.query == query
      ensures revenueDrivers == [] && monthlyProjections == [] && assumptions == map[]
    {
      this.modelId := modelId;
      this.query := query;
      revenueDrivers := [];
      monthlyProjections := [];
      assumptions := map[];
    }

    /** `calculate_projections(months)`: the engine's output replaces the projections; when the
        engine raises, nothing changes. No other field is touched. */
    method CalculateProjections(months: int := 11) returns (r: Result<()>)
      modifies this`monthlyProjections
      ensures r.Err? <==> EngineResult(months, assumptions).Err?
      ensures r.Ok? ==> monthlyProjections == EngineResult(months, assumptions).value
      ensures r.Ok? ==> |monthlyProjections| == EffectiveHorizon(months)
      ensures r.Err? ==> monthlyProjections == old(monthlyProjections)
    {
      var projections := CalculateFromAssumptions(months, assumptions);
      if projections.Err? {
        return Err(projections.error);
      }
      monthlyProjections := projections.value;
      return Ok(());
    }
  }
}
