/**
 * The statement figures both input mappers read for one fiscal year, and
 * the Year-0 balance sheet and flows they hand to the plug forecasters
 * (company_forecast/input_mapper.py and pg_forecast/input_mapper.py).
 * Looking a figure up by line name and date is done by a `get_value`
 * helper outside the model; here every looked-up figure is a field.
 */
module StatementFigures {
  import opened Wrappers
  import opened PlugForecaster

  /**
   * The figures of one fiscal year: the balance-sheet lines under their
   * Year-0 names, and the income-statement and cash-flow lines the
   * mappers read. Cash-flow outflows keep the sign the statements give
   * them (capital expenditure, dividends and repurchases are negative).
   */
  datatype YearFigures = YearFigures(
    bs: OpeningSheet,
    revenue: real, cogs: real, opex: real, grossProfit: real, ebit: real,
    depreciation: real, ebitda: real, interestExpense: real, interestIncome: real,
    pretaxIncome: real, tax: real, netIncome: real,
    operatingCf: real, capex: real, freeCf: real, dividends: real, repurchase: real)

  /**
   * `get_initial_balance_sheet`: the balance-sheet lines of Year 0, with
   * accumulated depreciation stored as an absolute amount.
   */
  function InitialBalanceSheet(f: YearFigures): (s: OpeningSheet)
    ensures s.accumulatedDepreciation >= 0.0
    ensures s.accumulatedDepreciation == f.bs.accumulatedDepreciation ||
            s.accumulatedDepreciation == -f.bs.accumulatedDepreciation
    ensures s.(accumulatedDepreciation := f.bs.accumulatedDepreciation) == f.bs
  {
    f.bs.(accumulatedDepreciation := Abs(f.bs.accumulatedDepreciation))
  }

  /**
   * The `year_0_*` entries of the inputs dictionary: every flow is present,
   * and capital expenditure and dividends are stored as absolute amounts.
   */
  function OpeningFlowsOf(f: YearFigures): (r: OpeningFlows)
    ensures r.capex.Some? && r.capex.value >= 0.0 && (r.capex.value == f.capex || r.capex.value == -f.capex)
    ensures r.dividends.Some? && r.dividends.value >= 0.0 &&
            (r.dividends.value == f.dividends || r.dividends.value == -f.dividends)
    ensures r.revenue == Some(f.revenue) && r.cogs == Some(f.cogs) && r.netIncome == Some(f.netIncome)
  {
    OpeningFlows(
      Some(f.revenue), Some(f.cogs), Some(f.grossProfit), Some(f.opex), Some(f.ebit),
      Some(f.depreciation), Some(f.ebitda), Some(f.interestExpense), Some(f.interestIncome),
      Some(f.pretaxIncome), Some(f.tax), Some(f.netIncome),
      Some(f.operatingCf), Some(Abs(f.capex)), Some(f.freeCf), Some(Abs(f.dividends)))
  }

  /**
   * Whatever sign the statements give capital expenditure and dividends,
   * the forecasters' Year 0 stores them as outflows of the same size.
   */
  lemma OpeningOutflowsSigned(f: YearFigures, p: PlugInputs)
    requires p.flows == OpeningFlowsOf(f)
    ensures OpeningBooks(p).capex[0] == -Abs(f.capex) <= 0.0
    ensures OpeningBooks(p).dividends[0] == -Abs(f.dividends) <= 0.0
  {
    OpeningBooksFit(p);
  }
}
