/**
 * The Procter & Gamble input mapper (pg_forecast/input_mapper.py): Year 0
 * is fiscal 2023, growth rates compare 2023 with 2022, every ratio is
 * taken from 2023 alone with a default for a zero denominator, and the
 * policy inputs average 2022 and 2023.
 */
module PgInputMapper {
  import opened Wrappers
  import opened RealArith
  import opened PlugForecaster
  import opened StatementFigures

  /** `(cur - prev) / prev if prev != 0 else 0`. */
  function PairGrowth(prev: real, cur: real): (g: real)
    ensures prev == 0.0 ==> g == 0.0
  {
    if prev != 0.0 then (cur - prev) / prev else 0.0
  }

  /** Growing the earlier value by the rate gives back the later one, whenever the rate is defined. */
  lemma PairGrowthRoundTrip(prev: real, cur: real)
    requires prev != 0.0
    ensures Times(prev, 1.0 + PairGrowth(prev, cur)) == cur
  {
  }

  /** `num / den if den != 0 else default`. */
  function GuardedRatio(num: real, den: real, default: real): (r: real)
    ensures den == 0.0 ==> r == default
  {
    if den != 0.0 then num / den else default
  }

  /** A ratio with a non-zero denominator scales back to its numerator. */
  lemma GuardedRatioRoundTrip(num: real, den: real, default: real)
    requires den != 0.0
    ensures Times(GuardedRatio(num, den, default), den) == num
  {
  }

  /** The eight ratios of `calculate_financial_ratios`, all from Year 0 (2023). */
  datatype PgRatios = PgRatios(
    arToRevenue: real, inventoryToCogs: real, apToCogs: real, depreciationRate: real,
    capexToRevenue: real, taxRate: real, dividendPayout: real, interestRate: real)

  function PgFinancialRatios(y0: YearFigures): (r: PgRatios)
    ensures y0.revenue == 0.0 ==> r.arToRevenue == 0.05 && r.capexToRevenue == 0.04
    ensures y0.cogs == 0.0 ==> r.inventoryToCogs == 0.1 && r.apToCogs == 0.1
    ensures y0.bs.grossPpe == 0.0 ==> r.depreciationRate == 0.05
    ensures y0.pretaxIncome == 0.0 ==> r.taxRate == 0.21
    ensures y0.netIncome == 0.0 ==> r.dividendPayout == 0.6
    ensures y0.bs.totalDebt == 0.0 ==> r.interestRate == 0.03
    ensures r.capexToRevenue >= 0.0 || y0.revenue < 0.0
  {
    var capexRatio := GuardedRatio(Abs(y0.capex), y0.revenue, 0.04);
    assert y0.revenue > 0.0 ==> capexRatio >= 0.0 by {
      if y0.revenue > 0.0 {
        DivNonNeg(Abs(y0.capex), y0.revenue);
      }
    }
    PgRatios(
      GuardedRatio(y0.bs.accountsReceivable, y0.revenue, 0.05),
      GuardedRatio(y0.bs.inventory, y0.cogs, 0.1),
      GuardedRatio(y0.bs.accountsPayable, y0.cogs, 0.1),
      GuardedRatio(y0.depreciation, y0.bs.grossPpe, 0.05),
      capexRatio,
      GuardedRatio(y0.tax, y0.pretaxIncome, 0.21),
      GuardedRatio(Abs(y0.dividends), y0.netIncome, 0.6),
      GuardedRatio(y0.interestExpense, y0.bs.totalDebt, 0.03))
  }

  lemma DivNonNeg(a: real, b: real)
    requires a >= 0.0 && b > 0.0
    ensures a / b >= 0.0
  {
    MulMonotone(a / b, b);
  }

  /**
   * The unguarded divisions of `get_forecast_inputs` (debt over equity and
   * long-term over total debt, for 2022 and 2023) raise unless all four
   * denominators are non-zero.
   */
  predicate PolicyDivisionsDefined(y22: YearFigures, y23: YearFigures) {
    y22.bs.stockholdersEquity != 0.0 && y23.bs.stockholdersEquity != 0.0 &&
    y22.bs.totalDebt != 0.0 && y23.bs.totalDebt != 0.0
  }

  /**
   * `get_forecast_inputs` from the 2022 and 2023 figures: a two-year
   * horizon, or a `ZeroDivisionError` from the policy averages.
   */
  function PgForecastInputs(y22: YearFigures, y23: YearFigures): (r: Result<PlugInputs>)
    ensures r.Err? <==> !PolicyDivisionsDefined(y22, y23)
    ensures r.Err? ==> r.error == ZeroDivisionError
    ensures r.Ok? ==>
      var p := r.value;
      p.forecastYears == 2 &&
      p.nominalRevenueGrowth == [PairGrowth(y22.revenue, y23.revenue), PairGrowth(y22.revenue, y23.revenue)] &&
      p.nominalCogsGrowth == [PairGrowth(y22.cogs, y23.cogs), PairGrowth(y22.cogs, y23.cogs)] &&
      p.nominalOpexGrowth == [PairGrowth(y22.opex, y23.opex), PairGrowth(y22.opex, y23.opex)] &&
      p.sheet == InitialBalanceSheet(y23) && p.flows == OpeningFlowsOf(y23) &&
      p.minCashBalance == (y22.bs.cash + y23.bs.cash) / 2.0 &&
      p.repurchase == FixedAmount(Some((Abs(y22.repurchase) + Abs(y23.repurchase)) / 2.0))
    // Day counts are the 2023 ratios over a 365-day year; the other rates are the 2023 ratios.
    ensures r.Ok? ==>
      var p, q := r.value, PgFinancialRatios(y23);
      p.arDays == Times(q.arToRevenue, 365.0) &&
      p.inventoryDays == Times(q.inventoryToCogs, 365.0) &&
      p.apDays == Times(q.apToCogs, 365.0) &&
      p.depreciationRate == q.depreciationRate && p.capexToRevenue == q.capexToRevenue &&
      p.interestRateSt == q.interestRate && p.interestRateLt == q.interestRate &&
      p.taxRate == q.taxRate && p.dividendPayoutRatio == q.dividendPayout
    // The debt policy is the two-year average of debt to equity and of long-term to total debt.
    ensures r.Ok? ==>
      var p := r.value;
      p.maxDebtToEquity == (y22.bs.totalDebt / y22.bs.stockholdersEquity + y23.bs.totalDebt / y23.bs.stockholdersEquity) / 2.0 &&
      p.targetDebtStructure == (y22.bs.longTermDebt / y22.bs.totalDebt + y23.bs.longTermDebt / y23.bs.totalDebt) / 2.0
  {
    if !PolicyDivisionsDefined(y22, y23) then Err(ZeroDivisionError)
    else
      var ratios := PgFinancialRatios(y23);
      var revenueGrowth := PairGrowth(y22.revenue, y23.revenue);
      var cogsGrowth := PairGrowth(y22.cogs, y23.cogs);
      var opexGrowth := PairGrowth(y22.opex, y23.opex);
      Ok(PlugInputs(
        2, InitialBalanceSheet(y23), OpeningFlowsOf(y23),
        [revenueGrowth, revenueGrowth], [cogsGrowth, cogsGrowth], [opexGrowth, opexGrowth],
        Times(ratios.arToRevenue, 365.0), Times(ratios.inventoryToCogs, 365.0),
        Times(ratios.apToCogs, 365.0),
        ratios.depreciationRate, ratios.capexToRevenue,
        ratios.interestRate, ratios.interestRate, ratios.taxRate, ratios.dividendPayout,
        FixedAmount(Some((Abs(y22.repurchase) + Abs(y23.repurchase)) / 2.0)),
        (y22.bs.cash + y23.bs.cash) / 2.0,
        (y22.bs.totalDebt / y22.bs.stockholdersEquity + y23.bs.totalDebt / y23.bs.stockholdersEquity) / 2.0,
        (y22.bs.longTermDebt / y22.bs.totalDebt + y23.bs.longTermDebt / y23.bs.totalDebt) / 2.0))
  }

  /**
   * Mapped inputs fit the P&G forecaster's two-year horizon, and its
   * first forecast year grows 2023 revenue at the 2022-to-2023 rate.
   */
  lemma PgInputsFit(y22: YearFigures, y23: YearFigures)
    requires PolicyDivisionsDefined(y22, y23)
    ensures PgForecastInputs(y22, y23).Ok?
    ensures var p := PgForecastInputs(y22, y23).value;
      Fits(OpeningBooks(p), p) && OpeningYear(OpeningBooks(p), p) &&
      OpeningBooks(p).revenue[0] == y23.revenue
  {
    OpeningBooksFit(PgForecastInputs(y22, y23).value);
  }

  /**
   * The minimum cash balance lies between the two year-end cash balances,
   * and the fixed repurchase amount is never negative.
   */
  lemma PgPolicyAverages(y22: YearFigures, y23: YearFigures)
    requires PolicyDivisionsDefined(y22, y23)
    ensures var p := PgForecastInputs(y22, y23).value;
      (y22.bs.cash <= p.minCashBalance <= y23.bs.cash || y23.bs.cash <= p.minCashBalance <= y22.bs.cash) &&
      p.repurchase.amount.value >= 0.0
  {
  }

  /** Steady 2022-to-2023 growth is recovered exactly as the forecast rate. */
  lemma PgSteadyGrowth(y22: YearFigures, y23: YearFigures, g: real)
    requires y22.revenue != 0.0 && y23.revenue == Times(y22.revenue, 1.0 + g)
    ensures PairGrowth(y22.revenue, y23.revenue) == g
  {
  }
}
