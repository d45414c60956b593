/**
 * InputCalculator of the company engine: the Year-0 figures read from the
 * latest statements and every forecast driver chosen from history. Each
 * driver decision (override, then a clipped historical value, then a
 * Year-0 ratio, then a default) is a pure function; the calculator object
 * writes the chosen values into its inputs record step by step.
 */
module CompanyInputCalculator {
  import opened Wrappers
  import opened CompanyDataLoader
  import CompanyInputs
  import RealArith

  /** The forecast and history lengths of `ForecastConfig`. */
  datatype ForecastSettings = ForecastSettings(nForecastYears: nat, nInputYears: nat)

  /** The defaults of `ModelAssumptions` that the calculator falls back to. */
  datatype Assumptions = Assumptions(
    defaultRevenueGrowth: real, defaultInflationRate: real,
    defaultArPct: real, defaultInventoryPct: real, defaultApPct: real, minCashPctRevenue: real,
    defaultTaxRate: real, defaultDepreciationYears: real, defaultPayoutRatio: real,
    pctFinancingWithDebt: real, stLoanYears: real, ltLoanYears: real)

  /** The `CompanyConfig` fields the calculator reads: bounds, defaults, policy and overrides. */
  datatype CompanyConfig = CompanyConfig(
    minRevenueGrowth: real, maxRevenueGrowth: real, defaultRevenueGrowth: real,
    minTaxRate: real, maxTaxRate: real, defaultTaxRate: real,
    minDepreciationYears: real, maxDepreciationYears: real, defaultDepreciationYears: real,
    defaultPayoutRatio: real,
    pctFinancingWithDebt: real, stLoanYears: real, ltLoanYears: real,
    revenueGrowthOverride: Option<real>, taxRateOverride: Option<real>, payoutRatioOverride: Option<real>,
    cogsPctOverride: Option<real>, sgaPctOverride: Option<real>, capexPctOverride: Option<real>,
    costOfDebtOverride: Option<real>)

  // ---------------------------------------------------------------------
  // Driver decisions
  // ---------------------------------------------------------------------

  /** `max(lo, min(hi, x))`; with inverted bounds the lower one wins. */
  function Bound(x: real, lo: real, hi: real): (r: real)
    ensures r >= lo
    ensures lo <= hi ==> r <= hi
    ensures lo <= x <= hi ==> r == x
    ensures x < lo ==> r == lo
  {
    var capped := if hi < x then hi else x;
    if lo > capped then lo else capped
  }

  /** Revenue growth bounds: the company's, else -10% to 15%. */
  function GrowthBounds(cfg: Option<CompanyConfig>): (real, real) {
    if cfg.Some? then (cfg.value.minRevenueGrowth, cfg.value.maxRevenueGrowth) else (-0.10, 0.15)
  }

  function DefaultGrowth(cfg: Option<CompanyConfig>, a: Assumptions): real {
    if cfg.Some? then cfg.value.defaultRevenueGrowth else a.defaultRevenueGrowth
  }

  /** `revenue_growth_base`: the override, else the clipped historical growth, else the default. */
  function RevenueGrowthBase(cfg: Option<CompanyConfig>, a: Assumptions, historical: Option<real>): (r: real)
    ensures cfg.Some? && cfg.value.revenueGrowthOverride.Some? ==> r == cfg.value.revenueGrowthOverride.value
    ensures !(cfg.Some? && cfg.value.revenueGrowthOverride.Some?) && historical.None? ==> r == DefaultGrowth(cfg, a)
    ensures (!(cfg.Some? && cfg.value.revenueGrowthOverride.Some?) && historical.Some?
      && GrowthBounds(cfg).0 <= GrowthBounds(cfg).1) ==> GrowthBounds(cfg).0 <= r <= GrowthBounds(cfg).1
  {
    if cfg.Some? && cfg.value.revenueGrowthOverride.Some? then cfg.value.revenueGrowthOverride.value
    else if historical.Some? then Bound(historical.value, GrowthBounds(cfg).0, GrowthBounds(cfg).1)
    else DefaultGrowth(cfg, a)
  }

  /** The yearly growth list: the base moderated by 5% of itself per year. */
  function GrowthSchedule(base: real, n: nat): (r: seq<real>)
    ensures |r| == n
  {
    seq(n, i => base * (1.0 - 0.05 * (i as real)))
  }

  /** Over the first 21 years a non-negative base moderates toward zero without changing sign. */
  lemma GrowthScheduleDecays(base: real, n: nat)
    requires base >= 0.0 && n <= 21
    ensures forall i :: 0 <= i < n ==> 0.0 <= GrowthSchedule(base, n)[i] <= base
    ensures forall i :: 0 <= i < n - 1 ==> GrowthSchedule(base, n)[i + 1] <= GrowthSchedule(base, n)[i]
  {
    var g := GrowthSchedule(base, n);
    forall i | 0 <= i < n ensures 0.0 <= g[i] <= base {
      RealArith.MulNonNeg(base, 1.0 - 0.05 * (i as real));
      RealArith.MulAtMostOne(base, 1.0 - 0.05 * (i as real));
    }
    forall i | 0 <= i < n - 1 ensures g[i + 1] <= g[i] {
      assert g[i] - g[i + 1] == base * 0.05;
    }
  }

  /** The loop of `_calculate_growth_assumptions` that builds the growth list. */
  method GrowthScheduleLoop(base: real, n: nat) returns (growth: seq<real>)
    ensures growth == GrowthSchedule(base, n)
  {
    growth := [];
    for i := 0 to n
      invariant |growth| == i
      invariant forall k :: 0 <= k < i ==> growth[k] == base * (1.0 - 0.05 * (k as real))
    {
      growth := growth + [base * (1.0 - 0.05 * (i as real))];
    }
    assert forall k :: 0 <= k < n ==> growth[k] == GrowthSchedule(base, n)[k];
  }

  /**
   * A cost share of revenue (`cogs_pct_revenue`, `sga_pct_revenue`): the
   * override, else the historical average, else the Year-0 share when revenue
   * is positive and the cost non-zero, else the default.
   */
  function CostShare(override: Option<real>, historical: Option<real>, cost: real, revenue: real, default: real): (r: real)
    ensures override.Some? ==> r == override.value
    ensures override.None? && historical.Some? ==> r == historical.value
    ensures override.None? && historical.None? && revenue > 0.0 && cost != 0.0 ==> r * revenue == cost
    ensures override.None? && historical.None? && !(revenue > 0.0 && cost != 0.0) ==> r == default
  {
    if override.Some? then override.value
    else if historical.Some? then historical.value
    else if revenue > 0.0 && cost != 0.0 then cost / revenue
    else default
  }

  /**
   * A working-capital or minimum-cash ratio: a positive historical average,
   * else the Year-0 ratio when both parts are positive, else the default.
   */
  function PositiveRatio(historical: Option<real>, part: real, base: real, default: real): (r: real)
    ensures historical.Some? && historical.value > 0.0 ==> r == historical.value
    ensures !(historical.Some? && historical.value > 0.0) && base > 0.0 && part > 0.0 ==> r * base == part
    ensures !(historical.Some? && historical.value > 0.0) && !(base > 0.0 && part > 0.0) ==> r == default
    ensures default > 0.0 ==> r > 0.0
  {
    if historical.Some? && historical.value > 0.0 then historical.value
    else if base > 0.0 && part > 0.0 then part / base
    else default
  }

  function TaxBounds(cfg: Option<CompanyConfig>, a: Assumptions): (real, real, real) {
    if cfg.Some? then (cfg.value.minTaxRate, cfg.value.maxTaxRate, cfg.value.defaultTaxRate) else (0.10, 0.35, a.defaultTaxRate)
  }

  /**
   * `tax_rate`: the override; else a historical average strictly between 0
   * and 1, clipped; else the Year-0 effective rate, clipped; else the default.
   */
  function TaxRate(cfg: Option<CompanyConfig>, a: Assumptions, historical: Option<real>, pretax: real, provision: real): (r: real)
    ensures cfg.Some? && cfg.value.taxRateOverride.Some? ==> r == cfg.value.taxRateOverride.value
    ensures !(cfg.Some? && cfg.value.taxRateOverride.Some?) && TaxBounds(cfg, a).0 <= TaxBounds(cfg, a).1 ==>
      TaxBounds(cfg, a).0 <= r <= TaxBounds(cfg, a).1 || r == TaxBounds(cfg, a).2
    ensures (!(cfg.Some? && cfg.value.taxRateOverride.Some?) && historical.Some? && 0.0 < historical.value < 1.0
      && TaxBounds(cfg, a).0 <= historical.value <= TaxBounds(cfg, a).1) ==> r == historical.value
  {
    var (lo, hi, default) := TaxBounds(cfg, a);
    if cfg.Some? && cfg.value.taxRateOverride.Some? then cfg.value.taxRateOverride.value
    else if historical.Some? && 0.0 < historical.value < 1.0 then Bound(historical.value, lo, hi)
    else if pretax > 0.0 && provision > 0.0 then Bound(provision / pretax, lo, hi)
    else default
  }

  function DepreciationBounds(cfg: Option<CompanyConfig>, a: Assumptions): (real, real, real) {
    if cfg.Some? then (cfg.value.minDepreciationYears, cfg.value.maxDepreciationYears, cfg.value.defaultDepreciationYears)
    else (5.0, 20.0, a.defaultDepreciationYears)
  }

  /** `depreciation_years`: gross PPE over depreciation (or the default), clipped, when depreciation is positive. */
  function DepreciationYears(cfg: Option<CompanyConfig>, a: Assumptions, grossPpe: real, depreciation: real): (r: real)
    ensures depreciation <= 0.0 ==> r == DepreciationBounds(cfg, a).2
    ensures depreciation > 0.0 && DepreciationBounds(cfg, a).0 <= DepreciationBounds(cfg, a).1 ==>
      DepreciationBounds(cfg, a).0 <= r <= DepreciationBounds(cfg, a).1
  {
    var (lo, hi, default) := DepreciationBounds(cfg, a);
    if depreciation > 0.0 then Bound(if grossPpe > 0.0 then grossPpe / depreciation else default, lo, hi)
    else default
  }

  /** `depreciation_rate`: depreciation over net PPE, else one over the useful life; zero years divide by zero. */
  function DepreciationRate(netPpe: real, depreciation: real, years: real): (r: Result<real>)
    ensures r.Err? <==> netPpe <= 0.0 && years == 0.0
    ensures r.Err? ==> r.error == ZeroDivisionError
    ensures r.Ok? && netPpe > 0.0 ==> r.value * netPpe == depreciation
    ensures r.Ok? && netPpe <= 0.0 ==> r.value * years == 1.0
  {
    if netPpe > 0.0 then Ok(depreciation / netPpe)
    else if years == 0.0 then Err(ZeroDivisionError)
    else Ok(1.0 / years)
  }

  /** `cost_of_debt`: the override, else interest over debt clipped to [3%, 15%], else 5%. */
  function CostOfDebt(override: Option<real>, interestExpense: real, totalDebt: real): (r: real)
    ensures override.Some? ==> r == override.value
    ensures override.None? ==> 0.03 <= r <= 0.15
    ensures override.None? && !(totalDebt > 0.0 && interestExpense > 0.0) ==> r == 0.05
  {
    if override.Some? then override.value
    else if totalDebt > 0.0 && interestExpense > 0.0 then Bound(interestExpense / totalDebt, 0.03, 0.15)
    else 0.05
  }

  /** `return_st_investment`: interest income over cash clipped to [1%, 8%], else one point below the cost of debt, at least 1%. */
  function ReturnStInvestment(interestIncome: real, cash: real, costOfDebt: real): (r: real)
    ensures r >= 0.01
    ensures cash > 0.0 && interestIncome > 0.0 ==> r <= 0.08
    ensures !(cash > 0.0 && interestIncome > 0.0) ==> r == if costOfDebt - 0.01 > 0.01 then costOfDebt - 0.01 else 0.01
  {
    if cash > 0.0 && interestIncome > 0.0 then Bound(interestIncome / cash, 0.01, 0.08)
    else if 0.01 < costOfDebt - 0.01 then costOfDebt - 0.01 else 0.01
  }

  function DefaultPayout(cfg: Option<CompanyConfig>, a: Assumptions): real {
    if cfg.Some? then cfg.value.defaultPayoutRatio else a.defaultPayoutRatio
  }

  /** `payout_ratio`: the override, else |historical| clipped to [0, 1], else the Year-0 ratio clipped, else the default. */
  function PayoutRatio(cfg: Option<CompanyConfig>, a: Assumptions, historical: Option<real>, netIncome: real, dividends: real): (r: real)
    ensures cfg.Some? && cfg.value.payoutRatioOverride.Some? ==> r == cfg.value.payoutRatioOverride.value
    ensures !(cfg.Some? && cfg.value.payoutRatioOverride.Some?) ==> 0.0 <= r <= 1.0 || r == DefaultPayout(cfg, a)
    ensures !(cfg.Some? && cfg.value.payoutRatioOverride.Some?) && historical.Some? ==> 0.0 <= r <= 1.0
  {
    if cfg.Some? && cfg.value.payoutRatioOverride.Some? then cfg.value.payoutRatioOverride.value
    else if historical.Some? then Bound(Abs(historical.value), 0.0, 1.0)
    else if netIncome > 0.0 && dividends > 0.0 then Bound(dividends / netIncome, 0.0, 1.0)
    else DefaultPayout(cfg, a)
  }

  /** `capex_pct_revenue`: the override, else |historical|, else the Year-0 share, else 4%. */
  function CapexShare(override: Option<real>, historical: Option<real>, capex: real, revenue: real): (r: real)
    ensures override.Some? ==> r == override.value
    ensures override.None? ==> r >= 0.0
    ensures override.None? && historical.Some? ==> r == Abs(historical.value)
  {
    if override.Some? then override.value
    else if historical.Some? then Abs(historical.value)
    else if revenue > 0.0 && capex > 0.0 then capex / revenue
    else 0.04
  }

  /** `capex_to_depreciation`: capex over depreciation when both are positive, else 1.2. */
  function CapexToDepreciation(depreciation: real, capex: real): (r: real)
    ensures r > 0.0
  {
    if depreciation > 0.0 && capex > 0.0 then capex / depreciation else 1.2
  }

  // ---------------------------------------------------------------------
  // Year-0 figures
  // ---------------------------------------------------------------------

  datatype Year0Values = Year0Values(
    revenue: real, cogs: real, grossProfit: real, operatingExpense: real, sga: real,
    operatingIncome: real, ebit: real, interestExpense: real, pretaxIncome: real,
    taxProvision: real, netIncome: real, depreciation: real,
    cash: real, accountsReceivable: real, inventory: real, currentAssets: real,
    netPpe: real, grossPpe: real, accumulatedDepreciation: real, goodwill: real,
    intangibleAssets: real, totalAssets: real,
    accountsPayable: real, currentLiabilities: real, shortTermDebt: real, longTermDebt: real,
    totalDebt: real, totalLiabilities: real, totalEquity: real, retainedEarnings: real,
    minorityInterest: real,
    operatingCashFlow: real, capex: real, dividendsPaid: real, stockRepurchase: real)

  /** `get_value(statement, field) or 0` at the latest year. */
  function Latest(data: Loader, statement: string, field: string): real
    reads data
  {
    OrElse(data.GetValue(statement, field, None), 0.0)
  }

  /** `_calculate_year_0_values`: the latest year's figures, with the source's fallbacks and signs. */
  function Year0Of(data: Loader): (v: Year0Values)
    reads data
    ensures v.ebit == OrElse(data.GetValue("income", "EBIT", None), v.operatingIncome)
    ensures v.cash == OrElse(data.GetValue("balance", "Cash Cash Equivalents And Short Term Investments", None),
                             Latest(data, "balance", "Cash And Cash Equivalents"))
    ensures v.totalDebt == OrElse(data.GetValue("balance", "Total Debt", None), v.shortTermDebt + v.longTermDebt)
    ensures v.accumulatedDepreciation >= 0.0 && v.capex >= 0.0 && v.dividendsPaid >= 0.0 && v.stockRepurchase >= 0.0
  {
    var operatingIncome := Latest(data, "income", "Operating Income");
    var shortTermDebt := Latest(data, "balance", "Current Debt");
    var longTermDebt := Latest(data, "balance", "Long Term Debt");
    Year0Values(
      Latest(data, "income", "Total Revenue"),
      Latest(data, "income", "Cost Of Revenue"),
      Latest(data, "income", "Gross Profit"),
      Latest(data, "income", "Operating Expense"),
      Latest(data, "income", "Selling General And Administration"),
      operatingIncome,
      OrElse(data.GetValue("income", "EBIT", None), operatingIncome),
      Latest(data, "income", "Interest Expense"),
      Latest(data, "income", "Pretax Income"),
      Latest(data, "income", "Tax Provision"),
      Latest(data, "income", "Net Income"),
      Latest(data, "income", "Reconciled Depreciation"),
      OrElse(data.GetValue("balance", "Cash Cash Equivalents And Short Term Investments", None),
             Latest(data, "balance", "Cash And Cash Equivalents")),
      Latest(data, "balance", "Accounts Receivable"),
      Latest(data, "balance", "Inventory"),
      Latest(data, "balance", "Current Assets"),
      Latest(data, "balance", "Net PPE"),
      Latest(data, "balance", "Gross PPE"),
      Abs(Latest(data, "balance", "Accumulated Depreciation")),
      Latest(data, "balance", "Goodwill"),
      Latest(data, "balance", "Other Intangible Assets"),
      Latest(data, "balance", "Total Assets"),
      Latest(data, "balance", "Accounts Payable"),
      Latest(data, "balance", "Current Liabilities"),
      shortTermDebt,
      longTermDebt,
      OrElse(data.GetValue("balance", "Total Debt", None), shortTermDebt + longTermDebt),
      Latest(data, "balance", "Total Liabilities Net Minority Interest"),
      Latest(data, "balance", "Stockholders Equity"),
      Latest(data, "balance", "Retained Earnings"),
      Latest(data, "balance", "Minority Interest"),
      Latest(data, "cash", "Operating Cash Flow"),
      Abs(OrElse(data.GetValue("cash", "Capital Expenditure", None), Latest(data, "cash", "Capital Expenditure Reported"))),
      Abs(Latest(data, "cash", "Cash Dividends Paid")),
      Abs(Latest(data, "cash", "Common Stock Payments")))
  }

  // ---------------------------------------------------------------------
  // The inputs dictionary
  // ---------------------------------------------------------------------

  /** The keys of `self.inputs`; a key not yet written is `None`. */
  datatype Calculated = Calculated(
    year0: Option<Year0Values>,
    revenueGrowthBase: Option<real>, revenueGrowth: Option<seq<real>>, inflationRate: Option<seq<real>>,
    cogsPctRevenue: Option<real>, grossMargin: Option<real>, sgaPctRevenue: Option<real>, operatingMargin: Option<real>,
    arPctRevenue: Option<real>, daysSalesOutstanding: Option<real>,
    inventoryPctCogs: Option<real>, daysInventory: Option<real>,
    apPctCogs: Option<real>, daysPayable: Option<real>, minCashPctRevenue: Option<real>,
    taxRate: Option<real>,
    depreciationYears: Option<real>, depreciationRate: Option<real>,
    costOfDebt: Option<real>, returnStInvestment: Option<real>,
    costOfDebtByYear: Option<seq<real>>, returnStInvestmentByYear: Option<seq<real>>,
    pctFinancingWithDebt: Option<real>, stLoanYears: Option<real>, ltLoanYears: Option<real>,
    payoutRatio: Option<real>, capexPctRevenue: Option<real>, capexToDepreciation: Option<real>)

  const NoInputs := Calculated(None, None, None, None, None, None, None, None, None, None, None, None, None, None,
    None, None, None, None, None, None, None, None, None, None, None, None, None, None)

  /** Every key written, with the per-year lists `n` entries long. */
  predicate Complete(c: Calculated, n: nat) {
    c.year0.Some? && c.revenueGrowthBase.Some? && c.revenueGrowth.Some? && c.inflationRate.Some?
    && c.cogsPctRevenue.Some? && c.grossMargin.Some? && c.sgaPctRevenue.Some? && c.operatingMargin.Some?
    && c.arPctRevenue.Some? && c.daysSalesOutstanding.Some? && c.inventoryPctCogs.Some? && c.daysInventory.Some?
    && c.apPctCogs.Some? && c.daysPayable.Some? && c.minCashPctRevenue.Some? && c.taxRate.Some?
    && c.depreciationYears.Some? && c.depreciationRate.Some? && c.costOfDebt.Some? && c.returnStInvestment.Some?
    && c.costOfDebtByYear.Some? && c.returnStInvestmentByYear.Some?
    && c.pctFinancingWithDebt.Some? && c.stLoanYears.Some? && c.ltLoanYears.Some?
    && c.payoutRatio.Some? && c.capexPctRevenue.Some? && c.capexToDepreciation.Some?
    && |c.revenueGrowth.value| == n && |c.inflationRate.value| == n
    && |c.costOfDebtByYear.value| == n && |c.returnStInvestmentByYear.value| == n
  }

  /** The dictionary as the year-by-year engine reads it. */
  function EngineInputs(c: Calculated, n: nat): (r: CompanyInputs.Inputs)
    requires Complete(c, n)
    ensures |r.revenueGrowth| == n
    ensures |CompanyInputs.ByYear(r.costOfDebtByYear, r.costOfDebt, n)| == n
    ensures |CompanyInputs.ByYear(r.returnStInvestmentByYear, r.returnStInvestment, n)| == n
    ensures r.ltLoanYears == c.ltLoanYears && r.stLoanYears == c.stLoanYears
  {
    var y := c.year0.value;
    CompanyInputs.Inputs(
      y.revenue, y.cogs, y.grossProfit, y.sga, y.operatingIncome, y.depreciation, y.interestExpense,
      y.pretaxIncome, y.taxProvision, y.netIncome,
      y.cash, y.accountsReceivable, y.inventory, y.currentAssets, y.netPpe, y.grossPpe,
      y.accumulatedDepreciation, y.goodwill, y.intangibleAssets, y.totalAssets,
      y.accountsPayable, y.shortTermDebt, y.currentLiabilities, y.longTermDebt, y.totalLiabilities,
      y.retainedEarnings, y.totalEquity, Some(y.minorityInterest),
      y.operatingCashFlow, y.capex, y.dividendsPaid, y.stockRepurchase,
      c.revenueGrowth.value, c.cogsPctRevenue.value, c.sgaPctRevenue.value, c.capexPctRevenue.value,
      c.depreciationRate.value, c.arPctRevenue.value, c.inventoryPctCogs.value, c.apPctCogs.value,
      c.minCashPctRevenue.value, c.taxRate.value, c.payoutRatio.value,
      c.costOfDebt.value, c.costOfDebtByYear, c.returnStInvestment.value, c.returnStInvestmentByYear,
      c.pctFinancingWithDebt.value, c.stLoanYears, c.ltLoanYears)
  }

  // ---------------------------------------------------------------------
  // The calculator
  // ---------------------------------------------------------------------

  /** The cost shares set, the gross margin being what the cost of revenue leaves. */
  function WithCostStructure(c: Calculated, cogs: real, sga: real, margin: real): Calculated {
    c.(cogsPctRevenue := Some(cogs), grossMargin := Some(1.0 - cogs), sgaPctRevenue := Some(sga), operatingMargin := Some(margin))
  }

  /** The working-capital ratios set, each receivable or payable ratio also as days of a 365-day year. */
  function WithWorkingCapital(c: Calculated, ar: real, inv: real, ap: real, cash: real): Calculated {
    c.(arPctRevenue := Some(ar), daysSalesOutstanding := Some(ar * 365.0),
       inventoryPctCogs := Some(inv), daysInventory := Some(inv * 365.0),
       apPctCogs := Some(ap), daysPayable := Some(ap * 365.0), minCashPctRevenue := Some(cash))
  }

  /** The ratios a company configuration may override. */
  datatype Overridable = CogsPct | SgaPct | CapexPct | DebtCost

  class InputCalculator {
    const data: Loader
    const config: ForecastSettings
    const assumptions: Assumptions
    /** The company configuration, when one was given or found. */
    const companyConfig: Option<CompanyConfig>
    var inputs: Calculated

    constructor(data: Loader, config: ForecastSettings, assumptions: Assumptions, companyConfig: Option<CompanyConfig>)
      ensures this.data == data && this.config == config && this.assumptions == assumptions
      ensures this.companyConfig == companyConfig
      ensures inputs == NoInputs
    {
      this.data := data;
      this.config := config;
      this.assumptions := assumptions;
      this.companyConfig := companyConfig;
      inputs := NoInputs;
    }

    /** The averaged historical ratio of two rows over the input years (`calculate_cross_statement_ratio`). */
    function Historical(numStatement: string, numField: string, denStatement: string, denField: string): Option<real>
      reads data
    {
      MeanOf(Ratios(data.HistoryOf(numStatement, numField, Some(config.nInputYears)),
                    data.HistoryOf(denStatement, denField, Some(config.nInputYears))))
    }

    /** `calculate_ratio_average` over the input years. */
    method RatioAverage(statement: string, numField: string, denField: string) returns (r: Option<real>)
      ensures r == Historical(statement, numField, statement, denField)
    {
      r := data.CalculateRatioAverage(statement, numField, denField, config.nInputYears);
    }

    /** `calculate_cross_statement_ratio` over the input years. */
    method CrossRatio(numStatement: string, numField: string, denStatement: string, denField: string) returns (r: Option<real>)
      ensures r == Historical(numStatement, numField, denStatement, denField)
    {
      r := data.CalculateCrossStatementRatio(numStatement, numField, denStatement, denField, config.nInputYears);
    }

    /** The company's override of one ratio, when a configuration gives one. */
    function OverrideOf(which: Overridable): Option<real> {
      if companyConfig.None? then None
      else match which
        case CogsPct => companyConfig.value.cogsPctOverride
        case SgaPct => companyConfig.value.sgaPctOverride
        case CapexPct => companyConfig.value.capexPctOverride
        case DebtCost => companyConfig.value.costOfDebtOverride
    }

    /** `calculate_all_inputs`: every step in order; a zero useful life makes the depreciation step raise. */
    method CalculateAllInputs() returns (r: Result<Calculated>)
      modifies this
      ensures r.Ok? ==> r.value == inputs && Complete(inputs, config.nForecastYears)
      ensures r.Err? ==> r.error == ZeroDivisionError
    {
      CalculateYear0Values();
      CalculateGrowthAssumptions();
      CalculateCostStructure();
      CalculateWorkingCapitalRatios();
      CalculateTaxRate();
      var err := CalculateDepreciationInputs();
      if err.Some? {
        return Err(err.value);
      }
      CalculateInterestRates();
      CalculateFinancingParams();
      CalculatePayoutRatio();
      CalculateCapexInputs();
      r := Ok(inputs);
    }

    method CalculateYear0Values()
      modifies this
      ensures inputs == old(inputs).(year0 := Some(Year0Of(data)))
    {
      inputs := inputs.(year0 := Some(Year0Of(data)));
    }

    method CalculateGrowthAssumptions()
      modifies this
      ensures var base := RevenueGrowthBase(companyConfig, assumptions, GrowthRateOf(data.HistoryOf("income", "Total Revenue", Some(4))));
        inputs == old(inputs).(revenueGrowthBase := Some(base),
          revenueGrowth := Some(GrowthSchedule(base, config.nForecastYears)),
          inflationRate := Some(seq(config.nForecastYears, _ => assumptions.defaultInflationRate)))
    {
      var base;
      if companyConfig.Some? && companyConfig.value.revenueGrowthOverride.Some? {
        base := companyConfig.value.revenueGrowthOverride.value;
      } else {
        var historical := data.CalculateGrowthRate("income", "Total Revenue", 3);
        var (lo, hi) := GrowthBounds(companyConfig);
        base := if historical.Some? then Bound(historical.value, lo, hi) else DefaultGrowth(companyConfig, assumptions);
      }
      var growth := GrowthScheduleLoop(base, config.nForecastYears);
      inputs := inputs.(revenueGrowthBase := Some(base), revenueGrowth := Some(growth),
        inflationRate := Some(seq(config.nForecastYears, _ => assumptions.defaultInflationRate)));
    }

    method CalculateCostStructure()
      requires inputs.year0.Some?
      modifies this
      ensures var y := old(inputs).year0.value;
        var cogsPct := CostShare(OverrideOf(CogsPct),
          Historical("income", "Cost Of Revenue", "income", "Total Revenue"),
          y.cogs, y.revenue, 0.60);
        inputs == WithCostStructure(old(inputs), cogsPct,
          CostShare(OverrideOf(SgaPct), Historical("income", "Selling General And Administration", "income", "Total Revenue"),
            y.sga, y.revenue, 0.20),
          CompanyInputs.GetOr(Historical("income", "Operating Income", "income", "Total Revenue"), 0.15))
    {
      var y := inputs.year0.value;
      var cogsPct := OverrideOf(CogsPct);
      if cogsPct.None? {
        cogsPct := RatioAverage("income", "Cost Of Revenue", "Total Revenue");
      }
      var cogsShare := if cogsPct.Some? then cogsPct.value else if y.revenue > 0.0 && y.cogs != 0.0 then y.cogs / y.revenue else 0.60;
      var sgaPct := OverrideOf(SgaPct);
      if sgaPct.None? {
        sgaPct := RatioAverage("income", "Selling General And Administration", "Total Revenue");
      }
      var sgaShare := if sgaPct.Some? then sgaPct.value else if y.revenue > 0.0 && y.sga != 0.0 then y.sga / y.revenue else 0.20;
      var margin := RatioAverage("income", "Operating Income", "Total Revenue");
      inputs := WithCostStructure(inputs, cogsShare, sgaShare, CompanyInputs.GetOr(margin, 0.15));
    }

    method CalculateWorkingCapitalRatios()
      requires inputs.year0.Some?
      modifies this
      ensures var y := old(inputs).year0.value;
        var ar := PositiveRatio(Historical("balance", "Accounts Receivable", "income", "Total Revenue"),
          y.accountsReceivable, y.revenue, assumptions.defaultArPct);
        var inv := PositiveRatio(Historical("balance", "Inventory", "income", "Cost Of Revenue"),
          y.inventory, y.cogs, assumptions.defaultInventoryPct);
        var ap := PositiveRatio(Historical("balance", "Accounts Payable", "income", "Cost Of Revenue"),
          y.accountsPayable, y.cogs, assumptions.defaultApPct);
        var cash := PositiveRatio(Historical("balance", "Cash And Cash Equivalents", "income", "Total Revenue"),
          y.cash, y.revenue, assumptions.minCashPctRevenue);
        inputs == WithWorkingCapital(old(inputs), ar, inv, ap, cash)
    {
      var y := inputs.year0.value;
      var arHist := CrossRatio("balance", "Accounts Receivable", "income", "Total Revenue");
      var ar := PositiveRatio(arHist, y.accountsReceivable, y.revenue, assumptions.defaultArPct);
      var invHist := CrossRatio("balance", "Inventory", "income", "Cost Of Revenue");
      var inv := PositiveRatio(invHist, y.inventory, y.cogs, assumptions.defaultInventoryPct);
      var apHist := CrossRatio("balance", "Accounts Payable", "income", "Cost Of Revenue");
      var ap := PositiveRatio(apHist, y.accountsPayable, y.cogs, assumptions.defaultApPct);
      var cashHist := CrossRatio("balance", "Cash And Cash Equivalents", "income", "Total Revenue");
      var cash := PositiveRatio(cashHist, y.cash, y.revenue, assumptions.minCashPctRevenue);
      assert arHist == Historical("balance", "Accounts Receivable", "income", "Total Revenue");
      assert invHist == Historical("balance", "Inventory", "income", "Cost Of Revenue");
      assert apHist == Historical("balance", "Accounts Payable", "income", "Cost Of Revenue");
      assert cashHist == Historical("balance", "Cash And Cash Equivalents", "income", "Total Revenue");
      inputs := WithWorkingCapital(inputs, ar, inv, ap, cash);
    }

    method CalculateTaxRate()
      requires inputs.year0.Some?
      modifies this
      ensures var y := old(inputs).year0.value;
        inputs == old(inputs).(taxRate := Some(TaxRate(companyConfig, assumptions,
          Historical("income", "Tax Provision", "income", "Pretax Income"),
          y.pretaxIncome, y.taxProvision)))
    {
      var y := inputs.year0.value;
      var (lo, hi, default) := TaxBounds(companyConfig, assumptions);
      if companyConfig.Some? && companyConfig.value.taxRateOverride.Some? {
        inputs := inputs.(taxRate := Some(companyConfig.value.taxRateOverride.value));
        return;
      }
      var historical := RatioAverage("income", "Tax Provision", "Pretax Income");
      var rate;
      if historical.Some? && 0.0 < historical.value < 1.0 {
        rate := Bound(historical.value, lo, hi);
      } else if y.pretaxIncome > 0.0 && y.taxProvision > 0.0 {
        rate := Bound(y.taxProvision / y.pretaxIncome, lo, hi);
      } else {
        rate := default;
      }
      inputs := inputs.(taxRate := Some(rate));
    }

    method CalculateDepreciationInputs() returns (err: Option<Error>)
      requires inputs.year0.Some?
      modifies this
      ensures var y := old(inputs).year0.value;
        var years := DepreciationYears(companyConfig, assumptions, y.grossPpe, y.depreciation);
        var rate := DepreciationRate(y.netPpe, y.depreciation, years);
        && (err.Some? <==> rate.Err?)
        && (rate.Ok? ==> inputs == old(inputs).(depreciationYears := Some(years), depreciationRate := Some(rate.value)))
        && (rate.Err? ==> err.value == rate.error && inputs == old(inputs).(depreciationYears := Some(years)))
    {
      var y := inputs.year0.value;
      var years := DepreciationYears(companyConfig, assumptions, y.grossPpe, y.depreciation);
      inputs := inputs.(depreciationYears := Some(years));
      if y.netPpe > 0.0 {
        inputs := inputs.(depreciationRate := Some(y.depreciation / y.netPpe));
      } else if years == 0.0 {
        return Some(ZeroDivisionError);
      } else {
        inputs := inputs.(depreciationRate := Some(1.0 / years));
      }
      err := None;
    }

    method CalculateInterestRates()
      requires inputs.year0.Some?
      modifies this
      ensures var y := old(inputs).year0.value;
        var cod := CostOfDebt(OverrideOf(DebtCost), y.interestExpense, y.totalDebt);
        var income := OrElse(data.GetValue("income", "Interest Income", None), Latest(data, "income", "Interest Income Non Operating"));
        var ret := ReturnStInvestment(income, y.cash, cod);
        inputs == old(inputs).(costOfDebt := Some(cod), returnStInvestment := Some(ret),
          costOfDebtByYear := Some(seq(config.nForecastYears, _ => cod)),
          returnStInvestmentByYear := Some(seq(config.nForecastYears, _ => ret)))
    {
      var y := inputs.year0.value;
      var cod := CostOfDebt(OverrideOf(DebtCost), y.interestExpense, y.totalDebt);
      var income := OrElse(data.GetValue("income", "Interest Income", None), Latest(data, "income", "Interest Income Non Operating"));
      var ret := ReturnStInvestment(income, y.cash, cod);
      inputs := inputs.(costOfDebt := Some(cod), returnStInvestment := Some(ret),
        costOfDebtByYear := Some(seq(config.nForecastYears, _ => cod)),
        returnStInvestmentByYear := Some(seq(config.nForecastYears, _ => ret)));
    }

    method CalculateFinancingParams()
      modifies this
      ensures companyConfig.Some? ==> inputs == old(inputs).(pctFinancingWithDebt := Some(companyConfig.value.pctFinancingWithDebt),
        stLoanYears := Some(companyConfig.value.stLoanYears), ltLoanYears := Some(companyConfig.value.ltLoanYears))
      ensures companyConfig.None? ==> inputs == old(inputs).(pctFinancingWithDebt := Some(assumptions.pctFinancingWithDebt),
        stLoanYears := Some(assumptions.stLoanYears), ltLoanYears := Some(assumptions.ltLoanYears))
    {
      if companyConfig.Some? {
        var c := companyConfig.value;
        inputs := inputs.(pctFinancingWithDebt := Some(c.pctFinancingWithDebt), stLoanYears := Some(c.stLoanYears),
          ltLoanYears := Some(c.ltLoanYears));
      } else {
        inputs := inputs.(pctFinancingWithDebt := Some(assumptions.pctFinancingWithDebt),
          stLoanYears := Some(assumptions.stLoanYears), ltLoanYears := Some(assumptions.ltLoanYears));
      }
    }

    method CalculatePayoutRatio()
      requires inputs.year0.Some?
      modifies this
      ensures var y := old(inputs).year0.value;
        inputs == old(inputs).(payoutRatio := Some(PayoutRatio(companyConfig, assumptions,
          Historical("cash", "Cash Dividends Paid", "income", "Net Income"),
          y.netIncome, y.dividendsPaid)))
    {
      var y := inputs.year0.value;
      if companyConfig.Some? && companyConfig.value.payoutRatioOverride.Some? {
        inputs := inputs.(payoutRatio := Some(companyConfig.value.payoutRatioOverride.value));
        return;
      }
      var historical := CrossRatio("cash", "Cash Dividends Paid", "income", "Net Income");
      var payout;
      if historical.Some? {
        payout := Bound(Abs(historical.value), 0.0, 1.0);
      } else if y.netIncome > 0.0 && y.dividendsPaid > 0.0 {
        payout := Bound(y.dividendsPaid / y.netIncome, 0.0, 1.0);
      } else {
        payout := DefaultPayout(companyConfig, assumptions);
      }
      inputs := inputs.(payoutRatio := Some(payout));
    }

    method CalculateCapexInputs()
      requires inputs.year0.Some?
      modifies this
      ensures var y := old(inputs).year0.value;
        inputs == old(inputs).(capexPctRevenue := Some(CapexShare(OverrideOf(CapexPct),
          Historical("cash", "Capital Expenditure", "income", "Total Revenue"),
          y.capex, y.revenue)),
          capexToDepreciation := Some(CapexToDepreciation(y.depreciation, y.capex)))
    {
      var y := inputs.year0.value;
      var share := OverrideOf(CapexPct);
      if share.None? {
        var historical := CrossRatio("cash", "Capital Expenditure", "income", "Total Revenue");
        share := Some(if historical.Some? then Abs(historical.value)
          else if y.revenue > 0.0 && y.capex > 0.0 then y.capex / y.revenue else 0.04);
      }
      inputs := inputs.(capexPctRevenue := Some(share.value), capexToDepreciation := Some(CapexToDepreciation(y.depreciation, y.capex)));
    }
  }
}
