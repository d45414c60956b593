/**
 * The flat-array "plug" forecasters (company_forecast/forecaster.py and
 * pg_forecast/forecaster.py). Every statement line is a list pre-sized to
 * the forecast horizon; each `forecast_*` step overwrites index `year`.
 * Debt is borrowed on a cash shortfall or paid down from excess cash, and
 * the balance sheet is then forced to balance by moving cash by the
 * imbalance. The two sources differ in how the yearly stock repurchase is
 * sized, which is the `RepurchasePolicy` parameter here, and in whether
 * `run_forecast` ends by printing the detailed statements, which is the
 * `printStatements` parameter of `Forecaster.RunForecast`.
 */
module PlugForecaster {
  import opened Wrappers
  import opened RealArith
  import CompanyInputs

  /** The Year-0 balance sheet handed over by an input mapper. */
  datatype OpeningSheet = OpeningSheet(
    cash: real, accountsReceivable: real, inventory: real, currentAssets: real,
    grossPpe: real, accumulatedDepreciation: real, netPpe: real,
    goodwill: real, otherIntangibles: real, otherNonCurrentAssets: real, totalAssets: real,
    accountsPayable: real, shortTermDebt: real, currentLiabilities: real,
    longTermDebt: real, totalDebt: real, nonCurrentLiabilities: real, totalLiabilities: real,
    commonStock: real, retainedEarnings: real, additionalPaidInCapital: real, treasuryStock: real,
    otherEquity: real, stockholdersEquity: real, totalEquity: real)

  /** The Year-0 income-statement and cash-flow figures; an absent key reads as 0. */
  datatype OpeningFlows = OpeningFlows(
    revenue: Option<real>, cogs: Option<real>, grossProfit: Option<real>, opex: Option<real>,
    ebit: Option<real>, depreciation: Option<real>, ebitda: Option<real>,
    interestExpense: Option<real>, interestIncome: Option<real>, pretaxIncome: Option<real>,
    tax: Option<real>, netIncome: Option<real>,
    operatingCf: Option<real>, capex: Option<real>, freeCf: Option<real>, dividends: Option<real>)

  /**
   * How the yearly stock repurchase is sized: a share of the year's net
   * income (default share 0.3, company forecaster) or a fixed amount
   * (default 5000, P&G forecaster).
   */
  datatype RepurchasePolicy =
    | ShareOfNetIncome(ratio: Option<real>)
    | FixedAmount(amount: Option<real>)

  /** The inputs dictionary the forecasters read. */
  datatype PlugInputs = PlugInputs(
    forecastYears: nat,
    sheet: OpeningSheet,
    flows: OpeningFlows,
    nominalRevenueGrowth: seq<real>, nominalCogsGrowth: seq<real>, nominalOpexGrowth: seq<real>,
    arDays: real, inventoryDays: real, apDays: real,
    depreciationRate: real, capexToRevenue: real,
    interestRateSt: real, interestRateLt: real, taxRate: real,
    dividendPayoutRatio: real, repurchase: RepurchasePolicy,
    minCashBalance: real, maxDebtToEquity: real, targetDebtStructure: real)

  /** The forty-four year-indexed lists, under the attribute names of the source. */
  datatype Books = Books(
    revenue: seq<real>, cogs: seq<real>, grossProfit: seq<real>, operatingExpenses: seq<real>,
    ebit: seq<real>, depreciation: seq<real>, ebitda: seq<real>,
    interestExpense: seq<real>, interestIncome: seq<real>, ebt: seq<real>, tax: seq<real>,
    netIncome: seq<real>,
    cash: seq<real>, ar: seq<real>, inventory: seq<real>, currentAssets: seq<real>,
    grossPpe: seq<real>, accDepreciation: seq<real>, netPpe: seq<real>,
    goodwill: seq<real>, otherIntangibles: seq<real>, otherNoncurrentAssets: seq<real>,
    totalAssets: seq<real>,
    ap: seq<real>, stDebt: seq<real>, currentLiabilities: seq<real>,
    ltDebt: seq<real>, totalDebt: seq<real>, noncurrentLiabilities: seq<real>, totalLiabilities: seq<real>,
    commonStock: seq<real>, apic: seq<real>, retainedEarnings: seq<real>, treasuryStock: seq<real>,
    otherEquity: seq<real>, stockholdersEquity: seq<real>, totalEquity: seq<real>,
    operatingCf: seq<real>, investingCf: seq<real>, financingCf: seq<real>,
    capex: seq<real>, dividends: seq<real>, freeCf: seq<real>, stockRepurchase: seq<real>)

  /** One year of every list, read across the books. */
  datatype Row = Row(
    revenue: real, cogs: real, grossProfit: real, operatingExpenses: real,
    ebit: real, depreciation: real, ebitda: real,
    interestExpense: real, interestIncome: real, ebt: real, tax: real, netIncome: real,
    cash: real, ar: real, inventory: real, currentAssets: real,
    grossPpe: real, accDepreciation: real, netPpe: real,
    goodwill: real, otherIntangibles: real, otherNoncurrentAssets: real, totalAssets: real,
    ap: real, stDebt: real, currentLiabilities: real,
    ltDebt: real, totalDebt: real, noncurrentLiabilities: real, totalLiabilities: real,
    commonStock: real, apic: real, retainedEarnings: real, treasuryStock: real,
    otherEquity: real, stockholdersEquity: real, totalEquity: real,
    operatingCf: real, investingCf: real, financingCf: real,
    capex: real, dividends: real, freeCf: real, stockRepurchase: real)

  /** Every list has the same length. */
  predicate Sized(b: Books) {
    var n := |b.revenue|;
    |b.cogs| == n && |b.grossProfit| == n && |b.operatingExpenses| == n && |b.ebit| == n &&
    |b.depreciation| == n && |b.ebitda| == n && |b.interestExpense| == n && |b.interestIncome| == n &&
    |b.ebt| == n && |b.tax| == n && |b.netIncome| == n &&
    |b.cash| == n && |b.ar| == n && |b.inventory| == n && |b.currentAssets| == n &&
    |b.grossPpe| == n && |b.accDepreciation| == n && |b.netPpe| == n &&
    |b.goodwill| == n && |b.otherIntangibles| == n && |b.otherNoncurrentAssets| == n && |b.totalAssets| == n &&
    |b.ap| == n && |b.stDebt| == n && |b.currentLiabilities| == n &&
    |b.ltDebt| == n && |b.totalDebt| == n && |b.noncurrentLiabilities| == n && |b.totalLiabilities| == n &&
    |b.commonStock| == n && |b.apic| == n && |b.retainedEarnings| == n && |b.treasuryStock| == n &&
    |b.otherEquity| == n && |b.stockholdersEquity| == n && |b.totalEquity| == n &&
    |b.operatingCf| == n && |b.investingCf| == n && |b.financingCf| == n &&
    |b.capex| == n && |b.dividends| == n && |b.freeCf| == n && |b.stockRepurchase| == n
  }

  /** The books span Year 0 .. forecastYears and every growth list covers the horizon. */
  predicate Fits(b: Books, p: PlugInputs) {
    Sized(b) && |b.revenue| == p.forecastYears + 1 &&
    |p.nominalRevenueGrowth| >= p.forecastYears && |p.nominalCogsGrowth| >= p.forecastYears &&
    |p.nominalOpexGrowth| >= p.forecastYears
  }

  function RowAt(b: Books, i: nat): Row
    requires Sized(b) && i < |b.revenue|
  {
    Row(
      b.revenue[i], b.cogs[i], b.grossProfit[i], b.operatingExpenses[i],
      b.ebit[i], b.depreciation[i], b.ebitda[i],
      b.interestExpense[i], b.interestIncome[i], b.ebt[i], b.tax[i], b.netIncome[i],
      b.cash[i], b.ar[i], b.inventory[i], b.currentAssets[i],
      b.grossPpe[i], b.accDepreciation[i], b.netPpe[i],
      b.goodwill[i], b.otherIntangibles[i], b.otherNoncurrentAssets[i], b.totalAssets[i],
      b.ap[i], b.stDebt[i], b.currentLiabilities[i],
      b.ltDebt[i], b.totalDebt[i], b.noncurrentLiabilities[i], b.totalLiabilities[i],
      b.commonStock[i], b.apic[i], b.retainedEarnings[i], b.treasuryStock[i],
      b.otherEquity[i], b.stockholdersEquity[i], b.totalEquity[i],
      b.operatingCf[i], b.investingCf[i], b.financingCf[i],
      b.capex[i], b.dividends[i], b.freeCf[i], b.stockRepurchase[i])
  }

  /** `a` and `b` have the same shape and differ at most in the entries of `year`. */
  predicate OnlyYearChanged(a: Books, b: Books, year: nat) {
    Sized(a) && Sized(b) && |a.revenue| == |b.revenue| &&
    forall i :: 0 <= i < |a.revenue| && i != year ==> RowAt(a, i) == RowAt(b, i)
  }

  // ---------------------------------------------------------------------
  // Year 0
  // ---------------------------------------------------------------------

  /** `[0.0] * len` with `x` written at index 0. */
  function Seed(x: real, len: nat): (s: seq<real>)
    requires len >= 1
    ensures |s| == len && s[0] == x
    ensures forall i :: 1 <= i < len ==> s[i] == 0.0
  {
    seq(len, i => if i == 0 then x else 0.0)
  }

  /** The lists right after `_initialize_year_0`. */
  function OpeningBooks(p: PlugInputs): Books {
    var n := p.forecastYears + 1;
    var s := p.sheet;
    var f := p.flows;
    Books(
      Seed(CompanyInputs.GetOr(f.revenue, 0.0), n), Seed(CompanyInputs.GetOr(f.cogs, 0.0), n),
      Seed(CompanyInputs.GetOr(f.grossProfit, 0.0), n), Seed(CompanyInputs.GetOr(f.opex, 0.0), n),
      Seed(CompanyInputs.GetOr(f.ebit, 0.0), n), Seed(CompanyInputs.GetOr(f.depreciation, 0.0), n),
      Seed(CompanyInputs.GetOr(f.ebitda, 0.0), n),
      Seed(CompanyInputs.GetOr(f.interestExpense, 0.0), n), Seed(CompanyInputs.GetOr(f.interestIncome, 0.0), n),
      Seed(CompanyInputs.GetOr(f.pretaxIncome, 0.0), n), Seed(CompanyInputs.GetOr(f.tax, 0.0), n),
      Seed(CompanyInputs.GetOr(f.netIncome, 0.0), n),
      Seed(s.cash, n), Seed(s.accountsReceivable, n), Seed(s.inventory, n), Seed(s.currentAssets, n),
      Seed(s.grossPpe, n), Seed(s.accumulatedDepreciation, n), Seed(s.netPpe, n),
      Seed(s.goodwill, n), Seed(s.otherIntangibles, n), Seed(s.otherNonCurrentAssets, n),
      Seed(s.totalAssets, n),
      Seed(s.accountsPayable, n), Seed(s.shortTermDebt, n), Seed(s.currentLiabilities, n),
      Seed(s.longTermDebt, n), Seed(s.totalDebt, n), Seed(s.nonCurrentLiabilities, n),
      Seed(s.totalLiabilities, n),
      Seed(s.commonStock, n), Seed(s.additionalPaidInCapital, n), Seed(s.retainedEarnings, n),
      Seed(s.treasuryStock, n), Seed(s.otherEquity, n), Seed(s.stockholdersEquity, n),
      Seed(s.totalEquity, n),
      Seed(CompanyInputs.GetOr(f.operatingCf, 0.0), n), Seed(0.0, n), Seed(0.0, n),
      Seed(-Abs(CompanyInputs.GetOr(f.capex, 0.0)), n), Seed(-Abs(CompanyInputs.GetOr(f.dividends, 0.0)), n),
      Seed(CompanyInputs.GetOr(f.freeCf, 0.0), n), Seed(0.0, n))
  }

  /**
   * Year 0 holds the mapped balance sheet verbatim and the Year-0 flows,
   * with capital expenditure and dividends stored as outflows (`-|x|`).
   */
  predicate OpeningYear(b: Books, p: PlugInputs)
    requires Sized(b) && |b.revenue| >= 1
  {
    var r := RowAt(b, 0);
    var s := p.sheet;
    r.cash == s.cash && r.ar == s.accountsReceivable && r.inventory == s.inventory &&
    r.currentAssets == s.currentAssets && r.grossPpe == s.grossPpe &&
    r.accDepreciation == s.accumulatedDepreciation && r.netPpe == s.netPpe &&
    r.goodwill == s.goodwill && r.otherIntangibles == s.otherIntangibles &&
    r.otherNoncurrentAssets == s.otherNonCurrentAssets && r.totalAssets == s.totalAssets &&
    r.ap == s.accountsPayable && r.stDebt == s.shortTermDebt && r.currentLiabilities == s.currentLiabilities &&
    r.ltDebt == s.longTermDebt && r.totalDebt == s.totalDebt &&
    r.noncurrentLiabilities == s.nonCurrentLiabilities && r.totalLiabilities == s.totalLiabilities &&
    r.commonStock == s.commonStock && r.apic == s.additionalPaidInCapital &&
    r.retainedEarnings == s.retainedEarnings && r.treasuryStock == s.treasuryStock &&
    r.otherEquity == s.otherEquity && r.stockholdersEquity == s.stockholdersEquity &&
    r.totalEquity == s.totalEquity &&
    r.revenue == CompanyInputs.GetOr(p.flows.revenue, 0.0) &&
    r.netIncome == CompanyInputs.GetOr(p.flows.netIncome, 0.0) &&
    r.capex == -Abs(CompanyInputs.GetOr(p.flows.capex, 0.0)) && r.capex <= 0.0 &&
    r.dividends == -Abs(CompanyInputs.GetOr(p.flows.dividends, 0.0)) && r.dividends <= 0.0 &&
    r.stockRepurchase == 0.0 && r.investingCf == 0.0 && r.financingCf == 0.0
  }

  lemma OpeningBooksFit(p: PlugInputs)
    ensures Sized(OpeningBooks(p)) && |OpeningBooks(p).revenue| == p.forecastYears + 1
    ensures OpeningYear(OpeningBooks(p), p)
  {
  }

  // ---------------------------------------------------------------------
  // What each step establishes at `year`
  // ---------------------------------------------------------------------

  /** `forecast_income_statement`: lines grow at their own rates, depreciation on last year's gross PP&E. */
  predicate IncomeAt(b: Books, p: PlugInputs, y: nat)
    requires Fits(b, p) && 1 <= y <= p.forecastYears
  {
    b.revenue[y] == Times(b.revenue[y - 1], 1.0 + p.nominalRevenueGrowth[y - 1]) &&
    b.cogs[y] == Times(b.cogs[y - 1], 1.0 + p.nominalCogsGrowth[y - 1]) &&
    b.grossProfit[y] == b.revenue[y] - b.cogs[y] &&
    b.operatingExpenses[y] == Times(b.operatingExpenses[y - 1], 1.0 + p.nominalOpexGrowth[y - 1]) &&
    b.ebit[y] == b.grossProfit[y] - b.operatingExpenses[y] &&
    b.depreciation[y] == Times(b.grossPpe[y - 1], p.depreciationRate) &&
    b.ebitda[y] == b.ebit[y] + b.depreciation[y]
  }

  /** `forecast_cash_budget_and_working_capital`: day-count working capital and the PP&E roll-forward. */
  predicate AssetsAt(b: Books, p: PlugInputs, y: nat)
    requires Fits(b, p) && 1 <= y <= p.forecastYears
  {
    b.ar[y] == Times(b.revenue[y], p.arDays / 365.0) &&
    b.inventory[y] == Times(b.cogs[y], p.inventoryDays / 365.0) &&
    b.ap[y] == Times(b.cogs[y], p.apDays / 365.0) &&
    b.capex[y] == Times(b.revenue[y], p.capexToRevenue) &&
    b.grossPpe[y] == b.grossPpe[y - 1] + b.capex[y] &&
    b.accDepreciation[y] == b.accDepreciation[y - 1] + b.depreciation[y] &&
    b.netPpe[y] == b.grossPpe[y] - b.accDepreciation[y]
  }

  /** The year's stock repurchase under the policy. */
  function Repurchase(policy: RepurchasePolicy, netIncome: real): real {
    match policy
    case ShareOfNetIncome(ratio) => Times(netIncome, CompanyInputs.GetOr(ratio, 0.3))
    case FixedAmount(amount) => CompanyInputs.GetOr(amount, 5000.0)
  }

  /**
   * `forecast_debt_and_financing`: interest on last year's debt at separate
   * rates, 2% on last year's cash, a non-negative tax, unfloored dividends,
   * the repurchase, and the equity roll with the minority amount carried.
   */
  predicate EarningsAt(b: Books, p: PlugInputs, y: nat)
    requires Fits(b, p) && 1 <= y <= p.forecastYears
  {
    b.interestExpense[y] == Times(b.stDebt[y - 1], p.interestRateSt) + Times(b.ltDebt[y - 1], p.interestRateLt) &&
    b.interestIncome[y] == Times(b.cash[y - 1], 0.02) &&
    b.ebt[y] == b.ebit[y] - b.interestExpense[y] + b.interestIncome[y] &&
    b.tax[y] == Floor0(Times(b.ebt[y], p.taxRate)) &&
    b.netIncome[y] == b.ebt[y] - b.tax[y] &&
    b.dividends[y] == Times(b.netIncome[y], p.dividendPayoutRatio) &&
    b.stockRepurchase[y] == Repurchase(p.repurchase, b.netIncome[y]) &&
    b.retainedEarnings[y] == b.retainedEarnings[y - 1] + b.netIncome[y] - b.dividends[y] &&
    b.treasuryStock[y] == b.treasuryStock[y - 1] + b.stockRepurchase[y] &&
    b.commonStock[y] == b.commonStock[y - 1] && b.apic[y] == b.apic[y - 1] &&
    b.otherEquity[y] == b.otherEquity[y - 1] &&
    b.stockholdersEquity[y] ==
      b.commonStock[y] + b.apic[y] + b.retainedEarnings[y] - b.treasuryStock[y] + b.otherEquity[y] &&
    b.totalEquity[y] - b.stockholdersEquity[y] == b.totalEquity[y - 1] - b.stockholdersEquity[y - 1]
  }

  /** Cash at the end of `y` before any debt action: last year's cash plus the year's flows. */
  function PreliminaryCash(b: Books, y: nat): real
    requires Sized(b) && 1 <= y < |b.revenue|
  {
    var operatingCf := b.netIncome[y] + b.depreciation[y] - (b.ar[y] - b.ar[y - 1]) -
                       (b.inventory[y] - b.inventory[y - 1]) + (b.ap[y] - b.ap[y - 1]);
    b.cash[y - 1] + operatingCf + -b.capex[y] + -(b.dividends[y] + b.stockRepurchase[y])
  }

  function Min(a: real, b: real): (r: real)
    ensures r <= a && r <= b && (r == a || r == b)
  {
    if b < a then b else a
  }

  /** The debt and cash the debt strategy settles on. */
  datatype DebtPlan = DebtPlan(stDebt: real, ltDebt: real, cash: real)

  /**
   * The debt strategy of `forecast_balance_sheet`. Below the minimum cash
   * the shortfall is borrowed, split by the target structure; above 2.5
   * times the minimum, and while debt-to-equity exceeds half its maximum,
   * up to 30% of the debt is repaid from the cash above 1.5 times the
   * minimum, short-term debt first; otherwise nothing changes. The
   * debt-to-equity test divides by equity, so zero equity raises.
   */
  function PlanDebt(prelim: real, minCash: real, maxDebtToEquity: real, target: real,
                    st: real, lt: real, equity: real): (r: Result<DebtPlan>)
    ensures r.Err? <==> minCash <= prelim && prelim > minCash * 2.5 && equity == 0.0
    ensures r.Err? ==> r.error == ZeroDivisionError
    // whatever the branch, cash moves by exactly the change in debt
    ensures r.Ok? ==> r.value.cash - prelim == (r.value.stDebt + r.value.ltDebt) - (st + lt)
    ensures r.Ok? && minCash >= 0.0 ==> r.value.cash >= minCash
    // shortfall: borrow exactly the shortfall and land on the minimum
    ensures prelim < minCash ==>
      r.Ok? && r.value.cash == minCash &&
      r.value.ltDebt - lt == Times(minCash - prelim, target) &&
      r.value.stDebt - st == Times(minCash - prelim, 1.0 - target)
    // comfortable cash: nothing changes
    ensures minCash <= prelim <= minCash * 2.5 ==> r == Ok(DebtPlan(st, lt, prelim))
    // paydown: bounded by the excess and by 30% of the debt, never below zero
    ensures r.Ok? && minCash <= prelim && prelim > minCash * 2.5 && (r.value.stDebt != st || r.value.ltDebt != lt) ==>
      (st + lt) - (r.value.stDebt + r.value.ltDebt) <= prelim - minCash * 1.5 &&
      (st + lt) - (r.value.stDebt + r.value.ltDebt) <= Times(st + lt, 0.3) &&
      r.value.stDebt >= 0.0 && r.value.ltDebt >= 0.0
    ensures (r.Ok? && minCash >= 0.0 && minCash <= prelim && prelim > minCash * 2.5 && st >= 0.0 && lt >= 0.0) ==>
      0.0 <= r.value.stDebt <= st && 0.0 <= r.value.ltDebt <= lt
  {
    if prelim < minCash then
      var shortfall := minCash - prelim;
      Ok(DebtPlan(st + shortfall * (1.0 - target), lt + shortfall * target, minCash))
    else if prelim > minCash * 2.5 then
      var excess := prelim - minCash * 1.5;
      if equity == 0.0 then Err(ZeroDivisionError)
      else if (lt + st) / equity > maxDebtToEquity * 0.5 then
        var reduction := Min(excess, (lt + st) * 0.3);
        var stReduction := Min(reduction * 0.4, st);
        var ltReduction := Min(reduction - stReduction, lt);
        Ok(DebtPlan(st - stReduction, lt - ltReduction, prelim - (stReduction + ltReduction)))
      else Ok(DebtPlan(st, lt, prelim))
    else Ok(DebtPlan(st, lt, prelim))
  }

  /**
   * The closing plug: when total assets miss liabilities plus equity by
   * more than 1, cash absorbs the whole imbalance.
   */
  function CashPlug(cash: real, otherAssets: real, required: real): (r: real)
    ensures Abs(r + otherAssets - required) <= 1.0
    ensures r == cash || r + otherAssets == required
    ensures Abs(cash + otherAssets - required) <= 1.0 ==> r == cash
  {
    var imbalance := (cash + otherAssets) - required;
    if Abs(imbalance) > 1.0 then cash - imbalance else cash
  }

  /** Every asset of year `y` other than cash. */
  function OtherAssets(b: Books, y: nat): real
    requires Sized(b) && y < |b.revenue|
  {
    b.ar[y] + b.inventory[y] + b.netPpe[y] + b.goodwill[y] + b.otherIntangibles[y] + b.otherNoncurrentAssets[y]
  }

  /** The long-lived assets of `forecast_balance_sheet`: goodwill flat, intangibles amortised 2% a year. */
  predicate LongLivedAt(b: Books, y: nat)
    requires Sized(b) && 1 <= y < |b.revenue|
  {
    b.goodwill[y] == b.goodwill[y - 1] &&
    b.otherIntangibles[y] == Times(b.otherIntangibles[y - 1], 0.98) &&
    b.otherNoncurrentAssets[y] == b.otherNoncurrentAssets[y - 1]
  }

  /**
   * The rest of `forecast_balance_sheet`: the debt plan applied, the
   * non-debt liabilities carried, assets compiled, cash plugged.
   */
  predicate BalanceAt(b: Books, p: PlugInputs, y: nat)
    requires Fits(b, p) && 1 <= y <= p.forecastYears
  {
    var plan := PlanDebt(PreliminaryCash(b, y), p.minCashBalance, p.maxDebtToEquity, p.targetDebtStructure,
                         b.stDebt[y - 1], b.ltDebt[y - 1], b.stockholdersEquity[y]);
    LongLivedAt(b, y) && plan.Ok? &&
    b.stDebt[y] == plan.value.stDebt && b.ltDebt[y] == plan.value.ltDebt &&
    b.totalDebt[y] == b.ltDebt[y] + b.stDebt[y] &&
    b.noncurrentLiabilities[y] - b.ltDebt[y] == b.noncurrentLiabilities[y - 1] - b.ltDebt[y - 1] &&
    b.currentLiabilities[y] - b.stDebt[y] - b.ap[y] ==
      b.currentLiabilities[y - 1] - b.stDebt[y - 1] - b.ap[y - 1] &&
    b.totalLiabilities[y] == b.currentLiabilities[y] + b.noncurrentLiabilities[y] &&
    b.cash[y] == CashPlug(plan.value.cash, OtherAssets(b, y), b.totalLiabilities[y] + b.totalEquity[y]) &&
    b.currentAssets[y] == b.cash[y] + b.ar[y] + b.inventory[y] &&
    b.totalAssets[y] ==
      b.currentAssets[y] + b.netPpe[y] + b.goodwill[y] + b.otherIntangibles[y] + b.otherNoncurrentAssets[y]
  }

  /** `calculate_cash_flows`: the cash-flow statement of year `y`. */
  predicate CashFlowsAt(b: Books, y: nat)
    requires Sized(b) && 1 <= y < |b.revenue|
  {
    b.operatingCf[y] == b.netIncome[y] + b.depreciation[y] -
      ((b.ar[y] - b.ar[y - 1]) + (b.inventory[y] - b.inventory[y - 1]) - (b.ap[y] - b.ap[y - 1])) &&
    b.investingCf[y] == -b.capex[y] &&
    b.freeCf[y] == b.operatingCf[y] + b.investingCf[y] &&
    b.financingCf[y] == (b.totalDebt[y] - b.totalDebt[y - 1]) - b.dividends[y] - b.stockRepurchase[y]
  }

  /** Year `y` after all five steps. */
  predicate YearAt(b: Books, p: PlugInputs, y: nat)
    requires Fits(b, p) && 1 <= y <= p.forecastYears
  {
    IncomeAt(b, p, y) && AssetsAt(b, p, y) && EarningsAt(b, p, y) && BalanceAt(b, p, y) && CashFlowsAt(b, y)
  }

  /** A year's facts depend only on the entries of that year and the one before. */
  lemma YearAtKept(a: Books, b: Books, p: PlugInputs, y: nat)
    requires Fits(a, p) && Fits(b, p) && 1 <= y <= p.forecastYears
    requires RowAt(a, y) == RowAt(b, y) && RowAt(a, y - 1) == RowAt(b, y - 1)
    requires YearAt(a, p, y)
    ensures YearAt(b, p, y)
  {
    assert PreliminaryCash(a, y) == PreliminaryCash(b, y);
    assert OtherAssets(a, y) == OtherAssets(b, y);
  }

  /**
   * The debt strategy as `forecast_balance_sheet` runs it, mutating the
   * year's short- and long-term debt and cash branch by branch.
   */
  method ApplyDebtStrategy(prelim: real, minCash: real, maxDebtToEquity: real, target: real,
                           stBefore: real, ltBefore: real, equity: real) returns (r: Result<DebtPlan>)
    ensures r == PlanDebt(prelim, minCash, maxDebtToEquity, target, stBefore, ltBefore, equity)
  {
    var lt := ltBefore;
    var st := stBefore;
    var total := lt + st;
    var cash := 0.0;
    if prelim < minCash {
      var shortfall := minCash - prelim;
      var ltIncrease := shortfall * target;
      var stIncrease := shortfall * (1.0 - target);
      lt := lt + ltIncrease;
      st := st + stIncrease;
      total := lt + st;
      cash := minCash;
      ghost var pl := PlanDebt(prelim, minCash, maxDebtToEquity, target, stBefore, ltBefore, equity);
      assert pl.Ok?;
      assert pl.value.cash == cash;
      assert pl.value.stDebt == stBefore + shortfall * (1.0 - target);
      assert pl.value.ltDebt == ltBefore + shortfall * target;
      assert Ok(DebtPlan(st, lt, cash)) == PlanDebt(prelim, minCash, maxDebtToEquity, target, stBefore, ltBefore, equity);
    } else if prelim > minCash * 2.5 {
      var excess := prelim - minCash * 1.5;
      if equity == 0.0 {
        return Err(ZeroDivisionError);
      }
      var debtToEquity := total / equity;
      if debtToEquity > maxDebtToEquity * 0.5 {
        var reduction := Min(excess, total * 0.3);
        var stReduction := Min(reduction * 0.4, st);
        var ltReduction := Min(reduction - stReduction, lt);
        st := st - stReduction;
        lt := lt - ltReduction;
        total := lt + st;
        cash := prelim - (stReduction + ltReduction);
        assert Ok(DebtPlan(st, lt, cash)) == PlanDebt(prelim, minCash, maxDebtToEquity, target, stBefore, ltBefore, equity);
      } else {
        cash := prelim;
        assert Ok(DebtPlan(st, lt, cash)) == PlanDebt(prelim, minCash, maxDebtToEquity, target, stBefore, ltBefore, equity);
      }
    } else {
      cash := prelim;
      assert Ok(DebtPlan(st, lt, cash)) == PlanDebt(prelim, minCash, maxDebtToEquity, target, stBefore, ltBefore, equity);
    }
    return Ok(DebtPlan(st, lt, cash));
  }

  // The later steps of a year leave the facts of the earlier ones intact.

  lemma IncomeCarried(a: Books, b: Books, p: PlugInputs, y: nat)
    requires Fits(a, p) && Fits(b, p) && 1 <= y <= p.forecastYears
    requires a.revenue == b.revenue && a.cogs == b.cogs && a.grossProfit == b.grossProfit
    requires a.operatingExpenses == b.operatingExpenses && a.ebit == b.ebit
    requires a.depreciation == b.depreciation && a.ebitda == b.ebitda && a.grossPpe[y - 1] == b.grossPpe[y - 1]
    requires IncomeAt(a, p, y)
    ensures IncomeAt(b, p, y)
  {
  }

  lemma AssetsCarried(a: Books, b: Books, p: PlugInputs, y: nat)
    requires Fits(a, p) && Fits(b, p) && 1 <= y <= p.forecastYears
    requires a.revenue == b.revenue && a.cogs == b.cogs && a.depreciation == b.depreciation
    requires a.ar == b.ar && a.inventory == b.inventory && a.ap == b.ap && a.capex == b.capex
    requires a.grossPpe == b.grossPpe && a.accDepreciation == b.accDepreciation && a.netPpe == b.netPpe
    requires AssetsAt(a, p, y)
    ensures AssetsAt(b, p, y)
  {
  }

  lemma EarningsCarried(a: Books, b: Books, p: PlugInputs, y: nat)
    requires Fits(a, p) && Fits(b, p) && 1 <= y <= p.forecastYears
    requires a.ebit == b.ebit && a.interestExpense == b.interestExpense && a.interestIncome == b.interestIncome
    requires a.ebt == b.ebt && a.tax == b.tax && a.netIncome == b.netIncome && a.dividends == b.dividends
    requires a.stockRepurchase == b.stockRepurchase && a.retainedEarnings == b.retainedEarnings
    requires a.treasuryStock == b.treasuryStock && a.commonStock == b.commonStock && a.apic == b.apic
    requires a.otherEquity == b.otherEquity && a.stockholdersEquity == b.stockholdersEquity
    requires a.totalEquity == b.totalEquity
    requires a.stDebt[y - 1] == b.stDebt[y - 1] && a.ltDebt[y - 1] == b.ltDebt[y - 1] && a.cash[y - 1] == b.cash[y - 1]
    requires EarningsAt(a, p, y)
    ensures EarningsAt(b, p, y)
  {
  }

  lemma BalanceCarried(a: Books, b: Books, p: PlugInputs, y: nat)
    requires Fits(a, p) && Fits(b, p) && 1 <= y <= p.forecastYears
    requires RowAt(a, y - 1) == RowAt(b, y - 1)
    requires a.netIncome[y] == b.netIncome[y] && a.depreciation[y] == b.depreciation[y]
    requires a.ar[y] == b.ar[y] && a.inventory[y] == b.inventory[y] && a.ap[y] == b.ap[y]
    requires a.capex[y] == b.capex[y] && a.dividends[y] == b.dividends[y]
    requires a.stockRepurchase[y] == b.stockRepurchase[y] && a.stockholdersEquity[y] == b.stockholdersEquity[y]
    requires a.netPpe[y] == b.netPpe[y] && a.goodwill[y] == b.goodwill[y]
    requires a.otherIntangibles[y] == b.otherIntangibles[y] && a.otherNoncurrentAssets[y] == b.otherNoncurrentAssets[y]
    requires a.stDebt[y] == b.stDebt[y] && a.ltDebt[y] == b.ltDebt[y] && a.totalDebt[y] == b.totalDebt[y]
    requires a.noncurrentLiabilities[y] == b.noncurrentLiabilities[y]
    requires a.currentLiabilities[y] == b.currentLiabilities[y] && a.totalLiabilities[y] == b.totalLiabilities[y]
    requires a.totalEquity[y] == b.totalEquity[y] && a.cash[y] == b.cash[y]
    requires a.currentAssets[y] == b.currentAssets[y] && a.totalAssets[y] == b.totalAssets[y]
    requires BalanceAt(a, p, y)
    ensures BalanceAt(b, p, y)
  {
    assert PreliminaryCash(a, y) == PreliminaryCash(b, y);
    assert OtherAssets(a, y) == OtherAssets(b, y);
  }

  // ---------------------------------------------------------------------
  // The forecaster
  // ---------------------------------------------------------------------

  class Forecaster {
    const inputs: PlugInputs
    var lists: Books

    /** The lists pre-sized to the horizon, with Year 0 initialised. */
    constructor (inputs: PlugInputs)
      ensures this.inputs == inputs
      ensures Sized(lists) && |lists.revenue| == inputs.forecastYears + 1
      ensures OpeningYear(lists, inputs)
    {
      this.inputs := inputs;
      lists := OpeningBooks(inputs);
      OpeningBooksFit(inputs);
    }

    method ForecastIncomeStatement(year: nat)
      requires Fits(lists, inputs) && 1 <= year <= inputs.forecastYears
      modifies this
      ensures lists == old(lists).(revenue := lists.revenue, cogs := lists.cogs, grossProfit := lists.grossProfit,
                                   operatingExpenses := lists.operatingExpenses, ebit := lists.ebit,
                                   depreciation := lists.depreciation, ebitda := lists.ebitda)
      ensures Fits(lists, inputs)
      ensures lists.revenue == old(lists).revenue[year := lists.revenue[year]] &&
              lists.cogs == old(lists).cogs[year := lists.cogs[year]] &&
              lists.grossProfit == old(lists).grossProfit[year := lists.grossProfit[year]] &&
              lists.operatingExpenses == old(lists).operatingExpenses[year := lists.operatingExpenses[year]] &&
              lists.ebit == old(lists).ebit[year := lists.ebit[year]] &&
              lists.depreciation == old(lists).depreciation[year := lists.depreciation[year]] &&
              lists.ebitda == old(lists).ebitda[year := lists.ebitda[year]]
      ensures IncomeAt(lists, inputs, year)
    {
      var b := lists;
      var revenue := b.revenue[year - 1] * (1.0 + inputs.nominalRevenueGrowth[year - 1]);
      var cogs := b.cogs[year - 1] * (1.0 + inputs.nominalCogsGrowth[year - 1]);
      var grossProfit := revenue - cogs;
      var opex := b.operatingExpenses[year - 1] * (1.0 + inputs.nominalOpexGrowth[year - 1]);
      var ebit := grossProfit - opex;
      var depreciation := b.grossPpe[year - 1] * inputs.depreciationRate;
      lists := b.(revenue := b.revenue[year := revenue], cogs := b.cogs[year := cogs],
                  grossProfit := b.grossProfit[year := grossProfit],
                  operatingExpenses := b.operatingExpenses[year := opex], ebit := b.ebit[year := ebit],
                  depreciation := b.depreciation[year := depreciation],
                  ebitda := b.ebitda[year := ebit + depreciation]);
    }

    method ForecastCashBudgetAndWorkingCapital(year: nat)
      requires Fits(lists, inputs) && 1 <= year <= inputs.forecastYears
      modifies this
      ensures lists == old(lists).(ar := lists.ar, inventory := lists.inventory, ap := lists.ap,
                                   capex := lists.capex, grossPpe := lists.grossPpe,
                                   accDepreciation := lists.accDepreciation, netPpe := lists.netPpe)
      ensures Fits(lists, inputs)
      ensures lists.ar == old(lists).ar[year := lists.ar[year]] &&
              lists.inventory == old(lists).inventory[year := lists.inventory[year]] &&
              lists.ap == old(lists).ap[year := lists.ap[year]] &&
              lists.capex == old(lists).capex[year := lists.capex[year]] &&
              lists.grossPpe == old(lists).grossPpe[year := lists.grossPpe[year]] &&
              lists.accDepreciation == old(lists).accDepreciation[year := lists.accDepreciation[year]] &&
              lists.netPpe == old(lists).netPpe[year := lists.netPpe[year]]
      ensures AssetsAt(lists, inputs, year)
    {
      var b := lists;
      var ar := b.revenue[year] * (inputs.arDays / 365.0);
      var inventory := b.cogs[year] * (inputs.inventoryDays / 365.0);
      var ap := b.cogs[year] * (inputs.apDays / 365.0);
      var capex := b.revenue[year] * inputs.capexToRevenue;
      var grossPpe := b.grossPpe[year - 1] + capex;
      var accDepreciation := b.accDepreciation[year - 1] + b.depreciation[year];
      lists := b.(ar := b.ar[year := ar], inventory := b.inventory[year := inventory], ap := b.ap[year := ap],
                  capex := b.capex[year := capex], grossPpe := b.grossPpe[year := grossPpe],
                  accDepreciation := b.accDepreciation[year := accDepreciation],
                  netPpe := b.netPpe[year := grossPpe - accDepreciation]);
    }

    method ForecastDebtAndFinancing(year: nat)
      requires Fits(lists, inputs) && 1 <= year <= inputs.forecastYears
      modifies this
      ensures lists == old(lists).(interestExpense := lists.interestExpense, interestIncome := lists.interestIncome,
                                   ebt := lists.ebt, tax := lists.tax, netIncome := lists.netIncome,
                                   dividends := lists.dividends, stockRepurchase := lists.stockRepurchase,
                                   retainedEarnings := lists.retainedEarnings, treasuryStock := lists.treasuryStock,
                                   commonStock := lists.commonStock, apic := lists.apic,
                                   otherEquity := lists.otherEquity, stockholdersEquity := lists.stockholdersEquity,
                                   totalEquity := lists.totalEquity)
      ensures Fits(lists, inputs)
      ensures lists.interestExpense == old(lists).interestExpense[year := lists.interestExpense[year]] &&
              lists.interestIncome == old(lists).interestIncome[year := lists.interestIncome[year]] &&
              lists.ebt == old(lists).ebt[year := lists.ebt[year]] &&
              lists.tax == old(lists).tax[year := lists.tax[year]] &&
              lists.netIncome == old(lists).netIncome[year := lists.netIncome[year]] &&
              lists.dividends == old(lists).dividends[year := lists.dividends[year]] &&
              lists.stockRepurchase == old(lists).stockRepurchase[year := lists.stockRepurchase[year]] &&
              lists.retainedEarnings == old(lists).retainedEarnings[year := lists.retainedEarnings[year]] &&
              lists.treasuryStock == old(lists).treasuryStock[year := lists.treasuryStock[year]] &&
              lists.commonStock == old(lists).commonStock[year := lists.commonStock[year]] &&
              lists.apic == old(lists).apic[year := lists.apic[year]] &&
              lists.otherEquity == old(lists).otherEquity[year := lists.otherEquity[year]] &&
              lists.stockholdersEquity == old(lists).stockholdersEquity[year := lists.stockholdersEquity[year]] &&
              lists.totalEquity == old(lists).totalEquity[year := lists.totalEquity[year]]
      ensures EarningsAt(lists, inputs, year)
    {
      var b := lists;
      var interestExpense := b.stDebt[year - 1] * inputs.interestRateSt + b.ltDebt[year - 1] * inputs.interestRateLt;
      var interestIncome := b.cash[year - 1] * 0.02;
      var ebt := b.ebit[year] - interestExpense + interestIncome;
      var tax := Floor0(ebt * inputs.taxRate);
      var netIncome := ebt - tax;
      var dividends := netIncome * inputs.dividendPayoutRatio;
      var repurchase := Repurchase(inputs.repurchase, netIncome);
      var retained := b.retainedEarnings[year - 1] + netIncome - dividends;
      var treasury := b.treasuryStock[year - 1] + repurchase;
      var commonStock := b.commonStock[year - 1];
      var apic := b.apic[year - 1];
      var otherEquity := b.otherEquity[year - 1];
      var equity := commonStock + apic + retained - treasury + otherEquity;
      var minorityInterest := b.totalEquity[year - 1] - b.stockholdersEquity[year - 1];
      lists := b.(interestExpense := b.interestExpense[year := interestExpense],
                  interestIncome := b.interestIncome[year := interestIncome],
                  ebt := b.ebt[year := ebt], tax := b.tax[year := tax], netIncome := b.netIncome[year := netIncome],
                  dividends := b.dividends[year := dividends],
                  stockRepurchase := b.stockRepurchase[year := repurchase],
                  retainedEarnings := b.retainedEarnings[year := retained],
                  treasuryStock := b.treasuryStock[year := treasury],
                  commonStock := b.commonStock[year := commonStock], apic := b.apic[year := apic],
                  otherEquity := b.otherEquity[year := otherEquity],
                  stockholdersEquity := b.stockholdersEquity[year := equity],
                  totalEquity := b.totalEquity[year := equity + minorityInterest]);
    }

    /**
     * `forecast_balance_sheet`. The debt-to-equity test of the paydown
     * branch divides by the year's stockholders' equity; when that is zero
     * the step stops with `ZeroDivisionError` after carrying the long-lived
     * assets and last year's debt.
     */
    method ForecastBalanceSheet(year: nat) returns (err: Option<Error>)
      requires Fits(lists, inputs) && 1 <= year <= inputs.forecastYears
      modifies this
      ensures Fits(lists, inputs)
      ensures lists.goodwill == old(lists).goodwill[year := lists.goodwill[year]] &&
              lists.otherIntangibles == old(lists).otherIntangibles[year := lists.otherIntangibles[year]] &&
              lists.otherNoncurrentAssets == old(lists).otherNoncurrentAssets[year := lists.otherNoncurrentAssets[year]] &&
              lists.stDebt == old(lists).stDebt[year := lists.stDebt[year]] &&
              lists.ltDebt == old(lists).ltDebt[year := lists.ltDebt[year]] &&
              lists.totalDebt == old(lists).totalDebt[year := lists.totalDebt[year]]
      ensures err.None? ==>
        lists.cash == old(lists).cash[year := lists.cash[year]] &&
              lists.noncurrentLiabilities == old(lists).noncurrentLiabilities[year := lists.noncurrentLiabilities[year]] &&
              lists.currentLiabilities == old(lists).currentLiabilities[year := lists.currentLiabilities[year]] &&
              lists.totalLiabilities == old(lists).totalLiabilities[year := lists.totalLiabilities[year]] &&
              lists.currentAssets == old(lists).currentAssets[year := lists.currentAssets[year]] &&
              lists.totalAssets == old(lists).totalAssets[year := lists.totalAssets[year]]
      ensures LongLivedAt(lists, year)
      ensures err.None? ==>
        lists == old(lists).(goodwill := lists.goodwill, otherIntangibles := lists.otherIntangibles,
                             otherNoncurrentAssets := lists.otherNoncurrentAssets, cash := lists.cash,
                             stDebt := lists.stDebt, ltDebt := lists.ltDebt, totalDebt := lists.totalDebt,
                             noncurrentLiabilities := lists.noncurrentLiabilities,
                             currentLiabilities := lists.currentLiabilities,
                             totalLiabilities := lists.totalLiabilities,
                             currentAssets := lists.currentAssets, totalAssets := lists.totalAssets) &&
        BalanceAt(lists, inputs, year)
      ensures err.Some? ==>
        err.value == ZeroDivisionError &&
        lists == old(lists).(goodwill := lists.goodwill, otherIntangibles := lists.otherIntangibles,
                             otherNoncurrentAssets := lists.otherNoncurrentAssets,
                             stDebt := lists.stDebt, ltDebt := lists.ltDebt, totalDebt := lists.totalDebt) &&
        lists.stDebt[year] == lists.stDebt[year - 1] && lists.ltDebt[year] == lists.ltDebt[year - 1] &&
        lists.totalDebt[year] == lists.ltDebt[year] + lists.stDebt[year] &&
        PlanDebt(PreliminaryCash(lists, year), inputs.minCashBalance, inputs.maxDebtToEquity,
                 inputs.targetDebtStructure, lists.stDebt[year - 1], lists.ltDebt[year - 1],
                 lists.stockholdersEquity[year]).Err?
    {
      var b := lists;
      var goodwill := b.goodwill[year - 1];
      var intangibles := b.otherIntangibles[year - 1] * 0.98;
      var otherNoncurrent := b.otherNoncurrentAssets[year - 1];

      var operatingCf := b.netIncome[year] + b.depreciation[year] - (b.ar[year] - b.ar[year - 1]) -
                         (b.inventory[year] - b.inventory[year - 1]) + (b.ap[year] - b.ap[year - 1]);
      var investingCf := -b.capex[year];
      var financingCf := -(b.dividends[year] + b.stockRepurchase[year]);
      var prelim := b.cash[year - 1] + operatingCf + investingCf + financingCf;
      assert prelim == PreliminaryCash(b, year);

      var plan := ApplyDebtStrategy(prelim, inputs.minCashBalance, inputs.maxDebtToEquity,
                                    inputs.targetDebtStructure, b.stDebt[year - 1], b.ltDebt[year - 1],
                                    b.stockholdersEquity[year]);
      if plan.Err? {
        lists := b.(goodwill := b.goodwill[year := goodwill],
                    otherIntangibles := b.otherIntangibles[year := intangibles],
                    otherNoncurrentAssets := b.otherNoncurrentAssets[year := otherNoncurrent],
                    stDebt := b.stDebt[year := b.stDebt[year - 1]], ltDebt := b.ltDebt[year := b.ltDebt[year - 1]],
                    totalDebt := b.totalDebt[year := b.ltDebt[year - 1] + b.stDebt[year - 1]]);
        return Some(plan.error);
      }
      var st, lt, cash := plan.value.stDebt, plan.value.ltDebt, plan.value.cash;
      var total := lt + st;

      var noncurrentLiabilities := lt + (b.noncurrentLiabilities[year - 1] - b.ltDebt[year - 1]);
      var currentLiabilities := st + b.ap[year] + (b.currentLiabilities[year - 1] - b.stDebt[year - 1] - b.ap[year - 1]);
      var totalLiabilities := currentLiabilities + noncurrentLiabilities;
      var currentAssets := cash + b.ar[year] + b.inventory[year];
      var totalAssets := currentAssets + b.netPpe[year] + goodwill + intangibles + otherNoncurrent;
      var imbalance := totalAssets - (totalLiabilities + b.totalEquity[year]);
      if Abs(imbalance) > 1.0 {
        cash := cash - imbalance;
        currentAssets := cash + b.ar[year] + b.inventory[year];
        totalAssets := currentAssets + b.netPpe[year] + goodwill + intangibles + otherNoncurrent;
      }
      lists := b.(goodwill := b.goodwill[year := goodwill],
                  otherIntangibles := b.otherIntangibles[year := intangibles],
                  otherNoncurrentAssets := b.otherNoncurrentAssets[year := otherNoncurrent],
                  cash := b.cash[year := cash],
                  stDebt := b.stDebt[year := st], ltDebt := b.ltDebt[year := lt],
                  totalDebt := b.totalDebt[year := total],
                  noncurrentLiabilities := b.noncurrentLiabilities[year := noncurrentLiabilities],
                  currentLiabilities := b.currentLiabilities[year := currentLiabilities],
                  totalLiabilities := b.totalLiabilities[year := totalLiabilities],
                  currentAssets := b.currentAssets[year := currentAssets],
                  totalAssets := b.totalAssets[year := totalAssets]);
      assert OtherAssets(lists, year) == b.ar[year] + b.inventory[year] + b.netPpe[year] + goodwill + intangibles + otherNoncurrent;
      return None;
    }

    method CalculateCashFlows(year: nat)
      requires Fits(lists, inputs) && 1 <= year <= inputs.forecastYears
      modifies this
      ensures lists == old(lists).(operatingCf := lists.operatingCf, investingCf := lists.investingCf,
                                   freeCf := lists.freeCf, financingCf := lists.financingCf)
      ensures Fits(lists, inputs)
      ensures lists.operatingCf == old(lists).operatingCf[year := lists.operatingCf[year]] &&
              lists.investingCf == old(lists).investingCf[year := lists.investingCf[year]] &&
              lists.freeCf == old(lists).freeCf[year := lists.freeCf[year]] &&
              lists.financingCf == old(lists).financingCf[year := lists.financingCf[year]]
      ensures CashFlowsAt(lists, year)
    {
      var b := lists;
      var changeInWc := (b.ar[year] - b.ar[year - 1]) + (b.inventory[year] - b.inventory[year - 1]) -
                        (b.ap[year] - b.ap[year - 1]);
      var operatingCf := b.netIncome[year] + b.depreciation[year] - changeInWc;
      var investingCf := -b.capex[year];
      var debtChange := b.totalDebt[year] - b.totalDebt[year - 1];
      lists := b.(operatingCf := b.operatingCf[year := operatingCf],
                  investingCf := b.investingCf[year := investingCf],
                  freeCf := b.freeCf[year := operatingCf + investingCf],
                  financingCf := b.financingCf[year := debtChange - b.dividends[year] - b.stockRepurchase[year]]);
    }

    /** One year of `run_forecast`: the five steps in order. */
    method ForecastYear(year: nat) returns (err: Option<Error>)
      requires Fits(lists, inputs) && 1 <= year <= inputs.forecastYears
      modifies this
      ensures Fits(lists, inputs) && OnlyYearChanged(old(lists), lists, year)
      ensures err.Some? ==> err.value == ZeroDivisionError
      ensures err.None? ==> YearAt(lists, inputs, year)
    {
      ForecastIncomeStatement(year);
      ghost var l1 := lists;
      ForecastCashBudgetAndWorkingCapital(year);
      ghost var l2 := lists;
      ForecastDebtAndFinancing(year);
      ghost var l3 := lists;
      err := ForecastBalanceSheet(year);
      if err.Some? {
        return;
      }
      ghost var l4 := lists;
      CalculateCashFlows(year);
      forall i | 0 <= i < |lists.revenue| && i != year
        ensures RowAt(old(lists), i) == RowAt(lists, i)
      {
      }
      IncomeCarried(l1, lists, inputs, year);
      AssetsCarried(l2, lists, inputs, year);
      EarningsCarried(l3, lists, inputs, year);
      BalanceCarried(l4, lists, inputs, year);
    }

    /**
     * The divisions `_print_detailed_statements` makes for each forecast
     * year (company_forecast/forecaster.py:494-596): the margins divide by
     * revenue, ROE and D/E by stockholders' equity, ROA and D/A by total
     * assets and the current ratio by current liabilities, none of them
     * guarded. Only the figures are modelled, not the text.
     */
    method PrintDetailedStatements() returns (err: Option<Error>)
      requires Fits(lists, inputs)
      ensures err.Some? <==> exists y :: 1 <= y <= inputs.forecastYears && DetailedDivisorZero(lists, y)
      ensures err.Some? ==> err.value == ZeroDivisionError
    {
      for year := 1 to inputs.forecastYears + 1
        invariant forall y :: 1 <= y < year ==> !DetailedDivisorZero(lists, y)
      {
        if DetailedDivisorZero(lists, year) {
          return Some(ZeroDivisionError);
        }
      }
      return None;
    }

    /**
     * `run_forecast`: the five steps for each year in order. A
     * `ZeroDivisionError` in a balance-sheet step ends the run; otherwise
     * every forecast year satisfies all five steps' facts and Year 0 is
     * left as it was. The company forecaster then prints the detailed
     * statements (`printStatements`), which raises `ZeroDivisionError` when
     * a forecast year has a zero divisor; the P&G forecaster does not print
     * them (pg_forecast/forecaster.py:439-486).
     */
    method RunForecast(printStatements: bool) returns (err: Option<Error>)
      requires Fits(lists, inputs)
      modifies this
      ensures Fits(lists, inputs)
      ensures RowAt(lists, 0) == RowAt(old(lists), 0)
      ensures err.Some? ==> err.value == ZeroDivisionError
      ensures err.None? ==> forall y :: 1 <= y <= inputs.forecastYears ==> YearAt(lists, inputs, y)
      ensures printStatements && (exists y :: 1 <= y <= inputs.forecastYears && DetailedDivisorZero(lists, y))
              ==> err.Some?
    {
      for year := 1 to inputs.forecastYears + 1
        invariant Fits(lists, inputs)
        invariant RowAt(lists, 0) == RowAt(old(lists), 0)
        invariant forall y :: 1 <= y < year ==> YearAt(lists, inputs, y)
      {
        ghost var before := lists;
        err := ForecastYear(year);
        if err.Some? {
          return;
        }
        forall y | 1 <= y < year
          ensures YearAt(lists, inputs, y)
        {
          YearAtKept(before, lists, inputs, y);
        }
      }
      err := None;
      if printStatements {
        err := PrintDetailedStatements();
      }
    }
  }

  /**
   * A divisor of the detailed statements is zero in year `y`: revenue,
   * stockholders' equity, total assets or current liabilities.
   */
  predicate DetailedDivisorZero(b: Books, y: nat)
    requires Sized(b) && y < |b.revenue|
  {
    b.revenue[y] == 0.0 || b.stockholdersEquity[y] == 0.0 ||
    b.totalAssets[y] == 0.0 || b.currentLiabilities[y] == 0.0
  }

  // ---------------------------------------------------------------------
  // Properties of the forecast
  // ---------------------------------------------------------------------

  /** After the plug, total assets are within 1 of liabilities plus equity. */
  lemma PlugBalances(b: Books, p: PlugInputs, y: nat)
    requires Fits(b, p) && 1 <= y <= p.forecastYears
    requires BalanceAt(b, p, y)
    ensures Abs(b.totalAssets[y] - (b.totalLiabilities[y] + b.totalEquity[y])) <= 1.0
  {
    assert b.totalAssets[y] == b.cash[y] + OtherAssets(b, y);
  }

  /**
   * The cash-flow statement reconciles with the change in cash unless the
   * plug moved cash, in which case the sheet balances exactly. Year 1 needs
   * the opening total debt to be the sum of its two parts.
   */
  lemma CashFlowsReconcile(b: Books, p: PlugInputs, y: nat)
    requires Fits(b, p) && 1 <= y <= p.forecastYears
    requires BalanceAt(b, p, y) && CashFlowsAt(b, y)
    requires b.totalDebt[y - 1] == b.ltDebt[y - 1] + b.stDebt[y - 1]
    ensures b.cash[y] - b.cash[y - 1] == b.operatingCf[y] + b.investingCf[y] + b.financingCf[y] ||
            b.totalAssets[y] == b.totalLiabilities[y] + b.totalEquity[y]
  {
    assert b.totalAssets[y] == b.cash[y] + OtherAssets(b, y);
  }

  /** From Year 2 on, last year's total debt is the sum of its two parts. */
  lemma TotalDebtIsSum(b: Books, p: PlugInputs, y: nat)
    requires Fits(b, p) && 2 <= y <= p.forecastYears
    requires BalanceAt(b, p, y - 1)
    ensures b.totalDebt[y - 1] == b.ltDebt[y - 1] + b.stDebt[y - 1]
  {
  }

  /** Retained earnings after k years: the opening balance plus the years' net income less dividends. */
  lemma {:induction false} RetainedEarningsRoll(b: Books, p: PlugInputs, k: nat)
    requires Fits(b, p) && k <= p.forecastYears
    requires forall y :: 1 <= y <= k ==> EarningsAt(b, p, y)
    ensures b.retainedEarnings[k] == b.retainedEarnings[0] + Sum(b.netIncome[1..k + 1]) - Sum(b.dividends[1..k + 1])
  {
    if k > 0 {
      RetainedEarningsRoll(b, p, k - 1);
      assert b.netIncome[1..k + 1][..k - 1] == b.netIncome[1..k];
      assert b.dividends[1..k + 1][..k - 1] == b.dividends[1..k];
      assert EarningsAt(b, p, k);
    }
  }

  /** Under a fixed repurchase, treasury stock grows by the same amount every year. */
  lemma {:induction false} FixedRepurchaseAccumulates(b: Books, p: PlugInputs, k: nat)
    requires Fits(b, p) && k <= p.forecastYears && p.repurchase.FixedAmount?
    requires forall y :: 1 <= y <= k ==> EarningsAt(b, p, y)
    ensures b.treasuryStock[k] == b.treasuryStock[0] + (k as real) * CompanyInputs.GetOr(p.repurchase.amount, 5000.0)
  {
    if k > 0 {
      FixedRepurchaseAccumulates(b, p, k - 1);
      assert EarningsAt(b, p, k);
    }
  }

  /**
   * The minority amount (total less stockholders' equity) and the non-debt
   * liabilities never move from their Year-0 values.
   */
  lemma {:induction false} CarriedAmounts(b: Books, p: PlugInputs, k: nat)
    requires Fits(b, p) && k <= p.forecastYears
    requires forall y :: 1 <= y <= k ==> EarningsAt(b, p, y) && BalanceAt(b, p, y)
    ensures b.totalEquity[k] - b.stockholdersEquity[k] == b.totalEquity[0] - b.stockholdersEquity[0]
    ensures b.noncurrentLiabilities[k] - b.ltDebt[k] == b.noncurrentLiabilities[0] - b.ltDebt[0]
    ensures b.currentLiabilities[k] - b.stDebt[k] - b.ap[k] == b.currentLiabilities[0] - b.stDebt[0] - b.ap[0]
  {
    if k > 0 {
      CarriedAmounts(b, p, k - 1);
      assert EarningsAt(b, p, k) && BalanceAt(b, p, k);
    }
  }

  /** Tax is never negative and a pre-tax loss pays none. */
  lemma TaxFloor(b: Books, p: PlugInputs, y: nat)
    requires Fits(b, p) && 1 <= y <= p.forecastYears
    requires EarningsAt(b, p, y) && p.taxRate >= 0.0
    ensures b.tax[y] >= 0.0
    ensures b.ebt[y] <= 0.0 ==> b.tax[y] == 0.0 && b.netIncome[y] == b.ebt[y]
  {
    if b.ebt[y] <= 0.0 {
      MulNonPos(b.ebt[y], p.taxRate);
    }
  }
}
