/**
 * The driver dictionary that InputCalculator hands to the year-by-year
 * engine: Year-0 figures taken from the statements and the ratios derived
 * from history. Keys that the engine reads with a default (`inputs.get`)
 * are optional.
 */
module CompanyInputs {
  import opened Wrappers

  datatype Inputs = Inputs(
    // income statement, Year 0
    revenueYear0: real,
    cogsYear0: real,
    grossProfitYear0: real,
    sgaYear0: real,
    operatingIncomeYear0: real,
    depreciationYear0: real,
    interestExpenseYear0: real,
    pretaxIncomeYear0: real,
    taxProvisionYear0: real,
    netIncomeYear0: real,
    // balance sheet, Year 0
    cashYear0: real,
    accountsReceivableYear0: real,
    inventoryYear0: real,
    currentAssetsYear0: real,
    netPpeYear0: real,
    grossPpeYear0: real,
    accumulatedDepreciationYear0: real,
    goodwillYear0: real,
    intangibleAssetsYear0: real,
    totalAssetsYear0: real,
    accountsPayableYear0: real,
    shortTermDebtYear0: real,
    currentLiabilitiesYear0: real,
    longTermDebtYear0: real,
    totalLiabilitiesYear0: real,
    retainedEarningsYear0: real,
    totalEquityYear0: real,
    minorityInterestYear0: Option<real>,
    // cash flow statement, Year 0
    operatingCashFlowYear0: real,
    capexYear0: real,
    dividendsPaidYear0: real,
    stockRepurchaseYear0: real,
    // drivers
    revenueGrowth: seq<real>,
    cogsPctRevenue: real,
    sgaPctRevenue: real,
    capexPctRevenue: real,
    depreciationRate: real,
    arPctRevenue: real,
    inventoryPctCogs: real,
    apPctCogs: real,
    minCashPctRevenue: real,
    taxRate: real,
    payoutRatio: real,
    costOfDebt: real,
    costOfDebtByYear: Option<seq<real>>,
    returnStInvestment: real,
    returnStInvestmentByYear: Option<seq<real>>,
    pctFinancingWithDebt: real,
    stLoanYears: Option<real>,
    ltLoanYears: Option<real>
  )

  /** `inputs.get(key, [scalar] * n)`: the per-year list when given, else n copies of the scalar. */
  function ByYear(byYear: Option<seq<real>>, scalar: real, n: nat): (r: seq<real>)
    ensures byYear.Some? ==> r == byYear.value
    ensures byYear.None? ==> |r| == n && forall i :: 0 <= i < n ==> r[i] == scalar
  {
    if byYear.Some? then byYear.value else seq(n, _ => scalar)
  }

  /** `inputs.get(key, d)` for a scalar. */
  function GetOr(x: Option<real>, d: real): (r: real)
    ensures x.Some? ==> r == x.value
    ensures x.None? ==> r == d
  {
    if x.Some? then x.value else d
  }
}
