/**
 * The inputs of the textbook forecasting model (forecast_model/ and
 * example_forecast_model/): fixed Year-0 amounts, per-year rate lists for
 * forecast years 1 .. n (index 0 is Year 1) and policy percentages.
 */
module TextbookInputs {

  datatype InputData = InputData(
    // fixed inputs
    fixedAssets: real,
    linearDepreciationYears: real,
    corporateTaxRate: real,
    initialInventoryUnits: real,
    initialPurchasePrice: real,
    estimatedOverheadExpenses: real,
    adminSalesPayroll: real,
    ltLoanYears: real,
    stLoanYears: real,
    // per-year rates, Year 1 .. n
    inflationRate: seq<real>,
    realIncreaseSellingPrice: seq<real>,
    realIncreasePurchasePrice: seq<real>,
    realIncreaseOverhead: seq<real>,
    realIncreasePayroll: seq<real>,
    increaseSalesVolume: seq<real>,
    realInterestRate: real,
    riskPremiumDebt: real,
    riskPremiumStInvestment: real,
    // policies
    promotionAdvertisingPct: real,
    inventoryPctVolume: real,
    accountsReceivablePct: real,
    advancePaymentsFromCustomerPct: real,
    accountsPayablePct: real,
    advancePaymentsToSuppliersPct: real,
    payoutRatio: real,
    pctSalesAsCash: real,
    pctFinancingWithDebt: real,
    minimumCashRequired: real,
    sellingCommissions: real,
    stockRepurchasePctDepreciation: seq<real>,
    // market research
    initialSellingPrice: real,
    // Year-0 sales units `b0 * price ** b`, taken as given
    initialSalesUnits: real)

  /** Every per-year list covers the `n` forecast years. */
  predicate Covers(inputs: InputData, n: nat) {
    |inputs.inflationRate| >= n && |inputs.realIncreaseSellingPrice| >= n &&
    |inputs.realIncreasePurchasePrice| >= n && |inputs.realIncreaseOverhead| >= n &&
    |inputs.realIncreasePayroll| >= n && |inputs.increaseSalesVolume| >= n &&
    |inputs.stockRepurchasePctDepreciation| >= n
  }
}
