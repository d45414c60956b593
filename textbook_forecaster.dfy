/**
 * Forecaster of the textbook model (example_forecast_model/forecaster.py):
 * the intermediate tables first, then Year 0 of the cash budget, the debt
 * schedule and the balance sheet, then, year by year, the income
 * statement, the cash budget, the debt schedule and the balance sheet.
 *
 * The run uses the corrected opening of the debt schedule
 * (`InitializeYear0Loans` with `Year0VintagesFixed`) and the corrected
 * balance-sheet column (`CalculateYear` with `ColumnOf`), not the versions
 * the forecaster calls as written.
 *
 * What this corrected run keeps, year after year: the debt schedule repays exactly
 * what the cash budget paid, the cash never falls below the minimum (with
 * a positive debt share), and the balance sheet's check stays at its
 * Year-0 value, which is the cash Year 0 raised beyond the minimum.
 */
module TextbookForecaster {
  import opened Wrappers
  import opened RealArith
  import opened TextbookInputs
  import opened TextbookIntermediate
  import opened TextbookDebtSchedule
  import opened TextbookCashBudget
  import opened TextbookIncomeStatement
  import opened TextbookBalanceSheet

  /** The lists of the four statements at one point of the run. */
  datatype Books = Books(cash: CashLists, debt: DebtLists, income: IncomeLists, balance: BalanceLists)

  // ---------------------------------------------------------------------
  // What the intermediate tables give each year
  // ---------------------------------------------------------------------

  /** The lengths of the intermediate lists the yearly statements read. */
  ghost predicate TablesShaped(im: IntermediateLists, n: nat) {
    n >= 1 &&
    |im.totalSalesRevenue| == n && |im.cogs| == n && |im.totalAsExpenses| == n && |im.purchasesValue| == n &&
    |im.costOfDebt| == n && |im.returnStInvestment| == n &&
    |im.totalSalesInflows| == n && |im.totalPurchasesOutflows| == n &&
    |im.creditSales| == n && |im.advancePaymentsFromCustomers| == n &&
    |im.purchasesOnCredit| == n && |im.advancePaymentsToSuppliers| == n &&
    |im.totalDepreciation| == n + 1 && |im.investmentFixedAssets| == n + 1 && |im.minCashRequired| == n + 1 &&
    |im.finalInventoryValue| == n + 1 && |im.netFixedAssets| == n + 1
  }

  /**
   * The four accounts the intermediate tables keep for Year i + 1: cash
   * from sales and for purchases against the credit and advance parts
   * held, the stock account, and the fixed-asset account.
   */
  ghost predicate YearRolls(im: IntermediateLists, n: nat, i: nat)
    requires TablesShaped(im, n) && i < n
  {
    im.totalSalesInflows[i] ==
      im.totalSalesRevenue[i] - (CreditHeld(im.creditSales, i + 1) - CreditHeld(im.creditSales, i)) +
      (AdvanceHeld(im.advancePaymentsFromCustomers, i + 1, n) - AdvanceHeld(im.advancePaymentsFromCustomers, i, n)) &&
    im.totalPurchasesOutflows[i] ==
      im.purchasesValue[i] - (CreditHeld(im.purchasesOnCredit, i + 1) - CreditHeld(im.purchasesOnCredit, i)) +
      (AdvanceHeld(im.advancePaymentsToSuppliers, i + 1, n) - AdvanceHeld(im.advancePaymentsToSuppliers, i, n)) &&
    im.finalInventoryValue[i + 1] == im.finalInventoryValue[i] + im.purchasesValue[i] - im.cogs[i] &&
    im.netFixedAssets[i + 1] == im.netFixedAssets[i] + im.investmentFixedAssets[i + 1] - im.totalDepreciation[i + 1]
  }

  /** `calculate_all` leaves tables with those lengths and those accounts for every year. */
  lemma TablesRoll(inputs: InputData, n: nat, im: IntermediateLists, i: nat)
    requires Forecasted(inputs, n, im) && i < n
    ensures TablesShaped(im, n) && YearRolls(im, n, i)
    ensures im.finalInventoryValue[0] == Times(inputs.initialInventoryUnits, inputs.initialPurchasePrice)
    ensures im.netFixedAssets[0] == inputs.fixedAssets
  {
    CashTiming(im.totalSalesRevenue, im.creditSales, im.advancePaymentsFromCustomers, im.inflowCurrentYear,
               inputs.accountsReceivablePct, inputs.advancePaymentsFromCustomerPct, im.salesRevenueCurrentYearCash,
               im.accountsReceivableInflow, im.advancePaymentsInflow, im.totalSalesInflows, n, i);
    CashTiming(im.purchasesValue, im.purchasesOnCredit, im.advancePaymentsToSuppliers, im.purchasesPaidSameYear,
               inputs.accountsPayablePct, inputs.advancePaymentsToSuppliersPct, im.purchasesPaidCurrentYearCash,
               im.accountsPayableOutflow, im.advancePaymentsOutflow, im.totalPurchasesOutflows, n, i);
    InventoryRoll(im.finalInventoryUnits, im.initialInventoryUnits, im.purchasesUnits, im.salesUnits,
                  inputs.inventoryPctVolume, inputs.initialInventoryUnits, im.unitCost, im.initialInventoryValue,
                  im.purchasesValue, im.finalInventoryValue, im.cogs, im.nominalIncreasePurchasing,
                  inputs.initialPurchasePrice, n, i);
    assert FixedAssetYear(im.investmentByYear, im.totalDepreciation, im.cumulatedDepreciation, im.netFixedAssets,
                          inputs.increaseSalesVolume, inputs.linearDepreciationYears, n, i + 1);
  }

  /** What the yearly statements use of the intermediate tables. */
  ghost predicate TablesReady(inputs: InputData, n: nat, im: IntermediateLists) {
    TablesShaped(im, n) &&
    im.finalInventoryValue[0] == Times(inputs.initialInventoryUnits, inputs.initialPurchasePrice) &&
    im.netFixedAssets[0] == inputs.fixedAssets &&
    forall i :: 0 <= i < n ==> YearRolls(im, n, i)
  }

  /** `calculate_all` leaves the tables ready for every year. */
  lemma ForecastedTablesReady(inputs: InputData, n: nat, im: IntermediateLists)
    requires Forecasted(inputs, n, im)
    ensures TablesReady(inputs, n, im)
  {
    forall i | 0 <= i < n
      ensures YearRolls(im, n, i)
    {
      TablesRoll(inputs, n, im, i);
    }
  }

  // ---------------------------------------------------------------------
  // The state the run keeps after Year y
  // ---------------------------------------------------------------------

  /** Every balance-sheet list holds Years 0 .. y. */
  ghost predicate BalanceShaped(l: BalanceLists, y: nat) {
    |l.cash| == y + 1 && |l.accountsReceivable| == y + 1 && |l.inventory| == y + 1 &&
    |l.advancePaymentsPaid| == y + 1 && |l.stInvestment| == y + 1 && |l.netFixedAssets| == y + 1 &&
    |l.accountsPayable| == y + 1 && |l.advancePaymentsReceived| == y + 1 && |l.stDebt| == y + 1 &&
    |l.ltDebt| == y + 1 && |l.equityInvestment| == y + 1 && |l.retainedEarnings| == y + 1 &&
    |l.currentYearNi| == y + 1 && |l.repurchaseEquity| == y + 1 && |l.checkDifference| == y + 1
  }

  /** Every statement holds Years 0 .. y, and the long-term table has one vintage per year. */
  ghost predicate Shaped(inputs: InputData, n: nat, y: nat, b: Books) {
    y <= n && Aligned(b.cash, y) && Retained(b.income, y) &&
    |b.debt.stEndingBalance| == y + 1 && |b.debt.ltEndingBalance| == y + 1 &&
    Vintages(b.debt.ltLoansByYear, b.debt.ltPrincipalPaymentsByYear, y, inputs.ltLoanYears) &&
    BalanceShaped(b.balance, y)
  }

  /**
   * The debt schedule follows the cash budget: vintage k is Year k's
   * long-term loan, and each year's balances move by that year's new loans
   * less the principal the budget paid.
   */
  ghost predicate DebtFollowsBudget(b: Books, y: nat)
    requires |b.debt.ltLoansByYear| == y + 1 && Singletons(b.debt.ltLoansByYear) && Aligned(b.cash, y)
    requires |b.debt.stEndingBalance| == y + 1 && |b.debt.ltEndingBalance| == y + 1
  {
    (forall v :: 0 <= v <= y ==> b.debt.ltLoansByYear[v][0] == b.cash.ltLoan[v]) &&
    (forall k :: 1 <= k <= y ==>
      b.debt.stEndingBalance[k] == b.debt.stEndingBalance[k - 1] + b.cash.stLoan[k] - b.cash.stLoanPrincipalPayment[k] &&
      b.debt.ltEndingBalance[k] == b.debt.ltEndingBalance[k - 1] + b.cash.ltLoan[k] - b.cash.ltLoanPrincipalPayment[k])
  }

  /** The balance sheet's Year-y column holds what the other statements hold for Year y. */
  ghost predicate ColumnFromStatements(im: IntermediateLists, n: nat, y: nat, b: Books)
    requires TablesShaped(im, n) && y <= n && BalanceShaped(b.balance, y) && Aligned(b.cash, y) && Retained(b.income, y)
    requires |b.debt.stEndingBalance| == y + 1 && |b.debt.ltEndingBalance| == y + 1
  {
    var c := ColumnAt(b.balance, y);
    c.cash == b.cash.cumulatedNcb[y] && c.stInvestment == b.cash.stInvestment[y] &&
    c.accountsReceivable == CreditHeld(im.creditSales, y) && c.accountsPayable == CreditHeld(im.purchasesOnCredit, y) &&
    c.advancePaymentsPaid == AdvanceHeld(im.advancePaymentsToSuppliers, y, n) &&
    c.advancePaymentsReceived == AdvanceHeld(im.advancePaymentsFromCustomers, y, n) &&
    c.inventory == im.finalInventoryValue[y] && c.netFixedAssets == im.netFixedAssets[y] &&
    c.stDebt == b.debt.stEndingBalance[y] && c.ltDebt == b.debt.ltEndingBalance[y] &&
    c.retainedEarnings == b.income.cumulatedRetainedEarnings[y] && c.currentYearNi == b.income.netIncome[y] &&
    b.balance.checkDifference[y] == CheckOf(c)
  }

  /** Every year's check equals Year 0's. */
  ghost predicate CheckConstant(l: BalanceLists, y: nat)
    requires |l.checkDifference| == y + 1
  {
    forall k :: 0 <= k <= y ==> l.checkDifference[k] == l.checkDifference[0]
  }

  /** With a positive debt share and investment returns no worse than -100%, the cash stays above the floor. */
  ghost predicate FloorKept(inputs: InputData, im: IntermediateLists, l: CashLists) {
    inputs.pctFinancingWithDebt > 0.0 && (forall i :: 0 <= i < |im.returnStInvestment| ==> im.returnStInvestment[i] >= -1.0)
    ==> AboveFloor(l, im.minCashRequired)
  }

  /** The state after Year y. */
  ghost predicate Synced(inputs: InputData, im: IntermediateLists, n: nat, y: nat, b: Books) {
    TablesShaped(im, n) && Shaped(inputs, n, y, b) && DebtFollowsBudget(b, y) &&
    ColumnFromStatements(im, n, y, b) && CheckConstant(b.balance, y) &&
    Rolled(b.cash) && FloorKept(inputs, im, b.cash)
  }

  // ---------------------------------------------------------------------
  // Year 0
  // ---------------------------------------------------------------------

  /** The Year-0 budget `run_forecast` starts from. */
  function Year0Budget(inputs: InputData, im: IntermediateLists): Year0Cash
    requires |im.advancePaymentsFromCustomers| > 0 && |im.advancePaymentsToSuppliers| > 0
  {
    Year0Of(im.advancePaymentsFromCustomers[0], Times(inputs.initialInventoryUnits, inputs.initialPurchasePrice),
            im.advancePaymentsToSuppliers[0], inputs.fixedAssets, inputs.minimumCashRequired,
            inputs.pctFinancingWithDebt)
  }

  /**
   * The books after Year 0: the budget's Year 0, the schedule opened with
   * the Year-0 loans, the statement's Year-0 entries, and the Year-0
   * column with the equity the budget raised.
   */
  function Year0Books(inputs: InputData, im: IntermediateLists): Books
    requires inputs.ltLoanYears != 0.0
    requires |im.advancePaymentsFromCustomers| > 0 && |im.advancePaymentsToSuppliers| > 0 && |im.finalInventoryValue| > 0
  {
    var y0 := Year0Budget(inputs, im);
    var (loans, payments) := Year0VintagesFixed(y0.ltLoan, inputs.ltLoanYears);
    Books(WithYear0(EmptyLists(), y0, inputs.minimumCashRequired),
          TextbookDebtSchedule.SeedLists().(stEndingBalance := [y0.stLoan], ltEndingBalance := [y0.ltLoan],
                       ltLoansByYear := loans, ltPrincipalPaymentsByYear := payments),
          StartLists().(incomeTaxes := [0.0], ebt := [0.0], netIncome := [0.0], interestPayments := [0.0]),
          WithColumn0(OpeningLists(inputs).(equityInvestment := [y0.equity]), im.finalInventoryValue[0],
                      im.advancePaymentsToSuppliers[0], im.advancePaymentsFromCustomers[0], y0.stLoan, y0.ltLoan))
  }

  /**
   * Year 0 starts the run in step, and its check is the Year-0 net cash
   * balance less the minimum cash kept as cash: 0 exactly when Year 0
   * raised no more than it needed.
   */
  lemma Year0Synced(inputs: InputData, n: nat, im: IntermediateLists)
    requires TablesReady(inputs, n, im) && inputs.ltLoanYears != 0.0
    ensures Synced(inputs, im, n, 0, Year0Books(inputs, im))
    ensures var b := Year0Books(inputs, im);
      b.balance.checkDifference[0] == b.cash.yearNcb[0] - b.cash.cumulatedNcb[0]
  {
    var y0 := Year0Budget(inputs, im);
    var b := Year0Books(inputs, im);
    Year0VintagesFixedAreVintages(y0.ltLoan, inputs.ltLoanYears);
    PreseededRetained();
    Year0Starts(y0, inputs.minimumCashRequired, im.minCashRequired);
    Year0Column(inputs, im.finalInventoryValue[0], im.advancePaymentsToSuppliers[0],
                im.advancePaymentsFromCustomers[0], y0.stLoan, y0.ltLoan, y0.equity);
  }

  // ---------------------------------------------------------------------
  // One year
  // ---------------------------------------------------------------------

  /** What a year of `run_forecast` needs from the state before it. */
  ghost predicate StepReady(inputs: InputData, im: IntermediateLists, n: nat, year: nat, b: Books) {
    1 <= year <= n && TablesShaped(im, n) && Covers(inputs, n) && Shaped(inputs, n, year - 1, b) &&
    inputs.stLoanYears != 0.0 && inputs.pctFinancingWithDebt != 0.0
  }

  /** The statement of `year`, computed from the closing balances of the year before. */
  function IncomeYearFor(inputs: InputData, im: IntermediateLists, n: nat, year: nat, b: Books): IncomeYear
    requires StepReady(inputs, im, n, year, b)
  {
    var cod := im.costOfDebt[year - 1];
    IncomeYearOf(im.totalSalesRevenue[year - 1], im.cogs[year - 1], im.totalAsExpenses[year - 1],
                 im.totalDepreciation[year],
                 InterestOn(OpeningBalance(b.debt.stEndingBalance, year), cod) +
                 InterestOn(OpeningBalance(b.debt.ltEndingBalance, year), cod),
                 StReturnOf(year, b.cash.stInvestment, im.returnStInvestment),
                 inputs.corporateTaxRate, inputs.payoutRatio)
  }

  /** The schedule after `update_st_debt` and `update_lt_debt` with the budget's loans of `year`. */
  function DebtAfter(debt: DebtLists, year: nat, stLoan: real, stPrincipal: real, ltLoan: real, years: real): DebtLists
    requires 1 <= year <= |debt.stEndingBalance| && year <= |debt.ltEndingBalance|
    requires |debt.ltLoansByYear| == |debt.ltPrincipalPaymentsByYear| && Singletons(debt.ltLoansByYear) && years != 0.0
  {
    var (loans, payments) := UpdateVintages(debt.ltLoansByYear, debt.ltPrincipalPaymentsByYear, year, ltLoan, years);
    debt.(stBeginningBalance := debt.stBeginningBalance + [debt.stEndingBalance[year - 1]],
          stEndingBalance := debt.stEndingBalance + [debt.stEndingBalance[year - 1] - stPrincipal + stLoan],
          ltBeginningBalance := debt.ltBeginningBalance + [debt.ltEndingBalance[year - 1]],
          ltEndingBalance := debt.ltEndingBalance + [debt.ltEndingBalance[year - 1] + ltLoan - PrincipalDue(payments, year)],
          ltLoansByYear := loans, ltPrincipalPaymentsByYear := payments)
  }

  /**
   * What `run_forecast` computes for `year`: the income statement from the
   * closing balances of the year before, then the cash budget reading its
   * tax and dividends.
   */
  ghost predicate Computed(inputs: InputData, im: IntermediateLists, n: nat, year: nat, b: Books,
                           iy: IncomeYear, c: CashYear)
    requires StepReady(inputs, im, n, year, b)
  {
    iy == IncomeYearFor(inputs, im, n, year, b) &&
    var income := WithIncomeYear(b.income, iy, year);
    c == CashYearOf(DriversOf(year, im, inputs, b.debt, income.incomeTaxes, income.nextYearDividends, b.cash),
                    inputs.stLoanYears, inputs.pctFinancingWithDebt)
  }

  /**
   * One year of `run_forecast` entered in the books: the statement's year
   * `iy`, the budget's year `c`, the schedule updated with the budget's
   * loans, then the balance-sheet column.
   */
  ghost predicate Stepped(inputs: InputData, im: IntermediateLists, n: nat, year: nat, b: Books,
                          iy: IncomeYear, c: CashYear, b': Books)
    requires StepReady(inputs, im, n, year, b)
  {
    b'.income == WithIncomeYear(b.income, iy, year) && b'.cash == WithYear(b.cash, c) &&
    b'.debt == DebtAfter(b.debt, year, c.stLoan, c.stLoanPrincipalPayment, c.ltLoan, inputs.ltLoanYears) &&
    ColumnReadable(year, n, im, b'.cash, b'.debt, b'.income, b.balance) &&
    b'.balance == WithColumn(b.balance, ColumnOf(year, n, im, b'.cash, b'.debt, b'.income, b.balance))
  }

  /** The shapes carry over a year. */
  lemma StepShapes(inputs: InputData, im: IntermediateLists, n: nat, year: nat, b: Books,
                   iy: IncomeYear, c: CashYear, b': Books)
    requires StepReady(inputs, im, n, year, b) && Stepped(inputs, im, n, year, b, iy, c, b')
    ensures Shaped(inputs, n, year, b')
  {
    RetainedStep(b.income, iy, year);
    VintagesStep(b.debt.ltLoansByYear, b.debt.ltPrincipalPaymentsByYear, year, c.ltLoan, inputs.ltLoanYears);
  }

  /** The budget of `year` pays the long-term principal the schedule has due. */
  lemma ComputedPaysDue(inputs: InputData, im: IntermediateLists, n: nat, year: nat, b: Books,
                        iy: IncomeYear, c: CashYear)
    requires StepReady(inputs, im, n, year, b) && Computed(inputs, im, n, year, b, iy, c)
    ensures c.ltLoanPrincipalPayment == PrincipalDue(b.debt.ltPrincipalPaymentsByYear, year)
  {
    var income := WithIncomeYear(b.income, iy, year);
    YearNcbIsFlows(DriversOf(year, im, inputs, b.debt, income.incomeTaxes, income.nextYearDividends, b.cash),
                   inputs.stLoanYears, inputs.pctFinancingWithDebt);
  }

  /** The schedule keeps following the budget. */
  lemma StepDebt(year: nat, b: Books, c: CashYear, years: real, b': Books)
    requires year >= 1 && Vintages(b.debt.ltLoansByYear, b.debt.ltPrincipalPaymentsByYear, year - 1, years)
    requires Aligned(b.cash, year - 1) && |b.debt.stEndingBalance| == year && |b.debt.ltEndingBalance| == year
    requires b'.cash == WithYear(b.cash, c) && Aligned(b'.cash, year)
    requires b'.debt == DebtAfter(b.debt, year, c.stLoan, c.stLoanPrincipalPayment, c.ltLoan, years)
    requires DebtFollowsBudget(b, year - 1)
    requires c.ltLoanPrincipalPayment == PrincipalDue(b.debt.ltPrincipalPaymentsByYear, year)
    ensures DebtFollowsBudget(b', year)
  {
    FixedScheduleAgrees(b.debt.ltLoansByYear, b.debt.ltPrincipalPaymentsByYear, year, c.ltLoan, years);
    assert b'.cash.ltLoan[year] == c.ltLoan && b'.cash.stLoan[year] == c.stLoan;
    assert b'.cash.ltLoanPrincipalPayment[year] == c.ltLoanPrincipalPayment;
    assert b'.cash.stLoanPrincipalPayment[year] == c.stLoanPrincipalPayment;
  }

  /** The new column holds what the statements hold for the year. */
  lemma StepColumn(inputs: InputData, im: IntermediateLists, n: nat, year: nat, b: Books,
                   iy: IncomeYear, c: CashYear, b': Books)
    requires StepReady(inputs, im, n, year, b) && Stepped(inputs, im, n, year, b, iy, c, b')
    requires Shaped(inputs, n, year, b')
    ensures ColumnFromStatements(im, n, year, b')
  {
    var col := ColumnOf(year, n, im, b'.cash, b'.debt, b'.income, b.balance);
    assert ColumnAt(b'.balance, year) == col;
  }

  /**
   * The accounting identity behind the constant check: with the year's net
   * cash made of its flows, collections and payments tied to the credit and
   * advance parts held, the stock and fixed-asset accounts rolled, debt and
   * equity moved by the same loans, and net income the statement's, the
   * check of the new column is the check of the old one.
   */
  lemma ClosureAlgebra(c0: Column, c1: Column, revenue: real, cogs: real, asExpenses: real, depreciation: real,
                       stInterest: real, ltInterest: real, stReturn: real, tax: real, netIncome: real,
                       purchases: real, salesInflows: real, purchasesOutflows: real, yearNcb: real,
                       investment: real, stLoan: real, stPrincipal: real, ltLoan: real, ltPrincipal: real,
                       equity: real, dividends: real, repurchase: real)
    requires c1.cash == c0.cash + yearNcb
    requires yearNcb == salesInflows - (purchasesOutflows + asExpenses + tax) - investment +
                        stLoan + ltLoan - (stPrincipal + stInterest + ltPrincipal + ltInterest) +
                        equity - (dividends + repurchase) + c0.stInvestment + stReturn - c1.stInvestment
    requires salesInflows == revenue - (c1.accountsReceivable - c0.accountsReceivable) +
                             (c1.advancePaymentsReceived - c0.advancePaymentsReceived)
    requires purchasesOutflows == purchases - (c1.accountsPayable - c0.accountsPayable) +
                                  (c1.advancePaymentsPaid - c0.advancePaymentsPaid)
    requires c1.inventory == c0.inventory + purchases - cogs
    requires c1.netFixedAssets == c0.netFixedAssets + investment - depreciation
    requires c1.stDebt == c0.stDebt + stLoan - stPrincipal && c1.ltDebt == c0.ltDebt + ltLoan - ltPrincipal
    requires c1.equityInvestment == c0.equityInvestment + equity && c1.repurchaseEquity == c0.repurchaseEquity + repurchase
    requires c1.retainedEarnings == c0.retainedEarnings + c0.currentYearNi - dividends && c1.currentYearNi == netIncome
    requires netIncome + tax == revenue - cogs - asExpenses - depreciation - (stInterest + ltInterest) + stReturn
    ensures CheckOf(c1) == CheckOf(c0)
  {
  }

  /** The check of the new column equals the check of the year before. */
  lemma StepCheck(inputs: InputData, im: IntermediateLists, n: nat, year: nat, b: Books,
                  iy: IncomeYear, c: CashYear, b': Books)
    requires StepReady(inputs, im, n, year, b) && Computed(inputs, im, n, year, b, iy, c)
    requires Stepped(inputs, im, n, year, b, iy, c, b')
    requires YearRolls(im, n, year - 1) && ColumnFromStatements(im, n, year - 1, b)
    requires Shaped(inputs, n, year, b') && ColumnFromStatements(im, n, year, b')
    ensures b'.balance.checkDifference[year] == b.balance.checkDifference[year - 1]
  {
    var i := year - 1;
    RetainedStep(b.income, iy, year);
    var d := DriversOf(year, im, inputs, b.debt, b'.income.incomeTaxes, b'.income.nextYearDividends, b.cash);
    YearNcbIsFlows(d, inputs.stLoanYears, inputs.pctFinancingWithDebt);
    InterestMatchesCashBudget(year, im, inputs, b.debt, b'.income.incomeTaxes, b'.income.nextYearDividends, b.cash);
    StReturnMatchesCashBudget(year, im, inputs, b.debt, b'.income.incomeTaxes, b'.income.nextYearDividends, b.cash);
    FixedScheduleAgrees(b.debt.ltLoansByYear, b.debt.ltPrincipalPaymentsByYear, year, c.ltLoan, inputs.ltLoanYears);
    var c0 := ColumnAt(b.balance, i);
    var c1 := ColumnAt(b'.balance, year);
    assert c1 == ColumnOf(year, n, im, b'.cash, b'.debt, b'.income, b.balance);
    assert d.incomeTax == iy.incomeTax;
    assert d.dividends == DeclaredOn(b'.income.nextYearDividends, i);
    assert b'.income.netIncome[i] == c0.currentYearNi;
    ClosureAlgebra(c0, c1, im.totalSalesRevenue[i], im.cogs[i], im.totalAsExpenses[i], im.totalDepreciation[year],
                   c.stLoanInterestPayment, c.ltLoanInterestPayment, c.stInvestmentReturn, iy.incomeTax, iy.netIncome,
                   im.purchasesValue[i], d.salesInflows, d.purchasesOutflows, c.yearNcb, d.investmentFixedAssets,
                   c.stLoan, c.stLoanPrincipalPayment, c.ltLoan, c.ltLoanPrincipalPayment,
                   c.investedEquity, d.dividends, d.stockRepurchase);
  }

  /** The roll and the floor carry over a year. */
  lemma StepCash(inputs: InputData, im: IntermediateLists, n: nat, year: nat, b: Books,
                 iy: IncomeYear, c: CashYear, b': Books)
    requires StepReady(inputs, im, n, year, b) && Computed(inputs, im, n, year, b, iy, c)
    requires Stepped(inputs, im, n, year, b, iy, c, b')
    requires Rolled(b.cash) && FloorKept(inputs, im, b.cash)
    ensures Rolled(b'.cash) && FloorKept(inputs, im, b'.cash)
  {
    var d := DriversOf(year, im, inputs, b.debt, b'.income.incomeTaxes, b'.income.nextYearDividends, b.cash);
    if inputs.pctFinancingWithDebt > 0.0 &&
       (forall i :: 0 <= i < |im.returnStInvestment| ==> im.returnStInvestment[i] >= -1.0) {
      assert d.stInvestmentRedemption == b.cash.stInvestment[year - 1] >= 0.0;
      CashFloor(d, inputs.stLoanYears, inputs.pctFinancingWithDebt);
    }
    WithYearKeeps(b.cash, year - 1, c, d, im.minCashRequired);
  }

  /** A state in step after Year year - 1 is ready for Year year. */
  lemma SyncedReady(inputs: InputData, im: IntermediateLists, n: nat, year: nat, b: Books)
    requires 1 <= year <= n && Covers(inputs, n) && inputs.stLoanYears != 0.0 && inputs.pctFinancingWithDebt != 0.0
    requires Synced(inputs, im, n, year - 1, b)
    ensures StepReady(inputs, im, n, year, b)
  {
  }

  /** One year of `run_forecast` keeps the run in step. */
  lemma SyncStep(inputs: InputData, im: IntermediateLists, n: nat, year: nat, b: Books,
                 iy: IncomeYear, c: CashYear, b': Books)
    requires 1 <= year <= n && Covers(inputs, n) && inputs.stLoanYears != 0.0 && inputs.pctFinancingWithDebt != 0.0
    requires Synced(inputs, im, n, year - 1, b) && YearRolls(im, n, year - 1)
    requires Computed(inputs, im, n, year, b, iy, c) && Stepped(inputs, im, n, year, b, iy, c, b')
    ensures Synced(inputs, im, n, year, b')
    ensures b'.balance.checkDifference[0] == b.balance.checkDifference[0]
    ensures b'.cash.yearNcb[0] == b.cash.yearNcb[0] && b'.cash.cumulatedNcb[0] == b.cash.cumulatedNcb[0]
  {
    StepShapes(inputs, im, n, year, b, iy, c, b');
    ComputedPaysDue(inputs, im, n, year, b, iy, c);
    StepDebt(year, b, c, inputs.ltLoanYears, b');
    StepColumn(inputs, im, n, year, b, iy, c, b');
    StepCheck(inputs, im, n, year, b, iy, c, b');
    StepCash(inputs, im, n, year, b, iy, c, b');
    assert forall k :: 0 <= k < year ==> b'.balance.checkDifference[k] == b.balance.checkDifference[k];
  }

  // ---------------------------------------------------------------------
  // The run
  // ---------------------------------------------------------------------

  /** The first step of `run_forecast`: the intermediate tables, calculated once. */
  method BuildTables(inputs: InputData, nYears: nat) returns (im: Intermediate)
    requires nYears >= 1 && Covers(inputs, nYears) && inputs.linearDepreciationYears != 0.0
    ensures fresh(im) && im.inputs == inputs && im.nYears == nYears
    ensures TablesReady(inputs, nYears, im.lists)
  {
    im := new Intermediate(inputs, nYears);
    im.CalculateAll();
    ForecastedTablesReady(inputs, nYears, im.lists);
  }

  /**
   * Year 0 of `run_forecast`, corrected: the budget's Year 0, the schedule
   * opened with the corrected vintages of its loans, the equity it raised entered in the balance sheet's Year 0,
   * and the statement's Year-0 entries.
   */
  method ForecastYear0(inputs: InputData, im: Intermediate, cb: CashBudget, ds: DebtSchedule,
                       inc: IncomeStatement, bs: BalanceSheet)
    requires TablesReady(inputs, bs.nYears, im.lists) && inputs.ltLoanYears != 0.0
    requires cb.inputs == inputs && cb.intermediate == im && ds.inputs == inputs && bs.inputs == inputs
    requires cb.lists == EmptyLists() && ds.lists == TextbookDebtSchedule.SeedLists()
    requires inc.lists == StartLists() && bs.lists == OpeningLists(inputs)
    modifies cb, ds, inc, bs
    ensures Books(cb.lists, ds.lists, inc.lists, bs.lists) == Year0Books(inputs, im.lists)
    ensures Synced(inputs, im.lists, bs.nYears, 0, Books(cb.lists, ds.lists, inc.lists, bs.lists))
    ensures bs.lists.checkDifference[0] == cb.lists.yearNcb[0] - cb.lists.cumulatedNcb[0]
  {
    ghost var books := Year0Books(inputs, im.lists);
    var st0, lt0, equity0 := cb.CalculateYear0();
    assert cb.lists == books.cash;
    ds.InitializeYear0Loans(st0, lt0);
    assert ds.lists == books.debt;
    bs.lists := bs.lists.(equityInvestment := bs.lists.equityInvestment[0 := equity0]);
    bs.CalculateYear0(im, ds);
    assert bs.lists == books.balance;
    // the Year-0 entries of the income statement: no tax, earnings or interest
    inc.lists := inc.lists.(incomeTaxes := inc.lists.incomeTaxes + [0.0], ebt := inc.lists.ebt + [0.0],
                            netIncome := inc.lists.netIncome + [0.0],
                            interestPayments := inc.lists.interestPayments + [0.0]);
    assert inc.lists == books.income;
    Year0Synced(inputs, bs.nYears, im.lists);
  }

  /**
   * The first half of a pass of the loop of `run_forecast`: the income
   * statement of `year`, then the cash budget of `year` reading its tax
   * and dividends.
   */
  method ForecastIncomeAndCash(year: nat, inputs: InputData, im: Intermediate, cb: CashBudget, ds: DebtSchedule,
                               inc: IncomeStatement, bs: BalanceSheet) returns (ghost iy: IncomeYear, ghost c: CashYear)
    requires cb.inputs == inputs && cb.intermediate == im && inc.inputs == inputs && inc.intermediate == im
    requires StepReady(inputs, im.lists, bs.nYears, year, Books(cb.lists, ds.lists, inc.lists, bs.lists))
    modifies cb, inc
    ensures Computed(inputs, im.lists, bs.nYears, year, old(Books(cb.lists, ds.lists, inc.lists, bs.lists)), iy, c)
    ensures inc.lists == WithIncomeYear(old(inc.lists), iy, year) && cb.lists == WithYear(old(cb.lists), c)
  {
    ghost var b := Books(cb.lists, ds.lists, inc.lists, bs.lists);
    iy := ForecastIncome(year, inputs, im, cb, ds, inc, bs, b);
    c := ForecastCash(year, inputs, im, cb, ds, inc, bs, b, iy);
  }

  /** The income statement of `year`, from the closing balances of the year before. */
  method ForecastIncome(year: nat, inputs: InputData, im: Intermediate, cb: CashBudget, ds: DebtSchedule,
                        inc: IncomeStatement, bs: BalanceSheet, ghost b: Books) returns (ghost iy: IncomeYear)
    requires inc.inputs == inputs && inc.intermediate == im
    requires b == Books(cb.lists, ds.lists, inc.lists, bs.lists) && StepReady(inputs, im.lists, bs.nYears, year, b)
    modifies inc
    ensures iy == IncomeYearFor(inputs, im.lists, bs.nYears, year, b)
    ensures inc.lists == WithIncomeYear(b.income, iy, year)
  {
    iy := IncomeYearFor(inputs, im.lists, bs.nYears, year, b);
    inc.CalculateYear(year, cb, ds);
  }

  /** The cash budget of `year`, reading the taxes and dividends just computed. */
  method ForecastCash(year: nat, inputs: InputData, im: Intermediate, cb: CashBudget, ds: DebtSchedule,
                      inc: IncomeStatement, bs: BalanceSheet, ghost b: Books, ghost iy: IncomeYear) returns (ghost c: CashYear)
    requires cb.inputs == inputs && cb.intermediate == im && StepReady(inputs, im.lists, bs.nYears, year, b)
    requires cb.lists == b.cash && ds.lists == b.debt && bs.lists == b.balance
    requires iy == IncomeYearFor(inputs, im.lists, bs.nYears, year, b) && inc.lists == WithIncomeYear(b.income, iy, year)
    modifies cb
    ensures Computed(inputs, im.lists, bs.nYears, year, b, iy, c)
    ensures cb.lists == WithYear(b.cash, c)
  {
    c := CashYearOf(DriversOf(year, im.lists, inputs, b.debt, inc.lists.incomeTaxes, inc.lists.nextYearDividends, b.cash),
                    inputs.stLoanYears, inputs.pctFinancingWithDebt);
    cb.CalculateYear(year, ds, inc.lists.incomeTaxes, inc.lists.nextYearDividends);
  }

  /**
   * The second half: the short- and long-term debt updated with the
   * budget's loans of `year`, then the balance-sheet column.
   */
  method ForecastDebtAndBalance(year: nat, inputs: InputData, im: Intermediate, cb: CashBudget, ds: DebtSchedule,
                                inc: IncomeStatement, bs: BalanceSheet, ghost b: Books, ghost iy: IncomeYear, ghost c: CashYear)
    requires ds.inputs == inputs && StepReady(inputs, im.lists, bs.nYears, year, b)
    requires ds.lists == b.debt && bs.lists == b.balance && cb.lists == WithYear(b.cash, c)
    requires inc.lists == WithIncomeYear(b.income, iy, year)
    requires inputs.ltLoanYears != 0.0
    modifies ds, bs
    ensures ds.lists == DebtAfter(b.debt, year, c.stLoan, c.stLoanPrincipalPayment, c.ltLoan, inputs.ltLoanYears)
    ensures ColumnReadable(year, bs.nYears, im.lists, cb.lists, ds.lists, inc.lists, b.balance)
    ensures bs.lists == WithColumn(b.balance, ColumnOf(year, bs.nYears, im.lists, cb.lists, ds.lists, inc.lists, b.balance))
  {
    ForecastDebt(year, inputs, im.lists, bs.nYears, cb, ds, b, c);
    AfterDebtReadable(year, inputs, im.lists, bs.nYears, b, iy, c);
    bs.CalculateYear(year, im, cb, ds, inc);
  }

  /** The debt updates of `year`, with the budget's new loans and principal. */
  method ForecastDebt(year: nat, inputs: InputData, ghost im: IntermediateLists, ghost n: nat, cb: CashBudget,
                      ds: DebtSchedule, ghost b: Books, ghost c: CashYear)
    requires ds.inputs == inputs && StepReady(inputs, im, n, year, b)
    requires ds.lists == b.debt && cb.lists == WithYear(b.cash, c)
    requires inputs.ltLoanYears != 0.0
    modifies ds
    ensures ds.lists == DebtAfter(b.debt, year, c.stLoan, c.stLoanPrincipalPayment, c.ltLoan, inputs.ltLoanYears)
  {
    assert cb.lists.stLoan[year] == c.stLoan && cb.lists.stLoanPrincipalPayment[year] == c.stLoanPrincipalPayment;
    assert cb.lists.ltLoan[year] == c.ltLoan;
    ds.UpdateStDebt(year, cb.lists.stLoan[year], cb.lists.stLoanPrincipalPayment[year]);
    ds.UpdateLtDebt(year, cb.lists.ltLoan[year]);
  }

  /** After the debt updates, the balance sheet can read everything its Year-`year` column needs. */
  lemma AfterDebtReadable(year: nat, inputs: InputData, im: IntermediateLists, n: nat, b: Books, iy: IncomeYear,
                          c: CashYear)
    requires StepReady(inputs, im, n, year, b) && inputs.ltLoanYears != 0.0
    ensures ColumnReadable(year, n, im, WithYear(b.cash, c),
                           DebtAfter(b.debt, year, c.stLoan, c.stLoanPrincipalPayment, c.ltLoan, inputs.ltLoanYears),
                           WithIncomeYear(b.income, iy, year), b.balance)
  {
  }

  /** One pass of the loop of `run_forecast`. */
  method ForecastYear(year: nat, inputs: InputData, im: Intermediate, cb: CashBudget, ds: DebtSchedule,
                      inc: IncomeStatement, bs: BalanceSheet) returns (ghost iy: IncomeYear, ghost c: CashYear)
    requires cb.inputs == inputs && cb.intermediate == im && ds.inputs == inputs
    requires inc.inputs == inputs && inc.intermediate == im && inputs.ltLoanYears != 0.0
    requires StepReady(inputs, im.lists, bs.nYears, year, Books(cb.lists, ds.lists, inc.lists, bs.lists))
    modifies cb, ds, inc, bs
    ensures Computed(inputs, im.lists, bs.nYears, year, old(Books(cb.lists, ds.lists, inc.lists, bs.lists)), iy, c)
    ensures Stepped(inputs, im.lists, bs.nYears, year, old(Books(cb.lists, ds.lists, inc.lists, bs.lists)),
                    iy, c, Books(cb.lists, ds.lists, inc.lists, bs.lists))
  {
    ghost var b := Books(cb.lists, ds.lists, inc.lists, bs.lists);
    iy, c := ForecastIncomeAndCash(year, inputs, im, cb, ds, inc, bs);
    ForecastDebtAndBalance(year, inputs, im, cb, ds, inc, bs, b, iy, c);
  }

  /**
   * The loop of `run_forecast`: Years 1 .. n in order, each one an income
   * statement, a cash budget, a debt update and a balance-sheet column.
   */
  method ForecastYears(inputs: InputData, im: Intermediate, cb: CashBudget, ds: DebtSchedule,
                       inc: IncomeStatement, bs: BalanceSheet) returns (ghost books: Books)
    requires cb.inputs == inputs && cb.intermediate == im && ds.inputs == inputs
    requires inc.inputs == inputs && inc.intermediate == im && Covers(inputs, bs.nYears)
    requires inputs.stLoanYears != 0.0 && inputs.ltLoanYears != 0.0 && inputs.pctFinancingWithDebt != 0.0
    requires TablesReady(inputs, bs.nYears, im.lists)
    requires Synced(inputs, im.lists, bs.nYears, 0, Books(cb.lists, ds.lists, inc.lists, bs.lists))
    modifies cb, ds, inc, bs
    ensures books == Books(cb.lists, ds.lists, inc.lists, bs.lists)
    ensures Synced(inputs, im.lists, bs.nYears, bs.nYears, books)
    ensures books.balance.checkDifference[0] == old(bs.lists.checkDifference[0])
    ensures books.cash.yearNcb[0] == old(cb.lists.yearNcb[0]) && books.cash.cumulatedNcb[0] == old(cb.lists.cumulatedNcb[0])
  {
    ghost var b0 := Books(cb.lists, ds.lists, inc.lists, bs.lists);
    for year := 1 to bs.nYears + 1
      invariant Synced(inputs, im.lists, bs.nYears, year - 1, Books(cb.lists, ds.lists, inc.lists, bs.lists))
      invariant bs.lists.checkDifference[0] == b0.balance.checkDifference[0]
      invariant cb.lists.yearNcb[0] == b0.cash.yearNcb[0] && cb.lists.cumulatedNcb[0] == b0.cash.cumulatedNcb[0]
    {
      ForecastSyncedYear(year, inputs, im, cb, ds, inc, bs);
    }
    books := Books(cb.lists, ds.lists, inc.lists, bs.lists);
  }

  /** One pass of the loop keeps the statements in step with the run. */
  method ForecastSyncedYear(year: nat, inputs: InputData, im: Intermediate, cb: CashBudget, ds: DebtSchedule,
                            inc: IncomeStatement, bs: BalanceSheet)
    requires cb.inputs == inputs && cb.intermediate == im && ds.inputs == inputs
    requires inc.inputs == inputs && inc.intermediate == im && Covers(inputs, bs.nYears)
    requires inputs.stLoanYears != 0.0 && inputs.ltLoanYears != 0.0 && inputs.pctFinancingWithDebt != 0.0
    requires TablesReady(inputs, bs.nYears, im.lists) && 1 <= year <= bs.nYears
    requires Synced(inputs, im.lists, bs.nYears, year - 1, Books(cb.lists, ds.lists, inc.lists, bs.lists))
    modifies cb, ds, inc, bs
    ensures Synced(inputs, im.lists, bs.nYears, year, Books(cb.lists, ds.lists, inc.lists, bs.lists))
    ensures bs.lists.checkDifference[0] == old(bs.lists.checkDifference[0])
    ensures cb.lists.yearNcb[0] == old(cb.lists.yearNcb[0]) && cb.lists.cumulatedNcb[0] == old(cb.lists.cumulatedNcb[0])
  {
    ghost var b := Books(cb.lists, ds.lists, inc.lists, bs.lists);
    SyncedReady(inputs, im.lists, bs.nYears, year, b);
    ghost var iy, c := ForecastYear(year, inputs, im, cb, ds, inc, bs);
    SyncStep(inputs, im.lists, bs.nYears, year, b, iy, c, Books(cb.lists, ds.lists, inc.lists, bs.lists));
  }

  /**
   * The steps of `run_forecast` on freshly built components, with the
   * corrected members: the tables, Year 0, then the loop.
   */
  method Forecast(inputs: InputData, nYears: nat)
    returns (im: Intermediate, cb: CashBudget, ds: DebtSchedule, inc: IncomeStatement, bs: BalanceSheet,
             ghost books: Books)
    requires Covers(inputs, nYears) && nYears >= 1
    requires inputs.linearDepreciationYears != 0.0 && inputs.stLoanYears != 0.0
    requires inputs.ltLoanYears != 0.0 && inputs.pctFinancingWithDebt != 0.0
    ensures fresh(im) && fresh(cb) && fresh(ds) && fresh(inc) && fresh(bs)
    ensures TablesReady(inputs, nYears, im.lists)
    ensures books == Books(cb.lists, ds.lists, inc.lists, bs.lists)
    ensures Synced(inputs, im.lists, nYears, nYears, books)
    ensures |books.balance.checkDifference| == nYears + 1 &&
            forall k :: 0 <= k <= nYears ==>
              books.balance.checkDifference[k] == books.cash.yearNcb[0] - books.cash.cumulatedNcb[0]
  {
    im := BuildTables(inputs, nYears);
    cb := new CashBudget(inputs, im);
    ds := new DebtSchedule(inputs);
    inc := new IncomeStatement(inputs, im);
    bs := new BalanceSheet(inputs, nYears);
    ForecastYear0(inputs, im, cb, ds, inc, bs);
    books := ForecastYears(inputs, im, cb, ds, inc, bs);
    assert CheckConstant(books.balance, nYears);
  }

  /** `Forecaster`: the run's horizon and the components `run_forecast` builds. */
  class Forecaster {
    const inputs: InputData
    const nYears: nat
    var intermediate: Intermediate?
    var cashBudget: CashBudget?
    var debtSchedule: DebtSchedule?
    var incomeStatement: IncomeStatement?
    var balanceSheet: BalanceSheet?

    /** A four-year horizon, no component built yet. */
    constructor (inputs: InputData)
      ensures this.inputs == inputs && nYears == 4
      ensures intermediate == null && cashBudget == null && debtSchedule == null
      ensures incomeStatement == null && balanceSheet == null
    {
      this.inputs := inputs;
      nYears := 4;
      intermediate, cashBudget, debtSchedule, incomeStatement, balanceSheet := null, null, null, null, null;
    }

    /**
     * `run_forecast`, with the corrected debt-schedule opening and
     * balance-sheet column. Afterwards the debt schedule has repaid exactly what
     * the cash budget paid, the cash stays at or above the minimum (for a
     * positive debt share and investment returns no worse than -100%), and
     * every year's balance-sheet check is the Year-0 net cash balance less
     * the Year-0 cash: 0 in every year exactly when Year 0 raised no more
     * than it needed.
     */
    method RunForecast() returns (ghost tables: IntermediateLists, ghost books: Books)
      requires Covers(inputs, nYears) && nYears >= 1
      requires inputs.linearDepreciationYears != 0.0 && inputs.stLoanYears != 0.0
      requires inputs.ltLoanYears != 0.0 && inputs.pctFinancingWithDebt != 0.0
      modifies this
      ensures intermediate != null && cashBudget != null && debtSchedule != null
      ensures incomeStatement != null && balanceSheet != null
      ensures intermediate.lists == tables && TablesReady(inputs, nYears, tables)
      ensures books == Books(cashBudget.lists, debtSchedule.lists, incomeStatement.lists, balanceSheet.lists)
      ensures Synced(inputs, tables, nYears, nYears, books)
      ensures |books.balance.checkDifference| == nYears + 1 &&
              forall k :: 0 <= k <= nYears ==>
                books.balance.checkDifference[k] == books.cash.yearNcb[0] - books.cash.cumulatedNcb[0]
    {
      var im, cb, ds, inc, bs;
      im, cb, ds, inc, bs, books := Forecast(inputs, nYears);
      tables := im.lists;
      intermediate, cashBudget, debtSchedule, incomeStatement, balanceSheet := im, cb, ds, inc, bs;
    }
  }
}
