/**
 * BalanceSheet of the textbook model
 * (example_forecast_model/balance_sheet.py): each year's column compiled
 * from the cash budget, the intermediate tables, the debt schedule and
 * the income statement, with its totals and the check
 * `total liabilities & equity - total assets`.
 */
module TextbookBalanceSheet {
  import opened TextbookInputs
  import opened TextbookIntermediate
  import opened TextbookDebtSchedule
  import opened TextbookCashBudget
  import opened TextbookIncomeStatement

  /** The items of one balance-sheet column, before totals. */
  datatype Column = Column(
    cash: real, accountsReceivable: real, inventory: real, advancePaymentsPaid: real, stInvestment: real,
    netFixedAssets: real, accountsPayable: real, advancePaymentsReceived: real, stDebt: real, ltDebt: real,
    equityInvestment: real, retainedEarnings: real, currentYearNi: real, repurchaseEquity: real)

  function CurrentAssets(c: Column): real {
    c.cash + c.accountsReceivable + c.inventory + c.advancePaymentsPaid + c.stInvestment
  }

  function TotalAssets(c: Column): real {
    CurrentAssets(c) + c.netFixedAssets
  }

  function CurrentLiabilities(c: Column): real {
    c.accountsPayable + c.advancePaymentsReceived + c.stDebt
  }

  function TotalLiabilities(c: Column): real {
    CurrentLiabilities(c) + c.ltDebt
  }

  function TotalEquity(c: Column): real {
    c.equityInvestment + c.retainedEarnings + c.currentYearNi - c.repurchaseEquity
  }

  /** `check_difference`: liabilities and equity less assets, zero exactly when the column balances. */
  function CheckOf(c: Column): (r: real)
    ensures r == 0.0 <==> TotalAssets(c) == TotalLiabilities(c) + TotalEquity(c)
  {
    TotalLiabilities(c) + TotalEquity(c) - TotalAssets(c)
  }

  /** Every list of the sheet, under the attribute names of the source. */
  datatype BalanceLists = BalanceLists(
    cash: seq<real>, accountsReceivable: seq<real>, inventory: seq<real>, advancePaymentsPaid: seq<real>,
    stInvestment: seq<real>, currentAssets: seq<real>, netFixedAssets: seq<real>, totalAssets: seq<real>,
    accountsPayable: seq<real>, advancePaymentsReceived: seq<real>, stDebt: seq<real>,
    currentLiabilities: seq<real>, ltDebt: seq<real>, totalLiabilities: seq<real>,
    equityInvestment: seq<real>, retainedEarnings: seq<real>, currentYearNi: seq<real>,
    repurchaseEquity: seq<real>, totalEquity: seq<real>, totalLiabEquity: seq<real>,
    checkDifference: seq<real>)

  /** The lists right after construction: opening cash and equity at the minimum cash, fixed assets at cost. */
  function OpeningLists(inputs: InputData): (l: BalanceLists)
    ensures l.cash == [inputs.minimumCashRequired] && l.equityInvestment == [inputs.minimumCashRequired]
    ensures l.netFixedAssets == [inputs.fixedAssets] && l.checkDifference == []
  {
    BalanceLists([inputs.minimumCashRequired], [0.0], [], [], [0.0], [], [inputs.fixedAssets], [],
                 [0.0], [], [0.0], [], [0.0], [],
                 [inputs.minimumCashRequired], [0.0], [0.0], [0.0], [], [], [])
  }

  /** Whether column k is stored in every item list. */
  ghost predicate HasColumn(l: BalanceLists, k: nat) {
    k < |l.cash| && k < |l.accountsReceivable| && k < |l.inventory| && k < |l.advancePaymentsPaid| &&
    k < |l.stInvestment| && k < |l.netFixedAssets| && k < |l.accountsPayable| &&
    k < |l.advancePaymentsReceived| && k < |l.stDebt| && k < |l.ltDebt| && k < |l.equityInvestment| &&
    k < |l.retainedEarnings| && k < |l.currentYearNi| && k < |l.repurchaseEquity|
  }

  /** Column k read back from the item lists. */
  function ColumnAt(l: BalanceLists, k: nat): Column
    requires HasColumn(l, k)
  {
    Column(l.cash[k], l.accountsReceivable[k], l.inventory[k], l.advancePaymentsPaid[k], l.stInvestment[k],
           l.netFixedAssets[k], l.accountsPayable[k], l.advancePaymentsReceived[k], l.stDebt[k], l.ltDebt[k],
           l.equityInvestment[k], l.retainedEarnings[k], l.currentYearNi[k], l.repurchaseEquity[k])
  }

  /** The lists after `calculate_year` appends a column with its totals. */
  function WithColumn(l: BalanceLists, c: Column): (r: BalanceLists)
    ensures |r.checkDifference| == |l.checkDifference| + 1 && r.checkDifference[|l.checkDifference|] == CheckOf(c)
  {
    l.(cash := l.cash + [c.cash], accountsReceivable := l.accountsReceivable + [c.accountsReceivable],
       inventory := l.inventory + [c.inventory], advancePaymentsPaid := l.advancePaymentsPaid + [c.advancePaymentsPaid],
       stInvestment := l.stInvestment + [c.stInvestment], currentAssets := l.currentAssets + [CurrentAssets(c)],
       netFixedAssets := l.netFixedAssets + [c.netFixedAssets], totalAssets := l.totalAssets + [TotalAssets(c)],
       accountsPayable := l.accountsPayable + [c.accountsPayable],
       advancePaymentsReceived := l.advancePaymentsReceived + [c.advancePaymentsReceived],
       stDebt := l.stDebt + [c.stDebt], currentLiabilities := l.currentLiabilities + [CurrentLiabilities(c)],
       ltDebt := l.ltDebt + [c.ltDebt], totalLiabilities := l.totalLiabilities + [TotalLiabilities(c)],
       equityInvestment := l.equityInvestment + [c.equityInvestment],
       retainedEarnings := l.retainedEarnings + [c.retainedEarnings],
       currentYearNi := l.currentYearNi + [c.currentYearNi], repurchaseEquity := l.repurchaseEquity + [c.repurchaseEquity],
       totalEquity := l.totalEquity + [TotalEquity(c)],
       totalLiabEquity := l.totalLiabEquity + [TotalLiabilities(c) + TotalEquity(c)],
       checkDifference := l.checkDifference + [CheckOf(c)])
  }

  /**
   * The lists after `calculate_year_0`: inventory, advances and every
   * total get their Year-0 entry, and the Year-0 debt replaces the
   * opening zeros.
   */
  function WithColumn0(l: BalanceLists, inventory0: real, app0: real, apr0: real, st0: real, lt0: real): BalanceLists
    requires HasOpening(l)
  {
    var l' := l.(inventory := l.inventory + [inventory0], advancePaymentsPaid := l.advancePaymentsPaid + [app0],
                 advancePaymentsReceived := l.advancePaymentsReceived + [apr0],
                 stDebt := l.stDebt[0 := st0], ltDebt := l.ltDebt[0 := lt0]);
    var c := Column(l.cash[0], l.accountsReceivable[0], inventory0, app0, l.stInvestment[0], l.netFixedAssets[0],
                    l.accountsPayable[0], apr0, st0, lt0,
                    l.equityInvestment[0], l.retainedEarnings[0], l.currentYearNi[0], l.repurchaseEquity[0]);
    l'.(currentAssets := l.currentAssets + [CurrentAssets(c)], totalAssets := l.totalAssets + [TotalAssets(c)],
        currentLiabilities := l.currentLiabilities + [CurrentLiabilities(c)],
        totalLiabilities := l.totalLiabilities + [TotalLiabilities(c)], totalEquity := l.totalEquity + [TotalEquity(c)],
        totalLiabEquity := l.totalLiabEquity + [TotalLiabilities(c) + TotalEquity(c)],
        checkDifference := l.checkDifference + [CheckOf(c)])
  }

  /** The opening entries `calculate_year_0` reads at index 0. */
  ghost predicate HasOpening(l: BalanceLists) {
    |l.cash| > 0 && |l.accountsReceivable| > 0 && |l.stInvestment| > 0 && |l.netFixedAssets| > 0 &&
    |l.accountsPayable| > 0 && |l.stDebt| > 0 && |l.ltDebt| > 0 && |l.equityInvestment| > 0 &&
    |l.retainedEarnings| > 0 && |l.currentYearNi| > 0 && |l.repurchaseEquity| > 0
  }

  /** From the opening lists, Year 0 gives a one-column sheet whose check is that column's. */
  lemma Year0Column(inputs: InputData, inventory0: real, app0: real, apr0: real, st0: real, lt0: real, equity0: real)
    ensures var l := WithColumn0(OpeningLists(inputs).(equityInvestment := [equity0]), inventory0, app0, apr0, st0, lt0);
      HasColumn(l, 0) && |l.cash| == 1 && |l.inventory| == 1 && |l.equityInvestment| == 1 && |l.checkDifference| == 1 &&
      |l.stDebt| == 1 && |l.advancePaymentsPaid| == 1 && |l.advancePaymentsReceived| == 1 &&
      ColumnAt(l, 0) == Column(inputs.minimumCashRequired, 0.0, inventory0, app0, 0.0, inputs.fixedAssets,
                               0.0, apr0, st0, lt0, equity0, 0.0, 0.0, 0.0) &&
      l.checkDifference[0] == CheckOf(ColumnAt(l, 0)) &&
      l.checkDifference[0] == apr0 + st0 + lt0 + equity0 -
                              (inputs.minimumCashRequired + inventory0 + app0 + inputs.fixedAssets)
  {
  }

  /** Whether `calculate_year(year)` finds every entry it reads (with the Year-0 entry in front of net income). */
  ghost predicate ColumnReadable(year: nat, n: nat, im: IntermediateLists, cb: CashLists, ds: DebtLists,
                                 inc: IncomeLists, l: BalanceLists) {
    1 <= year && year < |cb.cumulatedNcb| && year < |cb.stInvestment| && year < |cb.investedEquity| &&
    year < |cb.stockRepurchase| && year - 1 < |im.creditSales| && year < |im.finalInventoryValue| &&
    year < |im.netFixedAssets| && year - 1 < |im.purchasesOnCredit| &&
    year - 1 < |im.advancePaymentsToSuppliers| && year - 1 < |im.advancePaymentsFromCustomers| &&
    (year < n ==> year < |im.advancePaymentsToSuppliers| && year < |im.advancePaymentsFromCustomers|) &&
    year < |ds.stEndingBalance| && year < |ds.ltEndingBalance| &&
    year < |inc.cumulatedRetainedEarnings| && year < |inc.netIncome| &&
    year - 1 < |l.equityInvestment| && year - 1 < |l.repurchaseEquity|
  }

  /**
   * Year `year`'s column: cash and short-term investment from the cash
   * budget, receivables and payables as the year's credit parts, the
   * advances held for next year (none after the horizon), inventory and
   * fixed assets from the intermediate tables, debt from the schedule,
   * equity accumulated, and the year's own net income.
   */
  function ColumnOf(year: nat, n: nat, im: IntermediateLists, cb: CashLists, ds: DebtLists, inc: IncomeLists,
                    l: BalanceLists): (c: Column)
    requires ColumnReadable(year, n, im, cb, ds, inc, l)
    ensures c.accountsReceivable == CreditHeld(im.creditSales, year)
    ensures c.advancePaymentsPaid == AdvanceHeld(im.advancePaymentsToSuppliers, year, n)
    ensures c.advancePaymentsReceived == AdvanceHeld(im.advancePaymentsFromCustomers, year, n)
    ensures c.currentYearNi == inc.netIncome[year]
  {
    var i := year - 1;
    Column(cb.cumulatedNcb[year], im.creditSales[i], im.finalInventoryValue[year],
           if year < n then im.advancePaymentsToSuppliers[year] else 0.0, cb.stInvestment[year],
           im.netFixedAssets[year], im.purchasesOnCredit[i],
           if year < n then im.advancePaymentsFromCustomers[year] else 0.0,
           ds.stEndingBalance[year], ds.ltEndingBalance[year],
           l.equityInvestment[year - 1] + cb.investedEquity[year], inc.cumulatedRetainedEarnings[year],
           inc.netIncome[year], l.repurchaseEquity[year - 1] + cb.stockRepurchase[year])
  }

  /**
   * The column as `calculate_year` writes it: advances read at index
   * year - 1 (the advance on the year itself, already used) and net income
   * at index year - 1 (last year's, already in retained earnings).
   */
  function ColumnAsWritten(year: nat, n: nat, im: IntermediateLists, cb: CashLists, ds: DebtLists, inc: IncomeLists,
                           l: BalanceLists): (c: Column)
    requires ColumnReadable(year, n, im, cb, ds, inc, l)
    ensures c.currentYearNi == inc.netIncome[year - 1]
  {
    var i := year - 1;
    ColumnOf(year, n, im, cb, ds, inc, l).(
      advancePaymentsPaid := if year < n then im.advancePaymentsToSuppliers[i] else 0.0,
      advancePaymentsReceived := if year < n then im.advancePaymentsFromCustomers[i] else 0.0,
      currentYearNi := inc.netIncome[i])
  }

  /**
   * How far the check of the column as written is off the corrected one:
   * the stale advances and last year's income in place of this year's.
   */
  lemma AsWrittenCheckGap(year: nat, n: nat, im: IntermediateLists, cb: CashLists, ds: DebtLists, inc: IncomeLists,
                          l: BalanceLists)
    requires ColumnReadable(year, n, im, cb, ds, inc, l) && year < n
    ensures var i := year - 1;
      CheckOf(ColumnAsWritten(year, n, im, cb, ds, inc, l)) ==
      CheckOf(ColumnOf(year, n, im, cb, ds, inc, l)) +
      (im.advancePaymentsFromCustomers[i] - im.advancePaymentsFromCustomers[year]) -
      (im.advancePaymentsToSuppliers[i] - im.advancePaymentsToSuppliers[year]) +
      (inc.netIncome[i] - inc.netIncome[year])
  {
  }

  /**
   * With no advances, net income of 100 in Year 1 and 50 in Year 2 makes
   * the Year-2 column as written count 100 twice, in retained earnings and
   * as current income, and 50 not at all: its check is 50 off.
   */
  lemma AsWrittenCountsLastYearsIncome(n: nat, im: IntermediateLists, cb: CashLists, ds: DebtLists, inc: IncomeLists,
                                       l: BalanceLists)
    requires ColumnReadable(2, n, im, cb, ds, inc, l) && 2 < n
    requires im.advancePaymentsFromCustomers[1] == im.advancePaymentsFromCustomers[2]
    requires im.advancePaymentsToSuppliers[1] == im.advancePaymentsToSuppliers[2]
    requires inc.netIncome[1] == 100.0 && inc.netIncome[2] == 50.0
    ensures CheckOf(ColumnAsWritten(2, n, im, cb, ds, inc, l)) == CheckOf(ColumnOf(2, n, im, cb, ds, inc, l)) + 50.0
  {
    AsWrittenCheckGap(2, n, im, cb, ds, inc, l);
  }

  /**
   * Advances to suppliers of 10 on Year 1's purchases and 20 on Year 2's:
   * the Year-1 column as written shows 10 paid in advance, though Year 1
   * has used those 10 and paid 20 ahead for Year 2.
   */
  lemma AsWrittenShowsUsedAdvance(n: nat, im: IntermediateLists, cb: CashLists, ds: DebtLists, inc: IncomeLists,
                                  l: BalanceLists)
    requires ColumnReadable(1, n, im, cb, ds, inc, l) && 1 < n
    requires im.advancePaymentsToSuppliers[0] == 10.0 && im.advancePaymentsToSuppliers[1] == 20.0
    ensures ColumnAsWritten(1, n, im, cb, ds, inc, l).advancePaymentsPaid == 10.0
    ensures ColumnOf(1, n, im, cb, ds, inc, l).advancePaymentsPaid == 20.0
  {
  }

  /** `BalanceSheet`. Its lists live in one record field, `lists`. */
  class BalanceSheet {
    const inputs: InputData
    const nYears: nat
    var lists: BalanceLists

    constructor (inputs: InputData, nYears: nat)
      ensures this.inputs == inputs && this.nYears == nYears && lists == OpeningLists(inputs)
    {
      this.inputs := inputs;
      this.nYears := nYears;
      lists := OpeningLists(inputs);
    }

    /**
     * `calculate_year_0(intermediate, debt_schedule)`: Year-0 debt from the
     * schedule when one with entries is given, else the opening zeros.
     */
    method CalculateYear0(im: Intermediate, ds: DebtSchedule?)
      requires HasOpening(lists)
      requires |im.lists.finalInventoryValue| > 0 && |im.lists.advancePaymentsToSuppliers| > 0 &&
               |im.lists.advancePaymentsFromCustomers| > 0
      requires ds != null && |ds.lists.stEndingBalance| > 0 ==> |ds.lists.ltEndingBalance| > 0
      modifies this
      ensures var fromSchedule := ds != null && |ds.lists.stEndingBalance| > 0;
        lists == WithColumn0(old(lists), im.lists.finalInventoryValue[0], im.lists.advancePaymentsToSuppliers[0],
                             im.lists.advancePaymentsFromCustomers[0],
                             if fromSchedule then ds.lists.stEndingBalance[0] else old(lists.stDebt[0]),
                             if fromSchedule then ds.lists.ltEndingBalance[0] else old(lists.ltDebt[0]))
    {
      var inventory0 := im.lists.finalInventoryValue[0];
      var app0 := im.lists.advancePaymentsToSuppliers[0];
      var apr0 := im.lists.advancePaymentsFromCustomers[0];
      var st0, lt0;
      if ds != null && |ds.lists.stEndingBalance| > 0 {
        st0, lt0 := ds.lists.stEndingBalance[0], ds.lists.ltEndingBalance[0];
      } else {
        st0, lt0 := lists.stDebt[0], lists.ltDebt[0];
      }
      lists := WithColumn0(lists, inventory0, app0, apr0, st0, lt0);
    }

    /** `calculate_year`, with the advances held for next year and the year's own net income. */
    method CalculateYear(year: nat, im: Intermediate, cb: CashBudget, ds: DebtSchedule, inc: IncomeStatement)
      requires ColumnReadable(year, nYears, im.lists, cb.lists, ds.lists, inc.lists, lists)
      modifies this
      ensures lists == WithColumn(old(lists), ColumnOf(year, nYears, im.lists, cb.lists, ds.lists, inc.lists, old(lists)))
    {
      var i := year - 1;
      var app := if year < nYears then im.lists.advancePaymentsToSuppliers[year] else 0.0;
      var apr := if year < nYears then im.lists.advancePaymentsFromCustomers[year] else 0.0;
      var column := Column(
        cb.lists.cumulatedNcb[year], im.lists.creditSales[i], im.lists.finalInventoryValue[year], app,
        cb.lists.stInvestment[year], im.lists.netFixedAssets[year], im.lists.purchasesOnCredit[i], apr,
        ds.lists.stEndingBalance[year], ds.lists.ltEndingBalance[year],
        lists.equityInvestment[year - 1] + cb.lists.investedEquity[year], inc.lists.cumulatedRetainedEarnings[year],
        inc.lists.netIncome[year], lists.repurchaseEquity[year - 1] + cb.lists.stockRepurchase[year]);
      lists := WithColumn(lists, column);
    }

    /** `calculate_year` as written. */
    method CalculateYearAsWritten(year: nat, im: Intermediate, cb: CashBudget, ds: DebtSchedule, inc: IncomeStatement)
      requires ColumnReadable(year, nYears, im.lists, cb.lists, ds.lists, inc.lists, lists)
      modifies this
      ensures lists == WithColumn(old(lists), ColumnAsWritten(year, nYears, im.lists, cb.lists, ds.lists, inc.lists, old(lists)))
    {
      var i := year - 1;
      var app := if year < nYears then im.lists.advancePaymentsToSuppliers[i] else 0.0;
      var apr := if year < nYears then im.lists.advancePaymentsFromCustomers[i] else 0.0;
      var column := Column(
        cb.lists.cumulatedNcb[year], im.lists.creditSales[i], im.lists.finalInventoryValue[year], app,
        cb.lists.stInvestment[year], im.lists.netFixedAssets[year], im.lists.purchasesOnCredit[i], apr,
        ds.lists.stEndingBalance[year], ds.lists.ltEndingBalance[year],
        lists.equityInvestment[year - 1] + cb.lists.investedEquity[year], inc.lists.cumulatedRetainedEarnings[year],
        inc.lists.netIncome[i], lists.repurchaseEquity[year - 1] + cb.lists.stockRepurchase[year]);
      lists := WithColumn(lists, column);
    }
  }
}
