/**
 * IncomeStatement of the textbook model
 * (example_forecast_model/income_statement.py): revenue, cost of goods
 * sold, expenses and depreciation from the intermediate calculations,
 * interest on last year's closing debt, the return of last year's
 * short-term investment, a tax that is never negative, dividends paid the
 * following year, and the cumulated retained earnings.
 */
module TextbookIncomeStatement {
  import opened Wrappers
  import opened RealArith
  import opened TextbookInputs
  import opened TextbookIntermediate
  import opened TextbookDebtSchedule
  import opened TextbookCashBudget

  /** One year of the statement, one field per list the year appends to. */
  datatype IncomeYear = IncomeYear(
    salesRevenue: real, cogs: real, grossIncome: real, asExpenses: real, depreciation: real, ebit: real,
    interestPayments: real, stInvestmentReturn: real, ebt: real, incomeTax: real, netIncome: real,
    nextYearDividends: real)

  /** Interest on an opening balance: charged only when the balance is positive. */
  function InterestOn(beginning: real, costOfDebt: real): (r: real)
    ensures beginning <= 0.0 ==> r == 0.0
    ensures costOfDebt >= 0.0 ==> r >= 0.0
  {
    if beginning > 0.0 then Times(beginning, costOfDebt) else 0.0
  }

  /** Last year's closing balance, or 0 when the schedule has none yet. */
  function OpeningBalance(ending: seq<real>, year: nat): real
    requires year >= 1
  {
    if |ending| > year - 1 then ending[year - 1] else 0.0
  }

  /** The return of last year's short-term investment, from Year 2 on and only when it was positive. */
  function StReturnOf(year: nat, stInvestment: seq<real>, returnStInvestment: seq<real>): (r: real)
    requires year >= 1
    requires year > 1 && |stInvestment| >= year && stInvestment[year - 1] > 0.0 ==> year - 1 < |returnStInvestment|
    ensures year == 1 ==> r == 0.0
  {
    if year > 1 && |stInvestment| >= year then
      var prevInvestment := stInvestment[year - 1];
      if prevInvestment > 0.0 then Times(prevInvestment, returnStInvestment[year - 1]) else 0.0
    else 0.0
  }

  /** `max(0, ebt * rate)`: losses are not taxed and earn no credit. */
  function IncomeTax(ebt: real, taxRate: real): (t: real)
    ensures t >= 0.0 && t >= Times(ebt, taxRate)
  {
    Floor0(Times(ebt, taxRate))
  }

  /**
   * The statement of one year: earnings before tax from the operating
   * figures, the interest and the investment return; a tax of
   * `max(0, ebt * rate)`; dividends as the payout share of net income.
   */
  function IncomeYearOf(salesRevenue: real, cogs: real, asExpenses: real, depreciation: real,
                        interest: real, stReturn: real, taxRate: real, payoutRatio: real): (y: IncomeYear)
    ensures y.ebt == salesRevenue - cogs - asExpenses - depreciation - interest + stReturn
    ensures y.incomeTax == IncomeTax(y.ebt, taxRate) && y.netIncome + y.incomeTax == y.ebt
    ensures y.nextYearDividends == Times(y.netIncome, payoutRatio)
  {
    var grossIncome := salesRevenue - cogs;
    var ebit := grossIncome - asExpenses - depreciation;
    var ebt := ebit - interest + stReturn;
    var incomeTax := IncomeTax(ebt, taxRate);
    var netIncome := ebt - incomeTax;
    IncomeYear(salesRevenue, cogs, grossIncome, asExpenses, depreciation, ebit, interest, stReturn,
               ebt, incomeTax, netIncome, Times(netIncome, payoutRatio))
  }

  /**
   * Tax and net income: with a rate in [0, 1], a profit is taxed at the
   * rate and keeps a share of itself between 0 and all of it; a loss pays
   * no tax and passes to net income whole.
   */
  lemma TaxAndNetIncome(ebt: real, taxRate: real)
    requires 0.0 <= taxRate <= 1.0
    ensures ebt >= 0.0 ==> IncomeTax(ebt, taxRate) == Times(ebt, taxRate) && 0.0 <= ebt - IncomeTax(ebt, taxRate) <= ebt
    ensures ebt < 0.0 ==> IncomeTax(ebt, taxRate) == 0.0
  {
    if ebt >= 0.0 {
      MulNonNeg(ebt, taxRate);
      MulAtMostOne(ebt, taxRate);
    } else {
      MulNonPos(ebt, taxRate);
    }
  }

  // ---------------------------------------------------------------------
  // Agreement with the cash budget
  // ---------------------------------------------------------------------

  /**
   * The interest the statement charges is the interest the cash budget
   * pays on the same debt schedule: short-term plus long-term interest on
   * last year's closing balances.
   */
  lemma InterestMatchesCashBudget(year: nat, im: IntermediateLists, inputs: InputData, ds: DebtLists,
                                  incomeTaxes: seq<real>, nextYearDividends: seq<real>, cash: CashLists)
    requires Readable(year, im, inputs, ds.stEndingBalance, nextYearDividends, cash)
    requires inputs.stLoanYears != 0.0 && inputs.pctFinancingWithDebt != 0.0
    ensures var c := CashYearOf(DriversOf(year, im, inputs, ds, incomeTaxes, nextYearDividends, cash),
                                inputs.stLoanYears, inputs.pctFinancingWithDebt);
      InterestOn(OpeningBalance(ds.stEndingBalance, year), im.costOfDebt[year - 1]) +
      InterestOn(OpeningBalance(ds.ltEndingBalance, year), im.costOfDebt[year - 1]) ==
      c.stLoanInterestPayment + c.ltLoanInterestPayment
  {
  }

  /**
   * The investment return the statement books is the return the cash
   * budget collects, once the budget holds Years 0 .. year - 1.
   */
  lemma StReturnMatchesCashBudget(year: nat, im: IntermediateLists, inputs: InputData, ds: DebtLists,
                                  incomeTaxes: seq<real>, nextYearDividends: seq<real>, cash: CashLists)
    requires Readable(year, im, inputs, ds.stEndingBalance, nextYearDividends, cash) && |cash.stInvestment| == year
    requires inputs.stLoanYears != 0.0 && inputs.pctFinancingWithDebt != 0.0
    ensures var c := CashYearOf(DriversOf(year, im, inputs, ds, incomeTaxes, nextYearDividends, cash),
                                inputs.stLoanYears, inputs.pctFinancingWithDebt);
      StReturnOf(year, cash.stInvestment, im.returnStInvestment) == c.stInvestmentReturn
  {
  }

  // ---------------------------------------------------------------------
  // The lists
  // ---------------------------------------------------------------------

  /** Every list of the statement, under the attribute names of the source. */
  datatype IncomeLists = IncomeLists(
    salesRevenues: seq<real>, cogs: seq<real>, grossIncome: seq<real>, asExpenses: seq<real>,
    depreciation: seq<real>, ebit: seq<real>, interestPayments: seq<real>, stInvestmentReturn: seq<real>,
    ebt: seq<real>, incomeTaxes: seq<real>, netIncome: seq<real>, nextYearDividends: seq<real>,
    cumulatedRetainedEarnings: seq<real>)

  /** The lists right after construction: only the cumulated retained earnings hold Year 0. */
  function StartLists(): (l: IncomeLists)
    ensures l.cumulatedRetainedEarnings == [0.0] && l.netIncome == []
  {
    IncomeLists([], [], [], [], [], [], [], [], [], [], [], [], [0.0])
  }

  /** Whether `calculate_year(year)` finds the entries it reads in the statement's own lists. */
  ghost predicate OwnReadable(l: IncomeLists, year: nat) {
    1 <= year && year - 1 < |l.cumulatedRetainedEarnings| && year - 1 <= |l.netIncome| &&
    (year > 1 ==> year - 2 <= |l.nextYearDividends|)
  }

  /**
   * The lists after `calculate_year(year)` appends `y`, with the new
   * cumulated retained earnings read from the lists as extended:
   * last year's cumulated amount, net income and dividends.
   */
  function WithIncomeYear(l: IncomeLists, y: IncomeYear, year: nat): IncomeLists
    requires OwnReadable(l, year)
  {
    var netIncome := l.netIncome + [y.netIncome];
    var dividends := l.nextYearDividends + [y.nextYearDividends];
    var cumulated := l.cumulatedRetainedEarnings[year - 1] + netIncome[year - 1] -
                     (if year > 1 then dividends[year - 2] else 0.0);
    l.(salesRevenues := l.salesRevenues + [y.salesRevenue], cogs := l.cogs + [y.cogs],
       grossIncome := l.grossIncome + [y.grossIncome], asExpenses := l.asExpenses + [y.asExpenses],
       depreciation := l.depreciation + [y.depreciation], ebit := l.ebit + [y.ebit],
       interestPayments := l.interestPayments + [y.interestPayments],
       stInvestmentReturn := l.stInvestmentReturn + [y.stInvestmentReturn],
       ebt := l.ebt + [y.ebt], incomeTaxes := l.incomeTaxes + [y.incomeTax], netIncome := netIncome,
       nextYearDividends := dividends,
       cumulatedRetainedEarnings := l.cumulatedRetainedEarnings + [cumulated])
  }

  /**
   * The statement after Years 1 .. y with the Year-0 entries the forecaster
   * puts in front of net income (and of tax, earnings before tax and
   * interest): net income holds Years 0 .. y with Year 0 at 0, dividends
   * Years 1 .. y, cumulated retained earnings Years 0 .. y starting at 0,
   * and every year's retained earnings are the previous year's plus its
   * net income less its dividends.
   */
  ghost predicate Retained(l: IncomeLists, y: nat) {
    |l.netIncome| == y + 1 && |l.nextYearDividends| == y && |l.cumulatedRetainedEarnings| == y + 1 &&
    |l.incomeTaxes| == y + 1 && |l.interestPayments| == y + 1 && |l.ebt| == y + 1 &&
    l.netIncome[0] == 0.0 && l.cumulatedRetainedEarnings[0] == 0.0 &&
    (forall k :: 1 <= k <= y ==> l.cumulatedRetainedEarnings[k] ==
                                  l.cumulatedRetainedEarnings[k - 1] + l.netIncome[k - 1] - DeclaredOn(l.nextYearDividends, k - 1))
  }

  /** The dividends declared on Year k's income, paid in Year k + 1; none for Year 0. */
  function DeclaredOn(dividends: seq<real>, k: nat): real {
    if 1 <= k && k - 1 < |dividends| then dividends[k - 1] else 0.0
  }

  /** The forecaster's Year-0 entries start the roll. */
  lemma PreseededRetained()
    ensures Retained(StartLists().(incomeTaxes := [0.0], ebt := [0.0], netIncome := [0.0], interestPayments := [0.0]), 0)
  {
  }

  /** Each year's `calculate_year` keeps the roll. */
  lemma RetainedStep(l: IncomeLists, y: IncomeYear, year: nat)
    requires year >= 1 && Retained(l, year - 1)
    ensures OwnReadable(l, year) && Retained(WithIncomeYear(l, y, year), year)
  {
    var l' := WithIncomeYear(l, y, year);
    assert year > 1 ==> l'.nextYearDividends[year - 2] == DeclaredOn(l'.nextYearDividends, year - 1);
    forall k | 1 <= k < year
      ensures l'.cumulatedRetainedEarnings[k] ==
              l'.cumulatedRetainedEarnings[k - 1] + l'.netIncome[k - 1] - DeclaredOn(l'.nextYearDividends, k - 1)
    {
      assert DeclaredOn(l'.nextYearDividends, k - 1) == DeclaredOn(l.nextYearDividends, k - 1);
    }
  }

  /** The dividends declared on the income of Years 1 .. k - 1, which are paid through Year k. */
  function DeclaredBefore(dividends: seq<real>, k: nat): real {
    if k == 0 then 0.0 else DeclaredBefore(dividends, k - 1) + DeclaredOn(dividends, k - 1)
  }

  /**
   * The cumulated retained earnings of Year k are all net income of
   * Years 0 .. k - 1 less the dividends declared on Years 1 .. k - 1
   * (paid through Year k).
   */
  lemma {:induction false} RetainedEarningsClosedForm(l: IncomeLists, y: nat, k: nat)
    requires Retained(l, y) && k <= y
    ensures l.cumulatedRetainedEarnings[k] == Sum(l.netIncome[..k]) - DeclaredBefore(l.nextYearDividends, k)
  {
    if k > 0 {
      RetainedEarningsClosedForm(l, y, k - 1);
      assert l.netIncome[..k] == l.netIncome[..k - 1] + [l.netIncome[k - 1]];
      SumAppend(l.netIncome[..k - 1], l.netIncome[k - 1]);
    }
  }

  // ---------------------------------------------------------------------
  // The stateful statement
  // ---------------------------------------------------------------------

  /** `IncomeStatement`. Its lists live in one record field, `lists`. */
  class IncomeStatement {
    const inputs: InputData
    const intermediate: Intermediate
    var lists: IncomeLists

    constructor (inputs: InputData, intermediate: Intermediate)
      ensures this.inputs == inputs && this.intermediate == intermediate && lists == StartLists()
    {
      this.inputs := inputs;
      this.intermediate := intermediate;
      lists := StartLists();
    }

    /**
     * `calculate_year(year, cash_budget, debt_schedule)`: reads only last
     * year's closing debt and last year's short-term investment, so it
     * can run before the cash budget and the debt schedule of `year`.
     */
    method CalculateYear(year: nat, cb: CashBudget, ds: DebtSchedule)
      requires OwnReadable(lists, year)
      requires year - 1 < |intermediate.lists.totalSalesRevenue| && year - 1 < |intermediate.lists.cogs| &&
               year - 1 < |intermediate.lists.totalAsExpenses| && year < |intermediate.lists.totalDepreciation| &&
               year - 1 < |intermediate.lists.costOfDebt|
      requires year > 1 && |cb.lists.stInvestment| >= year && cb.lists.stInvestment[year - 1] > 0.0 ==>
               year - 1 < |intermediate.lists.returnStInvestment|
      modifies this
      ensures var im := intermediate.lists;
        var interest := InterestOn(OpeningBalance(ds.lists.stEndingBalance, year), im.costOfDebt[year - 1]) +
                        InterestOn(OpeningBalance(ds.lists.ltEndingBalance, year), im.costOfDebt[year - 1]);
        lists == WithIncomeYear(old(lists),
                   IncomeYearOf(im.totalSalesRevenue[year - 1], im.cogs[year - 1], im.totalAsExpenses[year - 1],
                                im.totalDepreciation[year], interest,
                                StReturnOf(year, cb.lists.stInvestment, im.returnStInvestment),
                                inputs.corporateTaxRate, inputs.payoutRatio), year)
    {
      var im := intermediate.lists;
      var i := year - 1;
      var depreciation := im.totalDepreciation[year];
      // interest on last year's closing debt
      var stBeginning := if |ds.lists.stEndingBalance| > year - 1 then ds.lists.stEndingBalance[year - 1] else 0.0;
      var ltBeginning := if |ds.lists.ltEndingBalance| > year - 1 then ds.lists.ltEndingBalance[year - 1] else 0.0;
      var costOfDebt := im.costOfDebt[i];
      var stInterest := if stBeginning > 0.0 then stBeginning * costOfDebt else 0.0;
      var ltInterest := if ltBeginning > 0.0 then ltBeginning * costOfDebt else 0.0;
      // return of last year's short-term investment
      var stReturn := 0.0;
      if year > 1 && |cb.lists.stInvestment| >= year {
        var prevInvestment := cb.lists.stInvestment[year - 1];
        stReturn := if prevInvestment > 0.0 then prevInvestment * im.returnStInvestment[i] else 0.0;
      }
      var y := IncomeYearOf(im.totalSalesRevenue[i], im.cogs[i], im.totalAsExpenses[i], depreciation,
                            stInterest + ltInterest, stReturn, inputs.corporateTaxRate, inputs.payoutRatio);
      assert stBeginning == OpeningBalance(ds.lists.stEndingBalance, year);
      assert ltBeginning == OpeningBalance(ds.lists.ltEndingBalance, year);
      assert stInterest == InterestOn(stBeginning, costOfDebt) && ltInterest == InterestOn(ltBeginning, costOfDebt);
      assert stReturn == StReturnOf(year, cb.lists.stInvestment, im.returnStInvestment);
      // cumulated retained earnings from last year's entries
      var netIncomes := lists.netIncome + [y.netIncome];
      var declared := lists.nextYearDividends + [y.nextYearDividends];
      var cumulated := lists.cumulatedRetainedEarnings[year - 1] + netIncomes[year - 1] -
                       (if year > 1 then declared[year - 2] else 0.0);
      lists := lists.(salesRevenues := lists.salesRevenues + [y.salesRevenue], cogs := lists.cogs + [y.cogs],
                      grossIncome := lists.grossIncome + [y.grossIncome], asExpenses := lists.asExpenses + [y.asExpenses],
                      depreciation := lists.depreciation + [y.depreciation], ebit := lists.ebit + [y.ebit],
                      interestPayments := lists.interestPayments + [y.interestPayments],
                      stInvestmentReturn := lists.stInvestmentReturn + [y.stInvestmentReturn],
                      ebt := lists.ebt + [y.ebt], incomeTaxes := lists.incomeTaxes + [y.incomeTax],
                      netIncome := netIncomes, nextYearDividends := declared,
                      cumulatedRetainedEarnings := lists.cumulatedRetainedEarnings + [cumulated]);
      assert lists == WithIncomeYear(old(lists), y, year);
    }
  }
}
