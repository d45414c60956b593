/**
 * IncomeStatement of the company engine: one year at a time, EBIT from the
 * driver series, interest on the debt that closed the previous year, tax
 * and dividend floors, and the retained-earnings roll.
 */
module CompanyIncomeStatement {
  import opened Wrappers
  import opened RealArith
  import opened CompanyInputs
  import opened CompanyIntermediate
  import opened CompanyDebtSchedule

  /** The statement's lists, under the attribute names of the source. */
  datatype IncomeLists = IncomeLists(
    revenue: seq<real>, cogs: seq<real>, grossProfit: seq<real>, sgaExpenses: seq<real>,
    depreciation: seq<real>, operatingIncome: seq<real>,
    interestExpense: seq<real>, interestIncome: seq<real>,
    ebt: seq<real>, incomeTaxes: seq<real>, netIncome: seq<real>,
    dividends: seq<real>, cumulatedRetainedEarnings: seq<real>)

  /** The Year-0 entries, taken from history. */
  function InitialIncomeLists(inputs: Inputs): IncomeLists {
    IncomeLists(
      [inputs.revenueYear0], [inputs.cogsYear0], [inputs.grossProfitYear0], [inputs.sgaYear0],
      [inputs.depreciationYear0], [inputs.operatingIncomeYear0],
      [inputs.interestExpenseYear0], [0.0],
      [inputs.pretaxIncomeYear0], [inputs.taxProvisionYear0], [inputs.netIncomeYear0],
      [inputs.dividendsPaidYear0], [inputs.retainedEarningsYear0])
  }

  /** Every list holds Year 0 .. k. */
  ghost predicate IncomeSpans(l: IncomeLists, k: nat) {
    |l.revenue| == k + 1 && |l.cogs| == k + 1 && |l.grossProfit| == k + 1 && |l.sgaExpenses| == k + 1 &&
    |l.depreciation| == k + 1 && |l.operatingIncome| == k + 1 && |l.interestExpense| == k + 1 &&
    |l.interestIncome| == k + 1 && |l.ebt| == k + 1 && |l.incomeTaxes| == k + 1 && |l.netIncome| == k + 1 &&
    |l.dividends| == k + 1 && |l.cumulatedRetainedEarnings| == k + 1
  }

  // ---------------------------------------------------------------------
  // The year's figures
  // ---------------------------------------------------------------------

  /**
   * The return on last year's short-term investment: none in Year 1, none
   * when the cash budget has no entry for last year or it is not positive.
   */
  function InterestIncome(stInvestment: seq<real>, year: nat, rate: real): (r: real)
    ensures year <= 1 || |stInvestment| < year ==> r == 0.0
    ensures year > 1 && |stInvestment| >= year && stInvestment[year - 1] <= 0.0 ==> r == 0.0
    ensures year > 1 && |stInvestment| >= year && stInvestment[year - 1] > 0.0 ==>
      r == Times(stInvestment[year - 1], rate)
    ensures rate >= 0.0 ==> r >= 0.0
  {
    if year > 1 && |stInvestment| >= year && stInvestment[year - 1] > 0.0 then stInvestment[year - 1] * rate
    else 0.0
  }

  /** `max(0, amount * rate)`: the income tax on EBT and the dividend on net income. */
  function NonNegativeShare(amount: real, rate: real): (r: real)
    ensures r >= 0.0 && r >= Times(amount, rate)
    ensures r == 0.0 || r == Times(amount, rate)
    ensures amount <= 0.0 && rate >= 0.0 ==> r == 0.0
    ensures amount >= 0.0 && rate >= 0.0 ==> r == Times(amount, rate)
  {
    if amount >= 0.0 && rate >= 0.0 then MulNonNeg(amount, rate); Floor0(amount * rate)
    else if amount <= 0.0 && rate >= 0.0 then MulNonPos(amount, rate); Floor0(amount * rate)
    else Floor0(amount * rate)
  }

  /**
   * The statement of year k (k >= 1) as the engine defines it: EBIT from the
   * driver series at k, interest on the balances at k-1 at the rate of k-1,
   * the floors, and retained earnings lagging one year.
   */
  ghost predicate IncomeYear(l: IncomeLists, il: IntermediateLists, dl: DebtLists, stInvestment: seq<real>,
                             taxRate: real, payoutRatio: real, k: nat)
    requires 1 <= k && IncomeSpans(l, k)
    requires k < |il.revenue| && k < |il.cogs| && k < |il.grossProfit| && k < |il.sgaExpenses|
    requires k < |il.depreciation| && k <= |il.costOfDebt| && k <= |il.returnStInvestment|
    requires k <= |dl.stEndingBalance| && k <= |dl.ltEndingBalance|
  {
    l.revenue[k] == il.revenue[k] && l.cogs[k] == il.cogs[k] && l.grossProfit[k] == il.grossProfit[k] &&
    l.sgaExpenses[k] == il.sgaExpenses[k] && l.depreciation[k] == il.depreciation[k] &&
    l.operatingIncome[k] == il.grossProfit[k] - il.sgaExpenses[k] - il.depreciation[k] &&
    l.interestExpense[k] == InterestOnPrior(dl.stEndingBalance, k, il.costOfDebt[k - 1]) +
                            InterestOnPrior(dl.ltEndingBalance, k, il.costOfDebt[k - 1]) &&
    l.interestIncome[k] == InterestIncome(stInvestment, k, il.returnStInvestment[k - 1]) &&
    l.ebt[k] == l.operatingIncome[k] - l.interestExpense[k] + l.interestIncome[k] &&
    l.incomeTaxes[k] == NonNegativeShare(l.ebt[k], taxRate) &&
    l.netIncome[k] == l.ebt[k] - l.incomeTaxes[k] &&
    l.dividends[k] == NonNegativeShare(l.netIncome[k], payoutRatio) &&
    l.cumulatedRetainedEarnings[k] ==
      l.cumulatedRetainedEarnings[k - 1] + l.netIncome[k - 1] - l.dividends[k - 1]
  }

  /** The statement `o` with the entries of `year` appended, as `calculate_year` computes them. */
  function IncomeStep(o: IncomeLists, year: nat, il: IntermediateLists, dl: DebtLists, stInvestment: seq<real>,
                      taxRate: real, payoutRatio: real): IncomeLists
    requires 1 <= year
    requires year < |il.revenue| && year < |il.cogs| && year < |il.grossProfit| && year < |il.sgaExpenses|
    requires year < |il.depreciation| && year <= |il.costOfDebt| && year <= |il.returnStInvestment|
    requires year <= |dl.stEndingBalance| && year <= |dl.ltEndingBalance|
    requires year <= |o.cumulatedRetainedEarnings| && year <= |o.netIncome| && year <= |o.dividends|
  {
    var cod := il.costOfDebt[year - 1];
    var oi := il.grossProfit[year] - il.sgaExpenses[year] - il.depreciation[year];
    var ie := InterestOnPrior(dl.stEndingBalance, year, cod) + InterestOnPrior(dl.ltEndingBalance, year, cod);
    var ii := InterestIncome(stInvestment, year, il.returnStInvestment[year - 1]);
    var ebt := oi - ie + ii;
    var tax := NonNegativeShare(ebt, taxRate);
    IncomeLists(
      o.revenue + [il.revenue[year]], o.cogs + [il.cogs[year]], o.grossProfit + [il.grossProfit[year]],
      o.sgaExpenses + [il.sgaExpenses[year]], o.depreciation + [il.depreciation[year]],
      o.operatingIncome + [oi], o.interestExpense + [ie], o.interestIncome + [ii],
      o.ebt + [ebt], o.incomeTaxes + [tax], o.netIncome + [ebt - tax],
      o.dividends + [NonNegativeShare(ebt - tax, payoutRatio)],
      o.cumulatedRetainedEarnings +
        [o.cumulatedRetainedEarnings[year - 1] + o.netIncome[year - 1] - o.dividends[year - 1]])
  }

  // ---------------------------------------------------------------------
  // The statement object
  // ---------------------------------------------------------------------

  class IncomeStatement {
    const inputs: Inputs
    var lists: IncomeLists

    constructor (inputs: Inputs)
      ensures this.inputs == inputs && lists == InitialIncomeLists(inputs)
    {
      this.inputs := inputs;
      lists := InitialIncomeLists(inputs);
    }

    /**
     * `calculate_year`: appends one entry to every list. `il` is the
     * intermediate calculator's lists, `dl` the debt schedule's and
     * `stInvestment` the cash budget's short-term-investment list.
     */
    method CalculateYear(year: nat, il: IntermediateLists, dl: DebtLists, stInvestment: seq<real>)
      requires 1 <= year
      requires year < |il.revenue| && year < |il.cogs| && year < |il.grossProfit| && year < |il.sgaExpenses|
      requires year < |il.depreciation| && year <= |il.costOfDebt| && year <= |il.returnStInvestment|
      requires year <= |dl.stEndingBalance| && year <= |dl.ltEndingBalance|
      requires year <= |lists.cumulatedRetainedEarnings| && year <= |lists.netIncome| && year <= |lists.dividends|
      modifies this
      ensures lists == IncomeStep(old(lists), year, il, dl, stInvestment, inputs.taxRate, inputs.payoutRatio)
    {
      var l := lists;
      var grossProfit := il.grossProfit[year];
      var sga := il.sgaExpenses[year];
      var depreciation := il.depreciation[year];
      var operatingIncome := grossProfit - sga - depreciation;

      var stDebtBegin := dl.stEndingBalance[year - 1];
      var ltDebtBegin := dl.ltEndingBalance[year - 1];
      var costOfDebt := il.costOfDebt[year - 1];
      var stInterest := if stDebtBegin > 0.0 then stDebtBegin * costOfDebt else 0.0;
      var ltInterest := if ltDebtBegin > 0.0 then ltDebtBegin * costOfDebt else 0.0;
      var interestExpense := stInterest + ltInterest;
      assert interestExpense == InterestOnPrior(dl.stEndingBalance, year, costOfDebt) +
                                InterestOnPrior(dl.ltEndingBalance, year, costOfDebt);

      var interestIncome := 0.0;
      if year > 1 && |stInvestment| >= year {
        var prevInvestment := stInvestment[year - 1];
        if prevInvestment > 0.0 {
          interestIncome := prevInvestment * il.returnStInvestment[year - 1];
        }
      }

      var ebt := operatingIncome - interestExpense + interestIncome;
      assert interestIncome == InterestIncome(stInvestment, year, il.returnStInvestment[year - 1]);
      var incomeTax := NonNegativeShare(ebt, inputs.taxRate);
      var netIncome := ebt - incomeTax;
      var dividends := NonNegativeShare(netIncome, inputs.payoutRatio);
      var cumRe := l.cumulatedRetainedEarnings[year - 1] + l.netIncome[year - 1] - l.dividends[year - 1];

      lists := IncomeLists(
        l.revenue + [il.revenue[year]], l.cogs + [il.cogs[year]], l.grossProfit + [grossProfit],
        l.sgaExpenses + [sga], l.depreciation + [depreciation],
        l.operatingIncome + [operatingIncome], l.interestExpense + [interestExpense],
        l.interestIncome + [interestIncome], l.ebt + [ebt], l.incomeTaxes + [incomeTax],
        l.netIncome + [netIncome], l.dividends + [dividends], l.cumulatedRetainedEarnings + [cumRe]);
    }
  }

  // ---------------------------------------------------------------------
  // What a year's update establishes
  // ---------------------------------------------------------------------

  /**
   * Appending the entries `CalculateYear` computes to a statement that holds
   * Year 0 .. k-1 gives one holding Year 0 .. k whose year k is `IncomeYear`.
   */
  lemma CalculateYearEstablishes(o: IncomeLists, l: IncomeLists, il: IntermediateLists, dl: DebtLists,
                                 stInvestment: seq<real>, taxRate: real, payoutRatio: real, k: nat)
    requires 1 <= k && IncomeSpans(o, k - 1)
    requires k <= |o.cumulatedRetainedEarnings| && k <= |o.netIncome| && k <= |o.dividends|
    requires k < |il.revenue| && k < |il.cogs| && k < |il.grossProfit| && k < |il.sgaExpenses|
    requires k < |il.depreciation| && k <= |il.costOfDebt| && k <= |il.returnStInvestment|
    requires k <= |dl.stEndingBalance| && k <= |dl.ltEndingBalance|
    requires l == IncomeStep(o, k, il, dl, stInvestment, taxRate, payoutRatio)
    ensures IncomeSpans(l, k)
    ensures IncomeYear(l, il, dl, stInvestment, taxRate, payoutRatio, k)
    ensures l.netIncome[..k] == o.netIncome && l.dividends[..k] == o.dividends
    ensures l.cumulatedRetainedEarnings[..k] == o.cumulatedRetainedEarnings
  {
  }

  /** Tax and dividends are never negative, and a loss year pays neither. */
  lemma FloorsOfYear(l: IncomeLists, il: IntermediateLists, dl: DebtLists, stInvestment: seq<real>,
                     taxRate: real, payoutRatio: real, k: nat)
    requires 1 <= k && IncomeSpans(l, k)
    requires k < |il.revenue| && k < |il.cogs| && k < |il.grossProfit| && k < |il.sgaExpenses|
    requires k < |il.depreciation| && k <= |il.costOfDebt| && k <= |il.returnStInvestment|
    requires k <= |dl.stEndingBalance| && k <= |dl.ltEndingBalance|
    requires IncomeYear(l, il, dl, stInvestment, taxRate, payoutRatio, k)
    requires taxRate >= 0.0 && payoutRatio >= 0.0
    ensures l.incomeTaxes[k] >= 0.0 && l.dividends[k] >= 0.0
    ensures l.ebt[k] <= 0.0 ==> l.incomeTaxes[k] == 0.0 && l.netIncome[k] == l.ebt[k] && l.dividends[k] == 0.0
  {
  }

  /**
   * No circularity: the interest expense of year k is the same for any two
   * debt schedules whose balances at k-1 agree.
   */
  lemma InterestExpenseReadsPriorYear(il: IntermediateLists, d1: DebtLists, d2: DebtLists, k: nat)
    requires 1 <= k <= |il.costOfDebt|
    requires k <= |d1.stEndingBalance| && k <= |d1.ltEndingBalance|
    requires k <= |d2.stEndingBalance| && k <= |d2.ltEndingBalance|
    requires d1.stEndingBalance[k - 1] == d2.stEndingBalance[k - 1]
    requires d1.ltEndingBalance[k - 1] == d2.ltEndingBalance[k - 1]
    ensures InterestOnPrior(d1.stEndingBalance, k, il.costOfDebt[k - 1]) +
            InterestOnPrior(d1.ltEndingBalance, k, il.costOfDebt[k - 1]) ==
            InterestOnPrior(d2.stEndingBalance, k, il.costOfDebt[k - 1]) +
            InterestOnPrior(d2.ltEndingBalance, k, il.costOfDebt[k - 1])
  {
    InterestReadsPriorYearOnly(d1.stEndingBalance, d2.stEndingBalance, k, il.costOfDebt[k - 1]);
    InterestReadsPriorYearOnly(d1.ltEndingBalance, d2.ltEndingBalance, k, il.costOfDebt[k - 1]);
  }
}
