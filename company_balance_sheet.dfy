/**
 * BalanceSheet of the company engine: Year 0 from history with "other"
 * residual lines, then each year compiled from the cash budget, the debt
 * schedule, the intermediate series and the income statement, with the
 * balance check as the difference of the two sides.
 */
module CompanyBalanceSheet {
  import opened Wrappers
  import opened RealArith
  import opened CompanyInputs
  import opened CompanyIntermediate
  import opened CompanyDebtSchedule
  import opened CompanyIncomeStatement
  import opened CompanyCashBudget

  /** The statement's lists, under the attribute names of the source. */
  datatype BalanceLists = BalanceLists(
    cash: seq<real>, accountsReceivable: seq<real>, inventory: seq<real>, stInvestment: seq<real>,
    otherCurrentAssets: seq<real>, currentAssets: seq<real>,
    netPpe: seq<real>, goodwill: seq<real>, intangibleAssets: seq<real>, otherNonCurrentAssets: seq<real>,
    totalNonCurrentAssets: seq<real>, totalAssets: seq<real>,
    accountsPayable: seq<real>, shortTermDebt: seq<real>, otherCurrentLiabilities: seq<real>,
    currentLiabilities: seq<real>, longTermDebt: seq<real>, otherNonCurrentLiabilities: seq<real>,
    totalNonCurrentLiabilities: seq<real>, totalLiabilities: seq<real>,
    retainedEarnings: seq<real>, otherEquity: seq<real>, totalEquity: seq<real>,
    minorityInterest: seq<real>, totalLiabilitiesEquity: seq<real>, balanceCheck: seq<real>)

  /** One year's entry in every list. */
  datatype BalanceRow = BalanceRow(
    cash: real, accountsReceivable: real, inventory: real, stInvestment: real,
    otherCurrentAssets: real, currentAssets: real,
    netPpe: real, goodwill: real, intangibleAssets: real, otherNonCurrentAssets: real,
    totalNonCurrentAssets: real, totalAssets: real,
    accountsPayable: real, shortTermDebt: real, otherCurrentLiabilities: real,
    currentLiabilities: real, longTermDebt: real, otherNonCurrentLiabilities: real,
    totalNonCurrentLiabilities: real, totalLiabilities: real,
    retainedEarnings: real, otherEquity: real, totalEquity: real,
    minorityInterest: real, totalLiabilitiesEquity: real, balanceCheck: real)

  function AppendBalanceRow(l: BalanceLists, r: BalanceRow): BalanceLists {
    BalanceLists(
      l.cash + [r.cash], l.accountsReceivable + [r.accountsReceivable], l.inventory + [r.inventory],
      l.stInvestment + [r.stInvestment], l.otherCurrentAssets + [r.otherCurrentAssets],
      l.currentAssets + [r.currentAssets], l.netPpe + [r.netPpe], l.goodwill + [r.goodwill],
      l.intangibleAssets + [r.intangibleAssets], l.otherNonCurrentAssets + [r.otherNonCurrentAssets],
      l.totalNonCurrentAssets + [r.totalNonCurrentAssets], l.totalAssets + [r.totalAssets],
      l.accountsPayable + [r.accountsPayable], l.shortTermDebt + [r.shortTermDebt],
      l.otherCurrentLiabilities + [r.otherCurrentLiabilities], l.currentLiabilities + [r.currentLiabilities],
      l.longTermDebt + [r.longTermDebt], l.otherNonCurrentLiabilities + [r.otherNonCurrentLiabilities],
      l.totalNonCurrentLiabilities + [r.totalNonCurrentLiabilities], l.totalLiabilities + [r.totalLiabilities],
      l.retainedEarnings + [r.retainedEarnings], l.otherEquity + [r.otherEquity], l.totalEquity + [r.totalEquity],
      l.minorityInterest + [r.minorityInterest], l.totalLiabilitiesEquity + [r.totalLiabilitiesEquity],
      l.balanceCheck + [r.balanceCheck])
  }

  /** Every list holds Year 0 .. k. */
  ghost predicate BalanceSpans(l: BalanceLists, k: nat) {
    |l.cash| == k + 1 && |l.accountsReceivable| == k + 1 && |l.inventory| == k + 1 &&
    |l.stInvestment| == k + 1 && |l.otherCurrentAssets| == k + 1 && |l.currentAssets| == k + 1 &&
    |l.netPpe| == k + 1 && |l.goodwill| == k + 1 && |l.intangibleAssets| == k + 1 &&
    |l.otherNonCurrentAssets| == k + 1 && |l.totalNonCurrentAssets| == k + 1 && |l.totalAssets| == k + 1 &&
    |l.accountsPayable| == k + 1 && |l.shortTermDebt| == k + 1 && |l.otherCurrentLiabilities| == k + 1 &&
    |l.currentLiabilities| == k + 1 && |l.longTermDebt| == k + 1 && |l.otherNonCurrentLiabilities| == k + 1 &&
    |l.totalNonCurrentLiabilities| == k + 1 && |l.totalLiabilities| == k + 1 &&
    |l.retainedEarnings| == k + 1 && |l.otherEquity| == k + 1 && |l.totalEquity| == k + 1 &&
    |l.minorityInterest| == k + 1 && |l.totalLiabilitiesEquity| == k + 1 && |l.balanceCheck| == k + 1
  }

  /** The entry of year k in every list. */
  function BalanceRowAt(l: BalanceLists, k: nat): BalanceRow
    requires |l.cash| >= 1 && BalanceSpans(l, |l.cash| - 1) && k < |l.cash|
  {
    BalanceRow(
      l.cash[k], l.accountsReceivable[k], l.inventory[k], l.stInvestment[k], l.otherCurrentAssets[k],
      l.currentAssets[k], l.netPpe[k], l.goodwill[k], l.intangibleAssets[k], l.otherNonCurrentAssets[k],
      l.totalNonCurrentAssets[k], l.totalAssets[k], l.accountsPayable[k], l.shortTermDebt[k],
      l.otherCurrentLiabilities[k], l.currentLiabilities[k], l.longTermDebt[k],
      l.otherNonCurrentLiabilities[k], l.totalNonCurrentLiabilities[k], l.totalLiabilities[k],
      l.retainedEarnings[k], l.otherEquity[k], l.totalEquity[k], l.minorityInterest[k],
      l.totalLiabilitiesEquity[k], l.balanceCheck[k])
  }

  lemma AppendBalanceRowAt(l: BalanceLists, r: BalanceRow, k: nat)
    requires 1 <= k && BalanceSpans(l, k - 1)
    ensures BalanceSpans(AppendBalanceRow(l, r), k)
    ensures BalanceRowAt(AppendBalanceRow(l, r), k) == r
    ensures forall j :: 0 <= j < k ==> BalanceRowAt(AppendBalanceRow(l, r), j) == BalanceRowAt(l, j)
  {
  }

  /** The nine asset lines of a year, added up. */
  function AssetLines(r: BalanceRow): real {
    r.cash + r.accountsReceivable + r.inventory + r.stInvestment + r.otherCurrentAssets +
    r.netPpe + r.goodwill + r.intangibleAssets + r.otherNonCurrentAssets
  }

  /** The eight liability, equity and minority lines of a year, added up. */
  function ClaimLines(r: BalanceRow): real {
    r.accountsPayable + r.shortTermDebt + r.otherCurrentLiabilities + r.longTermDebt +
    r.otherNonCurrentLiabilities + r.retainedEarnings + r.otherEquity + r.minorityInterest
  }

  // ---------------------------------------------------------------------
  // Year 0
  // ---------------------------------------------------------------------

  /** The Year-0 statement: history, with each "other" line the non-negative rest of its subtotal. */
  function Year0BalanceRow(inputs: Inputs): (r: BalanceRow)
    ensures r.retainedEarnings + r.otherEquity == r.totalEquity
    ensures r.balanceCheck == r.totalAssets - r.totalLiabilitiesEquity
    ensures r.otherCurrentAssets >= 0.0 && r.otherNonCurrentAssets >= 0.0
    ensures r.otherCurrentLiabilities >= 0.0 && r.otherNonCurrentLiabilities >= 0.0
    ensures r.minorityInterest == OrElse(inputs.minorityInterestYear0, 0.0)
    ensures r.totalLiabilitiesEquity == inputs.totalLiabilitiesYear0 + inputs.totalEquityYear0 + r.minorityInterest
  {
    var mi := OrElse(inputs.minorityInterestYear0, 0.0);
    var tle := inputs.totalLiabilitiesYear0 + inputs.totalEquityYear0 + mi;
    BalanceRow(
      inputs.cashYear0, inputs.accountsReceivableYear0, inputs.inventoryYear0, 0.0,
      Floor0(inputs.currentAssetsYear0 - inputs.cashYear0 - inputs.accountsReceivableYear0 - inputs.inventoryYear0),
      inputs.currentAssetsYear0,
      inputs.netPpeYear0, inputs.goodwillYear0, inputs.intangibleAssetsYear0,
      Floor0(inputs.totalAssetsYear0 - inputs.currentAssetsYear0 - inputs.netPpeYear0 -
             inputs.goodwillYear0 - inputs.intangibleAssetsYear0),
      inputs.totalAssetsYear0 - inputs.currentAssetsYear0, inputs.totalAssetsYear0,
      inputs.accountsPayableYear0, inputs.shortTermDebtYear0,
      Floor0(inputs.currentLiabilitiesYear0 - inputs.accountsPayableYear0 - inputs.shortTermDebtYear0),
      inputs.currentLiabilitiesYear0, inputs.longTermDebtYear0,
      Floor0(inputs.totalLiabilitiesYear0 - inputs.currentLiabilitiesYear0 - inputs.longTermDebtYear0),
      inputs.totalLiabilitiesYear0 - inputs.currentLiabilitiesYear0, inputs.totalLiabilitiesYear0,
      inputs.retainedEarningsYear0, inputs.totalEquityYear0 - inputs.retainedEarningsYear0, inputs.totalEquityYear0,
      mi, tle, inputs.totalAssetsYear0 - tle)
  }

  function InitialBalanceLists(inputs: Inputs): BalanceLists {
    AppendBalanceRow(BalanceLists([], [], [], [], [], [], [], [], [], [], [], [], [], [], [], [], [], [], [], [],
                                  [], [], [], [], [], []), Year0BalanceRow(inputs))
  }

  /** None of the four Year-0 "other" residuals is clamped at zero. */
  ghost predicate ResidualsUnclamped(inputs: Inputs) {
    inputs.currentAssetsYear0 - inputs.cashYear0 - inputs.accountsReceivableYear0 - inputs.inventoryYear0 >= 0.0 &&
    inputs.totalAssetsYear0 - inputs.currentAssetsYear0 - inputs.netPpeYear0 -
      inputs.goodwillYear0 - inputs.intangibleAssetsYear0 >= 0.0 &&
    inputs.currentLiabilitiesYear0 - inputs.accountsPayableYear0 - inputs.shortTermDebtYear0 >= 0.0 &&
    inputs.totalLiabilitiesYear0 - inputs.currentLiabilitiesYear0 - inputs.longTermDebtYear0 >= 0.0
  }

  /**
   * With unclamped residuals the Year-0 lines add up to the reported totals,
   * so the Year-0 check is the difference of the two sides' lines; each
   * clamp that binds moves the check by its shortfall.
   */
  lemma Year0Lines(inputs: Inputs)
    ensures var r := Year0BalanceRow(inputs);
      AssetLines(r) >= inputs.totalAssetsYear0 &&
      ClaimLines(r) >= r.totalLiabilitiesEquity &&
      (ResidualsUnclamped(inputs) ==>
        AssetLines(r) == inputs.totalAssetsYear0 && ClaimLines(r) == r.totalLiabilitiesEquity &&
        r.balanceCheck == AssetLines(r) - ClaimLines(r))
  {
  }

  // ---------------------------------------------------------------------
  // A forecast year
  // ---------------------------------------------------------------------

  /**
   * The statement of a forecast year from the figures it copies; the "other"
   * lines and minority interest are the Year-0 entries carried forward.
   */
  function BalanceYearRow(cash: real, ar: real, inventory: real, stInvestment: real, otherCa: real,
                          netPpe: real, goodwill: real, intangibles: real, otherNca: real,
                          ap: real, stDebt: real, otherCl: real, ltDebt: real, otherNcl: real,
                          prevRe: real, netIncome: real, stReturn: real, dividends: real,
                          prevOtherEquity: real, newEquity: real, repurchases: real, minority: real): (r: BalanceRow)
    ensures r.cash == cash && r.accountsReceivable == ar && r.inventory == inventory && r.stInvestment == stInvestment
    ensures r.otherCurrentAssets == otherCa && r.netPpe == netPpe && r.goodwill == goodwill
    ensures r.intangibleAssets == intangibles && r.otherNonCurrentAssets == otherNca
    ensures r.accountsPayable == ap && r.shortTermDebt == stDebt && r.otherCurrentLiabilities == otherCl
    ensures r.longTermDebt == ltDebt && r.otherNonCurrentLiabilities == otherNcl && r.minorityInterest == minority
    ensures r.retainedEarnings == prevRe + netIncome + stReturn - dividends
    ensures r.otherEquity == prevOtherEquity + newEquity - repurchases
    ensures r.totalEquity == r.retainedEarnings + r.otherEquity
    ensures r.totalAssets == r.currentAssets + r.totalNonCurrentAssets && r.totalAssets == AssetLines(r)
    ensures r.totalLiabilities == r.currentLiabilities + r.totalNonCurrentLiabilities
    ensures r.totalLiabilitiesEquity == r.totalLiabilities + r.totalEquity + r.minorityInterest
    ensures r.totalLiabilitiesEquity == ClaimLines(r)
    ensures r.balanceCheck == AssetLines(r) - ClaimLines(r)
  {
    var currentAssets := cash + ar + inventory + stInvestment + otherCa;
    var totalNca := netPpe + goodwill + intangibles + otherNca;
    var totalAssets := currentAssets + totalNca;
    var currentLiabilities := ap + stDebt + otherCl;
    var totalNcl := ltDebt + otherNcl;
    var totalLiabilities := currentLiabilities + totalNcl;
    var retainedEarnings := prevRe + netIncome + stReturn - dividends;
    var otherEquity := prevOtherEquity + newEquity - repurchases;
    var totalEquity := retainedEarnings + otherEquity;
    var totalLe := totalLiabilities + totalEquity + minority;
    BalanceRow(cash, ar, inventory, stInvestment, otherCa, currentAssets, netPpe, goodwill, intangibles, otherNca,
               totalNca, totalAssets, ap, stDebt, otherCl, currentLiabilities, ltDebt, otherNcl, totalNcl,
               totalLiabilities, retainedEarnings, otherEquity, totalEquity, minority, totalLe,
               totalAssets - totalLe)
  }

  /** The statement `o` with the statement of `year` appended, as `calculate_year` compiles it. */
  function BalanceStep(o: BalanceLists, year: nat, il: IntermediateLists, cl: CashLists, dl: DebtLists,
                       isl: IncomeLists): BalanceLists
    requires 1 <= year
    requires year < |cl.cumulatedNcb| && year < |cl.stInvestment| && year < |cl.dividendsPaid|
    requires year < |cl.stInvestmentReturn| && year < |cl.equityInvested| && year < |cl.stockRepurchase|
    requires year < |il.accountsReceivable| && year < |il.inventory| && year < |il.netPpe|
    requires year < |il.goodwill| && year < |il.intangibleAssets| && year < |il.accountsPayable|
    requires year < |dl.stEndingBalance| && year < |dl.ltEndingBalance| && year < |isl.netIncome|
    requires year - 1 < |o.retainedEarnings| && year - 1 < |o.otherEquity|
    requires |o.otherCurrentAssets| >= 1 && |o.otherNonCurrentAssets| >= 1
    requires |o.otherCurrentLiabilities| >= 1 && |o.otherNonCurrentLiabilities| >= 1
    requires |o.minorityInterest| >= 1
  {
    AppendBalanceRow(o, BalanceYearRow(
      cl.cumulatedNcb[year], il.accountsReceivable[year], il.inventory[year], cl.stInvestment[year],
      o.otherCurrentAssets[0], il.netPpe[year], il.goodwill[year], il.intangibleAssets[year],
      o.otherNonCurrentAssets[0], il.accountsPayable[year], dl.stEndingBalance[year],
      o.otherCurrentLiabilities[0], dl.ltEndingBalance[year], o.otherNonCurrentLiabilities[0],
      o.retainedEarnings[year - 1], isl.netIncome[year], cl.stInvestmentReturn[year], cl.dividendsPaid[year],
      o.otherEquity[year - 1], cl.equityInvested[year], cl.stockRepurchase[year], o.minorityInterest[0]))
  }

  // ---------------------------------------------------------------------
  // The statement object
  // ---------------------------------------------------------------------

  class BalanceSheet {
    const inputs: Inputs
    var lists: BalanceLists

    constructor (inputs: Inputs)
      ensures this.inputs == inputs && lists == InitialBalanceLists(inputs)
    {
      this.inputs := inputs;
      lists := InitialBalanceLists(inputs);
    }

    /**
     * `calculate_year`: appends the statement of `year`, reading the
     * intermediate lists `il`, the cash budget's `cl`, the debt schedule's
     * `dl` and the income statement's `isl`.
     */
    method CalculateYear(year: nat, il: IntermediateLists, cl: CashLists, dl: DebtLists, isl: IncomeLists)
      requires 1 <= year
      requires year < |cl.cumulatedNcb| && year < |cl.stInvestment| && year < |cl.dividendsPaid|
      requires year < |cl.stInvestmentReturn| && year < |cl.equityInvested| && year < |cl.stockRepurchase|
      requires year < |il.accountsReceivable| && year < |il.inventory| && year < |il.netPpe|
      requires year < |il.goodwill| && year < |il.intangibleAssets| && year < |il.accountsPayable|
      requires year < |dl.stEndingBalance| && year < |dl.ltEndingBalance| && year < |isl.netIncome|
      requires year - 1 < |lists.retainedEarnings| && year - 1 < |lists.otherEquity|
      requires |lists.otherCurrentAssets| >= 1 && |lists.otherNonCurrentAssets| >= 1
      requires |lists.otherCurrentLiabilities| >= 1 && |lists.otherNonCurrentLiabilities| >= 1
      requires |lists.minorityInterest| >= 1
      modifies this
      ensures lists == BalanceStep(old(lists), year, il, cl, dl, isl)
    {
      var l := lists;
      var row := BalanceYearRow(
        cl.cumulatedNcb[year], il.accountsReceivable[year], il.inventory[year], cl.stInvestment[year],
        l.otherCurrentAssets[0], il.netPpe[year], il.goodwill[year], il.intangibleAssets[year],
        l.otherNonCurrentAssets[0], il.accountsPayable[year], dl.stEndingBalance[year],
        l.otherCurrentLiabilities[0], dl.ltEndingBalance[year], l.otherNonCurrentLiabilities[0],
        l.retainedEarnings[year - 1], isl.netIncome[year], cl.stInvestmentReturn[year], cl.dividendsPaid[year],
        l.otherEquity[year - 1], cl.equityInvested[year], cl.stockRepurchase[year], l.minorityInterest[0]);
      lists := AppendBalanceRow(l, row);
    }
  }
}
