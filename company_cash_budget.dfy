/**
 * CashBudget of the company engine: the five modules of one year
 * (operations, investment, external financing, owners, discretionary
 * short-term investment), the financing need sized to the minimum-cash
 * floor, and the sweep of surplus cash.
 */
module CompanyCashBudget {
  import opened Wrappers
  import opened RealArith
  import opened CompanyInputs
  import opened CompanyIntermediate
  import opened CompanyDebtSchedule
  import opened CompanyIncomeStatement

  /** The budget's lists, under the attribute names of the source. */
  datatype CashLists = CashLists(
    operatingCashFlow: seq<real>, investingCashFlow: seq<real>,
    stLoan: seq<real>, ltLoan: seq<real>, stPrincipalPayment: seq<real>, stInterestPayment: seq<real>,
    ltPrincipalPayment: seq<real>, ltInterestPayment: seq<real>, financingCashFlow: seq<real>,
    dividendsPaid: seq<real>, stockRepurchase: seq<real>, equityInvested: seq<real>, ownerCashFlow: seq<real>,
    stInvestment: seq<real>, stInvestmentRedemption: seq<real>, stInvestmentReturn: seq<real>,
    discretionaryCashFlow: seq<real>, yearNcb: seq<real>, cumulatedNcb: seq<real>)

  /** One year's entry in every list. */
  datatype CashRow = CashRow(
    operatingCf: real, investingCf: real,
    stLoan: real, ltLoan: real, stPrincipal: real, stInterest: real,
    ltPrincipal: real, ltInterest: real, financingCf: real,
    dividends: real, repurchase: real, equityInvested: real, ownerCf: real,
    stInvestment: real, redemption: real, stReturn: real,
    discretionaryCf: real, yearNcb: real, cumulatedNcb: real)

  const EmptyCashLists := CashLists([], [], [], [], [], [], [], [], [], [], [], [], [], [], [], [], [], [], [])

  function AppendRow(l: CashLists, r: CashRow): CashLists {
    CashLists(
      l.operatingCashFlow + [r.operatingCf], l.investingCashFlow + [r.investingCf],
      l.stLoan + [r.stLoan], l.ltLoan + [r.ltLoan], l.stPrincipalPayment + [r.stPrincipal],
      l.stInterestPayment + [r.stInterest], l.ltPrincipalPayment + [r.ltPrincipal],
      l.ltInterestPayment + [r.ltInterest], l.financingCashFlow + [r.financingCf],
      l.dividendsPaid + [r.dividends], l.stockRepurchase + [r.repurchase],
      l.equityInvested + [r.equityInvested], l.ownerCashFlow + [r.ownerCf],
      l.stInvestment + [r.stInvestment], l.stInvestmentRedemption + [r.redemption],
      l.stInvestmentReturn + [r.stReturn], l.discretionaryCashFlow + [r.discretionaryCf],
      l.yearNcb + [r.yearNcb], l.cumulatedNcb + [r.cumulatedNcb])
  }

  /** `list.insert(0, x)` on every list. */
  function PrependRow(r: CashRow, l: CashLists): CashLists {
    CashLists(
      [r.operatingCf] + l.operatingCashFlow, [r.investingCf] + l.investingCashFlow,
      [r.stLoan] + l.stLoan, [r.ltLoan] + l.ltLoan, [r.stPrincipal] + l.stPrincipalPayment,
      [r.stInterest] + l.stInterestPayment, [r.ltPrincipal] + l.ltPrincipalPayment,
      [r.ltInterest] + l.ltInterestPayment, [r.financingCf] + l.financingCashFlow,
      [r.dividends] + l.dividendsPaid, [r.repurchase] + l.stockRepurchase,
      [r.equityInvested] + l.equityInvested, [r.ownerCf] + l.ownerCashFlow,
      [r.stInvestment] + l.stInvestment, [r.redemption] + l.stInvestmentRedemption,
      [r.stReturn] + l.stInvestmentReturn, [r.discretionaryCf] + l.discretionaryCashFlow,
      [r.yearNcb] + l.yearNcb, [r.cumulatedNcb] + l.cumulatedNcb)
  }

  /** Every list holds Year 0 .. k. */
  ghost predicate CashSpans(l: CashLists, k: nat) {
    |l.operatingCashFlow| == k + 1 && |l.investingCashFlow| == k + 1 && |l.stLoan| == k + 1 &&
    |l.ltLoan| == k + 1 && |l.stPrincipalPayment| == k + 1 && |l.stInterestPayment| == k + 1 &&
    |l.ltPrincipalPayment| == k + 1 && |l.ltInterestPayment| == k + 1 && |l.financingCashFlow| == k + 1 &&
    |l.dividendsPaid| == k + 1 && |l.stockRepurchase| == k + 1 && |l.equityInvested| == k + 1 &&
    |l.ownerCashFlow| == k + 1 && |l.stInvestment| == k + 1 && |l.stInvestmentRedemption| == k + 1 &&
    |l.stInvestmentReturn| == k + 1 && |l.discretionaryCashFlow| == k + 1 && |l.yearNcb| == k + 1 &&
    |l.cumulatedNcb| == k + 1
  }

  /** The entry of year k in every list. */
  function RowAt(l: CashLists, k: nat): CashRow
    requires |l.cumulatedNcb| >= 1 && CashSpans(l, |l.cumulatedNcb| - 1) && k < |l.cumulatedNcb|
  {
    CashRow(
      l.operatingCashFlow[k], l.investingCashFlow[k], l.stLoan[k], l.ltLoan[k],
      l.stPrincipalPayment[k], l.stInterestPayment[k], l.ltPrincipalPayment[k], l.ltInterestPayment[k],
      l.financingCashFlow[k], l.dividendsPaid[k], l.stockRepurchase[k], l.equityInvested[k],
      l.ownerCashFlow[k], l.stInvestment[k], l.stInvestmentRedemption[k], l.stInvestmentReturn[k],
      l.discretionaryCashFlow[k], l.yearNcb[k], l.cumulatedNcb[k])
  }

  lemma AppendRowAt(l: CashLists, r: CashRow, k: nat)
    requires 1 <= k && CashSpans(l, k - 1)
    ensures CashSpans(AppendRow(l, r), k)
    ensures RowAt(AppendRow(l, r), k) == r
    ensures forall j :: 0 <= j < k ==> RowAt(AppendRow(l, r), j) == RowAt(l, j)
  {
  }

  // ---------------------------------------------------------------------
  // The year's budget as a function of the figures it reads
  // ---------------------------------------------------------------------

  /** Year 0: the historical operating and investing flows and payouts; no financing or investment. */
  function Year0Row(inputs: Inputs): CashRow {
    CashRow(
      inputs.operatingCashFlowYear0, -inputs.capexYear0,
      0.0, 0.0, 0.0, 0.0, 0.0, 0.0, 0.0,
      inputs.dividendsPaidYear0, inputs.stockRepurchaseYear0, 0.0,
      -inputs.dividendsPaidYear0 - inputs.stockRepurchaseYear0,
      0.0, 0.0, 0.0, 0.0, 0.0, inputs.cashYear0)
  }

  /** Cash before new financing: last year's cash, every flow of the year except new loans, equity and investment. */
  function BeforeFinancing(prevCash: real, r: CashRow): real {
    prevCash + r.operatingCf + r.investingCf - (r.stPrincipal + r.ltPrincipal) - r.dividends - r.repurchase
    + r.redemption + r.stReturn
  }

  /** New short-term loan, long-term loan and equity raised in one year. */
  datatype Financing = Financing(stLoan: real, ltLoan: real, equity: real)

  /**
   * A positive need is raised 30% as a short-term loan and the rest split
   * between a long-term loan and equity by the debt share; no need, nothing raised.
   */
  function NewFinancing(need: real, debtPct: real): (f: Financing)
    requires need >= 0.0
    ensures f.stLoan + f.ltLoan + f.equity == need
    ensures f.stLoan == Times(need, 0.3) && f.stLoan >= 0.0
    ensures f.ltLoan == Times(need - Times(need, 0.3), debtPct)
    ensures 0.0 <= debtPct <= 1.0 ==> f.ltLoan >= 0.0 && f.equity >= 0.0
  {
    if need > 0.0 then
      var stLoan := need * 0.3;
      var remaining := need - stLoan;
      MulSplit(remaining, debtPct);
      MulNonNeg(need, 0.3);
      if 0.0 <= debtPct <= 1.0 then
        MulNonNeg(remaining, debtPct);
        MulNonNeg(remaining, 1.0 - debtPct);
        Financing(stLoan, remaining * debtPct, remaining * (1.0 - debtPct))
      else
        Financing(stLoan, remaining * debtPct, remaining * (1.0 - debtPct))
    else
      Financing(0.0, 0.0, 0.0)
  }

  /**
   * The budget of one forecast year. `prevCash` and `prevStInvestment` are the
   * budget's own entries of last year; `stBeginning`, `ltBeginning` the debt
   * balances of last year; `ltPrincipal` the LT principal due this year.
   */
  function CashYearRow(prevCash: real, prevStInvestment: real, netIncome: real, depreciation: real,
                       changeWc: real, capex: real, dividends: real, repurchase: real, returnRate: real,
                       minCash: real, stBeginning: real, ltBeginning: real, costOfDebt: real,
                       ltPrincipal: real, debtPct: real): (r: CashRow)
    // the modules
    ensures r.operatingCf == netIncome + depreciation - changeWc && r.investingCf == -capex
    ensures r.dividends == dividends && r.repurchase == repurchase
    ensures r.redemption == prevStInvestment
    ensures r.stReturn == (if prevStInvestment > 0.0 then Times(prevStInvestment, returnRate) else 0.0)
    ensures r.stPrincipal == stBeginning && r.ltPrincipal == ltPrincipal
    ensures r.stInterest == (if stBeginning > 0.0 then Times(stBeginning, costOfDebt) else 0.0)
    ensures r.ltInterest == (if ltBeginning > 0.0 then Times(ltBeginning, costOfDebt) else 0.0)
    ensures r.financingCf == r.stLoan + r.ltLoan - (r.stPrincipal + r.ltPrincipal)
    ensures r.ownerCf == r.equityInvested - dividends - repurchase
    ensures r.discretionaryCf == r.redemption + r.stReturn - r.stInvestment
    ensures r.yearNcb == r.operatingCf + r.investingCf + r.financingCf + r.ownerCf + r.discretionaryCf
    ensures r.cumulatedNcb == prevCash + r.yearNcb
    // the financing need and the sweep
    ensures var need := Floor0(minCash - BeforeFinancing(prevCash, r));
      Financing(r.stLoan, r.ltLoan, r.equityInvested) == NewFinancing(need, debtPct) &&
      r.stInvestment == (if need == 0.0 && BeforeFinancing(prevCash, r) > minCash
                         then (BeforeFinancing(prevCash, r) - minCash) * 0.5 else 0.0)
  {
    var operatingCf := netIncome + depreciation - changeWc;
    var investingCf := -capex;
    var stReturn := if prevStInvestment > 0.0 then prevStInvestment * returnRate else 0.0;
    var stInterest := if stBeginning > 0.0 then stBeginning * costOfDebt else 0.0;
    var ltInterest := if ltBeginning > 0.0 then ltBeginning * costOfDebt else 0.0;
    var principal := stBeginning + ltPrincipal;
    var beforeFinancing := prevCash + operatingCf + investingCf - principal - dividends - repurchase
                           + prevStInvestment + stReturn;
    var need := Floor0(minCash - beforeFinancing);
    var f := NewFinancing(need, debtPct);
    var financingCf := f.stLoan + f.ltLoan - principal;
    var ownerCf := f.equity - dividends - repurchase;
    var afterAll := prevCash + operatingCf + investingCf + financingCf + ownerCf + prevStInvestment + stReturn;
    var excess := Floor0(afterAll - minCash);
    var stInvestment := if need == 0.0 && excess > 0.0 then excess * 0.5 else 0.0;
    var discretionaryCf := prevStInvestment + stReturn - stInvestment;
    var yearNcb := operatingCf + investingCf + financingCf + ownerCf + discretionaryCf;
    CashRow(operatingCf, investingCf, f.stLoan, f.ltLoan, stBeginning, stInterest, ltPrincipal, ltInterest,
            financingCf, dividends, repurchase, f.equity, ownerCf, stInvestment, prevStInvestment, stReturn,
            discretionaryCf, yearNcb, prevCash + yearNcb)
  }

  /**
   * The minimum-cash floor: a year that raises financing ends exactly at the
   * floor and invests nothing; any other year ends halfway between its cash
   * before financing and the floor, investing the other half of the excess.
   * Either way the year ends at or above the floor.
   */
  lemma CashFloor(prevCash: real, prevStInvestment: real, netIncome: real, depreciation: real,
                  changeWc: real, capex: real, dividends: real, repurchase: real, returnRate: real,
                  minCash: real, stBeginning: real, ltBeginning: real, costOfDebt: real,
                  ltPrincipal: real, debtPct: real)
    ensures var r := CashYearRow(prevCash, prevStInvestment, netIncome, depreciation, changeWc, capex,
                                 dividends, repurchase, returnRate, minCash, stBeginning, ltBeginning,
                                 costOfDebt, ltPrincipal, debtPct);
      var before := BeforeFinancing(prevCash, r);
      r.stInvestment >= 0.0 && r.cumulatedNcb >= minCash &&
      (before < minCash ==> r.cumulatedNcb == minCash && r.stInvestment == 0.0) &&
      (before >= minCash ==> r.cumulatedNcb == (before + minCash) / 2.0 && r.stInvestment == (before - minCash) / 2.0)
  {
    var r := CashYearRow(prevCash, prevStInvestment, netIncome, depreciation, changeWc, capex,
                         dividends, repurchase, returnRate, minCash, stBeginning, ltBeginning,
                         costOfDebt, ltPrincipal, debtPct);
    var before := BeforeFinancing(prevCash, r);
    var need := Floor0(minCash - before);
    // cash after every flow but the sweep is the cash before financing plus what was raised
    assert prevCash + r.yearNcb + r.stInvestment == before + need;
  }

  /** The budget `o` with the budget of `year` appended, as `calculate_year` computes it. */
  function CashStep(o: CashLists, year: nat, il: IntermediateLists, isl: IncomeLists, dl: DebtLists,
                    inputs: Inputs): CashLists
    requires 1 <= year
    requires year < |isl.netIncome| && (year > 1 ==> year - 1 < |isl.dividends|)
    requires year < |il.depreciation| && year - 1 < |il.changeInWorkingCapital| && year < |il.capex|
    requires year < |il.minCashRequired| && year - 1 < |il.returnStInvestment| && year - 1 < |il.costOfDebt|
    requires year - 1 < |o.stInvestment| && year - 1 < |o.cumulatedNcb|
    requires year - 1 < |dl.stEndingBalance| && year - 1 < |dl.ltEndingBalance|
  {
    AppendRow(o, CashYearRow(
      o.cumulatedNcb[year - 1], o.stInvestment[year - 1],
      isl.netIncome[year], il.depreciation[year], il.changeInWorkingCapital[year - 1], il.capex[year],
      if year > 1 then isl.dividends[year - 1] else inputs.dividendsPaidYear0,
      inputs.stockRepurchaseYear0 * 0.3, il.returnStInvestment[year - 1], il.minCashRequired[year],
      dl.stEndingBalance[year - 1], dl.ltEndingBalance[year - 1], il.costOfDebt[year - 1],
      TotalLtPrincipal(dl.ltPrincipalPaymentsByYear, year), inputs.pctFinancingWithDebt))
  }

  // ---------------------------------------------------------------------
  // The budget object
  // ---------------------------------------------------------------------

  class CashBudget {
    const inputs: Inputs
    var lists: CashLists

    constructor (inputs: Inputs)
      ensures this.inputs == inputs && lists == EmptyCashLists
    {
      this.inputs := inputs;
      lists := EmptyCashLists;
    }

    /**
     * `calculate_year_0`: puts the Year-0 entry in front of every list and
     * hands the historical debt balances, and no equity, to the debt schedule.
     */
    method CalculateYear0() returns (stLoan0: real, ltLoan0: real, equity0: real)
      modifies this
      ensures lists == PrependRow(Year0Row(inputs), old(lists))
      ensures stLoan0 == inputs.shortTermDebtYear0 && ltLoan0 == inputs.longTermDebtYear0 && equity0 == 0.0
    {
      var l := lists;
      var div0 := inputs.dividendsPaidYear0;
      var rep0 := inputs.stockRepurchaseYear0;
      lists := CashLists(
        [inputs.operatingCashFlowYear0] + l.operatingCashFlow, [-inputs.capexYear0] + l.investingCashFlow,
        [0.0] + l.stLoan, [0.0] + l.ltLoan, [0.0] + l.stPrincipalPayment, [0.0] + l.stInterestPayment,
        [0.0] + l.ltPrincipalPayment, [0.0] + l.ltInterestPayment, [0.0] + l.financingCashFlow,
        [div0] + l.dividendsPaid, [rep0] + l.stockRepurchase, [0.0] + l.equityInvested,
        [-div0 - rep0] + l.ownerCashFlow,
        [0.0] + l.stInvestment, [0.0] + l.stInvestmentRedemption, [0.0] + l.stInvestmentReturn,
        [0.0] + l.discretionaryCashFlow, [0.0] + l.yearNcb, [inputs.cashYear0] + l.cumulatedNcb);
      return inputs.shortTermDebtYear0, inputs.longTermDebtYear0, 0.0;
    }

    /**
     * `calculate_year`: appends the budget of `year`, reading the intermediate
     * calculator's lists `il`, the income statement's `isl` and the debt
     * schedule's `dl`.
     */
    method CalculateYear(year: nat, il: IntermediateLists, isl: IncomeLists, dl: DebtLists)
      requires 1 <= year
      requires year < |isl.netIncome| && (year > 1 ==> year - 1 < |isl.dividends|)
      requires year < |il.depreciation| && year - 1 < |il.changeInWorkingCapital| && year < |il.capex|
      requires year < |il.minCashRequired| && year - 1 < |il.returnStInvestment| && year - 1 < |il.costOfDebt|
      requires year - 1 < |lists.stInvestment| && year - 1 < |lists.cumulatedNcb|
      requires year - 1 < |dl.stEndingBalance| && year - 1 < |dl.ltEndingBalance|
      modifies this
      ensures lists == CashStep(old(lists), year, il, isl, dl, inputs)
    {
      var l := lists;
      var i := year - 1;
      // what the year reads from the other statements and from last year
      var dividends := if year > 1 then isl.dividends[year - 1] else inputs.dividendsPaidYear0;
      var stockRepurchase := inputs.stockRepurchaseYear0 * 0.3;
      var ltPrincipal := GetTotalLtPrincipalPayment(dl, year);
      var row := CashYearRow(
        l.cumulatedNcb[year - 1], l.stInvestment[year - 1],
        isl.netIncome[year], il.depreciation[year], il.changeInWorkingCapital[i], il.capex[year],
        dividends, stockRepurchase, il.returnStInvestment[i], il.minCashRequired[year],
        dl.stEndingBalance[year - 1], dl.ltEndingBalance[year - 1], il.costOfDebt[i],
        ltPrincipal, inputs.pctFinancingWithDebt);
      lists := AppendRow(l, row);
    }
  }
}
