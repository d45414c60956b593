/**
 * The company engine's driver: the Year-0 handoff from the cash budget to
 * the debt schedule, then for each forecast year the income statement, the
 * cash budget, the ST and LT debt updates and the balance sheet, in that
 * order. The theorems here are about the five statements together: the
 * balance check, the cash floor and non-negative debt.
 */
module CompanyEngine {
  import opened Wrappers
  import opened RealArith
  import opened CompanyInputs
  import opened CompanyIntermediate
  import opened CompanyDebtSchedule
  import opened CompanyIncomeStatement
  import opened CompanyCashBudget
  import opened CompanyBalanceSheet

  // ---------------------------------------------------------------------
  // What links the statements
  // ---------------------------------------------------------------------

  /**
   * How much the floor on LT debt added in year j: the recorded ending
   * balance less the unfloored `beginning + new_loan - principal`.
   */
  ghost function LtShortfall(cl: CashLists, dl: DebtLists, j: nat): real
    requires 1 <= j < |dl.ltEndingBalance| && j < |cl.ltLoan| && j < |cl.ltPrincipalPayment|
  {
    dl.ltEndingBalance[j] - (dl.ltEndingBalance[j - 1] + cl.ltLoan[j] - cl.ltPrincipalPayment[j])
  }

  /** The LT floor of year j does not bind. */
  ghost predicate LtFloorIdle(cl: CashLists, dl: DebtLists, j: nat)
    requires 1 <= j < |dl.ltEndingBalance| && j < |cl.ltLoan| && j < |cl.ltPrincipalPayment|
  {
    dl.ltEndingBalance[j - 1] + cl.ltLoan[j] - cl.ltPrincipalPayment[j] >= 0.0
  }

  /** How far the Year-0 lines miss the reported Year-0 totals (the clamped residuals). */
  ghost function Year0Gap(bl: BalanceLists): real
    requires |bl.cash| >= 1 && BalanceSpans(bl, |bl.cash| - 1)
  {
    var r := BalanceRowAt(bl, 0);
    AssetLines(r) - ClaimLines(r) - r.balanceCheck
  }

  /** The five statements hold Year 0 .. k. */
  ghost predicate AllSpan(isl: IncomeLists, cl: CashLists, dl: DebtLists, bl: BalanceLists, k: nat) {
    IncomeSpans(isl, k) && CashSpans(cl, k) && Spans(dl, k) && BalanceSpans(bl, k)
  }

  /**
   * Year k of the balance sheet copies year k of its sources, and carries
   * the Year-0 "other" lines and minority interest.
   */
  ghost predicate Agree(il: IntermediateLists, cl: CashLists, dl: DebtLists, bl: BalanceLists, k: nat)
    requires CashSpans(cl, k) && Spans(dl, k) && BalanceSpans(bl, k)
    requires k < |il.accountsReceivable| && k < |il.inventory| && k < |il.accountsPayable|
    requires k < |il.netPpe| && k < |il.goodwill| && k < |il.intangibleAssets|
  {
    bl.cash[k] == cl.cumulatedNcb[k] && bl.stInvestment[k] == cl.stInvestment[k] &&
    bl.shortTermDebt[k] == dl.stEndingBalance[k] && bl.longTermDebt[k] == dl.ltEndingBalance[k] &&
    bl.accountsReceivable[k] == il.accountsReceivable[k] && bl.inventory[k] == il.inventory[k] &&
    bl.accountsPayable[k] == il.accountsPayable[k] && bl.netPpe[k] == il.netPpe[k] &&
    bl.goodwill[k] == il.goodwill[k] && bl.intangibleAssets[k] == il.intangibleAssets[k] &&
    bl.otherCurrentAssets[k] == bl.otherCurrentAssets[0] &&
    bl.otherNonCurrentAssets[k] == bl.otherNonCurrentAssets[0] &&
    bl.otherCurrentLiabilities[k] == bl.otherCurrentLiabilities[0] &&
    bl.otherNonCurrentLiabilities[k] == bl.otherNonCurrentLiabilities[0] &&
    bl.minorityInterest[k] == bl.minorityInterest[0]
  }

  /** Lengths under which year j can be read in every statement. */
  ghost predicate Readable(il: IntermediateLists, cl: CashLists, dl: DebtLists, bl: BalanceLists, j: nat) {
    |cl.cumulatedNcb| >= 1 && CashSpans(cl, |cl.cumulatedNcb| - 1) && j < |cl.cumulatedNcb| &&
    |bl.cash| >= 1 && BalanceSpans(bl, |bl.cash| - 1) && j < |bl.cash| &&
    j < |dl.stEndingBalance| && j < |dl.ltEndingBalance| && j < |il.minCashRequired|
  }

  /**
   * What the engine establishes for forecast year j:
   * the balance check is the difference of the two sides' lines, and that
   * difference moves from last year only by what the LT floor added;
   * ST debt is rolled over in full and LT debt follows its schedule, both
   * non-negative; and the year ends at or above the minimum-cash floor,
   * exactly on it when financing was raised.
   */
  ghost predicate EngineYear(il: IntermediateLists, cl: CashLists, dl: DebtLists, bl: BalanceLists, j: nat)
    requires 1 <= j && Readable(il, cl, dl, bl, j)
  {
    YearBalances(cl, dl, bl, j) && YearDebt(cl, dl, j) && YearCash(il, cl, j)
  }

  /** The balance check of year j is the difference of its lines, which moves only by the LT floor. */
  ghost predicate YearBalances(cl: CashLists, dl: DebtLists, bl: BalanceLists, j: nat)
    requires 1 <= j && |cl.cumulatedNcb| >= 1 && CashSpans(cl, |cl.cumulatedNcb| - 1) && j < |cl.cumulatedNcb|
    requires |bl.cash| >= 1 && BalanceSpans(bl, |bl.cash| - 1) && j < |bl.cash| && j < |dl.ltEndingBalance|
  {
    var b := BalanceRowAt(bl, j);
    var p := BalanceRowAt(bl, j - 1);
    b.balanceCheck == AssetLines(b) - ClaimLines(b) &&
    AssetLines(b) - ClaimLines(b) == AssetLines(p) - ClaimLines(p) - LtShortfall(cl, dl, j)
  }

  /** ST debt of year j is rolled over in full, LT debt follows its schedule, both are non-negative. */
  ghost predicate YearDebt(cl: CashLists, dl: DebtLists, j: nat)
    requires 1 <= j && |cl.cumulatedNcb| >= 1 && CashSpans(cl, |cl.cumulatedNcb| - 1) && j < |cl.cumulatedNcb|
    requires j < |dl.stEndingBalance| && j < |dl.ltEndingBalance|
  {
    var c := RowAt(cl, j);
    c.stPrincipal == dl.stEndingBalance[j - 1] && dl.stEndingBalance[j] == c.stLoan &&
    dl.ltEndingBalance[j] == EndingBalance(dl.ltEndingBalance[j - 1], c.ltPrincipal, c.ltLoan) &&
    dl.stEndingBalance[j] >= 0.0 && dl.ltEndingBalance[j] >= 0.0
  }

  /** Year j ends at or above the minimum-cash floor, exactly on it when financing was raised. */
  ghost predicate YearCash(il: IntermediateLists, cl: CashLists, j: nat)
    requires 1 <= j && |cl.cumulatedNcb| >= 1 && CashSpans(cl, |cl.cumulatedNcb| - 1) && j < |cl.cumulatedNcb|
    requires j < |il.minCashRequired|
  {
    var c := RowAt(cl, j);
    var before := BeforeFinancing(cl.cumulatedNcb[j - 1], c);
    var minCash := il.minCashRequired[j];
    c.cumulatedNcb >= minCash &&
    (before < minCash ==> c.cumulatedNcb == minCash && c.stInvestment == 0.0) &&
    (before >= minCash ==> c.cumulatedNcb == (before + minCash) / 2.0)
  }

  /** Everything the driver keeps after year k. */
  ghost predicate Linked(inputs: Inputs, n: nat, il: IntermediateLists, isl: IncomeLists, cl: CashLists,
                         dl: DebtLists, bl: BalanceLists, k: nat)
  {
    k <= n && Forecasted(inputs, n, il) && AllSpan(isl, cl, dl, bl, k) &&
    BalanceRowAt(bl, 0) == Year0BalanceRow(inputs) &&
    Agree(il, cl, dl, bl, k) &&
    forall j :: 1 <= j <= k ==> EngineYear(il, cl, dl, bl, j)
  }

  // ---------------------------------------------------------------------
  // One year of the driver
  // ---------------------------------------------------------------------

  /**
   * The balance-sheet algebra of one year: with the cash budget's modules,
   * the PPE and working-capital roll-forwards and the copied lines, the two
   * sides move by the same amount except for what the LT floor adds.
   */
  lemma YearAlgebra(p: BalanceRow, b: BalanceRow, c: CashRow,
                    netIncome: real, depreciation: real, changeWc: real, capex: real, shortfall: real)
    requires c.operatingCf == netIncome + depreciation - changeWc && c.investingCf == -capex
    requires c.financingCf == c.stLoan + c.ltLoan - (c.stPrincipal + c.ltPrincipal)
    requires c.ownerCf == c.equityInvested - c.dividends - c.repurchase
    requires c.discretionaryCf == c.redemption + c.stReturn - c.stInvestment
    requires c.yearNcb == c.operatingCf + c.investingCf + c.financingCf + c.ownerCf + c.discretionaryCf
    requires c.cumulatedNcb == p.cash + c.yearNcb
    requires c.redemption == p.stInvestment && c.stPrincipal == p.shortTermDebt
    requires changeWc == (b.accountsReceivable - p.accountsReceivable) + (b.inventory - p.inventory)
                         - (b.accountsPayable - p.accountsPayable)
    requires b.netPpe == p.netPpe + capex - depreciation
    requires b.cash == c.cumulatedNcb && b.stInvestment == c.stInvestment
    requires b.goodwill == p.goodwill && b.intangibleAssets == p.intangibleAssets
    requires b.otherCurrentAssets == p.otherCurrentAssets && b.otherNonCurrentAssets == p.otherNonCurrentAssets
    requires b.otherCurrentLiabilities == p.otherCurrentLiabilities
    requires b.otherNonCurrentLiabilities == p.otherNonCurrentLiabilities
    requires b.minorityInterest == p.minorityInterest
    requires b.shortTermDebt == c.stLoan
    requires b.longTermDebt == p.longTermDebt + c.ltLoan - c.ltPrincipal + shortfall
    requires b.retainedEarnings == p.retainedEarnings + netIncome + c.stReturn - c.dividends
    requires b.otherEquity == p.otherEquity + c.equityInvested - c.repurchase
    ensures AssetLines(b) - ClaimLines(b) == AssetLines(p) - ClaimLines(p) - shortfall
  {
  }

  /** The preconditions of a year's five updates, read off the state after the year before. */
  ghost predicate YearReady(inputs: Inputs, n: nat, il: IntermediateLists, isl: IncomeLists, cl: CashLists,
                            dl: DebtLists, bl: BalanceLists, k: nat)
  {
    1 <= k <= n && |il.costOfDebt| >= n && |il.returnStInvestment| >= n &&
    Linked(inputs, n, il, isl, cl, dl, bl, k - 1)
  }

  /** Appending one year to the cash budget, the debt schedule and the balance sheet keeps every earlier year's facts. */
  lemma EngineYearAppend(il: IntermediateLists, cl: CashLists, dl: DebtLists, bl: BalanceLists,
                         r: CashRow, rb: BalanceRow, st: real, lt: real, dl': DebtLists, k: nat)
    requires 1 <= k && CashSpans(cl, k - 1) && BalanceSpans(bl, k - 1) && k < |il.minCashRequired|
    requires |dl.stEndingBalance| == k && |dl.ltEndingBalance| == k
    requires dl'.stEndingBalance == dl.stEndingBalance + [st] && dl'.ltEndingBalance == dl.ltEndingBalance + [lt]
    requires forall j :: 1 <= j < k ==> EngineYear(il, cl, dl, bl, j)
    ensures forall j :: 1 <= j < k ==> EngineYear(il, AppendRow(cl, r), dl', AppendBalanceRow(bl, rb), j)
  {
    var cl', bl' := AppendRow(cl, r), AppendBalanceRow(bl, rb);
    AppendRowAt(cl, r, k);
    AppendBalanceRowAt(bl, rb, k);
    forall j | 1 <= j < k
      ensures EngineYear(il, cl', dl', bl', j)
    {
      assert EngineYear(il, cl, dl, bl, j);
      assert RowAt(cl', j) == RowAt(cl, j) && RowAt(cl', j - 1) == RowAt(cl, j - 1);
      assert BalanceRowAt(bl', j) == BalanceRowAt(bl, j) && BalanceRowAt(bl', j - 1) == BalanceRowAt(bl, j - 1);
      assert dl'.stEndingBalance[j] == dl.stEndingBalance[j] && dl'.stEndingBalance[j - 1] == dl.stEndingBalance[j - 1];
      assert dl'.ltEndingBalance[j] == dl.ltEndingBalance[j] && dl'.ltEndingBalance[j - 1] == dl.ltEndingBalance[j - 1];
      assert cl'.cumulatedNcb[j - 1] == RowAt(cl', j - 1).cumulatedNcb;
      assert LtShortfall(cl', dl', j) == LtShortfall(cl, dl, j);
    }
  }

  // ---------------------------------------------------------------------
  // The year's five updates, on values
  // ---------------------------------------------------------------------

  /** The four statements the engine appends to every year. */
  datatype Books = Books(isl: IncomeLists, cl: CashLists, dl: DebtLists, bl: BalanceLists)

  /** The preconditions of year k's updates, and a usable LT loan term. */
  ghost predicate Ready(inputs: Inputs, n: nat, il: IntermediateLists, s: Books, k: nat, ltLoanYears: real) {
    YearReady(inputs, n, il, s.isl, s.cl, s.dl, s.bl, k) && ltLoanYears != 0.0
  }

  /** The debt schedule after the ST and the LT update of year k, fed from the cash budget's year k. */
  function DebtYearStep(dl: DebtLists, cl: CashLists, k: nat, ltLoanYears: real): DebtLists
    requires 1 <= k <= |dl.stEndingBalance| && k <= |dl.ltEndingBalance| && k <= |dl.ltPrincipalPaymentsByYear|
    requires k < |cl.stLoan| && k < |cl.stPrincipalPayment| && k < |cl.ltLoan|
    requires cl.ltLoan[k] > 0.0 ==> ltLoanYears != 0.0
  {
    LtStep(StStep(dl, k, cl.stLoan[k], cl.stPrincipalPayment[k]), k, cl.ltLoan[k], ltLoanYears)
  }

  /** The cash budget's row of year k, from the statements as they stand when the budget runs. */
  ghost function CashRowOf(inputs: Inputs, il: IntermediateLists, isl: IncomeLists, cl: CashLists, dl: DebtLists,
                           k: nat): CashRow
    requires 1 <= k
    requires k < |isl.netIncome| && (k > 1 ==> k - 1 < |isl.dividends|)
    requires k < |il.depreciation| && k - 1 < |il.changeInWorkingCapital| && k < |il.capex|
    requires k < |il.minCashRequired| && k - 1 < |il.returnStInvestment| && k - 1 < |il.costOfDebt|
    requires k - 1 < |cl.stInvestment| && k - 1 < |cl.cumulatedNcb|
    requires k - 1 < |dl.stEndingBalance| && k - 1 < |dl.ltEndingBalance|
  {
    CashYearRow(
      cl.cumulatedNcb[k - 1], cl.stInvestment[k - 1],
      isl.netIncome[k], il.depreciation[k], il.changeInWorkingCapital[k - 1], il.capex[k],
      if k > 1 then isl.dividends[k - 1] else inputs.dividendsPaidYear0,
      inputs.stockRepurchaseYear0 * 0.3, il.returnStInvestment[k - 1], il.minCashRequired[k],
      dl.stEndingBalance[k - 1], dl.ltEndingBalance[k - 1], il.costOfDebt[k - 1],
      TotalLtPrincipal(dl.ltPrincipalPaymentsByYear, k), inputs.pctFinancingWithDebt)
  }

  /** Year k of the engine: the income statement, the cash budget, the two debt updates and the balance sheet. */
  ghost function Step(inputs: Inputs, n: nat, il: IntermediateLists, s: Books, k: nat, ltLoanYears: real): Books
    requires Ready(inputs, n, il, s, k, ltLoanYears)
  {
    var isl' := IncomeStep(s.isl, k, il, s.dl, s.cl.stInvestment, inputs.taxRate, inputs.payoutRatio);
    CalculateYearEstablishes(s.isl, isl', il, s.dl, s.cl.stInvestment, inputs.taxRate, inputs.payoutRatio, k);
    var cl' := AppendRow(s.cl, CashRowOf(inputs, il, isl', s.cl, s.dl, k));
    AppendRowAt(s.cl, CashRowOf(inputs, il, isl', s.cl, s.dl, k), k);
    var dl' := DebtYearStep(s.dl, cl', k, ltLoanYears);
    Books(isl', cl', dl', BalanceStep(s.bl, k, il, cl', dl', isl'))
  }

  /** The lengths after year k, and the rows of the earlier years untouched. */
  lemma StepShape(inputs: Inputs, n: nat, il: IntermediateLists, s: Books, k: nat, ltLoanYears: real)
    requires Ready(inputs, n, il, s, k, ltLoanYears)
    ensures var s' := Step(inputs, n, il, s, k, ltLoanYears);
      AllSpan(s'.isl, s'.cl, s'.dl, s'.bl, k) &&
      RowAt(s'.cl, k) == CashRowOf(inputs, il, s'.isl, s.cl, s.dl, k) &&
      (forall j :: 0 <= j < k ==> RowAt(s'.cl, j) == RowAt(s.cl, j)) &&
      (forall j :: 0 <= j < k ==> BalanceRowAt(s'.bl, j) == BalanceRowAt(s.bl, j)) &&
      s'.dl.stEndingBalance[..k] == s.dl.stEndingBalance && s'.dl.ltEndingBalance[..k] == s.dl.ltEndingBalance
  {
    var s' := Step(inputs, n, il, s, k, ltLoanYears);
    var c := CashRowOf(inputs, il, s'.isl, s.cl, s.dl, k);
    AppendRowAt(s.cl, c, k);
    var b := BalanceRowAt(s'.bl, k);
    assert s'.bl == AppendBalanceRow(s.bl, b);
    AppendBalanceRowAt(s.bl, b, k);
  }

  /** The debt balances closing year k: the new ST loan, and the LT balance after its schedule. */
  lemma StepDebt(inputs: Inputs, n: nat, il: IntermediateLists, s: Books, k: nat, ltLoanYears: real)
    requires Ready(inputs, n, il, s, k, ltLoanYears)
    ensures var s' := Step(inputs, n, il, s, k, ltLoanYears);
      var c := CashRowOf(inputs, il, s'.isl, s.cl, s.dl, k);
      c.stPrincipal == s.dl.stEndingBalance[k - 1] &&
      c.ltPrincipal == TotalLtPrincipal(s.dl.ltPrincipalPaymentsByYear, k) &&
      s'.dl.stEndingBalance == s.dl.stEndingBalance + [c.stLoan] &&
      s'.dl.ltEndingBalance == s.dl.ltEndingBalance + [EndingBalance(s.dl.ltEndingBalance[k - 1], c.ltPrincipal, c.ltLoan)]
  {
    var s' := Step(inputs, n, il, s, k, ltLoanYears);
    var c := CashRowOf(inputs, il, s'.isl, s.cl, s.dl, k);
    AppendRowAt(s.cl, c, k);
    assert RowAt(s'.cl, k) == c;
  }

  /** The balance sheet of year k, compiled from the other statements' year k and its own year k-1. */
  lemma StepBalance(inputs: Inputs, n: nat, il: IntermediateLists, s: Books, k: nat, ltLoanYears: real)
    requires Ready(inputs, n, il, s, k, ltLoanYears)
    ensures var s' := Step(inputs, n, il, s, k, ltLoanYears);
      StepShapeOk(s', k) &&
      var b := BalanceRowAt(s'.bl, k);
      var c := RowAt(s'.cl, k);
      b.cash == c.cumulatedNcb && b.stInvestment == c.stInvestment &&
      b.shortTermDebt == s'.dl.stEndingBalance[k] && b.longTermDebt == s'.dl.ltEndingBalance[k] &&
      b.accountsReceivable == il.accountsReceivable[k] && b.inventory == il.inventory[k] &&
      b.accountsPayable == il.accountsPayable[k] && b.netPpe == il.netPpe[k] &&
      b.goodwill == il.goodwill[k] && b.intangibleAssets == il.intangibleAssets[k] &&
      b.otherCurrentAssets == s.bl.otherCurrentAssets[0] && b.otherNonCurrentAssets == s.bl.otherNonCurrentAssets[0] &&
      b.otherCurrentLiabilities == s.bl.otherCurrentLiabilities[0] &&
      b.otherNonCurrentLiabilities == s.bl.otherNonCurrentLiabilities[0] &&
      b.minorityInterest == s.bl.minorityInterest[0] &&
      b.retainedEarnings == s.bl.retainedEarnings[k - 1] + s'.isl.netIncome[k] + c.stReturn - c.dividends &&
      b.otherEquity == s.bl.otherEquity[k - 1] + c.equityInvested - c.repurchase &&
      b.balanceCheck == AssetLines(b) - ClaimLines(b)
  {
    StepShape(inputs, n, il, s, k, ltLoanYears);
  }

  /** The shape facts `StepShape` gives, as one name. */
  ghost predicate StepShapeOk(s': Books, k: nat) {
    AllSpan(s'.isl, s'.cl, s'.dl, s'.bl, k)
  }

  /** A budget whose row of year k keeps the floor keeps `YearCash` at k. */
  lemma RowKeepsFloor(il: IntermediateLists, cl: CashLists, k: nat, r: CashRow)
    requires 1 <= k < |cl.cumulatedNcb| && CashSpans(cl, |cl.cumulatedNcb| - 1) && k < |il.minCashRequired|
    requires RowAt(cl, k) == r
    requires var before := BeforeFinancing(cl.cumulatedNcb[k - 1], r);
      r.cumulatedNcb >= il.minCashRequired[k] &&
      (before < il.minCashRequired[k] ==> r.cumulatedNcb == il.minCashRequired[k] && r.stInvestment == 0.0) &&
      (before >= il.minCashRequired[k] ==> r.cumulatedNcb == (before + il.minCashRequired[k]) / 2.0)
    ensures YearCash(il, cl, k)
  {
  }

  /** The cash floor of year k. */
  lemma StepYearCash(inputs: Inputs, n: nat, il: IntermediateLists, s: Books, k: nat, ltLoanYears: real)
    requires Ready(inputs, n, il, s, k, ltLoanYears)
    ensures var s' := Step(inputs, n, il, s, k, ltLoanYears);
      StepShapeOk(s', k) && k < |il.minCashRequired| && YearCash(il, s'.cl, k)
  {
    var s' := Step(inputs, n, il, s, k, ltLoanYears);
    StepShape(inputs, n, il, s, k, ltLoanYears);
    assert s'.cl.cumulatedNcb[k - 1] == s.cl.cumulatedNcb[k - 1];
    RowKeepsFloor(il, s'.cl, k, RowAt(s'.cl, k));
    CashFloor(s.cl.cumulatedNcb[k - 1], s.cl.stInvestment[k - 1],
      s'.isl.netIncome[k], il.depreciation[k], il.changeInWorkingCapital[k - 1], il.capex[k],
      if k > 1 then s'.isl.dividends[k - 1] else inputs.dividendsPaidYear0,
      inputs.stockRepurchaseYear0 * 0.3, il.returnStInvestment[k - 1], il.minCashRequired[k],
      s.dl.stEndingBalance[k - 1], s.dl.ltEndingBalance[k - 1], il.costOfDebt[k - 1],
      TotalLtPrincipal(s.dl.ltPrincipalPaymentsByYear, k), inputs.pctFinancingWithDebt);
  }

  /** The debt of year k: full ST rollover, the LT schedule, no negative balance. */
  lemma StepYearDebt(inputs: Inputs, n: nat, il: IntermediateLists, s: Books, k: nat, ltLoanYears: real)
    requires Ready(inputs, n, il, s, k, ltLoanYears)
    ensures var s' := Step(inputs, n, il, s, k, ltLoanYears);
      StepShapeOk(s', k) && YearDebt(s'.cl, s'.dl, k)
  {
    var s' := Step(inputs, n, il, s, k, ltLoanYears);
    StepShape(inputs, n, il, s, k, ltLoanYears);
    StepDebt(inputs, n, il, s, k, ltLoanYears);
  }

  /** The balance check of year k moves from year k-1 only by what the LT floor added. */
  lemma StepYearBalances(inputs: Inputs, n: nat, il: IntermediateLists, s: Books, k: nat, ltLoanYears: real)
    requires Ready(inputs, n, il, s, k, ltLoanYears)
    ensures var s' := Step(inputs, n, il, s, k, ltLoanYears);
      StepShapeOk(s', k) && YearBalances(s'.cl, s'.dl, s'.bl, k)
  {
    var s' := Step(inputs, n, il, s, k, ltLoanYears);
    StepShape(inputs, n, il, s, k, ltLoanYears);
    StepDebt(inputs, n, il, s, k, ltLoanYears);
    StepBalance(inputs, n, il, s, k, ltLoanYears);
    var c := RowAt(s'.cl, k);
    var b := BalanceRowAt(s'.bl, k);
    var p := BalanceRowAt(s.bl, k - 1);
    assert p == BalanceRowAt(s'.bl, k - 1);
    assert Agree(il, s.cl, s.dl, s.bl, k - 1);
    assert WorkingCapitalYear(il.revenue, il.cogs, il.accountsReceivable, il.inventory, il.accountsPayable,
                              il.changeInAr, il.changeInInventory, il.changeInAp, il.changeInWorkingCapital,
                              inputs.arPctRevenue, inputs.inventoryPctCogs, inputs.apPctCogs, k);
    assert PpeYear(il.revenue, il.capex, il.grossPpe, il.depreciation, il.cumulatedDepreciation, il.netPpe,
                   inputs.capexPctRevenue, inputs.depreciationRate, k);
    assert il.goodwill[k] == il.goodwill[k - 1] && il.intangibleAssets[k] == il.intangibleAssets[k - 1];
    assert s'.cl.cumulatedNcb[k - 1] == s.cl.cumulatedNcb[k - 1];
    YearAlgebra(p, b, c, s'.isl.netIncome[k], il.depreciation[k], il.changeInWorkingCapital[k - 1], il.capex[k],
                LtShortfall(s'.cl, s'.dl, k));
  }

  /** What year k of the engine establishes about year k. */
  lemma StepEngineYear(inputs: Inputs, n: nat, il: IntermediateLists, s: Books, k: nat, ltLoanYears: real)
    requires Ready(inputs, n, il, s, k, ltLoanYears)
    ensures var s' := Step(inputs, n, il, s, k, ltLoanYears);
      StepShapeOk(s', k) && Readable(il, s'.cl, s'.dl, s'.bl, k) &&
      EngineYear(il, s'.cl, s'.dl, s'.bl, k) && Agree(il, s'.cl, s'.dl, s'.bl, k)
  {
    StepYearCash(inputs, n, il, s, k, ltLoanYears);
    StepYearDebt(inputs, n, il, s, k, ltLoanYears);
    StepYearBalances(inputs, n, il, s, k, ltLoanYears);
    StepBalance(inputs, n, il, s, k, ltLoanYears);
    var s' := Step(inputs, n, il, s, k, ltLoanYears);
    assert s'.bl.otherCurrentAssets[0] == s.bl.otherCurrentAssets[0];
    assert s'.bl.otherNonCurrentAssets[0] == s.bl.otherNonCurrentAssets[0];
    assert s'.bl.otherCurrentLiabilities[0] == s.bl.otherCurrentLiabilities[0];
    assert s'.bl.otherNonCurrentLiabilities[0] == s.bl.otherNonCurrentLiabilities[0];
    assert s'.bl.minorityInterest[0] == s.bl.minorityInterest[0];
  }

  /** Year k of the engine keeps what the engine established for the years before. */
  lemma StepKeeps(inputs: Inputs, n: nat, il: IntermediateLists, s: Books, k: nat, ltLoanYears: real)
    requires Ready(inputs, n, il, s, k, ltLoanYears)
    ensures var s' := Step(inputs, n, il, s, k, ltLoanYears);
      StepShapeOk(s', k) && BalanceRowAt(s'.bl, 0) == Year0BalanceRow(inputs) &&
      forall j :: 1 <= j < k ==> Readable(il, s'.cl, s'.dl, s'.bl, j) && EngineYear(il, s'.cl, s'.dl, s'.bl, j)
  {
    var s' := Step(inputs, n, il, s, k, ltLoanYears);
    StepShape(inputs, n, il, s, k, ltLoanYears);
    StepDebt(inputs, n, il, s, k, ltLoanYears);
    var c := RowAt(s'.cl, k);
    var b := BalanceRowAt(s'.bl, k);
    assert s'.cl == AppendRow(s.cl, c);
    assert s'.bl == AppendBalanceRow(s.bl, b);
    EngineYearAppend(il, s.cl, s.dl, s.bl, c, b, c.stLoan,
                     EndingBalance(s.dl.ltEndingBalance[k - 1], c.ltPrincipal, c.ltLoan), s'.dl, k);
  }

  /** One forecast year of the engine takes a state linked at k-1 to one linked at k. */
  lemma YearStep(inputs: Inputs, n: nat, il: IntermediateLists, s: Books, k: nat, ltLoanYears: real)
    requires Ready(inputs, n, il, s, k, ltLoanYears)
    ensures var s' := Step(inputs, n, il, s, k, ltLoanYears);
      Linked(inputs, n, il, s'.isl, s'.cl, s'.dl, s'.bl, k)
  {
    StepEngineYear(inputs, n, il, s, k, ltLoanYears);
    StepKeeps(inputs, n, il, s, k, ltLoanYears);
  }

  // ---------------------------------------------------------------------
  // Closure across the horizon
  // ---------------------------------------------------------------------

  /** What the LT floor added over years 1 .. k. */
  ghost function FloorAdded(cl: CashLists, dl: DebtLists, k: nat): real
    requires k < |dl.ltEndingBalance| && k < |cl.ltLoan| && k < |cl.ltPrincipalPayment|
  {
    if k == 0 then 0.0 else FloorAdded(cl, dl, k - 1) + LtShortfall(cl, dl, k)
  }

  /**
   * The balance check of year k is the Year-0 check, plus what the Year-0
   * "other" clamps left out, less what the LT floor added since.
   */
  lemma {:induction false} CheckDrift(inputs: Inputs, n: nat, il: IntermediateLists, isl: IncomeLists,
                                      cl: CashLists, dl: DebtLists, bl: BalanceLists, k: nat)
    requires Linked(inputs, n, il, isl, cl, dl, bl, n) && 1 <= k <= n
    ensures bl.balanceCheck[k] == bl.balanceCheck[0] + Year0Gap(bl) - FloorAdded(cl, dl, k)
  {
    assert EngineYear(il, cl, dl, bl, k);
    if k > 1 {
      CheckDrift(inputs, n, il, isl, cl, dl, bl, k - 1);
      assert EngineYear(il, cl, dl, bl, k - 1);
    }
  }

  /**
   * Closure: when none of the four Year-0 "other" residuals and none of the
   * LT floors binds, every year's balance check equals the Year-0 check.
   */
  lemma {:induction false} Closure(inputs: Inputs, n: nat, il: IntermediateLists, isl: IncomeLists,
                                   cl: CashLists, dl: DebtLists, bl: BalanceLists, k: nat)
    requires Linked(inputs, n, il, isl, cl, dl, bl, n) && 1 <= k <= n
    requires ResidualsUnclamped(inputs)
    requires forall j :: 1 <= j <= k ==> LtFloorIdle(cl, dl, j)
    ensures bl.balanceCheck[k] == bl.balanceCheck[0]
  {
    Year0Lines(inputs);
    CheckDrift(inputs, n, il, isl, cl, dl, bl, k);
    forall j | 1 <= j <= k ensures LtShortfall(cl, dl, j) == 0.0 {
      assert EngineYear(il, cl, dl, bl, j) && LtFloorIdle(cl, dl, j);
    }
    FloorIdleAddsNothing(cl, dl, k);
  }

  /** Years whose LT floor adds nothing add nothing together. */
  lemma {:induction false} FloorIdleAddsNothing(cl: CashLists, dl: DebtLists, k: nat)
    requires k < |dl.ltEndingBalance| && k < |cl.ltLoan| && k < |cl.ltPrincipalPayment|
    requires forall j :: 1 <= j <= k ==> LtShortfall(cl, dl, j) == 0.0
    ensures FloorAdded(cl, dl, k) == 0.0
  {
    if k > 0 {
      FloorIdleAddsNothing(cl, dl, k - 1);
    }
  }

  // ---------------------------------------------------------------------
  // The forecaster object
  // ---------------------------------------------------------------------

  /**
   * The forecaster: the five calculation objects of one company, built from
   * one driver record and run over `nYears` forecast years.
   */
  class Forecaster {
    const inputs: Inputs
    const nYears: nat
    const intermediate: Intermediate
    const incomeStatement: IncomeStatement
    const cashBudget: CashBudget
    const debtSchedule: DebtSchedule
    const balanceSheet: BalanceSheet

    constructor (inputs: Inputs, nYears: nat)
      ensures this.inputs == inputs && this.nYears == nYears
      ensures fresh(intermediate) && fresh(incomeStatement) && fresh(cashBudget) && fresh(debtSchedule) && fresh(balanceSheet)
      ensures intermediate.inputs == inputs && intermediate.nYears == nYears && Seeded(inputs, nYears, intermediate.lists)
      ensures incomeStatement.inputs == inputs && incomeStatement.lists == InitialIncomeLists(inputs)
      ensures cashBudget.inputs == inputs && cashBudget.lists == EmptyCashLists
      ensures debtSchedule.ltLoanYears == GetOr(inputs.ltLoanYears, 10.0) && debtSchedule.lists == InitialLists
      ensures balanceSheet.inputs == inputs && balanceSheet.lists == InitialBalanceLists(inputs)
    {
      this.inputs := inputs;
      this.nYears := nYears;
      intermediate := new Intermediate(inputs, nYears);
      incomeStatement := new IncomeStatement(inputs);
      cashBudget := new CashBudget(inputs);
      debtSchedule := new DebtSchedule(inputs);
      balanceSheet := new BalanceSheet(inputs);
    }

    /**
     * The whole forecast: the driver series, the Year-0 handoff from the cash
     * budget to the debt schedule, then each year's five updates in order.
     * Afterwards every year satisfies `EngineYear`: closure up to the LT
     * floor, full ST rollover, non-negative debt and the minimum-cash floor.
     */
    method Run()
      requires intermediate.inputs == inputs && intermediate.nYears == nYears && Seeded(inputs, nYears, intermediate.lists)
      requires incomeStatement.inputs == inputs && incomeStatement.lists == InitialIncomeLists(inputs)
      requires cashBudget.inputs == inputs && cashBudget.lists == EmptyCashLists
      requires debtSchedule.ltLoanYears == GetOr(inputs.ltLoanYears, 10.0) && debtSchedule.lists == InitialLists
      requires balanceSheet.inputs == inputs && balanceSheet.lists == InitialBalanceLists(inputs)
      requires |inputs.revenueGrowth| >= nYears
      requires |ByYear(inputs.costOfDebtByYear, inputs.costOfDebt, nYears)| >= nYears
      requires |ByYear(inputs.returnStInvestmentByYear, inputs.returnStInvestment, nYears)| >= nYears
      requires GetOr(inputs.ltLoanYears, 10.0) != 0.0
      modifies intermediate, incomeStatement, cashBudget, debtSchedule, balanceSheet
      ensures Linked(inputs, nYears, intermediate.lists, incomeStatement.lists, cashBudget.lists,
                     debtSchedule.lists, balanceSheet.lists, nYears)
    {
      intermediate.CalculateAll();
      var st0, lt0, equity0 := cashBudget.CalculateYear0();
      debtSchedule.InitializeYear0(st0, lt0);
      Year0Linked(inputs, nYears, intermediate.lists, incomeStatement.lists, cashBudget.lists,
                  debtSchedule.lists, balanceSheet.lists);
      ForecastYears();
    }

    /** The loop of the forecast: years 1 .. nYears, each one `ForecastYear`. */
    method ForecastYears()
      requires incomeStatement.inputs == inputs && cashBudget.inputs == inputs && debtSchedule.ltLoanYears != 0.0
      requires |intermediate.lists.costOfDebt| >= nYears && |intermediate.lists.returnStInvestment| >= nYears
      requires Linked(inputs, nYears, intermediate.lists, incomeStatement.lists, cashBudget.lists,
                      debtSchedule.lists, balanceSheet.lists, 0)
      modifies incomeStatement, cashBudget, debtSchedule, balanceSheet
      ensures Linked(inputs, nYears, intermediate.lists, incomeStatement.lists, cashBudget.lists,
                     debtSchedule.lists, balanceSheet.lists, nYears)
    {
      for year := 1 to nYears + 1
        invariant Linked(inputs, nYears, intermediate.lists, incomeStatement.lists, cashBudget.lists,
                         debtSchedule.lists, balanceSheet.lists, year - 1)
      {
        ghost var s := CurrentBooks();
        ForecastYear(year);
        YearStep(inputs, nYears, intermediate.lists, s, year, debtSchedule.ltLoanYears);
      }
    }

    /** The four statements as they stand. */
    function CurrentBooks(): Books
      reads incomeStatement, cashBudget, debtSchedule, balanceSheet
    {
      Books(incomeStatement.lists, cashBudget.lists, debtSchedule.lists, balanceSheet.lists)
    }

    /**
     * Forecast year `year`: the income statement, the cash budget, the ST
     * update with this year's new ST loan and principal, the LT update with
     * this year's new LT loan, and the balance sheet.
     */
    method ForecastYear(year: nat)
      requires incomeStatement.inputs == inputs && cashBudget.inputs == inputs && debtSchedule.ltLoanYears != 0.0
      requires Ready(inputs, nYears, intermediate.lists, CurrentBooks(), year, debtSchedule.ltLoanYears)
      modifies incomeStatement, cashBudget, debtSchedule, balanceSheet
      ensures CurrentBooks() == Step(inputs, nYears, intermediate.lists, old(CurrentBooks()), year, debtSchedule.ltLoanYears)
    {
      ghost var s := CurrentBooks();
      IncomeAndCash(year);
      DebtAndBalance(year, s);
    }

    /** The first half of a year: the income statement, then the cash budget reading it. */
    method IncomeAndCash(year: nat)
      requires incomeStatement.inputs == inputs && cashBudget.inputs == inputs && debtSchedule.ltLoanYears != 0.0
      requires Ready(inputs, nYears, intermediate.lists, CurrentBooks(), year, debtSchedule.ltLoanYears)
      modifies incomeStatement, cashBudget
      ensures var s' := Step(inputs, nYears, intermediate.lists, old(CurrentBooks()), year, debtSchedule.ltLoanYears);
        incomeStatement.lists == s'.isl && cashBudget.lists == s'.cl
    {
      ghost var s := CurrentBooks();
      incomeStatement.CalculateYear(year, intermediate.lists, debtSchedule.lists, cashBudget.lists.stInvestment);
      CalculateYearEstablishes(s.isl, incomeStatement.lists, intermediate.lists, s.dl, s.cl.stInvestment,
                               inputs.taxRate, inputs.payoutRatio, year);
      cashBudget.CalculateYear(year, intermediate.lists, incomeStatement.lists, debtSchedule.lists);
      AppendRowAt(s.cl, CashRowOf(inputs, intermediate.lists, incomeStatement.lists, s.cl, s.dl, year), year);
    }

    /** The second half: the ST and LT updates with the budget's loans, then the balance sheet. */
    method DebtAndBalance(year: nat, ghost s: Books)
      requires debtSchedule.ltLoanYears != 0.0 && Ready(inputs, nYears, intermediate.lists, s, year, debtSchedule.ltLoanYears)
      requires s.dl == debtSchedule.lists && s.bl == balanceSheet.lists
      requires var s' := Step(inputs, nYears, intermediate.lists, s, year, debtSchedule.ltLoanYears);
        incomeStatement.lists == s'.isl && cashBudget.lists == s'.cl
      modifies debtSchedule, balanceSheet
      ensures CurrentBooks() == Step(inputs, nYears, intermediate.lists, s, year, debtSchedule.ltLoanYears)
    {
      AppendRowAt(s.cl, RowAt(cashBudget.lists, year), year);
      debtSchedule.UpdateStDebt(year, cashBudget.lists.stLoan[year], cashBudget.lists.stPrincipalPayment[year]);
      var _ := debtSchedule.UpdateLtDebt(year, cashBudget.lists.ltLoan[year]);
      balanceSheet.CalculateYear(year, intermediate.lists, cashBudget.lists, debtSchedule.lists, incomeStatement.lists);
    }
  }

  /** The state after the Year-0 handoff is linked at Year 0. */
  lemma Year0Linked(inputs: Inputs, n: nat, il: IntermediateLists, isl: IncomeLists, cl: CashLists,
                    dl: DebtLists, bl: BalanceLists)
    requires Forecasted(inputs, n, il) && isl == InitialIncomeLists(inputs)
    requires cl == PrependRow(Year0Row(inputs), EmptyCashLists)
    requires dl.stBeginningBalance == [0.0] && dl.ltBeginningBalance == [0.0]
    requires dl.stEndingBalance == [inputs.shortTermDebtYear0] && dl.ltEndingBalance == [inputs.longTermDebtYear0]
    requires |dl.ltLoansByYear| == 1 && |dl.ltPrincipalPaymentsByYear| == 1
    requires bl == InitialBalanceLists(inputs)
    ensures Linked(inputs, n, il, isl, cl, dl, bl, 0)
  {
  }
}
