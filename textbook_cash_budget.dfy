/**
 * CashBudget of the textbook model (forecast_model/cash_budget.py): five
 * modules of net cash balance (operating, investment, external financing,
 * transactions with owners, discretionary short-term investment) per year,
 * with a short-term loan for an operating shortfall, a long-term loan and
 * equity in a fixed proportion for any remaining shortfall, and a sweep of
 * idle cash into short-term investment when nothing was raised.
 * Year-indexed lists hold Year 0 at index 0, except total inflows and
 * outflows, which start at Year 1.
 */
module TextbookCashBudget {
  import opened Wrappers
  import opened RealArith
  import opened TextbookInputs
  import opened TextbookIntermediate
  import opened TextbookDebtSchedule

  // ---------------------------------------------------------------------
  // Year 0
  // ---------------------------------------------------------------------

  /** The Year-0 budget of `calculate_year_0`. */
  datatype Year0Cash = Year0Cash(
    operatingNcb: real, investmentNcb: real, stLoan: real, ltLoan: real, equity: real,
    financingNcb: real, ncbWithOwners: real, yearNcb: real)

  /**
   * Year 0: the advance from customers less the initial inventory and the
   * advance to suppliers, the initial fixed assets, a short-term loan for
   * the operating shortfall below the minimum cash, and the remaining need
   * split into long-term debt and equity.
   */
  function Year0Of(advanceFromCustomers: real, initialInventoryPurchase: real, advanceToSuppliers: real,
                   fixedAssets: real, minCash: real, pct: real): (y: Year0Cash)
    ensures y.stLoan >= 0.0 && y.operatingNcb + y.stLoan >= minCash
    ensures y.yearNcb == y.operatingNcb + y.investmentNcb + y.financingNcb + y.ncbWithOwners
  {
    var operatingNcb := advanceFromCustomers - (initialInventoryPurchase + advanceToSuppliers);
    var investmentNcb := -fixedAssets;
    var stLoan := Floor0(-(0.0 + operatingNcb - minCash));
    var ncbAfterSt := 0.0 + operatingNcb + investmentNcb + stLoan;
    var remainingNeed := Floor0(-(ncbAfterSt - minCash));
    var ltLoan := if remainingNeed > 0.0 then Times(remainingNeed, pct) else 0.0;
    var equity := if remainingNeed > 0.0 then Times(remainingNeed, 1.0 - pct) else 0.0;
    var financingNcb := stLoan + ltLoan;
    Year0Cash(operatingNcb, investmentNcb, stLoan, ltLoan, equity, financingNcb, equity,
              operatingNcb + investmentNcb + financingNcb + equity)
  }

  /**
   * The long-term loan and the equity of Year 0 together cover exactly the
   * need left after the short-term loan, in the proportion `pct`; with no
   * need both are 0. The Year-0 balance is then the minimum cash or, with
   * no need, the larger balance already reached.
   */
  lemma Year0Financing(advanceFromCustomers: real, initialInventoryPurchase: real, advanceToSuppliers: real,
                       fixedAssets: real, minCash: real, pct: real)
    ensures var y := Year0Of(advanceFromCustomers, initialInventoryPurchase, advanceToSuppliers, fixedAssets, minCash, pct);
      var reached := y.operatingNcb + y.investmentNcb + y.stLoan;
      (reached < minCash ==> y.ltLoan + y.equity == minCash - reached && y.ltLoan == Times(minCash - reached, pct) &&
                             y.yearNcb == minCash) &&
      (reached >= minCash ==> y.ltLoan == 0.0 && y.equity == 0.0 && y.yearNcb == reached)
  {
    var y := Year0Of(advanceFromCustomers, initialInventoryPurchase, advanceToSuppliers, fixedAssets, minCash, pct);
    var reached := y.operatingNcb + y.investmentNcb + y.stLoan;
    if reached < minCash {
      MulSplit(minCash - reached, pct);
    }
  }

  // ---------------------------------------------------------------------
  // Years 1 .. n
  // ---------------------------------------------------------------------

  /** What `calculate_year` reads for one year from the other components and from its own lists. */
  datatype Drivers = Drivers(
    salesInflows: real, purchasesOutflows: real, asExpenses: real, incomeTax: real,
    investmentFixedAssets: real, prevCumulatedNcb: real, minCash: real,
    stBeginning: real, costOfDebt: real, dividends: real, stockRepurchase: real,
    stInvestmentRedemption: real, returnStInvestment: real, laterYear: bool,
    ltPrincipalPayment: real, ltInterestPayment: real)

  /** One year of the budget, one field per list the year appends to. */
  datatype CashYear = CashYear(
    totalInflows: real, totalOutflows: real, operatingNcb: real, investmentNcb: real,
    stLoan: real, stLoanPrincipalPayment: real, stLoanInterestPayment: real, totalStPayment: real,
    dividendsPayment: real, stockRepurchase: real,
    stInvestmentRedemption: real, stInvestmentReturn: real, stInvestmentInflow: real,
    ltLoanPrincipalPayment: real, ltLoanInterestPayment: real, ltLoan: real,
    totalLoanPayment: real, financingNcb: real,
    investedEquity: real, paymentsToOwners: real, ncbWithOwners: real,
    ncbPreviousModules: real, stInvestment: real, discretionaryNcb: real,
    yearNcb: real, cumulatedNcb: real)

  /** The cash the long-term financing has to fill: what is left below the minimum after every other flow. */
  function LtShortfallBase(d: Drivers, c: CashYear): real {
    d.prevCumulatedNcb + c.operatingNcb + c.investmentNcb + c.stLoan + c.stInvestmentInflow -
    c.totalLoanPayment - d.dividends - d.stockRepurchase - d.minCash
  }

  /** The year `calculate_year` computes from its drivers. */
  function CashYearOf(d: Drivers, stLoanYears: real, pct: real): (c: CashYear)
    requires stLoanYears != 0.0 && pct != 0.0
    ensures c.stLoan >= 0.0 && c.ltLoan >= 0.0 && c.stInvestment >= 0.0
    ensures c.stLoan + c.ltLoan + c.investedEquity > 0.0 ==> c.stInvestment == 0.0
    ensures c.ltLoan == Floor0(Times(-LtShortfallBase(d, c), pct))
    ensures c.yearNcb == c.operatingNcb + c.investmentNcb + c.financingNcb + c.ncbWithOwners + c.discretionaryNcb
    ensures c.cumulatedNcb == d.prevCumulatedNcb + c.yearNcb
  {
    var totalOutflows := d.purchasesOutflows + d.asExpenses + d.incomeTax;
    var operatingNcb := d.salesInflows - totalOutflows;
    var investmentNcb := -d.investmentFixedAssets;
    var stLoan := Floor0(-(d.prevCumulatedNcb + operatingNcb - d.minCash));
    var stPrincipal := d.stBeginning / stLoanYears;
    var stInterest := if d.stBeginning > 0.0 then Times(d.stBeginning, d.costOfDebt) else 0.0;
    var totalStPayment := stPrincipal + stInterest;
    var stReturn := if d.laterYear && d.stInvestmentRedemption > 0.0
                    then Times(d.stInvestmentRedemption, d.returnStInvestment) else 0.0;
    var stInflow := d.stInvestmentRedemption + stReturn;
    var totalLoanPayment := totalStPayment + d.ltPrincipalPayment + d.ltInterestPayment;
    var ncbForLt := d.prevCumulatedNcb + operatingNcb + investmentNcb + stLoan + stInflow -
                    totalLoanPayment - d.dividends - d.stockRepurchase - d.minCash;
    var ltLoan := Floor0(Times(-ncbForLt, pct));
    var financingNcb := stLoan + ltLoan - totalLoanPayment;
    var investedEquity := Times(ltLoan / pct, 1.0 - pct);
    var paymentsToOwners := d.dividends + d.stockRepurchase;
    var ncbWithOwners := investedEquity - paymentsToOwners;
    var ncbPrevious := operatingNcb + investmentNcb + financingNcb + ncbWithOwners;
    var stInvestment := if stLoan + ltLoan + investedEquity > 0.0 then 0.0
                        else Floor0(d.prevCumulatedNcb + ncbPrevious - d.minCash);
    var discretionaryNcb := stInflow - stInvestment;
    var yearNcb := ncbPrevious + discretionaryNcb;
    CashYear(d.salesInflows, totalOutflows, operatingNcb, investmentNcb,
             stLoan, stPrincipal, stInterest, totalStPayment,
             d.dividends, d.stockRepurchase,
             d.stInvestmentRedemption, stReturn, stInflow,
             d.ltPrincipalPayment, d.ltInterestPayment, ltLoan,
             totalLoanPayment, financingNcb,
             investedEquity, paymentsToOwners, ncbWithOwners,
             ncbPrevious, stInvestment, discretionaryNcb,
             yearNcb, d.prevCumulatedNcb + yearNcb)
  }

  /** `(l / p) * (1 - p)` plus `l` is `l / p`, and `l / p` recovers a multiple of `p`. */
  lemma EquityTopUp(ltLoan: real, pct: real)
    requires pct != 0.0
    ensures ltLoan + Times(ltLoan / pct, 1.0 - pct) == ltLoan / pct
    ensures Times(ltLoan / pct, pct) == ltLoan
  {
    var q := ltLoan / pct;
    assert q * pct == ltLoan;
    assert q * (1.0 - pct) == q - q * pct;
  }

  /** Multiplying a shortfall by a positive share and dividing it back gives the shortfall. */
  lemma ShareBack(x: real, pct: real)
    requires pct != 0.0
    ensures Times(x, pct) / pct == x
  {
    var q := Times(x, pct) / pct;
    assert q * pct == x * pct;
    MulCancel(q, x, pct);
  }

  /**
   * The short-term loan lifts the balance before investment to the minimum
   * cash when operations leave it short, and is 0 otherwise.
   */
  lemma StLoanCoversOperations(d: Drivers, stLoanYears: real, pct: real)
    requires stLoanYears != 0.0 && pct != 0.0
    ensures var c := CashYearOf(d, stLoanYears, pct);
      d.prevCumulatedNcb + c.operatingNcb + c.stLoan >= d.minCash &&
      (c.stLoan > 0.0 ==> d.prevCumulatedNcb + c.operatingNcb + c.stLoan == d.minCash)
  {
  }

  /**
   * With a positive debt share, the long-term loan and the new equity
   * together fill exactly the shortfall left after every other flow, and
   * the loan is the debt share of that total.
   */
  lemma LtFinancingCoversShortfall(d: Drivers, stLoanYears: real, pct: real)
    requires stLoanYears != 0.0 && pct > 0.0
    ensures var c := CashYearOf(d, stLoanYears, pct);
      c.ltLoan + c.investedEquity == Floor0(-LtShortfallBase(d, c)) &&
      c.ltLoan == Times(c.ltLoan + c.investedEquity, pct)
  {
    var c := CashYearOf(d, stLoanYears, pct);
    var x := LtShortfallBase(d, c);
    EquityTopUp(c.ltLoan, pct);
    if -x > 0.0 {
      MulPos(-x, pct);
      ShareBack(-x, pct);
    } else {
      MulNonPos(-x, pct);
    }
  }

  /**
   * The cash floor: with a positive debt share and a short-term investment
   * that cannot lose more than itself, every year ends with at least the
   * minimum cash, and exactly the minimum whenever a long-term loan was
   * needed.
   */
  lemma CashFloor(d: Drivers, stLoanYears: real, pct: real)
    requires stLoanYears != 0.0 && pct > 0.0
    requires d.stInvestmentRedemption >= 0.0 && d.returnStInvestment >= -1.0
    ensures var c := CashYearOf(d, stLoanYears, pct);
      c.cumulatedNcb >= d.minCash && (c.ltLoan > 0.0 ==> c.cumulatedNcb == d.minCash)
  {
    var c := CashYearOf(d, stLoanYears, pct);
    var x := LtShortfallBase(d, c);
    assert c.cumulatedNcb == x + d.minCash + c.ltLoan + c.investedEquity - c.stInvestment;
    InflowNonNegative(d, stLoanYears, pct);
    EquityTopUp(c.ltLoan, pct);
    FloorAlgebra(x, c.ltLoan, c.investedEquity, c.stLoan, c.stInvestmentInflow, c.stInvestment, pct);
  }

  /** What the short-term investment returns is never negative when it cannot lose more than itself. */
  lemma InflowNonNegative(d: Drivers, stLoanYears: real, pct: real)
    requires stLoanYears != 0.0 && pct != 0.0
    requires d.stInvestmentRedemption >= 0.0 && d.returnStInvestment >= -1.0
    ensures CashYearOf(d, stLoanYears, pct).stInvestmentInflow >= 0.0
  {
    var r := d.stInvestmentRedemption;
    if d.laterYear && r > 0.0 {
      assert CashYearOf(d, stLoanYears, pct).stInvestmentInflow == r + Times(r, d.returnStInvestment);
      MulNonNeg(r, d.returnStInvestment + 1.0);
    }
  }

  /**
   * The balance algebra behind the floor: with `x` the cash left after
   * every flow but the long-term financing and the sweep, the year ends at
   * `x + lt + eq - sweep` above the minimum.
   */
  lemma FloorAlgebra(x: real, lt: real, eq: real, st: real, inflow: real, sweep: real, pct: real)
    requires pct > 0.0 && st >= 0.0 && inflow >= 0.0
    requires lt == Floor0(Times(-x, pct)) && lt + eq == lt / pct && Times(lt / pct, pct) == lt
    requires sweep == if st + lt + eq > 0.0 then 0.0 else Floor0(x - inflow + lt + eq)
    ensures x + lt + eq - sweep >= 0.0 && (lt > 0.0 ==> x + lt + eq - sweep == 0.0)
  {
    if -x > 0.0 {
      MulPos(-x, pct);
      ShareBack(-x, pct);
    } else {
      MulNonPos(-x, pct);
      assert lt == 0.0;
    }
  }

  /**
   * The year's net cash balance is every flow of the year: collections
   * less operating payments, the fixed-asset investment, new loans less
   * debt service, new equity less payments to owners, and the investment
   * redeemed with its return less the new investment.
   */
  lemma YearNcbIsFlows(d: Drivers, stLoanYears: real, pct: real)
    requires stLoanYears != 0.0 && pct != 0.0
    ensures var c := CashYearOf(d, stLoanYears, pct);
      c.yearNcb == d.salesInflows - (d.purchasesOutflows + d.asExpenses + d.incomeTax) - d.investmentFixedAssets +
                   c.stLoan + c.ltLoan -
                   (c.stLoanPrincipalPayment + c.stLoanInterestPayment + d.ltPrincipalPayment + d.ltInterestPayment) +
                   c.investedEquity - (d.dividends + d.stockRepurchase) +
                   d.stInvestmentRedemption + c.stInvestmentReturn - c.stInvestment &&
      c.ltLoanPrincipalPayment == d.ltPrincipalPayment && c.ltLoanInterestPayment == d.ltInterestPayment &&
      c.stockRepurchase == d.stockRepurchase && c.dividendsPayment == d.dividends
  {
  }

  /**
   * The sweep: short-term investment happens only in a year that raised no
   * financing, and then leaves the minimum cash plus what last year's
   * investment returned.
   */
  lemma SweepLeavesFloor(d: Drivers, stLoanYears: real, pct: real)
    requires stLoanYears != 0.0 && pct > 0.0
    ensures var c := CashYearOf(d, stLoanYears, pct);
      c.stInvestment > 0.0 ==>
        c.stLoan == 0.0 && c.ltLoan == 0.0 && c.investedEquity == 0.0 &&
        c.cumulatedNcb == d.minCash + c.stInvestmentInflow
  {
    var c := CashYearOf(d, stLoanYears, pct);
    if c.stInvestment > 0.0 {
      EquityTopUp(c.ltLoan, pct);
      var q := c.ltLoan / pct;
      if q < 0.0 {
        MulMonotone(q, pct);
      }
      if q > 0.0 {
        MulPos(q, pct);
      }
    }
  }

  // ---------------------------------------------------------------------
  // The lists
  // ---------------------------------------------------------------------

  /** Every list of the budget, under the attribute names of the source. */
  datatype CashLists = CashLists(
    totalInflows: seq<real>, totalOutflows: seq<real>, operatingNcb: seq<real>, investmentNcb: seq<real>,
    stLoan: seq<real>, ltLoan: seq<real>, stLoanPrincipalPayment: seq<real>, stLoanInterestPayment: seq<real>,
    totalStPayment: seq<real>, ltLoanPrincipalPayment: seq<real>, ltLoanInterestPayment: seq<real>,
    totalLoanPayment: seq<real>, financingNcb: seq<real>,
    investedEquity: seq<real>, dividendsPayment: seq<real>, stockRepurchase: seq<real>,
    paymentsToOwners: seq<real>, ncbWithOwners: seq<real>,
    stInvestmentRedemption: seq<real>, stInvestmentReturn: seq<real>, stInvestmentInflow: seq<real>,
    stInvestment: seq<real>, discretionaryNcb: seq<real>,
    ncbPreviousModules: seq<real>, yearNcb: seq<real>, cumulatedNcb: seq<real>,
    year0Calculated: bool)

  /** The lists right after construction. */
  function EmptyLists(): (l: CashLists)
    ensures l.cumulatedNcb == [] && l.stInvestment == [] && !l.year0Calculated
  {
    CashLists([], [], [], [], [], [], [], [], [], [], [], [], [], [], [], [], [], [], [], [], [], [], [], [], [], [], false)
  }

  /** The lists after `calculate_year_0` puts Year 0 in front: the zero payments and the minimum cash balance. */
  function WithYear0(l: CashLists, y: Year0Cash, minCash: real): CashLists {
    l.(operatingNcb := [y.operatingNcb] + l.operatingNcb, investmentNcb := [y.investmentNcb] + l.investmentNcb,
       stLoan := [y.stLoan] + l.stLoan, ltLoan := [y.ltLoan] + l.ltLoan,
       financingNcb := [y.financingNcb] + l.financingNcb, investedEquity := [y.equity] + l.investedEquity,
       ncbWithOwners := [y.ncbWithOwners] + l.ncbWithOwners,
       ncbPreviousModules := [y.operatingNcb + y.investmentNcb + y.financingNcb + y.ncbWithOwners] + l.ncbPreviousModules,
       discretionaryNcb := [0.0] + l.discretionaryNcb, yearNcb := [y.yearNcb] + l.yearNcb,
       cumulatedNcb := [minCash] + l.cumulatedNcb,
       stLoanPrincipalPayment := [0.0] + l.stLoanPrincipalPayment,
       stLoanInterestPayment := [0.0] + l.stLoanInterestPayment, totalStPayment := [0.0] + l.totalStPayment,
       ltLoanPrincipalPayment := [0.0] + l.ltLoanPrincipalPayment,
       ltLoanInterestPayment := [0.0] + l.ltLoanInterestPayment, totalLoanPayment := [0.0] + l.totalLoanPayment,
       dividendsPayment := [0.0] + l.dividendsPayment, stockRepurchase := [0.0] + l.stockRepurchase,
       paymentsToOwners := [0.0] + l.paymentsToOwners,
       stInvestmentRedemption := [0.0] + l.stInvestmentRedemption,
       stInvestmentReturn := [0.0] + l.stInvestmentReturn, stInvestmentInflow := [0.0] + l.stInvestmentInflow,
       stInvestment := [0.0] + l.stInvestment, year0Calculated := true)
  }

  /** The lists after `calculate_year` appends one year. */
  function WithYear(l: CashLists, c: CashYear): CashLists {
    l.(totalInflows := l.totalInflows + [c.totalInflows], totalOutflows := l.totalOutflows + [c.totalOutflows],
       operatingNcb := l.operatingNcb + [c.operatingNcb], investmentNcb := l.investmentNcb + [c.investmentNcb],
       stLoan := l.stLoan + [c.stLoan], ltLoan := l.ltLoan + [c.ltLoan],
       stLoanPrincipalPayment := l.stLoanPrincipalPayment + [c.stLoanPrincipalPayment],
       stLoanInterestPayment := l.stLoanInterestPayment + [c.stLoanInterestPayment],
       totalStPayment := l.totalStPayment + [c.totalStPayment],
       ltLoanPrincipalPayment := l.ltLoanPrincipalPayment + [c.ltLoanPrincipalPayment],
       ltLoanInterestPayment := l.ltLoanInterestPayment + [c.ltLoanInterestPayment],
       totalLoanPayment := l.totalLoanPayment + [c.totalLoanPayment], financingNcb := l.financingNcb + [c.financingNcb],
       investedEquity := l.investedEquity + [c.investedEquity], dividendsPayment := l.dividendsPayment + [c.dividendsPayment],
       stockRepurchase := l.stockRepurchase + [c.stockRepurchase], paymentsToOwners := l.paymentsToOwners + [c.paymentsToOwners],
       ncbWithOwners := l.ncbWithOwners + [c.ncbWithOwners],
       stInvestmentRedemption := l.stInvestmentRedemption + [c.stInvestmentRedemption],
       stInvestmentReturn := l.stInvestmentReturn + [c.stInvestmentReturn],
       stInvestmentInflow := l.stInvestmentInflow + [c.stInvestmentInflow],
       stInvestment := l.stInvestment + [c.stInvestment], discretionaryNcb := l.discretionaryNcb + [c.discretionaryNcb],
       ncbPreviousModules := l.ncbPreviousModules + [c.ncbPreviousModules], yearNcb := l.yearNcb + [c.yearNcb],
       cumulatedNcb := l.cumulatedNcb + [c.cumulatedNcb])
  }

  /**
   * `cumulated_ncb[0]` is the minimum cash, which equals the Year-0 net
   * cash balance exactly when Year 0 needed long-term financing or just
   * reached the minimum.
   */
  lemma Year0Cumulated(l: CashLists, advanceFromCustomers: real, initialInventoryPurchase: real,
                       advanceToSuppliers: real, fixedAssets: real, minCash: real, pct: real)
    ensures var y := Year0Of(advanceFromCustomers, initialInventoryPurchase, advanceToSuppliers, fixedAssets, minCash, pct);
      var l' := WithYear0(l, y, minCash);
      l'.cumulatedNcb[0] == minCash && l'.stInvestment[0] == 0.0 &&
      (l'.cumulatedNcb[0] == l'.yearNcb[0] <==> y.operatingNcb + y.investmentNcb + y.stLoan <= minCash)
  {
    Year0Financing(advanceFromCustomers, initialInventoryPurchase, advanceToSuppliers, fixedAssets, minCash, pct);
  }

  /** Every Year-0-based list holds Years 0 .. y; total inflows and outflows hold Years 1 .. y. */
  ghost predicate Aligned(l: CashLists, y: nat) {
    |l.totalInflows| == y && |l.totalOutflows| == y &&
    |l.operatingNcb| == y + 1 && |l.investmentNcb| == y + 1 && |l.stLoan| == y + 1 && |l.ltLoan| == y + 1 &&
    |l.stLoanPrincipalPayment| == y + 1 && |l.stLoanInterestPayment| == y + 1 && |l.totalStPayment| == y + 1 &&
    |l.ltLoanPrincipalPayment| == y + 1 && |l.ltLoanInterestPayment| == y + 1 && |l.totalLoanPayment| == y + 1 &&
    |l.financingNcb| == y + 1 && |l.investedEquity| == y + 1 && |l.dividendsPayment| == y + 1 &&
    |l.stockRepurchase| == y + 1 && |l.paymentsToOwners| == y + 1 && |l.ncbWithOwners| == y + 1 &&
    |l.stInvestmentRedemption| == y + 1 && |l.stInvestmentReturn| == y + 1 && |l.stInvestmentInflow| == y + 1 &&
    |l.stInvestment| == y + 1 && |l.discretionaryNcb| == y + 1 && |l.ncbPreviousModules| == y + 1 &&
    |l.yearNcb| == y + 1 && |l.cumulatedNcb| == y + 1
  }

  /** Each year's cumulated balance is the previous one plus the year's net cash balance. */
  ghost predicate Rolled(l: CashLists) {
    |l.yearNcb| == |l.cumulatedNcb| &&
    forall k :: 1 <= k < |l.cumulatedNcb| ==> l.cumulatedNcb[k] == l.cumulatedNcb[k - 1] + l.yearNcb[k]
  }

  /** Every year after Year 0 ends at or above that year's minimum cash; no short-term investment is negative. */
  ghost predicate AboveFloor(l: CashLists, minCash: seq<real>) {
    (forall k :: 1 <= k < |l.cumulatedNcb| && k < |minCash| ==> l.cumulatedNcb[k] >= minCash[k]) &&
    (forall k :: 0 <= k < |l.stInvestment| ==> l.stInvestment[k] >= 0.0)
  }

  /** Year 0 starts a rolled, aligned budget above the floor. */
  lemma Year0Starts(y: Year0Cash, minCash: real, minCashSeries: seq<real>)
    ensures var l := WithYear0(EmptyLists(), y, minCash);
      Aligned(l, 0) && Rolled(l) && AboveFloor(l, minCashSeries) && l.cumulatedNcb == [minCash]
  {
  }

  /** Appending a year computed from the last cumulated balance keeps the roll, and the floor when the year meets it. */
  lemma WithYearKeeps(l: CashLists, y: nat, c: CashYear, d: Drivers, minCash: seq<real>)
    requires Aligned(l, y) && Rolled(l)
    requires d.prevCumulatedNcb == l.cumulatedNcb[y] && c.cumulatedNcb == d.prevCumulatedNcb + c.yearNcb
    ensures Aligned(WithYear(l, c), y + 1) && Rolled(WithYear(l, c))
    ensures AboveFloor(l, minCash) && c.stInvestment >= 0.0 && (y + 1 < |minCash| ==> c.cumulatedNcb >= minCash[y + 1]) ==>
            AboveFloor(WithYear(l, c), minCash)
  {
    var l' := WithYear(l, c);
    assert forall k :: 1 <= k < |l.cumulatedNcb| ==> l'.cumulatedNcb[k] == l.cumulatedNcb[k] && l'.yearNcb[k] == l.yearNcb[k];
  }

  // ---------------------------------------------------------------------
  // The stateful budget
  // ---------------------------------------------------------------------

  /** Whether the lists `calculate_year(year)` indexes hold the entries it reads. */
  ghost predicate Readable(year: nat, im: IntermediateLists, inputs: InputData, stEnding: seq<real>,
                           nextYearDividends: seq<real>, l: CashLists) {
    1 <= year &&
    year - 1 < |im.totalSalesInflows| && year - 1 < |im.totalPurchasesOutflows| && year - 1 < |im.totalAsExpenses| &&
    year - 1 < |im.costOfDebt| && year - 1 < |im.returnStInvestment| && year - 1 < |im.totalDepreciation| &&
    year < |im.investmentFixedAssets| && year < |im.minCashRequired| &&
    year - 1 < |stEnding| && year - 1 < |l.cumulatedNcb| && year - 1 < |l.stInvestment| &&
    (year > 1 ==> year - 2 < |nextYearDividends| && year - 1 < |inputs.stockRepurchasePctDepreciation|)
  }

  /**
   * The drivers of `calculate_year(year)`, read where the source reads them:
   * the pure form of the reads `CashBudget.CalculateYear` makes, which its
   * contract equates with the record it assembles.
   */
  function DriversOf(year: nat, im: IntermediateLists, inputs: InputData, ds: DebtLists,
                     incomeTaxes: seq<real>, nextYearDividends: seq<real>, l: CashLists): Drivers
    requires Readable(year, im, inputs, ds.stEndingBalance, nextYearDividends, l)
  {
    var i := year - 1;
    Drivers(
      im.totalSalesInflows[i], im.totalPurchasesOutflows[i], im.totalAsExpenses[i],
      if year < |incomeTaxes| then incomeTaxes[year] else 0.0,
      im.investmentFixedAssets[year], l.cumulatedNcb[year - 1], im.minCashRequired[year],
      ds.stEndingBalance[year - 1], im.costOfDebt[i],
      if year > 1 then nextYearDividends[i - 1] else 0.0,
      if year > 1 then Times(im.totalDepreciation[year - 1], inputs.stockRepurchasePctDepreciation[year - 1]) else 0.0,
      l.stInvestment[year - 1], im.returnStInvestment[i], year > 1,
      PrincipalDue(ds.ltPrincipalPaymentsByYear, year), LtInterest(ds.ltEndingBalance, year, im.costOfDebt[i]))
  }

  /** `CashBudget`. Its lists live in one record field, `lists`. */
  class CashBudget {
    const inputs: InputData
    const intermediate: Intermediate
    var lists: CashLists

    constructor (inputs: InputData, intermediate: Intermediate)
      ensures this.inputs == inputs && this.intermediate == intermediate && lists == EmptyLists()
    {
      this.inputs := inputs;
      this.intermediate := intermediate;
      lists := EmptyLists();
    }

    /**
     * `calculate_year_0`: Year 0 goes in front of every list but total
     * inflows and outflows; returns the short-term loan, long-term loan
     * and equity of Year 0.
     */
    method CalculateYear0() returns (stLoan: real, ltLoan: real, equity: real)
      requires |intermediate.lists.advancePaymentsFromCustomers| > 0 && |intermediate.lists.advancePaymentsToSuppliers| > 0
      modifies this
      ensures var y := Year0Of(intermediate.lists.advancePaymentsFromCustomers[0],
                               Times(inputs.initialInventoryUnits, inputs.initialPurchasePrice),
                               intermediate.lists.advancePaymentsToSuppliers[0], inputs.fixedAssets,
                               inputs.minimumCashRequired, inputs.pctFinancingWithDebt);
        lists == WithYear0(old(lists), y, inputs.minimumCashRequired) &&
        stLoan == y.stLoan && ltLoan == y.ltLoan && equity == y.equity
    {
      var inflow := intermediate.lists.advancePaymentsFromCustomers[0];
      var initialInventoryPurchase := Times(inputs.initialInventoryUnits, inputs.initialPurchasePrice);
      var advancePaid := intermediate.lists.advancePaymentsToSuppliers[0];
      var operatingNcb := inflow - (initialInventoryPurchase + advancePaid);
      var investmentNcb := -inputs.fixedAssets;
      var minCash := inputs.minimumCashRequired;
      stLoan := Floor0(-(0.0 + operatingNcb - minCash));
      var ncbAfterSt := 0.0 + operatingNcb + investmentNcb + stLoan;
      var remainingNeed := Floor0(-(ncbAfterSt - minCash));
      if remainingNeed > 0.0 {
        ltLoan := Times(remainingNeed, inputs.pctFinancingWithDebt);
        equity := Times(remainingNeed, 1.0 - inputs.pctFinancingWithDebt);
      } else {
        ltLoan, equity := 0.0, 0.0;
      }
      var financingNcb := stLoan + ltLoan;
      var y := Year0Cash(operatingNcb, investmentNcb, stLoan, ltLoan, equity, financingNcb, equity,
                         operatingNcb + investmentNcb + financingNcb + equity);
      assert y == Year0Of(inflow, initialInventoryPurchase, advancePaid, inputs.fixedAssets, minCash,
                          inputs.pctFinancingWithDebt);
      lists := WithYear0(lists, y, minCash);
    }

    /**
     * `calculate_year(year, debt_schedule, income_statement)`: the income
     * statement is passed as the two lists the budget reads from it.
     */
    method CalculateYear(year: nat, ds: DebtSchedule, incomeTaxes: seq<real>, nextYearDividends: seq<real>)
      requires Readable(year, intermediate.lists, inputs, ds.lists.stEndingBalance, nextYearDividends, lists)
      requires inputs.stLoanYears != 0.0 && inputs.pctFinancingWithDebt != 0.0
      modifies this
      ensures lists == WithYear(old(lists), CashYearOf(DriversOf(year, intermediate.lists, inputs, ds.lists,
                                                                 incomeTaxes, nextYearDividends, old(lists)),
                                                       inputs.stLoanYears, inputs.pctFinancingWithDebt))
    {
      var im := intermediate.lists;
      var i := year - 1;
      // the previous year's debt service, from the debt schedule
      var ltPrincipal := ds.GetTotalLtPrincipalPayment(year);
      var ltInterest := ds.GetLtInterestPayment(year, im.costOfDebt[i]);
      var d := Drivers(
        im.totalSalesInflows[i], im.totalPurchasesOutflows[i], im.totalAsExpenses[i],
        if year < |incomeTaxes| then incomeTaxes[year] else 0.0,
        im.investmentFixedAssets[year], lists.cumulatedNcb[year - 1], im.minCashRequired[year],
        ds.lists.stEndingBalance[year - 1], im.costOfDebt[i],
        if year > 1 then nextYearDividends[i - 1] else 0.0,
        if year > 1 then im.totalDepreciation[year - 1] * inputs.stockRepurchasePctDepreciation[year - 1] else 0.0,
        lists.stInvestment[year - 1], im.returnStInvestment[i], year > 1,
        ltPrincipal, ltInterest);
      // the five modules of the year
      var c := CashYearOf(d, inputs.stLoanYears, inputs.pctFinancingWithDebt);
      lists := WithYear(lists, c);
    }
  }
}
