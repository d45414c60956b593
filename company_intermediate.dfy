/**
 * IntermediateCalculations of the company engine: the driver series
 * (revenue, COGS, SG&A, capex / PPE / depreciation, working capital and the
 * minimum-cash floor) for Year 0 .. n, built one list at a time.
 */
module CompanyIntermediate {
  import opened Wrappers
  import opened CompanyInputs
  import opened RealArith

  // ---------------------------------------------------------------------
  // Specification of the series, stated on plain sequences
  // ---------------------------------------------------------------------

  /** Entry k is entry k-1 grown by the rate of year k. */
  ghost predicate GrownAt(r: seq<real>, g: seq<real>, k: nat)
    requires 1 <= k < |r| && k <= |g|
  {
    r[k] == Times(r[k - 1], 1.0 + g[k - 1])
  }

  /** Every entry after the first is the previous one grown by that year's rate. */
  ghost predicate Compounds(r: seq<real>, g: seq<real>)
  {
    |r| >= 1 && |g| >= |r| - 1 &&
    forall k :: 1 <= k < |r| ==> GrownAt(r, g, k)
  }

  lemma CompoundsAppend(r: seq<real>, g: seq<real>, x: real)
    requires Compounds(r, g) && |g| >= |r|
    requires x == Times(r[|r| - 1], 1.0 + g[|r| - 1])
    ensures Compounds(r + [x], g)
  {
    var r' := r + [x];
    forall k | 1 <= k < |r'| ensures GrownAt(r', g, k) {
      if k < |r| { assert GrownAt(r, g, k); }
    }
  }

  /** The cumulative growth factor (1 + g[0]) * ... * (1 + g[k-1]). */
  function GrowthFactor(g: seq<real>, k: nat): real
    requires k <= |g|
  {
    if k == 0 then 1.0 else Times(GrowthFactor(g, k - 1), 1.0 + g[k - 1])
  }

  /** From Year 1 on, `s` is the share `pct` of `base`, year by year. */
  ghost predicate Proportional(s: seq<real>, base: seq<real>, pct: real) {
    |s| == |base| && forall k :: 1 <= k < |s| ==> s[k] == Times(base[k], pct)
  }

  /** From Year 1 on, gross profit is revenue less COGS. */
  ghost predicate GrossProfitSeries(gp: seq<real>, revenue: seq<real>, cogs: seq<real>) {
    |gp| == |revenue| && |cogs| == |revenue| && forall k :: 1 <= k < |gp| ==> gp[k] == revenue[k] - cogs[k]
  }

  /** One forecast year of the fixed-asset schedule: capex, gross PPE, depreciation on the opening net PPE, roll-forwards. */
  ghost predicate PpeYear(rev: seq<real>, capex: seq<real>, gross: seq<real>, depr: seq<real>,
                          cum: seq<real>, net: seq<real>, capexPct: real, rate: real, k: nat)
    requires 1 <= k < |rev| && |capex| == |rev| && |gross| == |rev| && |depr| == |rev| && |cum| == |rev| && |net| == |rev|
  {
    capex[k] == Times(rev[k], capexPct) &&
    gross[k] == gross[k - 1] + capex[k] &&
    depr[k] == Times(net[k - 1], rate) &&
    cum[k] == cum[k - 1] + depr[k] &&
    net[k] == net[k - 1] + capex[k] - depr[k]
  }

  /** The fixed-asset schedule for every forecast year. */
  ghost predicate PpeRollForward(rev: seq<real>, capex: seq<real>, gross: seq<real>, depr: seq<real>,
                                 cum: seq<real>, net: seq<real>, capexPct: real, rate: real)
  {
    |capex| == |rev| && |gross| == |rev| && |depr| == |rev| && |cum| == |rev| && |net| == |rev| &&
    forall k :: 1 <= k < |rev| ==> PpeYear(rev, capex, gross, depr, cum, net, capexPct, rate, k)
  }

  lemma PpeAppend(rev: seq<real>, capex: seq<real>, gross: seq<real>, depr: seq<real>,
                  cum: seq<real>, net: seq<real>, capexPct: real, rate: real,
                  c: real, gp: real, d: real, cd: real, np: real)
    requires 1 <= |capex| < |rev|
    requires PpeRollForward(rev[..|capex|], capex, gross, depr, cum, net, capexPct, rate)
    requires c == Times(rev[|capex|], capexPct) && gp == gross[|capex| - 1] + c
    requires d == Times(net[|capex| - 1], rate) && cd == cum[|capex| - 1] + d && np == net[|capex| - 1] + c - d
    ensures PpeRollForward(rev[..|capex| + 1], capex + [c], gross + [gp], depr + [d], cum + [cd], net + [np], capexPct, rate)
  {
    var L := |capex|;
    var rev', capex', gross', depr', cum', net' := rev[..L + 1], capex + [c], gross + [gp], depr + [d], cum + [cd], net + [np];
    forall k | 1 <= k < L + 1
      ensures PpeYear(rev', capex', gross', depr', cum', net', capexPct, rate, k)
    {
      if k < L {
        assert PpeYear(rev[..L], capex, gross, depr, cum, net, capexPct, rate, k);
        assert rev'[k] == rev[..L][k];
      }
    }
  }

  /** Net working capital AR + Inventory - AP of one year. */
  function WorkingCapitalAt(ar: seq<real>, inv: seq<real>, ap: seq<real>, k: nat): real
    requires k < |ar| && k < |inv| && k < |ap|
  {
    ar[k] + inv[k] - ap[k]
  }

  /** One forecast year of working capital: the three balances and their changes against the year before. */
  ghost predicate WorkingCapitalYear(rev: seq<real>, cogs: seq<real>, ar: seq<real>, inv: seq<real>, ap: seq<real>,
                                     dAr: seq<real>, dInv: seq<real>, dAp: seq<real>, dWc: seq<real>,
                                     arPct: real, invPct: real, apPct: real, k: nat)
    requires 1 <= k < |rev| && |cogs| == |rev| && |ar| == |rev| && |inv| == |rev| && |ap| == |rev|
    requires |dAr| == |rev| - 1 && |dInv| == |rev| - 1 && |dAp| == |rev| - 1 && |dWc| == |rev| - 1
  {
    ar[k] == Times(rev[k], arPct) && inv[k] == Times(cogs[k], invPct) && ap[k] == Times(cogs[k], apPct) &&
    dAr[k - 1] == ar[k] - ar[k - 1] && dInv[k - 1] == inv[k] - inv[k - 1] && dAp[k - 1] == ap[k] - ap[k - 1] &&
    dWc[k - 1] == dAr[k - 1] + dInv[k - 1] - dAp[k - 1]
  }

  /** The working-capital balances for Year 0 .. n and the n year-on-year change lists. */
  ghost predicate WorkingCapitalSeries(rev: seq<real>, cogs: seq<real>, ar: seq<real>, inv: seq<real>, ap: seq<real>,
                                       dAr: seq<real>, dInv: seq<real>, dAp: seq<real>, dWc: seq<real>,
                                       arPct: real, invPct: real, apPct: real)
  {
    |rev| >= 1 && |cogs| == |rev| && |ar| == |rev| && |inv| == |rev| && |ap| == |rev| &&
    |dAr| == |rev| - 1 && |dInv| == |rev| - 1 && |dAp| == |rev| - 1 && |dWc| == |rev| - 1 &&
    forall k :: 1 <= k < |rev| ==> WorkingCapitalYear(rev, cogs, ar, inv, ap, dAr, dInv, dAp, dWc, arPct, invPct, apPct, k)
  }

  lemma WorkingCapitalAppend(rev: seq<real>, cogs: seq<real>, ar: seq<real>, inv: seq<real>, ap: seq<real>,
                             dAr: seq<real>, dInv: seq<real>, dAp: seq<real>, dWc: seq<real>,
                             arPct: real, invPct: real, apPct: real, a: real, v: real, p: real)
    requires 1 <= |ar| < |rev| && |cogs| == |rev|
    requires WorkingCapitalSeries(rev[..|ar|], cogs[..|ar|], ar, inv, ap, dAr, dInv, dAp, dWc, arPct, invPct, apPct)
    requires a == Times(rev[|ar|], arPct) && v == Times(cogs[|ar|], invPct) && p == Times(cogs[|ar|], apPct)
    ensures WorkingCapitalSeries(rev[..|ar| + 1], cogs[..|ar| + 1], ar + [a], inv + [v], ap + [p],
                                 dAr + [a - ar[|ar| - 1]], dInv + [v - inv[|ar| - 1]], dAp + [p - ap[|ar| - 1]],
                                 dWc + [(a - ar[|ar| - 1]) + (v - inv[|ar| - 1]) - (p - ap[|ar| - 1])],
                                 arPct, invPct, apPct)
  {
    var L := |ar|;
    var rev', cogs', ar', inv', ap' := rev[..L + 1], cogs[..L + 1], ar + [a], inv + [v], ap + [p];
    var dAr', dInv', dAp' := dAr + [a - ar[L - 1]], dInv + [v - inv[L - 1]], dAp + [p - ap[L - 1]];
    var dWc' := dWc + [(a - ar[L - 1]) + (v - inv[L - 1]) - (p - ap[L - 1])];
    forall k | 1 <= k < L + 1
      ensures WorkingCapitalYear(rev', cogs', ar', inv', ap', dAr', dInv', dAp', dWc', arPct, invPct, apPct, k)
    {
      if k < L {
        assert WorkingCapitalYear(rev[..L], cogs[..L], ar, inv, ap, dAr, dInv, dAp, dWc, arPct, invPct, apPct, k);
        assert rev'[k] == rev[..L][k] && cogs'[k] == cogs[..L][k];
      }
    }
  }

  // ---------------------------------------------------------------------
  // Properties of the series
  // ---------------------------------------------------------------------

  /** Revenue in year k is Year-0 revenue times the compounded growth. */
  lemma {:induction false} RevenueClosedForm(r: seq<real>, g: seq<real>, k: nat)
    requires Compounds(r, g) && k < |r|
    ensures r[k] == Times(r[0], GrowthFactor(g, k))
  {
    if k > 0 {
      assert GrownAt(r, g, k);
      RevenueClosedForm(r, g, k - 1);
      TimesAssoc(r[0], GrowthFactor(g, k - 1), 1.0 + g[k - 1]);
    }
  }

  /** Growth rates above -100% keep the compounded factor positive. */
  lemma {:induction false} GrowthFactorPositive(g: seq<real>, k: nat)
    requires k <= |g|
    requires forall i :: 0 <= i < k ==> g[i] > -1.0
    ensures GrowthFactor(g, k) > 0.0
  {
    if k > 0 {
      GrowthFactorPositive(g, k - 1);
      TimesPos(GrowthFactor(g, k - 1), 1.0 + g[k - 1]);
    }
  }

  /** Positive Year-0 revenue and growth rates above -100% give positive revenue in every year. */
  lemma RevenuePositive(r: seq<real>, g: seq<real>, k: nat)
    requires Compounds(r, g) && k < |r| && r[0] > 0.0
    requires forall i :: 0 <= i < |r| - 1 ==> g[i] > -1.0
    ensures r[k] > 0.0
  {
    RevenueClosedForm(r, g, k);
    GrowthFactorPositive(g, k);
    TimesPos(r[0], GrowthFactor(g, k));
  }

  /** Net PPE stays equal to gross PPE minus cumulated depreciation, up to the Year-0 offset. */
  lemma {:induction false} PpeIdentity(rev: seq<real>, capex: seq<real>, gross: seq<real>, depr: seq<real>,
                                       cum: seq<real>, net: seq<real>, capexPct: real, rate: real, k: nat)
    requires PpeRollForward(rev, capex, gross, depr, cum, net, capexPct, rate) && k < |rev|
    ensures net[k] - gross[k] + cum[k] == net[0] - gross[0] + cum[0]
  {
    if k > 0 {
      assert PpeYear(rev, capex, gross, depr, cum, net, capexPct, rate, k);
      PpeIdentity(rev, capex, gross, depr, cum, net, capexPct, rate, k - 1);
    }
  }

  /** With a depreciation rate in [0, 1] and non-negative capex, net PPE never turns negative. */
  lemma {:induction false} NetPpeNonNegative(rev: seq<real>, capex: seq<real>, gross: seq<real>, depr: seq<real>,
                                             cum: seq<real>, net: seq<real>, capexPct: real, rate: real, k: nat)
    requires PpeRollForward(rev, capex, gross, depr, cum, net, capexPct, rate) && k < |rev|
    requires 0.0 <= rate <= 1.0 && capexPct >= 0.0 && net[0] >= 0.0
    requires forall j :: 0 <= j < |rev| ==> rev[j] >= 0.0
    ensures net[k] >= 0.0
  {
    if k > 0 {
      assert PpeYear(rev, capex, gross, depr, cum, net, capexPct, rate, k);
      NetPpeNonNegative(rev, capex, gross, depr, cum, net, capexPct, rate, k - 1);
      MulAtMostOne(net[k - 1], rate);
      MulNonNeg(rev[k], capexPct);
    }
  }

  /** The changes in working capital add up to the movement in net working capital. */
  lemma {:induction false} WorkingCapitalTelescopes(rev: seq<real>, cogs: seq<real>, ar: seq<real>, inv: seq<real>, ap: seq<real>,
                                                    dAr: seq<real>, dInv: seq<real>, dAp: seq<real>, dWc: seq<real>,
                                                    arPct: real, invPct: real, apPct: real, k: nat)
    requires WorkingCapitalSeries(rev, cogs, ar, inv, ap, dAr, dInv, dAp, dWc, arPct, invPct, apPct)
    requires k < |rev|
    ensures Sum(dWc[..k]) == WorkingCapitalAt(ar, inv, ap, k) - WorkingCapitalAt(ar, inv, ap, 0)
  {
    if k > 0 {
      assert WorkingCapitalYear(rev, cogs, ar, inv, ap, dAr, dInv, dAp, dWc, arPct, invPct, apPct, k);
      WorkingCapitalTelescopes(rev, cogs, ar, inv, ap, dAr, dInv, dAp, dWc, arPct, invPct, apPct, k - 1);
      assert dWc[..k][..k - 1] == dWc[..k - 1];
    }
  }

  // ---------------------------------------------------------------------
  // The loops that build each series (the `_calculate_*` methods)
  // ---------------------------------------------------------------------

  /** Revenue for Year 0 .. n: each year grows the previous one by that year's rate. */
  method RevenueForecast(revenue0: real, growth: seq<real>, n: nat) returns (revenue: seq<real>)
    requires |growth| >= n
    ensures |revenue| == n + 1 && revenue[0] == revenue0
    ensures Compounds(revenue, growth)
  {
    revenue := [revenue0];
    for i := 0 to n
      invariant |revenue| == i + 1 && revenue[0] == revenue0
      invariant Compounds(revenue, growth)
    {
      var growthRate := growth[i];
      var prevRevenue := revenue[i];
      CompoundsAppend(revenue, growth, prevRevenue * (1.0 + growthRate));
      revenue := revenue + [prevRevenue * (1.0 + growthRate)];
    }
  }

  /** COGS as a share of revenue and gross profit as what is left, for each forecast year. */
  method CogsForecast(revenue: seq<real>, cogs0: real, grossProfit0: real, cogsPct: real)
    returns (cogs: seq<real>, grossProfit: seq<real>)
    requires |revenue| >= 1
    ensures Proportional(cogs, revenue, cogsPct) && GrossProfitSeries(grossProfit, revenue, cogs)
    ensures cogs[0] == cogs0 && grossProfit[0] == grossProfit0
  {
    cogs, grossProfit := [cogs0], [grossProfit0];
    for i := 0 to |revenue| - 1
      invariant |cogs| == i + 1 && |grossProfit| == i + 1
      invariant cogs[0] == cogs0 && grossProfit[0] == grossProfit0
      invariant forall k :: 1 <= k <= i ==>
        cogs[k] == Times(revenue[k], cogsPct) && grossProfit[k] == revenue[k] - cogs[k]
    {
      var rev := revenue[i + 1];
      var newCogs := rev * cogsPct;
      cogs := cogs + [newCogs];
      grossProfit := grossProfit + [rev - newCogs];
    }
  }

  /** SG&A as a share of revenue for each forecast year. */
  method SgaForecast(revenue: seq<real>, sga0: real, sgaPct: real) returns (sga: seq<real>)
    requires |revenue| >= 1
    ensures Proportional(sga, revenue, sgaPct) && sga[0] == sga0
  {
    sga := [sga0];
    for i := 0 to |revenue| - 1
      invariant |sga| == i + 1 && sga[0] == sga0
      invariant forall k :: 1 <= k <= i ==> sga[k] == Times(revenue[k], sgaPct)
    {
      sga := sga + [revenue[i + 1] * sgaPct];
    }
  }

  /**
   * Capex as a share of revenue, gross PPE, depreciation on the opening net
   * PPE, the two roll-forwards, and goodwill and intangibles repeated.
   */
  method FixedAssetsForecast(revenue: seq<real>, capex0: real, gross0: real, depr0: real, cum0: real, net0: real,
                             goodwill0: real, intangibles0: real, capexPct: real, rate: real)
    returns (capex: seq<real>, gross: seq<real>, depr: seq<real>, cum: seq<real>, net: seq<real>,
             goodwill: seq<real>, intangibles: seq<real>)
    requires |revenue| >= 1
    ensures PpeRollForward(revenue, capex, gross, depr, cum, net, capexPct, rate)
    ensures capex[0] == capex0 && gross[0] == gross0 && depr[0] == depr0 && cum[0] == cum0 && net[0] == net0
    ensures |goodwill| == |revenue| && |intangibles| == |revenue|
    ensures forall k :: 0 <= k < |revenue| ==> goodwill[k] == goodwill0 && intangibles[k] == intangibles0
  {
    capex, gross, depr, cum, net := [capex0], [gross0], [depr0], [cum0], [net0];
    goodwill, intangibles := [goodwill0], [intangibles0];
    for year := 1 to |revenue|
      invariant |capex| == year && |goodwill| == year && |intangibles| == year
      invariant PpeRollForward(revenue[..year], capex, gross, depr, cum, net, capexPct, rate)
      invariant capex[0] == capex0 && gross[0] == gross0 && depr[0] == depr0 && cum[0] == cum0 && net[0] == net0
      invariant forall k :: 0 <= k < year ==> goodwill[k] == goodwill0 && intangibles[k] == intangibles0
    {
      var newCapex := revenue[year] * capexPct;
      var netPpeBegin := net[year - 1];
      var newDepr := netPpeBegin * rate;
      PpeAppend(revenue, capex, gross, depr, cum, net, capexPct, rate,
                newCapex, gross[year - 1] + newCapex, newDepr, cum[year - 1] + newDepr,
                netPpeBegin + newCapex - newDepr);
      capex := capex + [newCapex];
      gross := gross + [gross[year - 1] + newCapex];
      depr := depr + [newDepr];
      cum := cum + [cum[year - 1] + newDepr];
      net := net + [netPpeBegin + newCapex - newDepr];
      goodwill := goodwill + [goodwill[0]];
      intangibles := intangibles + [intangibles[0]];
    }
    assert revenue[..|revenue|] == revenue;
  }

  /** AR, inventory and AP from their ratios, with the n year-on-year changes. */
  method WorkingCapitalForecast(revenue: seq<real>, cogs: seq<real>, ar0: real, inv0: real, ap0: real,
                                arPct: real, invPct: real, apPct: real)
    returns (ar: seq<real>, inv: seq<real>, ap: seq<real>, dAr: seq<real>, dInv: seq<real>, dAp: seq<real>, dWc: seq<real>)
    requires |revenue| >= 1 && |cogs| == |revenue|
    ensures WorkingCapitalSeries(revenue, cogs, ar, inv, ap, dAr, dInv, dAp, dWc, arPct, invPct, apPct)
    ensures ar[0] == ar0 && inv[0] == inv0 && ap[0] == ap0
  {
    ar, inv, ap := [ar0], [inv0], [ap0];
    dAr, dInv, dAp, dWc := [], [], [], [];
    for year := 1 to |revenue|
      invariant |ar| == year
      invariant WorkingCapitalSeries(revenue[..year], cogs[..year], ar, inv, ap, dAr, dInv, dAp, dWc, arPct, invPct, apPct)
      invariant ar[0] == ar0 && inv[0] == inv0 && ap[0] == ap0
    {
      var newAr := revenue[year] * arPct;
      var newInventory := cogs[year] * invPct;
      var newAp := cogs[year] * apPct;
      var changeAr := newAr - ar[year - 1];
      var changeInv := newInventory - inv[year - 1];
      var changeAp := newAp - ap[year - 1];
      WorkingCapitalAppend(revenue, cogs, ar, inv, ap, dAr, dInv, dAp, dWc, arPct, invPct, apPct,
                           newAr, newInventory, newAp);
      ar, inv, ap := ar + [newAr], inv + [newInventory], ap + [newAp];
      dAr, dInv, dAp := dAr + [changeAr], dInv + [changeInv], dAp + [changeAp];
      dWc := dWc + [changeAr + changeInv - changeAp];
    }
    assert revenue[..|revenue|] == revenue && cogs[..|revenue|] == cogs;
  }

  /** The minimum cash balance: Year-0 cash, then a share of each year's revenue. */
  method MinCashForecast(revenue: seq<real>, cash0: real, pct: real) returns (minCash: seq<real>)
    requires |revenue| >= 1
    ensures Proportional(minCash, revenue, pct) && minCash[0] == cash0
  {
    minCash := [cash0];
    for year := 1 to |revenue|
      invariant |minCash| == year && minCash[0] == cash0
      invariant forall k :: 1 <= k < year ==> minCash[k] == Times(revenue[k], pct)
    {
      minCash := minCash + [revenue[year] * pct];
    }
  }

  // ---------------------------------------------------------------------
  // The lists the calculator keeps, and the states `calculate_all` links
  // ---------------------------------------------------------------------

  /** Every year-indexed list of the calculator, under the attribute names of the source. */
  datatype IntermediateLists = IntermediateLists(
    revenue: seq<real>, cogs: seq<real>, grossProfit: seq<real>, sgaExpenses: seq<real>,
    operatingIncome: seq<real>, depreciation: seq<real>, cumulatedDepreciation: seq<real>,
    netPpe: seq<real>, grossPpe: seq<real>, capex: seq<real>,
    accountsReceivable: seq<real>, inventory: seq<real>, accountsPayable: seq<real>,
    minCashRequired: seq<real>, costOfDebt: seq<real>, returnStInvestment: seq<real>,
    changeInAr: seq<real>, changeInInventory: seq<real>, changeInAp: seq<real>, changeInWorkingCapital: seq<real>,
    goodwill: seq<real>, intangibleAssets: seq<real>)

  /** The rate lists: the by-year list when given, else the scalar repeated for each forecast year. */
  ghost predicate RatesSeeded(inputs: Inputs, n: nat, l: IntermediateLists) {
    l.costOfDebt == ByYear(inputs.costOfDebtByYear, inputs.costOfDebt, n) &&
    l.returnStInvestment == ByYear(inputs.returnStInvestmentByYear, inputs.returnStInvestment, n)
  }

  /** The state right after construction: every year-indexed list holds its Year-0 input, the change lists none. */
  ghost predicate Seeded(inputs: Inputs, n: nat, l: IntermediateLists) {
    l.revenue == [inputs.revenueYear0] && l.cogs == [inputs.cogsYear0] &&
    l.grossProfit == [inputs.grossProfitYear0] && l.sgaExpenses == [inputs.sgaYear0] &&
    l.operatingIncome == [inputs.operatingIncomeYear0] && l.depreciation == [inputs.depreciationYear0] &&
    l.cumulatedDepreciation == [inputs.accumulatedDepreciationYear0] && l.netPpe == [inputs.netPpeYear0] &&
    l.grossPpe == [inputs.grossPpeYear0] && l.capex == [inputs.capexYear0] &&
    l.accountsReceivable == [inputs.accountsReceivableYear0] && l.inventory == [inputs.inventoryYear0] &&
    l.accountsPayable == [inputs.accountsPayableYear0] && l.minCashRequired == [inputs.cashYear0] &&
    RatesSeeded(inputs, n, l) &&
    l.changeInAr == [] && l.changeInInventory == [] && l.changeInAp == [] && l.changeInWorkingCapital == [] &&
    l.goodwill == [inputs.goodwillYear0] && l.intangibleAssets == [inputs.intangibleAssetsYear0]
  }

  /** Revenue, COGS, gross profit, SG&A and the minimum-cash floor for Year 0 .. n. */
  ghost predicate SalesForecasted(inputs: Inputs, n: nat, l: IntermediateLists) {
    |l.revenue| == n + 1 && Compounds(l.revenue, inputs.revenueGrowth) &&
    Proportional(l.cogs, l.revenue, inputs.cogsPctRevenue) && GrossProfitSeries(l.grossProfit, l.revenue, l.cogs) &&
    Proportional(l.sgaExpenses, l.revenue, inputs.sgaPctRevenue) &&
    Proportional(l.minCashRequired, l.revenue, inputs.minCashPctRevenue) &&
    l.revenue[0] == inputs.revenueYear0 && l.cogs[0] == inputs.cogsYear0 &&
    l.grossProfit[0] == inputs.grossProfitYear0 && l.sgaExpenses[0] == inputs.sgaYear0 &&
    l.minCashRequired[0] == inputs.cashYear0
  }

  /** Capex, PPE and depreciation for Year 0 .. n; goodwill and intangibles held at Year 0. */
  ghost predicate FixedAssetsForecasted(inputs: Inputs, n: nat, l: IntermediateLists) {
    |l.revenue| == n + 1 && |l.goodwill| == n + 1 && |l.intangibleAssets| == n + 1 &&
    PpeRollForward(l.revenue, l.capex, l.grossPpe, l.depreciation, l.cumulatedDepreciation, l.netPpe,
                   inputs.capexPctRevenue, inputs.depreciationRate) &&
    l.depreciation[0] == inputs.depreciationYear0 && l.cumulatedDepreciation[0] == inputs.accumulatedDepreciationYear0 &&
    l.netPpe[0] == inputs.netPpeYear0 && l.grossPpe[0] == inputs.grossPpeYear0 && l.capex[0] == inputs.capexYear0 &&
    forall k :: 0 <= k <= n ==>
      l.goodwill[k] == inputs.goodwillYear0 && l.intangibleAssets[k] == inputs.intangibleAssetsYear0
  }

  /** AR, inventory, AP and the change lists for Year 0 .. n. */
  ghost predicate WorkingCapitalForecasted(inputs: Inputs, l: IntermediateLists) {
    WorkingCapitalSeries(l.revenue, l.cogs, l.accountsReceivable, l.inventory, l.accountsPayable,
                         l.changeInAr, l.changeInInventory, l.changeInAp, l.changeInWorkingCapital,
                         inputs.arPctRevenue, inputs.inventoryPctCogs, inputs.apPctCogs) &&
    l.accountsReceivable[0] == inputs.accountsReceivableYear0 && l.inventory[0] == inputs.inventoryYear0 &&
    l.accountsPayable[0] == inputs.accountsPayableYear0
  }

  /** The state after `calculate_all`: all driver series for Year 0 .. n; EBIT and the rate lists as constructed. */
  ghost predicate Forecasted(inputs: Inputs, n: nat, l: IntermediateLists) {
    SalesForecasted(inputs, n, l) && FixedAssetsForecasted(inputs, n, l) && WorkingCapitalForecasted(inputs, l) &&
    l.operatingIncome == [inputs.operatingIncomeYear0] && RatesSeeded(inputs, n, l)
  }

  // ---------------------------------------------------------------------
  // The stateful calculator
  // ---------------------------------------------------------------------

  /**
   * The calculator object. Its year-indexed lists live in one record field,
   * `lists`; each `Calculate*` method replaces the lists it extends.
   */
  class Intermediate {
    const inputs: Inputs
    const nYears: nat
    var lists: IntermediateLists

    constructor (inputs: Inputs, nYears: nat)
      ensures this.inputs == inputs && this.nYears == nYears && Seeded(inputs, nYears, lists)
    {
      this.inputs := inputs;
      this.nYears := nYears;
      lists := IntermediateLists(
        [inputs.revenueYear0], [inputs.cogsYear0], [inputs.grossProfitYear0], [inputs.sgaYear0],
        [inputs.operatingIncomeYear0], [inputs.depreciationYear0], [inputs.accumulatedDepreciationYear0],
        [inputs.netPpeYear0], [inputs.grossPpeYear0], [inputs.capexYear0],
        [inputs.accountsReceivableYear0], [inputs.inventoryYear0], [inputs.accountsPayableYear0],
        [inputs.cashYear0],
        ByYear(inputs.costOfDebtByYear, inputs.costOfDebt, nYears),
        ByYear(inputs.returnStInvestmentByYear, inputs.returnStInvestment, nYears),
        [], [], [], [],
        [inputs.goodwillYear0], [inputs.intangibleAssetsYear0]);
    }

    /** Runs the six series calculations in the order the later ones depend on. */
    method CalculateAll()
      requires Seeded(inputs, nYears, lists) && |inputs.revenueGrowth| >= nYears
      modifies this
      ensures Forecasted(inputs, nYears, lists)
    {
      CalculateRevenueForecast();
      CalculateCogs();
      CalculateSgaExpenses();
      CalculateCapexAndPpeAndDepreciation();
      CalculateWorkingCapital();
      CalculateMinCash();
    }

    /** Revenue compounded by the growth list from the Year-0 figure. */
    method CalculateRevenueForecast()
      requires |lists.revenue| >= 1 && |inputs.revenueGrowth| >= nYears
      modifies this
      ensures lists == old(lists).(revenue := lists.revenue)
      ensures |lists.revenue| == nYears + 1 && lists.revenue[0] == old(lists.revenue[0])
      ensures Compounds(lists.revenue, inputs.revenueGrowth)
    {
      var revenue := RevenueForecast(lists.revenue[0], inputs.revenueGrowth, nYears);
      lists := lists.(revenue := revenue);
    }

    /** COGS and gross profit for each forecast year, after the Year-0 entries. */
    method CalculateCogs()
      requires |lists.revenue| >= 1 && |lists.cogs| >= 1 && |lists.grossProfit| >= 1
      modifies this
      ensures lists == old(lists).(cogs := lists.cogs, grossProfit := lists.grossProfit)
      ensures Proportional(lists.cogs, lists.revenue, inputs.cogsPctRevenue)
      ensures GrossProfitSeries(lists.grossProfit, lists.revenue, lists.cogs)
      ensures lists.cogs[0] == old(lists.cogs[0]) && lists.grossProfit[0] == old(lists.grossProfit[0])
    {
      var cogs, grossProfit := CogsForecast(lists.revenue, lists.cogs[0], lists.grossProfit[0], inputs.cogsPctRevenue);
      lists := lists.(cogs := cogs, grossProfit := grossProfit);
    }

    /** SG&A for each forecast year, after the Year-0 entry. */
    method CalculateSgaExpenses()
      requires |lists.revenue| >= 1 && |lists.sgaExpenses| >= 1
      modifies this
      ensures lists == old(lists).(sgaExpenses := lists.sgaExpenses)
      ensures Proportional(lists.sgaExpenses, lists.revenue, inputs.sgaPctRevenue)
      ensures lists.sgaExpenses[0] == old(lists.sgaExpenses[0])
    {
      var sga := SgaForecast(lists.revenue, lists.sgaExpenses[0], inputs.sgaPctRevenue);
      lists := lists.(sgaExpenses := sga);
    }

    /** Capex, the PPE roll-forward and depreciation; goodwill and intangibles repeated. */
    method CalculateCapexAndPpeAndDepreciation()
      requires |lists.revenue| >= 1 && |lists.capex| >= 1 && |lists.grossPpe| >= 1 && |lists.depreciation| >= 1
      requires |lists.cumulatedDepreciation| >= 1 && |lists.netPpe| >= 1
      requires |lists.goodwill| >= 1 && |lists.intangibleAssets| >= 1
      modifies this
      ensures lists == old(lists).(capex := lists.capex, grossPpe := lists.grossPpe, depreciation := lists.depreciation,
                                   cumulatedDepreciation := lists.cumulatedDepreciation, netPpe := lists.netPpe,
                                   goodwill := lists.goodwill, intangibleAssets := lists.intangibleAssets)
      ensures PpeRollForward(lists.revenue, lists.capex, lists.grossPpe, lists.depreciation,
                             lists.cumulatedDepreciation, lists.netPpe, inputs.capexPctRevenue, inputs.depreciationRate)
      ensures lists.capex[0] == old(lists.capex[0]) && lists.grossPpe[0] == old(lists.grossPpe[0])
      ensures lists.depreciation[0] == old(lists.depreciation[0])
      ensures lists.cumulatedDepreciation[0] == old(lists.cumulatedDepreciation[0])
      ensures lists.netPpe[0] == old(lists.netPpe[0])
      ensures |lists.goodwill| == |lists.revenue| && |lists.intangibleAssets| == |lists.revenue|
      ensures forall k :: 0 <= k < |lists.revenue| ==>
        lists.goodwill[k] == old(lists.goodwill[0]) && lists.intangibleAssets[k] == old(lists.intangibleAssets[0])
    {
      var l := lists;
      var capex, gross, depr, cum, net, goodwill, intangibles :=
        FixedAssetsForecast(l.revenue, l.capex[0], l.grossPpe[0], l.depreciation[0], l.cumulatedDepreciation[0],
                            l.netPpe[0], l.goodwill[0], l.intangibleAssets[0],
                            inputs.capexPctRevenue, inputs.depreciationRate);
      lists := l.(capex := capex, grossPpe := gross, depreciation := depr, cumulatedDepreciation := cum, netPpe := net,
                  goodwill := goodwill, intangibleAssets := intangibles);
    }

    /** AR, inventory, AP and their year-on-year changes. */
    method CalculateWorkingCapital()
      requires |lists.revenue| >= 1 && |lists.cogs| == |lists.revenue|
      requires |lists.accountsReceivable| >= 1 && |lists.inventory| >= 1 && |lists.accountsPayable| >= 1
      modifies this
      ensures lists == old(lists).(accountsReceivable := lists.accountsReceivable, inventory := lists.inventory,
                                   accountsPayable := lists.accountsPayable, changeInAr := lists.changeInAr,
                                   changeInInventory := lists.changeInInventory, changeInAp := lists.changeInAp,
                                   changeInWorkingCapital := lists.changeInWorkingCapital)
      ensures WorkingCapitalSeries(lists.revenue, lists.cogs, lists.accountsReceivable, lists.inventory,
                                   lists.accountsPayable, lists.changeInAr, lists.changeInInventory,
                                   lists.changeInAp, lists.changeInWorkingCapital,
                                   inputs.arPctRevenue, inputs.inventoryPctCogs, inputs.apPctCogs)
      ensures lists.accountsReceivable[0] == old(lists.accountsReceivable[0])
      ensures lists.inventory[0] == old(lists.inventory[0]) && lists.accountsPayable[0] == old(lists.accountsPayable[0])
    {
      var l := lists;
      var ar, inv, ap, dAr, dInv, dAp, dWc :=
        WorkingCapitalForecast(l.revenue, l.cogs, l.accountsReceivable[0], l.inventory[0], l.accountsPayable[0],
                               inputs.arPctRevenue, inputs.inventoryPctCogs, inputs.apPctCogs);
      lists := l.(accountsReceivable := ar, inventory := inv, accountsPayable := ap, changeInAr := dAr,
                  changeInInventory := dInv, changeInAp := dAp, changeInWorkingCapital := dWc);
    }

    /** The minimum-cash floor for each forecast year, after Year-0 cash. */
    method CalculateMinCash()
      requires |lists.revenue| >= 1 && |lists.minCashRequired| >= 1
      modifies this
      ensures lists == old(lists).(minCashRequired := lists.minCashRequired)
      ensures Proportional(lists.minCashRequired, lists.revenue, inputs.minCashPctRevenue)
      ensures lists.minCashRequired[0] == old(lists.minCashRequired[0])
    {
      var minCash := MinCashForecast(lists.revenue, lists.minCashRequired[0], inputs.minCashPctRevenue);
      lists := lists.(minCashRequired := minCash);
    }

    /**
     * EBIT of one year from the stored series; appended when the list does
     * not reach `year` yet, otherwise written over the entry at `year`.
     */
    method CalculateOperatingIncome(year: nat) returns (oi: real)
      requires year < |lists.grossProfit| && year < |lists.sgaExpenses| && year < |lists.depreciation|
      modifies this
      ensures lists == old(lists).(operatingIncome :=
        if year >= |old(lists.operatingIncome)| then old(lists.operatingIncome) + [oi]
        else old(lists.operatingIncome)[year := oi])
      ensures oi == lists.grossProfit[year] - lists.sgaExpenses[year] - lists.depreciation[year]
    {
      oi := lists.grossProfit[year] - lists.sgaExpenses[year] - lists.depreciation[year];
      if year >= |lists.operatingIncome| {
        lists := lists.(operatingIncome := lists.operatingIncome + [oi]);
      } else {
        lists := lists.(operatingIncome := lists.operatingIncome[year := oi]);
      }
    }
  }
}
