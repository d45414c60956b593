/**
 * IntermediateCalculations of the textbook model (forecast_model/intermediate.py):
 * Fisher-equation nominal rates, sales, the minimum-cash floor, interest
 * rates, vintage depreciation, FIFO inventory, expenses and the split of
 * sales and purchases into credit, advance and same-year parts.
 * Lists indexed by forecast year without a Year-0 entry have index i for
 * Year i + 1; lists with a Year-0 entry have index k for Year k.
 */
module TextbookIntermediate {
  import opened Wrappers
  import opened RealArith
  import opened TextbookInputs

  // ---------------------------------------------------------------------
  // Specification of the series
  // ---------------------------------------------------------------------

  /** The Fisher relation: the nominal change compounding a real change with inflation. */
  function Fisher(real_: real, inflation: real): real {
    Times(1.0 + real_, 1.0 + inflation) - 1.0
  }

  /**
   * With no inflation the nominal rate is the real one, with no real change
   * it is inflation, and for inflation other than -100% the nominal rate
   * determines the real rate.
   */
  lemma FisherProperties(real1: real, real2: real, inflation: real)
    ensures Fisher(real1, 0.0) == real1 && Fisher(0.0, inflation) == inflation
    ensures inflation != -1.0 ==> (Fisher(real1, inflation) == Fisher(real2, inflation) <==> real1 == real2)
  {
    if inflation != -1.0 && Fisher(real1, inflation) == Fisher(real2, inflation) {
      TimesCancel(1.0 + real1, 1.0 + real2, 1.0 + inflation);
    }
  }

  /** Entry i is the Fisher rate of the real change and inflation of Year i + 1. */
  ghost predicate FisherSeries(nom: seq<real>, real_: seq<real>, inflation: seq<real>, n: nat) {
    |nom| == n && |real_| >= n && |inflation| >= n &&
    forall i :: 0 <= i < n ==> nom[i] == Fisher(real_[i], inflation[i])
  }

  /** Entry i + 1 is entry i grown by rate i. */
  ghost predicate GrowsBy(s: seq<real>, rate: seq<real>, n: nat) {
    |s| == n + 1 && |rate| >= n &&
    forall i :: 0 <= i < n ==> s[i + 1] == Times(s[i], 1.0 + rate[i])
  }

  /** Sales: price and units compound, revenue of Year i + 1 is units times price. */
  ghost predicate SalesSeries(price: seq<real>, units: seq<real>, revenue: seq<real>,
                              nominalSelling: seq<real>, volume: seq<real>, n: nat) {
    GrowsBy(price, nominalSelling, n) && GrowsBy(units, volume, n) && |revenue| == n &&
    forall i :: 0 <= i < n ==> revenue[i] == Times(units[i + 1], price[i + 1])
  }

  /** The Year-0 floor, then a share of each year's revenue. */
  ghost predicate MinCashSeries(minCash: seq<real>, revenue: seq<real>, min0: real, pct: real) {
    |minCash| == |revenue| + 1 && minCash[0] == min0 &&
    forall i :: 0 <= i < |revenue| ==> minCash[i + 1] == Times(pct, revenue[i])
  }

  /** Risk-free rate by Fisher, and the two spreads over it. */
  ghost predicate RateSeries(rf: seq<real>, ret: seq<real>, cod: seq<real>, inputs: InputData, n: nat) {
    |rf| == n && |ret| == n && |cod| == n && |inputs.inflationRate| >= n &&
    forall i :: 0 <= i < n ==>
      rf[i] == Fisher(inputs.realInterestRate, inputs.inflationRate[i]) &&
      ret[i] == rf[i] + inputs.riskPremiumStInvestment && cod[i] == rf[i] + inputs.riskPremiumDebt
  }

  /** The depreciation charged in year `k` by the vintages made before it. */
  function VintageSum(investment: seq<real>, k: nat, years: real): real
    requires k <= |investment| && years != 0.0
  {
    if k == 0 then 0.0 else VintageSum(investment, k - 1, years) + investment[k - 1] / years
  }

  /** Vintage `v` depreciates `investment[v] / years` in every year after `v`. */
  ghost predicate VintageRows(m: seq<seq<real>>, investment: seq<real>, rows: nat, n: nat, years: real)
    requires rows <= |investment| && rows <= n + 1 && years != 0.0
  {
    |m| == n + 1 && (forall v :: 0 <= v <= n ==> |m[v]| == n + 1) &&
    (forall v, j :: 0 <= v < rows && 0 <= j <= n ==> m[v][j] == (if j > v then investment[v] / years else 0.0)) &&
    (forall v, j :: rows <= v <= n && 0 <= j <= n ==> m[v][j] == 0.0)
  }

  /** Replacement investment plus growth with next year's volume; no growth term in the last year. */
  function GrowthInvestment(prevNetFa: real, volume: seq<real>, year: nat, n: nat): real
    requires year < n ==> year < |volume|
  {
    var factor := if year < n then 1.0 + volume[year] else 1.0;
    Times(prevNetFa, factor - 1.0)
  }

  /** One year of the fixed-asset schedule. */
  ghost predicate FixedAssetYear(investment: seq<real>, total: seq<real>, cum: seq<real>, net: seq<real>,
                                 volume: seq<real>, years: real, n: nat, y: nat)
    requires 1 <= y < |investment| && y < |total| && y < |cum| && y < |net|
    requires |volume| >= n && years != 0.0
  {
    total[y] == VintageSum(investment, y, years) &&
    investment[y] == total[y] + GrowthInvestment(net[y - 1], volume, y, n) &&
    cum[y] == cum[y - 1] + total[y] &&
    net[y] == net[y - 1] + investment[y] - total[y]
  }

  /** The schedule for Years 0 .. rows - 1: Year 0 holds the opening fixed assets. */
  ghost predicate FixedAssetPrefix(investment: seq<real>, total: seq<real>, cum: seq<real>, net: seq<real>,
                                   volume: seq<real>, fixedAssets: real, years: real, n: nat, rows: nat) {
    years != 0.0 && 1 <= rows && |volume| >= n &&
    |investment| == rows && |total| == rows && |cum| == rows && |net| == rows &&
    investment[0] == fixedAssets && total[0] == 0.0 && cum[0] == 0.0 && net[0] == fixedAssets &&
    forall y :: 1 <= y < rows ==> FixedAssetYear(investment, total, cum, net, volume, years, n, y)
  }

  /** The whole schedule, Years 0 .. n. */
  ghost predicate FixedAssetSeries(investment: seq<real>, total: seq<real>, cum: seq<real>, net: seq<real>,
                                   volume: seq<real>, fixedAssets: real, years: real, n: nat) {
    FixedAssetPrefix(investment, total, cum, net, volume, fixedAssets, years, n, n + 1)
  }

  /** One pass of the depreciation loop extends the schedule by a year. */
  lemma FixedAssetStep(investment: seq<real>, total: seq<real>, cum: seq<real>, net: seq<real>,
                       volume: seq<real>, fixedAssets: real, years: real, n: nat, year: nat,
                       totalDepr: real, newInvestment: real)
    requires FixedAssetPrefix(investment, total, cum, net, volume, fixedAssets, years, n, year)
    requires totalDepr == VintageSum(investment, year, years)
    requires newInvestment == totalDepr + GrowthInvestment(net[year - 1], volume, year, n)
    ensures FixedAssetPrefix(investment + [newInvestment], total + [totalDepr], cum + [cum[year - 1] + totalDepr],
                             net + [net[year - 1] + newInvestment - totalDepr], volume, fixedAssets, years, n, year + 1)
  {
    var investment', total' := investment + [newInvestment], total + [totalDepr];
    var cum', net' := cum + [cum[year - 1] + totalDepr], net + [net[year - 1] + newInvestment - totalDepr];
    forall y | 1 <= y < year + 1
      ensures FixedAssetYear(investment', total', cum', net', volume, years, n, y)
    {
      VintageSumPrefix(investment, [newInvestment], y, years);
      if y < year {
        assert FixedAssetYear(investment, total, cum, net, volume, years, n, y);
      }
    }
  }

  /** Units: closing stock a share of volume, opening stock last closing stock, purchases balancing. */
  ghost predicate UnitSeries(finalUnits: seq<real>, initialUnits: seq<real>, purchases: seq<real>,
                             sales: seq<real>, pct: real, final0: real, n: nat) {
    |finalUnits| == n + 1 && |initialUnits| == n + 1 && |purchases| == n && |sales| == n + 1 &&
    finalUnits[0] == final0 && initialUnits[0] == 0.0 &&
    (forall k :: 1 <= k <= n ==> finalUnits[k] == Times(sales[k], pct)) &&
    (forall k :: 1 <= k <= n ==> initialUnits[k] == finalUnits[k - 1]) &&
    (forall i :: 0 <= i < n ==> purchases[i] == sales[i + 1] + finalUnits[i + 1] - initialUnits[i + 1])
  }

  /** FIFO valuation: opening stock at last year's cost, purchases and closing stock at this year's. */
  ghost predicate FifoSeries(cost: seq<real>, initialValue: seq<real>, purchasesValue: seq<real>,
                             finalValue: seq<real>, cogs: seq<real>, initialUnits: seq<real>,
                             purchases: seq<real>, finalUnits: seq<real>, nominalPurchasing: seq<real>,
                             cost0: real, finalValue0: real, n: nat) {
    |cost| == n + 1 && |initialValue| == n + 1 && |purchasesValue| == n && |finalValue| == n + 1 &&
    |cogs| == n && |initialUnits| == n + 1 && |purchases| == n && |finalUnits| == n + 1 &&
    |nominalPurchasing| >= n &&
    cost[0] == cost0 && initialValue[0] == 0.0 && finalValue[0] == finalValue0 &&
    (forall i :: 0 <= i < n ==> cost[i + 1] == Times(cost[i], 1.0 + nominalPurchasing[i])) &&
    (forall k :: 1 <= k <= n ==> initialValue[k] == Times(initialUnits[k], cost[k - 1])) &&
    (forall i :: 0 <= i < n ==> purchasesValue[i] == Times(purchases[i], cost[i + 1])) &&
    (forall k :: 1 <= k <= n ==> finalValue[k] == Times(finalUnits[k], cost[k])) &&
    (forall i :: 0 <= i < n ==> cogs[i] == initialValue[i + 1] + purchasesValue[i] - finalValue[i + 1])
  }

  /** Commissions and advertising on revenue; overhead and payroll compound; their total. */
  ghost predicate ExpenseSeries(commissions: seq<real>, overhead: seq<real>, payroll: seq<real>,
                                advertising: seq<real>, total: seq<real>, revenue: seq<real>,
                                inputs: InputData, nomOverhead: seq<real>, nomPayroll: seq<real>, n: nat) {
    |commissions| == n && |advertising| == n && |total| == n && |revenue| == n &&
    GrowsBy(overhead, nomOverhead, n) && GrowsBy(payroll, nomPayroll, n) &&
    overhead[0] == inputs.estimatedOverheadExpenses && payroll[0] == inputs.adminSalesPayroll &&
    forall i :: 0 <= i < n ==>
      commissions[i] == Times(revenue[i], inputs.sellingCommissions) &&
      advertising[i] == Times(revenue[i], inputs.promotionAdvertisingPct) &&
      total[i] == commissions[i] + overhead[i + 1] + payroll[i + 1] + advertising[i]
  }

  /** An amount split into a credit part, an advance part and the part settled in the same year. */
  ghost predicate SplitSeries(amount: seq<real>, credit: seq<real>, advance: seq<real>, same: seq<real>,
                              creditPct: real, advancePct: real, n: nat) {
    |amount| == n && |credit| == n && |advance| == n && |same| == n &&
    forall i :: 0 <= i < n ==>
      credit[i] == Times(amount[i], creditPct) && advance[i] == Times(amount[i], advancePct) &&
      same[i] == amount[i] - credit[i] - advance[i]
  }

  /**
   * Cash timing: the same-year part now, last year's credit part, and the
   * advance on next year's amount (none in the last year); the advance on
   * Year 1 is settled in Year 0.
   */
  ghost predicate TimingSeries(credit: seq<real>, advance: seq<real>, same: seq<real>,
                               sameCash: seq<real>, creditFlow: seq<real>, advanceFlow: seq<real>,
                               total: seq<real>, n: nat) {
    n >= 1 && |credit| == n && |advance| == n && |same| == n &&
    |sameCash| == n && |creditFlow| == n + 1 && |advanceFlow| == n + 1 && |total| == n &&
    creditFlow[0] == 0.0 && advanceFlow[0] == advance[0] &&
    (forall i :: 0 <= i < n ==> sameCash[i] == same[i]) &&
    (forall k :: 1 <= k <= n ==> creditFlow[k] == if k > 1 then credit[k - 2] else 0.0) &&
    (forall k :: 1 <= k <= n ==> advanceFlow[k] == if k < n then advance[k] else 0.0) &&
    (forall i :: 0 <= i < n ==> total[i] == sameCash[i] + creditFlow[i + 1] + advanceFlow[i + 1])
  }

  // ---------------------------------------------------------------------
  // The loops that build the series (the `calculate_*` methods)
  // ---------------------------------------------------------------------

  /** `calculate_nominal_increases`: the four Fisher series in one loop. */
  method NominalIncreases(inputs: InputData, n: nat) returns (sell: seq<real>, purch: seq<real>,
                                                              over: seq<real>, pay: seq<real>)
    requires Covers(inputs, n)
    ensures FisherSeries(sell, inputs.realIncreaseSellingPrice, inputs.inflationRate, n)
    ensures FisherSeries(purch, inputs.realIncreasePurchasePrice, inputs.inflationRate, n)
    ensures FisherSeries(over, inputs.realIncreaseOverhead, inputs.inflationRate, n)
    ensures FisherSeries(pay, inputs.realIncreasePayroll, inputs.inflationRate, n)
  {
    sell, purch, over, pay := [], [], [], [];
    for i := 0 to n
      invariant FisherSeries(sell, inputs.realIncreaseSellingPrice, inputs.inflationRate, i)
      invariant FisherSeries(purch, inputs.realIncreasePurchasePrice, inputs.inflationRate, i)
      invariant FisherSeries(over, inputs.realIncreaseOverhead, inputs.inflationRate, i)
      invariant FisherSeries(pay, inputs.realIncreasePayroll, inputs.inflationRate, i)
    {
      var inflation := inputs.inflationRate[i];
      sell := sell + [Fisher(inputs.realIncreaseSellingPrice[i], inflation)];
      purch := purch + [Fisher(inputs.realIncreasePurchasePrice[i], inflation)];
      over := over + [Fisher(inputs.realIncreaseOverhead[i], inflation)];
      pay := pay + [Fisher(inputs.realIncreasePayroll[i], inflation)];
    }
  }

  /** `calculate_sales_and_pricing`: price and units compound from Year 0; revenue per forecast year. */
  method SalesAndPricing(price0: real, units0: real, nominalSelling: seq<real>, volume: seq<real>, n: nat)
    returns (price: seq<real>, units: seq<real>, revenue: seq<real>)
    requires |nominalSelling| >= n && |volume| >= n
    ensures SalesSeries(price, units, revenue, nominalSelling, volume, n)
    ensures price[0] == price0 && units[0] == units0
  {
    price, units, revenue := [price0], [units0], [];
    for i := 0 to n
      invariant SalesSeries(price, units, revenue, nominalSelling, volume, i)
      invariant price[0] == price0 && units[0] == units0
    {
      var p := price[i] * (1.0 + nominalSelling[i]);
      price := price + [p];
      var u := units[i] * (1.0 + volume[i]);
      units := units + [u];
      revenue := revenue + [u * p];
    }
  }

  /** `calculate_min_cash`: the Year-0 floor followed by a share of each year's revenue. */
  method MinCash(min0: real, pct: real, revenue: seq<real>) returns (minCash: seq<real>)
    ensures MinCashSeries(minCash, revenue, min0, pct)
  {
    minCash := [min0];
    for i := 0 to |revenue|
      invariant |minCash| == i + 1 && minCash[0] == min0
      invariant forall k :: 0 <= k < i ==> minCash[k + 1] == Times(pct, revenue[k])
    {
      minCash := minCash + [pct * revenue[i]];
    }
  }

  /** `calculate_interest_rates`: risk-free rate by Fisher, plus each premium. */
  method InterestRates(inputs: InputData, n: nat) returns (rf: seq<real>, ret: seq<real>, cod: seq<real>)
    requires Covers(inputs, n)
    ensures RateSeries(rf, ret, cod, inputs, n)
  {
    rf, ret, cod := [], [], [];
    for i := 0 to n
      invariant RateSeries(rf, ret, cod, inputs, i)
    {
      var r := Fisher(inputs.realInterestRate, inputs.inflationRate[i]);
      rf := rf + [r];
      ret := ret + [r + inputs.riskPremiumStInvestment];
      cod := cod + [r + inputs.riskPremiumDebt];
    }
  }

  /** Sum of column `col` over the first `k` rows (the `sum(...)` over vintages). */
  function ColumnSum(m: seq<seq<real>>, col: nat, k: nat): real
    requires k <= |m| && forall v :: 0 <= v < k ==> col < |m[v]|
  {
    if k == 0 then 0.0 else ColumnSum(m, col, k - 1) + m[k - 1][col]
  }

  /** Summing a year's column of the vintage matrix charges every earlier vintage once. */
  lemma {:induction false} ColumnSumIsVintageSum(m: seq<seq<real>>, investment: seq<real>, rows: nat,
                                                 n: nat, years: real, y: nat, k: nat)
    requires rows <= |investment| && rows <= n + 1 && years != 0.0 && VintageRows(m, investment, rows, n, years)
    requires y <= n && y <= rows && k <= y + 1
    ensures ColumnSum(m, y, k) == VintageSum(investment, if k <= y then k else y, years)
  {
    if k > 0 {
      ColumnSumIsVintageSum(m, investment, rows, n, years, y, k - 1);
    }
  }

  /** Vintage sums of a list are those of any longer list it begins. */
  lemma {:induction false} VintageSumPrefix(investment: seq<real>, more: seq<real>, k: nat, years: real)
    requires k <= |investment| && years != 0.0
    ensures VintageSum(investment + more, k, years) == VintageSum(investment, k, years)
  {
    if k > 0 {
      VintageSumPrefix(investment, more, k - 1, years);
      assert (investment + more)[k - 1] == investment[k - 1];
    }
  }

  /** Adding the row of the next vintage keeps the matrix a vintage matrix. */
  lemma VintageRowsExtend(m: seq<seq<real>>, investment: seq<real>, n: nat, years: real, x: real, row: seq<real>)
    requires |investment| <= n && years != 0.0 && VintageRows(m, investment, |investment|, n, years)
    requires |row| == n + 1 && forall j :: 0 <= j <= n ==> row[j] == (if j > |investment| then x / years else 0.0)
    ensures VintageRows(m[|investment| := row], investment + [x], |investment| + 1, n, years)
  {
    var m2 := m[|investment| := row];
    var inv2 := investment + [x];
    forall v, j | 0 <= v < |investment| + 1 && 0 <= j <= n
      ensures m2[v][j] == (if j > v then inv2[v] / years else 0.0)
    {
      if v < |investment| {
        assert m2[v] == m[v] && inv2[v] == investment[v];
      }
    }
  }

  /** The inner loop of `calculate_depreciation`: vintage `year` charges every later year. */
  method ChargeLaterYears(row: seq<real>, year: nat, amount: real, n: nat) returns (charged: seq<real>)
    requires |row| == n + 1 && year <= n && forall j :: 0 <= j <= n ==> row[j] == 0.0
    ensures |charged| == n + 1
    ensures forall j :: 0 <= j <= n ==> charged[j] == (if j > year then amount else 0.0)
  {
    charged := row;
    for future := year + 1 to n + 1
      invariant |charged| == n + 1
      invariant forall j :: 0 <= j <= n ==> charged[j] == (if year < j < future then amount else 0.0)
    {
      charged := charged[future := amount];
    }
  }

  /**
   * `calculate_depreciation`: the vintage matrix is filled row by row, each
   * year's charge is the sum of its column, and the investment replaces
   * that charge and grows the fixed assets with next year's volume.
   */
  method Depreciation(fixedAssets: real, years: real, volume: seq<real>, n: nat)
    returns (investment: seq<real>, matrix: seq<seq<real>>, total: seq<real>, cum: seq<real>, net: seq<real>)
    requires years != 0.0 && |volume| >= n
    ensures FixedAssetSeries(investment, total, cum, net, volume, fixedAssets, years, n)
    ensures VintageRows(matrix, investment, n + 1, n, years)
  {
    investment := [fixedAssets];
    var zeroRow := seq(n + 1, _ => 0.0);
    matrix := seq(n + 1, _ => zeroRow);
    var first := ChargeLaterYears(zeroRow, 0, fixedAssets / years, n);
    matrix := matrix[0 := first];
    total, cum, net := [0.0], [0.0], [fixedAssets];
    for year := 1 to n + 1
      invariant FixedAssetPrefix(investment, total, cum, net, volume, fixedAssets, years, n, year)
      invariant VintageRows(matrix, investment, year, n, years)
    {
      var totalDepr := ColumnSum(matrix, year, year + 1);
      ColumnSumIsVintageSum(matrix, investment, year, n, years, year, year + 1);
      var prevNetFa := net[year - 1];
      var growthFactor := if year < n then 1.0 + volume[year] else 1.0;
      var newInvestment := totalDepr + prevNetFa * (growthFactor - 1.0);
      FixedAssetStep(investment, total, cum, net, volume, fixedAssets, years, n, year, totalDepr, newInvestment);
      ghost var before, earlier := matrix, investment;
      total := total + [totalDepr];
      investment := investment + [newInvestment];
      if year < n {
        var row := ChargeLaterYears(matrix[year], year, newInvestment / years, n);
        matrix := matrix[year := row];
      }
      assert matrix == before[year := matrix[year]];
      VintageRowsExtend(before, earlier, n, years, newInvestment, matrix[year]);
      cum := cum + [cum[year - 1] + totalDepr];
      net := net + [prevNetFa + newInvestment - totalDepr];
    }
  }

  /** The unit loop of `calculate_inventory_and_purchases`. */
  method InventoryUnits(sales: seq<real>, pct: real, final0: real, n: nat)
    returns (finalUnits: seq<real>, initialUnits: seq<real>, purchases: seq<real>)
    requires |sales| == n + 1
    ensures UnitSeries(finalUnits, initialUnits, purchases, sales, pct, final0, n)
  {
    finalUnits, initialUnits, purchases := [final0], [0.0], [];
    for i := 0 to n
      invariant |finalUnits| == i + 1 && |initialUnits| == i + 1 && |purchases| == i
      invariant finalUnits[0] == final0 && initialUnits[0] == 0.0
      invariant forall k :: 1 <= k <= i ==> finalUnits[k] == Times(sales[k], pct)
      invariant forall k :: 1 <= k <= i ==> initialUnits[k] == finalUnits[k - 1]
      invariant forall k :: 0 <= k < i ==> purchases[k] == sales[k + 1] + finalUnits[k + 1] - initialUnits[k + 1]
    {
      var finalInv := sales[i + 1] * pct;
      finalUnits := finalUnits + [finalInv];
      var initialInv := finalUnits[i];
      initialUnits := initialUnits + [initialInv];
      purchases := purchases + [sales[i + 1] + finalInv - initialInv];
    }
  }

  /** The FIFO valuation loop of `calculate_inventory_and_purchases`. */
  method FifoValuation(initialUnits: seq<real>, purchases: seq<real>, finalUnits: seq<real>,
                       nominalPurchasing: seq<real>, cost0: real, finalValue0: real, n: nat)
    returns (cost: seq<real>, initialValue: seq<real>, purchasesValue: seq<real>,
             finalValue: seq<real>, cogs: seq<real>)
    requires |initialUnits| == n + 1 && |purchases| == n && |finalUnits| == n + 1 && |nominalPurchasing| >= n
    ensures FifoSeries(cost, initialValue, purchasesValue, finalValue, cogs, initialUnits, purchases,
                       finalUnits, nominalPurchasing, cost0, finalValue0, n)
  {
    cost, initialValue, purchasesValue, finalValue, cogs := [cost0], [0.0], [], [finalValue0], [];
    for i := 0 to n
      invariant |cost| == i + 1 && |initialValue| == i + 1 && |purchasesValue| == i
      invariant |finalValue| == i + 1 && |cogs| == i
      invariant cost[0] == cost0 && initialValue[0] == 0.0 && finalValue[0] == finalValue0
      invariant forall k :: 0 <= k < i ==> cost[k + 1] == Times(cost[k], 1.0 + nominalPurchasing[k])
      invariant forall k :: 1 <= k <= i ==> initialValue[k] == Times(initialUnits[k], cost[k - 1])
      invariant forall k :: 0 <= k < i ==> purchasesValue[k] == Times(purchases[k], cost[k + 1])
      invariant forall k :: 1 <= k <= i ==> finalValue[k] == Times(finalUnits[k], cost[k])
      invariant forall k :: 0 <= k < i ==> cogs[k] == initialValue[k + 1] + purchasesValue[k] - finalValue[k + 1]
    {
      var c := cost[i] * (1.0 + nominalPurchasing[i]);
      var initialVal := initialUnits[i + 1] * cost[i];
      var purchasesVal := purchases[i] * c;
      var finalVal := finalUnits[i + 1] * c;
      assert c == Times(cost[i], 1.0 + nominalPurchasing[i]) && initialVal == Times(initialUnits[i + 1], cost[i]);
      assert purchasesVal == Times(purchases[i], c) && finalVal == Times(finalUnits[i + 1], c);
      cost := cost + [c];
      initialValue := initialValue + [initialVal];
      purchasesValue := purchasesValue + [purchasesVal];
      finalValue := finalValue + [finalVal];
      cogs := cogs + [initialVal + purchasesVal - finalVal];
    }
  }

  /** `calculate_expenses`: commissions, compounding overhead and payroll, advertising, total. */
  method Expenses(revenue: seq<real>, inputs: InputData, nomOverhead: seq<real>, nomPayroll: seq<real>, n: nat)
    returns (commissions: seq<real>, overhead: seq<real>, payroll: seq<real>,
             advertising: seq<real>, total: seq<real>)
    requires |revenue| == n && |nomOverhead| >= n && |nomPayroll| >= n
    ensures ExpenseSeries(commissions, overhead, payroll, advertising, total, revenue, inputs,
                          nomOverhead, nomPayroll, n)
  {
    commissions, overhead, payroll, advertising, total :=
      [], [inputs.estimatedOverheadExpenses], [inputs.adminSalesPayroll], [], [];
    for i := 0 to n
      invariant ExpenseSeries(commissions, overhead, payroll, advertising, total, revenue[..i], inputs,
                              nomOverhead, nomPayroll, i)
    {
      var c := revenue[i] * inputs.sellingCommissions;
      commissions := commissions + [c];
      var o := overhead[i] * (1.0 + nomOverhead[i]);
      overhead := overhead + [o];
      var p := payroll[i] * (1.0 + nomPayroll[i]);
      payroll := payroll + [p];
      var a := revenue[i] * inputs.promotionAdvertisingPct;
      advertising := advertising + [a];
      total := total + [c + o + p + a];
    }
    assert revenue[..n] == revenue;
  }

  /** One disaggregation loop: credit, advance and same-year parts of each year's amount. */
  method Split(amount: seq<real>, creditPct: real, advancePct: real)
    returns (credit: seq<real>, advance: seq<real>, same: seq<real>)
    ensures SplitSeries(amount, credit, advance, same, creditPct, advancePct, |amount|)
  {
    credit, advance, same := [], [], [];
    for i := 0 to |amount|
      invariant SplitSeries(amount[..i], credit, advance, same, creditPct, advancePct, i)
    {
      var c := amount[i] * creditPct;
      var a := amount[i] * advancePct;
      credit := credit + [c];
      advance := advance + [a];
      same := same + [amount[i] - c - a];
    }
    assert amount[..|amount|] == amount;
  }

  /** One cash-timing loop: same-year cash, last year's credit, next year's advance. */
  method Timing(credit: seq<real>, advance: seq<real>, same: seq<real>, n: nat)
    returns (sameCash: seq<real>, creditFlow: seq<real>, advanceFlow: seq<real>, total: seq<real>)
    requires n >= 1 && |credit| == n && |advance| == n && |same| == n
    ensures TimingSeries(credit, advance, same, sameCash, creditFlow, advanceFlow, total, n)
  {
    sameCash, creditFlow, advanceFlow, total := [], [0.0], [advance[0]], [];
    for i := 0 to n
      invariant |sameCash| == i && |creditFlow| == i + 1 && |advanceFlow| == i + 1 && |total| == i
      invariant creditFlow[0] == 0.0 && advanceFlow[0] == advance[0]
      invariant forall k :: 0 <= k < i ==> sameCash[k] == same[k]
      invariant forall k :: 1 <= k <= i ==> creditFlow[k] == if k > 1 then credit[k - 2] else 0.0
      invariant forall k :: 1 <= k <= i ==> advanceFlow[k] == if k < n then advance[k] else 0.0
      invariant forall k :: 0 <= k < i ==> total[k] == sameCash[k] + creditFlow[k + 1] + advanceFlow[k + 1]
    {
      var current := same[i];
      var creditIn := if i > 0 then credit[i - 1] else 0.0;
      var advanceIn := if i < n - 1 then advance[i + 1] else 0.0;
      sameCash := sameCash + [current];
      creditFlow := creditFlow + [creditIn];
      advanceFlow := advanceFlow + [advanceIn];
      total := total + [current + creditIn + advanceIn];
    }
  }

  // ---------------------------------------------------------------------
  // What the series promise
  // ---------------------------------------------------------------------

  /** Revenue grows each year by the nominal price increase compounded with the volume increase. */
  lemma RevenueGrowth(price: seq<real>, units: seq<real>, revenue: seq<real>,
                      nominalSelling: seq<real>, volume: seq<real>, n: nat, i: nat)
    requires SalesSeries(price, units, revenue, nominalSelling, volume, n)
    requires i + 1 < n
    ensures revenue[i + 1] == Times(revenue[i], Times(1.0 + nominalSelling[i + 1], 1.0 + volume[i + 1]))
  {
    var u, p := units[i + 1], price[i + 1];
    var gu, gp := 1.0 + volume[i + 1], 1.0 + nominalSelling[i + 1];
    assert units[i + 2] == u * gu && price[i + 2] == p * gp;
    calc {
      revenue[i + 1];
      (u * gu) * (p * gp);
      { MulAssoc(u, gu, p * gp); MulAssoc(gu, p, gp); MulAssoc(p, gu, gp); MulAssoc(u, p, gu * gp); }
      (u * p) * (gp * gu);
    }
  }

  /**
   * Net fixed assets grow with next year's sales volume, and stay level in
   * the last forecast year, whose investment only replaces depreciation.
   */
  lemma NetFixedAssetsGrowWithVolume(investment: seq<real>, total: seq<real>, cum: seq<real>, net: seq<real>,
                                     volume: seq<real>, fixedAssets: real, years: real, n: nat, y: nat)
    requires FixedAssetSeries(investment, total, cum, net, volume, fixedAssets, years, n)
    requires 1 <= y <= n
    ensures y < n ==> net[y] == Times(net[y - 1], 1.0 + volume[y])
    ensures y == n ==> net[y] == net[y - 1] && investment[y] == total[y]
  {
    assert FixedAssetYear(investment, total, cum, net, volume, years, n, y);
  }

  /**
   * Net fixed assets plus cumulated depreciation is everything invested so
   * far, and cumulated depreciation is the sum of the yearly charges.
   */
  lemma {:induction false} FixedAssetsAccount(investment: seq<real>, total: seq<real>, cum: seq<real>, net: seq<real>,
                                              volume: seq<real>, fixedAssets: real, years: real, n: nat, y: nat)
    requires FixedAssetSeries(investment, total, cum, net, volume, fixedAssets, years, n)
    requires y <= n
    ensures cum[y] == Sum(total[..y + 1])
    ensures net[y] + cum[y] == Sum(investment[..y + 1])
  {
    if y == 0 {
      assert total[..1] == [] + [total[0]] && investment[..1] == [] + [investment[0]];
    } else {
      FixedAssetsAccount(investment, total, cum, net, volume, fixedAssets, years, n, y - 1);
      assert FixedAssetYear(investment, total, cum, net, volume, years, n, y);
      assert total[..y + 1][..y] == total[..y] && investment[..y + 1][..y] == investment[..y];
    }
  }

  /**
   * FIFO: the cost of goods sold charges the opening stock at last year's
   * unit cost and every other unit sold at this year's.
   */
  lemma FifoCostOfSales(finalUnits: seq<real>, initialUnits: seq<real>, purchases: seq<real>, sales: seq<real>,
                        pct: real, final0: real, cost: seq<real>, initialValue: seq<real>,
                        purchasesValue: seq<real>, finalValue: seq<real>, cogs: seq<real>,
                        nominalPurchasing: seq<real>, cost0: real, finalValue0: real, n: nat, i: nat)
    requires UnitSeries(finalUnits, initialUnits, purchases, sales, pct, final0, n)
    requires FifoSeries(cost, initialValue, purchasesValue, finalValue, cogs, initialUnits, purchases,
                        finalUnits, nominalPurchasing, cost0, finalValue0, n)
    requires i < n
    ensures cogs[i] == Times(initialUnits[i + 1], cost[i]) + Times(sales[i + 1] - initialUnits[i + 1], cost[i + 1])
    ensures initialUnits[i + 1] + purchases[i] - finalUnits[i + 1] == sales[i + 1]
  {
    var c := cost[i + 1];
    var p, f, open := purchases[i], finalUnits[i + 1], initialUnits[i + 1];
    assert p == sales[i + 1] + f - open;
    assert p * c - f * c == (sales[i + 1] - open) * c;
  }

  /** The part of an amount settled in its own year is the share neither credited nor advanced. */
  lemma SameYearShare(amount: seq<real>, credit: seq<real>, advance: seq<real>, same: seq<real>,
                      creditPct: real, advancePct: real, n: nat, i: nat)
    requires SplitSeries(amount, credit, advance, same, creditPct, advancePct, n)
    requires i < n
    ensures same[i] == Times(amount[i], 1.0 - creditPct - advancePct)
    ensures credit[i] + advance[i] + same[i] == amount[i]
  {
    assert amount[i] * (1.0 - creditPct - advancePct) == amount[i] - amount[i] * creditPct - amount[i] * advancePct;
  }

  /**
   * Over the forecast horizon, the cash collected plus the Year-0 advance is
   * every year's amount except the credit part of the last year, which is
   * collected after the horizon.
   */
  lemma {:induction false} CollectionsAddUp(amount: seq<real>, credit: seq<real>, advance: seq<real>, same: seq<real>,
                                            creditPct: real, advancePct: real, sameCash: seq<real>,
                                            creditFlow: seq<real>, advanceFlow: seq<real>, total: seq<real>, n: nat)
    requires SplitSeries(amount, credit, advance, same, creditPct, advancePct, n)
    requires TimingSeries(credit, advance, same, sameCash, creditFlow, advanceFlow, total, n)
    ensures Sum(total) + advanceFlow[0] == Sum(amount) - credit[n - 1]
  {
    CollectionsPrefix(amount, credit, advance, same, creditPct, advancePct, sameCash, creditFlow, advanceFlow, total, n, n);
    assert total[..n] == total && amount[..n] == amount;
  }

  lemma {:induction false} CollectionsPrefix(amount: seq<real>, credit: seq<real>, advance: seq<real>, same: seq<real>,
                                             creditPct: real, advancePct: real, sameCash: seq<real>,
                                             creditFlow: seq<real>, advanceFlow: seq<real>, total: seq<real>,
                                             n: nat, k: nat)
    requires SplitSeries(amount, credit, advance, same, creditPct, advancePct, n)
    requires TimingSeries(credit, advance, same, sameCash, creditFlow, advanceFlow, total, n)
    requires 1 <= k <= n
    ensures Sum(total[..k]) + advanceFlow[0] ==
            Sum(amount[..k]) - credit[k - 1] + (if k < n then advance[k] else 0.0)
  {
    assert total[..k][..k - 1] == total[..k - 1] && amount[..k][..k - 1] == amount[..k - 1];
    if k == 1 {
      assert total[..0] == [] && amount[..0] == [];
    } else {
      CollectionsPrefix(amount, credit, advance, same, creditPct, advancePct, sameCash, creditFlow, advanceFlow, total, n, k - 1);
    }
  }

  /** The credit part still outstanding at the end of Year y: Year y's, none at Year 0. */
  function CreditHeld(credit: seq<real>, y: nat): real
    requires y <= |credit|
  {
    if y >= 1 then credit[y - 1] else 0.0
  }

  /** The advance held at the end of Year y: the one on Year y + 1's amount, none after the horizon. */
  function AdvanceHeld(advance: seq<real>, y: nat, n: nat): real
    requires y < n ==> y < |advance|
  {
    if y < n then advance[y] else 0.0
  }

  /**
   * Year i + 1's cash is its amount less the growth of the credit part
   * outstanding, plus the growth of the advance held.
   */
  lemma CashTiming(amount: seq<real>, credit: seq<real>, advance: seq<real>, same: seq<real>,
                   creditPct: real, advancePct: real, sameCash: seq<real>,
                   creditFlow: seq<real>, advanceFlow: seq<real>, total: seq<real>, n: nat, i: nat)
    requires SplitSeries(amount, credit, advance, same, creditPct, advancePct, n)
    requires TimingSeries(credit, advance, same, sameCash, creditFlow, advanceFlow, total, n)
    requires i < n
    ensures total[i] == amount[i] - (CreditHeld(credit, i + 1) - CreditHeld(credit, i)) +
                        (AdvanceHeld(advance, i + 1, n) - AdvanceHeld(advance, i, n))
  {
    assert creditFlow[i + 1] == CreditHeld(credit, i);
  }

  /**
   * FIFO keeps the stock account: each year's closing value is last
   * year's plus purchases less the cost of goods sold.
   */
  lemma InventoryRoll(finalUnits: seq<real>, initialUnits: seq<real>, purchases: seq<real>, sales: seq<real>,
                      pct: real, final0: real, cost: seq<real>, initialValue: seq<real>,
                      purchasesValue: seq<real>, finalValue: seq<real>, cogs: seq<real>,
                      nominalPurchasing: seq<real>, cost0: real, n: nat, i: nat)
    requires UnitSeries(finalUnits, initialUnits, purchases, sales, pct, final0, n)
    requires FifoSeries(cost, initialValue, purchasesValue, finalValue, cogs, initialUnits, purchases,
                        finalUnits, nominalPurchasing, cost0, Times(final0, cost0), n)
    requires i < n
    ensures finalValue[i + 1] == finalValue[i] + purchasesValue[i] - cogs[i]
  {
    assert initialValue[i + 1] == Times(finalUnits[i], cost[i]);
    if i >= 1 {
      assert finalValue[i] == Times(finalUnits[i], cost[i]);
    }
  }

  // ---------------------------------------------------------------------
  // The lists the calculator keeps, and the states `calculate_all` links
  // ---------------------------------------------------------------------

  /** Every list of the calculator, under the attribute names of the source. */
  datatype IntermediateLists = IntermediateLists(
    nominalIncreaseSelling: seq<real>, nominalIncreasePurchasing: seq<real>,
    nominalIncreaseOverhead: seq<real>, nominalIncreasePayroll: seq<real>,
    sellingPrice: seq<real>, salesUnits: seq<real>, totalSalesRevenue: seq<real>, minCashRequired: seq<real>,
    riskFreeRate: seq<real>, returnStInvestment: seq<real>, costOfDebt: seq<real>,
    investmentByYear: seq<real>, depreciationByYear: seq<seq<real>>, totalDepreciation: seq<real>,
    cumulatedDepreciation: seq<real>, netFixedAssets: seq<real>, investmentFixedAssets: seq<real>,
    finalInventoryUnits: seq<real>, initialInventoryUnits: seq<real>, purchasesUnits: seq<real>,
    unitCost: seq<real>, initialInventoryValue: seq<real>, purchasesValue: seq<real>,
    finalInventoryValue: seq<real>, cogs: seq<real>,
    salesCommissions: seq<real>, overheadExpenses: seq<real>, payrollExpenses: seq<real>,
    advertisingExpenses: seq<real>, totalAsExpenses: seq<real>,
    creditSales: seq<real>, advancePaymentsFromCustomers: seq<real>, inflowCurrentYear: seq<real>,
    purchasesOnCredit: seq<real>, advancePaymentsToSuppliers: seq<real>, purchasesPaidSameYear: seq<real>,
    salesRevenueCurrentYearCash: seq<real>, accountsReceivableInflow: seq<real>,
    advancePaymentsInflow: seq<real>, totalSalesInflows: seq<real>,
    purchasesPaidCurrentYearCash: seq<real>, accountsPayableOutflow: seq<real>,
    advancePaymentsOutflow: seq<real>, totalPurchasesOutflows: seq<real>)

  /** The lists right after construction. */
  function SeedLists(inputs: InputData): (l: IntermediateLists)
    ensures l.sellingPrice == [inputs.initialSellingPrice] && l.salesUnits == []
    ensures l.finalInventoryValue == [Times(inputs.initialInventoryUnits, inputs.initialPurchasePrice)]
  {
    IntermediateLists(
      [], [], [], [],
      [inputs.initialSellingPrice], [], [], [inputs.minimumCashRequired],
      [], [], [],
      [], [], [0.0], [0.0], [inputs.fixedAssets], [inputs.fixedAssets],
      [inputs.initialInventoryUnits], [0.0], [],
      [inputs.initialPurchasePrice], [0.0], [], [Times(inputs.initialInventoryUnits, inputs.initialPurchasePrice)], [],
      [], [inputs.estimatedOverheadExpenses], [inputs.adminSalesPayroll], [], [],
      [], [], [], [], [], [],
      [], [0.0], [], [],
      [], [0.0], [], [])
  }

  /** The state after `calculate_all`: every series of Years 0 .. n. */
  ghost predicate Forecasted(inputs: InputData, n: nat, l: IntermediateLists) {
    n >= 1 && inputs.linearDepreciationYears != 0.0 && Covers(inputs, n) &&
    FisherSeries(l.nominalIncreaseSelling, inputs.realIncreaseSellingPrice, inputs.inflationRate, n) &&
    FisherSeries(l.nominalIncreasePurchasing, inputs.realIncreasePurchasePrice, inputs.inflationRate, n) &&
    FisherSeries(l.nominalIncreaseOverhead, inputs.realIncreaseOverhead, inputs.inflationRate, n) &&
    FisherSeries(l.nominalIncreasePayroll, inputs.realIncreasePayroll, inputs.inflationRate, n) &&
    SalesSeries(l.sellingPrice, l.salesUnits, l.totalSalesRevenue, l.nominalIncreaseSelling,
                inputs.increaseSalesVolume, n) &&
    l.sellingPrice[0] == inputs.initialSellingPrice && l.salesUnits[0] == inputs.initialSalesUnits &&
    MinCashSeries(l.minCashRequired, l.totalSalesRevenue, inputs.minimumCashRequired, inputs.pctSalesAsCash) &&
    RateSeries(l.riskFreeRate, l.returnStInvestment, l.costOfDebt, inputs, n) &&
    FixedAssetSeries(l.investmentByYear, l.totalDepreciation, l.cumulatedDepreciation, l.netFixedAssets,
                     inputs.increaseSalesVolume, inputs.fixedAssets, inputs.linearDepreciationYears, n) &&
    VintageRows(l.depreciationByYear, l.investmentByYear, n + 1, n, inputs.linearDepreciationYears) &&
    l.investmentFixedAssets == l.investmentByYear &&
    UnitSeries(l.finalInventoryUnits, l.initialInventoryUnits, l.purchasesUnits, l.salesUnits,
               inputs.inventoryPctVolume, inputs.initialInventoryUnits, n) &&
    FifoSeries(l.unitCost, l.initialInventoryValue, l.purchasesValue, l.finalInventoryValue, l.cogs,
               l.initialInventoryUnits, l.purchasesUnits, l.finalInventoryUnits, l.nominalIncreasePurchasing,
               inputs.initialPurchasePrice, Times(inputs.initialInventoryUnits, inputs.initialPurchasePrice), n) &&
    ExpenseSeries(l.salesCommissions, l.overheadExpenses, l.payrollExpenses, l.advertisingExpenses,
                  l.totalAsExpenses, l.totalSalesRevenue, inputs, l.nominalIncreaseOverhead,
                  l.nominalIncreasePayroll, n) &&
    SplitSeries(l.totalSalesRevenue, l.creditSales, l.advancePaymentsFromCustomers, l.inflowCurrentYear,
                inputs.accountsReceivablePct, inputs.advancePaymentsFromCustomerPct, n) &&
    SplitSeries(l.purchasesValue, l.purchasesOnCredit, l.advancePaymentsToSuppliers, l.purchasesPaidSameYear,
                inputs.accountsPayablePct, inputs.advancePaymentsToSuppliersPct, n) &&
    TimingSeries(l.creditSales, l.advancePaymentsFromCustomers, l.inflowCurrentYear,
                 l.salesRevenueCurrentYearCash, l.accountsReceivableInflow, l.advancePaymentsInflow,
                 l.totalSalesInflows, n) &&
    TimingSeries(l.purchasesOnCredit, l.advancePaymentsToSuppliers, l.purchasesPaidSameYear,
                 l.purchasesPaidCurrentYearCash, l.accountsPayableOutflow, l.advancePaymentsOutflow,
                 l.totalPurchasesOutflows, n)
  }

  // ---------------------------------------------------------------------
  // The stateful calculator
  // ---------------------------------------------------------------------

  /**
   * `IntermediateCalculations`. Its lists live in one record field,
   * `lists`; each `Calculate*` method replaces the lists it extends.
   */
  class Intermediate {
    const inputs: InputData
    const nYears: nat
    var lists: IntermediateLists

    constructor (inputs: InputData, nYears: nat)
      ensures this.inputs == inputs && this.nYears == nYears && lists == SeedLists(inputs)
    {
      this.inputs := inputs;
      this.nYears := nYears;
      lists := SeedLists(inputs);
    }

    /** `calculate_all`: the eight calculations in the order the later ones depend on. */
    method CalculateAll()
      requires lists == SeedLists(inputs)
      requires nYears >= 1 && Covers(inputs, nYears) && inputs.linearDepreciationYears != 0.0
      modifies this
      ensures Forecasted(inputs, nYears, lists)
    {
      CalculateNominalIncreases();
      CalculateSalesAndPricing();
      CalculateMinCash();
      CalculateInterestRates();
      CalculateDepreciation();
      CalculateInventoryAndPurchases();
      CalculateExpenses();
      CalculateCreditAndAdvances();
    }

    method CalculateNominalIncreases()
      requires Covers(inputs, nYears)
      modifies this
      ensures lists == old(lists).(nominalIncreaseSelling := lists.nominalIncreaseSelling,
                                   nominalIncreasePurchasing := lists.nominalIncreasePurchasing,
                                   nominalIncreaseOverhead := lists.nominalIncreaseOverhead,
                                   nominalIncreasePayroll := lists.nominalIncreasePayroll)
      ensures FisherSeries(lists.nominalIncreaseSelling, inputs.realIncreaseSellingPrice, inputs.inflationRate, nYears)
      ensures FisherSeries(lists.nominalIncreasePurchasing, inputs.realIncreasePurchasePrice, inputs.inflationRate, nYears)
      ensures FisherSeries(lists.nominalIncreaseOverhead, inputs.realIncreaseOverhead, inputs.inflationRate, nYears)
      ensures FisherSeries(lists.nominalIncreasePayroll, inputs.realIncreasePayroll, inputs.inflationRate, nYears)
    {
      var sell, purch, over, pay := NominalIncreases(inputs, nYears);
      lists := lists.(nominalIncreaseSelling := sell, nominalIncreasePurchasing := purch,
                      nominalIncreaseOverhead := over, nominalIncreasePayroll := pay);
    }

    method CalculateSalesAndPricing()
      requires |lists.sellingPrice| == 1 && lists.salesUnits == [] && lists.totalSalesRevenue == []
      requires |lists.nominalIncreaseSelling| >= nYears && |inputs.increaseSalesVolume| >= nYears
      modifies this
      ensures lists == old(lists).(sellingPrice := lists.sellingPrice, salesUnits := lists.salesUnits,
                                   totalSalesRevenue := lists.totalSalesRevenue)
      ensures SalesSeries(lists.sellingPrice, lists.salesUnits, lists.totalSalesRevenue,
                          lists.nominalIncreaseSelling, inputs.increaseSalesVolume, nYears)
      ensures lists.sellingPrice[0] == old(lists.sellingPrice[0]) && lists.salesUnits[0] == inputs.initialSalesUnits
    {
      var price, units, revenue := SalesAndPricing(lists.sellingPrice[0], inputs.initialSalesUnits,
                                                   lists.nominalIncreaseSelling, inputs.increaseSalesVolume, nYears);
      lists := lists.(sellingPrice := price, salesUnits := units, totalSalesRevenue := revenue);
    }

    method CalculateMinCash()
      requires |lists.minCashRequired| == 1
      modifies this
      ensures lists == old(lists).(minCashRequired := lists.minCashRequired)
      ensures MinCashSeries(lists.minCashRequired, lists.totalSalesRevenue, old(lists.minCashRequired[0]),
                            inputs.pctSalesAsCash)
    {
      var minCash := MinCash(lists.minCashRequired[0], inputs.pctSalesAsCash, lists.totalSalesRevenue);
      lists := lists.(minCashRequired := minCash);
    }

    method CalculateInterestRates()
      requires lists.riskFreeRate == [] && lists.returnStInvestment == [] && lists.costOfDebt == []
      requires Covers(inputs, nYears)
      modifies this
      ensures lists == old(lists).(riskFreeRate := lists.riskFreeRate, returnStInvestment := lists.returnStInvestment,
                                   costOfDebt := lists.costOfDebt)
      ensures RateSeries(lists.riskFreeRate, lists.returnStInvestment, lists.costOfDebt, inputs, nYears)
    {
      var rf, ret, cod := InterestRates(inputs, nYears);
      lists := lists.(riskFreeRate := rf, returnStInvestment := ret, costOfDebt := cod);
    }

    method CalculateDepreciation()
      requires lists.totalDepreciation == [0.0] && lists.cumulatedDepreciation == [0.0]
      requires lists.netFixedAssets == [inputs.fixedAssets] && lists.investmentFixedAssets == [inputs.fixedAssets]
      requires inputs.linearDepreciationYears != 0.0 && |inputs.increaseSalesVolume| >= nYears
      modifies this
      ensures lists == old(lists).(investmentByYear := lists.investmentByYear,
                                   depreciationByYear := lists.depreciationByYear,
                                   totalDepreciation := lists.totalDepreciation,
                                   cumulatedDepreciation := lists.cumulatedDepreciation,
                                   netFixedAssets := lists.netFixedAssets,
                                   investmentFixedAssets := lists.investmentFixedAssets)
      ensures FixedAssetSeries(lists.investmentByYear, lists.totalDepreciation, lists.cumulatedDepreciation,
                               lists.netFixedAssets, inputs.increaseSalesVolume, inputs.fixedAssets,
                               inputs.linearDepreciationYears, nYears)
      ensures VintageRows(lists.depreciationByYear, lists.investmentByYear, nYears + 1, nYears,
                          inputs.linearDepreciationYears)
      ensures lists.investmentFixedAssets == lists.investmentByYear
    {
      var investment, matrix, total, cum, net :=
        Depreciation(inputs.fixedAssets, inputs.linearDepreciationYears, inputs.increaseSalesVolume, nYears);
      lists := lists.(investmentByYear := investment, depreciationByYear := matrix, totalDepreciation := total,
                      cumulatedDepreciation := cum, netFixedAssets := net,
                      investmentFixedAssets := lists.investmentFixedAssets + investment[1..]);
    }

    method CalculateInventoryAndPurchases()
      requires lists.finalInventoryUnits == [inputs.initialInventoryUnits] && lists.initialInventoryUnits == [0.0]
      requires lists.purchasesUnits == [] && lists.unitCost == [inputs.initialPurchasePrice]
      requires lists.initialInventoryValue == [0.0] && lists.purchasesValue == [] && lists.cogs == []
      requires lists.finalInventoryValue == [Times(inputs.initialInventoryUnits, inputs.initialPurchasePrice)]
      requires |lists.salesUnits| == nYears + 1 && |lists.nominalIncreasePurchasing| >= nYears
      modifies this
      ensures lists == old(lists).(finalInventoryUnits := lists.finalInventoryUnits,
                                   initialInventoryUnits := lists.initialInventoryUnits,
                                   purchasesUnits := lists.purchasesUnits, unitCost := lists.unitCost,
                                   initialInventoryValue := lists.initialInventoryValue,
                                   purchasesValue := lists.purchasesValue,
                                   finalInventoryValue := lists.finalInventoryValue, cogs := lists.cogs)
      ensures UnitSeries(lists.finalInventoryUnits, lists.initialInventoryUnits, lists.purchasesUnits,
                         lists.salesUnits, inputs.inventoryPctVolume, inputs.initialInventoryUnits, nYears)
      ensures FifoSeries(lists.unitCost, lists.initialInventoryValue, lists.purchasesValue,
                         lists.finalInventoryValue, lists.cogs, lists.initialInventoryUnits, lists.purchasesUnits,
                         lists.finalInventoryUnits, lists.nominalIncreasePurchasing, inputs.initialPurchasePrice,
                         Times(inputs.initialInventoryUnits, inputs.initialPurchasePrice), nYears)
    {
      var finalUnits, initialUnits, purchases :=
        InventoryUnits(lists.salesUnits, inputs.inventoryPctVolume, inputs.initialInventoryUnits, nYears);
      var cost, initialValue, purchasesValue, finalValue, cogs :=
        FifoValuation(initialUnits, purchases, finalUnits, lists.nominalIncreasePurchasing,
                      inputs.initialPurchasePrice, lists.finalInventoryValue[0], nYears);
      lists := lists.(finalInventoryUnits := finalUnits, initialInventoryUnits := initialUnits,
                      purchasesUnits := purchases, unitCost := cost, initialInventoryValue := initialValue,
                      purchasesValue := purchasesValue, finalInventoryValue := finalValue, cogs := cogs);
    }

    method CalculateExpenses()
      requires lists.salesCommissions == [] && lists.advertisingExpenses == [] && lists.totalAsExpenses == []
      requires lists.overheadExpenses == [inputs.estimatedOverheadExpenses]
      requires lists.payrollExpenses == [inputs.adminSalesPayroll]
      requires |lists.totalSalesRevenue| == nYears
      requires |lists.nominalIncreaseOverhead| >= nYears && |lists.nominalIncreasePayroll| >= nYears
      modifies this
      ensures lists == old(lists).(salesCommissions := lists.salesCommissions,
                                   overheadExpenses := lists.overheadExpenses,
                                   payrollExpenses := lists.payrollExpenses,
                                   advertisingExpenses := lists.advertisingExpenses,
                                   totalAsExpenses := lists.totalAsExpenses)
      ensures ExpenseSeries(lists.salesCommissions, lists.overheadExpenses, lists.payrollExpenses,
                            lists.advertisingExpenses, lists.totalAsExpenses, lists.totalSalesRevenue, inputs,
                            lists.nominalIncreaseOverhead, lists.nominalIncreasePayroll, nYears)
    {
      var commissions, overhead, payroll, advertising, total :=
        Expenses(lists.totalSalesRevenue, inputs, lists.nominalIncreaseOverhead, lists.nominalIncreasePayroll, nYears);
      lists := lists.(salesCommissions := commissions, overheadExpenses := overhead, payrollExpenses := payroll,
                      advertisingExpenses := advertising, totalAsExpenses := total);
    }

    method CalculateCreditAndAdvances()
      requires lists.accountsReceivableInflow == [0.0] && lists.accountsPayableOutflow == [0.0]
      requires nYears >= 1 && |lists.totalSalesRevenue| == nYears && |lists.purchasesValue| == nYears
      modifies this
      ensures lists == old(lists).(creditSales := lists.creditSales,
                                   advancePaymentsFromCustomers := lists.advancePaymentsFromCustomers,
                                   inflowCurrentYear := lists.inflowCurrentYear,
                                   purchasesOnCredit := lists.purchasesOnCredit,
                                   advancePaymentsToSuppliers := lists.advancePaymentsToSuppliers,
                                   purchasesPaidSameYear := lists.purchasesPaidSameYear,
                                   salesRevenueCurrentYearCash := lists.salesRevenueCurrentYearCash,
                                   accountsReceivableInflow := lists.accountsReceivableInflow,
                                   advancePaymentsInflow := lists.advancePaymentsInflow,
                                   totalSalesInflows := lists.totalSalesInflows,
                                   purchasesPaidCurrentYearCash := lists.purchasesPaidCurrentYearCash,
                                   accountsPayableOutflow := lists.accountsPayableOutflow,
                                   advancePaymentsOutflow := lists.advancePaymentsOutflow,
                                   totalPurchasesOutflows := lists.totalPurchasesOutflows)
      ensures SplitSeries(lists.totalSalesRevenue, lists.creditSales, lists.advancePaymentsFromCustomers,
                          lists.inflowCurrentYear, inputs.accountsReceivablePct,
                          inputs.advancePaymentsFromCustomerPct, nYears)
      ensures SplitSeries(lists.purchasesValue, lists.purchasesOnCredit, lists.advancePaymentsToSuppliers,
                          lists.purchasesPaidSameYear, inputs.accountsPayablePct,
                          inputs.advancePaymentsToSuppliersPct, nYears)
      ensures TimingSeries(lists.creditSales, lists.advancePaymentsFromCustomers, lists.inflowCurrentYear,
                           lists.salesRevenueCurrentYearCash, lists.accountsReceivableInflow,
                           lists.advancePaymentsInflow, lists.totalSalesInflows, nYears)
      ensures TimingSeries(lists.purchasesOnCredit, lists.advancePaymentsToSuppliers, lists.purchasesPaidSameYear,
                           lists.purchasesPaidCurrentYearCash, lists.accountsPayableOutflow,
                           lists.advancePaymentsOutflow, lists.totalPurchasesOutflows, nYears)
    {
      var credit, advance, same := Split(lists.totalSalesRevenue, inputs.accountsReceivablePct,
                                         inputs.advancePaymentsFromCustomerPct);
      var pCredit, pAdvance, pSame := Split(lists.purchasesValue, inputs.accountsPayablePct,
                                            inputs.advancePaymentsToSuppliersPct);
      var cash, arIn, advIn, totalIn := Timing(credit, advance, same, nYears);
      var pCash, apOut, advOut, totalOut := Timing(pCredit, pAdvance, pSame, nYears);
      lists := lists.(creditSales := credit, advancePaymentsFromCustomers := advance, inflowCurrentYear := same,
                      purchasesOnCredit := pCredit, advancePaymentsToSuppliers := pAdvance,
                      purchasesPaidSameYear := pSame,
                      salesRevenueCurrentYearCash := cash, accountsReceivableInflow := arIn,
                      advancePaymentsInflow := advIn, totalSalesInflows := totalIn,
                      purchasesPaidCurrentYearCash := pCash, accountsPayableOutflow := apOut,
                      advancePaymentsOutflow := advOut, totalPurchasesOutflows := totalOut);
    }
  }
}
