/**
 * The generic company input mapper (company_forecast/input_mapper.py):
 * averages driver ratios over the configured base years, skipping the
 * years whose denominator is not positive and falling back to a fixed
 * default when no year qualifies, and assembles the inputs dictionary
 * of the company plug forecaster.
 */
module CompanyInputMapper {
  import opened Wrappers
  import opened RealArith
  import opened PlugForecaster
  import opened StatementFigures
  import CompanyConfigTable

  // ---------------------------------------------------------------------
  // Averaged drivers
  // ---------------------------------------------------------------------

  /**
   * The nine financial ratios of `calculate_financial_ratios` and the
   * three balance-sheet policies of `get_forecast_inputs`.
   */
  datatype Driver =
    | ArToRevenue | InventoryToCogs | ApToCogs | DepreciationRate | CapexToRevenue
    | TaxRate | DividendPayout | RepurchaseToNi | InterestRate
    | MinCash | DebtToEquity | DebtStructure

  /** Whether a base year enters the average of a driver (its denominator is positive). */
  predicate Qualifies(f: YearFigures, d: Driver) {
    match d
    case ArToRevenue => f.revenue > 0.0
    case InventoryToCogs => f.cogs > 0.0
    case ApToCogs => f.cogs > 0.0
    case DepreciationRate => f.bs.grossPpe > 0.0
    case CapexToRevenue => f.revenue > 0.0
    case TaxRate => f.pretaxIncome > 0.0
    case DividendPayout => f.netIncome > 0.0
    case RepurchaseToNi => f.netIncome > 0.0
    case InterestRate => f.bs.totalDebt > 0.0
    case MinCash => f.bs.cash > 0.0
    case DebtToEquity => f.bs.stockholdersEquity > 0.0 && f.bs.totalDebt > 0.0
    case DebtStructure => f.bs.totalDebt > 0.0
  }

  /** The value a qualifying year contributes; outflows enter as absolute amounts. */
  function Sample(f: YearFigures, d: Driver): real
    requires Qualifies(f, d)
  {
    match d
    case ArToRevenue => f.bs.accountsReceivable / f.revenue
    case InventoryToCogs => f.bs.inventory / f.cogs
    case ApToCogs => f.bs.accountsPayable / f.cogs
    case DepreciationRate => f.depreciation / f.bs.grossPpe
    case CapexToRevenue => Abs(f.capex) / f.revenue
    case TaxRate => f.tax / f.pretaxIncome
    case DividendPayout => Abs(f.dividends) / f.netIncome
    case RepurchaseToNi => Abs(f.repurchase) / f.netIncome
    case InterestRate => f.interestExpense / f.bs.totalDebt
    case MinCash => f.bs.cash
    case DebtToEquity => f.bs.totalDebt / f.bs.stockholdersEquity
    case DebtStructure => f.bs.longTermDebt / f.bs.totalDebt
  }

  /** The value used when no base year qualifies. */
  function Default(d: Driver): real {
    match d
    case ArToRevenue => 0.05
    case InventoryToCogs => 0.1
    case ApToCogs => 0.1
    case DepreciationRate => 0.05
    case CapexToRevenue => 0.04
    case TaxRate => 0.21
    case DividendPayout => 0.6
    case RepurchaseToNi => 0.3
    case InterestRate => 0.03
    case MinCash => 5000.0
    case DebtToEquity => 0.7
    case DebtStructure => 0.7
  }

  /** The samples of the qualifying years, in base-year order. */
  function Samples(years: seq<YearFigures>, d: Driver): (xs: seq<real>)
    ensures |xs| <= |years|
  {
    if |years| == 0 then []
    else
      var last := years[|years| - 1];
      Samples(years[..|years| - 1], d) + (if Qualifies(last, d) then [Sample(last, d)] else [])
  }

  /** `sum(xs) / len(xs) if xs else default`. */
  function AverageOr(xs: seq<real>, default: real): real {
    if |xs| == 0 then default else Mean(xs)
  }

  /** The averaged value of a driver over the base years. */
  function DriverValue(years: seq<YearFigures>, d: Driver): real {
    AverageOr(Samples(years, d), Default(d))
  }

  /** A sample is drawn exactly from each qualifying year. */
  lemma {:induction false} SamplesExact(years: seq<YearFigures>, d: Driver, x: real)
    ensures x in Samples(years, d) <==>
            exists i :: 0 <= i < |years| && Qualifies(years[i], d) && Sample(years[i], d) == x
  {
    if |years| > 0 {
      var init := years[..|years| - 1];
      SamplesExact(init, d, x);
      if exists i :: 0 <= i < |init| && Qualifies(init[i], d) && Sample(init[i], d) == x {
        var i :| 0 <= i < |init| && Qualifies(init[i], d) && Sample(init[i], d) == x;
        assert years[i] == init[i];
      }
      if exists i :: 0 <= i < |years| && Qualifies(years[i], d) && Sample(years[i], d) == x {
        var i :| 0 <= i < |years| && Qualifies(years[i], d) && Sample(years[i], d) == x;
        if i < |init| {
          assert init[i] == years[i];
        }
      }
    }
  }

  /** There are no samples exactly when no base year qualifies. */
  lemma {:induction false} NoSamples(years: seq<YearFigures>, d: Driver)
    ensures Samples(years, d) == [] <==> forall i :: 0 <= i < |years| ==> !Qualifies(years[i], d)
  {
    if |years| > 0 {
      var init := years[..|years| - 1];
      NoSamples(init, d);
      assert forall i :: 0 <= i < |init| ==> init[i] == years[i];
    }
  }

  /** With no qualifying base year the driver takes its default. */
  lemma DriverDefault(years: seq<YearFigures>, d: Driver)
    requires forall i :: 0 <= i < |years| ==> !Qualifies(years[i], d)
    ensures DriverValue(years, d) == Default(d)
  {
    NoSamples(years, d);
  }

  /** When every qualifying year shows the same ratio `c`, the driver is `c`. */
  lemma DriverConstant(years: seq<YearFigures>, d: Driver, c: real)
    requires exists i :: 0 <= i < |years| && Qualifies(years[i], d)
    requires forall i :: 0 <= i < |years| && Qualifies(years[i], d) ==> Sample(years[i], d) == c
    ensures DriverValue(years, d) == c
  {
    var xs := Samples(years, d);
    NoSamples(years, d);
    forall k | 0 <= k < |xs|
      ensures c <= xs[k] <= c
    {
      SamplesExact(years, d, xs[k]);
    }
    MeanBounds(xs, c, c);
  }

  /** If the default and every qualifying sample lie in `[lo, hi]`, so does the driver. */
  lemma DriverBounds(years: seq<YearFigures>, d: Driver, lo: real, hi: real)
    requires lo <= Default(d) <= hi
    requires forall i :: 0 <= i < |years| && Qualifies(years[i], d) ==> lo <= Sample(years[i], d) <= hi
    ensures lo <= DriverValue(years, d) <= hi
  {
    var xs := Samples(years, d);
    if |xs| > 0 {
      forall k | 0 <= k < |xs|
        ensures lo <= xs[k] <= hi
      {
        SamplesExact(years, d, xs[k]);
      }
      MeanBounds(xs, lo, hi);
    }
  }

  /** The minimum cash balance is always positive: a mean of positive cash or 5000. */
  lemma MinCashPositive(years: seq<YearFigures>)
    ensures DriverValue(years, MinCash) > 0.0
  {
    var xs := Samples(years, MinCash);
    if |xs| > 0 {
      forall k | 0 <= k < |xs|
        ensures xs[k] > 0.0
      {
        SamplesExact(years, MinCash, xs[k]);
      }
      SumPositive(xs);
    }
  }

  lemma {:induction false} SumPositive(xs: seq<real>)
    requires |xs| > 0
    requires forall k :: 0 <= k < |xs| ==> xs[k] > 0.0
    ensures Sum(xs) > 0.0
  {
    if |xs| > 1 {
      SumPositive(xs[..|xs| - 1]);
    }
  }

  /**
   * The averaged long-term share of debt lies in `[0, 1]` whenever, in
   * every year with debt, long-term debt is non-negative and at most total debt.
   */
  lemma DebtStructureIsShare(years: seq<YearFigures>)
    requires forall i :: 0 <= i < |years| && years[i].bs.totalDebt > 0.0 ==>
               0.0 <= years[i].bs.longTermDebt <= years[i].bs.totalDebt
    ensures 0.0 <= DriverValue(years, DebtStructure) <= 1.0
  {
    forall i | 0 <= i < |years| && Qualifies(years[i], DebtStructure)
      ensures 0.0 <= Sample(years[i], DebtStructure) <= 1.0
    {
      var f := years[i];
      ShareOfWhole(f.bs.longTermDebt, f.bs.totalDebt);
    }
    DriverBounds(years, DebtStructure, 0.0, 1.0);
  }

  /**
   * The averaging loop of `calculate_financial_ratios` and of the three
   * policy loops of `get_forecast_inputs`, for one driver.
   */
  method AverageDriver(years: seq<YearFigures>, d: Driver) returns (r: real)
    ensures r == DriverValue(years, d)
  {
    var xs: seq<real> := [];
    for i := 0 to |years|
      invariant xs == Samples(years[..i], d)
    {
      assert years[..i + 1][..i] == years[..i];
      if Qualifies(years[i], d) {
        xs := xs + [Sample(years[i], d)];
      }
    }
    assert years[..|years|] == years;
    r := if |xs| > 0 then Sum(xs) / (|xs| as real) else Default(d);
  }

  /** The nine averaged ratios of `calculate_financial_ratios`. */
  datatype Ratios = Ratios(
    arToRevenue: real, inventoryToCogs: real, apToCogs: real, depreciationRate: real,
    capexToRevenue: real, taxRate: real, dividendPayout: real, repurchaseToNi: real,
    interestRate: real)

  /** `calculate_financial_ratios`: one average per ratio over the base years. */
  method CalculateFinancialRatios(years: seq<YearFigures>) returns (r: Ratios)
    ensures r.arToRevenue == DriverValue(years, ArToRevenue)
    ensures r.inventoryToCogs == DriverValue(years, InventoryToCogs)
    ensures r.apToCogs == DriverValue(years, ApToCogs)
    ensures r.depreciationRate == DriverValue(years, DepreciationRate)
    ensures r.capexToRevenue == DriverValue(years, CapexToRevenue)
    ensures r.taxRate == DriverValue(years, TaxRate)
    ensures r.dividendPayout == DriverValue(years, DividendPayout)
    ensures r.repurchaseToNi == DriverValue(years, RepurchaseToNi)
    ensures r.interestRate == DriverValue(years, InterestRate)
  {
    var ar := AverageDriver(years, ArToRevenue);
    var inv := AverageDriver(years, InventoryToCogs);
    var ap := AverageDriver(years, ApToCogs);
    var dep := AverageDriver(years, DepreciationRate);
    var capex := AverageDriver(years, CapexToRevenue);
    var tax := AverageDriver(years, TaxRate);
    var div := AverageDriver(years, DividendPayout);
    var rep := AverageDriver(years, RepurchaseToNi);
    var rate := AverageDriver(years, InterestRate);
    r := Ratios(ar, inv, ap, dep, capex, tax, div, rep, rate);
  }

  // ---------------------------------------------------------------------
  // Growth rates
  // ---------------------------------------------------------------------

  /** The three income-statement lines whose growth is averaged. */
  datatype Line = Revenue | Cogs | Opex

  function LineValue(f: YearFigures, l: Line): real {
    match l
    case Revenue => f.revenue
    case Cogs => f.cogs
    case Opex => f.opex
  }

  /** The growth of each adjacent pair of base years whose earlier value is positive. */
  function PairGrowths(years: seq<YearFigures>, l: Line): (gs: seq<real>)
    ensures |gs| < |years| || |years| == 0
  {
    if |years| < 2 then []
    else
      var prev := LineValue(years[|years| - 2], l);
      var cur := LineValue(years[|years| - 1], l);
      PairGrowths(years[..|years| - 1], l) + (if prev > 0.0 then [(cur - prev) / prev] else [])
  }

  /** The averaged growth of a line; 0.03 with fewer than two base years or no usable pair. */
  function GrowthOf(years: seq<YearFigures>, l: Line): real {
    if |years| < 2 then 0.03 else AverageOr(PairGrowths(years, l), 0.03)
  }

  /** A line that grows by the same rate `g` from a positive start every year averages to `g`. */
  lemma {:induction false} SteadyGrowth(years: seq<YearFigures>, l: Line, g: real)
    requires |years| >= 2
    requires forall i :: 0 <= i < |years| - 1 ==> LineValue(years[i], l) > 0.0
    requires forall i :: 0 <= i < |years| - 1 ==>
               LineValue(years[i + 1], l) == Times(LineValue(years[i], l), 1.0 + g)
    ensures GrowthOf(years, l) == g
  {
    var gs := PairGrowths(years, l);
    PairGrowthsSteady(years, l, g);
    MeanBounds(gs, g, g);
  }

  lemma {:induction false} PairGrowthsSteady(years: seq<YearFigures>, l: Line, g: real)
    requires |years| >= 2
    requires forall i :: 0 <= i < |years| - 1 ==> LineValue(years[i], l) > 0.0
    requires forall i :: 0 <= i < |years| - 1 ==>
               LineValue(years[i + 1], l) == Times(LineValue(years[i], l), 1.0 + g)
    ensures |PairGrowths(years, l)| == |years| - 1
    ensures forall k :: 0 <= k < |PairGrowths(years, l)| ==> PairGrowths(years, l)[k] == g
  {
    var n := |years|;
    var prev := LineValue(years[n - 2], l);
    var cur := LineValue(years[n - 1], l);
    assert cur == Times(prev, 1.0 + g);
    assert (cur - prev) / prev == g;
    if n > 2 {
      var init := years[..n - 1];
      assert forall i :: 0 <= i < |init| ==> init[i] == years[i];
      PairGrowthsSteady(init, l, g);
    }
  }

  /** With no base year pair whose earlier value is positive, the growth is 0.03. */
  lemma {:induction false} GrowthDefault(years: seq<YearFigures>, l: Line)
    requires forall i :: 0 <= i < |years| - 1 ==> LineValue(years[i], l) <= 0.0
    ensures GrowthOf(years, l) == 0.03
  {
    if |years| >= 2 {
      NoPairGrowths(years, l);
    }
  }

  lemma {:induction false} NoPairGrowths(years: seq<YearFigures>, l: Line)
    requires forall i :: 0 <= i < |years| - 1 ==> LineValue(years[i], l) <= 0.0
    ensures PairGrowths(years, l) == []
  {
    if |years| >= 2 {
      var init := years[..|years| - 1];
      assert forall i :: 0 <= i < |init| ==> init[i] == years[i];
      NoPairGrowths(init, l);
    }
  }

  /** The three averaged growth rates of `calculate_growth_rates`. */
  datatype Growth = Growth(revenue: real, cogs: real, opex: real)

  /**
   * `calculate_growth_rates`: fewer than two base years give 0.03 for each
   * line; otherwise one loop over the adjacent pairs collects the growths.
   */
  method CalculateGrowthRates(years: seq<YearFigures>) returns (g: Growth)
    ensures g.revenue == GrowthOf(years, Revenue)
    ensures g.cogs == GrowthOf(years, Cogs)
    ensures g.opex == GrowthOf(years, Opex)
  {
    if |years| < 2 {
      return Growth(0.03, 0.03, 0.03);
    }
    var revenue: seq<real> := [];
    var cogs: seq<real> := [];
    var opex: seq<real> := [];
    for i := 0 to |years| - 1
      invariant revenue == PairGrowths(years[..i + 1], Revenue)
      invariant cogs == PairGrowths(years[..i + 1], Cogs)
      invariant opex == PairGrowths(years[..i + 1], Opex)
    {
      assert years[..i + 2][..i + 1] == years[..i + 1];
      var t := years[i];
      var t1 := years[i + 1];
      if t.revenue > 0.0 {
        revenue := revenue + [(t1.revenue - t.revenue) / t.revenue];
      }
      if t.cogs > 0.0 {
        cogs := cogs + [(t1.cogs - t.cogs) / t.cogs];
      }
      if t.opex > 0.0 {
        opex := opex + [(t1.opex - t.opex) / t.opex];
      }
    }
    assert years[..|years|] == years;
    g := Growth(AverageOr(revenue, 0.03), AverageOr(cogs, 0.03), AverageOr(opex, 0.03));
  }

  // ---------------------------------------------------------------------
  // get_forecast_inputs
  // ---------------------------------------------------------------------

  /** `[x] * n`. */
  function Repeat(x: real, n: nat): (s: seq<real>)
    ensures |s| == n && forall i :: 0 <= i < n ==> s[i] == x
  {
    seq(n, _ => x)
  }

  /**
   * The inputs dictionary built from the figures of the base years (in
   * base-year order; the last one is Year 0) and the number of forecast years.
   */
  function ForecastInputsOf(years: seq<YearFigures>, horizon: nat): PlugInputs
    requires |years| > 0
  {
    var y0 := years[|years| - 1];
    var rate := DriverValue(years, InterestRate);
    PlugInputs(
      horizon,
      InitialBalanceSheet(y0),
      OpeningFlowsOf(y0),
      Repeat(GrowthOf(years, Revenue), horizon), Repeat(GrowthOf(years, Cogs), horizon),
      Repeat(GrowthOf(years, Opex), horizon),
      Times(DriverValue(years, ArToRevenue), 365.0),
      Times(DriverValue(years, InventoryToCogs), 365.0),
      Times(DriverValue(years, ApToCogs), 365.0),
      DriverValue(years, DepreciationRate), DriverValue(years, CapexToRevenue),
      rate, rate, DriverValue(years, TaxRate), DriverValue(years, DividendPayout),
      ShareOfNetIncome(Some(DriverValue(years, RepurchaseToNi))),
      DriverValue(years, MinCash), DriverValue(years, DebtToEquity), DriverValue(years, DebtStructure))
  }

  /**
   * `get_forecast_inputs` for a configured company: `years` holds the
   * figures at the year-end date of each base year. The last base year is Year 0.
   */
  method GetForecastInputs(company: CompanyConfigTable.Company, years: seq<YearFigures>)
    returns (p: PlugInputs)
    requires |years| == |company.baseYears| > 0
    ensures p == ForecastInputsOf(years, |company.forecastYears|)
    ensures p.forecastYears == |company.forecastYears|
    ensures p.sheet == InitialBalanceSheet(years[|years| - 1])
    ensures p.interestRateSt == p.interestRateLt
  {
    var n := |company.forecastYears|;
    var sheet := InitialBalanceSheet(years[|years| - 1]);
    var growth := CalculateGrowthRates(years);
    var ratios := CalculateFinancialRatios(years);
    var minCash := AverageDriver(years, MinCash);
    var debtToEquity := AverageDriver(years, DebtToEquity);
    var structure := AverageDriver(years, DebtStructure);
    p := PlugInputs(
      n, sheet, OpeningFlowsOf(years[|years| - 1]),
      Repeat(growth.revenue, n), Repeat(growth.cogs, n), Repeat(growth.opex, n),
      ratios.arToRevenue * 365.0, ratios.inventoryToCogs * 365.0, ratios.apToCogs * 365.0,
      ratios.depreciationRate, ratios.capexToRevenue,
      ratios.interestRate, ratios.interestRate, ratios.taxRate, ratios.dividendPayout,
      ShareOfNetIncome(Some(ratios.repurchaseToNi)),
      minCash, debtToEquity, structure);
  }

  /**
   * The mapped inputs fit the forecaster: every growth list covers the
   * horizon with one constant rate, the interest rates coincide, the
   * minimum cash balance is positive and Year 0 repeats the mapped sheet.
   */
  lemma MappedInputsFit(years: seq<YearFigures>, horizon: nat)
    requires |years| > 0
    ensures var p := ForecastInputsOf(years, horizon);
      Fits(OpeningBooks(p), p) &&
      (forall i :: 0 <= i < horizon ==>
         p.nominalRevenueGrowth[i] == GrowthOf(years, Revenue) &&
         p.nominalCogsGrowth[i] == GrowthOf(years, Cogs) &&
         p.nominalOpexGrowth[i] == GrowthOf(years, Opex)) &&
      p.interestRateSt == p.interestRateLt &&
      p.minCashBalance > 0.0 &&
      OpeningYear(OpeningBooks(p), p) &&
      OpeningBooks(p).accDepreciation[0] >= 0.0
  {
    var p := ForecastInputsOf(years, horizon);
    OpeningBooksFit(p);
    MinCashPositive(years);
  }

  /** Day counts are the averaged ratios scaled to a 365-day year. */
  lemma DayCounts(years: seq<YearFigures>, horizon: nat)
    requires |years| > 0
    ensures var p := ForecastInputsOf(years, horizon);
      p.arDays / 365.0 == DriverValue(years, ArToRevenue) &&
      p.inventoryDays / 365.0 == DriverValue(years, InventoryToCogs) &&
      p.apDays / 365.0 == DriverValue(years, ApToCogs)
  {
  }
}
