/**
 * DataLoader of the company engine: the historical statements, keyed by
 * year and row label, and the averaged queries that InputCalculator uses to
 * derive forecast drivers. Years are the four-digit prefixes of the column
 * dates; as naturals they order the same way the source's strings do.
 */
module CompanyDataLoader {
  import opened Wrappers

  /** One statement after loading: year → row label → cell, where `None` is a NaN cell. */
  type Statement = map<nat, map<string, Option<real>>>

  /** The three statements that `load_all` reads. */
  datatype Statements = Statements(income: Statement, balance: Statement, cash: Statement)

  /** One `year: value` pair of a query result, in insertion order. */
  datatype Entry = Entry(year: nat, value: real)

  // ---------------------------------------------------------------------
  // Cell lookup
  // ---------------------------------------------------------------------

  /** The statement a name selects: "income", "balance" or "cash"; any other name selects nothing. */
  function Select(s: Statements, statement: string): (r: Statement)
    ensures statement != "income" && statement != "balance" && statement != "cash" ==> r == map[]
  {
    if statement == "income" then s.income
    else if statement == "balance" then s.balance
    else if statement == "cash" then s.cash
    else map[]
  }

  /** A cell: absent for a missing year, a missing row label or a NaN cell. */
  function Cell(data: Statement, field: string, year: Option<nat>): (r: Option<real>)
    ensures r.Some? <==> year.Some? && year.value in data && field in data[year.value] && data[year.value][field].Some?
    ensures r.Some? ==> r == data[year.value][field]
  {
    if year.Some? && year.value in data && field in data[year.value] then data[year.value][field] else None
  }

  // ---------------------------------------------------------------------
  // Year lists
  // ---------------------------------------------------------------------

  /** Years listed newest first. */
  predicate NewestFirst(ys: seq<nat>) {
    forall i, j :: 0 <= i < j < |ys| ==> ys[i] >= ys[j]
  }

  /** Insertion into a newest-first list. */
  function Insert(y: nat, ys: seq<nat>): seq<nat> {
    if ys == [] || y >= ys[0] then [y] + ys else [ys[0]] + Insert(y, ys[1..])
  }

  /** `sorted(..., reverse=True)` on year prefixes. */
  function SortNewestFirst(ys: seq<nat>): seq<nat> {
    if ys == [] then [] else Insert(ys[0], SortNewestFirst(ys[1..]))
  }

  lemma {:induction false} InsertSorted(y: nat, ys: seq<nat>)
    requires NewestFirst(ys)
    ensures NewestFirst(Insert(y, ys))
    ensures multiset(Insert(y, ys)) == multiset(ys) + multiset{y}
  {
    if ys == [] || y >= ys[0] {
      ConsNewestFirst(y, ys);
    } else {
      var tail := ys[1..];
      assert ys == [ys[0]] + tail;
      assert NewestFirst(tail);
      InsertSorted(y, tail);
      var r := Insert(y, tail);
      forall k | 0 <= k < |r| ensures r[k] <= ys[0] {
        assert r[k] in multiset(r);
        if r[k] != y {
          assert r[k] in multiset(tail);
          var m :| 0 <= m < |tail| && tail[m] == r[k];
          assert ys[m + 1] == r[k];
        }
      }
      ConsNewestFirst(ys[0], r);
    }
  }

  /** A year no earlier than any of a newest-first list can head it. */
  lemma ConsNewestFirst(a: nat, r: seq<nat>)
    requires NewestFirst(r) && forall k :: 0 <= k < |r| ==> r[k] <= a
    ensures NewestFirst([a] + r)
  {
    var s := [a] + r;
    forall i, j | 0 <= i < j < |s| ensures s[i] >= s[j] {
      assert s[j] == r[j - 1];
      if i > 0 {
        assert s[i] == r[i - 1];
      }
    }
  }

  /** The sorted year list is newest first and holds exactly the column years. */
  lemma {:induction false} SortNewestFirstCorrect(ys: seq<nat>)
    ensures NewestFirst(SortNewestFirst(ys))
    ensures multiset(SortNewestFirst(ys)) == multiset(ys)
  {
    if ys != [] {
      SortNewestFirstCorrect(ys[1..]);
      InsertSorted(ys[0], SortNewestFirst(ys[1..]));
      assert ys == [ys[0]] + ys[1..];
    }
  }

  /** The head of a newest-first list is its latest year. */
  lemma HeadIsLatest(ys: seq<nat>, y: nat)
    requires NewestFirst(ys) && y in ys
    ensures y <= ys[0]
  {
  }

  /** `[y for y in ys if y <= base]`. */
  function AtMost(ys: seq<nat>, base: nat): (r: seq<nat>)
    ensures |r| <= |ys|
    ensures forall y :: y in r <==> y in ys && y <= base
  {
    if ys == [] then []
    else
      assert ys == [ys[0]] + ys[1..];
      (if ys[0] <= base then [ys[0]] else []) + AtMost(ys[1..], base)
  }

  /** On a newest-first list the kept years are a suffix, so their order is kept too. */
  lemma {:induction false} AtMostSuffix(ys: seq<nat>, base: nat)
    requires NewestFirst(ys)
    ensures AtMost(ys, base) == ys[|ys| - |AtMost(ys, base)|..]
  {
    if ys != [] {
      AtMostSuffix(ys[1..], base);
      if ys[0] <= base {
        assert forall y :: y in ys[1..] ==> y <= base;
        assert forall y :: y in ys[1..] ==> y in AtMost(ys[1..], base);
        AllKept(ys[1..], base);
      }
    }
  }

  /** When every year passes the filter, the filter keeps the whole list. */
  lemma {:induction false} AllKept(ys: seq<nat>, base: nat)
    requires forall y :: y in ys ==> y <= base
    ensures AtMost(ys, base) == ys
  {
    if ys != [] {
      assert ys == [ys[0]] + ys[1..];
      assert ys[0] in ys;
      assert forall y :: y in ys[1..] ==> y in ys;
      AllKept(ys[1..], base);
    }
  }

  /** When the base year is listed, it heads the filtered newest-first list. */
  lemma {:induction false} AtMostHead(ys: seq<nat>, base: nat)
    requires NewestFirst(ys) && base in ys
    ensures AtMost(ys, base) != [] && AtMost(ys, base)[0] == base
  {
    AtMostSuffix(ys, base);
    var r := AtMost(ys, base);
    assert base in r;
    var i :| 0 <= i < |r| && r[i] == base;
    assert r[0] >= r[i] && r[0] <= base by {
      assert r[0] == ys[|ys| - |r|] && r[i] == ys[|ys| - |r| + i];
      assert r[0] in r;
    }
  }

  /** `self.years[:n_years] if n_years else self.years`: a missing or zero count takes every year. */
  function YearsToUse(years: seq<nat>, n: Option<nat>): (r: seq<nat>)
    ensures n.None? || n.value == 0 ==> r == years
    ensures n.Some? && n.value > 0 ==> |r| == if n.value < |years| then n.value else |years|
    ensures r == years[..|r|]
  {
    if n.Some? && n.value > 0 then years[..if n.value < |years| then n.value else |years|] else years
  }

  // ---------------------------------------------------------------------
  // Specification of the queries
  // ---------------------------------------------------------------------

  /** No year appears twice: the entries are the items of a dict keyed by year. */
  predicate DistinctYears(es: seq<Entry>) {
    forall i, j :: 0 <= i < j < |es| ==> es[i].year != es[j].year
  }

  /**
   * `result[y] = v` on a dict kept as its items in insertion order: an
   * existing key keeps its place and takes the new value, a new key goes last.
   */
  function Put(es: seq<Entry>, y: nat, v: real): (r: seq<Entry>)
    ensures Entry(y, v) in r
  {
    if es == [] then [Entry(y, v)]
    else if es[0].year == y then [Entry(y, v)] + es[1..]
    else [es[0]] + Put(es[1..], y, v)
  }

  /** After `result[y] = v` the dict holds `v` at `y` and every other item it held. */
  lemma {:induction false} PutItems(es: seq<Entry>, y: nat, v: real)
    ensures forall e :: e in Put(es, y, v) ==> e in es || e == Entry(y, v)
    ensures forall e :: e in es && e.year != y ==> e in Put(es, y, v)
  {
    if es != [] && es[0].year != y {
      PutItems(es[1..], y, v);
      assert es == [es[0]] + es[1..];
    }
  }

  /** A new key goes after every key already there. */
  lemma {:induction false} PutNew(es: seq<Entry>, y: nat, v: real)
    requires forall e :: e in es ==> e.year != y
    ensures Put(es, y, v) == es + [Entry(y, v)]
  {
    if es != [] {
      assert es[0] in es;
      assert forall e :: e in es[1..] ==> e in es;
      PutNew(es[1..], y, v);
      assert es == [es[0]] + es[1..];
    }
  }

  /** An existing key keeps its place: the keys and their order do not change. */
  lemma {:induction false} PutExisting(es: seq<Entry>, y: nat, v: real)
    requires exists e :: e in es && e.year == y
    ensures |Put(es, y, v)| == |es|
    ensures forall k :: 0 <= k < |es| ==> Put(es, y, v)[k].year == es[k].year
  {
    if es[0].year != y {
      var e :| e in es && e.year == y;
      assert es == [es[0]] + es[1..];
      assert e in es[1..];
      PutExisting(es[1..], y, v);
    }
  }

  /** Assigning a key keeps the keys distinct. */
  lemma {:induction false} PutDistinct(es: seq<Entry>, y: nat, v: real)
    requires DistinctYears(es)
    ensures DistinctYears(Put(es, y, v))
  {
    if (exists e :: e in es && e.year == y) {
      PutExisting(es, y, v);
    } else {
      PutNew(es, y, v);
      var r := Put(es, y, v);
      forall i, j | 0 <= i < j < |r| ensures r[i].year != r[j].year {
        if j == |es| {
          assert es[i] in es;
        }
      }
    }
  }

  /** The present values of a row over `ys`, one per year, in the order the years first appear. */
  function Collect(data: Statement, field: string, ys: seq<nat>): seq<Entry> {
    if ys == [] then []
    else
      var y := ys[|ys| - 1];
      match Cell(data, field, Some(y))
      case Some(v) => Put(Collect(data, field, ys[..|ys| - 1]), y, v)
      case None => Collect(data, field, ys[..|ys| - 1])
  }

  /** Every collected entry is a present cell of a year in `ys`. */
  lemma {:induction false} CollectSound(data: Statement, field: string, ys: seq<nat>)
    ensures forall e :: e in Collect(data, field, ys) ==> e.year in ys && Cell(data, field, Some(e.year)) == Some(e.value)
  {
    if ys != [] {
      CollectSound(data, field, ys[..|ys| - 1]);
      var y := ys[|ys| - 1];
      if Cell(data, field, Some(y)).Some? {
        PutItems(Collect(data, field, ys[..|ys| - 1]), y, Cell(data, field, Some(y)).value);
      }
    }
  }

  /** Every present cell of a year in `ys` is collected. */
  lemma {:induction false} CollectComplete(data: Statement, field: string, ys: seq<nat>, y: nat)
    requires y in ys && Cell(data, field, Some(y)).Some?
    ensures Entry(y, Cell(data, field, Some(y)).value) in Collect(data, field, ys)
  {
    var last := ys[|ys| - 1];
    if y != last {
      assert ys == ys[..|ys| - 1] + [last];
      CollectComplete(data, field, ys[..|ys| - 1], y);
      if Cell(data, field, Some(last)).Some? {
        PutItems(Collect(data, field, ys[..|ys| - 1]), last, Cell(data, field, Some(last)).value);
      }
    }
  }

  /** A year listed several times, as two columns of one calendar year are, is collected once. */
  lemma {:induction false} CollectDistinct(data: Statement, field: string, ys: seq<nat>)
    ensures DistinctYears(Collect(data, field, ys))
  {
    if ys != [] {
      CollectDistinct(data, field, ys[..|ys| - 1]);
      var y := ys[|ys| - 1];
      if Cell(data, field, Some(y)).Some? {
        PutDistinct(Collect(data, field, ys[..|ys| - 1]), y, Cell(data, field, Some(y)).value);
      }
    }
  }

  /**
   * Columns of 2024, 2024 and 2023 give one entry per year, so the average
   * of their values is over two years, not three.
   */
  lemma RepeatedYearCollectedOnce(data: Statement, field: string, v: real, w: real)
    requires Cell(data, field, Some(2024)) == Some(v) && Cell(data, field, Some(2023)) == Some(w)
    ensures Collect(data, field, [2024, 2024, 2023]) == [Entry(2024, v), Entry(2023, w)]
  {
    assert [2024, 2024, 2023][..2] == [2024, 2024];
    assert [2024, 2024][..1] == [2024];
    assert [2024][..0] == [];
    assert Collect(data, field, []) == [];
    assert Collect(data, field, [2024]) == Put([], 2024, v) == [Entry(2024, v)];
    assert Collect(data, field, [2024, 2024]) == Put([Entry(2024, v)], 2024, v) == [Entry(2024, v)];
    assert Put([Entry(2024, v)], 2023, w) == [Entry(2024, v)] + Put([], 2023, w);
  }

  /** Collected entries keep the order of `ys`, so a newest-first year list gives newest-first entries. */
  lemma {:induction false} CollectNewestFirst(data: Statement, field: string, ys: seq<nat>)
    requires NewestFirst(ys)
    ensures forall i, j :: 0 <= i < j < |Collect(data, field, ys)| ==>
      Collect(data, field, ys)[i].year >= Collect(data, field, ys)[j].year
  {
    if ys != [] {
      var init := ys[..|ys| - 1];
      var y := ys[|ys| - 1];
      CollectNewestFirst(data, field, init);
      CollectSound(data, field, init);
      var c := Collect(data, field, init);
      forall i | 0 <= i < |c| ensures c[i].year >= y {
        assert c[i] in c;
        var k :| 0 <= k < |init| && init[k] == c[i].year;
      }
      if Cell(data, field, Some(y)).Some? {
        var v := Cell(data, field, Some(y)).value;
        if (exists e :: e in c && e.year == y) {
          PutExisting(c, y, v);
        } else {
          PutNew(c, y, v);
        }
      }
    }
  }

  /** The values of a query result, in order. */
  function Values(es: seq<Entry>): (r: seq<real>)
    ensures |r| == |es| && forall i :: 0 <= i < |es| ==> r[i] == es[i].value
  {
    seq(|es|, i requires 0 <= i < |es| => es[i].value)
  }

  /** The mean of a non-empty list, or `None` for an empty one. */
  function MeanOf(s: seq<real>): (r: Option<real>)
    ensures r.None? <==> s == []
  {
    if s == [] then None else Some(Mean(s))
  }

  /** The growth from `prev` to `cur` when both are non-zero; otherwise the pair is skipped. */
  function PairGrowth(cur: real, prev: real): (r: seq<real>)
    ensures |r| <= 1
    ensures prev != 0.0 && cur != 0.0 <==> |r| == 1
    ensures |r| == 1 ==> r[0] * Abs(prev) == cur - prev
  {
    if prev != 0.0 && cur != 0.0 then [(cur - prev) / Abs(prev)] else []
  }

  /** The year-over-year growths of a newest-first value list. */
  function GrowthRates(vals: seq<real>): seq<real> {
    if |vals| < 2 then [] else GrowthRates(vals[..|vals| - 1]) + PairGrowth(vals[|vals| - 2], vals[|vals| - 1])
  }

  /** `calculate_growth_rate` on the collected values: `None` below two values or without a usable pair. */
  function GrowthRateOf(es: seq<Entry>): (r: Option<real>)
    ensures |es| < 2 ==> r.None?
  {
    if |es| < 2 then None else MeanOf(GrowthRates(Values(es)))
  }

  /** The value of the last entry for `y`: what a dict built from `es` holds at key `y`. */
  function Find(es: seq<Entry>, y: nat): (r: Option<real>)
    ensures r.Some? ==> Entry(y, r.value) in es
    ensures r.None? ==> forall e :: e in es ==> e.year != y
  {
    if es == [] then None
    else if es[|es| - 1].year == y then Some(es[|es| - 1].value)
    else
      assert es == es[..|es| - 1] + [es[|es| - 1]];
      Find(es[..|es| - 1], y)
  }

  /** The ratio of a numerator entry to the denominator of the same year, when that is present and non-zero. */
  function RatioAt(n: Entry, dens: seq<Entry>): (r: seq<real>)
    ensures |r| <= 1
    ensures |r| == 1 <==> Find(dens, n.year).Some? && Find(dens, n.year).value != 0.0
    ensures |r| == 1 ==> r[0] * Find(dens, n.year).value == n.value
  {
    match Find(dens, n.year)
    case Some(d) => if d != 0.0 then [n.value / d] else []
    case None => []
  }

  /** The ratios over the years present in both series with a non-zero denominator. */
  function Ratios(nums: seq<Entry>, dens: seq<Entry>): seq<real> {
    if nums == [] then [] else Ratios(nums[..|nums| - 1], dens) + RatioAt(nums[|nums| - 1], dens)
  }

  // ---------------------------------------------------------------------
  // Properties of the queries
  // ---------------------------------------------------------------------

  /** Each usable pair contributes one growth rate, so there are at most `|vals| - 1`. */
  lemma {:induction false} GrowthRatesCount(vals: seq<real>)
    ensures |vals| >= 2 ==> |GrowthRates(vals)| <= |vals| - 1
    ensures (forall i :: 0 <= i < |vals| ==> vals[i] != 0.0) && |vals| >= 2 ==> |GrowthRates(vals)| == |vals| - 1
  {
    if |vals| > 2 {
      GrowthRatesCount(vals[..|vals| - 1]);
    }
  }

  /**
   * A series that grew by the same rate `g` every year averages to exactly
   * `g`: the query is the arithmetic mean of the year-over-year growths.
   */
  lemma {:induction false} ConstantGrowthRates(vals: seq<real>, g: real)
    requires g > -1.0
    requires forall i :: 0 <= i < |vals| ==> vals[i] > 0.0
    requires forall i :: 0 <= i < |vals| - 1 ==> vals[i] == vals[i + 1] * (1.0 + g)
    ensures forall k :: 0 <= k < |GrowthRates(vals)| ==> GrowthRates(vals)[k] == g
  {
    if |vals| >= 2 {
      var init := vals[..|vals| - 1];
      ConstantGrowthRates(init, g);
      var cur, prev := vals[|vals| - 2], vals[|vals| - 1];
      assert cur == prev * (1.0 + g);
      assert cur - prev == prev * g;
      DivideBack(prev * g, prev, g);
      assert PairGrowth(cur, prev) == [g];
    }
  }

  lemma DivideBack(x: real, d: real, q: real)
    requires d > 0.0 && x == d * q
    ensures x / d == q
  {}

  lemma ConstantGrowthMean(es: seq<Entry>, g: real)
    requires |es| >= 2 && g > -1.0
    requires forall i :: 0 <= i < |es| ==> es[i].value > 0.0
    requires forall i :: 0 <= i < |es| - 1 ==> es[i].value == es[i + 1].value * (1.0 + g)
    ensures GrowthRateOf(es) == Some(g)
  {
    var vals := Values(es);
    ConstantGrowthRates(vals, g);
    GrowthRatesCount(vals);
    MeanBounds(GrowthRates(vals), g, g);
  }

  /**
   * The growth query is not a compound annual rate: 100 → 100 → 150 averages
   * 0% and 50% to 25%, while compounding 25% twice overshoots 1.5.
   */
  lemma GrowthIsArithmeticMean()
    ensures GrowthRateOf([Entry(2025, 150.0), Entry(2024, 100.0), Entry(2023, 100.0)]) == Some(0.25)
    ensures 1.25 * 1.25 != 150.0 / 100.0
  {
    var es := [Entry(2025, 150.0), Entry(2024, 100.0), Entry(2023, 100.0)];
    var vals := Values(es);
    assert vals[..2][..1] == [150.0];
    assert GrowthRates(vals[..2]) == [0.5];
    assert GrowthRates(vals) == [0.5] + PairGrowth(100.0, 100.0);
    assert GrowthRates(vals) == [0.5, 0.0];
    SumTwo(0.5, 0.0);
  }

  lemma SumTwo(a: real, b: real)
    ensures Sum([a, b]) == a + b
  {
    assert [a][..0] == [];
    assert Sum([a]) == a;
    assert [a, b][..1] == [a];
  }

  lemma SumThree(a: real, b: real, c: real)
    ensures Sum([a, b, c]) == a + b + c
  {
    assert [a, b, c][..2] == [a, b];
    SumTwo(a, b);
  }

  /** Each ratio comes from a numerator year that has a non-zero denominator. */
  lemma {:induction false} RatiosCount(nums: seq<Entry>, dens: seq<Entry>)
    ensures |Ratios(nums, dens)| <= |nums|
    ensures (forall i :: 0 <= i < |nums| ==> Find(dens, nums[i].year).Some? && Find(dens, nums[i].year).value != 0.0)
      ==> |Ratios(nums, dens)| == |nums|
  {
    if nums != [] {
      RatiosCount(nums[..|nums| - 1], dens);
    }
  }

  /** When every numerator is `c` times its year's non-zero denominator, every ratio is `c`. */
  lemma {:induction false} ProportionalRatios(nums: seq<Entry>, dens: seq<Entry>, c: real)
    requires forall i :: 0 <= i < |nums| ==>
      Find(dens, nums[i].year).Some? && Find(dens, nums[i].year).value != 0.0
      && nums[i].value == c * Find(dens, nums[i].year).value
    ensures forall k :: 0 <= k < |Ratios(nums, dens)| ==> Ratios(nums, dens)[k] == c
  {
    if nums != [] {
      ProportionalRatios(nums[..|nums| - 1], dens, c);
      var n := nums[|nums| - 1];
      var d := Find(dens, n.year).value;
      assert n.value / d == c;
    }
  }

  /** The averaged ratio of two proportional series is the proportion itself. */
  lemma ProportionalRatioMean(nums: seq<Entry>, dens: seq<Entry>, c: real)
    requires nums != []
    requires forall i :: 0 <= i < |nums| ==>
      Find(dens, nums[i].year).Some? && Find(dens, nums[i].year).value != 0.0
      && nums[i].value == c * Find(dens, nums[i].year).value
    ensures MeanOf(Ratios(nums, dens)) == Some(c)
  {
    ProportionalRatios(nums, dens, c);
    RatiosCount(nums, dens);
    MeanBounds(Ratios(nums, dens), c, c);
  }

  /** Without any common year the ratio queries have nothing to average. */
  lemma {:induction false} NoCommonYear(nums: seq<Entry>, dens: seq<Entry>)
    requires forall i :: 0 <= i < |nums| ==> Find(dens, nums[i].year).None?
    ensures MeanOf(Ratios(nums, dens)) == None
  {
    if nums != [] {
      NoCommonYear(nums[..|nums| - 1], dens);
    }
  }

  /** The test fixture's revenue of 120, 110 and 100 averages to 110. */
  lemma AverageOfFixture()
    ensures MeanOf(Values([Entry(2025, 120.0), Entry(2024, 110.0), Entry(2023, 100.0)])) == Some(110.0)
  {
    assert Values([Entry(2025, 120.0), Entry(2024, 110.0), Entry(2023, 100.0)]) == [120.0, 110.0, 100.0];
    SumThree(120.0, 110.0, 100.0);
  }

  // ---------------------------------------------------------------------
  // The loops of the queries, on values
  // ---------------------------------------------------------------------

  /** The loop of `calculate_growth_rate` over adjacent newest-first pairs. */
  method GrowthRatesLoop(vals: seq<real>) returns (rates: seq<real>)
    ensures rates == GrowthRates(vals)
  {
    rates := [];
    if |vals| < 2 {
      return;
    }
    for i := 0 to |vals| - 1
      invariant rates == GrowthRates(vals[..i + 1])
    {
      assert vals[..i + 2][..i + 1] == vals[..i + 1];
      rates := rates + PairGrowth(vals[i], vals[i + 1]);
    }
    assert vals[..|vals|] == vals;
  }

  /** The loop shared by `calculate_ratio_average` and `calculate_cross_statement_ratio`. */
  method RatioLoop(nums: seq<Entry>, dens: seq<Entry>) returns (ratios: seq<real>)
    ensures ratios == Ratios(nums, dens)
  {
    ratios := [];
    for i := 0 to |nums|
      invariant ratios == Ratios(nums[..i], dens)
    {
      assert nums[..i + 1][..i] == nums[..i];
      ratios := ratios + RatioAt(nums[i], dens);
    }
    assert nums[..|nums|] == nums;
  }

  // ---------------------------------------------------------------------
  // The loader
  // ---------------------------------------------------------------------

  class Loader {
    /** The statements as `load_all` read them. */
    const statements: Statements
    /** Every year of the income-statement columns, newest first. */
    var allYears: seq<nat>
    /** The years in use: all of them, or those up to the base year. */
    var years: seq<nat>
    var latestYear: Option<nat>

    /** The years in use are a newest-first suffix of all years and the latest year is their head. */
    ghost predicate Valid()
      reads this
    {
      NewestFirst(allYears)
      && |years| <= |allYears| && years == allYears[|allYears| - |years|..]
      && latestYear == (if years == [] then None else Some(years[0]))
    }

    /** A loader after a successful `load_all` on statements whose income columns carry `columnYears`. */
    constructor(statements: Statements, columnYears: seq<nat>)
      ensures this.statements == statements
      ensures allYears == SortNewestFirst(columnYears) && years == allYears
      ensures Valid()
    {
      this.statements := statements;
      new;
      ExtractYears(columnYears);
    }

    /** `_extract_years`: the column years newest first; the latest year is the first of them. */
    method ExtractYears(columnYears: seq<nat>)
      modifies this
      ensures allYears == SortNewestFirst(columnYears) && years == allYears
      ensures latestYear == (if allYears == [] then None else Some(allYears[0]))
      ensures Valid()
    {
      SortNewestFirstCorrect(columnYears);
      allYears := SortNewestFirst(columnYears);
      years := allYears;
      latestYear := if years == [] then None else Some(years[0]);
    }

    /** `set_base_year`: an unknown year raises `ValueError`; otherwise only the years up to it stay. */
    method SetBaseYear(base: nat) returns (err: Option<Error>)
      requires Valid()
      modifies this
      ensures Valid()
      ensures allYears == old(allYears)
      ensures err.Some? <==> base !in allYears
      ensures err.Some? ==> err.value.ValueError? && years == old(years) && latestYear == old(latestYear)
      ensures err.None? ==> years == AtMost(allYears, base) && latestYear == Some(base)
    {
      if base !in allYears {
        return Some(ValueError("Base year not available"));
      }
      AtMostSuffix(allYears, base);
      AtMostHead(allYears, base);
      years := AtMost(allYears, base);
      latestYear := Some(base);
      err := None;
    }

    /** `get_value`: the cell of a statement, at `year` or else at the latest year. */
    function GetValue(statement: string, field: string, year: Option<nat>): (r: Option<real>)
      reads this
      ensures statement != "income" && statement != "balance" && statement != "cash" ==> r.None?
      ensures year.None? && latestYear.None? ==> r.None?
      ensures r.Some? ==> Cell(Select(statements, statement), field, if year.Some? then year else latestYear) == r
    {
      Cell(Select(statements, statement), field, if year.Some? then year else latestYear)
    }

    /** What `get_historical_values` returns: the present values over the first `n` years in use. */
    function HistoryOf(statement: string, field: string, n: Option<nat>): seq<Entry>
      reads this
    {
      Collect(Select(statements, statement), field, YearsToUse(years, n))
    }

    /**
     * `get_historical_values`: the dict of the years in use whose cell is
     * present, each year once, in the order the years first appear.
     */
    method GetHistoricalValues(statement: string, field: string, n: Option<nat>) returns (values: seq<Entry>)
      ensures values == HistoryOf(statement, field, n)
      ensures DistinctYears(values)
    {
      var ys := YearsToUse(years, n);
      var data := Select(statements, statement);
      values := [];
      for i := 0 to |ys|
        invariant values == Collect(data, field, ys[..i])
      {
        assert ys[..i + 1][..i] == ys[..i];
        var v := GetValue(statement, field, Some(ys[i]));
        if v.Some? {
          values := Put(values, ys[i], v.value);
        }
      }
      assert ys[..|ys|] == ys;
      CollectDistinct(data, field, ys);
    }

    /** `calculate_growth_rate`: the mean year-over-year growth over `n + 1` years. */
    method CalculateGrowthRate(statement: string, field: string, n: nat) returns (r: Option<real>)
      ensures r == GrowthRateOf(HistoryOf(statement, field, Some(n + 1)))
    {
      var values := GetHistoricalValues(statement, field, Some(n + 1));
      if |values| < 2 {
        return None;
      }
      var rates := GrowthRatesLoop(Values(values));
      r := if rates == [] then None else Some(Sum(rates) / |rates| as real);
    }

    /** `calculate_average`: the mean of the values present over the first `n` years. */
    method CalculateAverage(statement: string, field: string, n: nat) returns (r: Option<real>)
      ensures r == MeanOf(Values(HistoryOf(statement, field, Some(n))))
    {
      var values := GetHistoricalValues(statement, field, Some(n));
      r := if values == [] then None else Some(Sum(Values(values)) / |values| as real);
    }

    /** `calculate_ratio_average`: the mean of `num / den` within one statement. */
    method CalculateRatioAverage(statement: string, numField: string, denField: string, n: nat) returns (r: Option<real>)
      ensures r == MeanOf(Ratios(HistoryOf(statement, numField, Some(n)), HistoryOf(statement, denField, Some(n))))
    {
      var nums := GetHistoricalValues(statement, numField, Some(n));
      var dens := GetHistoricalValues(statement, denField, Some(n));
      var ratios := RatioLoop(nums, dens);
      r := if ratios == [] then None else Some(Sum(ratios) / |ratios| as real);
    }

    /** `calculate_cross_statement_ratio`: the mean of `num / den` across two statements. */
    method CalculateCrossStatementRatio(numStatement: string, numField: string,
                                        denStatement: string, denField: string, n: nat) returns (r: Option<real>)
      ensures r == MeanOf(Ratios(HistoryOf(numStatement, numField, Some(n)), HistoryOf(denStatement, denField, Some(n))))
    {
      var nums := GetHistoricalValues(numStatement, numField, Some(n));
      var dens := GetHistoricalValues(denStatement, denField, Some(n));
      var ratios := RatioLoop(nums, dens);
      r := if ratios == [] then None else Some(Sum(ratios) / |ratios| as real);
    }
  }
}
