/**
 * The table of modelled companies and the fiscal year-end date strings
 * derived from it (company_forecast/config.py).
 */
module CompanyConfigTable {
  import opened Wrappers

  /** One entry of the company table. `dataFolder` is the folder name under the data directory. */
  datatype Company = Company(
    name: string,
    ticker: string,
    dataFolder: string,
    fiscalYearEnd: string,
    baseYears: seq<int>,
    forecastYears: seq<int>)

  const ProcterGamble := Company("Procter & Gamble", "PG", "ProcterGamble", "06-30",
                                 [2022, 2023, 2024], [2025])
  const Costco := Company("Costco Wholesale", "COST", "Costco", "08-31",
                          [2022, 2023, 2024], [2025])
  const CocaCola := Company("The Coca-Cola Company", "KO", "CocaCola", "12-31",
                            [2021, 2022, 2023], [2024])
  const McDonalds := Company("McDonald's Corporation", "MCD", "McDonalds", "12-31",
                             [2021, 2022, 2023], [2024])

  /** The four configured companies, keyed as in the source. */
  const Companies: map<string, Company> := map[
    "ProcterGamble" := ProcterGamble,
    "Costco" := Costco,
    "CocaCola" := CocaCola,
    "McDonalds" := McDonalds
  ]

  /** Every configured company has at least one base year. */
  predicate WellFormed(c: Company) {
    |c.baseYears| > 0
  }

  lemma TableWellFormed()
    ensures forall k :: k in Companies ==> WellFormed(Companies[k])
  {
  }

  /** `get_company_config`: the entry, or a `ValueError` naming the unknown key. */
  function GetCompanyConfig(key: string): (r: Result<Company>)
    ensures r.Ok? <==> key in Companies
    ensures r.Ok? ==> r.value == Companies[key]
    ensures r.Err? ==> r.error.ValueError?
  {
    if key in Companies then Ok(Companies[key])
    else Err(ValueError("Company " + key + " not found"))
  }

  // ----- decimal rendering of years (Python's f"{year}") -----

  function DigitChar(d: nat): (c: char)
    requires d < 10
    ensures '0' <= c <= '9'
  {
    "0123456789"[d]
  }

  function DigitValue(c: char): (d: nat)
    ensures d < 10
  {
    if '0' <= c <= '9' then (c as int - '0' as int) else 0
  }

  /** The decimal digits of `n`, most significant first, without leading zeros. */
  function Digits(n: nat): (s: seq<char>)
    ensures |s| >= 1
    ensures forall i :: 0 <= i < |s| ==> '0' <= s[i] <= '9'
  {
    if n < 10 then [DigitChar(n)] else Digits(n / 10) + [DigitChar(n % 10)]
  }

  /** Reads a string of decimal digits back as a number. */
  function ParseDigits(s: seq<char>): nat {
    if |s| == 0 then 0 else ParseDigits(s[..|s| - 1]) * 10 + DigitValue(s[|s| - 1])
  }

  lemma DigitRoundTrip(d: nat)
    requires d < 10
    ensures DigitValue(DigitChar(d)) == d
  {
  }

  /** Parsing the rendered digits gives the number back. */
  lemma {:induction false} DigitsRoundTrip(n: nat)
    ensures ParseDigits(Digits(n)) == n
  {
    if n < 10 {
      DigitRoundTrip(n);
      assert Digits(n)[..0] == [];
    } else {
      var s := Digits(n / 10) + [DigitChar(n % 10)];
      assert s[..|s| - 1] == Digits(n / 10);
      DigitsRoundTrip(n / 10);
      DigitRoundTrip(n % 10);
    }
  }

  /** A year rendered as Python's `str` renders an integer. */
  function YearString(y: int): (s: seq<char>)
    ensures |s| >= 1
  {
    if y < 0 then "-" + Digits(-y) else Digits(y)
  }

  /** A year in 1000..9999 renders as exactly four digits. */
  lemma {:induction false} FourDigitYear(y: int)
    requires 1000 <= y <= 9999
    ensures |YearString(y)| == 4
    ensures ParseDigits(YearString(y)) == y
  {
    assert y / 10 >= 100 && y / 100 >= 10 && y / 1000 < 10;
    assert |Digits(y / 1000)| == 1;
    assert |Digits(y / 100)| == 2;
    assert |Digits(y / 10)| == 3;
    DigitsRoundTrip(y);
  }

  /** The year-end date label `"<year>-<fiscal_year_end>"`. */
  function DateLabel(y: int, fiscalEnd: string): string {
    YearString(y) + "-" + fiscalEnd
  }

  /**
   * The four-character prefix of a date label of a four-digit year is
   * that year, which is what the statement loader keys its columns by.
   */
  lemma DateLabelPrefix(y: int, fiscalEnd: string)
    requires 1000 <= y <= 9999
    ensures |DateLabel(y, fiscalEnd)| >= 4
    ensures ParseDigits(DateLabel(y, fiscalEnd)[..4]) == y
  {
    FourDigitYear(y);
    assert DateLabel(y, fiscalEnd)[..4] == YearString(y);
  }

  // ----- get_year_end_dates -----

  function MinOf(s: seq<int>): (m: int)
    requires |s| > 0
    ensures m in s && forall i :: 0 <= i < |s| ==> m <= s[i]
  {
    if |s| == 1 then s[0] else
      var rest := MinOf(s[1..]);
      assert forall i :: 1 <= i < |s| ==> s[i] == s[1..][i - 1];
      if s[0] <= rest then s[0] else rest
  }

  function MaxOf(s: seq<int>): (m: int)
    requires |s| > 0
    ensures m in s && forall i :: 0 <= i < |s| ==> s[i] <= m
  {
    if |s| == 1 then s[0] else
      var rest := MaxOf(s[1..]);
      assert forall i :: 1 <= i < |s| ==> s[i] == s[1..][i - 1];
      if s[0] >= rest then s[0] else rest
  }

  /** All years a company configures, base years first. */
  function AllYears(c: Company): seq<int> {
    c.baseYears + c.forecastYears
  }

  /** The date mapping covers two years before the first configured year up to the last. */
  predicate InDateRange(c: Company, y: int)
    requires WellFormed(c)
  {
    MinOf(AllYears(c)) - 2 <= y <= MaxOf(AllYears(c))
  }

  /** Every configured year, and the two years before the first, are in the range. */
  lemma DateRangeCovers(c: Company)
    requires WellFormed(c)
    ensures forall y :: y in AllYears(c) ==> InDateRange(c, y) && InDateRange(c, y - 2)
    ensures !InDateRange(c, MinOf(AllYears(c)) - 3) && !InDateRange(c, MaxOf(AllYears(c)) + 1)
  {
  }

  /**
   * `get_year_end_dates`: a `KeyError` for an unknown company (the table is
   * indexed directly); otherwise one label per year of the date range.
   */
  method GetYearEndDates(key: string) returns (r: Result<map<int, string>>)
    ensures key !in Companies <==> r.Err?
    ensures r.Err? ==> r.error == KeyError(key)
    ensures r.Ok? ==>
      var c := Companies[key];
      WellFormed(c) &&
      (forall y :: y in r.value <==> InDateRange(c, y)) &&
      forall y :: y in r.value ==> r.value[y] == DateLabel(y, c.fiscalYearEnd)
  {
    if key !in Companies {
      return Err(KeyError(key));
    }
    TableWellFormed();
    var dates := DateLabels(Companies[key]);
    return Ok(dates);
  }

  /** The loop of `get_year_end_dates`: one label per year of the company's date range. */
  method DateLabels(c: Company) returns (dates: map<int, string>)
    requires WellFormed(c)
    ensures forall y :: y in dates <==> InDateRange(c, y)
    ensures forall y :: y in dates ==> dates[y] == DateLabel(y, c.fiscalYearEnd)
  {
    var all := c.baseYears + c.forecastYears;
    var lo := MinOf(all) - 2;
    var hi := MaxOf(all);
    dates := map[];
    var year := lo;
    while year < hi + 1
      invariant lo <= year <= hi + 1
      invariant forall y :: y in dates <==> lo <= y < year
      invariant forall y :: y in dates ==> dates[y] == DateLabel(y, c.fiscalYearEnd)
      decreases hi + 1 - year
    {
      dates := dates[year := YearString(year) + "-" + c.fiscalYearEnd];
      year := year + 1;
    }
  }

  /** Procter & Gamble's dates run from 2020 to 2025. */
  lemma ProcterGambleRange()
    ensures WellFormed(ProcterGamble)
    ensures forall y :: InDateRange(ProcterGamble, y) <==> 2020 <= y <= 2025
  {
    var all := AllYears(ProcterGamble);
    assert all == [2022, 2023, 2024, 2025];
    assert MinOf(all) == 2022 by {
      assert MinOf(all[3..]) == 2025;
      assert MinOf(all[2..]) == 2024;
      assert MinOf(all[1..]) == 2023;
    }
    assert MaxOf(all) == 2025 by {
      assert MaxOf(all[3..]) == 2025;
      assert MaxOf(all[2..]) == 2025;
      assert MaxOf(all[1..]) == 2025;
    }
  }

  /**
   * Every Procter & Gamble label of a four-digit year, and so every year of
   * its date range, is that year followed by June 30.
   */
  lemma ProcterGambleLabel(y: int)
    requires 1000 <= y <= 9999
    ensures |DateLabel(y, ProcterGamble.fiscalYearEnd)| == 10
    ensures ParseDigits(DateLabel(y, ProcterGamble.fiscalYearEnd)[..4]) == y
    ensures DateLabel(y, ProcterGamble.fiscalYearEnd)[4..] == "-06-30"
  {
    FourDigitYear(y);
    DateLabelPrefix(y, ProcterGamble.fiscalYearEnd);
    var date := DateLabel(y, ProcterGamble.fiscalYearEnd);
    assert date == YearString(y) + "-06-30";
    assert date[4..] == "-06-30";
  }
}
