# Financial-statement forecasting engine, modelled in Dafny

This project models the forecasting core of the q1-financial-health-analysis
repository. Starting from Year-0 balances and a set of driver ratios, each
engine rolls the statements forward one year at a time: an income statement,
a cash budget, a debt schedule and a balance sheet. Every amount is a Dafny
`real`, so each accounting identity is an exact equality.

The model covers four engines and the code that feeds them.

- **Company engine** (`company_forecast/`). The modules are
  `IntermediateCalculations`, `IncomeStatement`, `CashBudget`, `DebtSchedule`
  and `BalanceSheet`, each a class that appends one year per call.
  `CompanyEngine.Forecaster` drives them. It runs the Year-0 handoff from the
  cash budget to the debt schedule, then for each year the income statement,
  the cash budget, the short- and long-term debt updates and the balance
  sheet. It proves four things:
  - the balance check stays at its Year-0 value whenever no `max(0, ·)` clamp binds;
  - cash never falls below the minimum-cash floor;
  - debt is never negative;
  - interest reads only the previous year's debt.
- **Driver derivation.** `DataLoader` holds the historical statements and
  the averaged queries. `InputCalculator` chooses each driver: an
  override, else a clipped historical value, else a Year-0 ratio, else a
  default. The company table and the year-end date labels come from
  `config.py`.
- **Plug forecasters** (`company_forecast/forecaster.py`,
  `pg_forecast/forecaster.py`). These flat-array variants borrow on a cash
  shortfall or pay down from excess cash, then move cash by the remaining
  imbalance. One class models both, parameterised by how the yearly stock
  repurchase is sized. Their input mappers (`company_forecast/input_mapper.py`,
  `pg_forecast/input_mapper.py`) are modelled as functions from the statement
  figures of the base years.
- **Textbook model** (`forecast_model/intermediate.py`,
  `forecast_model/cash_budget.py`, `example_forecast_model/`). This covers:
  - Fisher-equation nominal rates;
  - vintage depreciation and FIFO inventory;
  - credit and advance timing;
  - a cash budget that sizes its loans and equity to the minimum cash;
  - a debt schedule with one payment table per loan vintage;
  - the forecaster's run order.

  The run is modelled with the corrected debt-schedule opening and the
  corrected balance-sheet column of the Findings below, in place of the
  versions the forecaster calls as written. That corrected run keeps three
  invariants. The debt schedule repays exactly what the cash budget paid.
  Cash stays at or above the minimum. Every year's balance-sheet check
  equals Year 0's. The run as written does not keep them (see Findings).

`wrappers.dfy` holds the shared `Option` and `Result` types and the
sequence helpers. `real_arith.dfy` holds the few facts about products of
reals that the proofs use.

## Model

| member | source | states |
|---|---|---|
| CompanyIntermediate.Intermediate.constructor | company_forecast/intermediate.py:21-78 | every year-indexed series starts with its Year-0 input, the change lists start empty and the rate lists have one entry per forecast year |
| CompanyIntermediate.Intermediate.CalculateAll | company_forecast/intermediate.py:80-91 | after the six steps every series has n + 1 entries, every change list n, and all the recurrences below hold together |
| CompanyIntermediate.RevenueForecast | company_forecast/intermediate.py:93-99 | revenue has n + 1 entries, keeps Year 0 and grows each year by that year's rate |
| CompanyIntermediate.Intermediate.CalculateRevenueForecast | company_forecast/intermediate.py:93-99 | only the revenue list changes, and it compounds from the Year-0 figure |
| CompanyIntermediate.RevenueClosedForm | company_forecast/intermediate.py:95-99 | revenue of year k is Year-0 revenue times the product of the first k growth factors |
| CompanyIntermediate.GrowthFactorPositive | company_forecast/intermediate.py:95-99 | growth rates above -100% keep the compounded factor positive |
| CompanyIntermediate.RevenuePositive | company_forecast/intermediate.py:93-99 | positive Year-0 revenue and growth above -100% give positive revenue in every year |
| CompanyIntermediate.CogsForecast | company_forecast/intermediate.py:101-112 | COGS of year k is revenue of year k times the COGS share, and gross profit is what revenue leaves |
| CompanyIntermediate.Intermediate.CalculateCogs | company_forecast/intermediate.py:101-112 | only COGS and gross profit change, with the Year-0 entries kept and the share relations above |
| CompanyIntermediate.SgaForecast | company_forecast/intermediate.py:114-121 | SG&A of year k is revenue of year k times the SG&A share |
| CompanyIntermediate.Intermediate.CalculateSgaExpenses | company_forecast/intermediate.py:114-121 | only SG&A changes, Year 0 kept |
| CompanyIntermediate.FixedAssetsForecast | company_forecast/intermediate.py:123-153 | capex is a share of revenue, gross PPE adds capex, depreciation is the opening net PPE times the rate, both roll-forwards hold, goodwill and intangibles repeat Year 0 |
| CompanyIntermediate.Intermediate.CalculateCapexAndPpeAndDepreciation | company_forecast/intermediate.py:123-153 | only the seven fixed-asset lists change and they satisfy the roll-forward above |
| CompanyIntermediate.PpeIdentity | company_forecast/intermediate.py:134-149 | net PPE minus gross PPE plus cumulated depreciation keeps its Year-0 value in every year |
| CompanyIntermediate.NetPpeNonNegative | company_forecast/intermediate.py:138-149 | with a rate in [0, 1], non-negative capex and non-negative Year-0 net PPE, net PPE never turns negative |
| CompanyIntermediate.WorkingCapitalForecast | company_forecast/intermediate.py:155-191 | AR is a share of revenue, inventory and AP shares of COGS, and each change list holds the year-on-year differences with ΔWC = ΔAR + ΔInv − ΔAP |
| CompanyIntermediate.Intermediate.CalculateWorkingCapital | company_forecast/intermediate.py:155-191 | only the working-capital lists change and they satisfy the relations above |
| CompanyIntermediate.WorkingCapitalTelescopes | company_forecast/intermediate.py:178-191 | the first k changes in working capital add up to the movement of AR + inventory − AP from Year 0 to year k |
| CompanyIntermediate.MinCashForecast | company_forecast/intermediate.py:193-200 | the floor is Year-0 cash, then revenue of year k times the minimum-cash share |
| CompanyIntermediate.Intermediate.CalculateMinCash | company_forecast/intermediate.py:193-200 | only the floor list changes, with the relation above |
| CompanyIntermediate.Intermediate.CalculateOperatingIncome | company_forecast/intermediate.py:202-224 | EBIT is gross profit − SG&A − depreciation of that year; it is appended when the list is short and written over entry `year` otherwise, nothing else changes |
| CompanyInputs.ByYear | company_forecast/intermediate.py:65-68 | the per-year rate list when the inputs give one, otherwise n copies of the scalar rate |
| CompanyIncomeStatement.IncomeStatement.constructor | company_forecast/income_statement.py:26-59 | every list starts with its Year-0 input, interest income with 0 |
| CompanyIncomeStatement.InterestIncome | company_forecast/income_statement.py:109-119 | no return in Year 1 or when the cash budget has no entry for last year; otherwise last year's investment times the rate when that investment is positive and 0 when it is not; non-negative for a non-negative rate |
| CompanyIncomeStatement.NonNegativeShare | company_forecast/income_statement.py:125-137 | `max(0, amount × rate)`: never negative, at least the product, 0 for a loss at a non-negative rate and the product for a gain |
| CompanyIncomeStatement.IncomeStatement.CalculateYear | company_forecast/income_statement.py:61-146 | exactly one entry appended to every list: the intermediate figures of year k, EBIT, interest on the debt balances at k−1, interest income, EBT, the tax and dividend floors, net income and the lagging retained-earnings roll |
| CompanyIncomeStatement.CalculateYearEstablishes | company_forecast/income_statement.py:74-146 | appending those entries to a statement of Year 0 .. k−1 gives one of Year 0 .. k whose year k satisfies every relation of the year and whose earlier entries are untouched |
| CompanyIncomeStatement.FloorsOfYear | company_forecast/income_statement.py:125-137 | tax and dividends are never negative, and a year with EBT ≤ 0 at non-negative rates pays neither and keeps net income equal to EBT |
| CompanyIncomeStatement.InterestExpenseReadsPriorYear | company_forecast/income_statement.py:96-107 | no circularity: two debt schedules that agree at index k−1 give the same interest expense for year k |
| CompanyDebtSchedule.DebtSchedule.constructor | company_forecast/debt_schedule.py:22-48 | loan terms default to 1 and 10 years; both beginning lists hold one 0, the ending and vintage lists are empty |
| CompanyDebtSchedule.LegacyPayment | company_forecast/debt_schedule.py:62-72 | 0 without a positive Year-0 balance; otherwise the balance spread over 70% of the term (positive, and times that remaining term gives the balance back), or the whole balance when the term is not positive |
| CompanyDebtSchedule.DebtSchedule.InitializeYear0 | company_forecast/debt_schedule.py:50-72 | the Year-0 closing balances are appended and one legacy vintage is seeded: the LT balance and its payment when positive, 0 and 0 otherwise |
| CompanyDebtSchedule.EndingBalance | company_forecast/debt_schedule.py:74-117 | `max(0, beginning − payment + loan)`: never negative, at least the unfloored amount, equal to it when that is non-negative |
| CompanyDebtSchedule.EndingBalanceNoNewLoan | company_forecast/debt_schedule.py:112-117 | with no new loan and a non-negative payment a non-negative balance cannot grow |
| CompanyDebtSchedule.DebtSchedule.UpdateStDebt | company_forecast/debt_schedule.py:74-89 | one beginning entry (last year's close) and one floored ending entry are appended, nothing else changes |
| CompanyDebtSchedule.VintagePayment | company_forecast/debt_schedule.py:103-110 | 0 without a new loan; otherwise the loan over the term (times the term gives the loan back, positive for a positive term) |
| CompanyDebtSchedule.DebtSchedule.UpdateLtDebt | company_forecast/debt_schedule.py:91-117 | one beginning entry, one vintage and one floored ending entry are appended; the principal charged is the total over the vintages before `year`, so this year's loan is not charged |
| CompanyDebtSchedule.GetTotalLtPrincipalPayment | company_forecast/debt_schedule.py:119-140 | the loop's running total equals the sum of the first payment of each vintage with origination index below `year` that exists |
| CompanyDebtSchedule.TotalLtPrincipalAppend | company_forecast/debt_schedule.py:133-138 | a vintage appended at index `year` or later does not change the total due in `year` |
| CompanyDebtSchedule.TotalLtPrincipalPrefix | company_forecast/debt_schedule.py:133-138 | two tables that agree on the vintages before `year` charge the same total |
| CompanyDebtSchedule.TotalLtPrincipalNoCutOff | company_forecast/debt_schedule.py:133-138 | no cut-off at the loan term: past the last vintage every year charges the full sum of all vintages |
| CompanyDebtSchedule.TotalLtPrincipalNonNegative | company_forecast/debt_schedule.py:131-140 | non-negative vintage payments give a non-negative total |
| CompanyDebtSchedule.InterestOnPrior | company_forecast/debt_schedule.py:142-170 | interest of a year is the previous closing balance times the rate when that balance is positive, 0 otherwise and in Year 0; non-negative at a non-negative rate |
| CompanyDebtSchedule.InterestReadsPriorYearOnly | company_forecast/debt_schedule.py:142-170 | two ending-balance lists that agree at `year − 1` give the same interest for `year` |
| CompanyDebtSchedule.YearUpdateSpans | company_forecast/debt_schedule.py:83-117 | one ST and one LT update take a schedule of Year 0 .. k−1 to one of Year 0 .. k, every list one entry longer |
| CompanyDebtSchedule.AppendKeepsBalancesNonNegative | company_forecast/debt_schedule.py:74-117 | appending floored balances keeps every computed closing balance non-negative |
| CompanyDebtSchedule.LtStepWithoutLoan | company_forecast/debt_schedule.py:91-117 | an LT update with no new loan keeps every closing balance equal to the previous close less that year's charge, floored, and keeps the vintage payments non-negative |
| CompanyDebtSchedule.LtBalancesNonIncreasing | company_forecast/debt_schedule.py:112-117 | with no new loans, non-negative vintage payments and a non-negative Year-0 balance, the LT closing balances never grow from one year to the next |
| CompanyCashBudget.CashBudget.constructor | company_forecast/cash_budget.py:24-69 | every list of the budget starts empty |
| CompanyCashBudget.CashBudget.CalculateYear0 | company_forecast/cash_budget.py:71-118 | the Year-0 entry goes in front of every list: the Year-0 operating flow, capex and owner flows, zero loans, payments, investment and year NCB, and ending cash equal to Year-0 cash; the historical ST and LT debt and zero equity are handed on |
| CompanyCashBudget.NewFinancing | company_forecast/cash_budget.py:215-227 | the three sources add up to the need; 30% of it is the ST loan; the rest is split by the debt share, and a share in [0, 1] keeps every part non-negative |
| CompanyCashBudget.CashYearRow | company_forecast/cash_budget.py:139-267 | one year of the budget: the five module flows as the source defines them (only principal in financing, interest kept for reference), the need floored at 0 and financed as above, the half-excess sweep only when nothing was raised, year NCB the sum of the modules and ending cash last year's plus it |
| CompanyCashBudget.CashFloor | company_forecast/cash_budget.py:206-267 | the minimum-cash floor: a year with cash before financing below the floor ends exactly at the floor and invests nothing; any other year ends halfway between that cash and the floor and invests the other half; either way ending cash ≥ floor and the investment ≥ 0 |
| CompanyCashBudget.CashBudget.CalculateYear | company_forecast/cash_budget.py:120-267 | exactly one entry is appended to every list: the row above for last year's cash and investment, this year's net income, depreciation, ΔWC and capex, last year's dividends (Year-0 dividends in Year 1), 30% of the Year-0 repurchase, last year's debt balances and the LT principal due |
| CompanyCashBudget.AppendRowAt | company_forecast/cash_budget.py:151-267 | appending a row to a budget of Year 0 .. k−1 gives one of Year 0 .. k whose year k is that row and whose earlier years are unchanged |
| CompanyBalanceSheet.Year0BalanceRow | company_forecast/balance_sheet.py:27-92 | the Year-0 statement: every "other" line is a non-negative residual, retained earnings plus other equity is total equity, minority interest defaults to 0, total L&E is liabilities + equity + minority and the check is assets − L&E |
| CompanyBalanceSheet.BalanceSheet.constructor | company_forecast/balance_sheet.py:27-92 | every list holds exactly the Year-0 statement above |
| CompanyBalanceSheet.Year0Lines | company_forecast/balance_sheet.py:39-92 | the lines on each side add up to at least the reported total, and exactly to it when no residual clamp binds, in which case the Year-0 check is the asset lines minus the claim lines |
| CompanyBalanceSheet.BalanceYearRow | company_forecast/balance_sheet.py:114-231 | a forecast year's statement: the copied figures, the "other" lines carried, retained earnings = last year's + net income + ST return − dividends, other equity moved by new equity less repurchases, the subtotals and totals, and the check as asset lines minus claim lines |
| CompanyBalanceSheet.BalanceSheet.CalculateYear | company_forecast/balance_sheet.py:94-231 | exactly one statement appended: cash, ST investment, dividends, return, equity and repurchases of `year` from the cash budget, AR, inventory, AP, PPE, goodwill and intangibles from the intermediate lists, debt from the schedule, net income from the income statement, the "other" lines and minority interest from Year 0 |
| CompanyBalanceSheet.AppendBalanceRowAt | company_forecast/balance_sheet.py:114-231 | appending a statement to one of Year 0 .. k−1 gives one of Year 0 .. k whose year k is that statement and whose earlier years are unchanged |
| CompanyEngine.Forecaster.constructor | example_forecast_model/forecaster.py:45-61 | the five components are fresh and built from the same inputs, each in its initial state (seeded series, Year-0 income statement, empty budget, empty schedule with the default loan terms, Year-0 balance sheet) |
| CompanyEngine.Forecaster.Run | example_forecast_model/forecaster.py:45-118 | after the driver series, the Year-0 handoff from the budget to the schedule and years 1 .. n, the statements are `Linked` at n: every year keeps the check moving only by the LT floor, rolls ST debt over in full, keeps debt non-negative and ends at or above the cash floor |
| CompanyEngine.Forecaster.ForecastYears | example_forecast_model/forecaster.py:89-118 | the loop over years 1 .. n keeps the statements linked, ending linked at n |
| CompanyEngine.Forecaster.ForecastYear | example_forecast_model/forecaster.py:91-118 | one year in the order income statement, cash budget, ST update with this year's ST loan and principal, LT update with this year's LT loan, balance sheet: the new books are exactly `Step` of the old |
| CompanyEngine.Forecaster.IncomeAndCash | example_forecast_model/forecaster.py:91-102 | the income statement and then the cash budget reading it become those of `Step`; the schedule and balance sheet are untouched |
| CompanyEngine.Forecaster.DebtAndBalance | example_forecast_model/forecaster.py:104-118 | the ST and LT updates with the budget's loans and then the balance sheet complete `Step` |
| CompanyEngine.Year0Linked | company_forecast/cash_budget.py:71-118 | after the Year-0 handoff (budget's Year 0, schedule initialised with the balances it returns, balance sheet of Year 0) the statements are linked at Year 0 |
| CompanyEngine.YearAlgebra | company_forecast/balance_sheet.py:94-231 | the accounting identity of one year: with the budget's modules, the PPE and working-capital roll-forwards and the copied lines, assets and claims move by the same amount except for what the LT floor added; the ST return counted in both net income and the budget cancels |
| CompanyEngine.EngineYearAppend | company_forecast/balance_sheet.py:94-231 | appending one year to the budget, the schedule and the balance sheet keeps every earlier year's facts |
| CompanyEngine.StepShape | example_forecast_model/forecaster.py:91-118 | after year k every statement spans Year 0 .. k, year k of the budget is the row computed from year k−1, and earlier years and balances are untouched |
| CompanyEngine.StepDebt | company_forecast/cash_budget.py:184-198 | the budget of year k repays the whole ST balance of k−1 and the LT total due, ST debt closes at the new ST loan and LT debt at the floored schedule balance |
| CompanyEngine.StepBalance | company_forecast/balance_sheet.py:114-231 | the balance sheet of year k copies cash, ST investment and both debts of year k and carries its own year k−1 |
| CompanyEngine.RowKeepsFloor | company_forecast/cash_budget.py:206-267 | a budget whose year-k row meets the floor conditions satisfies `YearCash` at k |
| CompanyEngine.StepYearCash | company_forecast/cash_budget.py:206-267 | year k ends at or above the minimum-cash floor, exactly on it (and investing nothing) when financing was raised, halfway above it otherwise |
| CompanyEngine.StepYearDebt | company_forecast/debt_schedule.py:74-117 | in year k the ST balance is rolled over in full, the LT balance follows its schedule, and both are non-negative |
| CompanyEngine.StepYearBalances | company_forecast/balance_sheet.py:224-231 | the check of year k is the difference of its lines and moves from year k−1 only by what the LT floor added |
| CompanyEngine.StepEngineYear | example_forecast_model/forecaster.py:91-118 | what year k of the engine establishes about year k: the three facts above and the copied lines |
| CompanyEngine.StepKeeps | example_forecast_model/forecaster.py:91-118 | year k keeps the Year-0 statement and what earlier years established |
| CompanyEngine.YearStep | example_forecast_model/forecaster.py:91-118 | one forecast year takes books linked at k−1 to books linked at k |
| CompanyEngine.CheckDrift | company_forecast/balance_sheet.py:44-231 | the check of year k is the Year-0 check plus what the Year-0 residual clamps left out, less what the LT floor added in years 1 .. k |
| CompanyEngine.Closure | company_forecast/balance_sheet.py:94-231 | closure: when no Year-0 residual clamp and no LT floor binds, every year's balance check equals the Year-0 check |
| CompanyEngine.FloorIdleAddsNothing | company_forecast/debt_schedule.py:116 | years whose LT floor does not bind add nothing to the drift |
| CompanyDataLoader.Loader.constructor | company_forecast/data_loader.py:43-67 | a loader after a successful load: the statements given, every column year sorted newest first, all of them in use |
| CompanyDataLoader.Loader.ExtractYears | company_forecast/data_loader.py:75-81 | the column years newest first, all in use, the latest year their head or none for no columns |
| CompanyDataLoader.SortNewestFirstCorrect | company_forecast/data_loader.py:79 | the sorted list is newest first and a permutation of the column years |
| CompanyDataLoader.InsertSorted | company_forecast/data_loader.py:79 | inserting a year into a newest-first list keeps it newest first and adds exactly that year |
| CompanyDataLoader.HeadIsLatest | company_forecast/data_loader.py:81 | the head of a newest-first list is no earlier than any year in it |
| CompanyDataLoader.Loader.SetBaseYear | company_forecast/data_loader.py:83-97 | a year not among all the years raises `ValueError` and changes nothing; otherwise the years in use are those up to it, in order, and it becomes the latest year |
| CompanyDataLoader.AtMost | company_forecast/data_loader.py:95 | the filter keeps exactly the listed years up to the base |
| CompanyDataLoader.AtMostSuffix | company_forecast/data_loader.py:95 | on a newest-first list the kept years are a suffix of it, so their order is kept |
| CompanyDataLoader.AllKept | company_forecast/data_loader.py:95 | when every year is up to the base the filter keeps the whole list |
| CompanyDataLoader.AtMostHead | company_forecast/data_loader.py:91-96 | a listed base year heads the filtered newest-first list, so the latest year is the first year in use |
| CompanyDataLoader.Select | company_forecast/data_loader.py:126-130 | "income", "balance" and "cash" select their statement; any other name selects an empty one |
| CompanyDataLoader.Cell | company_forecast/data_loader.py:132-138 | a value is present exactly when the year and the row label exist and the cell is not NaN, and then it is that cell |
| CompanyDataLoader.Loader.GetValue | company_forecast/data_loader.py:111-138 | an unknown statement or no year at all gives `None`; a value found is the cell at the given year or, without one, at the latest year |
| CompanyDataLoader.YearsToUse | company_forecast/data_loader.py:153 | a missing or zero count takes every year; otherwise the first `n` years (all of them when fewer), always a prefix |
| CompanyDataLoader.Loader.GetHistoricalValues | company_forecast/data_loader.py:140-160 | the loop builds exactly the dict of the present cells of the years in use, each year once, in the order the years first appear |
| CompanyDataLoader.Put | company_forecast/data_loader.py:157-158 | `result[year] = value` leaves the new item in the dict |
| CompanyDataLoader.PutItems | company_forecast/data_loader.py:157-158 | after the assignment the dict holds every item of another year it held, and each item it holds was there before or is the new one |
| CompanyDataLoader.PutNew | company_forecast/data_loader.py:157-158 | a year not yet in the dict goes last |
| CompanyDataLoader.PutExisting | company_forecast/data_loader.py:157-158 | a year already in the dict keeps its place: the years and their order are unchanged |
| CompanyDataLoader.PutDistinct | company_forecast/data_loader.py:157-158 | the assignment keeps the dict's years distinct |
| CompanyDataLoader.CollectDistinct | company_forecast/data_loader.py:152-160 | however often a year is listed, it is collected once |
| CompanyDataLoader.RepeatedYearCollectedOnce | company_forecast/data_loader.py:152-160 | columns of 2024, 2024 and 2023 give one 2024 entry and one 2023 entry, so averages run over two years |
| CompanyDataLoader.CollectSound | company_forecast/data_loader.py:155-158 | every collected entry is a present cell of a year in use |
| CompanyDataLoader.CollectComplete | company_forecast/data_loader.py:155-158 | every present cell of a year in use is collected |
| CompanyDataLoader.CollectNewestFirst | company_forecast/data_loader.py:155-180 | collected entries keep the newest-first order of the years, which is the order the growth query sorts into |
| CompanyDataLoader.Values | company_forecast/data_loader.py:184-185 | the values of a query result, one per entry, in order |
| CompanyDataLoader.MeanOf | company_forecast/data_loader.py:191-228 | a mean exists exactly for a non-empty list |
| CompanyDataLoader.PairGrowth | company_forecast/data_loader.py:184-189 | a pair contributes one growth exactly when both values are non-zero, and that growth times the absolute previous value is the change |
| CompanyDataLoader.GrowthRatesLoop | company_forecast/data_loader.py:181-189 | the loop over adjacent newest-first pairs collects the growth of each usable pair in order |
| CompanyDataLoader.GrowthRateOf | company_forecast/data_loader.py:174-193 | fewer than two values give `None` |
| CompanyDataLoader.Loader.CalculateGrowthRate | company_forecast/data_loader.py:162-193 | the mean of the usable year-over-year growths between the distinct years among the first n + 1 columns, `None` below two values or with no usable pair |
| CompanyDataLoader.GrowthRatesCount | company_forecast/data_loader.py:183-189 | at most one growth per adjacent pair, and exactly one per pair when no value is zero |
| CompanyDataLoader.ConstantGrowthRates | company_forecast/data_loader.py:183-189 | a positive series that grew by the same rate every year yields that rate for every pair |
| CompanyDataLoader.ConstantGrowthMean | company_forecast/data_loader.py:174-193 | such a series averages to exactly that rate |
| CompanyDataLoader.GrowthIsArithmeticMean | company_forecast/data_loader.py:191-192 | 100 → 100 → 150 averages to 25%, while compounding 25% twice does not give 1.5: the query is an arithmetic mean, not a compound rate |
| CompanyDataLoader.Loader.CalculateAverage | company_forecast/data_loader.py:213-228 | the mean of the values present over the distinct years among the first n columns, or `None` when none is |
| CompanyDataLoader.AverageOfFixture | company_forecast/data_loader.py:225-228 | revenue of 120, 110 and 100 averages to 110 |
| CompanyDataLoader.Find | company_forecast/data_loader.py:249 | the value found for a year is an entry of that year, and none is found when no entry has the year |
| CompanyDataLoader.RatioAt | company_forecast/data_loader.py:248-250 | a numerator contributes one ratio exactly when its year has a non-zero denominator, and that ratio times the denominator is the numerator |
| CompanyDataLoader.RatioLoop | company_forecast/data_loader.py:247-278 | the loop collects those ratios in the numerators' order |
| CompanyDataLoader.Loader.CalculateRatioAverage | company_forecast/data_loader.py:230-254 | the mean of `num / den` over the distinct numerator years with a non-zero denominator, `None` without one |
| CompanyDataLoader.Loader.CalculateCrossStatementRatio | company_forecast/data_loader.py:256-282 | the same mean with numerator and denominator from two statements |
| CompanyDataLoader.RatiosCount | company_forecast/data_loader.py:248-250 | at most one ratio per numerator, exactly one each when every year has a non-zero denominator |
| CompanyDataLoader.ProportionalRatios | company_forecast/data_loader.py:248-250 | when every numerator is c times its non-zero denominator every ratio is c |
| CompanyDataLoader.ProportionalRatioMean | company_forecast/data_loader.py:230-254 | the averaged ratio of two proportional series is the proportion |
| CompanyDataLoader.NoCommonYear | company_forecast/data_loader.py:252-254 | without a common year the ratio queries give `None` |
| CompanyInputCalculator.Bound | company_forecast/input_calculator.py:192 | the clip never goes below the lower bound, stays within ordered bounds, and leaves a value inside them unchanged |
| CompanyInputCalculator.RevenueGrowthBase | company_forecast/input_calculator.py:169-198 | the override when configured; otherwise the default without history, and a historical growth within the configured bounds |
| CompanyInputCalculator.GrowthSchedule | company_forecast/input_calculator.py:200-205 | one growth per forecast year |
| CompanyInputCalculator.GrowthScheduleDecays | company_forecast/input_calculator.py:200-205 | for a non-negative base and at most 21 years every yearly growth lies between zero and the base and never rises from one year to the next |
| CompanyInputCalculator.GrowthScheduleLoop | company_forecast/input_calculator.py:200-205 | the loop appends `base * (1 - 0.05 i)` for each year, giving the growth schedule |
| CompanyInputCalculator.CostShare | company_forecast/input_calculator.py:215-239 | the override, else the historical average, else the Year-0 share of revenue when revenue is positive and the cost non-zero, else the default |
| CompanyInputCalculator.PositiveRatio | company_forecast/input_calculator.py:255-309 | a positive historical average, else the Year-0 ratio when both parts are positive, else the default; a positive default makes the ratio positive |
| CompanyInputCalculator.TaxRate | company_forecast/input_calculator.py:311-345 | the override when configured; otherwise a rate within the configured bounds or the default, and a historical rate strictly between 0 and 1 inside the bounds is kept as it is |
| CompanyInputCalculator.DepreciationYears | company_forecast/input_calculator.py:363-371 | the default life when depreciation is not positive, else a life within the configured bounds |
| CompanyInputCalculator.DepreciationRate | company_forecast/input_calculator.py:373-377 | depreciation over positive net PPE, else one over the useful life; a zero life with no positive net PPE raises `ZeroDivisionError` and nothing else does |
| CompanyInputCalculator.CostOfDebt | company_forecast/input_calculator.py:390-399 | the override, else a cost within [3%, 15%], and 5% without positive debt and interest |
| CompanyInputCalculator.ReturnStInvestment | company_forecast/input_calculator.py:401-413 | at least 1%; at most 8% when implied from interest income and cash, else one point below the cost of debt |
| CompanyInputCalculator.PayoutRatio | company_forecast/input_calculator.py:433-464 | the override when configured; otherwise a ratio in [0, 1] or the default, and always in [0, 1] when history exists |
| CompanyInputCalculator.CapexShare | company_forecast/input_calculator.py:471-487 | the override, else a non-negative share that is the absolute historical share when there is one |
| CompanyInputCalculator.CapexToDepreciation | company_forecast/input_calculator.py:489-495 | the ratio of capex to depreciation is always positive |
| CompanyInputCalculator.Year0Of | company_forecast/input_calculator.py:120-167 | EBIT falls back to operating income, cash to the narrower cash row, total debt to short plus long debt, and the capex, dividend, repurchase and accumulated-depreciation figures are non-negative |
| CompanyInputCalculator.EngineInputs | company_forecast/input_calculator.py:77-118 | a complete dictionary gives the engine one growth, cost of debt and short-term return per forecast year, and the loan lives it was given |
| CompanyInputCalculator.InputCalculator.constructor | company_forecast/input_calculator.py:47-75 | the calculator holds its loader, settings, assumptions and company configuration, with no inputs yet |
| CompanyInputCalculator.InputCalculator.RatioAverage | company_forecast/input_calculator.py:218 | the averaged same-statement ratio over the input years |
| CompanyInputCalculator.InputCalculator.CrossRatio | company_forecast/input_calculator.py:255-256 | the averaged cross-statement ratio over the input years |
| CompanyInputCalculator.InputCalculator.CalculateAllInputs | company_forecast/input_calculator.py:77-118 | every step in order; on success the returned dictionary is the calculator's inputs and is complete for the forecast length, and the only failure is a `ZeroDivisionError` |
| CompanyInputCalculator.InputCalculator.CalculateYear0Values | company_forecast/input_calculator.py:120-167 | only the Year-0 figures are written, as read from the latest statements |
| CompanyInputCalculator.InputCalculator.CalculateGrowthAssumptions | company_forecast/input_calculator.py:169-208 | only the growth base, the growth schedule from it and a constant inflation list are written, the base drawing on the history of the latest four years |
| CompanyInputCalculator.InputCalculator.CalculateCostStructure | company_forecast/input_calculator.py:210-246 | only the COGS and SG&A shares, the gross margin as one minus the COGS share, and the operating margin are written |
| CompanyInputCalculator.InputCalculator.CalculateWorkingCapitalRatios | company_forecast/input_calculator.py:248-309 | only the receivable, inventory, payable and minimum-cash ratios and the matching day counts over 365 days are written |
| CompanyInputCalculator.InputCalculator.CalculateTaxRate | company_forecast/input_calculator.py:311-345 | only the tax rate is written |
| CompanyInputCalculator.InputCalculator.CalculateDepreciationInputs | company_forecast/input_calculator.py:347-377 | the useful life is always written; the rate is written exactly when it can be computed, and otherwise the division error is reported with nothing else changed |
| CompanyInputCalculator.InputCalculator.CalculateInterestRates | company_forecast/input_calculator.py:379-418 | only the cost of debt, the short-term return and their constant per-year lists are written, the return read from interest income or its non-operating row |
| CompanyInputCalculator.InputCalculator.CalculateFinancingParams | company_forecast/input_calculator.py:420-431 | the financing share and loan lives come from the company configuration when there is one, else from the assumptions |
| CompanyInputCalculator.InputCalculator.CalculatePayoutRatio | company_forecast/input_calculator.py:433-464 | only the payout ratio is written |
| CompanyInputCalculator.InputCalculator.CalculateCapexInputs | company_forecast/input_calculator.py:466-495 | only the capex share and the capex-to-depreciation ratio are written |
| CompanyInputMapper.Samples | company_forecast/input_mapper.py:139-183 | at most one sample per base year |
| CompanyInputMapper.SamplesExact | company_forecast/input_mapper.py:139-183 | a value is sampled exactly when some base year qualifies for the driver and contributes that value |
| CompanyInputMapper.NoSamples | company_forecast/input_mapper.py:185-193 | the sample list is empty exactly when no base year qualifies |
| CompanyInputMapper.DriverDefault | company_forecast/input_mapper.py:185-247 | with no qualifying base year a driver takes its fixed default |
| CompanyInputMapper.DriverConstant | company_forecast/input_mapper.py:185-193 | when every qualifying year shows the same ratio, the averaged driver is that ratio |
| CompanyInputMapper.DriverBounds | company_forecast/input_mapper.py:185-193 | an average of samples and a default that all lie in an interval lies in it |
| CompanyInputMapper.MinCashPositive | company_forecast/input_mapper.py:223-229 | the minimum cash balance is positive: a mean of positive balances or 5000 |
| CompanyInputMapper.DebtStructureIsShare | company_forecast/input_mapper.py:240-247 | the long-term share of debt lies in [0, 1] when each year's long-term debt is non-negative and at most the total |
| CompanyInputMapper.AverageDriver | company_forecast/input_mapper.py:139-247 | the loop over the base years computes the averaged driver |
| CompanyInputMapper.CalculateFinancialRatios | company_forecast/input_mapper.py:121-195 | each of the nine ratios is its averaged driver |
| CompanyInputMapper.PairGrowths | company_forecast/input_mapper.py:94-113 | fewer growths than base years: one at most per adjacent pair |
| CompanyInputMapper.SteadyGrowth | company_forecast/input_mapper.py:94-117 | a line growing by the same rate from a positive start averages to that rate |
| CompanyInputMapper.PairGrowthsSteady | company_forecast/input_mapper.py:94-113 | such a line yields that rate for every adjacent pair |
| CompanyInputMapper.GrowthDefault | company_forecast/input_mapper.py:84-117 | with no pair whose earlier value is positive the growth is 3% |
| CompanyInputMapper.NoPairGrowths | company_forecast/input_mapper.py:94-113 | then no growth is collected |
| CompanyInputMapper.CalculateGrowthRates | company_forecast/input_mapper.py:76-119 | the revenue, COGS and operating-expense growths are the averaged pair growths, 3% by default |
| CompanyInputMapper.Repeat | company_forecast/input_mapper.py:207-209 | a list of the given length holding the value at every position |
| CompanyInputMapper.GetForecastInputs | company_forecast/input_mapper.py:197-247 | the inputs as a function of the base-year figures: one entry per forecast year, the last base year's sheet as Year 0, equal short- and long-term rates |
| CompanyInputMapper.MappedInputsFit | company_forecast/input_mapper.py:197-247 | the mapped inputs fit the plug forecaster: each growth list covers the horizon with one rate, the rates coincide, the minimum cash is positive and Year 0 repeats the mapped sheet |
| CompanyInputMapper.DayCounts | company_forecast/input_mapper.py:212-214 | the day counts are the averaged ratios scaled by 365 |
| CompanyConfigTable.TableWellFormed | company_forecast/config.py:12-45 | every configured company has at least one base year |
| CompanyConfigTable.GetCompanyConfig | company_forecast/config.py:62-66 | a known key gives its table entry; any other key gives a `ValueError`, and only then |
| CompanyConfigTable.Digits | company_forecast/config.py:57 | the decimal rendering of a year has at least one character, all of them digits |
| CompanyConfigTable.DigitRoundTrip | company_forecast/config.py:57 | reading back a rendered digit gives the digit |
| CompanyConfigTable.DigitsRoundTrip | company_forecast/config.py:57 | reading back the rendered digits of a number gives the number (also company_forecast/data_loader.py:79) |
| CompanyConfigTable.YearString | company_forecast/config.py:57 | a rendered year is never empty |
| CompanyConfigTable.FourDigitYear | company_forecast/config.py:57 | a year from 1000 to 9999 renders as four digits that read back as the year |
| CompanyConfigTable.DateLabelPrefix | company_forecast/config.py:57 | the first four characters of a four-digit year's date label read back as that year, which is how the loader names its columns (also company_forecast/data_loader.py:79) |
| CompanyConfigTable.MinOf | company_forecast/config.py:56 | the minimum is one of the years and no year is below it |
| CompanyConfigTable.MaxOf | company_forecast/config.py:56 | the maximum is one of the years and no year is above it |
| CompanyConfigTable.DateRangeCovers | company_forecast/config.py:54-56 | every configured year and the two years before the first are in the date range, and nothing outside that range is |
| CompanyConfigTable.GetYearEndDates | company_forecast/config.py:48-59 | an unknown company raises `KeyError`, and only then; otherwise exactly the years of the range are keys, each mapped to its `year-MM-DD` label |
| CompanyConfigTable.DateLabels | company_forecast/config.py:53-57 | the loop maps exactly the years of the range, each to its label |
| CompanyConfigTable.ProcterGambleRange | company_forecast/config.py:13-56 | Procter & Gamble's dates run from 2020 to 2025 |
| CompanyConfigTable.ProcterGambleLabel | company_forecast/config.py:17-57 | the label of every four-digit year, so of every year in Procter & Gamble's date range, is ten characters: that year followed by `-06-30` |
| PlugForecaster.Seed | company_forecast/forecaster.py:28-93 | a zero list of the horizon's length with the Year-0 value at index 0 |
| PlugForecaster.OpeningBooksFit | company_forecast/forecaster.py:25-144 | the initial books hold one entry per year and Year 0 holds the mapped sheet and flows, capex and dividends as outflows |
| PlugForecaster.Forecaster.constructor | company_forecast/forecaster.py:17-86 | the forecaster holds its inputs and lists sized to the horizon, with Year 0 initialised |
| PlugForecaster.Min | company_forecast/forecaster.py:327-331 | the minimum is one of the two and no larger than either |
| PlugForecaster.PlanDebt | company_forecast/forecaster.py:298-342 | zero equity in the paydown branch raises `ZeroDivisionError`, and nothing else does; cash moves by exactly the change in debt; a shortfall is borrowed by the target split and lands cash on the minimum; a comfortable balance changes nothing; a paydown stays within the excess and 30% of the debt and never drives a debt below zero |
| PlugForecaster.ApplyDebtStrategy | company_forecast/forecaster.py:303-342 | the branch-by-branch mutation of debt and cash gives the planned debt and cash |
| PlugForecaster.CashPlug | company_forecast/forecaster.py:370-383 | after the plug the assets are within 1 of liabilities plus equity; cash either stays or closes the gap exactly, and it stays when the gap is already within 1 |
| PlugForecaster.Forecaster.ForecastIncomeStatement | company_forecast/forecaster.py:146-170 | only the seven income lines of the year change, each as grown from last year, with depreciation on last year's gross PPE |
| PlugForecaster.Forecaster.ForecastCashBudgetAndWorkingCapital | company_forecast/forecaster.py:174-202 | only the working-capital and PPE lines of the year change, the day counts scaling revenue and COGS |
| PlugForecaster.Forecaster.ForecastDebtAndFinancing | company_forecast/forecaster.py:207-257 | only the year's interest, tax, net income, payout and equity lines change; the repurchase is a share of net income (a fixed amount in the P&G forecaster) and the minority amount is carried (also pg_forecast/forecaster.py:234) |
| PlugForecaster.Forecaster.ForecastBalanceSheet | company_forecast/forecaster.py:259-383 | the year's long-lived assets, debt, liabilities and cash follow the debt plan and the plug, or the step stops with `ZeroDivisionError` |
| PlugForecaster.Forecaster.CalculateCashFlows | company_forecast/forecaster.py:412-439 | only the year's four cash-flow lines change: operating flow from net income, depreciation and working capital, investing as minus capex, financing as the debt change less payouts |
| PlugForecaster.Forecaster.ForecastYear | company_forecast/forecaster.py:455-472 | the five steps change only that year, and either all of their facts hold for it or it stops with `ZeroDivisionError` |
| PlugForecaster.Forecaster.RunForecast | company_forecast/forecaster.py:441-492 | Year 0 is left unchanged; without an error every forecast year satisfies all five steps' facts; when the detailed statements are printed, a forecast year with zero revenue, equity, total assets or current liabilities makes the run raise `ZeroDivisionError` |
| PlugForecaster.Forecaster.PrintDetailedStatements | company_forecast/forecaster.py:494-589 | raises `ZeroDivisionError` exactly when some forecast year has zero revenue, stockholders' equity, total assets or current liabilities, the unguarded divisors of the margins and ratios; changes nothing |
| PlugForecaster.PlugBalances | company_forecast/forecaster.py:370-383 | each forecast year's total assets are within 1 of liabilities plus equity (also company_forecast/forecaster.py:475) |
| PlugForecaster.CashFlowsReconcile | company_forecast/forecaster.py:412-439 | the cash-flow statement explains the change in cash, unless the plug moved cash, in which case the sheet balances exactly (also company_forecast/forecaster.py:275-295) |
| PlugForecaster.TotalDebtIsSum | company_forecast/forecaster.py:305-335 | from Year 2 on, last year's total debt is the sum of its two parts |
| PlugForecaster.RetainedEarningsRoll | company_forecast/forecaster.py:236 | retained earnings after k years are the opening balance plus the years' net income less their dividends |
| PlugForecaster.FixedRepurchaseAccumulates | pg_forecast/forecaster.py:234-237 | under a fixed repurchase, treasury stock grows by that amount (5000 by default) every year |
| PlugForecaster.CarriedAmounts | company_forecast/forecaster.py:256-351 | the minority amount and the liabilities other than debt and payables never move from Year 0 |
| PlugForecaster.TaxFloor | company_forecast/forecaster.py:224-227 | tax is never negative, and a pre-tax loss pays none and passes to net income whole |
| StatementFigures.InitialBalanceSheet | company_forecast/input_mapper.py:34-74 | the Year-0 sheet is the year's balance-sheet lines as read, except that accumulated depreciation becomes its non-negative absolute value (also pg_forecast/input_mapper.py:25-65) |
| StatementFigures.OpeningFlowsOf | company_forecast/input_mapper.py:253-269 | every Year-0 flow is present, revenue, COGS and net income as read, and capex and dividends as their absolute values (also pg_forecast/input_mapper.py:192-209) |
| StatementFigures.OpeningOutflowsSigned | company_forecast/input_mapper.py:267-269 | whatever sign the statements give capex and dividends, the forecasters' Year 0 stores them as outflows of the same size (also company_forecast/forecaster.py:142-144) |
| PgInputMapper.PairGrowth | pg_forecast/input_mapper.py:67-86 | a zero earlier value gives zero growth |
| PgInputMapper.PairGrowthRoundTrip | pg_forecast/input_mapper.py:74 | growing the earlier value by a defined rate gives back the later one |
| PgInputMapper.GuardedRatio | pg_forecast/input_mapper.py:88-132 | a zero denominator gives the default |
| PgInputMapper.GuardedRatioRoundTrip | pg_forecast/input_mapper.py:97 | a ratio with a non-zero denominator scales back to its numerator |
| PgInputMapper.PgFinancialRatios | pg_forecast/input_mapper.py:88-132 | each ratio taken from 2023 alone falls back to its own default (5%, 10%, 10%, 5%, 4%, 21%, 60%, 3%) for a zero denominator |
| PgInputMapper.PgForecastInputs | pg_forecast/input_mapper.py:134-211 | a two-year horizon with both years at the 2022-to-2023 growth, the 2023 sheet and flows, day counts of 365 times the 2023 receivable, inventory and payable ratios, depreciation, capex, tax, payout and both interest rates from the 2023 ratios, the mean of the two cash balances as minimum cash, the mean absolute repurchase as a fixed amount, and the two-year means of debt to equity and of long-term to total debt as the debt policy; a zero equity or total debt in either year raises `ZeroDivisionError`, and only that |
| PgInputMapper.PgInputsFit | pg_forecast/input_mapper.py:134-211 | mapped inputs fit the two-year forecaster, whose Year 0 holds 2023 revenue (also pg_forecast/forecaster.py:17-142) |
| PgInputMapper.PgPolicyAverages | pg_forecast/input_mapper.py:166-186 | minimum cash lies between the two year-end balances and the repurchase amount is not negative |
| PgInputMapper.PgSteadyGrowth | pg_forecast/input_mapper.py:72-74 | steady growth from 2022 to 2023 is recovered exactly as the forecast rate |
| TextbookIntermediate.FisherProperties | forecast_model/intermediate.py:105-156 | with no inflation the nominal rate is the real one, with no real change it is inflation, and for inflation other than -100% equal nominal rates mean equal real rates, and conversely |
| TextbookIntermediate.NominalIncreases | forecast_model/intermediate.py:105-121 | the four nominal series are the Fisher compounding of each real series with inflation, one per forecast year |
| TextbookIntermediate.SalesAndPricing | forecast_model/intermediate.py:123-142 | price and units compound from Year 0 by the nominal price rise and the volume rise, and revenue is units times price for each forecast year |
| TextbookIntermediate.MinCash | forecast_model/intermediate.py:144-149 | the Year-0 floor followed by the cash share of each year's revenue |
| TextbookIntermediate.InterestRates | forecast_model/intermediate.py:151-163 | the risk-free rate by Fisher, the short-term return and the cost of debt each that rate plus its premium |
| TextbookIntermediate.ColumnSumIsVintageSum | forecast_model/intermediate.py:180-181 | summing a year's column of the vintage matrix charges each earlier vintage its straight-line share once |
| TextbookIntermediate.VintageSumPrefix | forecast_model/intermediate.py:197 | a year's charge depends only on the vintages already invested |
| TextbookIntermediate.VintageRowsExtend | forecast_model/intermediate.py:200-203 | adding the next vintage's row keeps the matrix a vintage matrix |
| TextbookIntermediate.ChargeLaterYears | forecast_model/intermediate.py:174-203 | a vintage charges its amount to every later year and nothing to itself or earlier years |
| TextbookIntermediate.Depreciation | forecast_model/intermediate.py:165-211 | the investment, charge, cumulated and net schedules satisfy the fixed-asset recurrences, with the matrix filled row by row |
| TextbookIntermediate.InventoryUnits | forecast_model/intermediate.py:216-227 | closing units are a share of units sold, opening units last year's closing, and purchases balance the units |
| TextbookIntermediate.FifoValuation | forecast_model/intermediate.py:230-249 | unit cost compounds by the nominal purchase rise, opening stock is valued at last year's cost, purchases and closing stock at this year's, and COGS is what the stock account leaves |
| TextbookIntermediate.Expenses | forecast_model/intermediate.py:251-272 | commissions and advertising are shares of revenue, overhead and payroll compound nominally, and the total is their sum |
| TextbookIntermediate.Split | forecast_model/intermediate.py:277-296 | each amount splits into its credit and advance shares and the rest settled in the same year |
| TextbookIntermediate.Timing | forecast_model/intermediate.py:298-338 | each year's cash is its same-year part, last year's credit part and next year's advance, with the Year-0 advance first |
| TextbookIntermediate.RevenueGrowth | forecast_model/intermediate.py:131-142 | revenue grows each year by the nominal price rise compounded with the volume rise |
| TextbookIntermediate.NetFixedAssetsGrowWithVolume | forecast_model/intermediate.py:186-211 | net fixed assets grow with next year's volume, and in the last year stay level while investment only replaces depreciation |
| TextbookIntermediate.FixedAssetsAccount | forecast_model/intermediate.py:205-211 | cumulated depreciation is the sum of the charges and, with net fixed assets, equals everything invested |
| TextbookIntermediate.FifoCostOfSales | forecast_model/intermediate.py:226-249 | COGS charges the opening stock at last year's unit cost and every other unit sold at this year's, and units balance |
| TextbookIntermediate.SameYearShare | forecast_model/intermediate.py:277-296 | the same-year part is the share neither credited nor advanced, and the three parts add up to the amount |
| TextbookIntermediate.CollectionsAddUp | forecast_model/intermediate.py:298-338 | over the horizon the cash collected plus the Year-0 advance is every amount except the last year's credit part |
| TextbookIntermediate.CollectionsPrefix | forecast_model/intermediate.py:298-338 | the same account after any number of years, counting the advance received for the next year |
| TextbookIntermediate.CashTiming | forecast_model/intermediate.py:302-317 | a year's cash is its amount less the growth of credit outstanding plus the growth of advances held |
| TextbookIntermediate.InventoryRoll | forecast_model/intermediate.py:236-249 | each year's closing stock value is last year's plus purchases less COGS |
| TextbookIntermediate.SeedLists | forecast_model/intermediate.py:20-90 | the lists after construction: the Year-0 price and inventory value seeded, no units sold yet |
| TextbookIntermediate.Intermediate.constructor | forecast_model/intermediate.py:20-90 | the calculator holds its inputs and horizon and the seeded lists |
| TextbookIntermediate.Intermediate.CalculateAll | forecast_model/intermediate.py:92-103 | after the eight calculations in order every schedule satisfies its recurrence over the horizon |
| TextbookIntermediate.Intermediate.CalculateNominalIncreases | forecast_model/intermediate.py:105-121 | only the four nominal series are written, as Fisher series |
| TextbookIntermediate.Intermediate.CalculateSalesAndPricing | forecast_model/intermediate.py:123-142 | only price, units and revenue are written, Year-0 price kept and Year-0 units given |
| TextbookIntermediate.Intermediate.CalculateMinCash | forecast_model/intermediate.py:144-149 | only the minimum cash list is written, from the Year-0 floor |
| TextbookIntermediate.Intermediate.CalculateInterestRates | forecast_model/intermediate.py:151-163 | only the three rate lists are written |
| TextbookIntermediate.Intermediate.CalculateDepreciation | forecast_model/intermediate.py:165-211 | only the fixed-asset lists are written, satisfying their recurrences |
| TextbookIntermediate.Intermediate.CalculateInventoryAndPurchases | forecast_model/intermediate.py:213-249 | only the unit and FIFO value lists are written |
| TextbookIntermediate.Intermediate.CalculateExpenses | forecast_model/intermediate.py:251-272 | only the expense lists are written |
| TextbookIntermediate.Intermediate.CalculateCreditAndAdvances | forecast_model/intermediate.py:274-338 | only the split and cash-timing lists are written |
| TextbookCashBudget.Year0Of | forecast_model/cash_budget.py:17-57 | the Year-0 short-term loan is never negative and lifts the operating balance to the minimum cash, and the year's balance is the sum of its four modules |
| TextbookCashBudget.Year0Financing | forecast_model/cash_budget.py:42-57 | the long-term loan and equity cover exactly the need left after the short-term loan, split by the debt share; the year then ends at the minimum cash, and with no need both are zero and it ends at the balance reached |
| TextbookCashBudget.CashYearOf | forecast_model/cash_budget.py:148-280 | loans and short-term investment are never negative, no investment is made in a year that raised financing, the long-term loan is the debt share of the shortfall, and the cumulated balance rolls last year's forward by the sum of the five modules |
| TextbookCashBudget.StLoanCoversOperations | forecast_model/cash_budget.py:185-188 | the short-term loan lifts the balance before investment to the minimum cash when operations leave it short, and is zero otherwise |
| TextbookCashBudget.LtFinancingCoversShortfall | forecast_model/cash_budget.py:237-251 | with a positive debt share the long-term loan and the new equity fill exactly the remaining shortfall, the loan being the debt share of it |
| TextbookCashBudget.CashFloor | forecast_model/cash_budget.py:237-280 | with a positive debt share and a short-term investment that cannot lose more than itself, every year ends with at least the minimum cash, and exactly at it whenever a long-term loan was needed |
| TextbookCashBudget.InflowNonNegative | forecast_model/cash_budget.py:210-214 | what the short-term investment returns is never negative when it cannot lose more than itself |
| TextbookCashBudget.YearNcbIsFlows | forecast_model/cash_budget.py:160-280 | the year's net cash balance is every flow of the year: collections less operating payments, fixed-asset investment, new loans less debt service, new equity less payments to owners, and the investment redeemed with its return less the new one |
| TextbookCashBudget.SweepLeavesFloor | forecast_model/cash_budget.py:262-277 | short-term investment happens only in a year that raised no financing, and then leaves the minimum cash plus what last year's investment returned |
| TextbookCashBudget.EmptyLists | forecast_model/cash_budget.py:93-146 | a new budget holds no cumulated balance or investment and has not computed Year 0 |
| TextbookCashBudget.Year0Cumulated | forecast_model/cash_budget.py:57-70 | the cumulated balance of Year 0 is the minimum cash, which equals the Year-0 balance exactly when the balance reached before long-term financing was at most the minimum |
| TextbookCashBudget.Year0Starts | forecast_model/cash_budget.py:59-89 | Year 0 starts an aligned budget whose cumulated balance rolls, at the minimum cash |
| TextbookCashBudget.WithYearKeeps | forecast_model/cash_budget.py:276-280 | appending a year computed from the last cumulated balance keeps the roll, and the floor when that year meets it |
| TextbookCashBudget.CashBudget.constructor | forecast_model/cash_budget.py:93-146 | the budget holds its inputs and intermediate values and empty lists |
| TextbookCashBudget.CashBudget.CalculateYear0 | forecast_model/cash_budget.py:17-91 | Year 0 goes in front of the lists, and the loans and equity returned are those of the Year-0 budget |
| TextbookCashBudget.CashBudget.CalculateYear | forecast_model/cash_budget.py:148-280 | the year appended is the one computed from the drivers read where the source reads them, including the debt service of the schedule |
| TextbookDebtSchedule.SeedLists | example_forecast_model/debt_schedule.py:15-37 | a new schedule has no ending balances and no vintages |
| TextbookDebtSchedule.WithPayments | example_forecast_model/debt_schedule.py:97-103 | the instalment loop changes no vintage count |
| TextbookDebtSchedule.UpdateVintages | example_forecast_model/debt_schedule.py:91-103 | the year's loan opens a new vintage and the payment table grows by one row |
| TextbookDebtSchedule.Year0VintagesFixedAreVintages | example_forecast_model/debt_schedule.py:53-58 | the corrected Year-0 table is a vintage table for Year 0 |
| TextbookDebtSchedule.VintagesStep | example_forecast_model/debt_schedule.py:77-109 | one long-term update turns the vintage table of last year into that of this year |
| TextbookDebtSchedule.VintagesDue | example_forecast_model/debt_schedule.py:111-135 | in a vintage table every earlier vintage pays its straight-line instalment in the year, read before or after that year's update |
| TextbookDebtSchedule.FixedScheduleAgrees | example_forecast_model/debt_schedule.py:105-135 | with the corrected table, the principal reported before the update is the principal the update subtracts, and it is the instalments of the earlier vintages |
| TextbookDebtSchedule.DueFromPrefix | example_forecast_model/debt_schedule.py:126-133 | the principal due depends only on the vintages already opened |
| TextbookDebtSchedule.Year0VintageMismatch | example_forecast_model/debt_schedule.py:54-108 | as written, a zero Year-0 loan leaves slot 0 to the Year-1 loan: the budget reads no Year-1 principal but the update then subtracts 10 |
| TextbookDebtSchedule.LtInterestCharged | example_forecast_model/debt_schedule.py:137-151 | interest is last year's ending balance times the cost of debt when that balance exists and is positive, zero otherwise, and never negative for a non-negative cost |
| TextbookDebtSchedule.DebtSchedule.constructor | example_forecast_model/debt_schedule.py:15-37 | the schedule holds its inputs and empty lists |
| TextbookDebtSchedule.DebtSchedule.InitializeYear0LoansAsWritten | example_forecast_model/debt_schedule.py:39-58 | Year-0 balances appended; a positive Year-0 loan replaces the vintage tables with its own row, a non-positive one leaves them as they were |
| TextbookDebtSchedule.DebtSchedule.InitializeYear0Loans | example_forecast_model/debt_schedule.py:39-58 | Year-0 balances appended and the Year-0 vintage always in slot 0, giving a vintage table for Year 0 |
| TextbookDebtSchedule.DebtSchedule.UpdateStDebt | example_forecast_model/debt_schedule.py:60-75 | the short-term balance rolls from last year's ending balance less the principal paid plus the new loan |
| TextbookDebtSchedule.DebtSchedule.UpdateLtDebt | example_forecast_model/debt_schedule.py:77-109 | the vintage tables advance by one year and the long-term balance rolls by the new loan less the principal due |
| TextbookDebtSchedule.DebtSchedule.GetTotalLtPrincipalPayment | example_forecast_model/debt_schedule.py:111-135 | the loop sums the instalment each earlier vintage pays in the year |
| TextbookDebtSchedule.DebtSchedule.GetLtInterestPayment | example_forecast_model/debt_schedule.py:137-151 | the long-term interest of the year |
| TextbookIncomeStatement.InterestOn | example_forecast_model/income_statement.py:80-86 | no interest on a non-positive opening balance, and never negative interest at a non-negative cost |
| TextbookIncomeStatement.StReturnOf | example_forecast_model/income_statement.py:88-93 | Year 1 earns no investment return |
| TextbookIncomeStatement.IncomeTax | example_forecast_model/income_statement.py:100 | tax is never negative and never below earnings times the rate |
| TextbookIncomeStatement.IncomeYearOf | example_forecast_model/income_statement.py:58-109 | earnings before tax are revenue less COGS, expenses, depreciation and interest plus the investment return; net income plus tax is that; dividends are the payout share of net income |
| TextbookIncomeStatement.TaxAndNetIncome | example_forecast_model/income_statement.py:99-101 | with a rate in [0, 1] a profit is taxed at the rate and keeps between none and all of itself; a loss pays no tax |
| TextbookIncomeStatement.InterestMatchesCashBudget | example_forecast_model/income_statement.py:78-86 | the interest the statement charges is the short- and long-term interest the cash budget pays on the same schedule (also forecast_model/cash_budget.py:192-194 and example_forecast_model/debt_schedule.py:137-151) |
| TextbookIncomeStatement.StReturnMatchesCashBudget | example_forecast_model/income_statement.py:88-93 | the investment return the statement books is the return the cash budget collects (also forecast_model/cash_budget.py:210-214) |
| TextbookIncomeStatement.StartLists | example_forecast_model/income_statement.py:34-47 | a new statement has no net income yet and retained earnings of 0 for Year 0 |
| TextbookIncomeStatement.PreseededRetained | example_forecast_model/forecaster.py:79-87 | the Year-0 entries the forecaster seeds start the retained-earnings roll |
| TextbookIncomeStatement.RetainedStep | example_forecast_model/income_statement.py:111-126 | each year keeps the roll: this year's retained earnings are last year's plus last year's net income less the dividends declared on it |
| TextbookIncomeStatement.RetainedEarningsClosedForm | example_forecast_model/income_statement.py:111-126 | retained earnings of Year k are all net income of Years 0 to k - 1 less the dividends declared on Years 1 to k - 1 (paid through Year k) |
| TextbookIncomeStatement.IncomeStatement.constructor | example_forecast_model/income_statement.py:20-47 | the statement holds its inputs and intermediate values and the starting lists |
| TextbookIncomeStatement.IncomeStatement.CalculateYear | example_forecast_model/income_statement.py:49-126 | the year appended is the one computed from the intermediate values, last year's closing debt and last year's investment, with retained earnings rolled |
| TextbookBalanceSheet.CheckOf | example_forecast_model/balance_sheet.py:101-178 | the check is zero exactly when total assets equal liabilities plus equity |
| TextbookBalanceSheet.OpeningLists | example_forecast_model/balance_sheet.py:15-52 | a new sheet opens cash and equity at the minimum cash and fixed assets at cost, with no check yet |
| TextbookBalanceSheet.WithColumn | example_forecast_model/balance_sheet.py:127-178 | appending a column appends its check |
| TextbookBalanceSheet.Year0Column | example_forecast_model/balance_sheet.py:54-105 | from the opening lists Year 0 gives a one-column sheet holding the opening cash and fixed assets, the Year-0 inventory, advances and debt, and that column's check |
| TextbookBalanceSheet.ColumnOf | example_forecast_model/balance_sheet.py:118-171 | receivables are the year's credit part, the advances are those held for next year (none after the horizon), and current income is the year's own net income |
| TextbookBalanceSheet.ColumnAsWritten | example_forecast_model/balance_sheet.py:124-163 | as written, current income is last year's net income and the advances are read at the year's own index |
| TextbookBalanceSheet.AsWrittenCheckGap | example_forecast_model/balance_sheet.py:124-163 | the check as written is off the corrected one by the stale advances and by last year's income in place of this year's |
| TextbookBalanceSheet.AsWrittenCountsLastYearsIncome | example_forecast_model/balance_sheet.py:162-163 | net income of 100 then 50 makes the Year-2 check as written 50 off the corrected one |
| TextbookBalanceSheet.AsWrittenShowsUsedAdvance | example_forecast_model/balance_sheet.py:124 | advances of 10 for Year 1 and 20 for Year 2: the Year-1 column as written shows the 10 already used, the corrected one the 20 paid ahead |
| TextbookBalanceSheet.BalanceSheet.constructor | example_forecast_model/balance_sheet.py:15-52 | the sheet holds its inputs and horizon and the opening lists |
| TextbookBalanceSheet.BalanceSheet.CalculateYear0 | example_forecast_model/balance_sheet.py:54-105 | Year-0 debt comes from the schedule when one with entries is given, else stays at the opening zeros, and the Year-0 column is appended |
| TextbookBalanceSheet.BalanceSheet.CalculateYear | example_forecast_model/balance_sheet.py:107-178 | the corrected column of the year is appended |
| TextbookBalanceSheet.BalanceSheet.CalculateYearAsWritten | example_forecast_model/balance_sheet.py:107-178 | the column as written is appended |
| TextbookForecaster.TablesRoll | example_forecast_model/forecaster.py:51-54 | after the intermediate tables are calculated, each year's sales inflows and purchase outflows are the year's value less the change in credit held plus the change in advances held, and the stock and fixed-asset accounts roll forward |
| TextbookForecaster.ForecastedTablesReady | example_forecast_model/forecaster.py:51-54 | the calculated tables are ready for every year of the horizon |
| TextbookForecaster.Year0Synced | example_forecast_model/forecaster.py:63-87 | in the corrected run, Year 0 starts in step, and its check is the Year-0 net cash balance less the cash kept |
| TextbookForecaster.StepShapes | example_forecast_model/forecaster.py:91-118 | every statement grows by exactly one year per pass |
| TextbookForecaster.ComputedPaysDue | example_forecast_model/forecaster.py:98 | the budget of a year pays the long-term principal the schedule has due that year |
| TextbookForecaster.StepDebt | example_forecast_model/forecaster.py:101-109 | after the debt update each balance moves by the year's new loan less the principal the budget paid, and each vintage is its year's loan |
| TextbookForecaster.StepColumn | example_forecast_model/forecaster.py:112-118 | the new balance-sheet column holds the cash, debt, retained earnings and income the other statements hold for the year |
| TextbookForecaster.ClosureAlgebra | example_forecast_model/forecaster.py:91-118 | the accounting identity: with net cash made of the year's flows and the accounts rolled, the new column's check equals the old one's |
| TextbookForecaster.StepCheck | example_forecast_model/forecaster.py:91-118 | a pass leaves the new year's check equal to the year before |
| TextbookForecaster.StepCash | example_forecast_model/forecaster.py:98 | a pass keeps the cash roll and, for a positive debt share and returns no worse than -100%, the minimum-cash floor |
| TextbookForecaster.SyncedReady | example_forecast_model/forecaster.py:91 | a run in step after a year is ready for the next |
| TextbookForecaster.SyncStep | example_forecast_model/forecaster.py:91-118 | one pass keeps the run in step and leaves Year 0 untouched |
| TextbookForecaster.BuildTables | example_forecast_model/forecaster.py:51-54 | the intermediate tables are built for the inputs and horizon and ready for every year |
| TextbookForecaster.ForecastYear0 | example_forecast_model/forecaster.py:63-87 | in the corrected run, Year 0 of the budget, the schedule opened with the corrected vintages of its loans, the equity raised and the statement's zero entries put the run in step |
| TextbookForecaster.ForecastIncomeAndCash | example_forecast_model/forecaster.py:94-98 | the income statement and then the cash budget of the year are appended |
| TextbookForecaster.ForecastIncome | example_forecast_model/forecaster.py:94-95 | the income statement of the year from the closing balances of the year before |
| TextbookForecaster.ForecastCash | example_forecast_model/forecaster.py:97-98 | the cash budget of the year, reading the taxes and dividends just computed |
| TextbookForecaster.ForecastDebtAndBalance | example_forecast_model/forecaster.py:100-118 | the debt updated with the budget's loans of the year, then the corrected balance-sheet column appended |
| TextbookForecaster.ForecastDebt | example_forecast_model/forecaster.py:100-109 | the short-term debt moves by the budget's new loan less its principal, and the long-term vintages take the year's loan |
| TextbookForecaster.ForecastYear | example_forecast_model/forecaster.py:91-118 | one pass of the loop computes the year and steps every statement |
| TextbookForecaster.ForecastYears | example_forecast_model/forecaster.py:89-118 | after the loop the run is in step through the last year and Year 0 is untouched |
| TextbookForecaster.ForecastSyncedYear | example_forecast_model/forecaster.py:91-118 | a pass keeps the run in step |
| TextbookForecaster.Forecast | example_forecast_model/forecaster.py:51-118 | on fresh components the corrected run ends in step, with every year's check equal to the Year-0 net cash balance less the Year-0 cash |
| TextbookForecaster.Forecaster.constructor | example_forecast_model/forecaster.py:29-43 | a four-year horizon with no component built |
| TextbookForecaster.Forecaster.RunForecast | example_forecast_model/forecaster.py:45-118 | in the corrected run, the debt schedule repays exactly what the budget paid, cash stays above the minimum for a positive debt share, and every year's check equals Year 0's, which is zero exactly when Year 0 raised no more cash than it needed |

## Left out

- Floating-point rounding is not modelled. Amounts are exact reals, so the tolerances the repository's tests allow become exact equalities or bounds.
- CSV, pandas and network input are not modelled. `load_all`, `_load_csv` and `_process_data` (company_forecast/data_loader.py:43-73, 99-109) are replaced by the loader's year list and a map from statement, year and row label to an optional amount. The pg_forecast data loader and the yfinance fetcher are not part of this model.
- Printing, summaries and export are not modelled as text. This covers every `print_*` and `_print_*` method, `run_forecast`'s progress messages, `get_summary`, `print_mapping_summary`, `save_to_excel` and the command-line scripts. They produce no state that the forecast reads. The one exception they can raise inside a forecast run is modelled: `_print_detailed_statements`, which the company forecaster's `run_forecast` calls last, divides without a guard, and `PlugForecaster.Forecaster.PrintDetailedStatements` returns its `ZeroDivisionError`.
- The `get_value` lookup that both input mappers import is outside the model. Each figure it would return for a base year is a field of `StatementFigures.YearFigures`. pg_forecast/data_loader.py:68 defines it; company_forecast/data_loader.py does not (see the next line).
- Several imports of the company package name definitions that its modules do not contain, so as shipped `import company_forecast` raises `ImportError`. `ForecastConfig` is imported from `.config` by company_forecast/__init__.py:18, balance_sheet.py:7, cash_budget.py:11, debt_schedule.py:7, income_statement.py:7, intermediate.py:7 and input_calculator.py:18, but company_forecast/config.py defines only `COMPANIES`, `get_year_end_dates` and `get_company_config`; the only `ForecastConfig` is example_forecast_model/config.py:7. `ModelAssumptions` (company_forecast/input_calculator.py:18) is defined nowhere. company_forecast/input_mapper.py:6 imports module-level `get_value` and `load_company_data`, but company_forecast/data_loader.py has only the `DataLoader` class, whose `get_value` is a method (company_forecast/data_loader.py:111), and no `load_company_data`. The model takes the module bodies as intended: the horizon and loan terms are parameters in place of `ForecastConfig`, the abstract `CompanyInputCalculator.Assumptions` record stands in for `ModelAssumptions`, and `CompanyInputMapper` reads its base-year figures as `StatementFigures.YearFigures` values. The `ImportError` itself is not modelled.
- The Year-0 sales units `b0 * price ** b` (forecast_model/intermediate.py:126-127) are a given input. Real powers have no exact counterpart in Dafny.
- `configs/base_config.py` is modelled only as the record of bounds and defaults that `InputCalculator` reads (`CompanyInputCalculator.Assumptions`). JSON loading is left out. So is the constructor's fallback that loads a configuration by company name and ignores any failure (company_forecast/input_calculator.py:65-72). The model's constructor takes the optional configuration that this fallback would produce.
- The year-string handling of the loader is left out. Year labels are naturals, which order the same as the four-digit prefixes the source sorts. `CompanyConfigTable.DateLabelPrefix` shows that each date label starts with its year.
- `_rebalance_balance_sheet` is dead code (company_forecast/forecaster.py:385-410, pg_forecast/forecaster.py:383-408) and is not modelled. The unused `change_in_*` locals (company_forecast/forecaster.py:199-202) are not modelled either.
- The `CompanyForecaster` class that the tests drive is not part of this model. `CompanyEngine.Forecaster` assembles the same modules. It uses the run order of example_forecast_model/forecaster.py:91-118 and the Year-0 handoff of company_forecast/cash_budget.py:118 and company_forecast/debt_schedule.py:50.
- The forecast horizon is a parameter of the classes. The configuration objects that carry it (`ForecastConfig`, defined only in example_forecast_model/config.py) are not modelled.
- `CashBudget.calculate_year_0(debt_schedule)` in forecast_model/cash_budget.py ignores its argument, so `TextbookCashBudget.CashBudget.CalculateYear0` takes none.
- The textbook cash budget and income statement refer to each other. Dafny modules cannot import in a cycle, so `TextbookCashBudget.CashBudget.CalculateYear` receives the income statement's tax and dividend lists as values.
- Division by a configured number of years is modelled with a precondition that the divisor is nonzero: `lt_loan_years`, `st_loan_years` and `linear_depreciation_years`. The repository's configurations never set these to zero.
- TextbookCashBudget.CashBudget.CalculateYear: requires `pct_financing_with_debt != 0`. The source divides by it on every call of `calculate_year` (forecast_model/cash_budget.py:237-257), so a zero would always raise.
- TextbookForecaster.Forecaster.RunForecast: runs with the corrected `InitializeYear0Loans` and `CalculateYear` of Findings rows 1-3 in place of the as-written `initialize_year_0_loans` (example_forecast_model/forecaster.py:71) and `calculate_year` (example_forecast_model/forecaster.py:112); the run as written does not keep the invariants its contract states.
- TextbookForecaster.Forecaster.RunForecast: the minimum-cash floor is proved for a positive debt share and short-term returns no worse than -100%. Outside those conditions the split and the sweep algebra do not bound the cash, and the contract says nothing about it.
- CompanyEngine.Closure: the constant balance check is proved only while neither the Year-0 "other" residual clamps (company_forecast/balance_sheet.py:44-75) nor the long-term debt floor (company_forecast/debt_schedule.py:116) binds. `CompanyEngine.CheckDrift` gives the drift when they do.
- PgInputMapper.PgForecastInputs: the debt-to-equity and debt-structure averages divide by 2022 and 2023 equity and total debt without a guard. The model returns `ZeroDivisionError` when one of them is zero, which is what the source raises.
- TextbookIntermediate.Intermediate.CalculateAll: requires a horizon of at least one year. With a zero horizon `calculate_credit_and_advances` reads `advance_payments_from_customers[0]` of an empty list (forecast_model/intermediate.py:300) and raises `IndexError`, a path the model does not represent; every caller uses a four-year horizon.
- Concurrency is not modelled, because the repository has none.

## Findings

| source | as written | input that shows it | evidently intended | confidence | as-written member | corrected member |
|---|---|---|---|---|---|---|
| example_forecast_model/debt_schedule.py:54-58 | a Year-0 long-term loan of 0 creates no vintage, so the Year-1 loan takes slot 0 and is charged an instalment in its own year | Year-0 loan 0, Year-1 loan 100, 10-year term: the cash budget reads 0 principal for Year 1, but `update_lt_debt` subtracts 10 | slot 0 always holds the Year-0 vintage, even when empty, so vintage index equals origination year | not executed | TextbookDebtSchedule.Year0VintageMismatch | TextbookDebtSchedule.FixedScheduleAgrees |
| example_forecast_model/balance_sheet.py:124-144 | the advances on the balance sheet of Year k are read at index k-1, which is the advance on Year k's own sales or purchases and is already used up | advances to suppliers of 10 on Year 1 and 20 on Year 2: the Year-1 sheet shows 10 paid ahead, but 20 is held for Year 2 | the advances held at year end are the ones for the next year, and none after the horizon | not executed | TextbookBalanceSheet.AsWrittenShowsUsedAdvance | TextbookBalanceSheet.ColumnOf |
| example_forecast_model/balance_sheet.py:163 | current-year income on the Year-k sheet is `net_income[k-1]`, which is already in the cumulated retained earnings it is added to | net income of 100 in Year 1 and 50 in Year 2, no advances: the Year-2 check as written is 50 off the corrected one | current-year income is `net_income[k]`, so equity counts each year's income once | not executed | TextbookBalanceSheet.AsWrittenCountsLastYearsIncome | TextbookForecaster.StepCheck |
