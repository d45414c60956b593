/**
 * DebtSchedule of the textbook model (example_forecast_model/debt_schedule.py):
 * short-term debt rolled by the cash budget's new loan and principal, and
 * long-term loans tracked by vintage, each repaid in equal instalments of
 * principal / lt_loan_years from the year after it is taken.
 * Balance lists hold Year 0 at index 0.
 */
module TextbookDebtSchedule {
  import opened TextbookInputs

  /** Every list of the schedule, under the attribute names of the source. */
  datatype DebtLists = DebtLists(
    stBeginningBalance: seq<real>, stEndingBalance: seq<real>,
    ltBeginningBalance: seq<real>, ltEndingBalance: seq<real>,
    ltLoansByYear: seq<seq<real>>, ltPrincipalPaymentsByYear: seq<seq<real>>)

  /** The lists right after construction. */
  function SeedLists(): (l: DebtLists)
    ensures l.stEndingBalance == [] && l.ltEndingBalance == [] && l.ltLoansByYear == []
  {
    DebtLists([0.0], [], [0.0], [], [], [])
  }

  // ---------------------------------------------------------------------
  // The vintage table
  // ---------------------------------------------------------------------

  /** Every vintage row holds the one principal it was opened with. */
  ghost predicate Singletons(loans: seq<seq<real>>) {
    forall v :: 0 <= v < |loans| ==> |loans[v]| == 1
  }

  /** The instalment vintage `orig` pays in `year`, when the table has that entry. */
  function PaymentEntry(payments: seq<seq<real>>, orig: nat, year: nat): real {
    if orig < |payments| && orig < year && year - orig - 1 < |payments[orig]| then payments[orig][year - orig - 1]
    else 0.0
  }

  /** The instalments the vintages before `k` pay in `year`. */
  function PrincipalDueFrom(payments: seq<seq<real>>, year: nat, k: nat): real {
    if k == 0 then 0.0 else PrincipalDueFrom(payments, year, k - 1) + PaymentEntry(payments, k - 1, year)
  }

  /** `get_total_lt_principal_payment(year)`: every earlier vintage's instalment for `year`. */
  function PrincipalDue(payments: seq<seq<real>>, year: nat): real {
    PrincipalDueFrom(payments, year, year)
  }

  /**
   * The payment table after the loop of `update_lt_debt(year)`: every
   * vintage up to `year` with a positive principal gets one more instalment.
   */
  function WithPayments(loans: seq<seq<real>>, payments: seq<seq<real>>, year: nat, years: real): (r: seq<seq<real>>)
    requires |loans| == |payments| && Singletons(loans) && years != 0.0
    ensures |r| == |payments|
  {
    seq(|payments|, v requires 0 <= v < |payments| =>
      if v <= year && loans[v][0] > 0.0 then payments[v] + [loans[v][0] / years] else payments[v])
  }

  /** Vintage table and payment table after `update_lt_debt(year, newLoan)`. */
  function UpdateVintages(loans: seq<seq<real>>, payments: seq<seq<real>>, year: nat, newLoan: real, years: real)
    : (r: (seq<seq<real>>, seq<seq<real>>))
    requires |loans| == |payments| && Singletons(loans) && years != 0.0
    ensures r.0 == loans + [[newLoan]] && |r.1| == |payments| + 1
  {
    (loans + [[newLoan]], WithPayments(loans + [[newLoan]], payments + [[]], year, years))
  }

  /** `initialize_year_0_loans` as written: a Year-0 vintage only for a positive Year-0 loan. */
  function Year0Vintages(lt0: real, years: real): (seq<seq<real>>, seq<seq<real>>)
    requires years != 0.0
  {
    if lt0 > 0.0 then ([[lt0]], [[lt0 / years]]) else ([], [])
  }

  /** The corrected Year-0 table: slot 0 always belongs to Year 0, with no instalments for no loan. */
  function Year0VintagesFixed(lt0: real, years: real): (seq<seq<real>>, seq<seq<real>>)
    requires years != 0.0
  {
    ([[lt0]], if lt0 > 0.0 then [[lt0 / years]] else [[]])
  }

  /**
   * The table after Years 0 .. y, with vintage v opened in Year v: a
   * positive vintage lists one instalment for each of Years v + 1 .. y + 1.
   */
  ghost predicate Vintages(loans: seq<seq<real>>, payments: seq<seq<real>>, y: nat, years: real) {
    years != 0.0 && |loans| == y + 1 && |payments| == y + 1 && Singletons(loans) &&
    forall v :: 0 <= v <= y ==>
      payments[v] == if loans[v][0] > 0.0 then seq(y - v + 1, _ => loans[v][0] / years) else []
  }

  /** Straight-line repayments owed in a year by the vintages before `k`. */
  function DueFrom(loans: seq<seq<real>>, k: nat, years: real): real
    requires k <= |loans| && Singletons(loans) && years != 0.0
  {
    if k == 0 then 0.0
    else DueFrom(loans, k - 1, years) + (if loans[k - 1][0] > 0.0 then loans[k - 1][0] / years else 0.0)
  }

  /** The corrected Year-0 table is a vintage table for Year 0. */
  lemma Year0VintagesFixedAreVintages(lt0: real, years: real)
    requires years != 0.0
    ensures Vintages(Year0VintagesFixed(lt0, years).0, Year0VintagesFixed(lt0, years).1, 0, years)
  {
    var (loans, payments) := Year0VintagesFixed(lt0, years);
    if lt0 > 0.0 {
      assert payments[0] == seq(1, _ => lt0 / years);
    }
  }

  /** One `update_lt_debt` turns the table for Year y - 1 into the table for Year y. */
  lemma VintagesStep(loans: seq<seq<real>>, payments: seq<seq<real>>, year: nat, newLoan: real, years: real)
    requires year >= 1 && Vintages(loans, payments, year - 1, years)
    ensures Vintages(UpdateVintages(loans, payments, year, newLoan, years).0,
                     UpdateVintages(loans, payments, year, newLoan, years).1, year, years)
  {
    var (loans', payments') := UpdateVintages(loans, payments, year, newLoan, years);
    forall v | 0 <= v <= year
      ensures payments'[v] == if loans'[v][0] > 0.0 then seq(year - v + 1, _ => loans'[v][0] / years) else []
    {
      if v < year {
        assert loans'[v] == loans[v];
        if loans[v][0] > 0.0 {
          assert payments'[v] == seq(year - 1 - v + 1, _ => loans[v][0] / years) + [loans[v][0] / years];
        }
      } else if newLoan > 0.0 {
        assert payments'[v] == [] + [newLoan / years];
      }
    }
  }

  /**
   * In a vintage table every vintage before `year` pays its instalment in
   * `year`, whether the table is read before that year's update or after it.
   */
  lemma {:induction false} VintagesDue(loans: seq<seq<real>>, payments: seq<seq<real>>, y: nat, year: nat,
                                       years: real, k: nat)
    requires Vintages(loans, payments, y, years) && (year == y || year == y + 1) && k <= year
    ensures PrincipalDueFrom(payments, year, k) == DueFrom(loans, k, years)
  {
    if k > 0 {
      VintagesDue(loans, payments, y, year, years, k - 1);
      var v := k - 1;
      if loans[v][0] > 0.0 {
        assert payments[v][year - v - 1] == loans[v][0] / years;
      }
    }
  }

  /**
   * The corrected table keeps the cash budget and the schedule in step:
   * the principal `get_total_lt_principal_payment(year)` reports before
   * `update_lt_debt(year)` is the principal that update subtracts.
   */
  lemma FixedScheduleAgrees(loans: seq<seq<real>>, payments: seq<seq<real>>, year: nat, newLoan: real, years: real)
    requires year >= 1 && Vintages(loans, payments, year - 1, years)
    ensures PrincipalDue(payments, year) == PrincipalDue(UpdateVintages(loans, payments, year, newLoan, years).1, year)
    ensures PrincipalDue(payments, year) == DueFrom(loans, year, years)
  {
    var (loans', payments') := UpdateVintages(loans, payments, year, newLoan, years);
    VintagesStep(loans, payments, year, newLoan, years);
    VintagesDue(loans, payments, year - 1, year, years, year);
    VintagesDue(loans', payments', year, year, years, year);
    assert DueFrom(loans', year, years) == DueFrom(loans, year, years) by {
      DueFromPrefix(loans, [[newLoan]], year, years);
    }
  }

  lemma {:induction false} DueFromPrefix(loans: seq<seq<real>>, more: seq<seq<real>>, k: nat, years: real)
    requires k <= |loans| && Singletons(loans) && Singletons(more) && years != 0.0
    ensures Singletons(loans + more) && DueFrom(loans + more, k, years) == DueFrom(loans, k, years)
  {
    assert Singletons(loans + more) by {
      forall v | 0 <= v < |loans + more| ensures |(loans + more)[v]| == 1 {
        if v >= |loans| {
          assert (loans + more)[v] == more[v - |loans|];
        }
      }
    }
    if k > 0 {
      DueFromPrefix(loans, more, k - 1, years);
      assert (loans + more)[k - 1] == loans[k - 1];
    }
  }

  /**
   * As written, a Year-0 long-term loan of 0 leaves slot 0 to the Year-1
   * loan: the cash budget reads no Year-1 principal, but the update that
   * follows subtracts one instalment of that same loan.
   */
  lemma Year0VintageMismatch()
    ensures var (loans, payments) := Year0Vintages(0.0, 10.0);
      var (_, payments') := UpdateVintages(loans, payments, 1, 100.0, 10.0);
      PrincipalDue(payments, 1) == 0.0 && PrincipalDue(payments', 1) == 10.0
  {
    var (loans, payments) := Year0Vintages(0.0, 10.0);
    assert loans == [] && payments == [];
    var (loans', payments') := UpdateVintages(loans, payments, 1, 100.0, 10.0);
    assert loans' == [[100.0]];
    assert Singletons(loans');
    assert payments'[0] == [] + [100.0 / 10.0];
    assert PaymentEntry(payments', 0, 1) == 10.0;
    assert PrincipalDue(payments', 1) == PrincipalDueFrom(payments', 1, 0) + PaymentEntry(payments', 0, 1);
    assert PrincipalDue(payments, 1) == PrincipalDueFrom(payments, 1, 0) + PaymentEntry(payments, 0, 1);
  }

  /** `get_lt_interest_payment`: last year's ending balance times the rate when it is positive. */
  function LtInterest(ending: seq<real>, year: nat, costOfDebt: real): real
    requires year >= 1
  {
    var beginning := if year - 1 < |ending| then ending[year - 1] else 0.0;
    if beginning > 0.0 then beginning * costOfDebt else 0.0
  }

  /** Interest is charged only on a positive opening balance, never on a missing or negative one. */
  lemma LtInterestCharged(ending: seq<real>, year: nat, costOfDebt: real)
    requires year >= 1
    ensures year - 1 < |ending| && ending[year - 1] > 0.0 ==> LtInterest(ending, year, costOfDebt) == ending[year - 1] * costOfDebt
    ensures (year - 1 >= |ending| || ending[year - 1] <= 0.0) ==> LtInterest(ending, year, costOfDebt) == 0.0
    ensures costOfDebt >= 0.0 ==> LtInterest(ending, year, costOfDebt) >= 0.0
  {
  }

  // ---------------------------------------------------------------------
  // The stateful schedule
  // ---------------------------------------------------------------------

  /** `DebtSchedule`. Its lists live in one record field, `lists`. */
  class DebtSchedule {
    const inputs: InputData
    var lists: DebtLists

    constructor (inputs: InputData)
      ensures this.inputs == inputs && lists == SeedLists()
    {
      this.inputs := inputs;
      lists := SeedLists();
    }

    /** `initialize_year_0_loans` as written. */
    method InitializeYear0LoansAsWritten(st0: real, lt0: real)
      requires inputs.ltLoanYears != 0.0
      modifies this
      ensures lists == old(lists).(stEndingBalance := old(lists.stEndingBalance) + [st0],
                                   ltEndingBalance := old(lists.ltEndingBalance) + [lt0],
                                   ltLoansByYear := lists.ltLoansByYear,
                                   ltPrincipalPaymentsByYear := lists.ltPrincipalPaymentsByYear)
      ensures lt0 > 0.0 ==> (lists.ltLoansByYear, lists.ltPrincipalPaymentsByYear) == Year0Vintages(lt0, inputs.ltLoanYears)
      ensures lt0 <= 0.0 ==> lists.ltLoansByYear == old(lists.ltLoansByYear) &&
                             lists.ltPrincipalPaymentsByYear == old(lists.ltPrincipalPaymentsByYear)
    {
      lists := lists.(stEndingBalance := lists.stEndingBalance + [st0],
                      ltEndingBalance := lists.ltEndingBalance + [lt0]);
      if lt0 > 0.0 {
        var year0Payment := lt0 / inputs.ltLoanYears;
        lists := lists.(ltLoansByYear := [[lt0]], ltPrincipalPaymentsByYear := [[year0Payment]]);
      }
    }

    /** `initialize_year_0_loans`, with the Year-0 vintage always in slot 0. */
    method InitializeYear0Loans(st0: real, lt0: real)
      requires inputs.ltLoanYears != 0.0
      modifies this
      ensures lists == old(lists).(stEndingBalance := old(lists.stEndingBalance) + [st0],
                                   ltEndingBalance := old(lists.ltEndingBalance) + [lt0],
                                   ltLoansByYear := lists.ltLoansByYear,
                                   ltPrincipalPaymentsByYear := lists.ltPrincipalPaymentsByYear)
      ensures (lists.ltLoansByYear, lists.ltPrincipalPaymentsByYear) == Year0VintagesFixed(lt0, inputs.ltLoanYears)
      ensures Vintages(lists.ltLoansByYear, lists.ltPrincipalPaymentsByYear, 0, inputs.ltLoanYears)
    {
      lists := lists.(stEndingBalance := lists.stEndingBalance + [st0],
                      ltEndingBalance := lists.ltEndingBalance + [lt0]);
      var year0Payments: seq<real> := [];
      if lt0 > 0.0 {
        year0Payments := [lt0 / inputs.ltLoanYears];
      }
      lists := lists.(ltLoansByYear := [[lt0]], ltPrincipalPaymentsByYear := [year0Payments]);
      Year0VintagesFixedAreVintages(lt0, inputs.ltLoanYears);
    }

    /** `update_st_debt`: the whole short-term balance rolls, less the principal paid, plus the new loan. */
    method UpdateStDebt(year: nat, newLoan: real, principalPayment: real)
      requires 1 <= year <= |lists.stEndingBalance|
      modifies this
      ensures lists == old(lists).(stBeginningBalance := old(lists.stBeginningBalance) + [old(lists.stEndingBalance[year - 1])],
                                   stEndingBalance := old(lists.stEndingBalance) +
                                     [old(lists.stEndingBalance[year - 1]) - principalPayment + newLoan])
    {
      var beginning := lists.stEndingBalance[year - 1];
      var ending := beginning - principalPayment + newLoan;
      lists := lists.(stBeginningBalance := lists.stBeginningBalance + [beginning],
                      stEndingBalance := lists.stEndingBalance + [ending]);
    }

    /**
     * `update_lt_debt`: opens this year's vintage, adds the year's
     * instalments to the table, and rolls the balance by the new loan less
     * the principal due.
     */
    method UpdateLtDebt(year: nat, newLoan: real)
      requires 1 <= year <= |lists.ltEndingBalance|
      requires |lists.ltLoansByYear| == |lists.ltPrincipalPaymentsByYear| && Singletons(lists.ltLoansByYear)
      requires inputs.ltLoanYears != 0.0
      modifies this
      ensures var (loans, payments) := UpdateVintages(old(lists.ltLoansByYear), old(lists.ltPrincipalPaymentsByYear),
                                                      year, newLoan, inputs.ltLoanYears);
        lists == old(lists).(ltBeginningBalance := old(lists.ltBeginningBalance) + [old(lists.ltEndingBalance[year - 1])],
                             ltEndingBalance := old(lists.ltEndingBalance) +
                               [old(lists.ltEndingBalance[year - 1]) + newLoan - PrincipalDue(payments, year)],
                             ltLoansByYear := loans, ltPrincipalPaymentsByYear := payments)
      ensures Singletons(lists.ltLoansByYear) && |lists.ltLoansByYear| == |lists.ltPrincipalPaymentsByYear|
    {
      var beginning := lists.ltEndingBalance[year - 1];
      lists := lists.(ltBeginningBalance := lists.ltBeginningBalance + [beginning]);
      var loans0, payments0 := lists.ltLoansByYear + [[newLoan]], lists.ltPrincipalPaymentsByYear + [[]];
      assert Singletons(loans0) by {
        forall v | 0 <= v < |loans0| ensures |loans0[v]| == 1 {
          if v < |lists.ltLoansByYear| { assert loans0[v] == lists.ltLoansByYear[v]; }
        }
      }
      lists := lists.(ltLoansByYear := loans0, ltPrincipalPaymentsByYear := payments0);
      for origYear := 0 to year + 1
        invariant lists.ltLoansByYear == loans0 && |lists.ltPrincipalPaymentsByYear| == |payments0|
        invariant forall v :: 0 <= v < |payments0| ==>
          lists.ltPrincipalPaymentsByYear[v] == (if v < origYear && loans0[v][0] > 0.0 then payments0[v] + [loans0[v][0] / inputs.ltLoanYears] else payments0[v])
        invariant lists.ltBeginningBalance == old(lists.ltBeginningBalance) + [beginning]
        invariant lists.stBeginningBalance == old(lists.stBeginningBalance)
        invariant lists.stEndingBalance == old(lists.stEndingBalance)
        invariant lists.ltEndingBalance == old(lists.ltEndingBalance)
      {
        if origYear < |lists.ltLoansByYear| {
          var origLoan := lists.ltLoansByYear[origYear][0];
          if origLoan > 0.0 {
            var payment := origLoan / inputs.ltLoanYears;
            var payments := lists.ltPrincipalPaymentsByYear;
            lists := lists.(ltPrincipalPaymentsByYear := payments[origYear := payments[origYear] + [payment]]);
          }
        }
      }
      assert lists.ltPrincipalPaymentsByYear == WithPayments(loans0, payments0, year, inputs.ltLoanYears);
      var principalPayment := GetTotalLtPrincipalPayment(year);
      var ending := beginning + newLoan - principalPayment;
      lists := lists.(ltEndingBalance := lists.ltEndingBalance + [ending]);
    }

    /** `get_total_lt_principal_payment`: the loop over earlier vintages. */
    method GetTotalLtPrincipalPayment(year: nat) returns (total: real)
      ensures total == PrincipalDue(lists.ltPrincipalPaymentsByYear, year)
    {
      total := 0.0;
      for origYear := 0 to year
        invariant total == PrincipalDueFrom(lists.ltPrincipalPaymentsByYear, year, origYear)
      {
        if origYear < |lists.ltPrincipalPaymentsByYear| {
          var payments := lists.ltPrincipalPaymentsByYear[origYear];
          var paymentIndex := year - origYear - 1;
          if paymentIndex < |payments| {
            total := total + payments[paymentIndex];
          }
        }
      }
    }

    /** `get_lt_interest_payment`. */
    method GetLtInterestPayment(year: nat, costOfDebt: real) returns (interest: real)
      requires year >= 1
      ensures interest == LtInterest(lists.ltEndingBalance, year, costOfDebt)
    {
      var beginning := if year - 1 < |lists.ltEndingBalance| then lists.ltEndingBalance[year - 1] else 0.0;
      interest := if beginning > 0.0 then beginning * costOfDebt else 0.0;
    }
  }
}
