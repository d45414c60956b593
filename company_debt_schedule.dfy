/**
 * DebtSchedule of the company engine: short-term debt rolled over in full
 * every year, and long-term debt tracked by vintage with a straight-line
 * payment fixed when the loan is taken.
 */
module CompanyDebtSchedule {
  import opened Wrappers
  import opened CompanyInputs
  import opened RealArith

  /** The schedule's lists, under the attribute names of the source. */
  datatype DebtLists = DebtLists(
    stBeginningBalance: seq<real>, stEndingBalance: seq<real>,
    ltBeginningBalance: seq<real>, ltEndingBalance: seq<real>,
    ltLoansByYear: seq<seq<real>>, ltPrincipalPaymentsByYear: seq<seq<real>>)

  /** The lists right after construction. */
  const InitialLists := DebtLists([0.0], [], [0.0], [], [], [])

  // ---------------------------------------------------------------------
  // Per-loan arithmetic
  // ---------------------------------------------------------------------

  /**
   * The yearly payment of the legacy Year-0 vintage: the balance spread over
   * the 70% of the loan term taken to remain.
   */
  function LegacyPayment(lt0: real, ltLoanYears: real): (r: real)
    ensures lt0 <= 0.0 ==> r == 0.0
    ensures lt0 > 0.0 && ltLoanYears > 0.0 ==> r > 0.0 && Times(r, Times(ltLoanYears, 0.7)) == lt0
    ensures lt0 > 0.0 && ltLoanYears <= 0.0 ==> r == lt0
  {
    if lt0 > 0.0 then
      var remainingYears := ltLoanYears * 0.7;
      if remainingYears > 0.0 then lt0 / remainingYears else lt0
    else 0.0
  }

  /** The yearly payment of a new LT vintage: the loan over the loan term, or 0 without a loan. */
  function VintagePayment(newLoan: real, ltLoanYears: real): (r: real)
    requires newLoan > 0.0 ==> ltLoanYears != 0.0
    ensures newLoan <= 0.0 ==> r == 0.0
    ensures newLoan > 0.0 ==> Times(r, ltLoanYears) == newLoan
    ensures newLoan > 0.0 && ltLoanYears > 0.0 ==> r > 0.0
  {
    if newLoan > 0.0 then newLoan / ltLoanYears else 0.0
  }

  /** A closing balance: what the year adds and removes, floored at zero. */
  function EndingBalance(beginning: real, payment: real, newLoan: real): (r: real)
    ensures r >= 0.0 && r >= beginning - payment + newLoan
    ensures beginning - payment + newLoan >= 0.0 ==> r == beginning - payment + newLoan
    ensures beginning - payment + newLoan < 0.0 ==> r == 0.0
  {
    Floor0(beginning - payment + newLoan)
  }

  /** With no new loan and a non-negative payment, a non-negative balance cannot grow. */
  lemma EndingBalanceNoNewLoan(beginning: real, payment: real)
    requires beginning >= 0.0 && payment >= 0.0
    ensures EndingBalance(beginning, payment, 0.0) <= beginning
  {
  }

  // ---------------------------------------------------------------------
  // Total LT principal due in a year
  // ---------------------------------------------------------------------

  /** The first payment of vintage `orig`, or 0 when the vintage is absent or empty. */
  function VintageDue(payments: seq<seq<real>>, orig: nat): real {
    if orig < |payments| && |payments[orig]| > 0 then payments[orig][0] else 0.0
  }

  /** The sum of the fixed payments of the vintages with origination index below `year`. */
  function TotalLtPrincipal(payments: seq<seq<real>>, year: nat): real {
    if year == 0 then 0.0 else TotalLtPrincipal(payments, year - 1) + VintageDue(payments, year - 1)
  }

  /** `get_total_lt_principal_payment`: the running total over the vintages before `year`. */
  method GetTotalLtPrincipalPayment(l: DebtLists, year: nat) returns (total: real)
    ensures total == TotalLtPrincipal(l.ltPrincipalPaymentsByYear, year)
  {
    var payments := l.ltPrincipalPaymentsByYear;
    total := 0.0;
    for origYear := 0 to year
      invariant total == TotalLtPrincipal(payments, origYear)
    {
      if origYear < |payments| {
        var vintage := payments[origYear];
        if |vintage| > 0 {
          total := total + vintage[0];
        }
      }
    }
  }

  /** A vintage appended at index `year` or later is not charged in `year`. */
  lemma {:induction false} TotalLtPrincipalAppend(payments: seq<seq<real>>, v: seq<real>, year: nat)
    requires year <= |payments|
    ensures TotalLtPrincipal(payments + [v], year) == TotalLtPrincipal(payments, year)
  {
    if year > 0 {
      TotalLtPrincipalAppend(payments, v, year - 1);
      assert VintageDue(payments + [v], year - 1) == VintageDue(payments, year - 1);
    }
  }

  /** Only the vintages before `year` matter: two tables agreeing there charge the same. */
  lemma {:induction false} TotalLtPrincipalPrefix(p: seq<seq<real>>, q: seq<seq<real>>, year: nat)
    requires year <= |p| && year <= |q| && p[..year] == q[..year]
    ensures TotalLtPrincipal(p, year) == TotalLtPrincipal(q, year)
  {
    if year > 0 {
      assert p[year - 1] == p[..year][year - 1] && q[year - 1] == q[..year][year - 1];
      assert p[..year - 1] == p[..year][..year - 1] && q[..year - 1] == q[..year][..year - 1];
      TotalLtPrincipalPrefix(p, q, year - 1);
    }
  }

  /** There is no cut-off at the loan term: past the last vintage the total stays at the full sum. */
  lemma {:induction false} TotalLtPrincipalNoCutOff(payments: seq<seq<real>>, year: nat)
    requires year >= |payments|
    ensures TotalLtPrincipal(payments, year) == TotalLtPrincipal(payments, |payments|)
  {
    if year > |payments| {
      TotalLtPrincipalNoCutOff(payments, year - 1);
    }
  }

  /** Every vintage's fixed payment is non-negative. */
  ghost predicate PaymentsNonNegative(payments: seq<seq<real>>) {
    forall i :: 0 <= i < |payments| ==> |payments[i]| > 0 && payments[i][0] >= 0.0
  }

  /** With non-negative vintage payments the total due is non-negative. */
  lemma {:induction false} TotalLtPrincipalNonNegative(payments: seq<seq<real>>, year: nat)
    requires PaymentsNonNegative(payments)
    ensures TotalLtPrincipal(payments, year) >= 0.0
  {
    if year > 0 {
      TotalLtPrincipalNonNegative(payments, year - 1);
    }
  }

  // ---------------------------------------------------------------------
  // Interest on the beginning-of-year balance
  // ---------------------------------------------------------------------

  /** Interest on the balance closing the previous year, or 0 when that balance is not positive. */
  function InterestOnPrior(endings: seq<real>, year: nat, rate: real): (r: real)
    requires year == 0 || year - 1 < |endings|
    ensures year == 0 ==> r == 0.0
    ensures year > 0 && endings[year - 1] <= 0.0 ==> r == 0.0
    ensures year > 0 && endings[year - 1] > 0.0 ==> r == Times(endings[year - 1], rate)
    ensures rate >= 0.0 ==> r >= 0.0
  {
    var beginning := if year > 0 then endings[year - 1] else 0.0;
    if beginning > 0.0 then beginning * rate else 0.0
  }

  /** `get_lt_interest_payment`. */
  function LtInterestPayment(l: DebtLists, year: nat, costOfDebt: real): real
    requires year == 0 || year - 1 < |l.ltEndingBalance|
  {
    InterestOnPrior(l.ltEndingBalance, year, costOfDebt)
  }

  /** `get_st_interest_payment`. */
  function StInterestPayment(l: DebtLists, year: nat, costOfDebt: real): real
    requires year == 0 || year - 1 < |l.stEndingBalance|
  {
    InterestOnPrior(l.stEndingBalance, year, costOfDebt)
  }

  /** No circularity: the interest of `year` is fixed once the balance of `year - 1` is. */
  lemma InterestReadsPriorYearOnly(e1: seq<real>, e2: seq<real>, year: nat, rate: real)
    requires 0 < year <= |e1| && year <= |e2| && e1[year - 1] == e2[year - 1]
    ensures InterestOnPrior(e1, year, rate) == InterestOnPrior(e2, year, rate)
  {
  }

  // ---------------------------------------------------------------------
  // Shape and floor of the schedule
  // ---------------------------------------------------------------------

  /** Balances and vintages recorded for Year 0 .. k. */
  ghost predicate Spans(l: DebtLists, k: nat) {
    |l.stBeginningBalance| == k + 1 && |l.stEndingBalance| == k + 1 &&
    |l.ltBeginningBalance| == k + 1 && |l.ltEndingBalance| == k + 1 &&
    |l.ltLoansByYear| == k + 1 && |l.ltPrincipalPaymentsByYear| == k + 1
  }

  /** Every balance the schedule computed (every entry after Year 0) is non-negative. */
  ghost predicate ComputedBalancesNonNegative(l: DebtLists) {
    (forall k :: 1 <= k < |l.stEndingBalance| ==> l.stEndingBalance[k] >= 0.0) &&
    (forall k :: 1 <= k < |l.ltEndingBalance| ==> l.ltEndingBalance[k] >= 0.0)
  }

  /** The schedule `l` after the ST update of `year`: opens at last year's close, pays `payment`, borrows `newLoan`. */
  function StStep(l: DebtLists, year: nat, newLoan: real, payment: real): DebtLists
    requires 1 <= year <= |l.stEndingBalance|
  {
    var beginning := l.stEndingBalance[year - 1];
    l.(stBeginningBalance := l.stBeginningBalance + [beginning],
       stEndingBalance := l.stEndingBalance + [EndingBalance(beginning, payment, newLoan)])
  }

  /**
   * The schedule `l` after the LT update of `year`: opens at last year's
   * close, records this year's vintage, and pays the vintages before `year`.
   */
  function LtStep(l: DebtLists, year: nat, newLoan: real, ltLoanYears: real): DebtLists
    requires 1 <= year <= |l.ltEndingBalance| && year <= |l.ltPrincipalPaymentsByYear|
    requires newLoan > 0.0 ==> ltLoanYears != 0.0
  {
    var beginning := l.ltEndingBalance[year - 1];
    l.(ltBeginningBalance := l.ltBeginningBalance + [beginning],
       ltLoansByYear := l.ltLoansByYear + [[if newLoan > 0.0 then newLoan else 0.0]],
       ltPrincipalPaymentsByYear := l.ltPrincipalPaymentsByYear + [[VintagePayment(newLoan, ltLoanYears)]],
       ltEndingBalance := l.ltEndingBalance +
         [EndingBalance(beginning, TotalLtPrincipal(l.ltPrincipalPaymentsByYear, year), newLoan)])
  }

  // ---------------------------------------------------------------------
  // The schedule object
  // ---------------------------------------------------------------------

  class DebtSchedule {
    const stLoanYears: real
    const ltLoanYears: real
    var lists: DebtLists

    constructor (inputs: Inputs)
      ensures stLoanYears == GetOr(inputs.stLoanYears, 1.0) && ltLoanYears == GetOr(inputs.ltLoanYears, 10.0)
      ensures lists == InitialLists
    {
      stLoanYears := GetOr(inputs.stLoanYears, 1.0);
      ltLoanYears := GetOr(inputs.ltLoanYears, 10.0);
      lists := InitialLists;
    }

    /** Year-0 closing balances from history, and the legacy LT vintage. */
    method InitializeYear0(stDebt0: real, ltDebt0: real)
      modifies this
      ensures lists == old(lists).(
        stEndingBalance := old(lists.stEndingBalance) + [stDebt0],
        ltEndingBalance := old(lists.ltEndingBalance) + [ltDebt0],
        ltLoansByYear := old(lists.ltLoansByYear) + [[if ltDebt0 > 0.0 then ltDebt0 else 0.0]],
        ltPrincipalPaymentsByYear := old(lists.ltPrincipalPaymentsByYear) + [[LegacyPayment(ltDebt0, ltLoanYears)]])
    {
      var l := lists;
      l := l.(stEndingBalance := l.stEndingBalance + [stDebt0], ltEndingBalance := l.ltEndingBalance + [ltDebt0]);
      if ltDebt0 > 0.0 {
        var remainingYears := ltLoanYears * 0.7;
        var annualPayment := if remainingYears > 0.0 then ltDebt0 / remainingYears else ltDebt0;
        l := l.(ltLoansByYear := l.ltLoansByYear + [[ltDebt0]],
                ltPrincipalPaymentsByYear := l.ltPrincipalPaymentsByYear + [[annualPayment]]);
      } else {
        l := l.(ltLoansByYear := l.ltLoansByYear + [[0.0]], ltPrincipalPaymentsByYear := l.ltPrincipalPaymentsByYear + [[0.0]]);
      }
      lists := l;
    }

    /** ST debt of `year`: opens at last year's close, then pays down and borrows. */
    method UpdateStDebt(year: nat, newLoan: real, principalPayment: real)
      requires 1 <= year <= |lists.stEndingBalance|
      modifies this
      ensures lists == StStep(old(lists), year, newLoan, principalPayment)
    {
      var beginning := lists.stEndingBalance[year - 1];
      var ending := Floor0(beginning - principalPayment + newLoan);
      lists := lists.(stBeginningBalance := lists.stBeginningBalance + [beginning],
                      stEndingBalance := lists.stEndingBalance + [ending]);
    }

    /**
     * LT debt of `year`: opens at last year's close, records this year's
     * vintage, and pays the vintages taken before `year`.
     */
    method UpdateLtDebt(year: nat, newLoan: real) returns (principalPayment: real)
      requires 1 <= year <= |lists.ltEndingBalance| && year <= |lists.ltPrincipalPaymentsByYear|
      requires newLoan > 0.0 ==> ltLoanYears != 0.0
      modifies this
      ensures principalPayment == TotalLtPrincipal(old(lists.ltPrincipalPaymentsByYear), year)
      ensures lists == LtStep(old(lists), year, newLoan, ltLoanYears)
    {
      var beginning := lists.ltEndingBalance[year - 1];
      var l := lists.(ltBeginningBalance := lists.ltBeginningBalance + [beginning]);
      if newLoan > 0.0 {
        var annualPayment := newLoan / ltLoanYears;
        l := l.(ltLoansByYear := l.ltLoansByYear + [[newLoan]],
                ltPrincipalPaymentsByYear := l.ltPrincipalPaymentsByYear + [[annualPayment]]);
      } else {
        l := l.(ltLoansByYear := l.ltLoansByYear + [[0.0]], ltPrincipalPaymentsByYear := l.ltPrincipalPaymentsByYear + [[0.0]]);
      }
      lists := l;
      principalPayment := GetTotalLtPrincipalPayment(lists, year);
      TotalLtPrincipalAppend(old(lists.ltPrincipalPaymentsByYear), [VintagePayment(newLoan, ltLoanYears)], year);
      var ending := Floor0(beginning + newLoan - principalPayment);
      lists := lists.(ltEndingBalance := lists.ltEndingBalance + [ending]);
    }
  }

  // ---------------------------------------------------------------------
  // What the updates keep
  // ---------------------------------------------------------------------

  /** One ST and one LT update of year k take a schedule spanning Year 0 .. k-1 to one spanning 0 .. k. */
  lemma YearUpdateSpans(l: DebtLists, k: nat, stNew: real, stPayment: real, ltEnding: real, vintage: real)
    requires k >= 1 && Spans(l, k - 1)
    ensures Spans(l.(stBeginningBalance := l.stBeginningBalance + [l.stEndingBalance[k - 1]],
                     stEndingBalance := l.stEndingBalance + [stNew],
                     ltBeginningBalance := l.ltBeginningBalance + [l.ltEndingBalance[k - 1]],
                     ltLoansByYear := l.ltLoansByYear + [[vintage]],
                     ltPrincipalPaymentsByYear := l.ltPrincipalPaymentsByYear + [[vintage]],
                     ltEndingBalance := l.ltEndingBalance + [ltEnding]), k)
  {
  }

  /** Appending floored balances keeps every computed balance non-negative. */
  lemma AppendKeepsBalancesNonNegative(l: DebtLists, st: real, lt: real)
    requires ComputedBalancesNonNegative(l) && |l.stEndingBalance| >= 1 && |l.ltEndingBalance| >= 1
    requires st >= 0.0 && lt >= 0.0
    ensures ComputedBalancesNonNegative(l.(stEndingBalance := l.stEndingBalance + [st],
                                           ltEndingBalance := l.ltEndingBalance + [lt]))
  {
    var l' := l.(stEndingBalance := l.stEndingBalance + [st], ltEndingBalance := l.ltEndingBalance + [lt]);
    forall k | 1 <= k < |l'.stEndingBalance| ensures l'.stEndingBalance[k] >= 0.0 {
      if k < |l.stEndingBalance| { assert l'.stEndingBalance[k] == l.stEndingBalance[k]; }
    }
    forall k | 1 <= k < |l'.ltEndingBalance| ensures l'.ltEndingBalance[k] >= 0.0 {
      if k < |l.ltEndingBalance| { assert l'.ltEndingBalance[k] == l.ltEndingBalance[k]; }
    }
  }

  /**
   * Every LT closing balance after Year 0 is the previous close less the
   * principal charged that year, floored at zero: no year took a new loan.
   */
  ghost predicate LtClosesWithoutLoans(l: DebtLists) {
    forall k :: 1 <= k < |l.ltEndingBalance| && k <= |l.ltPrincipalPaymentsByYear| ==>
      l.ltEndingBalance[k] == EndingBalance(l.ltEndingBalance[k - 1], TotalLtPrincipal(l.ltPrincipalPaymentsByYear, k), 0.0)
  }

  /** An LT update without a new loan keeps that account, and keeps the vintage payments non-negative. */
  lemma LtStepWithoutLoan(l: DebtLists, year: nat, ltLoanYears: real)
    requires 1 <= year == |l.ltEndingBalance| == |l.ltPrincipalPaymentsByYear|
    requires LtClosesWithoutLoans(l) && PaymentsNonNegative(l.ltPrincipalPaymentsByYear)
    ensures LtClosesWithoutLoans(LtStep(l, year, 0.0, ltLoanYears))
    ensures PaymentsNonNegative(LtStep(l, year, 0.0, ltLoanYears).ltPrincipalPaymentsByYear)
  {
    var l' := LtStep(l, year, 0.0, ltLoanYears);
    var v := [VintagePayment(0.0, ltLoanYears)];
    assert l'.ltPrincipalPaymentsByYear == l.ltPrincipalPaymentsByYear + [v];
    forall k | 1 <= k < |l'.ltEndingBalance| && k <= |l'.ltPrincipalPaymentsByYear|
      ensures l'.ltEndingBalance[k] ==
        EndingBalance(l'.ltEndingBalance[k - 1], TotalLtPrincipal(l'.ltPrincipalPaymentsByYear, k), 0.0)
    {
      TotalLtPrincipalAppend(l.ltPrincipalPaymentsByYear, v, k);
    }
  }

  /**
   * Without new loans, and with non-negative vintage payments and a
   * non-negative Year-0 balance, the LT closing balances never grow from
   * one year to the next.
   */
  lemma LtBalancesNonIncreasing(l: DebtLists)
    requires LtClosesWithoutLoans(l) && PaymentsNonNegative(l.ltPrincipalPaymentsByYear)
    requires |l.ltEndingBalance| <= |l.ltPrincipalPaymentsByYear| + 1
    requires |l.ltEndingBalance| > 0 ==> l.ltEndingBalance[0] >= 0.0
    ensures forall k :: 1 <= k < |l.ltEndingBalance| ==> l.ltEndingBalance[k] <= l.ltEndingBalance[k - 1]
  {
    forall k | 1 <= k < |l.ltEndingBalance|
      ensures l.ltEndingBalance[k] <= l.ltEndingBalance[k - 1]
    {
      if k >= 2 {
        var prior := EndingBalance(l.ltEndingBalance[k - 2], TotalLtPrincipal(l.ltPrincipalPaymentsByYear, k - 1), 0.0);
        assert l.ltEndingBalance[k - 1] == prior;
      }
      TotalLtPrincipalNonNegative(l.ltPrincipalPaymentsByYear, k);
      EndingBalanceNoNewLoan(l.ltEndingBalance[k - 1], TotalLtPrincipal(l.ltPrincipalPaymentsByYear, k));
    }
  }
}
