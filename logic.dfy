// The legacy copy of `Mortgage` (not compiled into the service). Its
// program check is two-sided: it rejects both zero and several selected
// programs. Its rate selection defaults absent flags to `false` and has no
// else branch, so it never fails and leaves the rate alone when no program
// is selected. The unit tests of that copy are the client methods at the
// end of the module.

module LegacyLogic {
  import opened Errors
  import opened Records
  import opened Programs
  import Entities

  class Mortgage {
    var params: Params
    var program: Program
    var aggregates: Aggregates

    /** The value a `.clone()` of this mortgage copies. */
    function Record(): LoanRecord
      reads this
    {
      LoanRecord(params, program, aggregates)
    }

    /** `Mortgage::new`: the request's parameters and flags verbatim, default aggregates. */
    constructor (req: Request)
      ensures Record() == Entities.NewRecord(req)
    {
      params := Params(req.objectCost, req.initialPayment, req.months);
      program := Program(req.program.base, req.program.military, req.program.salary);
      aggregates := DefaultAggregates;
    }

    /** `Mortgage::default()`: zero parameters, no flag present, default aggregates. */
    constructor Default()
      ensures Record() == LoanRecord(DefaultParams, DefaultProgram, DefaultAggregates)
    {
      params := DefaultParams;
      program := DefaultProgram;
      aggregates := DefaultAggregates;
    }

    /** Accepts exactly one selected program; names the reason otherwise. */
    method LoanProgramCheck() returns (r: Outcome)
      ensures r == Ok <==> ExactlyOneChosen(program)
      ensures r == Err(LoanProgramMoreThanOne) <==> SeveralChosen(program)
      ensures r == Err(LoanProgramEmpty) <==> NoneChosen(program)
    {
      var counter := 0;
      var checkVec := [UnwrapOrDefault(program.salary), UnwrapOrDefault(program.military), UnwrapOrDefault(program.base)];
      var i := 0;
      while i < |checkVec|
        invariant 0 <= i <= |checkVec|
        invariant counter == CountTrue(checkVec[..i])
      {
        if checkVec[i] {
          counter := counter + 1;
        }
        assert checkVec[..i + 1][..i] == checkVec[..i];
        i := i + 1;
      }
      assert checkVec[..i] == CheckVec(program);
      CountClassifies(program);
      if counter > 1 {
        return Err(LoanProgramMoreThanOne);
      }
      if counter == 0 {
        return Err(LoanProgramEmpty);
      }
      return Ok;
    }

    /** Rejects a down payment below 20 % of the object cost. */
    method MinInitialPaymentCheck() returns (r: Outcome)
      ensures r == Ok <==> PaymentCovers(params)
      ensures r != Ok ==> r == Err(MinInitialPayment)
    {
      if params.initialPayment < params.objectCost * MIN_INITIAL_PAYMENT_PERCENT / 100.0 {
        return Err(MinInitialPayment);
      }
      return Ok;
    }

    /** The loan sum is what the down payment leaves of the object cost. */
    method LoanSumCalc()
      modifies this
      ensures params == old(params) && program == old(program)
      ensures aggregates == old(aggregates).(loanSum := aggregates.loanSum)
      ensures aggregates.loanSum + params.initialPayment == params.objectCost
    {
      aggregates := aggregates.(loanSum := params.objectCost - params.initialPayment);
    }

    /** Rate by priority; with no program selected nothing changes. */
    method RateCalc()
      modifies this
      ensures params == old(params) && program == old(program)
      ensures PriorityRate(program).Some? ==> aggregates == old(aggregates).(rate := PriorityRate(program).value)
      ensures PriorityRate(program).None? ==> aggregates == old(aggregates)
    {
      if UnwrapOrDefault(program.salary) {
        aggregates := aggregates.(rate := SALARY);
      } else if UnwrapOrDefault(program.military) {
        aggregates := aggregates.(rate := MILITARY);
      } else if UnwrapOrDefault(program.base) {
        aggregates := aggregates.(rate := BASE);
      }
    }

    /** The monthly payment for the current rate, loan sum and term. */
    method MonthlyPaymentCalc(annuity: Entities.Annuity)
      modifies this
      ensures params == old(params) && program == old(program)
      ensures aggregates == old(aggregates).(monthlyPayment := annuity(aggregates.rate, aggregates.loanSum, params.months))
    {
      aggregates := aggregates.(monthlyPayment := annuity(aggregates.rate, aggregates.loanSum, params.months));
    }

    /** The overpayment is what all monthly payments together exceed the loan sum by. */
    method OverpaymentCalc()
      modifies this
      ensures params == old(params) && program == old(program)
      ensures aggregates == old(aggregates).(overpayment := aggregates.overpayment)
      ensures aggregates.loanSum + aggregates.overpayment == aggregates.monthlyPayment * params.months as real
    {
      aggregates := aggregates.(overpayment := aggregates.monthlyPayment * params.months as real - aggregates.loanSum);
    }

    /** The date of the last payment: the term in months after the current date. */
    method LastPaymentDateCalc(calendar: Entities.Calendar)
      modifies this
      ensures params == old(params) && program == old(program)
      ensures aggregates == old(aggregates).(lastPaymentDate := calendar(params.months))
    {
      aggregates := aggregates.(lastPaymentDate := calendar(params.months));
    }
  }

  // The unit tests of the legacy copy, as clients of the contracts above.

  method TestLoanProgramCheck()
  {
    var loan := new Mortgage.Default();
    loan.program := loan.program.(salary := Some(true));
    var r := loan.LoanProgramCheck();
    assert r == Ok;

    loan := new Mortgage.Default();
    loan.program := loan.program.(salary := Some(true), military := Some(true));
    r := loan.LoanProgramCheck();
    assert r == Err(LoanProgramMoreThanOne);

    loan := new Mortgage.Default();
    r := loan.LoanProgramCheck();
    assert r == Err(LoanProgramEmpty);
  }

  method TestMinInitialPaymentCheck()
  {
    var loan := new Mortgage.Default();
    loan.params := loan.params.(objectCost := 100.0, initialPayment := 25.0);
    var r := loan.MinInitialPaymentCheck();
    assert r == Ok;

    loan.params := loan.params.(initialPayment := 10.0);
    r := loan.MinInitialPaymentCheck();
    assert r == Err(MinInitialPayment);
  }

  method TestLoanSumCalc()
  {
    var loan := new Mortgage.Default();
    loan.params := loan.params.(objectCost := 100.0, initialPayment := 25.0);
    loan.LoanSumCalc();
    assert loan.aggregates.loanSum == 75.0;
  }

  method TestRateCalc()
  {
    var loan := new Mortgage.Default();
    loan.program := loan.program.(salary := Some(true));
    loan.RateCalc();
    assert loan.aggregates.rate == SALARY;

    loan := new Mortgage.Default();
    loan.program := loan.program.(military := Some(true));
    loan.RateCalc();
    assert loan.aggregates.rate == MILITARY;

    loan := new Mortgage.Default();
    loan.program := loan.program.(base := Some(true));
    loan.RateCalc();
    assert loan.aggregates.rate == BASE;
  }

  method TestOverpaymentCalc()
  {
    var loan := new Mortgage.Default();
    loan.aggregates := loan.aggregates.(monthlyPayment := 100.0, loanSum := 1000.0);
    loan.params := loan.params.(months := 60);
    loan.OverpaymentCalc();
    assert loan.aggregates.overpayment == 5000.0;
  }
}
