// The live `Mortgage` of the service: a record whose validation and
// derivation steps update its aggregates in place. Compared with the
// legacy copy, its program check rejects only several selected programs,
// and its rate selection unwraps each optional flag, so that it aborts
// (Panic) on an absent flag and reports LoanProgramEmpty when it runs out
// of flags.
//
// The annuity formula (`monthly_payment_calc`) and the clock read of
// `last_payment_date_calc` are parameters: `Annuity` gives the monthly
// payment for a rate, a loan sum and a term, and `Calendar` gives the
// formatted date a number of months after the current date.

module Entities {
  import opened Errors
  import opened Records
  import opened Programs

  type Annuity = (real, real, U8) -> real
  type Calendar = U8 -> string

  /** How the live rate selection ends. */
  datatype RateStep = Picked(rate: real) | NoProgram | Unwrapped

  /** The live rate selection: salary, military, base are unwrapped in turn until one is `true`. */
  function LiveRate(p: Program): RateStep
  {
    match p.salary
    case None => Unwrapped
    case Some(true) => Picked(SALARY)
    case Some(false) =>
      match p.military
      case None => Unwrapped
      case Some(true) => Picked(MILITARY)
      case Some(false) =>
        match p.base
        case None => Unwrapped
        case Some(true) => Picked(BASE)
        case Some(false) => NoProgram
  }

  /** Some flag is absent while every flag before it in priority order is explicitly `false`. */
  predicate ReachesAbsentFlag(p: Program)
  {
    exists i :: 0 <= i < |PRIORITY| && Flag(p, PRIORITY[i]).None? &&
      (forall j :: 0 <= j < i ==> Flag(p, PRIORITY[j]) == Some(false))
  }

  /** The live rate selection aborts exactly when a flag it reaches, before any `true` one, is absent. */
  lemma LiveRatePanicsIff(p: Program)
    ensures LiveRate(p).Unwrapped? <==> ReachesAbsentFlag(p)
  {
    if LiveRate(p).Unwrapped? {
      if p.salary.None? {
        assert Flag(p, PRIORITY[0]).None?;
      } else if p.military.None? {
        assert Flag(p, PRIORITY[1]).None?;
      } else {
        assert Flag(p, PRIORITY[2]).None?;
      }
    }
    if ReachesAbsentFlag(p) {
      var i :| 0 <= i < |PRIORITY| && Flag(p, PRIORITY[i]).None? &&
        (forall j :: 0 <= j < i ==> Flag(p, PRIORITY[j]) == Some(false));
      if i > 0 {
        assert Flag(p, PRIORITY[0]) == Some(false);
      }
      if i > 1 {
        assert Flag(p, PRIORITY[1]) == Some(false);
      }
    }
  }

  /** It reports no program exactly when all three flags are explicitly `false`. */
  lemma LiveRateNoProgramIff(p: Program)
    ensures LiveRate(p).NoProgram? <==>
      p.salary == Some(false) && p.military == Some(false) && p.base == Some(false)
  {
  }

  /** When it picks a rate, that is the priority rate of the selection. */
  lemma LiveRatePicksPriorityRate(p: Program)
    ensures LiveRate(p).Picked? ==> PriorityRate(p) == Some(LiveRate(p).rate)
    ensures !LiveRate(p).Unwrapped? ==> (LiveRate(p).Picked? <==> !NoneChosen(p))
  {
  }

  /** The record built by `new` from a request, before any stage ran. */
  function NewRecord(req: Request): (loan: LoanRecord)
    ensures loan.params.objectCost == req.objectCost && loan.params.initialPayment == req.initialPayment
    ensures loan.params.months == req.months && loan.program == req.program
    ensures loan.aggregates == DefaultAggregates
  {
    LoanRecord(Params(req.objectCost, req.initialPayment, req.months), req.program, DefaultAggregates)
  }

  class Mortgage {
    var params: Params
    var program: Program
    var aggregates: Aggregates

    /** The value a `.clone()` of this mortgage copies. */
    function Record(): LoanRecord
      reads this
    {
      LoanRecord(params, program, aggregates)
    }

    /** `Mortgage::new`: the request's parameters and flags verbatim, default aggregates. */
    constructor (req: Request)
      ensures Record() == NewRecord(req)
    {
      params := Params(req.objectCost, req.initialPayment, req.months);
      program := Program(req.program.base, req.program.military, req.program.salary);
      aggregates := DefaultAggregates;
    }

    /** Rejects a request that selects more than one program; zero selected programs pass. */
    method LoanProgramCheck() returns (r: Outcome)
      ensures r == Ok <==> !SeveralChosen(program)
      ensures r != Ok ==> r == Err(LoanProgramMoreThanOne)
    {
      var counter := 0;
      var checkVec := [UnwrapOrDefault(program.salary), UnwrapOrDefault(program.military), UnwrapOrDefault(program.base)];
      var i := 0;
      while i < |checkVec|
        invariant 0 <= i <= |checkVec|
        invariant counter == CountTrue(checkVec[..i])
      {
        if checkVec[i] {
          counter := counter + 1;
        }
        assert checkVec[..i + 1][..i] == checkVec[..i];
        i := i + 1;
      }
      assert checkVec[..i] == CheckVec(program);
      CountClassifies(program);
      if counter > 1 {
        return Err(LoanProgramMoreThanOne);
      }
      return Ok;
    }

    /** Rejects a down payment below 20 % of the object cost. */
    method MinInitialPaymentCheck() returns (r: Outcome)
      ensures r == Ok <==> PaymentCovers(params)
      ensures r != Ok ==> r == Err(MinInitialPayment)
    {
      if params.initialPayment < params.objectCost * MIN_INITIAL_PAYMENT_PERCENT / 100.0 {
        return Err(MinInitialPayment);
      }
      return Ok;
    }

    /** The loan sum is what the down payment leaves of the object cost. */
    method LoanSumCalc()
      modifies this
      ensures params == old(params) && program == old(program)
      ensures aggregates == old(aggregates).(loanSum := aggregates.loanSum)
      ensures aggregates.loanSum + params.initialPayment == params.objectCost
    {
      aggregates := aggregates.(loanSum := params.objectCost - params.initialPayment);
    }

    /** Rate by priority; aborts on an absent flag, reports LoanProgramEmpty when every flag is `false`. */
    method RateCalc() returns (r: Outcome)
      modifies this
      ensures params == old(params) && program == old(program)
      ensures r == Ok <==> LiveRate(program).Picked?
      ensures r == Panic <==> LiveRate(program).Unwrapped?
      ensures r == Err(LoanProgramEmpty) <==> LiveRate(program).NoProgram?
      ensures r == Ok ==> aggregates == old(aggregates).(rate := LiveRate(program).rate)
      ensures r != Ok ==> aggregates == old(aggregates)
    {
      if program.salary.None? {
        return Panic;
      }
      if program.salary.value {
        aggregates := aggregates.(rate := SALARY);
        return Ok;
      }
      if program.military.None? {
        return Panic;
      }
      if program.military.value {
        aggregates := aggregates.(rate := MILITARY);
        return Ok;
      }
      if program.base.None? {
        return Panic;
      }
      if program.base.value {
        aggregates := aggregates.(rate := BASE);
        return Ok;
      }
      return Err(LoanProgramEmpty);
    }

    /** The monthly payment for the current rate, loan sum and term. */
    method MonthlyPaymentCalc(annuity: Annuity)
      modifies this
      ensures params == old(params) && program == old(program)
      ensures aggregates == old(aggregates).(monthlyPayment := annuity(aggregates.rate, aggregates.loanSum, params.months))
    {
      aggregates := aggregates.(monthlyPayment := annuity(aggregates.rate, aggregates.loanSum, params.months));
    }

    /** The overpayment is what all monthly payments together exceed the loan sum by. */
    method OverpaymentCalc()
      modifies this
      ensures params == old(params) && program == old(program)
      ensures aggregates == old(aggregates).(overpayment := aggregates.overpayment)
      ensures aggregates.loanSum + aggregates.overpayment == aggregates.monthlyPayment * params.months as real
    {
      aggregates := aggregates.(overpayment := aggregates.monthlyPayment * params.months as real - aggregates.loanSum);
    }

    /** The date of the last payment: the term in months after the current date. */
    method LastPaymentDateCalc(calendar: Calendar)
      modifies this
      ensures params == old(params) && program == old(program)
      ensures aggregates == old(aggregates).(lastPaymentDate := calendar(params.months))
    {
      aggregates := aggregates.(lastPaymentDate := calendar(params.months));
    }
  }
}
