// The two HTTP handlers over the core. `mortgage` builds a record from the
// request, runs the stages in a fixed order (program check, down-payment
// check, loan sum, rate, monthly payment, overpayment, last payment date),
// stops at the first stage that fails, and only then stores a copy of the
// record in the cache. `cache` lists every stored record tagged with its
// key, or reports an empty cache.

module Handler {
  import opened Errors
  import opened Records
  import opened Programs
  import opened Entities
  import opened Cache

  /** How a calculation request ends: a record, a reported error, or an aborted task. */
  datatype Reply = Computed(loan: LoanRecord) | Rejected(error: AppError) | Panicked

  /** How a listing request ends. */
  datatype Listing = Listed(responses: seq<Response>) | ListFailed(error: AppError)

  /** The record every later stage derives from the parameters, the program and the chosen rate. */
  function Derived(p: Params, program: Program, rate: real, annuity: Annuity, calendar: Calendar): (loan: LoanRecord)
    ensures loan.params == p && loan.program == program && loan.aggregates.rate == rate
    ensures loan.aggregates.loanSum + p.initialPayment == p.objectCost
    ensures loan.aggregates.monthlyPayment == annuity(rate, loan.aggregates.loanSum, p.months)
    ensures loan.aggregates.loanSum + loan.aggregates.overpayment == loan.aggregates.monthlyPayment * p.months as real
    ensures loan.aggregates.lastPaymentDate == calendar(p.months)
  {
    var loanSum := p.objectCost - p.initialPayment;
    var monthly := annuity(rate, loanSum, p.months);
    LoanRecord(p, program, Aggregates(rate, loanSum, monthly, monthly * p.months as real - loanSum, calendar(p.months)))
  }

  /** The calculation endpoint on values, stage by stage, with the live stages. */
  function LivePipeline(req: Request, annuity: Annuity, calendar: Calendar): Reply
  {
    var p := NewRecord(req).params;
    if SeveralChosen(req.program) then Rejected(LoanProgramMoreThanOne)
    else if !PaymentCovers(p) then Rejected(MinInitialPayment)
    else
      match LiveRate(req.program)
      case Unwrapped => Panicked
      case NoProgram => Rejected(LoanProgramEmpty)
      case Picked(rate) => Computed(Derived(p, req.program, rate, annuity, calendar))
  }

  /** The calculation endpoint as the live rate selection evidently intends it: absent flags count as `false`. */
  function CorrectedPipeline(req: Request, annuity: Annuity, calendar: Calendar): Reply
  {
    var p := NewRecord(req).params;
    if SeveralChosen(req.program) then Rejected(LoanProgramMoreThanOne)
    else if !PaymentCovers(p) then Rejected(MinInitialPayment)
    else
      match PriorityRate(req.program)
      case None => Rejected(LoanProgramEmpty)
      case Some(rate) => Computed(Derived(p, req.program, rate, annuity, calendar))
  }

  /** The `mortgage` endpoint: the stages in order, then one insert of the finished record. */
  method HandleMortgage(state: AppState, req: Request, annuity: Annuity, calendar: Calendar) returns (reply: Reply)
    requires state.Valid()
    requires LivePipeline(req, annuity, calendar).Computed? ==> state.id < MAX_U32
    modifies state
    ensures state.Valid()
    ensures reply == LivePipeline(req, annuity, calendar)
    ensures reply.Computed? ==> state.View() == Put(old(state.View()), reply.loan)
    ensures !reply.Computed? ==> state.View() == old(state.View())
  {
    var loan := new Mortgage(req);
    var r := loan.LoanProgramCheck();
    if r != Ok {
      return Rejected(r.error);
    }
    r := loan.MinInitialPaymentCheck();
    if r != Ok {
      return Rejected(r.error);
    }
    loan.LoanSumCalc();
    r := loan.RateCalc();
    if r == Panic {
      return Panicked;
    }
    if r != Ok {
      return Rejected(r.error);
    }
    loan.MonthlyPaymentCalc(annuity);
    loan.OverpaymentCalc();
    loan.LastPaymentDateCalc(calendar);
    state.Insert(loan.Record());
    return Computed(loan.Record());
  }

  /** One element of the listing: the stored record under key `k`. */
  function ToResponse(k: U32, loan: LoanRecord): (r: Response)
    ensures r.id == k && r.params == loan.params && r.program == loan.program && r.aggregates == loan.aggregates
  {
    Response(k, loan.params, loan.program, loan.aggregates)
  }

  /** The `cache` endpoint: every entry, once, as a response tagged with its key; in no fixed order. */
  method HandleCache(state: AppState) returns (listing: Listing)
    ensures listing.ListFailed? <==> |state.cache| == 0
    ensures listing.ListFailed? ==> listing.error == EmptyCache
    ensures listing.Listed? ==> |listing.responses| == |state.cache|
    ensures listing.Listed? ==> forall i :: 0 <= i < |listing.responses| ==>
      listing.responses[i].id in state.cache &&
      listing.responses[i] == ToResponse(listing.responses[i].id, state.cache[listing.responses[i].id])
    ensures listing.Listed? ==> forall k :: k in state.cache ==>
      exists i :: 0 <= i < |listing.responses| && listing.responses[i].id == k
    ensures listing.Listed? ==> forall i, j :: 0 <= i < j < |listing.responses| ==>
      listing.responses[i].id != listing.responses[j].id
  {
    var cache := state.cache;
    if |cache| == 0 {
      return ListFailed(EmptyCache);
    }
    var response: seq<Response> := [];
    var r := DefaultResponse;
    var rest := cache.Keys;
    assert |rest| == |cache|;
    while rest != {}
      invariant rest <= cache.Keys
      invariant |response| + |rest| == |cache|
      invariant forall i :: 0 <= i < |response| ==>
        response[i].id in cache && response[i].id !in rest &&
        response[i] == ToResponse(response[i].id, cache[response[i].id])
      invariant forall k :: k in cache && k !in rest ==>
        exists i :: 0 <= i < |response| && response[i].id == k
      invariant forall i, j :: 0 <= i < j < |response| ==> response[i].id != response[j].id
      decreases rest
    {
      var k :| k in rest;
      var v := cache[k];
      r := r.(id := k);
      r := r.(params := r.params.(objectCost := v.params.objectCost));
      r := r.(params := r.params.(initialPayment := v.params.initialPayment));
      r := r.(params := r.params.(months := v.params.months));
      r := r.(program := v.program);
      r := r.(aggregates := r.aggregates.(rate := v.aggregates.rate));
      r := r.(aggregates := r.aggregates.(loanSum := v.aggregates.loanSum));
      r := r.(aggregates := r.aggregates.(monthlyPayment := v.aggregates.monthlyPayment));
      r := r.(aggregates := r.aggregates.(overpayment := v.aggregates.overpayment));
      r := r.(aggregates := r.aggregates.(lastPaymentDate := v.aggregates.lastPaymentDate));
      ghost var before := response;
      response := response + [r];
      rest := rest - {k};
      forall k' | k' in cache && k' !in rest
        ensures exists i :: 0 <= i < |response| && response[i].id == k'
      {
        if k' == k {
          assert response[|before|].id == k';
        } else {
          var i :| 0 <= i < |before| && before[i].id == k';
          assert response[i].id == k';
        }
      }
    }
    return Listed(response);
  }

  /** The program check runs first: several selected programs are rejected whatever else the request says. */
  lemma ProgramCheckComesFirst(req: Request, annuity: Annuity, calendar: Calendar)
    ensures LivePipeline(req, annuity, calendar) == Rejected(LoanProgramMoreThanOne) <==> SeveralChosen(req.program)
  {
  }

  /** The down-payment check runs second: it decides whenever the program check passed. */
  lemma PaymentCheckComesSecond(req: Request, annuity: Annuity, calendar: Calendar)
    ensures LivePipeline(req, annuity, calendar) == Rejected(MinInitialPayment) <==>
      !SeveralChosen(req.program) && !PaymentCovers(Params(req.objectCost, req.initialPayment, req.months))
  {
  }

  /** With no program selected, a short down payment is what gets reported, because the live program check lets zero programs pass. */
  lemma NoProgramShortPaymentReportsPayment(req: Request, annuity: Annuity, calendar: Calendar)
    requires NoneChosen(req.program)
    requires !PaymentCovers(Params(req.objectCost, req.initialPayment, req.months))
    ensures LivePipeline(req, annuity, calendar) == Rejected(MinInitialPayment)
  {
  }

  /** A request is computed exactly when one program is selected, the down payment covers 20 %, and no absent flag is reached. */
  lemma LiveComputedIff(req: Request, annuity: Annuity, calendar: Calendar)
    ensures LivePipeline(req, annuity, calendar).Computed? <==>
      ExactlyOneChosen(req.program) &&
      PaymentCovers(Params(req.objectCost, req.initialPayment, req.months)) &&
      !ReachesAbsentFlag(req.program)
  {
    LiveRatePanicsIff(req.program);
    LiveRateNoProgramIff(req.program);
    LiveRatePicksPriorityRate(req.program);
    SelectionTrichotomy(req.program);
  }

  /** The live endpoint aborts exactly when both checks pass and the rate selection reaches an absent flag. */
  lemma LivePanicsIff(req: Request, annuity: Annuity, calendar: Calendar)
    ensures LivePipeline(req, annuity, calendar) == Panicked <==>
      !SeveralChosen(req.program) &&
      PaymentCovers(Params(req.objectCost, req.initialPayment, req.months)) &&
      ReachesAbsentFlag(req.program)
  {
    LiveRatePanicsIff(req.program);
  }

  /** A computed record carries the request, the selected program's rate and the derived aggregates. */
  lemma LiveComputedRecord(req: Request, annuity: Annuity, calendar: Calendar, k: Kind)
    requires LivePipeline(req, annuity, calendar).Computed?
    requires Chosen(Flag(req.program, k))
    ensures LivePipeline(req, annuity, calendar).loan ==
      Derived(Params(req.objectCost, req.initialPayment, req.months), req.program, RateOf(k), annuity, calendar)
  {
  }

  /** Whenever the live endpoint does not abort, it answers as the corrected one does. */
  lemma LiveAgreesWithCorrected(req: Request, annuity: Annuity, calendar: Calendar)
    ensures LivePipeline(req, annuity, calendar) != Panicked ==>
      LivePipeline(req, annuity, calendar) == CorrectedPipeline(req, annuity, calendar)
  {
  }

  /** As written: the only program named is `military`, so `salary` is absent and unwrapping it aborts the request. */
  lemma MilitaryOnlyRequestPanics(annuity: Annuity, calendar: Calendar)
    ensures LivePipeline(Request(100.0, 30.0, 12, Program(None, Some(true), None)), annuity, calendar) == Panicked
    ensures CorrectedPipeline(Request(100.0, 30.0, 12, Program(None, Some(true), None)), annuity, calendar).Computed?
  {
  }

  /** Corrected: every request ends in a record or a named error, exactly one program selected being the condition for a record. */
  lemma CorrectedPipelineOutcomes(req: Request, annuity: Annuity, calendar: Calendar)
    ensures CorrectedPipeline(req, annuity, calendar) != Panicked
    ensures CorrectedPipeline(req, annuity, calendar).Computed? <==>
      ExactlyOneChosen(req.program) && PaymentCovers(Params(req.objectCost, req.initialPayment, req.months))
    ensures CorrectedPipeline(req, annuity, calendar) == Rejected(LoanProgramEmpty) <==>
      NoneChosen(req.program) && PaymentCovers(Params(req.objectCost, req.initialPayment, req.months))
    ensures CorrectedPipeline(req, annuity, calendar) == Rejected(LoanProgramMoreThanOne) <==> SeveralChosen(req.program)
  {
  }

  /** An empty cache is reported; after one computed request the listing holds that record under key 0. */
  method TestStoreThenList()
  {
    var state := new AppState();
    var listing := HandleCache(state);
    assert listing == ListFailed(EmptyCache);

    var req := Request(100.0, 30.0, 12, Program(Some(true), Some(false), Some(false)));
    var reply := HandleMortgage(state, req, (rate: real, sum: real, months: U8) => 7.0, (months: U8) => "2027-10-19");
    assert reply.Computed?;
    assert reply.loan.aggregates.rate == BASE && reply.loan.aggregates.loanSum == 70.0;
    assert reply.loan.aggregates.overpayment == 14.0;

    listing := HandleCache(state);
    assert listing.Listed? && |listing.responses| == 1;
    assert listing.responses[0] == ToResponse(0, reply.loan);
  }
}
