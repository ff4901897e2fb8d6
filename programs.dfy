// Lending policy common to both copies of the mortgage code: the fixed
// constants, what it means for a credit program to be selected, the
// counting of selected programs, the 20 % down-payment rule and rate
// selection by priority (salary, then military, then base).

module Programs {
  import opened Records

  /** Minimum down payment, in percent of the object cost. */
  const MIN_INITIAL_PAYMENT_PERCENT: real := 20.0
  /** Annual rates, in percent, of the three programs. */
  const SALARY: real := 8.0
  const MILITARY: real := 9.0
  const BASE: real := 10.0

  /** The three credit programs. */
  datatype Kind = Salary | Military | Base

  /** Rate priority: the first selected program in this order decides the rate. */
  const PRIORITY: seq<Kind> := [Salary, Military, Base]

  function Flag(p: Program, k: Kind): Option<bool>
  {
    match k
    case Salary => p.salary
    case Military => p.military
    case Base => p.base
  }

  function RateOf(k: Kind): real
  {
    match k
    case Salary => SALARY
    case Military => MILITARY
    case Base => BASE
  }

  /** A program is selected when its flag is explicitly `true`; an absent flag counts as `false`. */
  predicate Chosen(flag: Option<bool>)
  {
    flag == Some(true)
  }

  predicate NoneChosen(p: Program)
  {
    !Chosen(p.salary) && !Chosen(p.military) && !Chosen(p.base)
  }

  predicate ExactlyOneChosen(p: Program)
  {
    || (Chosen(p.salary) && !Chosen(p.military) && !Chosen(p.base))
    || (!Chosen(p.salary) && Chosen(p.military) && !Chosen(p.base))
    || (!Chosen(p.salary) && !Chosen(p.military) && Chosen(p.base))
  }

  predicate SeveralChosen(p: Program)
  {
    || (Chosen(p.salary) && Chosen(p.military))
    || (Chosen(p.salary) && Chosen(p.base))
    || (Chosen(p.military) && Chosen(p.base))
  }

  /** The vector the program check walks: salary, military, base, each defaulted to `false`. */
  function CheckVec(p: Program): (v: seq<bool>)
    ensures |v| == |PRIORITY|
    ensures forall i :: 0 <= i < |v| ==> (v[i] <==> Chosen(Flag(p, PRIORITY[i])))
  {
    [UnwrapOrDefault(p.salary), UnwrapOrDefault(p.military), UnwrapOrDefault(p.base)]
  }

  /** Number of `true` entries, peeled from the back so that a front-to-back count extends it. */
  function CountTrue(s: seq<bool>): (n: nat)
    ensures n <= |s|
  {
    if s == [] then 0 else CountTrue(s[..|s| - 1]) + (if s[|s| - 1] then 1 else 0)
  }

  /** The count of the check vector classifies the selection: none, exactly one, several. */
  lemma CountClassifies(p: Program)
    ensures CountTrue(CheckVec(p)) == 0 <==> NoneChosen(p)
    ensures CountTrue(CheckVec(p)) == 1 <==> ExactlyOneChosen(p)
    ensures CountTrue(CheckVec(p)) > 1 <==> SeveralChosen(p)
  {
    var v := CheckVec(p);
    assert v[..2][..1] == v[..1] && v[..1][..0] == [] && v[..3] == v;
    assert CountTrue(v) == (if v[0] then 1 else 0) + (if v[1] then 1 else 0) + (if v[2] then 1 else 0);
  }

  /** Every selection is in exactly one of the three classes. */
  lemma SelectionTrichotomy(p: Program)
    ensures NoneChosen(p) || ExactlyOneChosen(p) || SeveralChosen(p)
    ensures !(NoneChosen(p) && ExactlyOneChosen(p))
    ensures !(NoneChosen(p) && SeveralChosen(p))
    ensures !(ExactlyOneChosen(p) && SeveralChosen(p))
  {
  }

  /** The smallest down payment the policy accepts, computed as the source does. */
  function MinimumDownPayment(p: Params): real
  {
    p.objectCost * MIN_INITIAL_PAYMENT_PERCENT / 100.0
  }

  /** The down payment is at least a fifth of the object cost. */
  predicate PaymentCovers(p: Params)
  {
    5.0 * p.initialPayment >= p.objectCost
  }

  lemma BelowMinimumIffNotCovered(p: Params)
    ensures p.initialPayment < MinimumDownPayment(p) <==> !PaymentCovers(p)
  {
  }

  /** Rate selection of both copies: the rate of the first selected program in priority order, if any. */
  function PriorityRate(p: Program): Option<real>
  {
    if Chosen(p.salary) then Some(SALARY)
    else if Chosen(p.military) then Some(MILITARY)
    else if Chosen(p.base) then Some(BASE)
    else None
  }

  /** The first selected program in PRIORITY decides the rate, whatever the later flags say. */
  lemma PriorityRateIsFirstChosen(p: Program, i: nat)
    requires i < |PRIORITY| && Chosen(Flag(p, PRIORITY[i]))
    requires forall j :: 0 <= j < i ==> !Chosen(Flag(p, PRIORITY[j]))
    ensures PriorityRate(p) == Some(RateOf(PRIORITY[i]))
  {
    if i > 0 {
      assert !Chosen(Flag(p, PRIORITY[0]));
    }
    if i > 1 {
      assert !Chosen(Flag(p, PRIORITY[1]));
    }
  }

  /** No rate exactly when no program is selected. */
  lemma PriorityRateNone(p: Program)
    ensures PriorityRate(p).None? <==> NoneChosen(p)
  {
  }

  /** With a single program selected, the priority order does not matter: that program's rate is taken. */
  lemma SingleProgramRate(p: Program, k: Kind)
    requires ExactlyOneChosen(p) && Chosen(Flag(p, k))
    ensures PriorityRate(p) == Some(RateOf(k))
  {
  }
}
