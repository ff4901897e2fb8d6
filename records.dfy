// Value types shared by the live and the legacy mortgage code, by the
// result cache and by the HTTP handlers: the fields of `Mortgage`
// (Params, Program, Aggregates), the request body and the cache response.
//
// Every `f64` of the service is modelled as a Dafny `real`: an idealisation
// that ignores rounding. At the exact 20 % down-payment boundary the two can
// differ: with cost 9.56 and payment 1.912, `9.56 * 20.0 / 100.0` rounds to
// 1.9120000000000001 in doubles, so the service rejects what `real` accepts.

module Records {
  import opened Errors

  datatype Option<T> = None | Some(value: T)

  /** Rust `u8` (the loan term in months). */
  type U8 = x: int | 0 <= x < 0x100

  /** Rust `u32` (cache identifiers). */
  type U32 = x: int | 0 <= x < 0x1_0000_0000

  /** Credit parameters, copied from the request. */
  datatype Params = Params(objectCost: real, initialPayment: real, months: U8)

  /** The three optional program flags, in the field order of the source. */
  datatype Program = Program(base: Option<bool>, military: Option<bool>, salary: Option<bool>)

  /** Derived values, filled in stage by stage. */
  datatype Aggregates = Aggregates(
    rate: real,
    loanSum: real,
    monthlyPayment: real,
    overpayment: real,
    lastPaymentDate: string)

  /** The value of one `Mortgage`: what a `.clone()` copies and the cache stores. */
  datatype LoanRecord = LoanRecord(params: Params, program: Program, aggregates: Aggregates)

  /** Body of a calculation request. */
  datatype Request = Request(objectCost: real, initialPayment: real, months: U8, program: Program)

  /** One element of the cache listing: a stored record tagged with its key. */
  datatype Response = Response(id: U32, params: Params, program: Program, aggregates: Aggregates)

  /** `Result<(), AppError>`, plus `Panic` for an `unwrap()` on `None`. */
  datatype Outcome = Ok | Err(error: AppError) | Panic

  const DefaultParams: Params := Params(0.0, 0.0, 0)
  const DefaultProgram: Program := Program(None, None, None)
  const DefaultAggregates: Aggregates := Aggregates(0.0, 0.0, 0.0, 0.0, "")
  const DefaultResponse: Response := Response(0, DefaultParams, DefaultProgram, DefaultAggregates)

  /** `Option<bool>::unwrap_or_default`. */
  function UnwrapOrDefault(flag: Option<bool>): (b: bool)
    ensures b <==> flag == Some(true)
  {
    match flag
    case None => false
    case Some(v) => v
  }
}
