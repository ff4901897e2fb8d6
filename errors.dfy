// The service's error taxonomy and its HTTP mapping: four validation or
// state errors, each with a fixed message, all reported as 400 Bad Request
// with a JSON body `{"error": <message>}`.

module Errors {

  datatype AppError = LoanProgramEmpty | LoanProgramMoreThanOne | MinInitialPayment | EmptyCache

  /** Every error kind the service has. */
  const AllErrors: set<AppError> :=
    {LoanProgramEmpty, LoanProgramMoreThanOne, MinInitialPayment, EmptyCache}

  /** HTTP 400. */
  const BAD_REQUEST: int := 400

  /** The JSON body `{"error": ...}`. */
  datatype ErrorBody = ErrorBody(error: string)

  /** What `into_response` produces: a status code and a body. */
  datatype ErrorResponse = ErrorResponse(status: int, body: ErrorBody)

  /** The `Display` text of each variant. */
  function Message(e: AppError): string
  {
    match e
    case LoanProgramEmpty => "choose credit program"
    case LoanProgramMoreThanOne => "choose only 1 credit program"
    case MinInitialPayment => "the initial payment should be more"
    case EmptyCache => "empty cache"
  }

  /** `IntoResponse for AppError`: every variant is a Bad Request carrying its message. */
  function IntoResponse(e: AppError): (r: ErrorResponse)
    ensures r.status == BAD_REQUEST
    ensures r.body.error == Message(e)
  {
    ErrorResponse(BAD_REQUEST, ErrorBody(Message(e)))
  }

  /** There are exactly four error kinds. */
  lemma ExactlyFourKinds()
    ensures forall e: AppError :: e in AllErrors
    ensures |AllErrors| == 4
  {
    forall e: AppError ensures e in AllErrors {
      match e
      case LoanProgramEmpty =>
      case LoanProgramMoreThanOne =>
      case MinInitialPayment =>
      case EmptyCache =>
    }
  }

  /** No two error kinds share a message. */
  lemma MessagesDistinct(e1: AppError, e2: AppError)
    ensures Message(e1) == Message(e2) ==> e1 == e2
  {
    // the four messages have four different lengths
  }

  /** Although all statuses are equal, the responses of different kinds differ. */
  lemma ResponsesDistinguishKinds(e1: AppError, e2: AppError)
    ensures IntoResponse(e1) == IntoResponse(e2) ==> e1 == e2
  {
  }
}
