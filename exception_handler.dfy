/**
 * GlobalExceptionHandler: the HTTP status and body each failure is answered with, and the
 * unwrapping of a CompletionException into the response its cause gets.
 */
module ExceptionHandler {
  import opened Outcomes
  import opened Failures

  const StatusOk := 200
  const StatusBadRequest := 400
  const StatusForbidden := 403
  const StatusNotFound := 404
  const StatusInternalError := 500

  const InternalErrorKey := "INTERNAL_ERROR"
  const UnexpectedMessage := "An unexpected error occurred"
  const BlacklistedMessage := "Blacklisted IBANs found"

  /**
   * The body of a response: an ErrorResponse (key and message; its details map is always empty),
   * or the InvoiceScanResponse sent for blacklisted IBANs, whose two lists may be null.
   */
  datatype Body =
    | ErrorBody(errorKey: string, errorMessage: string)
    | ScanBody(message: string, validIbans: Option<seq<string>>, blackListedIbans: Option<seq<string>>)

  datatype Response = Response(status: int, body: Body)

  /**
   * What reaches the handler: one of the service's failures, a CompletionException with its message
   * and possibly null cause, or any other Throwable that is neither a RuntimeException nor an IOException.
   */
  datatype Thrown =
    | Raised(failure: Failure)
    | Completion(message: string, cause: Option<Thrown>)
    | OtherThrowable(message: string)

  /** The handle* method for each failure kind, as Spring selects it by the exception's class. */
  function HandleFailure(f: Failure): (r: Response)
    ensures r.status in {StatusOk, StatusBadRequest, StatusForbidden, StatusNotFound, StatusInternalError}
    ensures r.body.ScanBody? <==> f.BlacklistedFound?
  {
    match f
    case InvalidUrl(m) => Response(StatusBadRequest, ErrorBody("INVALID_URL", m))
    case PdfNotFound(m) => Response(StatusNotFound, ErrorBody("PDF_NOT_FOUND", m))
    case NoIbanFound(m) => Response(StatusOk, ErrorBody("NO_IBAN_FOUND", m))
    case InvalidIbans(m) => Response(StatusOk, ErrorBody("INVALID_IBANS_PRESENT", m))
    case IllegalArgument(m) => Response(StatusBadRequest, ErrorBody("ILLEGAL_ARGUMENT", m))
    case BlacklistedFound(blacklisted, _) => Response(StatusForbidden, ScanBody(BlacklistedMessage, None, Some(blacklisted)))
    case PdfProcessing(m) => Response(StatusBadRequest, ErrorBody("PDF_PROCESSING", m))
    case IOError(m) => Response(StatusInternalError, ErrorBody(InternalErrorKey, m))
    case Runtime(m) => Response(StatusInternalError, ErrorBody(InternalErrorKey, m))
  }

  /**
   * handleCompletionException: the cause's own handler for each known kind; a CompletionException
   * as cause is a RuntimeException and goes to the generic handler; a null or unknown cause gets
   * 500 "An unexpected error occurred".
   */
  function HandleCompletion(cause: Option<Thrown>): (r: Response)
    ensures !(cause.Some? && cause.value.Raised?) ==>
      r.status == StatusInternalError && r.body.ErrorBody? && r.body.errorKey == InternalErrorKey
  {
    match cause
    case None => Response(StatusInternalError, ErrorBody(InternalErrorKey, UnexpectedMessage))
    case Some(Raised(f)) => HandleFailure(f)
    case Some(Completion(m, _)) => Response(StatusInternalError, ErrorBody(InternalErrorKey, m))
    case Some(OtherThrowable(_)) => Response(StatusInternalError, ErrorBody(InternalErrorKey, UnexpectedMessage))
  }

  /**
   * The advice as a whole: the response for a thrown exception, or None when no handler of this
   * class applies (a checked exception other than IOException).
   */
  function Handle(t: Thrown): (r: Option<Response>)
    ensures r.None? <==> t.OtherThrowable?
  {
    match t
    case Raised(f) => Some(HandleFailure(f))
    case Completion(_, cause) => Some(HandleCompletion(cause))
    case OtherThrowable(_) => None
  }

  /** Whether a failure is answered with an ErrorResponse under the shared key INTERNAL_ERROR. */
  predicate IsInternal(f: Failure) {
    f.IOError? || f.Runtime?
  }

  /**
   * The status table: 400 for a bad URL, an illegal argument or a processing failure; 404 when no
   * PDF was found; 403 for blacklisted IBANs; 200 when the documents held no valid IBAN; 500 for
   * I/O and any other runtime failure.
   */
  lemma StatusTable(f: Failure)
    ensures HandleFailure(f).status == StatusBadRequest <==> f.InvalidUrl? || f.IllegalArgument? || f.PdfProcessing?
    ensures HandleFailure(f).status == StatusNotFound <==> f.PdfNotFound?
    ensures HandleFailure(f).status == StatusForbidden <==> f.BlacklistedFound?
    ensures HandleFailure(f).status == StatusOk <==> f.NoIbanFound? || f.InvalidIbans?
    ensures HandleFailure(f).status == StatusInternalError <==> IsInternal(f)
  {
  }

  /** Every failure but the blacklist one gets an ErrorResponse carrying the exception's own message. */
  lemma MessagePreserved(f: Failure)
    requires !f.BlacklistedFound?
    ensures HandleFailure(f).body.ErrorBody? && HandleFailure(f).body.errorMessage == f.message
  {
  }

  /** The exception class of a failure, numbered in the order the handler declares its methods. */
  function Kind(f: Failure): nat {
    match f
    case InvalidUrl(_) => 0
    case PdfNotFound(_) => 1
    case NoIbanFound(_) => 2
    case InvalidIbans(_) => 3
    case IllegalArgument(_) => 4
    case BlacklistedFound(_, _) => 5
    case PdfProcessing(_) => 6
    case IOError(_) => 7
    case Runtime(_) => 8
  }

  /**
   * Error keys tell failure classes apart, except that an IOException and any other RuntimeException
   * share INTERNAL_ERROR.
   */
  lemma KeysDistinguishKinds(f: Failure, g: Failure)
    requires !f.BlacklistedFound? && !g.BlacklistedFound?
    ensures HandleFailure(f).body.errorKey == HandleFailure(g).body.errorKey <==>
      Kind(f) == Kind(g) || (IsInternal(f) && IsInternal(g))
  {
  }

  /**
   * Blacklisted IBANs are answered 403 with the fixed message and the blacklisted list; the valid
   * list the exception carries is not passed on and stays null.
   */
  lemma BlacklistedResponse(blacklisted: seq<string>, valid: seq<string>)
    ensures HandleFailure(BlacklistedFound(blacklisted, valid))
      == Response(StatusForbidden, ScanBody("Blacklisted IBANs found", None, Some(blacklisted)))
  {
  }

  /** A CompletionException gets exactly the response its cause would get if thrown directly. */
  lemma CompletionUnwrapsCause(m: string, f: Failure)
    ensures Handle(Completion(m, Some(Raised(f)))) == Handle(Raised(f))
  {
  }

  /**
   * A null cause, or a cause that is neither one of the service's failures nor a RuntimeException nor
   * an IOException, gets 500 INTERNAL_ERROR "An unexpected error occurred".
   */
  lemma UnknownCause(m: string, cause: Option<Thrown>)
    requires cause.None? || cause.value.OtherThrowable?
    ensures Handle(Completion(m, cause)) == Some(Response(500, ErrorBody("INTERNAL_ERROR", "An unexpected error occurred")))
  {
  }

  /**
   * Unwrapping goes one level only: a CompletionException inside a CompletionException is handled
   * as a generic RuntimeException with the inner exception's message, whatever that one wraps.
   */
  lemma OneLevelUnwrap(m: string, inner: string, cause: Option<Thrown>)
    ensures Handle(Completion(m, Some(Completion(inner, cause)))) == Some(Response(500, ErrorBody("INTERNAL_ERROR", inner)))
  {
  }

  /**
   * Every RuntimeException and IOException is answered, with one of the five statuses the handler
   * uses; only other checked exceptions fall through.
   */
  lemma HandlerTotal(t: Thrown)
    ensures Handle(t).None? <==> t.OtherThrowable?
    ensures Handle(t).Some? ==> Handle(t).value.status in {200, 400, 403, 404, 500}
  {
  }
}
