/**
 * The exceptions that can be raised inside the endpoint's `try` block and the
 * two `except` clauses that turn each of them into the HTTP error the client sees.
 */
module Errors {
  import opened PyStr

  /** An exception raised inside the `try`, classified by the clause that catches it. */
  datatype Exception =
    | HttpException(status: nat, detail: string)  // FastAPI's HTTPException, raised by the handler itself
    | WithoutBGError(message: string)              // the package's own error family (APIError, ModelNotFoundError, ...)
    | OtherError(message: string)                  // anything else: PIL errors, OSError, ValueError, ...

  /** `str(e)`; an HTTPException renders as "<status>: <detail>". */
  function Str(e: Exception): string
  {
    match e
    case HttpException(status, detail) => Decimal(status) + ": " + detail
    case WithoutBGError(message) => message
    case OtherError(message) => message
  }

  /** The HTTPException the handler raises out of its `except` clauses. */
  datatype HttpError = HttpError(status: nat, detail: string)

  const ProcessingFailed := "Processing failed: "

  /**
   * `except WithoutBGError` first, then `except Exception`. HTTPException is
   * not a WithoutBGError, so one raised inside the `try` lands in the second clause.
   */
  function Except(e: Exception): HttpError
  {
    match e
    case WithoutBGError(_) => HttpError(500, Str(e))
    case _ => HttpError(500, ProcessingFailed + Str(e))
  }

  /** Every caught exception leaves the handler as a 500; only a WithoutBGError keeps its message unwrapped. */
  lemma ExceptMapsTo500(e: Exception)
    ensures Except(e).status == 500
    ensures e.WithoutBGError? ==> Except(e).detail == e.message
    ensures e.OtherError? ==> Except(e).detail == ProcessingFailed + e.message
    ensures e.HttpException? ==> Except(e).detail == ProcessingFailed + Decimal(e.status) + ": " + e.detail
  {
  }

  /** An HTTPException raised inside the `try` loses its own status: 400 and 503 both become 500. */
  lemma InnerHttpExceptionBecomes500(detail: string)
    ensures Except(HttpException(400, detail)) == HttpError(500, ProcessingFailed + "400: " + detail)
    ensures Except(HttpException(503, detail)) == HttpError(500, ProcessingFailed + "503: " + detail)
  {
    assert Decimal(400) == "400" by {
      assert Decimal(4) == "4";
      assert Decimal(40) == "40";
    }
    assert Decimal(503) == "503" by {
      assert Decimal(5) == "5";
      assert Decimal(50) == "50";
    }
  }
}
