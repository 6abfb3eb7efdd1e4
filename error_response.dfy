/**
 * The HTTP error responses of the API routes (src/lib/error-response.ts): application
 * validation and authorisation errors become JSON bodies of the shared error-response
 * shape; everything else becomes a bare 500 that reveals nothing about the error.
 */
module ErrorResponse {
  import opened Common
  import opened Errors

  /** A response body: JSON text of an error-response object, or plain text. */
  datatype Body = JsonBody(payload: ErrorResponseBody) | TextBody(text: string)

  /** A `Response`: status, `Content-Type` header and body. */
  datatype HttpResponse = HttpResponse(status: int, contentType: string, body: Body)

  /** The content type a `Response` built from a plain string gets (Fetch standard, "extract a body"). */
  const PlainText := "text/plain;charset=UTF-8"

  const InternalServerError := "Internal Server Error"

  /** `jsonError`: the body carries the same code, message, data and status as the response. */
  function JsonError(code: string, message: string, data: Option<Json>, status: int): (r: HttpResponse)
    ensures r.status == status && r.contentType == "application/json"
    ensures r.body == JsonBody(ErrorResponseBody(Some(code), Some(message), data, Some(status)))
  {
    HttpResponse(status, "application/json", JsonBody(ErrorResponseBody(Some(code), Some(message), data, Some(status))))
  }

  /** `{ details: error.details }`: an absent `details` is dropped by `JSON.stringify`, leaving `{}`. */
  function DetailsObject(details: Option<Json>): (r: Json)
    ensures r.JObj? && Field(r.fields, "details") == details
  {
    JObj(OptionalField("details", details))
  }

  /** `handleError`: the response for an error thrown in a route. */
  function HandleError(e: Thrown): (r: HttpResponse)
    ensures e.Raised? && e.error.ValidationError? ==>
      r == JsonError("VALIDATION_ERROR", e.error.message, Some(DetailsObject(e.error.details)), 400)
    ensures e.Raised? && e.error.UnauthorizedError? ==>
      r == JsonError("UNAUTHORIZED", e.error.message, None, 401)
    ensures !(e.Raised? && (e.error.ValidationError? || e.error.UnauthorizedError?)) ==>
      r == HttpResponse(500, PlainText, TextBody(InternalServerError))
  {
    match e
    case Raised(ValidationError(m, d)) => JsonError("VALIDATION_ERROR", m, Some(DetailsObject(d)), 400)
    case Raised(UnauthorizedError(m)) => JsonError("UNAUTHORIZED", m, None, 401)
    case _ => HttpResponse(500, PlainText, TextBody(InternalServerError))
  }

  /**
   * Every JSON error response repeats its HTTP status in the body, carries the error's own
   * message and one of the `ApiErrorCode` values, and reads back through the response schema.
   */
  lemma JsonResponsesAreConsistent(e: Thrown)
    requires HandleError(e).body.JsonBody?
    ensures e.Raised? && HandleError(e).body.payload.message == Some(e.error.message)
    ensures HandleError(e).body.payload.status == Some(HandleError(e).status)
    ensures HandleError(e).body.payload.code.Some?
      && ParseApiErrorCode(HandleError(e).body.payload.code.value).Some?
    ensures ParseErrorResponse(ErrorResponseToJson(HandleError(e).body.payload)) == Some(HandleError(e).body.payload)
  {
    ErrorResponseRoundTrip(HandleError(e).body.payload);
  }

  /** Errors other than the two JSON kinds get the same 500 whatever their message: nothing leaks. */
  lemma InternalErrorsLeakNothing(e1: Thrown, e2: Thrown)
    requires HandleError(e1).status == 500
    requires !(e2.Raised? && (e2.error.ValidationError? || e2.error.UnauthorizedError?))
    ensures HandleError(e1) == HandleError(e2)
  {
  }

  /** The statuses `handleError` can produce, and which error kinds produce each. */
  lemma HandleErrorStatuses(e: Thrown)
    ensures HandleError(e).status in {400, 401, 500}
    ensures HandleError(e).status == 400 <==> e.Raised? && e.error.ValidationError?
    ensures HandleError(e).status == 401 <==> e.Raised? && e.error.UnauthorizedError?
    ensures HandleError(e).body.JsonBody? <==> HandleError(e).status != 500
  {
  }
}
