/**
 * The oRPC procedure builders (src/server/orpc/procedures.ts): the `onError` interceptor
 * that turns schema-validation failures into dedicated error codes, the public procedure
 * that resolves the caller's session, and the protected procedure that rejects callers
 * without one.
 *
 * A procedure call runs, in order: the public middleware (session lookup), the protected
 * middleware (if any), the `.input` schema check, and the handler; every failure on the
 * way passes through `onError`.
 */
module Procedures {
  import opened Common
  import opened Errors

  /** The session resolved from the request headers: only the user id is used. */
  datatype UserSession = UserSession(userId: string)

  /** One schema-validation issue (a zod issue). */
  datatype Issue = Issue(path: seq<string>, code: string)

  /** The `cause` of an `ORPCError`: an oRPC `ValidationError` carrying its issues, or anything else. */
  datatype ErrorCause = ValidationCause(issues: seq<Issue>) | OtherCause

  /**
   * An error message: a literal, the output of `z.prettifyError` on some issues, or
   * the library's default message for the error code.
   */
  datatype ErrorMessage = Literal(text: string) | PrettifiedIssues(issues: seq<Issue>) | DefaultMessage

  /** An error's `data`: absent, or `z.flattenError` of some issues. */
  datatype ErrorData = NoData | FlattenedIssues(issues: seq<Issue>)

  /** An `ORPCError`; an absent status means the library's default status for the code. */
  datatype OrpcError = OrpcError(code: string, status: Option<int>, message: ErrorMessage, data: ErrorData, cause: Option<ErrorCause>)

  /** Anything a procedure can throw: an `ORPCError` or some other value. */
  datatype Failure = Orpc(error: OrpcError) | Foreign(thrown: Thrown)

  /** The error `new ORPCError(code, { message })` builds. */
  function CodeError(code: string, message: string): OrpcError
  {
    OrpcError(code, None, Literal(message), NoData, None)
  }

  /** An `ORPCError` with the given code whose cause is an oRPC validation error. */
  predicate IsValidationFailure(f: Failure, code: string)
  {
    f.Orpc? && f.error.code == code && f.error.cause.Some? && f.error.cause.value.ValidationCause?
  }

  /** The `onError` interceptor: what is thrown out of the procedure for a failure `f`. */
  function OnError(f: Failure): (r: Failure)
    ensures IsValidationFailure(f, "BAD_REQUEST") ==>
      r.Orpc? && r.error.code == "INPUT_VALIDATION_FAILED" && r.error.status == Some(422)
      && r.error.message == PrettifiedIssues(f.error.cause.value.issues)
      && r.error.data == FlattenedIssues(f.error.cause.value.issues)
      && r.error.cause == f.error.cause
    ensures IsValidationFailure(f, "INTERNAL_SERVER_ERROR") ==>
      r.Orpc? && r.error.code == "OUTPUT_VALIDATION_FAILED" && r.error.status == None
      && r.error.message == DefaultMessage && r.error.data == NoData && r.error.cause == f.error.cause
    ensures !IsValidationFailure(f, "BAD_REQUEST") && !IsValidationFailure(f, "INTERNAL_SERVER_ERROR") ==> r == f
  {
    if IsValidationFailure(f, "BAD_REQUEST") then
      var issues := f.error.cause.value.issues;
      Orpc(OrpcError("INPUT_VALIDATION_FAILED", Some(422), PrettifiedIssues(issues), FlattenedIssues(issues), f.error.cause))
    else if IsValidationFailure(f, "INTERNAL_SERVER_ERROR") then
      Orpc(OrpcError("OUTPUT_VALIDATION_FAILED", None, DefaultMessage, NoData, f.error.cause))
    else f
  }

  /** Remapping is final: an error that went through `onError` is not remapped again. */
  lemma OnErrorIdempotent(f: Failure)
    ensures OnError(OnError(f)) == OnError(f)
  {
  }

  /** Only input-validation failures leave with status 422; every other failure keeps its own status. */
  lemma OnErrorStatus(f: Failure)
    ensures OnError(f).Orpc? && OnError(f).error.status == Some(422)
      <==> IsValidationFailure(f, "BAD_REQUEST") || (f.Orpc? && f.error.status == Some(422)
           && !IsValidationFailure(f, "INTERNAL_SERVER_ERROR"))
  {
  }

  /** The message of the protected procedure's rejection. */
  const LoginRequired := "You must be logged in to access this resource."

  /** The context the public middleware hands on: the session, possibly absent. */
  datatype ProcedureContext = ProcedureContext(session: Option<UserSession>)

  /** `publicProcedure`'s middleware: it never rejects and forwards whatever session was found. */
  function PublicProcedure(session: Option<UserSession>): (r: Result<ProcedureContext, Failure>)
    ensures r.Ok? && r.value.session == session
  {
    Ok(ProcedureContext(session))
  }

  /** `protectedProcedure`'s middleware: rejects exactly the calls without a session, forwarding the same session otherwise. */
  function ProtectedProcedure(ctx: ProcedureContext): (r: Result<UserSession, Failure>)
    ensures r.Err? <==> ctx.session.None?
    ensures r.Ok? ==> ctx.session == Some(r.value)
    ensures r.Err? ==> r.error == Orpc(CodeError("UNAUTHORIZED", LoginRequired))
  {
    match ctx.session
    case None => Err(Orpc(CodeError("UNAUTHORIZED", LoginRequired)))
    case Some(s) => Ok(s)
  }

  /** The outcome of a schema check: the issues found, or none when the input passed. */
  function IssuesOrNone(issues: seq<Issue>): (r: Option<seq<Issue>>)
    ensures r.None? <==> issues == []
    ensures r.Some? ==> r.value == issues
  {
    if issues == [] then None else Some(issues)
  }

  /** The failure the `.input` schema check throws for some issues. */
  function BadRequest(issues: seq<Issue>): Failure
  {
    Orpc(OrpcError("BAD_REQUEST", None, DefaultMessage, NoData, Some(ValidationCause(issues))))
  }

  /** Which middleware stack a procedure is built on. */
  datatype Guard = Public | Protected

  /**
   * A whole procedure call: session lookup, the protected check, the input schema
   * (`validate` returns the issues of a rejected input) and the handler, with every
   * failure passed through `onError`.
   */
  function RunProcedure<I, O>(guard: Guard, session: Option<UserSession>, input: I,
                              validate: I -> Option<seq<Issue>>,
                              handler: (Option<UserSession>, I) -> Result<O, Failure>): (r: Result<O, Failure>)
    ensures guard == Protected && session.None? ==> r == Err(Orpc(CodeError("UNAUTHORIZED", LoginRequired)))
    ensures (guard == Public || session.Some?) && validate(input).Some? ==>
      r.Err? && r.error.Orpc? && r.error.error.code == "INPUT_VALIDATION_FAILED" && r.error.error.status == Some(422)
    ensures (guard == Public || session.Some?) && validate(input).None? ==>
      (handler(session, input).Ok? ==> r == handler(session, input))
      && (handler(session, input).Err? ==> r == Err(OnError(handler(session, input).error)))
  {
    var ctx := PublicProcedure(session).value;
    var authed := if guard == Protected then ProtectedProcedure(ctx) else Ok(UserSession(""));
    if authed.Err? then Err(OnError(authed.error))
    else match validate(input)
      case Some(issues) => Err(OnError(BadRequest(issues)))
      case None =>
        var out := handler(ctx.session, input);
        if out.Err? then Err(OnError(out.error)) else out
  }

  /** Authentication is checked before the input: a signed-out caller never learns whether the input was valid. */
  lemma AuthBeforeValidation<I, O>(session: Option<UserSession>, input: I,
                                   validate: I -> Option<seq<Issue>>,
                                   handler: (Option<UserSession>, I) -> Result<O, Failure>)
    requires session.None?
    ensures RunProcedure(Protected, session, input, validate, handler)
      == RunProcedure(Protected, session, input, _ => None, handler)
  {
  }
}
