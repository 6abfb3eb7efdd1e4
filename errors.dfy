/** The application's error classes and the error-response shape (src/types/errors.ts). */
module Errors {
  import opened Common

  /** A JSON value, standing for the source's `unknown` payloads. */
  datatype Json =
    | JNull
    | JBool(b: bool)
    | JNum(n: int)
    | JStr(s: string)
    | JArr(items: seq<Json>)
    | JObj(fields: seq<(string, Json)>)

  /** The error classes of the application; omitted constructor arguments take the source's defaults. */
  datatype AppError =
    | UnauthorizedError(message: string := "Unauthorized")
    | ValidationError(message: string, details: Option<Json> := None)
    | ThemeNotFoundError(message: string := "Theme not found")
  {
    /** The `name` each class assigns in its constructor. */
    function Name(): string
    {
      match this
      case UnauthorizedError(_) => "UnauthorizedError"
      case ValidationError(_, _) => "ValidationError"
      case ThemeNotFoundError(_) => "ThemeNotFoundError"
    }
  }

  /**
   * A value thrown inside a route: one of the application's errors, another `Error`
   * (known by its `name` and `message`), or a thrown value that is not an `Error`.
   */
  datatype Thrown =
    | Raised(error: AppError)
    | OtherError(name: string, message: string)
    | NotAnError(value: Json)

  /** Omitted messages take the class defaults; given ones are kept, as are validation details. */
  lemma ErrorDefaults(m: string, d: Option<Json>)
    ensures UnauthorizedError().message == "Unauthorized"
    ensures ThemeNotFoundError().message == "Theme not found"
    ensures UnauthorizedError(m).message == m && ThemeNotFoundError(m).message == m
    ensures ValidationError(m).details == None
    ensures ValidationError(m, d).message == m && ValidationError(m, d).details == d
  {
  }

  /** `ApiErrorCode`, a union of three string literals. */
  datatype ApiErrorCode = ValidationErrorCode | UnauthorizedCode | UnknownErrorCode
  {
    function Text(): string
    {
      match this
      case ValidationErrorCode => "VALIDATION_ERROR"
      case UnauthorizedCode => "UNAUTHORIZED"
      case UnknownErrorCode => "UNKNOWN_ERROR"
    }
  }

  /** Reads a string as an `ApiErrorCode`: only the three literals are codes. */
  function ParseApiErrorCode(s: string): (r: Option<ApiErrorCode>)
    ensures r.Some? <==> s in {"VALIDATION_ERROR", "UNAUTHORIZED", "UNKNOWN_ERROR"}
    ensures r.Some? ==> r.value.Text() == s
  {
    if s == "VALIDATION_ERROR" then Some(ValidationErrorCode)
    else if s == "UNAUTHORIZED" then Some(UnauthorizedCode)
    else if s == "UNKNOWN_ERROR" then Some(UnknownErrorCode)
    else None
  }

  /** Every code reads back as itself, so the three codes have three distinct texts. */
  lemma ApiErrorCodeRoundTrip(c: ApiErrorCode)
    ensures ParseApiErrorCode(c.Text()) == Some(c)
  {
  }

  /** `ApiError`: a code, a message, and optional data and status. */
  datatype ApiError = ApiError(code: ApiErrorCode, message: string, data: Option<Json> := None, status: Option<int> := None)

  /** `MyErrorResponseType`: every field is optional. */
  datatype ErrorResponseBody = ErrorResponseBody(code: Option<string>, message: Option<string>, data: Option<Json>, status: Option<int>)

  /** The value of `key` in a JSON object's field list; a repeated key keeps its last value, as `JSON.parse` does. */
  function Field(fields: seq<(string, Json)>, key: string): (r: Option<Json>)
    ensures r.Some? ==> (key, r.value) in fields
    ensures r.None? ==> forall i :: 0 <= i < |fields| ==> fields[i].0 != key
  {
    if fields == [] then None
    else if fields[|fields| - 1].0 == key then Some(fields[|fields| - 1].1)
    else Field(fields[..|fields| - 1], key)
  }

  /** Looking a key up in two concatenated field lists: the later list wins. */
  lemma {:induction false} FieldAppend(a: seq<(string, Json)>, b: seq<(string, Json)>, key: string)
    ensures Field(a + b, key) == if Field(b, key).Some? then Field(b, key) else Field(a, key)
    decreases |b|
  {
    if b != [] {
      assert (a + b)[..|a + b| - 1] == a + b[..|b| - 1];
      FieldAppend(a, b[..|b| - 1], key);
    } else {
      assert a + b == a;
    }
  }

  function OptionalField(key: string, v: Option<Json>): seq<(string, Json)>
  {
    if v.Some? then [(key, v.value)] else []
  }

  /** The JSON text of a body: absent fields are left out, as `JSON.stringify` drops `undefined`. */
  function ErrorResponseToJson(b: ErrorResponseBody): Json
  {
    JObj(
      OptionalField("code", JsonOfCode(b)) + OptionalField("message", JsonOfMessage(b))
      + OptionalField("data", b.data) + OptionalField("status", JsonOfStatus(b)))
  }

  /** `MyErrorResponseSchema.safeParse`: an object whose present fields have the right types; other keys are stripped. */
  function ParseErrorResponse(v: Json): (r: Option<ErrorResponseBody>)
    ensures v == JObj([]) ==> r == Some(ErrorResponseBody(None, None, None, None))
    ensures !v.JObj? ==> r == None
    ensures r.Some? <==> (v.JObj?
      && (Field(v.fields, "code").None? || Field(v.fields, "code").value.JStr?)
      && (Field(v.fields, "message").None? || Field(v.fields, "message").value.JStr?)
      && (Field(v.fields, "status").None? || Field(v.fields, "status").value.JNum?))
    ensures r.Some? ==> r.value.data == Field(v.fields, "data")
    ensures r.Some? ==> ((r.value.code.Some? <==> Field(v.fields, "code").Some?)
      && (r.value.code.Some? ==> Field(v.fields, "code") == Some(JStr(r.value.code.value))))
    ensures r.Some? ==> ((r.value.message.Some? <==> Field(v.fields, "message").Some?)
      && (r.value.message.Some? ==> Field(v.fields, "message") == Some(JStr(r.value.message.value))))
    ensures r.Some? ==> ((r.value.status.Some? <==> Field(v.fields, "status").Some?)
      && (r.value.status.Some? ==> Field(v.fields, "status") == Some(JNum(r.value.status.value))))
  {
    if !v.JObj? then None
    else
      var code := Field(v.fields, "code");
      var message := Field(v.fields, "message");
      var status := Field(v.fields, "status");
      if code.Some? && !code.value.JStr? then None
      else if message.Some? && !message.value.JStr? then None
      else if status.Some? && !status.value.JNum? then None
      else Some(ErrorResponseBody(
        if code.Some? then Some(code.value.s) else None,
        if message.Some? then Some(message.value.s) else None,
        Field(v.fields, "data"),
        if status.Some? then Some(status.value.n) else None))
  }

  lemma FieldOfOptional(key: string, v: Option<Json>, other: string)
    ensures Field(OptionalField(key, v), key) == v
    ensures other != key ==> Field(OptionalField(key, v), other) == None
  {
  }

  function JsonOfCode(b: ErrorResponseBody): Option<Json>
  {
    if b.code.Some? then Some(JStr(b.code.value)) else None
  }

  function JsonOfMessage(b: ErrorResponseBody): Option<Json>
  {
    if b.message.Some? then Some(JStr(b.message.value)) else None
  }

  function JsonOfStatus(b: ErrorResponseBody): Option<Json>
  {
    if b.status.Some? then Some(JNum(b.status.value)) else None
  }

  lemma ParseFromFields(fs: seq<(string, Json)>, b: ErrorResponseBody)
    requires Field(fs, "code") == JsonOfCode(b) && Field(fs, "message") == JsonOfMessage(b)
    requires Field(fs, "data") == b.data && Field(fs, "status") == JsonOfStatus(b)
    ensures ParseErrorResponse(JObj(fs)) == Some(b)
  {
  }

  /** A serialised error body parses back to itself. */
  lemma ErrorResponseRoundTrip(b: ErrorResponseBody)
    ensures ParseErrorResponse(ErrorResponseToJson(b)) == Some(b)
  {
    var cv, mv, sv := JsonOfCode(b), JsonOfMessage(b), JsonOfStatus(b);
    var c, m := OptionalField("code", cv), OptionalField("message", mv);
    var d, s := OptionalField("data", b.data), OptionalField("status", sv);
    var fs := c + m + d + s;
    assert ErrorResponseToJson(b).fields == fs;
    FieldOfOptional("code", cv, "message");
    FieldOfOptional("message", mv, "data");
    FieldOfOptional("data", b.data, "status");
    FieldOfOptional("status", sv, "code");
    FieldOfOptional("message", mv, "code");
    FieldOfOptional("data", b.data, "code");
    FieldOfOptional("data", b.data, "message");
    FieldOfOptional("status", sv, "message");
    FieldOfOptional("status", sv, "data");
    FieldAppend(c + m + d, s, "code");
    FieldAppend(c + m, d, "code");
    FieldAppend(c, m, "code");
    FieldAppend(c + m + d, s, "message");
    FieldAppend(c + m, d, "message");
    FieldAppend(c, m, "message");
    FieldAppend(c + m + d, s, "data");
    FieldAppend(c + m, d, "data");
    FieldAppend(c + m + d, s, "status");
    ParseFromFields(fs, b);
  }
}
