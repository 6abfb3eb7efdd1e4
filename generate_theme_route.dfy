/**
 * The theme-generation endpoint (src/app/api/generate-theme/route.ts): failures before the
 * stream starts become a 499 for an aborted request or go through `handleError`; the
 * stream's tool results for `generateTheme` carry the generated styles as message metadata;
 * the model loop stops after five steps; and a failure to record usage is logged and
 * swallowed.
 *
 * The stream, the model and the message converter are outside the model: their outcomes
 * are parameters.
 */
module GenerateThemeRoute {
  import opened Common
  import opened Errors
  import opened ErrorResponse

  /** The `name` of a thrown value that is an `Error`. */
  function ErrorName(e: Thrown): (r: Option<string>)
    ensures r.None? <==> e.NotAnError?
    ensures e.OtherError? ==> r == Some(e.name)
  {
    match e
    case Raised(a) => Some(a.Name())
    case OtherError(n, _) => Some(n)
    case NotAnError(_) => None
  }

  /** An `Error` named "AbortError" or "ResponseAborted". */
  function IsAbort(e: Thrown): (r: bool)
    ensures r <==> e.OtherError? && (e.name == "AbortError" || e.name == "ResponseAborted")
  {
    ErrorName(e).Some? && ErrorName(e).value in {"AbortError", "ResponseAborted"}
  }

  const AbortedMessage := "Request aborted by user"

  /** The route's answer: the UI message stream, or an error response. */
  datatype RouteResponse = StreamResponse | ErrorReply(response: HttpResponse)

  /** The catch block: aborted requests get 499, everything else `handleError`. */
  function CatchResponse(e: Thrown): (r: HttpResponse)
    ensures IsAbort(e) ==> r == HttpResponse(499, PlainText, TextBody(AbortedMessage))
    ensures !IsAbort(e) ==> r == HandleError(e)
  {
    if IsAbort(e) then HttpResponse(499, PlainText, TextBody(AbortedMessage)) else HandleError(e)
  }

  /** `POST`: `failure` is what reading the body or converting the messages threw, if anything. */
  function Post(failure: Option<Thrown>): (r: RouteResponse)
    ensures r.StreamResponse? <==> failure.None?
    ensures failure.Some? ==> r == ErrorReply(CatchResponse(failure.value))
  {
    match failure
    case None => StreamResponse
    case Some(e) => ErrorReply(CatchResponse(e))
  }

  /**
   * 499 is reserved for aborts: application errors keep their 400/401, and every other
   * failure is the bare 500.
   */
  lemma AbortStatusIff(e: Thrown)
    ensures CatchResponse(e).status == 499 <==> IsAbort(e)
    ensures !IsAbort(e) ==> CatchResponse(e).status in {400, 401, 500}
    ensures e.Raised? ==> !IsAbort(e)
  {
    HandleErrorStatuses(e);
  }

  /** A part of the model's output stream; only tool results matter here. */
  datatype StreamPart = ToolResult(toolName: string, output: Json) | OtherPart(kind: string)

  /** `messageMetadata`: `{ themeStyles: output }` for results of the `generateTheme` tool, nothing otherwise. */
  function MessageMetadata(part: StreamPart): (r: Option<Json>)
    ensures r.Some? <==> part.ToolResult? && part.toolName == "generateTheme"
    ensures r.Some? ==> r.value.JObj? && Field(r.value.fields, "themeStyles") == Some(part.output)
  {
    if part.ToolResult? && part.toolName == "generateTheme" then Some(JObj([("themeStyles", part.output)]))
    else None
  }

  /** The metadata attached along a stream, in order. */
  function StreamMetadata(parts: seq<StreamPart>): (r: seq<Json>)
    ensures |r| <= |parts|
    ensures forall m :: m in r ==> exists i :: 0 <= i < |parts| && MessageMetadata(parts[i]) == Some(m)
    ensures forall i :: 0 <= i < |parts| && MessageMetadata(parts[i]).Some? ==> MessageMetadata(parts[i]).value in r
  {
    if parts == [] then []
    else
      var rest := StreamMetadata(parts[1..]);
      assert forall i :: 1 <= i < |parts| ==> parts[i] == parts[1..][i - 1];
      (if MessageMetadata(parts[0]).Some? then [MessageMetadata(parts[0]).value] else []) + rest
  }

  /** A single part carries its own metadata, if any. */
  lemma OneMetadata(part: StreamPart)
    ensures StreamMetadata([part]) == if MessageMetadata(part).Some? then [MessageMetadata(part).value] else []
  {
    assert [part][1..] == [];
  }

  /**
   * The metadata of a stream is that of its first stretch followed by that of the rest: each
   * `generateTheme` result contributes its entry in stream order.
   */
  lemma {:induction false} MetadataAppend(a: seq<StreamPart>, b: seq<StreamPart>)
    ensures StreamMetadata(a + b) == StreamMetadata(a) + StreamMetadata(b)
  {
    if a == [] {
      assert a + b == b;
    } else {
      assert (a + b)[1..] == a[1..] + b;
      MetadataAppend(a[1..], b);
    }
  }

  /** A stream with no `generateTheme` result carries no metadata at all. */
  lemma {:induction false} NoGenerateThemeNoMetadata(parts: seq<StreamPart>)
    requires forall i :: 0 <= i < |parts| ==> !(parts[i].ToolResult? && parts[i].toolName == "generateTheme")
    ensures StreamMetadata(parts) == []
  {
    if parts != [] {
      NoGenerateThemeNoMetadata(parts[1..]);
    }
  }

  /** `stepCountIs(5)`: stop once five steps have run. */
  const MaxSteps := 5

  predicate StepCountIs5(stepsRun: nat)
  {
    stepsRun == MaxSteps
  }

  /**
   * The number of model steps run, counting from `stepsRun` already run: another step follows
   * only while the last one ended in tool results (`toolsCalled(i)` for step `i`) and the stop
   * condition does not hold.
   */
  function StepsFrom(toolsCalled: nat -> bool, stepsRun: nat): (r: nat)
    requires 1 <= stepsRun <= MaxSteps
    ensures stepsRun <= r <= MaxSteps
    ensures forall i :: stepsRun - 1 <= i < r - 1 ==> toolsCalled(i)
    ensures r < MaxSteps ==> !toolsCalled(r - 1)
    decreases MaxSteps - stepsRun
  {
    if StepCountIs5(stepsRun) || !toolsCalled(stepsRun - 1) then stepsRun
    else StepsFrom(toolsCalled, stepsRun + 1)
  }

  /** The whole loop, from the first step. */
  function StepsTaken(toolsCalled: nat -> bool): (r: nat)
    ensures 1 <= r <= MaxSteps
    ensures forall i :: 0 <= i < r - 1 ==> toolsCalled(i)
    ensures r < MaxSteps ==> !toolsCalled(r - 1)
  {
    StepsFrom(toolsCalled, 1)
  }

  /** A model that calls tools at every step is cut off at exactly five steps. */
  lemma EndlessToolCallsStopAtFive(toolsCalled: nat -> bool)
    requires forall i :: toolsCalled(i)
    ensures StepsTaken(toolsCalled) == MaxSteps
  {
  }

  /** The usage figures reported when the stream finishes. */
  datatype Usage = Usage(inputTokens: Option<int>, outputTokens: Option<int>)

  /** The record `recordAIUsage` is called with. */
  datatype UsageRecord = UsageRecord(modelId: string, promptTokens: Option<int>, completionTokens: Option<int>)

  /** What `onFinish` did: whether it rejected, and the error it logged with its action name. */
  datatype FinishOutcome = FinishOutcome(rejected: bool, logged: Option<(Thrown, string)>)

  /** `onFinish`: `record` is `recordAIUsage`, answering the error it throws, if any. */
  function OnFinish(modelId: string, usage: Usage, record: UsageRecord -> Option<Thrown>): (r: FinishOutcome)
    ensures !r.rejected
    ensures r.logged.Some? <==> record(UsageRecord(modelId, usage.inputTokens, usage.outputTokens)).Some?
    ensures r.logged.Some? ==>
      r.logged.value == (record(UsageRecord(modelId, usage.inputTokens, usage.outputTokens)).value, "recordAIUsage")
  {
    var failure := record(UsageRecord(modelId, usage.inputTokens, usage.outputTokens));
    if failure.Some? then FinishOutcome(false, Some((failure.value, "recordAIUsage")))
    else FinishOutcome(false, None)
  }
}
