/**
 * The font-catalogue procedure `getGoogleFonts` (src/server/orpc/routes/googleFonts.ts): a
 * public procedure that filters the Google Fonts catalogue by a family substring and a
 * category, and returns one page of it with the totals the client pages by.
 *
 * Fetching the catalogue, and its cache, are outside the model: the fetch's outcome is a
 * parameter. The lower bound of the `limit` schema is a parameter of the checks so that the
 * bound as written, `MinLimit`, and the one the default page size needs can both be stated.
 */
module GoogleFonts {
  import opened Common
  import opened Js
  import opened Errors
  import opened Procedures

  /** A catalogue entry: only the family name and the category are used. */
  datatype Font = Font(family: string, category: string)

  /** The procedure's input as sent: every field may be omitted. */
  datatype FontsInput = FontsInput(query: Option<string>, category: Option<string>, limit: Option<int>, offset: Option<int>)

  /** The input after the schema's defaults are applied. */
  datatype FontsQuery = FontsQuery(query: string, category: Option<string>, limit: int, offset: int)

  /** `PaginatedFontsResponse`. */
  datatype FontsResponse = FontsResponse(fonts: seq<Font>, total: nat, offset: int, limit: int, hasMore: bool)

  /** The bounds and the default of the `limit` schema as written. */
  const MinLimit := 50
  const MaxLimit := 100
  const DefaultLimit := 20

  /** `z.number().max(100).min(minLimit)` on a supplied limit. */
  function LimitIssues(minLimit: int, limit: Option<int>): (issues: seq<Issue>)
    ensures issues == [] <==> limit.None? || minLimit <= limit.value <= MaxLimit
  {
    if limit.None? then []
    else (if limit.value > MaxLimit then [Issue(["limit"], "too_big")] else [])
         + (if limit.value < minLimit then [Issue(["limit"], "too_small")] else [])
  }

  /** The input schema: only `limit` is constrained. */
  function ValidateFontsWith(minLimit: int, input: FontsInput): (r: Option<seq<Issue>>)
    ensures r.None? <==> input.limit.None? || minLimit <= input.limit.value <= MaxLimit
    ensures r.Some? ==> forall i :: 0 <= i < |r.value| ==> r.value[i].path == ["limit"]
  {
    IssuesOrNone(LimitIssues(minLimit, input.limit))
  }

  /** `.default(...)` on each field: the empty query, limit 20, offset 0; the category stays optional. */
  function ApplyDefaults(input: FontsInput): (q: FontsQuery)
    ensures q.query == (if input.query.Some? then input.query.value else "")
    ensures q.category == input.category
    ensures q.limit == (if input.limit.Some? then input.limit.value else DefaultLimit)
    ensures q.offset == (if input.offset.Some? then input.offset.value else 0)
  {
    FontsQuery(if input.query.Some? then input.query.value else "",
               input.category,
               if input.limit.Some? then input.limit.value else DefaultLimit,
               if input.offset.Some? then input.offset.value else 0)
  }

  /** The family, lower-cased, contains the query as given; the empty query matches everything. */
  ghost predicate MatchesQuery(f: Font, query: string)
  {
    query == "" || exists i :: OccursAt(ToLower(f.family), query, i)
  }

  /** A missing, empty or "all" category matches everything; any other must equal the font's. */
  predicate MatchesCategory(f: Font, category: Option<string>)
  {
    category.None? || category.value in {"", "all"} || f.category == category.value
  }

  /** The two `filter` steps of the handler: the family filter, then the category filter. */
  function FilterFonts(catalogue: seq<Font>, query: string, category: Option<string>): (r: seq<Font>)
    ensures |r| <= |catalogue|
    ensures IsSubsequence(r, catalogue)
  {
    var byQuery := ByQuery(catalogue, query);
    var r := ByCategory(byQuery, category);
    SubsequenceTransitive(r, byQuery, catalogue);
    r
  }

  /** The family filter: skipped for the empty query. */
  function ByQuery(catalogue: seq<Font>, query: string): (r: seq<Font>)
    ensures IsSubsequence(r, catalogue)
  {
    if query != "" then Filter(catalogue, (f: Font) => Includes(ToLower(f.family), query))
    else
      FilterAllKept(catalogue, (_: Font) => true);
      catalogue
  }

  /** The category filter: skipped for a missing, empty or "all" category. */
  function ByCategory(fonts: seq<Font>, category: Option<string>): (r: seq<Font>)
    ensures IsSubsequence(r, fonts)
  {
    if category.Some? && category.value != "" && category.value != "all"
    then Filter(fonts, (f: Font) => f.category == category.value)
    else
      FilterAllKept(fonts, (_: Font) => true);
      fonts
  }

  /** The filtered catalogue keeps a font exactly when its lower-cased family contains the query and it matches the category. */
  lemma FilterFontsMembers(catalogue: seq<Font>, query: string, category: Option<string>)
    ensures forall f :: f in FilterFonts(catalogue, query, category) <==>
      f in catalogue && MatchesQuery(f, query) && MatchesCategory(f, category)
  {
    forall f | f in catalogue
      ensures Includes(ToLower(f.family), query) <==> exists i :: OccursAt(ToLower(f.family), query, i)
    {
      IncludesIff(ToLower(f.family), query);
    }
  }

  /** The page the handler answers for the filtered list. */
  function Respond(catalogue: seq<Font>, q: FontsQuery): (r: FontsResponse)
    ensures r.total == |FilterFonts(catalogue, q.query, q.category)|
    ensures r.offset == q.offset && r.limit == q.limit
    ensures r.hasMore <==> q.offset + q.limit < r.total
    ensures 0 <= q.offset <= r.total && 0 <= q.limit ==>
      r.fonts == FilterFonts(catalogue, q.query, q.category)[q.offset..Min(q.offset + q.limit, r.total)]
    ensures 0 <= q.limit ==> |r.fonts| <= q.limit
    ensures q.offset >= r.total ==> r.fonts == []
    ensures q.offset < 0 ==>
      var from := RelativeIndex(q.offset, r.total);
      var to := RelativeIndex(q.offset + q.limit, r.total);
      r.fonts == FilterFonts(catalogue, q.query, q.category)[from..if from <= to then to else from]
  {
    var filtered := FilterFonts(catalogue, q.query, q.category);
    SliceLength(filtered, q.offset, q.offset + q.limit);
    assert 0 <= q.offset && 0 <= q.limit ==>
      (q.offset <= |filtered| ==> Slice(filtered, q.offset, q.offset + q.limit) == filtered[q.offset..Min(q.offset + q.limit, |filtered|)])
      && |Slice(filtered, q.offset, q.offset + q.limit)| <= q.limit by {
      if 0 <= q.offset && 0 <= q.limit {
        SliceNonNegative(filtered, q.offset, q.offset + q.limit);
      }
    }
    FontsResponse(Slice(filtered, q.offset, q.offset + q.limit), |filtered|, q.offset, q.limit,
                  q.offset + q.limit < |filtered|)
  }

  /** The error thrown when the catalogue cannot be fetched. */
  const FetchFailed := Orpc(OrpcError("INTERNAL_SERVER_ERROR", None, Literal("Failed to fetch Google Fonts"), NoData, Some(OtherCause)))

  /** The handler: `fetched` is the outcome of fetching the catalogue. */
  function FontsHandler(input: FontsInput, fetched: Result<seq<Font>, Thrown>): (r: Result<FontsResponse, Failure>)
    ensures r.Err? <==> fetched.Err?
    ensures r.Err? ==> r.error == FetchFailed
    ensures r.Ok? ==> r.value.total <= |fetched.value|
    ensures r.Ok? ==> r.value.offset == (if input.offset.Some? then input.offset.value else 0)
    ensures r.Ok? ==> r.value.limit == (if input.limit.Some? then input.limit.value else DefaultLimit)
    ensures r.Ok? ==> (r.value.hasMore <==> r.value.offset + r.value.limit < r.value.total)
  {
    if fetched.Err? then Err(FetchFailed) else Ok(Respond(fetched.value, ApplyDefaults(input)))
  }

  /** The whole procedure for a given lower bound of `limit`; the caller's session is not consulted. */
  function GetGoogleFontsWith(minLimit: int, input: FontsInput, fetched: Result<seq<Font>, Thrown>): (r: Result<FontsResponse, Failure>)
    ensures LimitIssues(minLimit, input.limit) != [] ==>
      r.Err? && r.error.Orpc? && r.error.error.code == "INPUT_VALIDATION_FAILED" && r.error.error.status == Some(422)
    ensures LimitIssues(minLimit, input.limit) == [] && fetched.Err? ==> r == Err(FetchFailed)
    ensures LimitIssues(minLimit, input.limit) == [] && fetched.Ok? ==> r == Ok(Respond(fetched.value, ApplyDefaults(input)))
  {
    RunProcedure(Public, None, input, i => ValidateFontsWith(minLimit, i), (s, i) => FontsHandler(i, fetched))
  }

  /** `getGoogleFonts` as written. */
  function GetGoogleFonts(input: FontsInput, fetched: Result<seq<Font>, Thrown>): (r: Result<FontsResponse, Failure>)
    ensures r == GetGoogleFontsWith(MinLimit, input, fetched)
    ensures r.Ok? ==> MinLimit <= r.value.limit <= MaxLimit || (input.limit.None? && r.value.limit == DefaultLimit)
  {
    GetGoogleFontsWith(MinLimit, input, fetched)
  }

  /** The schema's default page size is one it rejects when it is supplied. */
  lemma DefaultLimitOutsideRange(input: FontsInput, catalogue: seq<Font>)
    ensures GetGoogleFonts(input.(limit := None), Ok(catalogue)).Ok?
    ensures GetGoogleFonts(input.(limit := None), Ok(catalogue)).value.limit == DefaultLimit
    ensures GetGoogleFonts(input.(limit := Some(DefaultLimit)), Ok(catalogue)).Err?
  {
  }

  /** A failed catalogue fetch reaches the caller unchanged: `onError` leaves it alone. */
  lemma FetchFailureSurfaces(input: FontsInput, e: Thrown)
    requires input.limit.None? || MinLimit <= input.limit.value <= MaxLimit
    ensures GetGoogleFonts(input, Err(e)) == Err(FetchFailed)
    ensures OnError(FetchFailed) == FetchFailed
  {
  }
}
