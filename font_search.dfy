/**
 * The client's paged font search (src/hooks/use-font-search.ts): every page request repeats
 * the query, category and page size and varies only the offset, starting from 0 and moving
 * on by the page size while the server reports more.
 */
module FontSearch {
  import opened Common
  import opened Errors
  import opened Procedures
  import opened Js
  import opened GoogleFonts

  /** The hook's parameters; omitted ones take the hook's defaults. */
  datatype FontSearchParams = FontSearchParams(query: string, category: Option<string> := None,
                                               limit: Option<int> := None, enabled: Option<bool> := None)

  /** The parameters after the defaults. */
  datatype FontSearch = FontSearch(query: string, category: string, limit: int, enabled: bool)

  /** The hook's default page size. */
  const DefaultPageSize := 20

  /** The defaults of the hook: category "all", 20 fonts a page, enabled. */
  function Resolve(p: FontSearchParams): (s: FontSearch)
    ensures s.query == p.query
    ensures s.category == (if p.category.Some? then p.category.value else "all")
    ensures s.limit == (if p.limit.Some? then p.limit.value else DefaultPageSize)
    ensures s.enabled == (p.enabled.None? || p.enabled.value)
  {
    FontSearch(p.query, if p.category.Some? then p.category.value else "all",
               if p.limit.Some? then p.limit.value else DefaultPageSize,
               if p.enabled.Some? then p.enabled.value else true)
  }

  const InitialPageParam := 0

  /** The input of the page at offset `pageParam`: every field supplied. */
  function PageInput(s: FontSearch, pageParam: int): (r: FontsInput)
    ensures r.offset == Some(pageParam)
  {
    FontsInput(Some(s.query), Some(s.category), Some(s.limit), Some(pageParam))
  }

  /** Two pages of one search ask the same question of the server, apart from the offset. */
  lemma OnlyOffsetVaries(s: FontSearch, a: int, b: int)
    ensures PageInput(s, a).(offset := Some(b)) == PageInput(s, b)
    ensures var qa := ApplyDefaults(PageInput(s, a)); var qb := ApplyDefaults(PageInput(s, b));
      qa.(offset := qb.offset) == qb && qa.query == s.query && qa.category == Some(s.category) && qa.limit == s.limit
  {
  }

  /** `getNextPageParam`: the offset after the last page while there is more, and no next page otherwise. */
  function NextPageParam(last: FontsResponse): (r: Option<int>)
    ensures r.Some? <==> last.hasMore
    ensures r.Some? ==> r.value == last.offset + last.limit
  {
    if last.hasMore then Some(last.offset + last.limit) else None
  }

  /**
   * The fonts obtained by requesting the page at `offset` and following the next-page offsets
   * to the end, against a server whose `limit` lower bound is `minLimit`; a rejected request
   * ends the search.
   */
  function FetchPagesWith(minLimit: int, s: FontSearch, catalogue: seq<Font>, offset: int): (r: seq<Font>)
    requires 1 <= minLimit
    ensures !(minLimit <= s.limit <= MaxLimit) ==> r == []
    decreases |catalogue| - offset
  {
    var resp := GetGoogleFontsWith(minLimit, PageInput(s, offset), Ok(catalogue));
    if resp.Err? then []
    else
      var next := NextPageParam(resp.value);
      if next.None? then resp.value.fonts
      else
        assert resp.value.offset == offset && minLimit <= resp.value.limit;
        resp.value.fonts + FetchPagesWith(minLimit, s, catalogue, next.value)
  }

  /** A page request of a search with an accepted page size passes validation and is answered from the whole query. */
  lemma PageAnswered(minLimit: int, s: FontSearch, catalogue: seq<Font>, offset: int)
    requires 1 <= minLimit <= s.limit <= MaxLimit
    ensures GetGoogleFontsWith(minLimit, PageInput(s, offset), Ok(catalogue))
      == Ok(Respond(catalogue, FontsQuery(s.query, Some(s.category), s.limit, offset)))
  {
    var input := PageInput(s, offset);
    assert LimitIssues(minLimit, input.limit) == [];
    assert ApplyDefaults(input) == FontsQuery(s.query, Some(s.category), s.limit, offset);
  }

  /** One page of a search with an accepted page size: the next slice of the filtered catalogue, and more exactly when it ends early. */
  lemma PageOf(minLimit: int, s: FontSearch, catalogue: seq<Font>, offset: int)
    requires 1 <= minLimit <= s.limit <= MaxLimit
    requires 0 <= offset <= |FilterFonts(catalogue, s.query, Some(s.category))|
    ensures var filtered := FilterFonts(catalogue, s.query, Some(s.category));
      var resp := GetGoogleFontsWith(minLimit, PageInput(s, offset), Ok(catalogue));
      resp.Ok? && resp.value.fonts == filtered[offset..Min(offset + s.limit, |filtered|)]
      && (resp.value.hasMore <==> offset + s.limit < |filtered|)
      && (resp.value.hasMore ==> NextPageParam(resp.value) == Some(offset + s.limit))
  {
    PageAnswered(minLimit, s, catalogue, offset);
    var page := Respond(catalogue, FontsQuery(s.query, Some(s.category), s.limit, offset));
    assert page.offset == offset && page.limit == s.limit;
  }

  /** Following the pages from `offset`: its page, then, while the server reports more, the pages from the next offset. */
  lemma FetchStep(minLimit: int, s: FontSearch, catalogue: seq<Font>, offset: int)
    requires 1 <= minLimit <= s.limit <= MaxLimit
    requires 0 <= offset <= |FilterFonts(catalogue, s.query, Some(s.category))|
    ensures var filtered := FilterFonts(catalogue, s.query, Some(s.category));
      var next := offset + s.limit;
      (next < |filtered| ==> FetchPagesWith(minLimit, s, catalogue, offset)
                               == filtered[offset..next] + FetchPagesWith(minLimit, s, catalogue, next))
      && (next >= |filtered| ==> FetchPagesWith(minLimit, s, catalogue, offset) == filtered[offset..])
  {
    PageOf(minLimit, s, catalogue, offset);
  }

  /**
   * Any page walk over `whole` that answers each offset with the next `limit` entries and
   * continues from the next offset while entries remain yields everything from its start.
   */
  lemma {:induction false} PageWalk<T>(walk: int -> seq<T>, whole: seq<T>, limit: int, offset: int)
    requires 1 <= limit && 0 <= offset <= |whole|
    requires forall o :: 0 <= o <= |whole| && o + limit < |whole| ==> walk(o) == whole[o..o + limit] + walk(o + limit)
    requires forall o :: 0 <= o <= |whole| && o + limit >= |whole| ==> walk(o) == whole[o..]
    ensures walk(offset) == whole[offset..]
    decreases |whole| - offset
  {
    if offset + limit < |whole| {
      PageWalk(walk, whole, limit, offset + limit);
      SplitTail(whole, offset, offset + limit);
    }
  }

  /** With a page size the server accepts, following the pages from any offset yields the rest of the filtered catalogue, each font once and in order. */
  lemma PagingCoversAll(minLimit: int, s: FontSearch, catalogue: seq<Font>, offset: int)
    requires 1 <= minLimit <= s.limit <= MaxLimit
    requires 0 <= offset <= |FilterFonts(catalogue, s.query, Some(s.category))|
    ensures FetchPagesWith(minLimit, s, catalogue, offset) == FilterFonts(catalogue, s.query, Some(s.category))[offset..]
  {
    var filtered := FilterFonts(catalogue, s.query, Some(s.category));
    var walk := o => FetchPagesWith(minLimit, s, catalogue, o);
    forall o | 0 <= o <= |filtered|
      ensures o + s.limit < |filtered| ==> walk(o) == filtered[o..o + s.limit] + walk(o + s.limit)
      ensures o + s.limit >= |filtered| ==> walk(o) == filtered[o..]
    {
      FetchStep(minLimit, s, catalogue, o);
    }
    PageWalk(walk, filtered, s.limit, offset);
  }

  /** The hook's default search as written: its page size is refused, so it finds nothing whatever the catalogue. */
  lemma DefaultSearchRejected(query: string, catalogue: seq<Font>)
    ensures var s := Resolve(FontSearchParams(query));
      var first := GetGoogleFonts(PageInput(s, InitialPageParam), Ok(catalogue));
      first.Err? && first.error.Orpc? && first.error.error.code == "INPUT_VALIDATION_FAILED"
      && FetchPagesWith(MinLimit, s, catalogue, InitialPageParam) == []
  {
  }

  /** The lower bound that admits the default page size shared by the hook and the schema. */
  const MinLimitIntended := 1

  /** With that bound the default search pages through every font whose family matches. */
  lemma DefaultSearchIntendedCoversAll(query: string, catalogue: seq<Font>)
    ensures var found := FetchPagesWith(MinLimitIntended, Resolve(FontSearchParams(query)), catalogue, InitialPageParam);
      forall f :: f in found <==> f in catalogue && MatchesQuery(f, query)
  {
    var s := Resolve(FontSearchParams(query));
    PagingCoversAll(MinLimitIntended, s, catalogue, InitialPageParam);
    FilterFontsMembers(catalogue, query, Some(s.category));
  }
}
