/**
 * The chat-session API (src/server/orpc/routes/chat.ts) over an in-memory session
 * table standing for the `chat_session` database table. `get` lists the caller's
 * sessions newest first; `create`, `update` and `delete` are protected procedures, and
 * `update` and `delete` answer NOT_FOUND for a missing id before they check ownership.
 *
 * The clock (`new Date()`) is a parameter `now`, and `crypto.randomUUID()` a parameter
 * `freshId` that the caller guarantees is unused.
 */
module ChatRoutes {
  import opened Common
  import opened AiTypes
  import opened Procedures

  /** A row of the session table. */
  datatype Session = Session(id: Id, userId: string, title: string, messages: seq<ChatMessage>, createdAt: int, updatedAt: int)

  /** Newest first: `orderBy(desc(createdAt))`. */
  predicate SortedByCreatedDesc(s: seq<Session>)
  {
    forall i, j :: 0 <= i < j < |s| ==> s[i].createdAt >= s[j].createdAt
  }

  predicate DistinctIds(s: seq<Session>)
  {
    forall i, j :: 0 <= i < j < |s| ==> s[i].id != s[j].id
  }

  /** `r` is the answer to "the rows of `uid`, newest first": each of those rows exactly once and nothing else. */
  ghost predicate IsListing(r: seq<Session>, rows: map<Id, Session>, uid: string)
  {
    SortedByCreatedDesc(r) && DistinctIds(r)
    && forall s :: s in r <==> s.id in rows && rows[s.id] == s && s.userId == uid
  }

  /** Inserts a row into a newest-first list, before the first strictly older row. */
  function InsertByCreatedDesc(r: seq<Session>, x: Session): (res: seq<Session>)
    ensures |res| == |r| + 1
    ensures forall s :: s in res <==> s in r || s == x
  {
    if r == [] || x.createdAt >= r[0].createdAt then [x] + r
    else
      var tail := InsertByCreatedDesc(r[1..], x);
      assert forall s :: s in r <==> s == r[0] || s in r[1..] by {
        assert r == [r[0]] + r[1..];
      }
      [r[0]] + tail
  }

  /** Every row of a non-empty insertion result that comes from `r[1..]` or is `x` sits at index `k + 1` of `r` or is `x`. */
  lemma InsertedFromTail(r: seq<Session>, x: Session, j: nat)
    requires r != [] && x.createdAt < r[0].createdAt
    requires j < |InsertByCreatedDesc(r[1..], x)|
    ensures var t := InsertByCreatedDesc(r[1..], x)[j];
      t == x || exists k :: 1 <= k < |r| && r[k] == t
  {
    var t := InsertByCreatedDesc(r[1..], x)[j];
    assert t in InsertByCreatedDesc(r[1..], x);
    if t != x {
      var k :| 0 <= k < |r[1..]| && r[1..][k] == t;
      assert r[k + 1] == t;
    }
  }

  /** Inserting into a newest-first list keeps it newest first. */
  lemma {:induction false} InsertKeepsSorted(r: seq<Session>, x: Session)
    requires SortedByCreatedDesc(r)
    ensures SortedByCreatedDesc(InsertByCreatedDesc(r, x))
  {
    var res := InsertByCreatedDesc(r, x);
    if r == [] || x.createdAt >= r[0].createdAt {
      forall i, j | 0 <= i < j < |res| ensures res[i].createdAt >= res[j].createdAt {
        assert res[j] == r[j - 1];
        if i > 0 {
          assert res[i] == r[i - 1];
        }
      }
    } else {
      var tail := InsertByCreatedDesc(r[1..], x);
      assert SortedByCreatedDesc(r[1..]) by {
        forall i, j | 0 <= i < j < |r[1..]| ensures r[1..][i].createdAt >= r[1..][j].createdAt {
          assert r[1..][i] == r[i + 1] && r[1..][j] == r[j + 1];
        }
      }
      InsertKeepsSorted(r[1..], x);
      forall i, j | 0 <= i < j < |res| ensures res[i].createdAt >= res[j].createdAt {
        assert res[j] == tail[j - 1];
        if i == 0 {
          InsertedFromTail(r, x, j - 1);
        } else {
          assert res[i] == tail[i - 1];
        }
      }
    }
  }

  /** Inserting a row whose id is new into a list of distinct ids keeps the ids distinct. */
  lemma {:induction false} InsertKeepsDistinct(r: seq<Session>, x: Session)
    requires DistinctIds(r) && forall s :: s in r ==> s.id != x.id
    ensures DistinctIds(InsertByCreatedDesc(r, x))
  {
    var res := InsertByCreatedDesc(r, x);
    if r == [] || x.createdAt >= r[0].createdAt {
      forall i, j | 0 <= i < j < |res| ensures res[i].id != res[j].id {
        assert res[j] == r[j - 1] && r[j - 1] in r;
        if i > 0 {
          assert res[i] == r[i - 1];
        }
      }
    } else {
      var tail := InsertByCreatedDesc(r[1..], x);
      assert DistinctIds(r[1..]) by {
        forall i, j | 0 <= i < j < |r[1..]| ensures r[1..][i].id != r[1..][j].id {
          assert r[1..][i] == r[i + 1] && r[1..][j] == r[j + 1];
        }
      }
      forall s | s in r[1..] ensures s.id != x.id {
        assert s in r;
      }
      InsertKeepsDistinct(r[1..], x);
      forall i, j | 0 <= i < j < |res| ensures res[i].id != res[j].id {
        assert res[j] == tail[j - 1];
        if i == 0 {
          InsertedFromTail(r, x, j - 1);
          assert r[0] in r;
        } else {
          assert res[i] == tail[i - 1];
        }
      }
    }
  }

  /** The input of `create`. */
  datatype CreateInput = CreateInput(title: string, messages: seq<ChatMessage>)

  /** The input of `update`: every field but the id may be omitted. */
  datatype UpdateInput = UpdateInput(id: Id, title: Option<string>, messages: Option<seq<ChatMessage>>)

  /** The input of `delete`. */
  datatype DeleteInput = DeleteInput(id: Id)

  /** `z.string().min(1)` on one field: no issue, or one `too_small` issue at that path. */
  function MinLength1(field: string, s: string): (issues: seq<Issue>)
    ensures issues == [] <==> |s| >= 1
  {
    if |s| >= 1 then [] else [Issue([field], "too_small")]
  }

  /** The `create` schema: only an empty title is refused. */
  function ValidateCreate(input: CreateInput): (r: Option<seq<Issue>>)
    ensures r.None? <==> input.title != ""
    ensures r.Some? ==> r.value == [Issue(["title"], "too_small")]
  {
    IssuesOrNone(MinLength1("title", input.title))
  }

  /** The `update` schema: a supplied title must be non-empty, and so must the id; title issues come first. */
  function ValidateUpdate(input: UpdateInput): (r: Option<seq<Issue>>)
    ensures r.None? <==> (input.title.None? || input.title.value != "") && input.id != ""
    ensures r.Some? ==> 1 <= |r.value| <= 2 && forall i :: 0 <= i < |r.value| ==> r.value[i].code == "too_small"
    ensures r.Some? && input.id == "" ==> r.value[|r.value| - 1] == Issue(["id"], "too_small")
    ensures r.Some? && input.title.Some? && input.title.value == "" ==> r.value[0] == Issue(["title"], "too_small")
  {
    IssuesOrNone((if input.title.Some? then MinLength1("title", input.title.value) else []) + MinLength1("id", input.id))
  }

  /** The `delete` schema: only an empty id is refused. */
  function ValidateDelete(input: DeleteInput): (r: Option<seq<Issue>>)
    ensures r.None? <==> input.id != ""
    ensures r.Some? ==> r.value == [Issue(["id"], "too_small")]
  {
    IssuesOrNone(MinLength1("id", input.id))
  }

  const SessionNotFound := Orpc(CodeError("NOT_FOUND", "Session not found"))
  const NotOwner := Orpc(CodeError("UNAUTHORIZED", "Unauthorized"))
  const NoSession := Orpc(CodeError("UNAUTHORIZED", LoginRequired))

  /** The shared check of `update` and `delete`: the row must exist, then it must belong to the caller. */
  function Authorize(rows: map<Id, Session>, uid: string, id: Id): (r: Result<Session, Failure>)
    ensures r.Ok? <==> id in rows && rows[id].userId == uid
    ensures r.Ok? ==> r.value == rows[id]
    ensures r.Err? ==> r.error == (if id in rows then NotOwner else SessionNotFound)
  {
    if id !in rows then Err(SessionNotFound)
    else if rows[id].userId != uid then Err(NotOwner)
    else Ok(rows[id])
  }

  /** The `updateData` record: the refreshed timestamp and the fields the input supplied. */
  datatype UpdateData = UpdateData(title: Option<string>, messages: Option<seq<ChatMessage>>, updatedAt: int)

  /** `.set(updateData)` on one row. */
  function ApplyUpdate(s: Session, d: UpdateData): (r: Session)
    ensures r.id == s.id && r.userId == s.userId && r.createdAt == s.createdAt
    ensures r.updatedAt == d.updatedAt
    ensures r.title == (if d.title.Some? then d.title.value else s.title)
    ensures r.messages == (if d.messages.Some? then d.messages.value else s.messages)
  {
    s.(title := if d.title.Some? then d.title.value else s.title,
       messages := if d.messages.Some? then d.messages.value else s.messages,
       updatedAt := d.updatedAt)
  }

  /** Applying the same update twice is applying it once. */
  lemma ApplyUpdateIdempotent(s: Session, d: UpdateData)
    ensures ApplyUpdate(ApplyUpdate(s, d), d) == ApplyUpdate(s, d)
  {
  }

  /** Two successive updates equal one whose supplied fields are the later ones, falling back to the earlier. */
  lemma ApplyUpdateCompose(s: Session, d1: UpdateData, d2: UpdateData)
    ensures ApplyUpdate(ApplyUpdate(s, d1), d2)
      == ApplyUpdate(s, UpdateData(if d2.title.Some? then d2.title else d1.title,
                                   if d2.messages.Some? then d2.messages else d1.messages, d2.updatedAt))
  {
  }

  /** The `create` handler: a signed-in caller gets a new row of their own, stamped `now` twice. */
  function CreateHandler(session: Option<UserSession>, input: CreateInput, now: int, freshId: Id): (r: Result<Session, Failure>)
    ensures r.Err? <==> session.None?
    ensures r.Err? ==> r.error == NoSession
    ensures r.Ok? ==> r.value.id == freshId && r.value.userId == session.value.userId && r.value.title == input.title
                      && r.value.messages == input.messages && r.value.createdAt == now && r.value.updatedAt == now
  {
    if session.None? then Err(NoSession)
    else Ok(Session(freshId, session.value.userId, input.title, input.messages, now, now))
  }

  /** The `update` handler: only the owner's existing row changes, keeping what the input omits. */
  function UpdateHandler(rows: map<Id, Session>, session: Option<UserSession>, input: UpdateInput, now: int): (r: Result<Session, Failure>)
    ensures r.Ok? <==> session.Some? && input.id in rows && rows[input.id].userId == session.value.userId
    ensures session.None? ==> r == Err(NoSession)
    ensures session.Some? && input.id !in rows ==> r == Err(SessionNotFound)
    ensures session.Some? && input.id in rows && rows[input.id].userId != session.value.userId ==> r == Err(NotOwner)
    ensures r.Ok? ==> r.value.id == rows[input.id].id && r.value.userId == session.value.userId
                      && r.value.createdAt == rows[input.id].createdAt && r.value.updatedAt == now
                      && r.value.title == (if input.title.Some? then input.title.value else rows[input.id].title)
                      && r.value.messages == (if input.messages.Some? then input.messages.value else rows[input.id].messages)
  {
    if session.None? then Err(NoSession)
    else
      var existing := Authorize(rows, session.value.userId, input.id);
      if existing.Err? then Err(existing.error)
      else Ok(ApplyUpdate(existing.value, UpdateData(input.title, input.messages, now)))
  }

  /** The `delete` handler: succeeds exactly for the owner's existing row. */
  function DeleteHandler(rows: map<Id, Session>, session: Option<UserSession>, input: DeleteInput): (r: Result<bool, Failure>)
    ensures r.Ok? <==> session.Some? && input.id in rows && rows[input.id].userId == session.value.userId
    ensures r.Ok? ==> r.value
    ensures session.None? ==> r == Err(NoSession)
    ensures session.Some? && input.id !in rows ==> r == Err(SessionNotFound)
    ensures session.Some? && input.id in rows && rows[input.id].userId != session.value.userId ==> r == Err(NotOwner)
  {
    if session.None? then Err(NoSession)
    else
      var existing := Authorize(rows, session.value.userId, input.id);
      if existing.Err? then Err(existing.error) else Ok(true)
  }

  /** What `chat.create` answers. */
  function CreateOutcome(session: Option<UserSession>, input: CreateInput, now: int, freshId: Id): (r: Result<Session, Failure>)
    ensures session.None? ==> r == Err(NoSession)
    ensures session.Some? && input.title == "" ==>
      r.Err? && r.error.Orpc? && r.error.error.code == "INPUT_VALIDATION_FAILED" && r.error.error.status == Some(422)
    ensures r.Ok? <==> session.Some? && input.title != ""
    ensures r.Ok? ==> (r.value.id == freshId && r.value.userId == session.value.userId
                       && r.value.title == input.title && r.value.messages == input.messages
                       && r.value.createdAt == now && r.value.updatedAt == now)
  {
    RunProcedure(Protected, session, input, ValidateCreate, (s, i) => CreateHandler(s, i, now, freshId))
  }

  /** The input passed `update`'s schema: a non-empty id, and a non-empty title when one is given. */
  predicate UpdateInputValid(input: UpdateInput)
  {
    input.id != "" && (input.title.Some? ==> input.title.value != "")
  }

  /** What `chat.update` answers. */
  function UpdateOutcome(rows: map<Id, Session>, session: Option<UserSession>, input: UpdateInput, now: int): (r: Result<Session, Failure>)
    ensures session.None? ==> r == Err(NoSession)
    ensures session.Some? && !UpdateInputValid(input) ==>
      r.Err? && r.error.Orpc? && r.error.error.code == "INPUT_VALIDATION_FAILED" && r.error.error.status == Some(422)
    ensures session.Some? && UpdateInputValid(input) ==>
      r == (var a := Authorize(rows, session.value.userId, input.id);
            if a.Err? then Err(a.error) else Ok(ApplyUpdate(a.value, UpdateData(input.title, input.messages, now))))
  {
    assert UpdateInputValid(input) <==> ValidateUpdate(input).None?;
    RunProcedure(Protected, session, input, ValidateUpdate, (s, i) => UpdateHandler(rows, s, i, now))
  }

  /** What `chat.delete` answers: `{ success: true }` is `Ok(true)`. */
  function DeleteOutcome(rows: map<Id, Session>, session: Option<UserSession>, input: DeleteInput): (r: Result<bool, Failure>)
    ensures session.None? ==> r == Err(NoSession)
    ensures session.Some? && input.id == "" ==>
      r.Err? && r.error.Orpc? && r.error.error.code == "INPUT_VALIDATION_FAILED" && r.error.error.status == Some(422)
    ensures session.Some? && input.id != "" ==>
      r == (var a := Authorize(rows, session.value.userId, input.id); if a.Err? then Err(a.error) else Ok(true))
  {
    RunProcedure(Protected, session, input, ValidateDelete, (s, i) => DeleteHandler(rows, s, i))
  }

  /** A missing id is NOT_FOUND for every caller, owner or not: existence is checked before ownership. */
  lemma NotFoundBeforeOwnership(rows: map<Id, Session>, session: Option<UserSession>, input: UpdateInput, now: int)
    requires session.Some? && UpdateInputValid(input) && input.id !in rows
    ensures UpdateOutcome(rows, session, input, now) == Err(SessionNotFound)
    ensures DeleteOutcome(rows, session, DeleteInput(input.id)) == Err(SessionNotFound)
  {
  }

  /** A successful update changes only the supplied fields and the timestamp. */
  lemma UpdateChangesOnlySupplied(rows: map<Id, Session>, session: Option<UserSession>, input: UpdateInput, now: int)
    requires UpdateOutcome(rows, session, input, now).Ok?
    ensures var s := UpdateOutcome(rows, session, input, now).value;
      input.id in rows && s.id == rows[input.id].id && s.userId == rows[input.id].userId
      && s.createdAt == rows[input.id].createdAt && s.updatedAt == now
      && s.title == (if input.title.Some? then input.title.value else rows[input.id].title)
      && s.messages == (if input.messages.Some? then input.messages.value else rows[input.id].messages)
  {
  }

  /** The session table, keyed by session id. */
  class SessionTable {
    var rows: map<Id, Session>

    /** Every row is stored under its own id. */
    predicate Valid()
      reads this
    {
      forall id :: id in rows ==> rows[id].id == id
    }

    constructor()
      ensures Valid() && rows == map[]
    {
      rows := map[];
    }

    /** `chat.get`: nothing for an anonymous caller, otherwise the caller's rows newest first. */
    method Get(session: Option<UserSession>) returns (r: seq<Session>)
      requires Valid()
      ensures session.None? ==> r == []
      ensures session.Some? ==> IsListing(r, rows, session.value.userId)
    {
      if session.None? {
        return [];
      }
      var uid := session.value.userId;
      var pending := rows.Keys;
      r := [];
      while pending != {}
        invariant pending <= rows.Keys
        invariant SortedByCreatedDesc(r) && DistinctIds(r)
        invariant forall s :: s in r <==> s.id in rows && s.id !in pending && rows[s.id] == s && s.userId == uid
        decreases |pending|
      {
        var id :| id in pending;
        pending := pending - {id};
        if rows[id].userId == uid {
          var x := rows[id];
          var next := InsertByCreatedDesc(r, x);
          InsertKeepsSorted(r, x);
          InsertKeepsDistinct(r, x);
          forall s | s in next ensures s in r || s == x {
            assert s in multiset(next);
          }
          forall s | s in r || s == x ensures s in next {
            assert s in multiset(next);
          }
          r := next;
        }
      }
    }

    /** `chat.create`: inserts the new row under the fresh id. */
    method Create(session: Option<UserSession>, input: CreateInput, now: int, freshId: Id) returns (r: Result<Session, Failure>)
      requires Valid() && freshId !in rows
      modifies this
      ensures Valid()
      ensures r == CreateOutcome(session, input, now, freshId)
      ensures rows == if r.Ok? then old(rows)[freshId := r.value] else old(rows)
    {
      var authed := ProtectedProcedure(PublicProcedure(session).value);
      if authed.Err? {
        return Err(OnError(authed.error));
      }
      var issues := ValidateCreate(input);
      if issues.Some? {
        return Err(OnError(BadRequest(issues.value)));
      }
      var row := Session(freshId, authed.value.userId, input.title, input.messages, now, now);
      rows := rows[freshId := row];
      return Ok(row);
    }

    /** `chat.update`: after the existence and ownership checks, rewrites the row with the supplied fields. */
    method Update(session: Option<UserSession>, input: UpdateInput, now: int) returns (r: Result<Session, Failure>)
      requires Valid()
      modifies this
      ensures Valid()
      ensures r == UpdateOutcome(old(rows), session, input, now)
      ensures rows == if r.Ok? then old(rows)[input.id := r.value] else old(rows)
    {
      var authed := ProtectedProcedure(PublicProcedure(session).value);
      if authed.Err? {
        return Err(OnError(authed.error));
      }
      var issues := ValidateUpdate(input);
      if issues.Some? {
        return Err(OnError(BadRequest(issues.value)));
      }
      if input.id !in rows {
        return Err(OnError(SessionNotFound));
      }
      var existing := rows[input.id];
      if existing.userId != authed.value.userId {
        return Err(OnError(NotOwner));
      }
      var data := UpdateData(None, None, now);
      if input.title.Some? {
        data := data.(title := input.title);
      }
      if input.messages.Some? {
        data := data.(messages := input.messages);
      }
      var updated := ApplyUpdate(existing, data);
      rows := rows[input.id := updated];
      return Ok(updated);
    }

    /** `chat.delete`: after the same checks, removes the row and answers `{ success: true }`. */
    method Delete(session: Option<UserSession>, input: DeleteInput) returns (r: Result<bool, Failure>)
      requires Valid()
      modifies this
      ensures Valid()
      ensures r == DeleteOutcome(old(rows), session, input)
      ensures rows == if r.Ok? then old(rows) - {input.id} else old(rows)
    {
      var authed := ProtectedProcedure(PublicProcedure(session).value);
      if authed.Err? {
        return Err(OnError(authed.error));
      }
      var issues := ValidateDelete(input);
      if issues.Some? {
        return Err(OnError(BadRequest(issues.value)));
      }
      if input.id !in rows {
        return Err(OnError(SessionNotFound));
      }
      if rows[input.id].userId != authed.value.userId {
        return Err(OnError(NotOwner));
      }
      rows := rows - {input.id};
      return Ok(true);
    }
  }
}
