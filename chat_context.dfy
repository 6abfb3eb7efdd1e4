/**
 * The chat provider (src/hooks/use-chat-context.tsx): the client's current session id,
 * the live message list, the cached list of the user's sessions and the stream status,
 * with the operations that change them and the effect that saves the live messages to
 * the server after each exchange.
 *
 * The streaming chat itself is outside the model: its status and messages are fields the
 * operations read and write. The cache of sessions is refreshed from the server table
 * after every successful mutation, standing for the query invalidation.
 */
module ChatContext {
  import opened Common
  import opened AiTypes
  import opened Js
  import opened Procedures
  import opened ChatRoutes

  /** The stream status of the chat: "submitted", "streaming", "ready" or "error". */
  datatype ChatStatus = Submitted | Streaming | Ready | Errored

  /** A local clock reading: day of the month, zero-based month, full year, and the locale time text. */
  datatype Clock = Clock(day: nat, month0: nat, year: nat, time: string)

  /** What the sync effect asks the server to do. */
  datatype SyncRequest = NoRequest | CreateRequest(title: string, messages: seq<ChatMessage>) | UpdateRequest(id: Id, messages: seq<ChatMessage>)

  /** The provider's state. */
  datatype ChatState = ChatState(currentSessionId: Option<Id>, messages: seq<ChatMessage>, sessions: seq<Session>, status: ChatStatus)

  /** A data part streamed from the generate-theme route. */
  datatype StreamDataPart = StreamDataPart(kind: string, status: string, themeStyles: ThemeStyles)

  /** `sessions.find((s) => s.id === id)`: the first session with that id. */
  function FindSession(sessions: seq<Session>, id: Id): (r: Option<Session>)
    ensures r.Some? ==> r.value in sessions && r.value.id == id
    ensures r.None? <==> forall s :: s in sessions ==> s.id != id
  {
    if sessions == [] then None
    else if sessions[0].id == id then Some(sessions[0])
    else FindSession(sessions[1..], id)
  }

  /** In a listing of a user's rows, a lookup by id finds exactly that user's row with that id. */
  lemma ListingLookup(r: seq<Session>, rows: map<Id, Session>, uid: string, id: Id)
    requires IsListing(r, rows, uid)
    requires forall k :: k in rows ==> rows[k].id == k
    ensures FindSession(r, id).Some? <==> id in rows && rows[id].userId == uid
    ensures FindSession(r, id).Some? ==> FindSession(r, id).value == rows[id]
  {
    if id in rows && rows[id].userId == uid {
      assert rows[id] in r;
    }
  }

  /** A JavaScript string id is truthy when present and non-empty. */
  predicate Truthy(id: Option<Id>)
  {
    id.Some? && id.value != ""
  }

  /**
   * A `setCurrentSession(id)` closure created while the state was `captured`, called when
   * the state is `live`: its two early-return tests read the captured id and sessions, and
   * its setters act on the live state.
   */
  function StaleSelect(captured: ChatState, live: ChatState, id: Option<Id>): (r: ChatState)
    ensures id == captured.currentSessionId || id.None? || FindSession(captured.sessions, id.value).None? ==> r == live
    ensures id != captured.currentSessionId && id.Some? && FindSession(captured.sessions, id.value).Some? ==>
      r == live.(currentSessionId := id, messages := FindSession(captured.sessions, id.value).value.messages)
  {
    if id == captured.currentSessionId || id.None? then live
    else match FindSession(captured.sessions, id.value)
      case None => live
      case Some(s) => live.(currentSessionId := id, messages := s.messages)
  }

  /** `setCurrentSession(id)` on an up-to-date closure: switch to a cached session and show its stored messages. */
  function SelectSession(st: ChatState, id: Option<Id>): (r: ChatState)
    ensures r.sessions == st.sessions && r.status == st.status
    ensures id == st.currentSessionId || id.None? || FindSession(st.sessions, id.value).None? ==> r == st
    ensures id != st.currentSessionId && id.Some? && FindSession(st.sessions, id.value).Some? ==>
      r.currentSessionId == id && r.messages == FindSession(st.sessions, id.value).value.messages
  {
    StaleSelect(st, st, id)
  }

  /** Selecting the same session twice is selecting it once. */
  lemma SelectSessionIdempotent(st: ChatState, id: Option<Id>)
    ensures SelectSession(SelectSession(st, id), id) == SelectSession(st, id)
  {
  }

  /** `chat.stop()`: an exchange in flight is aborted and the chat becomes ready; otherwise nothing changes. */
  function StopStream(st: ChatState): (r: ChatState)
    ensures r.status == (if st.status in {Submitted, Streaming} then Ready else st.status)
    ensures r.(status := st.status) == st
  {
    if st.status in {Submitted, Streaming} then st.(status := Ready) else st
  }

  /** `startNewChat`: stop, clear the messages, then `setCurrentSession(null)`, which changes nothing. */
  function AfterStartNewChat(st: ChatState): (r: ChatState)
    ensures r.messages == [] && r.sessions == st.sessions
    ensures r.currentSessionId == st.currentSessionId
    ensures r.status in {Ready, Errored}
  {
    SelectSession(StopStream(st).(messages := []), None)
  }

  /** `startNewChat` as its comment describes it: the chat is cleared and no session is current. */
  function AfterStartNewChatIntended(st: ChatState): (r: ChatState)
    ensures r.messages == [] && r.sessions == st.sessions
    ensures r.currentSessionId == None
    ensures r.status in {Ready, Errored}
  {
    StopStream(st).(messages := [], currentSessionId := None)
  }

  /** `resetMessagesUpToIndex(index)`: keeps `messages.slice(0, index)`. */
  function AfterResetMessages(st: ChatState, index: int): (r: ChatState)
    ensures r.(messages := st.messages) == st
    ensures 0 <= index ==> r.messages == st.messages[..Min(index, |st.messages|)]
    ensures index < 0 ==> r.messages == st.messages[..if |st.messages| + index < 0 then 0 else |st.messages| + index]
  {
    SlicePrefix(st.messages, index);
    st.(messages := Slice(st.messages, 0, index))
  }

  /** A reading a `Date` can give: a day of the month and a zero-based month. */
  predicate ValidClock(c: Clock)
  {
    1 <= c.day <= 31 && c.month0 <= 11
  }

  /** The `DD/MM/YYYY` part of a title. */
  function DatePart(c: Clock): string
  {
    PadStart2(Decimal(c.day)) + "/" + PadStart2(Decimal(c.month0 + 1)) + "/" + Decimal(c.year)
  }

  /** For a valid clock the date is two day digits, a slash, two month digits, a slash and the year's digits. */
  lemma DateLayout(c: Clock)
    requires ValidClock(c)
    ensures var d := DatePart(c);
      |d| == 6 + |Decimal(c.year)| && d[..2] == [DigitChar(c.day / 10), DigitChar(c.day % 10)] && d[2] == '/'
      && d[3..5] == [DigitChar((c.month0 + 1) / 10), DigitChar((c.month0 + 1) % 10)] && d[5] == '/'
      && d[6..] == Decimal(c.year)
  {
    TwoDigits(c.day);
    TwoDigits(c.month0 + 1);
    var dd := [DigitChar(c.day / 10), DigitChar(c.day % 10)];
    var mm := [DigitChar((c.month0 + 1) / 10), DigitChar((c.month0 + 1) % 10)];
    var d := DatePart(c);
    assert d == dd + "/" + mm + "/" + Decimal(c.year);
    assert d[6..] == Decimal(c.year);
  }

  /** Where the date and the time sit in `Chat (<date> <time>)`. */
  lemma TitleLayout(date: string, time: string)
    ensures var r := "Chat (" + date + " " + time + ")";
      |r| == 8 + |date| + |time| && r[..6] == "Chat (" && r[6..6 + |date|] == date
      && r[|r| - |time| - 2..] == " " + time + ")"
  {
    var r := "Chat (" + date + " " + time + ")";
    assert r == "Chat (" + date + (" " + time + ")");
  }

  /**
   * For a valid clock, the title's characters 6 to 11 are the padded day and month, each
   * followed by a slash, and the year's digits run from character 12 up to the space before the time.
   */
  lemma TitleDigits(c: Clock)
    requires ValidClock(c)
    ensures var r := "Chat (" + DatePart(c) + " " + c.time + ")";
      |r| == 14 + |Decimal(c.year)| + |c.time|
      && r[6..8] == [DigitChar(c.day / 10), DigitChar(c.day % 10)] && r[8] == '/'
      && r[9..11] == [DigitChar((c.month0 + 1) / 10), DigitChar((c.month0 + 1) % 10)] && r[11] == '/'
      && r[12..|r| - |c.time| - 2] == Decimal(c.year)
  {
    var date := DatePart(c);
    var r := "Chat (" + date + " " + c.time + ")";
    TitleLayout(date, c.time);
    DateLayout(c);
    var mid := r[6..6 + |date|];
    assert mid == date;
    assert r[6..8] == mid[..2];
    assert r[9..11] == mid[3..5];
    assert r[8] == mid[2] && r[11] == mid[5];
    assert r[12..|r| - |c.time| - 2] == mid[6..];
  }

  /** The title of an automatically created session: `Chat (DD/MM/YYYY time)`, day and month zero-padded. */
  function ChatTitle(c: Clock): (r: string)
    ensures |r| >= 8 + |c.time| && r[..6] == "Chat (" && r[|r| - |c.time| - 2..] == " " + c.time + ")"
    ensures ValidClock(c) ==>
      |r| == 14 + |Decimal(c.year)| + |c.time|
      && r[6..8] == [DigitChar(c.day / 10), DigitChar(c.day % 10)] && r[8] == '/'
      && r[9..11] == [DigitChar((c.month0 + 1) / 10), DigitChar((c.month0 + 1) % 10)] && r[11] == '/'
      && r[12..|r| - |c.time| - 2] == Decimal(c.year)
  {
    TitleLayout(DatePart(c), c.time);
    if ValidClock(c) then
      TitleDigits(c);
      "Chat (" + DatePart(c) + " " + c.time + ")"
    else
      "Chat (" + DatePart(c) + " " + c.time + ")"
  }

  /** The sync effect's decision for the current state. */
  function SyncDecision(st: ChatState, clock: Clock): (r: SyncRequest)
    ensures st.status !in {Ready, Errored} ==> r == NoRequest
    ensures st.status in {Ready, Errored} && !Truthy(st.currentSessionId) ==>
      r == if |st.messages| > 0 then CreateRequest(ChatTitle(clock), st.messages) else NoRequest
    ensures st.status in {Ready, Errored} && Truthy(st.currentSessionId) ==>
      (r == NoRequest <==> FindSession(st.sessions, st.currentSessionId.value).Some?
                           && FindSession(st.sessions, st.currentSessionId.value).value.messages == st.messages)
      && (r != NoRequest ==> r == UpdateRequest(st.currentSessionId.value, st.messages))
  {
    if st.status != Ready && st.status != Errored then NoRequest
    else if !Truthy(st.currentSessionId) && |st.messages| > 0 then CreateRequest(ChatTitle(clock), st.messages)
    else if Truthy(st.currentSessionId) then
      var stored := FindSession(st.sessions, st.currentSessionId.value);
      if stored.Some? && stored.value.messages == st.messages then NoRequest
      else UpdateRequest(st.currentSessionId.value, st.messages)
    else NoRequest
  }

  /** The `onData` filter: the styles to apply for a streamed data part, if any. */
  function ThemeToApply(part: StreamDataPart): (r: Option<ThemeStyles>)
    ensures r.Some? <==> part.kind == "data-generated-theme-styles" && part.status == "ready"
    ensures r.Some? ==> r.value == part.themeStyles
  {
    if part.kind == "data-generated-theme-styles" && part.status == "ready" then Some(part.themeStyles) else None
  }

  /**
   * The state after a successful `duplicateSession` from state `st`: the create callback
   * refreshes the cache and makes the duplicate current; then the `setCurrentSession` that
   * `duplicateSession` captured in `st` is called with the duplicate's id. Its captured
   * sessions predate the duplicate, so it returns at the `!hasSession` test and the live
   * messages stay.
   */
  function AfterDuplicate(st: ChatState, duplicate: Session, refreshed: seq<Session>): (r: ChatState)
    ensures r.sessions == refreshed && r.status == st.status
    ensures FindSession(st.sessions, duplicate.id).None? ==>
      r.currentSessionId == Some(duplicate.id) && r.messages == st.messages
  {
    StaleSelect(st, st.(sessions := refreshed, currentSessionId := Some(duplicate.id)), Some(duplicate.id))
  }

  /** `duplicateSession` as its call to `setCurrentSession` means it: the duplicate is current and shown. */
  function AfterDuplicateIntended(st: ChatState, duplicate: Session, refreshed: seq<Session>): (r: ChatState)
    ensures r.currentSessionId == Some(duplicate.id) && r.sessions == refreshed
    ensures r.messages == duplicate.messages && r.status == st.status
  {
    st.(sessions := refreshed, currentSessionId := Some(duplicate.id), messages := duplicate.messages)
  }

  /**
   * As written, starting a new chat keeps the old session current, so the next sync
   * overwrites that saved session with the empty message list.
   */
  lemma StartNewChatOverwritesSession(st: ChatState, clock: Clock)
    requires Truthy(st.currentSessionId)
    requires FindSession(st.sessions, st.currentSessionId.value).Some?
    requires FindSession(st.sessions, st.currentSessionId.value).value.messages != []
    ensures SyncDecision(AfterStartNewChat(st), clock) == UpdateRequest(st.currentSessionId.value, [])
  {
  }

  /**
   * Intended: after a new chat nothing is saved until a message is sent, and the first
   * exchange creates a new session instead of touching the previous one.
   */
  lemma StartNewChatIntendedIsFresh(st: ChatState, clock: Clock, sent: seq<ChatMessage>)
    requires sent != []
    ensures SyncDecision(AfterStartNewChatIntended(st), clock) == NoRequest
    ensures SyncDecision(AfterStartNewChatIntended(st).(messages := sent), clock) == CreateRequest(ChatTitle(clock), sent)
  {
  }

  /**
   * As written, duplicating a session other than the one on screen leaves the screen's
   * messages in place, so the next sync overwrites the duplicate with them.
   */
  lemma DuplicateOverwritten(st: ChatState, duplicate: Session, refreshed: seq<Session>, clock: Clock)
    requires st.status in {Ready, Errored} && duplicate.id != ""
    requires FindSession(st.sessions, duplicate.id).None?
    requires FindSession(refreshed, duplicate.id) == Some(duplicate)
    requires st.messages != duplicate.messages
    ensures SyncDecision(AfterDuplicate(st, duplicate, refreshed), clock) == UpdateRequest(duplicate.id, st.messages)
  {
  }

  /** Intended: the duplicate is shown with its own messages, and the sync leaves it alone. */
  lemma DuplicateIntendedKept(st: ChatState, duplicate: Session, refreshed: seq<Session>, clock: Clock)
    requires duplicate.id != ""
    requires FindSession(refreshed, duplicate.id) == Some(duplicate)
    ensures SyncDecision(AfterDuplicateIntended(st, duplicate, refreshed), clock) == NoRequest
  {
  }

  /**
   * The provider. `server` is the session table behind the API and `viewer` the signed-in
   * user, if any; `appliedThemes` records the theme styles handed to the theme applier.
   */
  class ChatProvider {
    var currentSessionId: Option<Id>
    var messages: seq<ChatMessage>
    var sessions: seq<Session>
    var status: ChatStatus
    var appliedThemes: seq<ThemeStyles>
    const server: SessionTable
    const viewer: Option<UserSession>

    function State(): ChatState
      reads this
    {
      ChatState(currentSessionId, messages, sessions, status)
    }

    /** The cached sessions are the viewer's listing of the table, and the current id, when set, is one of them. */
    ghost predicate Valid()
      reads this, server
    {
      server.Valid()
      && (viewer.None? ==> sessions == [] && currentSessionId.None?)
      && (viewer.Some? ==> IsListing(sessions, server.rows, viewer.value.userId))
      && (currentSessionId.Some? ==> FindSession(sessions, currentSessionId.value).Some?)
    }

    constructor(server: SessionTable, viewer: Option<UserSession>)
      requires server.Valid()
      ensures Valid() && this.server == server && this.viewer == viewer
      ensures currentSessionId == None && messages == [] && status == Ready && appliedThemes == []
    {
      this.server := server;
      this.viewer := viewer;
      currentSessionId := None;
      messages := [];
      status := Ready;
      appliedThemes := [];
      var listing := server.Get(viewer);
      sessions := listing;
    }

    /** Re-reads the cache from the server, as the query invalidation does. */
    method Refresh()
      requires server.Valid()
      modifies this
      ensures viewer.None? ==> sessions == []
      ensures viewer.Some? ==> IsListing(sessions, server.rows, viewer.value.userId)
      ensures currentSessionId == old(currentSessionId) && messages == old(messages)
      ensures status == old(status) && appliedThemes == old(appliedThemes)
    {
      sessions := server.Get(viewer);
    }

    method SetCurrentSession(id: Option<Id>)
      requires Valid()
      modifies this
      ensures Valid()
      ensures State() == SelectSession(old(State()), id) && appliedThemes == old(appliedThemes)
    {
      if currentSessionId == id {
        return;
      }
      if id.None? {
        return;
      }
      var found := FindSession(sessions, id.value);
      if found.None? {
        return;
      }
      currentSessionId := id;
      messages := found.value.messages;
    }

    method StartNewChat()
      requires Valid()
      modifies this
      ensures Valid()
      ensures State() == AfterStartNewChat(old(State())) && appliedThemes == old(appliedThemes)
    {
      if status == Submitted || status == Streaming {
        status := Ready;
      }
      messages := [];
      SetCurrentSession(None);
    }

    method ResetMessagesUpToIndex(index: int)
      requires Valid()
      modifies this
      ensures Valid()
      ensures State() == AfterResetMessages(old(State()), index) && appliedThemes == old(appliedThemes)
    {
      messages := Slice(messages, 0, index);
    }

    /** `onData`: hands the styles of a ready generated-theme part to the theme applier. */
    method OnData(part: StreamDataPart)
      modifies this
      ensures State() == old(State())
      ensures appliedThemes == old(appliedThemes) + (if ThemeToApply(part).Some? then [ThemeToApply(part).value] else [])
    {
      if part.kind == "data-generated-theme-styles" {
        if part.status == "ready" {
          appliedThemes := appliedThemes + [part.themeStyles];
        }
      }
    }

    /** `createNewSession`: on success the cache is refreshed and the new session becomes current. */
    method CreateNewSession(input: CreateInput, now: int, freshId: Id) returns (r: Result<Session, Failure>)
      requires Valid() && freshId !in server.rows
      modifies this, server
      ensures Valid()
      ensures r == CreateOutcome(viewer, input, now, freshId)
      ensures server.rows == if r.Ok? then old(server.rows)[freshId := r.value] else old(server.rows)
      ensures r.Ok? ==> currentSessionId == Some(freshId)
      ensures r.Err? ==> currentSessionId == old(currentSessionId) && sessions == old(sessions)
      ensures messages == old(messages) && status == old(status) && appliedThemes == old(appliedThemes)
    {
      r := server.Create(viewer, input, now, freshId);
      if r.Ok? {
        Refresh();
        currentSessionId := Some(r.value.id);
        ListingLookup(sessions, server.rows, viewer.value.userId, freshId);
      }
    }

    /** `updateSessionMessages`: on success the cache is refreshed. */
    method UpdateSessionMessages(input: UpdateInput, now: int) returns (r: Result<Session, Failure>)
      requires Valid()
      modifies this, server
      ensures Valid()
      ensures r == UpdateOutcome(old(server.rows), viewer, input, now)
      ensures server.rows == if r.Ok? then old(server.rows)[input.id := r.value] else old(server.rows)
      ensures r.Err? ==> sessions == old(sessions)
      ensures currentSessionId == old(currentSessionId) && messages == old(messages)
      ensures status == old(status) && appliedThemes == old(appliedThemes)
    {
      r := server.Update(viewer, input, now);
      if r.Ok? {
        Refresh();
        if currentSessionId.Some? {
          var cur := currentSessionId.value;
          ListingLookup(old(sessions), old(server.rows), viewer.value.userId, cur);
          ListingLookup(sessions, server.rows, viewer.value.userId, cur);
        }
      }
    }

    /** `deleteSession`: on success no session is current and the cache is refreshed. */
    method DeleteSession(input: DeleteInput) returns (r: Result<bool, Failure>)
      requires Valid()
      modifies this, server
      ensures Valid()
      ensures r == DeleteOutcome(old(server.rows), viewer, input)
      ensures server.rows == if r.Ok? then old(server.rows) - {input.id} else old(server.rows)
      ensures r.Ok? ==> currentSessionId == None
      ensures r.Err? ==> currentSessionId == old(currentSessionId) && sessions == old(sessions)
      ensures messages == old(messages) && status == old(status) && appliedThemes == old(appliedThemes)
    {
      r := server.Delete(viewer, input);
      if r.Ok? {
        currentSessionId := None;
        Refresh();
      }
    }

    /**
     * `duplicateSession`: copies a cached session under the title `<title> (Duplicate)`,
     * answering the new id, or nothing when the id is not cached or the copy fails.
     */
    method DuplicateSession(id: Id, now: int, freshId: Id) returns (r: Option<Id>)
      requires Valid() && freshId !in server.rows
      modifies this, server
      ensures Valid()
      ensures r.Some? <==> FindSession(old(sessions), id).Some?
      ensures r.None? ==> State() == old(State()) && server.rows == old(server.rows)
      ensures r.Some? ==>
        var original := FindSession(old(sessions), id).value;
        r == Some(freshId) && freshId in server.rows
        && server.rows == old(server.rows)[freshId := server.rows[freshId]]
        && server.rows[freshId].title == original.title + " (Duplicate)"
        && server.rows[freshId].messages == original.messages
        && State() == AfterDuplicate(old(State()), server.rows[freshId], sessions)
        && currentSessionId == Some(freshId) && messages == old(messages)
      ensures appliedThemes == old(appliedThemes)
    {
      var original := FindSession(sessions, id);
      if original.None? {
        return None;
      }
      var captured := State();
      ListingLookup(sessions, server.rows, viewer.value.userId, freshId);
      var created := CreateNewSession(CreateInput(original.value.title + " (Duplicate)", original.value.messages), now, freshId);
      if created.Err? {
        return None;
      }
      // the `setCurrentSession` captured before the create: its sessions lack the new row
      var next := StaleSelect(captured, State(), Some(created.value.id));
      currentSessionId := next.currentSessionId;
      messages := next.messages;
      return Some(created.value.id);
    }

    /**
     * One run of the sync effect: creates a session for an unsaved conversation, or saves
     * the live messages into the current session when they differ from the cached copy.
     */
    method RunSyncEffect(clock: Clock, now: int, freshId: Id)
      requires Valid() && freshId !in server.rows && freshId != ""
      modifies this, server
      ensures Valid()
      ensures var d := SyncDecision(old(State()), clock);
        && (d.NoRequest? ==> server.rows == old(server.rows) && State() == old(State()))
        && (d.CreateRequest? ==>
              var o := CreateOutcome(viewer, CreateInput(d.title, d.messages), now, freshId);
              server.rows == (if o.Ok? then old(server.rows)[freshId := o.value] else old(server.rows)))
        && (d.UpdateRequest? ==>
              var o := UpdateOutcome(old(server.rows), viewer, UpdateInput(d.id, None, Some(d.messages)), now);
              server.rows == (if o.Ok? then old(server.rows)[d.id := o.value] else old(server.rows)))
      ensures messages == old(messages) && status == old(status) && appliedThemes == old(appliedThemes)
      ensures viewer.Some? ==> SyncDecision(State(), clock) == NoRequest
    {
      var d := SyncDecision(State(), clock);
      match d {
        case NoRequest =>
        case CreateRequest(title, msgs) =>
          var _ := CreateNewSession(CreateInput(title, msgs), now, freshId);
        case UpdateRequest(id, msgs) =>
          var _ := UpdateSessionMessages(UpdateInput(id, None, Some(msgs)), now);
      }
    }
  }
}
