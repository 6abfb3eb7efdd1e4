/**
 * The chat input of the AI editor (src/components/editor/ai/chat-input.tsx): the buttons
 * that start, rename and delete chats, the prompt enhancer trigger, and the submission of a
 * prompt for theme generation behind the session and subscription guards.
 *
 * The component is a class over the objects it drives: the chat provider, the chat form,
 * the prompt enhancer and the auth store. `generated` records the prompts handed to
 * `onThemeGeneration`. Toasts are not modelled; `confirm` is the parameter `confirmed`.
 */
module ChatInput {
  import opened Common
  import opened AiTypes
  import opened Js
  import opened Procedures
  import opened ChatRoutes
  import opened ChatContext
  import opened DraftStore
  import opened ChatForm
  import opened EnhancePrompt
  import opened AuthStore
  import opened Guards

  /** The post-login action type the submit guard records. */
  const GenerateFromChat := "AI_GENERATE_FROM_CHAT"

  /** `isCurrentChatSaved`: a current id is set and the cached listing holds it. */
  function IsCurrentChatSaved(current: Option<Id>, sessions: seq<Session>): (r: bool)
    ensures r <==> Truthy(current) && FindSession(sessions, current.value).Some?
  {
    Truthy(current) && exists s :: s in sessions && s.id == current.value
  }

  /** The images sent with a prompt: those not loading, reduced to their url, in order. */
  function ReadyImages(u: seq<UploadedImage>): (r: seq<ImageRef>)
    ensures |r| <= |u|
    ensures r == [] <==> forall i :: 0 <= i < |u| ==> u[i].loading
    ensures |r| == |u| <==> forall i :: 0 <= i < |u| ==> !u[i].loading
    ensures |r| == |u| ==> forall i :: 0 <= i < |u| ==> r[i] == ImageRef(u[i].url)
    ensures forall x :: x in r <==> exists j :: 0 <= j < |u| && !u[j].loading && x == ImageRef(u[j].url)
  {
    if u == [] then []
    else
      var rest := ReadyImages(u[1..]);
      assert forall j :: 1 <= j < |u| ==> u[j] == u[1..][j - 1];
      (if u[0].loading then [] else [ImageRef(u[0].url)]) + rest
  }

  /** The submit guard's skip test: with no images at all the ready images are empty too, so only `isEmptyPrompt` matters. */
  lemma SubmitSkippedIff(uploaded: seq<UploadedImage>, content: string)
    ensures IsEmptyPrompt(uploaded, content) && |ReadyImages(uploaded)| == 0 <==> IsEmptyPrompt(uploaded, content)
  {
  }

  /** The enabled state of the input's controls for one render. */
  datatype Controls = Controls(canSubmit: bool, editNameShown: bool, editNameDisabled: bool,
                               deleteDisabled: bool, newChatDisabled: bool, enhanceShown: bool,
                               enhanceDisabled: bool, uploaderDisabled: bool)

  /** The controls as rendered; `maxImages` is `MAX_IMAGE_FILES`. */
  function RenderControls(generating: bool, enhancing: bool, initializing: bool,
                          uploaded: seq<UploadedImage>, content: string,
                          current: Option<Id>, sessions: seq<Session>, messageCount: nat, maxImages: nat): (r: Controls)
    ensures r.canSubmit <==> !generating && !enhancing && !initializing
                             && |ReadyImages(uploaded)| == |uploaded| && !IsEmptyPrompt(uploaded, content)
    ensures r.uploaderDisabled <==> generating || enhancing || initializing
                                    || |ReadyImages(uploaded)| < |uploaded| || |uploaded| >= maxImages
    ensures r.editNameShown <==> IsCurrentChatSaved(current, sessions)
    ensures r.editNameDisabled <==> generating || enhancing || initializing
    ensures r.deleteDisabled <==> generating || enhancing || initializing || current.None? || current.value == ""
    ensures r.newChatDisabled <==> generating || enhancing || initializing || messageCount == 0
    ensures r.enhanceShown <==> content != ""
    ensures r.enhanceDisabled <==> generating || initializing
  {
    var uploading := exists i :: 0 <= i < |uploaded| && uploaded[i].loading;
    Controls(
      canSubmit := !generating && !enhancing && !IsEmptyPrompt(uploaded, content) && !uploading && !initializing,
      editNameShown := IsCurrentChatSaved(current, sessions),
      editNameDisabled := generating || enhancing || initializing,
      deleteDisabled := generating || enhancing || initializing || !Truthy(current),
      newChatDisabled := generating || enhancing || initializing || messageCount == 0,
      enhanceShown := content != "",
      enhanceDisabled := generating || initializing,
      uploaderDisabled := generating || enhancing || initializing || uploading || |uploaded| >= maxImages)
  }

  /** While a theme is generated or a prompt enhanced, nothing can be submitted, renamed, deleted, restarted or uploaded. */
  lemma BusyLocksControls(generating: bool, enhancing: bool, initializing: bool, uploaded: seq<UploadedImage>,
                          content: string, current: Option<Id>, sessions: seq<Session>, messageCount: nat, maxImages: nat)
    requires generating || enhancing
    ensures var c := RenderControls(generating, enhancing, initializing, uploaded, content, current, sessions, messageCount, maxImages);
      !c.canSubmit && c.editNameDisabled && c.deleteDisabled && c.newChatDisabled && c.uploaderDisabled
  {
  }

  /**
   * A submission the controls allow always carries something: every uploaded image is ready
   * and sent, and there is an image or non-blank text.
   */
  lemma AllowedSubmitIsNonEmpty(generating: bool, enhancing: bool, initializing: bool, uploaded: seq<UploadedImage>,
                                content: string, current: Option<Id>, sessions: seq<Session>, messageCount: nat, maxImages: nat)
    requires RenderControls(generating, enhancing, initializing, uploaded, content, current, sessions, messageCount, maxImages).canSubmit
    ensures |ReadyImages(uploaded)| == |uploaded|
    ensures |ReadyImages(uploaded)| > 0 || !AllWhitespace(content)
  {
  }

  /**
   * The uploader takes files exactly when nothing is busy, every uploaded image is ready to
   * be sent, and there is room for one more under `MAX_IMAGE_FILES`.
   */
  lemma UploaderEnabledIff(generating: bool, enhancing: bool, initializing: bool, uploaded: seq<UploadedImage>,
                           content: string, current: Option<Id>, sessions: seq<Session>, messageCount: nat, maxImages: nat)
    ensures !RenderControls(generating, enhancing, initializing, uploaded, content, current, sessions, messageCount, maxImages).uploaderDisabled
      <==> !generating && !enhancing && !initializing && |ReadyImages(uploaded)| == |uploaded| && |uploaded| < maxImages
  {
  }

  /** The rename button shows exactly when a current id is set, for a cache that holds its current session. */
  lemma SavedIffCurrent(st: ChatState)
    requires st.currentSessionId.Some? ==> FindSession(st.sessions, st.currentSessionId.value).Some?
    ensures IsCurrentChatSaved(st.currentSessionId, st.sessions) <==> Truthy(st.currentSessionId)
  {
  }

  /**
   * The open chat of a consistent cache is the caller's own row: renaming it to a non-empty
   * title and deleting it both succeed on the server.
   */
  lemma OpenSessionAuthorized(sessions: seq<Session>, rows: map<Id, Session>, viewer: UserSession, id: Id, title: string, now: int)
    requires IsListing(sessions, rows, viewer.userId) && forall k :: k in rows ==> rows[k].id == k
    requires id != "" && FindSession(sessions, id).Some?
    requires title != ""
    ensures DeleteOutcome(rows, Some(viewer), DeleteInput(id)) == Ok(true)
    ensures UpdateOutcome(rows, Some(viewer), UpdateInput(id, Some(title), None), now)
      == Ok(ApplyUpdate(rows[id], UpdateData(Some(title), None, now)))
  {
    ListingLookup(sessions, rows, viewer.userId, id);
  }

  /** After the open chat is deleted the sync effect has nothing to send, whatever the clock. */
  lemma DeletedChatNotResynced(st: ChatState, clock: Clock)
    requires st.currentSessionId.None? && st.messages == []
    ensures SyncDecision(st, clock) == NoRequest
  {
  }

  class ChatInput {
    const chat: ChatProvider
    const form: AIChatForm
    const enhancer: EnhancePrompt
    const auth: AuthStore
    const subscription: SubscriptionQuery
    var editDialogOpen: bool
    var editTitle: string
    /** The prompts handed to `onThemeGeneration`, in order. */
    var generated: seq<AIPromptData>

    /** The parts are consistent, and the enhancer writes the draft the form reads. */
    ghost predicate Valid()
      reads this, chat, chat.server, form, enhancer
    {
      chat.Valid() && form.Valid() && enhancer.draft == form.draft
    }

    constructor(chat: ChatProvider, form: AIChatForm, enhancer: EnhancePrompt, auth: AuthStore, subscription: SubscriptionQuery)
      requires chat.Valid() && form.Valid() && enhancer.draft == form.draft
      ensures Valid() && !editDialogOpen && editTitle == "" && generated == []
      ensures this.chat == chat && this.form == form && this.enhancer == enhancer
      ensures this.auth == auth && this.subscription == subscription
    {
      this.chat := chat;
      this.form := form;
      this.enhancer := enhancer;
      this.auth := auth;
      this.subscription := subscription;
      editDialogOpen := false;
      editTitle := "";
      generated := [];
    }

    /** `handleNewChat`: a new chat, an empty draft and no uploaded images. */
    method HandleNewChat()
      requires Valid()
      modifies chat, form, form.draft
      ensures Valid()
      ensures chat.State() == AfterStartNewChat(old(chat.State())) && chat.appliedThemes == old(chat.appliedThemes)
      ensures form.draft.IsCleared() && form.uploadedImages == []
      ensures form.hasInitialized == old(form.hasInitialized) && form.initializeDispatches == old(form.initializeDispatches)
    {
      chat.StartNewChat();
      form.draft.ClearLocalDraft();
      form.ClearUploadedImages();
    }

    /**
     * `handleEditChatName`: signed out, the sign-in dialog opens; signed in with a current
     * chat, the rename dialog opens on its title (the cache always holds the current chat).
     */
    method HandleEditChatName()
      requires Valid()
      modifies this, auth
      ensures Valid() && generated == old(generated)
      ensures chat.viewer.None? ==>
        auth.isOpen && auth.mode == SignIn && auth.postLoginAction == None && auth.executed == old(auth.executed)
        && editDialogOpen == old(editDialogOpen) && editTitle == old(editTitle)
      ensures chat.viewer.Some? ==> auth.State() == old(auth.State())
      ensures chat.viewer.Some? && Truthy(chat.currentSessionId) ==>
        editDialogOpen && editTitle == FindSession(chat.sessions, chat.currentSessionId.value).value.title
      ensures chat.viewer.Some? && !Truthy(chat.currentSessionId) ==>
        editDialogOpen == old(editDialogOpen) && editTitle == old(editTitle)
    {
      var ok := CheckValidSession(auth, chat.viewer, SignIn);
      if !ok {
        return;
      }
      if !Truthy(chat.currentSessionId) {
        return;
      }
      var current := FindSession(chat.sessions, chat.currentSessionId.value);
      if current.Some? {
        editTitle := current.value.title;
        editDialogOpen := true;
      }
    }

    /**
     * `handleConfirmEditChatName`: with a non-blank title and a current chat, renames it to
     * the trimmed title, which always succeeds, and closes the dialog; otherwise does nothing.
     */
    method HandleConfirmEditChatName(now: int) returns (r: Option<Result<Session, Failure>>)
      requires Valid()
      modifies this, chat, chat.server
      ensures Valid() && generated == old(generated)
      ensures AllWhitespace(old(editTitle)) || !Truthy(old(chat.currentSessionId)) ==>
        r == None && editDialogOpen == old(editDialogOpen) && editTitle == old(editTitle)
        && chat.State() == old(chat.State()) && chat.server.rows == old(chat.server.rows)
      ensures !AllWhitespace(old(editTitle)) && Truthy(old(chat.currentSessionId)) ==>
        var id := old(chat.currentSessionId.value);
        r.Some? && r.value.Ok? && id in old(chat.server.rows)
        && chat.server.rows == old(chat.server.rows)[id := r.value.value]
        && r.value.value == ApplyUpdate(old(chat.server.rows)[id], UpdateData(Some(Trim(old(editTitle))), None, now))
        && !editDialogOpen && editTitle == ""
        && chat.currentSessionId == old(chat.currentSessionId) && chat.messages == old(chat.messages)
    {
      TrimEmptyIff(editTitle);
      var title := Trim(editTitle);
      if title == "" || !Truthy(chat.currentSessionId) {
        return None;
      }
      var id := chat.currentSessionId.value;
      ghost var rows := chat.server.rows;
      assert chat.viewer.Some? && IsListing(chat.sessions, rows, chat.viewer.value.userId);
      OpenSessionAuthorized(chat.sessions, rows, chat.viewer.value, id, title, now);
      ghost var expected := ApplyUpdate(rows[id], UpdateData(Some(title), None, now));
      var res := chat.UpdateSessionMessages(UpdateInput(id, Some(title), None), now);
      assert res == Ok(expected);
      assert chat.Valid() && form.Valid() && enhancer.draft == form.draft;
      r := Some(res);
      editDialogOpen := false;
      editTitle := "";
    }

    /**
     * `handleDeleteChat`: signed out, the sign-in dialog opens; with a current chat and a
     * confirmation, the chat is cleared and then deleted, which always succeeds, leaving no
     * current chat and nothing for the sync effect to send.
     */
    method HandleDeleteChat(confirmed: bool) returns (r: Option<Result<bool, Failure>>)
      requires Valid()
      modifies chat, chat.server, auth
      ensures Valid()
      ensures chat.viewer.None? ==>
        r == None && auth.isOpen && auth.mode == SignIn && auth.postLoginAction == None
        && chat.State() == old(chat.State()) && chat.server.rows == old(chat.server.rows)
      ensures chat.viewer.Some? ==> auth.State() == old(auth.State())
      ensures chat.viewer.Some? && (!Truthy(old(chat.currentSessionId)) || !confirmed) ==>
        r == None && chat.State() == old(chat.State()) && chat.server.rows == old(chat.server.rows)
      ensures chat.viewer.Some? && Truthy(old(chat.currentSessionId)) && confirmed ==>
        r == Some(Ok(true)) && chat.server.rows == old(chat.server.rows) - {old(chat.currentSessionId.value)}
        && chat.currentSessionId == None && chat.messages == []
        && forall clock :: SyncDecision(chat.State(), clock) == NoRequest
    {
      var ok := CheckValidSession(auth, chat.viewer, SignIn);
      if !ok {
        return None;
      }
      if !Truthy(chat.currentSessionId) || !confirmed {
        return None;
      }
      var id := chat.currentSessionId.value;
      chat.StartNewChat();
      OpenSessionAuthorized(chat.sessions, chat.server.rows, chat.viewer.value, id, "x", 0);
      var res := chat.DeleteSession(DeleteInput(id));
      r := Some(res);
      forall clock
        ensures SyncDecision(chat.State(), clock) == NoRequest
      {
        DeletedChatNotResynced(chat.State(), clock);
      }
    }

    /** The prompt data with only the ready images, as sent for enhancement and generation. */
    /** `{ ...promptData, images }`: the form's prompt carrying the uploaded images that are ready. */
    function ReadyPrompt(): (r: AIPromptData)
      reads this, form, form.draft
      ensures r.content == form.PromptData().content && r.mentions == form.PromptData().mentions
      ensures r.images == ReadyImages(form.uploadedImages)
    {
      form.PromptData().(images := ReadyImages(form.uploadedImages))
    }

    /**
     * `handleEnhancePrompt`: signed out, the sign-in dialog opens; without a known
     * subscription, nothing; otherwise the prompt with its ready images is enhanced.
     */
    method HandleEnhancePrompt(now: int)
      requires Valid()
      modifies auth, enhancer
      ensures Valid()
      ensures chat.viewer.None? ==>
        auth.isOpen && auth.mode == SignIn && auth.postLoginAction == None && auth.executed == old(auth.executed)
      ensures chat.viewer.Some? ==> auth.State() == old(auth.State())
      ensures chat.viewer.None? || !CheckValidSubscription(subscription) || AllWhitespace(ReadyPrompt().content) ==>
        unchanged(enhancer)
      ensures chat.viewer.Some? && CheckValidSubscription(subscription) && !AllWhitespace(ReadyPrompt().content) ==>
        enhancer.requests == old(enhancer.requests) + StartRequests(old(enhancer.isLoading), ReadyPrompt())
        && enhancer.isLoading && enhancer.completion == "" && enhancer.startTime == Some(now)
        && enhancer.activeMentions == MentionRefs(ReadyPrompt().mentions)
    {
      var ok := CheckValidSession(auth, chat.viewer);
      if !ok || !CheckValidSubscription(subscription) {
        return;
      }
      enhancer.StartEnhance(ReadyPrompt(), now);
    }

    /**
     * `generateTheme`, also the handler of the `AI_GENERATE_FROM_CHAT` post-login action:
     * clears the draft and the images when asked, then hands the prompt on.
     */
    method GenerateTheme(payload: ThemeGenerationPayload)
      requires Valid()
      modifies this, form, form.draft
      ensures Valid()
      ensures generated == old(generated) + [payload.promptData]
      ensures payload.shouldClearLocalDraft ==> form.draft.IsCleared() && form.uploadedImages == []
      ensures !payload.shouldClearLocalDraft ==>
        form.draft.editorContentDraft == old(form.draft.editorContentDraft)
        && form.draft.imagesDraft == old(form.draft.imagesDraft) && form.uploadedImages == old(form.uploadedImages)
      ensures form.hasInitialized == old(form.hasInitialized) && form.initializeDispatches == old(form.initializeDispatches)
      ensures editDialogOpen == old(editDialogOpen) && editTitle == old(editTitle)
    {
      if payload.shouldClearLocalDraft {
        form.draft.ClearLocalDraft();
        form.ClearUploadedImages();
      }
      generated := generated + [payload.promptData];
    }

    /**
     * `handleGenerateSubmit`: an empty prompt is ignored; signed out, the sign-up dialog
     * opens holding the payload to generate after signing in; without a known subscription,
     * nothing; otherwise the prompt with its ready images is generated and the draft cleared.
     */
    method HandleGenerateSubmit()
      requires Valid()
      modifies this, form, form.draft, auth
      ensures Valid()
      ensures old(form.IsEmpty()) ==>
        generated == old(generated) && auth.State() == old(auth.State()) && form.uploadedImages == old(form.uploadedImages)
        && form.draft.editorContentDraft == old(form.draft.editorContentDraft)
      ensures !old(form.IsEmpty()) && chat.viewer.None? ==>
        generated == old(generated) && auth.isOpen && auth.mode == SignUp
        && auth.postLoginAction == Some(PostLoginAction(GenerateFromChat, Some(ThemeGenerationPayload(old(ReadyPrompt()), true))))
        && form.uploadedImages == old(form.uploadedImages) && form.draft.editorContentDraft == old(form.draft.editorContentDraft)
      ensures !old(form.IsEmpty()) && chat.viewer.Some? && !CheckValidSubscription(subscription) ==>
        generated == old(generated) && auth.State() == old(auth.State()) && form.uploadedImages == old(form.uploadedImages)
      ensures !old(form.IsEmpty()) && chat.viewer.Some? && CheckValidSubscription(subscription) ==>
        generated == old(generated) + [old(ReadyPrompt())] && auth.State() == old(auth.State())
        && form.draft.IsCleared() && form.uploadedImages == []
    {
      var images := ReadyImages(form.uploadedImages);
      if form.IsEmpty() && |images| == 0 {
        return;
      }
      SubmitSkippedIff(form.uploadedImages, form.PromptData().content);
      var payload := ThemeGenerationPayload(form.PromptData().(images := images), true);
      var ok := CheckValidSession(auth, chat.viewer, SignUp, Some(GenerateFromChat), Some(payload));
      if !ok {
        return;
      }
      if !CheckValidSubscription(subscription) {
        return;
      }
      GenerateTheme(payload);
    }
  }
}
