# tweakcn chat, prompt and font core in Dafny

This project models the sequential logic inside tweakcn, a visual theme editor for
shadcn/ui that generates themes from an AI chat. The models are grouped as follows.

- **Chat-session bookkeeping.**
  - The client chat provider (`ChatContext`) holds the current session id, the live messages, the cached session list and the stream status. It decides when to create or update a stored session.
  - The server session table (`ChatRoutes`) scopes every row to its owner. `update` and `delete` check existence first and ownership second.
- **Prompt input.**
  - `ChatInput` covers the chat input's submit, rename, delete and enhance handlers and its enable predicates.
  - `EnhancePrompt` is the single-flight prompt enhancer.
  - `DraftStore` is the persisted draft store.
  - `ChatForm` covers the form's empty-prompt test and its once-only image restore.
  - `CustomTextarea` holds the editor's key, paste and streaming decisions.
  - `Guards`, `AuthStore` and `AuthDialogWrapper` cover the session and subscription guards and the single post-login action slot.
- **Error classification.**
  - `Errors` holds the application error classes and the error-response shape.
  - `ErrorResponse` models `handleError`.
  - `Procedures` models the oRPC `onError` remapping and the public and protected procedures.
  - `GenerateThemeRoute` models the generate-theme route's abort handling, metadata selection, step limit and usage recording.
- **Data transformations.**
  - `GoogleFonts` and `FontSearch` cover font-catalogue filtering and pagination, plus the client's paging rule.
  - `ThemePresetHelper` merges preset themes.
  - `ThemePresetButtons` distributes presets round-robin into marquee rows.
  - `Helpers` chooses the base URL and the oRPC request headers.

State that the source mutates in place is modelled with classes:
- the chat provider;
- the session table;
- the chat input;
- the chat form;
- the enhancer;
- the draft store;
- the auth store;
- the editor.

Every method states its new state. The decision logic is written as functions, and their properties are proved as lemmas. `Js` gives the JavaScript built-ins the source relies on their ECMAScript meaning: `trim`, `includes`, `slice` with negative indices, `String(n)` and `padStart`. `Common` holds `Option`, `Result` and filtering.

## Model

| member | source | states |
|---|---|---|
| ChatContext.FindSession | src/hooks/use-chat-context.tsx:94 | the first cached session with the id, or none exactly when no session has it |
| ChatContext.ListingLookup | src/hooks/use-chat-context.tsx:174 | in the caller's listing of the table, a lookup by id finds that caller's row with that id and nothing else |
| ChatContext.SelectSession | src/hooks/use-chat-context.tsx:91-100 | the same id, or an id no cached session has, changes nothing; otherwise the id becomes current and the messages become that session's stored messages |
| ChatContext.StaleSelect | src/hooks/use-chat-context.tsx:91-100 | a `setCurrentSession` created from an earlier state tests the id against that state's current id and cached sessions, and only then sets the live id and that session's messages |
| ChatContext.SelectSessionIdempotent | src/hooks/use-chat-context.tsx:93 | selecting a session twice is the same as selecting it once |
| ChatContext.StopStream | src/hooks/use-chat-context.tsx:104 | an exchange in flight is stopped and becomes ready; messages, sessions and current id are untouched |
| ChatContext.AfterStartNewChat | src/hooks/use-chat-context.tsx:102-107 | the stream is stopped and the messages are emptied, but the current session id is kept, because `setCurrentSession(null)` returns early |
| ChatContext.AfterStartNewChatIntended | src/hooks/use-chat-context.tsx:103 | the corrected start: messages empty and no current session |
| ChatContext.AfterResetMessages | src/hooks/use-chat-context.tsx:109-115 | the messages become exactly `slice(0, index)` of the old ones; nothing else changes |
| ChatContext.DateLayout | src/hooks/use-chat-context.tsx:157-158 | for a valid date, the date part is the zero-padded day, a slash, the zero-padded month, a slash and then the year in decimal |
| ChatContext.TitleLayout | src/hooks/use-chat-context.tsx:166 | the title is `Chat (`, the date, a space, the time and `)` |
| ChatContext.TitleDigits | src/hooks/use-chat-context.tsx:156-166 | for a valid date, title characters 6 to 11 are the padded day, a slash, the padded month and a slash, and the year's decimal digits follow up to the space before the time |
| ChatContext.ChatTitle | src/hooks/use-chat-context.tsx:156-166 | the title is `Chat (DD/MM/YYYY time)`: day and month as two zero-padded digits, the year in decimal, and a length of 14 plus the year's digits plus the time's length |
| ChatContext.SyncDecision | src/hooks/use-chat-context.tsx:151-187 | nothing unless the status is ready or error; with no current id and some messages, one create with the dated title and the live messages; with a current id, an update exactly when the stored messages differ from the live ones |
| ChatContext.ThemeToApply | src/hooks/use-chat-context.tsx:81-88 | styles are applied exactly for "data-generated-theme-styles" parts whose status is "ready" |
| ChatContext.AfterDuplicate | src/hooks/use-chat-context.tsx:91-139 | after duplicating an id the old cache lacked, the refreshed list is stored and the duplicate is current, but the live messages are kept: the `setCurrentSession` captured before the create does not find the new row and returns at the `!hasSession` test |
| ChatContext.AfterDuplicateIntended | src/hooks/use-chat-context.tsx:133 | the corrected duplicate: it is current and its own messages are shown |
| ChatContext.StartNewChatOverwritesSession | src/hooks/use-chat-context.tsx:102-107 | after a new chat with a saved session current, the next message makes the sync effect overwrite that session instead of creating one |
| ChatContext.StartNewChatIntendedIsFresh | src/hooks/use-chat-context.tsx:151-169 | with the corrected start, the first message creates a new session |
| ChatContext.DuplicateOverwritten | src/hooks/use-chat-context.tsx:128-133 | after a duplicate, the sync effect overwrites the duplicate's messages whenever the live chat differs from them |
| ChatContext.DuplicateIntendedKept | src/hooks/use-chat-context.tsx:128-133 | with the corrected switch, the sync effect leaves the duplicate alone |
| ChatContext.ChatProvider.constructor | src/hooks/use-chat-context.tsx:39-41 | no current session, no messages, a ready chat, no theme applied, and the invariant that the cache is the viewer's listing |
| ChatContext.ChatProvider.Refresh | src/hooks/use-chat-context.tsx:46 | the cache becomes the viewer's listing of the table, empty for a signed-out viewer, and nothing else changes |
| ChatContext.ChatProvider.SetCurrentSession | src/hooks/use-chat-context.tsx:91-100 | the new state is `SelectSession` of the old one |
| ChatContext.ChatProvider.StartNewChat | src/hooks/use-chat-context.tsx:102-107 | the new state is `AfterStartNewChat` of the old one |
| ChatContext.ChatProvider.ResetMessagesUpToIndex | src/hooks/use-chat-context.tsx:109-115 | the new state is `AfterResetMessages` of the old one |
| ChatContext.ChatProvider.OnData | src/hooks/use-chat-context.tsx:81-88 | the applier receives exactly `ThemeToApply` of the part |
| ChatContext.ChatProvider.CreateNewSession | src/hooks/use-chat-context.tsx:51-58 | the server's create answer is returned; on success the cache is refreshed and the new id becomes current |
| ChatContext.ChatProvider.UpdateSessionMessages | src/hooks/use-chat-context.tsx:43-49 | the server's update answer is returned; on success the cache is refreshed |
| ChatContext.ChatProvider.DeleteSession | src/hooks/use-chat-context.tsx:60-67 | the server's delete answer is returned; on success no session is current and the cache is refreshed |
| ChatContext.ChatProvider.DuplicateSession | src/hooks/use-chat-context.tsx:117-149 | an unknown id gives none and changes nothing; otherwise a session titled `title (Duplicate)` with the same messages is added under the fresh id, its id is returned, and the state is `AfterDuplicate` |
| ChatContext.ChatProvider.RunSyncEffect | src/hooks/use-chat-context.tsx:151-187 | no request leaves table and state unchanged; a create or update changes the table exactly as the server answers that request; the live messages are kept, and for a signed-in viewer nothing remains to sync afterwards |
| ChatRoutes.InsertByCreatedDesc | src/server/orpc/routes/chat.ts:20 | inserting a row lengthens the list by one and adds exactly that row |
| ChatRoutes.InsertKeepsSorted | src/server/orpc/routes/chat.ts:20 | inserting a row into a newest-first list leaves it newest first |
| ChatRoutes.InsertKeepsDistinct | src/server/orpc/routes/chat.ts:16-22 | inserting a row with a new id keeps the ids distinct |
| ChatRoutes.MinLength1 | src/server/orpc/routes/chat.ts:28 | `min(1)` reports an issue exactly for the empty string |
| ChatRoutes.Authorize | src/server/orpc/routes/chat.ts:72-88 | NOT_FOUND when the id is missing, else UNAUTHORIZED when another user owns the row, else that row |
| ChatRoutes.ApplyUpdate | src/server/orpc/routes/chat.ts:90-110 | the supplied title and messages replace the stored ones, `updatedAt` is refreshed, and id, owner and `createdAt` are kept |
| ChatRoutes.ApplyUpdateIdempotent | src/server/orpc/routes/chat.ts:106-110 | applying the same update twice is the same as applying it once |
| ChatRoutes.ApplyUpdateCompose | src/server/orpc/routes/chat.ts:98-104 | two updates in a row equal one update whose fields are the later ones where given |
| ChatRoutes.CreateOutcome | src/server/orpc/routes/chat.ts:25-53 | UNAUTHORIZED without a session, INPUT_VALIDATION_FAILED for an empty title, otherwise the caller's new row with `createdAt == updatedAt` under the fresh id |
| ChatRoutes.ValidateCreate | src/server/orpc/routes/chat.ts:26-31 | the input is refused exactly for an empty title, with one `too_small` issue at `title` |
| ChatRoutes.ValidateUpdate | src/server/orpc/routes/chat.ts:56-66 | the input is refused exactly when a supplied title is empty or the id is empty; one or two `too_small` issues, the title's first |
| ChatRoutes.ValidateDelete | src/server/orpc/routes/chat.ts:116 | the input is refused exactly for an empty id, with one `too_small` issue at `id` |
| ChatRoutes.CreateHandler | src/server/orpc/routes/chat.ts:32-53 | without a session UNAUTHORIZED; otherwise the caller's row under the fresh id with the input's title and messages, created and updated `now` |
| ChatRoutes.UpdateHandler | src/server/orpc/routes/chat.ts:67-113 | succeeds exactly for the caller's existing row; otherwise NOT_FOUND for a missing row, UNAUTHORIZED for another's or no session; the result keeps id, owner and creation time, is updated `now`, and takes each field the input supplies |
| ChatRoutes.DeleteHandler | src/server/orpc/routes/chat.ts:117-142 | answers true exactly for the caller's existing row; otherwise NOT_FOUND for a missing row, UNAUTHORIZED for another's or no session |
| ChatRoutes.UpdateOutcome | src/server/orpc/routes/chat.ts:55-113 | UNAUTHORIZED without a session, 422 for an invalid input, then the existence and ownership checks, then the updated row |
| ChatRoutes.DeleteOutcome | src/server/orpc/routes/chat.ts:115-142 | the same checks as update, then `{ success: true }` |
| ChatRoutes.NotFoundBeforeOwnership | src/server/orpc/routes/chat.ts:78-88 | a missing id is NOT_FOUND for every signed-in caller with a valid input |
| ChatRoutes.UpdateChangesOnlySupplied | src/server/orpc/routes/chat.ts:90-112 | a successful update changes only the supplied fields and the timestamp |
| ChatRoutes.SessionTable.constructor | src/server/orpc/routes/chat.ts:7 | the table starts empty |
| ChatRoutes.SessionTable.Get | src/server/orpc/routes/chat.ts:11-23 | nothing for an anonymous caller; otherwise each of the caller's rows exactly once, newest first, and nothing else |
| ChatRoutes.SessionTable.Create | src/server/orpc/routes/chat.ts:25-53 | the answer is `CreateOutcome`; on success the new row is stored under the fresh id and other rows are unchanged |
| ChatRoutes.SessionTable.Update | src/server/orpc/routes/chat.ts:55-113 | the answer is `UpdateOutcome`; on success only that row is rewritten, and on failure the table is unchanged |
| ChatRoutes.SessionTable.Delete | src/server/orpc/routes/chat.ts:115-142 | the answer is `DeleteOutcome`; on success only that id is removed, and on failure the table is unchanged |
| ChatInput.IsCurrentChatSaved | src/components/editor/ai/chat-input.tsx:73-74 | holds exactly when a current id is set and some cached session has it |
| ChatInput.ReadyImages | src/components/editor/ai/chat-input.tsx:184-186 | the urls of exactly the images that are not loading; empty exactly when every image is loading; every image is sent, in order, exactly when none is loading |
| ChatInput.SubmitSkippedIff | src/components/editor/ai/chat-input.tsx:189 | the early-return test is the empty-prompt test alone: an empty prompt never has ready images |
| ChatInput.BusyLocksControls | src/components/editor/ai/chat-input.tsx:225-231 | while generating or enhancing, submit, rename, delete, new chat and the uploader are all disabled |
| ChatInput.RenderControls | src/components/editor/ai/chat-input.tsx:225-316 | submit is enabled exactly when nothing is busy, every image is ready and the prompt is not empty; the uploader is disabled exactly when something is busy, an image is loading or `MAX_IMAGE_FILES` are there; the rename button shows exactly for a saved current chat and is disabled while anything is busy; delete needs a current id and new chat some messages; enhance shows for any text and is disabled while generating or initializing |
| ChatInput.ChatInput.ReadyPrompt | src/components/editor/ai/chat-input.tsx:184-195 | the form's prompt content and mentions, carrying exactly the ready images' urls |
| ChatInput.AllowedSubmitIsNonEmpty | src/components/editor/ai/chat-input.tsx:225-231 | when submit is enabled, every uploaded image is ready and sent, and there is an image or non-blank text |
| ChatInput.UploaderEnabledIff | src/components/editor/ai/chat-input.tsx:310-316 | the uploader is enabled exactly when nothing is busy, every uploaded image is ready and fewer than `MAX_IMAGE_FILES` are uploaded |
| ChatInput.SavedIffCurrent | src/components/editor/ai/chat-input.tsx:73-74 | when the cache holds the current session, a chat is saved exactly when a session is current |
| ChatInput.OpenSessionAuthorized | src/components/editor/ai/chat-input.tsx:116-151 | for a saved current session, the rename and delete requests the input sends pass the server's existence and ownership checks |
| ChatInput.DeletedChatNotResynced | src/components/editor/ai/chat-input.tsx:146-151 | after a delete, the sync effect sends nothing, whatever the clock |
| ChatInput.ChatInput.constructor | src/components/editor/ai/chat-input.tsx:69-70 | the rename dialog is closed with an empty title and nothing has been generated |
| ChatInput.ChatInput.HandleNewChat | src/components/editor/ai/chat-input.tsx:92-96 | a new chat is started, the draft is cleared and the uploaded images are emptied |
| ChatInput.ChatInput.HandleEditChatName | src/components/editor/ai/chat-input.tsx:98-114 | signed out, the sign-in dialog opens; with a current cached session, the dialog opens on its title; otherwise nothing changes |
| ChatInput.ChatInput.HandleConfirmEditChatName | src/components/editor/ai/chat-input.tsx:116-127 | a blank title or no current session does nothing; otherwise the trimmed title is stored for that session and the dialog closes with an empty title |
| ChatInput.ChatInput.HandleDeleteChat | src/components/editor/ai/chat-input.tsx:129-156 | the session guard, a current id and confirmation are required; then a new chat is started and the current session deleted, leaving no current session, no messages and nothing to sync |
| ChatInput.ChatInput.HandleEnhancePrompt | src/components/editor/ai/chat-input.tsx:161-169 | signed out, the sign-in dialog opens with no pending action; without a valid subscription, or for a blank prompt, the enhancer is unchanged; otherwise the enhancer starts on the prompt with the ready images |
| ChatInput.ChatInput.GenerateTheme | src/components/editor/ai/chat-input.tsx:171-180 | the draft and uploaded images are cleared when the payload asks, and the prompt is generated |
| ChatInput.ChatInput.HandleGenerateSubmit | src/components/editor/ai/chat-input.tsx:182-205 | an empty prompt does nothing; signed out, the sign-up dialog opens with the "AI_GENERATE_FROM_CHAT" action carrying the prompt; without a subscription nothing is generated; otherwise the prompt is generated and the draft cleared |
| ChatForm.EditorDocument | src/hooks/use-ai-chat-form.ts:59-61 | a missing draft reads as an empty doc |
| ChatForm.IsEmptyPrompt | src/hooks/use-ai-chat-form.ts:63-65 | holds exactly when no image is uploaded and the text is whitespace only |
| ChatForm.ImageMakesNonEmpty | src/hooks/use-ai-chat-form.ts:63-64 | any uploaded image, even one still loading, makes the prompt non-empty |
| ChatForm.Restored | src/hooks/use-ai-chat-form.ts:38 | the restored images keep only the urls, in order |
| ChatForm.AIChatForm.constructor | src/hooks/use-ai-chat-form.ts:22-28 | no image uploaded, not initialised, nothing dispatched |
| ChatForm.AIChatForm.InitializeEffect | src/hooks/use-ai-chat-form.ts:31-42 | dispatches once, exactly when not yet initialised and the persisted images are non-empty, restoring their urls |
| ChatForm.AIChatForm.ClearUploadedImages | src/hooks/use-ai-chat-form.ts:48 | the uploaded images become empty |
| ChatForm.AIChatForm.HandleContentChange | src/hooks/use-ai-chat-form.ts:67-69 | the document becomes the editor draft unchanged, so the prompt becomes its conversion |
| ChatForm.AIChatForm.PromptData | src/hooks/use-ai-chat-form.ts:59-61 | the converted editor draft, or the converted empty document when there is no draft |
| ChatForm.AIChatForm.IsEmpty | src/hooks/use-ai-chat-form.ts:63-65 | empty exactly when no image is uploaded and the prompt text is blank |
| EnhancePrompt.MentionRefs | src/hooks/use-ai-enhance-prompt.ts:66-67 | the id and label of each mention, in order |
| EnhancePrompt.PromptOfCompletion | src/hooks/use-ai-enhance-prompt.ts:27-34 | the text with the recorded mentions, each carrying empty light and dark theme data |
| EnhancePrompt.MentionRoundTrip | src/hooks/use-ai-enhance-prompt.ts:47-52 | projecting rebuilt mentions gives the recorded references back |
| EnhancePrompt.MentionRebuildIff | src/hooks/use-ai-enhance-prompt.ts:47-52 | rebuilt mentions equal the originals exactly when the originals had empty theme data |
| EnhancePrompt.DerivedContent | src/hooks/use-ai-enhance-prompt.ts:43-55 | none exactly when the completion is empty, otherwise the converted prompt |
| EnhancePrompt.EnhancePrompt.EnhancedPromptAsJsonContent | src/hooks/use-ai-enhance-prompt.ts:43-55 | nothing while the completion is empty; otherwise the converted prompt whose content is the completion and whose mentions are the recorded ones with empty theme data |
| EnhancePrompt.StartRequests | src/hooks/use-ai-enhance-prompt.ts:59-69 | a stop first exactly when a request is loading, then one request with the prompt's text |
| EnhancePrompt.EnhancePrompt.constructor | src/hooks/use-ai-enhance-prompt.ts:40-41 | no completion, no mentions, no request made |
| EnhancePrompt.EnhancePrompt.Stop | src/hooks/use-ai-enhance-prompt.ts:75 | the request in flight is stopped and the text so far is kept |
| EnhancePrompt.EnhancePrompt.StartEnhance | src/hooks/use-ai-enhance-prompt.ts:57-72 | a blank prompt changes nothing; otherwise the earlier request is stopped if loading, the completion is reset, the mentions are recorded and one request starts |
| EnhancePrompt.EnhancePrompt.StopEnhance | src/hooks/use-ai-enhance-prompt.ts:74-80 | stops, then writes the derived content to the draft only when there is some |
| EnhancePrompt.EnhancePrompt.OnFinish | src/hooks/use-ai-enhance-prompt.ts:26-37 | the final text with the recorded mentions becomes the editor draft |
| DraftStore.AILocalDraftStore.constructor | src/store/ai-local-draft-store.ts:19-21 | no editor content and no images |
| DraftStore.AILocalDraftStore.SetEditorContentDraft | src/store/ai-local-draft-store.ts:20 | only the editor draft changes |
| DraftStore.AILocalDraftStore.SetImagesDraft | src/store/ai-local-draft-store.ts:22 | only the image list changes |
| DraftStore.AILocalDraftStore.ClearLocalDraft | src/store/ai-local-draft-store.ts:23 | back to the initial state whatever the state was, so clearing is idempotent |
| CustomTextarea.HandleKeyDown | src/components/editor/custom-textarea.tsx:69-90 | disabled consumes every key; Enter without Shift submits exactly when allowed and no mention list is open; handled exactly when disabled or submitted |
| CustomTextarea.HandlePaste | src/components/editor/custom-textarea.tsx:91-127 | disabled consumes every paste; with no limit nothing is intercepted; with a limit, an image handler and image files, exactly those files go to the handler and the paste is consumed; text is refused exactly when it would exceed the limit |
| CustomTextarea.PasteUpToLimitAccepted | src/components/editor/custom-textarea.tsx:114-126 | a text paste that exactly reaches the limit is accepted |
| CustomTextarea.ShouldWriteExternal | src/components/editor/custom-textarea.tsx:148-154 | external content is written exactly while streaming, when present and different from the editor's |
| CustomTextarea.IsLimitExceeded | src/components/editor/custom-textarea.tsx:170-172 | exceeded exactly when a non-zero limit is set and the count is over it |
| CustomTextarea.ShouldShowCount | src/components/editor/custom-textarea.tsx:170-172 | the counter shows exactly when a non-zero limit is set and the count reaches 90% of it |
| CustomTextarea.ExceededIsShown | src/components/editor/custom-textarea.tsx:170-172 | an exceeded count is always shown |
| CustomTextarea.Editor.constructor | src/components/editor/custom-textarea.tsx:40-60 | the editor starts with the given content or an empty doc, editable and focused exactly when not disabled |
| CustomTextarea.Editor.SyncDisabled | src/components/editor/custom-textarea.tsx:140-145 | editable becomes the negation of disabled, and the content is kept |
| CustomTextarea.Editor.StreamExternal | src/components/editor/custom-textarea.tsx:148-164 | the content is replaced exactly when `ShouldWriteExternal` holds, after which no further write is due |
| Guards.CheckValidSession | src/hooks/use-guards.ts:22-33 | true exactly when a session exists; otherwise the dialog opens with the mode and the post-login action |
| Guards.CheckValidSubscription | src/hooks/use-guards.ts:43-49 | true exactly when not pending and a status is known |
| Guards.CheckValidProSubscription | src/hooks/use-guards.ts:52-58 | true exactly when not pending and a status is known |
| Guards.SubscriptionGuardsAgree | src/hooks/use-guards.ts:43-58 | the two subscription guards agree on every input |
| AuthStore.AuthStore.constructor | src/components/auth-dialog-wrapper.tsx:11-12 | the dialog is closed and no action is pending |
| AuthStore.AuthStore.OpenAuthDialog | src/hooks/use-guards.ts:28 | the dialog opens with the mode, and the slot holds the given action or nothing |
| AuthStore.AuthStore.CloseAuthDialog | src/components/auth-dialog-wrapper.tsx:17 | the dialog closes and the slot is kept |
| AuthStore.AuthStore.ClearPostLoginAction | src/components/auth-dialog-wrapper.tsx:23 | the slot empties and the dialog is kept |
| AuthStore.AuthStore.ExecutePostLoginAction | src/components/auth-dialog-wrapper.tsx:22 | the action is appended once to the actions run, and nothing else changes |
| AuthDialogWrapper.EffectStep | src/components/auth-dialog-wrapper.tsx:15-25 | signed in, the dialog closes and a pending action runs and is cleared; signed out, nothing changes |
| AuthDialogWrapper.EffectStepIdempotent | src/components/auth-dialog-wrapper.tsx:22-23 | a second run changes nothing |
| AuthDialogWrapper.ActionRunsOnce | src/components/auth-dialog-wrapper.tsx:20-24 | however many times the effect runs after sign-in, a stored action runs exactly once |
| AuthDialogWrapper.RepeatSettled | src/components/auth-dialog-wrapper.tsx:15-25 | after the first run, further runs change nothing |
| AuthDialogWrapper.RunEffect | src/components/auth-dialog-wrapper.tsx:15-25 | the store's new state is `EffectStep` of the old one |
| Errors.ErrorDefaults | src/types/errors.ts:3-25 | omitted messages default to "Unauthorized" and "Theme not found", and given messages and details are kept |
| Errors.ParseApiErrorCode | src/types/errors.ts:27 | exactly the three literals are codes |
| Errors.ApiErrorCodeRoundTrip | src/types/errors.ts:27 | every code reads back as itself |
| Errors.ParseErrorResponse | src/types/errors.ts:41-46 | accepted exactly for an object whose present `code` and `message` are strings and whose present `status` is a number; each field is read from the object, `data` as given, absent ones stay absent; an empty object gives the all-absent body |
| Errors.ErrorResponseRoundTrip | src/types/errors.ts:41-48 | a serialised error body parses back to itself |
| ErrorResponse.JsonError | src/lib/error-response.ts:5-16 | the JSON body repeats the code, message, data and status of the response |
| ErrorResponse.DetailsObject | src/lib/error-response.ts:23 | the data object's `details` field is the error's details, absent when they are |
| ErrorResponse.HandleError | src/lib/error-response.ts:18-32 | a validation error gives 400 VALIDATION_ERROR with details; unauthorized gives 401 UNAUTHORIZED with no data; anything else gives a plain 500 |
| ErrorResponse.JsonResponsesAreConsistent | src/lib/error-response.ts:5-16 | each JSON response carries the error's message, repeats its status, uses one of the three codes, and parses back through the response schema |
| ErrorResponse.InternalErrorsLeakNothing | src/lib/error-response.ts:30-31 | every 500 is the same response whatever the error |
| ErrorResponse.HandleErrorStatuses | src/lib/error-response.ts:18-32 | the status is 400, 401 or 500, each exactly for its error kind, and only 500 is not JSON |
| Procedures.OnError | src/server/orpc/procedures.ts:19-44 | a BAD_REQUEST validation failure becomes 422 INPUT_VALIDATION_FAILED with its issues; an INTERNAL_SERVER_ERROR one becomes OUTPUT_VALIDATION_FAILED; others pass unchanged |
| Procedures.OnErrorIdempotent | src/server/orpc/procedures.ts:19-44 | remapping an already remapped error changes nothing |
| Procedures.OnErrorStatus | src/server/orpc/procedures.ts:27-32 | a remapped error has status 422 exactly when it was an input validation failure or already had 422 |
| Procedures.PublicProcedure | src/server/orpc/procedures.ts:47-64 | never rejects and forwards the session, present or not |
| Procedures.ProtectedProcedure | src/server/orpc/procedures.ts:66-81 | rejects with UNAUTHORIZED exactly when there is no session, otherwise forwards it |
| Procedures.IssuesOrNone | src/server/orpc/procedures.ts:23 | an input fails its schema exactly when it has issues |
| Procedures.RunProcedure | src/server/orpc/procedures.ts:13-81 | a protected call without a session is UNAUTHORIZED; an invalid input is 422; otherwise the handler's answer, with its failures remapped |
| Procedures.AuthBeforeValidation | src/server/orpc/procedures.ts:66-72 | for a signed-out caller the input's validity makes no difference |
| GenerateThemeRoute.ErrorName | src/app/api/generate-theme/route.ts:70-71 | there is no name to test exactly when the thrown value is not an `Error`; otherwise it is the error's name |
| GenerateThemeRoute.CatchResponse | src/app/api/generate-theme/route.ts:68-77 | "AbortError" and "ResponseAborted" give 499 "Request aborted by user"; every other error goes to `handleError` |
| GenerateThemeRoute.Post | src/app/api/generate-theme/route.ts:18-78 | with no failure the stream is answered, otherwise the catch response |
| GenerateThemeRoute.AbortStatusIff | src/app/api/generate-theme/route.ts:68-76 | the status is 499 exactly for an aborted request |
| GenerateThemeRoute.IsAbort | src/app/api/generate-theme/route.ts:69-72 | exactly an `Error` named "AbortError" or "ResponseAborted"; none of the application's own error classes, and no thrown non-error |
| GenerateThemeRoute.MessageMetadata | src/app/api/generate-theme/route.ts:56-61 | metadata is attached exactly to "generateTheme" tool results, carrying their output as `themeStyles` |
| GenerateThemeRoute.StreamMetadata | src/app/api/generate-theme/route.ts:54-63 | every entry is the metadata of some part, and every `generateTheme` result's `{themeStyles}` entry is attached |
| GenerateThemeRoute.OneMetadata | src/app/api/generate-theme/route.ts:54-63 | a single part carries its own metadata entry, if any |
| GenerateThemeRoute.MetadataAppend | src/app/api/generate-theme/route.ts:54-63 | the metadata of two successive stretches of a stream is the first's followed by the second's, so entries follow stream order |
| GenerateThemeRoute.NoGenerateThemeNoMetadata | src/app/api/generate-theme/route.ts:56-61 | a stream without a "generateTheme" result carries no metadata |
| GenerateThemeRoute.StepsFrom | src/app/api/generate-theme/route.ts:35 | the loop runs at least one step and at most 5, continuing only after steps that called tools |
| GenerateThemeRoute.StepsTaken | src/app/api/generate-theme/route.ts:35 | between 1 and 5 steps; fewer than 5 only when the last step called no tool |
| GenerateThemeRoute.EndlessToolCallsStopAtFive | src/app/api/generate-theme/route.ts:35 | a model that always calls tools stops after exactly 5 steps |
| GenerateThemeRoute.OnFinish | src/app/api/generate-theme/route.ts:39-49 | never fails; a usage-recording failure is logged with action "recordAIUsage" and nothing else is |
| GoogleFonts.LimitIssues | src/server/orpc/routes/googleFonts.ts:24 | an issue exactly when the limit is above 100 or below the minimum |
| GoogleFonts.ApplyDefaults | src/server/orpc/routes/googleFonts.ts:22-25 | omitted fields become "", 20 and 0, bypassing the range check; given fields are kept |
| GoogleFonts.FilterFonts | src/server/orpc/routes/googleFonts.ts:40-50 | an order-preserving subsequence of the catalogue, no longer than it |
| GoogleFonts.ByQuery | src/server/orpc/routes/googleFonts.ts:42-46 | the family filter keeps the catalogue order |
| GoogleFonts.ByCategory | src/server/orpc/routes/googleFonts.ts:48-50 | the category filter keeps the order |
| GoogleFonts.FilterFontsMembers | src/server/orpc/routes/googleFonts.ts:40-50 | a font is kept exactly when it is in the catalogue, its lower-cased family contains the query and it matches the category |
| GoogleFonts.Respond | src/server/orpc/routes/googleFonts.ts:52-60 | `total` is the filtered length; offset and limit are echoed; `hasMore` holds exactly when `offset + limit < total`; a page is at most `limit` long; an in-range offset gives the filtered list from offset; an offset at or past `total` gives an empty page; a negative offset or end counts from the end of the filtered list, as `slice` does |
| GoogleFonts.ValidateFontsWith | src/server/orpc/routes/googleFonts.ts:20-27 | the input is refused exactly when a supplied limit is outside the bounds, every issue at `limit` |
| GoogleFonts.FontsHandler | src/server/orpc/routes/googleFonts.ts:28-63 | fails exactly when the catalogue fetch fails, with INTERNAL_SERVER_ERROR; otherwise a page of the catalogue with the defaulted offset and limit and `hasMore` exactly when `offset + limit < total` |
| GoogleFonts.GetGoogleFontsWith | src/server/orpc/routes/googleFonts.ts:19-63 | a limit outside the range is 422, a failed fetch is INTERNAL_SERVER_ERROR, otherwise the filtered page |
| GoogleFonts.GetGoogleFonts | src/server/orpc/routes/googleFonts.ts:24 | the procedure with the schema's minimum of 50 |
| GoogleFonts.DefaultLimitOutsideRange | src/server/orpc/routes/googleFonts.ts:24 | the default limit 20 is below the schema's minimum |
| GoogleFonts.FetchFailureSurfaces | src/server/orpc/routes/googleFonts.ts:32-39 | a failed catalogue fetch answers INTERNAL_SERVER_ERROR "Failed to fetch Google Fonts" |
| FontSearch.Resolve | src/hooks/use-font-search.ts:15-20 | category defaults to "all", limit to 20 and enabled to true |
| FontSearch.PageInput | src/hooks/use-font-search.ts:24-29 | each page request carries the search's query, category and limit and the page's offset |
| FontSearch.OnlyOffsetVaries | src/hooks/use-font-search.ts:24-29 | two page requests of one search differ only in the offset |
| FontSearch.NextPageParam | src/hooks/use-font-search.ts:31-33 | the next offset is `offset + limit` exactly when more fonts remain, otherwise there is none |
| FontSearch.PageAnswered | src/hooks/use-font-search.ts:24-29 | with a limit the server accepts, a page request is answered with the filtered slice for the search's query, category, limit and that offset |
| FontSearch.PageOf | src/hooks/use-font-search.ts:24-33 | with an accepted limit, the page at an offset is the next slice of the filtered list, with more exactly when the slice ends early, and the next offset is `offset + limit` |
| FontSearch.FetchStep | src/hooks/use-font-search.ts:24-33 | following the pages from an offset is its slice followed by the pages from the next offset, or the rest of the list when none remain |
| FontSearch.PageWalk | src/hooks/use-font-search.ts:31-33 | any page walk that answers each offset with the next `limit` entries and continues while entries remain yields everything from its start |
| FontSearch.PagingCoversAll | src/hooks/use-font-search.ts:24-33 | with an accepted limit, fetching pages until none remain returns the whole filtered list in order |
| FontSearch.FetchPagesWith | src/hooks/use-font-search.ts:22-33 | a page size the server refuses ends the search with no font; its full behaviour for an accepted size is `PagingCoversAll` |
| FontSearch.DefaultSearchRejected | src/hooks/use-font-search.ts:18 | the default search is rejected with 422, so paging finds no font |
| FontSearch.DefaultSearchIntendedCoversAll | src/hooks/use-font-search.ts:18 | with the corrected minimum, the default search pages through the whole filtered list |
| ThemePresetHelper.OrEmpty | src/utils/theme-preset-helper.ts:19-25 | a missing section reads as an empty map |
| ThemePresetHelper.GetPresetThemeStyles | src/utils/theme-preset-helper.ts:5-28 | "default" or an unknown name gives the defaults; a light key comes from the preset's light, else the default; a dark key from the preset's dark, then its light, then the default dark |
| ThemePresetHelper.KeysCoverDefaults | src/utils/theme-preset-helper.ts:17-26 | every default key is present in both modes of the result |
| ThemePresetHelper.DarkInheritsLight | src/utils/theme-preset-helper.ts:22-26 | a light override that the preset's dark does not redefine also applies in dark mode |
| ThemePresetHelper.EmptyPresetIsDefault | src/utils/theme-preset-helper.ts:17-26 | a preset with no styles gives the defaults |
| ThemePresetButtons.Rows | src/components/home/theme-preset-buttons.tsx:55-58 | always three rows |
| ThemePresetButtons.RowOfSize | src/components/home/theme-preset-buttons.tsx:55-58 | row r holds `(n + 2 - r) / 3` presets |
| ThemePresetButtons.RowOfIndex | src/components/home/theme-preset-buttons.tsx:55-58 | the k-th entry of row r is preset `3k + r` |
| ThemePresetButtons.RowSizes | src/components/home/theme-preset-buttons.tsx:55-58 | the row sizes sum to n and differ by at most one |
| ThemePresetButtons.NamePosition | src/components/home/theme-preset-buttons.tsx:55-58 | preset i is in row `i mod 3` at position `i / 3` |
| ThemePresetButtons.DistributeRows | src/components/home/theme-preset-buttons.tsx:55-58 | the loop builds exactly `Rows(names)` |
| ThemePresetButtons.Duplicate | src/components/home/theme-preset-buttons.tsx:66 | four copies in a row, length `4k` |
| ThemePresetButtons.SelectedCopies | src/components/home/theme-preset-buttons.tsx:114-117 | in the four copies of a row, a button is marked selected exactly when its name is the current preset, in every copy |
| ThemePresetButtons.CreateRowProps | src/components/home/theme-preset-buttons.tsx:61-84 | nothing for an empty row; otherwise key `row-i`, the row four times, its own size, motion from 0 to `-k*176` over `5k` seconds |
| ThemePresetButtons.Present | src/components/home/theme-preset-buttons.tsx:86-88 | the rows that are present, in order |
| ThemePresetButtons.Render | src/components/home/theme-preset-buttons.tsx:37-43 | nothing exactly when the preset list is empty |
| ThemePresetButtons.PresentOfThree | src/components/home/theme-preset-buttons.tsx:86-88 | of three rows, the present ones are kept in order |
| ThemePresetButtons.ShownRow | src/components/home/theme-preset-buttons.tsx:61-83 | a dealt row is shown exactly when non-empty, with four buttons per name and its own name count |
| ThemePresetButtons.RenderedButtons | src/components/home/theme-preset-buttons.tsx:55-88 | the shown rows hold four buttons per preset name |
| ThemePresetButtons.ButtonCountAppend | src/components/home/theme-preset-buttons.tsx:86-88 | the buttons of two row lists add up |
| ThemePresetButtons.RenderedRows | src/components/home/theme-preset-buttons.tsx:37-88 | `min(n, 3)` rows are shown, row i showing its own presets, and `4n` buttons in all |
| ThemePresetButtons.DisplayName | src/components/home/theme-preset-buttons.tsx:150 | the same length, every "-" replaced by a space and every other character kept |
| Helpers.GetBaseUrl | src/utils/helpers.ts:3-8 | the browser's origin; on the server "https://" + `VERCEL_URL` when set, else "http://localhost:" + `PORT` or 3000 |
| Helpers.ServerBaseUrls | src/utils/helpers.ts:5-7 | a non-empty `VERCEL_URL` never gives an `http://` URL; with neither variable the URL is "http://localhost:3000" |
| Helpers.GetHeaders | src/utils/helpers.ts:10-24 | in the browser only `x-orpc-source: nextjs-react`; on the server every incoming header, then `x-orpc-source: rsc` |

## Left out

- Streaming and model calls: `useChat`, `useCompletion`, `streamText` and the UI message stream are outside the model. Stream status, completion text and the parts streamed are inputs, and the step rule is the only part of the AI SDK that is modelled.
- The database is a `map` from id to row. `crypto.randomUUID` is a fresh-id input and `new Date()` a clock input. `toLocaleTimeString` is an input string; only the zero padding of day and month is modelled.
- Concurrency: each handler and effect runs as one atomic step. Interleavings between `await` points are not modelled, for example the sync effect firing while a delete is still in flight.
- React Query caching and invalidation: invalidation is modelled as re-reading the server table.
- src/store/auth-store.ts is not part of this model. Its operations follow their call sites in the guards and the dialog wrapper.
- The image-upload reducer and `useImageUpload` are not part of this model:
  - INITIALIZE replaces the uploaded list;
  - clearing empties it;
  - "some image uploading" means some image is loading.
- The prompt converters `convertJSONContentToPromptData` and `convertPromptDataToJSONContent`, `applyGeneratedTheme` and `parseAiSdkTransportError` are uninterpreted function parameters.
- `usePostLoginAction` is not part of this model: `GenerateTheme` is taken to be the handler registered for "AI_GENERATE_FROM_CHAT".
- The value of `MAX_IMAGE_FILES` is not part of this model: it is a parameter.
- Toasts, `confirm()`, focus, blur and console or `logError` output. `confirm()` is a boolean input; logging is recorded only where a contract speaks of it.
- JSX, motion animation, colours and the hsl/hsla styling of preset buttons.
- The 90% counter threshold is a float in the source. It is stated as `10 * count >= 9 * limit`.
- `JSON.stringify` comparisons of messages are equality on the message datatype.
- Header-name case folding of the `Headers` object is not modelled; header names are compared as given.
- The `FALLBACK_FONTS` initial value and the catalogue cache: the fetch result is an input, and on failure the fallback is never used.
- `PORT` is validated as a number defaulting to 3000 (src/env.ts:14); the model takes it as an optional natural number and keeps the `?? 3000` fallback of src/utils/helpers.ts:7 for an absent value. A negative or fractional port is not modelled.
- The session is not used by `getGoogleFonts`, which runs on the public procedure; the model passes none.
- Js.ToLower: lower-cases the ASCII letters A to Z only; `toLowerCase` also folds other Unicode letters, so a query matching a non-ASCII family name may be decided differently.
- CustomTextarea.HandlePaste: lengths are counted in Dafny characters, while `.length` at src/components/editor/custom-textarea.tsx:116 counts UTF-16 code units; a character outside the Basic Multilingual Plane counts 2 in the source and 1 here.
- GoogleFonts.Respond: offset and limit are integers; `z.number()` also accepts fractions, which `slice` truncates toward zero, and those are not modelled.
- FontSearch.Resolve: limits and offsets are integers for the same reason.

## Findings

| source | as written | input that shows it | evidently intended | confidence | as-written member | corrected member |
|---|---|---|---|---|---|---|
| src/hooks/use-chat-context.tsx:102-107 | `startNewChat` calls `setCurrentSession(null)`, which returns early because no session has id `null`, so the current session id is kept | a saved session is current, the user starts a new chat and sends a message: the sync effect updates the old session with the new conversation | a new chat has no current session, so the first message creates a new session | high (not executed) | ChatContext.StartNewChatOverwritesSession | ChatContext.StartNewChatIntendedIsFresh |
| src/hooks/use-chat-context.tsx:128-133 | `duplicateSession` calls the `setCurrentSession` it captured before the create; that closure's `sessions` lack the new row, so it returns at the `!hasSession` test (line 95) and the duplicate's messages are never loaded, while the create's own callback has already made the duplicate current | duplicate a session that is not the one on screen: the sync effect writes the on-screen messages into the duplicate | the duplicate is shown with its own messages and left unchanged | medium (not executed) | ChatContext.DuplicateOverwritten | ChatContext.DuplicateIntendedKept |
| src/hooks/use-font-search.ts:18 | the hook sends `limit: 20` by default, but the server schema accepts only 50 to 100 | `useFontSearch({ query: "" })`: the first page request is rejected with 422 and no font is listed | the default search pages through the whole catalogue | medium (not executed) | FontSearch.DefaultSearchRejected | FontSearch.DefaultSearchIntendedCoversAll |
