/**
 * The AI chat form's state (src/hooks/use-ai-chat-form.ts): the prompt read from the
 * persisted editor draft, the uploaded images, the once-only restoration of images from the
 * draft, and the empty-prompt test.
 *
 * The image-upload reducer and `useImageUpload` are not part of this model: INITIALIZE is
 * taken to replace the list with the restored urls, none of them loading, and clearing to
 * empty it. The document-to-prompt converter is the function `toPromptData`.
 */
module ChatForm {
  import opened Common
  import opened AiTypes
  import opened Js
  import opened DraftStore

  /** The document the prompt is read from: the draft, or an empty doc when there is none. */
  function EditorDocument(d: Option<JsonContent>): (r: JsonContent)
    ensures d.None? ==> r == EmptyDoc
    ensures d.Some? ==> r == d.value
  {
    if d.Some? then d.value else EmptyDoc
  }

  /** `isEmptyPrompt`: no image at all, and text that is missing or whitespace only. */
  function IsEmptyPrompt(uploaded: seq<UploadedImage>, content: string): (r: bool)
    ensures r <==> |uploaded| == 0 && AllWhitespace(content)
  {
    TrimEmptyIff(content);
    |uploaded| == 0 && (Trim(content) == "" || |content| == 0)
  }

  /** Any uploaded image, even one still loading, makes the prompt non-empty. */
  lemma ImageMakesNonEmpty(uploaded: seq<UploadedImage>, content: string)
    requires |uploaded| > 0
    ensures !IsEmptyPrompt(uploaded, content)
  {
  }

  /** The uploader entries INITIALIZE restores: the same urls, in order, none of them loading. */
  function Restored(images: seq<ImageRef>): (r: seq<UploadedImage>)
    ensures |r| == |images|
    ensures forall i :: 0 <= i < |images| ==> r[i].url == images[i].url && !r[i].loading
  {
    seq(|images|, i requires 0 <= i < |images| => UploadedImage(images[i].url, false))
  }

  class AIChatForm {
    var hasInitialized: bool
    var uploadedImages: seq<UploadedImage>
    /** The payloads of the INITIALIZE actions dispatched so far. */
    var initializeDispatches: seq<seq<ImageRef>>
    const draft: AILocalDraftStore
    const toPromptData: JsonContent -> AIPromptData

    /** INITIALIZE is dispatched at most once, and exactly when the flag is set. */
    ghost predicate Valid()
      reads this
    {
      |initializeDispatches| <= 1 && (hasInitialized <==> |initializeDispatches| == 1)
    }

    constructor(draft: AILocalDraftStore, toPromptData: JsonContent -> AIPromptData)
      ensures Valid() && !hasInitialized && uploadedImages == [] && initializeDispatches == []
      ensures this.draft == draft && this.toPromptData == toPromptData
    {
      this.draft := draft;
      this.toPromptData := toPromptData;
      hasInitialized := false;
      uploadedImages := [];
      initializeDispatches := [];
    }

    /** `promptData`: the converted editor draft. */
    function PromptData(): (r: AIPromptData)
      reads this, draft
      ensures draft.editorContentDraft.None? ==> r == toPromptData(EmptyDoc)
      ensures draft.editorContentDraft.Some? ==> r == toPromptData(draft.editorContentDraft.value)
    {
      toPromptData(EditorDocument(draft.editorContentDraft))
    }

    /** The form's `isEmptyPrompt`. */
    function IsEmpty(): (r: bool)
      reads this, draft
      ensures r <==> uploadedImages == [] && AllWhitespace(PromptData().content)
    {
      IsEmptyPrompt(uploadedImages, PromptData().content)
    }

    /** The restoring effect: the first time the persisted image list is non-empty, its urls are dispatched. */
    method InitializeEffect() returns (dispatched: bool)
      requires Valid()
      modifies this
      ensures Valid()
      ensures dispatched <==> !old(hasInitialized) && |draft.imagesDraft| > 0
      ensures dispatched ==> initializeDispatches == [draft.imagesDraft] && uploadedImages == Restored(draft.imagesDraft)
      ensures !dispatched ==>
        (hasInitialized == old(hasInitialized) && uploadedImages == old(uploadedImages)
         && initializeDispatches == old(initializeDispatches))
    {
      dispatched := false;
      if !hasInitialized && |draft.imagesDraft| > 0 {
        hasInitialized := true;
        var payload := draft.imagesDraft;
        initializeDispatches := initializeDispatches + [payload];
        uploadedImages := Restored(payload);
        dispatched := true;
      }
    }

    /** `clearUploadedImages`. */
    method ClearUploadedImages()
      modifies this
      ensures uploadedImages == [] && hasInitialized == old(hasInitialized)
      ensures initializeDispatches == old(initializeDispatches)
    {
      uploadedImages := [];
    }

    /** `handleContentChange`: the editor's document becomes the draft, unchanged. */
    method HandleContentChange(json: JsonContent)
      modifies draft
      ensures draft.editorContentDraft == Some(json) && draft.imagesDraft == old(draft.imagesDraft)
      ensures PromptData() == toPromptData(json)
    {
      draft.SetEditorContentDraft(Some(json));
    }
  }
}
