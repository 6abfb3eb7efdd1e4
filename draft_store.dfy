/**
 * The persisted local draft of the AI prompt (src/store/ai-local-draft-store.ts): the
 * editor's document and the list of attached image urls. Persistence to IndexedDB is
 * outside the model; the store is the record its setters overwrite.
 */
module DraftStore {
  import opened Common
  import opened AiTypes

  class AILocalDraftStore {
    var editorContentDraft: Option<JsonContent>
    var imagesDraft: seq<ImageRef>

    /** The initial state: no editor content and no images. */
    predicate IsCleared()
      reads this
    {
      editorContentDraft == None && imagesDraft == []
    }

    constructor()
      ensures IsCleared()
    {
      editorContentDraft := None;
      imagesDraft := [];
    }

    /** `setEditorContentDraft`: replaces the editor document (or clears it with `null`) and nothing else. */
    method SetEditorContentDraft(content: Option<JsonContent>)
      modifies this
      ensures editorContentDraft == content && imagesDraft == old(imagesDraft)
    {
      editorContentDraft := content;
    }

    /** `setImagesDraft`: replaces the image list and nothing else. */
    method SetImagesDraft(images: seq<ImageRef>)
      modifies this
      ensures imagesDraft == images && editorContentDraft == old(editorContentDraft)
    {
      imagesDraft := images;
    }

    /** `clearLocalDraft`: back to the initial state, whatever the state was, so clearing twice is clearing once. */
    method ClearLocalDraft()
      modifies this
      ensures IsCleared()
    {
      editorContentDraft := None;
      imagesDraft := [];
    }
  }
}
