/**
 * The prompt enhancer (src/hooks/use-ai-enhance-prompt.ts): at most one completion request
 * in flight, the mentions of the prompt being enhanced, the enhanced text shown as an editor
 * document while it streams, and the draft written when it finishes or is stopped.
 *
 * The completion stream is outside the model: `requests` records the stop and complete
 * calls made on it, and `OnFinish` is its finishing callback. The prompt-to-document
 * converter is the function `toJson`.
 */
module EnhancePrompt {
  import opened Common
  import opened AiTypes
  import opened Js
  import opened DraftStore

  /** A call made on the completion stream. */
  datatype EnhanceEvent = StopRequest | CompleteRequest(prompt: string, body: AIPromptData)

  /** The `{ id, label }` projection of the prompt's mentions. */
  function MentionRefs(ms: seq<Mention>): (r: seq<MentionRef>)
    ensures |r| == |ms|
    ensures forall i :: 0 <= i < |ms| ==> r[i] == MentionRef(ms[i].id, ms[i].labelText)
  {
    seq(|ms|, i requires 0 <= i < |ms| => MentionRef(ms[i].id, ms[i].labelText))
  }

  /** The prompt built from enhanced text: the recorded mentions with empty light and dark theme data, no images. */
  function PromptOfCompletion(text: string, refs: seq<MentionRef>): (r: AIPromptData)
    ensures r.content == text && r.images == [] && |r.mentions| == |refs|
    ensures forall i :: 0 <= i < |refs| ==> r.mentions[i] == Mention(refs[i].id, refs[i].labelText, EmptyThemeData)
  {
    AIPromptData(text, seq(|refs|, i requires 0 <= i < |refs| => Mention(refs[i].id, refs[i].labelText, EmptyThemeData)), [])
  }

  /** Rebuilding mentions from their projection and projecting again gives the projection back. */
  lemma MentionRoundTrip(text: string, refs: seq<MentionRef>)
    ensures MentionRefs(PromptOfCompletion(text, refs).mentions) == refs
  {
  }

  /** The rebuilt mentions equal the originals exactly when the originals carried no theme data. */
  lemma MentionRebuildIff(text: string, ms: seq<Mention>)
    ensures PromptOfCompletion(text, MentionRefs(ms)).mentions == ms
      <==> forall i :: 0 <= i < |ms| ==> ms[i].themeData == EmptyThemeData
  {
    var rebuilt := PromptOfCompletion(text, MentionRefs(ms)).mentions;
    if forall i :: 0 <= i < |ms| ==> ms[i].themeData == EmptyThemeData {
      assert forall i :: 0 <= i < |ms| ==> rebuilt[i] == ms[i];
    }
  }

  /** `enhancedPromptAsJsonContent`: nothing while the completion is empty, otherwise the converted prompt. */
  function DerivedContent(completion: string, refs: seq<MentionRef>, toJson: AIPromptData -> JsonContent): (r: Option<JsonContent>)
    ensures r.None? <==> completion == ""
    ensures r.Some? ==> r.value == toJson(PromptOfCompletion(completion, refs))
  {
    if completion == "" then None else Some(toJson(PromptOfCompletion(completion, refs)))
  }

  /** The calls `startEnhance` makes on the stream: a stop when a request is in flight, then the new request. */
  function StartRequests(loading: bool, p: AIPromptData): (r: seq<EnhanceEvent>)
    ensures |r| == (if loading then 2 else 1) && r[|r| - 1] == CompleteRequest(p.content, p)
    ensures loading ==> r[0] == StopRequest
  {
    (if loading then [StopRequest] else []) + [CompleteRequest(p.content, p)]
  }

  class EnhancePrompt {
    var completion: string
    var isLoading: bool
    var activeMentions: seq<MentionRef>
    var startTime: Option<int>
    var requests: seq<EnhanceEvent>
    const draft: AILocalDraftStore
    const toJson: AIPromptData -> JsonContent

    constructor(draft: AILocalDraftStore, toJson: AIPromptData -> JsonContent)
      ensures completion == "" && !isLoading && activeMentions == [] && startTime == None && requests == []
      ensures this.draft == draft && this.toJson == toJson
    {
      this.draft := draft;
      this.toJson := toJson;
      completion := "";
      isLoading := false;
      activeMentions := [];
      startTime := None;
      requests := [];
    }

    /** The enhanced prompt as an editor document: nothing until some text has streamed in. */
    function EnhancedPromptAsJsonContent(): (r: Option<JsonContent>)
      reads this
      ensures r.None? <==> completion == ""
      ensures r.Some? ==> r.value == toJson(PromptOfCompletion(completion, activeMentions))
    {
      DerivedContent(completion, activeMentions, toJson)
    }

    /** The stream's `stop`: aborts the request in flight, keeping the text received so far. */
    method Stop()
      modifies this
      ensures !isLoading && requests == old(requests) + [StopRequest]
      ensures completion == old(completion) && activeMentions == old(activeMentions) && startTime == old(startTime)
    {
      isLoading := false;
      requests := requests + [StopRequest];
    }

    /**
     * `startEnhance`: ignores a blank prompt; otherwise stops a request in flight, clears the
     * completion, records the start time and the prompt's mentions, and starts one request.
     */
    method StartEnhance(p: AIPromptData, now: int)
      modifies this
      ensures AllWhitespace(p.content) ==> unchanged(this)
      ensures !AllWhitespace(p.content) ==>
        completion == "" && isLoading && startTime == Some(now) && activeMentions == MentionRefs(p.mentions)
        && requests == old(requests) + StartRequests(old(isLoading), p)
    {
      var blank := Trim(p.content) == "";
      TrimEmptyIff(p.content);
      if blank {
        return;
      }
      ghost var wasLoading := isLoading;
      if isLoading {
        Stop();
      }
      completion := "";
      startTime := Some(now);
      activeMentions := MentionRefs(p.mentions);
      requests := requests + [CompleteRequest(p.content, p)];
      isLoading := true;
      assert requests == old(requests) + StartRequests(wasLoading, p);
    }

    /** `stopEnhance`: stops, then keeps what was received as the draft when there is any. */
    method StopEnhance()
      modifies this, draft
      ensures !isLoading && requests == old(requests) + [StopRequest] && completion == old(completion)
      ensures var derived := DerivedContent(old(completion), old(activeMentions), toJson);
        draft.editorContentDraft == (if derived.Some? then derived else old(draft.editorContentDraft))
      ensures draft.imagesDraft == old(draft.imagesDraft)
    {
      Stop();
      var derived := EnhancedPromptAsJsonContent();
      if derived.Some? {
        draft.SetEditorContentDraft(derived);
      }
    }

    /** The stream's finishing callback: the final text, with the recorded mentions, becomes the editor draft. */
    method OnFinish(finalCompletion: string)
      modifies this, draft
      ensures completion == finalCompletion && !isLoading && activeMentions == old(activeMentions)
      ensures draft.editorContentDraft == Some(toJson(PromptOfCompletion(finalCompletion, old(activeMentions))))
      ensures draft.imagesDraft == old(draft.imagesDraft)
    {
      completion := finalCompletion;
      isLoading := false;
      draft.SetEditorContentDraft(Some(toJson(PromptOfCompletion(finalCompletion, activeMentions))));
    }
  }
}
