/**
 * The prompt editor's decisions (src/components/editor/custom-textarea.tsx): which key
 * presses submit, which pastes are intercepted, when streamed content is written into the
 * editor, and when the character counter is shown or flagged.
 *
 * The rich-text editor itself is reduced to its document, whether it is editable, and
 * whether it has focus; the mention-suggestion plugin to whether it is active.
 */
module CustomTextarea {
  import opened Common
  import opened AiTypes
  import opened Js

  /** A key press: the key name and whether Shift is held. */
  datatype KeyPress = KeyPress(key: string, shiftKey: bool)

  /** What a key handler decided: whether the event is consumed, and whether the prompt is submitted. */
  datatype KeyOutcome = KeyOutcome(handled: bool, submitted: bool)

  /** A pasted file, known by its MIME type. */
  datatype PastedFile = PastedFile(name: string, mimeType: string)

  /** The clipboard of a paste event: its files and its plain text. */
  datatype Clipboard = Clipboard(files: seq<PastedFile>, text: string)

  /**
   * What a paste handler decided: whether the event is consumed, the image files handed to
   * the image handler, and whether the text was refused for exceeding the limit.
   */
  datatype PasteOutcome = PasteOutcome(handled: bool, imagesForwarded: seq<PastedFile>, tooLong: bool)

  /** `characterLimit` is truthy: present and not zero. */
  predicate HasLimit(limit: Option<int>)
  {
    limit.Some? && limit.value != 0
  }

  /** `handleKeyDown`. */
  function HandleKeyDown(disabled: bool, canSubmit: bool, mentionActive: bool, ev: KeyPress): (r: KeyOutcome)
    ensures disabled ==> r == KeyOutcome(true, false)
    ensures r.submitted <==> !disabled && ev.key == "Enter" && !ev.shiftKey && canSubmit && !mentionActive
    ensures r.handled <==> disabled || r.submitted
  {
    if disabled then KeyOutcome(true, false)
    else if ev.key == "Enter" && !ev.shiftKey && !disabled && canSubmit then
      if mentionActive then KeyOutcome(false, false) else KeyOutcome(true, true)
    else KeyOutcome(false, false)
  }

  predicate IsImage(f: PastedFile)
  {
    StartsWith(f.mimeType, "image/")
  }

  /** `handlePaste`, given the current character count of the editor. */
  function HandlePaste(disabled: bool, limit: Option<int>, hasImageHandler: bool, currentCount: nat, clipboard: Option<Clipboard>): (r: PasteOutcome)
    ensures disabled ==> r == PasteOutcome(true, [], false)
    ensures !disabled && !HasLimit(limit) ==> r == PasteOutcome(false, [], false)
    ensures r.imagesForwarded != [] ==>
      !disabled && HasLimit(limit) && hasImageHandler && clipboard.Some?
      && r.handled && !r.tooLong && r.imagesForwarded == Filter(clipboard.value.files, IsImage)
    ensures !disabled && HasLimit(limit) && clipboard.Some? && hasImageHandler && Filter(clipboard.value.files, IsImage) != [] ==>
      r == PasteOutcome(true, Filter(clipboard.value.files, IsImage), false)
    ensures r.tooLong <==>
      !disabled && HasLimit(limit) && clipboard.Some?
      && !(hasImageHandler && Filter(clipboard.value.files, IsImage) != [])
      && currentCount + |clipboard.value.text| > limit.value
    ensures r.handled <==> disabled || r.imagesForwarded != [] || r.tooLong
  {
    if disabled then PasteOutcome(true, [], false)
    else if !HasLimit(limit) then PasteOutcome(false, [], false)
    else if clipboard.None? then PasteOutcome(false, [], false)
    else
      var images := if hasImageHandler then Filter(clipboard.value.files, IsImage) else [];
      if hasImageHandler && |images| > 0 then PasteOutcome(true, images, false)
      else if currentCount + |clipboard.value.text| > limit.value then PasteOutcome(true, [], true)
      else PasteOutcome(false, [], false)
  }

  /** Text that brings the count exactly to the limit is accepted. */
  lemma PasteUpToLimitAccepted(limit: int, currentCount: nat, text: string)
    requires limit != 0 && currentCount + |text| == limit
    ensures !HandlePaste(false, Some(limit), false, currentCount, Some(Clipboard([], text))).handled
  {
  }

  /** The streaming effect writes the external document only when it differs and streaming is on. */
  function ShouldWriteExternal(editorReady: bool, external: Option<JsonContent>, streaming: bool, current: JsonContent): (r: bool)
    ensures r <==> editorReady && external.Some? && streaming && external.value != current
  {
    if !editorReady || external.None? || !streaming then false
    else current != external.value
  }

  /** `isLimitExceeded`: a limit is set and the count is above it. */
  function IsLimitExceeded(limit: Option<int>, count: nat): (r: bool)
    ensures r <==> limit.Some? && limit.value != 0 && count > limit.value
  {
    HasLimit(limit) && count > limit.value
  }

  /** `shouldShowCount`: a limit is set and the count reaches nine tenths of it. */
  function ShouldShowCount(limit: Option<int>, count: nat): (r: bool)
    ensures r <==> limit.Some? && limit.value != 0 && 10 * count >= 9 * limit.value
  {
    HasLimit(limit) && 10 * count >= 9 * limit.value
  }

  /** A count over the limit is always on display. */
  lemma ExceededIsShown(limit: Option<int>, count: nat)
    requires IsLimitExceeded(limit, count)
    ensures ShouldShowCount(limit, count)
  {
  }

  /** The editor the component drives. */
  class Editor {
    var content: JsonContent
    var editable: bool
    var focused: bool

    constructor(initial: Option<JsonContent>, disabled: bool)
      ensures content == (if initial.Some? then initial.value else JsonContent("doc", None, []))
      ensures editable == !disabled && focused == !disabled
    {
      content := if initial.Some? then initial.value else JsonContent("doc", None, []);
      editable := !disabled;
      focused := !disabled;
    }

    /** The `disabled` effect: editable and focused exactly when enabled. */
    method SyncDisabled(disabled: bool)
      modifies this
      ensures editable == !disabled && focused == !disabled && content == old(content)
    {
      editable := !disabled;
      focused := !disabled;
    }

    /** The streaming effect: writes the external document when it should, leaving nothing further to write. */
    method StreamExternal(external: Option<JsonContent>, streaming: bool)
      modifies this
      ensures content == (if ShouldWriteExternal(true, external, streaming, old(content)) then external.value else old(content))
      ensures focused == (ShouldWriteExternal(true, external, streaming, old(content)) || old(focused))
      ensures editable == old(editable)
      ensures !ShouldWriteExternal(true, external, streaming, content)
    {
      if external.None? || !streaming {
        return;
      }
      if content == external.value {
        return;
      }
      content := external.value;
      focused := true;
    }
  }
}
