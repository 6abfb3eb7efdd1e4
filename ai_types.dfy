/**
 * The shapes the chat pipeline passes around: chat messages, the editor's rich-text
 * document, prompt data with its mentions and images, and theme style maps.
 * Their exact field lists live in type modules that are not part of this model; only
 * the fields the core reads or writes are kept.
 */
module AiTypes {
  import opened Common

  type Id = string

  datatype Role = UserRole | AssistantRole | SystemRole

  /** One content part of a chat message. */
  datatype MessagePart =
    | TextPart(text: string)
    | FilePart(url: string)
    | ToolPart(toolName: string, output: string)
    | DataPart(kind: string, payload: string)

  /** A chat message; two messages serialise to the same JSON exactly when they are equal. */
  datatype ChatMessage = ChatMessage(id: Id, role: Role, parts: seq<MessagePart>)

  /** A node of the editor's JSON document (`JSONContent`). */
  datatype JsonContent = JsonContent(kind: string, text: Option<string>, content: seq<JsonContent>)

  /** `{ type: "doc", content: [] }`, the document used when there is no draft. */
  const EmptyDoc: JsonContent := JsonContent("doc", None, [])

  /** Design-token name to value. */
  type StyleMap = map<string, string>

  /** Theme styles, one token map per colour mode. */
  datatype ThemeStyles = ThemeStyles(light: StyleMap, dark: StyleMap)

  const EmptyThemeData: ThemeStyles := ThemeStyles(map[], map[])

  /** A mention of a theme inside a prompt. */
  datatype Mention = Mention(id: string, labelText: string, themeData: ThemeStyles)

  /** The `{id, label}` projection of a mention (`label` is a Dafny keyword, hence `labelText`). */
  datatype MentionRef = MentionRef(id: string, labelText: string)

  /** An image reference sent with a prompt (`{url}`). */
  datatype ImageRef = ImageRef(url: string)

  /** An entry of the image uploader: its url once known and whether it is still uploading. */
  datatype UploadedImage = UploadedImage(url: string, loading: bool)

  /** Structured prompt: text, mentions and images (an absent image list is the empty one). */
  datatype AIPromptData = AIPromptData(content: string, mentions: seq<Mention>, images: seq<ImageRef>)

  /** What the chat input hands to theme generation, directly or after login. */
  datatype ThemeGenerationPayload = ThemeGenerationPayload(promptData: AIPromptData, shouldClearLocalDraft: bool)
}
