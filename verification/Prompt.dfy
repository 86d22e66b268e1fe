/**
From stored messages to the messages a model is sent: which are replayed, how tool calls and
results are matched up, the todo reminder, and the detour of media results.
*/
module Prompts {
  import opened Common
  import opened Messages
  import opened Histories

  datatype Output = OutText(text: string) | OutError(error: string) | OutMedia(media: string, mediaType: string)

  datatype AIPart =
    | TextPart(text: string)
    | FilePart(filename: string, bytes: seq<bv8>, mimeType: string)
    | ReasoningPart(thinking: string, signature: Option<string>, responses: Option<ResponsesData>,
                    thought: Option<(string, string)>)
    | ToolCallPart(id: string, name: string, input: string, providerExecuted: bool)
    | ToolResultPart(callID: string, output: Output)

  datatype AIMessage = AIMessage(role: Role, content: seq<AIPart>)

  /** The model the prompt is for. mediaInResults: its provider takes media in tool results. */
  datatype Model = Model(provider: string, id: string, supportsImages: bool, mediaInResults: bool)

  /** Library functions: trimming, the text of a user message with its attachments, and base64. */
  datatype Codec = Codec(trim: string -> string, userText: seq<Part> -> string,
                         decode: string -> Option<seq<bv8>>, encode: seq<bv8> -> string)

  const MEDIA_FAILED := "[Image data could not be loaded]"
  const MEDIA_UNSUPPORTED := "[Image/media content not supported by this model]"
  const MEDIA_LOADED := "[Image/media content loaded - see attached file]"
  const MEDIA_HERE := "Here is the media content from the tool result:"
  const INTERRUPTED :=
    "tool call was interrupted and did not produce a result, you may retry this call if the result is still needed"

  /** IsValidBase64. */
  predicate Valid(c: Codec, data: string) {
    data != "" && c.decode(data).Some? && c.encode(c.decode(data).value) == data
  }

  /* ---- ToAIMessage ---- */

  predicate IsTextType(mimeType: string) {
    "text/" <= mimeType
  }

  function Files(parts: seq<Part>): seq<AIPart> {
    if parts == [] then []
    else (if parts[0].Binary? && !IsTextType(parts[0].mimeType)
          then [FilePart(parts[0].path, parts[0].bytes, parts[0].mimeType)] else []) + Files(parts[1..])
  }

  function AssistantPart(c: Codec, p: Part): seq<AIPart> {
    match p
    case Text(text) => if c.trim(text) != "" then [TextPart(c.trim(text))] else []
    case Reasoning(_, thinking, signature, thoughtSignature, toolID, responses, _, _) =>
      if thinking == "" && signature == "" && thoughtSignature == "" && responses.None? then []
      else [ReasoningPart(thinking, if signature != "" then Some(signature) else None, responses,
                          if thoughtSignature != "" then Some((thoughtSignature, toolID)) else None)]
    case ToolCall(id, name, input, providerExecuted, _) => [ToolCallPart(id, name, input, providerExecuted)]
    case _ => []
  }

  function AssistantParts(c: Codec, parts: seq<Part>): seq<AIPart> {
    if parts == [] then [] else AssistantPart(c, parts[0]) + AssistantParts(c, parts[1..])
  }

  function OutputOf(c: Codec, p: Part): Output
    requires p.ToolResult?
  {
    if p.isError then OutError(p.content)
    else if p.data != "" then (if Valid(c, p.data) then OutMedia(p.data, p.mimeType) else OutText(MEDIA_FAILED))
    else OutText(p.content)
  }

  function ToolParts(c: Codec, parts: seq<Part>): seq<AIPart> {
    if parts == [] then []
    else (if parts[0].ToolResult? then [ToolResultPart(parts[0].callID, OutputOf(c, parts[0]))] else []) + ToolParts(c, parts[1..])
  }

  function UserParts(c: Codec, parts: seq<Part>): seq<AIPart> {
    (if c.userText(parts) != "" then [TextPart(c.userText(parts))] else []) + Files(parts)
  }

  function ToAIMessage(c: Codec, m: Msg): seq<AIMessage> {
    match m.role
    case User => [AIMessage(User, UserParts(c, m.parts))]
    case Assistant => [AIMessage(Assistant, AssistantParts(c, m.parts))]
    case Tool => [AIMessage(Tool, ToolParts(c, m.parts))]
    case System => []
  }

  /* ---- preparePromptForModel ---- */

  function KnownCalls(msgs: seq<Msg>): set<string> {
    set m, x | m in msgs && m.role == Assistant && x in CallIDs(m.parts) :: x
  }

  function KnownResults(msgs: seq<Msg>): set<string> {
    set m, x | m in msgs && m.role == Tool && x in ResultIDs(m.parts) :: x
  }

  /** Not empty, and not an assistant message that was cancelled before it returned anything. */
  predicate Replayed(m: Msg) {
    var text := Lookup(m.parts, TextSlot);
    && m.parts != []
    && !(m.role == Assistant && CallIDs(m.parts) == {} && (text.None? || text.value.text == "") &&
         FirstReasoning(m.parts) == |m.parts|)
  }

  function Stripped(parts: seq<Part>): seq<Part> {
    if parts == [] then []
    else [if parts[0].Reasoning? then parts[0].(responses := None) else parts[0]] + Stripped(parts[1..])
  }

  /** Another model's Responses reasoning is left out. */
  function ForModel(m: Msg, model: Model): Msg {
    if model.provider != "" && m.role == Assistant && (m.provider != model.provider || m.model != model.id)
    then m.(parts := Stripped(m.parts)) else m
  }

  function ItemIDs(parts: seq<Part>): seq<string> {
    if parts == [] then []
    else (if parts[0].Reasoning? && parts[0].responses.Some? && parts[0].responses.value.itemID != ""
          then [parts[0].responses.value.itemID] else []) + ItemIDs(parts[1..])
  }

  /** The reasoning items of one message that are looked at. */
  function Checked(m: Msg, model: Model): seq<string> {
    if Replayed(m) && m.role != Tool then ItemIDs(ForModel(m, model).parts) else []
  }

  function Items(msgs: seq<Msg>, model: Model): seq<string> {
    if msgs == [] then [] else Checked(msgs[0], model) + Items(msgs[1..], model)
  }

  ghost predicate Distinct<T>(s: seq<T>) {
    forall i, j | 0 <= i < j < |s| :: s[i] != s[j]
  }

  function WithoutFiles(content: seq<AIPart>): seq<AIPart> {
    if content == [] then []
    else (if content[0].FilePart? then [] else [content[0]]) + WithoutFiles(content[1..])
  }

  function KnownOnly(content: seq<AIPart>, calls: set<string>): seq<AIPart> {
    if content == [] then []
    else (if content[0].ToolResultPart? && content[0].callID !in calls then [] else [content[0]]) + KnownOnly(content[1..], calls)
  }

  /** A synthetic result for every call in the parts that has none. */
  function Synthetic(parts: seq<Part>, results: set<string>): seq<AIPart> {
    if parts == [] then []
    else (if parts[0].ToolCall? && parts[0].id !in results
          then [ToolResultPart(parts[0].id, OutError(INTERRUPTED))] else []) + Synthetic(parts[1..], results)
  }

  function MessageOf(role: Role, content: seq<AIPart>): seq<AIMessage> {
    if content == [] then [] else [AIMessage(role, content)]
  }

  /** What one stored message contributes. */
  function Render(c: Codec, m: Msg, model: Model, calls: set<string>, results: set<string>): seq<AIMessage> {
    if !Replayed(m) then []
    else
      var n := ForModel(m, model);
      match m.role
      case Tool => MessageOf(Tool, KnownOnly(ToolParts(c, m.parts), calls))
      case Assistant => [AIMessage(Assistant, AssistantParts(c, n.parts))] + MessageOf(Tool, Synthetic(n.parts, results))
      case User =>
        var content := UserParts(c, m.parts);
        [AIMessage(User, if model.supportsImages then content else WithoutFiles(content))]
      case System => []
  }

  function RenderAll(c: Codec, msgs: seq<Msg>, model: Model, calls: set<string>, results: set<string>): seq<AIMessage> {
    if msgs == [] then []
    else Render(c, msgs[0], model, calls, results) + RenderAll(c, msgs[1..], model, calls, results)
  }

  function Replay(c: Codec, msgs: seq<Msg>, model: Model): seq<AIMessage> {
    RenderAll(c, msgs, model, KnownCalls(msgs), KnownResults(msgs))
  }

  /** None: the request is refused. */
  ghost function Prepare(c: Codec, msgs: seq<Msg>, model: Model): Option<seq<AIMessage>> {
    if Distinct(Items(msgs, model)) then Some(Replay(c, msgs, model)) else None
  }

  /* ---- insertTodoReminder ---- */

  function SystemPrefix(ms: seq<AIMessage>): (n: nat)
    ensures n <= |ms| && (n < |ms| ==> ms[n].role != System) && forall j | 0 <= j < n :: ms[j].role == System
  {
    if ms == [] || ms[0].role != System then 0 else 1 + SystemPrefix(ms[1..])
  }

  function WithTodo(ms: seq<AIMessage>, reminder: string): seq<AIMessage> {
    var n := SystemPrefix(ms);
    ms[..n] + [AIMessage(User, [TextPart(reminder)])] + ms[n..]
  }

  /* ---- workaroundProviderMediaLimitations ---- */

  predicate IsMedia(p: AIPart) {
    p.ToolResultPart? && p.output.OutMedia?
  }

  function Converted(c: Codec, p: AIPart, images: bool): AIPart {
    if !IsMedia(p) then p
    else if !images then p.(output := OutText(MEDIA_UNSUPPORTED))
    else if c.decode(p.output.media).None? then p
    else p.(output := OutText(MEDIA_LOADED))
  }

  function ConvertedAll(c: Codec, content: seq<AIPart>, images: bool): seq<AIPart> {
    if content == [] then [] else [Converted(c, content[0], images)] + ConvertedAll(c, content[1..], images)
  }

  /** The file that takes the place of a media result. */
  function AsFile(c: Codec, p: AIPart, images: bool): seq<AIPart> {
    if IsMedia(p) && images && c.decode(p.output.media).Some?
    then [FilePart("tool-result-" + p.callID, c.decode(p.output.media).value, p.output.mediaType)] else []
  }

  function Detached(c: Codec, content: seq<AIPart>, images: bool): seq<AIPart> {
    if content == [] then [] else AsFile(c, content[0], images) + Detached(c, content[1..], images)
  }

  function Detour(c: Codec, m: AIMessage, images: bool): seq<AIMessage> {
    if m.role != Tool then [m]
    else
      var files := Detached(c, m.content, images);
      [AIMessage(Tool, ConvertedAll(c, m.content, images))] +
      (if files == [] then [] else [AIMessage(User, [TextPart(MEDIA_HERE)] + files)])
  }

  function DetourAll(c: Codec, ms: seq<AIMessage>, images: bool): seq<AIMessage> {
    if ms == [] then [] else Detour(c, ms[0], images) + DetourAll(c, ms[1..], images)
  }

  function Workaround(c: Codec, ms: seq<AIMessage>, model: Model): seq<AIMessage> {
    if model.mediaInResults then ms else DetourAll(c, ms, model.supportsImages)
  }
}
