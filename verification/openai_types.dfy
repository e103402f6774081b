/**
 * The OpenAI wire vocabulary (openai/types.go): content parts, the
 * string-or-array content list, and the conversion of llms messages into
 * API messages. JSON is abstracted to the few shapes the code distinguishes.
 */
module OpenAITypes {
  import opened Wrappers
  import opened Contents
  import opened Llms

  datatype ImageUrl = ImageUrl(url: string, detail: string)

  /** contentPart: `text` and `imageUrl` are optional fields, nil when absent. */
  datatype ContentPart = ContentPart(kind: string, text: Option<string>, imageUrl: Option<ImageUrl>)

  type ContentList = seq<ContentPart>

  function TextPart(t: string): ContentPart {
    ContentPart("text", Some(t), None)
  }

  function ConvertItem(item: Item): ContentPart {
    match item
    case Text(t) => TextPart(t)
    case ImageURL(u) => ContentPart("image_url", None, Some(ImageUrl(u, "auto")))
    case Json(d) => TextPart(d)
  }

  /**
   * convertContent: one part per item, in order. Text and JSON both become
   * "text" parts (JSON carrying its raw bytes); images are sent with detail
   * "auto". The closed Item type has no fourth kind, so the Go default panic
   * has no counterpart.
   */
  function ConvertContent(c: Content): (cl: ContentList)
    ensures |cl| == |c|
    ensures forall i :: 0 <= i < |c| && c[i].Text? ==> cl[i] == ContentPart("text", Some(c[i].text), None)
    ensures forall i :: 0 <= i < |c| && c[i].Json? ==> cl[i] == ContentPart("text", Some(c[i].data), None)
    ensures forall i :: 0 <= i < |c| && c[i].ImageURL? ==>
              cl[i] == ContentPart("image_url", None, Some(ImageUrl(c[i].url, "auto")))
  {
    seq(|c|, i requires 0 <= i < |c| => ConvertItem(c[i]))
  }

  /** The JSON values a content list is written as or read from. */
  datatype JsonValue =
    | JsonString(s: string)
    | JsonNull
    | JsonArray(parts: seq<ContentPart>)
    | JsonOther

  /** A list the marshaller collapses to a bare string. */
  predicate IsBareText(cl: ContentList) {
    |cl| == 1 && cl[0].kind == "text" && cl[0].text.Some?
  }

  /** contentList.MarshalJSON. */
  function MarshalContentList(cl: ContentList): (j: JsonValue)
    ensures j.JsonString? <==> IsBareText(cl)
    ensures j.JsonString? ==> j.s == cl[0].text.value
    ensures !j.JsonString? ==> j == JsonArray(cl)
  {
    if IsBareText(cl) then JsonString(cl[0].text.value) else JsonArray(cl)
  }

  /**
   * contentList.UnmarshalJSON: a JSON string (or null, which Go decodes into
   * a string without error) becomes one text part; an array is taken as the
   * parts; anything else is an error (None).
   */
  function UnmarshalContentList(j: JsonValue): (r: Option<ContentList>)
    ensures j.JsonString? ==> r == Some([TextPart(j.s)])
    ensures j.JsonNull? ==> r == Some([TextPart("")])
    ensures j.JsonArray? ==> r == Some(j.parts)
    ensures j.JsonOther? ==> r.None?
  {
    match j
    case JsonString(s) => Some([TextPart(s)])
    case JsonNull => Some([TextPart("")])
    case JsonArray(ps) => Some(ps)
    case JsonOther => None
  }

  /**
   * Writing then reading a list gives it back, except for the one shape the
   * bare-string form loses: a single text part that also carries an image.
   */
  lemma MarshalRoundTrip(cl: ContentList)
    ensures UnmarshalContentList(MarshalContentList(cl)) == Some(cl)
        <==> !(IsBareText(cl) && cl[0].imageUrl.Some?)
  {
    if IsBareText(cl) {
      assert cl == [cl[0]];
    }
  }

  /** Every converted content list survives the round trip unchanged. */
  lemma ConvertedRoundTrip(c: Content)
    ensures UnmarshalContentList(MarshalContentList(ConvertContent(c))) == Some(ConvertContent(c))
  {
    MarshalRoundTrip(ConvertContent(c));
  }

  datatype ApiToolCall = ApiToolCall(id: string, kind: string, name: string, arguments: string)

  datatype ApiMessage = ApiMessage(role: string, content: ContentList, toolCalls: seq<ApiToolCall>, toolCallID: string)

  /** The string a tool message's first item is sent as. */
  function PrimaryResult(item: Item): string {
    match item
    case Text(t) => t
    case Json(d) => d
    case ImageURL(u) => u
  }

  function ApiCall(tc: ToolCall, validJson: string -> bool): ApiToolCall {
    ApiToolCall(tc.id, "function", tc.name, if validJson(tc.arguments) then tc.arguments else "{}")
  }

  /**
   * messagesFromLLM. `validJson` stands for json.Valid. A tool message is
   * split into the "tool" result (first item only) and, when more items
   * follow, one "user" message carrying them; other messages are dropped when
   * empty and otherwise sent as one message, with the tool calls of an
   * assistant message attached.
   */
  function MessagesFromLLM(m: Message, validJson: string -> bool): (r: seq<ApiMessage>)
    ensures m.role == "tool" ==> 1 <= |r| <= 2
    ensures m.role == "tool" ==>
              r[0] == ApiMessage("tool", [TextPart(if |m.content| == 0 then "" else PrimaryResult(m.content[0]))], [], m.toolCallID)
    ensures m.role == "tool" ==> (|r| == 2 <==> |m.content| > 1)
    ensures m.role == "tool" && |r| == 2 ==> r[1] == ApiMessage("user", ConvertContent(m.content[1..]), [], "")
    ensures m.role != "tool" ==> (|r| == 0 <==> |m.content| == 0 && |m.toolCalls| == 0)
    ensures m.role != "tool" && |r| > 0 ==>
              |r| == 1 && r[0].role == m.role && r[0].content == ConvertContent(m.content) && r[0].toolCallID == ""
    ensures m.role != "tool" && m.role != "assistant" ==> forall i :: 0 <= i < |r| ==> r[i].toolCalls == []
    ensures m.role == "assistant" && |r| > 0 ==>
              |r[0].toolCalls| == |m.toolCalls|
              && forall i :: 0 <= i < |m.toolCalls| ==>
                   r[0].toolCalls[i].id == m.toolCalls[i].id
                   && r[0].toolCalls[i].kind == "function"
                   && r[0].toolCalls[i].name == m.toolCalls[i].name
                   && (validJson(m.toolCalls[i].arguments) ==> r[0].toolCalls[i].arguments == m.toolCalls[i].arguments)
                   && (!validJson(m.toolCalls[i].arguments) ==> r[0].toolCalls[i].arguments == "{}")
  {
    if m.role == "tool" then
      var primary := if |m.content| > 0 then PrimaryResult(m.content[0]) else "";
      var toolMessage := ApiMessage("tool", [TextPart(primary)], [], m.toolCallID);
      if |m.content| > 1 then
        [toolMessage, ApiMessage("user", ConvertContent(m.content[1..]), [], "")]
      else
        [toolMessage]
    else
      var apiContent := ConvertContent(m.content);
      if |apiContent| == 0 && |m.toolCalls| == 0 then []
      else
        var calls := if m.role == "assistant" && |m.toolCalls| > 0
                     then seq(|m.toolCalls|, i requires 0 <= i < |m.toolCalls| => ApiCall(m.toolCalls[i], validJson))
                     else [];
        [ApiMessage(m.role, apiContent, calls, "")]
  }

  /**
   * Whatever arguments a tool call carries, the request only ever sends
   * valid JSON in their place, since the substitute "{}" is valid JSON.
   */
  lemma SentArgumentsValid(m: Message, validJson: string -> bool)
    requires validJson("{}")
    ensures forall k, i :: 0 <= k < |MessagesFromLLM(m, validJson)| && 0 <= i < |MessagesFromLLM(m, validJson)[k].toolCalls| ==>
              validJson(MessagesFromLLM(m, validJson)[k].toolCalls[i].arguments)
  {
  }

  /** An entry of a streamed delta's tool_calls array. */
  datatype ToolCallDelta = ToolCallDelta(index: int, id: string, kind: string, name: string, arguments: string)

  /** toolCallDelta.ToLLM. */
  function DeltaToLLM(d: ToolCallDelta): ToolCall {
    ToolCall(d.id, d.name, d.arguments)
  }
}
