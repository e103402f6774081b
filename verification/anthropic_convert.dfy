/**
 * The outgoing converters of the Anthropic backend: content lists and
 * messages in the shape of the Messages API. A panic of the Go code (an
 * image the API cannot take) is a `ConvertError` here.
 */
module AnthropicConvert {
  import opened Wrappers
  import opened Strings
  import opened Contents
  import opened Llms

  /** The `source` of an image item. */
  datatype Source = Source(kind: string, mediaType: string, data: string)

  /** One `contentItem`, by its `type`: "text", "image", "tool_result" or "tool_use". */
  datatype ContentItem =
    | TextItem(text: string)
    | ImageItem(source: Source)
    | ToolResultItem(toolUseID: string, content: seq<ContentItem>)
    | ToolUseItem(id: string, name: string, input: string)

  datatype ApiMessage = ApiMessage(role: string, content: seq<ContentItem>)

  datatype ConvertError =
    | UnsupportedDataUri(url: string)  // a data URI without ";base64,"
    | UrlImage(url: string)            // an image given by URL rather than inline

  /** What a blank text item is sent as: the API refuses empty text blocks. */
  const EmptyPlaceholder := "(Empty)"
  const DataScheme := "data:"
  const Base64Marker := ";base64,"

  /**
   * Splits a base64 data URI (section 2 of RFC 2397) into its media type and
   * its data, at the FIRST ";base64,". A URI that is not a data URI, or has
   * no ";base64,", is refused.
   */
  function SplitDataUri(url: string): (r: Result<Source, ConvertError>)
    ensures !HasPrefix(url, DataScheme) ==> r == Failure(UrlImage(url))
    ensures HasPrefix(url, DataScheme) ==>
              (r.Failure? <==> forall j :: !OccursAt(url[|DataScheme|..], Base64Marker, j))
    ensures HasPrefix(url, DataScheme) && r.Failure? ==> r.error == UnsupportedDataUri(url)
    ensures r.Success? ==> r.value.kind == "base64"
                           && url == DataScheme + r.value.mediaType + Base64Marker + r.value.data
    ensures r.Success? ==> forall j :: 0 <= j < |r.value.mediaType| ==> !OccursAt(url[|DataScheme|..], Base64Marker, j)
  {
    match CutPrefix(url, DataScheme)
    case None => Failure(UrlImage(url))
    case Some(rest) =>
      assert rest == url[|DataScheme|..];
      match Cut(rest, Base64Marker)
      case None => Failure(UnsupportedDataUri(url))
      case Some((mime, data)) => Success(Source("base64", mime, data))
  }

  /** Every data URI whose media type has no ';' splits back into that media type and data. */
  lemma DataUriRoundTrip(mime: string, data: string)
    requires forall i :: 0 <= i < |mime| ==> mime[i] != ';'
    ensures SplitDataUri(DataScheme + mime + Base64Marker + data) == Success(Source("base64", mime, data))
  {
    var url := DataScheme + mime + Base64Marker + data;
    var rest := mime + Base64Marker + data;
    assert HasPrefix(url, DataScheme) && url[|DataScheme|..] == rest;
    assert OccursAt(rest, Base64Marker, |mime|) by {
      assert rest[|mime|..|mime| + |Base64Marker|] == Base64Marker;
    }
    var r := SplitDataUri(url);
    assert r.Success?;
    var m, d := r.value.mediaType, r.value.data;
    assert m + Base64Marker + d == rest;
    assert OccursAt(rest, Base64Marker, |m|) by {
      assert rest[|m|..|m| + |Base64Marker|] == Base64Marker;
    }
    // The first marker cannot start inside the media type: the marker begins with ';'.
    assert rest[|m|] == ';' by {
      assert rest[|m|..|m| + |Base64Marker|][0] == rest[|m|];
    }
    assert |m| == |mime|;
    assert m == rest[..|m|] == mime;
    assert d == rest[|m| + |Base64Marker|..] == data;
  }

  /**
   * One item of contentFromLLM: text is sent as is unless it is blank,
   * when it becomes the placeholder; an image must be a base64 data URI;
   * raw JSON is sent as text of its bytes.
   */
  function ItemFromLLM(item: Item): (r: Result<ContentItem, ConvertError>)
    ensures item.Text? ==> r.Success? && r.value.TextItem? && !AllSpace(r.value.text)
    ensures item.Text? && AllSpace(item.text) ==> r.value.text == EmptyPlaceholder
    ensures item.Text? && !AllSpace(item.text) ==> r.value.text == item.text
    ensures item.ImageURL? ==> (r.Success? <==> SplitDataUri(item.url).Success?)
    ensures item.ImageURL? && r.Success? ==> r.value == ImageItem(SplitDataUri(item.url).value)
    ensures item.ImageURL? && r.Failure? ==> r.error == SplitDataUri(item.url).error
    ensures item.Json? ==> r == Success(TextItem(item.data))
    ensures r.Success? ==> !r.value.ToolUseItem? && !r.value.ToolResultItem?
  {
    match item
    case Text(t) =>
      TrimSpaceEmpty(t);
      assert !IsSpace(EmptyPlaceholder[0]);
      Success(TextItem(if TrimSpace(t) == "" then EmptyPlaceholder else t))
    case ImageURL(url) =>
      (match SplitDataUri(url)
       case Success(src) => Success(ImageItem(src))
       case Failure(e) => Failure(e))
    case Json(data) => Success(TextItem(data))
  }

  /**
   * contentFromLLM: one item per input item, in order; the first item that
   * cannot be sent aborts the conversion with its error.
   */
  function ContentFromLLM(c: Content): (r: Result<seq<ContentItem>, ConvertError>)
    ensures r.Success? <==> forall i :: 0 <= i < |c| ==> ItemFromLLM(c[i]).Success?
    ensures r.Success? ==> |r.value| == |c| && forall i :: 0 <= i < |c| ==> ItemFromLLM(c[i]) == Success(r.value[i])
    ensures r.Failure? ==> exists i :: 0 <= i < |c| && ItemFromLLM(c[i]) == Failure(r.error)
                                       && forall j :: 0 <= j < i ==> ItemFromLLM(c[j]).Success?
    decreases |c|
  {
    if |c| == 0 then Success([])
    else
      assert forall i :: 1 <= i < |c| ==> c[i] == c[1..][i - 1];
      match ItemFromLLM(c[0])
      case Failure(e) => Failure(e)
      case Success(x) =>
        match ContentFromLLM(c[1..])
        case Failure(e) =>
          ghost var k :| 0 <= k < |c[1..]| && ItemFromLLM(c[1..][k]) == Failure(e)
                         && forall j :: 0 <= j < k ==> ItemFromLLM(c[1..][j]).Success?;
          assert ItemFromLLM(c[k + 1]) == Failure(e);
          Failure(e)
        case Success(xs) => Success([x] + xs)
  }

  /** One "tool_use" item per tool call, in order. */
  function ToolUses(calls: seq<ToolCall>): seq<ContentItem> {
    seq(|calls|, i requires 0 <= i < |calls| => ToolUseItem(calls[i].id, calls[i].name, calls[i].arguments))
  }

  /**
   * messageFromLLM: a tool result goes back as a "user" message holding one
   * "tool_result" item; any other message keeps its role, and its content
   * is followed by one "tool_use" item per tool call.
   */
  function MessageFromLLM(m: Message): (r: Result<ApiMessage, ConvertError>)
    ensures r.Success? <==> ContentFromLLM(m.content).Success?
    ensures r.Failure? ==> r.error == ContentFromLLM(m.content).error
    ensures r.Success? && m.role == "tool" ==>
              r.value == ApiMessage("user", [ToolResultItem(m.toolCallID, ContentFromLLM(m.content).value)])
    ensures r.Success? && m.role != "tool" ==>
              && r.value.role == m.role
              && |r.value.content| == |m.content| + |m.toolCalls|
              && r.value.content[..|m.content|] == ContentFromLLM(m.content).value
              && forall i :: 0 <= i < |m.toolCalls| ==>
                   r.value.content[|m.content| + i]
                   == ToolUseItem(m.toolCalls[i].id, m.toolCalls[i].name, m.toolCalls[i].arguments)
  {
    match ContentFromLLM(m.content)
    case Failure(e) => Failure(e)
    case Success(cl) =>
      if m.role == "tool" then Success(ApiMessage("user", [ToolResultItem(m.toolCallID, cl)]))
      else Success(ApiMessage(m.role, cl + ToolUses(m.toolCalls)))
  }

  /** The tool calls a request's content asks for: its "tool_use" items, in order. */
  function ToolCallsOf(items: seq<ContentItem>): seq<ToolCall> {
    if |items| == 0 then []
    else if items[0].ToolUseItem? then
      [ToolCall(items[0].id, items[0].name, items[0].input)] + ToolCallsOf(items[1..])
    else ToolCallsOf(items[1..])
  }

  lemma {:induction false} ToolCallsOfConcat(a: seq<ContentItem>, b: seq<ContentItem>)
    ensures ToolCallsOf(a + b) == ToolCallsOf(a) + ToolCallsOf(b)
    decreases |a|
  {
    if |a| > 0 {
      assert (a + b)[0] == a[0];
      assert (a + b)[1..] == a[1..] + b;
      ToolCallsOfConcat(a[1..], b);
    } else {
      assert a + b == b;
    }
  }

  lemma {:induction false} ToolCallsOfToolUses(calls: seq<ToolCall>)
    ensures ToolCallsOf(ToolUses(calls)) == calls
    decreases |calls|
  {
    if |calls| > 0 {
      assert ToolUses(calls)[1..] == ToolUses(calls[1..]);
      ToolCallsOfToolUses(calls[1..]);
    }
  }

  lemma {:induction false} NoToolCallsInContent(items: seq<ContentItem>)
    requires forall i :: 0 <= i < |items| ==> !items[i].ToolUseItem?
    ensures ToolCallsOf(items) == []
    decreases |items|
  {
    if |items| > 0 {
      NoToolCallsInContent(items[1..]);
    }
  }

  /**
   * The assistant's tool calls survive the conversion: reading the
   * "tool_use" items of a converted message gives back exactly the calls,
   * in order, whatever the content holds.
   */
  lemma ToolCallsRoundTrip(m: Message)
    requires m.role != "tool"
    requires MessageFromLLM(m).Success?
    ensures ToolCallsOf(MessageFromLLM(m).value.content) == m.toolCalls
  {
    var cl := ContentFromLLM(m.content).value;
    assert MessageFromLLM(m).value.content == cl + ToolUses(m.toolCalls);
    ToolCallsOfConcat(cl, ToolUses(m.toolCalls));
    NoToolCallsInContent(cl);
    ToolCallsOfToolUses(m.toolCalls);
  }
}
