/**
 * The OpenAI stream decoder (openai/openai.go, Stream): a fold over the
 * response's lines that assembles one assistant message, yields statuses,
 * keeps the last usage report and stops on the first undecodable payload.
 */
module OpenAIStream {
  import opened Wrappers
  import opened Strings
  import opened Contents
  import opened Llms
  import opened OpenAITypes

  /** The part of a choice the decoder reads: chatCompletionDelta. */
  datatype Delta = Delta(role: string, content: Option<string>, toolCalls: seq<ToolCallDelta>)

  /** A decoded chatCompletionChunk: the deltas of its choices and its optional usage. */
  datatype Chunk = Chunk(choices: seq<Delta>, usage: Option<Usage>)

  /** What json.Unmarshal makes of one payload. */
  datatype Parsed = Decoded(chunk: Chunk) | Undecodable

  const DataPrefix := "data: "
  const DoneSentinel := "[DONE]"
  const TooManyToolCalls := "received more than one tool call in a single chunk"
  const IndexMismatch := "tool call index mismatch"
  const IndexOutOfRange := "index out of range [-1]"

  /** The decoder's fields: model, message, lastText, usage, plus the statuses yielded so far. */
  datatype Stream = Stream(model: string, message: Message, lastText: string, usage: Option<Usage>, emitted: seq<Yield>)

  function Start(model: string): Stream {
    Stream(model, EmptyMessage, "", None, [])
  }

  /** Usage(): the last report, or zero when none arrived. */
  function UsageOf(s: Stream): Usage {
    s.usage.GetOr(NoUsage)
  }

  /** yield(st), recording what Text() and ToolCall() return at that moment. */
  function Emit(s: Stream, st: StreamStatus): (r: Stream)
    ensures r == s.(emitted := s.emitted + [Yield(st, s.lastText, LastCall(s.message))])
    ensures Texts(r.emitted) == Texts(s.emitted) + (if st == StatusText then s.lastText else "")
    ensures ReadyCalls(r.emitted) == ReadyCalls(s.emitted) + (if st == StatusToolCallReady then [LastCall(s.message)] else [])
    ensures forall k :: Count(r.emitted, k) == Count(s.emitted, k) + (if k == st then 1 else 0)
  {
    YieldSnoc(s.emitted, Yield(st, s.lastText, LastCall(s.message)));
    s.(emitted := s.emitted + [Yield(st, s.lastText, LastCall(s.message))])
  }

  /**
   * The tool-call part of a delta (openai.go:260-279). A delta at the last
   * index extends that call's arguments and nothing else; a delta at an index
   * not yet seen opens one new call, preceded by a ToolCallReady for the
   * previous one when its index is above 0; any other index is a panic.
   */
  function ApplyToolDelta(s: Stream, td: ToolCallDelta): (f: Fed<Stream>)
    ensures var calls := s.message.toolCalls; var n := |calls|;
      && (td.index < n && td.index != n - 1 ==> f == Halt(s, Some(Panic(IndexMismatch))))
      && (td.index == -1 && n == 0 ==> f == Halt(s, Some(Panic(IndexOutOfRange))))
      && (0 <= td.index == n - 1 ==>
            && f.Continue?
            && |f.state.message.toolCalls| == n
            && (forall i :: 0 <= i < n - 1 ==> f.state.message.toolCalls[i] == calls[i])
            && f.state.message.toolCalls[n - 1].id == calls[n - 1].id
            && f.state.message.toolCalls[n - 1].name == calls[n - 1].name
            && f.state.message.toolCalls[n - 1].arguments == calls[n - 1].arguments + td.arguments
            && f.state.emitted == s.emitted + [Yield(StatusToolCallData, s.lastText, f.state.message.toolCalls[n - 1])])
      && (td.index >= n ==>
            && f.Continue?
            && f.state.message.toolCalls == calls + [ToolCall(td.id, td.name, td.arguments)]
            && f.state.emitted == s.emitted
                 + (if td.index > 0 then [Yield(StatusToolCallReady, s.lastText, LastCall(s.message))] else [])
                 + [Yield(StatusToolCallBegin, s.lastText, ToolCall(td.id, td.name, td.arguments))])
      && f.state.message.role == s.message.role
      && f.state.message.content == s.message.content
      && f.state.lastText == s.lastText && f.state.usage == s.usage && f.state.model == s.model
  {
    var calls := s.message.toolCalls;
    var n := |calls|;
    if td.index < n then
      if td.index != n - 1 then Halt(s, Some(Panic(IndexMismatch)))
      else if n == 0 then Halt(s, Some(Panic(IndexOutOfRange)))
      else
        var extended := calls[n - 1].(arguments := calls[n - 1].arguments + td.arguments);
        Continue(Emit(s.(message := s.message.(toolCalls := calls[n - 1 := extended])), StatusToolCallData))
    else
      var s1 := if td.index > 0 then Emit(s, StatusToolCallReady) else s;
      Continue(Emit(s1.(message := s1.message.(toolCalls := calls + [DeltaToLLM(td)])), StatusToolCallBegin))
  }

  /**
   * The role and content of a delta (openai.go:244-253): a role replaces the
   * message's role; the content (absent meaning "") becomes Text() and, when
   * non-empty, is appended to the message and yields one Text status.
   */
  function ApplyContent(s: Stream, d: Delta): (r: Stream)
    ensures var text := d.content.GetOr("");
      && r.message.role == (if d.role != "" then d.role else s.message.role)
      && r.lastText == text
      && TextOf(r.message.content) == TextOf(s.message.content) + text
      && r.emitted == s.emitted + (if text != "" then [Yield(StatusText, text, LastCall(s.message))] else [])
      && Texts(r.emitted) == Texts(s.emitted) + text
      && ReadyCalls(r.emitted) == ReadyCalls(s.emitted)
      && (forall k :: k != StatusText ==> Count(r.emitted, k) == Count(s.emitted, k))
      && r.message.toolCalls == s.message.toolCalls
      && r.usage == s.usage && r.model == s.model
  {
    var s1 := if d.role != "" then s.(message := s.message.(role := d.role)) else s;
    var text := d.content.GetOr("");
    var s2 := s1.(lastText := text);
    if text != "" then Emit(s2.(message := s2.message.(content := Append(s2.message.content, text))), StatusText)
    else s2
  }

  /** The first choice's delta: its content, then at most one tool delta; two or more are a panic. */
  function ApplyDelta(s: Stream, d: Delta): (f: Fed<Stream>)
    ensures |d.toolCalls| > 1 ==> f == Halt(ApplyContent(s, d), Some(Panic(TooManyToolCalls)))
    ensures |d.toolCalls| == 0 ==> f == Continue(ApplyContent(s, d))
    ensures f.state.usage == s.usage && f.state.model == s.model
  {
    var s1 := ApplyContent(s, d);
    if |d.toolCalls| > 1 then Halt(s1, Some(Panic(TooManyToolCalls)))
    else if |d.toolCalls| == 0 then Continue(s1)
    else ApplyToolDelta(s1, d.toolCalls[0])
  }

  /** A decoded chunk: a usage report replaces the stored one; only the first choice is read. */
  function ApplyChunk(s: Stream, c: Chunk): (f: Fed<Stream>)
    ensures f.state.usage == (if c.usage.Some? then c.usage else s.usage)
    ensures |c.choices| == 0 ==> f == Continue(s.(usage := f.state.usage))
    ensures f.state.model == s.model
  {
    var s1 := if c.usage.Some? then s.(usage := c.usage) else s;
    if |c.choices| == 0 then Continue(s1) else ApplyDelta(s1, c.choices[0])
  }

  /**
   * One scanned line (openai.go:225-279): only "data: " lines are read, the
   * "[DONE]" payload is skipped, an undecodable payload halts with an error.
   */
  function Feed(s: Stream, line: string, parse: string -> Parsed): (f: Fed<Stream>)
    ensures !HasPrefix(line, DataPrefix) ==> f == Continue(s)
    ensures line == DataPrefix + DoneSentinel ==> f == Continue(s)
    ensures (HasPrefix(line, DataPrefix) && line[|DataPrefix|..] != DoneSentinel
             && parse(line[|DataPrefix|..]).Undecodable?) ==> f == Halt(s, Some(Malformed))
    ensures f.Halt? ==> f.err.Some? && (f.err.value.Malformed? || f.err.value.Panic?)
    ensures f.state.model == s.model
  {
    match CutPrefix(line, DataPrefix)
    case None => Continue(s)
    case Some(payload) =>
      if payload == DoneSentinel then Continue(s)
      else match parse(payload)
        case Undecodable => Halt(s, Some(Malformed))
        case Decoded(c) => ApplyChunk(s, c)
  }

  /** The line loop: feeds lines in order until one halts it. */
  function Scan(s: Stream, lines: seq<string>, parse: string -> Parsed): (f: Fed<Stream>)
    decreases |lines|
    ensures f.state.model == s.model
    ensures f.Halt? ==> f.err.Some? && (f.err.value.Malformed? || f.err.value.Panic?)
  {
    if |lines| == 0 then Continue(s)
    else match Feed(s, lines[0], parse)
      case Continue(s') => Scan(s', lines[1..], parse)
      case Halt(s', e) => Halt(s', e)
  }

  /**
   * After the loop (openai.go:281-285): one final ToolCallReady when a call
   * exists. A decode error only breaks the loop, so it still gets one; a
   * panic never reaches this point.
   */
  function Finish(s: Stream, err: Option<StreamError>): Outcome {
    var tail := if |s.message.toolCalls| > 0 && !(err.Some? && err.value.Panic?)
                then [Yield(StatusToolCallReady, s.lastText, LastCall(s.message))] else [];
    Outcome(s.emitted + tail, s.message, UsageOf(s), Cost(PriceEntry(s.model), UsageOf(s)), err)
  }

  /** Draining a whole response for `model`. */
  function Decode(model: string, lines: seq<string>, parse: string -> Parsed): Outcome {
    var f := Scan(Start(model), lines, parse);
    Finish(f.state, if f.Halt? then f.err else None)
  }

  /** The loop has not halted after `lines`. */
  predicate Open(model: string, lines: seq<string>, parse: string -> Parsed) {
    Scan(Start(model), lines, parse).Continue?
  }

  // ---------------------------------------------------------------- pricing

  /** modelPricing (openai.go:136-201), in cents per million tokens. */
  const PriceTable: map<string, Pricing> := map[
    "gpt-4.5-preview" := Pricing(7500, 15000),
    "gpt-4.5-preview-2025-02-27" := Pricing(7500, 15000),
    "gpt-4o" := Pricing(250, 1000),
    "gpt-4o-2024-08-06" := Pricing(250, 1000),
    "gpt-4o-2024-11-20" := Pricing(250, 1000),
    "gpt-4o-2024-05-13" := Pricing(500, 1500),
    "gpt-4o-audio-preview" := Pricing(250, 1000),
    "gpt-4o-audio-preview-2024-12-17" := Pricing(250, 1000),
    "gpt-4o-audio-preview-2024-10-01" := Pricing(250, 1000),
    "gpt-4o-realtime-preview" := Pricing(500, 2000),
    "gpt-4o-realtime-preview-2024-12-17" := Pricing(500, 2000),
    "gpt-4o-realtime-preview-2024-10-01" := Pricing(500, 2000),
    "chatgpt-4o-latest" := Pricing(500, 1500),
    "gpt-4o-mini" := Pricing(15, 60),
    "gpt-4o-mini-2024-07-18" := Pricing(15, 60),
    "gpt-4o-mini-audio-preview" := Pricing(15, 60),
    "gpt-4o-mini-audio-preview-2024-12-17" := Pricing(15, 60),
    "gpt-4o-mini-realtime-preview" := Pricing(60, 240),
    "gpt-4o-mini-realtime-preview-2024-12-17" := Pricing(60, 240),
    "o1" := Pricing(1500, 6000),
    "o1-2024-12-17" := Pricing(1500, 6000),
    "o1-preview-2024-09-12" := Pricing(1500, 6000),
    "o1-pro" := Pricing(15000, 60000),
    "o1-pro-2025-03-19" := Pricing(15000, 60000),
    "o1-mini" := Pricing(110, 440),
    "o1-mini-2024-09-12" := Pricing(110, 440),
    "o3-mini" := Pricing(110, 440),
    "o3-mini-2025-01-31" := Pricing(110, 440),
    "gpt-4-turbo" := Pricing(1000, 3000),
    "gpt-4-turbo-2024-04-09" := Pricing(1000, 3000),
    "gpt-4-0125-preview" := Pricing(1000, 3000),
    "gpt-4-1106-preview" := Pricing(1000, 3000),
    "gpt-4-1106-vision-preview" := Pricing(1000, 3000),
    "gpt-4" := Pricing(3000, 6000),
    "gpt-4-0613" := Pricing(3000, 6000),
    "gpt-4-0314" := Pricing(3000, 6000),
    "gpt-4-32k" := Pricing(6000, 12000),
    "gpt-4-32k-0613" := Pricing(6000, 12000),
    "gpt-3.5-turbo" := Pricing(50, 150),
    "gpt-3.5-turbo-0125" := Pricing(50, 150),
    "gpt-3.5-turbo-1106" := Pricing(100, 200),
    "gpt-3.5-turbo-0613" := Pricing(150, 200),
    "gpt-3.5-0301" := Pricing(150, 200),
    "gpt-3.5-turbo-instruct" := Pricing(150, 200),
    "gpt-3.5-turbo-16k-0613" := Pricing(300, 400),
    "davinci-002" := Pricing(200, 200),
    "babbage-002" := Pricing(40, 40)
  ]

  /** The price entry CostUSD uses: exact model name only. */
  function PriceEntry(model: string): (p: Option<Pricing>)
    ensures p.Some? <==> model in PriceTable
    ensures p.Some? ==> p.value == PriceTable[model]
  {
    if model in PriceTable then Some(PriceTable[model]) else None
  }
}
