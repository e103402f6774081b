/**
 * The Anthropic stream decoder (anthropic/anthropic.go, Stream): a fold over
 * explicitly typed events that assembles one assistant message, sums every
 * usage report and stops at message_stop, an undecodable payload or a stop
 * reason it does not accept.
 */
module AnthropicStream {
  import opened Wrappers
  import opened Strings
  import opened Contents
  import opened Llms

  /** The content_block of a content_block_start event. */
  datatype Block = Block(kind: string, id: string, name: string)

  /** The delta of a content_block_delta event. */
  datatype BlockDelta = BlockDelta(kind: string, text: string, partialJson: string)

  /** A decoded streamEvent, by its "type". */
  datatype Event =
    | MessageStart(role: string, usage: Option<Usage>)
    | ContentBlockStart(block: Block)
    | ContentBlockDelta(delta: BlockDelta)
    | ContentBlockStop
    | MessageDelta(usage: Option<Usage>, stopReason: string)
    | MessageStop
    | OtherEvent(kind: string)

  /** What json.Unmarshal makes of one payload. */
  datatype Parsed = Decoded(event: Event) | Undecodable

  const DataPrefix := "data: "
  const NoOpenCall := "index out of range [-1]"

  /** The decoder's fields: model, message, lastText, token counters, plus the statuses yielded so far. */
  datatype Stream = Stream(model: string, message: Message, lastText: string, usage: Usage, emitted: seq<Yield>)

  function Start(model: string): Stream {
    Stream(model, EmptyMessage, "", NoUsage, [])
  }

  /** A stop reason that ends the turn normally: none yet, a tool call, or the end of the turn. */
  predicate AcceptedStopReason(reason: string) {
    reason == "" || reason == "tool_use" || reason == "end_turn"
  }

  function AddReport(u: Usage, report: Option<Usage>): Usage {
    if report.Some? then AddUsage(u, report.value) else u
  }

  /** yield(st), recording what Text() and ToolCall() return at that moment. */
  function Emit(s: Stream, st: StreamStatus): (r: Stream)
    ensures r == s.(emitted := s.emitted + [Yield(st, s.lastText, LastCall(s.message))])
    ensures Texts(r.emitted) == Texts(s.emitted) + (if st == StatusText then s.lastText else "")
    ensures ReadyCalls(r.emitted) == ReadyCalls(s.emitted) + (if st == StatusToolCallReady then [LastCall(s.message)] else [])
    ensures forall k :: Count(r.emitted, k) == Count(s.emitted, k) + (if k == st then 1 else 0)
  {
    YieldSnoc(s.emitted, Yield(st, s.lastText, LastCall(s.message)));
    s.(emitted := s.emitted + [Yield(st, s.lastText, LastCall(s.message))])
  }

  /** content_block_delta (anthropic.go:192-205). */
  function ApplyBlockDelta(s: Stream, d: BlockDelta): (f: Fed<Stream>)
    ensures d.kind == "text_delta" ==>
              && f.Continue?
              && f.state.lastText == d.text
              && TextOf(f.state.message.content) == TextOf(s.message.content) + d.text
              && f.state.message.toolCalls == s.message.toolCalls
              && f.state.emitted == s.emitted + [Yield(StatusText, d.text, LastCall(s.message))]
    ensures d.kind == "input_json_delta" && |s.message.toolCalls| == 0 ==> f == Halt(s, Some(Panic(NoOpenCall)))
    ensures var calls := s.message.toolCalls; var n := |calls|;
            d.kind == "input_json_delta" && n > 0 ==>
              && f.Continue?
              && |f.state.message.toolCalls| == n
              && (forall i :: 0 <= i < n - 1 ==> f.state.message.toolCalls[i] == calls[i])
              && f.state.message.toolCalls[n - 1] == calls[n - 1].(arguments := calls[n - 1].arguments + d.partialJson)
              && f.state.message.content == s.message.content
              && f.state.emitted == s.emitted + [Yield(StatusToolCallData, s.lastText, f.state.message.toolCalls[n - 1])]
    ensures d.kind != "text_delta" && d.kind != "input_json_delta" ==> f == Continue(s)
    ensures f.state.usage == s.usage && f.state.model == s.model && f.state.message.role == s.message.role
  {
    if d.kind == "text_delta" then
      var s1 := s.(lastText := d.text);
      Continue(Emit(s1.(message := s1.message.(content := Append(s1.message.content, d.text))), StatusText))
    else if d.kind == "input_json_delta" then
      var calls := s.message.toolCalls;
      var n := |calls|;
      if n == 0 then Halt(s, Some(Panic(NoOpenCall)))
      else
        var extended := calls[n - 1].(arguments := calls[n - 1].arguments + d.partialJson);
        Continue(Emit(s.(message := s.message.(toolCalls := calls[n - 1 := extended])), StatusToolCallData))
    else Continue(s)
  }

  /** content_block_start (anthropic.go:206-215): only a tool_use block opens a call, with empty arguments. */
  function ApplyBlockStart(s: Stream, b: Block): (r: Stream)
    ensures b.kind == "tool_use" ==>
              && r.message.toolCalls == s.message.toolCalls + [ToolCall(b.id, b.name, "")]
              && r.emitted == s.emitted + [Yield(StatusToolCallBegin, s.lastText, ToolCall(b.id, b.name, ""))]
    ensures b.kind != "tool_use" ==> r == s
    ensures r.message.content == s.message.content && r.message.role == s.message.role
    ensures r.usage == s.usage && r.model == s.model && r.lastText == s.lastText
  {
    if b.kind == "tool_use" then
      Emit(s.(message := s.message.(toolCalls := s.message.toolCalls + [ToolCall(b.id, b.name, "")])), StatusToolCallBegin)
    else s
  }

  /**
   * content_block_stop (anthropic.go:216-221): ToolCallReady for the last
   * call whenever one exists, whatever kind of block closed.
   */
  function ApplyBlockStop(s: Stream): (r: Stream)
    ensures |s.message.toolCalls| > 0 ==>
              r == s.(emitted := s.emitted + [Yield(StatusToolCallReady, s.lastText, s.message.toolCalls[|s.message.toolCalls| - 1])])
    ensures |s.message.toolCalls| == 0 ==> r == s
  {
    if |s.message.toolCalls| > 0 then Emit(s, StatusToolCallReady) else s
  }

  /** One decoded event (anthropic.go:185-233). */
  function ApplyEvent(s: Stream, e: Event): (f: Fed<Stream>)
    ensures e.MessageStart? ==>
              f == Continue(s.(message := s.message.(role := e.role), usage := AddReport(s.usage, e.usage)))
    ensures e.ContentBlockStart? ==> f == Continue(ApplyBlockStart(s, e.block))
    ensures e.ContentBlockDelta? ==> f == ApplyBlockDelta(s, e.delta)
    ensures e.ContentBlockStop? ==> f == Continue(ApplyBlockStop(s))
    ensures e.MessageDelta? ==> f.state == s.(usage := AddReport(s.usage, e.usage))
    ensures e.MessageDelta? ==> (f.Halt? <==> !AcceptedStopReason(e.stopReason))
    ensures e.MessageDelta? && f.Halt? ==> f.err == Some(UnexpectedStopReason(e.stopReason))
    ensures e.MessageStop? ==> f == Halt(s, None)
    ensures e.OtherEvent? ==> f == Continue(s)
  {
    match e
    case MessageStart(role, usage) =>
      Continue(s.(message := s.message.(role := role), usage := AddReport(s.usage, usage)))
    case ContentBlockDelta(d) => ApplyBlockDelta(s, d)
    case ContentBlockStart(b) => Continue(ApplyBlockStart(s, b))
    case ContentBlockStop => Continue(ApplyBlockStop(s))
    case MessageDelta(usage, reason) =>
      var s1 := s.(usage := AddReport(s.usage, usage));
      if !AcceptedStopReason(reason) then Halt(s1, Some(UnexpectedStopReason(reason))) else Continue(s1)
    case MessageStop => Halt(s, None)
    case OtherEvent(_) => Continue(s)
  }

  /** One scanned line: only "data: " lines are read; an undecodable payload halts with an error. */
  function Feed(s: Stream, line: string, parse: string -> Parsed): (f: Fed<Stream>)
    ensures !HasPrefix(line, DataPrefix) ==> f == Continue(s)
    ensures HasPrefix(line, DataPrefix) && parse(line[|DataPrefix|..]).Undecodable? ==> f == Halt(s, Some(Malformed))
    ensures HasPrefix(line, DataPrefix) && parse(line[|DataPrefix|..]).Decoded? ==>
              f == ApplyEvent(s, parse(line[|DataPrefix|..]).event)
    ensures f.state.model == s.model
  {
    match CutPrefix(line, DataPrefix)
    case None => Continue(s)
    case Some(payload) =>
      match parse(payload)
      case Undecodable => Halt(s, Some(Malformed))
      case Decoded(e) => ApplyEvent(s, e)
  }

  /**
   * The line loop: feeds lines in order until one halts it. A halt is
   * message_stop (no error), an undecodable payload, a refused stop reason,
   * or a partial_json delta with no call open, which panics.
   */
  function Scan(s: Stream, lines: seq<string>, parse: string -> Parsed): (f: Fed<Stream>)
    decreases |lines|
    ensures f.state.model == s.model
    ensures f.Halt? && f.err.Some? && f.err.value.UnexpectedStopReason? ==> !AcceptedStopReason(f.err.value.reason)
    ensures f.Halt? && f.err.Some? && f.err.value.Panic? ==>
              f.err.value.reason == NoOpenCall && |f.state.message.toolCalls| == 0
  {
    if |lines| == 0 then Continue(s)
    else match Feed(s, lines[0], parse)
      case Continue(s') => Scan(s', lines[1..], parse)
      case Halt(s', e) => Halt(s', e)
  }

  /**
   * Draining a whole response for `model`. `order` is the order in which Go
   * happens to range over the price table; the price does not depend on it
   * (AnthropicStreamLemmas.PriceEntryIgnoresOrder).
   */
  function Decode(model: string, order: seq<string>, lines: seq<string>, parse: string -> Parsed): Outcome {
    var f := Scan(Start(model), lines, parse);
    Outcome(f.state.emitted, f.state.message, f.state.usage,
            Cost(PriceEntry(model, order), f.state.usage), if f.Halt? then f.err else None)
  }

  /** The loop has not halted after `lines`. */
  predicate Open(model: string, lines: seq<string>, parse: string -> Parsed) {
    Scan(Start(model), lines, parse).Continue?
  }

  // ---------------------------------------------------------------- pricing

  /** modelPricing (anthropic.go:135-147), in cents per million tokens. */
  const PriceTable: map<string, Pricing> := map[
    "claude-3-7-sonnet" := Pricing(300, 1500),
    "claude-3-5-sonnet" := Pricing(300, 1500),
    "claude-3-5-haiku" := Pricing(80, 400),
    "claude-3-opus" := Pricing(1500, 7500),
    "claude-3-sonnet" := Pricing(300, 1500),
    "claude-3-haiku" := Pricing(25, 125)
  ]

  /** `order` lists exactly the keys of the price table. */
  predicate Enumerates(order: seq<string>) {
    (forall i :: 0 <= i < |order| ==> order[i] in PriceTable)
    && (forall k :: k in PriceTable ==> k in order)
  }

  /** The range loop over the table: the first key, in `order`, that `model` starts with. */
  function FirstPrefix(model: string, order: seq<string>): (p: Option<Pricing>)
    ensures p.Some? <==> exists i :: 0 <= i < |order| && order[i] in PriceTable && HasPrefix(model, order[i])
    ensures p.Some? ==> exists i :: 0 <= i < |order| && order[i] in PriceTable && HasPrefix(model, order[i])
                                    && p.value == PriceTable[order[i]]
    decreases |order|
  {
    if |order| == 0 then None
    else if order[0] in PriceTable && HasPrefix(model, order[0]) then Some(PriceTable[order[0]])
    else
      var p := FirstPrefix(model, order[1..]);
      assert forall i :: 1 <= i < |order| ==> order[i] == order[1..][i - 1];
      p
  }

  /** CostUSD's entry (anthropic.go:149-164): the exact model name first, then a key it starts with. */
  function PriceEntry(model: string, order: seq<string>): (p: Option<Pricing>)
    ensures model in PriceTable ==> p == Some(PriceTable[model])
    ensures Enumerates(order) && model !in PriceTable ==>
              (p.Some? <==> exists k :: k in PriceTable && HasPrefix(model, k))
    ensures Enumerates(order) && model !in PriceTable && p.Some? ==>
              exists k :: k in PriceTable && HasPrefix(model, k) && p.value == PriceTable[k]
  {
    if model in PriceTable then Some(PriceTable[model]) else FirstPrefix(model, order)
  }
}
