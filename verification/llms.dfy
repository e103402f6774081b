/**
 * The provider-independent vocabulary of the llms package: messages, tool
 * calls, stream statuses and the outcome of draining one provider stream.
 */
module Llms {
  import opened Wrappers
  import opened Contents

  /** A tool invocation requested by the model; `arguments` are raw JSON bytes. */
  datatype ToolCall = ToolCall(id: string, name: string, arguments: string)

  /** Go's zero ToolCall, returned by ToolCall() before any call exists. */
  const NoCall := ToolCall("", "", "")

  /** One turn of the conversation. */
  datatype Message = Message(role: string, content: Content, toolCalls: seq<ToolCall>, toolCallID: string)

  /** The zero Message a decoder starts assembling from. */
  const EmptyMessage := Message("", [], [], "")

  /** Stream.ToolCall(): the most recently opened call of the message. */
  function LastCall(m: Message): ToolCall {
    if |m.toolCalls| == 0 then NoCall else m.toolCalls[|m.toolCalls| - 1]
  }

  datatype StreamStatus = StatusText | StatusToolCallBegin | StatusToolCallData | StatusToolCallReady

  /**
   * One status handed to the consumer together with what Text() and
   * ToolCall() return at that moment (the consumer reads both inline).
   */
  datatype Yield = Yield(status: StreamStatus, text: string, call: ToolCall)

  /** Token counts reported by a provider. */
  datatype Usage = Usage(input: nat, output: nat)

  const NoUsage := Usage(0, 0)

  function AddUsage(a: Usage, b: Usage): Usage {
    Usage(a.input + b.input, a.output + b.output)
  }

  /**
   * Why a stream stopped early: an undecodable payload, a stop reason the
   * decoder does not accept, or a condition on which the Go code panics.
   */
  datatype StreamError = Malformed | UnexpectedStopReason(reason: string) | Panic(reason: string)

  /** The result of feeding one line to a decoder. */
  datatype Fed<S> = Continue(state: S) | Halt(state: S, err: Option<StreamError>)

  /** Everything a drained stream exposes: statuses, Message(), Usage(), CostUSD() and Err(). */
  datatype Outcome = Outcome(emitted: seq<Yield>, message: Message, usage: Usage, cost: nat, err: Option<StreamError>)

  /** A price-table entry, in US cents per million tokens. */
  datatype Pricing = Pricing(inputCents: nat, outputCents: nat)

  /**
   * The cost of a response in units of 10^-8 USD (one cent per million
   * tokens is exactly 10^-8 USD per token); no entry costs nothing.
   */
  function Cost(entry: Option<Pricing>, u: Usage): (c: nat)
    ensures entry.None? ==> c == 0
    ensures entry.Some? ==> c == u.input * entry.value.inputCents + u.output * entry.value.outputCents
  {
    match entry
    case None => 0
    case Some(p) => u.input * p.inputCents + u.output * p.outputCents
  }

  /** The Text() deltas of the Text statuses, concatenated in order. */
  function Texts(ys: seq<Yield>): string {
    if |ys| == 0 then ""
    else Texts(ys[..|ys| - 1]) + (if ys[|ys| - 1].status == StatusText then ys[|ys| - 1].text else "")
  }

  /** The calls handed over by the ToolCallReady statuses, in order. */
  function ReadyCalls(ys: seq<Yield>): seq<ToolCall> {
    if |ys| == 0 then []
    else ReadyCalls(ys[..|ys| - 1]) + (if ys[|ys| - 1].status == StatusToolCallReady then [ys[|ys| - 1].call] else [])
  }

  /** How many statuses equal `st`. */
  function Count(ys: seq<Yield>, st: StreamStatus): nat {
    if |ys| == 0 then 0
    else Count(ys[..|ys| - 1], st) + (if ys[|ys| - 1].status == st then 1 else 0)
  }

  /** Appending one status extends each summary by that status alone. */
  lemma YieldSnoc(ys: seq<Yield>, y: Yield)
    ensures Texts(ys + [y]) == Texts(ys) + (if y.status == StatusText then y.text else "")
    ensures ReadyCalls(ys + [y]) == ReadyCalls(ys) + (if y.status == StatusToolCallReady then [y.call] else [])
    ensures forall st :: Count(ys + [y], st) == Count(ys, st) + (if y.status == st then 1 else 0)
  {
    assert (ys + [y])[..|ys|] == ys;
  }

  /** The summaries of a concatenation are the concatenated summaries. */
  lemma {:induction false} YieldConcat(a: seq<Yield>, b: seq<Yield>)
    ensures Texts(a + b) == Texts(a) + Texts(b)
    ensures ReadyCalls(a + b) == ReadyCalls(a) + ReadyCalls(b)
    ensures forall st :: Count(a + b, st) == Count(a, st) + Count(b, st)
    decreases |b|
  {
    if |b| == 0 {
      assert a + b == a;
    } else {
      var b' := b[..|b| - 1];
      var y := b[|b| - 1];
      assert b == b' + [y];
      assert a + b == (a + b') + [y];
      YieldConcat(a, b');
      YieldSnoc(a + b', y);
      YieldSnoc(b', y);
    }
  }

  /** Every ToolCallReady status hands over exactly one call. */
  lemma {:induction false} ReadyCallsCount(ys: seq<Yield>)
    ensures |ReadyCalls(ys)| == Count(ys, StatusToolCallReady)
    decreases |ys|
  {
    if |ys| > 0 {
      ReadyCallsCount(ys[..|ys| - 1]);
    }
  }
}
