/**
 * Whole turns: a decoder's outcome handed to the conversation step. These
 * lemmas tie the decoders' guarantees to what the step shows and commits.
 */
module Pipeline {
  import opened Wrappers
  import opened Contents
  import opened Llms
  import opened Conversation
  import OpenAIStream
  import OpenAIStreamLemmas
  import AnthropicStream
  import AnthropicStreamLemmas

  /**
   * An OpenAI turn whose tool-call indices run 0, 1, 2, ... and whose stream
   * ends cleanly: the updates show exactly the text of the committed reply,
   * the tool messages that follow the reply answer each of its tool calls
   * once and in order, and the loop continues exactly when it has any.
   * The step as written and the corrected step do the same here.
   */
  lemma OpenAITurn(l: LLM, model: string, lines: seq<string>, parse: string -> OpenAIStream.Parsed, reg: Registry)
    requires OpenAIStreamLemmas.SequentialFrom(0, OpenAIStreamLemmas.ToolDeltas(lines, parse))
    requires OpenAIStream.Decode(model, lines, parse).err.None?
    requires AllToolsKnown(reg, OpenAIStream.Decode(model, lines, parse).emitted)
    ensures var o := OpenAIStream.Decode(model, lines, parse);
            var s := Step(l, Streamed(o), reg);
            var n := |l.messages| + 1 + |o.message.toolCalls|;
            && s.result.Success?
            && ShownText(s.updates) == TextOf(o.message.content)
            && |s.llm.messages| >= n
            && s.llm.messages[..n] == l.messages + [o.message] + Answers(reg, o.message.toolCalls)
            && (s.result.value <==> |o.message.toolCalls| > 0)
            && StepAsWritten(l, Streamed(o), reg) == s
  {
    var o := OpenAIStream.Decode(model, lines, parse);
    StepsAgree(l, Streamed(o), reg);
    StepAsWrittenCommits(l, o, reg);
    OpenAIStreamLemmas.SequentialToolCalls(model, lines, parse);
    OpenAIStreamLemmas.DecodedTextIsTextStatuses(model, lines, parse);
  }

  /**
   * An Anthropic turn: whatever the stream held, a successful step shows
   * exactly the text of the reply it commits, empty fragments included. This
   * holds of the step as written, which commits even a reply cut off by a
   * stream error, and of the corrected step.
   */
  lemma AnthropicTurnShowsReply(l: LLM, model: string, order: seq<string>, lines: seq<string>,
                                parse: string -> AnthropicStream.Parsed, reg: Registry)
    requires StepAsWritten(l, Streamed(AnthropicStream.Decode(model, order, lines, parse)), reg).result.Success?
    ensures var o := AnthropicStream.Decode(model, order, lines, parse);
            && ShownText(StepAsWritten(l, Streamed(o), reg).updates) == TextOf(o.message.content)
            && (Step(l, Streamed(o), reg).result.Success? ==> ShownText(Step(l, Streamed(o), reg).updates) == TextOf(o.message.content))
  {
    var o := AnthropicStream.Decode(model, order, lines, parse);
    AnthropicStreamLemmas.DecodedTextIsTextStatuses(model, order, lines, parse);
    StepAsWrittenCommits(l, o, reg);
  }

  /** A stream that says it stopped because it ran out of tokens. */
  function MaxTokensParse(payload: string): AnthropicStream.Parsed {
    AnthropicStream.Decoded(AnthropicStream.MessageDelta(None, "max_tokens"))
  }

  /**
   * A witness for the swallowed stream error: a reply cut off by the
   * "max_tokens" stop reason is committed by the step as written, and
   * refused by the corrected step.
   */
  lemma MaxTokensCommittedAsWritten(l: LLM, model: string, order: seq<string>, reg: Registry)
    ensures var o := AnthropicStream.Decode(model, order, ["data: {}"], MaxTokensParse);
            && o.err == Some(UnexpectedStopReason("max_tokens"))
            && StepAsWritten(l, Streamed(o), reg).result.Success?
            && StepAsWritten(l, Streamed(o), reg).llm.messages == l.messages + [o.message]
            && Step(l, Streamed(o), reg).result == Failure(StreamFailed(UnexpectedStopReason("max_tokens")))
            && Step(l, Streamed(o), reg).llm == l
  {
    var lines := ["data: {}"];
    assert AnthropicStream.Open(model, [], MaxTokensParse);
    AnthropicStreamLemmas.EndingLineStops(model, order, [], lines[0], [], MaxTokensParse);
    assert [] + [lines[0]] + [] == lines;
    var o := AnthropicStream.Decode(model, order, lines, MaxTokensParse);
    assert o.emitted == [];
    assert AllToolsKnown(reg, o.emitted);
    StreamErrorSwallowed(l, o, reg);
    assert Consume(reg, o.emitted).toolMessages == [];
    assert SortStable([]) == [];
  }
}
