# go-llms core, modelled in Dafny

This project models the part of go-llms that turns a provider's streamed
answer into a conversation, and proves properties of that model:

- **OpenAI stream decoder** (`OpenAIStream`, `OpenAIStreamLemmas`). It folds
  the response lines into a list of stream statuses, one assembled assistant
  message, the last usage report and a sticky error. Readiness of a tool call
  is implied by the start of the next one and by the end of the stream.
- **Anthropic stream decoder** (`AnthropicStream`, `AnthropicStreamLemmas`).
  It is the same fold over typed events (`message_start`,
  `content_block_start/delta/stop`, `message_delta`, `message_stop`). Usage
  reports are summed, stop reasons are checked against a whitelist, and the
  price entry is chosen by exact key and then by prefix.
- **Outgoing converters** (`OpenAITypes`, `AnthropicConvert`). These map the
  library's messages to each API's request shape:
  - OpenAI: content parts, the bare-string collapse of a single text part,
    tool messages split in two, empty messages dropped, invalid tool
    arguments replaced by `{}`;
  - Anthropic: blank text sent as `(Empty)`, base64 data URIs split into
    media type and data, tool results sent as user messages.
- **Conversation step** (`Conversation`). It covers:
  - the user message appended by `ChatUsingContent`;
  - how each stream status becomes an update;
  - tool calls run inline when they become ready, with the tool message and
    the optional image message that follows it;
  - the stable "tool role first" sort;
  - committing history only on success, the running cost, and the rule that
    the loop continues only while tools were used;
  - the chat loop, which runs a given step: `AsWritten`, the step as the
    code stands, or `Corrected`, the corrected step of the Findings section.
- **Whole turns** (`Pipeline`). These lemmas join a decoder's outcome to the
  step.

Shared vocabulary lives in `Llms` (messages, tool calls, statuses, usage,
outcomes, costs), `Contents` (content lists), `Strings` (the few `strings`
functions used) and `Wrappers` (`Option`, `Result`).

Modelling choices:

- **Decoders as folds.** Each decoder is a pure fold:
  - `Feed` reads one line and either continues or halts;
  - `Scan` feeds lines until a halt;
  - `Decode` packages the `Outcome`: the statuses yielded, the message, the
    usage, the cost and the error.
- **Status snapshots.** Each status is recorded with the `Text()` and
  `ToolCall()` the stream reported when it was yielded, because the step
  reads those accessors inline.
- **JSON decoding is an oracle.** `parse` maps a payload to a decoded
  record or to `Undecodable`. `json.Valid` is the predicate `validJson`.
- **Go panics are errors.** They become error values: a decoder panic is
  `StreamError.Panic`, a missing tool is `ChatError.ToolNotFound`, and an
  image Anthropic cannot take is `ConvertError`.
- **Costs are integers.** They are counted in units of 1e-8 USD, with
  prices written in cents per million tokens, so no floating point is
  involved.
- **Map iteration order is a parameter.** Go ranges over the Anthropic price
  table in an unspecified order. Here that order is the parameter `order`,
  and `PriceEntryIgnoresOrder` proves the result does not depend on it.
- **The toolbox and the provider are oracles.**
  - `Registry.get` looks a tool up by name.
  - `Registry.run` gives the status lines and the result of running a call.
  - The provider maps the history to a `Reply`: an error before any line,
    or a decoder outcome.
- **Cancellation and the step count.** Cancellation is the step index
  `cancelAt` at which the context is found done at the top of the loop. The
  loop carries a `fuel` bound on its number of steps.
- **The `content` package is not part of this model.** Its `Append` is
  taken to extend a trailing text item or else to start one. The contracts
  about appended text use only the readable text `TextOf`, so they hold for
  any implementation with that property.

Three consequences of the code as written, which the model keeps:

- tool calls run inline, while the reply is still streaming, as soon as
  `ToolCallReady` arrives (llms/llm.go:169-171), not once the reply is
  complete;
- the Anthropic decoder yields `ToolCallReady` at every `content_block_stop`
  once any call exists (anthropic/anthropic.go:216-221), whatever kind of
  block closes. A text block that follows a tool_use block therefore hands
  the same call over again, and the step runs that tool a second time
  (`AnthropicStreamLemmas.TextBlockAfterToolReadiesItAgain`);
- after the statuses are drained, `step` does not look at the stream's
  `Err()`, so a reply cut off by a stream error is committed. When no tool
  call became ready the chat then ends normally; when one did (a call open
  at the cut is still closed by the final `ToolCallReady`), the tool runs
  and the loop takes another step on the truncated history. `StepAsWritten`,
  and `Loop` running it (`AsWritten`) as `ChatUsingContent` does, model
  exactly that. See Findings for the corrected `Step`.

## Model

| member | source | states |
|---|---|---|
| OpenAIStream.Feed | openai/openai.go:224-279 | a line without the `data: ` prefix and the `[DONE]` payload leave the stream untouched; an undecodable payload halts with `Malformed`; every halt is a decode error or a panic; the model name is never changed |
| OpenAIStream.ApplyContent | openai/openai.go:243-253 | a non-empty content delta extends the message text by exactly that delta and yields one Text status whose `Text()` is the delta; an empty or absent delta yields nothing; the role is replaced only by a non-empty role; tool calls and usage are untouched |
| OpenAIStream.ApplyToolDelta | openai/openai.go:260-279 | an index below the call count must be the last index (else a panic), appends its arguments to that call only and yields one ToolCallData; an index at or above the count appends one call built from the delta, yields ToolCallReady first exactly when the index is positive, then ToolCallBegin with that call as `ToolCall()` |
| OpenAIStreamLemmas.ApplyToolDeltaSummaries | openai/openai.go:260-279 | a tool delta never adds text; extending the last call adds no ToolCallReady and no ToolCallBegin; a new call adds exactly one ToolCallBegin, and hands over the previous call through ToolCallReady exactly when the index is positive |
| OpenAIStreamLemmas.DeltaSequential | openai/openai.go:244-279 | a choice's delta whose tool delta is the next or the last index continues the stream, and every call but the last has been handed over while the ToolCallBegin count equals the call count |
| OpenAIStream.ApplyDelta | openai/openai.go:254-259 | a chunk with more than one tool delta is a panic after its content is applied; with none, only the content is applied |
| OpenAIStream.ApplyChunk | openai/openai.go:237-243 | a chunk carrying usage replaces the stored usage, otherwise it is kept; a chunk without choices changes nothing else |
| OpenAIStream.Scan | openai/openai.go:224-280 | the line loop stops only on a decode error or a panic and keeps the model name |
| OpenAIStream.PriceEntry | openai/openai.go:203-207 | the price entry exists exactly for a model named in the table and is that entry: no prefix matching |
| OpenAIStreamLemmas.SkippedLineIgnored | openai/openai.go:225-231 | inserting a non-data line or a `[DONE]` line anywhere in a response does not change the decoded outcome |
| OpenAIStreamLemmas.UndecodableStops | openai/openai.go:232-236 | nothing after an undecodable payload is read; the outcome is the one for the lines before it, with error `Malformed` and the partial message kept, and the final Ready still yielded |
| OpenAIStreamLemmas.DecodedTextIsTextStatuses | openai/openai.go:247-253 | the Text statuses' fragments, concatenated, are exactly the text of the assembled message, and none of them is empty |
| OpenAIStreamLemmas.ScanSequential | openai/openai.go:261-279 | with tool indices 0, 1, 2, … the decoder never panics and every call except the last has been announced Ready once, in order |
| OpenAIStreamLemmas.FinishHandsOverLast | openai/openai.go:281-285 | whatever order the tool indices came in, the end of the stream, including after a decode error, yields exactly one more Ready, carrying the last call, exactly when a call exists; after a panic nothing is added; nothing else changes |
| OpenAIStreamLemmas.FinishReady | openai/openai.go:281-285 | with the calls before the last already handed over (sequential indices), the final Ready completes the handover: every call has been Ready exactly once, in order |
| OpenAIStreamLemmas.SequentialToolCalls | openai/openai.go:261-285 | with tool indices 0, 1, 2, …: no panic, the Ready statuses carry exactly the message's tool calls in order, and the numbers of Begin and Ready statuses both equal the number of calls |
| OpenAIStreamLemmas.UsageLastWins | openai/openai.go:237-239 | when `x` is the last chunk carrying usage, `Usage()` is `x`'s report, regardless of earlier reports and of any lines after it |
| OpenAIStreamLemmas.NoUsageMeansZero | openai/openai.go:213-218 | a response without usage reports has usage (0, 0) |
| OpenAIStreamLemmas.UnknownModelCostsNothing | openai/openai.go:203-207 | a model missing from the table costs 0 |
| OpenAITypes.ConvertContent | openai/types.go:30-55 | one part per item, in order: text becomes a "text" part, JSON a "text" part with its bytes, an image an "image_url" part with detail "auto" |
| OpenAITypes.MarshalContentList | openai/types.go:57-62 | a list is written as a bare string exactly when it is one text part with text, and as an array otherwise |
| OpenAITypes.UnmarshalContentList | openai/types.go:64-76 | a string (or null) is read as one text part, an array as its parts, anything else is an error |
| OpenAITypes.MarshalRoundTrip | openai/types.go:57-76 | writing then reading a list gives it back exactly unless it is one text part that also carries an image |
| OpenAITypes.ConvertedRoundTrip | openai/types.go:30-76 | every converted content list survives writing and reading unchanged |
| OpenAITypes.MessagesFromLLM | openai/types.go:87-163 | a tool message becomes a "tool" message holding its first item's text, JSON or URL (or "") with the same call id, followed by one "user" message exactly when more items follow; another message with no content and no calls is dropped, otherwise kept as one message; only an assistant's calls are sent, one for one and in order, as "function" calls, invalid arguments becoming `{}` |
| OpenAITypes.SentArgumentsValid | openai/types.go:145-161 | every tool-call argument string the request carries is valid JSON |
| AnthropicStream.Feed | anthropic/anthropic.go:174-183 | a non-data line leaves the stream untouched; an undecodable payload halts with `Malformed`; a decoded event is applied |
| AnthropicStream.ApplyEvent | anthropic/anthropic.go:185-232 | `message_start` sets the role and adds its usage; `message_delta` adds its usage and halts with the stop reason unless it is "", "tool_use" or "end_turn"; `message_stop` halts without error; other events change nothing |
| AnthropicStream.ApplyBlockDelta | anthropic/anthropic.go:193-204 | every text delta, empty ones included, extends the text by that delta and yields one Text status; a JSON delta extends the last call's arguments only and yields ToolCallData, and is a panic when there is no call |
| AnthropicStream.ApplyBlockStart | anthropic/anthropic.go:206-215 | a `tool_use` block appends one call with its id and name and empty arguments and yields ToolCallBegin; any other block changes nothing |
| AnthropicStreamLemmas.TextBlockAfterToolReadiesItAgain | anthropic/anthropic.go:206-221 | opening and closing a tool_use block and then a block of another kind hands the new call over twice |
| AnthropicStream.ApplyBlockStop | anthropic/anthropic.go:216-221 | closing any block, text blocks included, yields ToolCallReady carrying the last call exactly when a call exists |
| AnthropicStream.Scan | anthropic/anthropic.go:172-235 | the line loop keeps the model name; a stop-reason halt carries a refused reason, and a panic halt happens only when no call is open |
| AnthropicStream.PriceEntry | anthropic/anthropic.go:149-164 | the exact entry when the model is a key; otherwise, over a complete enumeration of the table, an entry exists exactly when some key is a prefix of the model name, and it is the entry of such a key |
| AnthropicStream.FirstPrefix | anthropic/anthropic.go:157-161 | the range loop returns an entry exactly when some key in the iteration order prefixes the model, and that entry belongs to such a key |
| AnthropicStreamLemmas.NonDataLineIgnored | anthropic/anthropic.go:175-178 | inserting a non-data line anywhere in a response does not change the outcome |
| AnthropicStreamLemmas.EndingLineStops | anthropic/anthropic.go:179-183 | after an undecodable payload, a `message_stop` or a refused stop reason nothing more is read; the error is `Malformed`, none, or the stop reason respectively |
| AnthropicStreamLemmas.DecodedTextIsTextStatuses | anthropic/anthropic.go:194-199 | the Text statuses' fragments, empty ones included, concatenated, are exactly the text of the assembled message |
| AnthropicStreamLemmas.BeginPerToolCall | anthropic/anthropic.go:206-215 | the number of ToolCallBegin statuses equals the number of tool calls in the message |
| AnthropicStreamLemmas.FeedAddsReport | anthropic/anthropic.go:186-191 | every line adds exactly its own usage report, a line that halts included: a refused stop reason's usage is counted before reading stops |
| AnthropicStreamLemmas.UsageIsSumOfReports | anthropic/anthropic.go:186-191 | for lines whose every line but the last leaves the loop running, `Usage()` is the sum of all `message_start` and `message_delta` reports, the last line's included even when it ends the stream |
| AnthropicStreamLemmas.UsageOfResponse | anthropic/anthropic.go:179-191 | for a whole response ending in `message_stop`, a refused stop reason or an undecodable payload, `Usage()` is the sum of the reports up to that line; later lines add nothing |
| AnthropicStreamLemmas.NoKeyPrefixOfAnother | anthropic/anthropic.go:135-147 | no key of the price table is a prefix of another key |
| AnthropicStreamLemmas.UniquePrefixKey | anthropic/anthropic.go:135-147 | at most one key of the price table is a prefix of any model name |
| AnthropicStreamLemmas.PriceEntryIgnoresOrder | anthropic/anthropic.go:149-164 | the price entry, and so the cost, is the same for every iteration order of the table |
| AnthropicStreamLemmas.UnknownModelCostsNothing | anthropic/anthropic.go:162-163 | a model matching no key, exactly or by prefix, costs 0 |
| AnthropicConvert.SplitDataUri | anthropic/anthropic.go:263-279 | a non-data URL and a data URI without `;base64,` are refused; otherwise the result is a base64 source whose media type and data rebuild the URI around the first `;base64,` |
| AnthropicConvert.DataUriRoundTrip | anthropic/anthropic.go:263-274 | a data URI built from a media type without `;` and any data splits back into exactly that media type and data |
| AnthropicConvert.ItemFromLLM | anthropic/anthropic.go:254-285 | blank text is sent as "(Empty)" and other text unchanged, so no text item is ever blank; an image is sent only as a split data URI; JSON is sent as text of its bytes |
| AnthropicConvert.ContentFromLLM | anthropic/anthropic.go:251-288 | one item per input, in order, each converted alone; the conversion fails exactly when some item fails, with the first failing item's error |
| AnthropicConvert.MessageFromLLM | anthropic/anthropic.go:290-317 | a tool message becomes a "user" message holding one tool result with the same call id and the converted content; another message keeps its role and its converted content, followed by one tool use per call, in order |
| AnthropicConvert.ToolCallsRoundTrip | anthropic/anthropic.go:305-312 | reading the tool uses back out of a converted message gives exactly the message's tool calls |
| Conversation.CallID | llms/llm.go:225-228 | a tool result answers the call's id, or its name when the id is empty |
| Conversation.ImageMessage | llms/llm.go:238-249 | the image message is a user message whose text names the first image and whose images are all the result's images, in order |
| Conversation.RunToolCallSpec | llms/llm.go:217-252 | one status update per reported status, then exactly one done update; the tool message with the JSON result comes first, and a user message with the images follows exactly when there are images |
| Conversation.Handle | llms/llm.go:159-172 | Text shows the fragment; Begin for an unknown tool is fatal, otherwise sends one `ToolStartUpdate` with the toolbox's tool; Ready runs the call at once; Data sends nothing |
| Conversation.ConsumeAnnouncesTools | llms/llm.go:162-168 | a stream handled without a fatal status sends one `ToolStartUpdate` per Begin status, announcing in order the tools those statuses name |
| Conversation.ConsumeFails | llms/llm.go:162-167 | handling a stream's statuses fails exactly when some Begin names a tool the toolbox lacks |
| Conversation.ConsumeShowsText | llms/llm.go:160-161 | the text updates show exactly the text of the stream's Text statuses |
| Conversation.ConsumeAnswersReadyCalls | llms/llm.go:169-171 | the tool messages produced answer exactly the calls announced Ready, once each and in order, with at most one image message per call besides |
| Conversation.SortStableIsToolFirst | llms/llm.go:189-198 | the sort puts every tool-role message before every other message and keeps the order within each group |
| Conversation.Step | llms/llm.go:109-205 | the corrected step of the Findings section, not the code as written: an error leaves history and cost unchanged and sends no error update; the step succeeds exactly when the stream ended cleanly and every announced tool exists, with the error of the stream otherwise; a success is exactly the step as written's, so commits what StepAsWrittenCommits states |
| Conversation.StepAsWritten | llms/llm.go:109-205 | as the code stands: an error leaves history and cost unchanged; the step fails exactly when some announced tool is missing (`ToolNotFound`) or the decoder panicked, so a stream stopped by a decode error or a refused stop reason still succeeds; an error before any line fails with it and sends nothing; the updates never hold an error |
| Conversation.StepAsWrittenCommits | llms/llm.go:159-204 | on success the history gains the reply, then the answers to the Ready calls in order, then only non-tool messages; the cost grows by the reply's cost; the loop continues exactly when some call became Ready; the updates show exactly the streamed text |
| Conversation.StepsAgree | llms/llm.go:119-121 | the corrected step and the step as written give the same result on an error before any line, on a missing tool and on every stream that ended cleanly |
| Conversation.StreamErrorSwallowed | llms/llm.go:178-188 | on a stream stopped by a non-panic error the code commits the partial reply, while the corrected step reports the error and commits nothing |
| Conversation.LoopContinuesAfterTools | llms/llm.go:67-87 | a step that ran tools is followed by the rest of the loop from the history it left, its updates coming first: the loop stops only on a step without tools, an error, cancellation or the step bound |
| Conversation.Loop | llms/llm.go:70-87 | with any step that only extends the history (the step as written or the corrected one): the history only grows and the cost never falls; exactly one error update is sent exactly when the loop fails, and it is the last update; a context found done sends only that error update; otherwise the end follows the step: a failed step sends its updates then its error update and keeps the history, a step that ran no tool ends the loop with its own history and updates, and a step that ran tools is a prefix of the rest of the loop's updates and history |
| Conversation.LoopCommitsStreamError | llms/llm.go:78-85 | the loop as written, on a reply cut off by a non-panic stream error with no call Ready, commits the partial reply and its cost, sends no error update and ends normally; the corrected loop sends the error, commits nothing and fails |
| Conversation.ChatUsingContent | llms/llm.go:61-88 | exactly one user message with the given content is appended to the history, and the loop, running the step as written, starts from that history |
| Pipeline.OpenAITurn | llms/llm.go:159-204 | an OpenAI turn with sequential tool indices and a clean end shows exactly the reply's text, commits the reply followed by one answer per tool call in order, and continues exactly when the reply has tool calls; the step as written does exactly the same |
| Pipeline.AnthropicTurnShowsReply | llms/llm.go:160-161 | a successful Anthropic turn of the step as written, a cut-off reply included, shows exactly the text of the reply it commits; so does a successful corrected step |
| Pipeline.MaxTokensCommittedAsWritten | llms/llm.go:178-188 | an Anthropic reply cut off by the "max_tokens" stop reason is committed by the code as written and refused by the corrected step |
| Contents.Append | openai/openai.go:247-249 | appending a fragment extends the readable text by exactly that fragment and leaves every earlier item alone |
| Strings.Cut | anthropic/anthropic.go:266 | the text before and after the first occurrence of the separator, which rebuild the input; none exactly when the separator does not occur |
| Strings.TrimSpaceEmpty | anthropic/anthropic.go:258 | trimming white space leaves nothing exactly when the text is all white space |

## Left out

- HTTP request construction and transport in both `Generate` methods
  (headers, payload maps, debug printing, status codes). The provider is an
  oracle returning either an error before any line or a decoder outcome.
- The system prompt and the tool schemas sent with each request, including
  `Tools`. They do not affect what the step does with the reply.
- `encoding/json`: decoding is the oracle `parse`, `json.Valid` is the
  predicate `validJson`, and JSON values in `contentList` are an abstract
  `JsonValue`.
- `bufio.Scanner` line splitting, its token-size limit and the final
  `io.Copy` drain. A response is a given sequence of lines.
- Goroutines, channels and `ctx.Done()`:
  - cancellation while statuses are streaming (llms/llm.go:155-157);
  - the race of `ctx.Done()` against `done` (llms/llm.go:178-180).
  These are concurrency. Cancellation is modelled only at the top of the
  loop, and updates are a list, which ends where the channel is closed.
- A consumer that stops iterating early (`yield` returning false). The step
  always drains the statuses.
- Negative token counts. Go reads the counts into `int`, which would
  accept a negative value in a payload; `Usage` holds `nat` counts, so the
  `parse` oracle can only report non-negative ones.
- Floating-point cost arithmetic. Costs are exact integers in 1e-8 USD.
- Writing `debug.yaml`, which is a file side effect.
- The duplicate tool-call id check in `runToolCall` (llms/llm.go:208-215).
  It only prints, and the call still runs, which is what the model does.
- Conversation.Loop: the `fuel` bound ends the loop with `OutOfFuel` after
  that many steps. Go has no such bound, and a provider that keeps calling
  tools loops forever there.
- The `content` package is not part of this model. `Textf`, `Append` and the
  JSON encoding its tests exercise are reduced to the operations above.
- The `tools` package is not part of this model. `Toolbox`, runners and
  schemas are the `Registry` oracle.
- The Go `default:` panics on unknown content item kinds. The item type here
  is closed, so they cannot occur.
- Unicode tables beyond the characters `unicode.IsSpace` lists. `IsSpace`
  spells out that set.

## Findings

| source | as written | input that shows it | evidently intended | confidence | as-written member | corrected member |
|---|---|---|---|---|---|---|
| llms/llm.go:178-188 | after draining the statuses `step` only checks the context's error, never the stream's `Err()`, so a reply cut short by an undecodable chunk or a refused stop reason is committed as complete, the step reports success and, when no tool call became ready, the chat loop ends without an error update (Conversation.LoopCommitsStreamError); when one did, the loop goes on from the truncated history | an Anthropic response whose `message_delta` carries stop reason "max_tokens" | a stream error ends the step with that error, leaving history and cost unchanged, as an error before any line already does (llms/llm.go:119-121) | medium, not executed | Conversation.StepAsWritten | Conversation.Step |
