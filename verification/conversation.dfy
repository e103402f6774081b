/**
 * The conversation driver (llms/llm.go): one step asks the provider for a
 * reply, turns the decoder's statuses into updates, runs tool calls inline
 * as they become ready, and commits the reply and the tool results to the
 * history; the chat loop repeats steps while tools were used.
 *
 * Channels and goroutines are sequentialised: the updates a step sends are
 * a list, and cancellation is observed at the top of the loop only.
 */
module Conversation {
  import opened Wrappers
  import opened Contents
  import opened Llms

  /** A tool as the registry hands it out; only its name matters here. */
  datatype Tool = Tool(name: string)

  datatype Image = Image(name: string, url: string)

  /** What a tool run produced: its JSON result and the images it attached. */
  datatype ToolResult = ToolResult(json: string, images: seq<Image>)

  /** A tool run: the status lines the tool reported while running, then its result. */
  datatype Run = Run(statuses: seq<string>, result: ToolResult)

  /** The toolbox as an oracle: lookup by name, and running a call by name and JSON arguments. */
  datatype Registry = Registry(get: string -> Option<Tool>, run: (string, string) -> Run)

  datatype ChatError =
    | GenerateFailed(reason: string)    // the provider's stream reported an error before any line
    | StreamFailed(error: StreamError)  // the decoder stopped with an error
    | ToolNotFound(name: string)        // a tool call named a tool the toolbox lacks (a panic in Go)
    | Cancelled                         // the context was done at the top of the loop

  datatype Update =
    | TextUpdate(text: string)
    | ToolStartUpdate(tool: Tool)
    | ToolStatusUpdate(statusTool: Option<Tool>, status: string)
    | ToolDoneUpdate(doneTool: Option<Tool>, result: ToolResult)
    | ErrorUpdate(error: ChatError)

  // ------------------------------------------------------------- tool calls

  /** The id a tool result answers: the call's id, or its name when the id is empty. */
  function CallID(c: ToolCall): (id: string)
    ensures c.id != "" ==> id == c.id
    ensures c.id == "" ==> id == c.name
  {
    if c.id == "" then c.name else c.id
  }

  /** The text of the user message that carries a tool's images. */
  function ImageCaption(name: string): string {
    "Here is " + name + ". This is an automated message, not actually from the user."
  }

  /** The URLs of the image items of a content list, in order. */
  function ImageURLs(c: Content): seq<string> {
    if |c| == 0 then []
    else ImageURLs(c[..|c| - 1]) + (if c[|c| - 1].ImageURL? then [c[|c| - 1].url] else [])
  }

  function URLs(images: seq<Image>): seq<string> {
    seq(|images|, i requires 0 <= i < |images| => images[i].url)
  }

  /**
   * Tool messages cannot hold images, so they go in a separate user
   * message: a caption naming the first image, then every image in order.
   */
  function ImageMessage(images: seq<Image>): (m: Message)
    requires |images| > 0
    ensures m.role == "user" && m.toolCalls == [] && m.toolCallID == ""
    ensures TextOf(m.content) == ImageCaption(images[0].name)
    ensures ImageURLs(m.content) == URLs(images)
  {
    var c := FromText(ImageCaption(images[0].name));
    var m := Message("user", AddImages(c, images), [], "");
    AddImagesSpec(c, images);
    assert TextOf(c) == ImageCaption(images[0].name) by {
      assert c == [] + [Text(ImageCaption(images[0].name))];
      TextOfSnoc([], Text(ImageCaption(images[0].name)));
    }
    assert ImageURLs(c) == [] by {
      assert c[..0] == [];
    }
    m
  }

  function AddImages(c: Content, images: seq<Image>): Content
    decreases |images|
  {
    if |images| == 0 then c else AddImages(AddImage(c, images[0].url), images[1..])
  }

  lemma {:induction false} AddImagesSpec(c: Content, images: seq<Image>)
    ensures TextOf(AddImages(c, images)) == TextOf(c)
    ensures ImageURLs(AddImages(c, images)) == ImageURLs(c) + URLs(images)
    decreases |images|
  {
    if |images| > 0 {
      var c' := AddImage(c, images[0].url);
      TextOfSnoc(c, ImageURL(images[0].url));
      assert c'[..|c'| - 1] == c;
      AddImagesSpec(c', images[1..]);
      assert URLs(images) == [images[0].url] + URLs(images[1..]);
    } else {
      assert URLs(images) == [];
    }
  }

  /** The tool-role message carrying a call's JSON result. */
  function ToolMessageFor(reg: Registry, c: ToolCall): Message {
    Message("tool", FromRawJSON(reg.run(c.name, c.arguments).result.json), [], CallID(c))
  }

  datatype Ran = Ran(updates: seq<Update>, messages: seq<Message>)

  /** runToolCall: the updates it sends and the messages it returns. */
  function RunToolCall(reg: Registry, call: ToolCall): Ran {
    var t := reg.get(call.name);
    var run := reg.run(call.name, call.arguments);
    var updates := seq(|run.statuses|, i requires 0 <= i < |run.statuses| => ToolStatusUpdate(t, run.statuses[i]))
                   + [ToolDoneUpdate(t, run.result)];
    var images := run.result.images;
    Ran(updates, [ToolMessageFor(reg, call)] + (if |images| > 0 then [ImageMessage(images)] else []))
  }

  /**
   * Running a call: one status update per status the tool reports, then
   * one done update; the result goes back as a tool message, followed by a
   * user message with the images exactly when the tool attached any.
   */
  lemma RunToolCallSpec(reg: Registry, call: ToolCall)
    ensures var r := RunToolCall(reg, call);
            var run := reg.run(call.name, call.arguments);
            && |r.updates| == |run.statuses| + 1
            && (forall i :: 0 <= i < |run.statuses| ==>
                  r.updates[i] == ToolStatusUpdate(reg.get(call.name), run.statuses[i]))
            && r.updates[|run.statuses|] == ToolDoneUpdate(reg.get(call.name), run.result)
            && |r.messages| == (if |run.result.images| > 0 then 2 else 1)
            && r.messages[0] == ToolMessageFor(reg, call)
            && r.messages[0].role == "tool" && r.messages[0].toolCallID == CallID(call)
            && r.messages[0].content == FromRawJSON(run.result.json)
            && (|r.messages| == 2 ==>
                  && r.messages[1].role == "user"
                  && ImageURLs(r.messages[1].content) == URLs(run.result.images))
  {
  }

  /** A tool run sends no error update and no text. */
  lemma RunToolCallQuiet(reg: Registry, call: ToolCall)
    ensures ErrorCount(RunToolCall(reg, call).updates) == 0
    ensures ShownText(RunToolCall(reg, call).updates) == ""
    ensures StartedTools(RunToolCall(reg, call).updates) == []
  {
    var us := RunToolCall(reg, call).updates;
    RunToolCallSpec(reg, call);
    assert forall i :: 0 <= i < |us| ==> !us[i].ErrorUpdate? && !us[i].TextUpdate? && !us[i].ToolStartUpdate?;
    NoErrorUpdates(us);
    NoTextUpdates(us);
    NoStartUpdates(us);
  }

  // ---------------------------------------------------------------- statuses

  /** What the step gathered from a stream's statuses, and the panic that stopped it, if any. */
  datatype Consumed = Consumed(updates: seq<Update>, toolMessages: seq<Message>, err: Option<ChatError>)

  /**
   * The step's reaction to one status: Text shows the fragment, Begin
   * announces the tool (a tool missing from the toolbox is fatal), Ready
   * runs the call at once, Data is silent.
   */
  function Handle(reg: Registry, y: Yield): (h: Consumed)
    ensures h.err.Some? <==> y.status == StatusToolCallBegin && reg.get(y.call.name).None?
    ensures h.err.Some? ==> h.err.value == ToolNotFound(y.call.name) && h.updates == []
    ensures y.status != StatusToolCallReady ==> h.toolMessages == []
    ensures y.status == StatusText ==> h.updates == [TextUpdate(y.text)]
    ensures y.status == StatusToolCallBegin && reg.get(y.call.name).Some? ==>
              h == Consumed([ToolStartUpdate(reg.get(y.call.name).value)], [], None)
    ensures y.status == StatusToolCallData ==> h == Consumed([], [], None)
    ensures y.status == StatusToolCallReady ==> h == Consumed(RunToolCall(reg, y.call).updates,
                                                              RunToolCall(reg, y.call).messages, None)
  {
    match y.status
    case StatusText => Consumed([TextUpdate(y.text)], [], None)
    case StatusToolCallBegin =>
      (match reg.get(y.call.name)
       case None => Consumed([], [], Some(ToolNotFound(y.call.name)))
       case Some(t) => Consumed([ToolStartUpdate(t)], [], None))
    case StatusToolCallData => Consumed([], [], None)
    case StatusToolCallReady =>
      var ran := RunToolCall(reg, y.call);
      Consumed(ran.updates, ran.messages, None)
  }

  /** The statuses of a stream, handled in order until the first fatal one. */
  function Consume(reg: Registry, ys: seq<Yield>): Consumed {
    if |ys| == 0 then Consumed([], [], None)
    else
      var c := Consume(reg, ys[..|ys| - 1]);
      if c.err.Some? then c
      else
        var h := Handle(reg, ys[|ys| - 1]);
        Consumed(c.updates + h.updates, c.toolMessages + h.toolMessages, h.err)
  }

  /** Every tool a Begin status names is in the toolbox. */
  predicate AllToolsKnown(reg: Registry, ys: seq<Yield>) {
    forall i :: 0 <= i < |ys| && ys[i].status == StatusToolCallBegin ==> reg.get(ys[i].call.name).Some?
  }

  /** The text the updates show, in order. */
  function ShownText(us: seq<Update>): string {
    if |us| == 0 then ""
    else ShownText(us[..|us| - 1]) + (if us[|us| - 1].TextUpdate? then us[|us| - 1].text else "")
  }

  lemma {:induction false} ShownTextConcat(a: seq<Update>, b: seq<Update>)
    ensures ShownText(a + b) == ShownText(a) + ShownText(b)
    decreases |b|
  {
    if |b| == 0 {
      assert a + b == a;
    } else {
      assert (a + b)[..|a + b| - 1] == a + b[..|b| - 1];
      ShownTextConcat(a, b[..|b| - 1]);
    }
  }

  function ErrorCount(us: seq<Update>): nat {
    if |us| == 0 then 0 else ErrorCount(us[..|us| - 1]) + (if us[|us| - 1].ErrorUpdate? then 1 else 0)
  }

  lemma {:induction false} ErrorCountConcat(a: seq<Update>, b: seq<Update>)
    ensures ErrorCount(a + b) == ErrorCount(a) + ErrorCount(b)
    decreases |b|
  {
    if |b| == 0 {
      assert a + b == a;
    } else {
      assert (a + b)[..|a + b| - 1] == a + b[..|b| - 1];
      ErrorCountConcat(a, b[..|b| - 1]);
    }
  }

  /** The tools the ToolStartUpdates announce, in order. */
  function StartedTools(us: seq<Update>): seq<Tool> {
    if |us| == 0 then []
    else StartedTools(us[..|us| - 1]) + (if us[|us| - 1].ToolStartUpdate? then [us[|us| - 1].tool] else [])
  }

  /** The toolbox entries the Begin statuses name, in order; a name the toolbox lacks adds nothing. */
  function BegunTools(reg: Registry, ys: seq<Yield>): seq<Tool> {
    if |ys| == 0 then []
    else
      var y := ys[|ys| - 1];
      BegunTools(reg, ys[..|ys| - 1])
        + (if y.status == StatusToolCallBegin && reg.get(y.call.name).Some? then [reg.get(y.call.name).value] else [])
  }

  lemma {:induction false} StartedToolsConcat(a: seq<Update>, b: seq<Update>)
    ensures StartedTools(a + b) == StartedTools(a) + StartedTools(b)
    decreases |b|
  {
    if |b| == 0 {
      assert a + b == a;
    } else {
      assert (a + b)[..|a + b| - 1] == a + b[..|b| - 1];
      StartedToolsConcat(a, b[..|b| - 1]);
    }
  }

  lemma {:induction false} NoStartUpdates(us: seq<Update>)
    requires forall i :: 0 <= i < |us| ==> !us[i].ToolStartUpdate?
    ensures StartedTools(us) == []
    decreases |us|
  {
    if |us| > 0 {
      NoStartUpdates(us[..|us| - 1]);
    }
  }

  lemma {:induction false} NoErrorUpdates(us: seq<Update>)
    requires forall i :: 0 <= i < |us| ==> !us[i].ErrorUpdate?
    ensures ErrorCount(us) == 0
    decreases |us|
  {
    if |us| > 0 {
      NoErrorUpdates(us[..|us| - 1]);
    }
  }

  /** The tool-role messages, in order. */
  function ToolMessages(ms: seq<Message>): seq<Message> {
    if |ms| == 0 then []
    else ToolMessages(ms[..|ms| - 1]) + (if ms[|ms| - 1].role == "tool" then [ms[|ms| - 1]] else [])
  }

  /** The messages of any other role, in order. */
  function OtherMessages(ms: seq<Message>): seq<Message> {
    if |ms| == 0 then []
    else OtherMessages(ms[..|ms| - 1]) + (if ms[|ms| - 1].role != "tool" then [ms[|ms| - 1]] else [])
  }

  lemma {:induction false} FiltersConcat(a: seq<Message>, b: seq<Message>)
    ensures ToolMessages(a + b) == ToolMessages(a) + ToolMessages(b)
    ensures OtherMessages(a + b) == OtherMessages(a) + OtherMessages(b)
    decreases |b|
  {
    if |b| == 0 {
      assert a + b == a;
    } else {
      assert (a + b)[..|a + b| - 1] == a + b[..|b| - 1];
      FiltersConcat(a, b[..|b| - 1]);
    }
  }

  /** The answers one Ready produces: its tool message, and an image message after it. */
  lemma RanFilters(reg: Registry, call: ToolCall)
    ensures ToolMessages(RunToolCall(reg, call).messages) == [ToolMessageFor(reg, call)]
    ensures |OtherMessages(RunToolCall(reg, call).messages)| <= 1
  {
    var ms := RunToolCall(reg, call).messages;
    RunToolCallSpec(reg, call);
    assert ms == [ms[0]] + ms[1..];
    AnswerFilters(ms[0], ms[1..]);
  }

  /** A tool message followed by at most one message of another role. */
  lemma AnswerFilters(t: Message, extra: seq<Message>)
    requires t.role == "tool" && |extra| <= 1
    requires |extra| == 1 ==> extra[0].role != "tool"
    ensures ToolMessages([t] + extra) == [t]
    ensures |OtherMessages([t] + extra)| <= 1
  {
    assert [t][..0] == [];
    assert ToolMessages([t]) == [t] && OtherMessages([t]) == [];
    if |extra| == 1 {
      assert ([t] + extra)[..1] == [t];
    } else {
      assert [t] + extra == [t];
    }
  }

  /** The tool messages answering `calls`, in order. */
  function Answers(reg: Registry, calls: seq<ToolCall>): seq<Message> {
    seq(|calls|, i requires 0 <= i < |calls| => ToolMessageFor(reg, calls[i]))
  }

  /** What handling one status contributes, when it is not fatal. */
  lemma HandleSpec(reg: Registry, y: Yield)
    requires Handle(reg, y).err.None?
    ensures ShownText(Handle(reg, y).updates) == (if y.status == StatusText then y.text else "")
    ensures ToolMessages(Handle(reg, y).toolMessages) == (if y.status == StatusToolCallReady then [ToolMessageFor(reg, y.call)] else [])
    ensures |OtherMessages(Handle(reg, y).toolMessages)| <= (if y.status == StatusToolCallReady then 1 else 0)
    ensures StartedTools(Handle(reg, y).updates) ==
              (if y.status == StatusToolCallBegin then [reg.get(y.call.name).value] else [])
  {
    var h := Handle(reg, y);
    if y.status == StatusToolCallReady {
      RanFilters(reg, y.call);
      RunToolCallQuiet(reg, y.call);
    } else {
      assert |h.updates| <= 1;
      if |h.updates| == 1 {
        assert h.updates[..0] == [];
      }
    }
  }

  /** Handling a status never sends an error update. */
  lemma HandleSendsNoError(reg: Registry, y: Yield)
    ensures ErrorCount(Handle(reg, y).updates) == 0
  {
    var h := Handle(reg, y);
    if y.status == StatusToolCallReady {
      RunToolCallQuiet(reg, y.call);
    } else {
      assert |h.updates| <= 1;
      if |h.updates| == 1 {
        assert h.updates[..0] == [];
      }
    }
  }

  lemma {:induction false} NoTextUpdates(us: seq<Update>)
    requires forall i :: 0 <= i < |us| ==> !us[i].TextUpdate?
    ensures ShownText(us) == ""
    decreases |us|
  {
    if |us| > 0 {
      NoTextUpdates(us[..|us| - 1]);
    }
  }

  /** Consume, one status at a time: a fatal status stops everything after it. */
  lemma ConsumeLast(reg: Registry, ys: seq<Yield>)
    requires |ys| > 0
    ensures var c := Consume(reg, ys[..|ys| - 1]);
            var h := Handle(reg, ys[|ys| - 1]);
            Consume(reg, ys) == if c.err.Some? then c
                                else Consumed(c.updates + h.updates, c.toolMessages + h.toolMessages, h.err)
  {
  }

  /** Consuming fails exactly when a Begin names a tool the toolbox lacks. */
  lemma {:induction false} ConsumeFails(reg: Registry, ys: seq<Yield>)
    ensures Consume(reg, ys).err.None? <==> AllToolsKnown(reg, ys)
    ensures Consume(reg, ys).err.Some? ==> Consume(reg, ys).err.value.ToolNotFound?
    decreases |ys|
  {
    if |ys| > 0 {
      var init, y := ys[..|ys| - 1], ys[|ys| - 1];
      assert ys == init + [y];
      ConsumeLast(reg, ys);
      ConsumeFails(reg, init);
      AllToolsKnownSnoc(reg, init, y);
    }
  }

  lemma AllToolsKnownSnoc(reg: Registry, ys: seq<Yield>, y: Yield)
    ensures AllToolsKnown(reg, ys + [y])
        <==> AllToolsKnown(reg, ys) && (y.status == StatusToolCallBegin ==> reg.get(y.call.name).Some?)
  {
    var zs := ys + [y];
    assert forall i :: 0 <= i < |ys| ==> zs[i] == ys[i];
    assert zs[|ys|] == y;
  }

  /** A stream consumed without a fatal status shows exactly the streamed text. */
  lemma {:induction false} ConsumeShowsText(reg: Registry, ys: seq<Yield>)
    requires Consume(reg, ys).err.None?
    ensures ShownText(Consume(reg, ys).updates) == Texts(ys)
    decreases |ys|
  {
    if |ys| > 0 {
      var init, y := ys[..|ys| - 1], ys[|ys| - 1];
      assert ys == init + [y];
      ConsumeLast(reg, ys);
      var c := Consume(reg, init);
      var h := Handle(reg, y);
      ConsumeShowsText(reg, init);
      YieldSnoc(init, y);
      ShownTextConcat(c.updates, h.updates);
      HandleSpec(reg, y);
    }
  }

  /**
   * A stream consumed without a fatal status produces tool messages that
   * answer exactly the Ready calls, in order, with at most one image
   * message per call besides.
   */
  lemma {:induction false} ConsumeAnswersReadyCalls(reg: Registry, ys: seq<Yield>)
    requires Consume(reg, ys).err.None?
    ensures ToolMessages(Consume(reg, ys).toolMessages) == Answers(reg, ReadyCalls(ys))
    ensures |OtherMessages(Consume(reg, ys).toolMessages)| <= |ReadyCalls(ys)|
    decreases |ys|
  {
    if |ys| > 0 {
      var init, y := ys[..|ys| - 1], ys[|ys| - 1];
      assert ys == init + [y];
      ConsumeLast(reg, ys);
      var c := Consume(reg, init);
      var h := Handle(reg, y);
      ConsumeAnswersReadyCalls(reg, init);
      YieldSnoc(init, y);
      FiltersConcat(c.toolMessages, h.toolMessages);
      HandleSpec(reg, y);
      if y.status == StatusToolCallReady {
        AnswersSnoc(reg, ReadyCalls(init), y.call);
      } else {
        assert ReadyCalls(ys) == ReadyCalls(init);
      }
    }
  }

  lemma AnswersSnoc(reg: Registry, calls: seq<ToolCall>, c: ToolCall)
    ensures Answers(reg, calls + [c]) == Answers(reg, calls) + [ToolMessageFor(reg, c)]
  {
  }

  /** The step itself never sends an ErrorUpdate; only the loop does. */
  /**
   * A stream consumed without a fatal status announces, in order, exactly
   * the tools its Begin statuses name: one ToolStartUpdate per Begin.
   */
  lemma {:induction false} ConsumeAnnouncesTools(reg: Registry, ys: seq<Yield>)
    requires Consume(reg, ys).err.None?
    ensures StartedTools(Consume(reg, ys).updates) == BegunTools(reg, ys)
    ensures |StartedTools(Consume(reg, ys).updates)| == Count(ys, StatusToolCallBegin)
    decreases |ys|
  {
    if |ys| > 0 {
      var init, y := ys[..|ys| - 1], ys[|ys| - 1];
      ConsumeLast(reg, ys);
      var c := Consume(reg, init);
      var h := Handle(reg, y);
      assert c.err.None?;
      ConsumeAnnouncesTools(reg, init);
      StartedToolsConcat(c.updates, h.updates);
      HandleSpec(reg, y);
    }
  }

  lemma {:induction false} ConsumeSendsNoError(reg: Registry, ys: seq<Yield>)
    ensures ErrorCount(Consume(reg, ys).updates) == 0
    decreases |ys|
  {
    if |ys| > 0 {
      var init, y := ys[..|ys| - 1], ys[|ys| - 1];
      ConsumeLast(reg, ys);
      ConsumeSendsNoError(reg, init);
      var c := Consume(reg, init);
      if c.err.None? {
        var h := Handle(reg, y);
        ErrorCountConcat(c.updates, h.updates);
        HandleSendsNoError(reg, y);
      }
    }
  }

  // --------------------------------------------------------------- the sort

  /** The comparison the step sorts tool results with: tool role first, otherwise equal. */
  function CompareRoles(a: Message, b: Message): int {
    if a.role == "tool" && b.role != "tool" then -1
    else if a.role != "tool" && b.role == "tool" then 1
    else 0
  }

  /** Inserts `x` after every element that does not compare greater than it. */
  function Insert(x: Message, s: seq<Message>): seq<Message>
    decreases |s|
  {
    if |s| == 0 || CompareRoles(s[|s| - 1], x) <= 0 then s + [x]
    else Insert(x, s[..|s| - 1]) + [s[|s| - 1]]
  }

  /** slices.SortStableFunc with CompareRoles, as an insertion sort. */
  function SortStable(ms: seq<Message>): seq<Message> {
    if |ms| == 0 then [] else Insert(ms[|ms| - 1], SortStable(ms[..|ms| - 1]))
  }

  predicate AllTool(ms: seq<Message>) {
    forall i :: 0 <= i < |ms| ==> ms[i].role == "tool"
  }

  predicate NoTool(ms: seq<Message>) {
    forall i :: 0 <= i < |ms| ==> ms[i].role != "tool"
  }

  lemma {:induction false} InsertTool(x: Message, ts: seq<Message>, os: seq<Message>)
    requires x.role == "tool" && AllTool(ts) && NoTool(os)
    ensures Insert(x, ts + os) == ts + [x] + os
    decreases |os|
  {
    if |os| == 0 {
      assert ts + os == ts;
    } else {
      var s := ts + os;
      assert s[|s| - 1] == os[|os| - 1];
      assert s[..|s| - 1] == ts + os[..|os| - 1];
      InsertTool(x, ts, os[..|os| - 1]);
      assert ts + [x] + os == (ts + [x] + os[..|os| - 1]) + [os[|os| - 1]];
    }
  }

  lemma FiltersSplit(ms: seq<Message>)
    ensures AllTool(ToolMessages(ms)) && NoTool(OtherMessages(ms))
  {
  }

  /**
   * "Role tool must always come first": the sort puts every tool message
   * before every other message and keeps the order within each group.
   */
  lemma {:induction false} SortStableIsToolFirst(ms: seq<Message>)
    ensures SortStable(ms) == ToolMessages(ms) + OtherMessages(ms)
    decreases |ms|
  {
    if |ms| > 0 {
      var init, x := ms[..|ms| - 1], ms[|ms| - 1];
      SortStableIsToolFirst(init);
      var ts, os := ToolMessages(init), OtherMessages(init);
      FiltersSplit(init);
      if x.role == "tool" {
        InsertTool(x, ts, os);
      } else {
        var s := ts + os;
        if |s| > 0 {
          assert s[|s| - 1] in ts || s[|s| - 1] in os;
        }
      }
    }
  }

  // --------------------------------------------------------------- the step

  /** What `Generate` hands the step: an error before any line, or the decoded stream. */
  datatype Reply = SetupFailed(reason: string) | Streamed(outcome: Outcome)

  /** The conversation state: the message history and the running cost. */
  datatype LLM = LLM(messages: seq<Message>, totalCost: nat)

  datatype Stepped = Stepped(llm: LLM, updates: seq<Update>, result: Result<bool, ChatError>)

  /** The history after a successful step: the reply, then its tool results with tool roles first. */
  function Commit(l: LLM, o: Outcome, toolMessages: seq<Message>): LLM {
    LLM(l.messages + [o.message] + SortStable(toolMessages), l.totalCost + o.cost)
  }

  /**
   * step as the code stands (llm.go:109-205): after draining the statuses it
   * only looks at the context, never at the stream's Err(), so a response
   * cut off by a malformed line or a refused stop reason is committed as if
   * complete. Only a panic (a decoder panic, or an unknown tool) makes it
   * fail, and a failure leaves the history and the cost as they were. The
   * updates never hold an error. What a success commits is stated by
   * StepAsWrittenCommits.
   */
  function StepAsWritten(l: LLM, reply: Reply, reg: Registry): (s: Stepped)
    ensures s.result.Failure? ==> s.llm == l
    ensures reply.SetupFailed? ==> s == Stepped(l, [], Failure(GenerateFailed(reply.reason)))
    ensures reply.Streamed? ==>
              (s.result.Success? <==> AllToolsKnown(reg, reply.outcome.emitted)
                                      && !(reply.outcome.err.Some? && reply.outcome.err.value.Panic?))
    ensures reply.Streamed? && !AllToolsKnown(reg, reply.outcome.emitted) ==>
              s.result.Failure? && s.result.error.ToolNotFound?
    ensures reply.Streamed? && AllToolsKnown(reg, reply.outcome.emitted) && s.result.Failure? ==>
              s.result.error == StreamFailed(reply.outcome.err.value)
    ensures ErrorCount(s.updates) == 0
  {
    match reply
    case SetupFailed(reason) => Stepped(l, [], Failure(GenerateFailed(reason)))
    case Streamed(o) =>
      var c := Consume(reg, o.emitted);
      ConsumeFails(reg, o.emitted);
      ConsumeSendsNoError(reg, o.emitted);
      if c.err.Some? then Stepped(l, c.updates, Failure(c.err.value))
      else if o.err.Some? && o.err.value.Panic? then Stepped(l, c.updates, Failure(StreamFailed(o.err.value)))
      else Stepped(Commit(l, o, c.toolMessages), c.updates, Success(|c.toolMessages| > 0))
  }

  /**
   * A successful step: the history grows by the reply and its tool
   * results, the answers to the Ready calls in order first and then only
   * non-tool messages; the cost grows by the reply's cost; the loop
   * continues exactly when some tool call became ready; and the updates
   * show exactly the streamed text.
   */
  lemma StepAsWrittenCommits(l: LLM, o: Outcome, reg: Registry)
    requires StepAsWritten(l, Streamed(o), reg).result.Success?
    ensures var s := StepAsWritten(l, Streamed(o), reg);
            var tools := Answers(reg, ReadyCalls(o.emitted));
            && |s.llm.messages| >= |l.messages| + 1 + |tools|
            && s.llm.messages[..|l.messages| + 1 + |tools|] == l.messages + [o.message] + tools
            && NoTool(s.llm.messages[|l.messages| + 1 + |tools|..])
            && s.llm.totalCost == l.totalCost + o.cost
            && (s.result.value <==> Count(o.emitted, StatusToolCallReady) > 0)
            && ShownText(s.updates) == Texts(o.emitted)
  {
    var c := Consume(reg, o.emitted);
    ConsumeFails(reg, o.emitted);
    ConsumeShowsText(reg, o.emitted);
    ConsumeAnswersReadyCalls(reg, o.emitted);
    CommitSpec(l, o, c.toolMessages);
    ReadyCallsCount(o.emitted);
    assert |c.toolMessages| == |ToolMessages(c.toolMessages)| + |OtherMessages(c.toolMessages)| by {
      CountSplit(c.toolMessages);
    }
  }

  /**
   * The corrected step: as written, except that a stream that stopped with
   * an error, once its statuses were drained, fails with that error and
   * commits nothing. It then succeeds exactly when the stream ended cleanly
   * and every tool it began is known.
   */
  function Step(l: LLM, reply: Reply, reg: Registry): (s: Stepped)
    ensures s.result.Failure? ==> s.llm == l
    ensures reply.SetupFailed? ==> s == Stepped(l, [], Failure(GenerateFailed(reply.reason)))
    ensures reply.Streamed? ==>
              (s.result.Success? <==> reply.outcome.err.None? && AllToolsKnown(reg, reply.outcome.emitted))
    ensures reply.Streamed? && s.result.Failure? && AllToolsKnown(reg, reply.outcome.emitted) ==>
              s.result.error == StreamFailed(reply.outcome.err.value)
    ensures s.result.Success? ==> s == StepAsWritten(l, reply, reg)
    ensures ErrorCount(s.updates) == 0
  {
    match reply
    case SetupFailed(_) => StepAsWritten(l, reply, reg)
    case Streamed(o) =>
      var c := Consume(reg, o.emitted);
      ConsumeFails(reg, o.emitted);
      ConsumeSendsNoError(reg, o.emitted);
      if c.err.None? && o.err.Some? then Stepped(l, c.updates, Failure(StreamFailed(o.err.value)))
      else StepAsWritten(l, reply, reg)
  }

  /**
   * The two steps agree on every reply but a drained stream that stopped
   * with an error; in particular on every stream that ended cleanly.
   */
  lemma StepsAgree(l: LLM, reply: Reply, reg: Registry)
    requires reply.SetupFailed? || reply.outcome.err.None? || !AllToolsKnown(reg, reply.outcome.emitted)
    ensures Step(l, reply, reg) == StepAsWritten(l, reply, reg)
  {
    if reply.Streamed? {
      ConsumeFails(reg, reply.outcome.emitted);
    }
  }

  lemma {:induction false} CountSplit(ms: seq<Message>)
    ensures |ms| == |ToolMessages(ms)| + |OtherMessages(ms)|
    decreases |ms|
  {
    if |ms| > 0 {
      CountSplit(ms[..|ms| - 1]);
    }
  }

  lemma CommitSpec(l: LLM, o: Outcome, ms: seq<Message>)
    ensures var n := |l.messages| + 1 + |ToolMessages(ms)|;
            && |Commit(l, o, ms).messages| >= n
            && Commit(l, o, ms).messages[..n] == l.messages + [o.message] + ToolMessages(ms)
            && NoTool(Commit(l, o, ms).messages[n..])
  {
    SortStableIsToolFirst(ms);
    FiltersSplit(ms);
    var n := |l.messages| + 1 + |ToolMessages(ms)|;
    var all := l.messages + [o.message] + ToolMessages(ms) + OtherMessages(ms);
    assert Commit(l, o, ms).messages == all;
    assert all[..n] == l.messages + [o.message] + ToolMessages(ms);
    assert all[n..] == OtherMessages(ms);
  }

  /**
   * The two steps part ways exactly on a stream that stopped with a
   * non-panic error: the code as written commits the partial reply and
   * reports success; the corrected step reports the error and commits
   * nothing.
   */
  lemma StreamErrorSwallowed(l: LLM, o: Outcome, reg: Registry)
    requires o.err.Some? && !o.err.value.Panic?
    requires AllToolsKnown(reg, o.emitted)
    ensures StepAsWritten(l, Streamed(o), reg).result.Success?
    ensures StepAsWritten(l, Streamed(o), reg).llm.messages[|l.messages|] == o.message
    ensures Step(l, Streamed(o), reg) == Stepped(l, Consume(reg, o.emitted).updates, Failure(StreamFailed(o.err.value)))
  {
    ConsumeFails(reg, o.emitted);
  }

  // --------------------------------------------------------------- the loop

  datatype ChatEnd = Finished | Failed(error: ChatError) | OutOfFuel

  datatype Chatted = Chatted(llm: LLM, updates: seq<Update>, end: ChatEnd)

  /**
   * What the loop needs of a step: it only extends the history, never
   * lowers the cost, sends no ErrorUpdate, and leaves the history alone
   * when it fails.
   */
  predicate Grows(l: LLM, s: Stepped) {
    && |s.llm.messages| >= |l.messages| && s.llm.messages[..|l.messages|] == l.messages
    && s.llm.totalCost >= l.totalCost
    && ErrorCount(s.updates) == 0
    && (s.result.Failure? ==> s.llm == l)
  }

  /** A step, given the history and the provider's reply to it, that always grows it. */
  ghost predicate WellBehaved(step: (LLM, Reply) -> Stepped) {
    forall l, reply :: Grows(l, step(l, reply))
  }

  /**
   * The goroutine of ChatUsingContent (llm.go:72-86): step `i` sees the
   * provider's reply to the history so far, unless the context is done by
   * then. A step error or cancellation sends one ErrorUpdate and ends the
   * loop; a step that used no tools ends it quietly. `fuel` bounds the
   * number of steps. The code as written runs StepAsWritten (AsWritten);
   * the corrected loop runs Step (Corrected).
   */
  function Loop(l: LLM, step: (LLM, Reply) -> Stepped, provider: seq<Message> -> Reply, cancelAt: Option<nat>,
                i: nat, fuel: nat): (r: Chatted)
    requires WellBehaved(step)
    ensures |r.llm.messages| >= |l.messages| && r.llm.messages[..|l.messages|] == l.messages
    ensures r.llm.totalCost >= l.totalCost
    ensures ErrorCount(r.updates) == (if r.end.Failed? then 1 else 0)
    ensures r.end.Failed? ==> r.updates[|r.updates| - 1] == ErrorUpdate(r.end.error)
    ensures cancelAt.Some? && cancelAt.value <= i && fuel > 0 ==> r == Chatted(l, [ErrorUpdate(Cancelled)], Failed(Cancelled))
    ensures fuel > 0 && !(cancelAt.Some? && cancelAt.value <= i) ==>
              var s := step(l, provider(l.messages));
              && (s.result.Failure? ==> r == Chatted(l, s.updates + [ErrorUpdate(s.result.error)], Failed(s.result.error)))
              && (s.result == Success(false) ==> r == Chatted(s.llm, s.updates, Finished))
              && (s.result == Success(true) ==>
                    && |r.updates| >= |s.updates| && r.updates[..|s.updates|] == s.updates
                    && |r.llm.messages| >= |s.llm.messages| && r.llm.messages[..|s.llm.messages|] == s.llm.messages)
    decreases fuel
  {
    if fuel == 0 then Chatted(l, [], OutOfFuel)
    else if cancelAt.Some? && cancelAt.value <= i then
      ErrorAppended([], Cancelled);
      Chatted(l, [] + [ErrorUpdate(Cancelled)], Failed(Cancelled))
    else
      var s := step(l, provider(l.messages));
      assert Grows(l, s);
      match s.result
      case Failure(e) =>
        ErrorAppended(s.updates, e);
        Chatted(l, s.updates + [ErrorUpdate(e)], Failed(e))
      case Success(more) =>
        if !more then Chatted(s.llm, s.updates, Finished)
        else
          var r := Loop(s.llm, step, provider, cancelAt, i + 1, fuel - 1);
          ErrorCountConcat(s.updates, r.updates);
          PrefixTrans(l.messages, s.llm.messages, r.llm.messages);
          LastOfConcat(s.updates, r.updates);
          assert (s.updates + r.updates)[..|s.updates|] == s.updates;
          Chatted(r.llm, s.updates + r.updates, r.end)
  }

  /**
   * A step that ran tools is followed by another turn of the loop, from the
   * history that step left: the chat only stops on a step that used no
   * tool, an error, cancellation or the step bound.
   */
  lemma LoopContinuesAfterTools(l: LLM, step: (LLM, Reply) -> Stepped, provider: seq<Message> -> Reply,
                                cancelAt: Option<nat>, i: nat, fuel: nat)
    requires WellBehaved(step)
    requires fuel > 0 && !(cancelAt.Some? && cancelAt.value <= i)
    requires step(l, provider(l.messages)).result == Success(true)
    ensures var s := step(l, provider(l.messages));
            var rest := Loop(s.llm, step, provider, cancelAt, i + 1, fuel - 1);
            Loop(l, step, provider, cancelAt, i, fuel) == Chatted(rest.llm, s.updates + rest.updates, rest.end)
  {
  }

  /** The step the code runs, which the loop may run. */
  function AsWritten(reg: Registry): (step: (LLM, Reply) -> Stepped)
    ensures WellBehaved(step)
    ensures forall l, reply :: step(l, reply) == StepAsWritten(l, reply, reg)
  {
    var f := (l: LLM, reply: Reply) => StepAsWritten(l, reply, reg);
    assert WellBehaved(f) by {
      forall l, reply ensures Grows(l, f(l, reply)) {
        StepGrows(l, reply, reg);
      }
    }
    f
  }

  /** The corrected step, which the loop may run instead. */
  function Corrected(reg: Registry): (step: (LLM, Reply) -> Stepped)
    ensures WellBehaved(step)
    ensures forall l, reply :: step(l, reply) == Step(l, reply, reg)
  {
    var f := (l: LLM, reply: Reply) => Step(l, reply, reg);
    assert WellBehaved(f) by {
      forall l, reply ensures Grows(l, f(l, reply)) {
        StepGrows(l, reply, reg);
      }
    }
    f
  }

  /** The updates of a later step end the updates of the whole chat. */
  lemma LastOfConcat(a: seq<Update>, b: seq<Update>)
    ensures |b| > 0 ==> (a + b)[|a + b| - 1] == b[|b| - 1]
  {
  }

  lemma ErrorAppended(us: seq<Update>, e: ChatError)
    requires ErrorCount(us) == 0
    ensures ErrorCount(us + [ErrorUpdate(e)]) == 1
  {
    assert (us + [ErrorUpdate(e)])[..|us|] == us;
  }

  lemma PrefixTrans(a: seq<Message>, b: seq<Message>, c: seq<Message>)
    requires |a| <= |b| && b[..|a|] == a
    requires |b| <= |c| && c[..|b|] == b
    ensures |a| <= |c| && c[..|a|] == a
  {
    assert c[..|a|] == c[..|b|][..|a|];
  }

  lemma StepGrows(l: LLM, reply: Reply, reg: Registry)
    ensures Grows(l, StepAsWritten(l, reply, reg))
    ensures Grows(l, Step(l, reply, reg))
  {
    var s := StepAsWritten(l, reply, reg);
    if reply.Streamed? && s.result.Success? {
      StepAsWrittenCommits(l, reply.outcome, reg);
      var n := |l.messages| + 1 + |Answers(reg, ReadyCalls(reply.outcome.emitted))|;
      assert s.llm.messages[..|l.messages|] == s.llm.messages[..n][..|l.messages|];
    }
  }

  /**
   * The loop as written on a reply cut off by a non-panic stream error with
   * no tool call ready: the partial reply is committed, no ErrorUpdate is
   * sent and the chat ends normally. The corrected loop sends the error,
   * commits nothing and ends Failed.
   */
  lemma LoopCommitsStreamError(l: LLM, provider: seq<Message> -> Reply, reg: Registry, i: nat, fuel: nat)
    requires fuel > 0
    requires provider(l.messages).Streamed?
    requires var o := provider(l.messages).outcome;
             o.err.Some? && !o.err.value.Panic? && AllToolsKnown(reg, o.emitted)
             && Count(o.emitted, StatusToolCallReady) == 0
    ensures var o := provider(l.messages).outcome;
            var r := Loop(l, AsWritten(reg), provider, None, i, fuel);
            && r.end == Finished
            && |r.llm.messages| > |l.messages|
            && r.llm.messages[..|l.messages| + 1] == l.messages + [o.message]
            && r.llm.totalCost == l.totalCost + o.cost
            && ErrorCount(r.updates) == 0
    ensures var o := provider(l.messages).outcome;
            Loop(l, Corrected(reg), provider, None, i, fuel)
            == Chatted(l, Consume(reg, o.emitted).updates + [ErrorUpdate(StreamFailed(o.err.value))],
                       Failed(StreamFailed(o.err.value)))
  {
    var o := provider(l.messages).outcome;
    ReadyCallsCount(o.emitted);
    var s := StepAsWritten(l, Streamed(o), reg);
    StreamErrorSwallowed(l, o, reg);
    StepAsWrittenCommits(l, o, reg);
    assert |Answers(reg, ReadyCalls(o.emitted))| == 0;
    assert s.llm.messages[..|l.messages| + 1] == l.messages + [o.message];
    StreamErrorSwallowed(l, o, reg);
  }

  /** The user message a chat starts with. */
  function UserMessage(c: Content): Message {
    Message("user", c, [], "")
  }

  /**
   * ChatUsingContent: the user's message is appended to the history once,
   * before any step runs; the history after the chat extends that.
   */
  function ChatUsingContent(l: LLM, message: Content, provider: seq<Message> -> Reply, reg: Registry,
                            cancelAt: Option<nat>, fuel: nat): (r: Chatted)
    ensures |r.llm.messages| > |l.messages|
    ensures r.llm.messages[..|l.messages| + 1] == l.messages + [UserMessage(message)]
    ensures r.llm.totalCost >= l.totalCost
    ensures ErrorCount(r.updates) == (if r.end.Failed? then 1 else 0)
    ensures r.end.Failed? ==> r.updates[|r.updates| - 1] == ErrorUpdate(r.end.error)
    ensures r == Loop(LLM(l.messages + [UserMessage(message)], l.totalCost), AsWritten(reg), provider, cancelAt, 0, fuel)
  {
    var l' := LLM(l.messages + [UserMessage(message)], l.totalCost);
    Loop(l', AsWritten(reg), provider, cancelAt, 0, fuel)
  }
}
