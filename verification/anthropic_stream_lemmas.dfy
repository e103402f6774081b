/** Whole-response properties of the Anthropic stream decoder and its price lookup. */
module AnthropicStreamLemmas {
  import opened Wrappers
  import opened Strings
  import opened Contents
  import opened Llms
  import opened AnthropicStream

  /** Feeding `a + b` is feeding `a`, then `b` unless `a` already halted. */
  lemma {:induction false} ScanAppend(s: Stream, a: seq<string>, b: seq<string>, parse: string -> Parsed)
    ensures Scan(s, a + b, parse)
         == (if Scan(s, a, parse).Halt? then Scan(s, a, parse) else Scan(Scan(s, a, parse).state, b, parse))
    decreases |a|
  {
    if |a| == 0 {
      assert a + b == b;
    } else {
      assert (a + b)[0] == a[0];
      assert (a + b)[1..] == a[1..] + b;
      match Feed(s, a[0], parse)
      case Continue(s') => ScanAppend(s', a[1..], b, parse);
      case Halt(_, _) =>
    }
  }

  /** Lines without the "data: " prefix have no effect anywhere in a response. */
  lemma NonDataLineIgnored(model: string, order: seq<string>, a: seq<string>, x: string, b: seq<string>,
                           parse: string -> Parsed)
    requires !HasPrefix(x, DataPrefix)
    ensures Decode(model, order, a + [x] + b, parse) == Decode(model, order, a + b, parse)
  {
    var s := Start(model);
    ScanAppend(s, a + [x], b, parse);
    ScanAppend(s, a, [x], parse);
    ScanAppend(s, a, b, parse);
    if Scan(s, a, parse).Continue? {
      var sa := Scan(s, a, parse).state;
      assert Scan(sa, [x], parse) == Continue(sa);
    }
  }

  /** The event a data line decodes to, if any. */
  function EventOf(line: string, parse: string -> Parsed): Option<Event> {
    if HasPrefix(line, DataPrefix) && parse(line[|DataPrefix|..]).Decoded?
    then Some(parse(line[|DataPrefix|..]).event) else None
  }

  /** A data line that ends iteration whatever came before: undecodable, message_stop, or a refused stop reason. */
  predicate Ends(line: string, parse: string -> Parsed) {
    HasPrefix(line, DataPrefix)
    && (|| parse(line[|DataPrefix|..]).Undecodable?
        || parse(line[|DataPrefix|..]).event.MessageStop?
        || (parse(line[|DataPrefix|..]).event.MessageDelta?
            && !AcceptedStopReason(parse(line[|DataPrefix|..]).event.stopReason)))
  }

  /**
   * Nothing after an ending line is read. Reading stops with Err() set for
   * an undecodable payload or a refused stop reason, and without error at
   * message_stop.
   */
  lemma EndingLineStops(model: string, order: seq<string>, a: seq<string>, x: string, b: seq<string>,
                        parse: string -> Parsed)
    requires Ends(x, parse)
    ensures Decode(model, order, a + [x] + b, parse) == Decode(model, order, a + [x], parse)
    ensures Open(model, a, parse) ==>
              var err := Decode(model, order, a + [x], parse).err;
              && (parse(x[|DataPrefix|..]).Undecodable? ==> err == Some(Malformed))
              && (parse(x[|DataPrefix|..]).Decoded? && parse(x[|DataPrefix|..]).event.MessageStop? ==> err.None?)
              && (parse(x[|DataPrefix|..]).Decoded? && parse(x[|DataPrefix|..]).event.MessageDelta? ==>
                    err == Some(UnexpectedStopReason(parse(x[|DataPrefix|..]).event.stopReason)))
  {
    var s := Start(model);
    ScanAppend(s, a + [x], b, parse);
    ScanAppend(s, a, [x], parse);
    if Scan(s, a, parse).Continue? {
      var sa := Scan(s, a, parse).state;
      assert Scan(sa, [x], parse) == Feed(sa, x, parse);
      assert Feed(sa, x, parse).Halt?;
    }
  }

  /**
   * What every reachable stream keeps: the message text is the Text
   * fragments yielded so far, and there is one ToolCallBegin per call.
   */
  predicate Inv(s: Stream) {
    && TextOf(s.message.content) == Texts(s.emitted)
    && Count(s.emitted, StatusToolCallBegin) == |s.message.toolCalls|
  }

  lemma BlockDeltaKeepsInv(s: Stream, d: BlockDelta)
    requires Inv(s)
    ensures Inv(ApplyBlockDelta(s, d).state)
  {
    var f := ApplyBlockDelta(s, d);
    if d.kind == "text_delta" {
      YieldSnoc(s.emitted, Yield(StatusText, d.text, LastCall(s.message)));
    } else if d.kind == "input_json_delta" && |s.message.toolCalls| > 0 {
      YieldSnoc(s.emitted, f.state.emitted[|s.emitted|]);
    }
  }

  lemma BlockStartKeepsInv(s: Stream, b: Block)
    requires Inv(s)
    ensures Inv(ApplyBlockStart(s, b))
  {
    if b.kind == "tool_use" {
      YieldSnoc(s.emitted, Yield(StatusToolCallBegin, s.lastText, ToolCall(b.id, b.name, "")));
    }
  }

  lemma BlockStopKeepsInv(s: Stream)
    requires Inv(s)
    ensures Inv(ApplyBlockStop(s))
  {
    if |s.message.toolCalls| > 0 {
      YieldSnoc(s.emitted, Yield(StatusToolCallReady, s.lastText, LastCall(s.message)));
    }
  }

  lemma FeedKeepsInv(s: Stream, line: string, parse: string -> Parsed)
    requires Inv(s)
    ensures Inv(Feed(s, line, parse).state)
  {
    if HasPrefix(line, DataPrefix) && parse(line[|DataPrefix|..]).Decoded? {
      match parse(line[|DataPrefix|..]).event
      case ContentBlockDelta(d) => BlockDeltaKeepsInv(s, d);
      case ContentBlockStart(b) => BlockStartKeepsInv(s, b);
      case ContentBlockStop => BlockStopKeepsInv(s);
      case _ =>
    }
  }

  lemma {:induction false} ScanKeepsInv(s: Stream, lines: seq<string>, parse: string -> Parsed)
    requires Inv(s)
    ensures Inv(Scan(s, lines, parse).state)
    decreases |lines|
  {
    if |lines| > 0 {
      FeedKeepsInv(s, lines[0], parse);
      var f := Feed(s, lines[0], parse);
      if f.Continue? {
        ScanKeepsInv(f.state, lines[1..], parse);
      }
    }
  }

  /**
   * The Text() fragments of the Text statuses (empty ones included),
   * concatenated in order, are exactly the text of the assembled message.
   */
  lemma DecodedTextIsTextStatuses(model: string, order: seq<string>, lines: seq<string>, parse: string -> Parsed)
    ensures TextOf(Decode(model, order, lines, parse).message.content) == Texts(Decode(model, order, lines, parse).emitted)
  {
    ScanKeepsInv(Start(model), lines, parse);
  }

  /** Each ToolCallBegin corresponds to exactly one call of the assembled message. */
  lemma BeginPerToolCall(model: string, order: seq<string>, lines: seq<string>, parse: string -> Parsed)
    ensures Count(Decode(model, order, lines, parse).emitted, StatusToolCallBegin)
         == |Decode(model, order, lines, parse).message.toolCalls|
  {
    ScanKeepsInv(Start(model), lines, parse);
  }

  // ------------------------------------------------------------------ usage

  /** The usage report a line carries: message_start and message_delta events may carry one. */
  function Report(line: string, parse: string -> Parsed): Usage {
    match EventOf(line, parse)
    case Some(MessageStart(_, Some(u))) => u
    case Some(MessageDelta(Some(u), _)) => u
    case _ => NoUsage
  }

  /** The sum of the reports carried by `lines`. */
  function SumReports(lines: seq<string>, parse: string -> Parsed): Usage {
    if |lines| == 0 then NoUsage
    else AddUsage(SumReports(lines[..|lines| - 1], parse), Report(lines[|lines| - 1], parse))
  }

  /**
   * Every line adds its own report, including a line that halts: a refused
   * stop reason is counted before reading stops (anthropic.go:222-229).
   */
  lemma FeedAddsReport(s: Stream, line: string, parse: string -> Parsed)
    ensures Feed(s, line, parse).state.usage == AddUsage(s.usage, Report(line, parse))
  {
    if HasPrefix(line, DataPrefix) && parse(line[|DataPrefix|..]).Decoded? {
      var e := parse(line[|DataPrefix|..]).event;
      assert EventOf(line, parse) == Some(e);
      match e
      case ContentBlockDelta(d) =>
      case _ =>
    }
  }

  /**
   * Usage() is the sum of every usage report read: message_start and
   * message_delta counts are added, never replaced. The last line may end
   * the stream, as message_stop or a refused stop reason does; its report
   * is counted too.
   */
  lemma {:induction false} UsageIsSumOfReports(model: string, order: seq<string>, lines: seq<string>, parse: string -> Parsed)
    requires |lines| == 0 || Open(model, lines[..|lines| - 1], parse)
    ensures Decode(model, order, lines, parse).usage == SumReports(lines, parse)
    decreases |lines|
  {
    if |lines| > 0 {
      var a := lines[..|lines| - 1];
      var x := lines[|lines| - 1];
      assert lines == a + [x];
      ScanAppend(Start(model), a, [x], parse);
      if |a| > 0 {
        ScanAppend(Start(model), a[..|a| - 1], [a[|a| - 1]], parse);
        assert a == a[..|a| - 1] + [a[|a| - 1]];
      }
      UsageIsSumOfReports(model, order, a, parse);
      var sa := Scan(Start(model), a, parse).state;
      assert Scan(sa, [x], parse) == Feed(sa, x, parse);
      FeedAddsReport(sa, x, parse);
    }
  }

  /**
   * A whole response: the lines before an ending line (message_stop, a
   * refused stop reason, an undecodable payload) are read without halting,
   * and whatever follows it is ignored. Usage() is the sum of the reports up
   * to and including the ending line.
   */
  lemma UsageOfResponse(model: string, order: seq<string>, a: seq<string>, x: string, b: seq<string>,
                        parse: string -> Parsed)
    requires Open(model, a, parse)
    requires Ends(x, parse)
    ensures Decode(model, order, a + [x] + b, parse).usage == SumReports(a + [x], parse)
  {
    EndingLineStops(model, order, a, x, b, parse);
    assert (a + [x])[..|a + [x]| - 1] == a;
    UsageIsSumOfReports(model, order, a + [x], parse);
  }

  // ---------------------------------------------------------------- pricing

  /**
   * No key of the price table is a prefix of another: every key is longer
   * than 11 characters and the characters at 9 and 11 tell the keys apart.
   */
  lemma NoKeyPrefixOfAnother(k1: string, k2: string)
    requires k1 in PriceTable && k2 in PriceTable
    requires HasPrefix(k2, k1)
    ensures k1 == k2
  {
    assert PriceTable.Keys == {"claude-3-7-sonnet", "claude-3-5-sonnet", "claude-3-5-haiku",
                               "claude-3-opus", "claude-3-sonnet", "claude-3-haiku"};
    assert 11 < |k1|;
    assert k2[9] == k1[9] && k2[11] == k1[11] by {
      assert k2[..|k1|] == k1;
      assert k2[..|k1|][9] == k2[9] && k2[..|k1|][11] == k2[11];
    }
  }

  lemma PrefixesOfOneString(m: string, a: string, b: string)
    requires HasPrefix(m, a) && HasPrefix(m, b) && |a| <= |b|
    ensures HasPrefix(b, a)
  {
    assert b[..|a|] == m[..|b|][..|a|];
  }

  /** At most one key of the table is a prefix of any model name. */
  lemma UniquePrefixKey(model: string, k1: string, k2: string)
    requires k1 in PriceTable && k2 in PriceTable
    requires HasPrefix(model, k1) && HasPrefix(model, k2)
    ensures k1 == k2
  {
    if |k1| <= |k2| {
      PrefixesOfOneString(model, k1, k2);
      NoKeyPrefixOfAnother(k1, k2);
    } else {
      PrefixesOfOneString(model, k2, k1);
      NoKeyPrefixOfAnother(k2, k1);
    }
  }

  /**
   * Go ranges over the price table in an unspecified order, yet the entry
   * chosen is the same for every order: exact key first, else the one key
   * the model name starts with, else none (cost 0).
   */
  lemma PriceEntryIgnoresOrder(model: string, o1: seq<string>, o2: seq<string>)
    requires Enumerates(o1) && Enumerates(o2)
    ensures PriceEntry(model, o1) == PriceEntry(model, o2)
  {
    if model !in PriceTable {
      var p1 := FirstPrefix(model, o1);
      var p2 := FirstPrefix(model, o2);
      if p1.Some? {
        var i :| 0 <= i < |o1| && o1[i] in PriceTable && HasPrefix(model, o1[i]) && p1.value == PriceTable[o1[i]];
        assert p2.Some? by {
          assert o1[i] in o2;
          var j :| 0 <= j < |o2| && o2[j] == o1[i];
        }
        var j :| 0 <= j < |o2| && o2[j] in PriceTable && HasPrefix(model, o2[j]) && p2.value == PriceTable[o2[j]];
        UniquePrefixKey(model, o1[i], o2[j]);
      }
    }
  }

  /** A model matching no key, exactly or by prefix, costs nothing. */
  lemma UnknownModelCostsNothing(model: string, order: seq<string>, lines: seq<string>, parse: string -> Parsed)
    requires Enumerates(order)
    requires forall k :: k in PriceTable ==> !HasPrefix(model, k)
    ensures Decode(model, order, lines, parse).cost == 0
  {
    if model in PriceTable {
      assert HasPrefix(model, model);
    }
  }

  /**
   * content_block_stop does not look at which block closes: a text block
   * opened and closed after a tool_use block hands the same call over a
   * second time, so the step runs that tool twice.
   */
  lemma TextBlockAfterToolReadiesItAgain(s: Stream, tool: Block, text: Block)
    requires tool.kind == "tool_use" && text.kind != "tool_use"
    ensures var c := ToolCall(tool.id, tool.name, "");
            var s1 := ApplyEvent(s, ContentBlockStart(tool)).state;
            var s2 := ApplyEvent(s1, ContentBlockStop).state;
            var s3 := ApplyEvent(s2, ContentBlockStart(text)).state;
            var s4 := ApplyEvent(s3, ContentBlockStop).state;
            ReadyCalls(s4.emitted) == ReadyCalls(s.emitted) + [c, c]
  {
    var c := ToolCall(tool.id, tool.name, "");
    var s1 := ApplyBlockStart(s, tool);
    var y1 := Yield(StatusToolCallBegin, s.lastText, c);
    YieldSnoc(s.emitted, y1);
    var s2 := ApplyBlockStop(s1);
    var y2 := Yield(StatusToolCallReady, s.lastText, c);
    YieldSnoc(s1.emitted, y2);
    var s4 := ApplyBlockStop(s2);
    YieldSnoc(s2.emitted, y2);
    assert ReadyCalls(s4.emitted) == ReadyCalls(s.emitted) + [c] + [c];
  }
}
