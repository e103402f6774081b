/** Whole-response properties of the OpenAI stream decoder. */
module OpenAIStreamLemmas {
  import opened Wrappers
  import opened Strings
  import opened Contents
  import opened Llms
  import opened OpenAITypes
  import opened OpenAIStream

  /** Feeding `a + b` is feeding `a`, then `b` unless `a` already halted. */
  lemma {:induction false} ScanAppend(s: Stream, a: seq<string>, b: seq<string>, parse: string -> Parsed)
    ensures Scan(s, a + b, parse)
         == (if Scan(s, a, parse).Halt? then Scan(s, a, parse) else Scan(Scan(s, a, parse).state, b, parse))
    decreases |a|
  {
    if |a| == 0 {
      assert a + b == b;
    } else {
      assert (a + b)[0] == a[0];
      assert (a + b)[1..] == a[1..] + b;
      match Feed(s, a[0], parse)
      case Continue(s') => ScanAppend(s', a[1..], b, parse);
      case Halt(_, _) =>
    }
  }

  /** A line the loop skips: no "data: " prefix, or the "[DONE]" sentinel. */
  predicate Skipped(line: string) {
    !HasPrefix(line, DataPrefix) || line == DataPrefix + DoneSentinel
  }

  /** A data line whose payload json.Unmarshal rejects. */
  predicate Undecodable(line: string, parse: string -> Parsed) {
    HasPrefix(line, DataPrefix) && line[|DataPrefix|..] != DoneSentinel
    && parse(line[|DataPrefix|..]).Undecodable?
  }

  /** Skipped lines have no effect anywhere in a response. */
  lemma SkippedLineIgnored(model: string, a: seq<string>, x: string, b: seq<string>, parse: string -> Parsed)
    requires Skipped(x)
    ensures Decode(model, a + [x] + b, parse) == Decode(model, a + b, parse)
  {
    var s := Start(model);
    ScanAppend(s, a + [x], b, parse);
    ScanAppend(s, a, [x], parse);
    ScanAppend(s, a, b, parse);
    if Scan(s, a, parse).Continue? {
      var sa := Scan(s, a, parse).state;
      assert Scan(sa, [x], parse) == Continue(sa);
    }
  }

  /**
   * An undecodable payload sets Err() and nothing after it is read; if the
   * lines before it decoded cleanly, the outcome is theirs with the error
   * added (the partly assembled message and its statuses are kept as is).
   */
  lemma UndecodableStops(model: string, a: seq<string>, x: string, b: seq<string>, parse: string -> Parsed)
    requires Undecodable(x, parse)
    ensures Decode(model, a + [x] + b, parse) == Decode(model, a + [x], parse)
    ensures Decode(model, a + [x], parse).err.Some?
    ensures Open(model, a, parse) ==>
              Decode(model, a + [x], parse) == Decode(model, a, parse).(err := Some(Malformed))
  {
    var s := Start(model);
    ScanAppend(s, a + [x], b, parse);
    ScanAppend(s, a, [x], parse);
    if Scan(s, a, parse).Continue? {
      var sa := Scan(s, a, parse).state;
      assert Scan(sa, [x], parse) == Halt(sa, Some(Malformed));
    }
  }

  /** Every Text status so far carries a non-empty fragment. */
  predicate NonEmptyTexts(ys: seq<Yield>) {
    forall i :: 0 <= i < |ys| && ys[i].status == StatusText ==> ys[i].text != ""
  }

  predicate TextInv(s: Stream) {
    TextOf(s.message.content) == Texts(s.emitted) && NonEmptyTexts(s.emitted)
  }

  lemma ApplyContentKeepsTextInv(s: Stream, d: Delta)
    requires TextInv(s)
    ensures TextInv(ApplyContent(s, d))
  {
    var r := ApplyContent(s, d);
    var text := d.content.GetOr("");
    var tail := if text != "" then [Yield(StatusText, text, LastCall(s.message))] else [];
    assert r.emitted == s.emitted + tail;
    NonEmptyTextsAppend(s.emitted, tail);
  }

  /**
   * What a tool delta adds to the summaries of the statuses: no text; a
   * delta at the last index adds no ToolCallReady and no ToolCallBegin; a
   * new index adds one ToolCallBegin, after the previous call's ToolCallReady.
   */
  lemma ApplyToolDeltaSummaries(s: Stream, td: ToolCallDelta)
    requires ApplyToolDelta(s, td).Continue?
    ensures var f := ApplyToolDelta(s, td); var n := |s.message.toolCalls|;
      && Texts(f.state.emitted) == Texts(s.emitted)
      && Count(f.state.emitted, StatusText) == Count(s.emitted, StatusText)
      && (td.index < n ==>
            ReadyCalls(f.state.emitted) == ReadyCalls(s.emitted)
            && Count(f.state.emitted, StatusToolCallBegin) == Count(s.emitted, StatusToolCallBegin))
      && (td.index >= n ==>
            ReadyCalls(f.state.emitted) == ReadyCalls(s.emitted) + (if td.index > 0 then [LastCall(s.message)] else [])
            && Count(f.state.emitted, StatusToolCallBegin) == Count(s.emitted, StatusToolCallBegin) + 1)
  {
    var f := ApplyToolDelta(s, td);
    var n := |s.message.toolCalls|;
    if td.index < n {
      YieldSnoc(s.emitted, f.state.emitted[|s.emitted|]);
    } else {
      var begin := Yield(StatusToolCallBegin, s.lastText, ToolCall(td.id, td.name, td.arguments));
      if td.index > 0 {
        var ready := Yield(StatusToolCallReady, s.lastText, LastCall(s.message));
        YieldSnoc(s.emitted, ready);
        YieldSnoc(s.emitted + [ready], begin);
      } else {
        YieldSnoc(s.emitted, begin);
      }
    }
  }

  lemma ApplyToolDeltaKeepsTextInv(s: Stream, td: ToolCallDelta)
    requires TextInv(s)
    ensures TextInv(ApplyToolDelta(s, td).state)
  {
    if ApplyToolDelta(s, td).Continue? {
      var tail := ToolDeltaTail(s, td);
      assert NonEmptyTexts(tail);
      NonEmptyTextsAppend(s.emitted, tail);
      ApplyToolDeltaSummaries(s, td);
    }
  }

  /** The statuses a tool delta adds: never a Text status. */
  lemma ToolDeltaTail(s: Stream, td: ToolCallDelta) returns (tail: seq<Yield>)
    requires ApplyToolDelta(s, td).Continue?
    ensures ApplyToolDelta(s, td).state.emitted == s.emitted + tail
    ensures forall i :: 0 <= i < |tail| ==> tail[i].status != StatusText
  {
    var f := ApplyToolDelta(s, td);
    var n := |s.message.toolCalls|;
    if td.index < n {
      tail := [Yield(StatusToolCallData, s.lastText, f.state.message.toolCalls[n - 1])];
    } else {
      tail := (if td.index > 0 then [Yield(StatusToolCallReady, s.lastText, LastCall(s.message))] else [])
              + [Yield(StatusToolCallBegin, s.lastText, ToolCall(td.id, td.name, td.arguments))];
    }
  }

  /** Appending statuses whose Text statuses are non-empty keeps every Text status non-empty. */
  lemma NonEmptyTextsAppend(ys: seq<Yield>, tail: seq<Yield>)
    requires NonEmptyTexts(ys) && NonEmptyTexts(tail)
    ensures NonEmptyTexts(ys + tail)
  {
    forall i | 0 <= i < |ys + tail| && (ys + tail)[i].status == StatusText
      ensures (ys + tail)[i].text != ""
    {
      if i < |ys| {
        assert (ys + tail)[i] == ys[i];
      } else {
        assert (ys + tail)[i] == tail[i - |ys|];
      }
    }
  }

  lemma FeedKeepsTextInv(s: Stream, line: string, parse: string -> Parsed)
    requires TextInv(s)
    ensures TextInv(Feed(s, line, parse).state)
  {
    match CutPrefix(line, DataPrefix)
    case None =>
    case Some(payload) =>
      if payload != DoneSentinel && parse(payload).Decoded? {
        ChunkKeepsTextInv(s, parse(payload).chunk);
      }
  }

  lemma ChunkKeepsTextInv(s: Stream, c: Chunk)
    requires TextInv(s)
    ensures TextInv(ApplyChunk(s, c).state)
  {
    var s1 := if c.usage.Some? then s.(usage := c.usage) else s;
    assert s1.message == s.message && s1.emitted == s.emitted;
    if |c.choices| > 0 {
      DeltaKeepsTextInv(s1, c.choices[0]);
    }
  }

  lemma DeltaKeepsTextInv(s: Stream, d: Delta)
    requires TextInv(s)
    ensures TextInv(ApplyDelta(s, d).state)
  {
    ApplyContentKeepsTextInv(s, d);
    if |d.toolCalls| == 1 {
      ApplyToolDeltaKeepsTextInv(ApplyContent(s, d), d.toolCalls[0]);
    }
  }

  lemma {:induction false} ScanKeepsTextInv(s: Stream, lines: seq<string>, parse: string -> Parsed)
    requires TextInv(s)
    ensures TextInv(Scan(s, lines, parse).state)
    decreases |lines|
  {
    if |lines| > 0 {
      FeedKeepsTextInv(s, lines[0], parse);
      var f := Feed(s, lines[0], parse);
      if f.Continue? {
        ScanKeepsTextInv(f.state, lines[1..], parse);
      }
    }
  }

  /**
   * The Text() fragments of the Text statuses, concatenated in order, are
   * exactly the text of the assembled message, and no Text status carries an
   * empty fragment.
   */
  lemma DecodedTextIsTextStatuses(model: string, lines: seq<string>, parse: string -> Parsed)
    ensures TextOf(Decode(model, lines, parse).message.content) == Texts(Decode(model, lines, parse).emitted)
    ensures NonEmptyTexts(Decode(model, lines, parse).emitted)
  {
    ScanKeepsTextInv(Start(model), lines, parse);
    var f := Scan(Start(model), lines, parse);
    var o := Decode(model, lines, parse);
    var tail := o.emitted[|f.state.emitted|..];
    assert o.emitted == f.state.emitted + tail;
    YieldConcat(f.state.emitted, tail);
    if |tail| == 1 {
      assert Texts(tail) == Texts([]) + "";
    }
  }

  // ------------------------------------------------------- tool-call indices

  /** The tool-delta list of each decoded chunk with a choice, up to the first undecodable payload. */
  function ToolDeltas(lines: seq<string>, parse: string -> Parsed): seq<seq<ToolCallDelta>>
    decreases |lines|
  {
    if |lines| == 0 then []
    else if Undecodable(lines[0], parse) then []
    else ChunkDeltas(lines[0], parse) + ToolDeltas(lines[1..], parse)
  }

  function ChunkDeltas(line: string, parse: string -> Parsed): seq<seq<ToolCallDelta>> {
    if Skipped(line) || Undecodable(line, parse) then []
    else
      var c := parse(line[|DataPrefix|..]).chunk;
      if |c.choices| == 0 then [] else [c.choices[0].toolCalls]
  }

  /** With `n` calls open, a tool delta may extend the last one or open the next one. */
  predicate Fits(n: nat, index: int) {
    index == n || (n > 0 && index == n - 1)
  }

  function NextCount(n: nat, deltas: seq<ToolCallDelta>): nat {
    if |deltas| == 1 && deltas[0].index == n then n + 1 else n
  }

  /** Indices run 0, 1, 2, ... (each repeated while its arguments stream) and chunks carry at most one delta. */
  predicate SequentialFrom(n: nat, ds: seq<seq<ToolCallDelta>>)
    decreases |ds|
  {
    |ds| == 0
    || (&& |ds[0]| <= 1
        && (|ds[0]| == 1 ==> Fits(n, ds[0][0].index))
        && SequentialFrom(NextCount(n, ds[0]), ds[1..]))
  }

  /** All calls but the last are closed. */
  function Settled(calls: seq<ToolCall>): seq<ToolCall> {
    if |calls| == 0 then [] else calls[..|calls| - 1]
  }

  predicate ReadyInv(s: Stream) {
    ReadyCalls(s.emitted) == Settled(s.message.toolCalls)
    && Count(s.emitted, StatusToolCallBegin) == |s.message.toolCalls|
  }

  lemma ApplyToolDeltaSequential(s: Stream, td: ToolCallDelta)
    requires ReadyInv(s)
    requires Fits(|s.message.toolCalls|, td.index)
    ensures ApplyToolDelta(s, td).Continue?
    ensures ReadyInv(ApplyToolDelta(s, td).state)
    ensures |ApplyToolDelta(s, td).state.message.toolCalls| == NextCount(|s.message.toolCalls|, [td])
  {
    var calls := s.message.toolCalls;
    var n := |calls|;
    var f := ApplyToolDelta(s, td);
    ApplyToolDeltaSummaries(s, td);
    if td.index == n {
      if n > 0 {
        assert calls[..n - 1] + [calls[n - 1]] == calls;
      }
      assert Settled(f.state.message.toolCalls) == calls;
    } else {
      assert f.state.message.toolCalls[..n - 1] == calls[..n - 1];
    }
  }

  /** One choice's delta, when its tool delta fits, continues and keeps the handover invariant. */
  lemma DeltaSequential(s: Stream, d: Delta, rest: seq<seq<ToolCallDelta>>)
    requires ReadyInv(s)
    requires SequentialFrom(|s.message.toolCalls|, [d.toolCalls] + rest)
    ensures ApplyDelta(s, d).Continue?
    ensures ReadyInv(ApplyDelta(s, d).state)
    ensures SequentialFrom(|ApplyDelta(s, d).state.message.toolCalls|, rest)
  {
    assert ([d.toolCalls] + rest)[1..] == rest;
    var s2 := ApplyContent(s, d);
    assert ReadyInv(s2);
    if |d.toolCalls| == 1 {
      ApplyToolDeltaSequential(s2, d.toolCalls[0]);
    }
  }

  lemma FeedSequential(s: Stream, line: string, parse: string -> Parsed, rest: seq<seq<ToolCallDelta>>)
    requires ReadyInv(s)
    requires !Undecodable(line, parse)
    requires SequentialFrom(|s.message.toolCalls|, ChunkDeltas(line, parse) + rest)
    ensures Feed(s, line, parse).Continue?
    ensures ReadyInv(Feed(s, line, parse).state)
    ensures SequentialFrom(|Feed(s, line, parse).state.message.toolCalls|, rest)
  {
    var n := |s.message.toolCalls|;
    if Skipped(line) {
      assert ChunkDeltas(line, parse) + rest == rest;
    } else {
      var payload := line[|DataPrefix|..];
      assert CutPrefix(line, DataPrefix) == Some(payload);
      var c := parse(payload).chunk;
      var s1 := if c.usage.Some? then s.(usage := c.usage) else s;
      if |c.choices| == 0 {
        assert ChunkDeltas(line, parse) + rest == rest;
      } else {
        var d := c.choices[0];
        var ds := ChunkDeltas(line, parse) + rest;
        assert ds[0] == d.toolCalls && ds[1..] == rest;
        DeltaSequential(s1, d, rest);
      }
    }
  }

  lemma {:induction false} ScanSequential(s: Stream, lines: seq<string>, parse: string -> Parsed)
    requires ReadyInv(s)
    requires SequentialFrom(|s.message.toolCalls|, ToolDeltas(lines, parse))
    ensures ReadyInv(Scan(s, lines, parse).state)
    ensures Scan(s, lines, parse).Halt? ==> Scan(s, lines, parse).err == Some(Malformed)
    decreases |lines|
  {
    if |lines| > 0 {
      if Undecodable(lines[0], parse) {
        assert Feed(s, lines[0], parse) == Halt(s, Some(Malformed));
      } else {
        FeedSequential(s, lines[0], parse, ToolDeltas(lines[1..], parse));
        ScanSequential(Feed(s, lines[0], parse).state, lines[1..], parse);
      }
    }
  }

  /**
   * The end of the stream, whatever order the indices came in: unless a
   * panic stopped it, exactly one more ToolCallReady is yielded when a call
   * exists, handing over the last call; after a panic nothing is added. The
   * message, the error and every other status count stay as they were.
   */
  lemma FinishHandsOverLast(s: Stream, err: Option<StreamError>)
    ensures var o := Finish(s, err); var last := |s.message.toolCalls| > 0 && !(err.Some? && err.value.Panic?);
      && o.message == s.message && o.err == err
      && |o.emitted| >= |s.emitted| && o.emitted[..|s.emitted|] == s.emitted
      && Count(o.emitted, StatusToolCallReady) == Count(s.emitted, StatusToolCallReady) + (if last then 1 else 0)
      && ReadyCalls(o.emitted) == ReadyCalls(s.emitted) + (if last then [LastCall(s.message)] else [])
      && Count(o.emitted, StatusToolCallBegin) == Count(s.emitted, StatusToolCallBegin)
      && Texts(o.emitted) == Texts(s.emitted)
  {
    var o := Finish(s, err);
    if |s.message.toolCalls| > 0 && !(err.Some? && err.value.Panic?) {
      var y := Yield(StatusToolCallReady, s.lastText, LastCall(s.message));
      assert o.emitted == s.emitted + [y];
      YieldSnoc(s.emitted, y);
    } else {
      assert o.emitted == s.emitted;
    }
  }

  /**
   * In a stream whose indices only ever grew, the final ToolCallReady closes
   * the last call, so every call has been handed over.
   */
  lemma FinishReady(s: Stream, err: Option<StreamError>)
    requires ReadyInv(s)
    requires err.None? || err == Some(Malformed)
    ensures ReadyCalls(Finish(s, err).emitted) == s.message.toolCalls
    ensures Count(Finish(s, err).emitted, StatusToolCallBegin) == |s.message.toolCalls|
    ensures Count(Finish(s, err).emitted, StatusToolCallReady) == |s.message.toolCalls|
  {
    var calls := s.message.toolCalls;
    var o := Finish(s, err);
    if |calls| > 0 {
      var y := Yield(StatusToolCallReady, s.lastText, calls[|calls| - 1]);
      assert o.emitted == s.emitted + [y];
      YieldSnoc(s.emitted, y);
      assert calls[..|calls| - 1] + [calls[|calls| - 1]] == calls;
    } else {
      assert o.emitted == s.emitted;
    }
    ReadyCallsCount(o.emitted);
  }

  /**
   * When tool-call indices arrive as 0, 1, 2, ... the decoder never panics,
   * hands every call over exactly once through ToolCallReady, in order and
   * with its final arguments, and yields as many Begin as Ready statuses as
   * there are calls.
   */
  lemma SequentialToolCalls(model: string, lines: seq<string>, parse: string -> Parsed)
    requires SequentialFrom(0, ToolDeltas(lines, parse))
    ensures var o := Decode(model, lines, parse);
      && (o.err.None? || o.err == Some(Malformed))
      && ReadyCalls(o.emitted) == o.message.toolCalls
      && Count(o.emitted, StatusToolCallBegin) == |o.message.toolCalls|
      && Count(o.emitted, StatusToolCallReady) == |o.message.toolCalls|
  {
    ScanSequential(Start(model), lines, parse);
    var f := Scan(Start(model), lines, parse);
    FinishReady(f.state, if f.Halt? then f.err else None);
  }

  // ------------------------------------------------------------------ usage

  /** A data line whose chunk carries a usage report. */
  predicate ReportsUsage(line: string, parse: string -> Parsed) {
    HasPrefix(line, DataPrefix) && line[|DataPrefix|..] != DoneSentinel
    && parse(line[|DataPrefix|..]).Decoded? && parse(line[|DataPrefix|..]).chunk.usage.Some?
  }

  /**
   * Each usage report replaces the stored one: when the last line reporting
   * usage is `x`, Usage() is `x`'s report, whatever came before it.
   */
  lemma UsageLastWins(model: string, a: seq<string>, x: string, b: seq<string>, parse: string -> Parsed)
    requires Open(model, a, parse)
    requires ReportsUsage(x, parse)
    requires forall i :: 0 <= i < |b| ==> !ReportsUsage(b[i], parse)
    ensures Decode(model, a + [x] + b, parse).usage == parse(x[|DataPrefix|..]).chunk.usage.value
  {
    ScanAppend(Start(model), a, [x], parse);
    ScanAppend(Start(model), a + [x], b, parse);
    var sa := Scan(Start(model), a, parse).state;
    assert CutPrefix(x, DataPrefix) == Some(x[|DataPrefix|..]);
    var fx := Scan(Start(model), a + [x], parse);
    assert fx.state == Feed(sa, x, parse).state;
    if fx.Continue? {
      ScanKeepsUsage(fx.state, b, parse);
    }
  }

  /** Lines that report no usage leave the stored usage as it was. */
  lemma {:induction false} ScanKeepsUsage(s: Stream, lines: seq<string>, parse: string -> Parsed)
    requires forall i :: 0 <= i < |lines| ==> !ReportsUsage(lines[i], parse)
    ensures Scan(s, lines, parse).state.usage == s.usage
    decreases |lines|
  {
    if |lines| > 0 {
      var f := Feed(s, lines[0], parse);
      assert !ReportsUsage(lines[0], parse);
      if HasPrefix(lines[0], DataPrefix) {
        assert CutPrefix(lines[0], DataPrefix) == Some(lines[0][|DataPrefix|..]);
      }
      assert f.state.usage == s.usage;
      if f.Continue? {
        ScanKeepsUsage(f.state, lines[1..], parse);
      }
    }
  }

  /** Usage() is (0, 0) when no chunk reported usage. */
  lemma NoUsageMeansZero(model: string, lines: seq<string>, parse: string -> Parsed)
    requires forall i :: 0 <= i < |lines| ==> !ReportsUsage(lines[i], parse)
    ensures Decode(model, lines, parse).usage == NoUsage
  {
    ScanKeepsUsage(Start(model), lines, parse);
  }

  /** Pricing is by exact model name; any other model costs nothing. */
  lemma UnknownModelCostsNothing(model: string, lines: seq<string>, parse: string -> Parsed)
    requires model !in PriceTable
    ensures Decode(model, lines, parse).cost == 0
  {
  }
}
