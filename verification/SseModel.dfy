/**
 The streaming-response parser as a function of the bytes it is fed. Lines end at LF; the rest of
 an unfinished line waits for the next chunk. JSON decoding is a parameter.
 */
module SseModel {
  import opened Common
  import opened Json

  const LF: byte := 10
  const CR: byte := 13
  const PREFIX: Bytes := Ascii("data: ")
  const DONE: Bytes := Ascii("[DONE]")
  const CAPTURE_LIMIT: nat := 32768

  /** What a parser is configured with; `decode` stands for JSON decoding into an object. */
  datatype Setup = Setup(anthropic: bool, capture: bool, decode: Bytes -> Option<Object>)

  /**
   What the events accumulate. The last three counters are what has been emitted to the metrics:
   first-token records, prompt tokens and completion tokens.
   */
  datatype Tally = Tally(
    ttftDone: bool,
    promptToks: int, completionToks: int, thinkChars: nat, contentChars: nat,
    inputTokens: int, outputTokens: int,
    content: Bytes, truncated: bool,
    ttftRecords: nat, promptAdded: int, completionAdded: int)

  /** The parser's state: an unfinished line, and the tally of the finished ones. */
  datatype Parser = Parser(lineBuf: Bytes, tally: Tally)

  const FRESH := Parser([], Tally(false, 0, 0, 0, 0, 0, 0, [], false, 0, 0, 0))

  // ---- Events ----------------------------------------------------------------------------

  function ObjectAt(o: Object, key: string): Object {
    if key in o && o[key].Obj? then o[key].fields else map[]
  }

  function ItemsAt(o: Object, key: string): seq<Json> {
    if key in o && o[key].Arr? then o[key].items else []
  }

  /** A positive token count, truncated to an integer; anything else is no count. */
  function CountAt(o: Object, key: string): Option<int> {
    if key in o && o[key].Num? && o[key].n > 0.0 then Some(o[key].n.Floor) else None
  }

  /** Content and reasoning of the first choice that has either. */
  function FirstDelta(choices: seq<Json>): (Bytes, Bytes) {
    if choices == [] then ([], [])
    else
      var delta := if choices[0].Obj? then ObjectAt(choices[0].fields, "delta") else map[];
      var content, reasoning := StringAt(delta, "content"), StringAt(delta, "reasoning_content");
      if content != [] || reasoning != [] then (content, reasoning) else FirstDelta(choices[1..])
  }

  function Append(p: Tally, text: Bytes, capture: bool): Tally {
    if !capture || p.truncated || text == [] then p
    else
      var remaining := CAPTURE_LIMIT - |p.content|;
      if remaining <= 0 then p.(truncated := true)
      else if |text| > remaining then p.(content := p.content + text[..remaining], truncated := true)
      else p.(content := p.content + text)
  }

  function FirstToken(p: Tally): Tally {
    if p.ttftDone then p else p.(ttftDone := true, ttftRecords := p.ttftRecords + 1)
  }

  function OpenAIDelta(p: Tally, content: Bytes, think: Bytes, capture: bool): Tally {
    if content == [] && think == [] then p
    else
      var q := FirstToken(p);
      Append(q.(contentChars := q.contentChars + |content|, thinkChars := q.thinkChars + |think|), content, capture)
  }

  function OpenAIUsage(p: Tally, prompt: Option<int>, completion: Option<int>): Tally {
    var q := if prompt.Some? then p.(promptToks := prompt.value) else p;
    if completion.Some? then q.(completionToks := completion.value) else q
  }

  function OpenAIEvent(p: Tally, evt: Object, capture: bool): Tally {
    var (content, think) := FirstDelta(ItemsAt(evt, "choices"));
    var usage := ObjectAt(evt, "usage");
    OpenAIUsage(OpenAIDelta(p, content, think, capture),
                CountAt(usage, "prompt_tokens"), CountAt(usage, "completion_tokens"))
  }

  /** Usage waiting to be reported is reported once and cleared. */
  function RecordTokens(p: Tally): Tally {
    var q := if p.inputTokens > 0
             then p.(promptToks := p.inputTokens, promptAdded := p.promptAdded + p.inputTokens, inputTokens := 0)
             else p;
    if q.outputTokens > 0
    then q.(completionToks := q.outputTokens, completionAdded := q.completionAdded + q.outputTokens, outputTokens := 0)
    else q
  }

  function TypeOf(evt: Object): Json {
    if "type" in evt then evt["type"] else Null
  }

  function AnthropicDelta(p: Tally, delta: Object, capture: bool): Tally {
    var dtype := StringAt(delta, "type");
    if dtype == Ascii("thinking_delta")
    then var q := FirstToken(p); q.(thinkChars := q.thinkChars + |StringAt(delta, "thinking")|)
    else if dtype == Ascii("text_delta")
    then
      var q, text := FirstToken(p), StringAt(delta, "text");
      Append(q.(contentChars := q.contentChars + |text|), text, capture)
    else p
  }

  function AnthropicEvent(p: Tally, evt: Object, capture: bool): Tally {
    var kind := TypeOf(evt);
    if kind == Str(Ascii("message_start")) then
      match CountAt(ObjectAt(ObjectAt(evt, "message"), "usage"), "input_tokens")
      case Some(v) => p.(inputTokens := v)
      case None => p
    else if kind == Str(Ascii("content_block_delta")) then
      AnthropicDelta(p, ObjectAt(evt, "delta"), capture)
    else if kind == Str(Ascii("message_delta")) then
      match CountAt(ObjectAt(evt, "usage"), "output_tokens")
      case Some(v) => p.(outputTokens := v)
      case None => p
    else if kind == Str(Ascii("message_stop")) then RecordTokens(p)
    else p
  }

  // ---- Lines -----------------------------------------------------------------------------

  function TrimCR(line: Bytes): Bytes {
    if line != [] && line[|line| - 1] == CR then TrimCR(line[..|line| - 1]) else line
  }

  /** The payload of a data line, after trailing CRs are dropped. */
  function Payload(line: Bytes): Option<Bytes> {
    var l := TrimCR(line);
    if |l| >= 6 && l[..6] == PREFIX then Some(l[6..]) else None
  }

  function ProcessLine(p: Tally, line: Bytes, u: Setup): Tally {
    match Payload(line)
    case None => p
    case Some(payload) =>
      if payload == DONE then (if u.anthropic then RecordTokens(p) else p)
      else match u.decode(payload)
        case None => p
        case Some(evt) => if u.anthropic then AnthropicEvent(p, evt, u.capture) else OpenAIEvent(p, evt, u.capture)
  }

  /** The position of the first LF, or the length when there is none. */
  function IndexLF(data: Bytes): (i: nat)
    ensures i <= |data|
    ensures i < |data| ==> data[i] == LF
    ensures forall j :: 0 <= j < i ==> data[j] != LF
  {
    if data == [] || data[0] == LF then 0 else 1 + IndexLF(data[1..])
  }

  /** Processes every complete line of the data; the rest becomes the line buffer. */
  function Consume(p: Tally, data: Bytes, u: Setup): Parser
    decreases |data|
  {
    var i := IndexLF(data);
    if i == |data| then Parser(data, p)
    else Consume(ProcessLine(p, data[..i], u), data[i + 1..], u)
  }

  function Feed(p: Parser, data: Bytes, u: Setup): Parser {
    Consume(p.tally, p.lineBuf + data, u)
  }

  // ---- Chunking does not matter ----------------------------------------------------------

  lemma IndexLFConcat(x: Bytes, y: Bytes)
    ensures IndexLF(x) < |x| ==> IndexLF(x + y) == IndexLF(x)
    ensures IndexLF(x) == |x| ==> IndexLF(x + y) == |x| + IndexLF(y)
  {
    var k := if IndexLF(x) < |x| then IndexLF(x) else |x| + IndexLF(y);
    forall j | 0 <= j < k
      ensures (x + y)[j] != LF
    {
    }
    FirstLF(x + y, k);
  }

  lemma {:induction false} FirstLF(data: Bytes, k: nat)
    requires k <= |data| && (k < |data| ==> data[k] == LF) && forall j :: 0 <= j < k ==> data[j] != LF
    ensures IndexLF(data) == k
  {
    if k > 0 {
      FirstLF(data[1..], k - 1);
    }
  }

  lemma {:induction false} ConsumeSplit(p: Tally, x: Bytes, y: Bytes, u: Setup)
    ensures Consume(p, x + y, u) == Feed(Consume(p, x, u), y, u)
    decreases |x|
  {
    hide ProcessLine;
    var i := IndexLF(x);
    IndexLFConcat(x, y);
    if i < |x| {
      assert (x + y)[..i] == x[..i] && (x + y)[i + 1..] == x[i + 1..] + y;
      ConsumeSplit(ProcessLine(p, x[..i], u), x[i + 1..], y, u);
    }
  }

  /** Feeding two chunks leaves the same state and the same emissions as feeding them joined. */
  lemma FeedConcat(p: Parser, a: Bytes, b: Bytes, u: Setup)
    ensures Feed(Feed(p, a, u), b, u) == Feed(p, a + b, u)
  {
    ConsumeSplit(p.tally, p.lineBuf + a, b, u);
    assert p.lineBuf + a + b == p.lineBuf + (a + b);
  }

  function FeedAll(p: Parser, chunks: seq<Bytes>, u: Setup): Parser
    decreases |chunks|
  {
    if chunks == [] then p else Feed(FeedAll(p, chunks[..|chunks| - 1], u), chunks[|chunks| - 1], u)
  }

  function Join(chunks: seq<Bytes>): Bytes
    decreases |chunks|
  {
    if chunks == [] then [] else Join(chunks[..|chunks| - 1]) + chunks[|chunks| - 1]
  }

  ghost predicate NoLF(data: Bytes) {
    forall j :: 0 <= j < |data| ==> data[j] != LF
  }

  /** The line buffer never holds a complete line. */
  lemma {:induction false} BufferHasNoLF(p: Tally, data: Bytes, u: Setup)
    ensures NoLF(Consume(p, data, u).lineBuf)
    decreases |data|
  {
    var i := IndexLF(data);
    if i < |data| {
      BufferHasNoLF(ProcessLine(p, data[..i], u), data[i + 1..], u);
    }
  }

  /** Any way of cutting a stream into chunks gives the result of one call with the whole stream. */
  lemma {:induction false} ChunkingIsInvisible(p: Parser, chunks: seq<Bytes>, u: Setup)
    requires NoLF(p.lineBuf)
    ensures FeedAll(p, chunks, u) == Feed(p, Join(chunks), u)
    decreases |chunks|
  {
    if chunks == [] {
      assert p.lineBuf + [] == p.lineBuf;
      FirstLF(p.lineBuf, |p.lineBuf|);
    } else {
      var front := chunks[..|chunks| - 1];
      ChunkingIsInvisible(p, front, u);
      FeedConcat(p, Join(front), chunks[|chunks| - 1], u);
    }
  }

  // ---- A reference: one byte at a time ---------------------------------------------------

  /** The textbook automaton: an LF ends the buffered line, any other byte extends it. */
  function Step(p: Parser, b: byte, u: Setup): Parser {
    if b == LF then Parser([], ProcessLine(p.tally, p.lineBuf, u)) else p.(lineBuf := p.lineBuf + [b])
  }

  function Steps(p: Parser, data: Bytes, u: Setup): Parser
    decreases |data|
  {
    if data == [] then p else Step(Steps(p, data[..|data| - 1], u), data[|data| - 1], u)
  }

  /** The chunked parser refines the byte-at-a-time automaton. */
  lemma {:induction false} FeedIsByteByByte(p: Parser, data: Bytes, u: Setup)
    requires NoLF(p.lineBuf)
    ensures Feed(p, data, u) == Steps(p, data, u)
    decreases |data|
  {
    if data == [] {
      assert p.lineBuf + data == p.lineBuf;
      FirstLF(p.lineBuf, |p.lineBuf|);
    } else {
      var front, b := data[..|data| - 1], data[|data| - 1];
      FeedIsByteByByte(p, front, u);
      assert data == front + [b];
      FeedConcat(p, front, [b], u);
      var q := Steps(p, front, u);
      BufferHasNoLF(p.tally, p.lineBuf + front, u);
      FeedOne(q, b, u);
    }
  }

  lemma FeedOne(q: Parser, b: byte, u: Setup)
    requires NoLF(q.lineBuf)
    ensures Feed(q, [b], u) == Step(q, b, u)
  {
    var d, n := q.lineBuf + [b], |q.lineBuf|;
    if b == LF {
      FirstLF(d, n);
      assert d[..n] == q.lineBuf && d[n + 1..] == [];
      assert Consume(ProcessLine(q.tally, q.lineBuf, u), [], u) == Step(q, b, u);
    } else {
      FirstLF(d, n + 1);
    }
  }

  // ---- Usage is reported once ------------------------------------------------------------

  /** A line that ends an Anthropic message: the [DONE] marker or a message_stop event. */
  predicate IsStop(line: Bytes, u: Setup) {
    match Payload(line)
    case None => false
    case Some(payload) =>
      payload == DONE
      || (u.decode(payload).Some? && TypeOf(u.decode(payload).value) == Str(Ascii("message_stop")))
  }

  function ProcessLines(p: Tally, lines: seq<Bytes>, u: Setup): Tally
    decreases |lines|
  {
    if lines == [] then p
    else ProcessLine(ProcessLines(p, lines[..|lines| - 1], u), lines[|lines| - 1], u)
  }

  lemma StopRecords(p: Tally, line: Bytes, u: Setup)
    requires u.anthropic && IsStop(line, u)
    ensures ProcessLine(p, line, u) == RecordTokens(p)
  {
    assert |Ascii("message_stop")| == 12 && |Ascii("message_start")| == 13;
    assert |Ascii("content_block_delta")| == 19 && |Ascii("message_delta")| == 13;
    assert Ascii("message_stop") != Ascii("message_start");
    assert Ascii("message_stop") != Ascii("content_block_delta");
    assert Ascii("message_stop") != Ascii("message_delta");
  }

  /** However many stop lines follow one another, they have the effect of one. */
  lemma {:induction false} RepeatedStopsAreOne(p: Tally, stops: seq<Bytes>, u: Setup)
    requires u.anthropic && |stops| > 0 && forall l :: l in stops ==> IsStop(l, u)
    ensures ProcessLines(p, stops, u) == RecordTokens(p)
    decreases |stops|
  {
    var front, last := stops[..|stops| - 1], stops[|stops| - 1];
    StopRecords(ProcessLines(p, front, u), last, u);
    if front != [] {
      RepeatedStopsAreOne(p, front, u);
    }
  }

  /** The two counters of Anthropic usage. */
  datatype Side = Input | Output

  function Waiting(p: Tally, side: Side): int {
    if side.Input? then p.inputTokens else p.outputTokens
  }

  function Emitted(p: Tally, side: Side): int {
    if side.Input? then p.promptAdded else p.completionAdded
  }

  /** The usage that a line announces: input when a message starts, output with its deltas. */
  function Announced(line: Bytes, side: Side, u: Setup): Option<int> {
    match Payload(line)
    case None => None
    case Some(payload) =>
      if payload == DONE || u.decode(payload).None? then None
      else
        var evt := u.decode(payload).value;
        if side.Input? && TypeOf(evt) == Str(Ascii("message_start"))
        then CountAt(ObjectAt(ObjectAt(evt, "message"), "usage"), "input_tokens")
        else if side.Output? && TypeOf(evt) == Str(Ascii("message_delta"))
        then CountAt(ObjectAt(evt, "usage"), "output_tokens")
        else None
  }

  /** Usage announced by some lines, and the part of it that a later announcement replaced. */
  function TotalAnnounced(lines: seq<Bytes>, side: Side, u: Setup): int
    decreases |lines|
  {
    if lines == [] then 0
    else TotalAnnounced(lines[..|lines| - 1], side, u)
         + match Announced(lines[|lines| - 1], side, u) case Some(v) => v case None => 0
  }

  function TotalReplaced(p: Tally, lines: seq<Bytes>, side: Side, u: Setup): int
    decreases |lines|
  {
    if lines == [] then 0
    else
      var front := lines[..|lines| - 1];
      TotalReplaced(p, front, side, u)
      + if Announced(lines[|lines| - 1], side, u).Some? then Waiting(ProcessLines(p, front, u), side) else 0
  }

  lemma KindsDiffer()
    ensures Ascii("message_start") != Ascii("message_delta")
    ensures Ascii("message_start") != Ascii("content_block_delta")
    ensures Ascii("message_delta") != Ascii("content_block_delta")
  {
    var a, b := Ascii("message_start"), Ascii("message_delta");
    assert a[8] == 's' as int % 256 && b[8] == 'd' as int % 256;
    assert |a| == 13 && |b| == 13 && |Ascii("content_block_delta")| == 19;
  }

  lemma LineInputUsage(p: Tally, line: Bytes, u: Setup)
    requires u.anthropic
    ensures var q := ProcessLine(p, line, u);
            q.promptAdded + q.inputTokens ==
              p.promptAdded + match Announced(line, Input, u) case Some(v) => v case None => p.inputTokens
    ensures p.inputTokens >= 0 ==> ProcessLine(p, line, u).inputTokens >= 0
  {
    KindsDiffer();
    hide Payload, Ascii, FirstDelta;
  }

  lemma LineOutputUsage(p: Tally, line: Bytes, u: Setup)
    requires u.anthropic
    ensures var q := ProcessLine(p, line, u);
            q.completionAdded + q.outputTokens ==
              p.completionAdded + match Announced(line, Output, u) case Some(v) => v case None => p.outputTokens
    ensures p.outputTokens >= 0 ==> ProcessLine(p, line, u).outputTokens >= 0
  {
    KindsDiffer();
    hide Payload, Ascii, FirstDelta;
  }

  lemma LineUsage(p: Tally, line: Bytes, side: Side, u: Setup)
    requires u.anthropic
    ensures var q := ProcessLine(p, line, u);
            Emitted(q, side) + Waiting(q, side) ==
              Emitted(p, side) + match Announced(line, side, u) case Some(v) => v case None => Waiting(p, side)
    ensures Waiting(p, side) >= 0 ==> Waiting(ProcessLine(p, line, u), side) >= 0
  {
    LineInputUsage(p, line, u);
    LineOutputUsage(p, line, u);
    hide ProcessLine, Announced;
  }

  /**
   Conservation of usage over any stream, for either counter: what was emitted, what still waits,
   and what was replaced before it could be emitted add up to what the stream announced. So
   nothing is counted twice, and with no replacement everything is counted.
   */
  lemma {:induction false} UsageIsConserved(p: Tally, lines: seq<Bytes>, side: Side, u: Setup)
    requires u.anthropic && Waiting(p, side) >= 0
    ensures var q := ProcessLines(p, lines, u);
            && Waiting(q, side) >= 0 && TotalReplaced(p, lines, side, u) >= 0
            && Emitted(q, side) + Waiting(q, side) + TotalReplaced(p, lines, side, u)
               == Emitted(p, side) + Waiting(p, side) + TotalAnnounced(lines, side, u)
    decreases |lines|
  {
    if lines != [] {
      var front := lines[..|lines| - 1];
      UsageIsConserved(p, front, side, u);
      LineUsage(ProcessLines(p, front, u), lines[|lines| - 1], side, u);
    }
  }

  // ---- Content capture -------------------------------------------------------------------

  function AppendAll(p: Tally, texts: seq<Bytes>): Tally
    decreases |texts|
  {
    if texts == [] then p else Append(AppendAll(p, texts[..|texts| - 1]), texts[|texts| - 1], true)
  }

  function Take(s: Bytes, n: nat): Bytes {
    if |s| <= n then s else s[..n]
  }

  /** Captured content is the text's first 32 KB, flagged as truncated exactly when something was cut. */
  lemma {:induction false} CaptureIsPrefix(p: Tally, texts: seq<Bytes>)
    requires p.content == [] && !p.truncated
    ensures var q := AppendAll(p, texts);
            q.content == Take(Join(texts), CAPTURE_LIMIT) && (q.truncated <==> |Join(texts)| > CAPTURE_LIMIT)
    decreases |texts|
  {
    if texts != [] {
      var front, last := texts[..|texts| - 1], texts[|texts| - 1];
      CaptureIsPrefix(p, front);
      var q := AppendAll(p, front);
      if q.truncated {
        assert (Join(front) + last)[..CAPTURE_LIMIT] == Join(front)[..CAPTURE_LIMIT];
      } else if |q.content| + |last| > CAPTURE_LIMIT {
        var room := CAPTURE_LIMIT - |q.content|;
        assert (Join(front) + last)[..CAPTURE_LIMIT] == Join(front) + last[..room];
      }
    }
  }
}
