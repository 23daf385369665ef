/** The streaming-response parser, the body wrapper that feeds it, and the capped debug buffer. */
module SseParser {
  import opened Common
  import opened Json
  import opened SseModel

  class SseParser {
    const setup: Setup
    var ttftDone: bool
    var lineBuf: Bytes
    var promptToks: int
    var completionToks: int
    var thinkChars: nat
    var contentChars: nat
    var anthropicInputTokens: int
    var anthropicOutputTokens: int
    var contentBuf: Bytes
    var truncated: bool
    // What has been emitted to the metrics.
    var ttftRecords: nat
    var promptAdded: int
    var completionAdded: int

    ghost function TallyView(): Tally
      reads this
    {
      Tally(ttftDone, promptToks, completionToks, thinkChars, contentChars,
            anthropicInputTokens, anthropicOutputTokens, contentBuf, truncated,
            ttftRecords, promptAdded, completionAdded)
    }

    ghost function View(): Parser
      reads this
    {
      Parser(lineBuf, TallyView())
    }

    constructor (setup: Setup)
      ensures View() == FRESH && this.setup == setup
    {
      this.setup := setup;
      ttftDone, lineBuf := false, [];
      promptToks, completionToks, thinkChars, contentChars := 0, 0, 0, 0;
      anthropicInputTokens, anthropicOutputTokens := 0, 0;
      contentBuf, truncated := [], false;
      ttftRecords, promptAdded, completionAdded := 0, 0, 0;
    }

    /** Every complete line is handled; an incomplete one is saved for the next call. */
    method Feed(chunk: Bytes)
      modifies this
      ensures View() == SseModel.Feed(old(View()), chunk, setup)
    {
      var data := lineBuf + chunk;
      lineBuf := [];
      ghost var goal := SseModel.Feed(old(View()), chunk, setup);
      while true
        invariant lineBuf == [] && Consume(TallyView(), data, setup) == goal
        decreases |data|
      {
        var idx := IndexLF(data);
        if idx == |data| {
          if |data| > 0 {
            lineBuf := data;
          }
          return;
        }
        HandleLine(data[..idx]);
        data := data[idx + 1..];
      }
    }

    method HandleLine(raw: Bytes)
      modifies this
      ensures lineBuf == old(lineBuf) && TallyView() == ProcessLine(old(TallyView()), raw, setup)
    {
      var line := raw;
      while |line| > 0 && line[|line| - 1] == CR
        invariant TrimCR(line) == TrimCR(raw)
      {
        line := line[..|line| - 1];
      }
      if !(|line| >= 6 && line[..6] == PREFIX) {
        return;
      }
      var payload := line[6..];
      if payload == DONE {
        if setup.anthropic {
          RecordAnthropicTokens();
        }
        return;
      }
      var evt := setup.decode(payload);
      if evt == None {
        return;
      }
      if setup.anthropic {
        HandleAnthropicEvent(evt.value);
      } else {
        HandleOpenAIEvent(evt.value);
      }
    }

    method HandleOpenAIEvent(evt: Object)
      modifies this
      ensures lineBuf == old(lineBuf) && TallyView() == OpenAIEvent(old(TallyView()), evt, setup.capture)
    {
      var (content, think) := FirstDelta(ItemsAt(evt, "choices"));
      HandleDelta(content, think);
      var usage := ObjectAt(evt, "usage");
      HandleUsage(CountAt(usage, "prompt_tokens"), CountAt(usage, "completion_tokens"));
    }

    method HandleDelta(content: Bytes, think: Bytes)
      modifies this
      ensures lineBuf == old(lineBuf) && TallyView() == OpenAIDelta(old(TallyView()), content, think, setup.capture)
    {
      hide Append;
      if !ttftDone && (content != [] || think != []) {
        ttftRecords := ttftRecords + 1;
        ttftDone := true;
      }
      if content != [] || think != [] {
        contentChars := contentChars + |content|;
        thinkChars := thinkChars + |think|;
        AppendContent(content);
      }
    }

    method HandleUsage(prompt: Option<int>, completion: Option<int>)
      modifies this
      ensures lineBuf == old(lineBuf) && TallyView() == OpenAIUsage(old(TallyView()), prompt, completion)
    {
      if prompt.Some? {
        promptToks := prompt.value;
      }
      if completion.Some? {
        completionToks := completion.value;
      }
    }

    method HandleAnthropicEvent(evt: Object)
      modifies this
      ensures lineBuf == old(lineBuf) && TallyView() == AnthropicEvent(old(TallyView()), evt, setup.capture)
    {
      hide AnthropicDelta;
      var kind := TypeOf(evt);
      if kind == Str(Ascii("message_start")) {
        var v := CountAt(ObjectAt(ObjectAt(evt, "message"), "usage"), "input_tokens");
        if v.Some? {
          anthropicInputTokens := v.value;
        }
      } else if kind == Str(Ascii("content_block_delta")) {
        HandleAnthropicDelta(ObjectAt(evt, "delta"));
      } else if kind == Str(Ascii("message_delta")) {
        var v := CountAt(ObjectAt(evt, "usage"), "output_tokens");
        if v.Some? {
          anthropicOutputTokens := v.value;
        }
      } else if kind == Str(Ascii("message_stop")) {
        RecordAnthropicTokens();
      }
    }

    method HandleAnthropicDelta(delta: Object)
      modifies this
      ensures lineBuf == old(lineBuf) && TallyView() == AnthropicDelta(old(TallyView()), delta, setup.capture)
    {
      var dtype := StringAt(delta, "type");
      if !ttftDone && (dtype == Ascii("text_delta") || dtype == Ascii("thinking_delta")) {
        ttftRecords := ttftRecords + 1;
        ttftDone := true;
      }
      if dtype == Ascii("thinking_delta") {
        thinkChars := thinkChars + |StringAt(delta, "thinking")|;
      } else if dtype == Ascii("text_delta") {
        var text := StringAt(delta, "text");
        contentChars := contentChars + |text|;
        AppendContent(text);
      }
    }

    method RecordAnthropicTokens()
      modifies this
      ensures lineBuf == old(lineBuf) && TallyView() == RecordTokens(old(TallyView()))
      ensures anthropicInputTokens <= 0 && anthropicOutputTokens <= 0
    {
      if anthropicInputTokens > 0 {
        promptToks := anthropicInputTokens;
        promptAdded := promptAdded + anthropicInputTokens;
        anthropicInputTokens := 0;
      }
      if anthropicOutputTokens > 0 {
        completionToks := anthropicOutputTokens;
        completionAdded := completionAdded + anthropicOutputTokens;
        anthropicOutputTokens := 0;
      }
    }

    method AppendContent(text: Bytes)
      modifies this
      ensures lineBuf == old(lineBuf) && TallyView() == Append(old(TallyView()), text, setup.capture)
    {
      if !setup.capture || truncated || text == [] {
        return;
      }
      var remaining := CAPTURE_LIMIT - |contentBuf|;
      if remaining <= 0 {
        truncated := true;
        return;
      }
      if |text| > remaining {
        contentBuf := contentBuf + text[..remaining];
        truncated := true;
      } else {
        contentBuf := contentBuf + text;
      }
    }
  }

  // ---- The capped buffer -----------------------------------------------------------------

  /** What a capped buffer holds, and whether it has dropped or been offered too much. */
  datatype Capped = Capped(bytes: Bytes, truncated: bool)

  function Written(c: Capped, max: int, p: Bytes): Capped {
    if c.truncated then c
    else
      var remaining := max - |c.bytes|;
      if remaining <= 0 then c.(truncated := true)
      else if |p| > remaining then Capped(c.bytes + p[..remaining], true)
      else c.(bytes := c.bytes + p)
  }

  function WrittenAll(max: int, chunks: seq<Bytes>): Capped
    decreases |chunks|
  {
    if chunks == [] then Capped([], false)
    else Written(WrittenAll(max, chunks[..|chunks| - 1]), max, chunks[|chunks| - 1])
  }

  /** The last chunk, even an empty one, was written to an already full buffer. */
  predicate LastWriteFoundFull(max: nat, chunks: seq<Bytes>) {
    chunks != [] && |Join(chunks[..|chunks| - 1])| >= max
  }

  /**
   The buffer keeps the first `max` bytes of everything written. The flag is raised exactly when
   bytes were dropped or the last write, even of nothing, found the buffer full.
   */
  lemma {:induction false} CappedKeepsPrefix(max: nat, chunks: seq<Bytes>)
    ensures WrittenAll(max, chunks).bytes == Take(Join(chunks), max)
    ensures WrittenAll(max, chunks).truncated <==> |Join(chunks)| > max || LastWriteFoundFull(max, chunks)
    decreases |chunks|
  {
    if chunks != [] {
      var front, last := chunks[..|chunks| - 1], chunks[|chunks| - 1];
      CappedKeepsPrefix(max, front);
      var c := WrittenAll(max, front);
      if c.truncated {
        assert |Join(front)| >= max;
      }
      if |Join(front)| >= max {
        assert Take(Join(front) + last, max) == Take(Join(front), max);
      } else if |c.bytes| + |last| > max {
        assert (Join(front) + last)[..max] == Join(front) + last[..max - |c.bytes|];
      }
    }
  }

  /** Chunks without bytes never happen in the program: its only writer skips empty reads. */
  ghost predicate NoneEmpty(chunks: seq<Bytes>) {
    forall i :: 0 <= i < |chunks| ==> chunks[i] != []
  }

  /** With non-empty chunks the flag is exact: raised if and only if some byte was dropped. */
  lemma FlagIsExact(max: nat, chunks: seq<Bytes>)
    requires NoneEmpty(chunks)
    ensures WrittenAll(max, chunks).truncated <==> |Join(chunks)| > max
  {
    CappedKeepsPrefix(max, chunks);
    if chunks != [] {
      assert chunks[|chunks| - 1] != [];
    }
  }

  /** An empty write to a full buffer would raise it although nothing is lost, whatever the limit. */
  lemma EmptyWriteRaisesFlag(max: nat, chunks: seq<Bytes>)
    requires |Join(chunks)| == max
    ensures WrittenAll(max, chunks + [[]]).truncated && |Join(chunks + [[]])| == max
  {
    var all := chunks + [[]];
    assert all[..|all| - 1] == chunks && all[|all| - 1] == [];
    CappedKeepsPrefix(max, all);
  }

  class CappedBuffer {
    const max: int
    var buf: Bytes
    var truncated: bool

    constructor (max: int)
      ensures this.max == max && View() == Capped([], false)
    {
      this.max, buf, truncated := max, [], false;
    }

    ghost function View(): Capped
      reads this
    {
      Capped(buf, truncated)
    }

    /** Never fails and always reports the whole chunk as written. */
    method Write(p: Bytes) returns (n: nat)
      modifies this
      ensures n == |p| && View() == Written(old(View()), max, p)
    {
      n := |p|;
      if truncated {
        return;
      }
      var remaining := max - |buf|;
      if remaining <= 0 {
        truncated := true;
        return;
      }
      if |p| > remaining {
        buf := buf + p[..remaining];
        truncated := true;
        return;
      }
      buf := buf + p;
    }
  }
}
