/**
 How a request body for an Ollama endpoint is rewritten: options flattened to the top level, the
 three-layer parameter merge, the real model, route injection, parameter translation, and options
 nested again. Bodies are JSON values.
 */
module ParamPipeline {
  import opened Common
  import opened Json
  import DeepMerge

  /** The parameters that callers may set and route profiles may override. */
  const SAMPLING: set<string> := {
    "temperature", "top_p", "top_k", "max_tokens", "max_completion_tokens", "presence_penalty",
    "frequency_penalty", "seed", "stop", "enable_thinking", "thinking_budget"}

  const THINKING: set<string> := {"enable_thinking", "thinking_budget"}

  datatype BackendType = OpenAI | Anthropic | Ollama

  /** What a route says about parameters. */
  datatype Profile = Profile(defaults: Object, clamp: Object, inject: Object)

  // ---- The stages ------------------------------------------------------------------------

  function OptionsOf(body: Object): Object {
    if "options" in body && body["options"].Obj? then body["options"].fields else map[]
  }

  /** Options move to the top level; an options value that is no object stays where it is. */
  function Flattened(body: Object): Object {
    if "options" in body && body["options"].Obj? then (body + body["options"].fields) - {"options"} else body
  }

  function CallerSampling(body: Object): Object {
    map k | k in body && k in SAMPLING :: body[k]
  }

  /** Defaults, then the caller's sampling parameters, then the clamp. */
  function Merged(p: Profile, body: Object): Object {
    p.defaults + CallerSampling(body) + p.clamp
  }

  function Deduplicated(body: Object): Object {
    if "max_tokens" in body then body - {"max_completion_tokens"} else body
  }

  function StreamUsage(body: Object): Object {
    var opts := if "stream_options" in body && body["stream_options"].Obj? then body["stream_options"].fields else map[];
    body["stream_options" := Obj(opts["include_usage" := Bool(true)])]
  }

  function ThinkingKwargs(body: Object, value: Json): Object {
    var kwargs := if "chat_template_kwargs" in body && body["chat_template_kwargs"].Obj?
                  then body["chat_template_kwargs"].fields else map[];
    body["chat_template_kwargs" := Obj(kwargs["enable_thinking" := value])]
  }

  function Truncated(v: Json): int {
    if v.Num? then (if v.n >= 0.0 then v.n.Floor else -((-v.n).Floor)) else 0
  }

  function At(body: Object, key: string): Json {
    if key in body then body[key] else Null
  }

  function Budget(body: Object, requested: Json): int {
    var budget := Truncated(requested);
    if budget != 0 then budget
    else
      var fromMax := if At(body, "max_tokens").Num? && At(body, "max_tokens").n > 0.0 then Truncated(At(body, "max_tokens")) else 0;
      if fromMax != 0 then fromMax else 8000
  }

  function AnthropicThinking(body: Object, budget: int): Object {
    body["thinking" := Obj(map["type" := Str(Ascii("enabled")), "budget_tokens" := Num(budget as real)])]
        ["temperature" := Num(1.0)]
  }

  function Translated(body: Object, backend: BackendType, streaming: bool): Object {
    var b1 := if streaming && backend.OpenAI? then StreamUsage(body) else body;
    var b2 := b1 - THINKING;
    if "enable_thinking" !in b1 then b2
    else match backend
      case OpenAI => ThinkingKwargs(b2, b1["enable_thinking"])
      case Anthropic =>
        if b1["enable_thinking"] == Bool(true) then AnthropicThinking(b2, Budget(b2, At(b1, "thinking_budget"))) else b2
      case Ollama => b2
  }

  /** The collected keys move under options; without any, the body stays as it is. */
  function Renested(body: Object, keys: set<string>): Object {
    var options := map k | k in body && k in keys :: body[k];
    if options == map[] then body - keys else (body - keys)["options" := Obj(options)]
  }

  /** Every key that flattening, the merge or injection put at the top level. */
  function Collected(body: Object, p: Profile): set<string> {
    OptionsOf(body).Keys + Merged(p, Flattened(body)).Keys + p.inject.Keys
  }

  function Prepared(body: Object, p: Profile, realModel: Bytes): Object {
    var flat := Flattened(body);
    Deduplicated(flat + Merged(p, flat))["model" := Str(realModel)]
  }

  function Injected(body: Object, p: Profile, realModel: Bytes): Object {
    DeepMerge.Merge(Prepared(body, p, realModel), p.inject)
  }

  function Rewritten(body: Object, p: Profile, realModel: Bytes, backend: BackendType, streaming: bool): Object {
    Renested(Translated(Injected(body, p, realModel), backend, streaming), Collected(body, p))
  }

  // ---- Where the sampling keys end up ----------------------------------------------------

  /** What enable_thinking is when translation looks: injected, else merged. */
  function Thinking(body: Object, p: Profile): Json {
    if "enable_thinking" in p.inject then p.inject["enable_thinking"]
    else At(Merged(p, Flattened(body)), "enable_thinking")
  }

  /** An Anthropic backend is told to think: translation then writes a temperature of its own. */
  predicate ForcesTemperature(body: Object, p: Profile, backend: BackendType) {
    backend.Anthropic? && Thinking(body, p) == Bool(true)
  }

  /** Translation keeps every value but those it writes or drops. */
  lemma TranslatedElsewhere(body: Object, backend: BackendType, streaming: bool, k: string)
    requires k !in THINKING && k !in {"stream_options", "chat_template_kwargs", "thinking", "temperature"}
    ensures k in Translated(body, backend, streaming) <==> k in body
    ensures k in body ==> Translated(body, backend, streaming)[k] == body[k]
  {
  }

  lemma TranslatedTemperature(body: Object, backend: BackendType, streaming: bool)
    ensures var forced := backend.Anthropic? && At(body, "enable_thinking") == Bool(true);
            At(Translated(body, backend, streaming), "temperature") == if forced then Num(1.0) else At(body, "temperature")
    ensures var forced := backend.Anthropic? && At(body, "enable_thinking") == Bool(true);
            "temperature" in Translated(body, backend, streaming) <==> forced || "temperature" in body
    ensures forall k :: k in THINKING ==> k !in Translated(body, backend, streaming)
  {
  }

  /** Sampling keys of the prepared body have the merged values. */
  lemma PreparedSampling(body: Object, p: Profile, realModel: Bytes, k: string)
    requires k in SAMPLING - {"max_completion_tokens"}
    ensures var m := Merged(p, Flattened(body));
            (k in Prepared(body, p, realModel) <==> k in m) && (k in m ==> Prepared(body, p, realModel)[k] == m[k])
  {
  }

  lemma InjectedThinking(body: Object, p: Profile, realModel: Bytes)
    ensures At(Injected(body, p, realModel), "enable_thinking") == Bool(true) <==> Thinking(body, p) == Bool(true)
  {
    PreparedSampling(body, p, realModel, "enable_thinking");
    DeepMerge.MergeAt(Prepared(body, p, realModel), p.inject, "enable_thinking");
  }

  /** A sampling key that injection leaves in the body is one of the collected keys. */
  lemma InjectedIsCollected(body: Object, p: Profile, realModel: Bytes, k: string)
    requires k in SAMPLING && k in Injected(body, p, realModel)
    ensures k in Collected(body, p)
  {
    DeepMerge.MergeAt(Prepared(body, p, realModel), p.inject, k);
  }

  /**
   No sampling key is left at the top level, with one exact exception: the temperature that
   translation writes for an Anthropic backend told to think, when neither caller nor route
   mentioned a temperature.
   */
  lemma NoSamplingKeyOnTop(body: Object, p: Profile, realModel: Bytes, backend: BackendType, streaming: bool, k: string)
    requires k in SAMPLING
    ensures k in Rewritten(body, p, realModel, backend, streaming)
       <==> k == "temperature" && ForcesTemperature(body, p, backend) && k !in Collected(body, p)
  {
    var b, keys := Injected(body, p, realModel), Collected(body, p);
    if k in b {
      InjectedIsCollected(body, p, realModel, k);
    }
    InjectedThinking(body, p, realModel);
    TranslatedTemperature(b, backend, streaming);
    if k != "temperature" && k !in THINKING {
      TranslatedElsewhere(b, backend, streaming, k);
    }
    RenestedTop(Translated(b, backend, streaming), keys, k);
  }

  lemma RenestedTop(body: Object, keys: set<string>, k: string)
    requires k != "options"
    ensures k in Renested(body, keys) <==> k in body && k !in keys
    ensures k in Renested(body, keys) ==> Renested(body, keys)[k] == body[k]
  {
  }

  lemma RenestedOption(body: Object, keys: set<string>, k: string)
    requires k in body && k in keys
    ensures var r := Renested(body, keys);
            "options" in r && r["options"].Obj? && k in r["options"].fields && r["options"].fields[k] == body[k]
  {
    var options := map x | x in body && x in keys :: body[x];
    assert k in options;
  }

  /** The caller's own value: an option beats a top-level parameter of the same name. */
  function Caller(body: Object, k: string): Option<Json> {
    if k in OptionsOf(body) then Some(OptionsOf(body)[k])
    else if k in body then Some(body[k]) else None
  }

  /** Clamp beats caller beats defaults for sampling keys. */
  function SamplingValue(body: Object, p: Profile, k: string): Option<Json> {
    if k in p.clamp then Some(p.clamp[k])
    else if Caller(body, k).Some? then Caller(body, k)
    else if k in p.defaults then Some(p.defaults[k]) else None
  }

  lemma MergedSampling(body: Object, p: Profile, k: string)
    requires k in SAMPLING
    ensures var m := Merged(p, Flattened(body));
            SamplingValue(body, p, k) == if k in m then Some(m[k]) else None
  {
  }

  /** Injection comes last: it is merged over whatever the three layers decided. */
  function FinalValue(body: Object, p: Profile, k: string): Option<Json> {
    match SamplingValue(body, p, k)
    case None => if k in p.inject then Some(p.inject[k]) else None
    case Some(v) => Some(if k in p.inject then DeepMerge.Combine(v, p.inject[k]) else v)
  }

  lemma InjectedSampling(body: Object, p: Profile, realModel: Bytes, k: string)
    requires k in SAMPLING - {"max_completion_tokens"}
    ensures var b := Injected(body, p, realModel);
            FinalValue(body, p, k) == if k in b then Some(b[k]) else None
  {
    MergedSampling(body, p, k);
    PreparedSampling(body, p, realModel, k);
    DeepMerge.MergeAt(Prepared(body, p, realModel), p.inject, k);
  }

  /** The body has this value under options, or nothing under that name. */
  predicate OptionIs(out: Object, k: string, value: Option<Json>) {
    match value
    case Some(v) => "options" in out && out["options"].Obj? && k in out["options"].fields && out["options"].fields[k] == v
    case None => "options" in out && out["options"].Obj? ==> k !in out["options"].fields
  }

  /**
   Each sampling key that translation leaves alone ends under options with the clamp's value if
   there is one, else the caller's, else the default's, with injection merged over it; and nowhere
   if nobody set it. The one key left out here follows in CompletionTokensPrecedence.
   */
  lemma SamplingPrecedence(body: Object, p: Profile, realModel: Bytes, backend: BackendType, streaming: bool, k: string)
    requires k in SAMPLING - THINKING - {"max_completion_tokens"}
    requires k == "temperature" ==> !ForcesTemperature(body, p, backend)
    ensures OptionIs(Rewritten(body, p, realModel, backend, streaming), k, FinalValue(body, p, k))
  {
    var b, keys := Injected(body, p, realModel), Collected(body, p);
    var t := Translated(b, backend, streaming);
    InjectedSampling(body, p, realModel, k);
    if k == "temperature" {
      InjectedThinking(body, p, realModel);
      TranslatedTemperature(b, backend, streaming);
    } else {
      TranslatedElsewhere(b, backend, streaming, k);
    }
    if FinalValue(body, p, k).Some? {
      InjectedIsCollected(body, p, realModel, k);
      RenestedOption(t, keys, k);
    } else {
      OptionsWithout(body, p, realModel, backend, streaming, k);
    }
  }

  /** A temperature that translation writes is 1, under options if anybody mentioned one, else at the top level. */
  lemma ForcedTemperature(body: Object, p: Profile, realModel: Bytes, backend: BackendType, streaming: bool)
    requires ForcesTemperature(body, p, backend)
    ensures var out := Rewritten(body, p, realModel, backend, streaming);
            if FinalValue(body, p, "temperature").Some? then OptionIs(out, "temperature", Some(Num(1.0)))
            else "temperature" in out && out["temperature"] == Num(1.0)
  {
    var b, keys := Injected(body, p, realModel), Collected(body, p);
    InjectedThinking(body, p, realModel);
    TranslatedTemperature(b, backend, streaming);
    InjectedSampling(body, p, realModel, "temperature");
    MergedSampling(body, p, "temperature");
    if "temperature" in keys {
      RenestedOption(Translated(b, backend, streaming), keys, "temperature");
    } else {
      RenestedTop(Translated(b, backend, streaming), keys, "temperature");
    }
    hide Injected, Translated, Renested;
  }

  // ---- The two names for the token limit -------------------------------------------------

  /**
   What the three layers and injection leave of max_completion_tokens: if any layer sets max_tokens,
   the layers' value is dropped, and only an injected one remains.
   */
  function FinalCompletionTokens(body: Object, p: Profile): Option<Json> {
    if SamplingValue(body, p, "max_tokens").None? then FinalValue(body, p, "max_completion_tokens")
    else if "max_completion_tokens" in p.inject then Some(p.inject["max_completion_tokens"]) else None
  }

  lemma InjectedCompletionTokens(body: Object, p: Profile, realModel: Bytes)
    ensures var b := Injected(body, p, realModel);
            FinalCompletionTokens(body, p) == if "max_completion_tokens" in b then Some(b["max_completion_tokens"]) else None
  {
    MergedSampling(body, p, "max_tokens");
    MergedSampling(body, p, "max_completion_tokens");
    PreparedCompletionTokens(body, p, realModel);
    DeepMerge.MergeAt(Prepared(body, p, realModel), p.inject, "max_completion_tokens");
    hide Prepared, Merged, SamplingValue, DeepMerge.Merge, DeepMerge.Combine;
  }

  lemma PreparedCompletionTokens(body: Object, p: Profile, realModel: Bytes)
    ensures var m, b := Merged(p, Flattened(body)), Prepared(body, p, realModel);
            && ("max_completion_tokens" in b <==> "max_tokens" !in m && "max_completion_tokens" in m)
            && ("max_completion_tokens" in b ==> b["max_completion_tokens"] == m["max_completion_tokens"])
  {
  }

  /** Where max_completion_tokens ends up, whatever the layers and injection say. */
  lemma CompletionTokensPrecedence(body: Object, p: Profile, realModel: Bytes, backend: BackendType, streaming: bool)
    ensures OptionIs(Rewritten(body, p, realModel, backend, streaming), "max_completion_tokens", FinalCompletionTokens(body, p))
  {
    var b, keys := Injected(body, p, realModel), Collected(body, p);
    InjectedCompletionTokens(body, p, realModel);
    TranslatedElsewhere(b, backend, streaming, "max_completion_tokens");
    if FinalCompletionTokens(body, p).Some? {
      InjectedIsCollected(body, p, realModel, "max_completion_tokens");
      RenestedOption(Translated(b, backend, streaming), keys, "max_completion_tokens");
    } else {
      OptionsWithout(body, p, realModel, backend, streaming, "max_completion_tokens");
    }
    hide Injected, Translated, Renested, Collected, FinalCompletionTokens;
  }

  /**
   So a clamped max_completion_tokens, which the route does not inject as well, reaches the backend
   if and only if neither defaults nor caller nor clamp set max_tokens.
   */
  lemma ClampedLimitHoldsIff(body: Object, p: Profile, realModel: Bytes, backend: BackendType, streaming: bool)
    requires "max_completion_tokens" in p.clamp && "max_completion_tokens" !in p.inject
    ensures var out, limit := Rewritten(body, p, realModel, backend, streaming), p.clamp["max_completion_tokens"];
            (OptionIs(out, "max_completion_tokens", Some(limit))
             <==> "max_tokens" !in p.defaults && Caller(body, "max_tokens").None? && "max_tokens" !in p.clamp)
    ensures Caller(body, "max_tokens").Some? ==>
              OptionIs(Rewritten(body, p, realModel, backend, streaming), "max_completion_tokens", None)
  {
    CompletionTokensPrecedence(body, p, realModel, backend, streaming);
    hide Rewritten;
  }

  /**
   After the rewrite a backend is given both limits exactly when a value for each survives, which
   takes injection: without it the two never meet, as the deduplication intends.
   */
  lemma BothLimitsIff(body: Object, p: Profile, realModel: Bytes, backend: BackendType, streaming: bool)
    ensures var out := Rewritten(body, p, realModel, backend, streaming);
            (!OptionIs(out, "max_tokens", None) && !OptionIs(out, "max_completion_tokens", None)
             <==> FinalValue(body, p, "max_tokens").Some? && FinalCompletionTokens(body, p).Some?)
    ensures FinalValue(body, p, "max_tokens").Some? && FinalCompletionTokens(body, p).Some? ==>
              "max_tokens" in p.inject || "max_completion_tokens" in p.inject
  {
    SamplingPrecedence(body, p, realModel, backend, streaming, "max_tokens");
    CompletionTokensPrecedence(body, p, realModel, backend, streaming);
    hide Rewritten;
  }

  /** A route that clamps max_completion_tokens to 100, and a caller who asks for 9999 max_tokens: the caller wins. */
  lemma CallerEscapesClamp(realModel: Bytes, backend: BackendType, streaming: bool)
    ensures var p := Profile(map[], map["max_completion_tokens" := Num(100.0)], map[]);
            var body := map["options" := Obj(map["max_tokens" := Num(9999.0)])];
            var out := Rewritten(body, p, realModel, backend, streaming);
            OptionIs(out, "max_tokens", Some(Num(9999.0))) && OptionIs(out, "max_completion_tokens", None)
  {
    var p := Profile(map[], map["max_completion_tokens" := Num(100.0)], map[]);
    var body := map["options" := Obj(map["max_tokens" := Num(9999.0)])];
    NamesDiffer();
    assert "max_tokens" in OptionsOf(body);
    SamplingPrecedence(body, p, realModel, backend, streaming, "max_tokens");
    ClampedLimitHoldsIff(body, p, realModel, backend, streaming);
    hide Rewritten;
  }

  lemma NamesDiffer()
    ensures "max_tokens" != "max_completion_tokens"
  {
    assert |"max_tokens"| != |"max_completion_tokens"|;
  }

  lemma OptionsWithout(body: Object, p: Profile, realModel: Bytes, backend: BackendType, streaming: bool, k: string)
    requires k !in Translated(Injected(body, p, realModel), backend, streaming)
    ensures var out := Rewritten(body, p, realModel, backend, streaming);
            "options" in out && out["options"].Obj? ==> k !in out["options"].fields
  {
    var b, keys := Injected(body, p, realModel), Collected(body, p);
    var t := Translated(b, backend, streaming);
    TranslatedElsewhere(b, backend, streaming, "options");
    DeepMerge.MergeAt(Prepared(body, p, realModel), p.inject, "options");
    var options := map x | x in t && x in keys :: t[x];
    if options == map[] {
      assert "options" in t ==> "options" !in options;
    }
  }

  /** Route defaults and clamps outside the sampling set override the caller, with injection merged over them. */
  lemma ProfilePrecedence(body: Object, p: Profile, realModel: Bytes, backend: BackendType, streaming: bool, k: string)
    requires k !in SAMPLING && (k in p.defaults || k in p.clamp)
    requires k !in {"model", "stream_options", "chat_template_kwargs", "thinking"}
    ensures var out := Rewritten(body, p, realModel, backend, streaming);
            var v := if k in p.clamp then p.clamp[k] else p.defaults[k];
            && "options" in out && out["options"].Obj? && k in out["options"].fields
            && out["options"].fields[k] == if k in p.inject then DeepMerge.Combine(v, p.inject[k]) else v
  {
    var b, keys := Injected(body, p, realModel), Collected(body, p);
    DeepMerge.MergeAt(Prepared(body, p, realModel), p.inject, k);
    TranslatedElsewhere(b, backend, streaming, k);
    RenestedOption(Translated(b, backend, streaming), keys, k);
  }

  /** The real model stays at the top level exactly when no option, route or injected key is called "model". */
  lemma ModelStaysOnTop(body: Object, p: Profile, realModel: Bytes, backend: BackendType, streaming: bool)
    ensures var out := Rewritten(body, p, realModel, backend, streaming);
            && ("model" in out <==> "model" !in Collected(body, p))
            && ("model" in out ==> out["model"] == Str(realModel))
  {
    var b := Injected(body, p, realModel);
    DeepMerge.MergeAt(Prepared(body, p, realModel), p.inject, "model");
    TranslatedElsewhere(b, backend, streaming, "model");
    RenestedTop(Translated(b, backend, streaming), Collected(body, p), "model");
  }

  /** Nothing in the body is a parameter that one of the stages moves or drops. */
  predicate Untouched(body: Object) {
    && (forall k :: k in body ==> k !in SAMPLING)
    && (forall k :: k in THINKING ==> k !in OptionsOf(body))
    && !("max_tokens" in OptionsOf(body) && "max_completion_tokens" in OptionsOf(body))
  }

  /**
   Round trip. With an empty profile, an Ollama backend and options that clash with no top-level
   key, flattening and nesting give back the original body, apart from the model, if and only if
   no sampling key is at the top level, no thinking parameter is an option, and the options do not
   hold both max-tokens keys.
   */
  lemma FlattenRenestIsIdentity(body: Object, realModel: Bytes, streaming: bool)
    requires "options" in body && body["options"].Obj? && OptionsOf(body) != map[]
    requires OptionsOf(body).Keys !! body.Keys && "model" !in OptionsOf(body)
    ensures Rewritten(body, Profile(map[], map[], map[]), realModel, Ollama, streaming) == body["model" := Str(realModel)]
       <==> Untouched(body)
  {
    var p := Profile(map[], map[], map[]);
    var out, want := Rewritten(body, p, realModel, Ollama, streaming), body["model" := Str(realModel)];
    if Untouched(body) {
      IdentityWhenUntouched(body, realModel, streaming);
    } else if k: string :| k in body && k in SAMPLING {
      NoSamplingKeyOnTop(body, p, realModel, Ollama, streaming, k);
      assert k in want && k !in out;
    } else if k: string :| k in THINKING && k in OptionsOf(body) {
      TranslatedTemperature(Injected(body, p, realModel), Ollama, streaming);
      OptionsWithout(body, p, realModel, Ollama, streaming, k);
      assert k in want["options"].fields;
    } else {
      var k := "max_completion_tokens";
      assert "max_tokens" in Flattened(body) + Merged(p, Flattened(body));
      assert k !in Prepared(body, p, realModel);
      DeepMerge.MergeNothing(Prepared(body, p, realModel));
      TranslatedElsewhere(Prepared(body, p, realModel), Ollama, streaming, k);
      OptionsWithout(body, p, realModel, Ollama, streaming, k);
      assert k in want["options"].fields;
    }
  }

  /** Without a profile, the stages before nesting only flatten and set the model. */
  lemma InjectedWhenUntouched(body: Object, realModel: Bytes)
    requires "options" in body && body["options"].Obj? && Untouched(body)
    ensures Injected(body, Profile(map[], map[], map[]), realModel) == Flattened(body)["model" := Str(realModel)]
  {
    var p, flat := Profile(map[], map[], map[]), Flattened(body);
    assert flat + Merged(p, flat) == flat;
    assert Deduplicated(flat) == flat;
    DeepMerge.MergeNothing(Prepared(body, p, realModel));
  }

  lemma CollectedWhenUntouched(body: Object)
    requires "options" in body && body["options"].Obj? && Untouched(body)
    ensures Collected(body, Profile(map[], map[], map[])) == OptionsOf(body).Keys
  {
    assert Merged(Profile(map[], map[], map[]), Flattened(body)).Keys <= OptionsOf(body).Keys;
  }

  lemma RenestingRestores(body: Object, model: Json)
    requires "options" in body && body["options"].Obj? && OptionsOf(body) != map[]
    requires OptionsOf(body).Keys !! body.Keys && "model" !in OptionsOf(body)
    ensures Renested(Flattened(body)["model" := model], OptionsOf(body).Keys) == body["model" := model]
  {
    var opts := OptionsOf(body);
    var b := Flattened(body)["model" := model];
    assert (map k | k in b && k in opts.Keys :: b[k]) == opts;
    assert (b - opts.Keys)["options" := Obj(opts)] == body["model" := model];
  }

  lemma IdentityWhenUntouched(body: Object, realModel: Bytes, streaming: bool)
    requires "options" in body && body["options"].Obj? && OptionsOf(body) != map[]
    requires OptionsOf(body).Keys !! body.Keys && "model" !in OptionsOf(body) && Untouched(body)
    ensures Rewritten(body, Profile(map[], map[], map[]), realModel, Ollama, streaming) == body["model" := Str(realModel)]
  {
    var b := Flattened(body)["model" := Str(realModel)];
    InjectedWhenUntouched(body, realModel);
    CollectedWhenUntouched(body);
    RenestingRestores(body, Str(realModel));
    hide Injected, Collected, Renested;
    assert b - THINKING == b;
    assert Translated(b, Ollama, streaming) == b;
  }
}
