/** The request body of an Ollama endpoint, rewritten in place stage by stage. */
module OllamaRequest {
  import opened Common
  import opened Json
  import opened ParamPipeline
  import DeepMerge

  /** The first map with the second copied over it, except for the keys still to do. */
  ghost function Overlaid<K, V>(base: map<K, V>, from: map<K, V>, todo: set<K>): map<K, V> {
    base + (from - todo)
  }

  lemma CopyOneMore<K, V>(base: map<K, V>, from: map<K, V>, todo: set<K>, k: K)
    requires k in todo && k in from
    ensures Overlaid(base, from, todo - {k}) == Overlaid(base, from, todo)[k := from[k]]
  {
    var was, now := base + (from - todo), base + (from - (todo - {k}));
    assert now.Keys == was[k := from[k]].Keys;
  }

  lemma CopyEnds<K, V>(base: map<K, V>, from: map<K, V>, todo: set<K>)
    requires from.Keys <= todo
    ensures Overlaid(base, from, todo) == base
    ensures Overlaid(base, from, {}) == base + from
  {
    assert from - todo == map[];
    assert from - {} == from;
  }

  lemma CopySkips<K, V>(base: map<K, V>, from: map<K, V>, todo: set<K>, k: K)
    requires k !in from
    ensures Overlaid(base, from, todo - {k}) == Overlaid(base, from, todo)
  {
    assert from - (todo - {k}) == from - todo;
  }

  ghost function Noted<K>(known: set<K>, all: set<K>, todo: set<K>): set<K> {
    known + (all - todo)
  }

  lemma NoteOneMore<K>(known: set<K>, all: set<K>, todo: set<K>, k: K)
    requires k in todo && k in all
    ensures Noted(known, all, todo - {k}) == Noted(known, all, todo) + {k}
  {
  }

  lemma NoteEnds<K>(known: set<K>, all: set<K>)
    ensures Noted(known, all, all) == known && Noted(known, all, {}) == known + all
  {
  }

  /** Copies every pair of one map into another and adds its keys to those known. */
  method Overlay<K(==), V>(base: map<K, V>, from: map<K, V>, known: set<K>) returns (out: map<K, V>, keys: set<K>)
    ensures out == base + from
    ensures keys == known + from.Keys
  {
    out, keys := base, known;
    var todo := from.Keys;
    CopyEnds(base, from, todo);
    NoteEnds(known, from.Keys);
    hide Overlaid, Noted;
    while todo != {}
      invariant todo <= from.Keys
      invariant out == Overlaid(base, from, todo)
      invariant keys == Noted(known, from.Keys, todo)
      decreases |todo|
    {
      var k :| k in todo;
      CopyOneMore(base, from, todo, k);
      NoteOneMore(known, from.Keys, todo, k);
      out := out[k := from[k]];
      keys := keys + {k};
      todo := todo - {k};
    }
  }

  /** Copies the caller's sampling parameters alone. */
  method OverlaySampling(base: Object, body: Object) returns (out: Object)
    ensures out == base + CallerSampling(body)
  {
    out := base;
    ghost var caller := CallerSampling(body);
    assert forall k :: k in caller <==> k in body && k in SAMPLING;
    assert forall k :: k in caller ==> caller[k] == body[k];
    var todo := body.Keys;
    CopyEnds(base, caller, todo);
    hide CallerSampling, Overlaid;
    while todo != {}
      invariant todo <= body.Keys
      invariant out == Overlaid(base, caller, todo)
      decreases |todo|
    {
      var k :| k in todo;
      if k in SAMPLING {
        CopyOneMore(base, caller, todo, k);
        out := out[k := body[k]];
      } else {
        CopySkips(base, caller, todo, k);
      }
      todo := todo - {k};
    }
  }

  /** Defaults, then the caller's sampling parameters, then the clamp. */
  method MergeParams(defaults: Object, body: Object, clamp: Object) returns (out: Object)
    ensures out == Merged(Profile(defaults, clamp, map[]), body)
  {
    var keys: set<string>;
    out, keys := Overlay(map[], defaults, {});
    assert out == defaults;
    out := OverlaySampling(out, body);
    out, keys := Overlay(out, clamp, keys);
  }

  class Request {
    var body: Object
    var ollamaKeys: set<string>

    constructor (body: Object)
      ensures this.body == body && ollamaKeys == {}
    {
      this.body := body;
      ollamaKeys := {};
    }

    method FlattenOptions()
      modifies this
      ensures body == Flattened(old(body))
      ensures ollamaKeys == OptionsOf(old(body)).Keys
    {
      ollamaKeys := {};
      if "options" in body && body["options"].Obj? {
        body, ollamaKeys := Overlay(body, body["options"].fields, ollamaKeys);
        body := body - {"options"};
      }
    }

    method ApplyParams(params: Object, realModel: Bytes)
      modifies this
      ensures body == Deduplicated(old(body) + params)["model" := Str(realModel)]
      ensures ollamaKeys == old(ollamaKeys) + params.Keys
    {
      body, ollamaKeys := Overlay(body, params, ollamaKeys);
      if "max_tokens" in body {
        body := body - {"max_completion_tokens"};
      }
      body := body["model" := Str(realModel)];
    }

    /** Injected keys count as collected once they are in the body. */
    method CollectKeys(keys: set<string>)
      modifies `ollamaKeys
      ensures ollamaKeys == old(ollamaKeys) + (keys * body.Keys)
    {
      var todo := keys;
      while todo != {}
        invariant todo <= keys
        invariant forall x :: x in ollamaKeys <==> x in old(ollamaKeys) || (x in keys && x !in todo && x in body)
        decreases |todo|
      {
        var k :| k in todo;
        if k in body {
          ollamaKeys := ollamaKeys + {k};
        }
        todo := todo - {k};
      }
    }

    method ApplyInjection(inject: Object)
      modifies this
      ensures body == DeepMerge.Merge(old(body), inject)
      ensures ollamaKeys == old(ollamaKeys) + inject.Keys
    {
      DeepMerge.MergeNothing(body);
      if |inject| > 0 {
        body := DeepMerge.DeepMergeInto(body, Obj(inject));
        assert inject.Keys <= body.Keys by {
          DeepMerge.KeysOfMerge(old(body), inject);
        }
        hide DeepMerge.Merge, DeepMerge.Combine;
        CollectKeys(inject.Keys);
      }
    }

    method RequestUsage()
      modifies `body
      ensures body == StreamUsage(old(body))
    {
      var opts := map[];
      if "stream_options" in body && body["stream_options"].Obj? {
        opts := body["stream_options"].fields;
      }
      opts := opts["include_usage" := Bool(true)];
      body := body["stream_options" := Obj(opts)];
    }

    method SetTemplateKwargs(enableThinking: Json)
      modifies `body
      ensures body == ThinkingKwargs(old(body), enableThinking)
    {
      var kwargs := map[];
      if "chat_template_kwargs" in body && body["chat_template_kwargs"].Obj? {
        kwargs := body["chat_template_kwargs"].fields;
      }
      kwargs := kwargs["enable_thinking" := enableThinking];
      body := body["chat_template_kwargs" := Obj(kwargs)];
    }

    method EnableThinking(thinkingBudget: Json)
      modifies `body
      ensures body == AnthropicThinking(old(body), Budget(old(body), thinkingBudget))
    {
      var budget := Truncated(thinkingBudget);
      if budget == 0 && "max_tokens" in body && body["max_tokens"].Num? && body["max_tokens"].n > 0.0 {
        budget := Truncated(body["max_tokens"]);
      }
      if budget == 0 {
        budget := 8000;
      }
      body := body["thinking" := Obj(map["type" := Str(Ascii("enabled")), "budget_tokens" := Num(budget as real)])];
      body := body["temperature" := Num(1.0)];
    }

    method TranslateParams(backend: BackendType, streaming: bool)
      modifies `body
      ensures body == Translated(old(body), backend, streaming)
    {
      hide StreamUsage, ThinkingKwargs, AnthropicThinking, Budget;
      if streaming && backend.OpenAI? {
        RequestUsage();
      }
      var hasThinking, enableThinking := "enable_thinking" in body, At(body, "enable_thinking");
      var thinkingBudget := At(body, "thinking_budget");
      ghost var b1 := body;
      body := body - {"enable_thinking"};
      body := body - {"thinking_budget"};
      assert body == b1 - THINKING;
      if hasThinking {
        match backend {
          case OpenAI => SetTemplateKwargs(enableThinking);
          case Anthropic =>
            if enableThinking == Bool(true) {
              EnableThinking(thinkingBudget);
            }
          case Ollama =>
        }
      }
    }

    method RenestOptions()
      modifies `body
      ensures body == Renested(old(body), ollamaKeys)
    {
      if |ollamaKeys| > 0 {
        var options: Object, todo := map[], ollamaKeys;
        while todo != {}
          invariant todo <= ollamaKeys
          invariant body == old(body) - (ollamaKeys - todo)
          invariant options == map k | k in old(body) && k in ollamaKeys - todo :: old(body)[k]
          decreases |todo|
        {
          var k :| k in todo;
          if k in body {
            options := options[k := body[k]];
            body := body - {k};
          }
          todo := todo - {k};
        }
        assert ollamaKeys - {} == ollamaKeys;
        if |options| > 0 {
          body := body["options" := Obj(options)];
        }
      } else {
        assert body - ollamaKeys == body;
      }
    }

    /** The stages in the order in which a request passes them. */
    method Rewrite(p: Profile, realModel: Bytes, backend: BackendType, streaming: bool)
      modifies this
      ensures body == Rewritten(old(body), p, realModel, backend, streaming)
    {
      FlattenOptions();
      var params := MergeParams(p.defaults, body, p.clamp);
      ApplyParams(params, realModel);
      ApplyInjection(p.inject);
      TranslateParams(backend, streaming);
      RenestOptions();
    }
  }
}
