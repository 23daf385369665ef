/**
 Structural signals of a request: code fences and fenced JSON blocks, counted by left-to-right
 scans. Trimming of white space is a parameter.
 */
module CodeFences {
  import opened Common
  import opened Json
  import opened AffinityKey

  const FENCE: Bytes := Ascii("```")
  const JSON_FENCE: Bytes := Ascii("```json")

  predicate MatchAt(s: Bytes, i: nat, pat: Bytes) {
    i + |pat| <= |s| && s[i..i + |pat|] == pat
  }

  /** strings.Index: the first occurrence. */
  function Find(s: Bytes, pat: Bytes): (r: Option<nat>)
    decreases |s|
  {
    if MatchAt(s, 0, pat) then Some(0)
    else if s == [] then None
    else match Find(s[1..], pat) case Some(i) => Some(i + 1) case None => None
  }

  lemma MatchShift(s: Bytes, k: nat, j: nat, pat: Bytes)
    requires k <= |s|
    ensures MatchAt(s[k..], j, pat) <==> MatchAt(s, k + j, pat)
  {
    if k + j + |pat| <= |s| {
      assert s[k..][j..j + |pat|] == s[k + j..k + j + |pat|];
    }
  }

  lemma {:induction false} FindIsFirst(s: Bytes, pat: Bytes)
    ensures match Find(s, pat)
            case Some(i) => MatchAt(s, i, pat) && forall j: nat :: j < i ==> !MatchAt(s, j, pat)
            case None => forall j :: !MatchAt(s, j, pat)
    decreases |s|
  {
    if !MatchAt(s, 0, pat) && s != [] {
      FindIsFirst(s[1..], pat);
      forall j: nat | j > 0
        ensures MatchAt(s, j, pat) <==> MatchAt(s[1..], j - 1, pat)
      {
        MatchShift(s, 1, j - 1, pat);
      }
    }
  }

  /** strings.Count for the fence: occurrences taken greedily from the left, without overlap. */
  function Count(s: Bytes): nat
    decreases |s|
  {
    match Find(s, FENCE)
    case None => 0
    case Some(i) => FindIsFirst(s, FENCE); 1 + Count(s[i + 3..])
  }

  function CountFences(s: Bytes): nat {
    Count(s) / 2
  }

  /** Blocks that open with a json fence, close with a fence, and hold more than 50 trimmed bytes. */
  function CountBlocks(s: Bytes, trim: Bytes -> Bytes): nat
    decreases |s|
  {
    match Find(s, JSON_FENCE)
    case None => 0
    case Some(i) =>
      FindIsFirst(s, JSON_FENCE);
      var rest := s[i + 7..];
      match Find(rest, FENCE)
      case None => 0
      case Some(end) =>
        FindIsFirst(rest, FENCE);
        (if |trim(rest[..end])| > 50 then 1 else 0) + CountBlocks(rest[end + 3..], trim)
  }

  // ---- Greedy is maximal -----------------------------------------------------------------

  /** Cutting at an occurrence, or anywhere before one, loses at most the occurrences cut through. */
  lemma {:induction false} CountAfter(s: Bytes, j: nat)
    requires MatchAt(s, j, FENCE)
    ensures Count(s) >= 1 + Count(s[j + 3..])
    decreases |s|
  {
    FindIsFirst(s, FENCE);
    var i := Find(s, FENCE).value;
    assert i <= j;
    assert s[i + 3..][j - i..] == s[j + 3..];
    CountSuffix(s[i + 3..], j - i);
  }

  lemma {:induction false} CountSuffix(s: Bytes, k: nat)
    requires k <= |s|
    ensures Count(s) >= Count(s[k..])
    decreases |s|
  {
    FindIsFirst(s[k..], FENCE);
    if Find(s[k..], FENCE).Some? {
      var j := Find(s[k..], FENCE).value;
      MatchShift(s, k, j, FENCE);
      var i := FirstAtMost(s, k + j);
      CountSuffix(s[i + 3..], k + j - i);
      assert s[i + 3..][k + j - i..] == s[k..][j + 3..] by {
        assert i + 3 + (k + j - i) == k + (j + 3);
      }
    }
  }

  lemma FirstAtMost(s: Bytes, j: nat) returns (i: nat)
    requires MatchAt(s, j, FENCE)
    ensures i <= j && MatchAt(s, i, FENCE) && Count(s) == 1 + Count(s[i + 3..])
  {
    FindIsFirst(s, FENCE);
    i := Find(s, FENCE).value;
  }

  /** Positions of occurrences that do not overlap, from left to right. */
  ghost predicate Disjoint(s: Bytes, ps: seq<nat>) {
    && (forall k :: 0 <= k < |ps| ==> MatchAt(s, ps[k], FENCE))
    && (forall k :: 0 < k < |ps| ==> ps[k - 1] + 3 <= ps[k])
  }

  /** No choice of non-overlapping occurrences is longer than the greedy one. */
  lemma {:induction false} GreedyIsMaximal(s: Bytes, ps: seq<nat>)
    requires Disjoint(s, ps)
    ensures |ps| <= Count(s)
    decreases |ps|
  {
    if ps != [] {
      var cut := ps[0] + 3;
      var rest := seq(|ps| - 1, k requires 0 <= k < |ps| - 1 => if ps[k + 1] >= cut then ps[k + 1] - cut else 0);
      forall k | 0 < k < |ps|
        ensures ps[k] >= cut
      {
        Spread(s, ps, k);
      }
      forall k | 0 <= k < |rest|
        ensures MatchAt(s[cut..], rest[k], FENCE)
      {
        assert MatchAt(s, ps[k + 1], FENCE);
        MatchShift(s, cut, rest[k], FENCE);
      }
      assert Disjoint(s[cut..], rest) by {
        forall k | 0 < k < |rest|
          ensures rest[k - 1] + 3 <= rest[k]
        {
          assert ps[(k + 1) - 1] + 3 <= ps[k + 1];
        }
      }
      GreedyIsMaximal(s[cut..], rest);
      CountAfter(s, ps[0]);
    }
  }

  lemma {:induction false} Spread(s: Bytes, ps: seq<nat>, k: nat)
    requires Disjoint(s, ps) && 0 < k < |ps|
    ensures ps[k] >= ps[0] + 3
    decreases k
  {
    assert ps[k - 1] + 3 <= ps[k];
    if k > 1 {
      Spread(s, ps, k - 1);
    }
  }

  // ---- Blocks and fences -----------------------------------------------------------------

  lemma JsonFenceIsFence(s: Bytes, i: nat)
    requires MatchAt(s, i, JSON_FENCE)
    ensures MatchAt(s, i, FENCE)
  {
    assert JSON_FENCE[..3] == FENCE;
    assert s[i..i + 3] == s[i..i + 7][..3];
  }

  /** Every block uses up two fences of its own. */
  lemma {:induction false} TwoFencesPerBlock(s: Bytes, trim: Bytes -> Bytes)
    ensures 2 * CountBlocks(s, trim) <= Count(s)
    decreases |s|
  {
    FindIsFirst(s, JSON_FENCE);
    if Find(s, JSON_FENCE).Some? {
      var i := Find(s, JSON_FENCE).value;
      var rest := s[i + 7..];
      FindIsFirst(rest, FENCE);
      if Find(rest, FENCE).Some? {
        var end := Find(rest, FENCE).value;
        TwoFencesPerBlock(rest[end + 3..], trim);
        CountAfter(rest, end);
        JsonFenceIsFence(s, i);
        CountAfter(s, i);
        assert s[i + 3..][4..] == rest;
        CountSuffix(s[i + 3..], 4);
      }
    }
  }

  lemma BlocksAtMostFences(s: Bytes, trim: Bytes -> Bytes)
    ensures CountBlocks(s, trim) <= CountFences(s)
  {
    TwoFencesPerBlock(s, trim);
  }

  // ---- The code --------------------------------------------------------------------------

  method CountJSONBlocks(text: Bytes, trim: Bytes -> Bytes) returns (count: nat)
    ensures count == CountBlocks(text, trim) <= CountFences(text)
  {
    BlocksAtMostFences(text, trim);
    hide CountFences;
    count := 0;
    var rest := text;
    while true
      invariant count + CountBlocks(rest, trim) == CountBlocks(text, trim)
      decreases |rest|
    {
      FindIsFirst(rest, JSON_FENCE);
      var idx := Find(rest, JSON_FENCE);
      if idx == None {
        break;
      }
      ghost var before := rest;
      rest := rest[idx.value + 7..];
      FindIsFirst(rest, FENCE);
      var end := Find(rest, FENCE);
      if end == None {
        assert CountBlocks(before, trim) == 0;
        return;
      }
      var block := trim(rest[..end.value]);
      if |block| > 50 {
        count := count + 1;
      }
      rest := rest[end.value + 3..];
    }
  }

  /** The texts that are analysed: a top-level system string, then every message's text. */
  function Texts(body: Object): seq<Bytes> {
    (if "system" in body && body["system"].Str? then [body["system"].s] else []) + MessageTexts(ItemsOf(body))
  }

  function ItemsOf(body: Object): seq<Json> {
    if "messages" in body && body["messages"].Arr? then body["messages"].items else []
  }

  function MessageTexts(messages: seq<Json>): seq<Bytes>
    decreases |messages|
  {
    if messages == [] then []
    else
      var front, last := MessageTexts(messages[..|messages| - 1]), messages[|messages| - 1];
      if last.Obj? then front + [ContentText(last.fields)] else front
  }

  /** Sizes, fences and blocks added up over some texts. */
  datatype Totals = Totals(chars: nat, fences: nat, blocks: nat)

  function TotalsOf(texts: seq<Bytes>, trim: Bytes -> Bytes): Totals
    decreases |texts|
  {
    if texts == [] then Totals(0, 0, 0)
    else Added(TotalsOf(texts[..|texts| - 1], trim), texts[|texts| - 1], trim)
  }

  function Added(t: Totals, text: Bytes, trim: Bytes -> Bytes): Totals {
    Totals(t.chars + |text|, t.fences + CountFences(text), t.blocks + CountBlocks(text, trim))
  }

  lemma TotalsNext(texts: seq<Bytes>, text: Bytes, trim: Bytes -> Bytes)
    ensures TotalsOf(texts + [text], trim) == Added(TotalsOf(texts, trim), text, trim)
  {
    assert (texts + [text])[..|texts|] == texts;
  }

  lemma {:induction false} BlocksAtMostFencesInAll(texts: seq<Bytes>, trim: Bytes -> Bytes)
    ensures TotalsOf(texts, trim).blocks <= TotalsOf(texts, trim).fences
    decreases |texts|
  {
    if texts != [] {
      BlocksAtMostFencesInAll(texts[..|texts| - 1], trim);
      BlocksAtMostFences(texts[|texts| - 1], trim);
    }
  }

  method AddText(t: Totals, text: Bytes, trim: Bytes -> Bytes) returns (u: Totals)
    ensures u == Added(t, text, trim)
  {
    var blocks := CountJSONBlocks(text, trim);
    u := Totals(t.chars + |text|, t.fences + CountFences(text), t.blocks + blocks);
  }

  /** The system prompt, when it is a string, is counted first. */
  method AnalyzeSystem(body: Object, trim: Bytes -> Bytes) returns (totals: Totals, ghost texts: seq<Bytes>)
    ensures texts == if "system" in body && body["system"].Str? then [body["system"].s] else []
    ensures totals == TotalsOf(texts, trim)
  {
    hide CountBlocks, CountFences, Added;
    totals, texts := Totals(0, 0, 0), [];
    if "system" in body && body["system"].Str? {
      TotalsNext(texts, body["system"].s, trim);
      totals := AddText(totals, body["system"].s, trim);
      texts := [] + [body["system"].s];
    }
  }

  /** Then the messages, in order. */
  method AnalyzeMessages(messages: seq<Json>, trim: Bytes -> Bytes, start: Totals, ghost system: seq<Bytes>)
    returns (totals: Totals)
    requires start == TotalsOf(system, trim)
    ensures totals == TotalsOf(system + MessageTexts(messages), trim)
  {
    hide CountBlocks, CountFences, Added, TotalsOf;
    totals := start;
    ghost var texts := system;
    for i := 0 to |messages|
      invariant texts == system + MessageTexts(messages[..i])
      invariant totals == TotalsOf(texts, trim)
    {
      assert messages[..i + 1][..i] == messages[..i];
      if messages[i].Obj? {
        var text := StringifyContent(messages[i].fields);
        TotalsNext(texts, text, trim);
        totals := AddText(totals, text, trim);
        texts := texts + [text];
      }
    }
    assert messages[..|messages|] == messages;
  }

  /** For every request body the JSON blocks are at most the fence pairs. */
  method Analyze(body: Object, trim: Bytes -> Bytes) returns (messageCount: nat, totals: Totals)
    ensures messageCount == |ItemsOf(body)|
    ensures totals == TotalsOf(Texts(body), trim)
    ensures totals.blocks <= totals.fences
  {
    hide MessageTexts, TotalsOf;
    var messages := ItemsOf(body);
    messageCount := |messages|;
    ghost var system;
    totals, system := AnalyzeSystem(body, trim);
    totals := AnalyzeMessages(messages, trim, totals, system);
    BlocksAtMostFencesInAll(Texts(body), trim);
  }
}
