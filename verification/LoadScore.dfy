/** The composite load score, the overload test, and the choice of a least-loaded backend. */
module LoadScore {
  import opened Common
  import opened BackendModel
  import opened FlowStats
  import opened BackendState

  // ---- As functions of a backend's state -------------------------------------------------

  function BaseLoad(b: Backend, stale: Time, now: Time): real {
    EffectiveLoad(b, stale, now)
    + if b.metricsAvailable && now - b.lastMetricsUpdate < stale && b.kvCachePct > 0.0
      then b.kvCachePct * 2.0 else 0.0
  }

  function LowSuccessPenalty(s: Snapshot): real {
    (1.0 - s.successRate) * 2.0
  }

  function TimeoutPenalty(s: Snapshot): real {
    if s.dispatched > 0 then s.timeout as real / s.dispatched as real * 3.0 else 0.0
  }

  function Composite(load: real, lowSuccess: real, timeouts: real, stalled: int): real {
    load * (1.0 + lowSuccess) * (1.0 + timeouts) + stalled as real * 3.0
  }

  function PerWeight(load: real, weight: int): real {
    if weight > 0 then load / weight as real else load
  }

  function Score(b: Backend, stale: Time, now: Time): real {
    var s := Stats(b.flow);
    PerWeight(Composite(BaseLoad(b, stale, now), LowSuccessPenalty(s), TimeoutPenalty(s), s.stalled), b.weight)
  }

  const STALL_LIMIT: int := 10

  predicate Overloaded(b: Backend, maxConcurrency: int, kvLimit: real, stale: Time, now: Time) {
    || (maxConcurrency > 0 && b.inFlight >= maxConcurrency)
    || (kvLimit > 0.0 && OverloadedByMetrics(b, kvLimit, stale, now))
    || Stats(b.flow).stalled > STALL_LIMIT
  }

  function Scores(pool: seq<Backend>, stale: Time, now: Time): (r: seq<real>)
    ensures |r| == |pool|
  {
    if pool == [] then []
    else Scores(pool[..|pool| - 1], stale, now) + [Score(pool[|pool| - 1], stale, now)]
  }

  lemma {:induction false} ScoresAt(pool: seq<Backend>, stale: Time, now: Time, i: nat)
    requires i < |pool|
    ensures Scores(pool, stale, now)[i] == Score(pool[i], stale, now)
  {
    if i < |pool| - 1 {
      ScoresAt(pool[..|pool| - 1], stale, now, i);
    }
  }

  /** The lowest of some scores. */
  function Lowest(scores: seq<real>): real
    requires |scores| > 0
  {
    if |scores| == 1 then scores[0]
    else Min(Lowest(scores[..|scores| - 1]), scores[|scores| - 1])
  }

  function Min(x: real, y: real): real {
    if y < x then y else x
  }

  lemma {:induction false} LowestIsLeast(scores: seq<real>)
    requires |scores| > 0
    ensures Lowest(scores) in scores
    ensures forall i :: 0 <= i < |scores| ==> Lowest(scores) <= scores[i]
  {
    if |scores| > 1 {
      LowestIsLeast(scores[..|scores| - 1]);
    }
  }

  /** The positions that score exactly x, in order. */
  function Ties(scores: seq<real>, x: real): seq<nat> {
    if scores == [] then []
    else
      var front := Ties(scores[..|scores| - 1], x);
      if scores[|scores| - 1] == x then front + [|scores| - 1] else front
  }

  lemma {:induction false} TiesMembers(scores: seq<real>, x: real)
    ensures forall i :: i in Ties(scores, x) <==> 0 <= i < |scores| && scores[i] == x
  {
    if scores != [] {
      TiesMembers(scores[..|scores| - 1], x);
    }
  }

  /** The position of the minimum that a hash selects: ties are spread in order, hash 0 takes the first. */
  function LeastIndex(scores: seq<real>, keyHash: nat): (i: nat)
    requires |scores| > 0
    ensures i < |scores|
  {
    var tied := Ties(scores, Lowest(scores));
    SelectedTie(scores, keyHash);
    tied[keyHash % |tied|]
  }

  lemma SelectedTie(scores: seq<real>, keyHash: nat)
    requires |scores| > 0
    ensures var tied := Ties(scores, Lowest(scores));
            && |tied| > 0
            && var i := tied[keyHash % |tied|];
               i < |scores| && forall j :: 0 <= j < |scores| ==> scores[i] <= scores[j]
  {
    LowestIsLeast(scores);
    TiesMembers(scores, Lowest(scores));
    var k :| 0 <= k < |scores| && scores[k] == Lowest(scores);
    var tied := Ties(scores, Lowest(scores));
    assert k in tied;
    assert tied[keyHash % |tied|] in tied;
  }

  lemma {:induction false} TiesPrefix(scores: seq<real>, x: real, k: nat)
    requires k < |Ties(scores, x)|
    ensures Ties(scores, x)[k] < |scores| && scores[Ties(scores, x)[k]] == x
    ensures |Ties(scores[..Ties(scores, x)[k]], x)| == k
    decreases |scores|
  {
    var front := scores[..|scores| - 1];
    if k < |Ties(front, x)| {
      TiesPrefix(front, x, k);
      assert front[..Ties(front, x)[k]] == scores[..Ties(front, x)[k]];
    }
  }

  /**
   What LeastIndex selects, without naming how: a position with a minimal score, which has exactly
   keyHash mod n such positions before it, n being their number. For hash 0 it is the first.
   */
  lemma LeastIndexIs(scores: seq<real>, keyHash: nat)
    requires |scores| > 0
    ensures var i, least := LeastIndex(scores, keyHash), Lowest(scores);
            && scores[i] == least && (forall j :: 0 <= j < |scores| ==> least <= scores[j])
            && |Ties(scores, least)| > 0
            && |Ties(scores[..i], least)| == keyHash % |Ties(scores, least)|
            && (keyHash == 0 ==> forall j :: 0 <= j < i ==> least < scores[j])
  {
    var i, least := LeastIndex(scores, keyHash), Lowest(scores);
    LowestIsLeast(scores);
    SelectedTie(scores, keyHash);
    TiesPrefix(scores, least, keyHash % |Ties(scores, least)|);
    if keyHash == 0 {
      FirstTie(scores, least, i);
    }
    hide Lowest, Ties;
  }

  /** Without a tie before position i, the scores there are higher. */
  lemma FirstTie(scores: seq<real>, least: real, i: nat)
    requires i <= |scores| && |Ties(scores[..i], least)| == 0 && forall j :: 0 <= j < |scores| ==> least <= scores[j]
    ensures forall j :: 0 <= j < i ==> least < scores[j]
  {
    TiesMembers(scores[..i], least);
    hide Ties;
    forall j | 0 <= j < i
      ensures least < scores[j]
    {
      assert scores[..i][j] == scores[j];
      assert j !in Ties(scores[..i], least);
    }
  }

  function LeastLoaded(pool: seq<Backend>, stale: Time, keyHash: nat, now: Time): Backend
    requires |pool| > 0
  {
    pool[LeastIndex(Scores(pool, stale, now), keyHash)]
  }

  /** No member of the pool scores lower than the one chosen. */
  lemma LeastLoadedIsLeast(pool: seq<Backend>, stale: Time, keyHash: nat, now: Time)
    requires |pool| > 0
    ensures LeastLoaded(pool, stale, keyHash, now) in pool
    ensures forall o :: o in pool ==> Score(LeastLoaded(pool, stale, keyHash, now), stale, now) <= Score(o, stale, now)
  {
    var scores := Scores(pool, stale, now);
    var i := LeastIndex(scores, keyHash);
    SelectedTie(scores, keyHash);
    ScoresAt(pool, stale, now, i);
    forall o | o in pool
      ensures Score(pool[i], stale, now) <= Score(o, stale, now)
    {
      var j :| 0 <= j < |pool| && pool[j] == o;
      ScoresAt(pool, stale, now, j);
    }
  }

  // ---- Bounds ----------------------------------------------------------------------------

  /**
   With balanced counters the quality factors lie between 1 and 12: a backend of positive weight
   scores at least its plain load and at most twelve times it, plus three per stalled request.
   */
  lemma ScoreBounds(b: Backend, stale: Time, now: Time)
    requires b.weight > 0 && Balanced(b.flow) && BaseLoad(b, stale, now) >= 0.0
    ensures var load, stalled := BaseLoad(b, stale, now), (b.flow.dispatched - b.flow.completed) as real;
            load + 3.0 * stalled <= b.weight as real * Score(b, stale, now) <= 12.0 * load + 3.0 * stalled
  {
    var s := Stats(b.flow);
    PenaltyRanges(b.flow);
    CompositeBounds(BaseLoad(b, stale, now), LowSuccessPenalty(s), TimeoutPenalty(s), s.stalled);
    WeightCancels(Composite(BaseLoad(b, stale, now), LowSuccessPenalty(s), TimeoutPenalty(s), s.stalled), b.weight);
  }

  lemma PenaltyRanges(f: Flow)
    requires Balanced(f)
    ensures 0.0 <= LowSuccessPenalty(Stats(f)) <= 2.0 && 0.0 <= TimeoutPenalty(Stats(f)) <= 3.0
  {
    if f.completed > 0 {
      RatioInUnit(f.success as real, f.completed as real);
    }
    if f.dispatched > 0 {
      RatioInUnit(f.timeout as real, f.dispatched as real);
    }
  }

  lemma CompositeBounds(load: real, p: real, q: real, stalled: int)
    requires 0.0 <= load && 0.0 <= p <= 2.0 && 0.0 <= q <= 3.0
    ensures load + 3.0 * stalled as real <= Composite(load, p, q, stalled) <= 12.0 * load + 3.0 * stalled as real
  {
    Widened(load, p, 2.0);
    var x := load * (1.0 + p);
    Widened(x, q, 3.0);
    assert load <= x <= 3.0 * load && x <= x * (1.0 + q) <= 4.0 * x;
  }

  lemma WeightCancels(x: real, weight: int)
    requires weight > 0
    ensures weight as real * PerWeight(x, weight) == x
  {
  }

  lemma Widened(x: real, p: real, limit: real)
    requires 0.0 <= x && 0.0 <= p <= limit
    ensures x <= x * (1.0 + p) <= x * (1.0 + limit)
  {
    assert x * (1.0 + p) == x + x * p;
    assert 0.0 <= x * p;
    assert 0.0 <= x * (limit - p);
    assert x * (limit - p) == x * limit - x * p;
  }

  // ---- What one more request does --------------------------------------------------------

  /** The backend after Incr and Dispatch of one more request. */
  function OneMore(b: Backend, now: Time): Backend {
    b.(inFlight := b.inFlight + 1, flow := Dispatched(b.flow, now))
  }

  /** Without timeouts, one more request in flight raises the score by at least three per weight. */
  lemma DispatchRaisesScore(b: Backend, stale: Time, now: Time)
    requires b.weight > 0 && Balanced(b.flow) && b.flow.timeout == 0 && BaseLoad(b, stale, now) >= 0.0
    ensures Score(OneMore(b, now), stale, now) >= Score(b, stale, now) + 3.0 / b.weight as real
  {
    var c := OneMore(b, now);
    var load, more, low := BaseLoad(b, stale, now), BaseLoad(c, stale, now), LowSuccessPenalty(Stats(b.flow));
    PenaltyRanges(b.flow);
    assert more >= load && LowSuccessPenalty(Stats(c.flow)) == low >= 0.0;
    assert TimeoutPenalty(Stats(b.flow)) == 0.0 == TimeoutPenalty(Stats(c.flow));
    assert Stats(c.flow).stalled == Stats(b.flow).stalled + 1 && c.weight == b.weight;
    hide BaseLoad, Stats, LowSuccessPenalty, TimeoutPenalty, Composite, PerWeight;
    CompositeGrows(load, more, low, Stats(b.flow).stalled);
    WeightShares(Composite(load, low, 0.0, Stats(b.flow).stalled), Composite(more, low, 0.0, Stats(c.flow).stalled), b.weight);
  }

  lemma CompositeGrows(load: real, more: real, low: real, stalled: int)
    requires load <= more && low >= 0.0
    ensures Composite(more, low, 0.0, stalled + 1) >= Composite(load, low, 0.0, stalled) + 3.0
  {
    hide Composite;
    NoTimeouts(load, low, stalled);
    NoTimeouts(more, low, stalled + 1);
    Grows(load, more, 1.0 + low);
    Adds(load * (1.0 + low), more * (1.0 + low), stalled);
  }

  lemma Adds(x: real, y: real, n: int)
    requires x <= y
    ensures y + (n + 1) as real * 3.0 >= x + n as real * 3.0 + 3.0
  {
    assert (n + 1) as real == n as real + 1.0;
  }

  lemma NoTimeouts(load: real, low: real, stalled: int)
    ensures Composite(load, low, 0.0, stalled) == load * (1.0 + low) + stalled as real * 3.0
  {
    var x := load * (1.0 + low);
    assert x * (1.0 + 0.0) == x;
  }

  lemma WeightShares(x: real, y: real, weight: int)
    requires y >= x + 3.0 && weight > 0
    ensures PerWeight(y, weight) >= PerWeight(x, weight) + 3.0 / weight as real
  {
    Shares(x, y, weight as real);
  }

  lemma Grows(x: real, y: real, f: real)
    requires x <= y && f >= 0.0
    ensures x * f <= y * f
  {
  }

  lemma Shares(x: real, y: real, w: real)
    requires y >= x + 3.0 && w > 0.0
    ensures y / w >= x / w + 3.0 / w
  {
    assert (x + 3.0) / w == x / w + 3.0 / w;
    assert y / w - (x + 3.0) / w == (y - (x + 3.0)) / w >= 0.0;
  }

  /** With timeouts it need not: the new request dilutes their share, and a busy backend can score lower with it than without. */
  lemma DispatchCanLowerScore()
    ensures var b := Strained();
            Balanced(b.flow) && Score(OneMore(b, 0), 1, 0) < Score(b, 1, 0)
  {
    var b := Strained();
    var c := OneMore(b, 0);
    assert Stats(b.flow) == Snapshot(1, 1, 0, 0, 1, 0, 0.0);
    assert Stats(c.flow) == Snapshot(2, 1, 0, 0, 1, 1, 0.0);
    assert TimeoutPenalty(Stats(b.flow)) == 3.0 && TimeoutPenalty(Stats(c.flow)) == 1.5;
    assert BaseLoad(b, 1, 0) == 100.0 == BaseLoad(c, 1, 0);
    assert Composite(100.0, 2.0, 3.0, 0) == 1200.0 && Composite(100.0, 2.0, 1.5, 1) == 753.0;
    hide Stats, BaseLoad, TimeoutPenalty, Composite;
  }

  /** A backend with a hundred running requests by its own metrics, whose only answered one timed out. */
  function Strained(): Backend {
    NewBackend("a", 1, 60).(metricsAvailable := true, running := 100,
                            flow := NewFlow(60).(dispatched := 1, completed := 1, timeout := 1))
  }

  /** An overloaded backend stays overloaded when it gets one more request. */
  lemma OverloadOnlyGrows(b: Backend, maxConcurrency: int, kvLimit: real, stale: Time, now: Time)
    requires Overloaded(b, maxConcurrency, kvLimit, stale, now)
    ensures Overloaded(OneMore(b, now), maxConcurrency, kvLimit, stale, now)
  {
  }

  // ---- The code --------------------------------------------------------------------------

  ghost function Views(pool: seq<BackendState>): (v: seq<Backend>)
    reads pool, set b | b in pool :: b.flow
    ensures |v| == |pool|
  {
    if pool == [] then []
    else
      assert forall b :: b in pool[..|pool| - 1] ==> b in pool;
      Views(pool[..|pool| - 1]) + [pool[|pool| - 1].View()]
  }

  lemma {:induction false} ViewsAt(pool: seq<BackendState>, i: nat)
    requires i < |pool|
    ensures Views(pool)[i] == pool[i].View()
  {
    if i < |pool| - 1 {
      ViewsAt(pool[..|pool| - 1], i);
    }
  }

  /** Views taken one by one are the views of the pool. */
  lemma {:induction false} ViewsAre(pool: seq<BackendState>, views: seq<Backend>)
    requires |views| == |pool|
    requires forall i {:trigger views[i]} :: 0 <= i < |pool| ==> views[i] == pool[i].View()
    ensures Views(pool) == views
  {
    if pool != [] {
      ViewsAre(pool[..|pool| - 1], views[..|pool| - 1]);
      assert views == views[..|pool| - 1] + [views[|pool| - 1]];
    }
  }

  function LoadScore(b: BackendState, stale: Time, now: Time): (load: real)
    reads b, b.flow
    ensures load == Score(b.View(), stale, now)
  {
    var effective := b.GetEffectiveLoad(stale, now);
    var isFresh := now - b.lastMetricsUpdate < stale;
    var pressure := if b.metricsAvailable && isFresh && b.kvCachePct > 0.0 then b.kvCachePct * 2.0 else 0.0;
    var stats := b.flow.GetStats();
    var load := Composite(effective + pressure, LowSuccessPenalty(stats), TimeoutPenalty(stats), stats.stalled);
    PerWeight(load, b.weight)
  }

  predicate IsOverloaded(b: BackendState, maxConcurrency: int, kvLimit: real, stale: Time, now: Time)
    reads b, b.flow
    ensures IsOverloaded(b, maxConcurrency, kvLimit, stale, now)
         == Overloaded(b.View(), maxConcurrency, kvLimit, stale, now)
  {
    if maxConcurrency > 0 && b.inFlight >= maxConcurrency then true
    else if kvLimit > 0.0 && b.IsOverloadedByMetrics(kvLimit, stale, now) then true
    else b.flow.GetStats().stalled > STALL_LIMIT
  }

  ghost predicate Increasing(t: seq<nat>) {
    forall j, k :: 0 <= j < k < |t| ==> t[j] < t[k]
  }

  /** `tied` lists, in order, exactly the positions that score x. */
  ghost predicate Lists(scores: seq<real>, x: real, tied: seq<nat>) {
    && Increasing(tied)
    && (forall k :: 0 <= k < |tied| ==> tied[k] < |scores| && scores[tied[k]] == x)
    && (forall j :: 0 <= j < |scores| && scores[j] == x ==> j in tied)
  }

  /** What the scan knows after a prefix: its lowest score and the positions that share it. */
  ghost predicate Leading(scores: seq<real>, best: real, tied: seq<nat>) {
    && |tied| > 0
    && (forall j :: 0 <= j < |scores| ==> best <= scores[j])
    && Lists(scores, best, tied)
  }

  lemma {:induction false} ListsIsTies(scores: seq<real>, x: real, tied: seq<nat>)
    requires Lists(scores, x, tied)
    ensures tied == Ties(scores, x)
  {
    var first := if tied == [] then 0 else tied[0];
    if scores != [] {
      var n := |scores| - 1;
      if scores[n] == x {
        LastTie(scores, x, tied);
        ListsIsTies(scores[..n], x, tied[..|tied| - 1]);
        assert tied == tied[..|tied| - 1] + [n];
      } else {
        NoLastTie(scores, x, tied);
        ListsIsTies(scores[..n], x, tied);
      }
    }
  }

  lemma LastTie(scores: seq<real>, x: real, tied: seq<nat>)
    requires Lists(scores, x, tied) && |scores| > 0 && scores[|scores| - 1] == x
    ensures |tied| > 0 && tied[|tied| - 1] == |scores| - 1
    ensures Lists(scores[..|scores| - 1], x, tied[..|tied| - 1])
  {
    var n := |scores| - 1;
    var k :| 0 <= k < |tied| && tied[k] == n;
    var last := tied[|tied| - 1];
    assert last <= n && k == |tied| - 1;
    var front := tied[..k];
    forall j | 0 <= j < n && scores[..n][j] == x
      ensures j in front
    {
      assert scores[j] == x;
      var m :| 0 <= m < |tied| && tied[m] == j;
      assert front[m] == j;
    }
    forall m | 0 <= m < |front|
      ensures front[m] < n && scores[..n][front[m]] == x
    {
      assert tied[m] < tied[k];
    }
  }

  lemma NoLastTie(scores: seq<real>, x: real, tied: seq<nat>)
    requires Lists(scores, x, tied) && |scores| > 0 && scores[|scores| - 1] != x
    ensures Lists(scores[..|scores| - 1], x, tied)
  {
    var n := |scores| - 1;
    forall m | 0 <= m < |tied|
      ensures tied[m] < n && scores[..n][tied[m]] == x
    {
      assert scores[tied[m]] == x;
    }
    forall j | 0 <= j < n && scores[..n][j] == x
      ensures j in tied
    {
      assert scores[j] == x;
    }
  }

  lemma LeadingIsLeast(scores: seq<real>, best: real, tied: seq<nat>, keyHash: nat)
    requires Leading(scores, best, tied) && |scores| > 0
    ensures LeastIndex(scores, keyHash) == tied[keyHash % |tied|]
  {
    assert scores[tied[0]] == best;
    LowestIsLeast(scores);
    ListsIsTies(scores, best, tied);
  }

  lemma LeadingOne(x: real)
    ensures Leading([x], x, [0])
  {
  }

  lemma LeadingNext(scores: seq<real>, best: real, tied: seq<nat>, x: real)
    requires Leading(scores, best, tied)
    ensures x < best ==> Leading(scores + [x], x, [|scores|])
    ensures x == best ==> Leading(scores + [x], best, tied + [|scores|])
    ensures x > best ==> Leading(scores + [x], best, tied)
  {
    if x == best {
      var t := tied + [|scores|];
      assert t[|tied|] == |scores|;
      forall j | 0 <= j < |scores| && scores[j] == x
        ensures j in t
      {
        assert j in tied;
      }
    }
  }

  /** Scores read one by one from the pool are the scores of its views. */
  lemma ScoreTable(pool: seq<BackendState>, scores: seq<real>, stale: Time, now: Time)
    requires |scores| == |pool|
    requires forall i {:trigger scores[i]} :: 0 <= i < |pool| ==> scores[i] == LoadScore(pool[i], stale, now)
    ensures scores == Scores(Views(pool), stale, now)
  {
    forall i | 0 <= i < |pool|
      ensures scores[i] == Scores(Views(pool), stale, now)[i]
    {
      ScoresAt(Views(pool), stale, now, i);
      ViewsAt(pool, i);
    }
  }

  lemma FirstOrSpread(keyHash: nat, n: nat)
    requires n > 0
    ensures 0 <= keyHash % n < n && (n == 1 || keyHash == 0 ==> keyHash % n == 0)
  {
  }

  /** One pass over the pool, keeping the lowest score seen and the backends that share it. */
  method PickLeastLoaded(pool: seq<BackendState>, stale: Time, keyHash: nat, now: Time) returns (r: BackendState)
    requires |pool| > 0
    ensures r in pool && r.View() == LeastLoaded(Views(pool), stale, keyHash, now)
  {
    hide Views, Score, LoadScore, Leading, LeastIndex;
    var bestScore := LoadScore(pool[0], stale, now);
    var tied := [pool[0]];
    ghost var scores, at: seq<nat> := [bestScore], [0];
    LeadingOne(bestScore);
    for i := 1 to |pool|
      invariant |scores| == i
      invariant forall j {:trigger scores[j]} :: 0 <= j < i ==> scores[j] == LoadScore(pool[j], stale, now)
      invariant Leading(scores, bestScore, at)
      invariant |at| == |tied| > 0 && forall j :: 0 <= j < |at| ==> at[j] < i && tied[j] == pool[at[j]]
    {
      var score := LoadScore(pool[i], stale, now);
      LeadingNext(scores, bestScore, at, score);
      scores := scores + [score];
      if score < bestScore {
        bestScore := score;
        tied, at := [pool[i]], [i];
      } else if score == bestScore {
        tied, at := tied + [pool[i]], at + [i];
      }
    }
    FirstOrSpread(keyHash, |tied|);
    r := if |tied| == 1 || keyHash == 0 then tied[0] else tied[keyHash % |tied|];
    ghost var k := keyHash % |tied|;
    hide LoadScore, Views;
    assert r == tied[k] == pool[at[k]];
    assert LeastIndex(scores, keyHash) == at[k] by {
      LeadingIsLeast(scores, bestScore, at, keyHash);
    }
    ScoreTable(pool, scores, stale, now);
    ViewsAt(pool, at[k]);
  }
}
