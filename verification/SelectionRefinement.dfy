/**
 A selection that nothing interrupts reads every backend in one and the same state, and its steps
 compute what SelectorModel computes from the whole pool at once.
 */
module SelectionRefinement {
  import opened Common
  import opened AffinityModel
  import opened BackendModel
  import opened LoadScore
  import opened SelectorModel
  import opened BalancerSystem
  import opened BalancerRefinement

  // ---- Readings in one state -------------------------------------------------------------

  function Readings(r: nat, n: nat): seq<Action> {
    if n == 0 then [] else [SelectAdvance(r)] + Readings(r, n - 1)
  }

  /** n readings in the state s take the selection's progress to p. */
  ghost predicate Goes(c: Config, s: Sys, q: Selecting, n: nat, p: Progress)
    requires q.group in c.groups && Known(s, q.pool)
    decreases n
  {
    if n == 0 then q.progress == p
    else Fits(s, q) && Reading(q.progress) && Goes(c, s, q.(progress := Advanced(c, s, q)), n - 1, p)
  }

  lemma {:induction false} GoesJoin(c: Config, s: Sys, q: Selecting, n: nat, p: Progress, m: nat, p2: Progress)
    requires q.group in c.groups && Known(s, q.pool) && Goes(c, s, q, n, p) && Goes(c, s, q.(progress := p), m, p2)
    ensures Goes(c, s, q, n + m, p2)
    decreases n
  {
    if n == 0 {
      assert q.(progress := p) == q;
    } else {
      GoesJoin(c, s, q.(progress := Advanced(c, s, q)), n - 1, p, m, p2);
    }
    hide Advanced, Fits;
  }

  lemma GoesOnce(c: Config, s: Sys, q: Selecting)
    requires q.group in c.groups && Known(s, q.pool) && Fits(s, q) && Reading(q.progress)
    ensures Goes(c, s, q, 1, Advanced(c, s, q))
  {
    assert Goes(c, s, q.(progress := Advanced(c, s, q)), 0, Advanced(c, s, q));
    hide Advanced, Fits;
  }

  /** The state with selection r as given. */
  function With(s: Sys, r: nat, q: Selecting): Sys {
    s.(selections := s.selections[r := q])
  }

  /** Running selections do not show in what a reading finds. */
  lemma ReadingIgnoresSelections(c: Config, s: Sys, r: nat, q: Selecting, u: Selecting)
    requires q.group in c.groups && Known(s, q.pool) && Fits(s, q) && Reading(q.progress)
    ensures Known(With(s, r, u), q.pool) && Fits(With(s, r, u), q)
    ensures Advanced(c, With(s, r, u), q) == Advanced(c, s, q)
  {
    hide Pick, Best, LeastIndex, KeyHash, Score, Overloaded, FailingNow, RampingNow;
  }

  lemma ReadingIsStep(c: Config, s: Sys, r: nat, q: Selecting)
    requires q.group in c.groups && Known(s, q.pool) && |q.pool| > 0 && Fits(s, q) && Reading(q.progress) && r !in s.requests
    ensures Enabled(c, With(s, r, q), SelectAdvance(r))
    ensures Next(c, With(s, r, q), SelectAdvance(r)) == With(s, r, q.(progress := Advanced(c, s, q)))
  {
    ReadingIgnoresSelections(c, s, r, q, q);
    AdvanceIs(c, With(s, r, q), r);
    assert s.selections[r := q][r := q.(progress := Advanced(c, s, q))] == s.selections[r := q.(progress := Advanced(c, s, q))];
    hide Advanced, Next, Known, Fits;
  }

  lemma {:induction false} ReadingsAreSteps(c: Config, s: Sys, r: nat, q: Selecting, n: nat, p: Progress)
    requires q.group in c.groups && Known(s, q.pool) && |q.pool| > 0 && r !in s.requests && Goes(c, s, q, n, p)
    ensures Steps(c, With(s, r, q), Readings(r, n), With(s, r, q.(progress := p)))
    decreases n
  {
    hide Next, Enabled, Advanced, Fits, Known, With;
    if n == 0 {
      assert q.(progress := p) == q;
    } else {
      ReadingIsStep(c, s, r, q);
      ReadingsAreSteps(c, s, r, q.(progress := Advanced(c, s, q)), n - 1, p);
      assert q.(progress := Advanced(c, s, q)).(progress := p) == q.(progress := p);
      StepThen(c, With(s, r, q), SelectAdvance(r), Readings(r, n - 1), With(s, r, q.(progress := p)));
    }
  }

  // ---- The pin ---------------------------------------------------------------------------

  /** A live pin whose backend may serve leads to trust in it. */
  lemma PinIsTrusted(c: Config, s: Sys, q: Selecting, id: string) returns (n: nat)
    requires q.group in c.groups && Known(s, q.pool) && q.progress.Started?
    requires LookedUp(c, s, q) == Some(id) && id in q.pool && !FailingNow(s.backends[id], s.now)
    requires var p := c.groups[q.group].policy; !Overloaded(s.backends[id], p.maxConcurrency, p.kvLimit, StaleFor(p, q.override), s.now)
    ensures n == 3 && Goes(c, s, q, n, Trusting(id))
  {
    n := 3;
    var q1, q2 := q.(progress := Looked(Some(id))), q.(progress := Cleared(id));
    GoesOnce(c, s, q);
    GoesOnce(c, s, q1);
    GoesOnce(c, s, q2);
    GoesJoin(c, s, q, 1, Looked(Some(id)), 1, Cleared(id));
    GoesJoin(c, s, q, 2, Cleared(id), 1, Trusting(id));
    hide Goes, LookedUp, FailingNow, Overloaded;
  }

  /** Otherwise the selection begins to sort its pool. */
  lemma PinIsLeft(c: Config, s: Sys, q: Selecting) returns (n: nat)
    requires q.group in c.groups && Known(s, q.pool) && q.progress.Started?
    requires var found, p := LookedUp(c, s, q), c.groups[q.group].policy;
             found.None? || found.value !in q.pool || FailingNow(s.backends[found.value], s.now)
             || Overloaded(s.backends[found.value], p.maxConcurrency, p.kvLimit, StaleFor(p, q.override), s.now)
    ensures Goes(c, s, q, n, Sorting([], false))
  {
    var found := LookedUp(c, s, q);
    var q1 := q.(progress := Looked(found));
    GoesOnce(c, s, q);
    GoesOnce(c, s, q1);
    n := 2;
    if found.Some? && found.value in q.pool && !FailingNow(s.backends[found.value], s.now) {
      var q2 := q.(progress := Cleared(found.value));
      GoesOnce(c, s, q2);
      GoesJoin(c, s, q, 1, Looked(found), 1, Cleared(found.value));
      GoesJoin(c, s, q, 2, Cleared(found.value), 1, Sorting([], false));
      n := 3;
    } else {
      GoesJoin(c, s, q, 1, Looked(found), 1, Sorting([], false));
    }
    hide Goes, LookedUp, FailingNow, Overloaded;
  }

  // ---- Sorting ---------------------------------------------------------------------------

  /** The classes of the pool's members in state s. */
  function ClassesNow(s: Sys, pool: seq<string>): (r: seq<Class>)
    requires Known(s, pool)
    ensures |r| == |pool|
  {
    seq(|pool|, i requires 0 <= i < |pool| => ClassOf(s.backends[pool[i]], s.now))
  }

  lemma SortsOne(c: Config, s: Sys, q: Selecting, classes: seq<Class>) returns (n: nat)
    requires q.group in c.groups && Known(s, q.pool) && q.progress == Sorting(classes, false) && |classes| < |q.pool|
    ensures Goes(c, s, q, n, Sorted(q, classes + [ClassOf(s.backends[q.pool[|classes|]], s.now)]))
  {
    var b := s.backends[q.pool[|classes|]];
    GoesOnce(c, s, q);
    n := 1;
    if !FailingNow(b, s.now) {
      GoesOnce(c, s, q.(progress := Sorting(classes, true)));
      GoesJoin(c, s, q, 1, Sorting(classes, true), 1, Sorted(q, classes + [ClassOf(b, s.now)]));
      n := 2;
    }
    hide Goes, FailingNow, RampingNow;
  }

  lemma {:induction false} SortsAll(c: Config, s: Sys, q: Selecting, k: nat) returns (n: nat)
    requires q.group in c.groups && Known(s, q.pool) && k < |q.pool|
    requires q.progress == Sorting(ClassesNow(s, q.pool)[..k], false)
    ensures Goes(c, s, q, n, Scoring(ClassesNow(s, q.pool), []))
    decreases |q.pool| - k
  {
    var all := ClassesNow(s, q.pool);
    n := SortsOne(c, s, q, all[..k]);
    assert all[..k] + [ClassOf(s.backends[q.pool[k]], s.now)] == all[..k + 1];
    hide Goes, ClassOf;
    if k + 1 == |q.pool| {
      assert all[..k + 1] == all;
    } else {
      var m := SortsAll(c, s, q.(progress := Sorting(all[..k + 1], false)), k + 1);
      GoesJoin(c, s, q, n, Sorting(all[..k + 1], false), m, Scoring(all, []));
      n := n + m;
    }
  }

  // ---- Scoring ---------------------------------------------------------------------------

  /** The scores of the given backends in state s. */
  function ScoresNow(s: Sys, ids: seq<string>, stale: Time): (r: seq<real>)
    requires Known(s, ids)
    ensures |r| == |ids|
  {
    seq(|ids|, i requires 0 <= i < |ids| => Score(s.backends[ids[i]], stale, s.now))
  }

  lemma CandidatesKnown(s: Sys, pool: seq<string>, classes: seq<Class>)
    requires Known(s, pool) && |classes| == |pool|
    ensures Known(s, CandidateIds(pool, classes))
  {
    var ids := CandidateIds(pool, classes);
    forall i | 0 <= i < |ids|
      ensures ids[i] in s.backends
    {
      PickFrom(pool, classes, Best(classes), i);
    }
    hide Pick, Best;
  }

  lemma {:induction false} ScoresAll(c: Config, s: Sys, q: Selecting, classes: seq<Class>, k: nat) returns (n: nat)
    requires q.group in c.groups && Known(s, q.pool) && |classes| == |q.pool| && Known(s, CandidateIds(q.pool, classes))
    requires k < |CandidateIds(q.pool, classes)|
    requires var scores := ScoresNow(s, CandidateIds(q.pool, classes), StaleFor(c.groups[q.group].policy, q.override));
             q.progress == Scoring(classes, scores[..k])
    ensures var ids := CandidateIds(q.pool, classes);
            var scores := ScoresNow(s, ids, StaleFor(c.groups[q.group].policy, q.override));
            Goes(c, s, q, n, Picked(ids[LeastIndex(scores, KeyHash(q.key))]))
    decreases |CandidateIds(q.pool, classes)| - k
  {
    var ids := CandidateIds(q.pool, classes);
    var scores := ScoresNow(s, ids, StaleFor(c.groups[q.group].policy, q.override));
    GoesOnce(c, s, q);
    assert scores[..k] + [NextScore(c, s, q)] == scores[..k + 1];
    hide Goes, Score, LeastIndex, KeyHash, CandidateIds, NextScore;
    n := 1;
    if k + 1 == |ids| {
      assert scores[..k + 1] == scores;
    } else {
      var m := ScoresAll(c, s, q.(progress := Scoring(classes, scores[..k + 1])), classes, k + 1);
      GoesJoin(c, s, q, 1, Scoring(classes, scores[..k + 1]), m, Picked(ids[LeastIndex(scores, KeyHash(q.key))]));
      n := n + m;
    }
  }

  // ---- The whole fresh choice ------------------------------------------------------------

  lemma {:induction false} OfClassIsPick(pool: seq<Backend>, classes: seq<Class>, c: Class, now: Time)
    requires |classes| == |pool| && forall i :: 0 <= i < |pool| ==> classes[i] == ClassOf(pool[i], now)
    ensures OfClass(pool, c, now) == Pick(pool, classes, c)
  {
    if pool != [] {
      OfClassIsPick(pool[..|pool| - 1], classes[..|pool| - 1], c, now);
    }
  }

  lemma CandidatesArePick(pool: seq<Backend>, classes: seq<Class>, now: Time)
    requires |classes| == |pool| > 0 && forall i :: 0 <= i < |pool| ==> classes[i] == ClassOf(pool[i], now)
    ensures Candidates(pool, now) == Pick(pool, classes, Best(classes))
  {
    OfClassIsPick(pool, classes, Ready, now);
    OfClassIsPick(pool, classes, Ramping, now);
    OfClassIsPick(pool, classes, Failing, now);
    PickedIff(pool, classes, Ready);
    PickedIff(pool, classes, Ramping);
    hide OfClass, Pick, ClassOf;
  }

  lemma PickedIff<T>(items: seq<T>, classes: seq<Class>, c: Class)
    requires |items| == |classes|
    ensures Pick(items, classes, c) != [] <==> c in classes
  {
    if c in classes {
      var i :| 0 <= i < |classes| && classes[i] == c;
      PickHas(items, classes, c, i);
    } else if Pick(items, classes, c) != [] {
      PickFrom(items, classes, c, 0);
    }
    hide Pick;
  }

  /** The backends of the picked ids are the picked backends. */
  lemma {:induction false} PickMaps(s: Sys, pool: seq<string>, classes: seq<Class>, c: Class)
    requires Known(s, pool) && |classes| == |pool|
    ensures Known(s, Pick(pool, classes, c))
    ensures PoolViews(s, Pick(pool, classes, c)) == Pick(PoolViews(s, pool), classes, c)
  {
    if pool != [] {
      var n := |pool| - 1;
      PickMaps(s, pool[..n], classes[..n], c);
      assert PoolViews(s, pool)[..n] == PoolViews(s, pool[..n]);
    }
  }

  lemma ScoresMap(s: Sys, ids: seq<string>, stale: Time)
    requires Known(s, ids)
    ensures ScoresNow(s, ids, stale) == Scores(PoolViews(s, ids), stale, s.now)
  {
    var views := PoolViews(s, ids);
    forall i | 0 <= i < |ids|
      ensures |Scores(views, stale, s.now)| == |ids| && Scores(views, stale, s.now)[i] == Score(views[i], stale, s.now)
    {
      ScoresAt(views, stale, s.now, i);
    }
    if ids == [] {
      assert Scores(views, stale, s.now) == [];
    }
    hide Score;
  }

  /** What the readings choose in one state is the model's fresh choice. */
  lemma ChoiceIsFresh(s: Sys, pool: seq<string>, key: Key, stale: Time)
    requires Known(s, pool) && |pool| > 0 && Named(s)
    ensures var ids := CandidateIds(pool, ClassesNow(s, pool));
            && Known(s, ids) && |ids| > 0
            && ids[LeastIndex(ScoresNow(s, ids, stale), KeyHash(key))] == Fresh(PoolViews(s, pool), key, stale, s.now).id
            && s.backends[ids[LeastIndex(ScoresNow(s, ids, stale), KeyHash(key))]] == Fresh(PoolViews(s, pool), key, stale, s.now)
  {
    var classes, views := ClassesNow(s, pool), PoolViews(s, pool);
    var ids := CandidateIds(pool, classes);
    CandidatesArePick(views, classes, s.now);
    PickMaps(s, pool, classes, Best(classes));
    BestIsPopulated(pool, classes);
    ScoresMap(s, ids, stale);
    var i := LeastIndex(ScoresNow(s, ids, stale), KeyHash(key));
    assert PoolViews(s, ids)[i] == s.backends[ids[i]];
    hide Pick, Best, Score, Scores, KeyHash, LeastIndex, ClassOf, Candidates, ScoresNow;
  }

  lemma PickIsWeighed(c: Config, s: Sys, q: Selecting, b: string) returns (n: nat)
    requires q.group in c.groups && Known(s, q.pool) && b in s.backends && q.progress == Picked(b)
    ensures Goes(c, s, q, n, Writing(b, q.key != [] && ClassOf(s.backends[b], s.now).Ready?))
  {
    GoesOnce(c, s, q);
    n := 1;
    if q.key != [] && !RampingNow(s.backends[b], s.now) {
      GoesOnce(c, s, q.(progress := Steady(b)));
      GoesJoin(c, s, q, 1, Steady(b), 1, Writing(b, q.key != [] && ClassOf(s.backends[b], s.now).Ready?));
      n := 2;
    }
    hide Goes, FailingNow, RampingNow;
  }

  lemma PicksFresh(c: Config, s: Sys, q: Selecting) returns (n: nat)
    requires q.group in c.groups && Known(s, q.pool) && |q.pool| > 0 && Named(s) && q.progress == Sorting([], false)
    ensures Goes(c, s, q, n, Picked(Fresh(PoolViews(s, q.pool), q.key, StaleFor(c.groups[q.group].policy, q.override), s.now).id))
  {
    var stale, classes := StaleFor(c.groups[q.group].policy, q.override), ClassesNow(s, q.pool);
    ChoiceIsFresh(s, q.pool, q.key, stale);
    assert classes[..0] == [];
    var scores := ScoresNow(s, CandidateIds(q.pool, classes), stale);
    assert scores[..0] == [];
    hide *;
    n := SortsAll(c, s, q, 0);
    var m := ScoresAll(c, s, q.(progress := Scoring(classes, [])), classes, 0);
    GoesJoin(c, s, q, n, Scoring(classes, []), m, Picked(Fresh(PoolViews(s, q.pool), q.key, stale, s.now).id));
    n := n + m;
  }

  /** From sorting to the decision whether to pin. */
  lemma ChoosesFresh(c: Config, s: Sys, q: Selecting) returns (n: nat)
    requires q.group in c.groups && Known(s, q.pool) && |q.pool| > 0 && Named(s) && q.progress == Sorting([], false)
    ensures var b := Fresh(PoolViews(s, q.pool), q.key, StaleFor(c.groups[q.group].policy, q.override), s.now);
            Goes(c, s, q, n, Writing(b.id, q.key != [] && ClassOf(b, s.now).Ready?))
  {
    var stale := StaleFor(c.groups[q.group].policy, q.override);
    var b := Fresh(PoolViews(s, q.pool), q.key, stale, s.now);
    ChoiceIsFresh(s, q.pool, q.key, stale);
    hide *;
    n := PicksFresh(c, s, q);
    var k := PickIsWeighed(c, s, q.(progress := Picked(b.id)), b.id);
    GoesJoin(c, s, q, n, Picked(b.id), k, Writing(b.id, q.key != [] && ClassOf(b, s.now).Ready?));
    n := n + k;
  }

  // ---- The selection ---------------------------------------------------------------------

  /** Looking for the pinned id in the pool is looking for it among the pool's backends. */
  lemma {:induction false} FoundAmongViews(s: Sys, pool: seq<string>, id: string)
    requires Known(s, pool) && Named(s)
    ensures FindByID(PoolViews(s, pool), id) == if id in pool then Some(s.backends[id]) else None
  {
    if pool != [] {
      FoundAmongViews(s, pool[1..], id);
      assert PoolViews(s, pool)[1..] == PoolViews(s, pool[1..]);
      assert s.backends[pool[0]].id == pool[0];
      assert pool == [pool[0]] + pool[1..];
    }
  }

  /** Where the readings lead: to the honoured pin, or to the fresh choice. */
  function Verdict(c: Config, s: Sys, q: Selecting): Progress
    requires q.group in c.groups && Known(s, q.pool) && |q.pool| > 0
  {
    var p, views := c.groups[q.group].policy, PoolViews(s, q.pool);
    var stale := StaleFor(p, q.override);
    match Honoured(views, PinsIn(s, q.group), q.key, p, stale, s.now)
    case Some(b) => Trusting(b.id)
    case None =>
      var b := Fresh(views, q.key, stale, s.now);
      Writing(b.id, q.key != [] && ClassOf(b, s.now).Ready?)
  }

  lemma ReadsVerdict(c: Config, s: Sys, q: Selecting) returns (n: nat)
    requires q.group in c.groups && Known(s, q.pool) && |q.pool| > 0 && Named(s) && q.progress.Started?
    ensures Goes(c, s, q, n, Verdict(c, s, q))
  {
    var p := c.groups[q.group].policy;
    var found := LookedUp(c, s, q);
    if found.Some? {
      FoundAmongViews(s, q.pool, found.value);
    }
    hide Goes, Fresh, FindByID, Overloaded, FailingNow, ClassOf, AffinityModel.Get, PoolViews;
    if found.Some? && found.value in q.pool && !FailingNow(s.backends[found.value], s.now)
       && !Overloaded(s.backends[found.value], p.maxConcurrency, p.kvLimit, StaleFor(p, q.override), s.now) {
      n := PinIsTrusted(c, s, q, found.value);
      assert s.backends[found.value].id == found.value;
    } else {
      n := PinIsLeft(c, s, q);
      var m := ChoosesFresh(c, s, q.(progress := Sorting([], false)));
      GoesJoin(c, s, q, n, Sorting([], false), m, Verdict(c, s, q));
      n := n + m;
    }
  }

  lemma StartIs(c: Config, s: Sys, r: nat, g: string, key: Key, pool: seq<string>, override: Time)
    requires r !in s.selections && r !in s.requests && g in c.groups && SomeMembers(c, s, g, pool)
    ensures Enabled(c, s, SelectStart(r, g, key, pool, override))
    ensures Next(c, s, SelectStart(r, g, key, pool, override)) == With(s, r, Selecting(g, key, pool, override, Started))
  {
    hide SomeMembers;
  }

  lemma TouchIs(c: Config, s: Sys, r: nat)
    requires InProgress(c, s, r) && s.selections[r].progress.Trusting?
    ensures var q := s.selections[r];
            && Enabled(c, s, SelectTouch(r))
            && Next(c, s, SelectTouch(r)) ==
                 s.(pins := s.pins[q.group := AffinityModel.Touch(PinsIn(s, q.group), q.key, s.now)],
                    selections := s.selections - {r}, requests := s.requests[r := Request(q.progress.b, Selected)])
  {
    hide AffinityModel.Touch;
  }

  lemma PinIs(c: Config, s: Sys, r: nat)
    requires InProgress(c, s, r) && s.selections[r].progress.Writing?
    ensures var q := s.selections[r];
            && Enabled(c, s, SelectPin(r))
            && Next(c, s, SelectPin(r)) ==
                 s.(pins := if q.progress.pin
                            then s.pins[q.group := AffinityModel.Set(PinsIn(s, q.group), q.key, q.progress.b, s.now, c.groups[q.group].policy.maxSize)]
                            else s.pins,
                    selections := s.selections - {r}, requests := s.requests[r := Request(q.progress.b, Selected)])
  {
    hide AffinityModel.Set;
  }

  lemma VerdictFits(c: Config, s: Sys, q: Selecting)
    requires q.group in c.groups && Known(s, q.pool) && |q.pool| > 0 && Named(s)
    ensures Fits(s, q.(progress := Verdict(c, s, q)))
    ensures var p := c.groups[q.group].policy;
            Verdict(c, s, q).b == Chosen(PoolViews(s, q.pool), PinsIn(s, q.group), q.key, p, StaleFor(p, q.override), s.now).id
  {
    var p := c.groups[q.group].policy;
    var views, pins, stale := PoolViews(s, q.pool), PinsIn(s, q.group), StaleFor(p, q.override);
    var b := Chosen(views, pins, q.key, p, stale, s.now);
    ChosenIsSafe(views, pins, q.key, p, stale, s.now);
    var k :| 0 <= k < |views| && views[k] == b;
    assert s.backends[q.pool[k]].id == q.pool[k];
    hide Honoured, Fresh, ClassOf;
  }

  /** What the selection's last step makes of the pins. */
  function Pinned(c: Config, s: Sys, q: Selecting): map<string, seq<Pin>>
    requires q.group in c.groups && Known(s, q.pool) && |q.pool| > 0
  {
    match Verdict(c, s, q)
    case Trusting(_) => s.pins[q.group := AffinityModel.Touch(PinsIn(s, q.group), q.key, s.now)]
    case Writing(b, pin) =>
      if pin then s.pins[q.group := AffinityModel.Set(PinsIn(s, q.group), q.key, b, s.now, c.groups[q.group].policy.maxSize)] else s.pins
    case _ => s.pins
  }

  lemma PinnedIs(c: Config, s: Sys, q: Selecting)
    requires q.group in c.groups && Known(s, q.pool) && |q.pool| > 0
    ensures var p, t := c.groups[q.group].policy, Pinned(c, s, q);
            && t.Keys <= s.pins.Keys + {q.group}
            && forall h :: (if h in t then t[h] else [])
                 == if h == q.group then PinsAfter(PoolViews(s, q.pool), PinsIn(s, h), q.key, p, StaleFor(p, q.override), s.now)
                    else PinsIn(s, h)
  {
    hide Honoured, Fresh, ClassOf, AffinityModel.Set, AffinityModel.Touch, PoolViews;
  }

  /** The selection's last step, once its readings are done. */
  function Finish(r: nat, p: Progress): Action {
    if p.Trusting? then SelectTouch(r) else SelectPin(r)
  }

  lemma FinishIs(c: Config, s: Sys, r: nat, q: Selecting)
    requires q.group in c.groups && Known(s, q.pool) && |q.pool| > 0 && Named(s) && r !in s.selections && r !in s.requests
    ensures var p, u := Verdict(c, s, q), With(s, r, q.(progress := Verdict(c, s, q)));
            && Enabled(c, u, Finish(r, p))
            && Next(c, u, Finish(r, p)) == s.(pins := Pinned(c, s, q), requests := s.requests[r := Request(p.b, Selected)])
  {
    VerdictFits(c, s, q);
    var p := Verdict(c, s, q);
    var u := With(s, r, q.(progress := p));
    assert InProgress(c, u, r);
    assert u.selections - {r} == s.selections;
    assert p.Trusting? || p.Writing?;
    if p.Trusting? {
      TouchIs(c, u, r);
    } else {
      PinIs(c, u, r);
    }
    hide Next, Enabled, AffinityModel.Set, AffinityModel.Touch, Verdict, InProgress, Chosen;
  }

  /** The steps of a selection that nothing interrupts: its start, n readings, and its last step. */
  function SelectionSteps(r: nat, g: string, key: Key, pool: seq<string>, override: Time, n: nat, p: Progress): seq<Action> {
    [SelectStart(r, g, key, pool, override)] + (Readings(r, n) + [Finish(r, p)])
  }

  lemma {:induction false} StepsJoin(c: Config, s: Sys, a: seq<Action>, u: Sys, b: seq<Action>, t: Sys)
    requires Steps(c, s, a, u) && Steps(c, u, b, t)
    ensures Steps(c, s, a + b, t)
    decreases |a|
  {
    if a == [] {
      assert a + b == b;
    } else {
      StepsJoin(c, Next(c, s, a[0]), a[1..], u, b, t);
      assert (a + b)[1..] == a[1..] + b;
    }
    hide Next, Enabled;
  }

  /** The uninterrupted Select returns the model's choice and leaves the model's pins. */
  lemma SelectIsSteps(c: Config, s: Sys, r: nat, g: string, key: Key, pool: seq<string>, override: Time) returns (t: Sys, n: nat)
    requires r !in s.selections && r !in s.requests && g in c.groups && SomeMembers(c, s, g, pool) && Named(s)
    ensures var p, views, pins := c.groups[g].policy, PoolViews(s, pool), PinsIn(s, g);
            var stale, q := StaleFor(p, override), Selecting(g, key, pool, override, Started);
            && Steps(c, s, SelectionSteps(r, g, key, pool, override, n, Verdict(c, s, q)), t)
            && t == s.(pins := t.pins, requests := s.requests[r := Request(Chosen(views, pins, key, p, stale, s.now).id, Selected)])
            && t.pins.Keys <= s.pins.Keys + {g}
            && (forall h :: PinsIn(t, h) == if h == g then PinsAfter(views, pins, key, p, stale, s.now) else PinsIn(s, h))
  {
    var q := Selecting(g, key, pool, override, Started);
    StartIs(c, s, r, g, key, pool, override);
    var start, u := SelectStart(r, g, key, pool, override), With(s, r, q);
    hide Next, Enabled, Steps, Goes, SomeMembers, Honoured, Verdict, Pinned, Fresh, AffinityModel.Set, AffinityModel.Touch, PinsAfter, Chosen, PoolViews, Finish, Named, With;
    n := ReadsVerdict(c, s, q);
    var p := Verdict(c, s, q);
    ReadingsAreSteps(c, s, r, q, n, p);
    var v := With(s, r, q.(progress := p));
    FinishIs(c, s, r, q);
    VerdictFits(c, s, q);
    PinnedIs(c, s, q);
    t := Next(c, v, Finish(r, p));
    StepOnce(c, v, Finish(r, p));
    StepsJoin(c, u, Readings(r, n), v, [Finish(r, p)], t);
    StepThen(c, s, start, Readings(r, n) + [Finish(r, p)], t);
  }
}
