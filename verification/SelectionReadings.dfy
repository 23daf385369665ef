/**
 What a running selection knows: everything it acts on it has read, one backend at a time, in
 earlier steps of its own.
 */
module SelectionReadings {
  import opened Common
  import opened BackendModel
  import opened SelectorModel
  import opened LoadScore
  import opened BalancerSystem

  // ---- Readings --------------------------------------------------------------------------

  /** In step a selection r reads whether backend id is failing. */
  ghost predicate Reads(s: Sys, a: Action, r: nat, id: string) {
    && a == SelectAdvance(r) && r in s.selections && id in s.backends && id in s.selections[r].pool
    && var q := s.selections[r];
       (q.progress == Looked(Some(id))
        || (q.progress.Sorting? && !q.progress.clear && |q.progress.classes| < |q.pool| && q.pool[|q.progress.classes|] == id))
  }

  /** In step a selection r reads whether backend id, which it found not failing, is ramping up. */
  ghost predicate ReadsRamp(s: Sys, a: Action, r: nat, id: string) {
    && a == SelectAdvance(r) && r in s.selections && id in s.backends
    && var q := s.selections[r];
       q.progress.Sorting? && q.progress.clear && |q.progress.classes| < |q.pool| && q.pool[|q.progress.classes|] == id
  }

  /** In step a selection r reads the score of its candidate number k, which is backend id. */
  ghost predicate ReadsScore(s: Sys, a: Action, r: nat, id: string, k: nat) {
    && a == SelectAdvance(r) && r in s.selections && id in s.backends
    && var q := s.selections[r];
       && q.progress.Scoring? && |q.progress.scores| == k && |q.progress.classes| == |q.pool|
       && k < |CandidateIds(q.pool, q.progress.classes)| && CandidateIds(q.pool, q.progress.classes)[k] == id
  }

  /** Before step n selection r read that the backend was, or was not, failing. */
  ghost predicate ReadAs(ss: seq<Sys>, acts: seq<Action>, n: nat, r: nat, id: string, failing: bool)
    requires n <= |acts| < |ss|
  {
    exists d :: 0 <= d < n && Reads(ss[d], acts[d], r, id) && (FailingNow(ss[d].backends[id], ss[d].now) <==> failing)
  }

  /** Before step n it read whether the backend was ramping up. */
  ghost predicate ReadRamp(ss: seq<Sys>, acts: seq<Action>, n: nat, r: nat, id: string, ramping: bool)
    requires n <= |acts| < |ss|
  {
    exists d :: 0 <= d < n && ReadsRamp(ss[d], acts[d], r, id) && (RampingNow(ss[d].backends[id], ss[d].now) <==> ramping)
  }

  /** Before step n it read x as the score of its candidate number k. */
  ghost predicate ReadScore(ss: seq<Sys>, acts: seq<Action>, n: nat, r: nat, id: string, k: nat, stale: Time, x: real)
    requires n <= |acts| < |ss|
  {
    exists d :: 0 <= d < n && ReadsScore(ss[d], acts[d], r, id, k) && x == Score(ss[d].backends[id], stale, ss[d].now)
  }

  /** Before step n it read that the backend belongs to the class. */
  ghost predicate ReadClass(ss: seq<Sys>, acts: seq<Action>, n: nat, r: nat, id: string, c: Class)
    requires n <= |acts| < |ss|
  {
    ReadAs(ss, acts, n, r, id, c.Failing?) && (!c.Failing? ==> ReadRamp(ss, acts, n, r, id, c.Ramping?))
  }

  ghost predicate ClassesRead(ss: seq<Sys>, acts: seq<Action>, n: nat, r: nat, pool: seq<string>, classes: seq<Class>)
    requires n <= |acts| < |ss| && |classes| <= |pool|
  {
    forall k :: 0 <= k < |classes| ==> ReadClass(ss, acts, n, r, pool[k], classes[k])
  }

  ghost predicate ScoresRead(ss: seq<Sys>, acts: seq<Action>, n: nat, r: nat, ids: seq<string>, stale: Time, scores: seq<real>)
    requires n <= |acts| < |ss| && |scores| <= |ids|
  {
    forall k :: 0 <= k < |scores| ==> ReadScore(ss, acts, n, r, ids[k], k, stale, scores[k])
  }

  /** Before step n it read every member of its pool as failing. */
  ghost predicate AllReadFailing(ss: seq<Sys>, acts: seq<Action>, n: nat, r: nat, pool: seq<string>)
    requires n <= |acts| < |ss|
  {
    forall k :: 0 <= k < |pool| ==> ReadAs(ss, acts, n, r, pool[k], true)
  }

  // ---- What is read stays read -----------------------------------------------------------

  lemma ReadAsLater(ss: seq<Sys>, acts: seq<Action>, n: nat, m: nat, r: nat, id: string, failing: bool)
    requires n <= m <= |acts| < |ss| && ReadAs(ss, acts, n, r, id, failing)
    ensures ReadAs(ss, acts, m, r, id, failing)
  {
    hide Reads, FailingNow;
  }

  lemma AllFailingLater(ss: seq<Sys>, acts: seq<Action>, n: nat, m: nat, r: nat, pool: seq<string>)
    requires n <= m <= |acts| < |ss| && AllReadFailing(ss, acts, n, r, pool)
    ensures AllReadFailing(ss, acts, m, r, pool)
  {
    forall k | 0 <= k < |pool|
      ensures ReadAs(ss, acts, m, r, pool[k], true)
    {
      ReadAsLater(ss, acts, n, m, r, pool[k], true);
    }
    hide ReadAs;
  }

  lemma ReadClassLater(ss: seq<Sys>, acts: seq<Action>, n: nat, m: nat, r: nat, id: string, c: Class)
    requires n <= m <= |acts| < |ss| && ReadClass(ss, acts, n, r, id, c)
    ensures ReadClass(ss, acts, m, r, id, c)
  {
    ReadAsLater(ss, acts, n, m, r, id, c.Failing?);
    hide Reads, ReadAs, ReadsRamp, FailingNow, RampingNow;
  }

  lemma ClassesLater(ss: seq<Sys>, acts: seq<Action>, n: nat, m: nat, r: nat, pool: seq<string>, classes: seq<Class>)
    requires n <= m <= |acts| < |ss| && |classes| <= |pool| && ClassesRead(ss, acts, n, r, pool, classes)
    ensures ClassesRead(ss, acts, m, r, pool, classes)
  {
    forall k | 0 <= k < |classes|
      ensures ReadClass(ss, acts, m, r, pool[k], classes[k])
    {
      ReadClassLater(ss, acts, n, m, r, pool[k], classes[k]);
    }
    hide ReadClass;
  }

  lemma ReadScoreLater(ss: seq<Sys>, acts: seq<Action>, n: nat, m: nat, r: nat, id: string, k: nat, stale: Time, x: real)
    requires n <= m <= |acts| < |ss| && ReadScore(ss, acts, n, r, id, k, stale, x)
    ensures ReadScore(ss, acts, m, r, id, k, stale, x)
  {
    hide ReadsScore, Score;
  }

  lemma ScoresLater(ss: seq<Sys>, acts: seq<Action>, n: nat, m: nat, r: nat, ids: seq<string>, stale: Time, scores: seq<real>)
    requires n <= m <= |acts| < |ss| && |scores| <= |ids| && ScoresRead(ss, acts, n, r, ids, stale, scores)
    ensures ScoresRead(ss, acts, m, r, ids, stale, scores)
  {
    forall k | 0 <= k < |scores|
      ensures ReadScore(ss, acts, m, r, ids[k], k, stale, scores[k])
    {
      ReadScoreLater(ss, acts, n, m, r, ids[k], k, stale, scores[k]);
    }
    hide ReadScore;
  }

  // ---- What stands behind a selection's progress -----------------------------------------

  /** The backend a selection has settled on; its last step returns it. */
  function Decided(p: Progress): Option<string> {
    match p
    case Trusting(b) => Some(b)
    case Picked(b) => Some(b)
    case Steady(b) => Some(b)
    case Writing(b, _) => Some(b)
    case _ => None
  }

  /**
   A selection that trusts a pin has read its backend as not failing. One that is choosing has read
   the classes and scores it holds. One that has chosen has read its choice as not failing, or
   every member of its pool as failing.
   */
  ghost predicate Backed(c: Config, ss: seq<Sys>, acts: seq<Action>, n: nat, r: nat, q: Selecting)
    requires n <= |acts| < |ss|
  {
    match q.progress
    case Started => true
    case Looked(_) => true
    case Cleared(b) => ReadAs(ss, acts, n, r, b, false)
    case Trusting(b) => ReadAs(ss, acts, n, r, b, false)
    case Sorting(classes, clear) =>
      |classes| < |q.pool| && ClassesRead(ss, acts, n, r, q.pool, classes)
      && (clear ==> ReadAs(ss, acts, n, r, q.pool[|classes|], false))
    case Scoring(classes, scores) =>
      && |classes| == |q.pool| && ClassesRead(ss, acts, n, r, q.pool, classes)
      && |scores| <= |CandidateIds(q.pool, classes)| && q.group in c.groups
      && ScoresRead(ss, acts, n, r, CandidateIds(q.pool, classes), StaleFor(c.groups[q.group].policy, q.override), scores)
    case Picked(b) => ChoiceBacked(ss, acts, n, r, q.pool, b)
    case Steady(b) => ChoiceBacked(ss, acts, n, r, q.pool, b)
    case Writing(b, _) => ChoiceBacked(ss, acts, n, r, q.pool, b)
  }

  ghost predicate ChoiceBacked(ss: seq<Sys>, acts: seq<Action>, n: nat, r: nat, pool: seq<string>, b: string)
    requires n <= |acts| < |ss|
  {
    ReadAs(ss, acts, n, r, b, false) || AllReadFailing(ss, acts, n, r, pool)
  }

  lemma ChoiceBackedLater(ss: seq<Sys>, acts: seq<Action>, n: nat, m: nat, r: nat, pool: seq<string>, b: string)
    requires n <= m <= |acts| < |ss| && ChoiceBacked(ss, acts, n, r, pool, b)
    ensures ChoiceBacked(ss, acts, m, r, pool, b)
  {
    hide ReadAs, AllReadFailing;
    if ReadAs(ss, acts, n, r, b, false) {
      ReadAsLater(ss, acts, n, m, r, b, false);
    } else {
      AllFailingLater(ss, acts, n, m, r, pool);
    }
  }

  lemma BackedLater(c: Config, ss: seq<Sys>, acts: seq<Action>, n: nat, m: nat, r: nat, q: Selecting)
    requires n <= m <= |acts| < |ss| && Backed(c, ss, acts, n, r, q)
    ensures Backed(c, ss, acts, m, r, q)
  {
    hide ReadAs, ClassesRead, ScoresRead, ChoiceBacked, CandidateIds;
    match q.progress
    case Started =>
    case Looked(_) =>
    case Cleared(b) => ReadAsLater(ss, acts, n, m, r, b, false);
    case Trusting(b) => ReadAsLater(ss, acts, n, m, r, b, false);
    case Sorting(classes, clear) =>
      ClassesLater(ss, acts, n, m, r, q.pool, classes);
      if clear {
        ReadAsLater(ss, acts, n, m, r, q.pool[|classes|], false);
      }
    case Scoring(classes, scores) =>
      ClassesLater(ss, acts, n, m, r, q.pool, classes);
      ScoresLater(ss, acts, n, m, r, CandidateIds(q.pool, classes), StaleFor(c.groups[q.group].policy, q.override), scores);
    case Picked(b) => ChoiceBackedLater(ss, acts, n, m, r, q.pool, b);
    case Steady(b) => ChoiceBackedLater(ss, acts, n, m, r, q.pool, b);
    case Writing(b, _) => ChoiceBackedLater(ss, acts, n, m, r, q.pool, b);
  }

  lemma OneMoreClass(ss: seq<Sys>, acts: seq<Action>, n: nat, r: nat, pool: seq<string>, classes: seq<Class>, c: Class)
    requires n <= |acts| < |ss| && |classes| < |pool| && ClassesRead(ss, acts, n, r, pool, classes)
    requires ReadClass(ss, acts, n, r, pool[|classes|], c)
    ensures ClassesRead(ss, acts, n, r, pool, classes + [c])
  {
    hide ReadClass;
  }

  lemma OneMoreScore(ss: seq<Sys>, acts: seq<Action>, n: nat, r: nat, ids: seq<string>, stale: Time, scores: seq<real>, x: real)
    requires n <= |acts| < |ss| && |scores| < |ids| && ScoresRead(ss, acts, n, r, ids, stale, scores)
    requires ReadScore(ss, acts, n, r, ids[|scores|], |scores|, stale, x)
    ensures ScoresRead(ss, acts, n, r, ids, stale, scores + [x])
  {
    hide ReadScore;
  }

  /** A selection's own reading, and what it knows afterwards. */
  lemma AdvanceBacked(c: Config, ss: seq<Sys>, acts: seq<Action>, n: nat, m: nat, r: nat, q: Selecting)
    requires n < m == n + 1 <= |acts| < |ss| && acts[n] == SelectAdvance(r)
    requires InProgress(c, ss[n], r) && q == ss[n].selections[r] && Reading(q.progress) && Backed(c, ss, acts, n, r, q)
    ensures Backed(c, ss, acts, m, r, q.(progress := Advanced(c, ss[n], q)))
  {
    hide Advanced, Backed;
    BackedLater(c, ss, acts, n, m, r, q);
    match q.progress
    case Started => StartedBacked(c, ss, acts, m, r, ss[n], q);
    case Looked(_) => LookedBacked(c, ss, acts, n, m, r, q);
    case Cleared(_) => ClearedBacked(c, ss, acts, m, r, ss[n], q);
    case Sorting(_, _) => SortingBacked(c, ss, acts, n, m, r, q);
    case Scoring(_, _) => ScoringBacked(c, ss, acts, n, m, r, q);
    case Picked(_) => PickedBacked(c, ss, acts, m, r, ss[n], q);
    case Steady(_) => PickedBacked(c, ss, acts, m, r, ss[n], q);
  }

  lemma StartedBacked(c: Config, ss: seq<Sys>, acts: seq<Action>, m: nat, r: nat, s: Sys, q: Selecting)
    requires m <= |acts| < |ss| && q.group in c.groups && Known(s, q.pool) && Fits(s, q) && q.progress.Started?
    ensures Backed(c, ss, acts, m, r, q.(progress := Advanced(c, s, q)))
  {
    hide LookedUp;
  }

  lemma LookedBacked(c: Config, ss: seq<Sys>, acts: seq<Action>, n: nat, m: nat, r: nat, q: Selecting)
    requires n < m == n + 1 <= |acts| < |ss| && acts[n] == SelectAdvance(r) && q.progress.Looked?
    requires InProgress(c, ss[n], r) && q == ss[n].selections[r]
    ensures Backed(c, ss, acts, m, r, q.(progress := Advanced(c, ss[n], q)))
  {
    var s, found := ss[n], q.progress.found;
    if found.Some? && found.value in q.pool && !FailingNow(s.backends[found.value], s.now) {
      assert Reads(s, acts[n], r, found.value);
    }
  }

  lemma ClearedBacked(c: Config, ss: seq<Sys>, acts: seq<Action>, m: nat, r: nat, s: Sys, q: Selecting)
    requires m <= |acts| < |ss| && q.group in c.groups && Known(s, q.pool) && |q.pool| > 0 && Fits(s, q) && q.progress.Cleared?
    requires Backed(c, ss, acts, m, r, q)
    ensures Backed(c, ss, acts, m, r, q.(progress := Advanced(c, s, q)))
  {
    hide ReadAs, Overloaded;
  }

  lemma PickedBacked(c: Config, ss: seq<Sys>, acts: seq<Action>, m: nat, r: nat, s: Sys, q: Selecting)
    requires m <= |acts| < |ss| && q.group in c.groups && Known(s, q.pool) && Fits(s, q)
    requires (q.progress.Picked? || q.progress.Steady?) && Backed(c, ss, acts, m, r, q)
    ensures Backed(c, ss, acts, m, r, q.(progress := Advanced(c, s, q)))
  {
    hide ChoiceBacked, FailingNow, RampingNow;
  }

  lemma SortingBacked(c: Config, ss: seq<Sys>, acts: seq<Action>, n: nat, m: nat, r: nat, q: Selecting)
    requires n < m == n + 1 <= |acts| < |ss| && acts[n] == SelectAdvance(r) && q.progress.Sorting?
    requires InProgress(c, ss[n], r) && q == ss[n].selections[r] && Backed(c, ss, acts, m, r, q)
    ensures Backed(c, ss, acts, m, r, q.(progress := Advanced(c, ss[n], q)))
  {
    var s, classes, id := ss[n], q.progress.classes, q.pool[|q.progress.classes|];
    var next := if q.progress.clear then (if RampingNow(s.backends[id], s.now) then Ramping else Ready) else Failing;
    if q.progress.clear {
      assert ReadsRamp(s, acts[n], r, id);
    } else {
      assert Reads(s, acts[n], r, id);
    }
    if q.progress.clear || FailingNow(s.backends[id], s.now) {
      assert ReadClass(ss, acts, m, r, id, next);
      OneMoreClass(ss, acts, m, r, q.pool, classes, next);
      SortedBacked(c, ss, acts, m, r, q, classes + [next]);
    }
    hide ClassesRead, ReadClass, Reads, ReadsRamp, Sorted;
  }

  lemma SortedBacked(c: Config, ss: seq<Sys>, acts: seq<Action>, m: nat, r: nat, q: Selecting, classes: seq<Class>)
    requires m <= |acts| < |ss| && |classes| <= |q.pool| && q.group in c.groups && ClassesRead(ss, acts, m, r, q.pool, classes)
    ensures Backed(c, ss, acts, m, r, q.(progress := Sorted(q, classes)))
  {
    hide ClassesRead;
  }

  lemma ScoringBacked(c: Config, ss: seq<Sys>, acts: seq<Action>, n: nat, m: nat, r: nat, q: Selecting)
    requires n < m == n + 1 <= |acts| < |ss| && acts[n] == SelectAdvance(r) && q.progress.Scoring?
    requires InProgress(c, ss[n], r) && q == ss[n].selections[r] && Backed(c, ss, acts, m, r, q)
    ensures Backed(c, ss, acts, m, r, q.(progress := Advanced(c, ss[n], q)))
    ensures ScoresRead(ss, acts, m, r, CandidateIds(q.pool, q.progress.classes), StaleFor(c.groups[q.group].policy, q.override),
                       q.progress.scores + [NextScore(c, ss[n], q)])
  {
    var classes, scores, x := q.progress.classes, q.progress.scores, NextScore(c, ss[n], q);
    var ids, stale := CandidateIds(q.pool, classes), StaleFor(c.groups[q.group].policy, q.override);
    NextScoreIsRead(c, ss, acts, n, m, r, q);
    hide ReadScore, ScoresRead, ClassesRead, ChoiceBacked, NextScore, CandidateIds, Known, Scored;
    OneMoreScore(ss, acts, m, r, ids, stale, scores, x);
    ScoredBacked(c, ss, acts, m, r, q, classes, scores + [x]);
  }

  lemma ScoredBacked(c: Config, ss: seq<Sys>, acts: seq<Action>, m: nat, r: nat, q: Selecting, classes: seq<Class>, scores: seq<real>)
    requires m <= |acts| < |ss| && |classes| == |q.pool| && q.group in c.groups
    requires ClassesRead(ss, acts, m, r, q.pool, classes) && 0 < |scores| <= |CandidateIds(q.pool, classes)|
    requires ScoresRead(ss, acts, m, r, CandidateIds(q.pool, classes), StaleFor(c.groups[q.group].policy, q.override), scores)
    ensures Backed(c, ss, acts, m, r, q.(progress := Scored(q, classes, scores)))
  {
    hide ScoresRead, ClassesRead, ChoiceBacked, CandidateIds, LeastIndex, KeyHash, StaleFor;
    if |scores| == |CandidateIds(q.pool, classes)| {
      ChosenBacked(ss, acts, m, r, q.pool, classes, LeastIndex(scores, KeyHash(q.key)));
    }
  }

  lemma NextScoreIsRead(c: Config, ss: seq<Sys>, acts: seq<Action>, n: nat, m: nat, r: nat, q: Selecting)
    requires n < m == n + 1 <= |acts| < |ss| && acts[n] == SelectAdvance(r) && q.progress.Scoring?
    requires InProgress(c, ss[n], r) && q == ss[n].selections[r]
    ensures var ids, k := CandidateIds(q.pool, q.progress.classes), |q.progress.scores|;
            ReadScore(ss, acts, m, r, ids[k], k, StaleFor(c.groups[q.group].policy, q.override), NextScore(c, ss[n], q))
  {
    PickFrom(q.pool, q.progress.classes, Best(q.progress.classes), |q.progress.scores|);
    assert ReadsScore(ss[n], acts[n], r, CandidateIds(q.pool, q.progress.classes)[|q.progress.scores|], |q.progress.scores|);
    hide Score, Pick, Best;
  }

  /** A candidate was read as not failing, unless everything was read as failing. */
  lemma ChosenBacked(ss: seq<Sys>, acts: seq<Action>, m: nat, r: nat, pool: seq<string>, classes: seq<Class>, i: nat)
    requires m <= |acts| < |ss| && |classes| == |pool| && ClassesRead(ss, acts, m, r, pool, classes)
    requires i < |CandidateIds(pool, classes)|
    ensures ChoiceBacked(ss, acts, m, r, pool, CandidateIds(pool, classes)[i])
  {
    PickFrom(pool, classes, Best(classes), i);
    var k :| 0 <= k < |pool| && pool[k] == CandidateIds(pool, classes)[i] && classes[k] == Best(classes);
    assert ReadClass(ss, acts, m, r, pool[k], classes[k]);
    if Best(classes).Failing? {
      OnlyFailing(classes);
      forall j | 0 <= j < |pool|
        ensures ReadAs(ss, acts, m, r, pool[j], true)
      {
        assert ReadClass(ss, acts, m, r, pool[j], classes[j]);
      }
    }
    hide ReadAs, ReadRamp, Pick, Best;
  }

  lemma OnlyFailing(classes: seq<Class>)
    requires Best(classes).Failing?
    ensures forall k :: 0 <= k < |classes| ==> classes[k].Failing?
  {
    forall k | 0 <= k < |classes|
      ensures classes[k].Failing?
    {
      assert classes[k] in classes;
    }
  }

  /** Behind every running selection of every run from start-up stand its readings. */
  lemma {:induction false} BackedThroughout(c: Config, ss: seq<Sys>, acts: seq<Action>, n: nat, r: nat)
    requires IsRun(c, ss, acts) && Initial(c, ss[0]) && n < |ss| && r in ss[n].selections
    ensures Backed(c, ss, acts, n, r, ss[n].selections[r])
    decreases n
  {
    if n > 0 {
      var s, a := ss[n - 1], acts[n - 1];
      RunStep(c, ss, acts, n - 1);
      NextIs(c, s, a);
      SelectionFrame(c, s, a, r);
      if r in s.selections {
        BackedThroughout(c, ss, acts, n - 1, r);
        if a == SelectAdvance(r) {
          AdvanceIs(c, s, r);
          AdvanceBacked(c, ss, acts, n - 1, n, r, s.selections[r]);
        } else {
          BackedLater(c, ss, acts, n - 1, n, r, s.selections[r]);
        }
      } else {
        NothingToBack(c, ss, acts, n, r, ss[n].selections[r]);
      }
    }
    hide IsRun, Enabled, Next, SelectionsAfter, RequestsAfter, PinsNext, BackendsAfter, CallsAfter, LoopsAfter, Advanced, Backed, InProgress, SomeMembers;
  }

  lemma NothingToBack(c: Config, ss: seq<Sys>, acts: seq<Action>, n: nat, r: nat, q: Selecting)
    requires n <= |acts| < |ss| && q.progress.Started?
    ensures Backed(c, ss, acts, n, r, q)
  {
  }

  // ---- The fresh choice ------------------------------------------------------------------

  /**
   A selection that makes its fresh choice at step n takes, of the members it read to be in the best
   class that any of them was read to be in, one that it read to score lowest. Of several such it
   takes the one with as many of them before it as the key's hash modulo their number.
   */
  lemma FreshChoiceIsLeastRead(c: Config, ss: seq<Sys>, acts: seq<Action>, n: nat, r: nat, b: string)
    returns (classes: seq<Class>, scores: seq<real>, i: nat)
    requires IsRun(c, ss, acts) && Initial(c, ss[0]) && n < |acts| && r in ss[n].selections && r in ss[n + 1].selections
    requires ss[n].selections[r].progress.Scoring? && ss[n + 1].selections[r].progress == Picked(b)
    ensures var q := ss[n].selections[r];
            && |classes| == |q.pool| && ClassesRead(ss, acts, n, r, q.pool, classes)
            && var ids := CandidateIds(q.pool, classes);
               && |scores| == |ids| && i < |ids| && b == ids[i]
               && q.group in c.groups
               && ScoresRead(ss, acts, n + 1, r, ids, StaleFor(c.groups[q.group].policy, q.override), scores)
               && (forall j :: 0 <= j < |scores| ==> scores[i] <= scores[j])
               && |Ties(scores, scores[i])| > 0
               && |Ties(scores[..i], scores[i])| == KeyHash(q.key) % |Ties(scores, scores[i])|
  {
    var s, a, q := ss[n], acts[n], ss[n].selections[r];
    RunStep(c, ss, acts, n);
    NextIs(c, s, a);
    SelectionFrame(c, s, a, r);
    AdvanceIs(c, s, r);
    BackedThroughout(c, ss, acts, n, r);
    BackedLater(c, ss, acts, n, n + 1, r, q);
    ScoringBacked(c, ss, acts, n, n + 1, r, q);
    classes, scores := q.progress.classes, q.progress.scores + [NextScore(c, s, q)];
    i := LeastIndex(scores, KeyHash(q.key));
    LeastIndexIs(scores, KeyHash(q.key));
    hide IsRun, Enabled, Next, SelectionsAfter, RequestsAfter, PinsNext, BackendsAfter, CallsAfter, LoopsAfter, NextScore, ClassesRead, ScoresRead, ChoiceBacked, CandidateIds, Ties, Lowest, KeyHash;
  }

  /** The candidates are the members of the best class, and no member is of a better one. */
  lemma CandidatesAreBest(pool: seq<string>, classes: seq<Class>, id: string)
    requires |classes| == |pool|
    ensures id in CandidateIds(pool, classes) <==> exists k :: 0 <= k < |pool| && pool[k] == id && classes[k] == Best(classes)
    ensures forall k :: 0 <= k < |pool| ==>
              (classes[k].Ready? ==> Best(classes).Ready?) && (classes[k].Ramping? ==> !Best(classes).Failing?)
  {
    if id in CandidateIds(pool, classes) {
      var i :| 0 <= i < |CandidateIds(pool, classes)| && CandidateIds(pool, classes)[i] == id;
      PickFrom(pool, classes, Best(classes), i);
    }
    if exists k :: 0 <= k < |pool| && pool[k] == id && classes[k] == Best(classes) {
      var k :| 0 <= k < |pool| && pool[k] == id && classes[k] == Best(classes);
      PickHas(pool, classes, Best(classes), k);
    }
    forall k | 0 <= k < |pool|
      ensures (classes[k].Ready? ==> Best(classes).Ready?) && (classes[k].Ramping? ==> !Best(classes).Failing?)
    {
      assert classes[k] in classes;
    }
    hide Pick;
  }
}
