/**
 After a pinned backend fails, it is kept out of selection for ten seconds: no selection that reads
 it in that time takes it, unless it reads every member of its pool as failing. One that had read it
 before may still return it, and one that had decided for it does.
 */
module FailoverExclusion {
  import opened Common
  import opened AffinityModel
  import opened AffinityRuns
  import opened BackendModel
  import opened SelectorModel
  import opened LoadScore
  import opened BalancerSystem
  import opened SelectionReadings

  /** InvalidatePin ends with the key unpinned. */
  lemma InvalidationRemovesPin(c: Config, s: Sys, a: Action)
    requires Enabled(c, s, a) && a.InvalidateDelete? && DistinctKeys(PinsIn(s, s.calls[a.t].group))
    ensures !Stored(PinsIn(Next(c, s, a), s.calls[a.t].group), s.calls[a.t].key)
  {
    var pins, key := PinsIn(s, s.calls[a.t].group), s.calls[a.t].key;
    WithoutKeys(pins, key);
    StoredIffInKeys(Without(pins, key), key);
  }

  // ---- Pins keep their shape -------------------------------------------------------------

  /** In every reachable state each group's pins have distinct keys and respect its capacity. */
  ghost predicate PinsSound(c: Config, s: Sys) {
    forall g :: g in c.groups ==> WellFormed(PinsIn(s, g), c.groups[g].policy.maxSize)
  }

  lemma InitialIsSound(c: Config, s: Sys)
    requires Initial(c, s)
    ensures PinsSound(c, s) && Named(s)
  {
  }

  lemma PinsStep(c: Config, s: Sys, a: Action)
    requires Enabled(c, s, a) && PinsSound(c, s)
    ensures PinsSound(c, Next(c, s, a))
  {
    hide Without, WellFormed, AffinityModel.Set, AffinityModel.Touch, BackendsAfter, RequestsAfter, SelectionsAfter, LoopsAfter, CallsAfter, Advanced, SomeMembers;
    forall g | g in c.groups
      ensures WellFormed(PinsIn(Next(c, s, a), g), c.groups[g].policy.maxSize)
    {
      var pins, p := PinsIn(s, g), c.groups[g].policy;
      if a.SelectTouch? {
        TouchKeeps(pins, s.selections[a.r].key, s.now, p.maxSize);
      } else if a.SelectPin? && s.selections[a.r].progress.pin {
        SetKeeps(pins, s.selections[a.r].key, s.selections[a.r].progress.b, s.now, p.maxSize);
      } else if a.InvalidateDelete? {
        DeleteKeeps(pins, s.calls[a.t].key, p.maxSize);
      }
    }
  }

  lemma TouchKeeps(pins: seq<Pin>, key: Key, now: Time, maxSize: int)
    requires WellFormed(pins, maxSize)
    ensures WellFormed(AffinityModel.Touch(pins, key, now), maxSize)
  {
    ApplyKeeps(pins, Call(DoTouch(key), now), 0, maxSize);
  }

  lemma DeleteKeeps(pins: seq<Pin>, key: Key, maxSize: int)
    requires WellFormed(pins, maxSize)
    ensures WellFormed(Without(pins, key), maxSize)
  {
    WithoutKeys(pins, key);
  }

  lemma {:induction false} PinsSoundThroughout(c: Config, ss: seq<Sys>, acts: seq<Action>, i: nat, j: nat)
    requires IsRun(c, ss, acts) && i <= j < |ss| && PinsSound(c, ss[i])
    ensures PinsSound(c, ss[j])
    decreases j
  {
    if i < j {
      PinsSoundThroughout(c, ss, acts, i, j - 1);
      assert acts[j - 1] in acts && StepAt(c, ss, acts, j - 1);
      PinsStep(c, ss[j - 1], acts[j - 1]);
    }
  }

  // ---- Pins and decisions lead to members of their own group -----------------------------

  ghost predicate PinsLocal(c: Config, s: Sys, g: string) {
    forall q :: q in PinsIn(s, g) ==> q.backend in Members(c, s, g)
  }

  ghost predicate CallsLocal(c: Config, s: Sys) {
    forall t :: t in s.calls ==>
      s.calls[t].group in c.groups
      && (s.calls[t].found.Some? ==> s.calls[t].found.value in Members(c, s, s.calls[t].group))
  }

  /** The backend id that a running selection carries. */
  function Carried(p: Progress): Option<string> {
    match p
    case Started => None
    case Looked(found) => found
    case Cleared(b) => Some(b)
    case Trusting(b) => Some(b)
    case Sorting(_, _) => None
    case Scoring(_, _) => None
    case Picked(b) => Some(b)
    case Steady(b) => Some(b)
    case Writing(b, _) => Some(b)
  }

  ghost predicate SelectionLocal(c: Config, s: Sys, r: nat) {
    && InProgress(c, s, r)
    && var q := s.selections[r];
       && (forall id :: id in q.pool ==> id in Members(c, s, q.group))
       && (Carried(q.progress).Some? ==> Carried(q.progress).value in Members(c, s, q.group))
  }

  ghost predicate Local(c: Config, s: Sys) {
    && Named(s) && PinsSound(c, s) && CallsLocal(c, s)
    && (forall g :: g in c.groups ==> PinsLocal(c, s, g))
    && (forall r :: r in s.selections ==> SelectionLocal(c, s, r))
  }

  lemma InitialIsLocal(c: Config, s: Sys)
    requires Initial(c, s)
    ensures Local(c, s)
  {
    InitialIsSound(c, s);
  }

  /** A running selection always has a next step. */
  lemma SelectionsProceed(c: Config, s: Sys, r: nat)
    requires Local(c, s) && r in s.selections
    ensures Enabled(c, s, SelectAdvance(r)) || Enabled(c, s, SelectTouch(r)) || Enabled(c, s, SelectPin(r))
  {
    assert SelectionLocal(c, s, r);
  }

  /** An upper bound on the readings that a selection still makes. */
  function Remaining(q: Selecting): int {
    match q.progress
    case Started => 3 * |q.pool| + 6
    case Looked(_) => 3 * |q.pool| + 5
    case Cleared(_) => 3 * |q.pool| + 4
    case Sorting(classes, clear) => 3 * |q.pool| + 3 - 2 * |classes| - (if clear then 1 else 0)
    case Scoring(_, scores) => |q.pool| + 2 - |scores|
    case Picked(_) => 2
    case Steady(_) => 1
    case _ => 0
  }

  lemma {:induction false} PickIsShort<T>(items: seq<T>, classes: seq<Class>, c: Class)
    requires |items| == |classes|
    ensures |Pick(items, classes, c)| <= |items|
  {
    if items != [] {
      PickIsShort(items[..|items| - 1], classes[..|items| - 1], c);
    }
  }

  /** So a selection finishes after at most 3 n + 6 readings of its own, n being the size of its pool. */
  lemma ReadingsEnd(c: Config, s: Sys, r: nat)
    requires Enabled(c, s, SelectAdvance(r))
    ensures var q, u := s.selections[r], Next(c, s, SelectAdvance(r)).selections[r];
            0 <= Remaining(u) < Remaining(q) <= 3 * |q.pool| + 6
  {
    var q := s.selections[r];
    AdvanceIs(c, s, r);
    if q.progress.Sorting? {
      SortingFalls(c, s, q);
    } else if q.progress.Scoring? {
      ScoringFalls(c, s, q);
    } else {
      OthersFall(c, s, q);
    }
    hide Next, Enabled, Advanced, Fits;
  }

  lemma SortingFalls(c: Config, s: Sys, q: Selecting)
    requires q.group in c.groups && Known(s, q.pool) && Fits(s, q) && q.progress.Sorting?
    ensures 0 <= Remaining(q.(progress := Advanced(c, s, q))) < Remaining(q) <= 3 * |q.pool| + 6
  {
    hide FailingNow, RampingNow;
  }

  lemma ScoringFalls(c: Config, s: Sys, q: Selecting)
    requires q.group in c.groups && Known(s, q.pool) && Fits(s, q) && q.progress.Scoring?
    ensures 0 <= Remaining(q.(progress := Advanced(c, s, q))) < Remaining(q) <= 3 * |q.pool| + 6
  {
    PickIsShort(q.pool, q.progress.classes, Best(q.progress.classes));
    hide Pick, Best, NextScore, LeastIndex, KeyHash;
  }

  lemma OthersFall(c: Config, s: Sys, q: Selecting)
    requires q.group in c.groups && Known(s, q.pool) && Fits(s, q) && Reading(q.progress)
    requires !q.progress.Sorting? && !q.progress.Scoring?
    ensures 0 <= Remaining(q.(progress := Advanced(c, s, q))) < Remaining(q) <= 3 * |q.pool| + 6
  {
    hide LookedUp, Overloaded, FailingNow, RampingNow, NextScore, Sorted, Scored;
  }

  lemma MembersStay(c: Config, s: Sys, a: Action, g: string)
    requires Enabled(c, s, a) && Named(s)
    ensures Members(c, Next(c, s, a), g) == Members(c, s, g)
  {
    NamesKept(c, s, a);
    hide Next;
  }

  ghost predicate LeadInto(pins: seq<Pin>, ids: set<string>) {
    forall q :: q in pins ==> q.backend in ids
  }

  lemma TouchLeadsInto(pins: seq<Pin>, key: Key, now: Time, ids: set<string>)
    requires DistinctKeys(pins) && LeadInto(pins, ids)
    ensures LeadInto(AffinityModel.Touch(pins, key, now), ids)
  {
    TouchMembers(pins, key, now);
  }

  lemma SetLeadsInto(pins: seq<Pin>, key: Key, b: string, now: Time, maxSize: int, ids: set<string>)
    requires DistinctKeys(pins) && LeadInto(pins, ids) && b in ids
    ensures LeadInto(AffinityModel.Set(pins, key, b, now, maxSize), ids)
  {
    SetMembers(pins, key, b, now, maxSize);
  }

  lemma WithoutLeadsInto(pins: seq<Pin>, key: Key, ids: set<string>)
    requires DistinctKeys(pins) && LeadInto(pins, ids)
    ensures LeadInto(Without(pins, key), ids)
  {
    WithoutKeys(pins, key);
  }

  lemma PinsStayLocal(c: Config, s: Sys, a: Action, g: string)
    requires Enabled(c, s, a) && Local(c, s) && g in c.groups
    ensures PinsLocal(c, Next(c, s, a), g)
  {
    MembersStay(c, s, a, g);
    GroupIsLocal(c, s, g);
    PinsLeadInto(c, s, a, g, Members(c, s, g));
    LeadIntoIs(c, Next(c, s, a), g);
    hide *;
  }

  lemma GroupIsLocal(c: Config, s: Sys, g: string)
    requires Local(c, s) && g in c.groups
    ensures LeadInto(PinsIn(s, g), Members(c, s, g)) && DistinctKeys(PinsIn(s, g))
  {
    assert PinsLocal(c, s, g) && WellFormed(PinsIn(s, g), c.groups[g].policy.maxSize);
    hide Members, PinsIn, SelectionLocal, CallsLocal, Named;
  }

  lemma PinsLeadInto(c: Config, s: Sys, a: Action, g: string, ids: set<string>)
    requires Enabled(c, s, a) && Local(c, s) && g in c.groups && ids == Members(c, s, g)
    requires LeadInto(PinsIn(s, g), ids) && DistinctKeys(PinsIn(s, g))
    ensures LeadInto(PinsIn(Next(c, s, a), g), ids)
  {
    PinsFrame(c, s, a, g);
    var pins, p := PinsIn(s, g), c.groups[g].policy;
    if a.SelectTouch? {
      TouchLeadsInto(pins, s.selections[a.r].key, s.now, ids);
    } else if a.SelectPin? && s.selections[a.r].group == g && s.selections[a.r].progress.pin {
      CarriedIsMember(c, s, a.r);
      SetLeadsInto(pins, s.selections[a.r].key, s.selections[a.r].progress.b, s.now, p.maxSize, ids);
    } else if a.InvalidateDelete? {
      WithoutLeadsInto(pins, s.calls[a.t].key, ids);
    }
    hide Next, PinsIn, LeadInto, DistinctKeys, Members, Local, AffinityModel.Set, AffinityModel.Touch, Without;
  }

  lemma LeadIntoIs(c: Config, s: Sys, g: string)
    ensures PinsLocal(c, s, g) <==> LeadInto(PinsIn(s, g), Members(c, s, g))
  {
  }

  lemma CarriedIsMember(c: Config, s: Sys, r: nat)
    requires Local(c, s) && r in s.selections
    ensures var q := s.selections[r];
            Carried(q.progress).Some? ==> Carried(q.progress).value in Members(c, s, q.group)
  {
    assert SelectionLocal(c, s, r);
  }

  lemma CallsStayLocal(c: Config, s: Sys, a: Action)
    requires Enabled(c, s, a) && Local(c, s)
    ensures CallsLocal(c, Next(c, s, a))
  {
    var t := Next(c, s, a);
    forall q | q in t.calls
      ensures t.calls[q].group in c.groups
           && (t.calls[q].found.Some? ==> t.calls[q].found.value in Members(c, t, t.calls[q].group))
    {
      MembersStay(c, s, a, t.calls[q].group);
      CallStaysLocal(c, s, a, q);
      hide *;
    }
  }

  lemma CallStaysLocal(c: Config, s: Sys, a: Action, q: nat)
    requires Enabled(c, s, a) && Local(c, s) && q in CallsAfter(c, s, a)
    ensures var u := CallsAfter(c, s, a)[q];
            u.group in c.groups && (u.found.Some? ==> u.found.value in Members(c, s, u.group))
  {
    hide Members, BackendsAfter, Named, PinsSound, SelectionLocal;
    if a.InvalidateGet? {
      assert PinsLocal(c, s, a.group);
    }
  }

  lemma SelectionsStayLocal(c: Config, s: Sys, a: Action, r: nat)
    requires Enabled(c, s, a) && Local(c, s) && r in SelectionsAfter(c, s, a)
    ensures SelectionLocal(c, Next(c, s, a), r)
  {
    var t := Next(c, s, a);
    NamesKept(c, s, a);
    SelectionFrame(c, s, a, r);
    MembersStay(c, s, a, t.selections[r].group);
    if r in s.selections {
      assert SelectionLocal(c, s, r);
      if a == SelectAdvance(r) {
        OwnStepIsLocal(c, s, r);
      } else {
        StaysLocal(c, s, t, r);
      }
    } else {
      BeginsLocal(c, s, t, r);
    }
    hide *;
  }

  lemma StaysLocal(c: Config, s: Sys, t: Sys, r: nat)
    requires SelectionLocal(c, s, r) && r in t.selections && t.selections[r] == s.selections[r]
    requires t.backends.Keys == s.backends.Keys && r !in t.requests
    requires Members(c, t, s.selections[r].group) == Members(c, s, s.selections[r].group)
    ensures SelectionLocal(c, t, r)
  {
  }

  lemma BeginsLocal(c: Config, s: Sys, t: Sys, r: nat)
    requires r in t.selections && t.selections[r].progress.Started? && t.selections[r].group in c.groups
    requires SomeMembers(c, s, t.selections[r].group, t.selections[r].pool)
    requires t.backends.Keys == s.backends.Keys && r !in t.requests
    requires Members(c, t, t.selections[r].group) == Members(c, s, t.selections[r].group)
    ensures SelectionLocal(c, t, r)
  {
  }

  lemma OwnStepIsLocal(c: Config, s: Sys, r: nat)
    requires Enabled(c, s, SelectAdvance(r)) && SelectionLocal(c, s, r) && Local(c, s)
    ensures SelectionLocal(c, Next(c, s, SelectAdvance(r)), r)
  {
    var q := s.selections[r];
    AdvanceIs(c, s, r);
    AdvancedCarries(c, s, q);
    LookUpIsMember(c, s, r);
    AdvancesLocal(c, s, Next(c, s, SelectAdvance(r)), r, Advanced(c, s, q));
    hide *;
  }

  lemma LookUpIsMember(c: Config, s: Sys, r: nat)
    requires Local(c, s) && InProgress(c, s, r)
    ensures var found := LookedUp(c, s, s.selections[r]);
            found.Some? ==> found.value in Members(c, s, s.selections[r].group)
  {
    assert PinsLocal(c, s, s.selections[r].group);
    hide Members, InProgress, Named, PinsSound, CallsLocal, SelectionLocal;
  }

  lemma AdvancesLocal(c: Config, s: Sys, t: Sys, r: nat, p: Progress)
    requires SelectionLocal(c, s, r) && t == s.(selections := s.selections[r := s.selections[r].(progress := p)])
    requires ProgressFits(s.selections[r].pool, p)
    requires Carried(p).Some? ==> Carried(p).value in Members(c, s, s.selections[r].group)
    ensures SelectionLocal(c, t, r)
  {
    assert Members(c, t, s.selections[r].group) == Members(c, s, s.selections[r].group);
  }

  /** Fits, without the part about the carried backend. */
  predicate ProgressFits(pool: seq<string>, p: Progress) {
    && (p.Sorting? ==> |p.classes| < |pool|)
    && (p.Scoring? ==> |p.classes| == |pool| && |p.scores| < |CandidateIds(pool, p.classes)|)
  }

  /** What a selection carries after a reading it had before, or found in the table or its pool. */
  lemma AdvancedCarries(c: Config, s: Sys, q: Selecting)
    requires q.group in c.groups && Known(s, q.pool) && Fits(s, q) && Reading(q.progress) && |q.pool| > 0
    ensures ProgressFits(q.pool, Advanced(c, s, q))
    ensures var u := Carried(Advanced(c, s, q));
            u.Some? ==> u == Carried(q.progress) || u.value in q.pool || u == LookedUp(c, s, q)
  {
    if q.progress.Sorting? {
      SortingCarries(c, s, q);
    } else if q.progress.Scoring? {
      ScoringCarries(c, s, q);
    }
    hide LookedUp, CandidateIds, Overloaded, FailingNow, RampingNow, NextScore, Sorted, Scored;
  }

  lemma SortingCarries(c: Config, s: Sys, q: Selecting)
    requires q.group in c.groups && Known(s, q.pool) && Fits(s, q) && q.progress.Sorting?
    ensures ProgressFits(q.pool, Advanced(c, s, q)) && Carried(Advanced(c, s, q)).None?
  {
    var p := Advanced(c, s, q);
    if p.Scoring? {
      BestIsPopulated(q.pool, p.classes);
    }
    hide Pick, Best, FailingNow, RampingNow;
  }

  lemma ScoringCarries(c: Config, s: Sys, q: Selecting)
    requires q.group in c.groups && Known(s, q.pool) && Fits(s, q) && q.progress.Scoring?
    ensures ProgressFits(q.pool, Advanced(c, s, q))
    ensures var u := Carried(Advanced(c, s, q)); u.Some? ==> u.value in q.pool
  {
    var p := Advanced(c, s, q);
    if p.Picked? {
      var scores := q.progress.scores + [NextScore(c, s, q)];
      PickFrom(q.pool, q.progress.classes, Best(q.progress.classes), LeastIndex(scores, KeyHash(q.key)));
    }
    hide Pick, Best, NextScore, LeastIndex, KeyHash;
  }

  lemma {:induction false} LocalThroughout(c: Config, ss: seq<Sys>, acts: seq<Action>, n: nat)
    requires IsRun(c, ss, acts) && n < |ss| && Local(c, ss[0])
    ensures Local(c, ss[n])
    decreases n
  {
    if n > 0 {
      LocalThroughout(c, ss, acts, n - 1);
      assert StepAt(c, ss, acts, n - 1) by {
        assert acts[n - 1] in acts;
      }
      LocalStep(c, ss[n - 1], acts[n - 1]);
    }
  }

  lemma LocalStep(c: Config, s: Sys, a: Action)
    requires Enabled(c, s, a) && Local(c, s)
    ensures Local(c, Next(c, s, a))
  {
    NamesKept(c, s, a);
    PinsStep(c, s, a);
    CallsStayLocal(c, s, a);
    var t := Next(c, s, a);
    forall g | g in c.groups ensures PinsLocal(c, t, g) {
      PinsStayLocal(c, s, a, g);
    }
    forall r | r in t.selections ensures SelectionLocal(c, t, r) {
      SelectionsStayLocal(c, s, a, r);
    }
  }

  // ---- Decisions -------------------------------------------------------------------------

  /** The step in which selection r returns b. */
  ghost predicate Returns(s: Sys, a: Action, t: Sys, r: nat, b: string) {
    (a == SelectTouch(r) || a == SelectPin(r)) && r in t.requests && t.requests[r].backend == b
  }

  lemma ReturnIs(c: Config, s: Sys, a: Action, r: nat)
    requires Enabled(c, s, a) && (a == SelectTouch(r) || a == SelectPin(r))
    ensures r in s.selections && Decided(s.selections[r].progress).Some?
    ensures r in Next(c, s, a).requests
    ensures Next(c, s, a).requests[r].backend == Decided(s.selections[r].progress).value
  {
    hide PinsNext, BackendsAfter, CallsAfter, LoopsAfter;
  }

  lemma ReturnsDecision(c: Config, s: Sys, a: Action, r: nat, b: string)
    requires Enabled(c, s, a) && (a == SelectTouch(r) || a == SelectPin(r))
    ensures r in s.selections && (Returns(s, a, Next(c, s, a), r, b) <==> Decided(s.selections[r].progress) == Some(b))
  {
    ReturnIs(c, s, a, r);
    hide Next, Enabled;
  }

  /** Selection r has settled on b and carries it to its end, or has already returned it. */
  ghost predicate Settled(s: Sys, r: nat, b: string) {
    if r in s.selections then Decided(s.selections[r].progress) == Some(b) && r !in s.requests
    else r in s.requests && s.requests[r].backend == b
  }

  lemma SettledStep(c: Config, s: Sys, a: Action, r: nat, b: string)
    requires Enabled(c, s, a) && Settled(s, r, b)
    ensures Settled(Next(c, s, a), r, b)
  {
    if r in s.selections {
      SettledRuns(c, s, a, r, b);
    } else {
      ReturnedStays(c, s, a, r);
    }
    hide Next, Enabled;
  }

  lemma SettledRuns(c: Config, s: Sys, a: Action, r: nat, b: string)
    requires Enabled(c, s, a) && r in s.selections && Settled(s, r, b)
    ensures Settled(Next(c, s, a), r, b)
  {
    hide Advanced, BackendsAfter, PinsNext, CallsAfter, LoopsAfter, SomeMembers, Known;
    if a == SelectAdvance(r) {
      DecidedAdvances(c, s, s.selections[r]);
    }
  }

  lemma DecidedAdvances(c: Config, s: Sys, q: Selecting)
    requires q.group in c.groups && Known(s, q.pool) && Fits(s, q) && Reading(q.progress) && Decided(q.progress).Some?
    ensures Decided(Advanced(c, s, q)) == Decided(q.progress)
  {
  }

  lemma ReturnedStays(c: Config, s: Sys, a: Action, r: nat)
    requires Enabled(c, s, a) && r !in s.selections && r in s.requests
    ensures r !in Next(c, s, a).selections && r in Next(c, s, a).requests
    ensures Next(c, s, a).requests[r].backend == s.requests[r].backend
  {
    hide Advanced, BackendsAfter, PinsNext, CallsAfter, LoopsAfter, SomeMembers, Known;
  }

  /** A decision stands, whatever happens to its backend or its pin meanwhile. */
  lemma {:induction false} DecisionStands(c: Config, ss: seq<Sys>, acts: seq<Action>, i: nat, j: nat, r: nat, b: string)
    requires IsRun(c, ss, acts) && i <= j < |ss| && Settled(ss[i], r, b)
    ensures Settled(ss[j], r, b)
    decreases j
  {
    if i < j {
      DecisionStands(c, ss, acts, i, j - 1, r, b);
      RunStep(c, ss, acts, j - 1);
      SettledStep(c, ss[j - 1], acts[j - 1], r, b);
    }
    hide *;
  }

  // ---- Exclusion -------------------------------------------------------------------------

  /** No step shortens a cooldown that a step at time t started. */
  lemma CooldownStep(c: Config, s: Sys, a: Action, id: string, t: Time)
    requires Enabled(c, s, a) && id in s.backends && t <= s.now
    requires s.backends[id].recentFailureUntil >= t + 10 * SECOND
    ensures id in Next(c, s, a).backends && Next(c, s, a).backends[id].recentFailureUntil >= t + 10 * SECOND
  {
  }

  lemma {:induction false} CooldownLasts(c: Config, ss: seq<Sys>, acts: seq<Action>, i: nat, j: nat, id: string)
    requires IsRun(c, ss, acts) && i < j < |ss|
    requires acts[i].InvalidateMark? && acts[i].t in ss[i].calls && ss[i].calls[acts[i].t].found == Some(id)
    requires id in Members(c, ss[i], ss[i].calls[acts[i].t].group)
    ensures id in ss[j].backends && ss[j].backends[id].recentFailureUntil >= ss[i].now + 10 * SECOND
    decreases j
  {
    assert acts[j - 1] in acts && StepAt(c, ss, acts, j - 1);
    if i < j - 1 {
      CooldownLasts(c, ss, acts, i, j - 1, id);
      TimeIsMonotone(c, ss, acts, i, j - 1);
      CooldownStep(c, ss[j - 1], acts[j - 1], id, ss[i].now);
    }
  }

  /** Step i is the one in which InvalidatePin marks the backend of a live pin. */
  ghost predicate Marks(s: Sys, a: Action, id: string) {
    a.InvalidateMark? && a.t in s.calls && s.calls[a.t].found == Some(id)
  }

  /**
   Once InvalidatePin has marked the backend of a live pin, every reading of it within ten seconds,
   by a selection of any group, for any key, finds it failing, whatever other steps occur meanwhile.
   */
  lemma MarkedBackendReadsFailing(c: Config, ss: seq<Sys>, acts: seq<Action>, i: nat, d: nat, id: string)
    requires IsRun(c, ss, acts) && i < d < |ss| && Local(c, ss[0]) && Marks(ss[i], acts[i], id)
    requires ss[d].now < ss[i].now + 10 * SECOND
    ensures id in ss[d].backends && FailingNow(ss[d].backends[id], ss[d].now)
  {
    LocalThroughout(c, ss, acts, i);
    assert CallsLocal(c, ss[i]);
    CooldownLasts(c, ss, acts, i, d, id);
    hide Local, IsRun;
  }

  /** The selection holds a reading of the backend as not failing, and has not put it aside since. */
  ghost predicate Leans(q: Selecting, id: string) {
    match q.progress
    case Started => false
    case Looked(_) => false
    case Cleared(b) => b == id
    case Trusting(b) => b == id
    case Sorting(classes, clear) =>
      SortedClear(q.pool, classes, id) || (clear && |classes| < |q.pool| && q.pool[|classes|] == id)
    case Scoring(classes, _) => SortedClear(q.pool, classes, id)
    case Picked(b) => b == id
    case Steady(b) => b == id
    case Writing(b, _) => b == id
  }

  ghost predicate SortedClear(pool: seq<string>, classes: seq<Class>, id: string) {
    exists k :: 0 <= k < |classes| && k < |pool| && pool[k] == id && !classes[k].Failing?
  }

  /** While a backend is failing, a selection comes to lean to it only by finding everything failing. */
  lemma AdvanceLeans(c: Config, s: Sys, q: Selecting, id: string)
    requires q.group in c.groups && Known(s, q.pool) && Fits(s, q) && Reading(q.progress)
    requires id in s.backends && FailingNow(s.backends[id], s.now)
    requires !Leans(q, id) && Leans(q.(progress := Advanced(c, s, q)), id)
    ensures q.progress.Scoring? && forall k :: 0 <= k < |q.progress.classes| ==> q.progress.classes[k].Failing?
  {
    hide FailingNow, RampingNow, Overloaded, CandidateIds, NextScore, LookedUp, LeastIndex, KeyHash, Sorted, Scored;
    if q.progress.Sorting? {
      SortingLeans(c, s, q, id);
      assert false;
    } else if q.progress.Scoring? {
      ScoringLeans(c, s, q, id);
    }
  }

  lemma SortingLeans(c: Config, s: Sys, q: Selecting, id: string)
    requires q.group in c.groups && Known(s, q.pool) && Fits(s, q) && q.progress.Sorting?
    requires id in s.backends && FailingNow(s.backends[id], s.now) && !Leans(q, id)
    ensures !Leans(q.(progress := Advanced(c, s, q)), id)
  {
    hide FailingNow, RampingNow;
  }

  lemma ScoringLeans(c: Config, s: Sys, q: Selecting, id: string)
    requires q.group in c.groups && Known(s, q.pool) && Fits(s, q) && q.progress.Scoring?
    requires !Leans(q, id) && Leans(q.(progress := Advanced(c, s, q)), id)
    ensures forall k :: 0 <= k < |q.progress.classes| ==> q.progress.classes[k].Failing?
  {
    var classes := q.progress.classes;
    var i := LeastIndex(q.progress.scores + [NextScore(c, s, q)], KeyHash(q.key));
    assert CandidateIds(q.pool, classes)[i] == id;
    PickFrom(q.pool, classes, Best(classes), i);
    assert Best(classes).Failing?;
    OnlyFailing(classes);
    hide Pick, Best, NextScore, LeastIndex, KeyHash;
  }

  /** Within ten seconds of the mark, a selection that leans to the backend has done so ever since, or has read its whole pool as failing. */
  lemma {:induction false} LeaningIsOld(c: Config, ss: seq<Sys>, acts: seq<Action>, i: nat, k: nat, j: nat, r: nat, id: string)
    requires IsRun(c, ss, acts) && Initial(c, ss[0]) && i <= k < j < |ss| && Marks(ss[i], acts[i], id)
    requires ss[j].now < ss[i].now + 10 * SECOND
    requires r in ss[j].selections && Leans(ss[j].selections[r], id)
    ensures (r in ss[k].selections && Leans(ss[k].selections[r], id)) || AllReadFailing(ss, acts, j, r, ss[j].selections[r].pool)
    decreases j
  {
    var s, a := ss[j - 1], acts[j - 1];
    RunStep(c, ss, acts, j - 1);
    TimeIsMonotone(c, ss, acts, j - 1, j);
    NextIs(c, s, a);
    SelectionFrame(c, s, a, r);
    hide *;
    StartedDoesNotLean(c, s, a, r, id);
    SelectionKeeps(c, s, a, r);
    if Leans(s.selections[r], id) {
      if k < j - 1 {
        LeaningIsOld(c, ss, acts, i, k, j - 1, r, id);
        if AllReadFailing(ss, acts, j - 1, r, s.selections[r].pool) {
          AllFailingLater(ss, acts, j - 1, j, r, s.selections[r].pool);
        }
      }
    } else {
      LeansAnew(c, ss, acts, i, j - 1, r, id);
      AllFailingLater(ss, acts, j - 1, j, r, s.selections[r].pool);
    }
  }

  lemma StartedDoesNotLean(c: Config, s: Sys, a: Action, r: nat, id: string)
    requires Enabled(c, s, a) && r in SelectionsAfter(c, s, a) && Leans(SelectionsAfter(c, s, a)[r], id)
    ensures r in s.selections
  {
    SelectionFrame(c, s, a, r);
    hide Enabled, SelectionsAfter, SortedClear;
  }

  lemma LeansAnew(c: Config, ss: seq<Sys>, acts: seq<Action>, i: nat, n: nat, r: nat, id: string)
    requires IsRun(c, ss, acts) && Initial(c, ss[0]) && i <= n < |acts| && Marks(ss[i], acts[i], id)
    requires ss[n].now < ss[i].now + 10 * SECOND
    requires Enabled(c, ss[n], acts[n]) && r in ss[n].selections && r in SelectionsAfter(c, ss[n], acts[n])
    requires !Leans(ss[n].selections[r], id) && Leans(SelectionsAfter(c, ss[n], acts[n])[r], id)
    ensures AllReadFailing(ss, acts, n, r, ss[n].selections[r].pool)
  {
    var s, a, q := ss[n], acts[n], ss[n].selections[r];
    SelectionFrame(c, s, a, r);
    InitialIsLocal(c, ss[0]);
    BackedThroughout(c, ss, acts, n, r);
    MarkIsNoReading(ss[i], acts[i], r, id);
    hide *;
    assert i < n;
    MarkedBackendReadsFailing(c, ss, acts, i, n, id);
    AdvancingLeans(c, s, r, id);
    AllSortedFailing(c, ss, acts, n, r, q);
  }

  lemma MarkIsNoReading(s: Sys, a: Action, r: nat, id: string)
    requires Marks(s, a, id)
    ensures a != SelectAdvance(r)
  {
  }

  lemma AdvancingLeans(c: Config, s: Sys, r: nat, id: string)
    requires Enabled(c, s, SelectAdvance(r)) && r in s.selections && r in SelectionsAfter(c, s, SelectAdvance(r))
    requires id in s.backends && FailingNow(s.backends[id], s.now)
    requires !Leans(s.selections[r], id) && Leans(SelectionsAfter(c, s, SelectAdvance(r))[r], id)
    ensures s.selections[r].progress.Scoring?
    ensures forall k :: 0 <= k < |s.selections[r].progress.classes| ==> s.selections[r].progress.classes[k].Failing?
  {
    AdvanceIs(c, s, r);
    NextIs(c, s, SelectAdvance(r));
    AdvanceLeans(c, s, s.selections[r], id);
    hide Enabled, Next, SelectionsAfter, Leans, Advanced;
  }

  lemma AllSortedFailing(c: Config, ss: seq<Sys>, acts: seq<Action>, n: nat, r: nat, q: Selecting)
    requires n <= |acts| < |ss| && Backed(c, ss, acts, n, r, q) && q.progress.Scoring?
    requires forall k :: 0 <= k < |q.progress.classes| ==> q.progress.classes[k].Failing?
    ensures AllReadFailing(ss, acts, n, r, q.pool)
  {
    forall k | 0 <= k < |q.pool|
      ensures ReadAs(ss, acts, n, r, q.pool[k], true)
    {
      assert ReadClass(ss, acts, n, r, q.pool[k], q.progress.classes[k]);
    }
    hide ReadAs, ScoresRead;
  }

  /**
   Exclusion. A selection that returns the marked backend within ten seconds held, when the mark was
   set, a reading of it as not failing that it had made before; or it has read every member of its
   pool as failing. The first exception is real: the module TrustOutlivesMark has a run of it. The
   second is the code's last resort.
   */
  lemma MarkedBackendIsExcluded(c: Config, ss: seq<Sys>, acts: seq<Action>, i: nat, j: nat, r: nat, id: string)
    requires IsRun(c, ss, acts) && Initial(c, ss[0]) && i < j < |acts| && Marks(ss[i], acts[i], id)
    requires Returns(ss[j], acts[j], ss[j + 1], r, id) && ss[j].now < ss[i].now + 10 * SECOND
    ensures r in ss[j].selections
    ensures (r in ss[i].selections && Leans(ss[i].selections[r], id) && ReadAs(ss, acts, i, r, id, false))
         || AllReadFailing(ss, acts, j, r, ss[j].selections[r].pool)
  {
    RunStep(c, ss, acts, j);
    ReturnsDecision(c, ss[j], acts[j], r, id);
    DecidedLeans(ss[j].selections[r], id);
    LeaningIsOld(c, ss, acts, i, i, j, r, id);
    if r in ss[i].selections && Leans(ss[i].selections[r], id) && !AllReadFailing(ss, acts, j, r, ss[j].selections[r].pool) {
      LeaningWasRead(c, ss, acts, i, r, id);
      PoolIsKept(c, ss, acts, i, j, r);
      if AllReadFailing(ss, acts, i, r, ss[i].selections[r].pool) {
        AllFailingLater(ss, acts, i, j, r, ss[i].selections[r].pool);
      }
    }
    hide *;
  }

  lemma DecidedLeans(q: Selecting, id: string)
    requires Decided(q.progress) == Some(id)
    ensures Leans(q, id)
  {
  }

  /** Behind leaning to a backend stands a reading. */
  lemma LeaningWasRead(c: Config, ss: seq<Sys>, acts: seq<Action>, n: nat, r: nat, id: string)
    requires IsRun(c, ss, acts) && Initial(c, ss[0]) && n <= |acts| && r in ss[n].selections && Leans(ss[n].selections[r], id)
    ensures ReadAs(ss, acts, n, r, id, false) || AllReadFailing(ss, acts, n, r, ss[n].selections[r].pool)
  {
    BackedThroughout(c, ss, acts, n, r);
    BackedLeaning(c, ss, acts, n, r, ss[n].selections[r], id);
    hide *;
  }

  lemma BackedLeaning(c: Config, ss: seq<Sys>, acts: seq<Action>, n: nat, r: nat, q: Selecting, id: string)
    requires n <= |acts| < |ss| && Backed(c, ss, acts, n, r, q) && Leans(q, id)
    ensures ReadAs(ss, acts, n, r, id, false) || AllReadFailing(ss, acts, n, r, q.pool)
  {
    hide ReadAs, AllReadFailing, ScoresRead, CandidateIds;
    if (q.progress.Sorting? || q.progress.Scoring?) && SortedClear(q.pool, q.progress.classes, id) {
      var k :| 0 <= k < |q.progress.classes| && k < |q.pool| && q.pool[k] == id && !q.progress.classes[k].Failing?;
      assert ReadClass(ss, acts, n, r, q.pool[k], q.progress.classes[k]);
    }
  }

  /** A selection runs once, with one pool. */
  lemma {:induction false} PoolIsKept(c: Config, ss: seq<Sys>, acts: seq<Action>, i: nat, j: nat, r: nat)
    requires IsRun(c, ss, acts) && Initial(c, ss[0]) && i <= j < |ss| && r in ss[i].selections && r in ss[j].selections
    ensures ss[j].selections[r].pool == ss[i].selections[r].pool
    decreases j
  {
    if i < j {
      var s, a := ss[j - 1], acts[j - 1];
      RunStep(c, ss, acts, j - 1);
      NextIs(c, s, a);
      RunsOnce(c, ss, acts, i, j - 1, r);
      SelectionFrame(c, s, a, r);
      WasRunning(c, s, a, r);
      SelectionKeeps(c, s, a, r);
      PoolIsKept(c, ss, acts, i, j - 1, r);
    }
    hide *;
  }

  lemma WasRunning(c: Config, s: Sys, a: Action, r: nat)
    requires Enabled(c, s, a) && (r in s.selections || r in s.requests) && r in SelectionsAfter(c, s, a)
    ensures r in s.selections
  {
    hide Advanced, SomeMembers, Known;
  }

  /** Once started, a selection is running, or over with a request under its number. */
  lemma {:induction false} RunsOnce(c: Config, ss: seq<Sys>, acts: seq<Action>, i: nat, j: nat, r: nat)
    requires IsRun(c, ss, acts) && i <= j < |ss| && (r in ss[i].selections || r in ss[i].requests)
    ensures r in ss[j].selections || r in ss[j].requests
    decreases j
  {
    if i < j {
      RunsOnce(c, ss, acts, i, j - 1, r);
      RunStep(c, ss, acts, j - 1);
      RunsOn(c, ss[j - 1], acts[j - 1], r);
    }
    hide *;
  }

  lemma RunsOn(c: Config, s: Sys, a: Action, r: nat)
    requires Enabled(c, s, a) && (r in s.selections || r in s.requests)
    ensures r in Next(c, s, a).selections || r in Next(c, s, a).requests
  {
    hide Advanced, SomeMembers, Known, BackendsAfter, PinsNext, CallsAfter, LoopsAfter;
  }

  /** The selection is between a reading of the backend as not failing and its decision. */
  ghost predicate Undecided(s: Sys, r: nat, id: string) {
    r in s.selections && Leans(s.selections[r], id) && Decided(s.selections[r].progress).None?
  }

  /**
   A selection finishes at step j, within ten seconds of the mark at step i, and has read some member
   of its pool as not failing.
   */
  ghost predicate Finishes(c: Config, ss: seq<Sys>, acts: seq<Action>, i: nat, j: nat, r: nat, id: string) {
    && |ss| == |acts| + 1 && IsRun(c, ss, acts) && Initial(c, ss[0]) && i < j < |acts| && Marks(ss[i], acts[i], id)
    && (acts[j] == SelectTouch(r) || acts[j] == SelectPin(r)) && ss[j].now < ss[i].now + 10 * SECOND
    && r in ss[j].selections && !AllReadFailing(ss, acts, j, r, ss[j].selections[r].pool)
  }

  /**
   The exact rule for a selection that finishes within ten seconds of the mark, having read some
   member of its pool as not failing, and that was not between reading the marked backend and
   deciding when the mark was set: it returns the backend if and only if it had decided for it.
   */
  lemma ReturnsIffDecided(c: Config, ss: seq<Sys>, acts: seq<Action>, i: nat, j: nat, r: nat, id: string)
    requires Finishes(c, ss, acts, i, j, r, id) && !Undecided(ss[i], r, id)
    ensures Returns(ss[j], acts[j], ss[j + 1], r, id)
       <==> r in ss[i].selections && Decided(ss[i].selections[r].progress) == Some(id)
  {
    RunStep(c, ss, acts, j);
    ReturnsDecision(c, ss[j], acts[j], r, id);
    InitialIsLocal(c, ss[0]);
    if r in ss[i].selections && Decided(ss[i].selections[r].progress) == Some(id) {
      LocalThroughout(c, ss, acts, i);
      LocalIsSettled(c, ss[i], r, id);
      DecisionStands(c, ss, acts, i, j, r, id);
      SettledDecides(ss[j], r, id);
    }
    if Returns(ss[j], acts[j], ss[j + 1], r, id) {
      MarkedBackendIsExcluded(c, ss, acts, i, j, r, id);
      DecidedOrUndecided(ss[i], r, id);
    }
    hide *;
  }

  /** The selection is running and does not lean to the backend. */
  ghost predicate Away(s: Sys, r: nat, id: string) {
    r in s.selections && !Leans(s.selections[r], id)
  }

  /** The selection is running and has settled on the backend. */
  ghost predicate Bound(s: Sys, r: nat, id: string) {
    r in s.selections && Settled(s, r, id)
  }

  /** If its reading of the load finds the backend overloaded, it does not return it. */
  lemma OverloadedIsLeft(c: Config, ss: seq<Sys>, acts: seq<Action>, i: nat, k: nat, j: nat, r: nat, id: string)
    requires Finishes(c, ss, acts, i, j, r, id) && i < k <= j
    requires Away(ss[k], r, id)
    ensures Decided(ss[j].selections[r].progress) != Some(id)
  {
    hide Leans, Decided, IsRun, Initial, Marks, AllReadFailing;
    if Decided(ss[j].selections[r].progress) == Some(id) {
      DecidedLeans(ss[j].selections[r], id);
      if k < j {
        LeaningIsOld(c, ss, acts, i, k, j, r, id);
      }
    }
  }

  /** Otherwise it returns it. */
  lemma TrustIsKept(c: Config, ss: seq<Sys>, acts: seq<Action>, i: nat, k: nat, j: nat, r: nat, id: string)
    requires Finishes(c, ss, acts, i, j, r, id) && i < k <= j && Bound(ss[k], r, id)
    ensures Decided(ss[j].selections[r].progress) == Some(id)
  {
    hide Settled, Decided, IsRun, Initial, Marks, AllReadFailing;
    DecisionStands(c, ss, acts, k, j, r, id);
    SettledDecides(ss[j], r, id);
  }

  lemma FinishSteps(c: Config, ss: seq<Sys>, acts: seq<Action>, i: nat, j: nat, r: nat, id: string, d: nat)
    requires Finishes(c, ss, acts, i, j, r, id) && d <= j
    ensures Enabled(c, ss[d], acts[d]) && ss[d + 1] == Next(c, ss[d], acts[d])
    ensures Returns(ss[j], acts[j], ss[j + 1], r, id) <==> Decided(ss[j].selections[r].progress) == Some(id)
  {
    hide Returns, Decided, IsRun, Initial, Marks, AllReadFailing, Enabled, Next;
    RunStep(c, ss, acts, j);
    RunStep(c, ss, acts, d);
    ReturnsDecision(c, ss[j], acts[j], r, id);
  }

  /**
   The exact rule for a selection that, at the mark, has read the backend as not failing and is about
   to read its load: it returns the backend if and only if it then finds it not overloaded.
   */
  lemma ReturnsIffNotOverloaded(c: Config, ss: seq<Sys>, acts: seq<Action>, i: nat, d: nat, j: nat, r: nat, id: string)
    requires Finishes(c, ss, acts, i, j, r, id) && i < d < j && acts[d] == SelectAdvance(r)
    requires r in ss[d].selections && ss[d].selections[r].progress == Cleared(id)
    ensures Returns(ss[j], acts[j], ss[j + 1], r, id) <==> !OverloadRead(c, ss[d], r, id)
  {
    FinishSteps(c, ss, acts, i, j, r, id, d);
    hide *;
    LoadReading(c, ss[d], r, id);
    if OverloadRead(c, ss[d], r, id) {
      OverloadedIsLeft(c, ss, acts, i, d + 1, j, r, id);
    } else {
      TrustIsKept(c, ss, acts, i, d + 1, j, r, id);
    }
  }

  /** The selection's reading of its pinned backend's load finds it overloaded. */
  ghost predicate OverloadRead(c: Config, s: Sys, r: nat, id: string)
  {
    && r in s.selections && s.selections[r].group in c.groups && id in s.backends
    && var q := s.selections[r];
       var p := c.groups[q.group].policy;
       Overloaded(s.backends[id], p.maxConcurrency, p.kvLimit, StaleFor(p, q.override), s.now)
  }

  lemma LoadReading(c: Config, s: Sys, r: nat, id: string)
    requires Enabled(c, s, SelectAdvance(r)) && r in s.selections && s.selections[r].progress == Cleared(id)
    ensures var t := Next(c, s, SelectAdvance(r));
            if OverloadRead(c, s, r, id) then Away(t, r, id) else Bound(t, r, id)
  {
    AdvanceIs(c, s, r);
    hide Next, Enabled, Overloaded, StaleFor;
  }

  lemma LocalIsSettled(c: Config, s: Sys, r: nat, id: string)
    requires Local(c, s) && r in s.selections && Decided(s.selections[r].progress) == Some(id)
    ensures Settled(s, r, id)
  {
    assert SelectionLocal(c, s, r);
  }

  lemma SettledDecides(s: Sys, r: nat, id: string)
    requires Settled(s, r, id) && r in s.selections
    ensures Decided(s.selections[r].progress) == Some(id)
  {
  }

  lemma DecidedOrUndecided(s: Sys, r: nat, id: string)
    requires r in s.selections && Leans(s.selections[r], id) && !Undecided(s, r, id)
    ensures Decided(s.selections[r].progress) == Some(id)
  {
  }
}
