/**
 The balancer as a state machine over its concurrent steps. Selections, requests, pin
 invalidations, probe loops and passive-recovery loops interleave freely, and each of them is
 split where another goroutine may run: no lock is held across a selection, so each look at a
 backend, the look-up of the pin and the writing of a pin are steps of their own.
 */
module BalancerSystem {
  import opened Common
  import opened AffinityModel
  import opened BackendModel
  import opened SelectorModel
  import opened LoadScore

  datatype GroupCfg = GroupCfg(unhealthyAfter: int, policy: Policy)

  /** Backend ids are unique, so each id has one owning group. */
  datatype Config = Config(owner: map<string, string>, groups: map<string, GroupCfg>)

  /** How far a proxied request has come. Abandoned ones took an early return after Dispatch. */
  datatype Phase =
    | Selected
    | Counted
    | Sent
    | Answered(success: bool, timedOut: bool)
    | Released(success: bool)
    | Done
    | Abandoned

  datatype Request = Request(backend: string, phase: Phase)

  /**
   How far a running Select has come. It has its pool; the look-up's result; a pinned backend read
   as not failing, then also as not overloaded. Or it is choosing afresh: it has sorted the first
   members of its pool into classes, `clear` telling that it read the next one as not failing; then
   it has read the scores of the first candidates; then it has picked one, found it not ramping up,
   and knows whether to pin it.
   */
  datatype Progress =
    | Started
    | Looked(found: Option<string>)
    | Cleared(b: string)
    | Trusting(b: string)
    | Sorting(classes: seq<Class>, clear: bool)
    | Scoring(classes: seq<Class>, scores: seq<real>)
    | Picked(b: string)
    | Steady(b: string)
    | Writing(b: string, pin: bool)

  datatype Selecting = Selecting(group: string, key: Key, pool: seq<string>, override: Time, progress: Progress)

  /** A running InvalidatePin: the look-up's result, and whether the cooldown has been set. */
  datatype Invalidation = Invalidation(group: string, key: Key, found: Option<string>, marked: bool)

  /** A probe loop between two waits: probing, then the three reads and writes of markUnhealthy. */
  datatype Stage = Waiting | Probing | CheckingLoad | CheckingSuccess | Committing

  /** `first` says that a probe loop has not probed yet; its first probe is unconditional. */
  datatype Loop =
    | Probe(id: string, rampUpSec: int, retryDelaySec: int, first: bool, failures: int, stage: Stage)
    | Passive(id: string, rampUpSec: int, cooldownSec: int, due: bool)

  datatype Sys = Sys(
    now: Time,
    backends: map<string, Backend>,
    pins: map<string, seq<Pin>>,
    selections: map<nat, Selecting>,
    requests: map<nat, Request>,
    calls: map<nat, Invalidation>,
    loops: map<nat, Loop>)

  datatype Action =
    | Tick(elapsed: nat)
    | SelectStart(r: nat, group: string, key: Key, pool: seq<string>, override: Time)
    | SelectAdvance(r: nat)
    | SelectTouch(r: nat)
    | SelectPin(r: nat)
    | Incr(r: nat)
    | Dispatch(r: nat)
    | Complete(r: nat, success: bool, timedOut: bool, ttftMs: real)
    | Decr(r: nat)
    | RecordOutcome(r: nat)
    | Abandon(r: nat)
    | InvalidateGet(t: nat, group: string, key: Key)
    | InvalidateMark(t: nat)
    | InvalidateDelete(t: nat)
    | ProbeStart(j: nat)
    | ProbeOk(j: nat)
    | ProbeFail(j: nat)
    | ProbeCheckLoad(j: nat)
    | ProbeCheckSuccess(j: nat)
    | ProbeCommit(j: nat)
    | ProbeSwitch(j: nat)
    | PassiveCheck(j: nat)
    | PassiveRecover(j: nat)
    | Metrics(id: string, available: bool, running: int, waiting: int, kvCachePct: real)

  // ---- The pool of a group ---------------------------------------------------------------

  ghost function Members(c: Config, s: Sys, g: string): set<string> {
    set id | id in c.owner && c.owner[id] == g && id in s.backends
  }

  /** The healthy members; when there are none, the unhealthy ones whose retry is due now. */
  ghost function PoolSet(c: Config, s: Sys, g: string): set<string> {
    var healthy := set id | id in Members(c, s, g) && s.backends[id].healthy;
    if healthy != {} then healthy
    else set id | id in Members(c, s, g) && !s.backends[id].healthy && RetryDue(s.backends[id], 0, s.now)
  }

  predicate Known(s: Sys, pool: seq<string>) {
    forall i :: 0 <= i < |pool| ==> pool[i] in s.backends
  }

  /** What a selection may start from: every member was read at an instant of its own. See PoolScan. */
  ghost predicate SomeMembers(c: Config, s: Sys, g: string, pool: seq<string>) {
    && Known(s, pool) && |pool| > 0
    && (forall id :: id in pool ==> id in Members(c, s, g))
    && (forall i, j :: 0 <= i < j < |pool| ==> pool[i] != pool[j])
  }

  /** Any enumeration of the pool that one instant yields: the code builds it in map order. */
  ghost predicate IsPool(c: Config, s: Sys, g: string, pool: seq<string>) {
    && Known(s, pool)
    && (forall id :: id in pool <==> id in PoolSet(c, s, g))
    && (forall i, j :: 0 <= i < j < |pool| ==> pool[i] != pool[j])
  }

  lemma PoolIsSomeMembers(c: Config, s: Sys, g: string, pool: seq<string>)
    requires IsPool(c, s, g, pool) && |pool| > 0
    ensures SomeMembers(c, s, g, pool)
  {
  }

  /**
   While nothing changes, every unhealthy member qualifies, for there is no retry delay: so only an
   empty group has an empty pool.
   */
  lemma PoolIsNeverEmpty(c: Config, s: Sys, g: string, pool: seq<string>)
    requires IsPool(c, s, g, pool)
    ensures pool == [] <==> Members(c, s, g) == {}
    ensures (exists id :: id in Members(c, s, g) && s.backends[id].healthy) ==>
              forall id :: id in pool ==> s.backends[id].healthy
  {
    var healthy := set id | id in Members(c, s, g) && s.backends[id].healthy;
    if exists id :: id in Members(c, s, g) && s.backends[id].healthy {
      var id :| id in Members(c, s, g) && s.backends[id].healthy;
      assert id in healthy && id in pool;
    } else {
      assert healthy == {};
      assert forall id :: id in Members(c, s, g) ==> id in pool;
    }
    assert pool == [] || pool[0] in pool;
  }

  function PoolViews(s: Sys, pool: seq<string>): (v: seq<Backend>)
    requires Known(s, pool)
    ensures |v| == |pool|
  {
    seq(|pool|, i requires 0 <= i < |pool| => s.backends[pool[i]])
  }

  function StaleFor(p: Policy, override: Time): Time {
    if override > 0 then override else p.stale
  }

  function PinsIn(s: Sys, g: string): seq<Pin> {
    if g in s.pins then s.pins[g] else []
  }

  // ---- A running selection ---------------------------------------------------------------

  /** The members of the best class that has any, in pool order. */
  function CandidateIds(pool: seq<string>, classes: seq<Class>): seq<string>
    requires |classes| == |pool|
  {
    Pick(pool, classes, Best(classes))
  }

  /** What a selection has recorded fits its pool. */
  predicate Fits(s: Sys, q: Selecting) {
    match q.progress
    case Started => true
    case Looked(_) => true
    case Cleared(b) => b in s.backends
    case Trusting(b) => b in s.backends
    case Sorting(classes, _) => |classes| < |q.pool|
    case Scoring(classes, scores) => |classes| == |q.pool| && |scores| < |CandidateIds(q.pool, classes)|
    case Picked(b) => b in s.backends
    case Steady(b) => b in s.backends
    case Writing(b, _) => b in s.backends
  }

  ghost predicate InProgress(c: Config, s: Sys, r: nat) {
    && r in s.selections && r !in s.requests && s.selections[r].group in c.groups
    && Known(s, s.selections[r].pool) && |s.selections[r].pool| > 0 && Fits(s, s.selections[r])
  }

  /** The selection has something left to read before it touches or writes its pin and returns. */
  predicate Reading(p: Progress) {
    !p.Trusting? && !p.Writing?
  }

  function LookedUp(c: Config, s: Sys, q: Selecting): Option<string>
    requires q.group in c.groups
  {
    if q.key == [] then None
    else match AffinityModel.Get(PinsIn(s, q.group), q.key, s.now, c.groups[q.group].policy.ttl)
      case None => None
      case Some(pin) => Some(pin.backend)
  }

  /** Once every member of the pool is sorted, the candidates are scored. */
  function Sorted(q: Selecting, classes: seq<Class>): Progress {
    if |classes| == |q.pool| then Scoring(classes, []) else Sorting(classes, false)
  }

  /** Once every candidate is scored, the lowest score wins, the key's hash deciding between equals. */
  function Scored(q: Selecting, classes: seq<Class>, scores: seq<real>): Progress
    requires |classes| == |q.pool| && 0 < |scores| <= |CandidateIds(q.pool, classes)|
  {
    if |scores| == |CandidateIds(q.pool, classes)|
    then Picked(CandidateIds(q.pool, classes)[LeastIndex(scores, KeyHash(q.key))])
    else Scoring(classes, scores)
  }

  /** The score of the candidate whose turn it is, as it is read now. */
  function NextScore(c: Config, s: Sys, q: Selecting): real
    requires q.group in c.groups && Known(s, q.pool) && Fits(s, q) && q.progress.Scoring?
  {
    PickFrom(q.pool, q.progress.classes, Best(q.progress.classes), |q.progress.scores|);
    Score(s.backends[CandidateIds(q.pool, q.progress.classes)[|q.progress.scores|]], StaleFor(c.groups[q.group].policy, q.override), s.now)
  }

  /**
   A selection's next reading. Each looks at one backend at one instant; a choice that is not to be
   pinned is settled without reading further.
   */
  function Advanced(c: Config, s: Sys, q: Selecting): Progress
    requires q.group in c.groups && Known(s, q.pool) && Fits(s, q) && Reading(q.progress)
  {
    var p := c.groups[q.group].policy;
    match q.progress
    case Started => Looked(LookedUp(c, s, q))
    case Looked(found) =>
      if found.Some? && found.value in q.pool && !FailingNow(s.backends[found.value], s.now)
      then Cleared(found.value) else Sorting([], false)
    case Cleared(b) =>
      if Overloaded(s.backends[b], p.maxConcurrency, p.kvLimit, StaleFor(p, q.override), s.now)
      then Sorting([], false) else Trusting(b)
    case Sorting(classes, clear) =>
      var b := s.backends[q.pool[|classes|]];
      if clear then Sorted(q, classes + [if RampingNow(b, s.now) then Ramping else Ready])
      else if FailingNow(b, s.now) then Sorted(q, classes + [Failing])
      else Sorting(classes, true)
    case Scoring(classes, scores) => Scored(q, classes, scores + [NextScore(c, s, q)])
    case Picked(b) => if q.key == [] || RampingNow(s.backends[b], s.now) then Writing(b, false) else Steady(b)
    case Steady(b) => Writing(b, !FailingNow(s.backends[b], s.now))
  }

  // ---- Steps -----------------------------------------------------------------------------

  predicate AtStage(s: Sys, j: nat, stage: Stage) {
    j in s.loops && s.loops[j].Probe? && s.loops[j].stage == stage
  }

  predicate InPhase(s: Sys, r: nat, phase: Phase) {
    r in s.requests && s.requests[r].phase == phase
  }

  ghost predicate Enabled(c: Config, s: Sys, a: Action) {
    match a
    case Tick(_) => true
    case SelectStart(r, g, key, pool, _) =>
      r !in s.selections && r !in s.requests && g in c.groups && SomeMembers(c, s, g, pool)
    case SelectAdvance(r) => InProgress(c, s, r) && Reading(s.selections[r].progress)
    case SelectTouch(r) => InProgress(c, s, r) && s.selections[r].progress.Trusting?
    case SelectPin(r) => InProgress(c, s, r) && s.selections[r].progress.Writing?
    case Incr(r) => InPhase(s, r, Selected)
    case Dispatch(r) => InPhase(s, r, Counted)
    case Complete(r, _, _, _) => InPhase(s, r, Sent)
    case Decr(r) => r in s.requests && s.requests[r].phase.Answered?
    case RecordOutcome(r) => r in s.requests && s.requests[r].phase.Released?
    case Abandon(r) => InPhase(s, r, Sent)
    case InvalidateGet(t, g, key) => t !in s.calls && g in c.groups && key != []
    case InvalidateMark(t) => t in s.calls && !s.calls[t].marked
    case InvalidateDelete(t) => t in s.calls && s.calls[t].marked
    case ProbeStart(j) =>
      AtStage(s, j, Waiting)
      && (!s.loops[j].first && s.loops[j].id in s.backends ==> RetryDue(s.backends[s.loops[j].id], s.loops[j].retryDelaySec, s.now))
    case ProbeOk(j) => AtStage(s, j, Probing)
    case ProbeFail(j) => AtStage(s, j, Probing)
    case ProbeCheckLoad(j) => AtStage(s, j, CheckingLoad)
    case ProbeCheckSuccess(j) => AtStage(s, j, CheckingSuccess)
    case ProbeCommit(j) => AtStage(s, j, Committing)
    case ProbeSwitch(j) => AtStage(s, j, Waiting) && !s.loops[j].first
    case PassiveCheck(j) => j in s.loops && s.loops[j].Passive? && !s.loops[j].due
    case PassiveRecover(j) => j in s.loops && s.loops[j].Passive? && s.loops[j].due
    case Metrics(_, _, _, _, _) => true
  }

  /** Writes a backend that exists; the code's look-ups skip unknown ids. */
  function Put(s: Sys, id: string, b: Backend): map<string, Backend> {
    if id in s.backends then s.backends[id := b] else s.backends
  }

  function Threshold(c: Config, id: string): int {
    if id in c.owner && c.owner[id] in c.groups then
      var t := c.groups[c.owner[id]].unhealthyAfter;
      if t == 0 then DEFAULT_THRESHOLD else t
    else DEFAULT_THRESHOLD
  }

  /** markHealthy's ramp-up length for a probe loop whose counter reads `failures`. */
  function ProbeRamp(failures: int, rampUpSec: int): int {
    if failures > 0 && rampUpSec > 0 then rampUpSec else 0
  }

  ghost function BackendsAfter(c: Config, s: Sys, a: Action): map<string, Backend>
    requires Enabled(c, s, a)
  {
    match a
    case Incr(r) =>
      var id := s.requests[r].backend;
      if id in s.backends then Put(s, id, s.backends[id].(inFlight := s.backends[id].inFlight + 1)) else s.backends
    case Dispatch(r) =>
      var id := s.requests[r].backend;
      if id in s.backends then Put(s, id, s.backends[id].(flow := Dispatched(s.backends[id].flow, s.now))) else s.backends
    case Complete(r, success, timedOut, ttftMs) =>
      var id := s.requests[r].backend;
      if id in s.backends
      then Put(s, id, s.backends[id].(flow := Completed(s.backends[id].flow, success, timedOut, ttftMs, s.now)))
      else s.backends
    case Decr(r) =>
      var id := s.requests[r].backend;
      if id in s.backends then Put(s, id, s.backends[id].(inFlight := s.backends[id].inFlight - 1)) else s.backends
    case RecordOutcome(r) =>
      var id := s.requests[r].backend;
      if id in s.backends
      then Put(s, id, OutcomeRecorded(s.backends[id], s.requests[r].phase.success, 3, 0, s.now)) else s.backends
    case InvalidateMark(t) =>
      if s.calls[t].found.Some? && s.calls[t].found.value in Members(c, s, s.calls[t].group)
      then Put(s, s.calls[t].found.value, DispatchFailed(s.backends[s.calls[t].found.value], 10, s.now))
      else s.backends
    case ProbeOk(j) =>
      // The loop zeroes its counter before it asks whether it was positive, so ramp-up never starts here.
      var id, rampSec := s.loops[j].id, ProbeRamp(0, s.loops[j].rampUpSec);
      if id in s.backends then Put(s, id, MadeHealthy(s.backends[id], rampSec, s.now)) else s.backends
    case ProbeCommit(j) =>
      var id := s.loops[j].id;
      if id in s.backends
      then Put(s, id, ProbeFailed(s.backends[id], s.loops[j].failures, Threshold(c, id), s.now)) else s.backends
    case PassiveRecover(j) =>
      var id := s.loops[j].id;
      if id in s.backends then Put(s, id, MadeHealthy(s.backends[id], s.loops[j].rampUpSec, s.now)) else s.backends
    case Metrics(id, available, running, waiting, kv) =>
      if id in s.backends
      then Put(s, id, MetricsUpdated(s.backends[id], available, running, waiting, kv, s.now)) else s.backends
    case _ => s.backends
  }

  ghost function PinsNext(c: Config, s: Sys, a: Action): map<string, seq<Pin>>
    requires Enabled(c, s, a)
  {
    match a
    case SelectTouch(r) =>
      var q := s.selections[r];
      s.pins[q.group := AffinityModel.Touch(PinsIn(s, q.group), q.key, s.now)]
    case SelectPin(r) =>
      var q := s.selections[r];
      if q.progress.pin
      then s.pins[q.group := AffinityModel.Set(PinsIn(s, q.group), q.key, q.progress.b, s.now, c.groups[q.group].policy.maxSize)]
      else s.pins
    case InvalidateDelete(t) =>
      s.pins[s.calls[t].group := Without(PinsIn(s, s.calls[t].group), s.calls[t].key)]
    case _ => s.pins
  }

  ghost function SelectionsAfter(c: Config, s: Sys, a: Action): map<nat, Selecting>
    requires Enabled(c, s, a)
  {
    match a
    case SelectStart(r, g, key, pool, override) => s.selections[r := Selecting(g, key, pool, override, Started)]
    case SelectAdvance(r) => s.selections[r := s.selections[r].(progress := Advanced(c, s, s.selections[r]))]
    case SelectTouch(r) => s.selections - {r}
    case SelectPin(r) => s.selections - {r}
    case _ => s.selections
  }

  ghost function RequestsAfter(c: Config, s: Sys, a: Action): map<nat, Request>
    requires Enabled(c, s, a)
  {
    match a
    case SelectTouch(r) => s.requests[r := Request(s.selections[r].progress.b, Selected)]
    case SelectPin(r) => s.requests[r := Request(s.selections[r].progress.b, Selected)]
    case Incr(r) => s.requests[r := s.requests[r].(phase := Counted)]
    case Dispatch(r) => s.requests[r := s.requests[r].(phase := Sent)]
    case Complete(r, success, timedOut, _) => s.requests[r := s.requests[r].(phase := Answered(success, timedOut))]
    case Decr(r) =>
      var p := s.requests[r].phase;
      s.requests[r := s.requests[r].(phase := if p.timedOut then Done else Released(p.success))]
    case RecordOutcome(r) => s.requests[r := s.requests[r].(phase := Done)]
    case Abandon(r) => s.requests[r := s.requests[r].(phase := Abandoned)]
    case _ => s.requests
  }

  ghost function CallsAfter(c: Config, s: Sys, a: Action): map<nat, Invalidation>
    requires Enabled(c, s, a)
  {
    match a
    case InvalidateGet(t, g, key) =>
      var pin := AffinityModel.Get(PinsIn(s, g), key, s.now, c.groups[g].policy.ttl);
      s.calls[t := Invalidation(g, key, if pin.Some? then Some(pin.value.backend) else None, false)]
    case InvalidateMark(t) => s.calls[t := s.calls[t].(marked := true)]
    case InvalidateDelete(t) => s.calls - {t}
    case _ => s.calls
  }

  ghost function LoopsAfter(c: Config, s: Sys, a: Action): map<nat, Loop>
    requires Enabled(c, s, a)
  {
    match a
    case ProbeStart(j) => s.loops[j := s.loops[j].(first := false, stage := Probing)]
    case ProbeOk(j) => s.loops[j := s.loops[j].(failures := 0, stage := Waiting)]
    case ProbeFail(j) => s.loops[j := s.loops[j].(failures := s.loops[j].failures + 1, stage := CheckingLoad)]
    case ProbeCheckLoad(j) =>
      var busy := s.loops[j].id !in s.backends || s.backends[s.loops[j].id].inFlight > 0;
      s.loops[j := s.loops[j].(stage := if busy then Waiting else CheckingSuccess)]
    case ProbeCheckSuccess(j) =>
      var alive := s.loops[j].id !in s.backends || RecentSuccess(s.backends[s.loops[j].id], s.now);
      s.loops[j := s.loops[j].(stage := if alive then Waiting else Committing)]
    case ProbeCommit(j) => s.loops[j := s.loops[j].(stage := Waiting)]
    // A health loop that finds metrics hands over to a new scrape loop with a counter of its own.
    case ProbeSwitch(j) => s.loops[j := s.loops[j].(first := true, failures := 0)]
    case PassiveCheck(j) =>
      var id := s.loops[j].id;
      var due := id in s.backends && !s.backends[id].healthy && RetryDue(s.backends[id], s.loops[j].cooldownSec, s.now);
      s.loops[j := s.loops[j].(due := due)]
    case PassiveRecover(j) => s.loops[j := s.loops[j].(due := false)]
    case _ => s.loops
  }

  ghost function Next(c: Config, s: Sys, a: Action): Sys
    requires Enabled(c, s, a)
  {
    Sys(if a.Tick? then s.now + a.elapsed else s.now,
        BackendsAfter(c, s, a), PinsNext(c, s, a), SelectionsAfter(c, s, a), RequestsAfter(c, s, a), CallsAfter(c, s, a), LoopsAfter(c, s, a))
  }

  // ---- Runs ------------------------------------------------------------------------------

  /** States ss[0], ss[1], … joined by the actions acts[0], acts[1], … */
  ghost predicate IsRun(c: Config, ss: seq<Sys>, acts: seq<Action>) {
    && |ss| == |acts| + 1
    && forall i {:trigger acts[i]} :: 0 <= i < |acts| ==> StepAt(c, ss, acts, i)
  }

  ghost predicate StepAt(c: Config, ss: seq<Sys>, acts: seq<Action>, i: nat)
    requires |ss| == |acts| + 1 && i < |acts|
  {
    Enabled(c, ss[i], acts[i]) && ss[i + 1] == Next(c, ss[i], acts[i])
  }

  lemma RunStep(c: Config, ss: seq<Sys>, acts: seq<Action>, i: nat)
    requires IsRun(c, ss, acts) && i < |acts|
    ensures Enabled(c, ss[i], acts[i]) && ss[i + 1] == Next(c, ss[i], acts[i])
  {
    assert acts[i] in acts && StepAt(c, ss, acts, i);
  }

  /** A freshly started balancer: healthy backends with clean counters, no pins, idle loops. */
  ghost predicate Initial(c: Config, s: Sys) {
    && (forall id :: id in s.backends ==>
          exists weight, window :: s.backends[id] == NewBackend(id, weight, window))
    && (forall g :: g in s.pins ==> s.pins[g] == [])
    && s.selections == map[] && s.requests == map[] && s.calls == map[]
    && (forall j :: j in s.loops ==>
          if s.loops[j].Probe? then s.loops[j].failures == 0 && s.loops[j].stage == Waiting else !s.loops[j].due)
  }

  lemma {:induction false} TimeIsMonotone(c: Config, ss: seq<Sys>, acts: seq<Action>, i: nat, j: nat)
    requires IsRun(c, ss, acts) && i <= j < |ss|
    ensures ss[i].now <= ss[j].now
    decreases j
  {
    if i < j {
      TimeIsMonotone(c, ss, acts, i, j - 1);
      assert acts[j - 1] in acts;
      assert StepAt(c, ss, acts, j - 1);
    }
  }

  /** No step adds, removes or renames a backend. */
  ghost predicate Named(s: Sys) {
    forall id :: id in s.backends ==> s.backends[id].id == id
  }

  lemma NamesKept(c: Config, s: Sys, a: Action)
    requires Enabled(c, s, a) && Named(s)
    ensures Named(Next(c, s, a)) && Next(c, s, a).backends.Keys == s.backends.Keys
  {
    BackendKeysKept(c, s, a);
    hide SomeMembers, Members, InProgress;
    var bs := BackendsAfter(c, s, a);
    forall id | id in bs
      ensures bs[id].id == id
    {
      assert s.backends[id].id == id;
    }
  }

  lemma BackendKeysKept(c: Config, s: Sys, a: Action)
    requires Enabled(c, s, a)
    ensures BackendsAfter(c, s, a).Keys == s.backends.Keys
  {
    hide SomeMembers, InProgress, OutcomeRecorded, MadeHealthy, ProbeFailed, DispatchFailed, MetricsUpdated, Dispatched, Completed;
  }

  lemma {:induction false} NamedThroughout(c: Config, ss: seq<Sys>, acts: seq<Action>, i: nat, j: nat)
    requires IsRun(c, ss, acts) && i <= j < |ss| && Named(ss[i])
    ensures Named(ss[j]) && ss[j].backends.Keys == ss[i].backends.Keys
    decreases j
  {
    if i < j {
      NamedThroughout(c, ss, acts, i, j - 1);
      assert StepAt(c, ss, acts, j - 1) by {
        assert acts[j - 1] in acts;
      }
      NamesKept(c, ss[j - 1], acts[j - 1]);
    }
  }

  lemma NextIs(c: Config, s: Sys, a: Action)
    requires Enabled(c, s, a)
    ensures var t := Next(c, s, a);
            && t.now == (if a.Tick? then s.now + a.elapsed else s.now)
            && t.backends == BackendsAfter(c, s, a) && t.pins == PinsNext(c, s, a)
            && t.selections == SelectionsAfter(c, s, a) && t.requests == RequestsAfter(c, s, a)
            && t.calls == CallsAfter(c, s, a) && t.loops == LoopsAfter(c, s, a)
  {
  }

  // ---- What a step leaves alone ----------------------------------------------------------

  /** What a step makes of one group's pins: a touch, a set, a deletion, or nothing. */
  lemma PinsFrame(c: Config, s: Sys, a: Action, g: string)
    requires Enabled(c, s, a) && g in c.groups
    ensures var pins, t := PinsIn(s, g), PinsIn(Next(c, s, a), g);
            if a.SelectTouch? && s.selections[a.r].group == g
            then t == AffinityModel.Touch(pins, s.selections[a.r].key, s.now)
            else if a.SelectPin? && s.selections[a.r].group == g && s.selections[a.r].progress.pin
            then t == AffinityModel.Set(pins, s.selections[a.r].key, s.selections[a.r].progress.b, s.now, c.groups[g].policy.maxSize)
            else if a.InvalidateDelete? && s.calls[a.t].group == g
            then t == Without(pins, s.calls[a.t].key)
            else t == pins
  {
    hide AffinityModel.Touch, AffinityModel.Set, Without, BackendsAfter, SelectionsAfter, RequestsAfter, CallsAfter, LoopsAfter;
  }

  /** Other steps leave a running selection as it is, and only SelectStart begins one. */
  lemma SelectionFrame(c: Config, s: Sys, a: Action, r: nat)
    requires Enabled(c, s, a) && r in SelectionsAfter(c, s, a)
    ensures r in s.selections && a != SelectAdvance(r) ==> SelectionsAfter(c, s, a)[r] == s.selections[r]
    ensures r !in s.selections ==>
              && a.SelectStart? && a.r == r && a.group in c.groups && SomeMembers(c, s, a.group, a.pool)
              && SelectionsAfter(c, s, a)[r] == Selecting(a.group, a.key, a.pool, a.override, Started)
    ensures r !in s.requests ==> r !in RequestsAfter(c, s, a)
  {
    hide SomeMembers, Advanced, Known, Fits;
  }

  lemma AdvanceIs(c: Config, s: Sys, r: nat)
    requires Enabled(c, s, SelectAdvance(r))
    ensures var q, t := s.selections[r], Next(c, s, SelectAdvance(r));
            && r in s.selections && InProgress(c, s, r) && Reading(q.progress)
            && t == s.(selections := s.selections[r := q.(progress := Advanced(c, s, q))])
  {
    hide Advanced;
  }

  /** A running selection keeps its group, key and pool. */
  lemma SelectionKeeps(c: Config, s: Sys, a: Action, r: nat)
    requires Enabled(c, s, a) && r in s.selections && r in SelectionsAfter(c, s, a)
    ensures var q, u := s.selections[r], SelectionsAfter(c, s, a)[r];
            u == q.(progress := u.progress)
  {
    hide SomeMembers, Advanced, Known, Fits;
  }
}
