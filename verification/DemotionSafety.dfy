/**
 Who may take a backend out of service, over every run that mixes requests, timeouts, probes,
 passive recovery and pin invalidations.
 */
module DemotionSafety {
  import opened Common
  import opened BalancerSystem

  // ---- One step --------------------------------------------------------------------------

  /** A counted non-timeout failure of a request to `id` that brings the counter to three or more. */
  ghost predicate DemotesByTraffic(s: Sys, a: Action, id: string) {
    && a.RecordOutcome? && a.r in s.requests && s.requests[a.r] == Request(id, Released(false))
    && id in s.backends && s.backends[id].failures + 1 >= 3
  }

  /** The last step of a probe loop of `id` whose own count has reached the group's threshold. */
  ghost predicate DemotesByProbe(c: Config, s: Sys, a: Action, id: string) {
    && a.ProbeCommit? && AtStage(s, a.j, Committing)
    && s.loops[a.j].id == id && s.loops[a.j].failures >= Threshold(c, id)
  }

  lemma OnlyTwoStepsDemote(c: Config, s: Sys, a: Action, id: string)
    requires Enabled(c, s, a) && id in s.backends
    requires s.backends[id].healthy && id in BackendsAfter(c, s, a) && !BackendsAfter(c, s, a)[id].healthy
    ensures DemotesByTraffic(s, a, id) || DemotesByProbe(c, s, a, id)
  {
  }

  // ---- The evidence behind a probe's demotion --------------------------------------------

  /** Step i is the in-flight check of loop j, and it found the backend idle. */
  ghost predicate FoundIdle(ss: seq<Sys>, acts: seq<Action>, i: nat, j: nat)
    requires |ss| == |acts| + 1 && i < |acts|
  {
    && acts[i] == ProbeCheckLoad(j) && j in ss[i].loops
    && ss[i].loops[j].id in ss[i].backends && ss[i].backends[ss[i].loops[j].id].inFlight <= 0
  }

  /** Step i is the success check of loop j, and no success was recorded in the last 60 seconds. */
  ghost predicate FoundQuiet(ss: seq<Sys>, acts: seq<Action>, i: nat, j: nat)
    requires |ss| == |acts| + 1 && i < |acts|
  {
    && acts[i] == ProbeCheckSuccess(j) && j in ss[i].loops
    && ss[i].loops[j].id in ss[i].backends
    && ss[i].now - ss[i].backends[ss[i].loops[j].id].lastSuccessAt >= 60 * SECOND
  }

  ghost predicate FailedAt(ss: seq<Sys>, acts: seq<Action>, i: nat, j: nat)
    requires |ss| == |acts| + 1 && i < |acts|
  {
    acts[i] == ProbeFail(j) && j in ss[i].loops
  }

  ghost predicate OwnStep(a: Action, j: nat) {
    || a == ProbeStart(j) || a == ProbeOk(j) || a == ProbeFail(j)
    || a == ProbeCheckLoad(j) || a == ProbeCheckSuccess(j) || a == ProbeCommit(j) || a == ProbeSwitch(j)
  }

  ghost predicate NoOwnStep(acts: seq<Action>, j: nat, lo: nat, hi: nat) {
    forall k :: lo <= k < hi && k < |acts| ==> !OwnStep(acts[k], j)
  }

  /**
   What a loop's stage proves about the past: a probe failed at step `f`; if the loop is past the
   first check it found the backend idle at step `l`, and past the second check quiet at step `q`;
   and the loop did nothing else since.
   */
  datatype Trail = Trail(f: nat, l: nat, q: nat)

  ghost predicate Backed(ss: seq<Sys>, acts: seq<Action>, n: nat, j: nat, t: Trail)
    requires |ss| == |acts| + 1 && n < |ss| && j in ss[n].loops && ss[n].loops[j].Probe?
  {
    match ss[n].loops[j].stage
    case Waiting => true
    case Probing => true
    case CheckingLoad =>
      t.f < n && FailedAt(ss, acts, t.f, j) && NoOwnStep(acts, j, t.f + 1, n)
    case CheckingSuccess =>
      && t.f < t.l < n && FailedAt(ss, acts, t.f, j) && FoundIdle(ss, acts, t.l, j)
      && NoOwnStep(acts, j, t.f + 1, t.l) && NoOwnStep(acts, j, t.l + 1, n)
    case Committing =>
      && t.f < t.l < t.q < n
      && FailedAt(ss, acts, t.f, j) && FoundIdle(ss, acts, t.l, j) && FoundQuiet(ss, acts, t.q, j)
      && NoOwnStep(acts, j, t.f + 1, t.l) && NoOwnStep(acts, j, t.l + 1, t.q) && NoOwnStep(acts, j, t.q + 1, n)
  }

  lemma LoopsPersist(c: Config, s: Sys, a: Action, j: nat)
    requires Enabled(c, s, a) && j in s.loops && s.loops[j].Probe?
    ensures j in LoopsAfter(c, s, a) && LoopsAfter(c, s, a)[j].Probe? && LoopsAfter(c, s, a)[j].id == s.loops[j].id
    ensures !OwnStep(a, j) ==> LoopsAfter(c, s, a)[j] == s.loops[j]
  {
  }

  lemma LoopsAppear(c: Config, s: Sys, a: Action, j: nat)
    requires Enabled(c, s, a) && j in LoopsAfter(c, s, a) && LoopsAfter(c, s, a)[j].Probe?
    ensures j in s.loops && s.loops[j].Probe?
  {
  }

  /** One step extends the trail of a loop. */
  lemma TrailNext(c: Config, ss: seq<Sys>, acts: seq<Action>, n: nat, j: nat, t: Trail) returns (u: Trail)
    requires |ss| == |acts| + 1 && n < |acts| && StepAt(c, ss, acts, n)
    requires j in ss[n].loops && ss[n].loops[j].Probe? && Backed(ss, acts, n, j, t)
    ensures j in ss[n + 1].loops && ss[n + 1].loops[j].Probe? && Backed(ss, acts, n + 1, j, u)
  {
    LoopsPersist(c, ss[n], acts[n], j);
    if OwnStep(acts[n], j) {
      u := OwnTrail(c, ss, acts, n, j, t);
    } else {
      u := t;
      IdleTrail(ss, acts, n, j, t);
    }
  }

  lemma IdleTrail(ss: seq<Sys>, acts: seq<Action>, n: nat, j: nat, t: Trail)
    requires |ss| == |acts| + 1 && n < |acts| && !OwnStep(acts[n], j)
    requires j in ss[n].loops && ss[n].loops[j].Probe? && Backed(ss, acts, n, j, t)
    requires j in ss[n + 1].loops && ss[n + 1].loops[j] == ss[n].loops[j]
    ensures Backed(ss, acts, n + 1, j, t)
  {
  }

  lemma OwnTrail(c: Config, ss: seq<Sys>, acts: seq<Action>, n: nat, j: nat, t: Trail) returns (u: Trail)
    requires |ss| == |acts| + 1 && n < |acts| && StepAt(c, ss, acts, n) && OwnStep(acts[n], j)
    requires j in ss[n].loops && ss[n].loops[j].Probe? && Backed(ss, acts, n, j, t)
    requires j in ss[n + 1].loops && ss[n + 1].loops[j].Probe?
    ensures Backed(ss, acts, n + 1, j, u)
  {
    hide BackendsAfter, PinsNext, RequestsAfter, CallsAfter;
    if acts[n] == ProbeFail(j) {
      u := t.(f := n);
    } else if acts[n] == ProbeCheckLoad(j) {
      u := t.(l := n);
    } else if acts[n] == ProbeCheckSuccess(j) {
      u := t.(q := n);
    } else {
      u := t;
    }
  }

  lemma {:induction false} TrailExists(c: Config, ss: seq<Sys>, acts: seq<Action>, n: nat, j: nat) returns (t: Trail)
    requires IsRun(c, ss, acts) && Initial(c, ss[0]) && n < |ss| && j in ss[n].loops && ss[n].loops[j].Probe?
    ensures Backed(ss, acts, n, j, t)
    decreases n
  {
    if n == 0 {
      t := Trail(0, 0, 0);
    } else {
      assert StepAt(c, ss, acts, n - 1) by {
        assert acts[n - 1] in acts;
      }
      LoopsAppear(c, ss[n - 1], acts[n - 1], j);
      t := TrailExists(c, ss, acts, n - 1, j);
      t := TrailNext(c, ss, acts, n - 1, j, t);
    }
  }

  /** The trail's checks were made on the backend that the loop watches now. */
  lemma {:induction false} LoopKeepsId(c: Config, ss: seq<Sys>, acts: seq<Action>, i: nat, n: nat, j: nat)
    requires IsRun(c, ss, acts) && i <= n < |ss| && j in ss[i].loops && ss[i].loops[j].Probe?
    ensures j in ss[n].loops && ss[n].loops[j].Probe? && ss[n].loops[j].id == ss[i].loops[j].id
    decreases n
  {
    if i < n {
      LoopKeepsId(c, ss, acts, i, n - 1, j);
      assert StepAt(c, ss, acts, n - 1) by {
        assert acts[n - 1] in acts;
      }
      LoopsPersist(c, ss[n - 1], acts[n - 1], j);
    }
  }

  /** At step l a probe loop of `id` saw nothing in flight, and at a later step q no recent success. */
  ghost predicate ProbeEvidence(ss: seq<Sys>, acts: seq<Action>, n: nat, j: nat, id: string, l: nat, q: nat)
    requires |ss| == |acts| + 1
  {
    && l < q < n <= |acts| && acts[l] == ProbeCheckLoad(j) && acts[q] == ProbeCheckSuccess(j)
    && id in ss[l].backends && ss[l].backends[id].inFlight <= 0
    && id in ss[q].backends && ss[q].now - ss[q].backends[id].lastSuccessAt >= 60 * SECOND
    && NoOwnStep(acts, j, l + 1, q) && NoOwnStep(acts, j, q + 1, n)
  }

  /** Consecutive failed probes of loop j among the first n steps, since its last success or its start. */
  ghost function FailedProbes(acts: seq<Action>, n: nat, j: nat): nat
    requires n <= |acts|
  {
    if n == 0 then 0
    else if acts[n - 1] == ProbeFail(j) then FailedProbes(acts, n - 1, j) + 1
    else if acts[n - 1] == ProbeOk(j) || acts[n - 1] == ProbeSwitch(j) then 0
    else FailedProbes(acts, n - 1, j)
  }

  lemma {:induction false} LoopCountsFailedProbes(c: Config, ss: seq<Sys>, acts: seq<Action>, n: nat, j: nat)
    requires IsRun(c, ss, acts) && Initial(c, ss[0]) && n < |ss| && j in ss[n].loops && ss[n].loops[j].Probe?
    ensures ss[n].loops[j].failures == FailedProbes(acts, n, j)
    decreases n
  {
    if n > 0 {
      RunStep(c, ss, acts, n - 1);
      NextIs(c, ss[n - 1], acts[n - 1]);
      LoopsAppear(c, ss[n - 1], acts[n - 1], j);
      LoopCountsFailedProbes(c, ss, acts, n - 1, j);
      CounterNext(c, ss[n - 1], acts[n - 1], j);
      hide Next, Enabled, LoopsAfter, IsRun, Initial;
    }
  }

  /** A failed probe counts one up, a good probe or a new start resets, nothing else touches the counter. */
  lemma CounterNext(c: Config, s: Sys, a: Action, j: nat)
    requires Enabled(c, s, a) && j in s.loops && s.loops[j].Probe?
    ensures j in LoopsAfter(c, s, a) && LoopsAfter(c, s, a)[j].Probe?
    ensures LoopsAfter(c, s, a)[j].failures ==
              if a == ProbeFail(j) then s.loops[j].failures + 1
              else if a == ProbeOk(j) || a == ProbeSwitch(j) then 0
              else s.loops[j].failures
  {
    hide SomeMembers, InProgress;
  }

  /**
   Every healthy-to-unhealthy step of a run is one of two kinds: a non-timeout request failure
   that brings the counter to at least three, or the last of at least `threshold` consecutive
   failed probes, whose own checks saw no request in flight and no success in the last sixty seconds.
   */
  lemma DemotionIsJustified(c: Config, ss: seq<Sys>, acts: seq<Action>, n: nat, id: string)
    requires IsRun(c, ss, acts) && Initial(c, ss[0]) && n < |acts|
    requires id in ss[n].backends && ss[n].backends[id].healthy
    requires id in ss[n + 1].backends && !ss[n + 1].backends[id].healthy
    ensures DemotesByTraffic(ss[n], acts[n], id)
         || (DemotesByProbe(c, ss[n], acts[n], id)
             && FailedProbes(acts, n, acts[n].j) >= Threshold(c, id)
             && exists l, q :: ProbeEvidence(ss, acts, n, acts[n].j, id, l, q))
  {
    assert StepAt(c, ss, acts, n) by {
      assert acts[n] in acts;
    }
    OnlyTwoStepsDemote(c, ss[n], acts[n], id);
    if DemotesByProbe(c, ss[n], acts[n], id) {
      var j := acts[n].j;
      var t := TrailExists(c, ss, acts, n, j);
      LoopCountsFailedProbes(c, ss, acts, n, j);
      LoopsPresent(c, ss, acts, t.l, n, j);
      LoopsPresent(c, ss, acts, t.q, n, j);
      assert ProbeEvidence(ss, acts, n, j, id, t.l, t.q);
    }
  }

  lemma LoopsPresent(c: Config, ss: seq<Sys>, acts: seq<Action>, i: nat, n: nat, j: nat)
    requires IsRun(c, ss, acts) && i <= n < |ss| && j in ss[n].loops && ss[n].loops[j].Probe?
    ensures j in ss[i].loops && ss[i].loops[j].Probe? && ss[i].loops[j].id == ss[n].loops[j].id
    decreases n
  {
    if i < n {
      assert StepAt(c, ss, acts, n - 1) by {
        assert acts[n - 1] in acts;
      }
      LoopsAppear(c, ss[n - 1], acts[n - 1], j);
      LoopsPresent(c, ss, acts, i, n - 1, j);
      LoopKeepsId(c, ss, acts, i, n, j);
    }
  }

  // ---- The counter invariant -------------------------------------------------------------

  ghost predicate CounterBounded(c: Config, s: Sys) {
    forall id :: id in s.backends && s.backends[id].healthy ==> s.backends[id].failures < Max(3, Threshold(c, id))
  }

  lemma CounterStep(c: Config, s: Sys, a: Action)
    requires Enabled(c, s, a) && CounterBounded(c, s)
    ensures CounterBounded(c, Next(c, s, a))
  {
    var t := Next(c, s, a);
    forall id | id in t.backends && t.backends[id].healthy
      ensures t.backends[id].failures < Max(3, Threshold(c, id))
    {
      assert id in s.backends;
    }
  }

  /** In every reachable state a healthy backend's counter is below max(3, threshold). */
  lemma {:induction false} HealthyMeansFewFailures(c: Config, ss: seq<Sys>, acts: seq<Action>, n: nat)
    requires IsRun(c, ss, acts) && Initial(c, ss[0]) && n < |ss|
    ensures CounterBounded(c, ss[n])
    decreases n
  {
    if n == 0 {
      forall id | id in ss[0].backends && ss[0].backends[id].healthy
        ensures ss[0].backends[id].failures < Max(3, Threshold(c, id))
      {
      }
    } else {
      HealthyMeansFewFailures(c, ss, acts, n - 1);
      assert StepAt(c, ss, acts, n - 1) by {
        assert acts[n - 1] in acts;
      }
      CounterStep(c, ss[n - 1], acts[n - 1]);
    }
  }

  // ---- Ramp-up ---------------------------------------------------------------------------

  /** Only a passive recovery with a positive ramp-up length ever puts a backend into ramp-up. */
  lemma RampUpOnlyByPassiveRecovery(c: Config, s: Sys, a: Action, id: string)
    requires Enabled(c, s, a) && id in s.backends && !s.backends[id].rampingUp
    requires id in Next(c, s, a).backends && Next(c, s, a).backends[id].rampingUp
    ensures a.PassiveRecover? && s.loops[a.j].id == id && s.loops[a.j].rampUpSec > 0
  {
  }

  /** So a system whose loops are all probe loops never ramps up, however it is configured. */
  lemma {:induction false} ProbesNeverRampUp(c: Config, ss: seq<Sys>, acts: seq<Action>, n: nat, id: string)
    requires IsRun(c, ss, acts) && Initial(c, ss[0]) && n < |ss| && id in ss[n].backends
    requires forall a :: a in acts ==> !a.PassiveRecover?
    ensures !ss[n].backends[id].rampingUp
    decreases n
  {
    if n > 0 {
      assert acts[n - 1] in acts && StepAt(c, ss, acts, n - 1);
      var s, a := ss[n - 1], acts[n - 1];
      assert id in s.backends;
      ProbesNeverRampUp(c, ss, acts, n - 1, id);
      if ss[n].backends[id].rampingUp {
        RampUpOnlyByPassiveRecovery(c, s, a, id);
      }
    }
  }
}
