/**
 The balancer's compound methods, when nothing interrupts them, are consecutive steps of the
 state machine: the machine splits them where another goroutine may run, and adds nothing.
 */
module BalancerRefinement {
  import opened Common
  import opened AffinityModel
  import opened BackendModel
  import opened BalancerSystem
  import Balancer

  ghost predicate Steps(c: Config, s: Sys, acts: seq<Action>, t: Sys)
    decreases |acts|
  {
    if acts == [] then s == t else Enabled(c, s, acts[0]) && Steps(c, Next(c, s, acts[0]), acts[1..], t)
  }

  lemma StepThen(c: Config, s: Sys, a: Action, rest: seq<Action>, t: Sys)
    requires Enabled(c, s, a) && Steps(c, Next(c, s, a), rest, t)
    ensures Steps(c, s, [a] + rest, t)
  {
    assert ([a] + rest)[1..] == rest;
    hide Next, Enabled;
  }

  lemma StepOnce(c: Config, s: Sys, a: Action)
    requires Enabled(c, s, a)
    ensures Steps(c, s, [a], Next(c, s, a))
  {
    assert [a][1..] == [];
    assert Steps(c, Next(c, s, a), [], Next(c, s, a));
    hide Next, Enabled;
  }

  lemma StepTwice(c: Config, s: Sys, a: Action, b: Action)
    requires Enabled(c, s, a) && Enabled(c, Next(c, s, a), b)
    ensures Steps(c, s, [a, b], Next(c, Next(c, s, a), b))
  {
    hide Next, Enabled, Steps;
    StepOnce(c, Next(c, s, a), b);
    StepThen(c, s, a, [b], Next(c, Next(c, s, a), b));
    assert [a] + [b] == [a, b];
  }

  // ---- Requests --------------------------------------------------------------------------

  lemma CompleteIs(c: Config, s: Sys, r: nat, success: bool, timedOut: bool, ttftMs: real)
    requires r in s.requests && s.requests[r].phase.Sent? && s.requests[r].backend in s.backends
    ensures var id, b, a := s.requests[r].backend, s.backends[s.requests[r].backend], Complete(r, success, timedOut, ttftMs);
            && Enabled(c, s, a)
            && Next(c, s, a) == s.(backends := s.backends[id := b.(flow := Completed(b.flow, success, timedOut, ttftMs, s.now))],
                                   requests := s.requests[r := Request(id, Answered(success, timedOut))])
  {
    hide Completed;
  }

  lemma DecrIs(c: Config, s: Sys, r: nat)
    requires r in s.requests && s.requests[r].phase.Answered? && s.requests[r].backend in s.backends
    ensures var id, b, p := s.requests[r].backend, s.backends[s.requests[r].backend], s.requests[r].phase;
            && Enabled(c, s, Decr(r))
            && Next(c, s, Decr(r)) == s.(backends := s.backends[id := b.(inFlight := b.inFlight - 1)],
                                         requests := s.requests[r := Request(id, if p.timedOut then Done else Released(p.success))])
  {
  }

  lemma OutcomeIs(c: Config, s: Sys, r: nat)
    requires r in s.requests && s.requests[r].phase.Released? && s.requests[r].backend in s.backends
    ensures var id, b, p := s.requests[r].backend, s.backends[s.requests[r].backend], s.requests[r].phase;
            && Enabled(c, s, RecordOutcome(r))
            && Next(c, s, RecordOutcome(r)) == s.(backends := s.backends[id := OutcomeRecorded(b, p.success, 3, 0, s.now)],
                                                  requests := s.requests[r := Request(id, Done)])
  {
    hide OutcomeRecorded;
  }

  /** CompleteAndDecr is Complete, Decr and, unless it timed out, RecordOutcome. */
  lemma CompleteAndDecrIsSteps(c: Config, s: Sys, r: nat, success: bool, timedOut: bool, ttftMs: real) returns (t: Sys)
    requires r in s.requests && s.requests[r].phase.Sent? && s.requests[r].backend in s.backends
    ensures var id, b := s.requests[r].backend, s.backends[s.requests[r].backend];
            var acts := [Complete(r, success, timedOut, ttftMs), Decr(r)] + if timedOut then [] else [RecordOutcome(r)];
            && Steps(c, s, acts, t)
            && t == s.(backends := s.backends[id := Balancer.CountedOut(b, success, timedOut, ttftMs, s.now)],
                       requests := s.requests[r := Request(id, Done)])
  {
    hide Enabled, Next, Steps, Completed, OutcomeRecorded;
    var complete := Complete(r, success, timedOut, ttftMs);
    CompleteIs(c, s, r, success, timedOut, ttftMs);
    var s1 := Next(c, s, complete);
    DecrIs(c, s1, r);
    var s2 := Next(c, s1, Decr(r));
    if timedOut {
      t := s2;
      StepTwice(c, s, complete, Decr(r));
      assert [complete, Decr(r)] + [] == [complete, Decr(r)];
    } else {
      OutcomeIs(c, s2, r);
      t := Next(c, s2, RecordOutcome(r));
      StepTwice(c, s1, Decr(r), RecordOutcome(r));
      StepThen(c, s, complete, [Decr(r), RecordOutcome(r)], t);
      assert [complete] + [Decr(r), RecordOutcome(r)] == [complete, Decr(r)] + [RecordOutcome(r)];
    }
  }

  // ---- Probes ----------------------------------------------------------------------------

  /** The uninterrupted markHealthy of a probe loop whose probe succeeded. */
  lemma MarkHealthyIsStep(c: Config, s: Sys, j: nat)
    requires AtStage(s, j, Probing) && s.loops[j].id in s.backends
    ensures Enabled(c, s, ProbeOk(j))
    ensures Next(c, s, ProbeOk(j)) ==
              s.(backends := s.backends[s.loops[j].id := MadeHealthy(s.backends[s.loops[j].id], 0, s.now)],
                 loops := s.loops[j := s.loops[j].(failures := 0, stage := Waiting)])
  {
  }

  lemma BusyIsSpared(c: Config, s: Sys, j: nat)
    requires AtStage(s, j, CheckingLoad) && s.loops[j].id in s.backends && s.backends[s.loops[j].id].inFlight > 0
    ensures Steps(c, s, [ProbeCheckLoad(j)], s.(loops := s.loops[j := s.loops[j].(stage := Waiting)]))
  {
    StepOnce(c, s, ProbeCheckLoad(j));
    hide Steps;
  }

  lemma UsefulIsSpared(c: Config, s: Sys, j: nat)
    requires AtStage(s, j, CheckingLoad) && s.loops[j].id in s.backends && s.backends[s.loops[j].id].inFlight <= 0
    requires RecentSuccess(s.backends[s.loops[j].id], s.now)
    ensures Steps(c, s, [ProbeCheckLoad(j), ProbeCheckSuccess(j)], s.(loops := s.loops[j := s.loops[j].(stage := Waiting)]))
  {
    hide Steps, SomeMembers, InProgress;
    StepTwice(c, s, ProbeCheckLoad(j), ProbeCheckSuccess(j));
    assert s.loops[j := s.loops[j].(stage := CheckingSuccess)][j := s.loops[j].(stage := Waiting)]
        == s.loops[j := s.loops[j].(stage := Waiting)];
  }

  /** The two checks that find nothing lead to the commit. */
  lemma ChecksPass(c: Config, s: Sys, j: nat)
    requires AtStage(s, j, CheckingLoad) && s.loops[j].id in s.backends && s.backends[s.loops[j].id].inFlight <= 0
    requires !RecentSuccess(s.backends[s.loops[j].id], s.now)
    ensures Enabled(c, s, ProbeCheckLoad(j))
    ensures var s1 := Next(c, s, ProbeCheckLoad(j));
            && Enabled(c, s1, ProbeCheckSuccess(j))
            && Next(c, s1, ProbeCheckSuccess(j)) == s.(loops := s.loops[j := s.loops[j].(stage := Committing)])
  {
    assert s.loops[j := s.loops[j].(stage := CheckingSuccess)][j := s.loops[j].(stage := Committing)]
        == s.loops[j := s.loops[j].(stage := Committing)];
  }

  lemma CommitIs(c: Config, s: Sys, j: nat)
    requires AtStage(s, j, Committing) && s.loops[j].id in s.backends
    requires s.loops[j].id in c.owner && c.owner[s.loops[j].id] in c.groups
    ensures var id := s.loops[j].id;
            var limit := c.groups[c.owner[id]].unhealthyAfter;
            && Enabled(c, s, ProbeCommit(j))
            && Next(c, s, ProbeCommit(j)) ==
                 s.(backends := s.backends[id := ProbeFailed(s.backends[id], s.loops[j].failures, if limit == 0 then DEFAULT_THRESHOLD else limit, s.now)],
                    loops := s.loops[j := s.loops[j].(stage := Waiting)])
  {
  }

  lemma SuspectIsMarked(c: Config, s: Sys, j: nat) returns (t: Sys)
    requires AtStage(s, j, CheckingLoad) && s.loops[j].id in s.backends && s.backends[s.loops[j].id].inFlight <= 0
    requires !RecentSuccess(s.backends[s.loops[j].id], s.now)
    requires s.loops[j].id in c.owner && c.owner[s.loops[j].id] in c.groups
    ensures Steps(c, s, [ProbeCheckLoad(j), ProbeCheckSuccess(j), ProbeCommit(j)], t)
    ensures var id, b := s.loops[j].id, s.backends[s.loops[j].id];
            t == s.(backends := s.backends[id := Balancer.Suspected(b, s.loops[j].failures, c.groups[c.owner[id]].unhealthyAfter, s.now)],
                    loops := s.loops[j := s.loops[j].(stage := Waiting)])
  {
    ChecksPass(c, s, j);
    hide Steps, Enabled, Next, ProbeFailed;
    var s1 := Next(c, s, ProbeCheckLoad(j));
    var s2 := Next(c, s1, ProbeCheckSuccess(j));
    CommitIs(c, s2, j);
    t := Next(c, s2, ProbeCommit(j));
    StepTwice(c, s1, ProbeCheckSuccess(j), ProbeCommit(j));
    StepThen(c, s, ProbeCheckLoad(j), [ProbeCheckSuccess(j), ProbeCommit(j)], t);
    assert [ProbeCheckLoad(j)] + [ProbeCheckSuccess(j), ProbeCommit(j)] == [ProbeCheckLoad(j), ProbeCheckSuccess(j), ProbeCommit(j)];
    assert s2.loops[j := s2.loops[j].(stage := Waiting)] == s.loops[j := s.loops[j].(stage := Waiting)];
  }

  /** The uninterrupted markUnhealthy of a probe loop, from its failed probe back to waiting. */
  lemma MarkUnhealthyIsSteps(c: Config, s: Sys, j: nat) returns (t: Sys, acts: seq<Action>)
    requires AtStage(s, j, CheckingLoad) && s.loops[j].id in s.backends
    requires s.loops[j].id in c.owner && c.owner[s.loops[j].id] in c.groups
    ensures var id, b := s.loops[j].id, s.backends[s.loops[j].id];
            && Steps(c, s, acts, t)
            && t == s.(backends := s.backends[id := Balancer.Suspected(b, s.loops[j].failures, c.groups[c.owner[id]].unhealthyAfter, s.now)],
                       loops := s.loops[j := s.loops[j].(stage := Waiting)])
  {
    hide Steps, ProbeFailed;
    var id := s.loops[j].id;
    assert s.backends[id := s.backends[id]] == s.backends;
    if s.backends[id].inFlight > 0 {
      BusyIsSpared(c, s, j);
      acts, t := [ProbeCheckLoad(j)], s.(loops := s.loops[j := s.loops[j].(stage := Waiting)]);
    } else if RecentSuccess(s.backends[id], s.now) {
      UsefulIsSpared(c, s, j);
      acts, t := [ProbeCheckLoad(j), ProbeCheckSuccess(j)], s.(loops := s.loops[j := s.loops[j].(stage := Waiting)]);
    } else {
      t := SuspectIsMarked(c, s, j);
      acts := [ProbeCheckLoad(j), ProbeCheckSuccess(j), ProbeCommit(j)];
    }
  }

  // ---- Passive recovery ------------------------------------------------------------------

  /** One uninterrupted tick of a passive-recovery loop: the check and, if it is due, the recovery. */
  lemma PassiveTickIsSteps(c: Config, s: Sys, j: nat) returns (t: Sys, acts: seq<Action>)
    requires j in s.loops && s.loops[j].Passive? && !s.loops[j].due && s.loops[j].id in s.backends
    ensures var id, b := s.loops[j].id, s.backends[s.loops[j].id];
            && Steps(c, s, acts, t)
            && t == s.(backends := s.backends[id := if !b.healthy && RetryDue(b, s.loops[j].cooldownSec, s.now)
                                                    then MadeHealthy(b, s.loops[j].rampUpSec, s.now) else b])
  {
    hide Steps, SomeMembers, InProgress;
    var id := s.loops[j].id;
    var s1 := Next(c, s, PassiveCheck(j));
    if s1.loops[j].due {
      acts, t := [PassiveCheck(j), PassiveRecover(j)], Next(c, s1, PassiveRecover(j));
      StepTwice(c, s, PassiveCheck(j), PassiveRecover(j));
      assert s1.loops[j := s.loops[j]] == s.loops;
    } else {
      acts, t := [PassiveCheck(j)], s1;
      StepOnce(c, s, PassiveCheck(j));
      assert s.loops[j := s.loops[j]] == s.loops;
      assert s.backends[id := s.backends[id]] == s.backends;
    }
  }

  // ---- Invalidation ----------------------------------------------------------------------

  /** The backend that a look-up of the key finds, if the group has it. */
  ghost function Marked(c: Config, s: Sys, g: string, key: Key): Option<string>
    requires g in c.groups
  {
    var pin := AffinityModel.Get(PinsIn(s, g), key, s.now, c.groups[g].policy.ttl);
    if pin.Some? && pin.value.backend in Members(c, s, g) then Some(pin.value.backend) else None
  }

  lemma MarkIs(c: Config, s: Sys, n: nat, g: string, key: Key)
    requires n !in s.calls && g in c.groups && key != []
    ensures var pin := AffinityModel.Get(PinsIn(s, g), key, s.now, c.groups[g].policy.ttl);
            var call := Invalidation(g, key, if pin.Some? then Some(pin.value.backend) else None, true);
            var s1 := Next(c, s, InvalidateGet(n, g, key));
            && Enabled(c, s, InvalidateGet(n, g, key)) && Enabled(c, s1, InvalidateMark(n))
            && Next(c, s1, InvalidateMark(n)) == s.(calls := s.calls[n := call], backends :=
                 match Marked(c, s, g, key)
                 case Some(id) => s.backends[id := DispatchFailed(s.backends[id], 10, s.now)]
                 case None => s.backends)
  {
    hide SomeMembers, InProgress, AffinityModel.Get;
    var s1 := Next(c, s, InvalidateGet(n, g, key));
    assert Members(c, s1, g) == Members(c, s, g);
    var call := s1.calls[n];
    assert s.calls[n := call][n := call.(marked := true)] == s.calls[n := call.(marked := true)];
  }

  /** The uninterrupted InvalidatePin: look-up, cooldown, deletion. */
  lemma InvalidatePinIsSteps(c: Config, s: Sys, n: nat, g: string, key: Key) returns (t: Sys)
    requires n !in s.calls && g in c.groups && key != []
    ensures Steps(c, s, [InvalidateGet(n, g, key), InvalidateMark(n), InvalidateDelete(n)], t)
    ensures t == s.(pins := s.pins[g := Without(PinsIn(s, g), key)], backends :=
                 match Marked(c, s, g, key)
                 case Some(id) => s.backends[id := DispatchFailed(s.backends[id], 10, s.now)]
                 case None => s.backends)
  {
    MarkIs(c, s, n, g, key);
    var s1 := Next(c, s, InvalidateGet(n, g, key));
    var s2 := Next(c, s1, InvalidateMark(n));
    t := Next(c, s2, InvalidateDelete(n));
    assert s2.calls - {n} == s.calls;
    hide Steps, Enabled, Marked, Without, DispatchFailed;
    assert Enabled(c, s2, InvalidateDelete(n)) by {
      DeleteEnabled(c, s2, n);
    }
    StepTwice(c, s1, InvalidateMark(n), InvalidateDelete(n));
    StepThen(c, s, InvalidateGet(n, g, key), [InvalidateMark(n), InvalidateDelete(n)], t);
    assert [InvalidateGet(n, g, key)] + [InvalidateMark(n), InvalidateDelete(n)]
        == [InvalidateGet(n, g, key), InvalidateMark(n), InvalidateDelete(n)];
  }

  lemma DeleteEnabled(c: Config, s: Sys, n: nat)
    requires n in s.calls && s.calls[n].marked
    ensures Enabled(c, s, InvalidateDelete(n))
  {
  }
}
