/**
 Conservation of the in-flight and flow counters: counting in, sending, answering and counting out
 are separate steps of any number of concurrent requests, and the counters always equal the
 requests at the matching points.
 */
module FlowConservation {
  import opened Common
  import opened BackendModel
  import opened LoadScore
  import opened SelectorModel
  import opened BalancerSystem

  /** Requests between Incr and Decr, including those abandoned by an early return. */
  ghost function Open(s: Sys, id: string): set<nat> {
    set r | r in s.requests && s.requests[r].backend == id && IsOpen(s.requests[r].phase)
  }

  /** Requests between Dispatch and Complete, including the abandoned ones. */
  ghost function Unanswered(s: Sys, id: string): set<nat> {
    set r | r in s.requests && s.requests[r].backend == id && IsUnanswered(s.requests[r].phase)
  }

  ghost function Leaked(s: Sys, id: string): set<nat> {
    set r | r in s.requests && s.requests[r].backend == id && s.requests[r].phase.Abandoned?
  }

  predicate IsOpen(p: Phase) {
    p.Counted? || p.Sent? || p.Answered? || p.Abandoned?
  }

  predicate IsUnanswered(p: Phase) {
    p.Sent? || p.Abandoned?
  }

  /** Between paired steps: counted in but not yet dispatched, or answered but not yet counted out. */
  ghost predicate BetweenPairs(s: Sys, id: string) {
    exists r :: r in s.requests && s.requests[r].backend == id
             && (s.requests[r].phase.Counted? || s.requests[r].phase.Answered?)
  }

  /** The law that every step keeps. */
  ghost predicate Conserved(s: Sys) {
    forall id :: id in s.backends ==> Law(s, id)
  }

  ghost predicate Law(s: Sys, id: string)
    requires id in s.backends
  {
    && s.backends[id].inFlight == |Open(s, id)|
    && Pending(s.backends[id]) == |Unanswered(s, id)|
    && Balanced(s.backends[id].flow)
  }

  function Pending(b: Backend): int {
    b.flow.dispatched - b.flow.completed
  }

  // ---- How one request's move changes the sets -------------------------------------------

  ghost predicate Moves(s: Sys, t: Sys, r: nat, id: string, from: Phase, to: Phase) {
    && r in s.requests && s.requests[r] == Request(id, from)
    && t.requests == s.requests[r := Request(id, to)]
  }

  lemma MovesOpen(s: Sys, t: Sys, r: nat, id: string, from: Phase, to: Phase)
    requires Moves(s, t, r, id, from, to)
    ensures |Open(t, id)| == |Open(s, id)| + One(IsOpen(to)) - One(IsOpen(from))
  {
    var rest := Open(s, id) - {r};
    assert Open(s, id) == if IsOpen(from) then rest + {r} else rest;
    assert Open(t, id) == if IsOpen(to) then rest + {r} else rest;
  }

  lemma MovesUnanswered(s: Sys, t: Sys, r: nat, id: string, from: Phase, to: Phase)
    requires Moves(s, t, r, id, from, to)
    ensures |Unanswered(t, id)| == |Unanswered(s, id)| + One(IsUnanswered(to)) - One(IsUnanswered(from))
  {
    var rest := Unanswered(s, id) - {r};
    assert Unanswered(s, id) == if IsUnanswered(from) then rest + {r} else rest;
    assert Unanswered(t, id) == if IsUnanswered(to) then rest + {r} else rest;
  }

  lemma MovesElsewhere(s: Sys, t: Sys, r: nat, id: string, from: Phase, to: Phase, other: string)
    requires Moves(s, t, r, id, from, to) && other != id
    ensures Open(t, other) == Open(s, other) && Unanswered(t, other) == Unanswered(s, other)
  {
    assert forall q :: q in t.requests && q != r ==> q in s.requests && t.requests[q] == s.requests[q];
  }

  lemma SameSets(s: Sys, t: Sys, id: string)
    requires forall r :: r in t.requests && IsOpen(t.requests[r].phase) ==> r in s.requests && s.requests[r] == t.requests[r]
    requires forall r :: r in s.requests && IsOpen(s.requests[r].phase) ==> r in t.requests && s.requests[r] == t.requests[r]
    ensures Open(t, id) == Open(s, id) && Unanswered(t, id) == Unanswered(s, id)
  {
  }

  /** The request that an action moves, and between which phases. */
  ghost predicate IsMove(c: Config, s: Sys, a: Action)
  {
    a.Incr? || a.Dispatch? || a.Complete? || a.Decr? || a.RecordOutcome? || a.Abandon?
  }

  /** A move changes its own backend's counters by what it changes in the two sets, and no other's. */
  lemma MoveCounts(c: Config, s: Sys, a: Action) returns (id: string, from: Phase, to: Phase)
    requires Enabled(c, s, a) && IsMove(c, s, a)
    ensures Moves(s, Next(c, s, a), a.r, id, from, to)
    ensures var bs := BackendsAfter(c, s, a);
            && bs.Keys == s.backends.Keys
            && (forall o :: o in s.backends && o != id ==> bs[o] == s.backends[o])
            && (id in s.backends ==>
                  && bs[id].inFlight == s.backends[id].inFlight + One(IsOpen(to)) - One(IsOpen(from))
                  && Pending(bs[id]) == Pending(s.backends[id]) + One(IsUnanswered(to)) - One(IsUnanswered(from))
                  && (Balanced(s.backends[id].flow) && Pending(bs[id]) >= 0 ==> Balanced(bs[id].flow)))
  {
    id, from := s.requests[a.r].backend, s.requests[a.r].phase;
    to := RequestsAfter(c, s, a)[a.r].phase;
  }

  lemma ConservedStep(c: Config, s: Sys, a: Action)
    requires Enabled(c, s, a) && Conserved(s)
    ensures Conserved(Next(c, s, a))
  {
    hide Enabled, Open, Unanswered, Balanced;
    var t := Next(c, s, a);
    if IsMove(c, s, a) {
      var id, from, to := MoveCounts(c, s, a);
      MovesOpen(s, t, a.r, id, from, to);
      MovesUnanswered(s, t, a.r, id, from, to);
      forall o | o in t.backends
        ensures Law(t, o)
      {
        assert Law(s, o);
        if o != id {
          MovesElsewhere(s, t, a.r, id, from, to, o);
        }
      }
    } else {
      forall o | o in t.backends
        ensures Law(t, o)
      {
        StillStep(c, s, a, o);
        assert Law(s, o);
      }
    }
  }

  lemma StillStep(c: Config, s: Sys, a: Action, id: string)
    requires Enabled(c, s, a) && !IsMove(c, s, a) && id in BackendsAfter(c, s, a)
    ensures id in s.backends && BackendsAfter(c, s, a)[id].inFlight == s.backends[id].inFlight
    ensures BackendsAfter(c, s, a)[id].flow == s.backends[id].flow
    ensures Open(Next(c, s, a), id) == Open(s, id) && Unanswered(Next(c, s, a), id) == Unanswered(s, id)
  {
    hide Advanced, SomeMembers, Known, Fits;
    SameSets(s, Next(c, s, a), id);
  }

  /** The law holds throughout every run. */
  lemma {:induction false} ConservedThroughout(c: Config, ss: seq<Sys>, acts: seq<Action>, n: nat)
    requires IsRun(c, ss, acts) && Initial(c, ss[0]) && n < |ss|
    ensures Conserved(ss[n])
    decreases n
  {
    if n == 0 {
      forall id | id in ss[0].backends
        ensures Law(ss[0], id)
      {
        assert Open(ss[0], id) == {} && Unanswered(ss[0], id) == {};
      }
    } else {
      ConservedThroughout(c, ss, acts, n - 1);
      assert acts[n - 1] in acts && StepAt(c, ss, acts, n - 1);
      ConservedStep(c, ss[n - 1], acts[n - 1]);
    }
  }

  // ---- What follows ----------------------------------------------------------------------

  /**
   The stall count is never clipped at zero and never exceeds the in-flight count, and the two
   agree exactly when no request of the backend is between paired steps.
   */
  lemma StalledIsExact(s: Sys, id: string)
    requires Conserved(s) && id in s.backends
    ensures var b := s.backends[id];
            && Stats(b.flow).stalled == b.flow.dispatched - b.flow.completed == |Unanswered(s, id)|
            && 0 <= Stats(b.flow).stalled <= b.inFlight
            && (Stats(b.flow).stalled == b.inFlight <==> !BetweenPairs(s, id))
  {
    var open, unanswered := Open(s, id), Unanswered(s, id);
    assert unanswered <= open;
    assert open == unanswered + (open - unanswered);
    if BetweenPairs(s, id) {
      var r :| r in s.requests && s.requests[r].backend == id
            && (s.requests[r].phase.Counted? || s.requests[r].phase.Answered?);
      assert r in open - unanswered;
    } else {
      assert open - unanswered == {};
    }
  }

  /** When every request of a backend is over, its counters read the abandoned requests and no more. */
  lemma QuiescentCounters(s: Sys, id: string)
    requires Conserved(s) && id in s.backends
    requires forall r :: r in s.requests && s.requests[r].backend == id ==>
               s.requests[r].phase.Done? || s.requests[r].phase.Abandoned?
    ensures s.backends[id].inFlight == Stats(s.backends[id].flow).stalled == |Leaked(s, id)|
  {
    assert Open(s, id) == Leaked(s, id) && Unanswered(s, id) == Leaked(s, id);
  }

  /** An abandoned request is never counted out again. */
  lemma {:induction false} LeaksAreForever(c: Config, ss: seq<Sys>, acts: seq<Action>, i: nat, j: nat, id: string)
    requires IsRun(c, ss, acts) && i <= j < |ss|
    ensures Leaked(ss[i], id) <= Leaked(ss[j], id)
    decreases j
  {
    if i < j {
      LeaksAreForever(c, ss, acts, i, j - 1, id);
      assert acts[j - 1] in acts && StepAt(c, ss, acts, j - 1);
    }
  }

  /**
   The price of the early returns between Dispatch and the reverse proxy: after one abandoned
   request probes can no longer demote the backend, for their first check always finds it busy;
   and after eleven it counts as overloaded for good, so no pin to it is honoured again.
   */
  lemma LeaksBlindProbesAndPins(c: Config, ss: seq<Sys>, acts: seq<Action>, i: nat, j: nat, id: string)
    requires IsRun(c, ss, acts) && Initial(c, ss[0]) && i <= j < |ss| && id in ss[i].backends
    ensures id in ss[j].backends
    ensures |Leaked(ss[i], id)| >= 1 ==> ss[j].backends[id].inFlight > 0
    ensures |Leaked(ss[i], id)| > 10 ==>
              forall p: Policy, stale :: Overloaded(ss[j].backends[id], p.maxConcurrency, p.kvLimit, stale, ss[j].now)
  {
    ConservedThroughout(c, ss, acts, j);
    LeaksAreForever(c, ss, acts, i, j, id);
    BackendsStay(c, ss, acts, i, j, id);
    StalledIsExact(ss[j], id);
    SubsetSize(Leaked(ss[i], id), Leaked(ss[j], id));
    SubsetSize(Leaked(ss[j], id), Unanswered(ss[j], id));
  }

  lemma {:induction false} BackendsStay(c: Config, ss: seq<Sys>, acts: seq<Action>, i: nat, j: nat, id: string)
    requires IsRun(c, ss, acts) && i <= j < |ss| && id in ss[i].backends
    ensures id in ss[j].backends
    decreases j
  {
    if i < j {
      BackendsStay(c, ss, acts, i, j - 1, id);
      assert acts[j - 1] in acts && StepAt(c, ss, acts, j - 1);
    }
  }

  /** In every reachable state a backend of positive weight scores within its bounds. */
  lemma ScoresAreBounded(c: Config, ss: seq<Sys>, acts: seq<Action>, n: nat, id: string, stale: Time)
    requires IsRun(c, ss, acts) && Initial(c, ss[0]) && n < |ss| && id in ss[n].backends
    requires ss[n].backends[id].weight > 0 && BaseLoad(ss[n].backends[id], stale, ss[n].now) >= 0.0
    ensures var b, load := ss[n].backends[id], BaseLoad(ss[n].backends[id], stale, ss[n].now);
            var stalls := 3.0 * |Unanswered(ss[n], id)| as real;
            load + stalls <= b.weight as real * Score(b, stale, ss[n].now) <= 12.0 * load + stalls
  {
    ConservedThroughout(c, ss, acts, n);
    StalledIsExact(ss[n], id);
    ScoreBounds(ss[n].backends[id], stale, ss[n].now);
  }
}
