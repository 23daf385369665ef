/**
 The counters of one backend when reloads replace the balancer, and when routes name backends
 directly. Every call of a running request goes to the balancer of the moment, so a request that was
 counted in on an old balancer may be counted out on a new one that never saw it. A request whose
 route names a backend is never counted in, but it is counted out like any other. FlowConservation
 is about a single balancer and the requests it selects for; here is what holds of all of them.
 */
module ReloadedCounters {
  import opened Common

  datatype Counters = Counters(inFlight: int, dispatched: int, completed: int)

  datatype Phase = Selected | Counted | Sent | Answered | Done

  /** A request, and the generation of the balancer on which each of its calls took effect, if any. */
  datatype Request = Request(
    backend: string, phase: Phase,
    counted: Option<nat>, sent: Option<nat>, answered: Option<nat>, released: Option<nat>)

  /** The current generation, its counters, and all requests. */
  datatype State = State(gen: nat, counters: map<string, Counters>, requests: map<nat, Request>)

  datatype Action =
    | Arrive(r: nat, backend: string)
    | Direct(r: nat, backend: string)
    | Incr(r: nat)
    | Dispatch(r: nat)
    | Complete(r: nat)
    | Decr(r: nat)
    | Reload(ids: set<string>)

  const START := State(0, map[], map[])

  predicate InPhase(s: State, r: nat, p: Phase) {
    r in s.requests && s.requests[r].phase == p
  }

  predicate Enabled(s: State, a: Action) {
    match a
    case Arrive(r, _) => r !in s.requests
    case Direct(r, _) => r !in s.requests
    case Incr(r) => InPhase(s, r, Selected)
    case Dispatch(r) => InPhase(s, r, Counted)
    case Complete(r) => InPhase(s, r, Sent)
    case Decr(r) => InPhase(s, r, Answered)
    case Reload(_) => true
  }

  /** The generation that a call for this backend reaches: none if the balancer does not know it. */
  function Reached(s: State, id: string): Option<nat> {
    if id in s.counters then Some(s.gen) else None
  }

  function Bump(s: State, id: string, c: Counters): map<string, Counters> {
    if id in s.counters then s.counters[id := c] else s.counters
  }

  /** The counters of a backend that the balancer may not know. */
  function Of(s: State, id: string): Counters {
    if id in s.counters then s.counters[id] else Counters(0, 0, 0)
  }

  /** CompleteAndDecr holds on to one balancer: its Decr goes where its Complete went. */
  function Next(s: State, a: Action): State
    requires Enabled(s, a)
  {
    match a
    case Arrive(r, id) => s.(requests := s.requests[r := Request(id, Selected, None, None, None, None)])
    // The route names the backend: no Select, Incr or Dispatch.
    case Direct(r, id) => s.(requests := s.requests[r := Request(id, Sent, None, None, None, None)])
    case Incr(r) =>
      var q := s.requests[r];
      var c := Of(s, q.backend);
      s.(counters := Bump(s, q.backend, c.(inFlight := c.inFlight + 1)),
         requests := s.requests[r := q.(phase := Counted, counted := Reached(s, q.backend))])
    case Dispatch(r) =>
      var q := s.requests[r];
      var c := Of(s, q.backend);
      s.(counters := Bump(s, q.backend, c.(dispatched := c.dispatched + 1)),
         requests := s.requests[r := q.(phase := Sent, sent := Reached(s, q.backend))])
    case Complete(r) =>
      var q := s.requests[r];
      var c := Of(s, q.backend);
      s.(counters := Bump(s, q.backend, c.(completed := c.completed + 1)),
         requests := s.requests[r := q.(phase := Answered, answered := Reached(s, q.backend))])
    case Decr(r) =>
      var q := s.requests[r];
      var c := Of(s, q.backend);
      s.(counters := if q.answered == Some(s.gen) then Bump(s, q.backend, c.(inFlight := c.inFlight - 1)) else s.counters,
         requests := s.requests[r := q.(phase := Done, released := q.answered)])
    case Reload(ids) => s.(gen := s.gen + 1, counters := map id | id in ids :: Counters(0, 0, 0))
  }

  function Run(acts: seq<Action>): Option<State>
    decreases |acts|
  {
    if acts == [] then Some(START)
    else
      var front := Run(acts[..|acts| - 1]);
      if front.Some? && Enabled(front.value, acts[|acts| - 1])
      then Some(Next(front.value, acts[|acts| - 1])) else None
  }

  // ---- Who did what on the current balancer ----------------------------------------------

  datatype Call = In | Send | Answer | Out

  function Where(q: Request, call: Call): Option<nat> {
    match call
    case In => q.counted
    case Send => q.sent
    case Answer => q.answered
    case Out => q.released
  }

  /** The backend's requests whose call took effect on the current balancer. */
  ghost function Here(s: State, id: string, call: Call): set<nat> {
    set r | r in s.requests && s.requests[r].backend == id && Where(s.requests[r], call) == Some(s.gen)
  }

  ghost predicate Law(s: State, id: string)
    requires id in s.counters
  {
    && s.counters[id].inFlight == |Here(s, id, In)| - |Here(s, id, Out)|
    && s.counters[id].dispatched == |Here(s, id, Send)|
    && s.counters[id].completed == |Here(s, id, Answer)|
  }

  ghost predicate Sound(s: State) {
    && (forall id :: id in s.counters ==> Law(s, id))
    && (forall r :: r in s.requests ==> RequestSound(s, s.requests[r]))
  }

  predicate NotLater(where: Option<nat>, gen: nat) {
    where.Some? ==> where.value <= gen
  }

  /** Calls that have not been made took effect nowhere, and no call took effect in the future. */
  ghost predicate RequestSound(s: State, q: Request) {
    && (q.phase.Selected? ==> q.counted == None)
    && (q.phase.Selected? || q.phase.Counted? ==> q.sent == None)
    && (q.phase.Selected? || q.phase.Counted? || q.phase.Sent? ==> q.answered == None)
    && (!q.phase.Done? ==> q.released == None)
    && NotLater(q.counted, s.gen) && NotLater(q.sent, s.gen) && NotLater(q.answered, s.gen) && NotLater(q.released, s.gen)
    && (Where(q, Answer) == Some(s.gen) ==> q.backend in s.counters)
  }

  /** Changing one request changes each set by that request at most. */
  lemma HereChanges(s: State, t: State, r: nat, id: string, call: Call)
    requires t.gen == s.gen && r in t.requests && t.requests == s.requests[r := t.requests[r]]
    requires r in s.requests ==> s.requests[r].backend == t.requests[r].backend
    ensures |Here(t, id, call)| == |Here(s, id, call)| + One(r in Here(t, id, call)) - One(r in Here(s, id, call))
  {
    var rest := Here(s, id, call) - {r};
    assert Here(t, id, call) - {r} == rest;
    WithOrWithout(Here(s, id, call), r);
    WithOrWithout(Here(t, id, call), r);
  }

  lemma ReloadKeeps(s: State, ids: set<string>)
    requires Sound(s)
    ensures Sound(Next(s, Reload(ids)))
  {
    var t := Next(s, Reload(ids));
    forall r | r in t.requests
      ensures RequestSound(t, t.requests[r])
    {
      assert RequestSound(s, s.requests[r]);
    }
    forall id | id in t.counters
      ensures Law(t, id)
    {
      forall call
        ensures Here(t, id, call) == {}
      {
        NobodyYet(s, t, id, call);
      }
    }
  }

  lemma NobodyYet(s: State, t: State, id: string, call: Call)
    requires Sound(s) && t.requests == s.requests && t.gen == s.gen + 1
    ensures Here(t, id, call) == {}
  {
    forall r | r in t.requests
      ensures Where(t.requests[r], call) != Some(t.gen)
    {
      assert RequestSound(s, s.requests[r]);
    }
  }

  lemma CallKeeps(s: State, a: Action)
    requires Sound(s) && Enabled(s, a) && !a.Reload?
    ensures Sound(Next(s, a))
  {
    var t := Next(s, a);
    forall q | q in t.requests
      ensures RequestSound(t, t.requests[q])
    {
      if q in s.requests {
        assert RequestSound(s, s.requests[q]);
      }
    }
    forall id | id in t.counters
      ensures Law(t, id)
    {
      CallKeepsLaw(s, a, id);
    }
  }

  lemma CallKeepsLaw(s: State, a: Action, id: string)
    requires Sound(s) && Enabled(s, a) && !a.Reload? && id in s.counters
    ensures id in Next(s, a).counters && Law(Next(s, a), id)
  {
    assert Law(s, id);
    if a.r in s.requests {
      assert RequestSound(s, s.requests[a.r]);
    }
    hide Sound, RequestSound, Here;
    InFlightKept(s, a, id);
    SentKept(s, a, id);
    AnsweredKept(s, a, id);
  }

  ghost predicate Fit(s: State, a: Action) {
    Enabled(s, a) && !a.Reload? && (a.r in s.requests ==> RequestSound(s, s.requests[a.r]))
  }

  lemma InFlightKept(s: State, a: Action, id: string)
    requires Fit(s, a) && id in s.counters && s.counters[id].inFlight == |Here(s, id, In)| - |Here(s, id, Out)|
    ensures var t := Next(s, a);
            id in t.counters && t.counters[id].inFlight == |Here(t, id, In)| - |Here(t, id, Out)|
  {
    HereChanges(s, Next(s, a), a.r, id, In);
    HereChanges(s, Next(s, a), a.r, id, Out);
  }

  lemma SentKept(s: State, a: Action, id: string)
    requires Fit(s, a) && id in s.counters && s.counters[id].dispatched == |Here(s, id, Send)|
    ensures id in Next(s, a).counters && Next(s, a).counters[id].dispatched == |Here(Next(s, a), id, Send)|
  {
    HereChanges(s, Next(s, a), a.r, id, Send);
  }

  lemma AnsweredKept(s: State, a: Action, id: string)
    requires Fit(s, a) && id in s.counters && s.counters[id].completed == |Here(s, id, Answer)|
    ensures id in Next(s, a).counters && Next(s, a).counters[id].completed == |Here(Next(s, a), id, Answer)|
  {
    HereChanges(s, Next(s, a), a.r, id, Answer);
  }

  lemma {:induction false} SoundThroughout(acts: seq<Action>)
    requires Run(acts).Some?
    ensures Sound(Run(acts).value)
    decreases |acts|
  {
    if acts != [] {
      var front, last := acts[..|acts| - 1], acts[|acts| - 1];
      SoundThroughout(front);
      if last.Reload? {
        ReloadKeeps(Run(front).value, last.ids);
      } else {
        CallKeeps(Run(front).value, last);
      }
    }
  }

  // ---- What the counters mean after reloads ----------------------------------------------

  /** Counted in on the current balancer and not yet out of it. */
  ghost function Open(s: State, id: string): set<nat> {
    Here(s, id, In) - Here(s, id, Out)
  }

  /** Counted out of the current balancer although it never counted them in. */
  ghost function Late(s: State, id: string): set<nat> {
    Here(s, id, Out) - Here(s, id, In)
  }

  lemma Difference(a: set<nat>, b: set<nat>)
    ensures |a| - |b| == |a - b| - |b - a|
  {
    assert a == (a - b) + (a * b) && b == (b - a) + (a * b);
  }

  /**
   In every reachable state, whatever reloads happened: the in-flight counter is the number of
   open requests minus the number of late ones. So it is exact if and only if there are no late
   ones, and negative if and only if they are in the majority.
   */
  lemma InFlightIsOpenMinusLate(acts: seq<Action>, id: string)
    requires Run(acts).Some? && id in Run(acts).value.counters
    ensures var s := Run(acts).value;
            var n := s.counters[id].inFlight;
            && n == |Open(s, id)| - |Late(s, id)|
            && (n == |Open(s, id)| <==> Late(s, id) == {})
            && (n < 0 <==> |Late(s, id)| > |Open(s, id)|)
  {
    SoundThroughout(acts);
    var s := Run(acts).value;
    assert Law(s, id);
    Difference(Here(s, id, In), Here(s, id, Out));
  }

  /** Likewise for the stall count: dispatched - completed counts the unanswered minus the answers it never sent for. */
  lemma StalledIsSentMinusLate(acts: seq<Action>, id: string)
    requires Run(acts).Some? && id in Run(acts).value.counters
    ensures var s := Run(acts).value;
            s.counters[id].dispatched - s.counters[id].completed
            == |Here(s, id, Send) - Here(s, id, Answer)| - |Here(s, id, Answer) - Here(s, id, Send)|
  {
    SoundThroughout(acts);
    var s := Run(acts).value;
    assert Law(s, id);
    Difference(Here(s, id, Send), Here(s, id, Answer));
  }

  /** A late request was counted in before the last reload, or was never counted in at all. */
  lemma LateIsFromBefore(acts: seq<Action>, id: string, r: nat)
    requires Run(acts).Some? && r in Late(Run(acts).value, id)
    ensures var s := Run(acts).value;
            s.requests[r].counted == None || s.requests[r].counted.value < s.gen
  {
    SoundThroughout(acts);
    assert RequestSound(Run(acts).value, Run(acts).value.requests[r]);
  }

  /** One request that is under way during a reload is enough to make the new counter negative. */
  lemma ReloadCanMakeItNegative(s: State, r: nat)
    requires InPhase(s, r, Sent)
    ensures var id := s.requests[r].backend;
            var s1 := Next(s, Reload({id}));
            && Enabled(s1, Complete(r)) && Enabled(Next(s1, Complete(r)), Decr(r))
            && Next(Next(s1, Complete(r)), Decr(r)).counters[id] == Counters(-1, 0, 1)
  {
  }

  /** So is one request of a route that names the backend: it takes one off whatever the counter reads. */
  lemma DirectRequestTakesOneOff(s: State, r: nat, id: string)
    requires r !in s.requests && id in s.counters
    ensures var s1 := Next(s, Direct(r, id));
            && Enabled(s, Direct(r, id)) && Enabled(s1, Complete(r)) && Enabled(Next(s1, Complete(r)), Decr(r))
            && var t := Next(Next(s1, Complete(r)), Decr(r));
               id in t.counters && t.counters[id].inFlight == s.counters[id].inFlight - 1 && r in Late(t, id)
  {
  }
}
