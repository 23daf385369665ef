/**
 Per-backend concurrency limits across configuration reloads. Each reload makes a new generation
 of semaphores; requests that look up, wait on or hold an old one go on with that one.
 */
module Semaphores {
  import opened Common

  // ---- The code --------------------------------------------------------------------------

  datatype BackendCfg = BackendCfg(id: string, maxConcurrency: int)

  /** The semaphore that a list of backends configures for an id: its last limited entry decides. */
  function LimitOf(backends: seq<BackendCfg>, id: string): Option<int> {
    if backends == [] then None
    else
      var last := backends[|backends| - 1];
      if last.id == id && last.maxConcurrency > 0 then Some(last.maxConcurrency)
      else LimitOf(backends[..|backends| - 1], id)
  }

  lemma {:induction false} LimitIsPositive(backends: seq<BackendCfg>, id: string)
    ensures LimitOf(backends, id).Some? ==> LimitOf(backends, id).value > 0
  {
    if backends != [] {
      LimitIsPositive(backends[..|backends| - 1], id);
    }
  }

  /** A buffered channel used as a semaphore: its length counts the tokens in it. */
  class Channel {
    const capacity: nat
    var tokens: nat

    constructor (capacity: nat)
      ensures this.capacity == capacity && tokens == 0
    {
      this.capacity, tokens := capacity, 0;
    }

    /** A send that need not block. */
    method Acquire()
      requires tokens < capacity
      modifies this
      ensures tokens == old(tokens) + 1 <= capacity
    {
      tokens := tokens + 1;
    }

    /** A receive that need not block. */
    method Release()
      requires tokens > 0
      modifies this
      ensures tokens == old(tokens) - 1
    {
      tokens := tokens - 1;
    }
  }

  class Server {
    var semaphores: map<string, Channel>

    constructor ()
      ensures semaphores == map[]
    {
      semaphores := map[];
    }

    /** A fresh, empty semaphore for every limited backend, and none for the others. */
    method BuildSemaphores(backends: seq<BackendCfg>)
      modifies this
      ensures forall id :: id in semaphores <==> LimitOf(backends, id).Some?
      ensures forall id :: id in semaphores ==>
                && fresh(semaphores[id]) && semaphores[id].tokens == 0
                && semaphores[id].capacity == LimitOf(backends, id).value
      ensures semaphores.Keys == Mapping(backends, 0).Keys
      ensures forall id :: id in semaphores ==>
                && Mapping(backends, 0)[id] < |Built(backends)|
                && Built(backends)[Mapping(backends, 0)[id]] == Sem(id, semaphores[id].capacity, semaphores[id].tokens)
    {
      forall id {
        BuiltIs(backends, 0, id);
      }
      hide Built, Mapping;
      var sems: map<string, Channel> := map[];
      for i := 0 to |backends|
        invariant forall id :: id in sems <==> LimitOf(backends[..i], id).Some?
        invariant forall id :: id in sems ==>
                    && fresh(sems[id]) && sems[id].tokens == 0
                    && sems[id].capacity == LimitOf(backends[..i], id).value
      {
        assert backends[..i + 1][..i] == backends[..i];
        var b := backends[i];
        if b.maxConcurrency > 0 {
          var ch := new Channel(b.maxConcurrency);
          sems := sems[b.id := ch];
        }
      }
      assert backends[..|backends|] == backends;
      semaphores := sems;
    }

    /** The channel a request will use from now on; none means unlimited. */
    method Lookup(id: string) returns (ch: Channel?)
      ensures ch == if id in semaphores then semaphores[id] else null
    {
      ch := if id in semaphores then semaphores[id] else null;
    }
  }

  // ---- The protocol ----------------------------------------------------------------------

  /** A semaphore generation: which backend it belongs to, its limit, and the tokens in it. */
  datatype Sem = Sem(backend: string, limit: nat, tokens: nat)

  datatype Phase = Waiting(gen: nat) | Holding(gen: nat) | Unlimited | Over

  datatype Request = Request(backend: string, phase: Phase)

  datatype State = State(current: map<string, nat>, sems: seq<Sem>, requests: map<nat, Request>)

  datatype Action =
    | Reload(backends: seq<BackendCfg>)
    | LookUp(r: nat, backend: string)
    | Enter(r: nat)
    | Cancel(r: nat)
    | Leave(r: nat)

  /** The generations that one reload adds after the first n, in the order of the configuration. */
  function Built(backends: seq<BackendCfg>): seq<Sem> {
    if backends == [] then []
    else
      var front, last := Built(backends[..|backends| - 1]), backends[|backends| - 1];
      if last.maxConcurrency > 0 then front + [Sem(last.id, last.maxConcurrency, 0)] else front
  }

  function Mapping(backends: seq<BackendCfg>, n: nat): map<string, nat> {
    if backends == [] then map[]
    else
      var front, last := backends[..|backends| - 1], backends[|backends| - 1];
      if last.maxConcurrency > 0 then Mapping(front, n)[last.id := n + |Built(front)|] else Mapping(front, n)
  }

  /** The generations of a reload are what BuildSemaphores builds: one for each limited id, with its limit. */
  lemma {:induction false} BuiltIs(backends: seq<BackendCfg>, n: nat, id: string)
    ensures id in Mapping(backends, n) <==> LimitOf(backends, id).Some?
    ensures id in Mapping(backends, n) ==>
              && n <= Mapping(backends, n)[id] < n + |Built(backends)|
              && LimitOf(backends, id).value > 0
              && Built(backends)[Mapping(backends, n)[id] - n] == Sem(id, LimitOf(backends, id).value, 0)
    decreases |backends|
  {
    if backends != [] {
      BuiltIs(backends[..|backends| - 1], n, id);
    }
  }

  ghost predicate Enabled(s: State, a: Action) {
    match a
    case Reload(_) => true
    case LookUp(r, _) => r !in s.requests
    case Enter(r) =>
      r in s.requests && s.requests[r].phase.Waiting? && s.requests[r].phase.gen < |s.sems|
      && s.sems[s.requests[r].phase.gen].tokens < s.sems[s.requests[r].phase.gen].limit
    case Cancel(r) => r in s.requests && s.requests[r].phase.Waiting?
    case Leave(r) =>
      r in s.requests
      && (s.requests[r].phase.Unlimited?
          || (s.requests[r].phase.Holding? && s.requests[r].phase.gen < |s.sems| && s.sems[s.requests[r].phase.gen].tokens > 0))
  }

  function WithTokens(sems: seq<Sem>, g: nat, tokens: nat): seq<Sem>
    requires g < |sems|
  {
    sems[g := sems[g].(tokens := tokens)]
  }

  ghost function Next(s: State, a: Action): State
    requires Enabled(s, a)
  {
    match a
    case Reload(backends) => s.(sems := s.sems + Built(backends), current := Mapping(backends, |s.sems|))
    case LookUp(r, backend) =>
      s.(requests := s.requests[r :=
           Request(backend, if backend in s.current then Waiting(s.current[backend]) else Unlimited)])
    case Enter(r) =>
      var g := s.requests[r].phase.gen;
      s.(sems := WithTokens(s.sems, g, s.sems[g].tokens + 1), requests := s.requests[r := s.requests[r].(phase := Holding(g))])
    case Cancel(r) => s.(requests := s.requests[r := s.requests[r].(phase := Over)])
    case Leave(r) =>
      var q := s.requests[r];
      s.(sems := if q.phase.Holding? then WithTokens(s.sems, q.phase.gen, s.sems[q.phase.gen].tokens - 1) else s.sems,
         requests := s.requests[r := q.(phase := Over)])
  }

  const START := State(map[], [], map[])

  ghost function Run(acts: seq<Action>): Option<State>
    decreases |acts|
  {
    if acts == [] then Some(START)
    else
      var front := Run(acts[..|acts| - 1]);
      if front.Some? && Enabled(front.value, acts[|acts| - 1])
      then Some(Next(front.value, acts[|acts| - 1])) else None
  }

  ghost function Holders(s: State, g: nat): set<nat> {
    set r | r in s.requests && s.requests[r].phase == Holding(g)
  }

  ghost predicate Sound(s: State) {
    && (forall g :: 0 <= g < |s.sems| ==> TokensCount(s, g))
    && (forall b :: b in s.current ==> s.current[b] < |s.sems| && s.sems[s.current[b]].backend == b)
    && (forall r :: r in s.requests ==> PhaseSound(s, s.requests[r]))
  }

  ghost predicate TokensCount(s: State, g: nat)
    requires g < |s.sems|
  {
    s.sems[g].tokens == |Holders(s, g)| <= s.sems[g].limit
  }

  ghost predicate PhaseSound(s: State, q: Request) {
    q.phase.Waiting? || q.phase.Holding? ==> q.phase.gen < |s.sems| && s.sems[q.phase.gen].backend == q.backend
  }

  // ---- Every step keeps it ---------------------------------------------------------------

  lemma {:induction false} MappingSound(backends: seq<BackendCfg>, n: nat)
    ensures forall b :: b in Mapping(backends, n) ==>
              && n <= Mapping(backends, n)[b] < n + |Built(backends)|
              && Built(backends)[Mapping(backends, n)[b] - n].backend == b
    ensures forall i :: 0 <= i < |Built(backends)| ==> Built(backends)[i].tokens == 0
  {
    if backends != [] {
      MappingSound(backends[..|backends| - 1], n);
    }
  }

  lemma ReloadKeeps(s: State, backends: seq<BackendCfg>)
    requires Sound(s)
    ensures Sound(Next(s, Reload(backends)))
  {
    var t := Next(s, Reload(backends));
    MappingSound(backends, |s.sems|);
    forall g | 0 <= g < |t.sems|
      ensures TokensCount(t, g)
    {
      assert Holders(t, g) == Holders(s, g);
      if g < |s.sems| {
        assert TokensCount(s, g);
      } else {
        assert Holders(s, g) == {};
      }
    }
    forall r | r in t.requests
      ensures PhaseSound(t, t.requests[r])
    {
      assert PhaseSound(s, s.requests[r]);
    }
  }

  ghost predicate SameBut(s: State, t: State, r: nat) {
    forall q {:trigger q in s.requests} {:trigger q in t.requests} :: q != r ==>
      (q in s.requests <==> q in t.requests) && (q in s.requests ==> s.requests[q] == t.requests[q])
  }

  /** A request that takes or gives back a slot of g changes g's holders by itself, and no other generation's. */
  lemma HoldersChange(s: State, t: State, r: nat, g: nat)
    requires SameBut(s, t, r)
    ensures |Holders(t, g)| == |Holders(s, g)| + One(r in Holders(t, g)) - One(r in Holders(s, g))
  {
    var rest := Holders(s, g) - {r};
    assert Holders(t, g) - {r} == rest;
    WithOrWithout(Holders(s, g), r);
    WithOrWithout(Holders(t, g), r);
  }

  lemma RequestKeeps(s: State, a: Action)
    requires Sound(s) && Enabled(s, a) && !a.Reload?
    ensures Sound(Next(s, a))
  {
    var t := Next(s, a);
    forall g | 0 <= g < |t.sems|
      ensures TokensCount(t, g)
    {
      assert TokensCount(s, g);
      HoldersChange(s, t, a.r, g);
    }
    forall q | q in t.requests
      ensures PhaseSound(t, t.requests[q])
    {
      if q in s.requests {
        assert PhaseSound(s, s.requests[q]);
      }
    }
  }

  /** The law holds in every reachable state. */
  lemma {:induction false} SoundThroughout(acts: seq<Action>)
    requires Run(acts).Some?
    ensures Sound(Run(acts).value)
    decreases |acts|
  {
    if acts != [] {
      var front, last := acts[..|acts| - 1], acts[|acts| - 1];
      SoundThroughout(front);
      if last.Reload? {
        ReloadKeeps(Run(front).value, last.backends);
      } else {
        RequestKeeps(Run(front).value, last);
      }
    } else {
      assert |START.sems| == 0;
    }
  }

  // ---- What follows ----------------------------------------------------------------------

  /**
   In every reachable state each generation's tokens are its holders and never exceed its own
   limit, and a holder can always give its slot back without blocking, whichever reloads happened
   while it held or waited.
   */
  lemma ReleaseNeverBlocks(acts: seq<Action>, r: nat)
    requires Run(acts).Some? && r in Run(acts).value.requests && Run(acts).value.requests[r].phase.Holding?
    ensures var s, g := Run(acts).value, Run(acts).value.requests[r].phase.gen;
            && g < |s.sems| && s.sems[g].tokens == |Holders(s, g)| <= s.sems[g].limit
            && Enabled(s, Leave(r)) && Holders(Next(s, Leave(r)), g) == Holders(s, g) - {r}
  {
    SoundThroughout(acts);
    var s := Run(acts).value;
    assert PhaseSound(s, s.requests[r]);
    var g := s.requests[r].phase.gen;
    assert TokensCount(s, g);
    assert r in Holders(s, g);
  }

  /** With the last holder gone, a generation is empty again: no token is ever lost. */
  lemma NoHolderNoToken(acts: seq<Action>, g: nat)
    requires Run(acts).Some? && g < |Run(acts).value.sems|
    ensures Run(acts).value.sems[g].tokens == 0 <==> Holders(Run(acts).value, g) == {}
  {
    SoundThroughout(acts);
    assert TokensCount(Run(acts).value, g);
  }

  // ---- The limit of a backend ------------------------------------------------------------

  /** The requests being served by a backend: those that hold a slot, and those that needed none. */
  ghost function Serving(s: State, b: string): set<nat> {
    set r | r in s.requests && s.requests[r].backend == b && (s.requests[r].phase.Holding? || s.requests[r].phase.Unlimited?)
  }

  /**
   The backend's limit holds as long as everybody it serves holds a slot of one generation: then
   there are no more of them than that generation allows.
   */
  lemma OneGenerationKeepsLimit(acts: seq<Action>, b: string, g: nat)
    requires Run(acts).Some? && g < |Run(acts).value.sems|
    requires forall r :: r in Serving(Run(acts).value, b) ==> Run(acts).value.requests[r].phase == Holding(g)
    ensures |Serving(Run(acts).value, b)| <= Run(acts).value.sems[g].limit
  {
    SoundThroughout(acts);
    var s := Run(acts).value;
    assert TokensCount(s, g);
    assert Serving(s, b) <= Holders(s, g);
    SubsetSize(Serving(s, b), Holders(s, g));
  }

  /**
   A request of the backend that is not bound by its current semaphore: it holds or awaits a slot
   of an older generation, or was let in while the backend had no limit.
   */
  ghost predicate Outsider(s: State, b: string) {
    b in s.current && exists r :: r in s.requests && IsOutsider(s, b, r)
  }

  ghost predicate IsOutsider(s: State, b: string, r: nat)
    requires b in s.current && r in s.requests
  {
    s.requests[r].backend == b
    && (s.requests[r].phase.Unlimited?
        || ((s.requests[r].phase.Holding? || s.requests[r].phase.Waiting?) && s.requests[r].phase.gen != s.current[b]))
  }

  ghost predicate NoReload(acts: seq<Action>) {
    forall i :: 0 <= i < |acts| ==> !acts[i].Reload?
  }

  lemma RunPrefix(acts: seq<Action>, more: seq<Action>)
    requires more != []
    ensures (acts + more)[..|acts + more| - 1] == acts + more[..|more| - 1]
    ensures (acts + more)[|acts + more| - 1] == more[|more| - 1]
  {
  }

  /** Without outsiders and without a further reload, nobody ever becomes one, and the limit stays what it is. */
  lemma {:induction false} InsidersStay(acts: seq<Action>, more: seq<Action>, b: string)
    requires Run(acts).Some? && b in Run(acts).value.current && !Outsider(Run(acts).value, b)
    requires NoReload(more) && Run(acts + more).Some?
    ensures var s, t := Run(acts).value, Run(acts + more).value;
            t.current == s.current && !Outsider(t, b) && |t.sems| == |s.sems|
            && forall g :: 0 <= g < |s.sems| ==> t.sems[g].limit == s.sems[g].limit
    decreases |more|
  {
    if more == [] {
      assert acts + more == acts;
    } else {
      RunPrefix(acts, more);
      InsidersStay(acts, more[..|more| - 1], b);
      InsidersStep(Run(acts + more[..|more| - 1]).value, more[|more| - 1], b);
    }
  }

  lemma InsidersStep(s: State, a: Action, b: string)
    requires Enabled(s, a) && !a.Reload? && b in s.current && !Outsider(s, b)
    ensures var t := Next(s, a);
            t.current == s.current && !Outsider(t, b) && |t.sems| == |s.sems|
            && forall g :: 0 <= g < |s.sems| ==> t.sems[g].limit == s.sems[g].limit
  {
    var t := Next(s, a);
    forall r | r in t.requests
      ensures !IsOutsider(t, b, r)
    {
      if r in s.requests {
        assert !IsOutsider(s, b, r);
      }
    }
  }

  lemma InsidersKeepLimit(acts: seq<Action>, b: string)
    requires Run(acts).Some? && b in Run(acts).value.current && !Outsider(Run(acts).value, b)
    ensures var s := Run(acts).value;
            s.current[b] < |s.sems| && |Serving(s, b)| <= s.sems[s.current[b]].limit
  {
    SoundThroughout(acts);
    var s := Run(acts).value;
    forall r | r in Serving(s, b)
      ensures s.requests[r].phase == Holding(s.current[b])
    {
      assert !IsOutsider(s, b, r);
    }
    OneGenerationKeepsLimit(acts, b, s.current[b]);
  }

  lemma {:induction false} LimitsPositive(acts: seq<Action>)
    requires Run(acts).Some?
    ensures forall g :: 0 <= g < |Run(acts).value.sems| ==> Run(acts).value.sems[g].limit > 0
    decreases |acts|
  {
    if acts != [] {
      LimitsPositive(acts[..|acts| - 1]);
      if acts[|acts| - 1].Reload? {
        BuiltPositive(acts[|acts| - 1].backends);
      }
    }
  }

  lemma {:induction false} BuiltPositive(backends: seq<BackendCfg>)
    ensures forall i :: 0 <= i < |Built(backends)| ==> Built(backends)[i].limit > 0
  {
    if backends != [] {
      BuiltPositive(backends[..|backends| - 1]);
    }
  }

  /** Some request is served beside the current semaphore. */
  ghost predicate ServedOutside(s: State, b: string, o: nat) {
    b in s.current && o in Serving(s, b) && s.requests[o].phase != Holding(s.current[b])
  }

  /** An outsider is served already, or will be after one step, unless all older slots are taken by others. */
  lemma OutsiderIsServed(acts: seq<Action>, b: string) returns (more: seq<Action>, o: nat)
    requires Run(acts).Some? && Outsider(Run(acts).value, b)
    ensures NoReload(more) && Run(acts + more).Some? && ServedOutside(Run(acts + more).value, b, o)
    ensures Run(acts + more).value.current == Run(acts).value.current
  {
    SoundThroughout(acts);
    LimitsPositive(acts);
    var s := Run(acts).value;
    var r :| r in s.requests && IsOutsider(s, b, r);
    assert PhaseSound(s, s.requests[r]);
    more, o := [], r;
    assert acts + [] == acts;
    if s.requests[r].phase.Waiting? {
      var g := s.requests[r].phase.gen;
      assert TokensCount(s, g);
      if s.sems[g].tokens < s.sems[g].limit {
        more := [Enter(r)];
        var t := RunNext(acts, s, Enter(r));
      } else {
        assert Holders(s, g) != {};
        o :| o in Holders(s, g);
        assert PhaseSound(s, s.requests[o]);
      }
    }
  }

  lemma NewId(m: map<nat, Request>) returns (r: nat)
    ensures r !in m
  {
    r := Above(m.Keys);
  }

  lemma Above(ids: set<nat>) returns (n: nat)
    ensures forall x :: x in ids ==> x < n
    decreases |ids|
  {
    n := 0;
    if ids != {} {
      var x :| x in ids;
      var m := Above(ids - {x});
      n := if m > x then m else x + 1;
      assert forall y :: y in ids ==> y == x || y in ids - {x};
    }
  }

  /** There is a slot left in the backend's current semaphore. */
  ghost predicate HasRoom(s: State, b: string) {
    b in s.current && s.current[b] < |s.sems| && s.sems[s.current[b]].tokens < s.sems[s.current[b]].limit
  }

  lemma LooksUpAndEnters(s: State, b: string, o: nat, r: nat)
    requires HasRoom(s, b) && ServedOutside(s, b, o) && r !in s.requests
    ensures Enabled(s, LookUp(r, b)) && Enabled(Next(s, LookUp(r, b)), Enter(r))
    ensures var t := Next(Next(s, LookUp(r, b)), Enter(r));
            && ServedOutside(t, b, o) && t.current == s.current && |t.sems| == |s.sems|
            && t.sems[s.current[b]] == s.sems[s.current[b]].(tokens := s.sems[s.current[b]].tokens + 1)
  {
  }

  /** One more request enters through the current semaphore. */
  lemma EnterOne(acts: seq<Action>, b: string, o: nat) returns (more: seq<Action>)
    requires Run(acts).Some? && HasRoom(Run(acts).value, b) && ServedOutside(Run(acts).value, b, o)
    ensures NoReload(more) && Run(acts + more).Some? && ServedOutside(Run(acts + more).value, b, o)
    ensures var s, t := Run(acts).value, Run(acts + more).value;
            && t.current == s.current && |t.sems| == |s.sems|
            && t.sems[s.current[b]] == s.sems[s.current[b]].(tokens := s.sems[s.current[b]].tokens + 1)
  {
    hide Run, Enabled, Next, ServedOutside;
    var s := Run(acts).value;
    var r := NewId(s.requests);
    LooksUpAndEnters(s, b, o, r);
    var s1 := RunNext(acts, s, LookUp(r, b));
    var s2 := RunNext(acts + [LookUp(r, b)], s1, Enter(r));
    more := [LookUp(r, b), Enter(r)];
    assert acts + [LookUp(r, b)] + [Enter(r)] == acts + more;
  }

  /** A full current semaphore and one request beside it are more than the limit. */
  lemma FullAndOneMore(s: State, b: string, o: nat)
    requires Sound(s) && ServedOutside(s, b, o) && !HasRoom(s, b)
    ensures s.current[b] < |s.sems| && s.sems[s.current[b]].limit < |Serving(s, b)|
  {
    var g := s.current[b];
    assert TokensCount(s, g);
    forall r | r in Holders(s, g)
      ensures r in Serving(s, b)
    {
      assert PhaseSound(s, s.requests[r]);
    }
    SubsetSize(Holders(s, g) + {o}, Serving(s, b));
  }

  /** New requests fill the current semaphore, which has `room` slots left, beside the one served outside it. */
  lemma {:induction false} FillUp(acts: seq<Action>, b: string, o: nat, room: nat) returns (more: seq<Action>)
    requires Run(acts).Some? && ServedOutside(Run(acts).value, b, o)
    requires HasRoom(Run(acts).value, b) ==>
               var sem := Run(acts).value.sems[Run(acts).value.current[b]]; room == sem.limit - sem.tokens
    ensures Exceeds(acts, more, b)
    decreases room
  {
    hide Run, Enabled, ServedOutside, Sound;
    SoundThroughout(acts);
    if HasRoom(Run(acts).value, b) {
      var first := EnterOne(acts, b, o);
      var rest := FillUp(acts + first, b, o, room - 1);
      more := first + rest;
      assert acts + first + rest == acts + more;
    } else {
      more := [];
      assert acts + [] == acts;
      FullAndOneMore(Run(acts).value, b, o);
      assert b in Run(acts).value.current by {
        OutsideHasCurrent(Run(acts).value, b, o);
      }
    }
  }

  lemma OutsideHasCurrent(s: State, b: string, o: nat)
    requires ServedOutside(s, b, o)
    ensures b in s.current
  {
  }

  /** The slots left in the current semaphore, if it has any. */
  ghost function Room(s: State, b: string): nat {
    if HasRoom(s, b) then s.sems[s.current[b]].limit - s.sems[s.current[b]].tokens else 0
  }

  /** Some continuation without a reload serves more requests than the current limit. */
  ghost predicate CanExceed(acts: seq<Action>, b: string)
    requires Run(acts).Some?
  {
    exists more :: Exceeds(acts, more, b)
  }

  ghost predicate Exceeds(acts: seq<Action>, more: seq<Action>, b: string)
    requires Run(acts).Some?
  {
    && NoReload(more) && Run(acts + more).Some?
    && var t := Run(acts + more).value;
       b in t.current && t.current[b] < |t.sems| && |Serving(t, b)| > t.sems[t.current[b]].limit
  }

  /**
   The exact form. From a reachable state in which the backend has a limit, the number of requests
   it serves can come to exceed that limit without a further reload if and only if some request of
   the backend is not bound by its current semaphore: because it holds or awaits a slot of an
   older generation, or was let in when there was no limit.
   */
  lemma LimitCanBeExceeded(acts: seq<Action>, b: string)
    requires Run(acts).Some? && b in Run(acts).value.current
    ensures CanExceed(acts, b) <==> Outsider(Run(acts).value, b)
  {
    hide Run, Outsider, Serving, ServedOutside;
    if Outsider(Run(acts).value, b) {
      var first, o := OutsiderIsServed(acts, b);
      var rest := FillUp(acts + first, b, o, Room(Run(acts + first).value, b));
      assert acts + first + rest == acts + (first + rest);
      assert Exceeds(acts, first + rest, b);
    } else {
      forall more
        ensures !Exceeds(acts, more, b)
      {
        if NoReload(more) && Run(acts + more).Some? {
          InsidersStay(acts, more, b);
          InsidersKeepLimit(acts + more, b);
        }
      }
    }
  }

  /** The smallest such run: a backend with a limit of one serves two requests at once. */
  lemma ReloadCanExceedLimit()
    ensures var cfg := [BackendCfg("a", 1)];
            var acts := [Reload(cfg), LookUp(0, "a"), Enter(0), Reload(cfg), LookUp(1, "a"), Enter(1)];
            && Run(acts).Some?
            && Run(acts).value.requests == map[0 := Request("a", Holding(0)), 1 := Request("a", Holding(1))]
            && Run(acts).value.current == map["a" := 1]
  {
    hide Run, Built, Mapping;
    var cfg := [BackendCfg("a", 1)];
    OneLimited(cfg, 0);
    OneLimited(cfg, 1);
    RunOfNothing();
    var a1 := [] + [Reload(cfg)];
    var s1 := RunNext([], START, Reload(cfg));
    var a2 := a1 + [LookUp(0, "a")];
    var s2 := RunNext(a1, s1, LookUp(0, "a"));
    assert s2.requests == map[0 := Request("a", Waiting(0))] && s2.sems == [Sem("a", 1, 0)];
    var a3 := a2 + [Enter(0)];
    var s3 := RunNext(a2, s2, Enter(0));
    assert s3.requests == map[0 := Request("a", Holding(0))] && s3.sems == [Sem("a", 1, 1)];
    var a4 := a3 + [Reload(cfg)];
    var s4 := RunNext(a3, s3, Reload(cfg));
    assert s4.current == map["a" := 1] && s4.sems == [Sem("a", 1, 1), Sem("a", 1, 0)];
    var a5 := a4 + [LookUp(1, "a")];
    var s5 := RunNext(a4, s4, LookUp(1, "a"));
    assert s5.requests == map[0 := Request("a", Holding(0)), 1 := Request("a", Waiting(1))];
    var a6 := a5 + [Enter(1)];
    var s6 := RunNext(a5, s5, Enter(1));
    assert a6 == [Reload(cfg), LookUp(0, "a"), Enter(0), Reload(cfg), LookUp(1, "a"), Enter(1)];
  }

  lemma OneLimited(cfg: seq<BackendCfg>, n: nat)
    requires cfg == [BackendCfg("a", 1)]
    ensures Built(cfg) == [Sem("a", 1, 0)] && Mapping(cfg, n) == map["a" := n]
  {
    assert cfg[..0] == [];
  }

  lemma RunOfNothing()
    ensures Run([]) == Some(START)
  {
  }

  lemma RunNext(acts: seq<Action>, s: State, a: Action) returns (t: State)
    requires Run(acts) == Some(s) && Enabled(s, a)
    ensures t == Next(s, a) && Run(acts + [a]) == Some(t)
  {
    assert (acts + [a])[..|acts|] == acts;
    t := Next(s, a);
  }
}
