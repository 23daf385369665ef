/**
 Sticky least-loaded selection as a function of the pool, the pins and the clock, with the facts
 every caller relies on: whom it may return, when a pin is honoured, and whom it pins.
 */
module SelectorModel {
  import opened Common
  import opened AffinityModel
  import opened AffinityKey
  import opened BackendModel
  import opened LoadScore

  datatype Policy = Policy(ttl: Time, maxSize: int, maxConcurrency: int, kvLimit: real, stale: Time)

  datatype Class = Ready | Ramping | Failing

  function ClassOf(b: Backend, now: Time): Class {
    if FailingNow(b, now) then Failing else if RampingNow(b, now) then Ramping else Ready
  }

  /** The members of one class, in pool order. */
  function OfClass(pool: seq<Backend>, c: Class, now: Time): seq<Backend> {
    if pool == [] then []
    else
      var front := OfClass(pool[..|pool| - 1], c, now);
      if ClassOf(pool[|pool| - 1], now) == c then front + [pool[|pool| - 1]] else front
  }

  lemma {:induction false} OfClassMembers(pool: seq<Backend>, c: Class, now: Time)
    ensures forall b :: b in OfClass(pool, c, now) <==> b in pool && ClassOf(b, now) == c
  {
    if pool != [] {
      OfClassMembers(pool[..|pool| - 1], c, now);
      assert pool == pool[..|pool| - 1] + [pool[|pool| - 1]];
    }
  }

  /** The items whose class is c, in order. */
  function Pick<T>(items: seq<T>, classes: seq<Class>, c: Class): seq<T>
    requires |items| == |classes|
  {
    if items == [] then []
    else
      var front := Pick(items[..|items| - 1], classes[..|items| - 1], c);
      if classes[|items| - 1] == c then front + [items[|items| - 1]] else front
  }

  /** The class that a selection chooses from. */
  function Best(classes: seq<Class>): Class {
    if Ready in classes then Ready else if Ramping in classes then Ramping else Failing
  }

  lemma {:induction false} PickFrom<T>(items: seq<T>, classes: seq<Class>, c: Class, k: nat)
    requires |items| == |classes| && k < |Pick(items, classes, c)|
    ensures exists i :: 0 <= i < |items| && items[i] == Pick(items, classes, c)[k] && classes[i] == c
  {
    var n := |items| - 1;
    var front := Pick(items[..n], classes[..n], c);
    if k < |front| {
      PickFrom(items[..n], classes[..n], c, k);
    } else {
      assert items[n] == Pick(items, classes, c)[k];
    }
  }

  lemma {:induction false} PickHas<T>(items: seq<T>, classes: seq<Class>, c: Class, i: nat)
    requires |items| == |classes| && i < |items| && classes[i] == c
    ensures items[i] in Pick(items, classes, c)
  {
    var n := |items| - 1;
    if i < n {
      PickHas(items[..n], classes[..n], c, i);
    }
  }

  /** The best class has a member. */
  lemma BestIsPopulated<T>(items: seq<T>, classes: seq<Class>)
    requires |items| == |classes| > 0
    ensures |Pick(items, classes, Best(classes))| > 0
  {
    var i :| 0 <= i < |classes| && classes[i] == Best(classes) by {
      if Ready !in classes && Ramping !in classes {
        assert classes[0] in classes;
      }
    }
    PickHas(items, classes, Best(classes), i);
  }

  /** New sessions prefer ready backends, then ramping ones, and failing ones only as a last resort. */
  function Candidates(pool: seq<Backend>, now: Time): (r: seq<Backend>)
    requires |pool| > 0
    ensures |r| > 0
  {
    var ready, ramping := OfClass(pool, Ready, now), OfClass(pool, Ramping, now);
    SomeClassIsPopulated(pool, now);
    if ready != [] then ready else if ramping != [] then ramping else OfClass(pool, Failing, now)
  }

  lemma SomeClassIsPopulated(pool: seq<Backend>, now: Time)
    requires |pool| > 0
    ensures OfClass(pool, Ready, now) != [] || OfClass(pool, Ramping, now) != [] || OfClass(pool, Failing, now) != []
  {
    OfClassMembers(pool, ClassOf(pool[0], now), now);
    assert pool[0] in OfClass(pool, ClassOf(pool[0], now), now);
  }

  /** Every candidate is of one class, and no preferred class has a member. */
  lemma CandidatesAre(pool: seq<Backend>, now: Time, b: Backend)
    requires |pool| > 0 && b in Candidates(pool, now)
    ensures b in pool
    ensures forall o :: o in Candidates(pool, now) <==> o in pool && ClassOf(o, now) == ClassOf(b, now)
    ensures !ClassOf(b, now).Ready? ==> forall o :: o in pool ==> !ClassOf(o, now).Ready?
    ensures ClassOf(b, now).Failing? ==> forall o :: o in pool ==> ClassOf(o, now).Failing?
  {
    OfClassMembers(pool, Ready, now);
    OfClassMembers(pool, Ramping, now);
    OfClassMembers(pool, Failing, now);
    if OfClass(pool, Ready, now) == [] {
      assert forall o :: o in pool ==> !ClassOf(o, now).Ready?;
      if OfClass(pool, Ramping, now) == [] {
        assert forall o :: o in pool ==> !ClassOf(o, now).Ramping?;
      }
    }
  }

  /** The first pool member with the given id. */
  function FindByID(pool: seq<Backend>, id: string): (r: Option<Backend>)
    ensures r.Some? ==> r.value in pool && r.value.id == id
  {
    if pool == [] then None else if pool[0].id == id then Some(pool[0]) else FindByID(pool[1..], id)
  }

  lemma {:induction false} FindByIDFinds(pool: seq<Backend>, b: Backend)
    requires b in pool
    ensures FindByID(pool, b.id).Some?
  {
    if pool[0].id != b.id {
      FindByIDFinds(pool[1..], b);
    }
  }

  /** The pinned backend, when it is in the pool, not failing and not overloaded. */
  function Trusted(pool: seq<Backend>, id: string, p: Policy, stale: Time, now: Time): Option<Backend> {
    match FindByID(pool, id)
    case None => None
    case Some(b) =>
      if !FailingNow(b, now) && !Overloaded(b, p.maxConcurrency, p.kvLimit, stale, now) then Some(b) else None
  }

  /** The backend that a live pin leads to, if it may serve the request. */
  function Honoured(pool: seq<Backend>, pins: seq<Pin>, key: Key, p: Policy, stale: Time, now: Time): Option<Backend> {
    if key == [] then None
    else match AffinityModel.Get(pins, key, now, p.ttl)
      case None => None
      case Some(pin) => Trusted(pool, pin.backend, p, stale, now)
  }

  function KeyHash(key: Key): nat {
    if key == [] then 0 else Fnv64a(key)
  }

  /** The choice without a pin. */
  function Fresh(pool: seq<Backend>, key: Key, stale: Time, now: Time): Backend
    requires |pool| > 0
  {
    LeastLoaded(Candidates(pool, now), stale, KeyHash(key), now)
  }

  function Chosen(pool: seq<Backend>, pins: seq<Pin>, key: Key, p: Policy, stale: Time, now: Time): Backend
    requires |pool| > 0
  {
    match Honoured(pool, pins, key, p, stale, now)
    case Some(b) => b
    case None => Fresh(pool, key, stale, now)
  }

  function PinsAfter(pool: seq<Backend>, pins: seq<Pin>, key: Key, p: Policy, stale: Time, now: Time): seq<Pin>
    requires |pool| > 0
  {
    if Honoured(pool, pins, key, p, stale, now).Some? then AffinityModel.Touch(pins, key, now)
    else
      var b := Chosen(pool, pins, key, p, stale, now);
      if key != [] && ClassOf(b, now).Ready? then AffinityModel.Set(pins, key, b.id, now, p.maxSize) else pins
  }

  // ---- What selection guarantees ---------------------------------------------------------

  /** A fresh choice is a pool member, and a failing one only if the whole pool is failing. */
  lemma FreshIsSafe(pool: seq<Backend>, key: Key, stale: Time, now: Time)
    requires |pool| > 0
    ensures var b := Fresh(pool, key, stale, now);
            b in pool && (FailingNow(b, now) ==> forall o :: o in pool ==> FailingNow(o, now))
  {
    LeastLoadedIsLeast(Candidates(pool, now), stale, KeyHash(key), now);
    CandidatesAre(pool, now, Fresh(pool, key, stale, now));
  }

  /** The chosen backend is a pool member, and a failing one only if the whole pool is failing. */
  lemma ChosenIsSafe(pool: seq<Backend>, pins: seq<Pin>, key: Key, p: Policy, stale: Time, now: Time)
    requires |pool| > 0
    ensures var b := Chosen(pool, pins, key, p, stale, now);
            b in pool && (FailingNow(b, now) ==> forall o :: o in pool ==> FailingNow(o, now))
  {
    FreshIsSafe(pool, key, stale, now);
  }

  /**
   Without an honoured pin, a ramping backend is returned only when no ready one exists, and the
   choice scores lowest in its class.
   */
  lemma FreshChoiceIsLeast(pool: seq<Backend>, key: Key, stale: Time, now: Time)
    requires |pool| > 0
    ensures var b := Fresh(pool, key, stale, now);
            && (forall o :: o in pool && ClassOf(o, now) == ClassOf(b, now) ==>
                  Score(b, stale, now) <= Score(o, stale, now))
            && (ClassOf(b, now).Ramping? ==> forall o :: o in pool ==> !ClassOf(o, now).Ready?)
  {
    LeastLoadedIsLeast(Candidates(pool, now), stale, KeyHash(key), now);
    CandidatesAre(pool, now, Fresh(pool, key, stale, now));
  }

  /**
   What becomes of a live pin that is not honoured, because its backend left the pool, is failing
   or is overloaded. The next look-up still leads to that backend if and only if the fresh choice
   fell on it again, or no member of the pool is ready and so nothing was written. In every other
   case the pin is overwritten, and the session does not come back when the backend recovers.
   */
  lemma BailedPinSurvives(pool: seq<Backend>, pins: seq<Pin>, key: Key, p: Policy, stale: Time, now: Time, pin: Pin)
    requires |pool| > 0 && key != [] && p.ttl >= 0
    requires AffinityModel.Get(pins, key, now, p.ttl) == Some(pin)
    requires Honoured(pool, pins, key, p, stale, now).None?
    ensures var b, later := Fresh(pool, key, stale, now), AffinityModel.Get(PinsAfter(pool, pins, key, p, stale, now), key, now, p.ttl);
            && later.Some?
            && (later.value.backend == pin.backend <==>
                  b.id == pin.backend || forall o :: o in pool ==> !ClassOf(o, now).Ready?)
            && (later.value.backend != pin.backend ==> later.value.backend == b.id)
  {
    var b := Fresh(pool, key, stale, now);
    LeastLoadedIsLeast(Candidates(pool, now), stale, KeyHash(key), now);
    CandidatesAre(pool, now, b);
  }

  function Busy(): Backend {
    NewBackend("a", 1, 60).(inFlight := 1)
  }

  function Idle(): Backend {
    NewBackend("b", 1, 60)
  }

  lemma IdleIsPreferred(key: Key, stale: Time, now: Time)
    requires now >= 0
    ensures ClassOf(Busy(), now).Ready? && ClassOf(Idle(), now).Ready? && Fresh([Busy(), Idle()], key, stale, now) == Idle()
  {
    var pool := [Busy(), Idle()];
    FreshChoiceIsLeast(pool, key, stale, now);
    FreshIsSafe(pool, key, stale, now);
    assert Score(Busy(), stale, now) == 1.0 && Score(Idle(), stale, now) == 0.0;
    assert pool[1] in pool;
    hide Fresh, Score;
  }

  /** A pool of an overloaded backend "a", which the key is pinned to, and an idle one "b": the pin moves to "b". */
  lemma OverloadedPinMoves(key: Key, p: Policy, now: Time)
    requires key != [] && p.ttl >= 0 && now >= 0 && p.maxConcurrency == 1
    ensures var pool, pins := [Busy(), Idle()], [Pin(key, Busy().id, now)];
            && Overloaded(Busy(), p.maxConcurrency, p.kvLimit, p.stale, now)
            && Honoured(pool, pins, key, p, p.stale, now).None?
            && AffinityModel.Get(PinsAfter(pool, pins, key, p, p.stale, now), key, now, p.ttl).Some?
            && AffinityModel.Get(PinsAfter(pool, pins, key, p, p.stale, now), key, now, p.ttl).value.backend == Idle().id != Busy().id
  {
    var pool, pins := [Busy(), Idle()], [Pin(key, Busy().id, now)];
    IdleIsPreferred(key, p.stale, now);
    assert FindByID(pool, Busy().id) == Some(pool[0]);
    assert Busy().id[0] != Idle().id[0];
    BailedPinSurvives(pool, pins, key, p, p.stale, now, pins[0]);
    assert pool[1] in pool;
    hide PinsAfter, Fresh, Score;
  }

  /** Selection writes no pin but its own key's, and that one leads to the backend it returns. */
  lemma OnlyOwnPinChanges(pool: seq<Backend>, pins: seq<Pin>, key: Key, p: Policy, stale: Time, now: Time)
    requires |pool| > 0 && DistinctKeys(pins)
    ensures forall q :: q in PinsAfter(pool, pins, key, p, stale, now) ==>
              q in pins || q == Pin(key, Chosen(pool, pins, key, p, stale, now).id, now)
  {
    var b := Chosen(pool, pins, key, p, stale, now);
    SetMembers(pins, key, b.id, now, p.maxSize);
    TouchMembers(pins, key, now);
  }

  lemma SetMembers(s: seq<Pin>, key: Key, backend: string, now: Time, maxSize: int)
    requires DistinctKeys(s)
    ensures forall q :: q in AffinityModel.Set(s, key, backend, now, maxSize) ==> q in s || q == Pin(key, backend, now)
  {
    WithoutKeys(s, key);
  }

  lemma TouchMembers(s: seq<Pin>, key: Key, now: Time)
    requires DistinctKeys(s)
    ensures forall q :: q in AffinityModel.Touch(s, key, now) ==>
              q in s || (Stored(s, key) && q == s[IndexOf(s, key)].(lastSeen := now))
  {
    WithoutKeys(s, key);
  }
}
