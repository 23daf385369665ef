/**
 Session stability: once a key is pinned and no other selection of it is under way with another
 result, every later selection of that key returns the pinned backend, whatever the other
 sessions, probes, requests and invalidations do in between, and however selections overlap.
 */
module SessionStability {
  import opened Common
  import opened AffinityModel
  import opened AffinityRuns
  import opened BackendModel
  import opened SelectorModel
  import opened LoadScore
  import opened BalancerSystem
  import opened SelectionReadings
  import opened FailoverExclusion

  /** Selection r is running, in group g, for the key. */
  ghost predicate Of(s: Sys, r: nat, g: string, key: Key) {
    r in s.selections && s.selections[r].group == g && s.selections[r].key == key
  }

  /** The key whose pin a step refreshes or sets in group g, if any. */
  ghost function Writes(s: Sys, a: Action, g: string): set<Key> {
    if (a.SelectTouch? || (a.SelectPin? && a.r in s.selections && s.selections[a.r].progress.Writing?))
       && a.r in s.selections && s.selections[a.r].group == g
       && (if a.SelectTouch? then Stored(PinsIn(s, g), s.selections[a.r].key) else s.selections[a.r].progress.pin)
    then {s.selections[a.r].key} else {}
  }

  /** The other keys written in the group from position lo up to position hi. */
  ghost function OtherKeys(ss: seq<Sys>, acts: seq<Action>, g: string, key: Key, lo: nat, hi: nat): set<Key>
    requires |ss| == |acts| + 1 && hi <= |acts|
    decreases hi
  {
    if hi <= lo then {}
    else OtherKeys(ss, acts, g, key, lo, hi - 1) + (Writes(ss[hi - 1], acts[hi - 1], g) - {key})
  }

  /** Selection r, which looks at its pinned backend b now, finds no reason to leave it. */
  ghost predicate Stays(c: Config, s: Sys, r: nat, b: string)
    requires InProgress(c, s, r)
  {
    var q := s.selections[r];
    var p := c.groups[q.group].policy;
    && (q.progress.Looked? ==> b in q.pool && b in s.backends && !FailingNow(s.backends[b], s.now))
    && (q.progress.Cleared? ==>
          b in s.backends && !Overloaded(s.backends[b], p.maxConcurrency, p.kvLimit, StaleFor(p, q.override), s.now))
  }

  ghost predicate DeletesPin(s: Sys, a: Action, g: string, key: Key) {
    a.InvalidateDelete? && a.t in s.calls && s.calls[a.t].group == g && s.calls[a.t].key == key
  }

  /** Right after step p the key's pin is in front, leads to b and is as fresh as the step. */
  ghost predicate PinnedBy(ss: seq<Sys>, p: nat, g: string, key: Key, b: string)
    requires p + 1 < |ss|
  {
    var pins := PinsIn(ss[p + 1], g);
    |pins| > 0 && pins[0] == Pin(key, b, ss[p].now)
  }

  /** A run from a state such as start-up, in which pins and selections are in order. */
  ghost predicate SoundRun(c: Config, ss: seq<Sys>, acts: seq<Action>) {
    IsRun(c, ss, acts) && Local(c, ss[0])
  }

  /** What holds in every state of such a run, and between neighbours. */
  lemma SoundState(c: Config, ss: seq<Sys>, acts: seq<Action>, n: nat)
    requires SoundRun(c, ss, acts) && n < |ss|
    ensures |ss| == |acts| + 1 && Local(c, ss[n]) && PinsSound(c, ss[n]) && Named(ss[n])
    ensures n < |acts| ==> Enabled(c, ss[n], acts[n]) && ss[n + 1] == Next(c, ss[n], acts[n])
  {
    LocalThroughout(c, ss, acts, n);
    if n < |acts| {
      RunStep(c, ss, acts, n);
    }
    hide IsRun, PinsSound, Named, Next, Enabled;
  }

  // ---- Between two writes of the key -----------------------------------------------------

  /** Between positions p and n nobody writes the key or deletes its pin. */
  ghost predicate Quiet(ss: seq<Sys>, acts: seq<Action>, g: string, key: Key, p: nat, n: nat)
    requires |ss| == |acts| + 1 && n <= |acts|
  {
    forall m :: p < m < n ==> QuietAt(ss, acts, g, key, m)
  }

  ghost predicate QuietAt(ss: seq<Sys>, acts: seq<Action>, g: string, key: Key, m: nat)
    requires |ss| == |acts| + 1 && m < |acts|
  {
    key !in Writes(ss[m], acts[m], g) && !DeletesPin(ss[m], acts[m], g, key)
  }

  /** What one step does to the group's pins, seen as a call on the affinity table. */
  lemma PinsStepIsCall(c: Config, s: Sys, a: Action, g: string, pin: Pin) returns (call: Call)
    requires Enabled(c, s, a) && g in c.groups && pin in PinsIn(s, g)
    requires pin.key !in Writes(s, a, g) && !DeletesPin(s, a, g, pin.key)
    ensures var p := c.groups[g].policy;
            && PinsIn(Next(c, s, a), g) == Apply(PinsIn(s, g), call, p.ttl, p.maxSize)
            && Spares(call, pin, p.ttl)
            && UsedBy(PinsIn(s, g), call) == Writes(s, a, g)
  {
    PinsFrame(c, s, a, g);
    PinIsStored(PinsIn(s, g), pin);
    hide Next, Enabled, AffinityModel.Get, AffinityModel.Set, AffinityModel.Touch, Without, WellFormed, PinsIn, Stored;
    call := Call(DoGet(pin.key), s.now);
    if a.SelectTouch? && s.selections[a.r].group == g {
      call := Call(DoTouch(s.selections[a.r].key), s.now);
    } else if a.SelectPin? && s.selections[a.r].group == g && s.selections[a.r].progress.pin {
      call := Call(DoSet(s.selections[a.r].key, s.selections[a.r].progress.b), s.now);
    } else if a.InvalidateDelete? && s.calls[a.t].group == g {
      call := Call(DoDelete(s.calls[a.t].key), s.now);
    }
  }

  lemma PinIsStored(pins: seq<Pin>, pin: Pin)
    requires pin in pins
    ensures Stored(pins, pin.key)
  {
    StoredIffInKeys(pins, pin.key);
  }

  /**
   From a write of the key to any position before the next one, the pin stays while fewer than
   maxSize other keys are written, and only those are ahead of it.
   */
  lemma {:induction false} PinSurvives(c: Config, ss: seq<Sys>, acts: seq<Action>, g: string, key: Key, b: string,
                                       p: nat, n: nat, last: nat)
    requires SoundRun(c, ss, acts) && |ss| == |acts| + 1 && g in c.groups && p < n <= last <= |acts|
    requires PinnedBy(ss, p, g, key, b) && Quiet(ss, acts, g, key, p, n)
    requires |OtherKeys(ss, acts, g, key, p + 1, last)| < c.groups[g].policy.maxSize
    ensures Pin(key, b, ss[p].now) in PinsIn(ss[n], g)
    ensures KeysAhead(PinsIn(ss[n], g), key) <= OtherKeys(ss, acts, g, key, p + 1, n)
    decreases n
  {
    hide *;
    if n == p + 1 {
      SurvivesAtOnce(ss, acts, g, key, b, p, n);
    } else {
      QuietShorter(ss, acts, g, key, p, n);
      PinSurvives(c, ss, acts, g, key, b, p, n - 1, last);
      SoundState(c, ss, acts, n - 1);
      LocalGroup(c, ss[n - 1], g);
      SurvivesStep(c, ss, acts, g, Pin(key, b, ss[p].now), p + 1, n, last);
    }
  }

  lemma SurvivesAtOnce(ss: seq<Sys>, acts: seq<Action>, g: string, key: Key, b: string, p: nat, n: nat)
    requires |ss| == |acts| + 1 && n == p + 1 <= |acts| && PinnedBy(ss, p, g, key, b)
    ensures Pin(key, b, ss[p].now) in PinsIn(ss[n], g)
    ensures KeysAhead(PinsIn(ss[n], g), key) <= OtherKeys(ss, acts, g, key, p + 1, n)
  {
    FrontHasNothingAhead(PinsIn(ss[n], g));
    hide KeysAhead;
  }

  lemma QuietShorter(ss: seq<Sys>, acts: seq<Action>, g: string, key: Key, p: nat, n: nat)
    requires |ss| == |acts| + 1 && p + 1 < n <= |acts| && Quiet(ss, acts, g, key, p, n)
    ensures Quiet(ss, acts, g, key, p, n - 1) && QuietAt(ss, acts, g, key, n - 1)
  {
  }

  lemma LocalGroup(c: Config, s: Sys, g: string)
    requires Local(c, s) && g in c.groups
    ensures WellFormed(PinsIn(s, g), c.groups[g].policy.maxSize)
  {
  }

  lemma SurvivesStep(c: Config, ss: seq<Sys>, acts: seq<Action>, g: string, pin: Pin, lo: nat, n: nat, last: nat)
    requires |ss| == |acts| + 1 && lo < n <= last <= |acts| && g in c.groups
    requires Enabled(c, ss[n - 1], acts[n - 1]) && ss[n] == Next(c, ss[n - 1], acts[n - 1])
    requires QuietAt(ss, acts, g, pin.key, n - 1) && WellFormed(PinsIn(ss[n - 1], g), c.groups[g].policy.maxSize)
    requires pin in PinsIn(ss[n - 1], g)
    requires KeysAhead(PinsIn(ss[n - 1], g), pin.key) <= OtherKeys(ss, acts, g, pin.key, lo, n - 1)
    requires |OtherKeys(ss, acts, g, pin.key, lo, last)| < c.groups[g].policy.maxSize
    ensures pin in PinsIn(ss[n], g)
    ensures KeysAhead(PinsIn(ss[n], g), pin.key) <= OtherKeys(ss, acts, g, pin.key, lo, n)
  {
    var call := PinsStepIsCall(c, ss[n - 1], acts[n - 1], g, pin);
    OtherKeysGrow(ss, acts, g, pin.key, lo, n, last);
    hide Next, Enabled, WellFormed, KeysAhead, UsedBy, Apply, Spares, Writes, OtherKeys;
    StepWithin(PinsIn(ss[n - 1], g), call, pin, c.groups[g].policy.ttl, c.groups[g].policy.maxSize,
               OtherKeys(ss, acts, g, pin.key, lo, n), OtherKeys(ss, acts, g, pin.key, lo, last));
  }

  /** One table call, when the keys ahead of the pin are bounded by a set below capacity. */
  lemma StepWithin(pins: seq<Pin>, call: Call, pin: Pin, ttl: Time, maxSize: int, near: set<Key>, all: set<Key>)
    requires WellFormed(pins, maxSize) && pin in pins && Spares(call, pin, ttl)
    requires KeysAhead(pins, pin.key) + UsedBy(pins, call) <= near <= all && |all| < maxSize
    ensures pin in Apply(pins, call, ttl, maxSize)
    ensures KeysAhead(Apply(pins, call, ttl, maxSize), pin.key) <= near
  {
    SubsetSize(KeysAhead(pins, pin.key) + UsedBy(pins, call), all);
    StepAhead(pins, call, pin, ttl, maxSize);
  }

  lemma FrontHasNothingAhead(pins: seq<Pin>)
    requires |pins| > 0
    ensures pins[0] in pins && KeysAhead(pins, pins[0].key) == {}
  {
  }

  lemma {:induction false} OtherKeysGrow(ss: seq<Sys>, acts: seq<Action>, g: string, key: Key, lo: nat, n: nat, last: nat)
    requires |ss| == |acts| + 1 && lo < n <= last <= |acts| && key !in Writes(ss[n - 1], acts[n - 1], g)
    ensures OtherKeys(ss, acts, g, key, lo, n - 1) + Writes(ss[n - 1], acts[n - 1], g)
         == OtherKeys(ss, acts, g, key, lo, n) <= OtherKeys(ss, acts, g, key, lo, last)
    decreases last
  {
    hide Writes;
    OtherKeysPrefix(ss, acts, g, key, lo, n, last);
  }

  lemma {:induction false} OtherKeysPrefix(ss: seq<Sys>, acts: seq<Action>, g: string, key: Key, lo: nat, n: nat, last: nat)
    requires |ss| == |acts| + 1 && lo < n <= last <= |acts|
    ensures OtherKeys(ss, acts, g, key, lo, n) <= OtherKeys(ss, acts, g, key, lo, last)
    decreases last
  {
    if n < last {
      OtherKeysPrefix(ss, acts, g, key, lo, n, last - 1);
    }
    hide Writes;
  }

  // ---- What the run must grant the session -----------------------------------------------

  /** The last position before n, and not before i, that writes the key; i itself counts as one. */
  ghost function LastWrite(ss: seq<Sys>, acts: seq<Action>, g: string, key: Key, i: nat, n: nat): (p: nat)
    requires |ss| == |acts| + 1 && i < n <= |acts|
    ensures i <= p < n
  {
    if n - 1 == i || key in Writes(ss[n - 1], acts[n - 1], g) then n - 1 else LastWrite(ss, acts, g, key, i, n - 1)
  }

  /**
   At position m nobody deletes the session's pin; a selection of the key that looks it up there
   comes within the time-to-live of the key's last write, with fewer than maxSize distinct other
   keys written in between; one that has found it and looks at b there has b in its pool and finds
   it not failing; and one that has done so and looks again finds it not overloaded.
   */
  ghost predicate GrantedAt(c: Config, ss: seq<Sys>, acts: seq<Action>, g: string, key: Key, b: string, i: nat, m: nat)
    requires |ss| == |acts| + 1 && i < m < |acts| && g in c.groups
  {
    var s, a, p := ss[m], acts[m], LastWrite(ss, acts, g, key, i, m);
    && !DeletesPin(s, a, g, key)
    && (LooksUp(s, a, g, key) ==>
          && s.now - ss[p].now <= c.groups[g].policy.ttl
          && |OtherKeys(ss, acts, g, key, p + 1, m)| < c.groups[g].policy.maxSize)
    && (a.SelectAdvance? && Of(s, a.r, g, key) && InProgress(c, s, a.r) ==> Stays(c, s, a.r, b))
  }

  /** In step a a selection of the key looks up its pin. */
  ghost predicate LooksUp(s: Sys, a: Action, g: string, key: Key) {
    a.SelectAdvance? && Of(s, a.r, g, key) && s.selections[a.r].progress.Started?
  }

  ghost predicate Granted(c: Config, ss: seq<Sys>, acts: seq<Action>, g: string, key: Key, b: string, i: nat, j: nat)
    requires |ss| == |acts| + 1 && i < j <= |acts| && g in c.groups
  {
    forall m {:trigger GrantedAt(c, ss, acts, g, key, b, i, m)} :: i < m < j ==> GrantedAt(c, ss, acts, g, key, b, i, m)
  }

  /**
   Every running selection of the key either has not looked it up yet or is on its way to b: none
   is between its look-up and its write with another result.
   */
  ghost predicate Toward(s: Sys, g: string, key: Key, b: string) {
    forall r :: Of(s, r, g, key) ==> TowardBy(s, r, b)
  }

  ghost predicate TowardBy(s: Sys, r: nat, b: string)
    requires r in s.selections
  {
    s.selections[r].progress.Started? || Carried(s.selections[r].progress) == Some(b)
  }

  /** Whatever pin the key has leads to b. */
  ghost predicate LeadsTo(s: Sys, g: string, key: Key, b: string) {
    forall q :: q in PinsIn(s, g) && q.key == key ==> q.backend == b
  }

  /** What holds between steps once the session is pinned. */
  ghost predicate Held(ss: seq<Sys>, acts: seq<Action>, g: string, key: Key, b: string, i: nat, m: nat)
    requires |ss| == |acts| + 1 && i < m <= |acts|
  {
    Toward(ss[m], g, key, b) && LeadsTo(ss[m], g, key, b) && PinnedBy(ss, LastWrite(ss, acts, g, key, i, m), g, key, b)
  }

  lemma GrantedThere(c: Config, ss: seq<Sys>, acts: seq<Action>, g: string, key: Key, b: string, i: nat, m: nat)
    requires |ss| == |acts| + 1 && i < m < |acts| && g in c.groups && Granted(c, ss, acts, g, key, b, i, m + 1)
    ensures GrantedAt(c, ss, acts, g, key, b, i, m) && Granted(c, ss, acts, g, key, b, i, m)
  {
  }

  lemma {:induction false} QuietSince(c: Config, ss: seq<Sys>, acts: seq<Action>, g: string, key: Key, b: string, i: nat, m: nat)
    requires |ss| == |acts| + 1 && i < m <= |acts| && g in c.groups && Granted(c, ss, acts, g, key, b, i, m)
    ensures Quiet(ss, acts, g, key, LastWrite(ss, acts, g, key, i, m), m)
    decreases m
  {
    if m - 1 > i && key !in Writes(ss[m - 1], acts[m - 1], g) {
      assert Granted(c, ss, acts, g, key, b, i, m - 1);
      QuietSince(c, ss, acts, g, key, b, i, m - 1);
      assert GrantedAt(c, ss, acts, g, key, b, i, m - 1);
      assert QuietAt(ss, acts, g, key, m - 1);
    }
    hide Writes, DeletesPin;
  }

  /** A look-up of the key finds the pin to b. */
  lemma LookUpFinds(c: Config, ss: seq<Sys>, acts: seq<Action>, g: string, key: Key, b: string, i: nat, m: nat)
    requires SoundRun(c, ss, acts) && |ss| == |acts| + 1 && g in c.groups && i < m < |acts| && key != []
    requires Granted(c, ss, acts, g, key, b, i, m + 1) && Held(ss, acts, g, key, b, i, m)
    requires LooksUp(ss[m], acts[m], g, key) && Enabled(c, ss[m], acts[m])
    ensures acts[m].r in SelectionsAfter(c, ss[m], acts[m])
    ensures SelectionsAfter(c, ss[m], acts[m])[acts[m].r].progress == Looked(Some(b))
  {
    hide *;
    GrantedThere(c, ss, acts, g, key, b, i, m);
    HeldGrants(c, ss, acts, g, key, b, i, m);
    LookUpIs(c, ss[m], acts[m], g, key);
    var p, pins := LastWrite(ss, acts, g, key, i, m), PinsIn(ss[m], g);
    QuietSince(c, ss, acts, g, key, b, i, m);
    SoundState(c, ss, acts, m);
    LocalGroup(c, ss[m], g);
    PinSurvives(c, ss, acts, g, key, b, p, m, m);
    PinIsFound(pins, Pin(key, b, ss[p].now), ss[m].now, c.groups[g].policy);
  }

  lemma HeldGrants(c: Config, ss: seq<Sys>, acts: seq<Action>, g: string, key: Key, b: string, i: nat, m: nat)
    requires |ss| == |acts| + 1 && i < m < |acts| && g in c.groups
    requires GrantedAt(c, ss, acts, g, key, b, i, m) && Held(ss, acts, g, key, b, i, m)
    requires LooksUp(ss[m], acts[m], g, key)
    ensures var p := LastWrite(ss, acts, g, key, i, m);
            && PinnedBy(ss, p, g, key, b)
            && ss[m].now - ss[p].now <= c.groups[g].policy.ttl
            && |OtherKeys(ss, acts, g, key, p + 1, m)| < c.groups[g].policy.maxSize
  {
    hide LastWrite, OtherKeys, PinsIn, Toward, LeadsTo;
  }

  lemma LookUpIs(c: Config, s: Sys, a: Action, g: string, key: Key)
    requires Enabled(c, s, a) && LooksUp(s, a, g, key) && key != [] && g in c.groups
    ensures a.r in SelectionsAfter(c, s, a)
    ensures var pin := AffinityModel.Get(PinsIn(s, g), key, s.now, c.groups[g].policy.ttl);
            SelectionsAfter(c, s, a)[a.r].progress == Looked(if pin.Some? then Some(pin.value.backend) else None)
  {
    AdvanceIs(c, s, a.r);
    NextIs(c, s, a);
    hide Enabled, Next, SelectionsAfter, AffinityModel.Get, PinsIn;
  }

  lemma PinIsFound(pins: seq<Pin>, pin: Pin, now: Time, p: Policy)
    requires WellFormed(pins, p.maxSize) && pin in pins && now - pin.lastSeen <= p.ttl
    ensures AffinityModel.Get(pins, pin.key, now, p.ttl) == Some(pin)
  {
    var i :| 0 <= i < |pins| && pins[i] == pin;
    IndexOfIs(pins, pin.key, i);
  }

  /** A look at b that finds no reason to leave it brings the selection closer to returning it. */
  lemma LookStays(c: Config, s: Sys, r: nat, b: string)
    requires Enabled(c, s, SelectAdvance(r)) && r in s.selections && !s.selections[r].progress.Started?
    requires Carried(s.selections[r].progress) == Some(b) && InProgress(c, s, r) && Stays(c, s, r, b)
    ensures r in SelectionsAfter(c, s, SelectAdvance(r))
    ensures Carried(SelectionsAfter(c, s, SelectAdvance(r))[r].progress) == Some(b)
  {
    AdvanceIs(c, s, r);
    NextIs(c, s, SelectAdvance(r));
    var q := s.selections[r];
    hide Enabled, Next, SelectionsAfter, Overloaded, FailingNow, RampingNow, NextScore, LookedUp, Scored, Sorted, StaleFor;
  }

  lemma TowardStep(c: Config, ss: seq<Sys>, acts: seq<Action>, g: string, key: Key, b: string, i: nat, m: nat, r: nat)
    requires SoundRun(c, ss, acts) && |ss| == |acts| + 1 && g in c.groups && i < m < |acts| && key != []
    requires Granted(c, ss, acts, g, key, b, i, m + 1) && Held(ss, acts, g, key, b, i, m)
    requires Enabled(c, ss[m], acts[m]) && ss[m + 1] == Next(c, ss[m], acts[m]) && Of(ss[m + 1], r, g, key)
    ensures TowardBy(ss[m + 1], r, b)
  {
    var s, a := ss[m], acts[m];
    NextIs(c, s, a);
    SelectionFrame(c, s, a, r);
    if r in s.selections {
      SelectionKeeps(c, s, a, r);
      assert Of(s, r, g, key);
      if a == SelectAdvance(r) {
        AdvanceIs(c, s, r);
        if s.selections[r].progress.Started? {
          LookUpFinds(c, ss, acts, g, key, b, i, m);
        } else {
          GrantedThere(c, ss, acts, g, key, b, i, m);
          LookStays(c, s, r, b);
        }
      }
    }
    hide Next, Enabled, SelectionsAfter, RequestsAfter, Advanced, InProgress, SomeMembers, OtherKeys, Writes, Granted, LastWrite, PinnedBy, LeadsTo, Stays;
  }

  /** Touching, setting and deleting pins keeps the key's pin on b. */
  lemma LeadsToStep(c: Config, s: Sys, a: Action, g: string, key: Key, b: string)
    requires Enabled(c, s, a) && g in c.groups && Local(c, s) && Toward(s, g, key, b) && LeadsTo(s, g, key, b)
    ensures LeadsTo(Next(c, s, a), g, key, b)
  {
    PinsFrame(c, s, a, g);
    var pins, p := PinsIn(s, g), c.groups[g].policy;
    LocalGroup(c, s, g);
    hide Next, AffinityModel.Set, AffinityModel.Touch, Without, Local;
    if a.SelectTouch? {
      TouchMembers(pins, s.selections[a.r].key, s.now);
      StoredIffInKeys(pins, key);
      TouchedBackend(pins, s.selections[a.r].key);
    } else if a.SelectPin? && s.selections[a.r].group == g {
      assert Of(s, a.r, g, key) || s.selections[a.r].key != key;
      SetMembers(pins, s.selections[a.r].key, s.selections[a.r].progress.b, s.now, p.maxSize);
    } else if a.InvalidateDelete? {
      WithoutKeys(pins, s.calls[a.t].key);
    }
  }

  lemma TouchedBackend(pins: seq<Pin>, key: Key)
    ensures Stored(pins, key) ==> pins[IndexOf(pins, key)] in pins && pins[IndexOf(pins, key)].key == key
  {
  }

  /** A write of the key puts its pin to b in front. */
  lemma WriteFronts(c: Config, s: Sys, a: Action, g: string, key: Key, b: string)
    requires Enabled(c, s, a) && g in c.groups && Toward(s, g, key, b) && LeadsTo(s, g, key, b)
    requires key in Writes(s, a, g) && c.groups[g].policy.maxSize >= 1
    ensures var pins := PinsIn(Next(c, s, a), g);
            |pins| > 0 && pins[0] == Pin(key, b, s.now)
  {
    PinsFrame(c, s, a, g);
    var pins, p := PinsIn(s, g), c.groups[g].policy;
    assert Of(s, a.r, g, key);
    hide Next;
    if a.SelectTouch? {
      TouchedBackend(pins, key);
    }
  }

  lemma HeldNext(c: Config, ss: seq<Sys>, acts: seq<Action>, g: string, key: Key, b: string, i: nat, m: nat, j: nat)
    requires SoundRun(c, ss, acts) && |ss| == |acts| + 1 && g in c.groups && i < m < |acts| && j == m + 1 && key != []
    requires c.groups[g].policy.maxSize >= 1
    requires Granted(c, ss, acts, g, key, b, i, j) && Held(ss, acts, g, key, b, i, m)
    ensures Held(ss, acts, g, key, b, i, j)
  {
    hide *;
    HeldParts(ss, acts, g, key, b, i, m);
    TowardNext(c, ss, acts, g, key, b, i, m, j);
    PinsNextLead(c, ss, acts, g, key, b, m, j);
    HeldAgain(ss, acts, g, key, b, i, m, j);
  }

  lemma PinsNextLead(c: Config, ss: seq<Sys>, acts: seq<Action>, g: string, key: Key, b: string, m: nat, j: nat)
    requires SoundRun(c, ss, acts) && |ss| == |acts| + 1 && g in c.groups && m < |acts| && j == m + 1
    requires c.groups[g].policy.maxSize >= 1 && Toward(ss[m], g, key, b) && LeadsTo(ss[m], g, key, b)
    ensures LeadsTo(ss[j], g, key, b)
    ensures key in Writes(ss[m], acts[m], g) ==> PinnedBy(ss, m, g, key, b)
  {
    SoundState(c, ss, acts, m);
    hide Next, Enabled, Toward, LeadsTo, Writes, Local;
    LeadsToStep(c, ss[m], acts[m], g, key, b);
    if key in Writes(ss[m], acts[m], g) {
      WriteFronts(c, ss[m], acts[m], g, key, b);
    }
  }

  lemma HeldParts(ss: seq<Sys>, acts: seq<Action>, g: string, key: Key, b: string, i: nat, m: nat)
    requires |ss| == |acts| + 1 && i < m <= |acts| && Held(ss, acts, g, key, b, i, m)
    ensures Toward(ss[m], g, key, b) && LeadsTo(ss[m], g, key, b)
  {
  }

  lemma TowardNext(c: Config, ss: seq<Sys>, acts: seq<Action>, g: string, key: Key, b: string, i: nat, m: nat, j: nat)
    requires SoundRun(c, ss, acts) && |ss| == |acts| + 1 && g in c.groups && i < m < |acts| && j == m + 1 && key != []
    requires Granted(c, ss, acts, g, key, b, i, j) && Held(ss, acts, g, key, b, i, m)
    ensures Toward(ss[j], g, key, b)
  {
    var t := ss[j];
    forall r | Of(t, r, g, key)
      ensures TowardBy(t, r, b)
    {
      hide *;
      SoundState(c, ss, acts, m);
      TowardStep(c, ss, acts, g, key, b, i, m, r);
    }
  }

  lemma LastWriteNext(ss: seq<Sys>, acts: seq<Action>, g: string, key: Key, b: string, i: nat, m: nat)
    requires |ss| == |acts| + 1 && i < m < |acts|
    ensures LastWrite(ss, acts, g, key, i, m + 1)
         == if key in Writes(ss[m], acts[m], g) then m else LastWrite(ss, acts, g, key, i, m)
  {
    hide Writes;
  }

  lemma HeldAgain(ss: seq<Sys>, acts: seq<Action>, g: string, key: Key, b: string, i: nat, m: nat, j: nat)
    requires |ss| == |acts| + 1 && i < m < |acts| && j == m + 1 && Held(ss, acts, g, key, b, i, m)
    requires Toward(ss[j], g, key, b) && LeadsTo(ss[j], g, key, b)
    requires key in Writes(ss[m], acts[m], g) ==> PinnedBy(ss, m, g, key, b)
    ensures Held(ss, acts, g, key, b, i, j)
  {
    LastWriteNext(ss, acts, g, key, b, i, m);
    hide Writes, PinnedBy, Toward, LeadsTo, LastWrite;
  }

  lemma {:induction false} HeldThroughout(c: Config, ss: seq<Sys>, acts: seq<Action>, g: string, key: Key, b: string, i: nat, j: nat)
    requires SoundRun(c, ss, acts) && |ss| == |acts| + 1 && g in c.groups && i < j <= |acts| && key != []
    requires PinnedBy(ss, i, g, key, b) && Toward(ss[i + 1], g, key, b) && Granted(c, ss, acts, g, key, b, i, j)
    ensures Held(ss, acts, g, key, b, i, j)
    decreases j
  {
    hide *;
    SoundState(c, ss, acts, i + 1);
    if j == i + 1 {
      HeldFirst(c, ss, acts, g, key, b, i, j);
    } else {
      FirstRoom(c, ss, i, g, key, b);
      GrantedThere(c, ss, acts, g, key, b, i, j - 1);
      HeldThroughout(c, ss, acts, g, key, b, i, j - 1);
      HeldNext(c, ss, acts, g, key, b, i, j - 1, j);
    }
  }

  lemma HeldFirst(c: Config, ss: seq<Sys>, acts: seq<Action>, g: string, key: Key, b: string, i: nat, j: nat)
    requires |ss| == |acts| + 1 && i < |acts| && j == i + 1 && g in c.groups && Local(c, ss[i + 1])
    requires PinnedBy(ss, i, g, key, b) && Toward(ss[i + 1], g, key, b)
    ensures Held(ss, acts, g, key, b, i, j)
  {
    LocalParts(c, ss[i + 1]);
    hide PinsSound, Toward, LeadsTo, Writes, Local;
    FrontLeads(c, ss[i + 1], g, key, b);
  }

  lemma FirstRoom(c: Config, ss: seq<Sys>, i: nat, g: string, key: Key, b: string)
    requires i + 1 < |ss| && Local(c, ss[i + 1]) && PinnedBy(ss, i, g, key, b) && g in c.groups
    ensures c.groups[g].policy.maxSize >= 1
  {
    LocalParts(c, ss[i + 1]);
    FrontLeads(c, ss[i + 1], g, key, b);
  }

  lemma LocalParts(c: Config, s: Sys)
    requires Local(c, s)
    ensures PinsSound(c, s) && Named(s)
  {
  }

  lemma FrontLeads(c: Config, s: Sys, g: string, key: Key, b: string)
    requires PinsSound(c, s) && g in c.groups && |PinsIn(s, g)| > 0
    requires PinsIn(s, g)[0].key == key && PinsIn(s, g)[0].backend == b
    ensures LeadsTo(s, g, key, b) && c.groups[g].policy.maxSize >= 1
  {
    assert WellFormed(PinsIn(s, g), c.groups[g].policy.maxSize);
  }

  // ---- Stability -------------------------------------------------------------------------

  /**
   Session stability, for overlapping selections. Suppose a step leaves the key pinned to b, and
   no other selection of the key is then between its look-up and its write with a result other
   than b. Then every selection of the key that finishes later returns b, as long as the run
   grants the session what GrantedAt asks for. OverlapMovesSession and OverlappingFirstSelections
   show that the condition on the other selections cannot be dropped.
   */
  lemma SessionIsStable(c: Config, ss: seq<Sys>, acts: seq<Action>, g: string, key: Key, b: string, i: nat, j: nat, r: nat)
    requires SoundRun(c, ss, acts) && |ss| == |acts| + 1 && g in c.groups && key != [] && i < j < |acts|
    requires PinnedBy(ss, i, g, key, b) && Toward(ss[i + 1], g, key, b) && Granted(c, ss, acts, g, key, b, i, j)
    requires (acts[j] == SelectTouch(r) || acts[j] == SelectPin(r)) && Of(ss[j], r, g, key)
    ensures Returns(ss[j], acts[j], ss[j + 1], r, b)
  {
    HeldThroughout(c, ss, acts, g, key, b, i, j);
    assert StepAt(c, ss, acts, j) by {
      assert acts[j] in acts;
    }
    FinishReturns(c, ss[j], acts[j], r, b);
    hide IsRun, Granted, LastWrite, PinnedBy, LeadsTo, PinsIn, BackendsAfter, PinsNext;
  }

  lemma FinishReturns(c: Config, s: Sys, a: Action, r: nat, b: string)
    requires Enabled(c, s, a) && (a == SelectTouch(r) || a == SelectPin(r))
    ensures r in s.selections && !s.selections[r].progress.Started?
    ensures Carried(s.selections[r].progress) == Some(b) ==> Returns(s, a, Next(c, s, a), r, b)
  {
    ReturnsDecision(c, s, a, r, b);
    hide Next, Enabled;
  }

  /** A fresh choice that its selection found ready leaves the key pinned to it. */
  lemma SelectionPins(c: Config, s: Sys, r: nat)
    requires Enabled(c, s, SelectPin(r)) && s.selections[r].progress.pin
    requires c.groups[s.selections[r].group].policy.maxSize >= 1
    ensures var q, pins := s.selections[r], PinsIn(Next(c, s, SelectPin(r)), s.selections[r].group);
            |pins| > 0 && pins[0] == Pin(q.key, q.progress.b, s.now)
  {
    PinsFrame(c, s, SelectPin(r), s.selections[r].group);
  }

  /** From start-up: the first selection that pins the key fixes what all later ones return. */
  lemma StableFromFirstSelection(c: Config, ss: seq<Sys>, acts: seq<Action>, g: string, key: Key, b: string, i: nat, j: nat, r: nat, r2: nat)
    requires IsRun(c, ss, acts) && Initial(c, ss[0]) && g in c.groups && key != [] && i < j < |acts|
    requires c.groups[g].policy.maxSize >= 1
    requires acts[i] == SelectPin(r) && Of(ss[i], r, g, key) && ss[i].selections[r].progress == Writing(b, true)
    requires Toward(ss[i + 1], g, key, b)
    requires Granted(c, ss, acts, g, key, b, i, j)
    requires (acts[j] == SelectTouch(r2) || acts[j] == SelectPin(r2)) && Of(ss[j], r2, g, key)
    ensures Returns(ss[i], acts[i], ss[i + 1], r, b)
    ensures Returns(ss[j], acts[j], ss[j + 1], r2, b)
  {
    assert StepAt(c, ss, acts, i) by {
      assert acts[i] in acts;
    }
    InitialIsLocal(c, ss[0]);
    SelectionPins(c, ss[i], r);
    FinishReturns(c, ss[i], acts[i], r, b);
    assert PinnedBy(ss, i, g, key, b);
    hide Next, IsRun, Granted, Local, Initial, Toward, PinnedBy, Returns;
    SessionIsStable(c, ss, acts, g, key, b, i, j, r2);
  }

  // ---- The condition is needed -----------------------------------------------------------

  lemma SettledReturns(c: Config, ss: seq<Sys>, acts: seq<Action>, i: nat, j: nat, r: nat, b: string)
    requires SoundRun(c, ss, acts) && i <= j < |acts| && r in ss[i].selections && Decided(ss[i].selections[r].progress) == Some(b)
    requires acts[j] == SelectTouch(r) || acts[j] == SelectPin(r)
    ensures Returns(ss[j], acts[j], ss[j + 1], r, b)
  {
    SoundIsRun(c, ss, acts);
    hide *;
    SoundState(c, ss, acts, i);
    SoundState(c, ss, acts, j);
    LocalIsSettled(c, ss[i], r, b);
    DecisionStands(c, ss, acts, i, j, r, b);
    ReturnsDecision(c, ss[j], acts[j], r, b);
    SettledDecides(ss[j], r, b);
  }

  /**
   If another selection of the key has settled on c when b is pinned, it returns c by its own last
   step, however long that takes and whatever the run grants the session. So the condition on the
   other selections is needed: one that has settled on something else breaks stability for certain.
   */
  lemma SettledSelectionBreaksStability(cfg: Config, ss: seq<Sys>, acts: seq<Action>, g: string, key: Key, b: string, c: string,
                                        i: nat, j: nat, r: nat)
    requires SoundRun(cfg, ss, acts) && i < j < |acts| && PinnedBy(ss, i, g, key, b)
    requires Of(ss[i + 1], r, g, key) && Decided(ss[i + 1].selections[r].progress) == Some(c) && c != b
    requires acts[j] == SelectTouch(r) || acts[j] == SelectPin(r)
    ensures !Toward(ss[i + 1], g, key, b)
    ensures Returns(ss[j], acts[j], ss[j + 1], r, c) && !Returns(ss[j], acts[j], ss[j + 1], r, b)
  {
    SettledReturns(cfg, ss, acts, i + 1, j, r, c);
    NotToward(ss[i + 1], g, key, b, c, r);
    hide SoundRun, Toward, Decided;
  }

  lemma SoundIsRun(c: Config, ss: seq<Sys>, acts: seq<Action>)
    requires SoundRun(c, ss, acts)
    ensures IsRun(c, ss, acts)
  {
    hide IsRun, Local;
  }

  lemma OfRuns(s: Sys, r: nat, g: string, key: Key)
    requires Of(s, r, g, key)
    ensures r in s.selections
  {
  }

  lemma NotToward(s: Sys, g: string, key: Key, b: string, c: string, r: nat)
    requires Of(s, r, g, key) && Decided(s.selections[r].progress) == Some(c) && c != b
    ensures !Toward(s, g, key, b)
  {
    assert !TowardBy(s, r, b);
  }

  /**
   Whatever the key was pinned to, a selection that missed the pin and picked another backend, which
   it found ready, moves it when it writes: the next look-up leads to its own choice.
   */
  lemma OverlapMovesSession(c: Config, s: Sys, r: nat)
    requires Enabled(c, s, SelectPin(r)) && s.selections[r].progress.pin
    requires c.groups[s.selections[r].group].policy.maxSize >= 1 && c.groups[s.selections[r].group].policy.ttl >= 0
    ensures var q := s.selections[r];
            AffinityModel.Get(PinsIn(Next(c, s, SelectPin(r)), q.group), q.key, s.now, c.groups[q.group].policy.ttl)
            == Some(Pin(q.key, q.progress.b, s.now))
  {
    SelectionPins(c, s, r);
  }
}
