/**
 A group of two healthy backends and one session key: the steps of complete runs from start-up in
 this small system, from which the counterexamples are put together.
 */
module TwoBackends {
  import opened Common
  import opened AffinityModel
  import opened BackendModel
  import opened SelectorModel
  import opened LoadScore
  import opened BalancerSystem

  const GROUP := "g"
  const KEY: Key := [1]
  const POOL: seq<string> := ["a", "b"]
  const NOW: Time := 100
  const POLICY := Policy(10, 10, 0, 0.0, 0)
  const CONFIG := Config(map["a" := GROUP, "b" := GROUP], map[GROUP := GroupCfg(3, POLICY)])

  /** The states of the runs differ in these parts only. */
  function St(a: Backend, b: Backend, pins: seq<Pin>, sel: map<nat, Selecting>, req: map<nat, Request>): Sys {
    Sys(NOW, map["a" := a, "b" := b], map[GROUP := pins], sel, req, map[], map[])
  }

  function Sel(p: Progress): Selecting {
    Selecting(GROUP, KEY, POOL, 0, p)
  }

  /** A healthy backend with n requests sent and not yet answered. */
  function Loaded(id: string, n: nat): Backend {
    NewBackend(id, 1, 60).(inFlight := n, flow := NewFlow(60).(dispatched := n, lastDispatched := if n == 0 then 0 else NOW))
  }

  /** The state with the requests of backend "a" and "b" counted. */
  function At(a: nat, b: nat, pins: seq<Pin>, sel: map<nat, Selecting>, req: map<nat, Request>): Sys {
    St(Loaded("a", a), Loaded("b", b), pins, sel, req)
  }

  function Other(x: string): string {
    if x == "a" then "b" else "a"
  }

  lemma Names()
    ensures "a" != "b"
  {
    assert "a"[0] != "b"[0];
  }

  lemma AtHas(a: nat, b: nat, pins: seq<Pin>, sel: map<nat, Selecting>, req: map<nat, Request>)
    ensures var s := At(a, b, pins, sel, req);
            && s.selections == sel && s.now == NOW && s.requests == req && s.calls == map[] && PinsIn(s, GROUP) == pins
            && Shows(s, a, b) && s.pins == map[GROUP := pins] && s.backends.Keys == {"a", "b"}
            && forall q :: At(a, b, pins, q, req) == s.(selections := q)
  {
    Names();
  }

  lemma LoadedIs(id: string, n: nat)
    ensures var b := Loaded(id, n);
            && b.id == id && Score(b, 0, NOW) == 4.0 * n as real && !FailingNow(b, NOW) && !RampingNow(b, NOW)
            && (n <= 10 ==> !Overloaded(b, POLICY.maxConcurrency, POLICY.kvLimit, 0, NOW))
  {
  }

  lemma StartIsInitial()
    ensures Initial(CONFIG, At(0, 0, [], map[], map[]))
  {
    assert Loaded("a", 0) == NewBackend("a", 1, 60) && Loaded("b", 0) == NewBackend("b", 1, 60);
    hide Loaded;
  }

  // ---- A selection without a pin ---------------------------------------------------------

  /** Whom a selection without a pin picks when it reads these loads. */
  function Choice(a: nat, b: nat): (x: string)
    ensures x in POOL
  {
    POOL[LeastIndex([4.0 * a as real, 4.0 * b as real], KeyHash(KEY))]
  }

  lemma ChoiceIsLighter(a: nat, b: nat)
    ensures (a < b ==> Choice(a, b) == "a") && (b < a ==> Choice(a, b) == "b")
  {
    LeastIndexIs([4.0 * a as real, 4.0 * b as real], KeyHash(KEY));
    hide LeastIndex, KeyHash, Lowest, Ties;
  }

  /** The readings of a selection that finds no pin, one after the other. */
  function Course(j: nat, a: nat, b: nat): Progress {
    match j
    case 0 => Started
    case 1 => Looked(None)
    case 2 => Sorting([], false)
    case 3 => Sorting([], true)
    case 4 => Sorting([Ready], false)
    case 5 => Sorting([Ready], true)
    case 6 => Scoring([Ready, Ready], [])
    case 7 => Scoring([Ready, Ready], [4.0 * a as real])
    case 8 => Picked(Choice(a, b))
    case 9 => Steady(Choice(a, b))
    case _ => Writing(Choice(a, b), true)
  }

  lemma BothAreCandidates()
    ensures CandidateIds(POOL, [Ready, Ready]) == POOL
  {
    assert Ready in [Ready, Ready];
    assert POOL[..1] == ["a"] && [Ready, Ready][..1] == [Ready];
    assert Pick(["a"], [Ready], Ready) == ["a"] by {
      assert ["a"][..0] == [] && [Ready][..0] == [];
    }
  }

  /** A state in which selections find these loads. */
  predicate Shows(s: Sys, a: nat, b: nat) {
    && "a" in s.backends && s.backends["a"] == Loaded("a", a)
    && "b" in s.backends && s.backends["b"] == Loaded("b", b)
    && s.now == NOW && Known(s, POOL)
  }

  lemma ShownIs(s: Sys, a: nat, b: nat, i: nat)
    requires Shows(s, a, b) && i < 2
    ensures var x, n := POOL[i], if i == 0 then a else b;
            && x in s.backends && s.backends[x].id == x && Score(s.backends[x], 0, s.now) == 4.0 * n as real
            && !FailingNow(s.backends[x], s.now) && !RampingNow(s.backends[x], s.now)
            && (n <= 10 ==> !Overloaded(s.backends[x], POLICY.maxConcurrency, POLICY.kvLimit, 0, s.now))
  {
    LoadedIs("a", a);
    LoadedIs("b", b);
    hide Loaded, Score, FailingNow, RampingNow, Overloaded;
  }

  ghost predicate GoesOn(s: Sys, j: nat, a: nat, b: nat) {
    && Known(s, POOL) && Fits(s, Sel(Course(j, a, b))) && Reading(Course(j, a, b))
    && Advanced(CONFIG, s, Sel(Course(j, a, b))) == Course(j + 1, a, b)
  }

  lemma SortsOn(s: Sys, j: nat, a: nat, b: nat)
    requires 2 <= j < 6 && Shows(s, a, b)
    ensures GoesOn(s, j, a, b)
  {
    ShownIs(s, a, b, 0);
    ShownIs(s, a, b, 1);
    assert [] + [Ready] == [Ready] && [Ready] + [Ready] == [Ready, Ready];
    hide Loaded, Score, FailingNow, RampingNow, Choice, Known, Shows, CandidateIds;
  }

  lemma ScoreIsRead(s: Sys, a: nat, b: nat, scores: seq<real>)
    requires Shows(s, a, b) && |scores| < 2
    ensures Fits(s, Sel(Scoring([Ready, Ready], scores)))
    ensures NextScore(CONFIG, s, Sel(Scoring([Ready, Ready], scores))) == 4.0 * (if scores == [] then a else b) as real
  {
    BothAreCandidates();
    ShownIs(s, a, b, |scores|);
    hide Loaded, Score, CandidateIds, FailingNow, RampingNow, Overloaded;
  }

  lemma ScoresOn(s: Sys, j: nat, a: nat, b: nat)
    requires 6 <= j < 8 && Shows(s, a, b)
    ensures GoesOn(s, j, a, b)
  {
    hide NextScore, CandidateIds, LeastIndex, KeyHash, Known, Fits, Loaded;
    BothAreCandidates();
    if j == 6 {
      ScoreIsRead(s, a, b, []);
      assert [] + [4.0 * a as real] == [4.0 * a as real];
    } else {
      ScoreIsRead(s, a, b, [4.0 * a as real]);
      assert [4.0 * a as real] + [4.0 * b as real] == [4.0 * a as real, 4.0 * b as real];
    }
  }

  lemma OthersGoOn(s: Sys, j: nat, a: nat, b: nat)
    requires (j == 1 || 8 <= j < 10) && Shows(s, a, b)
    ensures GoesOn(s, j, a, b)
  {
    ShownIs(s, a, b, 0);
    ShownIs(s, a, b, 1);
    hide Loaded, FailingNow, RampingNow, Choice, Score, Overloaded;
  }

  /** One reading, apart from the look-up. */
  lemma CourseGoesOn(s: Sys, j: nat, a: nat, b: nat)
    requires 1 <= j < 10 && Shows(s, a, b)
    ensures GoesOn(s, j, a, b)
  {
    if 2 <= j < 6 {
      SortsOn(s, j, a, b);
    } else if 6 <= j < 8 {
      ScoresOn(s, j, a, b);
    } else {
      OthersGoOn(s, j, a, b);
    }
    hide GoesOn;
  }

  lemma LooksUp(s: Sys, pins: seq<Pin>)
    requires s.pins == map[GROUP := pins] && s.now == NOW
    requires pins == [] || (|pins| == 1 && pins[0].key == KEY && pins[0].lastSeen == NOW)
    ensures LookedUp(CONFIG, s, Sel(Started)) == if pins == [] then None else Some(pins[0].backend)
  {
  }

  /** One reading of a selection that finds no pin. */
  lemma Reads(a: nat, b: nat, pins: seq<Pin>, sel: map<nat, Selecting>, req: map<nat, Request>, r: nat, j: nat, i: nat)
    requires r in sel && sel[r] == Sel(Course(j, a, b)) && r !in req && j < 10 && i == j + 1 && (j == 0 ==> pins == [])
    ensures var s, act := At(a, b, pins, sel, req), SelectAdvance(r);
            Enabled(CONFIG, s, act) && Next(CONFIG, s, act) == At(a, b, pins, sel[r := Sel(Course(i, a, b))], req)
  {
    var s := At(a, b, pins, sel, req);
    AtHas(a, b, pins, sel, req);
    if j == 0 {
      LooksUp(s, pins);
    } else {
      CourseGoesOn(s, j, a, b);
    }
    ReadingIs(s, r, Course(i, a, b));
    hide At, Loaded, Course, Advanced, Fits;
  }

  lemma ReadingIs(s: Sys, r: nat, p: Progress)
    requires r in s.selections && r !in s.requests && Known(s, POOL)
    requires s.selections[r] == Sel(s.selections[r].progress) && Fits(s, s.selections[r]) && Reading(s.selections[r].progress)
    requires Advanced(CONFIG, s, s.selections[r]) == p
    ensures Enabled(CONFIG, s, SelectAdvance(r))
    ensures Next(CONFIG, s, SelectAdvance(r)) == s.(selections := s.selections[r := Sel(p)])
  {
    assert InProgress(CONFIG, s, r);
    AdvanceIs(CONFIG, s, r);
    hide Advanced, Fits, Next;
  }

  // ---- A selection with a pin ------------------------------------------------------------

  /** The readings of a selection that follows its pin. */
  function Following(j: nat, x: string): Progress {
    match j
    case 0 => Started
    case 1 => Looked(Some(x))
    case 2 => Cleared(x)
    case _ => Trusting(x)
  }

  lemma FollowingGoesOn(s: Sys, j: nat, a: nat, b: nat, x: string)
    requires 1 <= j < 3 && Shows(s, a, b) && a <= 10 && b <= 10 && x in POOL
    ensures Fits(s, Sel(Following(j, x))) && Reading(Following(j, x))
    ensures Advanced(CONFIG, s, Sel(Following(j, x))) == Following(j + 1, x)
  {
    ShownIs(s, a, b, 0);
    ShownIs(s, a, b, 1);
    hide Loaded, FailingNow, RampingNow, Overloaded, Score;
  }

  lemma Follows(a: nat, b: nat, sel: map<nat, Selecting>, req: map<nat, Request>, r: nat, x: string, j: nat, i: nat)
    requires r in sel && sel[r] == Sel(Following(j, x)) && r !in req && j < 3 && i == j + 1 && x in POOL && a <= 10 && b <= 10
    ensures var s, act := At(a, b, [Pin(KEY, x, NOW)], sel, req), SelectAdvance(r);
            && Enabled(CONFIG, s, act)
            && Next(CONFIG, s, act) == At(a, b, [Pin(KEY, x, NOW)], sel[r := Sel(Following(i, x))], req)
  {
    var s := At(a, b, [Pin(KEY, x, NOW)], sel, req);
    AtHas(a, b, [Pin(KEY, x, NOW)], sel, req);
    if j == 0 {
      LooksUp(s, [Pin(KEY, x, NOW)]);
    } else {
      FollowingGoesOn(s, j, a, b, x);
    }
    ReadingIs(s, r, Following(i, x));
    hide At, Loaded, Following, Advanced, Fits;
  }

  // ---- First and last steps --------------------------------------------------------------

  lemma Begins(a: nat, b: nat, pins: seq<Pin>, sel: map<nat, Selecting>, req: map<nat, Request>, r: nat)
    requires r !in sel && r !in req
    ensures var s, act := At(a, b, pins, sel, req), SelectStart(r, GROUP, KEY, POOL, 0);
            Enabled(CONFIG, s, act) && Next(CONFIG, s, act) == At(a, b, pins, sel[r := Sel(Started)], req)
  {
    Names();
    var s := At(a, b, pins, sel, req);
    assert Members(CONFIG, s, GROUP) == {"a", "b"};
    assert SomeMembers(CONFIG, s, GROUP, POOL);
  }

  /** Writing the pin replaces whatever pin the key had. */
  lemma Writes(a: nat, b: nat, pins: seq<Pin>, sel: map<nat, Selecting>, req: map<nat, Request>, r: nat, x: string)
    requires r in sel && sel[r] == Sel(Writing(x, true)) && r !in req && x in POOL
    requires pins == [] || (|pins| == 1 && pins[0].key == KEY)
    ensures var s, act := At(a, b, pins, sel, req), SelectPin(r);
            && Enabled(CONFIG, s, act)
            && Next(CONFIG, s, act) == At(a, b, [Pin(KEY, x, NOW)], sel - {r}, req[r := Request(x, Selected)])
  {
    Names();
    assert AffinityModel.Set(pins, KEY, x, NOW, 10) == [Pin(KEY, x, NOW)];
  }

  lemma Touches(a: nat, b: nat, sel: map<nat, Selecting>, req: map<nat, Request>, r: nat, x: string)
    requires r in sel && sel[r] == Sel(Trusting(x)) && r !in req && x in POOL
    ensures var s, act := At(a, b, [Pin(KEY, x, NOW)], sel, req), SelectTouch(r);
            && Enabled(CONFIG, s, act)
            && Next(CONFIG, s, act) == At(a, b, [Pin(KEY, x, NOW)], sel - {r}, req[r := Request(x, Selected)])
  {
    Names();
    assert AffinityModel.Touch([Pin(KEY, x, NOW)], KEY, NOW) == [Pin(KEY, x, NOW)];
  }

  // ---- Runs ------------------------------------------------------------------------------

  lemma RunOf(ss: seq<Sys>, acts: seq<Action>)
    requires |ss| == |acts| + 1 && forall k :: 0 <= k < |acts| ==> StepAt(CONFIG, ss, acts, k)
    ensures IsRun(CONFIG, ss, acts)
  {
    hide StepAt;
  }
}
