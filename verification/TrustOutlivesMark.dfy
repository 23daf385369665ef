/**
 A backend is marked while a selection trusts it: a complete run from start-up in which the selection
 returns it all the same, although the other backend of the group is idle. It shows that
 FailoverExclusion's exception for earlier readings is real.
 */
module TrustOutlivesMark {
  import opened Common
  import opened AffinityModel
  import opened BackendModel
  import opened LoadScore
  import opened BalancerSystem
  import S = SelectionReadings
  import opened FailoverExclusion
  import opened TwoBackends

  /** The backend that the first selection picks and pins. */
  function X(): string {
    Choice(0, 0)
  }

  /**
   Selection 0 picks x and pins it. Selection 1 finds the pin and looks at x; then InvalidatePin
   looks the pin up and marks x; then selection 1 returns x.
   */
  function ActionAt(k: nat): Action {
    if k == 0 then SelectStart(0, GROUP, KEY, POOL, 0)
    else if k < 11 then SelectAdvance(0)
    else if k == 11 then SelectPin(0)
    else if k == 12 then SelectStart(1, GROUP, KEY, POOL, 0)
    else if k < 16 then SelectAdvance(1)
    else if k == 16 then InvalidateGet(0, GROUP, KEY)
    else if k == 17 then InvalidateMark(0)
    else SelectTouch(1)
  }

  /** Once x is pinned. */
  function Pinned(sel: map<nat, Selecting>): Sys {
    At(0, 0, [Pin(KEY, X(), NOW)], sel, map[0 := Request(X(), Selected)])
  }

  function Call(marked: bool): Invalidation {
    Invalidation(GROUP, KEY, Some(X()), marked)
  }

  /** Selection 1 trusts x, and the invalidation has looked up the pin. */
  function Found(): Sys {
    Pinned(map[1 := Sel(Trusting(X()))]).(calls := map[0 := Call(false)])
  }

  /** The same, with x marked. */
  function MarkedState(): Sys {
    Found().(calls := map[0 := Call(true)],
             backends := map["a" := Loaded("a", 0), "b" := Loaded("b", 0)][X() := DispatchFailed(Loaded(X(), 0), 10, NOW)])
  }

  ghost function StateAt(k: nat): Sys {
    if k == 0 then At(0, 0, [], map[], map[])
    else if k < 12 then At(0, 0, [], map[0 := Sel(Course(k - 1, 0, 0))], map[])
    else if k == 12 then Pinned(map[])
    else if k < 17 then Pinned(map[1 := Sel(Following(k - 13, X()))])
    else if k == 17 then Found()
    else if k == 18 then MarkedState()
    else MarkedState().(selections := map[], requests := map[0 := Request(X(), Selected), 1 := Request(X(), Selected)])
  }

  ghost function States(): seq<Sys> {
    seq(20, k requires 0 <= k < 20 => StateAt(k))
  }

  function Actions(): seq<Action> {
    seq(19, k requires 0 <= k < 19 => ActionAt(k))
  }

  ghost predicate Goes(k: nat) {
    Enabled(CONFIG, StateAt(k), ActionAt(k)) && Next(CONFIG, StateAt(k), ActionAt(k)) == StateAt(k + 1)
  }

  // ---- Each step -------------------------------------------------------------------------

  lemma XIsMember()
    ensures X() in POOL && (X() == "a" || X() == "b") && Other(X()) in POOL && Other(X()) != X()
  {
    Names();
    hide Choice;
  }

  lemma FirstStarts()
    ensures Goes(0)
  {
    hide Next, Enabled, At, Choice;
    Begins(0, 0, [], map[], map[], 0);
  }

  lemma FirstReads(k: nat)
    requires 1 <= k < 11
    ensures Goes(k)
  {
    hide Next, Enabled, At, Course, X, Choice;
    var m := map[0 := Sel(Course(k - 1, 0, 0))];
    Reads(0, 0, [], m, map[], 0, k - 1, k);
    assert m[0 := Sel(Course(k, 0, 0))] == map[0 := Sel(Course(k, 0, 0))];
  }

  lemma FirstPins()
    ensures Goes(11)
  {
    XIsMember();
    hide Next, Enabled, At, Choice;
    var m := map[0 := Sel(Course(10, 0, 0))];
    Writes(0, 0, [], m, map[], 0, X());
    assert m - {0} == map[];
  }

  lemma SecondStarts()
    ensures Goes(12)
  {
    hide Next, Enabled, At, X, Choice;
    Begins(0, 0, [Pin(KEY, X(), NOW)], map[], map[0 := Request(X(), Selected)], 1);
  }

  lemma SecondFollows(k: nat)
    requires 13 <= k < 16
    ensures Goes(k)
  {
    XIsMember();
    hide Next, Enabled, At, Following, X, Choice, Other;
    var m := map[1 := Sel(Following(k - 13, X()))];
    Follows(0, 0, m, map[0 := Request(X(), Selected)], 1, X(), k - 13, k - 12);
    assert m[1 := Sel(Following(k - 12, X()))] == map[1 := Sel(Following(k - 12, X()))];
  }

  lemma InvalidationFinds()
    ensures Goes(16)
  {
    hide X, SomeMembers, Loaded, Choice;
    var s := Pinned(map[1 := Sel(Trusting(X()))]);
    assert AffinityModel.Get([Pin(KEY, X(), NOW)], KEY, NOW, POLICY.ttl) == Some(Pin(KEY, X(), NOW));
    assert s.calls[0 := Call(false)] == map[0 := Call(false)];
  }

  lemma InvalidationMarks()
    ensures Goes(17)
  {
    XIsMember();
    Names();
    var s := Found();
    hide X, SomeMembers, Loaded, DispatchFailed, Choice;
    assert Members(CONFIG, s, GROUP) == {"a", "b"};
    assert s.backends[X()] == Loaded(X(), 0);
    assert s.calls[0 := Call(true)] == map[0 := Call(true)];
  }

  lemma SecondReturns()
    ensures Goes(18)
  {
    XIsMember();
    Names();
    hide X, SomeMembers, Loaded, DispatchFailed, Choice;
    var s := MarkedState();
    assert InProgress(CONFIG, s, 1);
    assert AffinityModel.Touch([Pin(KEY, X(), NOW)], KEY, NOW) == [Pin(KEY, X(), NOW)];
    assert s.pins[GROUP := [Pin(KEY, X(), NOW)]] == s.pins;
    assert s.selections - {1} == map[];
    assert s.requests[1 := Request(X(), Selected)] == map[0 := Request(X(), Selected), 1 := Request(X(), Selected)];
  }

  lemma EveryStep(k: nat)
    requires k < 19
    ensures Goes(k)
  {
    hide *;
    if k == 0 {
      FirstStarts();
    } else if k < 11 {
      FirstReads(k);
    } else if k < 13 {
      FirstPins();
      SecondStarts();
    } else if k < 16 {
      SecondFollows(k);
    } else {
      InvalidationFinds();
      InvalidationMarks();
      SecondReturns();
    }
  }

  lemma ElementsAre(k: nat)
    requires k < 19
    ensures |States()| == 20 && |Actions()| == 19
    ensures States()[k] == StateAt(k) && Actions()[k] == ActionAt(k) && States()[k + 1] == StateAt(k + 1)
  {
    hide StateAt, ActionAt;
  }

  lemma StepGoes(k: nat)
    requires k < 19
    ensures |States()| == |Actions()| + 1 && StepAt(CONFIG, States(), Actions(), k)
  {
    ElementsAre(k);
    EveryStep(k);
    assert Goes(k);
    hide States, Actions, Next, Enabled, StateAt, ActionAt;
    assert StepAt(CONFIG, States(), Actions(), k);
  }

  lemma RunGoes()
    ensures IsRun(CONFIG, States(), Actions())
  {
    ElementsAre(0);
    forall k | 0 <= k < 19
      ensures StepAt(CONFIG, States(), Actions(), k)
    {
      hide *;
      StepGoes(k);
    }
    RunOf(States(), Actions());
    hide *;
  }

  // ---- The exception ---------------------------------------------------------------------

  /** Up to the mark nobody is failing; after it the other backend is not. */
  lemma NobodyFails(d: nat)
    requires d < 18
    ensures StateAt(d).backends.Keys == {"a", "b"} && StateAt(d).now == NOW
    ensures forall id :: id in StateAt(d).backends ==> !FailingNow(StateAt(d).backends[id], NOW)
  {
    hide X, Loaded, FailingNow, Course, Following, Choice, Call;
    IdleNeverFails(StateAt(d).backends);
  }

  lemma IdleNeverFails(backends: map<string, Backend>)
    requires backends == map["a" := Loaded("a", 0), "b" := Loaded("b", 0)]
    ensures backends.Keys == {"a", "b"} && forall id :: id in backends ==> !FailingNow(backends[id], NOW)
  {
    LoadedIs("a", 0);
    LoadedIs("b", 0);
    hide Loaded, FailingNow, RampingNow, Overloaded, Score;
  }

  lemma OtherIsReadyThroughout(k: nat)
    requires k < 19
    ensures var s := StateAt(k); s.now == NOW && Other(X()) in s.backends && !FailingNow(s.backends[Other(X())], NOW)
  {
    XIsMember();
    if k < 18 {
      NobodyFails(k);
    } else {
      OtherAfterMark();
    }
    hide X, Loaded, FailingNow, Choice, Course, Following, Call;
  }

  lemma OtherAfterMark()
    ensures var s := StateAt(18); s.now == NOW && Other(X()) in s.backends && !FailingNow(s.backends[Other(X())], NOW)
  {
    hide X, Other, Loaded, FailingNow, Choice, DispatchFailed, Call;
    XIsMember();
    var idle := map["a" := Loaded("a", 0), "b" := Loaded("b", 0)];
    IdleNeverFails(idle);
    assert Other(X()) in idle.Keys;
    assert StateAt(18).backends == idle[X() := DispatchFailed(Loaded(X(), 0), 10, NOW)];
  }

  lemma NotAllReadFailing()
    ensures |States()| == 20 && |Actions()| == 19
    ensures !S.AllReadFailing(States(), Actions(), 18, 1, POOL)
  {
    ElementsAre(0);
    if S.AllReadFailing(States(), Actions(), 18, 1, POOL) {
      assert S.ReadAs(States(), Actions(), 18, 1, POOL[0], true);
      var d :| 0 <= d < 18 && S.Reads(States()[d], Actions()[d], 1, POOL[0]) && FailingNow(States()[d].backends[POOL[0]], States()[d].now);
      ElementsAre(d);
      NobodyFails(d);
      assert false;
    }
    hide States, Actions, StateAt, ActionAt, FailingNow;
  }

  lemma Milestones()
    ensures |States()| == |Actions()| + 1 == 20
    ensures var ss, acts := States(), Actions();
            && Marks(ss[17], acts[17], X()) && 1 in ss[17].selections && ss[17].selections[1].progress == Trusting(X())
            && acts[18] == SelectTouch(1) && 1 in ss[18].selections && ss[18].selections[1].pool == POOL
            && Returns(ss[18], acts[18], ss[19], 1, X())
            && X() in ss[18].backends && ss[18].backends[X()].recentFailureUntil == NOW + 10 * SECOND
  {
    XIsMember();
    Names();
    hide Loaded, States, Actions, X, Choice;
    ElementsAre(17);
    ElementsAre(18);
  }

  lemma StartsInitial()
    ensures |States()| == 20 && Initial(CONFIG, States()[0])
  {
    ElementsAre(0);
    StartIsInitial();
    hide States, Initial, At;
  }

  /**
   A run from start-up: x is marked in step 17 while selection 1 trusts it, and returned in step 18,
   within ten seconds, although the other backend is not failing at any point of the run.
   */
  lemma TrustedBackendIsReturned()
    ensures var ss, acts, x := States(), Actions(), X();
            && IsRun(CONFIG, ss, acts) && Initial(CONFIG, ss[0]) && |acts| == 19
            && Marks(ss[17], acts[17], x) && 1 in ss[17].selections && ss[17].selections[1].progress == Trusting(x)
            && Returns(ss[18], acts[18], ss[19], 1, x) && ss[18].now < ss[17].now + 10 * SECOND
            && x in ss[18].backends && FailingNow(ss[18].backends[x], ss[18].now)
            && (forall k :: 0 <= k < 19 ==> Other(x) in ss[k].backends && !FailingNow(ss[k].backends[Other(x)], ss[k].now))
            && !S.AllReadFailing(ss, acts, 18, 1, POOL)
  {
    hide StateAt, ActionAt, States, Actions, IsRun, Initial, Marks, Returns, X, S.AllReadFailing;
    RunGoes();
    StartsInitial();
    Milestones();
    NotAllReadFailing();
    forall k | 0 <= k < 19
      ensures States()[k].now == NOW && Other(X()) in States()[k].backends && !FailingNow(States()[k].backends[Other(X())], NOW)
    {
      ElementsAre(k);
      OtherIsReadyThroughout(k);
    }
    assert States()[17].now == NOW && States()[18].now == NOW;
  }
}
