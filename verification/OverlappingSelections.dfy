/**
 Two overlapping first selections of one key: a run from start-up in which the session moves
 although nothing else goes wrong. It shows that SessionStability's condition on the other running
 selections is needed.
 */
module OverlappingSelections {
  import opened AffinityModel
  import opened BackendModel
  import opened LoadScore
  import opened BalancerSystem
  import opened FailoverExclusion
  import S = SessionStability
  import opened TwoBackends

  // ---- The run ---------------------------------------------------------------------------

  /** The backend that the first selection picks. */
  function X(): string {
    Choice(0, 0)
  }

  function LoadA(): nat {
    if X() == "a" then 1 else 0
  }

  function LoadB(): nat {
    if X() == "b" then 1 else 0
  }

  /**
   Selections 0 and 1 both miss the pin. Selection 0 picks x, pins it, and its request is counted
   in; selection 1 then picks the other backend and pins that. Selection 2 follows the pin.
   */
  function ActionAt(k: nat): Action {
    if k == 0 then SelectStart(0, GROUP, KEY, POOL, 0)
    else if k == 1 then SelectStart(1, GROUP, KEY, POOL, 0)
    else if k < 4 then SelectAdvance(0)
    else if k < 6 then SelectAdvance(1)
    else if k < 14 then SelectAdvance(0)
    else if k == 14 then SelectPin(0)
    else if k == 15 then Incr(0)
    else if k == 16 then Dispatch(0)
    else if k < 25 then SelectAdvance(1)
    else if k == 25 then SelectPin(1)
    else if k == 26 then SelectStart(2, GROUP, KEY, POOL, 0)
    else if k < 30 then SelectAdvance(2)
    else SelectTouch(2)
  }

  /** Before the first pin. */
  function Early(sel: map<nat, Selecting>): Sys {
    At(0, 0, [], sel, map[])
  }

  /** Between Incr and Dispatch of x's request. */
  function Half(): Sys {
    At(0, 0, [Pin(KEY, X(), NOW)], map[1 := Sel(Course(2, 0, 0))], map[0 := Request(X(), Counted)])
      .(backends := map["a" := Loaded("a", 0), "b" := Loaded("b", 0)][X() := Loaded(X(), 0).(inFlight := 1)])
  }

  /** Once x's request is sent. */
  function Late(pin: string, sel: map<nat, Selecting>, req: map<nat, Request>): Sys {
    At(LoadA(), LoadB(), [Pin(KEY, pin, NOW)], sel, req)
  }

  function SentRequest(): map<nat, Request> {
    map[0 := Request(X(), Sent)]
  }

  function BothRequests(): map<nat, Request> {
    map[0 := Request(X(), Sent), 1 := Request(Other(X()), Selected)]
  }

  ghost function StateAt(k: nat): Sys {
    if k == 0 then Early(map[])
    else if k == 1 then Early(map[0 := Sel(Started)])
    else if k < 4 then Early(map[0 := Sel(Course(k - 2, 0, 0)), 1 := Sel(Started)])
    else if k < 6 then Early(map[0 := Sel(Course(2, 0, 0)), 1 := Sel(Course(k - 4, 0, 0))])
    else if k < 15 then Early(map[0 := Sel(Course(k - 4, 0, 0)), 1 := Sel(Course(2, 0, 0))])
    else if k == 15 then At(0, 0, [Pin(KEY, X(), NOW)], map[1 := Sel(Course(2, 0, 0))], map[0 := Request(X(), Selected)])
    else if k == 16 then Half()
    else if k < 26 then Late(X(), map[1 := Sel(Course(k - 15, LoadA(), LoadB()))], SentRequest())
    else if k == 26 then Late(Other(X()), map[], BothRequests())
    else if k < 31 then Late(Other(X()), map[2 := Sel(Following(k - 27, Other(X())))], BothRequests())
    else Late(Other(X()), map[], BothRequests()[2 := Request(Other(X()), Selected)])
  }

  ghost function States(): seq<Sys> {
    seq(32, k requires 0 <= k < 32 => StateAt(k))
  }

  function Actions(): seq<Action> {
    seq(31, k requires 0 <= k < 31 => ActionAt(k))
  }

  ghost predicate Goes(k: nat) {
    Enabled(CONFIG, StateAt(k), ActionAt(k)) && Next(CONFIG, StateAt(k), ActionAt(k)) == StateAt(k + 1)
  }

  // ---- Each step -------------------------------------------------------------------------

  lemma Starts(k: nat)
    requires k < 2
    ensures Goes(k)
  {
    hide Next, Enabled, At;
    Begins(0, 0, [], map[], map[], 0);
    Begins(0, 0, [], map[0 := Sel(Started)], map[], 1);
  }

  lemma FirstLooks(k: nat)
    requires 2 <= k < 6
    ensures Goes(k)
  {
    hide Next, Enabled, At, Choice;
    if k < 4 {
      var m := map[0 := Sel(Course(k - 2, 0, 0)), 1 := Sel(Started)];
      Reads(0, 0, [], m, map[], 0, k - 2, k - 1);
      assert m[0 := Sel(Course(k - 1, 0, 0))] == map[0 := Sel(Course(k - 1, 0, 0)), 1 := Sel(Started)];
    } else {
      var m := map[0 := Sel(Course(2, 0, 0)), 1 := Sel(Course(k - 4, 0, 0))];
      Reads(0, 0, [], m, map[], 1, k - 4, k - 3);
      assert m[1 := Sel(Course(k - 3, 0, 0))] == map[0 := Sel(Course(2, 0, 0)), 1 := Sel(Course(k - 3, 0, 0))];
    }
  }

  lemma FirstChoice(k: nat)
    requires 6 <= k < 14
    ensures Goes(k)
  {
    hide Next, Enabled, At, Course, X;
    var m := map[0 := Sel(Course(k - 4, 0, 0)), 1 := Sel(Course(2, 0, 0))];
    Reads(0, 0, [], m, map[], 0, k - 4, k - 3);
    assert m[0 := Sel(Course(k - 3, 0, 0))] == map[0 := Sel(Course(k - 3, 0, 0)), 1 := Sel(Course(2, 0, 0))];
  }

  lemma FirstPin()
    ensures Goes(14)
  {
    hide Next, Enabled, At, Choice;
    var m := map[0 := Sel(Course(10, 0, 0)), 1 := Sel(Course(2, 0, 0))];
    TwoBackends.Writes(0, 0, [], m, map[], 0, X());
    assert m - {0} == map[1 := Sel(Course(2, 0, 0))];
  }

  lemma CountsIn()
    ensures Goes(15)
  {
    hide SomeMembers, InProgress, Members, Choice, Course;
    Names();
    assert X() == "a" || X() == "b";
    assert Loaded(X(), 0).(inFlight := Loaded(X(), 0).inFlight + 1) == Loaded(X(), 0).(inFlight := 1);
    assert map[0 := Request(X(), Selected)][0 := Request(X(), Counted)] == map[0 := Request(X(), Counted)];
  }

  lemma Sends()
    ensures Goes(16)
  {
    hide SomeMembers, InProgress, Members, Choice;
    SentState();
    NextIs(CONFIG, Half(), Dispatch(0));
    hide Half, Late, Loaded, Next;
  }

  lemma SentState()
    ensures var half, late := Half(), Late(X(), map[1 := Sel(Course(2, LoadA(), LoadB()))], SentRequest());
            && half.requests == map[0 := Request(X(), Counted)] && half.requests[0 := Request(X(), Sent)] == late.requests
            && X() in half.backends
            && half.backends[X() := half.backends[X()].(flow := Dispatched(half.backends[X()].flow, half.now))] == late.backends
            && half.now == late.now && half.pins == late.pins && half.selections == late.selections
            && half.calls == late.calls && half.loops == late.loops
  {
    hide Choice, Loaded, Dispatched;
    SentBackend();
  }

  lemma SentBackend()
    ensures var half := Loaded(X(), 0).(inFlight := 1); half.(flow := Dispatched(half.flow, NOW)) == Loaded(X(), 1)
    ensures map["a" := Loaded("a", 0), "b" := Loaded("b", 0)][X() := Loaded(X(), 1)]
         == map["a" := Loaded("a", LoadA()), "b" := Loaded("b", LoadB())]
  {
    Names();
    assert X() == "a" || X() == "b";
    hide Choice;
  }

  lemma SecondChoice(k: nat)
    requires 17 <= k < 25
    ensures Goes(k)
  {
    hide Next, Enabled, At, Course, X, LoadA, LoadB, SentRequest;
    var m := map[1 := Sel(Course(k - 15, LoadA(), LoadB()))];
    assert 1 !in SentRequest() by {
      FirstIsSent();
    }
    Reads(LoadA(), LoadB(), [Pin(KEY, X(), NOW)], m, SentRequest(), 1, k - 15, k - 14);
    assert m[1 := Sel(Course(k - 14, LoadA(), LoadB()))] == map[1 := Sel(Course(k - 14, LoadA(), LoadB()))];
  }

  lemma FirstIsSent()
    ensures 1 !in SentRequest() && 2 !in BothRequests()
    ensures SentRequest()[1 := Request(Other(X()), Selected)] == BothRequests()
  {
  }

  lemma SecondChoiceIsOther()
    ensures Choice(LoadA(), LoadB()) == Other(X()) && X() in POOL && Other(X()) in POOL && Other(X()) != X()
  {
    Names();
    ChoiceIsLighter(LoadA(), LoadB());
    assert X() == "a" || X() == "b";
    hide Choice;
  }

  /** Selection 1 writes its own choice, and the pin moves there. */
  lemma SecondPin()
    ensures Goes(25)
  {
    SecondChoiceIsOther();
    FirstIsSent();
    hide Next, Enabled, At, Choice, X, LoadA, LoadB, SentRequest, BothRequests;
    var m := map[1 := Sel(Course(10, LoadA(), LoadB()))];
    TwoBackends.Writes(LoadA(), LoadB(), [Pin(KEY, X(), NOW)], m, SentRequest(), 1, Other(X()));
    assert m - {1} == map[];
  }

  lemma ThirdStarts()
    ensures Goes(26)
  {
    FirstIsSent();
    hide Next, Enabled, At, X, LoadA, LoadB, BothRequests;
    Begins(LoadA(), LoadB(), [Pin(KEY, Other(X()), NOW)], map[], BothRequests(), 2);
  }

  /** Selection 2 follows the pin away from x, although x could serve it. */
  lemma ThirdFollows(k: nat)
    requires 27 <= k < 30
    ensures Goes(k)
  {
    hide Next, Enabled, At, Following, X, LoadA, LoadB, SentRequest, BothRequests, Choice, Other, Early, Half, Course;
    SecondChoiceIsOther();
    FirstIsSent();
    LoadsAreLight();
    var m := map[2 := Sel(Following(k - 27, Other(X())))];
    Follows(LoadA(), LoadB(), m, BothRequests(), 2, Other(X()), k - 27, k - 26);
    assert m[2 := Sel(Following(k - 26, Other(X())))] == map[2 := Sel(Following(k - 26, Other(X())))];
  }

  lemma LoadsAreLight()
    ensures LoadA() <= 10 && LoadB() <= 10
  {
    hide X;
  }

  lemma ThirdReturns()
    ensures Goes(30)
  {
    hide Next, Enabled, At, X, LoadA, LoadB, SentRequest, BothRequests, Choice, Other, Early, Half, Course;
    SecondChoiceIsOther();
    FirstIsSent();
    var m := map[2 := Sel(Following(3, Other(X())))];
    Touches(LoadA(), LoadB(), m, BothRequests(), 2, Other(X()));
    assert m - {2} == map[];
  }

  lemma EveryStep(k: nat)
    requires k < 31
    ensures Goes(k)
  {
    hide *;
    if k < 2 {
      Starts(k);
    } else if k < 6 {
      FirstLooks(k);
    } else if k < 14 {
      FirstChoice(k);
    } else if k < 17 {
      FirstPin();
      CountsIn();
      Sends();
    } else if k < 25 {
      SecondChoice(k);
    } else if k < 27 {
      SecondPin();
      ThirdStarts();
    } else if k < 30 {
      ThirdFollows(k);
    } else {
      ThirdReturns();
    }
  }

  lemma ElementsAre(k: nat)
    requires k < 31
    ensures |States()| == 32 && |Actions()| == 31
    ensures States()[k] == StateAt(k) && Actions()[k] == ActionAt(k) && States()[k + 1] == StateAt(k + 1)
  {
    hide StateAt, ActionAt;
  }

  lemma StepGoes(k: nat)
    requires k < 31
    ensures |States()| == |Actions()| + 1 && StepAt(CONFIG, States(), Actions(), k)
  {
    ElementsAre(k);
    EveryStep(k);
    assert Goes(k);
    hide States, Actions, Next, Enabled, StateAt, ActionAt;
    assert StepAt(CONFIG, States(), Actions(), k);
  }

  lemma RunGoes()
    ensures IsRun(CONFIG, States(), Actions())
  {
    ElementsAre(0);
    forall k | 0 <= k < 31
      ensures StepAt(CONFIG, States(), Actions(), k)
    {
      hide *;
      StepGoes(k);
    }
    RunOf(States(), Actions());
    hide *;
  }

  // ---- The counterexample ----------------------------------------------------------------

  lemma LateHas(pin: string, sel: map<nat, Selecting>, req: map<nat, Request>)
    ensures var s := Late(pin, sel, req);
            s.selections == sel && s.now == NOW && s.requests == req && s.calls == map[] && PinsIn(s, GROUP) == [Pin(KEY, pin, NOW)]
  {
    AtHas(LoadA(), LoadB(), [Pin(KEY, pin, NOW)], sel, req);
    hide At, LoadA, LoadB;
  }

  /** The write at step 25 is the key's last one before the third selection looks it up. */
  lemma WritesAt25()
    ensures S.Writes(StateAt(25), ActionAt(25), GROUP) == {KEY}
    ensures S.Writes(StateAt(26), ActionAt(26), GROUP) == {}
  {
    hide Late, X, LoadA, LoadB, SentRequest, BothRequests, Choice, Early, Half, At, PinsIn;
    LateHas(X(), map[1 := Sel(Course(10, LoadA(), LoadB()))], SentRequest());
  }

  lemma LookUpIsTimely()
    ensures |States()| == |Actions()| + 1 == 32
    ensures S.LastWrite(States(), Actions(), GROUP, KEY, 14, 27) == 25
    ensures S.OtherKeys(States(), Actions(), GROUP, KEY, 26, 27) == {}
  {
    ElementsAre(25);
    ElementsAre(26);
    WritesAt25();
    hide States, Actions, StateAt, ActionAt, S.Writes;
  }

  lemma NowIs(k: nat)
    requires 14 <= k < 31
    ensures StateAt(k).now == NOW && !S.DeletesPin(StateAt(k), ActionAt(k), GROUP, KEY)
  {
    hide Loaded, Course, Following, X;
  }

  /** The second selection, once the first has pinned, only sorts, scores and picks. */
  lemma SecondSorts(k: nat)
    requires 17 <= k < 25
    ensures var s := StateAt(k);
            && ActionAt(k) == SelectAdvance(1) && 1 in s.selections
            && var p := s.selections[1].progress; !p.Started? && !p.Looked? && !p.Cleared?
  {
    hide Late, X, LoadA, LoadB, SentRequest, Half, Choice, At, Early, BothRequests;
    LateHas(X(), map[1 := Sel(Course(k - 15, LoadA(), LoadB()))], SentRequest());
  }

  lemma ThirdLooks(k: nat)
    requires 27 <= k < 30
    ensures var s := StateAt(k);
            && ActionAt(k) == SelectAdvance(2) && 2 in s.selections && s.selections[2] == Sel(Following(k - 27, Other(X())))
            && Shows(s, LoadA(), LoadB()) && LoadA() <= 10 && LoadB() <= 10
  {
    AtHas(LoadA(), LoadB(), [Pin(KEY, Other(X()), NOW)], map[2 := Sel(Following(k - 27, Other(X())))], BothRequests());
    LoadsAreLight();
    hide At, X, LoadA, LoadB, BothRequests, Following;
  }

  /** The backend x could serve the third selection whenever it looks. */
  lemma CouldStay(k: nat)
    requires 27 <= k < 30 && InProgress(CONFIG, StateAt(k), 2)
    ensures S.Stays(CONFIG, StateAt(k), 2, X())
  {
    SecondChoiceIsOther();
    ThirdLooks(k);
    ShownIs(StateAt(k), LoadA(), LoadB(), 0);
    ShownIs(StateAt(k), LoadA(), LoadB(), 1);
    hide StateAt, ActionAt, Loaded, X, LoadA, LoadB, Score, FailingNow, RampingNow, Overloaded, InProgress, Shows;
  }

  /** While the second selection chooses and pins, nothing is asked of the run but that the pin stays. */
  lemma GrantedBefore(m: nat)
    requires 14 < m < 27 && |States()| == |Actions()| + 1 == 32
    ensures S.GrantedAt(CONFIG, States(), Actions(), GROUP, KEY, X(), 14, m)
  {
    hide States, Actions, StateAt, InProgress, S.LastWrite, S.OtherKeys, S.DeletesPin, X, Shows, Overloaded, FailingNow;
    ElementsAre(m);
    NowIs(m);
    if 17 <= m < 25 {
      SecondSorts(m);
    }
  }

  lemma GrantedAfter(m: nat)
    requires 27 <= m < 30 && |States()| == |Actions()| + 1 == 32
    ensures S.GrantedAt(CONFIG, States(), Actions(), GROUP, KEY, X(), 14, m)
  {
    hide States, Actions, StateAt, ActionAt, InProgress, S.LastWrite, S.OtherKeys, S.DeletesPin, S.Stays, X, Shows, LoadA, LoadB;
    ElementsAre(m);
    ElementsAre(25);
    NowIs(m);
    NowIs(25);
    LookUpIsTimely();
    ThirdLooks(m);
    if InProgress(CONFIG, StateAt(m), 2) {
      CouldStay(m);
    }
  }

  /** The session is granted everything that stability asks of the run. */
  lemma EverythingIsGranted(m: nat)
    requires 14 < m < 30 && |States()| == |Actions()| + 1 == 32
    ensures S.GrantedAt(CONFIG, States(), Actions(), GROUP, KEY, X(), 14, m)
  {
    hide *;
    if m < 27 {
      GrantedBefore(m);
    } else {
      GrantedAfter(m);
    }
  }

  lemma PinsFirst()
    ensures |States()| == |Actions()| + 1 == 32
    ensures var ss, acts := States(), Actions();
            && acts[14] == SelectPin(0) && S.Of(ss[14], 0, GROUP, KEY) && S.PinnedBy(ss, 14, GROUP, KEY, X())
            && S.Of(ss[15], 1, GROUP, KEY) && ss[15].selections[1].progress == Sorting([], false)
  {
    hide Loaded, States, Actions, X, Late, Half, Choice;
    ElementsAre(14);
  }

  lemma ReturnsLast()
    ensures |States()| == |Actions()| + 1 == 32
    ensures var ss, acts := States(), Actions();
            && acts[30] == SelectTouch(2) && S.Of(ss[30], 2, GROUP, KEY)
            && Returns(ss[30], acts[30], ss[31], 2, Other(X()))
  {
    hide Loaded, States, Actions, X, LoadA, LoadB, Half, Choice;
    ElementsAre(30);
  }

  lemma SecondIsNotToward()
    ensures |States()| == 32 && !S.Toward(States()[15], GROUP, KEY, X())
  {
    PinsFirst();
    assert !S.TowardBy(States()[15], 1, X());
    hide States, X;
  }

  /**
   A run from start-up, without failures, invalidations, other keys or the passing of time. Step 14
   pins the key to x, which can serve it throughout; nothing that GrantedAt asks for is missing.
   Yet the selection that finishes at step 30 returns the other backend, because at step 14 another
   selection of the key had missed the pin and was choosing afresh.
   */
  lemma OverlappingFirstSelections()
    ensures var ss, acts, x := States(), Actions(), X();
            && IsRun(CONFIG, ss, acts) && Initial(CONFIG, ss[0]) && x in POOL
            && |acts| == 31 && acts[14] == SelectPin(0) && S.Of(ss[14], 0, GROUP, KEY) && S.PinnedBy(ss, 14, GROUP, KEY, x)
            && S.Granted(CONFIG, ss, acts, GROUP, KEY, x, 14, 30)
            && acts[30] == SelectTouch(2) && S.Of(ss[30], 2, GROUP, KEY)
            && Returns(ss[30], acts[30], ss[31], 2, Other(x)) && Other(x) != x
            && !S.Toward(ss[15], GROUP, KEY, x)
  {
    hide Goes, StateAt, ActionAt, States, Actions, IsRun, Initial, S.GrantedAt, S.Toward, S.Of, S.PinnedBy, Returns, X;
    ElementsAre(0);
    RunGoes();
    FirstIsInitial();
    forall m | 14 < m < 30
      ensures S.GrantedAt(CONFIG, States(), Actions(), GROUP, KEY, X(), 14, m)
    {
      EverythingIsGranted(m);
    }
    PinsFirst();
    ReturnsLast();
    SecondIsNotToward();
    SecondChoiceIsOther();
  }

  lemma FirstIsInitial()
    ensures |States()| == 32 && Initial(CONFIG, States()[0])
  {
    ElementsAre(0);
    TwoBackends.StartIsInitial();
    hide States, Initial, At;
  }
}
