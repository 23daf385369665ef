/**
 How a selection builds its pool: a scan of the group for healthy members; if it finds none, a second
 scan for unhealthy ones; if that finds none either, one member by force. Each member is read at an
 instant of its own while the rest of the system runs on, so a pool need not be the pool of any one
 state.
 */
module PoolScan {
  import opened Common
  import opened BackendModel
  import opened SelectorModel
  import opened BalancerSystem

  /** What a scan read of one member. */
  datatype Glance = Glance(id: string, healthy: bool)

  /** The members read as healthy, or as unhealthy, in the order of the scan. */
  function Kept(scan: seq<Glance>, healthy: bool): seq<string> {
    if scan == [] then []
    else
      var front := Kept(scan[..|scan| - 1], healthy);
      if scan[|scan| - 1].healthy == healthy then front + [scan[|scan| - 1].id] else front
  }

  /** Whether both scans come out empty, so that a member is included by force. */
  predicate ForceIncludes(first: seq<Glance>, second: seq<Glance>) {
    Kept(first, true) == [] && Kept(second, false) == []
  }

  /** The pool. The second scan asks for no retry delay, so every unhealthy member qualifies. */
  function Scanned(first: seq<Glance>, second: seq<Glance>, order: seq<string>): seq<string> {
    if Kept(first, true) != [] then Kept(first, true)
    else if Kept(second, false) != [] then Kept(second, false)
    else if order == [] then [] else [order[0]]
  }

  // ---- What a scan keeps -----------------------------------------------------------------

  lemma {:induction false} KeptIff(scan: seq<Glance>, healthy: bool, id: string)
    ensures id in Kept(scan, healthy) <==> Glance(id, healthy) in scan
  {
    if scan != [] {
      KeptIff(scan[..|scan| - 1], healthy, id);
      assert scan == scan[..|scan| - 1] + [scan[|scan| - 1]];
    }
  }

  ghost predicate DistinctIds(scan: seq<Glance>) {
    forall i, j :: 0 <= i < j < |scan| ==> scan[i].id != scan[j].id
  }

  ghost predicate Distinct(ids: seq<string>) {
    forall i, j :: 0 <= i < j < |ids| ==> ids[i] != ids[j]
  }

  lemma {:induction false} KeptDistinct(scan: seq<Glance>, healthy: bool)
    requires DistinctIds(scan)
    ensures Distinct(Kept(scan, healthy))
  {
    if scan != [] {
      var n := |scan| - 1;
      KeptDistinct(scan[..n], healthy);
      KeptIff(scan[..n], healthy, scan[n].id);
    }
  }

  /** The exact condition for force-inclusion: everything read as unhealthy first and as healthy then. */
  lemma ForceIncludesIff(first: seq<Glance>, second: seq<Glance>)
    ensures ForceIncludes(first, second)
       <==> (forall i :: 0 <= i < |first| ==> !first[i].healthy) && (forall j :: 0 <= j < |second| ==> second[j].healthy)
  {
    EmptyIff(first, true);
    EmptyIff(second, false);
    hide Kept;
  }

  lemma EmptyIff(scan: seq<Glance>, healthy: bool)
    ensures Kept(scan, healthy) == [] <==> forall i :: 0 <= i < |scan| ==> scan[i].healthy != healthy
  {
    if Kept(scan, healthy) != [] {
      KeptIff(scan, healthy, Kept(scan, healthy)[0]);
    }
    if i :| 0 <= i < |scan| && scan[i].healthy == healthy {
      KeptIff(scan, healthy, scan[i].id);
    }
    hide Kept;
  }

  // ---- Scans during a run ----------------------------------------------------------------

  /** The scan reads every member of the group once, glance i in state number at[i]. */
  ghost predicate ReadIn(c: Config, ss: seq<Sys>, g: string, scan: seq<Glance>, at: seq<nat>) {
    && |at| == |scan| && DistinctIds(scan) && |ss| > 0
    && (forall id :: id in Members(c, ss[0], g) <==> exists i :: 0 <= i < |scan| && scan[i].id == id)
    && (forall i :: 0 <= i < |scan| ==>
          at[i] < |ss| && scan[i].id in ss[at[i]].backends && (scan[i].healthy <==> ss[at[i]].backends[scan[i].id].healthy))
  }

  /** No glance of the second scan comes before one of the first. */
  ghost predicate After(at: seq<nat>, at2: seq<nat>) {
    forall i, j :: 0 <= i < |at| && 0 <= j < |at2| ==> at[i] <= at2[j]
  }

  lemma MembersThroughout(c: Config, ss: seq<Sys>, acts: seq<Action>, g: string, n: nat)
    requires IsRun(c, ss, acts) && Named(ss[0]) && n < |ss|
    ensures Members(c, ss[n], g) == Members(c, ss[0], g)
  {
    NamedThroughout(c, ss, acts, 0, n);
  }

  lemma KeptAreMembers(c: Config, ss: seq<Sys>, g: string, scan: seq<Glance>, at: seq<nat>, healthy: bool)
    requires ReadIn(c, ss, g, scan, at)
    ensures forall id :: id in Kept(scan, healthy) ==> id in Members(c, ss[0], g)
    ensures Distinct(Kept(scan, healthy))
  {
    KeptDistinct(scan, healthy);
    forall id | id in Kept(scan, healthy)
      ensures id in Members(c, ss[0], g)
    {
      KeptIff(scan, healthy, id);
    }
    hide Members, Kept;
  }

  /**
   Whatever happens while the scans run, a group that has members gets a non-empty pool of distinct
   members, from which a selection can start at any later point of the run.
   */
  lemma ScanGivesMembers(c: Config, ss: seq<Sys>, acts: seq<Action>, g: string, first: seq<Glance>, at: seq<nat>,
                         second: seq<Glance>, at2: seq<nat>, order: seq<string>, n: nat)
    requires IsRun(c, ss, acts) && Named(ss[0]) && n < |ss|
    requires ReadIn(c, ss, g, first, at) && ReadIn(c, ss, g, second, at2)
    requires forall id :: id in order <==> id in Members(c, ss[0], g)
    ensures Scanned(first, second, order) == [] <==> Members(c, ss[0], g) == {}
    ensures Members(c, ss[0], g) != {} ==> SomeMembers(c, ss[n], g, Scanned(first, second, order))
  {
    MembersThroughout(c, ss, acts, g, n);
    KeptAreMembers(c, ss, g, first, at, true);
    KeptAreMembers(c, ss, g, second, at2, false);
    hide Kept, IsRun, ReadIn;
    var pool := Scanned(first, second, order);
    assert forall id :: id in pool ==> id in Members(c, ss[n], g);
    if pool == [] {
      assert Members(c, ss[0], g) == {};
    } else {
      assert pool[0] in Members(c, ss[0], g);
      MembersKnown(c, ss[n], g, pool);
    }
  }

  lemma MembersKnown(c: Config, s: Sys, g: string, pool: seq<string>)
    requires forall id :: id in pool ==> id in Members(c, s, g)
    ensures Known(s, pool)
  {
    assert forall i :: 0 <= i < |pool| ==> pool[i] in pool;
  }

  // ---- What force-inclusion means --------------------------------------------------------

  /** The step makes an unhealthy backend healthy. */
  ghost predicate Heals(s: Sys, a: Action, id: string) {
    && id in s.backends && !s.backends[id].healthy
    && ((a.ProbeOk? && a.j in s.loops && s.loops[a.j].id == id)
        || (a.PassiveRecover? && a.j in s.loops && s.loops[a.j].id == id)
        || (a.RecordOutcome? && a.r in s.requests && s.requests[a.r] == Request(id, Released(true))))
  }

  lemma OnlyThreeStepsHeal(c: Config, s: Sys, a: Action, id: string)
    requires Enabled(c, s, a) && id in s.backends && id in Next(c, s, a).backends
    requires !s.backends[id].healthy && Next(c, s, a).backends[id].healthy
    ensures Heals(s, a, id)
  {
    NextIs(c, s, a);
    HealingBackends(c, s, a, id);
    hide Next, Enabled, BackendsAfter;
  }

  lemma HealingBackends(c: Config, s: Sys, a: Action, id: string)
    requires Enabled(c, s, a) && id in s.backends && id in BackendsAfter(c, s, a)
    requires !s.backends[id].healthy && BackendsAfter(c, s, a)[id].healthy
    ensures Heals(s, a, id)
  {
    hide SomeMembers, InProgress, Members;
  }

  lemma {:induction false} HealedBetween(c: Config, ss: seq<Sys>, acts: seq<Action>, id: string, i: nat, j: nat) returns (d: nat)
    requires IsRun(c, ss, acts) && Named(ss[0]) && i <= j < |ss| && id in ss[i].backends && id in ss[j].backends
    requires !ss[i].backends[id].healthy && ss[j].backends[id].healthy
    ensures i <= d < j && Heals(ss[d], acts[d], id)
    decreases j
  {
    RunStep(c, ss, acts, j - 1);
    NamedThroughout(c, ss, acts, 0, j - 1);
    NamesKept(c, ss[j - 1], acts[j - 1]);
    hide IsRun, Enabled, Next, Heals, Named;
    if ss[j - 1].backends[id].healthy {
      d := HealedBetween(c, ss, acts, id, i, j - 1);
    } else {
      OnlyThreeStepsHeal(c, ss[j - 1], acts[j - 1], id);
      d := j - 1;
    }
  }

  /** Glance i of the first scan and glance j of the second read the same member. */
  ghost predicate SameMember(first: seq<Glance>, second: seq<Glance>, i: nat, j: nat) {
    i < |first| && j < |second| && first[i].id == second[j].id
  }

  /** Force-inclusion happens only when each single member of the group recovers between its two glances. */
  lemma ForceIncludeMeansRecovery(c: Config, ss: seq<Sys>, acts: seq<Action>, g: string, first: seq<Glance>, at: seq<nat>,
                                  second: seq<Glance>, at2: seq<nat>, id: string) returns (i: nat, j: nat, d: nat)
    requires IsRun(c, ss, acts) && Named(ss[0]) && ReadIn(c, ss, g, first, at) && ReadIn(c, ss, g, second, at2) && After(at, at2)
    requires ForceIncludes(first, second) && id in Members(c, ss[0], g)
    ensures SameMember(first, second, i, j) && first[i].id == id
    ensures |at| == |first| && |at2| == |second| && at[i] <= d < at2[j] < |ss|
    ensures |ss| == |acts| + 1 && Heals(ss[d], acts[d], id)
  {
    ForceIncludesIff(first, second);
    i :| 0 <= i < |first| && first[i].id == id;
    j :| 0 <= j < |second| && second[j].id == id;
    hide ForceIncludes, Heals, Members, Named;
    d := HealedBetween(c, ss, acts, id, at[i], at2[j]);
  }

  // ---- A run in which it happens ---------------------------------------------------------

  const MINUTE: Time := 60 * SECOND
  const CONFIG := Config(map["a" := "g"], map["g" := GroupCfg(1, Policy(10, 10, 0, 0.0, 0))])

  /** One backend, watched by one probe loop. */
  function St(b: Backend, failures: int, first: bool, stage: Stage): Sys {
    Sys(MINUTE, map["a" := b], map[], map[], map[], map[], map[0 := Probe("a", 0, 0, first, failures, stage)])
  }

  /** The backend at start-up, once a failed probe has demoted it, and once a good one has brought it back. */
  function Fresh(): Backend {
    NewBackend("a", 1, 60)
  }

  function Suspect(): Backend {
    Fresh().(failures := 1, healthy := false, unhealthySince := MINUTE, lastHealthCheck := MINUTE)
  }

  function Recovered(): Backend {
    Suspect().(failures := 0, healthy := true)
  }

  /** Its first probe fails and demotes it, the second brings it back. */
  function States(): seq<Sys> {
    [St(Fresh(), 0, true, Waiting), St(Fresh(), 0, false, Probing), St(Fresh(), 1, false, CheckingLoad),
     St(Fresh(), 1, false, CheckingSuccess), St(Fresh(), 1, false, Committing), St(Suspect(), 1, false, Waiting),
     St(Suspect(), 1, false, Probing), St(Recovered(), 0, false, Waiting)]
  }

  function Actions(): seq<Action> {
    [ProbeStart(0), ProbeFail(0), ProbeCheckLoad(0), ProbeCheckSuccess(0), ProbeCommit(0), ProbeStart(0), ProbeOk(0)]
  }

  lemma Suspects()
    ensures Enabled(CONFIG, St(Fresh(), 0, true, Waiting), ProbeStart(0))
    ensures Next(CONFIG, St(Fresh(), 0, true, Waiting), ProbeStart(0)) == St(Fresh(), 0, false, Probing)
    ensures Enabled(CONFIG, St(Fresh(), 0, false, Probing), ProbeFail(0))
    ensures Next(CONFIG, St(Fresh(), 0, false, Probing), ProbeFail(0)) == St(Fresh(), 1, false, CheckingLoad)
    ensures Enabled(CONFIG, St(Fresh(), 1, false, CheckingLoad), ProbeCheckLoad(0))
    ensures Next(CONFIG, St(Fresh(), 1, false, CheckingLoad), ProbeCheckLoad(0)) == St(Fresh(), 1, false, CheckingSuccess)
  {
  }

  lemma Demotes()
    ensures Enabled(CONFIG, St(Fresh(), 1, false, CheckingSuccess), ProbeCheckSuccess(0))
    ensures Next(CONFIG, St(Fresh(), 1, false, CheckingSuccess), ProbeCheckSuccess(0)) == St(Fresh(), 1, false, Committing)
    ensures Enabled(CONFIG, St(Fresh(), 1, false, Committing), ProbeCommit(0))
    ensures Next(CONFIG, St(Fresh(), 1, false, Committing), ProbeCommit(0)) == St(Suspect(), 1, false, Waiting)
  {
  }

  lemma Recovers()
    ensures Enabled(CONFIG, St(Suspect(), 1, false, Waiting), ProbeStart(0))
    ensures Next(CONFIG, St(Suspect(), 1, false, Waiting), ProbeStart(0)) == St(Suspect(), 1, false, Probing)
    ensures Enabled(CONFIG, St(Suspect(), 1, false, Probing), ProbeOk(0))
    ensures Next(CONFIG, St(Suspect(), 1, false, Probing), ProbeOk(0)) == St(Recovered(), 0, false, Waiting)
  {
  }

  lemma RunGoes()
    ensures IsRun(CONFIG, States(), Actions())
  {
    Suspects();
    Demotes();
    Recovers();
    hide Next, Enabled, St, Fresh, Suspect, Recovered;
    forall i | 0 <= i < 7
      ensures StepAt(CONFIG, States(), Actions(), i)
    {
    }
  }

  /**
   Force-inclusion happens: a run from start-up of a group with one backend, which a first probe
   demotes and a second one brings back. A scan that reads it before the second probe's success, and
   a second scan after it, both come out empty.
   */
  lemma ForceIncludeHappens() returns (first: seq<Glance>, at: seq<nat>, second: seq<Glance>, at2: seq<nat>)
    ensures IsRun(CONFIG, States(), Actions()) && Initial(CONFIG, States()[0])
    ensures ReadIn(CONFIG, States(), "g", first, at) && ReadIn(CONFIG, States(), "g", second, at2) && After(at, at2)
    ensures ForceIncludes(first, second) && Scanned(first, second, ["a"]) == ["a"]
  {
    first, at, second, at2 := [Glance("a", false)], [6], [Glance("a", true)], [7];
    RunGoes();
    ReadsThere(first, 6);
    ReadsThere(second, 7);
    StartIsInitial();
    ForceIncludesIff(first, second);
    hide IsRun, Kept, ReadIn, Initial, States;
  }

  lemma StartIsInitial()
    ensures Initial(CONFIG, States()[0])
  {
    assert Fresh() == NewBackend("a", 1, 60);
  }

  lemma ReadsThere(scan: seq<Glance>, n: nat)
    requires 6 <= n <= 7 && scan == [Glance("a", n == 7)]
    ensures ReadIn(CONFIG, States(), "g", scan, [n])
  {
    assert Members(CONFIG, States()[0], "g") == {"a"};
    assert scan[0].id == "a";
  }
}
