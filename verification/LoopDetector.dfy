/**
 The loop detector: repeated identical requests within a time window are detected, and sometimes
 escalated. The composite hash of affinity key and last user message is an abstract key here.
 */
module LoopDetector {
  import opened Common

  type Key = string

  datatype Cfg = Cfg(
    enabled: bool, threshold: int, windowSeconds: int, action: string,
    escalateAfter: int, escalateAction: string)

  datatype Entry = Entry(count: int, firstSeen: Time, escaped: bool)

  datatype Verdict = Verdict(detected: bool, escalated: bool, action: string)

  const PASS := Verdict(false, false, "")

  function Expired(e: Entry, windowSeconds: int, now: Time): bool {
    now - e.firstSeen > windowSeconds * SECOND
  }

  /** Removes the entries whose window is over. */
  function Cleanup(state: map<Key, Entry>, windowSeconds: int, now: Time): map<Key, Entry> {
    map k | k in state && !Expired(state[k], windowSeconds, now) :: state[k]
  }

  /** The sizes at which a check cleans up first. */
  predicate CleanupDue(size: nat) {
    size % 1000 == 0 && size > 100
  }

  function OrDefault(s: string, default: string): string {
    if s == "" then default else s
  }

  function Escalation(cfg: Cfg): Verdict {
    Verdict(true, true, OrDefault(cfg.escalateAction, "refuse_429"))
  }

  function Detection(cfg: Cfg): Verdict {
    Verdict(true, false, OrDefault(cfg.action, "inject_forcing_message"))
  }

  /** A further request in a running window. */
  function Again(e: Entry, cfg: Cfg): (Entry, Verdict) {
    var f := e.(count := e.count + 1);
    if f.count < cfg.threshold then (f, PASS)
    else if f.escaped then (f, Escalation(cfg))
    else if f.count >= cfg.threshold + cfg.escalateAfter then (f.(escaped := true), Escalation(cfg))
    else (f.(count := cfg.threshold), Detection(cfg))
  }

  function Judge(state: map<Key, Entry>, key: Key, cfg: Cfg, now: Time): (map<Key, Entry>, Verdict) {
    if key !in state || Expired(state[key], cfg.windowSeconds, now)
    then (state[key := Entry(1, now, false)], PASS)
    else
      var (e, v) := Again(state[key], cfg);
      (state[key := e], v)
  }

  /** One check; `tidy` says whether the periodic cleanup is in force. */
  function Check(state: map<Key, Entry>, key: Key, cfg: Cfg, now: Time, tidy: bool): (map<Key, Entry>, Verdict) {
    if !cfg.enabled then (state, PASS)
    else Judge(if tidy && CleanupDue(|state|) then Cleanup(state, cfg.windowSeconds, now) else state, key, cfg, now)
  }

  // ---- The reference: windows and counts -------------------------------------------------

  /** One check of a run: which key, and when. */
  datatype Event = Event(key: Key, now: Time)

  /** A key's current window: when it opened and how many requests it has seen. */
  datatype Window = Window(start: Time, n: nat)

  function WindowOf(events: seq<Event>, key: Key, windowSeconds: int): Option<Window>
    decreases |events|
  {
    if events == [] then None
    else
      var front, last := WindowOf(events[..|events| - 1], key, windowSeconds), events[|events| - 1];
      if last.key != key then front
      else if front.None? || last.now - front.value.start > windowSeconds * SECOND then Some(Window(last.now, 1))
      else Some(front.value.(n := front.value.n + 1))
  }

  /** The first request of a window that is detected: never the one that opens it. */
  function FirstDetected(cfg: Cfg): int {
    Max(2, cfg.threshold)
  }

  predicate Detects(cfg: Cfg, n: nat) {
    n >= FirstDetected(cfg)
  }

  /**
   When the n-th request of a window is escalated. Because every plain detection resets the count
   to the threshold, an escalation must come with the first detection or right after it.
   */
  predicate Escalates(cfg: Cfg, n: nat) {
    && Detects(cfg, n)
    && (FirstDetected(cfg) >= cfg.threshold + cfg.escalateAfter || (cfg.escalateAfter == 1 && n >= cfg.threshold + 1))
  }

  function VerdictFor(cfg: Cfg, n: nat): Verdict {
    if Escalates(cfg, n) then Escalation(cfg) else if Detects(cfg, n) then Detection(cfg) else PASS
  }

  /** The counter that the n-th request of a window leaves behind. */
  function CountFor(cfg: Cfg, n: nat): int {
    var first := FirstDetected(cfg);
    if n < first || first >= cfg.threshold + cfg.escalateAfter then n
    else if cfg.escalateAfter == 1 then cfg.threshold + (n - first)
    else cfg.threshold
  }

  // ---- The run theorem -------------------------------------------------------------------

  function StateAfter(events: seq<Event>, cfg: Cfg, tidy: bool): map<Key, Entry>
    decreases |events|
  {
    if events == [] then map[]
    else
      var last := events[|events| - 1];
      Check(StateAfter(events[..|events| - 1], cfg, tidy), last.key, cfg, last.now, tidy).0
  }

  /** The answer to the last check of a run. */
  function LastVerdict(events: seq<Event>, cfg: Cfg, tidy: bool): Verdict
    requires events != []
  {
    var last := events[|events| - 1];
    Check(StateAfter(events[..|events| - 1], cfg, tidy), last.key, cfg, last.now, tidy).1
  }

  ghost predicate InOrder(events: seq<Event>) {
    forall i, j :: 0 <= i <= j < |events| ==> events[i].now <= events[j].now
  }

  /** A stored entry mirrors its key's window; a missing one means there is none, or it is over. */
  ghost predicate Mirrors(state: map<Key, Entry>, events: seq<Event>, key: Key, cfg: Cfg, now: Time) {
    match WindowOf(events, key, cfg.windowSeconds)
    case None => key !in state
    case Some(w) =>
      && w.n >= 1
      && if key in state then state[key] == Entry(CountFor(cfg, w.n), w.start, Escalates(cfg, w.n))
         else now - w.start > cfg.windowSeconds * SECOND
  }

  lemma AgainMirrors(cfg: Cfg, n: nat, start: Time)
    requires n >= 1
    ensures Again(Entry(CountFor(cfg, n), start, Escalates(cfg, n)), cfg)
         == (Entry(CountFor(cfg, n + 1), start, Escalates(cfg, n + 1)), VerdictFor(cfg, n + 1))
  {
  }

  lemma FirstMirrors(cfg: Cfg)
    ensures CountFor(cfg, 1) == 1 && !Escalates(cfg, 1) && VerdictFor(cfg, 1) == PASS
  {
  }

  lemma CheckMirrors(state: map<Key, Entry>, events: seq<Event>, cfg: Cfg, e: Event, tidy: bool, key: Key)
    requires cfg.enabled && forall k :: Mirrors(state, events, k, cfg, e.now)
    ensures Mirrors(Check(state, e.key, cfg, e.now, tidy).0, events + [e], key, cfg, e.now)
    ensures key == e.key ==>
              && WindowOf(events + [e], key, cfg.windowSeconds).Some?
              && Check(state, key, cfg, e.now, tidy).1
                 == VerdictFor(cfg, WindowOf(events + [e], key, cfg.windowSeconds).value.n)
  {
    assert (events + [e])[..|events|] == events;
    assert Mirrors(state, events, key, cfg, e.now);
    var tidied := if tidy && CleanupDue(|state|) then Cleanup(state, cfg.windowSeconds, e.now) else state;
    assert Mirrors(tidied, events, key, cfg, e.now);
    if key == e.key {
      FirstMirrors(cfg);
      if key in tidied && !Expired(tidied[key], cfg.windowSeconds, e.now) {
        var w := WindowOf(events, key, cfg.windowSeconds).value;
        AgainMirrors(cfg, w.n, w.start);
      }
    }
  }

  lemma LaterMirrors(state: map<Key, Entry>, events: seq<Event>, key: Key, cfg: Cfg, now: Time, later: Time)
    requires Mirrors(state, events, key, cfg, now) && now <= later
    ensures Mirrors(state, events, key, cfg, later)
  {
  }

  lemma {:induction false} RunMirrors(events: seq<Event>, cfg: Cfg, tidy: bool, now: Time)
    requires cfg.enabled && InOrder(events) && (events != [] ==> events[|events| - 1].now <= now)
    ensures forall k :: Mirrors(StateAfter(events, cfg, tidy), events, k, cfg, now)
    decreases |events|
  {
    if events != [] {
      var front, last := events[..|events| - 1], events[|events| - 1];
      hide Check, WindowOf, Mirrors;
      assert events == front + [last];
      RunMirrors(front, cfg, tidy, last.now);
      forall k
        ensures Mirrors(StateAfter(events, cfg, tidy), events, k, cfg, now)
      {
        CheckMirrors(StateAfter(front, cfg, tidy), front, cfg, last, tidy, k);
        LaterMirrors(StateAfter(events, cfg, tidy), events, k, cfg, last.now, now);
      }
    }
  }

  /**
   For every run of checks under one configuration, other keys interleaved: the answer to the n-th
   identical request of a window depends on n alone. It is detected from request max(2, threshold)
   on, and escalated exactly as Escalates says; the periodic cleanup makes no difference.
   */
  lemma AnswerDependsOnCountAlone(events: seq<Event>, cfg: Cfg, tidy: bool)
    requires cfg.enabled && InOrder(events) && events != []
    ensures var w := WindowOf(events, events[|events| - 1].key, cfg.windowSeconds);
            && w.Some?
            && LastVerdict(events, cfg, tidy) == VerdictFor(cfg, w.value.n)
  {
    var front, last := events[..|events| - 1], events[|events| - 1];
    assert events == front + [last];
    RunMirrors(front, cfg, tidy, last.now);
    CheckMirrors(StateAfter(front, cfg, tidy), front, cfg, last, tidy, last.key);
  }

  /** With one window length in use, cleaning up never changes an answer. */
  lemma CleanupIsInvisible(events: seq<Event>, cfg: Cfg)
    requires InOrder(events) && events != []
    ensures LastVerdict(events, cfg, true) == LastVerdict(events, cfg, false)
  {
    if cfg.enabled {
      AnswerDependsOnCountAlone(events, cfg, true);
      AnswerDependsOnCountAlone(events, cfg, false);
    }
  }

  /** With a threshold of two or more, in plain terms; escalation lasts for the rest of the window. */
  lemma EscalationRule(cfg: Cfg, n: nat)
    requires cfg.threshold >= 2
    ensures Detects(cfg, n) <==> n >= cfg.threshold
    ensures Escalates(cfg, n) <==>
              n >= cfg.threshold && (cfg.escalateAfter <= 0 || (cfg.escalateAfter == 1 && n >= cfg.threshold + 1))
    ensures Escalates(cfg, n) ==> Escalates(cfg, n + 1)
  {
  }

  /**
   LOAD-BALANCING.md (lines 524-525) promises escalation after M further requests. With an
   escalateAfter of two or more, the default included, it never comes, however long the window.
   */
  lemma TwoOrMoreNeverEscalates(events: seq<Event>, cfg: Cfg)
    requires InOrder(events) && events != [] && cfg.threshold >= 2 && cfg.escalateAfter >= 2
    ensures !LastVerdict(events, cfg, true).escalated
  {
    if cfg.enabled {
      AnswerDependsOnCountAlone(events, cfg, true);
    }
  }

  // ---- Cleanup with several window lengths -----------------------------------------------

  /** The answers to a check of `key` under `long` at `later`, after a check of another key under `short`. */
  function AnswerAfter(state: map<Key, Entry>, other: Key, short: Cfg, now: Time, tidy: bool,
                       key: Key, long: Cfg, later: Time): Verdict {
    Check(Check(state, other, short, now, tidy).0, key, long, later, false).1
  }

  /**
   When one check's cleanup shows in a later check of another key under another window: exactly
   when it drops an entry that is over for the short window but not for the long one, and whose
   next request would have been detected.
   */
  lemma CleanupShows(state: map<Key, Entry>, other: Key, short: Cfg, now: Time, key: Key, long: Cfg, later: Time)
    requires short.enabled && long.enabled && CleanupDue(|state|) && other != key
    ensures AnswerAfter(state, other, short, now, true, key, long, later) != AnswerAfter(state, other, short, now, false, key, long, later)
       <==> && key in state
            && Expired(state[key], short.windowSeconds, now) && !Expired(state[key], long.windowSeconds, later)
            && state[key].count + 1 >= long.threshold
  {
  }

  /** A check with its own configuration. */
  datatype Mixed = Mixed(key: Key, cfg: Cfg, now: Time)

  function MixedState(events: seq<Mixed>, tidy: bool): map<Key, Entry>
    decreases |events|
  {
    if events == [] then map[]
    else
      var last := events[|events| - 1];
      Check(MixedState(events[..|events| - 1], tidy), last.key, last.cfg, last.now, tidy).0
  }

  function MixedVerdict(events: seq<Mixed>, tidy: bool): Verdict
    requires events != []
  {
    var last := events[|events| - 1];
    Check(MixedState(events[..|events| - 1], tidy), last.key, last.cfg, last.now, tidy).1
  }

  /** Time does not go back, and each key is always checked with the window that `window` gives it. */
  ghost predicate MixedInOrder(events: seq<Mixed>, window: Key -> int) {
    && (forall i, j :: 0 <= i <= j < |events| ==> events[i].now <= events[j].now)
    && (forall i :: 0 <= i < |events| ==> events[i].cfg.windowSeconds == window(events[i].key))
  }

  /** Every entry that a cleaning check of the run drops is over for its own key's window, too. */
  ghost predicate CleansOnlyTheDead(events: seq<Mixed>, window: Key -> int) {
    forall i :: 0 <= i < |events| ==> CleansOnlyTheDeadAt(events, window, i)
  }

  ghost predicate CleansOnlyTheDeadAt(events: seq<Mixed>, window: Key -> int, i: nat)
    requires i < |events|
  {
    var state, e := MixedState(events[..i], true), events[i];
    e.cfg.enabled && CleanupDue(|state|) ==>
      forall k :: k in state && Expired(state[k], e.cfg.windowSeconds, e.now) ==> Expired(state[k], window(k), e.now)
  }

  /** The tidy table lacks only entries that are over for their own key. */
  ghost predicate Lacks(tidy: map<Key, Entry>, full: map<Key, Entry>, window: Key -> int, now: Time) {
    && (forall k :: k in tidy ==> k in full && full[k] == tidy[k])
    && (forall k :: k in full && k !in tidy ==> Expired(full[k], window(k), now))
  }

  lemma LacksNext(tidy: map<Key, Entry>, full: map<Key, Entry>, window: Key -> int, e: Mixed)
    requires Lacks(tidy, full, window, e.now) && e.cfg.windowSeconds == window(e.key)
    requires e.cfg.enabled && CleanupDue(|tidy|) ==>
               forall k :: k in tidy && Expired(tidy[k], e.cfg.windowSeconds, e.now) ==> Expired(tidy[k], window(k), e.now)
    ensures Lacks(Check(tidy, e.key, e.cfg, e.now, true).0, Check(full, e.key, e.cfg, e.now, false).0, window, e.now)
    ensures Check(tidy, e.key, e.cfg, e.now, true).1 == Check(full, e.key, e.cfg, e.now, false).1
  {
  }

  lemma {:induction false} MixedLacks(events: seq<Mixed>, window: Key -> int, now: Time)
    requires MixedInOrder(events, window) && CleansOnlyTheDead(events, window)
    requires events != [] ==> events[|events| - 1].now <= now
    ensures Lacks(MixedState(events, true), MixedState(events, false), window, now)
    decreases |events|
  {
    if events != [] {
      var front, last := events[..|events| - 1], events[|events| - 1];
      FrontIsTidy(events, window);
      MixedLacks(front, window, last.now);
      assert CleansOnlyTheDeadAt(events, window, |front|);
      LacksNext(MixedState(front, true), MixedState(front, false), window, last);
      LacksLater(MixedState(events, true), MixedState(events, false), window, last.now, now);
    }
  }

  lemma LacksLater(tidy: map<Key, Entry>, full: map<Key, Entry>, window: Key -> int, now: Time, later: Time)
    requires Lacks(tidy, full, window, now) && now <= later
    ensures Lacks(tidy, full, window, later)
  {
  }

  lemma FrontIsTidy(events: seq<Mixed>, window: Key -> int)
    requires events != [] && MixedInOrder(events, window) && CleansOnlyTheDead(events, window)
    ensures MixedInOrder(events[..|events| - 1], window) && CleansOnlyTheDead(events[..|events| - 1], window)
  {
    var front := events[..|events| - 1];
    forall i | 0 <= i < |front|
      ensures CleansOnlyTheDeadAt(front, window, i)
    {
      assert CleansOnlyTheDeadAt(events, window, i) && front[..i] == events[..i];
    }
  }

  /**
   Over runs that mix window lengths, cleanup changes no answer as long as it drops only entries
   that are over for their own key; in particular when no cleaning check has a shorter window than
   the entries it meets (see LongWindowsCleanSafely).
   */
  lemma MixedCleanupIsInvisible(events: seq<Mixed>, window: Key -> int)
    requires events != [] && MixedInOrder(events, window) && CleansOnlyTheDead(events, window)
    ensures MixedVerdict(events, true) == MixedVerdict(events, false)
  {
    var front, last := events[..|events| - 1], events[|events| - 1];
    FrontIsTidy(events, window);
    MixedLacks(front, window, last.now);
    assert CleansOnlyTheDeadAt(events, window, |front|);
    LacksNext(MixedState(front, true), MixedState(front, false), window, last);
  }

  /** No cleaning check has a shorter window than an entry that it meets. */
  ghost predicate CleansWithLongWindows(events: seq<Mixed>, window: Key -> int) {
    forall i :: 0 <= i < |events| ==>
      (events[i].cfg.enabled && CleanupDue(|MixedState(events[..i], true)|) ==>
         forall k :: k in MixedState(events[..i], true) ==> window(k) <= events[i].cfg.windowSeconds)
  }

  lemma LongWindowsCleanSafely(events: seq<Mixed>, window: Key -> int)
    requires CleansWithLongWindows(events, window)
    ensures CleansOnlyTheDead(events, window)
  {
    forall i | 0 <= i < |events|
      ensures CleansOnlyTheDeadAt(events, window, i)
    {
      var state, e := MixedState(events[..i], true), events[i];
      if e.cfg.enabled && CleanupDue(|state|) {
        forall k | k in state && Expired(state[k], e.cfg.windowSeconds, e.now)
          ensures Expired(state[k], window(k), e.now)
        {
          assert window(k) <= e.cfg.windowSeconds;
        }
      }
    }
  }

  // ---- The code --------------------------------------------------------------------------

  class LoopDetector {
    var state: map<Key, Entry>

    constructor ()
      ensures state == map[]
    {
      state := map[];
    }

    method CleanupStale(windowSeconds: int, now: Time)
      modifies this
      ensures state == Cleanup(old(state), windowSeconds, now)
    {
      var cutoff := now - windowSeconds * SECOND;
      var todo := state.Keys;
      while todo != {}
        invariant state.Keys <= old(state).Keys && todo <= old(state).Keys
        invariant forall k :: k in old(state) ==>
                    (k in state <==> k in todo || !Expired(old(state)[k], windowSeconds, now))
        invariant forall k :: k in state ==> state[k] == old(state)[k]
        decreases todo
      {
        var k :| k in todo;
        todo := todo - {k};
        if state[k].firstSeen < cutoff {
          state := state - {k};
        }
      }
    }

    method CheckLoop(key: Key, cfg: Cfg, now: Time) returns (v: Verdict)
      modifies this
      ensures (state, v) == Check(old(state), key, cfg, now, true)
    {
      if !cfg.enabled {
        return PASS;
      }
      if |state| % 1000 == 0 && |state| > 100 {
        CleanupStale(cfg.windowSeconds, now);
      }
      if key !in state || now - state[key].firstSeen > cfg.windowSeconds * SECOND {
        state := state[key := Entry(1, now, false)];
        return PASS;
      }
      ghost var tidied := state;
      var entry := state[key];
      entry := entry.(count := entry.count + 1);
      state := state[key := entry];
      if entry.count < cfg.threshold {
        return PASS;
      }
      if entry.escaped {
        return Escalation(cfg);
      }
      if entry.count >= cfg.threshold + cfg.escalateAfter {
        entry := entry.(escaped := true);
        state := state[key := entry];
        assert state == tidied[key := entry];
        return Escalation(cfg);
      }
      entry := entry.(count := cfg.threshold);
      state := state[key := entry];
      assert state == tidied[key := entry];
      return Detection(cfg);
    }
  }
}
