/**
 The capture window: arming stores the full count, and reservations load it and try to swap it for
 one less, any number of them at once.
 */
module Capture {
  import opened Common

  const MAX_ALLOWED: nat := 10000

  // ---- The protocol ----------------------------------------------------------------------

  /**
   `loaded` holds the value that each reservation read and has not yet tried to swap; `granted`
   the sequence numbers handed out since the latest Arm.
   */
  datatype State = State(remaining: int, armed: bool, loaded: map<nat, int>, granted: seq<int>)

  datatype Action = Arm | Load(t: nat) | Swap(t: nat)

  const START := State(0, false, map[], [])

  predicate Enabled(s: State, a: Action) {
    match a
    case Arm => true
    case Load(t) => t !in s.loaded
    case Swap(t) => t in s.loaded
  }

  /** The slot number that a successful swap of n hands out. */
  function Sequence(max: nat, n: int): int {
    max - n + 1
  }

  function Next(s: State, a: Action, max: nat): State
    requires Enabled(s, a)
  {
    match a
    case Arm => s.(remaining := max, armed := true, granted := [])
    case Load(t) => if s.remaining <= 0 then s else s.(loaded := s.loaded[t := s.remaining])
    case Swap(t) =>
      var n, rest := s.loaded[t], s.loaded - {t};
      if s.remaining == n
      then s.(remaining := n - 1, loaded := rest, granted := s.granted + [Sequence(max, n)])
      else s.(loaded := rest)
  }

  function Run(acts: seq<Action>, max: nat): Option<State>
    decreases |acts|
  {
    if acts == [] then Some(START)
    else
      var front := Run(acts[..|acts| - 1], max);
      if front.Some? && Enabled(front.value, acts[|acts| - 1])
      then Some(Next(front.value, acts[|acts| - 1], max)) else None
  }

  ghost predicate Sound(s: State, max: nat) {
    && 0 <= s.remaining <= max
    && (forall t :: t in s.loaded ==> 0 < s.loaded[t] <= max)
    && (forall k :: 0 <= k < |s.granted| ==> s.granted[k] == k + 1)
    && (if s.armed then |s.granted| == max - s.remaining else s.remaining == 0 && s.granted == [])
  }

  /**
   Whatever the interleaving, stale loads from before a re-arm included: the count stays within
   the window, the k-th reservation since the latest Arm gets number k, and there are never more
   than `max` of them.
   */
  lemma {:induction false} WindowIsExact(acts: seq<Action>, max: nat)
    requires Run(acts, max).Some?
    ensures var s := Run(acts, max).value;
            && Sound(s, max)
            && |s.granted| <= max
            && (forall k :: 0 <= k < |s.granted| ==> s.granted[k] == k + 1)
    decreases |acts|
  {
    if acts != [] {
      WindowIsExact(acts[..|acts| - 1], max);
    }
  }

  /** The window closes exactly when the last slot is handed out: from then on loads find nothing. */
  lemma WindowCloses(acts: seq<Action>, max: nat, t: nat)
    requires Run(acts, max).Some? && Run(acts, max).value.armed && t !in Run(acts, max).value.loaded
    ensures var s := Run(acts, max).value;
            |s.granted| == max <==> t !in Next(s, Load(t), max).loaded
  {
    WindowIsExact(acts, max);
  }

  /** A swap fails only because another reservation or a re-arm moved the count. */
  lemma FailedSwapMeansMoved(acts: seq<Action>, max: nat, t: nat)
    requires Run(acts, max).Some? && t in Run(acts, max).value.loaded
    ensures var s := Run(acts, max).value;
            var u := Next(s, Swap(t), max);
            if s.remaining == s.loaded[t]
            then u.granted == s.granted + [|s.granted| + 1] && u.remaining == s.remaining - 1
            else u.granted == s.granted && u.remaining == s.remaining
  {
    WindowIsExact(acts, max);
  }

  // ---- The code --------------------------------------------------------------------------

  /** A reserved slot: its number and the size of the window. */
  datatype Slot = Slot(seqNo: int, total: int)

  class Capture {
    const maxMessages: nat
    var remaining: int

    constructor (maxMessages: nat)
      requires maxMessages <= MAX_ALLOWED
      ensures this.maxMessages == maxMessages && remaining == 0
    {
      this.maxMessages, remaining := maxMessages, 0;
    }

    ghost predicate Valid()
      reads this
    {
      maxMessages <= MAX_ALLOWED && 0 <= remaining <= maxMessages
    }

    method Arm() returns (n: nat)
      modifies this
      ensures n == remaining == maxMessages
    {
      remaining := maxMessages;
      n := maxMessages;
    }

    method CompareAndSwap(expected: int, updated: int) returns (ok: bool)
      modifies this
      ensures ok == (old(remaining) == expected)
      ensures remaining == if ok then updated else old(remaining)
    {
      ok := remaining == expected;
      if ok {
        remaining := updated;
      }
    }

    /** One turn of the retry loop after it loaded a positive n; a failed swap sends it round again. */
    method Attempt(n: int) returns (slot: Option<Slot>)
      requires n > 0
      modifies this
      ensures slot == if old(remaining) == n then Some(Slot(Sequence(maxMessages, n), maxMessages)) else None
      ensures remaining == if slot.Some? then n - 1 else old(remaining)
    {
      var swapped := CompareAndSwap(n, n - 1);
      if swapped {
        return Some(Slot(maxMessages - n + 1, maxMessages));
      }
      return None;
    }

    /**
     The retry loop. `others[i]` is what concurrent arms and reservations make of the count between
     the load and the swap of turn i; after those turns nobody interferes. Every turn but the last
     failed because the count had moved; the last one either loaded an empty window, or took the
     slot that the count stands for: without interference, slots come out numbered 1, 2, … until
     none is left.
     */
    method Reserve(others: seq<int>) returns (slot: Option<Slot>, turns: nat)
      requires Valid() && forall i :: 0 <= i < |others| ==> 0 <= others[i] <= maxMessages
      modifies this
      ensures Valid() && 1 <= turns <= |others| + 1
      ensures forall i :: 0 <= i < turns - 1 ==> others[i] != Loaded(old(remaining), others, i)
      ensures slot == None <==> Loaded(old(remaining), others, turns - 1) == 0
      ensures slot.Some? && turns <= |others| ==> others[turns - 1] == Loaded(old(remaining), others, turns - 1)
      ensures slot.Some? ==>
                && slot.value == Slot(Sequence(maxMessages, Loaded(old(remaining), others, turns - 1)), maxMessages)
                && remaining == Loaded(old(remaining), others, turns - 1) - 1
      ensures slot == None ==> remaining == 0
    {
      turns := 0;
      while true
        invariant turns <= |others| && Valid() && remaining == Loaded(old(remaining), others, turns)
        invariant forall i :: 0 <= i < turns ==> others[i] != Loaded(old(remaining), others, i)
        decreases |others| - turns
      {
        var n := remaining;
        turns := turns + 1;
        if n <= 0 {
          return None, turns;
        }
        if turns <= |others| {
          remaining := others[turns - 1];
        }
        slot := Attempt(n);
        if slot.Some? {
          return slot, turns;
        }
      }
    }
  }

  /** What turn i loads: the count at first, then whatever the others left. */
  function Loaded(first: int, others: seq<int>, i: nat): int
    requires i <= |others|
  {
    if i == 0 then first else others[i - 1]
  }
}
