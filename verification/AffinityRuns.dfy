/**
 Runs of the affinity table: what every operation keeps, and the LRU stack-distance theorems.
 A key is lost to capacity only when at least maxSize distinct other keys were used after it.
 */
module AffinityRuns {
  import opened Common
  import opened AffinityModel

  datatype Op =
    | DoGet(key: Key)
    | DoSet(key: Key, backend: string)
    | DoTouch(key: Key)
    | DoDelete(key: Key)
    | DoEvictExpired
    | DoMigrate(kept: set<string>)

  /** One operation and the clock reading it took. */
  datatype Call = Call(op: Op, now: Time)

  ghost function Apply(s: seq<Pin>, c: Call, ttl: Time, maxSize: int): seq<Pin> {
    match c.op
    case DoGet(_) => s
    case DoSet(key, backend) => Set(s, key, backend, c.now, maxSize)
    case DoTouch(key) => Touch(s, key, c.now)
    case DoDelete(key) => Without(s, key)
    case DoEvictExpired => Drop(s, Expired(s, c.now, ttl))
    case DoMigrate(kept) => Drop(s, Orphans(s, kept))
  }

  ghost function Run(s: seq<Pin>, calls: seq<Call>, ttl: Time, maxSize: int): seq<Pin>
    decreases |calls|
  {
    if calls == [] then s else Run(Apply(s, calls[0], ttl, maxSize), calls[1..], ttl, maxSize)
  }

  ghost predicate WellFormed(s: seq<Pin>, maxSize: int) {
    DistinctKeys(s) && |s| <= Capacity(maxSize)
  }

  /** The key that a call moves to the front, if any: touching an absent key moves nothing. */
  ghost function UsedBy(s: seq<Pin>, c: Call): set<Key> {
    match c.op
    case DoSet(key, _) => {key}
    case DoTouch(key) => if Stored(s, key) then {key} else {}
    case _ => {}
  }

  ghost function Used(s: seq<Pin>, calls: seq<Call>, ttl: Time, maxSize: int): set<Key>
    decreases |calls|
  {
    if calls == [] then {}
    else UsedBy(s, calls[0]) + Used(Apply(s, calls[0], ttl, maxSize), calls[1..], ttl, maxSize)
  }

  /** The call neither uses `pin`'s key nor removes it explicitly, as expired, or as orphaned. */
  ghost predicate Spares(c: Call, pin: Pin, ttl: Time) {
    match c.op
    case DoGet(_) => true
    case DoSet(key, _) => key != pin.key
    case DoTouch(key) => key != pin.key
    case DoDelete(key) => key != pin.key
    case DoEvictExpired => c.now - pin.lastSeen <= ttl
    case DoMigrate(kept) => pin.backend in kept
  }

  /** Reads, inserts and touches only: nothing leaves the table except by capacity. */
  ghost predicate OnlyUses(c: Call) {
    c.op.DoGet? || c.op.DoSet? || c.op.DoTouch?
  }

  ghost function KeysAhead(s: seq<Pin>, key: Key): set<Key> {
    KeysOf(s[..IndexOf(s, key)])
  }

  // ---- What every operation keeps --------------------------------------------------------

  lemma EvictKeeps(s: seq<Pin>, maxSize: int)
    requires DistinctKeys(s)
    ensures WellFormed(Evict(s, maxSize), maxSize)
  {
  }

  lemma SetKeeps(s: seq<Pin>, key: Key, backend: string, now: Time, maxSize: int)
    requires WellFormed(s, maxSize)
    ensures WellFormed(Set(s, key, backend, now, maxSize), maxSize)
  {
    var t := [Pin(key, backend, now)] + Without(s, key);
    WithoutKeys(s, key);
    if Stored(s, key) {
      assert |t| == |s|;
    } else {
      EvictKeeps(t, maxSize);
    }
  }

  /** Distinct keys and bounded size survive every operation. */
  lemma ApplyKeeps(s: seq<Pin>, c: Call, ttl: Time, maxSize: int)
    requires WellFormed(s, maxSize)
    ensures WellFormed(Apply(s, c, ttl, maxSize), maxSize)
  {
    match c.op
    case DoGet(_) =>
    case DoSet(key, backend) => SetKeeps(s, key, backend, c.now, maxSize);
    case DoTouch(key) => WithoutKeys(s, key);
    case DoDelete(key) => WithoutKeys(s, key);
    case DoEvictExpired => DropMembers(s, Expired(s, c.now, ttl));
    case DoMigrate(kept) => DropMembers(s, Orphans(s, kept));
  }

  lemma {:induction false} RunKeeps(s: seq<Pin>, calls: seq<Call>, ttl: Time, maxSize: int)
    requires WellFormed(s, maxSize)
    ensures WellFormed(Run(s, calls, ttl, maxSize), maxSize)
    decreases |calls|
  {
    if calls != [] {
      ApplyKeeps(s, calls[0], ttl, maxSize);
      RunKeeps(Apply(s, calls[0], ttl, maxSize), calls[1..], ttl, maxSize);
    }
  }

  /** After a Set with room for at least one pin, the pin is in front and the others follow in their old order. */
  lemma SetFronts(s: seq<Pin>, key: Key, backend: string, now: Time, maxSize: int)
    requires maxSize >= 1 && DistinctKeys(s)
    ensures var t := Set(s, key, backend, now, maxSize);
            && |t| > 0 && t[0] == Pin(key, backend, now) && IndexOf(t, key) == 0
            && t[1..] <= Without(s, key) && (Stored(s, key) ==> t[1..] == Without(s, key))
            && (!Stored(s, key) ==> |t| == Min(|s| + 1, maxSize))
  {
    if !Stored(s, key) {
      assert Set(s, key, backend, now, maxSize)[1..] <= s;
    }
  }

  /** An insertion into a full table removes exactly the least recently used pin. */
  lemma SetEvictsTail(s: seq<Pin>, key: Key, backend: string, now: Time, maxSize: int)
    requires WellFormed(s, maxSize) && !Stored(s, key) && |s| == maxSize
    ensures maxSize > 0 ==>
              Set(s, key, backend, now, maxSize) == [Pin(key, backend, now)] + s[..maxSize - 1]
    ensures maxSize <= 0 ==> Set(s, key, backend, now, maxSize) == []
  {
    assert ([Pin(key, backend, now)] + s)[..maxSize] == if maxSize > 0
      then [Pin(key, backend, now)] + s[..maxSize - 1] else [];
  }

  // ---- Stack distance --------------------------------------------------------------------

  lemma AheadCount(s: seq<Pin>, key: Key)
    requires DistinctKeys(s)
    ensures |KeysAhead(s, key)| == IndexOf(s, key)
  {
    PrefixCount(s, IndexOf(s, key));
  }

  lemma {:induction false} PrefixCount(s: seq<Pin>, n: nat)
    requires DistinctKeys(s) && n <= |s|
    ensures |KeysOf(s[..n])| == n
  {
    if n > 0 {
      PrefixCount(s, n - 1);
      assert s[..n] == s[..n - 1] + [s[n - 1]];
      KeysOfConcat(s[..n - 1], [s[n - 1]]);
      PrefixLacks(s, n - 1);
      hide KeysOf, DistinctKeys;
      assert KeysOf(s[..n]) == KeysOf(s[..n - 1]) + {s[n - 1].key};
    }
  }

  lemma PrefixLacks(s: seq<Pin>, i: nat)
    requires DistinctKeys(s) && i < |s|
    ensures s[i].key !in KeysOf(s[..i])
    ensures KeysOf([s[i]]) == {s[i].key}
  {
  }

  lemma PlusNothing<T>(a: set<T>)
    ensures a + {} == a
  {
  }

  /** The pins ahead of `pin` after one call come from those ahead before and the key just used. */
  lemma StepAhead(s: seq<Pin>, c: Call, pin: Pin, ttl: Time, maxSize: int)
    requires WellFormed(s, maxSize) && pin in s && Spares(c, pin, ttl)
    requires |KeysAhead(s, pin.key) + UsedBy(s, c)| < maxSize
    ensures pin in Apply(s, c, ttl, maxSize)
    ensures KeysAhead(Apply(s, c, ttl, maxSize), pin.key) <= KeysAhead(s, pin.key) + UsedBy(s, c)
    ensures OnlyUses(c) ==>
              KeysAhead(Apply(s, c, ttl, maxSize), pin.key) == KeysAhead(s, pin.key) + UsedBy(s, c)
  {
    var i :| 0 <= i < |s| && s[i] == pin;
    var t, ahead := Apply(s, c, ttl, maxSize), KeysAhead(s, pin.key);
    PlusNothing(ahead);
    hide KeysOf, KeysAhead, Set, Touch, Drop, Without, Evict, Expired, Orphans, Stored;
    match c.op
    case DoGet(_) => assert t == s && UsedBy(s, c) == {};
    case DoSet(key, backend) =>
      SetAhead(s, key, backend, c.now, i, maxSize);
      assert KeysAhead(t, pin.key) == ahead + UsedBy(s, c);
    case DoTouch(key) =>
      TouchAhead(s, key, c.now, i);
      assert KeysAhead(t, pin.key) == ahead + UsedBy(s, c);
    case DoDelete(key) => WithoutIsDrop(s, key); DropAhead(s, {key}, i);
    case DoEvictExpired => DropAhead(s, Expired(s, c.now, ttl), i);
    case DoMigrate(kept) => DropAhead(s, Orphans(s, kept), i);
  }

  lemma SetAhead(s: seq<Pin>, key: Key, backend: string, now: Time, i: nat, maxSize: int)
    requires DistinctKeys(s) && i < |s| && s[i].key != key
    requires |KeysAhead(s, s[i].key) + {key}| < maxSize
    ensures var t := Set(s, key, backend, now, maxSize);
            s[i] in t && KeysAhead(t, s[i].key) == KeysAhead(s, s[i].key) + {key}
  {
    AheadOfIndex(s, i);
    if Stored(s, key) {
      MoveAhead(s, key, Pin(key, backend, now), i);
    } else {
      AheadRoom(s, key, i, maxSize);
      InsertSplit(s, Pin(key, backend, now), i, maxSize);
    }
  }

  lemma TouchAhead(s: seq<Pin>, key: Key, now: Time, i: nat)
    requires DistinctKeys(s) && i < |s| && s[i].key != key
    ensures var t := Touch(s, key, now);
            && s[i] in t
            && KeysAhead(t, s[i].key) == KeysAhead(s, s[i].key) + if Stored(s, key) then {key} else {}
  {
    if Stored(s, key) {
      MoveAhead(s, key, s[IndexOf(s, key)].(lastSeen := now), i);
    }
  }

  lemma AheadOfSplit(front: seq<Pin>, p: Pin, back: seq<Pin>)
    requires p.key !in KeysOf(front)
    ensures p in front + [p] + back
    ensures KeysAhead(front + [p] + back, p.key) == KeysOf(front)
  {
    var t := front + [p] + back;
    assert t[|front|] == p;
    forall j | 0 <= j < |front|
      ensures t[j].key != p.key
    {
      assert t[j] == front[j] && front[j] in front;
    }
    assert IndexOf(t, p.key) == |front|;
    assert t[..|front|] == front;
  }

  /** With distinct keys, the pins ahead of position i are the keys of the prefix, and s[i]'s is not one. */
  lemma AheadOfIndex(s: seq<Pin>, i: nat)
    requires DistinctKeys(s) && i < |s|
    ensures KeysAhead(s, s[i].key) == KeysOf(s[..i]) && s[i].key !in KeysOf(s[..i])
  {
    IndexOfIs(s, s[i].key, i);
  }

  lemma MoveAhead(s: seq<Pin>, key: Key, p: Pin, i: nat)
    requires DistinctKeys(s) && i < |s| && s[i].key != key && p.key == key && Stored(s, key)
    ensures var t := [p] + Without(s, key);
            s[i] in t && KeysAhead(t, s[i].key) == KeysAhead(s, s[i].key) + {key}
  {
    AheadOfIndex(s, i);
    MoveSplit(s, IndexOf(s, key), p, i);
  }

  lemma MoveSplit(s: seq<Pin>, m: nat, p: Pin, i: nat)
    requires i < |s| && m < |s| && s[m].key == p.key != s[i].key && s[i].key !in KeysOf(s[..i])
    ensures var t := [p] + (s[..m] + s[m + 1..]);
            s[i] in t && KeysAhead(t, s[i].key) == KeysOf(s[..i]) + {p.key}
  {
    var rest, back := s[..i], s[i + 1..];
    if m < i {
      CutOut(s, m, i);
      rest := s[..m] + s[m + 1..i];
    } else {
      back := s[i + 1..m] + s[m + 1..];
    }
    KeysOfConcat([p], rest);
    assert KeysOf([p]) == {p.key};
    assert [p] + (s[..m] + s[m + 1..]) == [p] + rest + [s[i]] + back;
    AheadOfSplit([p] + rest, s[i], back);
  }

  lemma CutOut(s: seq<Pin>, m: nat, i: nat)
    requires m < i <= |s|
    ensures KeysOf(s[..i]) == KeysOf(s[..m] + s[m + 1..i]) + {s[m].key}
  {
    assert s[..i] == s[..m] + ([s[m]] + s[m + 1..i]);
    KeysOfConcat(s[..m], [s[m]] + s[m + 1..i]);
    KeysOfConcat([s[m]], s[m + 1..i]);
    KeysOfConcat(s[..m], s[m + 1..i]);
  }

  lemma AheadRoom(s: seq<Pin>, key: Key, i: nat, maxSize: int)
    requires DistinctKeys(s) && i < |s| && !Stored(s, key)
    requires |KeysAhead(s, s[i].key) + {key}| < maxSize
    ensures i + 1 < maxSize && key != s[i].key
  {
    IndexOfIs(s, s[i].key, i);
    AheadCount(s, s[i].key);
    assert key !in KeysAhead(s, s[i].key);
  }

  lemma InsertSplit(s: seq<Pin>, p: Pin, i: nat, maxSize: int)
    requires i < |s| && i + 1 < maxSize && p.key != s[i].key && s[i].key !in KeysOf(s[..i])
    ensures var t := Evict([p] + s, maxSize);
            s[i] in t && KeysAhead(t, s[i].key) == KeysOf(s[..i]) + {p.key}
  {
    var n := Min(|s| + 1, maxSize);
    KeysOfConcat([p], s[..i]);
    assert KeysOf([p]) == {p.key};
    assert ([p] + s)[..n] == [p] + s[..i] + [s[i]] + s[i + 1..n - 1];
    AheadOfSplit([p] + s[..i], s[i], s[i + 1..n - 1]);
  }

  lemma DropAhead(s: seq<Pin>, gone: set<Key>, i: nat)
    requires DistinctKeys(s) && i < |s| && s[i].key !in gone
    ensures s[i] in Drop(s, gone)
    ensures KeysAhead(Drop(s, gone), s[i].key) <= KeysAhead(s, s[i].key)
  {
    var front, back := s[..i], s[i + 1..];
    assert s == front + s[i..] && s[i..][1..] == back;
    DropConcat(front, s[i..], gone);
    DropMembers(s, gone);
    DropMembers(front, gone);
    var t, j := Drop(s, gone), |Drop(front, gone)|;
    assert t == Drop(front, gone) + ([s[i]] + Drop(back, gone));
    assert t[j] == s[i] && t[..j] == Drop(front, gone);
    IndexOfIs(t, s[i].key, j);
    IndexOfIs(s, s[i].key, i);
  }

  lemma KeysOfConcat(a: seq<Pin>, b: seq<Pin>)
    ensures KeysOf(a + b) == KeysOf(a) + KeysOf(b)
  {
    forall k | k in KeysOf(a) + KeysOf(b)
      ensures k in KeysOf(a + b)
    {
      if k in KeysOf(a) {
        var p :| p in a && p.key == k;
        assert p in a + b;
      } else {
        var p :| p in b && p.key == k;
        assert p in a + b;
      }
    }
  }

  /**
   Stack distance: a pin survives every run that spares it and in which, together with the keys
   already ahead of it, fewer than maxSize distinct other keys are used.
   */
  lemma {:induction false} StackDistance(s: seq<Pin>, calls: seq<Call>, pin: Pin, ttl: Time, maxSize: int)
    requires WellFormed(s, maxSize) && pin in s
    requires forall c :: c in calls ==> Spares(c, pin, ttl)
    requires |KeysAhead(s, pin.key) + Used(s, calls, ttl, maxSize)| < maxSize
    ensures pin in Run(s, calls, ttl, maxSize)
    ensures KeysAhead(Run(s, calls, ttl, maxSize), pin.key)
         <= KeysAhead(s, pin.key) + Used(s, calls, ttl, maxSize)
    decreases |calls|
  {
    if calls != [] {
      var s1 := Apply(s, calls[0], ttl, maxSize);
      var all := KeysAhead(s, pin.key) + Used(s, calls, ttl, maxSize);
      SubsetSize(KeysAhead(s, pin.key) + UsedBy(s, calls[0]), all);
      StepAhead(s, calls[0], pin, ttl, maxSize);
      ApplyKeeps(s, calls[0], ttl, maxSize);
      SubsetSize(KeysAhead(s1, pin.key) + Used(s1, calls[1..], ttl, maxSize), all);
      StackDistance(s1, calls[1..], pin, ttl, maxSize);
    }
  }

  /** A key just used survives unless at least maxSize distinct other keys are used after it. */
  lemma RecentSurvives(s: seq<Pin>, calls: seq<Call>, ttl: Time, maxSize: int)
    requires WellFormed(s, maxSize) && s != []
    requires forall c :: c in calls ==> Spares(c, s[0], ttl)
    requires |Used(s, calls, ttl, maxSize)| < maxSize
    ensures s[0] in Run(s, calls, ttl, maxSize)
  {
    assert KeysAhead(s, s[0].key) == {};
    assert KeysAhead(s, s[0].key) + Used(s, calls, ttl, maxSize) == Used(s, calls, ttl, maxSize);
    StackDistance(s, calls, s[0], ttl, maxSize);
  }

  /** Once a key is out of the table, only setting it brings it back. */
  lemma {:induction false} AbsentStays(s: seq<Pin>, calls: seq<Call>, key: Key, ttl: Time, maxSize: int)
    requires WellFormed(s, maxSize) && !Stored(s, key)
    requires forall c :: c in calls ==> c.op.DoSet? ==> c.op.key != key
    ensures !Stored(Run(s, calls, ttl, maxSize), key)
    decreases |calls|
  {
    if calls != [] {
      AbsentStep(s, calls[0], key, ttl, maxSize);
      ApplyKeeps(s, calls[0], ttl, maxSize);
      AbsentStays(Apply(s, calls[0], ttl, maxSize), calls[1..], key, ttl, maxSize);
    }
  }

  lemma AbsentStep(s: seq<Pin>, c: Call, key: Key, ttl: Time, maxSize: int)
    requires WellFormed(s, maxSize) && !Stored(s, key) && (c.op.DoSet? ==> c.op.key != key)
    ensures !Stored(Apply(s, c, ttl, maxSize), key)
  {
    var t := Apply(s, c, ttl, maxSize);
    StoredIffInKeys(s, key);
    StoredIffInKeys(t, key);
    match c.op
    case DoGet(_) =>
    case DoSet(k, _) =>
      WithoutKeys(s, k);
      assert forall p :: p in t ==> p.key == k || p in s;
    case DoTouch(k) =>
      WithoutKeys(s, k);
      assert forall p :: p in t ==> (Stored(s, k) && p.key == k) || p in s;
    case DoDelete(k) => WithoutKeys(s, k);
    case DoEvictExpired => DropMembers(s, Expired(s, c.now, ttl));
    case DoMigrate(kept) => DropMembers(s, Orphans(s, kept));
  }

  /**
   The exact law when nothing is removed except by capacity: the key at the front is still
   stored afterwards if and only if fewer than maxSize distinct other keys were used.
   */
  lemma EvictedIffDistance(s: seq<Pin>, calls: seq<Call>, ttl: Time, maxSize: int)
    requires WellFormed(s, maxSize) && s != []
    requires AllUsesSpare(calls, s[0], ttl)
    ensures Stored(Run(s, calls, ttl, maxSize), s[0].key) <==> |Used(s, calls, ttl, maxSize)| < maxSize
  {
    assert KeysAhead(s, s[0].key) == {};
    assert KeysAhead(s, s[0].key) + Used(s, calls, ttl, maxSize) == Used(s, calls, ttl, maxSize);
    ExactDistance(s, calls, s[0], ttl, maxSize);
  }

  lemma {:induction false} ExactDistance(s: seq<Pin>, calls: seq<Call>, pin: Pin, ttl: Time, maxSize: int)
    requires WellFormed(s, maxSize) && pin in s
    requires AllUsesSpare(calls, pin, ttl)
    ensures Stored(Run(s, calls, ttl, maxSize), pin.key)
       <==> |KeysAhead(s, pin.key) + Used(s, calls, ttl, maxSize)| < maxSize
    decreases |calls|
  {
    if calls == [] {
      ExactAtOnce(s, pin, maxSize);
    } else {
      AllUsesHead(calls, pin, ttl);
      ExactStep(s, calls[0], pin, ttl, maxSize);
      hide Apply, KeysAhead, UsedBy, WellFormed, Stored, AllUsesSpare, Spares, OnlyUses;
      var s1 := Apply(s, calls[0], ttl, maxSize);
      var near, later := KeysAhead(s, pin.key) + UsedBy(s, calls[0]), Used(s1, calls[1..], ttl, maxSize);
      UnionAssociates(KeysAhead(s, pin.key), UsedBy(s, calls[0]), later);
      if |near| < maxSize {
        ExactDistance(s1, calls[1..], pin, ttl, maxSize);
      } else {
        AbsentAfterUses(s1, calls[1..], pin, ttl, maxSize);
        SubsetSize(near, near + later);
      }
    }
  }

  /** Every call only reads, inserts or touches, and leaves the pin alone. */
  ghost predicate AllUsesSpare(calls: seq<Call>, pin: Pin, ttl: Time) {
    forall c :: c in calls ==> OnlyUses(c) && Spares(c, pin, ttl)
  }

  lemma AllUsesHead(calls: seq<Call>, pin: Pin, ttl: Time)
    requires calls != [] && AllUsesSpare(calls, pin, ttl)
    ensures OnlyUses(calls[0]) && Spares(calls[0], pin, ttl) && AllUsesSpare(calls[1..], pin, ttl)
  {
    hide OnlyUses, Spares;
  }

  lemma AbsentAfterUses(s: seq<Pin>, calls: seq<Call>, pin: Pin, ttl: Time, maxSize: int)
    requires WellFormed(s, maxSize) && !Stored(s, pin.key) && AllUsesSpare(calls, pin, ttl)
    ensures !Stored(Run(s, calls, ttl, maxSize), pin.key)
  {
    hide WellFormed, Stored, Run;
    AbsentStays(s, calls, pin.key, ttl, maxSize);
  }

  lemma UnionAssociates<T>(a: set<T>, b: set<T>, c: set<T>)
    ensures a + (b + c) == (a + b) + c
  {
  }

  lemma ExactAtOnce(s: seq<Pin>, pin: Pin, maxSize: int)
    requires WellFormed(s, maxSize) && pin in s
    ensures Stored(s, pin.key) && |KeysAhead(s, pin.key) + {}| < maxSize
  {
    var i :| 0 <= i < |s| && s[i] == pin;
    IndexOfIs(s, pin.key, i);
    AheadCount(s, pin.key);
    PlusNothing(KeysAhead(s, pin.key));
  }

  lemma ExactStep(s: seq<Pin>, c: Call, pin: Pin, ttl: Time, maxSize: int)
    requires WellFormed(s, maxSize) && pin in s && OnlyUses(c) && Spares(c, pin, ttl)
    ensures var t, near := Apply(s, c, ttl, maxSize), KeysAhead(s, pin.key) + UsedBy(s, c);
            && WellFormed(t, maxSize)
            && (|near| < maxSize ==> pin in t && KeysAhead(t, pin.key) == near)
            && (|near| >= maxSize ==> !Stored(t, pin.key))
  {
    ApplyKeeps(s, c, ttl, maxSize);
    if |KeysAhead(s, pin.key) + UsedBy(s, c)| < maxSize {
      StepAhead(s, c, pin, ttl, maxSize);
    } else {
      var i :| 0 <= i < |s| && s[i] == pin;
      PushedOut(s, c, i, maxSize);
    }
  }

  /** When the key just used is the maxSize-th ahead of s[i], that pin was the tail and is evicted. */
  lemma PushedOut(s: seq<Pin>, c: Call, i: nat, maxSize: int)
    requires WellFormed(s, maxSize) && i < |s| && OnlyUses(c) && Spares(c, s[i], 0)
    requires |KeysAhead(s, s[i].key) + UsedBy(s, c)| >= maxSize
    ensures !Stored(Apply(s, c, 0, maxSize), s[i].key)
  {
    IndexOfIs(s, s[i].key, i);
    AheadCount(s, s[i].key);
    var ahead := KeysAhead(s, s[i].key);
    if UsedBy(s, c) <= ahead {
      assert false;
    }
    var key := c.op.key;
    assert UsedBy(s, c) == {key};
    assert |ahead + {key}| == i + 1;
    assert i == |s| - 1 == maxSize - 1;
    if Stored(s, key) {
      var m := IndexOf(s, key);
      assert false;
    }
    var t := Apply(s, c, 0, maxSize);
    assert t == [Pin(key, c.op.backend, c.now)] + s[..i];
  }
}
