/**
 The affinity table as a value: pins in recency order, most recent first, at most one per key.
 Each store operation is a function on such sequences; the class in AffinityStore is proved
 against these functions.
 */
module AffinityModel {
  import opened Common

  type Key = Bytes

  datatype Pin = Pin(key: Key, backend: string, lastSeen: Time)

  ghost predicate DistinctKeys(s: seq<Pin>) {
    forall i, j :: 0 <= i < j < |s| ==> s[i].key != s[j].key
  }

  ghost function KeysOf(s: seq<Pin>): set<Key> {
    set p | p in s :: p.key
  }

  /** The position of a key's pin, or |s| when the key has none. */
  function IndexOf(s: seq<Pin>, key: Key): (i: nat)
    ensures i <= |s|
    ensures i < |s| ==> s[i].key == key
    ensures forall j :: 0 <= j < i ==> s[j].key != key
  {
    if s == [] then 0 else if s[0].key == key then 0 else 1 + IndexOf(s[1..], key)
  }

  predicate Stored(s: seq<Pin>, key: Key) {
    IndexOf(s, key) < |s|
  }

  function Without(s: seq<Pin>, key: Key): seq<Pin> {
    var i := IndexOf(s, key);
    if i < |s| then s[..i] + s[i + 1..] else s
  }

  function Get(s: seq<Pin>, key: Key, now: Time, ttl: Time): Option<Pin> {
    var i := IndexOf(s, key);
    if i == |s| then None
    else if now - s[i].lastSeen > ttl then None
    else Some(s[i])
  }

  /** The capacity that the eviction loop enforces; a negative limit evicts like zero. */
  function Capacity(maxSize: int): nat {
    Max(0, maxSize)
  }

  function Evict(s: seq<Pin>, maxSize: int): seq<Pin> {
    s[..Min(|s|, Capacity(maxSize))]
  }

  /** Updating a stored key never evicts; inserting one trims the tail to capacity. */
  function Set(s: seq<Pin>, key: Key, backend: string, now: Time, maxSize: int): seq<Pin> {
    var head := [Pin(key, backend, now)];
    if Stored(s, key) then head + Without(s, key) else Evict(head + s, maxSize)
  }

  function Touch(s: seq<Pin>, key: Key, now: Time): seq<Pin> {
    var i := IndexOf(s, key);
    if i < |s| then [s[i].(lastSeen := now)] + Without(s, key) else s
  }

  /** The pins whose keys are not in `gone`, order kept. */
  function Drop(s: seq<Pin>, gone: set<Key>): seq<Pin> {
    if s == [] then []
    else if s[0].key in gone then Drop(s[1..], gone)
    else [s[0]] + Drop(s[1..], gone)
  }

  ghost function Expired(s: seq<Pin>, now: Time, ttl: Time): set<Key> {
    set p | p in s && now - p.lastSeen > ttl :: p.key
  }

  ghost function Orphans(s: seq<Pin>, kept: set<string>): set<Key> {
    set p | p in s && p.backend !in kept :: p.key
  }

  // ---- Facts about positions -------------------------------------------------------------

  lemma StoredIffInKeys(s: seq<Pin>, key: Key)
    ensures Stored(s, key) <==> key in KeysOf(s)
  {
    if Stored(s, key) {
      assert s[IndexOf(s, key)] in s;
    }
  }

  lemma IndexOfIs(s: seq<Pin>, key: Key, i: nat)
    requires DistinctKeys(s) && i < |s| && s[i].key == key
    ensures IndexOf(s, key) == i
  {
  }

  lemma WithoutMembers(s: seq<Pin>, key: Key, p: Pin)
    requires DistinctKeys(s)
    ensures p in Without(s, key) <==> p in s && p.key != key
  {
    var i, t := IndexOf(s, key), Without(s, key);
    if i < |s| {
      if p in s && p.key != key {
        var j :| 0 <= j < |s| && s[j] == p;
        assert t[if j < i then j else j - 1] == p;
      }
      if p in t {
        var j :| 0 <= j < |t| && t[j] == p;
        assert s[if j < i then j else j + 1] == p;
      }
    }
  }

  lemma WithoutDistinct(s: seq<Pin>, key: Key)
    requires DistinctKeys(s)
    ensures DistinctKeys(Without(s, key))
  {
  }

  lemma WithoutKeys(s: seq<Pin>, key: Key)
    requires DistinctKeys(s)
    ensures DistinctKeys(Without(s, key))
    ensures KeysOf(Without(s, key)) == KeysOf(s) - {key}
    ensures forall p :: p in Without(s, key) <==> p in s && p.key != key
  {
    WithoutDistinct(s, key);
    forall p ensures p in Without(s, key) <==> p in s && p.key != key {
      WithoutMembers(s, key, p);
    }
    hide Without, DistinctKeys;
    assert forall k :: k in KeysOf(Without(s, key)) <==> k in KeysOf(s) && k != key;
  }

  /** Drop, stated without recursion: exactly the pins with surviving keys, in the same order. */
  lemma {:induction false} DropMembers(s: seq<Pin>, gone: set<Key>)
    requires DistinctKeys(s)
    ensures forall p :: p in Drop(s, gone) <==> p in s && p.key !in gone
    ensures DistinctKeys(Drop(s, gone))
    ensures |Drop(s, gone)| <= |s|
  {
    if s != [] {
      DropMembers(s[1..], gone);
      assert s == [s[0]] + s[1..];
      var rest := Drop(s[1..], gone);
      assert forall p :: p in rest ==> p.key != s[0].key;
    }
  }

  lemma {:induction false} DropConcat(a: seq<Pin>, b: seq<Pin>, gone: set<Key>)
    ensures Drop(a + b, gone) == Drop(a, gone) + Drop(b, gone)
  {
    if a == [] {
      assert a + b == b;
    } else {
      DropConcat(a[1..], b, gone);
      assert (a + b)[1..] == a[1..] + b;
      assert Drop(a + b, gone)
          == if a[0].key in gone then Drop(a[1..] + b, gone) else [a[0]] + Drop(a[1..] + b, gone);
    }
  }

  lemma {:induction false} DropNothing(s: seq<Pin>, gone: set<Key>)
    requires forall p :: p in s ==> p.key !in gone
    ensures Drop(s, gone) == s
  {
    if s != [] {
      assert s == [s[0]] + s[1..];
      DropNothing(s[1..], gone);
    }
  }

  lemma {:induction false} DropTwice(s: seq<Pin>, a: set<Key>, b: set<Key>)
    ensures Drop(Drop(s, a), b) == Drop(s, a + b)
  {
    if s != [] {
      DropTwice(s[1..], a, b);
      if s[0].key !in a {
        assert ([s[0]] + Drop(s[1..], a))[1..] == Drop(s[1..], a);
      }
    }
  }

  /** Removing one key in place is dropping the singleton: so a sweep may delete in any order. */
  lemma WithoutIsDrop(s: seq<Pin>, key: Key)
    requires DistinctKeys(s)
    ensures Without(s, key) == Drop(s, {key})
  {
    var i := IndexOf(s, key);
    if i < |s| {
      assert s == s[..i] + s[i..];
      DropConcat(s[..i], s[i..], {key});
      assert Drop(s[i..], {key}) == Drop(s[i + 1..], {key}) by {
        assert s[i..][1..] == s[i + 1..];
      }
      DropNothing(s[..i], {key});
      DropNothing(s[i + 1..], {key});
    } else {
      DropNothing(s, {key});
    }
  }
}
