/**
 The in-memory affinity store: a map from keys to nodes and a linked list of the same nodes in
 recency order. Every operation is proved against the function of AffinityModel it refines.
 */
module AffinityStore {
  import opened Common
  import opened AffinityModel
  import opened AffinityRuns
  import opened LruList

  /** The node, the element that carries it and the pin it stands for agree. */
  ghost predicate Slot(n: Node, e: Element, p: Pin)
    reads n
  {
    n.element == e && e.value == n && n.Pin() == p
  }

  /** Element i + 1 of the ring carries node i, which stands for pin i. */
  ghost predicate Slots(order: seq<Node>, ring: seq<Element>, pins: seq<Pin>)
    reads order
  {
    && |ring| == |order| + 1 && |pins| == |order|
    && forall i {:trigger order[i]} :: 0 <= i < |order| ==> Slot(order[i], ring[i + 1], pins[i])
  }

  /**
   Each listed node is in the map under its own key, and there are as many of one as of the
   other: since listed keys are distinct, the map holds nothing else (see MapIsListed).
   */
  ghost predicate Indexes(entries: map<Key, Node>, order: seq<Node>) {
    && |entries| == |order|
    && forall i {:trigger order[i]} :: 0 <= i < |order| ==>
         order[i].key in entries && entries[order[i].key] == order[i]
  }

  ghost function CutNode(order: seq<Node>, m: nat): (c: seq<Node>)
    requires m < |order|
    ensures |c| == |order| - 1
    ensures forall k :: 0 <= k < |c| ==> c[k] == if k < m then order[k] else order[k + 1]
    ensures forall n :: n in c ==> n in order
  {
    order[..m] + order[m + 1..]
  }

  // ---- Moving, adding and removing a node, seen from each structure ----------------------

  lemma SlotsMoved(order: seq<Node>, ring: seq<Element>, pins: seq<Pin>, m: nat, p: Pin)
    requires |ring| == |order| + 1 && |pins| == |order| && m < |order|
    requires forall i {:trigger order[i]} :: 0 <= i < |order| && i != m ==> Slot(order[i], ring[i + 1], pins[i])
    requires Slot(order[m], ring[m + 1], p)
    ensures Slots([order[m]] + CutNode(order, m),
                  Front(Cut(ring, m + 1), ring[m + 1]),
                  [p] + (pins[..m] + pins[m + 1..]))
  {
    var o, r, s := [order[m]] + CutNode(order, m), Front(Cut(ring, m + 1), ring[m + 1]), [p] + (pins[..m] + pins[m + 1..]);
    forall i | 0 <= i < |o|
      ensures Slot(o[i], r[i + 1], s[i])
    {
      if i > 0 {
        var j := if i - 1 < m then i - 1 else i;
        assert o[i] == order[j] && r[i + 1] == ring[j + 1] && s[i] == pins[j];
      }
    }
  }

  lemma SlotsCut(order: seq<Node>, ring: seq<Element>, pins: seq<Pin>, m: nat)
    requires Slots(order, ring, pins) && m < |order|
    ensures Slots(CutNode(order, m), Cut(ring, m + 1), pins[..m] + pins[m + 1..])
  {
    var o, r, s := CutNode(order, m), Cut(ring, m + 1), pins[..m] + pins[m + 1..];
    forall i | 0 <= i < |o|
      ensures Slot(o[i], r[i + 1], s[i])
    {
      var j := if i < m then i else i + 1;
      assert o[i] == order[j] && r[i + 1] == ring[j + 1] && s[i] == pins[j];
    }
  }

  lemma SlotsAdded(order: seq<Node>, ring: seq<Element>, pins: seq<Pin>, n: Node, e: Element, p: Pin)
    requires Slots(order, ring, pins) && Slot(n, e, p)
    ensures Slots([n] + order, Front(ring, e), [p] + pins)
  {
    var o, r, s := [n] + order, Front(ring, e), [p] + pins;
    forall i | 0 <= i < |o|
      ensures Slot(o[i], r[i + 1], s[i])
    {
      if i > 0 {
        assert o[i] == order[i - 1] && r[i + 1] == ring[i] && s[i] == pins[i - 1];
      }
    }
  }

  lemma IndexesMoved(entries: map<Key, Node>, order: seq<Node>, m: nat)
    requires Indexes(entries, order) && m < |order|
    ensures Indexes(entries, [order[m]] + CutNode(order, m))
  {
    var o := [order[m]] + CutNode(order, m);
    forall i | 0 <= i < |o|
      ensures o[i].key in entries && entries[o[i].key] == o[i]
    {
      assert o[i] == order[if i == 0 then m else if i - 1 < m then i - 1 else i];
    }
  }

  lemma IndexesAdded(entries: map<Key, Node>, order: seq<Node>, n: Node)
    requires Indexes(entries, order) && n.key !in entries
    ensures Indexes(entries[n.key := n], [n] + order)
  {
    var o := [n] + order;
    forall i | 0 < i < |o|
      ensures o[i].key in entries && entries[o[i].key] == o[i]
    {
      assert o[i] == order[i - 1];
    }
  }

  lemma IndexesCut(entries: map<Key, Node>, order: seq<Node>, m: nat)
    requires Indexes(entries, order) && m < |order|
    requires forall i :: 0 <= i < |order| && i != m ==> order[i].key != order[m].key
    ensures Indexes(entries - {order[m].key}, CutNode(order, m))
  {
    var o, rest := CutNode(order, m), entries - {order[m].key};
    forall i | 0 <= i < |o|
      ensures o[i].key in rest && rest[o[i].key] == o[i]
    {
      assert o[i] == order[if i < m then i else i + 1];
    }
    assert order[m].key in entries;
    assert rest.Keys == entries.Keys - {order[m].key};
    assert |rest| == |rest.Keys| && |entries| == |entries.Keys|;
  }

  /** The map's keys are exactly the listed ones. */
  lemma MapIsListed(entries: map<Key, Node>, order: seq<Node>, ring: seq<Element>, pins: seq<Pin>)
    requires Indexes(entries, order) && Slots(order, ring, pins) && DistinctKeys(pins)
    ensures entries.Keys == KeysOf(pins)
  {
    forall k | k in KeysOf(pins)
      ensures k in entries.Keys
    {
      var i :| 0 <= i < |pins| && pins[i].key == k;
      assert Slot(order[i], ring[i + 1], pins[i]);
    }
    PrefixCount(pins, |pins|);
    assert pins[..|pins|] == pins;
    SubsetOfSameSize(KeysOf(pins), entries.Keys);
  }

  lemma SubsetOfSameSize(a: set<Key>, b: set<Key>)
    requires a <= b && |a| == |b|
    ensures a == b
  {
    assert b == a + (b - a);
  }

  lemma KeysApart(order: seq<Node>, ring: seq<Element>, pins: seq<Pin>, m: nat)
    requires Slots(order, ring, pins) && DistinctKeys(pins) && m < |order|
    ensures forall i :: 0 <= i < |order| && i != m ==> order[i].key != order[m].key && order[i] != order[m]
  {
    forall i | 0 <= i < |order| && i != m
      ensures order[i].key != order[m].key
    {
      assert pins[i] == order[i].Pin() && pins[m] == order[m].Pin();
    }
  }

  /** A stored key's node sits at the key's position. */
  lemma NodeAt(entries: map<Key, Node>, order: seq<Node>, ring: seq<Element>, pins: seq<Pin>, key: Key)
    requires Indexes(entries, order) && Slots(order, ring, pins) && DistinctKeys(pins)
    ensures key in entries <==> Stored(pins, key)
    ensures key in entries ==>
              var m := IndexOf(pins, key);
              order[m] == entries[key] && Slot(entries[key], ring[m + 1], pins[m])
  {
    var m := IndexOf(pins, key);
    MapIsListed(entries, order, ring, pins);
    StoredIffInKeys(pins, key);
    if m < |pins| {
      assert Slot(order[m], ring[m + 1], pins[m]);
    }
  }

  lemma PromotedWellFormed(s: seq<Pin>, p: Pin, maxSize: int)
    requires WellFormed(s, maxSize) && Stored(s, p.key)
    ensures WellFormed([p] + Without(s, p.key), maxSize)
  {
    WithoutKeys(s, p.key);
  }

  /** The heap half of a promotion: node m's entry is rewritten and its element moved to the front. */
  method Renew(lru: List, ghost order: seq<Node>, ghost pins: seq<Pin>, node: Node, ghost m: nat,
               backend: string, now: Time)
    requires lru.Valid() && Slots(order, lru.ring, pins) && DistinctKeys(pins)
    requires m < |order| && order[m] == node
    modifies lru, lru.ring, node
    ensures lru.Valid()
    ensures lru.ring == Front(Cut(old(lru.ring), m + 1), old(lru.ring)[m + 1])
    ensures Slots([node] + CutNode(order, m), lru.ring,
                  [Pin(node.key, backend, now)] + (pins[..m] + pins[m + 1..]))
  {
    ghost var r := lru.ring;
    KeysApart(order, r, pins, m);
    assert Slot(order[m], r[m + 1], pins[m]);
    node.backend := backend;
    node.lastSeen := now;
    lru.MoveToFront(node.element, m + 1);
    forall i | 0 <= i < |order| && i != m
      ensures Slot(order[i], r[i + 1], pins[i])
    {
      assert old(Slot(order[i], r[i + 1], pins[i]));
    }
    SlotsMoved(order, r, pins, m, Pin(node.key, backend, now));
  }

  /** The heap half of a removal: node m leaves the list. */
  method Unlink(lru: List, ghost order: seq<Node>, ghost pins: seq<Pin>, node: Node, ghost m: nat)
    requires lru.Valid() && Slots(order, lru.ring, pins)
    requires m < |order| && order[m] == node
    modifies lru, lru.ring
    ensures lru.Valid()
    ensures lru.ring == Cut(old(lru.ring), m + 1)
    ensures Slots(CutNode(order, m), lru.ring, pins[..m] + pins[m + 1..])
  {
    ghost var r := lru.ring;
    assert Slot(order[m], r[m + 1], pins[m]);
    lru.Remove(node.element, m + 1);
    forall i | 0 <= i < |order|
      ensures Slot(order[i], r[i + 1], pins[i])
    {
      assert old(Slot(order[i], r[i + 1], pins[i]));
    }
    SlotsCut(order, r, pins, m);
  }

  /** The heap half of an insertion: a new node enters at the front. */
  method Enlist(lru: List, ghost order: seq<Node>, ghost pins: seq<Pin>, node: Node) returns (e: Element)
    requires lru.Valid() && Slots(order, lru.ring, pins) && node !in order
    modifies lru, lru.ring, node`element
    ensures lru.Valid() && fresh(e) && lru.ring == Front(old(lru.ring), e)
    ensures Slots([node] + order, lru.ring, [node.Pin()] + pins)
  {
    ghost var r := lru.ring;
    e := lru.PushFront(node);
    node.element := e;
    forall i | 0 <= i < |order|
      ensures Slot(order[i], r[i + 1], pins[i])
    {
      assert old(Slot(order[i], r[i + 1], pins[i]));
      assert order[i] in order;
    }
    SlotsAdded(order, r, pins, node, e, node.Pin());
  }

  lemma InsertedDistinct(s: seq<Pin>, p: Pin)
    requires DistinctKeys(s) && !Stored(s, p.key)
    ensures DistinctKeys([p] + s)
  {
  }

  class Store {
    var entries: map<Key, Node>
    const lru: List
    const ttl: Time
    const maxSize: int
    ghost var order: seq<Node>
    ghost var pins: seq<Pin>  // most recently used first
    ghost var Repr: set<object>

    ghost predicate Shape()
      reads this, Repr
      ensures Shape() ==> this in Repr
    {
      && this in Repr && lru in Repr
      && (forall e :: e in lru.ring ==> e in Repr)
      && (forall n :: n in order ==> n in Repr)
      && lru.Valid()
      && Slots(order, lru.ring, pins)
      && Indexes(entries, order)
    }

    ghost predicate Valid()
      reads this, Repr
      ensures Valid() ==> this in Repr
    {
      Shape() && WellFormed(pins, maxSize)
    }

    constructor (ttl: Time, maxSize: int)
      ensures Valid() && fresh(Repr)
      ensures pins == [] && this.ttl == ttl && this.maxSize == maxSize
    {
      this.ttl, this.maxSize := ttl, maxSize;
      entries := map[];
      lru := new List();
      order, pins := [], [];
      new;
      Repr := {this, lru, lru.root};
    }

    method Get(key: Key, now: Time) returns (r: Option<Pin>)
      requires Valid()
      ensures r == AffinityModel.Get(pins, key, now, ttl)
    {
      NodeAt(entries, order, lru.ring, pins, key);
      if key !in entries {
        return None;
      }
      var node := entries[key];
      if now - node.lastSeen > ttl {
        return None;
      }
      return Some(AffinityModel.Pin(node.key, node.backend, node.lastSeen));
    }

    method Touch(key: Key, now: Time)
      requires Valid()
      modifies Repr
      ensures Valid() && fresh(Repr - old(Repr))
      ensures pins == AffinityModel.Touch(old(pins), key, now)
    {
      NodeAt(entries, order, lru.ring, pins, key);
      if key in entries {
        var node := entries[key];
        Promote(node, node.backend, now);
      }
    }

    /** Rewrites a stored node's entry and moves its element to the front. */
    method Promote(node: Node, backend: string, now: Time)
      requires Valid() && node.key in entries && entries[node.key] == node
      modifies Repr
      ensures Valid() && Repr == old(Repr)
      ensures pins == [AffinityModel.Pin(node.key, backend, now)] + Without(old(pins), node.key)
    {
      NodeAt(entries, order, lru.ring, pins, node.key);
      ghost var o, s := order, pins;
      ghost var m := IndexOf(s, node.key);
      ghost var p := AffinityModel.Pin(node.key, backend, now);
      PromotedWellFormed(s, p, maxSize);
      IndexesMoved(entries, o, m);
      assert m < |s| && Without(s, node.key) == s[..m] + s[m + 1..];
      order, pins := [node] + CutNode(o, m), [p] + (s[..m] + s[m + 1..]);
      Renew(lru, o, s, node, m, backend, now);
    }

    /** Takes one listed node out of the list and the map. */
    method RemoveNode(node: Node, ghost m: nat)
      requires Shape() && DistinctKeys(pins) && m < |order| && order[m] == node
      modifies Repr
      ensures Shape() && Repr == old(Repr)
      ensures pins == old(pins)[..m] + old(pins)[m + 1..]
    {
      ghost var o, s := order, pins;
      KeysApart(o, lru.ring, s, m);
      IndexesCut(entries, o, m);
      order, pins := CutNode(o, m), s[..m] + s[m + 1..];
      Unlink(lru, o, s, node, m);
      entries := entries - {node.key};
    }

    method Delete(key: Key)
      requires Valid()
      modifies Repr
      ensures Valid() && Repr == old(Repr)
      ensures pins == Without(old(pins), key)
    {
      NodeAt(entries, order, lru.ring, pins, key);
      WithoutKeys(pins, key);
      if key in entries {
        RemoveNode(entries[key], IndexOf(pins, key));
      }
    }

    method Set(key: Key, backend: string, now: Time)
      requires Valid()
      modifies Repr
      ensures Valid() && fresh(Repr - old(Repr))
      ensures pins == AffinityModel.Set(old(pins), key, backend, now, maxSize)
    {
      NodeAt(entries, order, lru.ring, pins, key);
      if key in entries {
        Promote(entries[key], backend, now);
        return;
      }
      Insert(key, backend, now);
      ghost var full := pins;
      while |entries| > maxSize
        invariant Shape() && fresh(Repr - old(Repr)) && DistinctKeys(full)
        invariant Min(|full|, Capacity(maxSize)) <= |pins| <= |full|
        invariant pins == full[..|pins|]
        decreases |pins|
      {
        var oldest := lru.Back();
        if oldest == null {
          break;
        }
        ghost var m := |order| - 1;
        assert Slot(order[m], lru.ring[m + 1], pins[m]);
        RemoveNode(oldest.value, m);
      }
    }

    /** A new node for an absent key, at the front; capacity is not looked at yet. */
    method Insert(key: Key, backend: string, now: Time)
      requires Valid() && !Stored(pins, key)
      modifies Repr
      ensures Shape() && fresh(Repr - old(Repr)) && DistinctKeys(pins)
      ensures pins == [AffinityModel.Pin(key, backend, now)] + old(pins)
    {
      NodeAt(entries, order, lru.ring, pins, key);
      var node := new Node(key, backend, now);
      ghost var o, s := order, pins;
      IndexesAdded(entries, o, node);
      InsertedDistinct(s, node.Pin());
      hide Indexes, DistinctKeys, IndexOf, Stored, Front;
      order, pins := [node] + o, [node.Pin()] + s;
      var e := Enlist(lru, o, s, node);
      entries := entries[key := node];
      Repr := Repr + {node, e};
    }

    method Len() returns (n: nat)
      requires Valid()
      ensures n == |pins|
    {
      n := |entries|;
    }

    method EvictExpired(now: Time)
      requires Valid()
      modifies Repr
      ensures Valid() && Repr == old(Repr)
      ensures pins == Drop(old(pins), Expired(old(pins), now, ttl))
    {
      var expired: seq<Key> := [];
      var todo := entries.Keys;
      while todo != {}
        invariant todo <= entries.Keys
        invariant forall k :: k in expired <==> k in entries.Keys - todo && now - entries[k].lastSeen > ttl
        decreases todo
      {
        var key :| key in todo;
        todo := todo - {key};
        if now - entries[key].lastSeen > ttl {
          expired := expired + [key];
        }
      }
      ghost var gone := Expired(pins, now, ttl);
      ListedValues();
      assert forall k :: k in expired <==> k in gone;
      RemoveAll(expired, gone);
    }

    method Migrate(kept: set<string>)
      requires Valid()
      modifies Repr
      ensures Valid() && Repr == old(Repr)
      ensures pins == Drop(old(pins), Orphans(old(pins), kept))
    {
      var toDelete: seq<Key> := [];
      var todo := entries.Keys;
      while todo != {}
        invariant todo <= entries.Keys
        invariant forall k :: k in toDelete <==> k in entries.Keys - todo && entries[k].backend !in kept
        decreases todo
      {
        var key :| key in todo;
        todo := todo - {key};
        if entries[key].backend !in kept {
          toDelete := toDelete + [key];
        }
      }
      ghost var gone := Orphans(pins, kept);
      ListedValues();
      assert forall k :: k in toDelete <==> k in gone;
      RemoveAll(toDelete, gone);
    }

    /** What the map says of a key is what its pin says. */
    lemma ListedValues()
      requires Valid()
      ensures forall k :: k in entries ==> exists p :: p in pins && p == entries[k].Pin() && p.key == k
      ensures forall p :: p in pins ==> p.key in entries && entries[p.key].Pin() == p
    {
      MapIsListed(entries, order, lru.ring, pins);
      forall k | k in entries
        ensures exists p :: p in pins && p == entries[k].Pin() && p.key == k
      {
        NodeAt(entries, order, lru.ring, pins, k);
        assert pins[IndexOf(pins, k)] in pins;
      }
      forall p | p in pins
        ensures p.key in entries && entries[p.key].Pin() == p
      {
        var i :| 0 <= i < |pins| && pins[i] == p;
        assert Slot(order[i], lru.ring[i + 1], pins[i]);
      }
    }

    /** The deletion loop shared by both sweeps; the order of the keys does not matter. */
    method RemoveAll(keys: seq<Key>, ghost gone: set<Key>)
      requires Valid() && forall k :: k in keys <==> k in gone
      modifies Repr
      ensures Valid() && Repr == old(Repr)
      ensures pins == Drop(old(pins), gone)
    {
      ghost var s := pins;
      ghost var done: set<Key> := {};
      DropNothing(s, {});
      for i := 0 to |keys|
        invariant Valid() && Repr == old(Repr)
        invariant done == set k | k in keys[..i]
        invariant pins == Drop(s, done)
      {
        WithoutIsDrop(pins, keys[i]);
        DropTwice(s, done, {keys[i]});
        Delete(keys[i]);
        done := done + {keys[i]};
      }
      assert done == gone;
    }
  }
}
