/**
 The doubly linked list behind the affinity table: a ring of elements closed by a sentinel root,
 with the four operations the table uses. The ghost field `ring` names the elements in order,
 root first, so the front of the list is ring[1] and its back the last element.
 */
module LruList {
  import opened Common
  import opened AffinityModel

  /** A stored pin: its key, the entry's two fields, and the element that carries it. */
  class Node {
    const key: Key
    var backend: string
    var lastSeen: Time
    var element: Element?

    constructor (key: Key, backend: string, lastSeen: Time)
      ensures this.key == key && this.backend == backend && this.lastSeen == lastSeen
    {
      this.key, this.backend, this.lastSeen, this.element := key, backend, lastSeen, null;
    }

    ghost function Pin(): Pin
      reads this
    {
      AffinityModel.Pin(key, backend, lastSeen)
    }
  }

  class Element {
    var prev: Element?
    var next: Element?
    const value: Node?  // null only in the sentinel

    constructor (value: Node?)
      ensures this.value == value
    {
      this.value := value;
      prev, next := null, null;
    }
  }

  /** The successor and predecessor of position i in a ring. */
  ghost function Succ(r: seq<Element>, i: nat): Element
    requires i < |r|
  {
    if i + 1 < |r| then r[i + 1] else r[0]
  }

  ghost function Pred(r: seq<Element>, i: nat): Element
    requires i < |r|
  {
    if i == 0 then r[|r| - 1] else r[i - 1]
  }

  ghost predicate Apart(r: seq<Element>, i: nat, j: nat)
    requires i < |r| && j < |r|
  {
    r[i] != r[j]
  }

  ghost predicate Distinct(r: seq<Element>) {
    forall i, j {:trigger Apart(r, i, j)} :: 0 <= i < |r| && 0 <= j < |r| && i != j ==> Apart(r, i, j)
  }

  /** Every element of the ring points at its two neighbours. */
  ghost predicate Linked(r: seq<Element>)
    reads r
  {
    forall i {:trigger Succ(r, i)} {:trigger Pred(r, i)} :: 0 <= i < |r| ==>
      r[i].next == Succ(r, i) && r[i].prev == Pred(r, i)
  }

  ghost function Cut(r: seq<Element>, i: nat): (c: seq<Element>)
    requires i < |r|
    ensures |c| == |r| - 1
    ensures forall k :: 0 <= k < |c| ==> c[k] == if k < i then r[k] else r[k + 1]
    ensures forall x :: x in c ==> x in r
  {
    r[..i] + r[i + 1..]
  }

  ghost function Front(r: seq<Element>, e: Element): (c: seq<Element>)
    requires |r| > 0
    ensures |c| == |r| + 1
    ensures c[0] == r[0] && c[1] == e && forall k :: 2 <= k < |c| ==> c[k] == r[k - 1]
    ensures forall x :: x in c ==> x == e || x in r
  {
    [r[0], e] + r[1..]
  }

  lemma CutDistinct(r: seq<Element>, i: nat)
    requires Distinct(r) && i < |r|
    ensures Distinct(Cut(r, i)) && r[i] !in Cut(r, i)
  {
    var c := Cut(r, i);
    forall a, b | 0 <= a < |c| && 0 <= b < |c| && a != b
      ensures Apart(c, a, b)
    {
      assert Apart(r, if a < i then a else a + 1, if b < i then b else b + 1);
    }
    forall a | 0 <= a < |c|
      ensures c[a] != r[i]
    {
      assert Apart(r, if a < i then a else a + 1, i);
    }
  }

  lemma FrontDistinct(r: seq<Element>, e: Element)
    requires Distinct(r) && |r| > 0 && e !in r
    ensures Distinct(Front(r, e))
  {
    var c := Front(r, e);
    forall a, b | 0 <= a < |c| && 0 <= b < |c| && a != b
      ensures Apart(c, a, b)
    {
      if a != 1 && b != 1 {
        assert Apart(r, if a == 0 then 0 else a - 1, if b == 0 then 0 else b - 1);
      }
    }
  }

  /** Unhooks position i: its two neighbours now point at each other. */
  method Unhook(ghost r: seq<Element>, e: Element, ghost i: nat)
    requires Distinct(r) && Linked(r) && 1 <= i < |r| && r[i] == e
    modifies r
    ensures Distinct(Cut(r, i)) && Linked(Cut(r, i))
    ensures e !in Cut(r, i)
  {
    ghost var n := if i + 1 < |r| then i + 1 else 0;
    assert e.prev == Pred(r, i) == r[i - 1] && e.next == Succ(r, i) == r[n];
    assert Apart(r, i - 1, i) && Apart(r, n, i);
    e.prev.next := e.next;
    e.next.prev := e.prev;
    ghost var c := Cut(r, i);
    CutDistinct(r, i);
    forall k | 0 <= k < |c|
      ensures c[k].next == Succ(c, k) && c[k].prev == Pred(c, k)
    {
      ghost var j := if k < i then k else k + 1;
      assert c[k] == r[j];
      assert old(r[j].next == Succ(r, j) && r[j].prev == Pred(r, j));
      if j != i - 1 {
        assert Apart(r, j, i - 1);
      }
      if j != n {
        assert Apart(r, j, n);
      }
    }
  }

  /** Hooks e between the root and the first element. */
  method Hook(ghost r: seq<Element>, root: Element, e: Element)
    requires Distinct(r) && Linked(r) && |r| > 0 && root == r[0] && e !in r
    modifies r, e
    ensures Distinct(Front(r, e)) && Linked(Front(r, e))
  {
    ghost var n := if |r| == 1 then 0 else 1;
    assert root.next == Succ(r, 0) == r[n];
    e.prev := root;
    e.next := root.next;
    e.prev.next := e;
    e.next.prev := e;
    ghost var c := Front(r, e);
    FrontDistinct(r, e);
    forall k | 0 <= k < |c|
      ensures c[k].next == Succ(c, k) && c[k].prev == Pred(c, k)
    {
      if k != 1 {
        ghost var j := if k == 0 then 0 else k - 1;
        assert c[k] == r[j];
        assert old(r[j].next == Succ(r, j) && r[j].prev == Pred(r, j));
        if j != 0 {
          assert Apart(r, j, 0);
        }
        if j != n {
          assert Apart(r, j, n);
        }
      }
    }
  }

  class List {
    const root: Element
    var len: nat
    ghost var ring: seq<Element>

    ghost predicate Valid()
      reads this, ring
    {
      0 < |ring| && ring[0] == root && len == |ring| - 1 && Distinct(ring) && Linked(ring)
    }

    constructor ()
      ensures Valid() && ring == [root] && fresh(root)
    {
      root := new Element(null);
      len := 0;
      new;
      root.prev, root.next := root, root;
      ring := [root];
    }

    method Back() returns (e: Element?)
      requires Valid()
      ensures e == if |ring| == 1 then null else ring[|ring| - 1]
    {
      assert ring[0].prev == Pred(ring, 0);
      e := if len == 0 then null else root.prev;
    }

    method PushFront(value: Node) returns (e: Element)
      requires Valid()
      modifies this, ring
      ensures Valid() && fresh(e) && e.value == value
      ensures ring == Front(old(ring), e)
    {
      e := new Element(value);
      Hook(ring, root, e);
      len := len + 1;
      ring := Front(ring, e);
    }

    method Remove(e: Element, ghost i: nat)
      requires Valid() && 1 <= i < |ring| && ring[i] == e
      modifies this, ring
      ensures Valid()
      ensures ring == Cut(old(ring), i)
    {
      ghost var c := Cut(ring, i);
      Unhook(ring, e, i);
      e.next, e.prev := null, null;
      assert Linked(c);
      len := len - 1;
      ring := c;
    }

    method MoveToFront(e: Element, ghost i: nat)
      requires Valid() && 1 <= i < |ring| && ring[i] == e
      modifies this, ring
      ensures Valid()
      ensures ring == Front(Cut(old(ring), i), e)
    {
      assert ring[0].next == Succ(ring, 0);
      if root.next == e {
        assert Apart(ring, i, 1) || i == 1;
        assert ring == Front(Cut(ring, i), e);
        return;
      }
      ghost var c := Cut(ring, i);
      Unhook(ring, e, i);
      assert c[0] == ring[0];
      Hook(c, root, e);
      ring := Front(c, e);
    }
  }
}
