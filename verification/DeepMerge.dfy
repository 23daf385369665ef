/** Route injection: a recursive merge of JSON objects in which the source wins leaf by leaf. */
module DeepMerge {
  import opened Common
  import opened Json

  /** What the merge makes of a destination value and a source value under the same key. */
  function Combine(d: Json, s: Json): Json
    decreases s
  {
    if d.Obj? && s.Obj? then
      Obj(map k | k in d.fields.Keys + s.fields.Keys ::
            if k !in s.fields then d.fields[k]
            else if k in d.fields then Combine(d.fields[k], s.fields[k])
            else s.fields[k])
    else s
  }

  function Merge(dst: Object, src: Object): Object {
    Combine(Obj(dst), Obj(src)).fields
  }

  lemma MergeAt(dst: Object, src: Object, k: string)
    ensures k in Merge(dst, src) <==> k in dst || k in src
    ensures k in Merge(dst, src) ==>
              Merge(dst, src)[k] == if k !in src then dst[k] else if k in dst then Combine(dst[k], src[k]) else src[k]
  {
  }

  lemma KeysOfMerge(dst: Object, src: Object)
    ensures Merge(dst, src).Keys == dst.Keys + src.Keys
  {
  }

  // ---- What is found along a path -------------------------------------------------------

  function Look(j: Json, path: seq<string>): Option<Json> {
    if path == [] then Some(j)
    else if j.Obj? && path[0] in j.fields then Look(j.fields[path[0]], path[1..])
    else None
  }

  /** The path leaves j at an object without the next key, so j says nothing about the path's end. */
  predicate Silent(j: Json, path: seq<string>) {
    path != [] && j.Obj? && (path[0] in j.fields ==> Silent(j.fields[path[0]], path[1..]))
  }

  /**
   The merged value has a leaf at a path exactly when the source has that leaf there, or the
   destination has it and the source is silent about the path. A leaf is anything but an object,
   so arrays are replaced whole.
   */
  lemma {:induction false} LeavesOfMerge(d: Json, s: Json, path: seq<string>, leaf: Json)
    requires !leaf.Obj?
    ensures Look(Combine(d, s), path) == Some(leaf)
       <==> Look(s, path) == Some(leaf) || (Look(d, path) == Some(leaf) && Silent(s, path))
    decreases path
  {
    if path != [] && d.Obj? && s.Obj? && path[0] in d.fields && path[0] in s.fields {
      LeavesOfMerge(d.fields[path[0]], s.fields[path[0]], path[1..], leaf);
    } else {
      SilentIsNone(s, path);
    }
  }

  lemma {:induction false} SilentIsNone(s: Json, path: seq<string>)
    ensures Silent(s, path) ==> Look(s, path) == None
    decreases path
  {
    if path != [] && s.Obj? && path[0] in s.fields {
      SilentIsNone(s.fields[path[0]], path[1..]);
    }
  }

  // ---- Idempotence -----------------------------------------------------------------------

  lemma {:induction false} SelfMerge(j: Json)
    ensures Combine(j, j) == j
    decreases j
  {
    if j.Obj? {
      forall k | k in j.fields ensures Combine(j.fields[k], j.fields[k]) == j.fields[k] {
        SelfMerge(j.fields[k]);
      }
      assert Combine(j, j).fields == j.fields;
    }
  }

  /** Injecting the same source twice is injecting it once. */
  lemma {:induction false} MergeIsIdempotent(d: Json, s: Json)
    ensures Combine(Combine(d, s), s) == Combine(d, s)
    decreases s
  {
    SelfMerge(s);
    if d.Obj? && s.Obj? {
      var m := Combine(d, s);
      forall k | k in s.fields ensures Combine(m.fields[k], s.fields[k]) == m.fields[k] {
        SelfMerge(s.fields[k]);
        if k in d.fields {
          MergeIsIdempotent(d.fields[k], s.fields[k]);
        }
      }
      assert Combine(m, s).fields == m.fields;
    }
  }

  lemma MergeNothing(dst: Object)
    ensures Merge(dst, map[]) == dst
  {
  }

  // ---- The code --------------------------------------------------------------------------

  /** Merging one more key changes the value under that key alone. */
  lemma MergeOneMore(dst: Object, src: Object, todo: set<string>, k: string)
    requires k in todo && k in src
    ensures var before := Merge(dst, src - todo);
            && (k in before <==> k in dst) && (k in dst ==> before[k] == dst[k])
            && Merge(dst, src - (todo - {k})) == before[k := if k in dst then Combine(dst[k], src[k]) else src[k]]
  {
    var before, after := Merge(dst, src - todo), Merge(dst, src - (todo - {k}));
    forall x ensures x in after <==> x in before || x == k {
      MergeAt(dst, src - todo, x);
      MergeAt(dst, src - (todo - {k}), x);
    }
    forall x | x in before && x != k ensures after[x] == before[x] {
      MergeAt(dst, src - todo, x);
      MergeAt(dst, src - (todo - {k}), x);
    }
  }

  /** The loop over the source's keys, in any order. */
  method DeepMergeInto(dst: Object, src: Json) returns (out: Object)
    requires src.Obj?
    ensures out == Merge(dst, src.fields)
    decreases src
  {
    out := dst;
    var todo := src.fields.Keys;
    MergeNothing(dst);
    assert src.fields - todo == map[];
    while todo != {}
      invariant todo <= src.fields.Keys
      invariant out == Merge(dst, src.fields - todo)
      decreases |todo|
    {
      var k :| k in todo;
      var v := src.fields[k];
      MergeOneMore(dst, src.fields, todo, k);
      if v.Obj? && k in out && out[k].Obj? {
        var merged := DeepMergeInto(out[k].fields, v);
        assert Obj(out[k].fields) == dst[k] && Obj(v.fields) == v;
        out := out[k := Obj(merged)];
      } else {
        out := out[k := v];
      }
      todo := todo - {k};
    }
    assert src.fields - {} == src.fields;
  }
}
