/** The sticky least-loaded selector over live backend states and a live affinity store. */
module StickySelector {
  import opened Common
  import opened AffinityModel
  import opened AffinityKey
  import opened BackendModel
  import opened BackendState
  import opened LoadScore
  import opened SelectorModel
  import opened AffinityStore

  class StickyLeastLoaded {
    const store: Store
    const maxConcurrency: int
    const kvCachePct: real
    const staleThreshold: Time

    constructor (store: Store, maxConcurrency: int, kvCachePct: real, staleThreshold: Time)
      ensures this.store == store && Config() == Policy(store.ttl, store.maxSize, maxConcurrency, kvCachePct, staleThreshold)
    {
      this.store, this.maxConcurrency, this.kvCachePct, this.staleThreshold :=
        store, maxConcurrency, kvCachePct, staleThreshold;
    }

    function Config(): Policy {
      Policy(store.ttl, store.maxSize, maxConcurrency, kvCachePct, staleThreshold)
    }

    /** A positive threshold carried by the request overrides the selector's own. */
    function Stale(override: Time): Time {
      if override > 0 then override else staleThreshold
    }

    /** The empty pool is the only error; otherwise choice and pins are those of SelectorModel. */
    method Select(pool: seq<BackendState>, key: Key, override: Time, now: Time) returns (r: Option<BackendState>)
      requires store.Valid()
      requires forall b :: b in pool ==> b !in store.Repr && b.flow !in store.Repr
      modifies store.Repr
      ensures store.Valid() && fresh(store.Repr - old(store.Repr))
      ensures r == None <==> pool == []
      ensures pool == [] ==> store.pins == old(store.pins)
      ensures r.Some? ==>
                var vs, s := old(Views(pool)), Stale(override);
                && r.value in pool
                && old(r.value.View()) == Chosen(vs, old(store.pins), key, Config(), s, now)
                && store.pins == PinsAfter(vs, old(store.pins), key, Config(), s, now)
    {
      if |pool| == 0 {
        return None;
      }
      hide Views, Honoured, LeastLoaded, Candidates, ClassOf, AffinityModel.Set, AffinityModel.Touch;
      var stale := Stale(override);
      var pinned := FollowPin(pool, key, stale, now);
      if pinned.Some? {
        store.Touch(key, now);
        return pinned;
      }
      var chosen := ChooseAndPin(pool, key, stale, now);
      return Some(chosen);
    }

    /** The affinity look-up: the pinned backend, if it may serve the request. */
    method FollowPin(pool: seq<BackendState>, key: Key, stale: Time, now: Time) returns (r: Option<BackendState>)
      requires store.Valid()
      ensures r.Some? ==> r.value in pool
      ensures Honoured(Views(pool), store.pins, key, Config(), stale, now)
           == if r.Some? then Some(r.value.View()) else None
    {
      hide Views;
      if key == [] {
        return None;
      }
      var entry := store.Get(key, now);
      if entry == None {
        return None;
      }
      var pinned := FindInPool(pool, entry.value.backend);
      if pinned.Some? && !pinned.value.IsFailing(now) {
        var overloaded := IsOverloaded(pinned.value, maxConcurrency, kvCachePct, stale, now);
        if !overloaded {
          return pinned;
        }
      }
      return None;
    }

    /** The fallback: choose afresh, and pin the choice unless it is failing or ramping up. */
    method ChooseAndPin(pool: seq<BackendState>, key: Key, stale: Time, now: Time) returns (chosen: BackendState)
      requires store.Valid() && |pool| > 0
      requires forall b :: b in pool ==> b !in store.Repr && b.flow !in store.Repr
      modifies store.Repr
      ensures store.Valid() && fresh(store.Repr - old(store.Repr))
      ensures chosen in pool
      ensures var b := old(chosen.View());
              && b == old(LeastLoaded(Candidates(Views(pool), now), stale, KeyHash(key), now))
              && store.pins == if key != [] && ClassOf(b, now).Ready?
                               then AffinityModel.Set(old(store.pins), key, b.id, now, store.maxSize)
                               else old(store.pins)
    {
      hide Views, LeastLoaded, Candidates, AffinityModel.Set;
      chosen := ChooseFresh(pool, key, stale, now);
      if key != [] && !chosen.IsRampingUp(now) && !chosen.IsFailing(now) {
        store.Set(key, chosen.id, now);
      }
    }
  }

  method FindInPool(pool: seq<BackendState>, id: string) returns (r: Option<BackendState>)
    ensures r == None <==> FindByID(Views(pool), id) == None
    ensures r.Some? ==> r.value in pool && FindByID(Views(pool), id) == Some(r.value.View())
  {
    ghost var vs := Views(pool);
    for i := 0 to |pool|
      invariant FindByID(vs, id) == FindByID(vs[i..], id)
    {
      ViewsAt(pool, i);
      assert vs[i] == pool[i].View() && vs[i..][0] == vs[i] && vs[i..][1..] == vs[i + 1..];
      if pool[i].id == id {
        return Some(pool[i]);
      }
    }
    return None;
  }

  /** `pool` and `views` list the same backends, all of them drawn from `source`. */
  ghost predicate Mirrors(pool: seq<BackendState>, views: seq<Backend>, source: seq<BackendState>)
    reads pool, set b | b in pool :: b.flow
  {
    && |pool| == |views|
    && forall i {:trigger pool[i]} {:trigger views[i]} :: 0 <= i < |pool| ==>
         pool[i] in source && views[i] == pool[i].View()
  }

  lemma MirrorsNext(pool: seq<BackendState>, views: seq<Backend>, source: seq<BackendState>, b: BackendState)
    requires Mirrors(pool, views, source) && b in source
    ensures Mirrors(pool + [b], views + [b.View()], source)
  {
  }

  lemma ClassNext(seen: seq<Backend>, b: Backend, now: Time)
    ensures forall c :: OfClass(seen + [b], c, now)
                     == OfClass(seen, c, now) + if ClassOf(b, now) == c then [b] else []
  {
    assert (seen + [b])[..|seen|] == seen;
  }

  /** Appends each backend to the list of its class. */
  method Split(pool: seq<BackendState>, now: Time)
    returns (filtered: seq<BackendState>, ramping: seq<BackendState>, failing: seq<BackendState>)
    ensures Views(filtered) == OfClass(Views(pool), Ready, now)
    ensures Views(ramping) == OfClass(Views(pool), Ramping, now)
    ensures Views(failing) == OfClass(Views(pool), Failing, now)
    ensures forall b :: b in filtered || b in ramping || b in failing ==> b in pool
  {
    filtered, ramping, failing := [], [], [];
    ghost var seen: seq<Backend> := [];
    ghost var fs: seq<Backend>, rs: seq<Backend>, xs: seq<Backend> := [], [], [];
    for i := 0 to |pool|
      invariant |seen| == i && forall j {:trigger seen[j]} :: 0 <= j < i ==> seen[j] == pool[j].View()
      invariant fs == OfClass(seen, Ready, now) && rs == OfClass(seen, Ramping, now) && xs == OfClass(seen, Failing, now)
      invariant Mirrors(filtered, fs, pool) && Mirrors(ramping, rs, pool) && Mirrors(failing, xs, pool)
    {
      var b := pool[i];
      ClassNext(seen, b.View(), now);
      seen := seen + [b.View()];
      if b.IsFailing(now) {
        MirrorsNext(failing, xs, pool, b);
        failing, xs := failing + [b], xs + [b.View()];
      } else if b.IsRampingUp(now) {
        MirrorsNext(ramping, rs, pool, b);
        ramping, rs := ramping + [b], rs + [b.View()];
      } else {
        MirrorsNext(filtered, fs, pool, b);
        filtered, fs := filtered + [b], fs + [b.View()];
      }
    }
    ViewsAre(pool, seen);
    MirrorsViews(filtered, fs, pool);
    MirrorsViews(ramping, rs, pool);
    MirrorsViews(failing, xs, pool);
  }

  /** The least-loaded backend of the first class that has one. */
  method ChooseFresh(pool: seq<BackendState>, key: Key, stale: Time, now: Time) returns (chosen: BackendState)
    requires |pool| > 0
    ensures chosen in pool
    ensures chosen.View() == LeastLoaded(Candidates(Views(pool), now), stale, KeyHash(key), now)
  {
    hide Views;
    var filtered, ramping, failing := Split(pool, now);
    var keyHash := 0;
    if key != [] {
      keyHash := Fnv64a(key);
    }
    ghost var vs := Views(pool);
    SomeClassIsPopulated(vs, now);
    ghost var candidates := Candidates(vs, now);
    ghost var best: Backend;
    if |filtered| > 0 {
      assert Views(filtered) == candidates;
      chosen := PickLeastLoaded(filtered, stale, keyHash, now);
      best := chosen.View();
      assert best == LeastLoaded(candidates, stale, keyHash, now);
    } else if |ramping| > 0 {
      assert Views(ramping) == candidates;
      chosen := PickLeastLoaded(ramping, stale, keyHash, now);
      best := chosen.View();
      assert best == LeastLoaded(candidates, stale, keyHash, now);
    } else {
      assert Views(failing) == candidates;
      chosen := PickLeastLoaded(failing, stale, keyHash, now);
      best := chosen.View();
      assert best == LeastLoaded(candidates, stale, keyHash, now);
    }
    assert Views(pool) == vs;
  }

  lemma MirrorsViews(pool: seq<BackendState>, views: seq<Backend>, source: seq<BackendState>)
    requires Mirrors(pool, views, source)
    ensures Views(pool) == views && forall b :: b in pool ==> b in source
  {
    ViewsAre(pool, views);
  }
}
