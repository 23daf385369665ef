/**
 The balancer object: groups of live backend states with a sticky selector each. Its methods are
 proved against the same update functions that the steps of BalancerSystem use.
 */
module Balancer {
  import opened Common
  import opened AffinityModel
  import opened BackendModel
  import opened FlowStats
  import opened BackendState
  import opened LoadScore
  import opened SelectorModel
  import opened StickySelector

  class Group {
    const unhealthyAfter: int
    const selector: StickyLeastLoaded
    const states: map<string, BackendState>

    constructor (unhealthyAfter: int, selector: StickyLeastLoaded, states: map<string, BackendState>)
      ensures this.unhealthyAfter == unhealthyAfter && this.selector == selector && this.states == states
    {
      this.unhealthyAfter, this.selector, this.states := unhealthyAfter, selector, states;
    }
  }

  /** Select's outcome: a backend, or one of its two errors. */
  datatype Selection = UnknownGroup | NoHealthyBackend | Picked(backend: BackendState)

  /** CompleteAndDecr's effect on its backend. */
  function CountedOut(b: Backend, success: bool, timedOut: bool, ttftMs: real, now: Time): Backend {
    var d := b.(flow := Completed(b.flow, success, timedOut, ttftMs, now), inFlight := b.inFlight - 1);
    if timedOut then d else OutcomeRecorded(d, success, 3, 0, now)
  }

  /** markUnhealthy's effect on its backend. */
  function Suspected(b: Backend, failures: int, unhealthyAfter: int, now: Time): Backend {
    if b.inFlight > 0 || RecentSuccess(b, now) then b
    else ProbeFailed(b, failures, if unhealthyAfter == 0 then DEFAULT_THRESHOLD else unhealthyAfter, now)
  }

  class Balancer {
    const groups: map<string, Group>

    constructor (groups: map<string, Group>)
      ensures this.groups == groups
    {
      this.groups := groups;
    }

    /** The group with the given name has a backend with the given id. */
    ghost predicate Has(g: string, id: string) {
      g in groups && id in groups[g].states
    }

    ghost function At(g: string, id: string): BackendState
      requires Has(g, id)
    {
      groups[g].states[id]
    }

    /** Ids are unique across groups, and every id has its own state and flow objects. */
    ghost predicate UniqueIds() {
      && (forall g, id :: Has(g, id) ==> At(g, id).id == id)
      && (forall g, h, id :: Has(g, id) && Has(h, id) ==> g == h)
      && (forall g, h, id, jd :: Has(g, id) && Has(h, jd) && id != jd ==>
            At(g, id) != At(h, jd) && At(g, id).flow != At(h, jd).flow)
    }

    ghost function StateObjects(): set<BackendState> {
      set g, id | g in groups && id in groups[g].states :: groups[g].states[id]
    }

    ghost function FlowObjects(): set<FlowStats> {
      set g, id | g in groups && id in groups[g].states :: groups[g].states[id].flow
    }

    /** The first group that has the id decides, as in the code's loops over the groups. */
    method Lookup(id: string) returns (st: Option<BackendState>)
      requires UniqueIds()
      ensures st == None <==> forall g :: !Has(g, id)
      ensures forall g :: Has(g, id) ==> st == Some(At(g, id))
    {
      var todo := groups.Keys;
      while todo != {}
        invariant todo <= groups.Keys
        invariant forall g :: Has(g, id) ==> g in todo
        decreases todo
      {
        var g :| g in todo;
        if id in groups[g].states {
          assert Has(g, id);
          return Some(groups[g].states[id]);
        }
        todo := todo - {g};
      }
      return None;
    }

    lemma Owned(st: BackendState, id: string)
      requires UniqueIds() && exists g :: Has(g, id) && At(g, id) == st
      ensures st in StateObjects() && st.flow in FlowObjects()
      ensures forall g, o :: Has(g, o) ==> (At(g, o) == st <==> o == id) && (At(g, o).flow == st.flow <==> o == id)
    {
    }

    /** One more request is being proxied to the backend. */
    method Incr(id: string)
      requires UniqueIds()
      modifies StateObjects()
      ensures forall g, o :: Has(g, o) ==>
                var b := old(At(g, o).View());
                At(g, o).View() == if o == id then b.(inFlight := b.inFlight + 1) else b
    {
      var st := Lookup(id);
      if st.Some? {
        Owned(st.value, id);
        st.value.AddInFlight(1);
      }
    }

    /** One request less. */
    method Decr(id: string)
      requires UniqueIds()
      modifies StateObjects()
      ensures forall g, o :: Has(g, o) ==>
                var b := old(At(g, o).View());
                At(g, o).View() == if o == id then b.(inFlight := b.inFlight - 1) else b
    {
      var st := Lookup(id);
      if st.Some? {
        Owned(st.value, id);
        st.value.AddInFlight(-1);
      }
    }

    /** A request was sent to the backend. */
    method Dispatch(id: string, now: Time)
      requires UniqueIds()
      modifies FlowObjects()
      ensures forall g, o :: Has(g, o) ==>
                var b := old(At(g, o).View());
                At(g, o).View() == if o == id then b.(flow := Dispatched(b.flow, now)) else b
    {
      var st := Lookup(id);
      if st.Some? {
        Owned(st.value, id);
        st.value.flow.Dispatch(now);
      }
    }

    /** A request of the backend ended. */
    method Complete(id: string, success: bool, timedOut: bool, ttftMs: real, now: Time)
      requires UniqueIds()
      modifies FlowObjects()
      ensures forall g, o :: Has(g, o) ==>
                var b := old(At(g, o).View());
                At(g, o).View() == if o == id then b.(flow := Completed(b.flow, success, timedOut, ttftMs, now)) else b
    {
      var st := Lookup(id);
      if st.Some? {
        Owned(st.value, id);
        st.value.flow.Complete(success, timedOut, ttftMs, now);
      }
    }

    /** Real outcomes drive health: three strikes, no ramp-up. */
    method RecordOutcome(id: string, success: bool, now: Time)
      requires UniqueIds()
      modifies StateObjects()
      ensures forall g, o :: Has(g, o) ==>
                var b := old(At(g, o).View());
                At(g, o).View() == if o == id then OutcomeRecorded(b, success, 3, 0, now) else b
    {
      var todo := groups.Keys;
      while todo != {}
        invariant todo <= groups.Keys
        invariant forall g, o :: Has(g, o) ==>
                    var b := old(At(g, o).View());
                    At(g, o).View() == if o == id && g !in todo then OutcomeRecorded(b, success, 3, 0, now) else b
        decreases todo
      {
        var g :| g in todo;
        todo := todo - {g};
        if id in groups[g].states {
          assert Has(g, id);
          Owned(groups[g].states[id], id);
          groups[g].states[id].RecordRequestOutcome(success, 3, 0, now);
        }
      }
    }

    /** A probe succeeded; ramp-up only after a recovery the caller reports. */
    method MarkHealthy(id: string, wasUnhealthy: bool, rampUpSeconds: int, now: Time)
      requires UniqueIds()
      modifies StateObjects()
      ensures forall g, o :: Has(g, o) ==>
                var b := old(At(g, o).View());
                At(g, o).View() == if o == id then MadeHealthy(b, if wasUnhealthy && rampUpSeconds > 0 then rampUpSeconds else 0, now) else b
    {
      var todo := groups.Keys;
      while todo != {}
        invariant todo <= groups.Keys
        invariant forall g, o :: Has(g, o) ==>
                    var b := old(At(g, o).View());
                    At(g, o).View() == if o == id && g !in todo then MadeHealthy(b, if wasUnhealthy && rampUpSeconds > 0 then rampUpSeconds else 0, now) else b
        decreases todo
      {
        var g :| g in todo;
        todo := todo - {g};
        if id in groups[g].states {
          assert Has(g, id);
          Owned(groups[g].states[id], id);
          groups[g].states[id].SetHealthy(if wasUnhealthy && rampUpSeconds > 0 then rampUpSeconds else 0, now);
        }
      }
    }

    /** Freshly scraped metrics. */
    method UpdateMetrics(id: string, available: bool, running: int, waiting: int, kv: real, now: Time)
      requires UniqueIds()
      modifies StateObjects()
      ensures forall g, o :: Has(g, o) ==>
                var b := old(At(g, o).View());
                At(g, o).View() == if o == id then MetricsUpdated(b, available, running, waiting, kv, now) else b
    {
      var todo := groups.Keys;
      while todo != {}
        invariant todo <= groups.Keys
        invariant forall g, o :: Has(g, o) ==>
                    var b := old(At(g, o).View());
                    At(g, o).View() == if o == id && g !in todo then MetricsUpdated(b, available, running, waiting, kv, now) else b
        decreases todo
      {
        var g :| g in todo;
        todo := todo - {g};
        if id in groups[g].states {
          assert Has(g, id);
          Owned(groups[g].states[id], id);
          groups[g].states[id].UpdateMetrics(available, running, waiting, kv, now);
        }
      }
    }

    /** Counting out: flow first, then the in-flight counter, then health unless it timed out. */
    method CompleteAndDecr(id: string, success: bool, timedOut: bool, ttftMs: real, now: Time)
      requires UniqueIds()
      modifies StateObjects(), FlowObjects()
      ensures forall g, o :: Has(g, o) ==>
                var b := old(At(g, o).View());
                At(g, o).View() == if o == id then CountedOut(b, success, timedOut, ttftMs, now) else b
    {
      Complete(id, success, timedOut, ttftMs, now);
      Decr(id);
      if !timedOut {
        RecordOutcome(id, success, now);
      }
    }

    /** A probe failed for the `failures`-th time in a row; busy or recently useful backends are spared. */
    method MarkUnhealthy(id: string, failures: int, now: Time)
      requires UniqueIds()
      modifies StateObjects()
      ensures forall g, o :: Has(g, o) ==>
                var b := old(At(g, o).View());
                At(g, o).View() == if o == id then Suspected(b, failures, groups[g].unhealthyAfter, now) else b
    {
      var todo := groups.Keys;
      while todo != {}
        invariant todo <= groups.Keys
        invariant forall g, o :: Has(g, o) ==>
                    var b := old(At(g, o).View());
                    At(g, o).View() == if o == id && g !in todo
                                       then Suspected(b, failures, groups[g].unhealthyAfter, now) else b
        decreases todo
      {
        var g :| g in todo;
        todo := todo - {g};
        if id in groups[g].states {
          assert Has(g, id);
          var st := groups[g].states[id];
          Owned(st, id);
          if st.inFlight > 0 {
            return;
          }
          if now - st.lastSuccessAt < 60 * SECOND {
            return;
          }
          var threshold := groups[g].unhealthyAfter;
          if threshold == 0 {
            threshold := 3;
          }
          st.RecordFailure(failures, threshold, now);
        }
      }
    }

    method IsBackendHealthy(id: string) returns (r: bool)
      requires UniqueIds()
      ensures r <==> exists g :: Has(g, id) && At(g, id).View().healthy
    {
      var st := Lookup(id);
      return st.Some? && st.value.IsHealthy();
    }

    /** Unknown ids may be retried at once. */
    method ShouldRetry(id: string, retryDelaySec: int, now: Time) returns (r: bool)
      requires UniqueIds()
      ensures r <==> forall g :: Has(g, id) ==> RetryDue(At(g, id).View(), retryDelaySec, now)
    {
      var st := Lookup(id);
      return st == None || st.value.ShouldRetry(retryDelaySec, now);
    }

    /** One tick of the passive-recovery loop for a backend without probes. */
    method PassiveTick(id: string, cooldownSec: int, rampUpSec: int, now: Time)
      requires UniqueIds()
      modifies StateObjects()
      ensures forall g, o :: Has(g, o) ==>
                var b := old(At(g, o).View());
                At(g, o).View() == if o == id && !b.healthy && RetryDue(b, cooldownSec, now)
                                   then MadeHealthy(b, rampUpSec, now) else b
    {
      var todo := groups.Keys;
      while todo != {}
        invariant todo <= groups.Keys
        invariant forall g, o :: Has(g, o) ==>
                    var b := old(At(g, o).View());
                    At(g, o).View() == if o == id && g !in todo && !b.healthy && RetryDue(b, cooldownSec, now)
                                       then MadeHealthy(b, rampUpSec, now) else b
        decreases todo
      {
        var g :| g in todo;
        todo := todo - {g};
        if id in groups[g].states {
          assert Has(g, id);
          var st := groups[g].states[id];
          Owned(st, id);
          if !st.IsHealthy() && st.ShouldRetry(cooldownSec, now) {
            st.SetHealthy(rampUpSec, now);
          }
        }
      }
    }

    /** The group's store is well formed and shares no object with any backend state. */
    ghost predicate StoreReady(g: string)
      requires g in groups
      reads groups[g].selector.store, groups[g].selector.store.Repr
    {
      var store := groups[g].selector.store;
      store.Valid() && forall h, id :: Has(h, id) ==> At(h, id) !in store.Repr && At(h, id).flow !in store.Repr
    }

    /** `order` lists, once each, the ids of group g's members that satisfy p. */
    ghost predicate Enumerates(order: seq<string>, g: string, p: Backend -> bool)
      requires g in groups
      reads set id | id in groups[g].states :: groups[g].states[id],
            set id | id in groups[g].states :: groups[g].states[id].flow
    {
      && (forall i, j :: 0 <= i < j < |order| ==> order[i] != order[j])
      && (forall id :: id in order <==> id in groups[g].states && p(groups[g].states[id].View()))
    }

    ghost predicate AllMembers(g: string, order: seq<string>) {
      g in groups && forall i :: 0 <= i < |order| ==> order[i] in groups[g].states
    }

    /** The states behind a list of ids. */
    ghost function PoolOf(g: string, order: seq<string>): seq<BackendState>
      requires AllMembers(g, order)
    {
      seq(|order|, i requires 0 <= i < |order| && AllMembers(g, order) => groups[g].states[order[i]])
    }

    /** Collects, in some order, the members of a group that are healthy, or those that are not. */
    method Collect(g: string, healthy: bool, now: Time) returns (pool: seq<BackendState>, ghost order: seq<string>)
      requires UniqueIds() && g in groups
      ensures Enumerates(order, g, (b: Backend) => b.healthy == healthy)
      ensures AllMembers(g, order) && pool == PoolOf(g, order)
    {
      pool, order := [], [];
      var todo := groups[g].states.Keys;
      while todo != {}
        invariant todo <= groups[g].states.Keys
        invariant AllMembers(g, order) && pool == PoolOf(g, order)
        invariant forall i, j :: 0 <= i < j < |order| ==> order[i] != order[j]
        invariant forall id :: id in order <==>
                    id in groups[g].states.Keys - todo && groups[g].states[id].healthy == healthy
        decreases todo
      {
        var id :| id in todo;
        todo := todo - {id};
        var st := groups[g].states[id];
        if st.IsHealthy() == healthy && (healthy || st.ShouldRetry(0, now)) {
          pool, order := pool + [st], order + [id];
        }
      }
    }

    /** What a selection chooses from: the healthy members, or every member when none is healthy. */
    ghost predicate PoolIds(g: string, order: seq<string>)
      requires g in groups
      reads set id | id in groups[g].states :: groups[g].states[id],
            set id | id in groups[g].states :: groups[g].states[id].flow
    {
      if exists id :: id in groups[g].states && groups[g].states[id].View().healthy
      then Enumerates(order, g, (b: Backend) => b.healthy)
      else Enumerates(order, g, (b: Backend) => true)
    }

    /**
     With no retry delay every unhealthy member qualifies as a last resort. So while nobody else
     changes a backend, the pool is empty only if the group is. PoolScan says when the code's third
     branch, which force-includes one backend, is reached under interference.
     */
    method BuildPool(g: string, now: Time) returns (pool: seq<BackendState>, ghost order: seq<string>)
      requires UniqueIds() && g in groups
      ensures PoolIds(g, order) && AllMembers(g, order) && pool == PoolOf(g, order)
      ensures pool == [] <==> groups[g].states == map[]
      ensures forall b :: b in pool ==> exists id :: Has(g, id) && At(g, id) == b
    {
      pool, order := Collect(g, true, now);
      if |pool| == 0 {
        pool, order := Collect(g, false, now);
      }
      assert order == [] || order[0] in order;
      forall b | b in pool
        ensures exists id :: Has(g, id) && At(g, id) == b
      {
        var i :| 0 <= i < |pool| && pool[i] == b;
        assert Has(g, order[i]) && At(g, order[i]) == b;
      }
      if groups[g].states != map[] {
        var id :| id in groups[g].states;
        assert exists o :: o in order by {
          if groups[g].states[id].healthy {
            assert groups[g].states[id].View().healthy;
          }
        }
      }
    }

    /** An unknown group and an empty group are the only errors. Choice and pins are the selector's. */
    method Select(g: string, key: Key, override: Time, now: Time) returns (r: Selection, ghost order: seq<string>)
      requires UniqueIds() && (g in groups ==> StoreReady(g))
      modifies if g in groups then groups[g].selector.store.Repr else {}
      ensures r.UnknownGroup? <==> g !in groups
      ensures g in groups ==> groups[g].selector.store.Valid()
      ensures g in groups ==> fresh(groups[g].selector.store.Repr - old(groups[g].selector.store.Repr))
      ensures r.NoHealthyBackend? <==> g in groups && groups[g].states == map[]
      ensures r.NoHealthyBackend? ==> groups[g].selector.store.pins == old(groups[g].selector.store.pins)
      ensures r.Picked? ==>
                && AllMembers(g, order) && old(PoolIds(g, order))
                && var sel, pool := groups[g].selector, PoolOf(g, order);
                && r.backend in pool
                && old(r.backend.View()) == Chosen(old(Views(pool)), old(sel.store.pins), key, sel.Config(), sel.Stale(override), now)
                && sel.store.pins == PinsAfter(old(Views(pool)), old(sel.store.pins), key, sel.Config(), sel.Stale(override), now)
    {
      hide Views, Chosen, PinsAfter, PoolIds;
      order := [];
      if g !in groups {
        return UnknownGroup, [];
      }
      var pool;
      pool, order := BuildPool(g, now);
      var chosen := groups[g].selector.Select(pool, key, override, now);
      if chosen == None {
        return NoHealthyBackend, order;
      }
      return Picked(chosen.value), order;
    }

    /** Removes the key's pin, and starts the ten-second cooldown of the backend a live pin led to. */
    method InvalidatePin(g: string, key: Key, now: Time)
      requires UniqueIds() && (g in groups ==> StoreReady(g))
      modifies StateObjects(), if g in groups then groups[g].selector.store.Repr else {}
      ensures g in groups ==> groups[g].selector.store.Valid()
      ensures g in groups ==> groups[g].selector.store.Repr == old(groups[g].selector.store.Repr)
      ensures g in groups ==>
                groups[g].selector.store.pins ==
                  if key == [] then old(groups[g].selector.store.pins) else Without(old(groups[g].selector.store.pins), key)
      ensures forall h, o :: Has(h, o) ==>
                var b := old(At(h, o).View());
                At(h, o).View() ==
                  if h == g && key != [] && old(LivePin(g, key, now)) == Some(o) then DispatchFailed(b, 10, now) else b
    {
      hide Without, AffinityModel.Get, DispatchFailed;
      if key == [] {
        return;
      }
      if g !in groups {
        return;
      }
      var store := groups[g].selector.store;
      var entry := store.Get(key, now);
      if entry.Some? && entry.value.backend in groups[g].states {
        assert Has(g, entry.value.backend);
        Owned(groups[g].states[entry.value.backend], entry.value.backend);
        groups[g].states[entry.value.backend].RecordDispatchFailure(10, now);
      }
      store.Delete(key);
    }

    /** The backend that a live pin of the key leads to. */
    ghost function LivePin(g: string, key: Key, now: Time): Option<string>
      requires g in groups
      reads groups[g].selector.store
    {
      match AffinityModel.Get(groups[g].selector.store.pins, key, now, groups[g].selector.store.ttl)
      case Some(pin) => Some(pin.backend)
      case None => None
    }
  }
}
