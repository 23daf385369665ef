/**
 The balancer object as a state of the machine: when the object stands for a state, a call that
 nothing interrupts leaves it standing for the state that the machine's own steps lead to.
 */
module BalancerRuns {
  import opened Common
  import opened AffinityModel
  import opened BackendModel
  import opened BackendState
  import opened LoadScore
  import opened SelectorModel
  import opened BalancerSystem
  import opened BalancerRefinement
  import opened SelectionRefinement
  import B = Balancer

  /** The object's groups are those of the configuration. */
  ghost predicate Configured(b: B.Balancer, c: Config) {
    && b.UniqueIds() && b.groups.Keys == c.groups.Keys
    && (forall g :: g in b.groups ==> c.groups[g] == GroupCfg(b.groups[g].unhealthyAfter, b.groups[g].selector.Config()))
    && (forall g, id :: b.Has(g, id) ==> id in c.owner && c.owner[id] == g)
  }

  /** Every backend object shows what the state says of it. */
  ghost predicate Shows(b: B.Balancer, backends: map<string, Backend>)
    reads set g, id | g in b.groups && id in b.groups[g].states :: b.groups[g].states[id]
    reads set g, id | g in b.groups && id in b.groups[g].states :: b.groups[g].states[id].flow
  {
    forall g, id :: b.Has(g, id) ==> id in backends && backends[id] == b.At(g, id).View()
  }

  /** The state has no backend that is not an object of its owning group. */
  ghost predicate Owned(b: B.Balancer, c: Config, ids: set<string>) {
    forall id :: id in ids ==> id in c.owner && b.Has(c.owner[id], id)
  }

  ghost predicate BackendsStand(b: B.Balancer, c: Config, backends: map<string, Backend>)
    reads set g, id | g in b.groups && id in b.groups[g].states :: b.groups[g].states[id]
    reads set g, id | g in b.groups && id in b.groups[g].states :: b.groups[g].states[id].flow
  {
    Shows(b, backends) && Owned(b, c, backends.Keys)
  }

  // ---- Stores ----------------------------------------------------------------------------

  /** A group's pins in a state's map. */
  function PinsOf(pins: map<string, seq<Pin>>, g: string): seq<Pin> {
    if g in pins then pins[g] else []
  }

  /** A group's store is in order, holds the group's pins, and is no part of any backend. */
  ghost predicate StoreStands(b: B.Balancer, g: string, pins: seq<Pin>)
    requires g in b.groups
    reads b.groups[g].selector.store, b.groups[g].selector.store.Repr
  {
    b.StoreReady(g) && b.groups[g].selector.store.pins == pins
  }

  /** So are all, and they share nothing with one another. */
  ghost predicate StoresStand(b: B.Balancer, pins: map<string, seq<Pin>>)
    reads set g | g in b.groups :: b.groups[g].selector.store
    reads set g, o | g in b.groups && o in b.groups[g].selector.store.Repr :: o
  {
    && (forall g :: g in b.groups ==> StoreStands(b, g, PinsOf(pins, g)))
    && (forall g, h :: g in b.groups && h in b.groups && g != h ==>
          b.groups[g].selector.store.Repr !! b.groups[h].selector.store.Repr)
  }

  /** The object stands for backends and pins such as these. */
  ghost predicate Stands(b: B.Balancer, c: Config, backends: map<string, Backend>, pins: map<string, seq<Pin>>)
    reads set g, id | g in b.groups && id in b.groups[g].states :: b.groups[g].states[id]
    reads set g, id | g in b.groups && id in b.groups[g].states :: b.groups[g].states[id].flow
    reads set g | g in b.groups :: b.groups[g].selector.store
    reads set g, o | g in b.groups && o in b.groups[g].selector.store.Repr :: o
  {
    Configured(b, c) && BackendsStand(b, c, backends) && StoresStand(b, pins)
  }

  // ---- CompleteAndDecr -------------------------------------------------------------------

  /** What belongs to a store is no backend object. */
  lemma StoresApart(b: B.Balancer, pins: map<string, seq<Pin>>, g: string)
    requires StoresStand(b, pins) && g in b.groups
    ensures forall o: object :: o in b.groups[g].selector.store.Repr ==> o !in b.StateObjects() && o !in b.FlowObjects()
    ensures b.groups[g].selector.store in b.groups[g].selector.store.Repr
  {
    assert StoreStands(b, g, PinsOf(pins, g));
    forall o: object | o in b.groups[g].selector.store.Repr
      ensures o !in b.StateObjects() && o !in b.FlowObjects()
    {
      if o in b.StateObjects() {
        var h, id :| h in b.groups && id in b.groups[h].states && b.groups[h].states[id] == o;
        assert b.Has(h, id);
      }
      if o in b.FlowObjects() {
        var h, id :| h in b.groups && id in b.groups[h].states && b.groups[h].states[id].flow == o;
        assert b.Has(h, id);
      }
    }
  }

  /** StoresStand under a name of its own, for contracts that only pass it on. */
  ghost predicate StoresFine(b: B.Balancer, pins: map<string, seq<Pin>>)
    reads set g | g in b.groups :: b.groups[g].selector.store
    reads set g, o | g in b.groups && o in b.groups[g].selector.store.Repr :: o
  {
    StoresStand(b, pins)
  }

  /** The state's backends after CompleteAndDecr. */
  function After(backends: map<string, Backend>, id: string, success: bool, timedOut: bool, ttftMs: real, now: Time): map<string, Backend>
    requires id in backends
  {
    backends[id := B.CountedOut(backends[id], success, timedOut, ttftMs, now)]
  }

  method CompleteShown(b: B.Balancer, ghost backends: map<string, Backend>, id: string,
                       success: bool, timedOut: bool, ttftMs: real, now: Time)
    requires b.UniqueIds() && Shows(b, backends) && id in backends
    modifies b.StateObjects(), b.FlowObjects()
    ensures Shows(b, After(backends, id, success, timedOut, ttftMs, now))
  {
    hide B.CountedOut, BackendState.View;
    b.CompleteAndDecr(id, success, timedOut, ttftMs, now);
    forall g, o | b.Has(g, o)
      ensures var after := After(backends, id, success, timedOut, ttftMs, now); o in after && after[o] == b.At(g, o).View()
    {
      assert old(b.At(g, o).View()) == backends[o];
    }
  }

  method CompleteBesideStores(b: B.Balancer, ghost backends: map<string, Backend>, ghost pins: map<string, seq<Pin>>,
                              id: string, success: bool, timedOut: bool, ttftMs: real, now: Time)
    requires b.UniqueIds() && Shows(b, backends) && id in backends && StoresFine(b, pins)
    modifies b.StateObjects(), b.FlowObjects()
    ensures Shows(b, After(backends, id, success, timedOut, ttftMs, now)) && StoresFine(b, pins)
  {
    forall g | g in b.groups
      ensures forall o: object :: o in b.groups[g].selector.store.Repr ==> o !in b.StateObjects() && o !in b.FlowObjects()
      ensures b.groups[g].selector.store in b.groups[g].selector.store.Repr
    {
      StoresApart(b, pins, g);
    }
    hide Shows, After, B.CountedOut, BackendState.View, B.Balancer.UniqueIds, B.Balancer.StateObjects, B.Balancer.FlowObjects;
    CompleteShown(b, backends, id, success, timedOut, ttftMs, now);
    forall g | g in b.groups
      ensures StoreStands(b, g, PinsOf(pins, g))
    {
      assert old(StoreStands(b, g, PinsOf(pins, g)));
    }
  }

  lemma CountOutSteps(c: Config, s: Sys, r: nat, id: string, success: bool, timedOut: bool, ttftMs: real) returns (t: Sys)
    requires r in s.requests && s.requests[r] == Request(id, Sent) && id in s.backends
    ensures t.backends == After(s.backends, id, success, timedOut, ttftMs, s.now) && t.pins == s.pins
    ensures t.backends.Keys == s.backends.Keys
    ensures Steps(c, s, [Complete(r, success, timedOut, ttftMs), Decr(r)] + if timedOut then [] else [RecordOutcome(r)], t)
  {
    t := CompleteAndDecrIsSteps(c, s, r, success, timedOut, ttftMs);
    hide Steps, B.CountedOut;
  }

  /** CompleteAndDecr takes the object from one state to the one its steps lead to. */
  method CountOut(b: B.Balancer, ghost c: Config, ghost s: Sys, ghost r: nat, id: string,
                  success: bool, timedOut: bool, ttftMs: real, now: Time) returns (ghost t: Sys)
    requires Stands(b, c, s.backends, s.pins) && now == s.now
    requires r in s.requests && s.requests[r] == Request(id, Sent) && id in s.backends
    modifies b.StateObjects(), b.FlowObjects()
    ensures Stands(b, c, t.backends, t.pins)
    ensures Steps(c, s, [Complete(r, success, timedOut, ttftMs), Decr(r)] + if timedOut then [] else [RecordOutcome(r)], t)
  {
    hide *;
    t := CountOutSteps(c, s, r, id, success, timedOut, ttftMs);
    StandsParts(b, c, s.backends, s.pins);
    CompleteBesideStores(b, s.backends, s.pins, id, success, timedOut, ttftMs, now);
    PartsStand(b, c, t.backends, t.pins);
  }

  lemma StandsParts(b: B.Balancer, c: Config, backends: map<string, Backend>, pins: map<string, seq<Pin>>)
    requires Stands(b, c, backends, pins)
    ensures Configured(b, c) && b.UniqueIds() && Shows(b, backends) && Owned(b, c, backends.Keys) && StoresFine(b, pins)
    ensures BackendsStand(b, c, backends) && StoresStand(b, pins)
  {
    hide Shows, Owned, StoresStand;
  }

  lemma PartsStand(b: B.Balancer, c: Config, backends: map<string, Backend>, pins: map<string, seq<Pin>>)
    requires Configured(b, c) && Shows(b, backends) && Owned(b, c, backends.Keys) && StoresFine(b, pins)
    ensures Stands(b, c, backends, pins)
  {
    hide Shows, Owned, StoresStand, Configured;
  }

  // ---- Select ----------------------------------------------------------------------------

  lemma NamesStand(b: B.Balancer, c: Config, s: Sys)
    requires Configured(b, c) && BackendsStand(b, c, s.backends)
    ensures Named(s)
  {
    forall id | id in s.backends
      ensures s.backends[id].id == id
    {
      assert b.Has(c.owner[id], id);
    }
  }

  /** The pool's objects show what the machine sees. */
  lemma ViewsStand(b: B.Balancer, s: Sys, g: string, order: seq<string>)
    requires Shows(b, s.backends) && b.AllMembers(g, order)
    ensures Known(s, order) && PoolViews(s, order) == Views(b.PoolOf(g, order))
  {
    forall i | 0 <= i < |order|
      ensures order[i] in s.backends && s.backends[order[i]] == b.PoolOf(g, order)[i].View()
    {
      assert b.Has(g, order[i]);
    }
    ViewsAre(b.PoolOf(g, order), PoolViews(s, order));
  }

  /** The members of a group, seen from the object. */
  lemma MembersStand(b: B.Balancer, c: Config, s: Sys, g: string, id: string)
    requires Configured(b, c) && BackendsStand(b, c, s.backends) && g in b.groups
    ensures id in Members(c, s, g) <==> id in b.groups[g].states
    ensures id in Members(c, s, g) ==> s.backends[id] == b.groups[g].states[id].View()
  {
    assert b.Has(g, id) <==> id in b.groups[g].states;
    if id in Members(c, s, g) {
      assert b.Has(c.owner[id], id);
    }
  }

  /** What the object collects as its pool is a pool in the machine's sense. */
  lemma PoolStands(b: B.Balancer, c: Config, s: Sys, g: string, order: seq<string>)
    requires Configured(b, c) && BackendsStand(b, c, s.backends) && g in b.groups
    requires b.PoolIds(g, order) && b.AllMembers(g, order)
    ensures IsPool(c, s, g, order)
  {
    forall id
      ensures id in Members(c, s, g) <==> id in b.groups[g].states
      ensures id in Members(c, s, g) ==> s.backends[id] == b.groups[g].states[id].View()
    {
      MembersStand(b, c, s, g, id);
    }
    hide Members, BackendsStand, Configured, BackendState.View;
    forall i | 0 <= i < |order|
      ensures order[i] in s.backends
    {
      MembersAre(c, s, g, order[i]);
    }
    var healthy := set id | id in Members(c, s, g) && s.backends[id].healthy;
    if exists id :: id in b.groups[g].states && b.groups[g].states[id].View().healthy {
      var id :| id in b.groups[g].states && b.groups[g].states[id].View().healthy;
      assert id in healthy;
    } else {
      assert healthy == {};
    }
    assert forall id :: id in order <==> id in PoolSet(c, s, g);
  }

  lemma MembersAre(c: Config, s: Sys, g: string, id: string)
    requires id in Members(c, s, g)
    ensures id in s.backends
  {
  }

  /** The group's store and settings, seen from the state. */
  lemma GroupStands(b: B.Balancer, c: Config, s: Sys, g: string)
    requires Configured(b, c) && StoresStand(b, s.pins) && g in b.groups
    ensures g in c.groups && c.groups[g].policy == b.groups[g].selector.Config()
    ensures PinsIn(s, g) == b.groups[g].selector.store.pins
    ensures forall override :: StaleFor(c.groups[g].policy, override) == b.groups[g].selector.Stale(override)
  {
    assert StoreStands(b, g, PinsIn(s, g));
  }

  /** Select changes no backend object. */
  method SelectBeside(b: B.Balancer, g: string, key: Key, override: Time, now: Time)
    returns (out: B.Selection, ghost order: seq<string>)
    requires b.UniqueIds() && g in b.groups && b.StoreReady(g)
    modifies b.groups[g].selector.store.Repr
    ensures b.StoreReady(g) && fresh(b.groups[g].selector.store.Repr - old(b.groups[g].selector.store.Repr))
    ensures forall h, o :: b.Has(h, o) ==> b.At(h, o).View() == old(b.At(h, o).View())
    ensures !out.UnknownGroup? && (out.NoHealthyBackend? ==> b.groups[g].selector.store.pins == old(b.groups[g].selector.store.pins))
    ensures out.Picked? ==> b.AllMembers(g, order) && old(b.PoolIds(g, order)) && |order| > 0 && out.backend in b.PoolOf(g, order)
    ensures out.Picked? ==>
              var sel, views, before := b.groups[g].selector, old(Views(b.PoolOf(g, order))), old(b.groups[g].selector.store.pins);
              && old(out.backend.View()) == Chosen(views, before, key, sel.Config(), sel.Stale(override), now)
              && sel.store.pins == PinsAfter(views, before, key, sel.Config(), sel.Stale(override), now)
  {
    hide Views, Chosen, PinsAfter, BackendState.View, B.Balancer.PoolIds, B.Balancer.UniqueIds;
    out, order := b.Select(g, key, override, now);
  }

  /** What Select has returned and left in the store: the model's choice from the pool, and its pins. */
  ghost predicate Selected(b: B.Balancer, g: string, key: Key, override: Time, now: Time, before: seq<Pin>,
                           out: B.Selection, order: seq<string>)
    requires g in b.groups
    reads set id | id in b.groups[g].states :: b.groups[g].states[id]
    reads set id | id in b.groups[g].states :: b.groups[g].states[id].flow
    reads b.groups[g].selector.store
  {
    var sel := b.groups[g].selector;
    match out
    case UnknownGroup => false
    case NoHealthyBackend => sel.store.pins == before
    case Picked(st) =>
      && b.AllMembers(g, order) && b.PoolIds(g, order) && |order| > 0
      && (assert forall x :: x in b.PoolOf(g, order) ==> exists id :: id in b.groups[g].states && b.groups[g].states[id] == x;
          var views := Views(b.PoolOf(g, order));
          && st.id == Chosen(views, before, key, sel.Config(), sel.Stale(override), now).id
          && sel.store.pins == PinsAfter(views, before, key, sel.Config(), sel.Stale(override), now))
  }

  lemma ViewHasId(st: BackendState)
    ensures st.View().id == st.id
  {
  }

  /** So the object shows the same backends, and the outcome is the model's. */
  method SelectShown(b: B.Balancer, ghost backends: map<string, Backend>, g: string, key: Key, override: Time, now: Time)
    returns (out: B.Selection, ghost order: seq<string>)
    requires b.UniqueIds() && Shows(b, backends) && g in b.groups && b.StoreReady(g)
    modifies b.groups[g].selector.store.Repr
    ensures Shows(b, backends) && b.StoreReady(g)
    ensures fresh(b.groups[g].selector.store.Repr - old(b.groups[g].selector.store.Repr))
    ensures Selected(b, g, key, override, now, old(b.groups[g].selector.store.pins), out, order)
  {
    hide Chosen, PinsAfter, BackendState.View, B.Balancer.UniqueIds, Views;
    out, order := SelectBeside(b, g, key, override, now);
    forall h, o | b.Has(h, o)
      ensures o in backends && backends[o] == b.At(h, o).View()
    {
      assert old(b.At(h, o).View()) == backends[o];
    }
    if out.Picked? {
      ghost var pool := b.PoolOf(g, order);
      forall x: BackendState | x in pool
        ensures x !in old(b.groups[g].selector.store.Repr) && x.flow !in old(b.groups[g].selector.store.Repr)
        ensures x.View() == old(x.View())
      {
        var i :| 0 <= i < |pool| && pool[i] == x;
        assert b.Has(g, order[i]);
      }
      assert Views(pool) == old(Views(pool));
      ViewHasId(out.backend);
      forall id | id in b.groups[g].states
        ensures b.groups[g].states[id] !in old(b.groups[g].selector.store.Repr)
        ensures b.groups[g].states[id].flow !in old(b.groups[g].selector.store.Repr)
      {
        assert b.Has(g, id);
      }
    }
  }

  /** The other groups' stores stay as they are, and apart from this one. */
  method SelectBesideStores(b: B.Balancer, ghost backends: map<string, Backend>, ghost pins: map<string, seq<Pin>>,
                            g: string, key: Key, override: Time, now: Time)
    returns (out: B.Selection, ghost order: seq<string>, ghost after: seq<Pin>)
    requires b.UniqueIds() && Shows(b, backends) && g in b.groups && StoresFine(b, pins)
    modifies b.groups[g].selector.store.Repr
    ensures Shows(b, backends) && StoresFine(b, pins[g := after]) && after == b.groups[g].selector.store.pins
    ensures Selected(b, g, key, override, now, PinsOf(pins, g), out, order)
  {
    StoresInside(b, pins);
    hide Shows, Selected, B.Balancer.UniqueIds, B.Balancer.StoreReady, StoreStands, BackendState.View, PinsOf;
    out, order := SelectShown(b, backends, g, key, override, now);
    after := b.groups[g].selector.store.pins;
    forall h | h in b.groups
      ensures StoreStands(b, h, PinsOf(pins[g := after], h))
      ensures h != g ==> b.groups[h].selector.store.Repr == old(b.groups[h].selector.store.Repr)
    {
      if h == g {
        ReadyStands(b, g, pins);
      } else {
        OtherPins(pins, g, after, h);
        assert old(StoreStands(b, h, PinsOf(pins, h)));
      }
    }
    StoresAgain(b, pins[g := after]);
  }

  lemma OtherPins(pins: map<string, seq<Pin>>, g: string, after: seq<Pin>, h: string)
    requires h != g
    ensures PinsOf(pins[g := after], h) == PinsOf(pins, h)
  {
  }

  lemma ReadyStands(b: B.Balancer, g: string, pins: map<string, seq<Pin>>)
    requires g in b.groups && b.StoreReady(g)
    ensures var after := b.groups[g].selector.store.pins; StoreStands(b, g, PinsOf(pins[g := after], g))
  {
  }

  lemma StoresInside(b: B.Balancer, pins: map<string, seq<Pin>>)
    requires StoresFine(b, pins)
    ensures forall h :: h in b.groups ==>
              StoreStands(b, h, PinsOf(pins, h)) && b.StoreReady(h) && b.groups[h].selector.store in b.groups[h].selector.store.Repr
    ensures forall g, h :: g in b.groups && h in b.groups && g != h ==>
              b.groups[g].selector.store.Repr !! b.groups[h].selector.store.Repr
  {
    forall h | h in b.groups
      ensures StoreStands(b, h, PinsOf(pins, h)) && b.StoreReady(h) && b.groups[h].selector.store in b.groups[h].selector.store.Repr
    {
      assert StoreStands(b, h, PinsOf(pins, h));
    }
  }

  lemma StoresAgain(b: B.Balancer, pins: map<string, seq<Pin>>)
    requires forall h :: h in b.groups ==> StoreStands(b, h, PinsOf(pins, h))
    requires forall g, h :: g in b.groups && h in b.groups && g != h ==>
               b.groups[g].selector.store.Repr !! b.groups[h].selector.store.Repr
    ensures StoresFine(b, pins)
  {
    hide StoreStands;
  }

  lemma SameStores(b: B.Balancer, pins: map<string, seq<Pin>>, pins2: map<string, seq<Pin>>)
    requires StoresFine(b, pins)
    requires forall g :: g in b.groups ==> PinsOf(pins, g) == PinsOf(pins2, g)
    ensures StoresFine(b, pins2)
  {
    forall g | g in b.groups
      ensures StoreStands(b, g, PinsOf(pins2, g))
    {
      assert StoreStands(b, g, PinsOf(pins, g));
    }
  }

  /** The machine's steps, once it is known what the object has returned. */
  lemma SelectionStands(b: B.Balancer, c: Config, s: Sys, r: nat, g: string, key: Key, override: Time,
                        out: B.Selection, order: seq<string>)
    returns (t: Sys, acts: seq<Action>)
    requires Configured(b, c) && BackendsStand(b, c, s.backends) && g in b.groups && r !in s.selections && r !in s.requests
    requires g in c.groups && c.groups[g].policy == b.groups[g].selector.Config()
    requires out.Picked? && Selected(b, g, key, override, s.now, PinsIn(s, g), out, order)
    ensures Steps(c, s, acts, t) && t.backends == s.backends
    ensures t.requests == s.requests[r := Request(out.backend.id, BalancerSystem.Selected)]
    ensures forall h :: PinsIn(t, h) == if h == g then b.groups[g].selector.store.pins else PinsIn(s, h)
  {
    NamesStand(b, c, s);
    PoolStands(b, c, s, g, order);
    ViewsStand(b, s, g, order);
    PoolIsSomeMembers(c, s, g, order);
    var n;
    t, n := SelectIsSteps(c, s, r, g, key, order, override);
    acts := SelectionSteps(r, g, key, order, override, n, Verdict(c, s, Selecting(g, key, order, override, Started)));
    hide Configured, BackendsStand, Shows, Owned, Steps, Chosen, PinsAfter, Views, PoolViews, IsPool, SomeMembers, B.Balancer.PoolIds, B.Balancer.UniqueIds, SelectionSteps, Verdict, Named, Members;
  }

  /** Select takes the object from one state to the one its steps lead to; an empty group changes nothing. */
  method Choose(b: B.Balancer, ghost c: Config, ghost s: Sys, ghost r: nat, g: string, key: Key, override: Time, now: Time)
    returns (out: B.Selection, ghost t: Sys, ghost acts: seq<Action>)
    requires Stands(b, c, s.backends, s.pins) && now == s.now && g in b.groups && r !in s.selections && r !in s.requests
    modifies b.groups[g].selector.store.Repr
    ensures Stands(b, c, t.backends, t.pins) && Steps(c, s, acts, t)
    ensures out.Picked? ==> t.requests == s.requests[r := Request(out.backend.id, BalancerSystem.Selected)]
    ensures !out.Picked? ==> out.NoHealthyBackend? && t == s
  {
    StandsParts(b, c, s.backends, s.pins);
    assert StoresStand(b, s.pins);
    GroupStands(b, c, s, g);
    hide *;
    ghost var order, after;
    out, order, after := SelectBesideStores(b, s.backends, s.pins, g, key, override, now);
    PartsShow(b, c, s.backends);
    if out.Picked? {
      t, acts := SelectionStands(b, c, s, r, g, key, override, out, order);
      PinsFollow(b, s, t, g, after);
      SameStores(b, s.pins[g := after], t.pins);
    } else {
      t, acts := s, [];
      NothingSelected(b, s, g, key, override, now, out, order, after);
      SameStores(b, s.pins[g := after], s.pins);
      NoSteps(c, s);
    }
    PartsStand(b, c, t.backends, t.pins);
  }

  lemma PartsShow(b: B.Balancer, c: Config, backends: map<string, Backend>)
    requires Shows(b, backends) && Owned(b, c, backends.Keys)
    ensures BackendsStand(b, c, backends)
  {
    hide Shows, Owned;
  }

  lemma PinsFollow(b: B.Balancer, s: Sys, t: Sys, g: string, after: seq<Pin>)
    requires g in b.groups
    requires forall h :: PinsIn(t, h) == if h == g then after else PinsIn(s, h)
    ensures forall h :: h in b.groups ==> PinsOf(s.pins[g := after], h) == PinsOf(t.pins, h)
  {
    forall h | h in b.groups
      ensures PinsOf(s.pins[g := after], h) == PinsOf(t.pins, h)
    {
      assert PinsIn(t, h) == if h == g then after else PinsIn(s, h);
    }
  }

  lemma NothingSelected(b: B.Balancer, s: Sys, g: string, key: Key, override: Time, now: Time,
                        out: B.Selection, order: seq<string>, after: seq<Pin>)
    requires g in b.groups && !out.Picked? && after == b.groups[g].selector.store.pins
    requires Selected(b, g, key, override, now, PinsOf(s.pins, g), out, order)
    ensures out.NoHealthyBackend?
    ensures forall h :: h in b.groups ==> PinsOf(s.pins[g := after], h) == PinsOf(s.pins, h)
  {
  }

  lemma NoSteps(c: Config, s: Sys)
    ensures Steps(c, s, [], s)
  {
  }

  /** The backend that the object's InvalidatePin marks is the one that the machine's steps mark. */
  lemma InvalidationStands(b: B.Balancer, c: Config, s: Sys, g: string, key: Key)
    requires Stands(b, c, s.backends, s.pins) && g in b.groups && g in c.groups
    ensures Marked(c, s, g, key) == PinnedMember(b, g, key, s.now)
  {
    hide Shows, Owned, StoresStand, BackendsStand, Configured, Members, AffinityModel.Get, PinsIn;
    StandsParts(b, c, s.backends, s.pins);
    GroupStands(b, c, s, g);
    if Marked(c, s, g, key).Some? {
      MembersStand(b, c, s, g, Marked(c, s, g, key).value);
    }
    if PinnedMember(b, g, key, s.now).Some? {
      MembersStand(b, c, s, g, PinnedMember(b, g, key, s.now).value);
    }
  }

  /** The state's backends after the marked one, if any, has been given its cooldown. */
  function MarkedIn(backends: map<string, Backend>, id: Option<string>, now: Time): map<string, Backend>
    requires id.Some? ==> id.value in backends
  {
    match id
    case Some(x) => backends[x := DispatchFailed(backends[x], 10, now)]
    case None => backends
  }

  /** The member of the group that a live pin of the key leads to. */
  ghost function PinnedMember(b: B.Balancer, g: string, key: Key, now: Time): Option<string>
    requires g in b.groups
    reads b.groups[g].selector.store
  {
    match b.LivePin(g, key, now)
    case Some(id) => if id in b.groups[g].states then Some(id) else None
    case None => None
  }

  /** InvalidatePin marks that member's object and unpins the key. */
  method InvalidateShown(b: B.Balancer, ghost backends: map<string, Backend>, g: string, key: Key, now: Time)
    requires b.UniqueIds() && Shows(b, backends) && g in b.groups && b.StoreReady(g) && key != []
    requires PinnedMember(b, g, key, now).Some? ==> PinnedMember(b, g, key, now).value in backends
    modifies b.StateObjects(), b.groups[g].selector.store.Repr
    ensures Shows(b, MarkedIn(backends, old(PinnedMember(b, g, key, now)), now)) && b.StoreReady(g)
    ensures b.groups[g].selector.store.Repr == old(b.groups[g].selector.store.Repr)
    ensures b.groups[g].selector.store.pins == Without(old(b.groups[g].selector.store.pins), key)
  {
    hide BackendState.View, DispatchFailed, Without, AffinityModel.Get, B.Balancer.LivePin;
    ghost var member := PinnedMember(b, g, key, now);
    ghost var live := b.LivePin(g, key, now);
    b.InvalidatePin(g, key, now);
    forall h, o | b.Has(h, o)
      ensures o in MarkedIn(backends, member, now) && MarkedIn(backends, member, now)[o] == b.At(h, o).View()
    {
      assert old(b.At(h, o).View()) == backends[o];
      if member == Some(o) {
        assert b.Has(g, o) && h == g;
      }
    }
  }

  method InvalidateBesideStores(b: B.Balancer, ghost backends: map<string, Backend>, ghost pins: map<string, seq<Pin>>,
                                g: string, key: Key, now: Time)
    requires b.UniqueIds() && Shows(b, backends) && g in b.groups && StoresFine(b, pins) && key != []
    requires PinnedMember(b, g, key, now).Some? ==> PinnedMember(b, g, key, now).value in backends
    modifies b.StateObjects(), b.groups[g].selector.store.Repr
    ensures Shows(b, MarkedIn(backends, old(PinnedMember(b, g, key, now)), now))
    ensures StoresFine(b, pins[g := Without(PinsOf(pins, g), key)])
  {
    StoresInside(b, pins);
    StoreHolds(b, g, pins);
    forall h | h in b.groups
      ensures forall o: object :: o in b.groups[h].selector.store.Repr ==> o !in b.StateObjects()
    {
      StoresApart(b, pins, h);
    }
    hide Shows, MarkedIn, PinnedMember, B.Balancer.UniqueIds, B.Balancer.StateObjects, B.Balancer.StoreReady, StoreStands, BackendState.View, PinsOf, Without;
    InvalidateShown(b, backends, g, key, now);
    ghost var after := Without(PinsOf(pins, g), key);
    forall h | h in b.groups
      ensures StoreStands(b, h, PinsOf(pins[g := after], h))
      ensures b.groups[h].selector.store.Repr == old(b.groups[h].selector.store.Repr)
    {
      if h == g {
        ReadyStands(b, g, pins);
      } else {
        OtherPins(pins, g, after, h);
        assert old(StoreStands(b, h, PinsOf(pins, h)));
      }
    }
    StoresAgain(b, pins[g := after]);
  }

  lemma StoreHolds(b: B.Balancer, g: string, pins: map<string, seq<Pin>>)
    requires g in b.groups && StoreStands(b, g, PinsOf(pins, g))
    ensures b.groups[g].selector.store.pins == PinsOf(pins, g)
  {
  }

  /** The machine's steps, seen from the object before the call. */
  lemma InvalidationSteps(b: B.Balancer, c: Config, s: Sys, n: nat, g: string, key: Key) returns (t: Sys, member: Option<string>)
    requires Stands(b, c, s.backends, s.pins) && g in b.groups && key != [] && n !in s.calls
    ensures member == PinnedMember(b, g, key, s.now) && (member.Some? ==> member.value in s.backends)
    ensures Steps(c, s, [InvalidateGet(n, g, key), InvalidateMark(n), InvalidateDelete(n)], t)
    ensures t.backends == MarkedIn(s.backends, member, s.now) && t.pins == s.pins[g := Without(PinsOf(s.pins, g), key)]
    ensures t.backends.Keys == s.backends.Keys
  {
    GroupIsConfigured(b, c, s, g);
    InvalidationStands(b, c, s, g, key);
    MarkedIsKnown(c, s, g, key);
    hide Stands, Steps, Marked, PinnedMember, Without, DispatchFailed;
    member := PinnedMember(b, g, key, s.now);
    t := InvalidatePinIsSteps(c, s, n, g, key);
  }

  lemma GroupIsConfigured(b: B.Balancer, c: Config, s: Sys, g: string)
    requires Stands(b, c, s.backends, s.pins) && g in b.groups
    ensures g in c.groups
  {
    hide BackendsStand, StoresStand;
  }

  /** InvalidatePin takes the object from one state to the one its steps lead to. */
  method Invalidate(b: B.Balancer, ghost c: Config, ghost s: Sys, ghost n: nat, g: string, key: Key, now: Time)
    returns (ghost t: Sys)
    requires Stands(b, c, s.backends, s.pins) && now == s.now && g in b.groups && key != [] && n !in s.calls
    modifies b.StateObjects(), b.groups[g].selector.store.Repr
    ensures Stands(b, c, t.backends, t.pins)
    ensures Steps(c, s, [InvalidateGet(n, g, key), InvalidateMark(n), InvalidateDelete(n)], t)
  {
    hide *;
    StandsParts(b, c, s.backends, s.pins);
    ghost var member;
    t, member := InvalidationSteps(b, c, s, n, g, key);
    InvalidateBesideStores(b, s.backends, s.pins, g, key, now);
    PartsStand(b, c, t.backends, t.pins);
  }

  lemma MarkedIsKnown(c: Config, s: Sys, g: string, key: Key)
    requires g in c.groups
    ensures Marked(c, s, g, key).Some? ==> Marked(c, s, g, key).value in s.backends
  {
    hide AffinityModel.Get;
  }
}
