/**
 * `InstantiationService`: a chain of scopes, each with its own registry, that
 * resolves descriptors into instances on demand.
 *
 * The mutable container objects become a `World` that every operation takes
 * and returns: the scopes (registry, parent, strict flag), the dependency
 * side table, the log of constructor calls, and the cells of deferred
 * services. A scope's parent always has a smaller index, which orders the
 * mutual recursion of the resolution methods.
 */
module Engine {
  import opened Wrappers
  import opened Values
  import opened Metadata
  import Collection
  import opened Graph
  import Idle

  /** The identifier under which every container registers itself. */
  const IInstantiationService: ServiceId := ServiceId("instantiationService")

  /** One container: its registry, its parent container and its strict flag. */
  datatype Scope = Scope(services: Collection.ServiceCollection, parent: Option<nat>, strict: bool)

  /** One `new ctor(...args)` the container performed; the i-th one produced `Object(i)`. */
  datatype Construction = Construction(ctor: Ctor, args: seq<Value>)

  /**
   * A service built on first use: its idle cell and the builder the cell
   * runs, `_createInstance(ctor, args)` in scope `scope`.
   */
  datatype Deferred = Deferred(cell: Idle.IdleService, scope: nat, ctor: Ctor, args: seq<Value>)

  datatype World = World(scopes: seq<Scope>, meta: Table, built: seq<Construction>, deferred: seq<Deferred>)

  /** Parents come first. */
  ghost predicate ChainWF(sc: seq<Scope>)
  {
    forall i | 0 <= i < |sc| && sc[i].parent.Some? :: sc[i].parent.value < i
  }

  ghost predicate WF(w: World)
  {
    && ChainWF(w.scopes)
    && (forall i | 0 <= i < |w.deferred| :: w.deferred[i].scope < |w.scopes| && Idle.Valid(w.deferred[i].cell))
  }

  // ---------------------------------------------------------------------
  // Reading the chain
  // ---------------------------------------------------------------------

  /** What scope `s`'s own registry holds for `id`. */
  function Own(sc: seq<Scope>, s: nat, id: ServiceId): Entry
  {
    if s < |sc| then Collection.Get(sc[s].services, id) else Miss
  }

  /** The parent of `s`, when it exists and comes before `s`. */
  function ParentOf(sc: seq<Scope>, s: nat): Option<nat>
  {
    if s < |sc| && sc[s].parent.Some? && sc[s].parent.value < s then sc[s].parent else None
  }

  /**
   * `_getService`: the own entry if it is truthy, otherwise what the parent
   * sees, otherwise the own (falsy) entry.
   */
  function GetService(sc: seq<Scope>, s: nat, id: ServiceId): (e: Entry)
    decreases s
  {
    var own := Own(sc, s, id);
    if !EntryTruthy(own) && ParentOf(sc, s).Some? then GetService(sc, ParentOf(sc, s).value, id)
    else own
  }

  /**
   * `t` is `s` or an ancestor of `s`, and every scope from `s` up to but
   * excluding `t` holds a falsy entry for `id`.
   */
  ghost predicate FalsyBelow(sc: seq<Scope>, s: nat, t: nat, id: ServiceId)
    decreases s
  {
    s < |sc| &&
    (s == t || (!EntryTruthy(Own(sc, s, id)) && ParentOf(sc, s).Some? && FalsyBelow(sc, ParentOf(sc, s).value, t, id)))
  }

  /** `t` is `s` or an ancestor of `s`. */
  ghost predicate Reaches(sc: seq<Scope>, s: nat, t: nat)
    decreases s
  {
    s < |sc| && (s == t || (ParentOf(sc, s).Some? && Reaches(sc, ParentOf(sc, s).value, t)))
  }

  /**
   * `s` or one of its ancestors is strict. A resolution started in `s` runs
   * builds in the owners of the descriptors it meets, which are `s` or its
   * ancestors, and each build applies its own scope's flag.
   */
  ghost predicate StrictAbove(sc: seq<Scope>, s: nat)
    decreases s
  {
    s < |sc| && (sc[s].strict || (ParentOf(sc, s).Some? && StrictAbove(sc, ParentOf(sc, s).value)))
  }

  /** A strict scope above an ancestor is also above the descendant. */
  lemma {:induction false} ReachesStrict(sc: seq<Scope>, s: nat, t: nat)
    requires Reaches(sc, s, t) && StrictAbove(sc, t)
    ensures StrictAbove(sc, s)
    decreases s
  {
    if s != t {
      ReachesStrict(sc, ParentOf(sc, s).value, t);
    }
  }

  /** Strictness up the chain depends on the parents and flags only. */
  lemma {:induction false} StrictAboveShape(sc: seq<Scope>, sc': seq<Scope>, s: nat)
    requires SameShape(sc, sc')
    ensures StrictAbove(sc', s) == StrictAbove(sc, s)
    decreases s
  {
    assert ParentOf(sc', s) == ParentOf(sc, s);
    if ParentOf(sc, s).Some? {
      StrictAboveShape(sc, sc', ParentOf(sc, s).value);
    }
  }

  /** The lookup of `_getService` is the first scope up the chain with a truthy entry, or the root. */
  lemma {:induction false} LookupIsFirstTruthy(sc: seq<Scope>, s: nat, id: ServiceId) returns (t: nat)
    requires s < |sc|
    ensures FalsyBelow(sc, s, t, id) && t <= s
    ensures EntryTruthy(Own(sc, t, id)) || ParentOf(sc, t).None?
    ensures GetService(sc, s, id) == Own(sc, t, id)
    decreases s
  {
    if EntryTruthy(Own(sc, s, id)) || ParentOf(sc, s).None? {
      t := s;
    } else {
      t := LookupIsFirstTruthy(sc, ParentOf(sc, s).value, id);
    }
  }

  /** Across a run of falsy entries the lookup is the same as at the top of the run. */
  lemma {:induction false} FalsyBelowSameLookup(sc: seq<Scope>, s: nat, t: nat, id: ServiceId)
    requires FalsyBelow(sc, s, t, id)
    ensures GetService(sc, s, id) == GetService(sc, t, id) && t <= s
    decreases s
  {
    if s != t {
      FalsyBelowSameLookup(sc, ParentOf(sc, s).value, t, id);
    }
  }

  /**
   * The walk of `_createServiceWithOwner`: the first scope up the chain whose
   * own registry holds a descriptor for `id`, whatever the scopes below hold.
   */
  function Owner(sc: seq<Scope>, s: nat, id: ServiceId): (o: Option<nat>)
    ensures o.Some? ==> o.value <= s && o.value < |sc| && Own(sc, o.value, id).Descriptor?
    ensures o.Some? ==> Reaches(sc, s, o.value)
    ensures s < |sc| && Own(sc, s, id).Descriptor? ==> o == Some(s)
    ensures GetService(sc, s, id).Descriptor? ==> o.Some?
    decreases s
  {
    if s >= |sc| then None
    else if Own(sc, s, id).Descriptor? then Some(s)
    else if ParentOf(sc, s).Some? then Owner(sc, ParentOf(sc, s).value, id)
    else None
  }

  /**
   * A descriptor seen from `s` has an owner, the owner's own entry is that
   * descriptor, and every scope between them holds a falsy entry.
   */
  lemma {:induction false} DescriptorHasOwner(sc: seq<Scope>, s: nat, id: ServiceId)
    requires GetService(sc, s, id).Descriptor?
    ensures Owner(sc, s, id).Some?
    ensures Own(sc, Owner(sc, s, id).value, id) == GetService(sc, s, id)
    ensures FalsyBelow(sc, s, Owner(sc, s, id).value, id)
    decreases s
  {
    if !EntryTruthy(Own(sc, s, id)) && ParentOf(sc, s).Some? {
      DescriptorHasOwner(sc, ParentOf(sc, s).value, id);
    }
  }

  // ---------------------------------------------------------------------
  // Writing the chain
  // ---------------------------------------------------------------------

  /** The chain after `set(id, e)` on scope `x`'s registry. */
  function WriteAt(sc: seq<Scope>, x: nat, id: ServiceId, e: Entry): (sc': seq<Scope>)
    requires x < |sc|
    ensures |sc'| == |sc|
    ensures forall i | 0 <= i < |sc| :: sc'[i].parent == sc[i].parent && sc'[i].strict == sc[i].strict
    ensures Own(sc', x, id) == e
    ensures forall i, k | 0 <= i < |sc| && (i != x || k != id) :: Own(sc', i, k) == Own(sc, i, k)
  {
    sc[x := sc[x].(services := Collection.Set(sc[x].services, id, e).0)]
  }

  /** Same scopes with the same parents and strict flags. */
  ghost predicate SameShape(sc: seq<Scope>, sc': seq<Scope>)
  {
    |sc'| == |sc| && forall i | 0 <= i < |sc| :: sc'[i].parent == sc[i].parent && sc'[i].strict == sc[i].strict
  }

  /** Every own entry is unchanged, or was a descriptor and now holds a built instance. */
  ghost predicate OwnStep(sc: seq<Scope>, sc': seq<Scope>)
  {
    forall s, id | 0 <= s < |sc| :: Own(sc', s, id) == Own(sc, s, id) || (Own(sc, s, id).Descriptor? && IsBuilt(Own(sc', s, id)))
  }

  /** Every lookup is unchanged, or saw a descriptor and now sees a built instance. */
  ghost predicate ViewStep(sc: seq<Scope>, sc': seq<Scope>)
  {
    forall s, id | 0 <= s < |sc| ::
      GetService(sc', s, id) == GetService(sc, s, id) || (GetService(sc, s, id).Descriptor? && IsBuilt(GetService(sc', s, id)))
  }

  lemma {:induction false} OwnStepLookup(sc: seq<Scope>, sc': seq<Scope>, s: nat, id: ServiceId)
    requires SameShape(sc, sc') && OwnStep(sc, sc') && s < |sc|
    ensures GetService(sc', s, id) == GetService(sc, s, id) || (GetService(sc, s, id).Descriptor? && IsBuilt(GetService(sc', s, id)))
    decreases s
  {
    assert ParentOf(sc', s) == ParentOf(sc, s);
    var own, own' := Own(sc, s, id), Own(sc', s, id);
    if own' != own {
      assert own.Descriptor? && IsBuilt(own');
    } else if !EntryTruthy(own) && ParentOf(sc, s).Some? {
      OwnStepLookup(sc, sc', ParentOf(sc, s).value, id);
    }
  }

  /** Replacing descriptors by built instances in registries does the same to every lookup. */
  lemma OwnStepGivesViewStep(sc: seq<Scope>, sc': seq<Scope>)
    requires SameShape(sc, sc') && OwnStep(sc, sc')
    ensures ViewStep(sc, sc')
  {
    forall s, id | 0 <= s < |sc|
      ensures GetService(sc', s, id) == GetService(sc, s, id) || (GetService(sc, s, id).Descriptor? && IsBuilt(GetService(sc', s, id)))
    {
      OwnStepLookup(sc, sc', s, id);
    }
  }

  /** A run of falsy entries survives an own step: falsy entries are not descriptors, so they stay. */
  lemma {:induction false} FalsyBelowStable(sc: seq<Scope>, sc': seq<Scope>, s: nat, t: nat, id: ServiceId)
    requires SameShape(sc, sc') && OwnStep(sc, sc') && FalsyBelow(sc, s, t, id)
    ensures FalsyBelow(sc', s, t, id)
    decreases s
  {
    assert ParentOf(sc', s) == ParentOf(sc, s);
    if s != t {
      FalsyBelowStable(sc, sc', ParentOf(sc, s).value, t, id);
    }
  }

  /**
   * The world `w'` grew from `w`: same scopes, table and flags, the build
   * log and the cells only extended, and descriptors only replaced by built
   * instances. The cells themselves may have moved on.
   */
  ghost predicate Advances(w: World, w': World)
  {
    && SameShape(w.scopes, w'.scopes)
    && w'.meta == w.meta
    && w.built <= w'.built
    && |w.deferred| <= |w'.deferred|
    && OwnStep(w.scopes, w'.scopes)
    && ViewStep(w.scopes, w'.scopes)
  }

  /** The own entry of `t` for `k` held a descriptor and now holds something else. */
  ghost predicate Swapped(sc: seq<Scope>, sc': seq<Scope>, t: nat, k: ServiceId)
  {
    Own(sc, t, k).Descriptor? && Own(sc', t, k) != Own(sc, t, k)
  }

  /**
   * `e` was made from descriptor `d` in scope `t`: an object whose logged
   * constructor call is `d`'s constructor and static arguments wired in `t`,
   * or, for a delayed descriptor, a proxy over a cell that has not run yet
   * and whose builder is that call.
   */
  ghost predicate MadeFrom(w: World, t: nat, d: SyncDescriptor, e: Entry)
  {
    && t < |w.scopes| && e.Instance?
    && if d.supportsDelayedInstantiation then
         && e.value.Proxy? && e.value.cell < |w.deferred|
         && w.deferred[e.value.cell] == Deferred(Idle.Construct(), t, d.ctor, d.staticArguments)
       else
         && e.value.Object? && e.value.addr < |w.built|
         && Wired(w, t, d.ctor, d.staticArguments, w.built[e.value.addr])
  }

  /** `e` did not exist in `w`: an object logged after it, or a proxy over a cell added after it. */
  ghost predicate New(w: World, e: Entry)
  {
    && e.Instance?
    && (e.value.Object? ==> e.value.addr >= |w.built|)
    && (e.value.Proxy? ==> e.value.cell >= |w.deferred|)
  }

  /**
   * Every descriptor `w'` replaced was replaced by something new, made from
   * it in the scope that held it.
   */
  ghost predicate Faithful(w: World, w': World)
  {
    forall t, k {:trigger Swapped(w.scopes, w'.scopes, t, k)} | 0 <= t < |w.scopes| && Swapped(w.scopes, w'.scopes, t, k) ::
      MadeFrom(w', t, Own(w.scopes, t, k).desc, Own(w'.scopes, t, k)) && New(w, Own(w'.scopes, t, k))
  }

  /**
   * What resolution does: `Advances` with every existing cell untouched, and
   * every descriptor it replaced replaced by an instance made from it.
   */
  ghost predicate Extends(w: World, w': World)
  {
    Advances(w, w') && w.deferred <= w'.deferred && Faithful(w, w')
  }

  /** A replacement made from `d` stays made from `d` as the world grows. */
  lemma MadeFromStable(w: World, w': World, t: nat, d: SyncDescriptor, e: Entry)
    requires Advances(w, w') && w.deferred <= w'.deferred && MadeFrom(w, t, d, e)
    ensures MadeFrom(w', t, d, e)
  {
    if !d.supportsDelayedInstantiation {
      assert w'.built[e.value.addr] == w.built[e.value.addr];
      WiredStable(w, w', t, d.ctor, d.staticArguments, w.built[e.value.addr]);
    }
  }

  /** Wiring survives the world growing: the lookups it used were instances, and instances stay. */
  lemma WiredStable(w: World, w': World, t: nat, ctor: Ctor, args: seq<Value>, c: Construction)
    requires t < |w.scopes| && Advances(w, w') && Wired(w, t, ctor, args, c)
    ensures Wired(w', t, ctor, args, c)
  {
    var deps := Ordered(w, ctor);
    var pos := FirstServiceArgPosition(deps, args);
    assert Ordered(w', ctor) == deps;
    forall i | 0 <= i < |deps|
      ensures GetService(w'.scopes, t, deps[i].id) == Instance(c.args[pos + i])
    {
      assert GetService(w.scopes, t, deps[i].id) == Instance(c.args[pos + i]);
    }
  }

  lemma ExtendsReflexive(w: World)
    ensures Extends(w, w)
  {
  }

  lemma AdvancesTransitive(w1: World, w2: World, w3: World)
    requires Advances(w1, w2) && Advances(w2, w3)
    ensures Advances(w1, w3)
  {
    assert SameShape(w1.scopes, w3.scopes);
    forall s, id | 0 <= s < |w1.scopes|
      ensures Own(w3.scopes, s, id) == Own(w1.scopes, s, id) || (Own(w1.scopes, s, id).Descriptor? && IsBuilt(Own(w3.scopes, s, id)))
    {
      assert Own(w2.scopes, s, id) == Own(w1.scopes, s, id) || (Own(w1.scopes, s, id).Descriptor? && IsBuilt(Own(w2.scopes, s, id)));
      assert Own(w3.scopes, s, id) == Own(w2.scopes, s, id) || (Own(w2.scopes, s, id).Descriptor? && IsBuilt(Own(w3.scopes, s, id)));
    }
    OwnStepGivesViewStep(w1.scopes, w3.scopes);
  }

  lemma ExtendsTransitive(w1: World, w2: World, w3: World)
    requires Extends(w1, w2) && Extends(w2, w3)
    ensures Extends(w1, w3)
  {
    AdvancesTransitive(w1, w2, w3);
    forall t, k | 0 <= t < |w1.scopes| && Swapped(w1.scopes, w3.scopes, t, k)
      ensures MadeFrom(w3, t, Own(w1.scopes, t, k).desc, Own(w3.scopes, t, k)) && New(w1, Own(w3.scopes, t, k))
    {
      if Own(w2.scopes, t, k) == Own(w1.scopes, t, k) {
        assert Swapped(w2.scopes, w3.scopes, t, k);
      } else {
        assert Swapped(w1.scopes, w2.scopes, t, k);
        assert Own(w3.scopes, t, k) == Own(w2.scopes, t, k);
        MadeFromStable(w2, w3, t, Own(w1.scopes, t, k).desc, Own(w2.scopes, t, k));
      }
    }
  }

  /**
   * Storing at `o` a value made from the descriptor `o` held all along
   * extends the world: the one replacement it adds is faithful.
   */
  lemma StoreExtends(w: World, w1: World, o: nat, id: ServiceId, v: Value)
    requires Extends(w, w1) && o < |w.scopes| && Truthy(v)
    requires Own(w.scopes, o, id).Descriptor? && Own(w1.scopes, o, id) == Own(w.scopes, o, id)
    requires MadeFrom(w1, o, Own(w.scopes, o, id).desc, Instance(v)) && New(w, Instance(v))
    ensures Extends(w, w1.(scopes := WriteAt(w1.scopes, o, id, Instance(v))))
  {
    var w2 := w1.(scopes := WriteAt(w1.scopes, o, id, Instance(v)));
    WriteOverDescriptor(w1.scopes, o, id, v);
    OwnStepGivesViewStep(w1.scopes, w2.scopes);
    AdvancesTransitive(w, w1, w2);
    MadeFromStable(w1, w2, o, Own(w.scopes, o, id).desc, Instance(v));
    forall t, k | 0 <= t < |w.scopes| && Swapped(w.scopes, w2.scopes, t, k)
      ensures MadeFrom(w2, t, Own(w.scopes, t, k).desc, Own(w2.scopes, t, k)) && New(w, Own(w2.scopes, t, k))
    {
      if t != o || k != id {
        assert Own(w2.scopes, t, k) == Own(w1.scopes, t, k);
        assert Swapped(w.scopes, w1.scopes, t, k);
        MadeFromStable(w1, w2, t, Own(w.scopes, t, k).desc, Own(w1.scopes, t, k));
      }
    }
  }

  /** Storing a built instance over a descriptor is an own step. */
  lemma WriteOverDescriptor(sc: seq<Scope>, x: nat, id: ServiceId, v: Value)
    requires x < |sc| && Own(sc, x, id).Descriptor? && Truthy(v)
    ensures SameShape(sc, WriteAt(sc, x, id, Instance(v)))
    ensures OwnStep(sc, WriteAt(sc, x, id, Instance(v)))
  {
  }

  /**
   * `_setServiceInstance`, as the resolution needs it: the instance is
   * stored in the registry of the scope that owns the descriptor, so every
   * scope that saw the descriptor now sees the instance. Without an owner the
   * write is an illegal state.
   */
  function SetServiceInstance(w: World, s: nat, id: ServiceId, v: Value): (r: Result<World, Failure>)
    requires WF(w) && s < |w.scopes| && Truthy(v)
    ensures GetService(w.scopes, s, id).Descriptor? ==> r.Success?
    ensures r.Failure? ==> r.error == IllegalState && Owner(w.scopes, s, id).None?
    ensures r.Success? ==> WF(r.value) && Advances(w, r.value)
    ensures r.Success? ==> Owner(w.scopes, s, id).Some? && r.value == w.(scopes := WriteAt(w.scopes, Owner(w.scopes, s, id).value, id, Instance(v)))
    ensures r.Success? ==> r.value.built == w.built && r.value.deferred == w.deferred
    ensures r.Success? && GetService(w.scopes, s, id).Descriptor? ==> GetService(r.value.scopes, s, id) == Instance(v)
    ensures r.Success? && GetService(w.scopes, s, id).Descriptor? ==>
              GetService(r.value.scopes, Owner(w.scopes, s, id).value, id) == Instance(v)
  {
    match Owner(w.scopes, s, id)
    case None => Failure(IllegalState)
    case Some(o) =>
      var sc' := WriteAt(w.scopes, o, id, Instance(v));
      WriteOverDescriptor(w.scopes, o, id, v);
      OwnStepGivesViewStep(w.scopes, sc');
      SetReachesLookup(w.scopes, s, id, v);
      Success(w.(scopes := sc'))
  }

  /** After the write at the owner, the scope that saw the descriptor sees the instance. */
  lemma SetReachesLookup(sc: seq<Scope>, s: nat, id: ServiceId, v: Value)
    requires s < |sc| && Truthy(v) && Owner(sc, s, id).Some?
    ensures GetService(sc, s, id).Descriptor? ==> GetService(WriteAt(sc, Owner(sc, s, id).value, id, Instance(v)), s, id) == Instance(v)
  {
    if GetService(sc, s, id).Descriptor? {
      var o := Owner(sc, s, id).value;
      var sc' := WriteAt(sc, o, id, Instance(v));
      DescriptorHasOwner(sc, s, id);
      WriteOverDescriptor(sc, o, id, v);
      FalsyBelowStable(sc, sc', s, o, id);
      FalsyBelowSameLookup(sc', s, o, id);
    }
  }

  /**
   * `_setServiceInstance` as written: the scope's own registry if it holds a
   * descriptor, otherwise the immediate parent's registry, whichever scope
   * owns the descriptor.
   */
  function SetServiceInstanceAsWritten(w: World, s: nat, id: ServiceId, v: Value): (r: Result<World, Failure>)
    requires s < |w.scopes|
    ensures Own(w.scopes, s, id).Descriptor? ==> r == Success(w.(scopes := WriteAt(w.scopes, s, id, Instance(v))))
    ensures !Own(w.scopes, s, id).Descriptor? && w.scopes[s].parent.Some? && w.scopes[s].parent.value < |w.scopes| ==>
              r == Success(w.(scopes := WriteAt(w.scopes, w.scopes[s].parent.value, id, Instance(v))))
    ensures !Own(w.scopes, s, id).Descriptor? && w.scopes[s].parent.None? ==> r == Failure(IllegalState)
  {
    if Own(w.scopes, s, id).Descriptor? then Success(w.(scopes := WriteAt(w.scopes, s, id, Instance(v))))
    else if w.scopes[s].parent.Some? && w.scopes[s].parent.value < |w.scopes| then
      Success(w.(scopes := WriteAt(w.scopes, w.scopes[s].parent.value, id, Instance(v))))
    else Failure(IllegalState)
  }

  // ---------------------------------------------------------------------
  // Discovery (first half of `_createCachedServiceInstance`)
  // ---------------------------------------------------------------------

  /** A graph payload: an identifier and the descriptor it resolved to. */
  datatype Pending = Pending(id: ServiceId, desc: SyncDescriptor)

  /** The graph's hash: the identifier's string form. */
  function PendingKey(p: Pending): string
  {
    IdString(p.id)
  }

  /** Every node sits under its payload's key. */
  ghost predicate Keyed(g: DependencyGraph<Pending>)
  {
    forall k | k in g.nodes :: PendingKey(g.nodes[k].data) == k
  }

  /** Every node is keyed, and its payload's descriptor is what scope `s` sees for its identifier. */
  ghost predicate Current(sc: seq<Scope>, s: nat, g: DependencyGraph<Pending>)
  {
    Keyed(g) && forall k | k in g.nodes :: GetService(sc, s, g.nodes[k].data.id) == Descriptor(g.nodes[k].data.desc)
  }

  /** Node `k` has an edge to each dependency of its constructor that scope `s` sees as a descriptor. */
  ghost predicate Expanded(w: World, s: nat, g: DependencyGraph<Pending>, k: string)
    requires k in g.nodes
  {
    forall d | d in GetServiceDependencies(w.meta, g.nodes[k].data.desc.ctor) && GetService(w.scopes, s, d.id).Descriptor? ::
      IdString(d.id) in g.nodes[k].outgoing
  }

  ghost predicate AllExpanded(w: World, s: nat, g: DependencyGraph<Pending>)
  {
    forall k | k in g.nodes :: Expanded(w, s, g, k)
  }

  /** Some dependency of `ctor` is in `c`. */
  ghost predicate DependsInto(w: World, ctor: Ctor, c: set<ServiceId>)
  {
    exists d | d in GetServiceDependencies(w.meta, ctor) :: d.id in c
  }

  /** Some dependency of `ctor` is on `id`. */
  ghost predicate DependsOn(w: World, ctor: Ctor, id: ServiceId)
  {
    exists d | d in GetServiceDependencies(w.meta, ctor) :: d.id == id
  }

  /** Every edge of `g` leads from a node to a dependency of its constructor. */
  ghost predicate Justified(w: World, g: DependencyGraph<Pending>)
  {
    forall k1, k2 | k1 in g.nodes && k2 in g.nodes[k1].outgoing ::
      exists d | d in GetServiceDependencies(w.meta, g.nodes[k1].data.desc.ctor) :: IdString(d.id) == k2
  }

  /** Membership in a cycle, kept apart from plain set membership so that a cycle is unfolded one member at a time. */
  ghost predicate Member(c: set<ServiceId>, id: ServiceId)
  {
    id in c
  }

  /**
   * The identifiers `c` form a cycle of descriptors as seen from `s`: each
   * one is a descriptor whose constructor depends on another one of `c`.
   */
  ghost predicate DescriptorCycle(w: World, s: nat, c: set<ServiceId>)
  {
    c != {} &&
    forall id | Member(c, id) :: GetService(w.scopes, s, id).Descriptor? && DependsInto(w, GetService(w.scopes, s, id).desc.ctor, c)
  }

  /** A cycle of descriptors passing through `id`. */
  ghost predicate CycleThrough(w: World, s: nat, id: ServiceId, c: set<ServiceId>)
  {
    DescriptorCycle(w, s, c) && Member(c, id)
  }

  /** Some node of `g` carries an identifier of `c`. */
  ghost predicate MeetsGraph(g: DependencyGraph<Pending>, c: set<ServiceId>)
  {
    exists k | k in g.nodes :: g.nodes[k].data.id in c
  }

  ghost predicate OnStack(stack: seq<Pending>, k: string)
  {
    exists p | p in stack :: PendingKey(p) == k
  }

  ghost predicate StackMeets(stack: seq<Pending>, c: set<ServiceId>)
  {
    exists p | p in stack :: p.id in c
  }

  /** `g` grew from `g0`: no node lost, payloads kept, outgoing edges only added. */
  ghost predicate Grows(g0: DependencyGraph<Pending>, g: DependencyGraph<Pending>)
  {
    forall k | k in g0.nodes :: k in g.nodes && g.nodes[k].data == g0.nodes[k].data && g0.nodes[k].outgoing <= g.nodes[k].outgoing
  }

  ghost predicate Pushed(stack: seq<Pending>, id: ServiceId)
  {
    exists p | p in stack :: p.id == id
  }

  /** What the inner discovery loop pushes for `deps`, in push order: one pending per dependency `s` sees as a descriptor. */
  function Pushes(w: World, s: nat, deps: seq<Dependency>): seq<Pending>
  {
    if deps == [] then []
    else
      var d := deps[|deps| - 1];
      var e := GetService(w.scopes, s, d.id);
      Pushes(w, s, deps[..|deps| - 1]) + (if e.Descriptor? then [Pending(d.id, e.desc)] else [])
  }

  /** What popping `p` pushes. */
  function Kids(w: World, s: nat, p: Pending): seq<Pending>
  {
    Pushes(w, s, GetServiceDependencies(w.meta, p.desc.ctor))
  }

  /**
   * The number of pops discovery spends on `p` and everything pushed below
   * it, counted up to the budget `b`: the size of the tree that unfolds from
   * `p` when nothing is checked for being visited, or `b` if that tree has
   * `b` nodes or more.
   */
  function Pops(w: World, s: nat, p: Pending, b: nat): (r: nat)
    ensures r <= b && (b > 0 ==> r > 0)
    decreases b, 0, 0
  {
    if b == 0 then 0 else 1 + PopsAll(w, s, Kids(w, s, p), b - 1)
  }

  /** The pops spent on a whole stack, top (last element) first, up to the budget `b`. */
  function PopsAll(w: World, s: nat, stack: seq<Pending>, b: nat): (r: nat)
    ensures r <= b && (b > 0 && stack != [] ==> r > 0)
    decreases b, 1, |stack|
  {
    if b == 0 || stack == [] then 0
    else
      var a := Pops(w, s, stack[|stack| - 1], b);
      a + PopsAll(w, s, stack[..|stack| - 1], b - a)
  }

  /** The pops on a stack split into a top part `ys`, spent first, and the rest. */
  lemma {:induction false} PopsAllAppend(w: World, s: nat, xs: seq<Pending>, ys: seq<Pending>, b: nat)
    ensures PopsAll(w, s, xs + ys, b) == PopsAll(w, s, ys, b) + PopsAll(w, s, xs, b - PopsAll(w, s, ys, b))
    decreases |ys|
  {
    if b == 0 || ys == [] {
      assert xs + ys == xs || b == 0;
    } else {
      var y := ys[|ys| - 1];
      var front := ys[..|ys| - 1];
      assert xs + ys == (xs + front) + [y];
      assert (xs + ys)[..|xs + ys| - 1] == xs + front;
      var a := Pops(w, s, y, b);
      PopsAllAppend(w, s, xs, front, b - a);
    }
  }

  /** A stack of pendings none of which pushes anything costs one pop each, up to the budget. */
  lemma {:induction false} FlatPops(w: World, s: nat, stack: seq<Pending>, b: nat)
    requires forall p | p in stack :: Kids(w, s, p) == []
    ensures PopsAll(w, s, stack, b) == if |stack| <= b then |stack| else b
    decreases |stack|
  {
    if b > 0 && stack != [] {
      var x := stack[|stack| - 1];
      assert x in stack;
      assert PopsAll(w, s, [], b - 1) == 0;
      assert forall p | p in stack[..|stack| - 1] :: p in stack;
      FlatPops(w, s, stack[..|stack| - 1], b - 1);
    }
  }

  /**
   * Discovery from a descriptor whose descriptor dependencies push nothing
   * themselves stays under the ceiling when there are at most 1000 of them.
   */
  lemma TwoLevelsFit(w: World, s: nat, id: ServiceId, desc: SyncDescriptor)
    requires |Kids(w, s, Pending(id, desc))| <= 1000
    requires forall p | p in Kids(w, s, Pending(id, desc)) :: Kids(w, s, p) == []
    ensures Pops(w, s, Pending(id, desc), 1002) == 1 + |Kids(w, s, Pending(id, desc))| < 1002
  {
    FlatPops(w, s, Kids(w, s, Pending(id, desc)), 1001);
  }

  /** One turn of the discovery loop: popping `cur` costs one pop and leaves its pushes on top of the rest. */
  lemma PopStep(w: World, s: nat, xs: seq<Pending>, cur: Pending, b: nat)
    requires b > 0
    ensures PopsAll(w, s, xs + [cur], b) == 1 + PopsAll(w, s, xs + Kids(w, s, cur), b - 1)
  {
    assert (xs + [cur])[..|xs + [cur]| - 1] == xs;
    PopsAllAppend(w, s, xs, Kids(w, s, cur), b - 1);
  }

  /**
   * The inner loop of discovery for the node `cur`: for every dependency of
   * its constructor that `s` sees as a descriptor, an edge from `cur` and a
   * push of the dependency.
   */
  method PushDependencies(w: World, s: nat, cur: Pending, g0: DependencyGraph<Pending>, stack0: seq<Pending>)
    returns (g: DependencyGraph<Pending>, stack: seq<Pending>)
    requires Valid(g0) && Current(w.scopes, s, g0)
    requires PendingKey(cur) in g0.nodes && g0.nodes[PendingKey(cur)].data == cur
    requires forall p | p in stack0 :: GetService(w.scopes, s, p.id) == Descriptor(p.desc)
    ensures Valid(g) && Current(w.scopes, s, g) && Grows(g0, g)
    ensures PendingKey(cur) in g.nodes && g.nodes[PendingKey(cur)].data == cur
    ensures stack0 <= stack && forall p | p in stack :: GetService(w.scopes, s, p.id) == Descriptor(p.desc)
    ensures forall k | k in g.nodes && k !in g0.nodes :: OnStack(stack, k) && k in g.nodes[PendingKey(cur)].outgoing
    ensures forall p | p in stack :: p in stack0 || PendingKey(p) in g.nodes
    ensures Justified(w, g0) ==> Justified(w, g)
    ensures DepsSettled(w, s, cur.desc.ctor) ==> g == g0 && stack == stack0
    ensures Expanded(w, s, g, PendingKey(cur))
    ensures forall d | d in GetServiceDependencies(w.meta, cur.desc.ctor) && GetService(w.scopes, s, d.id).Descriptor? :: Pushed(stack, d.id)
    ensures stack == stack0 + Kids(w, s, cur)
  {
    var deps := GetServiceDependencies(w.meta, cur.desc.ctor);
    g, stack := g0, stack0;
    var j := 0;
    while j < |deps|
      invariant j <= |deps| && Pushing(w, s, cur, g0, stack0, deps, j, g, stack)
    {
      g, stack := PushStep(w, s, cur, g0, stack0, deps, j, g, stack);
      j := j + 1;
    }
    PushingDone(w, s, cur, g0, stack0, deps, g, stack);
  }

  /** The inner discovery loop's invariant once the pushes for `deps[..j]` are done. */
  ghost predicate Pushing(w: World, s: nat, cur: Pending, g0: DependencyGraph<Pending>, stack0: seq<Pending>, deps: seq<Dependency>, j: nat,
                          g: DependencyGraph<Pending>, stack: seq<Pending>)
  {
    && j <= |deps|
    && Valid(g) && Current(w.scopes, s, g) && Grows(g0, g)
    && PendingKey(cur) in g.nodes && g.nodes[PendingKey(cur)].data == cur
    && (forall p | p in stack :: GetService(w.scopes, s, p.id) == Descriptor(p.desc))
    && (forall k | k in g.nodes && k !in g0.nodes :: OnStack(stack, k) && k in g.nodes[PendingKey(cur)].outgoing)
    && (forall p | p in stack :: p in stack0 || PendingKey(p) in g.nodes)
    && (Justified(w, g0) ==> Justified(w, g))
    && (DepsSettled(w, s, cur.desc.ctor) && deps == GetServiceDependencies(w.meta, cur.desc.ctor) ==> g == g0 && stack == stack0)
    && (forall i | 0 <= i < j && GetService(w.scopes, s, deps[i].id).Descriptor? ::
          IdString(deps[i].id) in g.nodes[PendingKey(cur)].outgoing && Pushed(stack, deps[i].id))
    && stack == stack0 + Pushes(w, s, deps[..j])
  }

  /** One turn of the inner discovery loop: the edge and push for `deps[j]`. */
  method PushStep(w: World, s: nat, cur: Pending, g0: DependencyGraph<Pending>, stack0: seq<Pending>, deps: seq<Dependency>, j: nat,
                  g: DependencyGraph<Pending>, stack: seq<Pending>)
    returns (g': DependencyGraph<Pending>, stack': seq<Pending>)
    requires deps == GetServiceDependencies(w.meta, cur.desc.ctor)
    requires j < |deps| && Pushing(w, s, cur, g0, stack0, deps, j, g, stack)
    ensures Pushing(w, s, cur, g0, stack0, deps, j + 1, g', stack')
  {
    assert deps[j] in deps;
    ghost var settled := DepsSettled(w, s, cur.desc.ctor);
    assert settled ==> !GetService(w.scopes, s, deps[j].id).Descriptor?;
    g', stack' := PushOne(w, s, cur, deps[j], g, stack);
    GrowsTransitive(g0, g, g');
    PushKeeps(w, s, cur, g0, stack0, deps, j, g, stack, g', stack');
    PushesStep(w, s, deps, j, stack0, stack, stack');
  }

  /** What the inner discovery loop's invariant gives once every dependency was looked at. */
  lemma PushingDone(w: World, s: nat, cur: Pending, g0: DependencyGraph<Pending>, stack0: seq<Pending>, deps: seq<Dependency>,
                    g: DependencyGraph<Pending>, stack: seq<Pending>)
    requires deps == GetServiceDependencies(w.meta, cur.desc.ctor) && Pushing(w, s, cur, g0, stack0, deps, |deps|, g, stack)
    ensures Valid(g) && Current(w.scopes, s, g) && Grows(g0, g)
    ensures PendingKey(cur) in g.nodes && g.nodes[PendingKey(cur)].data == cur
    ensures stack0 <= stack && forall p | p in stack :: GetService(w.scopes, s, p.id) == Descriptor(p.desc)
    ensures forall k | k in g.nodes && k !in g0.nodes :: OnStack(stack, k) && k in g.nodes[PendingKey(cur)].outgoing
    ensures forall p | p in stack :: p in stack0 || PendingKey(p) in g.nodes
    ensures Justified(w, g0) ==> Justified(w, g)
    ensures DepsSettled(w, s, cur.desc.ctor) ==> g == g0 && stack == stack0
    ensures Expanded(w, s, g, PendingKey(cur))
    ensures forall d | d in GetServiceDependencies(w.meta, cur.desc.ctor) && GetService(w.scopes, s, d.id).Descriptor? :: Pushed(stack, d.id)
    ensures stack == stack0 + Kids(w, s, cur)
  {
    PushesWhole(w, s, deps, |deps|);
    forall d | d in deps && GetService(w.scopes, s, d.id).Descriptor?
      ensures IdString(d.id) in g.nodes[PendingKey(cur)].outgoing && Pushed(stack, d.id)
    {
      var i :| 0 <= i < |deps| && deps[i] == d;
    }
  }

  lemma PushesWhole(w: World, s: nat, deps: seq<Dependency>, j: nat)
    requires j == |deps|
    ensures Pushes(w, s, deps[..j]) == Pushes(w, s, deps)
  {
    assert deps[..j] == deps;
  }

  /** The stack after the push for `deps[j]` holds the pushes for `deps[..j + 1]`. */
  lemma PushesStep(w: World, s: nat, deps: seq<Dependency>, j: nat, stack0: seq<Pending>, prev: seq<Pending>, stack: seq<Pending>)
    requires j < |deps| && prev == stack0 + Pushes(w, s, deps[..j])
    requires !GetService(w.scopes, s, deps[j].id).Descriptor? ==> stack == prev
    requires GetService(w.scopes, s, deps[j].id).Descriptor? ==> stack == prev + [Pending(deps[j].id, GetService(w.scopes, s, deps[j].id).desc)]
    ensures stack == stack0 + Pushes(w, s, deps[..j + 1])
  {
    assert deps[..j + 1][..j] == deps[..j];
  }

  /** The bookkeeping of the inner discovery loop survives the push for `deps[j]`. */
  lemma PushKeeps(w: World, s: nat, cur: Pending, g0: DependencyGraph<Pending>, stack0: seq<Pending>, deps: seq<Dependency>, j: nat,
                  prev: DependencyGraph<Pending>, prevStack: seq<Pending>, g: DependencyGraph<Pending>, stack: seq<Pending>)
    requires j < |deps| && PendingKey(cur) in prev.nodes
    requires forall k | k in prev.nodes && k !in g0.nodes :: OnStack(prevStack, k) && k in prev.nodes[PendingKey(cur)].outgoing
    requires forall p | p in prevStack :: p in stack0 || PendingKey(p) in prev.nodes
    requires forall i | 0 <= i < j && GetService(w.scopes, s, deps[i].id).Descriptor? ::
               IdString(deps[i].id) in prev.nodes[PendingKey(cur)].outgoing && Pushed(prevStack, deps[i].id)
    requires Grows(prev, g) && forall p | p in prevStack :: p in stack
    requires forall k | k in g.nodes && k !in prev.nodes :: OnStack(stack, k) && k in g.nodes[PendingKey(cur)].outgoing
    requires forall p | p in stack :: p in prevStack || PendingKey(p) in g.nodes
    requires GetService(w.scopes, s, deps[j].id).Descriptor? ==>
               IdString(deps[j].id) in g.nodes[PendingKey(cur)].outgoing && Pushed(stack, deps[j].id)
    ensures forall k | k in g.nodes && k !in g0.nodes :: OnStack(stack, k) && k in g.nodes[PendingKey(cur)].outgoing
    ensures forall p | p in stack :: p in stack0 || PendingKey(p) in g.nodes
    ensures forall i | 0 <= i < j + 1 && GetService(w.scopes, s, deps[i].id).Descriptor? ::
              IdString(deps[i].id) in g.nodes[PendingKey(cur)].outgoing && Pushed(stack, deps[i].id)
  {
    forall k | k in g.nodes && k !in g0.nodes
      ensures OnStack(stack, k) && k in g.nodes[PendingKey(cur)].outgoing
    {
      if k in prev.nodes {
        var p :| p in prevStack && PendingKey(p) == k;
        assert p in stack;
      }
    }
    forall i | 0 <= i < j && GetService(w.scopes, s, deps[i].id).Descriptor?
      ensures IdString(deps[i].id) in g.nodes[PendingKey(cur)].outgoing && Pushed(stack, deps[i].id)
    {
      var p :| p in prevStack && p.id == deps[i].id;
      assert p in stack;
    }
  }

  /** One iteration of the inner discovery loop, for the dependency `d` of `cur`. */
  method PushOne(w: World, s: nat, cur: Pending, d: Dependency, g: DependencyGraph<Pending>, stack: seq<Pending>)
    returns (g': DependencyGraph<Pending>, stack': seq<Pending>)
    requires Valid(g) && Current(w.scopes, s, g)
    requires PendingKey(cur) in g.nodes && g.nodes[PendingKey(cur)].data == cur
    requires forall p | p in stack :: GetService(w.scopes, s, p.id) == Descriptor(p.desc)
    requires d in GetServiceDependencies(w.meta, cur.desc.ctor)
    ensures Valid(g') && Current(w.scopes, s, g') && Grows(g, g')
    ensures PendingKey(cur) in g'.nodes && g'.nodes[PendingKey(cur)].data == cur
    ensures stack <= stack' && forall p | p in stack' :: GetService(w.scopes, s, p.id) == Descriptor(p.desc)
    ensures forall p | p in stack :: p in stack'
    ensures forall k | k in g'.nodes && k !in g.nodes :: OnStack(stack', k) && k in g'.nodes[PendingKey(cur)].outgoing
    ensures forall p | p in stack' :: p in stack || PendingKey(p) in g'.nodes
    ensures Justified(w, g) ==> Justified(w, g')
    ensures !GetService(w.scopes, s, d.id).Descriptor? ==> g' == g && stack' == stack
    ensures GetService(w.scopes, s, d.id).Descriptor? ==> IdString(d.id) in g'.nodes[PendingKey(cur)].outgoing && Pushed(stack', d.id)
    ensures GetService(w.scopes, s, d.id).Descriptor? ==> stack' == stack + [Pending(d.id, GetService(w.scopes, s, d.id).desc)]
  {
    var service := GetService(w.scopes, s, d.id);
    if service.Descriptor? {
      var next := Pending(d.id, service.desc);
      g' := Link(w, s, cur, next, g);
      stack' := stack + [next];
      assert next in stack';
      assert forall p | p in stack' :: p in stack || p == next;
    } else {
      g', stack' := g, stack;
    }
  }

  /** `insertEdge(cur, next)` for a dependency `next` that `s` sees as a descriptor. */
  method Link(w: World, s: nat, cur: Pending, next: Pending, g: DependencyGraph<Pending>) returns (g': DependencyGraph<Pending>)
    requires Valid(g) && Current(w.scopes, s, g)
    requires PendingKey(cur) in g.nodes && g.nodes[PendingKey(cur)].data == cur
    requires GetService(w.scopes, s, next.id) == Descriptor(next.desc)
    requires DependsOn(w, cur.desc.ctor, next.id)
    ensures Valid(g') && Current(w.scopes, s, g') && Grows(g, g')
    ensures g'.nodes.Keys == g.nodes.Keys + {PendingKey(next)}
    ensures g'.nodes[PendingKey(cur)].data == cur
    ensures PendingKey(next) in g'.nodes[PendingKey(cur)].outgoing
    ensures Justified(w, g) ==> Justified(w, g')
  {
    g' := InsertEdge(g, PendingKey, cur, next);
    LinkFacts(w, s, cur, next, g);
  }

  /** The facts `Link` promises, about the inserted graph. */
  lemma LinkFacts(w: World, s: nat, cur: Pending, next: Pending, g: DependencyGraph<Pending>)
    requires Valid(g) && Current(w.scopes, s, g)
    requires PendingKey(cur) in g.nodes && g.nodes[PendingKey(cur)].data == cur
    requires GetService(w.scopes, s, next.id) == Descriptor(next.desc)
    requires DependsOn(w, cur.desc.ctor, next.id)
    ensures Valid(InsertEdge(g, PendingKey, cur, next)) && Current(w.scopes, s, InsertEdge(g, PendingKey, cur, next))
    ensures Grows(g, InsertEdge(g, PendingKey, cur, next))
    ensures InsertEdge(g, PendingKey, cur, next).nodes.Keys == g.nodes.Keys + {PendingKey(next)}
    ensures InsertEdge(g, PendingKey, cur, next).nodes[PendingKey(cur)].data == cur
    ensures PendingKey(next) in InsertEdge(g, PendingKey, cur, next).nodes[PendingKey(cur)].outgoing
    ensures Justified(w, g) ==> Justified(w, InsertEdge(g, PendingKey, cur, next))
  {
    InsertEdgePreservesValid(g, PendingKey, cur, next);
    LinkCurrent(w, s, cur, next, g);
    LinkGrows(cur, next, g);
    LinkShape(cur, next, g);
    LinkJustified(w, cur, next, g);
  }

  /** Linking from a present node adds at most the target's node, keeps the source's payload and records the edge. */
  lemma LinkShape(cur: Pending, next: Pending, g: DependencyGraph<Pending>)
    requires PendingKey(cur) in g.nodes && g.nodes[PendingKey(cur)].data == cur
    ensures InsertEdge(g, PendingKey, cur, next).nodes.Keys == g.nodes.Keys + {PendingKey(next)}
    ensures InsertEdge(g, PendingKey, cur, next).nodes[PendingKey(cur)].data == cur
    ensures PendingKey(next) in InsertEdge(g, PendingKey, cur, next).nodes[PendingKey(cur)].outgoing
  {
    assert {PendingKey(cur), PendingKey(next)} == {PendingKey(cur)} + {PendingKey(next)};
  }

  /** The new edge leads to a dependency of `cur`'s constructor; every other edge was there before. */
  lemma LinkJustified(w: World, cur: Pending, next: Pending, g: DependencyGraph<Pending>)
    requires PendingKey(cur) in g.nodes && g.nodes[PendingKey(cur)].data == cur
    requires DependsOn(w, cur.desc.ctor, next.id)
    ensures Justified(w, g) ==> Justified(w, InsertEdge(g, PendingKey, cur, next))
  {
    var g' := InsertEdge(g, PendingKey, cur, next);
    if Justified(w, g) {
      forall k1, k2 | k1 in g'.nodes && k2 in g'.nodes[k1].outgoing
        ensures exists d | d in GetServiceDependencies(w.meta, g'.nodes[k1].data.desc.ctor) :: IdString(d.id) == k2
      {
        if k1 == PendingKey(cur) && k2 == PendingKey(next) {
          var d :| d in GetServiceDependencies(w.meta, cur.desc.ctor) && d.id == next.id;
          assert IdString(d.id) == k2;
        } else {
          assert k1 in g.nodes && k2 in g.nodes[k1].outgoing;
        }
      }
    }
  }

  /** `lookupOrInsertNode(cur)` for a payload that `s` sees as current. */
  method Visit(w: World, s: nat, cur: Pending, g: DependencyGraph<Pending>) returns (g': DependencyGraph<Pending>)
    requires Valid(g) && Current(w.scopes, s, g)
    requires GetService(w.scopes, s, cur.id) == Descriptor(cur.desc)
    ensures Valid(g') && Current(w.scopes, s, g')
    ensures g'.nodes.Keys == g.nodes.Keys + {PendingKey(cur)}
    ensures forall k | k in g.nodes :: g'.nodes[k] == g.nodes[k]
    ensures g'.nodes[PendingKey(cur)].data == cur
    ensures PendingKey(cur) in g.nodes ==> g' == g
    ensures PendingKey(cur) !in g.nodes ==> g'.nodes == g.nodes[PendingKey(cur) := Node(cur, {}, {})]
    ensures Justified(w, g) ==> Justified(w, g')
  {
    if PendingKey(cur) in g.nodes {
      VisitKnown(w, s, cur, g);
      g' := g;
    } else {
      FreshShape(cur, g);
      FreshValid(cur, g);
      FreshCurrent(w, s, cur, g);
      g' := DependencyGraph(g.nodes[PendingKey(cur) := Node(cur, {}, {})]);
    }
  }

  /** A node already present under `cur`'s key carries `cur` itself: same key, same identifier, same descriptor. */
  lemma VisitKnown(w: World, s: nat, cur: Pending, g: DependencyGraph<Pending>)
    requires Current(w.scopes, s, g) && PendingKey(cur) in g.nodes
    requires GetService(w.scopes, s, cur.id) == Descriptor(cur.desc)
    ensures g.nodes[PendingKey(cur)].data == cur
    ensures LookupOrInsertNode(g, PendingKey, cur).0 == g
    ensures g.nodes.Keys + {PendingKey(cur)} == g.nodes.Keys
  {
    var prior := g.nodes[PendingKey(cur)].data;
    assert PendingKey(prior) == PendingKey(cur);
    IdStringInjective(prior.id, cur.id);
    assert GetService(w.scopes, s, prior.id) == Descriptor(prior.desc);
  }

  /** A fresh node for `cur` is what `lookupOrInsertNode` adds, and leaves the other nodes alone. */
  lemma FreshShape(cur: Pending, g: DependencyGraph<Pending>)
    requires PendingKey(cur) !in g.nodes
    ensures var g' := DependencyGraph(g.nodes[PendingKey(cur) := Node(cur, {}, {})]);
            && LookupOrInsertNode(g, PendingKey, cur).0 == g'
            && g'.nodes.Keys == g.nodes.Keys + {PendingKey(cur)}
            && (forall k | k in g.nodes :: g'.nodes[k] == g.nodes[k])
            && g'.nodes[PendingKey(cur)].data == cur
  {
  }

  lemma FreshValid(cur: Pending, g: DependencyGraph<Pending>)
    requires Valid(g) && PendingKey(cur) !in g.nodes
    ensures Valid(DependencyGraph(g.nodes[PendingKey(cur) := Node(cur, {}, {})]))
  {
    InsertKeyPreservesValid(g, PendingKey(cur), cur);
  }

  /** A fresh node for `cur` keeps the graph current. */
  lemma FreshCurrent(w: World, s: nat, cur: Pending, g: DependencyGraph<Pending>)
    requires Current(w.scopes, s, g) && PendingKey(cur) !in g.nodes
    requires GetService(w.scopes, s, cur.id) == Descriptor(cur.desc)
    ensures Current(w.scopes, s, DependencyGraph(g.nodes[PendingKey(cur) := Node(cur, {}, {})]))
  {
    var g' := DependencyGraph(g.nodes[PendingKey(cur) := Node(cur, {}, {})]);
    forall k | k in g'.nodes
      ensures PendingKey(g'.nodes[k].data) == k
      ensures GetService(w.scopes, s, g'.nodes[k].data.id) == Descriptor(g'.nodes[k].data.desc)
    {
      if k != PendingKey(cur) {
        assert g'.nodes[k] == g.nodes[k];
      }
    }
  }

  /** An edge from `cur` to a dependency `next` that `s` sees as a descriptor keeps the graph current. */
  lemma LinkCurrent(w: World, s: nat, cur: Pending, next: Pending, g: DependencyGraph<Pending>)
    requires Current(w.scopes, s, g)
    requires PendingKey(cur) in g.nodes && g.nodes[PendingKey(cur)].data == cur
    requires GetService(w.scopes, s, next.id) == Descriptor(next.desc)
    ensures Current(w.scopes, s, InsertEdge(g, PendingKey, cur, next))
  {
    var g' := InsertEdge(g, PendingKey, cur, next);
    forall k | k in g'.nodes
      ensures PendingKey(g'.nodes[k].data) == k
      ensures GetService(w.scopes, s, g'.nodes[k].data.id) == Descriptor(g'.nodes[k].data.desc)
    {
      LinkCurrentAt(w, s, cur, next, g, k);
    }
  }

  lemma LinkCurrentAt(w: World, s: nat, cur: Pending, next: Pending, g: DependencyGraph<Pending>, k: string)
    requires Current(w.scopes, s, g)
    requires PendingKey(cur) in g.nodes && g.nodes[PendingKey(cur)].data == cur
    requires GetService(w.scopes, s, next.id) == Descriptor(next.desc)
    requires k in InsertEdge(g, PendingKey, cur, next).nodes
    ensures var n := InsertEdge(g, PendingKey, cur, next).nodes[k];
            PendingKey(n.data) == k && GetService(w.scopes, s, n.data.id) == Descriptor(n.data.desc)
  {
    var n := InsertEdge(g, PendingKey, cur, next).nodes[k];
    if k in g.nodes {
      assert n.data == g.nodes[k].data;
    } else {
      assert n.data == next;
    }
  }

  /** Inserting an edge only adds: every node keeps its payload and its outgoing edges. */
  lemma LinkGrows(cur: Pending, next: Pending, g: DependencyGraph<Pending>)
    ensures Grows(g, InsertEdge(g, PendingKey, cur, next))
  {
    var g' := InsertEdge(g, PendingKey, cur, next);
    forall k | k in g.nodes
      ensures k in g'.nodes && g'.nodes[k].data == g.nodes[k].data && g.nodes[k].outgoing <= g'.nodes[k].outgoing
    {
      assert g'.nodes[k].outgoing == g.nodes[k].outgoing + (if k == PendingKey(cur) then {PendingKey(next)} else {});
    }
  }

  lemma GrowsTransitive(g1: DependencyGraph<Pending>, g2: DependencyGraph<Pending>, g3: DependencyGraph<Pending>)
    requires Grows(g1, g2) && Grows(g2, g3)
    ensures Grows(g1, g3)
  {
  }

  /** Expansion survives growth: the dependency edges are still there. */
  lemma ExpandedGrows(w: World, s: nat, g0: DependencyGraph<Pending>, g: DependencyGraph<Pending>, k: string)
    requires Grows(g0, g) && k in g0.nodes && Expanded(w, s, g0, k)
    ensures Expanded(w, s, g, k)
  {
  }

  /** One discovery step keeps "expanded or still on the stack". */
  lemma KeepExpanded(w: World, s: nat, cur: Pending, before: seq<Pending>, g0: DependencyGraph<Pending>,
                     g1: DependencyGraph<Pending>, g: DependencyGraph<Pending>, stack0: seq<Pending>, stack: seq<Pending>)
    requires before == stack0 + [cur]
    requires forall k | k in g0.nodes :: Expanded(w, s, g0, k) || OnStack(before, k)
    requires g1.nodes.Keys == g0.nodes.Keys + {PendingKey(cur)} && forall k | k in g0.nodes :: g1.nodes[k] == g0.nodes[k]
    requires Grows(g1, g) && stack0 <= stack && PendingKey(cur) in g.nodes && Expanded(w, s, g, PendingKey(cur))
    requires forall k | k in g.nodes && k !in g1.nodes :: OnStack(stack, k)
    ensures forall k | k in g.nodes :: Expanded(w, s, g, k) || OnStack(stack, k)
  {
    forall k | k in g.nodes
      ensures Expanded(w, s, g, k) || OnStack(stack, k)
    {
      if k != PendingKey(cur) && k in g1.nodes {
        assert k in g0.nodes;
        assert g1.nodes[k] == g0.nodes[k];
        if Expanded(w, s, g0, k) {
          assert Grows(g0, g1);
          ExpandedGrows(w, s, g1, g, k);
        } else {
          var p :| p in before && PendingKey(p) == k;
          assert p in stack0;
          assert p in stack;
        }
      }
    }
  }

  /**
   * One discovery step keeps every cycle that passes through the start or
   * meets the graph touching the stack: a node new to the graph is the
   * popped one, whose cycle successor was pushed, or is on the stack.
   */
  lemma KeepCycle(w: World, s: nat, id: ServiceId, cur: Pending, before: seq<Pending>, g0: DependencyGraph<Pending>,
                  g: DependencyGraph<Pending>, stack0: seq<Pending>, stack: seq<Pending>)
    requires before == stack0 + [cur] && stack0 <= stack
    requires GetService(w.scopes, s, cur.id) == Descriptor(cur.desc)
    requires Keyed(g)
    requires forall k | k in g0.nodes :: k in g.nodes && g.nodes[k].data == g0.nodes[k].data
    requires forall k | k in g.nodes && k !in g0.nodes :: k == PendingKey(cur) || OnStack(stack, k)
    requires forall c | DescriptorCycle(w, s, c) && (Member(c, id) || MeetsGraph(g0, c)) :: StackMeets(before, c)
    requires forall d | d in GetServiceDependencies(w.meta, cur.desc.ctor) && GetService(w.scopes, s, d.id).Descriptor? :: Pushed(stack, d.id)
    ensures forall c | DescriptorCycle(w, s, c) && (Member(c, id) || MeetsGraph(g, c)) :: StackMeets(stack, c)
  {
    forall c | DescriptorCycle(w, s, c) && (Member(c, id) || MeetsGraph(g, c))
      ensures StackMeets(stack, c)
    {
      if Member(c, id) || MeetsGraph(g0, c) {
        KeepOneCycle(w, s, c, cur, before, stack0, stack);
      } else {
        var k :| k in g.nodes && g.nodes[k].data.id in c;
        if k == PendingKey(cur) {
          IdStringInjective(g.nodes[k].data.id, cur.id);
          CycleLeavesCur(w, s, c, cur, stack);
        } else {
          var p :| p in stack && PendingKey(p) == k;
          IdStringInjective(g.nodes[k].data.id, p.id);
        }
      }
    }
  }

  lemma KeepOneCycle(w: World, s: nat, c: set<ServiceId>, cur: Pending, before: seq<Pending>, stack0: seq<Pending>, stack: seq<Pending>)
    requires before == stack0 + [cur] && stack0 <= stack
    requires GetService(w.scopes, s, cur.id) == Descriptor(cur.desc)
    requires DescriptorCycle(w, s, c) && StackMeets(before, c)
    requires forall d | d in GetServiceDependencies(w.meta, cur.desc.ctor) && GetService(w.scopes, s, d.id).Descriptor? :: Pushed(stack, d.id)
    ensures StackMeets(stack, c)
  {
    var p :| p in before && p.id in c;
    assert p in stack0 || p == cur;
    if p in stack0 {
      assert p in stack;
    } else {
      CycleLeavesCur(w, s, c, cur, stack);
    }
  }

  /** The popped node of a cycle pushes a dependency that is in the cycle again. */
  lemma CycleLeavesCur(w: World, s: nat, c: set<ServiceId>, cur: Pending, stack: seq<Pending>)
    requires GetService(w.scopes, s, cur.id) == Descriptor(cur.desc)
    requires DescriptorCycle(w, s, c) && cur.id in c
    requires forall d | d in GetServiceDependencies(w.meta, cur.desc.ctor) && GetService(w.scopes, s, d.id).Descriptor? :: Pushed(stack, d.id)
    ensures StackMeets(stack, c)
  {
    var deps := GetServiceDependencies(w.meta, cur.desc.ctor);
    assert Member(c, cur.id);
    assert DependsInto(w, cur.desc.ctor, c);
    var d :| d in deps && d.id in c;
    assert Member(c, d.id);
    assert GetService(w.scopes, s, d.id).Descriptor?;
    var q :| q in stack && q.id == d.id;
    assert q.id in c;
  }

  /** The identifiers carried by the nodes `keys`. */
  ghost function KnotIds(g: DependencyGraph<Pending>, keys: set<string>): set<ServiceId>
  {
    set k | k in keys && k in g.nodes :: g.nodes[k].data.id
  }

  /**
   * The identifiers of a knot of a current, justified graph are a cycle of
   * descriptors: each edge inside the knot is a dependency of its source.
   */
  lemma KnotIsCycle(w: World, s: nat, g: DependencyGraph<Pending>, keys: set<string>)
    requires Current(w.scopes, s, g) && Justified(w, g) && Knot(g, keys)
    ensures DescriptorCycle(w, s, KnotIds(g, keys)) && MeetsGraph(g, KnotIds(g, keys))
  {
    var c := KnotIds(g, keys);
    var k0 :| k0 in keys;
    assert g.nodes[k0].data.id in c;
    forall x | Member(c, x)
      ensures GetService(w.scopes, s, x).Descriptor? && DependsInto(w, GetService(w.scopes, s, x).desc.ctor, c)
    {
      KnotMember(w, s, g, keys, x);
    }
  }

  /** One member of a knot's identifiers is a descriptor depending into them. */
  lemma KnotMember(w: World, s: nat, g: DependencyGraph<Pending>, keys: set<string>, x: ServiceId)
    requires Current(w.scopes, s, g) && Justified(w, g) && Knot(g, keys) && x in KnotIds(g, keys)
    ensures GetService(w.scopes, s, x).Descriptor? && DependsInto(w, GetService(w.scopes, s, x).desc.ctor, KnotIds(g, keys))
  {
    var k :| k in keys && k in g.nodes && g.nodes[k].data.id == x;
    var n := g.nodes[k];
    assert GetService(w.scopes, s, x) == Descriptor(n.data.desc);
    assert Inside(keys, k);
    var k2 :| k2 in n.outgoing && k2 in keys;
    var d :| d in GetServiceDependencies(w.meta, n.data.desc.ctor) && IdString(d.id) == k2;
    assert PendingKey(g.nodes[k2].data) == k2;
    IdStringInjective(d.id, g.nodes[k2].data.id);
    assert d.id in KnotIds(g, keys);
  }

  /** A knot of the graph meets the stack, when every cycle meeting the graph does. */
  lemma KnotMeetsStack(w: World, s: nat, g: DependencyGraph<Pending>, stack: seq<Pending>, keys: set<string>)
    requires Current(w.scopes, s, g) && Justified(w, g)
    requires forall c | DescriptorCycle(w, s, c) && MeetsGraph(g, c) :: StackMeets(stack, c)
    ensures Knot(g, keys) ==> StackMeets(stack, KnotIds(g, keys))
  {
    if Knot(g, keys) {
      KnotIsCycle(w, s, g, keys);
    }
  }

  /** With the stack empty and every cycle meeting the graph on it, the graph is acyclic. */
  lemma DiscoveredAcyclic(w: World, s: nat, g: DependencyGraph<Pending>, stack: seq<Pending>)
    requires Valid(g) && Current(w.scopes, s, g) && Justified(w, g) && |stack| == 0
    requires forall c | DescriptorCycle(w, s, c) && MeetsGraph(g, c) :: StackMeets(stack, c)
    ensures Acyclic(g)
  {
    forall keys
      ensures !Knot(g, keys)
    {
      KnotMeetsStack(w, s, g, stack, keys);
    }
    var rank := KnotFreeRanked(g);
  }

  /** One discovery step keeps every node but the start entered by an edge. */
  lemma KeepEntered(start: string, cur: Pending, g0: DependencyGraph<Pending>, g1: DependencyGraph<Pending>, g: DependencyGraph<Pending>)
    requires (g1 == g0 && EnteredExcept(g0, start)) || g1.nodes.Keys == {start}
    requires Grows(g1, g) && PendingKey(cur) in g.nodes
    requires forall k | k in g.nodes && k !in g1.nodes :: k in g.nodes[PendingKey(cur)].outgoing
    ensures EnteredExcept(g, start)
  {
    forall k | k in g.nodes && k != start
      ensures exists j | j in g.nodes :: k in g.nodes[j].outgoing
    {
      if k in g1.nodes {
        assert g1 == g0;
        var j :| j in g0.nodes && k in g0.nodes[j].outgoing;
        assert j in g.nodes && k in g.nodes[j].outgoing;
      } else {
        assert k in g.nodes[PendingKey(cur)].outgoing;
      }
    }
  }

  /**
   * One round of the discovery loop keeps its bookkeeping: `before` and
   * `g0` are the stack and graph at the top of round `n`, `g1` the graph
   * after visiting the popped `cur`, and `stack`, `g` the state after
   * pushing its dependencies.
   */
  lemma DiscoverStep(w: World, s: nat, id: ServiceId, desc: SyncDescriptor, n: nat, cur: Pending, before: seq<Pending>,
                     g0: DependencyGraph<Pending>, g1: DependencyGraph<Pending>, g: DependencyGraph<Pending>,
                     stack0: seq<Pending>, stack: seq<Pending>)
    requires forall k | k in g0.nodes :: Expanded(w, s, g0, k) || OnStack(before, k)
    requires n == 0 ==> before == [Pending(id, desc)] && g0 == Empty()
    requires n > 0 ==> IdString(id) in g0.nodes && EnteredExcept(g0, IdString(id))
    requires n > 0 ==> forall p | p in before :: PendingKey(p) in g0.nodes
    requires forall c | DescriptorCycle(w, s, c) && (Member(c, id) || MeetsGraph(g0, c)) :: StackMeets(before, c)
    requires DepsSettled(w, s, desc.ctor) && n > 0 ==> before == [] && g0 == Lone(id, desc)
    requires before == stack0 + [cur] && GetService(w.scopes, s, cur.id) == Descriptor(cur.desc)
    requires g1.nodes.Keys == g0.nodes.Keys + {PendingKey(cur)} && forall k | k in g0.nodes :: g1.nodes[k] == g0.nodes[k]
    requires PendingKey(cur) in g0.nodes ==> g1 == g0
    requires PendingKey(cur) !in g0.nodes ==> g1.nodes == g0.nodes[PendingKey(cur) := Node(cur, {}, {})]
    requires Keyed(g) && Grows(g1, g) && PendingKey(cur) in g.nodes && stack0 <= stack
    requires forall k | k in g.nodes && k !in g1.nodes :: OnStack(stack, k) && k in g.nodes[PendingKey(cur)].outgoing
    requires forall p | p in stack :: p in stack0 || PendingKey(p) in g.nodes
    requires DepsSettled(w, s, cur.desc.ctor) ==> g == g1 && stack == stack0
    requires Expanded(w, s, g, PendingKey(cur))
    requires forall d | d in GetServiceDependencies(w.meta, cur.desc.ctor) && GetService(w.scopes, s, d.id).Descriptor? :: Pushed(stack, d.id)
    ensures forall k | k in g.nodes :: Expanded(w, s, g, k) || OnStack(stack, k)
    ensures IdString(id) in g.nodes && EnteredExcept(g, IdString(id))
    ensures forall p | p in stack :: PendingKey(p) in g.nodes
    ensures forall c | DescriptorCycle(w, s, c) && (Member(c, id) || MeetsGraph(g, c)) :: StackMeets(stack, c)
    ensures DepsSettled(w, s, desc.ctor) ==> stack == [] && g == Lone(id, desc)
  {
    assert cur in before;
    if n == 0 {
      assert cur == Pending(id, desc) && stack0 == [];
      assert g1.nodes == Lone(id, desc).nodes;
    } else {
      assert g1 == g0;
    }
    KeepExpanded(w, s, cur, before, g0, g1, g, stack0, stack);
    KeepCycle(w, s, id, cur, before, g0, g, stack0, stack);
    KeepEntered(IdString(id), cur, g0, g1, g);
    forall p | p in stack
      ensures PendingKey(p) in g.nodes
    {
      if p in stack0 {
        assert p in before;
      }
    }
  }

  /** The graph discovery yields for a descriptor none of whose dependencies needs building: its node alone. */
  function Lone(id: ServiceId, desc: SyncDescriptor): DependencyGraph<Pending>
  {
    DependencyGraph(map[IdString(id) := Node(Pending(id, desc), {}, {})])
  }

  /**
   * The discovery loop: a depth-first walk from `id` that adds an edge to
   * every dependency `s` sees as a descriptor and pushes it, without
   * checking whether it was visited. The 1002nd pop aborts the walk. On
   * success the graph holds `id`, every node is expanded, the graph is
   * acyclic and no edge leads back to `id`; a cycle of descriptors through
   * `id` always exhausts the ceiling; a descriptor none of whose
   * dependencies needs building yields its node alone.
   */
  method Discover(w: World, s: nat, id: ServiceId, desc: SyncDescriptor) returns (r: Result<DependencyGraph<Pending>, Failure>)
    requires s < |w.scopes| && GetService(w.scopes, s, id) == Descriptor(desc)
    ensures r.Success? ==> Valid(r.value) && Current(w.scopes, s, r.value) && AllExpanded(w, s, r.value)
    ensures r.Success? ==> IdString(id) in r.value.nodes
    ensures r.Success? ==> Acyclic(r.value)
    ensures r.Success? ==> forall k | k in r.value.nodes :: IdString(id) !in r.value.nodes[k].outgoing
    ensures r.Failure? ==> r.error == DiscoveryOverflow
    ensures forall c | CycleThrough(w, s, id, c) :: r == Failure(DiscoveryOverflow)
    ensures DepsSettled(w, s, desc.ctor) ==> r == Success(Lone(id, desc))
    ensures r.Failure? <==> Pops(w, s, Pending(id, desc), 1002) == 1002
  {
    var g: DependencyGraph<Pending> := Empty();
    var cycleCount := 0;
    var stack := [Pending(id, desc)];
    WalkStarts(w, s, id, desc);
    while |stack| > 0
      invariant Walking(w, s, id, desc, g, stack, cycleCount)
      decreases 1001 - cycleCount
    {
      var overflow;
      g, stack, overflow := Turn(w, s, id, desc, g, stack, cycleCount);
      if overflow {
        return Failure(DiscoveryOverflow);
      }
      cycleCount := cycleCount + 1;
    }
    DiscoverDone(w, s, id, desc, cycleCount, g, stack);
    return Success(g);
  }

  /** The discovery loop's invariant after `n` turns, with `g` and `stack` as they stand. */
  ghost predicate Walking(w: World, s: nat, id: ServiceId, desc: SyncDescriptor, g: DependencyGraph<Pending>, stack: seq<Pending>, n: nat)
  {
    && n <= 1001
    && Valid(g) && Current(w.scopes, s, g) && Justified(w, g)
    && (forall p | p in stack :: GetService(w.scopes, s, p.id) == Descriptor(p.desc))
    && (forall k | k in g.nodes :: Expanded(w, s, g, k) || OnStack(stack, k))
    && (n == 0 ==> stack == [Pending(id, desc)] && g == Empty())
    && (n > 0 ==> IdString(id) in g.nodes && EnteredExcept(g, IdString(id)))
    && (n > 0 ==> forall p | p in stack :: PendingKey(p) in g.nodes)
    && (forall c | DescriptorCycle(w, s, c) && (Member(c, id) || MeetsGraph(g, c)) :: StackMeets(stack, c))
    && (DepsSettled(w, s, desc.ctor) && n > 0 ==> stack == [] && g == Lone(id, desc))
    && Budgeted(w, s, Pending(id, desc), stack, n)
  }

  lemma WalkStarts(w: World, s: nat, id: ServiceId, desc: SyncDescriptor)
    requires GetService(w.scopes, s, id) == Descriptor(desc)
    ensures Walking(w, s, id, desc, Empty(), [Pending(id, desc)], 0)
  {
    assert [Pending(id, desc)][..0] == [];
  }

  /**
   * One turn of the discovery loop: pop, visit, then either the ceiling
   * (the 1002nd pop, which spends the whole budget) or the edges and pushes
   * for the popped node's dependencies.
   */
  method Turn(w: World, s: nat, id: ServiceId, desc: SyncDescriptor, g0: DependencyGraph<Pending>, before: seq<Pending>, n: nat)
    returns (g: DependencyGraph<Pending>, stack: seq<Pending>, overflow: bool)
    requires |before| > 0 && Walking(w, s, id, desc, g0, before, n)
    ensures overflow ==> Pops(w, s, Pending(id, desc), 1002) == 1002 && !DepsSettled(w, s, desc.ctor)
    ensures !overflow ==> Walking(w, s, id, desc, g, stack, n + 1)
  {
    var cur := before[|before| - 1];
    stack := before[..|before| - 1];
    LastPopped(before);
    g := Visit(w, s, cur, g0);
    if n > 1000 {
      BudgetStep(w, s, Pending(id, desc), stack, cur, n);
      return g, stack, true;
    }
    ghost var rest := stack;
    g, stack := Expand(w, s, id, desc, n, cur, before, g0, g, stack);
    BudgetStep(w, s, Pending(id, desc), rest, cur, n);
    overflow := false;
  }

  lemma LastPopped(before: seq<Pending>)
    requires |before| > 0
    ensures before == before[..|before| - 1] + [before[|before| - 1]] && before[|before| - 1] in before
  {
  }

  /** The pops left on `stack` after `n` turns account for all of `start`'s. */
  ghost predicate Budgeted(w: World, s: nat, start: Pending, stack: seq<Pending>, n: nat)
  {
    n <= 1002 && n + PopsAll(w, s, stack, 1002 - n) == Pops(w, s, start, 1002)
  }

  /** After `n` turns the pop of `cur` is the 1002nd, which spends the budget, or leaves its pushes budgeted. */
  lemma BudgetStep(w: World, s: nat, start: Pending, rest: seq<Pending>, cur: Pending, n: nat)
    requires n <= 1001 && Budgeted(w, s, start, rest + [cur], n)
    ensures n == 1001 ==> Pops(w, s, start, 1002) == 1002
    ensures Budgeted(w, s, start, rest + Kids(w, s, cur), n + 1)
  {
    PopStep(w, s, rest, cur, 1002 - n);
  }

  /**
   * The rest of one discovery turn, after `cur` was popped off `before` and
   * visited into `g1`: the edges and pushes for its dependencies, with the
   * loop's bookkeeping carried over.
   */
  method Expand(w: World, s: nat, id: ServiceId, desc: SyncDescriptor, n: nat, cur: Pending, ghost before: seq<Pending>,
                ghost g0: DependencyGraph<Pending>, g1: DependencyGraph<Pending>, stack0: seq<Pending>)
    returns (g: DependencyGraph<Pending>, stack: seq<Pending>)
    requires Valid(g1) && Current(w.scopes, s, g1) && Justified(w, g1)
    requires forall p | p in stack0 :: GetService(w.scopes, s, p.id) == Descriptor(p.desc)
    requires forall k | k in g0.nodes :: Expanded(w, s, g0, k) || OnStack(before, k)
    requires n == 0 ==> before == [Pending(id, desc)] && g0 == Empty()
    requires n > 0 ==> IdString(id) in g0.nodes && EnteredExcept(g0, IdString(id))
    requires n > 0 ==> forall p | p in before :: PendingKey(p) in g0.nodes
    requires forall c | DescriptorCycle(w, s, c) && (Member(c, id) || MeetsGraph(g0, c)) :: StackMeets(before, c)
    requires DepsSettled(w, s, desc.ctor) && n > 0 ==> before == [] && g0 == Lone(id, desc)
    requires before == stack0 + [cur] && GetService(w.scopes, s, cur.id) == Descriptor(cur.desc)
    requires g1.nodes.Keys == g0.nodes.Keys + {PendingKey(cur)} && forall k | k in g0.nodes :: g1.nodes[k] == g0.nodes[k]
    requires g1.nodes[PendingKey(cur)].data == cur
    requires PendingKey(cur) in g0.nodes ==> g1 == g0
    requires PendingKey(cur) !in g0.nodes ==> g1.nodes == g0.nodes[PendingKey(cur) := Node(cur, {}, {})]
    ensures Valid(g) && Current(w.scopes, s, g) && Justified(w, g)
    ensures forall p | p in stack :: GetService(w.scopes, s, p.id) == Descriptor(p.desc)
    ensures forall k | k in g.nodes :: Expanded(w, s, g, k) || OnStack(stack, k)
    ensures IdString(id) in g.nodes && EnteredExcept(g, IdString(id))
    ensures forall p | p in stack :: PendingKey(p) in g.nodes
    ensures forall c | DescriptorCycle(w, s, c) && (Member(c, id) || MeetsGraph(g, c)) :: StackMeets(stack, c)
    ensures DepsSettled(w, s, desc.ctor) ==> stack == [] && g == Lone(id, desc)
    ensures stack == stack0 + Kids(w, s, cur)
  {
    g, stack := PushDependencies(w, s, cur, g1, stack0);
    DiscoverStep(w, s, id, desc, n, cur, before, g0, g1, g, stack0, stack);
  }

  /** What the discovery loop's invariants give once the stack is empty. */
  lemma DiscoverDone(w: World, s: nat, id: ServiceId, desc: SyncDescriptor, n: nat, g: DependencyGraph<Pending>, stack: seq<Pending>)
    requires |stack| == 0 && Walking(w, s, id, desc, g, stack, n)
    ensures Valid(g) && Current(w.scopes, s, g)
    ensures AllExpanded(w, s, g) && IdString(id) in g.nodes && Acyclic(g)
    ensures forall k | k in g.nodes :: IdString(id) !in g.nodes[k].outgoing
    ensures forall c :: !CycleThrough(w, s, id, c)
    ensures DepsSettled(w, s, desc.ctor) ==> g == Lone(id, desc)
    ensures Pops(w, s, Pending(id, desc), 1002) < 1002
  {
    DiscoveredAcyclic(w, s, g, stack);
    NothingReachesStart(g, IdString(id));
  }

  // ---------------------------------------------------------------------
  // Arguments of a constructor call (`_createInstance`)
  // ---------------------------------------------------------------------

  ghost predicate SortedByIndex(deps: seq<Dependency>)
  {
    forall i, j | 0 <= i < j < |deps| :: deps[i].index <= deps[j].index
  }

  /** Inserts `d` after every entry whose index is not larger than its own. */
  function InsertByIndex(sorted: seq<Dependency>, d: Dependency): (r: seq<Dependency>)
    requires SortedByIndex(sorted)
    ensures SortedByIndex(r) && multiset(r) == multiset(sorted) + multiset{d} && |r| == |sorted| + 1
    ensures forall x | x in r :: x == d || x in sorted
    decreases |sorted|
  {
    if |sorted| == 0 then [d]
    else
      var last := sorted[|sorted| - 1];
      if d.index < last.index then
        var init := sorted[..|sorted| - 1];
        assert sorted == init + [last];
        var front := InsertByIndex(init, d);
        assert forall x | x in front :: x.index <= last.index;
        AppendLargest(front, last);
        front + [last]
      else
        assert forall x | x in sorted :: x.index <= d.index;
        AppendLargest(sorted, d);
        sorted + [d]
  }

  /** Appending an entry whose index is not below any other keeps the order. */
  lemma AppendLargest(front: seq<Dependency>, last: Dependency)
    requires SortedByIndex(front) && forall x | x in front :: x.index <= last.index
    ensures SortedByIndex(front + [last]) && multiset(front + [last]) == multiset(front) + multiset{last}
  {
    forall i, j | 0 <= i < j < |front| + 1
      ensures (front + [last])[i].index <= (front + [last])[j].index
    {
      if j == |front| {
        assert front[i] in front;
      }
    }
  }

  /** `sort((a, b) => a.index - b.index)`: the dependencies ordered by parameter position. */
  function SortByIndex(deps: seq<Dependency>): (r: seq<Dependency>)
    ensures SortedByIndex(r) && multiset(r) == multiset(deps) && |r| == |deps|
    decreases |deps|
  {
    if |deps| == 0 then []
    else
      var init := deps[..|deps| - 1];
      assert deps == init + [deps[|deps| - 1]];
      InsertByIndex(SortByIndex(init), deps[|deps| - 1])
  }

  lemma SortKeepsMembers(deps: seq<Dependency>, d: Dependency)
    ensures d in SortByIndex(deps) <==> d in deps
  {
    assert d in multiset(SortByIndex(deps)) <==> d in multiset(deps);
  }

  /** The position of the first service argument: the lowest recorded index, or after the static arguments. */
  function FirstServiceArgPosition(sorted: seq<Dependency>, args: seq<Value>): nat
  {
    if |sorted| > 0 then sorted[0].index else |args|
  }

  /**
   * The static arguments brought to length `pos`: padded with `undefined`
   * holes, or cut.
   */
  function ReconcileArgs(args: seq<Value>, pos: nat): (r: seq<Value>)
    ensures |r| == pos
    ensures forall i | 0 <= i < pos && i < |args| :: r[i] == args[i]
    ensures forall i | |args| <= i < pos :: r[i] == Undefined
    ensures |args| == pos ==> r == args
  {
    if |args| == pos then args
    else if pos > |args| then args + seq(pos - |args|, _ => Undefined)
    else args[..pos]
  }

  /** The dependencies of `ctor` in the order `_createInstance` resolves them. */
  function Ordered(w: World, ctor: Ctor): seq<Dependency>
  {
    SortByIndex(GetServiceDependencies(w.meta, ctor))
  }

  /**
   * The constructor call `c` is `new ctor(...)` wired in scope `s`: the
   * static arguments brought to the first service position, then for every
   * dependency in index order the instance `s` sees for it, which is truthy
   * when the dependency is required and the scope strict.
   */
  ghost predicate Wired(w: World, s: nat, ctor: Ctor, args: seq<Value>, c: Construction)
    requires s < |w.scopes|
  {
    var deps := Ordered(w, ctor);
    var pos := FirstServiceArgPosition(deps, args);
    && c.ctor == ctor
    && |c.args| == pos + |deps|
    && c.args[..pos] == ReconcileArgs(args, pos)
    && forall i | 0 <= i < |deps| ::
         && GetService(w.scopes, s, deps[i].id) == Instance(c.args[pos + i])
         && (w.scopes[s].strict && !deps[i].optional ==> Truthy(c.args[pos + i]))
  }

  /** `vals[i]` is what `s` sees for `deps[i]`, for the first `n` dependencies, and strict mode got no falsy required one. */
  ghost predicate Resolved(w: World, s: nat, deps: seq<Dependency>, vals: seq<Value>, n: nat)
    requires s < |w.scopes|
  {
    && n <= |deps| && |vals| == n
    && forall i | 0 <= i < n ::
         && GetService(w.scopes, s, deps[i].id) == Instance(vals[i])
         && (w.scopes[s].strict && !deps[i].optional ==> Truthy(vals[i]))
  }

  lemma ResolvedStable(w: World, w': World, s: nat, deps: seq<Dependency>, vals: seq<Value>, n: nat)
    requires s < |w.scopes| && Extends(w, w') && Resolved(w, s, deps, vals, n)
    ensures Resolved(w', s, deps, vals, n)
  {
    forall i | 0 <= i < n
      ensures GetService(w'.scopes, s, deps[i].id) == Instance(vals[i])
    {
      assert GetService(w.scopes, s, deps[i].id) == Instance(vals[i]);
    }
  }

  /** No dependency in `deps` is seen by `s` as a descriptor. */
  ghost predicate Settled(sc: seq<Scope>, s: nat, deps: seq<Dependency>)
  {
    forall d | d in deps :: !GetService(sc, s, d.id).Descriptor?
  }

  /** A required dependency strict mode rejects: its lookup is falsy. */
  predicate Missing(w: World, s: nat, d: Dependency)
    requires s < |w.scopes|
  {
    w.scopes[s].strict && !d.optional && !EntryTruthy(GetService(w.scopes, s, d.id))
  }

  /** The first missing dependency from position `from` on. */
  function FirstMissing(w: World, s: nat, deps: seq<Dependency>, from: nat): (o: Option<nat>)
    requires s < |w.scopes| && from <= |deps|
    ensures o.Some? ==> from <= o.value < |deps| && Missing(w, s, deps[o.value])
    ensures o.Some? ==> forall i | from <= i < o.value :: !Missing(w, s, deps[i])
    ensures o.None? ==> forall i | from <= i < |deps| :: !Missing(w, s, deps[i])
    decreases |deps| - from
  {
    if from == |deps| then None
    else if Missing(w, s, deps[from]) then Some(from)
    else FirstMissing(w, s, deps, from + 1)
  }

  /** The value a lookup yields (a descriptor has none). */
  function ValueOf(e: Entry): Value
  {
    if e.Instance? then e.value else Undefined
  }

  function LookupAll(sc: seq<Scope>, s: nat, deps: seq<Dependency>): (vals: seq<Value>)
    ensures |vals| == |deps|
  {
    seq(|deps|, i requires 0 <= i < |deps| => ValueOf(GetService(sc, s, deps[i].id)))
  }

  /**
   * Resolution when no dependency needs building: the first dependency
   * strict mode rejects fails it, otherwise every dependency is looked up.
   */
  function LookupResolution(w: World, s: nat, ctor: Ctor, deps: seq<Dependency>): Result<seq<Value>, Failure>
    requires s < |w.scopes|
  {
    match FirstMissing(w, s, deps, 0)
    case Some(i) => Failure(MissingDependency(ctor, deps[i].id))
    case None => Success(LookupAll(w.scopes, s, deps))
  }

  /** `new ctor(...args, ...serviceArgs)`, with the static arguments reconciled, logged as the next object. */
  function Assemble(w: World, ctor: Ctor, args: seq<Value>, deps: seq<Dependency>, serviceArgs: seq<Value>): (Value, World)
  {
    var c := Construction(ctor, ReconcileArgs(args, FirstServiceArgPosition(deps, args)) + serviceArgs);
    (Object(|w.built|), w.(built := w.built + [c]))
  }

  /** `_createInstance` when every dependency is settled: lookups and the strict check only. */
  function BuildSettled(w: World, s: nat, ctor: Ctor, args: seq<Value>): (Result<Value, Failure>, World)
    requires s < |w.scopes|
  {
    var deps := Ordered(w, ctor);
    match LookupResolution(w, s, ctor, deps)
    case Failure(e) => (Failure(e), w)
    case Success(vals) => var (v, w') := Assemble(w, ctor, args, deps, vals); (Success(v), w')
  }

  /** A dependency list whose lookups are final needs no building. */
  ghost predicate DepsSettled(w: World, s: nat, ctor: Ctor)
  {
    Settled(w.scopes, s, GetServiceDependencies(w.meta, ctor))
  }

  lemma OrderedSettled(w: World, s: nat, ctor: Ctor)
    requires DepsSettled(w, s, ctor)
    ensures Settled(w.scopes, s, Ordered(w, ctor))
  {
    forall d | d in Ordered(w, ctor)
      ensures !GetService(w.scopes, s, d.id).Descriptor?
    {
      SortKeepsMembers(GetServiceDependencies(w.meta, ctor), d);
    }
  }

  /** Assembling from resolved values gives a wired constructor call. */
  lemma AssembleWired(w: World, s: nat, ctor: Ctor, args: seq<Value>, vals: seq<Value>)
    requires s < |w.scopes| && Resolved(w, s, Ordered(w, ctor), vals, |Ordered(w, ctor)|)
    ensures var (v, w') := Assemble(w, ctor, args, Ordered(w, ctor), vals);
            && v == Object(|w.built|) && w' == w.(built := w.built + [w'.built[|w.built|]])
            && Wired(w', s, ctor, args, w'.built[|w.built|])
  {
    var deps := Ordered(w, ctor);
    var c := Construction(ctor, ReconcileArgs(args, FirstServiceArgPosition(deps, args)) + vals);
    var w' := w.(built := w.built + [c]);
    assert w'.built[|w.built|] == c;
    ConstructionWired(w, s, ctor, args, vals);
    WiredFrame(w, w', s, ctor, args, c);
  }

  /** The call made from reconciled static arguments followed by resolved values is wired. */
  lemma ConstructionWired(w: World, s: nat, ctor: Ctor, args: seq<Value>, vals: seq<Value>)
    requires s < |w.scopes| && Resolved(w, s, Ordered(w, ctor), vals, |Ordered(w, ctor)|)
    ensures Wired(w, s, ctor, args, Construction(ctor, ReconcileArgs(args, FirstServiceArgPosition(Ordered(w, ctor), args)) + vals))
  {
    var deps := Ordered(w, ctor);
    var pos := FirstServiceArgPosition(deps, args);
    var a := ReconcileArgs(args, pos);
    assert (a + vals)[..pos] == a;
    assert forall i | 0 <= i < |deps| :: (a + vals)[pos + i] == vals[i];
  }

  /** Wiring depends on the registries and the metadata only. */
  lemma WiredFrame(w: World, w': World, s: nat, ctor: Ctor, args: seq<Value>, c: Construction)
    requires s < |w.scopes| && w'.scopes == w.scopes && w'.meta == w.meta
    ensures Wired(w', s, ctor, args, c) == Wired(w, s, ctor, args, c)
  {
    assert Ordered(w', ctor) == Ordered(w, ctor);
  }

  /** The two outcomes of the lookup-only build. */
  lemma BuildSettledCases(w: World, s: nat, ctor: Ctor, args: seq<Value>)
    requires s < |w.scopes|
    ensures var res := LookupResolution(w, s, ctor, Ordered(w, ctor));
            && (res.Failure? ==> BuildSettled(w, s, ctor, args) == (Failure(res.error), w))
            && (res.Success? ==>
                  var made := Assemble(w, ctor, args, Ordered(w, ctor), res.value);
                  BuildSettled(w, s, ctor, args) == (Success(made.0), made.1))
    ensures |BuildSettled(w, s, ctor, args).1.built| <= |w.built| + 1
  {
  }

  /** Appending to the build log or the cells changes no registry. */
  lemma LogOnlyExtends(w: World, w': World)
    requires WF(w) && w'.scopes == w.scopes && w'.meta == w.meta && w.built <= w'.built && w'.deferred == w.deferred
    ensures WF(w') && Extends(w, w')
  {
  }

  // ---------------------------------------------------------------------
  // Resolution
  // ---------------------------------------------------------------------

  /**
   * The errors a resolution started in `s` can raise: the discovery ceiling,
   * or a required dependency that strict mode rejects in a build run by `s`
   * or by one of its ancestors (the owners of the descriptors it meets).
   */
  ghost predicate Fault(w: World, s: nat, e: Failure)
  {
    e == DiscoveryOverflow || (e.MissingDependency? && StrictAbove(w.scopes, s))
  }

  /** A fault of a resolution in an ancestor is a fault of the descendant's, in any world of the same shape. */
  lemma FaultUp(w: World, w': World, s: nat, t: nat, e: Failure)
    requires SameShape(w.scopes, w'.scopes) && Reaches(w.scopes, s, t) && Fault(w', t, e)
    ensures Fault(w, s, e)
  {
    if e.MissingDependency? {
      StrictAboveShape(w.scopes, w'.scopes, t);
      ReachesStrict(w.scopes, s, t);
    }
  }

  /** No scope after `s` has a different own registry. */
  ghost predicate Untouched(sc: seq<Scope>, sc': seq<Scope>, s: nat)
  {
    forall t, k | s < t < |sc| :: Own(sc', t, k) == Own(sc, t, k)
  }

  /** No scope after `s` changed, and `s` changed only own entries whose keys are among `keys`. */
  ghost predicate ChangedWithin(sc: seq<Scope>, sc': seq<Scope>, s: nat, keys: set<string>)
  {
    Untouched(sc, sc', s) && forall k | Own(sc', s, k) != Own(sc, s, k) :: IdString(k) in keys
  }

  lemma ChangedWithinTransitive(sc1: seq<Scope>, sc2: seq<Scope>, sc3: seq<Scope>, s: nat, keys: set<string>, sub: set<string>)
    requires |sc2| == |sc1| && ChangedWithin(sc1, sc2, s, keys) && ChangedWithin(sc2, sc3, s, sub) && sub <= keys
    ensures ChangedWithin(sc1, sc3, s, keys)
  {
    forall k | Own(sc3, s, k) != Own(sc1, s, k)
      ensures IdString(k) in keys
    {
      if Own(sc2, s, k) == Own(sc1, s, k) {
        assert IdString(k) in sub;
      }
    }
  }

  /** `ctor` depends on every one of `deps`. */
  ghost predicate NeedsAll(w: World, ctor: Ctor, deps: seq<Dependency>)
  {
    forall d | d in deps :: DependsOn(w, ctor, d.id)
  }

  /** Every own descriptor of `s` whose class depends on `id` is still in place in `sc'`. */
  ghost predicate KeepsDependents(w: World, sc': seq<Scope>, s: nat, id: ServiceId)
  {
    forall k | Own(w.scopes, s, k).Descriptor? && DependsOn(w, Own(w.scopes, s, k).desc.ctor, id) :: Own(sc', s, k) == Own(w.scopes, s, k)
  }

  /** Every own descriptor of `s` whose class depends on all of `deps` is still in place in `sc'`. */
  ghost predicate KeepsNeeding(w: World, sc': seq<Scope>, s: nat, deps: seq<Dependency>)
  {
    forall k | Own(w.scopes, s, k).Descriptor? && NeedsAll(w, Own(w.scopes, s, k).desc.ctor, deps) :: Own(sc', s, k) == Own(w.scopes, s, k)
  }

  /** Every own descriptor of `s` for the class `ctor` is still in place in `sc'`. */
  ghost predicate KeepsCtor(sc: seq<Scope>, sc': seq<Scope>, s: nat, ctor: Ctor)
  {
    forall k | Own(sc, s, k).Descriptor? && Own(sc, s, k).desc.ctor == ctor :: Own(sc', s, k) == Own(sc, s, k)
  }

  /** Resolving one more of `deps` keeps the descriptors that need all of them. */
  lemma KeepsNeedingStep(w: World, prev: World, sc': seq<Scope>, s: nat, deps: seq<Dependency>, i: nat)
    requires KeepsNeeding(w, prev.scopes, s, deps) && prev.meta == w.meta && i < |deps|
    requires KeepsDependents(prev, sc', s, deps[i].id)
    ensures KeepsNeeding(w, sc', s, deps)
  {
    forall k | Own(w.scopes, s, k).Descriptor? && NeedsAll(w, Own(w.scopes, s, k).desc.ctor, deps)
      ensures Own(sc', s, k) == Own(w.scopes, s, k)
    {
      assert deps[i] in deps;
      assert Own(prev.scopes, s, k) == Own(w.scopes, s, k);
    }
  }

  /** A class depends on each of its dependencies in resolution order. */
  lemma OrderedNeeded(w: World, ctor: Ctor)
    ensures NeedsAll(w, ctor, Ordered(w, ctor))
  {
    forall d | d in Ordered(w, ctor)
      ensures DependsOn(w, ctor, d.id)
    {
      SortKeepsMembers(GetServiceDependencies(w.meta, ctor), d);
    }
  }

  /** Keeping what needs all of `ctor`'s dependencies keeps the descriptors for `ctor`. */
  lemma NeedingKeepsCtor(w: World, sc': seq<Scope>, s: nat, ctor: Ctor)
    requires KeepsNeeding(w, sc', s, Ordered(w, ctor))
    ensures KeepsCtor(w.scopes, sc', s, ctor)
  {
    OrderedNeeded(w, ctor);
  }

  /** Above a run of falsy entries, an own descriptor is the owner. */
  lemma {:induction false} OwnerOfRun(sc: seq<Scope>, s: nat, o: nat, id: ServiceId)
    requires FalsyBelow(sc, s, o, id) && Own(sc, o, id).Descriptor?
    ensures Owner(sc, s, id) == Some(o)
    decreases s
  {
    if s != o {
      OwnerOfRun(sc, ParentOf(sc, s).value, o, id);
    }
  }

  /**
   * While `s` still sees a descriptor for `id` after an own step, it sees
   * the same one, and its owner is where it was.
   */
  lemma OwnerKept(sc: seq<Scope>, sc': seq<Scope>, s: nat, id: ServiceId)
    requires SameShape(sc, sc') && OwnStep(sc, sc') && s < |sc| && GetService(sc', s, id).Descriptor?
    ensures GetService(sc, s, id) == GetService(sc', s, id)
    ensures Owner(sc', s, id) == Owner(sc, s, id)
  {
    OwnStepLookup(sc, sc', s, id);
    DescriptorHasOwner(sc, s, id);
    var o := Owner(sc, s, id).value;
    FalsyBelowStable(sc, sc', s, o, id);
    FalsyBelowSameLookup(sc', s, o, id);
    assert GetService(sc', o, id).Descriptor?;
    OwnerOfRun(sc', s, o, id);
  }

  /**
   * `s` still sees the descriptor it saw, with the same owner, once the
   * owner's own entry is back where it was.
   */
  lemma OwnerStays(w: World, w1: World, s: nat, o: nat, id: ServiceId)
    requires Advances(w, w1) && s < |w.scopes| && GetService(w.scopes, s, id).Descriptor? && Owner(w.scopes, s, id) == Some(o)
    requires Own(w1.scopes, o, id) == Own(w.scopes, o, id)
    ensures GetService(w1.scopes, s, id) == GetService(w.scopes, s, id)
    ensures Owner(w1.scopes, s, id) == Some(o)
  {
    DescriptorHasOwner(w.scopes, s, id);
    FalsyBelowStable(w.scopes, w1.scopes, s, o, id);
    FalsyBelowSameLookup(w1.scopes, s, o, id);
    OwnerOfRun(w1.scopes, s, o, id);
  }

  lemma DepsSettledStable(w: World, w': World, s: nat, ctor: Ctor)
    requires Advances(w, w') && s < |w.scopes| && DepsSettled(w, s, ctor)
    ensures DepsSettled(w', s, ctor)
  {
    forall d | d in GetServiceDependencies(w'.meta, ctor)
      ensures !GetService(w'.scopes, s, d.id).Descriptor?
    {
      assert !GetService(w.scopes, s, d.id).Descriptor?;
    }
  }

  /** The owner of what `s` sees for `id` exists, and the dependencies of `ctor` are settled there. */
  ghost predicate SettledAtOwner(w: World, s: nat, id: ServiceId, ctor: Ctor)
  {
    Owner(w.scopes, s, id).Some? && DepsSettled(w, Owner(w.scopes, s, id).value, ctor)
  }

  /**
   * `id` needs no nested build when resolved from `s`: `s` does not see a
   * descriptor for it, or sees one whose class's dependencies are settled
   * both in `s` and in the descriptor's owner.
   */
  ghost predicate Leaf(w: World, s: nat, id: ServiceId)
  {
    GetService(w.scopes, s, id).Descriptor? ==>
      && DepsSettled(w, s, GetService(w.scopes, s, id).desc.ctor)
      && SettledAtOwner(w, s, id, GetService(w.scopes, s, id).desc.ctor)
  }

  /** No dependency in `deps` needs a nested build from `s`. */
  ghost predicate Shallow(w: World, s: nat, deps: seq<Dependency>)
  {
    forall d | d in deps :: Leaf(w, s, d.id)
  }

  lemma LeafStable(w: World, w': World, s: nat, id: ServiceId)
    requires Advances(w, w') && s < |w.scopes| && Leaf(w, s, id)
    ensures Leaf(w', s, id)
  {
    if GetService(w'.scopes, s, id).Descriptor? {
      OwnerKept(w.scopes, w'.scopes, s, id);
      var ctor := GetService(w.scopes, s, id).desc.ctor;
      DepsSettledStable(w, w', s, ctor);
      DepsSettledStable(w, w', Owner(w.scopes, s, id).value, ctor);
    }
  }

  lemma ShallowStable(w: World, w': World, s: nat, deps: seq<Dependency>)
    requires Advances(w, w') && s < |w.scopes| && Shallow(w, s, deps)
    ensures Shallow(w', s, deps)
  {
    forall d | d in deps
      ensures Leaf(w', s, d.id)
    {
      LeafStable(w, w', s, d.id);
    }
  }

  lemma ShallowOrdered(w: World, s: nat, ctor: Ctor)
    requires Shallow(w, s, GetServiceDependencies(w.meta, ctor))
    ensures Shallow(w, s, Ordered(w, ctor))
  {
    forall d | d in Ordered(w, ctor)
      ensures Leaf(w, s, d.id)
    {
      SortKeepsMembers(GetServiceDependencies(w.meta, ctor), d);
    }
  }

  /** Every node of `g` is settled at its owner, as `w0` sees it from `s`. */
  ghost predicate SettledOwners(w0: World, s: nat, g: DependencyGraph<Pending>)
  {
    forall k | k in g.nodes :: SettledAtOwner(w0, s, g.nodes[k].data.id, g.nodes[k].data.desc.ctor)
  }

  /** A leaf's discovery graph, its node alone, is settled at its owner. */
  lemma LoneSettled(w: World, s: nat, id: ServiceId, desc: SyncDescriptor)
    requires GetService(w.scopes, s, id) == Descriptor(desc) && Leaf(w, s, id)
    ensures SettledOwners(w, s, Lone(id, desc))
  {
  }

  /** `g` is part of `g0`: some of its nodes, with the same payloads. */
  ghost predicate Within(g: DependencyGraph<Pending>, g0: DependencyGraph<Pending>)
  {
    g.nodes.Keys <= g0.nodes.Keys && forall k | k in g.nodes :: g.nodes[k].data == g0.nodes[k].data
  }

  /**
   * A descriptor that `s` saw and now sees built was replaced in its owner,
   * by something made from it there.
   */
  lemma BuiltAtOwner(w: World, w': World, s: nat, id: ServiceId)
    requires Extends(w, w') && s < |w.scopes| && GetService(w.scopes, s, id).Descriptor?
    requires IsBuilt(GetService(w'.scopes, s, id))
    ensures Owner(w.scopes, s, id).Some?
    ensures GetService(w'.scopes, Owner(w.scopes, s, id).value, id) == GetService(w'.scopes, s, id)
    ensures MadeFrom(w', Owner(w.scopes, s, id).value, GetService(w.scopes, s, id).desc, GetService(w'.scopes, s, id))
    ensures New(w, GetService(w'.scopes, s, id))
  {
    DescriptorHasOwner(w.scopes, s, id);
    var o := Owner(w.scopes, s, id).value;
    FalsyBelowStable(w.scopes, w'.scopes, s, o, id);
    FalsyBelowSameLookup(w'.scopes, s, o, id);
    assert GetService(w'.scopes, o, id) == Own(w'.scopes, o, id);
    assert Swapped(w.scopes, w'.scopes, o, id);
  }

  /**
   * The node of an own descriptor of `s` whose class depends on `id`, a
   * descriptor for `s`, has an edge to `id` in an expanded graph.
   */
  lemma EdgeToDependency(w: World, s: nat, g: DependencyGraph<Pending>, k: ServiceId, id: ServiceId)
    requires s < |w.scopes| && GetService(w.scopes, s, id).Descriptor?
    requires Current(w.scopes, s, g) && AllExpanded(w, s, g)
    requires Own(w.scopes, s, k).Descriptor? && DependsOn(w, Own(w.scopes, s, k).desc.ctor, id)
    ensures IdString(k) in g.nodes ==> IdString(id) in g.nodes[IdString(k)].outgoing
  {
    if IdString(k) in g.nodes {
      var n := g.nodes[IdString(k)];
      assert PendingKey(n.data) == IdString(k);
      IdStringInjective(n.data.id, k);
      assert GetService(w.scopes, s, k) == Own(w.scopes, s, k);
      assert Expanded(w, s, g, IdString(k));
    }
  }

  /**
   * Building a discovery graph that has no edge into its start `id`, and
   * changing only the entries of `s` that it holds, keeps every own
   * descriptor of `s` that depends on `id`: its node would have such an edge.
   */
  lemma GraphKeepsDependents(w: World, sc': seq<Scope>, s: nat, id: ServiceId, g: DependencyGraph<Pending>)
    requires s < |w.scopes| && GetService(w.scopes, s, id).Descriptor?
    requires Current(w.scopes, s, g) && AllExpanded(w, s, g)
    requires forall k | k in g.nodes :: IdString(id) !in g.nodes[k].outgoing
    requires ChangedWithin(w.scopes, sc', s, g.nodes.Keys)
    ensures KeepsDependents(w, sc', s, id)
  {
    forall k | Own(w.scopes, s, k).Descriptor? && DependsOn(w, Own(w.scopes, s, k).desc.ctor, id)
      ensures Own(sc', s, k) == Own(w.scopes, s, k)
    {
      EdgeToDependency(w, s, g, k, id);
    }
  }

  /** Part of a graph whose nodes are settled at their owners is settled at its owners too. */
  lemma WithinSettled(w0: World, s: nat, g: DependencyGraph<Pending>, g0: DependencyGraph<Pending>)
    requires Within(g, g0) && SettledOwners(w0, s, g0)
    ensures SettledOwners(w0, s, g)
  {
    forall k | k in g.nodes
      ensures SettledAtOwner(w0, s, g.nodes[k].data.id, g.nodes[k].data.desc.ctor)
    {
      assert g.nodes[k].data == g0.nodes[k].data;
    }
  }

  /**
   * A nested build in `o`, which is `s` or an ancestor of `s`, that leaves
   * the scopes after `o` alone, and leaves everything alone when `o` is `s`,
   * changes nothing from `s` on.
   */
  lemma NestedFrame(sc: seq<Scope>, sc1: seq<Scope>, s: nat, o: nat, keys: set<string>)
    requires o <= s < |sc| && |sc1| == |sc| && Untouched(sc, sc1, o) && (o == s ==> sc1 == sc)
    ensures ChangedWithin(sc, sc1, s, keys)
  {
  }

  /** ... and the store at `o` that follows it changes, from `s` on, the entry for `id` only. */
  lemma StoreFrame(sc: seq<Scope>, sc1: seq<Scope>, s: nat, o: nat, id: ServiceId, e: Entry)
    requires o <= s < |sc| && |sc1| == |sc| && Untouched(sc, sc1, o) && (o == s ==> sc1 == sc)
    ensures ChangedWithin(sc, WriteAt(sc1, o, id, e), s, {IdString(id)})
  {
  }

  /**
   * `_createInstance`: resolves the dependencies in index order in scope
   * `s` (building descriptors on the way), rejects a falsy required one in
   * strict mode, and calls the constructor. It leaves the scopes after `s`
   * alone and keeps every descriptor of `s` for `ctor`; it fails only by the
   * discovery ceiling or by strict mode, and only by strict mode when no
   * dependency needs a nested build. When no dependency needs building this
   * is exactly the lookup-only `BuildSettled`.
   */
  method Instantiate(w: World, s: nat, ctor: Ctor, args: seq<Value>) returns (r: Result<Value, Failure>, w': World)
    requires WF(w) && s < |w.scopes|
    decreases s, 9
    ensures WF(w') && Extends(w, w')
    ensures Untouched(w.scopes, w'.scopes, s) && KeepsCtor(w.scopes, w'.scopes, s, ctor)
    ensures r.Success? ==> |w'.built| > 0 && r.value == Object(|w'.built| - 1)
    ensures r.Success? ==> Wired(w', s, ctor, args, w'.built[|w'.built| - 1]) && |w.built| < |w'.built|
    ensures r.Failure? ==> Fault(w, s, r.error)
    ensures Shallow(w, s, GetServiceDependencies(w.meta, ctor)) && r.Failure? ==> r.error.MissingDependency?
    ensures Shallow(w, s, GetServiceDependencies(w.meta, ctor)) && !StrictAbove(w.scopes, s) ==> r.Success?
    ensures Shallow(w, s, GetServiceDependencies(w.meta, ctor)) ==> |w'.built| <= |w.built| + |GetServiceDependencies(w.meta, ctor)| + 1
    ensures DepsSettled(w, s, ctor) ==> (r, w') == BuildSettled(w, s, ctor, args)
  {
    var vals, w1 := ResolveDependencies(w, s, ctor, Ordered(w, ctor));
    NeedingKeepsCtor(w, w1.scopes, s, ctor);
    r, w' := AfterResolution(w, w1, s, ctor, args, vals);
  }

  /**
   * The rest of `_createInstance` once resolution from `w0` gave `vals` in
   * `w`: its failure is the build's failure, otherwise the constructor call.
   */
  method AfterResolution(w0: World, w: World, s: nat, ctor: Ctor, args: seq<Value>, vals: Result<seq<Value>, Failure>)
    returns (r: Result<Value, Failure>, w': World)
    requires WF(w) && s < |w0.scopes| && Extends(w0, w)
    requires Untouched(w0.scopes, w.scopes, s) && KeepsCtor(w0.scopes, w.scopes, s, ctor)
    requires vals.Success? ==> Resolved(w, s, Ordered(w0, ctor), vals.value, |Ordered(w0, ctor)|)
    requires vals.Failure? ==> Fault(w0, s, vals.error)
    requires Shallow(w0, s, Ordered(w0, ctor)) && vals.Failure? ==> vals.error.MissingDependency?
    requires Shallow(w0, s, Ordered(w0, ctor)) ==> |w.built| <= |w0.built| + |Ordered(w0, ctor)|
    requires Settled(w0.scopes, s, Ordered(w0, ctor)) ==> w == w0 && vals == LookupResolution(w0, s, ctor, Ordered(w0, ctor))
    ensures WF(w') && Extends(w0, w')
    ensures Untouched(w0.scopes, w'.scopes, s) && KeepsCtor(w0.scopes, w'.scopes, s, ctor)
    ensures r.Success? ==> |w'.built| > 0 && r.value == Object(|w'.built| - 1)
    ensures r.Success? ==> Wired(w', s, ctor, args, w'.built[|w'.built| - 1]) && |w0.built| < |w'.built|
    ensures r.Failure? ==> Fault(w0, s, r.error)
    ensures Shallow(w0, s, GetServiceDependencies(w0.meta, ctor)) && r.Failure? ==> r.error.MissingDependency?
    ensures Shallow(w0, s, GetServiceDependencies(w0.meta, ctor)) && !StrictAbove(w0.scopes, s) ==> r.Success?
    ensures Shallow(w0, s, GetServiceDependencies(w0.meta, ctor)) ==> |w'.built| <= |w0.built| + |GetServiceDependencies(w0.meta, ctor)| + 1
    ensures DepsSettled(w0, s, ctor) ==> (r, w') == BuildSettled(w0, s, ctor, args)
  {
    if vals.Failure? {
      ResolutionFailed(w0, w, s, ctor, args, vals.error);
      return Failure(vals.error), w;
    }
    r, w' := Construct(w0, w, s, ctor, args, vals.value);
  }

  /** What `Ordered` keeps of a settled or shallow dependency list. */
  lemma OrderedFacts(w: World, s: nat, ctor: Ctor)
    ensures DepsSettled(w, s, ctor) ==> Settled(w.scopes, s, Ordered(w, ctor))
    ensures Shallow(w, s, GetServiceDependencies(w.meta, ctor)) ==> Shallow(w, s, Ordered(w, ctor))
  {
    if DepsSettled(w, s, ctor) {
      OrderedSettled(w, s, ctor);
    }
    if Shallow(w, s, GetServiceDependencies(w.meta, ctor)) {
      ShallowOrdered(w, s, ctor);
    }
  }

  /** A failed resolution fails the build, and is the lookup-only build's failure when nothing needed building. */
  lemma ResolutionFailed(w0: World, w: World, s: nat, ctor: Ctor, args: seq<Value>, e: Failure)
    requires s < |w0.scopes| && Fault(w0, s, e)
    requires Shallow(w0, s, Ordered(w0, ctor)) ==> e.MissingDependency? && |w.built| <= |w0.built| + |Ordered(w0, ctor)|
    requires Settled(w0.scopes, s, Ordered(w0, ctor)) ==> w == w0 && Failure(e) == LookupResolution(w0, s, ctor, Ordered(w0, ctor))
    ensures Shallow(w0, s, GetServiceDependencies(w0.meta, ctor)) ==> e.MissingDependency? && StrictAbove(w0.scopes, s)
    ensures Shallow(w0, s, GetServiceDependencies(w0.meta, ctor)) ==> |w.built| <= |w0.built| + |GetServiceDependencies(w0.meta, ctor)| + 1
    ensures DepsSettled(w0, s, ctor) ==> (Failure(e), w) == BuildSettled(w0, s, ctor, args)
  {
    OrderedFacts(w0, s, ctor);
    if DepsSettled(w0, s, ctor) {
      BuildSettledCases(w0, s, ctor, args);
    }
  }

  /** The world after resolution and the constructor call keeps what resolution kept, and is the lookup-only build when nothing needed building. */
  lemma Constructed(w: World, w1: World, w': World, s: nat, ctor: Ctor, args: seq<Value>, vals: seq<Value>, r: Result<Value, Failure>)
    requires s < |w.scopes| && Extends(w, w1) && Untouched(w.scopes, w1.scopes, s) && KeepsCtor(w.scopes, w1.scopes, s, ctor)
    requires Settled(w.scopes, s, Ordered(w, ctor)) ==> w1 == w && LookupResolution(w, s, ctor, Ordered(w, ctor)) == Success(vals)
    requires Shallow(w, s, Ordered(w, ctor)) ==> |w1.built| <= |w.built| + |Ordered(w, ctor)|
    requires Extends(w1, w') && w'.scopes == w1.scopes && r.Success? && (r.value, w') == Assemble(w1, ctor, args, Ordered(w1, ctor), vals)
    ensures Extends(w, w') && Untouched(w.scopes, w'.scopes, s) && KeepsCtor(w.scopes, w'.scopes, s, ctor)
    ensures Shallow(w, s, GetServiceDependencies(w.meta, ctor)) ==> |w'.built| <= |w.built| + |GetServiceDependencies(w.meta, ctor)| + 1
    ensures DepsSettled(w, s, ctor) ==> (r, w') == BuildSettled(w, s, ctor, args)
  {
    ExtendsTransitive(w, w1, w');
    OrderedFacts(w, s, ctor);
    if DepsSettled(w, s, ctor) {
      BuildSettledCases(w, s, ctor, args);
    }
  }

  /**
   * The constructor call once the service arguments are resolved, `w0`
   * being the world before resolution: the new object is wired in `s`, the
   * registries are as resolution left them, and when nothing needed
   * building the whole is the lookup-only build from `w0`.
   */
  method Construct(w0: World, w: World, s: nat, ctor: Ctor, args: seq<Value>, vals: seq<Value>) returns (r: Result<Value, Failure>, w': World)
    requires WF(w) && s < |w0.scopes| && Extends(w0, w) && Untouched(w0.scopes, w.scopes, s) && KeepsCtor(w0.scopes, w.scopes, s, ctor)
    requires Resolved(w, s, Ordered(w, ctor), vals, |Ordered(w, ctor)|)
    requires Settled(w0.scopes, s, Ordered(w0, ctor)) ==> w == w0 && LookupResolution(w0, s, ctor, Ordered(w0, ctor)) == Success(vals)
    requires Shallow(w0, s, Ordered(w0, ctor)) ==> |w.built| <= |w0.built| + |Ordered(w0, ctor)|
    ensures WF(w') && Extends(w0, w')
    ensures Untouched(w0.scopes, w'.scopes, s) && KeepsCtor(w0.scopes, w'.scopes, s, ctor)
    ensures r.Success? && |w'.built| > 0 && r.value == Object(|w'.built| - 1)
    ensures Wired(w', s, ctor, args, w'.built[|w'.built| - 1]) && |w0.built| < |w'.built|
    ensures Shallow(w0, s, GetServiceDependencies(w0.meta, ctor)) ==> |w'.built| <= |w0.built| + |GetServiceDependencies(w0.meta, ctor)| + 1
    ensures DepsSettled(w0, s, ctor) ==> (r, w') == BuildSettled(w0, s, ctor, args)
  {
    AssembleWired(w, s, ctor, args, vals);
    var made := Assemble(w, ctor, args, Ordered(w, ctor), vals);
    LogOnlyExtends(w, made.1);
    r, w' := Success(made.0), made.1;
    Constructed(w0, w, w', s, ctor, args, vals, r);
  }

  /**
   * The resolution loop of `_createInstance`: each dependency in turn
   * through `_getOrCreateServiceInstance`, failing on the first falsy
   * required one in strict mode. Every descriptor of `s` whose class needs
   * all of `deps` survives the loop.
   */
  method ResolveDependencies(w: World, s: nat, ctor: Ctor, deps: seq<Dependency>) returns (r: Result<seq<Value>, Failure>, w': World)
    requires WF(w) && s < |w.scopes|
    decreases s, 8
    ensures WF(w') && Extends(w, w')
    ensures Untouched(w.scopes, w'.scopes, s) && KeepsNeeding(w, w'.scopes, s, deps)
    ensures r.Success? ==> Resolved(w', s, deps, r.value, |deps|)
    ensures r.Failure? ==> Fault(w, s, r.error)
    ensures Shallow(w, s, deps) && r.Failure? ==> r.error.MissingDependency?
    ensures Shallow(w, s, deps) ==> |w'.built| <= |w.built| + |deps|
    ensures Settled(w.scopes, s, deps) ==> w' == w && r == LookupResolution(w, s, ctor, deps)
  {
    w' := w;
    var vals: seq<Value> := [];
    var i := 0;
    while i < |deps|
      invariant 0 <= i <= |deps|
      invariant WF(w') && Extends(w, w')
      invariant Untouched(w.scopes, w'.scopes, s) && KeepsNeeding(w, w'.scopes, s, deps)
      invariant Shallow(w, s, deps) ==> Shallow(w', s, deps) && |w'.built| <= |w.built| + i
      invariant Resolved(w', s, deps, vals, i)
      invariant Settled(w.scopes, s, deps) ==>
                  w' == w && vals == LookupAll(w.scopes, s, deps)[..i] && FirstMissing(w, s, deps, 0) == FirstMissing(w, s, deps, i)
    {
      ghost var prev := w';
      var v;
      v, w' := ResolveOne(w, w', s, deps, i);
      if v.Failure? {
        return Failure(v.error), w';
      }
      if !Truthy(v.value) && w'.scopes[s].strict && !deps[i].optional {
        return Failure(MissingDependency(ctor, deps[i].id)), w';
      }
      ResolvedAppend(prev, w', s, deps, vals, i, v.value);
      if Settled(w.scopes, s, deps) {
        assert deps[i] in deps;
        LookupStep(w, s, deps, vals, i);
      }
      vals := vals + [v.value];
      i := i + 1;
    }
    r := Success(vals);
    assert Settled(w.scopes, s, deps) ==> LookupAll(w.scopes, s, deps)[..i] == LookupAll(w.scopes, s, deps);
  }

  /** A value `s` sees for `deps[i]`, and strict mode accepts, extends a resolved prefix by one. */
  lemma ResolvedAppend(prev: World, w: World, s: nat, deps: seq<Dependency>, vals: seq<Value>, i: nat, v: Value)
    requires s < |prev.scopes| && Extends(prev, w) && Resolved(prev, s, deps, vals, i) && i < |deps|
    requires GetService(w.scopes, s, deps[i].id) == Instance(v)
    requires w.scopes[s].strict && !deps[i].optional ==> Truthy(v)
    ensures Resolved(w, s, deps, vals + [v], i + 1)
  {
    ResolvedStable(prev, w, s, deps, vals, i);
  }

  /** A dependency strict mode accepts extends the looked-up prefix by its lookup and moves the search for a missing one past it. */
  lemma LookupStep(w: World, s: nat, deps: seq<Dependency>, vals: seq<Value>, i: nat)
    requires s < |w.scopes| && i < |deps| && vals == LookupAll(w.scopes, s, deps)[..i]
    requires FirstMissing(w, s, deps, 0) == FirstMissing(w, s, deps, i) && !Missing(w, s, deps[i])
    ensures vals + [ValueOf(GetService(w.scopes, s, deps[i].id))] == LookupAll(w.scopes, s, deps)[..i + 1]
    ensures FirstMissing(w, s, deps, 0) == FirstMissing(w, s, deps, i + 1)
  {
  }

  /**
   * One turn of the resolution loop: `deps[i]` through
   * `_getOrCreateServiceInstance`, with what the loop keeps about the world
   * carried from `prev` to the result.
   */
  method ResolveOne(w: World, prev: World, s: nat, deps: seq<Dependency>, i: nat) returns (v: Result<Value, Failure>, w': World)
    requires WF(prev) && s < |prev.scopes| && i < |deps|
    requires Extends(w, prev) && Untouched(w.scopes, prev.scopes, s) && KeepsNeeding(w, prev.scopes, s, deps)
    requires Shallow(w, s, deps) ==> Shallow(prev, s, deps)
    decreases s, 8, 0
    ensures WF(w') && Extends(w, w') && Extends(prev, w')
    ensures Untouched(w.scopes, w'.scopes, s) && KeepsNeeding(w, w'.scopes, s, deps)
    ensures Shallow(w, s, deps) ==> Shallow(w', s, deps)
    ensures v.Success? ==> GetService(w'.scopes, s, deps[i].id) == Instance(v.value)
    ensures v.Failure? ==> Fault(w, s, v.error)
    ensures Shallow(w, s, deps) && v.Failure? ==> v.error.MissingDependency?
    ensures Shallow(w, s, deps) ==> |w'.built| <= |prev.built| + 1
    ensures !GetService(prev.scopes, s, deps[i].id).Descriptor? ==> w' == prev && v == Success(GetService(prev.scopes, s, deps[i].id).value)
  {
    assert deps[i] in deps;
    v, w' := GetOrCreateServiceInstance(prev, s, deps[i].id);
    ExtendsTransitive(w, prev, w');
    KeepsNeedingStep(w, prev, w'.scopes, s, deps, i);
    if Shallow(w, s, deps) {
      ShallowStable(prev, w', s, deps);
    }
    if v.Failure? {
      FaultUp(w, prev, s, s, v.error);
    }
  }

  /**
   * `_getOrCreateServiceInstance`: a descriptor is built and cached, any
   * other lookup (an instance or `undefined`) is returned as it is.
   */
  method GetOrCreateServiceInstance(w: World, s: nat, id: ServiceId) returns (r: Result<Value, Failure>, w': World)
    requires WF(w) && s < |w.scopes|
    decreases s, 7
    ensures WF(w') && Extends(w, w')
    ensures Untouched(w.scopes, w'.scopes, s) && KeepsDependents(w, w'.scopes, s, id)
    ensures !GetService(w.scopes, s, id).Descriptor? ==> w' == w && r == Success(GetService(w.scopes, s, id).value)
    ensures r.Success? ==> GetService(w'.scopes, s, id) == Instance(r.value)
    ensures GetService(w.scopes, s, id).Descriptor? && r.Success? ==>
              && Truthy(r.value) && Owner(w.scopes, s, id).Some?
              && GetService(w'.scopes, Owner(w.scopes, s, id).value, id) == Instance(r.value)
              && MadeFrom(w', Owner(w.scopes, s, id).value, GetService(w.scopes, s, id).desc, Instance(r.value))
              && New(w, Instance(r.value))
    ensures r.Failure? ==> Fault(w, s, r.error)
    ensures Leaf(w, s, id) && r.Failure? ==> r.error.MissingDependency?
    ensures Leaf(w, s, id) && !StrictAbove(w.scopes, s) ==> r.Success?
    ensures Leaf(w, s, id) ==> |w'.built| <= |w.built| + 1
    ensures Leaf(w, s, id) && GetService(w.scopes, s, id).Descriptor? && !GetService(w.scopes, s, id).desc.supportsDelayedInstantiation && r.Success? ==>
              r.value == Object(|w.built|) && |w'.built| == |w.built| + 1
    ensures forall c | CycleThrough(w, s, id, c) :: r == Failure(DiscoveryOverflow) && w' == w
  {
    var service := GetService(w.scopes, s, id);
    if service.Descriptor? {
      r, w' := CreateCachedServiceInstance(w, s, id, service.desc);
    } else {
      r, w' := Success(service.value), w;
    }
  }

  /**
   * `_createCachedServiceInstance`: discovery, then building the graph
   * bottom-up; the result is what `s` sees for `id` afterwards, which is
   * what the owner of the descriptor now holds, made from the descriptor
   * there. Only the entries of `s` on the graph change, and since no edge
   * leads back to `id`, no descriptor of `s` that depends on `id` does.
   */
  method CreateCachedServiceInstance(w: World, s: nat, id: ServiceId, desc: SyncDescriptor) returns (r: Result<Value, Failure>, w': World)
    requires WF(w) && s < |w.scopes| && GetService(w.scopes, s, id) == Descriptor(desc)
    decreases s, 6
    ensures WF(w') && Extends(w, w')
    ensures Untouched(w.scopes, w'.scopes, s) && KeepsDependents(w, w'.scopes, s, id)
    ensures r.Success? ==> Truthy(r.value) && GetService(w'.scopes, s, id) == Instance(r.value)
    ensures r.Success? ==>
              && Owner(w.scopes, s, id).Some?
              && GetService(w'.scopes, Owner(w.scopes, s, id).value, id) == Instance(r.value)
              && MadeFrom(w', Owner(w.scopes, s, id).value, desc, Instance(r.value)) && New(w, Instance(r.value))
    ensures r.Failure? ==> Fault(w, s, r.error)
    ensures Leaf(w, s, id) && r.Failure? ==> r.error.MissingDependency?
    ensures Leaf(w, s, id) && !StrictAbove(w.scopes, s) ==> r.Success?
    ensures Leaf(w, s, id) ==> |w'.built| <= |w.built| + 1
    ensures Leaf(w, s, id) && !desc.supportsDelayedInstantiation && r.Success? ==>
              r.value == Object(|w.built|) && |w'.built| == |w.built| + 1
    ensures forall c | CycleThrough(w, s, id, c) :: r == Failure(DiscoveryOverflow) && w' == w
  {
    var g := Discover(w, s, id, desc);
    if g.Failure? {
      return Failure(g.error), w;
    }
    if Leaf(w, s, id) {
      LoneSettled(w, s, id, desc);
      assert |g.value.nodes| == 1;
    }
    ExtendsReflexive(w);
    r, w' := ConsumeRoots(w, w, s, id, g.value);
    GraphKeepsDependents(w, w'.scopes, s, id, g.value);
    if r.Success? {
      BuiltAtOwner(w, w', s, id);
    }
  }

  /** The state the root loop keeps, between two roots. */
  ghost predicate Consuming(w0: World, w: World, s: nat, id: ServiceId, g: DependencyGraph<Pending>)
  {
    && WF(w) && Extends(w0, w) && s < |w.scopes|
    && Valid(g) && Keyed(g) && AllExpanded(w, s, g)
    && (forall k | k in g.nodes :: GetService(w0.scopes, s, g.nodes[k].data.id) == Descriptor(g.nodes[k].data.desc))
    && (IdString(id) in g.nodes || IsBuilt(GetService(w.scopes, s, id)))
  }

  /** A root has no edge left, so none of its constructor's dependencies is still a descriptor. */
  lemma RootIsSettled(w0: World, w: World, s: nat, id: ServiceId, g: DependencyGraph<Pending>, k: string)
    requires Consuming(w0, w, s, id, g) && k in g.nodes && g.nodes[k].outgoing == {}
    ensures DepsSettled(w, s, g.nodes[k].data.desc.ctor)
  {
    assert Expanded(w, s, g, k);
  }

  /** Expansion survives the world growing: a lookup that became a descriptor was one before. */
  lemma ExpandedStable(w: World, w': World, s: nat, g: DependencyGraph<Pending>)
    requires s < |w.scopes| && Extends(w, w') && AllExpanded(w, s, g)
    ensures AllExpanded(w', s, g)
  {
    forall k | k in g.nodes
      ensures Expanded(w', s, g, k)
    {
      assert Expanded(w, s, g, k);
    }
  }

  /** Removing a built root keeps the root loop's state. */
  lemma AfterRoot(w0: World, w: World, w': World, s: nat, id: ServiceId, g: DependencyGraph<Pending>, k: string)
    requires Consuming(w0, w, s, id, g) && k in g.nodes
    requires WF(w') && Extends(w, w') && IsBuilt(GetService(w'.scopes, s, g.nodes[k].data.id))
    ensures Consuming(w0, w', s, id, RemoveNode(g, PendingKey, g.nodes[k].data))
  {
    var p := g.nodes[k].data;
    var g' := RemoveNode(g, PendingKey, p);
    ExtendsTransitive(w0, w, w');
    ExpandedStable(w, w', s, g);
    forall k2 | k2 in g'.nodes
      ensures Expanded(w', s, g', k2)
    {
      assert Expanded(w', s, g, k2);
      forall d | d in GetServiceDependencies(w'.meta, g'.nodes[k2].data.desc.ctor) && GetService(w'.scopes, s, d.id).Descriptor?
        ensures IdString(d.id) in g'.nodes[k2].outgoing
      {
        if IdString(d.id) == k {
          IdStringInjective(d.id, p.id);
        }
      }
    }
    if IdString(id) == k {
      IdStringInjective(id, p.id);
    } else if IdString(id) !in g.nodes {
      assert IsBuilt(GetService(w.scopes, s, id));
    }
  }

  /**
   * The root loop of `_createCachedServiceInstance`, from the graph `g`
   * still to build: every pass builds the current roots that are still
   * descriptors, through their owner, stores them, and removes them; a
   * non-empty graph without roots is a cycle, which an acyclic graph never
   * reaches. Only the graph's entries of `s` change.
   */
  method ConsumeRoots(w0: World, w: World, s: nat, id: ServiceId, g: DependencyGraph<Pending>) returns (r: Result<Value, Failure>, w': World)
    requires Consuming(w0, w, s, id, g)
    decreases s, 5, |g.nodes|
    ensures WF(w') && Extends(w0, w')
    ensures ChangedWithin(w.scopes, w'.scopes, s, g.nodes.Keys)
    ensures r.Success? ==> Truthy(r.value) && GetService(w'.scopes, s, id) == Instance(r.value)
    ensures r.Failure? ==> r.error == DependencyCycle || Fault(w0, s, r.error)
    ensures Acyclic(g) ==> r != Failure(DependencyCycle)
    ensures SettledOwners(w0, s, g) && r.Failure? && r.error != DependencyCycle ==> r.error.MissingDependency?
    ensures SettledOwners(w0, s, g) ==> |w'.built| <= |w.built| + |g.nodes|
    ensures Roots(g) == {} && !IsEmpty(g) ==> r == Failure(DependencyCycle) && w' == w
  {
    var roots := Roots(g);
    if roots == {} {
      if !IsEmpty(g) {
        NoRootsMeansCycle(g);
        return Failure(DependencyCycle), w;
      }
      assert IdString(id) !in g.nodes;
      return Success(GetService(w.scopes, s, id).value), w;
    }
    var failed, w1, g1 := ConsumePass(w0, w, s, id, g, roots);
    if failed.Some? {
      SubsetCard(roots, g.nodes.Keys);
      return Failure(failed.value), w1;
    }
    if SettledOwners(w0, s, g) {
      WithinSettled(w0, s, g1, g);
    }
    r, w' := ConsumeRoots(w0, w1, s, id, g1);
    ChangedWithinTransitive(w.scopes, w1.scopes, w'.scopes, s, g.nodes.Keys, g1.nodes.Keys);
  }

  /** One pass of the root loop over the roots `todo` found at its start, one root at a time. */
  method ConsumePass(w0: World, w: World, s: nat, id: ServiceId, g: DependencyGraph<Pending>, todo: set<string>)
    returns (failed: Option<Failure>, w': World, g': DependencyGraph<Pending>)
    requires Consuming(w0, w, s, id, g)
    requires todo <= g.nodes.Keys && forall k | k in todo :: g.nodes[k].outgoing == {}
    decreases s, 4, |todo|
    ensures WF(w') && Extends(w0, w')
    ensures ChangedWithin(w.scopes, w'.scopes, s, g.nodes.Keys)
    ensures failed.None? ==> Consuming(w0, w', s, id, g') && |g'.nodes| == |g.nodes| - |todo|
    ensures failed.None? ==> Within(g', g) && (Acyclic(g) ==> Acyclic(g'))
    ensures failed.Some? ==> Fault(w0, s, failed.value)
    ensures SettledOwners(w0, s, g) && failed.Some? ==> failed.value.MissingDependency?
    ensures SettledOwners(w0, s, g) ==> |w'.built| <= |w.built| + |todo|
  {
    if todo == {} {
      ExtendsReflexive(w);
      return None, w, g;
    }
    var k :| k in todo;
    var w1, g1, left;
    failed, w1, g1, left := ConsumeRoot(w0, w, s, id, g, k, todo);
    ChangedWithinWider(w.scopes, w1.scopes, s, {k}, g.nodes.Keys);
    if failed.Some? {
      return failed, w1, g1;
    }
    ghost var settled := SettledOwners(w0, s, g);
    if settled {
      WithinSettled(w0, s, g1, g);
    }
    failed, w', g' := ConsumePass(w0, w1, s, id, g1, left);
    ChangedWithinTransitive(w.scopes, w1.scopes, w'.scopes, s, g.nodes.Keys, g1.nodes.Keys);
  }

  /** A change within some keys is a change within any larger set of keys. */
  lemma ChangedWithinWider(sc: seq<Scope>, sc': seq<Scope>, s: nat, keys: set<string>, more: set<string>)
    requires ChangedWithin(sc, sc', s, keys) && keys <= more
    ensures ChangedWithin(sc, sc', s, more)
  {
  }

  /** Build the root `k` of a pass and take it out of the graph and out of the roots `left` still to do. */
  method ConsumeRoot(w0: World, w: World, s: nat, id: ServiceId, g: DependencyGraph<Pending>, k: string, left: set<string>)
    returns (failed: Option<Failure>, w': World, g': DependencyGraph<Pending>, left': set<string>)
    requires Consuming(w0, w, s, id, g)
    requires k in left && left <= g.nodes.Keys && forall j | j in left :: g.nodes[j].outgoing == {}
    decreases s, 3
    ensures WF(w') && Extends(w0, w')
    ensures ChangedWithin(w.scopes, w'.scopes, s, {k})
    ensures failed.Some? ==> Fault(w0, s, failed.value)
    ensures SettledOwners(w0, s, g) && failed.Some? ==> failed.value.MissingDependency?
    ensures SettledOwners(w0, s, g) ==> |w'.built| <= |w.built| + 1
    ensures failed.None? ==> Consuming(w0, w', s, id, g')
    ensures failed.None? ==> Within(g', g) && (Acyclic(g) ==> Acyclic(g'))
    ensures failed.None? ==> left' <= g'.nodes.Keys && forall j | j in left' :: g'.nodes[j].outgoing == {}
    ensures failed.None? ==> |g'.nodes| - |left'| == |g.nodes| - |left| && |left'| < |left|
  {
    var p := g.nodes[k].data;
    assert PendingKey(p) == k;
    RootIsSettled(w0, w, s, id, g, k);
    failed, w' := BuildRoot(w0, w, s, p);
    if failed.Some? {
      FaultUp(w0, w, s, s, failed.value);
      ExtendsTransitive(w0, w, w');
      return failed, w', g, left;
    }
    AfterRoot(w0, w, w', s, id, g, k);
    RemoveRoot(g, k, left);
    if Acyclic(g) {
      ghost var rank :| Ranked(g, rank);
      RemovePreservesRanked(g, PendingKey, p, rank);
    }
    g', left' := RemoveNode(g, PendingKey, p), left - {k};
  }

  /** Removing one root of a pass leaves the other roots of the pass in place, still without edges. */
  lemma RemoveRoot(g: DependencyGraph<Pending>, k: string, left: set<string>)
    requires Keyed(g) && k in left && left <= g.nodes.Keys && forall j | j in left :: g.nodes[j].outgoing == {}
    ensures var g' := RemoveNode(g, PendingKey, g.nodes[k].data);
            && left - {k} <= g'.nodes.Keys && |g'.nodes| == |g.nodes| - 1 && |left - {k}| == |left| - 1
            && forall j | j in left - {k} :: g'.nodes[j].outgoing == {}
  {
    assert PendingKey(g.nodes[k].data) == k;
  }

  /**
   * One root of a pass: built through its owner and stored there, unless it
   * is no longer a descriptor. The nested build keeps the owner's
   * descriptor in place, so the store always finds it.
   */
  method BuildRoot(w0: World, w: World, s: nat, p: Pending) returns (failed: Option<Failure>, w': World)
    requires WF(w) && Extends(w0, w) && s < |w.scopes|
    requires GetService(w0.scopes, s, p.id) == Descriptor(p.desc)
    requires DepsSettled(w, s, p.desc.ctor)
    decreases s, 2
    ensures WF(w') && Extends(w, w')
    ensures ChangedWithin(w.scopes, w'.scopes, s, {IdString(p.id)})
    ensures failed.None? ==> IsBuilt(GetService(w'.scopes, s, p.id))
    ensures failed.Some? ==> Fault(w, s, failed.value)
    ensures SettledAtOwner(w0, s, p.id, p.desc.ctor) && failed.Some? ==> failed.value.MissingDependency?
    ensures SettledAtOwner(w0, s, p.id, p.desc.ctor) ==> |w'.built| <= |w.built| + 1
    ensures SettledAtOwner(w0, s, p.id, p.desc.ctor) && failed.None? && GetService(w.scopes, s, p.id).Descriptor? &&
            !p.desc.supportsDelayedInstantiation ==>
              GetService(w'.scopes, s, p.id) == Instance(Object(|w.built|)) && |w'.built| == |w.built| + 1
    ensures !GetService(w.scopes, s, p.id).Descriptor? ==> failed.None? && w' == w
  {
    var current := GetService(w.scopes, s, p.id);
    if current.Descriptor? {
      OwnerKept(w0.scopes, w.scopes, s, p.id);
      DescriptorHasOwner(w.scopes, s, p.id);
      ghost var o := Owner(w.scopes, s, p.id).value;
      if SettledAtOwner(w0, s, p.id, p.desc.ctor) {
        DepsSettledStable(w0, w, o, p.desc.ctor);
      }
      var v, w1 := CreateServiceWithOwner(w, s, p.id, p.desc);
      if v.Failure? {
        NestedFrame(w.scopes, w1.scopes, s, o, {IdString(p.id)});
        return Some(v.error), w1;
      }
      OwnerStays(w, w1, s, o, p.id);
      var stored := SetServiceInstance(w1, s, p.id, v.value);
      assert stored.Success?;
      StoreExtends(w, w1, o, p.id, v.value);
      StoreFrame(w.scopes, w1.scopes, s, o, p.id, Instance(v.value));
      w' := stored.value;
    } else {
      w' := w;
    }
    failed := None;
  }

  /**
   * `_createServiceWithOwner`: the build happens in the first scope up the
   * chain whose own registry holds a descriptor for `id`; there being none
   * is an illegal state. The owner's own descriptors for the class survive
   * the build, and nothing after the owner changes.
   */
  method CreateServiceWithOwner(w: World, s: nat, id: ServiceId, desc: SyncDescriptor) returns (r: Result<Value, Failure>, w': World)
    requires WF(w) && s < |w.scopes|
    requires DepsSettled(w, s, desc.ctor)
    decreases s, 1
    ensures WF(w') && Extends(w, w')
    ensures Owner(w.scopes, s, id).None? ==> r == Failure(IllegalState) && w' == w
    ensures Owner(w.scopes, s, id).Some? ==>
              && Untouched(w.scopes, w'.scopes, Owner(w.scopes, s, id).value)
              && KeepsCtor(w.scopes, w'.scopes, Owner(w.scopes, s, id).value, desc.ctor)
    ensures Owner(w.scopes, s, id) == Some(s) ==> w'.scopes == w.scopes
    ensures r.Success? ==>
              && Truthy(r.value) && Owner(w.scopes, s, id).Some?
              && MadeFrom(w', Owner(w.scopes, s, id).value, desc, Instance(r.value)) && New(w, Instance(r.value))
    ensures r.Failure? && Owner(w.scopes, s, id).Some? ==> Fault(w, s, r.error)
    ensures SettledAtOwner(w, s, id, desc.ctor) && r.Failure? ==> r.error.MissingDependency?
    ensures SettledAtOwner(w, s, id, desc.ctor) ==> |w'.built| <= |w.built| + 1
    ensures SettledAtOwner(w, s, id, desc.ctor) && r.Success? && !desc.supportsDelayedInstantiation ==>
              r.value == Object(|w.built|) && |w'.built| == |w.built| + 1
  {
    var owner := Owner(w.scopes, s, id);
    if owner.None? {
      return Failure(IllegalState), w;
    }
    var o := owner.value;
    assert desc == SyncDescriptor(desc.ctor, desc.staticArguments, desc.supportsDelayedInstantiation);
    r, w' := CreateService(w, o, desc.ctor, desc.staticArguments, desc.supportsDelayedInstantiation, o == s);
    if r.Failure? {
      FaultUp(w, w, s, o, r.error);
    }
  }

  /**
   * `_createService` in scope `o`: an immediate build, or a proxy over a
   * fresh idle cell whose builder is the same `_createInstance`. `local`
   * says that `o` is the scope running the root loop, whose dependencies
   * are all settled, so the build needs lookups only.
   */
  method CreateService(w: World, o: nat, ctor: Ctor, args: seq<Value>, supportsDelayedInstantiation: bool, local: bool)
    returns (r: Result<Value, Failure>, w': World)
    requires WF(w) && o < |w.scopes|
    requires local ==> DepsSettled(w, o, ctor)
    decreases o, if local then 0 else 10, 1
    ensures WF(w') && Extends(w, w')
    ensures Untouched(w.scopes, w'.scopes, o) && KeepsCtor(w.scopes, w'.scopes, o, ctor)
    ensures local || supportsDelayedInstantiation ==> w'.scopes == w.scopes
    ensures r.Success? ==> Truthy(r.value) && MadeFrom(w', o, SyncDescriptor(ctor, args, supportsDelayedInstantiation), Instance(r.value))
    ensures r.Success? ==> New(w, Instance(r.value))
    ensures r.Failure? ==> Fault(w, o, r.error)
    ensures DepsSettled(w, o, ctor) && r.Failure? ==> r.error.MissingDependency?
    ensures DepsSettled(w, o, ctor) && !supportsDelayedInstantiation ==> (r, w') == BuildSettled(w, o, ctor, args)
    ensures DepsSettled(w, o, ctor) ==> |w'.built| <= |w.built| + 1
    ensures supportsDelayedInstantiation ==>
              && r == Success(Proxy(|w.deferred|)) && w'.scopes == w.scopes && w'.built == w.built
              && w'.deferred == w.deferred + [Deferred(Idle.Construct(), o, ctor, args)]
    ensures !supportsDelayedInstantiation && r.Success? ==>
              |w'.built| > 0 && r.value == Object(|w'.built| - 1) && Wired(w', o, ctor, args, w'.built[|w'.built| - 1])
  {
    if !supportsDelayedInstantiation {
      r, w' := CreateImmediate(w, o, ctor, args, local);
      BuildSettledCases(w, o, ctor, args);
    } else {
      w' := w.(deferred := w.deferred + [Deferred(Idle.Construct(), o, ctor, args)]);
      DeferKeeps(w, w', o, ctor, args);
      Unchanged(w.scopes, o, ctor);
      r := Success(Proxy(|w.deferred|));
    }
  }

  /** The immediate branch of `_createService`: the constructor call itself, in scope `o`. */
  method CreateImmediate(w: World, o: nat, ctor: Ctor, args: seq<Value>, local: bool) returns (r: Result<Value, Failure>, w': World)
    requires WF(w) && o < |w.scopes|
    requires local ==> DepsSettled(w, o, ctor)
    decreases o, if local then 0 else 10, 0
    ensures WF(w') && Extends(w, w')
    ensures Untouched(w.scopes, w'.scopes, o) && KeepsCtor(w.scopes, w'.scopes, o, ctor)
    ensures local ==> w'.scopes == w.scopes
    ensures r.Success? ==>
              && |w'.built| > 0 && r.value == Object(|w'.built| - 1) && Wired(w', o, ctor, args, w'.built[|w'.built| - 1])
              && Truthy(r.value) && MadeFrom(w', o, SyncDescriptor(ctor, args, false), Instance(r.value))
              && New(w, Instance(r.value))
    ensures r.Failure? ==> Fault(w, o, r.error)
    ensures DepsSettled(w, o, ctor) && r.Failure? ==> r.error.MissingDependency?
    ensures DepsSettled(w, o, ctor) ==> (r, w') == BuildSettled(w, o, ctor, args)
  {
    if local {
      r, w' := BuildLocal(w, o, ctor, args);
      Unchanged(w.scopes, o, ctor);
      if r.Success? {
        ObjectMadeFrom(w', o, ctor, args, r.value);
      }
    } else {
      r, w' := Instantiate(w, o, ctor, args);
      SettledBuildFails(w, o, ctor, args);
      if r.Success? {
        ObjectMadeFrom(w', o, ctor, args, r.value);
      }
    }
  }

  /** A build that leaves the registries as they are keeps everything. */
  lemma Unchanged(sc: seq<Scope>, o: nat, ctor: Ctor)
    ensures Untouched(sc, sc, o) && KeepsCtor(sc, sc, o, ctor)
  {
  }

  /** The lookup-only build fails only by strict mode. */
  lemma SettledBuildFails(w: World, s: nat, ctor: Ctor, args: seq<Value>)
    requires s < |w.scopes|
    ensures BuildSettled(w, s, ctor, args).0.Failure? ==> BuildSettled(w, s, ctor, args).0.error.MissingDependency?
  {
    BuildSettledCases(w, s, ctor, args);
  }

  /** The last logged object, wired in `o`, is made from the immediate descriptor. */
  lemma ObjectMadeFrom(w: World, o: nat, ctor: Ctor, args: seq<Value>, v: Value)
    requires o < |w.scopes| && |w.built| > 0 && v == Object(|w.built| - 1) && Wired(w, o, ctor, args, w.built[|w.built| - 1])
    ensures Truthy(v) && MadeFrom(w, o, SyncDescriptor(ctor, args, false), Instance(v))
  {
  }

  /** The build in the scope running the root loop: every dependency is settled, so lookups suffice. */
  method BuildLocal(w: World, o: nat, ctor: Ctor, args: seq<Value>) returns (r: Result<Value, Failure>, w': World)
    requires WF(w) && o < |w.scopes| && DepsSettled(w, o, ctor)
    ensures (r, w') == BuildSettled(w, o, ctor, args)
    ensures WF(w') && Extends(w, w')
    ensures r.Failure? ==> r.error.MissingDependency? && w.scopes[o].strict && Fault(w, o, r.error)
    ensures r.Success? ==> |w'.built| > 0 && r.value == Object(|w'.built| - 1) && Wired(w', o, ctor, args, w'.built[|w'.built| - 1])
    ensures r.Success? ==> |w.built| < |w'.built|
  {
    OrderedSettled(w, o, ctor);
    var deps := Ordered(w, ctor);
    var built := BuildSettled(w, o, ctor, args);
    r, w' := built.0, built.1;
    LookupResolutionResolves(w, o, ctor, deps);
    if r.Success? {
      AssembleWired(w, o, ctor, args, LookupResolution(w, o, ctor, deps).value);
    }
  }

  /** Appending a fresh cell for scope `o` keeps the world well formed and only extends it. */
  lemma DeferKeeps(w: World, w': World, o: nat, ctor: Ctor, args: seq<Value>)
    requires WF(w) && o < |w.scopes| && w' == w.(deferred := w.deferred + [Deferred(Idle.Construct(), o, ctor, args)])
    ensures WF(w') && Extends(w, w')
    ensures MadeFrom(w', o, SyncDescriptor(ctor, args, true), Instance(Proxy(|w.deferred|)))
  {
    assert forall i | 0 <= i < |w.deferred| :: w'.deferred[i] == w.deferred[i];
  }

  /** Lookup-only resolution of settled dependencies yields resolved values. */
  lemma LookupResolutionResolves(w: World, s: nat, ctor: Ctor, deps: seq<Dependency>)
    requires s < |w.scopes| && Settled(w.scopes, s, deps)
    ensures LookupResolution(w, s, ctor, deps).Failure? ==> LookupResolution(w, s, ctor, deps).error.MissingDependency? && w.scopes[s].strict
    ensures LookupResolution(w, s, ctor, deps).Success? ==> Resolved(w, s, deps, LookupResolution(w, s, ctor, deps).value, |deps|)
  {
    if FirstMissing(w, s, deps, 0).None? {
      forall i | 0 <= i < |deps|
        ensures GetService(w.scopes, s, deps[i].id) == Instance(LookupAll(w.scopes, s, deps)[i])
      {
        assert deps[i] in deps;
      }
      assert forall i | 0 <= i < |deps| :: !Missing(w, s, deps[i]);
    }
  }
}
