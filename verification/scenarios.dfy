/**
 * The container's behaviour on the situations its own test suite builds:
 * one-scope containers over concrete registries and decorator tables, a
 * parent with a child, a dependency loop, and the chain of three scopes on
 * which the write-back of `_setServiceInstance` goes astray.
 */
module Scenarios {
  import opened Wrappers
  import opened Values
  import opened Metadata
  import Collection
  import opened Engine
  import opened Container

  const S1: ServiceId := ServiceId("service1")
  const S2: ServiceId := ServiceId("service2")

  /** A single scope without parent over `services`, with an empty build log. */
  function Single(services: map<ServiceId, Entry>, strict: bool, meta: Table): World
  {
    World([Scope(Collection.ServiceCollection(services), None, strict)], meta, [], [])
  }

  // ---------------------------------------------------------------------
  // Resolution is cached
  // ---------------------------------------------------------------------

  /**
   * Resolving the same identifier twice in a lenient chain, where it needs
   * no nested build: the first resolution succeeds, and the second returns
   * the identical value and builds nothing.
   */
  method ResolveTwice(w: World, s: nat, id: ServiceId) returns (r1: Result<Value, Failure>, r2: Result<Value, Failure>, w1: World, w2: World)
    requires WF(w) && s < |w.scopes|
    requires !StrictAbove(w.scopes, s) && Leaf(w, s, id)
    ensures Extends(w, w1)
    ensures r1.Success? && r2 == r1 && w2 == w1
  {
    r1, w1 := GetOrCreateServiceInstance(w, s, id);
    r2, w2 := GetOrCreateServiceInstance(w1, s, id);
  }

  const Service1: Ctor := Ctor("Service1", None)

  /**
   * A lenient container holding a descriptor of a class without
   * dependencies: the first `get` builds the class once, with no
   * arguments, and the second `get` answers the same object and builds
   * nothing more.
   */
  method DescriptorBuiltOnce() returns (first: Result<Value, Failure>, second: Result<Value, Failure>, w1: World, w2: World)
    ensures first == Success(Object(0)) && w1.built == [Construction(Service1, [])]
    ensures second == first && w2 == w1
  {
    var desc := SyncDescriptor(Service1, [], false);
    var w := Single(map[S1 := Descriptor(desc)], false, EmptyTable);
    var live := Accessor(0, false);
    assert GetService(w.scopes, 0, S1) == Descriptor(desc);
    assert Owner(w.scopes, 0, S1) == Some(0);
    assert Leaf(w, 0, S1);
    first, w1 := AccessorGet(w, live, S1, false);
    var c := w1.built[0];
    assert Wired(w1, 0, Service1, [], c);
    assert Ordered(w1, Service1) == [];
    assert c.args == [];
    second, w2 := AccessorGet(w1, live, S1, false);
  }

  // ---------------------------------------------------------------------
  // ServiceCollection
  // ---------------------------------------------------------------------

  /** `set` answers the previous entry: `undefined` first, then the `null` that was stored; `has` sees a stored `null`. */
  lemma CollectionCannotOverwriteSilently()
    ensures var (c1, first) := Collection.Set(Collection.Empty, S1, Instance(Null));
            var (c2, second) := Collection.Set(c1, S1, Instance(Foreign(1)));
            && first == Miss && second == Instance(Null)
            && Collection.Has(c1, S1) && !Collection.Has(c1, S2)
            && Collection.Get(c2, S1) == Instance(Foreign(1))
  {
  }

  // ---------------------------------------------------------------------
  // Parameter decorators and the strict flag
  // ---------------------------------------------------------------------

  /**
   * Parameter decorators run from the last parameter to the first: on a
   * constructor without a list of its own, decorating parameter 1 and then
   * parameter 0 records them in that reverse order, and sorting by index
   * restores the parameter order.
   */
  lemma DecoratorsRecordReversed(t: Table, target: Ctor, first: ServiceId, second: ServiceId, secondOptional: bool)
    requires !IsOwner(t, target)
    ensures var t1 := if secondOptional then ApplyOptional(t, second, target, 1) else ApplyIdentifier(t, second, target, 1);
            var deps := GetServiceDependencies(ApplyIdentifier(t1, first, target, 0), target);
            && deps == [Dependency(second, 1, secondOptional), Dependency(first, 0, false)]
            && SortByIndex(deps) == [Dependency(first, 0, false), Dependency(second, 1, secondOptional)]
  {
    var a, b := Dependency(second, 1, secondOptional), Dependency(first, 0, false);
    var t1 := StoreServiceDependency(t, second, target, 1, secondOptional);
    assert t1.own[target] == [a];
    SortRestoresParameterOrder(a, b);
  }

  /** Sorting by index puts a reversed pair back in parameter order. */
  lemma SortRestoresParameterOrder(a: Dependency, b: Dependency)
    requires a.index > b.index
    ensures SortByIndex([a, b]) == [b, a]
  {
    assert [a, b][..1] == [a];
    assert [a][..0] == [];
  }

  /** A target whose two dependencies scope `s` sees as instances needs no building first. */
  lemma TwoSettled(w: World, s: nat, ctor: Ctor, d1: Dependency, d2: Dependency)
    requires s < |w.scopes| && Ordered(w, ctor) == [d1, d2]
    requires GetService(w.scopes, s, d1.id).Instance? && GetService(w.scopes, s, d2.id).Instance?
    ensures DepsSettled(w, s, ctor)
  {
    forall x | x in GetServiceDependencies(w.meta, ctor)
      ensures !GetService(w.scopes, s, x.id).Descriptor?
    {
      SortKeepsMembers(GetServiceDependencies(w.meta, ctor), x);
    }
  }

  /** The lookup-only build of a two-parameter target whose dependencies pass the strict check. */
  lemma TwoBuilt(w: World, s: nat, ctor: Ctor, d1: Dependency, d2: Dependency, v1: Value, v2: Value)
    requires s < |w.scopes| && Ordered(w, ctor) == [d1, d2] && d1.index == 0
    requires GetService(w.scopes, s, d1.id) == Instance(v1) && GetService(w.scopes, s, d2.id) == Instance(v2)
    requires !Missing(w, s, d1) && !Missing(w, s, d2)
    ensures BuildSettled(w, s, ctor, []) == (Success(Object(|w.built|)), w.(built := w.built + [Construction(ctor, [v1, v2])]))
  {
    BuildSettledCases(w, s, ctor, []);
    assert FirstMissing(w, s, [d1, d2], 0) == None;
    assert LookupAll(w.scopes, s, [d1, d2]) == [v1, v2];
    assert ReconcileArgs([], 0) + [v1, v2] == [v1, v2];
  }

  /** The lookup-only build of a two-parameter target whose second dependency fails the strict check. */
  lemma TwoRejected(w: World, s: nat, ctor: Ctor, d1: Dependency, d2: Dependency)
    requires s < |w.scopes| && Ordered(w, ctor) == [d1, d2]
    requires !Missing(w, s, d1) && Missing(w, s, d2)
    ensures BuildSettled(w, s, ctor, []) == (Failure(MissingDependency(ctor, d2.id)), w)
  {
    BuildSettledCases(w, s, ctor, []);
    assert FirstMissing(w, s, [d1, d2], 1) == Some(1);
  }

  /**
   * A one-scope container in which `first` is the instance `v` and nothing
   * is registered for `second` builds a target decorated with `first` and
   * `second`: passing `undefined` for `second` when the container is
   * lenient or `second` is optional, and otherwise throwing for `second`
   * and building nothing.
   */
  method OptionalParameter(w: World, ctor: Ctor, first: ServiceId, second: ServiceId, secondOptional: bool, v: Value)
    returns (r: Result<Value, Failure>, w': World)
    requires WF(w) && |w.scopes| == 1
    requires Ordered(w, ctor) == [Dependency(first, 0, false), Dependency(second, 1, secondOptional)]
    requires GetService(w.scopes, 0, first) == Instance(v) && Truthy(v) && GetService(w.scopes, 0, second) == Miss
    ensures !w.scopes[0].strict || secondOptional ==>
              r == Success(Object(|w.built|)) && w' == w.(built := w.built + [Construction(ctor, [v, Undefined])])
    ensures w.scopes[0].strict && !secondOptional ==> r == Failure(MissingDependency(ctor, second)) && w' == w
  {
    var d1, d2 := Dependency(first, 0, false), Dependency(second, 1, secondOptional);
    TwoSettled(w, 0, ctor, d1, d2);
    if w.scopes[0].strict && !secondOptional {
      TwoRejected(w, 0, ctor, d1, d2);
    } else {
      TwoBuilt(w, 0, ctor, d1, d2, v, Undefined);
    }
    r, w' := CreateInstance(w, 0, Plain(ctor), []);
  }

  /**
   * The collection handed to a lenient container stays live: the target
   * first gets `undefined` for the unregistered `second`, and after `set`
   * on the collection gets the registered instance.
   */
  method CollectionIsLive(w: World, ctor: Ctor, first: ServiceId, second: ServiceId, v1: Value, v2: Value)
    returns (before: Result<Value, Failure>, after: Result<Value, Failure>, w1: World, w2: World)
    requires WF(w) && |w.scopes| == 1 && !w.scopes[0].strict && first != second
    requires Ordered(w, ctor) == [Dependency(first, 0, false), Dependency(second, 1, false)]
    requires GetService(w.scopes, 0, first) == Instance(v1) && Truthy(v1) && GetService(w.scopes, 0, second) == Miss
    ensures before == Success(Object(|w.built|)) && w1.built == w.built + [Construction(ctor, [v1, Undefined])]
    ensures after == Success(Object(|w1.built|)) && w2.built == w1.built + [Construction(ctor, [v1, v2])]
  {
    before, w1 := OptionalParameter(w, ctor, first, second, false, v1);
    var (live, _) := Register(w1, 0, second, Instance(v2));
    assert Own(live.scopes, 0, first) == Own(w1.scopes, 0, first);
    assert ParentOf(live.scopes, 0) == None;
    var d1, d2 := Dependency(first, 0, false), Dependency(second, 1, false);
    TwoSettled(live, 0, ctor, d1, d2);
    TwoBuilt(live, 0, ctor, d1, d2, v1, v2);
    after, w2 := CreateInstance(live, 0, Plain(ctor), []);
  }

  // ---------------------------------------------------------------------
  // invokeFunction
  // ---------------------------------------------------------------------

  /** `get` of an unregistered service throws unless it is asked for as optional, which yields `undefined`. */
  method GetServiceOptional() returns (found: Result<Value, Failure>, missing: Result<Value, Failure>, optionalMissing: Result<Value, Failure>)
    ensures found == Success(Foreign(1))
    ensures missing == Failure(UnknownService(S2))
    ensures optionalMissing == Success(Undefined)
  {
    var w := Single(map[S1 := Instance(Foreign(1))], false, EmptyTable);
    var live := Accessor(0, false);
    var sink: World;
    assert GetService(w.scopes, 0, S2) == Miss;
    found, sink := AccessorGet(w, live, S1, false);
    missing, sink := AccessorGet(w, live, S2, false);
    optionalMissing, sink := AccessorGet(w, live, S2, true);
  }

  /**
   * The accessor works while the function runs and refuses every `get`
   * once `invokeFunction` has returned; a function that throws makes the
   * invocation fail.
   */
  method KeepingAccessor() returns (during: Result<seq<Value>, Failure>, later: Result<Value, Failure>, thrown: Result<seq<Value>, Failure>)
    ensures during == Success([Foreign(1), Foreign(1)])
    ensures later == Failure(StaleAccessor)
    ensures thrown == Failure(UserError)
  {
    var w := Single(map[S1 := Instance(Foreign(1)), S2 := Instance(Foreign(2))], false, EmptyTable);
    var fn := [Fetch(S1, false), Fetch(S1, false)];
    assert GetService(w.scopes, 0, S1) == Instance(Foreign(1));
    assert NothingToBuild(w, 0, fn);
    assert fn[0..] == fn && fn[2..] == [];
    assert LookupCalls(w, 0, fn[2..]) == Success([]);
    LookupCallsStep(w, 0, fn, 1);
    assert [Foreign(1)] + [] == [Foreign(1)];
    LookupCallsStep(w, 0, fn, 0);
    assert [Foreign(1)] + [Foreign(1)] == [Foreign(1), Foreign(1)];
    assert LookupCalls(w, 0, fn) == Success([Foreign(1), Foreign(1)]);
    var w1, kept, sink;
    during, w1, kept := InvokeFunction(w, 0, fn);
    later, sink := AccessorGet(w1, kept, S2, false);
    var spent;
    assert NothingToBuild(w, 0, [Raise]);
    thrown, sink, spent := InvokeFunction(w, 0, [Raise]);
  }

  // ---------------------------------------------------------------------
  // A dependency loop
  // ---------------------------------------------------------------------

  const Loop1: Ctor := Ctor("ServiceLoop1", None)
  const Loop2: Ctor := Ctor("ServiceLoop2", None)

  /** `IService1` is built by a class needing `IService2`, which is built by a class needing `IService1`. */
  function LoopWorld(): World
  {
    Single(map[S1 := Descriptor(SyncDescriptor(Loop1, [], false)), S2 := Descriptor(SyncDescriptor(Loop2, [], false))],
           false, Table(map[Loop1 := [Dependency(S2, 0, false)], Loop2 := [Dependency(S1, 0, false)]]))
  }

  lemma LoopIsCycle()
    ensures CycleThrough(LoopWorld(), 0, S1, {S1, S2}) && CycleThrough(LoopWorld(), 0, S2, {S1, S2})
  {
    var w := LoopWorld();
    var c := {S1, S2};
    assert GetService(w.scopes, 0, S1) == Descriptor(SyncDescriptor(Loop1, [], false));
    assert GetService(w.scopes, 0, S2) == Descriptor(SyncDescriptor(Loop2, [], false));
    assert Dependency(S2, 0, false) in GetServiceDependencies(w.meta, Loop1);
    assert Dependency(S1, 0, false) in GetServiceDependencies(w.meta, Loop2);
    assert DependsInto(w, Loop1, c) && DependsInto(w, Loop2, c);
    forall id | Member(c, id)
      ensures GetService(w.scopes, 0, id).Descriptor? && DependsInto(w, GetService(w.scopes, 0, id).desc.ctor, c)
    {
    }
  }

  /** Asking for either service of the loop throws, every time, and leaves the container as it was. */
  method ExplodeOnLoop() returns (first: Result<Value, Failure>, second: Result<Value, Failure>, again: Result<Value, Failure>, w': World)
    ensures first == Failure(DiscoveryOverflow) && second == Failure(DiscoveryOverflow) && again == Failure(DiscoveryOverflow)
    ensures w' == LoopWorld()
  {
    LoopIsCycle();
    var live := Accessor(0, false);
    first, w' := AccessorGet(LoopWorld(), live, S1, false);
    second, w' := AccessorGet(w', live, S2, false);
    again, w' := AccessorGet(w', live, S1, false);
  }

  // ---------------------------------------------------------------------
  // A child container
  // ---------------------------------------------------------------------

  /** The lookup-only build of a target with the single dependency `d`, which scope `s` sees as the instance `v`. */
  lemma BuildOne(w: World, s: nat, ctor: Ctor, d: Dependency, v: Value)
    requires s < |w.scopes| && Ordered(w, ctor) == [d] && d.index == 0
    requires GetService(w.scopes, s, d.id) == Instance(v) && !Missing(w, s, d)
    ensures DepsSettled(w, s, ctor)
    ensures BuildSettled(w, s, ctor, []) == (Success(Object(|w.built|)), w.(built := w.built + [Construction(ctor, [v])]))
  {
    forall x | x in GetServiceDependencies(w.meta, ctor)
      ensures !GetService(w.scopes, s, x.id).Descriptor?
    {
      SortKeepsMembers(GetServiceDependencies(w.meta, ctor), x);
    }
    BuildSettledCases(w, s, ctor, []);
    assert FirstMissing(w, s, [d], 0) == None;
    assert LookupAll(w.scopes, s, [d]) == [v];
    assert ReconcileArgs([], 0) + [v] == [v];
  }

  /** A build of a target with the single dependency `id` at index 0 passed `id`'s instance, as scope `s` sees it afterwards. */
  lemma SingleDependencyWired(w: World, s: nat, ctor: Ctor, id: ServiceId, c: Construction)
    requires s < |w.scopes| && Ordered(w, ctor) == [Dependency(id, 0, false)] && Wired(w, s, ctor, [], c)
    ensures c == Construction(ctor, [c.args[0]])
    ensures GetService(w.scopes, s, id) == Instance(c.args[0]) && (w.scopes[s].strict ==> Truthy(c.args[0]))
  {
    assert c.args == [c.args[0]];
  }

  /**
   * A consumer of `id` built in scope `s`, then in a child of `s` whose own
   * collection leaves `id` falsy: the child passes the very instance the
   * first build used and builds the consumer and nothing else, so a
   * descriptor behind `id` is built once.
   */
  method ChildAfterBuild(w: World, s: nat, consumer: Ctor, id: ServiceId, services: Collection.ServiceCollection)
    returns (r1: Result<Value, Failure>, r2: Result<Value, Failure>, w1: World, w2: World)
    requires WF(w) && s < |w.scopes| && Ordered(w, consumer) == [Dependency(id, 0, false)]
    requires id != IInstantiationService && !EntryTruthy(Collection.Get(services, id))
    requires !StrictAbove(w.scopes, s) && Leaf(w, s, id)
    ensures r1.Success? && |w1.built| > 0 && r2 == Success(Object(|w1.built|))
    ensures w2.built == w1.built + [w1.built[|w1.built| - 1]]
    ensures !GetService(w.scopes, s, id).Descriptor? ==>
              w1.built == w.built + [Construction(consumer, [GetService(w.scopes, s, id).value])]
    ensures GetService(w.scopes, s, id).Descriptor? && !GetService(w.scopes, s, id).desc.supportsDelayedInstantiation ==>
              && |w1.built| == |w.built| + 2 && w1.built[|w.built|].ctor == GetService(w.scopes, s, id).desc.ctor
              && w1.built[|w.built| + 1] == Construction(consumer, [Object(|w.built|)])
  {
    OneDependencyShallow(w, s, consumer, id);
    r1, w1 := CreateInstance(w, s, Plain(consumer), []);
    var (wc, child) := CreateChild(w1, s, services);
    r2, w2 := CreateInstance(wc, child, Plain(consumer), []);
    var c := w1.built[|w1.built| - 1];
    SingleDependencyWired(w1, s, consumer, id, c);
    BuildOne(wc, child, consumer, Dependency(id, 0, false), c.args[0]);
    FirstBuild(w, w1, s, consumer, id);
  }

  /**
   * The same with the child created before `s` builds the consumer: the
   * child still sees the instance, because `s` stores it in the owner's
   * registry, which the child reads through.
   */
  method ChildBeforeBuild(w: World, s: nat, consumer: Ctor, id: ServiceId, services: Collection.ServiceCollection)
    returns (r1: Result<Value, Failure>, r2: Result<Value, Failure>, w1: World, w2: World)
    requires WF(w) && s < |w.scopes| && Ordered(w, consumer) == [Dependency(id, 0, false)]
    requires id != IInstantiationService && !EntryTruthy(Collection.Get(services, id))
    requires !StrictAbove(w.scopes, s) && Leaf(w, s, id)
    ensures r1.Success? && |w1.built| > 0 && r2 == Success(Object(|w1.built|))
    ensures w2.built == w1.built + [w1.built[|w1.built| - 1]]
    ensures !GetService(w.scopes, s, id).Descriptor? ==>
              w1.built == w.built + [Construction(consumer, [GetService(w.scopes, s, id).value])]
    ensures GetService(w.scopes, s, id).Descriptor? && !GetService(w.scopes, s, id).desc.supportsDelayedInstantiation ==>
              && |w1.built| == |w.built| + 2 && w1.built[|w.built|].ctor == GetService(w.scopes, s, id).desc.ctor
              && w1.built[|w.built| + 1] == Construction(consumer, [Object(|w.built|)])
  {
    var (wc, child) := CreateChild(w, s, services);
    ChildKeepsLeaf(w, wc, s, id);
    OneDependencyShallow(wc, s, consumer, id);
    r1, w1 := CreateInstance(wc, s, Plain(consumer), []);
    r2, w2 := CreateInstance(w1, child, Plain(consumer), []);
    var c := w1.built[|w1.built| - 1];
    SingleDependencyWired(w1, s, consumer, id, c);
    ChildReadsThrough(wc, w1, s, child, id);
    BuildOne(w1, child, consumer, Dependency(id, 0, false), c.args[0]);
    FirstBuild(wc, w1, s, consumer, id);
  }

  /**
   * The first build of the consumer of `id`, from `w` to `w1`: with an
   * instance behind `id` the consumer alone is constructed; with an eager
   * descriptor, that service is constructed once, first, and the consumer
   * gets the new object.
   */
  lemma FirstBuild(w: World, w1: World, s: nat, consumer: Ctor, id: ServiceId)
    requires WF(w) && s < |w.scopes| && Ordered(w, consumer) == [Dependency(id, 0, false)]
    requires !StrictAbove(w.scopes, s) && Leaf(w, s, id) && Extends(w, w1)
    requires |w1.built| > 0 && |w1.built| <= |w.built| + 2 && Wired(w1, s, consumer, [], w1.built[|w1.built| - 1])
    requires DepsSettled(w, s, consumer) ==> (Success(Object(|w1.built| - 1)), w1) == BuildSettled(w, s, consumer, [])
    ensures !GetService(w.scopes, s, id).Descriptor? ==>
              w1.built == w.built + [Construction(consumer, [GetService(w.scopes, s, id).value])]
    ensures GetService(w.scopes, s, id).Descriptor? && !GetService(w.scopes, s, id).desc.supportsDelayedInstantiation ==>
              && |w1.built| == |w.built| + 2 && w1.built[|w.built|].ctor == GetService(w.scopes, s, id).desc.ctor
              && w1.built[|w.built| + 1] == Construction(consumer, [Object(|w.built|)])
  {
    var d := Dependency(id, 0, false);
    if !GetService(w.scopes, s, id).Descriptor? {
      BuildOne(w, s, consumer, d, GetService(w.scopes, s, id).value);
    } else if !GetService(w.scopes, s, id).desc.supportsDelayedInstantiation {
      var c := w1.built[|w1.built| - 1];
      SingleDependencyWired(w1, s, consumer, id, c);
      assert IsBuilt(GetService(w1.scopes, s, id));
      BuiltAtOwner(w, w1, s, id);
      NotItsOwnConsumer(w, s, consumer, id);
    }
  }

  /** A descriptor that needs no nested build is not for a class that consumes it. */
  lemma NotItsOwnConsumer(w: World, s: nat, consumer: Ctor, id: ServiceId)
    requires s < |w.scopes| && Ordered(w, consumer) == [Dependency(id, 0, false)]
    requires Leaf(w, s, id) && GetService(w.scopes, s, id).Descriptor?
    ensures GetService(w.scopes, s, id).desc.ctor != consumer
  {
    var o := Owner(w.scopes, s, id).value;
    SortKeepsMembers(GetServiceDependencies(w.meta, consumer), Dependency(id, 0, false));
    assert GetService(w.scopes, o, id) == Own(w.scopes, o, id);
  }

  /** A target whose one dependency needs no nested build needs none for any of its dependencies. */
  lemma OneDependencyShallow(w: World, s: nat, ctor: Ctor, id: ServiceId)
    requires Ordered(w, ctor) == [Dependency(id, 0, false)] && Leaf(w, s, id)
    ensures Shallow(w, s, GetServiceDependencies(w.meta, ctor))
  {
    forall x | x in GetServiceDependencies(w.meta, ctor)
      ensures Leaf(w, s, x.id)
    {
      SortKeepsMembers(GetServiceDependencies(w.meta, ctor), x);
    }
  }

  /** Creating a child leaves an existing scope's view of `id`, and its chain's leniency, as they were. */
  lemma ChildKeepsLeaf(w: World, wc: World, s: nat, id: ServiceId)
    requires s < |w.scopes| && |wc.scopes| == |w.scopes| + 1 && wc.scopes[..|w.scopes|] == w.scopes && wc.meta == w.meta
    requires Leaf(w, s, id) && !StrictAbove(w.scopes, s)
    ensures Leaf(wc, s, id) && !StrictAbove(wc.scopes, s)
  {
    var x := wc.scopes[|w.scopes|];
    assert wc.scopes == w.scopes + [x];
    AppendKeepsLookup(w.scopes, x, s, id);
    AppendKeepsLookups(w.scopes, x);
  }

  /** A child whose own entry is falsy keeps reading through to its parent as the world advances. */
  lemma ChildReadsThrough(w: World, w': World, s: nat, child: nat, id: ServiceId)
    requires child < |w.scopes| && s < child && w.scopes[child].parent == Some(s)
    requires !EntryTruthy(Own(w.scopes, child, id)) && Advances(w, w')
    ensures GetService(w'.scopes, child, id) == GetService(w'.scopes, s, id)
    ensures w'.scopes[child].strict == w.scopes[child].strict
  {
    assert Own(w'.scopes, child, id) == Own(w.scopes, child, id);
    assert ParentOf(w'.scopes, child) == Some(s);
  }

  // ---------------------------------------------------------------------
  // Where the built instance is stored
  // ---------------------------------------------------------------------

  /**
   * Root 0 holds a descriptor for `IService1`; scope 1 is its child, scope
   * 2 a grandchild under 1, and scope 3 a second child of the root.
   */
  const Counter: Ctor := Ctor("CtorCounter", None)

  function ThreeLevels(): World
  {
    World([Scope(Collection.ServiceCollection(map[S1 := Descriptor(SyncDescriptor(Counter, [], false))]), None, false),
           Scope(Collection.Empty, Some(0), false),
           Scope(Collection.Empty, Some(1), false),
           Scope(Collection.Empty, Some(0), false)], EmptyTable, [], [])
  }

  /**
   * The write of `_setServiceInstance` as written, from the grandchild:
   * the instance lands in the middle scope, so the grandchild sees it but
   * the root, which owns the descriptor, and its other child still see the
   * descriptor and would build the service a second time.
   */
  lemma AsWrittenLeavesOwnerStale()
    ensures var w := ThreeLevels();
            && Owner(w.scopes, 2, S1) == Some(0)
            && var r := SetServiceInstanceAsWritten(w, 2, S1, Object(0));
            && r.Success?
            && GetService(r.value.scopes, 2, S1) == Instance(Object(0))
            && GetService(r.value.scopes, 0, S1).Descriptor?
            && GetService(r.value.scopes, 3, S1).Descriptor?
  {
    var w := ThreeLevels();
    var sc := WriteAt(w.scopes, 1, S1, Instance(Object(0)));
    assert Own(sc, 0, S1) == Own(w.scopes, 0, S1);
    assert Own(sc, 3, S1) == Miss;
  }

  /** The write at the owner, from the same grandchild: every scope of the chain sees the instance. */
  lemma AtOwnerReachesEveryScope()
    ensures var w := ThreeLevels();
            && WF(w)
            && var r := SetServiceInstance(w, 2, S1, Object(0));
            && r.Success?
            && forall t | 0 <= t < 4 :: GetService(r.value.scopes, t, S1) == Instance(Object(0))
  {
    var w := ThreeLevels();
    assert WF(w);
    var sc := WriteAt(w.scopes, 0, S1, Instance(Object(0)));
    assert Own(sc, 1, S1) == Miss && Own(sc, 2, S1) == Miss && Own(sc, 3, S1) == Miss;
    assert GetService(sc, 0, S1) == Instance(Object(0));
    assert GetService(sc, 1, S1) == Instance(Object(0));
  }

  /**
   * Where the descriptor sits in the scope itself or in its parent, the
   * write as written and the write at the owner agree: only deeper chains
   * tell them apart.
   */
  lemma AsWrittenAgreesNearOwner(w: World, s: nat, id: ServiceId, v: Value)
    requires WF(w) && s < |w.scopes| && Truthy(v) && Owner(w.scopes, s, id).Some?
    requires Owner(w.scopes, s, id) == Some(s) || Owner(w.scopes, s, id) == ParentOf(w.scopes, s)
    ensures SetServiceInstanceAsWritten(w, s, id, v) == SetServiceInstance(w, s, id, v)
  {
  }
}
