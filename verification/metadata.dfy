/**
 * The dependency side table of `util.ts` and the identifier interning and
 * parameter decorators of `createDecorator.ts` / `optional.ts`.
 *
 * A constructor's own table entry stands for the pair of static properties
 * the decorators set on it: its own dependency list and the owner mark
 * pointing at itself. Both are always written together, so "has an own
 * entry" is "is marked as owner". Reading the list walks the prototype
 * chain (`Ctor.base`), as a static property read does.
 */
module Metadata {
  import opened Wrappers
  import opened Values

  /** One recorded constructor parameter: which service, at which position, optional or not. */
  datatype Dependency = Dependency(id: ServiceId, index: nat, optional: bool)

  /** Own dependency lists, per constructor. */
  datatype Table = Table(own: map<Ctor, seq<Dependency>>)

  /** The name -> identifier registry (`serviceIds`). */
  type Interner = map<string, ServiceId>

  const EmptyTable: Table := Table(map[])

  /** Does `ctor` own a dependency list (the owner mark is itself)? */
  predicate IsOwner(t: Table, ctor: Ctor)
  {
    ctor in t.own
  }

  /**
   * `getServiceDependencies`: the list found on `ctor` or, failing that,
   * along its prototype chain; the empty list if none was stored.
   */
  function GetServiceDependencies(t: Table, ctor: Ctor): (deps: seq<Dependency>)
    ensures IsOwner(t, ctor) ==> deps == t.own[ctor]
    ensures !IsOwner(t, ctor) && ctor.base.None? ==> deps == []
    decreases ctor
  {
    if ctor in t.own then t.own[ctor]
    else if ctor.base.Some? then GetServiceDependencies(t, ctor.base.value)
    else []
  }

  /**
   * `storeServiceDependency`: an owner appends to its own list; any other
   * constructor gets a fresh one-element list and becomes owner.
   */
  function StoreServiceDependency(t: Table, id: ServiceId, target: Ctor, index: nat, optional: bool): (t': Table)
    ensures IsOwner(t', target)
    ensures t'.own.Keys == t.own.Keys + {target}
    ensures IsOwner(t, target) ==> t'.own[target] == t.own[target] + [Dependency(id, index, optional)]
    ensures !IsOwner(t, target) ==> t'.own[target] == [Dependency(id, index, optional)]
    ensures forall c :: c in t.own && c != target ==> t'.own[c] == t.own[c]
  {
    var entry := Dependency(id, index, optional);
    if IsOwner(t, target) then Table(t.own[target := t.own[target] + [entry]])
    else Table(t.own[target := [entry]])
  }

  /** Storing for `target` leaves what every other owner reads unchanged. */
  lemma StoreKeepsOtherOwners(t: Table, id: ServiceId, target: Ctor, index: nat, optional: bool, other: Ctor)
    requires IsOwner(t, other) && other != target
    ensures GetServiceDependencies(StoreServiceDependency(t, id, target, index, optional), other)
         == GetServiceDependencies(t, other)
  {
  }

  /**
   * After a store, `target` reads its list: the earlier own entries in order
   * followed by the new one, or just the new one when `target` only inherited
   * a list (which is left as it was).
   */
  lemma StoreThenRead(t: Table, id: ServiceId, target: Ctor, index: nat, optional: bool)
    ensures var deps := GetServiceDependencies(StoreServiceDependency(t, id, target, index, optional), target);
            && deps[|deps| - 1] == Dependency(id, index, optional)
            && deps[..|deps| - 1] == (if IsOwner(t, target) then GetServiceDependencies(t, target) else [])
    ensures target.base.Some? && IsOwner(t, target.base.value) ==>
            StoreServiceDependency(t, id, target, index, optional).own[target.base.value] == t.own[target.base.value]
  {
  }

  /** Well-formed interner: every name maps to the identifier of that name. */
  ghost predicate Interned(names: Interner)
  {
    forall n :: n in names ==> names[n].name == n
  }

  /**
   * `createDecorator(name)`: the identifier registered for `name`, creating and
   * remembering it on first use.
   */
  function CreateDecorator(names: Interner, name: string): (r: (Interner, ServiceId))
    requires Interned(names)
    ensures Interned(r.0)
    ensures IdString(r.1) == name
    ensures r.0.Keys == names.Keys + {name}
    ensures forall n :: n in names ==> r.0[n] == names[n]
    ensures r.0[name] == r.1
    ensures name in names ==> r.0 == names
  {
    if name in names then (names, names[name])
    else (names[name := ServiceId(name)], ServiceId(name))
  }

  /** A second `createDecorator` for the same name yields the identical identifier and changes nothing. */
  lemma CreateDecoratorIdempotent(names: Interner, name: string)
    requires Interned(names)
    ensures var (names1, id1) := CreateDecorator(names, name);
            var (names2, id2) := CreateDecorator(names1, name);
            id2 == id1 && names2 == names1
  {
  }

  /** Distinct names give distinct identifiers, hence distinct graph keys. */
  lemma DistinctNamesDistinctIds(names: Interner, a: string, b: string)
    requires Interned(names) && a != b
    ensures var (names1, idA) := CreateDecorator(names, a);
            var (_, idB) := CreateDecorator(names1, b);
            idA != idB && IdString(idA) != IdString(idB)
  {
  }

  /** Applying identifier `id` to parameter `index` of `target` records a required dependency. */
  function ApplyIdentifier(t: Table, id: ServiceId, target: Ctor, index: nat): (t': Table)
    ensures var deps := GetServiceDependencies(t', target);
            |deps| > 0 && deps[|deps| - 1] == Dependency(id, index, false)
    ensures forall c :: c in t.own && c != target ==> c in t'.own && t'.own[c] == t.own[c]
  {
    StoreServiceDependency(t, id, target, index, false)
  }

  /** Applying `optional(id)` to parameter `index` of `target` records an optional dependency. */
  function ApplyOptional(t: Table, id: ServiceId, target: Ctor, index: nat): (t': Table)
    ensures var deps := GetServiceDependencies(t', target);
            |deps| > 0 && deps[|deps| - 1] == Dependency(id, index, true)
    ensures forall c :: c in t.own && c != target ==> c in t'.own && t'.own[c] == t.own[c]
  {
    StoreServiceDependency(t, id, target, index, true)
  }
}
