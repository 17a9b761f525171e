/**
 * The values the container handles: service identifiers, constructors,
 * JavaScript values as far as the container inspects them, descriptors and
 * registry entries, and the errors resolution can raise.
 */
module Values {
  import opened Wrappers

  /**
   * A service identifier. Identifiers are interned by name (see
   * `Metadata.CreateDecorator`), so two identifiers are the same object
   * exactly when their names agree; the name is also the identifier's
   * string form, which the resolution graph uses as its key.
   */
  datatype ServiceId = ServiceId(name: string)

  /** The string form of an identifier (`toString`). */
  function IdString(id: ServiceId): string
  {
    id.name
  }

  /** A class: its name and the class it extends, if any (the prototype chain). */
  datatype Ctor = Ctor(name: string, base: Option<Ctor>)

  /** Errors raised during resolution, one per `throw` in the engine. */
  datatype Failure =
    | MissingDependency(ctor: Ctor, id: ServiceId)  // strict mode, required dependency unknown
    | UnknownService(id: ServiceId)                  // accessor `get` of an unknown, non-optional id
    | DiscoveryOverflow                              // more than 1000 discovery steps
    | DependencyCycle                                // non-empty graph without roots
    | IllegalState                                   // no scope in the chain owns the descriptor
    | StaleAccessor                                  // accessor used after `invokeFunction` returned
    | SchedulerMissing                               // `runWhenIdle` called while unassigned
    | UserError                                      // the invoked function threw by itself

  /**
   * A JavaScript value as far as the container looks at it. `Object(a)` is the
   * `a`-th object the container constructed, `Foreign(t)` an object made
   * elsewhere (an instance registered directly), `Proxy(c)` the stand-in for
   * the deferred cell `c`, `Injector(s)` the container object of scope `s`, and
   * `Error(f)` a thrown error object.
   */
  datatype Value =
    | Undefined
    | Null
    | Bool(b: bool)
    | Object(addr: nat)
    | Foreign(tag: nat)
    | Proxy(cell: nat)
    | Injector(scope: nat)
    | Error(failure: Failure)

  /** JavaScript truthiness of the values above. */
  predicate Truthy(v: Value)
  {
    match v
    case Undefined => false
    case Null => false
    case Bool(b) => b
    case _ => true
  }

  /** A recipe for a not yet built service (`SyncDescriptor`). */
  datatype SyncDescriptor = SyncDescriptor(ctor: Ctor, staticArguments: seq<Value>, supportsDelayedInstantiation: bool)

  /** What a registry slot holds: a live value or a descriptor. */
  datatype Entry = Instance(value: Value) | Descriptor(desc: SyncDescriptor)

  /** What `Map.get` yields for an absent key: `undefined`. */
  const Miss: Entry := Instance(Undefined)

  /** Truthiness of an entry: descriptors are objects, hence truthy. */
  predicate EntryTruthy(e: Entry)
  {
    e.Descriptor? || Truthy(e.value)
  }

  /** A slot that holds a built (truthy, non-descriptor) service. */
  predicate IsBuilt(e: Entry)
  {
    e.Instance? && Truthy(e.value)
  }

  /** Two identifiers with the same string form are the same identifier. */
  lemma IdStringInjective(a: ServiceId, b: ServiceId)
    requires IdString(a) == IdString(b)
    ensures a == b
  {
  }
}
