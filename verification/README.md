# A model of the instantiation container

This project models, in Dafny, the core of a small constructor-injection
container written in TypeScript:

- the service registry (`ServiceCollection`);
- the per-constructor dependency table written by the parameter decorators,
  and the interning of service identifiers (`createDecorator`, `optional`);
- the keyed dependency graph (`DependencyGraph`);
- the idle-until-urgent cell (`IdleService`);
- the resolution engine (`InstantiationService`): scope lookup through the
  parent chain, argument assembly, graph-based creation of descriptor-backed
  services with its 1000-step discovery ceiling and its cycle check, owner
  lookup and write-back, deferred services, `createInstance`, `createChild`
  and the transient accessor of `invokeFunction`.

The mutable container objects become one immutable `World`: the scopes (each
with its registry, its parent and its strict flag), the dependency table, a
log of every `new ctor(...)` the container performs (the `i`-th one yields
`Object(i)`), and the idle cells of deferred services. Every operation takes a
world and returns the next one. A parent scope always has a smaller index than
its child, which orders the engine's mutual recursion.

Layout, one module per file:

| file | module | models |
|---|---|---|
| `wrappers.dfy` | `Wrappers` | `Option` and `Result` |
| `values.dfy` | `Values` | identifiers, classes, JavaScript values and truthiness, descriptors, registry entries, errors |
| `collection.dfy` | `Collection` | `ServiceCollection` |
| `metadata.dfy` | `Metadata` | `util.ts`, `createDecorator.ts`, `optional.ts` |
| `graph.dfy` | `Graph` | `DependencyGraph` |
| `idle.dfy` | `Idle` | `IdleService` and the handles of `runWhenIdle` |
| `engine.dfy` | `Engine` | the private resolution methods of `InstantiationService` |
| `container.dfy` | `Container` | the public methods of `InstantiationService` and the proxies of deferred services |
| `scenarios.dfy` | `Scenarios` | the situations the container's test suite builds |

Decisions that shape the model:

- Identifiers are interned by name, so an identifier is its name. The
  graph's hash function, the identifier's `toString`, is that name.
- A registry miss is the entry `Instance(Undefined)`, as `Map.get` answers
  `undefined`. Every place the source tests truthiness (`_getService`, the
  strict check, the accessor) tests JavaScript truthiness of the entry; a
  descriptor is an object and so is truthy.
- Node neighbour maps are sets of keys: the node stored under a key is always
  the graph's own node for that key.
- Constructors are opaque builders. Building one logs a `Construction` of the
  class and the argument list it was called with, and never throws.
- The engine stores a built instance in the registry of the scope that owns
  the descriptor; the source writes to the immediate parent instead (see
  Findings).
- The idle cell is constructed with its callback scheduled; as written the
  scheduler is never installed (see Findings).
- A JavaScript `Proxy` over a deferred service becomes `Proxy(p)`, a handle on
  cell `p`; a property read through it is a read of the cell's `value`.

Behaviours of the code that the model keeps as they are:

- Ownership is the first scope up the chain whose own registry holds a
  descriptor; a scope holding a truthy instance for the id is passed over.
- A scope builds under its own strict flag, and a child's flag is
  independent of its parent's. A descriptor owned by a strict ancestor can
  therefore fail with a missing dependency when a lenient scope asks for
  it: a failure is a fault of the request when it is the discovery ceiling,
  or a missing dependency with some strict scope on the chain.
- A cell rethrows a cached error only when the error is truthy; a thrown
  `undefined`, `null` or `false` is swallowed and `value` answers the unset
  value (`Idle.FalsyErrorIsSwallowed`).
- The test "service collection is live" expects `createInstance(Target2Dep)`
  to throw while `IService2` is unregistered. The container itself does not
  throw there: it passes `undefined` and the class's own assertion throws.
  `Scenarios.CollectionIsLive` states the container's part.

## Model

| member | source | states |
|---|---|---|
| `Collection.Set` | sources/ServiceCollection.ts:19-28 | `set` stores the entry (so `get` yields it and `has` holds), returns what `get` answered before, and leaves every other id's entry and `has` unchanged |
| `Collection.FromEntries` | sources/ServiceCollection.ts:10-14 | after construction `has(id)` holds exactly for the ids among the given pairs |
| `Collection.FromEntriesLastWins` | sources/ServiceCollection.ts:10-14 | after construction each id holds the entry of its last pair, and an id without a pair is a miss |
| `Collection.SetThenGet` | sources/ServiceCollection.ts:19-43 | a `get` after `set(id, e)` yields `e` and `has(id)` holds, whatever `e` is (a `null` too) |
| `Collection.SetReturnsPrevious` | sources/ServiceCollection.ts:19-28 | on a fresh id the first `set` returns `undefined` and a second one returns what the first stored |
| `Metadata.GetServiceDependencies` | sources/util.ts:14-22 | an owner reads its own list, a class without a list anywhere on its prototype chain reads the empty list |
| `Metadata.StoreServiceDependency` | sources/util.ts:24-36 | an owner appends the new entry to its list, any other class gets the one-element list and becomes owner; no other owner's list changes |
| `Metadata.StoreKeepsOtherOwners` | sources/util.ts:24-36 | storing for one class leaves what every other owner reads unchanged |
| `Metadata.StoreThenRead` | sources/util.ts:30-35 | after a store the class reads its earlier own entries in order followed by the new one, or only the new one when it merely inherited a list, which stays as it was |
| `Metadata.CreateDecorator` | sources/decorators/createDecorator.ts:21-37 | the identifier for a name has that name as string form, is created on first use and returned unchanged later; the registry only gains that name |
| `Metadata.CreateDecoratorIdempotent` | sources/decorators/createDecorator.ts:22-34 | a second `createDecorator` of the same name yields the identical identifier and changes no registry entry |
| `Metadata.ApplyIdentifier` | sources/decorators/createDecorator.ts:24-30 | applying an identifier to parameter `index` records the required dependency `{id, index, false}` last, and no other owner's list changes |
| `Metadata.ApplyOptional` | sources/decorators/optional.ts:5-9 | applying `optional(id)` to parameter `index` records the optional dependency `{id, index, true}` last, and no other owner's list changes |
| `Graph.LookupOrInsertNode` | sources/DependencyGraph.ts:70-80 | a present key returns the existing node and leaves the graph as it was (keeping the first payload); an absent key adds exactly one edgeless node for the payload |
| `Graph.InsertKeyPreservesValid` | sources/DependencyGraph.ts:70-80 | inserting a node keeps every edge inside the graph and the edges symmetric |
| `Graph.InsertEdge` | sources/DependencyGraph.ts:46-52 | `insertEdge` makes both endpoints exist, records `to` among `from`'s outgoing and `from` among `to`'s incoming, keeps every payload, and adds no other neighbour |
| `Graph.InsertEdgePreservesValid` | sources/DependencyGraph.ts:46-52 | edge insertion keeps the graph closed and its edges symmetric |
| `Graph.InsertEdgeIdempotent` | sources/DependencyGraph.ts:46-52 | repeating `insertEdge(from, to)` leaves the graph unchanged |
| `Graph.RemoveNode` | sources/DependencyGraph.ts:55-63 | `removeNode` deletes the key from the node table and from every remaining node's incoming and outgoing sets, changes nothing else, shrinks the graph by one for a present key and is a no-op for an absent one |
| `Graph.RemoveKey` | sources/DependencyGraph.ts:55-63 | the key-level removal keeps a closed, symmetric graph closed and symmetric |
| `Graph.Roots` | sources/DependencyGraph.ts:12-22 | `roots` yields exactly the nodes without outgoing edges |
| `Graph.AcyclicHasRoot` | sources/DependencyGraph.ts:12-22 | a non-empty graph whose edges a ranking strictly decreases has a root |
| `Graph.NoRootsMeansCycle` | sources/service/InstantiationService.ts:203-204 | the engine's cycle check is sound: a non-empty graph without roots has no ranking, so it has a cycle |
| `Graph.RankedHasNoKnot` | sources/DependencyGraph.ts:12-22 | a ranked graph has no knot of nodes each with an edge inside it |
| `Graph.KnotFreeRanked` | sources/DependencyGraph.ts:12-22 | a closed graph without knots can be ranked: peeling its roots repeatedly empties it |
| `Graph.AcyclicIffKnotFree` | sources/DependencyGraph.ts:12-22 | a closed graph is acyclic exactly when it has no knot |
| `Graph.RemovePreservesRanked` | sources/DependencyGraph.ts:55-63 | removing a node keeps a ranking valid, so an acyclic graph stays acyclic |
| `Graph.NothingReachesStart` | sources/service/InstantiationService.ts:165-197 | in an acyclic graph where every other node is entered by an edge, no edge enters the start node |
| `Idle.InitRunWhenIdle` | sources/idleService.ts:62-101 | the initialiser binds `runWhenIdle` exactly when it is invoked, to the native idle callback when the host has one and to the timeout fallback otherwise |
| `Idle.Schedule` | sources/idleService.ts:74-89 | a freshly scheduled callback is neither disposed nor fired |
| `Idle.DisposeHandle` | sources/idleService.ts:79-98 | the handle's `dispose` marks it disposed, cancels the host callback exactly when it was not yet disposed, and changes nothing on a disposed handle |
| `Idle.DisposeIdempotent` | sources/idleService.ts:79-98 | a second `dispose` is a no-op that cancels nothing |
| `Idle.NewIdleService` | sources/idleService.ts:16-28 | construction fails with a TypeError exactly when `runWhenIdle` is unassigned; otherwise the executor is scheduled and has not run |
| `Idle.Construct` | sources/idleService.ts:16-28 | a constructed cell is scheduled, has not run and caches nothing |
| `Idle.ConstructionAsWrittenThrows` | sources/idleService.ts:51-101 | with the initialiser never invoked every construction throws, whatever the host offers; invoked, construction succeeds |
| `Idle.Execute` | sources/idleService.ts:17-25 | the wrapped executor stores the value or the error it produced and sets `didRun` either way |
| `Idle.IdleFire` | sources/idleService.ts:27 | the idle callback runs the executor once if it is pending, and a disposed or fired callback does nothing |
| `Idle.Dispose` | sources/idleService.ts:30-32 | the cell's `dispose` disposes its handle and nothing else |
| `Idle.GetValue` | sources/idleService.ts:34-43 | `value` disposes a pending callback and runs the executor if it has not run, then rethrows a truthy cached error and otherwise answers the cached value |
| `Idle.ValueIsCached` | sources/idleService.ts:34-43 | once the executor has run, every read answers the same result whatever the executor would produce, and changes nothing |
| `Idle.FailureIsRethrown` | sources/idleService.ts:20-40 | a truthy error thrown by the executor is rethrown by the first and every later read |
| `Idle.FalsyErrorIsSwallowed` | sources/idleService.ts:40 | a falsy thrown value is not rethrown; the read answers the unset value |
| `Idle.Step` | sources/idleService.ts:27-43 | every event (idle callback, read, dispose) keeps the cell consistent and never lowers its run count |
| `Idle.Run` | sources/idleService.ts:27-43 | any sequence of events keeps the cell consistent |
| `Idle.ExecutorRunsAtMostOnce` | sources/idleService.ts:17-38 | whatever mix of idle callbacks, reads and disposals happens, the executor runs at most once, and exactly once if it had run or a read occurs |
| `Idle.ConstructedCellRunsAtMostOnce` | sources/idleService.ts:16-43 | from construction on, the executor runs at most once, and not at all before any event |
| `Engine.LookupIsFirstTruthy` | sources/service/InstantiationService.ts:148-153 | `_getService` answers the own entry of the first scope up the chain whose entry is truthy, or the root's entry; every scope below it holds a falsy entry |
| `Engine.FalsyBelowSameLookup` | sources/service/InstantiationService.ts:148-153 | across a run of falsy entries every scope sees what the top of the run sees |
| `Engine.ReachesStrict` | sources/service/InstantiationService.ts:100 | a strict scope above an ancestor is a strict scope above the descendant, so a fault raised in an owner is a fault of the request |
| `Engine.Owner` | sources/service/InstantiationService.ts:237-252 | the owner is the first scope up the chain whose own registry holds a descriptor, reachable from the scope, and every descriptor a scope sees has one |
| `Engine.DescriptorHasOwner` | sources/service/InstantiationService.ts:230-253 | a descriptor seen from a scope is the owner's own entry, and every scope between them holds a falsy entry |
| `Engine.OwnerKept` | sources/service/InstantiationService.ts:230-253 | storing built instances never changes which owner a descriptor still seen has, nor the descriptor |
| `Engine.OwnerStays` | sources/service/InstantiationService.ts:230-253 | while the owner keeps its descriptor, later worlds keep the same lookup and the same owner |
| `Engine.OwnStepGivesViewStep` | sources/service/InstantiationService.ts:148-153 | replacing descriptors by built instances in registries does the same to every lookup, and changes no other lookup |
| `Engine.SetServiceInstance` | sources/service/InstantiationService.ts:255-263 | the write at the owner: a scope that sees a descriptor afterwards sees the instance, and so does the owner; without an owner it is an illegal state |
| `Engine.SetReachesLookup` | sources/service/InstantiationService.ts:255-263 | after the write at the owner, the scope that saw the descriptor sees the instance |
| `Engine.SetServiceInstanceAsWritten` | sources/service/InstantiationService.ts:255-263 | the write as written: into the own registry if it holds a descriptor, else into the immediate parent's, else an illegal state |
| `Engine.Visit` | sources/service/InstantiationService.ts:173 | `lookupOrInsertNode` of a popped payload keeps the graph valid and current, keeps every existing node, and leaves the payload's node carrying that payload |
| `Engine.VisitKnown` | sources/service/InstantiationService.ts:173 | a node already under a popped payload's key carries that very payload, so the lookup changes nothing |
| `Engine.Link` | sources/service/InstantiationService.ts:187-193 | an edge from the current payload to a dependency seen as a descriptor keeps the graph valid and current and adds only the dependency's node |
| `Engine.PushOne` | sources/service/InstantiationService.ts:180-195 | a dependency seen as a descriptor gets an edge from the current node and is pushed on top of the stack; any other dependency changes nothing |
| `Engine.PushDependencies` | sources/service/InstantiationService.ts:177-196 | after the inner loop the current node has an edge to every dependency its class has that the scope sees as a descriptor, and the stack has gained exactly those dependencies, in declaration order |
| `Engine.Discover` | sources/service/InstantiationService.ts:165-197 | discovery either overflows its ceiling or yields a valid, acyclic graph holding the requested id, which no edge enters, in which every node is a descriptor the scope sees and has an edge to each such dependency; it overflows exactly when the walk that unfolds from the id, pushing every descriptor dependency without checking for visited nodes, would take 1002 pops; a cycle of descriptors through the id always overflows; a class with nothing to build yields the one-node graph |
| `Engine.Turn` | sources/service/InstantiationService.ts:170-196 | one turn of the discovery loop: the 1002nd pop spends the whole budget of pops and aborts; any earlier pop leaves the popped node's pushes on the stack with the pops still owed accounted for |
| `Engine.TwoLevelsFit` | sources/service/InstantiationService.ts:167-196 | a descriptor with at most 1000 descriptor dependencies, none of which has descriptor dependencies of its own, is discovered in one pop per node, well under the ceiling |
| `Engine.DiscoverDone` | sources/service/InstantiationService.ts:170-197 | when the stack empties, every node has been expanded, the graph is acyclic, no edge enters the requested id and no cycle of descriptors runs through it |
| `Engine.DiscoveredAcyclic` | sources/service/InstantiationService.ts:170-197 | a finished discovery whose nodes meet no cycle of descriptors yields an acyclic graph |
| `Engine.KnotIsCycle` | sources/service/InstantiationService.ts:187-195 | a knot in a discovered graph is a cycle of descriptors the scope sees, each depending on another |
| `Engine.InsertByIndex` | sources/service/InstantiationService.ts:92-94 | inserting into an index-sorted list keeps it sorted and adds exactly that entry |
| `Engine.SortByIndex` | sources/service/InstantiationService.ts:92-94 | the dependency sort yields a permutation of its input sorted by parameter index |
| `Engine.SortKeepsMembers` | sources/service/InstantiationService.ts:92-94 | the sort neither loses nor invents a dependency |
| `Engine.ReconcileArgs` | sources/service/InstantiationService.ts:113-124 | the static arguments are brought to exactly the first service position, keeping the leading ones, padding with `undefined` and unchanged when the lengths agree |
| `Engine.FirstMissing` | sources/service/InstantiationService.ts:97-106 | the first dependency in order that strict mode rejects, with none rejected before it, or none at all |
| `Engine.AssembleWired` | sources/service/InstantiationService.ts:108-126 | the constructor call is the reconciled static arguments followed by the resolved services in index order, and yields the next object |
| `Engine.Instantiate` | sources/service/InstantiationService.ts:87-127 | `_createInstance` either fails with a fault (the ceiling, or a missing dependency under a strict scope of the chain) or yields a new object, never logged before, whose call passes, after the static arguments, what the scope sees for each dependency in index order; it succeeds whenever no dependency needs a nested build and no scope of the chain is strict, and then logs at most one construction per dependency plus its own; with nothing to build it is the lookup-only build |
| `Engine.Construct` | sources/service/InstantiationService.ts:126 | with the services resolved the constructor call is always made, logged as the next object and wired; with nothing to build it equals the lookup-only build |
| `Engine.AfterResolution` | sources/service/InstantiationService.ts:97-126 | a failed resolution is answered as the fault it is, building nothing more; a successful one leads to the constructor call, logged as a new object |
| `Engine.ResolveDependencies` | sources/service/InstantiationService.ts:97-106 | the resolution loop yields, for each dependency, the instance the scope then sees (truthy for a required one in a strict scope), fails only with a fault, and only with a missing dependency when no dependency needs a nested build, in which case each dependency costs at most one construction; with nothing to build it changes nothing and answers the lookups |
| `Engine.ResolveOne` | sources/service/InstantiationService.ts:98-105 | one step of the resolution loop: the answer is what the scope then sees, a failure is a fault, a dependency needing no nested build stays that way and costs at most one construction, and a non-descriptor is a lookup that changes nothing |
| `Engine.LookupResolutionResolves` | sources/service/InstantiationService.ts:97-106 | resolution by lookups alone fails only with a missing dependency in strict mode and otherwise yields resolved values |
| `Engine.GetOrCreateServiceInstance` | sources/service/InstantiationService.ts:129-146 | a non-descriptor lookup is answered as it is and changes nothing; a descriptor that succeeds is replaced by a truthy instance, new to the world, made in its owner from its own class and arguments, and both the scope and the owner see it; one that needs no nested build succeeds in a chain without strict scopes, costs at most one construction, and an eager one exactly one, answering the next object; failures are faults; a cycle through the id fails and changes nothing |
| `Engine.CreateCachedServiceInstance` | sources/service/InstantiationService.ts:155-228 | discovery then root consumption: on success the scope and the descriptor's owner both see a truthy instance, new to the world, made in the owner from that descriptor; with no nested build needed it cannot fail in a lenient chain, fails only on a missing dependency otherwise, costs at most one construction and, for an eager descriptor, exactly one answering the next object; a cycle of descriptors fails with the ceiling and changes nothing |
| `Engine.BuiltAtOwner` | sources/service/InstantiationService.ts:212-220 | once a scope that saw a descriptor sees a built instance, its owner sees the same instance, made from that descriptor |
| `Engine.EdgeToDependency` | sources/service/InstantiationService.ts:187-194 | in an expanded graph, a node whose class depends on a descriptor has an edge to it |
| `Engine.GraphKeepsDependents` | sources/service/InstantiationService.ts:200-227 | root consumption changes only the graph's keys, none of which depends on the requested id, so every own descriptor whose class depends on it stays in place |
| `Engine.RootIsSettled` | sources/service/InstantiationService.ts:208-221 | a root of the graph has no dependency the scope still sees as a descriptor |
| `Engine.AfterRoot` | sources/service/InstantiationService.ts:208-224 | removing a built root keeps the root loop's state: every remaining node still has its dependency edges |
| `Engine.ConsumeRoots` | sources/service/InstantiationService.ts:200-227 | the root loop ends; on success the scope sees the truthy instance answered for the requested id; a non-empty graph without roots fails with the cycle error and changes nothing, while an acyclic graph never raises it; any other failure is a fault, and only a missing dependency when every node's dependencies are settled at its owner, in which case each node costs at most one construction; only the graph's keys change in the scope |
| `Engine.ConsumePass` | sources/service/InstantiationService.ts:208-224 | one pass builds and removes every root found at its start, shrinking the graph by their number, keeping it acyclic and inside the graph it started from, and, with every node settled at its owner, costing at most one construction per root |
| `Engine.ConsumeRoot` | sources/service/InstantiationService.ts:208-224 | one root is built if needed and removed, at a cost of at most one construction when settled at its owner, leaving the other roots of the pass in place, the graph acyclic if it was, and every other key unchanged |
| `Engine.RemoveRoot` | sources/service/InstantiationService.ts:223 | removing one root shrinks the graph by one and leaves the other roots of the pass without edges |
| `Engine.BuildRoot` | sources/service/InstantiationService.ts:209-221 | a root still seen as a descriptor is built through its owner and stored, so the scope sees a built instance and only that key changes; settled at its owner it costs at most one construction, and an eager one is exactly the next object; a root already built is skipped and nothing changes; a failure is a fault |
| `Engine.CreateServiceWithOwner` | sources/service/InstantiationService.ts:230-253 | the build happens in the owner scope, which alone may gain entries, and yields a truthy instance, new to the world, made there from the given class and arguments; settled at the owner it costs at most one construction, exactly one (the next object) when eager; without an owner it is an illegal state that changes nothing |
| `Engine.CreateService` | sources/service/InstantiationService.ts:265-298 | an eager build yields a new object wired in the building scope, and with settled dependencies it is the lookup-only build, one construction; a delayed one yields the proxy of a fresh scheduled cell for the same build and builds nothing; either is made from the given class and arguments |
| `Engine.CreateImmediate` | sources/service/InstantiationService.ts:271-272 | the eager branch: a new object wired in the building scope, made from the class and arguments, failing only with a fault, and equal to the lookup-only build when nothing needs a nested build |
| `Engine.BuildLocal` | sources/service/InstantiationService.ts:271-272 | in the scope running the root loop the build is the lookup-only build, fails only with a missing dependency in strict mode, and is wired |
| `Engine.DeferKeeps` | sources/service/InstantiationService.ts:273-276 | appending a fresh cell keeps the world well formed and changes no lookup |
| `Container.AppendKeepsLookups` | sources/service/InstantiationService.ts:19-29 | adding a scope changes no lookup of the existing scopes |
| `Container.NewInstantiationService` | sources/service/InstantiationService.ts:19-25 | a new scope over the collection, with the given parent and strict flag, that registers itself under `IInstantiationService` and changes no other entry or existing lookup |
| `Container.CreateChild` | sources/service/InstantiationService.ts:27-29 | the child has the parent's strict flag, sees itself as the container, sees its own truthy entries, and sees through to the parent what its collection leaves falsy |
| `Container.Register` | sources/ServiceCollection.ts:19-28 | `set` on a live scope's collection changes that entry only and returns the previous one |
| `Container.CreateInstance` | sources/service/InstantiationService.ts:31-53 | `createInstance` of a class or descriptor builds immediately in the scope, with the descriptor's static arguments before the call's; it fails only with a fault and succeeds whenever no dependency needs a nested build in a lenient chain, then logging at most one construction per dependency plus its own; with nothing to build it is the lookup-only build |
| `Container.AccessorGet` | sources/service/InstantiationService.ts:63-75 | a finished accessor throws; otherwise the answer is what the scope sees, a falsy one throws unless asked for as optional, a plain lookup changes nothing, and a descriptor needing no nested build in a lenient chain is built in its owner, once, as a new instance, and answered |
| `Container.InvokeFunction` | sources/service/InstantiationService.ts:55-83 | the accessor handed out is finished afterwards whether the function returned or threw; on success each `get` answered what the scope sees, truthy unless optional; a throwing function fails the call; when no `get` meets a descriptor the call answers exactly the sequence of lookups, failing at the first falsy required one |
| `Container.LookupCallsStep` | sources/service/InstantiationService.ts:63-78 | a `get` without a build answers the lookup, throwing for a falsy required one, and the rest of the function continues from there |
| `Container.ProxyValue` | sources/service/InstantiationService.ts:277-290 | a read through a deferred service's proxy runs its build once, which on success is a new object wired in the cell's scope from the cell's class and arguments and on failure a fault, certain to succeed when nothing needs a nested build in a lenient chain; afterwards the cell has run exactly once and every read answers the cached result and builds nothing |
| `Container.FirstRead` | sources/service/InstantiationService.ts:281 | the first read through a proxy runs the build and caches its result: a new object wired in the cell's scope, or a fault, success being certain when nothing needs a nested build in a lenient chain |
| `Container.BuildDeferred` | sources/service/InstantiationService.ts:274-276 | the builder behind a cell is `_createInstance` of its class and arguments in its scope: it fails only with a fault, only with a missing dependency and never in a lenient chain when nothing needs a nested build, and with nothing to build it is the lookup-only build |
| `Container.IdleCallback` | sources/idleService.ts:27 | a pending idle callback builds the service and caches the build's outcome, classified as for the builder, leaving the cell run once; a disposed or fired one changes nothing; no other cell changes |
| `Scenarios.ResolveTwice` | sources/test/instantiationService.test.ts:244-250 | resolving an id that needs no nested build in a lenient chain succeeds, and resolving it again answers the identical value and builds nothing |
| `Scenarios.DescriptorBuiltOnce` | sources/test/instantiationService.test.ts:237-252 | a lenient container holding a descriptor of a class without dependencies builds it on the first `get`, with no arguments, so the log holds exactly that one construction, and answers the same object on the second `get` without changing anything |
| `Scenarios.CollectionCannotOverwriteSilently` | sources/test/instantiationService.test.ts:139-157 | `set` answers `undefined` first and then the stored `null`; `has` sees the stored `null` and not an unset id |
| `Scenarios.DecoratorsRecordReversed` | sources/test/instantiationService.test.ts:94-98 | decorators applied from the last parameter to the first record the dependencies in reverse order, and the sort restores parameter order |
| `Scenarios.SortRestoresParameterOrder` | sources/service/InstantiationService.ts:92-94 | sorting a reversed pair of dependencies puts it back in parameter order |
| `Scenarios.OptionalParameter` | sources/test/instantiationService.test.ts:205-216 | a strict container throws for a missing required second parameter and builds nothing, while an optional one, or a lenient container, gets `undefined` |
| `Scenarios.CollectionIsLive` | sources/test/instantiationService.test.ts:181-203 | a lenient container first passes `undefined` for the unregistered service, and after `set` on its collection passes the registered instance |
| `Scenarios.GetServiceOptional` | sources/test/instantiationService.test.ts:335-347 | `get` of an unregistered service throws unless asked for as optional, which answers `undefined` |
| `Scenarios.KeepingAccessor` | sources/test/instantiationService.test.ts:349-382 | the accessor answers both `get` calls while the function runs, the invocation succeeds, a kept accessor throws once `invokeFunction` has returned, and a throwing function fails the invocation |
| `Scenarios.LoopIsCycle` | sources/test/instantiationService.test.ts:289-296 | two descriptors whose classes depend on each other form a cycle through either identifier |
| `Scenarios.ExplodeOnLoop` | sources/test/instantiationService.test.ts:289-316 | asking for either service of the loop throws at the discovery ceiling, every time, and leaves the container as it was |
| `Scenarios.ChildAfterBuild` | sources/test/instantiationService.test.ts:396-408 | the parent's build of the consumer succeeds, logging exactly the consumer's construction over a service already built, or exactly the service's class and then the consumer given that new object over an eager descriptor; a child created after it passes the identical instance and builds only the consumer, so the service is built once |
| `Scenarios.ChildBeforeBuild` | sources/test/instantiationService.test.ts:410-423 | the same holds, with the same exact log for the parent's build, for a child created before the parent built the consumer |
| `Scenarios.ChildReadsThrough` | sources/service/InstantiationService.ts:151 | a child whose own entry is falsy keeps seeing what its parent sees while the world advances |
| `Scenarios.AsWrittenLeavesOwnerStale` | sources/service/InstantiationService.ts:259-262 | from a grandchild, the write as written lands in the middle scope: the grandchild sees the instance, the owning root and its other child still see the descriptor |
| `Scenarios.AtOwnerReachesEveryScope` | sources/service/InstantiationService.ts:255-263 | from the same grandchild, the write at the owner makes every scope of the chain see the instance |
| `Scenarios.AsWrittenAgreesNearOwner` | sources/service/InstantiationService.ts:259-261 | when the descriptor sits in the scope itself or its parent, the write as written and the write at the owner agree |

## Left out

- Tracing (`tracing/Trace.ts` and every `trace` argument) is not part of this model: it only times and prints, and never affects resolution.
- The `console.log` warnings on reconciled static arguments and on unregistered dependencies: output only; the padding and truncation they accompany are modelled.
- `DependencyGraph.toString`: a text rendering only.
- The order in which `roots()` lists nodes (JavaScript map insertion order): roots are a set and a pass takes them in any order. Every root of a pass has its dependencies built already, so the order changes only the order of entries in the build log.
- The `Proxy` traps of a deferred service: method binding and caching of bound methods on the proxy, and the `set` trap, are left out. A property read through the proxy is modelled as a read of the cell's `value`.
- The host scheduler (`requestIdleCallback`, `setTimeout`, deadlines and timeouts): a handle with a `disposed` and a `fired` flag stands for it, and the host firing a callback is an explicit event.
- Constructor bodies: a class is an opaque builder that always succeeds. Constructors that throw, and reentrant engine calls from inside them (the test "Remote window / integration tests is broken #105562"), are left out.
- The body of an invoked function: it is a sequence of accessor `get` calls and possibly a throw of its own; its extra arguments and its own return value are left out.
- Two containers sharing one collection object: every scope has its own registry.
- `SyncDescriptor` and `ServiceIdentifier` are not part of this model beyond their fields as the engine uses them.
- `Engine.Instantiate`: success is promised only when no dependency needs a nested build (each is a plain lookup, or a descriptor whose class's dependencies are already plain lookups in the scope and in the owner) and no scope of the chain is strict; deeper descriptor chains (the tests at sources/test/instantiationService.test.ts:254-287) are covered by the fault and wiring clauses only.
- `Engine.ResolveDependencies`: the same bound applies; a dependency that needs a nested build is shown to resolve only through the fault clause.
- `Engine.GetOrCreateServiceInstance`: success is promised for an id that needs no nested build in a lenient chain; beyond that a failure is only shown to be a fault.
- `Engine.CreateCachedServiceInstance`: the same bound as `Engine.GetOrCreateServiceInstance`.
- `Engine.ConsumeRoots`: success is not promised for a graph whose roots need nested builds; it states that an acyclic graph never raises the cycle error and that other failures are faults.
- `Container.CreateInstance`: the same bound as `Engine.Instantiate`.
- `Container.AccessorGet`: success, and the count of constructions, are promised only for an id that needs no nested build in a lenient chain, as for `Engine.GetOrCreateServiceInstance`; a `get` that builds a descriptor whose own dependencies need building (the test at sources/test/instantiationService.test.ts:254-269) is covered by the fault clause only.
- `Container.InvokeFunction`: a function that catches a failing `get` and carries on (the test at sources/test/instantiationService.test.ts:340-344) is not modelled: the function ends at its first failure. Its exact outcome is stated only when no `get` meets a descriptor.
- `Engine.SortByIndex`: stability (dependencies on the same parameter index keeping their recorded order) is not stated; only sortedness and the permutation are.
- `Engine.GetOrCreateServiceInstance`: stores the built instance at the owner through `Engine.SetServiceInstance`, the corrected form of sources/service/InstantiationService.ts:261, not the write as written (see Findings).
- `Engine.CreateCachedServiceInstance`: stores the built instance at the owner through `Engine.SetServiceInstance`, the corrected form of sources/service/InstantiationService.ts:261, not the write as written (see Findings).
- `Engine.BuildRoot`: stores the built instance at the owner through `Engine.SetServiceInstance`, the corrected form of sources/service/InstantiationService.ts:261, not the write as written (see Findings).
- `Engine.CreateService`: builds its delayed cell through `Idle.Construct`, the corrected construction, not the never-scheduling one as written (see Findings).

## Findings

| source | as written | input that shows it | evidently intended | confidence | as-written member | corrected member |
|---|---|---|---|---|---|---|
| sources/service/InstantiationService.ts:261 | a scope without its own descriptor stores the built instance in its immediate parent's collection | a root owning a descriptor for `service1`, a child of it and a grandchild under the child; the grandchild resolves `service1`: the instance lands in the child, the root and its other children still see the descriptor and build a second instance | store the instance in the collection of the scope that owns the descriptor, as `_createServiceWithOwner` builds it there | not executed | `Scenarios.AsWrittenLeavesOwnerStale` | `Scenarios.AtOwnerReachesEveryScope` |
| sources/idleService.ts:62-101 | the initialiser of `runWhenIdle` is a parenthesised function expression that is never called, so `runWhenIdle` stays unassigned | any `new IdleService(executor)`, as made for every descriptor with delayed instantiation: calling the unassigned `runWhenIdle` throws a TypeError | invoke the initialiser, so that construction schedules the executor | not executed | `Idle.ConstructionAsWrittenThrows` | `Idle.ConstructedCellRunsAtMostOnce` |

The engine stores instances through `Engine.SetServiceInstance` (the write at
the owner); `Engine.SetServiceInstanceAsWritten` models the line as written.
The engine constructs cells through `Idle.Construct` (initialiser invoked);
`Idle.NewIdleService` with an uninvoked initialiser models the line as written.
