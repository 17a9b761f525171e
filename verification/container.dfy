/**
 * The public surface of `InstantiationService`: construction, `createChild`,
 * `createInstance`, `invokeFunction` with its accessor, and the proxies of
 * deferred services.
 */
module Container {
  import opened Wrappers
  import opened Values
  import opened Metadata
  import Collection
  import opened Engine
  import Idle

  // ---------------------------------------------------------------------
  // Scopes
  // ---------------------------------------------------------------------

  /** Adding a scope after `t` changes neither what `t` sees, nor its descriptor's owner, nor its chain's strictness. */
  lemma {:induction false} AppendKeepsLookup(sc: seq<Scope>, x: Scope, t: nat, id: ServiceId)
    requires t < |sc|
    ensures GetService(sc + [x], t, id) == GetService(sc, t, id)
    ensures Owner(sc + [x], t, id) == Owner(sc, t, id)
    ensures StrictAbove(sc + [x], t) <==> StrictAbove(sc, t)
    decreases t
  {
    assert (sc + [x])[t] == sc[t];
    assert Own(sc + [x], t, id) == Own(sc, t, id);
    assert ParentOf(sc + [x], t) == ParentOf(sc, t);
    if ParentOf(sc, t).Some? {
      AppendKeepsLookup(sc, x, ParentOf(sc, t).value, id);
    }
  }

  /** Adding a scope changes no lookup of the existing ones. */
  lemma AppendKeepsLookups(sc: seq<Scope>, x: Scope)
    ensures forall t, id | 0 <= t < |sc| :: GetService(sc + [x], t, id) == GetService(sc, t, id)
  {
    forall t, id | 0 <= t < |sc|
      ensures GetService(sc + [x], t, id) == GetService(sc, t, id)
    {
      AppendKeepsLookup(sc, x, t, id);
    }
  }

  /**
   * The constructor `new InstantiationService(services, strict, parent)`: a
   * new scope over `services`, in which the container registers itself
   * under `IInstantiationService`.
   */
  function NewInstantiationService(w: World, services: Collection.ServiceCollection, strict: bool, parent: Option<nat>): (r: (World, nat))
    requires WF(w)
    requires parent.Some? ==> parent.value < |w.scopes|
    ensures var (w', me) := r;
            && WF(w') && me == |w.scopes| && |w'.scopes| == me + 1 && w'.scopes[..me] == w.scopes
            && w'.meta == w.meta && w'.built == w.built && w'.deferred == w.deferred
            && w'.scopes[me].parent == parent && w'.scopes[me].strict == strict
            && Own(w'.scopes, me, IInstantiationService) == Instance(Injector(me))
            && (forall id | id != IInstantiationService :: Own(w'.scopes, me, id) == Collection.Get(services, id))
            && (forall t, id | 0 <= t < me :: GetService(w'.scopes, t, id) == GetService(w.scopes, t, id))
  {
    var me := |w.scopes|;
    var registry := Collection.Set(services, IInstantiationService, Instance(Injector(me))).0;
    var x := Scope(registry, parent, strict);
    AppendKeepsLookups(w.scopes, x);
    assert (w.scopes + [x])[..me] == w.scopes;
    (w.(scopes := w.scopes + [x]), me)
  }

  /**
   * `createChild`: a scope over `services` whose parent is `s`, with `s`'s
   * strict flag. What the child's own collection leaves falsy it sees
   * through `s`.
   */
  function CreateChild(w: World, s: nat, services: Collection.ServiceCollection): (r: (World, nat))
    requires WF(w) && s < |w.scopes|
    ensures var (w', child) := r;
            && WF(w') && child == |w.scopes| && |w'.scopes| == child + 1 && w'.scopes[..child] == w.scopes
            && w'.meta == w.meta && w'.built == w.built && w'.deferred == w.deferred
            && w'.scopes[child].parent == Some(s) && w'.scopes[child].strict == w.scopes[s].strict
            && GetService(w'.scopes, child, IInstantiationService) == Instance(Injector(child))
            && (forall id | id != IInstantiationService && EntryTruthy(Collection.Get(services, id)) ::
                  GetService(w'.scopes, child, id) == Collection.Get(services, id))
            && (forall id | id != IInstantiationService && !EntryTruthy(Collection.Get(services, id)) ::
                  GetService(w'.scopes, child, id) == GetService(w.scopes, s, id))
            && (forall t, id | 0 <= t < child :: GetService(w'.scopes, t, id) == GetService(w.scopes, t, id))
  {
    NewInstantiationService(w, services, w.scopes[s].strict, Some(s))
  }

  /**
   * `set` on the collection of a live scope: the registry is shared with
   * the container, so later lookups see the change. Returns the previous
   * entry.
   */
  function Register(w: World, s: nat, id: ServiceId, e: Entry): (r: (World, Entry))
    requires WF(w) && s < |w.scopes|
    ensures WF(r.0) && SameShape(w.scopes, r.0.scopes) && r.0.meta == w.meta
    ensures r.0.built == w.built && r.0.deferred == w.deferred
    ensures Own(r.0.scopes, s, id) == e && r.1 == Own(w.scopes, s, id)
    ensures forall t, k | 0 <= t < |w.scopes| && (t != s || k != id) :: Own(r.0.scopes, t, k) == Own(w.scopes, t, k)
  {
    (w.(scopes := WriteAt(w.scopes, s, id, e)), Own(w.scopes, s, id))
  }

  // ---------------------------------------------------------------------
  // createInstance
  // ---------------------------------------------------------------------

  /** What `createInstance` is given: a class, or a descriptor. */
  datatype Target = Plain(ctor: Ctor) | FromDescriptor(descriptor: SyncDescriptor)

  function TargetCtor(t: Target): Ctor
  {
    match t
    case Plain(c) => c
    case FromDescriptor(d) => d.ctor
  }

  /** The static arguments: the descriptor's, followed by the call's. */
  function TargetArgs(t: Target, rest: seq<Value>): seq<Value>
  {
    match t
    case Plain(_) => rest
    case FromDescriptor(d) => d.staticArguments + rest
  }

  /**
   * `createInstance(ctorOrDescriptor, ...rest)`: always an immediate build
   * in scope `s` (a descriptor's delayed flag is not consulted); the result
   * is never cached. It fails only by the discovery ceiling or by strict
   * mode in `s` or an ancestor, and in a lenient chain it succeeds whenever
   * no dependency needs a nested build.
   */
  method CreateInstance(w: World, s: nat, target: Target, rest: seq<Value>) returns (r: Result<Value, Failure>, w': World)
    requires WF(w) && s < |w.scopes|
    ensures WF(w') && Extends(w, w')
    ensures r.Success? ==> |w'.built| > 0 && r.value == Object(|w'.built| - 1)
    ensures r.Success? ==> Wired(w', s, TargetCtor(target), TargetArgs(target, rest), w'.built[|w'.built| - 1])
    ensures r.Failure? ==> Fault(w, s, r.error)
    ensures Shallow(w, s, GetServiceDependencies(w.meta, TargetCtor(target))) && r.Failure? ==> r.error.MissingDependency?
    ensures Shallow(w, s, GetServiceDependencies(w.meta, TargetCtor(target))) && !StrictAbove(w.scopes, s) ==> r.Success?
    ensures Shallow(w, s, GetServiceDependencies(w.meta, TargetCtor(target))) ==>
              |w'.built| <= |w.built| + |GetServiceDependencies(w.meta, TargetCtor(target))| + 1
    ensures DepsSettled(w, s, TargetCtor(target)) ==> (r, w') == BuildSettled(w, s, TargetCtor(target), TargetArgs(target, rest))
  {
    r, w' := Instantiate(w, s, TargetCtor(target), TargetArgs(target, rest));
  }

  // ---------------------------------------------------------------------
  // invokeFunction
  // ---------------------------------------------------------------------

  /** The accessor handed to an invoked function; `done` once the invocation has returned or thrown. */
  datatype Accessor = Accessor(scope: nat, done: bool)

  /**
   * `accessor.get(id, isOptional)`: fails once the invocation is over,
   * otherwise resolves `id` in the accessor's scope and rejects a falsy
   * result unless the call passed `optional`.
   */
  method AccessorGet(w: World, a: Accessor, id: ServiceId, isOptional: bool) returns (r: Result<Value, Failure>, w': World)
    requires WF(w) && a.scope < |w.scopes|
    ensures WF(w') && Extends(w, w')
    ensures a.done ==> r == Failure(StaleAccessor) && w' == w
    ensures !a.done && r.Success? ==> GetService(w'.scopes, a.scope, id) == Instance(r.value) && (!isOptional ==> Truthy(r.value))
    ensures !a.done && !GetService(w.scopes, a.scope, id).Descriptor? ==>
              var v := GetService(w.scopes, a.scope, id).value;
              w' == w && r == (if !Truthy(v) && !isOptional then Failure(UnknownService(id)) else Success(v))
    ensures !a.done && r.Failure? ==> r.error == UnknownService(id) || Fault(w, a.scope, r.error)
    ensures !a.done && GetService(w.scopes, a.scope, id).Descriptor? && Leaf(w, a.scope, id) && !StrictAbove(w.scopes, a.scope) ==>
              && r.Success? && Owner(w.scopes, a.scope, id).Some?
              && MadeFrom(w', Owner(w.scopes, a.scope, id).value, GetService(w.scopes, a.scope, id).desc, Instance(r.value))
              && New(w, Instance(r.value))
    ensures !a.done && Leaf(w, a.scope, id) ==> |w'.built| <= |w.built| + 1
    ensures !a.done && Leaf(w, a.scope, id) && GetService(w.scopes, a.scope, id).Descriptor? && r.Success? &&
            !GetService(w.scopes, a.scope, id).desc.supportsDelayedInstantiation ==>
              r.value == Object(|w.built|) && |w'.built| == |w.built| + 1
    ensures !a.done ==> forall c | CycleThrough(w, a.scope, id, c) :: r == Failure(DiscoveryOverflow) && w' == w
  {
    if a.done {
      return Failure(StaleAccessor), w;
    }
    r, w' := GetOrCreateServiceInstance(w, a.scope, id);
    if r.Success? && !Truthy(r.value) && !isOptional {
      r := Failure(UnknownService(id));
    }
  }

  /** One step of an invoked function: an accessor `get`, or a throw of its own. */
  datatype Call = Fetch(id: ServiceId, isOptional: bool) | Raise

  /** No `get` of `fn` meets a descriptor in `s`, so every answer is a plain lookup. */
  ghost predicate NothingToBuild(w: World, s: nat, fn: seq<Call>)
  {
    forall i | 0 <= i < |fn| && fn[i].Fetch? :: !GetService(w.scopes, s, fn[i].id).Descriptor?
  }

  /**
   * What running `fn` answers when no `get` has to build: the calls in
   * order, a throw ending it, a falsy non-optional lookup ending it with
   * an unknown-service error, and otherwise the list of lookups.
   */
  function LookupCalls(w: World, s: nat, fn: seq<Call>): Result<seq<Value>, Failure>
    decreases |fn|
  {
    if fn == [] then Success([])
    else match fn[0]
      case Raise => Failure(UserError)
      case Fetch(id, isOptional) =>
        var v := ValueOf(GetService(w.scopes, s, id));
        if !Truthy(v) && !isOptional then Failure(UnknownService(id))
        else match LookupCalls(w, s, fn[1..])
          case Failure(f) => Failure(f)
          case Success(vs) => Success([v] + vs)
  }

  /** `got` in front of the answers of the rest of the calls. */
  function Prepend(got: seq<Value>, rest: Result<seq<Value>, Failure>): Result<seq<Value>, Failure>
  {
    match rest
    case Failure(f) => Failure(f)
    case Success(vs) => Success(got + vs)
  }

  /**
   * `invokeFunction(fn)`: runs `fn`'s calls against a live accessor on
   * scope `s` and yields what the gets returned; the first failure ends the
   * function. Either way the accessor handed out is finished afterwards.
   * When no `get` has to build, the outcome is exactly `LookupCalls`.
   */
  method InvokeFunction(w: World, s: nat, fn: seq<Call>) returns (r: Result<seq<Value>, Failure>, w': World, accessor: Accessor)
    requires WF(w) && s < |w.scopes|
    ensures accessor == Accessor(s, true)
    ensures WF(w') && Extends(w, w')
    ensures r.Success? ==> |r.value| == |fn|
    ensures r.Success? ==> forall i | 0 <= i < |fn| ::
              && fn[i].Fetch?
              && GetService(w'.scopes, s, fn[i].id) == Instance(r.value[i])
              && (!fn[i].isOptional ==> Truthy(r.value[i]))
    ensures Raise in fn ==> r.Failure?
    ensures NothingToBuild(w, s, fn) ==> w' == w && r == LookupCalls(w, s, fn)
  {
    var live := Accessor(s, false);
    w' := w;
    var got: seq<Value> := [];
    var i := 0;
    PrependNothing(LookupCalls(w, s, fn));
    assert fn[0..] == fn;
    while i < |fn|
      invariant 0 <= i <= |fn| && |got| == i
      invariant WF(w') && Extends(w, w')
      invariant forall j | 0 <= j < i ::
                  && fn[j].Fetch?
                  && GetService(w'.scopes, s, fn[j].id) == Instance(got[j])
                  && (!fn[j].isOptional ==> Truthy(got[j]))
      invariant NothingToBuild(w, s, fn) ==> w' == w && LookupCalls(w, s, fn) == Prepend(got, LookupCalls(w, s, fn[i..]))
    {
      match fn[i] {
      case Raise =>
        return Failure(UserError), w', Accessor(s, true);
      case Fetch(id, isOptional) =>
        ghost var prev := w';
        var v;
        v, w' := AccessorGet(w', live, id, isOptional);
        ExtendsTransitive(w, prev, w');
        if NothingToBuild(w, s, fn) {
          assert !GetService(w.scopes, s, fn[i].id).Descriptor?;
          LookupCallsStep(w, s, fn, i);
          if v.Success? {
            PrependAppend(got, v.value, LookupCalls(w, s, fn[i + 1..]));
          }
        }
        if v.Failure? {
          return Failure(v.error), w', Accessor(s, true);
        }
        forall j | 0 <= j < i
          ensures GetService(w'.scopes, s, fn[j].id) == Instance(got[j])
        {
          assert GetService(prev.scopes, s, fn[j].id) == Instance(got[j]);
        }
        got := got + [v.value];
      }
      i := i + 1;
    }
    r, accessor := Success(got), Accessor(s, true);
    assert fn[i..] == [];
    assert got + [] == got;
  }

  /** The calls from position `i` on, a `get` first, answered by lookups. */
  lemma LookupCallsStep(w: World, s: nat, fn: seq<Call>, i: nat)
    requires i < |fn| && fn[i].Fetch?
    ensures var v := ValueOf(GetService(w.scopes, s, fn[i].id));
            LookupCalls(w, s, fn[i..]) ==
              if !Truthy(v) && !fn[i].isOptional then Failure(UnknownService(fn[i].id))
              else Prepend([v], LookupCalls(w, s, fn[i + 1..]))
  {
    assert fn[i..][0] == fn[i];
    assert fn[i..][1..] == fn[i + 1..];
  }

  lemma PrependAppend(got: seq<Value>, v: Value, rest: Result<seq<Value>, Failure>)
    ensures Prepend(got, Prepend([v], rest)) == Prepend(got + [v], rest)
  {
    if rest.Success? {
      assert got + ([v] + rest.value) == got + [v] + rest.value;
    }
  }

  lemma PrependNothing(rest: Result<seq<Value>, Failure>)
    ensures Prepend([], rest) == rest
  {
    if rest.Success? {
      assert [] + rest.value == rest.value;
    }
  }

  // ---------------------------------------------------------------------
  // Deferred services
  // ---------------------------------------------------------------------

  /** An error caught by the cell, back as a resolution failure. */
  function AsFailure(e: Value): Failure
  {
    if e.Error? then e.failure else UserError
  }

  /** The result of the builder as the cell's executor sees it: a value, or a thrown error. */
  function AsOutcome(r: Result<Value, Failure>): Idle.Outcome
  {
    match r
    case Success(v) => Idle.Returned(v)
    case Failure(f) => Idle.Threw(Error(f))
  }

  /** What `value` answers for a cell whose executor has run. */
  function Cached(c: Idle.IdleService): Result<Value, Failure>
  {
    if Truthy(c.error) then Failure(AsFailure(c.error)) else Success(c.value)
  }

  /** `v` is the last logged object, a call of cell `p`'s constructor and arguments wired in its scope. */
  ghost predicate Built(w: World, w': World, p: nat, v: Value)
    requires p < |w.deferred|
  {
    var d := w.deferred[p];
    && d.scope < |w'.scopes| && |w'.built| > 0 && v == Object(|w'.built| - 1)
    && Wired(w', d.scope, d.ctor, d.args, w'.built[|w'.built| - 1])
  }

  /**
   * A property read through the proxy of cell `p`: the cell's `value`. The
   * first read runs the builder in the cell's scope (after cancelling the
   * idle callback); every later read answers the cached result and builds
   * nothing.
   */
  method ProxyValue(w: World, p: nat) returns (r: Result<Value, Failure>, w': World)
    requires WF(w) && p < |w.deferred|
    ensures WF(w') && Advances(w, w') && OnlyCell(w, w', p)
    ensures w'.deferred[p].cell.didRun && w'.deferred[p].cell.runs == 1
    ensures r == Cached(w'.deferred[p].cell)
    ensures w.deferred[p].cell.didRun ==> w' == w
    ensures !w.deferred[p].cell.didRun && r.Success? ==> Built(w, w', p, r.value)
    ensures !w.deferred[p].cell.didRun ==> BuildOutcome(w, p, r)
  {
    var d := w.deferred[p];
    if d.cell.didRun {
      AlreadyRun(w, p);
      return Cached(d.cell), w;
    }
    r, w' := FirstRead(w, p);
  }

  /** A cell that has run already has run once, and reading it changes nothing. */
  lemma AlreadyRun(w: World, p: nat)
    requires WF(w) && p < |w.deferred| && w.deferred[p].cell.didRun
    ensures Advances(w, w) && OnlyCell(w, w, p) && w.deferred[p].cell.runs == 1
  {
    ExtendsReflexive(w);
  }

  /** The first read through the proxy of cell `p`: the build in the cell's scope, its outcome stored in the cell. */
  method FirstRead(w: World, p: nat) returns (r: Result<Value, Failure>, w': World)
    requires WF(w) && p < |w.deferred| && !w.deferred[p].cell.didRun
    ensures WF(w') && Advances(w, w') && OnlyCell(w, w', p)
    ensures w'.deferred[p].cell.didRun && w'.deferred[p].cell.runs == 1
    ensures r == Cached(w'.deferred[p].cell)
    ensures r.Success? ==> Built(w, w', p, r.value)
    ensures BuildOutcome(w, p, r)
    ensures DepsSettled(w, w.deferred[p].scope, w.deferred[p].ctor) ==>
              w'.built == BuildSettled(w, w.deferred[p].scope, w.deferred[p].ctor, w.deferred[p].args).1.built
  {
    var d := w.deferred[p];
    var built, w1 := BuildDeferred(w, p);
    var (cell', _) := Idle.GetValue(d.cell, AsOutcome(built));
    w' := w1.(deferred := w1.deferred[p := d.(cell := cell')]);
    r := Cached(cell');
    ProxyStore(w, w1, p, built, cell', w');
  }

  /** The first read's bookkeeping: the run cell goes back into slot `p` and answers what the build gave. */
  lemma ProxyStore(w: World, w1: World, p: nat, built: Result<Value, Failure>, cell': Idle.IdleService, w': World)
    requires WF(w) && p < |w.deferred| && !w.deferred[p].cell.didRun && WF(w1) && Advances(w, w1) && w.deferred <= w1.deferred
    requires built.Success? ==> |w1.built| > 0 && built.value == Object(|w1.built| - 1)
    requires built.Success? ==> Wired(w1, w.deferred[p].scope, w.deferred[p].ctor, w.deferred[p].args, w1.built[|w1.built| - 1])
    requires cell' == Idle.GetValue(w.deferred[p].cell, AsOutcome(built)).0
    requires w' == w1.(deferred := w1.deferred[p := w.deferred[p].(cell := cell')])
    ensures WF(w') && Advances(w, w') && OnlyCell(w, w', p)
    ensures w'.deferred[p].cell.didRun && w'.deferred[p].cell.runs == 1
    ensures Cached(w'.deferred[p].cell) == Cached(cell') == built
    ensures Cached(cell').Success? ==>
              var d := w.deferred[p];
              |w'.built| > 0 && Cached(cell').value == Object(|w'.built| - 1) && Wired(w', d.scope, d.ctor, d.args, w'.built[|w'.built| - 1])
  {
    var d := w.deferred[p];
    StoreCell(w, w1, p, cell');
    if Cached(cell').Success? {
      CellsDoNotRewire(w1, w1.deferred[p := d.(cell := cell')], d.scope, d.ctor, d.args);
    }
  }

  /** Replacing the cells changes no wiring of a logged construction. */
  lemma CellsDoNotRewire(w: World, cells: seq<Deferred>, s: nat, ctor: Ctor, args: seq<Value>)
    requires s < |w.scopes| && |w.built| > 0 && Wired(w, s, ctor, args, w.built[|w.built| - 1])
    ensures Wired(w.(deferred := cells), s, ctor, args, w.(deferred := cells).built[|w.built| - 1])
  {
    WiredFrame(w, w.(deferred := cells), s, ctor, args, w.built[|w.built| - 1]);
  }

  /** Cell `p` keeps its scope, constructor and arguments, and every other cell is as it was. */
  ghost predicate OnlyCell(w: World, w': World, p: nat)
  {
    && p < |w.deferred| <= |w'.deferred|
    && w'.deferred[p] == w.deferred[p].(cell := w'.deferred[p].cell)
    && forall i | 0 <= i < |w.deferred| && i != p :: w'.deferred[i] == w.deferred[i]
  }

  /**
   * `r` answers like `_createInstance` of cell `p`'s constructor and
   * arguments in its scope, from `w`: a failure is the ceiling or strict
   * mode, success is certain when no dependency needs a nested build in a
   * lenient chain, and with every dependency settled it is the lookup-only
   * build.
   */
  ghost predicate BuildOutcome(w: World, p: nat, r: Result<Value, Failure>)
    requires WF(w) && p < |w.deferred|
  {
    var d := w.deferred[p];
    && (r.Failure? ==> Fault(w, d.scope, r.error))
    && (Shallow(w, d.scope, GetServiceDependencies(w.meta, d.ctor)) && r.Failure? ==> r.error.MissingDependency?)
    && (Shallow(w, d.scope, GetServiceDependencies(w.meta, d.ctor)) && !StrictAbove(w.scopes, d.scope) ==> r.Success?)
    && (DepsSettled(w, d.scope, d.ctor) ==> r == BuildSettled(w, d.scope, d.ctor, d.args).0)
  }

  /** The builder behind cell `p`: `_createInstance` of its constructor and arguments in its scope. */
  method BuildDeferred(w: World, p: nat) returns (r: Result<Value, Failure>, w': World)
    requires WF(w) && p < |w.deferred|
    ensures WF(w') && Extends(w, w')
    ensures r.Success? ==> |w'.built| > 0 && r.value == Object(|w'.built| - 1)
    ensures r.Success? ==> Wired(w', w.deferred[p].scope, w.deferred[p].ctor, w.deferred[p].args, w'.built[|w'.built| - 1])
    ensures BuildOutcome(w, p, r)
    ensures DepsSettled(w, w.deferred[p].scope, w.deferred[p].ctor) ==>
              (r, w') == BuildSettled(w, w.deferred[p].scope, w.deferred[p].ctor, w.deferred[p].args)
  {
    var d := w.deferred[p];
    r, w' := Instantiate(w, d.scope, d.ctor, d.args);
  }

  /** Storing a valid cell back into slot `p` after a build keeps the world well formed and touches no other cell. */
  lemma StoreCell(w: World, w1: World, p: nat, cell': Idle.IdleService)
    requires WF(w) && p < |w.deferred| && WF(w1) && Advances(w, w1) && w.deferred <= w1.deferred && Idle.Valid(cell')
    ensures var w' := w1.(deferred := w1.deferred[p := w.deferred[p].(cell := cell')]);
            && WF(w') && Advances(w, w') && OnlyCell(w, w', p) && w'.deferred[p].cell == cell'
  {
    var w' := w1.(deferred := w1.deferred[p := w.deferred[p].(cell := cell')]);
    assert w.deferred[p].scope < |w.scopes| == |w1.scopes|;
    forall i | 0 <= i < |w'.deferred|
      ensures w'.deferred[i].scope < |w'.scopes| && Idle.Valid(w'.deferred[i].cell)
    {
      if i != p {
        assert w'.deferred[i] == w1.deferred[i];
      }
    }
  }

  /**
   * The host runs the idle callback of cell `p`: a pending callback builds
   * the service now and caches the result; a disposed or fired one does
   * nothing.
   */
  method IdleCallback(w: World, p: nat) returns (w': World)
    requires WF(w) && p < |w.deferred|
    ensures WF(w') && Advances(w, w') && OnlyCell(w, w', p)
    ensures w.deferred[p].cell.handle.disposed || w.deferred[p].cell.handle.fired ==> w' == w
    ensures !w.deferred[p].cell.handle.disposed && !w.deferred[p].cell.handle.fired ==>
              w'.deferred[p].cell.didRun && w'.deferred[p].cell.handle.fired && w'.deferred[p].cell.runs == 1
    ensures !w.deferred[p].cell.handle.disposed && !w.deferred[p].cell.handle.fired ==>
              BuildOutcome(w, p, Cached(w'.deferred[p].cell))
    ensures !w.deferred[p].cell.handle.disposed && !w.deferred[p].cell.handle.fired && Cached(w'.deferred[p].cell).Success? ==>
              Built(w, w', p, Cached(w'.deferred[p].cell).value)
  {
    var d := w.deferred[p];
    if d.cell.handle.disposed || d.cell.handle.fired {
      return w;
    }
    var built, w1 := BuildDeferred(w, p);
    var cell' := Idle.IdleFire(d.cell, AsOutcome(built));
    w' := w1.(deferred := w1.deferred[p := d.(cell := cell')]);
    FiredStore(w, w1, p, built, cell', w');
  }

  /** The idle callback's bookkeeping: the fired cell goes back into slot `p` and caches what the build gave. */
  lemma FiredStore(w: World, w1: World, p: nat, built: Result<Value, Failure>, cell': Idle.IdleService, w': World)
    requires WF(w) && p < |w.deferred| && WF(w1) && Advances(w, w1) && w.deferred <= w1.deferred
    requires !w.deferred[p].cell.handle.disposed && !w.deferred[p].cell.handle.fired
    requires built.Success? ==> |w1.built| > 0 && built.value == Object(|w1.built| - 1)
    requires built.Success? ==> Wired(w1, w.deferred[p].scope, w.deferred[p].ctor, w.deferred[p].args, w1.built[|w1.built| - 1])
    requires cell' == Idle.IdleFire(w.deferred[p].cell, AsOutcome(built))
    requires w' == w1.(deferred := w1.deferred[p := w.deferred[p].(cell := cell')])
    ensures WF(w') && Advances(w, w') && OnlyCell(w, w', p) && w'.deferred[p].cell == cell'
    ensures Cached(cell') == built
    ensures Cached(cell').Success? ==> Built(w, w', p, Cached(cell').value)
  {
    var d := w.deferred[p];
    StoreCell(w, w1, p, cell');
    if Cached(cell').Success? {
      CellsDoNotRewire(w1, w1.deferred[p := d.(cell := cell')], d.scope, d.ctor, d.args);
    }
  }
}
