/**
 * `IdleService`: the idle-until-urgent cell. It schedules its executor for
 * idle time and runs it synchronously instead when `value` is read first;
 * either way the executor body runs at most once and its result (or the
 * error it threw) is cached.
 *
 * The host scheduler is abstract: a handle that can be disposed once and
 * whose callback the host fires at most once, and never after disposal.
 * The executor's own effects are a parameter: the outcome it produces when
 * it runs.
 */
module Idle {
  import opened Wrappers
  import opened Values

  /** The handle `runWhenIdle` returns. */
  datatype Handle = Handle(disposed: bool, fired: bool)

  /** The two schedulers the module initialiser can install. */
  datatype Scheduler = NativeIdleCallback | TimeoutFallback

  /** What one run of the executor produced: its return value, or what it threw. */
  datatype Outcome = Returned(v: Value) | Threw(e: Value)

  /**
   * The cell's fields; `runs` counts how often the executor body ran, an
   * observation the model adds so that "at most once" can be stated.
   */
  datatype IdleService = IdleService(handle: Handle, didRun: bool, value: Value, error: Value, runs: nat)

  /** The module initialiser: assigns `runWhenIdle` when it is invoked, picking the host's facility. */
  function InitRunWhenIdle(invoked: bool, hostHasIdleCallback: bool): (binding: Option<Scheduler>)
    ensures binding.Some? <==> invoked
  {
    if !invoked then None
    else if hostHasIdleCallback then Some(NativeIdleCallback)
    else Some(TimeoutFallback)
  }

  /** A freshly scheduled callback: neither disposed nor fired. */
  function Schedule(s: Scheduler): (h: Handle)
    ensures !h.disposed && !h.fired
  {
    Handle(false, false)
  }

  /**
   * The handle's `dispose`: the first call cancels the host callback
   * (`cancelled`), every later call does nothing.
   */
  function DisposeHandle(h: Handle): (r: (Handle, bool))
    ensures r.0.disposed && r.0.fired == h.fired
    ensures r.1 <==> !h.disposed
    ensures h.disposed ==> r.0 == h
  {
    if h.disposed then (h, false) else (h.(disposed := true), true)
  }

  /** A second dispose is a no-op and cancels nothing. */
  lemma DisposeIdempotent(h: Handle)
    ensures var (h1, _) := DisposeHandle(h);
            var (h2, cancelled2) := DisposeHandle(h1);
            h2 == h1 && !cancelled2
  {
  }

  /**
   * The constructor with the given `runWhenIdle` binding: calling an
   * unassigned `runWhenIdle` throws a TypeError; otherwise the executor is
   * scheduled and has not run.
   */
  function NewIdleService(binding: Option<Scheduler>): (r: Result<IdleService, Failure>)
    ensures binding.None? <==> r.Failure?
    ensures r.Failure? ==> r.error == SchedulerMissing
    ensures r.Success? ==> Fresh(r.value)
  {
    match binding
    case None => Failure(SchedulerMissing)
    case Some(s) => Success(IdleService(Schedule(s), false, Undefined, Undefined, 0))
  }

  /** A cell just constructed: scheduled, not run, nothing cached. */
  predicate Fresh(c: IdleService)
  {
    !c.handle.disposed && !c.handle.fired && !c.didRun && c.runs == 0 && c.value == Undefined && c.error == Undefined
  }

  /** The constructor as the model uses it: the initialiser has run, so a callback is scheduled. */
  function Construct(): (c: IdleService)
    ensures Fresh(c) && Valid(c)
  {
    NewIdleService(InitRunWhenIdle(true, true)).value
  }

  /**
   * As written the initialiser is a parenthesised function expression that is
   * never called, so `runWhenIdle` stays unassigned and every construction
   * throws, whatever the host offers.
   */
  lemma ConstructionAsWrittenThrows(hostHasIdleCallback: bool)
    ensures NewIdleService(InitRunWhenIdle(false, hostHasIdleCallback)) == Failure(SchedulerMissing)
    ensures NewIdleService(InitRunWhenIdle(true, hostHasIdleCallback)).Success?
  {
  }

  /**
   * The cell's consistency: the executor ran once exactly when `didRun` is
   * set, a fired callback has run it, once it ran the pending callback is
   * gone (fired, or disposed by `value`), and before it ran no error is
   * cached.
   */
  ghost predicate Valid(c: IdleService)
  {
    && c.runs == (if c.didRun then 1 else 0)
    && (c.handle.fired ==> c.didRun)
    && (c.didRun ==> c.handle.disposed || c.handle.fired)
    && (!c.didRun ==> c.error == Undefined)
  }

  /** The wrapped executor: stores the value or the error, and sets `didRun` in any case. */
  function Execute(c: IdleService, o: Outcome): (c': IdleService)
    ensures c'.didRun && c'.runs == c.runs + 1 && c'.handle == c.handle
    ensures o.Returned? ==> c'.value == o.v && c'.error == c.error
    ensures o.Threw? ==> c'.error == o.e && c'.value == c.value
  {
    match o
    case Returned(v) => c.(value := v, didRun := true, runs := c.runs + 1)
    case Threw(e) => c.(error := e, didRun := true, runs := c.runs + 1)
  }

  /**
   * The host fires the idle callback, which calls the executor. A disposed
   * or already fired callback is never called again.
   */
  function IdleFire(c: IdleService, o: Outcome): (c': IdleService)
    requires Valid(c)
    ensures Valid(c')
    ensures c.handle.disposed || c.handle.fired ==> c' == c
    ensures !c.handle.disposed && !c.handle.fired ==> c' == Execute(c.(handle := c.handle.(fired := true)), o) && c.runs == 0
  {
    if c.handle.disposed || c.handle.fired then c
    else Execute(c.(handle := c.handle.(fired := true)), o)
  }

  /** `dispose` on the cell disposes its handle. */
  function Dispose(c: IdleService): (c': IdleService)
    requires Valid(c)
    ensures Valid(c') && c'.handle.disposed
    ensures c' == c.(handle := DisposeHandle(c.handle).0)
  {
    c.(handle := DisposeHandle(c.handle).0)
  }

  /**
   * The `value` getter: if the executor has not run, dispose the pending
   * callback and run it now; then rethrow a truthy cached error, or return
   * the cached value. `o` is what the executor would produce if it runs.
   */
  function GetValue(c: IdleService, o: Outcome): (r: (IdleService, Result<Value, Value>))
    requires Valid(c)
    ensures Valid(r.0) && r.0.didRun
    ensures c.didRun ==> r.0 == c
    ensures !c.didRun ==> r.0.handle.disposed && r.0 == Execute(c.(handle := DisposeHandle(c.handle).0), o)
    ensures r.1.Failure? <==> Truthy(r.0.error)
    ensures r.1.Failure? ==> r.1.error == r.0.error
    ensures r.1.Success? ==> r.1.value == r.0.value
  {
    var c' := if c.didRun then c else Execute(c.(handle := DisposeHandle(c.handle).0), o);
    (c', if Truthy(c'.error) then Failure(c'.error) else Success(c'.value))
  }

  /**
   * Once the executor has run, every `value` read answers the same cached
   * result, whatever the executor would produce now, and changes nothing.
   */
  lemma ValueIsCached(c: IdleService, o1: Outcome, o2: Outcome)
    requires Valid(c) && c.didRun
    ensures GetValue(c, o1) == GetValue(c, o2) == (c, GetValue(c, o1).1)
  {
  }

  /** A builder failure with a truthy error is rethrown by the first and by every later read. */
  lemma FailureIsRethrown(c: IdleService, e: Value, o: Outcome)
    requires Valid(c) && !c.didRun && Truthy(e)
    ensures var (c1, r1) := GetValue(c, Threw(e));
            r1 == Failure(e) && GetValue(c1, o) == (c1, Failure(e))
  {
  }

  /** A falsy thrown value is not rethrown: the read answers the (unset) cached value. */
  lemma FalsyErrorIsSwallowed(c: IdleService, e: Value)
    requires Valid(c) && !c.didRun && !Truthy(e) && !Truthy(c.error)
    ensures GetValue(c, Threw(e)).1 == Success(c.value)
  {
  }

  /** The events the outside world can apply to a cell. */
  datatype Event = Fire(fireOutcome: Outcome) | Force(forceOutcome: Outcome) | DisposeCell

  function Step(c: IdleService, e: Event): (c': IdleService)
    requires Valid(c)
    ensures Valid(c')
    ensures c'.runs >= c.runs
  {
    match e
    case Fire(o) => IdleFire(c, o)
    case Force(o) => GetValue(c, o).0
    case DisposeCell => Dispose(c)
  }

  /** The cell after applying `events` in order. */
  function Run(c: IdleService, events: seq<Event>): (c': IdleService)
    requires Valid(c)
    ensures Valid(c')
    decreases |events|
  {
    if |events| == 0 then c else Run(Step(c, events[0]), events[1..])
  }

  /**
   * Whatever mix of idle callbacks, `value` reads and disposals happens, the
   * executor body runs at most once, and exactly once if it had run or some
   * `value` read occurs.
   */
  lemma {:induction false} ExecutorRunsAtMostOnce(c: IdleService, events: seq<Event>)
    requires Valid(c)
    ensures Run(c, events).runs <= 1
    ensures c.didRun ==> Run(c, events).runs == 1
    ensures (exists i :: 0 <= i < |events| && events[i].Force?) ==> Run(c, events).runs == 1
    decreases |events|
  {
    if |events| > 0 {
      var c1 := Step(c, events[0]);
      ExecutorRunsAtMostOnce(c1, events[1..]);
      if exists i :: 0 <= i < |events| && events[i].Force? {
        var i :| 0 <= i < |events| && events[i].Force?;
        if i > 0 {
          assert events[1..][i - 1].Force?;
        }
      }
    }
  }

  /** From construction on, the executor runs at most once. */
  lemma ConstructedCellRunsAtMostOnce(events: seq<Event>)
    ensures Run(Construct(), events).runs <= 1
    ensures Run(Construct(), []).runs == 0
  {
    ExecutorRunsAtMostOnce(Construct(), events);
  }
}
