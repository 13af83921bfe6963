/*
 * The library's mutable state and its operations as they run: promise objects whose
 * `_state`, `_result`, `_subscribers` and `_onerror` fields are updated in place, asap's
 * module-level `queue` and `len`, and the Enumerators' `_remaining` and `_result`.
 *
 * Every method is proved to leave the state the corresponding function of the other
 * modules computes, so the properties proved there hold of the running code.
 */
module Runtime {
  import opened Types
  import AsapQueue
  import Internal
  import AsapFlush
  import ThenMethod
  import Enumerator
  import Statics

  class PromiseRuntime {
    /** The fields of every promise object, by creation id (`nextId` is `|promises|`). */
    var promises: seq<PromiseRecord>
    /** asap's queue: one entry per (callback, arg) slot pair below `len`. */
    var queue: seq<Option<Task>>
    /** Each call of scheduleFlush or of the custom scheduler, in order. */
    var requests: seq<Scheduler>
    /** Whether `customSchedulerFn` is set. */
    var customScheduler: bool
    /** The fields of every Enumerator, by creation order. */
    var enumerators: seq<EnumeratorRecord>
    /** Each call of a promise's `_onerror`, in order. */
    var diagnostics: seq<Diagnostic>
    ghost var calls: seq<Invocation>
    ghost var enqueued: seq<Task>
    ghost var ran: seq<Task>

    ghost function State(): World
      reads this
    {
      World(promises, queue, requests, customScheduler, enumerators, diagnostics, calls, enqueued, ran)
    }

    /** asap's `len`. */
    function Len(): (n: nat)
      reads this
      ensures n == AsapQueue.Len(State())
    {
      2 * |queue|
    }

    /** The module state at load time: no promise yet, an empty queue, `len` 0. */
    constructor (custom: bool)
      ensures State() == World([], [], [], custom, [], [], [], [], [])
    {
      promises := [];
      queue := [];
      requests := [];
      customScheduler := custom;
      enumerators := [];
      diagnostics := [];
      calls := [];
      enqueued := [];
      ran := [];
    }

    function Record(id: nat): (rec: PromiseRecord)
      reads this
      ensures rec == Rec(State(), id)
    {
      if id < |promises| then promises[id] else Blank
    }

    method Store(id: nat, rec: PromiseRecord)
      modifies this
      ensures State() == Put(old(State()), id, rec)
    {
      if id < |promises| {
        promises := promises[id := rec];
      }
    }

    method MakePromise() returns (id: nat)
      modifies this
      ensures (State(), id) == Internal.MakePromise(old(State()))
    {
      id := |promises|;
      promises := promises + [Blank];
    }

    method Asap(t: Task)
      modifies this
      ensures State() == AsapQueue.Asap(old(State()), t)
    {
      queue := queue + [Some(t)];
      enqueued := enqueued + [t];
      if Len() == 2 {
        requests := requests + [if customScheduler then CustomScheduler else DefaultScheduler];
      }
    }

    method Flush(fuel: nat)
      modifies this
      ensures State() == AsapFlush.Flush(old(State()), fuel)
    {
      ghost var target := AsapFlush.Flush(State(), fuel);
      ghost var w := State();
      var k := 0;
      var steps := fuel;
      while k < |queue| && steps > 0
        invariant w == State() && k <= |w.queue|
        invariant AsapFlush.FlushFrom(w, k, steps) == target
        decreases steps
      {
        AsapFlush.FlushFromStep(w, k, steps);
        Visit(k);
        w := State();
        k := k + 1;
        steps := steps - 1;
      }
      AsapFlush.FlushLoopExit(w, k, steps);
      if k == |queue| {
        queue := [];
      }
    }

    /** One iteration of flush's loop: runs the pair in slot pair `k`, then clears both slots. */
    method Visit(k: nat)
      requires k < |queue|
      modifies this
      ensures State() == AsapFlush.Visit(old(State()), k)
    {
      match queue[k] {
        case Some(t) =>
          RunTask(t);
          queue := queue[k := None];
          ran := ran + [t];
        case None =>
      }
    }

    method Fulfill(p: nat, value: Value)
      modifies this
      ensures State() == Internal.Fulfill(old(State()), p, value)
    {
      var rec := Record(p);
      if rec.state != Pending {
        return;
      }
      Store(p, rec.(result := value, state := Fulfilled));
      if |rec.subscribers| != 0 {
        Asap(PublishTask(p));
      }
    }

    method Reject(p: nat, reason: Value)
      modifies this
      ensures State() == Internal.Reject(old(State()), p, reason)
    {
      var rec := Record(p);
      if rec.state != Pending {
        return;
      }
      Store(p, rec.(state := Rejected, result := reason));
      Asap(PublishRejectionTask(p));
    }

    method Subscribe(parent: nat, child: Option<nat>, onFulfillment: Handler, onRejection: Handler)
      modifies this
      ensures State() == Internal.Subscribe(old(State()), parent, child, onFulfillment, onRejection)
    {
      var rec := Record(parent);
      var length := |rec.subscribers|;
      Store(parent, rec.(onerror := false,
                         subscribers := rec.subscribers + [Subscriber(child, onFulfillment, onRejection)]));
      if length == 0 && rec.state != Pending {
        Asap(PublishTask(parent));
      }
    }

    method Resolve(p: nat, value: Value)
      modifies this
      ensures State() == Internal.Resolve(old(State()), p, value)
    {
      if value == OwnPromise(p) {
        Reject(p, LibError(SelfResolution));
      } else if ObjectOrFunction(value) {
        HandleMaybeThenable(p, value);
      } else {
        Fulfill(p, value);
      }
    }

    method HandleMaybeThenable(p: nat, value: Value)
      modifies this
      ensures State() == Internal.HandleMaybeThenable(old(State()), p, value)
    {
      match GetThen(value)
      case OwnThen => HandleOwnThenable(p, value.id);
      case GetterThrew(e) => Reject(p, e);
      case Absent => Fulfill(p, value);
      case Callable(f) => HandleForeignThenable(p, value, f);
      case NotFunction => Fulfill(p, value);
    }

    method HandleOwnThenable(p: nat, q: nat)
      modifies this
      ensures State() == Internal.HandleOwnThenable(old(State()), p, q)
    {
      var rec := Record(q);
      match rec.state
      case Fulfilled => Fulfill(p, rec.result);
      case Rejected => Reject(p, rec.result);
      case Pending => Subscribe(q, None, ResolveWith(p), RejectWith(p));
    }

    method HandleForeignThenable(p: nat, thenable: Value, f: ForeignThen)
      modifies this
      ensures State() == Internal.HandleForeignThenable(old(State()), p, thenable, f)
    {
      Asap(AdoptTask(p, thenable, f));
    }

    method SettleFromThen(p: nat, thenable: Value, a: ThenAction)
      modifies this
      ensures State() == Internal.SettleFromThen(old(State()), p, thenable, a)
    {
      match a
      case OnFulfilled(v) =>
        if thenable != v {
          Resolve(p, v);
        } else {
          Fulfill(p, v);
        }
      case OnFulfilledSelf => Fulfill(p, thenable);
      case OnRejected(reason) => Reject(p, reason);
    }

    /** The task handleForeignThenable queues: calls the foreign `then`, then checks for a throw. */
    method Adopt(p: nat, thenable: Value, f: ForeignThen)
      modifies this
      ensures State() == Internal.Adopt(old(State()), p, thenable, f)
    {
      var sealed := ThenCalls(p, thenable, f.actions);
      if !sealed && f.throws.Some? {
        Reject(p, f.throws.value);
      }
    }

    /** The foreign `then`'s calls to the two callbacks, guarded by `sealed`; yields the flag. */
    method ThenCalls(p: nat, thenable: Value, actions: seq<ThenAction>) returns (sealed: bool)
      modifies this
      ensures (State(), sealed) == Internal.ThenCalls(old(State()), p, thenable, actions, 0, false)
    {
      ghost var target := Internal.ThenCalls(State(), p, thenable, actions, 0, false);
      sealed := false;
      var i := 0;
      while i < |actions|
        invariant i <= |actions|
        invariant Internal.ThenCalls(State(), p, thenable, actions, i, sealed) == target
      {
        if !sealed {
          sealed := true;
          SettleFromThen(p, thenable, actions[i]);
        }
        i := i + 1;
      }
    }

    method LibraryCallback(h: Handler, argument: Value)
      modifies this
      ensures State() == Internal.LibraryCallback(old(State()), h, argument)
    {
      match h
      case ResolveWith(t) => Resolve(t, argument);
      case RejectWith(t) => Reject(t, argument);
      case SettleSlot(e, s, i) => SettledAt(e, s, i, argument);
      case _ =>
    }

    method CallHandler(h: Handler, argument: Value, child: Option<nat>) returns (c: Completion)
      modifies this
      ensures (State(), c) == Internal.CallHandler(old(State()), h, argument, child)
    {
      if h.NotCallable? {
        return Normal(Undefined);
      }
      calls := calls + [Invocation(h, argument)];
      LibraryCallback(h, argument);
      c := match h
        case Returns(v) => Normal(v)
        case Throws(e) => Abrupt(e)
        case ReturnsChild => Normal(if child.Some? then OwnPromise(child.value) else Undefined)
        case _ => Normal(Undefined);
    }

    method InvokeCallback(settled: PromiseState, child: nat, callback: Handler, detail: Value)
      modifies this
      ensures State() == Internal.InvokeCallback(old(State()), settled, child, callback, detail)
    {
      if !callback.NotCallable? {
        var c := CallHandler(callback, detail, Some(child));
        if c == Normal(OwnPromise(child)) {
          Reject(child, LibError(CannotReturnOwn));
        } else if Record(child).state == Pending {
          match c
          case Normal(v) => Resolve(child, v);
          case Abrupt(e) => Reject(child, e);
        }
      } else if Record(child).state == Pending {
        if settled == Fulfilled {
          Fulfill(child, detail);
        } else if settled == Rejected {
          Reject(child, detail);
        }
      }
    }

    method NotifyOne(s: Subscriber, settled: PromiseState, detail: Value)
      modifies this
      ensures State() == Internal.NotifyOne(old(State()), s, settled, detail)
    {
      match s.child
      case Some(c) => InvokeCallback(settled, c, CallbackAt(s, settled), detail);
      case None => var _ := CallHandler(CallbackAt(s, settled), detail, None);
    }

    method Publish(p: nat)
      modifies this
      ensures State() == Internal.Publish(old(State()), p)
    {
      var rec := Record(p);
      var subscribers := rec.subscribers;
      if |subscribers| == 0 {
        return;
      }
      ghost var target := Internal.NotifyFrom(State(), subscribers, rec.state, rec.result, 0);
      var i := 0;
      while i < |subscribers|
        invariant i <= |subscribers|
        invariant Internal.NotifyFrom(State(), subscribers, rec.state, rec.result, i) == target
      {
        NotifyOne(subscribers[i], rec.state, rec.result);
        i := i + 1;
      }
      Store(p, Record(p).(subscribers := []));
    }

    method PublishRejection(p: nat)
      modifies this
      ensures State() == Internal.PublishRejection(old(State()), p)
    {
      var rec := Record(p);
      if rec.onerror {
        diagnostics := diagnostics + [Diagnostic(p, rec.result)];
      }
      Publish(p);
    }

    method SettledAt(e: nat, state: PromiseState, i: nat, value: Value)
      modifies this
      ensures State() == Internal.SettledAt(old(State()), e, state, i, value)
    {
      if e >= |enumerators| {
        return;
      }
      CountSettled(e, state, i, value);
      var en1 := enumerators[e];
      if en1.remaining == 0 {
        Fulfill(en1.promise, List(en1.result));
      }
    }

    /** `_settledAt` up to its final check. */
    method CountSettled(e: nat, state: PromiseState, i: nat, value: Value)
      requires e < |enumerators|
      modifies this
      ensures State() == Internal.CountSettled(old(State()), e, state, i, value)
    {
      var en := enumerators[e];
      if Record(en.promise).state == Pending {
        if state == Rejected {
          Reject(en.promise, value);
          enumerators := enumerators[e := en.(remaining := en.remaining - 1)];
        } else {
          enumerators := enumerators[e := en.(remaining := en.remaining - 1,
                                              result := if i < |en.result| then en.result[i := value] else en.result)];
        }
      }
    }

    method RunTask(t: Task)
      modifies this
      ensures State() == Internal.RunTask(old(State()), t)
    {
      match t
      case PublishTask(p) => Publish(p);
      case PublishRejectionTask(p) => PublishRejection(p);
      case AdoptTask(p, thenable, f) => Adopt(p, thenable, f);
      case InvokeTask(s, c, h, d) => InvokeCallback(s, c, h, d);
    }

    method InitializePromise(p: nat, resolver: Executor)
      modifies this
      ensures State() == Internal.InitializePromise(old(State()), p, resolver)
    {
      ghost var target := Internal.ExecutorCalls(State(), p, resolver.actions, 0);
      var i := 0;
      while i < |resolver.actions|
        invariant i <= |resolver.actions|
        invariant Internal.ExecutorCalls(State(), p, resolver.actions, i) == target
      {
        match resolver.actions[i] {
          case CallResolve(v) => Resolve(p, v);
          case CallReject(reason) => Reject(p, reason);
        }
        i := i + 1;
      }
      if resolver.throws.Some? {
        Reject(p, resolver.throws.value);
      }
    }

    method Then(parent: nat, onFulfillment: Handler, onRejection: Handler) returns (child: nat)
      modifies this
      ensures (State(), child) == ThenMethod.Then(old(State()), parent, onFulfillment, onRejection)
    {
      child := MakePromise();
      var rec := Record(parent);
      if rec.state != Pending {
        Asap(InvokeTask(rec.state, child, ThenMethod.CallbackFor(rec.state, onFulfillment, onRejection), rec.result));
      } else {
        Subscribe(parent, Some(child), onFulfillment, onRejection);
      }
    }

    method EachEntry(e: nat, entry: Value, i: nat)
      modifies this
      ensures State() == Enumerator.EachEntry(old(State()), e, entry, i)
    {
      var t := GetThen(entry);
      if t.OwnThen? && Record(entry.id).state != Pending {
        var rec := Record(entry.id);
        SettledAt(e, rec.state, i, rec.result);
      } else if !IsFunction(t) {
        if e < |enumerators| {
          var en := enumerators[e];
          enumerators := enumerators[e := en.(remaining := en.remaining - 1,
                                              result := if i < |en.result| then en.result[i := entry] else en.result)];
        }
      } else {
        var q := MakePromise();
        HandleMaybeThenable(q, entry);
        Subscribe(q, None, SettleSlot(e, Fulfilled, i), SettleSlot(e, Rejected, i));
      }
    }

    /** `new Enumerator(Promise, input)`; yields the enumerator's index. */
    method NewEnumerator(input: Value) returns (e: nat)
      modifies this
      ensures (State(), e) == Enumerator.NewEnumerator(old(State()), input)
    {
      var agg := MakePromise();
      e := |enumerators|;
      var n := if input.List? then |input.items| else 0;
      AddEnumerator(EnumeratorRecord(agg, n, n, seq(n, _ => Undefined)));
      if !input.List? {
        Reject(agg, LibError(ArrayRequired));
      } else {
        WalkArray(e, input.items);
      }
    }

    method AddEnumerator(en: EnumeratorRecord)
      modifies this
      ensures State() == Enumerator.AddEnumerator(old(State()), en)
    {
      enumerators := enumerators + [en];
    }

    /** The array branch of the constructor: the walk, then the `_remaining === 0` check. */
    method WalkArray(e: nat, items: seq<Value>)
      requires e < |enumerators|
      modifies this
      ensures State() == Enumerator.WalkArray(old(State()), e, items)
    {
      var agg := enumerators[e].promise;
      if |items| == 0 {
        Fulfill(agg, List(enumerators[e].result));
        return;
      }
      Enumerate(e, items);
      if enumerators[e].remaining == 0 {
        Fulfill(agg, List(enumerators[e].result));
      }
    }

    /** `_enumerate(input)`: every entry, in index order. */
    method Enumerate(e: nat, items: seq<Value>)
      requires e < |enumerators|
      modifies this
      ensures State() == Enumerator.Enumerate(old(State()), e, items, 0)
    {
      ghost var target := Enumerator.Enumerate(State(), e, items, 0);
      var i := 0;
      while i < |items|
        invariant i <= |items| && e < |enumerators|
        invariant Enumerator.Enumerate(State(), e, items, i) == target
      {
        Enumerator.EnumerateStep(State(), e, items, i);
        EachEntry(e, items[i], i);
        i := i + 1;
      }
    }

    /** The static `Promise.resolve(object)`; yields the id of the promise returned. */
    method PromiseResolve(x: Value) returns (id: nat)
      modifies this
      ensures (State(), id) == Statics.PromiseResolve(old(State()), x)
    {
      if x.OwnPromise? {
        return x.id;
      }
      id := MakePromise();
      Resolve(id, x);
    }

    /** The static `Promise.race(entries)`; yields the id of the promise returned. */
    method Race(entries: Value) returns (p: nat)
      modifies this
      ensures (State(), p) == Statics.Race(old(State()), entries)
    {
      p := MakePromise();
      if !entries.List? {
        InitializePromise(p, Executor([CallReject(LibError(RaceArrayRequired))], None));
        return;
      }
      ghost var target := Statics.RaceFrom(State(), p, entries.items, 0);
      var i := 0;
      while i < |entries.items|
        invariant i <= |entries.items|
        invariant Statics.RaceFrom(State(), p, entries.items, i) == target
      {
        var q := PromiseResolve(entries.items[i]);
        var _ := Then(q, ResolveWith(p), RejectWith(p));
        i := i + 1;
      }
    }
  }
}
