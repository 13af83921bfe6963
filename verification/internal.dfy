/*
 * -internal.js: the per-promise state machine (fulfill, reject, resolve and the
 * thenable handling), subscription and notification (subscribe, publish,
 * invokeCallback), initializePromise and makePromise, as functions from the
 * global state before the call to the state after it.
 *
 * The enumerator's `_settledAt` is here too: it is one of the callbacks publish
 * calls, so it belongs with the other callbacks the library builds.
 */
module Internal {
  import opened Types
  import opened AsapQueue

  /** `makePromise`: the next creation id, with a pending record and no subscribers. */
  function MakePromise(w: World): (r: (World, nat))
    ensures Quiet(w, r.0)
    ensures r.1 == |w.promises| && |r.0.promises| == r.1 + 1
    ensures Rec(r.0, r.1) == Blank
    ensures forall id: nat :: id < |w.promises| ==> Rec(r.0, id) == Rec(w, id)
    ensures r.0.queue == w.queue && r.0.enumerators == w.enumerators
  {
    (w.(promises := w.promises + [Blank]), |w.promises|)
  }

  /**
   * `fulfill(promise, value)`: a settled promise is left alone; a pending one becomes
   * FULFILLED with `value`, and publish is queued only if it has subscribers.
   */
  function Fulfill(w: World, p: nat, value: Value): (r: World)
    ensures Quiet(w, r)
    ensures Rec(w, p).state != Pending ==> r == w
    ensures Rec(w, p).state == Pending && p < |w.promises| ==>
      && Rec(r, p) == Rec(w, p).(state := Fulfilled, result := value)
      && r.queue == w.queue + (if |Rec(w, p).subscribers| != 0 then [Some(PublishTask(p))] else [])
    ensures forall id: nat :: id != p ==> Rec(r, id) == Rec(w, id)
    ensures r.enumerators == w.enumerators
  {
    var rec := Rec(w, p);
    if rec.state != Pending then w
    else
      var w1 := Put(w, p, rec.(result := value, state := Fulfilled));
      if |rec.subscribers| != 0 then Asap(w1, PublishTask(p)) else w1
  }

  /**
   * `reject(promise, reason)`: a settled promise is left alone; a pending one becomes
   * REJECTED with `reason`, and publishRejection is always queued.
   */
  function Reject(w: World, p: nat, reason: Value): (r: World)
    ensures Quiet(w, r)
    ensures Rec(w, p).state != Pending ==> r == w
    ensures Rec(w, p).state == Pending && p < |w.promises| ==>
      && Rec(r, p) == Rec(w, p).(state := Rejected, result := reason)
      && r.queue == w.queue + [Some(PublishRejectionTask(p))]
    ensures forall id: nat :: id != p ==> Rec(r, id) == Rec(w, id)
    ensures r.enumerators == w.enumerators
  {
    var rec := Rec(w, p);
    if rec.state != Pending then w
    else
      var w1 := Put(w, p, rec.(state := Rejected, result := reason));
      Asap(w1, PublishRejectionTask(p))
  }

  /**
   * `subscribe(parent, child, onFulfillment, onRejection)`: appends one triple, clears
   * `_onerror`, and queues publish when the list was empty and the parent is settled.
   */
  function Subscribe(w: World, parent: nat, child: Option<nat>, onFulfillment: Handler, onRejection: Handler): (r: World)
    ensures Quiet(w, r)
    ensures parent < |w.promises| ==>
      && Rec(r, parent) == Rec(w, parent).(
           subscribers := Rec(w, parent).subscribers + [Subscriber(child, onFulfillment, onRejection)],
           onerror := false)
      && r.queue == w.queue +
           (if |Rec(w, parent).subscribers| == 0 && Rec(w, parent).state != Pending
            then [Some(PublishTask(parent))] else [])
    ensures forall id: nat :: id != parent ==> Rec(r, id) == Rec(w, id)
    ensures r.enumerators == w.enumerators
  {
    var rec := Rec(w, parent);
    var length := |rec.subscribers|;
    var w1 := Put(w, parent, rec.(onerror := false,
                                  subscribers := rec.subscribers + [Subscriber(child, onFulfillment, onRejection)]));
    if length == 0 && rec.state != Pending then Asap(w1, PublishTask(parent)) else w1
  }

  /**
   * `resolve(promise, value)`: resolving a promise with itself rejects it; an object or
   * function goes through the thenable classification; anything else fulfills.
   */
  function Resolve(w: World, p: nat, value: Value): (r: World)
    ensures Quiet(w, r)
    ensures r.enumerators == w.enumerators
    ensures p < |w.promises| && Rec(w, p).state == Pending ==>
      && (value == OwnPromise(p) ==>
            Rec(r, p) == Rec(w, p).(state := Rejected, result := LibError(SelfResolution)))
      && (!ObjectOrFunction(value) ==> Rec(r, p) == Rec(w, p).(state := Fulfilled, result := value))
  {
    if value == OwnPromise(p) then Reject(w, p, LibError(SelfResolution))
    else if ObjectOrFunction(value) then HandleMaybeThenable(w, p, value)
    else Fulfill(w, p, value)
  }

  /** Resolving with anything but a promise of this implementation touches no other promise. */
  lemma ResolveLeavesOthers(w: World, p: nat, value: Value)
    requires !value.OwnPromise?
    ensures forall id: nat :: id != p ==> Rec(Resolve(w, p, value), id) == Rec(w, id)
  {
  }

  /**
   * `handleMaybeThenable(promise, value, getThen(value))`: own promises are adopted
   * directly; a throwing getter rejects; an undefined or non-callable `then` fulfills
   * with the object; a callable one goes to the foreign path.
   */
  function HandleMaybeThenable(w: World, p: nat, value: Value): (r: World)
    ensures Quiet(w, r)
    ensures r.enumerators == w.enumerators
    ensures value.Thenable? ==>
      r.promises == w.promises && r.queue == w.queue + [Some(AdoptTask(p, value, value.thenFn))]
    ensures p < |w.promises| && Rec(w, p).state == Pending ==>
      && (GetThen(value).GetterThrew? ==>
            Rec(r, p) == Rec(w, p).(state := Rejected, result := GetThen(value).error))
      && (GetThen(value).Absent? || GetThen(value).NotFunction? ==>
            Rec(r, p) == Rec(w, p).(state := Fulfilled, result := value))
  {
    match GetThen(value)
    case OwnThen => HandleOwnThenable(w, p, value.id)
    case GetterThrew(e) => Reject(w, p, e)
    case Absent => Fulfill(w, p, value)
    case Callable(f) => HandleForeignThenable(w, p, value, f)
    case NotFunction => Fulfill(w, p, value)
  }

  /**
   * `handleOwnThenable(promise, thenable)`: a settled thenable's state and result are
   * copied at once; a pending one gets a child-less subscription forwarding to
   * resolve / reject of `promise`.
   */
  function HandleOwnThenable(w: World, p: nat, q: nat): (r: World)
    ensures Quiet(w, r)
    ensures r.enumerators == w.enumerators
    ensures p < |w.promises| && Rec(w, p).state == Pending && Rec(w, q).state != Pending ==>
      Rec(r, p) == Rec(w, p).(state := Rec(w, q).state, result := Rec(w, q).result)
    ensures q < |w.promises| && Rec(w, q).state == Pending ==>
      && r.queue == w.queue
      && Rec(r, q) == Rec(w, q).(
           subscribers := Rec(w, q).subscribers + [Subscriber(None, ResolveWith(p), RejectWith(p))],
           onerror := false)
      && (forall id: nat :: id != q ==> Rec(r, id) == Rec(w, id))
  {
    var rec := Rec(w, q);
    match rec.state
    case Fulfilled => Fulfill(w, p, rec.result)
    case Rejected => Reject(w, p, rec.result)
    case Pending => Subscribe(w, q, None, ResolveWith(p), RejectWith(p))
  }

  /** `handleForeignThenable`: the adoption runs later, as a queued task. */
  function HandleForeignThenable(w: World, p: nat, thenable: Value, f: ForeignThen): (r: World)
    ensures Quiet(w, r)
    ensures r.promises == w.promises && r.enumerators == w.enumerators
    ensures r.queue == w.queue + [Some(AdoptTask(p, thenable, f))]
  {
    Asap(w, AdoptTask(p, thenable, f))
  }

  /**
   * The effect of one call of the fulfillment or rejection callback handed to a foreign
   * `then`: a value other than the thenable is resolved, the thenable itself fulfills.
   */
  function SettleFromThen(w: World, p: nat, thenable: Value, a: ThenAction): (r: World)
    ensures Quiet(w, r)
    ensures r.enumerators == w.enumerators
    ensures p < |w.promises| && Rec(w, p).state == Pending ==>
      match a
      case OnRejected(reason) => Rec(r, p) == Rec(w, p).(state := Rejected, result := reason)
      case OnFulfilledSelf => Rec(r, p) == Rec(w, p).(state := Fulfilled, result := thenable)
      case OnFulfilled(v) =>
        (v == thenable || !ObjectOrFunction(v)) ==> Rec(r, p) == Rec(w, p).(state := Fulfilled, result := v)
  {
    match a
    case OnFulfilled(v) => if thenable != v then Resolve(w, p, v) else Fulfill(w, p, v)
    case OnFulfilledSelf => Fulfill(w, p, thenable)
    case OnRejected(reason) => Reject(w, p, reason)
  }

  /**
   * The callbacks' calls from index `i` on, with the `sealed` flag: once a callback has
   * run, every later call returns at once. Yields the new state and the flag.
   */
  function ThenCalls(w: World, p: nat, thenable: Value, actions: seq<ThenAction>, i: nat, sealed: bool): (r: (World, bool))
    requires i <= |actions|
    ensures Quiet(w, r.0)
    ensures r.0.enumerators == w.enumerators
    ensures r.1 == (sealed || i < |actions|)
    decreases |actions| - i
  {
    if i == |actions| then (w, sealed)
    else if sealed then ThenCalls(w, p, thenable, actions, i + 1, sealed)
    else
      var w1 := SettleFromThen(w, p, thenable, actions[i]);
      var r := ThenCalls(w1, p, thenable, actions, i + 1, true);
      ExtendsTransitive(w, w1, r.0);
      r
  }

  /**
   * The queued task of `handleForeignThenable`, with the throw check corrected: if the
   * foreign `then` throws before either callback ran, `promise` is rejected with the
   * thrown value, whatever that value is.
   */
  function Adopt(w: World, p: nat, thenable: Value, f: ForeignThen): (r: World)
    ensures Quiet(w, r)
    ensures r.enumerators == w.enumerators
    ensures f.actions == [] && f.throws.None? ==> r == w
    ensures f.actions == [] && f.throws.Some? && p < |w.promises| && Rec(w, p).state == Pending ==>
      Rec(r, p) == Rec(w, p).(state := Rejected, result := f.throws.value)
  {
    var (w1, sealed) := ThenCalls(w, p, thenable, f.actions, 0, false);
    if !sealed && f.throws.Some? then Reject(w1, p, f.throws.value) else w1
  }

  /**
   * The queued task of `handleForeignThenable` as written: `tryThen` returns the thrown
   * value, and `if (!sealed && error)` only rejects when that value is truthy.
   */
  function AdoptAsWritten(w: World, p: nat, thenable: Value, f: ForeignThen): (r: World)
    ensures Quiet(w, r)
  {
    var (w1, sealed) := ThenCalls(w, p, thenable, f.actions, 0, false);
    if !sealed && f.throws.Some? && Truthy(f.throws.value) then Reject(w1, p, f.throws.value) else w1
  }

  function LogCall(w: World, h: Handler, argument: Value): (r: World)
    ensures Extends(w, r) && r.diagnostics == w.diagnostics
    ensures r.calls == w.calls + [Invocation(h, argument)] && r.promises == w.promises
  {
    w.(calls := w.calls + [Invocation(h, argument)])
  }

  /**
   * Calls callback `h` with `argument` (a non-function is not called). `child` is the
   * promise `then` created for the callback, if any. Yields how the call ended.
   */
  function CallHandler(w: World, h: Handler, argument: Value, child: Option<nat>): (r: (World, Completion))
    ensures Extends(w, r.0) && r.0.diagnostics == w.diagnostics
    ensures r.0.calls == w.calls + (if h.NotCallable? then [] else [Invocation(h, argument)])
  {
    if h.NotCallable? then (w, Normal(Undefined))
    else
      var w1 := LogCall(w, h, argument);
      var r := LibraryCallback(w1, h, argument);
      ExtendsTransitive(w, w1, r);
      var c := match h
        case Returns(v) => Normal(v)
        case Throws(e) => Abrupt(e)
        case ReturnsChild => Normal(if child.Some? then OwnPromise(child.value) else Undefined)
        case _ => Normal(Undefined);
      (r, c)
  }

  /**
   * The effect of calling one of the closures the library builds: `value => resolve(p, value)`,
   * `reason => reject(p, reason)` and the enumerator's `_settledAt` callbacks. A user
   * callback has no modelled effect on the promises.
   */
  function LibraryCallback(w: World, h: Handler, argument: Value): (r: World)
    ensures Quiet(w, r)
    ensures UserHandler(h) ==> r == w
  {
    match h
    case ResolveWith(t) => Resolve(w, t, argument)
    case RejectWith(t) => Reject(w, t, argument)
    case SettleSlot(e, s, i) => SettledAt(w, e, s, i, argument)
    case _ => w
  }

  /**
   * The library's closures act on their target: `ResolveWith` resolves it, `RejectWith`
   * rejects it, and `SettleSlot` reports its slot to the enumerator's `_settledAt`.
   */
  lemma LibraryCallbackActs(w: World, h: Handler, argument: Value)
    ensures h.ResolveWith? ==> LibraryCallback(w, h, argument) == Resolve(w, h.target, argument)
    ensures h.RejectWith? ==> LibraryCallback(w, h, argument) == Reject(w, h.target, argument)
    ensures h.SettleSlot? ==> LibraryCallback(w, h, argument) == SettledAt(w, h.enumerator, h.state, h.index, argument)
  {
  }

  /**
   * `invokeCallback(settled, promise, callback, detail)`: runs the callback (or passes
   * `detail` through when it is not a function) and settles the child from the outcome.
   */
  function InvokeCallback(w: World, settled: PromiseState, child: nat, callback: Handler, detail: Value): (r: World)
    ensures Extends(w, r) && r.diagnostics == w.diagnostics
    ensures r.calls == w.calls + (if callback.NotCallable? then [] else [Invocation(callback, detail)])
    ensures UserHandler(callback) && Rec(w, child).state != Pending ==> Rec(r, child) == Rec(w, child)
    ensures child < |w.promises| && Rec(w, child).state == Pending ==>
      match callback
      case NotCallable =>
        if settled == Pending then r == w
        else Rec(r, child) == Rec(w, child).(state := settled, result := detail)
      case Throws(e) => Rec(r, child) == Rec(w, child).(state := Rejected, result := e)
      case ReturnsChild => Rec(r, child) == Rec(w, child).(state := Rejected, result := LibError(CannotReturnOwn))
      case Returns(v) => !ObjectOrFunction(v) ==> Rec(r, child) == Rec(w, child).(state := Fulfilled, result := v)
      case _ => true
  {
    if !callback.NotCallable? then
      var (w1, c) := CallHandler(w, callback, detail, Some(child));
      var r :=
        if c == Normal(OwnPromise(child)) then Reject(w1, child, LibError(CannotReturnOwn))
        else if Rec(w1, child).state != Pending then w1
        else match c
          case Normal(v) => Resolve(w1, child, v)
          case Abrupt(e) => Reject(w1, child, e);
      ExtendsTransitive(w, w1, r);
      r
    else if Rec(w, child).state != Pending then w
    else if settled == Fulfilled then Fulfill(w, child, detail)
    else if settled == Rejected then Reject(w, child, detail)
    else w
  }

  /** A callback the user passed to `then`, as opposed to one the library built. */
  predicate UserHandler(h: Handler) {
    h.NotCallable? || h.Returns? || h.Throws? || h.ReturnsChild?
  }

  /** The calls publish makes for one triple: the callback at offset `settled`, if callable. */
  function NotifiedCall(s: Subscriber, settled: PromiseState, detail: Value): seq<Invocation> {
    var h := CallbackAt(s, settled);
    if h.NotCallable? then [] else [Invocation(h, detail)]
  }

  /** The calls publish makes for a list of triples, in list order. */
  function NotifiedCalls(subs: seq<Subscriber>, settled: PromiseState, detail: Value): seq<Invocation> {
    if subs == [] then [] else NotifiedCall(subs[0], settled, detail) + NotifiedCalls(subs[1..], settled, detail)
  }

  /** Notifying two lists of triples one after the other makes the calls of both, in order. */
  lemma {:induction false} NotifiedCallsAppend(a: seq<Subscriber>, b: seq<Subscriber>, settled: PromiseState, detail: Value)
    ensures NotifiedCalls(a + b, settled, detail) == NotifiedCalls(a, settled, detail) + NotifiedCalls(b, settled, detail)
  {
    if a == [] {
      assert a + b == b;
    } else {
      assert (a + b)[1..] == a[1..] + b;
      NotifiedCallsAppend(a[1..], b, settled, detail);
    }
  }

  /** One iteration of publish's loop: a triple with a child goes to invokeCallback, one without is called directly. */
  function NotifyOne(w: World, s: Subscriber, settled: PromiseState, detail: Value): (r: World)
    ensures Extends(w, r) && r.diagnostics == w.diagnostics
    ensures r.calls == w.calls + NotifiedCall(s, settled, detail)
  {
    match s.child
    case Some(c) => InvokeCallback(w, settled, c, CallbackAt(s, settled), detail)
    case None => CallHandler(w, CallbackAt(s, settled), detail, None).0
  }

  /**
   * A triple with a child is handed to invokeCallback with the callback for the settled
   * state; a triple without one has that callback called directly.
   */
  lemma NotifyOneDispatch(w: World, s: Subscriber, settled: PromiseState, detail: Value)
    ensures s.child.Some? ==>
      NotifyOne(w, s, settled, detail) == InvokeCallback(w, settled, s.child.value, CallbackAt(s, settled), detail)
    ensures s.child.None? ==>
      NotifyOne(w, s, settled, detail) == CallHandler(w, CallbackAt(s, settled), detail, None).0
  {
  }

  /** Publish's loop from triple `i` on. */
  function NotifyFrom(w: World, subs: seq<Subscriber>, settled: PromiseState, detail: Value, i: nat): (r: World)
    requires i <= |subs|
    ensures Extends(w, r) && r.diagnostics == w.diagnostics
    ensures r.calls == w.calls + NotifiedCalls(subs[i..], settled, detail)
    decreases |subs| - i
  {
    if i == |subs| then w
    else
      var w1 := NotifyOne(w, subs[i], settled, detail);
      var r := NotifyFrom(w1, subs, settled, detail, i + 1);
      NotifiedCallsStep(subs, settled, detail, i);
      ExtendsTransitive(w, w1, r);
      r
  }

  lemma NotifiedCallsStep(subs: seq<Subscriber>, settled: PromiseState, detail: Value, i: nat)
    requires i < |subs|
    ensures NotifiedCalls(subs[i..], settled, detail) ==
      NotifiedCall(subs[i], settled, detail) + NotifiedCalls(subs[i + 1..], settled, detail)
  {
    assert subs[i..][1..] == subs[i + 1..];
  }

  /**
   * `publish(promise)`: nothing to do on an empty list; otherwise every triple is
   * notified with the promise's state and result, then the list is emptied.
   */
  function Publish(w: World, p: nat): (r: World)
    ensures Extends(w, r) && r.diagnostics == w.diagnostics
    ensures |Rec(w, p).subscribers| == 0 ==> r == w
    ensures r.calls == w.calls + NotifiedCalls(Rec(w, p).subscribers, Rec(w, p).state, Rec(w, p).result)
    ensures p < |w.promises| ==> Rec(r, p).subscribers == []
  {
    var rec := Rec(w, p);
    if |rec.subscribers| == 0 then w
    else
      var w1 := NotifyFrom(w, rec.subscribers, rec.state, rec.result, 0);
      Put(w1, p, Rec(w1, p).(subscribers := []))
  }

  /** `publishRejection(promise)`: reports to `_onerror` if set, then publishes. */
  function PublishRejection(w: World, p: nat): (r: World)
    ensures Extends(w, r)
    ensures r.diagnostics == w.diagnostics + (if Rec(w, p).onerror then [Diagnostic(p, Rec(w, p).result)] else [])
    ensures r.calls == w.calls + NotifiedCalls(Rec(w, p).subscribers, Rec(w, p).state, Rec(w, p).result)
  {
    var rec := Rec(w, p);
    var w1 := if rec.onerror then w.(diagnostics := w.diagnostics + [Diagnostic(p, rec.result)]) else w;
    var r := Publish(w1, p);
    ExtendsTransitive(w, w1, r);
    r
  }

  /**
   * `enumerator._settledAt(state, i, value)`: while the aggregate is pending, counts the
   * entry and either rejects the aggregate or stores the value at index i; fulfills the
   * aggregate with the results once nothing remains. An index that names no enumerator
   * changes nothing.
   */
  function SettledAt(w: World, e: nat, state: PromiseState, i: nat, value: Value): (r: World)
    ensures Quiet(w, r)
    ensures |r.enumerators| == |w.enumerators|
    ensures e < |w.enumerators| ==> r.enumerators[e].promise == w.enumerators[e].promise
    ensures e < |w.enumerators| && Rec(w, w.enumerators[e].promise).state != Pending ==> r == w
    ensures e < |w.enumerators| && w.enumerators[e].promise < |w.promises| &&
            Rec(w, w.enumerators[e].promise).state == Pending ==>
      var en := w.enumerators[e];
      && EnumAt(r, e).remaining == en.remaining - 1
      && (state == Rejected ==>
            && EnumAt(r, e).result == en.result
            && Rec(r, en.promise).state == Rejected && Rec(r, en.promise).result == value)
      && (state != Rejected ==>
            && EnumAt(r, e).result == (if i < |en.result| then en.result[i := value] else en.result)
            && (en.remaining != 1 ==> Rec(r, en.promise) == Rec(w, en.promise))
            && (en.remaining == 1 ==>
                  Rec(r, en.promise) == Rec(w, en.promise).(state := Fulfilled, result := List(EnumAt(r, e).result))))
  {
    if e >= |w.enumerators| then w
    else
      var w1 := CountSettled(w, e, state, i, value);
      var en1 := w1.enumerators[e];
      if en1.remaining == 0 then
        var r := Fulfill(w1, en1.promise, List(en1.result));
        ExtendsTransitive(w, w1, r);
        r
      else w1
  }

  /** `_settledAt` up to its final check: counts the entry while the aggregate is pending. */
  function CountSettled(w: World, e: nat, state: PromiseState, i: nat, value: Value): (r: World)
    requires e < |w.enumerators|
    ensures Quiet(w, r) && |r.enumerators| == |w.enumerators|
    ensures r.enumerators[e].promise == w.enumerators[e].promise
    ensures Rec(w, w.enumerators[e].promise).state != Pending ==> r == w
    ensures w.enumerators[e].promise < |w.promises| && Rec(w, w.enumerators[e].promise).state == Pending ==>
      var en := w.enumerators[e];
      && r.enumerators[e].remaining == en.remaining - 1
      && (state == Rejected ==>
            && r.enumerators[e].result == en.result
            && Rec(r, en.promise) == Rec(w, en.promise).(state := Rejected, result := value))
      && (state != Rejected ==>
            && r.enumerators[e].result == (if i < |en.result| then en.result[i := value] else en.result)
            && Rec(r, en.promise) == Rec(w, en.promise))
  {
    var en := w.enumerators[e];
    var agg := en.promise;
    if Rec(w, agg).state != Pending then w
    else if state == Rejected then
      var w1 := Reject(w, agg, value);
      w1.(enumerators := w1.enumerators[e := en.(remaining := en.remaining - 1)])
    else
      w.(enumerators := w.enumerators[e := en.(remaining := en.remaining - 1,
                                                result := if i < |en.result| then en.result[i := value] else en.result)])
  }

  /** Runs one queued task: the callback applied to its argument. */
  function RunTask(w: World, t: Task): (r: World)
    ensures Extends(w, r)
  {
    match t
    case PublishTask(p) => Publish(w, p)
    case PublishRejectionTask(p) => PublishRejection(w, p)
    case AdoptTask(p, thenable, f) => Adopt(w, p, thenable, f)
    case InvokeTask(s, c, h, d) => InvokeCallback(w, s, c, h, d)
  }

  /** The resolver's calls to `resolvePromise` / `rejectPromise` from index `i` on. */
  function ExecutorCalls(w: World, p: nat, actions: seq<ExecutorAction>, i: nat): (r: World)
    requires i <= |actions|
    ensures Quiet(w, r)
    decreases |actions| - i
  {
    if i == |actions| then w
    else
      var w1 := match actions[i]
        case CallResolve(v) => Resolve(w, p, v)
        case CallReject(reason) => Reject(w, p, reason);
      var r := ExecutorCalls(w1, p, actions, i + 1);
      ExtendsTransitive(w, w1, r);
      r
  }

  /** `initializePromise(promise, resolver)`: runs the resolver; a throw rejects. */
  function InitializePromise(w: World, p: nat, resolver: Executor): (r: World)
    ensures Quiet(w, r)
    ensures resolver.actions == [] && resolver.throws.None? ==> r == w
    ensures resolver.actions == [] && resolver.throws.Some? && p < |w.promises| && Rec(w, p).state == Pending ==>
      Rec(r, p) == Rec(w, p).(state := Rejected, result := resolver.throws.value)
  {
    var w1 := ExecutorCalls(w, p, resolver.actions, 0);
    var r := if resolver.throws.Some? then Reject(w1, p, resolver.throws.value) else w1;
    ExtendsTransitive(w, w1, r);
    r
  }

  /** Once a callback has run, the foreign `then`'s further calls change nothing. */
  lemma {:induction false} SealedCallsIgnored(w: World, p: nat, thenable: Value, actions: seq<ThenAction>, i: nat)
    requires i <= |actions|
    ensures ThenCalls(w, p, thenable, actions, i, true) == (w, true)
    decreases |actions| - i
  {
    if i < |actions| {
      SealedCallsIgnored(w, p, thenable, actions, i + 1);
    }
  }

  /**
   * Of all the calls a foreign `then` makes to the two callbacks, and a throw after them,
   * only the first call takes effect.
   */
  lemma FirstCallWins(w: World, p: nat, thenable: Value, f: ForeignThen)
    requires |f.actions| > 0
    ensures Adopt(w, p, thenable, f) == SettleFromThen(w, p, thenable, f.actions[0])
  {
    SealedCallsIgnored(SettleFromThen(w, p, thenable, f.actions[0]), p, thenable, f.actions, 1);
  }

  /** A thenable whose `then` fulfills with the thenable itself fulfills the promise with it. */
  lemma SelfFulfillingThenable(w: World, p: nat, thenable: Value, f: ForeignThen)
    requires |f.actions| > 0 && (f.actions[0] == OnFulfilledSelf || f.actions[0] == OnFulfilled(thenable))
    requires p < |w.promises| && Rec(w, p).state == Pending
    ensures Rec(Adopt(w, p, thenable, f), p) == Rec(w, p).(state := Fulfilled, result := thenable)
  {
    FirstCallWins(w, p, thenable, f);
  }

  /**
   * As written, a foreign `then` that throws `undefined` (or any falsy value) before calling
   * either callback leaves the promise pending for ever; the corrected adoption rejects it.
   */
  lemma FalsyThrowIgnored(w: World, p: nat, thenable: Value)
    requires p < |w.promises| && Rec(w, p).state == Pending
    ensures AdoptAsWritten(w, p, thenable, ForeignThen([], Some(Undefined))) == w
    ensures Rec(Adopt(w, p, thenable, ForeignThen([], Some(Undefined))), p) ==
      Rec(w, p).(state := Rejected, result := Undefined)
  {
  }

  /** The two adoptions differ only on a falsy throw before any callback call. */
  lemma AsWrittenAgreesOnTruthyThrows(w: World, p: nat, thenable: Value, f: ForeignThen)
    requires f.throws.Some? ==> Truthy(f.throws.value)
    ensures AdoptAsWritten(w, p, thenable, f) == Adopt(w, p, thenable, f)
  {
  }

  /**
   * A first call of the resolver that settles the promise at once (any `rejectPromise`, or
   * `resolvePromise` with a non-object) decides it: later calls and a later throw leave its
   * state and result as they are.
   */
  lemma ExecutorFirstSettlingCallWins(w: World, p: nat, resolver: Executor)
    requires |resolver.actions| > 0 && p < |w.promises| && Rec(w, p).state == Pending
    requires resolver.actions[0].CallResolve? ==> !ObjectOrFunction(resolver.actions[0].value)
    ensures var r := InitializePromise(w, p, resolver);
      var first := resolver.actions[0];
      && Rec(r, p).state == (if first.CallReject? then Rejected else Fulfilled)
      && Rec(r, p).result == (if first.CallReject? then first.reason else first.value)
  {
    var first := resolver.actions[0];
    var w1 := match first
      case CallResolve(v) => Resolve(w, p, v)
      case CallReject(reason) => Reject(w, p, reason);
    assert Rec(w1, p).state == (if first.CallReject? then Rejected else Fulfilled);
    var w2 := ExecutorCalls(w1, p, resolver.actions, 1);
    assert ExecutorCalls(w, p, resolver.actions, 0) == w2;
    assert SettledKept(w1, w2);
  }

  /**
   * The resolving functions `initializePromise` hands out carry no "already resolved" flag:
   * after `resolvePromise` with a foreign thenable, a second `resolvePromise` with another
   * thenable still queues its own adoption.
   */
  lemma ExecutorResolvesTwice(w: World, p: nat, t1: int, f1: ForeignThen, t2: int, f2: ForeignThen)
    requires p < |w.promises| && Rec(w, p).state == Pending
    ensures var r := InitializePromise(w, p, Executor([CallResolve(Thenable(t1, f1)), CallResolve(Thenable(t2, f2))], None));
      && Rec(r, p) == Rec(w, p)
      && r.queue == w.queue + [Some(AdoptTask(p, Thenable(t1, f1), f1)), Some(AdoptTask(p, Thenable(t2, f2), f2))]
  {
    var actions := [CallResolve(Thenable(t1, f1)), CallResolve(Thenable(t2, f2))];
    var w1 := Resolve(w, p, Thenable(t1, f1));
    var w2 := Resolve(w1, p, Thenable(t2, f2));
    assert ExecutorCalls(w, p, actions, 0) == ExecutorCalls(w1, p, actions, 1);
    assert ExecutorCalls(w1, p, actions, 1) == ExecutorCalls(w2, p, actions, 2) == w2;
  }

  /**
   * Publishing a promise with one registration triple that has a child settles that child
   * exactly as `invokeCallback` does with the callback for the promise's state.
   */
  lemma PublishSingleTriple(w: World, p: nat, s: Subscriber)
    requires p < |w.promises| && Rec(w, p).subscribers == [s] && s.child.Some? && s.child.value != p
    ensures var rec := Rec(w, p);
      Rec(Publish(w, p), s.child.value) ==
        Rec(InvokeCallback(w, rec.state, s.child.value, CallbackAt(s, rec.state), rec.result), s.child.value)
  {
    var rec := Rec(w, p);
    var w1 := NotifyOne(w, s, rec.state, rec.result);
    assert NotifyFrom(w, [s], rec.state, rec.result, 0) == NotifyFrom(w1, [s], rec.state, rec.result, 1) == w1;
  }
}
