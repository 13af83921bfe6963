/*
 * Values, callbacks, promise records and the global state of the promise
 * polyfill's settlement machinery.
 *
 * JavaScript values are modelled by what the library can observe of them:
 * whether they are objects, and what reading their `then` property yields.
 * Callbacks are modelled by their behaviour, not as closures.
 */
module Types {

  datatype Option<+T> = None | Some(value: T)

  /** The error objects the library itself creates, by their message. */
  datatype ErrorKind =
    | SelfResolution     // "You cannot resolve a promise with itself"
    | CannotReturnOwn    // "A promises callback cannot return that same promise."
    | ArrayRequired      // "Array Methods must be provided an Array"
    | RaceArrayRequired  // "You must pass an array to race."
    | NullishThen        // the TypeError raised by reading `then` of undefined or null

  datatype Value =
    | Undefined                            // undefined or null
    | Prim(n: int)                         // any other primitive (0 stands for the falsy ones)
    | Plain(tag: int)                      // an object or function whose `then` is undefined
    | LibError(kind: ErrorKind)            // an error object created by the library
    | List(items: seq<Value>)              // an array (its `then` is undefined)
    | OwnPromise(id: nat)                  // a promise of this implementation, by creation id
    | Thenable(tag: int, thenFn: ForeignThen)  // an object with a callable `then`
    | OddThen(tag: int)                    // an object whose `then` is defined but not callable
    | ThrowingThen(tag: int, error: Value)   // an object whose `then` getter throws `error`

  /** One call a foreign `then` makes, synchronously, to the callbacks it is given. */
  datatype ThenAction =
    | OnFulfilled(value: Value)
    | OnFulfilledSelf               // calls the fulfillment callback with the thenable itself
    | OnRejected(reason: Value)

  /** A foreign `then`: the calls it makes, then possibly a throw. */
  datatype ForeignThen = ForeignThen(actions: seq<ThenAction>, throws: Option<Value>)

  /** One call a user-supplied resolver makes to its `resolve` / `reject` arguments. */
  datatype ExecutorAction = CallResolve(value: Value) | CallReject(reason: Value)

  /** A resolver passed to the promise constructor: its calls, then possibly a throw. */
  datatype Executor = Executor(actions: seq<ExecutorAction>, throws: Option<Value>)

  /** What reading `value.then` yields, as the resolution procedure classifies it. */
  datatype ThenLookup =
    | OwnThen                     // this implementation's `then`
    | Absent                      // undefined
    | Callable(thenFn: ForeignThen) // some other function
    | NotFunction                 // defined, not callable
    | GetterThrew(error: Value)   // the read threw

  /** `objectOrFunction(value)`. */
  predicate ObjectOrFunction(v: Value) {
    !(v.Undefined? || v.Prim?)
  }

  /** JavaScript truthiness of a value. */
  predicate Truthy(v: Value) {
    match v
    case Undefined => false
    case Prim(n) => n != 0
    case _ => true
  }

  /** `getThen(value)`: reads `then`, turning a throw into a captured error. */
  function GetThen(v: Value): (t: ThenLookup)
    ensures t.OwnThen? <==> v.OwnPromise?
    ensures t.Callable? <==> v.Thenable?
  {
    match v
    case Undefined => GetterThrew(LibError(NullishThen))
    case Prim(_) => Absent
    case Plain(_) => Absent
    case LibError(_) => Absent
    case List(_) => Absent
    case OwnPromise(_) => OwnThen
    case Thenable(_, f) => Callable(f)
    case OddThen(_) => NotFunction
    case ThrowingThen(_, e) => GetterThrew(e)
  }

  /**
   * The other outcomes of reading `then`: a defined non-callable `then` for objects that
   * have one, a captured error for a throwing getter and for `undefined` / `null` (the
   * TypeError of reading a property of them), and undefined for any other primitive.
   */
  lemma GetThenCases(v: Value)
    ensures GetThen(v).NotFunction? <==> v.OddThen?
    ensures GetThen(v).GetterThrew? <==> (v.Undefined? || v.ThrowingThen?)
    ensures v.ThrowingThen? ==> GetThen(v).error == v.error
    ensures v.Undefined? ==> GetThen(v).error == LibError(NullishThen)
    ensures !ObjectOrFunction(v) && !v.Undefined? ==> GetThen(v).Absent?
  {
  }

  /** `isFunction(then)` for a looked-up `then`. */
  predicate IsFunction(t: ThenLookup) {
    t.OwnThen? || t.Callable?
  }

  /** PENDING (undefined), FULFILLED (1) and REJECTED (2). */
  datatype PromiseState = Pending | Fulfilled | Rejected

  /**
   * A callback by behaviour. The first four are user functions; the last three
   * are the closures the library builds itself.
   */
  datatype Handler =
    | NotCallable                        // undefined, null or any non-function
    | Returns(v: Value)                  // returns v
    | Throws(e: Value)                   // throws e
    | ReturnsChild                       // returns the promise that `then` created for it
    | ResolveWith(target: nat)           // value => resolve(target, value)
    | RejectWith(target: nat)            // reason => reject(target, reason)
    | SettleSlot(enumerator: nat, state: PromiseState, index: nat)  // enumerator._settledAt(state, index, ...)

  /** How a callback call ended: a return value or a thrown value. */
  datatype Completion = Normal(value: Value) | Abrupt(error: Value)

  /** One registration triple of `_subscribers`: offsets 0, 1 (FULFILLED) and 2 (REJECTED). */
  datatype Subscriber = Subscriber(child: Option<nat>, onFulfillment: Handler, onRejection: Handler)

  /** The callback at offset `state` of a triple; offset `undefined` reads undefined. */
  function CallbackAt(s: Subscriber, state: PromiseState): Handler {
    match state
    case Pending => NotCallable
    case Fulfilled => s.onFulfillment
    case Rejected => s.onRejection
  }

  datatype PromiseRecord = PromiseRecord(
    state: PromiseState,
    result: Value,
    subscribers: seq<Subscriber>,
    onerror: bool)

  /** The record `makePromise` initialises. */
  const Blank := PromiseRecord(Pending, Undefined, [], false)

  /** A queued (callback, arg) pair. */
  datatype Task =
    | PublishTask(promise: nat)                        // asap(publish, promise)
    | PublishRejectionTask(promise: nat)               // asap(publishRejection, promise)
    | AdoptTask(promise: nat, thenable: Value, thenFn: ForeignThen)  // handleForeignThenable's closure
    | InvokeTask(settled: PromiseState, child: nat, callback: Handler, detail: Value)  // then's closure

  /** The fields of an Enumerator. */
  datatype EnumeratorRecord = EnumeratorRecord(promise: nat, length: nat, remaining: int, result: seq<Value>)

  /** Which host mechanism a flush request went to. */
  datatype Scheduler = DefaultScheduler | CustomScheduler

  datatype Invocation = Invocation(callback: Handler, argument: Value)

  datatype Diagnostic = Diagnostic(promise: nat, reason: Value)

  /**
   * The global state. `promises` is indexed by creation id. `queue[k]` stands for the
   * slot pair queue[2k], queue[2k+1] of asap's array up to `len`, so `len` is
   * 2 * |queue|; None is a slot pair a flush has already cleared. `requests` logs each
   * call of scheduleFlush / customSchedulerFn. `calls`, `enqueued` and `ran` only observe:
   * every callback call, every task passed to asap, and every task a flush completed.
   */
  datatype World = World(
    promises: seq<PromiseRecord>,
    queue: seq<Option<Task>>,
    requests: seq<Scheduler>,
    customScheduler: bool,
    enumerators: seq<EnumeratorRecord>,
    diagnostics: seq<Diagnostic>,
    calls: seq<Invocation>,
    enqueued: seq<Task>,
    ran: seq<Task>)

  /** The record of promise `id`; an id that names no record reads as a blank one. */
  function Rec(w: World, id: nat): PromiseRecord {
    if id < |w.promises| then w.promises[id] else Blank
  }

  /** Stores the record of promise `id`; a write to an id that names no record is dropped. */
  function Put(w: World, id: nat, r: PromiseRecord): World {
    if id < |w.promises| then w.(promises := w.promises[id := r]) else w
  }

  function EnumAt(w: World, e: nat): EnumeratorRecord {
    if e < |w.enumerators| then w.enumerators[e] else EnumeratorRecord(0, 0, 0, [])
  }

  function PutEnum(w: World, e: nat, r: EnumeratorRecord): World {
    if e < |w.enumerators| then w.(enumerators := w.enumerators[e := r]) else w
  }

  function SchedulerOf(w: World): Scheduler {
    if w.customScheduler then CustomScheduler else DefaultScheduler
  }

  /** The tasks still waiting in a queue, in queue order. */
  function Unrun(q: seq<Option<Task>>): seq<Task> {
    if q == [] then []
    else (if q[0].Some? then [q[0].value] else []) + Unrun(q[1..])
  }

  /** Every task passed to asap has either completed or is still waiting, in the order enqueued. */
  ghost predicate Coherent(w: World) {
    w.enqueued == w.ran + Unrun(w.queue)
  }

  /** A settled promise keeps its state and result. */
  ghost predicate SettledKept(w: World, r: World) {
    forall id :: 0 <= id < |w.promises| && w.promises[id].state != Pending ==>
      id < |r.promises| && r.promises[id].state == w.promises[id].state &&
      r.promises[id].result == w.promises[id].result
  }

  /**
   * What every synchronous step of the library preserves: promises and enumerators are
   * only added, settled promises stay as they are, asap only appends tasks and requests
   * one flush exactly when the queue goes from empty to non-empty, and no task completes.
   */
  ghost predicate Extends(w: World, r: World) {
    && |w.promises| <= |r.promises|
    && SettledKept(w, r)
    && |w.enumerators| <= |r.enumerators|
    && w.queue <= r.queue
    && w.enqueued <= r.enqueued
    && |r.queue| - |w.queue| == |r.enqueued| - |w.enqueued|
    && (forall j :: |w.queue| <= j < |r.queue| ==> r.queue[j] == Some(r.enqueued[j - |w.queue| + |w.enqueued|]))
    && r.requests == w.requests + (if |w.queue| == 0 && |r.queue| > 0 then [SchedulerOf(w)] else [])
    && r.ran == w.ran
    && r.customScheduler == w.customScheduler
    && w.diagnostics <= r.diagnostics
    && w.calls <= r.calls
  }

  /** A step that, besides, calls no callback and reports no diagnostic. */
  ghost predicate Quiet(w: World, r: World) {
    Extends(w, r) && r.calls == w.calls && r.diagnostics == w.diagnostics
  }

  lemma ExtendsTransitive(a: World, b: World, c: World)
    requires Extends(a, b) && Extends(b, c)
    ensures Extends(a, c)
  {
    forall j | |a.queue| <= j < |c.queue|
      ensures c.queue[j] == Some(c.enqueued[j - |a.queue| + |a.enqueued|])
    {
      if j < |b.queue| {
        assert c.queue[j] == b.queue[j];
      }
    }
  }

  /** Every synchronous step keeps the enqueue log in step with the queue. */
  lemma ExtendsCoherent(w: World, r: World)
    requires Extends(w, r) && Coherent(w)
    ensures Coherent(r)
  {
    AppendedTasks(w.queue, r.queue, w.enqueued, r.enqueued);
    LogSplit(w.enqueued, r.enqueued, w.ran, Unrun(w.queue), Unrun(r.queue));
  }

  /** A log that was `ran + u0` and has grown by what the waiting tasks grew by is `ran + u1`. */
  lemma LogSplit(e0: seq<Task>, e1: seq<Task>, ran: seq<Task>, u0: seq<Task>, u1: seq<Task>)
    requires e0 == ran + u0 && e0 <= e1 && u1 == u0 + e1[|e0|..]
    ensures e1 == ran + u1
  {
    assert e1 == e0 + e1[|e0|..];
  }

  /** The tasks waiting in a queue after an append are the earlier ones, then the appended ones. */
  lemma AppendedTasks(q0: seq<Option<Task>>, q1: seq<Option<Task>>, e0: seq<Task>, e1: seq<Task>)
    requires q0 <= q1 && |e0| <= |e1| && |q1| - |q0| == |e1| - |e0|
    requires forall j :: |q0| <= j < |q1| ==> q1[j] == Some(e1[j - |q0| + |e0|])
    ensures Unrun(q1) == Unrun(q0) + e1[|e0|..]
  {
    assert q1 == q0 + q1[|q0|..];
    UnrunAppend(q0, q1[|q0|..]);
    SliceFilled(q0, q1, e0, e1);
  }

  /** The appended stretch of the queue holds exactly the appended tasks. */
  lemma SliceFilled(q0: seq<Option<Task>>, q1: seq<Option<Task>>, e0: seq<Task>, e1: seq<Task>)
    requires |q0| <= |q1| && |e0| <= |e1| && |q1| - |q0| == |e1| - |e0|
    requires forall j :: |q0| <= j < |q1| ==> q1[j] == Some(e1[j - |q0| + |e0|])
    ensures Unrun(q1[|q0|..]) == e1[|e0|..]
  {
    var added := q1[|q0|..];
    var tasks := e1[|e0|..];
    forall j | 0 <= j < |added|
      ensures added[j] == Some(tasks[j])
    {
      assert added[j] == q1[j + |q0|];
    }
    UnrunFilled(added, tasks);
  }

  /** A queue with a task in every slot pair holds exactly those tasks. */
  lemma {:induction false} UnrunFilled(q: seq<Option<Task>>, ts: seq<Task>)
    requires |q| == |ts| && forall j :: 0 <= j < |q| ==> q[j] == Some(ts[j])
    ensures Unrun(q) == ts
  {
    if q != [] {
      UnrunFilled(q[1..], ts[1..]);
    }
  }

  lemma {:induction false} UnrunAppend(q1: seq<Option<Task>>, q2: seq<Option<Task>>)
    ensures Unrun(q1 + q2) == Unrun(q1) + Unrun(q2)
  {
    if q1 != [] {
      assert (q1 + q2)[1..] == q1[1..] + q2;
      UnrunAppend(q1[1..], q2);
    } else {
      assert q1 + q2 == q2;
    }
  }
}
