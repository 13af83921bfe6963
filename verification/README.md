# es6-promise settlement core, in Dafny

This project models the core of the `es6-promise` polyfill (Promises/A+ for ES6). It covers:

- the per-promise state machine in `-internal.js`: `fulfill`, `reject`, `resolve`, the three thenable handlers, `subscribe`, `publish`, `publishRejection`, `invokeCallback`, `initializePromise` and `makePromise`;
- the microtask queue of `asap.js`: `asap` and `flush`;
- `then`;
- the `Enumerator` behind `Promise.all`;
- the static `Promise.resolve` and `Promise.race`.

The model has two layers.

- **Specification functions** (modules `Types`, `AsapQueue`, `Internal`, `AsapFlush`, `ThenMethod`, `Enumerator`, `Statics`). Each operation is a function from the global state (`Types.World`) before the call to the state after it.
  - The state holds every promise's `_state`, `_result`, `_subscribers` and `_onerror`, indexed by creation id.
  - It holds asap's `queue`, one entry per (callback, arg) slot pair, so `len` is twice its length. It also holds the flush requests made to the host, the custom-scheduler flag, and every Enumerator's `_remaining` and `_result`.
  - Three logs only observe: every callback call, every task enqueued, and every task a flush completed.
  - JavaScript values are modelled by what the library observes of them: whether they are objects, and what reading `then` yields. User callbacks are modelled by their behaviour (returns v, throws e, returns its own child, not a function).
- **The running code** (module `Runtime`, class `PromiseRuntime`). The fields are updated in place by methods with the source's loops. Each method is proved to leave exactly the state its specification function computes, so the lemmas about the functions hold of the class.

Properties proved include:

- settle-once;
- the `resolve` procedure's cases;
- "first call wins" for foreign thenables;
- `subscribe`'s and `publish`'s bookkeeping;
- the `invokeCallback` decision table;
- asap's single flush request per batch;
- FIFO flushing in which every enqueued task runs exactly once, including tasks enqueued during the flush;
- `then` on settled and pending parents;
- `Promise.all` results in input order whatever order the entries settle in, with the first rejection winning;
- `Promise.race` registering entries in order; the first of its callbacks to run decides it, and a first entry already known wins.

## Model

| member | source | states |
|---|---|---|
| Types.GetThen | lib/es6-promise/-internal.js:32-39 | Reading `then` yields the library's own `then` exactly for own promises, and a foreign callable exactly for thenables. |
| Types.GetThenCases | lib/es6-promise/-internal.js:32-39 | A defined non-callable `then` is reported as such. A throwing getter, and reading `then` of `undefined`/`null`, yield a captured error (the thrown value, or the TypeError) rather than raising. Other primitives have no `then`. |
| Types.ExtendsTransitive | lib/es6-promise/asap.js:5-21 | Steps that only add promises, only append tasks and request a flush exactly when the queue leaves empty compose into a step of the same kind. This includes the index-by-index match between appended queue slots and the enqueue log. |
| Types.ExtendsCoherent | lib/es6-promise/asap.js:5-21 | Every synchronous step keeps the enqueue log equal to the completed tasks followed by the tasks still waiting in the queue. |
| Types.UnrunAppend | lib/es6-promise/asap.js:7-9 | The tasks waiting in two consecutive stretches of the queue are those of the first, then those of the second. |
| Types.UnrunFilled | lib/es6-promise/asap.js:7-9 | A stretch of queue slots that all hold tasks holds exactly those tasks, in slot order. |
| AsapQueue.Asap | lib/es6-promise/asap.js:5-21 | Stores the pair at `queue[len]`, and `len` grows by 2 and stays even. A flush is requested exactly when `len` was 0 (becomes 2), through the custom scheduler when one is set. No callback runs and no promise changes. |
| Internal.MakePromise | lib/es6-promise/-internal.js:281-292 | The new promise takes the next id (`id++`) and is pending with an undefined result and no subscribers. Every existing promise is unchanged. |
| Internal.Fulfill | lib/es6-promise/-internal.js:139-151 | A settled promise is left exactly as it is (settle-once). A pending one becomes FULFILLED with the value. Publish is queued only when it has subscribers. Every other promise is unchanged. |
| Internal.Reject | lib/es6-promise/-internal.js:154-160 | A settled promise is left exactly as it is. A pending one becomes REJECTED with the reason, and publishRejection is always queued. Every other promise is unchanged. |
| Internal.Subscribe | lib/es6-promise/-internal.js:165-179 | Appends exactly one triple to the parent's subscribers and clears `_onerror`. Publish is queued exactly when the list was empty and the parent is settled. Every other promise is unchanged. |
| Internal.Resolve | lib/es6-promise/-internal.js:116-127 | Resolving a pending promise with itself rejects it with the self-resolution TypeError. A non-object fulfills it with the value. |
| Internal.ResolveLeavesOthers | lib/es6-promise/-internal.js:116-127 | Resolving with anything but an own promise changes no other promise's record. |
| Internal.HandleMaybeThenable | lib/es6-promise/-internal.js:95-112 | A foreign callable `then` only queues the adoption, with no promise changed synchronously. A throwing getter rejects with the thrown error. An undefined or non-function `then` fulfills with the object itself. |
| Internal.HandleOwnThenable | lib/es6-promise/-internal.js:76-90 | A settled own thenable's state and result are copied at once. A pending one gains one child-less triple that forwards to resolve/reject of the promise and has its `_onerror` cleared; its state and result, every other record and the queue are unchanged. |
| Internal.HandleForeignThenable | lib/es6-promise/-internal.js:49-72 | Adoption of a foreign thenable is asynchronous only. No promise changes, and exactly one adoption task is appended. |
| Internal.SettleFromThen | lib/es6-promise/-internal.js:52-64 | For a pending promise: the rejection callback rejects it with the reason. The fulfillment callback called with the thenable itself fulfills it with the thenable, and called with a non-object fulfills it with that value. |
| Internal.ThenCalls | lib/es6-promise/-internal.js:50-66 | The `sealed` flag is set exactly when at least one callback call has happened. |
| Internal.Adopt | lib/es6-promise/-internal.js:49-72 | A `then` that neither calls back nor throws changes nothing. A throw before any callback call rejects the pending promise with the thrown value. |
| Internal.AdoptAsWritten | lib/es6-promise/-internal.js:41-47 | The adoption task as written, where only a truthy thrown value rejects. It makes no synchronous callback call or diagnostic of its own beyond the foreign `then`'s effects. |
| Internal.SealedCallsIgnored | lib/es6-promise/-internal.js:52-66 | Once sealed, every further callback call from the foreign `then` changes nothing. |
| Internal.FirstCallWins | lib/es6-promise/-internal.js:49-72 | Of all calls a foreign `then` makes, and a throw after them, only the first call takes effect. |
| Internal.SelfFulfillingThenable | lib/es6-promise/-internal.js:52-58 | A thenable whose `then` fulfills with the thenable itself ends with the promise FULFILLED with the thenable. It does not recurse. |
| Internal.FalsyThrowIgnored | lib/es6-promise/-internal.js:67-70 | As written, a `then` that throws `undefined` before calling back leaves the promise pending. The corrected adoption rejects it with `undefined`. |
| Internal.AsWrittenAgreesOnTruthyThrows | lib/es6-promise/-internal.js:41-47 | The as-written and corrected adoptions agree on every foreign `then` that does not throw a falsy value. |
| Internal.CallHandler | lib/es6-promise/-internal.js:209-216 | A callable callback is called exactly once with the argument (logged), and a non-function is not called. Callbacks report no diagnostic. |
| Internal.LibraryCallback | lib/es6-promise/-internal.js:87-88 | Only the closures the library builds change promises. A user callback has no effect on the promise table. |
| Internal.LibraryCallbackActs | lib/es6-promise/-internal.js:87-88 | The library's closures act on their target: `ResolveWith` is `resolve`, `RejectWith` is `reject`, and `SettleSlot` is the enumerator's `_settledAt` for its slot. |
| Internal.InvokeCallback | lib/es6-promise/-internal.js:223-263 | The decision table for a pending child. A non-function passes the parent's state and result on. A throw rejects with the error. Returning the child rejects with the TypeError. A non-object return fulfills with it. A user callback never changes an already settled child. |
| Internal.NotifiedCallsAppend | lib/es6-promise/-internal.js:191-203 | Notifying two lists of triples one after the other calls the callbacks of both, in list order. |
| Internal.NotifyOne | lib/es6-promise/-internal.js:191-203 | One triple is notified: the callback at offset `settled` is called at most once, with the promise's result. |
| Internal.NotifyOneDispatch | lib/es6-promise/-internal.js:196-202 | A triple with a child goes to `invokeCallback` with the callback for the settled state. A triple without one has that callback called directly. |
| Internal.NotifyFrom | lib/es6-promise/-internal.js:191-203 | The loop calls the callbacks at offset `settled` of every remaining triple, in registration order. |
| Internal.Publish | lib/es6-promise/-internal.js:182-206 | An empty list is a no-op. Otherwise every triple's callback for the promise's state is called with its result, in registration order, and the list is emptied. |
| Internal.PublishSingleTriple | lib/es6-promise/-internal.js:182-206 | Publishing a promise whose only triple has a child settles that child exactly as `invokeCallback` does with the callback for the promise's state and its result. |
| Internal.PublishRejection | lib/es6-promise/-internal.js:129-135 | `_onerror` is reported with the reason exactly when set, then the promise is published. |
| Internal.SettledAt | lib/es6-promise/enumerator.js:97-116 | Nothing changes once the aggregate is settled. While it is pending, the entry is counted. A rejection rejects the aggregate with the reason and keeps the results. A fulfillment stores the value at its index, and the aggregate is fulfilled with the results exactly when the last entry is counted. |
| Internal.CountSettled | lib/es6-promise/enumerator.js:100-110 | The counting part of `_settledAt`: it acts only while the aggregate is pending. Only a rejection touches the aggregate, and the value is stored only on fulfillment. |
| Internal.RunTask | lib/es6-promise/asap.js:92-95 | Running a queued callback preserves settle-once for every promise and only appends to the queue, requesting a flush only if the queue was empty. |
| Internal.ExecutorCalls | lib/es6-promise/-internal.js:269-279 | The resolver's calls to resolvePromise/rejectPromise call no user callback and keep settled promises settled. |
| Internal.InitializePromise | lib/es6-promise/-internal.js:269-279 | A resolver that throws before calling either function rejects the pending promise with the thrown value. One that neither calls nor throws changes nothing. No user callback is called. |
| Internal.ExecutorFirstSettlingCallWins | lib/es6-promise/-internal.js:269-279 | When the resolver's first call settles the pending promise at once (any `reject`, or `resolve` with a non-object), that call decides its state and result. Later calls and a later throw change neither. |
| Internal.ExecutorResolvesTwice | lib/es6-promise/-internal.js:269-279 | The resolving functions carry no "already resolved" flag. After `resolve` with a foreign thenable, a second `resolve` with another thenable queues a second adoption, and the promise stays pending until one of them runs. |
| AsapFlush.FlushFrom | lib/es6-promise/asap.js:90-101 | The flush loop never requests another flush, leaves the scheduler flag alone, keeps settled promises settled, and only adds to the enqueue and completion logs. |
| AsapFlush.FlushFromInOrder | lib/es6-promise/asap.js:90-101 | Started with the slot pairs before `k` cleared, the loop keeps every enqueued task accounted for, in enqueue order: completed, or still waiting in the queue. It re-reads `len` after every task, so once it reaches `len` every enqueued task has completed. |
| AsapFlush.Visit | lib/es6-promise/asap.js:92-98 | One iteration: the queue only grows while the callback runs, no flush is requested, settled promises stay settled, and the logs only grow. |
| AsapFlush.Flush | lib/es6-promise/asap.js:90-101 | The whole flush requests no further flush, leaves the scheduler flag alone, keeps settled promises settled and only adds to the enqueue and completion logs. |
| AsapFlush.ClearedAfterRun | lib/es6-promise/asap.js:97-98 | Pairs appended while a callback runs leave the cleared prefix cleared, and clearing pair `k` extends it by one. |
| AsapFlush.UnrunClear | lib/es6-promise/asap.js:97-98 | Clearing the first waiting slot pair removes exactly its task from the front of the waiting tasks. |
| AsapFlush.UnrunCleared | lib/es6-promise/asap.js:101 | A queue whose slot pairs are all cleared holds no waiting task, so `len = 0` loses nothing. |
| AsapFlush.ClearSlot | lib/es6-promise/asap.js:91-99 | Visiting the current slot pair moves its task from waiting to completed, keeping enqueue order. |
| AsapFlush.FlushRunsInOrder | lib/es6-promise/asap.js:90-101 | FIFO, exactly once: a completed flush runs the waiting tasks in queue order, then every task enqueued while it ran, each exactly once. |
| ThenMethod.CallbackFor | lib/es6-promise/then.js:30 | `arguments[_state - 1]` is the callback at offset `_state` of the triple `then` would register. |
| ThenMethod.Then | lib/es6-promise/then.js:13-40 | The child is fresh and different from the parent, pending with an undefined result. The parent's state and result are unchanged. A settled parent queues exactly one invokeCallback task with the callback for its state and its result. A pending parent gains exactly one triple, and nothing is queued. |
| ThenMethod.ThenOnSettledParent | lib/es6-promise/then.js:29-31 | The queued task, once run, calls the callback for the parent's state with the parent's result. A non-function passes the state and result on to the child. |
| ThenMethod.ThenOnPendingParent | lib/es6-promise/then.js:32-36 | When the parent settles and publishes, the new triple's callback is called after those of every triple registered before it. |
| ThenMethod.ThenPassThroughOnPendingParent | lib/es6-promise/-internal.js:246-262 | Value pass-through: a child of `then` on a pending parent with no earlier subscriber, with no function for the state the parent settles in, takes the parent's state and result when the parent publishes. |
| Enumerator.WillSettleAt | lib/es6-promise/enumerator.js:119-128 | Adds one child-less triple whose callbacks report slot `i` to `_settledAt`. |
| Enumerator.EachEntry | lib/es6-promise/enumerator.js:62-94 | A non-thenable entry is counted and stored at its index at once, with no promise or task. Any other entry except a settled own promise gets one fresh promise subscribed for slot `i`. |
| Enumerator.Enumerate | lib/es6-promise/enumerator.js:56-60 | The walk calls no callback and keeps the enumerator's aggregate promise. |
| Enumerator.NewEnumerator | lib/es6-promise/enumerator.js:25-55 | A non-array rejects the fresh aggregate with "Array Methods must be provided an Array" and queues publishRejection. An empty array fulfills it with `[]` synchronously, queueing nothing. |
| Enumerator.AddEnumerator | lib/es6-promise/enumerator.js:33-39 | Stores the new Enumerator's `length`, `_remaining` and `_result` and nothing else. |
| Enumerator.WalkArray | lib/es6-promise/enumerator.js:41-50 | An empty array fulfills the pending aggregate with the results at once. Otherwise, after the walk, the `_remaining === 0` check fulfills the still-pending aggregate with the results when nothing remains, and changes nothing when entries remain. |
| Enumerator.ImmediateKept | lib/es6-promise/enumerator.js:71-78 | Settled promises stay settled, so entries known at once stay so, with the same values. |
| Enumerator.ImmediateStep | lib/es6-promise/enumerator.js:62-78 | An entry known at once is counted and its value stored at its index. The aggregate is fulfilled only if it was the last. |
| Enumerator.ImmediateWalkStep | lib/es6-promise/enumerator.js:57-78 | One step over an entry known at once: its value lands at index `i`, the count drops by one, and the aggregate stays pending unless this was the last entry. |
| Enumerator.ImmediateKeptFrom | lib/es6-promise/enumerator.js:71-78 | `ImmediateKept` for the entries from index `i` on. |
| Enumerator.EnumerateImmediate | lib/es6-promise/enumerator.js:56-60 | Walking entries known at once stores each value at its own index and counts each. The aggregate is fulfilled with the results only by the last count, with nothing queued. |
| Enumerator.AllImmediateFulfillsInOrder | lib/es6-promise/enumerator.js:41-49 | When all entries are non-thenables or fulfilled own promises, the aggregate is fulfilled during the constructor with their values in input order, and nothing is queued. |
| Enumerator.EnumeratePlain | lib/es6-promise/enumerator.js:56-60 | The walk never stops early: every non-thenable entry is counted and stored at its index, whatever state the aggregate is in. |
| Enumerator.RejectedEntryWins | lib/es6-promise/enumerator.js:97-116 | First rejection wins. A rejected first entry rejects the aggregate with its reason during the constructor. The later entries are still visited and recorded, and the aggregate stays rejected. |
| Enumerator.SettleAll | lib/es6-promise/enumerator.js:97-116 | The `_settledAt` calls made after the walk, in settlement order, call no user callback and keep the aggregate promise. |
| Enumerator.AnyOrderFulfillsInInputOrder | lib/es6-promise/enumerator.js:97-116 | Results land in input order whatever the settlement order. If every remaining entry fulfills, each reporting its own index once, in any order, the aggregate is fulfilled with the values, each at its entry's index, by the last report. |
| Enumerator.FirstRejectionDecides | lib/es6-promise/enumerator.js:97-116 | First rejection wins whatever the settlement order. While fewer entries than remain have fulfilled, the first rejection rejects the aggregate with its reason, and no later report changes that. |
| Statics.PromiseResolve | lib/es6-promise/promise/resolve.js:38-52 | An own promise is returned unchanged, with no effect. Anything else gets a fresh promise resolved with it. A primitive, a plain object or array, or an object whose `then` is not a function gives a promise already fulfilled with it. An object whose `then` getter throws gives a promise rejected with the error, with publishRejection queued. A foreign thenable gives a fresh pending promise with its adoption queued. |
| Statics.RaceFrom | lib/es6-promise/promise/race.js:81-86 | The race loop calls no user callback, keeps settled promises settled, and never settles the race promise itself. |
| Statics.RaceEntry | lib/es6-promise/promise/race.js:84 | `resolve(entry).then(resolve, reject)` never settles the race promise. A primitive entry queues the task that will resolve it with the entry. A settled own promise queues the task that will resolve or reject it with that promise's result. A pending own promise gains one triple holding resolve and reject of the race promise. |
| Statics.Race | lib/es6-promise/promise/race.js:70-87 | A non-array yields a fresh promise rejected with "You must pass an array to race.". An empty array yields a promise that stays pending, with nothing queued and no callback called. |
| Statics.PrimitiveRaceTasks | lib/es6-promise/promise/race.js:83-85 | One task per entry. |
| Statics.RaceEntryPrimitive | lib/es6-promise/promise/race.js:84 | Entry `i` (a primitive) adds two promises and queues the `i`-th race task. |
| Statics.RaceFromPrimitives | lib/es6-promise/promise/race.js:83-85 | Over primitives, the loop queues the race tasks in index order and leaves the race promise pending. |
| Statics.RacePrimitivesInOrder | lib/es6-promise/promise/race.js:70-87 | `Promise.race` over primitives queues one resolve task per entry, in index order, and settles nothing synchronously. |
| Statics.RaceFirstWins | lib/es6-promise/promise/race.js:77-86 | First registration wins: for a race started on an empty queue whose first entry is a primitive or an already settled own promise, the race promise after a flush has that entry's outcome, a rejection included, whatever the later entries are. |
| Statics.FirstTaskDecides | lib/es6-promise/promise/race.js:84 | A flush whose first task calls the race promise's resolve (with a non-object) or reject settles it with that task's value, and later tasks do not change it. |
| Statics.RaceCallbackDecides | lib/es6-promise/promise/race.js:84 | Whichever of the race promise's `resolve` (with a non-object) or `reject` runs first, from a queued task or a published triple, settles the pending race promise with its value. |
| Statics.RaceCallback | lib/es6-promise/promise/race.js:84 | The callback `then(resolve, reject)` picks for a settled state is the race promise's `resolve` exactly for FULFILLED. |
| Runtime.PromiseRuntime.constructor | lib/es6-promise/asap.js:1-3 | Module load state: no promise, an empty queue (`len` 0), the given scheduler flag. |
| Runtime.PromiseRuntime.Store | lib/es6-promise/-internal.js:144-145 | Writes a promise's fields in place, and nothing else. |
| Runtime.PromiseRuntime.MakePromise | lib/es6-promise/-internal.js:287-292 | In place; equals `Internal.MakePromise`. |
| Runtime.PromiseRuntime.Asap | lib/es6-promise/asap.js:5-21 | In place; equals `AsapQueue.Asap`. |
| Runtime.PromiseRuntime.Flush | lib/es6-promise/asap.js:90-101 | The loop re-reads the queue length each iteration and clears each visited slot pair. Equals `AsapFlush.Flush`. |
| Runtime.PromiseRuntime.Visit | lib/es6-promise/asap.js:92-98 | Runs the pair in slot pair `k`, then clears both slots. Equals `AsapFlush.Visit`. |
| Runtime.PromiseRuntime.Fulfill | lib/es6-promise/-internal.js:139-151 | In place; equals `Internal.Fulfill`. |
| Runtime.PromiseRuntime.Reject | lib/es6-promise/-internal.js:154-160 | In place; equals `Internal.Reject`. |
| Runtime.PromiseRuntime.Subscribe | lib/es6-promise/-internal.js:165-179 | In place; equals `Internal.Subscribe`. |
| Runtime.PromiseRuntime.Resolve | lib/es6-promise/-internal.js:116-127 | In place; equals `Internal.Resolve`. |
| Runtime.PromiseRuntime.HandleMaybeThenable | lib/es6-promise/-internal.js:95-112 | In place; equals `Internal.HandleMaybeThenable`. |
| Runtime.PromiseRuntime.HandleOwnThenable | lib/es6-promise/-internal.js:76-90 | In place; equals `Internal.HandleOwnThenable`. |
| Runtime.PromiseRuntime.HandleForeignThenable | lib/es6-promise/-internal.js:49-51 | In place; equals `Internal.HandleForeignThenable`. |
| Runtime.PromiseRuntime.SettleFromThen | lib/es6-promise/-internal.js:52-64 | In place; equals `Internal.SettleFromThen`. |
| Runtime.PromiseRuntime.Adopt | lib/es6-promise/-internal.js:50-71 | The foreign `then`'s calls, then the throw check. Equals the corrected `Internal.Adopt`. |
| Runtime.PromiseRuntime.ThenCalls | lib/es6-promise/-internal.js:51-65 | The `sealed` loop over the foreign `then`'s calls. Equals `Internal.ThenCalls`, flag included. |
| Runtime.PromiseRuntime.LibraryCallback | lib/es6-promise/-internal.js:87-88 | In place; equals `Internal.LibraryCallback`. |
| Runtime.PromiseRuntime.CallHandler | lib/es6-promise/-internal.js:209-216 | In place; equals `Internal.CallHandler`. |
| Runtime.PromiseRuntime.InvokeCallback | lib/es6-promise/-internal.js:223-263 | In place; equals `Internal.InvokeCallback`. |
| Runtime.PromiseRuntime.NotifyOne | lib/es6-promise/-internal.js:194-200 | In place; equals `Internal.NotifyOne`. |
| Runtime.PromiseRuntime.Publish | lib/es6-promise/-internal.js:182-206 | The loop over the triples, then the list is emptied. Equals `Internal.Publish`. |
| Runtime.PromiseRuntime.PublishRejection | lib/es6-promise/-internal.js:129-135 | In place; equals `Internal.PublishRejection`. |
| Runtime.PromiseRuntime.SettledAt | lib/es6-promise/enumerator.js:97-116 | In place; equals `Internal.SettledAt`. |
| Runtime.PromiseRuntime.CountSettled | lib/es6-promise/enumerator.js:100-110 | In place; equals `Internal.CountSettled`. |
| Runtime.PromiseRuntime.RunTask | lib/es6-promise/asap.js:92-95 | In place; equals `Internal.RunTask`. |
| Runtime.PromiseRuntime.InitializePromise | lib/es6-promise/-internal.js:269-279 | The loop over the resolver's calls. Equals `Internal.InitializePromise`. |
| Runtime.PromiseRuntime.Then | lib/es6-promise/then.js:13-40 | In place; equals `ThenMethod.Then`. |
| Runtime.PromiseRuntime.EachEntry | lib/es6-promise/enumerator.js:62-94 | In place; equals `Enumerator.EachEntry`. |
| Runtime.PromiseRuntime.NewEnumerator | lib/es6-promise/enumerator.js:25-55 | In place; equals `Enumerator.NewEnumerator`. |
| Runtime.PromiseRuntime.AddEnumerator | lib/es6-promise/enumerator.js:33-39 | In place; equals `Enumerator.AddEnumerator`. |
| Runtime.PromiseRuntime.WalkArray | lib/es6-promise/enumerator.js:41-50 | In place; equals `Enumerator.WalkArray`. |
| Runtime.PromiseRuntime.Enumerate | lib/es6-promise/enumerator.js:56-60 | The loop over the entries. Equals `Enumerator.Enumerate`. |
| Runtime.PromiseRuntime.PromiseResolve | lib/es6-promise/promise/resolve.js:38-52 | In place; equals `Statics.PromiseResolve`. |
| Runtime.PromiseRuntime.Race | lib/es6-promise/promise/race.js:70-87 | The loop over the entries. Equals `Statics.Race`. |

## Left out

- Promise objects are records in a table indexed by creation id, and Enumerators are records in a second table. Object identity beyond that id, `this`, and the `constructor` property are not modelled.
- Only the library's own `Promise` constructor is modelled. The subclass branches of `_eachEntry` (enumerator.js:86-93) and of `then` (then.js:17-23), and the `object.constructor === Constructor` test (resolve.js:43), reduce to "is an own promise". The `promise.js` constructor itself is not part of this model.
- Enumerator.EachEntry: its contract does not describe a settled own promise entry, which is delegated to `_settledAt` (see `Internal.SettledAt`).
- Closures are not modelled as values. The callbacks the library builds are the `Handler` cases `ResolveWith`, `RejectWith` and `SettleSlot`. A user callback is modelled by its outcome: returns a value, throws, returns its own child, or is not a function.
- A foreign `then` is modelled as the sequence of synchronous calls it makes to its two callbacks, followed by an optional throw. A `then` that stores the callbacks and calls them later is not modelled.
- The host scheduler backends (asap.js:31-129), `setScheduler` and `setAsap` are left out. Only the custom-scheduler flag is kept, and a flush request is recorded as which scheduler it went to.
- Exceptions thrown by queued callbacks during a flush are left out. So are the `PROMISE_ID` random key, `_label`, and `_onerror` beyond "cleared by subscribe, reported by publishRejection". The mechanics of the `TRY_CATCH_ERROR` sentinel are also left out: `getThen` yields the captured error directly.
- Reading `then` of `undefined`/`null` is modelled as a captured TypeError.
- AsapFlush.Flush: takes a `fuel` bound on the number of loop iterations, for termination. A flush that runs out of fuel stops with `len` not yet reset; the properties are stated for a flush that reaches `len`.
- Internal.Publish: iterates over the subscriber list read at its start. The source re-reads its length, but no modelled callback subscribes to the promise being published.
- Internal.CallHandler: a user callback called without a child (never done by the library, which always passes a child for user callbacks) is treated as having no effect.
- ThenMethod.Then: the queued task captures the parent's result when it is enqueued; the source reads `parent._result` when the task runs. These are equal because a settled promise never changes (settle-once).
- Internal.InvokeCallback: for a callback that returns an object or function, and for the library's own callbacks, the contract states only the logging. The settling is that of `Internal.Resolve` / `Internal.LibraryCallback`.
- Statics.RaceFirstWins: states the race promise's state and result after the flush, not its subscriber list. It covers only a race started while no task is waiting (an empty queue), so not one created inside a `then` callback during a flush: there the earlier tasks run first, and showing that they cannot touch the fresh race promise needs an invariant bounding every promise id the world mentions, which the model does not carry. It covers a first entry that is a primitive or an already settled own promise (fulfilled with a non-object, or rejected). A race won by a pending own promise or a foreign thenable goes through the same two callbacks (`Statics.RaceEntry`, `Statics.RaceCallbackDecides`), but the flushes that bring its settlement are not followed end to end.
- Enumerator.Enumerate: its contract does not describe each entry. Entries known at once are covered by `Enumerator.EnumerateImmediate` and `Enumerator.EnumeratePlain`. Entries that settle later are covered by `Enumerator.WillSettleAt` and, for the `_settledAt` calls their settlement makes, by `Enumerator.SettleAll` and its lemmas.
- Enumerator.SettleAll: the later settlements are given as the sequence of `_settledAt` calls they make. The flushes and publishes that deliver them are not followed end to end.
- Internal.RunTask: a queued adoption task runs the corrected adoption (`Internal.Adopt`, see Findings), not the as-written one. So the flush, and the running code below, reject the promise on a falsy throw before any callback call, where the source leaves it pending. The two adoptions agree on every other foreign `then` (`Internal.AsWrittenAgreesOnTruthyThrows`).
- Runtime.PromiseRuntime.Adopt: equals the corrected `Internal.Adopt`, for the reason given under `Internal.RunTask`.
- Runtime.PromiseRuntime.RunTask: equals `Internal.RunTask`, so it runs the corrected adoption.
- ThenMethod.ThenPassThroughOnPendingParent: covers only a parent with no earlier subscriber. An earlier triple may name, as its child or in its callbacks, the id the new child is about to get, and publish runs it first; ruling that out needs an invariant bounding every promise id the world mentions, which the model does not carry (the same gap as under `Statics.RaceFirstWins`).
- Statics.FirstTaskDecides: states the race promise's state and result after the flush, not its subscriber list.
- Statics.Race: the array branch runs the entries' `resolve(...).then(resolve, reject)` directly, rather than through `initializePromise`. That resolver never throws, so the effect is the same.
- Runtime.PromiseRuntime: the `calls`, `enqueued` and `ran` logs are ghost. They only observe the running code. Every other field is a real variable of the library.
- Ids and enumerator indices that name no record read as a blank pending record, and writes to them are dropped, so every operation is total.

## Findings

| source | as written | input that shows it | evidently intended | confidence | as-written member | corrected member |
|---|---|---|---|---|---|---|
| lib/es6-promise/-internal.js:41-47, 67-70 | `tryThen` returns the thrown value, and the task rejects only `if (!sealed && error)`. A falsy thrown value is therefore ignored. | A thenable whose `then` is `function () { throw undefined; }` (or throws `0`, `false`, `null`, `''`) before calling either callback: the promise stays pending for ever. | Reject the promise with the thrown value whatever it is (section 2.3.3.3.4 of Promises/A+). | not executed | Internal.AdoptAsWritten (with Internal.FalsyThrowIgnored) | Internal.Adopt (with Internal.FalsyThrowIgnored, Internal.AsWrittenAgreesOnTruthyThrows) |
