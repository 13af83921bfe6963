/*
 * promise/resolve.js and promise/race.js: the static `Promise.resolve` and `Promise.race`.
 */
module Statics {
  import opened Types
  import opened AsapQueue
  import opened Internal
  import opened ThenMethod
  import opened AsapFlush

  /**
   * `Promise.resolve(object)`: a promise of this implementation is returned as it is;
   * anything else gets a fresh promise resolved with it: a foreign thenable is adopted
   * later, an object whose `then` getter throws is rejected with the error, and any other
   * value fulfills it. Yields the state and the id of the promise returned.
   */
  function PromiseResolve(w: World, x: Value): (r: (World, nat))
    ensures Quiet(w, r.0) && r.0.enumerators == w.enumerators
    ensures x.OwnPromise? ==> r == (w, x.id)
    ensures !x.OwnPromise? ==> r.1 == |w.promises| && |r.0.promises| == r.1 + 1
    ensures forall id: nat :: id < |w.promises| && !x.OwnPromise? ==> Rec(r.0, id) == Rec(w, id)
    ensures !ObjectOrFunction(x) ==>
      Rec(r.0, r.1) == Blank.(state := Fulfilled, result := x) && r.0.queue == w.queue
    ensures x.Thenable? ==>
      Rec(r.0, r.1) == Blank && r.0.queue == w.queue + [Some(AdoptTask(r.1, x, x.thenFn))]
    ensures ObjectOrFunction(x) && !x.OwnPromise? && !x.Thenable? ==>
      && (GetThen(x).GetterThrew? ==>
            Rec(r.0, r.1) == Blank.(state := Rejected, result := GetThen(x).error) &&
            r.0.queue == w.queue + [Some(PublishRejectionTask(r.1))])
      && (GetThen(x).Absent? || GetThen(x).NotFunction? ==>
            Rec(r.0, r.1) == Blank.(state := Fulfilled, result := x) && r.0.queue == w.queue)
  {
    if x.OwnPromise? then (w, x.id)
    else
      var (w1, q) := MakePromise(w);
      var r := Resolve(w1, q, x);
      ResolveLeavesOthers(w1, q, x);
      ExtendsTransitive(w, w1, r);
      (r, q)
  }

  /**
   * The resolver `race` passes to the constructor, from entry `i` on: each entry, in index
   * order, goes through `Promise.resolve` and gets `then(resolve, reject)` of promise `p`.
   */
  function RaceFrom(w: World, p: nat, items: seq<Value>, i: nat): (r: World)
    requires i <= |items|
    ensures Quiet(w, r)
    ensures p < |w.promises| ==> Rec(r, p).state == Rec(w, p).state && Rec(r, p).result == Rec(w, p).result
    decreases |items| - i
  {
    if i == |items| then w
    else
      var w1 := RaceEntry(w, p, items[i]);
      var r := RaceFrom(w1, p, items, i + 1);
      ExtendsTransitive(w, w1, r);
      r
  }

  /**
   * `Constructor.resolve(entry).then(resolve, reject)` for the race's promise `p`. It never
   * settles `p` itself. A primitive entry gets a fulfilled promise, so `then` queues the
   * task that will call resolve of `p` with the entry, with the child `then` created. A
   * settled own promise queues the task that will call resolve or reject of `p` with its
   * result; a pending one gets a triple holding those two callbacks.
   */
  function RaceEntry(w: World, p: nat, entry: Value): (r: World)
    ensures Quiet(w, r)
    ensures |r.promises| == |w.promises| + (if entry.OwnPromise? then 1 else 2)
    ensures p < |w.promises| ==> Rec(r, p).state == Rec(w, p).state && Rec(r, p).result == Rec(w, p).result
    ensures !ObjectOrFunction(entry) && p < |w.promises| ==>
      && Rec(r, p) == Rec(w, p)
      && r.queue == w.queue + [Some(InvokeTask(Fulfilled, |w.promises| + 1, ResolveWith(p), entry))]
    ensures entry.OwnPromise? && entry.id < |w.promises| && Rec(w, entry.id).state != Pending ==>
      var q := Rec(w, entry.id);
      r.queue == w.queue + [Some(InvokeTask(q.state, |w.promises|, RaceCallback(p, q.state), q.result))]
    ensures entry.OwnPromise? && entry.id < |w.promises| && Rec(w, entry.id).state == Pending ==>
      && Rec(r, entry.id).subscribers ==
           Rec(w, entry.id).subscribers + [Subscriber(Some(|w.promises|), ResolveWith(p), RejectWith(p))]
      && r.queue == w.queue
  {
    var (w1, q) := PromiseResolve(w, entry);
    var (w2, _) := Then(w1, q, ResolveWith(p), RejectWith(p));
    ExtendsTransitive(w, w1, w2);
    w2
  }

  /**
   * `Promise.race(entries)`: a non-array yields a promise rejected with a TypeError; an
   * array yields a fresh promise settled by the first entry to settle. An empty array
   * leaves it pending with nothing that could settle it. Yields the state and its id.
   */
  function Race(w: World, entries: Value): (r: (World, nat))
    ensures Quiet(w, r.0)
    ensures r.1 == |w.promises| < |r.0.promises|
    ensures !entries.List? ==>
      && Rec(r.0, r.1) == Blank.(state := Rejected, result := LibError(RaceArrayRequired))
      && r.0.queue == w.queue + [Some(PublishRejectionTask(r.1))]
    ensures entries == List([]) ==> Rec(r.0, r.1) == Blank && r.0.queue == w.queue && r.0.calls == w.calls
  {
    var (w1, p) := MakePromise(w);
    var r := if !entries.List? then
        InitializePromise(w1, p, Executor([CallReject(LibError(RaceArrayRequired))], None))
      else RaceFrom(w1, p, entries.items, 0);
    ExtendsTransitive(w, w1, r);
    (r, p)
  }

  /**
   * The tasks race queues for entries that are all primitives: entry `i` gets a fulfilled
   * promise `p + 1 + 2i` from `Promise.resolve` and a child `p + 2 + 2i` from `then`, whose
   * callback task will call resolve of `p` with the entry.
   */
  function PrimitiveRaceTasks(p: nat, items: seq<Value>): (r: seq<Option<Task>>)
    ensures |r| == |items|
  {
    seq(|items|, i requires 0 <= i < |items| => Some(InvokeTask(Fulfilled, p + 2 + 2 * i, ResolveWith(p), items[i])))
  }

  lemma RaceFromStep(w: World, p: nat, items: seq<Value>, i: nat)
    requires i < |items|
    ensures RaceFrom(w, p, items, i) == RaceFrom(RaceEntry(w, p, items[i]), p, items, i + 1)
  {
  }

  lemma RaceEntryPrimitive(w: World, p: nat, items: seq<Value>, i: nat)
    requires i < |items| && |w.promises| == p + 1 + 2 * i && !ObjectOrFunction(items[i])
    ensures var r := RaceEntry(w, p, items[i]);
      && |r.promises| == |w.promises| + 2
      && Rec(r, p) == Rec(w, p)
      && r.queue == w.queue + [PrimitiveRaceTasks(p, items)[i]]
  {
  }

  lemma {:induction false} RaceFromPrimitives(w: World, p: nat, items: seq<Value>, i: nat)
    requires i <= |items| && |w.promises| == p + 1 + 2 * i
    requires forall j :: 0 <= j < |items| ==> !ObjectOrFunction(items[j])
    ensures var r := RaceFrom(w, p, items, i);
      && |r.promises| == p + 1 + 2 * |items|
      && Rec(r, p) == Rec(w, p)
      && r.queue == w.queue + PrimitiveRaceTasks(p, items)[i..]
    decreases |items| - i
  {
    if i < |items| {
      var ts := PrimitiveRaceTasks(p, items);
      var w1 := RaceEntry(w, p, items[i]);
      var r := RaceFrom(w1, p, items, i + 1);
      assert RaceFrom(w, p, items, i) == r by { RaceFromStep(w, p, items, i); }
      assert |w1.promises| == p + 1 + 2 * (i + 1) && Rec(w1, p) == Rec(w, p) && w1.queue == w.queue + [ts[i]] by {
        RaceEntryPrimitive(w, p, items, i);
      }
      assert |r.promises| == p + 1 + 2 * |items| && Rec(r, p) == Rec(w1, p) && r.queue == w1.queue + ts[i + 1..] by {
        RaceFromPrimitives(w1, p, items, i + 1);
      }
      QueueStep(w.queue, w1.queue, r.queue, ts, i);
    }
  }

  /** Appending task `i` and then the tasks after it appends the tasks from `i` on. */
  lemma QueueStep(q0: seq<Option<Task>>, q1: seq<Option<Task>>, q2: seq<Option<Task>>, ts: seq<Option<Task>>, i: nat)
    requires i < |ts| && q1 == q0 + [ts[i]] && q2 == q1 + ts[i + 1..]
    ensures q2 == q0 + ts[i..]
  {
    assert ts[i..] == [ts[i]] + ts[i + 1..];
  }

  /**
   * `Promise.race` over primitives queues, in index order, one callback task per entry and
   * settles nothing yet.
   */
  lemma RacePrimitivesInOrder(w: World, items: seq<Value>)
    requires forall j :: 0 <= j < |items| ==> !ObjectOrFunction(items[j])
    ensures var (r, p) := Race(w, List(items));
      && Rec(r, p) == Blank
      && r.queue == w.queue + PrimitiveRaceTasks(p, items)
  {
    var (w1, p) := MakePromise(w);
    RaceFromPrimitives(w1, p, items, 0);
  }

  /** The callback of `then(resolve, reject)` on race promise `p` for a settled state. */
  function RaceCallback(p: nat, state: PromiseState): (h: Handler)
    requires state != Pending
    ensures h == CallbackAt(Subscriber(None, ResolveWith(p), RejectWith(p)), state)
    ensures h.ResolveWith? <==> state == Fulfilled
  {
    if state == Fulfilled then ResolveWith(p) else RejectWith(p)
  }

  /**
   * First registration wins: when the first entry is a primitive or an already settled own
   * promise, a flush started on the empty queue runs its task first, so the race's promise
   * takes that entry's outcome, a rejection included, and the later tasks leave it so.
   */
  lemma RaceFirstWins(w: World, items: seq<Value>, fuel: nat)
    requires items != [] && w.queue == [] && fuel > 0
    requires !ObjectOrFunction(items[0]) ||
      (items[0].OwnPromise? && items[0].id < |w.promises| && Rec(w, items[0].id).state != Pending &&
       (Rec(w, items[0].id).state == Fulfilled ==> !ObjectOrFunction(Rec(w, items[0].id).result)))
    ensures var (r, p) := Race(w, List(items));
      var first := items[0];
      && Rec(Flush(r, fuel), p).state == (if first.OwnPromise? then Rec(w, first.id).state else Fulfilled)
      && Rec(Flush(r, fuel), p).result == (if first.OwnPromise? then Rec(w, first.id).result else first)
  {
    var (w1, p) := MakePromise(w);
    var w2 := RaceEntry(w1, p, items[0]);
    var r := RaceFrom(w2, p, items, 1);
    RaceFromStep(w1, p, items, 0);
    assert Race(w, List(items)) == (r, p);
    assert w2.queue <= r.queue;
    if items[0].OwnPromise? {
      var q := Rec(w, items[0].id);
      assert Rec(w1, items[0].id) == q;
      FirstTaskDecides(r, p, q.state, |w1.promises|, RaceCallback(p, q.state), q.result, fuel);
    } else {
      FirstTaskDecides(r, p, Fulfilled, |w1.promises| + 1, ResolveWith(p), items[0], fuel);
    }
  }

  /** A flush whose first task is a race task settles the pending race promise with its value. */
  lemma FirstTaskDecides(r: World, p: nat, s: PromiseState, c: nat, h: Handler, v: Value, fuel: nat)
    requires r.queue != [] && r.queue[0] == Some(InvokeTask(s, c, h, v)) && fuel > 0
    requires (h == ResolveWith(p) && !ObjectOrFunction(v)) || h == RejectWith(p)
    requires p < |r.promises| && Rec(r, p).state == Pending
    ensures Rec(Flush(r, fuel), p).state == (if h.ResolveWith? then Fulfilled else Rejected)
    ensures Rec(Flush(r, fuel), p).result == v
  {
    FlushFromStep(r, 0, fuel);
    RaceCallbackDecides(r, p, s, c, h, v);
  }

  /**
   * Whichever of the race's callbacks runs first, from a queued task or from a published
   * triple (both go through invokeCallback), settles the pending race promise: resolve with
   * a non-object fulfills it, reject rejects it.
   */
  lemma RaceCallbackDecides(w: World, p: nat, s: PromiseState, c: nat, h: Handler, v: Value)
    requires (h == ResolveWith(p) && !ObjectOrFunction(v)) || h == RejectWith(p)
    requires p < |w.promises| && Rec(w, p).state == Pending
    ensures Rec(InvokeCallback(w, s, c, h, v), p) ==
      Rec(w, p).(state := if h.ResolveWith? then Fulfilled else Rejected, result := v)
  {
    var (w1, _) := CallHandler(w, h, v, Some(c));
    assert Rec(w1, p) == Rec(w, p).(state := if h.ResolveWith? then Fulfilled else Rejected, result := v);
  }
}
