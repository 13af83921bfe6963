/*
 * then.js: `promise.then(onFulfillment, onRejection)`.
 */
module ThenMethod {
  import opened Types
  import opened AsapQueue
  import opened Internal

  /** `arguments[_state - 1]`: the callback `then` received for a settled state. */
  function CallbackFor(state: PromiseState, onFulfillment: Handler, onRejection: Handler): (h: Handler)
    requires state != Pending
    ensures h == CallbackAt(Subscriber(None, onFulfillment, onRejection), state)
  {
    if state == Fulfilled then onFulfillment else onRejection
  }

  /**
   * `parent.then(onFulfillment, onRejection)`: creates a pending child; a settled parent
   * queues one invokeCallback of the callback for its state with its result, a pending
   * parent gets one more subscription triple. Yields the state and the child's id.
   */
  function Then(w: World, parent: nat, onFulfillment: Handler, onRejection: Handler): (r: (World, nat))
    ensures Quiet(w, r.0) && r.0.enumerators == w.enumerators
    ensures r.1 == |w.promises| && |r.0.promises| == r.1 + 1
    ensures Rec(r.0, r.1).state == Pending && Rec(r.0, r.1).result == Undefined
    ensures forall id: nat :: id < |w.promises| && id != parent ==> Rec(r.0, id) == Rec(w, id)
    ensures parent < |w.promises| ==>
      && r.1 != parent
      && Rec(r.0, parent).state == Rec(w, parent).state && Rec(r.0, parent).result == Rec(w, parent).result
    ensures parent < |w.promises| && Rec(w, parent).state != Pending ==>
      && Rec(r.0, parent) == Rec(w, parent)
      && r.0.queue == w.queue + [Some(InvokeTask(Rec(w, parent).state, r.1,
                                                  CallbackAt(Subscriber(None, onFulfillment, onRejection), Rec(w, parent).state),
                                                  Rec(w, parent).result))]
    ensures parent < |w.promises| && Rec(w, parent).state == Pending ==>
      && Rec(r.0, parent).subscribers == Rec(w, parent).subscribers + [Subscriber(Some(r.1), onFulfillment, onRejection)]
      && r.0.queue == w.queue
  {
    var (w1, child) := MakePromise(w);
    var rec := Rec(w1, parent);
    if rec.state != Pending then
      (Asap(w1, InvokeTask(rec.state, child, CallbackFor(rec.state, onFulfillment, onRejection), rec.result)), child)
    else
      (Subscribe(w1, parent, Some(child), onFulfillment, onRejection), child)
  }

  /**
   * The task `then` queues on a settled parent, once run, calls the callback for the
   * parent's state with its result and settles the child from it; a non-function callback
   * passes the parent's state and result on to the child.
   */
  lemma ThenOnSettledParent(w: World, parent: nat, onFulfillment: Handler, onRejection: Handler)
    requires parent < |w.promises| && Rec(w, parent).state != Pending
    ensures var (w1, child) := Then(w, parent, onFulfillment, onRejection);
      var state := Rec(w, parent).state;
      var h := if state == Fulfilled then onFulfillment else onRejection;
      var w2 := RunTask(w1, w1.queue[|w.queue|].value);
      && w2.calls == w1.calls + (if h.NotCallable? then [] else [Invocation(h, Rec(w, parent).result)])
      && (h.NotCallable? ==> Rec(w2, child) == Rec(w1, child).(state := state, result := Rec(w, parent).result))
  {
  }

  /**
   * A triple `then` adds to a pending parent, once the parent settles and publishes, is
   * notified with the callback for the settled state, after the triples registered before it.
   */
  lemma ThenOnPendingParent(w: World, parent: nat, onFulfillment: Handler, onRejection: Handler, v: Value, settled: PromiseState)
    requires parent < |w.promises| && Rec(w, parent).state == Pending && settled != Pending
    ensures var (w1, child) := Then(w, parent, onFulfillment, onRejection);
      var w2 := Put(w1, parent, Rec(w1, parent).(state := settled, result := v));
      var h := if settled == Fulfilled then onFulfillment else onRejection;
      Publish(w2, parent).calls ==
        w2.calls + NotifiedCalls(Rec(w, parent).subscribers, settled, v) +
        (if h.NotCallable? then [] else [Invocation(h, v)])
  {
    var (w1, child) := Then(w, parent, onFulfillment, onRejection);
    NotifiedCallsAppend(Rec(w, parent).subscribers, [Subscriber(Some(child), onFulfillment, onRejection)], settled, v);
  }

  /**
   * A child `then` registered on a pending parent with no earlier subscriber is settled
   * when the parent publishes: with a non-function callback for the parent's final state,
   * the child takes the parent's state and result.
   */
  lemma ThenPassThroughOnPendingParent(w: World, parent: nat, onFulfillment: Handler, onRejection: Handler, v: Value, settled: PromiseState)
    requires parent < |w.promises| && Rec(w, parent).state == Pending && Rec(w, parent).subscribers == []
    requires settled != Pending && CallbackAt(Subscriber(None, onFulfillment, onRejection), settled).NotCallable?
    ensures var (w1, child) := Then(w, parent, onFulfillment, onRejection);
      var w2 := Put(w1, parent, Rec(w1, parent).(state := settled, result := v));
      Rec(Publish(w2, parent), child) == Rec(w1, child).(state := settled, result := v)
  {
    var (w1, child) := Then(w, parent, onFulfillment, onRejection);
    var w2 := Put(w1, parent, Rec(w1, parent).(state := settled, result := v));
    var s := Subscriber(Some(child), onFulfillment, onRejection);
    assert Rec(w2, parent).subscribers == [s];
    assert Rec(w2, child) == Rec(w1, child);
    PublishSingleTriple(w2, parent, s);
  }
}
