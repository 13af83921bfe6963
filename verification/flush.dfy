/*
 * asap.js: `flush`, which runs every queued (callback, arg) pair in order,
 * re-reading `len` on each iteration, clears each visited slot pair and finally
 * sets `len` to 0.
 */
module AsapFlush {
  import opened Types
  import opened AsapQueue
  import opened Internal

  /**
   * The flush loop from slot pair `k` on. `fuel` bounds the number of iterations; a
   * flush that runs out of fuel stops where it is, with `len` not yet reset.
   */
  function FlushFrom(w: World, k: nat, fuel: nat): (r: World)
    requires k <= |w.queue|
    ensures |w.promises| <= |r.promises| && SettledKept(w, r)
    ensures r.requests == w.requests && r.customScheduler == w.customScheduler
    ensures w.enqueued <= r.enqueued && w.ran <= r.ran
    decreases fuel
  {
    if k == |w.queue| then w.(queue := [])
    else if fuel == 0 then w
    else FlushFrom(Visit(w, k), k + 1, fuel - 1)
  }

  /**
   * One iteration of the flush loop: `callback(arg)` for the pair in slot pair `k`, then
   * both slots are cleared. The queue only grows while the task runs, and no flush is
   * requested.
   */
  function Visit(w: World, k: nat): (r: World)
    requires k < |w.queue|
    ensures |w.queue| <= |r.queue|
    ensures |w.promises| <= |r.promises| && SettledKept(w, r)
    ensures r.requests == w.requests && r.customScheduler == w.customScheduler
    ensures w.enqueued <= r.enqueued && w.ran <= r.ran
  {
    match w.queue[k]
    case None => w
    case Some(t) =>
      var w1 := RunTask(w, t);
      w1.(queue := w1.queue[k := None], ran := w1.ran + [t])
  }

  /** `flush()`. */
  function Flush(w: World, fuel: nat): (r: World)
    ensures |w.promises| <= |r.promises| && SettledKept(w, r)
    ensures r.requests == w.requests && r.customScheduler == w.customScheduler
    ensures w.enqueued <= r.enqueued && w.ran <= r.ran
  {
    FlushFrom(w, 0, fuel)
  }

  /** A flush with fuel left and a pair waiting at slot pair `k` visits it, then goes on. */
  lemma FlushFromStep(w: World, k: nat, fuel: nat)
    requires k < |w.queue| && fuel > 0
    ensures FlushFrom(w, k, fuel) == FlushFrom(Visit(w, k), k + 1, fuel - 1)
  {
  }

  /** The loop of `flush` ends when the queue is exhausted, resetting `len`, or when the fuel runs out. */
  lemma FlushLoopExit(w: World, k: nat, fuel: nat)
    requires k <= |w.queue| && (k == |w.queue| || fuel == 0)
    ensures FlushFrom(w, k, fuel) == if k == |w.queue| then w.(queue := []) else w
  {
  }

  /** Slot pairs before `k` have been cleared by the flush. */
  ghost predicate ClearedUpTo(q: seq<Option<Task>>, k: nat) {
    k <= |q| && forall j :: 0 <= j < k ==> q[j].None?
  }

  /** Clearing the first waiting slot pair takes its task off the front of the waiting tasks. */
  lemma {:induction false} UnrunClear(q: seq<Option<Task>>, k: nat)
    requires k < |q| && q[k].Some?
    requires forall j :: 0 <= j < k ==> q[j].None?
    ensures Unrun(q) == [q[k].value] + Unrun(q[k := None])
  {
    if k == 0 {
      assert q[k := None][1..] == q[1..];
    } else {
      assert q[k := None][1..] == q[1..][k - 1 := None];
      UnrunClear(q[1..], k - 1);
    }
  }

  /** A queue whose slot pairs have all been cleared holds no waiting task. */
  lemma {:induction false} UnrunCleared(q: seq<Option<Task>>)
    requires forall j :: 0 <= j < |q| ==> q[j].None?
    ensures Unrun(q) == []
  {
    if q != [] {
      UnrunCleared(q[1..]);
    }
  }

  /** Running the task in slot pair `k`, if any, and clearing the slots completes that task. */
  lemma ClearSlot(w: World, k: nat)
    requires ClearedUpTo(w.queue, k) && Coherent(w) && k < |w.queue|
    ensures ClearedUpTo(Visit(w, k).queue, k + 1) && Coherent(Visit(w, k))
  {
    if w.queue[k].None? {
      return;
    }
    var t := w.queue[k].value;
    var w1 := RunTask(w, t);
    assert Visit(w, k) == w1.(queue := w1.queue[k := None], ran := w1.ran + [t]);
    ExtendsCoherent(w, w1);
    ClearedAfterRun(w.queue, w1.queue, k);
    UnrunClear(w1.queue, k);
    assert w1.enqueued == (w1.ran + [t]) + Unrun(w1.queue[k := None]);
  }

  /** Tasks appended while slot pair `k` ran leave the cleared prefix cleared, one pair longer once `k` is cleared. */
  lemma ClearedAfterRun(q0: seq<Option<Task>>, q1: seq<Option<Task>>, k: nat)
    requires ClearedUpTo(q0, k) && k < |q0| && q0 <= q1
    ensures q1[k] == q0[k]
    ensures forall j :: 0 <= j < k ==> q1[j].None?
    ensures ClearedUpTo(q1[k := None], k + 1)
  {
    assert forall j :: 0 <= j < |q0| ==> q1[j] == q0[j];
  }

  /**
   * The flush keeps every enqueued task accounted for, in enqueue order: completed, or
   * still waiting in the queue.
   */
  lemma {:induction false} FlushFromInOrder(w: World, k: nat, fuel: nat)
    requires ClearedUpTo(w.queue, k) && Coherent(w)
    ensures Coherent(FlushFrom(w, k, fuel))
    decreases fuel
  {
    if k == |w.queue| {
      UnrunCleared(w.queue);
      FlushLoopExit(w, k, fuel);
    } else if fuel == 0 {
      FlushLoopExit(w, k, fuel);
    } else {
      var v := Visit(w, k);
      assert ClearedUpTo(v.queue, k + 1) && Coherent(v) by { ClearSlot(w, k); }
      assert Coherent(FlushFrom(v, k + 1, fuel - 1)) by { FlushFromInOrder(v, k + 1, fuel - 1); }
      FlushFromStep(w, k, fuel);
    }
  }

  /**
   * FIFO: a flush that completes runs first the tasks that were waiting, in queue order,
   * then the tasks enqueued meanwhile, each exactly once.
   */
  lemma FlushRunsInOrder(w: World, fuel: nat)
    requires Coherent(w)
    ensures Coherent(Flush(w, fuel))
    ensures Flush(w, fuel).queue == [] ==>
      && w.ran + Unrun(w.queue) <= Flush(w, fuel).ran
      && Flush(w, fuel).ran == Flush(w, fuel).enqueued
  {
    FlushFromInOrder(w, 0, fuel);
  }
}
