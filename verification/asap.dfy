/*
 * asap.js: enqueueing a (callback, arg) pair on the global task queue and
 * requesting a flush when the queue was empty.
 */
module AsapQueue {
  import opened Types

  /** asap's `len`: two array slots per queued pair. */
  function Len(w: World): nat {
    2 * |w.queue|
  }

  /**
   * `asap(callback, arg)`: stores the pair at `queue[len]`, `queue[len + 1]`, adds 2 to
   * `len`, and asks the host for a flush, through the custom scheduler if one is set,
   * exactly when `len` has become 2.
   */
  function Asap(w: World, t: Task): (r: World)
    ensures Quiet(w, r)
    ensures r.queue == w.queue + [Some(t)] && r.enqueued == w.enqueued + [t]
    ensures Len(r) == Len(w) + 2 && Len(r) % 2 == 0
    ensures r.promises == w.promises && r.enumerators == w.enumerators
    ensures |r.requests| == |w.requests| + 1 <==> Len(w) == 0
    ensures Len(w) == 0 ==>
      r.requests[|w.requests|] == (if w.customScheduler then CustomScheduler else DefaultScheduler)
  {
    var r := w.(queue := w.queue + [Some(t)], enqueued := w.enqueued + [t]);
    if Len(r) == 2 then r.(requests := w.requests + [SchedulerOf(w)]) else r
  }
}
