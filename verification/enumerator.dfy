/*
 * enumerator.js: the Enumerator behind `Promise.all`, which walks the input array
 * once, counts the entries that are already known and subscribes to the others,
 * and settles an aggregate promise. Its `_settledAt` is `Internal.SettledAt`.
 */
module Enumerator {
  import opened Types
  import opened AsapQueue
  import opened Internal

  /** `_willSettleAt(promise, i)`: a child-less subscription whose callbacks report slot `i`. */
  function WillSettleAt(w: World, e: nat, q: nat, i: nat): (r: World)
    ensures Quiet(w, r) && r.enumerators == w.enumerators
    ensures q < |w.promises| ==>
      Rec(r, q).subscribers == Rec(w, q).subscribers + [Subscriber(None, SettleSlot(e, Fulfilled, i), SettleSlot(e, Rejected, i))]
  {
    Subscribe(w, q, None, SettleSlot(e, Fulfilled, i), SettleSlot(e, Rejected, i))
  }

  /**
   * `_eachEntry(entry, i)`: a settled own promise is counted through `_settledAt`; an entry
   * whose `then` is not a function is counted and stored at index `i` at once; any other
   * entry is resolved into a fresh promise whose settlement will report slot `i`.
   */
  function EachEntry(w: World, e: nat, entry: Value, i: nat): (r: World)
    ensures Quiet(w, r) && |r.enumerators| == |w.enumerators|
    ensures e < |w.enumerators| ==> r.enumerators[e].promise == w.enumerators[e].promise
    ensures !IsFunction(GetThen(entry)) ==>
      && r.promises == w.promises && r.queue == w.queue
      && (e < |w.enumerators| ==>
            r.enumerators == w.enumerators[e := w.enumerators[e].(
              remaining := w.enumerators[e].remaining - 1,
              result := if i < |w.enumerators[e].result| then w.enumerators[e].result[i := entry]
                        else w.enumerators[e].result)])
    ensures IsFunction(GetThen(entry)) && !(entry.OwnPromise? && Rec(w, entry.id).state != Pending) &&
            (entry.OwnPromise? ==> entry.id < |w.promises|) ==>
      && |r.promises| == |w.promises| + 1 && r.enumerators == w.enumerators
      && Rec(r, |w.promises|) ==
           Blank.(subscribers := [Subscriber(None, SettleSlot(e, Fulfilled, i), SettleSlot(e, Rejected, i))])
  {
    var t := GetThen(entry);
    if t.OwnThen? && Rec(w, entry.id).state != Pending then
      SettledAt(w, e, Rec(w, entry.id).state, i, Rec(w, entry.id).result)
    else if !IsFunction(t) then
      if e < |w.enumerators| then
        var en := w.enumerators[e];
        w.(enumerators := w.enumerators[e := en.(remaining := en.remaining - 1,
                                                  result := if i < |en.result| then en.result[i := entry] else en.result)])
      else w
    else
      var (w1, q) := MakePromise(w);
      var w2 := HandleMaybeThenable(w1, q, entry);
      var r := WillSettleAt(w2, e, q, i);
      ExtendsTransitive(w, w1, w2);
      ExtendsTransitive(w, w2, r);
      r
  }

  /**
   * `_enumerate(input)` from index `i` on. Its guard reads `this._state`, which an
   * Enumerator never has, so every entry is visited whatever happened to the aggregate.
   */
  function Enumerate(w: World, e: nat, items: seq<Value>, i: nat): (r: World)
    requires i <= |items|
    ensures Quiet(w, r) && |r.enumerators| == |w.enumerators|
    ensures e < |w.enumerators| ==> r.enumerators[e].promise == w.enumerators[e].promise
    decreases |items| - i
  {
    if i == |items| then w
    else
      var w1 := EachEntry(w, e, items[i], i);
      var r := Enumerate(w1, e, items, i + 1);
      ExtendsTransitive(w, w1, r);
      r
  }

  /** One iteration of `_enumerate`: entry `i`, then the entries after it. */
  lemma EnumerateStep(w: World, e: nat, items: seq<Value>, i: nat)
    requires i < |items|
    ensures Enumerate(w, e, items, i) == Enumerate(EachEntry(w, e, items[i], i), e, items, i + 1)
  {
  }

  /**
   * `new Enumerator(Promise, input)`: a fresh aggregate promise; a non-array rejects it;
   * an empty array fulfills it with an empty array at once; otherwise every entry is
   * visited and the aggregate is fulfilled if nothing remains. Yields the state and the
   * enumerator's index; its aggregate is promise `|w.promises|`.
   */
  function NewEnumerator(w: World, input: Value): (r: (World, nat))
    ensures Quiet(w, r.0)
    ensures r.1 == |w.enumerators| && |r.0.enumerators| == r.1 + 1
    ensures r.0.enumerators[r.1].promise == |w.promises| < |r.0.promises|
    ensures !input.List? ==>
      && Rec(r.0, |w.promises|) == Blank.(state := Rejected, result := LibError(ArrayRequired))
      && r.0.queue == w.queue + [Some(PublishRejectionTask(|w.promises|))]
    ensures input == List([]) ==>
      Rec(r.0, |w.promises|) == Blank.(state := Fulfilled, result := List([])) && r.0.queue == w.queue
  {
    var (w1, agg) := MakePromise(w);
    var e := |w1.enumerators|;
    var n := if input.List? then |input.items| else 0;
    var w2 := AddEnumerator(w1, EnumeratorRecord(agg, n, n, seq(n, _ => Undefined)));
    var r := if !input.List? then Reject(w2, agg, LibError(ArrayRequired)) else WalkArray(w2, e, input.items);
    ExtendsTransitive(w, w1, w2);
    ExtendsTransitive(w, w2, r);
    (r, e)
  }

  /** Stores a new Enumerator's fields. */
  function AddEnumerator(w: World, en: EnumeratorRecord): (r: World)
    ensures Quiet(w, r) && r.enumerators == w.enumerators + [en]
    ensures r.promises == w.promises && r.queue == w.queue
  {
    w.(enumerators := w.enumerators + [en])
  }

  /**
   * The array branch of the constructor: an empty array fulfills the aggregate at once;
   * otherwise the entries are walked and the aggregate is fulfilled if nothing remains.
   */
  function WalkArray(w: World, e: nat, items: seq<Value>): (r: World)
    requires e < |w.enumerators|
    ensures Quiet(w, r) && |r.enumerators| == |w.enumerators|
    ensures r.enumerators[e].promise == w.enumerators[e].promise
    ensures items == [] && Rec(w, w.enumerators[e].promise).state == Pending && w.enumerators[e].promise < |w.promises| ==>
      && Rec(r, w.enumerators[e].promise) == Rec(w, w.enumerators[e].promise).(state := Fulfilled, result := List(w.enumerators[e].result))
      && r.queue == w.queue + (if |Rec(w, w.enumerators[e].promise).subscribers| != 0 then [Some(PublishTask(w.enumerators[e].promise))] else [])
    ensures items != [] ==>
      var w1 := Enumerate(w, e, items, 0);
      var agg := w.enumerators[e].promise;
      && (w1.enumerators[e].remaining != 0 ==> r == w1)
      && (w1.enumerators[e].remaining == 0 && agg < |w1.promises| && Rec(w1, agg).state == Pending ==>
            Rec(r, agg) == Rec(w1, agg).(state := Fulfilled, result := List(w1.enumerators[e].result)))
  {
    var agg := w.enumerators[e].promise;
    if |items| == 0 then Fulfill(w, agg, List(w.enumerators[e].result))
    else
      var w1 := Enumerate(w, e, items, 0);
      var r := if w1.enumerators[e].remaining == 0 then Fulfill(w1, agg, List(w1.enumerators[e].result)) else w1;
      ExtendsTransitive(w, w1, r);
      r
  }

  /** An entry accounted for during the walk itself without rejecting the aggregate. */
  predicate Immediate(w: World, x: Value) {
    !IsFunction(GetThen(x)) || (x.OwnPromise? && Rec(w, x.id).state == Fulfilled)
  }

  /** What an immediate entry contributes: a fulfilled own promise's value, or the entry itself. */
  function ImmediateValue(w: World, x: Value): Value {
    if x.OwnPromise? then Rec(w, x.id).result else x
  }

  function ImmediateValues(w: World, xs: seq<Value>): (r: seq<Value>)
    ensures |r| == |xs|
  {
    seq(|xs|, j requires 0 <= j < |xs| => ImmediateValue(w, xs[j]))
  }

  /** Settled promises keep their values, so immediate entries stay immediate with the same values. */
  lemma ImmediateKept(w: World, w1: World, xs: seq<Value>)
    requires SettledKept(w, w1)
    requires forall j :: 0 <= j < |xs| ==> Immediate(w, xs[j])
    ensures forall j :: 0 <= j < |xs| ==> Immediate(w1, xs[j])
    ensures ImmediateValues(w1, xs) == ImmediateValues(w, xs)
  {
  }

  /** `_eachEntry` on an immediate entry counts it and stores its value at index `i`. */
  lemma ImmediateStep(w: World, e: nat, x: Value, i: nat)
    requires e < |w.enumerators| && i < |w.enumerators[e].result|
    requires w.enumerators[e].promise < |w.promises| && Rec(w, w.enumerators[e].promise).state == Pending
    requires Immediate(w, x) && Rec(w, w.enumerators[e].promise).subscribers == []
    ensures var r := EachEntry(w, e, x, i);
      var en := w.enumerators[e];
      && r.queue == w.queue
      && r.enumerators[e].promise == en.promise
      && r.enumerators[e].remaining == en.remaining - 1
      && r.enumerators[e].result == en.result[i := ImmediateValue(w, x)]
      && (Rec(r, en.promise).state == Pending ==> Rec(r, en.promise) == Rec(w, en.promise))
      && (Rec(r, en.promise).state != Pending ==>
            && en.remaining == 1
            && Rec(r, en.promise) == Rec(w, en.promise).(state := Fulfilled, result := List(r.enumerators[e].result)))
  {
  }

  lemma ImmediateValuesCons(w: World, xs: seq<Value>)
    requires xs != []
    ensures ImmediateValues(w, xs) == [ImmediateValue(w, xs[0])] + ImmediateValues(w, xs[1..])
  {
  }

  /**
   * Walking entries that are all immediate counts each of them and stores its value at its
   * own index; the aggregate stays pending until the last one, and if `_settledAt` counted
   * the last one it fulfills the aggregate with the results.
   */
  lemma {:induction false} EnumerateImmediate(w: World, e: nat, items: seq<Value>, i: nat)
    requires i < |items| && e < |w.enumerators|
    requires w.enumerators[e].promise < |w.promises| && Rec(w, w.enumerators[e].promise).state == Pending
    requires w.enumerators[e].remaining == |items| - i && |w.enumerators[e].result| == |items|
    requires forall j :: i <= j < |items| ==> Immediate(w, items[j])
    requires Rec(w, w.enumerators[e].promise).subscribers == []
    ensures var r := Enumerate(w, e, items, i);
      var agg := w.enumerators[e].promise;
      && r.queue == w.queue
      && r.enumerators[e].promise == agg
      && r.enumerators[e].remaining == 0
      && r.enumerators[e].result == w.enumerators[e].result[..i] + ImmediateValues(w, items[i..])
      && (Rec(r, agg).state == Pending ==> Rec(r, agg) == Rec(w, agg))
      && (Rec(r, agg).state != Pending ==>
            Rec(r, agg) == Rec(w, agg).(state := Fulfilled, result := List(r.enumerators[e].result)))
    decreases |items| - i
  {
    ImmediateWalkStep(w, e, items, i);
    var w1 := EachEntry(w, e, items[i], i);
    if i + 1 < |items| {
      EnumerateImmediate(w1, e, items, i + 1);
    } else {
      assert Enumerate(w1, e, items, i + 1) == w1;
      assert w1.enumerators[e].result == w1.enumerators[e].result[..i + 1];
    }
  }

  /**
   * One step of the walk over immediate entries: the entry's value lands at index `i` and
   * the aggregate stays pending unless this was the last entry.
   */
  lemma ImmediateWalkStep(w: World, e: nat, items: seq<Value>, i: nat)
    requires i < |items| && e < |w.enumerators|
    requires w.enumerators[e].promise < |w.promises| && Rec(w, w.enumerators[e].promise).state == Pending
    requires w.enumerators[e].remaining == |items| - i && |w.enumerators[e].result| == |items|
    requires forall j :: i <= j < |items| ==> Immediate(w, items[j])
    requires Rec(w, w.enumerators[e].promise).subscribers == []
    ensures var w1 := EachEntry(w, e, items[i], i);
      var en := w.enumerators[e];
      var agg := en.promise;
      && Enumerate(w, e, items, i) == Enumerate(w1, e, items, i + 1)
      && w1.queue == w.queue && e < |w1.enumerators| && agg < |w1.promises|
      && w1.enumerators[e].promise == agg
      && w1.enumerators[e].remaining == |items| - (i + 1)
      && |w1.enumerators[e].result| == |items|
      && w1.enumerators[e].result[..i + 1] + ImmediateValues(w1, items[i + 1..])
         == en.result[..i] + ImmediateValues(w, items[i..])
      && (i + 1 < |items| ==>
            && Rec(w1, agg) == Rec(w, agg)
            && forall j :: i + 1 <= j < |items| ==> Immediate(w1, items[j]))
      && (Rec(w1, agg).state == Pending ==> Rec(w1, agg) == Rec(w, agg))
      && (Rec(w1, agg).state != Pending ==>
            Rec(w1, agg) == Rec(w, agg).(state := Fulfilled, result := List(w1.enumerators[e].result)))
  {
    var en := w.enumerators[e];
    var w1 := EachEntry(w, e, items[i], i);
    EnumerateStep(w, e, items, i);
    ImmediateStep(w, e, items[i], i);
    ImmediateKeptFrom(w, w1, items, i + 1);
    ImmediateValuesCons(w, items[i..]);
    assert items[i..][1..] == items[i + 1..];
    StoredPrefix(en.result, i, ImmediateValue(w, items[i]), ImmediateValues(w, items[i + 1..]));
  }

  /** `ImmediateKept`, for the entries from index `i` on. */
  lemma ImmediateKeptFrom(w: World, w1: World, items: seq<Value>, i: nat)
    requires SettledKept(w, w1) && i <= |items|
    requires forall j :: i <= j < |items| ==> Immediate(w, items[j])
    ensures forall j :: i <= j < |items| ==> Immediate(w1, items[j])
    ensures ImmediateValues(w1, items[i..]) == ImmediateValues(w, items[i..])
  {
    ImmediateKept(w, w1, items[i..]);
    forall j | i <= j < |items|
      ensures Immediate(w1, items[j])
    {
      assert items[j] == items[i..][j - i];
    }
  }

  /** Storing `v` at index `i` extends the prefix before `i` by `v`. */
  lemma StoredPrefix<T>(s: seq<T>, i: nat, v: T, rest: seq<T>)
    requires i < |s|
    ensures s[i := v][..i + 1] + rest == s[..i] + ([v] + rest)
  {
    assert s[i := v][..i + 1] == s[..i] + [v];
  }

  /**
   * `Promise.all` over entries that are all known at once (non-thenables and fulfilled own
   * promises): the aggregate is fulfilled during the constructor with their values in
   * input order, and nothing is queued.
   */
  lemma AllImmediateFulfillsInOrder(w: World, items: seq<Value>)
    requires items != []
    requires forall j :: 0 <= j < |items| ==> Immediate(w, items[j])
    ensures var (r, e) := NewEnumerator(w, List(items));
      && Rec(r, |w.promises|) == Blank.(state := Fulfilled, result := List(ImmediateValues(w, items)))
      && r.queue == w.queue
  {
    var (w1, agg) := MakePromise(w);
    var e := |w1.enumerators|;
    var n := |items|;
    var w2 := AddEnumerator(w1, EnumeratorRecord(agg, n, n, seq(n, _ => Undefined)));
    assert NewEnumerator(w, List(items)) == (WalkArray(w2, e, items), e);
    ImmediateKept(w, w2, items);
    EnumerateImmediate(w2, e, items, 0);
    assert items[0..] == items;
    var w3 := Enumerate(w2, e, items, 0);
    var values := w3.enumerators[e].result;
    assert values == ImmediateValues(w, items);
    assert Rec(w3, agg).state == Pending ==> Rec(w3, agg) == Blank;
    assert WalkArray(w2, e, items) == Fulfill(w3, agg, List(values));
  }

  /**
   * Walking entries whose `then` is not a function counts every one of them and stores
   * each at its own index, whatever state the aggregate is in.
   */
  lemma {:induction false} EnumeratePlain(w: World, e: nat, items: seq<Value>, i: nat)
    requires i <= |items| && e < |w.enumerators| && |w.enumerators[e].result| == |items|
    requires forall j :: i <= j < |items| ==> !IsFunction(GetThen(items[j]))
    ensures var r := Enumerate(w, e, items, i);
      var en := w.enumerators[e];
      && r.promises == w.promises && r.queue == w.queue
      && r.enumerators == w.enumerators[e := en.(remaining := en.remaining - (|items| - i),
                                                  result := en.result[..i] + items[i..])]
    decreases |items| - i
  {
    var en := w.enumerators[e];
    if i == |items| {
      assert en.result[..i] + items[i..] == en.result;
    } else {
      var w1 := EachEntry(w, e, items[i], i);
      EnumeratePlain(w1, e, items, i + 1);
      assert w1.enumerators[e].result[..i + 1] + items[i + 1..] == en.result[..i] + items[i..];
    }
  }

  /**
   * First rejection wins: when the first entry is a rejected own promise, the aggregate is
   * rejected with its reason during the constructor, and the later entries are still all
   * visited and recorded without changing that.
   */
  lemma RejectedEntryWins(w: World, q: nat, rest: seq<Value>)
    requires Rec(w, q).state == Rejected
    requires forall j :: 0 <= j < |rest| ==> !IsFunction(GetThen(rest[j]))
    ensures var (r, e) := NewEnumerator(w, List([OwnPromise(q)] + rest));
      && Rec(r, |w.promises|) == Blank.(state := Rejected, result := Rec(w, q).result)
      && r.queue == w.queue + [Some(PublishRejectionTask(|w.promises|))]
      && r.enumerators[e].remaining == 0
      && |r.enumerators[e].result| == 1 + |rest| && r.enumerators[e].result[1..] == rest
  {
    var items := [OwnPromise(q)] + rest;
    var (w1, agg) := MakePromise(w);
    var e := |w1.enumerators|;
    var n := |items|;
    var w2 := AddEnumerator(w1, EnumeratorRecord(agg, n, n, seq(n, _ => Undefined)));
    var w3 := EachEntry(w2, e, items[0], 0);
    assert Rec(w3, agg) == Blank.(state := Rejected, result := Rec(w, q).result);
    assert items[1..] == rest;
    EnumeratePlain(w3, e, items, 1);
  }

  /** One later call of `_settledAt`: the settled state, the entry's index and the value. */
  datatype Settlement = Settlement(state: PromiseState, index: nat, value: Value)

  /** The entries' indices, in the order the settlements report them. */
  function Indices(steps: seq<Settlement>): (r: seq<nat>)
    ensures |r| == |steps|
  {
    seq(|steps|, k requires 0 <= k < |steps| => steps[k].index)
  }

  /**
   * `_settledAt` called once per settlement, in the order the entries' promises settle
   * after the walk (through the callbacks `_willSettleAt` subscribed).
   */
  function SettleAll(w: World, e: nat, steps: seq<Settlement>): (r: World)
    ensures Quiet(w, r) && |r.enumerators| == |w.enumerators|
    ensures e < |w.enumerators| ==> r.enumerators[e].promise == w.enumerators[e].promise
    decreases |steps|
  {
    if steps == [] then w
    else
      var w1 := SettledAt(w, e, steps[0].state, steps[0].index, steps[0].value);
      var r := SettleAll(w1, e, steps[1..]);
      ExtendsTransitive(w, w1, r);
      r
  }

  /**
   * Results land in input order whatever the settlement order: if the remaining entries
   * all fulfill, each reporting its own index once, in any order, the aggregate is
   * fulfilled with `vals`, each value at its entry's index, by the last of them.
   */
  lemma {:induction false} AnyOrderFulfillsInInputOrder(w: World, e: nat, steps: seq<Settlement>, vals: seq<Value>)
    requires e < |w.enumerators| && steps != []
    requires w.enumerators[e].promise < |w.promises| && Rec(w, w.enumerators[e].promise).state == Pending
    requires w.enumerators[e].remaining == |steps| && |w.enumerators[e].result| == |vals|
    requires forall k :: 0 <= k < |steps| ==>
      steps[k].state == Fulfilled && steps[k].index < |vals| && steps[k].value == vals[steps[k].index]
    requires forall k, l :: 0 <= k < l < |steps| ==> steps[k].index != steps[l].index
    requires forall j :: 0 <= j < |vals| ==> j in Indices(steps) || w.enumerators[e].result[j] == vals[j]
    ensures var r := SettleAll(w, e, steps);
      var agg := w.enumerators[e].promise;
      && r.enumerators[e].remaining == 0
      && r.enumerators[e].result == vals
      && Rec(r, agg) == Rec(w, agg).(state := Fulfilled, result := List(vals))
    decreases |steps|
  {
    var en := w.enumerators[e];
    var s := steps[0];
    var w1 := SettledAt(w, e, s.state, s.index, s.value);
    var result1 := en.result[s.index := s.value];
    assert w1.enumerators[e].result == result1;
    assert Indices(steps) == [s.index] + Indices(steps[1..]);
    if |steps| == 1 {
      assert result1 == vals;
      assert SettleAll(w, e, steps) == w1;
    } else {
      forall j | 0 <= j < |vals|
        ensures j in Indices(steps[1..]) || result1[j] == vals[j]
      {
      }
      forall k, l | 0 <= k < l < |steps[1..]|
        ensures steps[1..][k].index != steps[1..][l].index
      {
        assert steps[1..][k] == steps[k + 1] && steps[1..][l] == steps[l + 1];
      }
      AnyOrderFulfillsInInputOrder(w1, e, steps[1..], vals);
    }
  }

  /**
   * First rejection wins: while fewer entries than remain have fulfilled, the first
   * rejection rejects the aggregate with its reason, and no later settlement changes that.
   */
  lemma {:induction false} FirstRejectionDecides(w: World, e: nat, steps: seq<Settlement>, k: nat)
    requires e < |w.enumerators| && k < |steps| && k < w.enumerators[e].remaining
    requires w.enumerators[e].promise < |w.promises| && Rec(w, w.enumerators[e].promise).state == Pending
    requires steps[k].state == Rejected && forall j :: 0 <= j < k ==> steps[j].state != Rejected
    ensures var r := SettleAll(w, e, steps);
      var agg := w.enumerators[e].promise;
      Rec(r, agg).state == Rejected && Rec(r, agg).result == steps[k].value
    decreases k
  {
    var s := steps[0];
    var w1 := SettledAt(w, e, s.state, s.index, s.value);
    var agg := w.enumerators[e].promise;
    if k == 0 {
      assert SettledKept(w1, SettleAll(w1, e, steps[1..]));
    } else {
      assert Rec(w1, agg) == Rec(w, agg);
      FirstRejectionDecides(w1, e, steps[1..], k - 1);
    }
  }
}
