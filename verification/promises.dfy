/**
 `Promise.all` over promises that settle in some order, and
 `Object.fromEntries` over index keys.

 The concurrency is a fold over the settlements in the order they arrive.
 The first rejection to arrive rejects the whole, and nothing that arrives
 later changes that. If no promise rejects, the values are collected in
 input order, whatever the arrival order.
 */
module Promises {

  datatype Settled<+T, +E> = Fulfilled(value: T) | Rejected(reason: E)

  /** `arrival` lists the input positions `0 .. n-1` in the order their
      promises settle. */
  predicate IsArrivalOrder(arrival: seq<nat>, n: nat) {
    && |arrival| == n
    && (forall k :: 0 <= k < n ==> arrival[k] < n)
    && (forall p :: 0 <= p < n ==> p in arrival)
  }

  /** The state of the combined promise while settlements arrive. */
  datatype Progress<T, E> = Waiting(done: map<nat, T>) | Failed(reason: E)

  function Deliver<T, E>(p: Progress<T, E>, pos: nat, o: Settled<T, E>): Progress<T, E> {
    match p
    case Failed(_) => p
    case Waiting(done) =>
      match o
      case Fulfilled(v) => Waiting(done[pos := v])
      case Rejected(e) => Failed(e)
  }

  /** The settlements of `outcomes` delivered in the order `arrival` gives.
      The result is still waiting exactly when every arrival so far was a
      fulfilment, and then it holds the value of every position that has
      arrived. Otherwise it holds the reason of the first rejection to
      arrive. */
  function Fold<T, E>(outcomes: seq<Settled<T, E>>, arrival: seq<nat>): (p: Progress<T, E>)
    requires forall k :: 0 <= k < |arrival| ==> arrival[k] < |outcomes|
    ensures p.Waiting? <==> forall k :: 0 <= k < |arrival| ==> outcomes[arrival[k]].Fulfilled?
    ensures p.Waiting? ==> p.done.Keys == set k | 0 <= k < |arrival| :: arrival[k]
    ensures p.Waiting? ==> forall pos :: pos in p.done ==> pos < |outcomes| && p.done[pos] == outcomes[pos].value
    ensures p.Failed? ==>
              exists k :: && 0 <= k < |arrival|
                          && outcomes[arrival[k]] == Rejected(p.reason)
                          && forall l :: 0 <= l < k ==> outcomes[arrival[l]].Fulfilled?
    decreases |arrival|
  {
    if arrival == [] then Waiting(map[])
    else
      var front := arrival[..|arrival| - 1];
      var last := arrival[|arrival| - 1];
      assert forall k :: 0 <= k < |front| ==> front[k] == arrival[k];
      var p := Fold(outcomes, front);
      var q := Deliver(p, last, outcomes[last]);
      assert (set k | 0 <= k < |arrival| :: arrival[k]) == (set k | 0 <= k < |front| :: front[k]) + {last};
      q
  }

  /** `Promise.all`: fulfilled exactly when every promise is, with the values
      in input order; otherwise rejected with the reason of the first
      rejection to arrive. */
  function All<T, E>(outcomes: seq<Settled<T, E>>, arrival: seq<nat>): (r: Settled<seq<T>, E>)
    requires IsArrivalOrder(arrival, |outcomes|)
    ensures r.Fulfilled? <==> forall i :: 0 <= i < |outcomes| ==> outcomes[i].Fulfilled?
    ensures r.Fulfilled? ==> |r.value| == |outcomes| && forall i :: 0 <= i < |outcomes| ==> r.value[i] == outcomes[i].value
    ensures r.Rejected? ==>
              exists k :: && 0 <= k < |arrival|
                          && outcomes[arrival[k]] == Rejected(r.reason)
                          && forall l :: 0 <= l < k ==> outcomes[arrival[l]].Fulfilled?
  {
    match Fold(outcomes, arrival)
    case Failed(e) =>
      Rejected(e)
    case Waiting(done) =>
      assert forall i :: 0 <= i < |outcomes| ==> i in done by {
        forall i | 0 <= i < |outcomes| ensures i in done {
          assert i in arrival;
          var k :| 0 <= k < |arrival| && arrival[k] == i;
        }
      }
      Fulfilled(seq(|outcomes|, i requires 0 <= i < |outcomes| => done[i]))
  }

  /** The arrival order cannot be observed when every promise fulfils, and it
      cannot turn a rejection into a fulfilment or back. */
  lemma AllIgnoresArrivalOrder<T, E>(outcomes: seq<Settled<T, E>>, a1: seq<nat>, a2: seq<nat>)
    requires IsArrivalOrder(a1, |outcomes|) && IsArrivalOrder(a2, |outcomes|)
    ensures All(outcomes, a1).Fulfilled? == All(outcomes, a2).Fulfilled?
    ensures All(outcomes, a1).Fulfilled? ==> All(outcomes, a1) == All(outcomes, a2)
  {
    if All(outcomes, a1).Fulfilled? {
      assert All(outcomes, a1).value == All(outcomes, a2).value;
    }
  }

  /** `Object.fromEntries` with index keys: one key per entry, and a later
      entry with the same key overrides an earlier one. */
  function FromEntries<V>(entries: seq<(nat, V)>): (m: map<nat, V>)
    ensures m.Keys == set k | 0 <= k < |entries| :: entries[k].0
    ensures forall k :: 0 <= k < |entries| && (forall l :: k < l < |entries| ==> entries[l].0 != entries[k].0) ==>
              m[entries[k].0] == entries[k].1
    decreases |entries|
  {
    if entries == [] then map[]
    else
      var front := entries[..|entries| - 1];
      var last := entries[|entries| - 1];
      assert forall k :: 0 <= k < |front| ==> front[k] == entries[k];
      var m := FromEntries(front);
      assert (set k | 0 <= k < |entries| :: entries[k].0) == (set k | 0 <= k < |front| :: front[k].0) + {last.0};
      m[last.0 := last.1]
  }

  /** Entries whose keys are the distinct positions of `order`, in order,
      build a map with exactly those keys, each holding its own entry. */
  lemma FromEntriesOfDistinctKeys<V>(order: seq<nat>, entries: seq<(nat, V)>)
    requires |entries| == |order|
    requires forall k :: 0 <= k < |order| ==> entries[k].0 == order[k]
    requires forall k, l :: 0 <= k < l < |order| ==> order[k] != order[l]
    ensures forall i :: i in FromEntries(entries) <==> i in order
    ensures forall k :: 0 <= k < |order| ==> FromEntries(entries)[order[k]] == entries[k].1
  {
    var m := FromEntries(entries);
    forall i ensures i in m <==> i in order {
      if i in order {
        var k :| 0 <= k < |order| && order[k] == i;
        assert entries[k].0 == i;
      }
    }
    forall k | 0 <= k < |order| ensures m[order[k]] == entries[k].1 {
      assert forall l :: k < l < |entries| ==> entries[l].0 != entries[k].0;
    }
  }
}
