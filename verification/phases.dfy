/**
  The pieces of the orchestrator that both versions of the class share: the
  fold that merges context objects, what `Promise.all` settles to, the serial
  loop that stops at the first rejection, and the routing of the final outcome
  to a promise or a Node-style callback.
 */
module Phases {
  import opened Js

  // ---------------------------------------------------------------------------
  // Settled outcomes of a group of promises
  // ---------------------------------------------------------------------------

  predicate AllFulfilled<T>(outs: seq<Settled<T>>) {
    forall i :: 0 <= i < |outs| ==> outs[i].Fulfilled?
  }

  /** Some promise of the group rejected with `reason`. */
  predicate RejectsWith<T>(outs: seq<Settled<T>>, reason: Value) {
    exists i :: 0 <= i < |outs| && outs[i] == Rejected(reason)
  }

  /** The fulfilment values of a group in which every promise fulfilled, in order. */
  function Values<T>(outs: seq<Settled<T>>): (vs: seq<T>)
    requires AllFulfilled(outs)
    ensures |vs| == |outs|
    ensures forall i :: 0 <= i < |outs| ==> outs[i] == Fulfilled(vs[i])
  {
    seq(|outs|, i requires 0 <= i < |outs| => outs[i].value)
  }

  /**
    `p` settles as a promise chained on `Promise.all(outs)` does: it fulfils
    exactly when every member fulfils, and otherwise rejects with the reason
    of some member that rejected (which one depends on timing).
   */
  ghost predicate SettlesLike<T, U>(outs: seq<Settled<T>>, p: Settled<U>) {
    && (p.Fulfilled? <==> AllFulfilled(outs))
    && (p.Rejected? ==> RejectsWith(outs, p.reason))
  }

  /** `r` is an outcome `Promise.all(outs)` can settle to: the values in input order, or some rejection. */
  ghost predicate AllSettle<T>(outs: seq<Settled<T>>, r: Settled<seq<T>>) {
    && SettlesLike(outs, r)
    && (r.Fulfilled? ==> r.value == Values(outs))
  }

  /** When every promise of a group fulfils, the group fulfils with exactly their values, in order. */
  lemma AllFulfilledSettle<T>(outs: seq<Settled<T>>, vs: seq<T>, r: Settled<seq<T>>)
    requires |outs| == |vs| && forall i :: 0 <= i < |vs| ==> outs[i] == Fulfilled(vs[i])
    requires AllSettle(outs, r)
    ensures r == Fulfilled(vs)
  {
    assert AllFulfilled(outs);
    assert Values(outs) == vs;
  }

  /** The position of the first rejected promise of a group, or the group's length if none rejected. */
  function FirstRejection<T>(outs: seq<Settled<T>>): (k: nat)
    ensures k <= |outs|
    ensures forall i :: 0 <= i < k ==> outs[i].Fulfilled?
    ensures k < |outs| ==> outs[k].Rejected?
  {
    if outs == [] || outs[0].Rejected? then 0 else 1 + FirstRejection(outs[1..])
  }

  /**
    Collects a group of outcomes in order, stopping at the first rejection.
    This is exactly the outcome of the serial phase, and one of the outcomes
    `Promise.all` may settle to.
   */
  function Collect<T>(outs: seq<Settled<T>>): (r: Settled<seq<T>>)
    ensures AllSettle(outs, r)
    ensures r.Rejected? ==> outs[FirstRejection(outs)] == Rejected(r.reason)
  {
    var k := FirstRejection(outs);
    if k == |outs| then Fulfilled(Values(outs)) else Rejected(outs[k].reason)
  }

  /** The number of serial tasks invoked: up to and including the first one that rejects. */
  function SerialInvoked<T>(outs: seq<Settled<T>>): nat {
    var k := FirstRejection(outs);
    if k < |outs| then k + 1 else k
  }

  // ---------------------------------------------------------------------------
  // Invoking the caller's tasks
  // ---------------------------------------------------------------------------

  /** What each context task settles to when invoked with the ingress value. */
  function ContextOutcomes(tasks: seq<ContextTask>, ingress: Value): (outs: seq<Settled<Object>>)
    ensures |outs| == |tasks|
    ensures forall i :: 0 <= i < |tasks| ==> outs[i] == tasks[i].run(ingress)
  {
    seq(|tasks|, i requires 0 <= i < |tasks| => tasks[i].run(ingress))
  }

  /** What each serial or parallel task settles to when invoked with the ingress and context values. */
  function PhaseOutcomes(tasks: seq<PhaseTask>, ingress: Value, context: Value): (outs: seq<Settled<Value>>)
    ensures |outs| == |tasks|
    ensures forall i :: 0 <= i < |tasks| ==> outs[i] == tasks[i].run(ingress, context)
  {
    seq(|tasks|, i requires 0 <= i < |tasks| => tasks[i].run(ingress, context))
  }

  function ContextCalls(tasks: seq<ContextTask>, ingress: Value): seq<Call> {
    seq(|tasks|, i requires 0 <= i < |tasks| => ContextCall(tasks[i].id, ingress))
  }

  /** The calls of the first `n` serial tasks, in registration order. */
  function SerialCalls(tasks: seq<PhaseTask>, ingress: Value, context: Value, n: nat): seq<Call>
    requires n <= |tasks|
  {
    seq(n, i requires 0 <= i < n => SerialCall(tasks[i].id, ingress, context))
  }

  function ParallelCalls(tasks: seq<PhaseTask>, ingress: Value, context: Value): seq<Call> {
    seq(|tasks|, i requires 0 <= i < |tasks| => ParallelCall(tasks[i].id, ingress, context))
  }

  /**
    When every task of a phase fulfils, the phase invokes all of them and
    settles, serially or through `Promise.all`, to exactly their values.
   */
  lemma PhaseFulfils(tasks: seq<PhaseTask>, ingress: Value, context: Value, vs: seq<Value>, r: Settled<seq<Value>>)
    requires |vs| == |tasks| && forall i :: 0 <= i < |tasks| ==> tasks[i].run(ingress, context) == Fulfilled(vs[i])
    requires AllSettle(PhaseOutcomes(tasks, ingress, context), r)
    ensures r == Fulfilled(vs)
    ensures SerialInvoked(PhaseOutcomes(tasks, ingress, context)) == |tasks|
  {
    var outs := PhaseOutcomes(tasks, ingress, context);
    AllFulfilledSettle(outs, vs, r);
  }

  /**
    The serial loop: each task is invoked with the ingress and context values
    and awaited before the next one starts; its value is pushed onto the
    result, and the first rejection ends the loop and rejects the phase.
   */
  method RunSerially(tasks: seq<PhaseTask>, ingress: Value, context: Value)
    returns (r: Settled<seq<Value>>, ghost calls: seq<Call>)
    ensures r == Collect(PhaseOutcomes(tasks, ingress, context))
    ensures r.Fulfilled? ==>
      && |r.value| == |tasks|
      && forall i :: 0 <= i < |tasks| ==> tasks[i].run(ingress, context) == Fulfilled(r.value[i])
    ensures r.Rejected? ==>
      && 0 < |calls| <= |tasks|
      && tasks[|calls| - 1].run(ingress, context) == Rejected(r.reason)
      && forall i :: 0 <= i < |calls| - 1 ==> tasks[i].run(ingress, context).Fulfilled?
    ensures calls == SerialCalls(tasks, ingress, context, SerialInvoked(PhaseOutcomes(tasks, ingress, context)))
  {
    ghost var outs := PhaseOutcomes(tasks, ingress, context);
    var toReturn: seq<Value> := [];
    calls := [];
    var i := 0;
    while i < |tasks|
      invariant 0 <= i <= |tasks|
      invariant |toReturn| == i
      invariant forall j :: 0 <= j < i ==> outs[j] == Fulfilled(toReturn[j])
      invariant calls == SerialCalls(tasks, ingress, context, i)
    {
      calls := calls + [SerialCall(tasks[i].id, ingress, context)];
      var out := tasks[i].run(ingress, context);
      if out.Rejected? {
        assert FirstRejection(outs) == i;
        return Rejected(out.reason), calls;
      }
      toReturn := toReturn + [out.value];
      i := i + 1;
    }
    assert FirstRejection(outs) == |tasks|;
    assert toReturn == Values(outs);
    r := Fulfilled(toReturn);
  }

  // ---------------------------------------------------------------------------
  // Merging the context objects
  // ---------------------------------------------------------------------------

  /**
    The context fold `reduce((data, iter) => Object.assign(iter, data), {})`:
    each step copies the accumulator ONTO the newer result, so the
    accumulator's properties win. The merged object holds every property of
    every result, and with no results it is the empty object.
   */
  function Merge(results: seq<Object>): (merged: Object)
    ensures forall key :: key in merged <==> exists i :: 0 <= i < |results| && key in results[i]
  {
    if results == [] then map[]
    else
      var last := |results| - 1;
      assert forall i :: 0 <= i < last ==> results[..last][i] == results[i];
      results[last] + Merge(results[..last])
  }

  /** On a property several results share, the merged context keeps the value of the earliest one. */
  lemma {:induction false} MergeEarliestWins(results: seq<Object>, i: nat, key: string)
    requires i < |results| && key in results[i]
    requires forall j :: 0 <= j < i ==> key !in results[j]
    ensures key in Merge(results) && Merge(results)[key] == results[i][key]
  {
    var last := |results| - 1;
    var prefix := results[..last];
    assert forall j :: 0 <= j < last ==> prefix[j] == results[j];
    if i < last {
      MergeEarliestWins(prefix, i, key);
    } else {
      assert key !in Merge(prefix);
    }
  }

  /** Two context results that both set `key`: the first registered one's value is kept. */
  lemma MergeKeepsFirstOnCollision(first: Object, second: Object, key: string)
    requires key in first && key in second
    ensures Merge([first, second])[key] == first[key]
  {
    MergeEarliestWins([first, second], 0, key);
  }

  /** A single context result becomes the context as it is. */
  lemma MergeOne(result: Object)
    ensures Merge([result]) == result
  {
    assert Merge([result]) == result + map[];
  }

  /**
    `p` and `data` are what the context phase leaves behind once its promise
    has settled: the phase fulfils exactly when every context task fulfils,
    and then the context is the merge of their results in registration order;
    otherwise it rejects with some context task's reason and the context
    keeps its earlier value `before`.
   */
  ghost predicate ContextSettled(outs: seq<Settled<Object>>, p: Settled<()>, data: Value, before: Value) {
    && SettlesLike(outs, p)
    && (p.Fulfilled? ==> data == Obj(Merge(Values(outs))))
    && (p.Rejected? ==> data == before)
  }

  /**
    `Promise.all(contextTasks.map(...)).then(resp => contextData = merge(resp))`:
    the outcome of the context phase and the context value it produces.
   */
  function SettleContext(outs: seq<Settled<Object>>, before: Value): (s: (Settled<()>, Value))
    ensures ContextSettled(outs, s.0, s.1, before)
  {
    match Collect(outs)
    case Fulfilled(resp) => (Fulfilled(()), Obj(Merge(resp)))
    case Rejected(e) => (Rejected(e), before)
  }

  /**
    When every context task fulfils, the context phase fulfils and the
    context becomes the merge of their results, in registration order.
   */
  lemma ContextFulfils(tasks: seq<ContextTask>, ingress: Value, results: seq<Object>,
                       p: Settled<()>, data: Value, before: Value)
    requires |results| == |tasks| && forall i :: 0 <= i < |tasks| ==> tasks[i].run(ingress) == Fulfilled(results[i])
    requires ContextSettled(ContextOutcomes(tasks, ingress), p, data, before)
    ensures p.Fulfilled? && data == Obj(Merge(results))
  {
    var outs := ContextOutcomes(tasks, ingress);
    assert AllFulfilled(outs);
    assert Values(outs) == results;
  }

  /** With no context task the context phase fulfils, and the context is the empty object, not null. */
  lemma NoContextTasksGiveEmptyObject(ingress: Value, p: Settled<()>, data: Value, before: Value)
    requires ContextSettled(ContextOutcomes([], ingress), p, data, before)
    ensures p.Fulfilled? && data == Obj(map[])
  {
  }

  // ---------------------------------------------------------------------------
  // The result pair and its delivery
  // ---------------------------------------------------------------------------

  /**
    What a phase promise contributes to `Promise.all([parallel, serial])`:
    its result array, its rejection, or `undefined` for a promise field that
    was never set.
   */
  function Slot(p: Option<Settled<seq<Value>>>): Settled<Value> {
    match p
    case None => Fulfilled(Undefined)
    case Some(Fulfilled(vs)) => Fulfilled(Arr(vs))
    case Some(Rejected(e)) => Rejected(e)
  }

  /** A settled array of values, seen as one JavaScript array. */
  function AsArray(joined: Settled<seq<Value>>): Settled<Value> {
    match joined
    case Fulfilled(vs) => Fulfilled(Arr(vs))
    case Rejected(e) => Rejected(e)
  }

  /**
    The pair `[parallel, serial]` fulfils exactly when neither phase rejected,
    with the two slots in that order; otherwise it rejects with the reason of
    a phase that rejected.
   */
  lemma JoinedPair(parallel: Option<Settled<seq<Value>>>, serial: Option<Settled<seq<Value>>>, joined: Settled<seq<Value>>)
    requires AllSettle([Slot(parallel), Slot(serial)], joined)
    ensures joined.Fulfilled? <==> Slot(parallel).Fulfilled? && Slot(serial).Fulfilled?
    ensures joined.Fulfilled? ==>
      AsArray(joined) == Fulfilled(Arr([Slot(parallel).value, Slot(serial).value]))
    ensures joined.Rejected? ==>
      parallel == Some(Rejected(joined.reason)) || serial == Some(Rejected(joined.reason))
  {
    var slots := [Slot(parallel), Slot(serial)];
    if joined.Fulfilled? {
      assert slots[0].Fulfilled? && slots[1].Fulfilled?;
      assert joined.value == [slots[0].value, slots[1].value];
    } else {
      var i :| 0 <= i < 2 && slots[i] == Rejected(joined.reason);
    }
  }

  /** How `finish` settled, and the argument lists its callback was invoked with, in order. */
  datatype Delivery = Delivery(result: Settled<Value>, callbackArgs: seq<seq<Value>>)

  /**
    Routes the outcome of the run to the caller: the outcome itself without
    a callback; with one, `callback(error)` on failure and `callback(null,
    data)` on success, followed by `callback(thrown)` if that call throws.
   */
  function Deliver(outcome: Settled<Value>, callback: Option<Callback>): Delivery {
    match callback
    case None => Delivery(outcome, [])
    case Some(cb) =>
      match outcome
      case Rejected(e) => Delivery(cb([e]), [[e]])
      case Fulfilled(data) =>
        match cb([Null, data])
        case Fulfilled(v) => Delivery(Fulfilled(v), [[Null, data]])
        case Rejected(thrown) => Delivery(cb([thrown]), [[Null, data], [thrown]])
  }

  /**
    Without a callback the outcome is returned as it is. With one, a failure
    calls `callback(error)` once with no second argument, and a success
    calls `callback(null, data)`; if that call throws, the catch path calls
    the callback a second time with what it threw. `finish` settles as the
    last callback invocation did.
   */
  lemma DeliverRoutes(outcome: Settled<Value>, callback: Option<Callback>)
    ensures var d := Deliver(outcome, callback);
      && (callback.None? ==> d.result == outcome && d.callbackArgs == [])
      && (callback.Some? ==>
            && 1 <= |d.callbackArgs| <= 2
            && d.result == callback.value(d.callbackArgs[|d.callbackArgs| - 1]))
      && (callback.Some? && outcome.Rejected? ==> d.callbackArgs == [[outcome.reason]])
      && (callback.Some? && outcome.Fulfilled? ==>
            var first := callback.value([Null, outcome.value]);
            && d.callbackArgs[0] == [Null, outcome.value]
            && (|d.callbackArgs| == 2 <==> first.Rejected?)
            && (first.Rejected? ==> d.callbackArgs[1] == [first.reason]))
  {
  }

  /** A success callback that throws is invoked twice: once with the result, then with what it threw. */
  lemma CallbackFiresTwiceWhenItThrows(data: Value, callback: Callback)
    requires callback([Null, data]).Rejected?
    ensures Deliver(Fulfilled(data), Some(callback)).callbackArgs
            == [[Null, data], [callback([Null, data]).reason]]
  {
  }
}
