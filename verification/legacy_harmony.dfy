/**
  The older orchestrator (the JavaScript class `CodeHarmony`): every
  registration starts its phase at once, chained on the context promise as it
  stands at that moment, and overwrites that phase's promise; `finish` only
  reports `[parallel, series]`.
 */
module LegacyHarmony {
  import opened Js
  import opened Phases

  class CodeHarmony {
    const ingressData: Value
    /** `null` until a context phase fulfils, then the merged context object. */
    var contextData: Value
    /** Starts out already resolved; each `context` call replaces it. */
    var contextPromise: Settled<()>
    /** Unset (`undefined`) until `serially` is first called. */
    var seriesPromise: Option<Settled<seq<Value>>>
    /** Unset (`undefined`) until `parallelly` is first called. */
    var parallelPromise: Option<Settled<seq<Value>>>

    /** Every invocation of a caller's task, in the order the model performs them. */
    ghost var log: seq<Call>

    /** The context handed to serial and parallel tasks is null or an object. */
    ghost predicate Valid()
      reads this
    {
      contextData == Null || contextData.Obj?
    }

    constructor (data: Value)
      ensures Valid()
      ensures ingressData == data && contextData == Null
      ensures contextPromise == Fulfilled(())
      ensures seriesPromise == None && parallelPromise == None
      ensures log == []
    {
      ingressData := data;
      contextData := Null;
      contextPromise := Fulfilled(());
      seriesPromise, parallelPromise := None, None;
      log := [];
    }

    /**
      Invokes every context task at once and replaces the context promise
      with the merge of their results; the context keeps its old value if
      any of them rejects.
     */
    method Context(fs: seq<ContextTask>) returns (self: CodeHarmony)
      requires Valid()
      modifies this`contextPromise, this`contextData, this`log
      ensures self == this && Valid()
      ensures log == old(log) + ContextCalls(fs, ingressData)
      ensures ContextSettled(ContextOutcomes(fs, ingressData), contextPromise, contextData, old(contextData))
    {
      var outs := ContextOutcomes(fs, ingressData);
      log := log + ContextCalls(fs, ingressData);
      var settled := SettleContext(outs, contextData);
      contextPromise, contextData := settled.0, settled.1;
      self := this;
    }

    /**
      Replaces the series promise by a new serial run of `fs`, started once
      the current context promise settles: a rejected context rejects the
      series with the same reason and invokes none of `fs`. The log records
      the calls here, at registration; the tasks themselves are invoked in a
      later `then` callback.
     */
    method Serially(fs: seq<PhaseTask>) returns (self: CodeHarmony)
      modifies this`seriesPromise, this`log
      ensures self == this
      ensures contextPromise.Rejected? ==>
        seriesPromise == Some(Rejected(contextPromise.reason)) && log == old(log)
      ensures var outs := PhaseOutcomes(fs, ingressData, contextData);
        contextPromise.Fulfilled? ==>
          && seriesPromise == Some(Collect(outs))
          && log == old(log) + SerialCalls(fs, ingressData, contextData, SerialInvoked(outs))
    {
      match contextPromise {
        case Rejected(e) =>
          seriesPromise := Some(Rejected(e));
        case Fulfilled(_) =>
          var r, calls := RunSerially(fs, ingressData, contextData);
          seriesPromise := Some(r);
          log := log + calls;
      }
      self := this;
    }

    /**
      Replaces the parallel promise by a new run of every task of `fs`,
      started once the current context promise settles: a rejected context
      rejects the phase with the same reason and invokes none of `fs`.
     */
    method Parallelly(fs: seq<PhaseTask>) returns (self: CodeHarmony)
      modifies this`parallelPromise, this`log
      ensures self == this && parallelPromise.Some?
      ensures contextPromise.Rejected? ==>
        parallelPromise.value == Rejected(contextPromise.reason) && log == old(log)
      ensures contextPromise.Fulfilled? ==>
        && AllSettle(PhaseOutcomes(fs, ingressData, contextData), parallelPromise.value)
        && log == old(log) + ParallelCalls(fs, ingressData, contextData)
    {
      match contextPromise {
        case Rejected(e) =>
          parallelPromise := Some(Rejected(e));
        case Fulfilled(_) =>
          log := log + ParallelCalls(fs, ingressData, contextData);
          parallelPromise := Some(Collect(PhaseOutcomes(fs, ingressData, contextData)));
      }
      self := this;
    }

    /**
      Reports `[parallel, series]` from the two phase promises as they stand,
      `undefined` in the slot of a phase never registered, to the promise or
      to the callback. It starts nothing and changes nothing. `joined` is the
      outcome of `Promise.all([parallelPromise, seriesPromise])`.
     */
    method Finish(callback: Option<Callback>)
      returns (r: Settled<Value>, ghost joined: Settled<seq<Value>>, ghost callbackArgs: seq<seq<Value>>)
      ensures AllSettle([Slot(parallelPromise), Slot(seriesPromise)], joined)
      ensures Delivery(r, callbackArgs) == Deliver(AsArray(joined), callback)
      ensures callback.None? ==>
        && (r.Fulfilled? <==> Slot(parallelPromise).Fulfilled? && Slot(seriesPromise).Fulfilled?)
        && (r.Fulfilled? ==> r.value == Arr([Slot(parallelPromise).value, Slot(seriesPromise).value]))
        && (r.Rejected? ==> parallelPromise == Some(Rejected(r.reason)) || seriesPromise == Some(Rejected(r.reason)))
    {
      var dependencies := Collect([Slot(parallelPromise), Slot(seriesPromise)]);
      var d := Deliver(AsArray(dependencies), callback);
      r, joined, callbackArgs := d.result, dependencies, d.callbackArgs;
      JoinedPair(parallelPromise, seriesPromise, joined);
    }
  }

  // ---------------------------------------------------------------------------
  // Scenarios: what a caller of the class can conclude from its contracts
  // ---------------------------------------------------------------------------

  /**
    A context phase that rejects while no serial or parallel work is
    registered goes unreported: `finish` fulfils with `[undefined, undefined]`.
   */
  method ScenarioUnreportedContextFailure() returns (r: Settled<Value>)
    ensures r == Fulfilled(Arr([Undefined, Undefined]))
  {
    var h := new CodeHarmony(Null);
    h := h.Context([ContextTask(0, _ => Rejected(Str("Err1")))]);
    ghost var joined, args;
    r, joined, args := h.Finish(None);
    JoinedPair(h.parallelPromise, h.seriesPromise, joined);
  }

  /**
    Serial work registered after a rejected context phase: none of its tasks
    runs and `finish` rejects with the context's reason.
   */
  method ScenarioContextRejects() returns (r: Settled<Value>, ghost log: seq<Call>)
    ensures r == Rejected(Str("Err1"))
    ensures log == [ContextCall(0, Null)]
  {
    var h := new CodeHarmony(Null);
    h := h.Context([ContextTask(0, _ => Rejected(Str("Err1")))]);
    h := h.Serially([PhaseTask(1, (_, _) => Fulfilled(Num(1)))]);
    ghost var joined, args;
    r, joined, args := h.Finish(None);
    JoinedPair(h.parallelPromise, h.seriesPromise, joined);
    log := h.log;
  }

  /**
    A `serially` call made before `context` is handed the context as it
    stood when it was registered, null; a later `serially` call is handed
    the merged context and replaces the series, so `finish` reports only
    the later call's results. The log is compared as a multiset: the order
    in which these tasks are invoked across calls depends on scheduling.
   */
  method ScenarioLatestSeriesWins() returns (r: Settled<Value>, ghost log: seq<Call>)
    ensures r == Fulfilled(Arr([Undefined, Arr([Num(2)])]))
    ensures multiset(log) == multiset{ContextCall(0, Null), SerialCall(1, Null, Null),
                                      SerialCall(2, Null, Obj(map["k" := Num(0)]))}
  {
    var h := new CodeHarmony(Null);
    h := h.Serially([PhaseTask(1, (_, _) => Fulfilled(Num(1)))]);
    h := h.Context([ContextTask(0, _ => Fulfilled(map["k" := Num(0)]))]);
    assert h.contextData == Obj(map["k" := Num(0)]) by {
      assert Merge([map["k" := Num(0)]]) == map["k" := Num(0)] + map[];
    }
    var two := PhaseTask(2, (_, _) => Fulfilled(Num(2)));
    h := h.Serially([two]);
    ghost var joined, args;
    r, joined, args := h.Finish(None);
    AllFulfilledSettle(PhaseOutcomes([two], Null, h.contextData), [Num(2)], h.seriesPromise.value);
    JoinedPair(h.parallelPromise, h.seriesPromise, joined);
    log := h.log;
    assert log == [SerialCall(1, Null, Null), ContextCall(0, Null), SerialCall(2, Null, Obj(map["k" := Num(0)]))];
  }
}
