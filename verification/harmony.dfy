/**
  The current orchestrator (the TypeScript class `CodeHarmony`): tasks are
  collected into three lists, and `finish` runs the context phase once, then
  the serial and the parallel phase, and reports `[parallel, serial]`.
 */
module Harmony {
  import opened Js
  import opened Phases

  class CodeHarmony {
    /** `null` until the context phase fulfils, then the merged context object. */
    var contextData: Value
    const ingressData: Value

    /** `null` until `finish` first starts the context phase; afterwards its settled outcome. */
    var contextPromise: Option<Settled<()>>
    var parallelPromise: Option<Settled<seq<Value>>>
    var serialPromise: Option<Settled<seq<Value>>>

    var contextTasks: seq<ContextTask>
    var serialTasks: seq<PhaseTask>
    var parallelTasks: seq<PhaseTask>

    /** Every invocation of a caller's task, in the order the model performs them. */
    ghost var log: seq<Call>

    /**
      Before the context phase has started nothing has been invoked and the
      context is null; once it has fulfilled, the context is an object.
     */
    ghost predicate Valid()
      reads this
    {
      && (contextPromise.None? ==> contextData == Null && log == [])
      && (contextPromise.Some? && contextPromise.value.Fulfilled? ==> contextData.Obj?)
    }

    constructor (data: Value)
      ensures Valid()
      ensures ingressData == data && contextData == Null
      ensures contextPromise == None && parallelPromise == None && serialPromise == None
      ensures contextTasks == [] && serialTasks == [] && parallelTasks == []
      ensures log == []
    {
      contextData := Null;
      ingressData := data;
      contextPromise, parallelPromise, serialPromise := None, None, None;
      contextTasks, serialTasks, parallelTasks := [], [], [];
      log := [];
    }

    method RegisterSerialFunctions(fs: seq<PhaseTask>)
      modifies this`serialTasks
      ensures serialTasks == old(serialTasks) + fs
    {
      serialTasks := serialTasks + fs;
    }

    method RegisterParallelFunctions(fs: seq<PhaseTask>)
      modifies this`parallelTasks
      ensures parallelTasks == old(parallelTasks) + fs
    {
      parallelTasks := parallelTasks + fs;
    }

    method RegisterContextFunctions(fs: seq<ContextTask>)
      modifies this`contextTasks
      ensures contextTasks == old(contextTasks) + fs
    {
      contextTasks := contextTasks + fs;
    }

    /** Invokes every context task now and settles the context phase. */
    method RunContextFunctions()
      modifies this`contextPromise, this`contextData, this`log
      ensures Valid() && contextPromise.Some?
      ensures log == old(log) + ContextCalls(contextTasks, ingressData)
      ensures ContextSettled(ContextOutcomes(contextTasks, ingressData), contextPromise.value, contextData, old(contextData))
    {
      var outs := ContextOutcomes(contextTasks, ingressData);
      log := log + ContextCalls(contextTasks, ingressData);
      var settled := SettleContext(outs, contextData);
      contextPromise, contextData := Some(settled.0), settled.1;
    }

    /** Runs the serial tasks in order with a fresh result array; the phase stops at the first rejection. */
    method RunSerialFunctions()
      modifies this`serialPromise, this`log
      ensures var outs := PhaseOutcomes(serialTasks, ingressData, contextData);
        && serialPromise == Some(Collect(outs))
        && log == old(log) + SerialCalls(serialTasks, ingressData, contextData, SerialInvoked(outs))
    {
      var r, calls := RunSerially(serialTasks, ingressData, contextData);
      serialPromise := Some(r);
      log := log + calls;
    }

    /** Invokes every parallel task; the results keep registration order. */
    method RunParallelFunctions()
      modifies this`parallelPromise, this`log
      ensures parallelPromise.Some?
      ensures AllSettle(PhaseOutcomes(parallelTasks, ingressData, contextData), parallelPromise.value)
      ensures log == old(log) + ParallelCalls(parallelTasks, ingressData, contextData)
    {
      var outs := PhaseOutcomes(parallelTasks, ingressData, contextData);
      log := log + ParallelCalls(parallelTasks, ingressData, contextData);
      parallelPromise := Some(Collect(outs));
    }

    /** Starts the context phase unless it has been started before; a started phase is reused as it is. */
    method ContextChecks()
      requires Valid()
      modifies this`contextPromise, this`contextData, this`log
      ensures Valid() && contextPromise.Some?
      ensures old(contextPromise).Some? ==> unchanged(this)
      ensures old(contextPromise).None? ==>
        && log == ContextCalls(contextTasks, ingressData)
        && ContextSettled(ContextOutcomes(contextTasks, ingressData), contextPromise.value, contextData, Null)
    {
      if contextPromise.None? {
        RunContextFunctions();
      }
    }

    method Context(fs: seq<ContextTask>) returns (self: CodeHarmony)
      modifies this`contextTasks
      ensures self == this
      ensures contextTasks == old(contextTasks) + fs
    {
      RegisterContextFunctions(fs);
      self := this;
    }

    method Serially(fs: seq<PhaseTask>) returns (self: CodeHarmony)
      modifies this`serialTasks
      ensures self == this
      ensures serialTasks == old(serialTasks) + fs
    {
      RegisterSerialFunctions(fs);
      self := this;
    }

    method Parallelly(fs: seq<PhaseTask>) returns (self: CodeHarmony)
      modifies this`parallelTasks
      ensures self == this
      ensures parallelTasks == old(parallelTasks) + fs
    {
      RegisterParallelFunctions(fs);
      self := this;
    }

    /**
      The state one run of the serial and parallel phases leaves behind, with
      `before` the log as it was when they started: a fresh serial result, a
      parallel outcome as `Promise.all` settles, the calls they made, and
      `joined` settled as `Promise.all([parallelPromise, serialPromise])`.
     */
    ghost predicate PhasesRan(before: seq<Call>, joined: Settled<seq<Value>>)
      reads this
    {
      var serialOuts := PhaseOutcomes(serialTasks, ingressData, contextData);
      && serialPromise == Some(Collect(serialOuts))
      && parallelPromise.Some?
      && AllSettle(PhaseOutcomes(parallelTasks, ingressData, contextData), parallelPromise.value)
      && log == before
                + SerialCalls(serialTasks, ingressData, contextData, SerialInvoked(serialOuts))
                + ParallelCalls(parallelTasks, ingressData, contextData)
      && AllSettle([Slot(parallelPromise), Slot(serialPromise)], joined)
    }

    /** Starts the serial phase, then the parallel phase, and joins them into the result pair. */
    method RunPhases() returns (tasks: Settled<seq<Value>>)
      modifies this`serialPromise, this`parallelPromise, this`log
      ensures PhasesRan(old(log), tasks)
    {
      RunSerialFunctions();
      RunParallelFunctions();
      tasks := Collect([Slot(parallelPromise), Slot(serialPromise)]);
    }

    /**
      What follows the settled context phase, with `before` the log as it was
      then: a rejected context phase is the outcome itself and starts
      nothing; a fulfilled one has left an object context and the serial and
      parallel phases run on it.
     */
    ghost predicate ChainRan(before: seq<Call>, serialBefore: Option<Settled<seq<Value>>>,
                             parallelBefore: Option<Settled<seq<Value>>>, joined: Settled<seq<Value>>)
      requires contextPromise.Some?
      reads this
    {
      if contextPromise.value.Rejected? then
        && serialPromise == serialBefore && parallelPromise == parallelBefore
        && log == before
        && joined == Rejected(contextPromise.value.reason)
      else
        contextData.Obj? && PhasesRan(before, joined)
    }

    /** Continues the chain once the context phase has settled. */
    method AfterContext() returns (tasks: Settled<seq<Value>>)
      requires Valid() && contextPromise.Some?
      modifies this`serialPromise, this`parallelPromise, this`log
      ensures Valid()
      ensures ChainRan(old(log), old(serialPromise), old(parallelPromise), tasks)
    {
      match contextPromise.value {
        case Rejected(e) =>
          tasks := Rejected(e);
        case Fulfilled(_) =>
          tasks := RunPhases();
      }
    }

    /**
      Runs the chain and reports its outcome. The context phase runs only on
      the first call; a failed context phase is reported without starting
      the other two. Otherwise the serial and parallel phases run again on
      every call, and the pair `[parallel, serial]` (or the failure of
      either) goes to the promise or to the callback. `joined` is the outcome
      of `Promise.all([parallelPromise, serialPromise])`.
     */
    method Finish(callback: Option<Callback>)
      returns (r: Settled<Value>, ghost joined: Settled<seq<Value>>, ghost callbackArgs: seq<seq<Value>>)
      requires Valid()
      modifies this`contextPromise, this`contextData, this`serialPromise, this`parallelPromise, this`log
      ensures Valid() && contextPromise.Some?
      ensures old(contextPromise).Some? ==> contextPromise == old(contextPromise) && contextData == old(contextData)
      ensures old(contextPromise).None? ==>
        ContextSettled(ContextOutcomes(contextTasks, ingressData), contextPromise.value, contextData, Null)
      ensures ChainRan(old(log) + if old(contextPromise).None? then ContextCalls(contextTasks, ingressData) else [],
                       old(serialPromise), old(parallelPromise), joined)
      ensures Delivery(r, callbackArgs) == Deliver(AsArray(joined), callback)
    {
      ContextChecks();
      assert log == old(log) + if old(contextPromise).None? then ContextCalls(contextTasks, ingressData) else [];
      var tasks := AfterContext();
      var d := Deliver(AsArray(tasks), callback);
      joined := tasks;
      r, callbackArgs := d.result, d.callbackArgs;
    }
  }

  // ---------------------------------------------------------------------------
  // Scenarios: what a caller of the class can conclude from its contracts
  // ---------------------------------------------------------------------------

  /**
    Ingress `{id: 7}`, one context task resolving `{owner: "a"}`, serial tasks
    resolving 1 and 2, one parallel task resolving 3: `finish` fulfils with
    `[[3], [1, 2]]`, and every serial and parallel task saw `{owner: "a"}`.
   */
  method ScenarioAllFulfil() returns (r: Settled<Value>, ghost log: seq<Call>)
    ensures r == Fulfilled(Arr([Arr([Num(3)]), Arr([Num(1), Num(2)])]))
    ensures log == [ContextCall(0, Obj(map["id" := Num(7)])),
                    SerialCall(1, Obj(map["id" := Num(7)]), Obj(map["owner" := Str("a")])),
                    SerialCall(2, Obj(map["id" := Num(7)]), Obj(map["owner" := Str("a")])),
                    ParallelCall(3, Obj(map["id" := Num(7)]), Obj(map["owner" := Str("a")]))]
  {
    var h := new CodeHarmony(Obj(map["id" := Num(7)]));
    h := h.Context([ContextTask(0, _ => Fulfilled(map["owner" := Str("a")]))]);
    h := h.Serially([PhaseTask(1, (_, _) => Fulfilled(Num(1))), PhaseTask(2, (_, _) => Fulfilled(Num(2)))]);
    h := h.Parallelly([PhaseTask(3, (_, _) => Fulfilled(Num(3)))]);
    ghost var joined, args;
    r, joined, args := h.Finish(None);
    ghost var owner := Obj(map["owner" := Str("a")]);
    assert h.contextData == owner by {
      ContextFulfils(h.contextTasks, h.ingressData, [map["owner" := Str("a")]],
                     h.contextPromise.value, h.contextData, Null);
      MergeOne(map["owner" := Str("a")]);
    }
    assert && h.serialPromise == Some(Fulfilled([Num(1), Num(2)]))
           && SerialInvoked(PhaseOutcomes(h.serialTasks, h.ingressData, owner)) == 2 by {
      PhaseFulfils(h.serialTasks, h.ingressData, owner, [Num(1), Num(2)], h.serialPromise.value);
    }
    assert h.parallelPromise == Some(Fulfilled([Num(3)])) by {
      PhaseFulfils(h.parallelTasks, h.ingressData, owner, [Num(3)], h.parallelPromise.value);
    }
    JoinedPair(h.parallelPromise, h.serialPromise, joined);
    log := h.log;
  }

  /** A context task rejecting with "Err1": `finish` rejects with it and no serial or parallel task runs. */
  method ScenarioContextRejects() returns (r: Settled<Value>, ghost log: seq<Call>)
    ensures r == Rejected(Str("Err1"))
    ensures forall c :: c in log ==> c.ContextCall?
  {
    var h := new CodeHarmony(Null);
    h := h.Context([ContextTask(0, _ => Rejected(Str("Err1")))]);
    h := h.Serially([PhaseTask(1, (_, _) => Fulfilled(Num(1)))]);
    h := h.Parallelly([PhaseTask(2, (_, _) => Fulfilled(Num(2)))]);
    ghost var joined, args;
    r, joined, args := h.Finish(None);
    log := h.log;
  }

  /** The first serial task rejects with "Err2": `finish` rejects with it and the second serial task never runs. */
  method ScenarioSerialRejects() returns (r: Settled<Value>, ghost log: seq<Call>)
    ensures r == Rejected(Str("Err2"))
    ensures forall c :: c in log && c.SerialCall? ==> c.task == 1
  {
    var h := new CodeHarmony(Null);
    h := h.Serially([PhaseTask(1, (_, _) => Rejected(Str("Err2"))), PhaseTask(2, (_, _) => Fulfilled(Num(9)))]);
    ghost var joined, args;
    r, joined, args := h.Finish(None);
    assert h.contextPromise.value.Fulfilled? && h.contextData == Obj(map[]) by {
      NoContextTasksGiveEmptyObject(Null, h.contextPromise.value, h.contextData, Null);
    }
    JoinedPair(h.parallelPromise, h.serialPromise, joined);
    log := h.log;
  }

  /**
    With a callback that returns normally and every phase fulfilling, the
    callback is invoked exactly once, as `callback(null, [parallel, serial])`.
   */
  method ScenarioCallback(callback: Callback) returns (r: Settled<Value>, ghost callbackArgs: seq<seq<Value>>)
    requires callback([Null, Arr([Arr([Num(2)]), Arr([Num(1)])])]).Fulfilled?
    ensures callbackArgs == [[Null, Arr([Arr([Num(2)]), Arr([Num(1)])])]]
    ensures r == callback([Null, Arr([Arr([Num(2)]), Arr([Num(1)])])])
  {
    var h := new CodeHarmony(Null);
    h := h.Serially([PhaseTask(1, (_, _) => Fulfilled(Num(1)))]);
    h := h.Parallelly([PhaseTask(2, (_, _) => Fulfilled(Num(2)))]);
    ghost var joined;
    r, joined, callbackArgs := h.Finish(Some(callback));
    assert h.contextPromise.value.Fulfilled? && h.contextData == Obj(map[]) by {
      NoContextTasksGiveEmptyObject(Null, h.contextPromise.value, h.contextData, Null);
    }
    assert h.serialPromise == Some(Fulfilled([Num(1)])) by {
      PhaseFulfils(h.serialTasks, Null, Obj(map[]), [Num(1)], h.serialPromise.value);
    }
    assert h.parallelPromise == Some(Fulfilled([Num(2)])) by {
      PhaseFulfils(h.parallelTasks, Null, Obj(map[]), [Num(2)], h.parallelPromise.value);
    }
    JoinedPair(h.parallelPromise, h.serialPromise, joined);
  }

  const SerialOne := PhaseTask(1, (_, _) => Fulfilled(Num(1)))
  const SerialTwo := PhaseTask(2, (_, _) => Fulfilled(Num(2)))

  /** The first half of `ScenarioFinishTwice`: one serial task, no context task, one `finish`. */
  method ScenarioFinishOnce() returns (h: CodeHarmony, first: Settled<Value>)
    ensures fresh(h) && h.Valid()
    ensures first == Fulfilled(Arr([Arr([]), Arr([Num(1)])]))
    ensures h.ingressData == Null && h.contextData == Obj(map[])
    ensures h.contextPromise.Some? && h.contextPromise.value.Fulfilled?
    ensures h.serialTasks == [SerialOne] && h.parallelTasks == []
    ensures h.log == [SerialCall(1, Null, Obj(map[]))]
  {
    h := new CodeHarmony(Null);
    h := h.Serially([SerialOne]);
    ghost var joined, args;
    first, joined, args := h.Finish(None);
    assert h.contextPromise.value.Fulfilled? && h.contextData == Obj(map[]) by {
      NoContextTasksGiveEmptyObject(Null, h.contextPromise.value, h.contextData, Null);
    }
    assert && h.serialPromise == Some(Fulfilled([Num(1)]))
           && SerialInvoked(PhaseOutcomes([SerialOne], Null, Obj(map[]))) == 1 by {
      PhaseFulfils([SerialOne], Null, Obj(map[]), [Num(1)], h.serialPromise.value);
    }
    assert h.parallelPromise == Some(Fulfilled([])) by {
      PhaseFulfils([], Null, Obj(map[]), [], h.parallelPromise.value);
    }
    JoinedPair(h.parallelPromise, h.serialPromise, joined);
  }

  /**
    Calling `finish` twice: the context phase of the first call (here with
    no context task, so the context is `{}`) is reused, a context task
    registered in between is never invoked, and the serial phase runs again,
    now over both registered serial tasks.
   */
  method ScenarioFinishTwice() returns (second: Settled<Value>, ghost log: seq<Call>)
    ensures second == Fulfilled(Arr([Arr([]), Arr([Num(1), Num(2)])]))
    ensures log == [SerialCall(1, Null, Obj(map[])), SerialCall(1, Null, Obj(map[])), SerialCall(2, Null, Obj(map[]))]
  {
    var h, first := ScenarioFinishOnce();
    h := h.Context([ContextTask(5, _ => Fulfilled(map["k" := Num(5)]))]);
    h := h.Serially([SerialTwo]);
    ghost var joined, args;
    second, joined, args := h.Finish(None);
    assert && h.serialPromise == Some(Fulfilled([Num(1), Num(2)]))
           && SerialInvoked(PhaseOutcomes([SerialOne, SerialTwo], Null, Obj(map[]))) == 2 by {
      PhaseFulfils([SerialOne, SerialTwo], Null, Obj(map[]), [Num(1), Num(2)], h.serialPromise.value);
    }
    assert h.parallelPromise == Some(Fulfilled([])) by {
      PhaseFulfils([], Null, Obj(map[]), [], h.parallelPromise.value);
    }
    JoinedPair(h.parallelPromise, h.serialPromise, joined);
    log := h.log;
  }
}
