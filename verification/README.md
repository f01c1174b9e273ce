# code-harmony in Dafny

A model of `CodeHarmony`, a small orchestrator for asynchronous work. An
instance is built around one ingress value. The caller registers three groups
of asynchronous tasks:

- *context* tasks, which receive the ingress value and resolve to partial
  context objects that are merged into one context;
- *serial* tasks, run one after the other;
- *parallel* tasks, run together.

Serial and parallel tasks receive the ingress value and the merged context.
`finish` reports `[parallelResults, serialResults]`, through a promise or a
Node-style callback.

The repository holds two versions of the class, and both are modelled:

- `src/index.ts` (module `Harmony`) collects the tasks into three lists.
  `finish` runs the context phase the first time it is called, then runs the
  serial and the parallel phase.
- `index.js` (module `LegacyHarmony`) starts each phase when it is
  registered. The phase is chained on the context promise as it stands at
  that moment, and each registration overwrites that phase's promise.
  `finish` only collects the two phase promises.

How the model represents the program:

- A promise is represented by the outcome it settles to: `Fulfilled(value)`
  or `Rejected(reason)` (`Js.Settled`). A promise field that is still `null`
  or `undefined` is `None`.
- A caller's task is an oracle, a total function from its arguments to a
  settled outcome, tagged with an `id`.
- Each class keeps a ghost `log` of every task invocation and its arguments.
  Properties such as "this task is never invoked" are stated over that log.
- `Promise.all` fulfils with the values in input order when every member
  fulfils. Otherwise it rejects with the reason of *some* rejected member,
  and which one depends on timing. So its contract is a relation
  (`Phases.AllSettle`), not a function.
- The fold shared by both versions, `reduce((data, iter) =>
  Object.assign(iter, data), {})`, copies the accumulator onto the newer
  result. On a key collision the **earliest** registered context task's
  value wins (`Phases.MergeEarliestWins`). Reading the fold as
  last-write-wins is a misreading of the argument order of `Object.assign`.
- If a success callback throws, the catch path calls the callback a second
  time with what it threw (`Phases.Deliver`,
  `Phases.CallbackFiresTwiceWhenItThrows`). So a throwing success callback runs twice.

Files: `js.dfy` (values, promises, tasks, the call log), `phases.dfy` (what
both versions share), `harmony.dfy`, `legacy_harmony.dfy`.

## Model

| member | source | states |
|---|---|---|
| Phases.AllFulfilledSettle | src/index.ts:76-78 | when every task of a group fulfils, `Promise.all` fulfils with exactly their values, each in its registration slot |
| Phases.FirstRejection | src/index.ts:67-69 | the position at which the serial loop stops: every earlier outcome fulfilled and this one rejected, or the end of the list |
| Phases.Collect | index.js:62-66 | collects outcomes in order: fulfils with all values in input order exactly when all fulfil, else rejects with the first rejection's reason; it is one of the outcomes `Promise.all` may settle to |
| Phases.ContextOutcomes | src/index.ts:54 | each context task is invoked with the ingress value and its outcome kept in registration order |
| Phases.PhaseOutcomes | src/index.ts:77 | each serial or parallel task is invoked with the ingress and context values and its outcome kept in registration order |
| Phases.PhaseFulfils | src/index.ts:63-78 | when every task of a phase fulfils, every one of them is invoked and the phase settles, serially or through `Promise.all`, to exactly their values in registration order |
| Phases.RunSerially | src/index.ts:63-72 | the serial loop invokes tasks in registration order. If all fulfil, the i-th result is the i-th task's value. On the first rejection the phase rejects with that reason, and exactly the tasks up to and including the failing one were invoked |
| Phases.Merge | src/index.ts:55-59 | the merged context holds exactly the union of the keys of all context results; with no results it is `{}` |
| Phases.MergeEarliestWins | src/index.ts:56-58 | for every key, the merged context holds the value of the earliest registered context result that has that key |
| Phases.MergeKeepsFirstOnCollision | index.js:25-28 | two context results setting the same key: the first one's value is kept |
| Phases.MergeOne | src/index.ts:55-59 | a single context result becomes the context unchanged |
| Phases.ContextFulfils | src/index.ts:53-59 | when every context task fulfils, the context phase fulfils and the context is the merge of their results in registration order |
| Phases.NoContextTasksGiveEmptyObject | src/index.ts:53-59 | with no context tasks the context phase fulfils and the context is `{}`, not null |
| Phases.SettleContext | src/index.ts:53-60 | the context phase fulfils exactly when every context task fulfils, and then sets the context to the merge of their results; otherwise it rejects with some context task's reason and leaves the context as it was |
| Phases.JoinedPair | src/index.ts:142 | `Promise.all([parallel, serial])` fulfils exactly when neither rejected, with `[parallel, serial]` in that order (`undefined` for an unset slot, which only arises in `index.js:79-82`: in `src/index.ts` both promises are set by then); otherwise it rejects with a rejecting phase's reason |
| Phases.DeliverRoutes | src/index.ts:144-153 | without a callback the outcome is passed through. With one, failure calls `callback(error)` with a single argument, and success calls `callback(null, data)`. If that call throws, the callback is called a second time with what it threw. `finish` settles as the last callback call did |
| Phases.CallbackFiresTwiceWhenItThrows | src/index.ts:148-153 | a success callback that throws is invoked twice: first with `null` and the result, then with what it threw |
| Harmony.CodeHarmony.constructor | src/index.ts:26-37 | the ingress is stored, the context and all three promises are null, all task lists are empty and nothing has been invoked |
| Harmony.CodeHarmony.RegisterSerialFunctions | src/index.ts:39-41 | the serial list becomes the old list followed by the new tasks; nothing else changes |
| Harmony.CodeHarmony.RegisterParallelFunctions | src/index.ts:43-45 | the parallel list becomes the old list followed by the new tasks; nothing else changes |
| Harmony.CodeHarmony.RegisterContextFunctions | src/index.ts:47-49 | the context list becomes the old list followed by the new tasks; nothing else changes |
| Harmony.CodeHarmony.RunContextFunctions | src/index.ts:51-61 | every registered context task is invoked once with the ingress value, and the context promise and context settle as `SettleContext` says |
| Harmony.CodeHarmony.RunSerialFunctions | src/index.ts:63-72 | the serial promise becomes a fresh run of the serial loop over the current list, with the current context |
| Harmony.CodeHarmony.RunParallelFunctions | src/index.ts:74-79 | every parallel task is invoked with the ingress and the context; the parallel promise settles as `Promise.all` of their outcomes |
| Harmony.CodeHarmony.ContextChecks | src/index.ts:81-85 | the context phase starts only when its promise is null; otherwise nothing changes and nothing is invoked |
| Harmony.CodeHarmony.Context | src/index.ts:96-99 | appends to the context list only and returns the same instance |
| Harmony.CodeHarmony.Serially | src/index.ts:109-112 | appends to the serial list only and returns the same instance |
| Harmony.CodeHarmony.Parallelly | src/index.ts:122-125 | appends to the parallel list only and returns the same instance |
| Harmony.CodeHarmony.RunPhases | src/index.ts:139-142 | starts the serial phase, then the parallel phase, over the current lists and context; the serial promise is the serial loop's outcome, the parallel promise settles as `Promise.all`, and the joined outcome settles as `Promise.all([parallel, serial])` |
| Harmony.CodeHarmony.AfterContext | src/index.ts:137-142 | a rejected context phase is the outcome itself and starts no serial or parallel task; a fulfilled one has left an object context, and both phases run on it |
| Harmony.CodeHarmony.Finish | src/index.ts:134-155 | the context phase runs at most once; a second call reuses its outcome, and context tasks registered since are never invoked. If the context phase rejected, no serial or parallel task is invoked and the reason goes to the promise or the callback. Otherwise each call re-runs both phases with fresh results, and `[parallel, serial]` or a phase's rejection is delivered |
| Harmony.ScenarioAllFulfil | src/index.ts:134-155 | one context task, serial tasks 1 and 2, and parallel task 3: `finish` fulfils with `[[3], [1, 2]]`, and every serial and parallel task receives the merged context |
| Harmony.ScenarioContextRejects | src/index.ts:136-153 | a rejecting context task makes `finish` reject with its reason, and no serial or parallel task is invoked |
| Harmony.ScenarioSerialRejects | src/index.ts:66-69 | the first serial task rejects: `finish` rejects with that reason and the second serial task is never invoked |
| Harmony.ScenarioCallback | src/index.ts:148 | when all phases succeed and the callback returns normally, it is called exactly once, with `null` and the pair |
| Harmony.ScenarioFinishOnce | src/index.ts:134-155 | with no context task and one serial task, `finish` fulfils with `[[], [1]]`, the context becomes `{}` and only the serial task is invoked |
| Harmony.ScenarioFinishTwice | src/index.ts:136-140 | a second `finish` keeps the first context, never invokes a context task registered in between, and re-runs the serial phase over both serial tasks, so the first serial task is invoked twice in all |
| LegacyHarmony.CodeHarmony.constructor | index.js:6-10 | the ingress is stored, the context is null, the context promise is already resolved, and both phase promises are unset |
| LegacyHarmony.CodeHarmony.Context | index.js:21-31 | every given context task is invoked at once, and the context promise is replaced by their merge's outcome; the context keeps its old value on rejection |
| LegacyHarmony.CodeHarmony.Serially | index.js:41-50 | the series promise is replaced by a serial run of the given tasks, chained on the current context promise. If that promise rejected, no task is invoked and the series rejects with the same reason |
| LegacyHarmony.CodeHarmony.Parallelly | index.js:60-69 | the parallel promise is replaced by a run of all given tasks, chained on the current context promise. Results are in argument order. If the context promise rejected, no task is invoked and the phase rejects with the same reason |
| LegacyHarmony.CodeHarmony.Finish | index.js:78-88 | reports `Promise.all([parallel, series])`, with `undefined` for an unset phase, to the promise or the callback; it changes no state. Without a callback it fulfils with `[parallel, series]` exactly when neither phase rejected, and otherwise rejects with the reason of a phase that rejected |
| LegacyHarmony.ScenarioUnreportedContextFailure | index.js:79-85 | a rejected context with no serial or parallel work registered is not reported: `finish` fulfils with `[undefined, undefined]` |
| LegacyHarmony.ScenarioContextRejects | index.js:42 | serial work registered after a rejected context invokes nothing, and `finish` rejects with the context's reason |
| LegacyHarmony.ScenarioLatestSeriesWins | index.js:41-50 | serial work registered before `context` is handed the context as it was at registration (null). A later `serially` is handed the merged context and replaces the series, so only its results are reported; the three tasks are each invoked once (the log as a multiset) |

## Left out

- Promise scheduling, microtasks and the interleaving of concurrent tasks. The model works on settled outcomes only. The log records one run's serial calls before its parallel calls. In `src/index.ts` the first serial task actually starts before the parallel tasks and the later serial tasks start after them; the order within each phase is modelled.
- Harmony.CodeHarmony.RunParallelFunctions: when several parallel tasks reject, the reason reported is that of *some* rejecting task (`AllSettle`), because which one depends on timing.
- Harmony.CodeHarmony.Finish: when several context tasks reject, or when both the serial and the parallel phase reject, the reason reported is that of *some* rejecting task or phase, for the same reason.
- Harmony.CodeHarmony.RunContextFunctions: when several context tasks reject, the reason is that of some rejecting task.
- LegacyHarmony.CodeHarmony.Parallelly: when several tasks reject, the reason is that of some rejecting task.
- LegacyHarmony.CodeHarmony.Context: calling `context` twice in `index.js` lets both merges write the context in a timing-dependent order. The model applies them in call order.
- In `index.js`, serial and parallel tasks read the context field when they are invoked, which may be after a later `context` call has merged. The model hands them the context as it stood when the phase was registered.
- LegacyHarmony.CodeHarmony.Serially, LegacyHarmony.CodeHarmony.Parallelly: the log records a phase's tasks when the phase is registered. In `index.js` they are invoked later, in a `then` callback (`index.js:42`, `index.js:61`), even on an already settled context promise. So a context task of a later `context` call in the same synchronous chain is invoked before them (`context` invokes its tasks synchronously, `index.js:23`), and after the first serial task, the tasks of a later `parallelly` are invoked before the remaining serial ones. The model keeps the order within each phase only.
- Phases.Deliver: a callback that returns a promise (an `async` callback, say) is not modelled; the model's callback returns a value or throws. The two versions differ there: `src/index.ts:148` returns that promise from inside the `try`, so a rejection of it is adopted without reaching the `catch` and the callback runs once; `index.js:87` chains `.catch(cb)` after it, so the rejection invokes the callback a second time.
- Harmony.CodeHarmony.Finish: a callback that returns a rejected promise is not modelled (see `Phases.Deliver`); in `src/index.ts` `finish` then rejects with that reason and the callback runs once.
- LegacyHarmony.CodeHarmony.Finish: a callback that returns a rejected promise is not modelled (see `Phases.Deliver`); in `index.js` the callback is then invoked a second time with that reason.
- `Object.assign` also mutates the objects returned by the context tasks (aliasing). The merge is modelled as a pure map fold.
- Context tasks that resolve to something other than an object (`Object.assign` throws on `undefined` and `null`, and wraps primitives). The model types context results as objects.
- Tasks that throw synchronously instead of returning a rejected promise. In `src/index.ts` such a throw would be caught by `finish` before `contextPromise` is set. A task here only settles.
- Concurrent `finish` calls that await a context promise which is still pending.
- Unhandled-rejection reporting by the runtime for phase promises that are never collected.
- The TypeScript type aliases and generic parameters (`src/index.ts:1-9`) and `module.exports` (`index.js:91`). They are declarations only.
