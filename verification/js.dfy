/**
  The JavaScript values the orchestrator passes around, promises seen through
  their settled outcome, the caller's asynchronous tasks seen as oracles, and
  the record of which task was invoked with which arguments.
 */
module Js {

  /** A JavaScript value, as far as the orchestrator can observe it. */
  datatype Value =
    | Undefined
    | Null
    | Num(n: int)
    | Str(s: string)
    | Arr(items: seq<Value>)
    | Obj(fields: Object)

  /** A plain object: property names to values. */
  type Object = map<string, Value>

  datatype Option<+T> = None | Some(value: T)

  /**
    A promise, modelled by the outcome it settles to: resolved with a value,
    or rejected with the thrown value.
   */
  datatype Settled<+T> = Fulfilled(value: T) | Rejected(reason: Value)

  /**
    A context task: invoked with the ingress value, it settles to a partial
    context object. `id` lets the invocation log tell tasks apart.
   */
  datatype ContextTask = ContextTask(id: nat, run: Value -> Settled<Object>)

  /** A serial or parallel task: invoked with the ingress value and the context value. */
  datatype PhaseTask = PhaseTask(id: nat, run: (Value, Value) -> Settled<Value>)

  /**
    A completion callback in Node style: invoked with the argument list
    `[error]` or `[null, data]`, it returns a value or throws.
   */
  type Callback = seq<Value> -> Settled<Value>

  /** One invocation of a caller-supplied task, with the arguments it received. */
  datatype Call =
    | ContextCall(task: nat, ingress: Value)
    | SerialCall(task: nat, ingress: Value, context: Value)
    | ParallelCall(task: nat, ingress: Value, context: Value)
}
