/** Datatypes of the worker layer: JavaScript values as the layer sees them,
    jobs, parameter rules, worker metadata, retry options and the two error
    values. They carry no behaviour of their own. */
module ZeebeTypes {

  datatype Option<+T> = None | Some(value: T) {
    function GetOr(default: T): T {
      if Some? then value else default
    }
  }

  datatype Result<+T, +E> = Success(value: T) | Failure(error: E)

  datatype Outcome<+E> = Pass | Fail(error: E)

  /** A JavaScript value. `Undefined` and `Null` are different values; numbers
      are modelled as integers. `Instance` is an object built by a class
      constructor (its class name and own fields), `JobRef` the job object
      itself, and `Opaque` anything else (functions, symbols, SDK objects). */
  datatype Value =
    | Undefined
    | Null
    | Bool(b: bool)
    | Number(n: int)
    | Str(s: string)
    | Object(fields: map<string, Value>)
    | Instance(shape: string, fields: map<string, Value>)
    | JobRef(job: Job)
    | Opaque(id: nat)

  type Variables = map<string, Value>

  /** A job delivered by the engine. `variables` is None when the job carries
      no variables object at all. */
  datatype Job = Job(key: string, taskType: string, variables: Option<Variables>)

  /** A method key: a string or a symbol (two symbols with the same
      description are still different keys). */
  datatype PropertyKey = Named(name: string) | Symbol(id: nat, description: string)

  /** What `String(key)` prints for a key. */
  function KeyText(key: PropertyKey): string {
    match key
    case Named(n) => n
    case Symbol(_, d) => "Symbol(" + d + ")"
  }

  /** A class, identified by name; it stands for the constructor function. */
  type ClassId = string

  /** Worker options handed to the engine: the task type and the remaining
      engine tuning knobs, passed through unchanged. */
  datatype WorkerOptions = WorkerOptions(taskType: string, settings: map<string, Value>)

  /** A user `transform` callback, opaque to this layer. */
  type Transform = (Value, Job) -> Value

  /** A class used by `VariablesAsType`: `new factory()` yields an instance of
      `shape` whose own fields are `defaults`. */
  datatype Factory = Factory(shape: string, defaults: Variables)

  /** The `ParameterMetadata` tagged union. */
  datatype ParameterRule =
    | VariableRule(index: nat, name: Option<string>, required: bool, transform: Option<Transform>)
    | VariablesAsTypeRule(index: nat, factory: Factory)

  /** The options object accepted by `@Variable`. */
  datatype VariableOptions = VariableOptions(name: Option<string>, required: Option<bool>, transform: Option<Transform>)

  /** One handler collected from the registry for an instance. */
  datatype WorkerMetadata = WorkerMetadata(
    propertyKey: PropertyKey,
    options: WorkerOptions,
    parameterCount: nat,
    parameters: seq<ParameterRule>)

  /** `ZeebeClientRetryOptions`: every field optional. */
  datatype RetryOptions = RetryOptions(maxAttempts: Option<int>, initialDelayMs: Option<int>, maxDelayMs: Option<int>)

  /** The retry settings after merging with the defaults. */
  datatype RetryConfig = RetryConfig(maxAttempts: int, initialDelayMs: int, maxDelayMs: int)

  /** `ZeebeClientManagerOptions`; the SDK configuration objects are passed
      through to the SDK untouched and are not modelled. */
  datatype ManagerOptions = ManagerOptions(retry: Option<RetryOptions>)

  /** `ZeebeConnectionError`; `cause` is `Undefined` when no attempt was made. */
  datatype ConnectionError = ConnectionError(message: string, cause: Value)

  /** `MissingVariableError`, carrying the variable's declared name. */
  datatype MissingVariableError = MissingVariableError(variableName: string) {
    function Message(): string {
      "Missing required Zeebe variable: " + variableName
    }
  }

  /** A JavaScript `TypeError` raised for a programming mistake. */
  datatype TypeError = TypeError(message: string)

  const ConnectionErrorName: string := "ZeebeConnectionError"
  const MissingVariableErrorName: string := "MissingVariableError"
}
