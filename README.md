# Zeebe worker injection layer, modelled in Dafny

This project models the dependency-injection layer that sits between an
application and the Camunda 8 / Zeebe job-worker client. The layer has three
parts.

- **Decorators.** `@ZeebeWorker` marks a method as the handler of a task type.
  `@Variable` and `@VariablesAsType` mark handler parameters to be filled from
  a job's variables.
- **Worker registry.** A process-wide table, keyed by class and then by
  method key, that the decorators fill. It is read back for one instance by
  walking that instance's prototype chain: `getWorkerMetadata`. Each rule is
  turned into an argument value for one job by `resolveParameter`.
- **Client manager.** `ZeebeClientManager`:
  - connects to the gRPC API with bounded exponential back-off, and caches
    the client and its promise;
  - creates lazy REST clients;
  - turns every decorated method of the given instances into a tracked worker
    whose handler builds the method's argument array from the job;
  - installs and removes signal listeners;
  - shuts down, closing workers and clients in order.

The files follow the program:

- `types.dfy` (module `ZeebeTypes`): JavaScript values, jobs, rules, worker
  records, retry options and the two error classes, as datatypes.
- `resolver.dfy` (module `ParameterResolution`): `resolveParameter`,
  `resolveVariable` and `instantiateVariables`.
- `registry.dfy` (module `WorkerRegistry`):
  - the registry as a class `Registry`, whose methods update its `tables`
    field;
  - the specification functions those methods are proved against;
  - lemmas about the store operations and the override rules of the
    prototype walk.
- `decorators.dfy` (module `Decorators`): the three decorators, as methods that
  take a `Registry`, plus what the rules they store mean for a job.
- `client_manager.dfy` (module `ClientManager`):
  - the manager as a class `Manager`;
  - the back-off loop, argument building and shutdown as methods with loop
    invariants, each proved against a specification function;
  - lemmas about those functions.

Effects outside the layer become parameters:

- Each connection attempt is a function from attempt number to outcome.
- The REST client the SDK would build is a parameter.
- A set says which workers fail to close; flags say whether closing the
  client or `closeAllClients` fails.
- Whether a `process` object exists is a flag.

Ghost fields record what cannot be observed otherwise:

- how many connection runs were started;
- which workers had `close()` called, in order;
- which signal listeners were detached, in order.

## Model

| member | source | states |
|---|---|---|
| ParameterResolution.InstantiateVariables | lib/zeebe/src/lib/worker-registry.ts:112-121 | The result is a new instance of the factory's class. Every job variable overrides the factory default of the same name, and the other defaults are kept. A job without variables yields the defaults. |
| ParameterResolution.ResolveVariable | lib/zeebe/src/lib/worker-registry.ts:123-136 | Fails exactly when the rule is required, names a variable (a non-empty name), and that variable is missing or `undefined`; the error carries that name. An unnamed rule never fails and binds the whole variables object, `{}` when the job has none. The transform receives the raw value and the job. |
| ParameterResolution.ResolveParameter | lib/zeebe/src/lib/worker-registry.ts:101-110 | Fails exactly when it is a required variable rule whose named variable is missing or undefined. A variable rule yields exactly what `ResolveVariable` yields for its name, `required` flag and transform. A variables-as-type rule always succeeds, with the instance `InstantiateVariables` builds: the factory's class, its defaults overridden by the job's variables. |
| ParameterResolution.NullPassesRequired | lib/zeebe/src/lib/worker-registry.ts:131-133 | A variable whose value is `null` satisfies `required`, and is passed through as `null`. |
| WorkerRegistry.Registry.constructor | lib/zeebe/src/lib/worker-registry.ts:22 | The registry starts empty and valid. |
| WorkerRegistry.Registry.EnsureDefinition | lib/zeebe/src/lib/worker-registry.ts:24-44 | Returns the stored definition, or stores and returns a blank one with no options and no rules. The tables stay valid. Afterwards the definition is present under (class, key). |
| WorkerRegistry.EnsureExistingChangesNothing | lib/zeebe/src/lib/worker-registry.ts:34-43 | When the definition already exists, `ensureDefinition` changes nothing and returns it. |
| WorkerRegistry.EnsureNewAppends | lib/zeebe/src/lib/worker-registry.ts:28-41 | A new definition is blank, and its key goes after the class's existing keys in iteration order. |
| WorkerRegistry.PutValid | lib/zeebe/src/lib/worker-registry.ts:24-44 | Storing a definition that is valid for its key keeps every table valid: no key twice in iteration order, and each rule at its own index. |
| WorkerRegistry.Registry.StoreWorkerOptions | lib/zeebe/src/lib/worker-registry.ts:46-55 | The tables become `WithOptions`: options and parameter count overwritten, nothing else changed. The tables stay valid. |
| WorkerRegistry.OptionsLastWriteWins | lib/zeebe/src/lib/worker-registry.ts:52-54 | Storing options twice equals storing only the second ones. |
| WorkerRegistry.OptionsKeepParameters | lib/zeebe/src/lib/worker-registry.ts:52-54 | Storing options keeps the definition's rules and sets its options and count. Every other (class, key) definition is unchanged. |
| WorkerRegistry.Registry.StoreWorkerParameter | lib/zeebe/src/lib/worker-registry.ts:57-64 | The tables become `WithParameter`: the rule stored at its index. The tables stay valid. |
| WorkerRegistry.ParameterReplacesOnlyItsIndex | lib/zeebe/src/lib/worker-registry.ts:62-63 | Storing a rule sets the rule at its index and keeps every other index, the options and the count. Every other (class, key) definition is unchanged. |
| WorkerRegistry.OptionsAndParameterCommute | lib/zeebe/src/lib/worker-registry.ts:46-64 | Storing the options and storing a rule commute, so decorator evaluation order does not matter. |
| WorkerRegistry.ParametersCommute | lib/zeebe/src/lib/worker-registry.ts:57-64 | Two rules at different indices commute. |
| WorkerRegistry.SortedRulesExact | lib/zeebe/src/lib/worker-registry.ts:84-86 | The sorted rules are strictly ascending by index, and are exactly the stored rules, each once. |
| WorkerRegistry.Registry.GetWorkerMetadata | lib/zeebe/src/lib/worker-registry.ts:66-99 | The method's two nested loops return `Metadata(tables, chain)`: the instance and then each prototype is visited, keeping the first record with options for each key. |
| WorkerRegistry.VisitTwiceAddsNothing | lib/zeebe/src/lib/worker-registry.ts:70-75 | The walk visits the most-derived class twice: once for the instance and once for its prototype. The second visit adds nothing. |
| WorkerRegistry.LevelOfKeys | lib/zeebe/src/lib/worker-registry.ts:74-78 | A class offers a record for a key exactly when its definition for that key has options. |
| WorkerRegistry.FirstByKeyKeys | lib/zeebe/src/lib/worker-registry.ts:79-82 | The `seen` filter keeps each offered key not yet seen, exactly once. |
| WorkerRegistry.WalkWinner | lib/zeebe/src/lib/worker-registry.ts:70-93 | Every record kept by the walk is the record of the first class in the chain with a handler for that key. |
| WorkerRegistry.MetadataOverride | lib/zeebe/src/lib/worker-registry.ts:70-93 | The result has three properties. No key appears twice. Each record comes from the most-derived class that has options for that key; a definition without options shadows nothing. Every handler key anywhere in the chain is returned. |
| WorkerRegistry.MetadataOrder | lib/zeebe/src/lib/worker-registry.ts:71-93 | Records come out in order of each key's first offer. That order is chain order first, then insertion order within a class. |
| WorkerRegistry.MetadataParameters | lib/zeebe/src/lib/worker-registry.ts:83-91 | Each record carries its serving definition's stored parameter count. It also carries exactly that definition's rules, strictly ascending by index. |
| Decorators.NormalizeVariableOptions | lib/zeebe/src/lib/decorators.ts:55-63 | A string becomes `{ name }`. A missing argument becomes `{}`. An options object is kept as given. |
| Decorators.VariableRuleFor | lib/zeebe/src/lib/decorators.ts:28-34 | The stored variable rule has the parameter's index, name and transform. It is required exactly when `required` was given as `true`. |
| Decorators.AsTypeRuleFor | lib/zeebe/src/lib/decorators.ts:45-49 | The stored variables-as-type rule has the parameter's index and factory. |
| Decorators.NameShorthand | lib/zeebe/src/lib/decorators.ts:58-60 | `@Variable('x')` stores the same rule as `@Variable({ name: 'x' })`. That rule never fails and yields the variable or `undefined`. |
| Decorators.BareVariableBindsAll | lib/zeebe/src/lib/decorators.ts:62 | A bare `@Variable()` binds the whole variables object. |
| Decorators.OnlyRequiredFails | lib/zeebe/src/lib/decorators.ts:20-37 | A rule from `@Variable` fails for a job exactly when it was declared `required: true`, it names a variable, and that variable is missing or undefined. |
| Decorators.ZeebeWorker | lib/zeebe/src/lib/decorators.ts:6-17 | A missing or non-function descriptor is refused first, and a constructor is refused second, each with its `TypeError` and the tables unchanged. Otherwise the options and the method's declared parameter count are stored. |
| Decorators.Variable | lib/zeebe/src/lib/decorators.ts:20-37 | A constructor parameter is refused with a `TypeError` and the tables unchanged. Otherwise the rule from the normalized options is stored at the parameter's index. |
| Decorators.VariablesAsType | lib/zeebe/src/lib/decorators.ts:40-52 | A constructor parameter is refused with a `TypeError` and the tables unchanged. Otherwise a variables-as-type rule with the factory is stored at the parameter's index. |
| Decorators.DecoratedWorkerCollected | lib/zeebe/src/lib/decorators.ts:15-16 | Once `@ZeebeWorker` stores options for a method of class C, every instance whose chain starts at C collects a record for that key. The record has the options, the declared count and the rules stored so far, sorted. |
| ClientManager.MergeRetry | lib/zeebe/src/lib/zeebe-client-manager.ts:23-27 | Each retry field that is given replaces its default. The defaults are 3 attempts, 1000 ms and 5000 ms. |
| ClientManager.Manager.constructor | lib/zeebe/src/lib/zeebe-client-manager.ts:39-42 | The manager keeps the merged retry settings and starts with no clients, no promise, no workers and no listeners. |
| ClientManager.DelayClosedForm | lib/zeebe/src/lib/zeebe-client-manager.ts:204-219 | For a non-negative `maxDelayMs`, the i-th wait (i ≥ 1) is `initial · 2^i` capped at `maxDelayMs`. |
| ClientManager.DelayBounded | lib/zeebe/src/lib/zeebe-client-manager.ts:204-219 | With `0 ≤ initial ≤ cap`, waits never shrink and stay between the initial delay and the cap. |
| ClientManager.DefaultDelays | lib/zeebe/src/lib/zeebe-client-manager.ts:23-27 | With the defaults, the waits are 1000, 2000, 4000 and then 5000 ms. |
| ClientManager.Connection | lib/zeebe/src/lib/zeebe-client-manager.ts:202-224 | Connects exactly when some attempt within `maxAttempts` connects, and returns the first such client. Otherwise it fails with `Failed to connect to Zeebe gRPC API`. The cause is the last attempt's error, or `undefined` when no attempt was allowed. |
| ClientManager.ConnectedAt | lib/zeebe/src/lib/zeebe-client-manager.ts:207-212 | The first attempt that connects decides the result. |
| ClientManager.NeverConnected | lib/zeebe/src/lib/zeebe-client-manager.ts:213-223 | When no attempt in the budget connects, the result is the connection error carrying the last failure. |
| ClientManager.Manager.EstablishGrpcClient | lib/zeebe/src/lib/zeebe-client-manager.ts:202-224 | The loop's result is `Connection`. Attempts made are at most `maxAttempts`, all but the last failing, and all of them on failure. It waits `attempts - 1` times, the i-th wait being `DelayAt(i)`. |
| ClientManager.Manager.GetZeebeClient | lib/zeebe/src/lib/zeebe-client-manager.ts:44-55 | Returns the cached client, else the stored promise's outcome. A new connection run starts only when no promise is stored. A rejected promise stays stored, and a resolved one is cached. Nothing else changes. |
| ClientManager.Manager.GetOperateClient | lib/zeebe/src/lib/zeebe-client-manager.ts:57-62 | The client is created on first use, and the same client is returned afterwards. Nothing else changes. |
| ClientManager.Manager.GetTasklistClient | lib/zeebe/src/lib/zeebe-client-manager.ts:64-69 | The client is created on first use, and the same client is returned afterwards. Nothing else changes. |
| ClientManager.Manager.RegisterWorker | lib/zeebe/src/lib/zeebe-client-manager.ts:92-108 | Succeeds exactly when the client is obtained. The worker is then new, has the given options and handler, and is appended to the tracked set. On failure the connection error is returned and nothing is tracked. |
| ClientManager.Collection | lib/zeebe/src/lib/zeebe-client-manager.ts:114 | An array is used as given, and a single instance becomes a one-element array. |
| ClientManager.CreateHandler | lib/zeebe/src/lib/zeebe-client-manager.ts:166-181 | Succeeds exactly when the instance's property is a function, returning a handler bound to the instance and the record. Otherwise it raises `Worker method <key> is not callable`. |
| ClientManager.Manager.RegisterDecoratedWorkers | lib/zeebe/src/lib/zeebe-client-manager.ts:110-126 | A connection failure is returned with nothing tracked. Once connected, one worker is tracked per (instance, record) pair, in order, each with the record's options and handler, up to the first pair whose method is not callable; that pair's `TypeError` is returned, and success when there is none. Workers tracked earlier are kept. |
| ClientManager.Manager.TrackAll | lib/zeebe/src/lib/zeebe-client-manager.ts:115-125 | The outer loop tracks exactly the workers of the plan, up to the first uncallable binding, and returns its error. |
| ClientManager.Manager.TrackInstanceWorkers | lib/zeebe/src/lib/zeebe-client-manager.ts:116-124 | The inner loop appends one worker per record up to the first uncallable one, and reports that record's `TypeError`. |
| ClientManager.TrackedStep | lib/zeebe/src/lib/zeebe-client-manager.ts:115-125 | An instance whose records are all callable extends the plan, and the tracked workers, by that instance's bindings. |
| ClientManager.StoppedStep | lib/zeebe/src/lib/zeebe-client-manager.ts:115-125 | An instance with an uncallable record stops the whole run at that record's place in the plan. |
| ClientManager.Manager.EnableGracefulShutdown | lib/zeebe/src/lib/zeebe-client-manager.ts:128-141 | Without `process` it does nothing. Otherwise it appends one listener per signal, defaulting to SIGINT and SIGTERM, with no de-duplication. |
| ClientManager.Manager.DisableGracefulShutdown | lib/zeebe/src/lib/zeebe-client-manager.ts:143-147 | Empties the list and detaches every listener in registration order. |
| ClientManager.Manager.Shutdown | lib/zeebe/src/lib/zeebe-client-manager.ts:149-164 | First the listeners are detached. Then workers are closed in insertion order, each untracked after a successful close; the first failed close rejects, leaving it and later workers tracked and the client untouched. A failed client close also rejects, with the client kept. Otherwise the client and promise are cleared and `closeAllClients` decides the outcome. The lazy REST clients are kept. |
| ClientManager.RemoveFirst | lib/zeebe/src/lib/zeebe-client-manager.ts:152-155 | In a set without duplicates, deleting the first element leaves the rest in order. |
| ClientManager.Arguments | lib/zeebe/src/lib/zeebe-client-manager.ts:183-200 | Fails with the error of the first rule, in sequence order, that fails. Every earlier rule succeeded. |
| ClientManager.ArgumentsFailure | lib/zeebe/src/lib/zeebe-client-manager.ts:189-191 | When rule `i` fails and every earlier rule succeeded, the argument list fails with rule `i`'s error, whatever the later rules do. |
| ClientManager.ArgumentsSlots | lib/zeebe/src/lib/zeebe-client-manager.ts:188-197 | With distinct indices and all rules succeeding, the array has the declared count's length, grown to the largest index. A rule's slot holds its value, or the job when the value is `undefined`. Every other slot holds the job. |
| ClientManager.LowestIndexFails | lib/zeebe/src/lib/zeebe-client-manager.ts:189-191 | With rules ascending by index, as the registry yields them, the arguments fail exactly when some rule fails. The error is that of the failing rule with the lowest index. |
| ClientManager.SetSlot | lib/zeebe/src/lib/zeebe-client-manager.ts:190 | Assigning past the end grows the array, leaving the gap empty; other slots are unchanged. |
| ClientManager.Manager.BuildArguments | lib/zeebe/src/lib/zeebe-client-manager.ts:183-200 | The rule loop and the fill loop together return `Arguments(job, parameterCount, metadata)`. |
| ClientManager.Manager.RunHandler | lib/zeebe/src/lib/zeebe-client-manager.ts:177-180 | The handler calls the method on its instance with `Arguments`, or rejects with that error. |
| ClientManager.ExampleHandleOrder | lib/zeebe/src/lib/zeebe.spec.ts:19-78 | For `handleOrder` and a job with `orderId: 'A-123'` and `amount: 42`, the arguments are the job, `'A-123'`, and an `OrderInput` with both fields. |
| ClientManager.ExampleHandleMissing | lib/zeebe/src/lib/zeebe.spec.ts:82-106 | `handleMissing` fails with `MissingVariableError('required')` on a job without that variable. |

## Behaviour worth noting

- `shutdown` (zeebe-client-manager.ts:152-155) awaits each worker's close in turn, so the first close that rejects ends it. That worker and every later one stay tracked, and the client and promise are left as they were. `Manager.Shutdown` states this.
- A rejected connection promise stays stored (zeebe-client-manager.ts:49-53). Every later `getZeebeClient` call rejects with the same error, without a new connection run, until `shutdown` clears it. `Manager.GetZeebeClient` states this.
- `enableGracefulShutdown` (zeebe-client-manager.ts:133-140) registers one listener per signal again on every call. `Manager.EnableGracefulShutdown` states this.

## Left out

- The Camunda 8 SDK is not modelled. SDK objects are opaque handles, and the `configuration` and `camundaOptions` passed through to it are dropped. The outcomes of `getZeebeGrpcApiClient` with `topology()`, of each `close()` (zeebe-client-manager.ts:153, 158) and of `closeAllClients()` (:163) are supplied by the caller, failures included. `new Camunda8(...)` (:40), `getOperateApiClient` (:59), `getTasklistApiClient` (:66) and `createWorker` (:105, :119) are assumed never to throw, and the model has no failing outcome for them.
- ClientManager.Manager.constructor: assumes `new Camunda8(...)` (zeebe-client-manager.ts:40) does not throw. In the source a throw there makes construction itself throw.
- ClientManager.Manager.RegisterWorker: assumes `createWorker` (zeebe-client-manager.ts:105) does not throw. In the source a throw there rejects `registerWorker` with no worker tracked, after the client has been obtained.
- ClientManager.Manager.RegisterDecoratedWorkers: assumes `createWorker` (zeebe-client-manager.ts:119) does not throw. In the source a throw there rejects `registerDecoratedWorkers` at that definition. The workers created before it stay tracked, and no worker is created for the remaining definitions and instances.
- `deployResources`, `publishMessage`, `completeJob` (zeebe-client-manager.ts:71-90) are not modelled. Each only awaits `getZeebeClient` and forwards to the SDK, so there is nothing to state beyond `GetZeebeClient`.
- `wait` (zeebe-client-manager.ts:227-229) and timers are not modelled. `EstablishGrpcClient` records the requested delays instead of sleeping.
- Process signals are reduced to a flag and a list. `process.once`, `process.off`, `process.exit` and the listener body (shutdown then exit) are not modelled. Whether `process` exists is a flag, and each listener is the name of the signal it detaches.
- Concurrency is not modelled. The operations run one at a time, so two overlapping `getZeebeClient` calls sharing one promise are not represented.
- Reflection is taken as given:
  - The prototype chain of an instance is a sequence of class names, most-derived first.
  - `Function.length` is the descriptor's `arity`.
  - `typeof instance[key] === 'function'` is membership in the instance's `callable` set.
  - `target.constructor` is the owner class.
  - A `WeakMap` is an ordinary map, so garbage collection is not modelled.
  - Decorators on static members are not modelled.
- Inherited non-method properties are not modelled. `source[name]` in `resolveVariable` also sees properties such as `constructor`; the model reads own variables only.
- Numbers are unbounded integers. `NaN`, fractions and negative counts are not modelled.
- Transforms and factories are opaque. A transform is a pure function of the value and the job. A factory's constructor is its class name and field defaults, with no side effects.
- ClientManager.MergeRetry: a field present but set to `undefined` in `options.retry` overrides the default with `undefined` under object spread. The model treats it as absent.
- ClientManager.Manager.RegisterDecoratedWorkers: the workers created are stated to be distinct from the tracked ones (`Valid`), but not to be newly allocated. Each one's options and handler are stated.
- The `errors.ts` classes are modelled as values. Only their names, messages and fields are kept, not the JavaScript `Error` prototype wiring or stack traces.
