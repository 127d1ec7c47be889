/** The client manager: retry settings, the bounded back-off connection loop,
    the cached gRPC client, the tracked workers, the argument array each
    decorated handler builds, and shutdown. SDK calls are replaced by outcomes
    the caller supplies; SDK objects are opaque handles. */
module ClientManager {
  import opened ZeebeTypes
  import opened ParameterResolution
  import opened WorkerRegistry

  function Max(a: int, b: int): int {
    if a < b then b else a
  }

  function Min(a: int, b: int): int {
    if a < b then a else b
  }

  // ---------------------------------------------------------------------
  // Retry settings

  /** `DEFAULT_RETRY`. */
  const DefaultRetry := RetryConfig(3, 1000, 5000)

  /** The retry settings the constructor keeps: each field given in
      `options.retry` replaces the default for that field. */
  function MergeRetry(options: ManagerOptions): (r: RetryConfig)
    ensures options.retry.None? ==> r == RetryConfig(3, 1000, 5000)
    ensures options.retry.Some? ==>
      var given := options.retry.value;
      && (given.maxAttempts.Some? ==> r.maxAttempts == given.maxAttempts.value)
      && (given.maxAttempts.None? ==> r.maxAttempts == 3)
      && (given.initialDelayMs.Some? ==> r.initialDelayMs == given.initialDelayMs.value)
      && (given.initialDelayMs.None? ==> r.initialDelayMs == 1000)
      && (given.maxDelayMs.Some? ==> r.maxDelayMs == given.maxDelayMs.value)
      && (given.maxDelayMs.None? ==> r.maxDelayMs == 5000)
  {
    var given := options.retry.GetOr(RetryOptions(None, None, None));
    RetryConfig(
      given.maxAttempts.GetOr(DefaultRetry.maxAttempts),
      given.initialDelayMs.GetOr(DefaultRetry.initialDelayMs),
      given.maxDelayMs.GetOr(DefaultRetry.maxDelayMs))
  }

  // ---------------------------------------------------------------------
  // Back-off and connection, as a specification

  /** The `i`-th wait of the connection loop (from 0): the initial delay,
      then each time the previous one doubled and capped at `cap`. */
  function DelayAt(initial: int, cap: int, i: nat): int {
    if i == 0 then initial else Min(DelayAt(initial, cap, i - 1) * 2, cap)
  }

  /** The first `n` waits, in order. */
  function Waits(initial: int, cap: int, n: nat): seq<int> {
    if n == 0 then [] else Waits(initial, cap, n - 1) + [DelayAt(initial, cap, n - 1)]
  }

  /** `Waits` lists exactly the waits `DelayAt` defines. */
  lemma {:induction false} WaitsAt(initial: int, cap: int, n: nat)
    ensures |Waits(initial, cap, n)| == n
    ensures forall i :: 0 <= i < n ==> Waits(initial, cap, n)[i] == DelayAt(initial, cap, i)
  {
    if n > 0 {
      WaitsAt(initial, cap, n - 1);
    }
  }

  function Pow2(n: nat): (r: nat)
    ensures r >= 1
  {
    if n == 0 then 1 else 2 * Pow2(n - 1)
  }

  /** Closed form of the back-off: after the first wait, the `i`-th wait is
      `initial * 2^i` capped at `cap` (for a non-negative cap). */
  lemma {:induction false} DelayClosedForm(initial: int, cap: int, i: nat)
    requires cap >= 0 && i >= 1
    ensures DelayAt(initial, cap, i) == Min(initial * Pow2(i), cap)
  {
    if i > 1 {
      DelayClosedForm(initial, cap, i - 1);
      assert initial * Pow2(i) == 2 * (initial * Pow2(i - 1));
    }
  }

  /** With `0 <= initial <= cap`, waits never shrink and never exceed the
      cap. */
  lemma {:induction false} DelayBounded(initial: int, cap: int, i: nat)
    requires 0 <= initial <= cap
    ensures initial <= DelayAt(initial, cap, i) <= cap
    ensures DelayAt(initial, cap, i) <= DelayAt(initial, cap, i + 1)
  {
    if i > 0 {
      DelayBounded(initial, cap, i - 1);
    }
  }

  /** The default settings wait 1000 ms and then 2000 ms between the three
      attempts, and a longer sequence settles at 5000 ms. */
  lemma {:induction false} DefaultDelays()
    ensures DelayAt(1000, 5000, 0) == 1000
    ensures DelayAt(1000, 5000, 1) == 2000
    ensures DelayAt(1000, 5000, 2) == 4000
    ensures DelayAt(1000, 5000, 3) == 5000
  {
  }

  /** An SDK gRPC client handle. */
  datatype GrpcClient = GrpcClient(id: nat)

  /** One connection attempt: a client whose topology check succeeded, or
      the error the attempt threw. */
  datatype Attempt = Connected(client: GrpcClient) | Unreachable(error: Value)

  const ConnectFailureMessage := "Failed to connect to Zeebe gRPC API"

  /** The number of attempts the loop may make. */
  function AttemptBudget(retry: RetryConfig): (n: nat)
    ensures n == Max(retry.maxAttempts, 0)
  {
    if retry.maxAttempts > 0 then retry.maxAttempts else 0
  }

  /** The first attempt from `from` on, below `n`, that connects (`n` when
      none does). */
  function FirstConnected(outcome: nat -> Attempt, from: nat, n: nat): (i: nat)
    requires from <= n
    ensures from <= i <= n
    ensures i < n ==> outcome(i).Connected?
    ensures forall j :: from <= j < i ==> outcome(j).Unreachable?
    decreases n - from
  {
    if from == n then n
    else if outcome(from).Connected? then from
    else FirstConnected(outcome, from + 1, n)
  }

  /** What `establishGrpcClient` settles to when attempt `i` has outcome
      `outcome(i)`: the client of the first successful attempt within the
      budget, or a `ZeebeConnectionError` caused by the last failure. */
  function Connection(retry: RetryConfig, outcome: nat -> Attempt): (r: Result<GrpcClient, ConnectionError>)
    ensures r.Success? <==> exists i :: 0 <= i < Max(retry.maxAttempts, 0) && outcome(i).Connected?
    ensures r.Success? ==> exists i :: 0 <= i < Max(retry.maxAttempts, 0) && outcome(i).Connected? && r.value == outcome(i).client
                                     && forall j :: 0 <= j < i ==> outcome(j).Unreachable?
    ensures r.Failure? ==> r.error.message == "Failed to connect to Zeebe gRPC API"
    ensures r.Failure? && retry.maxAttempts <= 0 ==> r.error.cause == Undefined
    ensures r.Failure? && retry.maxAttempts > 0 ==> r.error.cause == outcome(retry.maxAttempts - 1).error
  {
    var n := AttemptBudget(retry);
    var i := FirstConnected(outcome, 0, n);
    if i < n then Success(outcome(i).client)
    else Failure(ConnectionError(ConnectFailureMessage, if n == 0 then Undefined else outcome(n - 1).error))
  }

  /** The first attempt to connect decides the connection. */
  lemma {:induction false} ConnectedAt(retry: RetryConfig, outcome: nat -> Attempt, i: nat)
    requires i < AttemptBudget(retry) && outcome(i).Connected?
    requires forall j :: 0 <= j < i ==> outcome(j).Unreachable?
    ensures Connection(retry, outcome) == Success(outcome(i).client)
  {
    var k := FirstConnected(outcome, 0, AttemptBudget(retry));
    assert k <= i;
  }

  /** When no attempt in the budget connects, the connection fails with the
      last attempt's error. */
  lemma {:induction false} NeverConnected(retry: RetryConfig, outcome: nat -> Attempt)
    requires forall j :: 0 <= j < AttemptBudget(retry) ==> outcome(j).Unreachable?
    ensures var n := AttemptBudget(retry);
      Connection(retry, outcome) == Failure(ConnectionError(ConnectFailureMessage, if n == 0 then Undefined else outcome(n - 1).error))
  {
    var n := AttemptBudget(retry);
    assert FirstConnected(outcome, 0, n) == n;
  }

  // ---------------------------------------------------------------------
  // The argument array of a decorated handler, as a specification

  /** Position of the first rule, in sequence order, that fails to resolve
      (`|rules|` when none does). */
  function FirstFailure(job: Job, rules: seq<ParameterRule>): (i: nat)
    ensures i <= |rules|
    ensures i < |rules| ==> ResolveParameter(rules[i], job).Failure?
    ensures forall j :: 0 <= j < i ==> ResolveParameter(rules[j], job).Success?
  {
    if rules == [] then 0
    else if ResolveParameter(rules[0], job).Failure? then 0
    else 1 + FirstFailure(job, rules[1..])
  }

  /** Length of the argument array: the declared count, grown by every rule
      whose index lies beyond it. */
  function Width(count: nat, rules: seq<ParameterRule>): (w: nat)
    ensures w >= count
    ensures forall j :: 0 <= j < |rules| ==> rules[j].index < w
    ensures w == count || exists j :: 0 <= j < |rules| && w == rules[j].index + 1
  {
    if rules == [] then count
    else
      var w := Width(count, rules[..|rules| - 1]);
      var last := rules[|rules| - 1];
      assert forall j :: 0 <= j < |rules| - 1 ==> rules[..|rules| - 1][j] == rules[j];
      if last.index + 1 > w then last.index + 1 else w
  }

  /** The value slot `k` holds after the rule loop: the value of the last
      rule for `k`, `Undefined` when no rule targets `k`. */
  function SlotValue(job: Job, rules: seq<ParameterRule>, k: nat): Value {
    if rules == [] then Undefined
    else
      var last := rules[|rules| - 1];
      if last.index == k then
        (match ResolveParameter(last, job) case Success(v) => v case Failure(_) => Undefined)
      else SlotValue(job, rules[..|rules| - 1], k)
  }

  /** The fill pass: an `undefined` slot receives the job itself. */
  function Fill(job: Job, v: Value): (r: Value)
    ensures v != Undefined ==> r == v
    ensures v == Undefined ==> r == JobRef(job)
  {
    if v.Undefined? then JobRef(job) else v
  }

  /** The arguments a decorated handler passes to its method, or the error
      of the first rule that fails. */
  function Arguments(job: Job, count: nat, rules: seq<ParameterRule>): (r: Result<seq<Value>, MissingVariableError>)
    ensures r.Failure? <==> exists i :: 0 <= i < |rules| && ResolveParameter(rules[i], job).Failure?
    ensures r.Failure? ==>
      exists i :: && 0 <= i < |rules| && ResolveParameter(rules[i], job).Failure?
                  && r.error == ResolveParameter(rules[i], job).error
                  && forall j :: 0 <= j < i ==> ResolveParameter(rules[j], job).Success?
    ensures r.Success? ==>
      && |r.value| == Width(count, rules) && |r.value| >= count
      && forall k :: 0 <= k < |r.value| ==> r.value[k] != Undefined
  {
    var f := FirstFailure(job, rules);
    if f < |rules| then Failure(ResolveParameter(rules[f], job).error)
    else
      var w := Width(count, rules);
      Success(seq(w, k requires 0 <= k < w => Fill(job, SlotValue(job, rules, k))))
  }

  lemma {:induction false} SlotValueOfRule(job: Job, rules: seq<ParameterRule>, i: nat)
    requires i < |rules|
    requires forall p, q :: 0 <= p < q < |rules| ==> rules[p].index != rules[q].index
    requires ResolveParameter(rules[i], job).Success?
    ensures SlotValue(job, rules, rules[i].index) == ResolveParameter(rules[i], job).value
  {
    var prefix := rules[..|rules| - 1];
    if i < |rules| - 1 {
      assert prefix[i] == rules[i];
      assert forall p, q :: 0 <= p < q < |prefix| ==> prefix[p].index != prefix[q].index by {
        forall p, q | 0 <= p < q < |prefix| ensures prefix[p].index != prefix[q].index {
          assert prefix[p] == rules[p] && prefix[q] == rules[q];
        }
      }
      SlotValueOfRule(job, prefix, i);
    }
  }

  lemma {:induction false} SlotValueNoRule(job: Job, rules: seq<ParameterRule>, k: nat)
    requires forall j :: 0 <= j < |rules| ==> rules[j].index != k
    ensures SlotValue(job, rules, k) == Undefined
  {
    if rules != [] {
      var prefix := rules[..|rules| - 1];
      assert forall j :: 0 <= j < |prefix| ==> prefix[j] == rules[j];
      SlotValueNoRule(job, prefix, k);
    }
  }

  /** What each argument slot holds, when every rule resolves and no two
      rules share an index: a rule's value when it is not `undefined`, and
      the job in every other slot (no rule, or a rule that resolved to
      `undefined`). */
  lemma {:induction false} ArgumentsSlots(job: Job, count: nat, rules: seq<ParameterRule>)
    requires forall p, q :: 0 <= p < q < |rules| ==> rules[p].index != rules[q].index
    requires forall j :: 0 <= j < |rules| ==> ResolveParameter(rules[j], job).Success?
    ensures Arguments(job, count, rules).Success?
    ensures var args := Arguments(job, count, rules).value;
      && |args| == Width(count, rules)
      && (forall j :: 0 <= j < |rules| && ResolveParameter(rules[j], job).value != Undefined ==>
            args[rules[j].index] == ResolveParameter(rules[j], job).value)
      && (forall j :: 0 <= j < |rules| && ResolveParameter(rules[j], job).value == Undefined ==>
            args[rules[j].index] == JobRef(job))
      && (forall k :: 0 <= k < |args| && (forall j :: 0 <= j < |rules| ==> rules[j].index != k) ==>
            args[k] == JobRef(job))
  {
    var args := Arguments(job, count, rules).value;
    forall j | 0 <= j < |rules|
      ensures args[rules[j].index] == Fill(job, ResolveParameter(rules[j], job).value)
    {
      SlotValueOfRule(job, rules, j);
    }
    forall k | 0 <= k < |args| && (forall j :: 0 <= j < |rules| ==> rules[j].index != k)
      ensures args[k] == JobRef(job)
    {
      SlotValueNoRule(job, rules, k);
    }
  }

  /** With rules strictly ascending by index (as `getWorkerMetadata` yields
      them), the error raised is that of the failing required rule with the
      lowest index. */
  lemma {:induction false} LowestIndexFails(job: Job, count: nat, rules: seq<ParameterRule>)
    requires forall p, q :: 0 <= p < q < |rules| ==> rules[p].index < rules[q].index
    ensures Arguments(job, count, rules).Failure? <==>
      exists j :: 0 <= j < |rules| && ResolveParameter(rules[j], job).Failure?
    ensures Arguments(job, count, rules).Failure? ==>
      exists j :: 0 <= j < |rules| && ResolveParameter(rules[j], job).Failure?
        && Arguments(job, count, rules).error == ResolveParameter(rules[j], job).error
        && forall q :: 0 <= q < |rules| && ResolveParameter(rules[q], job).Failure? ==> rules[j].index <= rules[q].index
  {
  }

  /** `handleOrder(job, @Variable('orderId'), @VariablesAsType(OrderInput))`
      of the decorated example worker receives the job in its undecorated
      first slot, the order id, and an `OrderInput` built from the job's
      variables. */
  lemma {:induction false} ExampleHandleOrder()
    ensures var vars := map["orderId" := Str("A-123"), "amount" := Number(42)];
      var job := Job("1", "test", Some(vars));
      var orderInput := Factory("OrderInput", map["amount" := Number(0)]);
      var rules := [VariableRule(1, Some("orderId"), false, None), VariablesAsTypeRule(2, orderInput)];
      Arguments(job, 3, rules) ==
        Success([JobRef(job), Str("A-123"), Instance("OrderInput", map["amount" := Number(42), "orderId" := Str("A-123")])])
  {
    var vars := map["orderId" := Str("A-123"), "amount" := Number(42)];
    var job := Job("1", "test", Some(vars));
    var orderInput := Factory("OrderInput", map["amount" := Number(0)]);
    var rules := [VariableRule(1, Some("orderId"), false, None), VariablesAsTypeRule(2, orderInput)];
    assert rules[..1] == [rules[0]] && rules[..1][..0] == [];
    assert rules[1..] == [rules[1]] && rules[1..][1..] == [];
    assert map["amount" := Number(0)] + vars == map["amount" := Number(42), "orderId" := Str("A-123")];
    assert FirstFailure(job, rules) == 2;
    assert Width(count := 3, rules := rules) == 3;
    assert SlotValue(job, rules, 0) == SlotValue(job, rules[..1], 0) == SlotValue(job, [], 0);
    assert SlotValue(job, rules, 1) == Str("A-123");
    var args := Arguments(job, 3, rules).value;
    assert args == [JobRef(job), Str("A-123"), Instance("OrderInput", map["amount" := Number(42), "orderId" := Str("A-123")])];
  }

  /** `handleMissing(@Variable({name: 'required', required: true}))` of the
      decorated example worker fails on a job without that variable. */
  lemma {:induction false} ExampleHandleMissing()
    ensures var job := Job("1", "test", Some(map[]));
      Arguments(job, 1, [VariableRule(0, Some("required"), true, None)]) == Failure(MissingVariableError("required"))
  {
  }

  // ---------------------------------------------------------------------
  // Instances, handlers, workers

  /** An SDK REST client handle (Operate or Tasklist). */
  datatype ApiClient = ApiClient(id: nat)

  /** A worker-class instance: its identity, its class chain (most-derived
      first) and the method keys whose property on it is a function. */
  datatype ObjectRef = ObjectRef(id: nat, chain: seq<ClassId>, callable: set<PropertyKey>)

  /** The argument of `registerDecoratedWorkers`: one instance or an array. */
  datatype Instances = Single(instance: ObjectRef) | Many(list: seq<ObjectRef>)

  /** `Array.isArray(instances) ? instances : [instances]`. */
  function Collection(instances: Instances): (r: seq<ObjectRef>)
    ensures instances.Single? ==> |r| == 1 && r[0] == instances.instance
    ensures instances.Many? ==> r == instances.list
  {
    match instances
    case Single(instance) => [instance]
    case Many(list) => list
  }

  /** A task handler: the one built for a decorated method of an instance,
      or one supplied by the caller of `registerWorker` (opaque here). */
  datatype Handler = Decorated(instance: ObjectRef, definition: WorkerMetadata) | Supplied(id: nat)

  /** A call of a worker method on an instance with its arguments. */
  datatype Invocation = Invocation(receiver: nat, methodKey: PropertyKey, args: seq<Value>)

  function NotCallableMessage(key: PropertyKey): string {
    "Worker method " + KeyText(key) + " is not callable"
  }

  /** `createHandler`: a handler bound to the instance and its record, or a
      `TypeError` when the instance's property is not a function. */
  function CreateHandler(instance: ObjectRef, definition: WorkerMetadata): (r: Result<Handler, TypeError>)
    ensures r.Success? <==> definition.propertyKey in instance.callable
    ensures r.Success? ==> r.value == Decorated(instance, definition)
    ensures r.Failure? ==> r.error.message == "Worker method " + KeyText(definition.propertyKey) + " is not callable"
  {
    if definition.propertyKey in instance.callable then Success(Decorated(instance, definition))
    else Failure(TypeError(NotCallableMessage(definition.propertyKey)))
  }

  /** A worker the SDK created; its identity is what the tracked set holds. */
  class Worker {
    const options: WorkerOptions
    const handler: Handler

    constructor (options: WorkerOptions, handler: Handler)
      ensures this.options == options && this.handler == handler
    {
      this.options := options;
      this.handler := handler;
    }
  }

  /** One worker `registerDecoratedWorkers` is to create: an instance and
      one of its metadata records. */
  datatype Binding = Binding(instance: ObjectRef, definition: WorkerMetadata)

  function Bindings(instance: ObjectRef, records: seq<WorkerMetadata>): (r: seq<Binding>)
    ensures |r| == |records|
    ensures forall j :: 0 <= j < |r| ==> r[j] == Binding(instance, records[j])
  {
    seq(|records|, j requires 0 <= j < |records| => Binding(instance, records[j]))
  }

  /** Every worker to create for `instances`, given each one's records:
      instance by instance, and for each its records in order. */
  function PlanOf(instances: seq<ObjectRef>, records: seq<seq<WorkerMetadata>>): seq<Binding>
    requires |records| == |instances|
  {
    if instances == [] then []
    else
      var n := |instances| - 1;
      PlanOf(instances[..n], records[..n]) + Bindings(instances[n], records[n])
  }

  /** The metadata records of each instance. */
  function RecordsOf(tables: Tables, instances: seq<ObjectRef>): (r: seq<seq<WorkerMetadata>>)
    ensures |r| == |instances|
    ensures forall i :: 0 <= i < |r| ==> r[i] == Metadata(tables, instances[i].chain)
  {
    seq(|instances|, i requires 0 <= i < |instances| => Metadata(tables, instances[i].chain))
  }

  /** Every worker `registerDecoratedWorkers` is to create for `instances`. */
  function Plan(tables: Tables, instances: seq<ObjectRef>): seq<Binding> {
    PlanOf(instances, RecordsOf(tables, instances))
  }

  lemma {:induction false} PlanOfSnoc(instances: seq<ObjectRef>, records: seq<seq<WorkerMetadata>>, o: ObjectRef, rs: seq<WorkerMetadata>)
    requires |records| == |instances|
    ensures PlanOf(instances + [o], records + [rs]) == PlanOf(instances, records) + Bindings(o, rs)
  {
    assert (instances + [o])[..|instances|] == instances;
    assert (records + [rs])[..|records|] == records;
  }

  /** The plan for a prefix of the instances is a prefix of the plan. */
  lemma {:induction false} PlanOfPrefix(instances: seq<ObjectRef>, records: seq<seq<WorkerMetadata>>, i: nat)
    requires |records| == |instances| && i <= |instances|
    ensures Prefix(PlanOf(instances[..i], records[..i]), PlanOf(instances, records))
  {
    if i < |instances| {
      var n := |instances| - 1;
      assert instances[..i] == instances[..n][..i];
      assert records[..i] == records[..n][..i];
      PlanOfPrefix(instances[..n], records[..n], i);
    } else {
      assert instances[..i] == instances;
      assert records[..i] == records;
    }
  }

  /** One more instance extends the plan by that instance's bindings. */
  lemma {:induction false} PlanOfNext(instances: seq<ObjectRef>, records: seq<seq<WorkerMetadata>>, i: nat)
    requires |records| == |instances| && i < |instances|
    ensures PlanOf(instances[..i + 1], records[..i + 1]) == PlanOf(instances[..i], records[..i]) + Bindings(instances[i], records[i])
  {
    assert instances[..i + 1] == instances[..i] + [instances[i]];
    assert records[..i + 1] == records[..i] + [records[i]];
    PlanOfSnoc(instances[..i], records[..i], instances[i], records[i]);
  }

  /** The first binding whose method is not callable (`|plan|` if none). */
  function FirstUncallable(plan: seq<Binding>): (k: nat)
    ensures k <= |plan|
    ensures k < |plan| ==> plan[k].definition.propertyKey !in plan[k].instance.callable
    ensures forall j :: 0 <= j < k ==> plan[j].definition.propertyKey in plan[j].instance.callable
  {
    if plan == [] then 0
    else if plan[0].definition.propertyKey !in plan[0].instance.callable then 0
    else 1 + FirstUncallable(plan[1..])
  }

  ghost predicate Prefix(p: seq<Binding>, s: seq<Binding>) {
    |p| <= |s| && s[..|p|] == p
  }

  ghost predicate AllCallable(bs: seq<Binding>) {
    forall q :: 0 <= q < |bs| ==> bs[q].definition.propertyKey in bs[q].instance.callable
  }

  /** The binding handled at step `j` of an instance's records. */
  lemma {:induction false} NextBinding(level: seq<Binding>, instance: ObjectRef, records: seq<WorkerMetadata>, j: nat)
    requires level == Bindings(instance, records) && j < |records|
    ensures level[..j + 1] == level[..j] + [Binding(instance, records[j])]
    ensures Prefix(level[..j] + [Binding(instance, records[j])], level)
  {
    assert level[..j + 1] == level[..j] + [level[j]];
  }

  /** A binding that is not callable, right after callable ones, is where
      the plan stops. */
  lemma {:induction false} StopsAt(plan: seq<Binding>, cur: seq<Binding>, next: Binding)
    requires Prefix(cur + [next], plan) && AllCallable(cur)
    requires next.definition.propertyKey !in next.instance.callable
    ensures FirstUncallable(plan) == |cur| && plan[..|cur|] == cur && plan[|cur|] == next
  {
    assert plan[|cur|] == (cur + [next])[|cur|];
    assert plan[..|cur|] == (cur + [next])[..|cur|] == cur;
  }

  /** `ws` are the workers created for `plan`, one per binding, in order,
      each with the record's options and a handler for that record. */
  ghost predicate Creates(ws: seq<Worker>, plan: seq<Binding>) {
    && |ws| == |plan|
    && forall q :: 0 <= q < |ws| ==>
         ws[q].options == plan[q].definition.options && ws[q].handler == Decorated(plan[q].instance, plan[q].definition)
  }

  ghost predicate Distinct(ws: seq<Worker>) {
    forall i, j :: 0 <= i < j < |ws| ==> ws[i] != ws[j]
  }

  lemma {:induction false} DistinctSuffix(ws: seq<Worker>, i: nat)
    requires Distinct(ws) && i <= |ws|
    ensures Distinct(ws[i..])
  {
    forall p, q | 0 <= p < q < |ws[i..]| ensures ws[i..][p] != ws[i..][q] {
      assert ws[i..][p] == ws[i + p] && ws[i..][q] == ws[i + q];
    }
  }

  lemma {:induction false} DistinctAppend(ws: seq<Worker>, w: Worker)
    requires Distinct(ws) && w !in ws
    ensures Distinct(ws + [w])
  {
  }

  lemma {:induction false} CreatesAppend(ws: seq<Worker>, plan: seq<Binding>, w: Worker, b: Binding)
    requires Creates(ws, plan)
    requires w.options == b.definition.options && w.handler == Decorated(b.instance, b.definition)
    ensures Creates(ws + [w], plan + [b])
  {
  }

  lemma {:induction false} CreatesConcat(ws1: seq<Worker>, plan1: seq<Binding>, ws2: seq<Worker>, plan2: seq<Binding>)
    requires Creates(ws1, plan1) && Creates(ws2, plan2)
    ensures Creates(ws1 + ws2, plan1 + plan2)
  {
  }

  /** One instance whose records were all callable: the plan, the workers
      created and the tracked list grow together. */
  lemma {:induction false} TrackedStep(instances: seq<ObjectRef>, records: seq<seq<WorkerMetadata>>, i: nat,
                    before: seq<Worker>, made: seq<Worker>, added: seq<Worker>, done: seq<Binding>)
    requires |records| == |instances| && i < |instances|
    requires done == PlanOf(instances[..i], records[..i]) && AllCallable(done) && Creates(made, done)
    requires var level := Bindings(instances[i], records[i]);
      FirstUncallable(level) == |level| && Creates(added, level[..|level|])
    ensures var level := Bindings(instances[i], records[i]);
      && PlanOf(instances[..i + 1], records[..i + 1]) == done + level
      && AllCallable(done + level)
      && Creates(made + added, done + level)
      && before + made + added == before + (made + added)
  {
    var level := Bindings(instances[i], records[i]);
    PlanOfNext(instances, records, i);
    assert level[..|level|] == level;
    CreatesConcat(made, done, added, level);
  }

  /** One instance with a record whose method is not callable: the run
      stops there, with the workers created so far tracked. */
  lemma {:induction false} StoppedStep(instances: seq<ObjectRef>, records: seq<seq<WorkerMetadata>>, i: nat,
                                       before: seq<Worker>, made: seq<Worker>, added: seq<Worker>, done: seq<Binding>)
    requires |records| == |instances| && i < |instances|
    requires done == PlanOf(instances[..i], records[..i]) && AllCallable(done) && Creates(made, done)
    requires var level := Bindings(instances[i], records[i]);
      FirstUncallable(level) < |level| && Creates(added, level[..FirstUncallable(level)])
    ensures var level := Bindings(instances[i], records[i]);
      var k := FirstUncallable(level);
      Registered(before, before + made + added, PlanOf(instances, records),
                 Fail(NotCallable(TypeError(NotCallableMessage(level[k].definition.propertyKey)))))
  {
    PlanOfNext(instances, records, i);
    PlanOfPrefix(instances, records, i + 1);
    RegisteredUntil(before, made, added, PlanOf(instances, records), done, Bindings(instances[i], records[i]));
  }

  /** A run that stops inside one instance's records stops at the same
      binding of the whole plan. */
  lemma {:induction false} StopsInside(plan: seq<Binding>, done: seq<Binding>, level: seq<Binding>)
    requires Prefix(done + level, plan) && AllCallable(done)
    requires FirstUncallable(level) < |level|
    ensures var k := FirstUncallable(level);
      && FirstUncallable(plan) == |done| + k
      && plan[..|done| + k] == done + level[..k]
      && plan[|done| + k] == level[k]
  {
    var k := FirstUncallable(level);
    assert (done + level)[..|done| + k] == done + level[..k];
    StopsAt(plan, done + level[..k], level[k]);
  }

  /** What `registerDecoratedWorkers` leaves behind once connected: after
      the workers tracked `before`, one worker per binding of `plan` up to
      the first whose method is not callable, and that binding's
      `TypeError` as the outcome (success when there is none). */
  ghost predicate Registered(before: seq<Worker>, after: seq<Worker>, plan: seq<Binding>, res: Outcome<RegistrationError>) {
    var k := FirstUncallable(plan);
    && |before| <= |after| && after[..|before|] == before
    && Creates(after[|before|..], plan[..k])
    && (k == |plan| ==> res == Pass)
    && (k < |plan| ==> res == Fail(NotCallable(TypeError(NotCallableMessage(plan[k].definition.propertyKey)))))
  }

  lemma {:induction false} RegisteredAll(before: seq<Worker>, made: seq<Worker>, plan: seq<Binding>)
    requires Creates(made, plan) && AllCallable(plan)
    ensures Registered(before, before + made, plan, Pass)
  {
    assert FirstUncallable(plan) == |plan| && plan[..|plan|] == plan;
    RegisteredFrom(before, made, plan, Pass);
  }

  lemma {:induction false} RegisteredUntil(before: seq<Worker>, made: seq<Worker>, added: seq<Worker>, plan: seq<Binding>,
                        done: seq<Binding>, level: seq<Binding>)
    requires Prefix(done + level, plan) && AllCallable(done) && Creates(made, done)
    requires FirstUncallable(level) < |level| && Creates(added, level[..FirstUncallable(level)])
    ensures var k := FirstUncallable(level);
      Registered(before, before + made + added, plan,
                 Fail(NotCallable(TypeError(NotCallableMessage(level[k].definition.propertyKey)))))
  {
    var k := FirstUncallable(level);
    var n := |done| + k;
    var res := Fail(NotCallable(TypeError(NotCallableMessage(level[k].definition.propertyKey))));
    StopsInside(plan, done, level);
    assert FirstUncallable(plan) == n && plan[..n] == done + level[..k] && plan[n] == level[k];
    CreatesConcat(made, done, added, level[..k]);
    assert Creates(made + added, plan[..n]);
    RegisteredFrom(before, made + added, plan, res);
    WorkersAssoc(before, made, added);
  }

  lemma {:induction false} WorkersAssoc(a: seq<Worker>, b: seq<Worker>, c: seq<Worker>)
    ensures a + b + c == a + (b + c)
  {
  }

  /** `Registered` from its parts, for the workers `ws` added after `before`. */
  lemma {:induction false} RegisteredFrom(before: seq<Worker>, ws: seq<Worker>, plan: seq<Binding>, res: Outcome<RegistrationError>)
    requires var k := FirstUncallable(plan);
      && Creates(ws, plan[..k])
      && (k == |plan| ==> res == Pass)
      && (k < |plan| ==> res == Fail(NotCallable(TypeError(NotCallableMessage(plan[k].definition.propertyKey)))))
    ensures Registered(before, before + ws, plan, res)
  {
    assert (before + ws)[..|before|] == before;
    assert (before + ws)[|before|..] == ws;
  }

  /** The first tracked worker whose close fails (`|ws|` if none). */
  function FirstIn(ws: seq<Worker>, failing: set<Worker>): (f: nat)
    ensures f <= |ws|
    ensures f < |ws| ==> ws[f] in failing
    ensures forall j :: 0 <= j < f ==> ws[j] !in failing
  {
    if ws == [] then 0
    else if ws[0] in failing then 0
    else 1 + FirstIn(ws[1..], failing)
  }

  /** `Set.delete`: `ws` without `w`. */
  function Remove(ws: seq<Worker>, w: Worker): (r: seq<Worker>)
    ensures w !in r
    ensures forall x :: x in ws && x != w ==> x in r
    ensures forall x :: x in r ==> x in ws
  {
    if ws == [] then []
    else (if ws[0] == w then [] else [ws[0]]) + Remove(ws[1..], w)
  }

  lemma {:induction false} RemoveFirst(ws: seq<Worker>)
    requires ws != []
    requires forall i, j :: 0 <= i < j < |ws| ==> ws[i] != ws[j]
    ensures Remove(ws, ws[0]) == ws[1..]
  {
    RemoveAbsent(ws[1..], ws[0]);
  }

  /** Deleting the first of the remaining distinct workers leaves the rest. */
  lemma {:induction false} RemoveAt(ws: seq<Worker>, i: nat)
    requires Distinct(ws) && i < |ws|
    ensures Remove(ws[i..], ws[i]) == ws[i + 1..]
  {
    DistinctSuffix(ws, i);
    assert ws[i..][0] == ws[i] && ws[i..][1..] == ws[i + 1..];
    RemoveFirst(ws[i..]);
  }

  lemma {:induction false} RemoveAbsent(ws: seq<Worker>, w: Worker)
    requires w !in ws
    ensures Remove(ws, w) == ws
  {
    if ws != [] {
      RemoveAbsent(ws[1..], w);
    }
  }

  datatype RegistrationError = ConnectionFailed(cause: ConnectionError) | NotCallable(typeError: TypeError)

  /** Why `shutdown` rejected: a worker's close, the gRPC client's close,
      or the SDK's `closeAllClients`. */
  datatype ShutdownError = WorkerCloseFailed(worker: Worker) | ClientCloseFailed | CloseAllFailed

  const DefaultSignals: seq<string> := ["SIGINT", "SIGTERM"]

  // ---------------------------------------------------------------------
  // The manager

  /** `ZeebeClientManager`. `trackedWorkers` lists the tracked set in
      insertion order; `shutdownHandlers` holds, per registered listener,
      the signal it detaches. */
  class Manager {
    const retry: RetryConfig
    var trackedWorkers: seq<Worker>
    var zeebeClientPromise: Option<Result<GrpcClient, ConnectionError>>
    var zeebeClient: Option<GrpcClient>
    var operateClient: Option<ApiClient>
    var tasklistClient: Option<ApiClient>
    var shutdownHandlers: seq<string>
    /** How many times `establishGrpcClient` was started. */
    ghost var connectionRuns: nat
    /** Every `close()` called on a worker, in order. */
    ghost var closeCalls: seq<Worker>
    /** Every signal listener detached, in order. */
    ghost var detached: seq<string>

    /** The tracked set holds no worker twice, and a cached client is the
        value of the stored promise. */
    ghost predicate Valid()
      reads this
    {
      && Distinct(trackedWorkers)
      && (zeebeClient.Some? ==> zeebeClientPromise == Some(Success(zeebeClient.value)))
    }

    /** What awaiting the client yields from the current state, when a new
        connection run would see `outcome`. */
    ghost function Awaited(outcome: nat -> Attempt): Result<GrpcClient, ConnectionError>
      reads this
    {
      if zeebeClient.Some? then Success(zeebeClient.value)
      else if zeebeClientPromise.Some? then zeebeClientPromise.value
      else Connection(retry, outcome)
    }

    /** The connection state after awaiting `p`. */
    ghost predicate Settled(p: Result<GrpcClient, ConnectionError>)
      reads this
    {
      zeebeClientPromise == Some(p) && zeebeClient == (if p.Success? then Some(p.value) else None)
    }

    constructor (options: ManagerOptions)
      ensures Valid()
      ensures retry == MergeRetry(options)
      ensures trackedWorkers == [] && shutdownHandlers == []
      ensures zeebeClientPromise.None? && zeebeClient.None? && operateClient.None? && tasklistClient.None?
      ensures connectionRuns == 0 && closeCalls == [] && detached == []
    {
      retry := MergeRetry(options);
      trackedWorkers := [];
      zeebeClientPromise := None;
      zeebeClient := None;
      operateClient := None;
      tasklistClient := None;
      shutdownHandlers := [];
      connectionRuns := 0;
      closeCalls := [];
      detached := [];
    }

    /** `establishGrpcClient`: up to `maxAttempts` attempts; after each
        failure but the last, wait and double the delay up to the cap.
        `attempts` counts the attempts made and `waits` lists the delays
        requested, in order. */
    method EstablishGrpcClient(outcome: nat -> Attempt) returns (res: Result<GrpcClient, ConnectionError>, attempts: nat, waits: seq<int>)
      ensures res == Connection(retry, outcome)
      ensures 1 <= attempts <= retry.maxAttempts || (attempts == 0 && retry.maxAttempts <= 0)
      ensures forall i :: 0 <= i < attempts - 1 ==> outcome(i).Unreachable?
      ensures res.Success? ==> outcome(attempts - 1) == Connected(res.value)
      ensures res.Failure? ==> attempts == Max(retry.maxAttempts, 0)
      ensures |waits| == Max(attempts - 1, 0)
      ensures forall i :: 0 <= i < |waits| ==> waits[i] == DelayAt(retry.initialDelayMs, retry.maxDelayMs, i)
    {
      var maxAttempts, initial, cap := retry.maxAttempts, retry.initialDelayMs, retry.maxDelayMs;
      var attempt: nat := 0;
      var delay := initial;
      var lastError := Undefined;
      waits := [];
      while attempt < maxAttempts
        invariant attempt == 0 || attempt < maxAttempts
        invariant forall i :: 0 <= i < attempt ==> outcome(i).Unreachable?
        invariant lastError == if attempt == 0 then Undefined else outcome(attempt - 1).error
        invariant waits == Waits(initial, cap, attempt)
        invariant delay == DelayAt(initial, cap, attempt)
      {
        attempt := attempt + 1;
        var tried := outcome(attempt - 1);
        if tried.Connected? {
          ConnectedAt(retry, outcome, attempt - 1);
          WaitsAt(initial, cap, attempt - 1);
          return Success(tried.client), attempt, waits;
        }
        lastError := tried.error;
        if attempt >= maxAttempts {
          break;
        }
        waits := waits + [delay];
        delay := Min(delay * 2, cap);
      }
      NeverConnected(retry, outcome);
      WaitsAt(initial, cap, Max(attempt - 1, 0));
      res := Failure(ConnectionError(ConnectFailureMessage, lastError));
      attempts := attempt;
    }

    /** `getZeebeClient`: the cached client; otherwise await the stored
        promise, starting a connection run only when none is stored. A
        rejected promise stays stored. */
    method GetZeebeClient(outcome: nat -> Attempt) returns (res: Result<GrpcClient, ConnectionError>)
      requires Valid()
      modifies this
      ensures Valid()
      ensures res == old(Awaited(outcome)) && Settled(res)
      ensures connectionRuns == old(connectionRuns) + (if old(zeebeClientPromise).None? then 1 else 0)
      ensures trackedWorkers == old(trackedWorkers) && shutdownHandlers == old(shutdownHandlers)
      ensures operateClient == old(operateClient) && tasklistClient == old(tasklistClient)
      ensures closeCalls == old(closeCalls) && detached == old(detached)
    {
      if zeebeClient.Some? {
        return Success(zeebeClient.value);
      }
      if zeebeClientPromise.None? {
        var established, _, _ := EstablishGrpcClient(outcome);
        zeebeClientPromise := Some(established);
        connectionRuns := connectionRuns + 1;
      }
      res := zeebeClientPromise.value;
      if res.Success? {
        zeebeClient := Some(res.value);
      }
    }

    /** `getOperateClient`: created on first use (the SDK would hand out
        `made`), the same client afterwards. */
    method GetOperateClient(made: ApiClient) returns (client: ApiClient)
      requires Valid()
      modifies this
      ensures Valid()
      ensures client == (if old(operateClient).Some? then old(operateClient).value else made)
      ensures operateClient == Some(client)
      ensures trackedWorkers == old(trackedWorkers) && shutdownHandlers == old(shutdownHandlers)
      ensures zeebeClientPromise == old(zeebeClientPromise) && zeebeClient == old(zeebeClient)
      ensures tasklistClient == old(tasklistClient) && connectionRuns == old(connectionRuns)
      ensures closeCalls == old(closeCalls) && detached == old(detached)
    {
      if operateClient.None? {
        operateClient := Some(made);
      }
      client := operateClient.value;
    }

    /** `getTasklistClient`: created on first use, the same client
        afterwards. */
    method GetTasklistClient(made: ApiClient) returns (client: ApiClient)
      requires Valid()
      modifies this
      ensures Valid()
      ensures client == (if old(tasklistClient).Some? then old(tasklistClient).value else made)
      ensures tasklistClient == Some(client)
      ensures trackedWorkers == old(trackedWorkers) && shutdownHandlers == old(shutdownHandlers)
      ensures zeebeClientPromise == old(zeebeClientPromise) && zeebeClient == old(zeebeClient)
      ensures operateClient == old(operateClient) && connectionRuns == old(connectionRuns)
      ensures closeCalls == old(closeCalls) && detached == old(detached)
    {
      if tasklistClient.None? {
        tasklistClient := Some(made);
      }
      client := tasklistClient.value;
    }

    /** `registerWorker`: connect, create one worker with the given options
        and handler, and track it. */
    method RegisterWorker(options: WorkerOptions, handler: nat, outcome: nat -> Attempt) returns (res: Result<Worker, ConnectionError>)
      requires Valid()
      modifies this
      ensures Valid()
      ensures Settled(old(Awaited(outcome)))
      ensures connectionRuns == old(connectionRuns) + (if old(zeebeClientPromise).None? then 1 else 0)
      ensures res.Success? <==> old(Awaited(outcome)).Success?
      ensures res.Failure? ==> res.error == old(Awaited(outcome)).error && trackedWorkers == old(trackedWorkers)
      ensures res.Success? ==>
        && fresh(res.value) && res.value.options == options && res.value.handler == Supplied(handler)
        && trackedWorkers == old(trackedWorkers) + [res.value]
      ensures shutdownHandlers == old(shutdownHandlers)
      ensures operateClient == old(operateClient) && tasklistClient == old(tasklistClient)
      ensures closeCalls == old(closeCalls) && detached == old(detached)
    {
      var client := GetZeebeClient(outcome);
      if client.Failure? {
        return Failure(client.error);
      }
      var worker := new Worker(options, Supplied(handler));
      trackedWorkers := trackedWorkers + [worker];
      res := Success(worker);
    }

    /** `registerDecoratedWorkers`: connect, then for each instance and
        each of its metadata records create a handler and a worker and
        track the worker. A record whose method is not callable stops the
        run with a `TypeError`; the workers created before it stay
        tracked. */
    method RegisterDecoratedWorkers(registry: Registry, instances: Instances, outcome: nat -> Attempt)
      returns (res: Outcome<RegistrationError>)
      requires Valid() && registry.Valid()
      modifies this
      ensures Valid()
      ensures Settled(old(Awaited(outcome)))
      ensures connectionRuns == old(connectionRuns) + (if old(zeebeClientPromise).None? then 1 else 0)
      ensures old(Awaited(outcome)).Failure? ==>
        res == Fail(ConnectionFailed(old(Awaited(outcome)).error)) && trackedWorkers == old(trackedWorkers)
      ensures old(Awaited(outcome)).Success? ==>
        Registered(old(trackedWorkers), trackedWorkers, Plan(registry.tables, Collection(instances)), res)
      ensures shutdownHandlers == old(shutdownHandlers)
      ensures operateClient == old(operateClient) && tasklistClient == old(tasklistClient)
      ensures closeCalls == old(closeCalls) && detached == old(detached)
    {
      var client := GetZeebeClient(outcome);
      if client.Failure? {
        return Fail(ConnectionFailed(client.error));
      }
      res := TrackAll(registry, Collection(instances), RecordsOf(registry.tables, Collection(instances)));
    }

    /** The loop of `registerDecoratedWorkers` once connected: every
        instance in order, and for each its records in order. */
    method TrackAll(registry: Registry, collection: seq<ObjectRef>, ghost records: seq<seq<WorkerMetadata>>)
      returns (res: Outcome<RegistrationError>)
      requires Valid() && registry.Valid()
      requires |records| == |collection|
      requires forall j :: 0 <= j < |collection| ==> records[j] == Metadata(registry.tables, collection[j].chain)
      modifies this`trackedWorkers
      ensures Valid()
      ensures Registered(old(trackedWorkers), trackedWorkers, PlanOf(collection, records), res)
    {
      ghost var before := trackedWorkers;
      ghost var done: seq<Binding> := [];
      ghost var made: seq<Worker> := [];
      var i := 0;
      assert collection[..0] == [] && records[..0] == [];
      while i < |collection|
        invariant 0 <= i <= |collection|
        invariant Valid()
        invariant done == PlanOf(collection[..i], records[..i])
        invariant AllCallable(done)
        invariant trackedWorkers == before + made && Creates(made, done)
      {
        var instance := collection[i];
        var metadata := registry.GetWorkerMetadata(instance.chain);
        ghost var level := Bindings(instance, metadata);
        var failure, added := TrackInstanceWorkers(instance, metadata);
        if failure.Some? {
          StoppedStep(collection, records, i, before, made, added, done);
          return Fail(NotCallable(failure.value));
        }
        TrackedStep(collection, records, i, before, made, added, done);
        made := made + added;
        done := done + level;
        i := i + 1;
      }
      assert collection[..i] == collection && records[..i] == records;
      RegisteredAll(before, made, PlanOf(collection, records));
      res := Pass;
    }

    /** The inner loop of `registerDecoratedWorkers`, for one instance: for
        each record, create the handler (a `TypeError` ends the loop), then
        a worker, and track it. `made` are the workers added. */
    method TrackInstanceWorkers(instance: ObjectRef, metadata: seq<WorkerMetadata>)
      returns (failure: Option<TypeError>, ghost made: seq<Worker>)
      requires Valid()
      modifies this`trackedWorkers
      ensures Valid()
      ensures var level := Bindings(instance, metadata);
        var k := FirstUncallable(level);
        && trackedWorkers == old(trackedWorkers) + made
        && Creates(made, level[..k])
        && (k == |level| ==> failure.None?)
        && (k < |level| ==> failure == Some(TypeError(NotCallableMessage(level[k].definition.propertyKey))))
    {
      ghost var level := Bindings(instance, metadata);
      made := [];
      var j := 0;
      while j < |metadata|
        invariant 0 <= j <= |metadata|
        invariant Valid()
        invariant AllCallable(level[..j])
        invariant trackedWorkers == old(trackedWorkers) + made && Creates(made, level[..j])
      {
        var definition := metadata[j];
        NextBinding(level, instance, metadata, j);
        var handler := CreateHandler(instance, definition);
        if handler.Failure? {
          StopsAt(level, level[..j], Binding(instance, definition));
          return Some(handler.error), made;
        }
        var worker := new Worker(definition.options, handler.value);
        assert worker !in trackedWorkers;
        DistinctAppend(trackedWorkers, worker);
        trackedWorkers := trackedWorkers + [worker];
        CreatesAppend(made, level[..j], worker, Binding(instance, definition));
        made := made + [worker];
        j := j + 1;
      }
      assert level[..j] == level;
      failure := None;
    }

    /** `enableGracefulShutdown`: without a `process` object nothing
        happens; otherwise one listener per signal is added, with no check
        for earlier registrations. */
    method EnableGracefulShutdown(signals: Option<seq<string>>, hasProcess: bool)
      requires Valid()
      modifies this
      ensures Valid()
      ensures shutdownHandlers == old(shutdownHandlers) + (if hasProcess then signals.GetOr(DefaultSignals) else [])
      ensures trackedWorkers == old(trackedWorkers) && detached == old(detached)
      ensures zeebeClientPromise == old(zeebeClientPromise) && zeebeClient == old(zeebeClient)
      ensures operateClient == old(operateClient) && tasklistClient == old(tasklistClient)
      ensures connectionRuns == old(connectionRuns) && closeCalls == old(closeCalls)
    {
      if !hasProcess {
        return;
      }
      var list := signals.GetOr(DefaultSignals);
      for i := 0 to |list|
        invariant shutdownHandlers == old(shutdownHandlers) + list[..i]
        invariant trackedWorkers == old(trackedWorkers) && detached == old(detached)
        invariant zeebeClientPromise == old(zeebeClientPromise) && zeebeClient == old(zeebeClient)
        invariant operateClient == old(operateClient) && tasklistClient == old(tasklistClient)
        invariant connectionRuns == old(connectionRuns) && closeCalls == old(closeCalls)
      {
        shutdownHandlers := shutdownHandlers + [list[i]];
        assert list[..i + 1] == list[..i] + [list[i]];
      }
      assert list[..|list|] == list;
    }

    /** `disableGracefulShutdown`: take every handler out of the list and
        detach each listener, in registration order. */
    method DisableGracefulShutdown()
      requires Valid()
      modifies this`shutdownHandlers, this`detached
      ensures Valid()
      ensures shutdownHandlers == []
      ensures detached == old(detached) + old(shutdownHandlers)
      ensures trackedWorkers == old(trackedWorkers)
      ensures zeebeClientPromise == old(zeebeClientPromise) && zeebeClient == old(zeebeClient)
      ensures operateClient == old(operateClient) && tasklistClient == old(tasklistClient)
      ensures connectionRuns == old(connectionRuns) && closeCalls == old(closeCalls)
    {
      var removed := shutdownHandlers;
      shutdownHandlers := [];
      for i := 0 to |removed|
        invariant detached == old(detached) + removed[..i]
        invariant shutdownHandlers == []
      {
        detached := detached + [removed[i]];
        assert removed[..i + 1] == removed[..i] + [removed[i]];
      }
      assert removed[..|removed|] == removed;
    }

    /** `shutdown`: detach the listeners, close the tracked workers in
        insertion order (each is untracked once its close succeeds; a failed
        close rejects at once), close and forget the cached client, forget
        the stored promise, then release the SDK's clients. `failing` are
        the workers whose close rejects, `clientCloseFails` and
        `closeAllFails` say whether the client's close and `closeAllClients`
        reject. */
    method Shutdown(failing: set<Worker>, clientCloseFails: bool, closeAllFails: bool) returns (res: Outcome<ShutdownError>)
      requires Valid()
      modifies this`shutdownHandlers, this`detached, this`trackedWorkers, this`closeCalls
      modifies this`zeebeClient, this`zeebeClientPromise
      ensures Valid()
      ensures shutdownHandlers == [] && detached == old(detached) + old(shutdownHandlers)
      ensures var ws := old(trackedWorkers); var f := FirstIn(ws, failing);
        && trackedWorkers == ws[f..]
        && closeCalls == old(closeCalls) + ws[..Min(f + 1, |ws|)]
        && (f < |ws| ==>
              res == Fail(WorkerCloseFailed(ws[f]))
              && zeebeClient == old(zeebeClient) && zeebeClientPromise == old(zeebeClientPromise))
        && (f == |ws| && old(zeebeClient).Some? && clientCloseFails ==>
              res == Fail(ClientCloseFailed)
              && zeebeClient == old(zeebeClient) && zeebeClientPromise == old(zeebeClientPromise))
        && (f == |ws| && !(old(zeebeClient).Some? && clientCloseFails) ==>
              res == (if closeAllFails then Fail(CloseAllFailed) else Pass)
              && zeebeClient.None? && zeebeClientPromise.None?)
      ensures operateClient == old(operateClient) && tasklistClient == old(tasklistClient)
      ensures connectionRuns == old(connectionRuns)
    {
      DisableGracefulShutdown();
      var snapshot := trackedWorkers;
      assert snapshot == old(trackedWorkers);
      var i := 0;
      while i < |snapshot|
        invariant 0 <= i <= |snapshot|
        invariant trackedWorkers == snapshot[i..]
        invariant closeCalls == old(closeCalls) + snapshot[..i]
        invariant forall j :: 0 <= j < i ==> snapshot[j] !in failing
        invariant shutdownHandlers == [] && detached == old(detached) + old(shutdownHandlers)
        invariant zeebeClientPromise == old(zeebeClientPromise) && zeebeClient == old(zeebeClient)
        invariant Distinct(snapshot)
      {
        var worker := snapshot[i];
        closeCalls := closeCalls + [worker];
        assert snapshot[..i + 1] == snapshot[..i] + [worker];
        DistinctSuffix(snapshot, i);
        RemoveAt(snapshot, i);
        if worker in failing {
          assert FirstIn(snapshot, failing) == i && Min(i + 1, |snapshot|) == i + 1;
          return Fail(WorkerCloseFailed(worker));
        }
        trackedWorkers := Remove(trackedWorkers, worker);
        i := i + 1;
      }
      assert FirstIn(snapshot, failing) == |snapshot| && Min(|snapshot| + 1, |snapshot|) == |snapshot|;
      assert snapshot[..|snapshot|] == snapshot && trackedWorkers == [];
      if zeebeClient.Some? {
        if clientCloseFails {
          return Fail(ClientCloseFailed);
        }
        zeebeClient := None;
      }
      zeebeClientPromise := None;
      if closeAllFails {
        return Fail(CloseAllFailed);
      }
      res := Pass;
    }

    /** `buildArguments`: an array of `parameterCount` empty slots; each rule
        in turn writes its resolved value at its index (growing the array
        when the index lies beyond it); then every empty slot receives the
        job. A failing rule rejects at once. */
    method BuildArguments(job: Job, parameterCount: nat, metadata: seq<ParameterRule>)
      returns (res: Result<seq<Value>, MissingVariableError>)
      ensures res == Arguments(job, parameterCount, metadata)
    {
      var args := seq(parameterCount, _ => Undefined);
      var i := 0;
      assert metadata[..0] == [];
      while i < |metadata|
        invariant 0 <= i <= |metadata|
        invariant forall j :: 0 <= j < i ==> ResolveParameter(metadata[j], job).Success?
        invariant Holds(job, parameterCount, metadata[..i], args)
      {
        var parameter := metadata[i];
        var value := ResolveParameter(parameter, job);
        if value.Failure? {
          ArgumentsFailure(job, parameterCount, metadata, i);
          return Failure(value.error);
        }
        ArgumentsStep(job, parameterCount, metadata, i, args);
        args := SetSlot(args, parameter.index, value.value);
        i := i + 1;
      }
      assert metadata[..i] == metadata;
      var index := 0;
      while index < |args|
        invariant 0 <= index <= |args| == Width(parameterCount, metadata)
        invariant forall k :: 0 <= k < index ==> args[k] == Fill(job, SlotValue(job, metadata, k))
        invariant forall k :: index <= k < |args| ==> args[k] == SlotValue(job, metadata, k)
      {
        if args[index].Undefined? {
          args := args[index := JobRef(job)];
        }
        index := index + 1;
      }
      ArgumentsSuccess(job, parameterCount, metadata, args);
      res := Success(args);
    }

    /** The handler `createHandler` returns, run on a job: build the
        arguments, then call the method on the instance with them. */
    method RunHandler(handler: Handler, job: Job) returns (res: Result<Invocation, MissingVariableError>)
      requires handler.Decorated?
      ensures var d := handler.definition;
        match Arguments(job, d.parameterCount, d.parameters)
        case Success(args) => res == Success(Invocation(handler.instance.id, d.propertyKey, args))
        case Failure(e) => res == Failure(e)
    {
      var definition := handler.definition;
      var args := BuildArguments(job, definition.parameterCount, definition.parameters);
      match args
      case Failure(e) => res := Failure(e);
      case Success(values) => res := Success(Invocation(handler.instance.id, definition.propertyKey, values));
    }
  }

  /** `args[index] = v` on a JavaScript array: an index beyond the end
      grows the array, and the new slots in between stay empty. */
  function SetSlot(args: seq<Value>, index: nat, v: Value): (r: seq<Value>)
    ensures |r| == Max(|args|, index + 1)
    ensures r[index] == v
    ensures forall k :: 0 <= k < |r| && k != index ==> r[k] == (if k < |args| then args[k] else Undefined)
  {
    if index < |args| then args[index := v]
    else (args + seq(index - |args|, _ => Undefined)) + [v]
  }

  /** The rule loop's state after the rules `done`: the array has the
      width they imply and each slot holds its last rule's value. */
  ghost predicate Holds(job: Job, count: nat, done: seq<ParameterRule>, args: seq<Value>) {
    |args| == Width(count, done) && forall k :: 0 <= k < |args| ==> args[k] == SlotValue(job, done, k)
  }

  /** One pass of the rule loop keeps `Holds`. */
  lemma {:induction false} ArgumentsStep(job: Job, count: nat, rules: seq<ParameterRule>, i: nat, args: seq<Value>)
    requires i < |rules| && ResolveParameter(rules[i], job).Success?
    requires Holds(job, count, rules[..i], args)
    ensures Holds(job, count, rules[..i + 1], SetSlot(args, rules[i].index, ResolveParameter(rules[i], job).value))
  {
    assert rules[..i + 1][..i] == rules[..i];
    var r := SetSlot(args, rules[i].index, ResolveParameter(rules[i], job).value);
    forall k | 0 <= k < |r|
      ensures r[k] == SlotValue(job, rules[..i + 1], k)
    {
      if k != rules[i].index && k >= |args| {
        SlotValueNoRule(job, rules[..i], k);
      }
    }
  }

  /** The first rule that fails to resolve decides the rejection. */
  lemma {:induction false} ArgumentsFailure(job: Job, count: nat, rules: seq<ParameterRule>, i: nat)
    requires i < |rules| && ResolveParameter(rules[i], job).Failure?
    requires forall j :: 0 <= j < i ==> ResolveParameter(rules[j], job).Success?
    ensures Arguments(job, count, rules) == Failure(ResolveParameter(rules[i], job).error)
  {
    assert FirstFailure(job, rules) == i;
  }

  /** After the fill pass the array is the specified argument list. */
  lemma {:induction false} ArgumentsSuccess(job: Job, count: nat, rules: seq<ParameterRule>, args: seq<Value>)
    requires forall j :: 0 <= j < |rules| ==> ResolveParameter(rules[j], job).Success?
    requires |args| == Width(count, rules)
    requires forall k :: 0 <= k < |args| ==> args[k] == Fill(job, SlotValue(job, rules, k))
    ensures Arguments(job, count, rules) == Success(args)
  {
    assert FirstFailure(job, rules) == |rules|;
    var w := Width(count, rules);
    var spec := seq(w, k requires 0 <= k < w => Fill(job, SlotValue(job, rules, k)));
    assert spec == args;
  }
}
