/** How one parameter rule turns a job into an argument value:
    `resolveParameter`, `instantiateVariables` and `resolveVariable`. */
module ParameterResolution {
  import opened ZeebeTypes

  /** The variables object a rule reads from: `job.variables ?? {}`. */
  function Source(job: Job): Variables {
    job.variables.GetOr(map[])
  }

  /** True when a variable rule reads one named variable; an absent or empty
      name is falsy and selects the whole variables object. */
  predicate IsNamed(name: Option<string>) {
    name.Some? && name.value != ""
  }

  /** `instantiateVariables`: a fresh instance of the factory's class with
      every key of the job's variables copied over the factory defaults. */
  function InstantiateVariables(factory: Factory, job: Job): (r: Value)
    ensures r.Instance? && r.shape == factory.shape
    ensures job.variables.Some? ==>
      && r.fields.Keys == factory.defaults.Keys + job.variables.value.Keys
      && (forall k :: k in job.variables.value ==> r.fields[k] == job.variables.value[k])
      && (forall k :: k in factory.defaults && k !in job.variables.value ==> r.fields[k] == factory.defaults[k])
    ensures job.variables.None? ==> r.fields == factory.defaults
  {
    if job.variables.Some? then Instance(factory.shape, factory.defaults + job.variables.value)
    else Instance(factory.shape, factory.defaults)
  }

  /** The value a variable rule selects before the required check. */
  function Selected(name: Option<string>, job: Job): Value {
    var source := Source(job);
    if IsNamed(name) then (if name.value in source then source[name.value] else Undefined)
    else Object(source)
  }

  /** `resolveVariable`: select the value, raise `MissingVariableError` when it
      is required and `undefined`, then apply the transform if there is one. */
  function ResolveVariable(name: Option<string>, required: bool, transform: Option<Transform>, job: Job): (r: Result<Value, MissingVariableError>)
    // the error case, exactly
    ensures r.Failure? <==>
      required && IsNamed(name) && (name.value !in Source(job) || Source(job)[name.value] == Undefined)
    ensures r.Failure? ==> r.error == MissingVariableError(name.value)
    // a named rule reads that variable; `null` is a value like any other
    ensures r.Success? && IsNamed(name) && transform.None? ==>
      r.value == (if name.value in Source(job) then Source(job)[name.value] else Undefined)
    // an unnamed rule binds the whole variables object and never fails
    ensures !IsNamed(name) ==> r.Success?
    ensures !IsNamed(name) && transform.None? ==> r.value == Object(Source(job))
    // the transform sees the raw value and the job
    ensures r.Success? && transform.Some? ==> r.value == transform.value(Selected(name, job), job)
  {
    var value := Selected(name, job);
    if required && value == Undefined then
      Failure(MissingVariableError(if name.Some? then name.value else "<anonymous>"))
    else if transform.Some? then Success(transform.value(value, job))
    else Success(value)
  }

  /** `resolveParameter`: dispatch on the rule's kind. */
  function ResolveParameter(rule: ParameterRule, job: Job): (r: Result<Value, MissingVariableError>)
    ensures r.Failure? <==>
      && rule.VariableRule? && rule.required && IsNamed(rule.name)
      && (rule.name.value !in Source(job) || Source(job)[rule.name.value] == Undefined)
    ensures r.Failure? ==> r.error.variableName == rule.name.value
    ensures rule.VariablesAsTypeRule? ==> r.Success? && r.value.Instance? && r.value.shape == rule.factory.shape
    // a successful call yields what the rule's own resolver yields
    ensures rule.VariableRule? ==> r == ResolveVariable(rule.name, rule.required, rule.transform, job)
    ensures rule.VariablesAsTypeRule? ==> r == Success(InstantiateVariables(rule.factory, job))
  {
    match rule
    case VariablesAsTypeRule(_, factory) => Success(InstantiateVariables(factory, job))
    case VariableRule(_, name, required, transform) => ResolveVariable(name, required, transform, job)
  }

  /** A `null` variable satisfies a required rule. */
  lemma {:induction false} NullPassesRequired(name: string, transform: Option<Transform>, job: Job)
    requires name != "" && job.variables.Some? && name in job.variables.value
    requires job.variables.value[name] == Null
    ensures ResolveVariable(Some(name), true, transform, job).Success?
    ensures transform.None? ==> ResolveVariable(Some(name), true, transform, job).value == Null
  {
  }
}
