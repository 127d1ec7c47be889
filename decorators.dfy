/** The three decorators: `@ZeebeWorker` on a method, and `@Variable` and
    `@VariablesAsType` on a method parameter. Each checks where it was
    applied and then records what it declares in the worker registry. */
module Decorators {
  import opened ZeebeTypes
  import opened ParameterResolution
  import opened WorkerRegistry

  /** The argument given to `@Variable`: a variable name, an options
      object, or nothing at all. */
  datatype VariableArg = NameArg(name: string) | OptionsArg(options: VariableOptions) | NoArg

  /** The property descriptor a method decorator receives: none at all, one
      whose value is not a function (an accessor or a field), or a function
      whose declared parameter count (`Function.length`) is `arity`. */
  datatype Descriptor = NoDescriptor | NotAFunction | FunctionValue(arity: nat)

  const NotOnMethodMessage: string := "@ZeebeWorker can only be used on methods"
  const WorkerOnConstructorMessage: string := "@ZeebeWorker cannot decorate a constructor"
  const VariableOnConstructorMessage: string := "@Variable cannot decorate a constructor parameter"
  const AsTypeOnConstructorMessage: string := "@VariablesAsType cannot decorate a constructor parameter"

  /** `normalizeVariableOptions`: a bare string is shorthand for
      `{ name }`, and a missing argument means `{}`. */
  function NormalizeVariableOptions(arg: VariableArg): (r: VariableOptions)
    ensures arg.OptionsArg? ==> r == arg.options
    ensures !arg.OptionsArg? ==> r.required.None? && r.transform.None?
    ensures r.name.Some? <==> arg.NameArg? || (arg.OptionsArg? && arg.options.name.Some?)
    ensures arg.NameArg? ==> r == VariableOptions(Some(arg.name), None, None)
    ensures arg.NoArg? ==> r == VariableOptions(None, None, None)
  {
    match arg
    case NameArg(name) => VariableOptions(Some(name), None, None)
    case OptionsArg(options) => options
    case NoArg => VariableOptions(None, None, None)
  }

  /** The rule `@Variable` stores for parameter `index`: an absent
      `required` means optional. */
  function VariableRuleFor(options: VariableOptions, index: nat): (r: ParameterRule)
    ensures r.VariableRule? && r.index == index
    ensures r.name == options.name && r.transform == options.transform
    ensures r.required <==> options.required == Some(true)
  {
    VariableRule(index, options.name, options.required.GetOr(false), options.transform)
  }

  /** The rule `@VariablesAsType` stores for parameter `index`. */
  function AsTypeRuleFor(factory: Factory, index: nat): (r: ParameterRule)
    ensures r.VariablesAsTypeRule? && r.index == index && r.factory == factory
  {
    VariablesAsTypeRule(index, factory)
  }

  // ---------------------------------------------------------------------
  // What the stored rules mean for a job

  /** `@Variable('x')` stores the same rule as `@Variable({ name: 'x' })`,
      for every string, and that rule never fails: for a non-empty name it
      yields the variable, or `undefined`. */
  lemma {:induction false} NameShorthand(name: string, index: nat, job: Job)
    ensures VariableRuleFor(NormalizeVariableOptions(NameArg(name)), index)
         == VariableRuleFor(NormalizeVariableOptions(OptionsArg(VariableOptions(Some(name), None, None))), index)
    ensures ResolveParameter(VariableRuleFor(NormalizeVariableOptions(NameArg(name)), index), job).Success?
    ensures name != "" ==>
      ResolveParameter(VariableRuleFor(NormalizeVariableOptions(NameArg(name)), index), job).value
        == (if name in Source(job) then Source(job)[name] else Undefined)
  {
    var rule := VariableRuleFor(NormalizeVariableOptions(NameArg(name)), index);
    assert rule == VariableRule(index, Some(name), false, None);
  }

  /** A bare `@Variable()` binds the whole variables object (an empty one
      when the job carries none). */
  lemma {:induction false} BareVariableBindsAll(index: nat, job: Job)
    ensures ResolveParameter(VariableRuleFor(NormalizeVariableOptions(NoArg), index), job) == Success(Object(Source(job)))
  {
    var rule := VariableRuleFor(NormalizeVariableOptions(NoArg), index);
    assert rule == VariableRule(index, None, false, None);
    assert !IsNamed(rule.name);
  }

  /** A rule declared by `@Variable` can only fail when it was declared
      `required: true`, and then only for a missing or `undefined` named
      variable. */
  lemma {:induction false} OnlyRequiredFails(arg: VariableArg, index: nat, job: Job)
    ensures var options := NormalizeVariableOptions(arg);
      ResolveParameter(VariableRuleFor(options, index), job).Failure? <==>
        && options.required == Some(true) && IsNamed(options.name)
        && (options.name.value !in Source(job) || Source(job)[options.name.value] == Undefined)
  {
    var options := NormalizeVariableOptions(arg);
    var rule := VariableRuleFor(options, index);
    assert rule.required <==> options.required == Some(true);
  }

  // ---------------------------------------------------------------------
  // From declaration to collection

  /** A method decorated with `@ZeebeWorker` on a class is collected for
      every instance of that class: its record carries the options and the
      method's declared parameter count, with the rules stored so far. */
  lemma {:induction false} DecoratedWorkerCollected(tables: Tables, owner: ClassId, key: PropertyKey,
                                                    options: WorkerOptions, arity: nat, chain: seq<ClassId>)
    requires ValidTables(tables)
    requires chain != [] && chain[0] == owner
    ensures var r := Metadata(WithOptions(tables, owner, key, options, arity), chain);
      exists p :: 0 <= p < |r| && r[p].propertyKey == key && r[p].options == options && r[p].parameterCount == arity
                  && r[p].parameters == SortedRules(DefinitionOf(tables, owner, key).parameters)
  {
    var d := DefinitionOf(tables, owner, key);
    assert owner in tables ==> tables[owner].Valid();
    assert d.Valid(key);
    var d' := d.(options := Some(options), parameterCount := Some(arity));
    PutValid(tables, owner, key, d');
    var after := WithOptions(tables, owner, key, options, arity);
    assert ValidTables(after);
    assert HasHandler(after, chain[0], key);
    MetadataOverride(after, chain);
    var r := Metadata(after, chain);
    assert key in KeySet(r);
    var p := IndexOfKey(r, key);
    assert ServedBy(after, chain, r[p]);
    assert FirstHandler(after, chain, key) == 0;
    assert after[owner].defs[key] == d';
    assert r[p] == Record(key, d');
  }

  // ---------------------------------------------------------------------
  // The decorators, applied

  /** `@ZeebeWorker(options)` applied to member `propertyKey` of the class
      `owner` (the decorated prototype's constructor). A descriptor that is
      missing or holds no function is refused first, then a missing key
      (a constructor); otherwise the options and the method's declared
      parameter count are stored. */
  method ZeebeWorker(registry: Registry, options: WorkerOptions, owner: ClassId,
                     propertyKey: Option<PropertyKey>, descriptor: Descriptor)
    returns (res: Outcome<TypeError>)
    requires registry.Valid()
    modifies registry
    ensures registry.Valid()
    ensures !descriptor.FunctionValue? ==>
      res == Fail(TypeError(NotOnMethodMessage)) && registry.tables == old(registry.tables)
    ensures descriptor.FunctionValue? && propertyKey.None? ==>
      res == Fail(TypeError(WorkerOnConstructorMessage)) && registry.tables == old(registry.tables)
    ensures descriptor.FunctionValue? && propertyKey.Some? ==>
      res == Pass && registry.tables == WithOptions(old(registry.tables), owner, propertyKey.value, options, descriptor.arity)
  {
    if !descriptor.FunctionValue? {
      return Fail(TypeError(NotOnMethodMessage));
    }
    if propertyKey.None? {
      return Fail(TypeError(WorkerOnConstructorMessage));
    }
    registry.StoreWorkerOptions(owner, propertyKey.value, options, descriptor.arity);
    res := Pass;
  }

  /** `@Variable(arg)` applied to parameter `parameterIndex` of member
      `propertyKey` of `owner`. The argument is normalized when the
      decorator is created; a constructor parameter is refused. */
  method Variable(registry: Registry, arg: VariableArg, owner: ClassId,
                  propertyKey: Option<PropertyKey>, parameterIndex: nat)
    returns (res: Outcome<TypeError>)
    requires registry.Valid()
    modifies registry
    ensures registry.Valid()
    ensures propertyKey.None? ==>
      res == Fail(TypeError(VariableOnConstructorMessage)) && registry.tables == old(registry.tables)
    ensures propertyKey.Some? ==>
      && res == Pass
      && registry.tables == WithParameter(old(registry.tables), owner, propertyKey.value,
                                          VariableRuleFor(NormalizeVariableOptions(arg), parameterIndex))
  {
    var normalized := NormalizeVariableOptions(arg);
    if propertyKey.None? {
      return Fail(TypeError(VariableOnConstructorMessage));
    }
    registry.StoreWorkerParameter(owner, propertyKey.value, VariableRuleFor(normalized, parameterIndex));
    res := Pass;
  }

  /** `@VariablesAsType(factory)` applied to parameter `parameterIndex` of
      member `propertyKey` of `owner`; a constructor parameter is refused. */
  method VariablesAsType(registry: Registry, factory: Factory, owner: ClassId,
                         propertyKey: Option<PropertyKey>, parameterIndex: nat)
    returns (res: Outcome<TypeError>)
    requires registry.Valid()
    modifies registry
    ensures registry.Valid()
    ensures propertyKey.None? ==>
      res == Fail(TypeError(AsTypeOnConstructorMessage)) && registry.tables == old(registry.tables)
    ensures propertyKey.Some? ==>
      && res == Pass
      && registry.tables == WithParameter(old(registry.tables), owner, propertyKey.value, AsTypeRuleFor(factory, parameterIndex))
  {
    if propertyKey.None? {
      return Fail(TypeError(AsTypeOnConstructorMessage));
    }
    registry.StoreWorkerParameter(owner, propertyKey.value, AsTypeRuleFor(factory, parameterIndex));
    res := Pass;
  }
}
