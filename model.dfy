/**
 * kafe2/fit/_base/model.py: the wrapper around a user's model function
 * (`ModelFunctionBase`) and the parameter state of a parametric model
 * (`ParametricModelBaseMixin`, here attached to an `XYContainer`).
 *
 * Python introspection (`inspect.getargspec`, `__code__.co_argcount`) is
 * replaced by a record of what it reports about a function.
 */
module Models {
  import opened Wrappers
  import XYContainers

  /** What `inspect.getargspec` reports: argument names, `*args`, `**kwargs` and declared defaults. */
  datatype ArgSpec = ArgSpec(args: seq<string>, varargs: Option<string>, keywords: Option<string>,
                             defaults: Option<seq<real>>)

  /** A Python function: its `__name__`, its argspec and `__code__.co_argcount`. */
  datatype PyFunction = PyFunction(name: string, argspec: ArgSpec, argcount: nat)

  /** What the constructor may be handed. `truthy` is the callable's own truth value. */
  datatype FunctionArg =
    | LibraryName(key: string)
    | Vectorized(pyfunc: PyFunction)
    | Callable(f: PyFunction, truthy: bool)
    | NotCallable

  /** What is actually called: the function itself or an `np.vectorize` wrapper around it. */
  datatype Callee = Plain(f: PyFunction) | VectorizeWrapper(pyfunc: PyFunction)

  /** `ModelFunctionException`, one constructor per message. */
  datatype ModelError =
    | UnknownModelFunction(key: string)
    | NotCallableObject
    | VarArgsAndKeywords(varargs: string, keywords: string)
    | VarArgsOnly(varargs: string)
    | KeywordsOnly(keywords: string)
    | WrongDefaultCount(expected: int, received: nat)

  /** `_validate_model_function_raise`: functions with `*args` or `**kwargs` are refused, each case with its own message. */
  function ValidateModelFunction(spec: ArgSpec): (r: Outcome<ModelError>)
    ensures r.Pass? <==> spec.varargs.None? && spec.keywords.None?
    ensures spec.varargs.Some? && spec.keywords.Some? ==>
      r == Fail(VarArgsAndKeywords(spec.varargs.value, spec.keywords.value))
    ensures spec.varargs.Some? && spec.keywords.None? ==> r == Fail(VarArgsOnly(spec.varargs.value))
    ensures spec.varargs.None? && spec.keywords.Some? ==> r == Fail(KeywordsOnly(spec.keywords.value))
  {
    if spec.varargs.Some? && spec.keywords.Some? then Fail(VarArgsAndKeywords(spec.varargs.value, spec.keywords.value))
    else if spec.varargs.Some? then Fail(VarArgsOnly(spec.varargs.value))
    else if spec.keywords.Some? then Fail(KeywordsOnly(spec.keywords.value))
    else Pass
  }

  /** The declared defaults as a tuple; `None` (and an empty tuple) give `()`. */
  function DeclaredDefaults(spec: ArgSpec): seq<real> {
    if spec.defaults.None? then [] else spec.defaults.value
  }

  /**
   * The `defaults` getter: missing leading defaults are filled with 1.0 up
   * to `parcount`; a repetition count below zero gives no padding at all.
   */
  function PaddedDefaults(declared: seq<real>, parcount: int): (r: seq<real>)
    ensures |r| == if parcount > |declared| then parcount else |declared|
    ensures forall i :: 0 <= i < |r| - |declared| ==> r[i] == 1.0
    ensures r[|r| - |declared|..] == declared
  {
    var pad := if parcount > |declared| then parcount - |declared| else 0;
    seq(pad, _ => 1.0) + declared
  }

  /** Defaults declared for every parameter come back unchanged. */
  lemma PaddedDefaultsComplete(declared: seq<real>)
    ensures PaddedDefaults(declared, |declared|) == declared
  {
    var r := PaddedDefaults(declared, |declared|);
    assert r[0..] == r;
  }

  class ModelFunction {
    /** `_model_function_handle`: the function that is introspected. */
    var handle: PyFunction
    /** `_callable`: what a call goes to. */
    var callee: Callee
    /** `_model_function_argspec`. */
    var argspec: ArgSpec
    /** `_model_function_argcount`. */
    var argcount: nat
    /** `_model_function_parcount`: every argument but the independent variable. */
    var parcount: int

    /** A constructed model function: counts agree and no `*args`/`**kwargs`. */
    ghost predicate Valid()
      reads this
    {
      parcount == argcount - 1 && argspec.varargs.None? && argspec.keywords.None?
    }

    /** The handle and callable chosen; introspection has not happened yet. */
    constructor Init(handle: PyFunction, callee: Callee)
      ensures this.handle == handle && this.callee == callee
    {
      this.handle := handle;
      this.callee := callee;
      argspec := ArgSpec([], None, None, None);
      argcount := 0;
      parcount := -1;
    }

    /** `_assign_model_function_argspec_and_argcount`. */
    method AssignArgspecAndArgcount()
      modifies this
      ensures handle == old(handle) && callee == old(callee)
      ensures argspec == handle.argspec && argcount == handle.argcount
      ensures parcount == argcount - 1
    {
      argspec := handle.argspec;
      argcount := handle.argcount;
      parcount := argcount - 1;
    }

    /**
     * The constructor: a string is looked up in the function library, an
     * `np.vectorize` object is introspected through its `pyfunc` but called
     * as is, a falsy callable is replaced by the default function, and
     * anything else raises; then the argspec is read and validated.
     */
    static method Create(arg: FunctionArg, library: map<string, PyFunction>, default: PyFunction)
      returns (r: Result<ModelFunction, ModelError>)
      ensures arg.LibraryName? && arg.key !in library ==> r == Err(UnknownModelFunction(arg.key))
      ensures arg.NotCallable? ==> r == Err(NotCallableObject)
      ensures r.Ok? ==> fresh(r.value) && r.value.Valid()
      ensures r.Ok? && arg.LibraryName? ==> r.value.handle == library[arg.key] && r.value.callee == Plain(r.value.handle)
      ensures r.Ok? && arg.Vectorized? ==> r.value.handle == arg.pyfunc && r.value.callee == VectorizeWrapper(arg.pyfunc)
      ensures r.Ok? && arg.Callable? ==>
        r.value.handle == (if arg.truthy then arg.f else default) && r.value.callee == Plain(r.value.handle)
      ensures r.Ok? ==> r.value.argspec == r.value.handle.argspec && r.value.argcount == r.value.handle.argcount
      ensures (arg.Vectorized? || arg.Callable? || (arg.LibraryName? && arg.key in library)) ==>
        (r.Err? <==> ValidateModelFunction(
                       match arg
                       case LibraryName(k) => library[k].argspec
                       case Vectorized(p) => p.argspec
                       case Callable(f, t) => (if t then f else default).argspec
                       case NotCallable => ArgSpec([], None, None, None)).Fail?)
    {
      var handle: PyFunction;
      var callee: Callee;
      match arg {
        case LibraryName(key) =>
          if key !in library {
            return Err(UnknownModelFunction(key));
          }
          handle := library[key];
          callee := Plain(handle);
        case Vectorized(pyfunc) =>
          callee := VectorizeWrapper(pyfunc);
          handle := pyfunc;
        case Callable(f, truthy) =>
          handle := if truthy then f else default;
          callee := Plain(handle);
        case NotCallable =>
          return Err(NotCallableObject);
      }
      var m := new ModelFunction.Init(handle, callee);
      m.AssignArgspecAndArgcount();
      var valid := ValidateModelFunction(m.argspec);
      if valid.Fail? {
        return Err(valid.error);
      }
      return Ok(m);
    }

    /** `name`: the handle's `__name__`. */
    function Name(): string
      reads this
    {
      handle.name
    }

    /** `parcount`: one less than `argcount`. */
    function Parcount(): (p: int)
      reads this
      requires Valid()
      ensures p == argcount - 1
    {
      parcount
    }

    /** `argvals`: `argcount` zeros. */
    function Argvals(): (r: seq<real>)
      reads this
      ensures |r| == argcount
      ensures forall i :: 0 <= i < |r| ==> r[i] == 0.0
    {
      seq(argcount, _ => 0.0)
    }

    /** The `defaults` getter: `parcount` values when at most that many are declared, the declared ones last. */
    function Defaults(): (d: seq<real>)
      reads this
      ensures |DeclaredDefaults(argspec)| <= parcount ==> |d| == parcount
      ensures |DeclaredDefaults(argspec)| <= |d|
      ensures forall i :: 0 <= i < |d| - |DeclaredDefaults(argspec)| ==> d[i] == 1.0
      ensures d[|d| - |DeclaredDefaults(argspec)|..] == DeclaredDefaults(argspec)
    {
      PaddedDefaults(DeclaredDefaults(argspec), parcount)
    }

    /**
     * The `defaults` setter: exactly `parcount` values are accepted and
     * replace only the defaults of the argspec; the getter then returns them.
     */
    method SetDefaults(newDefaults: seq<real>) returns (r: Outcome<ModelError>)
      requires Valid()
      modifies this`argspec
      ensures Valid()
      ensures r.Fail? <==> parcount != |newDefaults|
      ensures r.Fail? ==> r.error == WrongDefaultCount(parcount, |newDefaults|) && argspec == old(argspec)
      ensures r.Pass? ==> argspec == ArgSpec(old(argspec.args), old(argspec.varargs), old(argspec.keywords), Some(newDefaults))
      ensures r.Pass? ==> Defaults() == newDefaults
    {
      if parcount != |newDefaults| {
        return Fail(WrongDefaultCount(parcount, |newDefaults|));
      }
      argspec := ArgSpec(argspec.args, argspec.varargs, argspec.keywords, Some(newDefaults));
      PaddedDefaultsComplete(newDefaults);
      return Pass;
    }
  }

  /** `ParametricModelBaseMixin` over an `XYContainer`: the model's parameter values and staleness flag. */
  class ParametricModel {
    const modelFunction: ModelFunction
    /** The container the mixin is combined with; it holds the model's error sources. */
    const container: XYContainers.XYContainer
    /** `_model_parameters`. */
    var modelParameters: seq<real>
    /** `_pm_calculation_stale`. */
    var calculationStale: bool

    ghost predicate Valid()
      reads this, container
    {
      container.Valid()
    }

    constructor Init(f: ModelFunction, c: XYContainers.XYContainer, parameters: seq<real>)
      ensures modelFunction == f && container == c
      ensures modelParameters == parameters && calculationStale
    {
      modelFunction := f;
      container := c;
      modelParameters := parameters;
      calculationStale := true;
    }

    /** The mixin constructor: keeps the function, then goes through the `parameters` setter. */
    static method Create(f: ModelFunction, c: XYContainers.XYContainer, parameters: seq<real>)
      returns (m: ParametricModel)
      requires c.Valid()
      modifies c`totalErrors, c`splitSystem
      ensures fresh(m) && m.Valid() && m.modelFunction == f && m.container == c
      ensures m.modelParameters == parameters && m.calculationStale
      ensures c.totalErrors == None && c.splitSystem == None
    {
      m := new ParametricModel.Init(f, c, parameters);
      m.SetParameters(parameters);
    }

    /** The `parameters` getter. */
    function Parameters(): seq<real>
      reads this
    {
      modelParameters
    }

    /**
     * The `parameters` setter: stores the values, marks the model values
     * stale and empties the container's error caches; the getter then
     * returns what was stored, and nothing else in the container changes.
     */
    method SetParameters(parameters: seq<real>)
      requires Valid()
      modifies this`modelParameters, this`calculationStale, container`totalErrors, container`splitSystem
      ensures Valid()
      ensures Parameters() == parameters && calculationStale
      ensures container.totalErrors == None && container.splitSystem == None
    {
      modelParameters := parameters;
      calculationStale := true;
      container.ClearTotalErrorCache();
    }
  }
}
