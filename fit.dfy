/**
 * `FitBase` (kafe2/fit/_base/fit.py): the part of a fit that is not the
 * minimizer. It holds a data container and a parametric model, derives the
 * parameters of interest from the model function's signature, registers
 * everything in the dependency graph, keeps the parameter constraints, and
 * routes error operations to the data or the model container.
 */
module Fits {
  import opened Wrappers
  import opened Nexuses
  import opened FitPlans
  import LinAlg
  import XYContainers
  import Models

  /** `FitException` and the other exceptions a fit raises, one constructor per cause. */
  datatype FitError =
    | ReservedArguments(names: set<string>)
    | ReservedName(name: string)
    | NamesValuesLengthMismatch(nameCount: nat, valueCount: nat)
    | UnknownParameter(name: string)
    | UnknownReference(reference: string)
    | UnknownMatchingReference(value: Crit)
    | NameCollision(name: string)
    | Container(error: XYContainers.ContainerError)
    | NexusRefused(request: Request)
    | NoOwnNexus
    | MissingParameterValue(name: string)

  // ---- parameter defaults ----------------------------------------------------------------------

  /** One parameter of the model function's signature: its name and its default, if it declares one. */
  datatype SigParam = SigParam(name: string, default: Option<real>)

  function ParamNames(params: seq<SigParam>): (r: seq<string>)
    ensures |r| == |params|
    ensures forall i :: 0 <= i < |params| ==> r[i] == params[i].name
  {
    seq(|params|, i requires 0 <= i < |params| => params[i].name)
  }

  predicate DistinctNames(names: seq<string>) {
    forall i, j :: 0 <= i < j < |names| ==> names[i] != names[j]
  }

  /** Python signatures never repeat a parameter name. */
  predicate DistinctParams(params: seq<SigParam>) {
    forall i, j :: 0 <= i < j < |params| ==> params[i].name != params[j].name
  }

  /** The parameters that are fit parameters: all but the independent variable `x_name`. */
  function FreeParameters(params: seq<SigParam>, xName: Option<string>): seq<SigParam> {
    if params == [] then []
    else FreeParameters(params[..|params| - 1], xName)
         + (if Some(params[|params| - 1].name) == xName then [] else [params[|params| - 1]])
  }

  /** The declared default, or the configured fallback when there is none. */
  function DefaultOf(p: SigParam, fallback: real): real {
    if p.default.Some? then p.default.value else fallback
  }

  /** Exactly the parameters other than `x_name` are free. */
  lemma {:induction false} FreeParametersExactly(params: seq<SigParam>, xName: Option<string>, p: SigParam)
    ensures p in FreeParameters(params, xName) <==> p in params && Some(p.name) != xName
  {
    if params != [] {
      FreeParametersExactly(params[..|params| - 1], xName, p);
      assert params == params[..|params| - 1] + [params[|params| - 1]];
    }
  }

  /** Dropping `x_name` keeps the names distinct. */
  lemma {:induction false} FreeParametersDistinct(params: seq<SigParam>, xName: Option<string>)
    requires DistinctParams(params)
    ensures DistinctParams(FreeParameters(params, xName))
  {
    if params != [] {
      var init := params[..|params| - 1];
      var last := params[|params| - 1];
      FreeParametersDistinct(init, xName);
      if Some(last.name) != xName {
        var free := FreeParameters(params, xName);
        assert free == FreeParameters(init, xName) + [last];
        forall i | 0 <= i < |free| - 1
          ensures free[i].name != last.name
        {
          FreeParametersExactly(init, xName, free[i]);
          var k :| 0 <= k < |init| && init[k] == free[i];
          assert params[k] == free[i];
        }
      }
    }
  }

  /** The dictionary `_get_default_values` builds from the free parameters: each name mapped to its default. */
  function DefaultsMap(free: seq<SigParam>, fallback: real): map<string, real> {
    if free == [] then map[]
    else DefaultsMap(free[..|free| - 1], fallback)[free[|free| - 1].name := DefaultOf(free[|free| - 1], fallback)]
  }

  /**
   * `_get_default_values`: the parameters of the signature other than
   * `x_name`, in declaration order, each with its declared default or the
   * fallback (`default_initial_parameter_value` of the configuration).
   */
  method GetDefaultValues(params: seq<SigParam>, xName: Option<string>, fallback: real)
    returns (keys: seq<string>, values: map<string, real>)
    requires DistinctParams(params)
    ensures keys == ParamNames(FreeParameters(params, xName))
    ensures values == DefaultsMap(FreeParameters(params, xName), fallback)
  {
    keys := [];
    values := map[];
    var k := 0;
    assert params[..0] == [];
    while k < |params|
      invariant 0 <= k <= |params|
      invariant keys == ParamNames(FreeParameters(params[..k], xName))
      invariant values == DefaultsMap(FreeParameters(params[..k], xName), fallback)
    {
      var par := params[k];
      FreeParametersSnoc(params, xName, k);
      if Some(par.name) == xName {
        assert FreeParameters(params[..k], xName) + [] == FreeParameters(params[..k], xName);
      } else {
        DefaultsMapSnoc(FreeParameters(params[..k], xName), par, fallback);
        keys := keys + [par.name];
        values := values[par.name := DefaultOf(par, fallback)];
      }
      k := k + 1;
    }
    assert params[..|params|] == params;
  }

  lemma DefaultsMapSnoc(free: seq<SigParam>, p: SigParam, fallback: real)
    ensures DefaultsMap(free + [p], fallback) == DefaultsMap(free, fallback)[p.name := DefaultOf(p, fallback)]
  {
    assert (free + [p])[..|free|] == free;
  }

  /**
   * The keys of the defaults dictionary are the names of the free
   * parameters, which are distinct and never `x_name`, and every free
   * parameter is mapped to its default.
   */
  lemma DefaultValuesComplete(params: seq<SigParam>, xName: Option<string>, fallback: real)
    requires DistinctParams(params)
    ensures DistinctNames(ParamNames(FreeParameters(params, xName)))
    ensures DefaultsMap(FreeParameters(params, xName), fallback).Keys == (set n | n in ParamNames(FreeParameters(params, xName)))
    ensures forall p :: p in FreeParameters(params, xName) ==>
      p.name in DefaultsMap(FreeParameters(params, xName), fallback)
      && DefaultsMap(FreeParameters(params, xName), fallback)[p.name] == DefaultOf(p, fallback)
    ensures xName.Some? ==> xName.value !in DefaultsMap(FreeParameters(params, xName), fallback)
  {
    var free := FreeParameters(params, xName);
    FreeParametersDistinct(params, xName);
    DefaultsMapKeys(free, fallback);
    DefaultsMapHolds(free, fallback);
    forall p | p in free
      ensures p.name in DefaultsMap(free, fallback) && DefaultsMap(free, fallback)[p.name] == DefaultOf(p, fallback)
    {
      var i :| 0 <= i < |free| && free[i] == p;
    }
    if xName.Some? && xName.value in DefaultsMap(free, fallback) {
      var i :| 0 <= i < |free| && ParamNames(free)[i] == xName.value;
      FreeParametersExactly(params, xName, free[i]);
      assert false;
    }
  }

  /** The dictionary's keys are the names of the free parameters. */
  lemma {:induction false} DefaultsMapKeys(free: seq<SigParam>, fallback: real)
    ensures DefaultsMap(free, fallback).Keys == (set n | n in ParamNames(free))
  {
    if free != [] {
      var init := free[..|free| - 1];
      var last := free[|free| - 1];
      DefaultsMapKeys(init, fallback);
      assert DefaultsMap(free, fallback).Keys == DefaultsMap(init, fallback).Keys + {last.name};
      assert ParamNames(free) == ParamNames(init) + [last.name];
      KeySetSnoc(ParamNames(init), last.name);
    }
  }

  /** With distinct names, every free parameter is mapped to its own default. */
  lemma {:induction false} DefaultsMapHolds(free: seq<SigParam>, fallback: real)
    requires DistinctParams(free)
    ensures forall i :: 0 <= i < |free| ==>
      free[i].name in DefaultsMap(free, fallback) && DefaultsMap(free, fallback)[free[i].name] == DefaultOf(free[i], fallback)
  {
    if free != [] {
      var init := free[..|free| - 1];
      var last := free[|free| - 1];
      var m0 := DefaultsMap(init, fallback);
      var m := DefaultsMap(free, fallback);
      DefaultsMapHolds(init, fallback);
      assert m == m0[last.name := DefaultOf(last, fallback)];
      forall i | 0 <= i < |free| - 1
        ensures free[i].name in m && m[free[i].name] == DefaultOf(free[i], fallback)
      {
        assert init[i] == free[i];
        assert free[i].name != last.name;
      }
    }
  }



  lemma KeySetSnoc(keys: seq<string>, key: string)
    ensures (set n | n in keys + [key]) == (set n | n in keys) + {key}
  {
  }

  /** One more parameter of the signature: it is free unless it is `x_name`. */
  lemma FreeParametersSnoc(params: seq<SigParam>, xName: Option<string>, k: nat)
    requires k < |params|
    ensures FreeParameters(params[..k + 1], xName) ==
      FreeParameters(params[..k], xName) + (if Some(params[k].name) == xName then [] else [params[k]])
    ensures ParamNames(FreeParameters(params[..k + 1], xName)) ==
      ParamNames(FreeParameters(params[..k], xName)) + (if Some(params[k].name) == xName then [] else [params[k].name])
  {
    assert params[..k + 1][..k] == params[..k];
  }

  // ---- the reserved-name check -----------------------------------------------------------------

  /**
   * `_validate_model_function_for_fit_raise`: no argument of the model
   * function and not the function's name may be a reserved node name; the
   * arguments are checked first, and the error lists every clashing one.
   */
  function ValidateModelFunctionForFit(reserved: set<string>, arguments: seq<string>, name: string): (r: Outcome<FitError>)
    ensures r.Pass? <==> (forall i :: 0 <= i < |arguments| ==> arguments[i] !in reserved) && name !in reserved
    ensures (exists i :: 0 <= i < |arguments| && arguments[i] in reserved) ==>
      r.Fail? && r.error.ReservedArguments? && r.error.names != {}
      && forall a :: a in r.error.names <==> a in arguments && a in reserved
    ensures (forall i :: 0 <= i < |arguments| ==> arguments[i] !in reserved) && name in reserved ==>
      r == Fail(ReservedName(name))
  {
    var clash := set a | a in arguments && a in reserved;
    assert forall i :: 0 <= i < |arguments| && arguments[i] in reserved ==> arguments[i] in clash;
    if clash != {} then Fail(ReservedArguments(clash))
    else if name in reserved then Fail(ReservedName(name))
    else Pass
  }

  // ---- parameter constraints -------------------------------------------------------------------

  /** `GaussianSimpleParameterConstraint` and `GaussianMatrixParameterConstraint`, as the records they are built from. */
  datatype Constraint =
    | SimpleConstraint(index: nat, value: real, uncertainty: real, relative: bool)
    | MatrixConstraint(indices: seq<nat>, values: seq<real>, matrix: seq<seq<real>>, matrixType: string,
                       uncertainties: Option<seq<real>>, relative: bool)

  /** `tuple.index`: the position of the first occurrence, `None` for `ValueError`. */
  function IndexOf(names: seq<string>, x: string): (r: Option<nat>)
    ensures r.Some? <==> x in names
    ensures r.Some? ==> r.value < |names| && names[r.value] == x && x !in names[..r.value]
  {
    if names == [] then None
    else if names[0] == x then Some(0)
    else
      var rest := IndexOf(names[1..], x);
      if rest.None? then None
      else
        assert names[..rest.value + 1] == [names[0]] + names[1..][..rest.value];
        Some(rest.value + 1)
  }

  /** The position of each name among `known`. */
  function IndicesOf(names: seq<string>, known: seq<string>): (r: seq<nat>)
    requires forall i :: 0 <= i < |names| ==> names[i] in known
    ensures |r| == |names|
    ensures forall i :: 0 <= i < |names| ==> r[i] < |known| && known[r[i]] == names[i] && names[i] !in known[..r[i]]
    ensures forall i :: 0 <= i < |names| ==> r[i] == IndexOf(known, names[i]).value
  {
    if names == [] then [] else [IndexOf(known, names[0]).value] + IndicesOf(names[1..], known)
  }

  // ---- error lookups ---------------------------------------------------------------------------

  /** A value in a matching-criteria dictionary: a string, a flag, or `None`. */
  datatype Crit = Text(s: string) | Flag(b: bool) | NoneValue

  /** What `matching_criteria.pop('reference', None)` yields. */
  function ReferenceOf(criteria: Option<map<string, Crit>>): Crit {
    if criteria.Some? && "reference" in criteria.value then criteria.value["reference"] else NoneValue
  }

  /** The criteria left once `reference` is popped. */
  function RestOf(criteria: Option<map<string, Crit>>): Option<map<string, Crit>> {
    if criteria.Some? then Some(criteria.value - {"reference"}) else None
  }

  // ---- the fit ---------------------------------------------------------------------------------

  /** What the fitter reports: the parameters it fits, in order, and their current values. */
  datatype FitterState = FitterState(parametersToFit: seq<string>, values: map<string, real>)

  /** `dict[_pn] for _pn in names`; a `KeyError` names the first missing key. */
  function ValuesOf(dict: map<string, real>, names: seq<string>): (r: Result<seq<real>, FitError>)
    ensures r.Ok? <==> forall i :: 0 <= i < |names| ==> names[i] in dict
    ensures r.Ok? ==> |r.value| == |names| && forall i :: 0 <= i < |names| ==> r.value[i] == dict[names[i]]
    ensures r.Err? ==> (exists k :: 0 <= k < |names| && r.error == MissingParameterValue(names[k])
                          && names[k] !in dict && forall j :: 0 <= j < k ==> names[j] in dict)
  {
    if names == [] then Ok([])
    else if names[0] !in dict then Err(MissingParameterValue(names[0]))
    else
      var rest := ValuesOf(dict, names[1..]);
      if rest.Err? then
        var k :| 0 <= k < |names| - 1 && rest.error == MissingParameterValue(names[1..][k])
          && names[1..][k] !in dict && forall j :: 0 <= j < k ==> names[1..][j] in dict;
        assert forall j :: 0 <= j < k + 1 ==> names[j] in dict by {
          forall j | 0 <= j < k + 1 ensures names[j] in dict {
            if j > 0 { assert names[j] == names[1..][j - 1]; }
          }
        }
        rest
      else Ok([dict[names[0]]] + rest.value)
  }

  /** The refusals a run of requests meets: none of `reqs` is refused when made in order from `g`. */
  ghost predicate AllAccepted(g: Graph, reqs: seq<Request>) {
    reqs == [] || (AllAccepted(g, reqs[..|reqs| - 1]) && Step(Apply(g, reqs[..|reqs| - 1]), reqs[|reqs| - 1]).accepted)
  }

  /** `reqs[k]` is the first request of the run the graph refuses. */
  ghost predicate FirstRefusal(g: Graph, reqs: seq<Request>, k: nat) {
    k < |reqs| && AllAccepted(g, reqs[..k]) && !Step(Apply(g, reqs[..k]), reqs[k]).accepted
  }

  /** A run made of two parts is accepted exactly when the first is and the second is on the graph the first leaves. */
  lemma {:induction false} AllAcceptedConcat(g: Graph, a: seq<Request>, b: seq<Request>)
    ensures Apply(g, a + b) == Apply(Apply(g, a), b)
    ensures AllAccepted(g, a + b) <==> AllAccepted(g, a) && AllAccepted(Apply(g, a), b)
    decreases |b|
  {
    if b == [] {
      assert a + b == a;
    } else {
      var front := b[..|b| - 1];
      AllAcceptedConcat(g, a, front);
      assert (a + b)[..|a + b| - 1] == a + front;
      assert (a + b)[|a + b| - 1] == b[|b| - 1];
    }
  }

  /** A run with a refused request in it is not accepted. */
  lemma RefusalBlocks(g: Graph, reqs: seq<Request>, k: nat)
    requires k < |reqs| && !Step(Apply(g, reqs[..k]), reqs[k]).accepted
    ensures !AllAccepted(g, reqs)
  {
    var rest := reqs[k..];
    assert reqs == reqs[..k] + rest;
    AllAcceptedConcat(g, reqs[..k], rest);
    AllAcceptedConcat(Apply(g, reqs[..k]), [rest[0]], rest[1..]);
    assert [rest[0]] + rest[1..] == rest;
    assert [rest[0]][..0] == [];
  }

  /**
   * The parameter nodes are accepted by a graph that knows none of the
   * (distinct) parameter names, and afterwards it knows exactly those names
   * besides its own.
   */
  lemma {:induction false} PoiStepsAccepted(g: Graph, keys: seq<string>, values: map<string, real>)
    requires forall i :: 0 <= i < |keys| ==> keys[i] in values
    requires DistinctNames(keys)
    requires forall i :: 0 <= i < |keys| ==> !Known(g, keys[i])
    ensures AllAccepted(g, PoiSteps(keys, values))
    ensures forall nm :: Known(Apply(g, PoiSteps(keys, values)), nm) <==> Known(g, nm) || nm in keys
  {
    if keys != [] {
      var front := keys[..|keys| - 1];
      var last := keys[|keys| - 1];
      assert keys == front + [last];
      PoiStepsAccepted(g, front, values);
      var steps := PoiSteps(keys, values);
      assert steps[..|steps| - 1] == PoiSteps(front, values);
      assert last !in front by {
        forall i | 0 <= i < |front| ensures front[i] != last {
          assert front[i] == keys[i];
        }
      }
    }
  }

  /** A run is accepted exactly when its first request is, and the rest is on the graph that request leaves. */
  lemma AcceptedCons(g: Graph, req: Request, rest: seq<Request>)
    ensures Apply(g, [req] + rest) == Apply(Step(g, req).graph, rest)
    ensures AllAccepted(g, [req] + rest) <==> Step(g, req).accepted && AllAccepted(Step(g, req).graph, rest)
  {
    AllAcceptedConcat(g, [req], rest);
    assert [req][..0] == [];
  }

  /** `h` keeps every node and name of `g` and knows one more name at most, `name`, which is a node. */
  ghost predicate GrownBy(g: Graph, h: Graph, name: string) {
    && (forall nm :: nm in g.nodes ==> nm in h.nodes)
    && (forall nm :: Known(g, nm) ==> Known(h, nm))
    && (forall nm :: Known(h, nm) ==> Known(g, nm) || nm == name)
    && name in h.nodes
  }

  /** `_add_property_to_nexus` with a new name and known dependencies is accepted and adds just that node. */
  lemma PropertyRequestsAccepted(g: Graph, name: string, dependsOn: Option<seq<string>>)
    requires !Known(g, name)
    requires dependsOn.Some? ==> forall i :: 0 <= i < |dependsOn.value| ==> Known(g, dependsOn.value[i])
    ensures AllAccepted(g, PropertyRequests(name, dependsOn))
    ensures GrownBy(g, Apply(g, PropertyRequests(name, dependsOn)), name)
  {
    var reqs := PropertyRequests(name, dependsOn);
    var rest := if dependsOn.Some? then [AddDependency(name, dependsOn.value)] else [];
    assert reqs == [reqs[0]] + rest;
    var h := Step(g, reqs[0]).graph;
    assert Step(g, reqs[0]).accepted;
    assert GrownBy(g, h, name);
    AcceptedCons(g, reqs[0], rest);
    if dependsOn.Some? {
      AcceptedCons(h, rest[0], []);
      assert rest == [rest[0]] + [];
    }
  }

  /** Runs accepted one after the other make an accepted run. */
  lemma SeqAccepted(g: Graph, a: seq<Request>, b: seq<Request>)
    requires AllAccepted(g, a) && AllAccepted(Apply(g, a), b)
    ensures AllAccepted(g, a + b) && Apply(g, a + b) == Apply(Apply(g, a), b)
  {
    AllAcceptedConcat(g, a, b);
  }

  /** Four requests, each accepted on the graph the previous ones leave, make an accepted run. */
  lemma FourAccepted(g: Graph, a: Request, b: Request, c: Request, d: Request)
    requires Step(g, a).accepted
    requires Step(Step(g, a).graph, b).accepted
    requires Step(Step(Step(g, a).graph, b).graph, c).accepted
    requires Step(Step(Step(Step(g, a).graph, b).graph, c).graph, d).accepted
    ensures AllAccepted(g, [a, b, c, d])
  {
    var g1 := Step(g, a).graph;
    var g2 := Step(g1, b).graph;
    var g3 := Step(g2, c).graph;
    AcceptedCons(g3, d, []);
    AcceptedCons(g2, c, [d]);
    AcceptedCons(g1, b, [c, d]);
    AcceptedCons(g, a, [b, c, d]);
    assert [d] + [] == [d] && [c] + [d] == [c, d] && [b] + [c, d] == [b, c, d] && [a] + [b, c, d] == [a, b, c, d];
  }

  /**
   * The last requests of the tail: the callback on `poi_values`, the
   * dependency of `model`, the model function's alias (ignored when taken)
   * and the cost node, which needs `cost` to be free.
   */
  lemma TailEndAccepted(g: Graph, modelName: string, cost: CostSpec)
    requires "model" in g.nodes && "poi_values" in g.nodes && "parameter_values" in g.nodes
    requires !Known(g, "cost") && modelName != "cost"
    ensures AllAccepted(g, [RegisterCallback("poi_values", PushPoiValues),
                            AddDependency("model", ["parameter_values"]),
                            AddAlias(modelName, "model", Ignore),
                            AddNode("cost", FunctionNode(CostFunction(cost.name), cost.parNames), FailIfExists)])
  {
    var a := RegisterCallback("poi_values", PushPoiValues);
    var b := AddDependency("model", ["parameter_values"]);
    var c := AddAlias(modelName, "model", Ignore);
    var d := AddNode("cost", FunctionNode(CostFunction(cost.name), cost.parNames), FailIfExists);
    var g1 := Step(g, a).graph;
    assert Step(g, a).accepted;
    assert "model" in g1.nodes && "parameter_values" in g1.nodes && !Known(g1, "cost");
    var g2 := Step(g1, b).graph;
    assert Step(g1, b).accepted;
    assert "model" in g2.nodes && !Known(g2, "cost");
    var g3 := Step(g2, c).graph;
    assert Step(g2, c).accepted;
    assert !Known(g3, "cost");
    assert Step(g3, d).accepted;
    FourAccepted(g, a, b, c, d);
  }

  /**
   * The requests after the parameters of interest are all accepted by a
   * graph that has the `model` node and knows every parameter of interest
   * but none of the names the tail creates (`poi_values`,
   * `parameter_values`, `parameter_constraints`, `cost`), when the model
   * function is not called `cost`: `poi_values` depends on the parameters
   * of interest, `parameter_values` on `poi_values`, and `model` on
   * `parameter_values`.
   */
  lemma TailStepsAccepted(g: Graph, poiNames: seq<string>, modelName: string, cost: CostSpec)
    requires "model" in g.nodes
    requires forall i :: 0 <= i < |poiNames| ==> Known(g, poiNames[i])
    requires !Known(g, "poi_values") && !Known(g, "parameter_values")
    requires !Known(g, "parameter_constraints") && !Known(g, "cost")
    requires modelName != "cost"
    ensures AllAccepted(g, TailSteps(poiNames, modelName, cost))
  {
    var p1 := PropertyRequests("poi_values", Some(poiNames));
    var p2 := PropertyRequests("parameter_values", Some(["poi_values"]));
    var p3 := PropertyRequests("parameter_constraints", None);
    var e := [RegisterCallback("poi_values", PushPoiValues),
              AddDependency("model", ["parameter_values"]),
              AddAlias(modelName, "model", Ignore),
              AddNode("cost", FunctionNode(CostFunction(cost.name), cost.parNames), FailIfExists)];
    assert TailSteps(poiNames, modelName, cost) == p1 + p2 + p3 + e;
    PropertyRequestsAccepted(g, "poi_values", Some(poiNames));
    var h1 := Apply(g, p1);
    assert "model" in h1.nodes && "poi_values" in h1.nodes;
    assert !Known(h1, "parameter_values") && !Known(h1, "parameter_constraints") && !Known(h1, "cost");
    PropertyRequestsAccepted(h1, "parameter_values", Some(["poi_values"]));
    var h2 := Apply(h1, p2);
    assert "model" in h2.nodes && "poi_values" in h2.nodes && "parameter_values" in h2.nodes;
    assert !Known(h2, "parameter_constraints") && !Known(h2, "cost");
    PropertyRequestsAccepted(h2, "parameter_constraints", None);
    var h3 := Apply(h2, p3);
    assert "model" in h3.nodes && "poi_values" in h3.nodes && "parameter_values" in h3.nodes && !Known(h3, "cost");
    TailEndAccepted(h3, modelName, cost);
    SeqAccepted(g, p1, p2);
    SeqAccepted(g, p1 + p2, p3);
    SeqAccepted(g, p1 + p2 + p3, e);
  }

  /**
   * Makes the requests in order and stops at the first one the graph
   * refuses (a `NexusError` propagating out of `_init_nexus`), returning its
   * position; every request up to and including it is logged.
   */
  method Feed(n: Nexus, reqs: seq<Request>) returns (refusedAt: Option<nat>)
    requires n.Valid()
    modifies n`graph, n`log
    ensures n.Valid()
    ensures refusedAt.None? ==>
      && n.log == old(n.log) + reqs
      && AllAccepted(old(n.graph), reqs)
      && n.graph == Apply(old(n.graph), reqs)
    ensures refusedAt.Some? ==>
      && refusedAt.value < |reqs|
      && n.log == old(n.log) + reqs[..refusedAt.value + 1]
      && AllAccepted(old(n.graph), reqs[..refusedAt.value])
      && !Step(Apply(old(n.graph), reqs[..refusedAt.value]), reqs[refusedAt.value]).accepted
  {
    ghost var g0 := n.graph;
    ghost var log0 := n.log;
    var k := 0;
    while k < |reqs|
      invariant 0 <= k <= |reqs|
      invariant n.Valid()
      invariant n.log == log0 + reqs[..k]
      invariant n.graph == Apply(g0, reqs[..k])
      invariant AllAccepted(g0, reqs[..k])
    {
      FeedStep(g0, log0, reqs, k);
      var ok := n.Submit(reqs[k]);
      if !ok {
        return Some(k);
      }
      k := k + 1;
    }
    assert reqs[..k] == reqs;
    return None;
  }

  /** One more request of a run: the log grows by it and the graph takes one more step. */
  lemma FeedStep(g0: Graph, log0: seq<Request>, reqs: seq<Request>, k: nat)
    requires k < |reqs|
    ensures log0 + reqs[..k] + [reqs[k]] == log0 + reqs[..k + 1]
    ensures Apply(g0, reqs[..k + 1]) == Step(Apply(g0, reqs[..k]), reqs[k]).graph
    ensures AllAccepted(g0, reqs[..k]) && Step(Apply(g0, reqs[..k]), reqs[k]).accepted ==> AllAccepted(g0, reqs[..k + 1])
  {
    var done := reqs[..k + 1];
    assert done[..k] == reqs[..k] && done[k] == reqs[k];
    assert done == reqs[..k] + [reqs[k]];
  }

  /** Concatenation regrouped, so that a log extended piece by piece matches a plan. */
  lemma Regroup<T>(a: seq<T>, b: seq<T>, c: seq<T>, d: seq<T>, e: seq<T>)
    ensures a + b + c + d + e == a + (b + c + d + e)
  {
  }

  /** `Feed`, with a refusal turned into the `NexusError` it raises. */
  method FeedRequests(n: Nexus, reqs: seq<Request>) returns (r: Outcome<FitError>)
    requires n.Valid()
    modifies n`graph, n`log
    ensures n.Valid()
    ensures r.Pass? <==> AllAccepted(old(n.graph), reqs)
    ensures r.Pass? ==> n.log == old(n.log) + reqs && n.graph == Apply(old(n.graph), reqs)
    ensures r.Fail? ==> exists k: nat :: FirstRefusal(old(n.graph), reqs, k) && r == Fail(NexusRefused(reqs[k]))
                                    && n.log == old(n.log) + reqs[..k + 1]
  {
    var at := Feed(n, reqs);
    if at.Some? {
      RefusalBlocks(old(n.graph), reqs, at.value);
      assert FirstRefusal(old(n.graph), reqs, at.value);
      return Fail(NexusRefused(reqs[at.value]));
    }
    return Pass;
  }

  class Fit {
    /** `_data_container`. */
    const dataContainer: XYContainers.XYContainer
    /** `_param_model`: the parametric model and, through it, the model's own container. */
    const paramModel: Models.ParametricModel
    /** `_model_function`. */
    const modelFunction: Models.ModelFunction
    /** The parameters of `model_function.signature`. */
    const signature: seq<SigParam>
    /** `model_function.x_name`, when the model function has one. */
    const xName: Option<string>
    /** `kc('core', 'default_initial_parameter_value')`. */
    const defaultInitialValue: real
    /** `RESERVED_NODE_NAMES`. */
    const reservedNames: set<string>
    /** `AXES`. */
    const axes: Option<seq<string>>
    /** The names of the properties the fit class defines (the others raise `AttributeError`). */
    const supported: set<string>
    /** `_cost_function`. */
    const cost: CostSpec

    /** `_nexus`. */
    var nexus: Nexus?
    /** `_fitter`, `None` until the fitter is initialised. */
    var fitter: Option<FitterState>
    /** `_poi_value_dict`: its keys in order, and the values. */
    var poiNames: seq<string>
    var poiValueDict: map<string, real>
    /** `_fit_param_names`. */
    var fitParamNames: seq<string>
    /** `_fit_param_constraints`. */
    var fitParamConstraints: seq<Constraint>

    /** Both containers are coherent and distinct, the graph is coherent, and the parameters of interest are the dictionary's keys. */
    ghost predicate Valid()
      reads this, dataContainer, paramModel, paramModel.container, nexus
    {
      && ContainersValid()
      && (nexus != null ==> nexus.Valid())
      && ParametersValid()
    }

    /** Both containers are coherent and distinct. */
    ghost predicate ContainersValid()
      reads dataContainer, paramModel, paramModel.container
    {
      dataContainer.Valid() && paramModel.Valid() && dataContainer != paramModel.container
    }

    /** The parameters of interest are distinct and are the dictionary's keys. */
    ghost predicate ParametersValid()
      reads this
    {
      && DistinctNames(poiNames)
      && poiValueDict.Keys == (set k | k in poiNames)
      && PoiKeysKnown()
      && DistinctParams(signature)
    }

    /** Every parameter of interest has a value in the dictionary. */
    predicate PoiKeysKnown()
      reads this
    {
      forall i :: 0 <= i < |poiNames| ==> poiNames[i] in poiValueDict
    }

    /** The state a concrete fit's constructor starts from, before the parameters are initialised. */
    constructor Init(dataContainer: XYContainers.XYContainer, paramModel: Models.ParametricModel,
                     modelFunction: Models.ModelFunction, signature: seq<SigParam>, xName: Option<string>,
                     defaultInitialValue: real, reservedNames: set<string>, axes: Option<seq<string>>,
                     supported: set<string>, cost: CostSpec)
      requires dataContainer.Valid() && paramModel.Valid() && dataContainer != paramModel.container
      requires DistinctParams(signature)
      ensures Valid()
      ensures this.dataContainer == dataContainer && this.paramModel == paramModel
      ensures this.modelFunction == modelFunction && this.signature == signature && this.xName == xName
      ensures this.defaultInitialValue == defaultInitialValue && this.reservedNames == reservedNames
      ensures this.axes == axes && this.supported == supported && this.cost == cost
      ensures nexus == null && fitter.None? && poiNames == [] && fitParamNames == [] && fitParamConstraints == []
    {
      this.dataContainer := dataContainer;
      this.paramModel := paramModel;
      this.modelFunction := modelFunction;
      this.signature := signature;
      this.xName := xName;
      this.defaultInitialValue := defaultInitialValue;
      this.reservedNames := reservedNames;
      this.axes := axes;
      this.supported := supported;
      this.cost := cost;
      nexus := null;
      fitter := None;
      poiNames := [];
      poiValueDict := map[];
      fitParamNames := [];
      fitParamConstraints := [];
    }

    /**
     * `_init_fit_parameters`: the parameters of interest are the model
     * function's parameters other than `x_name`, with their defaults; the
     * fit parameters start as the same names. Only these three fields
     * change, so the containers and the graph keep their invariants.
     */
    method InitFitParameters()
      requires DistinctParams(signature)
      modifies this`poiNames, this`poiValueDict, this`fitParamNames
      ensures ParametersValid()
      ensures poiNames == ParamNames(FreeParameters(signature, xName)) && fitParamNames == poiNames
      ensures poiValueDict == DefaultsMap(FreeParameters(signature, xName), defaultInitialValue)
    {
      var keys, values := GetDefaultValues(signature, xName, defaultInitialValue);
      DefaultValuesComplete(signature, xName, defaultInitialValue);
      poiValueDict := values;
      poiNames := keys;
      fitParamNames := keys;
    }

    /** `_validate_model_function_for_fit_raise` on this fit's model function. */
    function ValidateModelFunctionForFitRaise(): (r: Outcome<FitError>)
      reads modelFunction
      ensures r.Pass? <==> (forall p :: p in signature ==> p.name !in reservedNames) && modelFunction.Name() !in reservedNames
    {
      ValidateModelFunctionForFit(reservedNames, ParamNames(signature), modelFunction.Name())
    }

    // ---- projections --------------------------------------------------------------------------

    /** `parameter_name_value_dict`: the fitter's values once there is a fitter, else the defaults. */
    function ParameterNameValueDict(): (d: map<string, real>)
      reads this
      ensures fitter.Some? ==> d == fitter.value.values
      ensures fitter.None? ==> d == poiValueDict
      ensures ParametersValid() && fitter.None? ==> forall i :: 0 <= i < |poiNames| ==> poiNames[i] in d
    {
      if fitter.Some? then fitter.value.values else poiValueDict
    }

    /** `poi_values`: the current value of every parameter of interest; `None` for a `KeyError`. */
    function PoiValues(): (r: Result<seq<real>, FitError>)
      reads this
      ensures r.Ok? <==> forall i :: 0 <= i < |poiNames| ==> poiNames[i] in ParameterNameValueDict()
      ensures r.Ok? ==>
        && |r.value| == |poiNames|
        && forall i :: 0 <= i < |poiNames| ==> r.value[i] == ParameterNameValueDict()[poiNames[i]]
    {
      ValuesOf(ParameterNameValueDict(), poiNames)
    }

    /** `parameter_values`: the parameters of interest before there is a fitter, the fitter's parameters after. */
    function ParameterValues(): (r: Result<seq<real>, FitError>)
      reads this
      ensures fitter.None? ==> r == PoiValues()
      ensures fitter.Some? ==> r == ValuesOf(fitter.value.values, fitter.value.parametersToFit)
    {
      if fitter.None? then PoiValues() else ValuesOf(fitter.value.values, fitter.value.parametersToFit)
    }

    /** `parameter_names`. */
    function ParameterNames(): (r: seq<string>)
      reads this
      ensures fitter.None? ==> r == poiNames
      ensures fitter.Some? ==> r == fitter.value.parametersToFit
    {
      if fitter.None? then poiNames else fitter.value.parametersToFit
    }

    /** `has_errors`: some error source is defined for the data or for the model. */
    function HasErrors(): (b: bool)
      reads this, dataContainer, paramModel, paramModel.container
      ensures b <==> dataContainer.errorDicts != [] || paramModel.container.errorDicts != []
    {
      dataContainer.HasErrors() || paramModel.container.HasErrors()
    }

    /**
     * The callback on `poi_values`: the current values of the parameters of
     * interest go through the model's `parameters` setter, which empties the
     * model container's error caches.
     */
    method PushPoiValues() returns (r: Outcome<FitError>)
      requires Valid()
      modifies paramModel`modelParameters, paramModel`calculationStale,
        paramModel.container`totalErrors, paramModel.container`splitSystem
      ensures Valid()
      ensures PoiValues().Err? ==> r == Fail(PoiValues().error) && unchanged(paramModel) && unchanged(paramModel.container)
      ensures PoiValues().Ok? ==>
        && r.Pass? && paramModel.Parameters() == PoiValues().value && paramModel.calculationStale
        && paramModel.container.totalErrors.None? && paramModel.container.splitSystem.None?
    {
      var values := PoiValues();
      if values.Err? {
        return Fail(values.error);
      }
      paramModel.SetParameters(values.value);
      return Pass;
    }

    // ---- constraints --------------------------------------------------------------------------

    /**
     * `add_parameter_constraint`: an unknown name raises and changes
     * nothing; otherwise one constraint on the name's position among the
     * parameters of interest is appended.
     */
    method AddParameterConstraint(name: string, value: real, uncertainty: real, relative: bool)
      returns (r: Outcome<FitError>)
      modifies this`fitParamConstraints
      ensures name !in poiNames ==> r == Fail(UnknownParameter(name)) && fitParamConstraints == old(fitParamConstraints)
      ensures name in poiNames ==>
        && r.Pass?
        && fitParamConstraints == old(fitParamConstraints) + [SimpleConstraint(IndexOf(poiNames, name).value, value, uncertainty, relative)]
    {
      var index := IndexOf(poiNames, name);
      if index.None? {
        return Fail(UnknownParameter(name));
      }
      fitParamConstraints := fitParamConstraints + [SimpleConstraint(index.value, value, uncertainty, relative)];
      return Pass;
    }

    /**
     * `add_matrix_parameter_constraint`: lengths of names and values are
     * checked before any lookup; the first unknown name raises; otherwise
     * exactly one constraint is appended whose indices are the names'
     * positions among the parameters of interest. A raise changes nothing.
     */
    method AddMatrixParameterConstraint(names: seq<string>, values: seq<real>, matrix: seq<seq<real>>,
                                        matrixType: string, uncertainties: Option<seq<real>>, relative: bool)
      returns (r: Outcome<FitError>)
      modifies this`fitParamConstraints
      ensures r.Fail? ==> fitParamConstraints == old(fitParamConstraints)
      ensures |names| != |values| ==> r == Fail(NamesValuesLengthMismatch(|names|, |values|))
      ensures |names| == |values| ==> (r.Pass? <==> forall i :: 0 <= i < |names| ==> names[i] in poiNames)
      ensures |names| == |values| && r.Fail? ==>
        (exists k :: 0 <= k < |names| && r == Fail(UnknownParameter(names[k]))
                     && names[k] !in poiNames && forall j :: 0 <= j < k ==> names[j] in poiNames)
      ensures r.Pass? ==>
        && (forall i :: 0 <= i < |names| ==> names[i] in poiNames)
        && fitParamConstraints == old(fitParamConstraints)
           + [MatrixConstraint(IndicesOf(names, poiNames), values, matrix, matrixType, uncertainties, relative)]
    {
      if |names| != |values| {
        return Fail(NamesValuesLengthMismatch(|names|, |values|));
      }
      var indices: seq<nat> := [];
      var k := 0;
      while k < |names|
        invariant 0 <= k <= |names|
        invariant forall j :: 0 <= j < k ==> names[j] in poiNames
        invariant |indices| == k
        invariant forall j :: 0 <= j < k ==> indices[j] == IndexOf(poiNames, names[j]).value
      {
        var index := IndexOf(poiNames, names[k]);
        if index.None? {
          return Fail(UnknownParameter(names[k]));
        }
        indices := indices + [index.value];
        k := k + 1;
      }
      assert indices == IndicesOf(names, poiNames);
      fitParamConstraints := fitParamConstraints + [MatrixConstraint(indices, values, matrix, matrixType, uncertainties, relative)];
      return Pass;
    }

    // ---- errors -------------------------------------------------------------------------------

    /**
     * `get_matching_errors`. `query` is the containers' own
     * `get_matching_errors` (not part of this model). A `reference` of
     * `'data'` or `'model'` asks only that container; any other value but
     * `None` raises; otherwise both are asked and their results merged, a
     * name found in both failing the collision assertion.
     */
    method GetMatchingErrors(criteria: Option<map<string, Crit>>,
                             query: (seq<XYContainers.ErrorDict>, Option<map<string, Crit>>) -> map<string, XYContainers.ErrorDict>)
      returns (r: Result<map<string, XYContainers.ErrorDict>, FitError>)
      requires Valid()
      ensures ReferenceOf(criteria) == Text("data") ==> r == Ok(query(dataContainer.errorDicts, RestOf(criteria)))
      ensures ReferenceOf(criteria) == Text("model") ==> r == Ok(query(paramModel.container.errorDicts, RestOf(criteria)))
      ensures ReferenceOf(criteria) !in {Text("data"), Text("model"), NoneValue} ==>
        r == Err(UnknownMatchingReference(ReferenceOf(criteria)))
      ensures ReferenceOf(criteria) == NoneValue ==>
        var fromData := query(dataContainer.errorDicts, RestOf(criteria));
        var fromModel := query(paramModel.container.errorDicts, RestOf(criteria));
        && (r.Ok? <==> fromData.Keys !! fromModel.Keys)
        && (r.Ok? ==> r.value == fromData + fromModel)
        && (r.Err? ==> r.error.NameCollision? && r.error.name in fromData && r.error.name in fromModel)
    {
      var reference := ReferenceOf(criteria);
      var rest := RestOf(criteria);
      if reference == Text("data") {
        return Ok(query(dataContainer.errorDicts, rest));
      } else if reference == Text("model") {
        return Ok(query(paramModel.container.errorDicts, rest));
      } else if reference != NoneValue {
        return Err(UnknownMatchingReference(reference));
      }
      var result := query(dataContainer.errorDicts, rest);
      var fromModel := query(paramModel.container.errorDicts, rest);
      var remaining := fromModel.Keys;
      while remaining != {}
        invariant remaining <= fromModel.Keys
        invariant (fromModel.Keys - remaining) !! query(dataContainer.errorDicts, rest).Keys
        invariant result == query(dataContainer.errorDicts, rest) + (map k | k in fromModel.Keys - remaining :: fromModel[k])
        decreases remaining
      {
        var k :| k in remaining;
        if k in result {
          return Err(NameCollision(k));
        }
        result := result[k := fromModel[k]];
        remaining := remaining - {k};
      }
      assert fromModel == map k | k in fromModel.Keys - remaining :: fromModel[k];
      return Ok(result);
    }

    /** The container a `reference` names, `None` for any other value. */
    function ReferenceContainer(reference: string): Option<XYContainers.XYContainer>
      reads this, paramModel
    {
      if reference == "data" then Some(dataContainer)
      else if reference == "model" then Some(paramModel.container)
      else None
    }

    /**
     * `add_simple_error`: delegated to the container `reference` names; any
     * other reference raises and changes nothing. The other container is
     * never touched.
     */
    method AddSimpleError(reference: string, axis: XYContainers.AxisSpec, errVal: XYContainers.ErrVal,
                          name: Option<string>, correlation: real, relative: bool, splittable: bool,
                          parts: XYContainers.ErrorParts, generated: string)
      returns (r: Result<string, FitError>)
      requires Valid()
      requires generated !in XYContainers.Names(dataContainer.errorDicts)
      requires generated !in XYContainers.Names(paramModel.container.errorDicts)
      requires XYContainers.Decomposed(parts) && parts.corrCoeff == correlation
      modifies dataContainer, paramModel.container
      ensures Valid()
      ensures reference != "data" && reference != "model" ==> r == Err(UnknownReference(reference))
      ensures reference != "data" ==> unchanged(dataContainer)
      ensures reference != "model" ==> unchanged(paramModel.container)
      ensures reference in {"data", "model"} ==>
        var c := ReferenceContainer(reference).value;
        var a := XYContainers.FindAxis(axis);
        && (a.Err? ==> r == Err(Container(a.error)))
        && (a.Ok? ==> (r.Ok? <==> name.None? || name.value !in XYContainers.Names(old(c.errorDicts))))
        && (a.Ok? && r.Err? ==> r == Err(Container(XYContainers.DuplicateErrorName(name.value))))
        && (r.Err? ==> unchanged(c))
        && (r.Ok? ==>
              && r.value == (if name.Some? then name.value else generated)
              && c.errorDicts == old(c.errorDicts) + [XYContainers.ErrorDict(r.value, a.value, true,
                   splittable && correlation != 0.0,
                   XYContainers.GaussianError(XYContainers.Simple(XYContainers.Broadcast(errVal, old(c.Size()))),
                                              relative, c.xyData[a.value], parts))]
              && c.xyData == old(c.xyData) && c.totalErrors.None? && c.splitSystem.None?)
    {
      var target: XYContainers.XYContainer;
      if reference == "data" {
        target := dataContainer;
      } else if reference == "model" {
        target := paramModel.container;
      } else {
        return Err(UnknownReference(reference));
      }
      var added := target.AddSimpleError(axis, errVal, name, correlation, relative, splittable, parts, generated);
      if added.Err? {
        return Err(Container(added.error));
      }
      return Ok(added.value);
    }

    /**
     * `add_matrix_error`: delegated like `add_simple_error`; the source
     * added is never splittable.
     */
    method AddMatrixError(reference: string, axis: XYContainers.AxisSpec, errMatrix: LinAlg.Matrix, matrixType: string,
                          name: Option<string>, errVal: Option<seq<real>>, relative: bool,
                          parts: XYContainers.ErrorParts, generated: string)
      returns (r: Result<string, FitError>)
      requires Valid()
      requires generated !in XYContainers.Names(dataContainer.errorDicts)
      requires generated !in XYContainers.Names(paramModel.container.errorDicts)
      modifies dataContainer, paramModel.container
      ensures Valid()
      ensures reference != "data" && reference != "model" ==> r == Err(UnknownReference(reference))
      ensures reference != "data" ==> unchanged(dataContainer)
      ensures reference != "model" ==> unchanged(paramModel.container)
      ensures reference in {"data", "model"} ==>
        var c := ReferenceContainer(reference).value;
        var a := XYContainers.FindAxis(axis);
        && (a.Err? ==> r == Err(Container(a.error)))
        && (a.Ok? ==> (r.Ok? <==> name.None? || name.value !in XYContainers.Names(old(c.errorDicts))))
        && (a.Ok? && r.Err? ==> r == Err(Container(XYContainers.DuplicateErrorName(name.value))))
        && (r.Err? ==> unchanged(c))
        && (r.Ok? ==>
              && r.value == (if name.Some? then name.value else generated)
              && c.errorDicts == old(c.errorDicts) + [XYContainers.ErrorDict(r.value, a.value, true, false,
                   XYContainers.GaussianError(XYContainers.MatrixError(errMatrix, matrixType, errVal),
                                              relative, c.xyData[a.value], parts))]
              && c.xyData == old(c.xyData) && c.totalErrors.None? && c.splitSystem.None?)
    {
      var target: XYContainers.XYContainer;
      if reference == "data" {
        target := dataContainer;
      } else if reference == "model" {
        target := paramModel.container;
      } else {
        return Err(UnknownReference(reference));
      }
      var added := target.AddMatrixError(axis, errMatrix, matrixType, name, errVal, relative, parts, generated);
      if added.Err? {
        return Err(Container(added.error));
      }
      return Ok(added.value);
    }

    /**
     * `disable_error`: the data container is tried first; only when it
     * does not know the name is the model container asked.
     */
    method DisableError(name: string) returns (r: Outcome<FitError>)
      requires Valid()
      modifies dataContainer, paramModel.container
      ensures Valid()
      ensures name in XYContainers.Names(old(dataContainer.errorDicts)) ==>
        && r.Pass? && unchanged(paramModel.container)
        && dataContainer.errorDicts == XYContainers.DisableNamed(old(dataContainer.errorDicts), name)
        && dataContainer.xyData == old(dataContainer.xyData)
        && dataContainer.totalErrors.None? && dataContainer.splitSystem.None?
      ensures name !in XYContainers.Names(old(dataContainer.errorDicts)) ==>
        && unchanged(dataContainer)
        && (r.Pass? <==> name in XYContainers.Names(old(paramModel.container.errorDicts)))
      ensures name !in XYContainers.Names(old(dataContainer.errorDicts)) && r.Pass? ==>
        && paramModel.container.errorDicts == XYContainers.DisableNamed(old(paramModel.container.errorDicts), name)
        && paramModel.container.xyData == old(paramModel.container.xyData)
        && paramModel.container.totalErrors.None? && paramModel.container.splitSystem.None?
      ensures r.Fail? ==> r == Fail(Container(XYContainers.NoSuchError(name))) && unchanged(paramModel.container)
    {
      var fromData := dataContainer.DisableError(name);
      if fromData.Pass? {
        return Pass;
      }
      var fromModel := paramModel.container.DisableError(name);
      if fromModel.Fail? {
        return Fail(Container(fromModel.error));
      }
      return Pass;
    }

    // ---- the graph ----------------------------------------------------------------------------

    /** The requests of `_init_nexus` whose refusal raises: all but the cost alias. */
    ghost function PlanBody(): seq<Request>
      reads this, modelFunction
      requires PoiKeysKnown()
    {
      HeadSteps(axes, supported) + PoiSteps(poiNames, poiValueDict) + TailSteps(poiNames, modelFunction.Name(), cost)
    }

    /** Everything `_init_nexus` asks of the graph, in order, when nothing is refused. */
    ghost function Plan(): seq<Request>
      reads this, modelFunction
      requires PoiKeysKnown()
    {
      PlanBody() + [CostAlias(cost)]
    }

    /**
     * `_add_property_to_nexus`: a property node that is accepted in place
     * of an empty placeholder, and its explicit dependencies when given.
     */
    method AddPropertyToNexus(n: Nexus, prop: string, dependsOn: Option<seq<string>>) returns (refusedAt: Option<nat>)
      requires n.Valid()
      modifies n`graph, n`log
      ensures n.Valid()
      ensures refusedAt.None? <==> AllAccepted(old(n.graph), PropertyRequests(prop, dependsOn))
      ensures refusedAt.None? ==>
        && n.log == old(n.log) + PropertyRequests(prop, dependsOn)
        && n.graph == Apply(old(n.graph), PropertyRequests(prop, dependsOn))
      ensures refusedAt.Some? ==>
        && FirstRefusal(old(n.graph), PropertyRequests(prop, dependsOn), refusedAt.value)
        && n.log == old(n.log) + PropertyRequests(prop, dependsOn)[..refusedAt.value + 1]
    {
      refusedAt := Feed(n, PropertyRequests(prop, dependsOn));
      if refusedAt.Some? {
        RefusalBlocks(old(n.graph), PropertyRequests(prop, dependsOn), refusedAt.value);
      }
    }

    /** The part of `Valid` the graph requests rely on: the own graph, if any, and a value for every parameter. */
    ghost predicate GraphReady()
      reads this, nexus
    {
      (nexus != null ==> nexus.Valid()) && PoiKeysKnown()
    }

    /** The parameter nodes, which go to the fit's own graph; without one there is nowhere to put them. */
    method FeedPoi() returns (r: Outcome<FitError>)
      requires GraphReady()
      modifies nexus
      ensures GraphReady()
      ensures poiNames == [] ==> r.Pass? && (nexus != null ==> nexus.log == old(nexus.log))
      ensures nexus == null && poiNames != [] ==> r == Fail(NoOwnNexus)
      ensures r.Pass? && nexus != null ==> nexus.log == old(nexus.log) + PoiSteps(poiNames, poiValueDict)
      ensures nexus != null ==> (r.Pass? <==> AllAccepted(old(nexus.graph), PoiSteps(poiNames, poiValueDict)))
      ensures r.Pass? && nexus != null ==> nexus.graph == Apply(old(nexus.graph), PoiSteps(poiNames, poiValueDict))
      ensures r.Fail? ==> r == Fail(NoOwnNexus) || (r.error.NexusRefused? && r.error.request in PoiSteps(poiNames, poiValueDict))
      ensures r == Fail(NoOwnNexus) ==> nexus == null && poiNames != []
    {
      var poi := PoiSteps(poiNames, poiValueDict);
      if poi == [] {
        return Pass;
      }
      if nexus == null {
        return Fail(NoOwnNexus);
      }
      r := FeedRequests(nexus, poi);
    }

    /**
     * Submits `head` and `tail` to `n` with the parameter nodes between them
     * on the fit's own graph, then `last`, whose refusal is ignored. The
     * first other refusal ends the run.
     */
    method SubmitAround(n: Nexus, head: seq<Request>, tail: seq<Request>, last: Request) returns (r: Outcome<FitError>)
      requires GraphReady() && n.Valid()
      requires last !in head && last !in tail && last !in PoiSteps(poiNames, poiValueDict)
      modifies n, nexus
      ensures GraphReady() && n.Valid()
      ensures r.Fail? ==> r.error != NexusRefused(last)
      ensures r.Fail? ==> r == Fail(NoOwnNexus)
                          || (r.error.NexusRefused? && r.error.request in head + PoiSteps(poiNames, poiValueDict) + tail)
      ensures r == Fail(NoOwnNexus) ==> nexus == null && poiNames != []
      ensures n == nexus ==> (r.Pass? <==> AllAccepted(old(n.graph), head + PoiSteps(poiNames, poiValueDict) + tail))
      ensures n != nexus ==>
        (r.Pass? <==> && AllAccepted(old(n.graph), head + tail)
                      && (nexus == null ==> poiNames == [])
                      && (nexus != null ==> AllAccepted(old(nexus.graph), PoiSteps(poiNames, poiValueDict))))
      ensures r.Pass? && n == nexus ==> n.log == old(n.log) + (head + PoiSteps(poiNames, poiValueDict) + tail + [last])
      ensures r.Pass? && n != nexus ==> n.log == old(n.log) + (head + tail + [last])
      ensures r.Pass? && nexus != null && n != nexus ==> nexus.log == old(nexus.log) + PoiSteps(poiNames, poiValueDict)
      ensures nexus == null && poiNames != [] ==> r.Fail?
    {
      ghost var before := n.log;
      ghost var g0 := n.graph;
      ghost var poi := PoiSteps(poiNames, poiValueDict);
      ghost var own := if nexus != null then nexus.log else [];
      ghost var poiHere: seq<Request> := if n == nexus then poi else [];
      assert head + [] == head;
      AllAcceptedConcat(g0, head, poiHere);
      AllAcceptedConcat(g0, head + poiHere, tail);
      r := FeedRequests(n, head);
      if r.Fail? {
        return;
      }
      assert n.log == before + head && n.graph == Apply(g0, head);
      r := FeedPoi();
      if r.Fail? {
        return;
      }
      assert n.log == before + head + poiHere;
      assert n.graph == Apply(g0, head + poiHere);
      assert nexus != null && n != nexus ==> nexus.log == own + poi;
      r := FeedRequests(n, tail);
      if r.Fail? {
        return;
      }
      var _ := n.Submit(last);
      assert n.log == before + head + poiHere + tail + [last];
      Regroup(before, head, poiHere, tail, [last]);
      assert head + [] == head;
    }

    /** The requests of `_init_nexus` when they all go to the fit's own graph: exactly the plan. */
    method SubmitToOwn() returns (r: Outcome<FitError>)
      requires GraphReady() && nexus != null
      modifies nexus
      ensures GraphReady()
      ensures r.Fail? ==> r.error != NexusRefused(CostAlias(cost))
      ensures r.Pass? <==> AllAccepted(old(nexus.graph), PlanBody())
      ensures r.Fail? ==> r.error.NexusRefused? && r.error.request in PlanBody()
      ensures r.Pass? ==> nexus.log == old(nexus.log) + Plan()
    {
      CostAliasOnlyLast(axes, supported, poiNames, poiValueDict, modelFunction.Name(), cost);
      r := SubmitAround(nexus, HeadSteps(axes, supported), TailSteps(poiNames, modelFunction.Name(), cost), CostAlias(cost));
    }

    /**
     * The requests of `_init_nexus` when a graph other than the fit's own is
     * passed: the parameter nodes still go to the fit's own graph, and
     * without one the call fails.
     */
    method SubmitToOther(n: Nexus) returns (r: Outcome<FitError>)
      requires GraphReady() && n.Valid() && n != nexus
      modifies n, nexus
      ensures GraphReady() && n.Valid()
      ensures r.Fail? ==> r.error != NexusRefused(CostAlias(cost))
      ensures r.Fail? ==> r == Fail(NoOwnNexus) || (r.error.NexusRefused? && r.error.request in PlanBody())
      ensures r == Fail(NoOwnNexus) ==> nexus == null && poiNames != []
      ensures r.Pass? <==>
        && AllAccepted(old(n.graph), HeadSteps(axes, supported) + TailSteps(poiNames, modelFunction.Name(), cost))
        && (nexus == null ==> poiNames == [])
        && (nexus != null ==> AllAccepted(old(nexus.graph), PoiSteps(poiNames, poiValueDict)))
      ensures r.Pass? ==>
        n.log == old(n.log) + (HeadSteps(axes, supported) + TailSteps(poiNames, modelFunction.Name(), cost) + [CostAlias(cost)])
      ensures r.Pass? && nexus != null ==> nexus.log == old(nexus.log) + PoiSteps(poiNames, poiValueDict)
      ensures nexus == null && poiNames != [] ==> r.Fail?
    {
      CostAliasOnlyLast(axes, supported, poiNames, poiValueDict, modelFunction.Name(), cost);
      r := SubmitAround(n, HeadSteps(axes, supported), TailSteps(poiNames, modelFunction.Name(), cost), CostAlias(cost));
    }

    /**
     * `_init_nexus(nexus)`. Without an argument a new graph is created and
     * becomes the fit's own. The parameter nodes always go to the fit's own
     * graph (`self._nexus`), even when a different one was passed; without
     * one of its own there is nowhere to put them.
     */
    method InitNexus(nexusArg: Nexus?) returns (r: Result<Nexus, FitError>)
      requires Valid() && (nexusArg != null ==> nexusArg.Valid())
      modifies this`nexus, nexusArg, nexus
      ensures Valid()
      ensures nexusArg == null ==> fresh(nexus)
      ensures nexusArg != null ==> nexus == old(nexus)
      ensures r.Ok? ==> r.value == (if nexusArg == null then nexus else nexusArg)
      ensures r.Err? ==> r.error != NexusRefused(CostAlias(cost))
      ensures r.Err? ==> r == Err(NoOwnNexus) || (r.error.NexusRefused? && r.error.request in PlanBody())
      ensures r == Err(NoOwnNexus) ==> nexusArg != null && nexus == null && poiNames != []
      ensures nexusArg == null ==> (r.Ok? <==> AllAccepted(Graph(map[], map[]), PlanBody()))
      ensures nexusArg != null && nexusArg == old(nexus) ==> (r.Ok? <==> AllAccepted(old(nexusArg.graph), PlanBody()))
      ensures nexusArg != null && nexusArg != old(nexus) ==>
        (r.Ok? <==> && AllAccepted(old(nexusArg.graph), HeadSteps(axes, supported) + TailSteps(poiNames, modelFunction.Name(), cost))
                    && (nexus == null ==> poiNames == [])
                    && (nexus != null ==> AllAccepted(old(nexus.graph), PoiSteps(poiNames, poiValueDict))))
      ensures r.Ok? && nexusArg == null ==> nexus.log == Plan()
      ensures r.Ok? && nexusArg != null && nexusArg == nexus ==> nexus.log == old(nexus.log) + Plan()
      ensures r.Ok? && nexusArg != null && nexusArg != nexus ==>
        nexusArg.log == old(nexusArg.log) + (HeadSteps(axes, supported)
          + TailSteps(poiNames, modelFunction.Name(), cost) + [CostAlias(cost)])
      ensures r.Ok? && nexusArg != null && nexus != null && nexusArg != nexus ==>
        nexus.log == old(nexus.log) + PoiSteps(poiNames, poiValueDict)
      ensures nexusArg != null && nexus == null && poiNames != [] ==> r.Err?
    {
      var n: Nexus;
      var o: Outcome<FitError>;
      if nexusArg == null {
        n := new Nexus.Init();
        nexus := n;
        o := SubmitToOwn();
      } else if nexusArg == nexus {
        n := nexusArg;
        o := SubmitToOwn();
      } else {
        n := nexusArg;
        o := SubmitToOther(n);
      }
      if o.Fail? {
        return Err(o.error);
      }
      return Ok(n);
    }
  }
}
