/**
 * The requests `_init_nexus` (kafe2/fit/_base/fit.py) makes to the graph,
 * as a function of the fit's configuration: its `AXES`, the set of property
 * names its class defines, its parameters of interest, its model function
 * name and its cost function. The method that makes the requests is
 * `Fits.Fit.InitNexus`; this module states what they are and proves what
 * the naming and wiring scheme guarantees.
 */
module FitPlans {
  import opened Wrappers
  import opened Util
  import opened Nexuses

  /** The cost function: its name and the names of its parameters. */
  datatype CostSpec = CostSpec(name: string, parNames: seq<string>)

  const Types: seq<string> := ["data", "model"]
  const Props: seq<Piece> := [None, Some("error"), Some("cov_mat"), Some("cor_mat")]

  /** `self.AXES or (None,)`: no axes, or an empty tuple, give the single axis `None`. */
  function AxisPieces(axes: Option<seq<string>>): (r: seq<Piece>)
    ensures |r| >= 1
    ensures axes.None? || axes.value == [] ==> r == [None]
    ensures axes.Some? && axes.value != [] ==> |r| == |axes.value| && forall i :: 0 <= i < |r| ==> r[i] == Some(axes.value[i])
  {
    if axes.None? || axes.value == [] then [None]
    else seq(|axes.value|, i requires 0 <= i < |axes.value| => Some(axes.value[i]))
  }

  /**
   * `string_join_if((axis, type, prop))`: its truthy parts joined by `_`
   * (`PropNameIsNodeName`).
   */
  function PropName(axis: Piece, ty: string, prop: Piece): string {
    Join(Components(axis, ty, prop), "_")
  }

  /** `_add_property_to_nexus(prop, depends_on=...)`: a property node, then its explicit dependencies. */
  function PropertyRequests(name: string, dependsOn: Option<seq<string>>): seq<Request> {
    [AddNode(name, FunctionNode(PropertyGetter(name), []), ReplaceIfEmpty)]
    + (if dependsOn.Some? then [AddDependency(name, dependsOn.value)] else [])
  }

  /** The `<name>_inverse` node that inverts the matrix `name`. */
  function InverseRequest(name: string, policy: Policy): Request {
    AddNode(name + "_inverse", FunctionNode(InvertMatrix, [name]), policy)
  }

  /** One `(axis, type, prop)`: nothing for an unsupported property, else the node, and its inverse for a `cov_mat`. */
  function PropertyStep(axis: Piece, ty: string, prop: Piece, supported: set<string>): seq<Request> {
    var name := PropName(axis, ty, prop);
    if name !in supported then []
    else PropertyRequests(name, Some(["_external"]))
         + (if prop == Some("cov_mat") then [InverseRequest(name, FailIfExists)] else [])
  }

  /** The parts in order. */
  function Flatten(parts: seq<seq<Request>>): seq<Request> {
    if parts == [] then [] else Flatten(parts[..|parts| - 1]) + parts[|parts| - 1]
  }

  function TypeParts(axis: Piece, ty: string, supported: set<string>): seq<seq<Request>>
  {
    seq(|Props|, j requires 0 <= j < |Props| => PropertyStep(axis, ty, Props[j], supported))
  }

  function TypesParts(axis: Piece, supported: set<string>): seq<seq<Request>>
  {
    seq(|Types|, t requires 0 <= t < |Types| => Flatten(TypeParts(axis, Types[t], supported)))
  }

  function BothSupported(axis: Piece, prop: Piece, supported: set<string>): bool {
    PropName(axis, "data", prop) in supported && PropName(axis, "model", prop) in supported
  }

  /**
   * The `_full_prop` a `cov_mat` total inverse is requested for: the total
   * `cov_mat` if it was added; otherwise whatever `_full_prop` held last, the
   * total `error` if that was added, else `(axis, 'model', 'cor_mat')`.
   */
  function InverseTarget(axis: Piece, supported: set<string>): string {
    if BothSupported(axis, Some("cov_mat"), supported) then PropName(axis, "total", Some("cov_mat"))
    else if BothSupported(axis, Some("error"), supported) then PropName(axis, "total", Some("error"))
    else PropName(axis, "model", Some("cor_mat"))
  }

  function TotalRequest(axis: Piece, prop: Piece, func: Func): Request {
    AddNode(PropName(axis, "total", prop), FunctionNode(func, [PropName(axis, "data", prop), PropName(axis, "model", prop)]),
            FailIfExists)
  }

  /** The aggregate nodes of one axis, and the inverse that is requested whether or not the total exists. */
  function AggregateSteps(axis: Piece, supported: set<string>): seq<Request> {
    (if BothSupported(axis, Some("error"), supported) then [TotalRequest(axis, Some("error"), AddInQuadrature)] else [])
    + (if BothSupported(axis, Some("cov_mat"), supported) then [TotalRequest(axis, Some("cov_mat"), MatrixSum)] else [])
    + [InverseRequest(InverseTarget(axis, supported), Ignore)]
  }

  /** Everything requested for one axis. */
  function AxisSteps(axis: Piece, supported: set<string>): seq<Request> {
    Flatten(TypesParts(axis, supported)) + AggregateSteps(axis, supported)
  }

  function AxesParts(pieces: seq<Piece>, supported: set<string>): seq<seq<Request>>
  {
    seq(|pieces|, i requires 0 <= i < |pieces| => AxisSteps(pieces[i], supported))
  }

  /** The node that stacks `(axis, type, prop)` of every axis. */
  function ConcatRequest(axes: seq<string>, ty: string, prop: Piece): Request {
    AddNode(PropName(None, ty, prop),
            FunctionNode(Concatenate, seq(|axes|, a requires 0 <= a < |axes| => PropName(Some(axes[a]), ty, prop))),
            FailIfExists)
  }

  function ConcatParts(axes: seq<string>, ty: string): seq<seq<Request>>
  {
    seq(|Props|, j requires 0 <= j < |Props| => [ConcatRequest(axes, ty, Props[j])])
  }

  function ConcatTypesParts(axes: seq<string>): seq<seq<Request>>
  {
    seq(|Types|, t requires 0 <= t < |Types| => Flatten(ConcatParts(axes, Types[t])))
  }

  /** Concatenation nodes exist only when `AXES` is not `None` (an empty tuple still gets them). */
  function ConcatSection(axes: Option<seq<string>>): seq<Request> {
    if axes.None? then [] else Flatten(ConcatTypesParts(axes.value))
  }

  const External: Request := AddNode("_external", EmptyNode, FailIfExists)

  /** The requests made to the `nexus` argument before the parameters of interest. */
  function HeadSteps(axes: Option<seq<string>>, supported: set<string>): seq<Request> {
    [External] + Flatten(AxesParts(AxisPieces(axes), supported)) + ConcatSection(axes)
  }

  /** One parameter node per parameter of interest, with its value, in dictionary order. */
  function PoiSteps(keys: seq<string>, values: map<string, real>): (r: seq<Request>)
    requires forall i :: 0 <= i < |keys| ==> keys[i] in values
    ensures |r| == |keys|
  {
    if keys == [] then []
    else PoiSteps(keys[..|keys| - 1], values) + [AddNode(keys[|keys| - 1], ParameterNode(values[keys[|keys| - 1]]), FailIfExists)]
  }

  /**
   * The requests after the parameters of interest, up to the cost node:
   * the parameter properties, the callback that pushes the parameters of
   * interest into the model, the model's dependency on `parameter_values`,
   * the model function's alias and the cost node.
   */
  function TailSteps(poiNames: seq<string>, modelName: string, cost: CostSpec): seq<Request> {
    PropertyRequests("poi_values", Some(poiNames))
    + PropertyRequests("parameter_values", Some(["poi_values"]))
    + PropertyRequests("parameter_constraints", None)
    + [RegisterCallback("poi_values", PushPoiValues),
       AddDependency("model", ["parameter_values"]),
       AddAlias(modelName, "model", Ignore),
       AddNode("cost", FunctionNode(CostFunction(cost.name), cost.parNames), FailIfExists)]
  }

  /** The last request: the cost function's name as an alias for `cost`; a refusal is ignored. */
  function CostAlias(cost: CostSpec): Request {
    AddAlias(cost.name, "cost", FailIfExists)
  }

  // ---- contiguous blocks and properties of every request --------------------------------------

  /** `block` occurs in `reqs` starting at index `i`. */
  ghost predicate WithinAt(block: seq<Request>, reqs: seq<Request>, i: int) {
    0 <= i && i + |block| <= |reqs| && reqs[i..i + |block|] == block
  }

  /** `block` occurs in `reqs` as a contiguous run. */
  ghost predicate Within(block: seq<Request>, reqs: seq<Request>) {
    exists i :: WithinAt(block, reqs, i)
  }

  lemma WithinConcat(block: seq<Request>, a: seq<Request>, b: seq<Request>)
    ensures Within(block, a) ==> Within(block, a + b)
    ensures Within(block, b) ==> Within(block, a + b)
  {
    if Within(block, a) {
      var i :| WithinAt(block, a, i);
      assert (a + b)[i..i + |block|] == block;
      assert WithinAt(block, a + b, i);
    }
    if Within(block, b) {
      var i :| WithinAt(block, b, i);
      assert (a + b)[|a| + i..|a| + i + |block|] == block;
      assert WithinAt(block, a + b, |a| + i);
    }
  }

  lemma WithinTrans(a: seq<Request>, b: seq<Request>, c: seq<Request>)
    requires Within(a, b) && Within(b, c)
    ensures Within(a, c)
  {
    var i :| WithinAt(a, b, i);
    var j :| WithinAt(b, c, j);
    forall k | 0 <= k < |a|
      ensures c[j + i + k] == a[k]
    {
      assert c[j..j + |b|][i + k] == b[i + k];
      assert b[i..i + |a|][k] == a[k];
    }
    assert c[j + i..j + i + |a|] == a;
    assert WithinAt(a, c, j + i);
  }

  lemma WithinSelf(a: seq<Request>)
    ensures Within(a, a)
  {
    assert a[0..|a|] == a;
    assert WithinAt(a, a, 0);
  }

  /** A request of an embedded block is a request of the whole. */
  lemma WithinMember(block: seq<Request>, reqs: seq<Request>, k: nat)
    requires Within(block, reqs) && k < |block|
    ensures block[k] in reqs
  {
    var i :| WithinAt(block, reqs, i);
    assert reqs[i + k] == block[k];
  }

  /** Each part occurs in the flattened sequence. */
  lemma {:induction false} WithinFlatten(parts: seq<seq<Request>>, j: nat)
    requires j < |parts|
    ensures Within(parts[j], Flatten(parts))
  {
    var init := parts[..|parts| - 1];
    WithinSelf(parts[j]);
    if j == |parts| - 1 {
      WithinConcat(parts[j], Flatten(init), parts[j]);
    } else {
      WithinFlatten(init, j);
      WithinConcat(parts[j], Flatten(init), parts[|parts| - 1]);
    }
  }

  lemma FlattenSnoc(parts: seq<seq<Request>>, k: nat)
    requires k < |parts|
    ensures Flatten(parts[..k + 1]) == Flatten(parts[..k]) + parts[k]
  {
    assert parts[..k + 1][..k] == parts[..k];
  }

  lemma FlattenAll(parts: seq<seq<Request>>)
    ensures Flatten(parts[..|parts|]) == Flatten(parts)
  {
    assert parts[..|parts|] == parts;
  }

  ghost predicate All(reqs: seq<Request>, good: Request -> bool) {
    forall i :: 0 <= i < |reqs| ==> good(reqs[i])
  }

  /** A property of every request of every part holds of every request of the whole. */
  lemma {:induction false} AllFlatten(parts: seq<seq<Request>>, good: Request -> bool)
    requires forall j :: 0 <= j < |parts| ==> All(parts[j], good)
    ensures All(Flatten(parts), good)
  {
    if parts != [] {
      AllFlatten(parts[..|parts| - 1], good);
    }
  }

  predicate IsPropertyNode(r: Request) {
    r.AddNode? && r.kind.FunctionNode? && r.kind.func.PropertyGetter?
  }

  predicate IsTotalNode(r: Request) {
    r.AddNode? && r.kind.FunctionNode? && (r.kind.func == AddInQuadrature || r.kind.func == MatrixSum)
  }

  predicate IsConcatNode(r: Request) {
    r.AddNode? && r.kind.FunctionNode? && r.kind.func == Concatenate
  }

  // ---- what the naming and wiring scheme guarantees --------------------------------------------

  lemma AxisStepsWithinHead(axes: Option<seq<string>>, supported: set<string>, i: nat)
    requires i < |AxisPieces(axes)|
    ensures Within(AxisSteps(AxisPieces(axes)[i], supported), HeadSteps(axes, supported))
  {
    var parts := AxesParts(AxisPieces(axes), supported);
    WithinFlatten(parts, i);
    WithinConcat(parts[i], [External], Flatten(parts));
    WithinConcat(parts[i], [External] + Flatten(parts), ConcatSection(axes));
  }

  /** The requests of one `(axis, type, prop)` are a contiguous run of the head. */
  lemma PropertyStepWithinHead(axes: Option<seq<string>>, supported: set<string>, i: nat, t: nat, p: nat)
    requires i < |AxisPieces(axes)| && t < |Types| && p < |Props|
    ensures Within(PropertyStep(AxisPieces(axes)[i], Types[t], Props[p], supported), HeadSteps(axes, supported))
  {
    var axis := AxisPieces(axes)[i];
    var step := PropertyStep(axis, Types[t], Props[p], supported);
    var typeParts := TypeParts(axis, Types[t], supported);
    var typesParts := TypesParts(axis, supported);
    WithinFlatten(typeParts, p);
    WithinFlatten(typesParts, t);
    WithinTrans(step, Flatten(typeParts), Flatten(typesParts));
    WithinConcat(step, Flatten(typesParts), AggregateSteps(axis, supported));
    AxisStepsWithinHead(axes, supported, i);
    WithinTrans(step, AxisSteps(axis, supported), HeadSteps(axes, supported));
  }

  /** The node of a supported property, its `_external` dependency and, for a `cov_mat`, its inverse. */
  function SupportedPropertyBlock(name: string, prop: Piece): seq<Request> {
    [AddNode(name, FunctionNode(PropertyGetter(name), []), ReplaceIfEmpty), AddDependency(name, ["_external"])]
    + (if prop == Some("cov_mat") then [InverseRequest(name, FailIfExists)] else [])
  }

  /**
   * Every supported property `(axis, type, prop)` gets a property node,
   * immediately followed by its dependency on `_external`, and a `cov_mat`
   * property immediately after that by its `<name>_inverse` node.
   */
  lemma PropertyNodesRequested(axes: Option<seq<string>>, supported: set<string>, i: nat, t: nat, p: nat)
    requires i < |AxisPieces(axes)| && t < |Types| && p < |Props|
    requires PropName(AxisPieces(axes)[i], Types[t], Props[p]) in supported
    ensures Within(SupportedPropertyBlock(PropName(AxisPieces(axes)[i], Types[t], Props[p]), Props[p]), HeadSteps(axes, supported))
  {
    PropertyStepWithinHead(axes, supported, i, t, p);
    PropertyStepSupported(AxisPieces(axes)[i], Types[t], Props[p], supported);
  }

  lemma PropertyStepSupported(axis: Piece, ty: string, prop: Piece, supported: set<string>)
    requires PropName(axis, ty, prop) in supported
    ensures PropertyStep(axis, ty, prop, supported) == SupportedPropertyBlock(PropName(axis, ty, prop), prop)
  {
  }

  /** A property node names a supported property and evaluates that property. */
  predicate PropertyOk(r: Request, supported: set<string>) {
    IsPropertyNode(r) ==> r.name in supported && r.kind.func.prop == r.name
  }

  /** A total node combines two supported components. */
  predicate TotalOk(r: Request, supported: set<string>) {
    IsTotalNode(r) ==> |r.kind.parNames| == 2 && r.kind.parNames[0] in supported && r.kind.parNames[1] in supported
  }

  /** What holds of every request before the parameters of interest: no alias is among them. */
  predicate HeadRequestOk(r: Request, supported: set<string>) {
    PropertyOk(r, supported) && TotalOk(r, supported) && !r.AddAlias?
  }

  predicate AxisRequestOk(r: Request, supported: set<string>) {
    HeadRequestOk(r, supported) && !IsConcatNode(r)
  }

  lemma PropertyStepOk(axis: Piece, ty: string, prop: Piece, supported: set<string>)
    ensures All(PropertyStep(axis, ty, prop, supported), r => AxisRequestOk(r, supported))
  {
  }

  lemma AggregateStepsOk(axis: Piece, supported: set<string>)
    ensures All(AggregateSteps(axis, supported), r => AxisRequestOk(r, supported))
  {
    var good := (r: Request) => AxisRequestOk(r, supported);
    var err := if BothSupported(axis, Some("error"), supported) then [TotalRequest(axis, Some("error"), AddInQuadrature)] else [];
    var cov := if BothSupported(axis, Some("cov_mat"), supported) then [TotalRequest(axis, Some("cov_mat"), MatrixSum)] else [];
    var inv := [InverseRequest(InverseTarget(axis, supported), Ignore)];
    assert AggregateSteps(axis, supported) == err + cov + inv;
    assert All(err, good);
    assert All(cov, good);
    assert All(inv, good);
    AllConcat(err, cov, good);
    AllConcat(err + cov, inv, good);
  }

  lemma AllConcat(a: seq<Request>, b: seq<Request>, good: Request -> bool)
    requires All(a, good) && All(b, good)
    ensures All(a + b, good)
  {
    forall i | 0 <= i < |a + b|
      ensures good((a + b)[i])
    {
      if i < |a| {
        assert (a + b)[i] == a[i];
      } else {
        assert (a + b)[i] == b[i - |a|];
      }
    }
  }

  lemma AxisStepsOk(axis: Piece, supported: set<string>)
    ensures All(AxisSteps(axis, supported), r => AxisRequestOk(r, supported))
  {
    var good := (r: Request) => AxisRequestOk(r, supported);
    forall t | 0 <= t < |Types|
      ensures All(TypesParts(axis, supported)[t], good)
    {
      var parts := TypeParts(axis, Types[t], supported);
      forall j | 0 <= j < |parts|
        ensures All(parts[j], good)
      {
        PropertyStepOk(axis, Types[t], Props[j], supported);
      }
      AllFlatten(parts, good);
    }
    AllFlatten(TypesParts(axis, supported), good);
    AggregateStepsOk(axis, supported);
  }

  lemma AxesStepsOk(pieces: seq<Piece>, supported: set<string>)
    ensures All(Flatten(AxesParts(pieces, supported)), r => AxisRequestOk(r, supported))
  {
    var good := (r: Request) => AxisRequestOk(r, supported);
    forall i | 0 <= i < |pieces|
      ensures All(AxesParts(pieces, supported)[i], good)
    {
      AxisStepsOk(pieces[i], supported);
    }
    AllFlatten(AxesParts(pieces, supported), good);
  }

  /** Concatenation requests are neither property nor total nodes. */
  lemma ConcatSectionOk(axes: Option<seq<string>>, supported: set<string>)
    ensures All(ConcatSection(axes), r => HeadRequestOk(r, supported))
  {
    var good := (r: Request) => HeadRequestOk(r, supported);
    if axes.Some? {
      forall t | 0 <= t < |Types|
        ensures All(ConcatTypesParts(axes.value)[t], good)
      {
        AllFlatten(ConcatParts(axes.value, Types[t]), good);
      }
      AllFlatten(ConcatTypesParts(axes.value), good);
    }
  }

  /**
   * No property node is requested for a property the fit class lacks (the
   * `AttributeError` branch), each one evaluates the property it is named
   * after, and every total node combines a registered data component and a
   * registered model component; no alias is requested.
   */
  lemma HeadStepsOk(axes: Option<seq<string>>, supported: set<string>)
    ensures All(HeadSteps(axes, supported), r => HeadRequestOk(r, supported))
  {
    AxesStepsOk(AxisPieces(axes), supported);
    ConcatSectionOk(axes, supported);
  }

  /**
   * `<axis>_total_error` (and `<axis>_total_cov_mat`) is requested exactly
   * when both its data and its model component are registered.
   */
  lemma TotalNodeIffComponents(axes: Option<seq<string>>, supported: set<string>, i: nat, prop: Piece, func: Func)
    requires i < |AxisPieces(axes)|
    requires (prop == Some("error") && func == AddInQuadrature) || (prop == Some("cov_mat") && func == MatrixSum)
    ensures TotalRequest(AxisPieces(axes)[i], prop, func) in HeadSteps(axes, supported)
        <==> BothSupported(AxisPieces(axes)[i], prop, supported)
  {
    var axis := AxisPieces(axes)[i];
    var req := TotalRequest(axis, prop, func);
    if req in HeadSteps(axes, supported) {
      TotalNodeNeedsComponents(axes, supported, req);
    }
    if BothSupported(axis, prop, supported) {
      TotalNodeRequested(axes, supported, i, prop, func);
    }
  }

  lemma TotalNodeNeedsComponents(axes: Option<seq<string>>, supported: set<string>, req: Request)
    requires req in HeadSteps(axes, supported) && IsTotalNode(req)
    ensures |req.kind.parNames| == 2 && req.kind.parNames[0] in supported && req.kind.parNames[1] in supported
  {
    var head := HeadSteps(axes, supported);
    HeadStepsOk(axes, supported);
    var k :| 0 <= k < |head| && head[k] == req;
    assert PropertyOk(head[k], supported) && TotalOk(head[k], supported);
  }

  lemma TotalNodeRequested(axes: Option<seq<string>>, supported: set<string>, i: nat, prop: Piece, func: Func)
    requires i < |AxisPieces(axes)|
    requires (prop == Some("error") && func == AddInQuadrature) || (prop == Some("cov_mat") && func == MatrixSum)
    requires BothSupported(AxisPieces(axes)[i], prop, supported)
    ensures TotalRequest(AxisPieces(axes)[i], prop, func) in HeadSteps(axes, supported)
  {
    AggregateHasTotal(AxisPieces(axes)[i], supported, prop, func);
    AggregateWithinHead(axes, supported, i, TotalRequest(AxisPieces(axes)[i], prop, func));
  }

  lemma AggregateHasTotal(axis: Piece, supported: set<string>, prop: Piece, func: Func)
    requires (prop == Some("error") && func == AddInQuadrature) || (prop == Some("cov_mat") && func == MatrixSum)
    requires BothSupported(axis, prop, supported)
    ensures TotalRequest(axis, prop, func) in AggregateSteps(axis, supported)
  {
    var agg := AggregateSteps(axis, supported);
    if prop == Some("error") {
      assert agg[0] == TotalRequest(axis, prop, func);
    } else if BothSupported(axis, Some("error"), supported) {
      assert agg[1] == TotalRequest(axis, prop, func);
    } else {
      assert agg[0] == TotalRequest(axis, prop, func);
    }
  }

  lemma AggregateWithinHead(axes: Option<seq<string>>, supported: set<string>, i: nat, req: Request)
    requires i < |AxisPieces(axes)|
    requires req in AggregateSteps(AxisPieces(axes)[i], supported)
    ensures req in HeadSteps(axes, supported)
  {
    var axis := AxisPieces(axes)[i];
    var agg := AggregateSteps(axis, supported);
    var pre := Flatten(TypesParts(axis, supported));
    var steps := AxisSteps(axis, supported);
    var k :| 0 <= k < |agg| && agg[k] == req;
    assert steps == pre + agg;
    assert steps[|pre| + k] == agg[k];
    AxisStepsWithinHead(axes, supported, i);
    WithinMember(steps, HeadSteps(axes, supported), |pre| + k);
  }

  /**
   * The `cov_mat` total inverse of each axis is requested whether or not the
   * total exists; without the total it inverts a stale name: the total
   * `error` if that exists, else `(axis, 'model', 'cor_mat')`.
   */
  lemma CovInverseAlwaysRequested(axes: Option<seq<string>>, supported: set<string>, i: nat)
    requires i < |AxisPieces(axes)|
    ensures var axis := AxisPieces(axes)[i];
      && InverseRequest(InverseTarget(axis, supported), Ignore) in HeadSteps(axes, supported)
      && (BothSupported(axis, Some("cov_mat"), supported) ==>
            InverseTarget(axis, supported) == PropName(axis, "total", Some("cov_mat")))
      && (!BothSupported(axis, Some("cov_mat"), supported) && BothSupported(axis, Some("error"), supported) ==>
            InverseTarget(axis, supported) == PropName(axis, "total", Some("error")))
      && (!BothSupported(axis, Some("cov_mat"), supported) && !BothSupported(axis, Some("error"), supported) ==>
            InverseTarget(axis, supported) == PropName(axis, "model", Some("cor_mat")))
  {
    var axis := AxisPieces(axes)[i];
    AxisStepsWithinHead(axes, supported, i);
    var steps := AxisSteps(axis, supported);
    assert steps[|steps| - 1] == InverseRequest(InverseTarget(axis, supported), Ignore);
    WithinMember(steps, HeadSteps(axes, supported), |steps| - 1);
  }

  /** Without `AXES` no concatenation node is requested. */
  lemma NoConcatWithoutAxes(supported: set<string>)
    ensures All(HeadSteps(None, supported), r => !IsConcatNode(r))
  {
    AxesStepsOk(AxisPieces(None), supported);
  }

  /** With `AXES`, each `(type, prop)` gets a node stacking that quantity of every axis, in axis order. */
  lemma ConcatWithAxes(axes: seq<string>, supported: set<string>, t: nat, p: nat)
    requires t < |Types| && p < |Props|
    ensures ConcatRequest(axes, Types[t], Props[p]) in HeadSteps(Some(axes), supported)
  {
    var parts := ConcatParts(axes, Types[t]);
    WithinFlatten(parts, p);
    WithinFlatten(ConcatTypesParts(axes), t);
    WithinTrans(parts[p], Flatten(parts), Flatten(ConcatTypesParts(axes)));
    var prefix := [External] + Flatten(AxesParts(AxisPieces(Some(axes)), supported));
    WithinConcat(parts[p], prefix, ConcatSection(Some(axes)));
    WithinMember(parts[p], HeadSteps(Some(axes), supported), 0);
  }

  /** Every parameter of interest becomes a parameter node holding its value. */
  lemma {:induction false} PoiNodesCarryValues(keys: seq<string>, values: map<string, real>, i: nat)
    requires forall k :: 0 <= k < |keys| ==> keys[k] in values
    requires i < |keys|
    ensures |PoiSteps(keys, values)| == |keys|
    ensures PoiSteps(keys, values)[i] == AddNode(keys[i], ParameterNode(values[keys[i]]), FailIfExists)
  {
    if i < |keys| - 1 {
      PoiNodesCarryValues(keys[..|keys| - 1], values, i);
    } else if |keys| > 1 {
      PoiNodesCarryValues(keys[..|keys| - 1], values, 0);
    }
  }

  // ---- node names ----------------------------------------------------------------------------

  /** The truthy parts of `(axis, type, prop)`, in order. */
  function Components(axis: Piece, ty: string, prop: Piece): seq<string> {
    (if Truthy(axis) then [axis.value] else []) + (if ty != "" then [ty] else []) + (if Truthy(prop) then [prop.value] else [])
  }

  /** A property's name is the node name of the tuple `(axis, type, prop)`. */
  lemma PropNameIsNodeName(axis: Piece, ty: string, prop: Piece)
    ensures PropName(axis, ty, prop) == NodeName([axis, Some(ty), prop])
  {
    TruthyStringsThree(axis, Some(ty), prop);
  }

  /** A concatenation node is named after the tuple `(type, prop)`: the property name without an axis. */
  lemma ConcatNameIsNodeName(ty: string, prop: Piece)
    ensures PropName(None, ty, prop) == NodeName([Some(ty), prop])
  {
    PropNameIsNodeName(None, ty, prop);
    assert [None, Some(ty), prop][1..] == [Some(ty), prop];
    assert TruthyStrings([None, Some(ty), prop]) == TruthyStrings([Some(ty), prop]);
  }

  predicate NoUnderscore(p: Piece) {
    p.Some? ==> '_' !in p.value
  }

  /**
   * A property name splits at `_` back into its truthy parts, provided
   * none of them contains `_` and the type is not empty.
   */
  lemma PropNameSplits(axis: Piece, ty: string, prop: Piece)
    requires ty != "" && '_' !in ty && NoUnderscore(axis) && NoUnderscore(prop)
    ensures Split(PropName(axis, ty, prop), '_') == Components(axis, ty, prop)
  {
    SplitJoinRoundTrip(Components(axis, ty, prop), '_');
  }



  /**
   * Two properties whose axes are both given (or both absent) and whose
   * properties are both given (or both absent) share a node name only when
   * they are the same property.
   */
  lemma PropNameInjective(axis1: Piece, ty1: string, prop1: Piece, axis2: Piece, ty2: string, prop2: Piece)
    requires ty1 != "" && '_' !in ty1 && NoUnderscore(axis1) && NoUnderscore(prop1)
    requires ty2 != "" && '_' !in ty2 && NoUnderscore(axis2) && NoUnderscore(prop2)
    requires Truthy(axis1) == Truthy(axis2) && Truthy(prop1) == Truthy(prop2)
    requires PropName(axis1, ty1, prop1) == PropName(axis2, ty2, prop2)
    ensures ty1 == ty2
    ensures Truthy(axis1) ==> axis1 == axis2
    ensures Truthy(prop1) ==> prop1 == prop2
  {
    PropNameSplits(axis1, ty1, prop1);
    PropNameSplits(axis2, ty2, prop2);
    var c1 := Components(axis1, ty1, prop1);
    var c2 := Components(axis2, ty2, prop2);
    assert c1 == c2;
    var at := if Truthy(axis1) then 1 else 0;
    assert c1[at] == ty1 && c2[at] == ty2;
    if Truthy(axis1) {
      assert c1[0] == axis1.value && c2[0] == axis2.value;
    }
    if Truthy(prop1) {
      assert c1[at + 1] == prop1.value && c2[at + 1] == prop2.value;
    }
  }

  /** The truthy strings of three pieces, piece by piece. */
  lemma TruthyStringsThree(a: Piece, b: Piece, c: Piece)
    ensures TruthyStrings([a, b, c]) ==
      (if Truthy(a) then [a.value] else []) + (if Truthy(b) then [b.value] else []) + (if Truthy(c) then [c.value] else [])
  {
    var ta: seq<string> := if Truthy(a) then [a.value] else [];
    var tb: seq<string> := if Truthy(b) then [b.value] else [];
    var tc: seq<string> := if Truthy(c) then [c.value] else [];
    assert [c][1..] == [];
    assert TruthyStrings([c]) == tc + TruthyStrings([]);
    assert [b, c][1..] == [c];
    assert TruthyStrings([b, c]) == tb + TruthyStrings([c]);
    assert [a, b, c][1..] == [b, c];
    assert TruthyStrings([a, b, c]) == ta + TruthyStrings([b, c]);
  }

  /** Without an axis a name is `<type>_<prop>`. */
  lemma DataErrorName()
    ensures PropName(None, "data", Some("error")) == "data_error"
  {
    var strings: seq<string> := ["data", "error"];
    assert Components(None, "data", Some("error")) == strings;
    assert strings[1..] == ["error"];
  }



  /** The bare quantity of a type, with neither axis nor property, is named after the type. */
  lemma ModelName()
    ensures PropName(None, "model", None) == "model"
  {
    assert Components(None, "model", None) == ["model"];
  }



  // ---- the alias policies ----------------------------------------------------------------------

  /**
   * With the `ignore` policy, the model function's alias is accepted
   * whenever `model` exists, even when its name is taken (a model function
   * called `model`), and then changes nothing.
   */
  lemma ModelAliasAccepted(g: Graph, modelName: string)
    requires "model" in g.nodes
    ensures Step(g, AddAlias(modelName, "model", Ignore)).accepted
    ensures Known(g, modelName) ==> Step(g, AddAlias(modelName, "model", Ignore)).graph == g
    ensures !Known(g, modelName) ==> Step(g, AddAlias(modelName, "model", Ignore)).graph.aliases[modelName] == "model"
  {
  }

  /** A cost function called `cost` makes its alias clash with the `cost` node: the request is refused. */
  lemma CostAliasClash(g: Graph, cost: CostSpec)
    requires "cost" in g.nodes && cost.name == "cost"
    ensures !Step(g, CostAlias(cost)).accepted
  {
  }

  /** The cost function's alias is requested nowhere else, so its refusal can be told apart from any other. */
  lemma CostAliasOnlyLast(axes: Option<seq<string>>, supported: set<string>, keys: seq<string>, values: map<string, real>,
                          modelName: string, cost: CostSpec)
    requires forall i :: 0 <= i < |keys| ==> keys[i] in values
    ensures CostAlias(cost) !in HeadSteps(axes, supported)
    ensures CostAlias(cost) !in PoiSteps(keys, values)
    ensures CostAlias(cost) !in TailSteps(keys, modelName, cost)
  {
    NoAliasInHead(axes, supported, CostAlias(cost));
    NoAliasInPoi(keys, values, CostAlias(cost));
    NoCostAliasInTail(keys, modelName, cost);
  }

  lemma NoAliasInHead(axes: Option<seq<string>>, supported: set<string>, req: Request)
    requires req.AddAlias?
    ensures req !in HeadSteps(axes, supported)
  {
    var head := HeadSteps(axes, supported);
    HeadStepsOk(axes, supported);
    forall k | 0 <= k < |head|
      ensures head[k] != req
    {
      assert HeadRequestOk(head[k], supported);
    }
  }

  lemma NoAliasInPoi(keys: seq<string>, values: map<string, real>, req: Request)
    requires forall i :: 0 <= i < |keys| ==> keys[i] in values
    requires req.AddAlias?
    ensures req !in PoiSteps(keys, values)
  {
    var poi := PoiSteps(keys, values);
    forall k | 0 <= k < |poi|
      ensures poi[k] != req
    {
      PoiNodesCarryValues(keys, values, k);
    }
  }

  lemma NoCostAliasInTail(keys: seq<string>, modelName: string, cost: CostSpec)
    ensures CostAlias(cost) !in TailSteps(keys, modelName, cost)
  {
  }
}
