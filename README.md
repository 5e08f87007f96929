# kafe2 fit core in Dafny

A model of the core of kafe2's fitting layer. It covers four parts:

- `XYContainer`: a 2 x N table of x and y values and a table of uncertainty sources per axis. It also keeps two caches that are filled on demand. The first is the total covariance matrix of each axis. The second is the "split system" `(G, U)`: `G` holds the fully correlated components of the splittable sources and `U` holds everything else.
- `FitBase`: how a fit takes its parameter defaults from the model signature and checks reserved names. It also covers how the fit registers its quantities in a dependency graph (the nexus), how it registers parameter constraints, and how it routes uncertainty sources to the data or the model container.
- `ModelFunctionBase` and `ParametricModelBaseMixin`: the wrapper around the user's model function (argspec, defaults, parameter count) and the parameter state of a parametric model.
- The helpers `string_join_if`, `add_in_quadrature` and `collect`.

Files:

- `wrappers.dfy`: `Option`, `Result` and `Outcome`. A raised exception is an `Err`/`Fail` value.
- `util.dfy`: the helpers of kafe2/fit/util/__init__.py.
- `linalg.dfy`: matrices over reals (sum, outer product, transpose, product, Gram matrix `G^T G`).
- `xy_container.dfy`: class `XYContainer`. Each cache is proved equal to a specification function of the error table.
- `model.dfy`: classes `ModelFunction` and `ParametricModel`.
- `nexus.dfy`: the dependency graph as an abstract registry of nodes and aliases. It answers each request by accepting or refusing it and keeps a log of the requests made.
- `fit_plan.dfy`: the requests `_init_nexus` makes, as functions of the fit's configuration, and what the naming and wiring scheme guarantees.
- `fit.dfy`: class `Fit` (`FitBase`), proved against those functions.

Assumptions:

- An enabled simple error's covariance decomposes as `cov_mat == cov_mat_uncor + error_cor ⊗ error_cor`. Under this assumption the split system reconstructs the total covariance: `G^T G + U == V`. The docstring of `split_errors` writes `V = G G^T + U`, but the code fills `G` with one row per source (sources x points), so the code gives `G^T G`. The model follows the code.
- The graph's policy semantics are assumptions, because the graph engine is not part of this model:
  - `add`/`add_function` without `existing_behavior` fail when the name is taken;
  - `ignore` keeps the existing entry;
  - `replace_if_empty` replaces only an empty node.

## Model

| member | source | states |
|---|---|---|
| Util.StringJoinIf | kafe2/fit/util/__init__.py:18-21 | defined exactly when every kept piece is a string; the result is the kept strings joined by `delim` |
| Util.KeptExactly | kafe2/fit/util/__init__.py:21 | a piece is kept as often as it occurs iff it passes the condition, and never otherwise |
| Util.KeptConcat | kafe2/fit/util/__init__.py:21 | filtering keeps the original order: filtering a concatenation is the concatenation of the filtered parts |
| Util.KeptTruthyAreStrings | kafe2/fit/util/__init__.py:18 | with the default condition every kept piece is a non-empty string, so the join never raises |
| Util.JoinIfNonePass | kafe2/fit/util/__init__.py:21 | when no piece passes the result is the empty string |
| Util.JoinIfOnePasses | kafe2/fit/util/__init__.py:21 | when exactly one piece passes the result is that piece, with no delimiter |
| Util.NodeNameIsStringJoinIf | kafe2/fit/util/__init__.py:18-21 | with the default delimiter and condition `string_join_if` never raises and returns the truthy pieces joined by `_` |
| Util.TruthyStringsAreKept | kafe2/fit/util/__init__.py:21 | the truthy pieces are all strings, and their strings are those of the kept pieces in order |
| Util.JoinIfDropsNone | kafe2/fit/util/__init__.py:18-21 | `(None, 'data', None)` gives `'data'` |
| Util.SplitJoinRoundTrip | kafe2/fit/util/__init__.py:21 | strings without the delimiter are recovered by splitting their join: exactly one delimiter separates neighbours |
| Util.StringJoinIfRoundTrip | kafe2/fit/util/__init__.py:18-21 | splitting the result at the delimiter gives back the kept pieces in order |
| Util.SumOfSquares | kafe2/fit/util/__init__.py:28 | the sum of squares of the arguments' entries at one index is non-negative |
| Util.AddInQuadrature | kafe2/fit/util/__init__.py:26-28 | elementwise: each entry is non-negative and its square is the sum of the squares of the arguments' entries |
| Util.SumOfSquaresDominates | kafe2/fit/util/__init__.py:28 | each argument's square at an index is at most the sum of squares |
| Util.AddInQuadratureDominates | kafe2/fit/util/__init__.py:26-28 | each entry of the result is at least the absolute value of every argument's entry |
| Util.Collect | kafe2/fit/util/__init__.py:37-39 | the arguments in order, as many as were given |
| LinAlg.GramSnoc | kafe2/fit/xy/container.py:130-131 | adding a row `v` to `G` adds the outer product `v ⊗ v` to `G^T G` |
| LinAlg.GramEmpty | kafe2/fit/xy/container.py:129 | with no rows, `G^T G` is the zero matrix |
| LinAlg.GramEntry | kafe2/fit/xy/container.py:369-378 | entry `(i, j)` of `G^T G` is the product of columns `i` and `j` of `G` |
| XYContainers.FindAxis | kafe2/fit/xy/container.py:20-57 | 0, `False`, `0.0`, '0', 'x', 'X' resolve to 0; 1, `True`, `1.0`, '1', 'y', 'Y' resolve to 1, as the dictionary lookup equates them; anything else is `NoSuchAxis` |
| XYContainers.LowerOneChar | kafe2/fit/xy/container.py:50 | a one-character spec lowers to 'x'/'y'/'0'/'1' iff it is that character or its upper case |
| XYContainers.ToLower | kafe2/fit/xy/container.py:50 | lowering keeps the length and lowers each character |
| XYContainers.TotalCov | kafe2/fit/xy/container.py:62-77 | the total covariance of an axis is an N x N matrix |
| XYContainers.UncorCov | kafe2/fit/xy/container.py:84-109 | `U` of an axis is an N x N matrix |
| XYContainers.DesignRows | kafe2/fit/xy/container.py:111-133 | `G` has at most one row per source |
| XYContainers.DesignRowsShape | kafe2/fit/xy/container.py:129-131 | every row of `G` has `size` columns |
| XYContainers.TotalCovOffAxis | kafe2/fit/xy/container.py:64-73 | with no enabled source on the axis the total covariance is the N x N zero matrix |
| XYContainers.TotalCovSplice | kafe2/fit/xy/container.py:66-73 | a source adds its `cov_mat` to its own axis's total iff it is enabled and on that axis, and contributes nothing otherwise |
| XYContainers.DisableRemovesContribution | kafe2/fit/xy/container.py:66-68 | disabling a source subtracts exactly its `cov_mat` from its own axis's total and leaves the other axis's total unchanged |
| XYContainers.DisableNamedIsUpdate | kafe2/fit/_base/fit.py:718-725 | in a table with distinct names, disabling by name disables just the source at its position and keeps the table invariant, so the total covariance loses exactly that source's matrix |
| XYContainers.CovFitsFromSplit | kafe2/fit/xy/container.py:102-107 | when every `U` summand and `G` row fits, every `cov_mat` on the axis fits, so the total can be computed |
| XYContainers.SplitReconstructsTotal | kafe2/fit/xy/container.py:364-383 | under the decomposition assumption, `G^T G + U` equals the total covariance of the axis |
| XYContainers.RepointKeepsInvariant | kafe2/fit/xy/container.py:182-184 | re-pointing references keeps the table invariant |
| XYContainers.RepointReferences | kafe2/fit/xy/container.py:182-184 | sources on the set axis get the new row as reference; sources on the other axis are unchanged |
| XYContainers.AsXYData | kafe2/fit/xy/container.py:158-168 | a 2-D input with a dimension of length 2 gives two rows of equal length; any other input is an error |
| XYContainers.DataSetterKeepsRows | kafe2/fit/xy/container.py:162-163 | a 2 x N input is stored as is, including when N = 2 |
| XYContainers.DataSetterTransposes | kafe2/fit/xy/container.py:164-165 | an N x 2 input with N != 2 is stored transposed |
| XYContainers.AssignedRow | kafe2/fit/xy/container.py:181 | a row assignment that succeeds yields exactly `size` values |
| XYContainers.Broadcast | kafe2/fit/xy/container.py:313-314 | a scalar `err_val` becomes `size` copies of itself; an array is kept |
| XYContainers.ShiftCoefficients | kafe2/fit/xy/container.py:410-422 | a singular `U` gives `UnsplittableSingular`; otherwise the result has one entry per row of `G`, and residuals of the wrong length are an error |
| XYContainers.XYContainer.Create | kafe2/fit/xy/container.py:37-42 | x and y of unequal length are rejected; otherwise the data is `[x, y]`, no sources and both caches empty |
| XYContainers.XYContainer.ClearTotalErrorCache | kafe2/fit/xy/container.py:79-82 | both caches are empty afterwards |
| XYContainers.XYContainer.CalculateTotalError | kafe2/fit/xy/container.py:62-77 | the loop's sum is the specification's total covariance per axis; it fails iff some enabled `cov_mat` does not fit |
| XYContainers.XYContainer.CalculateUncorCovMat | kafe2/fit/xy/container.py:84-109 | the loop's sum is `U`: the whole `cov_mat` of matrix and non-splittable sources, and `cov_mat_uncor` of the others |
| XYContainers.XYContainer.CalculateCorNuisanceDesMat | kafe2/fit/xy/container.py:111-133 | one row `error_cor` per enabled, correlated, splittable source on the axis, in table order, each of `size` columns |
| XYContainers.XYContainer.CalculateFullCorSplitSystem | kafe2/fit/xy/container.py:135-142 | fills the split cache with `(G, U)` of both axes, or fails leaving it unchanged |
| XYContainers.XYContainer.SetData | kafe2/fit/xy/container.py:158-169 | stores the 2 x N view of the input and empties both caches; an invalid shape raises and changes nothing |
| XYContainers.XYContainer.SetRow | kafe2/fit/xy/container.py:177-185 | a squeezed input of more than one dimension raises; otherwise the row is replaced, references on that axis only are re-pointed, and both caches are emptied |
| XYContainers.XYContainer.SetX | kafe2/fit/xy/container.py:176-185 | a row that is not 1-d after squeezing raises; otherwise it succeeds exactly when the value broadcasts to `size`, and a failed broadcast raises; on success only row 0 is replaced, axis-0 sources are re-pointed and both caches emptied; a raise changes nothing |
| XYContainers.XYContainer.SetY | kafe2/fit/xy/container.py:215-225 | a row that is not 1-d after squeezing raises; otherwise it succeeds exactly when the value broadcasts to `size`, and a failed broadcast raises; on success only row 1 is replaced, axis-1 sources are re-pointed and both caches emptied; a raise changes nothing |
| XYContainers.XYContainer.AddErrorObject | kafe2/fit/xy/container.py:318 | a taken name is refused and nothing changes; otherwise exactly one entry is appended under the given or generated name and both caches are emptied |
| XYContainers.XYContainer.AddSimpleError | kafe2/fit/xy/container.py:286-319 | an unknown axis raises; for a known axis it succeeds exactly when no name or a new name is given, else raises the duplicate name; the returned name is the given or the generated one; the appended entry stores the broadcast `err_val`, the axis's data as reference and `splittable and correlation != 0`; the data is untouched |
| XYContainers.XYContainer.AddMatrixError | kafe2/fit/xy/container.py:321-347 | an unknown axis raises; for a known axis it succeeds exactly when no name or a new name is given, else raises the duplicate name; the appended entry stores the matrix and is never splittable; the data is untouched |
| XYContainers.XYContainer.DisableError | kafe2/fit/_base/fit.py:718-725 | the base container's `disable_error` that the fit calls, by its contract: an unknown name raises and changes nothing; otherwise the table becomes `DisableNamed` of the old one (only that source's enabled flag is cleared) and both caches are emptied |
| XYContainers.XYContainer.GetTotalError | kafe2/fit/xy/container.py:349-362 | computes only when the cache is empty and keeps a filled cache; the result is the total covariance of the axis with the axis's data as reference |
| XYContainers.XYContainer.SplitErrors | kafe2/fit/xy/container.py:364-383 | computes only when the cache is empty; the result `(G, U)` has the right shapes and `G^T G + U` is the total covariance |
| XYContainers.XYContainer.GetShiftCoefficients | kafe2/fit/xy/container.py:385-422 | an unknown axis raises; when the total or the split system cannot be formed it raises the shape error; otherwise the result is `ShiftOf` the table, the axis and the residuals |
| XYContainers.ShiftOf | kafe2/fit/xy/container.py:410-422 | the shift coefficients of the axis's `(G, U)`: a singular `U` is exactly the `UnsplittableSingular` error, and a result has one entry per row of `G` |
| XYContainers.XYContainer.HasErrorsOnAxis | kafe2/fit/xy/container.py:424-430 | true iff some source, enabled or not, is on the axis |
| XYContainers.XYContainer.HasXErrors | kafe2/fit/xy/container.py:425-430 | true iff some source, enabled or not, is on axis 0 |
| XYContainers.XYContainer.HasYErrors | kafe2/fit/xy/container.py:441-446 | true iff some source, enabled or not, is on axis 1 |
| XYContainers.XYContainer.HasUncorXErrors | kafe2/fit/xy/container.py:433-438 | true iff some axis-0 source has `corr_coeff != 1.0` |
| XYContainers.RepeatedTotalErrorIsCached | kafe2/fit/xy/container.py:359-362 | a second `get_total_error` with no change in between returns the first result |
| XYContainers.RepeatedSplitIsCached | kafe2/fit/xy/container.py:380-383 | a second `split_errors` with no change in between returns the first result |
| Models.ValidateModelFunction | kafe2/fit/_base/model.py:142-154 | accepts iff there are neither `*args` nor `**kwargs`; each refused case has its own error |
| Models.PaddedDefaults | kafe2/fit/_base/model.py:210-217 | length `max(parcount, declared)`; leading entries 1.0; trailing entries the declared defaults in order |
| Models.PaddedDefaultsComplete | kafe2/fit/_base/model.py:210-217 | a full set of declared defaults comes back unchanged |
| Models.ModelFunction.Create | kafe2/fit/_base/model.py:90-122 | an unknown library name or a non-callable raises; a vectorized function is introspected through `pyfunc` but called as is; a falsy callable is replaced by the default; the result is valid iff the argspec passes validation |
| Models.ModelFunction.AssignArgspecAndArgcount | kafe2/fit/_base/model.py:136-140 | argspec and argcount come from the handle, and `parcount == argcount - 1` |
| Models.ModelFunction.Parcount | kafe2/fit/_base/model.py:188-191 | `argcount - 1` |
| Models.ModelFunction.Argvals | kafe2/fit/_base/model.py:193-197 | `argcount` zeros |
| Models.ModelFunction.Defaults | kafe2/fit/_base/model.py:209-217 | `parcount` values when at most that many are declared: 1.0 for each undeclared leading parameter, ending with the declared ones |
| Models.ModelFunction.SetDefaults | kafe2/fit/_base/model.py:219-230 | raises iff the count differs from `parcount` and then changes nothing; otherwise only the defaults are replaced and the getter returns them |
| Models.ParametricModel.Create | kafe2/fit/_base/model.py:32-41 | stores the function and goes through the `parameters` setter |
| Models.ParametricModel.SetParameters | kafe2/fit/_base/model.py:56-63 | the getter returns the new values, the model is stale, and both container caches are empty |
| Nexuses.Step | kafe2/fit/_base/fit.py:66-71 | a new name is accepted as a new node; a taken name is refused under fail-if-exists and kept as is under ignore; a refusal leaves the graph unchanged |
| Nexuses.ApplyRefusedIsNoop | kafe2/fit/_base/fit.py:231-234 | a refused request changes nothing about the rest of the run, so swallowing its error is safe |
| Nexuses.Nexus.Submit | kafe2/fit/_base/fit.py:66-75 | the request is logged and the graph answers it as `Step` says |
| FitPlans.AxisPieces | kafe2/fit/_base/fit.py:102 | the axes of `AXES` in order, or the single axis `None` |
| FitPlans.PoiSteps | kafe2/fit/_base/fit.py:180-181 | one parameter node per parameter of interest |
| FitPlans.PropertyNodesRequested | kafe2/fit/_base/fit.py:102-126 | every supported `(axis, type, prop)` gets its property node, immediately followed by its dependency on `_external`, and a `cov_mat` immediately after that by its `_inverse` node |
| FitPlans.PropertyStepWithinHead | kafe2/fit/_base/fit.py:102-126 | the block of each `(axis, type, prop)` occurs contiguously in the requests |
| FitPlans.HeadStepsOk | kafe2/fit/_base/fit.py:97-176 | every property node reads the property of its own name and is supported; every total node combines two supported components; no alias is requested |
| FitPlans.TotalNodeIffComponents | kafe2/fit/_base/fit.py:137-152 | `<axis>_total_error` and `<axis>_total_cov_mat` are requested iff both the data and the model component are supported |
| FitPlans.TotalNodeNeedsComponents | kafe2/fit/_base/fit.py:138-151 | every total node depends on exactly two supported components |
| FitPlans.CovInverseAlwaysRequested | kafe2/fit/_base/fit.py:142-161 | the total inverse is requested even when the total is skipped, for the stale `_full_prop`: the total `cov_mat`, else the total `error`, else `model_cor_mat` |
| FitPlans.NoConcatWithoutAxes | kafe2/fit/_base/fit.py:166 | without `AXES` no concatenation node is requested |
| FitPlans.ConcatWithAxes | kafe2/fit/_base/fit.py:166-176 | with `AXES` every `(type, prop)` concatenation node is requested |
| FitPlans.PoiNodesCarryValues | kafe2/fit/_base/fit.py:180-181 | the i-th parameter node is named after the i-th parameter and carries its value |
| FitPlans.PropNameIsNodeName | kafe2/fit/_base/fit.py:106 | a property's name is `string_join_if((axis, type, prop))` |
| FitPlans.ConcatNameIsNodeName | kafe2/fit/_base/fit.py:171 | a concatenation node's name is `string_join_if((type, prop))`, the property name without an axis |
| FitPlans.PropNameSplits | kafe2/fit/_base/fit.py:106 | a node name splits at `_` back into its truthy parts |
| FitPlans.PropNameInjective | kafe2/fit/_base/fit.py:106 | distinct `(axis, type, prop)` with the same truthy pattern give distinct node names |
| FitPlans.DataErrorName | kafe2/fit/_base/fit.py:106 | `(None, 'data', 'error')` is named `data_error` |
| FitPlans.ModelName | kafe2/fit/_base/fit.py:106 | `(None, 'model', None)` is named `model` |
| FitPlans.ModelAliasAccepted | kafe2/fit/_base/fit.py:207-211 | the model-name alias is never refused; a taken name is left as is and a new one points to `model` |
| FitPlans.CostAliasClash | kafe2/fit/_base/fit.py:231-234 | a cost function named `cost` has its alias refused |
| FitPlans.CostAliasOnlyLast | kafe2/fit/_base/fit.py:225-234 | the cost alias occurs in no other part of the requests |
| Fits.ParamNames | kafe2/fit/_base/fit.py:87-88 | the parameter names in order |
| Fits.FreeParametersExactly | kafe2/fit/_base/fit.py:302-305 | a parameter is free iff it is in the signature and is not `x_name` |
| Fits.FreeParametersDistinct | kafe2/fit/_base/fit.py:301-309 | the free parameters have distinct names |
| Fits.GetDefaultValues | kafe2/fit/_base/fit.py:294-311 | the keys are the names of the signature's parameters other than `x_name`, in order; the dictionary is the one built from them in that order |
| Fits.DefaultValuesComplete | kafe2/fit/_base/fit.py:294-311 | the keys are distinct and never `x_name`, the dictionary's keys are exactly them, and each free parameter is mapped to its declared default or the fallback |
| Fits.DefaultsMapKeys | kafe2/fit/_base/fit.py:301-309 | the dictionary built from the free parameters has exactly their names as keys |
| Fits.DefaultsMapHolds | kafe2/fit/_base/fit.py:301-309 | with distinct names, each free parameter is mapped to its own default |
| Fits.ValidateModelFunctionForFit | kafe2/fit/_base/fit.py:263-275 | refuses iff an argument or the function name is reserved; arguments are checked first and the error names exactly the reserved arguments |
| Fits.IndexOf | kafe2/fit/_base/fit.py:576-579 | the first position of the name, or none when it is absent |
| Fits.IndicesOf | kafe2/fit/_base/fit.py:552-557 | each name's first position in `poi_names`, in order |
| Fits.ValuesOf | kafe2/fit/_base/fit.py:370 | the values of the names in order; a missing key is an error naming the first one |
| Fits.Feed | kafe2/fit/_base/fit.py:90-236 | makes the requests in order and stops at the first refusal; the log and the graph are exactly those of the requests made |
| Fits.FeedRequests | kafe2/fit/_base/fit.py:90-236 | succeeds exactly when the graph accepts the whole run, and then every request is logged and applied; a failure is the `NexusError` of the first refused request, after which nothing more is asked |
| Fits.AllAcceptedConcat | kafe2/fit/_base/fit.py:90-236 | a run of requests made in two parts is accepted exactly when the first part is and the second is on the graph the first leaves, and it leaves the same graph |
| Fits.RefusalBlocks | kafe2/fit/_base/fit.py:90-236 | a run with a refused request in it is not accepted |
| Fits.PoiStepsAccepted | kafe2/fit/_base/fit.py:179-181 | a graph that knows none of the distinct parameter names accepts all parameter nodes, and then knows exactly those names besides its own |
| Fits.PropertyRequestsAccepted | kafe2/fit/_base/fit.py:60-77 | a property with a new name and known dependencies is accepted, and the graph then has that node, keeps every other node and name, and knows no other new name |
| Fits.TailEndAccepted | kafe2/fit/_base/fit.py:190-229 | the `poi_values` callback, the `model` dependency on `parameter_values`, the model function's alias (ignored when the name is taken) and the `cost` node are accepted once `model`, `poi_values` and `parameter_values` exist and `cost` is free |
| Fits.TailStepsAccepted | kafe2/fit/_base/fit.py:183-229 | the requests after the parameters of interest (`poi_values` depending on them, `parameter_values` on `poi_values`, `parameter_constraints`, the callback, `model` on `parameter_values`, the alias and `cost`) are all accepted by a graph with a `model` node that knows the parameters of interest and none of the names the tail creates, when the model function is not called `cost` |
| Fits.Fit.InitFitParameters | kafe2/fit/_base/fit.py:79-88 | `poi_names` and the fit parameter names are the free parameters in order, the value dictionary is the defaults dictionary of them, and the parameter invariant holds |
| Fits.Fit.ValidateModelFunctionForFitRaise | kafe2/fit/_base/fit.py:263-275 | refuses iff a signature parameter or the function name is reserved |
| Fits.Fit.PoiValues | kafe2/fit/_base/fit.py:451-454 | the current values of the parameters of interest in order; a missing key is an error |
| Fits.Fit.ParameterValues | kafe2/fit/_base/fit.py:365-370 | without a fitter the values of interest; with one, the fitter's values of the parameters it fits |
| Fits.Fit.ParameterNames | kafe2/fit/_base/fit.py:372-377 | without a fitter `poi_names`; with one, the fitter's parameters |
| Fits.Fit.ParameterNameValueDict | kafe2/fit/_base/fit.py:411-414 | the fitter's parameter values once there is a fitter, the dictionary of the parameters of interest before; before a fitter, every parameter of interest has a value in it |
| Fits.Fit.HasErrors | kafe2/fit/_base/fit.py:441-444 | true iff the data or the model container has a source |
| Fits.Fit.PushPoiValues | kafe2/fit/_base/fit.py:191-196 | the model's parameters become the values of interest, through the `parameters` setter |
| Fits.Fit.AddParameterConstraint | kafe2/fit/_base/fit.py:563-582 | an unknown name raises and changes nothing; otherwise exactly one constraint with the name's index is appended |
| Fits.Fit.AddMatrixParameterConstraint | kafe2/fit/_base/fit.py:526-561 | a length mismatch raises before any lookup; an unknown name raises naming the first one; otherwise exactly one constraint with the names' indices is appended |
| Fits.Fit.GetMatchingErrors | kafe2/fit/_base/fit.py:584-638 | `data`/`model` query only that container; another reference raises; otherwise the union of both, refused iff a name occurs in both |
| Fits.Fit.AddSimpleError | kafe2/fit/_base/fit.py:640-672 | any other reference than data or model raises and changes nothing; otherwise the container it names does exactly what its `add_simple_error` promises (success iff the axis is known and the name new, the whole appended entry, nothing changed on a raise); the other container is untouched |
| Fits.Fit.AddMatrixError | kafe2/fit/_base/fit.py:674-708 | any other reference than data or model raises and changes nothing; otherwise the container it names does exactly what its `add_matrix_error` promises (success iff the axis is known and the name new, the whole appended entry, nothing changed on a raise); the other container is untouched |
| Fits.Fit.DisableError | kafe2/fit/_base/fit.py:710-725 | a name the data container has is disabled there (its table becomes `DisableNamed`, caches emptied) and the model container is untouched; any other name is disabled the same way in the model container, data untouched; a name in neither raises and changes nothing |
| Fits.Fit.AddPropertyToNexus | kafe2/fit/_base/fit.py:60-77 | a property node, then its explicit dependencies when given; it stops exactly at the first request the graph refuses, and goes through exactly when the graph accepts them all |
| Fits.Fit.FeedPoi | kafe2/fit/_base/fit.py:179-181 | the parameter nodes go to the fit's own graph and succeed exactly when it accepts them; without one, and with parameters, the call fails; any other failure is the refusal of a parameter node |
| Fits.Fit.SubmitAround | kafe2/fit/_base/fit.py:97-234 | head and tail go to the given graph and parameter nodes to the fit's own; it succeeds exactly when every graph accepts what it is sent, in order; on success a graph other than the fit's own has logged exactly head, tail and the last request, whether or not the fit has a graph; a failure is a missing own graph or the refusal of a head, parameter or tail request, never of the last request |
| Fits.Fit.SubmitToOwn | kafe2/fit/_base/fit.py:90-236 | when every request goes to the fit's own graph it succeeds exactly when that graph accepts the plan up to the cost alias, and then the requests made are exactly the plan; a failure is the refusal of a request of the plan, never of the cost alias |
| Fits.Fit.SubmitToOther | kafe2/fit/_base/fit.py:97-234 | head and tail go to the passed graph and the parameter nodes to the fit's own; it succeeds exactly when both graphs accept what they are sent and, without an own graph, there are no parameters; on success the passed graph has logged exactly head, tail and the cost alias, also when the fit has no graph of its own; the cost alias's refusal never surfaces |
| Fits.Fit.InitNexus | kafe2/fit/_base/fit.py:90-236 | without an argument a fresh graph becomes the fit's own; the call succeeds exactly when the graphs involved accept every request up to the cost alias (a fresh graph for the whole plan); on success the fit's own graph has logged exactly the plan, or a passed graph exactly head, tail and cost alias with the parameter nodes in the fit's own graph if it has one; an error is a refusal of one of those requests or a missing own graph, never the cost alias's refusal |

## Left out

- The graph engine (kafe2/core/fitters/nexus.py) is not part of this model. Its lazy evaluation, dirty propagation, cycle checks and the `Parameter`/`Alias`/`Empty` classes are reduced to a registry with assumed insertion policies. The request log stands in for the calls made.
- The `existing_behavior` default of `add` and `add_function` is assumed to be fail-if-exists.
- The minimizer and the fitter (`NexusFitter`, `do_fit`, fixing and limiting parameters, parameter errors and covariance): the fitter is only a record of the parameters it fits and their values.
- Numerical inversion (`invert_matrix`, `np.linalg.inv`) is an abstract parameter that may report a singular matrix. Floating point and tolerances are not modelled: all arithmetic is over reals.
- XYContainers.ShiftCoefficients: gives the shape and the error path only, not the closed-form value or the nuisance identity.
- Error-object internals (kafe2/core/error.py is not part of this model). Relative scaling, `cor_mat` and the construction of `cov_mat` from `err_val` and the correlation are absent. The quantities the container reads are passed in as a record that satisfies the decomposition assumption.
- The `correlated=True` matching criterion of the base container (kafe2/fit/container.py is not part of this model) is read as "a simple error with non-zero `corr_coeff`". `XYContainers.Correlated` states this reading. `DesignRows`, `UncorCov` and `SplitReconstructsTotal` rest on it.
- The base container (kafe2/fit/container.py is not part of this model). `_add_error_object`, `disable_error`, `has_errors` and name generation are modelled by their contracts. The container-level `get_matching_errors` is a `query` parameter of `Fits.Fit.GetMatchingErrors`.
- Fits.Fit.GetMatchingErrors: `pop('reference')` mutating the caller's dictionary is not modelled; the remaining criteria are passed on as a value.
- numpy broadcasting of size-1 operands is not modelled: summands whose shapes do not match make the calculation fail.
- `add_in_quadrature` with no arguments is not modelled. Util.AddInQuadrature: `sqrt` is a parameter satisfying the square-root property, because real square roots cannot be constructed here.
- `str.lower()` is ASCII only.
- Reporting, plotting, LaTeX, formatters, file I/O, `source_code`, `x_range`/`y_range` and the `*_uncor_cov_mat_inverse` properties.
- `ParametricModelBaseMixin` is a separate `ParametricModel` object holding its container, not a mixin.
- Fits.Fit.PushPoiValues: only the effect of the `poi_values` callback is modelled. A missing value becomes a `MissingParameterValue` error.
- Fits.Fit.AddMatrixParameterConstraint: the constraint classes `GaussianSimpleParameterConstraint` and `GaussianMatrixParameterConstraint` (kafe2/core/constraint.py is not part of this model) are plain records. Their constructors are assumed not to raise. The matrix shape (N x N for N names) and a `matrix_type` of 'cov' or 'cor' are therefore not checked, and the method promises success for any matrix once the names are known. The same holds for Fits.Fit.AddParameterConstraint and its simple constraint.
- The cost function's parameter names are taken as given.
- Fits.Fit.InitNexus: that a fresh graph accepts the whole plan is not proved. It depends on the fit class's property set and `AXES`: for example, the dependency of `model` needs a `model` node, and an empty `AXES` makes the concatenation names repeat the per-axis ones. What is proved is acceptance of the parameter nodes (`Fits.PoiStepsAccepted`) and of the requests after them under stated conditions (`Fits.TailStepsAccepted`). The contract ties success to acceptance instead.
- XYContainers.FindAxis: complex numbers and numpy scalar types that equal 0 or 1 are not modelled; integers, bools and floats are.
- Python signatures never repeat a parameter name, so the fit requires distinct signature names.
