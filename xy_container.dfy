/**
 * The `XYContainer` of kafe2/fit/xy/container.py: a 2 x N table of x and y
 * values, a table of uncertainty sources per axis, and two caches filled on
 * demand: the total covariance matrix of each axis, and the "split system"
 * `(G, U)` of each axis, where the rows of the design matrix `G` are the
 * fully correlated components of the splittable sources and `U` holds the
 * rest, so that `G^T G + U` is the total covariance.
 *
 * Error objects (`SimpleGaussianError`, `MatrixGaussianError`) live in a file
 * that is not part of this model: here they are a record of the quantities
 * the container reads from them, and the container methods that build one
 * receive those quantities as a parameter.
 */
module XYContainers {
  import opened Wrappers
  import opened LinAlg

  // ---- axes ---------------------------------------------------------------------

  /**
   * What `_find_axis_raise` may be handed: an integer, a bool, a float, a
   * string, or any other object. A bool or a float has no `lower()` and is
   * looked up as it is; Python's dictionary lookup equates `True`, `1.0` and
   * `1` (and `False`, `0.0` and `0`).
   */
  datatype AxisSpec = IntAxis(i: int) | BoolAxis(b: bool) | RealAxis(v: real) | StrAxis(s: string) | OtherAxis

  /** The exceptions the container raises (`XYContainerException`, numpy's `ValueError`, `LinAlgError`). */
  datatype ContainerError =
    | NoSuchAxis(spec: AxisSpec)
    | LengthMismatch
    | DataNot2D(shape: seq<nat>)
    | NoAxisOfLength2(shape: seq<nat>)
    | RowNot1D(shape: seq<nat>)
    | CannotBroadcast(shape: seq<nat>)
    | ShapeMismatch
    | DuplicateErrorName(name: string)
    | NoSuchError(name: string)
    | UnsplittableSingular
    | Singular

  /** `str.lower()` on ASCII letters. */
  function LowerChar(c: char): char {
    if 'A' <= c <= 'Z' then (c as int + 32) as char else c
  }

  function ToLower(s: string): (r: string)
    ensures |r| == |s|
    ensures forall i :: 0 <= i < |s| ==> r[i] == LowerChar(s[i])
  {
    seq(|s|, i requires 0 <= i < |s| => LowerChar(s[i]))
  }

  /** `_find_axis_raise`: strings are lower-cased, then looked up in `_AXIS_SPEC_DICT`. */
  function FindAxis(spec: AxisSpec): (r: Result<nat, ContainerError>)
    ensures r == Ok(0) <==> spec in {IntAxis(0), BoolAxis(false), RealAxis(0.0), StrAxis("0"), StrAxis("x"), StrAxis("X")}
    ensures r == Ok(1) <==> spec in {IntAxis(1), BoolAxis(true), RealAxis(1.0), StrAxis("1"), StrAxis("y"), StrAxis("Y")}
    ensures r.Ok? || r == Err(NoSuchAxis(spec))
    ensures r.Ok? ==> r.value < 2
  {
    match spec
    case IntAxis(i) =>
      if i == 0 then Ok(0) else if i == 1 then Ok(1) else Err(NoSuchAxis(spec))
    case BoolAxis(b) =>
      if b then Ok(1) else Ok(0)
    case RealAxis(v) =>
      if v == 0.0 then Ok(0) else if v == 1.0 then Ok(1) else Err(NoSuchAxis(spec))
    case StrAxis(s) =>
      LowerOneChar(s, '0', '0');
      LowerOneChar(s, '1', '1');
      LowerOneChar(s, 'x', 'X');
      LowerOneChar(s, 'y', 'Y');
      var l := ToLower(s);
      if l == "0" || l == "x" then Ok(0)
      else if l == "1" || l == "y" then Ok(1)
      else Err(NoSuchAxis(spec))
    case OtherAxis => Err(NoSuchAxis(spec))
  }

  /** The strings that lower-case to the one-character string `[c]` are `[c]` and `[upper]`. */
  lemma LowerOneChar(s: string, c: char, upper: char)
    requires c in "01xy"
    requires upper as int == if c in "xy" then c as int - 32 else c as int
    ensures ToLower(s) == [c] <==> s == [c] || s == [upper]
  {
    if ToLower(s) == [c] {
      assert |s| == 1 && LowerChar(s[0]) == c;
      assert s == [s[0]];
      var d := s[0];
      assert d == c || (d as int == c as int - 32 && c in "xy");
    }
  }

  // ---- error sources ---------------------------------------------------------------

  /** Which kind of error object a source holds, with the arguments it was built from. */
  datatype ErrorKind =
    | Simple(errVal: seq<real>)
    | MatrixError(errMatrix: Matrix, matrixType: string, matrixErrVal: Option<seq<real>>)

  /**
   * The quantities the container reads from an error object: `cov_mat`,
   * `cov_mat_uncor`, `error_cor` and `corr_coeff`, as `error.py` computes them.
   */
  datatype ErrorParts = ErrorParts(covMat: Matrix, covMatUncor: Matrix, errorCor: seq<real>, corrCoeff: real)

  /** An error object: its kind, whether it is relative, the reference it follows, and its parts. */
  datatype GaussianError = GaussianError(kind: ErrorKind, relative: bool, reference: seq<real>, parts: ErrorParts)

  /** One value of `_error_dicts`, together with its key `name`. */
  datatype ErrorDict = ErrorDict(name: string, axis: nat, enabled: bool, splittable: bool, err: GaussianError)

  /**
   * The assumption made about simple errors: the covariance matrix is the
   * uncorrelated part plus the outer product of the correlated error vector.
   */
  predicate Decomposed(p: ErrorParts) {
    var m := |p.errorCor|;
    && IsMatrix(p.covMat, m, m)
    && IsMatrix(p.covMatUncor, m, m)
    && forall i, j :: 0 <= i < m && 0 <= j < m ==>
         p.covMat[i][j] == p.covMatUncor[i][j] + p.errorCor[i] * p.errorCor[j]
  }

  /** The `correlated=True` matching criterion: a simple error with non-zero correlation. */
  predicate Correlated(e: ErrorDict) {
    e.err.kind.Simple? && e.err.parts.corrCoeff != 0.0
  }

  /** An enabled source on `axis`. */
  predicate OnAxis(e: ErrorDict, axis: nat) {
    e.enabled && e.axis == axis
  }

  /** A source that gives one row of the design matrix `G` of `axis`. */
  predicate InDesign(e: ErrorDict, axis: nat) {
    OnAxis(e, axis) && Correlated(e) && e.splittable
  }

  /** A source whose whole `cov_mat` goes into `U` (a matrix error or a non-splittable one). */
  predicate CountsWhole(e: ErrorDict) {
    e.err.kind.MatrixError? || !e.splittable
  }

  /** What every stored source satisfies. */
  predicate EntryInvariant(e: ErrorDict) {
    && (e.axis == 0 || e.axis == 1)
    && (e.splittable ==> Correlated(e))
    && (e.err.kind.Simple? ==> Decomposed(e.err.parts))
  }

  function Names(errs: seq<ErrorDict>): set<string> {
    set k | 0 <= k < |errs| :: errs[k].name
  }

  predicate TableInvariant(errs: seq<ErrorDict>) {
    && (forall k :: 0 <= k < |errs| ==> EntryInvariant(errs[k]))
    && (forall k, l :: 0 <= k < l < |errs| ==> errs[k].name != errs[l].name)
  }

  /** The table after `disable_error(name)`: the source called `name` stays, disabled; nothing else changes. */
  function DisableNamed(errs: seq<ErrorDict>, name: string): seq<ErrorDict> {
    seq(|errs|, k requires 0 <= k < |errs| => if errs[k].name == name then errs[k].(enabled := false) else errs[k])
  }

  // ---- shapes: numpy raises when a summand does not fit ------------------------------

  predicate AxisCovFits(errs: seq<ErrorDict>, axis: nat, n: nat) {
    forall k :: 0 <= k < |errs| && OnAxis(errs[k], axis) ==> IsMatrix(errs[k].err.parts.covMat, n, n)
  }

  /** The matrix a source adds to `U`. */
  function UncorPart(e: ErrorDict): Matrix {
    if CountsWhole(e) then e.err.parts.covMat else e.err.parts.covMatUncor
  }

  predicate AxisUncorFits(errs: seq<ErrorDict>, axis: nat, n: nat) {
    forall k :: 0 <= k < |errs| && OnAxis(errs[k], axis) ==> IsMatrix(UncorPart(errs[k]), n, n)
  }

  predicate AxisRowsFit(errs: seq<ErrorDict>, axis: nat, n: nat) {
    forall k :: 0 <= k < |errs| && InDesign(errs[k], axis) ==> |errs[k].err.parts.errorCor| == n
  }

  /** `_calculate_total_error` completes. */
  predicate TotalComputable(errs: seq<ErrorDict>, n: nat) {
    AxisCovFits(errs, 0, n) && AxisCovFits(errs, 1, n)
  }

  /** `_calculate_full_cor_split_system` completes. */
  predicate SplitComputable(errs: seq<ErrorDict>, n: nat) {
    && AxisRowsFit(errs, 0, n) && AxisUncorFits(errs, 0, n)
    && AxisRowsFit(errs, 1, n) && AxisUncorFits(errs, 1, n)
  }

  // ---- the specification of the caches -------------------------------------------------

  /** Total covariance of `axis`: the sum of `cov_mat` over the enabled sources on that axis. */
  function TotalCov(errs: seq<ErrorDict>, axis: nat, n: nat): (v: Matrix)
    requires AxisCovFits(errs, axis, n)
    ensures IsMatrix(v, n, n)
  {
    if errs == [] then Zero(n, n)
    else
      var e := errs[|errs| - 1];
      var acc := TotalCov(errs[..|errs| - 1], axis, n);
      if OnAxis(e, axis) then Add(acc, e.err.parts.covMat, n, n) else acc
  }

  /** `U` of `axis`: whole `cov_mat` of matrix or non-splittable sources, `cov_mat_uncor` of the others. */
  function UncorCov(errs: seq<ErrorDict>, axis: nat, n: nat): (u: Matrix)
    requires AxisUncorFits(errs, axis, n)
    ensures IsMatrix(u, n, n)
  {
    if errs == [] then Zero(n, n)
    else
      var e := errs[|errs| - 1];
      var acc := UncorCov(errs[..|errs| - 1], axis, n);
      if OnAxis(e, axis) then Add(acc, UncorPart(e), n, n) else acc
  }

  /** `G` of `axis`: the `error_cor` of each enabled, correlated, splittable source on it, in table order. */
  function DesignRows(errs: seq<ErrorDict>, axis: nat): (g: Matrix)
    ensures |g| <= |errs|
  {
    if errs == [] then []
    else
      var e := errs[|errs| - 1];
      var acc := DesignRows(errs[..|errs| - 1], axis);
      if InDesign(e, axis) then acc + [e.err.parts.errorCor] else acc
  }

  /** The error object `_calculate_total_error` builds for one axis: a covariance-matrix error. */
  datatype TotalError = TotalError(covMat: Matrix, reference: seq<real>)

  /** One element of `_full_cor_split_system`. */
  datatype SplitSystem = SplitSystem(g: Matrix, u: Matrix)

  function TotalErrorsOf(errs: seq<ErrorDict>, xy: seq<seq<real>>, n: nat): seq<TotalError>
    requires TotalComputable(errs, n) && |xy| == 2
  {
    [TotalError(TotalCov(errs, 0, n), xy[0]), TotalError(TotalCov(errs, 1, n), xy[1])]
  }

  function SplitSystemsOf(errs: seq<ErrorDict>, n: nat): seq<SplitSystem>
    requires SplitComputable(errs, n)
  {
    [SplitSystem(DesignRows(errs, 0), UncorCov(errs, 0, n)),
     SplitSystem(DesignRows(errs, 1), UncorCov(errs, 1, n))]
  }

  // ---- array inputs of the setters -----------------------------------------------------

  function Product(shape: seq<nat>): nat {
    if shape == [] then 1 else shape[0] * Product(shape[1..])
  }

  /** A numpy array: its shape and its entries in row-major order. */
  datatype NdArray = NdArray(shape: seq<nat>, flat: seq<real>) {
    predicate WellFormed() {
      |flat| == Product(shape)
    }
  }

  /** Entry `(i, j)` of a two-dimensional array. */
  function At2(a: NdArray, i: nat, j: nat): real
    requires a.WellFormed() && |a.shape| == 2 && i < a.shape[0] && j < a.shape[1]
  {
    ProductOfTwo(a.shape);
    IndexBound(i, j, a.shape[0], a.shape[1]);
    a.flat[i * a.shape[1] + j]
  }

  lemma ProductOfTwo(shape: seq<nat>)
    requires |shape| == 2
    ensures Product(shape) == shape[0] * shape[1]
  {
    assert Product(shape[1..]) == shape[1] * Product(shape[1..][1..]);
  }

  lemma IndexBound(i: nat, j: nat, r: nat, c: nat)
    requires i < r && j < c
    ensures i * c + j < r * c
  {
    assert i * c + j < i * c + c == (i + 1) * c <= r * c;
  }

  /** The `data` setter's reading of its argument: a 2 x N array as is, an N x 2 array transposed. */
  function AsXYData(a: NdArray): (r: Result<seq<seq<real>>, ContainerError>)
    requires a.WellFormed()
    ensures r.Ok? ==> |r.value| == 2 && |r.value[0]| == |r.value[1]|
    ensures r.Err? <==> |a.shape| != 2 || (a.shape[0] != 2 && a.shape[1] != 2)
  {
    if |a.shape| != 2 then Err(DataNot2D(a.shape))
    else if a.shape[0] == 2 then
      var c := a.shape[1];
      ProductOfTwo(a.shape);
      Ok([a.flat[..c], a.flat[c..]])
    else if a.shape[1] == 2 then
      var r := a.shape[0];
      ProductOfTwo(a.shape);
      Ok([seq(r, i requires 0 <= i < r => a.flat[2 * i]), seq(r, i requires 0 <= i < r => a.flat[2 * i + 1])])
    else Err(NoAxisOfLength2(a.shape))
  }

  /** The number of dimensions left by `np.squeeze`. */
  function SqueezedNdim(shape: seq<nat>): nat {
    if shape == [] then 0 else (if shape[0] == 1 then 0 else 1) + SqueezedNdim(shape[1..])
  }

  lemma {:induction false} ProductOfOnes(shape: seq<nat>)
    requires forall k :: 0 <= k < |shape| ==> shape[k] == 1
    ensures Product(shape) == 1
  {
    if shape != [] {
      ProductOfOnes(shape[1..]);
    }
  }

  lemma ProductOnesThenLast(shape: seq<nat>)
    requires |shape| >= 1 && forall k :: 0 <= k < |shape| - 1 ==> shape[k] == 1
    ensures Product(shape) == shape[|shape| - 1]
    decreases |shape|
  {
    if |shape| > 1 {
      ProductOnesThenLast(shape[1..]);
    }
  }

  /**
   * `xy_data[axis, :] = new_row` for a row of `n` points: numpy broadcasts an
   * array whose dimensions are all 1 except possibly the last, which must be
   * 1 or `n`; anything else raises `ValueError`.
   */
  function AssignedRow(a: NdArray, n: nat): (r: Option<seq<real>>)
    requires a.WellFormed()
    ensures r.Some? ==> |r.value| == n
  {
    var d := |a.shape|;
    if exists k :: 0 <= k < d - 1 && a.shape[k] != 1 then None
    else if d == 0 || a.shape[d - 1] == 1 then
      ProductOfOnes(a.shape);
      Some(seq(n, i => a.flat[0]))
    else if a.shape[d - 1] == n then
      ProductOnesThenLast(a.shape);
      Some(a.flat)
    else None
  }

  /** The `x`/`y` setters point the reference of every source on `axis` at the new row; no other source changes. */
  function RepointReferences(errs: seq<ErrorDict>, axis: nat, row: seq<real>): (r: seq<ErrorDict>)
    ensures |r| == |errs|
    ensures forall k :: 0 <= k < |errs| && errs[k].axis != axis ==> r[k] == errs[k]
    ensures forall k :: 0 <= k < |errs| && errs[k].axis == axis ==>
      r[k] == errs[k].(err := errs[k].err.(reference := row))
  {
    seq(|errs|, k requires 0 <= k < |errs| =>
      if errs[k].axis == axis then errs[k].(err := errs[k].err.(reference := row)) else errs[k])
  }

  /** `err_val` of `add_simple_error`: a scalar, or an array of pointwise errors. */
  datatype ErrVal = ScalarErr(v: real) | ArrayErr(values: seq<real>)

  /** A scalar `err_val` becomes `np.ones(size) * err_val`; an array is kept. */
  function Broadcast(v: ErrVal, n: nat): (r: seq<real>)
    ensures v.ScalarErr? ==> |r| == n && forall i :: 0 <= i < n ==> r[i] == v.v
    ensures v.ArrayErr? ==> r == v.values
  {
    match v
    case ScalarErr(x) => seq(n, i => x)
    case ArrayErr(xs) => xs
  }

  /** `np.linalg.inv`: a matrix of the shape of its argument, or `None` where it raises `LinAlgError`. */
  ghost predicate InverseKeepsShape(invert: Matrix -> Option<Matrix>) {
    forall m :: invert(m).Some? ==> IsMatrix(invert(m).value, |m|, |m|)
  }

  /**
   * The closed form of `get_shift_coefficients` once `G` (k x n) and `U`
   * (n x n) are known: `inv(I + G U^-1 G^T) . G . U^-1 . r`.
   */
  /**
   * What `get_shift_coefficients(axis, residuals)` computes once the split
   * system of `axis` is available: the shift coefficients of its `(G, U)`.
   */
  function ShiftOf(errs: seq<ErrorDict>, axis: nat, n: nat, residuals: seq<real>,
                   invert: Matrix -> Option<Matrix>): (r: Result<seq<real>, ContainerError>)
    requires SplitComputable(errs, n) && axis < 2 && InverseKeepsShape(invert)
    ensures invert(UncorCov(errs, axis, n)).None? <==> r == Err(UnsplittableSingular)
    ensures r.Ok? ==> |r.value| == |DesignRows(errs, axis)|
  {
    DesignRowsShape(errs, axis, n);
    ShiftCoefficients(DesignRows(errs, axis), UncorCov(errs, axis, n), n, residuals, invert)
  }

  function ShiftCoefficients(g: Matrix, u: Matrix, n: nat, residuals: seq<real>,
                             invert: Matrix -> Option<Matrix>): (r: Result<seq<real>, ContainerError>)
    requires IsMatrix(g, |g|, n) && IsMatrix(u, n, n) && InverseKeepsShape(invert)
    ensures invert(u).None? <==> r == Err(UnsplittableSingular)
    ensures r.Ok? ==> |r.value| == |g| && |residuals| == n
    ensures |residuals| != n ==> r.Err?
  {
    var k := |g|;
    match invert(u)
    case None => Err(UnsplittableSingular)
    case Some(uinv) =>
      var gu := MatMul(g, uinv, k, n, n);
      var inner := Add(Identity(k), MatMul(gu, Transpose(g, k, n), k, n, k), k, k);
      match invert(inner)
      case None => Err(Singular)
      case Some(innerInv) =>
        if |residuals| != n then Err(ShapeMismatch)
        else
          var m := MatMul(MatMul(innerInv, g, k, k, n), uinv, k, n, n);
          Ok(MatVec(m, residuals, k, n))
  }

  // ---- the container -----------------------------------------------------------------------

  class XYContainer {
    /** `_xy_data`: row 0 holds x, row 1 holds y. */
    var xyData: seq<seq<real>>
    /** `_error_dicts`, in insertion order. */
    var errorDicts: seq<ErrorDict>
    /** `_xy_total_errors`. */
    var totalErrors: Option<seq<TotalError>>
    /** `_full_cor_split_system`. */
    var splitSystem: Option<seq<SplitSystem>>

    /** The data is 2 x N, the table is well formed, and each filled cache agrees with the table. */
    ghost predicate Valid()
      reads this
    {
      && |xyData| == 2 && |xyData[0]| == |xyData[1]|
      && TableInvariant(errorDicts)
      && (totalErrors.Some? ==>
            TotalComputable(errorDicts, |xyData[0]|)
            && totalErrors.value == TotalErrorsOf(errorDicts, xyData, |xyData[0]|))
      && (splitSystem.Some? ==>
            SplitComputable(errorDicts, |xyData[0]|)
            && splitSystem.value == SplitSystemsOf(errorDicts, |xyData[0]|))
    }

    /** `size`: the number of data points. */
    function Size(): nat
      reads this
      requires |xyData| == 2
    {
      |xyData[0]|
    }

    /** The `data` getter. */
    function Data(): seq<seq<real>>
      reads this
    {
      xyData
    }

    /** The `x` getter. */
    function X(): seq<real>
      reads this
      requires |xyData| == 2
    {
      xyData[0]
    }

    /** The `y` getter. */
    function Y(): seq<real>
      reads this
      requires |xyData| == 2
    {
      xyData[1]
    }

    /** `has_errors` of the base container: some source is defined. */
    function HasErrors(): bool
      reads this
    {
      |errorDicts| > 0
    }

    /** `__init__` once the lengths are known to agree. */
    constructor Init(x: seq<real>, y: seq<real>)
      requires |x| == |y|
      ensures Valid()
      ensures xyData == [x, y] && errorDicts == []
      ensures totalErrors == None && splitSystem == None
    {
      xyData := [x, y];
      errorDicts := [];
      totalErrors := None;
      splitSystem := None;
    }

    /** `XYContainer(x_data, y_data)`: raises when the lengths differ. */
    static method Create(x: seq<real>, y: seq<real>) returns (r: Result<XYContainer, ContainerError>)
      ensures r.Err? <==> |x| != |y|
      ensures r.Err? ==> r.error == LengthMismatch
      ensures r.Ok? ==> fresh(r.value) && r.value.Valid()
      ensures r.Ok? ==> r.value.xyData == [x, y] && r.value.errorDicts == []
      ensures r.Ok? ==> r.value.totalErrors == None && r.value.splitSystem == None
    {
      if |x| != |y| {
        return Err(LengthMismatch);
      }
      var c := new XYContainer.Init(x, y);
      return Ok(c);
    }

    /** `_clear_total_error_cache`. */
    method ClearTotalErrorCache()
      requires Valid()
      modifies this`totalErrors, this`splitSystem
      ensures Valid()
      ensures totalErrors == None && splitSystem == None
    {
      totalErrors := None;
      splitSystem := None;
    }

    /**
     * `_calculate_total_error`: sums `cov_mat` of the enabled sources of each
     * axis into the cache; raises if a summand is not N x N.
     */
    method CalculateTotalError() returns (ok: bool)
      requires Valid()
      modifies this`totalErrors
      ensures Valid()
      ensures ok <==> TotalComputable(errorDicts, Size())
      ensures ok ==> totalErrors == Some(TotalErrorsOf(errorDicts, xyData, Size()))
      ensures !ok ==> totalErrors == old(totalErrors)
    {
      var n := |xyData[0]|;
      var covX, covY := Zero(n, n), Zero(n, n);
      var k := 0;
      while k < |errorDicts|
        invariant 0 <= k <= |errorDicts|
        invariant TotalComputable(errorDicts[..k], n)
        invariant covX == TotalCov(errorDicts[..k], 0, n)
        invariant covY == TotalCov(errorDicts[..k], 1, n)
      {
        var e := errorDicts[k];
        assert errorDicts[..k + 1][..k] == errorDicts[..k];
        assert errorDicts[..k + 1][k] == e;
        if e.enabled {
          assert e.axis == 0 || e.axis == 1 by { assert EntryInvariant(errorDicts[k]); }
          if !IsMatrix(e.err.parts.covMat, n, n) {
            assert !AxisCovFits(errorDicts, e.axis, n);
            return false;
          }
          if e.axis == 0 {
            covX := Add(covX, e.err.parts.covMat, n, n);
          } else {
            covY := Add(covY, e.err.parts.covMat, n, n);
          }
        }
        k := k + 1;
      }
      assert errorDicts[..k] == errorDicts;
      totalErrors := Some([TotalError(covX, xyData[0]), TotalError(covY, xyData[1])]);
      return true;
    }

    /** `_calculate_uncor_cov_mat(axis)`: `U` of one axis; raises if a summand is not N x N. */
    method CalculateUncorCovMat(axis: nat) returns (r: Result<Matrix, ContainerError>)
      requires Valid()
      ensures r.Ok? <==> AxisUncorFits(errorDicts, axis, Size())
      ensures r.Ok? ==> r.value == UncorCov(errorDicts, axis, Size())
      ensures r.Err? ==> r.error == ShapeMismatch
    {
      var n := |xyData[0]|;
      var u := Zero(n, n);
      var k := 0;
      while k < |errorDicts|
        invariant 0 <= k <= |errorDicts|
        invariant AxisUncorFits(errorDicts[..k], axis, n)
        invariant u == UncorCov(errorDicts[..k], axis, n)
      {
        var e := errorDicts[k];
        assert errorDicts[..k + 1][..k] == errorDicts[..k];
        assert errorDicts[..k + 1][k] == e;
        if e.enabled && e.axis == axis {
          var part := if e.err.kind.MatrixError? || !e.splittable then e.err.parts.covMat
                      else e.err.parts.covMatUncor;
          if !IsMatrix(part, n, n) {
            return Err(ShapeMismatch);
          }
          u := Add(u, part, n, n);
        }
        k := k + 1;
      }
      assert errorDicts[..k] == errorDicts;
      return Ok(u);
    }

    /**
     * `_calculate_cor_nuisance_des_mat(axis)`: `G` of one axis, one row per
     * enabled, correlated, splittable source on it, N columns.
     */
    method CalculateCorNuisanceDesMat(axis: nat) returns (r: Result<Matrix, ContainerError>)
      requires Valid()
      ensures r.Ok? <==> AxisRowsFit(errorDicts, axis, Size())
      ensures r.Ok? ==> r.value == DesignRows(errorDicts, axis) && IsMatrix(r.value, |r.value|, Size())
      ensures r.Err? ==> r.error == ShapeMismatch
    {
      var n := |xyData[0]|;
      var g: Matrix := [];
      var k := 0;
      while k < |errorDicts|
        invariant 0 <= k <= |errorDicts|
        invariant AxisRowsFit(errorDicts[..k], axis, n)
        invariant g == DesignRows(errorDicts[..k], axis)
        invariant IsMatrix(g, |g|, n)
      {
        var e := errorDicts[k];
        assert errorDicts[..k + 1][..k] == errorDicts[..k];
        assert errorDicts[..k + 1][k] == e;
        if e.enabled && e.axis == axis && e.err.kind.Simple? && e.err.parts.corrCoeff != 0.0 && e.splittable {
          if |e.err.parts.errorCor| != n {
            return Err(ShapeMismatch);
          }
          g := g + [e.err.parts.errorCor];
        }
        k := k + 1;
      }
      assert errorDicts[..k] == errorDicts;
      return Ok(g);
    }

    /** `_calculate_full_cor_split_system`: `(G, U)` for axes 0 and 1 into the cache. */
    method CalculateFullCorSplitSystem() returns (ok: bool)
      requires Valid()
      modifies this`splitSystem
      ensures Valid()
      ensures ok <==> SplitComputable(errorDicts, Size())
      ensures ok ==> splitSystem == Some(SplitSystemsOf(errorDicts, Size()))
      ensures !ok ==> splitSystem == old(splitSystem)
    {
      var g0 := CalculateCorNuisanceDesMat(0);
      if g0.Err? { return false; }
      var u0 := CalculateUncorCovMat(0);
      if u0.Err? { return false; }
      var g1 := CalculateCorNuisanceDesMat(1);
      if g1.Err? { return false; }
      var u1 := CalculateUncorCovMat(1);
      if u1.Err? { return false; }
      splitSystem := Some([SplitSystem(g0.value, u0.value), SplitSystem(g1.value, u1.value)]);
      return true;
    }

    /** The `data` setter: stores a 2 x N array as is, an N x 2 one transposed, and empties both caches. */
    method SetData(newData: NdArray) returns (r: Outcome<ContainerError>)
      requires Valid() && newData.WellFormed()
      modifies this
      ensures Valid()
      ensures r.Pass? <==> AsXYData(newData).Ok?
      ensures r.Fail? ==> r.error == AsXYData(newData).error && unchanged(this)
      ensures r.Pass? ==> xyData == AsXYData(newData).value
      ensures r.Pass? ==> totalErrors == None && splitSystem == None
      ensures errorDicts == old(errorDicts)
    {
      var parsed := AsXYData(newData);
      if parsed.Err? {
        return Fail(parsed.error);
      }
      xyData := parsed.value;
      totalErrors := None;
      splitSystem := None;
      return Pass;
    }

    /**
     * The `x` (axis 0) and `y` (axis 1) setters: write the row in place,
     * point the reference of the sources on that axis at it, empty both caches.
     */
    method SetRow(axis: nat, newRow: NdArray) returns (r: Outcome<ContainerError>)
      requires Valid() && newRow.WellFormed() && axis < 2
      modifies this
      ensures Valid()
      ensures SqueezedNdim(newRow.shape) > 1 ==> r == Fail(RowNot1D(newRow.shape))
      ensures SqueezedNdim(newRow.shape) <= 1 ==>
        (r.Pass? <==> AssignedRow(newRow, old(Size())).Some?)
      ensures SqueezedNdim(newRow.shape) <= 1 && AssignedRow(newRow, old(Size())).None? ==>
        r == Fail(CannotBroadcast(newRow.shape))
      ensures r.Fail? ==> unchanged(this)
      ensures r.Pass? ==> xyData == old(xyData)[axis := AssignedRow(newRow, old(Size())).value]
      ensures r.Pass? ==> errorDicts == RepointReferences(old(errorDicts), axis, xyData[axis])
      ensures r.Pass? ==> totalErrors == None && splitSystem == None
    {
      if SqueezedNdim(newRow.shape) > 1 {
        return Fail(RowNot1D(newRow.shape));
      }
      var row := AssignedRow(newRow, |xyData[0]|);
      if row.None? {
        return Fail(CannotBroadcast(newRow.shape));
      }
      xyData := xyData[axis := row.value];
      ghost var before := errorDicts;
      var k := 0;
      while k < |errorDicts|
        invariant 0 <= k <= |errorDicts| == |before|
        invariant xyData == old(xyData)[axis := row.value] && |xyData| == 2
        invariant forall l :: 0 <= l < k ==> errorDicts[l] == RepointReferences(before, axis, xyData[axis])[l]
        invariant forall l :: k <= l < |before| ==> errorDicts[l] == before[l]
        invariant totalErrors == old(totalErrors) && splitSystem == old(splitSystem)
      {
        if errorDicts[k].axis == axis {
          var e := errorDicts[k];
          errorDicts := errorDicts[k := e.(err := e.err.(reference := xyData[axis]))];
        }
        k := k + 1;
      }
      assert errorDicts == RepointReferences(before, axis, xyData[axis]);
      RepointKeepsInvariant(before, axis, xyData[axis]);
      totalErrors := None;
      splitSystem := None;
      return Pass;
    }

    /** The `x` setter. */
    method SetX(newX: NdArray) returns (r: Outcome<ContainerError>)
      requires Valid() && newX.WellFormed()
      modifies this
      ensures Valid()
      ensures SqueezedNdim(newX.shape) > 1 ==> r == Fail(RowNot1D(newX.shape))
      ensures SqueezedNdim(newX.shape) <= 1 ==> (r.Pass? <==> AssignedRow(newX, old(Size())).Some?)
      ensures SqueezedNdim(newX.shape) <= 1 && AssignedRow(newX, old(Size())).None? ==>
        r == Fail(CannotBroadcast(newX.shape))
      ensures r.Fail? ==> unchanged(this)
      ensures r.Pass? ==> AssignedRow(newX, old(Size())).Some?
                          && xyData == [AssignedRow(newX, old(Size())).value, old(xyData)[1]]
      ensures r.Pass? ==> errorDicts == RepointReferences(old(errorDicts), 0, xyData[0])
      ensures r.Pass? ==> totalErrors == None && splitSystem == None
    {
      r := SetRow(0, newX);
    }

    /** The `y` setter. */
    method SetY(newY: NdArray) returns (r: Outcome<ContainerError>)
      requires Valid() && newY.WellFormed()
      modifies this
      ensures Valid()
      ensures SqueezedNdim(newY.shape) > 1 ==> r == Fail(RowNot1D(newY.shape))
      ensures SqueezedNdim(newY.shape) <= 1 ==> (r.Pass? <==> AssignedRow(newY, old(Size())).Some?)
      ensures SqueezedNdim(newY.shape) <= 1 && AssignedRow(newY, old(Size())).None? ==>
        r == Fail(CannotBroadcast(newY.shape))
      ensures r.Fail? ==> unchanged(this)
      ensures r.Pass? ==> AssignedRow(newY, old(Size())).Some?
                          && xyData == [old(xyData)[0], AssignedRow(newY, old(Size())).value]
      ensures r.Pass? ==> errorDicts == RepointReferences(old(errorDicts), 1, xyData[1])
      ensures r.Pass? ==> totalErrors == None && splitSystem == None
    {
      r := SetRow(1, newY);
    }

    /**
     * `_add_error_object` of the base container (not part of this model),
     * by its contract: a given name must be new, a missing one is replaced by
     * a generated unused name; the source is appended enabled and both caches
     * are emptied.
     */
    method AddErrorObject(name: Option<string>, generated: string, err: GaussianError,
                          axis: nat, splittable: bool) returns (r: Result<string, ContainerError>)
      requires Valid() && generated !in Names(errorDicts)
      requires EntryInvariant(ErrorDict(generated, axis, true, splittable, err))
      modifies this
      ensures Valid()
      ensures xyData == old(xyData)
      ensures name.Some? && name.value in Names(old(errorDicts)) <==> r.Err?
      ensures r.Err? ==> r.error == DuplicateErrorName(name.value) && unchanged(this)
      ensures r.Ok? ==> r.value == (if name.Some? then name.value else generated)
      ensures r.Ok? ==> errorDicts == old(errorDicts) + [ErrorDict(r.value, axis, true, splittable, err)]
      ensures r.Ok? ==> totalErrors == None && splitSystem == None
    {
      var chosen := if name.Some? then name.value else generated;
      if name.Some? && name.value in Names(errorDicts) {
        return Err(DuplicateErrorName(name.value));
      }
      var entry := ErrorDict(chosen, axis, true, splittable, err);
      assert chosen !in Names(errorDicts);
      errorDicts := errorDicts + [entry];
      totalErrors := None;
      splitSystem := None;
      return Ok(chosen);
    }

    /**
     * `add_simple_error`: a scalar `err_val` is broadcast to `size` points;
     * the source is splittable only if asked to be and its correlation is
     * non-zero. `parts` are what `SimpleGaussianError` computes.
     */
    method AddSimpleError(axis: AxisSpec, errVal: ErrVal, name: Option<string>, correlation: real,
                          relative: bool, splittable: bool, parts: ErrorParts, generated: string)
      returns (r: Result<string, ContainerError>)
      requires Valid() && generated !in Names(errorDicts)
      requires Decomposed(parts) && parts.corrCoeff == correlation
      modifies this
      ensures Valid()
      ensures FindAxis(axis).Err? ==> r == Err(FindAxis(axis).error) && unchanged(this)
      ensures FindAxis(axis).Ok? ==> (r.Ok? <==> name.None? || name.value !in Names(old(errorDicts)))
      ensures FindAxis(axis).Ok? && r.Err? ==> r.error == DuplicateErrorName(name.value)
      ensures r.Ok? ==> r.value == (if name.Some? then name.value else generated) && xyData == old(xyData)
      ensures r.Ok? ==> errorDicts == old(errorDicts) + [ErrorDict(r.value, FindAxis(axis).value, true,
        splittable && correlation != 0.0,
        GaussianError(Simple(Broadcast(errVal, old(Size()))), relative, xyData[FindAxis(axis).value], parts))]
      ensures r.Ok? ==> totalErrors == None && splitSystem == None
      ensures r.Err? ==> unchanged(this)
    {
      var found := FindAxis(axis);
      if found.Err? {
        return Err(found.error);
      }
      var a := found.value;
      var values := Broadcast(errVal, |xyData[0]|);
      var err := GaussianError(Simple(values), relative, xyData[a], parts);
      r := AddErrorObject(name, generated, err, a, splittable && correlation != 0.0);
    }

    /** `add_matrix_error`: the source is never splittable. `parts` are what `MatrixGaussianError` computes. */
    method AddMatrixError(axis: AxisSpec, errMatrix: Matrix, matrixType: string, name: Option<string>,
                          errVal: Option<seq<real>>, relative: bool, parts: ErrorParts, generated: string)
      returns (r: Result<string, ContainerError>)
      requires Valid() && generated !in Names(errorDicts)
      modifies this
      ensures Valid()
      ensures FindAxis(axis).Err? ==> r == Err(FindAxis(axis).error) && unchanged(this)
      ensures FindAxis(axis).Ok? ==> (r.Ok? <==> name.None? || name.value !in Names(old(errorDicts)))
      ensures FindAxis(axis).Ok? && r.Err? ==> r.error == DuplicateErrorName(name.value)
      ensures r.Ok? ==> r.value == (if name.Some? then name.value else generated) && xyData == old(xyData)
      ensures r.Ok? ==> errorDicts == old(errorDicts) + [ErrorDict(r.value, FindAxis(axis).value, true, false,
        GaussianError(MatrixError(errMatrix, matrixType, errVal), relative, xyData[FindAxis(axis).value], parts))]
      ensures r.Ok? ==> totalErrors == None && splitSystem == None
      ensures r.Err? ==> unchanged(this)
    {
      var found := FindAxis(axis);
      if found.Err? {
        return Err(found.error);
      }
      var a := found.value;
      var err := GaussianError(MatrixError(errMatrix, matrixType, errVal), relative, xyData[a], parts);
      r := AddErrorObject(name, generated, err, a, false);
    }

    /**
     * `disable_error` of the base container (not part of this model), by its
     * contract: an unknown name raises; otherwise the source stays in the
     * table, disabled, and both caches are emptied.
     */
    method DisableError(name: string) returns (r: Outcome<ContainerError>)
      requires Valid()
      modifies this
      ensures Valid()
      ensures r.Fail? <==> name !in Names(old(errorDicts))
      ensures r.Fail? ==> r.error == NoSuchError(name) && unchanged(this)
      ensures r.Pass? ==> xyData == old(xyData) && |errorDicts| == |old(errorDicts)|
      ensures r.Pass? ==> forall k :: 0 <= k < |errorDicts| ==>
        errorDicts[k] == if old(errorDicts)[k].name == name then old(errorDicts)[k].(enabled := false)
                         else old(errorDicts)[k]
      ensures r.Pass? ==> errorDicts == DisableNamed(old(errorDicts), name)
      ensures r.Pass? ==> totalErrors == None && splitSystem == None
    {
      var k := 0;
      while k < |errorDicts|
        invariant 0 <= k <= |errorDicts|
        invariant forall l :: 0 <= l < k ==> errorDicts[l].name != name
      {
        if errorDicts[k].name == name {
          var e := errorDicts[k];
          errorDicts := errorDicts[k := e.(enabled := false)];
          assert Names(errorDicts) == Names(old(errorDicts)) by {
            assert forall l :: 0 <= l < |errorDicts| ==> errorDicts[l].name == old(errorDicts)[l].name;
          }
          totalErrors := None;
          splitSystem := None;
          return Pass;
        }
        k := k + 1;
      }
      return Fail(NoSuchError(name));
    }

    /**
     * `get_total_error(axis)`: computes the totals only when the cache is
     * empty; a filled cache is returned from unchanged.
     */
    method GetTotalError(axis: AxisSpec) returns (r: Result<TotalError, ContainerError>)
      requires Valid()
      modifies this`totalErrors
      ensures Valid()
      ensures FindAxis(axis).Err? ==> r == Err(FindAxis(axis).error) && totalErrors == old(totalErrors)
      ensures old(totalErrors).Some? ==> totalErrors == old(totalErrors)
      ensures FindAxis(axis).Ok? ==> (r.Ok? <==> TotalComputable(errorDicts, Size()))
      ensures FindAxis(axis).Ok? && r.Err? ==> r.error == ShapeMismatch
      ensures r.Ok? ==> totalErrors.Some? && r.value == totalErrors.value[FindAxis(axis).value]
      ensures r.Ok? ==> r.value == TotalError(TotalCov(errorDicts, FindAxis(axis).value, Size()),
                                              xyData[FindAxis(axis).value])
    {
      var found := FindAxis(axis);
      if found.Err? {
        return Err(found.error);
      }
      if totalErrors.None? {
        var ok := CalculateTotalError();
        if !ok {
          return Err(ShapeMismatch);
        }
      }
      return Ok(totalErrors.value[found.value]);
    }

    /**
     * `split_errors(axis)`: `(G, U)` with `G^T G + U` the total covariance;
     * computed only when the cache is empty.
     */
    method SplitErrors(axis: AxisSpec) returns (r: Result<SplitSystem, ContainerError>)
      requires Valid()
      modifies this`splitSystem
      ensures Valid()
      ensures FindAxis(axis).Err? ==> r == Err(FindAxis(axis).error) && splitSystem == old(splitSystem)
      ensures old(splitSystem).Some? ==> splitSystem == old(splitSystem)
      ensures FindAxis(axis).Ok? ==> (r.Ok? <==> SplitComputable(errorDicts, Size()))
      ensures FindAxis(axis).Ok? && r.Err? ==> r.error == ShapeMismatch
      ensures r.Ok? ==> splitSystem.Some? && r.value == splitSystem.value[FindAxis(axis).value]
      ensures r.Ok? ==> IsMatrix(r.value.g, |r.value.g|, Size()) && IsMatrix(r.value.u, Size(), Size())
      ensures r.Ok? ==> Add(Gram(r.value.g, Size()), r.value.u, Size(), Size())
                        == TotalCov(errorDicts, FindAxis(axis).value, Size())
    {
      var found := FindAxis(axis);
      if found.Err? {
        return Err(found.error);
      }
      if splitSystem.None? {
        var ok := CalculateFullCorSplitSystem();
        if !ok {
          return Err(ShapeMismatch);
        }
      }
      var a := found.value;
      DesignRowsShape(errorDicts, a, Size());
      SplitReconstructsTotal(errorDicts, a, Size());
      return Ok(splitSystem.value[a]);
    }

    /**
     * `get_shift_coefficients(axis, residuals)`: fetches (and caches) the
     * total error, which it does not use, then `(G, U)`, and solves for one
     * coefficient per row of `G`; a singular `U` raises.
     */
    method GetShiftCoefficients(axis: AxisSpec, residuals: seq<real>, invert: Matrix -> Option<Matrix>)
      returns (r: Result<seq<real>, ContainerError>)
      requires Valid() && InverseKeepsShape(invert)
      modifies this`totalErrors, this`splitSystem
      ensures Valid()
      ensures FindAxis(axis).Err? ==> r == Err(FindAxis(axis).error)
      ensures FindAxis(axis).Ok? && !(TotalComputable(errorDicts, Size()) && SplitComputable(errorDicts, Size()))
              ==> r == Err(ShapeMismatch)
      ensures FindAxis(axis).Ok? && TotalComputable(errorDicts, Size()) && SplitComputable(errorDicts, Size())
              ==> r == ShiftOf(errorDicts, FindAxis(axis).value, Size(), residuals, invert)
      ensures r.Ok? ==> FindAxis(axis).Ok? && TotalComputable(errorDicts, Size())
                        && SplitComputable(errorDicts, Size()) && |residuals| == Size()
      ensures r.Ok? ==> |r.value| == |DesignRows(errorDicts, FindAxis(axis).value)|
      ensures FindAxis(axis).Ok? && TotalComputable(errorDicts, Size()) && SplitComputable(errorDicts, Size())
              && invert(UncorCov(errorDicts, FindAxis(axis).value, Size())).None?
              ==> r == Err(UnsplittableSingular)
    {
      var total := GetTotalError(axis);
      if total.Err? {
        return Err(total.error);
      }
      var split := SplitErrors(axis);
      if split.Err? {
        return Err(split.error);
      }
      r := ShiftCoefficients(split.value.g, split.value.u, |xyData[0]|, residuals, invert);
    }

    /** Whether some source, enabled or not, is on `axis`. */
    method HasErrorsOnAxis(axis: nat) returns (b: bool)
      ensures b <==> exists k :: 0 <= k < |errorDicts| && errorDicts[k].axis == axis
    {
      var k := 0;
      while k < |errorDicts|
        invariant 0 <= k <= |errorDicts|
        invariant forall l :: 0 <= l < k ==> errorDicts[l].axis != axis
      {
        if errorDicts[k].axis == axis {
          return true;
        }
        k := k + 1;
      }
      return false;
    }

    /** `has_x_errors`. */
    method HasXErrors() returns (b: bool)
      ensures b <==> exists k :: 0 <= k < |errorDicts| && errorDicts[k].axis == 0
    {
      b := HasErrorsOnAxis(0);
    }

    /** `has_y_errors`. */
    method HasYErrors() returns (b: bool)
      ensures b <==> exists k :: 0 <= k < |errorDicts| && errorDicts[k].axis == 1
    {
      b := HasErrorsOnAxis(1);
    }

    /** `has_uncor_x_errors`: some x source has a correlation coefficient other than 1. */
    method HasUncorXErrors() returns (b: bool)
      ensures b <==> exists k :: 0 <= k < |errorDicts| && errorDicts[k].axis == 0
                                 && errorDicts[k].err.parts.corrCoeff != 1.0
    {
      var k := 0;
      while k < |errorDicts|
        invariant 0 <= k <= |errorDicts|
        invariant forall l :: 0 <= l < k ==> !(errorDicts[l].axis == 0 && errorDicts[l].err.parts.corrCoeff != 1.0)
      {
        if errorDicts[k].axis == 0 && errorDicts[k].err.parts.corrCoeff != 1.0 {
          return true;
        }
        k := k + 1;
      }
      return false;
    }
  }

  // ---- properties of the split system ------------------------------------------------------

  lemma RepointKeepsInvariant(errs: seq<ErrorDict>, axis: nat, row: seq<real>)
    requires TableInvariant(errs)
    ensures TableInvariant(RepointReferences(errs, axis, row))
  {
    var r := RepointReferences(errs, axis, row);
    assert forall k :: 0 <= k < |errs| ==> r[k].name == errs[k].name;
  }

  /** `G` has one row of N entries for each enabled, correlated, splittable source on the axis. */
  lemma {:induction false} DesignRowsShape(errs: seq<ErrorDict>, axis: nat, n: nat)
    requires AxisRowsFit(errs, axis, n)
    ensures IsMatrix(DesignRows(errs, axis), |DesignRows(errs, axis)|, n)
  {
    if errs != [] {
      DesignRowsShape(errs[..|errs| - 1], axis, n);
    }
  }

  /** Every enabled source on the axis has an N x N `cov_mat` once `U` and `G` fit. */
  lemma CovFitsFromSplit(errs: seq<ErrorDict>, axis: nat, n: nat)
    requires AxisUncorFits(errs, axis, n) && AxisRowsFit(errs, axis, n)
    requires forall k :: 0 <= k < |errs| ==> EntryInvariant(errs[k])
    ensures AxisCovFits(errs, axis, n)
  {
    forall k | 0 <= k < |errs| && OnAxis(errs[k], axis)
      ensures IsMatrix(errs[k].err.parts.covMat, n, n)
    {
      assert EntryInvariant(errs[k]);
      if !CountsWhole(errs[k]) {
        assert InDesign(errs[k], axis);
      }
    }
  }

  /** One splittable source: its row joins `G`, its `cov_mat_uncor` joins `U`, its `cov_mat` joins the total. */
  lemma SplitStepDesign(g: Matrix, u: Matrix, v: Matrix, n: nat, p: ErrorParts)
    requires IsMatrix(g, |g|, n) && IsMatrix(u, n, n) && IsMatrix(v, n, n)
    requires Decomposed(p) && |p.errorCor| == n
    requires Add(Gram(g, n), u, n, n) == v
    ensures IsMatrix(g + [p.errorCor], |g| + 1, n)
    ensures Add(Gram(g + [p.errorCor], n), Add(u, p.covMatUncor, n, n), n, n) == Add(v, p.covMat, n, n)
  {
    var c := p.errorCor;
    GramSnoc(g, c, n);
    var lhs := Add(Gram(g + [c], n), Add(u, p.covMatUncor, n, n), n, n);
    var rhs := Add(v, p.covMat, n, n);
    forall i, j | 0 <= i < n && 0 <= j < n
      ensures lhs[i][j] == rhs[i][j]
    {
      assert Add(Gram(g, n), u, n, n)[i][j] == v[i][j];
    }
    MatrixExt(lhs, rhs, n, n);
  }

  /** One source counted whole: its `cov_mat` joins both `U` and the total. */
  lemma SplitStepWhole(g: Matrix, u: Matrix, v: Matrix, n: nat, m: Matrix)
    requires IsMatrix(g, |g|, n) && IsMatrix(u, n, n) && IsMatrix(v, n, n) && IsMatrix(m, n, n)
    requires Add(Gram(g, n), u, n, n) == v
    ensures Add(Gram(g, n), Add(u, m, n, n), n, n) == Add(v, m, n, n)
  {
    var lhs := Add(Gram(g, n), Add(u, m, n, n), n, n);
    var rhs := Add(v, m, n, n);
    forall i, j | 0 <= i < n && 0 <= j < n
      ensures lhs[i][j] == rhs[i][j]
    {
      assert Add(Gram(g, n), u, n, n)[i][j] == v[i][j];
    }
    MatrixExt(lhs, rhs, n, n);
  }

  /**
   * Under the decomposition assumption, `G^T G + U` equals the total
   * covariance of the axis: each splittable source gives back its
   * `cov_mat_uncor + error_cor (x) error_cor = cov_mat`, every other one
   * its whole `cov_mat`.
   */
  lemma {:induction false} SplitReconstructsTotal(errs: seq<ErrorDict>, axis: nat, n: nat)
    requires AxisUncorFits(errs, axis, n) && AxisRowsFit(errs, axis, n)
    requires forall k :: 0 <= k < |errs| ==> EntryInvariant(errs[k])
    ensures AxisCovFits(errs, axis, n)
    ensures IsMatrix(DesignRows(errs, axis), |DesignRows(errs, axis)|, n)
    ensures Add(Gram(DesignRows(errs, axis), n), UncorCov(errs, axis, n), n, n) == TotalCov(errs, axis, n)
  {
    DesignRowsShape(errs, axis, n);
    CovFitsFromSplit(errs, axis, n);
    if errs == [] {
      GramEmpty(n);
      MatrixExt(Add(Zero(n, n), Zero(n, n), n, n), Zero(n, n), n, n);
    } else {
      var init := errs[..|errs| - 1];
      var e := errs[|errs| - 1];
      SplitReconstructsTotal(init, axis, n);
      assert EntryInvariant(e);
      var g, u, v := DesignRows(init, axis), UncorCov(init, axis, n), TotalCov(init, axis, n);
      if InDesign(e, axis) {
        SplitStepDesign(g, u, v, n, e.err.parts);
      } else if OnAxis(e, axis) {
        SplitStepWhole(g, u, v, n, e.err.parts.covMat);
      }
    }
  }

  // ---- properties of the total covariance ----------------------------------------------------

  /** Sources that are disabled or on the other axis contribute nothing: with none on the axis, the total is zero. */
  lemma {:induction false} TotalCovOffAxis(errs: seq<ErrorDict>, axis: nat, n: nat)
    requires forall k :: 0 <= k < |errs| ==> !OnAxis(errs[k], axis)
    ensures AxisCovFits(errs, axis, n)
    ensures TotalCov(errs, axis, n) == Zero(n, n)
  {
    if errs != [] {
      TotalCovOffAxis(errs[..|errs| - 1], axis, n);
    }
  }

  lemma CovFitsWithout(p: seq<ErrorDict>, e: ErrorDict, r: seq<ErrorDict>, axis: nat, n: nat)
    requires AxisCovFits(p + [e] + r, axis, n)
    ensures AxisCovFits(p + r, axis, n)
    ensures OnAxis(e, axis) ==> IsMatrix(e.err.parts.covMat, n, n)
    ensures r != [] ==> AxisCovFits(p + [e] + r[..|r| - 1], axis, n)
  {
    var whole := p + [e] + r;
    forall k | 0 <= k < |p + r| && OnAxis((p + r)[k], axis)
      ensures IsMatrix((p + r)[k].err.parts.covMat, n, n)
    {
      if k < |p| {
        assert (p + r)[k] == whole[k];
      } else {
        assert (p + r)[k] == whole[k + 1];
      }
    }
    assert whole[|p|] == e;
    if r != [] {
      var shorter := p + [e] + r[..|r| - 1];
      forall k | 0 <= k < |shorter| && OnAxis(shorter[k], axis)
        ensures IsMatrix(shorter[k].err.parts.covMat, n, n)
      {
        assert shorter[k] == whole[k];
      }
    }
  }

  lemma AddSwap(a: Matrix, b: Matrix, c: Matrix, n: nat)
    requires IsMatrix(a, n, n) && IsMatrix(b, n, n) && IsMatrix(c, n, n)
    ensures Add(Add(a, b, n, n), c, n, n) == Add(Add(a, c, n, n), b, n, n)
  {
    MatrixExt(Add(Add(a, b, n, n), c, n, n), Add(Add(a, c, n, n), b, n, n), n, n);
  }

  /**
   * The contribution of one source to the total does not depend on where it
   * sits in the table: it is its `cov_mat` if it is enabled and on the axis,
   * nothing otherwise.
   */
  lemma {:induction false} TotalCovSplice(p: seq<ErrorDict>, e: ErrorDict, r: seq<ErrorDict>, axis: nat, n: nat)
    requires AxisCovFits(p + [e] + r, axis, n)
    ensures AxisCovFits(p + r, axis, n)
    ensures OnAxis(e, axis) ==> IsMatrix(e.err.parts.covMat, n, n)
    ensures TotalCov(p + [e] + r, axis, n) ==
      if OnAxis(e, axis) then Add(TotalCov(p + r, axis, n), e.err.parts.covMat, n, n)
      else TotalCov(p + r, axis, n)
    decreases |r|
  {
    CovFitsWithout(p, e, r, axis, n);
    if r == [] {
      assert p + [e] + r == p + [e];
      assert p + r == p;
      assert (p + [e])[..|p|] == p;
    } else {
      var r0, x := r[..|r| - 1], r[|r| - 1];
      var whole := p + [e] + r;
      assert whole[..|whole| - 1] == p + [e] + r0;
      assert whole[|whole| - 1] == x;
      assert (p + r)[..|p + r| - 1] == p + r0;
      assert (p + r)[|p + r| - 1] == x;
      TotalCovSplice(p, e, r0, axis, n);
      if OnAxis(e, axis) && OnAxis(x, axis) {
        assert IsMatrix(x.err.parts.covMat, n, n) by { assert whole[|whole| - 1] == x; }
        assert IsMatrix(e.err.parts.covMat, n, n) by { assert whole[|p|] == e; }
        AddSwap(TotalCov(p + r0, axis, n), e.err.parts.covMat, x.err.parts.covMat, n);
      }
    }
  }

  /**
   * `disable_error` removes exactly the source's own `cov_mat` from the total
   * of its axis and leaves the other axis alone; enabling it again adds it back.
   */
  lemma DisableRemovesContribution(errs: seq<ErrorDict>, k: nat, axis: nat, n: nat)
    requires k < |errs| && AxisCovFits(errs, axis, n)
    ensures AxisCovFits(errs[k := errs[k].(enabled := false)], axis, n)
    ensures OnAxis(errs[k], axis) ==>
      TotalCov(errs, axis, n) == Add(TotalCov(errs[k := errs[k].(enabled := false)], axis, n), errs[k].err.parts.covMat, n, n)
    ensures !OnAxis(errs[k], axis) ==> TotalCov(errs[k := errs[k].(enabled := false)], axis, n) == TotalCov(errs, axis, n)
  {
    var d := errs[k].(enabled := false);
    var p, r := errs[..k], errs[k + 1..];
    assert errs == p + [errs[k]] + r;
    assert errs[k := d] == p + [d] + r;
    TotalCovSplice(p, errs[k], r, axis, n);
    assert AxisCovFits(p + [d] + r, axis, n) by {
      forall l | 0 <= l < |errs| && OnAxis((p + [d] + r)[l], axis)
        ensures IsMatrix((p + [d] + r)[l].err.parts.covMat, n, n)
      {
        assert l != k && (p + [d] + r)[l] == errs[l];
      }
    }
    TotalCovSplice(p, d, r, axis, n);
  }

  /**
   * In a table with distinct names, disabling by name is disabling the one
   * source at its position, so `DisableRemovesContribution` gives its effect
   * on the total covariance.
   */
  lemma DisableNamedIsUpdate(errs: seq<ErrorDict>, k: nat)
    requires TableInvariant(errs) && k < |errs|
    ensures DisableNamed(errs, errs[k].name) == errs[k := errs[k].(enabled := false)]
    ensures TableInvariant(DisableNamed(errs, errs[k].name))
  {
    var d := DisableNamed(errs, errs[k].name);
    forall l | 0 <= l < |errs|
      ensures d[l] == errs[k := errs[k].(enabled := false)][l]
    {
      if l != k {
        assert errs[l].name != errs[k].name;
      }
    }
  }

  // ---- properties of the data setter ---------------------------------------------------------

  /** A 2 x N array, N = 2 included, is stored as is: row `i` of the data is row `i` of the array. */
  lemma DataSetterKeepsRows(a: NdArray)
    requires a.WellFormed() && |a.shape| == 2 && a.shape[0] == 2
    ensures AsXYData(a).Ok? && |AsXYData(a).value[0]| == a.shape[1]
    ensures forall i, j :: 0 <= i < 2 && 0 <= j < a.shape[1] ==> AsXYData(a).value[i][j] == At2(a, i, j)
  {
    ProductOfTwo(a.shape);
    var c := a.shape[1];
    forall i, j | 0 <= i < 2 && 0 <= j < c
      ensures AsXYData(a).value[i][j] == At2(a, i, j)
    {
      if i == 1 {
        assert i * c + j == c + j;
      }
    }
  }

  /** An N x 2 array with N != 2 is stored transposed: column `j` of the array becomes row `j` of the data. */
  lemma DataSetterTransposes(a: NdArray)
    requires a.WellFormed() && |a.shape| == 2 && a.shape[0] != 2 && a.shape[1] == 2
    ensures AsXYData(a).Ok? && |AsXYData(a).value[0]| == a.shape[0]
    ensures forall i, j :: 0 <= i < a.shape[0] && 0 <= j < 2 ==> AsXYData(a).value[j][i] == At2(a, i, j)
  {
    ProductOfTwo(a.shape);
  }

  // ---- the caches, seen from a caller ------------------------------------------------------

  /** Two calls of `get_total_error` with nothing in between give the same cached object. */
  method RepeatedTotalErrorIsCached(c: XYContainer, axis: AxisSpec) returns (first: Result<TotalError, ContainerError>,
                                                                             second: Result<TotalError, ContainerError>)
    requires c.Valid()
    modifies c
    ensures c.Valid()
    ensures first.Ok? ==> second == first
  {
    first := c.GetTotalError(axis);
    second := c.GetTotalError(axis);
  }

  /** Two calls of `split_errors` with nothing in between give the same cached `(G, U)`. */
  method RepeatedSplitIsCached(c: XYContainer, axis: AxisSpec) returns (first: Result<SplitSystem, ContainerError>,
                                                                        second: Result<SplitSystem, ContainerError>)
    requires c.Valid()
    modifies c
    ensures c.Valid()
    ensures first.Ok? ==> second == first
  {
    first := c.SplitErrors(axis);
    second := c.SplitErrors(axis);
  }
}
