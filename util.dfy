/**
 * The helpers of kafe2/fit/util/__init__.py: `string_join_if` (which builds
 * every node name of the fit graph), `add_in_quadrature` and `collect`.
 */
module Util {
  import opened Wrappers

  /** One element of the tuple handed to `string_join_if`: a string or `None`. */
  type Piece = Option<string>

  /** Python truthiness of a piece, the default `condition`: `None` and `''` are falsy. */
  predicate Truthy(p: Piece) {
    p.Some? && p.value != ""
  }

  /** The pieces that pass `cond`, in their original order (the generator inside `join`). */
  function Kept(pieces: seq<Piece>, cond: Piece -> bool): seq<Piece> {
    if pieces == [] then []
    else (if cond(pieces[0]) then [pieces[0]] else []) + Kept(pieces[1..], cond)
  }

  /** `delim.join(strings)`: the strings separated by exactly one `delim` each. */
  function Join(strings: seq<string>, delim: string): string {
    if strings == [] then ""
    else if |strings| == 1 then strings[0]
    else strings[0] + delim + Join(strings[1..], delim)
  }

  /** The strings carried by pieces that are all `Some`. */
  function Strings(pieces: seq<Piece>): (r: seq<string>)
    requires forall k :: 0 <= k < |pieces| ==> pieces[k].Some?
    ensures |r| == |pieces|
    ensures forall k :: 0 <= k < |pieces| ==> r[k] == pieces[k].value
  {
    if pieces == [] then [] else [pieces[0].value] + Strings(pieces[1..])
  }

  predicate AllStrings(pieces: seq<Piece>) {
    forall k :: 0 <= k < |pieces| ==> pieces[k].Some?
  }

  /**
   * `string_join_if(pieces, delim, condition)`. `join` raises `TypeError`
   * (modelled as `None`) when a piece that passes `cond` is not a string.
   */
  function StringJoinIf(pieces: seq<Piece>, delim: string, cond: Piece -> bool): (r: Option<string>)
    ensures r.Some? <==> AllStrings(Kept(pieces, cond))
    ensures r.Some? ==> r.value == Join(Strings(Kept(pieces, cond)), delim)
  {
    var kept := Kept(pieces, cond);
    if AllStrings(kept) then Some(Join(Strings(kept), delim)) else None
  }

  /** The strings of the truthy pieces, in order. */
  function TruthyStrings(pieces: seq<Piece>): seq<string> {
    if pieces == [] then []
    else (if Truthy(pieces[0]) then [pieces[0].value] else []) + TruthyStrings(pieces[1..])
  }

  /**
   * A node name: the truthy pieces joined by `_`, which is what
   * `string_join_if(pieces)` returns with the default delimiter and
   * condition (`NodeNameIsStringJoinIf`).
   */
  function NodeName(pieces: seq<Piece>): string {
    Join(TruthyStrings(pieces), "_")
  }

  // ---- properties of Kept --------------------------------------------------

  /** Every piece that passes `cond` is kept, as often as it occurs; no other piece is. */
  lemma {:induction false} KeptExactly(pieces: seq<Piece>, cond: Piece -> bool, p: Piece)
    ensures multiset(Kept(pieces, cond))[p] == if cond(p) then multiset(pieces)[p] else 0
  {
    if pieces != [] {
      KeptExactly(pieces[1..], cond, p);
      assert pieces == [pieces[0]] + pieces[1..];
    }
  }

  /** Keeping commutes with concatenation, so kept pieces stay in their original order. */
  lemma {:induction false} KeptConcat(a: seq<Piece>, b: seq<Piece>, cond: Piece -> bool)
    ensures Kept(a + b, cond) == Kept(a, cond) + Kept(b, cond)
  {
    if a == [] {
      assert a + b == b;
    } else {
      var head: seq<Piece> := if cond(a[0]) then [a[0]] else [];
      assert (a + b)[0] == a[0];
      assert (a + b)[1..] == a[1..] + b;
      KeptConcat(a[1..], b, cond);
      assert Kept(a + b, cond) == head + Kept(a[1..] + b, cond);
      assert Kept(a, cond) == head + Kept(a[1..], cond);
    }
  }

  /** With the default condition every kept piece is a (non-empty) string, so `join` never raises. */
  lemma {:induction false} KeptTruthyAreStrings(pieces: seq<Piece>)
    ensures forall k :: 0 <= k < |Kept(pieces, Truthy)| ==>
      Kept(pieces, Truthy)[k].Some? && Kept(pieces, Truthy)[k].value != ""
  {
    if pieces != [] {
      KeptTruthyAreStrings(pieces[1..]);
      var head: seq<Piece> := if Truthy(pieces[0]) then [pieces[0]] else [];
      assert Kept(pieces, Truthy) == head + Kept(pieces[1..], Truthy);
      forall k | 0 <= k < |Kept(pieces, Truthy)|
        ensures Kept(pieces, Truthy)[k].Some? && Kept(pieces, Truthy)[k].value != ""
      {
        if k >= |head| {
          assert Kept(pieces, Truthy)[k] == Kept(pieces[1..], Truthy)[k - |head|];
        }
      }
    }
  }

  /** The truthy strings are the strings of the pieces `Kept` with `Truthy`. */
  lemma {:induction false} TruthyStringsAreKept(pieces: seq<Piece>)
    ensures AllStrings(Kept(pieces, Truthy))
    ensures TruthyStrings(pieces) == Strings(Kept(pieces, Truthy))
  {
    KeptTruthyAreStrings(pieces);
    if pieces != [] {
      TruthyStringsAreKept(pieces[1..]);
      var head: seq<Piece> := if Truthy(pieces[0]) then [pieces[0]] else [];
      var kept := Kept(pieces, Truthy);
      var rest := Kept(pieces[1..], Truthy);
      assert kept == head + rest;
      var strs := Strings(kept);
      var wanted := (if Truthy(pieces[0]) then [pieces[0].value] else []) + Strings(rest);
      assert |strs| == |wanted|;
      forall k | 0 <= k < |strs|
        ensures strs[k] == wanted[k]
      {
        if k >= |head| {
          assert kept[k] == rest[k - |head|];
        }
      }
    }
  }

  /** With the default delimiter and condition `string_join_if` never raises and returns the node name. */
  lemma NodeNameIsStringJoinIf(pieces: seq<Piece>)
    ensures StringJoinIf(pieces, "_", Truthy) == Some(NodeName(pieces))
  {
    TruthyStringsAreKept(pieces);
  }

  // ---- properties of string_join_if -----------------------------------------

  /** If no piece passes, the result is the empty string. */
  lemma JoinIfNonePass(pieces: seq<Piece>, delim: string, cond: Piece -> bool)
    requires forall k :: 0 <= k < |pieces| ==> !cond(pieces[k])
    ensures StringJoinIf(pieces, delim, cond) == Some("")
  {
    NothingKept(pieces, cond);
  }

  lemma {:induction false} NothingKept(pieces: seq<Piece>, cond: Piece -> bool)
    requires forall k :: 0 <= k < |pieces| ==> !cond(pieces[k])
    ensures Kept(pieces, cond) == []
  {
    if pieces != [] {
      NothingKept(pieces[1..], cond);
    }
  }

  /** If exactly one piece passes and it is a string, the result is that piece. */
  lemma JoinIfOnePasses(pieces: seq<Piece>, delim: string, cond: Piece -> bool, i: nat, s: string)
    requires i < |pieces| && pieces[i] == Some(s) && cond(pieces[i])
    requires forall k :: 0 <= k < |pieces| && k != i ==> !cond(pieces[k])
    ensures StringJoinIf(pieces, delim, cond) == Some(s)
  {
    assert pieces == pieces[..i] + [pieces[i]] + pieces[i + 1..];
    KeptConcat(pieces[..i] + [pieces[i]], pieces[i + 1..], cond);
    KeptConcat(pieces[..i], [pieces[i]], cond);
    NothingKept(pieces[..i], cond);
    NothingKept(pieces[i + 1..], cond);
    assert [pieces[i]][1..] == [];
  }

  /** `string_join_if((None, 'data', None))` is `'data'`. */
  lemma JoinIfDropsNone()
    ensures NodeName([None, Some("data"), None]) == "data"
  {
    JoinIfOnePasses([None, Some("data"), None], "_", Truthy, 1, "data");
    NodeNameIsStringJoinIf([None, Some("data"), None]);
  }

  // ---- the inverse of join: splitting at a one-character delimiter --------------

  /** `s.split(d)` for a single character `d`. */
  function Split(s: string, d: char): (r: seq<string>)
    ensures |r| >= 1
  {
    if s == [] then [""]
    else if s[0] == d then [""] + Split(s[1..], d)
    else var rest := Split(s[1..], d); [[s[0]] + rest[0]] + rest[1..]
  }

  lemma {:induction false} SplitNoDelim(s: string, d: char)
    requires d !in s
    ensures Split(s, d) == [s]
  {
    if s != [] {
      SplitNoDelim(s[1..], d);
      assert [s[0]] + s[1..] == s;
    }
  }

  lemma {:induction false} SplitAtDelim(a: string, d: char, b: string)
    requires d !in a
    ensures Split(a + [d] + b, d) == [a] + Split(b, d)
  {
    if a == [] {
      assert a + [d] + b == [d] + b;
      assert ([d] + b)[1..] == b;
    } else {
      assert (a + [d] + b)[1..] == a[1..] + [d] + b;
      SplitAtDelim(a[1..], d, b);
      assert [a[0]] + a[1..] == a;
    }
  }

  /**
   * Splitting a join at its one-character delimiter gives back the joined
   * strings, provided none of them contains the delimiter.
   */
  lemma {:induction false} SplitJoinRoundTrip(strings: seq<string>, d: char)
    requires |strings| >= 1
    requires forall k :: 0 <= k < |strings| ==> d !in strings[k]
    ensures Split(Join(strings, [d]), d) == strings
  {
    if |strings| == 1 {
      SplitNoDelim(strings[0], d);
    } else {
      SplitJoinRoundTrip(strings[1..], d);
      SplitAtDelim(strings[0], d, Join(strings[1..], [d]));
      assert strings == [strings[0]] + strings[1..];
    }
  }

  /**
   * The pieces that pass are recovered from the result of `string_join_if`
   * by splitting at a one-character delimiter they do not contain.
   */
  lemma StringJoinIfRoundTrip(pieces: seq<Piece>, d: char, cond: Piece -> bool)
    requires |Kept(pieces, cond)| >= 1 && AllStrings(Kept(pieces, cond))
    requires forall k :: 0 <= k < |Kept(pieces, cond)| ==> d !in Kept(pieces, cond)[k].value
    ensures StringJoinIf(pieces, [d], cond).Some?
    ensures Split(StringJoinIf(pieces, [d], cond).value, d) == Strings(Kept(pieces, cond))
  {
    SplitJoinRoundTrip(Strings(Kept(pieces, cond)), d);
  }

  // ---- add_in_quadrature -------------------------------------------------------

  /** Sum over the arguments of the square of their `i`-th entry. */
  function SumOfSquares(args: seq<seq<real>>, i: nat): (r: real)
    requires forall a :: 0 <= a < |args| ==> i < |args[a]|
    ensures r >= 0.0
  {
    if args == [] then 0.0
    else
      var last := args[|args| - 1][i];
      SumOfSquares(args[..|args| - 1], i) + last * last
  }

  /** `sqrt` is a square root on the non-negative reals (`np.sqrt`, a library call). */
  ghost predicate IsSquareRoot(sqrt: real -> real) {
    forall x: real :: 0.0 <= x ==> 0.0 <= sqrt(x) && sqrt(x) * sqrt(x) == x
  }

  /**
   * `add_in_quadrature(*args)` over `n`-point arguments: elementwise, the
   * non-negative root of the sum of squares.
   */
  function AddInQuadrature(args: seq<seq<real>>, n: nat, sqrt: real -> real): (r: seq<real>)
    requires forall a :: 0 <= a < |args| ==> |args[a]| == n
    requires IsSquareRoot(sqrt)
    ensures |r| == n
    ensures forall i :: 0 <= i < n ==> 0.0 <= r[i] && r[i] * r[i] == SumOfSquares(args, i)
  {
    var r := seq(n, i requires 0 <= i < n => sqrt(SumOfSquares(args, i)));
    assert forall i :: 0 <= i < n ==> r[i] == sqrt(SumOfSquares(args, i));
    r
  }

  lemma {:induction false} SumOfSquaresDominates(args: seq<seq<real>>, i: nat, a: nat)
    requires forall b :: 0 <= b < |args| ==> i < |args[b]|
    requires a < |args|
    ensures args[a][i] * args[a][i] <= SumOfSquares(args, i)
  {
    var init := args[..|args| - 1];
    var last := args[|args| - 1][i];
    assert SumOfSquares(args, i) == SumOfSquares(init, i) + last * last;
    if a < |args| - 1 {
      SumOfSquaresDominates(init, i, a);
      assert init[a] == args[a];
      assert last * last >= 0.0;
    } else {
      assert SumOfSquares(init, i) >= 0.0;
    }
  }

  /** Each entry of the quadrature sum is at least the magnitude of every argument's entry. */
  lemma AddInQuadratureDominates(args: seq<seq<real>>, n: nat, sqrt: real -> real, a: nat, i: nat)
    requires forall b :: 0 <= b < |args| ==> |args[b]| == n
    requires IsSquareRoot(sqrt)
    requires a < |args| && i < n
    ensures AddInQuadrature(args, n, sqrt)[i] >= args[a][i]
    ensures AddInQuadrature(args, n, sqrt)[i] >= -args[a][i]
  {
    var r := AddInQuadrature(args, n, sqrt)[i];
    SumOfSquaresDominates(args, i, a);
    RootDominates(r, args[a][i]);
  }

  /** A non-negative `r` whose square is at least `x * x` is at least `|x|`. */
  lemma RootDominates(r: real, x: real)
    requires 0.0 <= r && x * x <= r * r
    ensures r >= x && r >= -x
  {
    RootAtLeast(r, x);
    assert (-x) * (-x) == x * x;
    RootAtLeast(r, -x);
  }

  lemma RootAtLeast(r: real, y: real)
    requires 0.0 <= r && y * y <= r * r
    ensures r >= y
  {
    if y > 0.0 {
      var d := r * r - y * y;
      assert (r - y) * (r + y) == d;
      assert r - y == d / (r + y);
    }
  }

  // ---- collect ---------------------------------------------------------------

  /** `collect(*args)`: the arguments, in order, as one array. */
  function Collect<T>(args: seq<T>): (r: seq<T>)
    ensures |r| == |args|
    ensures forall i :: 0 <= i < |args| ==> r[i] == args[i]
  {
    args
  }
}
