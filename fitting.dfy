/**
 * Preparation of the model fit: removal of NaN experimental values, the
 * model-dependent parameter bounds (`__get_fit_bounds`), and the ordered
 * parameter list read back from a fitted description (`parameters`).
 * NaN is None throughout; the optimiser itself is not part of this model.
 */
module Fitting {
  import opened Common

  /** `~np.isnan(y)`: true where y holds a number. */
  function NotNaN(y: seq<Option<real>>): seq<bool>
  {
    seq(|y|, k requires 0 <= k < |y| => y[k].Some?)
  }

  /**
   * The positions where the mask is true, in increasing order.  They are
   * in range, strictly increasing, and select only true positions.
   */
  function KeptIndices(mask: seq<bool>): (r: seq<nat>)
    ensures forall m :: 0 <= m < |r| ==> r[m] < |mask| && mask[r[m]]
    ensures forall m, m' :: 0 <= m < m' < |r| ==> r[m] < r[m']
  {
    if mask == [] then []
    else KeptIndices(mask[..|mask| - 1]) + (if mask[|mask| - 1] then [|mask| - 1] else [])
  }

  /** Every true position of the mask is kept. */
  lemma {:induction false} KeptIndicesComplete(mask: seq<bool>, k: nat)
    requires k < |mask| && mask[k]
    ensures k in KeptIndices(mask)
  {
    if k < |mask| - 1 {
      KeptIndicesComplete(mask[..|mask| - 1], k);
    }
  }

  /** Boolean-mask indexing `s[mask]`: the elements at true positions, in order. */
  function Keep<T>(s: seq<T>, mask: seq<bool>): seq<T>
    requires |s| == |mask|
  {
    if s == [] then []
    else Keep(s[..|s| - 1], mask[..|s| - 1]) + (if mask[|s| - 1] then [s[|s| - 1]] else [])
  }

  /** The m-th kept element is the element at the m-th kept position. */
  lemma {:induction false} KeepAt<T>(s: seq<T>, mask: seq<bool>)
    requires |s| == |mask|
    ensures |Keep(s, mask)| == |KeptIndices(mask)|
    ensures forall m :: 0 <= m < |Keep(s, mask)| ==> Keep(s, mask)[m] == s[KeptIndices(mask)[m]]
  {
    if s != [] {
      KeepAt(s[..|s| - 1], mask[..|s| - 1]);
    }
  }

  /**
   * The NaN filter of `fit`: `x[~np.isnan(y)]` and `y[~np.isnan(y)]`.
   * numpy rejects a mask whose length differs from x.
   */
  function DropMissing(x: seq<Option<real>>, y: seq<Option<real>>): (r: Result<(seq<Option<real>>, seq<Option<real>>)>)
    ensures r.Failure? <==> |x| != |y|
    ensures r.Failure? ==> r.error == MaskMismatch
  {
    if |x| != |y| then Failure(MaskMismatch)
    else Success((Keep(x, NotNaN(y)), Keep(y, NotNaN(y))))
  }

  /**
   * The filtered arrays have equal length, hold no NaN y, and keep exactly
   * the positions whose y is a number, in their original order, x and y
   * side by side.
   */
  lemma DropMissingAligned(x: seq<Option<real>>, y: seq<Option<real>>)
    requires |x| == |y|
    ensures var (fx, fy) := DropMissing(x, y).value;
      var idx := KeptIndices(NotNaN(y));
      && |fx| == |fy| == |idx|
      && (forall m :: 0 <= m < |fy| ==> fy[m].Some?)
      && (forall m :: 0 <= m < |idx| ==> fx[m] == x[idx[m]] && fy[m] == y[idx[m]])
      && (forall k :: 0 <= k < |y| ==> (k in idx <==> y[k].Some?))
      && (forall m, m' :: 0 <= m < m' < |idx| ==> idx[m] < idx[m'])
  {
    var mask := NotNaN(y);
    KeepAt(x, mask);
    KeepAt(y, mask);
    forall k | 0 <= k < |y| && y[k].Some?
      ensures k in KeptIndices(mask)
    {
      KeptIndicesComplete(mask, k);
    }
  }

  /** The largest number in s ignoring NaN; None when s holds no number. */
  function MaxPresent(s: seq<Option<real>>): (r: Option<real>)
    ensures r.None? <==> forall k :: 0 <= k < |s| ==> s[k].None?
    ensures r.Some? ==> r in s
    ensures r.Some? ==> forall k :: 0 <= k < |s| && s[k].Some? ==> s[k].value <= r.value
  {
    if s == [] then None
    else
      var rest := MaxPresent(s[..|s| - 1]);
      var last := s[|s| - 1];
      assert s == s[..|s| - 1] + [last];
      if last.None? then rest
      else if rest.None? || rest.value < last.value then last
      else rest
  }

  /** `np.nanmax`: raises on an empty array, NaN when every entry is NaN. */
  function NanMax(s: seq<Option<real>>): (r: Result<Option<real>>)
    ensures r.Failure? <==> s == []
    ensures r.Failure? ==> r.error == EmptyReduction
    ensures r.Success? ==> r.value == MaxPresent(s)
  {
    if s == [] then Failure(EmptyReduction) else Success(MaxPresent(s))
  }

  /**
   * The number of fitted parameters: range, sill and smoothness (matern) or
   * shape (stable); only one for the 'nugget' model; range and sill for
   * every other name; one more when the nugget is used.
   */
  function ParameterCount(modelName: string, useNugget: bool): nat
  {
    (if modelName == "matern" || modelName == "stable" then 3
     else if modelName == "nugget" then 1
     else 2)
    + (if useNugget then 1 else 0)
  }

  /**
   * What the bound vector of a fit holds, slot by slot: the first bound is
   * the largest lag, the second the largest experimental value (except for
   * the 'nugget' model), the smoothness bound 20 (matern), the shape bound
   * 2 (stable), and the nugget bound 0.99 last when the nugget is used.
   */
  ghost predicate IsFitBounds(b: seq<Option<real>>, modelName: string, useNugget: bool,
                              x: seq<Option<real>>, y: seq<Option<real>>)
  {
    && |b| == ParameterCount(modelName, useNugget)
    && b[0] == MaxPresent(x)
    && (modelName != "nugget" ==> b[1] == MaxPresent(y))
    && (modelName == "matern" ==> b[2] == Some(20.0))
    && (modelName == "stable" ==> b[2] == Some(2.0))
    && (useNugget ==> b[|b| - 1] == Some(0.99))
  }

  /** IsFitBounds fixes every slot: at most one vector meets it. */
  lemma FitBoundsUnique(b: seq<Option<real>>, b': seq<Option<real>>, modelName: string, useNugget: bool,
                        x: seq<Option<real>>, y: seq<Option<real>>)
    requires IsFitBounds(b, modelName, useNugget, x, y)
    requires IsFitBounds(b', modelName, useNugget, x, y)
    ensures b == b'
  {
    forall k | 0 <= k < |b|
      ensures b[k] == b'[k]
    {
      if k == 0 || (k == 1 && modelName != "nugget") || (k == 2 && (modelName == "matern" || modelName == "stable")) {
      } else {
        assert useNugget && k == |b| - 1;
      }
    }
  }

  /**
   * `__get_fit_bounds`: builds the bound list for the model name from the
   * unfiltered lags and experimental values, then appends 0.99 when the
   * nugget is used.  `np.nanmax` raises on an empty array.
   */
  method FitBounds(modelName: string, useNugget: bool, x: seq<Option<real>>, y: seq<Option<real>>)
    returns (r: Result<seq<Option<real>>>)
    ensures r.Failure? <==> x == [] || (modelName != "nugget" && y == [])
    ensures r.Failure? ==> r.error == EmptyReduction
    ensures r.Success? ==> IsFitBounds(r.value, modelName, useNugget, x, y)
  {
    var bounds: seq<Option<real>>;
    var maxX := NanMax(x);
    if maxX.Failure? {
      return Failure(maxX.error);
    }
    if modelName == "nugget" {
      bounds := [maxX.value];
    } else {
      var maxY := NanMax(y);
      if maxY.Failure? {
        return Failure(maxY.error);
      }
      if modelName == "matern" {
        bounds := [maxX.value, maxY.value, Some(20.0)];
      } else if modelName == "stable" {
        bounds := [maxX.value, maxY.value, Some(2.0)];
      } else {
        bounds := [maxX.value, maxY.value];
      }
    }
    if useNugget {
      bounds := bounds + [Some(0.99)];
    }
    return Success(bounds);
  }

  /** An entry of the description dictionary: a name or a number. */
  datatype Entry = Text(text: string) | Number(number: real)

  /** The dictionary returned by `describe`. */
  type Description = map<string, Entry>

  /**
   * Reads the keys in order, as a Python list display does; the first
   * missing key raises a KeyError.
   */
  function Lookup(d: Description, keys: seq<string>): (r: Result<seq<Option<Entry>>>)
    ensures r.Success? <==> forall k :: 0 <= k < |keys| ==> keys[k] in d
    ensures r.Success? ==> |r.value| == |keys|
    ensures r.Success? ==> forall k :: 0 <= k < |keys| ==> r.value[k] == Some(d[keys[k]])
    ensures r.Failure? ==> exists k :: 0 <= k < |keys| && r.error == KeyError(keys[k]) && keys[k] !in d
                                       && forall k' :: 0 <= k' < k ==> keys[k'] in d
  {
    if keys == [] then Success([])
    else if keys[0] !in d then Failure(KeyError(keys[0]))
    else
      match Lookup(d, keys[1..])
      case Success(rest) => Success([Some(d[keys[0]])] + rest)
      case Failure(e) => Failure(e)
  }

  /** The keys `parameters` reads for each model name, in list order. */
  function ParameterKeys(modelName: string): seq<string>
  {
    if modelName == "matern" then ["range", "sill", "smoothness", "nugget"]
    else if modelName == "stable" then ["range", "sill", "shape", "nugget"]
    else if modelName == "nugget" then ["nugget"]
    else ["range", "sill", "nugget"]
  }

  /**
   * `parameters`: three Nones for a description that reports an error,
   * otherwise the entries range, sill, the shape or smoothness where the
   * model has one, and the nugget last ('nugget' model: the nugget only).
   */
  function Parameters(modelName: string, d: Description): (r: Result<seq<Option<Entry>>>)
    ensures "error" in d ==> r == Success([None, None, None])
    ensures r.Failure? ==> "error" !in d && r.error.KeyError? && r.error.key !in d
    ensures "error" !in d && r.Success? ==>
      && |r.value| == (if modelName == "nugget" then 1 else ParameterCount(modelName, true))
      && "nugget" in d && r.value[|r.value| - 1] == Some(d["nugget"])
      && (modelName != "nugget" ==>
            "range" in d && r.value[0] == Some(d["range"]) && "sill" in d && r.value[1] == Some(d["sill"]))
      && (modelName == "matern" ==> "smoothness" in d && r.value[2] == Some(d["smoothness"]))
      && (modelName == "stable" ==> "shape" in d && r.value[2] == Some(d["shape"]))
  {
    if "error" in d then Success([None, None, None])
    else
      var keys := ParameterKeys(modelName);
      var r := Lookup(d, keys);
      assert r.Success? ==> keys[0] in d && keys[|keys| - 1] in d;
      assert r.Success? && |keys| > 2 ==> keys[1] in d && keys[2] in d;
      r
  }

  /** A description holding every key of its model never raises, and the list holds numbers only. */
  lemma ParametersComplete(modelName: string, d: Description)
    requires "error" !in d
    requires forall key :: key in ParameterKeys(modelName) ==> key in d && d[key].Number?
    ensures Parameters(modelName, d).Success?
    ensures forall k :: 0 <= k < |Parameters(modelName, d).value| ==>
      Parameters(modelName, d).value[k].Some? && Parameters(modelName, d).value[k].value.Number?
  {
    var keys := ParameterKeys(modelName);
    assert forall k :: 0 <= k < |keys| ==> keys[k] in keys;
  }
}
