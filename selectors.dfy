/**
 * The pluggable function families of the Variogram and the name tables that
 * select them (`set_estimator`, `set_model`, `set_dist_function`,
 * `set_bin_func`).  Names are matched case-insensitively, after `lower()`.
 * The functions themselves (estimators, models, `nd_dist`) are identified
 * only; what they compute is not part of this model.
 */
module Selectors {
  import opened Common

  /** Per-bin aggregation functions; a custom one is known by its `__name__`. */
  datatype Estimator = Matheron | Cressie | Dowd | Genton | MinMax | Entropy | CustomEstimator(name: string)

  /** Theoretical variogram functions; a custom one is known by its `__name__`. */
  datatype Model = Spherical | Exponential | Gaussian | Cubic | Stable | Matern | CustomModel(name: string)

  /** Pairwise distance functions: `nd_dist` (selected as 'euclidean') or a callable. */
  datatype DistFunc = Euclidean | CustomDistance(name: string)

  /** Binning strategies. */
  datatype BinFunc = Even | Uniform

  /** An argument to set_estimator / set_model: a string, or anything else, stored as given. */
  datatype Arg<F> = ByName(name: string) | ByValue(f: F)

  /** An argument to set_dist_function: a string, a callable, or a value that is neither. */
  datatype DistArg = DistByName(name: string) | DistCallable(f: DistFunc) | DistOther

  /** ASCII lower-casing of one character. */
  function LowerChar(c: char): char
  {
    if 'A' <= c <= 'Z' then (c as int - 'A' as int + 'a' as int) as char else c
  }

  /** `str.lower()` on the ASCII range. */
  function Lower(s: string): (r: string)
    ensures |r| == |s|
  {
    if s == [] then [] else [LowerChar(s[0])] + Lower(s[1..])
  }

  /** Lower-casing character by character. */
  lemma {:induction false} LowerAt(s: string, k: nat)
    requires k < |s|
    ensures Lower(s)[k] == LowerChar(s[k])
  {
    if k > 0 {
      LowerAt(s[1..], k - 1);
    }
  }

  /** Lower-casing twice is lower-casing once. */
  lemma {:induction false} LowerIdempotent(s: string)
    ensures Lower(Lower(s)) == Lower(s)
  {
    if s != [] {
      LowerIdempotent(s[1..]);
    }
  }

  /** A string without upper-case letters is its own lower-case form. */
  lemma {:induction false} LowerOfLowerCase(s: string)
    requires forall k :: 0 <= k < |s| ==> !('A' <= s[k] <= 'Z')
    ensures Lower(s) == s
  {
    if s != [] {
      LowerOfLowerCase(s[1..]);
    }
  }

  /** The `__name__` of an estimator function. */
  function EstimatorName(e: Estimator): string
  {
    match e
    case Matheron => "matheron"
    case Cressie => "cressie"
    case Dowd => "dowd"
    case Genton => "genton"
    case MinMax => "minmax"
    case Entropy => "entropy"
    case CustomEstimator(n) => n
  }

  /** The lower-case names that select a built-in estimator ('h' is an alias of entropy). */
  function EstimatorAliases(e: Estimator): set<string>
  {
    match e
    case CustomEstimator(_) => {}
    case Entropy => {"entropy", "h"}
    case _ => {EstimatorName(e)}
  }

  /** The estimator name table of set_estimator. */
  function EstimatorByName(s: string): Option<Estimator>
  {
    var n := Lower(s);
    if n == "matheron" then Some(Matheron)
    else if n == "cressie" then Some(Cressie)
    else if n == "dowd" then Some(Dowd)
    else if n == "genton" then Some(Genton)
    else if n == "minmax" then Some(MinMax)
    else if n == "entropy" || n == "h" then Some(Entropy)
    else None
  }

  /** A name selects an estimator exactly when its lower-case form is one of that estimator's aliases. */
  lemma EstimatorByNameAliases(s: string, e: Estimator)
    ensures EstimatorByName(s) == Some(e) <==> Lower(s) in EstimatorAliases(e)
  {
  }

  /** A name selects nothing exactly when its lower-case form is no alias at all. */
  lemma EstimatorByNameUnknown(s: string)
    ensures EstimatorByName(s).None? <==>
      Lower(s) !in {"matheron", "cressie", "dowd", "genton", "minmax", "entropy", "h"}
  {
  }

  /** The table is case-insensitive: a name and its lower-case form select the same estimator. */
  lemma EstimatorByNameIgnoresCase(s: string)
    ensures EstimatorByName(s) == EstimatorByName(Lower(s))
  {
    LowerIdempotent(s);
  }

  /** Every built-in estimator is selected by its own function name. */
  lemma EstimatorByOwnName(e: Estimator)
    requires !e.CustomEstimator?
    ensures EstimatorByName(EstimatorName(e)) == Some(e)
  {
    var n := EstimatorName(e);
    assert Lower(n) == n by {
      match e
      case Matheron => LowerOfLowerCase("matheron");
      case Cressie => LowerOfLowerCase("cressie");
      case Dowd => LowerOfLowerCase("dowd");
      case Genton => LowerOfLowerCase("genton");
      case MinMax => LowerOfLowerCase("minmax");
      case Entropy => LowerOfLowerCase("entropy");
    }
    EstimatorByNameAliases(n, e);
  }

  /** set_estimator's decision: a known name, an unknown name (raises), or a value stored unchanged. */
  function SelectEstimator(arg: Arg<Estimator>): (r: Result<Estimator>)
    ensures arg.ByValue? ==> r == Success(arg.f)
    ensures arg.ByName? ==> (r.Failure? <==> EstimatorByName(arg.name).None?)
    ensures r.Failure? ==> r.error == UnknownEstimator(arg.name)
    ensures arg.ByName? && r.Success? ==> Lower(arg.name) in EstimatorAliases(r.value)
  {
    match arg
    case ByValue(f) => Success(f)
    case ByName(s) =>
      match EstimatorByName(s)
      case Some(e) => Success(e)
      case None => Failure(UnknownEstimator(s))
  }

  /** The `__name__` of a model function. */
  function ModelName(m: Model): string
  {
    match m
    case Spherical => "spherical"
    case Exponential => "exponential"
    case Gaussian => "gaussian"
    case Cubic => "cubic"
    case Stable => "stable"
    case Matern => "matern"
    case CustomModel(n) => n
  }

  /** The model name table of set_model. */
  function ModelByName(s: string): Option<Model>
  {
    var n := Lower(s);
    if n == "spherical" then Some(Spherical)
    else if n == "exponential" then Some(Exponential)
    else if n == "gaussian" then Some(Gaussian)
    else if n == "cubic" then Some(Cubic)
    else if n == "stable" then Some(Stable)
    else if n == "matern" then Some(Matern)
    else None
  }

  /** A name selects a model exactly when its lower-case form is that model's function name. */
  lemma ModelByNameSound(s: string, m: Model)
    requires !m.CustomModel?
    ensures ModelByName(s) == Some(m) <==> Lower(s) == ModelName(m)
  {
  }

  /** A name selects nothing exactly when its lower-case form names no built-in model. */
  lemma ModelByNameUnknown(s: string)
    ensures ModelByName(s).None? <==>
      Lower(s) !in {"spherical", "exponential", "gaussian", "cubic", "stable", "matern"}
  {
  }

  /** The table is case-insensitive. */
  lemma ModelByNameIgnoresCase(s: string)
    ensures ModelByName(s) == ModelByName(Lower(s))
  {
    LowerIdempotent(s);
  }

  /** Every built-in model is selected by its own function name. */
  lemma ModelByOwnName(m: Model)
    requires !m.CustomModel?
    ensures ModelByName(ModelName(m)) == Some(m)
  {
    var n := ModelName(m);
    assert Lower(n) == n by {
      match m
      case Spherical => LowerOfLowerCase("spherical");
      case Exponential => LowerOfLowerCase("exponential");
      case Gaussian => LowerOfLowerCase("gaussian");
      case Cubic => LowerOfLowerCase("cubic");
      case Stable => LowerOfLowerCase("stable");
      case Matern => LowerOfLowerCase("matern");
    }
    ModelByNameSound(n, m);
  }

  /** set_model's decision: a known name, an unknown name (raises), or a value stored unchanged. */
  function SelectModel(arg: Arg<Model>): (r: Result<Model>)
    ensures arg.ByValue? ==> r == Success(arg.f)
    ensures arg.ByName? ==> (r.Failure? <==> ModelByName(arg.name).None?)
    ensures r.Failure? ==> r.error == UnknownModel(arg.name)
    ensures arg.ByName? && r.Success? ==> Lower(arg.name) == ModelName(r.value)
  {
    match arg
    case ByValue(f) => Success(f)
    case ByName(s) =>
      match ModelByName(s)
      case Some(m) => Success(m)
      case None => Failure(UnknownModel(s))
  }

  /** set_dist_function's decision: 'euclidean' selects nd_dist, a callable is stored, anything else raises. */
  function SelectDistFunc(arg: DistArg): (r: Result<DistFunc>)
    ensures arg.DistByName? ==> (r.Success? <==> Lower(arg.name) == "euclidean")
    ensures arg.DistByName? && r.Success? ==> r.value == Euclidean
    ensures arg.DistByName? && r.Failure? ==> r.error == UnknownDistance(arg.name)
    ensures arg.DistCallable? ==> r == Success(arg.f)
    ensures arg.DistOther? ==> r == Failure(NotCallable)
  {
    match arg
    case DistByName(s) => if Lower(s) == "euclidean" then Success(Euclidean) else Failure(UnknownDistance(s))
    case DistCallable(f) => Success(f)
    case DistOther => Failure(NotCallable)
  }

  /** The name 'euclidean' selects nd_dist. */
  lemma EuclideanByName()
    ensures SelectDistFunc(DistByName("euclidean")) == Success(Euclidean)
  {
    LowerOfLowerCase("euclidean");
  }

  /** set_bin_func's decision: 'even' or 'uniform', case-insensitively, else raises. */
  function SelectBinFunc(name: string): (r: Result<BinFunc>)
    ensures r.Success? <==> Lower(name) in {"even", "uniform"}
    ensures r == Success(Even) <==> Lower(name) == "even"
    ensures r.Failure? ==> r.error == UnknownBinning(name)
  {
    var n := Lower(name);
    if n == "even" then Success(Even)
    else if n == "uniform" then Success(Uniform)
    else Failure(UnknownBinning(name))
  }

  /** The name 'even' selects even binning. */
  lemma EvenByName()
    ensures SelectBinFunc("even") == Success(Even)
  {
    LowerOfLowerCase("even");
  }

  /**
   * set_bin_func as written: it validates the name but never assigns
   * `_bin_func`, so the stored strategy (and the `bin_func` getter) stays
   * what it was, which after construction is None.
   */
  function StoredBinFuncAsWritten(stored: Option<BinFunc>, name: string): (r: Result<Option<BinFunc>>)
    ensures r.Success? <==> SelectBinFunc(name).Success?
    ensures r.Success? ==> r.value == stored
  {
    match SelectBinFunc(name)
    case Success(_) => Success(stored)
    case Failure(e) => Failure(e)
  }

  /** Selecting 'uniform' after construction: the code as written still reports None. */
  lemma AsWrittenBinFuncForgotten()
    ensures StoredBinFuncAsWritten(None, "uniform") == Success(None)
    ensures SelectBinFunc("uniform") == Success(Uniform)
  {
    LowerOfLowerCase("uniform");
  }
}
