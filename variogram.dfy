/**
 * The Variogram object: sample coordinates and values, the selected
 * estimator, model, distance function and binning strategy, and the cached
 * derived arrays (distances, differences, bins, groups), each either present
 * or cleared.  Setters update the fields in place and raise on bad input.
 */
module Variograms {
  import opened Common
  import opened Selectors
  import opened Pairs
  import opened MaxLag
  import opened Fitting

  /** The constructor's keyword arguments that go through a setter or are stored. */
  datatype Config = Config(
    estimator: Arg<Estimator>,
    model: Arg<Model>,
    distFunc: DistArg,
    binFunc: string,
    normalize: bool,
    fitMethod: string,
    useNugget: bool,
    maxlag: Option<real>,
    lags: int,
    harmonize: bool)

  /** The constructor's defaults. */
  const DefaultConfig := Config(ByValue(Matheron), ByValue(Spherical), DistByName("euclidean"), "even",
                                true, "lm", false, None, 10, false)

  /** The inputs `fit` hands to the optimiser: filtered data, initial guess and bounds (0, upper). */
  datatype FitProblem = FitProblem(
    model: Model,
    x: seq<Option<real>>,
    y: seq<Option<real>>,
    p0: seq<Option<real>>,
    lower: real,
    upper: seq<Option<real>>)

  /** The setter's outcome for a selection. */
  function AsOutcome<R>(r: Result<R>): (o: Outcome)
    ensures o.Pass? <==> r.Success?
    ensures o.Fail? ==> o.error == r.error
  {
    match r
    case Success(_) => Pass
    case Failure(e) => Fail(e)
  }

  /**
   * The selections the constructor makes, in its order: distance function,
   * estimator, model, binning strategy; the first that raises decides the error.
   */
  function Selections(config: Config): (r: Result<(DistFunc, Estimator, Model, BinFunc)>)
    ensures r.Success? <==>
      && SelectDistFunc(config.distFunc).Success? && SelectEstimator(config.estimator).Success?
      && SelectModel(config.model).Success? && SelectBinFunc(config.binFunc).Success?
  {
    var df :- SelectDistFunc(config.distFunc);
    var est :- SelectEstimator(config.estimator);
    var mdl :- SelectModel(config.model);
    var bf :- SelectBinFunc(config.binFunc);
    Success((df, est, mdl, bf))
  }

  /** The four selections' results determine the constructor's selections. */
  lemma SelectionsOf(config: Config, df: DistFunc, est: Estimator, mdl: Model, bf: BinFunc)
    requires SelectDistFunc(config.distFunc) == Success(df)
    requires SelectEstimator(config.estimator) == Success(est)
    requires SelectModel(config.model) == Success(mdl)
    requires SelectBinFunc(config.binFunc) == Success(bf)
    ensures Selections(config) == Success((df, est, mdl, bf))
  {
  }

  /** The constructor's default arguments pass every selection. */
  lemma DefaultSelectionsSucceed()
    ensures Selections(DefaultConfig).Success?
    ensures Selections(DefaultConfig).value == (Euclidean, Matheron, Spherical, Even)
  {
    var config := DefaultConfig;
    assert config.distFunc == DistByName("euclidean") && config.binFunc == "even";
    assert config.estimator == ByValue(Matheron) && config.model == ByValue(Spherical);
    EuclideanByName();
    EvenByName();
    SelectionsOf(config, Euclidean, Matheron, Spherical, Even);
  }

  class Variogram {
    var coordinates: seq<seq<real>>     // _X
    var values: seq<real>               // _values
    var lags: int
    var maxlag: Option<real>            // _maxlag
    var distFunc: DistFunc              // _dist_func
    var estimator: Estimator            // _estimator
    var model: Model                    // _model
    var binFunc: Option<BinFunc>        // _bin_func
    var normalized: bool
    var harmonize: bool
    var fitMethod: string
    var useNugget: bool
    var dist: Option<seq<real>>         // _dist: cached distances, None when cleared
    var diff: Option<seq<real>>         // _diff: cached pairwise differences
    var bins: Option<seq<real>>         // _bins: cached bin edges
    var groups: Option<seq<int>>        // _groups: cached bin assignment per pair

    /**
     * One value per coordinate, and a present difference array is the
     * absolute difference of the values at each pair, in pair order.
     */
    ghost predicate Valid()
      reads this
    {
      && |values| == |coordinates|
      && (diff.Some? ==> diff.value == PairDiffs(values))
    }

    /**
     * The settings hold what the configuration selects: the resolved maxlag,
     * the selected functions and strategy, and the plain settings as given.
     */
    ghost predicate Configured(config: Config, maxDistance: real)
      reads this
      requires Selections(config).Success?
    {
      var (df, est, mdl, bf) := Selections(config).value;
      && maxlag == ResolveMaxlag(config.maxlag, maxDistance) && lags == config.lags
      && distFunc == df && estimator == est && model == mdl && binFunc == Some(bf)
      && normalized == config.normalize && harmonize == config.harmonize
      && fitMethod == config.fitMethod && useNugget == config.useNugget
    }

    /**
     * The object just after the setters of `__init__` succeeded: the
     * selections made, the plain settings stored and no derived array
     * computed yet.
     */
    constructor Init(coordinates: seq<seq<real>>, values: seq<real>, config: Config, maxlag: Option<real>,
                     distFunc: DistFunc, estimator: Estimator, model: Model, binFunc: BinFunc)
      requires |values| == |coordinates|
      ensures Valid()
      ensures this.coordinates == coordinates && this.values == values && this.maxlag == maxlag
      ensures this.distFunc == distFunc && this.estimator == estimator && this.model == model
      ensures this.binFunc == Some(binFunc) && lags == config.lags && normalized == config.normalize
      ensures harmonize == config.harmonize && fitMethod == config.fitMethod && useNugget == config.useNugget
      ensures dist == None && diff == None && bins == None && groups == None
    {
      this.coordinates := coordinates;
      this.values := values;
      lags := config.lags;
      this.maxlag := maxlag;
      this.distFunc := distFunc;
      this.estimator := estimator;
      this.model := model;
      this.binFunc := Some(binFunc);
      normalized := config.normalize;
      harmonize := config.harmonize;
      fitMethod := config.fitMethod;
      useNugget := config.useNugget;
      dist := None;
      diff := None;
      bins := None;
      groups := None;
    }

    /**
     * `__init__`: checks the value count, then makes the maxlag, distance,
     * estimator, model and binning selections of its setters in the
     * source's order (the first one that raises decides the error), stores
     * the plain settings and preprocesses with no derived array present.
     * `distances` is what the selected distance function returns for the
     * coordinates and `maxDistance` the largest of them, against which a
     * fractional maxlag is resolved.
     */
    static method Create(coordinates: seq<seq<real>>, values: seq<real>, config: Config,
                         maxDistance: real, distances: seq<real>)
      returns (r: Result<Variogram>)
      requires distances != [] ==> maxDistance in distances
      requires forall k :: 0 <= k < |distances| ==> distances[k] <= maxDistance
      ensures |values| != |coordinates| ==> r == Failure(LengthMismatch)
      ensures |values| == |coordinates| && Selections(config).Failure? ==> r == Failure(Selections(config).error)
      ensures |values| == |coordinates| && Selections(config).Success? ==> r.Success?
      ensures r.Success? ==> fresh(r.value) && r.value.Valid()
      ensures r.Success? ==> r.value.coordinates == coordinates && r.value.values == values
      ensures r.Success? ==> Selections(config).Success? && r.value.Configured(config, maxDistance)
      ensures r.Success? ==> r.value.dist == Some(distances) && r.value.diff == Some(PairDiffs(values))
      ensures r.Success? ==> r.value.bins == None && r.value.groups == None
    {
      if |values| != |coordinates| {
        return Failure(LengthMismatch);
      }
      var sel := Selections(config);
      if sel.Failure? {
        return Failure(sel.error);
      }
      var (df, est, mdl, bf) := sel.value;
      var v := new Variogram.Init(coordinates, values, config, ResolveMaxlag(config.maxlag, maxDistance),
                                  df, est, mdl, bf);
      v.Preprocessing(false, distances);
      return Success(v);
    }

    /**
     * `set_values`: the value count must equal the coordinate count; on
     * success the values are replaced and the differences recomputed.
     */
    method SetValues(newValues: seq<real>) returns (o: Outcome)
      requires Valid()
      modifies this`values, this`diff
      ensures Valid()
      ensures o.Pass? <==> |newValues| == |coordinates|
      ensures o.Fail? ==> o.error == LengthMismatch && values == old(values) && diff == old(diff)
      ensures o.Pass? ==> values == newValues && diff == Some(PairDiffs(newValues))
    {
      if |newValues| != |coordinates| {
        return Fail(LengthMismatch);
      }
      values := newValues;
      CalcDiff();
      return Pass;
    }

    /** `_calc_diff`: stores the difference array of the current values. */
    method CalcDiff()
      requires |values| == |coordinates|
      modifies this`diff
      ensures Valid()
      ensures diff == Some(PairDiffs(values))
    {
      var d := CalcDiffs(values);
      diff := Some(d);
    }

    /**
     * `set_bin_func`: clears groups and bins first, then accepts 'even' or
     * 'uniform' (any case) and raises otherwise.  The accepted strategy is
     * stored, which the code as written omits (see StoredBinFuncAsWritten).
     */
    method SetBinFunc(name: string) returns (o: Outcome)
      requires Valid()
      modifies this`groups, this`bins, this`binFunc
      ensures Valid()
      ensures groups == None && bins == None
      ensures o == AsOutcome(SelectBinFunc(name))
      ensures o.Pass? ==> binFunc == Some(SelectBinFunc(name).value)
      ensures o.Fail? ==> binFunc == old(binFunc)
    {
      groups := None;
      bins := None;
      var r := SelectBinFunc(name);
      if r.Failure? {
        return Fail(r.error);
      }
      binFunc := Some(r.value);
      return Pass;
    }

    /**
     * `set_estimator`: a known name or any non-string is stored; an unknown
     * name raises before anything is assigned, so the previous estimator
     * stays active.
     */
    method SetEstimator(arg: Arg<Estimator>) returns (o: Outcome)
      requires Valid()
      modifies this`estimator
      ensures Valid()
      ensures o == AsOutcome(SelectEstimator(arg))
      ensures o.Pass? ==> estimator == SelectEstimator(arg).value
      ensures o.Fail? ==> estimator == old(estimator)
    {
      var r := SelectEstimator(arg);
      if r.Failure? {
        return Fail(r.error);
      }
      estimator := r.value;
      return Pass;
    }

    /**
     * `set_model`: a known name or any non-string is stored; an unknown name
     * raises and the previous model stays active.
     */
    method SetModel(arg: Arg<Model>) returns (o: Outcome)
      requires Valid()
      modifies this`model
      ensures Valid()
      ensures o == AsOutcome(SelectModel(arg))
      ensures o.Pass? ==> model == SelectModel(arg).value
      ensures o.Fail? ==> model == old(model)
    {
      var r := SelectModel(arg);
      if r.Failure? {
        return Fail(r.error);
      }
      model := r.value;
      return Pass;
    }

    /**
     * `set_dist_function`: clears the distances first, so even a rejected
     * argument leaves them cleared while the distance function is unchanged.
     */
    method SetDistFunction(arg: DistArg) returns (o: Outcome)
      requires Valid()
      modifies this`dist, this`distFunc
      ensures Valid()
      ensures dist == None
      ensures o == AsOutcome(SelectDistFunc(arg))
      ensures o.Pass? ==> distFunc == SelectDistFunc(arg).value
      ensures o.Fail? ==> distFunc == old(distFunc)
    {
      dist := None;
      var r := SelectDistFunc(arg);
      if r.Failure? {
        return Fail(r.error);
      }
      distFunc := r.value;
      return Pass;
    }

    /** The `maxlag` setter: absent, a fraction (below 1) of the maximum distance, or absolute. */
    method SetMaxlag(value: Option<real>, maxDistance: real)
      requires Valid()
      requires dist.Some? && dist.value != [] ==> maxDistance in dist.value
      requires dist.Some? ==> forall k :: 0 <= k < |dist.value| ==> dist.value[k] <= maxDistance
      modifies this`maxlag
      ensures Valid()
      ensures maxlag == ResolveMaxlag(value, maxDistance)
    {
      match value {
        case None => maxlag := None;
        case Some(v) =>
          if v < 1.0 {
            assert ResolveMaxlag(value, maxDistance).value == v * maxDistance;
            maxlag := Some(v * maxDistance);
          } else {
            maxlag := Some(v);
          }
      }
    }

    /**
     * `preprocessing`: with force, clears all four derived arrays; then
     * recomputes the distances (`distances` is what the distance function
     * returns) and the differences.  The group computation is empty in the
     * source, so bins and groups are left as they are.
     */
    method Preprocessing(force: bool, distances: seq<real>)
      requires Valid()
      modifies this`dist, this`diff, this`bins, this`groups
      ensures Valid()
      ensures dist == Some(distances) && diff == Some(PairDiffs(values))
      ensures force ==> bins == None && groups == None
      ensures !force ==> bins == old(bins) && groups == old(groups)
    {
      if force {
        dist := None;
        diff := None;
        bins := None;
        groups := None;
      }
      dist := Some(distances);
      CalcDiff();
    }

    /**
     * `fit` up to the optimiser call: drops the positions whose y is NaN
     * from x and y, rejects every fit method but 'lm', and bounds the fit by
     * 0 below and by the bounds of the unfiltered arrays above, starting the
     * optimiser at the upper bounds.
     */
    method Fit(x: seq<Option<real>>, y: seq<Option<real>>) returns (r: Result<FitProblem>)
      ensures |x| != |y| ==> r == Failure(MaskMismatch)
      ensures |x| == |y| && fitMethod != "lm" ==> r == Failure(UnsupportedFitMethod(fitMethod))
      ensures |x| == |y| && fitMethod == "lm" ==>
        (r.Failure? <==> x == [] || (ModelName(model) != "nugget" && y == []))
      ensures r.Success? ==>
        && DropMissing(x, y) == Success((r.value.x, r.value.y))
        && IsFitBounds(r.value.upper, ModelName(model), useNugget, x, y)
        && r.value.p0 == r.value.upper && r.value.lower == 0.0 && r.value.model == model
    {
      var filtered := DropMissing(x, y);
      if filtered.Failure? {
        return Failure(filtered.error);
      }
      if fitMethod != "lm" {
        return Failure(UnsupportedFitMethod(fitMethod));
      }
      var bounds := FitBounds(ModelName(model), useNugget, x, y);
      if bounds.Failure? {
        return Failure(bounds.error);
      }
      return Success(FitProblem(model, filtered.value.0, filtered.value.1, bounds.value, 0.0, bounds.value));
    }
  }
}
