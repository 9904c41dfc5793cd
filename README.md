# Variogram bookkeeping of scikit-gstat, in Dafny

This project models the bookkeeping around the numerics of the `Variogram`
class of scikit-gstat (`skgstat/Variogram.py`):

- **Pair index space and dissimilarities.** `__vdiff_indexer` enumerates
  every index pair `(i, j)` with `0 <= j < i < l`, row by row. `_calc_diff`
  preallocates an array of `(l^2 - l) / 2` zeros and fills slot `k` from the
  `k`-th pair. The model proves the following:
  - the enumeration is exactly the pairs below the diagonal, with no
    duplicates, in lexicographic order;
  - pair `(i, j)` sits at position `i(i-1)/2 + j`, and that position
    function inverts the enumeration;
  - slot `k` of the filled array holds `|v[i] - v[j]|` for the `k`-th pair.
- **Configuration state machine.** The estimator, model, distance-function
  and binning setters each take a name or a function, or raise. Names are
  matched case-insensitively, and `'h'` is an alias of `entropy`. An
  unknown name raises before any assignment, so the previous selection
  stays active. `set_values` rejects a value count that differs from the
  coordinate count. Some operations first clear cached derived arrays:
  - `set_dist_function` clears the distances (`_dist`);
  - `set_bin_func` clears the groups and bins (`_groups`, `_bins`);
  - `preprocessing(force=True)` clears all four, `_dist`, `_diff`,
    `_bins` and `_groups`.

  These are fields of the `Variograms.Variogram` class. Its invariant says that a present
  difference array always matches the current values.
- **`maxlag` setter.** It stores absent, a fraction below 1 of the maximum
  pairwise distance, or an absolute value. The maximum distance is a
  parameter.
- **Fit preparation.** `fit` drops the positions whose experimental value
  is NaN from x and y together, and rejects every fit method but `'lm'`.
  `__get_fit_bounds` builds the bound vector, whose shape depends on the
  model name and the nugget flag. `parameters` reads the fitted description
  back as an ordered list. NaN is `None` of an `Option<real>`.

Modules: `Common` (Option, Result, Outcome, the error conditions), `Pairs`,
`Selectors`, `MaxLag`, `Fitting`, `Variograms`.

The source at this revision cannot run at all, and the model follows its evident
intent:
- line 115 is a comment written without `#`, a syntax error;
- line 69 calls `set_bin_func(bins=...)`, but the parameter is named
  `bin_func` (line 126). So no construction completes: every call that
  gets past the earlier checks raises a TypeError at line 69.

Three more defects are listed under Findings, each with both the as-written
and the corrected member.

`preprocessing` recomputes distances and differences whether or not
`force` is set, as the code does. Its docstring says that prepared arrays
are skipped.

## Model

| member | source | states |
|---|---|---|
| Pairs.Pairs | skgstat/Variogram.py:338-343 | every enumerated pair (i, j) has j < i < l |
| Pairs.TriClosedForm | skgstat/Variogram.py:322 | the pair count i(i-1)/2 summed row by row equals the preallocated length (l^2 - l) / 2 |
| Pairs.PairsLength | skgstat/Variogram.py:322-343 | the indexer yields exactly (l^2 - l) / 2 pairs |
| Pairs.PairAt | skgstat/Variogram.py:338-343 | every pair (i, j) with j < i < l is yielded, at position i(i-1)/2 + j |
| Pairs.PairIndexRoundTrip | skgstat/Variogram.py:338-343 | the position function inverts the enumeration: the k-th pair maps back to k |
| Pairs.PairsMembership | skgstat/Variogram.py:340-343 | a pair is yielded if and only if it lies strictly below the diagonal |
| Pairs.PairsDistinct | skgstat/Variogram.py:340-343 | no pair is yielded twice |
| Pairs.PairsOrdered | skgstat/Variogram.py:340-343 | pairs come by increasing i, then increasing j |
| Pairs.VdiffIndexer | skgstat/Variogram.py:327-343 | the nested loop over i and j with the guard i > j produces the enumeration |
| Pairs.DiffAtPair | skgstat/Variogram.py:313-325 | the slot of pair (i, j) holds the non-negative value abs(v[i] - v[j]), and there is one slot per pair |
| Pairs.CalcDiffs | skgstat/Variogram.py:313-325 | the preallocated array of length (l^2 - l) / 2, filled slot by slot from the zipped indexer, holds the absolute difference of each pair in pair order |
| Pairs.CalcDiffsAsWritten | skgstat/Variogram.py:325 | the code as written raises a TypeError once there is a pair, and returns the empty array otherwise |
| Pairs.AsWrittenDiffsDisagree | skgstat/Variogram.py:325 | for the values [1, 1] the code as written raises, while the intended array is [0] |
| Selectors.LowerAt | skgstat/Variogram.py:152 | lower-casing maps each character on its own |
| Selectors.LowerIdempotent | skgstat/Variogram.py:152 | lower-casing twice equals lower-casing once |
| Selectors.LowerOfLowerCase | skgstat/Variogram.py:152 | a name with no upper-case letter is unchanged by lower-casing |
| Selectors.EstimatorByNameAliases | skgstat/Variogram.py:151-163 | a string selects an estimator if and only if its lower-case form is one of that estimator's names; 'h' is also a name of entropy |
| Selectors.EstimatorByNameUnknown | skgstat/Variogram.py:164-165 | a string selects no estimator if and only if its lower-case form is none of the seven names |
| Selectors.EstimatorByNameIgnoresCase | skgstat/Variogram.py:151-163 | a string and its lower-case form select the same estimator |
| Selectors.EstimatorByOwnName | skgstat/Variogram.py:151-163 | each built-in estimator is selected by its own function name |
| Selectors.SelectEstimator | skgstat/Variogram.py:151-167 | a non-string is stored unchanged; a string is accepted exactly when the table knows it, and an unknown name raises an unknown-estimator error |
| Selectors.ModelByNameSound | skgstat/Variogram.py:182-194 | a string selects a built-in model if and only if its lower-case form is that model's function name |
| Selectors.ModelByNameUnknown | skgstat/Variogram.py:195-197 | a string selects no model if and only if its lower-case form is none of the six names |
| Selectors.ModelByNameIgnoresCase | skgstat/Variogram.py:182-194 | a string and its lower-case form select the same model |
| Selectors.ModelByOwnName | skgstat/Variogram.py:182-194 | each built-in model is selected by its own function name |
| Selectors.SelectModel | skgstat/Variogram.py:182-199 | a non-string is stored unchanged; a string is accepted exactly when the table knows it, and an unknown name raises an unknown-model error |
| Selectors.SelectDistFunc | skgstat/Variogram.py:223-231 | 'euclidean' in any case selects nd_dist, another string raises, a callable is stored, anything else raises |
| Selectors.EuclideanByName | skgstat/Variogram.py:223-225 | the name 'euclidean' selects nd_dist |
| Selectors.EvenByName | skgstat/Variogram.py:131-132 | the name 'even' is accepted and selects even binning |
| Selectors.SelectBinFunc | skgstat/Variogram.py:131-136 | exactly 'even' and 'uniform', in any case, are accepted; anything else raises |
| Selectors.StoredBinFuncAsWritten | skgstat/Variogram.py:118-136 | the code as written validates the name but keeps the stored strategy unchanged |
| Selectors.AsWrittenBinFuncForgotten | skgstat/Variogram.py:118-136 | after selecting 'uniform', the code as written still reports None |
| MaxLag.ResolveMaxlag | skgstat/Variogram.py:250-255 | absent stays absent; a value of at least 1 is kept; a fraction in [0, 1) gives a cutoff between 0 and the maximum distance, strictly below it when the maximum distance is positive |
| MaxLag.MaxlagReassign | skgstat/Variogram.py:243-255 | writing the getter's value back keeps the setting if and only if it is absent, at least 1, zero, or the maximum distance is 1 |
| MaxLag.MaxlagAsWritten | skgstat/Variogram.py:253 | the code as written raises an AttributeError for every value below 1 and otherwise stores the value |
| MaxLag.AsWrittenMaxlagRejectsFraction | skgstat/Variogram.py:253 | for 0.5 the code as written raises, while the intended cutoff for a maximum distance of 10 is 5 |
| MaxLag.AsWrittenMaxlagAgreesOtherwise | skgstat/Variogram.py:250-255 | apart from fractions, the code as written and the intended setter agree |
| Fitting.KeptIndices | skgstat/Variogram.py:300-301 | the kept positions are in range, strictly increasing, and the mask is true at each of them |
| Fitting.KeptIndicesComplete | skgstat/Variogram.py:300-301 | every true position of the mask is kept |
| Fitting.KeepAt | skgstat/Variogram.py:300-301 | boolean-mask indexing returns the elements at the kept positions, in order |
| Fitting.DropMissing | skgstat/Variogram.py:300-301 | the filter raises exactly when the mask length differs from x |
| Fitting.DropMissingAligned | skgstat/Variogram.py:299-301 | the filtered x and y have equal length and no NaN y; they keep exactly the positions whose y is a number, in order, side by side |
| Fitting.MaxPresent | skgstat/Variogram.py:426 | the NaN-ignoring maximum is NaN if and only if every entry is NaN; otherwise it is an entry and at least every number |
| Fitting.NanMax | skgstat/Variogram.py:426 | np.nanmax raises exactly on an empty array, and otherwise returns the NaN-ignoring maximum |
| Fitting.FitBounds | skgstat/Variogram.py:414-447 | the bounds raise exactly when x, or y for a model other than 'nugget', is empty; they are [max x, max y, 20] for matern, [max x, max y, 2] for stable, [max x] for 'nugget' and [max x, max y] otherwise, with 0.99 appended exactly when the nugget is used |
| Fitting.FitBoundsUnique | skgstat/Variogram.py:421-447 | the slot-by-slot description of the bounds fixes the whole vector |
| Fitting.Lookup | skgstat/Variogram.py:616-622 | keys are read in order, and the first missing key raises a KeyError |
| Fitting.Parameters | skgstat/Variogram.py:606-622 | a description with an error gives three Nones; otherwise the list is range, sill, then smoothness (matern) or shape (stable), and the nugget last, or only the nugget for the 'nugget' model; a missing key raises |
| Fitting.ParametersComplete | skgstat/Variogram.py:612-622 | a description with every key of its model yields a list of numbers without raising |
| Variograms.Selections | skgstat/Variogram.py:55-69 | construction succeeds only when the distance, estimator, model and binning selections all succeed |
| Variograms.SelectionsOf | skgstat/Variogram.py:55-69 | when each of the four selections succeeds, the constructor's selections are exactly their four results |
| Variograms.DefaultSelectionsSucceed | skgstat/Variogram.py:19-36 | the default arguments (matheron, spherical, 'euclidean', 'even') pass every selection, so a default construction with matching counts succeeds |
| Variograms.Variogram.Create | skgstat/Variogram.py:19-99 | a value count mismatch raises first, then the first failing selection in constructor order; matching counts and four successful selections always succeed, and then the configuration is stored, with a fractional maxlag resolved against the largest distance, the distances and differences are computed and bins and groups are absent |
| Variograms.Variogram.SetValues | skgstat/Variogram.py:109-116 | a count mismatch raises and changes nothing; otherwise the values are replaced and the differences recomputed from them |
| Variograms.Variogram.CalcDiff | skgstat/Variogram.py:313-325 | the stored differences are those of the current values |
| Variograms.Variogram.SetBinFunc | skgstat/Variogram.py:126-136 | groups and bins are cleared even when the name is rejected; an accepted strategy is stored, and a rejected one keeps the previous strategy |
| Variograms.Variogram.SetEstimator | skgstat/Variogram.py:146-167 | an unknown name raises and keeps the previous estimator; otherwise the selection is stored |
| Variograms.Variogram.SetModel | skgstat/Variogram.py:177-199 | an unknown name raises and keeps the previous model; otherwise the selection is stored |
| Variograms.Variogram.SetDistFunction | skgstat/Variogram.py:209-231 | distances are cleared even when the argument is rejected, and the distance function changes only on success |
| Variograms.Variogram.SetMaxlag | skgstat/Variogram.py:247-255 | the stored maxlag is the resolved cutoff |
| Variograms.Variogram.Preprocessing | skgstat/Variogram.py:257-287 | with force, bins and groups are cleared; without it, they are kept; the distances and the differences of the current values are always recomputed |
| Variograms.Variogram.Fit | skgstat/Variogram.py:290-308 | a mask mismatch raises, then any method other than 'lm' raises; otherwise the NaN-filtered x and y go to the optimiser with lower bound 0 and the bounds of the unfiltered arrays as upper bound and start point |

## Left out

- The optimiser call `curve_fit` (line 305). Fit stops at the prepared problem: model, filtered data, start point and bounds.
- The estimator, model and `nd_dist` functions (imported at lines 5-7). Their source is not part of this model. They are opaque identifiers, and a custom function is known by its `__name__`.
- Distances are not computed. `Preprocessing` and `Create` take what the selected distance function returns, and `SetMaxlag` takes the maximum distance. `nd_dist` is not part of this model, so whether its pair order matches the indexer's is not established.
- `_calc_groups` has an empty body, so bins and groups are never computed. `_experimental` and `isotonic` raise `NotImplementedError`.
- The quality statistics (`residuals`, `mean_residual`, `RMSE`, `NRMSE`, `NRMSE_r`, `r`, `NS`), plus `data`, `describe` and `hist`. These are floating-point numerics over the optimiser's output. `Parameters` takes the description as an input.
- Plotting and export (`plot`, `scattergram`, `location_trend`, `to_DataFrame`), `clone`, and `__repr__`/`__str__`.
- The attributes `verbose`, `is_directional`, `azimuth`, `tolerance`, `cov` and `cof`. Nothing in the modelled code reads them.
- The deletion of a cached `last_bin` attribute at the start of `fit` (lines 296-297). Nothing in the modelled code sets or reads it.
- Floating point. Values, distances and bounds are exact reals.
- Selectors.SelectEstimator: a non-string argument is modelled as a function value, because the model has no variant for a non-callable stored unchanged.
- Selectors.SelectModel: a non-string argument is modelled as a function value, for the same reason.
- Selectors.Lower: only ASCII letters are lower-cased. Matching is still unaffected. The Kelvin sign is the one non-ASCII character whose lower case is all ASCII ('k'), and no selector name contains 'k'. Every other non-ASCII character lowers to text that still holds a non-ASCII character. For example, 'İ' lowers to 'i' followed by U+0307. Such text matches no selector name either way.
- `set_bin_func` and `__get_fit_bounds` are not given non-string arguments. In the source these raise an AttributeError (`.lower()` or `__name__`).
- Variograms.Variogram.Create: the selections are made with the same functions the setters use, rather than by calling the setters on a half-built object. The selected functions and the first error are the same.
- Variograms.Variogram.Create: with fewer than two coordinates there are no distances, and the caller's maximum distance is then unconstrained. A corrected setter taking `np.max` of an empty array would raise there. The model does not decide which behaviour is intended.
- Variograms.Variogram.SetMaxlag: the caller passes the maximum distance. When distances are stored, it must be their largest. When none are stored, it is unconstrained.
- Variograms.Variogram.Create: a fractional maxlag is resolved against the largest of the distances the constructor computes. The caller passes that largest distance. In the source, the maxlag setter runs at line 51. That is before the distance function is set (lines 54-55) and before any distance is computed (line 99). So even a corrected setter has no maximum distance to scale by at that point. The model does not reproduce this ordering.

## Findings

| source | as written | input that shows it | evidently intended | confidence | as-written member | corrected member |
|---|---|---|---|---|---|---|
| skgstat/Variogram.py:325 | `np.abs(v[t[0]], v[t[1]])` passes the second value as numpy's output argument; a float there is not an output array, so a TypeError is raised | values [1.0, 1.0] | slot k holds abs(v[i] - v[j]), as the docstring at line 314 says | not executed | Pairs.CalcDiffsAsWritten | Pairs.CalcDiffs |
| skgstat/Variogram.py:253 | `value * np.max(self.dm)` reads `dm`, which the class never sets, so an AttributeError is raised | maxlag = 0.5 | a value below 1 is a fraction of the maximum pairwise distance | not executed | MaxLag.MaxlagAsWritten | MaxLag.ResolveMaxlag |
| skgstat/Variogram.py:126-136 | `set_bin_func` validates the name but never assigns `_bin_func`, so the getter at line 120 keeps returning None | set_bin_func('uniform'), then read bin_func | the accepted strategy is stored | not executed | Selectors.StoredBinFuncAsWritten | Variograms.Variogram.SetBinFunc |
