/**
 * The pair index space of the Variogram and the pairwise-difference array
 * built over it (`__vdiff_indexer` and `_calc_diff`).
 *
 * For l values the indexer enumerates every index pair (i, j) with
 * 0 <= j < i < l, row by row: (1,0), (2,0), (2,1), (3,0), ...  The pair of
 * row i and column j sits at position Tri(i) + j, where Tri(i) = i(i-1)/2 is
 * the number of pairs in the rows above it.
 */
module Pairs {
  import opened Common

  /** An index pair (i, j) as yielded by the indexer. */
  type Pair = (nat, nat)

  /** Number of pairs among the first i rows: 0 + 1 + ... + (i - 1). */
  function Tri(i: nat): nat
  {
    if i == 0 then 0 else Tri(i - 1) + (i - 1)
  }

  /** The number of pairs equals the source's preallocated length (l^2 - l) / 2. */
  lemma {:induction false} TriClosedForm(l: nat)
    ensures Tri(l) == (l * l - l) / 2
  {
    if l > 0 {
      TriClosedForm(l - 1);
      assert l * l - l == ((l - 1) * (l - 1) - (l - 1)) + 2 * (l - 1);
    }
  }

  /** A later row starts at or after the end of an earlier one. */
  lemma {:induction false} TriMonotone(i: nat, i': nat)
    requires i < i'
    ensures Tri(i) + i <= Tri(i')
    decreases i' - i
  {
    if i + 1 < i' {
      TriMonotone(i + 1, i');
    }
  }

  /** Row i of the pair enumeration: (i, 0), (i, 1), ..., (i, i - 1). */
  function Row(i: nat): (r: seq<Pair>)
    ensures |r| == i
  {
    seq(i, j requires 0 <= j < i => (i, j))
  }

  /**
   * The pairs of l values in the indexer's order: rows 0 .. l - 1 in turn.
   * Every pair it yields is strictly below the diagonal and inside the range.
   */
  function Pairs(l: nat): (ps: seq<Pair>)
    ensures forall k :: 0 <= k < |ps| ==> ps[k].1 < ps[k].0 < l
  {
    if l == 0 then [] else Pairs(l - 1) + Row(l - 1)
  }

  /** The position of a pair in the enumeration. */
  function PairIndex(p: Pair): nat
  {
    Tri(p.0) + p.1
  }

  /** There are exactly Tri(l) = (l^2 - l) / 2 pairs. */
  lemma {:induction false} PairsLength(l: nat)
    ensures |Pairs(l)| == Tri(l) == (l * l - l) / 2
  {
    TriClosedForm(l);
    if l > 0 {
      PairsLength(l - 1);
    }
  }

  /** Every pair (i, j) with j < i < l occurs, at position Tri(i) + j. */
  lemma {:induction false} PairAt(l: nat, i: nat, j: nat)
    requires j < i < l
    ensures PairIndex((i, j)) < |Pairs(l)|
    ensures Pairs(l)[PairIndex((i, j))] == (i, j)
  {
    PairsLength(l);
    PairsLength(l - 1);
    if i == l - 1 {
      assert Pairs(l)[Tri(i) + j] == Row(i)[j];
    } else {
      PairAt(l - 1, i, j);
    }
  }

  /** The position of the k-th pair is k: PairIndex inverts the enumeration. */
  lemma {:induction false} PairIndexRoundTrip(l: nat, k: nat)
    requires k < |Pairs(l)|
    ensures PairIndex(Pairs(l)[k]) == k
  {
    PairsLength(l);
    PairsLength(l - 1);
    if k < |Pairs(l - 1)| {
      assert Pairs(l)[k] == Pairs(l - 1)[k];
      PairIndexRoundTrip(l - 1, k);
    } else {
      assert Pairs(l)[k] == Row(l - 1)[k - Tri(l - 1)];
    }
  }

  /** A pair occurs in the enumeration exactly when it lies strictly below the diagonal. */
  lemma PairsMembership(l: nat, p: Pair)
    ensures p in Pairs(l) <==> p.1 < p.0 < l
  {
    if p.1 < p.0 < l {
      PairAt(l, p.0, p.1);
    }
  }

  /** No pair occurs twice: the enumeration is a bijection onto the pairs below the diagonal. */
  lemma PairsDistinct(l: nat, a: nat, b: nat)
    requires a < |Pairs(l)| && b < |Pairs(l)|
    requires Pairs(l)[a] == Pairs(l)[b]
    ensures a == b
  {
    PairIndexRoundTrip(l, a);
    PairIndexRoundTrip(l, b);
  }

  /** Strict lexicographic order on pairs: by row, then by column. */
  predicate LexLess(p: Pair, q: Pair)
  {
    p.0 < q.0 || (p.0 == q.0 && p.1 < q.1)
  }

  /** The pairs come in order of increasing row, then increasing column. */
  lemma PairsOrdered(l: nat, a: nat, b: nat)
    requires a < b < |Pairs(l)|
    ensures LexLess(Pairs(l)[a], Pairs(l)[b])
  {
    var p, q := Pairs(l)[a], Pairs(l)[b];
    PairIndexRoundTrip(l, a);
    PairIndexRoundTrip(l, b);
    if q.0 < p.0 {
      TriMonotone(q.0, p.0);
      assert false;
    }
  }

  /** The value dissimilarity of a pair: |a - b|. */
  function AbsDiff(a: real, b: real): real
  {
    if a >= b then a - b else b - a
  }

  /**
   * The intended content of the difference array: slot k holds the absolute
   * difference of the values at the k-th pair.
   */
  function PairDiffs(v: seq<real>): (d: seq<real>)
  {
    var ps := Pairs(|v|);
    seq(|ps|, k requires 0 <= k < |ps| => AbsDiff(v[ps[k].0], v[ps[k].1]))
  }

  /**
   * The slot of pair (i, j) holds |v[i] - v[j]|, the array has one slot per
   * pair, and every slot is non-negative.
   */
  lemma DiffAtPair(v: seq<real>, i: nat, j: nat)
    requires j < i < |v|
    ensures |PairDiffs(v)| == (|v| * |v| - |v|) / 2
    ensures PairIndex((i, j)) < |PairDiffs(v)|
    ensures PairDiffs(v)[PairIndex((i, j))] == AbsDiff(v[i], v[j]) >= 0.0
  {
    PairsLength(|v|);
    PairAt(|v|, i, j);
  }

  /**
   * `__vdiff_indexer`: a nested loop over i and j in range(l) that emits
   * (i, j) whenever i > j.
   */
  method VdiffIndexer(l: nat) returns (ps: seq<Pair>)
    ensures ps == Pairs(l)
  {
    ps := [];
    var i := 0;
    while i < l
      invariant i <= l
      invariant ps == Pairs(i)
    {
      var j := 0;
      while j < l
        invariant j <= l
        invariant ps == Pairs(i) + Row(i)[..if j < i then j else i]
      {
        if i > j {
          assert Row(i)[..j + 1] == Row(i)[..j] + [(i, j)];
          ps := ps + [(i, j)];
        }
        j := j + 1;
      }
      assert Row(i)[..i] == Row(i);
      i := i + 1;
    }
  }

  /**
   * `_calc_diff`: preallocates a zero array of length (l^2 - l) / 2 and fills
   * slot k from the k-th pair of the indexer (the two are zipped, so the loop
   * stops at the shorter of the two).  Each slot is written once, in order:
   * the slots not yet reached still hold the preallocated zero.
   */
  method CalcDiffs(v: seq<real>) returns (d: seq<real>)
    ensures |d| == (|v| * |v| - |v|) / 2
    ensures d == PairDiffs(v)
  {
    var l := |v|;
    var n := (l * l - l) / 2;
    var a := new real[n](_ => 0.0);
    var ps := VdiffIndexer(l);
    PairsLength(l);
    var k := 0;
    while k < |ps| && k < a.Length
      invariant k <= |ps| == a.Length
      invariant forall m :: 0 <= m < k ==> a[m] == PairDiffs(v)[m]
      invariant forall m :: k <= m < a.Length ==> a[m] == 0.0
    {
      var t := ps[k];
      a[k] := AbsDiff(v[t.0], v[t.1]);
      k := k + 1;
    }
    d := a[..];
  }

  /**
   * `_calc_diff` as written: `np.abs(v[i], v[j])` hands the second value to
   * numpy as the output argument instead of subtracting it.  A plain float
   * there is not an output array, so numpy raises a TypeError as soon as
   * there is one pair; with fewer than two values the loop body never runs.
   */
  function CalcDiffsAsWritten(v: seq<real>): (r: Result<seq<real>>)
    ensures r.Success? <==> |v| < 2
    ensures r.Success? ==> r.value == PairDiffs(v) == []
  {
    PairsLength(|v|);
    if |v| < 2 then Success(seq((|v| * |v| - |v|) / 2, _ => 0.0)) else Failure(TypeError)
  }

  /** Two equal values: the corrected array is [0.0], the code as written raises. */
  lemma AsWrittenDiffsDisagree()
    ensures CalcDiffsAsWritten([1.0, 1.0]) == Failure(TypeError)
    ensures PairDiffs([1.0, 1.0]) == [0.0]
  {
    DiffAtPair([1.0, 1.0], 1, 0);
  }
}
