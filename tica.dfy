/** Time-lagged independent component analysis (TICA): the parameter
    validation of the estimator, its output-dimension rule, the bookkeeping
    of one estimation run (eligible and skipped trajectories, the number of
    saved moments, chunk-by-chunk accumulation, the cumulative kinetic
    variance) and the projection of data onto the leading components.
    The streaming moment estimator and the generalized eigensolver are
    external numerical routines; they enter as function parameters. */
module TicaTransform {
  import opened Wrappers

  /** A floating-point value as numpy holds it: a number or NaN. */
  datatype Float = Num(value: real) | NaN

  /** numpy's `x < v`: NaN is never below anything. */
  predicate Below(x: Float, v: real)
  {
    x.Num? && x.value < v
  }

  datatype ValueReason = BothDimAndVarCutoff | NoTrajectoryLongerThanLag | LogOfZero
  datatype AssertReason = ZeroInputDimension | DimExceedsInput

  /** The exceptions raised by the modelled code: `ValueError`, the
      `RuntimeError` of an undetermined dimension, a failed `assert`, the
      `IndexError` of `cumvar[-1]` on an empty eigenvalue vector, and
      a `LinAlgError` (or one of the above) from the moment estimator or
      the eigensolver. */
  datatype Error =
    | ValueError(reason: ValueReason)
    | RuntimeError
    | AssertionError(assertion: AssertReason)
    | IndexError
    | LinAlgError

  /** Constructor defaults of `dim` and `var_cutoff`. */
  const DefaultDim: int := -1
  const DefaultVarCutoff: real := 0.95

  function Min(a: int, b: int): int
  {
    if a <= b then a else b
  }

  // ---------------------------------------------------------------------------
  // Construction
  // ---------------------------------------------------------------------------

  /** The `var_cutoff` the constructor stores, or its `ValueError` when both
      a dimension and a non-default cutoff are requested. */
  function StoredVarCutoff(dim: int, varCutoff: real): (r: Result<real, Error>)
    ensures r.Failure? <==> dim != DefaultDim && varCutoff != DefaultVarCutoff
    ensures r.Failure? ==> r.error == ValueError(BothDimAndVarCutoff)
    ensures r.Success? && dim > -1 ==> r.value == 1.0
    ensures r.Success? && dim <= -1 ==> r.value == varCutoff
  {
    if dim != DefaultDim && varCutoff != DefaultVarCutoff then Failure(ValueError(BothDimAndVarCutoff))
    else if dim > -1 then Success(1.0)
    else Success(varCutoff)
  }

  /** Whatever the constructor accepts, an explicit dimension and a cutoff
      below 1 never meet: either `dim` is unset (-1), or the stored cutoff is
      1.0, or `dim` is a negative value other than -1 with the default cutoff. */
  lemma StoredVarCutoffExclusive(dim: int, varCutoff: real)
    requires StoredVarCutoff(dim, varCutoff).Success?
    ensures dim == DefaultDim || StoredVarCutoff(dim, varCutoff).value == 1.0
            || (dim < -1 && StoredVarCutoff(dim, varCutoff).value == DefaultVarCutoff)
  {
  }

  // ---------------------------------------------------------------------------
  // Number of saved moments
  // ---------------------------------------------------------------------------

  function Pow2(k: nat): (r: nat)
    ensures r >= 1
  {
    if k == 0 then 1 else 2 * Pow2(k - 1)
  }

  /** The integer part of the base-2 logarithm. */
  function Log2Floor(n: nat): (r: nat)
    requires n >= 1
    ensures Pow2(r) <= n < Pow2(r + 1)
  {
    if n < 2 then 0 else 1 + Log2Floor(n / 2)
  }

  /** `int(max(log(ceil(n_chunks), 2), 2))`, with an exact logarithm:
      `log(0)` raises `ValueError`; otherwise the result is at least 2 and
      above 2 exactly the integer part of `log2(n_chunks)`. */
  function NSave(nChunks: nat): (r: Result<nat, Error>)
    ensures r.Failure? <==> nChunks == 0
    ensures r.Failure? ==> r.error == ValueError(LogOfZero)
    ensures r.Success? ==> r.value >= 2
    ensures r.Success? ==> (r.value == 2 <==> nChunks < 8)
    ensures r.Success? && r.value > 2 ==> Pow2(r.value) <= nChunks < Pow2(r.value + 1)
  {
    if nChunks == 0 then Failure(ValueError(LogOfZero))
    else
      var l := Log2Floor(nChunks);
      if l <= 2 then
        Pow2Monotone(l + 1, 3);
        Success(2)
      else
        Pow2Monotone(3, l);
        Success(l)
  }

  lemma {:induction false} Pow2Monotone(i: nat, j: nat)
    requires i <= j
    ensures Pow2(i) <= Pow2(j)
  {
    if i < j {
      Pow2Monotone(i, j - 1);
    }
  }

  lemma Log2FloorMonotone(a: nat, b: nat)
    requires 1 <= a <= b
    ensures Log2Floor(a) <= Log2Floor(b)
  {
    var la, lb := Log2Floor(a), Log2Floor(b);
    if la > lb {
      Pow2Monotone(lb + 1, la);
    }
  }

  /** More chunks never mean fewer saved moments. */
  lemma NSaveMonotone(a: nat, b: nat)
    requires 1 <= a <= b
    ensures NSave(a).Success? && NSave(b).Success? && NSave(a).value <= NSave(b).value
  {
    Log2FloorMonotone(a, b);
  }

  // ---------------------------------------------------------------------------
  // Cumulative kinetic variance
  // ---------------------------------------------------------------------------

  /** Sum of the squares of `e`. */
  function SumSq(e: seq<real>): (r: real)
    ensures r >= 0.0
  {
    if e == [] then 0.0 else SumSq(e[..|e| - 1]) + e[|e| - 1] * e[|e| - 1]
  }

  /** `cumsum(eigenvalues ** 2) / cumsum(...)[-1]`: entry `k` is the share of
      the first `k + 1` squared eigenvalues in the total; every entry is NaN
      (0/0) when all eigenvalues are zero; an empty vector raises. */
  function CumVar(eigenvalues: seq<real>): (r: Result<seq<Float>, Error>)
    ensures r.Failure? <==> eigenvalues == []
    ensures r.Failure? ==> r.error == IndexError
    ensures r.Success? ==> |r.value| == |eigenvalues|
  {
    if eigenvalues == [] then Failure(IndexError)
    else
      var n, total := |eigenvalues|, SumSq(eigenvalues);
      Success(seq(n, k requires 0 <= k < n =>
        if total == 0.0 then NaN else Num(SumSq(eigenvalues[..k + 1]) / total)))
  }

  lemma {:induction false} SumSqPrefixMonotone(e: seq<real>, i: nat, j: nat)
    requires i <= j <= |e|
    ensures SumSq(e[..i]) <= SumSq(e[..j])
    decreases j
  {
    if i < j {
      assert e[..j][..j - 1] == e[..j - 1];
      SumSqPrefixMonotone(e, i, j - 1);
    }
  }

  lemma {:induction false} SumSqPositive(e: seq<real>, i: nat)
    requires i < |e| && e[i] != 0.0
    ensures SumSq(e) > 0.0
  {
    var last := e[|e| - 1];
    if i == |e| - 1 {
      SquarePositive(last);
      calc {
        SumSq(e);
      ==
        SumSq(e[..|e| - 1]) + last * last;
      >=
        last * last;
      >
        0.0;
      }
    } else {
      SumSqPositive(e[..|e| - 1], i);
      calc {
        SumSq(e);
      ==
        SumSq(e[..|e| - 1]) + last * last;
      >=
        SumSq(e[..|e| - 1]);
      >
        0.0;
      }
    }
  }

  lemma SquarePositive(x: real)
    requires x != 0.0
    ensures x * x > 0.0
  {
    if x < 0.0 {
      var y := -x;
      assert y * y > 0.0;
      assert x * x == y * y;
    }
  }

  lemma {:induction false} SumSqZero(e: seq<real>)
    requires forall i :: 0 <= i < |e| ==> e[i] == 0.0
    ensures SumSq(e) == 0.0
  {
    if e != [] {
      SumSqZero(e[..|e| - 1]);
    }
  }

  /** The fraction of the total squared eigenvalue mass carried by the first
      `m` eigenvalues (taken as 0 when the total is 0). */
  function VarianceShare(e: seq<real>, m: nat): real
    requires m <= |e|
  {
    if SumSq(e) == 0.0 then 0.0 else SumSq(e[..m]) / SumSq(e)
  }

  /** Entry `k` of cumvar when the total is positive. */
  lemma CumVarAt(e: seq<real>, k: nat)
    requires k < |e| && SumSq(e) > 0.0
    ensures CumVar(e).Success? && CumVar(e).value[k] == Num(VarianceShare(e, k + 1))
  {
  }

  /** Shares lie in [0, 1], grow with `m`, and the share of all eigenvalues
      is exactly 1. */
  lemma {:induction false} ShareBounds(e: seq<real>, m: nat, l: nat)
    requires m <= l <= |e| && SumSq(e) > 0.0
    ensures 0.0 <= VarianceShare(e, m) <= VarianceShare(e, l) <= 1.0
    ensures VarianceShare(e, |e|) == 1.0
  {
    var t := SumSq(e);
    assert e[..|e|] == e;
    SumSqPrefixMonotone(e, 0, m);
    SumSqPrefixMonotone(e, m, l);
    SumSqPrefixMonotone(e, l, |e|);
    DivideMonotone(0.0, SumSq(e[..m]), t);
    DivideMonotone(SumSq(e[..m]), SumSq(e[..l]), t);
    DivideMonotone(SumSq(e[..l]), t, t);
    assert SumSq(e[..|e|]) == t;
    DivideSelf(t);
  }

  lemma DivideSelf(t: real)
    requires t > 0.0
    ensures t / t == 1.0
  {
  }

  /** With some non-zero eigenvalue, cumvar holds the share of the leading
      eigenvalues at every position: a non-decreasing sequence of numbers in
      [0, 1] whose last entry is exactly 1. */
  lemma CumVarNormalized(e: seq<real>, i: nat)
    requires i < |e| && e[i] != 0.0
    ensures CumVar(e).Success?
    ensures forall k :: 0 <= k < |e| ==> CumVar(e).value[k] == Num(VarianceShare(e, k + 1))
    ensures forall k :: 0 <= k < |e| ==> 0.0 <= CumVar(e).value[k].value <= 1.0
    ensures forall k, l :: 0 <= k <= l < |e| ==> CumVar(e).value[k].value <= CumVar(e).value[l].value
    ensures CumVar(e).value[|e| - 1] == Num(1.0)
  {
    SumSqPositive(e, i);
    forall k, l | 0 <= k <= l < |e|
      ensures CumVar(e).value[k] == Num(VarianceShare(e, k + 1))
      ensures CumVar(e).value[l] == Num(VarianceShare(e, l + 1))
      ensures 0.0 <= VarianceShare(e, k + 1) <= VarianceShare(e, l + 1) <= 1.0
    {
      CumVarAt(e, k);
      CumVarAt(e, l);
      ShareBounds(e, k + 1, l + 1);
    }
    CumVarAt(e, |e| - 1);
    ShareBounds(e, |e|, |e|);
  }

  lemma DivideMonotone(a: real, b: real, t: real)
    requires t > 0.0 && a <= b
    ensures a / t <= b / t
  {
    assert b / t - a / t == (b - a) / t;
  }

  /** With all eigenvalues zero, every entry of cumvar is NaN. */
  lemma CumVarAllZero(e: seq<real>)
    requires e != [] && forall i :: 0 <= i < |e| ==> e[i] == 0.0
    ensures CumVar(e).Success?
    ensures forall k :: 0 <= k < |e| ==> CumVar(e).value[k] == NaN
  {
    SumSqZero(e);
  }

  /** Sorted in numpy's order: numbers ascending, NaN after every number. */
  ghost predicate SortedNaNLast(a: seq<Float>)
  {
    forall i, j :: 0 <= i < j < |a| ==>
      (a[i].NaN? ==> a[j].NaN?) && (a[i].Num? && a[j].Num? ==> a[i].value <= a[j].value)
  }

  /** Whatever the eigenvalues, a computed cumvar is sorted in numpy's order. */
  lemma CumVarSorted(e: seq<real>)
    requires CumVar(e).Success?
    ensures SortedNaNLast(CumVar(e).value)
  {
    if i :| 0 <= i < |e| && e[i] != 0.0 {
      CumVarNormalized(e, i);
    } else {
      CumVarAllZero(e);
    }
  }

  // ---------------------------------------------------------------------------
  // Output dimension
  // ---------------------------------------------------------------------------

  /** `np.searchsorted(a, v)` with side 'left': the first index whose entry
      is not below `v` (`|a|` when there is none). */
  function SearchSorted(a: seq<Float>, v: real): (k: nat)
    ensures k <= |a|
    ensures forall i :: 0 <= i < k ==> Below(a[i], v)
    ensures k < |a| ==> !Below(a[k], v)
  {
    if a == [] || !Below(a[0], v) then 0 else 1 + SearchSorted(a[1..], v)
  }

  /** On an array sorted in numpy's order, the entries below `v` are exactly
      the first `searchsorted(a, v)` ones, as numpy's binary search finds. */
  lemma SearchSortedSplits(a: seq<Float>, v: real)
    requires SortedNaNLast(a)
    ensures forall i :: 0 <= i < |a| ==> (Below(a[i], v) <==> i < SearchSorted(a, v))
  {
    var k := SearchSorted(a, v);
    forall i | k < i < |a|
      ensures !Below(a[i], v)
    {
      assert !Below(a[k], v);
    }
  }

  /** `dimension()` once estimated, without an explicit `dim`: all
      eigenvalues when `var_cutoff >= 1`, else one more than the index
      `searchsorted` gives, capped at the number of eigenvalues. */
  function EstimatedDimension(eigenvalues: seq<real>, cumvar: seq<Float>, varCutoff: real): (d: int)
    ensures |eigenvalues| > 0 ==> 1 <= d <= |eigenvalues|
    ensures varCutoff >= 1.0 ==> d == |eigenvalues|
    ensures varCutoff < 1.0 && 0 < d < |eigenvalues| && d <= |cumvar| ==> !Below(cumvar[d - 1], varCutoff)
    ensures varCutoff < 1.0 ==> forall i :: 0 <= i < d - 1 && i < |cumvar| ==> Below(cumvar[i], varCutoff)
  {
    var n := |eigenvalues|;
    if varCutoff < 1.0 then Min(n, SearchSorted(cumvar, varCutoff) + 1) else n
  }

  /** For the cumvar of the eigenvalues themselves (some non-zero) and a
      cutoff below 1, the estimated dimension is the smallest number of
      leading components whose share of the squared eigenvalues reaches
      `var_cutoff`. */
  lemma DimensionReachesCutoff(e: seq<real>, varCutoff: real, i: nat)
    requires i < |e| && e[i] != 0.0 && varCutoff < 1.0
    ensures CumVar(e).Success?
    ensures var d := EstimatedDimension(e, CumVar(e).value, varCutoff);
      1 <= d <= |e|
      && VarianceShare(e, d) >= varCutoff
      && forall m :: 1 <= m < d ==> VarianceShare(e, m) < varCutoff
  {
    CumVarNormalized(e, i);
    var cv := CumVar(e).value;
    var k := SearchSorted(cv, varCutoff);
    assert !Below(cv[|e| - 1], varCutoff);
    assert k < |e|;
    forall m | 1 <= m < k + 1
      ensures VarianceShare(e, m) < varCutoff
    {
      assert Below(cv[m - 1], varCutoff);
    }
  }

  /** With all eigenvalues zero, cumvar is all NaN, `searchsorted` stops at
      the first entry, and a cutoff below 1 keeps a single component. */
  lemma DimensionOfAllZero(e: seq<real>, varCutoff: real)
    requires e != [] && forall i :: 0 <= i < |e| ==> e[i] == 0.0
    requires varCutoff < 1.0
    ensures CumVar(e).Success? && EstimatedDimension(e, CumVar(e).value, varCutoff) == 1
  {
    CumVarAllZero(e);
  }

  // ---------------------------------------------------------------------------
  // Trajectory eligibility
  // ---------------------------------------------------------------------------

  /** Some trajectory is strictly longer than the lag. */
  predicate SomeLongerThanLag(lengths: seq<nat>, lag: int)
  {
    exists i :: 0 <= i < |lengths| && lengths[i] > lag
  }

  /** The indices of the trajectories strictly shorter than the lag, in
      increasing order. */
  function SkippedIndices(lengths: seq<nat>, lag: int): (r: seq<nat>)
    ensures forall k :: 0 <= k < |r| ==> r[k] < |lengths| && lengths[r[k]] < lag
    ensures forall i :: 0 <= i < |lengths| && lengths[i] < lag ==> i in r
    ensures forall k, l :: 0 <= k < l < |r| ==> r[k] < r[l]
    ensures |r| <= |lengths|
    ensures |r| == |lengths| <==> forall i :: 0 <= i < |lengths| ==> lengths[i] < lag
  {
    if lengths == [] then []
    else
      var n := |lengths| - 1;
      SkippedIndices(lengths[..n], lag) + (if lengths[n] < lag then [n] else [])
  }

  /** A trajectory exactly as long as the lag is not skipped, yet does not
      make the data eligible either. */
  lemma LagLengthNeitherSkippedNorEligible(lengths: seq<nat>, lag: int, i: nat)
    requires i < |lengths| && lengths[i] == lag
    ensures i !in SkippedIndices(lengths, lag)
    ensures SomeLongerThanLag(lengths, lag) <==> SomeLongerThanLag(lengths[..i] + lengths[i + 1..], lag)
  {
    var rest := lengths[..i] + lengths[i + 1..];
    if SomeLongerThanLag(lengths, lag) {
      var j :| 0 <= j < |lengths| && lengths[j] > lag;
      if j < i { assert rest[j] == lengths[j]; } else { assert rest[j - 1] == lengths[j]; }
    }
    if SomeLongerThanLag(rest, lag) {
      var j :| 0 <= j < |rest| && rest[j] > lag;
      if j < i { assert lengths[j] == rest[j]; } else { assert lengths[j + 1] == rest[j]; }
    }
  }

  /** When the strided lengths are the lengths themselves (stride 1) and
      every trajectory is skipped, the estimation is refused. */
  lemma AllSkippedNotEligible(lengths: seq<nat>, lag: int)
    requires |SkippedIndices(lengths, lag)| == |lengths|
    ensures !SomeLongerThanLag(lengths, lag)
  {
  }

  // ---------------------------------------------------------------------------
  // Projection
  // ---------------------------------------------------------------------------

  function Dot(a: seq<real>, b: seq<real>): real
    requires |a| == |b|
  {
    if a == [] then 0.0 else a[0] * b[0] + Dot(a[1..], b[1..])
  }

  /** `x - mean`, entry by entry. */
  function MeanFree(x: seq<real>, mean: seq<real>): (r: seq<real>)
    requires |x| == |mean|
    ensures |r| == |x| && forall k :: 0 <= k < |x| ==> r[k] == x[k] - mean[k]
  {
    seq(|x|, k requires 0 <= k < |x| => x[k] - mean[k])
  }

  /** Column `j` of a matrix whose rows all have more than `j` entries. */
  function Column(m: seq<seq<real>>, j: nat): (c: seq<real>)
    requires forall r :: 0 <= r < |m| ==> j < |m[r]|
    ensures |c| == |m| && forall r :: 0 <= r < |m| ==> c[r] == m[r][j]
  {
    seq(|m|, r requires 0 <= r < |m| => m[r][j])
  }

  /** The shapes a projection needs: every data row and the eigenvector
      matrix have one entry/row per input feature, and the eigenvector
      matrix has one column per eigenvalue. */
  predicate ProjectionShapes(X: seq<seq<real>>, mean: seq<real>, V: seq<seq<real>>, eigenvalues: seq<real>)
  {
    |V| == |mean|
    && (forall r :: 0 <= r < |V| ==> |V[r]| == |eigenvalues|)
    && (forall i :: 0 <= i < |X| ==> |X[i]| == |mean|)
  }

  /** `_transform_array` given the dimension `d >= 0`: the mean-free data
      times the first `d` eigenvector columns (numpy's slice keeps at most
      as many columns as there are), each column scaled by its eigenvalue
      under the kinetic map. */
  function Transform(X: seq<seq<real>>, mean: seq<real>, V: seq<seq<real>>, eigenvalues: seq<real>,
                     d: nat, kineticMap: bool): (Y: seq<seq<real>>)
    requires ProjectionShapes(X, mean, V, eigenvalues)
    ensures |Y| == |X|
    ensures forall i :: 0 <= i < |X| ==> |Y[i]| == Min(d, |eigenvalues|)
  {
    var cols := Min(d, |eigenvalues|);
    seq(|X|, i requires 0 <= i < |X| =>
      seq(cols, j requires 0 <= j < cols =>
        var p := Dot(MeanFree(X[i], mean), Column(V, j));
        if kineticMap then p * eigenvalues[j] else p))
  }

  /** The kinetic map multiplies column `j` of the plain projection by
      eigenvalue `j`. */
  lemma KineticMapScalesColumns(X: seq<seq<real>>, mean: seq<real>, V: seq<seq<real>>, eigenvalues: seq<real>,
                                d: nat, i: nat, j: nat)
    requires ProjectionShapes(X, mean, V, eigenvalues)
    requires i < |X| && j < Min(d, |eigenvalues|)
    ensures Transform(X, mean, V, eigenvalues, d, true)[i][j]
            == Transform(X, mean, V, eigenvalues, d, false)[i][j] * eigenvalues[j]
  {
  }

  lemma {:induction false} DotZero(a: seq<real>, b: seq<real>)
    requires |a| == |b| && forall k :: 0 <= k < |a| ==> a[k] == 0.0
    ensures Dot(a, b) == 0.0
  {
    if a != [] {
      DotZero(a[1..], b[1..]);
    }
  }

  /** A data row equal to the mean projects to the origin. */
  lemma MeanProjectsToZero(X: seq<seq<real>>, mean: seq<real>, V: seq<seq<real>>, eigenvalues: seq<real>,
                           d: nat, kineticMap: bool, i: nat)
    requires ProjectionShapes(X, mean, V, eigenvalues)
    requires i < |X| && X[i] == mean
    ensures forall j :: 0 <= j < Min(d, |eigenvalues|) ==> Transform(X, mean, V, eigenvalues, d, kineticMap)[i][j] == 0.0
  {
    forall j | 0 <= j < Min(d, |eigenvalues|)
      ensures Transform(X, mean, V, eigenvalues, d, kineticMap)[i][j] == 0.0
    {
      DotZero(MeanFree(X[i], mean), Column(V, j));
    }
  }

  /** `x + c`, entry by entry. */
  function Plus(x: seq<real>, c: seq<real>): (r: seq<real>)
    requires |x| == |c|
    ensures |r| == |x| && forall k :: 0 <= k < |x| ==> r[k] == x[k] + c[k]
  {
    seq(|x|, k requires 0 <= k < |x| => x[k] + c[k])
  }

  /** Shifting every data row and the mean by the same vector leaves the
      projection unchanged: only mean-free data is projected. */
  lemma TransformShiftInvariant(X: seq<seq<real>>, mean: seq<real>, V: seq<seq<real>>, eigenvalues: seq<real>,
                                d: nat, kineticMap: bool, c: seq<real>)
    requires ProjectionShapes(X, mean, V, eigenvalues) && |c| == |mean|
    ensures var Xs := seq(|X|, i requires 0 <= i < |X| => Plus(X[i], c));
            ProjectionShapes(Xs, Plus(mean, c), V, eigenvalues)
            && Transform(Xs, Plus(mean, c), V, eigenvalues, d, kineticMap)
               == Transform(X, mean, V, eigenvalues, d, kineticMap)
  {
    var Xs := seq(|X|, i requires 0 <= i < |X| => Plus(X[i], c));
    forall i | 0 <= i < |X|
      ensures MeanFree(Xs[i], Plus(mean, c)) == MeanFree(X[i], mean)
    {
    }
  }

  // ---------------------------------------------------------------------------
  // The estimator object
  // ---------------------------------------------------------------------------

  /** One chunk of the lagged iterator: instantaneous rows `x` and the rows
      `y` one lag later. */
  datatype Chunk = Chunk(x: seq<seq<real>>, y: seq<seq<real>>)

  /** What `running_covar` reports once every chunk is added. */
  datatype Moments = Moments(mean: seq<real>, cov: seq<seq<real>>, covTau: seq<seq<real>>)

  /** What `eig_corr` returns. */
  datatype EigenPairs = EigenPairs(values: seq<real>, vectors: seq<seq<real>>)

  /** What the data source reports: its dimension, each trajectory's length
      (`trajectory_length(i)`), the lengths at the configured stride
      (`trajectory_lengths(stride)`), the iterator's chunk count and the
      chunks it yields, in order. */
  datatype DataSource = DataSource(dimension: int, lengths: seq<nat>, stridedLengths: seq<nat>,
                                   nChunks: nat, chunks: seq<Chunk>)

  /** The checks `_estimate` makes before changing anything: the input
      dimension must be positive and no smaller than `dim`, and some
      trajectory (at the configured stride) must be longer than the lag. */
  predicate Admissible(source: DataSource, lag: int, dim: int)
  {
    source.dimension > 0 && dim <= source.dimension && SomeLongerThanLag(source.stridedLengths, lag)
  }

  /** The error the first failing check raises, if any. */
  function Preflight(source: DataSource, lag: int, dim: int): (r: Option<Error>)
    ensures r.None? <==> Admissible(source, lag, dim)
    ensures source.dimension <= 0 ==> r == Some(AssertionError(ZeroInputDimension))
    ensures source.dimension > 0 && dim > source.dimension ==> r == Some(AssertionError(DimExceedsInput))
    ensures source.dimension > 0 && dim <= source.dimension && !SomeLongerThanLag(source.stridedLengths, lag)
            ==> r == Some(ValueError(NoTrajectoryLongerThanLag))
  {
    if source.dimension <= 0 then Some(AssertionError(ZeroInputDimension))
    else if dim > source.dimension then Some(AssertionError(DimExceedsInput))
    else if !SomeLongerThanLag(source.stridedLengths, lag) then Some(ValueError(NoTrajectoryLongerThanLag))
    else None
  }

  /** The moments of the chunks and the eigen-decomposition `eig_corr`
      makes of them, or the exception the first of the two raises. */
  function Fit(chunks: seq<Chunk>, moments: seq<Chunk> -> Result<Moments, Error>,
               eigCorr: (seq<seq<real>>, seq<seq<real>>, real) -> Result<EigenPairs, Error>,
               epsilon: real): Result<(Moments, EigenPairs), Error>
  {
    match moments(chunks)
    case Failure(e) => Failure(e)
    case Success(m) =>
      match eigCorr(m.cov, m.covTau, epsilon)
      case Failure(e) => Failure(e)
      case Success(p) => Success((m, p))
  }

  /** The streaming moment accumulator; only the sequence of chunks it has
      been given is modelled, the moments are a function of that sequence. */
  class RunningCovar {
    const nsave: nat
    var added: seq<Chunk>

    constructor (nsave: nat)
      ensures this.nsave == nsave && added == []
    {
      this.nsave := nsave;
      added := [];
    }

    method Add(c: Chunk)
      modifies this
      ensures added == old(added) + [c]
    {
      added := added + [c];
    }

    /** Feeds the chunks one by one, in order. */
    method AddAll(chunks: seq<Chunk>)
      modifies this
      ensures added == old(added) + chunks
    {
      var i := 0;
      while i < |chunks|
        invariant 0 <= i <= |chunks|
        invariant added == old(added) + chunks[..i]
      {
        Add(chunks[i]);
        assert chunks[..i + 1] == chunks[..i] + [chunks[i]];
        i := i + 1;
      }
      assert chunks[..i] == chunks;
    }
  }

  /** The chunk loop of `_estimate`: a fresh accumulator keeping `nsave`
      moments is given every chunk, in order; returns what it was given. */
  method Accumulate(chunks: seq<Chunk>, nsave: nat) returns (fed: seq<Chunk>)
    ensures fed == chunks
  {
    var covar := new RunningCovar(nsave);
    covar.AddAll(chunks);
    assert covar.added == [] + chunks == chunks;
    fed := covar.added;
  }

  class Tica {
    // parameters, fixed at construction
    const lag: int
    const dim: int
    const varCutoff: real
    const kineticMap: bool
    const epsilon: real
    const stride: int
    // state of the last estimation
    var skippedTrajs: seq<nat>
    var estimated: bool
    // the model
    var mean: Option<seq<real>>
    var cov: seq<seq<real>>
    var covTau: seq<seq<real>>
    var eigenvalues: seq<real>
    var eigenvectors: seq<seq<real>>
    var cumvar: seq<Float>

    /** An estimated model holds a non-empty eigenvalue vector, its cumvar
        and a mean. */
    ghost predicate Valid()
      reads this
    {
      estimated ==> eigenvalues != [] && CumVar(eigenvalues) == Success(cumvar) && mean.Some?
    }

    /** `__init__` for parameters it accepts (`StoredVarCutoff` succeeds). */
    constructor (lag: int, dim: int, varCutoff: real, kineticMap: bool, epsilon: real,
                 mean: Option<seq<real>>, stride: int)
      requires StoredVarCutoff(dim, varCutoff).Success?
      ensures Valid() && !estimated && skippedTrajs == []
      ensures this.lag == lag && this.dim == dim && this.kineticMap == kineticMap
      ensures this.epsilon == epsilon && this.mean == mean && this.stride == stride
      ensures this.varCutoff == StoredVarCutoff(dim, varCutoff).value
    {
      this.lag := lag;
      this.dim := dim;
      this.varCutoff := StoredVarCutoff(dim, varCutoff).value;
      this.kineticMap := kineticMap;
      this.epsilon := epsilon;
      this.mean := mean;
      this.stride := stride;
      skippedTrajs := [];
      estimated := false;
      cov, covTau, eigenvalues, eigenvectors, cumvar := [], [], [], [], [];
    }

    /** `TICA(...)`: the constructor, or the `ValueError` it raises. */
    static method New(lag: int, dim: int, varCutoff: real, kineticMap: bool, epsilon: real,
                      mean: Option<seq<real>>, stride: int) returns (r: Result<Tica, Error>)
      ensures r.Failure? <==> dim != DefaultDim && varCutoff != DefaultVarCutoff
      ensures r.Failure? ==> r.error == ValueError(BothDimAndVarCutoff)
      ensures r.Success? ==> fresh(r.value) && r.value.Valid() && !r.value.estimated
      ensures r.Success? ==> r.value.dim == dim && r.value.varCutoff == (if dim > -1 then 1.0 else varCutoff)
      ensures r.Success? ==> r.value.lag == lag && r.value.kineticMap == kineticMap && r.value.epsilon == epsilon
                             && r.value.mean == mean && r.value.stride == stride && r.value.skippedTrajs == []
    {
      var stored := StoredVarCutoff(dim, varCutoff);
      if stored.Failure? {
        return Failure(stored.error);
      }
      var t := new Tica(lag, dim, varCutoff, kineticMap, epsilon, mean, stride);
      return Success(t);
    }

    /** `dimension()`; `producerDim` is what the data producer reports, and
        is consulted only before estimation with all dimensions requested. */
    function Dimension(producerDim: nat): (r: Result<int, Error>)
      reads this
      ensures dim > -1 ==> r == Success(dim)
      ensures dim < -1 && !estimated ==> r == Success(dim)
      ensures dim <= -1 && estimated ==> r.Success? && r.value == EstimatedDimension(eigenvalues, cumvar, varCutoff)
      ensures dim == -1 && !estimated ==> (r.Success? <==> varCutoff == 1.0)
      ensures dim == -1 && !estimated && varCutoff == 1.0 ==> r == Success(producerDim)
      ensures r.Failure? ==> r.error == RuntimeError
    {
      if dim > -1 then Success(dim)
      else if dim != -1 && !estimated then Success(dim)
      else if estimated then Success(EstimatedDimension(eigenvalues, cumvar, varCutoff))
      else if varCutoff == 1.0 then Success(producerDim)
      else Failure(RuntimeError)
    }

    /** An estimated object always knows its dimension, which is never
        negative, and with `dim` unset lies between 1 and the number of
        eigenvalues. */
    lemma EstimatedDimensionBounds(producerDim: nat)
      requires Valid() && estimated
      ensures Dimension(producerDim).Success? && Dimension(producerDim).value >= 0
      ensures dim <= -1 ==> 1 <= Dimension(producerDim).value <= |eigenvalues|
    {
    }

    /** `_transform_array(X)` of an estimated object. */
    function TransformArray(X: seq<seq<real>>, producerDim: nat): (Y: seq<seq<real>>)
      reads this
      requires Valid() && estimated
      requires ProjectionShapes(X, mean.value, eigenvectors, eigenvalues)
      ensures Dimension(producerDim).Success? && Dimension(producerDim).value >= 0
      ensures |Y| == |X|
      ensures forall i :: 0 <= i < |X| ==> |Y[i]| == Min(Dimension(producerDim).value, |eigenvalues|)
      ensures kineticMap ==> forall i, j :: 0 <= i < |X| && 0 <= j < Min(Dimension(producerDim).value, |eigenvalues|) ==>
        Y[i][j] == Transform(X, mean.value, eigenvectors, eigenvalues, |eigenvalues|, false)[i][j] * eigenvalues[j]
      ensures !kineticMap ==> forall i, j :: 0 <= i < |X| && 0 <= j < Min(Dimension(producerDim).value, |eigenvalues|) ==>
        Y[i][j] == Transform(X, mean.value, eigenvectors, eigenvalues, |eigenvalues|, false)[i][j]
    {
      var d := Dimension(producerDim).value;
      assert d >= 0;
      Transform(X, mean.value, eigenvectors, eigenvalues, d, kineticMap)
    }

    /** `_estimate(iterable)`, followed by the estimated flag the caller sets
        once it returns. `moments` and `eigCorr` stand for `running_covar`
        and `eig_corr`; either may raise, and its exception is passed on. */
    method Estimate(source: DataSource, moments: seq<Chunk> -> Result<Moments, Error>,
                    eigCorr: (seq<seq<real>>, seq<seq<real>>, real) -> Result<EigenPairs, Error>)
      returns (r: Result<(), Error>)
      requires Valid()
      modifies this
      ensures Valid()
      // the checks made before anything changes
      ensures Preflight(source, lag, dim).Some? ==> r == Failure(Preflight(source, lag, dim).value)
      ensures !Admissible(source, lag, dim) ==> skippedTrajs == old(skippedTrajs)
      // once they pass, the skipped trajectories are recorded, whatever happens next
      ensures Admissible(source, lag, dim) ==> skippedTrajs == SkippedIndices(source.lengths, lag)
      ensures Admissible(source, lag, dim) && source.nChunks == 0 ==> r == Failure(ValueError(LogOfZero))
      ensures Admissible(source, lag, dim) && source.nChunks > 0 && Fit(source.chunks, moments, eigCorr, epsilon).Failure?
              ==> r == Failure(Fit(source.chunks, moments, eigCorr, epsilon).error)
      ensures Admissible(source, lag, dim) && source.nChunks > 0 && Fit(source.chunks, moments, eigCorr, epsilon).Success?
              && Fit(source.chunks, moments, eigCorr, epsilon).value.1.values == []
              ==> r == Failure(IndexError)
      ensures r.Success? <==> Admissible(source, lag, dim) && source.nChunks > 0
                              && Fit(source.chunks, moments, eigCorr, epsilon).Success?
                              && Fit(source.chunks, moments, eigCorr, epsilon).value.1.values != []
      // a failed estimation leaves the model as it was
      ensures r.Failure? ==> estimated == old(estimated) && mean == old(mean) && eigenvalues == old(eigenvalues)
                             && eigenvectors == old(eigenvectors) && cumvar == old(cumvar)
                             && cov == old(cov) && covTau == old(covTau)
      // on success the model holds the moments of all chunks, in order, and their eigen-decomposition
      ensures r.Success? ==> var (m, e) := Fit(source.chunks, moments, eigCorr, epsilon).value;
                             estimated && mean == Some(m.mean) && cov == m.cov && covTau == m.covTau
                             && eigenvalues == e.values && eigenvectors == e.vectors
                             && cumvar == CumVar(e.values).value
    {
      var failed := Preflight(source, lag, dim);
      if failed.Some? {
        return Failure(failed.value);
      }
      skippedTrajs := SkippedIndices(source.lengths, lag);
      r := EstimateFromChunks(source, moments, eigCorr);
    }

    /** The part of `_estimate` after the checks: the accumulator sized by
        `nsave`, the pass over all chunks, the eigen-decomposition and
        cumvar. */
    method EstimateFromChunks(source: DataSource, moments: seq<Chunk> -> Result<Moments, Error>,
                              eigCorr: (seq<seq<real>>, seq<seq<real>>, real) -> Result<EigenPairs, Error>)
      returns (r: Result<(), Error>)
      requires Valid()
      modifies this
      ensures Valid()
      ensures skippedTrajs == old(skippedTrajs)
      ensures source.nChunks == 0 ==> r == Failure(ValueError(LogOfZero))
      ensures source.nChunks > 0 && Fit(source.chunks, moments, eigCorr, epsilon).Failure?
              ==> r == Failure(Fit(source.chunks, moments, eigCorr, epsilon).error)
      ensures source.nChunks > 0 && Fit(source.chunks, moments, eigCorr, epsilon).Success?
              && Fit(source.chunks, moments, eigCorr, epsilon).value.1.values == []
              ==> r == Failure(IndexError)
      ensures r.Success? <==> source.nChunks > 0 && Fit(source.chunks, moments, eigCorr, epsilon).Success?
                              && Fit(source.chunks, moments, eigCorr, epsilon).value.1.values != []
      ensures r.Failure? ==> estimated == old(estimated) && mean == old(mean) && eigenvalues == old(eigenvalues)
                             && eigenvectors == old(eigenvectors) && cumvar == old(cumvar)
                             && cov == old(cov) && covTau == old(covTau)
      ensures r.Success? ==> var (m, e) := Fit(source.chunks, moments, eigCorr, epsilon).value;
                             estimated && mean == Some(m.mean) && cov == m.cov && covTau == m.covTau
                             && eigenvalues == e.values && eigenvectors == e.vectors
                             && cumvar == CumVar(e.values).value
    {
      var nsave := NSave(source.nChunks);
      if nsave.Failure? {
        return Failure(nsave.error);
      }
      var fed := Accumulate(source.chunks, nsave.value);
      var fit := Fit(fed, moments, eigCorr, epsilon);
      if fit.Failure? {
        return Failure(fit.error);
      }
      var (m, eig) := fit.value;
      var cv := CumVar(eig.values);
      if cv.Failure? {
        return Failure(cv.error);
      }
      mean, cov, covTau := Some(m.mean), m.cov, m.covTau;
      eigenvalues, eigenvectors, cumvar := eig.values, eig.vectors, cv.value;
      estimated := true;
      r := Success(());
    }
  }
}
