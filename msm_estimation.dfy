/** The MSM estimation front end: it inspects how a count matrix is stored
    (scipy sparse, numpy dense, or neither), picks one of the numerical
    routines of the `sparse` and `dense` sub-packages, converts the argument
    between the two storages where the routine needs it, and converts the
    result back so that it is stored like the input. The numerical routines
    themselves are not part of this model: a call is described by the
    routine it selects, the matrix it passes and the storage of its result.
    The three priors are defined entry by entry and are modelled in full. */
module MsmEstimation {
  import opened Wrappers

  /** How a matrix argument is stored: `issparse`, `isdense`, or neither. */
  datatype Kind = Sparse | Dense | Unrecognised

  /** A matrix argument: its storage and its logical entries (row major).
      Converting with `csr_matrix(C)` or `C.toarray()` changes the kind and
      keeps the entries. */
  datatype Matrix = Matrix(kind: Kind, entries: seq<seq<real>>)

  /** Why an operation raised `NotImplementedError`. */
  datatype Reason =
    | UnknownMatrixType
    | NonReversibleFixedStationary
    | CoresNotImplemented
    | MappingNotImplemented

  datatype Error = NotImplementedError(reason: Reason)

  /** The only warning of this front end: a prior that is built dense for a
      sparse count matrix. */
  datatype Warning = DensePriorForSparseInput

  /** Default strengths of the three priors. */
  const NeighborPriorDefault: real := 0.001
  const ConstPriorDefault: real := 0.001
  const RevPriorDefault: real := -1.0

  predicate IsSquare(m: seq<seq<real>>)
  {
    forall i :: 0 <= i < |m| ==> |m[i]| == |m|
  }

  function ToCsr(C: Matrix): (r: Matrix)
    ensures r.kind == Sparse && r.entries == C.entries
  {
    Matrix(Sparse, C.entries)
  }

  function ToArray(C: Matrix): (r: Matrix)
    ensures r.kind == Dense && r.entries == C.entries
  {
    Matrix(Dense, C.entries)
  }

  // ---------------------------------------------------------------------------
  // Count matrix
  // ---------------------------------------------------------------------------

  /** A `dtraj` argument, told apart by its Python type: a `list` of
      trajectories, a `list` of states (one trajectory written as a plain
      list), or any other object (an array, a tuple, ...) holding one
      trajectory. Only the exact type `list` selects the multi-trajectory
      routine, whatever the list holds. */
  datatype Trajectories =
    | TrajectoryList(trajs: seq<seq<int>>)
    | StateList(states: seq<int>)
    | NotAList(states: seq<int>)

  /** `type(dtraj) is list`. */
  predicate IsPythonList(dtraj: Trajectories)
  {
    dtraj.TrajectoryList? || dtraj.StateList?
  }

  datatype CountRoutine = CountMatrixMult | CountMatrixSingle

  /** A call of `sparse.count_matrix.<routine>(dtraj, lag, sliding=sliding)`;
      both routines return a sparse (coordinate list) matrix. */
  datatype CountCall = CountCall(routine: CountRoutine, dtraj: Trajectories, lag: int, sliding: bool)

  /** `count_matrix` (and its alias `cmatrix`). */
  function CountMatrix(dtraj: Trajectories, lag: int, sliding: bool): (r: CountCall)
    ensures r.routine == CountMatrixMult <==> IsPythonList(dtraj)
    ensures r.routine == CountMatrixSingle <==> dtraj.NotAList?
    ensures r.dtraj == dtraj && r.lag == lag && r.sliding == sliding
  {
    if IsPythonList(dtraj) then CountCall(CountMatrixMult, dtraj, lag, sliding)
    else CountCall(CountMatrixSingle, dtraj, lag, sliding)
  }

  /** `count_matrix_cores` (and its alias `cmatrix_cores`) always raises. */
  function CountMatrixCores(dtraj: Trajectories, cores: seq<int>, lag: int, sliding: bool): (r: Result<Matrix, Error>)
    ensures r.Failure? && r.error == NotImplementedError(CoresNotImplemented)
  {
    Failure(NotImplementedError(CoresNotImplemented))
  }

  // ---------------------------------------------------------------------------
  // Connectivity
  // ---------------------------------------------------------------------------

  datatype GraphRoutine = ConnectedSetsRoutine | LargestConnectedSetRoutine | LargestConnectedSubmatrixRoutine | IsConnectedRoutine

  /** A call of `sparse.connectivity.<routine>(argument, directed=directed)`. */
  datatype GraphCall = GraphCall(routine: GraphRoutine, argument: Matrix, directed: bool)

  /** The argument every connectivity routine receives: a dense matrix is
      converted to CSR first, anything else is passed unchanged. */
  function GraphArgument(C: Matrix): (r: Matrix)
    ensures r.entries == C.entries
    ensures C.kind == Dense || C.kind == Sparse ==> r.kind == Sparse
    ensures C.kind == Unrecognised ==> r == C
  {
    if C.kind == Dense then ToCsr(C) else C
  }

  function ConnectedSets(C: Matrix, directed: bool): (r: GraphCall)
    ensures r.routine == ConnectedSetsRoutine && r.directed == directed
    ensures r.argument == GraphArgument(C)
  {
    GraphCall(ConnectedSetsRoutine, GraphArgument(C), directed)
  }

  function LargestConnectedSet(C: Matrix, directed: bool): (r: GraphCall)
    ensures r.routine == LargestConnectedSetRoutine && r.directed == directed
    ensures r.argument == GraphArgument(C)
  {
    GraphCall(LargestConnectedSetRoutine, GraphArgument(C), directed)
  }

  function IsConnected(C: Matrix, directed: bool): (r: GraphCall)
    ensures r.routine == IsConnectedRoutine && r.directed == directed
    ensures r.argument == GraphArgument(C)
  {
    GraphCall(IsConnectedRoutine, GraphArgument(C), directed)
  }

  /** `largest_connected_submatrix` (alias `connected_cmatrix`): the routine
      returns CSR; for a dense input it is given CSR and its result is
      converted back with `toarray()`, so a known storage is preserved. */
  datatype SubmatrixCall = SubmatrixCall(call: GraphCall, output: Kind)

  function LargestConnectedSubmatrix(C: Matrix, directed: bool): (r: SubmatrixCall)
    ensures r.call.routine == LargestConnectedSubmatrixRoutine && r.call.directed == directed
    ensures r.call.argument == GraphArgument(C)
    ensures r.output == (if C.kind == Dense then Dense else Sparse)
    ensures C.kind != Unrecognised ==> r.output == C.kind && r.call.argument == ToCsr(C)
  {
    SubmatrixCall(GraphCall(LargestConnectedSubmatrixRoutine, GraphArgument(C), directed),
                  if C.kind == Dense then Dense else Sparse)
  }

  /** `mapping` always raises. */
  function Mapping(states: seq<int>): (r: Result<map<int, int>, Error>)
    ensures r.Failure? && r.error == NotImplementedError(MappingNotImplemented)
  {
    Failure(NotImplementedError(MappingNotImplemented))
  }

  // ---------------------------------------------------------------------------
  // Priors
  // ---------------------------------------------------------------------------

  /** A prior count matrix together with the warnings issued while building it. */
  datatype Prior = Prior(matrix: Matrix, warnings: seq<Warning>)

  /** The neighbour prior: `alpha` where `C + C^T` is positive, 0 elsewhere;
      built by the sparse routine, and converted back to an array for a
      dense input (which goes to the routine as CSR). */
  function PriorNeighbor(C: Matrix, alpha: real): (r: Prior)
    requires IsSquare(C.entries)
    ensures r.warnings == []
    ensures r.matrix.kind == (if C.kind == Dense then Dense else Sparse)
    ensures |r.matrix.entries| == |C.entries| && IsSquare(r.matrix.entries)
    ensures forall i, j :: 0 <= i < |C.entries| && 0 <= j < |C.entries| ==>
      r.matrix.entries[i][j] == (if C.entries[i][j] + C.entries[j][i] > 0.0 then alpha else 0.0)
  {
    var c, n := C.entries, |C.entries|;
    var b := seq(n, i requires 0 <= i < n =>
               seq(n, j requires 0 <= j < n => if c[i][j] + c[j][i] > 0.0 then alpha else 0.0));
    Prior(Matrix(if C.kind == Dense then Dense else Sparse, b), [])
  }

  /** The constant prior: `alpha` everywhere, always dense; warns exactly
      when the input is not dense. */
  function PriorConst(C: Matrix, alpha: real): (r: Prior)
    requires IsSquare(C.entries)
    ensures r.warnings == (if C.kind == Dense then [] else [DensePriorForSparseInput])
    ensures r.matrix.kind == Dense
    ensures |r.matrix.entries| == |C.entries| && IsSquare(r.matrix.entries)
    ensures forall i, j :: 0 <= i < |C.entries| && 0 <= j < |C.entries| ==> r.matrix.entries[i][j] == alpha
  {
    var n := |C.entries|;
    var b := seq(n, i requires 0 <= i < n => seq(n, j requires 0 <= j < n => alpha));
    Prior(Matrix(Dense, b), if C.kind == Dense then [] else [DensePriorForSparseInput])
  }

  /** One row of the reversible prior: `alpha` from column `i` on. */
  function RevRow(n: nat, i: nat, alpha: real): (r: seq<real>)
    ensures |r| == n
    ensures forall j :: 0 <= j < n ==> r[j] == (if i <= j then alpha else 0.0)
  {
    seq(n, j requires 0 <= j < n => if i <= j then alpha else 0.0)
  }

  /** The reversible prior: `alpha` on and above the diagonal, 0 below;
      always dense; warns exactly when the input is not dense. */
  function PriorRev(C: Matrix, alpha: real): (r: Prior)
    requires IsSquare(C.entries)
    ensures r.warnings == (if C.kind == Dense then [] else [DensePriorForSparseInput])
    ensures r.matrix.kind == Dense
    ensures |r.matrix.entries| == |C.entries| && IsSquare(r.matrix.entries)
    ensures forall i, j :: 0 <= i < |C.entries| && 0 <= j < |C.entries| ==>
      r.matrix.entries[i][j] == (if i <= j then alpha else 0.0)
  {
    var n := |C.entries|;
    Prior(Matrix(Dense, seq(n, i requires 0 <= i < n => RevRow(n, i, alpha))),
          if C.kind == Dense then [] else [DensePriorForSparseInput])
  }

  /** The neighbour prior only looks at `C + C^T`, so it is symmetric. */
  lemma PriorNeighborSymmetric(C: Matrix, alpha: real, i: nat, j: nat)
    requires IsSquare(C.entries)
    requires i < |C.entries| && j < |C.entries|
    ensures PriorNeighbor(C, alpha).matrix.entries[i][j] == PriorNeighbor(C, alpha).matrix.entries[j][i]
    ensures PriorNeighbor(C, alpha).matrix.entries[i][j] != 0.0 ==> C.entries[i][j] + C.entries[j][i] > 0.0
  {
  }

  /** With their default strengths, the neighbour and constant priors add
      0.001 where they add anything, and the reversible prior adds -1 to
      each entry of the upper triangle. */
  lemma DefaultPriorStrengths(C: Matrix, i: nat, j: nat)
    requires IsSquare(C.entries) && i < |C.entries| && j < |C.entries|
    ensures PriorNeighbor(C, NeighborPriorDefault).matrix.entries[i][j]
            == (if C.entries[i][j] + C.entries[j][i] > 0.0 then 0.001 else 0.0)
    ensures PriorConst(C, ConstPriorDefault).matrix.entries[i][j] == 0.001
    ensures PriorRev(C, RevPriorDefault).matrix.entries[i][j] == (if i <= j then -1.0 else 0.0)
  {
  }

  function RowSum(row: seq<real>): real
  {
    if row == [] then 0.0 else row[0] + RowSum(row[1..])
  }

  function Total(m: seq<seq<real>>): real
  {
    if m == [] then 0.0 else RowSum(m[0]) + Total(m[1..])
  }

  lemma {:induction false} RowSumAppend(row: seq<real>, x: real)
    ensures RowSum(row + [x]) == RowSum(row) + x
  {
    if row != [] {
      assert (row + [x])[1..] == row[1..] + [x];
      RowSumAppend(row[1..], x);
    }
  }

  /** Row `i` of the reversible prior adds `alpha` once per column `j >= i`. */
  lemma {:induction false} RevRowSum(n: nat, i: nat, alpha: real)
    requires i <= n
    ensures RowSum(RevRow(n, i, alpha)) == alpha * (n - i) as real
  {
    if i == n {
      ZeroRowSum(RevRow(n, i, alpha));
    } else {
      assert RevRow(n, i, alpha) == RevRow(n - 1, i, alpha) + [alpha];
      RevRowSum(n - 1, i, alpha);
      RowSumAppend(RevRow(n - 1, i, alpha), alpha);
    }
  }

  lemma {:induction false} ZeroRowSum(row: seq<real>)
    requires forall j :: 0 <= j < |row| ==> row[j] == 0.0
    ensures RowSum(row) == 0.0
  {
    if row != [] {
      ZeroRowSum(row[1..]);
    }
  }

  /** The reversible prior adds `alpha` to each of the `n(n+1)/2` entries of
      the upper triangle and nothing else: its total is `alpha n(n+1)/2`. */
  lemma {:induction false} PriorRevTotal(C: Matrix, alpha: real)
    requires IsSquare(C.entries)
    ensures 2.0 * Total(PriorRev(C, alpha).matrix.entries) == alpha * (|C.entries| as real) * (|C.entries| as real + 1.0)
  {
    var n := |C.entries|;
    RevRowsTotal(n, 0, alpha);
    assert PriorRev(C, alpha).matrix.entries == RevRows(n, 0, alpha);
  }

  /** Rows `lo..n` of the reversible prior of size `n`. */
  function RevRows(n: nat, lo: nat, alpha: real): (r: seq<seq<real>>)
    requires lo <= n
    ensures |r| == n - lo
    ensures forall k :: 0 <= k < n - lo ==> r[k] == RevRow(n, lo + k, alpha)
  {
    seq(n - lo, k requires 0 <= k < n - lo => RevRow(n, lo + k, alpha))
  }

  lemma {:induction false} RevRowsTotal(n: nat, lo: nat, alpha: real)
    requires lo <= n
    ensures 2.0 * Total(RevRows(n, lo, alpha)) == alpha * ((n - lo) as real) * ((n - lo) as real + 1.0)
    decreases n - lo
  {
    if lo < n {
      var rows := RevRows(n, lo, alpha);
      var m := (n - lo) as real;
      RevRowsTotal(n, lo + 1, alpha);
      assert rows[1..] == RevRows(n, lo + 1, alpha);
      RevRowSum(n, lo, alpha);
      var head, rest := RowSum(rows[0]), Total(rows[1..]);
      assert head == alpha * m;
      assert 2.0 * rest == alpha * (m - 1.0) * m;
      assert Total(rows) == head + rest;
      calc {
        2.0 * Total(rows);
        2.0 * (alpha * m) + alpha * (m - 1.0) * m;
        alpha * m * (m + 1.0);
      }
    }
  }

  // ---------------------------------------------------------------------------
  // Transition matrix
  // ---------------------------------------------------------------------------

  /** The estimators the dispatch can select:
      `dense.transition_matrix.estimate_transition_matrix_reversible`,
      `dense.transition_matrix.transition_matrix_reversible_fixpi`,
      `sparse.transition_matrix.transition_matrix_non_reversible`,
      `dense.transition_matrix.transition_matrix_non_reversible`. */
  datatype Estimator = ReversibleFreePi | ReversibleFixedPi | SparseNonReversible | DenseNonReversible

  /** A call of `estimator(argument[, mu])`, whose result is stored as `output`. */
  datatype Estimation = Estimation(estimator: Estimator, argument: Matrix, mu: Option<seq<real>>, output: Kind)

  /** `issparse` is tested first, then `isdense`; anything else is refused. */
  function SparseMode(C: Matrix): (r: Result<bool, Error>)
    ensures r.Success? <==> C.kind != Unrecognised
    ensures r.Success? ==> (r.value <==> C.kind == Sparse)
    ensures r.Failure? ==> r.error == NotImplementedError(UnknownMatrixType)
  {
    match C.kind
    case Sparse => Success(true)
    case Dense => Success(false)
    case Unrecognised => Failure(NotImplementedError(UnknownMatrixType))
  }

  /** `transition_matrix` (alias `tmatrix`). */
  function TransitionMatrix(C: Matrix, reversible: bool, mu: Option<seq<real>>): (r: Result<Estimation, Error>)
    // refused before any estimation: unknown storage, or nonreversible with a fixed mu
    ensures C.kind == Unrecognised ==> r == Failure(NotImplementedError(UnknownMatrixType))
    ensures C.kind != Unrecognised && !reversible && mu.Some? ==> r == Failure(NotImplementedError(NonReversibleFixedStationary))
    ensures r.Success? <==> C.kind != Unrecognised && (reversible || mu.None?)
    // which estimator: reversible with free pi, reversible with fixed pi, or nonreversible
    ensures r.Success? ==> (r.value.estimator == ReversibleFreePi <==> reversible && mu.None?)
    ensures r.Success? ==> (r.value.estimator == ReversibleFixedPi <==> reversible && mu.Some?)
    ensures r.Success? ==> (r.value.estimator in {SparseNonReversible, DenseNonReversible} <==> !reversible)
    ensures r.Success? && !reversible ==> (r.value.estimator == SparseNonReversible <==> C.kind == Sparse)
    // the estimator sees the counts and mu unchanged, converted to dense where it is a dense routine
    ensures r.Success? ==> r.value.argument.entries == C.entries && r.value.mu == mu
    ensures r.Success? ==> r.value.argument.kind == (if r.value.estimator == SparseNonReversible then Sparse else Dense)
    // the result is stored like the input
    ensures r.Success? ==> r.value.output == C.kind
  {
    match SparseMode(C)
    case Failure(e) => Failure(e)
    case Success(sparseMode) =>
      if reversible then
        var estimator := if mu.None? then ReversibleFreePi else ReversibleFixedPi;
        if sparseMode then Success(Estimation(estimator, ToArray(C), mu, Sparse))
        else Success(Estimation(estimator, C, mu, Dense))
      else if mu.None? then
        if sparseMode then Success(Estimation(SparseNonReversible, C, mu, Sparse))
        else Success(Estimation(DenseNonReversible, C, mu, Dense))
      else
        Failure(NotImplementedError(NonReversibleFixedStationary))
  }
}
