/**
  The weighted regression engine: the constructor pipeline (validation,
  default options, training size, data preparation, fit, transform, metrics),
  the data-preparation dispatch, the fitting step's layout, intercept and
  decomposition choices, and the prediction loop exactly as written.

  Code outside the modelled files (the validation helper, the data splitter,
  a normalization strategy's dataset-level preparation and the linear-algebra
  solve) is passed in as functions whose results the model does not constrain.
 */
module Regression {
  import opened Wrappers
  import opened Matrices

  /** How the input arrays are read: one array per column or one per row.  An enum value outside the two names is `UnrecognisedLayout`. */
  datatype MatrixLayout = ColumnArrays | RowArrays | UnrecognisedLayout(code: int)

  /** The decomposition used to solve the normal equations.  An enum value outside the six names is `UnrecognisedDecomposition`. */
  datatype MatrixDecomposition =
    | Cholesky | Evd | GramSchmidt | Lu | Qr | Svd
    | UnrecognisedDecomposition(code: int)

  /** Training inputs and outputs, then held-out ("out of sample") inputs and outputs. */
  datatype Split = Split(trainingInputs: seq<seq<real>>, trainingOutputs: seq<real>,
                         oosInputs: seq<seq<real>>, oosOutputs: seq<real>)

  /** A configured normalization strategy, seen through its dataset-level `PrepareData`; `None` means it threw. */
  datatype Normalization = Normalization(prepareData: (seq<seq<real>>, seq<real>, int) -> Option<Split>)

  datatype MultipleRegressionOptions = MultipleRegressionOptions(
    trainingPctSize: real,
    normalization: Option<Normalization>,
    matrixLayout: MatrixLayout,
    matrixDecomposition: MatrixDecomposition,
    useIntercept: bool)

  /** The options used when the caller supplies none. */
  const DefaultOptions := MultipleRegressionOptions(100.0, None, ColumnArrays, Cholesky, false)

  /** The validation helper's checks. */
  datatype Check =
    | CheckForNullItems | CheckForInvalidInputSize | CheckForInvalidWeights
    | CheckForInvalidTrainingPctSize | CheckForInvalidTrainingSizes

  /** The exceptions that abort construction. */
  datatype RegressionError =
    | ValidationFailed(check: Check)  // a validation helper threw
    | IndexOutOfRange                 // an array index past the end
    | NormalizationFailed             // the normalization strategy threw
    | MatrixShape                     // the matrix library refused an empty or ragged array set
    | DimensionMismatch               // matrix and vector dimensions disagree
    | SolverFailure                   // the decomposition could not solve the system

  /**
    Solves the weighted normal equations (X^T W X) b = X^T W y with the named
    decomposition, given X, the diagonal of W and y; `None` means it threw.
   */
  type Solver = (MatrixDecomposition, Matrix, seq<real>, seq<real>) -> Option<seq<real>>

  /** The collaborators the constructor calls: each validation check (true when it passes), the data splitter and the solver. */
  datatype Collaborators = Collaborators(
    checkForNullItems: (seq<seq<real>>, seq<real>) -> bool,
    checkForInvalidInputSize: (int, int) -> bool,
    checkForInvalidWeights: seq<real> -> bool,
    checkForInvalidTrainingPctSize: real -> bool,
    checkForInvalidTrainingSizes: (int, int, int, real) -> bool,
    splitData: (seq<seq<real>>, seq<real>, int) -> Split,
    solve: Solver)

  /** The arguments the metrics object is created from. */
  datatype MetricsInputs = MetricsInputs(predictions: seq<real>, actual: seq<real>, sampleCount: int)

  /** The state a successfully constructed regression exposes. */
  datatype Model = Model(weights: seq<real>, options: MultipleRegressionOptions, coefficients: seq<real>,
                         yIntercept: real, predictions: seq<real>, metrics: Option<MetricsInputs>)

  function Max(a: int, b: int): int {
    if a < b then b else a
  }

  /** The supplied options, or the defaults when none are supplied. */
  function ResolveOptions(supplied: Option<MultipleRegressionOptions>): (options: MultipleRegressionOptions)
    ensures supplied.Some? ==> options == supplied.value
    ensures supplied.None? ==> options == DefaultOptions
  {
    match supplied
    case Some(o) => o
    case None => DefaultOptions
  }

  /**
    The training and held-out sizes handed to the size check: the training
    size is the percentage of the sample count, rounded down, and the
    held-out size is the rest.
   */
  function TrainingSizes(inputSize: nat, trainingPctSize: real): (sizes: (int, int))
    ensures sizes.0 as real <= inputSize as real * trainingPctSize / 100.0 < sizes.0 as real + 1.0
    ensures sizes.0 + sizes.1 == inputSize
    ensures 0.0 <= trainingPctSize <= 100.0 ==> 0 <= sizes.0 <= inputSize && 0 <= sizes.1 <= inputSize
  {
    var exact := inputSize as real * trainingPctSize / 100.0;
    assert 0.0 <= trainingPctSize <= 100.0 ==> 0.0 <= exact <= inputSize as real by {
      if 0.0 <= trainingPctSize <= 100.0 {
        var n := inputSize as real;
        assert 0.0 <= n * trainingPctSize;
        assert n * trainingPctSize <= n * 100.0;
        assert exact == n * trainingPctSize / 100.0;
      }
    }
    var trainingSize := exact.Floor;
    (trainingSize, inputSize - trainingSize)
  }

  /** The data preparation: the strategy's own preparation when one is configured, otherwise the plain split. */
  function PrepareData(inputs: seq<seq<real>>, outputs: seq<real>, trainingSize: int,
                       normalization: Option<Normalization>,
                       splitData: (seq<seq<real>>, seq<real>, int) -> Split): (r: Option<Split>)
    ensures normalization.None? ==> r == Some(splitData(inputs, outputs, trainingSize))
    ensures normalization.Some? ==> r == normalization.value.prepareData(inputs, outputs, trainingSize)
  {
    match normalization
    case Some(n) => n.prepareData(inputs, outputs, trainingSize)
    case None => Some(splitData(inputs, outputs, trainingSize))
  }

  /** The decomposition the fit actually runs: the configured one, or Cholesky for an unrecognised value. */
  function SolverKind(d: MatrixDecomposition): (k: MatrixDecomposition)
    ensures !k.UnrecognisedDecomposition?
    ensures d.UnrecognisedDecomposition? ==> k == Cholesky
    ensures !d.UnrecognisedDecomposition? ==> k == d
  {
    match d
    case Cholesky => Cholesky
    case Evd => Evd
    case GramSchmidt => GramSchmidt
    case Lu => Lu
    case Qr => Qr
    case Svd => Svd
    case UnrecognisedDecomposition(_) => Cholesky
  }

  /** The matrix built from the inputs before any intercept: by rows for `RowArrays`, by columns otherwise. */
  function BaseMatrix(layout: MatrixLayout, inputs: seq<seq<real>>): Matrix
    requires Rectangular(inputs)
  {
    match layout
    case ColumnArrays => DenseOfColumnArrays(inputs)
    case RowArrays => DenseOfRowArrays(inputs)
    case UnrecognisedLayout(_) => DenseOfColumnArrays(inputs)
  }

  /**
    The design matrix X.  With an intercept, `ColumnArrays` gains a first
    column of ones and every other layout, an unrecognised one included, a
    first row of ones; the ones vector has one entry per output.
   */
  function DesignMatrix(layout: MatrixLayout, useIntercept: bool, inputs: seq<seq<real>>, outputs: seq<real>)
    : (r: Result<Matrix, RegressionError>)
    ensures !Rectangular(inputs) ==> r == Failure(MatrixShape)
    ensures r.Failure? && Rectangular(inputs) ==> r.error == DimensionMismatch
    ensures r.Success? ==> r.value.Valid()
    // no intercept: the inputs as given, as rows or as columns
    ensures Rectangular(inputs) && !useIntercept ==>
      r.Success? &&
      (layout.RowArrays? ==> r.value == DenseOfRowArrays(inputs)) &&
      (!layout.RowArrays? ==> r.value == DenseOfColumnArrays(inputs))
    // column layout: a first column of ones, input array j in column j + 1
    ensures Rectangular(inputs) && useIntercept && layout.ColumnArrays? ==>
      (r.Success? <==> |outputs| == |inputs[0]|) &&
      (r.Success? ==>
        r.value.rowCount == |inputs[0]| && r.value.columnCount == |inputs| + 1 &&
        (forall i :: 0 <= i < |inputs[0]| ==> r.value.rows[i][0] == 1.0) &&
        (forall i, j :: 0 <= i < |inputs[0]| && 0 <= j < |inputs| ==> r.value.rows[i][j + 1] == inputs[j][i]))
    // row layout: a first row of ones, input array i in row i + 1
    ensures Rectangular(inputs) && useIntercept && layout.RowArrays? ==>
      (r.Success? <==> |outputs| == |inputs[0]|) &&
      (r.Success? ==>
        r.value.rowCount == |inputs| + 1 && r.value.columnCount == |inputs[0]| &&
        (forall j :: 0 <= j < |inputs[0]| ==> r.value.rows[0][j] == 1.0) &&
        (forall i, j :: 0 <= i < |inputs| && 0 <= j < |inputs[0]| ==> r.value.rows[i + 1][j] == inputs[i][j]))
    // unrecognised layout: built by columns, yet the ones go in as a first row
    ensures Rectangular(inputs) && useIntercept && layout.UnrecognisedLayout? ==>
      (r.Success? <==> |outputs| == |inputs|) &&
      (r.Success? ==>
        r.value.rowCount == |inputs[0]| + 1 && r.value.columnCount == |inputs| &&
        (forall j :: 0 <= j < |inputs| ==> r.value.rows[0][j] == 1.0) &&
        (forall i, j :: 0 <= i < |inputs[0]| && 0 <= j < |inputs| ==> r.value.rows[i + 1][j] == inputs[j][i]))
  {
    if !Rectangular(inputs) then Failure(MatrixShape)
    else
      var m := BaseMatrix(layout, inputs);
      if !useIntercept then Success(m)
      else if layout.ColumnArrays? then
        if |outputs| == m.rowCount then Success(InsertFirstColumn(m, Ones(|outputs|))) else Failure(DimensionMismatch)
      else
        if |outputs| == m.columnCount then Success(InsertFirstRow(m, Ones(|outputs|))) else Failure(DimensionMismatch)
  }

  /**
    What the fit computes: the design matrix, then W X and W y with W the
    diagonal of every weight (the product needs one weight per row of X and
    one per output), then the solve with the chosen decomposition.
   */
  function FitSolution(options: MultipleRegressionOptions, weights: seq<real>,
                       inputs: seq<seq<real>>, outputs: seq<real>, solve: Solver)
    : (r: Result<seq<real>, RegressionError>)
    ensures var x := DesignMatrix(options.matrixLayout, options.useIntercept, inputs, outputs);
      r.Success? <==>
        x.Success? && |weights| == x.value.rowCount && |weights| == |outputs| &&
        solve(SolverKind(options.matrixDecomposition), x.value, weights, outputs).Some?
    ensures var x := DesignMatrix(options.matrixLayout, options.useIntercept, inputs, outputs);
      x.Failure? ==> r == Failure(x.error)
    ensures var x := DesignMatrix(options.matrixLayout, options.useIntercept, inputs, outputs);
      x.Success? && (|weights| != x.value.rowCount || |weights| != |outputs|) ==> r == Failure(DimensionMismatch)
    ensures var x := DesignMatrix(options.matrixLayout, options.useIntercept, inputs, outputs);
      x.Success? && |weights| == x.value.rowCount && |weights| == |outputs| ==>
        match solve(SolverKind(options.matrixDecomposition), x.value, weights, outputs)
        case None => r == Failure(SolverFailure)
        case Some(beta) => r == Success(beta)
  {
    var x := DesignMatrix(options.matrixLayout, options.useIntercept, inputs, outputs);
    if x.Failure? then Failure(x.error)
    else if |weights| != x.value.rowCount || |weights| != |outputs| then Failure(DimensionMismatch)
    else
      match solve(SolverKind(options.matrixDecomposition), x.value, weights, outputs)
      case None => Failure(SolverFailure)
      case Some(beta) => Success(beta)
  }

  /**
    The value of `j` at which the prediction loop's inner loop, started at
    `j`, stops: the first `k` with `inputs[k].Length <= k`.  `None` when the
    guard would read past the last array.
   */
  function InnerLoopExit(inputs: seq<seq<real>>, j: nat): (r: Option<nat>)
    decreases |inputs| - j
    ensures r.Some? ==>
      j <= r.value < |inputs| && |inputs[r.value]| <= r.value &&
      forall k :: j <= k < r.value ==> k < |inputs[k]|
    ensures r.None? ==> forall k :: j <= k < |inputs| ==> k < |inputs[k]|
  {
    if j >= |inputs| then None
    else if |inputs[j]| <= j then Some(j)
    else InnerLoopExit(inputs, j + 1)
  }

  /**
    The prediction loop runs without an index fault exactly when: there is a
    first array (the result's length), the inner guard stops before reading
    past the last array, every array is long enough for the samples the
    inner loop visits, and there is a coefficient for every array whenever
    the inner loop's body runs at all.
   */
  predicate TransformSafe(inputs: seq<seq<real>>, coefficientCount: nat) {
    |inputs| > 0 && InnerLoopExit(inputs, 0).Some? &&
    var stop := InnerLoopExit(inputs, 0).value;
    (forall i :: 0 <= i < |inputs| ==> stop <= |inputs[i]|) &&
    (stop == 0 || |inputs| <= coefficientCount)
  }

  /** Sum over i < n of (yIntercept + coefficients[i] * inputs[i][j]): sample j's total after n outer rounds. */
  function Accumulated(inputs: seq<seq<real>>, coefficients: seq<real>, yIntercept: real, j: nat, n: nat): real
    requires n <= |inputs| && n <= |coefficients|
    requires forall i :: 0 <= i < n ==> j < |inputs[i]|
  {
    if n == 0 then 0.0
    else Accumulated(inputs, coefficients, yIntercept, j, n - 1) + (yIntercept + coefficients[n - 1] * inputs[n - 1][j])
  }

  /** What the prediction loop returns: one entry per element of the first array; the samples the inner loop never visits stay 0. */
  function TransformResult(inputs: seq<seq<real>>, coefficients: seq<real>, yIntercept: real): seq<real>
    requires TransformSafe(inputs, |coefficients|)
  {
    var stop := InnerLoopExit(inputs, 0).value;
    seq(|inputs[0]|, j requires 0 <= j < |inputs[0]| =>
      if j < stop then Accumulated(inputs, coefficients, yIntercept, j, |inputs|) else 0.0)
  }

  /** Sum over i < n of coefficients[i] * inputs[i][j]. */
  function Dot(inputs: seq<seq<real>>, coefficients: seq<real>, j: nat, n: nat): real
    requires n <= |inputs| && n <= |coefficients|
    requires forall i :: 0 <= i < n ==> j < |inputs[i]|
  {
    if n == 0 then 0.0
    else Dot(inputs, coefficients, j, n - 1) + coefficients[n - 1] * inputs[n - 1][j]
  }

  /** The linear model's prediction for sample j: the intercept once, plus each coefficient times its feature. */
  function LinearPrediction(inputs: seq<seq<real>>, coefficients: seq<real>, yIntercept: real, j: nat): real
    requires |inputs| <= |coefficients|
    requires forall i :: 0 <= i < |inputs| ==> j < |inputs[i]|
  {
    yIntercept + Dot(inputs, coefficients, j, |inputs|)
  }

  /** The loop adds the intercept once per input array: n rounds add n intercepts on top of the dot product. */
  lemma {:induction false} AccumulatedAddsInterceptPerArray(inputs: seq<seq<real>>, coefficients: seq<real>, yIntercept: real, j: nat, n: nat)
    requires n <= |inputs| && n <= |coefficients|
    requires forall i :: 0 <= i < n ==> j < |inputs[i]|
    ensures Accumulated(inputs, coefficients, yIntercept, j, n) == n as real * yIntercept + Dot(inputs, coefficients, j, n)
  {
    if n > 0 {
      AccumulatedAddsInterceptPerArray(inputs, coefficients, yIntercept, j, n - 1);
    }
  }

  /** The accumulated total equals the linear model's prediction exactly when the intercept is 0 or there is one input array. */
  lemma AccumulatedIsLinearPredictionIff(inputs: seq<seq<real>>, coefficients: seq<real>, yIntercept: real, j: nat)
    requires |inputs| <= |coefficients|
    requires forall i :: 0 <= i < |inputs| ==> j < |inputs[i]|
    ensures Accumulated(inputs, coefficients, yIntercept, j, |inputs|) == LinearPrediction(inputs, coefficients, yIntercept, j)
      <==> yIntercept == 0.0 || |inputs| == 1
  {
    AccumulatedAddsInterceptPerArray(inputs, coefficients, yIntercept, j, |inputs|);
    var n := |inputs| as real;
    assert n * yIntercept - yIntercept == (n - 1.0) * yIntercept;
  }

  /** On equal-length arrays the inner loop stops at the common length when it is below the number of arrays, and faults otherwise. */
  lemma {:induction false} InnerLoopExitRectangular(inputs: seq<seq<real>>, j: nat)
    requires Rectangular(inputs) && j <= |inputs[0]|
    decreases |inputs| - j
    ensures InnerLoopExit(inputs, j) == if |inputs[0]| < |inputs| then Some(|inputs[0]|) else None
  {
    if j < |inputs| && |inputs[j]| > j {
      InnerLoopExitRectangular(inputs, j + 1);
    }
  }

  /**
    For equal-length arrays, with a coefficient for each, the prediction loop
    is safe exactly when the arrays are shorter than their number; the inner
    loop then visits every sample.
   */
  lemma RectangularTransformSafeIff(inputs: seq<seq<real>>, coefficientCount: nat)
    requires Rectangular(inputs) && |inputs| <= coefficientCount
    ensures TransformSafe(inputs, coefficientCount) <==> |inputs[0]| < |inputs|
    ensures |inputs[0]| < |inputs| ==> InnerLoopExit(inputs, 0) == Some(|inputs[0]|)
  {
    InnerLoopExitRectangular(inputs, 0);
  }

  /**
    On equal-length arrays the loop can accept, with a zero intercept (the
    only value the fit leaves), every prediction is the linear model's.
   */
  lemma TransformIsLinearModel(inputs: seq<seq<real>>, coefficients: seq<real>)
    requires Rectangular(inputs) && |inputs| <= |coefficients| && |inputs[0]| < |inputs|
    ensures TransformSafe(inputs, |coefficients|)
    ensures |TransformResult(inputs, coefficients, 0.0)| == |inputs[0]|
    ensures forall j :: 0 <= j < |inputs[0]| ==>
      TransformResult(inputs, coefficients, 0.0)[j] == LinearPrediction(inputs, coefficients, 0.0, j)
  {
    RectangularTransformSafeIff(inputs, |coefficients|);
    forall j | 0 <= j < |inputs[0]|
      ensures TransformResult(inputs, coefficients, 0.0)[j] == LinearPrediction(inputs, coefficients, 0.0, j)
    {
      AccumulatedIsLinearPredictionIff(inputs, coefficients, 0.0, j);
    }
  }

  /** An unrecognised decomposition gives the same fit as Cholesky. */
  lemma UnrecognisedDecompositionFitsAsCholesky(options: MultipleRegressionOptions, weights: seq<real>,
                                                inputs: seq<seq<real>>, outputs: seq<real>, solve: Solver)
    requires options.matrixDecomposition.UnrecognisedDecomposition?
    ensures FitSolution(options, weights, inputs, outputs, solve) ==
      FitSolution(options.(matrixDecomposition := Cholesky), weights, inputs, outputs, solve)
  {
  }

  /**
    With the column layout the diagonal of W holds every weight, so the fit
    fails with a dimension mismatch whenever the training arrays are not as
    long as the weight array (for instance when samples are held out).
   */
  lemma ColumnFitNeedsOneWeightPerTrainingSample(options: MultipleRegressionOptions, weights: seq<real>,
                                                 inputs: seq<seq<real>>, outputs: seq<real>, solve: Solver)
    requires options.matrixLayout.ColumnArrays? && Rectangular(inputs)
    ensures FitSolution(options, weights, inputs, outputs, solve).Success? ==> |weights| == |inputs[0]| == |outputs|
    ensures |weights| != |inputs[0]| ==> FitSolution(options, weights, inputs, outputs, solve) == Failure(DimensionMismatch)
  {
  }

  /** The construction pipeline as a function of its arguments: the first exception, or the model's state. */
  function Construct(inputs: seq<seq<real>>, outputs: seq<real>, weights: seq<real>,
                     supplied: Option<MultipleRegressionOptions>, env: Collaborators): Result<Model, RegressionError>
  {
    if !env.checkForNullItems(inputs, outputs) then Failure(ValidationFailed(CheckForNullItems))
    else if |inputs| == 0 then Failure(IndexOutOfRange)
    else
      var inputSize := |inputs[0]|;
      if !env.checkForInvalidInputSize(inputSize, |outputs|) then Failure(ValidationFailed(CheckForInvalidInputSize))
      else if !env.checkForInvalidWeights(weights) then Failure(ValidationFailed(CheckForInvalidWeights))
      else
        var options := ResolveOptions(supplied);
        var trainingPctSize := options.trainingPctSize;
        if !env.checkForInvalidTrainingPctSize(trainingPctSize) then Failure(ValidationFailed(CheckForInvalidTrainingPctSize))
        else
          var sizes := TrainingSizes(inputSize, trainingPctSize);
          var trainingSize := sizes.0;
          if !env.checkForInvalidTrainingSizes(trainingSize, sizes.1, Max(2, |inputs|), trainingPctSize)
          then Failure(ValidationFailed(CheckForInvalidTrainingSizes))
          else
            match PrepareData(inputs, outputs, trainingSize, options.normalization, env.splitData)
            case None => Failure(NormalizationFailed)
            case Some(split) =>
              match FitSolution(options, weights, split.trainingInputs, split.trainingOutputs, env.solve)
              case Failure(e) => Failure(e)
              case Success(coefficients) =>
                if !TransformSafe(split.oosInputs, |coefficients|) then Failure(IndexOutOfRange)
                else
                  var predictions := TransformResult(split.oosInputs, coefficients, 0.0);
                  Success(Model(weights, options, coefficients, 0.0, predictions,
                                Some(MetricsInputs(predictions, split.oosOutputs, |inputs|))))
  }

  class WeightedRegression {
    var YIntercept: real
    var Coefficients: seq<real>
    const RegressionOptions: MultipleRegressionOptions
    const Weights: seq<real>
    var Predictions: seq<real>
    var Metrics: Option<MetricsInputs>

    /** The fields' values. */
    ghost function State(): Model
      reads this
    {
      Model(Weights, RegressionOptions, Coefficients, YIntercept, Predictions, Metrics)
    }

    /** The object as it stands once the weights and options are stored and nothing is computed yet. */
    constructor Init(weights: seq<real>, options: MultipleRegressionOptions)
      ensures Weights == weights && RegressionOptions == options
      ensures YIntercept == 0.0 && Coefficients == [] && Predictions == [] && Metrics == None
    {
      Weights := weights;
      RegressionOptions := options;
      YIntercept := 0.0;
      Coefficients := [];
      Predictions := [];
      Metrics := None;
    }

    /**
      The constructor: validation, default options, training size, data
      preparation, fit, transform and metrics, in that order.  Any exception
      aborts it and no object is returned.
     */
    static method New(inputs: seq<seq<real>>, outputs: seq<real>, weights: seq<real>,
                      regressionOptions: Option<MultipleRegressionOptions>, env: Collaborators)
      returns (r: Result<WeightedRegression, RegressionError>)
      ensures var spec := Construct(inputs, outputs, weights, regressionOptions, env);
        (r.Success? <==> spec.Success?) &&
        (r.Failure? ==> r.error == spec.error) &&
        (r.Success? ==> fresh(r.value) && r.value.State() == spec.value)
    {
      if !env.checkForNullItems(inputs, outputs) {
        return Failure(ValidationFailed(CheckForNullItems));
      }
      if |inputs| == 0 {
        return Failure(IndexOutOfRange);
      }
      var inputSize := |inputs[0]|;
      if !env.checkForInvalidInputSize(inputSize, |outputs|) {
        return Failure(ValidationFailed(CheckForInvalidInputSize));
      }
      if !env.checkForInvalidWeights(weights) {
        return Failure(ValidationFailed(CheckForInvalidWeights));
      }
      var options := ResolveOptions(regressionOptions);
      var model := new WeightedRegression.Init(weights, options);

      var trainingPctSize := options.trainingPctSize;
      if !env.checkForInvalidTrainingPctSize(trainingPctSize) {
        return Failure(ValidationFailed(CheckForInvalidTrainingPctSize));
      }
      var sizes := TrainingSizes(inputSize, trainingPctSize);
      var trainingSize := sizes.0;
      if !env.checkForInvalidTrainingSizes(trainingSize, sizes.1, Max(2, |inputs|), trainingPctSize) {
        return Failure(ValidationFailed(CheckForInvalidTrainingSizes));
      }

      var prepared := PrepareData(inputs, outputs, trainingSize, options.normalization, env.splitData);
      if prepared.None? {
        return Failure(NormalizationFailed);
      }
      var split := prepared.value;
      var fitted := model.Fit(split.trainingInputs, split.trainingOutputs, env.solve);
      if fitted.Fail? {
        return Failure(fitted.error);
      }
      if !TransformSafe(split.oosInputs, |model.Coefficients|) {
        return Failure(IndexOutOfRange);
      }
      var predictions := model.Transform(split.oosInputs);
      model.Predictions := predictions;
      model.Metrics := Some(MetricsInputs(model.Predictions, split.oosOutputs, |inputs|));
      return Success(model);
    }

    /**
      The fit: builds X in the configured layout (columns for an
      unrecognised one), adds the intercept's ones, takes W from every
      weight, solves with the configured decomposition (Cholesky for an
      unrecognised one), and stores the solution with a zero intercept.
      When it throws, nothing is stored.
     */
    method Fit(inputs: seq<seq<real>>, outputs: seq<real>, solve: Solver) returns (outcome: Outcome<RegressionError>)
      modifies this`Coefficients, this`YIntercept
      ensures match FitSolution(RegressionOptions, Weights, inputs, outputs, solve)
        case Success(beta) => outcome == Pass && Coefficients == beta && YIntercept == 0.0
        case Failure(e) => outcome == Fail(e) && Coefficients == old(Coefficients) && YIntercept == old(YIntercept)
    {
      if !Rectangular(inputs) {
        return Fail(MatrixShape);
      }
      var inputMatrix := BaseMatrix(RegressionOptions.matrixLayout, inputs);
      var outputVector := outputs;
      var weights := Weights;  // the diagonal of W

      if RegressionOptions.useIntercept {
        if RegressionOptions.matrixLayout.ColumnArrays? {
          if |outputs| != inputMatrix.rowCount {
            return Fail(DimensionMismatch);
          }
          inputMatrix := InsertFirstColumn(inputMatrix, Ones(|outputs|));
        } else {
          if |outputs| != inputMatrix.columnCount {
            return Fail(DimensionMismatch);
          }
          inputMatrix := InsertFirstRow(inputMatrix, Ones(|outputs|));
        }
      }

      // W * X and W * y
      if |weights| != inputMatrix.rowCount || |weights| != |outputVector| {
        return Fail(DimensionMismatch);
      }
      var result := solve(SolverKind(RegressionOptions.matrixDecomposition), inputMatrix, weights, outputVector);
      if result.None? {
        return Fail(SolverFailure);
      }
      Coefficients := result.value;
      YIntercept := 0.0;
      return Pass;
    }

    /**
      The prediction loop as written: for every input array i, and for j
      from 0 while j < inputs[j].Length, add YIntercept + Coefficients[i] *
      inputs[i][j] to prediction j.
     */
    method Transform(inputs: seq<seq<real>>) returns (predictions: seq<real>)
      requires TransformSafe(inputs, |Coefficients|)
      ensures predictions == TransformResult(inputs, Coefficients, YIntercept)
    {
      var sums := new real[|inputs[0]|](_ => 0.0);
      ghost var stop := InnerLoopExit(inputs, 0).value;

      for i := 0 to |inputs|
        invariant forall k :: 0 <= k < sums.Length ==>
          sums[k] == if k < stop then Accumulated(inputs, Coefficients, YIntercept, k, i) else 0.0
      {
        var j := 0;
        while j < |inputs[j]|
          invariant 0 <= j <= stop
          invariant forall k :: 0 <= k < sums.Length ==>
            sums[k] == if k < j then Accumulated(inputs, Coefficients, YIntercept, k, i + 1)
                       else if k < stop then Accumulated(inputs, Coefficients, YIntercept, k, i)
                       else 0.0
          decreases stop - j
        {
          assert j < stop && |inputs| <= |Coefficients|;
          sums[j] := sums[j] + (YIntercept + Coefficients[i] * inputs[i][j]);
          assert sums[j] == Accumulated(inputs, Coefficients, YIntercept, j, i + 1);
          j := j + 1;
        }
      }
      predictions := sums[..];
    }
  }

  /** Without options the constructor behaves as with the default options. */
  lemma MissingOptionsUseDefaults(inputs: seq<seq<real>>, outputs: seq<real>, weights: seq<real>, env: Collaborators)
    ensures Construct(inputs, outputs, weights, None, env) == Construct(inputs, outputs, weights, Some(DefaultOptions), env)
  {
  }

  /**
    A constructed model holds the solver's coefficients for the training
    part, a zero intercept, the linear model's predictions for the held-out
    part when its arrays have equal lengths, and metrics over those predictions.
   */
  lemma ConstructedModel(inputs: seq<seq<real>>, outputs: seq<real>, weights: seq<real>,
                         supplied: Option<MultipleRegressionOptions>, env: Collaborators)
    requires Construct(inputs, outputs, weights, supplied, env).Success?
    ensures var m := Construct(inputs, outputs, weights, supplied, env).value;
      var options := ResolveOptions(supplied);
      var split := PrepareData(inputs, outputs, TrainingSizes(|inputs[0]|, options.trainingPctSize).0,
                               options.normalization, env.splitData).value;
      var sizes := TrainingSizes(|inputs[0]|, options.trainingPctSize);
      sizes.0 + sizes.1 == |inputs[0]| &&
      env.checkForInvalidTrainingSizes(sizes.0, sizes.1, Max(2, |inputs|), options.trainingPctSize) &&
      m.yIntercept == 0.0 &&
      FitSolution(options, weights, split.trainingInputs, split.trainingOutputs, env.solve) == Success(m.coefficients) &&
      |m.predictions| == |split.oosInputs[0]| &&
      (Rectangular(split.oosInputs) ==>
        forall j :: 0 <= j < |m.predictions| ==>
          m.predictions[j] == LinearPrediction(split.oosInputs, m.coefficients, 0.0, j)) &&
      m.metrics == Some(MetricsInputs(m.predictions, split.oosOutputs, |inputs|))
  {
    var m := Construct(inputs, outputs, weights, supplied, env).value;
    var options := ResolveOptions(supplied);
    var split := PrepareData(inputs, outputs, TrainingSizes(|inputs[0]|, options.trainingPctSize).0,
                             options.normalization, env.splitData).value;
    if Rectangular(split.oosInputs) && |split.oosInputs[0]| > 0 {
      // The fit left coefficients the loop accepted; with samples to visit, that means one per array.
      InnerLoopExitRectangular(split.oosInputs, 0);
      TransformIsLinearModel(split.oosInputs, m.coefficients);
    }
  }
}
