# Weighted regression and decimal normalization, modelled in Dafny

This project models the two pieces of AiDotNet with discrete behaviour worth proving. Values are exact reals.

- **Decimal-scaling normalization** (`DecimalNormalization.dfy`, module `DecimalNormalization`).
  - `Normalize` finds the smallest exponent `e` in 1..99 with `max|v| / 10^e <= 1`.
  - It throws when no such exponent exists, and when the array is empty (`Max` of nothing).
  - Otherwise it fills a fresh array with every value divided by `10^e`.
  - It is a method with the search loop (with `break`) and the fill loop. It is proved equal to the specification function `Normalized`.
  - The lemmas about `Normalized` cover: when it fails, the minimal exponent, values within [-1, 1], and the exact round trip.
  - `PrepareData` splits the data, then normalizes each of the four parts with its own exponent.
- **Weighted regression engine** (`WeightedRegression.dfy`, module `Regression`, class `WeightedRegression`).
  - The constructor pipeline is the static method `New`. A constructor cannot fail in Dafny, so `New` returns the new object or the first exception. It is proved equal, step by step, to the function `Construct`.
  - The pipeline steps are:
    - the validation checks;
    - defaulting of the options;
    - the training size `floor(n * pct / 100)` and the held-out size `n` minus it;
    - the `PrepareData` dispatch;
    - `Fit`;
    - `Transform`;
    - the metrics arguments.
  - `Fit` makes these choices:
    - the design-matrix layout;
    - the intercept ones;
    - the weight diagonal;
    - the decomposition fallback.
  - `Fit` stores the solution and a zero intercept. When it fails it stores nothing.
  - `Transform` is the nested accumulation loop, exactly as written.
- **Matrices** (`Matrices.dfy`) holds the few dense-matrix operations that `Fit` uses to build its design matrix. These are building from column arrays or row arrays, and inserting a column or row at index 0.
- **Wrappers** (`Wrappers.dfy`) holds `Option`, `Result` and `Outcome`. These stand for the source's exceptions.

## Behaviour of the code as written

Each of these is modelled as the code does it, and stated in a lemma.

- **The exponent search starts at 1.** Arrays whose values all lie in [-1, 1], all-zero arrays included, are still divided by 10 (`SmallMaximumUsesExponentOne`).
- **Each part is normalized on its own.** Training and held-out parts can be scaled by different powers of ten. For example, 50 and 5 both become 0.5 (`PartsUseTheirOwnExponents`).
- **The inner bound of `Transform` reads `inputs[j].Length`, not `inputs[i].Length`.**
  - The loop is safe exactly under `TransformSafe`.
  - For equal-length arrays, that means the arrays are shorter than their number and, unless they are empty, there is one coefficient per array (`RectangularTransformSafeIff`).
  - Samples the inner loop never reaches keep their initial 0.
- **`YIntercept` is added once per input array, not once per sample.** The prediction equals the linear model `b + Σ c_i x_ij` exactly when `b = 0` or there is one array (`AccumulatedIsLinearPredictionIff`). The fit always sets `b = 0`, so for equal-length held-out arrays the predictions are the linear model's (`TransformIsLinearModel`, `ConstructedModel`). With arrays of unequal length, the samples the inner loop never reaches stay 0.
- **The weight diagonal is built from the full `Weights` array, not from the training slice.** `W * X` and `W * y` need one weight per row of X and per output. With the column layout, the fit therefore fails with a dimension mismatch whenever the training arrays are shorter than the weight array (`ColumnFitNeedsOneWeightPerTrainingSample`).
- **An unrecognised `MatrixLayout` builds the matrix from columns, but the intercept ones go in as a row.** The test at WeightedRegression.cs line 69 compares against `ColumnArrays` only (`DesignMatrix`).
- **The metrics are created with `inputs.Length`**, which is the number of input arrays, not the number of samples (`ConstructedModel`).

## Model

| member | source | states |
|---|---|---|
| `DecimalNormalization.Normalize` | src/Normalization/DecimalNormalization.cs:5-30 | the loops compute exactly `Normalized(rawValues[..])`: the error for an empty array or a maximum above 10^99, otherwise every value divided by 10^e for the smallest fitting e; the input array is only read |
| `DecimalNormalization.MaxAbs` | src/Normalization/DecimalNormalization.cs:8 | the result bounds every absolute value and is the absolute value of some element |
| `DecimalNormalization.FirstFit` | src/Normalization/DecimalNormalization.cs:10-16 | the search loop's result is 0 or a fitting exponent in range, and no smaller exponent in range fits |
| `DecimalNormalization.ExponentFoundIff` | src/Normalization/DecimalNormalization.cs:10-22 | an exponent is found (no throw) exactly when the maximum is at most 10^99 |
| `DecimalNormalization.ExponentIsSmallest` | src/Normalization/DecimalNormalization.cs:8-16 | the chosen exponent lies in 1..99, satisfies maxAbs <= 10^e, and every smaller exponent from 1 has 10^k < maxAbs |
| `DecimalNormalization.SmallMaximumUsesExponentOne` | src/Normalization/DecimalNormalization.cs:10-14 | a maximum of at most 10, including all-zero or [-1, 1] arrays, still gives exponent 1 (division by 10) |
| `DecimalNormalization.NormalizedFailsIff` | src/Normalization/DecimalNormalization.cs:8-22 | Normalize throws exactly on an empty array or a maximum above 10^99, and the empty case is the `Max` error |
| `DecimalNormalization.NormalizedWithinUnit` | src/Normalization/DecimalNormalization.cs:24-27 | on success the output has the input's length and every value lies in [-1, 1] |
| `DecimalNormalization.UnscaleScale` | src/Normalization/DecimalNormalization.cs:26 | multiplying by 10^e undoes dividing by 10^e, element by element |
| `DecimalNormalization.NormalizedRoundTrip` | src/Normalization/DecimalNormalization.cs:24-27 | multiplying each output by 10^e of the chosen exponent gives back the input exactly |
| `DecimalNormalization.PrepareData` | src/Normalization/DecimalNormalization.cs:32-37 | succeeds exactly when all four split parts are non-empty with maximum at most 10^99; each part is scaled by its own exponent; the first failing part decides the error |
| `DecimalNormalization.PartsUseTheirOwnExponents` | src/Normalization/DecimalNormalization.cs:34-36 | a training part with maximum 50 and a held-out part with maximum 5 are divided by 100 and by 10, both ending at 0.5 |
| `Matrices.DenseOfColumnArrays` | src/Regression/WeightedRegression.cs:60 | each input array becomes a column: entry (r, c) is arrays[c][r] |
| `Matrices.DenseOfRowArrays` | src/Regression/WeightedRegression.cs:61 | each input array becomes a row: entry (r, c) is arrays[r][c] |
| `Matrices.InsertFirstColumn` | src/Regression/WeightedRegression.cs:70 | one more column; column 0 is the given vector; every old column moves one place right |
| `Matrices.InsertFirstRow` | src/Regression/WeightedRegression.cs:71 | one more row; row 0 is the given vector; every old row moves one place down |
| `Regression.ResolveOptions` | src/Regression/WeightedRegression.cs:33 | supplied options are used as given; without them the default options are used |
| `Regression.MissingOptionsUseDefaults` | src/Regression/WeightedRegression.cs:33 | constructing without options is the same as constructing with the default options |
| `Regression.TrainingSizes` | src/Regression/WeightedRegression.cs:36-39 | the training size is the floor of n * pct / 100; the held-out size is n minus it, so the two sum to n; both lie in 0..n when pct is in 0..100 |
| `Regression.PrepareData` | src/Regression/WeightedRegression.cs:49-53 | with a normalization strategy its own preparation is used, otherwise the plain split |
| `Regression.SolverKind` | src/Regression/WeightedRegression.cs:74-90 | every recognised decomposition is used as configured, and an unrecognised one becomes Cholesky |
| `Regression.UnrecognisedDecompositionFitsAsCholesky` | src/Regression/WeightedRegression.cs:74-90 | a fit with an unrecognised decomposition equals the fit with Cholesky |
| `Regression.DesignMatrix` | src/Regression/WeightedRegression.cs:57-72 | the design matrix for each layout: unchanged inputs without intercept; with intercept, a first column of ones (ColumnArrays) or a first row of ones (RowArrays and unrecognised layouts) of length outputs.Length, the inputs shifted by one; the dimension error when the ones do not fit |
| `Regression.FitSolution` | src/Regression/WeightedRegression.cs:57-92 | the fit succeeds exactly when the design matrix builds, there is one weight per row of X and per output, and the solver (with the fallback-resolved decomposition) returns a vector, which is then the result; a design-matrix error is passed on, a weight count that does not fit is `DimensionMismatch`, and a solver failure is `SolverFailure` |
| `Regression.ColumnFitNeedsOneWeightPerTrainingSample` | src/Regression/WeightedRegression.cs:58-77 | with the column layout, a fit succeeds only when the weight array is as long as the training arrays and the outputs; otherwise it is a dimension mismatch |
| `Regression.WeightedRegression.Fit` | src/Regression/WeightedRegression.cs:55-94 | on success Coefficients is the solver's result and YIntercept is exactly 0; on failure the error is reported and neither field changes |
| `Regression.InnerLoopExit` | src/Regression/WeightedRegression.cs:102 | the inner loop stops at the first k with inputs[k].Length <= k, every earlier guard holding; None when the guard would read past the last array |
| `Regression.WeightedRegression.Transform` | src/Regression/WeightedRegression.cs:96-109 | the nested loop returns one prediction per element of inputs[0]; prediction j is the sum over every array i of YIntercept + Coefficients[i] * inputs[i][j] for the samples the inner loop visits, and 0 for the others |
| `Regression.AccumulatedAddsInterceptPerArray` | src/Regression/WeightedRegression.cs:104 | after n outer rounds a prediction holds n intercepts plus the dot product of coefficients and features |
| `Regression.AccumulatedIsLinearPredictionIff` | src/Regression/WeightedRegression.cs:104 | the loop's sum equals the linear model's prediction exactly when the intercept is 0 or there is one input array |
| `Regression.InnerLoopExitRectangular` | src/Regression/WeightedRegression.cs:100-102 | on equal-length arrays the inner loop stops at the common length when it is below the number of arrays, and otherwise reads past the end |
| `Regression.RectangularTransformSafeIff` | src/Regression/WeightedRegression.cs:98-104 | for equal-length arrays with a coefficient each, Transform runs without an index fault exactly when the arrays are shorter than their number |
| `Regression.TransformIsLinearModel` | src/Regression/WeightedRegression.cs:98-106 | on such arrays with a zero intercept every prediction is the linear model's |
| `Regression.WeightedRegression.Init` | src/Regression/WeightedRegression.cs:5-33 | weights and options are stored as given; intercept, coefficients and predictions start empty or 0 and there are no metrics yet |
| `Regression.WeightedRegression.New` | src/Regression/WeightedRegression.cs:23-47 | construction succeeds exactly when `Construct` does; the first exception is reported and no object escapes; on success the new object's fields equal the model `Construct` returns |
| `Regression.ConstructedModel` | src/Regression/WeightedRegression.cs:41-46 | a constructed model holds the solver's coefficients for the training part, a zero intercept, one prediction per held-out sample, the linear model's predictions for equal-length held-out arrays, and metrics over its predictions, the held-out outputs and inputs.Length; the size check was passed a training and a held-out size that sum to inputs[0].Length |

## Left out

- Floating point: values are exact reals. `Math.Pow` and division round nothing here. NaN and infinities are not modelled. In the source an infinity, or an array of only NaNs, makes the comparison at DecimalNormalization.cs line 13 false, so it throws like a too-large maximum. A NaN among ordinary numbers is passed over by `Max`, so nothing is thrown and the NaN is divided into the output.
- Integer width: the `(int)` cast of the floored training size is unbounded here. Out-of-range casts are not modelled.
- The validation helper's checks, the data splitter and the metrics calculation are not part of this model.
  - Their bodies are not among the modelled files.
  - The checks and the splitter are function parameters whose results the model does not constrain.
  - The metrics object is recorded as the arguments it is created from.
- The dataset-level `PrepareData` of a normalization strategy (the `double[][]` overload on the strategy's base class) is not part of this model. A configured strategy is a function parameter.
- The dense-matrix products and the six decompositions are one solver function parameter.
  - The model checks the dimension agreements that the products need: one weight per row of X and per output.
  - A decomposition failure is `SolverFailure`.
  - The length of the solver's result is not constrained. In the source it is the design matrix's column count. So the model cannot show from the fit alone that there is a coefficient for every held-out array; `Construct` checks `TransformSafe` instead.
  - When a decomposition would fail and `W * y` also mismatches, the model reports the mismatch. The source would report the decomposition's exception, which comes first.
- The matrix library's handling of an empty or ragged set of arrays is one `MatrixShape` error. Which exception it raises, and whether a longer array is truncated instead, is not modelled.
- `DecimalNormalization.Normalize` returns the contents of the fresh array as a sequence. Arrays that the source never changes after creation are sequences too: inputs, outputs, weights, predictions and coefficients.
- Default options: the options class is not part of this model. The default values are an assumption of the model: 100 percent training, no normalization, column arrays, Cholesky, no intercept.
- `Regression.WeightedRegression.Init`: `Predictions` is `[]` and `Metrics` is `None` where the source leaves them null until construction completes. No caller can see the difference, because a failed construction returns no object.
- The demonstration console program is not part of this model.
