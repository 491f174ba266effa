# Rideshare price model in Dafny

This project models the core of `model.py`, a rideshare price predictor. It covers:

- the row cleaning of `train_model`;
- the z-score normalisation of distance and surge multiplier;
- the shared feature layout `[d, s, d², s², d·s] ++ cab one-hot ++ ride one-hot`;
- ridge regression fitted by batch gradient descent (`compute_cost`, `compute_gradient`, `gradient_descent`);
- the bundled model with `predict_price`, which clamps the prediction at 0.

All arithmetic is exact `real` arithmetic. A missing (NaN) cell is `None`.

Modules:

- `LinAlg` (`linalg.dfy`): vectors as `seq<real>` and matrices as `seq<seq<real>>`. It provides `np.dot`, `np.sum`, element-wise operations and `X.T @ v`, with their algebra (bilinearity, expansions of squares).
- `Cleaning` (`cleaning.dfy`): `dropna` followed by the NaN mask.
- `Normalization` (`normalization.dfy`): mean, population variance and z-score.
- `Encoder` (`encoder.dfy`): one-hot blocks, the feature vector, the model bundle and `predict_price`.
- `Regressor` (`regressor.dfy`): cost, gradient, the simultaneous update step, the iterate and cost-history specifications, and the `GradientDescent` method with its loop.
- `Training` (`training.dfy`): the training matrix and `TrainModel`.
- `Wrappers` (`wrappers.dfy`): the `Option` type.

The gradient is checked against an independent partner rather than against its own formula. `CostAlongBias` and `CostAlongWeight` prove that the cost is exactly a parabola along `b` and along each `w[j]`. The first-order coefficient of each parabola is the corresponding entry of `ComputeGradient`, so the gradient is the exact slope of the cost.

Two points about the inputs:

- The one-hot columns are those of `pd.get_dummies`. They are taken as opaque inputs with the `cab_`/`ride_` prefix convention.
- model.py raises no error for a zero standard deviation. The model requires both deviations to be non-zero.

## Model

| member | source | states |
|---|---|---|
| Cleaning.DropMissing | model.py:23 | the kept rows are exactly the input rows with price, distance and surge all present; none is missing afterwards; never more rows than the input |
| Cleaning.DropMissingConcat | model.py:23 | the filter distributes over concatenation, so kept rows stay in input order |
| Cleaning.DropMissingKeepsComplete | model.py:31-34 | a table with nothing missing comes through unchanged |
| Cleaning.CleanRows | model.py:23-34 | dropna followed by the NaN mask keeps exactly what dropna keeps (the mask removes nothing more) |
| Normalization.Normalize | model.py:202-203 | the z-score is invertible: `z * std + mean == x` for a non-zero std |
| Normalization.NormalizeColumn | model.py:55 | one output entry per input entry, and each maps back to its input: `z * std + mean == x` |
| Normalization.NormalizeBijective | model.py:55 | normalisation is injective and onto the reals for a non-zero std |
| Normalization.NormalizeColumnIsScaledDeviation | model.py:55 | a normalised column is the deviation vector scaled by 1/std |
| Normalization.DeviationsSumToZero | model.py:53 | deviations from the mean sum to 0 |
| Normalization.NormalizedMeanIsZero | model.py:53-55 | the normalised training column has mean 0 |
| Normalization.NormalizedVarianceIsOne | model.py:53-55 | with std the population standard deviation, the normalised column has population variance 1 |
| Encoder.OneHot | model.py:209 | entry i is 1 iff column i equals the key and 0 iff it does not; the block has one entry per column |
| Encoder.OneHotUnknownIsZero | model.py:209-212 | a key naming no column gives the all-zero block, not an error |
| Encoder.OneHotSumCounts | model.py:209 | the block sums to the number of columns named by the key |
| Encoder.OneHotSumDistinct | model.py:209-212 | with distinct column names the block holds one 1 if the key is a column and none otherwise |
| Encoder.DotOneHot | model.py:218 | dotting a block with a weight vector selects the weight of the matching column |
| Encoder.DummyColumns | model.py:45-47 | get_dummies naming: one prefixed column per vocabulary value |
| Encoder.DummyColumnsOneHot | model.py:45-47 | under that naming, distinct values give distinct columns, and a value's block has its 1 exactly at that value's position |
| Encoder.Encode | model.py:202-215 | length 5 + cab columns + ride columns; positions 0-1 are the z-scored distance and surge, 2-4 are d², s², d·s of those, followed by the cab and ride one-hot blocks |
| Encoder.EncodeLayout | model.py:202-215 | positions 0-1 give back the raw distance and surge; cab entry i is 1 iff column i is `cab_` + cab type; ride entry i is 1 iff column i is `ride_` + ride name |
| Encoder.EncodeOneHotBlocks | model.py:209-215 | with distinct columns each one-hot block sums to 1 for a known category and 0 for an unknown one |
| Encoder.PredictPrice | model.py:218-221 | the result is ≥ 0 and ≥ the raw prediction `w·features + b`; it equals the raw prediction when that is ≥ 0, and is 0 when it is negative |
| Encoder.RawPrediction | model.py:218 | `features·w + b` splits into the numeric part, the cab block dotted with the cab weights, the ride block dotted with the ride weights, and the bias |
| Encoder.RideNameContribution | model.py:212-221 | all unseen ride names get the same price; a known ride name adds exactly its column's weight to the raw prediction |
| Encoder.CabTypeContribution | model.py:209-221 | all unseen cab types get the same price; a known cab type adds exactly its column's weight to the raw prediction |
| Encoder.FeatureNames | model.py:80-85 | one name per feature; the names at the one-hot positions are the cab and ride columns, in feature order |
| Encoder.FeatureNamesMatchEncoding | model.py:80-85 | at every one-hot position k, the feature is 1 exactly when the name at k is `cab_` + the cab type (in the cab block) or `ride_` + the ride name (in the ride block), so the names label the encoded features |
| Regressor.Cost | model.py:97-104 | the ridge cost is ≥ 0 when λ ≥ 0 |
| Regressor.ComputeGradient | model.py:106-113 | dj_dw has the length of w; that its entries are the exact slopes of the cost is stated by CostAlongBias and CostAlongWeight |
| Regressor.CostAlongBias | model.py:97-113 | `cost(b + t) = cost(b) + t·dj_db + t²/2`: dj_db is the exact slope of the cost in b |
| Regressor.CostAlongWeight | model.py:97-113 | `cost(w[j] + t) = cost(w) + t·dj_dw[j] + t²·(‖X[:, j]‖² + λ)/2m`: dj_dw[j] is the exact slope of the cost in w[j] |
| Regressor.ErrorsAlongWeight | model.py:99-101 | moving w[j] by t moves every error by t·X[i][j] |
| Regressor.CostAfterBiasMove | model.py:99-101 | moving b by t moves every error by t |
| Regressor.Step | model.py:121-123 | one simultaneous update keeps the length of w |
| Regressor.Iterate | model.py:120-123 | any number of updates keeps the length of w |
| Regressor.CostHistory | model.py:120-127 | after k iterations the history holds `(k + 99) / 100` costs |
| Regressor.SampleCountStep | model.py:125-127 | iteration i adds a history entry exactly when i is a multiple of 100 |
| Regressor.CostHistoryEntry | model.py:120-127 | history entry j is the cost after update 100·j + 1, which is within the k updates run |
| Regressor.CostHistoryNonNegative | model.py:97-127 | every recorded cost is ≥ 0 when λ ≥ 0 |
| Regressor.GradientDescent | model.py:115-131 | the loop runs exactly numIters simultaneous updates from (wInit, bInit); it returns the specified iterate and history; `|w|` is kept; the history has `(numIters + 99) / 100` entries and is non-empty when numIters ≥ 1 |
| Training.Distances | model.py:27 | the distance column: one value per cleaned row, the row's distance cell |
| Training.Surges | model.py:27 | the surge column: one value per cleaned row, the row's surge multiplier cell |
| Training.Prices | model.py:28 | y_train: one label per cleaned row, the row's price cell |
| Training.TrainingMatrix | model.py:61-77 | the training matrix has one row per cleaned row and every row has the model's feature width |
| Training.TrainedSchema | model.py:53-55 | the fitted schema standardises the training set: when the stds are the population ones, both numeric training columns have mean 0 and population variance 1 |
| Training.TrainingRowIsPrediction | model.py:72-77 | on a training row, `X·w + b` equals the raw prediction predict_price makes for that trip, so training and prediction share one layout |
| Training.TrainingNumericColumns | model.py:53-77 | the first two training columns are the z-scored distance and surge columns, with mean 0, and variance 1 when the stds are the population ones |
| Training.TrainingRowsOneHot | model.py:45-77 | with get_dummies-style columns every training row has exactly one 1 in each one-hot block |
| Training.TrainModel | model.py:16-157 | the model is well formed and stores the cleaned means, the population stds, the one-hot column lists and the feature names; its two numeric training columns have mean 0 and population variance 1; its weights are NumIters updates from zero with α = 0.001, λ = 0.01; the history has 100 entries and its last entry (the reported final cost) is ≥ 0 |

## Left out

- CSV loading (model.py line 20), pickle save and load, and the "train if `model.pkl` is missing" bootstrap of `load_model` are file I/O. The bundle is the `Model` value, and `predict_price` takes it as a parameter instead of loading it.
- `print` diagnostics, including the one every 1000 iterations inside the loop, and the `__main__` demo are output only.
- The internals of `pd.get_dummies` (column order, sorting) are library code. The column lists are inputs; `DummyColumns` states only the prefix naming.
- The unused `unique()` calls (lines 41-42) are left out because nothing reads their results.
- The training matrix is built from the rows, not from a separate `get_dummies` table. `TrainingRowsOneHot` states the agreement under the assumption that the columns are distinct and cover every cleaned row's values.
- numpy's `std` needs a square root, which exact reals lack. `TrainModel` takes the two standard deviations as inputs and requires them to satisfy `IsPopStd`: each is the non-negative root of the population variance of its column.
- Training.TrainModel: requires at least one clean row and non-zero population standard deviations. With an empty cleaned table, model.py raises ZeroDivisionError at line 112; a zero std yields inf/NaN.
- The `lambda_=1` defaults of `compute_cost`, `compute_gradient` and `gradient_descent` (lines 97, 106, 115) are never used, because every call passes `lambda_` explicitly. The model always takes λ as a parameter.
- IEEE floating point is not modelled: no rounding, no NaN propagation outside the row filter, no overflow or divergence for a large α. Exact reals are used instead.
- A missing `cab_type` or `name` cell is not modelled; the categorical cells are plain strings.
- Nothing is claimed about convergence or the quality of the learned weights.
- `app.py` (the HTTP layer, its input checks and rounding) and `setup.py` (packaging) are not part of this model.
