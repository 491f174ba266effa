/** train_model without its file I/O: clean the table, z-score the numeric
    features, build the training matrix with the same encoder prediction
    uses, run gradient descent from zero weights and bundle the result. */
module Training {
  import opened Wrappers
  import opened LinAlg
  import opened Normalization
  import opened Encoder
  import opened Regressor
  import opened Cleaning

  /** The hyper-parameters train_model passes to gradient_descent. */
  const Alpha: real := 0.001
  const NumIters: nat := 10000
  const Lambda: real := 0.01

  /** The distance column of a cleaned table. */
  function Distances(rows: seq<RawRow>): (ds: seq<real>)
    requires AllComplete(rows)
    ensures |ds| == |rows|
    ensures forall i :: 0 <= i < |rows| ==> rows[i].distance == Some(ds[i])
  {
    seq(|rows|, i requires 0 <= i < |rows| => rows[i].distance.value)
  }

  /** The surge multiplier column of a cleaned table. */
  function Surges(rows: seq<RawRow>): (ss: seq<real>)
    requires AllComplete(rows)
    ensures |ss| == |rows|
    ensures forall i :: 0 <= i < |rows| ==> rows[i].surgeMultiplier == Some(ss[i])
  {
    seq(|rows|, i requires 0 <= i < |rows| => rows[i].surgeMultiplier.value)
  }

  /** The label column (y_train) of a cleaned table. */
  function Prices(rows: seq<RawRow>): (ps: seq<real>)
    requires AllComplete(rows)
    ensures |ps| == |rows|
    ensures forall i :: 0 <= i < |rows| ==> rows[i].price == Some(ps[i])
  {
    seq(|rows|, i requires 0 <= i < |rows| => rows[i].price.value)
  }

  /** X_train: one encoded feature vector per cleaned row. */
  function TrainingMatrix(s: Schema, rows: seq<RawRow>): (X: seq<seq<real>>)
    requires ValidSchema(s) && AllComplete(rows)
    ensures |X| == |rows| && IsMatrix(X, Width(s))
  {
    seq(|rows|, i requires 0 <= i < |rows| =>
      Encode(s, rows[i].distance.value, rows[i].surgeMultiplier.value, rows[i].cabType, rows[i].name))
  }

  /** The schema train_model fits and stores: the means of the cleaned
      distance and surge columns, their population standard deviations and
      the one-hot column names.  Fitted means that it standardises the
      training set: the two numeric training columns it produces have mean 0
      and population variance 1. */
  function TrainedSchema(clean: seq<RawRow>, distanceStd: real, surgeStd: real,
                         cabColumns: seq<string>, nameColumns: seq<string>): (s: Schema)
    requires AllComplete(clean) && |clean| > 0 && distanceStd != 0.0 && surgeStd != 0.0
    requires IsPopStd(Distances(clean), distanceStd) && IsPopStd(Surges(clean), surgeStd)
    ensures ValidSchema(s)
    ensures var X := TrainingMatrix(s, clean);
      && Mean(Column(X, Width(s), 0)) == 0.0 && PopVariance(Column(X, Width(s), 0)) == 1.0
      && Mean(Column(X, Width(s), 1)) == 0.0 && PopVariance(Column(X, Width(s), 1)) == 1.0
  {
    var s := Schema([Mean(Distances(clean)), Mean(Surges(clean))], [distanceStd, surgeStd], cabColumns, nameColumns);
    TrainingNumericColumns(s, clean);
    s
  }

  /** Training and prediction agree on the layout: the output of the model on a
      training row, f_wb[i] = X_train[i]·w + b, is the raw prediction
      predict_price makes for the trip of that row. */
  lemma {:induction false} TrainingRowIsPrediction(m: Model, rows: seq<RawRow>, i: nat)
    requires WellFormed(m) && AllComplete(rows) && i < |rows|
    ensures var X := TrainingMatrix(m.schema, rows);
      AddScalar(MatVec(X, m.w), m.b)[i]
        == RawPrediction(m, rows[i].distance.value, rows[i].surgeMultiplier.value, rows[i].cabType, rows[i].name)
  {
  }

  /** The first two training columns are the z-scored distance and surge
      columns, so with the stored means they have mean 0, and with the stored
      population standard deviations they have variance 1. */
  lemma {:induction false} TrainingNumericColumns(s: Schema, rows: seq<RawRow>)
    requires ValidSchema(s) && AllComplete(rows) && |rows| > 0
    requires s.featureMeans[0] == Mean(Distances(rows)) && s.featureMeans[1] == Mean(Surges(rows))
    ensures var X := TrainingMatrix(s, rows);
      && Column(X, Width(s), 0) == NormalizeColumn(Distances(rows), s.featureMeans[0], s.featureStds[0])
      && Column(X, Width(s), 1) == NormalizeColumn(Surges(rows), s.featureMeans[1], s.featureStds[1])
      && Mean(Column(X, Width(s), 0)) == 0.0
      && Mean(Column(X, Width(s), 1)) == 0.0
    ensures IsPopStd(Distances(rows), s.featureStds[0]) ==>
      PopVariance(Column(TrainingMatrix(s, rows), Width(s), 0)) == 1.0
    ensures IsPopStd(Surges(rows), s.featureStds[1]) ==>
      PopVariance(Column(TrainingMatrix(s, rows), Width(s), 1)) == 1.0
  {
    var X := TrainingMatrix(s, rows);
    var ds, ss := Distances(rows), Surges(rows);
    assert Column(X, Width(s), 0) == NormalizeColumn(ds, s.featureMeans[0], s.featureStds[0]);
    assert Column(X, Width(s), 1) == NormalizeColumn(ss, s.featureMeans[1], s.featureStds[1]);
    NormalizedMeanIsZero(ds, s.featureStds[0]);
    NormalizedMeanIsZero(ss, s.featureStds[1]);
    if IsPopStd(ds, s.featureStds[0]) {
      NormalizedVarianceIsOne(ds, s.featureStds[0]);
    }
    if IsPopStd(ss, s.featureStds[1]) {
      NormalizedVarianceIsOne(ss, s.featureStds[1]);
    }
  }

  /** When the one-hot columns are the pd.get_dummies columns of the cleaned
      table (distinct, one per value seen), every training row has exactly one
      1 in its cab block and exactly one in its ride block. */
  lemma {:induction false} TrainingRowsOneHot(s: Schema, rows: seq<RawRow>, i: nat)
    requires ValidSchema(s) && AllComplete(rows) && i < |rows|
    requires Distinct(s.cabColumns) && Distinct(s.nameColumns)
    requires forall r :: r in rows ==> CabPrefix + r.cabType in s.cabColumns && RidePrefix + r.name in s.nameColumns
    ensures var x := TrainingMatrix(s, rows)[i];
      && Sum(x[NumericWidth..NumericWidth + |s.cabColumns|]) == 1.0
      && Sum(x[NumericWidth + |s.cabColumns|..]) == 1.0
  {
    var r := rows[i];
    assert r in rows;
    EncodeOneHotBlocks(s, r.distance.value, r.surgeMultiplier.value, r.cabType, r.name);
  }

  /** train_model: the cleaned rows (at least one must survive), the one-hot
      column names and the population standard deviations of the two numeric
      columns come in; the means are computed here.  Gradient descent starts
      from w = 0, b = 0 and runs NumIters iterations on a standardised
      training matrix. */
  method TrainModel(rows: seq<RawRow>, cabColumns: seq<string>, nameColumns: seq<string>,
                    distanceStd: real, surgeStd: real)
    returns (model: Model, history: seq<real>)
    requires |CleanRows(rows)| > 0 && distanceStd != 0.0 && surgeStd != 0.0
    requires IsPopStd(Distances(CleanRows(rows)), distanceStd) && IsPopStd(Surges(CleanRows(rows)), surgeStd)
    ensures var clean := CleanRows(rows);
      var s := TrainedSchema(clean, distanceStd, surgeStd, cabColumns, nameColumns);
      var X := TrainingMatrix(s, clean);
      && WellFormed(model)
      && model.schema == s
      && s.featureMeans == [Mean(Distances(clean)), Mean(Surges(clean))]
      && s.featureStds == [distanceStd, surgeStd]
      && s.cabColumns == cabColumns && s.nameColumns == nameColumns
      && Mean(Column(X, Width(s), 0)) == 0.0 && PopVariance(Column(X, Width(s), 0)) == 1.0
      && Mean(Column(X, Width(s), 1)) == 0.0 && PopVariance(Column(X, Width(s), 1)) == 1.0
      && Params(model.w, model.b) == Iterate(X, Prices(clean), Params(Zeros(Width(s)), 0.0), Alpha, Lambda, NumIters)
      && history == CostHistory(X, Prices(clean), Params(Zeros(Width(s)), 0.0), Alpha, Lambda, NumIters)
    ensures |history| == NumIters / SamplePeriod
    ensures |history| > 0 && history[|history| - 1] >= 0.0
  {
    var clean := CleanRows(rows);
    var schema := TrainedSchema(clean, distanceStd, surgeStd, cabColumns, nameColumns);
    var X := TrainingMatrix(schema, clean);
    var y := Prices(clean);
    var n := Width(schema);
    var w, b;
    w, b, history := GradientDescent(X, y, Zeros(n), 0.0, Alpha, NumIters, Lambda);
    model := Model(w, b, schema, FeatureNames(schema));
    CostHistoryNonNegative(X, y, Params(Zeros(n), 0.0), Alpha, Lambda, NumIters);
  }
}
