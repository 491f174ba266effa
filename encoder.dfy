/** The feature encoder shared by training and prediction, the persisted
    model bundle, and predict_price.  A feature vector has the fixed layout
    [d, s, d*d, s*s, d*s] ++ cab one-hot ++ ride one-hot, where d and s are
    the z-scored distance and surge multiplier. */
module Encoder {
  import opened LinAlg
  import opened Normalization

  const CabPrefix: string := "cab_"
  const RidePrefix: string := "ride_"

  /** Number of numeric and polynomial features ahead of the one-hot blocks. */
  const NumericWidth: nat := 5

  /** What training fixes and prediction reuses: the mean and standard
      deviation of distance (index 0) and surge multiplier (index 1), and the
      one-hot column names in the order the weights were trained on. */
  datatype Schema = Schema(
    featureMeans: seq<real>,
    featureStds: seq<real>,
    cabColumns: seq<string>,
    nameColumns: seq<string>)

  predicate ValidSchema(s: Schema)
  {
    |s.featureMeans| == 2 && |s.featureStds| == 2 &&
    s.featureStds[0] != 0.0 && s.featureStds[1] != 0.0
  }

  function Width(s: Schema): nat
  {
    NumericWidth + |s.cabColumns| + |s.nameColumns|
  }

  predicate Distinct(xs: seq<string>)
  {
    forall i, j :: 0 <= i < j < |xs| ==> xs[i] != xs[j]
  }

  /** [1 if key == col else 0 for col in columns] */
  function OneHot(key: string, columns: seq<string>): (r: seq<real>)
    ensures |r| == |columns|
    ensures forall i :: 0 <= i < |columns| ==>
      (r[i] == 1.0 <==> columns[i] == key) && (r[i] == 0.0 <==> columns[i] != key)
  {
    if |columns| == 0 then []
    else [if columns[0] == key then 1.0 else 0.0] + OneHot(key, columns[1..])
  }

  /** A key that names no column gives an all-zero block, not an error. */
  lemma {:induction false} OneHotUnknownIsZero(key: string, columns: seq<string>)
    requires key !in columns
    ensures OneHot(key, columns) == Zeros(|columns|)
  {
    if |columns| > 0 {
      OneHotUnknownIsZero(key, columns[1..]);
      assert Zeros(|columns|) == [0.0] + Zeros(|columns| - 1);
    }
  }

  /** The entries of the block add up to the number of columns named key. */
  lemma {:induction false} OneHotSumCounts(key: string, columns: seq<string>)
    ensures Sum(OneHot(key, columns)) == multiset(columns)[key] as real
  {
    if |columns| > 0 {
      assert columns == [columns[0]] + columns[1..];
      assert multiset(columns) == multiset([columns[0]]) + multiset(columns[1..]);
      OneHotSumCounts(key, columns[1..]);
    }
  }

  /** With pairwise distinct column names the block holds exactly one 1 when
      the key names a column and none otherwise. */
  lemma {:induction false} OneHotSumDistinct(key: string, columns: seq<string>)
    requires Distinct(columns)
    ensures Sum(OneHot(key, columns)) == if key in columns then 1.0 else 0.0
  {
    if |columns| > 0 {
      var rest := columns[1..];
      var v := OneHot(key, columns);
      DistinctTail(columns);
      OneHotSumDistinct(key, rest);
      assert v[1..] == OneHot(key, rest);
      assert Sum(v) == v[0] + Sum(OneHot(key, rest));
      assert key in columns <==> key == columns[0] || key in rest;
    }
  }

  /** The tail of a distinct list is distinct and does not hold the head. */
  lemma {:induction false} DistinctTail(columns: seq<string>)
    requires Distinct(columns) && |columns| > 0
    ensures Distinct(columns[1..]) && columns[0] !in columns[1..]
  {
    var rest := columns[1..];
    forall i, j | 0 <= i < j < |rest| ensures rest[i] != rest[j] {
      assert rest[i] == columns[i + 1] && rest[j] == columns[j + 1];
    }
    forall i | 0 <= i < |rest| ensures rest[i] != columns[0] {
      assert rest[i] == columns[i + 1];
    }
  }

  /** Dotting the block with a vector picks the entry of the matching column. */
  lemma {:induction false} DotOneHot(key: string, columns: seq<string>, v: seq<real>, k: nat)
    requires Distinct(columns) && |v| == |columns| && k < |columns| && columns[k] == key
    ensures Dot(OneHot(key, columns), v) == v[k]
  {
    if k == 0 {
      assert key !in columns[1..] by {
        forall i | 1 <= i < |columns| ensures columns[i] != key {
          assert columns[0] != columns[i];
        }
      }
      OneHotUnknownIsZero(key, columns[1..]);
      DotZeros(v[1..]);
    } else {
      assert columns[0] != key by { assert columns[0] != columns[k]; }
      DotOneHot(key, columns[1..], v[1..], k - 1);
    }
  }

  /** pd.get_dummies(values, prefix=p) names its columns p + "_" + value,
      one per distinct value; `prefix` here already ends with "_". */
  function DummyColumns(prefix: string, vocabulary: seq<string>): (cols: seq<string>)
    ensures |cols| == |vocabulary|
  {
    seq(|vocabulary|, i requires 0 <= i < |vocabulary| => prefix + vocabulary[i])
  }

  /** Under that naming, the block of a value v has its 1 exactly at the position
      of v in the vocabulary, and distinct values give distinct columns. */
  lemma {:induction false} DummyColumnsOneHot(prefix: string, vocabulary: seq<string>, v: string)
    ensures Distinct(vocabulary) ==> Distinct(DummyColumns(prefix, vocabulary))
    ensures forall k :: 0 <= k < |vocabulary| ==>
      (OneHot(prefix + v, DummyColumns(prefix, vocabulary))[k] == 1.0 <==> vocabulary[k] == v)
  {
    var cols := DummyColumns(prefix, vocabulary);
    forall a: string, b: string | prefix + a == prefix + b ensures a == b {
      assert a == (prefix + a)[|prefix|..];
      assert b == (prefix + b)[|prefix|..];
    }
  }

  /** The feature vector of one trip, model.py lines 202-215; the training
      matrix of lines 61-77 is built from the same function row by row. */
  function Encode(s: Schema, distance: real, surge: real, cabType: string, rideName: string): (f: seq<real>)
    requires ValidSchema(s)
    ensures |f| == Width(s)
    ensures f[0] == Normalize(distance, s.featureMeans[0], s.featureStds[0])
    ensures f[1] == Normalize(surge, s.featureMeans[1], s.featureStds[1])
    ensures f[2] == f[0] * f[0] && f[3] == f[1] * f[1] && f[4] == f[0] * f[1]
    ensures f[NumericWidth..NumericWidth + |s.cabColumns|] == OneHot(CabPrefix + cabType, s.cabColumns)
    ensures f[NumericWidth + |s.cabColumns|..] == OneHot(RidePrefix + rideName, s.nameColumns)
  {
    var distNorm := Normalize(distance, s.featureMeans[0], s.featureStds[0]);
    var surgeNorm := Normalize(surge, s.featureMeans[1], s.featureStds[1]);
    var poly := [distNorm * distNorm, surgeNorm * surgeNorm, distNorm * surgeNorm];
    var cabOneHot := OneHot(CabPrefix + cabType, s.cabColumns);
    var nameOneHot := OneHot(RidePrefix + rideName, s.nameColumns);
    var f := [distNorm, surgeNorm] + poly + cabOneHot + nameOneHot;
    assert f[NumericWidth..NumericWidth + |s.cabColumns|] == cabOneHot;
    assert f[NumericWidth + |s.cabColumns|..] == nameOneHot;
    f
  }

  /** Positions 0 and 1 give back the raw distance and surge multiplier;
      the one-hot positions mark exactly the cab type and ride name of the trip. */
  lemma {:induction false} EncodeLayout(s: Schema, distance: real, surge: real, cabType: string, rideName: string)
    requires ValidSchema(s)
    ensures var f := Encode(s, distance, surge, cabType, rideName);
      && f[0] * s.featureStds[0] + s.featureMeans[0] == distance
      && f[1] * s.featureStds[1] + s.featureMeans[1] == surge
      && (forall i :: 0 <= i < |s.cabColumns| ==>
            (f[NumericWidth + i] == 1.0 <==> s.cabColumns[i] == CabPrefix + cabType))
      && (forall i :: 0 <= i < |s.nameColumns| ==>
            (f[NumericWidth + |s.cabColumns| + i] == 1.0 <==> s.nameColumns[i] == RidePrefix + rideName))
  {
    var f := Encode(s, distance, surge, cabType, rideName);
    var c := |s.cabColumns|;
    forall i | 0 <= i < c
      ensures f[NumericWidth + i] == OneHot(CabPrefix + cabType, s.cabColumns)[i]
    {
      assert f[NumericWidth..NumericWidth + c][i] == f[NumericWidth + i];
    }
    forall i | 0 <= i < |s.nameColumns|
      ensures f[NumericWidth + c + i] == OneHot(RidePrefix + rideName, s.nameColumns)[i]
    {
      assert f[NumericWidth + c..][i] == f[NumericWidth + c + i];
    }
  }

  /** With distinct column names, each one-hot block of a feature vector sums
      to 1 when the category has a column and to 0 when it has none. */
  lemma {:induction false} EncodeOneHotBlocks(s: Schema, distance: real, surge: real, cabType: string, rideName: string)
    requires ValidSchema(s) && Distinct(s.cabColumns) && Distinct(s.nameColumns)
    ensures var f := Encode(s, distance, surge, cabType, rideName);
      && Sum(f[NumericWidth..NumericWidth + |s.cabColumns|]) == (if CabPrefix + cabType in s.cabColumns then 1.0 else 0.0)
      && Sum(f[NumericWidth + |s.cabColumns|..]) == (if RidePrefix + rideName in s.nameColumns then 1.0 else 0.0)
  {
    OneHotSumDistinct(CabPrefix + cabType, s.cabColumns);
    OneHotSumDistinct(RidePrefix + rideName, s.nameColumns);
  }

  /** The persisted bundle: weights, bias, the schema they were trained with
      and the name of each feature. */
  datatype Model = Model(w: seq<real>, b: real, schema: Schema, featureNames: seq<string>)

  predicate WellFormed(m: Model)
  {
    ValidSchema(m.schema) && |m.w| == Width(m.schema) && m.featureNames == FeatureNames(m.schema)
  }

  /** np.dot(features, w) + b, before the clamp: the numeric weights, plus the
      weights the two one-hot blocks select, plus the bias. */
  function RawPrediction(m: Model, distance: real, surge: real, cabType: string, rideName: string): (p: real)
    requires WellFormed(m)
    ensures var c := |m.schema.cabColumns|;
      p == Dot(Encode(m.schema, distance, surge, cabType, rideName)[..NumericWidth], m.w[..NumericWidth])
         + Dot(OneHot(CabPrefix + cabType, m.schema.cabColumns), m.w[NumericWidth..NumericWidth + c])
         + Dot(OneHot(RidePrefix + rideName, m.schema.nameColumns), m.w[NumericWidth + c..])
         + m.b
  {
    var f := Encode(m.schema, distance, surge, cabType, rideName);
    DotSplitThree(f, m.w, NumericWidth, NumericWidth + |m.schema.cabColumns|);
    Dot(f, m.w) + m.b
  }

  /** predict_price: max(0, w·features + b) */
  function PredictPrice(m: Model, distance: real, surge: real, cabType: string, rideName: string): (price: real)
    requires WellFormed(m)
    ensures price >= 0.0
    ensures price >= RawPrediction(m, distance, surge, cabType, rideName)
    ensures RawPrediction(m, distance, surge, cabType, rideName) >= 0.0 ==>
      price == RawPrediction(m, distance, surge, cabType, rideName)
    ensures RawPrediction(m, distance, surge, cabType, rideName) < 0.0 ==> price == 0.0
  {
    var prediction := RawPrediction(m, distance, surge, cabType, rideName);
    if prediction > 0.0 then prediction else 0.0
  }

  /** The numeric part of a feature vector depends only on distance and surge. */
  lemma {:induction false} EncodeNumericPrefix(s: Schema, distance: real, surge: real,
                                               cab1: string, ride1: string, cab2: string, ride2: string)
    requires ValidSchema(s)
    ensures Encode(s, distance, surge, cab1, ride1)[..NumericWidth]
         == Encode(s, distance, surge, cab2, ride2)[..NumericWidth]
  {
  }

  /** A dot product split at two cut points. */
  lemma {:induction false} DotSplitThree(f: seq<real>, w: seq<real>, i: nat, j: nat)
    requires |f| == |w| && i <= j <= |f|
    ensures Dot(f, w) == Dot(f[..i], w[..i]) + Dot(f[i..j], w[i..j]) + Dot(f[j..], w[j..])
  {
    assert f == f[..i] + f[i..j] + f[j..];
    assert w == w[..i] + w[i..j] + w[j..];
    DotConcat(f[..i] + f[i..j], f[j..], w[..i] + w[i..j], w[j..]);
    DotConcat(f[..i], f[i..j], w[..i], w[i..j]);
  }

  /** An unseen ride name falls back to the all-zero ride block: every unseen
      name yields the same price, and a known name at column k adds exactly
      the weight of that column to the raw prediction. */
  lemma {:induction false} RideNameContribution(m: Model, distance: real, surge: real, cabType: string,
                             unseen: string, other: string, known: string, k: nat)
    requires WellFormed(m) && Distinct(m.schema.nameColumns)
    requires RidePrefix + unseen !in m.schema.nameColumns
    requires RidePrefix + other !in m.schema.nameColumns
    requires k < |m.schema.nameColumns| && m.schema.nameColumns[k] == RidePrefix + known
    ensures PredictPrice(m, distance, surge, cabType, unseen) == PredictPrice(m, distance, surge, cabType, other)
    ensures RawPrediction(m, distance, surge, cabType, known)
         == RawPrediction(m, distance, surge, cabType, unseen) + m.w[NumericWidth + |m.schema.cabColumns| + k]
  {
    hide Encode, Dot, OneHot, Zeros;
    var s := m.schema;
    var c := |s.cabColumns|;
    var wr := m.w[NumericWidth + c..];
    OneHotUnknownIsZero(RidePrefix + unseen, s.nameColumns);
    OneHotUnknownIsZero(RidePrefix + other, s.nameColumns);
    DotZeros(wr);
    DotOneHot(RidePrefix + known, s.nameColumns, wr, k);
    EncodeNumericPrefix(s, distance, surge, cabType, unseen, cabType, other);
    EncodeNumericPrefix(s, distance, surge, cabType, unseen, cabType, known);
  }

  /** The same for the cab type block. */
  lemma {:induction false} CabTypeContribution(m: Model, distance: real, surge: real, rideName: string,
                            unseen: string, other: string, known: string, k: nat)
    requires WellFormed(m) && Distinct(m.schema.cabColumns)
    requires CabPrefix + unseen !in m.schema.cabColumns
    requires CabPrefix + other !in m.schema.cabColumns
    requires k < |m.schema.cabColumns| && m.schema.cabColumns[k] == CabPrefix + known
    ensures PredictPrice(m, distance, surge, unseen, rideName) == PredictPrice(m, distance, surge, other, rideName)
    ensures RawPrediction(m, distance, surge, known, rideName)
         == RawPrediction(m, distance, surge, unseen, rideName) + m.w[NumericWidth + k]
  {
    hide Encode, Dot, OneHot, Zeros;
    var s := m.schema;
    var c := |s.cabColumns|;
    var wc := m.w[NumericWidth..NumericWidth + c];
    OneHotUnknownIsZero(CabPrefix + unseen, s.cabColumns);
    OneHotUnknownIsZero(CabPrefix + other, s.cabColumns);
    DotZeros(wc);
    DotOneHot(CabPrefix + known, s.cabColumns, wc, k);
    EncodeNumericPrefix(s, distance, surge, unseen, rideName, other, rideName);
    EncodeNumericPrefix(s, distance, surge, unseen, rideName, known, rideName);
  }

  /** enhanced_feature_names: one name per feature, in feature order. */
  function FeatureNames(s: Schema): (names: seq<string>)
    ensures |names| == Width(s)
    ensures names[NumericWidth..NumericWidth + |s.cabColumns|] == s.cabColumns
    ensures names[NumericWidth + |s.cabColumns|..] == s.nameColumns
  {
    var names := ["distance", "surge_multiplier"] + ["distance²", "surge²", "distance×surge"]
      + s.cabColumns + s.nameColumns;
    assert names[NumericWidth..NumericWidth + |s.cabColumns|] == s.cabColumns;
    assert names[NumericWidth + |s.cabColumns|..] == s.nameColumns;
    names
  }

  /** The names line up with the features: a one-hot feature of a trip is on
      exactly when its name is the prefixed cab type (in the cab block) or
      the prefixed ride name (in the ride block). */
  lemma {:induction false} FeatureNamesMatchEncoding(s: Schema, distance: real, surge: real,
                                                     cabType: string, rideName: string, k: nat)
    requires ValidSchema(s) && NumericWidth <= k < Width(s)
    ensures var f := Encode(s, distance, surge, cabType, rideName);
      var names := FeatureNames(s);
      var c := |s.cabColumns|;
      f[k] == 1.0 <==>
        (k < NumericWidth + c && names[k] == CabPrefix + cabType) ||
        (k >= NumericWidth + c && names[k] == RidePrefix + rideName)
  {
    hide Encode, FeatureNames, OneHot;
    var names := FeatureNames(s);
    var c := |s.cabColumns|;
    EncodeLayout(s, distance, surge, cabType, rideName);
    if k < NumericWidth + c {
      assert names[k] == names[NumericWidth..NumericWidth + c][k - NumericWidth];
    } else {
      assert names[k] == names[NumericWidth + c..][k - NumericWidth - c];
      assert k == NumericWidth + c + (k - NumericWidth - c);
    }
  }
}
