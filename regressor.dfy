/** Ridge regression fitted by batch gradient descent: compute_cost,
    compute_gradient and gradient_descent of train_model.  Throughout, lam is
    the regularisation strength (lambda_ in model.py). */
module Regressor {
  import opened LinAlg

  /** Cost is sampled on every iteration whose index is a multiple of this. */
  const SamplePeriod: nat := 100

  /** A training set for n weights: m > 0 rows of n features, one label per row. */
  predicate TrainingSet(X: seq<seq<real>>, y: seq<real>, n: nat)
  {
    |X| > 0 && |y| == |X| && IsMatrix(X, n)
  }

  /** f_wb - y, where f_wb = X·w + b */
  function Errors(X: seq<seq<real>>, y: seq<real>, w: seq<real>, b: real): (errors: seq<real>)
    requires IsMatrix(X, |w|) && |y| == |X|
    ensures |errors| == |X|
  {
    Sub(AddScalar(MatVec(X, w), b), y)
  }

  /** compute_cost: (1/2m)·Σ err_i² + (lam/2m)·‖w‖², never negative when lam is not */
  function Cost(X: seq<seq<real>>, y: seq<real>, w: seq<real>, b: real, lam: real): (c: real)
    requires TrainingSet(X, y, |w|)
    ensures lam >= 0.0 ==> c >= 0.0
  {
    var errors := Errors(X, y, w, b);
    CostOfErrorsNonNegative(errors, w, lam);
    CostOfErrors(errors, w, lam)
  }

  /** The cost in terms of the error vector; m is the number of errors. */
  function CostOfErrors(errors: seq<real>, w: seq<real>, lam: real): real
    requires |errors| > 0
  {
    RidgeCost(Dot(errors, errors), Dot(w, w), lam, |errors| as real)
  }

  /** sq/2m + (λ/2m)·ww: the cost from the squared error sum sq and ‖w‖² = ww. */
  function RidgeCost(sq: real, ww: real, lam: real, m: real): real
    requires m > 0.0
  {
    sq / (2.0 * m) + (lam / (2.0 * m)) * ww
  }

  /** With a non-negative regularisation strength the cost is never negative:
      both terms are sums of squares with non-negative factors. */
  lemma {:induction false} CostOfErrorsNonNegative(errors: seq<real>, w: seq<real>, lam: real)
    requires |errors| > 0
    ensures lam >= 0.0 ==> CostOfErrors(errors, w, lam) >= 0.0
  {
    DotSelfNonNegative(errors);
    DotSelfNonNegative(w);
    if lam >= 0.0 {
      assert lam / (2.0 * |errors| as real) >= 0.0;
    }
  }

  datatype Gradient = Gradient(dw: seq<real>, db: real)

  /** compute_gradient: dj_dw = Xᵀ·err/m + (λ/m)·w and dj_db = Σ err_i / m */
  function ComputeGradient(X: seq<seq<real>>, y: seq<real>, w: seq<real>, b: real, lam: real): (g: Gradient)
    requires TrainingSet(X, y, |w|)
    ensures |g.dw| == |w|
  {
    var m := |X| as real;
    var errors := Errors(X, y, w, b);
    var djDw := Scale(1.0 / m, TransposeMul(X, |w|, errors));
    Gradient(Add(djDw, Scale(lam / m, w)), Sum(errors) / m)
  }

  /** The bias gradient is the exact slope of the cost in b: the cost is a
      parabola in b with leading coefficient 1/2. */
  lemma {:induction false} CostAlongBias(X: seq<seq<real>>, y: seq<real>, w: seq<real>, b: real, lam: real, t: real)
    requires TrainingSet(X, y, |w|)
    ensures Cost(X, y, w, b + t, lam)
         == Cost(X, y, w, b, lam) + t * ComputeGradient(X, y, w, b, lam).db + t * t / 2.0
  {
    hide CostOfErrors, ComputeGradient, Errors;
    var e := Errors(X, y, w, b);
    CostAfterBiasMove(X, y, w, b, lam, t);
    BiasGradient(X, y, w, b, lam);
    ShiftedErrorsCost(e, w, lam, t);
  }

  /** Moving b by t moves every error by t. */
  lemma {:induction false} CostAfterBiasMove(X: seq<seq<real>>, y: seq<real>, w: seq<real>, b: real, lam: real, t: real)
    requires TrainingSet(X, y, |w|)
    ensures Cost(X, y, w, b + t, lam) == CostOfErrors(AddScalar(Errors(X, y, w, b), t), w, lam)
  {
    assert Errors(X, y, w, b + t) == AddScalar(Errors(X, y, w, b), t);
  }

  /** The bias gradient is the mean error. */
  lemma {:induction false} BiasGradient(X: seq<seq<real>>, y: seq<real>, w: seq<real>, b: real, lam: real)
    requires TrainingSet(X, y, |w|)
    ensures var e := Errors(X, y, w, b);
      |e| == |X| && ComputeGradient(X, y, w, b, lam).db == Sum(e) / |e| as real
  {
  }

  lemma {:induction false} ShiftedErrorsCost(e: seq<real>, w: seq<real>, lam: real, t: real)
    requires |e| > 0
    ensures CostOfErrors(AddScalar(e, t), w, lam)
         == CostOfErrors(e, w, lam) + t * (Sum(e) / |e| as real) + t * t / 2.0
  {
    hide RidgeCost, Dot, Sum, AddScalar;
    var v := AddScalar(e, t);
    DotExpandShift(e, t);
    RidgeCostAlongBias(Dot(e, e), Dot(v, v), Dot(w, w), lam, |e| as real, t, Sum(e));
  }

  /** Shifting every error by t moves the squared error sum from sq to sqMoved = sq + 2t·s + m·t²,
      where s is the error sum. */
  lemma RidgeCostAlongBias(sq: real, sqMoved: real, ww: real, lam: real, m: real, t: real, s: real)
    requires m > 0.0 && sqMoved == sq + 2.0 * t * s + m * (t * t)
    ensures RidgeCost(sqMoved, ww, lam, m) == RidgeCost(sq, ww, lam, m) + t * (s / m) + t * t / 2.0
  {
    assert sqMoved / (2.0 * m) == sq / (2.0 * m) + (2.0 * t * s) / (2.0 * m) + (m * (t * t)) / (2.0 * m);
    assert (2.0 * t * s) / (2.0 * m) == t * (s / m);
    assert (m * (t * t)) / (2.0 * m) == t * t / 2.0;
  }

  /** Weight gradient entry j is the exact slope of the cost along w[j]: the
      cost is a parabola in w[j] with leading coefficient (‖X[:, j]‖² + λ)/2m. */
  lemma {:induction false} CostAlongWeight(X: seq<seq<real>>, y: seq<real>, w: seq<real>, b: real, lam: real, j: nat, t: real)
    requires TrainingSet(X, y, |w|) && j < |w|
    ensures var col := Column(X, |w|, j);
      Cost(X, y, w[j := w[j] + t], b, lam)
        == Cost(X, y, w, b, lam) + t * ComputeGradient(X, y, w, b, lam).dw[j]
         + t * t * (Dot(col, col) + lam) / (2.0 * |X| as real)
  {
    hide Cost, ComputeGradient, CostOfErrors, Errors, Dot, Column, Add, Scale;
    WeightGradientEntry(X, y, w, b, lam, j);
    CostAlongWeightSlope(X, y, w, b, lam, j, t, ComputeGradient(X, y, w, b, lam).dw[j]);
  }

  /** CostAlongWeight with the slope g given by its formula. */
  lemma {:induction false} CostAlongWeightSlope(X: seq<seq<real>>, y: seq<real>, w: seq<real>, b: real, lam: real, j: nat, t: real, g: real)
    requires TrainingSet(X, y, |w|) && j < |w|
    requires var e := Errors(X, y, w, b);
      g == (1.0 / |e| as real) * Dot(Column(X, |w|, j), e) + (lam / |e| as real) * w[j]
    ensures var col := Column(X, |w|, j);
      Cost(X, y, w[j := w[j] + t], b, lam)
        == Cost(X, y, w, b, lam) + t * g + t * t * (Dot(col, col) + lam) / (2.0 * |X| as real)
  {
    hide CostOfErrors, Errors, Dot, Column, Add, Scale;
    CostAfterWeightMove(X, y, w, b, lam, j, t);
    MovedErrorsCost(Errors(X, y, w, b), Column(X, |w|, j), w, j, lam, t, g);
  }

  lemma {:induction false} CostAfterWeightMove(X: seq<seq<real>>, y: seq<real>, w: seq<real>, b: real, lam: real, j: nat, t: real)
    requires TrainingSet(X, y, |w|) && j < |w|
    ensures Cost(X, y, w[j := w[j] + t], b, lam)
         == CostOfErrors(Add(Errors(X, y, w, b), Scale(t, Column(X, |w|, j))), w[j := w[j] + t], lam)
  {
    ErrorsAlongWeight(X, y, w, b, j, t);
  }

  /** Entry j of the weight gradient, written with column j of X. */
  lemma {:induction false} WeightGradientEntry(X: seq<seq<real>>, y: seq<real>, w: seq<real>, b: real, lam: real, j: nat)
    requires TrainingSet(X, y, |w|) && j < |w|
    ensures var e := Errors(X, y, w, b);
      |e| == |X| &&
      ComputeGradient(X, y, w, b, lam).dw[j]
        == (1.0 / |e| as real) * Dot(Column(X, |w|, j), e) + (lam / |e| as real) * w[j]
  {
  }

  /** Moving w[j] by t moves error i by t·X[i][j]. */
  lemma {:induction false} ErrorsAlongWeight(X: seq<seq<real>>, y: seq<real>, w: seq<real>, b: real, j: nat, t: real)
    requires TrainingSet(X, y, |w|) && j < |w|
    ensures Errors(X, y, w[j := w[j] + t], b) == Add(Errors(X, y, w, b), Scale(t, Column(X, |w|, j)))
  {
    var e := Errors(X, y, w, b);
    var eMoved := Errors(X, y, w[j := w[j] + t], b);
    var col := Column(X, |w|, j);
    forall i | 0 <= i < |X| ensures eMoved[i] == Add(e, Scale(t, col))[i] {
      DotUpdate(X[i], w, j, t);
    }
  }

  lemma {:induction false} MovedErrorsCost(e: seq<real>, c: seq<real>, w: seq<real>, j: nat, lam: real, t: real, g: real)
    requires |e| > 0 && |c| == |e| && j < |w|
    requires g == (1.0 / |e| as real) * Dot(c, e) + (lam / |e| as real) * w[j]
    ensures CostOfErrors(Add(e, Scale(t, c)), w[j := w[j] + t], lam)
         == CostOfErrors(e, w, lam) + t * g + t * t * (Dot(c, c) + lam) / (2.0 * |e| as real)
  {
    hide RidgeCost, Dot, Add, Scale;
    var u := Add(e, Scale(t, c));
    var wMoved := w[j := w[j] + t];
    DotExpandSquare(e, c, t);
    DotSelfUpdate(w, j, t);
    RidgeCostAlongWeight(Dot(e, e), Dot(u, u), Dot(c, e), Dot(c, c), Dot(w, w), Dot(wMoved, wMoved), w[j], lam, |e| as real, t, g);
  }

  /** Moving w[j] by t moves the squared error sum from sq to sqMoved and ‖w‖² from ww to wwMoved;
      ce = column·errors, cc = ‖column‖², wj = w[j] and g the claimed slope. */
  lemma RidgeCostAlongWeight(sq: real, sqMoved: real, ce: real, cc: real, ww: real, wwMoved: real, wj: real,
                             lam: real, m: real, t: real, g: real)
    requires m > 0.0
    requires sqMoved == sq + 2.0 * t * ce + t * t * cc && wwMoved == ww + 2.0 * t * wj + t * t
    requires g == (1.0 / m) * ce + (lam / m) * wj
    ensures RidgeCost(sqMoved, wwMoved, lam, m)
         == RidgeCost(sq, ww, lam, m) + t * g + t * t * (cc + lam) / (2.0 * m)
  {
    SquaredErrorsAlongWeight(sq, sqMoved, ce, cc, m, t);
    RegularizerAlongWeight(ww, wwMoved, wj, lam, m, t);
    assert t * g == t * ((1.0 / m) * ce) + t * ((lam / m) * wj);
    assert t * t * (cc + lam) / (2.0 * m) == t * t * cc / (2.0 * m) + t * t * lam / (2.0 * m);
  }

  lemma SquaredErrorsAlongWeight(sq: real, sqMoved: real, ce: real, cc: real, m: real, t: real)
    requires m > 0.0 && sqMoved == sq + 2.0 * t * ce + t * t * cc
    ensures sqMoved / (2.0 * m) == sq / (2.0 * m) + t * ((1.0 / m) * ce) + t * t * cc / (2.0 * m)
  {
    assert (2.0 * t * ce) / (2.0 * m) == t * ((1.0 / m) * ce);
  }

  lemma RegularizerAlongWeight(ww: real, wwMoved: real, wj: real, lam: real, m: real, t: real)
    requires m > 0.0 && wwMoved == ww + 2.0 * t * wj + t * t
    ensures (lam / (2.0 * m)) * wwMoved
         == (lam / (2.0 * m)) * ww + t * ((lam / m) * wj) + t * t * lam / (2.0 * m)
  {
    var k := lam / (2.0 * m);
    assert k * wwMoved == k * ww + k * (2.0 * t * wj) + k * (t * t);
    assert k * (2.0 * t * wj) == t * ((lam / m) * wj);
  }

  /** The parameters (w, b) the loop carries. */
  datatype Params = Params(w: seq<real>, b: real)

  /** One simultaneous update: both gradients are taken at the pre-step (w, b). */
  function Step(X: seq<seq<real>>, y: seq<real>, p: Params, alpha: real, lam: real): (q: Params)
    requires TrainingSet(X, y, |p.w|)
    ensures |q.w| == |p.w|
  {
    var g := ComputeGradient(X, y, p.w, p.b, lam);
    Params(Sub(p.w, Scale(alpha, g.dw)), p.b - alpha * g.db)
  }

  /** The parameters after k updates from p0. */
  function Iterate(X: seq<seq<real>>, y: seq<real>, p0: Params, alpha: real, lam: real, k: nat): (p: Params)
    requires TrainingSet(X, y, |p0.w|)
    ensures |p.w| == |p0.w|
  {
    if k == 0 then p0 else Step(X, y, Iterate(X, y, p0, alpha, lam, k - 1), alpha, lam)
  }

  /** J_history after k iterations: iteration i (0-based) appends the cost at
      its post-update parameters when i is a multiple of SamplePeriod. */
  function CostHistory(X: seq<seq<real>>, y: seq<real>, p0: Params, alpha: real, lam: real, k: nat): (h: seq<real>)
    requires TrainingSet(X, y, |p0.w|)
    ensures |h| == (k + SamplePeriod - 1) / SamplePeriod
  {
    if k == 0 then []
    else
      var prev := CostHistory(X, y, p0, alpha, lam, k - 1);
      var p := Iterate(X, y, p0, alpha, lam, k);
      SampleCountStep(k - 1);
      prev + if (k - 1) % SamplePeriod == 0 then [Cost(X, y, p.w, p.b, lam)] else []
  }

  /** One more iteration adds a sample exactly when its index is a multiple of the period. */
  lemma {:induction false} SampleCountStep(i: nat)
    ensures (i + 1 + SamplePeriod - 1) / SamplePeriod
         == (i + SamplePeriod - 1) / SamplePeriod + (if i % SamplePeriod == 0 then 1 else 0)
  {
    var q, r := i / SamplePeriod, i % SamplePeriod;
    assert i == SamplePeriod * q + r;
    if r == 0 {
      assert (i + SamplePeriod - 1) / SamplePeriod == q;
      assert (i + SamplePeriod) / SamplePeriod == q + 1;
    } else {
      assert (i + SamplePeriod - 1) / SamplePeriod == q + 1;
      assert (i + SamplePeriod) / SamplePeriod == q + 1;
    }
  }

  /** Entry j of the history is the cost after update 100·j + 1, that is,
      after iteration 100·j has applied its step. */
  lemma {:induction false} CostHistoryEntry(X: seq<seq<real>>, y: seq<real>, p0: Params, alpha: real, lam: real, k: nat, j: nat)
    requires TrainingSet(X, y, |p0.w|)
    requires j < |CostHistory(X, y, p0, alpha, lam, k)|
    ensures SamplePeriod * j + 1 <= k
    ensures var p := Iterate(X, y, p0, alpha, lam, SamplePeriod * j + 1);
      CostHistory(X, y, p0, alpha, lam, k)[j] == Cost(X, y, p.w, p.b, lam)
  {
    hide Cost, Iterate;
    var prev := CostHistory(X, y, p0, alpha, lam, k - 1);
    if j < |prev| {
      CostHistoryEntry(X, y, p0, alpha, lam, k - 1, j);
    } else {
      assert (k - 1) % SamplePeriod == 0;
      assert |prev| == (k - 1) / SamplePeriod;
      assert k - 1 == SamplePeriod * j;
    }
  }

  /** Every recorded cost is non-negative when the regularisation strength lam is. */
  lemma {:induction false} CostHistoryNonNegative(X: seq<seq<real>>, y: seq<real>, p0: Params, alpha: real, lam: real, k: nat)
    requires TrainingSet(X, y, |p0.w|) && lam >= 0.0
    ensures forall j :: 0 <= j < |CostHistory(X, y, p0, alpha, lam, k)| ==>
      CostHistory(X, y, p0, alpha, lam, k)[j] >= 0.0
  {
    forall j | 0 <= j < |CostHistory(X, y, p0, alpha, lam, k)|
      ensures CostHistory(X, y, p0, alpha, lam, k)[j] >= 0.0
    {
      CostHistoryEntry(X, y, p0, alpha, lam, k, j);
    }
  }

  /** gradient_descent: exactly numIters simultaneous updates from
      (wInit, bInit); the history samples the cost every SamplePeriod
      iterations.  The inputs are values, so wInit is never changed. */
  method GradientDescent(X: seq<seq<real>>, y: seq<real>, wInit: seq<real>, bInit: real,
                         alpha: real, numIters: nat, lam: real)
    returns (w: seq<real>, b: real, history: seq<real>)
    requires TrainingSet(X, y, |wInit|)
    ensures Params(w, b) == Iterate(X, y, Params(wInit, bInit), alpha, lam, numIters)
    ensures history == CostHistory(X, y, Params(wInit, bInit), alpha, lam, numIters)
    ensures |w| == |wInit|
    ensures |history| == (numIters + SamplePeriod - 1) / SamplePeriod
    ensures numIters >= 1 ==> |history| >= 1
  {
    hide ComputeGradient, Cost, Sub, Scale;
    w, b := wInit, bInit;
    history := [];
    var i := 0;
    while i < numIters
      invariant 0 <= i <= numIters
      invariant Params(w, b) == Iterate(X, y, Params(wInit, bInit), alpha, lam, i)
      invariant history == CostHistory(X, y, Params(wInit, bInit), alpha, lam, i)
    {
      ghost var before := Params(w, b);
      var g := ComputeGradient(X, y, w, b, lam);
      w := Sub(w, Scale(alpha, g.dw));
      b := b - alpha * g.db;
      assert Params(w, b) == Step(X, y, before, alpha, lam);
      if i % SamplePeriod == 0 {
        var cost := Cost(X, y, w, b, lam);
        history := history + [cost];
      }
      i := i + 1;
    }
  }
}
