/** Exact-real vectors and matrices: the handful of numpy operations the
    model relies on (np.dot, np.sum, elementwise arithmetic, X.T @ v). */
module LinAlg {

  /** Σ v[i] (np.sum) */
  function Sum(v: seq<real>): real
  {
    if |v| == 0 then 0.0 else v[0] + Sum(v[1..])
  }

  /** Σ u[i]·v[i] (np.dot of two vectors) */
  function Dot(u: seq<real>, v: seq<real>): real
    requires |u| == |v|
  {
    if |u| == 0 then 0.0 else u[0] * v[0] + Dot(u[1..], v[1..])
  }

  function Zeros(n: nat): (z: seq<real>)
    ensures |z| == n
  {
    seq(n, _ => 0.0)
  }

  /** n copies of c */
  function Fill(n: nat, c: real): (f: seq<real>)
    ensures |f| == n
  {
    seq(n, _ => c)
  }

  function Scale(c: real, v: seq<real>): (r: seq<real>)
    ensures |r| == |v|
  {
    seq(|v|, i requires 0 <= i < |v| => c * v[i])
  }

  function Add(u: seq<real>, v: seq<real>): (r: seq<real>)
    requires |u| == |v|
    ensures |r| == |u|
  {
    seq(|u|, i requires 0 <= i < |u| => u[i] + v[i])
  }

  function Sub(u: seq<real>, v: seq<real>): (r: seq<real>)
    requires |u| == |v|
    ensures |r| == |u|
  {
    seq(|u|, i requires 0 <= i < |u| => u[i] - v[i])
  }

  /** v + c, broadcasting a scalar over a vector */
  function AddScalar(v: seq<real>, c: real): (r: seq<real>)
    ensures |r| == |v|
  {
    seq(|v|, i requires 0 <= i < |v| => v[i] + c)
  }

  /** Every row of X has n columns. */
  predicate IsMatrix(X: seq<seq<real>>, n: nat)
  {
    forall i :: 0 <= i < |X| ==> |X[i]| == n
  }

  /** np.dot(X, w): one dot product per row */
  function MatVec(X: seq<seq<real>>, w: seq<real>): (r: seq<real>)
    requires IsMatrix(X, |w|)
    ensures |r| == |X|
  {
    seq(|X|, i requires 0 <= i < |X| => Dot(X[i], w))
  }

  /** X[:, j] */
  function Column(X: seq<seq<real>>, n: nat, j: nat): (c: seq<real>)
    requires IsMatrix(X, n) && j < n
    ensures |c| == |X|
  {
    seq(|X|, i requires 0 <= i < |X| => X[i][j])
  }

  /** np.dot(X.T, v): entry j is Σ_i X[i][j]·v[i] */
  function TransposeMul(X: seq<seq<real>>, n: nat, v: seq<real>): (r: seq<real>)
    requires IsMatrix(X, n) && |v| == |X|
    ensures |r| == n
  {
    seq(n, j requires 0 <= j < n => Dot(Column(X, n, j), v))
  }

  lemma {:induction false} SumConcat(a: seq<real>, b: seq<real>)
    ensures Sum(a + b) == Sum(a) + Sum(b)
  {
    if |a| == 0 {
      assert a + b == b;
    } else {
      assert (a + b)[1..] == a[1..] + b;
      SumConcat(a[1..], b);
    }
  }

  lemma {:induction false} SumScale(c: real, v: seq<real>)
    ensures Sum(Scale(c, v)) == c * Sum(v)
  {
    if |v| > 0 {
      ScaleTail(c, v);
      SumScale(c, v[1..]);
    }
  }

  /** Adding a constant to every entry adds |v| copies of it to the sum. */
  lemma {:induction false} SumAddScalar(v: seq<real>, c: real)
    ensures Sum(AddScalar(v, c)) == Sum(v) + |v| as real * c
  {
    if |v| > 0 {
      assert AddScalar(v, c)[1..] == AddScalar(v[1..], c);
      SumAddScalar(v[1..], c);
    }
  }

  lemma {:induction false} SumZeros(n: nat)
    ensures Sum(Zeros(n)) == 0.0
  {
    if n > 0 {
      assert Zeros(n)[1..] == Zeros(n - 1);
      SumZeros(n - 1);
    }
  }

  lemma {:induction false} DotConcat(a1: seq<real>, a2: seq<real>, b1: seq<real>, b2: seq<real>)
    requires |a1| == |b1| && |a2| == |b2|
    ensures Dot(a1 + a2, b1 + b2) == Dot(a1, b1) + Dot(a2, b2)
  {
    if |a1| == 0 {
      assert a1 + a2 == a2;
      assert b1 + b2 == b2;
    } else {
      assert (a1 + a2)[1..] == a1[1..] + a2;
      assert (b1 + b2)[1..] == b1[1..] + b2;
      DotConcat(a1[1..], a2, b1[1..], b2);
    }
  }

  lemma {:induction false} DotZeros(u: seq<real>)
    ensures Dot(Zeros(|u|), u) == 0.0
  {
    if |u| > 0 {
      assert Zeros(|u|)[1..] == Zeros(|u| - 1);
      DotZeros(u[1..]);
    }
  }

  lemma {:induction false} DotSymmetric(u: seq<real>, v: seq<real>)
    requires |u| == |v|
    ensures Dot(u, v) == Dot(v, u)
  {
    if |u| > 0 {
      DotSymmetric(u[1..], v[1..]);
    }
  }

  /** A sum of squares is never negative. */
  lemma {:induction false} DotSelfNonNegative(v: seq<real>)
    ensures Dot(v, v) >= 0.0
  {
    if |v| > 0 {
      DotSelfNonNegative(v[1..]);
      assert v[0] * v[0] >= 0.0;
    }
  }

  /** Moving coordinate j of w by t moves x·w by t·x[j]. */
  lemma {:induction false} DotUpdate(x: seq<real>, w: seq<real>, j: nat, t: real)
    requires |x| == |w| && j < |w|
    ensures Dot(x, w[j := w[j] + t]) == Dot(x, w) + t * x[j]
  {
    if j == 0 {
      assert w[j := w[j] + t][1..] == w[1..];
      calc {
        Dot(x, w[j := w[j] + t]);
        x[0] * (w[0] + t) + Dot(x[1..], w[1..]);
        { assert x[0] * (w[0] + t) == x[0] * w[0] + t * x[0]; }
        Dot(x, w) + t * x[0];
      }
    } else {
      assert w[j := w[j] + t][1..] == w[1..][j - 1 := w[j] + t];
      DotUpdate(x[1..], w[1..], j - 1, t);
    }
  }

  /** Dot is additive in its first argument. */
  lemma {:induction false} DotAddLeft(a: seq<real>, b: seq<real>, v: seq<real>)
    requires |a| == |b| == |v|
    ensures Dot(Add(a, b), v) == Dot(a, v) + Dot(b, v)
  {
    if |a| > 0 {
      assert Add(a, b)[1..] == Add(a[1..], b[1..]);
      DotAddLeft(a[1..], b[1..], v[1..]);
      assert (a[0] + b[0]) * v[0] == a[0] * v[0] + b[0] * v[0];
    }
  }

  /** Dot is homogeneous in its first argument. */
  lemma {:induction false} DotScaleLeft(c: real, u: seq<real>, v: seq<real>)
    requires |u| == |v|
    ensures Dot(Scale(c, u), v) == c * Dot(u, v)
  {
    if |u| > 0 {
      ScaleTail(c, u);
      DotScaleLeft(c, u[1..], v[1..]);
      ScaleStep(c, u[0], v[0], Dot(u[1..], v[1..]), Dot(Scale(c, u[1..]), v[1..]), Dot(u, v), Dot(Scale(c, u), v));
    }
  }

  lemma {:induction false} ScaleTail(c: real, u: seq<real>)
    requires |u| > 0
    ensures Scale(c, u)[1..] == Scale(c, u[1..])
  {
    forall k | 0 <= k < |u| - 1 ensures Scale(c, u)[1..][k] == Scale(c, u[1..])[k] {
      assert u[1..][k] == u[k + 1];
    }
  }

  /** The arithmetic of one step of DotScaleLeft, over plain reals. */
  lemma {:induction false} ScaleStep(c: real, x: real, y: real, r: real, rScaled: real, s: real, sScaled: real)
    requires rScaled == c * r && s == x * y + r && sScaled == (c * x) * y + rScaled
    ensures sScaled == c * s
  {
  }

  lemma {:induction false} DotScaleBoth(c: real, v: seq<real>)
    ensures Dot(Scale(c, v), Scale(c, v)) == c * c * Dot(v, v)
  {
    DotScaleLeft(c, v, Scale(c, v));
    DotSymmetric(v, Scale(c, v));
    DotScaleLeft(c, v, v);
    assert c * (c * Dot(v, v)) == c * c * Dot(v, v);
  }

  /** (e + t·c)·(e + t·c) expanded. */
  lemma {:induction false} DotExpandSquare(e: seq<real>, c: seq<real>, t: real)
    requires |e| == |c|
    ensures Dot(Add(e, Scale(t, c)), Add(e, Scale(t, c)))
         == Dot(e, e) + 2.0 * t * Dot(c, e) + t * t * Dot(c, c)
  {
    var s := Scale(t, c);
    var u := Add(e, s);
    DotAddLeft(e, s, u);
    DotSymmetric(e, u);
    DotSymmetric(s, u);
    DotAddLeft(e, s, e);
    DotAddLeft(e, s, s);
    DotSymmetric(e, s);
    DotScaleLeft(t, c, e);
    DotScaleBoth(t, c);
  }

  /** (e + t)·(e + t) expanded, t broadcast over every entry. */
  lemma {:induction false} DotExpandShift(e: seq<real>, t: real)
    ensures Dot(AddScalar(e, t), AddScalar(e, t))
         == Dot(e, e) + 2.0 * t * Sum(e) + |e| as real * (t * t)
  {
    var f := Fill(|e|, t);
    var u := AddScalar(e, t);
    AddScalarIsAddFill(e, t);
    DotAddLeft(e, f, u);
    DotSymmetric(e, u);
    DotSymmetric(f, u);
    DotAddLeft(e, f, e);
    DotAddLeft(e, f, f);
    DotSymmetric(e, f);
    DotFillLeft(t, e);
    DotFillSelf(|e|, t);
  }

  lemma {:induction false} AddScalarIsAddFill(v: seq<real>, c: real)
    ensures AddScalar(v, c) == Add(v, Fill(|v|, c))
  {
  }

  /** Dot with a constant vector sums the other one. */
  lemma {:induction false} DotFillLeft(c: real, v: seq<real>)
    ensures Dot(Fill(|v|, c), v) == c * Sum(v)
  {
    if |v| > 0 {
      assert Fill(|v|, c)[1..] == Fill(|v| - 1, c);
      DotFillLeft(c, v[1..]);
    }
  }

  lemma {:induction false} DotFillSelf(n: nat, c: real)
    ensures Dot(Fill(n, c), Fill(n, c)) == n as real * (c * c)
  {
    if n > 0 {
      assert Fill(n, c)[1..] == Fill(n - 1, c);
      DotFillSelf(n - 1, c);
    }
  }

  /** w[j := w[j] + t]·w[j := w[j] + t] expanded. */
  lemma {:induction false} DotSelfUpdate(w: seq<real>, j: nat, t: real)
    requires j < |w|
    ensures Dot(w[j := w[j] + t], w[j := w[j] + t]) == Dot(w, w) + 2.0 * t * w[j] + t * t
  {
    var wMoved := w[j := w[j] + t];
    DotUpdate(wMoved, w, j, t);
    DotSymmetric(wMoved, w);
    DotUpdate(w, w, j, t);
  }
}
