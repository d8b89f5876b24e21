/**
 * Real vectors, matrices and action sequences, with the sums and averages the
 * solvers take over them. Tensors of the source are nested sequences here.
 */
module Vectors {

  type Vector = seq<real>
  type Matrix = seq<Vector>
  /** An action sequence: one action vector per step of the horizon. */
  type Plan = seq<Vector>
  /** A batch of candidate action sequences. */
  type Batch = seq<Plan>

  predicate IsMatrix(m: Matrix, rows: nat, cols: nat) {
    |m| == rows && forall i :: 0 <= i < rows ==> |m[i]| == cols
  }

  /** `p` has `h` steps, each an action of dimension `a`. */
  predicate IsPlan(p: Plan, h: nat, a: nat) {
    IsMatrix(p, h, a)
  }

  /** `b` holds `n` plans of shape h x a. */
  predicate IsBatch(b: Batch, n: nat, h: nat, a: nat) {
    |b| == n && forall j :: 0 <= j < n ==> IsPlan(b[j], h, a)
  }

  function Zeros(d: nat): (r: Vector)
    ensures |r| == d && forall i :: 0 <= i < d ==> r[i] == 0.0
  {
    seq(d, _ => 0.0)
  }

  function Add(u: Vector, v: Vector): (r: Vector)
    requires |u| == |v|
    ensures |r| == |u| && forall i :: 0 <= i < |u| ==> r[i] == u[i] + v[i]
  {
    seq(|u|, i requires 0 <= i < |u| => u[i] + v[i])
  }

  function Scale(c: real, v: Vector): (r: Vector)
    ensures |r| == |v| && forall i :: 0 <= i < |v| ==> r[i] == c * v[i]
  {
    seq(|v|, i requires 0 <= i < |v| => c * v[i])
  }

  /** Sum of a sequence of reals, accumulated front to back. */
  function Sum(xs: seq<real>): real
  {
    if |xs| == 0 then 0.0 else Sum(xs[..|xs| - 1]) + xs[|xs| - 1]
  }

  /** Inner product: the sum of ws[j] * xs[j]. */
  function Dot(ws: seq<real>, xs: seq<real>): real
    requires |ws| == |xs|
  {
    if |ws| == 0 then 0.0
    else Dot(ws[..|ws| - 1], xs[..|xs| - 1]) + ws[|ws| - 1] * xs[|xs| - 1]
  }

  /**
   * Entry `i` of every row of `vs`: a coordinate of every vector, or the
   * actions every plan of a batch takes at one step.
   */
  function Column<T>(vs: seq<seq<T>>, i: nat): (col: seq<T>)
    requires forall j :: 0 <= j < |vs| ==> i < |vs[j]|
    ensures |col| == |vs| && forall j :: 0 <= j < |vs| ==> col[j] == vs[j][i]
  {
    seq(|vs|, j requires 0 <= j < |vs| => vs[j][i])
  }

  /** Coordinate-wise arithmetic mean of a non-empty set of vectors. */
  function Average(vs: seq<Vector>, d: nat): (r: Vector)
    requires |vs| > 0 && forall j :: 0 <= j < |vs| ==> |vs[j]| == d
    ensures |r| == d
    ensures forall i :: 0 <= i < d ==> r[i] * (|vs| as real) == Sum(Column(vs, i))
  {
    seq(d, i requires 0 <= i < d => Sum(Column(vs, i)) / (|vs| as real))
  }

  /** Coordinate-wise weighted mean: sum_j ws[j] * vs[j] / sum_j ws[j]. */
  function WeightedAverage(ws: seq<real>, vs: seq<Vector>, d: nat): (r: Vector)
    requires |ws| == |vs| && Sum(ws) > 0.0
    requires forall j :: 0 <= j < |vs| ==> |vs[j]| == d
    ensures |r| == d
    ensures forall i :: 0 <= i < d ==> r[i] * Sum(ws) == Dot(ws, Column(vs, i))
  {
    seq(d, i requires 0 <= i < d => Dot(ws, Column(vs, i)) / Sum(ws))
  }

  /** Step-by-step weighted mean of a batch of plans of shape h x a. */
  function WeightedMeanPlan(ws: seq<real>, plans: Batch, h: nat, a: nat): (m: Plan)
    requires |ws| == |plans| && Sum(ws) > 0.0 && IsBatch(plans, |plans|, h, a)
    ensures IsPlan(m, h, a)
    ensures forall t, e :: 0 <= t < h && 0 <= e < a ==> m[t][e] * Sum(ws) == Dot(ws, Column(Column(plans, t), e))
  {
    seq(h, t requires 0 <= t < h => WeightedAverage(ws, Column(plans, t), a))
  }

  function ZeroPlan(h: nat, a: nat): (r: Plan)
    ensures IsPlan(r, h, a) && forall t :: 0 <= t < h ==> r[t] == Zeros(a)
  {
    seq(h, _ => Zeros(a))
  }

  function PlanAdd(p: Plan, q: Plan): (r: Plan)
    requires |p| == |q| && forall t :: 0 <= t < |p| ==> |p[t]| == |q[t]|
    ensures |r| == |p| && forall t :: 0 <= t < |p| ==> r[t] == Add(p[t], q[t])
  {
    seq(|p|, t requires 0 <= t < |p| => Add(p[t], q[t]))
  }

  /** s * I, an n x n matrix. */
  function ScaledIdentity(n: nat, s: real): (m: Matrix)
    ensures IsMatrix(m, n, n)
    ensures forall i, j :: 0 <= i < n && 0 <= j < n ==> m[i][j] == if i == j then s else 0.0
  {
    seq(n, i => seq(n, j => if i == j then s else 0.0))
  }

  /** Matrix-vector product m @ v. */
  function MatVec(m: Matrix, v: Vector): (r: Vector)
    requires forall i :: 0 <= i < |m| ==> |m[i]| == |v|
    ensures |r| == |m|
  {
    seq(|m|, i requires 0 <= i < |m| => Dot(m[i], v))
  }

  // ---------------------------------------------------------------------
  // Lemmas

  /** A sum of values that all lie in [lo, hi] lies in [n*lo, n*hi]. */
  lemma {:induction false} SumBounds(xs: seq<real>, lo: real, hi: real)
    requires forall j :: 0 <= j < |xs| ==> lo <= xs[j] <= hi
    ensures (|xs| as real) * lo <= Sum(xs) <= (|xs| as real) * hi
  {
    if |xs| > 0 {
      SumBounds(xs[..|xs| - 1], lo, hi);
    }
  }

  /** Scaling every entry scales the sum. */
  lemma {:induction false} SumScale(c: real, xs: seq<real>)
    ensures Sum(Scale(c, xs)) == c * Sum(xs)
  {
    if |xs| > 0 {
      var n := |xs|;
      var all, init := Scale(c, xs), Scale(c, xs[..n - 1]);
      forall j | 0 <= j < n - 1
        ensures all[j] == init[j]
      {
        assert all[j] == c * xs[j];
        assert init[j] == c * xs[..n - 1][j];
      }
      assert all[..n - 1] == init;
      SumScale(c, xs[..n - 1]);
    }
  }

  /** A weighted sum with non-negative weights of values in [lo, hi]. */
  lemma DotBounds(ws: seq<real>, xs: seq<real>, lo: real, hi: real)
    requires |ws| == |xs|
    requires forall j :: 0 <= j < |ws| ==> ws[j] >= 0.0
    requires forall j :: 0 <= j < |xs| ==> lo <= xs[j] <= hi
    ensures lo * Sum(ws) <= Dot(ws, xs) <= hi * Sum(ws)
  {
    DotAtLeast(ws, xs, lo);
    DotAtMost(ws, xs, hi);
  }

  /** With non-negative weights, values at least lo weigh in at least lo times the total weight. */
  lemma {:induction false} DotAtLeast(ws: seq<real>, xs: seq<real>, lo: real)
    requires |ws| == |xs|
    requires forall j :: 0 <= j < |ws| ==> ws[j] >= 0.0 && lo <= xs[j]
    ensures lo * Sum(ws) <= Dot(ws, xs)
  {
    if |ws| > 0 {
      var n := |ws|;
      DotAtLeast(ws[..n - 1], xs[..n - 1], lo);
      var s, w, x := Sum(ws[..n - 1]), ws[n - 1], xs[n - 1];
      assert lo * (s + w) == lo * s + lo * w;
      assert lo * w <= w * x;
    }
  }

  /** With non-negative weights, values at most hi weigh in at most hi times the total weight. */
  lemma {:induction false} DotAtMost(ws: seq<real>, xs: seq<real>, hi: real)
    requires |ws| == |xs|
    requires forall j :: 0 <= j < |ws| ==> ws[j] >= 0.0 && xs[j] <= hi
    ensures Dot(ws, xs) <= hi * Sum(ws)
  {
    if |ws| > 0 {
      var n := |ws|;
      DotAtMost(ws[..n - 1], xs[..n - 1], hi);
      var s, w, x := Sum(ws[..n - 1]), ws[n - 1], xs[n - 1];
      assert hi * (s + w) == hi * s + hi * w;
      assert w * x <= hi * w;
    }
  }

  lemma QuotientBounds(s: real, n: real, lo: real, hi: real)
    requires n > 0.0 && n * lo <= s <= n * hi
    ensures lo <= s / n <= hi
  {
    var q := s / n;
    assert q * n == s;
  }

  /** Every coordinate of an average lies between the smallest and largest inputs there. */
  lemma AverageWithin(vs: seq<Vector>, d: nat, i: nat, lo: real, hi: real)
    requires |vs| > 0 && forall j :: 0 <= j < |vs| ==> |vs[j]| == d
    requires i < d
    requires forall j :: 0 <= j < |vs| ==> lo <= vs[j][i] <= hi
    ensures lo <= Average(vs, d)[i] <= hi
  {
    var col := Column(vs, i);
    SumBounds(col, lo, hi);
    QuotientBounds(Sum(col), |vs| as real, lo, hi);
  }

  /** With non-negative weights of positive total, a weighted average is a convex combination. */
  lemma WeightedAverageWithin(ws: seq<real>, vs: seq<Vector>, d: nat, i: nat, lo: real, hi: real)
    requires |ws| == |vs| && Sum(ws) > 0.0
    requires forall j :: 0 <= j < |ws| ==> ws[j] >= 0.0
    requires forall j :: 0 <= j < |vs| ==> |vs[j]| == d
    requires i < d
    requires forall j :: 0 <= j < |vs| ==> lo <= vs[j][i] <= hi
    ensures lo <= WeightedAverage(ws, vs, d)[i] <= hi
  {
    ColumnDotBounds(ws, vs, i, lo, hi);
    FactorBounds(WeightedAverage(ws, vs, d)[i], Sum(ws), Dot(ws, Column(vs, i)), lo, hi);
  }

  /** If q * s = x with s positive and x in [lo * s, hi * s], then q lies in [lo, hi]. */
  lemma FactorBounds(q: real, s: real, x: real, lo: real, hi: real)
    requires s > 0.0 && q * s == x && lo * s <= x <= hi * s
    ensures lo <= q <= hi
  {
    assert (q - lo) * s == x - lo * s;
    assert (hi - q) * s == hi * s - x;
  }

  /** DotBounds for the entries at coordinate i. */
  lemma ColumnDotBounds(ws: seq<real>, vs: seq<Vector>, i: nat, lo: real, hi: real)
    requires |ws| == |vs|
    requires forall j :: 0 <= j < |ws| ==> ws[j] >= 0.0
    requires forall j :: 0 <= j < |vs| ==> i < |vs[j]| && lo <= vs[j][i] <= hi
    ensures lo * Sum(ws) <= Dot(ws, Column(vs, i)) <= hi * Sum(ws)
  {
    DotBounds(ws, Column(vs, i), lo, hi);
  }

  /** A row that is 1 at column i and 0 elsewhere picks coordinate i. */
  lemma {:induction false} DotUnit(e: seq<real>, x: seq<real>, i: nat)
    requires |e| == |x|
    requires forall j :: 0 <= j < |e| ==> e[j] == if j == i then 1.0 else 0.0
    ensures Dot(e, x) == if i < |e| then x[i] else 0.0
  {
    if |e| > 0 {
      DotUnit(e[..|e| - 1], x[..|x| - 1], i);
    }
  }

  /** The identity matrix maps every vector to itself. */
  lemma MatVecIdentity(x: Vector)
    ensures MatVec(ScaledIdentity(|x|, 1.0), x) == x
  {
    var id := ScaledIdentity(|x|, 1.0);
    forall i | 0 <= i < |x|
      ensures MatVec(id, x)[i] == x[i]
    {
      DotUnit(id[i], x, i);
    }
  }
}
