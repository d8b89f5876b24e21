/**
 * The causal noise filter of MPPIShooting.get_candidate_action_sequence.
 * For step i with k = min(i + 1, lag) it overwrites
 *   noise[i] := sum_{j < k} c_j * noise[i - j] / sum_{j < k} c_j
 * IN PLACE, so the entries noise[i - j] with j > 0 it reads are the ones
 * already filtered by the earlier steps.
 */
module MppiFilter {
  import opened Vectors

  /**
   * Over a horizon of h steps the filter divides by the sums of the leading
   * windows of length min(i + 1, lag) for i < h, that is of every length up
   * to min(h, lag): each of these is non-zero, so every division is defined.
   * Longer windows are never used.
   */
  predicate WindowSumsNonzero(c: seq<real>, h: nat) {
    forall k :: 1 <= k <= |c| && k <= h ==> Sum(c[..k]) != 0.0
  }

  /** The constructor's `filter_coefficients /= torch.sum(filter_coefficients)`. */
  function Normalize(c: seq<real>): (r: seq<real>)
    requires Sum(c) != 0.0
    ensures |r| == |c| && Sum(r) == 1.0
    ensures forall i :: 0 <= i < |c| ==> r[i] * Sum(c) == c[i]
  {
    SumScale(1.0 / Sum(c), c);
    Scale(1.0 / Sum(c), c)
  }

  /** Normalising keeps every window sum non-zero. */
  lemma NormalizeKeepsWindows(c: seq<real>, h: nat)
    requires Sum(c) != 0.0 && WindowSumsNonzero(c, h)
    ensures WindowSumsNonzero(Normalize(c), h)
  {
    var total := Sum(c);
    var a := 1.0 / total;
    ReciprocalNonzero(total);
    var n := Normalize(c);
    assert n == Scale(a, c);
    forall k | 1 <= k <= |n| && k <= h
      ensures Sum(n[..k]) != 0.0
    {
      ScaledWindowSum(c, a, k);
    }
  }

  lemma ScaledWindowSum(c: seq<real>, a: real, k: nat)
    requires 1 <= k <= |c| && Sum(c[..k]) != 0.0 && a != 0.0
    ensures Sum(Scale(a, c)[..k]) != 0.0
  {
    var lead := Scale(a, c)[..k];
    forall j | 0 <= j < k
      ensures lead[j] == Scale(a, c[..k])[j]
    {
    }
    assert lead == Scale(a, c[..k]);
    SumScale(a, c[..k]);
    assert a * Sum(c[..k]) != 0.0;
  }

  /** Kept apart so that the division does not enter the window-sum proof. */
  lemma ReciprocalNonzero(t: real)
    requires t != 0.0
    ensures 1.0 / t != 0.0
  {
  }

  /** The number of coefficients used at step i: min(i + 1, lag). */
  function Lag(c: seq<real>, i: nat): (k: nat)
    ensures k <= |c| && k <= i + 1
  {
    if i + 1 < |c| then i + 1 else |c|
  }

  /** sum_{j < k} c_j * p[i - j]: the flipped coefficients against the window ending at i. */
  function LagSum(c: seq<real>, p: seq<Vector>, i: nat, k: nat, d: nat): (r: Vector)
    requires k <= |c| && k <= i + 1 && i < |p|
    requires forall j :: 0 <= j < |p| ==> |p[j]| == d
    ensures |r| == d
  {
    if k == 0 then Zeros(d)
    else Add(LagSum(c, p, i, k - 1, d), Scale(c[k - 1], p[i - (k - 1)]))
  }

  /** The filtered value of step i computed from the entries of p it reads. */
  function Window(c: seq<real>, p: seq<Vector>, i: nat, d: nat): (r: Vector)
    requires |c| >= 1 && WindowSumsNonzero(c, |p|) && i < |p|
    requires forall j :: 0 <= j < |p| ==> |p[j]| == d
    ensures |r| == d
    ensures forall e :: 0 <= e < d ==> r[e] * Sum(c[..Lag(c, i)]) == LagSum(c, p, i, Lag(c, i), d)[e]
  {
    var k := Lag(c, i);
    Scale(1.0 / Sum(c[..k]), LagSum(c, p, i, k, d))
  }

  /** The noise after the first n steps of the loop have overwritten their entries. */
  function FilterPrefix(c: seq<real>, noise: seq<Vector>, n: nat, d: nat): (r: seq<Vector>)
    requires |c| >= 1 && WindowSumsNonzero(c, |noise|) && n <= |noise|
    requires forall j :: 0 <= j < |noise| ==> |noise[j]| == d
    ensures |r| == |noise| && forall j :: 0 <= j < |r| ==> |r[j]| == d
  {
    if n == 0 then noise
    else
      var q := FilterPrefix(c, noise, n - 1, d);
      q[n - 1 := Window(c, q, n - 1, d)]
  }

  /** The noise of one sample after the whole loop over the horizon. */
  function Filter(c: seq<real>, noise: seq<Vector>, d: nat): (r: seq<Vector>)
    requires |c| >= 1 && WindowSumsNonzero(c, |noise|)
    requires forall j :: 0 <= j < |noise| ==> |noise[j]| == d
    ensures |r| == |noise| && forall j :: 0 <= j < |r| ==> |r[j]| == d
  {
    FilterPrefix(c, noise, |noise|, d)
  }

  /** The in-place loop over the horizon, for the noise of one sample. */
  method FilterInPlace(c: seq<real>, noise: array<Vector>, d: nat)
    requires |c| >= 1 && WindowSumsNonzero(c, noise.Length)
    requires forall j :: 0 <= j < noise.Length ==> |noise[j]| == d
    modifies noise
    ensures noise[..] == Filter(c, old(noise[..]), d)
  {
    ghost var raw := noise[..];
    var lag := |c|;
    for i := 0 to noise.Length
      invariant noise[..] == FilterPrefix(c, raw, i, d)
    {
      var k := if i + 1 < lag then i + 1 else lag;
      var weights := c[..k];
      var aux := LagSum(c, noise[..], i, k, d);
      noise[i] := Scale(1.0 / Sum(weights), aux);
    }
  }

  // ---------------------------------------------------------------------
  // Lemmas

  /** Entries the loop has not reached yet still hold the raw noise. */
  lemma {:induction false} FilterPrefixUntouched(c: seq<real>, noise: seq<Vector>, n: nat, d: nat, j: nat)
    requires |c| >= 1 && WindowSumsNonzero(c, |noise|) && n <= j < |noise|
    requires forall i :: 0 <= i < |noise| ==> |noise[i]| == d
    ensures FilterPrefix(c, noise, n, d)[j] == noise[j]
  {
    if n > 0 {
      FilterPrefixUntouched(c, noise, n - 1, d, j);
    }
  }

  /** Once step j is written, later steps never change it again. */
  lemma {:induction false} FilterPrefixStable(c: seq<real>, noise: seq<Vector>, n: nat, m: nat, d: nat, j: nat)
    requires |c| >= 1 && WindowSumsNonzero(c, |noise|) && j < n <= m <= |noise|
    requires forall i :: 0 <= i < |noise| ==> |noise[i]| == d
    ensures FilterPrefix(c, noise, m, d)[j] == FilterPrefix(c, noise, n, d)[j]
  {
    if m > n {
      FilterPrefixStable(c, noise, n, m - 1, d, j);
    }
  }

  /** After n steps the array holds the final filtered prefix followed by the raw rest. */
  lemma FilterPrefixSplit(c: seq<real>, noise: seq<Vector>, n: nat, d: nat)
    requires |c| >= 1 && WindowSumsNonzero(c, |noise|) && n <= |noise|
    requires forall i :: 0 <= i < |noise| ==> |noise[i]| == d
    ensures FilterPrefix(c, noise, n, d) == Filter(c, noise, d)[..n] + noise[n..]
  {
    var p, f := FilterPrefix(c, noise, n, d), Filter(c, noise, d);
    forall j | 0 <= j < |noise|
      ensures p[j] == (f[..n] + noise[n..])[j]
    {
      if j < n {
        FilterPrefixStable(c, noise, n, |noise|, d, j);
      } else {
        FilterPrefixUntouched(c, noise, n, d, j);
      }
    }
  }

  /**
   * The in-place effect: the filtered value at step i is the window over the
   * ALREADY FILTERED entries before i and the raw entry at i.
   */
  lemma FilterReadsFilteredHistory(c: seq<real>, noise: seq<Vector>, d: nat, i: nat)
    requires |c| >= 1 && WindowSumsNonzero(c, |noise|) && i < |noise|
    requires forall j :: 0 <= j < |noise| ==> |noise[j]| == d
    ensures Filter(c, noise, d)[i] == Window(c, Filter(c, noise, d)[..i] + noise[i..], i, d)
  {
    FilterPrefixStable(c, noise, i + 1, |noise|, d, i);
    FilterPrefixSplit(c, noise, i, d);
  }

  /** A noise sequence whose every window reproduces its own entry is left unchanged. */
  lemma {:induction false} FilterFixpoint(c: seq<real>, noise: seq<Vector>, n: nat, d: nat)
    requires |c| >= 1 && WindowSumsNonzero(c, |noise|) && n <= |noise|
    requires forall j :: 0 <= j < |noise| ==> |noise[j]| == d
    requires forall i :: 0 <= i < |noise| ==> Window(c, noise, i, d) == noise[i]
    ensures FilterPrefix(c, noise, n, d) == noise
  {
    if n > 0 {
      FilterFixpoint(c, noise, n - 1, d);
    }
  }

  /** A single coefficient (the default [1.]) leaves the noise unchanged. */
  lemma SingleCoefficientIsIdentity(c: seq<real>, noise: seq<Vector>, d: nat)
    requires |c| == 1 && WindowSumsNonzero(c, |noise|)
    requires forall j :: 0 <= j < |noise| ==> |noise[j]| == d
    ensures Filter(c, noise, d) == noise
  {
    assert c[..1] == c && Sum(c) == c[0] by {
      assert c[..0] == [];
    }
    forall i | 0 <= i < |noise|
      ensures Window(c, noise, i, d) == noise[i]
    {
      var w := Window(c, noise, i, d);
      assert Lag(c, i) == 1;
      assert LagSum(c, noise, i, 1, d) == Add(Zeros(d), Scale(c[0], noise[i]));
      forall e | 0 <= e < d
        ensures w[e] == noise[i][e]
      {
        assert w[e] == (1.0 / c[0]) * (0.0 + c[0] * noise[i][e]);
      }
    }
    FilterFixpoint(c, noise, |noise|, d);
  }

  /** Over a constant window the lag sum is the window's coefficient sum times the constant. */
  lemma {:induction false} LagSumOfConstant(c: seq<real>, p: seq<Vector>, i: nat, k: nat, d: nat, v: Vector)
    requires k <= |c| && k <= i + 1 && i < |p| && |v| == d
    requires forall j :: 0 <= j < |p| ==> p[j] == v
    ensures LagSum(c, p, i, k, d) == Scale(Sum(c[..k]), v)
  {
    if k > 0 {
      LagSumOfConstant(c, p, i, k - 1, d, v);
      assert c[..k][..k - 1] == c[..k - 1];
      var prev := Sum(c[..k - 1]);
      assert Sum(c[..k]) == prev + c[k - 1];
      forall e | 0 <= e < d
        ensures LagSum(c, p, i, k, d)[e] == Scale(Sum(c[..k]), v)[e]
      {
        assert LagSum(c, p, i, k, d)[e] == prev * v[e] + c[k - 1] * v[e];
      }
    }
  }

  /** Unit gain: noise that is the same vector at every step passes through unchanged. */
  lemma ConstantNoiseIsFixed(c: seq<real>, noise: seq<Vector>, d: nat, v: Vector)
    requires |c| >= 1 && WindowSumsNonzero(c, |noise|) && |v| == d
    requires forall j :: 0 <= j < |noise| ==> noise[j] == v
    ensures Filter(c, noise, d) == noise
  {
    forall i | 0 <= i < |noise|
      ensures Window(c, noise, i, d) == noise[i]
    {
      var k := Lag(c, i);
      LagSumOfConstant(c, noise, i, k, d, v);
      var s := Sum(c[..k]);
      assert s != 0.0;
      forall e | 0 <= e < d
        ensures Window(c, noise, i, d)[e] == v[e]
      {
        assert Window(c, noise, i, d)[e] == (1.0 / s) * (s * v[e]);
      }
    }
    FilterFixpoint(c, noise, |noise|, d);
  }

  /**
   * Coefficients [1, 1, -2, 1] sum to 1 and their windows of length 1 and 2
   * are non-zero, so over a two-step horizon every division is defined, even
   * though the window of length 3 sums to 0; over three steps it is not.
   */
  lemma LongZeroWindowBeyondHorizon()
    ensures Sum([1.0, 1.0, -2.0, 1.0]) == 1.0
    ensures WindowSumsNonzero([1.0, 1.0, -2.0, 1.0], 2)
    ensures !WindowSumsNonzero([1.0, 1.0, -2.0, 1.0], 3)
  {
    var c: seq<real> := [1.0, 1.0, -2.0, 1.0];
    assert c[..1] == [1.0] && c[..2] == [1.0, 1.0] && c[..3] == [1.0, 1.0, -2.0];
    assert Sum([1.0]) == 1.0;
    assert Sum([1.0, 1.0]) == 2.0;
    assert Sum([1.0, 1.0, -2.0]) == 0.0;
    assert Sum(c) == 1.0;
  }

  /**
   * Coefficients [1, 1] (normalised to [0.5, 0.5]) on the impulse [1, 0, 0]
   * give [1, 0.5, 0.25]: step 2 averages the already filtered 0.5 with 0,
   * where a window over the raw noise would give 0.
   */
  lemma FilterExampleFeedsBack()
    ensures WindowSumsNonzero([0.5, 0.5], 3)
    ensures Filter([0.5, 0.5], [[1.0], [0.0], [0.0]], 1) == [[1.0], [0.5], [0.25]]
    ensures Window([0.5, 0.5], [[1.0], [0.0], [0.0]], 2, 1) == [0.0]
  {
    var c: seq<real> := [0.5, 0.5];
    var raw: seq<Vector> := [[1.0], [0.0], [0.0]];
    assert c[..1] == [0.5] && c[..2] == c;
    assert Sum([0.5]) == 0.5 && Sum(c) == 1.0;
    var p1 := FilterPrefix(c, raw, 1, 1);
    assert Window(c, raw, 0, 1) == [1.0];
    assert p1 == [[1.0], [0.0], [0.0]];
    var p2 := FilterPrefix(c, raw, 2, 1);
    assert Window(c, p1, 1, 1) == [0.5];
    assert p2 == [[1.0], [0.5], [0.0]];
    assert LagSum(c, p2, 2, 1, 1) == [0.0];
    assert LagSum(c, p2, 2, 2, 1) == [0.25];
    assert Window(c, p2, 2, 1) == [0.25];
    assert Window(c, raw, 2, 1) == [0.0];
  }
}
