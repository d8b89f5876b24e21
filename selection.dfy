/**
 * How each strategy turns scored candidates into the next mean:
 * CEMShooting.get_best_action / update_sequence_generation (top-k elites and
 * their average) and MPPIShooting.get_best_action (exponential reweighting
 * of every candidate).
 */
module Selection {
  import opened Outcomes
  import opened Vectors

  // ---------------------------------------------------------------------
  // CEM: top-k elite selection

  /**
   * The best index in [i, |rs|) that is not in `taken`: the highest return,
   * the lowest index among equal returns; -1 when every index is taken.
   */
  function BestFrom(rs: seq<real>, taken: seq<nat>, i: nat): (b: int)
    requires i <= |rs|
    decreases |rs| - i
    ensures b == -1 <==> forall j: nat :: i <= j < |rs| ==> j in taken
    ensures b != -1 ==> i <= b < |rs| && b !in taken
    ensures b != -1 ==> forall j: nat :: i <= j < |rs| && j !in taken ==> rs[j] <= rs[b]
  {
    if i == |rs| then -1
    else
      var rest := BestFrom(rs, taken, i + 1);
      if i in taken then rest
      else if rest == -1 || rs[i] >= rs[rest] then i
      else rest
  }

  predicate Distinct(s: seq<nat>) {
    forall a, b :: 0 <= a < b < |s| ==> s[a] != s[b]
  }

  /** Removing entry p of a duplicate-free sequence keeps it duplicate-free and loses exactly that value. */
  lemma RemoveAt(s: seq<nat>, p: nat)
    requires p < |s| && Distinct(s)
    ensures Distinct(s[..p] + s[p + 1..])
    ensures forall x :: x in s[..p] + s[p + 1..] <==> x in s && x != s[p]
  {
    var rest := s[..p] + s[p + 1..];
    forall a, b | 0 <= a < b < |rest|
      ensures rest[a] != rest[b]
    {
      var a', b' := if a < p then a else a + 1, if b < p then b else b + 1;
      assert rest[a] == s[a'] && rest[b] == s[b'];
    }
    forall x | x in s && x != s[p]
      ensures x in rest
    {
      var q :| 0 <= q < |s| && s[q] == x;
      if q < p {
        assert rest[q] == x;
      } else {
        assert rest[q - 1] == x;
      }
    }
  }

  /** Fewer than n distinct indices below n leave one of them free. */
  lemma {:induction false} FreeIndex(taken: seq<nat>, n: nat)
    requires |taken| < n && Distinct(taken)
    requires forall a :: 0 <= a < |taken| ==> taken[a] < n
    ensures exists j: nat :: j < n && j !in taken
  {
    if n - 1 in taken {
      var p :| 0 <= p < |taken| && taken[p] == n - 1;
      var rest := taken[..p] + taken[p + 1..];
      RemoveAt(taken, p);
      forall a | 0 <= a < |rest|
        ensures rest[a] < n - 1
      {
        assert rest[a] in rest;
      }
      FreeIndex(rest, n - 1);
      var j: nat :| j < n - 1 && j !in rest;
      assert j !in taken;
    } else {
      assert n - 1 !in taken;
    }
  }

  /** `idx` picks `k` distinct candidates, none of them worse than any candidate left out. */
  predicate IsTopK(rs: seq<real>, idx: seq<nat>, k: nat) {
    && |idx| == k
    && (forall a :: 0 <= a < k ==> idx[a] < |rs|)
    && Distinct(idx)
    && (forall a, j: nat :: 0 <= a < k && j < |rs| && j !in idx ==> rs[j] <= rs[idx[a]])
  }

  /** A top set listed in order of decreasing return. */
  predicate IsRankedTop(rs: seq<real>, idx: seq<nat>) {
    IsTopK(rs, idx, |idx|) && forall a, b :: 0 <= a < b < |idx| ==> rs[idx[a]] >= rs[idx[b]]
  }

  /** Appending the best index left out extends a ranked top set by one. */
  lemma ExtendRankedTop(rs: seq<real>, prev: seq<nat>, b: nat)
    requires IsRankedTop(rs, prev)
    requires b < |rs| && b !in prev
    requires forall j: nat :: j < |rs| && j !in prev ==> rs[j] <= rs[b]
    ensures IsRankedTop(rs, prev + [b])
  {
    var idx := prev + [b];
    var k := |idx|;
    assert forall a :: 0 <= a < k - 1 ==> idx[a] == prev[a];
    assert forall j: nat :: j !in idx ==> j !in prev && j != b;
    forall a, b' | 0 <= a < b' < k
      ensures rs[idx[a]] >= rs[idx[b']]
    {
      if b' == k - 1 {
        assert idx[b'] !in prev;
      }
    }
  }

  /**
   * torch.topk(returns, k).indices: k distinct indices, in order of
   * decreasing return, none of them worse than any index left out.
   */
  function TopIndices(rs: seq<real>, k: nat): (idx: seq<nat>)
    requires k <= |rs|
    ensures |idx| == k && IsRankedTop(rs, idx)
  {
    if k == 0 then []
    else
      var prev := TopIndices(rs, k - 1);
      FreeIndex(prev, |rs|);
      var b := BestFrom(rs, prev, 0);
      ExtendRankedTop(rs, prev, b as nat);
      prev + [b as nat]
  }

  /** topk with the requested count checked against the number of candidates. */
  function TopK(rs: seq<real>, k: nat): (r: Result<seq<nat>>)
    ensures r.Err? <==> k > |rs|
    ensures r.Err? ==> r.error == TopKOutOfRange(k, |rs|)
    ensures r.Ok? ==> IsTopK(rs, r.value, k)
  {
    if k > |rs| then Err(TopKOutOfRange(k, |rs|)) else Ok(TopIndices(rs, k))
  }

  /** torch.gather along the sample axis: the candidates at the chosen indices. */
  function Gather(cands: Batch, idx: seq<nat>): (elites: Batch)
    requires forall a :: 0 <= a < |idx| ==> idx[a] < |cands|
    ensures |elites| == |idx| && forall a :: 0 <= a < |idx| ==> elites[a] == cands[idx[a]]
  {
    seq(|idx|, a requires 0 <= a < |idx| => cands[idx[a]])
  }

  /** torch.repeat_interleave on a flat index: every entry repeated r times in place. */
  function RepeatInterleave(xs: seq<nat>, r: nat): (ys: seq<nat>)
    ensures |ys| == |xs| * r
    ensures Interleaved(ys, xs, r)
  {
    if |xs| == 0 then []
    else
      var rest := RepeatInterleave(xs[1..], r);
      var head := seq(r, _ => xs[0]);
      assert |xs| * r == r + |xs[1..]| * r;
      RepeatInterleaveCons(xs, r, head, rest);
      head + rest
  }

  /** Entry j of ys is entry j / r of xs: each entry of xs repeated r times in place. */
  predicate Interleaved(ys: seq<nat>, xs: seq<nat>, r: nat) {
    forall j :: 0 <= j < |ys| ==> r > 0 && j / r < |xs| && ys[j] == xs[j / r]
  }

  /** Putting r copies of xs[0] before the interleaved tail interleaves all of xs. */
  lemma RepeatInterleaveCons(xs: seq<nat>, r: nat, head: seq<nat>, rest: seq<nat>)
    requires |xs| > 0 && |head| == r && forall i :: 0 <= i < r ==> head[i] == xs[0]
    requires Interleaved(rest, xs[1..], r)
    ensures Interleaved(head + rest, xs, r)
  {
    forall j | 0 <= j < |head + rest|
      ensures r > 0 && j / r < |xs| && (head + rest)[j] == xs[j / r]
    {
      if j < r {
        DivUnique(j, r, 0, j);
        assert (head + rest)[j] == head[j];
      } else {
        var i := j - r;
        assert i / r < |xs[1..]| && rest[i] == xs[1..][i / r];
        DivShift(j, r);
        assert (head + rest)[j] == rest[i];
      }
    }
  }

  /** q is the quotient of j by r when j lies in [q * r, q * r + r). */
  lemma DivUnique(j: int, r: int, q: int, s: int)
    requires r > 0 && 0 <= s < r && j == q * r + s
    ensures j / r == q
  {
    var d, m := j / r, j % r;
    assert j == d * r + m;
    assert (q - d) * r == q * r - d * r;
    if q - d >= 1 {
      MulAtLeast(q - d, r);
      assert false;
    } else if d - q >= 1 {
      MulAtLeast(d - q, r);
      assert false;
    }
  }

  lemma MulAtLeast(k: int, r: int)
    requires k >= 1 && r > 0
    ensures k * r >= r
  {
    assert k * r == (k - 1) * r + r;
  }

  /** Dropping r from j drops its quotient by r by one. */
  lemma DivShift(j: int, r: int)
    requires r > 0 && j >= r
    ensures (j - r) / r == j / r - 1
  {
    var q, s := (j - r) / r, (j - r) % r;
    assert j - r == q * r + s;
    assert j == (q + 1) * r + s;
    DivUnique(j, r, q + 1, s);
  }

  /**
   * The gather of CEMShooting.get_best_action AS WRITTEN. The index is
   * repeated H times along the step axis and then dim_action times along the
   * ELITE axis, giving shape (H, k * A, 1); gathering along the sample axis
   * with it reads, at every step, the entry at coordinate 0 of an elite
   * k * A times over, and never any other coordinate.
   */
  function GatherAsWritten(cands: Batch, idx: seq<nat>, h: nat, a: nat): (g: seq<seq<real>>)
    requires IsBatch(cands, |cands|, h, a)
    requires forall i :: 0 <= i < |idx| ==> idx[i] < |cands|
    ensures |g| == h && forall t :: 0 <= t < h ==> |g[t]| == |idx| * a
    ensures forall t, m :: 0 <= t < h && 0 <= m < |g[t]| ==>
      m / a < |idx| && g[t][m] == cands[idx[m / a]][t][0]
  {
    seq(h, t requires 0 <= t < h => GatherStepAsWritten(cands, idx, h, a, t))
  }

  /** Step t of the gather as written: coordinate 0 of elite m / a at entry m. */
  function GatherStepAsWritten(cands: Batch, idx: seq<nat>, h: nat, a: nat, t: nat): (row: seq<real>)
    requires IsBatch(cands, |cands|, h, a)
    requires forall i :: 0 <= i < |idx| ==> idx[i] < |cands|
    requires t < h
    ensures |row| == |idx| * a
    ensures forall m :: 0 <= m < |row| ==> 0 < a && m / a < |idx| && row[m] == cands[idx[m / a]][t][0]
  {
    var flat := RepeatInterleave(idx, a);
    seq(|flat|, m requires 0 <= m < |flat| => cands[flat[m]][t][0])
  }

  /**
   * With two-dimensional actions the gather as written and the intended one
   * part ways: for candidates [[1, 2]] and [[3, 4]] with returns [0, 1] the
   * top-1 set is [1]; the code keeps [3, 3] (coordinate 0, twice) where the
   * whole elite action [3, 4] is meant.
   */
  lemma GatherAsWrittenDropsCoordinates()
    ensures IsTopK([0.0, 1.0], [1], 1)
    ensures GatherAsWritten([[[1.0, 2.0]], [[3.0, 4.0]]], [1], 1, 2) == [[3.0, 3.0]]
    ensures Gather([[[1.0, 2.0]], [[3.0, 4.0]]], [1]) == [[[3.0, 4.0]]]
  {
    var cands: Batch := [[[1.0, 2.0]], [[3.0, 4.0]]];
    var g := GatherAsWritten(cands, [1], 1, 2);
    assert g[0][0] == cands[1][0][0] && g[0][1] == cands[1][0][0];
    assert g[0] == [3.0, 3.0];
  }

  /** CEMShooting.get_best_action: the num_elites candidates with the highest returns. */
  function CemBestAction(cands: Batch, rs: seq<real>, k: nat): (r: Result<Batch>)
    requires |rs| == |cands|
    ensures r.Err? <==> k > |cands|
    ensures r.Err? ==> r.error == TopKOutOfRange(k, |cands|)
    ensures r.Ok? ==> exists idx :: IsTopK(rs, idx, k) && r.value == Gather(cands, idx)
  {
    match TopK(rs, k)
    case Err(e) => Err(e)
    case Ok(idx) => Ok(Gather(cands, idx))
  }

  /** The mean part of sample_mean_and_cov over the elites: per step, the average elite action. */
  function ElitesMean(elites: Batch, h: nat, a: nat): (m: Plan)
    requires |elites| > 0 && IsBatch(elites, |elites|, h, a)
    ensures IsPlan(m, h, a)
    ensures forall t, e :: 0 <= t < h && 0 <= e < a ==>
      m[t][e] * (|elites| as real) == Sum(Column(Column(elites, t), e))
  {
    seq(h, t requires 0 <= t < h => Average(Column(elites, t), a))
  }

  /**
   * The refit mean lies in the elites' range: at every step and coordinate it
   * is between any lower and upper bound of the elites' actions there.
   */
  lemma ElitesMeanWithinElites(elites: Batch, h: nat, a: nat, t: nat, e: nat, lo: real, hi: real)
    requires |elites| > 0 && IsBatch(elites, |elites|, h, a)
    requires t < h && e < a
    requires forall j :: 0 <= j < |elites| ==> lo <= elites[j][t][e] <= hi
    ensures lo <= ElitesMean(elites, h, a)[t][e] <= hi
  {
    AverageWithin(Column(elites, t), a, e, lo, hi);
  }

  /** When every elite is the same plan, the refit mean is that plan. */
  lemma ElitesMeanOfIdentical(elites: Batch, h: nat, a: nat, p: Plan)
    requires |elites| > 0 && IsBatch(elites, |elites|, h, a)
    requires forall j :: 0 <= j < |elites| ==> elites[j] == p
    ensures ElitesMean(elites, h, a) == p
  {
    var m := ElitesMean(elites, h, a);
    assert IsPlan(p, h, a) by { assert elites[0] == p; }
    forall t, e | 0 <= t < h && 0 <= e < a
      ensures m[t][e] == p[t][e]
    {
      ElitesMeanWithinElites(elites, h, a, t, e, p[t][e], p[t][e]);
    }
    forall t | 0 <= t < h
      ensures m[t] == p[t]
    {
    }
  }

  // ---------------------------------------------------------------------
  // MPPI: exponential reweighting

  /** What the MPPI mean needs of exp: exp(0) = 1 and exp is always positive. */
  ghost predicate ExpLike(exp: real -> real) {
    && exp(0.0) == 1.0
    && (forall x :: exp(x) > 0.0)
  }

  /** What the ordering of the weights needs of exp besides: it is strictly increasing. */
  ghost predicate ExpIncreasing(exp: real -> real) {
    forall x, y :: x < y ==> exp(x) < exp(y)
  }

  /** torch.max over a non-empty sequence. */
  function MaxOf(xs: seq<real>): (m: real)
    requires |xs| > 0
    ensures exists j :: 0 <= j < |xs| && xs[j] == m
    ensures forall j :: 0 <= j < |xs| ==> xs[j] <= m
  {
    if |xs| == 1 then xs[0]
    else
      var m' := MaxOf(xs[..|xs| - 1]);
      if xs[|xs| - 1] > m' then xs[|xs| - 1] else m'
  }

  /** An entry no smaller than every other entry is the maximum. */
  lemma MaxIsAttained(xs: seq<real>, b: nat)
    requires b < |xs| && forall i :: 0 <= i < |xs| ==> xs[i] <= xs[b]
    ensures xs[b] == MaxOf(xs)
  {
  }

  /** weights = exp(kappa * returns - max(kappa * returns)), one per candidate. */
  function MppiWeights(exp: real -> real, kappa: real, rs: seq<real>): (ws: seq<real>)
    requires |rs| > 0
    ensures |ws| == |rs|
  {
    var scaled := Scale(kappa, rs);
    var top := MaxOf(scaled);
    seq(|rs|, j requires 0 <= j < |rs| => exp(scaled[j] - top))
  }

  /**
   * Weight j is exp of candidate j's scaled return shifted by the largest
   * one, so its exponent is never positive; with a positive exp it is positive.
   */
  lemma MppiWeightAt(exp: real -> real, kappa: real, rs: seq<real>, j: nat)
    requires j < |rs|
    ensures MppiWeights(exp, kappa, rs)[j] == exp(kappa * rs[j] - MaxOf(Scale(kappa, rs)))
    ensures kappa * rs[j] <= MaxOf(Scale(kappa, rs))
    ensures ExpLike(exp) ==> MppiWeights(exp, kappa, rs)[j] > 0.0
  {
    assert Scale(kappa, rs)[j] == kappa * rs[j];
  }

  /** exp of a non-positive argument lies in (0, 1]. */
  lemma ExpOfNonPositive(exp: real -> real, x: real)
    requires ExpLike(exp) && ExpIncreasing(exp) && x <= 0.0
    ensures 0.0 < exp(x) <= 1.0
  {
    if x < 0.0 {
      assert exp(x) < exp(0.0);
    }
  }

  /** Every weight lies in (0, 1]. */
  lemma WeightsInUnitInterval(exp: real -> real, kappa: real, rs: seq<real>)
    requires ExpLike(exp) && ExpIncreasing(exp) && |rs| > 0
    ensures forall j :: 0 <= j < |rs| ==> 0.0 < MppiWeights(exp, kappa, rs)[j] <= 1.0
  {
    var top := MaxOf(Scale(kappa, rs));
    var ws := MppiWeights(exp, kappa, rs);
    forall j | 0 <= j < |rs|
      ensures 0.0 < ws[j] <= 1.0
    {
      MppiWeightAt(exp, kappa, rs, j);
      ExpOfNonPositive(exp, kappa * rs[j] - top);
    }
  }

  /** A candidate with the largest kappa * return gets weight exactly 1. */
  lemma BestCandidateWeighsOne(exp: real -> real, kappa: real, rs: seq<real>, b: nat)
    requires ExpLike(exp) && b < |rs|
    requires forall i :: 0 <= i < |rs| ==> kappa * rs[i] <= kappa * rs[b]
    ensures MppiWeights(exp, kappa, rs)[b] == 1.0
  {
    MppiWeightAt(exp, kappa, rs, b);
    ScaledMaxAt(kappa, rs, b);
  }

  lemma ScaledMaxAt(kappa: real, rs: seq<real>, b: nat)
    requires b < |rs|
    requires forall i :: 0 <= i < |rs| ==> kappa * rs[i] <= kappa * rs[b]
    ensures kappa * rs[b] - MaxOf(Scale(kappa, rs)) == 0.0
  {
    MaxIsAttained(Scale(kappa, rs), b);
  }

  /** Some candidate always has weight exactly 1. */
  lemma SomeWeightIsOne(exp: real -> real, kappa: real, rs: seq<real>)
    requires ExpLike(exp) && |rs| > 0
    ensures exists j :: 0 <= j < |rs| && MppiWeights(exp, kappa, rs)[j] == 1.0
  {
    var scaled := Scale(kappa, rs);
    var i :| 0 <= i < |rs| && scaled[i] == MaxOf(scaled);
    MppiWeightAt(exp, kappa, rs, i);
  }

  /** With kappa > 0 a strictly higher return gets a strictly larger weight. */
  lemma WeightsFollowReturns(exp: real -> real, kappa: real, rs: seq<real>, a: nat, b: nat)
    requires ExpLike(exp) && ExpIncreasing(exp) && kappa > 0.0
    requires a < |rs| && b < |rs| && rs[a] > rs[b]
    ensures MppiWeights(exp, kappa, rs)[a] > MppiWeights(exp, kappa, rs)[b]
  {
    var top := MaxOf(Scale(kappa, rs));
    MppiWeightAt(exp, kappa, rs, a);
    MppiWeightAt(exp, kappa, rs, b);
    assert kappa * rs[a] - kappa * rs[b] == kappa * (rs[a] - rs[b]);
    assert kappa * (rs[a] - rs[b]) > 0.0;
    assert kappa * rs[b] - top < kappa * rs[a] - top;
  }

  /** Equal returns give every candidate the weight 1. */
  lemma EqualReturnsGiveUnitWeights(exp: real -> real, kappa: real, rs: seq<real>)
    requires ExpLike(exp) && |rs| > 0
    requires forall j :: 0 <= j < |rs| ==> rs[j] == rs[0]
    ensures forall j :: 0 <= j < |rs| ==> MppiWeights(exp, kappa, rs)[j] == 1.0
  {
    forall j | 0 <= j < |rs|
      ensures MppiWeights(exp, kappa, rs)[j] == 1.0
    {
      BestCandidateWeighsOne(exp, kappa, rs, j);
    }
  }

  lemma {:induction false} SumAtLeastEntry(ws: seq<real>, j: nat)
    requires j < |ws| && forall i :: 0 <= i < |ws| ==> ws[i] >= 0.0
    ensures Sum(ws) >= ws[j]
  {
    var n := |ws|;
    var front := ws[..n - 1];
    SumBounds(front, 0.0, MaxOf(ws));
    if j < n - 1 {
      SumAtLeastEntry(front, j);
    }
  }

  /** With a positive exp every weight is positive. */
  lemma WeightsPositive(exp: real -> real, kappa: real, rs: seq<real>)
    requires ExpLike(exp) && |rs| > 0
    ensures forall j :: 0 <= j < |rs| ==> MppiWeights(exp, kappa, rs)[j] > 0.0
  {
    forall j | 0 <= j < |rs|
      ensures MppiWeights(exp, kappa, rs)[j] > 0.0
    {
      MppiWeightAt(exp, kappa, rs, j);
    }
  }

  /** The weights sum to at least 1, so the normalisation never divides by zero. */
  lemma WeightSumAtLeastOne(exp: real -> real, kappa: real, rs: seq<real>)
    requires ExpLike(exp) && |rs| > 0
    ensures Sum(MppiWeights(exp, kappa, rs)) >= 1.0
  {
    SomeWeightIsOne(exp, kappa, rs);
    var ws := MppiWeights(exp, kappa, rs);
    var j :| 0 <= j < |rs| && ws[j] == 1.0;
    WeightsPositive(exp, kappa, rs);
    SumAtLeastEntry(ws, j);
  }

  /** MPPIShooting.get_best_action: sum_j w_j * a_j / sum_j w_j, step by step. */
  function MppiBestAction(exp: real -> real, kappa: real, cands: Batch, rs: seq<real>, h: nat, a: nat): (m: Plan)
    requires ExpLike(exp) && |cands| > 0 && |rs| == |cands|
    requires IsBatch(cands, |cands|, h, a)
    ensures IsPlan(m, h, a)
  {
    WeightSumAtLeastOne(exp, kappa, rs);
    WeightedMeanPlan(MppiWeights(exp, kappa, rs), cands, h, a)
  }

  /** The MPPI mean is the weighted mean of the candidates under the MPPI weights, whose total is positive. */
  lemma MppiBestActionIsWeightedMean(exp: real -> real, kappa: real, cands: Batch, rs: seq<real>, h: nat, a: nat)
    requires ExpLike(exp) && |cands| > 0 && |rs| == |cands|
    requires IsBatch(cands, |cands|, h, a)
    ensures Sum(MppiWeights(exp, kappa, rs)) > 0.0
    ensures MppiBestAction(exp, kappa, cands, rs, h, a) == WeightedMeanPlan(MppiWeights(exp, kappa, rs), cands, h, a)
  {
    WeightSumAtLeastOne(exp, kappa, rs);
  }

  /** The MPPI mean lies in the candidates' range at every step and coordinate. */
  lemma MppiBlendWithinCandidates(exp: real -> real, kappa: real, cands: Batch, rs: seq<real>,
                                  h: nat, a: nat, t: nat, e: nat, lo: real, hi: real)
    requires ExpLike(exp) && |cands| > 0 && |rs| == |cands|
    requires IsBatch(cands, |cands|, h, a)
    requires t < h && e < a
    requires forall j :: 0 <= j < |cands| ==> lo <= cands[j][t][e] <= hi
    ensures lo <= MppiBestAction(exp, kappa, cands, rs, h, a)[t][e] <= hi
  {
    var ws := MppiWeights(exp, kappa, rs);
    WeightsPositive(exp, kappa, rs);
    WeightSumAtLeastOne(exp, kappa, rs);
    WeightedAverageWithin(ws, Column(cands, t), a, e, lo, hi);
  }

  /** When every candidate is the same plan, MPPI returns that plan, whatever the returns. */
  lemma MppiBlendOfIdentical(exp: real -> real, kappa: real, cands: Batch, rs: seq<real>, h: nat, a: nat, p: Plan)
    requires ExpLike(exp) && |cands| > 0 && |rs| == |cands|
    requires IsBatch(cands, |cands|, h, a)
    requires forall j :: 0 <= j < |cands| ==> cands[j] == p
    ensures MppiBestAction(exp, kappa, cands, rs, h, a) == p
  {
    var m := MppiBestAction(exp, kappa, cands, rs, h, a);
    assert IsPlan(p, h, a) by { assert cands[0] == p; }
    forall t, e | 0 <= t < h && 0 <= e < a
      ensures m[t][e] == p[t][e]
    {
      MppiBlendWithinCandidates(exp, kappa, cands, rs, h, a, t, e, p[t][e], p[t][e]);
    }
    forall t | 0 <= t < h
      ensures m[t] == p[t]
    {
    }
  }
}
