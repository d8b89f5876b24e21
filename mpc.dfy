/**
 * The sampling-based MPC solvers of rllib/algorithms/control/mpc.py.
 *
 * MPCSolver and its subclasses CEMShooting, RandomShooting and MPPIShooting
 * become one class, MpcSolver, whose constant configuration carries the
 * strategy as a tagged union. The persistent action distribution (mean,
 * covariance) and MPPI's kappa update count are its mutable fields. The
 * Gaussian draws are inputs: one candidate batch (CEM) or one raw noise
 * batch (MPPI) per iteration.
 */
module Mpc {
  import opened Outcomes
  import opened Vectors
  import opened Rollouts
  import opened MppiFilter
  import opened Selection

  /** kappa: Constant(kappa) for a plain number, or a decay schedule indexed by its update count. */
  datatype KappaSchedule = Constant(value: real) | Decaying(valueAt: nat -> real)

  /** kappa() after `step` calls of kappa.update(). */
  function KappaAt(k: KappaSchedule, step: nat): (kappa: real)
    ensures k.Constant? ==> kappa == k.value
    ensures k.Decaying? ==> kappa == k.valueAt(step)
  {
    match k
    case Constant(v) => v
    case Decaying(f) => f(step)
  }

  /** What each subclass adds to the shared solver. */
  datatype Strategy =
    | Cem(numElites: nat, sampleCov: Batch -> seq<Matrix>)  // covariance part of sample_mean_and_cov
    | Mppi(kappa: KappaSchedule, filterCoefficients: seq<real>, exp: real -> real)

  /** The solver's fixed configuration, as the constructors leave it. */
  datatype Config = Config(
    dynamics: Dynamics, reward: RewardModel, horizon: nat, dimAction: nat,
    gamma: real, scale: real, numIter: nat, numSamples: nat,
    terminalReward: Option<TerminalReward>, warmStart: bool, defaultAction: string,
    strategy: Strategy)

  ghost predicate ValidConfig(cfg: Config) {
    && cfg.horizon >= 1 && cfg.numSamples >= 1
    && (cfg.strategy.Cem? ==> cfg.strategy.numElites >= 1)
    && (cfg.strategy.Mppi? ==>
          |cfg.strategy.filterCoefficients| >= 1
          && WindowSumsNonzero(cfg.strategy.filterCoefficients, cfg.horizon)
          && ExpLike(cfg.strategy.exp))
  }

  // ---------------------------------------------------------------------
  // Constructors

  /** The arguments MPCSolver.__init__ takes from every subclass. */
  datatype SolverArgs = SolverArgs(
    dynamics: Dynamics, reward: RewardModel, dimAction: nat, horizon: nat,
    gamma: real, scale: real, numSamples: Option<nat>,
    terminalReward: Option<TerminalReward>, warmStart: bool, defaultAction: string)

  /** `10 * horizon if not num_samples else num_samples`: None and 0 both pick the default. */
  function ResolveNumSamples(horizon: nat, arg: Option<nat>): (n: nat)
    ensures horizon >= 1 ==> n >= 1
    ensures (arg.None? || arg.value == 0) ==> n == 10 * horizon
    ensures (arg.Some? && arg.value != 0) ==> n == arg.value
  {
    if arg.None? || arg.value == 0 then 10 * horizon else arg.value
  }

  function BaseConfig(args: SolverArgs, numIter: nat, strategy: Strategy): Config
  {
    Config(args.dynamics, args.reward, args.horizon, args.dimAction, args.gamma, args.scale,
           numIter, ResolveNumSamples(args.horizon, args.numSamples), args.terminalReward,
           args.warmStart, args.defaultAction, strategy)
  }

  function Max(a: int, b: int): int { if a >= b then a else b }

  /**
   * CEMShooting's num_elites AS WRITTEN: `max(1, num_samples // 10)` reads the
   * raw constructor argument, so a missing num_samples raises TypeError and
   * num_samples = 0 yields 1 elite out of 10 * horizon samples.
   */
  function CemNumElitesAsWritten(numSamplesArg: Option<nat>, numElitesArg: Option<nat>): (r: Result<nat>)
    ensures numElitesArg.Some? && numElitesArg.value != 0 ==> r == Ok(numElitesArg.value)
    ensures (numElitesArg.None? || numElitesArg.value == 0) && numSamplesArg.None? ==> r == Err(MissingNumSamples)
    ensures numSamplesArg.Some? ==> r == Ok(CemNumElites(numSamplesArg.value, numElitesArg))
  {
    if numElitesArg.Some? && numElitesArg.value != 0 then Ok(numElitesArg.value)
    else match numSamplesArg
      case None => Err(MissingNumSamples)
      case Some(n) => Ok(Max(1, n / 10))
  }

  /**
   * CEMShooting's num_elites as intended: an explicit value is kept (it is
   * never clamped), the default is a tenth of the resolved sample count, at
   * least 1 and never more than the samples.
   */
  function CemNumElites(numSamples: nat, numElitesArg: Option<nat>): (k: nat)
    ensures k >= 1
    ensures numElitesArg.Some? && numElitesArg.value != 0 ==> k == numElitesArg.value
    ensures (numElitesArg.None? || numElitesArg.value == 0) && numSamples >= 1 ==>
              k <= numSamples && k * 10 <= Max(10, numSamples)
    ensures (numElitesArg.None? || numElitesArg.value == 0) ==> numSamples < 10 * k + 10
    ensures (numElitesArg.None? || numElitesArg.value == 0) && numSamples == 0 ==> k == 1
  {
    if numElitesArg.Some? && numElitesArg.value != 0 then numElitesArg.value
    else Max(1, numSamples / 10)
  }

  /** CEMShooting.__init__ (with the corrected default for num_elites). */
  function CemConfig(args: SolverArgs, numIter: nat, numElitesArg: Option<nat>,
                     sampleCov: Batch -> seq<Matrix>): (cfg: Config)
    ensures cfg.numIter == numIter && cfg.strategy.Cem?
    ensures cfg.numSamples == ResolveNumSamples(args.horizon, args.numSamples)
    ensures cfg.strategy.numElites == CemNumElites(cfg.numSamples, numElitesArg)
    ensures args.horizon >= 1 ==> ValidConfig(cfg)
  {
    var numSamples := ResolveNumSamples(args.horizon, args.numSamples);
    BaseConfig(args, numIter, Cem(CemNumElites(numSamples, numElitesArg), sampleCov))
  }

  /** RandomShooting.__init__: CEMShooting with num_iter fixed to 1. */
  function RandomShootingConfig(args: SolverArgs, numElitesArg: Option<nat>,
                                sampleCov: Batch -> seq<Matrix>): (cfg: Config)
    ensures cfg == CemConfig(args, 1, numElitesArg, sampleCov)
    ensures cfg.numIter == 1 && cfg.strategy.Cem?
    ensures cfg.numSamples == ResolveNumSamples(args.horizon, args.numSamples)
    ensures cfg.strategy.numElites == CemNumElites(cfg.numSamples, numElitesArg)
    ensures args.horizon >= 1 ==> ValidConfig(cfg)
  {
    CemConfig(args, 1, numElitesArg, sampleCov)
  }

  /** MPPIShooting.__init__: the filter coefficients are normalised to sum to 1. */
  function MppiConfig(args: SolverArgs, numIter: nat, kappa: KappaSchedule,
                      filterCoefficients: seq<real>, exp: real -> real): (cfg: Config)
    requires Sum(filterCoefficients) != 0.0 && WindowSumsNonzero(filterCoefficients, args.horizon)
    ensures cfg.numIter == numIter && cfg.strategy.Mppi? && cfg.strategy.kappa == kappa
    ensures Sum(filterCoefficients) != 0.0 && cfg.strategy.filterCoefficients == Normalize(filterCoefficients)
    ensures Sum(cfg.strategy.filterCoefficients) == 1.0
    ensures cfg.numSamples == ResolveNumSamples(args.horizon, args.numSamples)
    ensures args.horizon >= 1 && ExpLike(exp) ==> ValidConfig(cfg)
  {
    NormalizeKeepsWindows(filterCoefficients, args.horizon);
    BaseConfig(args, numIter, Mppi(kappa, Normalize(filterCoefficients), exp))
  }

  /**
   * Windows longer than the horizon are never divided by: [1, 1, -2, 1] has a
   * zero window of length 3, yet over a two-step horizon it builds a valid
   * MPPI solver.
   */
  lemma MppiAcceptsZeroWindowBeyondHorizon(args: SolverArgs, numIter: nat, kappa: KappaSchedule, exp: real -> real)
    requires args.horizon == 2 && ExpLike(exp)
    ensures Sum([1.0, 1.0, -2.0, 1.0]) != 0.0 && WindowSumsNonzero([1.0, 1.0, -2.0, 1.0], args.horizon)
    ensures ValidConfig(MppiConfig(args, numIter, kappa, [1.0, 1.0, -2.0, 1.0], exp))
  {
    LongZeroWindowBeyondHorizon();
  }

  // ---------------------------------------------------------------------
  // The solver's state and what each step does to it

  /** The mutable part of a solver: the held mean (None until the first call), the covariance, kappa's update count. */
  datatype SolverState = SolverState(mean: Option<Plan>, covariance: seq<Matrix>, kappaStep: nat)

  predicate ShapedState(cfg: Config, st: SolverState) {
    st.mean.Some? ==> IsPlan(st.mean.value, cfg.horizon, cfg.dimAction)
  }

  /** scale^2 * I for every step of the horizon. */
  function InitCovariance(cfg: Config): (cov: seq<Matrix>)
    ensures |cov| == cfg.horizon
    ensures forall t :: 0 <= t < cfg.horizon ==> cov[t] == ScaledIdentity(cfg.dimAction, cfg.scale * cfg.scale)
  {
    seq(cfg.horizon, _ => ScaledIdentity(cfg.dimAction, cfg.scale * cfg.scale))
  }

  /** The state the constructor leaves: no mean, scale^2 * I, kappa not yet updated. */
  function InitialState(cfg: Config): SolverState
  {
    SolverState(None, InitCovariance(cfg), 0)
  }

  /**
   * The warm-start shift: drop the first step, keep the rest in order, and
   * append a final step chosen by default_action.
   */
  function WarmShift(mean: Plan, a: nat, policy: string): (r: Result<Plan>)
    requires |mean| >= 1 && IsPlan(mean, |mean|, a)
    ensures r.Ok? ==> IsPlan(r.value, |mean|, a)
    ensures r.Ok? ==> forall t :: 0 <= t < |mean| - 1 ==> r.value[t] == mean[t + 1]
    ensures policy == "zero" ==> r.Ok? && r.value[|mean| - 1] == Zeros(a)
    ensures policy == "constant" ==> r.Ok? && r.value[|mean| - 1] == mean[|mean| - 1]
    ensures policy == "mean" && |mean| == 1 ==> r == Err(EmptyTailAverage)
    ensures policy == "mean" && |mean| > 1 ==> r.Ok? && r.value[|mean| - 1] == Average(mean[1..], a)
    ensures policy != "zero" && policy != "constant" && policy != "mean" ==> r == Err(UnknownDefaultAction(policy))
  {
    var next := mean[1..];
    if policy == "zero" then Ok(next + [Zeros(a)])
    else if policy == "constant" then Ok(next + [mean[|mean| - 1]])
    else if policy == "mean" then
      if |next| == 0 then Err(EmptyTailAverage) else Ok(next + [Average(next, a)])
    else Err(UnknownDefaultAction(policy))
  }

  /**
   * initialize_actions: shift the held mean on a warm start, otherwise start
   * from zeros; the covariance is reset to scale^2 * I either way. An error
   * leaves the state as it was.
   */
  function Initialize(cfg: Config, st: SolverState): (r: Result<SolverState>)
    requires ShapedState(cfg, st) && cfg.horizon >= 1
    ensures r.Ok? ==> r.value.mean.Some? && ShapedState(cfg, r.value)
    ensures r.Ok? ==> r.value.covariance == InitCovariance(cfg) && r.value.kappaStep == st.kappaStep
    ensures !(cfg.warmStart && st.mean.Some?) ==>
      r == Ok(SolverState(Some(ZeroPlan(cfg.horizon, cfg.dimAction)), InitCovariance(cfg), st.kappaStep))
    ensures cfg.warmStart && st.mean.Some? ==>
      match WarmShift(st.mean.value, cfg.dimAction, cfg.defaultAction)
      case Ok(m) => r.Ok? && r.value.mean == Some(m)
      case Err(e) => r == Err(e)
  {
    var mean :- if cfg.warmStart && st.mean.Some?
                then WarmShift(st.mean.value, cfg.dimAction, cfg.defaultAction)
                else Ok(ZeroPlan(cfg.horizon, cfg.dimAction));
    Ok(SolverState(Some(mean), InitCovariance(cfg), st.kappaStep))
  }

  /**
   * get_candidate_action_sequence, given the Gaussian draw: CEM samples the
   * candidates directly; MPPI filters each sample's raw noise in time and
   * adds it to the mean.
   */
  function Candidates(cfg: Config, mean: Plan, draw: Batch): (cands: Batch)
    requires ValidConfig(cfg) && IsPlan(mean, cfg.horizon, cfg.dimAction)
    requires IsBatch(draw, cfg.numSamples, cfg.horizon, cfg.dimAction)
    ensures IsBatch(cands, cfg.numSamples, cfg.horizon, cfg.dimAction)
    ensures cfg.strategy.Cem? ==> cands == draw
    ensures cfg.strategy.Mppi? ==> forall j :: 0 <= j < |draw| ==>
      cands[j] == PlanAdd(mean, Filter(cfg.strategy.filterCoefficients, draw[j], cfg.dimAction))
  {
    match cfg.strategy
    case Cem(_, _) => draw
    case Mppi(_, c, _) =>
      seq(|draw|, j requires 0 <= j < |draw| => PlanAdd(mean, Filter(c, draw[j], cfg.dimAction)))
  }

  /** What get_best_action hands to update_sequence_generation. */
  datatype Selected = Elites(plans: Batch) | Blended(plan: Plan)

  predicate SelectionFits(cfg: Config, sel: Selected) {
    match sel
    case Elites(e) => cfg.strategy.Cem? && |e| > 0 && IsBatch(e, |e|, cfg.horizon, cfg.dimAction)
    case Blended(p) => cfg.strategy.Mppi? && IsPlan(p, cfg.horizon, cfg.dimAction)
  }

  /** get_best_action: CEM's top-k elites, or MPPI's exponentially weighted average. */
  function BestAction(cfg: Config, kappaStep: nat, cands: Batch, rets: seq<real>): (r: Result<Selected>)
    requires ValidConfig(cfg) && IsBatch(cands, cfg.numSamples, cfg.horizon, cfg.dimAction)
    requires |rets| == |cands|
    ensures r.Ok? ==> SelectionFits(cfg, r.value)
    ensures r.Err? <==> cfg.strategy.Cem? && cfg.strategy.numElites > cfg.numSamples
    ensures r.Err? ==> r.error == TopKOutOfRange(cfg.strategy.numElites, cfg.numSamples)
    ensures r.Ok? && cfg.strategy.Cem? ==>
      exists idx :: IsTopK(rets, idx, cfg.strategy.numElites) && r.value == Elites(Gather(cands, idx))
    ensures cfg.strategy.Mppi? ==>
      r == Ok(Blended(MppiBestAction(cfg.strategy.exp, KappaAt(cfg.strategy.kappa, kappaStep), cands, rets,
                                     cfg.horizon, cfg.dimAction)))
  {
    match cfg.strategy
    case Cem(k, _) =>
      var elites :- CemBestAction(cands, rets, k);
      Ok(Elites(elites))
    case Mppi(kappa, _, exp) =>
      Ok(Blended(MppiBestAction(exp, KappaAt(kappa, kappaStep), cands, rets, cfg.horizon, cfg.dimAction)))
  }

  /**
   * update_sequence_generation: CEM replaces mean and covariance by the
   * elites' statistics; MPPI replaces the mean and advances kappa once.
   */
  function Refit(cfg: Config, st: SolverState, sel: Selected): (r: SolverState)
    requires SelectionFits(cfg, sel)
    ensures r.mean.Some? && ShapedState(cfg, r)
    ensures sel.Elites? ==>
      r == SolverState(Some(ElitesMean(sel.plans, cfg.horizon, cfg.dimAction)), cfg.strategy.sampleCov(sel.plans), st.kappaStep)
    ensures sel.Blended? ==> r == SolverState(Some(sel.plan), st.covariance, st.kappaStep + 1)
  {
    match sel
    case Elites(e) =>
      SolverState(Some(ElitesMean(e, cfg.horizon, cfg.dimAction)), cfg.strategy.sampleCov(e), st.kappaStep)
    case Blended(p) =>
      SolverState(Some(p), st.covariance, st.kappaStep + 1)
  }

  /** One round of the loop in forward: generate, evaluate, select, refit. */
  function Iteration(cfg: Config, st: SolverState, x0: Vector, draw: Batch): (r: Result<SolverState>)
    requires ValidConfig(cfg) && st.mean.Some? && ShapedState(cfg, st)
    requires IsBatch(draw, cfg.numSamples, cfg.horizon, cfg.dimAction)
    ensures r.Ok? ==> r.value.mean.Some? && ShapedState(cfg, r.value)
    ensures r.Err? <==> cfg.strategy.Cem? && cfg.strategy.numElites > cfg.numSamples
    ensures r.Err? ==> r.error == TopKOutOfRange(cfg.strategy.numElites, cfg.numSamples)
    ensures r.Ok? ==> r.value.kappaStep == st.kappaStep + (if cfg.strategy.Mppi? then 1 else 0)
  {
    var cands := Candidates(cfg, st.mean.value, draw);
    var rets := EvalMpc(cfg.dynamics, cfg.reward, cfg.horizon, x0, cfg.gamma, cands, cfg.terminalReward);
    var sel :- BestAction(cfg, st.kappaStep, cands, rets);
    Ok(Refit(cfg, st, sel))
  }

  /** Where a run of rounds stopped: the state reached, and the error that stopped it, if any. */
  datatype Progress = Progress(state: SolverState, failure: Option<Error>)

  /** The rounds of forward, one per draw; an error stops the loop with the state reached so far. */
  function Iterations(cfg: Config, st: SolverState, x0: Vector, draws: seq<Batch>): (p: Progress)
    requires ValidConfig(cfg) && st.mean.Some? && ShapedState(cfg, st)
    requires forall i :: 0 <= i < |draws| ==> IsBatch(draws[i], cfg.numSamples, cfg.horizon, cfg.dimAction)
    ensures p.state.mean.Some? && ShapedState(cfg, p.state)
    decreases |draws|
  {
    if |draws| == 0 then Progress(st, None)
    else match Iteration(cfg, st, x0, draws[0])
      case Err(e) => Progress(st, Some(e))
      case Ok(next) =>
        var rest := draws[1..];
        assert forall i :: 0 <= i < |rest| ==> rest[i] == draws[i + 1];
        Iterations(cfg, next, x0, rest)
  }

  /**
   * forward: initialize, run the rounds, return the mean as it stands after
   * the last update. The second component is the solver's state afterwards.
   */
  function Solve(cfg: Config, st: SolverState, x0: Vector, draws: seq<Batch>): (r: (Result<Plan>, SolverState))
    requires ValidConfig(cfg) && ShapedState(cfg, st)
    requires forall i :: 0 <= i < |draws| ==> IsBatch(draws[i], cfg.numSamples, cfg.horizon, cfg.dimAction)
    ensures ShapedState(cfg, r.1)
    ensures r.0.Ok? ==> r.1.mean == Some(r.0.value) && IsPlan(r.0.value, cfg.horizon, cfg.dimAction)
  {
    match Initialize(cfg, st)
    case Err(e) => (Err(e), st)
    case Ok(s0) =>
      var p := Iterations(cfg, s0, x0, draws);
      if p.failure.Some? then (Err(p.failure.value), p.state)
      else (Ok(p.state.mean.value), p.state)
  }

  // ---------------------------------------------------------------------
  // Properties of the solver functions

  /** The three tail policies on a three-step plan with one-dimensional actions. */
  lemma WarmShiftExample()
    ensures WarmShift([[1.0], [2.0], [3.0]], 1, "zero") == Ok([[2.0], [3.0], [0.0]])
    ensures WarmShift([[1.0], [2.0], [3.0]], 1, "constant") == Ok([[2.0], [3.0], [3.0]])
    ensures WarmShift([[1.0], [2.0], [3.0]], 1, "mean") == Ok([[2.0], [3.0], [2.5]])
    ensures WarmShift([[1.0]], 1, "mean") == Err(EmptyTailAverage)
    ensures WarmShift([[1.0], [2.0]], 1, "last") == Err(UnknownDefaultAction("last"))
  {
    var m: Plan := [[1.0], [2.0], [3.0]];
    assert m[1..] == [[2.0], [3.0]];
    assert WarmShift(m, 1, "zero") == Ok(m[1..] + [Zeros(1)]);
    assert WarmShift(m, 1, "constant") == Ok(m[1..] + [m[2]]);
    assert WarmShift(m, 1, "mean") == Ok(m[1..] + [Average(m[1..], 1)]);
    var col := Column(m[1..], 0);
    assert col == [2.0, 3.0];
    assert col[..1] == [2.0];
    assert Sum(col) == Sum([2.0]) + 3.0;
    assert Sum([2.0]) == Sum([]) + 2.0;
    assert Average(m[1..], 1) == [2.5];
    assert Zeros(1) == [0.0];
    assert m[1..] + [Zeros(1)] == [[2.0], [3.0], [0.0]];
    assert m[1..] + [m[2]] == [[2.0], [3.0], [3.0]];
    assert m[1..] + [Average(m[1..], 1)] == [[2.0], [3.0], [2.5]];
  }

  /** Every round of MPPI calls kappa.update() once; CEM never touches the count. */
  lemma {:induction false} IterationsCountKappaUpdates(cfg: Config, st: SolverState, x0: Vector, draws: seq<Batch>)
    requires ValidConfig(cfg) && st.mean.Some? && ShapedState(cfg, st)
    requires forall i :: 0 <= i < |draws| ==> IsBatch(draws[i], cfg.numSamples, cfg.horizon, cfg.dimAction)
    ensures cfg.strategy.Mppi? ==> Iterations(cfg, st, x0, draws).failure.None?
    ensures Iterations(cfg, st, x0, draws).failure.None? ==>
      Iterations(cfg, st, x0, draws).state.kappaStep
        == st.kappaStep + (if cfg.strategy.Mppi? then |draws| else 0)
    decreases |draws|
  {
    if |draws| > 0 {
      var r := Iteration(cfg, st, x0, draws[0]);
      if r.Ok? {
        var rest := draws[1..];
        assert forall i :: 0 <= i < |rest| ==> rest[i] == draws[i + 1];
        IterationsCountKappaUpdates(cfg, r.value, x0, rest);
      }
    }
  }

  /**
   * A CEM solve with more elites than samples fails in its first round with
   * topk's error, leaving the freshly initialised state behind.
   */
  lemma CemTooManyElitesFails(cfg: Config, st: SolverState, x0: Vector, draws: seq<Batch>)
    requires ValidConfig(cfg) && ShapedState(cfg, st)
    requires forall i :: 0 <= i < |draws| ==> IsBatch(draws[i], cfg.numSamples, cfg.horizon, cfg.dimAction)
    requires cfg.strategy.Cem? && cfg.strategy.numElites > cfg.numSamples && |draws| >= 1
    requires Initialize(cfg, st).Ok?
    ensures Solve(cfg, st, x0, draws)
      == (Err(TopKOutOfRange(cfg.strategy.numElites, cfg.numSamples)), Initialize(cfg, st).value)
  {
  }

  /** With no rounds, forward returns the initialised mean: zeros on a cold start. */
  lemma NoRoundsReturnInitialMean(cfg: Config, st: SolverState, x0: Vector)
    requires ValidConfig(cfg) && ShapedState(cfg, st)
    requires !(cfg.warmStart && st.mean.Some?)
    ensures Solve(cfg, st, x0, []).0 == Ok(ZeroPlan(cfg.horizon, cfg.dimAction))
  {
  }

  /**
   * An unknown default_action goes unnoticed on the first call of a
   * warm-started solver and raises on the next one.
   */
  lemma UnknownDefaultActionFailsSecondCall(cfg: Config, x0: Vector, first: seq<Batch>, second: seq<Batch>)
    requires ValidConfig(cfg) && cfg.warmStart
    requires cfg.defaultAction != "zero" && cfg.defaultAction != "constant" && cfg.defaultAction != "mean"
    requires forall i :: 0 <= i < |first| ==> IsBatch(first[i], cfg.numSamples, cfg.horizon, cfg.dimAction)
    requires forall i :: 0 <= i < |second| ==> IsBatch(second[i], cfg.numSamples, cfg.horizon, cfg.dimAction)
    requires cfg.strategy.Cem? ==> cfg.strategy.numElites <= cfg.numSamples
    ensures Solve(cfg, InitialState(cfg), x0, first).0.Ok?
    ensures Solve(cfg, Solve(cfg, InitialState(cfg), x0, first).1, x0, second).0
      == Err(UnknownDefaultAction(cfg.defaultAction))
  {
    var s0 := Initialize(cfg, InitialState(cfg)).value;
    IterationsNeverFail(cfg, s0, x0, first);
  }

  /** When CEM has enough samples for its elites, no round fails. */
  lemma {:induction false} IterationsNeverFail(cfg: Config, st: SolverState, x0: Vector, draws: seq<Batch>)
    requires ValidConfig(cfg) && st.mean.Some? && ShapedState(cfg, st)
    requires forall i :: 0 <= i < |draws| ==> IsBatch(draws[i], cfg.numSamples, cfg.horizon, cfg.dimAction)
    requires cfg.strategy.Cem? ==> cfg.strategy.numElites <= cfg.numSamples
    ensures Iterations(cfg, st, x0, draws).failure.None?
    decreases |draws|
  {
    if |draws| > 0 {
      var r := Iteration(cfg, st, x0, draws[0]);
      assert r.Ok?;
      var rest := draws[1..];
      assert forall i :: 0 <= i < |rest| ==> rest[i] == draws[i + 1];
      IterationsNeverFail(cfg, r.value, x0, rest);
      assert Iterations(cfg, st, x0, draws) == Iterations(cfg, r.value, x0, rest);
    }
  }

  /**
   * A CEM round refits to the elites: the new mean is the average of the
   * candidates at some top-k set of returns, the covariance is theirs, and
   * kappa's count is untouched.
   */
  lemma CemRoundFitsElites(cfg: Config, st: SolverState, x0: Vector, draw: Batch)
    requires ValidConfig(cfg) && st.mean.Some? && ShapedState(cfg, st)
    requires IsBatch(draw, cfg.numSamples, cfg.horizon, cfg.dimAction)
    requires cfg.strategy.Cem? && cfg.strategy.numElites <= cfg.numSamples
    ensures Iteration(cfg, st, x0, draw).Ok?
    ensures exists idx :: IsTopK(EvalMpc(cfg.dynamics, cfg.reward, cfg.horizon, x0, cfg.gamma, draw, cfg.terminalReward),
                                  idx, cfg.strategy.numElites)
                       && Iteration(cfg, st, x0, draw).value
                          == SolverState(Some(ElitesMean(Gather(draw, idx), cfg.horizon, cfg.dimAction)),
                                         cfg.strategy.sampleCov(Gather(draw, idx)), st.kappaStep)
  {
    var rets := EvalMpc(cfg.dynamics, cfg.reward, cfg.horizon, x0, cfg.gamma, draw, cfg.terminalReward);
    var sel := BestAction(cfg, st.kappaStep, draw, rets);
    var idx :| IsTopK(rets, idx, cfg.strategy.numElites) && sel.value == Elites(Gather(draw, idx));
    assert Iteration(cfg, st, x0, draw) == Ok(Refit(cfg, st, sel.value));
  }

  /**
   * An MPPI round never fails, advances kappa's count by one, and puts the
   * new mean inside the range the candidates span at every step and
   * coordinate.
   */
  lemma MppiRoundStaysWithinCandidates(cfg: Config, st: SolverState, x0: Vector, draw: Batch,
                                       t: nat, e: nat, lo: real, hi: real)
    requires ValidConfig(cfg) && st.mean.Some? && ShapedState(cfg, st)
    requires IsBatch(draw, cfg.numSamples, cfg.horizon, cfg.dimAction)
    requires cfg.strategy.Mppi? && t < cfg.horizon && e < cfg.dimAction
    requires forall j :: 0 <= j < cfg.numSamples ==>
      lo <= Candidates(cfg, st.mean.value, draw)[j][t][e] <= hi
    ensures Iteration(cfg, st, x0, draw).Ok?
    ensures Iteration(cfg, st, x0, draw).value.kappaStep == st.kappaStep + 1
    ensures lo <= Iteration(cfg, st, x0, draw).value.mean.value[t][e] <= hi
  {
    var cands := Candidates(cfg, st.mean.value, draw);
    var rets := EvalMpc(cfg.dynamics, cfg.reward, cfg.horizon, x0, cfg.gamma, cands, cfg.terminalReward);
    MppiBlendWithinCandidates(cfg.strategy.exp, KappaAt(cfg.strategy.kappa, st.kappaStep), cands, rets,
                              cfg.horizon, cfg.dimAction, t, e, lo, hi);
  }

  /**
   * An MPPI round replaces the mean by the exp-weighted average of the
   * filtered candidates under the current kappa, keeps the covariance, and
   * counts one kappa update.
   */
  lemma MppiRoundBlends(cfg: Config, st: SolverState, x0: Vector, draw: Batch)
    requires ValidConfig(cfg) && st.mean.Some? && ShapedState(cfg, st)
    requires IsBatch(draw, cfg.numSamples, cfg.horizon, cfg.dimAction)
    requires cfg.strategy.Mppi?
    ensures var cands := Candidates(cfg, st.mean.value, draw);
            var rets := EvalMpc(cfg.dynamics, cfg.reward, cfg.horizon, x0, cfg.gamma, cands, cfg.terminalReward);
            Iteration(cfg, st, x0, draw)
            == Ok(SolverState(Some(MppiBestAction(cfg.strategy.exp, KappaAt(cfg.strategy.kappa, st.kappaStep),
                                                  cands, rets, cfg.horizon, cfg.dimAction)),
                              st.covariance, st.kappaStep + 1))
  {
    var cands := Candidates(cfg, st.mean.value, draw);
    var rets := EvalMpc(cfg.dynamics, cfg.reward, cfg.horizon, x0, cfg.gamma, cands, cfg.terminalReward);
    var blend := MppiBestAction(cfg.strategy.exp, KappaAt(cfg.strategy.kappa, st.kappaStep),
                                cands, rets, cfg.horizon, cfg.dimAction);
    var sel := BestAction(cfg, st.kappaStep, cands, rets);
    assert sel == Ok(Blended(blend));
    assert Refit(cfg, st, Blended(blend)) == SolverState(Some(blend), st.covariance, st.kappaStep + 1);
    assert Iteration(cfg, st, x0, draw) == Ok(Refit(cfg, st, sel.value));
  }

  /** With a single filter coefficient (the default [1.]) MPPI's candidates are the mean plus the raw noise. */
  lemma SingleCoefficientCandidates(cfg: Config, mean: Plan, draw: Batch)
    requires ValidConfig(cfg) && IsPlan(mean, cfg.horizon, cfg.dimAction)
    requires IsBatch(draw, cfg.numSamples, cfg.horizon, cfg.dimAction)
    requires cfg.strategy.Mppi? && |cfg.strategy.filterCoefficients| == 1
    ensures forall j :: 0 <= j < |draw| ==> Candidates(cfg, mean, draw)[j] == PlanAdd(mean, draw[j])
  {
    forall j | 0 <= j < |draw|
      ensures Candidates(cfg, mean, draw)[j] == PlanAdd(mean, draw[j])
    {
      SingleCoefficientIsIdentity(cfg.strategy.filterCoefficients, draw[j], cfg.dimAction);
    }
  }

  /**
   * The default num_elites as written and as intended. Without num_samples
   * the code raises TypeError although num_samples has a default; with
   * num_samples = 0 it keeps one elite out of 10 * horizon samples.
   */
  lemma CemDefaultElitesFinding(horizon: nat)
    requires horizon >= 2
    ensures CemNumElitesAsWritten(None, None) == Err(MissingNumSamples)
    ensures CemNumElites(ResolveNumSamples(horizon, None), None) == horizon
    ensures CemNumElitesAsWritten(Some(0), None) == Ok(1)
    ensures CemNumElites(ResolveNumSamples(horizon, Some(0)), None) == horizon
  {
    assert (10 * horizon) / 10 == horizon;
  }

  // ---------------------------------------------------------------------
  // The solver object

  class MpcSolver {
    const cfg: Config
    var mean: Option<Plan>
    var covariance: seq<Matrix>
    var kappaStep: nat

    function State(): SolverState
      reads this
    {
      SolverState(mean, covariance, kappaStep)
    }

    ghost predicate Valid()
      reads this
    {
      ValidConfig(cfg) && ShapedState(cfg, State())
    }

    /** MPCSolver.__init__: no mean yet, covariance scale^2 * I per step. */
    constructor (cfg: Config)
      requires ValidConfig(cfg)
      ensures Valid() && this.cfg == cfg && State() == InitialState(cfg)
    {
      this.cfg := cfg;
      mean := None;
      covariance := InitCovariance(cfg);
      kappaStep := 0;
    }

    /** evaluate_action_sequence: _eval_mpc with the solver's own models and settings. */
    function EvaluateActionSequence(actions: Batch, x0: Vector): (r: seq<real>)
      requires ValidConfig(cfg)
      requires forall j :: 0 <= j < |actions| ==> |actions[j]| == cfg.horizon
      ensures r == EvalMpc(cfg.dynamics, cfg.reward, cfg.horizon, x0, cfg.gamma, actions, cfg.terminalReward)
    {
      seq(|actions|, j requires 0 <= j < |actions| =>
        CandidateReturn(cfg.dynamics, cfg.reward, cfg.horizon, x0, cfg.gamma, actions[j], cfg.terminalReward))
    }

    method InitializeActions() returns (failure: Option<Error>)
      requires Valid()
      modifies this
      ensures Valid()
      ensures match Initialize(cfg, old(State()))
        case Ok(s) => failure.None? && State() == s
        case Err(e) => failure == Some(e) && State() == old(State())
    {
      var init := Initialize(cfg, State());
      match init
      case Err(e) =>
        failure := Some(e);
      case Ok(s) =>
        mean, covariance := s.mean, s.covariance;
        failure := None;
    }

    /**
     * get_candidate_action_sequence. For MPPI each sample's noise is copied
     * into an array and filtered in place along the horizon.
     */
    method CandidateActionSequence(draw: Batch) returns (cands: Batch)
      requires Valid() && mean.Some?
      requires IsBatch(draw, cfg.numSamples, cfg.horizon, cfg.dimAction)
      ensures cands == Candidates(cfg, mean.value, draw)
    {
      match cfg.strategy
      case Cem(_, _) =>
        cands := draw;
      case Mppi(_, c, _) =>
        cands := [];
        for j := 0 to |draw|
          invariant |cands| == j
          invariant forall i :: 0 <= i < j ==> cands[i] == PlanAdd(mean.value, Filter(c, draw[i], cfg.dimAction))
        {
          var raw := draw[j];
          var noise := new Vector[|raw|](t requires 0 <= t < |raw| => raw[t]);
          assert noise[..] == raw;
          FilterInPlace(c, noise, cfg.dimAction);
          cands := cands + [PlanAdd(mean.value, noise[..])];
        }
    }

    method UpdateSequenceGeneration(sel: Selected)
      requires Valid() && SelectionFits(cfg, sel)
      modifies this
      ensures Valid()
      ensures State() == Refit(cfg, old(State()), sel)
    {
      match sel
      case Elites(e) =>
        mean := Some(ElitesMean(e, cfg.horizon, cfg.dimAction));
        covariance := cfg.strategy.sampleCov(e);
      case Blended(p) =>
        mean := Some(p);
        kappaStep := kappaStep + 1;
    }

    /**
     * One pass of forward's loop body: candidates, their returns, the best
     * action and the refit. An error leaves the state as it was.
     */
    method Round(x0: Vector, draw: Batch) returns (failure: Option<Error>)
      requires Valid() && mean.Some?
      requires IsBatch(draw, cfg.numSamples, cfg.horizon, cfg.dimAction)
      modifies this
      ensures Valid() && mean.Some?
      ensures match Iteration(cfg, old(State()), x0, draw)
        case Ok(s) => failure.None? && State() == s
        case Err(e) => failure == Some(e) && State() == old(State())
    {
      var cands := CandidateActionSequence(draw);
      var rets := EvaluateActionSequence(cands, x0);
      var best := BestAction(cfg, kappaStep, cands, rets);
      if best.Err? {
        return Some(best.error);
      }
      UpdateSequenceGeneration(best.value);
      failure := None;
    }

    /** forward: num_iter rounds of generate, evaluate, select and refit; returns the final mean. */
    method Forward(x0: Vector, draws: seq<Batch>) returns (r: Result<Plan>)
      requires Valid()
      requires |draws| == cfg.numIter
      requires forall i :: 0 <= i < |draws| ==> IsBatch(draws[i], cfg.numSamples, cfg.horizon, cfg.dimAction)
      modifies this
      ensures Valid()
      ensures (r, State()) == Solve(cfg, old(State()), x0, draws)
    {
      var failure := InitializeActions();
      if failure.Some? {
        return Err(failure.value);
      }
      ghost var s0 := State();
      for i := 0 to |draws|
        invariant Valid() && mean.Some?
        invariant Iterations(cfg, State(), x0, draws[i..]) == Iterations(cfg, s0, x0, draws)
      {
        assert draws[i..][0] == draws[i] && draws[i..][1..] == draws[i + 1..];
        failure := Round(x0, draws[i]);
        if failure.Some? {
          return Err(failure.value);
        }
      }
      assert draws[|draws|..] == [];
      return Ok(mean.value);
    }

    /** reset: overwrite the held mean (None forgets it, so the next call starts cold). */
    method Reset(warmAction: Option<Plan>)
      requires Valid()
      requires warmAction.Some? ==> IsPlan(warmAction.value, cfg.horizon, cfg.dimAction)
      modifies this
      ensures Valid()
      ensures State() == SolverState(warmAction, old(covariance), old(kappaStep))
    {
      mean := warmAction;
    }
  }
}
