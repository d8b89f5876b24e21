# Sampling-based MPC solvers of rllib, in Dafny

This project models the trajectory optimiser of `rllib/algorithms/control/mpc.py`
together with the small linear system of
`rllib/environment/systems/linear_system.py` and the MPC helpers of
`exps/gpucrl/util.py`, and proves properties of the model.

An `MPCSolver` keeps a distribution over action sequences: a mean plan of
`horizon` steps of `dim_action` actions, and a covariance. `forward` first
initialises the mean. On a warm start it shifts the held mean one step and
fills in the last step by the `default_action` policy; otherwise it starts from
zeros. It then runs `num_iter` rounds of generate → evaluate → select → refit
and returns the mean.

- **Cross-entropy method (`CEMShooting`).** It samples candidates and keeps
  the `num_elites` best of them. The new mean is the elites' average.
  `RandomShooting` is the same solver with exactly one round.
- **MPPI (`MPPIShooting`).** It filters Gaussian noise causally in time and
  adds it to the mean. The new mean is the candidates weighted by
  `exp(kappa·r − max kappa·r)`, and kappa's schedule advances once per round.

Layout, one module per concern:

| file | module | contents |
|---|---|---|
| `outcomes.dfy` | `Outcomes` | `Option`, `Result`, and one `Error` constructor per failure the code can meet: its own `NotImplementedError`s, and the torch, Python and numpy failures it runs into (a NaN average, an out-of-range `topk`, `None // 10`, a step without a state) |
| `vectors.dfy` | `Vectors` | vectors, plans and batches as nested sequences; sums, averages, matrix-vector products |
| `rollouts.dfy` | `Rollouts` | reference rollout, discounted sums, `_eval_mpc` |
| `mppi_filter.dfy` | `MppiFilter` | the MPPI noise filter as a specification, plus the in-place loop over an array |
| `selection.dfy` | `Selection` | CEM top-k and elite mean; MPPI weights and weighted average |
| `mpc.dfy` | `Mpc` | configurations built by the three constructors, the solver as functions of its state, and `class MpcSolver` |
| `linear_system.dfy` | `LinearSystems` | `class LinearSystem` (x' = a·x + b·u, observed through c) |
| `gpucrl_util.dfy` | `GpucrlUtil` | `large_state_termination`, the `mpc_solver` dispatch, the terminal-reward choice |

The three solver subclasses become one `class MpcSolver`. Its constant
configuration carries a `Strategy` (`Cem` or `Mppi`). Its mutable fields are
`mean`, `covariance` and `kappaStep`, the number of `kappa.update()` calls so
far. Every method is proved against a pure function of the solver state:

- `Initialize` for `initialize_actions`;
- `Candidates` for `get_candidate_action_sequence`;
- `BestAction` for `get_best_action`;
- `Refit` for `update_sequence_generation`;
- `Iteration`, `Iterations` and `Solve` for `forward`.

The Gaussian draws are inputs to `Forward`, one batch per round. For CEM a
batch holds the sampled candidates; for MPPI it holds the raw noise. The
filter loop of `get_candidate_action_sequence` assigns `noise[..., i, :]` in
place, so later steps read entries that are already filtered. `FilterInPlace`
keeps that loop over an `array`, and `Filter` is its specification.

Three behaviours of the code are kept as written:

- `num_elites` is never clamped to the number of samples. A CEM solver with
  more elites than samples fails at its first `topk`.
- `kappa.update()` runs once per round of `forward`, not once per call.
- An unknown `default_action` goes unnoticed until a warm-start call reaches the
  shift.

## Model

`Mpc.Iterations`, `Selection.MppiWeights` and `Selection.MppiBestAction` carry only shape contracts of their own. What they compute is stated by `Mpc.Solve`, `Mpc.IterationsCountKappaUpdates` and `Mpc.IterationsNeverFail`; by `Selection.MppiWeightAt`; and by `Selection.MppiBestActionIsWeightedMean` with `Vectors.WeightedMeanPlan`.

| member | source | states |
|---|---|---|
| `Rollouts.Rollout` | rllib/algorithms/control/mpc.py:17-18 | transition t starts in the state reached after the first t actions, takes action t, and earns the reward of that step |
| `Rollouts.DiscountSumIsPowerSum` | rllib/algorithms/control/mpc.py:21 | the discounted sum of the rewards is Σ_t gamma^t · r_t |
| `Rollouts.UndiscountedPowerSum` | rllib/algorithms/control/mpc.py:60 | with the default gamma = 1 the return is the plain sum of the rewards |
| `Rollouts.CandidateReturn` | rllib/algorithms/control/mpc.py:15-26 | a plan's return is Σ_t gamma^t r_t, plus gamma^H times the terminal reward of the final state exactly when a terminal reward is configured |
| `Rollouts.EvalMpc` | rllib/algorithms/control/mpc.py:15-26 | one return per candidate, each given by the closed form above |
| `Mpc.MpcSolver.EvaluateActionSequence` | rllib/algorithms/control/mpc.py:81-93 | the method evaluates exactly as `_eval_mpc` does with the solver's own models, horizon, gamma and terminal reward |
| `Mpc.ResolveNumSamples` | rllib/algorithms/control/mpc.py:70 | a missing or zero num_samples becomes 10·horizon, any other value is kept; the result is positive when the horizon is |
| `Mpc.CemNumElitesAsWritten` | rllib/algorithms/control/mpc.py:200 | an explicit nonzero num_elites is kept; without num_elites and num_samples the constructor fails; with a num_samples argument it is the elite count computed from that raw argument |
| `Mpc.CemNumElites` | rllib/algorithms/control/mpc.py:200 | an explicit nonzero num_elites is kept; the default is max(1, n // 10): at least 1, 1 when n = 0, at most the sample count n when n ≥ 1, and the largest such k with 10·k ≤ n when n ≥ 10 (n < 10·k + 10 pins it down) |
| `Mpc.CemDefaultElitesFinding` | rllib/algorithms/control/mpc.py:191-200 | with the default num_samples the code fails, and with num_samples = 0 it keeps 1 elite; the corrected default keeps horizon elites in both cases |
| `Mpc.CemConfig` | rllib/algorithms/control/mpc.py:191-200 | a CEM solver with the given rounds, the resolved sample count and the corrected elite count; well-formed whenever the horizon is positive |
| `Mpc.RandomShootingConfig` | rllib/algorithms/control/mpc.py:265-273 | random shooting is exactly the CEM configuration with one round, the same resolved sample count and elite count, and well-formed for a positive horizon |
| `Mpc.MppiConfig` | rllib/algorithms/control/mpc.py:293-307 | an MPPI solver keeping the kappa schedule, the rounds and the resolved sample count; its filter coefficients are the given ones divided by their (nonzero) sum, so they sum to 1 |
| `MppiFilter.Normalize` | rllib/algorithms/control/mpc.py:306-307 | each normalised coefficient times the original sum is the original coefficient, and the normalised coefficients sum to 1 |
| `MppiFilter.NormalizeKeepsWindows` | rllib/algorithms/control/mpc.py:306-307 | normalising a vector with a nonzero sum keeps nonzero every leading window sum the filter divides by over the horizon (lengths up to min(H, lag)), so its divisions stay defined |
| `MppiFilter.LongZeroWindowBeyondHorizon` | rllib/algorithms/control/mpc.py:314-319 | [1, 1, -2, 1] sums to 1 and has nonzero windows of lengths 1 and 2, which is all a two-step horizon divides by, although its window of length 3 sums to 0 |
| `Mpc.MppiAcceptsZeroWindowBeyondHorizon` | rllib/algorithms/control/mpc.py:293-319 | with H = 2 the coefficients [1, 1, -2, 1] build a well-formed MPPI solver: a zero window longer than the horizon is never divided by |
| `Mpc.MpcSolver.constructor` | rllib/algorithms/control/mpc.py:60-79 | a new solver holds no mean, has scale²·I as covariance at each of the H steps, and has made no kappa update |
| `Mpc.WarmShift` | rllib/algorithms/control/mpc.py:112-122 | new[t] = old[t+1] for t < H-1 and the length stays H; the last step is zero, a copy of the old last step, or the average of old[1..]; any other policy is an error |
| `Mpc.WarmShiftExample` | rllib/algorithms/control/mpc.py:113-122 | [[1],[2],[3]] becomes [[2],[3],[0]], [[2],[3],[3]] or [[2],[3],[2.5]]; the mean policy on one step and an unknown policy are errors |
| `Mpc.Initialize` | rllib/algorithms/control/mpc.py:110-127 | a cold start (warm start off or no mean held) gives H zero actions; a warm start gives the shifted mean or the shift's error; the covariance is reset to scale²·I either way |
| `Mpc.MpcSolver.InitializeActions` | rllib/algorithms/control/mpc.py:110-131 | the new state is the one `Initialize` computes; on an error the state is unchanged |
| `Mpc.UnknownDefaultActionFailsSecondCall` | rllib/algorithms/control/mpc.py:112-121 | with an unknown default_action, the first warm-start call succeeds and the second fails with that name |
| `Mpc.MpcSolver.CandidateActionSequence` | rllib/algorithms/control/mpc.py:309-322 | CEM candidates are the draws; each MPPI candidate is the mean plus that sample's noise, filtered in place along the horizon |
| `MppiFilter.LagSum` | rllib/algorithms/control/mpc.py:316-317 | the window's weighted sum has one entry per action coordinate |
| `MppiFilter.LagSumOfConstant` | rllib/algorithms/control/mpc.py:316-317 | over a constant history the weighted window sum is the coefficient sum times that vector |
| `MppiFilter.Window` | rllib/algorithms/control/mpc.py:315-319 | each coordinate of step i's window times the sum of its min(i+1, lag) coefficients is the weighted window sum |
| `MppiFilter.FilterPrefix` | rllib/algorithms/control/mpc.py:314-319 | after n passes the noise keeps its shape |
| `MppiFilter.FilterPrefixUntouched` | rllib/algorithms/control/mpc.py:314-319 | steps the loop has not reached yet still hold the raw noise |
| `MppiFilter.FilterPrefixStable` | rllib/algorithms/control/mpc.py:314-319 | a step, once filtered, is not changed by later passes |
| `MppiFilter.FilterPrefixSplit` | rllib/algorithms/control/mpc.py:314-319 | after n passes the first n steps are the final filtered steps and the rest are raw |
| `MppiFilter.Filter` | rllib/algorithms/control/mpc.py:314-319 | the filtered noise keeps the shape of the raw noise |
| `MppiFilter.FilterInPlace` | rllib/algorithms/control/mpc.py:314-319 | after the loop the array holds the filter of its old contents |
| `MppiFilter.FilterReadsFilteredHistory` | rllib/algorithms/control/mpc.py:315-319 | step i is the weighted window over the already filtered steps before i and the raw step i, divided by the window's coefficient sum |
| `MppiFilter.FilterExampleFeedsBack` | rllib/algorithms/control/mpc.py:315-319 | with coefficients [0.5, 0.5] the impulse [1, 0, 0] becomes [1, 0.5, 0.25], not the [1, 0.5, 0] a filter over the raw noise would give |
| `MppiFilter.SingleCoefficientIsIdentity` | rllib/algorithms/control/mpc.py:294-319 | the default coefficients [1.] leave the noise unchanged |
| `MppiFilter.ConstantNoiseIsFixed` | rllib/algorithms/control/mpc.py:314-319 | noise that is the same at every step passes through the filter unchanged |
| `Mpc.SingleCoefficientCandidates` | rllib/algorithms/control/mpc.py:314-321 | with one filter coefficient the MPPI candidates are the mean plus the raw noise |
| `Selection.TopIndices` | rllib/algorithms/control/mpc.py:210 | k distinct in-range indices in order of decreasing return, none worse than any index left out |
| `Selection.TopK` | rllib/algorithms/control/mpc.py:210 | fails with the requested and available counts exactly when k exceeds the number of returns; otherwise a top-k index set |
| `Selection.Gather` | rllib/algorithms/control/mpc.py:211-214 | the intended gather: the i-th elite is the whole candidate plan at the i-th chosen index |
| `Selection.RepeatInterleave` | rllib/algorithms/control/mpc.py:212-213 | repeating each index r times in place gives r times as many entries, entry j being index j / r (interleaved, not tiled) |
| `Selection.GatherAsWritten` | rllib/algorithms/control/mpc.py:211-214 | the gather as written: H rows of k·dim_action entries, entry m of step t being coordinate 0 of the action that elite m / dim_action takes at step t |
| `Selection.GatherAsWrittenDropsCoordinates` | rllib/algorithms/control/mpc.py:210-214 | with candidates [[1, 2]] and [[3, 4]] and returns [0, 1], the top-1 gather as written yields [[3, 3]] while the whole elite is [[3, 4]] |
| `Selection.CemBestAction` | rllib/algorithms/control/mpc.py:208-214 | fails exactly when num_elites exceeds the candidates; otherwise the candidates at some top-k index set |
| `Selection.ElitesMean` | rllib/algorithms/control/mpc.py:216-219 | the refit mean is H × A and each entry times the number of elites is the sum of the elites' entries there |
| `Selection.ElitesMeanWithinElites` | rllib/algorithms/control/mpc.py:216-219 | at every step and coordinate the refit mean lies between any bounds of the elites' actions there |
| `Selection.ElitesMeanOfIdentical` | rllib/algorithms/control/mpc.py:216-219 | identical elites refit to that same plan |
| `Selection.MaxOf` | rllib/algorithms/control/mpc.py:327 | the maximum is one of the values and bounds them all |
| `Selection.MppiWeightAt` | rllib/algorithms/control/mpc.py:325-327 | weight j is exp(kappa·r_j − max kappa·r), the exponent is never positive, and the weight is positive |
| `Selection.WeightsPositive` | rllib/algorithms/control/mpc.py:326-327 | every MPPI weight is positive |
| `Selection.WeightsInUnitInterval` | rllib/algorithms/control/mpc.py:326-327 | with a strictly increasing exp, every MPPI weight lies in (0, 1] |
| `Selection.BestCandidateWeighsOne` | rllib/algorithms/control/mpc.py:326-327 | a candidate with the largest kappa·return has weight exactly 1 |
| `Selection.SomeWeightIsOne` | rllib/algorithms/control/mpc.py:326-327 | some weight is exactly 1 |
| `Selection.WeightsFollowReturns` | rllib/algorithms/control/mpc.py:326-327 | with a strictly increasing exp and kappa > 0, a strictly better return gets a strictly larger weight |
| `Selection.EqualReturnsGiveUnitWeights` | rllib/algorithms/control/mpc.py:326-327 | equal returns give every candidate weight 1 |
| `Selection.WeightSumAtLeastOne` | rllib/algorithms/control/mpc.py:327-329 | the weights sum to at least 1, so the normalisation never divides by zero |
| `Vectors.WeightedMeanPlan` | rllib/algorithms/control/mpc.py:328-329 | the blended plan is H × A and each entry times the total weight is the weighted sum of the candidates' entries there |
| `Selection.MppiBestActionIsWeightedMean` | rllib/algorithms/control/mpc.py:324-329 | the MPPI weights have a positive total and the best action is the weighted mean of the candidates under them |
| `Selection.MppiBlendWithinCandidates` | rllib/algorithms/control/mpc.py:328-329 | the weighted average lies between any bounds of the candidates at each step and coordinate |
| `Selection.MppiBlendOfIdentical` | rllib/algorithms/control/mpc.py:328-329 | identical candidates blend to that same plan |
| `Mpc.BestAction` | rllib/algorithms/control/mpc.py:208-214 | fails with topk's error exactly for CEM with more elites than samples; CEM otherwise selects the candidates at a top-k index set; MPPI's `get_best_action` (lines 324-329) always returns the blend under kappa's current value |
| `Mpc.KappaAt` | rllib/algorithms/control/mpc.py:326 | a constant kappa is its value; a decaying one is its schedule at the number of updates so far |
| `Mpc.Candidates` | rllib/algorithms/control/mpc.py:309-322 | CEM candidates are the draws (CEM's sampling, lines 202-206); MPPI candidate j is the mean plus the filter of draw j |
| `Mpc.Refit` | rllib/algorithms/control/mpc.py:216-219 | CEM takes the elites' mean and sampled covariance and leaves kappa; MPPI takes the blend as mean, keeps the covariance and advances kappa once (MPPI's `update_sequence_generation`, lines 331-334) |
| `Mpc.InitCovariance` | rllib/algorithms/control/mpc.py:78-79 | H copies of scale²·I of size dim_action, as set again at lines 125-126 |
| `Mpc.MpcSolver.UpdateSequenceGeneration` | rllib/algorithms/control/mpc.py:216-219 | the new state is `Refit` of the selection: CEM takes the elites' mean and covariance, MPPI takes the blend and advances kappa once |
| `Mpc.Iteration` | rllib/algorithms/control/mpc.py:140-144 | a round fails exactly for CEM with more elites than samples; otherwise it advances kappa's count by one for MPPI and leaves it alone for CEM |
| `Mpc.CemRoundFitsElites` | rllib/algorithms/control/mpc.py:208-219 | a CEM round replaces the mean outright by the average of the candidates at a top-k set of returns, and the covariance by theirs |
| `Mpc.MppiRoundBlends` | rllib/algorithms/control/mpc.py:324-334 | an MPPI round replaces the mean by the MPPI blend of the filtered candidates at kappa's current value, keeps the covariance and advances kappa once |
| `Mpc.MppiRoundStaysWithinCandidates` | rllib/algorithms/control/mpc.py:324-334 | an MPPI round never fails, advances kappa once, and puts the new mean inside the candidates' range |
| `Mpc.IterationsCountKappaUpdates` | rllib/algorithms/control/mpc.py:331-334 | n MPPI rounds never fail and make n kappa updates; CEM rounds make none |
| `Mpc.IterationsNeverFail` | rllib/algorithms/control/mpc.py:140-144 | when CEM has at least as many samples as elites, no round fails |
| `Mpc.CemTooManyElitesFails` | rllib/algorithms/control/mpc.py:210 | a CEM solve with more elites than samples fails in its first round with topk's error, leaving the initialised state |
| `Mpc.Solve` | rllib/algorithms/control/mpc.py:133-146 | a successful solve returns the mean the solver holds afterwards, shaped H × A |
| `Mpc.NoRoundsReturnInitialMean` | rllib/algorithms/control/mpc.py:133-146 | with no rounds a cold solve returns H zero actions |
| `Mpc.MpcSolver.Round` | rllib/algorithms/control/mpc.py:141-144 | one loop pass moves the state exactly as `Iteration` does, and a failed best-action selection reports its error and leaves the state untouched |
| `Mpc.MpcSolver.Forward` | rllib/algorithms/control/mpc.py:133-146 | the result and the new state are those of `Solve` on the old state, one round per draw |
| `Mpc.MpcSolver.Reset` | rllib/algorithms/control/mpc.py:148-150 | the held mean becomes the given plan, or none; covariance and kappa are untouched |
| `LinearSystems.LinearSystem.constructor` | rllib/environment/systems/linear_system.py:8-31 | dim_state and dim_action are the shape of b, dim_observation is the row count of c, an omitted c is the identity, and there is no state yet |
| `LinearSystems.LinearSystem.SetState` | rllib/environment/systems/linear_system.py:33-39 | the getter returns what the setter stored, and the time counter is unchanged |
| `LinearSystems.LinearSystem.Reset` | rllib/environment/systems/linear_system.py:41-44 | time becomes 0, the state becomes x, the observation is c·x, and it is x itself when c is the identity |
| `LinearSystems.LinearSystem.Step` | rllib/environment/systems/linear_system.py:46-49 | the state becomes a·x + b·u and the observation is c·x'; the time counter is untouched; without a state it fails and changes nothing |
| `LinearSystems.Next` | rllib/environment/systems/linear_system.py:48 | coordinate i of the next state is row i of a times x plus row i of b times u |
| `LinearSystems.LinearSystem.State` | rllib/environment/systems/linear_system.py:33-35 | under the class invariant, a state the getter returns has dim_state entries |
| `LinearSystems.NextIsLinear` | rllib/environment/systems/linear_system.py:48 | superposition: stepping a sum of states and inputs gives the sum of the steps |
| `LinearSystems.NextWithoutInput` | rllib/environment/systems/linear_system.py:48 | with a zero input the state evolves as a·x |
| `Vectors.MatVecIdentity` | rllib/environment/systems/linear_system.py:20-22 | the default identity c observes the state itself |
| `GpucrlUtil.AnyAbove` | exps/gpucrl/util.py:502-504 | true exactly when some coordinate's absolute value exceeds the bound strictly |
| `GpucrlUtil.LargeStateTermination` | exps/gpucrl/util.py:495-504 | true exactly when some state coordinate exceeds 200 or some action coordinate exceeds 15 in absolute value |
| `GpucrlUtil.TerminationExamples` | exps/gpucrl/util.py:502-504 | a state at ±200 with an action at ±15 does not terminate; 200.5 or 15.25 does, whatever the next state |
| `GpucrlUtil.InsideBoxContinues` | exps/gpucrl/util.py:502-504 | inside the box [-200, 200] × [-15, 15] the episode never terminates |
| `GpucrlUtil.GetMpcPolicy` | exps/gpucrl/util.py:99-164 | "cem", "random" and "mppi" build CEM (scale 1/8), random shooting (scale 1/3, one round) and MPPI (scale 1/8, constant kappa, the normalised filter coefficients); the models, dim_action and terminal reward pass through unchanged; warm start is the negation of mpc_not_warm_start; any other name is an error |
| `GpucrlUtil.DispatchedSolverIsValid` | exps/gpucrl/util.py:107-162 | every solver the dispatch builds is well-formed |
| `GpucrlUtil.TerminalRewardChoice` | exps/gpucrl/util.py:451-454 | the terminal reward is the value function exactly when mpc_terminal_reward is set |

## Left out

- Gaussian sampling with `MultivariateNormal` (mpc.py:204-206, 311-312) is random. The candidate batches and the raw noise are parameters of `Forward`.
- The covariance half of `sample_mean_and_cov` is the collaborator `sampleCov`. The formula belongs to a function that is not part of this model.
- `exp` is a parameter. `ExpLike` asks only exp(0) = 1 and positivity, which the solver needs. The lemmas on the order of the weights also ask `ExpIncreasing`: exp is strictly increasing.
- A `ParameterDecay` schedule is the function `Decaying(valueAt)` of the update count. The decay classes are not part of this model.
- Constructor defaults (mpc.py:60-62, 191-194, 293-296): gamma = 1, scale = 0.3, num_iter = 1 (5 for CEM), warm_start = False, default_action = 'zero', kappa = 1 and filter_coefficients = [1.] are not filled in by the model. `SolverArgs`, `CemConfig` and `MppiConfig` take every value explicitly. `UndiscountedPowerSum` and `SingleCoefficientIsIdentity` state what the gamma and filter defaults give.
- The refit after the gather as written (`sample_mean_and_cov` on the (H, 1, k·dim_action) tensor, mpc.py:216-219) is not modelled. `CemBestAction` uses the corrected `Gather`.
- Floating point, NaN and infinity are not modelled; arithmetic is over `real`. On a one-step horizon the `mean` tail policy averages an empty range, which torch turns into NaN. The model reports `EmptyTailAverage` instead.
- Batch broadcasting, `repeat_along_dimension` and the tensor transposes (mpc.py:128-131, 138, 206, 219) are not modelled. The model plans for a single initial state.
- Rollouts.Rollout: `rollout_actions` is not part of this model. The rollout is the reference one, without the termination masking that function may apply; the `termination` argument of the solvers is therefore dropped.
- Mpc.MpcSolver.constructor: requires horizon ≥ 1, at least one sample, at least one elite, and (for MPPI) an `ExpLike` exp and normalised filter coefficients whose leading windows of length up to min(H, lag) have nonzero sums. The source divides by zero or fails inside torch in those cases. Longer windows are never divided by and may sum to zero.
- Mpc.MppiConfig: requires a nonzero coefficient sum and nonzero sums of the leading windows of length up to min(H, lag). With a zero sum the source's normalisation divides by zero and gives NaN coefficients; with a zero window within the horizon the filter divides by zero and gives NaN noise. Zero windows longer than the horizon are accepted, as in the source.
- Mpc.MpcSolver.Forward: requires one draw per round and draws shaped num_samples × H × A. Shape mismatches are torch errors outside the model.
- Mpc.MpcSolver.Reset: requires the plan to be shaped H × A. The source accepts any tensor.
- LinearSystems.LinearSystem.Reset: `reset()` with no state stores `atleast_1d(None)` and then fails in `c @ state`; only `reset(x)` with a vector is modelled. The scalar promotion of `np.atleast_1d` / `np.atleast_2d` is not modelled either.
- LinearSystems.LinearSystem.constructor: requires conforming shapes (a is n × n, b is n × m with n ≥ 1, c has n columns). numpy reports mismatches only when multiplying. The base class `AbstractSystem` is not part of this model, so the time counter starts unset.
- GpucrlUtil.GetMpcPolicy: for "mppi" requires what `Mpc.MppiConfig` requires (a nonzero coefficient sum and nonzero leading windows up to min(horizon, lag)), for the same NaN reason; zero windows longer than the horizon are accepted. The `action_scale`, `alpha` and `num_cpu` arguments that util.py passes are not parameters of the solver constructors in mpc.py, and the model drops them. `MPCPolicy`, which wraps the solver, is not part of this model.
- GpucrlUtil.LargeStateTermination: models one state and one action vector. The batched `dim=-1` reduction and the tensor conversion are left out.

## Findings

| source | as written | input that shows it | evidently intended | confidence | as-written member | corrected member |
|---|---|---|---|---|---|---|
| rllib/algorithms/control/mpc.py:211-213 | the top-k index is repeat-interleaved dim_action times along the elite axis, so the gather index has shape (H, k·dim_action, 1) and picks coordinate 0 of each elite action, dim_action times | H = 1, dim_action = 2, candidates [[1, 2]] and [[3, 4]], returns [0, 1], k = 1: the gather gives [[3, 3]] instead of the elite [[3, 4]] | the whole elite actions, shape (H, k, dim_action) | high; not executed | `Selection.GatherAsWritten`, `Selection.GatherAsWrittenDropsCoordinates` | `Selection.Gather` |
| rllib/algorithms/control/mpc.py:200 | the default `num_elites` is `max(1, num_samples // 10)` on the raw constructor argument | `num_samples=None, num_elites=None` (both defaults): `None // 10` raises TypeError; `num_samples=0` gives 1 elite of the 10·horizon samples | a tenth of the resolved sample count `self.num_samples`, at least 1 | high; not executed | `Mpc.CemNumElitesAsWritten`, `Mpc.CemDefaultElitesFinding` | `Mpc.CemNumElites` |
