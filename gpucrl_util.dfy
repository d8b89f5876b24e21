/**
 * The MPC-related helpers of exps/gpucrl/util.py: the box-bound termination
 * condition, the choice of solver from the experiment parameters, and the
 * choice of terminal reward.
 */
module GpucrlUtil {
  import opened Outcomes
  import opened Vectors
  import opened Rollouts
  import opened MppiFilter
  import opened Selection
  import opened Mpc

  function Abs(x: real): real { if x < 0.0 then -x else x }

  /** torch.any(torch.abs(v) > bound): some coordinate exceeds the bound strictly. */
  predicate AnyAbove(v: Vector, bound: real)
    ensures AnyAbove(v, bound) <==> exists i :: 0 <= i < |v| && Abs(v[i]) > bound
  {
    if |v| == 0 then false
    else
      assert forall i :: 0 <= i < |v| - 1 ==> v[..|v| - 1][i] == v[i];
      Abs(v[|v| - 1]) > bound || AnyAbove(v[..|v| - 1], bound)
  }

  /** large_state_termination: some state coordinate beyond 200 or some action coordinate beyond 15. */
  function LargeStateTermination(state: Vector, action: Vector, nextState: Option<Vector>): (done: bool)
    ensures done <==> ((exists i :: 0 <= i < |state| && Abs(state[i]) > 200.0)
                       || (exists i :: 0 <= i < |action| && Abs(action[i]) > 15.0))
  {
    AnyAbove(state, 200.0) || AnyAbove(action, 15.0)
  }

  /** The bounds are strict, and the next state plays no part. */
  lemma TerminationExamples(next: Option<Vector>)
    ensures !LargeStateTermination([200.0, -200.0], [15.0, -15.0], next)
    ensures LargeStateTermination([-200.5, 0.0], [0.0], next)
    ensures LargeStateTermination([0.0], [0.0, 15.25], next)
  {
    var s: Vector := [-200.5, 0.0];
    assert Abs(s[0]) > 200.0;
    var a: Vector := [0.0, 15.25];
    assert Abs(a[1]) > 15.0;
  }

  /** Inside the box [-200, 200]^n x [-15, 15]^m the episode goes on, whatever the next state. */
  lemma InsideBoxContinues(state: Vector, action: Vector, next: Option<Vector>)
    requires forall i :: 0 <= i < |state| ==> -200.0 <= state[i] <= 200.0
    requires forall i :: 0 <= i < |action| ==> -15.0 <= action[i] <= 15.0
    ensures !LargeStateTermination(state, action, next)
  {
  }

  /** The experiment parameters _get_mpc_policy reads. */
  datatype MpcParams = MpcParams(
    solver: string, horizon: nat, gamma: real, numIter: nat,
    numSamples: Option<nat>, numElites: Option<nat>,
    notWarmStart: bool, defaultAction: string,
    kappa: real, filterCoefficients: seq<real>)

  /** The models _get_mpc_policy is handed and the numeric collaborators of the solvers. */
  datatype Models = Models(
    dynamics: Dynamics, reward: RewardModel, dimAction: nat,
    terminalReward: Option<TerminalReward>,
    sampleCov: Batch -> seq<Matrix>, exp: real -> real)

  function ArgsWithScale(p: MpcParams, m: Models, scale: real): SolverArgs
  {
    SolverArgs(m.dynamics, m.reward, m.dimAction, p.horizon, p.gamma, scale, p.numSamples,
               m.terminalReward, !p.notWarmStart, p.defaultAction)
  }

  /**
   * The solver dispatch of _get_mpc_policy: "cem", "random" and "mppi" build
   * the matching solver, anything else is an error.
   */
  function GetMpcPolicy(p: MpcParams, m: Models): (r: Result<Config>)
    requires p.solver == "mppi" ==> Sum(p.filterCoefficients) != 0.0 && WindowSumsNonzero(p.filterCoefficients, p.horizon)
    ensures r.Err? <==> p.solver != "cem" && p.solver != "random" && p.solver != "mppi"
    ensures r.Err? ==> r.error == UnknownSolver(p.solver)
    ensures p.solver == "cem" ==> r.Ok? && r.value.strategy.Cem? && r.value.scale == 1.0 / 8.0
                                  && r.value.numIter == p.numIter
    ensures p.solver == "random" ==> r.Ok? && r.value.strategy.Cem? && r.value.scale == 1.0 / 3.0
                                     && r.value.numIter == 1
    ensures p.solver == "mppi" ==> r.Ok? && r.value.strategy.Mppi? && r.value.scale == 1.0 / 8.0
                                   && r.value.numIter == p.numIter
                                   && r.value.strategy.kappa == Constant(p.kappa)
                                   && Sum(p.filterCoefficients) != 0.0
                                   && r.value.strategy.filterCoefficients == Normalize(p.filterCoefficients)
                                   && Sum(r.value.strategy.filterCoefficients) == 1.0
                                   && r.value.strategy.exp == m.exp
    ensures r.Ok? ==> r.value.warmStart == !p.notWarmStart && r.value.defaultAction == p.defaultAction
    ensures r.Ok? ==> r.value.horizon == p.horizon && r.value.gamma == p.gamma
                      && r.value.numSamples == ResolveNumSamples(p.horizon, p.numSamples)
    ensures r.Ok? && r.value.strategy.Cem? ==>
      r.value.strategy.numElites == CemNumElites(r.value.numSamples, p.numElites)
      && r.value.strategy.sampleCov == m.sampleCov
    ensures r.Ok? ==> r.value.dynamics == m.dynamics && r.value.reward == m.reward
                      && r.value.dimAction == m.dimAction && r.value.terminalReward == m.terminalReward
  {
    if p.solver == "cem" then
      Ok(CemConfig(ArgsWithScale(p, m, 1.0 / 8.0), p.numIter, p.numElites, m.sampleCov))
    else if p.solver == "random" then
      Ok(RandomShootingConfig(ArgsWithScale(p, m, 1.0 / 3.0), p.numElites, m.sampleCov))
    else if p.solver == "mppi" then
      Ok(MppiConfig(ArgsWithScale(p, m, 1.0 / 8.0), p.numIter, Constant(p.kappa),
                    p.filterCoefficients, m.exp))
    else Err(UnknownSolver(p.solver))
  }

  /** Every solver the dispatch builds satisfies the solver's own well-formedness conditions. */
  lemma DispatchedSolverIsValid(p: MpcParams, m: Models)
    requires p.solver == "mppi" ==> Sum(p.filterCoefficients) != 0.0 && WindowSumsNonzero(p.filterCoefficients, p.horizon)
    requires p.horizon >= 1 && ExpLike(m.exp)
    ensures GetMpcPolicy(p, m).Ok? ==> ValidConfig(GetMpcPolicy(p, m).value)
  {
    if p.solver == "mppi" {
      var cfg := MppiConfig(ArgsWithScale(p, m, 1.0 / 8.0), p.numIter, Constant(p.kappa),
                            p.filterCoefficients, m.exp);
      assert GetMpcPolicy(p, m) == Ok(cfg);
    }
  }

  /** get_mpc_agent's terminal reward: the value function when mpc_terminal_reward is set. */
  function TerminalRewardChoice(useTerminalReward: bool, valueFunction: TerminalReward): (r: Option<TerminalReward>)
    ensures r.Some? <==> useTerminalReward
    ensures r.Some? ==> r.value == valueFunction
  {
    if useTerminalReward then Some(valueFunction) else None
  }
}
