/**
 * Rollout evaluation of candidate action sequences: simulate each candidate
 * through the dynamics and reward models, discount the rewards, and add the
 * terminal bootstrap when one is configured (_eval_mpc and
 * MPCSolver.evaluate_action_sequence).
 */
module Rollouts {
  import opened Outcomes
  import opened Vectors

  /** dynamical_model(state, action) -> next_state */
  type Dynamics = (Vector, Vector) -> Vector
  /** reward_model(state, action, next_state) -> reward */
  type RewardModel = (Vector, Vector, Vector) -> real
  /** terminal_reward(state) -> value */
  type TerminalReward = Vector -> real

  datatype Transition = Transition(state: Vector, action: Vector, reward: real, nextState: Vector)

  /** The state reached from x0 after the first t actions of the plan. */
  function StateAt(dyn: Dynamics, x0: Vector, plan: Plan, t: nat): Vector
    requires t <= |plan|
  {
    if t == 0 then x0 else dyn(StateAt(dyn, x0, plan, t - 1), plan[t - 1])
  }

  /** Starting one step later from the first successor state gives the same states. */
  lemma {:induction false} StateAtShift(dyn: Dynamics, x0: Vector, plan: Plan, t: nat)
    requires t < |plan|
    ensures StateAt(dyn, x0, plan, t + 1) == StateAt(dyn, dyn(x0, plan[0]), plan[1..], t)
  {
    if t > 0 {
      StateAtShift(dyn, x0, plan, t - 1);
    }
  }

  /**
   * One rollout of a plan (rollout_actions for a single candidate): step t
   * records the state x_t, the action, the reward r(x_t, u_t, x_{t+1}) and
   * the next state x_{t+1}.
   */
  function Rollout(dyn: Dynamics, rew: RewardModel, plan: Plan, x0: Vector): (tr: seq<Transition>)
    ensures |tr| == |plan|
    ensures forall t {:trigger tr[t]} :: 0 <= t < |plan| ==>
      tr[t] == Transition(StateAt(dyn, x0, plan, t), plan[t],
                          rew(StateAt(dyn, x0, plan, t), plan[t], StateAt(dyn, x0, plan, t + 1)),
                          StateAt(dyn, x0, plan, t + 1))
    decreases |plan|
  {
    if |plan| == 0 then []
    else
      var x1 := dyn(x0, plan[0]);
      var rest := Rollout(dyn, rew, plan[1..], x1);
      var tr := [Transition(x0, plan[0], rew(x0, plan[0], x1), x1)] + rest;
      assert forall t {:trigger tr[t]} :: 0 <= t < |plan| ==>
        tr[t] == Transition(StateAt(dyn, x0, plan, t), plan[t],
                            rew(StateAt(dyn, x0, plan, t), plan[t], StateAt(dyn, x0, plan, t + 1)),
                            StateAt(dyn, x0, plan, t + 1)) by {
        forall t | 0 <= t < |plan|
          ensures tr[t] == Transition(StateAt(dyn, x0, plan, t), plan[t],
                                      rew(StateAt(dyn, x0, plan, t), plan[t], StateAt(dyn, x0, plan, t + 1)),
                                      StateAt(dyn, x0, plan, t + 1))
        {
          StateAtShift(dyn, x0, plan, t);
          if t > 0 {
            StateAtShift(dyn, x0, plan, t - 1);
            assert tr[t] == rest[t - 1];
          }
        }
      }
      tr
  }

  function Rewards(tr: seq<Transition>): (rs: seq<real>)
    ensures |rs| == |tr| && forall t :: 0 <= t < |tr| ==> rs[t] == tr[t].reward
  {
    seq(|tr|, t requires 0 <= t < |tr| => tr[t].reward)
  }

  function Pow(g: real, n: nat): real
  {
    if n == 0 then 1.0 else g * Pow(g, n - 1)
  }

  /** discount_sum: r_0 + g * (r_1 + g * (r_2 + ...)). */
  function DiscountSum(rs: seq<real>, g: real): real
  {
    if |rs| == 0 then 0.0 else rs[0] + g * DiscountSum(rs[1..], g)
  }

  /** The closed form of a discounted sum: sum over i of g^(t+i) * rs[i]. */
  function PowerSumFrom(rs: seq<real>, g: real, t: nat): real
  {
    if |rs| == 0 then 0.0 else Pow(g, t) * rs[0] + PowerSumFrom(rs[1..], g, t + 1)
  }

  /** sum over t of g^t * rs[t]. */
  function PowerSum(rs: seq<real>, g: real): real
  {
    PowerSumFrom(rs, g, 0)
  }

  /** Starting one power later multiplies the closed form by g. */
  lemma {:induction false} PowerSumShift(rs: seq<real>, g: real, t: nat)
    ensures PowerSumFrom(rs, g, t + 1) == g * PowerSumFrom(rs, g, t)
    decreases |rs|
  {
    if |rs| == 0 {
      assert PowerSumFrom(rs, g, t) == 0.0;
    } else {
      PowerSumShift(rs[1..], g, t + 1);
      ShiftStep(PowerSumFrom(rs, g, t + 1), PowerSumFrom(rs, g, t), Pow(g, t + 1), Pow(g, t), rs[0],
                PowerSumFrom(rs[1..], g, t + 2), PowerSumFrom(rs[1..], g, t + 1), g);
    }
  }

  lemma ShiftStep(later: real, now: real, p: real, q: real, r: real, x: real, y: real, g: real)
    requires later == p * r + x && now == q * r + y
    requires p == g * q && x == g * y
    ensures later == g * now
  {
  }

  /** The recursive discounted sum is the closed form sum_t g^t r_t. */
  lemma {:induction false} DiscountSumIsPowerSum(rs: seq<real>, g: real)
    ensures DiscountSum(rs, g) == PowerSum(rs, g)
  {
    if |rs| > 0 {
      DiscountSumIsPowerSum(rs[1..], g);
      PowerSumShift(rs[1..], g, 0);
    }
  }

  /** With no discount (gamma = 1) the return is the plain sum of rewards. */
  lemma UndiscountedPowerSum(rs: seq<real>)
    ensures PowerSum(rs, 1.0) == Sum(rs)
  {
    UndiscountedFrom(rs, 0);
  }

  lemma {:induction false} UndiscountedFrom(rs: seq<real>, t: nat)
    ensures PowerSumFrom(rs, 1.0, t) == Sum(rs)
  {
    if |rs| > 0 {
      UndiscountedFrom(rs[1..], t + 1);
      PowOne(t);
      SumHead(rs);
    }
  }

  lemma {:induction false} SumHead(xs: seq<real>)
    requires |xs| > 0
    ensures Sum(xs) == xs[0] + Sum(xs[1..])
  {
    var n := |xs|;
    if n == 1 {
      assert xs[..0] == [] && xs[1..] == [];
    } else {
      SumHead(xs[..n - 1]);
      assert xs[..n - 1][1..] == xs[1..][..n - 2];
    }
  }

  lemma {:induction false} PowOne(n: nat)
    ensures Pow(1.0, n) == 1.0
  {
    if n > 0 {
      PowOne(n - 1);
    }
  }

  /** The rewards collected along a plan, in terms of the visited states. */
  function RewardsAlong(dyn: Dynamics, rew: RewardModel, x0: Vector, plan: Plan): (rs: seq<real>)
    ensures |rs| == |plan|
  {
    seq(|plan|, t requires 0 <= t < |plan| =>
      rew(StateAt(dyn, x0, plan, t), plan[t], StateAt(dyn, x0, plan, t + 1)))
  }

  /**
   * The return of a plan in closed form: sum_t gamma^t r_t, plus gamma^horizon
   * times the terminal reward of the state reached at the horizon when a
   * terminal reward is configured.
   */
  ghost function ClosedFormReturn(dyn: Dynamics, rew: RewardModel, horizon: nat, x0: Vector, gamma: real,
                                  plan: Plan, terminal: Option<TerminalReward>): real
    requires horizon <= |plan|
  {
    PowerSum(RewardsAlong(dyn, rew, x0, plan), gamma)
    + (if terminal.Some? then Pow(gamma, horizon) * terminal.value(StateAt(dyn, x0, plan, horizon)) else 0.0)
  }

  /**
   * The return of one candidate as evaluate_action_sequence computes it: the
   * discounted sum of the rollout's rewards, plus gamma^horizon times the
   * terminal reward of the last next-state when a terminal reward is configured.
   */
  function CandidateReturn(dyn: Dynamics, rew: RewardModel, horizon: nat, x0: Vector, gamma: real,
                           plan: Plan, terminal: Option<TerminalReward>): (r: real)
    requires |plan| == horizon && (terminal.Some? ==> horizon >= 1)
    ensures r == ClosedFormReturn(dyn, rew, horizon, x0, gamma, plan, terminal)
  {
    var trajectory := Rollout(dyn, rew, plan, x0);
    var total := DiscountSum(Rewards(trajectory), gamma);
    RolloutDiscountedReturn(dyn, rew, plan, x0, gamma);
    if terminal.None? then total
    else
      var finalState := trajectory[horizon - 1].nextState;
      RolloutFinalState(dyn, rew, plan, x0);
      total + Pow(gamma, horizon) * terminal.value(finalState)
  }

  /** The rollout's rewards are the rewards along the visited states. */
  lemma RolloutRewards(dyn: Dynamics, rew: RewardModel, plan: Plan, x0: Vector)
    ensures Rewards(Rollout(dyn, rew, plan, x0)) == RewardsAlong(dyn, rew, x0, plan)
  {
    var tr := Rollout(dyn, rew, plan, x0);
    var rs := Rewards(tr);
    var along := RewardsAlong(dyn, rew, x0, plan);
    forall t | 0 <= t < |plan|
      ensures rs[t] == along[t]
    {
      assert rs[t] == tr[t].reward;
    }
  }

  /** Discounting the rollout's rewards gives the closed-form power sum along the visited states. */
  lemma RolloutDiscountedReturn(dyn: Dynamics, rew: RewardModel, plan: Plan, x0: Vector, gamma: real)
    ensures DiscountSum(Rewards(Rollout(dyn, rew, plan, x0)), gamma) == PowerSum(RewardsAlong(dyn, rew, x0, plan), gamma)
  {
    RolloutRewards(dyn, rew, plan, x0);
    DiscountSumIsPowerSum(Rewards(Rollout(dyn, rew, plan, x0)), gamma);
  }

  /** The last next-state of a rollout is the state reached at the end of the plan. */
  lemma RolloutFinalState(dyn: Dynamics, rew: RewardModel, plan: Plan, x0: Vector)
    requires |plan| >= 1
    ensures Rollout(dyn, rew, plan, x0)[|plan| - 1].nextState == StateAt(dyn, x0, plan, |plan|)
  {
  }

  /** _eval_mpc: the return of every candidate of a batch, from one initial state. */
  function EvalMpc(dyn: Dynamics, rew: RewardModel, horizon: nat, x0: Vector, gamma: real,
                   actions: Batch, terminal: Option<TerminalReward>): (r: seq<real>)
    requires forall j :: 0 <= j < |actions| ==> |actions[j]| == horizon
    requires terminal.Some? ==> horizon >= 1
    ensures |r| == |actions|
    ensures forall j :: 0 <= j < |actions| ==>
      r[j] == ClosedFormReturn(dyn, rew, horizon, x0, gamma, actions[j], terminal)
  {
    seq(|actions|, j requires 0 <= j < |actions| =>
      CandidateReturn(dyn, rew, horizon, x0, gamma, actions[j], terminal))
  }
}
