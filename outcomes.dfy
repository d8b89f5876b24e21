/** Option, Result and the error conditions the MPC core raises. */
module Outcomes {

  datatype Option<+T> = None | Some(value: T)

  /**
   * The failures the modelled code meets: its own NotImplementedErrors, and
   * the torch, Python and numpy failures (or NaN) it runs into.
   */
  datatype Error =
    | UnknownDefaultAction(name: string)   // NotImplementedError in MPCSolver.initialize_actions
    | EmptyTailAverage                     // `mean` tail policy over an empty remainder (NaN in torch)
    | TopKOutOfRange(k: nat, n: nat)       // torch.topk asked for more elites than candidates
    | MissingNumSamples                    // `None // 10` in CEMShooting.__init__ (TypeError)
    | UnknownSolver(name: string)          // NotImplementedError in _get_mpc_policy
    | StateUnset                           // LinearSystem.step before any reset

  datatype Result<+T> = Ok(value: T) | Err(error: Error) {
    predicate IsFailure() { Err? }
    function PropagateFailure<U>(): Result<U>
      requires Err?
    {
      Err(error)
    }
    function Extract(): T
      requires Ok?
    {
      value
    }
  }
}
