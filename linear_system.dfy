/**
 * The discrete-time linear system of rllib/environment/systems/linear_system.py:
 * x' = a @ x + b @ u, observed through c.
 */
module LinearSystems {
  import opened Outcomes
  import opened Vectors

  /** The successor state a @ x + b @ u. */
  function Next(a: Matrix, b: Matrix, x: Vector, u: Vector): (y: Vector)
    requires |a| == |b|
    requires forall i :: 0 <= i < |a| ==> |a[i]| == |x|
    requires forall i :: 0 <= i < |b| ==> |b[i]| == |u|
    ensures |y| == |a|
    ensures forall i :: 0 <= i < |a| ==> y[i] == Dot(a[i], x) + Dot(b[i], u)
  {
    Add(MatVec(a, x), MatVec(b, u))
  }

  /** An inner product distributes over a sum of vectors. */
  lemma {:induction false} DotAdditive(w: seq<real>, x: Vector, y: Vector)
    requires |w| == |x| == |y|
    ensures Dot(w, Add(x, y)) == Dot(w, x) + Dot(w, y)
  {
    var n := |w|;
    if n > 0 {
      var s := Add(x, y);
      assert s[..n - 1] == Add(x[..n - 1], y[..n - 1]);
      DotAdditive(w[..n - 1], x[..n - 1], y[..n - 1]);
      assert w[n - 1] * s[n - 1] == w[n - 1] * x[n - 1] + w[n - 1] * y[n - 1];
    }
  }

  /** An inner product with the zero vector is zero. */
  lemma {:induction false} DotZeros(w: seq<real>)
    ensures Dot(w, Zeros(|w|)) == 0.0
  {
    var n := |w|;
    if n > 0 {
      assert Zeros(n)[..n - 1] == Zeros(n - 1);
      DotZeros(w[..n - 1]);
    }
  }

  /** Superposition: the step of a sum of states and inputs is the sum of the steps. */
  lemma NextIsLinear(a: Matrix, b: Matrix, x1: Vector, u1: Vector, x2: Vector, u2: Vector)
    requires |a| == |b| && |x1| == |x2| && |u1| == |u2|
    requires forall i :: 0 <= i < |a| ==> |a[i]| == |x1|
    requires forall i :: 0 <= i < |b| ==> |b[i]| == |u1|
    ensures Next(a, b, Add(x1, x2), Add(u1, u2)) == Add(Next(a, b, x1, u1), Next(a, b, x2, u2))
  {
    var lhs := Next(a, b, Add(x1, x2), Add(u1, u2));
    var rhs := Add(Next(a, b, x1, u1), Next(a, b, x2, u2));
    forall i | 0 <= i < |a|
      ensures lhs[i] == rhs[i]
    {
      DotAdditive(a[i], x1, x2);
      DotAdditive(b[i], u1, u2);
    }
  }

  /** With a zero input the system evolves freely: x' = a @ x. */
  lemma NextWithoutInput(a: Matrix, b: Matrix, x: Vector, m: nat)
    requires |a| == |b|
    requires forall i :: 0 <= i < |a| ==> |a[i]| == |x|
    requires forall i :: 0 <= i < |b| ==> |b[i]| == m
    ensures Next(a, b, x, Zeros(m)) == MatVec(a, x)
  {
    var y := Next(a, b, x, Zeros(m));
    forall i | 0 <= i < |a|
      ensures y[i] == MatVec(a, x)[i]
    {
      DotZeros(b[i]);
    }
  }

  class LinearSystem {
    const a: Matrix
    const b: Matrix
    const c: Matrix
    const dimState: nat
    const dimAction: nat
    const dimObservation: nat
    /** None until the first reset. */
    var state: Option<Vector>
    /** The time counter; reset sets it, step leaves it alone. */
    var time: Option<nat>

    ghost predicate Valid()
      reads this
    {
      && IsMatrix(a, dimState, dimState)
      && IsMatrix(b, dimState, dimAction)
      && IsMatrix(c, dimObservation, dimState)
      && (state.Some? ==> |state.value| == dimState)
    }

    /**
     * __init__: dim_state and dim_action are the shape of b, dim_observation
     * the rows of c, and an omitted c is the identity on the state space.
     */
    constructor (a: Matrix, b: Matrix, c: Option<Matrix>)
      requires |b| >= 1 && IsMatrix(b, |b|, |b[0]|)
      requires IsMatrix(a, |b|, |b|)
      requires c.Some? ==> IsMatrix(c.value, |c.value|, |b|)
      ensures Valid()
      ensures this.a == a && this.b == b
      ensures this.c == if c.Some? then c.value else ScaledIdentity(|a|, 1.0)
      ensures dimState == |b| && dimAction == |b[0]| && dimObservation == |this.c|
      ensures state.None? && time.None?
    {
      this.a := a;
      this.b := b;
      var cm := if c.Some? then c.value else ScaledIdentity(|a|, 1.0);
      this.c := cm;
      dimState := |b|;
      dimAction := |b[0]|;
      dimObservation := |cm|;
      state := None;
      time := None;
    }

    /** The `state` property getter. */
    function State(): (s: Option<Vector>)
      reads this
      ensures Valid() && s.Some? ==> |s.value| == dimState
    {
      state
    }

    /** The `state` property setter: the getter then returns what was set. */
    method SetState(value: Option<Vector>)
      requires Valid()
      requires value.Some? ==> |value.value| == dimState
      modifies this
      ensures Valid()
      ensures State() == value && time == old(time)
    {
      state := value;
    }

    /** reset: time 0, the given state, and its observation c @ x. */
    method Reset(x: Vector) returns (obs: Vector)
      requires Valid() && |x| == dimState
      modifies this
      ensures Valid()
      ensures time == Some(0) && state == Some(x)
      ensures obs == MatVec(c, x)
      ensures c == ScaledIdentity(dimState, 1.0) ==> obs == x
    {
      time := Some(0);
      state := Some(x);
      obs := MatVec(c, x);
      if c == ScaledIdentity(dimState, 1.0) {
        MatVecIdentity(x);
      }
    }

    /**
     * step: the state becomes a @ x + b @ u and its observation is returned;
     * the time counter is not touched. Without a state (no reset yet) the
     * product fails and nothing changes.
     */
    method Step(u: Vector) returns (r: Result<Vector>)
      requires Valid() && |u| == dimAction
      modifies this
      ensures Valid() && time == old(time)
      ensures old(state).None? ==> r == Err(StateUnset) && state == old(state)
      ensures old(state).Some? ==>
        state == Some(Next(a, b, old(state).value, u)) && r == Ok(MatVec(c, state.value))
      ensures old(state).Some? && c == ScaledIdentity(dimState, 1.0) ==> r == Ok(state.value)
    {
      match state
      case None =>
        r := Err(StateUnset);
      case Some(x) =>
        var next := Next(a, b, x, u);
        state := Some(next);
        r := Ok(MatVec(c, next));
        if c == ScaledIdentity(dimState, 1.0) {
          MatVecIdentity(next);
        }
    }
  }
}
