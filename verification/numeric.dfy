/**
 The floating-point facilities the planner borrows from Python and numpy,
 reduced to what the model relies on. `eps` stands for
 `sys.float_info.epsilon`, `sqrt` for `** 0.5`, `atan2` for `np.arctan2`
 and `pi` for `np.pi`; their exact values are not modelled.
 */
module Numeric {

  datatype Env = Env(eps: real, sqrt: real -> real, atan2: (real, real) -> real, pi: real) {

    /** The only facts about the numeric environment the proofs use. */
    ghost predicate Valid() {
      && eps > 0.0
      && pi > 0.0
      && sqrt(0.0) == 0.0
      && (forall v :: v >= 0.0 ==> sqrt(v) >= 0.0)
      && (forall dy, dx :: -pi < atan2(dy, dx) <= pi)
    }
  }
}
