/**
 * The numerical library the solvers call into (deepinv and torch). None of it is
 * implemented here: every operator is a field of `Library`, an arbitrary function
 * that a caller supplies, so that the solvers are modelled for every choice of them.
 */
module DeepInv {
  import opened Tensor

  /**
   * The caller's forward-operator object `A`. The solvers hold it and pass it on
   * (as `A.physics`, or through `A.operator`) without ever looking inside, so the
   * model keeps only a handle to it.
   */
  datatype ForwardOperator = ForwardOperator(handle: nat)

  datatype Library = Library(
    /** A.operator(x) */
    forward: (ForwardOperator, Vec) -> Vec,
    /** TVPrior().nabla, the finite-difference operator L */
    nabla: Vec -> Vec,
    /** TVPrior().nabla_adjoint, the adjoint of L */
    nablaAdjoint: Vec -> Vec,
    /** TVPrior().prox(x, gamma) */
    tvProx: (Vec, real) -> Vec,
    /** TVPrior().g(x) */
    tvValue: Vec -> real,
    /** L12Prior().prox(x, gamma) */
    l12Prox: (Vec, real) -> Vec,
    /** L12Prior().g(x) */
    l12Value: Vec -> real,
    /** L2()(x, y, A.physics) */
    l2Value: (Vec, Vec, ForwardOperator) -> real,
    /** L2().grad(x, y, A.physics) */
    l2Grad: (Vec, Vec, ForwardOperator) -> Vec,
    /** L2().prox(x, y, A.physics, gamma) */
    l2Prox: (Vec, Vec, ForwardOperator, real) -> Vec,
    /** torch.optim.SGD([x]).step(closure): one optimiser step from x on the closure's loss */
    sgdStep: (Vec, Vec -> real) -> Vec
  )
}
