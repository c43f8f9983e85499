/**
 * The Chambolle-Pock primal-dual solver: a proximal step on the data term for the
 * primal variable, an over-relaxed gradient-ascent step followed by the L12 dual
 * proximal step for the dual variable.
 */
module ChambollePock {
  import opened Tensor
  import opened DeepInv
  import opened Iteration
  import opened SolverCommon

  /** The benchmark's parameter grid. */
  const TauMultGrid: seq<real> := [0.1, 0.5, 0.9]
  const GammaGrid: seq<real> := [0.35, 1.0, 10.0]

  /** Squared norm of the 2-D finite-difference operator. */
  const Lnorm2: real := 8.0

  /** tau = tau_mult / (Lnorm2 * gamma): the step size that makes tau * gamma * Lnorm2 equal tau_mult. */
  function StepSize(tauMult: real, gamma: real): (tau: real)
    requires gamma != 0.0
    ensures tau * (Lnorm2 * gamma) == tauMult
  {
    tauMult / (Lnorm2 * gamma)
  }

  /** Every point of the grid keeps the step-size product tau * gamma * Lnorm2 below 1. */
  lemma GridStepSizeWithinBound(tauMult: real, gamma: real)
    requires tauMult in TauMultGrid && gamma in GammaGrid
    ensures gamma > 0.0
    ensures StepSize(tauMult, gamma) * gamma * Lnorm2 == tauMult < 1.0
  {
    var tau := StepSize(tauMult, gamma);
    assert tau * gamma * Lnorm2 == tau * (Lnorm2 * gamma);
  }

  /** Everything one run depends on besides its state. */
  datatype Config = Config(lib: Library, A: ForwardOperator, y: Vec, reg: real, gamma: real, tau: real)

  /** Primal variable xk and dual variable vk. */
  datatype PrimalDual = PrimalDual(x: Vec, v: Vec)

  /** xk = y, vk = L(xk). */
  function Init(lib: Library, y: Vec): PrimalDual
  {
    PrimalDual(y, lib.nabla(y))
  }

  /** The primal step: a data-term prox after a step along -L*(vk), both at the old state. */
  function PrimalStep(c: Config, s: PrimalDual): Vec
  {
    c.lib.l2Prox(Sub(s.x, Scale(c.tau, c.lib.nablaAdjoint(s.v))), c.y, c.A, c.tau)
  }

  /** tmp - gamma * prox(tmp / gamma, reg / gamma): the dual proximal step on tmp. */
  function DualProx(c: Config, tmp: Vec): Vec
    requires c.gamma != 0.0
  {
    Sub(tmp, Scale(c.gamma, c.lib.l12Prox(Div(tmp, c.gamma), c.reg / c.gamma)))
  }

  /** One iteration: the new primal variable first, then the dual step on the over-relaxed 2 xk - x_prev. */
  function Step(c: Config, s: PrimalDual): PrimalDual
    requires c.gamma != 0.0
  {
    var x := PrimalStep(c, s);
    PrimalDual(x, DualProx(c, Add(s.v, Scale(c.gamma, c.lib.nabla(Sub(Scale(2.0, x), s.x))))))
  }

  function StepMap(c: Config): PrimalDual -> PrimalDual
    requires c.gamma != 0.0
  {
    s => Step(c, s)
  }

  /** The attained objective: data fidelity plus reg times the L12 norm of L(x). */
  function Objective(lib: Library, A: ForwardOperator, y: Vec, reg: real, x: Vec): real
  {
    lib.l2Value(x, y, A) + reg * lib.l12Value(lib.nabla(x))
  }

  /**
   * The fixed points of an iteration are the states where the primal variable is
   * its own data-term prox and the dual variable is its own dual prox of
   * vk + gamma * L(xk): there the over-relaxation 2 xk - x_prev is xk itself.
   */
  lemma {:induction false} FixedPointIff(c: Config, s: PrimalDual)
    requires c.gamma != 0.0
    ensures Step(c, s) == s <==>
      s.x == PrimalStep(c, s) && s.v == DualProx(c, Add(s.v, Scale(c.gamma, c.lib.nabla(s.x))))
  {
    OverRelaxationOfFixedPoint(s.x);
  }

  class Solver {
    const tauMult: real
    const gamma: real
    var A: ForwardOperator
    var reg: real
    var y: Vec
    var dataFit: string
    var isotropy: string
    var tau: real
    var out: Vec
    var obj: real

    /** The harness creates a solver for one point (tau_mult, gamma) of the grid. */
    constructor (tauMult: real, gamma: real)
      ensures this.tauMult == tauMult && this.gamma == gamma
    {
      this.tauMult := tauMult;
      this.gamma := gamma;
    }

    static function Skip(A: ForwardOperator, Anorm2: real, reg: real, dataFit: string, y: Vec,
                         isotropy: string): (r: SkipDecision)
      ensures r.skip <==> isotropy == "anisotropic"
      ensures r.skip ==> r.reason == Some("solver does not work with anisotropic regularization")
      ensures !r.skip ==> r.reason == None
    {
      SkipAnisotropic(isotropy)
    }

    /** Stores the problem; Anorm2 is accepted and dropped. */
    method SetObjective(A: ForwardOperator, Anorm2: real, reg: real, dataFit: string, y: Vec, isotropy: string)
      modifies this`A, this`reg, this`y, this`dataFit, this`isotropy
      ensures this.A == A && this.reg == reg && this.y == y
      ensures this.dataFit == dataFit && this.isotropy == isotropy
    {
      this.A, this.reg, this.y := A, reg, y;
      this.dataFit := dataFit;
      this.isotropy := isotropy;
    }

    method Run(lib: Library, nIter: nat)
      requires gamma != 0.0
      modifies this`tau, this`out, this`obj
      ensures tau == StepSize(tauMult, gamma)
      ensures out == Iterate(StepMap(Config(lib, A, y, reg, gamma, tau)), Init(lib, y), nIter).x
      ensures nIter == 0 ==> out == y
      ensures obj == Objective(lib, A, y, reg, out)
    {
      var y := this.y;
      var xk := y;
      tau := tauMult / (Lnorm2 * gamma);
      var vk := lib.nabla(xk);
      ghost var step := StepMap(Config(lib, A, y, reg, gamma, tau));
      for i := 0 to nIter
        invariant PrimalDual(xk, vk) == Iterate(step, Init(lib, y), i)
      {
        var xPrev := xk;
        xk := lib.l2Prox(Sub(xk, Scale(tau, lib.nablaAdjoint(vk))), y, A, tau);
        var tmp := Add(vk, Scale(gamma, lib.nabla(Sub(Scale(2.0, xk), xPrev))));
        vk := Sub(tmp, Scale(gamma, lib.l12Prox(Div(tmp, gamma), reg / gamma)));
      }
      out := xk;
      obj := lib.l2Value(xk, y, A) + reg * lib.l12Value(lib.nabla(xk));
    }

    /** `show` renders a float as Python's f-string does. */
    function GetResult(show: real -> string): (r: SolverResult)
      reads this
      ensures r.u == out && r.obj == obj
      ensures r.name == "Chambolle-Pock[tau=" + show(tau) + ",gamma=" + show(gamma) + "]"
    {
      SolverResult("Chambolle-Pock[tau=" + show(tau) + ",gamma=" + show(gamma) + "]", out, obj)
    }
  }

  /**
   * The harness's call sequence for one grid point: a fresh solver, set_objective,
   * then run. Every grid point meets `Run`'s precondition, and the result is the
   * Chambolle-Pock iterate for the grid's step size.
   */
  method SetObjectiveThenRun(lib: Library, tauMult: real, gamma: real, A: ForwardOperator, Anorm2: real,
                             reg: real, dataFit: string, y: Vec, isotropy: string, nIter: nat)
    returns (out: Vec, tau: real)
    requires tauMult in TauMultGrid && gamma in GammaGrid
    ensures tau == StepSize(tauMult, gamma)
    ensures out == Iterate(StepMap(Config(lib, A, y, reg, gamma, tau)), Init(lib, y), nIter).x
  {
    GridStepSizeWithinBound(tauMult, gamma);
    var s := new Solver(tauMult, gamma);
    s.SetObjective(A, Anorm2, reg, dataFit, y, isotropy);
    s.Run(lib, nIter);
    out, tau := s.out, s.tau;
  }
}
