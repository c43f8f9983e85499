/**
 * The Condat-Vu primal-dual solver: an explicit primal step along the data-term
 * gradient and -L*(vk), then the same over-relaxed dual step as Chambolle-Pock.
 */
module CondatVu {
  import opened Tensor
  import opened DeepInv
  import opened Iteration
  import opened SolverCommon

  /** The benchmark's parameter grid. */
  const TauMultGrid: seq<real> := [0.1, 0.5, 0.9]
  const GammaGrid: seq<real> := [0.1, 1.0, 10.0]

  /** Squared norm of the 2-D finite-difference operator. */
  const Lnorm2: real := 8.0

  /** tau = tau_mult / (Anorm2 / 2 + Lnorm2 * gamma). */
  function StepSize(tauMult: real, gamma: real, Anorm2: real): (tau: real)
    requires Anorm2 / 2.0 + Lnorm2 * gamma != 0.0
    ensures tau * (Anorm2 / 2.0 + Lnorm2 * gamma) == tauMult
  {
    tauMult / (Anorm2 / 2.0 + Lnorm2 * gamma)
  }

  /**
   * For every grid point and every nonnegative Anorm2 the step size meets the
   * Condat-Vu condition tau * (Anorm2 / 2 + gamma * Lnorm2) < 1.
   */
  lemma GridStepSizeWithinBound(tauMult: real, gamma: real, Anorm2: real)
    requires tauMult in TauMultGrid && gamma in GammaGrid && Anorm2 >= 0.0
    ensures Anorm2 / 2.0 + Lnorm2 * gamma > 0.0
    ensures StepSize(tauMult, gamma, Anorm2) * (Anorm2 / 2.0 + Lnorm2 * gamma) == tauMult < 1.0
  {
  }

  /** Everything one run depends on besides its state. */
  datatype Config = Config(lib: Library, A: ForwardOperator, y: Vec, reg: real, gamma: real, tau: real)

  /** Primal variable xk and dual variable vk. */
  datatype PrimalDual = PrimalDual(x: Vec, v: Vec)

  /** xk = y, vk = L(xk). */
  function Init(lib: Library, y: Vec): PrimalDual
  {
    PrimalDual(y, lib.nabla(y))
  }

  /** xk - tau * grad(xk) - tau * L*(vk), both terms at the old state. */
  function PrimalStep(c: Config, s: PrimalDual): Vec
  {
    Sub(Sub(s.x, Scale(c.tau, c.lib.l2Grad(s.x, c.y, c.A))), Scale(c.tau, c.lib.nablaAdjoint(s.v)))
  }

  /** tmp - gamma * prox(tmp / gamma, reg / gamma). */
  function DualProx(c: Config, tmp: Vec): Vec
    requires c.gamma != 0.0
  {
    Sub(tmp, Scale(c.gamma, c.lib.l12Prox(Div(tmp, c.gamma), c.reg / c.gamma)))
  }

  /** One iteration: the explicit primal step, then the dual step on 2 xk - x_prev. */
  function Step(c: Config, s: PrimalDual): PrimalDual
    requires c.gamma != 0.0
  {
    var x := PrimalStep(c, s);
    PrimalDual(x, DualProx(c, Add(s.v, Scale(c.gamma, c.lib.nabla(Sub(Scale(2.0, x), s.x))))))
  }

  function StepMap(c: Config): PrimalDual -> PrimalDual
    requires c.gamma != 0.0
  {
    s => Step(c, s)
  }

  /** The attained objective: data fidelity plus reg times the L12 norm of L(x). */
  function Objective(lib: Library, A: ForwardOperator, y: Vec, reg: real, x: Vec): real
  {
    lib.l2Value(x, y, A) + reg * lib.l12Value(lib.nabla(x))
  }

  /**
   * The fixed points of an iteration: the explicit primal step leaves xk where it
   * is, and vk is its own dual prox of vk + gamma * L(xk).
   */
  lemma {:induction false} FixedPointIff(c: Config, s: PrimalDual)
    requires c.gamma != 0.0
    ensures Step(c, s) == s <==>
      s.x == PrimalStep(c, s) && s.v == DualProx(c, Add(s.v, Scale(c.gamma, c.lib.nabla(s.x))))
  {
    OverRelaxationOfFixedPoint(s.x);
  }

  class Solver {
    const tauMult: real
    const gamma: real
    var A: ForwardOperator
    var reg: real
    var y: Vec
    var dataFit: string
    var isotropy: string
    /** Read by `Run`; None until something stores it. */
    var Anorm2: Option<real>
    var tau: real
    var out: Vec
    var obj: real

    constructor (tauMult: real, gamma: real)
      ensures this.tauMult == tauMult && this.gamma == gamma
      ensures Anorm2 == None
    {
      this.tauMult := tauMult;
      this.gamma := gamma;
      Anorm2 := None;
    }

    static function Skip(A: ForwardOperator, Anorm2: real, reg: real, dataFit: string, y: Vec,
                         isotropy: string): (r: SkipDecision)
      ensures r.skip <==> isotropy == "anisotropic"
      ensures r.skip ==> r.reason == Some("solver does not work with anisotropic regularization")
      ensures !r.skip ==> r.reason == None
    {
      SkipAnisotropic(isotropy)
    }

    /** set_objective as written: Anorm2 is accepted and dropped, so `Run` cannot read it. */
    method SetObjectiveAsWritten(A: ForwardOperator, Anorm2: real, reg: real, dataFit: string, y: Vec,
                                 isotropy: string)
      modifies this`A, this`reg, this`y, this`dataFit, this`isotropy
      ensures this.A == A && this.reg == reg && this.y == y
      ensures this.dataFit == dataFit && this.isotropy == isotropy
      ensures this.Anorm2 == old(this.Anorm2)
    {
      this.A, this.reg, this.y := A, reg, y;
      this.dataFit := dataFit;
      this.isotropy := isotropy;
    }

    /** set_objective as intended: it also stores Anorm2, which `Run` reads. */
    method SetObjective(A: ForwardOperator, Anorm2: real, reg: real, dataFit: string, y: Vec,
                        isotropy: string)
      modifies this`A, this`reg, this`y, this`dataFit, this`isotropy, this`Anorm2
      ensures this.A == A && this.reg == reg && this.y == y
      ensures this.dataFit == dataFit && this.isotropy == isotropy
      ensures this.Anorm2 == Some(Anorm2)
    {
      this.A, this.reg, this.y := A, reg, y;
      this.dataFit := dataFit;
      this.isotropy := isotropy;
      this.Anorm2 := Some(Anorm2);
    }

    /** Runnable: Anorm2 has been stored and the two divisions by it and by gamma are defined. */
    predicate CanRun()
      reads this
    {
      Anorm2.Some? && gamma != 0.0 && Anorm2.value / 2.0 + Lnorm2 * gamma != 0.0
    }

    method Run(lib: Library, nIter: nat)
      requires CanRun()
      modifies this`tau, this`out, this`obj
      ensures tau == StepSize(tauMult, gamma, Anorm2.value)
      ensures out == Iterate(StepMap(Config(lib, A, y, reg, gamma, tau)), Init(lib, y), nIter).x
      ensures nIter == 0 ==> out == y
      ensures obj == Objective(lib, A, y, reg, out)
    {
      var y := this.y;
      var xk := y;
      tau := tauMult / (Anorm2.value / 2.0 + Lnorm2 * gamma);
      var vk := lib.nabla(xk);
      ghost var step := StepMap(Config(lib, A, y, reg, gamma, tau));
      for i := 0 to nIter
        invariant PrimalDual(xk, vk) == Iterate(step, Init(lib, y), i)
      {
        var xPrev := xk;
        xk := Sub(Sub(xk, Scale(tau, lib.l2Grad(xk, y, A))), Scale(tau, lib.nablaAdjoint(vk)));
        var tmp := Add(vk, Scale(gamma, lib.nabla(Sub(Scale(2.0, xk), xPrev))));
        vk := Sub(tmp, Scale(gamma, lib.l12Prox(Div(tmp, gamma), reg / gamma)));
      }
      out := xk;
      obj := lib.l2Value(xk, y, A) + reg * lib.l12Value(lib.nabla(xk));
    }

    /** `show` renders a float as Python's f-string does. */
    function GetResult(show: real -> string): (r: SolverResult)
      reads this
      ensures r.u == out && r.obj == obj
      ensures r.name == "Condat-Vu[tau=" + show(tau) + ",gamma=" + show(gamma) + "]"
    {
      SolverResult("Condat-Vu[tau=" + show(tau) + ",gamma=" + show(gamma) + "]", out, obj)
    }
  }

  /**
   * The harness's call sequence with set_objective as written: a fresh solver,
   * then set_objective. Afterwards `Run` is not callable, because Anorm2 was
   * never stored (in Python, reading self.Anorm2 raises AttributeError).
   */
  method AsWrittenRunUnreachable(tauMult: real, gamma: real, A: ForwardOperator, Anorm2: real,
                                 reg: real, dataFit: string, y: Vec, isotropy: string)
    returns (runnable: bool)
    ensures !runnable
  {
    var s := new Solver(tauMult, gamma);
    s.SetObjectiveAsWritten(A, Anorm2, reg, dataFit, y, isotropy);
    runnable := s.CanRun();
  }

  /**
   * The same call sequence with the corrected set_objective, then `Run`: for every
   * grid point and nonnegative Anorm2 it is callable and computes the Condat-Vu
   * iterates from the Anorm2 that was passed in.
   */
  method SetObjectiveThenRun(lib: Library, tauMult: real, gamma: real, A: ForwardOperator, Anorm2: real,
                             reg: real, dataFit: string, y: Vec, isotropy: string, nIter: nat)
    returns (out: Vec, tau: real)
    requires tauMult in TauMultGrid && gamma in GammaGrid && Anorm2 >= 0.0
    ensures tau == StepSize(tauMult, gamma, Anorm2)
    ensures out == Iterate(StepMap(Config(lib, A, y, reg, gamma, tau)), Init(lib, y), nIter).x
  {
    GridStepSizeWithinBound(tauMult, gamma, Anorm2);
    var s := new Solver(tauMult, gamma);
    s.SetObjective(A, Anorm2, reg, dataFit, y, isotropy);
    s.Run(lib, nIter);
    out, tau := s.out, s.tau;
  }
}
