/**
 * The Forward-Backward (proximal gradient) solver: a gradient step on the data
 * term, then the TV prox.
 */
module ForwardBackward {
  import opened Tensor
  import opened DeepInv
  import opened Iteration
  import opened SolverCommon

  /** The benchmark's parameter grid. */
  const GammaMultGrid: seq<real> := [0.1, 0.5, 1.0, 1.9]

  /** gamma = gamma_mult / Anorm2: the step size that makes gamma * Anorm2 equal gamma_mult. */
  function StepSize(gammaMult: real, Anorm2: real): (gamma: real)
    requires Anorm2 != 0.0
    ensures gamma * Anorm2 == gammaMult
  {
    gammaMult / Anorm2
  }

  /** Every grid point keeps the step size strictly between 0 and 2 / Anorm2. */
  lemma GridStepSizeWithinBound(gammaMult: real, Anorm2: real)
    requires gammaMult in GammaMultGrid && Anorm2 > 0.0
    ensures StepSize(gammaMult, Anorm2) * Anorm2 == gammaMult < 2.0
    ensures 0.0 < StepSize(gammaMult, Anorm2) < 2.0 / Anorm2
  {
    var gamma := StepSize(gammaMult, Anorm2);
    assert gamma == gammaMult / Anorm2;
  }

  /** Everything one run depends on besides its state. */
  datatype Config = Config(lib: Library, A: ForwardOperator, y: Vec, reg: real, gamma: real)

  /** The forward step: xk - gamma * grad(xk). */
  function GradientStep(c: Config, x: Vec): Vec
  {
    Sub(x, Scale(c.gamma, c.lib.l2Grad(x, c.y, c.A)))
  }

  /** One iteration: the forward (gradient) step, then the backward (TV prox) step on its result. */
  function Step(c: Config, x: Vec): Vec
  {
    c.lib.tvProx(GradientStep(c, x), Mul(c.gamma, c.reg))
  }

  function StepMap(c: Config): Vec -> Vec
  {
    x => Step(c, x)
  }

  /** The attained objective: TV is applied to xk itself. */
  function Objective(lib: Library, A: ForwardOperator, y: Vec, reg: real, x: Vec): real
  {
    lib.l2Value(x, y, A) + reg * lib.tvValue(x)
  }

  /**
   * A point the iteration leaves where it is (the prox of its own gradient step)
   * is returned unchanged by any number of iterations started from it.
   */
  lemma FixedPointIsKept(c: Config, x: Vec, n: nat)
    requires Step(c, x) == x
    ensures Iterate(StepMap(c), x, n) == x
  {
    IterateFixedPoint(StepMap(c), x, n);
  }

  class Solver {
    const gammaMult: real
    var A: ForwardOperator
    var reg: real
    var y: Vec
    var dataFit: string
    var isotropy: string
    var Anorm2: real
    var gamma: real
    var out: Vec
    var obj: real

    constructor (gammaMult: real)
      ensures this.gammaMult == gammaMult
    {
      this.gammaMult := gammaMult;
    }

    static function Skip(A: ForwardOperator, Anorm2: real, reg: real, dataFit: string, y: Vec,
                         isotropy: string): (r: SkipDecision)
      ensures r.skip <==> isotropy == "anisotropic"
      ensures r.skip ==> r.reason == Some("solver does not work with anisotropic regularization")
      ensures !r.skip ==> r.reason == None
    {
      SkipAnisotropic(isotropy)
    }

    /** Stores the problem, Anorm2 included. */
    method SetObjective(A: ForwardOperator, Anorm2: real, reg: real, dataFit: string, y: Vec, isotropy: string)
      modifies this`A, this`reg, this`y, this`dataFit, this`isotropy, this`Anorm2
      ensures this.A == A && this.reg == reg && this.y == y
      ensures this.dataFit == dataFit && this.isotropy == isotropy && this.Anorm2 == Anorm2
    {
      this.A, this.reg, this.y := A, reg, y;
      this.dataFit := dataFit;
      this.isotropy := isotropy;
      this.Anorm2 := Anorm2;
    }

    method Run(lib: Library, nIter: nat)
      requires Anorm2 != 0.0
      modifies this`gamma, this`out, this`obj
      ensures gamma == StepSize(gammaMult, Anorm2)
      ensures out == Iterate(StepMap(Config(lib, A, y, reg, gamma)), y, nIter)
      ensures nIter == 0 ==> out == y
      ensures obj == Objective(lib, A, y, reg, out)
    {
      var y := this.y;
      var xk := y;
      gamma := gammaMult / Anorm2;
      ghost var step := StepMap(Config(lib, A, y, reg, gamma));
      for i := 0 to nIter
        invariant xk == Iterate(step, y, i)
      {
        xk := Sub(xk, Scale(gamma, lib.l2Grad(xk, y, A)));
        xk := lib.tvProx(xk, Mul(gamma, reg));
      }
      out := xk;
      obj := lib.l2Value(xk, y, A) + reg * lib.tvValue(xk);
    }

    /** `show` renders a float as Python's f-string does. */
    function GetResult(show: real -> string): (r: SolverResult)
      reads this
      ensures r.u == out && r.obj == obj
      ensures r.name == "Forward-Backward[gamma=" + show(gamma) + "]"
    {
      SolverResult("Forward-Backward[gamma=" + show(gamma) + "]", out, obj)
    }
  }
}
