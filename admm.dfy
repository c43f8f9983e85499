/**
 * ADMM on the split L(x) = y_aux, with scaled dual vk: an optimiser step on the
 * augmented Lagrangian for xk, the L12 prox for yk, then dual ascent on vk.
 */
module Admm {
  import opened Tensor
  import opened DeepInv
  import opened Iteration
  import opened SolverCommon

  /** The benchmark's parameter grid. */
  const GammaGrid: seq<real> := [0.5, 1.0, 2.0]

  /**
   * Every grid value of gamma is positive: `Run` can divide by it, and the loss
   * below is nonnegative on every input.
   */
  lemma GridGammaPositive(gamma: real)
    requires gamma in GammaGrid
    ensures gamma > 0.0
  {
  }

  /**
   * The loss the inner optimiser step minimises:
   * 0.5 * ||L(x) - yk + vk||^2 + ||A(x) - y||^2 / (2 gamma).
   * For a positive penalty it is nonnegative, and it vanishes where L(x) - yk + vk
   * and A(x) - y both vanish.
   */
  function Func(lib: Library, A: ForwardOperator, L: Vec -> Vec, x: Vec, y: Vec, yk: Vec, vk: Vec,
                gamma: real): (r: real)
    requires gamma != 0.0
    ensures gamma > 0.0 ==> r >= 0.0
    ensures IsZero(Add(Sub(L(x), yk), vk)) && IsZero(Sub(lib.forward(A, x), y)) ==> r == 0.0
  {
    var diff := Add(Sub(L(x), yk), vk);
    var dtf := 0.5 * SumSquares(diff);
    var diff2 := Sub(lib.forward(A, x), y);
    var pen := SumSquares(diff2) / (2.0 * gamma);
    if IsZero(diff) && IsZero(diff2) then
      ZeroSumSquares(diff);
      ZeroSumSquares(diff2);
      dtf + pen
    else
      dtf + pen
  }

  /** Everything one run depends on besides its state. */
  datatype Config = Config(lib: Library, A: ForwardOperator, y: Vec, reg: real, gamma: real)

  /** The primal variable xk, the split variable yk and the scaled dual vk. */
  datatype State = State(xk: Vec, yk: Vec, vk: Vec)

  /** xk = 0 in y's shape, yk = 0 in L(xk)'s shape, vk = 0 in yk's shape. */
  function Init(lib: Library, y: Vec): State
  {
    var xk := Zeros(|y|);
    var yk := Zeros(|lib.nabla(xk)|);
    State(xk, yk, Zeros(|yk|))
  }

  /** The closure handed to the optimiser: Func at the current yk and vk. */
  function Loss(c: Config, yk: Vec, vk: Vec): Vec -> real
    requires c.gamma != 0.0
  {
    x => Func(c.lib, c.A, c.lib.nabla, x, c.y, yk, vk, c.gamma)
  }

  /** vk + (L(xk) - yk) */
  function DualAscent(vk: Vec, lx: Vec, yk: Vec): Vec
  {
    Add(vk, Sub(lx, yk))
  }

  /**
   * One iteration, in order: the optimiser step on xk, yk from the new xk, then vk
   * from the new xk and the new yk.
   */
  function Step(c: Config, s: State): State
    requires c.gamma != 0.0
  {
    var xk := c.lib.sgdStep(s.xk, Loss(c, s.yk, s.vk));
    var yk := c.lib.l12Prox(Add(s.vk, c.lib.nabla(xk)), c.reg / c.gamma);
    State(xk, yk, DualAscent(s.vk, c.lib.nabla(xk), yk))
  }

  function StepMap(c: Config): State -> State
    requires c.gamma != 0.0
  {
    s => Step(c, s)
  }

  /** The attained objective: data fidelity plus reg times the L12 norm of L(x). */
  function Objective(lib: Library, A: ForwardOperator, y: Vec, reg: real, x: Vec): real
  {
    lib.l2Value(x, y, A) + reg * lib.l12Value(lib.nabla(x))
  }

  /**
   * The dual variable stays where it is exactly when the constraint L(xk) = yk
   * holds for the new xk and yk (tensors of the dual's shape).
   */
  lemma DualUnchangedIff(c: Config, s: State)
    requires c.gamma != 0.0
    requires |c.lib.nabla(Step(c, s).xk)| == |s.vk| && |Step(c, s).yk| == |s.vk|
    ensures Step(c, s).vk == s.vk <==> Step(c, s).yk == c.lib.nabla(Step(c, s).xk)
  {
    AddDifferenceUnchangedIff(s.vk, c.lib.nabla(Step(c, s).xk), Step(c, s).yk);
  }

  class Solver {
    const gamma: real
    var A: ForwardOperator
    var reg: real
    var y: Vec
    var dataFit: string
    var isotropy: string
    var out: Vec
    var obj: real

    constructor (gamma: real)
      ensures this.gamma == gamma
    {
      this.gamma := gamma;
    }

    static function Skip(A: ForwardOperator, Anorm2: real, reg: real, dataFit: string, y: Vec,
                         isotropy: string): (r: SkipDecision)
      ensures r.skip <==> isotropy == "anisotropic"
      ensures r.skip ==> r.reason == Some("solver does not work with anisotropic regularization")
      ensures !r.skip ==> r.reason == None
    {
      SkipAnisotropic(isotropy)
    }

    /** Stores the problem; Anorm2 is accepted and dropped. */
    method SetObjective(A: ForwardOperator, Anorm2: real, reg: real, dataFit: string, y: Vec, isotropy: string)
      modifies this`A, this`reg, this`y, this`dataFit, this`isotropy
      ensures this.A == A && this.reg == reg && this.y == y
      ensures this.dataFit == dataFit && this.isotropy == isotropy
    {
      this.A, this.reg, this.y := A, reg, y;
      this.dataFit := dataFit;
      this.isotropy := isotropy;
    }

    method Run(lib: Library, nIter: nat)
      requires gamma != 0.0
      modifies this`out, this`obj
      ensures out == Iterate(StepMap(Config(lib, A, y, reg, gamma)), Init(lib, y), nIter).xk
      ensures nIter == 0 ==> out == Zeros(|y|)
      ensures obj == Objective(lib, A, y, reg, out)
    {
      var y := this.y;
      var xk := Zeros(|y|);
      var yk := Zeros(|lib.nabla(xk)|);
      var vk := Zeros(|yk|);
      var c := Config(lib, A, y, reg, gamma);
      for i := 0 to nIter
        invariant State(xk, yk, vk) == Iterate(StepMap(c), Init(lib, y), i)
      {
        xk := lib.sgdStep(xk, Loss(c, yk, vk));
        yk := lib.l12Prox(Add(vk, lib.nabla(xk)), reg / gamma);
        vk := Add(vk, Sub(lib.nabla(xk), yk));
      }
      out := xk;
      obj := lib.l2Value(xk, y, A) + reg * lib.l12Value(lib.nabla(xk));
    }

    /** `show` renders a float as Python's f-string does. */
    function GetResult(show: real -> string): (r: SolverResult)
      reads this
      ensures r.u == out && r.obj == obj
      ensures r.name == "ADMM DeepInv[gamma=" + show(gamma) + "]"
    {
      SolverResult("ADMM DeepInv[gamma=" + show(gamma) + "]", out, obj)
    }
  }

  /**
   * The harness's call sequence for one grid point: a fresh solver, set_objective,
   * then run. Every grid gamma meets `Run`'s precondition, and the result is the
   * ADMM iterate from the problem that was passed in.
   */
  method SetObjectiveThenRun(lib: Library, gamma: real, A: ForwardOperator, Anorm2: real, reg: real,
                             dataFit: string, y: Vec, isotropy: string, nIter: nat)
    returns (out: Vec, obj: real)
    requires gamma in GammaGrid
    ensures out == Iterate(StepMap(Config(lib, A, y, reg, gamma)), Init(lib, y), nIter).xk
    ensures obj == Objective(lib, A, y, reg, out)
  {
    GridGammaPositive(gamma);
    var s := new Solver(gamma);
    s.SetObjective(A, Anorm2, reg, dataFit, y, isotropy);
    s.Run(lib, nIter);
    out, obj := s.out, s.obj;
  }
}
