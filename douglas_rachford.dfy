/**
 * The Douglas-Rachford solver: a data-term prox of vk, then a reflected TV prox
 * that moves vk by the difference between the two proxes.
 */
module DouglasRachford {
  import opened Tensor
  import opened DeepInv
  import opened Iteration
  import opened SolverCommon

  /** The benchmark's parameter grid. */
  const GammaGrid: seq<real> := [0.1, 1.0, 10.0]

  /**
   * Every grid value of gamma is positive, so both proxes take a positive step.
   * The model's `Run` needs no precondition on gamma; this records the grid's sign.
   */
  lemma GridGammaPositive(gamma: real)
    requires gamma in GammaGrid
    ensures gamma > 0.0
  {
  }

  /** Everything one run depends on besides its state. */
  datatype Config = Config(lib: Library, A: ForwardOperator, y: Vec, reg: real, gamma: real)

  /** The data-prox point xk and the governing sequence vk. */
  datatype State = State(x: Vec, v: Vec)

  /** xk = y, vk = a copy of xk. */
  function Init(y: Vec): State
  {
    State(y, y)
  }

  /** vk + tvProx(2 xk - vk, Mul(reg, gamma)) - xk, for the new xk. */
  function Reflect(c: Config, x: Vec, v: Vec): Vec
  {
    Sub(Add(v, c.lib.tvProx(Sub(Scale(2.0, x), v), Mul(c.reg, c.gamma))), x)
  }

  /** One iteration: xk from the old vk, then vk from the new xk. */
  function Step(c: Config, s: State): State
  {
    var x := c.lib.l2Prox(s.v, c.y, c.A, c.gamma);
    State(x, Reflect(c, x, s.v))
  }

  function StepMap(c: Config): State -> State
  {
    s => Step(c, s)
  }

  /** The attained objective: TV is applied to xk itself, not to L(xk). */
  function Objective(lib: Library, A: ForwardOperator, y: Vec, reg: real, x: Vec): real
  {
    lib.l2Value(x, y, A) + reg * lib.tvValue(x)
  }

  /**
   * When the TV prox of the reflection 2 xk - vk returns xk, the iteration leaves
   * vk unchanged (given that the data prox keeps vk's shape).
   */
  lemma {:induction false} ReflectionFixedPoint(c: Config, s: State)
    requires |Step(c, s).x| <= |s.v|
    requires c.lib.tvProx(Sub(Scale(2.0, Step(c, s).x), s.v), Mul(c.reg, c.gamma)) == Step(c, s).x
    ensures Step(c, s).v == s.v
  {
    AddSubCancel(s.v, Step(c, s).x);
  }

  /**
   * The fixed points of an iteration, for proxes that keep vk's shape: xk is the
   * data prox of vk and the TV prox of 2 xk - vk at the same time.
   */
  lemma {:induction false} FixedPointIff(c: Config, s: State)
    requires |c.lib.l2Prox(s.v, c.y, c.A, c.gamma)| == |s.v|
    requires |c.lib.tvProx(Sub(Scale(2.0, c.lib.l2Prox(s.v, c.y, c.A, c.gamma)), s.v), Mul(c.reg, c.gamma))| == |s.v|
    ensures Step(c, s) == s <==>
      s.x == c.lib.l2Prox(s.v, c.y, c.A, c.gamma) && c.lib.tvProx(Sub(Scale(2.0, s.x), s.v), Mul(c.reg, c.gamma)) == s.x
  {
    var x := c.lib.l2Prox(s.v, c.y, c.A, c.gamma);
    var p := c.lib.tvProx(Sub(Scale(2.0, x), s.v), Mul(c.reg, c.gamma));
    var w := Add(s.v, p);
    assert Step(c, s) == State(x, Sub(w, x));
    if Step(c, s) == s {
      forall i | 0 <= i < |x| ensures p[i] == x[i] {
        assert Sub(w, x)[i] == At(w, i) - At(x, i);
        assert w[i] == At(s.v, i) + At(p, i);
      }
    }
    if s.x == x && p == x {
      AddSubCancel(s.v, x);
    }
  }

  class Solver {
    const gamma: real
    var A: ForwardOperator
    var reg: real
    var y: Vec
    var dataFit: string
    var isotropy: string
    var out: Vec
    var obj: real

    constructor (gamma: real)
      ensures this.gamma == gamma
    {
      this.gamma := gamma;
    }

    static function Skip(A: ForwardOperator, Anorm2: real, reg: real, dataFit: string, y: Vec,
                         isotropy: string): (r: SkipDecision)
      ensures r.skip <==> isotropy == "anisotropic"
      ensures r.skip ==> r.reason == Some("solver does not work with anisotropic regularization")
      ensures !r.skip ==> r.reason == None
    {
      SkipAnisotropic(isotropy)
    }

    /** Stores the problem; Anorm2 is accepted and dropped. */
    method SetObjective(A: ForwardOperator, Anorm2: real, reg: real, dataFit: string, y: Vec, isotropy: string)
      modifies this`A, this`reg, this`y, this`dataFit, this`isotropy
      ensures this.A == A && this.reg == reg && this.y == y
      ensures this.dataFit == dataFit && this.isotropy == isotropy
    {
      this.A, this.reg, this.y := A, reg, y;
      this.dataFit := dataFit;
      this.isotropy := isotropy;
    }

    method Run(lib: Library, nIter: nat)
      modifies this`out, this`obj
      ensures out == Iterate(StepMap(Config(lib, A, y, reg, gamma)), Init(y), nIter).x
      ensures nIter == 0 ==> out == y
      ensures obj == Objective(lib, A, y, reg, out)
    {
      var y := this.y;
      var xk := y;
      var vk := xk;
      ghost var step := StepMap(Config(lib, A, y, reg, gamma));
      for i := 0 to nIter
        invariant State(xk, vk) == Iterate(step, Init(y), i)
      {
        xk := lib.l2Prox(vk, y, A, gamma);
        vk := Sub(Add(vk, lib.tvProx(Sub(Scale(2.0, xk), vk), Mul(reg, gamma))), xk);
      }
      out := xk;
      obj := lib.l2Value(xk, y, A) + reg * lib.tvValue(xk);
    }

    /** `show` renders a float as Python's f-string does. */
    function GetResult(show: real -> string): (r: SolverResult)
      reads this
      ensures r.u == out && r.obj == obj
      ensures r.name == "Douglas-Rachford[gamma=" + show(gamma) + "]"
    {
      SolverResult("Douglas-Rachford[gamma=" + show(gamma) + "]", out, obj)
    }
  }
}
