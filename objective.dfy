/**
 * The benchmark's objective: it holds the problem the dataset supplies, hands
 * it to the solvers, and measures total variation (TV) of images.
 */
module TvObjective {
  import opened Tensor
  import opened DeepInv
  import opened MatrixOp

  function Abs(x: real): real
  {
    if x < 0.0 then -x else x
  }

  /**
   * How the two gradient components of one pixel combine: |gh| + |gv|, or a
   * square root of gh^2 + gv^2. The root stays abstract.
   */
  datatype Norm = Anisotropic | Isotropic(root: real -> real)

  /** The root returns nonnegative values on nonnegative arguments. */
  ghost predicate NonnegativeNorm(norm: Norm)
  {
    norm.Isotropic? ==> forall t :: t >= 0.0 ==> norm.root(t) >= 0.0
  }

  /** One summand of the TV value; nonnegative when the root is. */
  function Term(norm: Norm, h: real, v: real): (r: real)
    ensures NonnegativeNorm(norm) ==> r >= 0.0
  {
    match norm
    case Anisotropic => Abs(h) + Abs(v)
    case Isotropic(root) => root(h * h + v * v)
  }

  /** The summand at pixel (i, j) of channel c of u. */
  function CellTerm(u: array3<real>, norm: Norm, c: int, i: int, j: int): real
    reads u
  {
    Term(norm, GradH(u, c, i, j), GradV(u, c, i, j))
  }

  /** The sum of the summands of row i of channel c, from column j on. */
  function RowSum(u: array3<real>, norm: Norm, c: int, i: int, j: nat): (r: real)
    reads u
    decreases u.Length2 - j
    ensures NonnegativeNorm(norm) ==> r >= 0.0
    ensures (forall j' :: j <= j' < u.Length2 ==> CellTerm(u, norm, c, i, j') == 0.0) ==> r == 0.0
  {
    if j >= u.Length2 then 0.0 else CellTerm(u, norm, c, i, j) + RowSum(u, norm, c, i, j + 1)
  }

  /** The sum over channel c, from row i on. */
  function ChannelSum(u: array3<real>, norm: Norm, c: int, i: nat): (r: real)
    reads u
    decreases u.Length1 - i
    ensures NonnegativeNorm(norm) ==> r >= 0.0
    ensures (forall i', j' :: i <= i' < u.Length1 && 0 <= j' < u.Length2 ==>
               CellTerm(u, norm, c, i', j') == 0.0) ==> r == 0.0
  {
    if i >= u.Length1 then 0.0 else RowSum(u, norm, c, i, 0) + ChannelSum(u, norm, c, i + 1)
  }

  /** The sum over every entry of the image, from channel c on. */
  function ImageSum(u: array3<real>, norm: Norm, c: nat): (r: real)
    reads u
    decreases u.Length0 - c
    ensures NonnegativeNorm(norm) ==> r >= 0.0
    ensures (forall c', i', j' :: c <= c' < u.Length0 && 0 <= i' < u.Length1 && 0 <= j' < u.Length2 ==>
               CellTerm(u, norm, c', i', j') == 0.0) ==> r == 0.0
  {
    if c >= u.Length0 then 0.0 else ChannelSum(u, norm, c, 0) + ImageSum(u, norm, c + 1)
  }

  /** (|gh| + |gv|).sum() over the gradient of u: never negative. */
  function AnisotropicTvValue(u: array3<real>): (r: real)
    reads u
    requires u.Length0 >= Channels
    ensures r >= 0.0
  {
    ImageSum(u, Anisotropic, 0)
  }

  /** sqrt(gh^2 + gv^2).sum(): never negative when the root is not. */
  function IsotropicTvValue(u: array3<real>, sqrt: real -> real): (r: real)
    reads u
    requires u.Length0 >= Channels
    ensures (forall t :: t >= 0.0 ==> sqrt(t) >= 0.0) ==> r >= 0.0
  {
    ImageSum(u, Isotropic(sqrt), 0)
  }

  /** Channels 0..2 of u each hold one value. */
  predicate ChannelsConstant(u: array3<real>)
    reads u
  {
    forall c :: 0 <= c < Channels ==> ChannelConstant(u, c)
  }

  /**
   * An image constant within each of channels 0..2 has zero TV, anisotropic and
   * isotropic alike (the root of zero being zero).
   */
  lemma {:induction false} ConstantImageHasZeroTv(u: array3<real>, sqrt: real -> real)
    requires u.Length0 >= Channels && ChannelsConstant(u)
    requires sqrt(0.0) == 0.0
    ensures AnisotropicTvValue(u) == 0.0 && IsotropicTvValue(u, sqrt) == 0.0
  {
    forall c, i, j | 0 <= c < u.Length0 && 0 <= i < u.Length1 && 0 <= j < u.Length2
      ensures CellTerm(u, Anisotropic, c, i, j) == 0.0 && CellTerm(u, Isotropic(sqrt), c, i, j) == 0.0
    {
      if c < Channels {
        assert ChannelConstant(u, c);
        ConstantChannelHasZeroGradient(u, c, i, j);
      } else {
        PaddingIsZero(u, c, i, j);
      }
    }
  }

  /** What get_objective hands to a solver's set_objective. */
  datatype ObjectiveDict = ObjectiveDict(A: ForwardOperator, Anorm2: real, reg: real, dataFit: string,
                                         y: Vec, isotropy: string)

  /** An entry of the list save_final_results returns. */
  datatype Artifact = Title(text: string) | Image(v: Vec)

  class Objective {
    const reg: real
    const delta: real
    const isotropy: string
    const dataFit: string
    var A: ForwardOperator
    var y: Vec
    var Anorm2: real
    var xTrue: Vec
    var typeA: string

    /** The harness creates one objective per point (reg, delta, isotropy, data_fit) of the grid. */
    constructor (reg: real, delta: real, isotropy: string, dataFit: string)
      ensures this.reg == reg && this.delta == delta
      ensures this.isotropy == isotropy && this.dataFit == dataFit
    {
      this.reg := reg;
      this.delta := delta;
      this.isotropy := isotropy;
      this.dataFit := dataFit;
    }

    /** Stores the dataset's problem and touches nothing else. */
    method SetData(xTrue: Vec, typeA: string, A: ForwardOperator, y: Vec, Anorm2: real)
      modifies this`A, this`y, this`Anorm2, this`xTrue, this`typeA
      ensures this.A == A && this.y == y && this.Anorm2 == Anorm2
      ensures this.xTrue == xTrue && this.typeA == typeA
    {
      this.A := A;
      this.y := y;
      this.Anorm2 := Anorm2;
      this.xTrue := xTrue;
      this.typeA := typeA;
    }

    /** The score of a solver's result is the objective value it reported. */
    static function EvaluateResult(name: string, u: Vec, obj: real): (r: real)
      ensures r == obj
    {
      obj
    }

    /** A template result: a zero image of y's shape. */
    function GetOneResult(): (u: Vec)
      reads this
      ensures |u| == |y| && IsZero(u)
    {
      Zeros(|y|)
    }

    /** The problem as the solvers receive it. */
    function GetObjective(): (r: ObjectiveDict)
      reads this
      ensures r.A == A && r.Anorm2 == Anorm2 && r.y == y
      ensures r.reg == reg && r.dataFit == dataFit && r.isotropy == isotropy
    {
      ObjectiveDict(A, Anorm2, reg, dataFit, y, isotropy)
    }

    /**
     * The saved artefacts: a title naming the solver and the forward operator's
     * kind, then the observation, the ground truth and the result.
     */
    function SaveFinalResults(name: string, u: Vec): (r: seq<Artifact>)
      reads this
      ensures |r| == 4
      ensures r[0].Title? && r[0].text == name + ", type_A = " + typeA
      ensures r[1] == Image(y) && r[2] == Image(xTrue) && r[3] == Image(u)
    {
      [Title(name + ", type_A = " + typeA), Image(y), Image(xTrue), Image(u)]
    }
  }

  /** set_data then get_objective hands the solver exactly the stored problem. */
  method SetDataThenGetObjective(o: Objective, xTrue: Vec, typeA: string, A: ForwardOperator, y: Vec,
                                 Anorm2: real) returns (d: ObjectiveDict)
    modifies o
    ensures d == ObjectiveDict(A, Anorm2, o.reg, o.dataFit, y, o.isotropy)
  {
    o.SetData(xTrue, typeA, A, y, Anorm2);
    d := o.GetObjective();
  }
}
