/**
 * Tensors as the solvers see them: a tensor is flattened to a sequence of reals.
 * Pointwise arithmetic is exact. Two tensors of the same shape combine entry by
 * entry; so that every operation is total, a shorter operand reads as zero past
 * its end (the solvers only ever combine tensors of one shape).
 */
module Tensor {

  type Vec = seq<real>

  function Max(a: nat, b: nat): nat
  {
    if a < b then b else a
  }

  /** Entry i of v, or 0 outside v. */
  function At(v: Vec, i: int): real
  {
    if 0 <= i < |v| then v[i] else 0.0
  }

  /**
   * The product of two scalars. The verifier does not match two occurrences of
   * a product of variables such as reg * gamma term by term; naming it lets the
   * loop invariants of DouglasRachford.Solver.Run and ForwardBackward.Solver.Run
   * and the lemmas DouglasRachford.ReflectionFixedPoint and
   * DouglasRachford.FixedPointIff recognise the prox's step size reg * gamma
   * (gamma * reg) in the step function and in the loop body as the same value.
   */
  function Mul(a: real, b: real): real
  {
    a * b
  }

  /** a + b */
  function Add(a: Vec, b: Vec): (r: Vec)
    ensures |r| == Max(|a|, |b|)
  {
    seq(Max(|a|, |b|), i => At(a, i) + At(b, i))
  }

  /** a - b */
  function Sub(a: Vec, b: Vec): (r: Vec)
    ensures |r| == Max(|a|, |b|)
  {
    seq(Max(|a|, |b|), i => At(a, i) - At(b, i))
  }

  /** c * a */
  function Scale(c: real, a: Vec): (r: Vec)
    ensures |r| == |a|
  {
    seq(|a|, i => c * At(a, i))
  }

  /** a / c */
  function Div(a: Vec, c: real): (r: Vec)
    requires c != 0.0
    ensures |r| == |a|
  {
    seq(|a|, i => At(a, i) / c)
  }

  /** torch.zeros of n entries */
  function Zeros(n: nat): (r: Vec)
    ensures |r| == n
  {
    seq(n, _ => 0.0)
  }

  predicate IsZero(v: Vec)
  {
    forall i :: 0 <= i < |v| ==> v[i] == 0.0
  }

  /** torch.sum(v ** 2) */
  function SumSquares(v: Vec): (r: real)
    ensures r >= 0.0
  {
    if |v| == 0 then 0.0 else v[0] * v[0] + SumSquares(v[1..])
  }

  /** The zero tensor has a zero sum of squares. */
  lemma {:induction false} ZeroSumSquares(v: Vec)
    requires IsZero(v)
    ensures SumSquares(v) == 0.0
  {
    if |v| > 0 {
      assert IsZero(v[1..]) by {
        forall i | 0 <= i < |v[1..]| ensures v[1..][i] == 0.0 { assert v[1..][i] == v[i + 1]; }
      }
      ZeroSumSquares(v[1..]);
      assert v[0] == 0.0;
    }
  }

  /** The over-relaxation 2x - x of an unmoved primal variable is x itself. */
  lemma OverRelaxationOfFixedPoint(x: Vec)
    ensures Sub(Scale(2.0, x), x) == x
  {
    var r := Sub(Scale(2.0, x), x);
    assert |r| == |x|;
    forall i | 0 <= i < |x| ensures r[i] == x[i] {
      assert r[i] == At(Scale(2.0, x), i) - At(x, i);
    }
  }

  /** (v + x) - x == v when x is no longer than v. */
  lemma AddSubCancel(v: Vec, x: Vec)
    requires |x| <= |v|
    ensures Sub(Add(v, x), x) == v
  {
    var r := Sub(Add(v, x), x);
    assert |r| == |v|;
    forall i | 0 <= i < |v| ensures r[i] == v[i] {
      assert r[i] == At(Add(v, x), i) - At(x, i);
    }
  }

  /** v + (a - b) == v exactly when a == b, for tensors of one length. */
  lemma AddDifferenceUnchangedIff(v: Vec, a: Vec, b: Vec)
    requires |a| == |v| && |b| == |v|
    ensures Add(v, Sub(a, b)) == v <==> a == b
  {
    var r := Add(v, Sub(a, b));
    assert |r| == |v|;
    if r == v {
      forall i | 0 <= i < |v| ensures a[i] == b[i] {
        assert r[i] == v[i] + (a[i] - b[i]);
      }
    }
    if a == b {
      forall i | 0 <= i < |v| ensures r[i] == v[i] {
        assert r[i] == v[i] + (a[i] - b[i]);
      }
    }
  }
}
