/**
 * The per-channel finite-difference gradient of an image stored channel-first
 * as u[c, i, j] (channel, row, column).
 */
module MatrixOp {

  /** The number of colour channels the gradient is taken over. */
  const Channels: nat := 3

  /**
   * The forward difference along rows: u[c, i+1, j] - u[c, i, j] for channels
   * 0..2 and rows before the last; zero on the padded last row, on channels
   * from 3 on and outside the array.
   */
  function GradH(u: array3<real>, c: int, i: int, j: int): real
    reads u
  {
    if 0 <= c < Channels && c < u.Length0 && 0 <= i < u.Length1 - 1 && 0 <= j < u.Length2
    then u[c, i + 1, j] - u[c, i, j]
    else 0.0
  }

  /** The forward difference along columns, padded with a zero last column. */
  function GradV(u: array3<real>, c: int, i: int, j: int): real
    reads u
  {
    if 0 <= c < Channels && c < u.Length0 && 0 <= i < u.Length1 && 0 <= j < u.Length2 - 1
    then u[c, i, j + 1] - u[c, i, j]
    else 0.0
  }

  predicate SameShape(a: array3<real>, b: array3<real>)
  {
    a.Length0 == b.Length0 && a.Length1 == b.Length1 && a.Length2 == b.Length2
  }

  /**
   * Writes channel c of gh with the row differences of channel c of u, the last
   * row padded with zero; every other channel of gh is left as it was.
   */
  method FillRowDifferences(u: array3<real>, gh: array3<real>, c: nat)
    requires SameShape(gh, u) && gh != u && c < Channels && c < u.Length0
    modifies gh
    ensures forall c', i, j :: 0 <= c' < u.Length0 && 0 <= i < u.Length1 && 0 <= j < u.Length2 ==>
      gh[c', i, j] == (if c' == c then GradH(u, c', i, j) else old(gh[c', i, j]))
  {
    forall i, j | 0 <= i < u.Length1 && 0 <= j < u.Length2 {
      gh[c, i, j] := if i < u.Length1 - 1 then u[c, i + 1, j] - u[c, i, j] else 0.0;
    }
  }

  /** Writes channel c of gv with the column differences, the last column padded with zero. */
  method FillColumnDifferences(u: array3<real>, gv: array3<real>, c: nat)
    requires SameShape(gv, u) && gv != u && c < Channels && c < u.Length0
    modifies gv
    ensures forall c', i, j :: 0 <= c' < u.Length0 && 0 <= i < u.Length1 && 0 <= j < u.Length2 ==>
      gv[c', i, j] == (if c' == c then GradV(u, c', i, j) else old(gv[c', i, j]))
  {
    forall i, j | 0 <= i < u.Length1 && 0 <= j < u.Length2 {
      gv[c, i, j] := if j < u.Length2 - 1 then u[c, i, j + 1] - u[c, i, j] else 0.0;
    }
  }

  /**
   * gh and gv are new arrays of u's shape; channels 0..2 hold the row and column
   * differences with a zero last row (gh) and a zero last column (gv); every
   * channel from 3 on keeps its initial zeros. Indexing u[2] needs three channels.
   */
  method GradRgb(u: array3<real>) returns (gh: array3<real>, gv: array3<real>)
    requires u.Length0 >= Channels
    ensures fresh(gh) && fresh(gv)
    ensures SameShape(gh, u) && SameShape(gv, u)
    ensures forall c, i, j :: 0 <= c < u.Length0 && 0 <= i < u.Length1 && 0 <= j < u.Length2 ==>
      gh[c, i, j] == GradH(u, c, i, j)
    ensures forall c, i, j :: 0 <= c < u.Length0 && 0 <= i < u.Length1 && 0 <= j < u.Length2 ==>
      gv[c, i, j] == GradV(u, c, i, j)
  {
    gh := new real[u.Length0, u.Length1, u.Length2]((c, i, j) => 0.0);
    gv := new real[u.Length0, u.Length1, u.Length2]((c, i, j) => 0.0);
    for c := 0 to Channels
      invariant forall c', i, j :: 0 <= c' < u.Length0 && 0 <= i < u.Length1 && 0 <= j < u.Length2 ==>
        gh[c', i, j] == (if c' < c then GradH(u, c', i, j) else 0.0)
      invariant forall c', i, j :: 0 <= c' < u.Length0 && 0 <= i < u.Length1 && 0 <= j < u.Length2 ==>
        gv[c', i, j] == (if c' < c then GradV(u, c', i, j) else 0.0)
    {
      FillRowDifferences(u, gh, c);
      FillColumnDifferences(u, gv, c);
    }
  }

  /** The last row of gh and the last column of gv are the zero padding. */
  lemma PaddingIsZero(u: array3<real>, c: int, i: int, j: int)
    ensures i == u.Length1 - 1 ==> GradH(u, c, i, j) == 0.0
    ensures j == u.Length2 - 1 ==> GradV(u, c, i, j) == 0.0
    ensures c >= Channels ==> GradH(u, c, i, j) == 0.0 && GradV(u, c, i, j) == 0.0
  {
  }

  /** Channel c of u holds one value throughout. */
  predicate ChannelConstant(u: array3<real>, c: int)
    reads u
  {
    0 <= c < u.Length0 ==>
      forall i, j :: 0 <= i < u.Length1 && 0 <= j < u.Length2 ==> u[c, i, j] == u[c, 0, 0]
  }

  /** A constant channel has zero gradient in both directions. */
  lemma ConstantChannelHasZeroGradient(u: array3<real>, c: int, i: int, j: int)
    requires ChannelConstant(u, c)
    ensures GradH(u, c, i, j) == 0.0 && GradV(u, c, i, j) == 0.0
  {
  }

  /**
   * The gradient is linear: if z = a*u + b*w entry by entry, then the gradient
   * of z is a times that of u plus b times that of w.
   */
  lemma GradLinear(z: array3<real>, u: array3<real>, w: array3<real>, a: real, b: real, c: int, i: int, j: int)
    requires SameShape(z, u) && SameShape(z, w)
    requires forall c', i', j' :: 0 <= c' < z.Length0 && 0 <= i' < z.Length1 && 0 <= j' < z.Length2 ==>
      z[c', i', j'] == a * u[c', i', j'] + b * w[c', i', j']
    ensures GradH(z, c, i, j) == a * GradH(u, c, i, j) + b * GradH(w, c, i, j)
    ensures GradV(z, c, i, j) == a * GradV(u, c, i, j) + b * GradV(w, c, i, j)
  {
  }
}
