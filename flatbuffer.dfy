/** The dense 4x4 product over caller-supplied buffers of 16 floats, and the
    two variants that flatten an affine matrix into a local buffer first. */
module FlatBuffer {
  import opened Vector3
  import M = Matrix3
  import opened AffineMatrix4

  /** Entry (i, j) of the product of the row-major 4x4 matrices s and t: the
      sum over k < 4 of s[4i + k] * t[4k + j]. */
  function Cell(s: seq<real>, t: seq<real>, i: nat, j: nat): real
    requires |s| == 16 && |t| == 16 && i < 4 && j < 4
  {
    s[4 * i] * t[j] + s[4 * i + 1] * t[4 + j] + s[4 * i + 2] * t[8 + j] + s[4 * i + 3] * t[12 + j]
  }

  /** The 4x4 product of s and t, row-major, as 16 floats. */
  function BufProduct(s: seq<real>, t: seq<real>): (r: seq<real>)
    requires |s| == 16 && |t| == 16
    ensures |r| == 16
    ensures forall i, j | 0 <= i < 4 && 0 <= j < 4 :: M.Entry4(r, i, j) == Cell(s, t, i, j)
  {
    seq(16, n requires 0 <= n < 16 => Cell(s, t, n / 4, n % 4))
  }

  /** Fills out with the product of a and b, row by row; a and b are only
      read, so they may be the same buffer, but neither may be out. */
  method BufMult(a: array<real>, b: array<real>, out: array<real>)
    requires a.Length == 16 && b.Length == 16 && out.Length == 16
    requires a != out && b != out
    modifies out
    ensures out[..] == BufProduct(a[..], b[..])
    ensures a[..] == old(a[..]) && b[..] == old(b[..])
  {
    for i := 0 to 4
      invariant forall p, q | 0 <= p < i && 0 <= q < 4 :: out[4 * p + q] == Cell(a[..], b[..], p, q)
    {
      for j := 0 to 4
        invariant forall p, q | 0 <= p < i && 0 <= q < 4 :: out[4 * p + q] == Cell(a[..], b[..], p, q)
        invariant forall q | 0 <= q < j :: out[4 * i + q] == Cell(a[..], b[..], i, q)
      {
        out[i * 4 + j] :=
          a[i * 4 + 0] * b[0 + j] +
          a[i * 4 + 1] * b[4 + j] +
          a[i * 4 + 2] * b[8 + j] +
          a[i * 4 + 3] * b[12 + j];
      }
    }
    SameEntries(out[..], BufProduct(a[..], b[..]));
  }

  /** The product of a, flattened, with the buffer b. */
  method MatBufMult(a: Amat4, b: array<real>, out: array<real>)
    requires b.Length == 16 && out.Length == 16
    requires b != out
    modifies out
    ensures out[..] == BufProduct(Flatten(a), b[..])
    ensures b[..] == old(b[..])
  {
    var tmp := new real[16];
    Amat4ToArray(a, tmp);
    assert tmp[..] == tmp[..16];
    BufMult(tmp, b, out);
  }

  /** The product of the buffer a with b, flattened. */
  method BufMatMult(a: array<real>, b: Amat4, out: array<real>)
    requires a.Length == 16 && out.Length == 16
    requires a != out
    modifies out
    ensures out[..] == BufProduct(a[..], Flatten(b))
    ensures a[..] == old(a[..])
  {
    var tmp := new real[16];
    Amat4ToArray(b, tmp);
    assert tmp[..] == tmp[..16];
    BufMult(a, tmp, out);
  }

  /** Flattening commutes with multiplication: the dense product of two
      flattened affine matrices is the flattened composition. */
  lemma BufProductFlatten(x: Amat4, y: Amat4)
    ensures BufProduct(Flatten(x), Flatten(y)) == Flatten(Mult(x, y))
  {
    var s, t, m := Flatten(x), Flatten(y), Flatten(Mult(x, y));
    ProductRow0(x, y);
    ProductRow1(x, y);
    ProductRow2(x, y);
    ProductRow3(x, y);
    BufProductAt(s, t);
    Ext16(BufProduct(s, t), m);
  }

  /** AMAT4_IDENT, flattened, is the 4x4 identity: the dense product with it
      on either side gives back the other factor. */
  lemma BufProductIdent(t: seq<real>)
    requires |t| == 16
    ensures BufProduct(Flatten(Ident), t) == t
    ensures BufProduct(t, Flatten(Ident)) == t
  {
    var e := Flatten(Ident);
    FlattenAt(Ident);
    BufProductAt(e, t);
    BufProductAt(t, e);
    Ext16(BufProduct(e, t), t);
    Ext16(BufProduct(t, e), t);
  }

  /** Two 16-float buffers that agree at every index are equal. */
  lemma Ext16(p: seq<real>, m: seq<real>)
    requires |p| == 16 && |m| == 16
    requires p[0] == m[0] && p[1] == m[1] && p[2] == m[2] && p[3] == m[3]
    requires p[4] == m[4] && p[5] == m[5] && p[6] == m[6] && p[7] == m[7]
    requires p[8] == m[8] && p[9] == m[9] && p[10] == m[10] && p[11] == m[11]
    requires p[12] == m[12] && p[13] == m[13] && p[14] == m[14] && p[15] == m[15]
    ensures p == m
  {
    assert forall n | 0 <= n < 16 :: p[n] == m[n];
  }

  /** The 16 floats of BufProduct(s, t), one by one. */
  lemma BufProductAt(s: seq<real>, t: seq<real>)
    requires |s| == 16 && |t| == 16
    ensures var p := BufProduct(s, t);
      p[0] == Cell(s, t, 0, 0) && p[1] == Cell(s, t, 0, 1) && p[2] == Cell(s, t, 0, 2) && p[3] == Cell(s, t, 0, 3) &&
      p[4] == Cell(s, t, 1, 0) && p[5] == Cell(s, t, 1, 1) && p[6] == Cell(s, t, 1, 2) && p[7] == Cell(s, t, 1, 3) &&
      p[8] == Cell(s, t, 2, 0) && p[9] == Cell(s, t, 2, 1) && p[10] == Cell(s, t, 2, 2) && p[11] == Cell(s, t, 2, 3) &&
      p[12] == Cell(s, t, 3, 0) && p[13] == Cell(s, t, 3, 1) && p[14] == Cell(s, t, 3, 2) && p[15] == Cell(s, t, 3, 3)
  {
  }

  /** Two 16-float matrices with the same entries are the same. */
  lemma SameEntries(r: seq<real>, r': seq<real>)
    requires |r| == 16 && |r'| == 16
    requires forall i, j | 0 <= i < 4 && 0 <= j < 4 :: M.Entry4(r, i, j) == M.Entry4(r', i, j)
    ensures r == r'
  {
    forall n | 0 <= n < 16
      ensures r[n] == r'[n]
    {
      assert M.Entry4(r, n / 4, n % 4) == M.Entry4(r', n / 4, n % 4);
    }
  }

  /** The 16 floats of Flatten(x), one by one. */
  lemma FlattenAt(x: Amat4)
    ensures var s := Flatten(x);
      s[0] == x.a.a0 && s[1] == x.a.a1 && s[2] == x.a.a2 && s[3] == x.t.x &&
      s[4] == x.a.a3 && s[5] == x.a.a4 && s[6] == x.a.a5 && s[7] == x.t.y &&
      s[8] == x.a.a6 && s[9] == x.a.a7 && s[10] == x.a.a8 && s[11] == x.t.z &&
      s[12] == 0.0 && s[13] == 0.0 && s[14] == 0.0 && s[15] == 1.0
  {
  }

  lemma ProductRow0(x: Amat4, y: Amat4)
    ensures var s, t, m := Flatten(x), Flatten(y), Flatten(Mult(x, y));
      Cell(s, t, 0, 0) == m[0] && Cell(s, t, 0, 1) == m[1] && Cell(s, t, 0, 2) == m[2] && Cell(s, t, 0, 3) == m[3]
  {
    FlattenAt(x);
    FlattenAt(y);
    FlattenAt(Mult(x, y));
  }

  lemma ProductRow1(x: Amat4, y: Amat4)
    ensures var s, t, m := Flatten(x), Flatten(y), Flatten(Mult(x, y));
      Cell(s, t, 1, 0) == m[4] && Cell(s, t, 1, 1) == m[5] && Cell(s, t, 1, 2) == m[6] && Cell(s, t, 1, 3) == m[7]
  {
    FlattenAt(x);
    FlattenAt(y);
    FlattenAt(Mult(x, y));
  }

  lemma ProductRow2(x: Amat4, y: Amat4)
    ensures var s, t, m := Flatten(x), Flatten(y), Flatten(Mult(x, y));
      Cell(s, t, 2, 0) == m[8] && Cell(s, t, 2, 1) == m[9] && Cell(s, t, 2, 2) == m[10] && Cell(s, t, 2, 3) == m[11]
  {
    FlattenAt(x);
    FlattenAt(y);
    FlattenAt(Mult(x, y));
  }

  lemma ProductRow3(x: Amat4, y: Amat4)
    ensures var s, t, m := Flatten(x), Flatten(y), Flatten(Mult(x, y));
      Cell(s, t, 3, 0) == m[12] && Cell(s, t, 3, 1) == m[13] && Cell(s, t, 3, 2) == m[14] && Cell(s, t, 3, 3) == m[15]
  {
    FlattenAt(x);
    FlattenAt(y);
    FlattenAt(Mult(x, y));
  }
}
