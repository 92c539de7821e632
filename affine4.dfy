/** Affine 4x4 matrices kept as a 3x3 linear block and a translation: their
    composition, their action on points and vectors, rotations, the 16-float
    row-major layout, and the closed-form inverse of a rigid map. */
module AffineMatrix4 {
  import opened Vector3
  import M = Matrix3

  /** An amat4: the block `A[0..8]` (also viewed as the mat3 `a`) and the
      translation `T[0..2]` (also viewed as `x, y, z` and as the vec3 `t`).
      It stands for the 4x4 matrix whose last row is <0, 0, 0, 1>. */
  datatype Amat4 = Amat4(a: M.Mat3, t: Vec3)

  /** AMAT4_IDENT: the identity block and a zero translation. */
  const Ident := Amat4(M.Ident, Vec3(0.0, 0.0, 0.0))

  /** The composition a * b: its block is the product of the blocks, and its
      translation is a's block applied to b's translation, plus a's. */
  function Mult(a: Amat4, b: Amat4): (r: Amat4)
    ensures r.a == M.Mult(a.a, b.a)
    ensures r.t == Add(M.MultVec(a.a, b.t), a.t)
  {
    var A, B := a.a, b.a;
    M.MultRow0(A, B);
    M.MultRow1(A, B);
    M.MultRow2(A, B);
    M.MultVecIs(A, b.t);
    AddIs(M.MultVec(A, b.t), a.t);
    Amat4(
      M.Mat3(
        A.a0 * B.a0 + A.a1 * B.a3 + A.a2 * B.a6,
        A.a0 * B.a1 + A.a1 * B.a4 + A.a2 * B.a7,
        A.a0 * B.a2 + A.a1 * B.a5 + A.a2 * B.a8,
        A.a3 * B.a0 + A.a4 * B.a3 + A.a5 * B.a6,
        A.a3 * B.a1 + A.a4 * B.a4 + A.a5 * B.a7,
        A.a3 * B.a2 + A.a4 * B.a5 + A.a5 * B.a8,
        A.a6 * B.a0 + A.a7 * B.a3 + A.a8 * B.a6,
        A.a6 * B.a1 + A.a7 * B.a4 + A.a8 * B.a7,
        A.a6 * B.a2 + A.a7 * B.a5 + A.a8 * B.a8),
      Vec3(
        A.a0 * b.t.x + A.a1 * b.t.y + A.a2 * b.t.z + a.t.x,
        A.a3 * b.t.x + A.a4 * b.t.y + A.a5 * b.t.z + a.t.y,
        A.a6 * b.t.x + A.a7 * b.t.y + A.a8 * b.t.z + a.t.z))
  }

  /** a applied to the point b, that is to the column <x, y, z, 1>: the linear
      part of a applied to b, then translated. */
  function MultPoint(a: Amat4, b: Vec3): (r: Vec3)
    ensures r == Add(MultVec(a, b), a.t)
  {
    var A := a.a;
    M.MultVecIs(A, b);
    AddIs(M.MultVec(A, b), a.t);
    Vec3(
      A.a0 * b.x + A.a1 * b.y + A.a2 * b.z + a.t.x,
      A.a3 * b.x + A.a4 * b.y + A.a5 * b.z + a.t.y,
      A.a6 * b.x + A.a7 * b.y + A.a8 * b.z + a.t.z)
  }

  /** a applied to the direction b, that is to the column <x, y, z, 0>: the
      translation plays no part, so this is the block of a applied to b. */
  function MultVec(a: Amat4, b: Vec3): (r: Vec3)
    ensures r == M.MultVec(a.a, b)
  {
    var A := a.a;
    Vec3(
      A.a0 * b.x + A.a1 * b.y + A.a2 * b.z,
      A.a3 * b.x + A.a4 * b.y + A.a5 * b.z,
      A.a6 * b.x + A.a7 * b.y + A.a8 * b.z)
  }

  /** a post-multiplied by the rotation about <ux, uy, uz>: the same as
      composing a with that rotation, so the translation of a is kept. */
  function Rot(a: Amat4, ux: real, uy: real, uz: real, s: real, c: real): (r: Amat4)
    ensures r == Mult(a, RotMat(ux, uy, uz, s, c))
    ensures r.t == a.t
  {
    var b := RotMat(ux, uy, uz, s, c);
    M.MultVecZero(a.a);
    AddNegCancel(a.t, a.t);
    // The nine block sums are those of the mat3 product.
    Amat4(M.Mult(a.a, b.a), Vec3(a.t.x, a.t.y, a.t.z))
  }

  /** The rotation about <ux, uy, uz>: the block is the mat3 rotation with the
      same arguments, and the translation is zero. */
  function RotMat(ux: real, uy: real, uz: real, s: real, c: real): Amat4
  {
    var c1 := 1.0 - c;
    Amat4(
      M.Mat3(
        c + ux * ux * c1, ux * uy * c1 - uz * s, ux * uz * c1 + uy * s,
        uy * ux * c1 + uz * s, c + uy * uy * c1, uy * uz * c1 - ux * s,
        ux * uz * c1 - uy * s, uy * uz * c1 + ux * s, c + uz * uz * c1),
      Vec3(0.0, 0.0, 0.0))
  }

  /** The same rotation computed with shared partial products: over the reals
      it is equal, entry for entry, to RotMat. */
  function RotMatLoMult(ux: real, uy: real, uz: real, s: real, c: real): Amat4
  {
    var c1 := 1.0 - c;
    var uxc1 := ux * c1;
    var uyc1 := uy * c1;
    var uyzc1 := uz * uyc1;
    var uxs := ux * s;
    var uys := uy * s;
    var uzs := uz * s;
    Amat4(
      M.Mat3(
        c + ux * uxc1, uy * uxc1 - uzs, uz * uxc1 + uys,
        uy * uxc1 + uzs, c + uy * uyc1, uyzc1 - uxs,
        uz * uxc1 - uys, uyzc1 + uxs, c + uz * uz * c1),
      Vec3(0.0, 0.0, 0.0))
  }

  /** The closed-form inverse of a rigid map: the transposed block, and the
      translation moved back through it and negated. */
  function Inverse(a: Amat4): (r: Amat4)
    ensures r.a == M.Transp(a.a)
    ensures r.t == Neg(M.MultVec(M.Transp(a.a), a.t))
  {
    var A := a.a;
    Amat4(
      M.Mat3(A.a0, A.a3, A.a6,
             A.a1, A.a4, A.a7,
             A.a2, A.a5, A.a8),
      Vec3(
        (-A.a0 * a.t.x) - (A.a3 * a.t.y) - (A.a6 * a.t.z),
        (-A.a1 * a.t.x) - (A.a4 * a.t.y) - (A.a7 * a.t.z),
        (-A.a2 * a.t.x) - (A.a5 * a.t.y) - (A.a8 * a.t.z)))
  }

  /** The 16 floats of a as a true row-major 4x4 matrix: the same layout as a
      mat3 and a vec3 copied side by side. */
  function Flatten(a: Amat4): (r: seq<real>)
    ensures r == M.Layout(a.a, a.t)
  {
    var A := a.a;
    [A.a0, A.a1, A.a2, a.t.x,
     A.a3, A.a4, A.a5, a.t.y,
     A.a6, A.a7, A.a8, a.t.z,
     0.0, 0.0, 0.0, 1.0]
  }

  /** Copies a, flattened, into the first 16 floats of buf. */
  method Amat4ToArray(a: Amat4, buf: array<real>)
    requires buf.Length >= 16
    modifies buf
    ensures buf[..16] == Flatten(a)
    ensures buf[16..] == old(buf[16..])
  {
    var tmp := Flatten(a);
    forall k | 0 <= k < 16 {
      buf[k] := tmp[k];
    }
  }

  /** The rotation has the mat3 rotation with the same arguments as its block
      and a zero translation. */
  lemma RotMatBlocks(ux: real, uy: real, uz: real, s: real, c: real)
    ensures RotMat(ux, uy, uz, s, c).a == M.RotMat(ux, uy, uz, s, c)
    ensures RotMat(ux, uy, uz, s, c).t == Vec3(0.0, 0.0, 0.0)
  {
  }

  /** Over the reals the version with shared partial products is the same
      rotation, entry for entry. */
  lemma RotMatLoMultEqual(ux: real, uy: real, uz: real, s: real, c: real)
    ensures RotMatLoMult(ux, uy, uz, s, c) == RotMat(ux, uy, uz, s, c)
  {
  }

  /** Composition agrees with applying the two maps in turn, b first. */
  lemma MultComposes(a: Amat4, b: Amat4, p: Vec3)
    ensures MultPoint(Mult(a, b), p) == MultPoint(a, MultPoint(b, p))
    ensures MultVec(Mult(a, b), p) == MultVec(a, MultVec(b, p))
  {
    var A, B := a.a, b.a;
    var bp := M.MultVec(B, p);
    M.MultVecOfMult(A, B);
    M.MultVecLinear(A, bp, b.t);
    AddAssociates(M.MultVec(A, bp), M.MultVec(A, b.t), a.t);
  }

  /** So a rotated map applies the rotation first, then the map. */
  lemma RotComposes(a: Amat4, ux: real, uy: real, uz: real, s: real, c: real, p: Vec3)
    ensures MultPoint(Rot(a, ux, uy, uz, s, c), p) == MultPoint(a, MultPoint(RotMat(ux, uy, uz, s, c), p))
  {
    MultComposes(a, RotMat(ux, uy, uz, s, c), p);
  }

  /** AMAT4_IDENT is neutral for composition and fixes every point. */
  lemma IdentNeutral(a: Amat4, p: Vec3)
    ensures Mult(Ident, a) == a && Mult(a, Ident) == a
    ensures MultPoint(Ident, p) == p
  {
    M.IdentNeutral(a.a, p);
    M.IdentNeutral(a.a, a.t);
    AddNegCancel(a.t, a.t);
    AddNegCancel(p, p);
  }

  /** With an orthogonal block (A^T A = I), the inverse undoes the map: it
      sends every image point back, and composed after the map it gives the
      identity. */
  lemma InverseUndoes(a: Amat4, p: Vec3)
    requires M.Mult(M.Transp(a.a), a.a) == M.Ident
    ensures MultPoint(Inverse(a), MultPoint(a, p)) == p
    ensures Mult(Inverse(a), a) == Ident
  {
    var A, At := a.a, M.Transp(a.a);
    var w := M.MultVec(At, a.t);
    M.MultVecOfMult(At, A);
    M.IdentNeutral(A, p);
    M.MultVecLinear(At, M.MultVec(A, p), a.t);
    AddNegCancel(p, w);
    AddNegCancel(w, w);
  }

  /** With an orthogonal block the other way round (A A^T = I), the map undoes
      the inverse, and composed before it gives the identity. */
  lemma InverseRedoes(a: Amat4, p: Vec3)
    requires M.Mult(a.a, M.Transp(a.a)) == M.Ident
    ensures MultPoint(a, MultPoint(Inverse(a), p)) == p
    ensures Mult(a, Inverse(a)) == Ident
  {
    var A, At := a.a, M.Transp(a.a);
    var w := M.MultVec(At, a.t);
    M.MultVecOfMult(A, At);
    M.IdentNeutral(At, p);
    M.IdentNeutral(At, a.t);
    M.MultVecLinear(A, M.MultVec(At, p), Neg(w));
    M.MultVecNeg(A, w);
    AddNegCancel(p, a.t);
    AddNegCancel(a.t, a.t);
  }

  /** MultPoint and MultVec are the 4x4 product of the flattened matrix with
      the columns <x, y, z, 1> and <x, y, z, 0>. */
  lemma Homogeneous(a: Amat4, p: Vec3)
    ensures var m := Flatten(a);
      forall i | 0 <= i < 3 ::
        && MultPoint(a, p).At(i)
           == M.Entry4(m, i, 0) * p.x + M.Entry4(m, i, 1) * p.y + M.Entry4(m, i, 2) * p.z + M.Entry4(m, i, 3) * 1.0
        && MultVec(a, p).At(i)
           == M.Entry4(m, i, 0) * p.x + M.Entry4(m, i, 1) * p.y + M.Entry4(m, i, 2) * p.z + M.Entry4(m, i, 3) * 0.0
  {
  }
}
