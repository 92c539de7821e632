/** The rotation matrix of Matrix3 is a rotation: for a unit axis and an
    angle whose sine and cosine satisfy s^2 + c^2 = 1 it is orthogonal (its
    transpose is its inverse on both sides), its determinant is 1 and it
    fixes its axis; so the affine rotation matrix is undone by the affine
    inverse.

    The entries of RotMat are polynomials in ux, uy, uz, s and c of three
    shapes: the diagonal `c + p*p*(1 - c)` and the off-diagonal
    `p*q*(1 - c) + w*s` and `p*q*(1 - c) - w*s`. The proofs go in three
    layers: a dot product of two columns (or rows) of any matrix is a sum of
    products of its fields and sits in a row of Transp(a) * a (or of
    a * Transp(a)); each product of two fields of RotMat is the product of
    their polynomials (Product..); and the sums of those polynomial products
    are proved to be 1 or 0 as plain identities over the reals (..Poly..). */
module Rotation {
  import opened Vector3
  import opened Matrix3
  import A = AffineMatrix4

  /** With a unit axis and s^2 + c^2 = 1, the transpose of the rotation matrix
      is a left inverse of it. */
  lemma RotMatOrthogonal(ux: real, uy: real, uz: real, s: real, c: real)
    requires ux * ux + uy * uy + uz * uz == 1.0 && s * s + c * c == 1.0
    ensures Mult(Transp(RotMat(ux, uy, uz, s, c)), RotMat(ux, uy, uz, s, c)) == Ident
  {
    var r := RotMat(ux, uy, uz, s, c);
    GramRow0(r);
    GramRow1(r);
    GramRow2(r);
    ColumnsDot00(ux, uy, uz, s, c);
    ColumnsDot01(ux, uy, uz, s, c);
    ColumnsDot02(ux, uy, uz, s, c);
    ColumnsDot11(ux, uy, uz, s, c);
    ColumnsDot12(ux, uy, uz, s, c);
    ColumnsDot22(ux, uy, uz, s, c);
    DotProperties(r.Col(0), r.Col(1));
    DotProperties(r.Col(0), r.Col(2));
    DotProperties(r.Col(1), r.Col(2));
    RowsCols(Mult(Transp(r), r));
  }

  /** ... and a right inverse: the rows of the rotation matrix are orthonormal
      too. */
  lemma RotMatOrthonormalRows(ux: real, uy: real, uz: real, s: real, c: real)
    requires ux * ux + uy * uy + uz * uz == 1.0 && s * s + c * c == 1.0
    ensures Mult(RotMat(ux, uy, uz, s, c), Transp(RotMat(ux, uy, uz, s, c))) == Ident
  {
    var r := RotMat(ux, uy, uz, s, c);
    CoGramRow0(r);
    CoGramRow1(r);
    CoGramRow2(r);
    RowsDot00(ux, uy, uz, s, c);
    RowsDot01(ux, uy, uz, s, c);
    RowsDot02(ux, uy, uz, s, c);
    RowsDot11(ux, uy, uz, s, c);
    RowsDot12(ux, uy, uz, s, c);
    RowsDot22(ux, uy, uz, s, c);
    DotProperties(r.Row(0), r.Row(1));
    DotProperties(r.Row(0), r.Row(2));
    DotProperties(r.Row(1), r.Row(2));
    RowsCols(Mult(r, Transp(r)));
  }

  /** A rotation about a unit axis leaves the axis where it is, whatever the
      angle. */
  lemma RotMatFixesAxis(ux: real, uy: real, uz: real, s: real, c: real)
    requires ux * ux + uy * uy + uz * uz == 1.0
    ensures MultVec(RotMat(ux, uy, uz, s, c), Vec3(ux, uy, uz)) == Vec3(ux, uy, uz)
  {
    MultVecEntries(RotMat(ux, uy, uz, s, c), Vec3(ux, uy, uz));
    AxisRow0(ux, uy, uz, s, c);
    AxisRow1(ux, uy, uz, s, c);
    AxisRow2(ux, uy, uz, s, c);
  }

  /** The affine rotation matrix is a rigid motion whose inverse, computed by
      AffineMatrix4.Inverse, undoes it on both sides and on every point; and
      it fixes every point of its axis through the origin. */
  lemma AffineRotationInverse(ux: real, uy: real, uz: real, s: real, c: real, p: Vec3)
    requires ux * ux + uy * uy + uz * uz == 1.0 && s * s + c * c == 1.0
    ensures A.Mult(A.Inverse(A.RotMat(ux, uy, uz, s, c)), A.RotMat(ux, uy, uz, s, c)) == A.Ident
    ensures A.Mult(A.RotMat(ux, uy, uz, s, c), A.Inverse(A.RotMat(ux, uy, uz, s, c))) == A.Ident
    ensures A.MultPoint(A.Inverse(A.RotMat(ux, uy, uz, s, c)), A.MultPoint(A.RotMat(ux, uy, uz, s, c), p)) == p
    ensures A.MultPoint(A.RotMat(ux, uy, uz, s, c), Vec3(ux, uy, uz)) == Vec3(ux, uy, uz)
  {
    var q := A.RotMat(ux, uy, uz, s, c);
    RotMatOrthogonal(ux, uy, uz, s, c);
    RotMatOrthonormalRows(ux, uy, uz, s, c);
    A.RotMatBlocks(ux, uy, uz, s, c);
    A.InverseUndoes(q, p);
    A.InverseRedoes(q, p);
    RotMatFixesAxis(ux, uy, uz, s, c);
  }

  /** With a unit axis and s^2 + c^2 = 1, the rotation matrix has
      determinant 1: it is a proper rotation, not a reflection. */
  lemma RotMatDet(ux: real, uy: real, uz: real, s: real, c: real)
    requires ux * ux + uy * uy + uz * uz == 1.0 && s * s + c * c == 1.0
    ensures Determinant(RotMat(ux, uy, uz, s, c)) == 1.0
  {
    RotMatDetWith(ux, uy, uz, s, c, 1.0 - c);
  }

  lemma RotMatDetWith(ux: real, uy: real, uz: real, s: real, c: real, k: real)
    requires ux * ux + uy * uy + uz * uz == 1.0 && s * s + c * c == 1.0 && k == 1.0 - c
    ensures Determinant(RotMat(ux, uy, uz, s, c)) == 1.0
  {
    var r := RotMat(ux, uy, uz, s, c);
    DeterminantIs(r);
    DetOfEntries(r.a0, r.a1, r.a2, r.a3, r.a4, r.a5, r.a6, r.a7, r.a8, ux, uy, uz, s, c, k);
  }

  lemma DetOfEntries(a0: real, a1: real, a2: real, a3: real, a4: real, a5: real, a6: real, a7: real, a8: real, ux: real, uy: real, uz: real, s: real, c: real, k: real)
    requires ux * ux + uy * uy + uz * uz == 1.0 && s * s + c * c == 1.0 && k == 1.0 - c
    requires a0 == c + ux * ux * (1.0 - c) &&
      a1 == ux * uy * (1.0 - c) - uz * s &&
      a2 == ux * uz * (1.0 - c) + uy * s &&
      a3 == uy * ux * (1.0 - c) + uz * s &&
      a4 == c + uy * uy * (1.0 - c) &&
      a5 == uy * uz * (1.0 - c) - ux * s &&
      a6 == ux * uz * (1.0 - c) - uy * s &&
      a7 == uy * uz * (1.0 - c) + ux * s &&
      a8 == c + uz * uz * (1.0 - c)
    ensures a0 * a4 * a8 - a0 * a5 * a7 - a1 * a3 * a8 + a1 * a5 * a6 + a2 * a3 * a7 - a2 * a4 * a6 == 1.0
  {
    TripleDiagDiagDiag(a0, a4, a8, ux, uy, uz, c, k);
    TripleDiagMinusPlus(a0, a5, a7, ux, uy, uz, ux, uy, uz, ux, s, c, k);
    TripleMinusPlusDiag(a1, a3, a8, ux, uy, uz, uy, ux, uz, uz, s, c, k);
    TripleMinusMinusMinus(a1, a5, a6, ux, uy, uz, uy, uz, ux, ux, uz, uy, s, c, k);
    TriplePlusPlusPlus(a2, a3, a7, ux, uz, uy, uy, ux, uz, uy, uz, ux, s, c, k);
    TriplePlusDiagMinus(a2, a4, a6, ux, uz, uy, uy, ux, uz, uy, s, c, k);
    DetPoly(ux, uy, uz, s, c, k);
    DetCombine(a0, a1, a2, a3, a4, a5, a6, a7, a8, ux, uy, uz, s, c, k);
  }

  lemma DetCombine(a0: real, a1: real, a2: real, a3: real, a4: real, a5: real, a6: real, a7: real, a8: real, ux: real, uy: real, uz: real, s: real, c: real, k: real)
    requires a0 * a4 * a8 == (c + ux * ux * k) * (c + uy * uy * k) * (c + uz * uz * k) &&
      a0 * a5 * a7 == (c + ux * ux * k) * (uy * uz * k - ux * s) * (uy * uz * k + ux * s) &&
      a1 * a3 * a8 == (ux * uy * k - uz * s) * (uy * ux * k + uz * s) * (c + uz * uz * k) &&
      a1 * a5 * a6 == (ux * uy * k - uz * s) * (uy * uz * k - ux * s) * (ux * uz * k - uy * s) &&
      a2 * a3 * a7 == (ux * uz * k + uy * s) * (uy * ux * k + uz * s) * (uy * uz * k + ux * s) &&
      a2 * a4 * a6 == (ux * uz * k + uy * s) * (c + uy * uy * k) * (ux * uz * k - uy * s)
    requires (c + ux * ux * k) * (c + uy * uy * k) * (c + uz * uz * k)
      - (c + ux * ux * k) * (uy * uz * k - ux * s) * (uy * uz * k + ux * s)
      - (ux * uy * k - uz * s) * (uy * ux * k + uz * s) * (c + uz * uz * k)
      + (ux * uy * k - uz * s) * (uy * uz * k - ux * s) * (ux * uz * k - uy * s)
      + (ux * uz * k + uy * s) * (uy * ux * k + uz * s) * (uy * uz * k + ux * s)
      - (ux * uz * k + uy * s) * (c + uy * uy * k) * (ux * uz * k - uy * s)
      == 1.0
    ensures a0 * a4 * a8 - a0 * a5 * a7 - a1 * a3 * a8 + a1 * a5 * a6 + a2 * a3 * a7 - a2 * a4 * a6 == 1.0
  {
  }

  // The determinant of the rotation matrix as a polynomial, with k = 1 - c.
  lemma DetPoly(ux: real, uy: real, uz: real, s: real, c: real, k: real)
    requires ux * ux + uy * uy + uz * uz == 1.0 && s * s + c * c == 1.0 && k == 1.0 - c
    ensures (c + ux * ux * k) * (c + uy * uy * k) * (c + uz * uz * k)
      - (c + ux * ux * k) * (uy * uz * k - ux * s) * (uy * uz * k + ux * s)
      - (ux * uy * k - uz * s) * (uy * ux * k + uz * s) * (c + uz * uz * k)
      + (ux * uy * k - uz * s) * (uy * uz * k - ux * s) * (ux * uz * k - uy * s)
      + (ux * uz * k + uy * s) * (uy * ux * k + uz * s) * (uy * uz * k + ux * s)
      - (ux * uz * k + uy * s) * (c + uy * uy * k) * (ux * uz * k - uy * s)
      == 1.0
  {
    DetFactors(ux, uy, uz, s, c, k);
    DetFactorsUnit(ux * ux + uy * uy + uz * uz, s, c, k);
  }

  /** The determinant factors into the eigenvalue along the axis, c + k |u|^2,
      times the product of the other two, c^2 + s^2 |u|^2. */
  lemma DetFactors(ux: real, uy: real, uz: real, s: real, c: real, k: real)
    ensures (c + ux * ux * k) * (c + uy * uy * k) * (c + uz * uz * k)
      - (c + ux * ux * k) * (uy * uz * k - ux * s) * (uy * uz * k + ux * s)
      - (ux * uy * k - uz * s) * (uy * ux * k + uz * s) * (c + uz * uz * k)
      + (ux * uy * k - uz * s) * (uy * uz * k - ux * s) * (ux * uz * k - uy * s)
      + (ux * uz * k + uy * s) * (uy * ux * k + uz * s) * (uy * uz * k + ux * s)
      - (ux * uz * k + uy * s) * (c + uy * uy * k) * (ux * uz * k - uy * s)
      == (c + k * (ux * ux + uy * uy + uz * uz)) * (c * c + s * s * (ux * ux + uy * uy + uz * uz))
  {
  }

  lemma DetFactorsUnit(n: real, s: real, c: real, k: real)
    requires n == 1.0 && s * s + c * c == 1.0 && k == 1.0 - c
    ensures (c + k * n) * (c * c + s * s * n) == 1.0
  {
  }

  /** Rodrigues' rotation formula: the rotation matrix sends v to
      v cos + (u x v) sin + u (1 - cos)(u . v). This fixes the sense of the
      rotation (counterclockwise about u, seen from its tip, for s > 0) and
      tells it apart from its transpose, the rotation by the opposite angle.
      It holds for every axis, unit or not. */
  lemma RotMatRodrigues(ux: real, uy: real, uz: real, s: real, c: real, v: Vec3)
    ensures MultVec(RotMat(ux, uy, uz, s, c), v) == Add(Add(Vector3.Scale(v, c), Vector3.Scale(Cross(Vec3(ux, uy, uz), v), s)), Vector3.Scale(Vec3(ux, uy, uz), (1.0 - c) * Dot(Vec3(ux, uy, uz), v)))
  {
    RodriguesRow0(ux, uy, uz, s, c, v);
    RodriguesRow1(ux, uy, uz, s, c, v);
    RodriguesRow2(ux, uy, uz, s, c, v);
  }

  /** The dot products of two columns, and of two rows, of any matrix as sums
      of products of its fields. */
  lemma DotsOfFields(a: Mat3)
    ensures Dot(a.Col(0), a.Col(0)) == a.a0 * a.a0 + a.a3 * a.a3 + a.a6 * a.a6
    ensures Dot(a.Col(0), a.Col(1)) == a.a0 * a.a1 + a.a3 * a.a4 + a.a6 * a.a7
    ensures Dot(a.Col(0), a.Col(2)) == a.a0 * a.a2 + a.a3 * a.a5 + a.a6 * a.a8
    ensures Dot(a.Col(1), a.Col(1)) == a.a1 * a.a1 + a.a4 * a.a4 + a.a7 * a.a7
    ensures Dot(a.Col(1), a.Col(2)) == a.a1 * a.a2 + a.a4 * a.a5 + a.a7 * a.a8
    ensures Dot(a.Col(2), a.Col(2)) == a.a2 * a.a2 + a.a5 * a.a5 + a.a8 * a.a8
    ensures Dot(a.Row(0), a.Row(0)) == a.a0 * a.a0 + a.a1 * a.a1 + a.a2 * a.a2
    ensures Dot(a.Row(0), a.Row(1)) == a.a0 * a.a3 + a.a1 * a.a4 + a.a2 * a.a5
    ensures Dot(a.Row(0), a.Row(2)) == a.a0 * a.a6 + a.a1 * a.a7 + a.a2 * a.a8
    ensures Dot(a.Row(1), a.Row(1)) == a.a3 * a.a3 + a.a4 * a.a4 + a.a5 * a.a5
    ensures Dot(a.Row(1), a.Row(2)) == a.a3 * a.a6 + a.a4 * a.a7 + a.a5 * a.a8
    ensures Dot(a.Row(2), a.Row(2)) == a.a6 * a.a6 + a.a7 * a.a7 + a.a8 * a.a8
  {
  }

  /** Columns 0 and 0 of the rotation matrix have dot product 1.0. */
  lemma ColumnsDot00(ux: real, uy: real, uz: real, s: real, c: real)
    requires ux * ux + uy * uy + uz * uz == 1.0 && s * s + c * c == 1.0
    ensures Dot(RotMat(ux, uy, uz, s, c).Col(0), RotMat(ux, uy, uz, s, c).Col(0)) == 1.0
  {
    DotsOfFields(RotMat(ux, uy, uz, s, c));
    Product00(ux, uy, uz, s, c);
    Product33(ux, uy, uz, s, c);
    Product66(ux, uy, uz, s, c);
    ColumnsPoly00(ux, uy, uz, s, c);
  }

  /** Columns 0 and 1 of the rotation matrix have dot product 0.0. */
  lemma ColumnsDot01(ux: real, uy: real, uz: real, s: real, c: real)
    requires ux * ux + uy * uy + uz * uz == 1.0 && s * s + c * c == 1.0
    ensures Dot(RotMat(ux, uy, uz, s, c).Col(0), RotMat(ux, uy, uz, s, c).Col(1)) == 0.0
  {
    DotsOfFields(RotMat(ux, uy, uz, s, c));
    Product01(ux, uy, uz, s, c);
    Product34(ux, uy, uz, s, c);
    Product67(ux, uy, uz, s, c);
    ColumnsPoly01(ux, uy, uz, s, c);
  }

  /** Columns 0 and 2 of the rotation matrix have dot product 0.0. */
  lemma ColumnsDot02(ux: real, uy: real, uz: real, s: real, c: real)
    requires ux * ux + uy * uy + uz * uz == 1.0 && s * s + c * c == 1.0
    ensures Dot(RotMat(ux, uy, uz, s, c).Col(0), RotMat(ux, uy, uz, s, c).Col(2)) == 0.0
  {
    DotsOfFields(RotMat(ux, uy, uz, s, c));
    Product02(ux, uy, uz, s, c);
    Product35(ux, uy, uz, s, c);
    Product68(ux, uy, uz, s, c);
    ColumnsPoly02(ux, uy, uz, s, c);
  }

  /** Columns 1 and 1 of the rotation matrix have dot product 1.0. */
  lemma ColumnsDot11(ux: real, uy: real, uz: real, s: real, c: real)
    requires ux * ux + uy * uy + uz * uz == 1.0 && s * s + c * c == 1.0
    ensures Dot(RotMat(ux, uy, uz, s, c).Col(1), RotMat(ux, uy, uz, s, c).Col(1)) == 1.0
  {
    DotsOfFields(RotMat(ux, uy, uz, s, c));
    Product11(ux, uy, uz, s, c);
    Product44(ux, uy, uz, s, c);
    Product77(ux, uy, uz, s, c);
    ColumnsPoly11(ux, uy, uz, s, c);
  }

  /** Columns 1 and 2 of the rotation matrix have dot product 0.0. */
  lemma ColumnsDot12(ux: real, uy: real, uz: real, s: real, c: real)
    requires ux * ux + uy * uy + uz * uz == 1.0 && s * s + c * c == 1.0
    ensures Dot(RotMat(ux, uy, uz, s, c).Col(1), RotMat(ux, uy, uz, s, c).Col(2)) == 0.0
  {
    DotsOfFields(RotMat(ux, uy, uz, s, c));
    Product12(ux, uy, uz, s, c);
    Product45(ux, uy, uz, s, c);
    Product78(ux, uy, uz, s, c);
    ColumnsPoly12(ux, uy, uz, s, c);
  }

  /** Columns 2 and 2 of the rotation matrix have dot product 1.0. */
  lemma ColumnsDot22(ux: real, uy: real, uz: real, s: real, c: real)
    requires ux * ux + uy * uy + uz * uz == 1.0 && s * s + c * c == 1.0
    ensures Dot(RotMat(ux, uy, uz, s, c).Col(2), RotMat(ux, uy, uz, s, c).Col(2)) == 1.0
  {
    DotsOfFields(RotMat(ux, uy, uz, s, c));
    Product22(ux, uy, uz, s, c);
    Product55(ux, uy, uz, s, c);
    Product88(ux, uy, uz, s, c);
    ColumnsPoly22(ux, uy, uz, s, c);
  }

  lemma ColumnsPoly00(ux: real, uy: real, uz: real, s: real, c: real)
    requires ux * ux + uy * uy + uz * uz == 1.0 && s * s + c * c == 1.0
    ensures (c + ux * ux * (1.0 - c)) * (c + ux * ux * (1.0 - c))
      + (uy * ux * (1.0 - c) + uz * s) * (uy * ux * (1.0 - c) + uz * s)
      + (ux * uz * (1.0 - c) - uy * s) * (ux * uz * (1.0 - c) - uy * s) == 1.0
  {
    assert ux * ux * (1.0 - c) * (1.0 - c) * (ux * ux + uy * uy + uz * uz) == ux * ux * (1.0 - c) * (1.0 - c);
    assert ux * ux * (s * s + c * c) == ux * ux;
  }

  lemma ColumnsPoly01(ux: real, uy: real, uz: real, s: real, c: real)
    requires ux * ux + uy * uy + uz * uz == 1.0 && s * s + c * c == 1.0
    ensures (c + ux * ux * (1.0 - c)) * (ux * uy * (1.0 - c) - uz * s)
      + (uy * ux * (1.0 - c) + uz * s) * (c + uy * uy * (1.0 - c))
      + (ux * uz * (1.0 - c) - uy * s) * (uy * uz * (1.0 - c) + ux * s) == 0.0
  {
    assert ux * uy * (1.0 - c) * (1.0 - c) * (ux * ux + uy * uy + uz * uz) == ux * uy * (1.0 - c) * (1.0 - c);
    assert ux * uy * (s * s + c * c) == ux * uy;
  }

  lemma ColumnsPoly02(ux: real, uy: real, uz: real, s: real, c: real)
    requires ux * ux + uy * uy + uz * uz == 1.0 && s * s + c * c == 1.0
    ensures (c + ux * ux * (1.0 - c)) * (ux * uz * (1.0 - c) + uy * s)
      + (uy * ux * (1.0 - c) + uz * s) * (uy * uz * (1.0 - c) - ux * s)
      + (ux * uz * (1.0 - c) - uy * s) * (c + uz * uz * (1.0 - c)) == 0.0
  {
    assert ux * uz * (1.0 - c) * (1.0 - c) * (ux * ux + uy * uy + uz * uz) == ux * uz * (1.0 - c) * (1.0 - c);
    assert ux * uz * (s * s + c * c) == ux * uz;
  }

  lemma ColumnsPoly11(ux: real, uy: real, uz: real, s: real, c: real)
    requires ux * ux + uy * uy + uz * uz == 1.0 && s * s + c * c == 1.0
    ensures (ux * uy * (1.0 - c) - uz * s) * (ux * uy * (1.0 - c) - uz * s)
      + (c + uy * uy * (1.0 - c)) * (c + uy * uy * (1.0 - c))
      + (uy * uz * (1.0 - c) + ux * s) * (uy * uz * (1.0 - c) + ux * s) == 1.0
  {
    assert uy * uy * (1.0 - c) * (1.0 - c) * (ux * ux + uy * uy + uz * uz) == uy * uy * (1.0 - c) * (1.0 - c);
    assert uy * uy * (s * s + c * c) == uy * uy;
  }

  lemma ColumnsPoly12(ux: real, uy: real, uz: real, s: real, c: real)
    requires ux * ux + uy * uy + uz * uz == 1.0 && s * s + c * c == 1.0
    ensures (ux * uy * (1.0 - c) - uz * s) * (ux * uz * (1.0 - c) + uy * s)
      + (c + uy * uy * (1.0 - c)) * (uy * uz * (1.0 - c) - ux * s)
      + (uy * uz * (1.0 - c) + ux * s) * (c + uz * uz * (1.0 - c)) == 0.0
  {
    assert uy * uz * (1.0 - c) * (1.0 - c) * (ux * ux + uy * uy + uz * uz) == uy * uz * (1.0 - c) * (1.0 - c);
    assert uy * uz * (s * s + c * c) == uy * uz;
  }

  lemma ColumnsPoly22(ux: real, uy: real, uz: real, s: real, c: real)
    requires ux * ux + uy * uy + uz * uz == 1.0 && s * s + c * c == 1.0
    ensures (ux * uz * (1.0 - c) + uy * s) * (ux * uz * (1.0 - c) + uy * s)
      + (uy * uz * (1.0 - c) - ux * s) * (uy * uz * (1.0 - c) - ux * s)
      + (c + uz * uz * (1.0 - c)) * (c + uz * uz * (1.0 - c)) == 1.0
  {
    assert uz * uz * (1.0 - c) * (1.0 - c) * (ux * ux + uy * uy + uz * uz) == uz * uz * (1.0 - c) * (1.0 - c);
    assert uz * uz * (s * s + c * c) == uz * uz;
  }

  /** Rows 0 and 0 of the rotation matrix have dot product 1.0. */
  lemma RowsDot00(ux: real, uy: real, uz: real, s: real, c: real)
    requires ux * ux + uy * uy + uz * uz == 1.0 && s * s + c * c == 1.0
    ensures Dot(RotMat(ux, uy, uz, s, c).Row(0), RotMat(ux, uy, uz, s, c).Row(0)) == 1.0
  {
    DotsOfFields(RotMat(ux, uy, uz, s, c));
    Product00(ux, uy, uz, s, c);
    Product11(ux, uy, uz, s, c);
    Product22(ux, uy, uz, s, c);
    RowsPoly00(ux, uy, uz, s, c);
  }

  /** Rows 0 and 1 of the rotation matrix have dot product 0.0. */
  lemma RowsDot01(ux: real, uy: real, uz: real, s: real, c: real)
    requires ux * ux + uy * uy + uz * uz == 1.0 && s * s + c * c == 1.0
    ensures Dot(RotMat(ux, uy, uz, s, c).Row(0), RotMat(ux, uy, uz, s, c).Row(1)) == 0.0
  {
    DotsOfFields(RotMat(ux, uy, uz, s, c));
    Product03(ux, uy, uz, s, c);
    Product14(ux, uy, uz, s, c);
    Product25(ux, uy, uz, s, c);
    RowsPoly01(ux, uy, uz, s, c);
  }

  /** Rows 0 and 2 of the rotation matrix have dot product 0.0. */
  lemma RowsDot02(ux: real, uy: real, uz: real, s: real, c: real)
    requires ux * ux + uy * uy + uz * uz == 1.0 && s * s + c * c == 1.0
    ensures Dot(RotMat(ux, uy, uz, s, c).Row(0), RotMat(ux, uy, uz, s, c).Row(2)) == 0.0
  {
    DotsOfFields(RotMat(ux, uy, uz, s, c));
    Product06(ux, uy, uz, s, c);
    Product17(ux, uy, uz, s, c);
    Product28(ux, uy, uz, s, c);
    RowsPoly02(ux, uy, uz, s, c);
  }

  /** Rows 1 and 1 of the rotation matrix have dot product 1.0. */
  lemma RowsDot11(ux: real, uy: real, uz: real, s: real, c: real)
    requires ux * ux + uy * uy + uz * uz == 1.0 && s * s + c * c == 1.0
    ensures Dot(RotMat(ux, uy, uz, s, c).Row(1), RotMat(ux, uy, uz, s, c).Row(1)) == 1.0
  {
    DotsOfFields(RotMat(ux, uy, uz, s, c));
    Product33(ux, uy, uz, s, c);
    Product44(ux, uy, uz, s, c);
    Product55(ux, uy, uz, s, c);
    RowsPoly11(ux, uy, uz, s, c);
  }

  /** Rows 1 and 2 of the rotation matrix have dot product 0.0. */
  lemma RowsDot12(ux: real, uy: real, uz: real, s: real, c: real)
    requires ux * ux + uy * uy + uz * uz == 1.0 && s * s + c * c == 1.0
    ensures Dot(RotMat(ux, uy, uz, s, c).Row(1), RotMat(ux, uy, uz, s, c).Row(2)) == 0.0
  {
    DotsOfFields(RotMat(ux, uy, uz, s, c));
    Product36(ux, uy, uz, s, c);
    Product47(ux, uy, uz, s, c);
    Product58(ux, uy, uz, s, c);
    RowsPoly12(ux, uy, uz, s, c);
  }

  /** Rows 2 and 2 of the rotation matrix have dot product 1.0. */
  lemma RowsDot22(ux: real, uy: real, uz: real, s: real, c: real)
    requires ux * ux + uy * uy + uz * uz == 1.0 && s * s + c * c == 1.0
    ensures Dot(RotMat(ux, uy, uz, s, c).Row(2), RotMat(ux, uy, uz, s, c).Row(2)) == 1.0
  {
    DotsOfFields(RotMat(ux, uy, uz, s, c));
    Product66(ux, uy, uz, s, c);
    Product77(ux, uy, uz, s, c);
    Product88(ux, uy, uz, s, c);
    RowsPoly22(ux, uy, uz, s, c);
  }

  lemma RowsPoly00(ux: real, uy: real, uz: real, s: real, c: real)
    requires ux * ux + uy * uy + uz * uz == 1.0 && s * s + c * c == 1.0
    ensures (c + ux * ux * (1.0 - c)) * (c + ux * ux * (1.0 - c))
      + (ux * uy * (1.0 - c) - uz * s) * (ux * uy * (1.0 - c) - uz * s)
      + (ux * uz * (1.0 - c) + uy * s) * (ux * uz * (1.0 - c) + uy * s) == 1.0
  {
    assert ux * ux * (1.0 - c) * (1.0 - c) * (ux * ux + uy * uy + uz * uz) == ux * ux * (1.0 - c) * (1.0 - c);
    assert ux * ux * (s * s + c * c) == ux * ux;
  }

  lemma RowsPoly01(ux: real, uy: real, uz: real, s: real, c: real)
    requires ux * ux + uy * uy + uz * uz == 1.0 && s * s + c * c == 1.0
    ensures (c + ux * ux * (1.0 - c)) * (uy * ux * (1.0 - c) + uz * s)
      + (ux * uy * (1.0 - c) - uz * s) * (c + uy * uy * (1.0 - c))
      + (ux * uz * (1.0 - c) + uy * s) * (uy * uz * (1.0 - c) - ux * s) == 0.0
  {
    assert ux * uy * (1.0 - c) * (1.0 - c) * (ux * ux + uy * uy + uz * uz) == ux * uy * (1.0 - c) * (1.0 - c);
    assert ux * uy * (s * s + c * c) == ux * uy;
  }

  lemma RowsPoly02(ux: real, uy: real, uz: real, s: real, c: real)
    requires ux * ux + uy * uy + uz * uz == 1.0 && s * s + c * c == 1.0
    ensures (c + ux * ux * (1.0 - c)) * (ux * uz * (1.0 - c) - uy * s)
      + (ux * uy * (1.0 - c) - uz * s) * (uy * uz * (1.0 - c) + ux * s)
      + (ux * uz * (1.0 - c) + uy * s) * (c + uz * uz * (1.0 - c)) == 0.0
  {
    assert ux * uz * (1.0 - c) * (1.0 - c) * (ux * ux + uy * uy + uz * uz) == ux * uz * (1.0 - c) * (1.0 - c);
    assert ux * uz * (s * s + c * c) == ux * uz;
  }

  lemma RowsPoly11(ux: real, uy: real, uz: real, s: real, c: real)
    requires ux * ux + uy * uy + uz * uz == 1.0 && s * s + c * c == 1.0
    ensures (uy * ux * (1.0 - c) + uz * s) * (uy * ux * (1.0 - c) + uz * s)
      + (c + uy * uy * (1.0 - c)) * (c + uy * uy * (1.0 - c))
      + (uy * uz * (1.0 - c) - ux * s) * (uy * uz * (1.0 - c) - ux * s) == 1.0
  {
    assert uy * uy * (1.0 - c) * (1.0 - c) * (ux * ux + uy * uy + uz * uz) == uy * uy * (1.0 - c) * (1.0 - c);
    assert uy * uy * (s * s + c * c) == uy * uy;
  }

  lemma RowsPoly12(ux: real, uy: real, uz: real, s: real, c: real)
    requires ux * ux + uy * uy + uz * uz == 1.0 && s * s + c * c == 1.0
    ensures (uy * ux * (1.0 - c) + uz * s) * (ux * uz * (1.0 - c) - uy * s)
      + (c + uy * uy * (1.0 - c)) * (uy * uz * (1.0 - c) + ux * s)
      + (uy * uz * (1.0 - c) - ux * s) * (c + uz * uz * (1.0 - c)) == 0.0
  {
    assert uy * uz * (1.0 - c) * (1.0 - c) * (ux * ux + uy * uy + uz * uz) == uy * uz * (1.0 - c) * (1.0 - c);
    assert uy * uz * (s * s + c * c) == uy * uz;
  }

  lemma RowsPoly22(ux: real, uy: real, uz: real, s: real, c: real)
    requires ux * ux + uy * uy + uz * uz == 1.0 && s * s + c * c == 1.0
    ensures (ux * uz * (1.0 - c) - uy * s) * (ux * uz * (1.0 - c) - uy * s)
      + (uy * uz * (1.0 - c) + ux * s) * (uy * uz * (1.0 - c) + ux * s)
      + (c + uz * uz * (1.0 - c)) * (c + uz * uz * (1.0 - c)) == 1.0
  {
    assert uz * uz * (1.0 - c) * (1.0 - c) * (ux * ux + uy * uy + uz * uz) == uz * uz * (1.0 - c) * (1.0 - c);
    assert uz * uz * (s * s + c * c) == uz * uz;
  }

  /** Row 0 of Transp(a) * a holds the dot products of column 0 of a with
      each column of a. */
  lemma GramRow0(a: Mat3)
    ensures Mult(Transp(a), a).Row(0) == Vec3(Dot(a.Col(0), a.Col(0)), Dot(a.Col(0), a.Col(1)), Dot(a.Col(0), a.Col(2)))
  {
    ProductRow0(Transp(a), a);
  }

  /** Row 1 of Transp(a) * a holds the dot products of column 1 of a with
      each column of a. */
  lemma GramRow1(a: Mat3)
    ensures Mult(Transp(a), a).Row(1) == Vec3(Dot(a.Col(1), a.Col(0)), Dot(a.Col(1), a.Col(1)), Dot(a.Col(1), a.Col(2)))
  {
    ProductRow1(Transp(a), a);
  }

  /** Row 2 of Transp(a) * a holds the dot products of column 2 of a with
      each column of a. */
  lemma GramRow2(a: Mat3)
    ensures Mult(Transp(a), a).Row(2) == Vec3(Dot(a.Col(2), a.Col(0)), Dot(a.Col(2), a.Col(1)), Dot(a.Col(2), a.Col(2)))
  {
    ProductRow2(Transp(a), a);
  }

  /** Row 0 of a * Transp(a) holds the dot products of row 0 of a with
      each row of a. */
  lemma CoGramRow0(a: Mat3)
    ensures Mult(a, Transp(a)).Row(0) == Vec3(Dot(a.Row(0), a.Row(0)), Dot(a.Row(0), a.Row(1)), Dot(a.Row(0), a.Row(2)))
  {
    ProductRow0(a, Transp(a));
  }

  /** Row 1 of a * Transp(a) holds the dot products of row 1 of a with
      each row of a. */
  lemma CoGramRow1(a: Mat3)
    ensures Mult(a, Transp(a)).Row(1) == Vec3(Dot(a.Row(1), a.Row(0)), Dot(a.Row(1), a.Row(1)), Dot(a.Row(1), a.Row(2)))
  {
    ProductRow1(a, Transp(a));
  }

  /** Row 2 of a * Transp(a) holds the dot products of row 2 of a with
      each row of a. */
  lemma CoGramRow2(a: Mat3)
    ensures Mult(a, Transp(a)).Row(2) == Vec3(Dot(a.Row(2), a.Row(0)), Dot(a.Row(2), a.Row(1)), Dot(a.Row(2), a.Row(2)))
  {
    ProductRow2(a, Transp(a));
  }

  /** Row 0 of the rotation matrix against the axis gives back component 0. */
  lemma AxisRow0(ux: real, uy: real, uz: real, s: real, c: real)
    requires ux * ux + uy * uy + uz * uz == 1.0
    ensures Dot(RotMat(ux, uy, uz, s, c).Row(0), Vec3(ux, uy, uz)) == ux
  {
    var r := RotMat(ux, uy, uz, s, c);
    RowsCols(r);
    DotIs(r.Row(0), Vec3(ux, uy, uz));
    AxisReal0(r.a0, r.a1, r.a2, ux, uy, uz, s, c);
  }

  lemma AxisReal0(a0: real, a1: real, a2: real, ux: real, uy: real, uz: real, s: real, c: real)
    requires ux * ux + uy * uy + uz * uz == 1.0
    requires a0 == c + ux * ux * (1.0 - c)
    requires a1 == ux * uy * (1.0 - c) - uz * s
    requires a2 == ux * uz * (1.0 - c) + uy * s
    ensures a0 * ux + a1 * uy + a2 * uz == ux
  {
    DiagTimesAtom(a0, ux, c, ux);
    MinusTimesAtom(a1, ux, uy, uz, s, c, uy);
    PlusTimesAtom(a2, ux, uz, uy, s, c, uz);
    assert ux * (1.0 - c) * (ux * ux + uy * uy + uz * uz) == ux * (1.0 - c);
  }

  /** Row 1 of the rotation matrix against the axis gives back component 1. */
  lemma AxisRow1(ux: real, uy: real, uz: real, s: real, c: real)
    requires ux * ux + uy * uy + uz * uz == 1.0
    ensures Dot(RotMat(ux, uy, uz, s, c).Row(1), Vec3(ux, uy, uz)) == uy
  {
    var r := RotMat(ux, uy, uz, s, c);
    RowsCols(r);
    DotIs(r.Row(1), Vec3(ux, uy, uz));
    AxisReal1(r.a3, r.a4, r.a5, ux, uy, uz, s, c);
  }

  lemma AxisReal1(a0: real, a1: real, a2: real, ux: real, uy: real, uz: real, s: real, c: real)
    requires ux * ux + uy * uy + uz * uz == 1.0
    requires a0 == uy * ux * (1.0 - c) + uz * s
    requires a1 == c + uy * uy * (1.0 - c)
    requires a2 == uy * uz * (1.0 - c) - ux * s
    ensures a0 * ux + a1 * uy + a2 * uz == uy
  {
    PlusTimesAtom(a0, uy, ux, uz, s, c, ux);
    DiagTimesAtom(a1, uy, c, uy);
    MinusTimesAtom(a2, uy, uz, ux, s, c, uz);
    assert uy * (1.0 - c) * (ux * ux + uy * uy + uz * uz) == uy * (1.0 - c);
  }

  /** Row 2 of the rotation matrix against the axis gives back component 2. */
  lemma AxisRow2(ux: real, uy: real, uz: real, s: real, c: real)
    requires ux * ux + uy * uy + uz * uz == 1.0
    ensures Dot(RotMat(ux, uy, uz, s, c).Row(2), Vec3(ux, uy, uz)) == uz
  {
    var r := RotMat(ux, uy, uz, s, c);
    RowsCols(r);
    DotIs(r.Row(2), Vec3(ux, uy, uz));
    AxisReal2(r.a6, r.a7, r.a8, ux, uy, uz, s, c);
  }

  lemma AxisReal2(a0: real, a1: real, a2: real, ux: real, uy: real, uz: real, s: real, c: real)
    requires ux * ux + uy * uy + uz * uz == 1.0
    requires a0 == ux * uz * (1.0 - c) - uy * s
    requires a1 == uy * uz * (1.0 - c) + ux * s
    requires a2 == c + uz * uz * (1.0 - c)
    ensures a0 * ux + a1 * uy + a2 * uz == uz
  {
    MinusTimesAtom(a0, ux, uz, uy, s, c, ux);
    PlusTimesAtom(a1, uy, uz, ux, s, c, uy);
    DiagTimesAtom(a2, uz, c, uz);
    assert uz * (1.0 - c) * (ux * ux + uy * uy + uz * uz) == uz * (1.0 - c);
  }

  lemma DiagTimesAtom(x: real, p: real, c: real, v: real)
    requires x == c + p * p * (1.0 - c)
    ensures x * v == (c + p * p * (1.0 - c)) * v
  {
  }

  lemma PlusTimesAtom(x: real, p: real, q: real, w: real, s: real, c: real, v: real)
    requires x == p * q * (1.0 - c) + w * s
    ensures x * v == (p * q * (1.0 - c) + w * s) * v
  {
  }

  lemma MinusTimesAtom(x: real, p: real, q: real, w: real, s: real, c: real, v: real)
    requires x == p * q * (1.0 - c) - w * s
    ensures x * v == (p * q * (1.0 - c) - w * s) * v
  {
  }

  lemma Product00(ux: real, uy: real, uz: real, s: real, c: real)
    ensures var r := RotMat(ux, uy, uz, s, c);
      r.a0 * r.a0 == (c + ux * ux * (1.0 - c)) * (c + ux * ux * (1.0 - c))
  {
    var r := RotMat(ux, uy, uz, s, c);
    DiagTimesDiag(r.a0, r.a0, ux, ux, c);
  }

  lemma Product01(ux: real, uy: real, uz: real, s: real, c: real)
    ensures var r := RotMat(ux, uy, uz, s, c);
      r.a0 * r.a1 == (c + ux * ux * (1.0 - c)) * (ux * uy * (1.0 - c) - uz * s)
  {
    var r := RotMat(ux, uy, uz, s, c);
    DiagTimesMinus(r.a0, r.a1, ux, ux, uy, uz, s, c);
  }

  lemma Product02(ux: real, uy: real, uz: real, s: real, c: real)
    ensures var r := RotMat(ux, uy, uz, s, c);
      r.a0 * r.a2 == (c + ux * ux * (1.0 - c)) * (ux * uz * (1.0 - c) + uy * s)
  {
    var r := RotMat(ux, uy, uz, s, c);
    DiagTimesPlus(r.a0, r.a2, ux, ux, uz, uy, s, c);
  }

  lemma Product03(ux: real, uy: real, uz: real, s: real, c: real)
    ensures var r := RotMat(ux, uy, uz, s, c);
      r.a0 * r.a3 == (c + ux * ux * (1.0 - c)) * (uy * ux * (1.0 - c) + uz * s)
  {
    var r := RotMat(ux, uy, uz, s, c);
    DiagTimesPlus(r.a0, r.a3, ux, uy, ux, uz, s, c);
  }

  lemma Product06(ux: real, uy: real, uz: real, s: real, c: real)
    ensures var r := RotMat(ux, uy, uz, s, c);
      r.a0 * r.a6 == (c + ux * ux * (1.0 - c)) * (ux * uz * (1.0 - c) - uy * s)
  {
    var r := RotMat(ux, uy, uz, s, c);
    DiagTimesMinus(r.a0, r.a6, ux, ux, uz, uy, s, c);
  }

  lemma Product11(ux: real, uy: real, uz: real, s: real, c: real)
    ensures var r := RotMat(ux, uy, uz, s, c);
      r.a1 * r.a1 == (ux * uy * (1.0 - c) - uz * s) * (ux * uy * (1.0 - c) - uz * s)
  {
    var r := RotMat(ux, uy, uz, s, c);
    MinusTimesMinus(r.a1, r.a1, ux, uy, uz, ux, uy, uz, s, c);
  }

  lemma Product12(ux: real, uy: real, uz: real, s: real, c: real)
    ensures var r := RotMat(ux, uy, uz, s, c);
      r.a1 * r.a2 == (ux * uy * (1.0 - c) - uz * s) * (ux * uz * (1.0 - c) + uy * s)
  {
    var r := RotMat(ux, uy, uz, s, c);
    MinusTimesPlus(r.a1, r.a2, ux, uy, uz, ux, uz, uy, s, c);
  }

  lemma Product14(ux: real, uy: real, uz: real, s: real, c: real)
    ensures var r := RotMat(ux, uy, uz, s, c);
      r.a1 * r.a4 == (ux * uy * (1.0 - c) - uz * s) * (c + uy * uy * (1.0 - c))
  {
    var r := RotMat(ux, uy, uz, s, c);
    MinusTimesDiag(r.a1, r.a4, ux, uy, uz, uy, s, c);
  }

  lemma Product17(ux: real, uy: real, uz: real, s: real, c: real)
    ensures var r := RotMat(ux, uy, uz, s, c);
      r.a1 * r.a7 == (ux * uy * (1.0 - c) - uz * s) * (uy * uz * (1.0 - c) + ux * s)
  {
    var r := RotMat(ux, uy, uz, s, c);
    MinusTimesPlus(r.a1, r.a7, ux, uy, uz, uy, uz, ux, s, c);
  }

  lemma Product22(ux: real, uy: real, uz: real, s: real, c: real)
    ensures var r := RotMat(ux, uy, uz, s, c);
      r.a2 * r.a2 == (ux * uz * (1.0 - c) + uy * s) * (ux * uz * (1.0 - c) + uy * s)
  {
    var r := RotMat(ux, uy, uz, s, c);
    PlusTimesPlus(r.a2, r.a2, ux, uz, uy, ux, uz, uy, s, c);
  }

  lemma Product25(ux: real, uy: real, uz: real, s: real, c: real)
    ensures var r := RotMat(ux, uy, uz, s, c);
      r.a2 * r.a5 == (ux * uz * (1.0 - c) + uy * s) * (uy * uz * (1.0 - c) - ux * s)
  {
    var r := RotMat(ux, uy, uz, s, c);
    PlusTimesMinus(r.a2, r.a5, ux, uz, uy, uy, uz, ux, s, c);
  }

  lemma Product28(ux: real, uy: real, uz: real, s: real, c: real)
    ensures var r := RotMat(ux, uy, uz, s, c);
      r.a2 * r.a8 == (ux * uz * (1.0 - c) + uy * s) * (c + uz * uz * (1.0 - c))
  {
    var r := RotMat(ux, uy, uz, s, c);
    PlusTimesDiag(r.a2, r.a8, ux, uz, uy, uz, s, c);
  }

  lemma Product33(ux: real, uy: real, uz: real, s: real, c: real)
    ensures var r := RotMat(ux, uy, uz, s, c);
      r.a3 * r.a3 == (uy * ux * (1.0 - c) + uz * s) * (uy * ux * (1.0 - c) + uz * s)
  {
    var r := RotMat(ux, uy, uz, s, c);
    PlusTimesPlus(r.a3, r.a3, uy, ux, uz, uy, ux, uz, s, c);
  }

  lemma Product34(ux: real, uy: real, uz: real, s: real, c: real)
    ensures var r := RotMat(ux, uy, uz, s, c);
      r.a3 * r.a4 == (uy * ux * (1.0 - c) + uz * s) * (c + uy * uy * (1.0 - c))
  {
    var r := RotMat(ux, uy, uz, s, c);
    PlusTimesDiag(r.a3, r.a4, uy, ux, uz, uy, s, c);
  }

  lemma Product35(ux: real, uy: real, uz: real, s: real, c: real)
    ensures var r := RotMat(ux, uy, uz, s, c);
      r.a3 * r.a5 == (uy * ux * (1.0 - c) + uz * s) * (uy * uz * (1.0 - c) - ux * s)
  {
    var r := RotMat(ux, uy, uz, s, c);
    PlusTimesMinus(r.a3, r.a5, uy, ux, uz, uy, uz, ux, s, c);
  }

  lemma Product36(ux: real, uy: real, uz: real, s: real, c: real)
    ensures var r := RotMat(ux, uy, uz, s, c);
      r.a3 * r.a6 == (uy * ux * (1.0 - c) + uz * s) * (ux * uz * (1.0 - c) - uy * s)
  {
    var r := RotMat(ux, uy, uz, s, c);
    PlusTimesMinus(r.a3, r.a6, uy, ux, uz, ux, uz, uy, s, c);
  }

  lemma Product44(ux: real, uy: real, uz: real, s: real, c: real)
    ensures var r := RotMat(ux, uy, uz, s, c);
      r.a4 * r.a4 == (c + uy * uy * (1.0 - c)) * (c + uy * uy * (1.0 - c))
  {
    var r := RotMat(ux, uy, uz, s, c);
    DiagTimesDiag(r.a4, r.a4, uy, uy, c);
  }

  lemma Product45(ux: real, uy: real, uz: real, s: real, c: real)
    ensures var r := RotMat(ux, uy, uz, s, c);
      r.a4 * r.a5 == (c + uy * uy * (1.0 - c)) * (uy * uz * (1.0 - c) - ux * s)
  {
    var r := RotMat(ux, uy, uz, s, c);
    DiagTimesMinus(r.a4, r.a5, uy, uy, uz, ux, s, c);
  }

  lemma Product47(ux: real, uy: real, uz: real, s: real, c: real)
    ensures var r := RotMat(ux, uy, uz, s, c);
      r.a4 * r.a7 == (c + uy * uy * (1.0 - c)) * (uy * uz * (1.0 - c) + ux * s)
  {
    var r := RotMat(ux, uy, uz, s, c);
    DiagTimesPlus(r.a4, r.a7, uy, uy, uz, ux, s, c);
  }

  lemma Product55(ux: real, uy: real, uz: real, s: real, c: real)
    ensures var r := RotMat(ux, uy, uz, s, c);
      r.a5 * r.a5 == (uy * uz * (1.0 - c) - ux * s) * (uy * uz * (1.0 - c) - ux * s)
  {
    var r := RotMat(ux, uy, uz, s, c);
    MinusTimesMinus(r.a5, r.a5, uy, uz, ux, uy, uz, ux, s, c);
  }

  lemma Product58(ux: real, uy: real, uz: real, s: real, c: real)
    ensures var r := RotMat(ux, uy, uz, s, c);
      r.a5 * r.a8 == (uy * uz * (1.0 - c) - ux * s) * (c + uz * uz * (1.0 - c))
  {
    var r := RotMat(ux, uy, uz, s, c);
    MinusTimesDiag(r.a5, r.a8, uy, uz, ux, uz, s, c);
  }

  lemma Product66(ux: real, uy: real, uz: real, s: real, c: real)
    ensures var r := RotMat(ux, uy, uz, s, c);
      r.a6 * r.a6 == (ux * uz * (1.0 - c) - uy * s) * (ux * uz * (1.0 - c) - uy * s)
  {
    var r := RotMat(ux, uy, uz, s, c);
    MinusTimesMinus(r.a6, r.a6, ux, uz, uy, ux, uz, uy, s, c);
  }

  lemma Product67(ux: real, uy: real, uz: real, s: real, c: real)
    ensures var r := RotMat(ux, uy, uz, s, c);
      r.a6 * r.a7 == (ux * uz * (1.0 - c) - uy * s) * (uy * uz * (1.0 - c) + ux * s)
  {
    var r := RotMat(ux, uy, uz, s, c);
    MinusTimesPlus(r.a6, r.a7, ux, uz, uy, uy, uz, ux, s, c);
  }

  lemma Product68(ux: real, uy: real, uz: real, s: real, c: real)
    ensures var r := RotMat(ux, uy, uz, s, c);
      r.a6 * r.a8 == (ux * uz * (1.0 - c) - uy * s) * (c + uz * uz * (1.0 - c))
  {
    var r := RotMat(ux, uy, uz, s, c);
    MinusTimesDiag(r.a6, r.a8, ux, uz, uy, uz, s, c);
  }

  lemma Product77(ux: real, uy: real, uz: real, s: real, c: real)
    ensures var r := RotMat(ux, uy, uz, s, c);
      r.a7 * r.a7 == (uy * uz * (1.0 - c) + ux * s) * (uy * uz * (1.0 - c) + ux * s)
  {
    var r := RotMat(ux, uy, uz, s, c);
    PlusTimesPlus(r.a7, r.a7, uy, uz, ux, uy, uz, ux, s, c);
  }

  lemma Product78(ux: real, uy: real, uz: real, s: real, c: real)
    ensures var r := RotMat(ux, uy, uz, s, c);
      r.a7 * r.a8 == (uy * uz * (1.0 - c) + ux * s) * (c + uz * uz * (1.0 - c))
  {
    var r := RotMat(ux, uy, uz, s, c);
    PlusTimesDiag(r.a7, r.a8, uy, uz, ux, uz, s, c);
  }

  lemma Product88(ux: real, uy: real, uz: real, s: real, c: real)
    ensures var r := RotMat(ux, uy, uz, s, c);
      r.a8 * r.a8 == (c + uz * uz * (1.0 - c)) * (c + uz * uz * (1.0 - c))
  {
    var r := RotMat(ux, uy, uz, s, c);
    DiagTimesDiag(r.a8, r.a8, uz, uz, c);
  }

  lemma DiagTimesDiag(x: real, y: real, p: real, p': real, c: real)
    requires x == c + p * p * (1.0 - c) && y == c + p' * p' * (1.0 - c)
    ensures x * y == (c + p * p * (1.0 - c)) * (c + p' * p' * (1.0 - c))
  {
  }

  lemma DiagTimesMinus(x: real, y: real, p: real, p': real, q': real, w': real, s: real, c: real)
    requires x == c + p * p * (1.0 - c) && y == p' * q' * (1.0 - c) - w' * s
    ensures x * y == (c + p * p * (1.0 - c)) * (p' * q' * (1.0 - c) - w' * s)
  {
  }

  lemma DiagTimesPlus(x: real, y: real, p: real, p': real, q': real, w': real, s: real, c: real)
    requires x == c + p * p * (1.0 - c) && y == p' * q' * (1.0 - c) + w' * s
    ensures x * y == (c + p * p * (1.0 - c)) * (p' * q' * (1.0 - c) + w' * s)
  {
  }

  lemma MinusTimesDiag(x: real, y: real, p: real, q: real, w: real, p': real, s: real, c: real)
    requires x == p * q * (1.0 - c) - w * s && y == c + p' * p' * (1.0 - c)
    ensures x * y == (p * q * (1.0 - c) - w * s) * (c + p' * p' * (1.0 - c))
  {
  }

  lemma MinusTimesMinus(x: real, y: real, p: real, q: real, w: real, p': real, q': real, w': real, s: real, c: real)
    requires x == p * q * (1.0 - c) - w * s && y == p' * q' * (1.0 - c) - w' * s
    ensures x * y == (p * q * (1.0 - c) - w * s) * (p' * q' * (1.0 - c) - w' * s)
  {
  }

  lemma MinusTimesPlus(x: real, y: real, p: real, q: real, w: real, p': real, q': real, w': real, s: real, c: real)
    requires x == p * q * (1.0 - c) - w * s && y == p' * q' * (1.0 - c) + w' * s
    ensures x * y == (p * q * (1.0 - c) - w * s) * (p' * q' * (1.0 - c) + w' * s)
  {
  }

  lemma PlusTimesDiag(x: real, y: real, p: real, q: real, w: real, p': real, s: real, c: real)
    requires x == p * q * (1.0 - c) + w * s && y == c + p' * p' * (1.0 - c)
    ensures x * y == (p * q * (1.0 - c) + w * s) * (c + p' * p' * (1.0 - c))
  {
  }

  lemma PlusTimesMinus(x: real, y: real, p: real, q: real, w: real, p': real, q': real, w': real, s: real, c: real)
    requires x == p * q * (1.0 - c) + w * s && y == p' * q' * (1.0 - c) - w' * s
    ensures x * y == (p * q * (1.0 - c) + w * s) * (p' * q' * (1.0 - c) - w' * s)
  {
  }

  lemma PlusTimesPlus(x: real, y: real, p: real, q: real, w: real, p': real, q': real, w': real, s: real, c: real)
    requires x == p * q * (1.0 - c) + w * s && y == p' * q' * (1.0 - c) + w' * s
    ensures x * y == (p * q * (1.0 - c) + w * s) * (p' * q' * (1.0 - c) + w' * s)
  {
  }

  lemma TripleDiagDiagDiag(x: real, y: real, z: real, p: real, p': real, p'': real, c: real, k: real)
    requires k == 1.0 - c && x == c + p * p * (1.0 - c) && y == c + p' * p' * (1.0 - c) && z == c + p'' * p'' * (1.0 - c)
    ensures x * y * z == (c + p * p * k) * (c + p' * p' * k) * (c + p'' * p'' * k)
  {
  }

  lemma TripleDiagMinusPlus(x: real, y: real, z: real, p: real, p': real, q': real, w': real, p'': real, q'': real, w'': real, s: real, c: real, k: real)
    requires k == 1.0 - c && x == c + p * p * (1.0 - c) && y == p' * q' * (1.0 - c) - w' * s && z == p'' * q'' * (1.0 - c) + w'' * s
    ensures x * y * z == (c + p * p * k) * (p' * q' * k - w' * s) * (p'' * q'' * k + w'' * s)
  {
  }

  lemma TripleMinusMinusMinus(x: real, y: real, z: real, p: real, q: real, w: real, p': real, q': real, w': real, p'': real, q'': real, w'': real, s: real, c: real, k: real)
    requires k == 1.0 - c && x == p * q * (1.0 - c) - w * s && y == p' * q' * (1.0 - c) - w' * s && z == p'' * q'' * (1.0 - c) - w'' * s
    ensures x * y * z == (p * q * k - w * s) * (p' * q' * k - w' * s) * (p'' * q'' * k - w'' * s)
  {
  }

  lemma TripleMinusPlusDiag(x: real, y: real, z: real, p: real, q: real, w: real, p': real, q': real, w': real, p'': real, s: real, c: real, k: real)
    requires k == 1.0 - c && x == p * q * (1.0 - c) - w * s && y == p' * q' * (1.0 - c) + w' * s && z == c + p'' * p'' * (1.0 - c)
    ensures x * y * z == (p * q * k - w * s) * (p' * q' * k + w' * s) * (c + p'' * p'' * k)
  {
  }

  lemma TriplePlusDiagMinus(x: real, y: real, z: real, p: real, q: real, w: real, p': real, p'': real, q'': real, w'': real, s: real, c: real, k: real)
    requires k == 1.0 - c && x == p * q * (1.0 - c) + w * s && y == c + p' * p' * (1.0 - c) && z == p'' * q'' * (1.0 - c) - w'' * s
    ensures x * y * z == (p * q * k + w * s) * (c + p' * p' * k) * (p'' * q'' * k - w'' * s)
  {
  }

  lemma TriplePlusPlusPlus(x: real, y: real, z: real, p: real, q: real, w: real, p': real, q': real, w': real, p'': real, q'': real, w'': real, s: real, c: real, k: real)
    requires k == 1.0 - c && x == p * q * (1.0 - c) + w * s && y == p' * q' * (1.0 - c) + w' * s && z == p'' * q'' * (1.0 - c) + w'' * s
    ensures x * y * z == (p * q * k + w * s) * (p' * q' * k + w' * s) * (p'' * q'' * k + w'' * s)
  {
  }

  /** Component x of Rodrigues' formula. */
  lemma RodriguesRow0(ux: real, uy: real, uz: real, s: real, c: real, v: Vec3)
    ensures MultVec(RotMat(ux, uy, uz, s, c), v).x == (Add(Add(Vector3.Scale(v, c), Vector3.Scale(Cross(Vec3(ux, uy, uz), v), s)), Vector3.Scale(Vec3(ux, uy, uz), (1.0 - c) * Dot(Vec3(ux, uy, uz), v)))).x
  {
    var r := RotMat(ux, uy, uz, s, c);
    MultVecIs(r, v);
    DotIs(Vec3(ux, uy, uz), v);
    RodriguesReal0(r.a0, r.a1, r.a2, ux, uy, uz, s, c, v.x, v.y, v.z, Cross(Vec3(ux, uy, uz), v).x, Dot(Vec3(ux, uy, uz), v));
  }

  lemma RodriguesReal0(a0: real, a1: real, a2: real, ux: real, uy: real, uz: real, s: real, c: real, x: real, y: real, z: real, cr: real, d: real)
    requires a0 == c + ux * ux * (1.0 - c)
    requires a1 == ux * uy * (1.0 - c) - uz * s
    requires a2 == ux * uz * (1.0 - c) + uy * s
    requires cr == uy * z - uz * y
    requires d == ux * x + uy * y + uz * z
    ensures a0 * x + a1 * y + a2 * z == x * c + cr * s + ux * ((1.0 - c) * d)
  {
    DiagTimesAtom(a0, ux, c, x);
    MinusTimesAtom(a1, ux, uy, uz, s, c, y);
    PlusTimesAtom(a2, ux, uz, uy, s, c, z);
  }

  /** Component y of Rodrigues' formula. */
  lemma RodriguesRow1(ux: real, uy: real, uz: real, s: real, c: real, v: Vec3)
    ensures MultVec(RotMat(ux, uy, uz, s, c), v).y == (Add(Add(Vector3.Scale(v, c), Vector3.Scale(Cross(Vec3(ux, uy, uz), v), s)), Vector3.Scale(Vec3(ux, uy, uz), (1.0 - c) * Dot(Vec3(ux, uy, uz), v)))).y
  {
    var r := RotMat(ux, uy, uz, s, c);
    MultVecIs(r, v);
    DotIs(Vec3(ux, uy, uz), v);
    RodriguesReal1(r.a3, r.a4, r.a5, ux, uy, uz, s, c, v.x, v.y, v.z, Cross(Vec3(ux, uy, uz), v).y, Dot(Vec3(ux, uy, uz), v));
  }

  lemma RodriguesReal1(a0: real, a1: real, a2: real, ux: real, uy: real, uz: real, s: real, c: real, x: real, y: real, z: real, cr: real, d: real)
    requires a0 == uy * ux * (1.0 - c) + uz * s
    requires a1 == c + uy * uy * (1.0 - c)
    requires a2 == uy * uz * (1.0 - c) - ux * s
    requires cr == uz * x - ux * z
    requires d == ux * x + uy * y + uz * z
    ensures a0 * x + a1 * y + a2 * z == y * c + cr * s + uy * ((1.0 - c) * d)
  {
    PlusTimesAtom(a0, uy, ux, uz, s, c, x);
    DiagTimesAtom(a1, uy, c, y);
    MinusTimesAtom(a2, uy, uz, ux, s, c, z);
  }

  /** Component z of Rodrigues' formula. */
  lemma RodriguesRow2(ux: real, uy: real, uz: real, s: real, c: real, v: Vec3)
    ensures MultVec(RotMat(ux, uy, uz, s, c), v).z == (Add(Add(Vector3.Scale(v, c), Vector3.Scale(Cross(Vec3(ux, uy, uz), v), s)), Vector3.Scale(Vec3(ux, uy, uz), (1.0 - c) * Dot(Vec3(ux, uy, uz), v)))).z
  {
    var r := RotMat(ux, uy, uz, s, c);
    MultVecIs(r, v);
    DotIs(Vec3(ux, uy, uz), v);
    RodriguesReal2(r.a6, r.a7, r.a8, ux, uy, uz, s, c, v.x, v.y, v.z, Cross(Vec3(ux, uy, uz), v).z, Dot(Vec3(ux, uy, uz), v));
  }

  lemma RodriguesReal2(a0: real, a1: real, a2: real, ux: real, uy: real, uz: real, s: real, c: real, x: real, y: real, z: real, cr: real, d: real)
    requires a0 == ux * uz * (1.0 - c) - uy * s
    requires a1 == uy * uz * (1.0 - c) + ux * s
    requires a2 == c + uz * uz * (1.0 - c)
    requires cr == ux * y - uy * x
    requires d == ux * x + uy * y + uz * z
    ensures a0 * x + a1 * y + a2 * z == z * c + cr * s + uz * ((1.0 - c) * d)
  {
    MinusTimesAtom(a0, ux, uz, uy, s, c, x);
    PlusTimesAtom(a1, uy, uz, ux, s, c, y);
    DiagTimesAtom(a2, uz, c, z);
  }

}
