/** Row-major 3x3 matrices: products, rotations, scaling, transposition, and
    the 16-float buffer that pairs a 3x3 block with a translation. */
module Matrix3 {
  import opened Vector3

  /** A mat3: the nine floats `A[0..8]`, row-major, so that row i is
      `A[3i]`, `A[3i + 1]`, `A[3i + 2]`. */
  datatype Mat3 = Mat3(a0: real, a1: real, a2: real,
                       a3: real, a4: real, a5: real,
                       a6: real, a7: real, a8: real)
  {
    /** The entry in row i, column j, which is `A[3i + j]`. */
    function Entry(i: nat, j: nat): real
      requires i < 3 && j < 3
    {
      if i == 0 then (if j == 0 then a0 else if j == 1 then a1 else a2)
      else if i == 1 then (if j == 0 then a3 else if j == 1 then a4 else a5)
      else (if j == 0 then a6 else if j == 1 then a7 else a8)
    }

    /** Row i, as a vector. */
    function Row(i: nat): Vec3
      requires i < 3
    {
      Vec3(Entry(i, 0), Entry(i, 1), Entry(i, 2))
    }

    /** Column j, as a vector. */
    function Col(j: nat): Vec3
      requires j < 3
    {
      Vec3(Entry(0, j), Entry(1, j), Entry(2, j))
    }
  }

  /** MAT3_IDENT. */
  const Ident := Mat3(1.0, 0.0, 0.0, 0.0, 1.0, 0.0, 0.0, 0.0, 1.0)

  /** The matrix product a * b; MultEntries states its entries. */
  function Mult(a: Mat3, b: Mat3): Mat3
  {
    Mat3(
      a.a0 * b.a0 + a.a1 * b.a3 + a.a2 * b.a6,
      a.a0 * b.a1 + a.a1 * b.a4 + a.a2 * b.a7,
      a.a0 * b.a2 + a.a1 * b.a5 + a.a2 * b.a8,
      a.a3 * b.a0 + a.a4 * b.a3 + a.a5 * b.a6,
      a.a3 * b.a1 + a.a4 * b.a4 + a.a5 * b.a7,
      a.a3 * b.a2 + a.a4 * b.a5 + a.a5 * b.a8,
      a.a6 * b.a0 + a.a7 * b.a3 + a.a8 * b.a6,
      a.a6 * b.a1 + a.a7 * b.a4 + a.a8 * b.a7,
      a.a6 * b.a2 + a.a7 * b.a5 + a.a8 * b.a8)
  }

  /** The determinant, expanded along the first row. */
  function Determinant(a: Mat3): real
  {
    Det(a.Row(0), a.Row(1), a.Row(2))
  }

  /** a times the column vector b; MultVecEntries states its components. */
  function MultVec(a: Mat3, b: Vec3): Vec3
  {
    Vec3(
      a.a0 * b.x + a.a1 * b.y + a.a2 * b.z,
      a.a3 * b.x + a.a4 * b.y + a.a5 * b.z,
      a.a6 * b.x + a.a7 * b.y + a.a8 * b.z)
  }

  /** a post-multiplied by the rotation about u: applied to a vector, the
      rotation acts first and a second. */
  function Rot(a: Mat3, ux: real, uy: real, uz: real, s: real, c: real): (r: Mat3)
    ensures forall v :: MultVec(r, v) == MultVec(a, MultVec(RotMat(ux, uy, uz, s, c), v))
  {
    MultVecOfMult(a, RotMat(ux, uy, uz, s, c));
    Mult(a, RotMat(ux, uy, uz, s, c))
  }

  /** Rodrigues' rotation matrix about the axis u = (ux, uy, uz), given s and c,
      the sine and cosine of the angle; u should be a unit vector. */
  function RotMat(ux: real, uy: real, uz: real, s: real, c: real): Mat3
  {
    var c1 := 1.0 - c;
    Mat3(
      c + ux * ux * c1, ux * uy * c1 - uz * s, ux * uz * c1 + uy * s,
      uy * ux * c1 + uz * s, c + uy * uy * c1, uy * uz * c1 - ux * s,
      ux * uz * c1 - uy * s, uy * uz * c1 + ux * s, c + uz * uz * c1)
  }

  /** The rotation about the x axis: the general rotation about (1, 0, 0). */
  function RotMatX(s: real, c: real): (r: Mat3)
    ensures r == RotMat(1.0, 0.0, 0.0, s, c)
  {
    Mat3(1.0, 0.0, 0.0,
         0.0, c, -s,
         0.0, s, c)
  }

  /** The rotation about the y axis: the general rotation about (0, 1, 0). */
  function RotMatY(s: real, c: real): (r: Mat3)
    ensures r == RotMat(0.0, 1.0, 0.0, s, c)
  {
    Mat3(c, 0.0, s,
         0.0, 1.0, 0.0,
         -s, 0.0, c)
  }

  /** The rotation about the z axis: the general rotation about (0, 0, 1). */
  function RotMatZ(s: real, c: real): (r: Mat3)
    ensures r == RotMat(0.0, 0.0, 1.0, s, c)
  {
    Mat3(c, -s, 0.0,
         s, c, 0.0,
         0.0, 0.0, 1.0)
  }

  /** Row 0 of a scaled by x, row 1 by y and row 2 by z: the product
      diag(x, y, z) * a, a left multiplication by the diagonal matrix. */
  function Scale(a: Mat3, x: real, y: real, z: real): (r: Mat3)
    ensures r == Mult(ScaleMat(x, y, z), a)
  {
    Mat3(x * a.a0, x * a.a1, x * a.a2,
         y * a.a3, y * a.a4, y * a.a5,
         z * a.a6, z * a.a7, z * a.a8)
  }

  /** The diagonal matrix diag(x, y, z). */
  function ScaleMat(x: real, y: real, z: real): (r: Mat3)
    ensures forall i, j | 0 <= i < 3 && 0 <= j < 3 ::
      r.Entry(i, j) == if i == j then Vec3(x, y, z).At(i) else 0.0
  {
    Mat3(x, 0.0, 0.0,
         0.0, y, 0.0,
         0.0, 0.0, z)
  }

  /** The transpose: its rows are the columns of a and its columns the rows. */
  function Transp(a: Mat3): (r: Mat3)
    ensures forall i | 0 <= i < 3 :: r.Row(i) == a.Col(i) && r.Col(i) == a.Row(i)
  {
    Mat3(a.a0, a.a3, a.a6,
         a.a1, a.a4, a.a7,
         a.a2, a.a5, a.a8)
  }

  /** The element in row i, column j of a row-major 4x4 matrix held in 16 floats. */
  function Entry4(m: seq<real>, i: nat, j: nat): real
    requires |m| == 16 && i < 4 && j < 4
  {
    m[4 * i + j]
  }

  /** The 16-float row-major 4x4 matrix with a as its top-left block, b as the
      first three entries of column 3, and <0, 0, 0, 1> as its last row. */
  function Layout(a: Mat3, b: Vec3): (r: seq<real>)
    ensures |r| == 16
    ensures forall i, j | 0 <= i < 3 && 0 <= j < 3 :: Entry4(r, i, j) == a.Entry(i, j)
    ensures forall i | 0 <= i < 3 :: Entry4(r, i, 3) == b.At(i)
    ensures r[12..] == [0.0, 0.0, 0.0, 1.0]
  {
    [a.a0, a.a1, a.a2, b.x,
     a.a3, a.a4, a.a5, b.y,
     a.a6, a.a7, a.a8, b.z,
     0.0, 0.0, 0.0, 1.0]
  }

  /** Copies the 4x4 matrix made of a and b into the first 16 floats of buf. */
  method Mat3Vec3ToArray(a: Mat3, b: Vec3, buf: array<real>)
    requires buf.Length >= 16
    modifies buf
    ensures buf[..16] == Layout(a, b)
    ensures buf[16..] == old(buf[16..])
  {
    var tmp := Layout(a, b);
    forall k | 0 <= k < 16 {
      buf[k] := tmp[k];
    }
  }

  /** MAT3_IDENT is the identity: multiplying by it on either side, or applying
      it to a vector, changes nothing. */
  lemma IdentNeutral(a: Mat3, v: Vec3)
    ensures Mult(Ident, a) == a && Mult(a, Ident) == a
    ensures MultVec(Ident, v) == v
  {
  }

  /** Entry (i, j) of a * b is the sum over k of a[i][k] * b[k][j]: the dot
      product of row i of a with column j of b. */
  lemma MultEntries(a: Mat3, b: Mat3)
    ensures Mult(a, b).Row(0) == Vec3(Dot(a.Row(0), b.Col(0)), Dot(a.Row(0), b.Col(1)), Dot(a.Row(0), b.Col(2)))
    ensures Mult(a, b).Row(1) == Vec3(Dot(a.Row(1), b.Col(0)), Dot(a.Row(1), b.Col(1)), Dot(a.Row(1), b.Col(2)))
    ensures Mult(a, b).Row(2) == Vec3(Dot(a.Row(2), b.Col(0)), Dot(a.Row(2), b.Col(1)), Dot(a.Row(2), b.Col(2)))
  {
    ProductRow0(a, b);
    ProductRow1(a, b);
    ProductRow2(a, b);
  }

  /** Component i of a * v is the dot product of row i of a with v. */
  lemma MultVecEntries(a: Mat3, v: Vec3)
    ensures MultVec(a, v) == Vec3(Dot(a.Row(0), v), Dot(a.Row(1), v), Dot(a.Row(2), v))
  {
    MultVecIs(a, v);
    RowsCols(a);
    DotIs(a.Row(0), v);
    DotIs(a.Row(1), v);
    DotIs(a.Row(2), v);
  }

  /** Applying a product applies its right factor first, then its left one. */
  lemma MultVecOfMult(a: Mat3, b: Mat3)
    ensures forall v :: MultVec(Mult(a, b), v) == MultVec(a, MultVec(b, v))
  {
    forall v ensures MultVec(Mult(a, b), v) == MultVec(a, MultVec(b, v)) {
      MultVecOfMultX(a, b, v);
      MultVecOfMultY(a, b, v);
      MultVecOfMultZ(a, b, v);
    }
  }

  /** Applying a matrix distributes over the sum of vectors. */
  lemma MultVecLinear(a: Mat3, u: Vec3, v: Vec3)
    ensures MultVec(a, Add(u, v)) == Add(MultVec(a, u), MultVec(a, v))
  {
    MultVecLinearX(a, u, v);
    MultVecLinearY(a, u, v);
    MultVecLinearZ(a, u, v);
  }

  /** Applying a matrix to the zero vector gives the zero vector. */
  lemma MultVecZero(a: Mat3)
    ensures MultVec(a, Vec3(0.0, 0.0, 0.0)) == Vec3(0.0, 0.0, 0.0)
  {
    MultVecIs(a, Vec3(0.0, 0.0, 0.0));
  }

  /** Applying a matrix commutes with negation. */
  lemma MultVecNeg(a: Mat3, u: Vec3)
    ensures MultVec(a, Neg(u)) == Neg(MultVec(a, u))
  {
    var w, p := Neg(u), MultVec(a, u);
    NegIs(u);
    NegIs(p);
    MultVecIs(a, w);
    MultVecIs(a, u);
    RowNegReal(a.a0, a.a1, a.a2, u.x, u.y, u.z, w.x, w.y, w.z);
    RowNegReal(a.a3, a.a4, a.a5, u.x, u.y, u.z, w.x, w.y, w.z);
    RowNegReal(a.a6, a.a7, a.a8, u.x, u.y, u.z, w.x, w.y, w.z);
  }

  /** diag(x, y, z) scales the components of a vector by x, y and z. */
  lemma ScaleMatScales(x: real, y: real, z: real, v: Vec3)
    ensures MultVec(ScaleMat(x, y, z), v) == Vec3(x * v.x, y * v.y, z * v.z)
  {
    MultVecIs(ScaleMat(x, y, z), v);
  }

  /** The transpose is an involution, reverses products, and moves a matrix to
      the other side of a dot product. */
  lemma TranspProperties(a: Mat3, b: Mat3, u: Vec3, v: Vec3)
    ensures Transp(Transp(a)) == a
    ensures Transp(Mult(a, b)) == Mult(Transp(b), Transp(a))
    ensures Dot(MultVec(Transp(a), u), v) == Dot(u, MultVec(a, v))
  {
    TranspIs(a);
    TranspIs(Transp(a));
    TranspOfProductRow0(a, b);
    TranspOfProductRow1(a, b);
    TranspOfProductRow2(a, b);
    TranspAdjoint(a, u, v);
  }

  /** A rotation by the zero angle (sine 0, cosine 1) is the identity. */
  lemma RotMatZeroAngle(ux: real, uy: real, uz: real)
    ensures RotMat(ux, uy, uz, 0.0, 1.0) == Ident
  {
  }

  // The identities above are proved in small steps: each helper below
  // unfolds one function, or one row or component of a result, or states one
  // polynomial identity over plain reals, so that no single proof has to
  // unfold nested calls or hold many products at once.

  lemma DeterminantIs(a: Mat3)
    ensures Determinant(a) == a.a0 * a.a4 * a.a8 - a.a0 * a.a5 * a.a7 - a.a1 * a.a3 * a.a8
      + a.a1 * a.a5 * a.a6 + a.a2 * a.a3 * a.a7 - a.a2 * a.a4 * a.a6
  {
  }

  lemma MultVecIs(a: Mat3, v: Vec3)
    ensures MultVec(a, v) == Vec3(
      a.a0 * v.x + a.a1 * v.y + a.a2 * v.z,
      a.a3 * v.x + a.a4 * v.y + a.a5 * v.z,
      a.a6 * v.x + a.a7 * v.y + a.a8 * v.z)
  {
  }

  lemma MultRow0(a: Mat3, b: Mat3)
    ensures var m := Mult(a, b);
      m.a0 == a.a0 * b.a0 + a.a1 * b.a3 + a.a2 * b.a6 &&
      m.a1 == a.a0 * b.a1 + a.a1 * b.a4 + a.a2 * b.a7 &&
      m.a2 == a.a0 * b.a2 + a.a1 * b.a5 + a.a2 * b.a8
  {
  }

  lemma MultRow1(a: Mat3, b: Mat3)
    ensures var m := Mult(a, b);
      m.a3 == a.a3 * b.a0 + a.a4 * b.a3 + a.a5 * b.a6 &&
      m.a4 == a.a3 * b.a1 + a.a4 * b.a4 + a.a5 * b.a7 &&
      m.a5 == a.a3 * b.a2 + a.a4 * b.a5 + a.a5 * b.a8
  {
  }

  lemma MultRow2(a: Mat3, b: Mat3)
    ensures var m := Mult(a, b);
      m.a6 == a.a6 * b.a0 + a.a7 * b.a3 + a.a8 * b.a6 &&
      m.a7 == a.a6 * b.a1 + a.a7 * b.a4 + a.a8 * b.a7 &&
      m.a8 == a.a6 * b.a2 + a.a7 * b.a5 + a.a8 * b.a8
  {
  }

  lemma TranspIs(a: Mat3)
    ensures Transp(a) == Mat3(a.a0, a.a3, a.a6, a.a1, a.a4, a.a7, a.a2, a.a5, a.a8)
  {
  }

  /** The rows and columns of a, spelled out field by field. */
  lemma RowsCols(a: Mat3)
    ensures a.Row(0) == Vec3(a.a0, a.a1, a.a2) && a.Col(0) == Vec3(a.a0, a.a3, a.a6)
    ensures a.Row(1) == Vec3(a.a3, a.a4, a.a5) && a.Col(1) == Vec3(a.a1, a.a4, a.a7)
    ensures a.Row(2) == Vec3(a.a6, a.a7, a.a8) && a.Col(2) == Vec3(a.a2, a.a5, a.a8)
  {
  }

  lemma ProductRow0(a: Mat3, b: Mat3)
    ensures Mult(a, b).Row(0) == Vec3(Dot(a.Row(0), b.Col(0)), Dot(a.Row(0), b.Col(1)), Dot(a.Row(0), b.Col(2)))
  {
    RowsCols(a);
    RowsCols(b);
  }

  lemma ProductRow1(a: Mat3, b: Mat3)
    ensures Mult(a, b).Row(1) == Vec3(Dot(a.Row(1), b.Col(0)), Dot(a.Row(1), b.Col(1)), Dot(a.Row(1), b.Col(2)))
  {
    RowsCols(a);
    RowsCols(b);
  }

  lemma ProductRow2(a: Mat3, b: Mat3)
    ensures Mult(a, b).Row(2) == Vec3(Dot(a.Row(2), b.Col(0)), Dot(a.Row(2), b.Col(1)), Dot(a.Row(2), b.Col(2)))
  {
    RowsCols(a);
    RowsCols(b);
  }

  lemma MultVecOfMultX(a: Mat3, b: Mat3, v: Vec3)
    ensures MultVec(Mult(a, b), v).x == MultVec(a, MultVec(b, v)).x
  {
    var m, w := Mult(a, b), MultVec(b, v);
    MultRow0(a, b);
    MultVecIs(m, v);
    MultVecIs(b, v);
    MultVecIs(a, w);
    RowOfProductReal(a.a0, a.a1, a.a2, b, v.x, v.y, v.z, m.a0, m.a1, m.a2, w);
  }

  lemma MultVecOfMultY(a: Mat3, b: Mat3, v: Vec3)
    ensures MultVec(Mult(a, b), v).y == MultVec(a, MultVec(b, v)).y
  {
    var m, w := Mult(a, b), MultVec(b, v);
    MultRow1(a, b);
    MultVecIs(m, v);
    MultVecIs(b, v);
    MultVecIs(a, w);
    RowOfProductReal(a.a3, a.a4, a.a5, b, v.x, v.y, v.z, m.a3, m.a4, m.a5, w);
  }

  lemma MultVecOfMultZ(a: Mat3, b: Mat3, v: Vec3)
    ensures MultVec(Mult(a, b), v).z == MultVec(a, MultVec(b, v)).z
  {
    var m, w := Mult(a, b), MultVec(b, v);
    MultRow2(a, b);
    MultVecIs(m, v);
    MultVecIs(b, v);
    MultVecIs(a, w);
    RowOfProductReal(a.a6, a.a7, a.a8, b, v.x, v.y, v.z, m.a6, m.a7, m.a8, w);
  }

  lemma RowOfProductReal(a0: real, a1: real, a2: real, b: Mat3, x: real, y: real, z: real,
                         m0: real, m1: real, m2: real, w: Vec3)
    requires m0 == a0 * b.a0 + a1 * b.a3 + a2 * b.a6
    requires m1 == a0 * b.a1 + a1 * b.a4 + a2 * b.a7
    requires m2 == a0 * b.a2 + a1 * b.a5 + a2 * b.a8
    requires w.x == b.a0 * x + b.a1 * y + b.a2 * z
    requires w.y == b.a3 * x + b.a4 * y + b.a5 * z
    requires w.z == b.a6 * x + b.a7 * y + b.a8 * z
    ensures m0 * x + m1 * y + m2 * z == a0 * w.x + a1 * w.y + a2 * w.z
  {
  }

  lemma MultVecLinearX(a: Mat3, u: Vec3, v: Vec3)
    ensures MultVec(a, Add(u, v)).x == Add(MultVec(a, u), MultVec(a, v)).x
  {
    var w := Add(u, v);
    AddIs(u, v);
    MultVecIs(a, w);
    MultVecIs(a, u);
    MultVecIs(a, v);
    AddIs(MultVec(a, u), MultVec(a, v));
    RowLinearReal(a.a0, a.a1, a.a2, u, v, w);
  }

  lemma MultVecLinearY(a: Mat3, u: Vec3, v: Vec3)
    ensures MultVec(a, Add(u, v)).y == Add(MultVec(a, u), MultVec(a, v)).y
  {
    var w := Add(u, v);
    AddIs(u, v);
    MultVecIs(a, w);
    MultVecIs(a, u);
    MultVecIs(a, v);
    AddIs(MultVec(a, u), MultVec(a, v));
    RowLinearReal(a.a3, a.a4, a.a5, u, v, w);
  }

  lemma MultVecLinearZ(a: Mat3, u: Vec3, v: Vec3)
    ensures MultVec(a, Add(u, v)).z == Add(MultVec(a, u), MultVec(a, v)).z
  {
    var w := Add(u, v);
    AddIs(u, v);
    MultVecIs(a, w);
    MultVecIs(a, u);
    MultVecIs(a, v);
    AddIs(MultVec(a, u), MultVec(a, v));
    RowLinearReal(a.a6, a.a7, a.a8, u, v, w);
  }

  lemma RowLinearReal(a0: real, a1: real, a2: real, u: Vec3, v: Vec3, w: Vec3)
    requires w.x == u.x + v.x && w.y == u.y + v.y && w.z == u.z + v.z
    ensures a0 * w.x + a1 * w.y + a2 * w.z
      == (a0 * u.x + a1 * u.y + a2 * u.z) + (a0 * v.x + a1 * v.y + a2 * v.z)
  {
  }

  lemma RowNegReal(a0: real, a1: real, a2: real, x: real, y: real, z: real,
                   nx: real, ny: real, nz: real)
    requires nx == -x && ny == -y && nz == -z
    ensures a0 * nx + a1 * ny + a2 * nz == -(a0 * x + a1 * y + a2 * z)
  {
  }

  lemma TranspOfProductRow0(a: Mat3, b: Mat3)
    ensures var p, q := Transp(Mult(a, b)), Mult(Transp(b), Transp(a));
      p.a0 == q.a0 && p.a1 == q.a1 && p.a2 == q.a2
  {
  }

  lemma TranspOfProductRow1(a: Mat3, b: Mat3)
    ensures var p, q := Transp(Mult(a, b)), Mult(Transp(b), Transp(a));
      p.a3 == q.a3 && p.a4 == q.a4 && p.a5 == q.a5
  {
  }

  lemma TranspOfProductRow2(a: Mat3, b: Mat3)
    ensures var p, q := Transp(Mult(a, b)), Mult(Transp(b), Transp(a));
      p.a6 == q.a6 && p.a7 == q.a7 && p.a8 == q.a8
  {
  }

  lemma TranspAdjoint(a: Mat3, u: Vec3, v: Vec3)
    ensures Dot(MultVec(Transp(a), u), v) == Dot(u, MultVec(a, v))
  {
    TranspIs(a);
    MultVecIs(Transp(a), u);
    MultVecIs(a, v);
    DotIs(MultVec(Transp(a), u), v);
    DotIs(u, MultVec(a, v));
    AdjointReal(a.a0, a.a1, a.a2, a.a3, a.a4, a.a5, a.a6, a.a7, a.a8,
      u.x, u.y, u.z, v.x, v.y, v.z);
  }

  lemma AdjointReal(a0: real, a1: real, a2: real, a3: real, a4: real, a5: real,
                    a6: real, a7: real, a8: real, ux: real, uy: real, uz: real,
                    vx: real, vy: real, vz: real)
    ensures (a0 * ux + a3 * uy + a6 * uz) * vx + (a1 * ux + a4 * uy + a7 * uz) * vy
        + (a2 * ux + a5 * uy + a8 * uz) * vz
      == ux * (a0 * vx + a1 * vy + a2 * vz) + uy * (a3 * vx + a4 * vy + a5 * vz)
        + uz * (a6 * vx + a7 * vy + a8 * vz)
  {
  }
}
