/** Three-component vectors and their componentwise arithmetic.
    Every single-precision float of the library is modelled as a `real`. */
module Vector3 {

  /** A vec3: the named fields x, y, z. `At` is the `A[3]` array view of the
      same storage; the r, g, b colour names are not modelled. */
  datatype Vec3 = Vec3(x: real, y: real, z: real) {

    /** Component `i`, as the array view `A[i]` sees it. */
    function At(i: nat): real
      requires i < 3
    {
      if i == 0 then x else if i == 1 then y else z
    }
  }

  /** The sum of the respective components of a and b. */
  function Add(a: Vec3, b: Vec3): (r: Vec3)
    ensures forall i | 0 <= i < 3 :: r.At(i) == a.At(i) + b.At(i)
  {
    Vec3(a.x + b.x, a.y + b.y, a.z + b.z)
  }

  /** The difference of the respective components: adding b back gives a. */
  function Sub(a: Vec3, b: Vec3): (r: Vec3)
    ensures Add(r, b) == a
  {
    Vec3(a.x - b.x, a.y - b.y, a.z - b.z)
  }

  /** a scaled by the factor b. */
  function Scale(a: Vec3, b: real): (r: Vec3)
    ensures forall i | 0 <= i < 3 :: r.At(i) == a.At(i) * b
  {
    Vec3(a.x * b, a.y * b, a.z * b)
  }

  /** The additive inverse of a. */
  function Neg(a: Vec3): (r: Vec3)
    ensures Add(a, r) == Vec3(0.0, 0.0, 0.0)
  {
    Vec3(-a.x, -a.y, -a.z)
  }

  /** The dot product. */
  function Dot(u: Vec3, v: Vec3): real
  {
    u.x * v.x + u.y * v.y + u.z * v.z
  }

  /** The determinant of the matrix whose rows are u, v and w (the scalar
      triple product), expanded along u. */
  function Det(u: Vec3, v: Vec3, w: Vec3): real
  {
    u.x * (v.y * w.z - v.z * w.y) - u.y * (v.x * w.z - v.z * w.x) + u.z * (v.x * w.y - v.y * w.x)
  }

  /** The cross product: its dot product with any w is the determinant with
      rows u, v, w, which makes it orthogonal to both operands and (see
      CrossUnique and CrossRightHanded) the one right-handed such vector. */
  function Cross(u: Vec3, v: Vec3): (r: Vec3)
    ensures forall w :: Dot(r, w) == Det(u, v, w)
    ensures Dot(r, u) == 0.0 && Dot(r, v) == 0.0
  {
    Vec3(u.y * v.z - u.z * v.y, u.z * v.x - u.x * v.z, u.x * v.y - u.y * v.x)
  }

  /** The weighting a*alpha + b*(1 - alpha). The weights are the reverse of the
      usual lerp convention: alpha = 1 selects a and alpha = 0 selects b. */
  function Lerp(a: Vec3, b: Vec3, alpha: real): (r: Vec3)
    ensures r == Add(Scale(a, alpha), Scale(b, 1.0 - alpha))
  {
    var beta := 1.0 - alpha;
    Vec3(a.x * alpha + b.x * beta, a.y * alpha + b.y * beta, a.z * alpha + b.z * beta)
  }

  /** Subtracting a from a + b leaves b. */
  lemma SubAddCancel(a: Vec3, b: Vec3)
    ensures Sub(Add(a, b), a) == b
  {
  }

  lemma AddCommutes(a: Vec3, b: Vec3)
    ensures Add(a, b) == Add(b, a)
  {
  }

  lemma AddAssociates(a: Vec3, b: Vec3, c: Vec3)
    ensures Add(Add(a, b), c) == Add(a, Add(b, c))
  {
  }

  /** The zero vector is neutral for addition, and adding a vector and then its
      negation gives back what one started from. */
  lemma AddNegCancel(a: Vec3, b: Vec3)
    ensures Add(a, Vec3(0.0, 0.0, 0.0)) == a
    ensures Add(Add(a, b), Neg(b)) == a
    ensures Add(Add(a, Neg(b)), b) == a
  {
  }

  /** Subtraction is addition of the negation, and negation is scaling by -1. */
  lemma SubIsAddNeg(a: Vec3, b: Vec3)
    ensures Sub(a, b) == Add(a, Neg(b))
    ensures Neg(b) == Scale(b, -1.0)
  {
  }

  /** The endpoints of Lerp, with its inverted weighting. */
  lemma LerpEndpoints(a: Vec3, b: Vec3)
    ensures Lerp(a, b, 1.0) == a
    ensures Lerp(a, b, 0.0) == b
  {
  }

  /** The dot product is symmetric, and a vector's dot product with itself is
      never negative. */
  lemma DotProperties(u: Vec3, v: Vec3)
    ensures Dot(u, v) == Dot(v, u)
    ensures Dot(u, u) >= 0.0
  {
  }

  /** The determinant property pins the cross product down: a vector whose dot
      product with every w is Det(u, v, w) is Cross(u, v). */
  lemma CrossUnique(u: Vec3, v: Vec3, r: Vec3)
    requires forall w :: Dot(r, w) == Det(u, v, w)
    ensures r == Cross(u, v)
  {
    assert Dot(r, Vec3(1.0, 0.0, 0.0)) == Det(u, v, Vec3(1.0, 0.0, 0.0));
    assert Dot(r, Vec3(0.0, 1.0, 0.0)) == Det(u, v, Vec3(0.0, 1.0, 0.0));
    assert Dot(r, Vec3(0.0, 0.0, 1.0)) == Det(u, v, Vec3(0.0, 0.0, 1.0));
  }

  /** The cross product is right-handed: x cross y is z. */
  lemma CrossRightHanded()
    ensures Cross(Vec3(1.0, 0.0, 0.0), Vec3(0.0, 1.0, 0.0)) == Vec3(0.0, 0.0, 1.0)
  {
  }

  /** The determinant is unchanged by a cyclic shift of its rows, changes sign
      when two rows are swapped, and vanishes when two rows are equal. */
  lemma DetAlternates(u: Vec3, v: Vec3, w: Vec3)
    ensures Det(u, v, w) == Det(v, w, u)
    ensures Det(u, v, w) == -Det(v, u, w)
    ensures Det(u, u, w) == 0.0
  {
  }

  lemma CrossAnticommutes(u: Vec3, v: Vec3)
    ensures Cross(u, v) == Neg(Cross(v, u))
    ensures Cross(u, u) == Vec3(0.0, 0.0, 0.0)
  {
  }

  // One-step unfoldings, for proofs that would otherwise have to unfold nested
  // calls.

  lemma AddIs(a: Vec3, b: Vec3)
    ensures Add(a, b) == Vec3(a.x + b.x, a.y + b.y, a.z + b.z)
  {
  }

  lemma NegIs(a: Vec3)
    ensures Neg(a) == Vec3(-a.x, -a.y, -a.z)
  {
  }

  lemma DotIs(u: Vec3, v: Vec3)
    ensures Dot(u, v) == u.x * v.x + u.y * v.y + u.z * v.z
  {
  }

  /** The scenario of the library's self-test: (1, 0, 0.5) + (0, 1, 0.5) = (1, 1, 1). */
  lemma AddScenario()
    ensures Add(Vec3(1.0, 0.0, 0.5), Vec3(0.0, 1.0, 0.5)) == Vec3(1.0, 1.0, 1.0)
  {
  }

  /** The self-test's acceptance condition as written: its second conjunct
      compares c.y with a.x + b.x instead of a.y + b.y. */
  predicate AddTestAsWritten(a: Vec3, b: Vec3, c: Vec3)
  {
    c.x == a.x + b.x && c.y == a.x + b.x && c.z == a.z + b.z
  }

  /** The condition as written accepts the self-test's own scenario only
      because there a.x + b.x happens to equal a.y + b.y; on (1, 0, 0) and
      (0, 2, 0) it rejects the correct sum. */
  lemma AddTestAsWrittenMisjudges()
    ensures AddTestAsWritten(Vec3(1.0, 0.0, 0.5), Vec3(0.0, 1.0, 0.5), Add(Vec3(1.0, 0.0, 0.5), Vec3(0.0, 1.0, 0.5)))
    ensures !AddTestAsWritten(Vec3(1.0, 0.0, 0.0), Vec3(0.0, 2.0, 0.0), Add(Vec3(1.0, 0.0, 0.0), Vec3(0.0, 2.0, 0.0)))
  {
  }

  /** The intended condition: every component of c is the sum of the
      respective components of a and b. */
  predicate AddTest(a: Vec3, b: Vec3, c: Vec3)
  {
    c.x == a.x + b.x && c.y == a.y + b.y && c.z == a.z + b.z
  }

  /** The intended condition accepts exactly the correct sum, on every input. */
  lemma AddTestExact(a: Vec3, b: Vec3, c: Vec3)
    ensures AddTest(a, b, c) <==> c == Add(a, b)
  {
  }
}
