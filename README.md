# glalgebra in Dafny

A model of glalgebra, a small C library of 3D graphics algebra. It covers:

- three-component vectors (`vec3`) and their componentwise arithmetic, dot and cross products and the library's interpolation;
- row-major 3x3 matrices (`mat3`): the product, matrix times column vector, the axis-angle rotation matrix (Rodrigues' formula from the sine and cosine of the angle) and the three axis-aligned rotations, row scaling, the diagonal scale matrix and the transpose;
- affine 4x4 matrices (`amat4`), kept as a 3x3 block and a translation: composition, the action on points `<x, y, z, 1>` and on directions `<x, y, z, 0>`, post-rotation, the two ways the library builds a rotation, the closed-form inverse of a rigid map, and the copy into a true row-major 4x4 matrix of 16 floats;
- the dense 4x4 product over caller-supplied 16-float buffers, and its two variants that first flatten an `amat4` into a local buffer.

Every single-precision `float` is modelled as a Dafny `real`. The value types are datatypes (`Vector3.Vec3`, `Matrix3.Mat3`, `AffineMatrix4.Amat4`), and the library's value-returning functions are Dafny functions. The routines that write into caller buffers are methods on `array<real>`, each specified by a function on sequences: the two copies into a buffer, and the buffer product with its wrappers.

Files, one module each:

- `vector3.dfy`: `Vector3`.
- `matrix3.dfy`: `Matrix3`.
- `affine4.dfy`: `AffineMatrix4`.
- `flatbuffer.dfy`: `FlatBuffer`, the buffer product.
- `rotation.dfy`: `Rotation`. It proves that the rotation matrix satisfies Rodrigues' formula, is orthogonal, has determinant 1 and fixes its axis, and from that that the affine inverse undoes an affine rotation.

Where the header's declarations and the C definitions disagree, the model follows the definitions in `glalgebra.c`. They disagree on two wrapper names: the model uses the names defined in `glalgebra.c`, `amat4_mat_buf_mult` and `amat4_buf_mat_mult`.

The header documents `vec3_lerp` as `a*alpha + b*(1 - alpha)`, and the code agrees. So alpha = 1 selects a, the reverse of the usual convention, and the model keeps that weighting.

## Model

| member | source | states |
|---|---|---|
| Vector3.Add | glalgebra.c:12-15 | each component of the result is the sum of the respective components |
| Vector3.Sub | glalgebra.c:17-20 | adding b back to a - b gives a |
| Vector3.Scale | glalgebra.c:22-25 | each component is multiplied by the factor |
| Vector3.Neg | glalgebra.c:27-30 | a plus its negation is the zero vector |
| Vector3.Dot | glalgebra.c:49-52 | computes only; DotProperties states its symmetry and that u . u >= 0, and Cross is characterised through it |
| Vector3.Cross | glalgebra.c:38-41 | the dot product of u x v with any w is the determinant with rows u, v, w; so u x v is orthogonal to u and to v |
| Vector3.CrossUnique | glalgebra.c:38-41 | a vector whose dot product with every w is that determinant is u x v: the contract of Cross determines it |
| Vector3.CrossRightHanded | glalgebra.c:38-41 | the cross product is right-handed: (1, 0, 0) x (0, 1, 0) == (0, 0, 1) |
| Vector3.DetAlternates | glalgebra.c:38-41 | the triple product (u x v) . w is unchanged by a cyclic shift, changes sign when u and v swap, and is 0 when u == v |
| Vector3.Lerp | glalgebra.c:43-47 | the result is a scaled by alpha plus b scaled by 1 - alpha |
| Vector3.SubAddCancel | glalgebra.c:12-20 | (a + b) - a == b |
| Vector3.AddCommutes | glalgebra.c:12-15 | a + b == b + a |
| Vector3.AddAssociates | glalgebra.c:12-15 | (a + b) + c == a + (b + c) |
| Vector3.AddNegCancel | glalgebra.c:12-30 | zero is neutral; adding then subtracting (via Neg) a vector gives back the start |
| Vector3.SubIsAddNeg | glalgebra.c:17-30 | a - b == a + (-b) and -b == b scaled by -1 |
| Vector3.LerpEndpoints | glalgebra.c:43-47 | alpha = 1 gives a and alpha = 0 gives b (the inverted weighting) |
| Vector3.DotProperties | glalgebra.c:49-52 | the dot product is symmetric and u . u >= 0 |
| Vector3.CrossAnticommutes | glalgebra.c:38-41 | u x v == -(v x u) and u x u == 0 |
| Vector3.AddScenario | glalgebra_test.c:6-15 | (1, 0, 0.5) + (0, 1, 0.5) == (1, 1, 1) |
| Vector3.AddTestAsWrittenMisjudges | glalgebra_test.c:12-15 | the self-test's condition as written accepts its scenario but rejects the correct sum of (1, 0, 0) and (0, 2, 0) |
| Vector3.AddTestExact | glalgebra_test.c:12-15 | the intended condition holds exactly when c is the sum of a and b |
| Matrix3.Mult | glalgebra.c:63-81 | computes only; MultEntries states each entry and MultVecOfMult that it composes the two maps |
| Matrix3.MultVec | glalgebra.c:83-92 | computes only; MultVecEntries states each component and MultVecLinear its linearity |
| Matrix3.RotMat | glalgebra.c:99-109 | computes only; Rotation.RotMatRodrigues states the rotation it performs (sense and angle), and Rotation.RotMatOrthogonal, Rotation.RotMatDet and Rotation.RotMatFixesAxis that it is a proper rotation about its axis |
| Matrix3.Rot | glalgebra.c:94-97 | applied to any vector, the result acts as the rotation first and then a |
| Matrix3.RotMatX | glalgebra.c:111-120 | equals the general rotation about (1, 0, 0) |
| Matrix3.RotMatY | glalgebra.c:121-130 | equals the general rotation about (0, 1, 0) |
| Matrix3.RotMatZ | glalgebra.c:131-140 | equals the general rotation about (0, 0, 1) |
| Matrix3.Scale | glalgebra.c:142-151 | row-scaling a equals scalemat(x, y, z) * a |
| Matrix3.ScaleMat | glalgebra.c:153-162 | entry (i, i) is the i-th factor and every off-diagonal entry is 0 |
| Matrix3.Transp | glalgebra.c:164-173 | row i of the result is column i of a, and column i is row i |
| Matrix3.Layout | glalgebra.c:187-196 | 16 floats, row-major: the block in rows 0-2, the vector in column 3, last row <0, 0, 0, 1> |
| Matrix3.Mat3Vec3ToArray | glalgebra.h:91-93 | the first 16 floats of buf become the layout of a and b; the rest of buf is unchanged |
| Matrix3.IdentNeutral | glalgebra.h:32 | MAT3_IDENT is neutral for the product on both sides and fixes every vector |
| Matrix3.MultEntries | glalgebra.c:63-81 | entry (i, j) of a * b is row i of a dotted with column j of b |
| Matrix3.MultVecEntries | glalgebra.c:83-92 | component i of a * v is row i of a dotted with v |
| Matrix3.MultVecOfMult | glalgebra.c:63-92 | applying a * b applies b first, then a |
| Matrix3.MultVecLinear | glalgebra.c:83-92 | a * (u + v) == a * u + a * v |
| Matrix3.MultVecZero | glalgebra.c:83-92 | a * 0 == 0 |
| Matrix3.MultVecNeg | glalgebra.c:83-92 | a * (-u) == -(a * u) |
| Matrix3.ScaleMatScales | glalgebra.c:153-162 | the scale matrix multiplies the three components of a vector by x, y and z |
| Matrix3.TranspProperties | glalgebra.c:164-173 | transposing twice gives back a; (a b)^T == b^T a^T; (a^T u) . v == u . (a v) |
| Matrix3.RotMatZeroAngle | glalgebra.c:99-109 | sine 0 and cosine 1 give the identity, for any axis |
| Rotation.RotMatOrthogonal | glalgebra.c:99-109 | for a unit axis and s^2 + c^2 = 1, Transp(R) * R is the identity |
| Rotation.RotMatOrthonormalRows | glalgebra.c:99-109 | for a unit axis and s^2 + c^2 = 1, R * Transp(R) is the identity |
| Rotation.RotMatRodrigues | glalgebra.c:99-109 | for every axis u and every s, c, R v == v c + (u x v) s + u (1 - c)(u . v): Rodrigues' formula, which fixes the sense of the rotation and tells R from its transpose |
| Rotation.RotMatDet | glalgebra.c:99-109 | for a unit axis and s^2 + c^2 = 1, the determinant is 1: a proper rotation, not a reflection |
| Rotation.RotMatFixesAxis | glalgebra.h:75-77 | for a unit axis and any s and c, the rotation maps the axis to itself |
| Rotation.AffineRotationInverse | glalgebra.h:123-126 | for an affine rotation: the inverse composed on either side is AMAT4_IDENT, it sends every image point back, and the rotation fixes its axis |
| AffineMatrix4.Amat4ToArray | glalgebra.h:111-114 | the first 16 floats of buf become the row-major 4x4 matrix; the rest of buf is unchanged |
| AffineMatrix4.Mult | glalgebra.c:198-221 | the block of a * b is the mat3 product of the blocks; its translation is a's block applied to b's translation, plus a's |
| AffineMatrix4.MultPoint | glalgebra.c:223-230 | a point is moved by the block and then translated: multvec plus the translation |
| AffineMatrix4.MultVec | glalgebra.c:232-239 | a direction is only moved by the block: mat3_multvec on the block |
| AffineMatrix4.Rot | glalgebra.c:241-261 | rotating a is composing a with the rotation matrix, and a's translation is kept |
| AffineMatrix4.Flatten | glalgebra.c:263-272 | amat4_to_array lays out the same 16 floats as mat3_vec3_to_array of the block and the translation |
| AffineMatrix4.RotMat | glalgebra.c:274-285 | computes only; RotMatBlocks states its two parts and Rotation.AffineRotationInverse that the inverse undoes it |
| AffineMatrix4.RotMatLoMult | glalgebra.c:287-305 | computes only; RotMatLoMultEqual states that it is the same rotation |
| AffineMatrix4.Inverse | glalgebra.c:307-321 | the inverse has block A^T and translation -(A^T t) |
| AffineMatrix4.RotMatBlocks | glalgebra.c:274-285 | the block is the mat3 rotation with the same arguments; the translation is zero |
| AffineMatrix4.RotMatLoMultEqual | glalgebra.c:287-305 | the shared-product version equals the plain rotation, entry for entry |
| AffineMatrix4.MultComposes | glalgebra.c:198-239 | multpoint and multvec of a * b are those of a applied after those of b |
| AffineMatrix4.RotComposes | glalgebra.h:107-110 | a rotated map moves a point by the rotation first, then by a |
| AffineMatrix4.IdentNeutral | glalgebra.h:33 | AMAT4_IDENT is neutral for composition on both sides and fixes every point |
| AffineMatrix4.InverseUndoes | glalgebra.h:123-126 | if A^T A = I, the inverse sends every image point back and inverse * a is the identity |
| AffineMatrix4.InverseRedoes | glalgebra.h:123-126 | if A A^T = I, a undoes the inverse on every point and a * inverse is the identity |
| AffineMatrix4.Homogeneous | glalgebra.h:100-106 | multpoint and multvec are the flattened 4x4 matrix times <x, y, z, 1> and <x, y, z, 0> |
| FlatBuffer.Cell | glalgebra.c:327-331 | computes only: one entry of the buffer product; BufProduct states that entry (i, j) of the product is this sum, and BufMult writes that product |
| FlatBuffer.BufProduct | glalgebra.c:323-334 | 16 floats whose entry (i, j) is the sum over k < 4 of s[4i + k] * t[4k + j] |
| FlatBuffer.BufMult | glalgebra.c:323-334 | out becomes the 4x4 product of a and b; a and b are unchanged; requires out to differ from a and from b |
| FlatBuffer.MatBufMult | glalgebra.c:336-341 | out becomes the product of the flattened a with b; b is unchanged |
| FlatBuffer.BufMatMult | glalgebra.c:343-348 | out becomes the product of a with the flattened b; a is unchanged |
| FlatBuffer.BufProductFlatten | glalgebra.c:323-334 | the buffer product of two flattened amat4s is the flattened amat4 product |
| FlatBuffer.BufProductIdent | glalgebra.h:33 | the flattened AMAT4_IDENT is neutral for the buffer product on both sides |

## Left out

- `vec3_normalize`, `vec3_mag`, `vec3_dist` and `mat3_lookat`: they need a square root and divide by a magnitude that may be zero. There is no exact real model of either.
- IEEE single-precision rounding: every identity above holds over the reals. In particular, `amat4_rotmat_lomult` and `amat4_rotmat` agree exactly only over the reals, not bit for bit.
- `vec3_new` and the global `vec3_zero`: the datatype constructor `Vec3(x, y, z)` plays both parts.
- The storage that the `vec3` union shares between x, y, z, the `r, g, b` colour names and the `A[3]` array: values are immutable here, so writing through one view and reading through another cannot happen. What `A[i]` reads is modelled, as `At(i)`; the colour names are not.
- The `T[3]` and `x, y, z` union views of the translation of `amat4`: the model keeps the single field `t`.
- `mat3_from_array`, `mat3_ident`, `amat4_mult_b` and `amat4_lookat`: they are declared in the header but not defined in `glalgebra.c`.
- The header's names `amat4_amat_buf_mult` and `amat4_buf_amat_mult`: the model takes the definitions in `glalgebra.c`.
- `memcpy` and `restrict` as such: only their result and the aliasing precondition are modelled.
- The buffer product's aliasing rule. The header wants a, b and out to be three different buffers. `FlatBuffer.BufMult` requires only that out differ from a and from b, because a and b are only read and may be the same buffer.
- The buffer sizes. The to-array routines require at least 16 floats ("large enough"). The buffer product requires exactly 16 floats.
- The self-test's harness (stdio, `main` and the exit code): only its scenario and its condition are modelled.
- AffineMatrix4.InverseUndoes: requires A^T A = I, the side of orthogonality its proof uses.
- AffineMatrix4.InverseRedoes: requires A A^T = I. For a square matrix each condition implies the other, but that equivalence is not proved here. For the library's own rotations both sides are proved in `Rotation`.

## Findings

| source | as written | input that shows it | evidently intended | confidence | as-written member | corrected member |
|---|---|---|---|---|---|---|
| glalgebra_test.c:14 | the add test checks `c.y == a.x + b.x` | a = (1, 0, 0), b = (0, 2, 0): the correct sum (1, 2, 0) fails the check. The test's own scenario passes only because a.x + b.x == a.y + b.y there | `c.y == a.y + b.y` | not executed; follows from the text of the condition | Vector3.AddTestAsWrittenMisjudges | Vector3.AddTestExact |
