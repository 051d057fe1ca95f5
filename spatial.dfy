// The spatial-algebra values the kernels compute with, over `real` as an
// idealisation of `double`, and their reading out of flat buffers in the
// library's fixed layouts (include/dyn2b/types/screw.h, mechanics.h, joint.h).

module Spatial {
  import opened Buffers

  // ---------------------------------------------------------------------------
  // 3-vectors
  // ---------------------------------------------------------------------------

  datatype Vec3 = Vec3(x: real, y: real, z: real)

  const Zero3 := Vec3(0.0, 0.0, 0.0)

  /** The three consecutive slots o, o + 1, o + 2 of a buffer. */
  function Vec3At(s: seq<real>, o: int): Vec3
  {
    Vec3(Get(s, o), Get(s, o + 1), Get(s, o + 2))
  }

  function Plus(a: Vec3, b: Vec3): Vec3 { Vec3(a.x + b.x, a.y + b.y, a.z + b.z) }

  function Minus(a: Vec3, b: Vec3): Vec3 { Vec3(a.x - b.x, a.y - b.y, a.z - b.z) }

  function Neg(a: Vec3): Vec3 { Vec3(-a.x, -a.y, -a.z) }

  function Scale(k: real, a: Vec3): Vec3 { Vec3(k * a.x, k * a.y, k * a.z) }

  function Dot(a: Vec3, b: Vec3): real { a.x * b.x + a.y * b.y + a.z * b.z }

  /** The cross product, component by component as src/vector3.c:20-22 computes it. */
  function Cross(a: Vec3, b: Vec3): Vec3
  {
    Vec3(a.y * b.z - a.z * b.y,
         a.z * b.x - a.x * b.z,
         a.x * b.y - a.y * b.x)
  }

  // ---------------------------------------------------------------------------
  // 3x3 matrices, stored column-major (leading dimension 3)
  // ---------------------------------------------------------------------------

  /** A 3x3 matrix given by its three columns. */
  datatype Mat3 = Mat3(c0: Vec3, c1: Vec3, c2: Vec3)

  const Identity3 := Mat3(Vec3(1.0, 0.0, 0.0), Vec3(0.0, 1.0, 0.0), Vec3(0.0, 0.0, 1.0))

  /** Nine consecutive slots read column-major. */
  function Mat3At(s: seq<real>, o: int): Mat3
  {
    Mat3(Vec3At(s, o), Vec3At(s, o + 3), Vec3At(s, o + 6))
  }

  /** Entry (r, c) of a matrix, 0 <= r, c < 3. */
  function At3(m: Mat3, r: int, c: int): real
    requires 0 <= r < 3 && 0 <= c < 3
  {
    var col := if c == 0 then m.c0 else if c == 1 then m.c1 else m.c2;
    if r == 0 then col.x else if r == 1 then col.y else col.z
  }

  /** The matrix-vector product A v: each row of A against v. */
  function Apply(a: Mat3, v: Vec3): Vec3
  {
    Vec3(Dot(Vec3(a.c0.x, a.c1.x, a.c2.x), v),
         Dot(Vec3(a.c0.y, a.c1.y, a.c2.y), v),
         Dot(Vec3(a.c0.z, a.c1.z, a.c2.z), v))
  }

  function Transpose(a: Mat3): Mat3
  {
    Mat3(Vec3(a.c0.x, a.c1.x, a.c2.x),
         Vec3(a.c0.y, a.c1.y, a.c2.y),
         Vec3(a.c0.z, a.c1.z, a.c2.z))
  }

  /** The matrix product A B, column by column. */
  function Mul(a: Mat3, b: Mat3): Mat3
  {
    Mat3(Apply(a, b.c0), Apply(a, b.c1), Apply(a, b.c2))
  }

  function MatPlus(a: Mat3, b: Mat3): Mat3
  {
    Mat3(Plus(a.c0, b.c0), Plus(a.c1, b.c1), Plus(a.c2, b.c2))
  }

  function MatMinus(a: Mat3, b: Mat3): Mat3
  {
    Mat3(Minus(a.c0, b.c0), Minus(a.c1, b.c1), Minus(a.c2, b.c2))
  }

  function MatScale(k: real, a: Mat3): Mat3
  {
    Mat3(Scale(k, a.c0), Scale(k, a.c1), Scale(k, a.c2))
  }

  /** The skew-symmetric ("cross product") matrix of v, column-major as
      src/vector3.c:56-58 writes it. */
  function Skew(v: Vec3): Mat3
  {
    Mat3(Vec3(0.0, v.z, -v.y), Vec3(-v.z, 0.0, v.x), Vec3(v.y, -v.x, 0.0))
  }

  predicate Symmetric(a: Mat3)
  {
    a == Transpose(a)
  }

  /** A rotation block. For a square matrix either product being the identity
      implies the other; both are stated so that neither has to be derived. */
  predicate Orthonormal(r: Mat3)
  {
    Mul(Transpose(r), r) == Identity3 && Mul(r, Transpose(r)) == Identity3
  }

  /** Component k of a vector (DYN2B_X_OFFSET, _Y_, _Z_ = 0, 1, 2). */
  function Comp(v: Vec3, k: int): real
  {
    if k == 0 then v.x else if k == 1 then v.y else v.z
  }

  /** The unit vector along axis k. */
  function Unit(k: int): Vec3
  {
    if k == 0 then Vec3(1.0, 0.0, 0.0) else if k == 1 then Vec3(0.0, 1.0, 0.0) else Vec3(0.0, 0.0, 1.0)
  }

  /** Column c and row r of a matrix. */
  function Col(a: Mat3, c: int): Vec3
  {
    if c == 0 then a.c0 else if c == 1 then a.c1 else a.c2
  }

  function Row(a: Mat3, r: int): Vec3
  {
    Vec3(Comp(a.c0, r), Comp(a.c1, r), Comp(a.c2, r))
  }

  /** Entry (r, c) of a stored 3x3 block is slot o + r + 3 c. */
  lemma At3Slot(s: seq<real>, o: int, r: int, c: int)
    requires 0 <= r < 3 && 0 <= c < 3
    ensures At3(Mat3At(s, o), r, c) == Get(s, o + r + 3 * c)
  {
  }

  /** A block whose nine slots agree with a matrix reads back as that matrix. */
  lemma {:induction false} Mat3Ext(s: seq<real>, o: int, a: Mat3)
    requires forall r, c :: 0 <= r < 3 && 0 <= c < 3 ==> Get(s, o + r + 3 * c) == At3(a, r, c)
    ensures Mat3At(s, o) == a
  {
    assert Get(s, o + 0 + 3 * 0) == At3(a, 0, 0) && Get(s, o + 1 + 3 * 0) == At3(a, 1, 0);
    assert Get(s, o + 2 + 3 * 0) == At3(a, 2, 0) && Get(s, o + 0 + 3 * 1) == At3(a, 0, 1);
    assert Get(s, o + 1 + 3 * 1) == At3(a, 1, 1) && Get(s, o + 2 + 3 * 1) == At3(a, 2, 1);
    assert Get(s, o + 0 + 3 * 2) == At3(a, 0, 2) && Get(s, o + 1 + 3 * 2) == At3(a, 1, 2);
    assert Get(s, o + 2 + 3 * 2) == At3(a, 2, 2);
  }

  /** Two matrices that agree entry by entry are equal. */
  lemma Mat3Eq(a: Mat3, b: Mat3)
    requires forall r, c :: 0 <= r < 3 && 0 <= c < 3 ==> At3(a, r, c) == At3(b, r, c)
    ensures a == b
  {
    assert At3(a, 0, 0) == At3(b, 0, 0) && At3(a, 1, 0) == At3(b, 1, 0) && At3(a, 2, 0) == At3(b, 2, 0);
    assert At3(a, 0, 1) == At3(b, 0, 1) && At3(a, 1, 1) == At3(b, 1, 1) && At3(a, 2, 1) == At3(b, 2, 1);
    assert At3(a, 0, 2) == At3(b, 0, 2) && At3(a, 1, 2) == At3(b, 1, 2) && At3(a, 2, 2) == At3(b, 2, 2);
  }

  /** A 3x3 block that lies wholly before or after a single written run keeps
      its value. */
  lemma Mat3Kept(c1: seq<real>, c0: seq<real>, o: int, w: int, ob: int)
    requires KeptOutside(c1, c0, o, w, 1, w)
    requires 0 <= ob && ob + 9 <= |c1|
    requires ob + 9 <= o || o + w <= ob
    ensures Mat3At(c1, ob) == Mat3At(c0, ob)
  {
    forall p | ob <= p < ob + 9
      ensures c1[p] == c0[p]
    {
      SingleRun(p, o, w, w);
    }
  }

  // ---------------------------------------------------------------------------
  // Screws and poses
  // ---------------------------------------------------------------------------

  /** A 3D screw: direction part first, moment part second
      (DYN2B_SCREW3_DIR_OFFSET = 0, DYN2B_SCREW3_MOM_OFFSET = 3). As a twist the
      direction is the angular and the moment the linear part; as a wrench the
      direction slots hold the linear and the moment slots the angular part. */
  datatype Screw = Screw(dir: Vec3, mom: Vec3)

  const ScrewSize := 6
  const DirOffset := 0
  const MomOffset := 3

  function ScrewAt(s: seq<real>, o: int): Screw
  {
    Screw(Vec3At(s, o + DirOffset), Vec3At(s, o + MomOffset))
  }

  function ScrewPlus(a: Screw, b: Screw): Screw
  {
    Screw(Plus(a.dir, b.dir), Plus(a.mom, b.mom))
  }

  function ScrewScale(k: real, a: Screw): Screw
  {
    Screw(Scale(k, a.dir), Scale(k, a.mom))
  }

  const ZeroScrew := Screw(Zero3, Zero3)

  /** A pose: rotation block (9 slots, column-major) then translation (3 slots). */
  datatype Pose = Pose(rot: Mat3, pos: Vec3)

  const PoseSize := 12
  const PoseLinOffset := 9

  function PoseAt(s: seq<real>, o: int): Pose
  {
    Pose(Mat3At(s, o), Vec3At(s, o + PoseLinOffset))
  }

  const IdentityPose := Pose(Identity3, Zero3)

  // ---------------------------------------------------------------------------
  // Algebraic facts the kernels' properties rest on
  // ---------------------------------------------------------------------------

  /** The skew matrix applied to b is the cross product with b. */
  lemma SkewApply(a: Vec3, b: Vec3)
    ensures Apply(Skew(a), b) == Cross(a, b)
  {
  }

  /** [a]x B crosses a with each column of B. */
  lemma SkewMul(a: Vec3, b: Mat3)
    ensures Mul(Skew(a), b) == Mat3(Cross(a, b.c0), Cross(a, b.c1), Cross(a, b.c2))
  {
    SkewApply(a, b.c0);
    SkewApply(a, b.c1);
    SkewApply(a, b.c2);
  }

  /** The skew matrix has a zero diagonal and is antisymmetric. */
  lemma SkewAntisymmetric(a: Vec3)
    ensures forall r, c :: 0 <= r < 3 && 0 <= c < 3 ==> At3(Skew(a), r, c) == -At3(Skew(a), c, r)
    ensures forall r :: 0 <= r < 3 ==> At3(Skew(a), r, r) == 0.0
    ensures Transpose(Skew(a)) == MatScale(-1.0, Skew(a))
  {
  }

  lemma CrossAntiCommutes(a: Vec3, b: Vec3)
    ensures Cross(a, b) == Neg(Cross(b, a))
  {
  }

  lemma CrossSelf(a: Vec3)
    ensures Cross(a, a) == Zero3
  {
  }

  lemma CrossZero(a: Vec3)
    ensures Cross(a, Zero3) == Zero3 && Cross(Zero3, a) == Zero3
  {
  }

  lemma ApplyZero(a: Mat3)
    ensures Apply(a, Zero3) == Zero3
  {
  }

  lemma ApplyIdentity(v: Vec3)
    ensures Apply(Identity3, v) == v
  {
  }

  lemma MulIdentity(a: Mat3)
    ensures Mul(Identity3, a) == a && Mul(a, Identity3) == a
  {
  }

  /** A v is the combination of the columns of A weighted by v. */
  lemma ApplyColumns(a: Mat3, v: Vec3)
    ensures Apply(a, v) == Plus(Plus(Scale(v.x, a.c0), Scale(v.y, a.c1)), Scale(v.z, a.c2))
  {
  }

  lemma ApplyPlus(a: Mat3, u: Vec3, v: Vec3)
    ensures Apply(a, Plus(u, v)) == Plus(Apply(a, u), Apply(a, v))
  {
    DotPlusRight(u, v, Vec3(a.c0.x, a.c1.x, a.c2.x));
    DotPlusRight(u, v, Vec3(a.c0.y, a.c1.y, a.c2.y));
    DotPlusRight(u, v, Vec3(a.c0.z, a.c1.z, a.c2.z));
  }

  lemma DotPlusRight(a: Vec3, b: Vec3, c: Vec3)
    ensures Dot(c, Plus(a, b)) == Dot(c, a) + Dot(c, b)
  {
  }

  lemma ApplyScale(a: Mat3, k: real, v: Vec3)
    ensures Apply(a, Scale(k, v)) == Scale(k, Apply(a, v))
  {
    DotScaleRight(k, Vec3(a.c0.x, a.c1.x, a.c2.x), v);
    DotScaleRight(k, Vec3(a.c0.y, a.c1.y, a.c2.y), v);
    DotScaleRight(k, Vec3(a.c0.z, a.c1.z, a.c2.z), v);
  }

  lemma DotScaleRight(k: real, a: Vec3, b: Vec3)
    ensures Dot(a, Scale(k, b)) == k * Dot(a, b)
  {
  }

  /** (A B) v = A (B v). */
  lemma ApplyMul(a: Mat3, b: Mat3, v: Vec3)
    ensures Apply(Mul(a, b), v) == Apply(a, Apply(b, v))
  {
    var p, q, r := Scale(v.x, b.c0), Scale(v.y, b.c1), Scale(v.z, b.c2);
    ApplyColumns(b, v);
    ApplyPlus(a, Plus(p, q), r);
    ApplyPlus(a, p, q);
    ApplyScale(a, v.x, b.c0);
    ApplyScale(a, v.y, b.c1);
    ApplyScale(a, v.z, b.c2);
    ApplyColumns(Mul(a, b), v);
  }

  lemma MulAssoc(a: Mat3, b: Mat3, c: Mat3)
    ensures Mul(Mul(a, b), c) == Mul(a, Mul(b, c))
  {
    ApplyMul(a, b, c.c0);
    ApplyMul(a, b, c.c1);
    ApplyMul(a, b, c.c2);
  }

  /** Applying a product R R^T that is the identity undoes itself. */
  lemma ApplyInverse(r: Mat3, v: Vec3)
    requires Mul(r, Transpose(r)) == Identity3
    ensures Apply(r, Apply(Transpose(r), v)) == v
  {
    ApplyMul(r, Transpose(r), v);
    ApplyIdentity(v);
  }

  lemma ApplyLinear(a: Mat3, u: Vec3, v: Vec3, k: real)
    ensures Apply(a, Plus(Scale(k, u), v)) == Plus(Scale(k, Apply(a, u)), Apply(a, v))
  {
    ApplyPlus(a, Scale(k, u), v);
    ApplyScale(a, k, u);
  }

  lemma TransposeInvolutive(a: Mat3)
    ensures Transpose(Transpose(a)) == a
  {
  }

  lemma TransposePlus(a: Mat3, b: Mat3)
    ensures Transpose(MatPlus(a, b)) == MatPlus(Transpose(a), Transpose(b))
  {
  }

  /** Applying a sum or a difference of matrices. */
  lemma ApplyMatPlus(a: Mat3, b: Mat3, v: Vec3)
    ensures Apply(MatPlus(a, b), v) == Plus(Apply(a, v), Apply(b, v))
    ensures Apply(MatMinus(a, b), v) == Minus(Apply(a, v), Apply(b, v))
  {
    ApplyMatSum(a, b, v);
    ApplyMatDifference(a, b, v);
  }

  lemma ApplyMatSum(a: Mat3, b: Mat3, v: Vec3)
    ensures Apply(MatPlus(a, b), v) == Plus(Apply(a, v), Apply(b, v))
  {
    DotPlusLeft(Vec3(a.c0.x, a.c1.x, a.c2.x), Vec3(b.c0.x, b.c1.x, b.c2.x), v);
    DotPlusLeft(Vec3(a.c0.y, a.c1.y, a.c2.y), Vec3(b.c0.y, b.c1.y, b.c2.y), v);
    DotPlusLeft(Vec3(a.c0.z, a.c1.z, a.c2.z), Vec3(b.c0.z, b.c1.z, b.c2.z), v);
  }

  lemma ApplyMatDifference(a: Mat3, b: Mat3, v: Vec3)
    ensures Apply(MatMinus(a, b), v) == Minus(Apply(a, v), Apply(b, v))
  {
    DotMinusLeft(Vec3(a.c0.x, a.c1.x, a.c2.x), Vec3(b.c0.x, b.c1.x, b.c2.x), v);
    DotMinusLeft(Vec3(a.c0.y, a.c1.y, a.c2.y), Vec3(b.c0.y, b.c1.y, b.c2.y), v);
    DotMinusLeft(Vec3(a.c0.z, a.c1.z, a.c2.z), Vec3(b.c0.z, b.c1.z, b.c2.z), v);
  }

  /** A matrix whose columns are unit vectors at right angles to each other,
      and whose rows are too, is orthonormal. */
  lemma OrthonormalOfDots(r: Mat3)
    requires Dot(r.c0, r.c0) == 1.0 && Dot(r.c1, r.c1) == 1.0 && Dot(r.c2, r.c2) == 1.0
    requires Dot(r.c0, r.c1) == 0.0 && Dot(r.c0, r.c2) == 0.0 && Dot(r.c1, r.c2) == 0.0
    requires Dot(Transpose(r).c0, Transpose(r).c0) == 1.0 && Dot(Transpose(r).c1, Transpose(r).c1) == 1.0
    requires Dot(Transpose(r).c2, Transpose(r).c2) == 1.0
    requires Dot(Transpose(r).c0, Transpose(r).c1) == 0.0 && Dot(Transpose(r).c0, Transpose(r).c2) == 0.0
    requires Dot(Transpose(r).c1, Transpose(r).c2) == 0.0
    ensures Orthonormal(r)
  {
    var t := Transpose(r);
    assert Mul(t, r) == Mat3(Vec3(Dot(r.c0, r.c0), Dot(r.c1, r.c0), Dot(r.c2, r.c0)),
                             Vec3(Dot(r.c0, r.c1), Dot(r.c1, r.c1), Dot(r.c2, r.c1)),
                             Vec3(Dot(r.c0, r.c2), Dot(r.c1, r.c2), Dot(r.c2, r.c2)));
    assert Mul(r, t) == Mat3(Vec3(Dot(t.c0, t.c0), Dot(t.c1, t.c0), Dot(t.c2, t.c0)),
                             Vec3(Dot(t.c0, t.c1), Dot(t.c1, t.c1), Dot(t.c2, t.c1)),
                             Vec3(Dot(t.c0, t.c2), Dot(t.c1, t.c2), Dot(t.c2, t.c2)));
    DotSymmetric(r.c0, r.c1); DotSymmetric(r.c0, r.c2); DotSymmetric(r.c1, r.c2);
    DotSymmetric(t.c0, t.c1); DotSymmetric(t.c0, t.c2); DotSymmetric(t.c1, t.c2);
  }

  lemma DotSymmetric(a: Vec3, b: Vec3)
    ensures Dot(a, b) == Dot(b, a)
  {
  }

  lemma DotPlusLeft(a: Vec3, b: Vec3, c: Vec3)
    ensures Dot(Plus(a, b), c) == Dot(a, c) + Dot(b, c)
  {
  }

  lemma DotMinusLeft(a: Vec3, b: Vec3, c: Vec3)
    ensures Dot(Minus(a, b), c) == Dot(a, c) - Dot(b, c)
  {
  }

  lemma ApplyNeg(a: Mat3, v: Vec3)
    ensures Apply(a, Neg(v)) == Neg(Apply(a, v))
  {
    assert Neg(v) == Scale(-1.0, v);
    ApplyScale(a, -1.0, v);
  }

  /** (A B)^T = B^T A^T. */
  lemma TransposeMul(a: Mat3, b: Mat3)
    ensures Transpose(Mul(a, b)) == Mul(Transpose(b), Transpose(a))
  {
    var l, r := Transpose(Mul(a, b)), Mul(Transpose(b), Transpose(a));
    assert l.c0 == r.c0;
    assert l.c1 == r.c1;
    assert l.c2 == r.c2;
  }

  /** <A u, v> = <u, A^T v>. */
  lemma DotApplyTranspose(a: Mat3, u: Vec3, v: Vec3)
    ensures Dot(Apply(a, u), v) == Dot(u, Apply(Transpose(a), v))
  {
    ApplyColumns(a, u);
    var p, q, r := Scale(u.x, a.c0), Scale(u.y, a.c1), Scale(u.z, a.c2);
    DotPlus(Plus(p, q), r, v);
    DotPlus(p, q, v);
    DotScale(u.x, a.c0, v);
    DotScale(u.y, a.c1, v);
    DotScale(u.z, a.c2, v);
    assert Apply(Transpose(a), v) == Vec3(Dot(a.c0, v), Dot(a.c1, v), Dot(a.c2, v));
  }

  lemma DotScale(k: real, a: Vec3, b: Vec3)
    ensures Dot(Scale(k, a), b) == k * Dot(a, b)
  {
    assert (k * a.x) * b.x + (k * a.y) * b.y + (k * a.z) * b.z == k * (a.x * b.x + a.y * b.y + a.z * b.z);
  }

  /** A rotation's transpose preserves inner products. */
  lemma DotPreserved(r: Mat3, u: Vec3, v: Vec3)
    requires Mul(r, Transpose(r)) == Identity3
    ensures Dot(Apply(Transpose(r), u), Apply(Transpose(r), v)) == Dot(u, v)
  {
    DotApplyTranspose(Transpose(r), u, Apply(Transpose(r), v));
    TransposeInvolutive(r);
    ApplyInverse(r, v);
  }

  /** The two triple products <a, b x c> and <a x c, b> cancel. */
  lemma TripleCancel(a: Vec3, b: Vec3, c: Vec3)
    ensures Dot(a, Cross(b, c)) + Dot(Cross(a, c), b) == 0.0
  {
  }

  /** Inner product distributes over the sum on either side. */
  lemma DotPlus(a: Vec3, b: Vec3, c: Vec3)
    ensures Dot(Plus(a, b), c) == Dot(a, c) + Dot(b, c)
    ensures Dot(c, Plus(a, b)) == Dot(c, a) + Dot(c, b)
  {
  }

  /** Scaling and the cross product are linear in each argument. */
  lemma ScalePlus(k: real, u: Vec3, v: Vec3)
    ensures Scale(k, Plus(u, v)) == Plus(Scale(k, u), Scale(k, v))
  {
    assert k * (u.x + v.x) == k * u.x + k * v.x;
    assert k * (u.y + v.y) == k * u.y + k * v.y;
    assert k * (u.z + v.z) == k * u.z + k * v.z;
  }

  lemma ScaleSum(j: real, k: real, v: Vec3)
    ensures Scale(j + k, v) == Plus(Scale(j, v), Scale(k, v))
  {
    assert (j + k) * v.x == j * v.x + k * v.x;
    assert (j + k) * v.y == j * v.y + k * v.y;
    assert (j + k) * v.z == j * v.z + k * v.z;
  }

  lemma ScaleTwice(j: real, k: real, v: Vec3)
    ensures Scale(j, Scale(k, v)) == Scale(j * k, v)
    ensures Scale(j, Scale(k, v)) == Scale(k, Scale(j, v))
  {
    ScaleAssoc(j, k, v);
    ScaleAssoc(k, j, v);
    assert j * k == k * j;
  }

  lemma ScaleAssoc(j: real, k: real, v: Vec3)
    ensures Scale(j, Scale(k, v)) == Scale(j * k, v)
  {
    ProductAssoc(j, k, v.x);
    ProductAssoc(j, k, v.y);
    ProductAssoc(j, k, v.z);
  }

  lemma ProductAssoc(j: real, k: real, x: real)
    ensures j * (k * x) == (j * k) * x
  {
  }

  lemma CrossPlus(a: Vec3, b: Vec3, c: Vec3)
    ensures Cross(Plus(a, b), c) == Plus(Cross(a, c), Cross(b, c))
    ensures Cross(c, Plus(a, b)) == Plus(Cross(c, a), Cross(c, b))
  {
    assert (a.y + b.y) * c.z - (a.z + b.z) * c.y == (a.y * c.z - a.z * c.y) + (b.y * c.z - b.z * c.y);
    assert (a.z + b.z) * c.x - (a.x + b.x) * c.z == (a.z * c.x - a.x * c.z) + (b.z * c.x - b.x * c.z);
    assert (a.x + b.x) * c.y - (a.y + b.y) * c.x == (a.x * c.y - a.y * c.x) + (b.x * c.y - b.y * c.x);
    assert c.y * (a.z + b.z) - c.z * (a.y + b.y) == (c.y * a.z - c.z * a.y) + (c.y * b.z - c.z * b.y);
    assert c.z * (a.x + b.x) - c.x * (a.z + b.z) == (c.z * a.x - c.x * a.z) + (c.z * b.x - c.x * b.z);
    assert c.x * (a.y + b.y) - c.y * (a.x + b.x) == (c.x * a.y - c.y * a.x) + (c.x * b.y - c.y * b.x);
  }

  lemma CrossScale(k: real, a: Vec3, b: Vec3)
    ensures Cross(Scale(k, a), b) == Scale(k, Cross(a, b))
    ensures Cross(a, Scale(k, b)) == Scale(k, Cross(a, b))
  {
    CrossScaleLeft(k, a, b);
    CrossScaleRight(k, a, b);
  }

  lemma CrossScaleLeft(k: real, a: Vec3, b: Vec3)
    ensures Cross(Scale(k, a), b) == Scale(k, Cross(a, b))
  {
    var l, r := Cross(Scale(k, a), b), Scale(k, Cross(a, b));
    assert l.x == r.x by { Det2Scale(k, a.y, b.z, a.z, b.y); }
    assert l.y == r.y by { Det2Scale(k, a.z, b.x, a.x, b.z); }
    assert l.z == r.z by { Det2Scale(k, a.x, b.y, a.y, b.x); }
  }

  lemma CrossScaleRight(k: real, a: Vec3, b: Vec3)
    ensures Cross(a, Scale(k, b)) == Scale(k, Cross(a, b))
  {
    var l, r := Cross(a, Scale(k, b)), Scale(k, Cross(a, b));
    assert l.x == r.x by { Det2ScaleRight(k, a.y, b.z, a.z, b.y); }
    assert l.y == r.y by { Det2ScaleRight(k, a.z, b.x, a.x, b.z); }
    assert l.z == r.z by { Det2ScaleRight(k, a.x, b.y, a.y, b.x); }
  }

  /** The 2x2 determinant p q - r t scales by k when p and r do, or when q and t do. */
  lemma Det2Scale(k: real, p: real, q: real, r: real, t: real)
    ensures (k * p) * q - (k * r) * t == k * (p * q - r * t)
  {
  }

  lemma Det2ScaleRight(k: real, p: real, q: real, r: real, t: real)
    ensures p * (k * q) - r * (k * t) == k * (p * q - r * t)
  {
  }

  /** The direction halves of a batch of screws are outside the moment halves,
      and the moment halves outside the direction halves. */
  lemma HalvesKept(c2: seq<real>, c1: seq<real>, n: nat, i: int, written: int)
    requires written == DirOffset || written == MomOffset
    requires KeptOutside(c2, c1, written, ScrewSize, n, 3)
    ensures written == MomOffset ==> Vec3At(c2, Slot(DirOffset, ScrewSize, i)) == Vec3At(c1, Slot(DirOffset, ScrewSize, i))
    ensures written == DirOffset ==> Vec3At(c2, Slot(MomOffset, ScrewSize, i)) == Vec3At(c1, Slot(MomOffset, ScrewSize, i))
  {
    var other := if written == MomOffset then DirOffset else MomOffset;
    GapKept(c2, c1, n, i, written, other, 0);
    GapKept(c2, c1, n, i, written, other, 1);
    GapKept(c2, c1, n, i, written, other, 2);
  }

  lemma GapKept(c2: seq<real>, c1: seq<real>, n: nat, i: int, written: int, other: int, r: int)
    requires (written, other) == (DirOffset, MomOffset) || (written, other) == (MomOffset, DirOffset)
    requires 0 <= r < 3
    requires KeptOutside(c2, c1, written, ScrewSize, n, 3)
    ensures Get(c2, Slot(other, ScrewSize, i) + r) == Get(c1, Slot(other, ScrewSize, i) + r)
  {
    var gap := other - written + r;
    assert Slot(other, ScrewSize, i) + r == Slot(written, ScrewSize, i) + gap;
    GapOutsideRuns(Slot(other, ScrewSize, i) + r, written, ScrewSize, n, 3, i, gap);
  }
}
