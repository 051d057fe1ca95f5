// Changing the frame of an articulated-body inertia (src/joint.c:326-404):
// an inertia given in the distal frame of a pose, expressed in the proximal
// frame, in the same tuple form.

module ArticulatedTransform {
  import opened Buffers
  import opened Spatial
  import opened Blas
  import opened Vector3
  import opened Screws
  import opened Articulated

  // ---------------------------------------------------------------------------
  // Specification
  // ---------------------------------------------------------------------------

  /** R X R^T: a block carried into the rotated frame. */
  function Rotated(r: Mat3, x: Mat3): Mat3
  {
    Mul(r, Mul(x, Transpose(r)))
  }

  /** The inertia of the distal frame x seen from the proximal one, with
      R = x.rot and [r]x the skew matrix of x.pos:
        M' = R M R^T,
        H' = R H R^T + [r]x M',
        I' = R I R^T + [r]x (R H R^T)^T - H' [r]x. */
  function TfProxAbi(x: Pose, a: Abi): Abi
  {
    var rx := Skew(x.pos);
    var m := Rotated(x.rot, a.m);
    var rhrt := Rotated(x.rot, a.h);
    var h := MatPlus(rhrt, Mul(rx, m));
    Abi(MatMinus(MatPlus(Rotated(x.rot, a.i), Mul(rx, Transpose(rhrt))), Mul(h, rx)), h, m)
  }

  // ---------------------------------------------------------------------------
  // Kernel
  // ---------------------------------------------------------------------------

  /** dyn2b_tf_prox_abi3: the temporaries mrt, hrt, rhrt, irt and rx of the
      kernel are fresh arrays here. */
  method TfProxAbi3(tf: seq<real>, input: seq<real>, out: array<real>)
    requires |tf| >= PoseSize && |input| >= AbiSize && out.Length >= AbiSize
    modifies out
    ensures AbiAt(out[..], 0) == TfProxAbi(PoseAt(tf, 0), AbiAt(input, 0))
    ensures forall p :: AbiSize <= p < out.Length ==> out[p] == old(out[p])
  {
    ghost var x, a := PoseAt(tf, 0), AbiAt(input, 0);
    ghost var s0 := out[..];

    // M' = R M R^T
    RotateBlock(tf, input, AbiMOffset, out, AbiMOffset);
    ghost var s1 := out[..];
    ghost var m := Mat3At(s1, AbiMOffset);

    // R H R^T
    var rhrt := new real[9];
    RotateBlock(tf, input, AbiHOffset, rhrt, 0);
    ghost var g := Mat3At(rhrt[..], 0);

    // H' = R H R^T + [r]x M'
    CadVec3(3, rhrt[..], 0, 3, tf, PoseLinOffset, 0, out[..], AbiMOffset, 3, out, AbiHOffset, 3);
    ghost var s2 := out[..];
    CrossAddBlock(s2, s1, rhrt[..], tf);
    ContiguousRuns(s2, s1, AbiHOffset, 3, 3);
    Mat3Kept(s2, s1, AbiHOffset, 9, AbiMOffset);

    // I' = R I R^T + [r]x (R H R^T)^T - H' [r]x
    RotateBlock(tf, input, 0, out, 0);
    ghost var s3 := out[..];
    Mat3Kept(s3, s2, 0, 9, AbiHOffset);
    Mat3Kept(s3, s2, 0, 9, AbiMOffset);
    InertiaBlock(tf, rhrt[..], out);
    ghost var s4 := out[..];
    Mat3Kept(s4, s3, 0, 9, AbiHOffset);
    Mat3Kept(s4, s3, 0, 9, AbiMOffset);

    forall p | AbiSize <= p < out.Length
      ensures s4[p] == s0[p]
    {
      SingleRun(p, 0, 9, 9);
      SingleRun(p, AbiHOffset, 9, 9);
      SingleRun(p, AbiMOffset, 9, 9);
    }
  }

  /** The pair of products R (X R^T) the kernel forms for each block, through a
      temporary for X R^T; X is the block at offset o of the input. */
  method RotateBlock(tf: seq<real>, input: seq<real>, o: int, out: array<real>, oo: int)
    requires |tf| >= PoseSize && 0 <= o && o + 9 <= |input|
    requires 0 <= oo && oo + 9 <= out.Length
    modifies out
    ensures Mat3At(out[..], oo) == Rotated(Mat3At(tf, 0), Mat3At(input, o))
    ensures KeptOutside(out[..], old(out[..]), oo, 9, 1, 9)
  {
    var xrt := new real[9];
    Product(View(input, o, 3, Plain), View(tf, 0, 3, Trans), xrt, 0);
    PlainBlock(input, o);
    TransBlock(tf, 0);
    var t := xrt[..];
    Product(View(tf, 0, 3, Plain), View(t, 0, 3, Plain), out, oo);
    PlainBlock(tf, 0);
    PlainBlock(t, 0);
  }

  /** One of the two cblas_dgemm calls of RotateBlock (alpha = 1, beta = 0):
      the 3x3 block at oc becomes op(A) op(B). */
  method Product(a: View, b: View, c: array<real>, oc: int)
    requires 0 <= oc && oc + 9 <= c.Length
    modifies c
    ensures Mat3At(c[..], oc) == Mul(Block3(a), Block3(b))
    ensures KeptOutside(c[..], old(c[..]), oc, 9, 1, 9)
  {
    Gemm33(1.0, a, b, 0.0, c, oc, Mat3At(c[..], oc));
  }

  /** The two accumulations onto R I R^T: + [r]x (R H R^T)^T, then - H' [r]x
      with H' read from the output. */
  method InertiaBlock(tf: seq<real>, rhrt: seq<real>, out: array<real>)
    requires |tf| >= PoseSize && |rhrt| >= 9 && out.Length >= AbiSize
    modifies out
    ensures Mat3At(out[..], 0)
         == MatMinus(MatPlus(old(Mat3At(out[..], 0)), Mul(Skew(Vec3At(tf, PoseLinOffset)), Transpose(Mat3At(rhrt, 0)))),
                     Mul(old(Mat3At(out[..], AbiHOffset)), Skew(Vec3At(tf, PoseLinOffset))))
    ensures KeptOutside(out[..], old(out[..]), 0, 9, 1, 9)
  {
    ghost var s0 := out[..];
    var skw := new real[9];
    SkwVec3(tf, PoseLinOffset, skw, 0);
    PlainBlock(skw[..], 0);
    TransBlock(rhrt, 0);
    Gemm33(1.0, View(skw[..], 0, 3, Plain), View(rhrt, 0, 3, Trans), 1.0, out, 0, Mat3At(out[..], 0));
    ghost var s1 := out[..];
    Mat3Kept(s1, s0, 0, 9, AbiHOffset);
    PlainBlock(out[..], AbiHOffset);
    Gemm33(-1.0, View(out[..], AbiHOffset, 3, Plain), View(skw[..], 0, 3, Plain), 1.0, out, 0, Mat3At(out[..], 0));
  }

  /** The three columns dyn2b_cad_vec3 adds: column c of [r]x M' is r x (column
      c of M'), the position read with stride 0. */
  lemma CrossAddBlock(s2: seq<real>, s1: seq<real>, rhrt: seq<real>, tf: seq<real>)
    requires forall i :: 0 <= i < 3 ==>
      Vec3At(s2, Slot(AbiHOffset, 3, i))
        == Plus(Vec3At(rhrt, Slot(0, 3, i)), Cross(Vec3At(tf, Slot(PoseLinOffset, 0, i)), Vec3At(s1, Slot(AbiMOffset, 3, i))))
    ensures Mat3At(s2, AbiHOffset)
         == MatPlus(Mat3At(rhrt, 0), Mul(Skew(Vec3At(tf, PoseLinOffset)), Mat3At(s1, AbiMOffset)))
  {
    var r, m := Vec3At(tf, PoseLinOffset), Mat3At(s1, AbiMOffset);
    var h, p := Mat3At(s2, AbiHOffset), Mat3At(rhrt, 0);
    assert h.c0 == Vec3At(s2, Slot(AbiHOffset, 3, 0)) && p.c0 == Vec3At(rhrt, Slot(0, 3, 0));
    assert h.c1 == Vec3At(s2, Slot(AbiHOffset, 3, 1)) && p.c1 == Vec3At(rhrt, Slot(0, 3, 1));
    assert h.c2 == Vec3At(s2, Slot(AbiHOffset, 3, 2)) && p.c2 == Vec3At(rhrt, Slot(0, 3, 2));
    assert m == Mat3(Vec3At(s1, Slot(AbiMOffset, 3, 0)), Vec3At(s1, Slot(AbiMOffset, 3, 1)), Vec3At(s1, Slot(AbiMOffset, 3, 2)));
    assert r == Vec3At(tf, Slot(PoseLinOffset, 0, 0)) == Vec3At(tf, Slot(PoseLinOffset, 0, 1)) == Vec3At(tf, Slot(PoseLinOffset, 0, 2));
    CrossAddColumns(h, p, r, m);
  }

  /** A block whose columns are p_c + r x m_c is P + [r]x M. */
  lemma CrossAddColumns(h: Mat3, p: Mat3, r: Vec3, m: Mat3)
    requires h.c0 == Plus(p.c0, Cross(r, m.c0))
    requires h.c1 == Plus(p.c1, Cross(r, m.c1))
    requires h.c2 == Plus(p.c2, Cross(r, m.c2))
    ensures h == MatPlus(p, Mul(Skew(r), m))
  {
    SkewMul(r, m);
  }

  // ---------------------------------------------------------------------------
  // Properties
  // ---------------------------------------------------------------------------

  /** R X R^T applied to R w is R (X w) when R is a rotation. */
  lemma RotatedApply(r: Mat3, x: Mat3, w: Vec3)
    requires Orthonormal(r)
    ensures Apply(Rotated(r, x), Apply(r, w)) == Apply(r, Apply(x, w))
  {
    ApplyMul(r, Mul(x, Transpose(r)), Apply(r, w));
    ApplyMul(x, Transpose(r), Apply(r, w));
    ApplyMul(Transpose(r), r, w);
    ApplyIdentity(w);
  }

  /** (R X R^T)^T = R X^T R^T. */
  lemma RotatedTranspose(r: Mat3, x: Mat3)
    ensures Transpose(Rotated(r, x)) == Rotated(r, Transpose(x))
  {
    TransposeMul(r, Mul(x, Transpose(r)));
    TransposeMul(x, Transpose(r));
    TransposeInvolutive(r);
    MulAssoc(r, Transpose(x), Transpose(r));
  }

  lemma SkewTransposeApply(p: Vec3, d: Vec3)
    ensures Apply(Transpose(Skew(p)), d) == Neg(Cross(p, d))
  {
  }

  /** The force the transformed inertia exerts on the transformed twist is the
      rotated force. */
  lemma {:induction false} TfProxAbiForce(x: Pose, a: Abi, t: Screw)
    requires Orthonormal(x.rot) && Symmetric(a.m)
    ensures AbiWrench(TfProxAbi(x, a), TfProx(x, t)).dir == Apply(x.rot, AbiWrench(a, t).dir)
  {
    var r, rx := x.rot, Skew(x.pos);
    var m, g := Rotated(r, a.m), Rotated(r, a.h);
    var h := MatPlus(g, Mul(rx, m));
    var d := Apply(r, t.dir);
    var c := Cross(x.pos, d);
    var v := Plus(Apply(r, t.mom), c);
    // H'^T d = R H^T w - M' (r x d)
    RotatedTranspose(r, a.m);
    assert Transpose(m) == m;
    TransposePlus(g, Mul(rx, m));
    TransposeMul(rx, m);
    RotatedTranspose(r, a.h);
    ApplyMatPlus(Transpose(g), Mul(m, Transpose(rx)), d);
    RotatedApply(r, Transpose(a.h), t.dir);
    ApplyMul(m, Transpose(rx), d);
    SkewTransposeApply(x.pos, d);
    var ht := Apply(r, Apply(Transpose(a.h), t.dir));
    var mc := Apply(m, c);
    ApplyNeg(m, c);
    assert Apply(Transpose(h), d) == Plus(ht, Neg(mc));
    // M' v = R M v + M' (r x d)
    ApplyPlus(m, Apply(r, t.mom), c);
    RotatedApply(r, a.m, t.mom);
    var mv := Apply(r, Apply(a.m, t.mom));
    assert Apply(m, v) == Plus(mv, mc);
    ApplyPlus(r, Apply(Transpose(a.h), t.dir), Apply(a.m, t.mom));
  }

  /** The moment the transformed inertia exerts on the transformed twist is the
      rotated moment plus the moment of the rotated force about the origin. */
  lemma {:induction false} TfProxAbiMoment(x: Pose, a: Abi, t: Screw)
    requires Orthonormal(x.rot)
    ensures AbiWrench(TfProxAbi(x, a), TfProx(x, t)).mom
         == Plus(Apply(x.rot, AbiWrench(a, t).mom), Cross(x.pos, Apply(x.rot, AbiWrench(a, t).dir)))
  {
    var r, p, rx := x.rot, x.pos, Skew(x.pos);
    var m, g := Rotated(r, a.m), Rotated(r, a.h);
    var h := MatPlus(g, Mul(rx, m));
    var i := MatMinus(MatPlus(Rotated(r, a.i), Mul(rx, Transpose(g))), Mul(h, rx));
    var d := Apply(r, t.dir);
    var c := Cross(p, d);
    var u := Apply(r, t.mom);
    var v := Plus(u, c);
    // Atoms of the identity.
    var hv := Apply(r, Apply(a.h, t.mom));
    var iw := Apply(r, Apply(a.i, t.dir));
    var mv := Apply(r, Apply(a.m, t.mom));
    var htw := Apply(r, Apply(Transpose(a.h), t.dir));
    var gc := Apply(g, c);
    var mc := Apply(m, c);
    // H' v' = R H v + G (r x d) + r x (R M v) + r x (M' (r x d))
    ApplyMatPlus(g, Mul(rx, m), v);
    ApplyPlus(g, u, c);
    RotatedApply(r, a.h, t.mom);
    ApplyMul(rx, m, v);
    ApplyPlus(m, u, c);
    RotatedApply(r, a.m, t.mom);
    SkewApply(p, Apply(m, v));
    CrossPlus(mv, mc, p);
    assert Apply(h, v) == Plus(Plus(hv, gc), Plus(Cross(p, mv), Cross(p, mc)));
    // I' d = R I w + r x (R H^T w) - G (r x d) - r x (M' (r x d))
    ApplyMatPlus(MatPlus(Rotated(r, a.i), Mul(rx, Transpose(g))), Mul(h, rx), d);
    ApplyMatPlus(Rotated(r, a.i), Mul(rx, Transpose(g)), d);
    RotatedApply(r, a.i, t.dir);
    ApplyMul(rx, Transpose(g), d);
    RotatedTranspose(r, a.h);
    RotatedApply(r, Transpose(a.h), t.dir);
    SkewApply(p, htw);
    ApplyMul(h, rx, d);
    SkewApply(p, d);
    ApplyMatPlus(g, Mul(rx, m), c);
    ApplyMul(rx, m, c);
    SkewApply(p, mc);
    assert Apply(i, d) == Minus(Plus(iw, Cross(p, htw)), Plus(gc, Cross(p, mc)));
    // The rotated wrench.
    ApplyPlus(r, Apply(a.h, t.mom), Apply(a.i, t.dir));
    ApplyPlus(r, Apply(Transpose(a.h), t.dir), Apply(a.m, t.mom));
    CrossPlus(htw, mv, p);
  }

  /** dyn2b_tf_prox_abi3 is the change of frame of the inertia: the wrench the
      transformed inertia exerts on a transformed twist is the transformed
      wrench (X^-T I X^-1 applied to X t is X^-T I t). */
  lemma TfProxAbiCovariant(x: Pose, a: Abi, t: Screw)
    requires Orthonormal(x.rot) && Symmetric(a.m)
    ensures AbiWrench(TfProxAbi(x, a), TfProx(x, t)) == TfProx(x, AbiWrench(a, t))
  {
    TfProxAbiForce(x, a, t);
    TfProxAbiMoment(x, a, t);
  }

  /** The transformed inertia is symmetric when the original is: M' is R M R^T,
      and I' = R I R^T + [r]x G^T - G [r]x - [r]x M' [r]x with G = R H R^T. */
  lemma TfProxAbiSymmetric(x: Pose, a: Abi)
    requires SymmetricAbi(a)
    ensures SymmetricAbi(TfProxAbi(x, a))
  {
    RotatedTranspose(x.rot, a.m);
    RotatedTranspose(x.rot, a.i);
    SandwichSymmetric(Rotated(x.rot, a.i), Rotated(x.rot, a.h), Rotated(x.rot, a.m), x.pos);
  }

  lemma SandwichSymmetric(c: Mat3, g: Mat3, s: Mat3, p: Vec3)
    requires Symmetric(c) && Symmetric(s)
    ensures Symmetric(MatMinus(MatPlus(c, Mul(Skew(p), Transpose(g))), Mul(MatPlus(g, Mul(Skew(p), s)), Skew(p))))
  {
    var rx := Skew(p);
    var pg, gp, psp := Mul(rx, Transpose(g)), Mul(g, rx), Mul(Mul(rx, s), rx);
    MulPlusLeft(g, Mul(rx, s), rx);
    SkewCommutatorSymmetric(g, p);
    SkewSquareSymmetric(s, p);
    var i := MatMinus(MatPlus(c, pg), MatPlus(gp, psp));
    assert c.c1.x == c.c0.y && c.c2.x == c.c0.z && c.c2.y == c.c1.z;
    assert pg.c1.x - gp.c1.x == pg.c0.y - gp.c0.y;
    assert pg.c2.x - gp.c2.x == pg.c0.z - gp.c0.z;
    assert pg.c2.y - gp.c2.y == pg.c1.z - gp.c1.z;
    assert psp.c1.x == psp.c0.y && psp.c2.x == psp.c0.z && psp.c2.y == psp.c1.z;
  }

  /** [r]x G^T - G [r]x is symmetric for every G. */
  lemma SkewCommutatorSymmetric(g: Mat3, p: Vec3)
    ensures Symmetric(MatMinus(Mul(Skew(p), Transpose(g)), Mul(g, Skew(p))))
  {
  }

  /** [r]x S [r]x is symmetric when S is: its transpose is [-r]x S [-r]x. */
  lemma SkewSquareSymmetric(s: Mat3, p: Vec3)
    requires Symmetric(s)
    ensures Symmetric(Mul(Mul(Skew(p), s), Skew(p)))
  {
    var rx, nx := Skew(p), Skew(Neg(p));
    assert Transpose(rx) == nx;
    TransposeMul(Mul(rx, s), rx);
    TransposeMul(rx, s);
    MulAssoc(rx, s, rx);
    SkewSquareNeg(s, p, Vec3(1.0, 0.0, 0.0));
    SkewSquareNeg(s, p, Vec3(0.0, 1.0, 0.0));
    SkewSquareNeg(s, p, Vec3(0.0, 0.0, 1.0));
    Mat3OfColumns(Mul(nx, Mul(s, nx)));
    Mat3OfColumns(Mul(rx, Mul(s, rx)));
  }

  /** [-r]x S [-r]x and [r]x S [r]x agree on every vector: both sign changes
      cancel. */
  lemma SkewSquareNeg(s: Mat3, p: Vec3, w: Vec3)
    ensures Apply(Mul(Skew(Neg(p)), Mul(s, Skew(Neg(p)))), w) == Apply(Mul(Skew(p), Mul(s, Skew(p))), w)
  {
    SkewSquareApply(s, Neg(p), w);
    SkewSquareApply(s, p, w);
    var c := Cross(p, w);
    CrossNeg(p, w);
    ApplyNeg(s, c);
    CrossNeg(p, Apply(s, c));
  }

  /** [r]x S [r]x w = r x (S (r x w)). */
  lemma SkewSquareApply(s: Mat3, p: Vec3, w: Vec3)
    ensures Apply(Mul(Skew(p), Mul(s, Skew(p))), w) == Cross(p, Apply(s, Cross(p, w)))
  {
    ApplyMul(Skew(p), Mul(s, Skew(p)), w);
    ApplyMul(s, Skew(p), w);
    SkewApply(p, w);
    SkewApply(p, Apply(s, Cross(p, w)));
  }

  lemma CrossNeg(p: Vec3, w: Vec3)
    ensures Cross(Neg(p), w) == Neg(Cross(p, w))
    ensures Cross(Neg(p), Neg(w)) == Cross(p, w)
  {
  }

  /** A matrix is determined by its action on the three unit vectors. */
  lemma Mat3OfColumns(a: Mat3)
    ensures a == Mat3(Apply(a, Vec3(1.0, 0.0, 0.0)), Apply(a, Vec3(0.0, 1.0, 0.0)), Apply(a, Vec3(0.0, 0.0, 1.0)))
  {
  }

  lemma MulPlusLeft(a: Mat3, b: Mat3, c: Mat3)
    ensures Mul(MatPlus(a, b), c) == MatPlus(Mul(a, c), Mul(b, c))
  {
    ApplyMatSum(a, b, c.c0);
    ApplyMatSum(a, b, c.c1);
    ApplyMatSum(a, b, c.c2);
  }

  /** The identity pose leaves an inertia unchanged. */
  lemma TfProxAbiIdentity(a: Abi)
    ensures TfProxAbi(IdentityPose, a) == a
  {
    RotatedIdentity(a.i);
    RotatedIdentity(a.h);
    RotatedIdentity(a.m);
    var z := Skew(Zero3);
    assert Mul(z, a.m) == MatScale(0.0, a.m);
    assert Mul(z, Transpose(a.h)) == MatScale(0.0, a.h);
    assert Mul(a.h, z) == MatScale(0.0, a.h);
  }

  lemma RotatedIdentity(x: Mat3)
    ensures Rotated(Identity3, x) == x
  {
    assert Transpose(Identity3) == Identity3;
    MulIdentity(x);
  }
}
