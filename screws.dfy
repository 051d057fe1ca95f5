// Screw kernels (src/screw.c): pose composition, the pairing of dual screws,
// the screw cross product and cross-add, and the change of frame of a batch of
// screws in both directions. A batch of n screws occupies 6 n slots, screw i
// starting at slot 6 i.

module Screws {
  import opened Buffers
  import opened Spatial
  import opened Blas
  import opened Vector3

  // ---------------------------------------------------------------------------
  // Specification
  // ---------------------------------------------------------------------------

  /** Screw i of a batch. */
  function ScrewOf(s: seq<real>, i: int): Screw
  {
    ScrewAt(s, Slot(0, ScrewSize, i))
  }

  /** The first screw of a buffer is its direction followed by its moment. */
  lemma FirstScrew(s: seq<real>)
    ensures ScrewOf(s, 0) == Screw(Vec3At(s, DirOffset), Vec3At(s, MomOffset))
  {
    assert Slot(0, ScrewSize, 0) == 0;
  }

  /** The pose of the distal frame seen from the proximal one's parent: rotations
      multiply and the distal position is rotated into place. */
  function Compose(prox: Pose, dist: Pose): Pose
  {
    Pose(Mul(prox.rot, dist.rot), Plus(Apply(prox.rot, dist.pos), prox.pos))
  }

  /** The pairing of a dual screw with a screw (the power of a wrench on a
      twist): each direction against the other's moment. */
  function Pairing(dual: Screw, s: Screw): real
  {
    Spatial.Dot(dual.mom, s.dir) + Spatial.Dot(dual.dir, s.mom)
  }

  /** The screw cross product (motion cross motion). */
  function ScrewCross(a: Screw, b: Screw): Screw
  {
    Screw(Cross(a.dir, b.dir), Plus(Cross(a.dir, b.mom), Cross(a.mom, b.dir)))
  }

  /** The cross-add a + b x c, grouped as the library accumulates it. */
  function ScrewCrossAdd(a: Screw, b: Screw, c: Screw): Screw
  {
    Screw(Plus(a.dir, Cross(b.dir, c.dir)), Plus(Plus(a.mom, Cross(b.dir, c.mom)), Cross(b.mom, c.dir)))
  }

  /** A screw given in the proximal frame, expressed in the distal frame x
      (the inverse motion transform X^-1). */
  function TfDist(x: Pose, s: Screw): Screw
  {
    Screw(Apply(Transpose(x.rot), s.dir), Apply(Transpose(x.rot), Plus(s.mom, Cross(s.dir, x.pos))))
  }

  /** A screw given in the distal frame x, expressed in the proximal frame
      (the motion transform X). */
  function TfProx(x: Pose, s: Screw): Screw
  {
    var d := Apply(x.rot, s.dir);
    Screw(d, Plus(Apply(x.rot, s.mom), Cross(x.pos, d)))
  }

  // ---------------------------------------------------------------------------
  // Kernels
  // ---------------------------------------------------------------------------

  /** dyn2b_cmp_pose3: x_comp = x_prox x_dist. */
  method CmpPose3(xProx: seq<real>, xDist: seq<real>, xComp: array<real>)
    requires |xProx| >= PoseSize && |xDist| >= PoseSize && xComp.Length >= PoseSize
    modifies xComp
    ensures PoseAt(xComp[..], 0) == Compose(PoseAt(xProx, 0), PoseAt(xDist, 0))
    ensures KeptOutside(xComp[..], old(xComp[..]), 0, PoseSize, 1, PoseSize)
  {
    ghost var c0 := xComp[..];
    var rp, rd := View(xProx, 0, 3, Plain), View(xDist, 0, 3, Plain);
    Gemm(3, 3, 3, 1.0, rp, rd, 0.0, xComp, 0, 3);
    ghost var c1 := xComp[..];
    Copy(3, xProx, PoseLinOffset, xComp, PoseLinOffset);
    ghost var c2 := xComp[..];
    var pd := View(xDist, PoseLinOffset, 3, Plain);
    Gemm(3, 1, 3, 1.0, rp, pd, 1.0, xComp, PoseLinOffset, 3);
    ghost var c3 := xComp[..];

    PlainBlock(xProx, 0);
    forall j | 0 <= j < 3
      ensures Vec3At(c3, Slot(0, 3, j)) == Apply(Mat3At(xProx, 0), Vec3At(xDist, Slot(0, 3, j)))
    {
      GemmVec3(c1, c0, 3, 1.0, rp, rd, 0.0, 0, 3, j);
      ColumnOfBatch(xDist, 0, 3, j);
      Combine3Units(Apply(Block3(rp), Column3(rd, j)), Vec3At(c0, Slot(0, 3, j)));
      assert Vec3At(c3, Slot(0, 3, j)) == Vec3At(c1, Slot(0, 3, j)) by {
        BeforeRuns(Slot(0, 3, j), PoseLinOffset, 3, 1, 3);
        BeforeRuns(Slot(0, 3, j) + 1, PoseLinOffset, 3, 1, 3);
        BeforeRuns(Slot(0, 3, j) + 2, PoseLinOffset, 3, 1, 3);
      }
    }
    GemmVec3(c3, c2, 1, 1.0, rp, pd, 1.0, PoseLinOffset, 3, 0);
    ColumnOfBatch(xDist, PoseLinOffset, 3, 0);
    Combine3Units(Apply(Block3(rp), Column3(pd, 0)), Vec3At(c2, PoseLinOffset));
    assert Vec3At(c2, PoseLinOffset) == Vec3At(xProx, PoseLinOffset);
    forall p | 0 <= p < |c3| && OutsideRuns(p, 0, PoseSize, 1, PoseSize)
      ensures c3[p] == c0[p]
    {
      BeyondRuns(p, 0, 3, 3, 3);
      BeyondRuns(p, PoseLinOffset, 3, 1, 3);
    }
  }

  /** dyn2b_dot_screw3: out[i + j m] is the pairing of dual screw i with screw
      j, for an m x n result (m >= 1, n >= 1). */
  method DotScrew3(m: nat, n: nat, sDual: seq<real>, s: seq<real>, out: array<real>)
    requires m >= 1 && n >= 1
    requires |sDual| >= ScrewSize * m && |s| >= ScrewSize * n
    requires Slot(0, m, n - 1) + m <= out.Length
    modifies out
    ensures forall i, j :: 0 <= i < m && 0 <= j < n ==>
      Get(out[..], Entry(0, m, i, j)) == Pairing(ScrewOf(sDual, i), ScrewOf(s, j))
    ensures KeptOutside(out[..], old(out[..]), 0, m, n, m)
  {
    ghost var c0 := out[..];
    var dualDir, mom := View(sDual, DirOffset, ScrewSize, Trans), View(s, MomOffset, ScrewSize, Plain);
    Gemm(m, n, 3, 1.0, dualDir, mom, 0.0, out, 0, m);
    ghost var c1 := out[..];
    var dualMom, dir := View(sDual, MomOffset, ScrewSize, Trans), View(s, DirOffset, ScrewSize, Plain);
    Gemm(m, n, 3, 1.0, dualMom, dir, 1.0, out, 0, m);
    forall i, j | 0 <= i < m && 0 <= j < n
      ensures Get(out[..], Entry(0, m, i, j)) == Pairing(ScrewOf(sDual, i), ScrewOf(s, j))
    {
      Dot3(dualDir, mom, i, j);
      Dot3(dualMom, dir, i, j);
      RowOfTrans(sDual, DirOffset, ScrewSize, i);
      RowOfTrans(sDual, MomOffset, ScrewSize, i);
      ColumnOfBatch(s, DirOffset, ScrewSize, j);
      ColumnOfBatch(s, MomOffset, ScrewSize, j);
      assert Get(c1, Entry(0, m, i, j)) == Scaled(1.0, Blas.Dot(dualDir, mom, i, j, 3), 0.0, Get(c0, Entry(0, m, i, j)));
    }
    KeptTrans(out[..], c1, c0, 0, m, n, m);
  }

  /** dyn2b_crs_screw3: out = s1 x s2. */
  method CrsScrew3(s1: seq<real>, s2: seq<real>, out: array<real>)
    requires |s1| >= ScrewSize && |s2| >= ScrewSize && out.Length >= ScrewSize
    modifies out
    ensures ScrewOf(out[..], 0) == ScrewCross(ScrewOf(s1, 0), ScrewOf(s2, 0))
    ensures KeptOutside(out[..], old(out[..]), 0, ScrewSize, 1, ScrewSize)
  {
    ghost var c0 := out[..];
    CrsVec3(1, s1, DirOffset, ScrewSize, s2, DirOffset, ScrewSize, out, DirOffset, ScrewSize);
    ghost var c1 := out[..];
    var tmp := new real[ScrewSize];
    CrsVec3(1, s1, DirOffset, ScrewSize, s2, MomOffset, ScrewSize, tmp, MomOffset, ScrewSize);
    CadVec3(1, tmp[..], MomOffset, ScrewSize, s1, MomOffset, ScrewSize, s2, DirOffset, ScrewSize,
            out, MomOffset, ScrewSize);
    HalvesKept(out[..], c1, 1, 0, MomOffset);
    SplitRuns(out[..], c1, c0, 0, ScrewSize, 1, 3, 3);
  }

  /** dyn2b_cad_screw3: out = s1 + s2 x s3. */
  method CadScrew3(s1: seq<real>, s2: seq<real>, s3: seq<real>, out: array<real>)
    requires |s1| >= ScrewSize && |s2| >= ScrewSize && |s3| >= ScrewSize && out.Length >= ScrewSize
    modifies out
    ensures ScrewOf(out[..], 0) == ScrewCrossAdd(ScrewOf(s1, 0), ScrewOf(s2, 0), ScrewOf(s3, 0))
    ensures KeptOutside(out[..], old(out[..]), 0, ScrewSize, 1, ScrewSize)
  {
    ghost var c0 := out[..];
    CadVec3(1, s1, DirOffset, ScrewSize, s2, DirOffset, ScrewSize, s3, DirOffset, ScrewSize,
            out, DirOffset, ScrewSize);
    ghost var c1 := out[..];
    var tmp := new real[ScrewSize];
    CadVec3(1, s1, MomOffset, ScrewSize, s2, DirOffset, ScrewSize, s3, MomOffset, ScrewSize,
            tmp, MomOffset, ScrewSize);
    CadVec3(1, tmp[..], MomOffset, ScrewSize, s2, MomOffset, ScrewSize, s3, DirOffset, ScrewSize,
            out, MomOffset, ScrewSize);
    HalvesKept(out[..], c1, 1, 0, MomOffset);
    SplitRuns(out[..], c1, c0, 0, ScrewSize, 1, 3, 3);
  }

  /** dyn2b_tf_dist_screw3: every screw of a batch (n >= 1) moved from the
      proximal into the distal frame x. */
  method TfDistScrew3(n: nat, x: seq<real>, sProx: seq<real>, sDist: array<real>)
    requires n >= 1
    requires |x| >= PoseSize && |sProx| >= ScrewSize * n && sDist.Length >= ScrewSize * n
    modifies sDist
    ensures forall i :: 0 <= i < n ==> ScrewOf(sDist[..], i) == TfDist(PoseAt(x, 0), ScrewOf(sProx, i))
    ensures KeptOutside(sDist[..], old(sDist[..]), 0, ScrewSize, n, ScrewSize)
  {
    ghost var c0 := sDist[..];
    var rt, dir := View(x, 0, 3, Trans), View(sProx, DirOffset, ScrewSize, Plain);
    Gemm(3, n, 3, 1.0, rt, dir, 0.0, sDist, DirOffset, ScrewSize);
    ghost var c1 := sDist[..];
    var tmp := new real[3 * n];
    assert Slot(0, 3, n - 1) + 3 == 3 * n && Slot(PoseLinOffset, 0, n - 1) == PoseLinOffset;
    CadVec3(n, sProx, MomOffset, ScrewSize, sProx, DirOffset, ScrewSize, x, PoseLinOffset, 0, tmp, 0, 3);
    var shifted := View(tmp[..], 0, 3, Plain);
    Gemm(3, n, 3, 1.0, rt, shifted, 0.0, sDist, MomOffset, ScrewSize);
    ghost var c2 := sDist[..];

    forall i | 0 <= i < n
      ensures ScrewOf(c2, i) == TfDist(PoseAt(x, 0), ScrewOf(sProx, i))
    {
      TfDistColumn(x, sProx, tmp[..], c2, c1, c0, n, i);
    }
    SplitRuns(c2, c1, c0, 0, ScrewSize, n, 3, 3);
  }

  /** dyn2b_tf_prox_screw3: every screw of a batch (n >= 1) moved from the
      distal frame x into the proximal frame. The moment half is first set to
      r x (R dir), computed from the direction half just written, and R mom is
      then accumulated into it. */
  method TfProxScrew3(n: nat, x: seq<real>, sDist: seq<real>, sProx: array<real>)
    requires n >= 1
    requires |x| >= PoseSize && |sDist| >= ScrewSize * n && sProx.Length >= ScrewSize * n
    modifies sProx
    ensures forall i :: 0 <= i < n ==> ScrewOf(sProx[..], i) == TfProx(PoseAt(x, 0), ScrewOf(sDist, i))
    ensures KeptOutside(sProx[..], old(sProx[..]), 0, ScrewSize, n, ScrewSize)
  {
    ghost var c0 := sProx[..];
    var r, dir := View(x, 0, 3, Plain), View(sDist, DirOffset, ScrewSize, Plain);
    Gemm(3, n, 3, 1.0, r, dir, 0.0, sProx, DirOffset, ScrewSize);
    ghost var c1 := sProx[..];
    CrsVec3(n, x, PoseLinOffset, 0, sProx[..], DirOffset, ScrewSize, sProx, MomOffset, ScrewSize);
    ghost var c2 := sProx[..];
    var mom := View(sDist, MomOffset, ScrewSize, Plain);
    Gemm(3, n, 3, 1.0, r, mom, 1.0, sProx, MomOffset, ScrewSize);
    ghost var c3 := sProx[..];

    forall i | 0 <= i < n
      ensures ScrewOf(c3, i) == TfProx(PoseAt(x, 0), ScrewOf(sDist, i))
    {
      TfProxColumn(x, sDist, c3, c2, c1, c0, n, i);
    }
    KeptTrans(c3, c2, c1, MomOffset, ScrewSize, n, 3);
    SplitRuns(c3, c1, c0, 0, ScrewSize, n, 3, 3);
  }

  /** Screw i after the three steps of dyn2b_tf_dist_screw3: the rotated
      direction, the shifted moment in tmp, and the rotated moment. */
  lemma TfDistColumn(x: seq<real>, sProx: seq<real>, tmp: seq<real>, c2: seq<real>, c1: seq<real>, c0: seq<real>,
                     n: nat, i: int)
    requires GemmDone(c1, c0, 3, n, 3, 1.0, View(x, 0, 3, Trans), View(sProx, DirOffset, ScrewSize, Plain), 0.0,
                      DirOffset, ScrewSize)
    requires GemmDone(c2, c1, 3, n, 3, 1.0, View(x, 0, 3, Trans), View(tmp, 0, 3, Plain), 0.0,
                      MomOffset, ScrewSize)
    requires KeptOutside(c2, c1, MomOffset, ScrewSize, n, 3)
    requires forall k :: 0 <= k < n ==>
      Vec3At(tmp, Slot(0, 3, k))
        == Plus(Vec3At(sProx, Slot(MomOffset, ScrewSize, k)),
                Cross(Vec3At(sProx, Slot(DirOffset, ScrewSize, k)), Vec3At(x, Slot(PoseLinOffset, 0, k))))
    requires 0 <= i < n
    ensures ScrewOf(c2, i) == TfDist(PoseAt(x, 0), ScrewOf(sProx, i))
  {
    var rt, dir, shifted := View(x, 0, 3, Trans), View(sProx, DirOffset, ScrewSize, Plain), View(tmp, 0, 3, Plain);
    TransBlock(x, 0);
    GemmVec3(c1, c0, n, 1.0, rt, dir, 0.0, DirOffset, ScrewSize, i);
    GemmVec3(c2, c1, n, 1.0, rt, shifted, 0.0, MomOffset, ScrewSize, i);
    ColumnOfBatch(sProx, DirOffset, ScrewSize, i);
    ColumnOfBatch(tmp, 0, 3, i);
    HalvesKept(c2, c1, n, i, MomOffset);
    Combine3Units(Apply(Block3(rt), Column3(dir, i)), Vec3At(c0, Slot(DirOffset, ScrewSize, i)));
    Combine3Units(Apply(Block3(rt), Column3(shifted, i)), Vec3At(c1, Slot(MomOffset, ScrewSize, i)));
    assert Slot(PoseLinOffset, 0, i) == PoseLinOffset;
  }

  /** Screw i after the three steps of dyn2b_tf_prox_screw3: the rotated
      direction, r crossed with it, and the rotated moment added on. */
  lemma TfProxColumn(x: seq<real>, sDist: seq<real>, c3: seq<real>, c2: seq<real>, c1: seq<real>, c0: seq<real>,
                     n: nat, i: int)
    requires GemmDone(c1, c0, 3, n, 3, 1.0, View(x, 0, 3, Plain), View(sDist, DirOffset, ScrewSize, Plain), 0.0,
                      DirOffset, ScrewSize)
    requires forall k :: 0 <= k < n ==>
      Vec3At(c2, Slot(MomOffset, ScrewSize, k)) == Cross(Vec3At(x, Slot(PoseLinOffset, 0, k)), Vec3At(c1, Slot(DirOffset, ScrewSize, k)))
    requires KeptOutside(c2, c1, MomOffset, ScrewSize, n, 3)
    requires GemmDone(c3, c2, 3, n, 3, 1.0, View(x, 0, 3, Plain), View(sDist, MomOffset, ScrewSize, Plain), 1.0,
                      MomOffset, ScrewSize)
    requires KeptOutside(c3, c2, MomOffset, ScrewSize, n, 3)
    requires 0 <= i < n
    ensures ScrewOf(c3, i) == TfProx(PoseAt(x, 0), ScrewOf(sDist, i))
  {
    var r, dir, mom := View(x, 0, 3, Plain), View(sDist, DirOffset, ScrewSize, Plain), View(sDist, MomOffset, ScrewSize, Plain);
    PlainBlock(x, 0);
    GemmVec3(c1, c0, n, 1.0, r, dir, 0.0, DirOffset, ScrewSize, i);
    GemmVec3(c3, c2, n, 1.0, r, mom, 1.0, MomOffset, ScrewSize, i);
    ColumnOfBatch(sDist, DirOffset, ScrewSize, i);
    ColumnOfBatch(sDist, MomOffset, ScrewSize, i);
    HalvesKept(c2, c1, n, i, MomOffset);
    HalvesKept(c3, c2, n, i, MomOffset);
    Combine3Units(Apply(Block3(r), Column3(dir, i)), Vec3At(c0, Slot(DirOffset, ScrewSize, i)));
    Combine3Units(Apply(Block3(r), Column3(mom, i)), Vec3At(c2, Slot(MomOffset, ScrewSize, i)));
    assert Slot(PoseLinOffset, 0, i) == PoseLinOffset;
  }

  // ---------------------------------------------------------------------------
  // Properties
  // ---------------------------------------------------------------------------

  /** The proximal transform undoes the distal one (X X^-1 = 1) for a rotation
      block with R R^T = I. */
  lemma {:induction false} TfProxUndoesTfDist(x: Pose, s: Screw)
    requires Orthonormal(x.rot)
    ensures TfProx(x, TfDist(x, s)) == s
  {
    var d := TfDist(x, s);
    ApplyInverse(x.rot, s.dir);
    ApplyInverse(x.rot, Plus(s.mom, Cross(s.dir, x.pos)));
    CrossAntiCommutes(s.dir, x.pos);
    assert TfProx(x, d).mom == Plus(Plus(s.mom, Cross(s.dir, x.pos)), Cross(x.pos, s.dir));
  }

  /** The distal transform undoes the proximal one (X^-1 X = 1) for a rotation
      block with R^T R = I. */
  lemma {:induction false} TfDistUndoesTfProx(x: Pose, s: Screw)
    requires Orthonormal(x.rot)
    ensures TfDist(x, TfProx(x, s)) == s
  {
    var rt := Transpose(x.rot);
    TransposeInvolutive(x.rot);
    var p := TfProx(x, s);
    ApplyInverse(rt, s.dir);
    ApplyInverse(rt, s.mom);
    CrossAntiCommutes(x.pos, p.dir);
    assert Plus(p.mom, Cross(p.dir, x.pos)) == Apply(x.rot, s.mom);
  }

  /** The identity pose changes no screw. */
  lemma TfIdentity(s: Screw)
    ensures TfDist(IdentityPose, s) == s && TfProx(IdentityPose, s) == s
  {
    ApplyIdentity(s.dir);
    ApplyIdentity(s.mom);
    assert Transpose(Identity3) == Identity3;
  }

  /** With R = Id only the moment changes under the distal transform. */
  lemma TfDistPureTranslation(p: Vec3, s: Screw)
    ensures TfDist(Pose(Identity3, p), s).dir == s.dir
    ensures TfDist(Pose(Identity3, p), s).mom == Plus(s.mom, Cross(s.dir, p))
  {
    assert Transpose(Identity3) == Identity3;
    ApplyIdentity(s.dir);
    ApplyIdentity(Plus(s.mom, Cross(s.dir, p)));
  }

  /** The pairing of a dual screw with a screw does not depend on the frame both
      are expressed in. */
  lemma {:induction false} PairingFrameInvariant(x: Pose, w: Screw, t: Screw)
    requires Orthonormal(x.rot)
    ensures Pairing(TfDist(x, w), TfDist(x, t)) == Pairing(w, t)
  {
    var wm := Plus(w.mom, Cross(w.dir, x.pos));
    var tm := Plus(t.mom, Cross(t.dir, x.pos));
    DotPreserved(x.rot, wm, t.dir);
    DotPreserved(x.rot, w.dir, tm);
    DotPlus(w.mom, Cross(w.dir, x.pos), t.dir);
    DotPlus(t.mom, Cross(t.dir, x.pos), w.dir);
    assert Spatial.Dot(w.dir, tm) == Spatial.Dot(w.dir, t.mom) + Spatial.Dot(w.dir, Cross(t.dir, x.pos));
    TripleCancel(w.dir, t.dir, x.pos);
  }

  /** ... and therefore neither under the proximal transform. */
  lemma PairingFrameInvariantProx(x: Pose, w: Screw, t: Screw)
    requires Orthonormal(x.rot)
    ensures Pairing(TfProx(x, w), TfProx(x, t)) == Pairing(w, t)
  {
    PairingFrameInvariant(x, TfProx(x, w), TfProx(x, t));
    TfDistUndoesTfProx(x, w);
    TfDistUndoesTfProx(x, t);
  }

  /** A screw crossed with itself is zero, and the cross product anti-commutes. */
  lemma ScrewCrossProperties(a: Screw, b: Screw)
    ensures ScrewCross(a, a) == ZeroScrew
    ensures ScrewCross(a, b) == ScrewScale(-1.0, ScrewCross(b, a))
  {
  }

  /** The cross-add is the sum with the cross product. */
  lemma CrossAddIsPlusCross(a: Screw, b: Screw, c: Screw)
    ensures ScrewCrossAdd(a, b, c) == ScrewPlus(a, ScrewCross(b, c))
  {
  }

  /** Composition has the identity pose as unit on both sides. */
  lemma ComposeIdentity(x: Pose)
    ensures Compose(IdentityPose, x) == x && Compose(x, IdentityPose) == x
  {
    MulIdentity(x.rot);
    ApplyIdentity(x.pos);
    assert Apply(x.rot, Zero3) == Zero3;
  }

  /** Composition is associative. */
  lemma {:induction false} ComposeAssoc(a: Pose, b: Pose, c: Pose)
    ensures Compose(Compose(a, b), c) == Compose(a, Compose(b, c))
  {
    MulAssoc(a.rot, b.rot, c.rot);
    ApplyMul(a.rot, b.rot, c.pos);
    ApplyPlus(a.rot, Apply(b.rot, c.pos), b.pos);
  }

  /** Composing two rotations gives a rotation. */
  lemma {:induction false} ComposeOrthonormal(a: Pose, b: Pose)
    requires Orthonormal(a.rot) && Orthonormal(b.rot)
    ensures Orthonormal(Compose(a, b).rot)
  {
    var ra, rb := a.rot, b.rot;
    TransposeMul(ra, rb);
    calc {
      Mul(Transpose(Mul(ra, rb)), Mul(ra, rb));
      Mul(Mul(Transpose(rb), Transpose(ra)), Mul(ra, rb));
      { MulAssoc(Transpose(rb), Transpose(ra), Mul(ra, rb)); }
      Mul(Transpose(rb), Mul(Transpose(ra), Mul(ra, rb)));
      { MulAssoc(Transpose(ra), ra, rb); }
      Mul(Transpose(rb), Mul(Mul(Transpose(ra), ra), rb));
      { MulIdentity(rb); }
      Mul(Transpose(rb), rb);
    }
    calc {
      Mul(Mul(ra, rb), Transpose(Mul(ra, rb)));
      Mul(Mul(ra, rb), Mul(Transpose(rb), Transpose(ra)));
      { MulAssoc(Mul(ra, rb), Transpose(rb), Transpose(ra)); }
      Mul(Mul(Mul(ra, rb), Transpose(rb)), Transpose(ra));
      { MulAssoc(ra, rb, Transpose(rb)); MulIdentity(ra); }
      Mul(ra, Transpose(ra));
    }
  }
}
