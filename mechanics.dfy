// Rigid-body mechanics (src/mechanics.c): the acceleration seen in a distal
// frame, the wrench of a rigid-body inertia on a twist or acceleration, and the
// bias (inertial) wrench. A twist is angular-first and a wrench linear-first,
// so both fit the Screw datatype: a twist's direction is its angular part, a
// wrench's direction is its linear (force) part.

module Mechanics {
  import opened Buffers
  import opened Spatial
  import opened Blas
  import opened Vector3
  import opened Screws

  /** A rigid-body inertia [I, h, m]: rotational inertia (3 x 3, column-major),
      first moment of mass h and mass m. */
  datatype Rbi = Rbi(inertia: Mat3, h: Vec3, m: real)

  const RbiHOffset := 9
  const RbiMOffset := 12
  const RbiSize := 13

  function RbiAt(s: seq<real>): Rbi
  {
    Rbi(Mat3At(s, 0), Vec3At(s, RbiHOffset), Get(s, RbiMOffset))
  }

  /** The wrench of an inertia on a twist [w; v]: force m v + w x h and moment
      I w + h x v. */
  function RbiWrench(rbi: Rbi, t: Screw): Screw
  {
    Screw(Plus(Scale(rbi.m, t.mom), Cross(t.dir, rbi.h)), Plus(Apply(rbi.inertia, t.dir), Cross(rbi.h, t.mom)))
  }

  /** The bias wrench of a body moving with twist t: t x* (M t), written as the
      library does, with the motion cross product of t and the momentum. */
  function NrtWrench(rbi: Rbi, t: Screw): Screw
  {
    ScrewCross(t, RbiWrench(rbi, t))
  }

  /** The distal acceleration X^-1 a + v_abs x v_rel. */
  function TfDistAcc(x: Pose, vAbs: Screw, vRel: Screw, a: Screw): Screw
  {
    ScrewCrossAdd(TfDist(x, a), vAbs, vRel)
  }

  /** dyn2b_tf_dist_acc3. */
  method TfDistAcc3(x: seq<real>, xdAbs: seq<real>, xdRel: seq<real>, xddProx: seq<real>, xddDist: array<real>)
    requires |x| >= PoseSize && |xdAbs| >= ScrewSize && |xdRel| >= ScrewSize && |xddProx| >= ScrewSize
    requires xddDist.Length >= ScrewSize
    modifies xddDist
    ensures ScrewOf(xddDist[..], 0)
         == TfDistAcc(PoseAt(x, 0), ScrewOf(xdAbs, 0), ScrewOf(xdRel, 0), ScrewOf(xddProx, 0))
    ensures KeptOutside(xddDist[..], old(xddDist[..]), 0, ScrewSize, 1, ScrewSize)
  {
    var tmp := new real[ScrewSize];
    TfDistScrew3(1, x, xddProx, tmp);
    CadScrew3(tmp[..], xdAbs, xdRel, xddDist);
  }

  /** dyn2b_rbi_to_wrench3: each half of w is first overwritten by a cross
      product and then accumulated into, so the old contents of w never
      matter. */
  method RbiToWrench3(rbi: seq<real>, xdd: seq<real>, w: array<real>)
    requires |rbi| >= RbiSize && |xdd| >= ScrewSize && w.Length >= ScrewSize
    modifies w
    ensures ScrewOf(w[..], 0) == RbiWrench(RbiAt(rbi), ScrewOf(xdd, 0))
    ensures KeptOutside(w[..], old(w[..]), 0, ScrewSize, 1, ScrewSize)
  {
    ghost var c0 := w[..];
    MomentPart(rbi, xdd, w);
    ghost var c2 := w[..];
    ForcePart(rbi, xdd, w);
    ghost var c4 := w[..];
    assert Slot(0, ScrewSize, 0) == 0;
    assert Vec3At(c4, MomOffset) == Vec3At(c2, MomOffset);
    forall p | 0 <= p < |c4| && OutsideRuns(p, 0, ScrewSize, 1, ScrewSize)
      ensures c4[p] == c0[p]
    {
      SingleRun(p, 0, ScrewSize, ScrewSize);
      SingleRun(p, MomOffset, ScrewSize, 3);
    }
  }

  /** Lines 42-49 of dyn2b_rbi_to_wrench3: the moment half, h x v, then I w
      accumulated into it. */
  method MomentPart(rbi: seq<real>, xdd: seq<real>, w: array<real>)
    requires |rbi| >= RbiSize && |xdd| >= ScrewSize && w.Length >= ScrewSize
    modifies w
    ensures Vec3At(w[..], MomOffset) == RbiWrench(RbiAt(rbi), ScrewOf(xdd, 0)).mom
    ensures KeptOutside(w[..], old(w[..]), MomOffset, ScrewSize, 1, 3)
  {
    ghost var c0 := w[..];
    assert Slot(MomOffset, ScrewSize, 0) == MomOffset && Slot(RbiHOffset, ScrewSize, 0) == RbiHOffset;
    CrsVec3(1, rbi, RbiHOffset, ScrewSize, xdd, MomOffset, ScrewSize, w, MomOffset, ScrewSize);
    ghost var c1 := w[..];
    ghost var hv := Vec3(w[3], w[4], w[5]);
    assert hv == Vec3At(c1, MomOffset) == Cross(Vec3At(rbi, RbiHOffset), Vec3At(xdd, MomOffset));
    AddInertiaTimesAngular(rbi, xdd, w);
    MomentOfWrench(rbi, xdd);
    KeptTrans(w[..], c1, c0, MomOffset, ScrewSize, 1, 3);
  }

  lemma MomentOfWrench(rbi: seq<real>, xdd: seq<real>)
    ensures RbiWrench(RbiAt(rbi), ScrewOf(xdd, 0)).mom
         == Plus(Apply(Mat3At(rbi, 0), Vec3At(xdd, DirOffset)), Cross(Vec3At(rbi, RbiHOffset), Vec3At(xdd, MomOffset)))
  {
    FirstScrew(xdd);
  }

  /** The dgemv of dyn2b_rbi_to_wrench3: I w added to the moment half. */
  method AddInertiaTimesAngular(rbi: seq<real>, xdd: seq<real>, w: array<real>)
    requires |rbi| >= RbiSize && |xdd| >= ScrewSize && w.Length >= ScrewSize
    modifies w
    ensures Vec3At(w[..], MomOffset)
         == Plus(Apply(Mat3At(rbi, 0), Vec3At(xdd, DirOffset)), Vec3(old(w[3]), old(w[4]), old(w[5])))
    ensures KeptOutside(w[..], old(w[..]), MomOffset, ScrewSize, 1, 3)
  {
    ghost var c1 := w[..];
    var inertia, omega := View(rbi, 0, 3, Plain), View(xdd, DirOffset, 3, Plain);
    Gemm(3, 1, 3, 1.0, inertia, omega, 1.0, w, MomOffset, ScrewSize);
    PlainBlock(rbi, 0);
    GemmVec3(w[..], c1, 1, 1.0, inertia, omega, 1.0, MomOffset, ScrewSize, 0);
    ColumnOfBatch(xdd, DirOffset, 3, 0);
    Combine3Units(Apply(Block3(inertia), Column3(omega, 0)), Vec3At(c1, MomOffset));
    assert Slot(MomOffset, ScrewSize, 0) == MomOffset;
  }

  /** Lines 53-59 of dyn2b_rbi_to_wrench3: the force half, w x h, then m v
      accumulated into it. */
  method ForcePart(rbi: seq<real>, xdd: seq<real>, w: array<real>)
    requires |rbi| >= RbiSize && |xdd| >= ScrewSize && w.Length >= ScrewSize
    modifies w
    ensures Vec3At(w[..], DirOffset) == RbiWrench(RbiAt(rbi), ScrewOf(xdd, 0)).dir
    ensures forall p :: 3 <= p < w.Length ==> w[p] == old(w[p])
  {
    ghost var c0 := w[..];
    CrsVec3(1, xdd, DirOffset, ScrewSize, rbi, RbiHOffset, ScrewSize, w, DirOffset, ScrewSize);
    ghost var c3 := w[..];
    Axpy(3, rbi[RbiMOffset], xdd, MomOffset, w, DirOffset);
    ForceOfWrench(rbi, xdd, c3, w[..]);
    ForceFrame(w[..], c3, c0);
  }

  /** The cross product fills slots 0 .. 2 and the accumulation writes only
      there: the moment half is untouched. */
  lemma ForceFrame(c4: seq<real>, c3: seq<real>, c0: seq<real>)
    requires KeptOutside(c3, c0, DirOffset, ScrewSize, 1, 3)
    requires |c4| == |c3|
    requires forall p :: 0 <= p < |c4| && !(DirOffset <= p < DirOffset + 3) ==> c4[p] == c3[p]
    ensures forall p :: 3 <= p < |c4| ==> c4[p] == c0[p]
  {
    forall p | 3 <= p < |c4|
      ensures c4[p] == c0[p]
    {
      SingleRun(p, DirOffset, ScrewSize, 3);
    }
  }

  /** The cross product w x h with m v accumulated into it is the force half
      of the wrench. */
  lemma ForceOfWrench(rbi: seq<real>, xdd: seq<real>, c3: seq<real>, c4: seq<real>)
    requires |rbi| >= RbiSize && |xdd| >= ScrewSize && |c3| >= 3 && |c4| >= 3
    requires forall i :: 0 <= i < 1 ==>
      Vec3At(c3, Slot(DirOffset, ScrewSize, i)) == Cross(Vec3At(xdd, Slot(DirOffset, ScrewSize, i)), Vec3At(rbi, Slot(RbiHOffset, ScrewSize, i)))
    requires forall p :: DirOffset <= p < DirOffset + 3 ==> c4[p] == rbi[RbiMOffset] * xdd[MomOffset + (p - DirOffset)] + c3[p]
    ensures Vec3At(c4, DirOffset) == RbiWrench(RbiAt(rbi), ScrewOf(xdd, 0)).dir
  {
    FirstScrew(xdd);
    AxpyVec3(c4, c3, rbi[RbiMOffset], xdd, MomOffset, DirOffset);
    assert Slot(DirOffset, ScrewSize, 0) == DirOffset && Slot(RbiHOffset, ScrewSize, 0) == RbiHOffset;
    assert Vec3At(c3, DirOffset) == Cross(Vec3At(xdd, DirOffset), Vec3At(rbi, RbiHOffset));
  }


  /** dyn2b_nrt_wrench3: the momentum is built in a local buffer and crossed
      with the twist. */
  method NrtWrench3(rbi: seq<real>, xd: seq<real>, w: array<real>)
    requires |rbi| >= RbiSize && |xd| >= ScrewSize && w.Length >= ScrewSize
    modifies w
    ensures ScrewOf(w[..], 0) == NrtWrench(RbiAt(rbi), ScrewOf(xd, 0))
    ensures KeptOutside(w[..], old(w[..]), 0, ScrewSize, 1, ScrewSize)
  {
    var p := new real[ScrewSize];
    RbiToWrench3(rbi, xd, p);
    CrsScrew3(xd, p[..], w);
  }

  // ---------------------------------------------------------------------------
  // Properties
  // ---------------------------------------------------------------------------

  /** The wrench of an inertia is linear in the twist; a zero twist gives a zero
      wrench. */
  lemma {:induction false} RbiWrenchAdditive(rbi: Rbi, a: Screw, b: Screw)
    ensures RbiWrench(rbi, ScrewPlus(a, b)) == ScrewPlus(RbiWrench(rbi, a), RbiWrench(rbi, b))
  {
    ApplyPlus(rbi.inertia, a.dir, b.dir);
    ScalePlus(rbi.m, a.mom, b.mom);
    CrossPlus(a.dir, b.dir, rbi.h);
    CrossPlus(a.mom, b.mom, rbi.h);
  }

  lemma {:induction false} RbiWrenchHomogeneous(rbi: Rbi, a: Screw, k: real)
    ensures RbiWrench(rbi, ScrewScale(k, a)) == ScrewScale(k, RbiWrench(rbi, a))
    ensures RbiWrench(rbi, ZeroScrew) == ZeroScrew
  {
    var w := RbiWrench(rbi, a);
    ApplyScale(rbi.inertia, k, a.dir);
    CrossScale(k, a.dir, rbi.h);
    CrossScale(k, rbi.h, a.mom);
    ScaleTwice(rbi.m, k, a.mom);
    ScalePlus(k, Scale(rbi.m, a.mom), Cross(a.dir, rbi.h));
    ScalePlus(k, Apply(rbi.inertia, a.dir), Cross(rbi.h, a.mom));
    ApplyScale(rbi.inertia, 0.0, Zero3);
    assert Scale(0.0, Zero3) == Zero3;
  }

  /** The bias wrench is quadratic: scaling the twist by k scales it by k^2. */
  lemma {:induction false} NrtWrenchQuadratic(rbi: Rbi, t: Screw, k: real)
    ensures NrtWrench(rbi, ScrewScale(k, t)) == ScrewScale(k * k, NrtWrench(rbi, t))
  {
    RbiWrenchHomogeneous(rbi, t, k);
    var p := RbiWrench(rbi, t);
    var q := ScrewCross(t, p);
    CrossScaled(k, t.dir, p.dir);
    CrossScaled(k, t.dir, p.mom);
    CrossScaled(k, t.mom, p.dir);
    ScalePlus(k * k, Cross(t.dir, p.mom), Cross(t.mom, p.dir));
  }

  /** Cross product of two vectors scaled alike. */
  lemma CrossScaled(k: real, a: Vec3, b: Vec3)
    ensures Cross(Scale(k, a), Scale(k, b)) == Scale(k * k, Cross(a, b))
  {
    CrossScale(k, a, Scale(k, b));
    CrossScale(k, a, b);
    ScaleTwice(k, k, Cross(a, b));
  }

  /** The distal acceleration of a frame at rest relative to the proximal one is
      the transformed proximal acceleration; through the identity pose the
      acceleration is unchanged. */
  lemma TfDistAccRest(x: Pose, vAbs: Screw, a: Screw)
    ensures TfDistAcc(x, vAbs, ZeroScrew, a) == TfDist(x, a)
    ensures TfDistAcc(IdentityPose, vAbs, ZeroScrew, a) == a
  {
    TfIdentity(a);
  }

  /** The inertia and test twist of the library's mechanics tests. */
  const TestRbi := Rbi(Mat3(Vec3(3.0, 4.0, 5.0), Vec3(4.0, 6.0, 7.0), Vec3(5.0, 7.0, 8.0)), Vec3(4.0, 6.0, 8.0), 2.0)
  const TestTwist := Screw(Vec3(1.0, 2.0, 3.0), Vec3(3.0, 4.0, 5.0))

  /** The expected results of the library's tests for the inertia wrench and the
      bias wrench. */
  lemma WrenchTestVectors()
    ensures RbiWrench(TestRbi, TestTwist) == Screw(Vec3(4.0, 12.0, 8.0), Vec3(24.0, 41.0, 41.0))
    ensures NrtWrench(TestRbi, TestTwist) == Screw(Vec3(-20.0, 4.0, 4.0), Vec3(-69.0, 27.0, 13.0))
  {
  }

  /** The expected result of the library's test of the distal acceleration. */
  lemma AccTestVector()
    ensures TfDistAcc(Pose(Mat3(Vec3(0.0, 0.0, 1.0), Vec3(1.0, 0.0, 0.0), Vec3(0.0, 1.0, 0.0)), Vec3(1.0, 2.0, 3.0)),
                      Screw(Vec3(1.0, 2.0, 3.0), Vec3(2.0, 3.0, 4.0)),
                      Screw(Vec3(2.0, 3.0, 4.0), Vec3(3.0, 4.0, 5.0)),
                      Screw(Vec3(1.0, 2.0, 3.0), Vec3(2.0, 3.0, 4.0)))
         == Screw(Vec3(2.0, 3.0, 1.0), Vec3(2.0, 6.0, 1.0))
  {
    var r := Mat3(Vec3(0.0, 0.0, 1.0), Vec3(1.0, 0.0, 0.0), Vec3(0.0, 1.0, 0.0));
    assert Transpose(r) == Mat3(Vec3(0.0, 1.0, 0.0), Vec3(0.0, 0.0, 1.0), Vec3(1.0, 0.0, 0.0));
    assert Apply(Transpose(r), Vec3(1.0, 2.0, 3.0)) == Vec3(3.0, 1.0, 2.0);
    assert Cross(Vec3(1.0, 2.0, 3.0), Vec3(1.0, 2.0, 3.0)) == Zero3;
    assert Apply(Transpose(r), Vec3(2.0, 3.0, 4.0)) == Vec3(4.0, 2.0, 3.0);
  }
}
