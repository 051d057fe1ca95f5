// Joint kinematics (src/joint.c:21-303): the pose, the twist and the joint
// force of the six single-axis joints. The x, y and z variants of a joint type
// differ only in the axis constant (DYN2B_X_OFFSET, _Y_, _Z_ = 0, 1, 2), so each
// family is one member parameterised by the axis k.

module Joints {
  import opened Buffers
  import opened Spatial
  import opened Screws
  import opened Vector3

  /** Revolute (rev_*) or prismatic (trans_*). */
  datatype Kind = Revolute | Prismatic

  // ---------------------------------------------------------------------------
  // Specification
  // ---------------------------------------------------------------------------

  /** The rotation of a revolute joint about axis k by the angle whose cosine is
      c and whose sine is s. */
  function RevRotation(k: int, c: real, s: real): Mat3
  {
    if k == 0 then Mat3(Vec3(1.0, 0.0, 0.0), Vec3(0.0, c, s), Vec3(0.0, -s, c))
    else if k == 1 then Mat3(Vec3(c, 0.0, -s), Vec3(0.0, 1.0, 0.0), Vec3(s, 0.0, c))
    else Mat3(Vec3(c, s, 0.0), Vec3(-s, c, 0.0), Vec3(0.0, 0.0, 1.0))
  }

  /** The pose of a revolute joint: a rotation about its axis, no translation. */
  function RevPose(k: int, c: real, s: real): Pose
  {
    Pose(RevRotation(k, c, s), Zero3)
  }

  /** The pose of a prismatic joint displaced by q along axis k. */
  function TransPose(k: int, q: real): Pose
  {
    Pose(Identity3, Scale(q, Unit(k)))
  }

  /** The joint's motion subspace S: its unit twist, angular part first. */
  function JointTwist(kind: Kind, k: int): Screw
  {
    match kind
    case Revolute => Screw(Unit(k), Zero3)
    case Prismatic => Screw(Zero3, Unit(k))
  }

  // ---------------------------------------------------------------------------
  // Kernels
  // ---------------------------------------------------------------------------

  /** dyn2b_rev_{x,y,z}_to_pose3, with cos and sin of the joint angle given. */
  method RevToPose3(k: int, c: real, s: real, cart: array<real>)
    requires 0 <= k < 3 && cart.Length >= PoseSize
    modifies cart
    ensures PoseAt(cart[..], 0) == RevPose(k, c, s)
    ensures forall p :: PoseSize <= p < cart.Length ==> cart[p] == old(cart[p])
  {
    if k == 0 {
      PutMat3(cart, 0, Mat3(Vec3(1.0, 0.0, 0.0), Vec3(0.0, c, s), Vec3(0.0, -s, c)));
    } else if k == 1 {
      PutMat3(cart, 0, Mat3(Vec3(c, 0.0, -s), Vec3(0.0, 1.0, 0.0), Vec3(s, 0.0, c)));
    } else {
      PutMat3(cart, 0, Mat3(Vec3(c, s, 0.0), Vec3(-s, c, 0.0), Vec3(0.0, 0.0, 1.0)));
    }
    ghost var rotated := cart[..];
    PutVec3(cart, PoseLinOffset, Zero3);
    Mat3Unchanged(cart[..], rotated, 0);
  }

  /** dyn2b_trans_{x,y,z}_to_pose3. */
  method TransToPose3(k: int, jnt: real, cart: array<real>)
    requires 0 <= k < 3 && cart.Length >= PoseSize
    modifies cart
    ensures PoseAt(cart[..], 0) == TransPose(k, jnt)
    ensures forall p :: PoseSize <= p < cart.Length ==> cart[p] == old(cart[p])
  {
    PutMat3(cart, 0, Identity3);
    ghost var rotated := cart[..];
    PutVec3(cart, PoseLinOffset, Vec3(if k == 0 then jnt else 0.0, if k == 1 then jnt else 0.0, if k == 2 then jnt else 0.0));
    Mat3Unchanged(cart[..], rotated, 0);
  }

  /** dyn2b_{rev,trans}_{x,y,z}_to_twist3: the joint velocity jnt along the
      joint's unit twist. */
  method ToTwist3(kind: Kind, k: int, jnt: real, cart: array<real>)
    requires 0 <= k < 3 && cart.Length >= ScrewSize
    modifies cart
    ensures ScrewAt(cart[..], 0) == ScrewScale(jnt, JointTwist(kind, k))
    ensures forall p :: ScrewSize <= p < cart.Length ==> cart[p] == old(cart[p])
  {
    var slot := if kind == Revolute then DirOffset + k else MomOffset + k;
    cart[0] := if slot == 0 then jnt else 0.0;
    cart[1] := if slot == 1 then jnt else 0.0;
    cart[2] := if slot == 2 then jnt else 0.0;
    cart[3] := if slot == 3 then jnt else 0.0;
    cart[4] := if slot == 4 then jnt else 0.0;
    cart[5] := if slot == 5 then jnt else 0.0;
  }

  /** The joint force of a wrench is its pairing with the joint's unit twist:
      the moment component k for a revolute joint, the force component k for a
      prismatic one (wrenches store force first). */
  lemma JointForceSlot(w: Screw, kind: Kind, k: int)
    requires 0 <= k < 3
    ensures Pairing(w, JointTwist(kind, k)) == if kind == Revolute then Comp(w.mom, k) else Comp(w.dir, k)
  {
  }

  /** dyn2b_{rev,trans}_{x,y,z}_from_wrench3: the joint forces of a batch of n
      wrenches. */
  method FromWrench3(kind: Kind, k: int, n: nat, cart: seq<real>, jnt: array<real>)
    requires 0 <= k < 3
    requires |cart| >= ScrewSize * n && jnt.Length >= n
    modifies jnt
    ensures forall i :: 0 <= i < n ==> jnt[i] == Pairing(ScrewOf(cart, i), JointTwist(kind, k))
    ensures forall p :: n <= p < jnt.Length ==> jnt[p] == old(jnt[p])
  {
    var off := if kind == Revolute then MomOffset + k else DirOffset + k;
    var i := 0;
    while i < n
      invariant 0 <= i <= n
      invariant forall ii :: 0 <= ii < i ==> jnt[ii] == Pairing(ScrewOf(cart, ii), JointTwist(kind, k))
      invariant forall p :: i <= p < jnt.Length ==> jnt[p] == old(jnt[p])
    {
      JointForceSlot(ScrewOf(cart, i), kind, k);
      jnt[i] := cart[Slot(0, ScrewSize, i) + off];
      i := i + 1;
    }
  }

  // ---------------------------------------------------------------------------
  // Properties
  // ---------------------------------------------------------------------------

  /** With c^2 + s^2 = 1 a revolute joint's rotation block is a rotation. The
      circle identity gives the dot products of the block's columns and of its
      rows, one product per lemma below, and those products alone give the
      matrix products. */
  lemma RevRotationOrthonormal(k: int, c: real, s: real)
    requires 0 <= k < 3 && c * c + s * s == 1.0
    ensures Orthonormal(RevRotation(k, c, s))
  {
    RevColumnDot00(k, c, s); RevColumnDot11(k, c, s); RevColumnDot22(k, c, s);
    RevColumnDot01(k, c, s); RevColumnDot02(k, c, s); RevColumnDot12(k, c, s);
    RevRowDot00(k, c, s); RevRowDot11(k, c, s); RevRowDot22(k, c, s);
    RevRowDot01(k, c, s); RevRowDot02(k, c, s); RevRowDot12(k, c, s);
    OrthonormalOfDots(RevRotation(k, c, s));
  }

  // The dot products of the columns of a revolute rotation, then of its rows.

  lemma RevColumnDot00(k: int, c: real, s: real)
    requires 0 <= k < 3 && c * c + s * s == 1.0
    ensures Dot(RevRotation(k, c, s).c0, RevRotation(k, c, s).c0) == 1.0
  {
  }

  lemma RevColumnDot11(k: int, c: real, s: real)
    requires 0 <= k < 3 && c * c + s * s == 1.0
    ensures Dot(RevRotation(k, c, s).c1, RevRotation(k, c, s).c1) == 1.0
  {
  }

  lemma RevColumnDot22(k: int, c: real, s: real)
    requires 0 <= k < 3 && c * c + s * s == 1.0
    ensures Dot(RevRotation(k, c, s).c2, RevRotation(k, c, s).c2) == 1.0
  {
  }

  lemma RevColumnDot01(k: int, c: real, s: real)
    requires 0 <= k < 3
    ensures Dot(RevRotation(k, c, s).c0, RevRotation(k, c, s).c1) == 0.0
  {
  }

  lemma RevColumnDot02(k: int, c: real, s: real)
    requires 0 <= k < 3
    ensures Dot(RevRotation(k, c, s).c0, RevRotation(k, c, s).c2) == 0.0
  {
  }

  lemma RevColumnDot12(k: int, c: real, s: real)
    requires 0 <= k < 3
    ensures Dot(RevRotation(k, c, s).c1, RevRotation(k, c, s).c2) == 0.0
  {
  }

  lemma RevRowDot00(k: int, c: real, s: real)
    requires 0 <= k < 3 && c * c + s * s == 1.0
    ensures Dot(Transpose(RevRotation(k, c, s)).c0, Transpose(RevRotation(k, c, s)).c0) == 1.0
  {
  }

  lemma RevRowDot11(k: int, c: real, s: real)
    requires 0 <= k < 3 && c * c + s * s == 1.0
    ensures Dot(Transpose(RevRotation(k, c, s)).c1, Transpose(RevRotation(k, c, s)).c1) == 1.0
  {
  }

  lemma RevRowDot22(k: int, c: real, s: real)
    requires 0 <= k < 3 && c * c + s * s == 1.0
    ensures Dot(Transpose(RevRotation(k, c, s)).c2, Transpose(RevRotation(k, c, s)).c2) == 1.0
  {
  }

  lemma RevRowDot01(k: int, c: real, s: real)
    requires 0 <= k < 3
    ensures Dot(Transpose(RevRotation(k, c, s)).c0, Transpose(RevRotation(k, c, s)).c1) == 0.0
  {
  }

  lemma RevRowDot02(k: int, c: real, s: real)
    requires 0 <= k < 3
    ensures Dot(Transpose(RevRotation(k, c, s)).c0, Transpose(RevRotation(k, c, s)).c2) == 0.0
  {
  }

  lemma RevRowDot12(k: int, c: real, s: real)
    requires 0 <= k < 3
    ensures Dot(Transpose(RevRotation(k, c, s)).c1, Transpose(RevRotation(k, c, s)).c2) == 0.0
  {
  }

  /** The rotation leaves its own axis in place; the zero angle is the identity;
      its inverse (transpose) is the rotation by the opposite angle. */
  lemma RevRotationAxis(k: int, c: real, s: real)
    requires 0 <= k < 3
    ensures Apply(RevRotation(k, c, s), Unit(k)) == Unit(k)
    ensures RevRotation(k, 1.0, 0.0) == Identity3
    ensures Transpose(RevRotation(k, c, s)) == RevRotation(k, c, -s)
  {
  }

  /** Rotations about one axis compose by adding their angles (the
      angle-addition formulas for cosine and sine). */
  lemma RevRotationCompose(k: int, c1: real, s1: real, c2: real, s2: real)
    requires 0 <= k < 3
    ensures Mul(RevRotation(k, c1, s1), RevRotation(k, c2, s2))
         == RevRotation(k, c1 * c2 - s1 * s2, s1 * c2 + c1 * s2)
  {
    var a, b := RevRotation(k, c1, s1), RevRotation(k, c2, s2);
    var r := RevRotation(k, c1 * c2 - s1 * s2, s1 * c2 + c1 * s2);
    if k == 0 {
      assert Apply(a, b.c1) == r.c1 && Apply(a, b.c2) == r.c2;
    } else if k == 1 {
      assert Apply(a, b.c0) == r.c0 && Apply(a, b.c2) == r.c2;
    } else {
      assert Apply(a, b.c0) == r.c0 && Apply(a, b.c1) == r.c1;
    }
  }

  /** Prismatic displacements along one axis compose by addition. */
  lemma TransPoseCompose(k: int, q1: real, q2: real)
    requires 0 <= k < 3
    ensures Compose(TransPose(k, q1), TransPose(k, q2)) == TransPose(k, q1 + q2)
  {
    MulIdentity(Identity3);
    ApplyIdentity(Scale(q2, Unit(k)));
    ScaleSum(q2, q1, Unit(k));
  }

  /** A joint's motion does not move its own axis: the unit twist expressed
      through the joint's pose is the unit twist again. */
  lemma AxisInvariant(k: int, c: real, s: real, q: real)
    requires 0 <= k < 3
    ensures TfProx(RevPose(k, c, s), JointTwist(Revolute, k)) == JointTwist(Revolute, k)
    ensures TfProx(TransPose(k, q), JointTwist(Prismatic, k)) == JointTwist(Prismatic, k)
  {
    RevRotationAxis(k, c, s);
    RevAxisFixed(RevPose(k, c, s), JointTwist(Revolute, k));
    TransAxisFixed(TransPose(k, q), JointTwist(Prismatic, k));
  }

  /** A rotation that fixes the axis u, with no translation, maps the twist
      (u, 0) to itself. */
  lemma RevAxisFixed(x: Pose, t: Screw)
    requires x.pos == Zero3 && t.mom == Zero3 && Apply(x.rot, t.dir) == t.dir
    ensures TfProx(x, t) == t
  {
    ApplyZero(x.rot);
    CrossZero(t.dir);
  }

  /** A pure translation maps a twist (0, u) to itself. */
  lemma TransAxisFixed(x: Pose, t: Screw)
    requires x.rot == Identity3 && t.dir == Zero3
    ensures TfProx(x, t) == t
  {
    ApplyIdentity(t.mom);
    ApplyIdentity(Zero3);
    CrossZero(x.pos);
  }

  /** to_twist3 and from_wrench3 are dual: the power a wrench delivers on the
      joint velocity qd is qd times the joint force of that wrench. */
  lemma JointPower(w: Screw, kind: Kind, k: int, qd: real)
    requires 0 <= k < 3
    ensures Pairing(w, ScrewScale(qd, JointTwist(kind, k))) == qd * Pairing(w, JointTwist(kind, k))
  {
    var t := JointTwist(kind, k);
    DotScale(qd, t.dir, w.mom);
    DotScale(qd, t.mom, w.dir);
  }
}
