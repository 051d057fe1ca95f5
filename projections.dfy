// Articulated-body projections across a one-degree-of-freedom joint
// (src/joint.c:440-997, and the DOF = 1 branch of 1042-1254). With S the
// joint's unit twist, d the joint's own inertia and D = d + S^T M S, the
// projected inertia is M - M S D^-1 S^T M and the projected wrench is
// F - M S D^-1 S^T F. The six specialised kernels per family differ only in
// the axis k; each family is one method parameterised by k.

module Projections {
  import opened Buffers
  import opened Spatial
  import opened Screws
  import opened Joints
  import opened Articulated

  // ---------------------------------------------------------------------------
  // The generic formula (dyn2b_jnt_inv_abi3, _to_proj3, _proj_abi3 and
  // _proj_wrench3 with dof = 1)
  // ---------------------------------------------------------------------------

  /** The symmetric matrix whose upper triangle is that of x: how cblas_dsymm
      with CblasUpper reads a block. */
  function UpperSym(x: Mat3): Mat3
  {
    Mat3(Vec3(x.c0.x, x.c1.x, x.c2.x), Vec3(x.c1.x, x.c1.y, x.c2.y), Vec3(x.c2.x, x.c2.y, x.c2.z))
  }

  /** The inertia the generic kernels multiply with: the dense matrix of
      dyn2b_to_mat_abi3 read through its upper triangle. */
  function UpperAbi(a: Abi): Abi
  {
    Abi(UpperSym(a.i), a.h, UpperSym(a.m))
  }

  /** The share (p q) / dd of a rank-one update, multiplied before it is
      divided as the kernels do. */
  function Part(p: real, q: real, dd: real): real
    requires dd != 0.0
  {
    p * q / dd
  }

  /** The rank-one matrix u v^T / dd, entry (r, c) being (u_r v_c) / dd. */
  function Outer(u: Vec3, v: Vec3, dd: real): Mat3
    requires dd != 0.0
  {
    Mat3(Vec3(Part(u.x, v.x, dd), Part(u.y, v.x, dd), Part(u.z, v.x, dd)),
         Vec3(Part(u.x, v.y, dd), Part(u.y, v.y, dd), Part(u.z, v.y, dd)),
         Vec3(Part(u.x, v.z, dd), Part(u.y, v.z, dd), Part(u.z, v.z, dd)))
  }

  /** The vector p u / dd, entry r being (p u_r) / dd. */
  function Shrink(p: real, u: Vec3, dd: real): Vec3
    requires dd != 0.0
  {
    Vec3(Part(p, u.x, dd), Part(p, u.y, dd), Part(p, u.z, dd))
  }

  /** D = d + S^T M S, M read through its upper triangle (dyn2b_jnt_inv_abi3
      before the reciprocal). */
  function Pivot(s: Screw, d: real, a: Abi): real
  {
    d + Pairing(AbiWrench(UpperAbi(a), s), s)
  }

  /** M - M S D^-1 S^T M with dof = 1, read back as a tuple
      (dyn2b_jnt_proj_abi3): with u = M S, each block loses its part of
      u u^T / D. */
  function ProjectAbi(s: Screw, d: real, a: Abi): Abi
    requires Pivot(s, d, a) != 0.0
  {
    var u, dd := UpperAbi(a), Pivot(s, d, a);
    var w := AbiWrench(u, s);
    Abi(MatMinus(u.i, Outer(w.mom, w.mom, dd)), MatMinus(u.h, Outer(w.mom, w.dir, dd)),
        MatMinus(u.m, Outer(w.dir, w.dir, dd)))
  }

  /** F - M S D^-1 S^T F with dof = 1 (dyn2b_jnt_proj_wrench3): the wrench
      loses the share of M S given by its joint force S^T F. The product M S
      is taken with the dense matrix as stored (cblas_dgemm). */
  function ProjectWrench(s: Screw, d: real, a: Abi, f: Screw): Screw
    requires Pivot(s, d, a) != 0.0
  {
    var dd, w, p := Pivot(s, d, a), AbiWrench(a, s), Pairing(f, s);
    Screw(Minus(f.dir, Shrink(p, w.dir, dd)), Minus(f.mom, Shrink(p, w.mom, dd)))
  }

  // ---------------------------------------------------------------------------
  // The specialised kernels' own formulas
  // ---------------------------------------------------------------------------

  /** d + S^T M S for axis k: I(k, k) for a revolute, M(k, k) for a prismatic
      joint. */
  function JointPivot(kind: Kind, k: int, d: real, a: Abi): real
    requires 0 <= k < 3
  {
    d + (if kind == Revolute then At3(a.i, k, k) else At3(a.m, k, k))
  }

  /** The rank-one updates dyn2b_{rev,trans}_{x,y,z}_proj_abi3 compute. */
  function JointProjAbi(kind: Kind, k: int, d: real, a: Abi): Abi
    requires 0 <= k < 3 && JointPivot(kind, k, d, a) != 0.0
  {
    var dd := JointPivot(kind, k, d, a);
    match kind
    case Revolute =>
      Abi(MatMinus(a.i, Outer(Col(a.i, k), Row(a.i, k), dd)),
          MatMinus(a.h, Outer(Col(a.i, k), Row(a.h, k), dd)),
          MatMinus(a.m, Outer(Row(a.h, k), Row(a.h, k), dd)))
    case Prismatic =>
      Abi(MatMinus(a.i, Outer(Col(a.h, k), Col(a.h, k), dd)),
          MatMinus(a.h, Outer(Col(a.h, k), Row(a.m, k), dd)),
          MatMinus(a.m, Outer(Col(a.m, k), Row(a.m, k), dd)))
  }

  /** The update dyn2b_{rev,trans}_{x,y,z}_proj_wrench3 compute for one
      wrench, f_k being its joint force. */
  function JointProjWrench(kind: Kind, k: int, d: real, a: Abi, f: Screw): Screw
    requires 0 <= k < 3 && JointPivot(kind, k, d, a) != 0.0
  {
    var dd := JointPivot(kind, k, d, a);
    match kind
    case Revolute =>
      var fk := Comp(f.mom, k);
      Screw(Minus(f.dir, Shrink(fk, Row(a.h, k), dd)), Minus(f.mom, Shrink(fk, Col(a.i, k), dd)))
    case Prismatic =>
      var fk := Comp(f.dir, k);
      Screw(Minus(f.dir, Shrink(fk, Col(a.m, k), dd)), Minus(f.mom, Shrink(fk, Col(a.h, k), dd)))
  }

  // ---------------------------------------------------------------------------
  // Kernels
  // ---------------------------------------------------------------------------

  /** Entry (r, c) of each block of the tuple at slot 0 of o is that of e. */
  ghost predicate AbiCell(o: seq<real>, e: Abi, r: int, c: int)
    requires 0 <= r < 3 && 0 <= c < 3
  {
    Get(o, r + 3 * c) == At3(e.i, r, c) && Get(o, AbiHOffset + r + 3 * c) == At3(e.h, r, c) &&
    Get(o, AbiMOffset + r + 3 * c) == At3(e.m, r, c)
  }

  /** dyn2b_rev_{x,y,z}_proj_abi3. */
  method RevProjAbi3(k: int, d: real, mIn: seq<real>, mOut: array<real>)
    requires 0 <= k < 3 && |mIn| >= AbiSize && mOut.Length >= AbiSize
    requires JointPivot(Revolute, k, d, AbiAt(mIn, 0)) != 0.0
    modifies mOut
    ensures AbiAt(mOut[..], 0) == JointProjAbi(Revolute, k, d, AbiAt(mIn, 0))
    ensures SymmetricAbi(AbiAt(mIn, 0)) ==> AbiAt(mOut[..], 0) == ProjectAbi(JointTwist(Revolute, k), d, AbiAt(mIn, 0))
    ensures forall p :: AbiSize <= p < mOut.Length ==> mOut[p] == old(mOut[p])
  {
    ghost var a := AbiAt(mIn, 0);
    ghost var e := JointProjAbi(Revolute, k, d, a);
    var iKk := mIn[3 * k + k];
    var dstms := d + iKk;
    At3Slot(mIn, 0, k, k);
    for c := 0 to 3
      invariant CellsBefore(mOut[..], e, 0, c)
      invariant forall p :: AbiSize <= p < mOut.Length ==> mOut[p] == old(mOut[p])
    {
      for r := 0 to 3
        invariant CellsBefore(mOut[..], e, r, c)
        invariant forall p :: AbiSize <= p < mOut.Length ==> mOut[p] == old(mOut[p])
      {
        ghost var before := mOut[..];
        var iRc, iRk, iKc := mIn[3 * c + r], mIn[3 * k + r], mIn[3 * c + k];
        var vI := iRc - Part(iRk, iKc, dstms);
        mOut[3 * c + r] := vI;
        var hRc, hKc, hRk := mIn[AbiHOffset + 3 * c + r], mIn[AbiHOffset + 3 * c + k], mIn[3 * k + r];
        var vH := hRc - Part(hKc, hRk, dstms);
        mOut[AbiHOffset + 3 * c + r] := vH;
        var mRc, mKc, mKr := mIn[AbiMOffset + 3 * c + r], mIn[AbiHOffset + 3 * c + k], mIn[AbiHOffset + 3 * r + k];
        var vM := mRc - Part(mKc, mKr, dstms);
        mOut[AbiMOffset + 3 * c + r] := vM;
        assert mOut[..] == before[3 * c + r := vI][AbiHOffset + 3 * c + r := vH][AbiMOffset + 3 * c + r := vM];
        RevCell(mIn, k, d, r, c);
        CellStep(mOut[..], before, e, r, c, vI, vH, vM);
      }
      NextColumn(mOut[..], e, c);
    }
    CellsDone(mOut[..], e);
    JointProjAbiIsGeneric(Revolute, k, d, a);
  }

  /** dyn2b_trans_{x,y,z}_proj_abi3. */
  method TransProjAbi3(k: int, d: real, mIn: seq<real>, mOut: array<real>)
    requires 0 <= k < 3 && |mIn| >= AbiSize && mOut.Length >= AbiSize
    requires JointPivot(Prismatic, k, d, AbiAt(mIn, 0)) != 0.0
    modifies mOut
    ensures AbiAt(mOut[..], 0) == JointProjAbi(Prismatic, k, d, AbiAt(mIn, 0))
    ensures SymmetricAbi(AbiAt(mIn, 0)) ==> AbiAt(mOut[..], 0) == ProjectAbi(JointTwist(Prismatic, k), d, AbiAt(mIn, 0))
    ensures forall p :: AbiSize <= p < mOut.Length ==> mOut[p] == old(mOut[p])
  {
    ghost var a := AbiAt(mIn, 0);
    ghost var e := JointProjAbi(Prismatic, k, d, a);
    var mKk := mIn[AbiMOffset + 3 * k + k];
    var dstms := d + mKk;
    At3Slot(mIn, AbiMOffset, k, k);
    for c := 0 to 3
      invariant CellsBefore(mOut[..], e, 0, c)
      invariant forall p :: AbiSize <= p < mOut.Length ==> mOut[p] == old(mOut[p])
    {
      for r := 0 to 3
        invariant CellsBefore(mOut[..], e, r, c)
        invariant forall p :: AbiSize <= p < mOut.Length ==> mOut[p] == old(mOut[p])
      {
        ghost var before := mOut[..];
        var iRc, iRk, iCk := mIn[3 * c + r], mIn[AbiHOffset + 3 * k + r], mIn[AbiHOffset + 3 * k + c];
        var vI := iRc - Part(iRk, iCk, dstms);
        mOut[3 * c + r] := vI;
        var hRc, hRk, hKc := mIn[AbiHOffset + 3 * c + r], mIn[AbiHOffset + 3 * k + r], mIn[AbiMOffset + 3 * c + k];
        var vH := hRc - Part(hRk, hKc, dstms);
        mOut[AbiHOffset + 3 * c + r] := vH;
        var mRc, mRk, mKc := mIn[AbiMOffset + 3 * c + r], mIn[AbiMOffset + 3 * k + r], mIn[AbiMOffset + 3 * c + k];
        var vM := mRc - Part(mRk, mKc, dstms);
        mOut[AbiMOffset + 3 * c + r] := vM;
        assert mOut[..] == before[3 * c + r := vI][AbiHOffset + 3 * c + r := vH][AbiMOffset + 3 * c + r := vM];
        TransCell(mIn, k, d, r, c);
        CellStep(mOut[..], before, e, r, c, vI, vH, vM);
      }
      NextColumn(mOut[..], e, c);
    }
    CellsDone(mOut[..], e);
    JointProjAbiIsGeneric(Prismatic, k, d, a);
  }

  /** Entry (r, c) of each block of the revolute update, read off the stored
      tuple. */
  lemma RevCell(mIn: seq<real>, k: int, d: real, r: int, c: int)
    requires 0 <= k < 3 && 0 <= r < 3 && 0 <= c < 3 && |mIn| >= AbiSize
    requires JointPivot(Revolute, k, d, AbiAt(mIn, 0)) != 0.0
    ensures var e, dd := JointProjAbi(Revolute, k, d, AbiAt(mIn, 0)), JointPivot(Revolute, k, d, AbiAt(mIn, 0));
      At3(e.i, r, c) == mIn[3 * c + r] - Part(mIn[3 * k + r], mIn[3 * c + k], dd) &&
      At3(e.h, r, c) == mIn[AbiHOffset + 3 * c + r] - Part(mIn[AbiHOffset + 3 * c + k], mIn[3 * k + r], dd) &&
      At3(e.m, r, c) == mIn[AbiMOffset + 3 * c + r] - Part(mIn[AbiHOffset + 3 * c + k], mIn[AbiHOffset + 3 * r + k], dd)
  {
    var a, dd := AbiAt(mIn, 0), JointPivot(Revolute, k, d, AbiAt(mIn, 0));
    OuterCell(a.i, Col(a.i, k), Row(a.i, k), dd, r, c);
    OuterCell(a.h, Col(a.i, k), Row(a.h, k), dd, r, c);
    OuterCell(a.m, Row(a.h, k), Row(a.h, k), dd, r, c);
    PartCommutes(At3(a.i, r, k), At3(a.h, k, c), dd);
    PartCommutes(At3(a.h, k, r), At3(a.h, k, c), dd);
    ColRowComp(a.i, k, r);
    ColRowComp(a.i, k, c);
    ColRowComp(a.h, k, r);
    ColRowComp(a.h, k, c);
    At3Slot(mIn, 0, r, c);
    At3Slot(mIn, 0, r, k);
    At3Slot(mIn, 0, k, c);
    At3Slot(mIn, AbiHOffset, r, c);
    At3Slot(mIn, AbiHOffset, k, c);
    At3Slot(mIn, AbiHOffset, k, r);
    At3Slot(mIn, AbiMOffset, r, c);
  }

  /** Entry (r, c) of each block of the prismatic update. */
  lemma TransCell(mIn: seq<real>, k: int, d: real, r: int, c: int)
    requires 0 <= k < 3 && 0 <= r < 3 && 0 <= c < 3 && |mIn| >= AbiSize
    requires JointPivot(Prismatic, k, d, AbiAt(mIn, 0)) != 0.0
    ensures var e, dd := JointProjAbi(Prismatic, k, d, AbiAt(mIn, 0)), JointPivot(Prismatic, k, d, AbiAt(mIn, 0));
      At3(e.i, r, c) == mIn[3 * c + r] - Part(mIn[AbiHOffset + 3 * k + r], mIn[AbiHOffset + 3 * k + c], dd) &&
      At3(e.h, r, c) == mIn[AbiHOffset + 3 * c + r] - Part(mIn[AbiHOffset + 3 * k + r], mIn[AbiMOffset + 3 * c + k], dd) &&
      At3(e.m, r, c) == mIn[AbiMOffset + 3 * c + r] - Part(mIn[AbiMOffset + 3 * k + r], mIn[AbiMOffset + 3 * c + k], dd)
  {
    var a, dd := AbiAt(mIn, 0), JointPivot(Prismatic, k, d, AbiAt(mIn, 0));
    OuterCell(a.i, Col(a.h, k), Col(a.h, k), dd, r, c);
    OuterCell(a.h, Col(a.h, k), Row(a.m, k), dd, r, c);
    OuterCell(a.m, Col(a.m, k), Row(a.m, k), dd, r, c);
    ColRowComp(a.h, k, r);
    ColRowComp(a.h, k, c);
    ColRowComp(a.m, k, r);
    ColRowComp(a.m, k, c);
    At3Slot(mIn, 0, r, c);
    At3Slot(mIn, AbiHOffset, r, k);
    At3Slot(mIn, AbiHOffset, c, k);
    At3Slot(mIn, AbiHOffset, r, c);
    At3Slot(mIn, AbiMOffset, k, c);
    At3Slot(mIn, AbiMOffset, r, k);
    At3Slot(mIn, AbiMOffset, r, c);
  }

  /** Entry (r, c) of X - u v^T / dd. */
  lemma OuterCell(x: Mat3, u: Vec3, v: Vec3, dd: real, r: int, c: int)
    requires dd != 0.0 && 0 <= r < 3 && 0 <= c < 3
    ensures At3(MatMinus(x, Outer(u, v, dd)), r, c) == At3(x, r, c) - Part(Comp(u, r), Comp(v, c), dd)
  {
  }

  lemma PartCommutes(p: real, q: real, dd: real)
    requires dd != 0.0
    ensures Part(p, q, dd) == Part(q, p, dd)
  {
  }

  /** Component r of column k is entry (r, k); of row k, entry (k, r). */
  lemma ColRowComp(x: Mat3, k: int, r: int)
    requires 0 <= k < 3 && 0 <= r < 3
    ensures Comp(Col(x, k), r) == At3(x, r, k) && Comp(Row(x, k), r) == At3(x, k, r)
  {
  }

  /** Every cell before (r, c) in the kernels' order (c outer, r inner) is
      written. */
  ghost predicate CellsBefore(o: seq<real>, e: Abi, r: int, c: int)
  {
    forall rr, cc :: 0 <= rr < 3 && 0 <= cc < 3 && (cc < c || (cc == c && rr < r)) ==> AbiCell(o, e, rr, cc)
  }

  /** Writing cell (r, c) of the three blocks extends the written prefix by
      one. */
  lemma CellStep(o: seq<real>, before: seq<real>, e: Abi, r: int, c: int, vI: real, vH: real, vM: real)
    requires 0 <= r < 3 && 0 <= c < 3 && |before| >= AbiSize
    requires CellsBefore(before, e, r, c)
    requires o == before[3 * c + r := vI][AbiHOffset + 3 * c + r := vH][AbiMOffset + 3 * c + r := vM]
    requires vI == At3(e.i, r, c) && vH == At3(e.h, r, c) && vM == At3(e.m, r, c)
    ensures CellsBefore(o, e, r + 1, c)
  {
    forall rr, cc | 0 <= rr < 3 && 0 <= cc < 3 && (cc < c || (cc == c && rr < r + 1))
      ensures AbiCell(o, e, rr, cc)
    {
      if rr != r || cc != c {
        assert AbiCell(before, e, rr, cc);
      }
    }
  }

  lemma NextColumn(o: seq<real>, e: Abi, c: int)
    requires CellsBefore(o, e, 3, c)
    ensures CellsBefore(o, e, 0, c + 1)
  {
  }

  /** All nine cells of the three blocks written: the tuple is e. */
  lemma CellsDone(o: seq<real>, e: Abi)
    requires CellsBefore(o, e, 0, 3)
    ensures AbiAt(o, 0) == e
  {
    forall r, c | 0 <= r < 3 && 0 <= c < 3
      ensures Get(o, 0 + r + 3 * c) == At3(e.i, r, c)
      ensures Get(o, AbiHOffset + r + 3 * c) == At3(e.h, r, c)
      ensures Get(o, AbiMOffset + r + 3 * c) == At3(e.m, r, c)
    {
      assert AbiCell(o, e, r, c);
    }
    Mat3Ext(o, 0, e.i);
    Mat3Ext(o, AbiHOffset, e.h);
    Mat3Ext(o, AbiMOffset, e.m);
  }


  /** Slot i of the force and of the moment of wrench j of o hold those of the
      projected wrench j of fIn. */
  ghost predicate WrenchCell(o: seq<real>, fIn: seq<real>, kind: Kind, k: int, d: real, a: Abi, i: int, j: int)
    requires 0 <= k < 3 && JointPivot(kind, k, d, a) != 0.0
  {
    var e := JointProjWrench(kind, k, d, a, ScrewOf(fIn, j));
    Get(o, ScrewSize * j + DirOffset + i) == Comp(e.dir, i) && Get(o, ScrewSize * j + MomOffset + i) == Comp(e.mom, i)
  }

  /** Every cell before (i, j) in the kernel's order (i outer, j inner) is
      written. */
  ghost predicate WrenchesDone(o: seq<real>, fIn: seq<real>, kind: Kind, k: int, d: real, a: Abi, n: int, i: int, j: int)
    requires 0 <= k < 3 && JointPivot(kind, k, d, a) != 0.0
  {
    forall ii, jj :: 0 <= ii < 3 && 0 <= jj < n && (ii < i || (ii == i && jj < j)) ==> WrenchCell(o, fIn, kind, k, d, a, ii, jj)
  }

  /** dyn2b_rev_{x,y,z}_proj_wrench3 and dyn2b_trans_{x,y,z}_proj_wrench3: each
      of n wrenches, six slots apart, projected. */
  method ProjWrench3(kind: Kind, k: int, n: nat, d: real, m: seq<real>, fIn: seq<real>, fOut: array<real>)
    requires 0 <= k < 3 && |m| >= AbiSize && |fIn| >= ScrewSize * n && fOut.Length >= ScrewSize * n
    requires JointPivot(kind, k, d, AbiAt(m, 0)) != 0.0
    modifies fOut
    ensures Pivot(JointTwist(kind, k), d, AbiAt(m, 0)) != 0.0
    ensures forall j :: 0 <= j < n ==>
      ScrewOf(fOut[..], j) == ProjectWrench(JointTwist(kind, k), d, AbiAt(m, 0), ScrewOf(fIn, j))
    ensures forall p :: ScrewSize * n <= p < fOut.Length ==> fOut[p] == old(fOut[p])
  {
    ghost var a := AbiAt(m, 0);
    var pivot := if kind == Revolute then m[3 * k + k] else m[AbiMOffset + 3 * k + k];
    var dstms := d + pivot;
    At3Slot(m, 0, k, k);
    At3Slot(m, AbiMOffset, k, k);
    // The joint force: moment slot k of a wrench for a revolute joint, force
    // slot k for a prismatic one.
    var kSlot := if kind == Revolute then MomOffset + k else DirOffset + k;
    for i := 0 to 3
      invariant WrenchesDone(fOut[..], fIn, kind, k, d, a, n, i, 0)
      invariant forall p :: ScrewSize * n <= p < fOut.Length ==> fOut[p] == old(fOut[p])
    {
      // Revolute: i_ik and h_ki; prismatic: h_ik and m_ik.
      var momCoef := if kind == Revolute then m[3 * k + i] else m[AbiHOffset + 3 * k + i];
      var dirCoef := if kind == Revolute then m[AbiHOffset + 3 * i + k] else m[AbiMOffset + 3 * k + i];
      for j := 0 to n
        invariant WrenchesDone(fOut[..], fIn, kind, k, d, a, n, i, j)
        invariant forall p :: ScrewSize * n <= p < fOut.Length ==> fOut[p] == old(fOut[p])
      {
        ghost var before := fOut[..];
        var fk := fIn[ScrewSize * j + kSlot];
        var vMom := fIn[ScrewSize * j + MomOffset + i] - Part(fk, momCoef, dstms);
        var vDir := fIn[ScrewSize * j + DirOffset + i] - Part(fk, dirCoef, dstms);
        fOut[ScrewSize * j + MomOffset + i] := vMom;
        fOut[ScrewSize * j + DirOffset + i] := vDir;
        assert fOut[..] == before[ScrewSize * j + MomOffset + i := vMom][ScrewSize * j + DirOffset + i := vDir];
        WrenchCellValue(kind, k, d, m, fIn, i, j);
        WrenchStep(fOut[..], before, fIn, kind, k, d, a, n, i, j, vMom, vDir);
      }
      NextRow(fOut[..], fIn, kind, k, d, a, n, i);
    }
    JointPivotIsPivot(kind, k, d, a);
    forall j | 0 <= j < n
      ensures ScrewOf(fOut[..], j) == ProjectWrench(JointTwist(kind, k), d, a, ScrewOf(fIn, j))
    {
      assert WrenchCell(fOut[..], fIn, kind, k, d, a, 0, j);
      assert WrenchCell(fOut[..], fIn, kind, k, d, a, 1, j);
      assert WrenchCell(fOut[..], fIn, kind, k, d, a, 2, j);
      WrenchDone(fOut[..], fIn, kind, k, d, a, j);
      JointProjWrenchIsGeneric(kind, k, d, a, ScrewOf(fIn, j));
    }
  }

  /** Writing cell (i, j) of the projected wrenches extends the written
      prefix by one. */
  lemma WrenchStep(o: seq<real>, before: seq<real>, fIn: seq<real>, kind: Kind, k: int, d: real, a: Abi,
                   n: int, i: int, j: int, vMom: real, vDir: real)
    requires 0 <= k < 3 && JointPivot(kind, k, d, a) != 0.0
    requires 0 <= i < 3 && 0 <= j < n && |before| >= ScrewSize * n
    requires WrenchesDone(before, fIn, kind, k, d, a, n, i, j)
    requires o == before[ScrewSize * j + MomOffset + i := vMom][ScrewSize * j + DirOffset + i := vDir]
    requires var e := JointProjWrench(kind, k, d, a, ScrewOf(fIn, j));
      vMom == Comp(e.mom, i) && vDir == Comp(e.dir, i)
    ensures WrenchesDone(o, fIn, kind, k, d, a, n, i, j + 1)
  {
    forall ii, jj | 0 <= ii < 3 && 0 <= jj < n && (ii < i || (ii == i && jj < j + 1))
      ensures WrenchCell(o, fIn, kind, k, d, a, ii, jj)
    {
      if ii != i || jj != j {
        assert WrenchCell(before, fIn, kind, k, d, a, ii, jj);
      }
    }
  }

  /** The last wrench of row i written: row i is complete. */
  lemma NextRow(o: seq<real>, fIn: seq<real>, kind: Kind, k: int, d: real, a: Abi, n: int, i: int)
    requires 0 <= k < 3 && JointPivot(kind, k, d, a) != 0.0
    requires WrenchesDone(o, fIn, kind, k, d, a, n, i, n)
    ensures WrenchesDone(o, fIn, kind, k, d, a, n, i + 1, 0)
  {
  }

  /** Slot i of the projected wrench j, read off the stored inputs. */
  lemma WrenchCellValue(kind: Kind, k: int, d: real, m: seq<real>, fIn: seq<real>, i: int, j: nat)
    requires 0 <= k < 3 && 0 <= i < 3 && |m| >= AbiSize && |fIn| >= ScrewSize * j + ScrewSize
    requires JointPivot(kind, k, d, AbiAt(m, 0)) != 0.0
    ensures var e, dd := JointProjWrench(kind, k, d, AbiAt(m, 0), ScrewOf(fIn, j)), JointPivot(kind, k, d, AbiAt(m, 0));
      var fk := fIn[ScrewSize * j + if kind == Revolute then MomOffset + k else DirOffset + k];
      var momCoef := if kind == Revolute then m[3 * k + i] else m[AbiHOffset + 3 * k + i];
      var dirCoef := if kind == Revolute then m[AbiHOffset + 3 * i + k] else m[AbiMOffset + 3 * k + i];
      Comp(e.mom, i) == fIn[ScrewSize * j + MomOffset + i] - Part(fk, momCoef, dd) &&
      Comp(e.dir, i) == fIn[ScrewSize * j + DirOffset + i] - Part(fk, dirCoef, dd)
  {
    var a := AbiAt(m, 0);
    ColRowComp(a.i, k, i);
    ColRowComp(a.h, k, i);
    ColRowComp(a.m, k, i);
    At3Slot(m, 0, i, k);
    At3Slot(m, AbiHOffset, i, k);
    At3Slot(m, AbiHOffset, k, i);
    At3Slot(m, AbiMOffset, i, k);
  }

  /** All six slots of wrench j written: the wrench is the projected one. */
  lemma WrenchDone(o: seq<real>, fIn: seq<real>, kind: Kind, k: int, d: real, a: Abi, j: int)
    requires 0 <= k < 3 && JointPivot(kind, k, d, a) != 0.0
    requires forall i :: 0 <= i < 3 ==> WrenchCell(o, fIn, kind, k, d, a, i, j)
    ensures ScrewOf(o, j) == JointProjWrench(kind, k, d, a, ScrewOf(fIn, j))
  {
    assert WrenchCell(o, fIn, kind, k, d, a, 0, j);
    assert WrenchCell(o, fIn, kind, k, d, a, 1, j);
    assert WrenchCell(o, fIn, kind, k, d, a, 2, j);
  }

  // ---------------------------------------------------------------------------
  // The specialised kernels agree with the generic formula
  // ---------------------------------------------------------------------------

  /** M S for a joint's unit twist picks a row of H and a column of I
      (revolute) or columns of M and H (prismatic). */
  lemma AbiWrenchOfJoint(a: Abi, kind: Kind, k: int)
    requires 0 <= k < 3
    ensures AbiWrench(a, JointTwist(kind, k))
         == if kind == Revolute then Screw(Row(a.h, k), Col(a.i, k)) else Screw(Col(a.m, k), Col(a.h, k))
  {
  }

  /** The specialised pivot is D = d + S^T M S: only a diagonal entry, which
      the upper triangle holds. */
  lemma JointPivotIsPivot(kind: Kind, k: int, d: real, a: Abi)
    requires 0 <= k < 3
    ensures Pivot(JointTwist(kind, k), d, a) == JointPivot(kind, k, d, a)
  {
    AbiWrenchOfJoint(UpperAbi(a), kind, k);
    JointForceSlot(AbiWrench(UpperAbi(a), JointTwist(kind, k)), kind, k);
  }

  /** A symmetric block is its own upper triangle, and its rows are its
      columns. */
  lemma UpperSymOfSymmetric(x: Mat3, k: int)
    requires Symmetric(x) && 0 <= k < 3
    ensures UpperSym(x) == x && Row(x, k) == Col(x, k)
  {
  }

  /** For a symmetric inertia the specialised rank-one update is the generic
      M - M S D^-1 S^T M. */
  lemma JointProjAbiIsGeneric(kind: Kind, k: int, d: real, a: Abi)
    requires 0 <= k < 3 && JointPivot(kind, k, d, a) != 0.0
    ensures Pivot(JointTwist(kind, k), d, a) == JointPivot(kind, k, d, a)
    ensures SymmetricAbi(a) ==> JointProjAbi(kind, k, d, a) == ProjectAbi(JointTwist(kind, k), d, a)
  {
    JointPivotIsPivot(kind, k, d, a);
    if SymmetricAbi(a) {
      UpperSymOfSymmetric(a.i, k);
      UpperSymOfSymmetric(a.m, k);
      assert UpperAbi(a) == a;
      AbiWrenchOfJoint(a, kind, k);
    }
  }

  /** The specialised wrench update is the generic F - M S D^-1 S^T F, for
      any stored inertia. */
  lemma JointProjWrenchIsGeneric(kind: Kind, k: int, d: real, a: Abi, f: Screw)
    requires 0 <= k < 3 && JointPivot(kind, k, d, a) != 0.0
    ensures Pivot(JointTwist(kind, k), d, a) == JointPivot(kind, k, d, a)
    ensures JointProjWrench(kind, k, d, a, f) == ProjectWrench(JointTwist(kind, k), d, a, f)
  {
    JointPivotIsPivot(kind, k, d, a);
    AbiWrenchOfJoint(a, kind, k);
    JointForceSlot(f, kind, k);
  }

  // ---------------------------------------------------------------------------
  // Properties of the projections
  // ---------------------------------------------------------------------------

  lemma PartInv(p: real, q: real, dd: real)
    requires dd != 0.0
    ensures Part(p, q, dd) == p * q * (1.0 / dd)
  {
  }

  /** Shares add and scale in their first factor. */
  lemma PartLinear(p: real, q: real, c: real, u: real, dd: real)
    requires dd != 0.0
    ensures Part(p, u, dd) + Part(q, u, dd) == Part(p + q, u, dd)
    ensures Part(c * p, u, dd) == c * Part(p, u, dd)
  {
    PartInv(p, u, dd);
    PartInv(q, u, dd);
    PartInv(p + q, u, dd);
    PartInv(c * p, u, dd);
  }

  /** A row of u v^T / dd against x. */
  lemma PartRow(p: real, v: Vec3, x: Vec3, dd: real)
    requires dd != 0.0
    ensures Part(p, v.x, dd) * x.x + Part(p, v.y, dd) * x.y + Part(p, v.z, dd) * x.z == Part(Dot(v, x), p, dd)
  {
    PartInv(p, v.x, dd);
    PartInv(p, v.y, dd);
    PartInv(p, v.z, dd);
    PartInv(Dot(v, x), p, dd);
  }

  /** (u v^T / dd) x = ((v . x) / dd) u. */
  lemma OuterApply(u: Vec3, v: Vec3, dd: real, x: Vec3)
    requires dd != 0.0
    ensures Apply(Outer(u, v, dd), x) == Shrink(Dot(v, x), u, dd)
  {
    PartRow(u.x, v, x, dd);
    PartRow(u.y, v, x, dd);
    PartRow(u.z, v, x, dd);
  }

  lemma OuterTranspose(u: Vec3, v: Vec3, dd: real)
    requires dd != 0.0
    ensures Transpose(Outer(u, v, dd)) == Outer(v, u, dd)
  {
  }

  /** Shrink is linear in its factor. */
  lemma ShrinkLinear(p: real, q: real, c: real, u: Vec3, dd: real)
    requires dd != 0.0
    ensures Plus(Shrink(p, u, dd), Shrink(q, u, dd)) == Shrink(p + q, u, dd)
    ensures Shrink(c * p, u, dd) == Scale(c, Shrink(p, u, dd))
  {
    PartLinear(p, q, c, u.x, dd);
    PartLinear(p, q, c, u.y, dd);
    PartLinear(p, q, c, u.z, dd);
  }

  lemma DotShrink(p: real, u: Vec3, v: Vec3, dd: real)
    requires dd != 0.0
    ensures Dot(Shrink(p, u, dd), v) == Part(p, Dot(u, v), dd)
  {
    PartRow(p, u, v, dd);
    PartCommutes(Dot(u, v), p, dd);
  }

  /** x - (q x) / (d + q) = (d / (d + q)) x. */
  lemma PartRest(x: real, q: real, d: real)
    requires d + q != 0.0
    ensures x - Part(q, x, d + q) == (d / (d + q)) * x
  {
    var inv := 1.0 / (d + q);
    PartInv(q, x, d + q);
    assert (d + q) * inv == 1.0;
    assert d / (d + q) == d * inv;
    assert x - q * x * inv == x * ((d + q) * inv) - q * x * inv;
  }

  lemma ShrinkRest(v: Vec3, q: real, d: real)
    requires d + q != 0.0
    ensures Minus(v, Shrink(q, v, d + q)) == Scale(d / (d + q), v)
  {
    PartRest(v.x, q, d);
    PartRest(v.y, q, d);
    PartRest(v.z, q, d);
  }

  lemma UpperSymSymmetric(x: Mat3)
    ensures Symmetric(UpperSym(x))
  {
  }

  /** A rank-one update u u^T / dd of a symmetric matrix keeps it symmetric. */
  lemma MinusOuterSymmetric(x: Mat3, u: Vec3, dd: real)
    requires dd != 0.0 && Symmetric(x)
    ensures Symmetric(MatMinus(x, Outer(u, u, dd)))
  {
    OuterTranspose(u, u, dd);
  }

  /** The projected inertia is symmetric, whatever the lower triangles of the
      input held. */
  lemma ProjectAbiSymmetric(s: Screw, d: real, a: Abi)
    requires Pivot(s, d, a) != 0.0
    ensures SymmetricAbi(ProjectAbi(s, d, a))
  {
    var u, dd := UpperAbi(a), Pivot(s, d, a);
    var w := AbiWrench(u, s);
    UpperSymSymmetric(a.i);
    UpperSymSymmetric(a.m);
    MinusOuterSymmetric(u.i, w.mom, dd);
    MinusOuterSymmetric(u.m, w.dir, dd);
  }

  /** The specialised kernels keep a symmetric inertia symmetric. */
  lemma JointProjAbiSymmetric(kind: Kind, k: int, d: real, a: Abi)
    requires 0 <= k < 3 && JointPivot(kind, k, d, a) != 0.0 && SymmetricAbi(a)
    ensures SymmetricAbi(JointProjAbi(kind, k, d, a))
  {
    JointProjAbiIsGeneric(kind, k, d, a);
    ProjectAbiSymmetric(JointTwist(kind, k), d, a);
  }

  /** The wrench of u - (rank-one update by w) for the twist t: the wrench of u
      less the share of w given by the power of w on t. */
  lemma RankOneWrench(u: Abi, w: Screw, t: Screw, dd: real)
    requires dd != 0.0
    ensures var f := AbiWrench(u, t);
      AbiWrench(Abi(MatMinus(u.i, Outer(w.mom, w.mom, dd)), MatMinus(u.h, Outer(w.mom, w.dir, dd)),
                    MatMinus(u.m, Outer(w.dir, w.dir, dd))), t)
      == Screw(Minus(f.dir, Shrink(Pairing(w, t), w.dir, dd)), Minus(f.mom, Shrink(Pairing(w, t), w.mom, dd)))
  {
    var h, m, i := Outer(w.mom, w.dir, dd), Outer(w.dir, w.dir, dd), Outer(w.mom, w.mom, dd);
    assert Transpose(MatMinus(u.h, h)) == MatMinus(Transpose(u.h), Transpose(h));
    OuterTranspose(w.mom, w.dir, dd);
    ApplyMatPlus(Transpose(u.h), Transpose(h), t.dir);
    ApplyMatPlus(u.m, m, t.mom);
    ApplyMatPlus(u.h, h, t.mom);
    ApplyMatPlus(u.i, i, t.dir);
    OuterApply(w.dir, w.mom, dd, t.dir);
    OuterApply(w.dir, w.dir, dd, t.mom);
    OuterApply(w.mom, w.dir, dd, t.mom);
    OuterApply(w.mom, w.mom, dd, t.dir);
    ShrinkLinear(Dot(w.mom, t.dir), Dot(w.dir, t.mom), 1.0, w.dir, dd);
    ShrinkLinear(Dot(w.dir, t.mom), Dot(w.mom, t.dir), 1.0, w.mom, dd);
    assert Dot(w.dir, t.mom) + Dot(w.mom, t.dir) == Pairing(w, t);
  }

  /** The projected inertia's wrench for the joint's own twist is that of the
      inertia scaled by d / D: with d = 0 the joint's direction carries no
      inertia any more. */
  lemma ProjectAbiAlongJoint(s: Screw, d: real, a: Abi)
    requires Pivot(s, d, a) != 0.0
    ensures AbiWrench(ProjectAbi(s, d, a), s) == ScrewScale(d / Pivot(s, d, a), AbiWrench(UpperAbi(a), s))
  {
    var w := AbiWrench(UpperAbi(a), s);
    RankOneWrench(UpperAbi(a), w, s, Pivot(s, d, a));
    ShrinkRest(w.dir, Pairing(w, s), d);
    ShrinkRest(w.mom, Pairing(w, s), d);
  }

  /** For a symmetric inertia the two projections agree: the projected
      inertia's wrench for any twist t is the projected wrench of the
      inertia's wrench for t. */
  lemma ProjectionsAgree(s: Screw, d: real, a: Abi, t: Screw)
    requires Pivot(s, d, a) != 0.0 && SymmetricAbi(a)
    ensures AbiWrench(ProjectAbi(s, d, a), t) == ProjectWrench(s, d, a, AbiWrench(a, t))
  {
    UpperSymOfSymmetric(a.i, 0);
    UpperSymOfSymmetric(a.m, 0);
    assert UpperAbi(a) == a;
    RankOneWrench(a, AbiWrench(a, s), t, Pivot(s, d, a));
    AbiWrenchReciprocal(a, t, s);
  }

  /** For a symmetric inertia the projected wrench keeps the fraction d / D of
      the joint force: with d = 0 the joint carries none of it. */
  lemma ProjectWrenchJointForce(s: Screw, d: real, a: Abi, f: Screw)
    requires Pivot(s, d, a) != 0.0 && SymmetricAbi(a)
    ensures Pairing(ProjectWrench(s, d, a, f), s) == (d / Pivot(s, d, a)) * Pairing(f, s)
  {
    UpperSymOfSymmetric(a.i, 0);
    UpperSymOfSymmetric(a.m, 0);
    assert UpperAbi(a) == a;
    var dd, w, p := Pivot(s, d, a), AbiWrench(a, s), Pairing(f, s);
    DotShrink(p, w.mom, s.dir, dd);
    DotShrink(p, w.dir, s.mom, dd);
    PartLinear(Dot(w.mom, s.dir), Dot(w.dir, s.mom), 1.0, p, dd);
    PartCommutes(p, Dot(w.mom, s.dir), dd);
    PartCommutes(p, Dot(w.dir, s.mom), dd);
    PartCommutes(p, Pairing(w, s), dd);
    PartRest(p, Pairing(w, s), d);
  }

  /** The wrench projection is additive in the wrench. */
  lemma ProjectWrenchAdditive(s: Screw, d: real, a: Abi, f: Screw, g: Screw)
    requires Pivot(s, d, a) != 0.0
    ensures ProjectWrench(s, d, a, ScrewPlus(f, g)) == ScrewPlus(ProjectWrench(s, d, a, f), ProjectWrench(s, d, a, g))
  {
    var dd, w := Pivot(s, d, a), AbiWrench(a, s);
    var p, q := Pairing(f, s), Pairing(g, s);
    DotPlus(f.mom, g.mom, s.dir);
    DotPlus(f.dir, g.dir, s.mom);
    assert Pairing(ScrewPlus(f, g), s) == p + q;
    ShrinkLinear(p, q, 1.0, w.dir, dd);
    ShrinkLinear(p, q, 1.0, w.mom, dd);
  }

  /** The wrench projection commutes with scaling the wrench. */
  lemma ProjectWrenchHomogeneous(s: Screw, d: real, a: Abi, f: Screw, c: real)
    requires Pivot(s, d, a) != 0.0
    ensures ProjectWrench(s, d, a, ScrewScale(c, f)) == ScrewScale(c, ProjectWrench(s, d, a, f))
  {
    var dd, w, p := Pivot(s, d, a), AbiWrench(a, s), Pairing(f, s);
    DotScale(c, f.mom, s.dir);
    DotScale(c, f.dir, s.mom);
    assert Pairing(ScrewScale(c, f), s) == c * p;
    ShrinkLinear(p, p, c, w.dir, dd);
    ShrinkLinear(p, p, c, w.mom, dd);
    ScaleMinus(c, f.dir, Shrink(p, w.dir, dd));
    ScaleMinus(c, f.mom, Shrink(p, w.mom, dd));
  }

  lemma ScaleMinus(c: real, u: Vec3, v: Vec3)
    ensures Scale(c, Minus(u, v)) == Minus(Scale(c, u), Scale(c, v))
  {
    assert c * (u.x - v.x) == c * u.x - c * v.x;
    assert c * (u.y - v.y) == c * u.y - c * v.y;
    assert c * (u.z - v.z) == c * u.z - c * v.z;
  }

  /** With d = 0 (no joint inertia) and a symmetric inertia the wrench
      projection is idempotent. */
  lemma ProjectWrenchIdempotent(s: Screw, a: Abi, f: Screw)
    requires Pivot(s, 0.0, a) != 0.0 && SymmetricAbi(a)
    ensures ProjectWrench(s, 0.0, a, ProjectWrench(s, 0.0, a, f)) == ProjectWrench(s, 0.0, a, f)
  {
    ProjectWrenchJointForce(s, 0.0, a, f);
  }
}
