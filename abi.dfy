// Articulated-body inertias (src/joint.c:306-437, 1000-1039): the tuple form
// of include/dyn2b/types/joint.h, which stores the three 3x3 blocks of the
// 6x6 matrix [I H; H^T M] (I at slot 0, H at 9, M at 18, each column-major),
// the wrench an inertia exerts on a batch of twists, and the conversions
// between the tuple and the dense 6x6 matrix.

module Articulated {
  import opened Buffers
  import opened Spatial
  import opened Blas
  import opened Vector3
  import opened Screws
  import opened Mechanics

  // ---------------------------------------------------------------------------
  // Specification
  // ---------------------------------------------------------------------------

  /** An articulated-body inertia: the blocks of [I H; H^T M], which relates a
      twist (angular first) to a wrench (moment first in this order). */
  datatype Abi = Abi(i: Mat3, h: Mat3, m: Mat3)

  const AbiHOffset := 9
  const AbiMOffset := 18
  const AbiSize := 27

  function AbiAt(s: seq<real>, o: int): Abi
  {
    Abi(Mat3At(s, o), Mat3At(s, o + AbiHOffset), Mat3At(s, o + AbiMOffset))
  }

  /** The articulated inertia of a lone rigid body: H = [h]x and M = m Id. */
  function AbiOfRbi(r: Rbi): Abi
  {
    Abi(r.inertia, Skew(r.h), MatScale(r.m, Identity3))
  }

  /** The wrench the inertia exerts for the acceleration twist t = (w, v):
      force H^T w + M v, moment H v + I w, each sum in the order the kernel
      accumulates it. */
  function AbiWrench(a: Abi, t: Screw): Screw
  {
    Screw(Plus(Apply(Transpose(a.h), t.dir), Apply(a.m, t.mom)),
          Plus(Apply(a.h, t.mom), Apply(a.i, t.dir)))
  }

  /** Both diagonal blocks symmetric: then the 6x6 matrix is symmetric. */
  predicate SymmetricAbi(a: Abi)
  {
    Symmetric(a.i) && Symmetric(a.m)
  }

  /** A dense 6x6 matrix (DYN2B_SCREW3_SIZE squared slots), column-major. */
  const MatSize := 36

  /** Entry (r, c) of a dense 6x6 matrix. */
  function Entry6(m: seq<real>, r: int, c: int): real
  {
    Get(m, r + 6 * c)
  }

  /** Entry (r, c) of [I H; H^T M]. */
  function AbiEntry(a: Abi, r: int, c: int): real
    requires 0 <= r < 6 && 0 <= c < 6
  {
    if r < 3 && c < 3 then At3(a.i, r, c)
    else if r < 3 then At3(a.h, r, c - 3)
    else if c < 3 then At3(a.h, c, r - 3)
    else At3(a.m, r - 3, c - 3)
  }

  /** The dense matrix [I H; H^T M] of a tuple. */
  function MatOf(a: Abi): seq<real>
  {
    seq(MatSize, p requires 0 <= p < MatSize => AbiEntry(a, p % 6, p / 6))
  }

  /** The 3x3 block of a dense 6x6 matrix whose first entry is slot o. */
  function Block6(m: seq<real>, o: int): Mat3
  {
    Mat3(Vec3At(m, o), Vec3At(m, o + 6), Vec3At(m, o + 12))
  }

  /** The tuple of a dense matrix: its top-left, top-right and bottom-right
      blocks; the bottom-left block is not read. */
  function TupOf(m: seq<real>): Abi
  {
    Abi(Block6(m, 0), Block6(m, 18), Block6(m, 21))
  }

  predicate Symmetric6(m: seq<real>)
  {
    forall r, c :: 0 <= r < 6 && 0 <= c < 6 ==> Entry6(m, r, c) == Entry6(m, c, r)
  }

  /** The bottom-left block is the transpose of the top-right one. */
  predicate LowerMirrorsUpper(m: seq<real>)
  {
    forall r, c :: 0 <= r < 3 && 0 <= c < 3 ==> Mirrored(m, r, c)
  }

  predicate Mirrored(m: seq<real>, r: int, c: int)
  {
    Entry6(m, 3 + r, c) == Entry6(m, c, 3 + r)
  }

  // ---------------------------------------------------------------------------
  // Kernels
  // ---------------------------------------------------------------------------

  /** dyn2b_to_abi3: the inertia of a rigid body in tuple form. */
  method ToAbi3(rbi: seq<real>, abi: array<real>)
    requires |rbi| >= RbiSize && abi.Length >= AbiSize
    modifies abi
    ensures AbiAt(abi[..], 0) == AbiOfRbi(RbiAt(rbi))
    ensures forall p :: AbiSize <= p < abi.Length ==> abi[p] == old(abi[p])
  {
    Copy(9, rbi, 0, abi, 0);
    ghost var c1 := abi[..];
    SkwVec3(rbi, RbiHOffset, abi, AbiHOffset);
    ghost var c2 := abi[..];
    var m := rbi[RbiMOffset];
    PutMat3(abi, AbiMOffset, Mat3(Vec3(m, 0.0, 0.0), Vec3(0.0, m, 0.0), Vec3(0.0, 0.0, m)));
    Mat3Unchanged(c1, rbi, 0);
    Mat3Unchanged(c2, c1, 0);
    Mat3Unchanged(abi[..], c2, 0);
    Mat3Unchanged(abi[..], c2, AbiHOffset);
    AbiOfBlocks(abi[..], RbiAt(rbi));
  }

  /** A buffer holding the inertia, the skew matrix of h and m on the diagonal
      in its three blocks holds the tuple of the rigid body. */
  lemma AbiOfBlocks(d: seq<real>, r: Rbi)
    requires Mat3At(d, 0) == r.inertia && Mat3At(d, AbiHOffset) == Skew(r.h)
    requires Mat3At(d, AbiMOffset) == Mat3(Vec3(r.m, 0.0, 0.0), Vec3(0.0, r.m, 0.0), Vec3(0.0, 0.0, r.m))
    ensures AbiAt(d, 0) == AbiOfRbi(r)
  {
    MassBlock(r.m);
  }

  /** The mass block m 1 of a rigid body's tuple, entry by entry. */
  lemma MassBlock(m: real)
    ensures MatScale(m, Identity3) == Mat3(Vec3(m, 0.0, 0.0), Vec3(0.0, m, 0.0), Vec3(0.0, 0.0, m))
  {
  }

  /** dyn2b_abi_to_wrench3: the wrenches of n acceleration twists, each twist
      and each wrench six slots apart. */
  method AbiToWrench3(n: nat, abi: seq<real>, xdd: seq<real>, w: array<real>)
    requires |abi| >= AbiSize && |xdd| >= ScrewSize * n && w.Length >= ScrewSize * n
    modifies w
    ensures forall j :: 0 <= j < n ==> ScrewOf(w[..], j) == AbiWrench(AbiAt(abi, 0), ScrewOf(xdd, j))
    ensures KeptOutside(w[..], old(w[..]), 0, ScrewSize, n, ScrewSize)
  {
    ghost var c0 := w[..];
    if n > 0 {
      assert Slot(MomOffset, ScrewSize, n - 1) + 3 == ScrewSize * n;
    }
    var ang, lin := View(xdd, DirOffset, ScrewSize, Plain), View(xdd, MomOffset, ScrewSize, Plain);
    Gemm(3, n, 3, 1.0, View(abi, 0, 3, Plain), ang, 0.0, w, MomOffset, ScrewSize);
    ghost var c1 := w[..];
    Gemm(3, n, 3, 1.0, View(abi, AbiHOffset, 3, Plain), lin, 1.0, w, MomOffset, ScrewSize);
    ghost var c2 := w[..];
    Gemm(3, n, 3, 1.0, View(abi, AbiMOffset, 3, Plain), lin, 0.0, w, DirOffset, ScrewSize);
    ghost var c3 := w[..];
    Gemm(3, n, 3, 1.0, View(abi, AbiHOffset, 3, Trans), ang, 1.0, w, DirOffset, ScrewSize);
    ghost var c4 := w[..];

    KeptTrans(c2, c1, c0, MomOffset, ScrewSize, n, 3);
    KeptTrans(c4, c3, c2, DirOffset, ScrewSize, n, 3);
    forall j | 0 <= j < n
      ensures ScrewOf(c4, j) == AbiWrench(AbiAt(abi, 0), ScrewOf(xdd, j))
    {
      AbiWrenchColumn(abi, xdd, c4, c3, c2, c1, c0, n, j);
    }
    SplitRunsTrailingFirst(c4, c2, c0, 0, ScrewSize, n, 3, 3);
  }

  /** Wrench j after the four products of dyn2b_abi_to_wrench3. */
  lemma AbiWrenchColumn(abi: seq<real>, xdd: seq<real>, c4: seq<real>, c3: seq<real>, c2: seq<real>,
                        c1: seq<real>, c0: seq<real>, n: nat, j: int)
    requires GemmDone(c1, c0, 3, n, 3, 1.0, View(abi, 0, 3, Plain), View(xdd, DirOffset, ScrewSize, Plain), 0.0,
                      MomOffset, ScrewSize)
    requires GemmDone(c2, c1, 3, n, 3, 1.0, View(abi, AbiHOffset, 3, Plain), View(xdd, MomOffset, ScrewSize, Plain),
                      1.0, MomOffset, ScrewSize)
    requires GemmDone(c3, c2, 3, n, 3, 1.0, View(abi, AbiMOffset, 3, Plain), View(xdd, MomOffset, ScrewSize, Plain),
                      0.0, DirOffset, ScrewSize)
    requires GemmDone(c4, c3, 3, n, 3, 1.0, View(abi, AbiHOffset, 3, Trans), View(xdd, DirOffset, ScrewSize, Plain),
                      1.0, DirOffset, ScrewSize)
    requires KeptOutside(c4, c2, DirOffset, ScrewSize, n, 3)
    requires 0 <= j < n
    ensures ScrewOf(c4, j) == AbiWrench(AbiAt(abi, 0), ScrewOf(xdd, j))
  {
    AbiMomentColumn(abi, xdd, c2, c1, c0, n, j);
    AbiForceColumn(abi, xdd, c4, c3, c2, n, j);
    HalvesKept(c4, c2, n, j, DirOffset);
  }

  /** The moment half of wrench j: H v + I omega, from the first two products. */
  lemma AbiMomentColumn(abi: seq<real>, xdd: seq<real>, c2: seq<real>, c1: seq<real>, c0: seq<real>, n: nat, j: int)
    requires GemmDone(c1, c0, 3, n, 3, 1.0, View(abi, 0, 3, Plain), View(xdd, DirOffset, ScrewSize, Plain), 0.0,
                      MomOffset, ScrewSize)
    requires GemmDone(c2, c1, 3, n, 3, 1.0, View(abi, AbiHOffset, 3, Plain), View(xdd, MomOffset, ScrewSize, Plain),
                      1.0, MomOffset, ScrewSize)
    requires 0 <= j < n
    ensures Vec3At(c2, Slot(MomOffset, ScrewSize, j))
         == Plus(Apply(Mat3At(abi, AbiHOffset), Vec3At(xdd, Slot(MomOffset, ScrewSize, j))),
                 Apply(Mat3At(abi, 0), Vec3At(xdd, Slot(DirOffset, ScrewSize, j))))
  {
    PlainBlock(abi, 0);
    PlainBlock(abi, AbiHOffset);
    ColumnOfBatch(xdd, DirOffset, ScrewSize, j);
    ColumnOfBatch(xdd, MomOffset, ScrewSize, j);
    GemmVec3Units(c1, c0, n, View(abi, 0, 3, Plain), View(xdd, DirOffset, ScrewSize, Plain), 0.0,
                  MomOffset, ScrewSize, j);
    GemmVec3Units(c2, c1, n, View(abi, AbiHOffset, 3, Plain), View(xdd, MomOffset, ScrewSize, Plain), 1.0,
                  MomOffset, ScrewSize, j);
  }

  /** The force half of wrench j: H^T omega + M v, from the last two products. */
  lemma AbiForceColumn(abi: seq<real>, xdd: seq<real>, c4: seq<real>, c3: seq<real>, c2: seq<real>, n: nat, j: int)
    requires GemmDone(c3, c2, 3, n, 3, 1.0, View(abi, AbiMOffset, 3, Plain), View(xdd, MomOffset, ScrewSize, Plain),
                      0.0, DirOffset, ScrewSize)
    requires GemmDone(c4, c3, 3, n, 3, 1.0, View(abi, AbiHOffset, 3, Trans), View(xdd, DirOffset, ScrewSize, Plain),
                      1.0, DirOffset, ScrewSize)
    requires 0 <= j < n
    ensures Vec3At(c4, Slot(DirOffset, ScrewSize, j))
         == Plus(Apply(Transpose(Mat3At(abi, AbiHOffset)), Vec3At(xdd, Slot(DirOffset, ScrewSize, j))),
                 Apply(Mat3At(abi, AbiMOffset), Vec3At(xdd, Slot(MomOffset, ScrewSize, j))))
  {
    PlainBlock(abi, AbiMOffset);
    TransBlock(abi, AbiHOffset);
    ColumnOfBatch(xdd, DirOffset, ScrewSize, j);
    ColumnOfBatch(xdd, MomOffset, ScrewSize, j);
    GemmVec3Units(c3, c2, n, View(abi, AbiMOffset, 3, Plain), View(xdd, MomOffset, ScrewSize, Plain), 0.0,
                  DirOffset, ScrewSize, j);
    GemmVec3Units(c4, c3, n, View(abi, AbiHOffset, 3, Trans), View(xdd, DirOffset, ScrewSize, Plain), 1.0,
                  DirOffset, ScrewSize, j);
  }

  /** The four entries (r, c), (3 + r, c), (r, 3 + c), (3 + r, 3 + c) of m are
      those of the tuple's dense matrix. */
  ghost predicate Placed(m: seq<real>, a: Abi, r: int, c: int)
    requires 0 <= r < 3 && 0 <= c < 3
  {
    Entry6(m, r, c) == AbiEntry(a, r, c) && Entry6(m, 3 + r, c) == AbiEntry(a, 3 + r, c) &&
    Entry6(m, r, 3 + c) == AbiEntry(a, r, 3 + c) && Entry6(m, 3 + r, 3 + c) == AbiEntry(a, 3 + r, 3 + c)
  }

  /** dyn2b_to_mat_abi3: the dense 6x6 matrix of a tuple. */
  method ToMatAbi3(tup: seq<real>, mat: array<real>)
    requires |tup| >= AbiSize && mat.Length >= MatSize
    modifies mat
    ensures mat[..MatSize] == MatOf(AbiAt(tup, 0))
    ensures forall p :: MatSize <= p < mat.Length ==> mat[p] == old(mat[p])
  {
    ghost var a := AbiAt(tup, 0);
    for i := 0 to 3
      invariant forall r, c :: 0 <= r < 3 && 0 <= c < i ==> Placed(mat[..], a, r, c)
      invariant forall p :: MatSize <= p < mat.Length ==> mat[p] == old(mat[p])
    {
      for j := 0 to 3
        invariant forall r, c :: 0 <= r < 3 && 0 <= c < i ==> Placed(mat[..], a, r, c)
        invariant forall r :: 0 <= r < j ==> Placed(mat[..], a, r, i)
        invariant forall p :: MatSize <= p < mat.Length ==> mat[p] == old(mat[p])
      {
        ghost var before := mat[..];
        mat[0 + 6 * i + j] := tup[0 + 3 * i + j];
        mat[3 + 6 * i + j] := tup[AbiHOffset + 3 * j + i];
        mat[18 + 6 * i + j] := tup[AbiHOffset + 3 * i + j];
        mat[21 + 6 * i + j] := tup[AbiMOffset + 3 * i + j];
        PlaceStep(mat[..], before, tup, i, j);
      }
    }
    AllPlaced(mat[..], a);
  }

  /** One iteration of dyn2b_to_mat_abi3 places entry (j, i) of each block and
      keeps the others. */
  lemma PlaceStep(m: seq<real>, before: seq<real>, tup: seq<real>, i: int, j: int)
    requires |tup| >= AbiSize && |before| >= MatSize && 0 <= i < 3 && 0 <= j < 3
    requires m == before[6 * i + j := tup[3 * i + j]][3 + 6 * i + j := tup[AbiHOffset + 3 * j + i]]
                        [18 + 6 * i + j := tup[AbiHOffset + 3 * i + j]][21 + 6 * i + j := tup[AbiMOffset + 3 * i + j]]
    ensures Placed(m, AbiAt(tup, 0), j, i)
    ensures forall r, c :: 0 <= r < 3 && 0 <= c < 3 && Placed(before, AbiAt(tup, 0), r, c) && (r != j || c != i) ==>
      Placed(m, AbiAt(tup, 0), r, c)
  {
    At3Slot(tup, 0, j, i);
    At3Slot(tup, AbiHOffset, i, j);
    At3Slot(tup, AbiHOffset, j, i);
    At3Slot(tup, AbiMOffset, j, i);
    forall r, c | 0 <= r < 3 && 0 <= c < 3 && Placed(before, AbiAt(tup, 0), r, c) && (r != j || c != i)
      ensures Placed(m, AbiAt(tup, 0), r, c)
    {
      PlacedKept(m, before, AbiAt(tup, 0), r, c, 6 * i + j);
    }
  }

  /** Entries (r, c) placed earlier survive writes to the four slots of another
      column of blocks, which start at slot q of the top-left block. */
  lemma PlacedKept(m: seq<real>, before: seq<real>, a: Abi, r: int, c: int, q: int)
    requires 0 <= r < 3 && 0 <= c < 3 && 0 <= q < 15 && q % 6 < 3 && q != r + 6 * c
    requires |m| == |before| >= MatSize
    requires forall p :: 0 <= p < |m| && p != q && p != q + 3 && p != q + 18 && p != q + 21 ==> m[p] == before[p]
    requires Placed(before, a, r, c)
    ensures Placed(m, a, r, c)
  {
    assert Entry6(m, r, c) == Entry6(before, r, c);
    assert Entry6(m, 3 + r, c) == Entry6(before, 3 + r, c);
    assert Entry6(m, r, 3 + c) == Entry6(before, r, 3 + c);
    assert Entry6(m, 3 + r, 3 + c) == Entry6(before, 3 + r, 3 + c);
  }

  /** All four blocks placed: the first 36 slots are the dense matrix. */
  lemma AllPlaced(m: seq<real>, a: Abi)
    requires |m| >= MatSize
    requires forall r, c :: 0 <= r < 3 && 0 <= c < 3 ==> Placed(m, a, r, c)
    ensures m[..MatSize] == MatOf(a)
  {
    forall p | 0 <= p < MatSize
      ensures m[p] == MatOf(a)[p]
    {
      var r, c := p % 6, p / 6;
      assert p == r + 6 * c;
      PlacedEntry(m, a, r, c);
    }
  }

  /** Entry (r, c) of the dense matrix is one of the four entries placed with
      the block entry (r mod 3, c mod 3). */
  lemma PlacedEntry(m: seq<real>, a: Abi, r: int, c: int)
    requires 0 <= r < 6 && 0 <= c < 6
    requires Placed(m, a, if r < 3 then r else r - 3, if c < 3 then c else c - 3)
    ensures Entry6(m, r, c) == AbiEntry(a, r, c)
  {
  }

  /** Entries (r, c) of the tuple's three blocks are the dense entries (r, c),
      (r, 3 + c) and (3 + r, 3 + c) of m. */
  ghost predicate Copied(t: seq<real>, m: seq<real>, r: int, c: int)
  {
    Get(t, r + 3 * c) == Entry6(m, r, c) &&
    Get(t, AbiHOffset + r + 3 * c) == Entry6(m, r, 3 + c) &&
    Get(t, AbiMOffset + r + 3 * c) == Entry6(m, 3 + r, 3 + c)
  }

  /** dyn2b_to_tup_abi3: the tuple of a dense 6x6 matrix. */
  method ToTupAbi3(mat: seq<real>, tup: array<real>)
    requires |mat| >= MatSize && tup.Length >= AbiSize
    modifies tup
    ensures AbiAt(tup[..], 0) == TupOf(mat)
    ensures forall p :: AbiSize <= p < tup.Length ==> tup[p] == old(tup[p])
  {
    for i := 0 to 3
      invariant forall r, c :: 0 <= r < 3 && 0 <= c < i ==> Copied(tup[..], mat, r, c)
      invariant forall p :: AbiSize <= p < tup.Length ==> tup[p] == old(tup[p])
    {
      for j := 0 to 3
        invariant forall r, c :: 0 <= r < 3 && 0 <= c < i ==> Copied(tup[..], mat, r, c)
        invariant forall r :: 0 <= r < j ==> Copied(tup[..], mat, r, i)
        invariant forall p :: AbiSize <= p < tup.Length ==> tup[p] == old(tup[p])
      {
        ghost var before := tup[..];
        tup[0 + 3 * i + j] := mat[0 + 6 * i + j];
        tup[AbiHOffset + 3 * i + j] := mat[18 + 6 * i + j];
        tup[AbiMOffset + 3 * i + j] := mat[21 + 6 * i + j];
        CopyStep(tup[..], before, mat, i, j);
      }
    }
    ghost var t := tup[..];
    forall r, c | 0 <= r < 3 && 0 <= c < 3
      ensures Get(t, 0 + r + 3 * c) == At3(Block6(mat, 0), r, c)
      ensures Get(t, AbiHOffset + r + 3 * c) == At3(Block6(mat, 18), r, c)
      ensures Get(t, AbiMOffset + r + 3 * c) == At3(Block6(mat, 21), r, c)
    {
      assert Copied(t, mat, r, c);
    }
    Mat3Ext(t, 0, Block6(mat, 0));
    Mat3Ext(t, AbiHOffset, Block6(mat, 18));
    Mat3Ext(t, AbiMOffset, Block6(mat, 21));
  }

  /** One iteration of dyn2b_to_tup_abi3 copies entry (j, i) of each block
      and keeps the others. */
  lemma CopyStep(t: seq<real>, before: seq<real>, mat: seq<real>, i: int, j: int)
    requires |mat| >= MatSize && |before| >= AbiSize && 0 <= i < 3 && 0 <= j < 3
    requires t == before[3 * i + j := mat[6 * i + j]][AbiHOffset + 3 * i + j := mat[18 + 6 * i + j]]
                        [AbiMOffset + 3 * i + j := mat[21 + 6 * i + j]]
    ensures Copied(t, mat, j, i)
    ensures forall r, c :: 0 <= r < 3 && 0 <= c < 3 && Copied(before, mat, r, c) && (r != j || c != i) ==>
      Copied(t, mat, r, c)
  {
  }

  // ---------------------------------------------------------------------------
  // Properties
  // ---------------------------------------------------------------------------

  /** A rigid body's tuple-form inertia exerts the same wrench as the rigid
      body itself (dyn2b_rbi_to_wrench3). */
  lemma AbiOfRbiWrench(r: Rbi, t: Screw)
    ensures AbiWrench(AbiOfRbi(r), t) == RbiWrench(r, t)
  {
    SkewApply(r.h, t.mom);
    SkewAntisymmetric(r.h);
    assert Apply(Transpose(Skew(r.h)), t.dir) == Cross(t.dir, r.h);
    assert Apply(MatScale(r.m, Identity3), t.mom) == Scale(r.m, t.mom);
  }

  /** The mass block of a rigid body's tuple is symmetric, and the whole tuple
      is when the rotational inertia is. */
  lemma AbiOfRbiSymmetric(r: Rbi)
    ensures Symmetric(AbiOfRbi(r).m)
    ensures Symmetric(r.inertia) <==> SymmetricAbi(AbiOfRbi(r))
  {
  }

  /** Entry (r, c) of the dense matrix of a tuple. */
  lemma MatOfEntry(a: Abi, r: int, c: int)
    requires 0 <= r < 6 && 0 <= c < 6
    ensures Entry6(MatOf(a), r, c) == AbiEntry(a, r, c)
  {
    assert (r + 6 * c) % 6 == r && (r + 6 * c) / 6 == c;
  }

  /** Entry (r, c) of a 3x3 block of a dense matrix. */
  lemma Block6Entry(m: seq<real>, o: int, r: int, c: int)
    requires 0 <= r < 3 && 0 <= c < 3
    ensures At3(Block6(m, o), r, c) == Get(m, o + r + 6 * c)
  {
  }

  /** to_tup_abi3 undoes to_mat_abi3 exactly. */
  lemma {:induction false} TupOfMatOf(a: Abi)
    ensures TupOf(MatOf(a)) == a
  {
    var m := MatOf(a);
    forall r, c | 0 <= r < 3 && 0 <= c < 3
      ensures Get(m, 0 + r + 6 * c) == At3(a.i, r, c)
      ensures Get(m, 18 + r + 6 * c) == At3(a.h, r, c)
      ensures Get(m, 21 + r + 6 * c) == At3(a.m, r, c)
    {
      MatOfEntry(a, r, c);
      MatOfEntry(a, r, 3 + c);
      MatOfEntry(a, 3 + r, 3 + c);
    }
    forall o | o in {0, 18, 21}
      ensures forall r, c :: 0 <= r < 3 && 0 <= c < 3 ==> Get(m, o + r + 6 * c) == At3(Block6(m, o), r, c)
    {
      forall r, c | 0 <= r < 3 && 0 <= c < 3
        ensures Get(m, o + r + 6 * c) == At3(Block6(m, o), r, c)
      {
        Block6Entry(m, o, r, c);
      }
    }
    Mat3Eq(Block6(m, 0), a.i);
    Mat3Eq(Block6(m, 18), a.h);
    Mat3Eq(Block6(m, 21), a.m);
  }

  /** The dense matrix of a tuple is symmetric exactly when I and M are: its
      bottom-left block is H^T by construction. */
  lemma {:induction false} MatOfSymmetric(a: Abi)
    ensures Symmetric6(MatOf(a)) <==> SymmetricAbi(a)
  {
    var m := MatOf(a);
    if SymmetricAbi(a) {
      forall r, c | 0 <= r < 6 && 0 <= c < 6
        ensures Entry6(m, r, c) == Entry6(m, c, r)
      {
        MatOfEntry(a, r, c);
        MatOfEntry(a, c, r);
      }
    }
    if Symmetric6(m) {
      forall r, c | 0 <= r < 3 && 0 <= c < 3
        ensures At3(a.i, r, c) == At3(a.i, c, r) && At3(a.m, r, c) == At3(a.m, c, r)
      {
        assert Entry6(m, r, c) == Entry6(m, c, r);
        assert Entry6(m, 3 + r, 3 + c) == Entry6(m, 3 + c, 3 + r);
        MatOfEntry(a, r, c);
        MatOfEntry(a, c, r);
        MatOfEntry(a, 3 + r, 3 + c);
        MatOfEntry(a, 3 + c, 3 + r);
      }
      Mat3Eq(a.i, Transpose(a.i));
      Mat3Eq(a.m, Transpose(a.m));
    }
  }

  /** to_mat_abi3 undoes to_tup_abi3 exactly when the bottom-left block of the
      dense matrix mirrors its top-right block, the one block to_tup_abi3 does
      not read. */
  lemma {:induction false} MatOfTupOf(m: seq<real>)
    requires |m| == MatSize
    ensures MatOf(TupOf(m)) == m <==> LowerMirrorsUpper(m)
  {
    TupOfEntries(m);
    if MatOf(TupOf(m)) == m {
      RoundTripMirrors(m);
    }
    if LowerMirrorsUpper(m) {
      MirroredRoundTrip(m);
    }
  }

  /** The dense matrix of TupOf(m) agrees with m except in its bottom-left
      block, which mirrors the top-right one. */
  lemma {:induction false} TupOfEntries(m: seq<real>)
    ensures forall r, c :: 0 <= r < 6 && 0 <= c < 6 ==>
      AbiEntry(TupOf(m), r, c) == if r >= 3 && c < 3 then Entry6(m, c, r) else Entry6(m, r, c)
  {
    forall r, c | 0 <= r < 6 && 0 <= c < 6
      ensures AbiEntry(TupOf(m), r, c) == if r >= 3 && c < 3 then Entry6(m, c, r) else Entry6(m, r, c)
    {
      if r < 3 && c < 3 {
        Block6Entry(m, 0, r, c);
      } else if r < 3 {
        Block6Entry(m, 18, r, c - 3);
      } else if c < 3 {
        Block6Entry(m, 18, c, r - 3);
      } else {
        Block6Entry(m, 21, r - 3, c - 3);
      }
    }
  }

  lemma RoundTripMirrors(m: seq<real>)
    requires forall r, c :: 0 <= r < 6 && 0 <= c < 6 ==>
      AbiEntry(TupOf(m), r, c) == if r >= 3 && c < 3 then Entry6(m, c, r) else Entry6(m, r, c)
    requires MatOf(TupOf(m)) == m
    ensures LowerMirrorsUpper(m)
  {
    forall r, c | 0 <= r < 3 && 0 <= c < 3
      ensures Mirrored(m, r, c)
    {
      MatOfEntry(TupOf(m), 3 + r, c);
    }
  }

  lemma MirroredRoundTrip(m: seq<real>)
    requires |m| == MatSize
    requires forall r, c :: 0 <= r < 6 && 0 <= c < 6 ==>
      AbiEntry(TupOf(m), r, c) == if r >= 3 && c < 3 then Entry6(m, c, r) else Entry6(m, r, c)
    requires LowerMirrorsUpper(m)
    ensures MatOf(TupOf(m)) == m
  {
    var a := TupOf(m);
    forall p | 0 <= p < MatSize
      ensures MatOf(a)[p] == m[p]
    {
      var r, c := p % 6, p / 6;
      assert p == r + 6 * c;
      MatOfEntry(a, r, c);
      if r >= 3 && c < 3 {
        assert Mirrored(m, r - 3, c);
      }
    }
  }

  /** In particular a symmetric dense matrix survives the round trip. */
  lemma SymmetricRoundTrip(m: seq<real>)
    requires |m| == MatSize && Symmetric6(m)
    ensures MatOf(TupOf(m)) == m
  {
    forall r, c | 0 <= r < 3 && 0 <= c < 3
      ensures Mirrored(m, r, c)
    {
      assert Entry6(m, 3 + r, c) == Entry6(m, c, 3 + r);
    }
    MatOfTupOf(m);
  }

  /** The wrench is linear in the twist. */
  lemma AbiWrenchLinear(a: Abi, t: Screw, u: Screw, k: real)
    ensures AbiWrench(a, ScrewPlus(t, u)) == ScrewPlus(AbiWrench(a, t), AbiWrench(a, u))
    ensures AbiWrench(a, ScrewScale(k, t)) == ScrewScale(k, AbiWrench(a, t))
  {
    ApplyPlus(Transpose(a.h), t.dir, u.dir);
    ApplyPlus(a.m, t.mom, u.mom);
    ApplyPlus(a.h, t.mom, u.mom);
    ApplyPlus(a.i, t.dir, u.dir);
    ApplyScale(Transpose(a.h), k, t.dir);
    ApplyScale(a.m, k, t.mom);
    ApplyScale(a.h, k, t.mom);
    ApplyScale(a.i, k, t.dir);
    ScalePlus(k, Apply(Transpose(a.h), t.dir), Apply(a.m, t.mom));
    ScalePlus(k, Apply(a.h, t.mom), Apply(a.i, t.dir));
  }

  /** For a symmetric inertia the power pairing is symmetric: the work one
      twist's wrench does on another equals the reverse (reciprocity). */
  lemma AbiWrenchReciprocal(a: Abi, t: Screw, u: Screw)
    requires SymmetricAbi(a)
    ensures Pairing(AbiWrench(a, t), u) == Pairing(AbiWrench(a, u), t)
  {
    DotPlus(Apply(Transpose(a.h), t.dir), Apply(a.m, t.mom), u.mom);
    DotPlus(Apply(a.h, t.mom), Apply(a.i, t.dir), u.dir);
    DotPlus(Apply(Transpose(a.h), u.dir), Apply(a.m, u.mom), t.mom);
    DotPlus(Apply(a.h, u.mom), Apply(a.i, u.dir), t.dir);
    DotApplyTranspose(a.h, u.mom, t.dir);
    DotApplyTranspose(a.h, t.mom, u.dir);
    DotApplyTranspose(a.m, t.mom, u.mom);
    DotApplyTranspose(a.i, t.dir, u.dir);
  }

  /** The six entries of a twist in memory order, angular part first. */
  function TwistEntries(t: Screw): (x: seq<real>)
    ensures |x| == 6 && x[0] == t.dir.x && x[3] == t.mom.x
  {
    [t.dir.x, t.dir.y, t.dir.z, t.mom.x, t.mom.y, t.mom.z]
  }

  /** Row r of a dense 6x6 matrix times a 6-vector. */
  function DenseRow(m: seq<real>, x: seq<real>, r: int): real
    requires |x| == 6
  {
    Entry6(m, r, 0) * x[0] + Entry6(m, r, 1) * x[1] + Entry6(m, r, 2) * x[2] +
    Entry6(m, r, 3) * x[3] + Entry6(m, r, 4) * x[4] + Entry6(m, r, 5) * x[5]
  }

  /** The wrench of a tuple is the dense 6x6 matrix [I H; H^T M] applied to the
      twist: row r < 3 gives moment component r, row r + 3 force component r. */
  lemma AbiWrenchIsDense(a: Abi, t: Screw, r: int)
    requires 0 <= r < 3
    ensures DenseRow(MatOf(a), TwistEntries(t), r) == Comp(AbiWrench(a, t).mom, r)
    ensures DenseRow(MatOf(a), TwistEntries(t), r + 3) == Comp(AbiWrench(a, t).dir, r)
  {
    DenseMomentRow(a, t, r);
    DenseForceRow(a, t, r);
  }

  /** Row r < 3 of [I H; H^T M] times the twist is I w + H v, component r. */
  lemma DenseMomentRow(a: Abi, t: Screw, r: int)
    requires 0 <= r < 3
    ensures DenseRow(MatOf(a), TwistEntries(t), r) == Comp(AbiWrench(a, t).mom, r)
  {
    MatOfEntry(a, r, 0); MatOfEntry(a, r, 1); MatOfEntry(a, r, 2);
    MatOfEntry(a, r, 3); MatOfEntry(a, r, 4); MatOfEntry(a, r, 5);
  }

  /** Row r + 3 of [I H; H^T M] times the twist is H^T w + M v, component r. */
  lemma DenseForceRow(a: Abi, t: Screw, r: int)
    requires 0 <= r < 3
    ensures DenseRow(MatOf(a), TwistEntries(t), r + 3) == Comp(AbiWrench(a, t).dir, r)
  {
    MatOfEntry(a, r + 3, 0); MatOfEntry(a, r + 3, 1); MatOfEntry(a, r + 3, 2);
    MatOfEntry(a, r + 3, 3); MatOfEntry(a, r + 3, 4); MatOfEntry(a, r + 3, 5);
  }
}
