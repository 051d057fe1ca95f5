// The three BLAS routines the kernels call (dgemm, dgemv as a one-column
// dgemm, dsymm with the upper triangle), daxpy and memcpy, stated by the
// mathematics their reference implementations compute on column-major
// operands. Their own implementations are not part of this model: each routine
// is a plain loop proved against that mathematics.

module Blas {
  import opened Buffers
  import opened Spatial

  /** How an operand is read: as stored, transposed (CblasTrans), or as the
      symmetric matrix whose upper triangle is stored (CblasUpper of dsymm). */
  datatype Layout = Plain | Trans | SymUpper

  /** A matrix operand: a buffer, the offset of its first entry, its leading
      dimension and how it is read. */
  datatype View = View(data: seq<real>, off: int, ld: int, layout: Layout)

  /** Entry (i, j) of op(A). */
  function At(v: View, i: int, j: int): real
  {
    match v.layout
    case Plain => Get(v.data, Entry(v.off, v.ld, i, j))
    case Trans => Get(v.data, Entry(v.off, v.ld, j, i))
    case SymUpper =>
      if i <= j then Get(v.data, Entry(v.off, v.ld, i, j))
      else Get(v.data, Entry(v.off, v.ld, j, i))
  }

  /** The inner product of row i of op(A) and column j of op(B) over the first
      k terms: entry (i, j) of op(A) op(B) when k is the inner dimension. */
  function Dot(a: View, b: View, i: int, j: int, k: nat): real
  {
    if k == 0 then 0.0 else Dot(a, b, i, j, k - 1) + At(a, i, k - 1) * At(b, k - 1, j)
  }

  /** The top-left 3x3 block of op(A). */
  function Block3(v: View): Mat3
  {
    Mat3(Vec3(At(v, 0, 0), At(v, 1, 0), At(v, 2, 0)),
         Vec3(At(v, 0, 1), At(v, 1, 1), At(v, 2, 1)),
         Vec3(At(v, 0, 2), At(v, 1, 2), At(v, 2, 2)))
  }

  /** The first three entries of column j of op(B). */
  function Column3(v: View, j: int): Vec3
  {
    Vec3(At(v, 0, j), At(v, 1, j), At(v, 2, j))
  }

  /** The first three entries of column j of op(A) op(B) when the inner
      dimension is 3. */
  function Product3(a: View, b: View, j: int): Vec3
  {
    Vec3(Dot(a, b, 0, j, 3), Dot(a, b, 1, j, 3), Dot(a, b, 2, j, 3))
  }

  /** The update alpha s + beta c of one entry of C. */
  function Scaled(alpha: real, s: real, beta: real, c: real): real
  {
    alpha * s + beta * c
  }

  /** Columns 0 .. n - 1 of height m of c1 hold alpha op(A) op(B) + beta c0. */
  ghost predicate GemmDone(c1: seq<real>, c0: seq<real>, m: nat, n: nat, k: nat, alpha: real,
                           a: View, b: View, beta: real, oc: int, ldc: int)
  {
    forall i, j :: 0 <= i < m && 0 <= j < n ==>
      Get(c1, Entry(oc, ldc, i, j)) == Scaled(alpha, Dot(a, b, i, j, k), beta, Get(c0, Entry(oc, ldc, i, j)))
  }

  /** C := alpha op(A) op(B) + beta C on the m x n matrix C at offset oc with
      leading dimension ldc (cblas_dgemm, column-major; dsymm and dgemv are the
      cases where A is read as a symmetric matrix or n = 1). Nothing outside
      the n columns of height m is written. */
  method Gemm(m: nat, n: nat, k: nat, alpha: real, a: View, b: View, beta: real,
              c: array<real>, oc: int, ldc: int)
    requires 0 <= oc && m <= ldc
    requires n > 0 ==> Slot(oc, ldc, n - 1) + m <= c.Length
    modifies c
    ensures GemmDone(c[..], old(c[..]), m, n, k, alpha, a, b, beta, oc, ldc)
    ensures KeptOutside(c[..], old(c[..]), oc, ldc, n, m)
  {
    var j := 0;
    while j < n
      invariant 0 <= j <= n
      invariant GemmDone(c[..], old(c[..]), m, j, k, alpha, a, b, beta, oc, ldc)
      invariant KeptOutside(c[..], old(c[..]), oc, ldc, j, m)
    {
      SlotInBounds(oc, ldc, n, m, c.Length, j);
      MulNonNeg(j, ldc);
      ghost var before := c[..];
      GemmColumn(m, j, k, alpha, a, b, beta, c, oc, ldc);
      ColumnStep(c[..], before, old(c[..]), m, j, k, alpha, a, b, beta, oc, ldc);
      j := j + 1;
    }
  }

  /** Column j of c1 holds alpha op(A) op(B) + beta c0, and nothing else changed. */
  ghost predicate ColumnDone(c1: seq<real>, c0: seq<real>, m: nat, j: int, k: nat, alpha: real,
                             a: View, b: View, beta: real, oc: int, ldc: int)
  {
    |c1| == |c0| &&
    (forall i :: 0 <= i < m ==>
      Get(c1, Entry(oc, ldc, i, j)) == Scaled(alpha, Dot(a, b, i, j, k), beta, Get(c0, Entry(oc, ldc, i, j)))) &&
    (forall p :: 0 <= p < |c1| && !(Slot(oc, ldc, j) <= p < Slot(oc, ldc, j) + m) ==> c1[p] == c0[p])
  }

  /** One more column done keeps the loop invariant of Gemm. */
  lemma ColumnStep(c2: seq<real>, c1: seq<real>, c0: seq<real>, m: nat, j: nat, k: nat, alpha: real,
                   a: View, b: View, beta: real, oc: int, ldc: int)
    requires m <= ldc
    requires GemmDone(c1, c0, m, j, k, alpha, a, b, beta, oc, ldc)
    requires KeptOutside(c1, c0, oc, ldc, j, m)
    requires ColumnDone(c2, c1, m, j, k, alpha, a, b, beta, oc, ldc)
    ensures GemmDone(c2, c0, m, j + 1, k, alpha, a, b, beta, oc, ldc)
    ensures KeptOutside(c2, c0, oc, ldc, j + 1, m)
  {
    KeptStep(c2, c1, c0, oc, ldc, j, m);
    EarlierColumnsKept(c2, c1, (i, jj) => Scaled(alpha, Dot(a, b, i, jj, k), beta, Get(c0, Entry(oc, ldc, i, jj))),
                       m, j, oc, ldc);
    forall i | 0 <= i < m
      ensures Get(c2, Entry(oc, ldc, i, j))
           == Scaled(alpha, Dot(a, b, i, j, k), beta, Get(c0, Entry(oc, ldc, i, j)))
    {
      BeyondRuns(Entry(oc, ldc, i, j), oc, ldc, j, m);
      assert Get(c1, Entry(oc, ldc, i, j)) == Get(c0, Entry(oc, ldc, i, j));
    }
  }

  /** Entries of columns 0 .. j - 1 survive a write confined to column j. */
  lemma EarlierColumnsKept(c2: seq<real>, c1: seq<real>, v: (int, int) -> real, m: nat, j: int, oc: int, ldc: int)
    requires m <= ldc && |c2| == |c1|
    requires forall i, jj :: 0 <= i < m && 0 <= jj < j ==> Get(c1, Entry(oc, ldc, i, jj)) == v(i, jj)
    requires forall p :: 0 <= p < |c2| && !(Slot(oc, ldc, j) <= p < Slot(oc, ldc, j) + m) ==> c2[p] == c1[p]
    ensures forall i, jj :: 0 <= i < m && 0 <= jj < j ==> Get(c2, Entry(oc, ldc, i, jj)) == v(i, jj)
  {
    forall i, jj | 0 <= i < m && 0 <= jj < j
      ensures Get(c2, Entry(oc, ldc, i, jj)) == v(i, jj)
    {
      SlotMono(oc, ldc, jj + 1, j);
    }
  }

  /** Column j of C := alpha op(A) op(B) + beta C: the body of the outer loop of
      the reference dgemm. */
  method GemmColumn(m: nat, j: int, k: nat, alpha: real, a: View, b: View, beta: real,
                    c: array<real>, oc: int, ldc: int)
    requires 0 <= Slot(oc, ldc, j) && Slot(oc, ldc, j) + m <= c.Length
    modifies c
    ensures ColumnDone(c[..], old(c[..]), m, j, k, alpha, a, b, beta, oc, ldc)
  {
    var i := 0;
    while i < m
      invariant 0 <= i <= m
      invariant ColumnDone(c[..], old(c[..]), i, j, k, alpha, a, b, beta, oc, ldc)
    {
      var s := InnerDot(a, b, i, j, k);
      c[Entry(oc, ldc, i, j)] := Scaled(alpha, s, beta, c[Entry(oc, ldc, i, j)]);
      i := i + 1;
    }
  }

  /** The inner loop of the reference dgemm: row i of op(A) against column j of
      op(B). */
  method InnerDot(a: View, b: View, i: int, j: int, k: nat) returns (s: real)
    ensures s == Dot(a, b, i, j, k)
  {
    s := 0.0;
    var p := 0;
    while p < k
      invariant 0 <= p <= k
      invariant s == Dot(a, b, i, j, p)
    {
      s := s + At(a, i, p) * At(b, p, j);
      p := p + 1;
    }
  }

  /** y := alpha x + y on n slots with unit strides (cblas_daxpy). */
  method Axpy(n: nat, alpha: real, x: seq<real>, ox: int, y: array<real>, oy: int)
    requires 0 <= ox && ox + n <= |x|
    requires 0 <= oy && oy + n <= y.Length
    modifies y
    ensures forall p :: oy <= p < oy + n ==> y[p] == alpha * x[ox + (p - oy)] + old(y[p])
    ensures forall p :: 0 <= p < y.Length && !(oy <= p < oy + n) ==> y[p] == old(y[p])
  {
    var i := 0;
    while i < n
      invariant 0 <= i <= n
      invariant forall p :: oy <= p < oy + i ==> y[p] == alpha * x[ox + (p - oy)] + old(y[p])
      invariant forall p :: 0 <= p < y.Length && !(oy <= p < oy + i) ==> y[p] == old(y[p])
    {
      y[oy + i] := alpha * x[ox + i] + y[oy + i];
      i := i + 1;
    }
  }

  /** Three slots of daxpy read back as vectors: alpha x + y. */
  lemma AxpyVec3(y1: seq<real>, y0: seq<real>, alpha: real, x: seq<real>, ox: int, oy: int)
    requires 0 <= ox && ox + 3 <= |x| && 0 <= oy && oy + 3 <= |y1| && oy + 3 <= |y0|
    requires forall p :: oy <= p < oy + 3 ==> y1[p] == alpha * x[ox + (p - oy)] + y0[p]
    ensures Vec3At(y1, oy) == Plus(Scale(alpha, Vec3At(x, ox)), Vec3At(y0, oy))
  {
    assert y1[oy] == alpha * x[ox] + y0[oy];
    assert y1[oy + 1] == alpha * x[ox + 1] + y0[oy + 1];
    assert y1[oy + 2] == alpha * x[ox + 2] + y0[oy + 2];
  }

  /** Copies n slots (memcpy of n doubles). */
  method Copy(n: nat, x: seq<real>, ox: int, y: array<real>, oy: int)
    requires 0 <= ox && ox + n <= |x|
    requires 0 <= oy && oy + n <= y.Length
    modifies y
    ensures forall p :: oy <= p < oy + n ==> y[p] == x[ox + (p - oy)]
    ensures forall p :: 0 <= p < y.Length && !(oy <= p < oy + n) ==> y[p] == old(y[p])
  {
    var i := 0;
    while i < n
      invariant 0 <= i <= n
      invariant forall p :: oy <= p < oy + i ==> y[p] == x[ox + (p - oy)]
      invariant forall p :: 0 <= p < y.Length && !(oy <= p < oy + i) ==> y[p] == old(y[p])
    {
      y[oy + i] := x[ox + i];
      i := i + 1;
    }
  }

  // ---------------------------------------------------------------------------
  // Reading 3x3 products back as spatial algebra
  // ---------------------------------------------------------------------------

  /** With inner dimension 3, a column of op(A) op(B) is op(A)'s block applied to
      op(B)'s column. */
  lemma {:induction false} Product3Apply(a: View, b: View, j: int)
    ensures Product3(a, b, j) == Apply(Block3(a), Column3(b, j))
  {
    Dot3(a, b, 0, j);
    Dot3(a, b, 1, j);
    Dot3(a, b, 2, j);
  }

  /** A 3x3 block stored column-major with leading dimension 3. */
  lemma PlainBlock(s: seq<real>, o: int)
    ensures Block3(View(s, o, 3, Plain)) == Mat3At(s, o)
  {
  }

  /** The same block read with CblasTrans is its transpose. */
  lemma TransBlock(s: seq<real>, o: int)
    ensures Block3(View(s, o, 3, Trans)) == Transpose(Mat3At(s, o))
  {
  }

  /** Read through its upper triangle, a block is the symmetric matrix that
      agrees with it on and above the diagonal, and the block itself when that is
      already symmetric. */
  lemma SymUpperBlock(s: seq<real>, o: int)
    ensures Symmetric(Block3(View(s, o, 3, SymUpper)))
    ensures Symmetric(Mat3At(s, o)) ==> Block3(View(s, o, 3, SymUpper)) == Mat3At(s, o)
  {
  }

  /** Column j of a batch of vectors stored ld apart. */
  lemma ColumnOfBatch(s: seq<real>, o: int, ld: int, j: int)
    ensures Column3(View(s, o, ld, Plain), j) == Vec3At(s, Slot(o, ld, j))
  {
  }

  /** The vector update alpha u + beta v, entry by entry as Gemm performs it. */
  function Combine3(alpha: real, u: Vec3, beta: real, v: Vec3): Vec3
  {
    Vec3(Scaled(alpha, u.x, beta, v.x), Scaled(alpha, u.y, beta, v.y), Scaled(alpha, u.z, beta, v.z))
  }

  /** The two updates the kernels use: assignment (beta = 0) and accumulation
      (beta = 1). */
  lemma Combine3Units(u: Vec3, v: Vec3)
    ensures Combine3(1.0, u, 0.0, v) == u
    ensures Combine3(1.0, u, 1.0, v) == Plus(u, v)
  {
  }

  /** The matrix update alpha P + beta C, entry by entry as Gemm performs it;
      with the coefficients the kernels use it is an assignment, an
      accumulation or a subtraction. */
  function Combine33(alpha: real, p: Mat3, beta: real, c: Mat3): (r: Mat3)
    ensures alpha == 1.0 && beta == 0.0 ==> r == p
    ensures alpha == 1.0 && beta == 1.0 ==> r == MatPlus(p, c)
    ensures alpha == -1.0 && beta == 1.0 ==> r == MatMinus(c, p)
  {
    Mat3(Combine3(alpha, p.c0, beta, c.c0), Combine3(alpha, p.c1, beta, c.c1), Combine3(alpha, p.c2, beta, c.c2))
  }

  /** cblas_dgemm with m = n = k = 3 onto a 3x3 block C at oc with leading
      dimension 3: C becomes alpha op(A) op(B) + beta C, where c0 is the block
      before the call, and no slot outside the block changes. */
  method Gemm33(alpha: real, a: View, b: View, beta: real, c: array<real>, oc: int, ghost c0: Mat3)
    requires 0 <= oc && oc + 9 <= c.Length
    requires Mat3At(c[..], oc) == c0
    modifies c
    ensures Mat3At(c[..], oc) == Combine33(alpha, Mul(Block3(a), Block3(b)), beta, c0)
    ensures KeptOutside(c[..], old(c[..]), oc, 9, 1, 9)
  {
    ghost var before := c[..];
    Gemm(3, 3, 3, alpha, a, b, beta, c, oc, 3);
    GemmVec3(c[..], before, 3, alpha, a, b, beta, oc, 3, 0);
    GemmVec3(c[..], before, 3, alpha, a, b, beta, oc, 3, 1);
    GemmVec3(c[..], before, 3, alpha, a, b, beta, oc, 3, 2);
    ContiguousRuns(c[..], before, oc, 3, 3);
  }

  /** A 3 x n product with inner dimension 3, read back as vectors: column j of
      C becomes alpha op(A) b_j + beta c_j. */
  lemma GemmVec3(c1: seq<real>, c0: seq<real>, n: nat, alpha: real, a: View, b: View, beta: real,
                 oc: int, ldc: int, j: int)
    requires GemmDone(c1, c0, 3, n, 3, alpha, a, b, beta, oc, ldc)
    requires 0 <= j < n
    ensures Vec3At(c1, Slot(oc, ldc, j))
         == Combine3(alpha, Apply(Block3(a), Column3(b, j)), beta, Vec3At(c0, Slot(oc, ldc, j)))
  {
    Product3Apply(a, b, j);
    assert Entry(oc, ldc, 0, j) == Slot(oc, ldc, j);
    assert Get(c1, Entry(oc, ldc, 0, j)) == Scaled(alpha, Dot(a, b, 0, j, 3), beta, Get(c0, Entry(oc, ldc, 0, j)));
    assert Get(c1, Entry(oc, ldc, 1, j)) == Scaled(alpha, Dot(a, b, 1, j, 3), beta, Get(c0, Entry(oc, ldc, 1, j)));
    assert Get(c1, Entry(oc, ldc, 2, j)) == Scaled(alpha, Dot(a, b, 2, j, 3), beta, Get(c0, Entry(oc, ldc, 2, j)));
  }

  /** GemmVec3 with the coefficients the kernels use: alpha = 1 and beta = 0
      (assignment) or beta = 1 (accumulation). */
  lemma GemmVec3Units(c1: seq<real>, c0: seq<real>, n: nat, a: View, b: View, beta: real,
                      oc: int, ldc: int, j: int)
    requires GemmDone(c1, c0, 3, n, 3, 1.0, a, b, beta, oc, ldc)
    requires 0 <= j < n && (beta == 0.0 || beta == 1.0)
    ensures beta == 0.0 ==> Vec3At(c1, Slot(oc, ldc, j)) == Apply(Block3(a), Column3(b, j))
    ensures beta == 1.0 ==>
      Vec3At(c1, Slot(oc, ldc, j)) == Plus(Apply(Block3(a), Column3(b, j)), Vec3At(c0, Slot(oc, ldc, j)))
  {
    GemmVec3(c1, c0, n, 1.0, a, b, beta, oc, ldc, j);
    Combine3Units(Apply(Block3(a), Column3(b, j)), Vec3At(c0, Slot(oc, ldc, j)));
  }

  /** Row i of op(A) against column j of op(B) over three terms. */
  lemma Dot3(a: View, b: View, i: int, j: int)
    ensures Dot(a, b, i, j, 3) == Spatial.Dot(Vec3(At(a, i, 0), At(a, i, 1), At(a, i, 2)), Column3(b, j))
  {
    assert Dot(a, b, i, j, 1) == At(a, i, 0) * At(b, 0, j);
    assert Dot(a, b, i, j, 2) == At(a, i, 0) * At(b, 0, j) + At(a, i, 1) * At(b, 1, j);
  }

  /** Row i of a batch read with CblasTrans is the i-th stored vector. */
  lemma RowOfTrans(s: seq<real>, o: int, ld: int, i: int)
    ensures Vec3(At(View(s, o, ld, Trans), i, 0), At(View(s, o, ld, Trans), i, 1), At(View(s, o, ld, Trans), i, 2))
         == Vec3At(s, Slot(o, ld, i))
  {
  }
}
