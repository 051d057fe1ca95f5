// Row-by-row operations on strided matrices (src/matrix.c). Entry (i, j) of a
// matrix whose rows start ld apart at offset o is slot o + i * ld + j, written
// RowMajor(o, ld, i, j); a destination may be a block inside a larger buffer, so
// it carries the offset od of its first entry.

module Matrices {
  import opened Buffers

  function RowMajor(o: int, ld: int, i: int, j: int): int
  {
    Slot(o, ld, i) + j
  }

  /** Rows 0 .. rows - 1 of width n of d1 hold f, and d1 agrees with d0 on every
      slot outside those rows. */
  ghost predicate RowsHold(d1: seq<real>, d0: seq<real>, f: (int, int) -> real,
                           od: int, ldd: int, rows: nat, n: nat)
  {
    |d1| == |d0| &&
    (forall i, j :: 0 <= i < rows && 0 <= j < n ==> Get(d1, RowMajor(od, ldd, i, j)) == f(i, j)) &&
    (forall p :: 0 <= p < |d1| && OutsideRuns(p, od, ldd, rows, n) ==> d1[p] == d0[p])
  }

  /** Writing row i after rows 0 .. i - 1 (rows ldd >= n apart) keeps the
      earlier rows. */
  lemma {:induction false} RowStep(d2: seq<real>, d1: seq<real>, d0: seq<real>, f: (int, int) -> real,
                                   od: int, ldd: int, i: nat, n: nat)
    requires n <= ldd
    requires RowsHold(d1, d0, f, od, ldd, i, n)
    requires |d2| == |d1|
    requires forall j :: 0 <= j < n ==> Get(d2, RowMajor(od, ldd, i, j)) == f(i, j)
    requires forall p :: 0 <= p < |d2| && !(Slot(od, ldd, i) <= p < Slot(od, ldd, i) + n) ==> d2[p] == d1[p]
    ensures RowsHold(d2, d0, f, od, ldd, i + 1, n)
  {
    forall ii, j | 0 <= ii <= i && 0 <= j < n
      ensures Get(d2, RowMajor(od, ldd, ii, j)) == f(ii, j)
    {
      if ii < i {
        SlotMono(od, ldd, ii + 1, i);
        assert Get(d2, RowMajor(od, ldd, ii, j)) == Get(d1, RowMajor(od, ldd, ii, j));
      }
    }
    forall p | 0 <= p < |d2| && OutsideRuns(p, od, ldd, i + 1, n)
      ensures d2[p] == d0[p]
    {
      assert OutsideRuns(p, od, ldd, i, n);
      assert d2[p] == d1[p];
    }
  }

  /** dyn2b_cpy_mat: dst[i, j] = src[i, j] for i < m, j < n; nothing else in dst
      changes. */
  method CpyMat(m: nat, n: nat, src: seq<real>, lds: int, dst: array<real>, od: int, ldd: int)
    requires n <= lds && n <= ldd && 0 <= od
    requires m > 0 ==> Slot(0, lds, m - 1) + n <= |src|
    requires m > 0 ==> Slot(od, ldd, m - 1) + n <= dst.Length
    modifies dst
    ensures forall i, j :: 0 <= i < m && 0 <= j < n ==>
      Get(dst[..], RowMajor(od, ldd, i, j)) == Get(src, RowMajor(0, lds, i, j))
    ensures forall p :: 0 <= p < dst.Length && OutsideRuns(p, od, ldd, m, n) ==> dst[p] == old(dst[p])
  {
    ghost var f := (i, j) => Get(src, RowMajor(0, lds, i, j));
    var i := 0;
    while i < m
      invariant 0 <= i <= m
      invariant RowsHold(dst[..], old(dst[..]), f, od, ldd, i, n)
    {
      SlotInBounds(od, ldd, m, n, dst.Length, i);
      SlotInBounds(0, lds, m, n, |src|, i);
      MulNonNeg(i, ldd);
      MulNonNeg(i, lds);
      ghost var before := dst[..];
      var j := 0;
      while j < n
        invariant 0 <= j <= n
        invariant |dst[..]| == |before|
        invariant forall jj :: 0 <= jj < j ==> Get(dst[..], RowMajor(od, ldd, i, jj)) == f(i, jj)
        invariant forall p :: 0 <= p < dst.Length && !(Slot(od, ldd, i) <= p < Slot(od, ldd, i) + j) ==>
          dst[p] == before[p]
      {
        dst[RowMajor(od, ldd, i, j)] := src[RowMajor(0, lds, i, j)];
        j := j + 1;
      }
      RowStep(dst[..], before, old(dst[..]), f, od, ldd, i, n);
      i := i + 1;
    }
  }

  /** dyn2b_mad_mat: out[i, j] = alpha * in1[i, j] + in2[i, j] for i < m, j < n;
      nothing else in out changes. */
  method MadMat(m: nat, n: nat, alpha: real, in1: seq<real>, ld1: int, in2: seq<real>, ld2: int,
                out: array<real>, oo: int, ldo: int)
    requires n <= ld1 && n <= ld2 && n <= ldo && 0 <= oo
    requires m > 0 ==> Slot(0, ld1, m - 1) + n <= |in1| && Slot(0, ld2, m - 1) + n <= |in2|
    requires m > 0 ==> Slot(oo, ldo, m - 1) + n <= out.Length
    modifies out
    ensures forall i, j :: 0 <= i < m && 0 <= j < n ==>
      Get(out[..], RowMajor(oo, ldo, i, j))
        == alpha * Get(in1, RowMajor(0, ld1, i, j)) + Get(in2, RowMajor(0, ld2, i, j))
    ensures forall p :: 0 <= p < out.Length && OutsideRuns(p, oo, ldo, m, n) ==> out[p] == old(out[p])
  {
    ghost var f := MadSum(alpha, in1, ld1, in2, ld2);
    ghost var d0 := out[..];
    var i := 0;
    while i < m
      invariant 0 <= i <= m
      invariant RowsHold(out[..], d0, f, oo, ldo, i, n)
    {
      MadRow(i, m, n, alpha, in1, ld1, in2, ld2, out, oo, ldo, d0);
      i := i + 1;
    }
    MadDone(out[..], d0, alpha, in1, ld1, in2, ld2, oo, ldo, m, n);
  }

  /** Entry (i, j) of alpha * in1 + in2 for row-major operands. */
  ghost function MadSum(alpha: real, in1: seq<real>, ld1: int, in2: seq<real>, ld2: int): (int, int) -> real
  {
    (i, j) => alpha * Get(in1, RowMajor(0, ld1, i, j)) + Get(in2, RowMajor(0, ld2, i, j))
  }

  /** An entry of the multiply-add read from slots inside both operands. */
  lemma MadSumAt(alpha: real, in1: seq<real>, ld1: int, in2: seq<real>, ld2: int, i: int, j: int)
    requires 0 <= RowMajor(0, ld1, i, j) < |in1| && 0 <= RowMajor(0, ld2, i, j) < |in2|
    ensures MadSum(alpha, in1, ld1, in2, ld2)(i, j)
         == alpha * in1[RowMajor(0, ld1, i, j)] + in2[RowMajor(0, ld2, i, j)]
  {
  }

  /** With alpha = 0 the multiply-add writes what a copy of in2 writes. */
  lemma MadZeroIsCopy(in1: seq<real>, ld1: int, in2: seq<real>, ld2: int, i: int, j: int)
    ensures MadSum(0.0, in1, ld1, in2, ld2)(i, j) == Get(in2, RowMajor(0, ld2, i, j))
  {
  }

  /** The loop invariant of a finished multiply-add, read back as its two
      postconditions. */
  lemma MadDone(d1: seq<real>, d0: seq<real>, alpha: real, in1: seq<real>, ld1: int, in2: seq<real>, ld2: int,
                oo: int, ldo: int, m: nat, n: nat)
    requires RowsHold(d1, d0, MadSum(alpha, in1, ld1, in2, ld2), oo, ldo, m, n)
    ensures forall i, j :: 0 <= i < m && 0 <= j < n ==>
      Get(d1, RowMajor(oo, ldo, i, j)) == alpha * Get(in1, RowMajor(0, ld1, i, j)) + Get(in2, RowMajor(0, ld2, i, j))
    ensures forall p :: 0 <= p < |d1| && OutsideRuns(p, oo, ldo, m, n) ==> d1[p] == d0[p]
  {
    forall i, j | 0 <= i < m && 0 <= j < n
      ensures Get(d1, RowMajor(oo, ldo, i, j)) == alpha * Get(in1, RowMajor(0, ld1, i, j)) + Get(in2, RowMajor(0, ld2, i, j))
    {
      assert Get(d1, RowMajor(oo, ldo, i, j)) == MadSum(alpha, in1, ld1, in2, ld2)(i, j);
    }
  }

  /** Row i of dyn2b_mad_mat: the body of its outer loop. With rows
      0 .. i - 1 of out holding the multiply-add, rows 0 .. i do afterwards. */
  method MadRow(i: nat, m: nat, n: nat, alpha: real, in1: seq<real>, ld1: int, in2: seq<real>, ld2: int,
                out: array<real>, oo: int, ldo: int, ghost d0: seq<real>)
    requires i < m && n <= ld1 && n <= ld2 && n <= ldo && 0 <= oo
    requires Slot(0, ld1, m - 1) + n <= |in1| && Slot(0, ld2, m - 1) + n <= |in2|
    requires Slot(oo, ldo, m - 1) + n <= out.Length
    requires RowsHold(out[..], d0, MadSum(alpha, in1, ld1, in2, ld2), oo, ldo, i, n)
    modifies out
    ensures RowsHold(out[..], d0, MadSum(alpha, in1, ld1, in2, ld2), oo, ldo, i + 1, n)
  {
    ghost var f := MadSum(alpha, in1, ld1, in2, ld2);
    SlotInBounds(oo, ldo, m, n, out.Length, i);
    SlotInBounds(0, ld1, m, n, |in1|, i);
    SlotInBounds(0, ld2, m, n, |in2|, i);
    MulNonNeg(i, ldo);
    MulNonNeg(i, ld1);
    MulNonNeg(i, ld2);
    ghost var before := out[..];
    var j := 0;
    while j < n
      invariant 0 <= j <= n
      invariant |out[..]| == |before|
      invariant forall jj :: 0 <= jj < j ==> Get(out[..], RowMajor(oo, ldo, i, jj)) == f(i, jj)
      invariant forall p :: 0 <= p < out.Length && !(Slot(oo, ldo, i) <= p < Slot(oo, ldo, i) + j) ==>
        out[p] == before[p]
    {
      var v := alpha * in1[RowMajor(0, ld1, i, j)] + in2[RowMajor(0, ld2, i, j)];
      MadSumAt(alpha, in1, ld1, in2, ld2, i, j);
      out[RowMajor(oo, ldo, i, j)] := v;
      j := j + 1;
    }
    RowStep(out[..], before, d0, f, oo, ldo, i, n);
  }

  /** The slots a copy or multiply-add may write are exactly the m rows of width
      n: every slot of such a row is written, and a slot past the last row is
      not. */
  lemma Footprint(p: int, od: int, ldd: int, m: nat, n: nat)
    requires 0 <= ldd
    ensures (exists i, j :: 0 <= i < m && 0 <= j < n && p == RowMajor(od, ldd, i, j)) ==>
      !OutsideRuns(p, od, ldd, m, n)
    ensures m > 0 && Slot(od, ldd, m - 1) + n <= p ==> OutsideRuns(p, od, ldd, m, n)
  {
    if exists i, j :: 0 <= i < m && 0 <= j < n && p == RowMajor(od, ldd, i, j) {
      var i, j :| 0 <= i < m && 0 <= j < n && p == RowMajor(od, ldd, i, j);
      InsideRun(p, od, ldd, m, n, i);
    }
    if m > 0 && Slot(od, ldd, m - 1) + n <= p {
      BeyondRuns(p, od, ldd, m, n);
    }
  }
}
