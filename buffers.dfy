// Flat, caller-owned buffers addressed through offsets and strides (leading
// dimensions), the way every kernel of the library reads and writes them.

module Buffers {

  /** Slot p of a flat buffer. Every kernel's precondition keeps its reads in
      range; the 0.0 outside is only there so that specifications can mention a
      strided slot without first proving that it is in range. */
  function Get(s: seq<real>, p: int): real
  {
    if 0 <= p < |s| then s[p] else 0.0
  }

  /** Start of the i-th element of a batch that starts at o and has leading
      dimension (stride) ld. */
  function Slot(o: int, ld: int, i: int): int
  {
    o + i * ld
  }

  /** Entry (i, j) of a column-major matrix at offset o with leading dimension ld. */
  function Entry(o: int, ld: int, i: int, j: int): int
  {
    Slot(o, ld, j) + i
  }

  /** Slot p lies in none of the `count` runs of `width` consecutive slots that
      start at o, o + ld, ..., o + (count - 1) * ld: a write footprint. */
  predicate OutsideRuns(p: int, o: int, ld: int, count: nat, width: int)
  {
    count == 0 ||
    (OutsideRuns(p, o, ld, count - 1, width) &&
     (p < Slot(o, ld, count - 1) || Slot(o, ld, count - 1) + width <= p))
  }

  /** A single run is the interval [o, o + width). */
  lemma SingleRun(p: int, o: int, ld: int, width: int)
    ensures OutsideRuns(p, o, ld, 1, width) <==> p < o || o + width <= p
  {
    assert Slot(o, ld, 0) == o;
  }

  /** Multiplication by a non-negative stride is monotonic. */
  lemma {:induction false} SlotMono(o: int, ld: int, i: int, j: int)
    requires 0 <= ld && i <= j
    ensures Slot(o, ld, i) + (j - i) * ld == Slot(o, ld, j)
    ensures Slot(o, ld, i) <= Slot(o, ld, j)
  {
    assert (j - i) * ld >= 0 by { MulNonNeg(j - i, ld); }
  }

  lemma {:induction false} MulNonNeg(a: int, b: int)
    requires 0 <= a && 0 <= b
    ensures 0 <= a * b
  {
    if a > 0 {
      MulNonNeg(a - 1, b);
      assert a * b == (a - 1) * b + b;
    }
  }

  /** The last run of a batch lies inside a buffer of the given length, so do all
      the earlier ones. */
  lemma SlotInBounds(o: int, ld: int, count: nat, width: int, len: int, i: int)
    requires 0 <= ld && 0 <= i < count
    requires Slot(o, ld, count - 1) + width <= len
    ensures Slot(o, ld, i) + width <= len
  {
    SlotMono(o, ld, i, count - 1);
  }

  /** Nothing at or past the end of the last run is written. */
  lemma {:induction false} BeyondRuns(p: int, o: int, ld: int, count: nat, width: int)
    requires 0 <= ld
    requires count > 0 ==> Slot(o, ld, count - 1) + width <= p
    ensures OutsideRuns(p, o, ld, count, width)
  {
    if count > 1 {
      SlotMono(o, ld, count - 2, count - 1);
      BeyondRuns(p, o, ld, count - 1, width);
    }
  }

  /** Nothing before the start of the first run is written. */
  lemma {:induction false} BeforeRuns(p: int, o: int, ld: int, count: nat, width: int)
    requires 0 <= ld && p < o
    ensures OutsideRuns(p, o, ld, count, width)
  {
    if count > 0 {
      SlotMono(o, ld, 0, count - 1);
      BeforeRuns(p, o, ld, count - 1, width);
    }
  }

  /** A slot in the gap that follows (0 <= gap) or precedes (gap < 0) the j-th run
      of a batch is written by no run when runs are `ld` apart: this is what
      keeps the direction half and the moment half of interleaved screws apart. */
  lemma {:induction false} GapOutsideRuns(p: int, o: int, ld: int, count: nat, width: int, j: int, r: int)
    requires 0 <= width <= ld
    requires p == Slot(o, ld, j) + r
    requires width <= r < ld || width - ld <= r < 0
    ensures OutsideRuns(p, o, ld, count, width)
  {
    if count > 0 {
      var i := count - 1;
      if i < j {
        SlotMono(o, ld, i + 1, j);
        assert Slot(o, ld, i + 1) == Slot(o, ld, i) + ld;
      } else if j < i {
        SlotMono(o, ld, j + 1, i);
        assert Slot(o, ld, j + 1) == Slot(o, ld, j) + ld;
      }
      GapOutsideRuns(p, o, ld, count - 1, width, j, r);
    }
  }

  /** A slot inside run j (j < count) is not outside the runs: the footprint
      predicate is exact. */
  lemma {:induction false} InsideRun(p: int, o: int, ld: int, count: nat, width: int, j: nat)
    requires j < count && Slot(o, ld, j) <= p < Slot(o, ld, j) + width
    ensures !OutsideRuns(p, o, ld, count, width)
  {
    if j < count - 1 {
      InsideRun(p, o, ld, count - 1, width, j);
    }
  }

  /** c1 agrees with c0 outside the `count` runs of `width` slots that start ld
      apart at o: nothing else was written. */
  ghost predicate KeptOutside(c1: seq<real>, c0: seq<real>, o: int, ld: int, count: nat, width: int)
  {
    |c1| == |c0| &&
    forall p :: 0 <= p < |c1| && OutsideRuns(p, o, ld, count, width) ==> c1[p] == c0[p]
  }

  /** Writing only inside run j after runs 0 .. j - 1 keeps everything outside
      runs 0 .. j. */
  lemma KeptStep(c2: seq<real>, c1: seq<real>, c0: seq<real>, o: int, ld: int, j: nat, width: int)
    requires KeptOutside(c1, c0, o, ld, j, width)
    requires |c2| == |c1|
    requires forall p :: 0 <= p < |c2| && !(Slot(o, ld, j) <= p < Slot(o, ld, j) + width) ==> c2[p] == c1[p]
    ensures KeptOutside(c2, c0, o, ld, j + 1, width)
  {
    forall p | 0 <= p < |c2| && OutsideRuns(p, o, ld, j + 1, width)
      ensures c2[p] == c0[p]
    {
      assert OutsideRuns(p, o, ld, j, width);
    }
  }

  /** Slot r < width <= ld of run i lies before run j > i. */
  lemma EarlierRun(o: int, ld: int, i: int, j: int, r: int, width: int)
    requires i < j && 0 <= r < width <= ld
    ensures Slot(o, ld, i) + r < Slot(o, ld, j)
  {
    SlotMono(o, ld, i + 1, j);
  }

  /** Keeping everything outside the same runs is transitive. */
  lemma KeptTrans(c2: seq<real>, c1: seq<real>, c0: seq<real>, o: int, ld: int, count: nat, width: int)
    requires KeptOutside(c2, c1, o, ld, count, width) && KeptOutside(c1, c0, o, ld, count, width)
    ensures KeptOutside(c2, c0, o, ld, count, width)
  {
  }

  /** A slot outside runs of width w is outside the narrower runs that start d
      slots into them. */
  lemma {:induction false} NarrowerRuns(p: int, o: int, ld: int, count: nat, w: int, d: int, w2: int)
    requires 0 <= d && d + w2 <= w
    requires OutsideRuns(p, o, ld, count, w)
    ensures OutsideRuns(p, o + d, ld, count, w2)
  {
    if count > 0 {
      assert Slot(o + d, ld, count - 1) == Slot(o, ld, count - 1) + d;
      NarrowerRuns(p, o, ld, count - 1, w, d, w2);
    }
  }

  /** Writing first the leading w1 slots and then the trailing w2 slots of each
      run of width w1 + w2 writes nothing outside those runs. */
  lemma SplitRuns(c2: seq<real>, c1: seq<real>, c0: seq<real>, o: int, ld: int, count: nat, w1: nat, w2: nat)
    requires KeptOutside(c1, c0, o, ld, count, w1)
    requires KeptOutside(c2, c1, o + w1, ld, count, w2)
    ensures KeptOutside(c2, c0, o, ld, count, w1 + w2)
  {
    forall p | 0 <= p < |c2| && OutsideRuns(p, o, ld, count, w1 + w2)
      ensures c2[p] == c0[p]
    {
      NarrowerRuns(p, o, ld, count, w1 + w2, 0, w1);
      NarrowerRuns(p, o, ld, count, w1 + w2, w1, w2);
    }
  }

  /** The same with the trailing w2 slots written first. */
  lemma SplitRunsTrailingFirst(c2: seq<real>, c1: seq<real>, c0: seq<real>, o: int, ld: int, count: nat,
                               w1: nat, w2: nat)
    requires KeptOutside(c1, c0, o + w1, ld, count, w2)
    requires KeptOutside(c2, c1, o, ld, count, w1)
    ensures KeptOutside(c2, c0, o, ld, count, w1 + w2)
  {
    forall p | 0 <= p < |c2| && OutsideRuns(p, o, ld, count, w1 + w2)
      ensures c2[p] == c0[p]
    {
      NarrowerRuns(p, o, ld, count, w1 + w2, 0, w1);
      NarrowerRuns(p, o, ld, count, w1 + w2, w1, w2);
    }
  }

  /** count adjacent runs of width w (leading dimension w) form one run of width
      count * w. */
  lemma ContiguousRuns(c1: seq<real>, c0: seq<real>, o: int, w: nat, count: nat)
    requires KeptOutside(c1, c0, o, w, count, w)
    ensures KeptOutside(c1, c0, o, count * w, 1, count * w)
  {
    forall p | 0 <= p < |c1| && OutsideRuns(p, o, count * w, 1, count * w)
      ensures c1[p] == c0[p]
    {
      SingleRun(p, o, count * w, count * w);
      if p < o {
        BeforeRuns(p, o, w, count, w);
      } else {
        if count > 0 {
          assert Slot(o, w, count - 1) + w == o + count * w;
        }
        BeyondRuns(p, o, w, count, w);
      }
    }
  }
}
