// Batched 3-vector kernels (src/vector3.c). Vector i of a batch starts at
// o + i * ld; a stride of 0 repeats one vector for the whole batch, which is how
// the screw kernels pass a single position vector.

module Vector3 {
  import opened Buffers
  import opened Spatial

  /** Vectors 0 .. count - 1 of c1, stored ldo apart from oo, are f(i); nothing
      else differs from c0. */
  ghost predicate VecsHold(c1: seq<real>, c0: seq<real>, f: int -> Vec3, oo: int, ldo: int, count: nat)
  {
    KeptOutside(c1, c0, oo, ldo, count, 3) &&
    forall i :: 0 <= i < count ==> Vec3At(c1, Slot(oo, ldo, i)) == f(i)
  }

  /** Writing vector i after vectors 0 .. i - 1 (stored ldo >= 3 apart) keeps them. */
  lemma {:induction false} VecStep(c2: seq<real>, c1: seq<real>, c0: seq<real>, f: int -> Vec3,
                                   oo: int, ldo: int, i: nat)
    requires 3 <= ldo
    requires VecsHold(c1, c0, f, oo, ldo, i)
    requires |c2| == |c1|
    requires Vec3At(c2, Slot(oo, ldo, i)) == f(i)
    requires forall p :: 0 <= p < |c2| && !(Slot(oo, ldo, i) <= p < Slot(oo, ldo, i) + 3) ==> c2[p] == c1[p]
    ensures VecsHold(c2, c0, f, oo, ldo, i + 1)
  {
    KeptStep(c2, c1, c0, oo, ldo, i, 3);
    forall ii | 0 <= ii < i
      ensures Vec3At(c2, Slot(oo, ldo, ii)) == f(ii)
    {
      EarlierRun(oo, ldo, ii, i, 0, 3);
      EarlierRun(oo, ldo, ii, i, 1, 3);
      EarlierRun(oo, ldo, ii, i, 2, 3);
    }
  }

  /** Writes v to the three slots starting at o. */
  method PutVec3(out: array<real>, o: int, v: Vec3)
    requires 0 <= o && o + 3 <= out.Length
    modifies out
    ensures Vec3At(out[..], o) == v
    ensures forall p :: 0 <= p < out.Length && !(o <= p < o + 3) ==> out[p] == old(out[p])
  {
    out[o] := v.x;
    out[o + 1] := v.y;
    out[o + 2] := v.z;
  }

  /** Writes a to the nine slots starting at o, column by column. */
  method PutMat3(out: array<real>, o: int, a: Mat3)
    requires 0 <= o && o + 9 <= out.Length
    modifies out
    ensures Mat3At(out[..], o) == a
    ensures forall p :: 0 <= p < out.Length && !(o <= p < o + 9) ==> out[p] == old(out[p])
  {
    PutVec3(out, o, a.c0);
    ghost var d1 := out[..];
    PutVec3(out, o + 3, a.c1);
    ghost var d2 := out[..];
    PutVec3(out, o + 6, a.c2);
    assert Vec3At(out[..], o + 3) == Vec3At(d2, o + 3);
    assert Vec3At(out[..], o) == Vec3At(d2, o) == Vec3At(d1, o);
  }

  /** Two buffers that agree on the nine slots of a block hold the same block there. */
  lemma Mat3Unchanged(c1: seq<real>, c0: seq<real>, o: int)
    requires 0 <= o && o + 9 <= |c1| && o + 9 <= |c0|
    requires forall p :: o <= p < o + 9 ==> c1[p] == c0[p]
    ensures Mat3At(c1, o) == Mat3At(c0, o)
  {
  }

  /** The last vector of a batch lies in the buffer, so does vector i. */
  lemma InBatch(o: int, ld: int, n: nat, len: int, i: int)
    requires 0 <= o && 0 <= ld && 0 <= i < n
    requires Slot(o, ld, n - 1) + 3 <= len
    ensures 0 <= Slot(o, ld, i) && Slot(o, ld, i) + 3 <= len
  {
    SlotInBounds(o, ld, n, 3, len, i);
    MulNonNeg(i, ld);
  }

  /** With stride 0 every vector of a batch is the one at the offset. */
  lemma Broadcast(s: seq<real>, o: int, i: int)
    ensures Slot(o, 0, i) == o && Vec3At(s, Slot(o, 0, i)) == Vec3At(s, o)
  {
  }

  /** dyn2b_crs_vec3: out_i = in1_i x in2_i for i < n. */
  method CrsVec3(n: nat, in1: seq<real>, o1: int, ld1: int, in2: seq<real>, o2: int, ld2: int,
                 out: array<real>, oo: int, ldo: int)
    requires 0 <= o1 && 0 <= ld1 && (n > 0 ==> Slot(o1, ld1, n - 1) + 3 <= |in1|)
    requires 0 <= o2 && 0 <= ld2 && (n > 0 ==> Slot(o2, ld2, n - 1) + 3 <= |in2|)
    requires 0 <= oo && 3 <= ldo && (n > 0 ==> Slot(oo, ldo, n - 1) + 3 <= out.Length)
    modifies out
    ensures forall i :: 0 <= i < n ==>
      Vec3At(out[..], Slot(oo, ldo, i)) == Cross(Vec3At(in1, Slot(o1, ld1, i)), Vec3At(in2, Slot(o2, ld2, i)))
    ensures KeptOutside(out[..], old(out[..]), oo, ldo, n, 3)
  {
    ghost var f := i => Cross(Vec3At(in1, Slot(o1, ld1, i)), Vec3At(in2, Slot(o2, ld2, i)));
    var i := 0;
    while i < n
      invariant 0 <= i <= n
      invariant VecsHold(out[..], old(out[..]), f, oo, ldo, i)
    {
      InBatch(o1, ld1, n, |in1|, i);
      InBatch(o2, ld2, n, |in2|, i);
      InBatch(oo, ldo, n, out.Length, i);
      var i1, i2, o := Slot(o1, ld1, i), Slot(o2, ld2, i), Slot(oo, ldo, i);
      ghost var before := out[..];
      var v := Vec3(in1[i1 + 1] * in2[i2 + 2] - in1[i1 + 2] * in2[i2 + 1],
                    in1[i1 + 2] * in2[i2 + 0] - in1[i1 + 0] * in2[i2 + 2],
                    in1[i1 + 0] * in2[i2 + 1] - in1[i1 + 1] * in2[i2 + 0]);
      CrsEntries(in1, i1, in2, i2);
      PutVec3(out, o, v);
      VecStep(out[..], before, old(out[..]), f, oo, ldo, i);
      i := i + 1;
    }
  }

  /** dyn2b_cad_vec3 ("cross-add"): out_i = in1_i + in2_i x in3_i for i < n. */
  method CadVec3(n: nat, in1: seq<real>, o1: int, ld1: int, in2: seq<real>, o2: int, ld2: int,
                 in3: seq<real>, o3: int, ld3: int, out: array<real>, oo: int, ldo: int)
    requires 0 <= o1 && 0 <= ld1 && (n > 0 ==> Slot(o1, ld1, n - 1) + 3 <= |in1|)
    requires 0 <= o2 && 0 <= ld2 && (n > 0 ==> Slot(o2, ld2, n - 1) + 3 <= |in2|)
    requires 0 <= o3 && 0 <= ld3 && (n > 0 ==> Slot(o3, ld3, n - 1) + 3 <= |in3|)
    requires 0 <= oo && 3 <= ldo && (n > 0 ==> Slot(oo, ldo, n - 1) + 3 <= out.Length)
    modifies out
    ensures forall i :: 0 <= i < n ==>
      Vec3At(out[..], Slot(oo, ldo, i))
        == Plus(Vec3At(in1, Slot(o1, ld1, i)), Cross(Vec3At(in2, Slot(o2, ld2, i)), Vec3At(in3, Slot(o3, ld3, i))))
    ensures KeptOutside(out[..], old(out[..]), oo, ldo, n, 3)
  {
    ghost var f := i => Plus(Vec3At(in1, Slot(o1, ld1, i)),
                             Cross(Vec3At(in2, Slot(o2, ld2, i)), Vec3At(in3, Slot(o3, ld3, i))));
    var i := 0;
    while i < n
      invariant 0 <= i <= n
      invariant VecsHold(out[..], old(out[..]), f, oo, ldo, i)
    {
      InBatch(o1, ld1, n, |in1|, i);
      InBatch(o2, ld2, n, |in2|, i);
      InBatch(o3, ld3, n, |in3|, i);
      InBatch(oo, ldo, n, out.Length, i);
      var i1, i2, i3, o := Slot(o1, ld1, i), Slot(o2, ld2, i), Slot(o3, ld3, i), Slot(oo, ldo, i);
      ghost var before := out[..];
      var v := Vec3(in1[i1 + 0] + in2[i2 + 1] * in3[i3 + 2] - in2[i2 + 2] * in3[i3 + 1],
                    in1[i1 + 1] + in2[i2 + 2] * in3[i3 + 0] - in2[i2 + 0] * in3[i3 + 2],
                    in1[i1 + 2] + in2[i2 + 0] * in3[i3 + 1] - in2[i2 + 1] * in3[i3 + 0]);
      CadEntries(in1, i1, in2, i2, in3, i3);
      PutVec3(out, o, v);
      VecStep(out[..], before, old(out[..]), f, oo, ldo, i);
      i := i + 1;
    }
  }

  /** The slot-by-slot formula of dyn2b_crs_vec3 is the cross product. */
  lemma CrsEntries(in1: seq<real>, i1: int, in2: seq<real>, i2: int)
    requires 0 <= i1 && i1 + 3 <= |in1| && 0 <= i2 && i2 + 3 <= |in2|
    ensures Cross(Vec3At(in1, i1), Vec3At(in2, i2))
         == Vec3(in1[i1 + 1] * in2[i2 + 2] - in1[i1 + 2] * in2[i2 + 1],
                 in1[i1 + 2] * in2[i2 + 0] - in1[i1 + 0] * in2[i2 + 2],
                 in1[i1 + 0] * in2[i2 + 1] - in1[i1 + 1] * in2[i2 + 0])
  {
  }

  /** The slot-by-slot formula of dyn2b_cad_vec3 is in1 + in2 x in3. */
  lemma CadEntries(in1: seq<real>, i1: int, in2: seq<real>, i2: int, in3: seq<real>, i3: int)
    requires 0 <= i1 && i1 + 3 <= |in1| && 0 <= i2 && i2 + 3 <= |in2| && 0 <= i3 && i3 + 3 <= |in3|
    ensures Plus(Vec3At(in1, i1), Cross(Vec3At(in2, i2), Vec3At(in3, i3)))
         == Vec3(in1[i1 + 0] + in2[i2 + 1] * in3[i3 + 2] - in2[i2 + 2] * in3[i3 + 1],
                 in1[i1 + 1] + in2[i2 + 2] * in3[i3 + 0] - in2[i2 + 0] * in3[i3 + 2],
                 in1[i1 + 2] + in2[i2 + 0] * in3[i3 + 1] - in2[i2 + 1] * in3[i3 + 0])
  {
  }

  /** dyn2b_skw_vec3: the 3x3 skew-symmetric matrix of a vector, column-major. */
  method SkwVec3(input: seq<real>, oi: int, out: array<real>, oo: int)
    requires 0 <= oi && oi + 3 <= |input|
    requires 0 <= oo && oo + 9 <= out.Length
    modifies out
    ensures Mat3At(out[..], oo) == Skew(Vec3At(input, oi))
    ensures forall p :: 0 <= p < out.Length && !(oo <= p < oo + 9) ==> out[p] == old(out[p])
  {
    out[oo + 0] := 0.0;
    out[oo + 1] := input[oi + 2];
    out[oo + 2] := -input[oi + 1];
    out[oo + 3] := -input[oi + 2];
    out[oo + 4] := 0.0;
    out[oo + 5] := input[oi + 0];
    out[oo + 6] := input[oi + 1];
    out[oo + 7] := -input[oi + 0];
    out[oo + 8] := 0.0;
  }
}
