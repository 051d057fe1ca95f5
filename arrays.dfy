// Component-wise operations on arrays of doubles (src/array.c): each kernel is a
// loop over n entries, proved against a function on sequences.

module Arrays {

  /** Entry-wise sum. */
  function Add(a: seq<real>, b: seq<real>): (r: seq<real>)
    requires |a| == |b|
    ensures |r| == |a|
  {
    seq(|a|, i requires 0 <= i < |a| => a[i] + b[i])
  }

  /** Entry-wise difference a - b. */
  function Sub(a: seq<real>, b: seq<real>): (r: seq<real>)
    requires |a| == |b|
    ensures |r| == |a|
  {
    seq(|a|, i requires 0 <= i < |a| => a[i] - b[i])
  }

  /** Every entry multiplied by k. */
  function Scale(k: real, a: seq<real>): (r: seq<real>)
    ensures |r| == |a|
  {
    seq(|a|, i requires 0 <= i < |a| => k * a[i])
  }

  /** Every entry negated. */
  function Negate(a: seq<real>): (r: seq<real>)
    ensures |r| == |a|
  {
    seq(|a|, i requires 0 <= i < |a| => -a[i])
  }

  /** dyn2b_cpy_arr: out[i] = in[i] for i < n. */
  method CpyArr(n: nat, input: seq<real>, out: array<real>)
    requires n <= |input| && n <= out.Length
    modifies out
    ensures out[..n] == input[..n]
    ensures out[n..] == old(out[n..])
  {
    var i := 0;
    while i < n
      invariant 0 <= i <= n
      invariant out[..i] == input[..i]
      invariant out[n..] == old(out[n..])
    {
      out[i] := input[i];
      i := i + 1;
    }
  }

  /** dyn2b_add_arr: out[offset + i] = in1[i] + in2[i] for i < n. */
  method AddArr(n: nat, offset: nat, in1: seq<real>, in2: seq<real>, out: array<real>)
    requires n <= |in1| && n <= |in2| && offset + n <= out.Length
    modifies out
    ensures out[offset..offset + n] == Add(in1[..n], in2[..n])
    ensures out[..offset] == old(out[..offset])
    ensures out[offset + n..] == old(out[offset + n..])
  {
    var i := 0;
    while i < n
      invariant 0 <= i <= n
      invariant out[offset..offset + i] == Add(in1[..i], in2[..i])
      invariant out[..offset] == old(out[..offset])
      invariant out[offset + n..] == old(out[offset + n..])
    {
      out[offset + i] := in1[i] + in2[i];
      i := i + 1;
    }
  }

  /** dyn2b_add_arr_i: out[offset + i] += in[i] for i < n. */
  method AddArrI(n: nat, offset: nat, input: seq<real>, out: array<real>)
    requires n <= |input| && offset + n <= out.Length
    modifies out
    ensures out[offset..offset + n] == Add(old(out[offset..offset + n]), input[..n])
    ensures out[..offset] == old(out[..offset])
    ensures out[offset + n..] == old(out[offset + n..])
  {
    var i := 0;
    while i < n
      invariant 0 <= i <= n
      invariant out[offset..offset + i] == Add(old(out[offset..offset + i]), input[..i])
      invariant out[offset + i..] == old(out[offset + i..])
      invariant out[..offset] == old(out[..offset])
    {
      out[offset + i] := out[offset + i] + input[i];
      i := i + 1;
    }
  }

  /** dyn2b_sub_arr: out[i] = in1[i] - in2[i] for i < n. */
  method SubArr(n: nat, in1: seq<real>, in2: seq<real>, out: array<real>)
    requires n <= |in1| && n <= |in2| && n <= out.Length
    modifies out
    ensures out[..n] == Sub(in1[..n], in2[..n])
    ensures out[n..] == old(out[n..])
  {
    var i := 0;
    while i < n
      invariant 0 <= i <= n
      invariant out[..i] == Sub(in1[..i], in2[..i])
      invariant out[n..] == old(out[n..])
    {
      out[i] := in1[i] - in2[i];
      i := i + 1;
    }
  }

  /** dyn2b_scl_arr: out[i] = a * in[i] for i < n (the scalar is passed by
      pointer in the library and read once per entry). */
  method SclArr(n: nat, a: real, input: seq<real>, out: array<real>)
    requires n <= |input| && n <= out.Length
    modifies out
    ensures out[..n] == Scale(a, input[..n])
    ensures out[n..] == old(out[n..])
  {
    var i := 0;
    while i < n
      invariant 0 <= i <= n
      invariant forall j :: 0 <= j < i ==> out[j] == a * input[j]
      invariant out[n..] == old(out[n..])
    {
      out[i] := a * input[i];
      i := i + 1;
    }
    assert forall j :: 0 <= j < n ==> out[..n][j] == Scale(a, input[..n])[j];
  }

  /** dyn2b_inv_arr: out[i] = -in[i] for i < n. */
  method InvArr(n: nat, input: seq<real>, out: array<real>)
    requires n <= |input| && n <= out.Length
    modifies out
    ensures out[..n] == Negate(input[..n])
    ensures out[n..] == old(out[n..])
  {
    var i := 0;
    while i < n
      invariant 0 <= i <= n
      invariant out[..i] == Negate(input[..i])
      invariant out[n..] == old(out[n..])
    {
      out[i] := -input[i];
      i := i + 1;
    }
  }

  // ---------------------------------------------------------------------------
  // How the operations relate
  // ---------------------------------------------------------------------------

  /** Subtracting what was added restores the array. */
  lemma SubUndoesAdd(a: seq<real>, b: seq<real>)
    requires |a| == |b|
    ensures Sub(Add(a, b), b) == a
  {
  }

  /** Negation is an involution and is scaling by -1. */
  lemma NegateInvolutive(a: seq<real>)
    ensures Negate(Negate(a)) == a
    ensures Scale(-1.0, a) == Negate(a)
  {
  }

  /** Difference is the sum with the negation, and a - a is all zeros. */
  lemma SubIsAddNegate(a: seq<real>, b: seq<real>)
    requires |a| == |b|
    ensures Sub(a, b) == Add(a, Negate(b))
    ensures forall i :: 0 <= i < |a| ==> Sub(a, a)[i] == 0.0
  {
  }

  /** Scaling distributes over the sum and scaling by 1 copies. */
  lemma ScaleLinear(k: real, a: seq<real>, b: seq<real>)
    requires |a| == |b|
    ensures Scale(k, Add(a, b)) == Add(Scale(k, a), Scale(k, b))
    ensures Scale(1.0, a) == a
  {
    forall i | 0 <= i < |a|
      ensures Scale(k, Add(a, b))[i] == Add(Scale(k, a), Scale(k, b))[i]
    {
      assert k * (a[i] + b[i]) == k * a[i] + k * b[i];
    }
  }
}
