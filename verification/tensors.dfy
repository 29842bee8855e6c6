/** Dense real-valued tensors, the failure-compatible Result type for the
    errors the source raises, and the sequence helpers (concatenation,
    sums, Python-style slicing) shared by the codec, the dictionary and
    the solver. Floating point is modelled by `real`. */
module Tensors {

  /** Outcome of an operation that the source may abort with an exception. */
  datatype Result<+T> = Ok(value: T) | Err(reason: string) {
    predicate IsFailure() { Err? }

    function PropagateFailure<U>(): Result<U>
      requires Err?
    {
      Err(reason)
    }

    function Extract(): T
      requires Ok?
    {
      value
    }
  }

  /** An attribute that the source leaves at `None` until first use. */
  datatype Option<+T> = None | Some(value: T)

  type Shape = seq<nat>

  /** Number of entries of a tensor of shape `s` (the product of its dimensions). */
  function Size(s: Shape): nat
  {
    if s == [] then 1 else s[0] * Size(s[1..])
  }

  lemma SizeOf3(s: Shape)
    requires |s| == 3
    ensures Size(s) == s[0] * s[1] * s[2]
  {
    assert s[1..][1..][1..] == [];
    assert Size(s[1..][1..]) == s[2];
  }

  /** A shape together with its entries in row-major order. */
  datatype Dense = Dense(shape: Shape, data: seq<real>)

  /** A well-formed tensor: exactly as many entries as its shape holds. */
  type Tensor = t: Dense | |t.data| == Size(t.shape) witness Dense([], [0.0])

  function Zeros(s: Shape): (t: Tensor)
    ensures t.shape == s && forall i :: 0 <= i < |t.data| ==> t.data[i] == 0.0
  {
    Dense(s, seq(Size(s), _ => 0.0))
  }

  function Max(a: real, b: real): real { if a < b then b else a }

  function Min(a: real, b: real): real { if a < b then a else b }

  function Abs(a: real): real { if a < 0.0 then -a else a }

  predicate NonNegative(v: seq<real>)
  {
    forall i :: 0 <= i < |v| ==> v[i] >= 0.0
  }

  /** Elementwise `v / c`. */
  function Divide(v: seq<real>, c: real): (r: seq<real>)
    requires c != 0.0
    ensures |r| == |v|
  {
    seq(|v|, i requires 0 <= i < |v| => v[i] / c)
  }

  /** `a + b` on two tensors; a shape mismatch, which torch would
      broadcast or reject, is a failure here. */
  function Add(a: Tensor, b: Tensor): (r: Result<Tensor>)
  {
    if a.shape != b.shape then Err("tensor shapes differ")
    else Ok(Dense(a.shape, AddScaled(a.data, 1.0, b.data)))
  }

  /** `t / c` on a tensor. */
  function Scale(t: Tensor, c: real): (r: Tensor)
    requires c != 0.0
    ensures r.shape == t.shape && r.data == Divide(t.data, c)
  {
    Dense(t.shape, Divide(t.data, c))
  }

  /** Elementwise `a + k * b`. */
  function AddScaled(a: seq<real>, k: real, b: seq<real>): (r: seq<real>)
    requires |a| == |b|
    ensures |r| == |a|
  {
    seq(|a|, i requires 0 <= i < |a| => a[i] + k * b[i])
  }

  /** Concatenation of a list of vectors, in list order. */
  function Concat<T>(vs: seq<seq<T>>): seq<T>
  {
    if vs == [] then [] else vs[0] + Concat(vs[1..])
  }

  function Sum(ns: seq<nat>): nat
  {
    if ns == [] then 0 else ns[0] + Sum(ns[1..])
  }

  lemma {:induction false} ConcatSnoc<T>(vs: seq<seq<T>>, i: nat)
    requires i < |vs|
    ensures Concat(vs[..i + 1]) == Concat(vs[..i]) + vs[i]
  {
    if i > 0 {
      ConcatSnoc(vs[1..], i - 1);
      assert vs[..i + 1][1..] == vs[1..][..i];
      assert vs[..i][1..] == vs[1..][..i - 1];
    } else {
      assert vs[..1][1..] == [];
    }
  }

  lemma {:induction false} SumSnoc(ns: seq<nat>, i: nat)
    requires i < |ns|
    ensures Sum(ns[..i + 1]) == Sum(ns[..i]) + ns[i]
  {
    if i > 0 {
      SumSnoc(ns[1..], i - 1);
      assert ns[..i + 1][1..] == ns[1..][..i];
      assert ns[..i][1..] == ns[1..][..i - 1];
    } else {
      assert ns[..1][1..] == [];
    }
  }

  lemma {:induction false} ConcatAppend<T>(a: seq<seq<T>>, b: seq<seq<T>>)
    ensures Concat(a + b) == Concat(a) + Concat(b)
  {
    if a != [] {
      assert (a + b)[0] == a[0] && (a + b)[1..] == a[1..] + b;
      ConcatAppend(a[1..], b);
    } else {
      assert a + b == b;
    }
  }

  lemma {:induction false} SumAppend(a: seq<nat>, b: seq<nat>)
    ensures Sum(a + b) == Sum(a) + Sum(b)
  {
    if a != [] {
      assert (a + b)[0] == a[0] && (a + b)[1..] == a[1..] + b;
      SumAppend(a[1..], b);
    } else {
      assert a + b == b;
    }
  }

  /** The concatenation is as long as the sum of the declared lengths. */
  lemma {:induction false} ConcatLength<T>(vs: seq<seq<T>>, lens: seq<nat>)
    requires |vs| == |lens|
    requires forall j :: 0 <= j < |vs| ==> |vs[j]| == lens[j]
    ensures |Concat(vs)| == Sum(lens)
  {
    if vs != [] {
      ConcatLength(vs[1..], lens[1..]);
    }
  }

  /** Python's `s[lo:hi]` for non-negative bounds: clamped to the sequence,
      empty when `lo >= hi`. */
  function Slice<T>(s: seq<T>, lo: nat, hi: nat): (r: seq<T>)
    ensures lo <= hi <= |s| ==> r == s[lo..hi]
    ensures |r| <= |s|
  {
    if lo >= hi || lo >= |s| then [] else s[lo..if hi < |s| then hi else |s|]
  }
}
