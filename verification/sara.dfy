/** `SARA_dict`: a redundant dictionary made of several wavelet bases. The
    constructor runs the decomposition of a reference image once per basis
    and records, per basis, the length of the flat low band, the length of
    the detail vector, the bookkeeping and the low-band shape, then the
    prefix sums of both length lists. `Psit` concatenates the per-basis
    vectors in basis order and divides by the square root of the number of
    bases; `Psi` cuts its inputs back into per-basis segments at the prefix
    sums, reconstructs every basis and sums the images. The dictionary is
    never changed after construction, so it is a value here. */
module Sara {
  import opened Tensors
  import opened Transform

  datatype SaraDict = SaraDict(
    wavelets: Wavelets,
    level: nat,
    wvs: seq<string>,         // list_wv
    lfLens: seq<nat>,         // list_coeffs_lf
    hfLens: seq<nat>,         // list_coeffs
    books: seq<seq<Shape>>,   // list_b
    lfShapes: seq<Shape>,     // list_lfshape
    lfCs: seq<nat>,           // list_coeffs_lf_cumsum
    hfCs: seq<nat>,           // list_coeffs_cumsum
    norm: real)               // np.sqrt(len(list_wv))

  /** `np.cumsum`: entry `i` is the sum of the first `i + 1` entries. */
  function Cumsum(s: seq<nat>): (r: seq<nat>)
    ensures |r| == |s|
  {
    seq(|s|, i requires 0 <= i < |s| => Sum(s[..i + 1]))
  }

  /** The prefix sums start at the first length, ... */
  lemma CumsumFirst(s: seq<nat>)
    requires s != []
    ensures Cumsum(s)[0] == s[0]
  {
    assert s[..1][1..] == [];
    assert Sum(s[..1]) == s[0] + Sum(s[..1][1..]);
  }

  /** ... grow by one length per step ... */
  lemma CumsumStep(s: seq<nat>, i: nat)
    requires 0 < i < |s|
    ensures Cumsum(s)[i] == Cumsum(s)[i - 1] + s[i]
  {
    SumSnoc(s, i);
  }

  /** ... and end at the total. */
  lemma CumsumLast(s: seq<nat>)
    requires s != []
    ensures Cumsum(s)[|s| - 1] == Sum(s)
  {
    assert s[..|s|] == s;
  }

  /** The decomposition of `x` in basis `i` of the dictionary. */
  function Basis(d: SaraDict, x: Tensor, i: nat): (c: Coeffs)
    requires i < |d.wvs|
    ensures |c.low| == Size(c.lowShape)
  {
    Wavedec(d.wavelets, x, d.wvs[i], d.level)
  }

  /** The dictionary's invariant, as the constructor leaves it. */
  predicate Valid(d: SaraDict)
  {
    && |d.lfLens| == |d.wvs|
    && |d.hfLens| == |d.wvs|
    && |d.books| == |d.wvs|
    && |d.lfShapes| == |d.wvs|
    && d.lfCs == Cumsum(d.lfLens)
    && d.hfCs == Cumsum(d.hfLens)
    && d.norm >= 0.0 && d.norm * d.norm == |d.wvs| as real
    && (|d.wvs| > 0 ==> d.norm > 0.0)
  }

  /** `x` decomposes, in every basis, into vectors of the recorded lengths
      (as the reference image, or any image of its shape under a
      shape-driven transform, does). */
  predicate Records(d: SaraDict, x: Tensor)
    requires Valid(d)
  {
    forall i :: 0 <= i < |d.wvs| ==>
      |Basis(d, x, i).low| == d.lfLens[i] && |Basis(d, x, i).high| == d.hfLens[i]
  }

  /** `SARA_dict.__init__(im, level, list_wv)`; `norm` is the square root
      of the number of bases, which the caller supplies. */
  method Build(p: Wavelets, im: Tensor, level: nat, wvs: seq<string>, norm: real) returns (d: SaraDict)
    requires norm >= 0.0 && norm * norm == |wvs| as real
    ensures Valid(d) && Records(d, im)
    ensures d.wavelets == p && d.level == level && d.wvs == wvs && d.norm == norm
    ensures forall i :: 0 <= i < |wvs| ==>
              d.books[i] == Basis(d, im, i).book && d.lfShapes[i] == Basis(d, im, i).lowShape
  {
    var lfLens: seq<nat> := [];
    var hfLens: seq<nat> := [];
    var books: seq<seq<Shape>> := [];
    var lfShapes: seq<Shape> := [];
    for i := 0 to |wvs|
      invariant |lfLens| == i && |hfLens| == i && |books| == i && |lfShapes| == i
      invariant forall j :: 0 <= j < i ==>
                  var c := Wavedec(p, im, wvs[j], level);
                  lfLens[j] == |c.low| && hfLens[j] == |c.high| && books[j] == c.book && lfShapes[j] == c.lowShape
    {
      var c := Wavedec(p, im, wvs[i], level);
      lfLens := lfLens + [|c.low|];
      hfLens := hfLens + [|c.high|];
      books := books + [c.book];
      lfShapes := lfShapes + [c.lowShape];
    }
    assert |wvs| > 0 ==> norm > 0.0 by {
      assert norm == 0.0 ==> norm * norm == 0.0;
    }
    d := SaraDict(p, level, wvs, lfLens, hfLens, books, lfShapes, Cumsum(lfLens), Cumsum(hfLens), norm);
  }

  /** Where segment `i` starts: 0 for the first basis, the previous prefix
      sum otherwise. */
  function Start(cs: seq<nat>, i: nat): nat
    requires i < |cs|
  {
    if i == 0 then 0 else cs[i - 1]
  }

  /** The slice `Psi` hands to basis `i`: `y[:cs[0]]` for the first basis,
      `y[cs[i - 1]:cs[i]]` for the others. */
  function Segment(y: seq<real>, cs: seq<nat>, i: nat): (r: seq<real>)
    requires i < |cs|
    ensures Start(cs, i) <= cs[i] <= |y| ==> r == y[Start(cs, i)..cs[i]]
  {
    Slice(y, Start(cs, i), cs[i])
  }

  /** The segments cut at the prefix sums of the lengths give back the
      concatenated vectors one by one. */
  lemma SegmentOfConcat(vs: seq<seq<real>>, lens: seq<nat>, i: nat)
    requires |vs| == |lens| && i < |vs|
    requires forall j :: 0 <= j < |vs| ==> |vs[j]| == lens[j]
    ensures Segment(Concat(vs), Cumsum(lens), i) == vs[i]
  {
    var cs := Cumsum(lens);
    var lo := Sum(lens[..i]);
    assert Start(cs, i) == lo by {
      if i == 0 {
        assert lens[..0] == [];
      }
    }
    SumSnoc(lens, i);
    assert cs[i] == lo + lens[i];
    ConcatLength(vs[..i], lens[..i]);
    assert vs == vs[..i] + ([vs[i]] + vs[i + 1..]);
    ConcatAppend(vs[..i], [vs[i]] + vs[i + 1..]);
    assert Concat([vs[i]] + vs[i + 1..]) == vs[i] + Concat(vs[i + 1..]);
    var all := Concat(vs);
    assert all == Concat(vs[..i]) + (vs[i] + Concat(vs[i + 1..]));
    assert all[lo..lo + lens[i]] == vs[i];
  }

  lemma SumPrefix(ns: seq<nat>, n: nat)
    requires n <= |ns|
    ensures Sum(ns[..n]) <= Sum(ns)
  {
    assert ns == ns[..n] + ns[n..];
    SumAppend(ns[..n], ns[n..]);
  }

  /** The first `n` segments, in basis order. */
  function Segments(v: seq<real>, cs: seq<nat>, n: nat): (r: seq<seq<real>>)
    requires n <= |cs|
    ensures |r| == n
  {
    seq(n, i requires 0 <= i < n => Segment(v, cs, i))
  }

  lemma SegmentsSnoc(v: seq<real>, cs: seq<nat>, n: nat)
    requires 0 < n <= |cs|
    ensures Segments(v, cs, n) == Segments(v, cs, n - 1) + [Segment(v, cs, n - 1)]
  {
    assert forall i :: 0 <= i < n - 1 ==> Segments(v, cs, n)[i] == Segments(v, cs, n - 1)[i];
  }

  lemma {:induction false} SegmentsPrefix(v: seq<real>, lens: seq<nat>, n: nat)
    requires |v| == Sum(lens) && n <= |lens|
    requires Sum(lens[..n]) <= |v|
    ensures Concat(Segments(v, Cumsum(lens), n)) == v[..Sum(lens[..n])]
  {
    var cs := Cumsum(lens);
    if n == 0 {
      assert lens[..0] == [];
    } else {
      SumPrefix(lens, n - 1);
      SegmentsPrefix(v, lens, n - 1);
      var seg := Segment(v, cs, n - 1);
      SegmentsSnoc(v, cs, n);
      ConcatAppend(Segments(v, cs, n - 1), [seg]);
      assert Concat([seg]) == seg + Concat([seg][1..]);
      assert [seg][1..] == [];
      SumSnoc(lens, n - 1);
      var lo := Sum(lens[..n - 1]);
      assert Start(cs, n - 1) == lo by {
        if n - 1 == 0 {
          assert lens[..0] == [];
        }
      }
      assert v[..lo + lens[n - 1]] == v[..lo] + v[lo..lo + lens[n - 1]];
    }
  }

  /** The segments are contiguous, disjoint and cover the vector: in basis
      order they concatenate to the whole vector. */
  lemma SegmentsCover(v: seq<real>, lens: seq<nat>)
    requires |v| == Sum(lens)
    ensures Concat(Segments(v, Cumsum(lens), |lens|)) == v
  {
    assert lens[..|lens|] == lens;
    SegmentsPrefix(v, lens, |lens|);
  }

  /** `Psit(x)`: the concatenated low bands and the concatenated detail
      vectors of all bases, each divided by the square root of the number
      of bases; with no basis, `torch.concat` of an empty list raises. */
  function Psit(d: SaraDict, x: Tensor): (r: Result<(seq<real>, seq<real>)>)
    requires Valid(d)
    ensures r.Ok? <==> |d.wvs| > 0
  {
    var lows := seq(|d.wvs|, i requires 0 <= i < |d.wvs| => Basis(d, x, i).low);
    var highs := seq(|d.wvs|, i requires 0 <= i < |d.wvs| => Basis(d, x, i).high);
    if |d.wvs| == 0 then Err("torch.concat of an empty list")
    else Ok((Divide(Concat(lows), d.norm), Divide(Concat(highs), d.norm)))
  }

  lemma SegmentDivide(v: seq<real>, cs: seq<nat>, i: nat, c: real)
    requires i < |cs| && c != 0.0
    ensures Segment(Divide(v, c), cs, i) == Divide(Segment(v, cs, i), c)
  {
  }

  /** Concatenating vectors of the given lengths and scaling the result:
      the length is the last prefix sum, and segment `i` is vector `i`
      scaled. */
  lemma ScaledLayout(vs: seq<seq<real>>, lens: seq<nat>, i: nat, c: real)
    requires |vs| == |lens| && i < |vs| && c != 0.0
    requires forall j :: 0 <= j < |vs| ==> |vs[j]| == lens[j]
    ensures |Divide(Concat(vs), c)| == Cumsum(lens)[|lens| - 1]
    ensures Segment(Divide(Concat(vs), c), Cumsum(lens), i) == Divide(vs[i], c)
  {
    CumsumLast(lens);
    ConcatLength(vs, lens);
    SegmentOfConcat(vs, lens, i);
    SegmentDivide(Concat(vs), Cumsum(lens), i, c);
  }

  /** Offset partition: for an image that decomposes into the recorded
      lengths, the output of `Psit` is exactly as long as the last prefix
      sums, and the segment `Psi` reads for basis `i` is basis `i`'s own
      scaled coefficients. */
  lemma PsitLayout(d: SaraDict, x: Tensor, i: nat)
    requires Valid(d) && Records(d, x) && i < |d.wvs|
    ensures Psit(d, x).Ok?
    ensures |Psit(d, x).value.0| == d.lfCs[|d.wvs| - 1]
    ensures |Psit(d, x).value.1| == d.hfCs[|d.wvs| - 1]
    ensures Segment(Psit(d, x).value.0, d.lfCs, i) == Divide(Basis(d, x, i).low, d.norm)
    ensures Segment(Psit(d, x).value.1, d.hfCs, i) == Divide(Basis(d, x, i).high, d.norm)
  {
    var lows := seq(|d.wvs|, j requires 0 <= j < |d.wvs| => Basis(d, x, j).low);
    var highs := seq(|d.wvs|, j requires 0 <= j < |d.wvs| => Basis(d, x, j).high);
    ScaledLayout(lows, d.lfLens, i, d.norm);
    ScaledLayout(highs, d.hfLens, i, d.norm);
  }

  /** The reconstruction of basis `i` from its segments of the inputs. */
  function Part(d: SaraDict, yLf: seq<real>, yHf: seq<real>, i: nat): Result<Tensor>
    requires Valid(d) && i < |d.wvs|
  {
    Waverec(d.wavelets, Segment(yLf, d.lfCs, i), d.lfShapes[i], Segment(yHf, d.hfCs, i), d.books[i], d.wvs[i])
  }

  /** The reconstructions of all bases, in basis order. */
  function Parts(d: SaraDict, yLf: seq<real>, yHf: seq<real>): (ps: seq<Result<Tensor>>)
    requires Valid(d)
    ensures |ps| == |d.wvs|
  {
    seq(|d.wvs|, i requires 0 <= i < |d.wvs| => Part(d, yLf, yHf, i))
  }

  /** The sum of the first `n` reconstructions, added in order; the first
      failure is the result. */
  function SumParts(ps: seq<Result<Tensor>>, n: nat): (r: Result<Tensor>)
    requires 1 <= n <= |ps|
    ensures r.Ok? ==> forall i :: 0 <= i < n ==> ps[i].Ok? && ps[i].value.shape == r.value.shape
  {
    if n == 1 then ps[0]
    else
      var acc :- SumParts(ps, n - 1);
      var part :- ps[n - 1];
      Add(acc, part)
  }

  /** Reference definition of `Psi`: the sum over all bases, divided by the
      square root of the number of bases; with no basis, reading the first
      prefix sum raises. */
  function PsiSpec(d: SaraDict, yLf: seq<real>, yHf: seq<real>): (r: Result<Tensor>)
    requires Valid(d)
    ensures r.Ok? ==> |d.wvs| > 0
    ensures r.Ok? ==> forall i :: 0 <= i < |d.wvs| ==>
              Parts(d, yLf, yHf)[i].Ok? && Parts(d, yLf, yHf)[i].value.shape == r.value.shape
  {
    if |d.wvs| == 0 then Err("index 0 is out of bounds")
    else
      var total :- SumParts(Parts(d, yLf, yHf), |d.wvs|);
      Ok(Scale(total, d.norm))
  }

  /** A failure of the partial sum is the failure of every longer sum. */
  lemma {:induction false} SumPartsFails(ps: seq<Result<Tensor>>, n: nat, m: nat)
    requires 1 <= n <= m <= |ps|
    requires SumParts(ps, n).Err?
    ensures SumParts(ps, m) == SumParts(ps, n)
    decreases m
  {
    if n < m {
      SumPartsFails(ps, n, m - 1);
    }
  }

  /** One more term of the partial sum. */
  lemma SumPartsNext(ps: seq<Result<Tensor>>, n: nat, acc: Tensor)
    requires 1 <= n < |ps| && SumParts(ps, n) == Ok(acc)
    ensures ps[n].Err? ==> SumParts(ps, n + 1) == Err(ps[n].reason)
    ensures ps[n].Ok? ==> SumParts(ps, n + 1) == Add(acc, ps[n].value)
  {
  }

  /** Basis `j` reads its inputs between prefix sums `j - 1` and `j`. */
  lemma PartAt(d: SaraDict, yLf: seq<real>, yHf: seq<real>, j: nat)
    requires Valid(d) && j < |d.wvs|
    ensures Parts(d, yLf, yHf)[j] ==
            Waverec(d.wavelets, Slice(yLf, Start(d.lfCs, j), d.lfCs[j]), d.lfShapes[j],
                    Slice(yHf, Start(d.hfCs, j), d.hfCs[j]), d.books[j], d.wvs[j])
  {
  }

  /** `Psi(y_lf, y_hf)`: reconstruct the first basis, then add the other
      bases one by one, reading basis `j + 1` between the prefix sums `j`
      and `j + 1`. */
  method Psi(d: SaraDict, yLf: seq<real>, yHf: seq<real>) returns (r: Result<Tensor>)
    requires Valid(d)
    ensures r == PsiSpec(d, yLf, yHf)
  {
    if |d.lfCs| == 0 {
      return Err("index 0 is out of bounds");
    }
    ghost var ps := Parts(d, yLf, yHf);
    var first := Waverec(d.wavelets, Slice(yLf, 0, d.lfCs[0]), d.lfShapes[0],
                         Slice(yHf, 0, d.hfCs[0]), d.books[0], d.wvs[0]);
    PartAt(d, yLf, yHf, 0);
    if first.Err? {
      SumPartsFails(ps, 1, |ps|);
      return Err(first.reason);
    }
    var out := first.value;
    for j := 0 to |d.lfCs| - 1
      invariant SumParts(ps, j + 1) == Ok(out)
    {
      var part := Waverec(d.wavelets, Slice(yLf, d.lfCs[j], d.lfCs[j + 1]), d.lfShapes[j + 1],
                          Slice(yHf, d.hfCs[j], d.hfCs[j + 1]), d.books[j + 1], d.wvs[j + 1]);
      PartAt(d, yLf, yHf, j + 1);
      SumPartsNext(ps, j + 1, out);
      if part.Err? {
        SumPartsFails(ps, j + 2, |ps|);
        return Err(part.reason);
      }
      var sum := Add(out, part.value);
      if sum.Err? {
        SumPartsFails(ps, j + 2, |ps|);
        return sum;
      }
      out := sum.value;
    }
    assert SumParts(ps, |d.wvs|) == Ok(out);
    return Ok(Scale(out, d.norm));
  }

  /** `Psi` applied to the output of `Psit` hands every basis its own
      scaled coefficients, with the bookkeeping recorded at construction. */
  lemma PsiReadsPsit(d: SaraDict, x: Tensor, i: nat)
    requires Valid(d) && Records(d, x) && i < |d.wvs|
    ensures Psit(d, x).Ok?
    ensures Part(d, Psit(d, x).value.0, Psit(d, x).value.1, i) ==
            Waverec(d.wavelets, Divide(Basis(d, x, i).low, d.norm), d.lfShapes[i],
                    Divide(Basis(d, x, i).high, d.norm), d.books[i], d.wvs[i])
  {
    PsitLayout(d, x, i);
  }
}
