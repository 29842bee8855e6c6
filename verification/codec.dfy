/** The coefficient codec: `coef2vec` flattens a list of coefficient bands
    into one vector and records one shape per band (the bookkeeping);
    `vec2coef` cuts a vector back into triples of tensors using that
    bookkeeping. */
module Codec {
  import opened Tensors

  /** The members of a Python tuple of coefficient tensors (never empty). */
  type Parts = s: seq<Tensor> | |s| > 0 witness [Dense([], [0.0])]

  /** One element of the list `coef2vec` walks: a tuple of tensors, or a
      lone tensor (the duck-typed `else` branch). */
  datatype Band = Single(t: Tensor) | Tuple(parts: Parts)

  /** The bookkeeping entry of a band: the shape of the tuple's first
      tensor, or of the lone tensor. */
  function BandShape(b: Band): Shape
  {
    match b
    case Single(t) => t.shape
    case Tuple(ps) => ps[0].shape
  }

  /** A tuple of three tensors of one three-dimensional shape: what the
      decoder produces and the round trip is stated for. */
  predicate IsTriple(b: Band)
  {
    && b.Tuple?
    && |b.parts| == 3
    && |b.parts[0].shape| == 3
    && b.parts[1].shape == b.parts[0].shape
    && b.parts[2].shape == b.parts[0].shape
  }

  function PartsData(ps: seq<Tensor>): seq<real>
  {
    if ps == [] then [] else ps[0].data + PartsData(ps[1..])
  }

  function BandData(b: Band): seq<real>
  {
    match b
    case Single(t) => t.data
    case Tuple(ps) => PartsData(ps)
  }

  /** The encoded vector: every band flattened, in list order and, inside a
      tuple, in tuple order. */
  function Flat(coef: seq<Band>): seq<real>
  {
    if coef == [] then [] else BandData(coef[0]) + Flat(coef[1..])
  }

  /** The encoded bookkeeping: one shape per band. */
  function Book(coef: seq<Band>): seq<Shape>
  {
    seq(|coef|, i requires 0 <= i < |coef| => BandShape(coef[i]))
  }

  function PartsSize(ps: seq<Tensor>): nat
  {
    if ps == [] then 0 else Size(ps[0].shape) + PartsSize(ps[1..])
  }

  function BandSize(b: Band): nat
  {
    match b
    case Single(t) => Size(t.shape)
    case Tuple(ps) => PartsSize(ps)
  }

  /** Total number of entries of all tensors in the list, counted by shape. */
  function TotalSize(coef: seq<Band>): nat
  {
    if coef == [] then 0 else BandSize(coef[0]) + TotalSize(coef[1..])
  }

  lemma {:induction false} PartsDataSnoc(ps: seq<Tensor>, j: nat)
    requires j < |ps|
    ensures PartsData(ps[..j + 1]) == PartsData(ps[..j]) + ps[j].data
  {
    if j > 0 {
      PartsDataSnoc(ps[1..], j - 1);
      assert ps[..j + 1][1..] == ps[1..][..j];
      assert ps[..j][1..] == ps[1..][..j - 1];
    } else {
      assert ps[..1][1..] == [];
    }
  }

  /** Encoding is compositional: a concatenated list encodes to the
      concatenated vectors. */
  lemma {:induction false} FlatAppend(a: seq<Band>, b: seq<Band>)
    ensures Flat(a + b) == Flat(a) + Flat(b)
  {
    if a != [] {
      assert (a + b)[0] == a[0] && (a + b)[1..] == a[1..] + b;
      FlatAppend(a[1..], b);
    } else {
      assert a + b == b;
    }
  }

  /** The bookkeeping of a concatenated list is the concatenated
      bookkeeping. */
  lemma BookAppend(a: seq<Band>, b: seq<Band>)
    ensures Book(a + b) == Book(a) + Book(b)
  {
    forall i | 0 <= i < |a| + |b|
      ensures Book(a + b)[i] == (Book(a) + Book(b))[i]
    {
      if i >= |a| {
        assert (a + b)[i] == b[i - |a|];
      }
    }
  }

  lemma FlatSnoc(coef: seq<Band>, i: nat)
    requires i < |coef|
    ensures Flat(coef[..i + 1]) == Flat(coef[..i]) + BandData(coef[i])
  {
    assert coef[..i + 1] == coef[..i] + [coef[i]];
    FlatAppend(coef[..i], [coef[i]]);
    assert [coef[i]][1..] == [];
  }

  lemma {:induction false} PartsDataLength(ps: seq<Tensor>)
    ensures |PartsData(ps)| == PartsSize(ps)
  {
    if ps != [] {
      PartsDataLength(ps[1..]);
    }
  }

  /** Encoder accounting: the vector holds exactly the entries of all the
      tensors, and there is one bookkeeping entry per band. */
  lemma {:induction false} EncodeAccounting(coef: seq<Band>)
    ensures |Flat(coef)| == TotalSize(coef)
    ensures |Book(coef)| == |coef|
  {
    if coef != [] {
      EncodeAccounting(coef[1..]);
      match coef[0]
      case Single(t) =>
      case Tuple(ps) => PartsDataLength(ps);
    }
  }

  /** The inner loop of `coef2vec`: appends every tensor of a tuple,
      flattened, in tuple order. */
  method AppendParts(vec: seq<real>, ps: seq<Tensor>) returns (r: seq<real>)
    ensures r == vec + PartsData(ps)
  {
    r := vec;
    for j := 0 to |ps|
      invariant r == vec + PartsData(ps[..j])
    {
      PartsDataSnoc(ps, j);
      r := r + ps[j].data;
    }
    assert ps[..|ps|] == ps;
  }

  /** `coef2vec`: grows the vector and the bookkeeping band by band. */
  method Coef2Vec(coef: seq<Band>) returns (vec: seq<real>, book: seq<Shape>)
    ensures vec == Flat(coef) && |vec| == TotalSize(coef)
    ensures book == Book(coef)
  {
    vec, book := [], [];
    for i := 0 to |coef|
      invariant vec == Flat(coef[..i])
      invariant |book| == i && forall k :: 0 <= k < i ==> book[k] == BandShape(coef[k])
    {
      var ele := coef[i];
      FlatSnoc(coef, i);
      if ele.Tuple? {
        book := book + [ele.parts[0].shape];
        vec := AppendParts(vec, ele.parts);
      } else {
        book := book + [ele.t.shape];
        vec := vec + ele.t.data;
      }
    }
    assert coef[..|coef|] == coef;
    EncodeAccounting(coef);
  }

  /** Number of vector entries the decoder consumes: three tensors of each
      recorded shape. */
  function Need(book: seq<Shape>): nat
  {
    if book == [] then 0 else 3 * Size(book[0]) + Need(book[1..])
  }

  /** `vec[off:off + N].reshape(e)` with `N` the number of entries of `e`. */
  function Chunk(vec: seq<real>, off: nat, e: Shape): (t: Tensor)
    requires off + Size(e) <= |vec|
  {
    Dense(e, vec[off..off + Size(e)])
  }

  /** The triple read from `vec` at offset `off` for a bookkeeping entry `e`:
      three consecutive chunks of `Size(e)` entries, each reshaped to `e`. */
  function TripleAt(vec: seq<real>, off: nat, e: Shape): (b: Band)
    requires off + 3 * Size(e) <= |vec|
  {
    var n := Size(e);
    Tuple([Chunk(vec, off, e), Chunk(vec, off + n, e), Chunk(vec, off + 2 * n, e)])
  }

  /** Reference definition of `vec2coef`: one triple per bookkeeping entry,
      consuming the vector from the front; an entry that is not
      three-dimensional or a vector that runs out is a failure. */
  function Decode(vec: seq<real>, book: seq<Shape>): (r: Result<seq<Band>>)
    ensures r.Ok? ==> |r.value| == |book|
  {
    if book == [] then Ok([])
    else if |book[0]| != 3 then Err("bookkeeping entry is not three-dimensional")
    else if |vec| < 3 * Size(book[0]) then Err("vector too short for the bookkeeping")
    else
      var rest :- Decode(vec[3 * Size(book[0])..], book[1..]);
      Ok([TripleAt(vec, 0, book[0])] + rest)
  }

  /** Every decoded entry is a triple of tensors of the recorded shape. */
  lemma {:induction false} DecodeShapes(vec: seq<real>, book: seq<Shape>)
    requires Decode(vec, book).Ok?
    ensures forall i :: 0 <= i < |book| ==>
              IsTriple(Decode(vec, book).value[i]) && BandShape(Decode(vec, book).value[i]) == book[i]
  {
    if book != [] {
      var n := 3 * Size(book[0]);
      DecodeShapes(vec[n..], book[1..]);
    }
  }

  lemma ChunkShift(vec: seq<real>, m: nat, off: nat, e: Shape)
    requires m <= |vec| && off + Size(e) <= |vec| - m
    ensures Chunk(vec[m..], off, e) == Chunk(vec, m + off, e)
  {
    assert vec[m..][off..off + Size(e)] == vec[m + off..m + off + Size(e)];
  }

  lemma TripleShift(vec: seq<real>, m: nat, off: nat, e: Shape)
    requires m <= |vec| && off + 3 * Size(e) <= |vec| - m
    ensures TripleAt(vec[m..], off, e) == TripleAt(vec, m + off, e)
  {
    var n := Size(e);
    ChunkShift(vec, m, off, e);
    ChunkShift(vec, m, off + n, e);
    ChunkShift(vec, m, off + 2 * n, e);
  }

  /** Decoder accounting, failure side: decoding succeeds exactly when every
      entry is three-dimensional and the vector holds at least the entries
      the bookkeeping asks for. */
  lemma {:induction false} DecodeSucceeds(vec: seq<real>, book: seq<Shape>)
    ensures Decode(vec, book).Ok? <==> (forall k :: 0 <= k < |book| ==> |book[k]| == 3) && Need(book) <= |vec|
  {
    if book != [] && |book[0]| == 3 && |vec| >= 3 * Size(book[0]) {
      var n := 3 * Size(book[0]);
      DecodeSucceeds(vec[n..], book[1..]);
      assert (forall k :: 0 <= k < |book| ==> |book[k]| == 3) <==> (forall k :: 0 <= k < |book| - 1 ==> |book[1..][k]| == 3) by {
        if forall k :: 0 <= k < |book| - 1 ==> |book[1..][k]| == 3 {
          forall k | 0 <= k < |book| ensures |book[k]| == 3 {
            if k > 0 {
              assert book[k] == book[1..][k - 1];
            }
          }
        }
      }
    }
  }

  /** A successful decoding of a non-empty bookkeeping starts with the triple
      at the front of the vector and goes on with the rest. */
  lemma DecodeCons(vec: seq<real>, book: seq<Shape>)
    requires Decode(vec, book).Ok? && book != []
    ensures |book[0]| == 3 && 3 * Size(book[0]) <= |vec|
    ensures Decode(vec[3 * Size(book[0])..], book[1..]).Ok?
    ensures Decode(vec, book).value ==
            [TripleAt(vec, 0, book[0])] + Decode(vec[3 * Size(book[0])..], book[1..]).value
  {
  }

  /** One step of the reference decoder on an entry that fits. */
  lemma DecodeUnfold(vec: seq<real>, book: seq<Shape>)
    requires book != [] && |book[0]| == 3 && 3 * Size(book[0]) <= |vec|
    ensures Decode(vec, book) ==
            Prepend([TripleAt(vec, 0, book[0])], Decode(vec[3 * Size(book[0])..], book[1..]))
  {
  }

  /** Decoder accounting, success side: entry `i` of the decoded list is the
      triple read at the sum of three times the sizes of the earlier
      entries. */
  lemma {:induction false} DecodeEntries(vec: seq<real>, book: seq<Shape>, i: nat)
    requires Decode(vec, book).Ok? && i < |book|
    ensures Need(book[..i]) + 3 * Size(book[i]) <= |vec|
    ensures Decode(vec, book).value[i] == TripleAt(vec, Need(book[..i]), book[i])
  {
    var n := 3 * Size(book[0]);
    DecodeCons(vec, book);
    if i > 0 {
      DecodeEntries(vec[n..], book[1..], i - 1);
      assert book[1..][i - 1] == book[i];
      assert book[..i][1..] == book[1..][..i - 1];
      assert Need(book[..i]) == n + Need(book[1..][..i - 1]);
      TripleShift(vec, n, Need(book[1..][..i - 1]), book[i]);
    } else {
      assert book[..0] == [];
    }
  }

  /** Values after the ones the bookkeeping asks for are ignored, not rejected. */
  lemma {:induction false} DecodeIgnoresSurplus(vec: seq<real>, extra: seq<real>, book: seq<Shape>)
    requires Need(book) <= |vec|
    ensures Decode(vec + extra, book) == Decode(vec, book)
  {
    if book != [] && |book[0]| == 3 {
      var n := 3 * Size(book[0]);
      assert (vec + extra)[n..] == vec[n..] + extra;
      DecodeIgnoresSurplus(vec[n..], extra, book[1..]);
      var m := Size(book[0]);
      assert (vec + extra)[0..m] == vec[0..m];
      assert (vec + extra)[m..2 * m] == vec[m..2 * m];
      assert (vec + extra)[2 * m..3 * m] == vec[2 * m..3 * m];
    }
  }

  lemma PartsData3(ps: seq<Tensor>)
    requires |ps| == 3
    ensures PartsData(ps) == ps[0].data + ps[1].data + ps[2].data
  {
    assert PartsData(ps) == ps[0].data + PartsData(ps[1..]);
    assert PartsData(ps[1..]) == ps[1].data + PartsData(ps[2..]);
    assert PartsData(ps[2..]) == ps[2].data + PartsData(ps[3..]);
    assert ps[3..] == [];
  }

  lemma SliceJoin(vec: seq<real>, a: nat, b: nat, c: nat)
    requires a <= b <= c <= |vec|
    ensures vec[a..b] + vec[b..c] == vec[a..c]
  {
  }

  /** Reading a triple back from the front of its own flattening. */
  lemma ReadBackTriple(b: Band, rest: seq<real>)
    requires IsTriple(b)
    ensures |BandData(b)| == 3 * Size(BandShape(b))
    ensures (BandData(b) + rest)[3 * Size(BandShape(b))..] == rest
    ensures TripleAt(BandData(b) + rest, 0, BandShape(b)) == b
  {
    var ps := b.parts;
    var n := Size(ps[0].shape);
    PartsData3(ps);
    var vec := BandData(b) + rest;
    assert vec[..n] == ps[0].data;
    assert vec[n..2 * n] == ps[1].data;
    assert vec[2 * n..3 * n] == ps[2].data;
    assert [ps[0], ps[1], ps[2]] == ps;
  }

  /** Round trip: decoding the encoding of a list of equal-shape
      three-dimensional triples gives the list back. */
  lemma {:induction false} RoundTrip(coef: seq<Band>)
    requires forall i :: 0 <= i < |coef| ==> IsTriple(coef[i])
    ensures Decode(Flat(coef), Book(coef)) == Ok(coef)
  {
    if coef != [] {
      var book := Book(coef);
      var rest := Flat(coef[1..]);
      assert Flat(coef) == BandData(coef[0]) + rest;
      assert book[0] == BandShape(coef[0]);
      assert book[1..] == Book(coef[1..]);
      ReadBackTriple(coef[0], rest);
      RoundTrip(coef[1..]);
      DecodeUnfold(Flat(coef), book);
      assert [coef[0]] + coef[1..] == coef;
    }
  }

  /** The entries of a triple read from `vec` are the vector's entries it
      was read from, in order. */
  lemma TripleData(vec: seq<real>, off: nat, e: Shape)
    requires off + 3 * Size(e) <= |vec|
    ensures BandData(TripleAt(vec, off, e)) == vec[off..off + 3 * Size(e)]
  {
    var n := Size(e);
    var ps := TripleAt(vec, off, e).parts;
    PartsData3(ps);
    SliceJoin(vec, off, off + n, off + 2 * n);
    SliceJoin(vec, off, off + 2 * n, off + 3 * n);
  }

  lemma FlatCons(b: Band, rest: seq<Band>, vec: seq<real>, n: nat, m: nat)
    requires n + m <= |vec|
    requires BandData(b) == vec[0..n] && Flat(rest) == vec[n..][..m]
    ensures Flat([b] + rest) == vec[..n + m]
  {
    assert ([b] + rest)[0] == b && ([b] + rest)[1..] == rest;
    assert vec[0..n] + vec[n..][..m] == vec[..n + m];
  }

  lemma {:induction false} EncodeDecodeFlat(vec: seq<real>, book: seq<Shape>)
    requires Decode(vec, book).Ok?
    ensures Need(book) <= |vec|
    ensures Flat(Decode(vec, book).value) == vec[..Need(book)]
  {
    if book != [] {
      var n := 3 * Size(book[0]);
      DecodeCons(vec, book);
      var rest := Decode(vec[n..], book[1..]);
      EncodeDecodeFlat(vec[n..], book[1..]);
      TripleData(vec, 0, book[0]);
      assert Need(book) == n + Need(book[1..]);
      FlatCons(TripleAt(vec, 0, book[0]), rest.value, vec, n, Need(book[1..]));
    }
  }

  /** The other half of the round trip: encoding a successful decoding gives
      back the bookkeeping and the part of the vector the decoder read. */
  lemma EncodeDecode(vec: seq<real>, book: seq<Shape>)
    requires Decode(vec, book).Ok?
    ensures Need(book) <= |vec|
    ensures Flat(Decode(vec, book).value) == vec[..Need(book)]
    ensures Book(Decode(vec, book).value) == book
  {
    EncodeDecodeFlat(vec, book);
    DecodeShapes(vec, book);
  }

  /** Continues a decoding result after the triples already produced. */
  function Prepend(pre: seq<Band>, r: Result<seq<Band>>): Result<seq<Band>>
  {
    match r
    case Ok(v) => Ok(pre + v)
    case Err(e) => Err(e)
  }

  /** The decoder as the source's loop runs it: from offset `ind` in the
      vector and entry `i` of the bookkeeping. */
  function DecodeFrom(vec: seq<real>, ind: nat, book: seq<Shape>, i: nat): (r: Result<seq<Band>>)
    requires ind <= |vec| && i <= |book|
    decreases |book| - i
  {
    if i == |book| then Ok([])
    else if |book[i]| != 3 then Err("bookkeeping entry is not three-dimensional")
    else if |vec| < ind + 3 * Size(book[i]) then Err("vector too short for the bookkeeping")
    else
      var rest :- DecodeFrom(vec, ind + 3 * Size(book[i]), book, i + 1);
      Ok([TripleAt(vec, ind, book[i])] + rest)
  }

  /** Walking with an offset is decoding the remaining suffixes. */
  lemma {:induction false} DecodeFromSuffix(vec: seq<real>, ind: nat, book: seq<Shape>, i: nat)
    requires ind <= |vec| && i <= |book|
    ensures DecodeFrom(vec, ind, book, i) == Decode(vec[ind..], book[i..])
    decreases |book| - i
  {
    if i < |book| {
      assert book[i..][0] == book[i] && book[i..][1..] == book[i + 1..];
      if |book[i]| == 3 && ind + 3 * Size(book[i]) <= |vec| {
        var n := 3 * Size(book[i]);
        assert vec[ind..][n..] == vec[ind + n..];
        TripleShift(vec, ind, 0, book[i]);
        DecodeFromSuffix(vec, ind + n, book, i + 1);
      }
    }
  }

  lemma DecodeFromStep(vec: seq<real>, ind: nat, book: seq<Shape>, i: nat)
    requires i < |book| && |book[i]| == 3 && ind + 3 * Size(book[i]) <= |vec|
    ensures DecodeFrom(vec, ind, book, i) ==
            Prepend([TripleAt(vec, ind, book[i])], DecodeFrom(vec, ind + 3 * Size(book[i]), book, i + 1))
  {
  }

  /** The loop step of `vec2coef` against the reference walk: a triple read
      at the current offset extends the result. */
  lemma DecodeFromAdvance(vec: seq<real>, book: seq<Shape>, whole: Result<seq<Band>>, coef: seq<Band>,
                          ind: nat, i: nat, t: Band, next: nat)
    requires i < |book| && |book[i]| == 3 && next == ind + 3 * Size(book[i]) <= |vec|
    requires t == TripleAt(vec, ind, book[i])
    requires whole == Prepend(coef, DecodeFrom(vec, ind, book, i))
    ensures whole == Prepend(coef + [t], DecodeFrom(vec, next, book, i + 1))
  {
    DecodeFromStep(vec, ind, book, i);
    PrependTwice(coef, [t], DecodeFrom(vec, next, book, i + 1));
  }

  /** The loop of `vec2coef` against the reference walk: an entry that
      cannot be read ends the whole decoding with that entry's failure. */
  lemma DecodeFromStops(vec: seq<real>, book: seq<Shape>, coef: seq<Band>, ind: nat, i: nat)
    requires i < |book| && ind <= |vec|
    requires |book[i]| != 3 || |vec| < ind + 3 * Size(book[i])
    requires DecodeFrom(vec, 0, book, 0) == Prepend(coef, DecodeFrom(vec, ind, book, i))
    ensures Decode(vec, book) ==
            if |book[i]| != 3 then Err("bookkeeping entry is not three-dimensional")
            else Err("vector too short for the bookkeeping")
  {
    DecodeFromSuffix(vec, 0, book, 0);
  }

  /** The loop of `vec2coef` against the reference walk: once every entry
      has been read, the triples collected are the whole decoding. */
  lemma DecodeFromDone(vec: seq<real>, book: seq<Shape>, coef: seq<Band>, ind: nat)
    requires ind <= |vec|
    requires DecodeFrom(vec, 0, book, 0) == Prepend(coef, DecodeFrom(vec, ind, book, |book|))
    ensures Decode(vec, book) == Ok(coef)
  {
    DecodeFromSuffix(vec, 0, book, 0);
    assert coef + [] == coef;
  }

  lemma PrependNothing(r: Result<seq<Band>>)
    ensures Prepend([], r) == r
  {
    if r.Ok? {
      assert [] + r.value == r.value;
    }
  }

  lemma PrependTwice(a: seq<Band>, b: seq<Band>, r: Result<seq<Band>>)
    ensures Prepend(a, Prepend(b, r)) == Prepend(a + b, r)
  {
    if r.Ok? {
      assert a + (b + r.value) == (a + b) + r.value;
    }
  }

  /** `ele[0] * ele[1] * ele[2]`: the number of entries of a
      three-dimensional bookkeeping entry. */
  method Volume(e: Shape) returns (n: nat)
    requires |e| == 3
    ensures n == Size(e)
  {
    SizeOf3(e);
    n := e[0] * e[1] * e[2];
  }

  /** `vec2coef`: walks the bookkeeping, advancing `ind` by three times the
      size of each entry. */
  method Vec2Coef(vec: seq<real>, book: seq<Shape>) returns (r: Result<seq<Band>>)
    ensures r == Decode(vec, book)
  {
    var ind: nat := 0;
    var coef := [];
    ghost var whole := DecodeFrom(vec, 0, book, 0);
    PrependNothing(whole);
    for i := 0 to |book|
      invariant ind <= |vec|
      invariant whole == Prepend(coef, DecodeFrom(vec, ind, book, i))
    {
      var e := book[i];
      if |e| != 3 {
        DecodeFromStops(vec, book, coef, ind, i);
        return Err("bookkeeping entry is not three-dimensional");
      }
      var n := Volume(e);
      if |vec| < ind + 3 * n {
        DecodeFromStops(vec, book, coef, ind, i);
        return Err("vector too short for the bookkeeping");
      }
      var t := Tuple([Chunk(vec, ind, e), Chunk(vec, ind + n, e), Chunk(vec, ind + 2 * n, e)]);
      var next := ind + 3 * n;
      DecodeFromAdvance(vec, book, whole, coef, ind, i, t, next);
      coef, ind := coef + [t], next;
    }
    DecodeFromDone(vec, book, coef, ind);
    return Ok(coef);
  }
}
