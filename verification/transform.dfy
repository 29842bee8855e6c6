/** `wavedec_asarray` and `waverec_asarray`: the glue that runs one wavelet
    basis of the torch transform and turns its output into (and back from)
    the flat low band, its shape, the flat detail vector and the
    bookkeeping. The transform itself (the `DWTForward` and `DWTInverse`
    filter banks of `pytorch_wavelets`) is not part of this model: it is a
    pair of total functions supplied by the caller. */
module Transform {
  import opened Tensors
  import opened Codec
  import opened Bridge

  /** The wavelet transform provider: `forward(im, wv, J)` is
      `DWTForward(J=J, mode='zero', wave=wv)(im)`, returning the low band
      and the detail levels finest first; `inverse(Yl, Yh, wv)` is
      `DWTInverse(mode='zero', wave=wv)((Yl, Yh))`. */
  datatype Wavelets = Wavelets(
    forward: (Tensor, string, nat) -> (Tensor, seq<Level>),
    inverse: (Tensor, seq<Level>, string) -> Tensor)

  /** What `wavedec_asarray` returns: `Yl.flatten()`, `Yl.shape`, the
      detail vector and its bookkeeping. */
  datatype Coeffs = Coeffs(low: seq<real>, lowShape: Shape, high: seq<real>, book: seq<Shape>)

  /** A torch detail level the decoder can rebuild: three slices of one
      three-dimensional shape. */
  predicate Regular(yh: seq<Level>)
  {
    forall k :: 0 <= k < |yh| ==> IsTriple(Tuple(yh[k].slices))
  }

  /** `wavedec_asarray(im, wv, level)`: forward transform, pywt layout,
      then the coefficient codec on the detail levels. */
  function Wavedec(p: Wavelets, im: Tensor, wv: string, level: nat): (c: Coeffs)
    ensures |c.low| == Size(c.lowShape)
    ensures |c.book| == |p.forward(im, wv, level).1|
  {
    var out := p.forward(im, wv, level);
    var pywt := ToPywt(out.0, out.1);
    Coeffs(pywt.0.data, pywt.0.shape, Flat(pywt.1), Book(pywt.1))
  }

  /** `waverec_asarray(Yl_flat, Yl_shape, wd, book, wv)`: decode the detail
      vector, reshape the low band, back to the torch layout, inverse
      transform. */
  function Waverec(p: Wavelets, low: seq<real>, lowShape: Shape, high: seq<real>, book: seq<Shape>, wv: string): (r: Result<Tensor>)
    ensures r.Ok? ==> Decode(high, book).Ok? && |low| == Size(lowShape)
    ensures r.Ok? ==> exists yh :: ToTorch(Decode(high, book).value) == Ok(yh) && r.value == p.inverse(Dense(lowShape, low), yh, wv)
  {
    var wc :- Decode(high, book);
    if |low| != Size(lowShape) then Err("reshape: the low band does not fit its shape")
    else
      var yl: Tensor := Dense(lowShape, low);
      var yh :- ToTorch(wc);
      Ok(p.inverse(yl, yh, wv))
  }

  /** Every level the decoder produces can be stacked back. */
  lemma DecodedStackable(high: seq<real>, book: seq<Shape>)
    requires Decode(high, book).Ok?
    ensures ToTorch(Decode(high, book).value).Ok?
  {
    var wc := Decode(high, book).value;
    DecodeShapes(high, book);
    ToTorchLevels(wc);
    forall k | 0 <= k < |wc|
      ensures Stackable(wc[k])
    {
      TripleStackable(wc[k]);
    }
  }

  lemma TripleStackable(b: Band)
    requires IsTriple(b)
    ensures Stackable(b)
  {
    forall k | 0 <= k < |b.parts|
      ensures b.parts[k].shape == b.parts[0].shape
    {
      assert k == 0 || k == 1 || k == 2;
    }
  }

  /** The reconstruction fails only where the decoder or the reshape of the
      low band does. */
  lemma WaverecSucceeds(p: Wavelets, low: seq<real>, lowShape: Shape, high: seq<real>, book: seq<Shape>, wv: string)
    ensures Waverec(p, low, lowShape, high, book, wv).Ok? <==>
            Decode(high, book).Ok? && |low| == Size(lowShape)
  {
    if Decode(high, book).Ok? {
      DecodedStackable(high, book);
    }
  }

  /** Reconstruction from the decomposition hands the inverse transform
      exactly the low band and detail levels the forward transform
      produced. */
  lemma WaverecInvertsWavedec(p: Wavelets, im: Tensor, wv: string, level: nat)
    requires Regular(p.forward(im, wv, level).1)
    ensures var c := Wavedec(p, im, wv, level);
            Waverec(p, c.low, c.lowShape, c.high, c.book, wv) ==
            Ok(p.inverse(p.forward(im, wv, level).0, p.forward(im, wv, level).1, wv))
  {
    var out := p.forward(im, wv, level);
    var bands := ToPywt(out.0, out.1).1;
    forall k | 0 <= k < |bands|
      ensures IsTriple(bands[k])
    {
      ToPywtLevels(out.0, out.1, k);
    }
    RoundTrip(bands);
    forall k | 0 <= k < |out.1|
      ensures SameShapes(out.1[k].slices)
    {
      TripleStackable(Tuple(out.1[k].slices));
    }
    TorchOfPywt(out.0, out.1);
    assert Dense(out.0.shape, out.0.data) == out.0;
  }
}
