/** The format bridge between the torch wavelet layout and the pywt layout.
    The torch transform returns the detail levels finest first, each level
    one tensor of shape (1, C, ...) stacked along the channel axis; the
    pywt layout lists the levels coarsest first, each level a tuple of its
    C channel slices. A torch level is held here as the list of those
    slices, so `squeeze().unbind(0)` and `stack(..).unsqueeze(0)` become
    reading and writing that list. */
module Bridge {
  import opened Tensors
  import opened Codec

  /** One torch detail level `Yh[j]`, as its slices along the stacking axis. */
  datatype Level = Level(slices: Parts)

  /** `torch.stack` accepts only tensors of one shape. */
  predicate SameShapes(ps: seq<Tensor>)
  {
    forall k :: 0 <= k < |ps| ==> ps[k].shape == ps[0].shape
  }

  /** A band `pywt2torch_format` can stack: a tuple of equal-shape tensors. */
  predicate Stackable(b: Band)
  {
    b.Tuple? && SameShapes(b.parts)
  }

  /** Python's `xs[i]` for `-n <= i < n` on a list of length `n`. */
  function PyIndex(n: nat, i: int): (j: nat)
    requires -(n as int) <= i < n
    ensures j < n
    ensures i < 0 ==> j == n + i
    ensures 0 <= i ==> j == i
  {
    if i < 0 then n + i else i
  }

  /** Python's `xs[::-1]`. */
  function Reversed<T>(xs: seq<T>): (r: seq<T>)
  {
    seq(|xs|, k requires 0 <= k < |xs| => xs[|xs| - 1 - k])
  }

  /** `torch2pywt_format`: the low band is passed through and level `k` of
      the result is the unbound level `Yh[-(k + 1)]`. */
  function ToPywt(yl: Tensor, yh: seq<Level>): (r: (Tensor, seq<Band>))
    ensures r.0 == yl && |r.1| == |yh|
  {
    (yl, seq(|yh|, k requires 0 <= k < |yh| => Tuple(yh[PyIndex(|yh|, -(k + 1))].slices)))
  }

  /** The pywt list holds the torch levels in reverse order. */
  lemma ToPywtLevels(yl: Tensor, yh: seq<Level>, k: nat)
    requires k < |yh|
    ensures ToPywt(yl, yh).1[k] == Tuple(yh[|yh| - 1 - k].slices)
  {
    assert PyIndex(|yh|, -(k + 1)) == |yh| - 1 - k;
  }

  /** `pywt2torch_format`: reverse the level list, then stack every level;
      a band that is not a tuple of equal-shape tensors makes `torch.stack`
      raise. */
  function ToTorch(bands: seq<Band>): (r: Result<seq<Level>>)
    ensures r.Ok? ==> |r.value| == |bands|
  {
    var rev := Reversed(bands);
    if forall k :: 0 <= k < |rev| ==> Stackable(rev[k]) then
      Ok(seq(|rev|, k requires 0 <= k < |rev| => Level(rev[k].parts)))
    else
      Err("torch.stack expects a tuple of tensors of one shape")
  }

  /** Stacking succeeds exactly when every band is a tuple of equal-shape
      tensors, and level `k` of the torch list is band `len - 1 - k`. */
  lemma {:induction false} ToTorchLevels(bands: seq<Band>)
    ensures ToTorch(bands).Ok? <==> forall k :: 0 <= k < |bands| ==> Stackable(bands[k])
    ensures ToTorch(bands).Ok? ==>
              forall k :: 0 <= k < |bands| ==> ToTorch(bands).value[k] == Level(bands[|bands| - 1 - k].parts)
  {
    var rev := Reversed(bands);
    if forall k :: 0 <= k < |bands| ==> Stackable(bands[k]) {
      forall k | 0 <= k < |rev|
        ensures Stackable(rev[k])
      {
        assert rev[k] == bands[|bands| - 1 - k];
      }
    } else {
      var j :| 0 <= j < |bands| && !Stackable(bands[j]);
      assert rev[|bands| - 1 - j] == bands[j];
    }
  }

  /** Stacking the unbound levels gives back the torch level list. */
  lemma {:induction false} TorchOfPywt(yl: Tensor, yh: seq<Level>)
    requires forall k :: 0 <= k < |yh| ==> SameShapes(yh[k].slices)
    ensures ToTorch(ToPywt(yl, yh).1) == Ok(yh)
  {
    var bands := ToPywt(yl, yh).1;
    forall k | 0 <= k < |bands|
      ensures Stackable(bands[k])
    {
      ToPywtLevels(yl, yh, k);
    }
    ToTorchLevels(bands);
    var r := ToTorch(bands).value;
    forall k | 0 <= k < |yh|
      ensures r[k] == yh[k]
    {
      ToPywtLevels(yl, yh, |yh| - 1 - k);
    }
    assert r == yh;
  }

  /** Unbinding the stacked levels gives back the pywt band list. */
  lemma {:induction false} PywtOfTorch(yl: Tensor, bands: seq<Band>)
    requires ToTorch(bands).Ok?
    ensures ToPywt(yl, ToTorch(bands).value).1 == bands
  {
    ToTorchLevels(bands);
    var yh := ToTorch(bands).value;
    var back := ToPywt(yl, yh).1;
    forall k | 0 <= k < |bands|
      ensures back[k] == bands[k]
    {
      ToPywtLevels(yl, yh, k);
      assert yh[|yh| - 1 - k] == Level(bands[k].parts);
      assert Stackable(bands[k]);
    }
  }
}
