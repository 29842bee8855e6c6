# SARA wavelet dictionary and its dual forward-backward proximal operator

This project models the part of `deepinv/diffops/models/wavdict.py` that
surrounds the wavelet filter banks: the bookkeeping and the iteration logic.

- **Coefficient codec** (`codec.dfy`). `coef2vec` flattens a list of
  coefficient bands into one vector and records one shape per band.
  `vec2coef` cuts a vector back into triples of tensors, using that
  bookkeeping.
- **Format bridge** (`bridge.dfy`). `torch2pywt_format` and
  `pywt2torch_format` convert between the torch layout (finest level
  first, each level stacked) and the pywt layout (coarsest level first,
  each level a tuple of slices).
- **Transform glue** (`transform.dfy`). `wavedec_asarray` and
  `waverec_asarray` run one wavelet basis. The torch transform itself is
  a pair of function values that the caller supplies.
- **SARA dictionary** (`sara.dfy`). `SARA_dict` is never changed after
  construction, so it is a value.
  - The constructor records the per-basis lengths and their prefix sums.
  - `Psit` concatenates the per-basis coefficients in basis order and
    scales them.
  - `Psi` cuts its inputs at the prefix sums, reconstructs each basis and
    sums the images.
- **Solver** (`solver.dfy`). `prox_l1` is the soft threshold.
  `WaveletDict` is a class whose dual variables and primal iterate start
  as `None`. Its `forward` initialises them on first use, then runs a
  bounded loop with an early exit: a projected primal step, then the two
  dual updates.
  - The loop is proved against a reference `Run` function.
  - `Run` takes the dictionary as an analysis/synthesis pair. For the
    SARA dictionary this pair equals `Psit` and the reference definition
    of `Psi`.

Shared types live in `tensors.dfy`. These are tensors with a shape,
`Result` for the exceptions the source raises, and the sequence helpers.

## Model

| member | source | states |
|---|---|---|
| Codec.Coef2Vec | deepinv/diffops/models/wavdict.py:93-103 | The vector is every band flattened: list order, then order within each tuple. Its length is the sum of the tensors' sizes. There is one bookkeeping entry per band: the shape of the tuple's first tensor, or of the lone tensor. |
| Codec.AppendParts | deepinv/diffops/models/wavdict.py:98-99 | The inner loop over a tuple appends every tensor's entries to the vector, in tuple order. |
| Codec.EncodeAccounting | deepinv/diffops/models/wavdict.py:93-103 | The encoded length equals the total number of tensor entries. The bookkeeping has one entry per list element. |
| Codec.FlatAppend | deepinv/diffops/models/wavdict.py:95-102 | The flattened vector of a concatenation of lists is the concatenation of their flattened vectors. |
| Codec.BookAppend | deepinv/diffops/models/wavdict.py:95-102 | The bookkeeping of a concatenation of lists is the concatenation of their bookkeeping lists. |
| Codec.Vec2Coef | deepinv/diffops/models/wavdict.py:115-124 | The loop that advances `ind` by three times the entry's size returns exactly the reference decoding `Decode`, including its failures. Each step reshapes the three consecutive chunks of the entry's size at `ind`. |
| Codec.Volume | deepinv/diffops/models/wavdict.py:118 | The product of the three extents of a bookkeeping entry is that entry's number of elements. |
| Codec.Decode | deepinv/diffops/models/wavdict.py:115-124 | On success the decoder returns exactly one element per bookkeeping entry. |
| Codec.DecodeSucceeds | deepinv/diffops/models/wavdict.py:117-122 | Decoding succeeds if and only if two things hold. Every entry is three-dimensional. The vector holds at least three times the sum of the entry sizes. |
| Codec.DecodeShapes | deepinv/diffops/models/wavdict.py:119-121 | Every decoded element is a triple. Each of its three tensors has that entry's shape. |
| Codec.DecodeEntries | deepinv/diffops/models/wavdict.py:117-122 | Entry `i` is read at offset `ind_i`, the sum of three times the sizes of the earlier entries. It takes three consecutive chunks of the entry's size. |
| Codec.DecodeIgnoresSurplus | deepinv/diffops/models/wavdict.py:115-124 | Entries after the last one the bookkeeping needs do not change the result. |
| Codec.RoundTrip | deepinv/diffops/models/wavdict.py:84-124 | For a list of triples of one three-dimensional shape, decoding the encoding returns the list. |
| Codec.EncodeDecode | deepinv/diffops/models/wavdict.py:84-124 | The other direction: encoding a successful decoding gives back the bookkeeping, and the vector's prefix of length three times the sum of the entry sizes (the part the decoder read). |
| Bridge.ToPywt | deepinv/diffops/models/wavdict.py:131-133 | The low band is returned unchanged. There are as many pywt levels as torch levels. |
| Bridge.ToPywtLevels | deepinv/diffops/models/wavdict.py:131 | Pywt level `k` is the tuple of slices of torch level `len - 1 - k`. The negative index `Yh[-(k+1)]` is resolved by `PyIndex`. |
| Bridge.ToTorch | deepinv/diffops/models/wavdict.py:140-143 | On success there is one torch level per band. |
| Bridge.ToTorchLevels | deepinv/diffops/models/wavdict.py:140-141 | Stacking succeeds if and only if every band is a tuple of equal-shape tensors. Torch level `k` is then band `len - 1 - k`. |
| Bridge.TorchOfPywt | deepinv/diffops/models/wavdict.py:131-143 | `pywt2torch_format` after `torch2pywt_format` returns the original torch levels. |
| Bridge.PywtOfTorch | deepinv/diffops/models/wavdict.py:131-143 | `torch2pywt_format` after a successful `pywt2torch_format` returns the original bands. |
| Transform.Wavedec | deepinv/diffops/models/wavdict.py:146-152 | The flat low band fits its recorded shape. The bookkeeping has one entry per detail level of the transform. |
| Transform.Waverec | deepinv/diffops/models/wavdict.py:155-163 | A reconstruction succeeds only when the bookkeeping decodes and the low band fits its shape. The inverse transform then receives that reshaped low band and the decoded levels in torch layout. The converse is `Transform.WaverecSucceeds`. |
| Transform.WaverecSucceeds | deepinv/diffops/models/wavdict.py:155-163 | Reconstruction fails exactly when decoding fails or when the low band does not fit its shape. |
| Transform.WaverecInvertsWavedec | deepinv/diffops/models/wavdict.py:146-163 | Assume every detail level has three equal-shape three-dimensional slices. Then reconstructing from the decomposition hands the inverse transform exactly the low band and the levels the forward transform produced. |
| Sara.Build | deepinv/diffops/models/wavdict.py:168-187 | The constructor's loop records, per basis, the decomposition's low-band length, detail length, bookkeeping and low-band shape. It also records their prefix sums. The reference image decomposes to those lengths. |
| Sara.Cumsum | deepinv/diffops/models/wavdict.py:186-187 | The prefix sums have one entry per length. Their values are stated by `Sara.CumsumFirst`, `Sara.CumsumStep` and `Sara.CumsumLast`. |
| Sara.CumsumFirst | deepinv/diffops/models/wavdict.py:186-187 | The first prefix sum is the first length. |
| Sara.CumsumStep | deepinv/diffops/models/wavdict.py:186-187 | Each later prefix sum is the previous one plus its own length. |
| Sara.CumsumLast | deepinv/diffops/models/wavdict.py:186-187 | The last prefix sum is the total length. |
| Sara.SegmentOfConcat | deepinv/diffops/models/wavdict.py:191-208 | Take vectors of the recorded lengths and concatenate them. The `i`-th segment between prefix sums is then exactly the `i`-th vector. |
| Sara.SegmentsPrefix | deepinv/diffops/models/wavdict.py:201-208 | The first `n` segments, concatenated, are the prefix of the vector up to the `n`-th partial sum. |
| Sara.SegmentsCover | deepinv/diffops/models/wavdict.py:201-208 | The segments `Psi` reads are contiguous and disjoint, and they cover a vector of the total length. |
| Sara.Psit | deepinv/diffops/models/wavdict.py:189-197 | The analysis succeeds if and only if the dictionary has at least one basis. Concatenating an empty list raises. |
| Sara.ScaledLayout | deepinv/diffops/models/wavdict.py:194-197 | After scaling the concatenation, segment `i` is the scaled `i`-th vector. The total length is the last prefix sum. |
| Sara.PsitLayout | deepinv/diffops/models/wavdict.py:189-208 | Take an image that decomposes to the recorded lengths. Then both outputs of `Psit` have the last prefix sum as length. Segment `i` of each is basis `i`'s coefficients divided by the norm. |
| Sara.SumPartsFails | deepinv/diffops/models/wavdict.py:204-208 | Once a reconstruction or an addition fails, the accumulated sum keeps that failure. |
| Sara.PsiSpec | deepinv/diffops/models/wavdict.py:199-210 | `Psi` fails when the dictionary has no basis. On success every per-basis reconstruction succeeded, and each has the shape of the result. |
| Sara.Psi | deepinv/diffops/models/wavdict.py:199-210 | The accumulation loop returns exactly `PsiSpec`, including its failures. `PsiSpec` is the in-order sum of the per-basis reconstructions, divided by the norm. |
| Sara.PsiReadsPsit | deepinv/diffops/models/wavdict.py:189-210 | Applied to the output of `Psit`, `Psi` hands every basis its own scaled coefficients together with the bookkeeping and low-band shape recorded at construction. |
| Solver.SoftThreshold | deepinv/diffops/models/wavdict.py:39-41 | For `t >= 0`: <ul><li>the identity when `t = 0`;</li><li>zero on `[-t, t]`;</li><li>`x - t` above `t` and `x + t` below `-t`;</li><li>never larger in magnitude than `x`;</li><li>never moves `x` by more than `t`.</li></ul> |
| Solver.ProxL1 | deepinv/diffops/models/wavdict.py:39-41 | Applied entrywise, it keeps the length. It is the identity for `t = 0`. For `t >= 0` no entry grows in magnitude. |
| Solver.Residual | deepinv/diffops/models/wavdict.py:64-67 | `z - prox_l1(z, t)` keeps the length. For `t >= 0` it lies in `[-t, t]` entrywise. For `t = 0` it is all zeros. |
| Solver.Descend | deepinv/diffops/models/wavdict.py:60-61 | The projected gradient step is non-negative. It equals the unprojected step whenever that step is non-negative, and 0 otherwise. |
| Solver.Project | deepinv/diffops/models/wavdict.py:60-61 | The projected primal iterate has the iterate's length and is non-negative. |
| Solver.SaraOps | deepinv/diffops/models/wavdict.py:59-63 | The dictionary operators the solver calls are defined everywhere. They coincide with `Psit` and `PsiSpec` of the SARA dictionary. |
| Solver.Primal | deepinv/diffops/models/wavdict.py:59-61 | On success, the new primal iterate keeps the iterate's shape and is non-negative. |
| Solver.Dual | deepinv/diffops/models/wavdict.py:62-67 | On success the dual half keeps the new `x_` and `r1_low`. It leaves `v1_low` all zeros with the length of `r1_low`. It leaves `v1_high` with its length, inside `[-ths/2, ths/2]` for `ths >= 0`. |
| Solver.Step | deepinv/diffops/models/wavdict.py:57-67 | After a successful iteration: <ul><li>the primal iterate is non-negative and keeps its shape;</li><li>the low dual is all zeros;</li><li>the high dual lies in `[-ths/2, ths/2]` for `ths >= 0`;</li><li>`r1_low` is unchanged;</li><li>`v1_high` keeps its length, and `v1_low` takes the length of `r1_low`.</li></ul> |
| Solver.ConvergedRatio | deepinv/diffops/models/wavdict.py:69-70 | `Converged` holds exactly when `norm(x_old + eps)` is positive and `norm(x_ - x_old) / norm(x_old + eps)` is below `conv_crit`. This is the source's `rel_err < conv_crit` over the reals, with the zero-denominator cases (`inf`, `nan`) false. |
| Solver.Run | deepinv/diffops/models/wavdict.py:55-71 | The reference loop makes at most `left` passes, and at least one when `left > 0`. |
| Solver.RunWithoutCriterion | deepinv/diffops/models/wavdict.py:69-71 | With a non-positive `conv_crit`, the loop never exits early. |
| Solver.RunEarlyExit | deepinv/diffops/models/wavdict.py:69-71 | An early exit implies a positive `conv_crit`. The final state then came from a pass whose relative change met the criterion. |
| Solver.RunEffects | deepinv/diffops/models/wavdict.py:55-71 | Suppose every step keeps the effects above. Then the final iterate is non-negative, keeps its shape and keeps `r1_low`, whatever the iteration count. After at least one iteration, the dual bounds hold as well. |
| Solver.Solve | deepinv/diffops/models/wavdict.py:53-81 | For the solver's own step and an iteration budget of `max_it` (none when `max_it <= 0`), the loop satisfies all of the above. |
| Solver.WaveletDict.Start | deepinv/diffops/models/wavdict.py:45-53 | Every field still `None` is initialised from `y`: <ul><li>the duals from `Psit(y)`, failing exactly when it fails;</li><li>`r1` and `r1_low` as copies of the duals;</li><li>`x_` as zeros of `y`'s shape.</li></ul> Every field already set is kept: the duals, `r1` and `r1_low`, and `x_`. So once the fields are set, `forward` starts from the stored state (warm start). The primal iterate is non-negative. |
| Solver.WaveletDict.constructor | deepinv/diffops/models/wavdict.py:18-37 | Builds the SARA dictionary from a zero image of the input shape. It records that image's per-basis lengths, bookkeeping and low-band shapes, and the norm. The solver's operators are that dictionary's `Psit` and `Psi`. Stores the parameters. Leaves every state field at `None`. |
| Solver.WaveletDict.Init | deepinv/diffops/models/wavdict.py:45-53 | Succeeds exactly when `Start` does, leaving the fields equal to its state. Never replaces a stored `r1_low`. |
| Solver.WaveletDict.PrimalPass | deepinv/diffops/models/wavdict.py:57-61 | Replaces only `x_`, with the primal step. It fails exactly when that step fails. |
| Solver.WaveletDict.DualPass | deepinv/diffops/models/wavdict.py:62-67 | Updates `v1_low`, `r1` and `v1_high` as the dual step prescribes. Leaves `x_` and `r1_low` untouched. |
| Solver.WaveletDict.Pass | deepinv/diffops/models/wavdict.py:57-67 | The fields after one loop body are the reference step applied to the fields before it. |
| Solver.WaveletDict.Iterations | deepinv/diffops/models/wavdict.py:55-71 | The early-exit loop over `range(max_it)` ends in exactly the state of the reference run. It fails exactly when the run fails. |
| Solver.WaveletDict.Forward | deepinv/diffops/models/wavdict.py:43-81 | `forward` succeeds exactly when the start and the reference run succeed. It returns the stored primal iterate, and the fields hold the run's final state. |

## Left out

- The `DWTForward` and `DWTInverse` filter banks of `pytorch_wavelets` are not part of this model. They are a pair of total function values (`Transform.Wavelets`) supplied by the caller, and no property of the filters is assumed.
- Floating point is modelled by `real`. NaN, infinities and rounding are not modelled.
- `np.sqrt(len(list_wv))` is a field `norm` that the caller supplies, with `norm >= 0` and `norm * norm` equal to the number of bases.
- The relative-error test of line 69 is compared on squared norms over the reals. The source's NaN cases (a zero denominator) count as "not converged".
- Torch broadcasting is not modelled. An elementwise operation on tensors or vectors of different shapes or lengths is a failure (`Err`).
- The verbose printing at lines 73-79 is output only and is left out. This includes the reference to `it` that fails when `max_it = 0`.
- `nn.Module` and `dtype` casting are not modelled (lines 21, 23, 30, 40). Neither are the unused `Nc, Nx, Ny` parameters of `coef2vec` or the never-read `vy1` field (lines 36, 50-51).
- The tuples of the coefficient list are never empty (`Codec.Parts`). An empty tuple, on which the source raises an `IndexError`, is not modelled.
- A bookkeeping entry that is not three-dimensional is a failure of `vec2coef`. The source raises an `IndexError` for fewer than three dimensions. For more than three, `torch.reshape` at lines 119-121 raises unless the slice has zero entries or the trailing dimensions multiply to 1.
- `squeeze()` and `unsqueeze(0)` at lines 131 and 141 are not modelled on shapes. A torch level is held as the list of its slices along the stacking axis, so singleton axes that `squeeze()` would also remove are not represented.
- Codec.RoundTrip: stated only for levels of exactly three slices. `vec2coef` always rebuilds triples, so images with a channel count other than three do not round-trip through the codec.
- The inverse transform is total here. A failure inside `DWTInverse` (for example, mismatched level shapes) is not represented.
- The solver's loop calls the dictionary through its operator pair. For the SARA dictionary these operators equal `Sara.Psit` and `Sara.PsiSpec` (`Solver.SaraOps`). `Sara.Psi`, the accumulation loop, is proved equal to `Sara.PsiSpec` separately.
- Solver.WaveletDict.Forward: after a failure (an exception in the source), only the class invariant and the stored `r1_low` are promised. The partially updated fields are not described.
- Convergence and its rate are not claimed. Only the iteration bound and the early-exit condition are.
