# im2col cross-correlation, modelled in Dafny

The repository turns 2D convolution into matrix multiplication. Its core has two parts:

- `im2col` takes a `(C, H, W)` volume, a kernel size `kH × kW`, and a stride, padding and dilation. Each of those three is an int or a pair, normalised by `_pair`.
  - It computes the dilated kernel extent `(k-1)*d+1` and the output size `(dim + 2p - extent) // s + 1` on each axis.
  - It fails when either output size is not positive.
  - It zero-pads height and width.
  - It copies the strided, dilated `(C, kH, kW)` window at every output position `(oh, ow)`, in row-major order, into column `oh*outW + ow` of a preallocated `(C*kH*kW, outH*outW)` buffer.
- `conv2d_im2col` filters a grayscale image with a `(C_out, 1, kH, kW)` weight.
  - It rejects a weight whose input-channel dimension is not 1.
  - It repeats the geometry check.
  - It calls `im2col` on the image with a channel axis added.
  - It multiplies the flattened weight by the column matrix.
  - It adds a scalar bias, or a per-channel bias of shape `(C_out,)`, in place, and rejects any other bias shape.
  - It reshapes the product to `(C_out, outH, outW)`.

The model has four modules.

- `NdOps` (`ndops.dfy`) contains the numpy operations the code relies on, written over sequences:
  - `Sum` and `Dot`, the reduction inside `@`;
  - `Flatten` and `Flatten3`, which model row-major `reshape(-1)`;
  - `Chunk`, which models `reshape(rows, cols)`;
  - `Slice`, which models `a[start:stop:step]`;
  - `FloorDiv`, Python's `//`.
- `Tensors` (`tensors.dfy`) contains the values:
  - a `(C, H, W)` `Volume`;
  - a single-channel `Plane`;
  - a `(C_out, C_in, kH, kW)` `Weight`;
  - the `Bias` argument;
  - the `Result`/`Error` type, whose variants are `InvalidGeometry`, `UnsupportedChannels`, `BadBiasShape` and `NoOutputChannels`. `NoOutputChannels` is the failure of `weight.reshape(C_out, -1)` (code/filters.py:25) on a weight with no output channels: numpy cannot infer the `-1` of an empty array.
- `Im2col` (`im2col.dfy`) models `_pair` and `im2col`.
  - `Im2col.Im2col` allocates an `array2<real>`.
  - `Im2col.FillColumns` fills it with the nested `oh`/`ow` loops and the `col_idx` counter.
  - `Im2col.CopyWindow` copies one window, built by the slicing of lines 51-53, into one column.
  - The result is proved equal to `Columns`. This is a pure specification that reads each tap directly from the zero-extended input (`Padded`), with no padding buffer at all.
- `Filters` (`filters.dfy`) models `conv2d_im2col`.
  - `Filters.MatMul` computes `W_mat @ cols`.
  - `Filters.AddBias` performs the in-place `+=`.
  - `Filters.Reshape` is the final reshape.
  - The end-to-end contract of `Filters.Conv2d` is `IsCorrelation`: every output cell is the cross-correlation of the kernel with the zero-padded image window under it, with no kernel flip, plus the bias of its channel.

The bias argument is `Scalar(v)` or `Array(shape, values)`. An array is accepted only when its whole shape is exactly `[C_out]`, as in `bias.shape != (C_out,)` at code/filters.py:32. So an array with `C_out` elements but another shape, such as `(C_out, 1)` or a 0-d array, is rejected. The model calls this failure `BadBiasShape`.

## Model

| member | source | states |
|---|---|---|
| Im2col.AsPair | code/im2col.py:3-6 | A single value n becomes (n, n); a two-element pair becomes (vertical, horizontal) in that order |
| Im2col.Normalize | code/im2col.py:26-28 | The geometry holds the pairs of stride, padding and dilation, each normalised by `_pair` |
| Im2col.OutSizeCountsWindows | code/im2col.py:30-34 | Index o is below the output size iff the dilated window starting at o*s, of extent (k-1)*d+1, fits inside dim+2p: the output size counts exactly the window positions |
| Im2col.OutSizePositive | code/im2col.py:33-36 | The output size on an axis is positive iff the dilated kernel extent is at most dim+2p |
| Im2col.GeometryOkIffFits | code/im2col.py:30-36 | The geometry check passes iff the dilated kernel fits inside the padded input on both axes |
| NdOps.FloorDivIsDiv | code/im2col.py:33-34 | Python's floor division by a positive divisor equals Euclidean division, even for a negative dividend |
| Im2col.TapInBounds | code/im2col.py:48-53 | For every output index o below the output size and every tap i < k, o*s + i*d lies inside the padded axis [0, dim+2p) |
| Im2col.WindowFits | code/im2col.py:48-53 | The window's start row and column are nonnegative, and start + extent stays within the padded height and width |
| Im2col.Pad | code/im2col.py:38-39 | The padded volume has shape (C, H+2pH, W+2pW) with the channel axis untouched; each entry is the zero-extended input at (h-pH, w-pW), and the input sits at offset (pH, pW) |
| Im2col.CropPad | code/im2col.py:38-39 | Cutting the padding off again gives back exactly the input |
| Im2col.PadNothing | code/im2col.py:40-41 | With zero padding on both axes the padded volume is the input itself, as in the `x_pad = x` branch |
| Im2col.PadIsPadding | code/im2col.py:38-41 | `Pad` meets the padding relation that the window extraction relies on |
| NdOps.Slice | code/im2col.py:51-53 | For nonnegative start and stop, a positive-step slice start:stop:step has ceil((stop-start)/step) elements, or none when stop <= start |
| NdOps.SliceIndex | code/im2col.py:51-53 | The t-th element of the slice is s[start + t*step], and that index is below stop |
| Im2col.SliceWindowLength | code/im2col.py:51-53 | A slice of extent (k-1)*d+1 with step d has exactly k elements, so Python's silent truncation never happens |
| Im2col.PatchShape | code/im2col.py:51-53 | A patch sliced at an in-bounds start has shape (C, kH, kW) |
| Im2col.PatchEntry | code/im2col.py:51-53 | Patch tap (c, i, j) is x_pad at (c, hs + i*dH, ws + j*dW), and that index is in bounds |
| Im2col.WindowShape | code/im2col.py:48-53 | The window at output position (oh, ow) has shape (C, kH, kW) |
| Im2col.WindowEntry | code/im2col.py:48-53 | Tap (c, i, j) of the window at (oh, ow) is the zero-extended input at (c, oh*sH + i*dH, ow*sW + j*dW) |
| NdOps.FlattenIndex | code/im2col.py:55 | Row-major flattening puts m[r][j] at position r*n + j |
| NdOps.Flatten3Index | code/im2col.py:55 | `patch.reshape(-1)` puts tap (c, i, j) at position c*(kH*kW) + i*kW + j |
| Im2col.WindowColumnAt | code/im2col.py:55 | Each entry of the flattened window equals the matching row of column oh*outW+ow of the specification matrix |
| Im2col.WindowColumn | code/im2col.py:55 | The flattened window at (oh, ow) is column oh*outW+ow of the specification matrix, with length C*kH*kW |
| Im2col.ColumnsShape | code/im2col.py:43 | The column matrix has C*kH*kW rows, each of length outH*outW |
| Im2col.ColumnsRow | code/im2col.py:45-56 | Row c*kH*kW + i*kW + j of the column matrix holds tap (c, i, j) for every output position |
| Im2col.TapRowLength | code/im2col.py:45-56 | A tap row has one entry per output position, outH*outW in all |
| Im2col.TapRowEntry | code/im2col.py:45-56 | Entry oh*outW+ow of the row of tap (c, i, j) is the zero-extended input at (c, oh*sH + i*dH, ow*sW + j*dW): oh is the outer index and ow the inner |
| Im2col.ColumnsEntry | code/im2col.py:48-55 | cols[c*kH*kW + i*kW + j, oh*outW + ow] is the zero-extended input at (c, oh*sH + i*dH, ow*sW + j*dW) |
| Im2col.UnitGeometry | code/im2col.py:30-36 | A 1×1 kernel with unit stride and dilation and no padding passes the check, with output size H×W |
| Im2col.GridIdentity | code/im2col.py:45-56 | With unit steps and no offset, the grid of taps over a channel is the channel itself |
| Im2col.UnitTapRow | code/im2col.py:45-56 | For a 1×1 kernel with unit steps, the row of channel c is that channel flattened row-major |
| Im2col.SingleTapColumns | code/im2col.py:43-56 | For a 1×1 kernel the column matrix has C rows, row c being the tap row of channel c |
| Im2col.UnitKernelIsReshape | code/im2col.py:43-56 | With a 1×1 kernel, stride 1, padding 0 and dilation 1, the result is x reshaped row-major to (C, H*W) |
| Im2col.Im2col | code/im2col.py:8-58 | Fails with InvalidGeometry exactly when the geometry check fails. Otherwise it returns a fresh (C*kH*kW, outH*outW) array equal to the specification matrix |
| Im2col.FillColumns | code/im2col.py:45-56 | The nested oh/ow loops with the col_idx counter (col_idx = oh*outW + ow) fill the buffer so that it equals the specification matrix |
| Im2col.CopyWindow | code/im2col.py:48-56 | Writes column oh*outW+ow with the specification's entries and leaves every other column unchanged, so each column is written exactly once |
| Im2col.SetColumn | code/im2col.py:55 | `cols[:, k] = v`: column k becomes v and every other entry is unchanged |
| Tensors.Plane.AsVolume | code/filters.py:22 | `img[np.newaxis]` is a valid (1, H, W) volume with the same pixels |
| Filters.PointFilter | code/filters.py:22-26 | A 1×1 kernel with unit steps and no padding scales each pixel by the weight: the correlation at (oh, ow) is w*img[oh][ow] |
| Filters.ConstantWindow | code/filters.py:22-26 | Over a window where every tap is v, the correlation is the sum of the kernel's taps times v |
| Filters.NormalisedKernelKeepsLevel | code/filters.py:22-26 | A kernel whose taps sum to 1 maps a flat region of level v to v |
| Filters.BoxFilterOnFlatRegion | code/filters.py:22-26 | An all-ones kH×kW kernel over a window where every tap is v gives (kH*kW)*v, for example 9 on a 3×3 window of ones |
| NdOps.DotConstant | code/filters.py:26 | The dot product with a vector whose entries are all v is the sum of the other vector times v |
| NdOps.RowDotsConstant | code/filters.py:26 | The row-wise dot products of a matrix with rows whose entries are all v add up to the sum of all the matrix's entries times v |
| NdOps.BoxRows | code/filters.py:26 | The row-wise dot products of an a×b matrix of ones with rows whose entries are all v add up to (a*b)*v |
| Filters.WeightMatrixShape | code/filters.py:25 | `weight.reshape(C_out, -1)` has C_out rows of C_in*kH*kW entries |
| Filters.WeightMatrixEntry | code/filters.py:25 | W_mat[co, ci*kH*kW + i*kW + j] is weight[co, ci, i, j], the same row order as the column matrix |
| Filters.WeightRowIsFilter | code/filters.py:25 | With C_in = 1, row co of W_mat is filter co's kernel flattened row-major |
| Filters.ColumnIsWindow | code/filters.py:22-23 | Column oh*outW+ow of im2col of the image with a channel axis added is the kH×kW zero-padded image window under (oh, ow), flattened |
| NdOps.DotFlatten | code/filters.py:26 | The dot product of two flattened matrices is the sum of their row-wise dot products |
| Filters.ProductIsCorrelation | code/filters.py:22-26 | (W_mat @ cols)[co, oh*outW+ow] is the cross-correlation of kernel co with the zero-padded window at (oh, ow), with no flip |
| Filters.MatMul | code/filters.py:26 | `W_mat @ cols` is a fresh (C_out, outH*outW) array whose entry (co, k) is row co of W_mat dotted with column k |
| Filters.AddBias | code/filters.py:28-34 | Accepts exactly a scalar or a bias of shape (C_out,). On rejection the array is unchanged. Otherwise every entry of row co gains the scalar, or bias[co] |
| NdOps.ChunkIndex | code/filters.py:36 | `reshape(rows, n)` puts flat entry r*n + j at [r][j] |
| NdOps.FlattenChunk | code/filters.py:36 | Reshaping a flat row into rows and flattening again gives it back |
| NdOps.ChunkFlatten | code/filters.py:36 | Flattening a rectangular matrix and reshaping it again gives it back |
| Filters.ReshapeEntry | code/filters.py:36 | `out_cols.reshape(C_out, outH, outW)` is valid and out[co, oh, ow] is out_cols[co, oh*outW + ow] |
| Filters.ReshapeValid | code/filters.py:36 | The reshaped output is a valid (C_out, outH, outW) volume |
| Filters.ReshapeFlatten | code/filters.py:36 | Flattening each output channel gives back the rows of out_cols |
| Filters.OutputIsCorrelation | code/filters.py:22-36 | If out_cols[co][k] is the product entry plus channel co's bias, then the reshaped output is the biased cross-correlation everywhere |
| Filters.Correlate | code/filters.py:22-37 | After the checks: fails with NoOutputChannels when C_out = 0. Otherwise it fails with BadBiasShape iff the bias is neither a scalar nor of shape (C_out,), and else returns the biased cross-correlation of the image |
| Filters.Conv2d | code/filters.py:4-37 | C_in != 1 gives UnsupportedChannels before anything else. Next, a failed geometry check gives InvalidGeometry. Next, a weight with C_out = 0 gives NoOutputChannels. Next, a mis-shaped bias gives BadBiasShape. Otherwise the result is the (C_out, outH, outW) biased cross-correlation of the zero-padded image |

## Left out

- `kernels()` (code/filters.py:39-51) only builds constant float32 preset matrices and has no logic. The box-filter lemma covers the all-ones case, and the point-filter lemma covers a 1×1 kernel.
- Elements are exact reals. The model has no float32 storage, no `float(bias)` conversion and no rounding or evaluation order inside `@`.
- Im2col.AsPair: models `_pair` on well-typed integer inputs (the `Param` datatype). It does not model the `int(...)` coercion of non-integers, or the `TypeError` raised for lists whose length is not 2.
- Im2col.Im2col: requires kH, kW >= 1, stride >= 1, dilation >= 1 and padding >= 0, which the source does not check. Outside these bounds the source behaves as follows, and the model does not cover it:
  - A zero stride raises `ZeroDivisionError` at the `//` of code/im2col.py:33-34. A negative stride makes the output size non-positive, so the `ValueError` at code/im2col.py:35-36 is raised, unless the dilated kernel is at least as long as the padded axis. When it is exactly as long there is a single window starting at 0. When it is longer, the first window's slice is short and the column assignment at code/im2col.py:55 raises, except when that patch has a single element, which numpy broadcasts down the column; later windows then start at negative indices, which Python slicing counts from the end.
  - A zero dilation makes the slice step 0, which raises `ValueError`; a negative one walks the slice backwards.
  - A zero kernel size gives a buffer with no rows and a slice stop that can be negative.
  - A negative padding with the other component positive makes `np.pad` raise. When no component is positive, code/im2col.py:38-41 skips `np.pad` entirely (`x_pad = x`), and the call returns the windows of the unpadded input, fewer of them, without an error.
- NdOps.Slice: requires a nonnegative start and stop and a positive step. A negative stop, which Python counts from the end, never occurs within the bounds above.
- Filters.Conv2d: when C_in = 1 it requires the same kernel and geometry bounds as `Im2col.Im2col`, with the same consequences outside them, except that a non-positive output size is already rejected by the repeated check at code/filters.py:17-20. When C_in != 1 it requires nothing beyond well-formed arguments, because the source raises at code/filters.py:7-8 before it reads the geometry.
- Filters.Conv2d: the image is two-dimensional and the weight four-dimensional by construction. A wrongly shaped argument fails tuple unpacking in the source (code/filters.py:5-6).
- `np.pad`, `np.isscalar` and `np.asarray` are modelled by their observable effect only: the zero-extended index function `Padded`, and the `Scalar | Array` bias variant.
- Python slicing's silent truncation beyond the end of a sequence is not modelled. `Im2col.TapInBounds`, `Im2col.SliceWindowLength` and `Im2col.PatchShape` show that it never happens here.
- The text of the error messages is not modelled, including the mis-encoded dash at code/im2col.py:36. Errors are `Result` variants.
- The input volume and the image are immutable values. The model does not cover the aliasing of `x_pad` with the caller's `x` when no padding is needed; the source never writes to either.
