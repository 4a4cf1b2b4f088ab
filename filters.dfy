/** The convolution front end of code/filters.py: `conv2d_im2col` turns a
    grayscale image into its column matrix, multiplies the flattened filters by
    it, adds the bias in place and reshapes the product to (C_out, outH, outW).
    The result is specified against a direct cross-correlation that never
    builds the column matrix. */
module Filters {
  import opened NdOps
  import opened Tensors
  import opened Im2col

  // ---- the reference: direct cross-correlation ----------------------------

  /** The zero-padded image under the window at output (oh, ow): tap (i, j)
      reads the pixel (oh*sH + i*dH, ow*sW + j*dW) of the padded image. */
  function WindowRows(img: Plane, g: Geometry, kH: nat, kW: nat, oh: int, ow: int): seq<seq<real>>
    requires img.Valid()
  {
    seq(kH, i => seq(kW, j =>
      Padded(img.AsVolume(), g.pH, g.pW, 0, oh * g.sH + i * g.dH, ow * g.sW + j * g.dW)))
  }

  /** Cross-correlation (the kernel is not flipped) of the zero-padded image
      with filter co at output (oh, ow): the sum over the kernel rows of the
      inner product of each kernel row with the image row under it. */
  function CrossCorrelation(img: Plane, w: Weight, g: Geometry, co: int, oh: int, ow: int): real
    requires img.Valid() && w.Valid() && w.Cin == 1 && 0 <= co < w.Cout
  {
    Sum(RowProducts(w.filters[co].data[0], WindowRows(img, g, w.kH, w.kW, oh, ow)))
  }

  /** A 1x1 filter under unit stride and no padding scales the pixel under it:
      the correlation at (oh, ow) is the filter's one tap times img[oh, ow]. */
  lemma PointFilter(img: Plane, w: Weight, g: Geometry, co: int, oh: int, ow: int)
    requires img.Valid() && w.Valid() && w.Cin == 1 && w.kH == 1 && w.kW == 1 && 0 <= co < w.Cout
    requires UnitSteps(g) && 0 <= oh < img.H && 0 <= ow < img.W
    ensures CrossCorrelation(img, w, g, co, oh, ow) == w.filters[co].data[0][0][0] * img.data[oh][ow]
  {
    var rows := WindowRows(img, g, w.kH, w.kW, oh, ow);
    var a := w.filters[co].data[0][0];
    assert rows[0] == [img.data[oh][ow]];
    DotSingle(a, rows[0]);
    var sums := RowProducts(w.filters[co].data[0], rows);
    assert sums == [Dot(a, rows[0])];
    assert Sum(sums) == sums[0] + Sum([]);
  }

  /** Over a window of constant value v, filter co gives v times the sum of
      its taps: a kernel whose taps add up to 1, such as a normalised
      Gaussian, leaves a flat region flat, and one whose taps add up to 0,
      such as a Sobel kernel, maps it to 0. */
  lemma ConstantWindow(img: Plane, w: Weight, g: Geometry, co: int, oh: int, ow: int, v: real)
    requires img.Valid() && w.Valid() && w.Cin == 1 && 0 <= co < w.Cout
    requires forall i, j | 0 <= i < w.kH && 0 <= j < w.kW :: WindowRows(img, g, w.kH, w.kW, oh, ow)[i][j] == v
    ensures CrossCorrelation(img, w, g, co, oh, ow) == Sum(Flatten(w.filters[co].data[0])) * v
  {
    RowDotsConstant(w.filters[co].data[0], WindowRows(img, g, w.kH, w.kW, oh, ow), v);
  }

  /** A kernel whose taps add up to 1 reproduces a constant window's value. */
  lemma NormalisedKernelKeepsLevel(img: Plane, w: Weight, g: Geometry, co: int, oh: int, ow: int, v: real)
    requires img.Valid() && w.Valid() && w.Cin == 1 && 0 <= co < w.Cout
    requires Sum(Flatten(w.filters[co].data[0])) == 1.0
    requires forall i, j | 0 <= i < w.kH && 0 <= j < w.kW :: WindowRows(img, g, w.kH, w.kW, oh, ow)[i][j] == v
    ensures CrossCorrelation(img, w, g, co, oh, ow) == v
  {
    ConstantWindow(img, w, g, co, oh, ow, v);
  }

  /** A box filter (every tap 1) over a window that lies on a region of
      constant value v gives kH * kW * v. */
  lemma BoxFilterOnFlatRegion(img: Plane, w: Weight, g: Geometry, co: int, oh: int, ow: int, v: real)
    requires img.Valid() && w.Valid() && w.Cin == 1 && 0 <= co < w.Cout
    requires forall i, j | 0 <= i < w.kH && 0 <= j < w.kW :: w.filters[co].data[0][i][j] == 1.0
    requires forall i, j | 0 <= i < w.kH && 0 <= j < w.kW :: WindowRows(img, g, w.kH, w.kW, oh, ow)[i][j] == v
    ensures CrossCorrelation(img, w, g, co, oh, ow) == (w.kH * w.kW) as real * v
  {
    BoxRows(w.filters[co].data[0], WindowRows(img, g, w.kH, w.kW, oh, ow), v, w.kH, w.kW);
  }

  // ---- bias ---------------------------------------------------------------

  /** A scalar bias always fits; an array bias must have shape (C_out,). */
  predicate BiasFits(b: Bias, Cout: nat)
  {
    b.Scalar? || b.shape == [Cout]
  }

  /** What the bias adds to output channel co. */
  function BiasAt(b: Bias, Cout: nat, co: int): real
    requires b.Valid() && BiasFits(b, Cout) && 0 <= co < Cout
  {
    if b.Scalar? then b.value
    else
      ProductSingle(Cout);
      b.values[co]
  }

  /** The whole result of a successful call: C_out channels of outH x outW
      cells, each the cross-correlation plus the bias of its channel. */
  predicate IsCorrelation(out: Volume, img: Plane, w: Weight, b: Bias, g: Geometry)
    requires img.Valid() && w.Valid() && w.Cin == 1 && g.WellFormed()
    requires b.Valid() && BiasFits(b, w.Cout)
  {
    out.Valid() && out.C == w.Cout &&
    out.H == OutH(img.AsVolume(), w.kH, g) && out.W == OutW(img.AsVolume(), w.kW, g) &&
    forall co, oh, ow | 0 <= co < out.C && 0 <= oh < out.H && 0 <= ow < out.W ::
      out.data[co][oh][ow] == CrossCorrelation(img, w, g, co, oh, ow) + BiasAt(b, w.Cout, co)
  }

  // ---- the weight matrix and the product ----------------------------------

  /** `weight.reshape(C_out, -1)`: row co is filter co flattened row-major. */
  function WeightMatrix(w: Weight): seq<seq<real>>
    requires w.Valid()
  {
    seq(w.Cout, co requires 0 <= co < w.Cout => Flatten3(w.filters[co].data))
  }

  lemma WeightMatrixShape(w: Weight)
    requires w.Valid()
    ensures |WeightMatrix(w)| == w.Cout && Rectangular(WeightMatrix(w), w.Cin * (w.kH * w.kW))
  {
    forall co | 0 <= co < w.Cout ensures |WeightMatrix(w)[co]| == w.Cin * (w.kH * w.kW) {
      Flatten3Length(w.filters[co].data, w.kH, w.kW);
    }
  }

  /** Entry (co, ci*kH*kW + i*kW + j) of the weight matrix is weight[co, ci, i, j];
      with C_in = 1 this is the row order of the column matrix. */
  lemma WeightMatrixEntry(w: Weight, co: int, ci: int, i: int, j: int)
    requires w.Valid() && 0 <= co < w.Cout && 0 <= ci < w.Cin && 0 <= i < w.kH && 0 <= j < w.kW
    ensures |WeightMatrix(w)[co]| == w.Cin * (w.kH * w.kW)
    ensures ci * (w.kH * w.kW) + i * w.kW + j < |WeightMatrix(w)[co]|
    ensures WeightMatrix(w)[co][ci * (w.kH * w.kW) + i * w.kW + j] == w.filters[co].data[ci][i][j]
  {
    Flatten3Index(w.filters[co].data, w.kH, w.kW, ci, i, j);
  }

  /** Entry (co, k) of `W_mat @ cols`: row co of the weight matrix against
      column k of the column matrix. */
  function ProductEntry(w: Weight, x: Volume, g: Geometry, co: int, k: int): real
    requires w.Valid() && x.Valid() && g.WellFormed() && GeometryOk(x, w.kH, w.kW, g)
    requires w.Cin == x.C && 0 <= co < w.Cout && 0 <= k < OutH(x, w.kH, g) * OutW(x, w.kW, g)
  {
    WeightMatrixShape(w);
    ColumnsShape(x, w.kH, w.kW, g);
    Dot(WeightMatrix(w)[co], Column(Columns(x, w.kH, w.kW, g), k))
  }

  /** With one input channel, the filter's row of the weight matrix is its
      single plane flattened. */
  lemma WeightRowIsFilter(w: Weight, co: int)
    requires w.Valid() && w.Cin == 1 && 0 <= co < w.Cout
    ensures WeightMatrix(w)[co] == Flatten(w.filters[co].data[0])
  {
    Flatten3Single(w.filters[co].data);
  }

  /** Column oh*outW + ow of the column matrix of the one-channel image is the
      window at (oh, ow) flattened row-major. */
  lemma ColumnIsWindow(img: Plane, x: Volume, kH: nat, kW: nat, g: Geometry, oh: int, ow: int, k: int)
    requires img.Valid() && x == img.AsVolume() && kH >= 1 && kW >= 1 && g.WellFormed()
    requires GeometryOk(x, kH, kW, g)
    requires 0 <= oh < OutH(x, kH, g) && 0 <= ow < OutW(x, kW, g) && 0 <= k == oh * OutW(x, kW, g) + ow
    ensures forall r | 0 <= r < |Columns(x, kH, kW, g)| :: k < |Columns(x, kH, kW, g)[r]|
    ensures Column(Columns(x, kH, kW, g), k) == Flatten(WindowRows(img, g, kH, kW, oh, ow))
  {
    FlatBound(oh, ow, OutH(x, kH, g), OutW(x, kW, g));
    ColumnsShape(x, kH, kW, g);
    var col, win := Column(Columns(x, kH, kW, g), k), WindowRows(img, g, kH, kW, oh, ow);
    FlattenLength(win, kW);
    forall t | 0 <= t < |col| ensures col[t] == Flatten(win)[t] {
      SplitFlat(t, kH, kW);
      var i, j := t / kW, t % kW;
      ColumnsEntry(x, kH, kW, g, 0, i, j, oh, ow, t, k);
      FlattenIndex(win, kW, i, j);
    }
  }

  /** The heart of `conv2d_im2col`: entry (co, oh*outW + ow) of `W_mat @ cols`
      is the cross-correlation at (co, oh, ow). */
  lemma ProductIsCorrelation(img: Plane, w: Weight, g: Geometry, co: int, oh: int, ow: int, k: int)
    requires img.Valid() && w.Valid() && w.Cin == 1 && w.kH >= 1 && w.kW >= 1 && g.WellFormed()
    requires GeometryOk(img.AsVolume(), w.kH, w.kW, g) && 0 <= co < w.Cout
    requires 0 <= oh < OutH(img.AsVolume(), w.kH, g) && 0 <= ow < OutW(img.AsVolume(), w.kW, g)
    requires 0 <= k == oh * OutW(img.AsVolume(), w.kW, g) + ow
    ensures k < OutH(img.AsVolume(), w.kH, g) * OutW(img.AsVolume(), w.kW, g)
    ensures ProductEntry(w, img.AsVolume(), g, co, k) == CrossCorrelation(img, w, g, co, oh, ow)
  {
    var x := img.AsVolume();
    FlatBound(oh, ow, OutH(x, w.kH, g), OutW(x, w.kW, g));
    var a, b := w.filters[co].data[0], WindowRows(img, g, w.kH, w.kW, oh, ow);
    WeightRowIsFilter(w, co);
    ColumnIsWindow(img, x, w.kH, w.kW, g, oh, ow, k);
    DotFlatten(a, b, w.kW);
  }

  // ---- the final reshape --------------------------------------------------

  /** `out_cols.reshape(C_out, outH, outW)`: each row of outH*outW entries is
      cut into outH rows of outW. */
  function Reshape(m: seq<seq<real>>, outH: nat, outW: nat): Volume
    requires outW >= 1
  {
    Volume(|m|, outH, outW, seq(|m|, co requires 0 <= co < |m| => Chunk(m[co], outW)))
  }

  /** The reshape is row-major: cell (co, oh, ow) is entry oh*outW + ow of row co. */
  lemma ReshapeEntry(m: seq<seq<real>>, outH: nat, outW: nat, co: int, oh: int, ow: int, k: int)
    requires outW >= 1 && Rectangular(m, outH * outW)
    requires 0 <= co < |m| && 0 <= oh < outH && 0 <= ow < outW && 0 <= k == oh * outW + ow
    ensures Reshape(m, outH, outW).Valid()
    ensures k < |m[co]| && Reshape(m, outH, outW).data[co][oh][ow] == m[co][k]
  {
    ReshapeValid(m, outH, outW);
    ChunkIndex(m[co], outW, outH, oh, ow);
  }

  lemma ReshapeValid(m: seq<seq<real>>, outH: nat, outW: nat)
    requires outW >= 1 && Rectangular(m, outH * outW)
    ensures Reshape(m, outH, outW).Valid()
  {
    forall co | 0 <= co < |m| ensures |Chunk(m[co], outW)| == outH && Rectangular(Chunk(m[co], outW), outW) {
      ChunkShape(m[co], outW, outH);
    }
  }

  /** Flattening each channel of the reshaped volume gives the rows back: the
      reshape loses and reorders nothing. */
  lemma ReshapeFlatten(m: seq<seq<real>>, outH: nat, outW: nat)
    requires outW >= 1 && Rectangular(m, outH * outW)
    ensures var v := Reshape(m, outH, outW);
      seq(|m|, co requires 0 <= co < |m| => Flatten(v.data[co])) == m
  {
    var v := Reshape(m, outH, outW);
    forall co | 0 <= co < |m| ensures Flatten(v.data[co]) == m[co] {
      MulLeft(0, outH, outW);
      ChunkShape(m[co], outW, outH);
      FlattenChunk(m[co], outW);
    }
  }

  // ---- the operation ------------------------------------------------------

  /** `W_mat @ cols` in `conv2d_im2col`: a fresh (C_out, outH*outW) array
      whose entry (co, k) is row co of the weight matrix against column k of
      the column matrix. */
  method MatMul(w: Weight, x: Volume, g: Geometry, cols: array2<real>) returns (p: array2<real>)
    requires w.Valid() && x.Valid() && g.WellFormed() && GeometryOk(x, w.kH, w.kW, g) && w.Cin == x.C
    requires cols.Length1 == OutH(x, w.kH, g) * OutW(x, w.kW, g)
    requires Matrix(cols) == Columns(x, w.kH, w.kW, g)
    ensures fresh(p) && p.Length0 == w.Cout && p.Length1 == cols.Length1
    ensures forall co, k | 0 <= co < w.Cout && 0 <= k < cols.Length1 :: p[co, k] == ProductEntry(w, x, g, co, k)
  {
    WeightMatrixShape(w);
    ColumnsShape(x, w.kH, w.kW, g);
    var wMat, m := WeightMatrix(w), Matrix(cols);
    p := new real[w.Cout, cols.Length1];
    forall co, k | 0 <= co < w.Cout && 0 <= k < cols.Length1 {
      p[co, k] := Dot(wMat[co], Column(m, k));
    }
  }

  /** The bias step of `conv2d_im2col`, in place on `out_cols`: a scalar is
      added to every entry; an array must have shape (C_out,), and then
      `bias[co]` is added to every entry of row co. A mis-shaped bias is
      reported before anything is changed. */
  method AddBias(a: array2<real>, bias: Bias) returns (fits: bool)
    requires bias.Valid()
    modifies a
    ensures fits == BiasFits(bias, a.Length0)
    ensures !fits ==> unchanged(a)
    ensures fits ==> forall r, k | 0 <= r < a.Length0 && 0 <= k < a.Length1 ::
      a[r, k] == old(a[r, k]) + BiasAt(bias, a.Length0, r)
  {
    if bias.Scalar? {
      forall r, k | 0 <= r < a.Length0 && 0 <= k < a.Length1 {
        a[r, k] := a[r, k] + bias.value;
      }
    } else {
      if bias.shape != [a.Length0] {
        return false;
      }
      ProductSingle(a.Length0);
      forall r, k | 0 <= r < a.Length0 && 0 <= k < a.Length1 {
        a[r, k] := a[r, k] + bias.values[r];
      }
    }
    return true;
  }

  /** `conv2d_im2col(img, weight, bias, stride, padding, dilation)`. The checks
      come in the source's order: input channels, then geometry, then the
      weight's flattening (which fails for C_out = 0), then the bias shape
      (after the product is formed). On success every output cell is the
      cross-correlation of the zero-padded image plus its channel's bias. */
  method Conv2d(img: Plane, weight: Weight, bias: Bias, stride: Param, padding: Param, dilation: Param)
    returns (r: Result<Volume>)
    requires img.Valid() && weight.Valid() && bias.Valid()
    requires weight.Cin == 1 ==>
      weight.kH >= 1 && weight.kW >= 1 && Normalize(stride, padding, dilation).WellFormed()
    ensures weight.Cin != 1 ==> r == Err(UnsupportedChannels)
    ensures var g := Normalize(stride, padding, dilation);
      (weight.Cin == 1 && !GeometryOk(img.AsVolume(), weight.kH, weight.kW, g)) ==> r == Err(InvalidGeometry)
    ensures var g := Normalize(stride, padding, dilation);
      (weight.Cin == 1 && GeometryOk(img.AsVolume(), weight.kH, weight.kW, g) && weight.Cout == 0)
        ==> r == Err(NoOutputChannels)
    ensures var g := Normalize(stride, padding, dilation);
      (weight.Cin == 1 && GeometryOk(img.AsVolume(), weight.kH, weight.kW, g) && weight.Cout >= 1 &&
       !BiasFits(bias, weight.Cout))
        ==> r == Err(BadBiasShape)
    ensures var g := Normalize(stride, padding, dilation);
      (weight.Cin == 1 && GeometryOk(img.AsVolume(), weight.kH, weight.kW, g) && weight.Cout >= 1 &&
       BiasFits(bias, weight.Cout))
        ==> r.Ok? && IsCorrelation(r.value, img, weight, bias, g)
  {
    var Cout, Cin, kH, kW := weight.Cout, weight.Cin, weight.kH, weight.kW;
    if Cin != 1 {
      return Err(UnsupportedChannels);
    }
    var g := Normalize(stride, padding, dilation);
    var outH := FloorDiv(img.H + 2 * g.pH - Extent(kH, g.dH), g.sH) + 1;
    var outW := FloorDiv(img.W + 2 * g.pW - Extent(kW, g.dW), g.sW) + 1;
    if outH <= 0 || outW <= 0 {
      return Err(InvalidGeometry);
    }
    r := Correlate(img, weight, bias, stride, padding, dilation, outH, outW);
  }

  /** Lines 22-37 of `conv2d_im2col`, once the checks on the channels and the
      geometry have passed: im2col of the image with a channel axis added,
      the flattening of the filters (impossible without output channels),
      the product, the bias, the reshape. */
  method Correlate(img: Plane, weight: Weight, bias: Bias, stride: Param, padding: Param, dilation: Param,
                   outH: int, outW: int)
    returns (r: Result<Volume>)
    requires img.Valid() && weight.Valid() && bias.Valid()
    requires weight.Cin == 1 && weight.kH >= 1 && weight.kW >= 1
    requires Normalize(stride, padding, dilation).WellFormed()
    requires GeometryOk(img.AsVolume(), weight.kH, weight.kW, Normalize(stride, padding, dilation))
    requires outH == OutH(img.AsVolume(), weight.kH, Normalize(stride, padding, dilation))
    requires outW == OutW(img.AsVolume(), weight.kW, Normalize(stride, padding, dilation))
    ensures weight.Cout == 0 ==> r == Err(NoOutputChannels)
    ensures weight.Cout >= 1 && !BiasFits(bias, weight.Cout) ==> r == Err(BadBiasShape)
    ensures weight.Cout >= 1 && BiasFits(bias, weight.Cout) ==>
      r.Ok? && IsCorrelation(r.value, img, weight, bias, Normalize(stride, padding, dilation))
  {
    var g := Normalize(stride, padding, dilation);
    var x := img.AsVolume();
    var res := Im2col.Im2col(x, weight.kH, weight.kW, stride, padding, dilation);
    if weight.Cout == 0 {
      return Err(NoOutputChannels);
    }
    var outCols := MatMul(weight, x, g, res.value);
    ghost var n := outCols.Length1;
    var fits := AddBias(outCols, bias);
    if !fits {
      return Err(BadBiasShape);
    }
    assert forall co, k | 0 <= co < weight.Cout && 0 <= k < n ::
      outCols[co, k] == ProductEntry(weight, x, g, co, k) + BiasAt(bias, weight.Cout, co);
    var out := Reshape(Matrix(outCols), outH, outW);
    OutputIsCorrelation(img, weight, bias, g, Matrix(outCols));
    return Ok(out);
  }

  /** Assembling the cells: once every entry of the product matrix is its
      correlation plus bias, the reshaped volume is the full result. */
  lemma OutputIsCorrelation(img: Plane, w: Weight, b: Bias, g: Geometry, m: seq<seq<real>>)
    requires img.Valid() && w.Valid() && w.Cin == 1 && w.kH >= 1 && w.kW >= 1 && g.WellFormed()
    requires GeometryOk(img.AsVolume(), w.kH, w.kW, g) && b.Valid() && BiasFits(b, w.Cout)
    requires |m| == w.Cout
    requires Rectangular(m, OutH(img.AsVolume(), w.kH, g) * OutW(img.AsVolume(), w.kW, g))
    requires forall co, k | 0 <= co < w.Cout && 0 <= k < OutH(img.AsVolume(), w.kH, g) * OutW(img.AsVolume(), w.kW, g) ::
      m[co][k] == ProductEntry(w, img.AsVolume(), g, co, k) + BiasAt(b, w.Cout, co)
    ensures IsCorrelation(Reshape(m, OutH(img.AsVolume(), w.kH, g), OutW(img.AsVolume(), w.kW, g)), img, w, b, g)
  {
    var x := img.AsVolume();
    var outH, outW := OutH(x, w.kH, g), OutW(x, w.kW, g);
    var out := Reshape(m, outH, outW);
    ReshapeValid(m, outH, outW);
    forall co, oh, ow | 0 <= co < w.Cout && 0 <= oh < outH && 0 <= ow < outW
      ensures out.data[co][oh][ow] == CrossCorrelation(img, w, g, co, oh, ow) + BiasAt(b, w.Cout, co)
    {
      var k := oh * outW + ow;
      FlatBound(oh, ow, outH, outW);
      ReshapeEntry(m, outH, outW, co, oh, ow, k);
      ProductIsCorrelation(img, w, g, co, oh, ow, k);
    }
  }
}
