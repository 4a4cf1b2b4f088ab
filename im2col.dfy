/** The windowing transform of code/im2col.py: every (C, kH, kW) window of the
    zero-padded input, sampled with a stride and a dilation, becomes one column
    of a (C*kH*kW, outH*outW) matrix. */
module Im2col {
  import opened NdOps
  import opened Tensors

  // ---- `_pair` and the output geometry -----------------------------------

  /** A stride, padding or dilation argument: one integer for both axes, or a
      (vertical, horizontal) pair. */
  datatype Param = Uniform(n: int) | PerAxis(vertical: int, horizontal: int)

  /** `_pair`: the (vertical, horizontal) reading of an argument. */
  function AsPair(p: Param): (r: (int, int))
    ensures p.Uniform? ==> r.0 == r.1 == p.n
    ensures p.PerAxis? ==> r.0 == p.vertical && r.1 == p.horizontal
  {
    match p
    case Uniform(n) => (n, n)
    case PerAxis(v, h) => (v, h)
  }

  /** Stride, padding and dilation, each normalised to its two axes. */
  datatype Geometry = Geometry(sH: int, sW: int, pH: int, pW: int, dH: int, dW: int)
  {
    /** What the arithmetic assumes: strides and dilations at least 1, paddings at least 0. */
    predicate WellFormed()
    {
      sH >= 1 && sW >= 1 && pH >= 0 && pW >= 0 && dH >= 1 && dW >= 1
    }
  }

  function Normalize(stride: Param, padding: Param, dilation: Param): (g: Geometry)
    ensures (g.sH, g.sW) == AsPair(stride)
    ensures (g.pH, g.pW) == AsPair(padding)
    ensures (g.dH, g.dW) == AsPair(dilation)
  {
    var (sH, sW) := AsPair(stride);
    var (pH, pW) := AsPair(padding);
    var (dH, dW) := AsPair(dilation);
    Geometry(sH, sW, pH, pW, dH, dW)
  }

  /** Extent of a kernel of k taps spaced d apart (`kH_eff`, `kW_eff`). */
  function Extent(k: int, d: int): int
  {
    (k - 1) * d + 1
  }

  /** Number of window positions along one axis (`outH`, `outW`), with
      Python's floor division `//`. */
  function OutSize(dim: int, k: int, s: int, p: int, d: int): int
    requires s >= 1
  {
    FloorDiv(dim + 2 * p - Extent(k, d), s) + 1
  }

  function OutH(x: Volume, kH: int, g: Geometry): int
    requires g.WellFormed()
  {
    OutSize(x.H, kH, g.sH, g.pH, g.dH)
  }

  function OutW(x: Volume, kW: int, g: Geometry): int
    requires g.WellFormed()
  {
    OutSize(x.W, kW, g.sW, g.pW, g.dW)
  }

  /** The geometry check of `im2col`: both output sizes positive. */
  predicate GeometryOk(x: Volume, kH: int, kW: int, g: Geometry)
    requires g.WellFormed()
  {
    OutH(x, kH, g) > 0 && OutW(x, kW, g) > 0
  }

  /** The output size counts exactly the window starts o * s (o >= 0) whose
      whole dilated window fits in the padded axis. */
  lemma OutSizeCountsWindows(dim: int, k: int, s: int, p: int, d: int, o: int)
    requires s >= 1 && o >= 0
    ensures o < OutSize(dim, k, s, p, d) <==> o * s + Extent(k, d) <= dim + 2 * p
  {
    var room := dim + 2 * p - Extent(k, d);
    FloorDivIsDiv(room, s);
    var q := room / s;
    assert q * s + room % s == room && 0 <= room % s < s;
    if o <= q {
      MulMono(o, q, s);
    } else {
      assert (q + 1) * s == q * s + s;
      MulMono(q + 1, o, s);
    }
  }

  /** The call fails exactly when the dilated kernel is longer than the padded axis. */
  lemma OutSizePositive(dim: int, k: int, s: int, p: int, d: int)
    requires s >= 1
    ensures OutSize(dim, k, s, p, d) > 0 <==> Extent(k, d) <= dim + 2 * p
  {
    OutSizeCountsWindows(dim, k, s, p, d, 0);
  }

  /** The geometry check passes exactly when the dilated kernel fits inside the
      padded input along both axes. */
  lemma GeometryOkIffFits(x: Volume, kH: int, kW: int, g: Geometry)
    requires g.WellFormed()
    ensures GeometryOk(x, kH, kW, g) <==>
      Extent(kH, g.dH) <= x.H + 2 * g.pH && Extent(kW, g.dW) <= x.W + 2 * g.pW
  {
    OutSizePositive(x.H, kH, g.sH, g.pH, g.dH);
    OutSizePositive(x.W, kW, g.sW, g.pW, g.dW);
  }

  /** Every tap of every window lies inside the padded axis [0, dim + 2p). */
  lemma TapInBounds(dim: int, k: int, s: int, p: int, d: int, o: int, i: int)
    requires s >= 1 && d >= 1 && k >= 1
    requires 0 <= o < OutSize(dim, k, s, p, d) && 0 <= i < k
    ensures 0 <= o * s + i * d < dim + 2 * p
  {
    OutSizeCountsWindows(dim, k, s, p, d, o);
    MulMono(i, k - 1, d);
  }

  // ---- zero padding -------------------------------------------------------

  /** Entry (c, h, w) of the input zero-padded by pH rows and pW columns on each
      side: the input shifted by (pH, pW) inside, zero outside. */
  function Padded(x: Volume, pH: int, pW: int, c: int, h: int, w: int): real
    requires x.Valid() && 0 <= c < x.C
  {
    if pH <= h < x.H + pH && pW <= w < x.W + pW then x.data[c][h - pH][w - pW] else 0.0
  }

  /** `np.pad(x, ((0,0), (pH,pH), (pW,pW)), mode="constant")`. */
  function Pad(x: Volume, pH: nat, pW: nat): (v: Volume)
    requires x.Valid()
    ensures v.Valid() && v.C == x.C && v.H == x.H + 2 * pH && v.W == x.W + 2 * pW
    ensures forall c, h, w | 0 <= c < v.C && 0 <= h < v.H && 0 <= w < v.W ::
      (h < pH || h >= x.H + pH || w < pW || w >= x.W + pW ==> v.data[c][h][w] == 0.0)
    ensures forall c, h, w | 0 <= c < x.C && 0 <= h < x.H && 0 <= w < x.W ::
      v.data[c][h + pH][w + pW] == x.data[c][h][w]
  {
    Volume(x.C, x.H + 2 * pH, x.W + 2 * pW,
      seq(x.C, c requires 0 <= c < x.C =>
        seq(x.H + 2 * pH, h =>
          seq(x.W + 2 * pW, w => Padded(x, pH, pW, c, h, w)))))
  }

  /** `v[:, top:top+H, left:left+W]`: the inverse of padding. */
  function Crop(v: Volume, top: nat, left: nat, H: nat, W: nat): (r: Volume)
    requires v.Valid() && top + H <= v.H && left + W <= v.W
    ensures r.Valid() && r.C == v.C && r.H == H && r.W == W
  {
    Volume(v.C, H, W,
      seq(v.C, c requires 0 <= c < v.C =>
        seq(H, h requires 0 <= h < H => v.data[c][top + h][left..left + W])))
  }

  /** Cropping the padding away gives back the input: padding loses nothing and
      leaves the channel axis alone. */
  lemma CropPad(x: Volume, pH: nat, pW: nat)
    requires x.Valid()
    ensures Crop(Pad(x, pH, pW), pH, pW, x.H, x.W) == x
  {
    var v := Pad(x, pH, pW);
    var r := Crop(v, pH, pW, x.H, x.W);
    forall c, h | 0 <= c < x.C && 0 <= h < x.H ensures r.data[c][h] == x.data[c][h] {
      forall w | 0 <= w < x.W ensures r.data[c][h][w] == x.data[c][h][w] {
        assert r.data[c][h][w] == v.data[c][h + pH][w + pW];
      }
    }
    forall c | 0 <= c < x.C ensures r.data[c] == x.data[c] {
    }
  }

  /** With no padding the padded volume is the input itself, so the source's
      `x_pad = x` shortcut changes nothing. */
  lemma PadNothing(x: Volume)
    requires x.Valid()
    ensures Pad(x, 0, 0) == x
  {
    var v := Pad(x, 0, 0);
    forall c, h | 0 <= c < x.C && 0 <= h < x.H ensures v.data[c][h] == x.data[c][h] {
    }
    forall c | 0 <= c < x.C ensures v.data[c] == x.data[c] {
    }
  }

  /** `xPad` is the input padded by (pH, pW): the shape grew by the padding and
      every entry is the zero-extended input. Both `Pad(x, pH, pW)` and, when
      there is no padding, `x` itself qualify. */
  predicate IsPaddingOf(xPad: Volume, x: Volume, pH: int, pW: int)
    requires x.Valid()
  {
    xPad.Valid() && xPad.C == x.C && xPad.H == x.H + 2 * pH && xPad.W == x.W + 2 * pW &&
    forall c, h, w | 0 <= c < x.C && 0 <= h < xPad.H && 0 <= w < xPad.W ::
      xPad.data[c][h][w] == Padded(x, pH, pW, c, h, w)
  }

  lemma PadIsPadding(x: Volume, pH: nat, pW: nat)
    requires x.Valid()
    ensures IsPaddingOf(Pad(x, pH, pW), x, pH, pW)
  {
  }

  // ---- windows and columns ------------------------------------------------

  /** `x_pad[:, hStart:hStop:dH, wStart:wStop:dW]`: one strided, dilated window. */
  function Patch(xPad: Volume, hStart: int, hStop: int, dH: int, wStart: int, wStop: int, dW: int)
    : seq<seq<seq<real>>>
    requires xPad.Valid() && dH >= 1 && dW >= 1
    requires 0 <= hStart && 0 <= hStop <= xPad.H && 0 <= wStart && 0 <= wStop <= xPad.W
  {
    seq(xPad.C, c requires 0 <= c < xPad.C =>
      var rows := Slice(xPad.data[c], hStart, hStop, dH);
      seq(|rows|, i requires 0 <= i < |rows| =>
        SliceIndex(xPad.data[c], hStart, hStop, dH, i);
        Slice(rows[i], wStart, wStop, dW)))
  }

  /** The padded input of channel c sampled on a rows-by-cols grid: entry
      (oh, ow) is read at (oh*sH + offH, ow*sW + offW). */
  function Grid(x: Volume, c: int, pH: int, pW: int, rows: nat, cols: nat, sH: int, sW: int, offH: int, offW: int)
    : seq<seq<real>>
    requires x.Valid() && 0 <= c < x.C
  {
    seq(rows, oh requires 0 <= oh < rows =>
      seq(cols, ow => Padded(x, pH, pW, c, oh * sH + offH, ow * sW + offW)))
  }

  /** Row (c, i, j) of the column matrix: tap (i, j) of channel c read at every
      window (oh, ow), laid out row-major over (outH, outW). The entries come
      straight from the unpadded input, taps in the padding reading zero. */
  function TapRow(x: Volume, kH: nat, kW: nat, g: Geometry, c: int, i: int, j: int): seq<real>
    requires x.Valid() && g.WellFormed() && GeometryOk(x, kH, kW, g) && 0 <= c < x.C
  {
    Flatten(Grid(x, c, g.pH, g.pW, OutH(x, kH, g), OutW(x, kW, g), g.sH, g.sW, i * g.dH, j * g.dW))
  }

  /** The tap rows indexed by (channel, kernel row, kernel column). */
  function Taps(x: Volume, kH: nat, kW: nat, g: Geometry): seq<seq<seq<seq<real>>>>
    requires x.Valid() && g.WellFormed() && GeometryOk(x, kH, kW, g)
  {
    seq(x.C, c requires 0 <= c < x.C =>
      seq(kH, i => seq(kW, j => TapRow(x, kH, kW, g, c, i, j))))
  }

  /** The column matrix `im2col` must produce, as a sequence of rows: the rows
      TapRow(c, i, j) stacked in row-major (C, kH, kW) order. */
  function Columns(x: Volume, kH: nat, kW: nat, g: Geometry): seq<seq<real>>
    requires x.Valid() && g.WellFormed() && GeometryOk(x, kH, kW, g)
  {
    Flatten3(Taps(x, kH, kW, g))
  }

  /** The column matrix has shape (C*kH*kW, outH*outW). */
  lemma ColumnsShape(x: Volume, kH: nat, kW: nat, g: Geometry)
    requires x.Valid() && g.WellFormed() && GeometryOk(x, kH, kW, g)
    ensures |Columns(x, kH, kW, g)| == x.C * kH * kW
    ensures Rectangular(Columns(x, kH, kW, g), OutH(x, kH, g) * OutW(x, kW, g))
  {
    var taps := Taps(x, kH, kW, g);
    Flatten3Length(taps, kH, kW);
    RowIndex(x.C, 0, 0, kH, kW);
    var m := Columns(x, kH, kW, g);
    forall row | 0 <= row < |m| ensures |m[row]| == OutH(x, kH, g) * OutW(x, kW, g) {
      SplitFlat(row, x.C, kH * kW);
      var c, ij := row / (kH * kW), row % (kH * kW);
      SplitFlat(ij, kH, kW);
      var i, j := ij / kW, ij % kW;
      RowIndex(c, i, j, kH, kW);
      Flatten3Index(taps, kH, kW, c, i, j);
      TapRowLength(x, kH, kW, g, c, i, j);
    }
  }

  lemma TapRowLength(x: Volume, kH: nat, kW: nat, g: Geometry, c: int, i: int, j: int)
    requires x.Valid() && g.WellFormed() && GeometryOk(x, kH, kW, g) && 0 <= c < x.C
    ensures |TapRow(x, kH, kW, g, c, i, j)| == OutH(x, kH, g) * OutW(x, kW, g)
  {
    var outW := OutW(x, kW, g);
    FlattenLength(Grid(x, c, g.pH, g.pW, OutH(x, kH, g), outW, g.sH, g.sW, i * g.dH, j * g.dW), outW);
  }

  /** The entry for channel c, kernel tap (i, j) and window (oh, ow) sits at row
      c*kH*kW + i*kW + j, column oh*outW + ow, and is the padded input at
      (c, oh*sH + i*dH, ow*sW + j*dW). */
  lemma ColumnsEntry(x: Volume, kH: nat, kW: nat, g: Geometry, c: int, i: int, j: int, oh: int, ow: int,
                     row: int, col: int)
    requires x.Valid() && g.WellFormed() && GeometryOk(x, kH, kW, g)
    requires 0 <= c < x.C && 0 <= i < kH && 0 <= j < kW
    requires 0 <= oh < OutH(x, kH, g) && 0 <= ow < OutW(x, kW, g)
    requires 0 <= row == c * kH * kW + i * kW + j && 0 <= col == oh * OutW(x, kW, g) + ow
    ensures row < |Columns(x, kH, kW, g)| && col < |Columns(x, kH, kW, g)[row]|
    ensures Columns(x, kH, kW, g)[row][col] == Padded(x, g.pH, g.pW, c, oh * g.sH + i * g.dH, ow * g.sW + j * g.dW)
  {
    ColumnsRow(x, kH, kW, g, c, i, j, row);
    TapRowEntry(x, kH, kW, g, c, i, j, oh, ow, col);
  }

  /** Row c*kH*kW + i*kW + j of the column matrix is the tap row (c, i, j). */
  lemma ColumnsRow(x: Volume, kH: nat, kW: nat, g: Geometry, c: int, i: int, j: int, row: int)
    requires x.Valid() && g.WellFormed() && GeometryOk(x, kH, kW, g)
    requires 0 <= c < x.C && 0 <= i < kH && 0 <= j < kW
    requires 0 <= row == c * kH * kW + i * kW + j
    ensures row < |Columns(x, kH, kW, g)| && Columns(x, kH, kW, g)[row] == TapRow(x, kH, kW, g, c, i, j)
  {
    var taps := Taps(x, kH, kW, g);
    RowIndex(c, i, j, kH, kW);
    Flatten3Index(taps, kH, kW, c, i, j);
  }

  /** Entry oh*outW + ow of the tap row (c, i, j) is the padded input at
      (c, oh*sH + i*dH, ow*sW + j*dW). */
  lemma TapRowEntry(x: Volume, kH: nat, kW: nat, g: Geometry, c: int, i: int, j: int, oh: int, ow: int, col: int)
    requires x.Valid() && g.WellFormed() && GeometryOk(x, kH, kW, g) && 0 <= c < x.C
    requires 0 <= oh < OutH(x, kH, g) && 0 <= ow < OutW(x, kW, g)
    requires 0 <= col == oh * OutW(x, kW, g) + ow
    ensures col < |TapRow(x, kH, kW, g, c, i, j)|
    ensures TapRow(x, kH, kW, g, c, i, j)[col] == Padded(x, g.pH, g.pW, c, oh * g.sH + i * g.dH, ow * g.sW + j * g.dW)
  {
    var outW := OutW(x, kW, g);
    var grid := Grid(x, c, g.pH, g.pW, OutH(x, kH, g), outW, g.sH, g.sW, i * g.dH, j * g.dW);
    FlattenIndex(grid, outW, oh, ow);
  }

  /** A window of k taps spaced d apart, sliced from start to start + Extent(k, d)
      with step d, holds exactly k elements. */
  lemma SliceWindowLength<T>(s: seq<T>, start: int, k: int, d: int)
    requires 0 <= start && start + Extent(k, d) <= |s| && k >= 1 && d >= 1
    ensures |Slice(s, start, start + Extent(k, d), d)| == k
  {
    assert Extent(k, d) + d - 1 == k * d + 0;
    DivModOfFlat(k, 0, d);
  }

  /** The window at (oh, ow) starts inside the padded input and ends within it. */
  lemma WindowFits(x: Volume, kH: nat, kW: nat, g: Geometry, oh: int, ow: int)
    requires x.Valid() && g.WellFormed()
    requires 0 <= oh < OutH(x, kH, g) && 0 <= ow < OutW(x, kW, g)
    ensures 0 <= oh * g.sH && oh * g.sH + Extent(kH, g.dH) <= x.H + 2 * g.pH
    ensures 0 <= ow * g.sW && ow * g.sW + Extent(kW, g.dW) <= x.W + 2 * g.pW
  {
    OutSizeCountsWindows(x.H, kH, g.sH, g.pH, g.dH, oh);
    OutSizeCountsWindows(x.W, kW, g.sW, g.pW, g.dW, ow);
    MulMono(0, oh, g.sH);
    MulMono(0, ow, g.sW);
  }

  /** The (C, kH, kW) window of the padded input whose first tap is (oh*sH, ow*sW). */
  function Window(x: Volume, kH: nat, kW: nat, g: Geometry, xPad: Volume, oh: int, ow: int)
    : seq<seq<seq<real>>>
    requires x.Valid() && g.WellFormed() && IsPaddingOf(xPad, x, g.pH, g.pW) && kH >= 1 && kW >= 1
    requires 0 <= oh < OutH(x, kH, g) && 0 <= ow < OutW(x, kW, g)
  {
    WindowFits(x, kH, kW, g, oh, ow);
    Patch(xPad, oh * g.sH, oh * g.sH + Extent(kH, g.dH), g.dH,
                ow * g.sW, ow * g.sW + Extent(kW, g.dW), g.dW)
  }

  /** A patch of k taps spaced d apart that fits in the padded input has shape
      (C, kH, kW): the strided slices never run short. */
  lemma PatchShape(xPad: Volume, hs: int, kH: nat, dH: int, ws: int, kW: nat, dW: int)
    requires xPad.Valid() && kH >= 1 && kW >= 1 && dH >= 1 && dW >= 1
    requires 0 <= hs && hs + Extent(kH, dH) <= xPad.H && 0 <= ws && ws + Extent(kW, dW) <= xPad.W
    ensures var p := Patch(xPad, hs, hs + Extent(kH, dH), dH, ws, ws + Extent(kW, dW), dW);
      |p| == xPad.C && forall c | 0 <= c < xPad.C :: |p[c]| == kH && Rectangular(p[c], kW)
  {
    var he, we := hs + Extent(kH, dH), ws + Extent(kW, dW);
    var p := Patch(xPad, hs, he, dH, ws, we, dW);
    forall c | 0 <= c < xPad.C ensures |p[c]| == kH && Rectangular(p[c], kW) {
      SliceWindowLength(xPad.data[c], hs, kH, dH);
      forall i | 0 <= i < kH ensures |p[c][i]| == kW {
        SliceIndex(xPad.data[c], hs, he, dH, i);
        SliceWindowLength(xPad.data[c][hs + i * dH], ws, kW, dW);
      }
    }
  }

  /** Tap (i, j) of channel c of such a patch is the padded input at
      (c, hs + i*dH, ws + j*dW). */
  lemma PatchEntry(xPad: Volume, hs: int, kH: nat, dH: int, ws: int, kW: nat, dW: int, c: int, i: int, j: int)
    requires xPad.Valid() && kH >= 1 && kW >= 1 && dH >= 1 && dW >= 1
    requires 0 <= hs && hs + Extent(kH, dH) <= xPad.H && 0 <= ws && ws + Extent(kW, dW) <= xPad.W
    requires 0 <= c < xPad.C && 0 <= i < kH && 0 <= j < kW
    ensures var p := Patch(xPad, hs, hs + Extent(kH, dH), dH, ws, ws + Extent(kW, dW), dW);
      c < |p| && i < |p[c]| && j < |p[c][i]| &&
      0 <= hs + i * dH < xPad.H && 0 <= ws + j * dW < xPad.W &&
      p[c][i][j] == xPad.data[c][hs + i * dH][ws + j * dW]
  {
    var he, we := hs + Extent(kH, dH), ws + Extent(kW, dW);
    PatchShape(xPad, hs, kH, dH, ws, kW, dW);
    var h := hs + i * dH;
    SliceWindowLength(xPad.data[c], hs, kH, dH);
    SliceIndex(xPad.data[c], hs, he, dH, i);
    SliceWindowLength(xPad.data[c][h], ws, kW, dW);
    SliceIndex(xPad.data[c][h], ws, we, dW, j);
  }

  /** The window has shape (C, kH, kW). */
  lemma WindowShape(x: Volume, kH: nat, kW: nat, g: Geometry, xPad: Volume, oh: int, ow: int)
    requires x.Valid() && g.WellFormed() && IsPaddingOf(xPad, x, g.pH, g.pW) && kH >= 1 && kW >= 1
    requires 0 <= oh < OutH(x, kH, g) && 0 <= ow < OutW(x, kW, g)
    ensures var win := Window(x, kH, kW, g, xPad, oh, ow);
      |win| == x.C && forall c | 0 <= c < x.C :: |win[c]| == kH && Rectangular(win[c], kW)
  {
    WindowFits(x, kH, kW, g, oh, ow);
    PatchShape(xPad, oh * g.sH, kH, g.dH, ow * g.sW, kW, g.dW);
  }

  /** Tap (i, j) of channel c of the window at (oh, ow) is the padded input at
      (c, oh*sH + i*dH, ow*sW + j*dW). */
  lemma WindowEntry(x: Volume, kH: nat, kW: nat, g: Geometry, xPad: Volume, oh: int, ow: int,
                    c: int, i: int, j: int)
    requires x.Valid() && g.WellFormed() && IsPaddingOf(xPad, x, g.pH, g.pW) && kH >= 1 && kW >= 1
    requires 0 <= oh < OutH(x, kH, g) && 0 <= ow < OutW(x, kW, g)
    requires 0 <= c < x.C && 0 <= i < kH && 0 <= j < kW
    ensures var win := Window(x, kH, kW, g, xPad, oh, ow);
      c < |win| && i < |win[c]| && j < |win[c][i]| &&
      win[c][i][j] == Padded(x, g.pH, g.pW, c, oh * g.sH + i * g.dH, ow * g.sW + j * g.dW)
  {
    WindowFits(x, kH, kW, g, oh, ow);
    PatchEntry(xPad, oh * g.sH, kH, g.dH, ow * g.sW, kW, g.dW, c, i, j);
  }

  /** Flattening the window at (oh, ow) gives column oh*outW + ow of the column matrix. */
  lemma WindowColumn(x: Volume, kH: nat, kW: nat, g: Geometry, xPad: Volume, oh: int, ow: int, col: int)
    requires x.Valid() && g.WellFormed() && GeometryOk(x, kH, kW, g) && kH >= 1 && kW >= 1
    requires IsPaddingOf(xPad, x, g.pH, g.pW)
    requires 0 <= oh < OutH(x, kH, g) && 0 <= ow < OutW(x, kW, g)
    requires 0 <= col == oh * OutW(x, kW, g) + ow
    ensures var flat, m := Flatten3(Window(x, kH, kW, g, xPad, oh, ow)), Columns(x, kH, kW, g);
      |flat| == |m| == x.C * kH * kW &&
      forall row | 0 <= row < |m| :: col < |m[row]| && flat[row] == m[row][col]
  {
    var win := Window(x, kH, kW, g, xPad, oh, ow);
    WindowShape(x, kH, kW, g, xPad, oh, ow);
    Flatten3Length(win, kH, kW);
    ColumnsShape(x, kH, kW, g);
    RowIndex(x.C, 0, 0, kH, kW);
    var m := Columns(x, kH, kW, g);
    forall row | 0 <= row < |m| ensures col < |m[row]| && Flatten3(win)[row] == m[row][col] {
      WindowColumnAt(x, kH, kW, g, xPad, oh, ow, row, col);
    }
  }

  lemma WindowColumnAt(x: Volume, kH: nat, kW: nat, g: Geometry, xPad: Volume, oh: int, ow: int,
                       row: int, col: int)
    requires x.Valid() && g.WellFormed() && GeometryOk(x, kH, kW, g) && kH >= 1 && kW >= 1
    requires IsPaddingOf(xPad, x, g.pH, g.pW)
    requires 0 <= oh < OutH(x, kH, g) && 0 <= ow < OutW(x, kW, g)
    requires 0 <= row < x.C * kH * kW && 0 <= col == oh * OutW(x, kW, g) + ow
    ensures row < |Columns(x, kH, kW, g)| && col < |Columns(x, kH, kW, g)[row]|
    ensures row < |Flatten3(Window(x, kH, kW, g, xPad, oh, ow))|
    ensures Flatten3(Window(x, kH, kW, g, xPad, oh, ow))[row] == Columns(x, kH, kW, g)[row][col]
  {
    var win := Window(x, kH, kW, g, xPad, oh, ow);
    WindowShape(x, kH, kW, g, xPad, oh, ow);
    RowIndex(x.C, 0, 0, kH, kW);
    SplitFlat(row, x.C, kH * kW);
    var c, ij := row / (kH * kW), row % (kH * kW);
    SplitFlat(ij, kH, kW);
    var i, j := ij / kW, ij % kW;
    RowIndex(c, i, j, kH, kW);
    Flatten3Index(win, kH, kW, c, i, j);
    WindowEntry(x, kH, kW, g, xPad, oh, ow, c, i, j);
    ColumnsEntry(x, kH, kW, g, c, i, j, oh, ow, row, col);
  }

  /** Unit stride and no padding on both axes; the dilation is free, since a
      1x1 kernel has a single tap whichever its spacing. */
  predicate UnitSteps(g: Geometry)
  {
    g.WellFormed() && g.sH == 1 && g.sW == 1 && g.pH == 0 && g.pW == 0
  }

  /** A 1x1 kernel with unit steps keeps the spatial size. */
  lemma UnitGeometry(x: Volume, g: Geometry)
    requires x.H >= 1 && x.W >= 1 && UnitSteps(g)
    ensures GeometryOk(x, 1, 1, g) && OutH(x, 1, g) == x.H && OutW(x, 1, g) == x.W
  {
    assert Extent(1, g.dH) == 1 && Extent(1, g.dW) == 1;
    FloorDivByOne(x.H - 1, 1);
    FloorDivByOne(x.W - 1, 1);
  }

  /** Sampling every position of channel c with unit steps and no offset
      reads the channel itself. */
  lemma GridIdentity(x: Volume, c: int)
    requires x.Valid() && 0 <= c < x.C
    ensures Grid(x, c, 0, 0, x.H, x.W, 1, 1, 0, 0) == x.data[c]
  {
    var grid := Grid(x, c, 0, 0, x.H, x.W, 1, 1, 0, 0);
    forall h | 0 <= h < x.H ensures grid[h] == x.data[c][h] {
    }
  }

  /** With unit steps, the single tap row of channel c is channel c flattened. */
  lemma UnitTapRow(x: Volume, c: int, g: Geometry)
    requires x.Valid() && x.H >= 1 && x.W >= 1 && 0 <= c < x.C && UnitSteps(g)
    requires GeometryOk(x, 1, 1, g)
    ensures TapRow(x, 1, 1, g, c, 0, 0) == Flatten(x.data[c])
  {
    UnitGeometry(x, g);
    GridIdentity(x, c);
  }

  /** With a 1x1 kernel, unit stride and no padding, the column matrix is the
      input reshaped row-major to (C, H*W). */
  lemma UnitKernelIsReshape(x: Volume, g: Geometry)
    requires x.Valid() && x.H >= 1 && x.W >= 1 && UnitSteps(g)
    ensures GeometryOk(x, 1, 1, g) && OutH(x, 1, g) == x.H && OutW(x, 1, g) == x.W
    ensures |Columns(x, 1, 1, g)| == x.C
    ensures forall c | 0 <= c < x.C :: Columns(x, 1, 1, g)[c] == Flatten(x.data[c])
  {
    UnitGeometry(x, g);
    SingleTapColumns(x, 1, 1, g);
    forall c | 0 <= c < x.C ensures Columns(x, 1, 1, g)[c] == Flatten(x.data[c]) {
      UnitTapRow(x, c, g);
    }
  }

  /** A 1x1 kernel has one tap per channel: row c of the column matrix is the
      tap row of channel c. */
  lemma SingleTapColumns(x: Volume, kH: nat, kW: nat, g: Geometry)
    requires x.Valid() && g.WellFormed() && GeometryOk(x, kH, kW, g) && kH == 1 && kW == 1
    ensures |Columns(x, kH, kW, g)| == x.C
    ensures forall c | 0 <= c < x.C :: Columns(x, kH, kW, g)[c] == TapRow(x, kH, kW, g, c, 0, 0)
  {
    var taps := Taps(x, kH, kW, g);
    Flatten3Length(taps, kH, kW);
    forall c | 0 <= c < x.C ensures Columns(x, kH, kW, g)[c] == TapRow(x, kH, kW, g, c, 0, 0) {
      Flatten3Index(taps, kH, kW, c, 0, 0);
    }
  }

  // ---- the transform ------------------------------------------------------

  /** `im2col(x, kH, kW, stride, padding, dilation)`: fails with InvalidGeometry
      exactly when an output size is not positive, and otherwise returns the
      (C*kH*kW, outH*outW) column matrix, filled column by column. */
  method Im2col(x: Volume, kH: nat, kW: nat, stride: Param, padding: Param, dilation: Param)
    returns (r: Result<array2<real>>)
    requires x.Valid() && kH >= 1 && kW >= 1
    requires Normalize(stride, padding, dilation).WellFormed()
    ensures r.Err? <==> !GeometryOk(x, kH, kW, Normalize(stride, padding, dilation))
    ensures r.Err? ==> r.error == InvalidGeometry
    ensures r.Ok? ==> var g := Normalize(stride, padding, dilation);
      GeometryOk(x, kH, kW, g) && fresh(r.value) &&
      r.value.Length0 == x.C * kH * kW && r.value.Length1 == OutH(x, kH, g) * OutW(x, kW, g) &&
      Matrix(r.value) == Columns(x, kH, kW, g)
  {
    var g := Normalize(stride, padding, dilation);
    var C, H, W := x.C, x.H, x.W;

    var kHeff := Extent(kH, g.dH);
    var kWeff := Extent(kW, g.dW);

    var outH := FloorDiv(H + 2 * g.pH - kHeff, g.sH) + 1;
    var outW := FloorDiv(W + 2 * g.pW - kWeff, g.sW) + 1;
    if outH <= 0 || outW <= 0 {
      return Err(InvalidGeometry);
    }

    var xPad := if g.pH > 0 || g.pW > 0 then Pad(x, g.pH, g.pW) else x;
    assert IsPaddingOf(xPad, x, g.pH, g.pW) by {
      if g.pH > 0 || g.pW > 0 { PadIsPadding(x, g.pH, g.pW); }
    }

    ColumnsShape(x, kH, kW, g);
    var cols := new real[C * kH * kW, outH * outW];
    FillColumns(x, kH, kW, g, xPad, cols, outH, outW);
    return Ok(cols);
  }

  /** The nested loops of `im2col`: output positions in row-major order, oh
      outer and ow inner, with a running column counter; afterwards every
      column holds its window. */
  method FillColumns(x: Volume, kH: nat, kW: nat, g: Geometry, xPad: Volume, cols: array2<real>,
                     outH: int, outW: int)
    requires x.Valid() && g.WellFormed() && GeometryOk(x, kH, kW, g) && kH >= 1 && kW >= 1
    requires IsPaddingOf(xPad, x, g.pH, g.pW)
    requires outH == OutH(x, kH, g) && outW == OutW(x, kW, g)
    requires cols.Length0 == x.C * kH * kW && cols.Length1 == outH * outW
    modifies cols
    ensures Matrix(cols) == Columns(x, kH, kW, g)
  {
    ghost var spec := Columns(x, kH, kW, g);
    ColumnsShape(x, kH, kW, g);
    var colIdx := 0;
    for oh := 0 to outH
      invariant 0 <= colIdx == oh * outW <= cols.Length1
      invariant forall col, row | 0 <= col < colIdx && 0 <= row < cols.Length0 :: cols[row, col] == spec[row][col]
    {
      for ow := 0 to outW
        invariant 0 <= colIdx == oh * outW + ow <= cols.Length1
        invariant forall col, row | 0 <= col < colIdx && 0 <= row < cols.Length0 :: cols[row, col] == spec[row][col]
      {
        FlatBound(oh, ow, outH, outW);
        CopyWindow(x, kH, kW, g, xPad, cols, oh, ow, colIdx, spec);
        colIdx := colIdx + 1;
      }
      MulLeft(oh + 1, outH, outW);
    }
    forall row | 0 <= row < cols.Length0 ensures Matrix(cols)[row] == spec[row] {
    }
  }

  /** One step of the window loop: the window whose first tap is
      (oh*sH, ow*sW) is sliced out of the padded input, flattened row-major and
      stored as column colIdx; every other column stays as it was. */
  method CopyWindow(x: Volume, kH: nat, kW: nat, g: Geometry, xPad: Volume, cols: array2<real>,
                    oh: int, ow: int, colIdx: int, ghost spec: seq<seq<real>>)
    requires x.Valid() && g.WellFormed() && GeometryOk(x, kH, kW, g) && kH >= 1 && kW >= 1
    requires IsPaddingOf(xPad, x, g.pH, g.pW)
    requires 0 <= oh < OutH(x, kH, g) && 0 <= ow < OutW(x, kW, g)
    requires 0 <= colIdx == oh * OutW(x, kW, g) + ow && colIdx < cols.Length1
    requires spec == Columns(x, kH, kW, g) && |spec| == cols.Length0 && Rectangular(spec, cols.Length1)
    modifies cols
    ensures forall row, col | 0 <= row < cols.Length0 && 0 <= col < cols.Length1 ::
      cols[row, col] == if col == colIdx then spec[row][col] else old(cols[row, col])
  {
    WindowFits(x, kH, kW, g, oh, ow);
    var patch := Patch(xPad, oh * g.sH, oh * g.sH + Extent(kH, g.dH), g.dH,
                             ow * g.sW, ow * g.sW + Extent(kW, g.dW), g.dW);
    WindowColumn(x, kH, kW, g, xPad, oh, ow, colIdx);
    SetColumn(cols, colIdx, Flatten3(patch));
  }

  /** `cols[:, k] = v`: column k of `a` becomes `v`, every other entry stays. */
  method SetColumn(a: array2<real>, k: int, v: seq<real>)
    requires 0 <= k < a.Length1 && |v| == a.Length0
    modifies a
    ensures forall row, col | 0 <= row < a.Length0 && 0 <= col < a.Length1 ::
      a[row, col] == if col == k then v[row] else old(a[row, col])
  {
    forall row | 0 <= row < a.Length0 {
      a[row, k] := v[row];
    }
  }

  /** Two-dimensional array contents as a sequence of rows. */
  function Matrix(a: array2<real>): (m: seq<seq<real>>)
    reads a
    ensures |m| == a.Length0 && Rectangular(m, a.Length1)
    ensures forall r, k | 0 <= r < a.Length0 && 0 <= k < a.Length1 :: m[r][k] == a[r, k]
  {
    seq(a.Length0, r requires 0 <= r < a.Length0 reads a =>
      seq(a.Length1, k requires 0 <= k < a.Length1 reads a => a[r, k]))
  }
}
