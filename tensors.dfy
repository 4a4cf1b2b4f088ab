/** The values that flow through the pipeline: shaped tensors of reals, the
    bias argument, and the three ways a call can fail. Every tensor carries its
    shape explicitly; `Valid()` ties the shape to the nested data. */
module Tensors {

  /** The caller-visible failures of `im2col` and `conv2d_im2col`. */
  datatype Error =
    | InvalidGeometry       // an output height or width would be <= 0
    | UnsupportedChannels   // the weight's input-channel dimension is not 1
    | BadBiasShape          // a non-scalar bias whose shape is not (C_out,)
    | NoOutputChannels      // C_out = 0: `reshape(C_out, -1)` cannot infer the -1 of an empty weight

  datatype Result<T> = Ok(value: T) | Err(error: Error)

  /** A (C, H, W) array: channels, rows, columns. */
  datatype Volume = Volume(C: nat, H: nat, W: nat, data: seq<seq<seq<real>>>)
  {
    predicate Valid()
    {
      |data| == C &&
      forall c | 0 <= c < C ::
        |data[c]| == H && forall h | 0 <= h < H :: |data[c][h]| == W
    }
  }

  /** A single-channel (H, W) image. */
  datatype Plane = Plane(H: nat, W: nat, data: seq<seq<real>>)
  {
    predicate Valid()
    {
      |data| == H && forall h | 0 <= h < H :: |data[h]| == W
    }

    /** `img[np.newaxis, :, :]`: the same image as a (1, H, W) volume. */
    function AsVolume(): (v: Volume)
      requires Valid()
      ensures v.Valid() && v.C == 1 && v.H == H && v.W == W
      ensures forall h, w | 0 <= h < H && 0 <= w < W :: v.data[0][h][w] == data[h][w]
    {
      Volume(1, H, W, [data])
    }
  }

  /** A (C_out, C_in, kH, kW) weight: one (C_in, kH, kW) filter per output channel. */
  datatype Weight = Weight(Cout: nat, Cin: nat, kH: nat, kW: nat, filters: seq<Volume>)
  {
    predicate Valid()
    {
      |filters| == Cout &&
      forall co | 0 <= co < Cout ::
        filters[co].Valid() && filters[co].C == Cin && filters[co].H == kH && filters[co].W == kW
    }
  }

  /** The bias argument: a Python scalar, or an array of any shape whose
      elements are stored row-major in `values`. */
  datatype Bias = Scalar(value: real) | Array(shape: seq<nat>, values: seq<real>)
  {
    predicate Valid()
    {
      Array? ==> |values| == Product(shape)
    }
  }

  /** Number of elements of an array of the given shape. */
  function Product(shape: seq<nat>): nat
  {
    if shape == [] then 1 else shape[0] * Product(shape[1..])
  }

  /** A one-dimensional shape (n,) holds n elements. */
  lemma ProductSingle(n: nat)
    ensures Product([n]) == n
  {
    assert [n][1..] == [];
  }
}
