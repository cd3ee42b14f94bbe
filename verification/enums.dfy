/** The integer-coded enumerations of the converter and its closed
    catalogue of supported operator names
    (mace/python/tools/converter_tool/base_converter.py, lines 6-85).

    Each enumeration has `Value()`, the integer the Python `Enum` member
    carries as `.value`, and `FromValue(v)`, the member whose value is `v`,
    or `None` where Python's `Enum(v)` would raise `ValueError`. */
module Enums {
  import opened Wrappers

  /** Tensor layout of an operator or net. */
  datatype DataFormat = NHWC | NCHW
  {
    function Value(): (v: int)
      ensures 0 <= v <= 1
    {
      match this
      case NHWC => 0
      case NCHW => 1
    }

    static function FromValue(v: int): (r: Option<DataFormat>)
      ensures r.Some? <==> 0 <= v <= 1
      ensures r.Some? ==> r.value.Value() == v
    {
      if v == 0 then Some(NHWC)
      else if v == 1 then Some(NCHW)
      else None
    }
  }

  /** Layout of a convolution filter. */
  datatype FilterFormat = HWIO | OIHW | HWOI
  {
    function Value(): (v: int)
      ensures 0 <= v <= 2
    {
      match this
      case HWIO => 0
      case OIHW => 1
      case HWOI => 2
    }

    static function FromValue(v: int): (r: Option<FilterFormat>)
      ensures r.Some? <==> 0 <= v <= 2
      ensures r.Some? ==> r.value.Value() == v
    {
      if v == 0 then Some(HWIO)
      else if v == 1 then Some(OIHW)
      else if v == 2 then Some(HWOI)
      else None
    }
  }

  datatype PaddingMode = VALID | SAME | FULL
  {
    function Value(): (v: int)
      ensures 0 <= v <= 2
    {
      match this
      case VALID => 0
      case SAME => 1
      case FULL => 2
    }

    static function FromValue(v: int): (r: Option<PaddingMode>)
      ensures r.Some? <==> 0 <= v <= 2
      ensures r.Some? ==> r.value.Value() == v
    {
      if v == 0 then Some(VALID)
      else if v == 1 then Some(SAME)
      else if v == 2 then Some(FULL)
      else None
    }
  }

  /** The only enumeration whose codes do not start at 0. */
  datatype PoolingType = AVG | MAX
  {
    function Value(): (v: int)
      ensures 1 <= v <= 2
    {
      match this
      case AVG => 1
      case MAX => 2
    }

    static function FromValue(v: int): (r: Option<PoolingType>)
      ensures r.Some? <==> 1 <= v <= 2
      ensures r.Some? ==> r.value.Value() == v
    {
      if v == 1 then Some(AVG)
      else if v == 2 then Some(PoolingType.MAX)
      else None
    }
  }

  datatype ActivationType = NOOP | RELU | RELUX | PRELU | TANH | SIGMOID
  {
    function Value(): (v: int)
      ensures 0 <= v <= 5
    {
      match this
      case NOOP => 0
      case RELU => 1
      case RELUX => 2
      case PRELU => 3
      case TANH => 4
      case SIGMOID => 5
    }

    static function FromValue(v: int): (r: Option<ActivationType>)
      ensures r.Some? <==> 0 <= v <= 5
      ensures r.Some? ==> r.value.Value() == v
    {
      if v == 0 then Some(NOOP)
      else if v == 1 then Some(RELU)
      else if v == 2 then Some(RELUX)
      else if v == 3 then Some(PRELU)
      else if v == 4 then Some(TANH)
      else if v == 5 then Some(SIGMOID)
      else None
    }
  }

  datatype EltwiseType = SUM | SUB | PROD | DIV | MIN | MAX | NEG | ABS | SQR_DIFF | POW
  {
    function Value(): (v: int)
      ensures 0 <= v <= 9
    {
      match this
      case SUM => 0
      case SUB => 1
      case PROD => 2
      case DIV => 3
      case MIN => 4
      case MAX => 5
      case NEG => 6
      case ABS => 7
      case SQR_DIFF => 8
      case POW => 9
    }

    static function FromValue(v: int): (r: Option<EltwiseType>)
      ensures r.Some? <==> 0 <= v <= 9
      ensures r.Some? ==> r.value.Value() == v
    {
      if v == 0 then Some(SUM)
      else if v == 1 then Some(SUB)
      else if v == 2 then Some(PROD)
      else if v == 3 then Some(DIV)
      else if v == 4 then Some(MIN)
      else if v == 5 then Some(EltwiseType.MAX)
      else if v == 6 then Some(NEG)
      else if v == 7 then Some(ABS)
      else if v == 8 then Some(SQR_DIFF)
      else if v == 9 then Some(POW)
      else None
    }
  }

  /** Decoding the value of any member gives that member back, and distinct
      members of one enumeration carry distinct values. */
  lemma DataFormatCoding(a: DataFormat, b: DataFormat)
    ensures DataFormat.FromValue(a.Value()) == Some(a)
    ensures a != b ==> a.Value() != b.Value()
  {}

  lemma FilterFormatCoding(a: FilterFormat, b: FilterFormat)
    ensures FilterFormat.FromValue(a.Value()) == Some(a)
    ensures a != b ==> a.Value() != b.Value()
  {}

  lemma PaddingModeCoding(a: PaddingMode, b: PaddingMode)
    ensures PaddingMode.FromValue(a.Value()) == Some(a)
    ensures a != b ==> a.Value() != b.Value()
  {}

  lemma PoolingTypeCoding(a: PoolingType, b: PoolingType)
    ensures PoolingType.FromValue(a.Value()) == Some(a)
    ensures a != b ==> a.Value() != b.Value()
  {}

  lemma ActivationTypeCoding(a: ActivationType, b: ActivationType)
    ensures ActivationType.FromValue(a.Value()) == Some(a)
    ensures a != b ==> a.Value() != b.Value()
  {}

  lemma EltwiseTypeCoding(a: EltwiseType, b: EltwiseType)
    ensures EltwiseType.FromValue(a.Value()) == Some(a)
    ensures a != b ==> a.Value() != b.Value()
  {}

  /** The catalogue `MaceSupportedOps`, in source order. */
  const MaceSupportedOps: seq<string> := [
    "Activation", "AddN", "BatchNorm", "BatchToSpaceND", "BiasAdd",
    "ChannelShuffle", "Concat", "Conv2D", "Deconv2D", "DepthToSpace",
    "DepthwiseConv2d", "Dequantize", "Eltwise", "FoldedBatchNorm",
    "FullyConnected", "LocalResponseNorm", "MatMul", "Pad", "Pooling",
    "Proposal", "PSROIAlign", "Quantize", "Requantize", "Reshape",
    "ResizeBilinear", "Slice", "Softmax", "SpaceToBatchND", "SpaceToDepth",
    "Transpose", "WinogradInverseTransform", "WinogradTransform"
  ]

  /** `MaceOp`: a string-valued enumeration with one member per catalogue
      entry, whose name and value are both that entry. */
  datatype MaceOp =
    | Activation | AddN | BatchNorm | BatchToSpaceND | BiasAdd
    | ChannelShuffle | Concat | Conv2D | Deconv2D | DepthToSpace
    | DepthwiseConv2d | Dequantize | Eltwise | FoldedBatchNorm
    | FullyConnected | LocalResponseNorm | MatMul | Pad | Pooling
    | Proposal | PSROIAlign | Quantize | Requantize | Reshape
    | ResizeBilinear | Slice | Softmax | SpaceToBatchND | SpaceToDepth
    | Transpose | WinogradInverseTransform | WinogradTransform
  {
    /** The member's position in `MaceSupportedOps`. */
    function Index(): (k: nat)
      ensures k < |MaceSupportedOps|
    {
      match this
      case Activation => 0
      case AddN => 1
      case BatchNorm => 2
      case BatchToSpaceND => 3
      case BiasAdd => 4
      case ChannelShuffle => 5
      case Concat => 6
      case Conv2D => 7
      case Deconv2D => 8
      case DepthToSpace => 9
      case DepthwiseConv2d => 10
      case Dequantize => 11
      case Eltwise => 12
      case FoldedBatchNorm => 13
      case FullyConnected => 14
      case LocalResponseNorm => 15
      case MatMul => 16
      case Pad => 17
      case Pooling => 18
      case Proposal => 19
      case PSROIAlign => 20
      case Quantize => 21
      case Requantize => 22
      case Reshape => 23
      case ResizeBilinear => 24
      case Slice => 25
      case Softmax => 26
      case SpaceToBatchND => 27
      case SpaceToDepth => 28
      case Transpose => 29
      case WinogradInverseTransform => 30
      case WinogradTransform => 31
    }

    /** The member's string value, which is also its name. */
    function Value(): (s: string)
      ensures s in MaceSupportedOps
    {
      MaceSupportedOps[Index()]
    }

    /** `MaceOp(s)`: the member whose value is `s`, or `None` for a name
        outside the catalogue. */
    static function FromValue(s: string): (r: Option<MaceOp>)
      ensures r.Some? <==> s in MaceSupportedOps
      ensures r.Some? ==> r.value.Value() == s
    {
      OpFrom(s, 0)
    }
  }

  /** The member at position `k` of the catalogue. */
  function OpAt(k: nat): (op: MaceOp)
    requires k < |MaceSupportedOps|
    ensures op.Index() == k
  {
    [ Activation, AddN, BatchNorm, BatchToSpaceND, BiasAdd,
      ChannelShuffle, Concat, Conv2D, Deconv2D, DepthToSpace,
      DepthwiseConv2d, Dequantize, Eltwise, FoldedBatchNorm,
      FullyConnected, LocalResponseNorm, MatMul, Pad, Pooling,
      Proposal, PSROIAlign, Quantize, Requantize, Reshape,
      ResizeBilinear, Slice, Softmax, SpaceToBatchND, SpaceToDepth,
      Transpose, WinogradInverseTransform, WinogradTransform ][k]
  }

  /** The first member, at catalogue position `k` or later, whose value is `s`. */
  function OpFrom(s: string, k: nat): (r: Option<MaceOp>)
    requires k <= |MaceSupportedOps|
    ensures r.Some? ==> k <= r.value.Index() && r.value.Value() == s
    ensures r.None? ==> forall j :: k <= j < |MaceSupportedOps| ==> MaceSupportedOps[j] != s
    decreases |MaceSupportedOps| - k
  {
    if k == |MaceSupportedOps| then None
    else if MaceSupportedOps[k] == s then Some(OpAt(k))
    else OpFrom(s, k + 1)
  }

  /** Every member sits at its own position of the catalogue. */
  lemma OpAtIndex(a: MaceOp)
    ensures OpAt(a.Index()) == a
  {
    match a
    case Activation => {}
    case AddN => {}
    case BatchNorm => {}
    case BatchToSpaceND => {}
    case BiasAdd => {}
    case ChannelShuffle => {}
    case Concat => {}
    case Conv2D => {}
    case Deconv2D => {}
    case DepthToSpace => {}
    case DepthwiseConv2d => {}
    case Dequantize => {}
    case Eltwise => {}
    case FoldedBatchNorm => {}
    case FullyConnected => {}
    case LocalResponseNorm => {}
    case MatMul => {}
    case Pad => {}
    case Pooling => {}
    case Proposal => {}
    case PSROIAlign => {}
    case Quantize => {}
    case Requantize => {}
    case Reshape => {}
    case ResizeBilinear => {}
    case Slice => {}
    case Softmax => {}
    case SpaceToBatchND => {}
    case SpaceToDepth => {}
    case Transpose => {}
    case WinogradInverseTransform => {}
    case WinogradTransform => {}
  }

  /** The catalogue has 32 names, none of them twice. */
  lemma CatalogueDistinct()
    ensures |MaceSupportedOps| == 32
    ensures forall i, j :: 0 <= i < j < |MaceSupportedOps| ==> MaceSupportedOps[i] != MaceSupportedOps[j]
  {
  }

  /** Distinct operators have distinct values, and every operator's value
      decodes back to it. */
  lemma MaceOpCoding(a: MaceOp, b: MaceOp)
    ensures a != b ==> a.Value() != b.Value()
    ensures MaceOp.FromValue(a.Value()) == Some(a)
  {
    CatalogueDistinct();
    OpAtIndex(a);
    OpAtIndex(b);
    var r := MaceOp.FromValue(a.Value());
    assert r.value.Index() == a.Index();
    OpAtIndex(r.value);
  }
}
