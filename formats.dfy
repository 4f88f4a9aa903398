/**
 * The hardware format and data type enumerations of LLGL and their
 * classification predicates (include/LLGL/Format.h).  Only the declarations
 * are given there; each definition below follows the doc-comment of the
 * predicate and the per-entry comments of the enumerations.
 */
module Formats {

  /** Hardware vector and pixel formats, in declaration order. */
  datatype Format =
    | Undefined
    // Color formats
    | R8UNorm | R8SNorm | R8UInt | R8SInt
    | R16UNorm | R16SNorm | R16UInt | R16SInt | R16Float
    | R32UInt | R32SInt | R32Float
    | RG8UNorm | RG8SNorm | RG8UInt | RG8SInt
    | RG16UNorm | RG16SNorm | RG16UInt | RG16SInt | RG16Float
    | RG32UInt | RG32SInt | RG32Float
    | RGB8UNorm | RGB8SNorm | RGB8UInt | RGB8SInt
    | RGB16UNorm | RGB16SNorm | RGB16UInt | RGB16SInt | RGB16Float
    | RGB32UInt | RGB32SInt | RGB32Float
    | RGBA8UNorm | RGBA8SNorm | RGBA8UInt | RGBA8SInt
    | RGBA16UNorm | RGBA16SNorm | RGBA16UInt | RGBA16SInt | RGBA16Float
    | RGBA32UInt | RGBA32SInt | RGBA32Float
    // Extended color formats
    | R64Float | RG64Float | RGB64Float | RGBA64Float
    // Depth-stencil formats
    | D16UNorm | D24UNormS8UInt | D32Float | D32FloatS8X24UInt
    // Compressed color formats
    | BC1RGB | BC1RGBA | BC2RGBA | BC3RGBA

  /** How the bits of one component are interpreted. */
  datatype ComponentKind = NormUnsigned | NormSigned | UnsignedInt | SignedInt | FloatingPoint

  /** What the comment of a `Format` entry says about its layout. */
  datatype FormatInfo =
    | NoComponents
    | Color(components: nat, bits: nat, kind: ComponentKind)
    | DepthStencil(depthBits: nat, depthKind: ComponentKind, stencilBits: nat, unusedBits: nat)
    | Compressed(components: nat, blockBytes: nat)

  /** The layout each enumeration comment describes. */
  function Info(f: Format): FormatInfo {
    match f
    case Undefined => NoComponents
    case R8UNorm => Color(1, 8, NormUnsigned)
    case R8SNorm => Color(1, 8, NormSigned)
    case R8UInt => Color(1, 8, UnsignedInt)
    case R8SInt => Color(1, 8, SignedInt)
    case R16UNorm => Color(1, 16, NormUnsigned)
    case R16SNorm => Color(1, 16, NormSigned)
    case R16UInt => Color(1, 16, UnsignedInt)
    case R16SInt => Color(1, 16, SignedInt)
    case R16Float => Color(1, 16, FloatingPoint)
    case R32UInt => Color(1, 32, UnsignedInt)
    case R32SInt => Color(1, 32, SignedInt)
    case R32Float => Color(1, 32, FloatingPoint)
    case RG8UNorm => Color(2, 8, NormUnsigned)
    case RG8SNorm => Color(2, 8, NormSigned)
    case RG8UInt => Color(2, 8, UnsignedInt)
    case RG8SInt => Color(2, 8, SignedInt)
    case RG16UNorm => Color(2, 16, NormUnsigned)
    case RG16SNorm => Color(2, 16, NormSigned)
    case RG16UInt => Color(2, 16, UnsignedInt)
    case RG16SInt => Color(2, 16, SignedInt)
    case RG16Float => Color(2, 16, FloatingPoint)
    case RG32UInt => Color(2, 32, UnsignedInt)
    case RG32SInt => Color(2, 32, SignedInt)
    case RG32Float => Color(2, 32, FloatingPoint)
    case RGB8UNorm => Color(3, 8, NormUnsigned)
    case RGB8SNorm => Color(3, 8, NormSigned)
    case RGB8UInt => Color(3, 8, UnsignedInt)
    case RGB8SInt => Color(3, 8, SignedInt)
    case RGB16UNorm => Color(3, 16, NormUnsigned)
    case RGB16SNorm => Color(3, 16, NormSigned)
    case RGB16UInt => Color(3, 16, UnsignedInt)
    case RGB16SInt => Color(3, 16, SignedInt)
    case RGB16Float => Color(3, 16, FloatingPoint)
    case RGB32UInt => Color(3, 32, UnsignedInt)
    case RGB32SInt => Color(3, 32, SignedInt)
    case RGB32Float => Color(3, 32, FloatingPoint)
    case RGBA8UNorm => Color(4, 8, NormUnsigned)
    case RGBA8SNorm => Color(4, 8, NormSigned)
    case RGBA8UInt => Color(4, 8, UnsignedInt)
    case RGBA8SInt => Color(4, 8, SignedInt)
    case RGBA16UNorm => Color(4, 16, NormUnsigned)
    case RGBA16SNorm => Color(4, 16, NormSigned)
    case RGBA16UInt => Color(4, 16, UnsignedInt)
    case RGBA16SInt => Color(4, 16, SignedInt)
    case RGBA16Float => Color(4, 16, FloatingPoint)
    case RGBA32UInt => Color(4, 32, UnsignedInt)
    case RGBA32SInt => Color(4, 32, SignedInt)
    case RGBA32Float => Color(4, 32, FloatingPoint)
    case R64Float => Color(1, 64, FloatingPoint)
    case RG64Float => Color(2, 64, FloatingPoint)
    case RGB64Float => Color(3, 64, FloatingPoint)
    case RGBA64Float => Color(4, 64, FloatingPoint)
    case D16UNorm => DepthStencil(16, NormUnsigned, 0, 0)
    case D24UNormS8UInt => DepthStencil(24, NormUnsigned, 8, 0)
    case D32Float => DepthStencil(32, FloatingPoint, 0, 0)
    case D32FloatS8X24UInt => DepthStencil(32, FloatingPoint, 8, 24)
    case BC1RGB => Compressed(3, 8)
    case BC1RGBA => Compressed(4, 8)
    case BC2RGBA => Compressed(4, 16)
    case BC3RGBA => Compressed(4, 16)
  }

  /** IsCompressedFormat: the four S3TC block formats. */
  function IsCompressedFormat(f: Format): (r: bool)
    ensures r <==> f == BC1RGB || f == BC1RGBA || f == BC2RGBA || f == BC3RGBA
  {
    Info(f).Compressed?
  }

  /** IsDepthStencilFormat: a depth or a depth-stencil format. */
  function IsDepthStencilFormat(f: Format): (r: bool)
    ensures r <==> f == D16UNorm || f == D24UNormS8UInt || f == D32Float || f == D32FloatS8X24UInt
  {
    Info(f).DepthStencil?
  }

  /** A depth-stencil format whose entry comment names a stencil component. */
  function HasStencilComponent(f: Format): (r: bool)
    ensures r <==> f == D24UNormS8UInt || f == D32FloatS8X24UInt
    ensures r ==> IsDepthStencilFormat(f)
  {
    Info(f).DepthStencil? && Info(f).stencilBits > 0
  }

  /** IsNormalizedFormat: a color format with normalized integer components. */
  function IsNormalizedFormat(f: Format): (r: bool)
    ensures r ==> !IsDepthStencilFormat(f) && !IsCompressedFormat(f)
    ensures r ==> f != Undefined
  {
    Info(f).Color? && (Info(f).kind == NormUnsigned || Info(f).kind == NormSigned)
  }

  /** IsIntegralFormat: a color format with integer components, normalized ones included. */
  function IsIntegralFormat(f: Format): (r: bool)
    ensures IsNormalizedFormat(f) ==> r
    ensures r ==> !IsDepthStencilFormat(f) && !IsCompressedFormat(f)
  {
    Info(f).Color? && Info(f).kind != FloatingPoint
  }

  /** IsFloatFormat: a color format with floating-point components. */
  function IsFloatFormat(f: Format): (r: bool)
    ensures r ==> !IsDepthStencilFormat(f) && !IsCompressedFormat(f)
    ensures r ==> !IsIntegralFormat(f)
  {
    Info(f).Color? && Info(f).kind == FloatingPoint
  }

  /** Every color format is exactly one of integral or floating-point. */
  lemma ColorFormatsAreIntegralOrFloat(f: Format)
    requires Info(f).Color?
    ensures IsIntegralFormat(f) != IsFloatFormat(f)
  {
  }

  /** The normalized formats by name: 8- and 16-bit UNorm and SNorm with one to four components. */
  lemma NormalizedFormatsByName(f: Format)
    ensures IsNormalizedFormat(f) <==>
      f == R8UNorm || f == R8SNorm || f == R16UNorm || f == R16SNorm ||
      f == RG8UNorm || f == RG8SNorm || f == RG16UNorm || f == RG16SNorm ||
      f == RGB8UNorm || f == RGB8SNorm || f == RGB16UNorm || f == RGB16SNorm ||
      f == RGBA8UNorm || f == RGBA8SNorm || f == RGBA16UNorm || f == RGBA16SNorm
  {
    match f
    case R8UNorm | R8SNorm | R16UNorm | R16SNorm | RG8UNorm | RG8SNorm | RG16UNorm | RG16SNorm =>
    case RGB8UNorm | RGB8SNorm | RGB16UNorm | RGB16SNorm | RGBA8UNorm | RGBA8SNorm | RGBA16UNorm | RGBA16SNorm =>
    case R8UInt | R8SInt | R16UInt | R16SInt | R32UInt | R32SInt | RG8UInt | RG8SInt | RG16UInt | RG16SInt | RG32UInt | RG32SInt =>
    case RGB8UInt | RGB8SInt | RGB16UInt | RGB16SInt | RGB32UInt | RGB32SInt | RGBA8UInt | RGBA8SInt | RGBA16UInt | RGBA16SInt | RGBA32UInt | RGBA32SInt =>
    case R16Float | R32Float | RG16Float | RG32Float | RGB16Float | RGB32Float | RGBA16Float | RGBA32Float =>
    case R64Float | RG64Float | RGB64Float | RGBA64Float =>
    case Undefined | D16UNorm | D24UNormS8UInt | D32Float | D32FloatS8X24UInt | BC1RGB | BC1RGBA | BC2RGBA | BC3RGBA =>
  }

  /** Renderer data types, in declaration order. */
  datatype DataType = Int8 | UInt8 | Int16 | UInt16 | Int32 | UInt32 | Float | Double

  /** The width in bits each enumeration comment gives. */
  function DataTypeBits(d: DataType): nat {
    match d
    case Int8 => 8
    case UInt8 => 8
    case Int16 => 16
    case UInt16 => 16
    case Int32 => 32
    case UInt32 => 32
    case Float => 32
    case Double => 64
  }

  /** DataTypeSize: the size in bytes. */
  function DataTypeSize(d: DataType): (r: nat)
    ensures r * 8 == DataTypeBits(d)
    ensures r == 1 || r == 2 || r == 4 || r == 8
  {
    DataTypeBits(d) / 8
  }

  /** IsIntDataType: the signed integer types. */
  function IsIntDataType(d: DataType): (r: bool)
    ensures r <==> d == Int8 || d == Int16 || d == Int32
  {
    match d
    case Int8 | Int16 | Int32 => true
    case _ => false
  }

  /** IsUIntDataType: the unsigned integer types. */
  function IsUIntDataType(d: DataType): (r: bool)
    ensures r <==> d == UInt8 || d == UInt16 || d == UInt32
  {
    match d
    case UInt8 | UInt16 | UInt32 => true
    case _ => false
  }

  /** IsFloatDataType: the floating-point types. */
  function IsFloatDataType(d: DataType): (r: bool)
    ensures r <==> d == Float || d == Double
  {
    d.Float? || d.Double?
  }

  /** The three data-type predicates partition the enumeration. */
  lemma DataTypeKindsPartition(d: DataType)
    ensures (if IsIntDataType(d) then 1 else 0) + (if IsUIntDataType(d) then 1 else 0)
            + (if IsFloatDataType(d) then 1 else 0) == 1
  {
  }

  /** The sizes 1, 1, 2, 2, 4, 4, 4, 8 for Int8 through Double. */
  lemma DataTypeSizes()
    ensures DataTypeSize(Int8) == 1 && DataTypeSize(UInt8) == 1
    ensures DataTypeSize(Int16) == 2 && DataTypeSize(UInt16) == 2
    ensures DataTypeSize(Int32) == 4 && DataTypeSize(UInt32) == 4
    ensures DataTypeSize(Float) == 4 && DataTypeSize(Double) == 8
  {
  }
}
