/**
 * The Vulkan enumerations and records the swap-chain and device code works
 * with, reduced to the values the model distinguishes.
 */
module VkTypes {
  import opened Common
  import Formats

  /**
   * The Vulkan formats the model names; every other format is a color
   * format and is told apart only by its enumerant value.
   */
  datatype VkFormat =
    | Undefined
    | B8G8R8A8UNorm
    | D16UNorm
    | D16UNormS8UInt
    | D24UNormS8UInt
    | D32SFloat
    | D32SFloatS8UInt
    | OtherColorFormat(code: nat)

  /** The format has a depth component (Vulkan's definition of each format). */
  predicate HasDepthComponent(v: VkFormat) {
    v.D16UNorm? || v.D16UNormS8UInt? || v.D24UNormS8UInt? || v.D32SFloat? || v.D32SFloatS8UInt?
  }

  /** The format has a stencil component. */
  predicate HasStencilComponent(v: VkFormat) {
    v.D16UNormS8UInt? || v.D24UNormS8UInt? || v.D32SFloatS8UInt?
  }

  /** The LLGL format a Vulkan depth format corresponds to, where LLGL has one. */
  function LlglDepthFormat(v: VkFormat): Option<Formats.Format> {
    match v
    case D16UNorm => Some(Formats.D16UNorm)
    case D24UNormS8UInt => Some(Formats.D24UNormS8UInt)
    case D32SFloat => Some(Formats.D32Float)
    case D32SFloatS8UInt => Some(Formats.D32FloatS8X24UInt)
    case _ => None
  }

  /**
   * The depth and stencil tests on Vulkan formats agree with LLGL's own
   * classification for every depth format LLGL has a counterpart of, and
   * only D16_UNORM_S8_UINT among the depth formats lacks one.
   */
  lemma DepthTestsAgreeWithFormats(v: VkFormat)
    ensures LlglDepthFormat(v).Some? ==>
      HasDepthComponent(v) == Formats.IsDepthStencilFormat(LlglDepthFormat(v).value) &&
      HasStencilComponent(v) == Formats.HasStencilComponent(LlglDepthFormat(v).value)
    ensures HasDepthComponent(v) && LlglDepthFormat(v).None? <==> v == D16UNormS8UInt
  {
  }

  datatype ColorSpace = SrgbNonlinear | OtherColorSpace(code: nat)

  datatype SurfaceFormat = SurfaceFormat(format: VkFormat, colorSpace: ColorSpace)

  datatype PresentMode = Immediate | Mailbox | Fifo | FifoRelaxed

  datatype Extent2D = Extent2D(width: u32, height: u32)

  datatype SurfaceCapabilities = SurfaceCapabilities(
    minImageCount: u32,
    maxImageCount: u32,
    currentTransform: nat,
    minImageExtent: Extent2D,
    maxImageExtent: Extent2D)

  /** What the surface query reports for a physical device and surface. */
  datatype SurfaceSupport = SurfaceSupport(
    caps: SurfaceCapabilities,
    formats: seq<SurfaceFormat>,
    presentModes: seq<PresentMode>)

  /** The graphics and present queue families the device reports. */
  datatype QueueFamilyIndices = QueueFamilyIndices(graphicsFamily: u32, presentFamily: u32)

  datatype ImageLayout =
    | UndefinedLayout
    | TransferSrcOptimal
    | TransferDstOptimal
    | ShaderReadOnlyOptimal
    | OtherLayout(code: nat)

  /** One access flag bit; an access mask is a set of them, 0 the empty set. */
  datatype Access = TransferRead | TransferWrite | ShaderRead

  /** One pipeline stage bit. */
  datatype Stage = TopOfPipe | TransferStage | FragmentShader | ColorAttachmentOutput | BottomOfPipe

  /** One image aspect bit. */
  datatype Aspect = ColorAspect | DepthAspect | StencilAspect
}
