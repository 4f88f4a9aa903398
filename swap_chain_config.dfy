/**
 * The selection rules of the Vulkan render context: surface format, present
 * mode, extent, image count, depth-stencil format and the two render-pass
 * descriptors (sources/Renderer/Vulkan/VKRenderContext.cpp).  All of them are
 * side-effect free and depend only on what the surface and device report.
 */
module SwapChainConfig {
  import opened Common
  import opened VkTypes

  datatype ConfigError = NoSurfaceFormats | NoSupportedDepthStencilFormat

  /** B8G8R8A8_UNORM with the sRGB non-linear color space. */
  const DefaultSurfaceFormat := SurfaceFormat(B8G8R8A8UNorm, SrgbNonlinear)

  predicate IsDefaultSurfaceFormat(f: SurfaceFormat) {
    f.format == B8G8R8A8UNorm && f.colorSpace == SrgbNonlinear
  }

  /** The surface reports a single entry with an undefined format: any format may be chosen. */
  predicate AnyFormatAllowed(formats: seq<SurfaceFormat>) {
    |formats| == 1 && formats[0].format == Undefined
  }

  /**
   * PickSwapSurfaceFormat: an empty list throws, a lone undefined entry
   * allows the default; otherwise see PickSwapSurfaceFormatFromList.
   */
  function PickSwapSurfaceFormat(formats: seq<SurfaceFormat>): (r: Result<SurfaceFormat, ConfigError>)
    ensures r.Failure? <==> |formats| == 0
    ensures r.Failure? ==> r.error == NoSurfaceFormats
    ensures AnyFormatAllowed(formats) ==> r == Success(DefaultSurfaceFormat)
  {
    if |formats| == 0 then Failure(NoSurfaceFormats)
    else if AnyFormatAllowed(formats) then Success(DefaultSurfaceFormat)
    else
      match FirstIn(formats, {DefaultSurfaceFormat})
      case Some(i) => Success(formats[i])
      case None => Success(formats[0])
  }

  /**
   * A list that is not just an undefined entry yields one of its own
   * entries: the default format if listed, else the first entry.
   */
  lemma PickSwapSurfaceFormatFromList(formats: seq<SurfaceFormat>)
    requires |formats| > 0 && !AnyFormatAllowed(formats)
    ensures var r := PickSwapSurfaceFormat(formats);
      r.Success? && r.value in formats &&
      r.value == (if DefaultSurfaceFormat in formats then DefaultSurfaceFormat else formats[0])
  {
    match FirstIn(formats, {DefaultSurfaceFormat})
    case Some(i) =>
    case None =>
      assert DefaultSurfaceFormat !in formats;
  }

  /** A mode that does not wait for the vertical blank. */
  predicate IsLowLatency(m: PresentMode) {
    m == Mailbox || m == Immediate
  }

  /**
   * PickSwapPresentMode: FIFO when vsync is on; with vsync off, see
   * PickSwapPresentModeFirstLowLatency.
   */
  function PickSwapPresentMode(modes: seq<PresentMode>, vsyncInterval: u32): (r: PresentMode)
    ensures vsyncInterval != 0 ==> r == Fifo
    ensures r == Fifo || IsLowLatency(r)
  {
    if vsyncInterval == 0 then
      match FirstIn(modes, {Mailbox, Immediate})
      case Some(i) => modes[i]
      case None => Fifo
    else Fifo
  }

  /**
   * With vsync off the first mailbox or immediate mode in list order wins,
   * and FIFO is the fallback when the surface lists neither.
   */
  lemma PickSwapPresentModeFirstLowLatency(modes: seq<PresentMode>)
    ensures (forall i :: 0 <= i < |modes| ==> !IsLowLatency(modes[i])) ==> PickSwapPresentMode(modes, 0) == Fifo
    ensures (exists i :: 0 <= i < |modes| && IsLowLatency(modes[i])) ==>
      var r := PickSwapPresentMode(modes, 0);
      exists i :: 0 <= i < |modes| && modes[i] == r && IsLowLatency(r) &&
        forall j :: 0 <= j < i ==> !IsLowLatency(modes[j])
  {
    match FirstIn(modes, {Mailbox, Immediate})
    case Some(k) =>
      assert modes[k] == PickSwapPresentMode(modes, 0);
    case None =>
  }

  /** `max(lo, min(hi, x))`, the clamp applied to each extent component. */
  function ClampComponent(lo: u32, hi: u32, x: u32): (r: u32)
    ensures lo <= hi ==> lo <= r <= hi
    ensures lo <= x <= hi ==> r == x
    ensures x < lo ==> r == lo
    ensures lo <= hi < x ==> r == hi
    ensures hi < lo ==> r == lo
  {
    Max(lo, Min(hi, x))
  }

  /** PickSwapExtent: the requested resolution with each component clamped into the surface's image-extent bounds. */
  function PickSwapExtent(caps: SurfaceCapabilities, resolution: Extent2D): (r: Extent2D)
    ensures r.width == ClampComponent(caps.minImageExtent.width, caps.maxImageExtent.width, resolution.width)
    ensures r.height == ClampComponent(caps.minImageExtent.height, caps.maxImageExtent.height, resolution.height)
  {
    Extent2D(
      ClampComponent(caps.minImageExtent.width, caps.maxImageExtent.width, resolution.width),
      ClampComponent(caps.minImageExtent.height, caps.maxImageExtent.height, resolution.height))
  }

  predicate ExtentWithin(caps: SurfaceCapabilities, e: Extent2D) {
    caps.minImageExtent.width <= e.width <= caps.maxImageExtent.width &&
    caps.minImageExtent.height <= e.height <= caps.maxImageExtent.height
  }

  /** With consistent bounds the chosen extent lies inside them, and an extent already inside is kept. */
  lemma PickSwapExtentWithinBounds(caps: SurfaceCapabilities, resolution: Extent2D)
    requires caps.minImageExtent.width <= caps.maxImageExtent.width
    requires caps.minImageExtent.height <= caps.maxImageExtent.height
    ensures ExtentWithin(caps, PickSwapExtent(caps, resolution))
    ensures ExtentWithin(caps, resolution) ==> PickSwapExtent(caps, resolution) == resolution
  {
  }

  /** Each component of the chosen extent depends only on the same component of the request. */
  lemma PickSwapExtentComponentwise(caps: SurfaceCapabilities, a: Extent2D, b: Extent2D)
    ensures a.width == b.width ==> PickSwapExtent(caps, a).width == PickSwapExtent(caps, b).width
    ensures a.height == b.height ==> PickSwapExtent(caps, a).height == PickSwapExtent(caps, b).height
  {
  }

  /** Clamping twice is clamping once, whatever the bounds. */
  lemma PickSwapExtentIdempotent(caps: SurfaceCapabilities, resolution: Extent2D)
    ensures PickSwapExtent(caps, PickSwapExtent(caps, resolution)) == PickSwapExtent(caps, resolution)
  {
  }

  /** PickSwapChainSize: `max(minImageCount, min(swapBuffers, maxImageCount))`. */
  function PickSwapChainSize(caps: SurfaceCapabilities, swapBuffers: u32): (r: u32)
    ensures r >= caps.minImageCount
    ensures caps.minImageCount <= caps.maxImageCount ==> r <= caps.maxImageCount
    ensures caps.minImageCount <= swapBuffers <= caps.maxImageCount ==> r == swapBuffers
    ensures swapBuffers <= caps.minImageCount ==> r == caps.minImageCount
    ensures caps.maxImageCount == 0 ==> r == caps.minImageCount
  {
    Max(caps.minImageCount, Min(swapBuffers, caps.maxImageCount))
  }

  /**
   * A maximum image count of 0 (which Vulkan uses for "no limit") is taken
   * as a bound of 0: a request above the minimum is cut back to the minimum.
   */
  lemma ZeroMaxImageCountIsABound(caps: SurfaceCapabilities, swapBuffers: u32)
    requires caps.maxImageCount == 0 && swapBuffers > caps.minImageCount
    ensures PickSwapChainSize(caps, swapBuffers) != swapBuffers
  {
  }

  /** GetDepthStencilFormatPreference. */
  function DepthStencilFormatPreference(depthBits: int, stencilBits: int): (r: seq<VkFormat>)
    ensures 3 <= |r| <= 4
    ensures forall i :: 0 <= i < |r| ==> HasDepthComponent(r[i])
    ensures forall i, j :: 0 <= i < j < |r| ==> r[i] != r[j]
    ensures stencilBits == 0 && depthBits == 32 ==>
      r[0] == D32SFloat && forall i :: 0 <= i < |r| && HasStencilComponent(r[i]) ==> 0 < i
    ensures stencilBits != 0 && depthBits == 32 ==>
      r[0] == D32SFloatS8UInt && forall i :: 0 <= i < |r| ==> HasStencilComponent(r[i])
    ensures depthBits != 32 ==> r[0] == D24UNormS8UInt
    ensures stencilBits != 0 ==>
      forall i, j :: 0 <= i < j < |r| && HasStencilComponent(r[j]) ==> HasStencilComponent(r[i])
  {
    if stencilBits == 0 && depthBits == 32 then
      [D32SFloat, D24UNormS8UInt, D16UNormS8UInt, D16UNorm]
    else if stencilBits != 0 && depthBits == 32 then
      [D32SFloatS8UInt, D24UNormS8UInt, D16UNormS8UInt]
    else
      [D24UNormS8UInt, D16UNormS8UInt, D32SFloat, D16UNorm]
  }

  /**
   * PickDepthStencilFormat: the first preferred format the device supports.
   * `supported` is the set of formats for which the device reports
   * depth-stencil attachment support with optimal tiling.
   */
  function PickDepthStencilFormat(depthBits: int, stencilBits: int, supported: set<VkFormat>): (r: Result<VkFormat, ConfigError>)
    ensures r.Failure? <==> forall f :: f in DepthStencilFormatPreference(depthBits, stencilBits) ==> f !in supported
    ensures r.Failure? ==> r.error == NoSupportedDepthStencilFormat
    ensures r.Success? ==>
      var prefs := DepthStencilFormatPreference(depthBits, stencilBits);
      exists i :: 0 <= i < |prefs| && prefs[i] == r.value && r.value in supported &&
        forall j :: 0 <= j < i ==> prefs[j] !in supported
  {
    var prefs := DepthStencilFormatPreference(depthBits, stencilBits);
    match FirstIn(prefs, supported)
    case Some(i) => Success(prefs[i])
    case None => Failure(NoSupportedDepthStencilFormat)
  }

  /**
   * Whatever bits are requested, even none, a successful pick is a real
   * depth format: the context never ends up without a depth-stencil buffer.
   */
  lemma PickedDepthStencilFormatHasDepth(depthBits: int, stencilBits: int, supported: set<VkFormat>)
    ensures var r := PickDepthStencilFormat(depthBits, stencilBits, supported);
      r.Success? ==> r.value != Undefined && HasDepthComponent(r.value)
  {
  }

  datatype AttachmentLoadOp = LoadUndefined | Load | Clear
  datatype AttachmentStoreOp = StoreUndefined | Store

  datatype AttachmentFormatDescriptor = AttachmentFormatDescriptor(
    format: VkFormat, loadOp: AttachmentLoadOp, storeOp: AttachmentStoreOp)

  datatype RenderPassDescriptor = RenderPassDescriptor(
    samples: nat,
    colorAttachments: seq<AttachmentFormatDescriptor>,
    depthAttachment: Option<AttachmentFormatDescriptor>,
    stencilAttachment: Option<AttachmentFormatDescriptor>)

  /** Every attachment a descriptor lists: the color ones, then depth, then stencil. */
  function AllAttachments(d: RenderPassDescriptor): seq<AttachmentFormatDescriptor> {
    d.colorAttachments
      + (if d.depthAttachment.Some? then [d.depthAttachment.value] else [])
      + (if d.stencilAttachment.Some? then [d.stencilAttachment.value] else [])
  }

  /** The load operation of the primary (false) or secondary (true) pass. */
  function PassLoadOp(isSecondary: bool): AttachmentLoadOp {
    if isSecondary then Load else LoadUndefined
  }

  /** CreateRenderPass: the descriptor built for the swap-chain's primary or secondary pass. */
  function RenderPassFor(samples: nat, colorFormat: VkFormat, depthStencilFormat: VkFormat, isSecondary: bool): (r: RenderPassDescriptor)
    ensures r.samples == samples
    ensures r.colorAttachments == [AttachmentFormatDescriptor(colorFormat, PassLoadOp(isSecondary), Store)]
    ensures r.depthAttachment.Some? <==> HasDepthComponent(depthStencilFormat)
    ensures r.stencilAttachment.Some? <==> HasStencilComponent(depthStencilFormat)
    ensures r.depthAttachment.Some? ==>
      r.depthAttachment.value == AttachmentFormatDescriptor(depthStencilFormat, PassLoadOp(isSecondary), Store)
    ensures r.stencilAttachment.Some? ==>
      r.stencilAttachment.value == AttachmentFormatDescriptor(depthStencilFormat, PassLoadOp(isSecondary), Store)
  {
    var loadOp := PassLoadOp(isSecondary);
    var storeOp := Store;
    RenderPassDescriptor(
      samples,
      [AttachmentFormatDescriptor(colorFormat, loadOp, storeOp)],
      if HasDepthComponent(depthStencilFormat) then Some(AttachmentFormatDescriptor(depthStencilFormat, loadOp, storeOp)) else None,
      if HasStencilComponent(depthStencilFormat) then Some(AttachmentFormatDescriptor(depthStencilFormat, loadOp, storeOp)) else None)
  }

  /**
   * The primary pass discards the previous contents and the secondary pass
   * keeps them; beyond the load operation the two descriptors are the same.
   */
  lemma PrimaryAndSecondaryDifferOnlyInLoadOp(samples: nat, colorFormat: VkFormat, depthStencilFormat: VkFormat)
    ensures var p := RenderPassFor(samples, colorFormat, depthStencilFormat, false);
      var s := RenderPassFor(samples, colorFormat, depthStencilFormat, true);
      p != s && p.colorAttachments[0].loadOp == LoadUndefined && s.colorAttachments[0].loadOp == Load &&
      |AllAttachments(p)| == |AllAttachments(s)| &&
      forall i :: 0 <= i < |AllAttachments(p)| ==>
        AllAttachments(p)[i].format == AllAttachments(s)[i].format
  {
    var p := RenderPassFor(samples, colorFormat, depthStencilFormat, false);
    var s := RenderPassFor(samples, colorFormat, depthStencilFormat, true);
    assert p.colorAttachments[0].loadOp != s.colorAttachments[0].loadOp;
  }

  datatype SharingMode = Exclusive | Concurrent

  /** The queue-sharing part of the swap-chain create info: concurrent with two indices when the families differ. */
  function SwapChainSharing(families: QueueFamilyIndices): (r: (SharingMode, nat))
    ensures r.0 == Concurrent <==> families.graphicsFamily != families.presentFamily
    ensures r.1 == (if r.0 == Concurrent then 2 else 0)
  {
    if families.graphicsFamily != families.presentFamily then (Concurrent, 2) else (Exclusive, 0)
  }

  /**
   * The capabilities and request of the end-to-end scenario: two to three
   * images, one sRGB BGRA format, FIFO only, four buffers and vsync on.
   */
  lemma EndToEndSelection(caps: SurfaceCapabilities)
    requires caps.minImageCount == 2 && caps.maxImageCount == 3
    ensures PickSwapChainSize(caps, 4) == 3
    ensures PickSwapSurfaceFormat([DefaultSurfaceFormat]) == Success(DefaultSurfaceFormat)
    ensures PickSwapPresentMode([Fifo], 1) == Fifo
  {
  }

  /** 24 depth and 8 stencil bits on a device that supports only D24_UNORM_S8_UINT among the candidates pick that format. */
  lemma DepthStencilScenario()
    ensures PickDepthStencilFormat(24, 8, {D24UNormS8UInt}) == Success(D24UNormS8UInt)
  {
    assert DepthStencilFormatPreference(24, 8)[0] == D24UNormS8UInt;
  }

  /** Immediate listed before Mailbox wins: the scan takes the first low-latency mode, not Mailbox first. */
  lemma FirstLowLatencyModeWins()
    ensures PickSwapPresentMode([Fifo, Immediate, Mailbox], 0) == Immediate
  {
    assert !IsLowLatency([Fifo, Immediate, Mailbox][0]);
    assert IsLowLatency([Fifo, Immediate, Mailbox][1]);
  }
}
