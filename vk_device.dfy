/**
 * The command-recording helpers of the Vulkan device
 * (sources/Renderer/Vulkan/VKDevice.cpp): queue-family setup for the logical
 * device, one-shot command buffers, image layout transitions, the
 * copy/resolve bracket and the mip-chain blit schedule.
 *
 * A command buffer is an object whose `commands` the recording operations
 * append to, in order; images are named by handles.  Each recording method is
 * proved against a function giving the commands it records, and the
 * properties of the recording are lemmas about those functions.
 */
module VkDevice {
  import opened Common
  import opened VkTypes
  import SwapChainConfig

  /** TextureSubresource: a range of array layers and mip levels. */
  datatype TextureSubresource = TextureSubresource(
    baseArrayLayer: u32, numArrayLayers: u32, baseMipLevel: u32, numMipLevels: u32)

  /** One image memory barrier, as vkCmdPipelineBarrier receives it. */
  datatype ImageBarrier = ImageBarrier(
    srcAccess: set<Access>, dstAccess: set<Access>,
    oldLayout: ImageLayout, newLayout: ImageLayout,
    image: nat, aspect: set<Aspect>,
    baseMipLevel: u32, levelCount: u32, baseArrayLayer: u32, layerCount: u32)

  datatype Extent3D = Extent3D(width: u32, height: u32, depth: u32)

  /** The layers of one mip level a copy or resolve region names. */
  datatype SubresourceLayers = SubresourceLayers(mipLevel: u32, baseArrayLayer: u32, layerCount: u32)

  /** The parts of a VkImageCopy or VkImageResolve region the bracket reads; the offsets and extent are passed through. */
  datatype ImageRegion = ImageRegion(src: SubresourceLayers, dst: SubresourceLayers, offsetsAndExtent: nat)

  datatype TransferOp = CopyOp | ResolveOp

  /** A recorded command. */
  datatype Command =
    | PipelineBarrier(srcStage: Stage, dstStage: Stage, barrier: ImageBarrier)
    | TransferImage(op: TransferOp, srcImage: nat, srcLayout: ImageLayout, dstImage: nat, dstLayout: ImageLayout, region: ImageRegion)
    | BlitImage(image: nat, aspect: set<Aspect>, arrayLayer: u32,
                srcLevel: u32, srcExtent: Extent3D, dstLevel: u32, dstExtent: Extent3D)

  /** A VkCommandBuffer: the commands recorded into it so far. */
  class CommandBuffer {
    var commands: seq<Command>

    constructor()
      ensures commands == []
    {
      commands := [];
    }
  }

  /* ----- Image aspect and layout transitions ----- */

  /**
   * GetImageAspectForVkFormat: depth and stencil for a combined format,
   * depth for a depth-only format, color for everything else.
   */
  function ImageAspectFor(format: VkFormat): (r: set<Aspect>)
    ensures DepthAspect in r <==> HasDepthComponent(format)
    ensures StencilAspect in r <==> HasStencilComponent(format)
  {
    if HasDepthComponent(format) then
      if HasStencilComponent(format) then {DepthAspect, StencilAspect} else {DepthAspect}
    else {ColorAspect}
  }

  /**
   * An aspect is never empty and never mixes color with depth or stencil;
   * the undefined format counts as a color format.
   */
  lemma ImageAspectKinds(format: VkFormat)
    ensures ImageAspectFor(format) != {}
    ensures ColorAspect in ImageAspectFor(format) <==> ImageAspectFor(format) == {ColorAspect}
    ensures ImageAspectFor(Undefined) == {ColorAspect}
  {
  }

  /**
   * The aspect of a depth-stencil format matches the render pass built on
   * it: a depth attachment exactly when the aspect has depth, a stencil
   * attachment exactly when it has stencil.
   */
  lemma AspectMatchesRenderPass(samples: nat, colorFormat: VkFormat, format: VkFormat, isSecondary: bool)
    ensures var pass := SwapChainConfig.RenderPassFor(samples, colorFormat, format, isSecondary);
      (DepthAspect in ImageAspectFor(format) <==> pass.depthAttachment.Some?) &&
      (StencilAspect in ImageAspectFor(format) <==> pass.stencilAttachment.Some?)
  {
  }

  /** The access masks and pipeline stages of one transition. */
  datatype TransitionMasks = TransitionMasks(srcAccess: set<Access>, dstAccess: set<Access>, srcStage: Stage, dstStage: Stage)

  /** The two transitions of a texture upload: into the transfer destination, then to shader reading. */
  predicate IsUploadStart(oldLayout: ImageLayout, newLayout: ImageLayout) {
    oldLayout == UndefinedLayout && newLayout == TransferDstOptimal
  }

  predicate IsUploadFinish(oldLayout: ImageLayout, newLayout: ImageLayout) {
    oldLayout == TransferDstOptimal && newLayout == ShaderReadOnlyOptimal
  }

  /**
   * The masks TransitionImageLayout chooses: the two upload transitions get
   * transfer-write and shader-read synchronisation, every other pair no
   * access masks from the top to the bottom of the pipe.
   */
  function TransitionMasksFor(oldLayout: ImageLayout, newLayout: ImageLayout): (r: TransitionMasks)
    ensures IsUploadStart(oldLayout, newLayout) ==> r == TransitionMasks({}, {TransferWrite}, TopOfPipe, TransferStage)
    ensures IsUploadFinish(oldLayout, newLayout) ==> r == TransitionMasks({TransferWrite}, {ShaderRead}, TransferStage, FragmentShader)
    ensures !IsUploadStart(oldLayout, newLayout) && !IsUploadFinish(oldLayout, newLayout) ==>
      r == TransitionMasks({}, {}, TopOfPipe, BottomOfPipe)
  {
    if IsUploadStart(oldLayout, newLayout) then TransitionMasks({}, {TransferWrite}, TopOfPipe, TransferStage)
    else if IsUploadFinish(oldLayout, newLayout) then TransitionMasks({TransferWrite}, {ShaderRead}, TransferStage, FragmentShader)
    else TransitionMasks({}, {}, TopOfPipe, BottomOfPipe)
  }

  /**
   * The two upload transitions chain: the second waits on exactly the
   * access and stage the first makes available, and only they carry access
   * masks at all.
   */
  lemma UploadTransitionsChain(oldLayout: ImageLayout, newLayout: ImageLayout)
    ensures var first := TransitionMasksFor(UndefinedLayout, TransferDstOptimal);
      var second := TransitionMasksFor(TransferDstOptimal, ShaderReadOnlyOptimal);
      second.srcAccess == first.dstAccess && second.srcStage == first.dstStage
    ensures TransitionMasksFor(oldLayout, newLayout).srcAccess != {} || TransitionMasksFor(oldLayout, newLayout).dstAccess != {}
      <==> IsUploadStart(oldLayout, newLayout) || IsUploadFinish(oldLayout, newLayout)
  {
  }

  /** The barrier command TransitionImageLayout records. */
  function TransitionCommand(image: nat, format: VkFormat, oldLayout: ImageLayout, newLayout: ImageLayout,
                             sub: TextureSubresource): Command
  {
    var m := TransitionMasksFor(oldLayout, newLayout);
    PipelineBarrier(m.srcStage, m.dstStage,
      ImageBarrier(m.srcAccess, m.dstAccess, oldLayout, newLayout, image, ImageAspectFor(format),
                   sub.baseMipLevel, sub.numMipLevels, sub.baseArrayLayer, sub.numArrayLayers))
  }

  /**
   * TransitionImageLayout: a barrier from `oldLayout` to `newLayout` over the
   * whole subresource range, with the aspect of `format`; the masks start at
   * none, top-to-bottom of pipe, and the two upload transitions replace them.
   */
  method TransitionImageLayout(cb: CommandBuffer, image: nat, format: VkFormat, oldLayout: ImageLayout,
                               newLayout: ImageLayout, sub: TextureSubresource)
    modifies cb
    ensures cb.commands == old(cb.commands) + [TransitionCommand(image, format, oldLayout, newLayout, sub)]
  {
    var barrier := ImageBarrier({}, {}, oldLayout, newLayout, image, ImageAspectFor(format),
                                sub.baseMipLevel, sub.numMipLevels, sub.baseArrayLayer, sub.numArrayLayers);
    var srcStage := TopOfPipe;
    var dstStage := BottomOfPipe;
    if oldLayout == UndefinedLayout && newLayout == TransferDstOptimal {
      barrier := barrier.(srcAccess := {}, dstAccess := {TransferWrite});
      srcStage := TopOfPipe;
      dstStage := TransferStage;
    } else if oldLayout == TransferDstOptimal && newLayout == ShaderReadOnlyOptimal {
      barrier := barrier.(srcAccess := {TransferWrite}, dstAccess := {ShaderRead});
      srcStage := TransferStage;
      dstStage := FragmentShader;
    }
    cb.commands := cb.commands + [PipelineBarrier(srcStage, dstStage, barrier)];
  }

  /* ----- Layout tracking ----- */

  /** The layout `image` is in after command `c`, from `layout`: a barrier on the image moves it to its new layout. */
  function StepLayout(c: Command, image: nat, layout: ImageLayout): ImageLayout {
    if c.PipelineBarrier? && c.barrier.image == image then c.barrier.newLayout else layout
  }

  /** Command `c` does not misstate the layout of `image`: a barrier on it names `layout` as its old layout. */
  predicate StepConsistent(c: Command, image: nat, layout: ImageLayout) {
    c.PipelineBarrier? && c.barrier.image == image ==> c.barrier.oldLayout == layout
  }

  /** The layout `image` is in after `cmds`, starting from `layout`. */
  function LayoutAfter(cmds: seq<Command>, image: nat, layout: ImageLayout): ImageLayout
    decreases |cmds|
  {
    if |cmds| == 0 then layout else LayoutAfter(cmds[1..], image, StepLayout(cmds[0], image, layout))
  }

  /** Every barrier on `image` in `cmds` names as its old layout the layout the image is in at that point. */
  predicate BarriersConsistent(cmds: seq<Command>, image: nat, layout: ImageLayout)
    decreases |cmds|
  {
    |cmds| == 0 ||
    (StepConsistent(cmds[0], image, layout) && BarriersConsistent(cmds[1..], image, StepLayout(cmds[0], image, layout)))
  }

  /** Tracking a concatenation is tracking the second part from where the first part ends. */
  lemma {:induction false} LayoutAfterAppend(a: seq<Command>, b: seq<Command>, image: nat, layout: ImageLayout)
    ensures LayoutAfter(a + b, image, layout) == LayoutAfter(b, image, LayoutAfter(a, image, layout))
    ensures BarriersConsistent(a + b, image, layout) <==>
      BarriersConsistent(a, image, layout) && BarriersConsistent(b, image, LayoutAfter(a, image, layout))
    decreases |a|
  {
    if |a| == 0 {
      assert a + b == b;
    } else {
      assert (a + b)[1..] == a[1..] + b;
      LayoutAfterAppend(a[1..], b, image, StepLayout(a[0], image, layout));
    }
  }

  /** Commands with no barrier on `image` leave its layout alone. */
  lemma {:induction false} LayoutAfterUntouched(cmds: seq<Command>, image: nat, layout: ImageLayout)
    requires forall i :: 0 <= i < |cmds| && cmds[i].PipelineBarrier? ==> cmds[i].barrier.image != image
    ensures LayoutAfter(cmds, image, layout) == layout
    ensures BarriersConsistent(cmds, image, layout)
    decreases |cmds|
  {
    if |cmds| != 0 {
      assert forall i :: 0 <= i < |cmds[1..]| ==> cmds[1..][i] == cmds[i + 1];
      LayoutAfterUntouched(cmds[1..], image, layout);
    }
  }

  /** Tracking through five commands, one at a time. */
  lemma FiveSteps(cmds: seq<Command>, image: nat, l0: ImageLayout)
    requires |cmds| == 5
    ensures var l1 := StepLayout(cmds[0], image, l0);
      var l2 := StepLayout(cmds[1], image, l1);
      var l3 := StepLayout(cmds[2], image, l2);
      var l4 := StepLayout(cmds[3], image, l3);
      LayoutAfter(cmds[..2], image, l0) == l2 &&
      LayoutAfter(cmds, image, l0) == StepLayout(cmds[4], image, l4) &&
      (BarriersConsistent(cmds, image, l0) <==>
        StepConsistent(cmds[0], image, l0) && StepConsistent(cmds[1], image, l1) && StepConsistent(cmds[2], image, l2) &&
        StepConsistent(cmds[3], image, l3) && StepConsistent(cmds[4], image, l4))
  {
    var l1 := StepLayout(cmds[0], image, l0);
    var l2 := StepLayout(cmds[1], image, l1);
    var l3 := StepLayout(cmds[2], image, l2);
    var l4 := StepLayout(cmds[3], image, l3);
    var l5 := StepLayout(cmds[4], image, l4);
    assert cmds[..2][1..] == [cmds[1]] && [cmds[1]][1..] == [];
    assert LayoutAfter([cmds[1]], image, l1) == l2;
    assert cmds[4..][1..] == [];
    assert cmds[3..][1..] == cmds[4..] && cmds[2..][1..] == cmds[3..] && cmds[1..][1..] == cmds[2..];
    assert LayoutAfter(cmds[4..], image, l4) == l5 && BarriersConsistent(cmds[4..], image, l4) == StepConsistent(cmds[4], image, l4);
    assert LayoutAfter(cmds[3..], image, l3) == l5;
    assert LayoutAfter(cmds[2..], image, l2) == l5;
    assert LayoutAfter(cmds[1..], image, l1) == l5;
    assert BarriersConsistent(cmds[3..], image, l3) == (StepConsistent(cmds[3], image, l3) && StepConsistent(cmds[4], image, l4));
    assert BarriersConsistent(cmds[2..], image, l2) == (StepConsistent(cmds[2], image, l2) && BarriersConsistent(cmds[3..], image, l3));
    assert BarriersConsistent(cmds[1..], image, l1) == (StepConsistent(cmds[1], image, l1) && BarriersConsistent(cmds[2..], image, l2));
  }

  /* ----- Copy and resolve ----- */

  /** The single-level subresource of a region's layers. */
  function RegionSubresource(l: SubresourceLayers): TextureSubresource {
    TextureSubresource(l.baseArrayLayer, l.layerCount, l.mipLevel, 1)
  }

  /**
   * The bracket CopyImage and ResolveImage record: both images into transfer
   * layouts, the copy or resolve, both images back to the caller's layouts.
   */
  function TransferImageCommands(op: TransferOp, srcImage: nat, srcLayout: ImageLayout, dstImage: nat,
                                 dstLayout: ImageLayout, region: ImageRegion, format: VkFormat): (r: seq<Command>)
    ensures |r| == 5
    ensures r[2] == TransferImage(op, srcImage, TransferSrcOptimal, dstImage, TransferDstOptimal, region)
    ensures forall i :: 0 <= i < 5 && i != 2 ==> r[i].PipelineBarrier?
  {
    var srcSub := RegionSubresource(region.src);
    var dstSub := RegionSubresource(region.dst);
    [ TransitionCommand(srcImage, format, srcLayout, TransferSrcOptimal, srcSub),
      TransitionCommand(dstImage, format, dstLayout, TransferDstOptimal, dstSub),
      TransferImage(op, srcImage, TransferSrcOptimal, dstImage, TransferDstOptimal, region),
      TransitionCommand(srcImage, format, TransferSrcOptimal, srcLayout, srcSub),
      TransitionCommand(dstImage, format, TransferDstOptimal, dstLayout, dstSub) ]
  }

  /**
   * For two different images the bracket is balanced: the copy or resolve
   * runs with the source in TRANSFER_SRC and the destination in TRANSFER_DST,
   * afterwards both are back in their original layouts, every barrier names
   * the layout its image is really in, and no other image is touched.
   */
  lemma TransferImageRestoresLayouts(op: TransferOp, srcImage: nat, srcLayout: ImageLayout, dstImage: nat,
                                     dstLayout: ImageLayout, region: ImageRegion, format: VkFormat, other: nat,
                                     otherLayout: ImageLayout)
    requires srcImage != dstImage
    ensures var cmds := TransferImageCommands(op, srcImage, srcLayout, dstImage, dstLayout, region, format);
      LayoutAfter(cmds[..2], srcImage, srcLayout) == TransferSrcOptimal &&
      LayoutAfter(cmds[..2], dstImage, dstLayout) == TransferDstOptimal &&
      LayoutAfter(cmds, srcImage, srcLayout) == srcLayout &&
      LayoutAfter(cmds, dstImage, dstLayout) == dstLayout &&
      BarriersConsistent(cmds, srcImage, srcLayout) && BarriersConsistent(cmds, dstImage, dstLayout) &&
      (other != srcImage && other != dstImage ==> LayoutAfter(cmds, other, otherLayout) == otherLayout)
  {
    var cmds := TransferImageCommands(op, srcImage, srcLayout, dstImage, dstLayout, region, format);
    FiveSteps(cmds, srcImage, srcLayout);
    FiveSteps(cmds, dstImage, dstLayout);
    if other != srcImage && other != dstImage {
      LayoutAfterUntouched(cmds, other, otherLayout);
    }
  }

  /**
   * Copying an image onto itself is not balanced: the image ends in the
   * destination's layout, whatever the source layout was.
   */
  lemma TransferImageOntoItself(op: TransferOp, image: nat, srcLayout: ImageLayout, dstLayout: ImageLayout,
                                region: ImageRegion, format: VkFormat)
    ensures LayoutAfter(TransferImageCommands(op, image, srcLayout, image, dstLayout, region, format), image, srcLayout) == dstLayout
  {
    FiveSteps(TransferImageCommands(op, image, srcLayout, image, dstLayout, region, format), image, srcLayout);
  }

  /** CopyImage. */
  method CopyImage(cb: CommandBuffer, srcImage: nat, srcLayout: ImageLayout, dstImage: nat, dstLayout: ImageLayout,
                   region: ImageRegion, format: VkFormat)
    modifies cb
    ensures cb.commands == old(cb.commands) + TransferImageCommands(CopyOp, srcImage, srcLayout, dstImage, dstLayout, region, format)
  {
    RecordTransferBracket(cb, CopyOp, srcImage, srcLayout, dstImage, dstLayout, region, format);
  }

  /** ResolveImage: the same bracket around a resolve. */
  method ResolveImage(cb: CommandBuffer, srcImage: nat, srcLayout: ImageLayout, dstImage: nat, dstLayout: ImageLayout,
                      region: ImageRegion, format: VkFormat)
    modifies cb
    ensures cb.commands == old(cb.commands) + TransferImageCommands(ResolveOp, srcImage, srcLayout, dstImage, dstLayout, region, format)
  {
    RecordTransferBracket(cb, ResolveOp, srcImage, srcLayout, dstImage, dstLayout, region, format);
  }

  /** The shared body of CopyImage and ResolveImage. */
  method RecordTransferBracket(cb: CommandBuffer, op: TransferOp, srcImage: nat, srcLayout: ImageLayout, dstImage: nat,
                               dstLayout: ImageLayout, region: ImageRegion, format: VkFormat)
    modifies cb
    ensures cb.commands == old(cb.commands) + TransferImageCommands(op, srcImage, srcLayout, dstImage, dstLayout, region, format)
  {
    var srcSub := RegionSubresource(region.src);
    var dstSub := RegionSubresource(region.dst);
    TransitionImageLayout(cb, srcImage, format, srcLayout, TransferSrcOptimal, srcSub);
    TransitionImageLayout(cb, dstImage, format, dstLayout, TransferDstOptimal, dstSub);
    cb.commands := cb.commands + [TransferImage(op, srcImage, TransferSrcOptimal, dstImage, TransferDstOptimal, region)];
    TransitionImageLayout(cb, srcImage, format, TransferSrcOptimal, srcLayout, srcSub);
    TransitionImageLayout(cb, dstImage, format, TransferDstOptimal, dstLayout, dstSub);
  }

  /* ----- Mip-chain generation ----- */

  /** `max(1, x / 2)`, one mip step of one extent component. */
  function HalveComponent(x: u32): (r: u32)
    ensures 1 <= r
    ensures x >= 1 ==> r <= x
    ensures x >= 2 ==> r < x
  {
    if x / 2 >= 1 then x / 2 else 1
  }

  /** The extent of the next mip level: every component halved, but never below 1. */
  function NextMipExtent(e: Extent3D): Extent3D {
    Extent3D(HalveComponent(e.width), HalveComponent(e.height), HalveComponent(e.depth))
  }

  /** The extent `k` mip steps below `e`. */
  function MipExtentAt(e: Extent3D, k: nat): Extent3D {
    if k == 0 then e else NextMipExtent(MipExtentAt(e, k - 1))
  }

  function Pow2(k: nat): (r: nat)
    ensures r >= 1
  {
    if k == 0 then 1 else 2 * Pow2(k - 1)
  }

  /** `max(1, x / 2^k)`: the size of a component at mip level k. */
  function MipComponent(x: nat, k: nat): nat {
    if x / Pow2(k) >= 1 then x / Pow2(k) else 1
  }

  lemma MulAtLeast(n: int, d: int)
    requires n >= 1 && d > 0
    ensures n * d >= d
  {
    var m := n - 1;
    assert n * d == m * d + d;
  }

  lemma MulAtMost(m: nat, n: nat, d: nat)
    requires m <= n
    ensures m * d <= n * d
  {
    assert n * d == m * d + (n - m) * d;
  }

  lemma DivAtMost(x: nat, d: nat)
    requires d >= 1
    ensures x / d <= x
  {
    var q := x / d;
    assert x == q * d + x % d;
    if q >= 1 {
      MulAtLeast(d, q);
    }
  }

  /** Euclidean division has one quotient. */
  lemma DivUnique(x: int, d: int, q: int, r: int)
    requires d > 0 && 0 <= r < d && x == q * d + r
    ensures x / d == q
  {
    var q' := x / d;
    var r' := x % d;
    assert x == q' * d + r';
    assert (q - q') * d == r' - r;
    if q > q' {
      MulAtLeast(q - q', d);
    } else if q < q' {
      MulAtLeast(q' - q, d);
    }
  }

  lemma DivDiv(x: nat, a: nat)
    requires a >= 1
    ensures x / a / 2 == x / (2 * a)
  {
    var q := x / a;
    var r := x % a;
    var q2 := q / 2;
    var r2 := q % 2;
    assert x == q * a + r;
    assert q == q2 * 2 + r2;
    assert q * a == q2 * (2 * a) + r2 * a;
    assert 0 <= r2 * a <= a;
    DivUnique(x, 2 * a, q2, r2 * a + r);
  }

  /** Halving a component at mip level k gives its size at level k + 1. */
  lemma {:induction false} HalveMipComponent(x: nat, k: nat)
    requires x < 0x1_0000_0000
    ensures MipComponent(x, k) < 0x1_0000_0000
    ensures HalveComponent(MipComponent(x, k)) == MipComponent(x, k + 1)
  {
    var p := Pow2(k);
    var q := x / p;
    DivDiv(x, p);
    DivAtMost(x, p);
    assert Pow2(k + 1) == 2 * p;
    assert x / Pow2(k + 1) == q / 2;
  }

  /** One component after `k` mip steps. */
  function HalveTimes(x: u32, k: nat): u32 {
    if k == 0 then x else HalveComponent(HalveTimes(x, k - 1))
  }

  /** The extent k steps down is each component stepped down on its own. */
  lemma {:induction false} MipExtentComponents(e: Extent3D, k: nat)
    ensures MipExtentAt(e, k) == Extent3D(HalveTimes(e.width, k), HalveTimes(e.height, k), HalveTimes(e.depth, k))
  {
    if k != 0 {
      MipExtentComponents(e, k - 1);
    }
  }

  lemma {:induction false} HalveTimesIsMipComponent(x: u32, k: nat)
    ensures k >= 1 || x >= 1 ==> HalveTimes(x, k) == MipComponent(x, k)
  {
    if k != 0 && (k >= 2 || x >= 1) {
      HalveTimesIsMipComponent(x, k - 1);
      HalveMipComponent(x, k - 1);
    }
  }

  /**
   * Each component of mip level k is `max(1, c / 2^k)`, the rule Vulkan
   * gives for the size of a mip level (at level 0 this needs the component
   * to be nonzero, as every image extent is).
   */
  lemma MipExtentIsHalvedSize(e: Extent3D, k: nat)
    ensures k >= 1 || e.width >= 1 ==> MipExtentAt(e, k).width == MipComponent(e.width, k)
    ensures k >= 1 || e.height >= 1 ==> MipExtentAt(e, k).height == MipComponent(e.height, k)
    ensures k >= 1 || e.depth >= 1 ==> MipExtentAt(e, k).depth == MipComponent(e.depth, k)
  {
    MipExtentComponents(e, k);
    HalveTimesIsMipComponent(e.width, k);
    HalveTimesIsMipComponent(e.height, k);
    HalveTimesIsMipComponent(e.depth, k);
  }

  /** The three commands for mip level `level` (at least 1) of one array layer. */
  function MipLevelCommands(image: nat, aspect: set<Aspect>, sub: TextureSubresource, arrayLayer: nat,
                            level: nat, curr: Extent3D): seq<Command>
  {
    var srcLevel := Wrap32(sub.baseMipLevel + level - 1);
    var layer := Wrap32(sub.baseArrayLayer + arrayLayer);
    [ PipelineBarrier(TransferStage, TransferStage,
        ImageBarrier({TransferWrite}, {TransferRead}, TransferDstOptimal, TransferSrcOptimal, image, aspect, srcLevel, 1, layer, 1)),
      BlitImage(image, aspect, layer, srcLevel, curr, Wrap32(sub.baseMipLevel + level), NextMipExtent(curr)),
      PipelineBarrier(TransferStage, FragmentShader,
        ImageBarrier({TransferRead}, {ShaderRead}, TransferSrcOptimal, ShaderReadOnlyOptimal, image, aspect, srcLevel, 1, layer, 1)) ]
  }

  /** The commands for mip levels 1 to `upTo - 1` of one array layer, each level blitted from the one before. */
  function MipLevelsBelow(image: nat, aspect: set<Aspect>, sub: TextureSubresource, extent: Extent3D,
                          arrayLayer: nat, upTo: nat): (r: seq<Command>)
    ensures |r| == if upTo <= 1 then 0 else 3 * (upTo - 1)
  {
    if upTo <= 1 then []
    else
      MipLevelsBelow(image, aspect, sub, extent, arrayLayer, upTo - 1)
        + MipLevelCommands(image, aspect, sub, arrayLayer, upTo - 1, MipExtentAt(extent, upTo - 2))
  }

  /**
   * The array layer the closing barrier of a layer names: the barrier keeps
   * the layer the last blit of this layer set, and with no blits at all it
   * still holds the base layer it was initialised with.
   */
  function ClosingBarrierLayer(sub: TextureSubresource, arrayLayer: nat): u32 {
    if sub.numMipLevels > 1 then Wrap32(sub.baseArrayLayer + arrayLayer) else sub.baseArrayLayer
  }

  /**
   * The barrier closing each layer: the last mip level back to shader
   * reading, at level `numMipLevels - 1` (not offset by the base level).
   */
  function ClosingBarrier(image: nat, aspect: set<Aspect>, sub: TextureSubresource, arrayLayer: nat): Command {
    PipelineBarrier(TransferStage, FragmentShader,
      ImageBarrier({TransferWrite}, {ShaderRead}, TransferDstOptimal, ShaderReadOnlyOptimal, image, aspect,
                   Wrap32(sub.numMipLevels - 1), 1, ClosingBarrierLayer(sub, arrayLayer), 1))
  }

  /** All commands of one array layer. */
  function MipLayerCommands(image: nat, aspect: set<Aspect>, sub: TextureSubresource, extent: Extent3D,
                            arrayLayer: nat): seq<Command>
  {
    MipLevelsBelow(image, aspect, sub, extent, arrayLayer, sub.numMipLevels) + [ClosingBarrier(image, aspect, sub, arrayLayer)]
  }

  /** The commands of array layers 0 to `n - 1`, in order. */
  function MipLayersBelow(image: nat, aspect: set<Aspect>, sub: TextureSubresource, extent: Extent3D, n: nat): seq<Command>
  {
    if n == 0 then []
    else MipLayersBelow(image, aspect, sub, extent, n - 1) + MipLayerCommands(image, aspect, sub, extent, n - 1)
  }

  /**
   * Everything GenerateMips records: the whole subresource from shader
   * reading to transfer destination (with the aspect of an undefined
   * format), then the blit schedule of every array layer.
   */
  function GenerateMipsCommands(image: nat, format: VkFormat, extent: Extent3D, sub: TextureSubresource): seq<Command> {
    [TransitionCommand(image, Undefined, ShaderReadOnlyOptimal, TransferDstOptimal, sub)]
      + MipLayersBelow(image, ImageAspectFor(format), sub, extent, sub.numArrayLayers)
  }

  /** The number of commands of one layer. */
  function LayerLength(sub: TextureSubresource): nat {
    if sub.numMipLevels <= 1 then 1 else 3 * (sub.numMipLevels - 1) + 1
  }

  function BlitCount(cmds: seq<Command>): nat {
    if |cmds| == 0 then 0 else (if cmds[0].BlitImage? then 1 else 0) + BlitCount(cmds[1..])
  }

  lemma {:induction false} BlitCountAppend(a: seq<Command>, b: seq<Command>)
    ensures BlitCount(a + b) == BlitCount(a) + BlitCount(b)
    decreases |a|
  {
    if |a| == 0 {
      assert a + b == b;
    } else {
      assert (a + b)[1..] == a[1..] + b;
      BlitCountAppend(a[1..], b);
    }
  }

  /** Each array layer emits exactly `numMipLevels - 1` blits (none for one level or fewer). */
  lemma {:induction false} MipLevelsBlitCount(image: nat, aspect: set<Aspect>, sub: TextureSubresource, extent: Extent3D,
                                              arrayLayer: nat, upTo: nat)
    ensures BlitCount(MipLevelsBelow(image, aspect, sub, extent, arrayLayer, upTo)) == if upTo <= 1 then 0 else upTo - 1
  {
    if upTo > 1 {
      var level := MipLevelCommands(image, aspect, sub, arrayLayer, upTo - 1, MipExtentAt(extent, upTo - 2));
      MipLevelsBlitCount(image, aspect, sub, extent, arrayLayer, upTo - 1);
      BlitCountAppend(MipLevelsBelow(image, aspect, sub, extent, arrayLayer, upTo - 1), level);
      assert level[1..][1..][1..] == [];
      assert BlitCount(level[1..][1..]) == 0;
      assert BlitCount(level[1..]) == 1;
    }
  }

  lemma MipLayerBlitCount(image: nat, aspect: set<Aspect>, sub: TextureSubresource, extent: Extent3D, arrayLayer: nat)
    ensures BlitCount(MipLayerCommands(image, aspect, sub, extent, arrayLayer)) == if sub.numMipLevels <= 1 then 0 else sub.numMipLevels - 1
  {
    MipLevelsBlitCount(image, aspect, sub, extent, arrayLayer, sub.numMipLevels);
    BlitCountAppend(MipLevelsBelow(image, aspect, sub, extent, arrayLayer, sub.numMipLevels), [ClosingBarrier(image, aspect, sub, arrayLayer)]);
  }

  /**
   * The k-th blit of a layer (1 <= k < upTo) reads level `base + k - 1` at
   * the extent k - 1 steps below the full extent and writes level
   * `base + k` at the next extent; it sits between the barrier that makes
   * its source a transfer source and the one that returns it to shader
   * reading.
   */
  lemma {:induction false} MipLevelsBelowAt(image: nat, aspect: set<Aspect>, sub: TextureSubresource, extent: Extent3D,
                                            arrayLayer: nat, upTo: nat, k: nat)
    requires 1 <= k < upTo
    ensures var cmds := MipLevelsBelow(image, aspect, sub, extent, arrayLayer, upTo);
      cmds[3 * (k - 1) .. 3 * k] == MipLevelCommands(image, aspect, sub, arrayLayer, k, MipExtentAt(extent, k - 1))
  {
    var prefix := MipLevelsBelow(image, aspect, sub, extent, arrayLayer, upTo - 1);
    var level := MipLevelCommands(image, aspect, sub, arrayLayer, upTo - 1, MipExtentAt(extent, upTo - 2));
    assert MipLevelsBelow(image, aspect, sub, extent, arrayLayer, upTo) == prefix + level;
    if k == upTo - 1 {
      assert (prefix + level)[3 * (k - 1) .. 3 * k] == level;
    } else {
      MipLevelsBelowAt(image, aspect, sub, extent, arrayLayer, upTo - 1, k);
      assert (prefix + level)[3 * (k - 1) .. 3 * k] == prefix[3 * (k - 1) .. 3 * k];
    }
  }

  /**
   * The shape of one layer: `numMipLevels - 1` blits, blit k reading level
   * `base + k - 1` and writing level `base + k`, extents starting from the
   * full extent in every layer, and a closing barrier on level
   * `numMipLevels - 1`.
   */
  lemma MipLayerShape(image: nat, aspect: set<Aspect>, sub: TextureSubresource, extent: Extent3D, arrayLayer: nat, k: nat)
    ensures var cmds := MipLayerCommands(image, aspect, sub, extent, arrayLayer);
      |cmds| == LayerLength(sub) &&
      cmds[|cmds| - 1] == ClosingBarrier(image, aspect, sub, arrayLayer) &&
      cmds[|cmds| - 1].barrier.baseMipLevel == Wrap32(sub.numMipLevels - 1)
    ensures 1 <= k < sub.numMipLevels ==>
      var cmds := MipLayerCommands(image, aspect, sub, extent, arrayLayer);
      cmds[3 * k - 2] == BlitImage(image, aspect, Wrap32(sub.baseArrayLayer + arrayLayer),
                                   Wrap32(sub.baseMipLevel + k - 1), MipExtentAt(extent, k - 1),
                                   Wrap32(sub.baseMipLevel + k), MipExtentAt(extent, k))
  {
    if 1 <= k < sub.numMipLevels {
      var levels := MipLevelsBelow(image, aspect, sub, extent, arrayLayer, sub.numMipLevels);
      MipLevelsBelowAt(image, aspect, sub, extent, arrayLayer, sub.numMipLevels, k);
      assert levels[3 * k - 2] == levels[3 * (k - 1) .. 3 * k][1];
    }
  }

  lemma {:induction false} MipLayersBelowLength(image: nat, aspect: set<Aspect>, sub: TextureSubresource, extent: Extent3D, n: nat)
    ensures |MipLayersBelow(image, aspect, sub, extent, n)| == n * LayerLength(sub)
  {
    if n != 0 {
      MipLayersBelowLength(image, aspect, sub, extent, n - 1);
      MipLayerShape(image, aspect, sub, extent, n - 1, 0);
      assert n * LayerLength(sub) == (n - 1) * LayerLength(sub) + LayerLength(sub);
    }
  }

  /** The commands of the first `m` layers are a prefix of those of the first `n`. */
  lemma {:induction false} MipLayersBelowPrefix(image: nat, aspect: set<Aspect>, sub: TextureSubresource, extent: Extent3D,
                                                n: nat, m: nat)
    requires m <= n
    ensures var short := MipLayersBelow(image, aspect, sub, extent, m);
      var long := MipLayersBelow(image, aspect, sub, extent, n);
      |short| <= |long| && long[..|short|] == short
  {
    if m < n {
      MipLayersBelowPrefix(image, aspect, sub, extent, n - 1, m);
      var short := MipLayersBelow(image, aspect, sub, extent, m);
      var prefix := MipLayersBelow(image, aspect, sub, extent, n - 1);
      var layer := MipLayerCommands(image, aspect, sub, extent, n - 1);
      assert (prefix + layer)[..|short|] == prefix[..|short|];
    }
  }

  /** Layer `l` of `n` occupies its own consecutive block of the schedule. */
  lemma MipLayersBelowAt(image: nat, aspect: set<Aspect>, sub: TextureSubresource, extent: Extent3D, n: nat, l: nat)
    requires l < n
    ensures var all := MipLayersBelow(image, aspect, sub, extent, n);
      var len := LayerLength(sub);
      |all| == n * len && 0 <= l * len <= (l + 1) * len <= n * len &&
      all[l * len .. (l + 1) * len] == MipLayerCommands(image, aspect, sub, extent, l)
  {
    var len := LayerLength(sub);
    assert (l + 1) * len == l * len + len;
    MulAtMost(l + 1, n, len);
    MipLayersBelowLength(image, aspect, sub, extent, n);
    MipLayersBelowLength(image, aspect, sub, extent, l);
    MipLayersBelowLength(image, aspect, sub, extent, l + 1);
    MipLayersBelowPrefix(image, aspect, sub, extent, n, l + 1);
    var before := MipLayersBelow(image, aspect, sub, extent, l);
    var upTo := MipLayersBelow(image, aspect, sub, extent, l + 1);
    var all := MipLayersBelow(image, aspect, sub, extent, n);
    assert upTo == before + MipLayerCommands(image, aspect, sub, extent, l);
    assert all[l * len .. (l + 1) * len] == upTo[l * len .. (l + 1) * len];
  }

  /**
   * The whole GenerateMips recording: the initial transition, then for each
   * array layer its own block of `LayerLength` commands, so every layer
   * emits `numMipLevels - 1` blits starting again from the full extent.
   */
  lemma GenerateMipsLayout(image: nat, format: VkFormat, extent: Extent3D, sub: TextureSubresource, l: nat)
    requires l < sub.numArrayLayers
    ensures var cmds := GenerateMipsCommands(image, format, extent, sub);
      var len := LayerLength(sub);
      |cmds| == 1 + sub.numArrayLayers * len && 0 <= l * len <= (l + 1) * len <= sub.numArrayLayers * len &&
      cmds[0] == TransitionCommand(image, Undefined, ShaderReadOnlyOptimal, TransferDstOptimal, sub) &&
      cmds[1 + l * len .. 1 + (l + 1) * len] == MipLayerCommands(image, ImageAspectFor(format), sub, extent, l) &&
      BlitCount(cmds[1 + l * len .. 1 + (l + 1) * len]) == if sub.numMipLevels <= 1 then 0 else sub.numMipLevels - 1
  {
    var len := LayerLength(sub);
    var aspect := ImageAspectFor(format);
    var layers := MipLayersBelow(image, aspect, sub, extent, sub.numArrayLayers);
    MipLayersBelowAt(image, aspect, sub, extent, sub.numArrayLayers, l);
    MipLayerBlitCount(image, aspect, sub, extent, l);
    var cmds := GenerateMipsCommands(image, format, extent, sub);
    assert cmds[1 + l * len .. 1 + (l + 1) * len] == layers[l * len .. (l + 1) * len];
  }

  /**
   * The closing barrier ignores the base mip level: when mips are generated
   * from a base level above 0, it names a level below the last one written.
   */
  lemma ClosingBarrierIgnoresBaseMipLevel(image: nat, aspect: set<Aspect>, sub: TextureSubresource, arrayLayer: nat)
    requires sub.numMipLevels >= 2 && sub.baseMipLevel >= 1
    requires sub.baseMipLevel + sub.numMipLevels < 0x1_0000_0000
    ensures ClosingBarrier(image, aspect, sub, arrayLayer).barrier.baseMipLevel < Wrap32(sub.baseMipLevel + sub.numMipLevels - 1)
  {
  }

  /** The barrier GenerateMips reuses names the image and one level of one layer with the image's aspect. */
  predicate MipBarrierShape(barrier: ImageBarrier, image: nat, aspect: set<Aspect>) {
    barrier.image == image && barrier.aspect == aspect && barrier.levelCount == 1 && barrier.layerCount == 1
  }

  /**
   * GenerateMips: transition the whole subresource to the transfer
   * destination, then for every array layer blit each mip level from the
   * one before, halving the extent, and close the layer with a barrier on the
   * last level.  One barrier record is reused throughout.
   */
  method GenerateMips(cb: CommandBuffer, image: nat, format: VkFormat, extent: Extent3D, sub: TextureSubresource)
    modifies cb
    ensures cb.commands == old(cb.commands) + GenerateMipsCommands(image, format, extent, sub)
  {
    TransitionImageLayout(cb, image, Undefined, ShaderReadOnlyOptimal, TransferDstOptimal, sub);
    var start := cb.commands;
    var aspect := ImageAspectFor(format);
    var barrier := ImageBarrier({}, {}, UndefinedLayout, UndefinedLayout, image, aspect,
                                sub.baseMipLevel, 1, sub.baseArrayLayer, 1);

    var arrayLayer: u32 := 0;
    while arrayLayer < sub.numArrayLayers
      invariant arrayLayer <= sub.numArrayLayers
      invariant cb.commands == start + MipLayersBelow(image, aspect, sub, extent, arrayLayer)
      invariant MipBarrierShape(barrier, image, aspect)
      invariant sub.numMipLevels <= 1 ==> barrier.baseArrayLayer == sub.baseArrayLayer
    {
      ghost var done := MipLayersBelow(image, aspect, sub, extent, arrayLayer as nat);
      ghost var layer := MipLayerCommands(image, aspect, sub, extent, arrayLayer as nat);
      barrier := RecordMipLayer(cb, image, aspect, sub, extent, arrayLayer, barrier);
      assert cb.commands == (start + done) + layer;
      assert start + done + layer == start + (done + layer);
      arrayLayer := arrayLayer + 1;
    }
  }

  /** The body of GenerateMips for one array layer: the blits of every mip level, then the closing barrier. */
  method RecordMipLayer(cb: CommandBuffer, image: nat, aspect: set<Aspect>, sub: TextureSubresource, extent: Extent3D,
                        arrayLayer: u32, entry: ImageBarrier) returns (barrier: ImageBarrier)
    requires MipBarrierShape(entry, image, aspect)
    requires sub.numMipLevels <= 1 ==> entry.baseArrayLayer == sub.baseArrayLayer
    modifies cb
    ensures cb.commands == old(cb.commands) + MipLayerCommands(image, aspect, sub, extent, arrayLayer as nat)
    ensures MipBarrierShape(barrier, image, aspect)
    ensures sub.numMipLevels <= 1 ==> barrier.baseArrayLayer == sub.baseArrayLayer
  {
    barrier := entry;
    var currExtent := extent;
    var mipLevel: u32 := 1;
    while mipLevel < sub.numMipLevels
      invariant 1 <= mipLevel && (mipLevel == 1 || mipLevel <= sub.numMipLevels)
      invariant currExtent == MipExtentAt(extent, mipLevel - 1)
      invariant cb.commands == old(cb.commands) + MipLevelsBelow(image, aspect, sub, extent, arrayLayer as nat, mipLevel as nat)
      invariant MipBarrierShape(barrier, image, aspect)
      invariant mipLevel > 1 ==> barrier.baseArrayLayer == Wrap32(sub.baseArrayLayer + arrayLayer)
      invariant mipLevel == 1 ==> barrier.baseArrayLayer == entry.baseArrayLayer
    {
      ghost var done := MipLevelsBelow(image, aspect, sub, extent, arrayLayer as nat, mipLevel as nat);
      ghost var level := MipLevelCommands(image, aspect, sub, arrayLayer as nat, mipLevel as nat, currExtent);
      ghost var levelStart := cb.commands;
      var nextExtent := NextMipExtent(currExtent);

      barrier := barrier.(srcAccess := {TransferWrite}, dstAccess := {TransferRead},
                          oldLayout := TransferDstOptimal, newLayout := TransferSrcOptimal,
                          baseMipLevel := Wrap32(sub.baseMipLevel + mipLevel - 1),
                          baseArrayLayer := Wrap32(sub.baseArrayLayer + arrayLayer));
      cb.commands := cb.commands + [PipelineBarrier(TransferStage, TransferStage, barrier)];

      cb.commands := cb.commands + [BlitImage(image, aspect, Wrap32(sub.baseArrayLayer + arrayLayer),
                                              Wrap32(sub.baseMipLevel + mipLevel - 1), currExtent,
                                              Wrap32(sub.baseMipLevel + mipLevel), nextExtent)];

      barrier := barrier.(srcAccess := {TransferRead}, dstAccess := {ShaderRead},
                          oldLayout := TransferSrcOptimal, newLayout := ShaderReadOnlyOptimal);
      cb.commands := cb.commands + [PipelineBarrier(TransferStage, FragmentShader, barrier)];
      assert cb.commands == levelStart + level;
      assert MipLevelsBelow(image, aspect, sub, extent, arrayLayer as nat, mipLevel as nat + 1) == done + level;
      assert levelStart + level == old(cb.commands) + (done + level);

      currExtent := nextExtent;
      mipLevel := mipLevel + 1;
    }

    barrier := barrier.(srcAccess := {TransferWrite}, dstAccess := {ShaderRead},
                        oldLayout := TransferDstOptimal, newLayout := ShaderReadOnlyOptimal,
                        baseMipLevel := Wrap32(sub.numMipLevels - 1));
    ghost var levels := MipLevelsBelow(image, aspect, sub, extent, arrayLayer as nat, sub.numMipLevels);
    assert MipLevelsBelow(image, aspect, sub, extent, arrayLayer as nat, mipLevel as nat) == levels;
    assert PipelineBarrier(TransferStage, FragmentShader, barrier) == ClosingBarrier(image, aspect, sub, arrayLayer as nat);
    cb.commands := cb.commands + [PipelineBarrier(TransferStage, FragmentShader, barrier)];
    assert cb.commands == old(cb.commands) + (levels + [ClosingBarrier(image, aspect, sub, arrayLayer as nat)]);
  }

  /* ----- Logical device and one-shot command buffers ----- */

  /** One VkDeviceQueueCreateInfo: a queue family and how many queues of it. */
  datatype QueueCreateInfo = QueueCreateInfo(queueFamilyIndex: u32, queueCount: nat)

  /** The parts of VkDeviceCreateInfo the device sets from its inputs. */
  datatype DeviceCreateInfo = DeviceCreateInfo(queueCreateInfos: seq<QueueCreateInfo>, enabledLayerCount: nat, enabledExtensionCount: u32)

  datatype CommandPoolFlag = Transient | ResetCommandBuffer

  datatype CommandPoolInfo = CommandPoolInfo(flags: set<CommandPoolFlag>, queueFamilyIndex: u32)

  /**
   * The queue create infos of CreateLogicalDevice: the graphics family, then
   * the present family only if it is a different one, one queue each.
   */
  method BuildQueueCreateInfos(families: QueueFamilyIndices) returns (infos: seq<QueueCreateInfo>)
    ensures |infos| == if families.graphicsFamily == families.presentFamily then 1 else 2
    ensures infos[0] == QueueCreateInfo(families.graphicsFamily, 1)
    ensures infos[|infos| - 1] == QueueCreateInfo(families.presentFamily, 1)
    ensures forall i :: 0 <= i < |infos| ==> infos[i].queueCount == 1
    ensures forall i :: 0 <= i < |infos| ==>
      infos[i].queueFamilyIndex == families.graphicsFamily || infos[i].queueFamilyIndex == families.presentFamily
    ensures forall i, j :: 0 <= i < j < |infos| ==> infos[i].queueFamilyIndex != infos[j].queueFamilyIndex
  {
    infos := [];
    infos := infos + [QueueCreateInfo(families.graphicsFamily, 1)];
    if families.graphicsFamily != families.presentFamily {
      infos := infos + [QueueCreateInfo(families.presentFamily, 1)];
    }
  }

  /** VKDevice: the logical device, its graphics queue and command pool, and the command buffers allocated from the pool. */
  class Device {
    var queueFamilies: QueueFamilyIndices
    var createInfo: Option<DeviceCreateInfo>
    /** The graphics queue: queue 0 of the graphics family. */
    var graphicsQueue: Option<(u32, nat)>
    var commandPool: Option<CommandPoolInfo>
    /** Command buffers allocated from the pool and not yet freed. */
    var live: set<CommandBuffer>
    /** Command buffers begun for one-time submission and not yet ended. */
    var recording: set<CommandBuffer>
    /** The commands of every command buffer submitted to the graphics queue, in order. */
    var submissions: seq<seq<Command>>

    constructor()
      ensures createInfo.None? && graphicsQueue.None? && commandPool.None?
      ensures live == {} && recording == {} && submissions == []
    {
      queueFamilies := QueueFamilyIndices(0, 0);
      createInfo := None;
      graphicsQueue := None;
      commandPool := None;
      live := {};
      recording := {};
      submissions := [];
    }

    /** Only live command buffers are recording. */
    predicate Valid()
      reads this
    {
      recording <= live
    }

    /**
     * CreateLogicalDevice: `families` stands for what VKFindQueueFamilies
     * reports.  The device gets one queue create info per distinct family,
     * no layers and the given extensions; then the graphics queue and a
     * transient, resettable command pool on the graphics family.
     */
    method CreateLogicalDevice(families: QueueFamilyIndices, numExtensions: u32)
      modifies this`queueFamilies, this`createInfo, this`graphicsQueue, this`commandPool
      ensures queueFamilies == families
      ensures createInfo.Some? && createInfo.value.enabledLayerCount == 0 && createInfo.value.enabledExtensionCount == numExtensions
      ensures var infos := createInfo.value.queueCreateInfos;
        |infos| == (if families.graphicsFamily == families.presentFamily then 1 else 2) &&
        infos[0] == QueueCreateInfo(families.graphicsFamily, 1) &&
        infos[|infos| - 1] == QueueCreateInfo(families.presentFamily, 1)
      ensures graphicsQueue == Some((families.graphicsFamily, 0))
      ensures commandPool == Some(CommandPoolInfo({Transient, ResetCommandBuffer}, families.graphicsFamily))
    {
      queueFamilies := families;
      var infos := BuildQueueCreateInfos(families);
      createInfo := Some(DeviceCreateInfo(infos, 0, numExtensions));
      graphicsQueue := Some((queueFamilies.graphicsFamily, 0));
      commandPool := Some(CommandPoolInfo({Transient, ResetCommandBuffer}, queueFamilies.graphicsFamily));
    }

    /** AllocCommandBuffer: a new primary command buffer from the pool, begun for one-time submission only if `begin`. */
    method AllocCommandBuffer(begin: bool) returns (cb: CommandBuffer)
      requires Valid()
      modifies this`live, this`recording
      ensures Valid()
      ensures fresh(cb) && cb.commands == []
      ensures live == old(live) + {cb}
      ensures cb in recording <==> begin
      ensures recording - {cb} == old(recording)
    {
      cb := new CommandBuffer();
      live := live + {cb};
      if begin {
        recording := recording + {cb};
      }
    }

    /**
     * FlushCommandBuffer: end recording, submit the commands to the graphics
     * queue and wait for them; free the buffer only if `release`.
     */
    method FlushCommandBuffer(cb: CommandBuffer, release: bool)
      requires Valid() && cb in live
      modifies this`live, this`recording, this`submissions
      ensures Valid()
      ensures recording == old(recording) - {cb}
      ensures submissions == old(submissions) + [cb.commands]
      ensures live == if release then old(live) - {cb} else old(live)
    {
      recording := recording - {cb};
      submissions := submissions + [cb.commands];
      if release {
        live := live - {cb};
      }
    }
  }
}
