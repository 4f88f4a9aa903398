/**
 * The Vulkan render context (sources/Renderer/Vulkan/VKRenderContext.h and
 * VKRenderContext.cpp): a swap chain with fixed three-slot arrays of image
 * views, framebuffers and multi-sample color buffers, rebuilt on resize and on
 * a change of the vertical-sync interval.
 *
 * Native objects are named by generation counters: the n-th swap chain, the
 * n-th surface, the n-th pair of present semaphores.  What the driver answers
 * (the surface support details, the number of images it grants, the image
 * index it hands out, whether a depth format is supported, whether a submit or
 * present succeeds) is passed in as a parameter.  The queue operations the
 * context issues are appended to `trace` in order.
 */
module VkRenderContext {
  import opened Common
  import opened VkTypes
  import opened SwapChainConfig

  /** g_maxNumColorBuffers: the size of every per-image array. */
  const MaxNumColorBuffers: nat := 3

  /** The timeout passed to vkAcquireNextImageKHR: UINT64_MAX. */
  const AcquireTimeout: nat := 0xFFFF_FFFF_FFFF_FFFF

  datatype ImageView =
    | NullView
    | SwapChainImageView(swapChain: nat, image: nat)
    | DepthStencilBufferView
    | ColorBufferView(slot: nat)

  /** A depth-stencil or multi-sample color buffer: released, or created with an extent, format and sample count. */
  datatype ImageBuffer = NoBuffer | Buffer(extent: Extent2D, format: VkFormat, samples: nat)

  datatype PassKind = PrimaryPass | SecondaryPass

  datatype Framebuffer =
    | NullFramebuffer
    | Framebuffer(renderPass: PassKind, attachments: seq<ImageView>, width: u32, height: u32, layers: nat)

  /** The parameters a swap chain was created with. */
  datatype SwapChainInfo = SwapChainInfo(
    generation: nat,
    surface: nat,
    minImageCount: u32,
    format: SurfaceFormat,
    extent: Extent2D,
    presentMode: PresentMode,
    sharingMode: SharingMode,
    queueFamilyIndexCount: nat,
    preTransform: nat)

  datatype Semaphore = ImageAvailable(generation: nat) | RenderFinished(generation: nat)

  /** A queue or swap-chain operation the context issues. */
  datatype Event =
    | QueueWaitIdle
    | Submit(wait: Semaphore, waitStage: Stage, signal: Semaphore, commandBufferCount: nat)
    | QueuePresent(wait: Semaphore, swapChain: nat, imageIndex: u32)
    | AcquireNextImage(swapChain: nat, signal: Semaphore, timeout: nat)

  datatype ContextError = ConfigurationError(reason: ConfigError) | SubmitFailed | PresentFailed

  /** The fields of SwapChainDescriptor the context reads. */
  datatype SwapChainDescriptor = SwapChainDescriptor(
    resolution: Extent2D, swapBuffers: u32, depthBits: int, stencilBits: int)

  /**
   * The attachment list of a swap-chain framebuffer: the color view first,
   * then the depth-stencil view if there is one, then the multi-sample color
   * view if there is one.
   */
  function FramebufferAttachments(color: ImageView, depthStencil: Option<ImageView>, multiSample: Option<ImageView>): (r: seq<ImageView>)
    ensures |r| == 1 + (if depthStencil.Some? then 1 else 0) + (if multiSample.Some? then 1 else 0)
    ensures 1 <= |r| <= 3
    ensures r[0] == color
    ensures depthStencil.Some? ==> r[1] == depthStencil.value
    ensures multiSample.Some? ==> r[|r| - 1] == multiSample.value
  {
    [color]
      + (if depthStencil.Some? then [depthStencil.value] else [])
      + (if multiSample.Some? then [multiSample.value] else [])
  }

  /** A depth-stencil buffer's view, GetVkImageView(): null once the buffer is released. */
  function DepthStencilViewOf(b: ImageBuffer): ImageView {
    if b.Buffer? then DepthStencilBufferView else NullView
  }

  /** The view of the multi-sample color buffer in slot `slot`: null once the buffer is released. */
  function ColorBufferViewOf(b: ImageBuffer, slot: nat): ImageView {
    if b.Buffer? then ColorBufferView(slot) else NullView
  }

  /** The depth-stencil attachment: present whenever a depth-stencil format was chosen. */
  function DepthStencilAttachment(format: VkFormat, b: ImageBuffer): Option<ImageView> {
    if format != Undefined then Some(DepthStencilViewOf(b)) else None
  }

  /** A swap-chain framebuffer: the primary pass, the attachment list, the given extent and one layer. */
  function SwapChainFramebuffer(color: ImageView, depthStencil: Option<ImageView>, multiSample: Option<ImageView>,
                                extent: Extent2D): Framebuffer {
    Framebuffer(PrimaryPass, FramebufferAttachments(color, depthStencil, multiSample), extent.width, extent.height, 1)
  }

  /**
   * Attachment slots filled as CreateSwapChainFramebuffers fills them (color
   * in slot 0, depth-stencil in slot 1, multi-sample color in the last used
   * slot) hold exactly the attachment list.
   */
  lemma AttachmentSlotsInOrder(slots: seq<ImageView>, n: nat, color: ImageView,
                               depthStencil: Option<ImageView>, multiSample: Option<ImageView>)
    requires |slots| == 3
    requires n == 1 + (if depthStencil.Some? then 1 else 0) + (if multiSample.Some? then 1 else 0)
    requires slots[0] == color
    requires depthStencil.Some? ==> slots[1] == depthStencil.value
    requires multiSample.Some? ==> slots[n - 1] == multiSample.value
    ensures slots[..n] == FramebufferAttachments(color, depthStencil, multiSample)
  {
    var expected := FramebufferAttachments(color, depthStencil, multiSample);
    assert forall k :: 0 <= k < n ==> slots[k] == expected[k];
  }

  /** The three queue operations of one Present: submit, present, acquire the next image. */
  function PresentCycle(semaphores: nat, swapChain: nat, imageIndex: u32): (r: seq<Event>)
    ensures |r| == 3
    ensures r[0].Submit? && r[0].commandBufferCount == 0 && r[0].waitStage == ColorAttachmentOutput
    ensures r[1].QueuePresent? && r[1].wait == r[0].signal && r[1].imageIndex == imageIndex
    ensures r[2].AcquireNextImage? && r[2].signal == r[0].wait && r[2].swapChain == r[1].swapChain == swapChain
    ensures r[0].wait != r[0].signal
  {
    [ Submit(ImageAvailable(semaphores), ColorAttachmentOutput, RenderFinished(semaphores), 0),
      QueuePresent(RenderFinished(semaphores), swapChain, imageIndex),
      AcquireNextImage(swapChain, ImageAvailable(semaphores), AcquireTimeout) ]
  }

  /** Consecutive presents on the same semaphores chain up: each submit waits on what the previous acquire signalled. */
  lemma PresentCyclesChain(semaphores: nat, swapChain: nat, i: u32, j: u32)
    ensures PresentCycle(semaphores, swapChain, j)[0].wait == PresentCycle(semaphores, swapChain, i)[2].signal
  {
  }

  /** A view that belongs to no swap chain newer than `generation - 1`. */
  predicate ViewOlderThan(v: ImageView, generation: nat) {
    v.NullView? || (v.SwapChainImageView? && v.swapChain < generation)
  }

  /** A framebuffer that was never created, or whose color view is older than `generation`. */
  predicate FramebufferOlderThan(f: Framebuffer, generation: nat) {
    f.NullFramebuffer? || (|f.attachments| > 0 && ViewOlderThan(f.attachments[0], generation))
  }

  class RenderContext {
    /** swapChainSamples_, the clamped sample count of the descriptor. */
    const samples: nat
    /** The graphics and present families VKFindQueueFamilies reports for the device. */
    const queueFamilies: QueueFamilyIndices

    const imageViews: array<ImageView>
    const framebuffers: array<Framebuffer>
    const colorBuffers: array<ImageBuffer>

    var surfaceGeneration: nat
    var support: SurfaceSupport
    var swapChainFormat: SurfaceFormat
    var swapChain: Option<SwapChainInfo>
    var swapChainGeneration: nat
    var swapChainExtent: Extent2D
    var numSwapChainBuffers: u32
    var presentImageIndex: u32
    var vsyncInterval: u32
    var depthStencilFormat: VkFormat
    var depthStencilBuffer: ImageBuffer
    var primaryPass: RenderPassDescriptor
    var secondaryPass: RenderPassDescriptor
    var semaphoreGeneration: nat
    var trace: seq<Event>

    predicate ArraysSized() {
      imageViews.Length == MaxNumColorBuffers &&
      framebuffers.Length == MaxNumColorBuffers &&
      colorBuffers.Length == MaxNumColorBuffers
    }

    /** HasDepthStencilBuffer: whether a depth-stencil format was chosen, which decides whether the framebuffers get a depth-stencil view. */
    function HasDepthStencilBuffer(): (r: bool)
      reads this`depthStencilFormat
      ensures r <==> depthStencilFormat != Undefined
    {
      depthStencilFormat != Undefined
    }

    /** HasMultiSampling: whether the swap chain renders with more than one sample, which decides whether per-image color buffers are made and attached. */
    function HasMultiSampling(): (r: bool)
      ensures r <==> samples > 1
    {
      samples > 1
    }

    /** The color format the two render passes were built with. */
    function PassColorFormat(): VkFormat
      reads this`primaryPass
    {
      if |primaryPass.colorAttachments| > 0 then primaryPass.colorAttachments[0].format else Undefined
    }

    /** The multi-sample color attachment of slot `slot`: only with multi-sampling. */
    function MultiSampleAttachment(b: ImageBuffer, slot: nat): Option<ImageView> {
      if HasMultiSampling() then Some(ColorBufferViewOf(b, slot)) else None
    }

    /** Every slot holds nothing newer than the swap chain before `generation`. */
    ghost predicate SlotsOlderThan(generation: nat)
      requires ArraysSized()
      reads imageViews, framebuffers
    {
      forall i :: 0 <= i < MaxNumColorBuffers ==>
        ViewOlderThan(imageViews[i], generation) && FramebufferOlderThan(framebuffers[i], generation)
    }

    /** The resolution-independent part of the state: depth-stencil format, render passes, color buffers. */
    ghost predicate Configured()
      reads this`depthStencilFormat, this`primaryPass, this`secondaryPass, colorBuffers
    {
      ArraysSized() &&
      HasDepthComponent(depthStencilFormat) &&
      primaryPass == RenderPassFor(samples, PassColorFormat(), depthStencilFormat, false) &&
      secondaryPass == RenderPassFor(samples, PassColorFormat(), depthStencilFormat, true) &&
      (!HasMultiSampling() ==> forall i :: 0 <= i < MaxNumColorBuffers ==> colorBuffers[i] == NoBuffer)
    }

    /**
     * The state between public calls: a live swap chain on the current
     * surface, one image view and framebuffer per granted image, stale or
     * null entries in the unused slots, a depth-stencil buffer, and the last
     * queue operation is the acquire the next Present waits on.
     */
    ghost predicate Valid()
      reads this, imageViews, framebuffers, colorBuffers
    {
      Configured() &&
      1 <= numSwapChainBuffers <= MaxNumColorBuffers &&
      presentImageIndex < numSwapChainBuffers &&
      swapChain.Some? && swapChain.value.generation == swapChainGeneration &&
      swapChain.value.surface == surfaceGeneration &&
      depthStencilBuffer.Buffer? &&
      (forall i :: 0 <= i < numSwapChainBuffers ==> imageViews[i] == SwapChainImageView(swapChainGeneration, i)) &&
      (forall i :: 0 <= i < numSwapChainBuffers ==>
        framebuffers[i] == SwapChainFramebuffer(imageViews[i], DepthStencilAttachment(depthStencilFormat, depthStencilBuffer), MultiSampleAttachment(colorBuffers[i], i), swapChainExtent)) &&
      (forall i :: numSwapChainBuffers <= i < MaxNumColorBuffers ==>
        ViewOlderThan(imageViews[i], swapChainGeneration) && FramebufferOlderThan(framebuffers[i], swapChainGeneration)) &&
      |trace| > 0 &&
      trace[|trace| - 1] == AcquireNextImage(swapChainGeneration, ImageAvailable(semaphoreGeneration), AcquireTimeout)
    }

    /** A valid context holds nothing newer than its current swap chain. */
    lemma ValidSlotsOlderThanNext()
      requires Valid()
      ensures SlotsOlderThan(swapChainGeneration + 1)
    {
    }

    /**
     * What CreateResolutionDependentResources leaves for `resolution`: a swap
     * chain one generation on from `prevGeneration` with the clamped extent,
     * the previous image count `prevCount` as its minimum and the present mode
     * for the stored interval; the granted image count and acquired index; a
     * depth-stencil buffer and, with multi-sampling, one color buffer per
     * granted image, both with the requested size.  The other color-buffer
     * slots hold null if they were released (below `releasedBelow`) and what
     * they held before (`prevColorBuffers`) otherwise.
     */
    ghost predicate ResourcesFor(resolution: Extent2D, granted: u32, acquired: u32, prevGeneration: nat, prevCount: u32,
                                 prevColorBuffers: seq<ImageBuffer>, releasedBelow: nat)
      reads this, colorBuffers
    {
      ArraysSized() && |prevColorBuffers| == MaxNumColorBuffers &&
      swapChain.Some? &&
      swapChainExtent == PickSwapExtent(support.caps, resolution) &&
      swapChainGeneration == prevGeneration + 1 &&
      swapChain.value.minImageCount == prevCount &&
      swapChain.value.presentMode == PickSwapPresentMode(support.presentModes, vsyncInterval) &&
      numSwapChainBuffers == granted && presentImageIndex == acquired &&
      depthStencilBuffer == Buffer(resolution, depthStencilFormat, samples) &&
      forall i :: 0 <= i < MaxNumColorBuffers ==>
        colorBuffers[i] ==
          if HasMultiSampling() && i < granted then Buffer(resolution, swapChainFormat.format, samples)
          else if HasMultiSampling() && i < releasedBelow then NoBuffer
          else prevColorBuffers[i]
    }

    /** The state the member initialisers and the header's defaults leave before the constructor body runs. */
    ghost predicate Initial()
      reads this, imageViews, framebuffers, colorBuffers
    {
      ArraysSized() &&
      (forall i :: 0 <= i < MaxNumColorBuffers ==>
        imageViews[i] == NullView && framebuffers[i] == NullFramebuffer && colorBuffers[i] == NoBuffer) &&
      surfaceGeneration == 0 && semaphoreGeneration == 0 && swapChainGeneration == 0 && swapChain.None? &&
      swapChainFormat == SurfaceFormat(Undefined, SrgbNonlinear) && swapChainExtent == Extent2D(0, 0) &&
      numSwapChainBuffers == 1 && presentImageIndex == 0 && vsyncInterval == 0 &&
      depthStencilFormat == Undefined && depthStencilBuffer == NoBuffer && trace == []
    }

    /**
     * The member initialisers and the defaults of the header: null image
     * views and framebuffers in every slot, no native objects yet, one
     * swap-chain buffer, image index 0, vsync interval 0, an undefined
     * depth-stencil format and a zero extent.  `clampedSamples` stands for
     * GetClampedSamples(desc.samples).
     */
    constructor(clampedSamples: nat, families: QueueFamilyIndices)
      ensures Initial()
      ensures samples == clampedSamples && queueFamilies == families
      ensures fresh(imageViews) && fresh(framebuffers) && fresh(colorBuffers)
    {
      samples := clampedSamples;
      queueFamilies := families;
      imageViews := new ImageView[MaxNumColorBuffers](_ => NullView);
      framebuffers := new Framebuffer[MaxNumColorBuffers](_ => NullFramebuffer);
      colorBuffers := new ImageBuffer[MaxNumColorBuffers](_ => NoBuffer);
      surfaceGeneration := 0;
      support := SurfaceSupport(SurfaceCapabilities(0, 0, 0, Extent2D(0, 0), Extent2D(0, 0)), [], []);
      swapChainFormat := SurfaceFormat(Undefined, SrgbNonlinear);
      swapChain := None;
      swapChainGeneration := 0;
      swapChainExtent := Extent2D(0, 0);
      numSwapChainBuffers := 1;
      presentImageIndex := 0;
      vsyncInterval := 0;
      depthStencilFormat := Undefined;
      depthStencilBuffer := NoBuffer;
      primaryPass := RenderPassDescriptor(clampedSamples, [], None, None);
      secondaryPass := RenderPassDescriptor(clampedSamples, [], None, None);
      semaphoreGeneration := 0;
      trace := [];
    }

    /**
     * The body of the constructor up to the resolution-dependent resources:
     * semaphores, surface and surface format (no format throws), image
     * count, depth-stencil format (none supported throws) and the two render
     * passes.
     */
    method ConfigureSwapChain(desc: SwapChainDescriptor, surfaceSupport: SurfaceSupport, picked: Result<VkFormat, ConfigError>)
      returns (r: Outcome<ContextError>)
      requires picked.Success? ==> HasDepthComponent(picked.value)
      modifies this`semaphoreGeneration, this`swapChain, this`surfaceGeneration, this`support, this`swapChainFormat,
               this`numSwapChainBuffers, this`depthStencilFormat, this`primaryPass, this`secondaryPass
      ensures semaphoreGeneration == old(semaphoreGeneration) + 1 && surfaceGeneration == old(surfaceGeneration) + 1
      ensures support == surfaceSupport && swapChain.None?
      ensures r.Fail? <==> PickSwapSurfaceFormat(surfaceSupport.formats).Failure? || picked.Failure?
      ensures PickSwapSurfaceFormat(surfaceSupport.formats).Failure? ==> r == Fail(ConfigurationError(NoSurfaceFormats))
      ensures r.Fail? && PickSwapSurfaceFormat(surfaceSupport.formats).Success? ==>
        r == Fail(ConfigurationError(picked.error))
      ensures r.Pass? ==>
        swapChainFormat == PickSwapSurfaceFormat(surfaceSupport.formats).value &&
        numSwapChainBuffers == PickSwapChainSize(surfaceSupport.caps, desc.swapBuffers) &&
        depthStencilFormat == picked.value &&
        primaryPass == RenderPassFor(samples, swapChainFormat.format, depthStencilFormat, false) &&
        secondaryPass == RenderPassFor(samples, swapChainFormat.format, depthStencilFormat, true) &&
        PassColorFormat() == swapChainFormat.format
    {
      CreatePresentSemaphores();
      var surfaceOutcome := CreateGpuSurface(surfaceSupport);
      if surfaceOutcome.Fail? {
        return Fail(ConfigurationError(surfaceOutcome.error));
      }
      numSwapChainBuffers := PickSwapChainSize(support.caps, desc.swapBuffers);
      if picked.Failure? {
        return Fail(ConfigurationError(picked.error));
      }
      depthStencilFormat := picked.value;
      CreateSwapChainRenderPass();
      CreateSecondaryRenderPass();
      return Pass;
    }

    /**
     * The body of the constructor: configure the swap chain, then create the
     * resolution-dependent resources for the requested resolution with the
     * initial vsync interval of 0.  `picked` is the depth-stencil format
     * chosen for the descriptor's depth and stencil bits.
     */
    method Initialize(desc: SwapChainDescriptor, surfaceSupport: SurfaceSupport, picked: Result<VkFormat, ConfigError>,
                      granted: u32, acquired: u32)
      returns (r: Outcome<ContextError>)
      requires Initial()
      requires picked.Success? ==> HasDepthComponent(picked.value)
      requires 1 <= granted <= MaxNumColorBuffers && acquired < granted
      modifies this`semaphoreGeneration, this`swapChain, this`surfaceGeneration, this`support, this`swapChainFormat,
               this`numSwapChainBuffers, this`depthStencilFormat, this`primaryPass, this`secondaryPass,
               this`swapChainExtent, this`swapChainGeneration, this`presentImageIndex, this`trace, this`depthStencilBuffer,
               imageViews, framebuffers, colorBuffers
      ensures r.Fail? <==> PickSwapSurfaceFormat(surfaceSupport.formats).Failure? || picked.Failure?
      ensures PickSwapSurfaceFormat(surfaceSupport.formats).Failure? ==> r == Fail(ConfigurationError(NoSurfaceFormats))
      ensures r.Fail? && PickSwapSurfaceFormat(surfaceSupport.formats).Success? ==>
        r == Fail(ConfigurationError(picked.error))
      ensures r.Pass? ==>
        Valid() && vsyncInterval == 0 &&
        support == surfaceSupport && surfaceGeneration == 1 && semaphoreGeneration == 1 && swapChainGeneration == 1 &&
        swapChainFormat == PickSwapSurfaceFormat(surfaceSupport.formats).value &&
        depthStencilFormat == picked.value &&
        PassColorFormat() == swapChainFormat.format &&
        ResourcesFor(desc.resolution, granted, acquired, 0, PickSwapChainSize(surfaceSupport.caps, desc.swapBuffers),
                     [NoBuffer, NoBuffer, NoBuffer], 0) &&
        trace == [AcquireNextImage(1, ImageAvailable(1), AcquireTimeout)]
    {
      r := ConfigureSwapChain(desc, surfaceSupport, picked);
      if r.Fail? {
        return;
      }
      assert Configured();
      assert SlotsOlderThan(swapChainGeneration + 1);
      assert colorBuffers[..] == [NoBuffer, NoBuffer, NoBuffer];
      CreateResolutionDependentResources(desc.resolution, granted, acquired);
    }

    /**
     * Construction as a whole: the member initialisers, then the constructor
     * body; an exception thrown by the body leaves no context.
     * `supportedDepthFormats` is the set of formats the device supports as
     * optimal-tiling depth-stencil attachments.
     */
    static method Create(desc: SwapChainDescriptor, clampedSamples: nat, families: QueueFamilyIndices,
                         surfaceSupport: SurfaceSupport, supportedDepthFormats: set<VkFormat>,
                         granted: u32, acquired: u32)
      returns (r: Result<RenderContext, ContextError>)
      requires 1 <= granted <= MaxNumColorBuffers && acquired < granted
      ensures r.Failure? <==>
        PickSwapSurfaceFormat(surfaceSupport.formats).Failure? ||
        PickDepthStencilFormat(desc.depthBits, desc.stencilBits, supportedDepthFormats).Failure?
      ensures PickSwapSurfaceFormat(surfaceSupport.formats).Failure? ==>
        r == Failure(ConfigurationError(NoSurfaceFormats))
      ensures r.Failure? && PickSwapSurfaceFormat(surfaceSupport.formats).Success? ==>
        r == Failure(ConfigurationError(NoSupportedDepthStencilFormat))
      ensures r.Success? ==>
        fresh(r.value) && r.value.Valid() && r.value.vsyncInterval == 0 && r.value.samples == clampedSamples &&
        r.value.depthStencilFormat == PickDepthStencilFormat(desc.depthBits, desc.stencilBits, supportedDepthFormats).value &&
        r.value.swapChainFormat == PickSwapSurfaceFormat(surfaceSupport.formats).value
    {
      var picked := PickDepthStencilFormat(desc.depthBits, desc.stencilBits, supportedDepthFormats);
      PickedDepthStencilFormatHasDepth(desc.depthBits, desc.stencilBits, supportedDepthFormats);
      var context := new RenderContext(clampedSamples, families);
      var outcome := context.Initialize(desc, surfaceSupport, picked, granted, acquired);
      if outcome.Fail? {
        return Failure(outcome.error);
      }
      return Success(context);
    }

    /**
     * Present: submit with no command buffers, waiting on the image-available
     * semaphore at the color-attachment stage and signalling render-finished;
     * present the current image waiting on render-finished; acquire the next
     * image.  A failed submit or present throws.
     */
    method Present(submitOk: bool, presentOk: bool, acquired: u32) returns (r: Outcome<ContextError>)
      requires Valid()
      requires acquired < numSwapChainBuffers
      modifies this`presentImageIndex, this`trace
      ensures r.Pass? <==> submitOk && presentOk
      ensures !submitOk ==> r == Fail(SubmitFailed)
      ensures submitOk && !presentOk ==> r == Fail(PresentFailed)
      ensures var cycle := PresentCycle(semaphoreGeneration, swapChainGeneration, old(presentImageIndex));
        trace == old(trace) + cycle[..if !submitOk then 1 else if !presentOk then 2 else 3]
      ensures presentImageIndex == if r.Pass? then acquired else old(presentImageIndex)
      ensures Valid() <==> r.Pass?
    {
      var cycle := PresentCycle(semaphoreGeneration, swapChainGeneration, presentImageIndex);
      trace := trace + [Submit(ImageAvailable(semaphoreGeneration), ColorAttachmentOutput, RenderFinished(semaphoreGeneration), 0)];
      if !submitOk {
        assert trace == old(trace) + cycle[..1];
        return Fail(SubmitFailed);
      }
      trace := trace + [QueuePresent(RenderFinished(semaphoreGeneration), swapChainGeneration, presentImageIndex)];
      if !presentOk {
        assert trace == old(trace) + cycle[..2];
        return Fail(PresentFailed);
      }
      AcquireNextPresentImage(acquired);
      assert trace == old(trace) + cycle[..3];
      return Pass;
    }

    /**
     * SetVsyncInterval: a different interval recreates the swap chain (with
     * the present mode for the new interval) and its framebuffers, keeping
     * the surface, semaphores and render buffers; an equal interval changes
     * nothing.  It always reports success.  `resolution` is the context's
     * current resolution (GetResolution).
     */
    method SetVsyncInterval(interval: u32, resolution: Extent2D, granted: u32, acquired: u32) returns (r: bool)
      requires Valid()
      requires 1 <= granted <= MaxNumColorBuffers && acquired < granted
      modifies this`swapChainExtent, this`swapChain, this`swapChainGeneration, this`numSwapChainBuffers,
               this`presentImageIndex, this`trace, this`vsyncInterval, imageViews, framebuffers
      ensures r
      ensures Valid()
      ensures interval == old(vsyncInterval) ==>
        unchanged(this) && unchanged(imageViews) && unchanged(framebuffers)
      ensures interval != old(vsyncInterval) ==>
        vsyncInterval == interval &&
        swapChainGeneration == old(swapChainGeneration) + 1 &&
        swapChain.value.presentMode == PickSwapPresentMode(support.presentModes, interval) &&
        swapChain.value.minImageCount == old(numSwapChainBuffers) &&
        swapChain.value.format == swapChainFormat &&
        swapChainExtent == PickSwapExtent(support.caps, resolution) &&
        numSwapChainBuffers == granted && presentImageIndex == acquired &&
        trace == old(trace) + [AcquireNextImage(swapChainGeneration, ImageAvailable(semaphoreGeneration), AcquireTimeout)]
    {
      if vsyncInterval != interval {
        ValidSlotsOlderThanNext();
        CreateSwapChain(resolution, interval, granted, acquired);
        CreateSwapChainFramebuffers();
        vsyncInterval := interval;
      }
      return true;
    }

    /**
     * ResizeBuffersPrimary: a request equal to the current extent changes
     * nothing.  Any other request (compared before clamping) rebuilds every
     * resource for the new resolution.  It reports success unless the new
     * surface offers no format.
     */
    method ResizeBuffersPrimary(resolution: Extent2D, newSupport: SurfaceSupport, granted: u32, acquired: u32)
      returns (r: Result<bool, ContextError>)
      requires Valid()
      requires 1 <= granted <= MaxNumColorBuffers && acquired < granted
      modifies this, imageViews, framebuffers, colorBuffers
      ensures r.Success? ==> r.value && Valid()
      ensures resolution == old(swapChainExtent) ==>
        r == Success(true) && unchanged(this) && unchanged(imageViews) && unchanged(framebuffers) && unchanged(colorBuffers)
      ensures resolution != old(swapChainExtent) ==>
        (r.Failure? <==> PickSwapSurfaceFormat(newSupport.formats).Failure?) &&
        vsyncInterval == old(vsyncInterval) &&
        depthStencilFormat == old(depthStencilFormat) &&
        primaryPass == old(primaryPass) && secondaryPass == old(secondaryPass) &&
        semaphoreGeneration == old(semaphoreGeneration) + 1 &&
        surfaceGeneration == old(surfaceGeneration) + 1 && support == newSupport
      ensures resolution != old(swapChainExtent) && r.Failure? ==>
        r.error == ConfigurationError(NoSurfaceFormats) && swapChain.None? &&
        trace == old(trace) + [QueueWaitIdle]
      ensures resolution != old(swapChainExtent) && r.Success? ==>
        swapChainFormat == PickSwapSurfaceFormat(newSupport.formats).value &&
        ResourcesFor(resolution, granted, acquired, old(swapChainGeneration), old(numSwapChainBuffers),
                     old(colorBuffers[..]), old(numSwapChainBuffers)) &&
        trace == old(trace) + [QueueWaitIdle, AcquireNextImage(swapChainGeneration, ImageAvailable(semaphoreGeneration), AcquireTimeout)]
    {
      if swapChainExtent.width != resolution.width || swapChainExtent.height != resolution.height {
        var outcome := RebuildForResolution(resolution, newSupport, granted, acquired);
        if outcome.Fail? {
          return Failure(outcome.error);
        }
      }
      return Success(true);
    }

    /**
     * The rebuilding branch of ResizeBuffersPrimary: wait for the graphics
     * queue, recreate the semaphores and the surface (which releases the swap
     * chain), release the render buffers and create the resolution-dependent
     * resources for the requested resolution.  The render passes and the
     * vsync interval are kept.
     */
    method RebuildForResolution(resolution: Extent2D, newSupport: SurfaceSupport, granted: u32, acquired: u32)
      returns (r: Outcome<ContextError>)
      requires Valid()
      requires 1 <= granted <= MaxNumColorBuffers && acquired < granted
      modifies this`semaphoreGeneration, this`swapChain, this`surfaceGeneration, this`support, this`swapChainFormat,
               this`swapChainExtent, this`swapChainGeneration, this`numSwapChainBuffers, this`presentImageIndex,
               this`trace, this`depthStencilBuffer, imageViews, framebuffers, colorBuffers
      ensures semaphoreGeneration == old(semaphoreGeneration) + 1
      ensures surfaceGeneration == old(surfaceGeneration) + 1 && support == newSupport
      ensures r.Fail? <==> PickSwapSurfaceFormat(newSupport.formats).Failure?
      ensures r.Fail? ==>
        r.error == ConfigurationError(NoSurfaceFormats) && swapChain.None? &&
        trace == old(trace) + [QueueWaitIdle]
      ensures r.Pass? ==>
        Valid() &&
        swapChainFormat == PickSwapSurfaceFormat(newSupport.formats).value &&
        ResourcesFor(resolution, granted, acquired, old(swapChainGeneration), old(numSwapChainBuffers),
                     old(colorBuffers[..]), old(numSwapChainBuffers)) &&
        trace == old(trace) + [QueueWaitIdle, AcquireNextImage(swapChainGeneration, ImageAvailable(semaphoreGeneration), AcquireTimeout)]
    {
      ValidSlotsOlderThanNext();
      trace := trace + [QueueWaitIdle];
      CreatePresentSemaphores();
      var surfaceOutcome := CreateGpuSurface(newSupport);
      if surfaceOutcome.Fail? {
        return Fail(ConfigurationError(surfaceOutcome.error));
      }
      RecreateRenderResources(resolution, granted, acquired);
      return Pass;
    }

    /** The last stage of a resize: release the render buffers, then create the resolution-dependent resources. */
    method RecreateRenderResources(resolution: Extent2D, granted: u32, acquired: u32)
      requires Configured() && SlotsOlderThan(swapChainGeneration + 1) && numSwapChainBuffers <= MaxNumColorBuffers
      requires 1 <= granted <= MaxNumColorBuffers && acquired < granted
      modifies this`swapChainExtent, this`swapChain, this`swapChainGeneration, this`numSwapChainBuffers,
               this`presentImageIndex, this`trace, this`depthStencilBuffer, imageViews, framebuffers, colorBuffers
      ensures Valid()
      ensures ResourcesFor(resolution, granted, acquired, old(swapChainGeneration), old(numSwapChainBuffers),
                           old(colorBuffers[..]), old(numSwapChainBuffers))
      ensures trace == old(trace) + [AcquireNextImage(swapChainGeneration, ImageAvailable(semaphoreGeneration), AcquireTimeout)]
    {
      ReleaseRenderBuffers();
      CreateResolutionDependentResources(resolution, granted, acquired);
    }

    /** GetVkFramebuffer: the framebuffer of the image acquired for presentation. */
    function GetVkFramebuffer(): (r: Framebuffer)
      requires Valid()
      reads this, imageViews, framebuffers, colorBuffers
      ensures r.Framebuffer? && r.renderPass == PrimaryPass
      ensures |r.attachments| > 0 && r.attachments[0] == SwapChainImageView(swapChainGeneration, presentImageIndex)
      ensures r.width == swapChainExtent.width && r.height == swapChainExtent.height
      ensures HasMultiSampling() ==> |r.attachments| > 0 && r.attachments[|r.attachments| - 1] == ColorBufferViewOf(colorBuffers[presentImageIndex], presentImageIndex)
    {
      framebuffers[presentImageIndex]
    }

    /** GetSwapChainRenderPass: the primary pass, which leaves the previous contents undefined. */
    function GetSwapChainRenderPass(): (r: RenderPassDescriptor)
      requires Valid()
      reads this, imageViews, framebuffers, colorBuffers
      ensures r == RenderPassFor(samples, PassColorFormat(), depthStencilFormat, false)
      ensures r != GetSecondaryVkRenderPass()
    {
      PrimaryAndSecondaryDifferOnlyInLoadOp(samples, PassColorFormat(), depthStencilFormat);
      primaryPass
    }

    /** GetSecondaryVkRenderPass: the secondary pass, which loads the previous contents. */
    function GetSecondaryVkRenderPass(): (r: RenderPassDescriptor)
      requires Valid()
      reads this, imageViews, framebuffers, colorBuffers
      ensures r == RenderPassFor(samples, PassColorFormat(), depthStencilFormat, true)
    {
      secondaryPass
    }

    /** Once constructed, a context always has a depth-stencil buffer, even when no depth or stencil bits were requested. */
    lemma ValidHasDepthStencilBuffer()
      requires Valid()
      ensures HasDepthStencilBuffer() && DepthStencilViewOf(depthStencilBuffer) == DepthStencilBufferView
      ensures forall i :: 0 <= i < numSwapChainBuffers ==>
        |framebuffers[i].attachments| >= 2 && framebuffers[i].attachments[1] == DepthStencilBufferView
    {
    }

    /**
     * In a valid context the two tests decide the framebuffer layout: every
     * live framebuffer has the color view and the depth-stencil view, and a
     * third attachment, the image's multi-sample color view, exactly with
     * multi-sampling.
     */
    lemma ValidFramebufferLayout()
      requires Valid()
      ensures HasDepthStencilBuffer()
      ensures forall i :: 0 <= i < numSwapChainBuffers ==>
        |framebuffers[i].attachments| == (if HasMultiSampling() then 3 else 2) &&
        (HasMultiSampling() <==>
          framebuffers[i].attachments[|framebuffers[i].attachments| - 1] == ColorBufferViewOf(colorBuffers[i], i))
    {
    }

    method CreatePresentSemaphores()
      modifies this`semaphoreGeneration
      ensures semaphoreGeneration == old(semaphoreGeneration) + 1
    {
      semaphoreGeneration := semaphoreGeneration + 1;
    }

    /**
     * CreateGpuSurface: release the swap chain, create a new surface, query
     * its support details and pick the surface format (which throws for an
     * empty format list).
     */
    method CreateGpuSurface(newSupport: SurfaceSupport) returns (r: Outcome<ConfigError>)
      modifies this`swapChain, this`surfaceGeneration, this`support, this`swapChainFormat
      ensures swapChain.None? && surfaceGeneration == old(surfaceGeneration) + 1 && support == newSupport
      ensures r.Pass? <==> PickSwapSurfaceFormat(newSupport.formats).Success?
      ensures r.Pass? ==> swapChainFormat == PickSwapSurfaceFormat(newSupport.formats).value
      ensures r.Fail? ==> r.error == NoSurfaceFormats && swapChainFormat == old(swapChainFormat)
    {
      swapChain := None;
      surfaceGeneration := surfaceGeneration + 1;
      support := newSupport;
      var picked := PickSwapSurfaceFormat(support.formats);
      if picked.Failure? {
        return Fail(picked.error);
      }
      swapChainFormat := picked.value;
      return Pass;
    }

    method CreateSwapChainRenderPass()
      modifies this`primaryPass
      ensures primaryPass == RenderPassFor(samples, swapChainFormat.format, depthStencilFormat, false)
    {
      primaryPass := RenderPassFor(samples, swapChainFormat.format, depthStencilFormat, false);
    }

    method CreateSecondaryRenderPass()
      modifies this`secondaryPass
      ensures secondaryPass == RenderPassFor(samples, swapChainFormat.format, depthStencilFormat, true)
    {
      secondaryPass := RenderPassFor(samples, swapChainFormat.format, depthStencilFormat, true);
    }

    /** AcquireNextPresentImage: the driver's image index, signalling the image-available semaphore. */
    method AcquireNextPresentImage(acquired: u32)
      modifies this`presentImageIndex, this`trace
      ensures presentImageIndex == acquired
      ensures trace == old(trace) + [AcquireNextImage(swapChainGeneration, ImageAvailable(semaphoreGeneration), AcquireTimeout)]
    {
      trace := trace + [AcquireNextImage(swapChainGeneration, ImageAvailable(semaphoreGeneration), AcquireTimeout)];
      presentImageIndex := acquired;
    }

    /** CreateSwapChainImageViews: one view per granted image; the other slots keep what they held. */
    method CreateSwapChainImageViews()
      requires ArraysSized() && numSwapChainBuffers <= MaxNumColorBuffers
      modifies imageViews
      ensures forall i :: 0 <= i < numSwapChainBuffers ==> imageViews[i] == SwapChainImageView(swapChainGeneration, i)
      ensures forall i :: numSwapChainBuffers <= i < MaxNumColorBuffers ==> imageViews[i] == old(imageViews[i])
    {
      var i: u32 := 0;
      while i < numSwapChainBuffers
        invariant i <= numSwapChainBuffers
        invariant forall j :: 0 <= j < i ==> imageViews[j] == SwapChainImageView(swapChainGeneration, j)
        invariant forall j :: i <= j < MaxNumColorBuffers ==> imageViews[j] == old(imageViews[j])
      {
        imageViews[i] := SwapChainImageView(swapChainGeneration, i);
        i := i + 1;
      }
    }

    /**
     * CreateSwapChain: a new swap chain with the clamped extent, the present
     * mode for `interval`, the previous image count as the minimum and the
     * sharing mode for the queue families; then the granted image count, new
     * image views and the first acquire.
     */
    method CreateSwapChain(resolution: Extent2D, interval: u32, granted: u32, acquired: u32)
      requires ArraysSized()
      requires 1 <= granted <= MaxNumColorBuffers && acquired < granted
      modifies this`swapChainExtent, this`swapChain, this`swapChainGeneration, this`numSwapChainBuffers,
               this`presentImageIndex, this`trace, imageViews
      ensures swapChainExtent == PickSwapExtent(support.caps, resolution)
      ensures swapChainGeneration == old(swapChainGeneration) + 1
      ensures swapChain.Some?
      ensures var info := swapChain.value;
        info.generation == swapChainGeneration && info.surface == surfaceGeneration &&
        info.minImageCount == old(numSwapChainBuffers) && info.format == swapChainFormat &&
        info.extent == swapChainExtent &&
        info.presentMode == PickSwapPresentMode(support.presentModes, interval) &&
        (info.sharingMode, info.queueFamilyIndexCount) == SwapChainSharing(queueFamilies) &&
        info.preTransform == support.caps.currentTransform
      ensures numSwapChainBuffers == granted && presentImageIndex == acquired
      ensures forall i :: 0 <= i < granted ==> imageViews[i] == SwapChainImageView(swapChainGeneration, i)
      ensures forall i :: granted <= i < MaxNumColorBuffers ==> imageViews[i] == old(imageViews[i])
      ensures trace == old(trace) + [AcquireNextImage(swapChainGeneration, ImageAvailable(semaphoreGeneration), AcquireTimeout)]
    {
      swapChainExtent := PickSwapExtent(support.caps, resolution);
      var presentMode := PickSwapPresentMode(support.presentModes, interval);
      var sharing := SwapChainSharing(queueFamilies);
      swapChainGeneration := swapChainGeneration + 1;
      swapChain := Some(SwapChainInfo(
        swapChainGeneration, surfaceGeneration, numSwapChainBuffers, swapChainFormat, swapChainExtent,
        presentMode, sharing.0, sharing.1, support.caps.currentTransform));
      numSwapChainBuffers := granted;
      CreateSwapChainImageViews();
      AcquireNextPresentImage(acquired);
    }

    /**
     * CreateSwapChainFramebuffers: the attachment slots are numbered color,
     * then depth-stencil if there is a depth-stencil format, then the
     * multi-sample color buffer if multi-sampling is on; one framebuffer per
     * image, with the primary pass and the swap-chain extent.
     */
    method CreateSwapChainFramebuffers()
      requires ArraysSized() && numSwapChainBuffers <= MaxNumColorBuffers
      modifies framebuffers
      ensures forall i :: 0 <= i < numSwapChainBuffers ==>
        framebuffers[i] == SwapChainFramebuffer(imageViews[i], DepthStencilAttachment(depthStencilFormat, depthStencilBuffer), MultiSampleAttachment(colorBuffers[i], i), swapChainExtent)
      ensures forall i :: numSwapChainBuffers <= i < MaxNumColorBuffers ==> framebuffers[i] == old(framebuffers[i])
    {
      var attachments: seq<ImageView> := [NullView, NullView, NullView];
      var numAttachments: nat := 0;
      var attachmentDSV: nat := 0;
      var attachmentColor: nat := 0;
      var attachmentColorMS: nat := 0;

      attachmentColor := numAttachments;
      numAttachments := numAttachments + 1;

      if HasDepthStencilBuffer() {
        attachmentDSV := numAttachments;
        numAttachments := numAttachments + 1;
        attachments := attachments[attachmentDSV := DepthStencilViewOf(depthStencilBuffer)];
      }

      if HasMultiSampling() {
        attachmentColorMS := numAttachments;
        numAttachments := numAttachments + 1;
      }

      var dsView := DepthStencilAttachment(depthStencilFormat, depthStencilBuffer);
      var i: u32 := 0;
      while i < numSwapChainBuffers
        invariant i <= numSwapChainBuffers
        invariant |attachments| == 3 && attachmentColor == 0
        invariant numAttachments == 1 + (if dsView.Some? then 1 else 0) + (if HasMultiSampling() then 1 else 0)
        invariant dsView.Some? ==> attachmentDSV == 1 && attachments[1] == dsView.value
        invariant HasMultiSampling() ==> attachmentColorMS == numAttachments - 1
        invariant forall j :: 0 <= j < i ==>
          framebuffers[j] == SwapChainFramebuffer(imageViews[j], DepthStencilAttachment(depthStencilFormat, depthStencilBuffer), MultiSampleAttachment(colorBuffers[j], j), swapChainExtent)
        invariant forall j :: i <= j < MaxNumColorBuffers ==> framebuffers[j] == old(framebuffers[j])
      {
        attachments := attachments[attachmentColor := imageViews[i]];
        var msView := MultiSampleAttachment(colorBuffers[i], i);
        if HasMultiSampling() {
          attachments := attachments[attachmentColorMS := ColorBufferViewOf(colorBuffers[i], i)];
        }
        AttachmentSlotsInOrder(attachments, numAttachments, imageViews[i], dsView, msView);
        framebuffers[i] := Framebuffer(PrimaryPass, attachments[..numAttachments], swapChainExtent.width, swapChainExtent.height, 1);
        i := i + 1;
      }
    }

    /** CreateDepthStencilBuffer: sized with the requested (unclamped) resolution. */
    method CreateDepthStencilBuffer(resolution: Extent2D)
      modifies this`depthStencilBuffer
      ensures depthStencilBuffer == Buffer(resolution, depthStencilFormat, samples)
    {
      depthStencilBuffer := Buffer(resolution, depthStencilFormat, samples);
    }

    /** CreateColorBuffers: one multi-sample buffer per granted image, sized with the requested resolution. */
    method CreateColorBuffers(resolution: Extent2D)
      requires ArraysSized() && numSwapChainBuffers <= MaxNumColorBuffers
      modifies colorBuffers
      ensures forall i :: 0 <= i < numSwapChainBuffers ==> colorBuffers[i] == Buffer(resolution, swapChainFormat.format, samples)
      ensures forall i :: numSwapChainBuffers <= i < MaxNumColorBuffers ==> colorBuffers[i] == old(colorBuffers[i])
    {
      var i: u32 := 0;
      while i < numSwapChainBuffers
        invariant i <= numSwapChainBuffers
        invariant forall j :: 0 <= j < i ==> colorBuffers[j] == Buffer(resolution, swapChainFormat.format, samples)
        invariant forall j :: i <= j < MaxNumColorBuffers ==> colorBuffers[j] == old(colorBuffers[j])
      {
        colorBuffers[i] := Buffer(resolution, swapChainFormat.format, samples);
        i := i + 1;
      }
    }

    /** ReleaseRenderBuffers: the depth-stencil buffer, and with multi-sampling the color buffers of the granted images. */
    method ReleaseRenderBuffers()
      requires ArraysSized() && numSwapChainBuffers <= MaxNumColorBuffers
      modifies this`depthStencilBuffer, colorBuffers
      ensures depthStencilBuffer == NoBuffer
      ensures forall i :: 0 <= i < MaxNumColorBuffers ==>
        colorBuffers[i] == if HasMultiSampling() && i < numSwapChainBuffers then NoBuffer else old(colorBuffers[i])
    {
      depthStencilBuffer := NoBuffer;
      if HasMultiSampling() {
        var i: u32 := 0;
        while i < numSwapChainBuffers
          invariant i <= numSwapChainBuffers && depthStencilBuffer == NoBuffer
          invariant forall j :: 0 <= j < i ==> colorBuffers[j] == NoBuffer
          invariant forall j :: i <= j < MaxNumColorBuffers ==> colorBuffers[j] == old(colorBuffers[j])
        {
          colorBuffers[i] := NoBuffer;
          i := i + 1;
        }
      }
    }

    /**
     * CreateResolutionDependentResources: the swap chain (with the stored
     * vsync interval), the multi-sample color buffers, the depth-stencil
     * buffer and the framebuffers, in that order.
     */
    method CreateResolutionDependentResources(resolution: Extent2D, granted: u32, acquired: u32)
      requires Configured() && SlotsOlderThan(swapChainGeneration + 1)
      requires 1 <= granted <= MaxNumColorBuffers && acquired < granted
      modifies this`swapChainExtent, this`swapChain, this`swapChainGeneration, this`numSwapChainBuffers,
               this`presentImageIndex, this`trace, this`depthStencilBuffer, imageViews, framebuffers, colorBuffers
      ensures Valid()
      ensures ResourcesFor(resolution, granted, acquired, old(swapChainGeneration), old(numSwapChainBuffers), old(colorBuffers[..]), 0)
      ensures trace == old(trace) + [AcquireNextImage(swapChainGeneration, ImageAvailable(semaphoreGeneration), AcquireTimeout)]
    {
      CreateSwapChain(resolution, vsyncInterval, granted, acquired);
      if HasMultiSampling() {
        CreateColorBuffers(resolution);
      }
      if depthStencilFormat != Undefined {
        CreateDepthStencilBuffer(resolution);
      }
      CreateSwapChainFramebuffers();
    }
  }

  /**
   * A request outside the surface's bounds never equals the clamped extent
   * stored after a resize, so repeating it rebuilds the swap chain again.
   */
  lemma ClampedRequestNeverMatchesExtent(caps: SurfaceCapabilities, resolution: Extent2D)
    requires caps.minImageExtent.width <= caps.maxImageExtent.width
    requires caps.minImageExtent.height <= caps.maxImageExtent.height
    requires !ExtentWithin(caps, resolution)
    ensures PickSwapExtent(caps, resolution) != resolution
  {
    PickSwapExtentWithinBounds(caps, resolution);
  }
}
