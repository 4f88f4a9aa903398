# LLGL swap-chain, device helpers and format classification in Dafny

This project models the core of LLGL, a rendering abstraction layer over several native graphics APIs. It covers four parts:

- **The Vulkan render context** (`VKRenderContext`). This is a swap chain with three fixed per-image slots each for image views, framebuffers and multi-sample color buffers.
  - It picks a surface format, a present mode, an extent, an image count and a depth-stencil format from what the surface and the device report.
  - It builds a primary and a secondary render pass.
  - It rebuilds its resolution-dependent resources on resize and on a change of the vertical-sync interval.
  - Each `Present` submits, presents and acquires the next image.
- **The Vulkan device helpers** (`VKDevice`). These are the logical device with its queue create infos, one-shot command buffers, image layout transitions, the copy/resolve bracket around an image transfer, and the mip-chain blit schedule of `GenerateMips`.
- **The Direct3D 12 device** (`D3D12Device`). This covers the multisample-count search, for one render-target format and for several, and device creation with a fallback through a list of feature levels.
- **The `Format` and `DataType` enumerations** of `include/LLGL/Format.h` and their classification predicates.

## Files

- `common.dfy`: unsigned 32-bit integers, the `Option`/`Result`/`Outcome` types, and the first-match list scan.
- `formats.dfy`: the format and data-type enumerations and their predicates.
- `vk_types.dfy`: the Vulkan formats, layouts and capability records.
- `swap_chain_config.dfy`: the side-effect-free selection rules of the render context.
- `vk_render_context.dfy`: the class `RenderContext`.
- `vk_device.dfy`: the command buffer, the recording helpers and the class `Device`.
- `d3d12_device.dfy`: the sample-count search and the class `Device`.

## How native calls are modelled

Native calls become parameters or recorded values:

- What the driver reports is an input of the operation that asks for it: the surface support details, the number of swap-chain images granted, the image index handed out by an acquire, the set of formats supported as depth-stencil attachments, whether a submit or a present succeeds, the `CheckFeatureSupport` answers (a map from (format, sample count) to the number of quality levels, holding only the pairs answered with `S_OK`), and the `D3D12CreateDevice` result for each feature level.
- Native objects are generation counters: the n-th swap chain, surface or semaphore pair.
- The queue operations of the render context go into an event trace.
- A command buffer is an object whose list of commands each recording method appends to. Every recording method is proved equal to a function that gives the commands it records, and the properties of a recording are lemmas about those functions.

Where the intended behaviour (the code's comments, Vulkan's conventions) and the code disagree, the model follows the code:

- **Resize check.** `ResizeBuffersPrimary` compares the *requested* resolution, not the clamped extent, with the stored extent. A request outside the surface bounds therefore rebuilds every time (`ClampedRequestNeverMatchesExtent`).
- **Image count.** `PickSwapChainSize` clamps with `maxImageCount` as given, so a maximum of 0 ("no limit" in Vulkan) clamps to `minImageCount` (`ZeroMaxImageCountIsABound`).
- **Present mode.** With vsync off, the first MAILBOX *or* IMMEDIATE mode in list order wins. Mailbox is not preferred (`FirstLowLatencyModeWins`).
- **No depth or stencil bits.** A request of 0 depth and 0 stencil bits still goes through the preference list and picks a real depth format. The context never ends up without a depth-stencil buffer (`PickedDepthStencilFormatHasDepth`, `ValidHasDepthStencilBuffer`).
- **Unused slots.** Slots above the granted image count are not reset. After the image count shrinks they keep views and framebuffers of an older swap chain. `Valid` states only that they are null or older than the current swap chain.
- **Buffer sizes.** The depth-stencil and multi-sample color buffers take the requested resolution. The framebuffers take the clamped swap-chain extent.
- **Render passes.** They are built once at construction and are not rebuilt when a resize picks a different surface format.
- **Initial sample count.** The header's default of 1 sample is overridden in the member initialisers by the clamped sample count of the descriptor, which the constructor takes as a parameter.

## Model

| member | source | states |
|---|---|---|
| Formats.IsCompressedFormat | include/LLGL/Format.h:207-212 | true exactly for BC1RGB, BC1RGBA, BC2RGBA and BC3RGBA |
| Formats.IsDepthStencilFormat | include/LLGL/Format.h:214-219 | true exactly for D16UNorm, D24UNormS8UInt, D32Float and D32FloatS8X24UInt |
| Formats.HasStencilComponent | include/LLGL/Format.h:101-105 | only D24UNormS8UInt and D32FloatS8X24UInt carry stencil, and both are depth-stencil formats |
| Formats.IsNormalizedFormat | include/LLGL/Format.h:221-228 | a normalized format is neither depth-stencil, nor compressed, nor undefined |
| Formats.IsIntegralFormat | include/LLGL/Format.h:230-236 | every normalized format is integral; no integral format is depth-stencil or compressed |
| Formats.IsFloatFormat | include/LLGL/Format.h:238-245 | a float format is neither depth-stencil nor compressed, and never integral |
| Formats.ColorFormatsAreIntegralOrFloat | include/LLGL/Format.h:230-245 | every color format is exactly one of integral or floating-point |
| Formats.NormalizedFormatsByName | include/LLGL/Format.h:33-93 | the normalized formats are exactly the 8- and 16-bit UNorm/SNorm formats with one to four components |
| Formats.DataTypeSize | include/LLGL/Format.h:255-256 | the size in bytes is the bit width of the enumeration comment divided by 8: 1, 2, 4 or 8 |
| Formats.IsIntDataType | include/LLGL/Format.h:258-262 | true exactly for Int8, Int16 and Int32 |
| Formats.IsUIntDataType | include/LLGL/Format.h:264-268 | true exactly for UInt8, UInt16 and UInt32 |
| Formats.IsFloatDataType | include/LLGL/Format.h:270-274 | true exactly for Float and Double |
| Formats.DataTypeKindsPartition | include/LLGL/Format.h:258-274 | every data type is exactly one of signed, unsigned or floating-point |
| Formats.DataTypeSizes | include/LLGL/Format.h:118-136 | Int8 through Double have 1, 1, 2, 2, 4, 4, 4 and 8 bytes |
| VkTypes.DepthTestsAgreeWithFormats | sources/Renderer/Vulkan/VKDevice.cpp:193-204 | the depth and stencil tests on a Vulkan format agree with LLGL's classification of its LLGL counterpart; only D16_UNORM_S8_UINT has no counterpart |
| SwapChainConfig.PickSwapSurfaceFormat | sources/Renderer/Vulkan/VKRenderContext.cpp:496-511 | an empty list is an error, and only an empty list is; a lone UNDEFINED entry yields B8G8R8A8_UNORM with sRGB non-linear |
| SwapChainConfig.PickSwapSurfaceFormatFromList | sources/Renderer/Vulkan/VKRenderContext.cpp:505-510 | outside the lone-UNDEFINED case the result is a list member: the default pair if listed, else the first entry |
| SwapChainConfig.PickSwapPresentMode | sources/Renderer/Vulkan/VKRenderContext.cpp:513-525 | a nonzero interval always gives FIFO; any result is FIFO or a low-latency mode |
| SwapChainConfig.PickSwapPresentModeFirstLowLatency | sources/Renderer/Vulkan/VKRenderContext.cpp:515-522 | with interval 0: FIFO when no mailbox or immediate mode is listed, else the first such mode in list order |
| SwapChainConfig.FirstLowLatencyModeWins | sources/Renderer/Vulkan/VKRenderContext.cpp:518-521 | [FIFO, IMMEDIATE, MAILBOX] with vsync off gives IMMEDIATE |
| SwapChainConfig.ClampComponent | sources/Renderer/Vulkan/VKRenderContext.cpp:527-534 | with lo <= hi the result lies in [lo, hi] and keeps a value already inside; below lo gives lo, above hi gives hi; reversed bounds give lo |
| SwapChainConfig.PickSwapExtent | sources/Renderer/Vulkan/VKRenderContext.cpp:527-534 | width and height are each clamped into the surface's own bounds for that component |
| SwapChainConfig.PickSwapExtentWithinBounds | sources/Renderer/Vulkan/VKRenderContext.cpp:527-534 | with consistent bounds the chosen extent lies within them, and an extent already within is unchanged |
| SwapChainConfig.PickSwapExtentComponentwise | sources/Renderer/Vulkan/VKRenderContext.cpp:527-534 | each component of the result depends only on the same component of the request |
| SwapChainConfig.PickSwapExtentIdempotent | sources/Renderer/Vulkan/VKRenderContext.cpp:527-534 | clamping a clamped extent changes nothing |
| SwapChainConfig.PickSwapChainSize | sources/Renderer/Vulkan/VKRenderContext.cpp:563-566 | at least minImageCount; at most maxImageCount when the bounds are consistent; the request itself when within the bounds; minImageCount when maxImageCount is 0 |
| SwapChainConfig.ZeroMaxImageCountIsABound | sources/Renderer/Vulkan/VKRenderContext.cpp:563-566 | a maximum of 0 is not "unbounded": a request above the minimum is not granted |
| SwapChainConfig.DepthStencilFormatPreference | sources/Renderer/Vulkan/VKRenderContext.cpp:536-549 | 3 or 4 distinct depth formats; (32, 0) starts with D32_SFLOAT ahead of every stencil format; (32, nonzero) starts with D32_SFLOAT_S8_UINT and lists only stencil formats; any other request starts with D24_UNORM_S8_UINT; with stencil requested, stencil formats come first |
| SwapChainConfig.PickDepthStencilFormat | sources/Renderer/Vulkan/VKRenderContext.cpp:551-561 | fails exactly when no preferred format is supported; otherwise returns the first preferred format that is supported |
| SwapChainConfig.PickedDepthStencilFormatHasDepth | sources/Renderer/Vulkan/VKRenderContext.cpp:536-561 | whatever bits are requested, a successful pick has a depth component |
| SwapChainConfig.DepthStencilScenario | sources/Renderer/Vulkan/VKRenderContext.cpp:536-561 | 24 depth and 8 stencil bits with only D24_UNORM_S8_UINT supported pick D24_UNORM_S8_UINT |
| SwapChainConfig.RenderPassFor | sources/Renderer/Vulkan/VKRenderContext.cpp:264-290 | the descriptor has the context's sample count and one color attachment; a depth attachment exactly when the format has depth, a stencil attachment exactly when it has stencil; all attachments store, and load only in the secondary pass |
| SwapChainConfig.PrimaryAndSecondaryDifferOnlyInLoadOp | sources/Renderer/Vulkan/VKRenderContext.cpp:264-300 | the two passes differ; the primary leaves contents undefined and the secondary loads them; both list the same attachment formats in the same order |
| SwapChainConfig.SwapChainSharing | sources/Renderer/Vulkan/VKRenderContext.cpp:330-341 | concurrent sharing with 2 family indices exactly when the graphics and present families differ, else exclusive with 0 |
| SwapChainConfig.EndToEndSelection | sources/Renderer/Vulkan/VKRenderContext.cpp:496-566 | min 2, max 3 images, 4 requested gives 3; the sRGB BGRA list gives that format; FIFO only with vsync on gives FIFO |
| VkRenderContext.FramebufferAttachments | sources/Renderer/Vulkan/VKRenderContext.cpp:405-423 | color at index 0, the depth-stencil view (if any) at index 1, the multi-sample view (if any) last; 1 to 3 attachments |
| VkRenderContext.AttachmentSlotsInOrder | sources/Renderer/Vulkan/VKRenderContext.cpp:438-447 | slots filled by their attachment indices give exactly the ordered attachment list |
| VkRenderContext.PresentCycle | sources/Renderer/Vulkan/VKRenderContext.cpp:88-130 | submit with no command buffers waiting at color-attachment output; present waits on what the submit signals; the acquire signals what the submit waited on, on the same swap chain |
| VkRenderContext.PresentCyclesChain | sources/Renderer/Vulkan/VKRenderContext.cpp:88-130 | each present's submit waits on the semaphore the previous present's acquire signalled |
| VkRenderContext.ClampedRequestNeverMatchesExtent | sources/Renderer/Vulkan/VKRenderContext.cpp:183-185 | with consistent surface bounds, a request outside them never equals the clamped extent stored for it, so resizing to it again rebuilds |
| VkRenderContext.RenderContext.ValidFramebufferLayout | sources/Renderer/Vulkan/VKRenderContext.cpp:415-447 | the two tests decide the framebuffer layout of a valid context: the depth-stencil test always holds, so every live framebuffer has the depth-stencil view; it has three attachments, the last being its image's multi-sample color view, exactly when multi-sampling is on, and two otherwise |
| VkRenderContext.RenderContext.constructor | sources/Renderer/Vulkan/VKRenderContext.h:119-146 | three fresh slot arrays of null views, null framebuffers and no color buffers; one swap-chain buffer, image index 0, vsync interval 0, undefined depth-stencil format, zero extent, no swap chain |
| VkRenderContext.RenderContext.ConfigureSwapChain | sources/Renderer/Vulkan/VKRenderContext.cpp:69-81 | new semaphores and surface; fails exactly when the surface offers no format or no depth format is supported, with that error; on success stores the picked surface format, image count and depth format and builds both passes on them |
| VkRenderContext.RenderContext.Initialize | sources/Renderer/Vulkan/VKRenderContext.cpp:69-85 | the same failure cases; on success the context is valid with vsync interval 0, generation 1 of every native object, the resources for the requested resolution, and the first acquire as its only event |
| VkRenderContext.RenderContext.Create | sources/Renderer/Vulkan/VKRenderContext.cpp:42-86 | construction fails exactly when no surface format or no depth-stencil format is available, with that error; otherwise a fresh valid context with vsync 0 and the picked formats |
| VkRenderContext.RenderContext.Present | sources/Renderer/Vulkan/VKRenderContext.cpp:88-130 | succeeds exactly when submit and present succeed; appends the submit/present/acquire cycle up to the failing call; on success the image index is the acquired one and the context is valid again |
| VkRenderContext.RenderContext.SetVsyncInterval | sources/Renderer/Vulkan/VKRenderContext.cpp:152-162 | always true and keeps the context valid; an equal interval changes nothing; another interval stores it and recreates the swap chain with its present mode and the previous image count, keeping semaphores and buffers |
| VkRenderContext.RenderContext.ResizeBuffersPrimary | sources/Renderer/Vulkan/VKRenderContext.cpp:181-199 | a request equal to the stored extent returns true and changes nothing; any other waits for the queue, renews semaphores and surface, and fails exactly when the new surface has no format, leaving no swap chain; otherwise returns true with a valid context holding the swap chain, buffers and framebuffers for the new resolution and one new acquire; vsync interval, depth format and passes are kept |
| VkRenderContext.RenderContext.RebuildForResolution | sources/Renderer/Vulkan/VKRenderContext.cpp:183-197 | waits for the queue, renews semaphores and surface; the no-format error leaves no swap chain; otherwise the resources for the new resolution, with released color buffers null |
| VkRenderContext.RenderContext.RecreateRenderResources | sources/Renderer/Vulkan/VKRenderContext.cpp:195-196 | releasing the render buffers and then recreating gives a valid context with the resources for the resolution |
| VkRenderContext.RenderContext.GetVkFramebuffer | sources/Renderer/Vulkan/VKRenderContext.h:70-73 | the primary-pass framebuffer of the acquired image: its color view is that image's, it has the swap-chain extent, and with multi-sampling its last attachment is that slot's color buffer |
| VkRenderContext.RenderContext.GetSwapChainRenderPass | sources/Renderer/Vulkan/VKRenderContext.h:57-61 | the primary pass for the context's formats, distinct from the secondary pass |
| VkRenderContext.RenderContext.GetSecondaryVkRenderPass | sources/Renderer/Vulkan/VKRenderContext.h:63-67 | the secondary pass for the context's formats |
| VkRenderContext.RenderContext.ValidHasDepthStencilBuffer | sources/Renderer/Vulkan/VKRenderContext.cpp:483-494 | a constructed context always has a depth-stencil buffer, and every framebuffer has its view at index 1 |
| VkRenderContext.RenderContext.CreatePresentSemaphores | sources/Renderer/Vulkan/VKRenderContext.cpp:214-219 | a new pair of semaphores |
| VkRenderContext.RenderContext.CreateGpuSurface | sources/Renderer/Vulkan/VKRenderContext.cpp:221-262 | releases the swap chain before the new surface; stores its support details and the picked format; fails, keeping the format, exactly when the surface offers none |
| VkRenderContext.RenderContext.CreateSwapChainRenderPass | sources/Renderer/Vulkan/VKRenderContext.cpp:297-300 | the primary pass for the stored formats |
| VkRenderContext.RenderContext.CreateSecondaryRenderPass | sources/Renderer/Vulkan/VKRenderContext.cpp:292-295 | the secondary pass for the stored formats |
| VkRenderContext.RenderContext.AcquireNextPresentImage | sources/Renderer/Vulkan/VKRenderContext.cpp:568-579 | records an acquire with the UINT64_MAX timeout on the current swap chain and image-available semaphore; the image index is the one handed out |
| VkRenderContext.RenderContext.CreateSwapChainImageViews | sources/Renderer/Vulkan/VKRenderContext.cpp:367-403 | one view of the current swap chain per image, in slot order; the other slots are untouched |
| VkRenderContext.RenderContext.CreateSwapChain | sources/Renderer/Vulkan/VKRenderContext.cpp:302-365 | a new swap chain on the current surface with the clamped extent, the format, the present mode for the interval, the previous image count as minimum, the sharing mode for the families and the current transform; then the granted count, new views and one acquire |
| VkRenderContext.RenderContext.CreateSwapChainFramebuffers | sources/Renderer/Vulkan/VKRenderContext.cpp:405-457 | framebuffer i uses the primary pass, view i, the shared depth-stencil view, color buffer i when multi-sampling, and the swap-chain extent with one layer; other slots untouched |
| VkRenderContext.RenderContext.CreateDepthStencilBuffer | sources/Renderer/Vulkan/VKRenderContext.cpp:459-463 | a buffer with the requested resolution, the depth format and the sample count |
| VkRenderContext.RenderContext.CreateColorBuffers | sources/Renderer/Vulkan/VKRenderContext.cpp:465-471 | one buffer per image with the requested resolution, the surface format and the sample count; other slots untouched |
| VkRenderContext.RenderContext.ReleaseRenderBuffers | sources/Renderer/Vulkan/VKRenderContext.cpp:473-481 | the depth-stencil buffer is released, and the color buffers of the current images only with multi-sampling |
| VkRenderContext.RenderContext.CreateResolutionDependentResources | sources/Renderer/Vulkan/VKRenderContext.cpp:483-494 | a valid context whose swap chain, buffers and framebuffers are those for the resolution, the stored vsync interval and the granted count, ending with one acquire |
| VkDevice.ImageAspectFor | sources/Renderer/Vulkan/VKDevice.cpp:193-204 | the depth aspect exactly for formats with depth, the stencil aspect exactly for formats with stencil |
| VkDevice.ImageAspectKinds | sources/Renderer/Vulkan/VKDevice.cpp:193-204 | the aspect is never empty; it contains color only when it is color alone; the undefined format gets color |
| VkDevice.AspectMatchesRenderPass | sources/Renderer/Vulkan/VKDevice.cpp:193-204 | the aspect of a depth-stencil format has depth or stencil exactly when the render pass built on it has that attachment |
| VkDevice.TransitionMasksFor | sources/Renderer/Vulkan/VKDevice.cpp:233-250 | UNDEFINED to TRANSFER_DST: none to transfer-write, top of pipe to transfer; TRANSFER_DST to SHADER_READ: transfer-write to shader-read, transfer to fragment shader; any other pair: no access masks, top to bottom of pipe |
| VkDevice.UploadTransitionsChain | sources/Renderer/Vulkan/VKDevice.cpp:233-250 | the second upload transition waits on the access and stage the first makes available; only the two upload transitions carry access masks |
| VkDevice.TransitionImageLayout | sources/Renderer/Vulkan/VKDevice.cpp:206-254 | appends one barrier over the whole subresource with the format's aspect and the masks of the layout pair |
| VkDevice.TransferImageCommands | sources/Renderer/Vulkan/VKDevice.cpp:304-323 | five commands: the transfer in the middle, between TRANSFER_SRC and TRANSFER_DST, and barriers around it |
| VkDevice.TransferImageRestoresLayouts | sources/Renderer/Vulkan/VKDevice.cpp:304-344 | for two different images the transfer runs with source in TRANSFER_SRC and destination in TRANSFER_DST; afterwards both are back in their original layouts; every barrier names its image's actual old layout; no other image's layout changes |
| VkDevice.TransferImageOntoItself | sources/Renderer/Vulkan/VKDevice.cpp:304-323 | for one image as both source and destination the bracket leaves it in the destination layout |
| VkDevice.CopyImage | sources/Renderer/Vulkan/VKDevice.cpp:304-323 | appends the bracket around a copy |
| VkDevice.ResolveImage | sources/Renderer/Vulkan/VKDevice.cpp:325-344 | appends the bracket around a resolve |
| VkDevice.RecordTransferBracket | sources/Renderer/Vulkan/VKDevice.cpp:313-322 | records two transitions, the transfer and two transitions back, in that order |
| VkDevice.HalveComponent | sources/Renderer/Vulkan/VKDevice.cpp:470-474 | the next mip component is at least 1, never larger than a nonzero current one, and smaller when the current one is at least 2 |
| VkDevice.MipExtentIsHalvedSize | sources/Renderer/Vulkan/VKDevice.cpp:467-535 | each component k halvings down equals max(1, c / 2^k) |
| VkDevice.MipLevelsBelow | sources/Renderer/Vulkan/VKDevice.cpp:467-536 | three commands for each mip level from 1 to upTo - 1, none when upTo is 1 or less |
| VkDevice.MipLevelsBlitCount | sources/Renderer/Vulkan/VKDevice.cpp:467-536 | the level loop emits one blit per level from 1 to upTo - 1 |
| VkDevice.MipLevelsBelowAt | sources/Renderer/Vulkan/VKDevice.cpp:476-532 | the commands of level k sit at positions 3(k-1) to 3k, with the extent k-1 halvings down |
| VkDevice.MipLayerBlitCount | sources/Renderer/Vulkan/VKDevice.cpp:463-551 | each array layer emits exactly numMipLevels - 1 blits, none for one level or fewer |
| VkDevice.MipLayerShape | sources/Renderer/Vulkan/VKDevice.cpp:463-551 | each layer ends with the closing barrier on level numMipLevels - 1; blit k reads level base + k - 1 at the extent k - 1 halvings down and writes level base + k at the next extent |
| VkDevice.MipLayersBelowAt | sources/Renderer/Vulkan/VKDevice.cpp:463-552 | layer l occupies its own consecutive block of the schedule |
| VkDevice.GenerateMipsLayout | sources/Renderer/Vulkan/VKDevice.cpp:426-553 | the initial transition of the whole subresource, then one block per layer with its numMipLevels - 1 blits, the extent starting again from the full extent |
| VkDevice.ClosingBarrierIgnoresBaseMipLevel | sources/Renderer/Vulkan/VKDevice.cpp:538-551 | from a base level above 0, the closing barrier names a level below the last one written |
| VkDevice.GenerateMips | sources/Renderer/Vulkan/VKDevice.cpp:426-553 | appends exactly the mip schedule of every array layer after the initial transition |
| VkDevice.RecordMipLayer | sources/Renderer/Vulkan/VKDevice.cpp:465-551 | appends the level commands of one layer and its closing barrier, keeping the reused barrier on one level of one layer of the image |
| VkDevice.BuildQueueCreateInfos | sources/Renderer/Vulkan/VKDevice.cpp:68-87 | one info per distinct family: graphics first, the present family only if different, one queue each |
| VkDevice.Device.CreateLogicalDevice | sources/Renderer/Vulkan/VKDevice.cpp:57-129 | the deduplicated queue create infos, no layers, the given extensions, queue 0 of the graphics family, and a transient, resettable pool on the graphics family |
| VkDevice.Device.AllocCommandBuffer | sources/Renderer/Vulkan/VKDevice.cpp:131-162 | a new empty buffer from the pool, recording exactly when begin is set |
| VkDevice.Device.FlushCommandBuffer | sources/Renderer/Vulkan/VKDevice.cpp:164-190 | ends recording, submits the buffer's commands, and frees it exactly when release is set |
| D3D12Device.SuitableSampleDesc | sources/Renderer/Direct3D12/D3D12Device.cpp:111-129 | the count is at least 1 and is 1 or at most the maximum |
| D3D12Device.SuitableSampleDescIsLargest | sources/Renderer/Direct3D12/D3D12Device.cpp:118-128 | a count above 1 qualifies with quality NumQualityLevels - 1, and no larger count up to the maximum qualifies; a count of 1 means no count in 2..max qualifies, and then the quality is 0 |
| D3D12Device.SuitableSampleDescAtLeast | sources/Renderer/Direct3D12/D3D12Device.cpp:118-126 | every qualifying count up to the maximum is at most the result |
| D3D12Device.SuitableSampleDescFallback | sources/Renderer/Direct3D12/D3D12Device.cpp:118-128 | a maximum of 1 or less, or no qualifying count, gives {1, 0} |
| D3D12Device.FindSuitableSampleDesc | sources/Renderer/Direct3D12/D3D12Device.cpp:111-129 | the counting-down loop returns the search result for one format |
| D3D12Device.UnknownFormatsSkipped | sources/Renderer/Direct3D12/D3D12Device.cpp:135-139 | UNKNOWN entries make no difference: the result is that of the known formats alone |
| D3D12Device.NoKnownFormats | sources/Renderer/Direct3D12/D3D12Device.cpp:131-142 | with no known format the result is {maxSampleCount, 0} |
| D3D12Device.SampleCountNonIncreasing | sources/Renderer/Direct3D12/D3D12Device.cpp:135-139 | the count after all formats is at most max(1, the count after any prefix) |
| D3D12Device.SampleCountAtMostMax | sources/Renderer/Direct3D12/D3D12Device.cpp:131-142 | the count never exceeds max(1, maxSampleCount) |
| D3D12Device.ResultQualifiesForLastKnownFormat | sources/Renderer/Direct3D12/D3D12Device.cpp:135-139 | a count above 1 qualifies for the last known format, with its highest quality level |
| D3D12Device.EarlierFormatNotRechecked | sources/Renderer/Direct3D12/D3D12Device.cpp:135-139 | a concrete case where the result does not qualify for an earlier format |
| D3D12Device.FindSuitableSampleDescForFormats | sources/Renderer/Direct3D12/D3D12Device.cpp:131-142 | the loop over the formats returns the threaded search result |
| D3D12Device.FirstSuccess | sources/Renderer/Direct3D12/D3D12Device.cpp:23-39 | none exactly when every attempt fails; otherwise the index of a successful attempt with only failures before it |
| D3D12Device.Device.CreateDXDevice | sources/Renderer/Direct3D12/D3D12Device.cpp:19-42 | tries levels in order up to the first success, storing that level and device and returning its result; when all fail, returns the last result and holds no device; with no levels it returns S_OK and keeps the old device; every tried level is recorded in order; the feature level is only stored on success |

## Left out

- Native API calls are not modelled. Their results are the parameters listed above. The `vkCreate*` failures they throw are not modelled either, except the empty surface-format list, an unsupported depth-stencil format and failed submit or present calls.
- The unseen helpers `VKFindQueueFamilies`, `VKQuerySurfaceSupport`, `VKFindSupportedImageFormat`, `GetClampedSamples`, `VKTypes::Unmap`, `IsDepthOrStencilFormat`, `IsDepthFormat` and `IsStencilFormat` are not part of this model. Their results are parameters. The depth and stencil tests are made on the Vulkan format itself (`DepthTestsAgreeWithFormats` ties them to `Format.h`).
- Render-pass descriptors carry the Vulkan format, not its LLGL counterpart, because `Unmap` is not part of this model.
- Fences, `vkQueueWaitIdle`, `vkDeviceWaitIdle` and `VKDevice::WaitIdle` are host/GPU synchronisation. Only the order of the queue events is kept.
- The Win32 and Xlib surface creation is window-system I/O.
- The surface of `SetOrCreateSurface` and the base class `GetResolution` are outside this core. The resolution is a parameter of `SetVsyncInterval`.
- `WriteBuffer`, `ReadBuffer` and `FlushMappedBuffer` rely on mapped memory and `memcpy`.
- `CopyBuffer`, `CopyTexture`, `CopyBufferToImage` and `CopyImageToBuffer` record one native command each, with no logic beyond filling a region.
- The floating-point queue priority and the linear blit filter are not modelled.
- The blit offsets (including their `int32` casts) are not modelled; a blit carries the source and destination mip extents instead.
- Image layouts are tracked per image, not per mip level or array layer.
- The swap-chain queue handles (`vkGetDeviceQueue`) are not modelled; the queue families are fixed when the context is created.
- `DenyLowSeverityWarnings` is debug-only code.
- The other `D3D12Device` creators (`CreateDXCommandQueue`, `CreateDXCommandAllocator`, `CreateDXCommandList`, the two pipeline-state creators and `CreateDXQueryHeap`) wrap one native call each.
- `FormatBitSize` and `SplitFormat` are declared in `Format.h` without their definitions, and their doc comments give no values.
- The OpenGL headers, the OpenGL program pipeline, the Direct3D 12 compute PSO, the command opcode enumeration and the instancing example are outside this core.
- VkRenderContext.RenderContext.Initialize, Create, SetVsyncInterval, ResizeBuffersPrimary, RebuildForResolution, RecreateRenderResources, CreateResolutionDependentResources and CreateSwapChain (every method that creates a swap chain) require the granted image count to be 1 to 3 and the acquired index to be below it. A larger count would overflow the three-slot arrays.
- D3D12Device.Device.CreateDXDevice requires one attempt result per feature level, because that is how the driver's answers are given to it.
- VkDevice.MipExtentIsHalvedSize holds at level 0 only for a nonzero component, because a zero component is not changed by zero halvings.
- D3D12Device.SampleCountAtMostMax bounds the count by max(1, maxSampleCount). With a maximum of 0 and a known format, the single-format search answers one sample.
