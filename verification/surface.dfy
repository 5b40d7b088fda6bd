/** Swapchain negotiation (src/devices.c `choose_swap_surface_format`,
    `choose_swap_present_mode`, the create-info of `create_swapChain`, and the per-image
    records of `create_image_views` and `create_framebuffers`). */
module Surface {
  import opened Vk
  import opened Queues

  /** The format the renderer prefers: 8-bit BGRA, sRGB, non-linear colour space. */
  const PreferredSurfaceFormat := SurfaceFormat(VK_FORMAT_B8G8R8A8_SRGB, VK_COLOR_SPACE_SRGB_NONLINEAR_KHR)

  /** The format scan from position `i`: the index of the first preferred entry. */
  function FindPreferredFormat(formats: seq<SurfaceFormat>, i: nat): (r: Option<nat>)
    requires i <= |formats|
    decreases |formats| - i
    ensures r.Some? ==>
      && i <= r.value < |formats|
      && formats[r.value] == PreferredSurfaceFormat
      && forall k :: i <= k < r.value ==> formats[k] != PreferredSurfaceFormat
    ensures r.None? ==> forall k :: i <= k < |formats| ==> formats[k] != PreferredSurfaceFormat
  {
    if i == |formats| then None
    else if formats[i].format == VK_FORMAT_B8G8R8A8_SRGB
         && formats[i].colorSpace == VK_COLOR_SPACE_SRGB_NONLINEAR_KHR then Some(i)
    else FindPreferredFormat(formats, i + 1)
  }

  /** `choose_swap_surface_format`: the preferred format wherever it is listed, otherwise
      the first format. The source reads `formats.data[0]` unchecked, so the list must
      not be empty (a suitable device guarantees that). */
  function ChooseSwapSurfaceFormat(formats: seq<SurfaceFormat>): (r: SurfaceFormat)
    requires |formats| > 0
    ensures r in formats
    ensures PreferredSurfaceFormat in formats ==> r == PreferredSurfaceFormat
    ensures PreferredSurfaceFormat !in formats ==> r == formats[0]
  {
    match FindPreferredFormat(formats, 0)
    case Some(k) => formats[k]
    case None => formats[0]
  }

  /** The present-mode scan from position `i`. */
  function ChoosePresentModeFrom(presentModes: seq<VkPresentMode>, i: nat): (r: VkPresentMode)
    requires i <= |presentModes|
    decreases |presentModes| - i
    ensures r == VK_PRESENT_MODE_MAILBOX_KHR <==>
      exists k :: i <= k < |presentModes| && presentModes[k] == VK_PRESENT_MODE_MAILBOX_KHR
    ensures r != VK_PRESENT_MODE_MAILBOX_KHR ==> r == VK_PRESENT_MODE_FIFO_KHR
  {
    if i == |presentModes| then VK_PRESENT_MODE_FIFO_KHR
    else if presentModes[i] == VK_PRESENT_MODE_MAILBOX_KHR then presentModes[i]
    else ChoosePresentModeFrom(presentModes, i + 1)
  }

  /** `choose_swap_present_mode`: mailbox if listed anywhere, otherwise FIFO, which every
      surface supports and which is therefore returned even when it is not listed. */
  function ChooseSwapPresentMode(presentModes: seq<VkPresentMode>): (r: VkPresentMode)
    ensures r == VK_PRESENT_MODE_MAILBOX_KHR <==> VK_PRESENT_MODE_MAILBOX_KHR in presentModes
    ensures r != VK_PRESENT_MODE_MAILBOX_KHR ==> r == VK_PRESENT_MODE_FIFO_KHR
  {
    ChoosePresentModeFrom(presentModes, 0)
  }

  /** Without mailbox the choice is FIFO, even for a list that offers only immediate
      presentation and does not list FIFO. */
  lemma PresentModeFallsBackToFifo(presentModes: seq<VkPresentMode>)
    requires VK_PRESENT_MODE_MAILBOX_KHR !in presentModes
    ensures ChooseSwapPresentMode(presentModes) == VK_PRESENT_MODE_FIFO_KHR
    ensures ChooseSwapPresentMode([VK_PRESENT_MODE_IMMEDIATE_KHR]) == VK_PRESENT_MODE_FIFO_KHR
  {
    assert VK_PRESENT_MODE_MAILBOX_KHR !in [VK_PRESENT_MODE_IMMEDIATE_KHR];
  }

  function Min(a: int, b: int): int {
    if a <= b then a else b
  }

  /** The swapchain image count requested by `create_swapChain`. `minImageCount + 1` is
      `uint32_t` arithmetic: without wrap-around the count is `min + 1`, capped by a
      declared (non-zero) maximum; with wrap-around it is zero. */
  function ImageCount(caps: SurfaceCapabilities): (r: uint32)
    ensures caps.minImageCount + 1 < UINT32_MODULUS && caps.maxImageCount == 0 ==>
      r == caps.minImageCount + 1
    ensures caps.minImageCount + 1 < UINT32_MODULUS && caps.maxImageCount > 0 ==>
      r == Min(caps.minImageCount + 1, caps.maxImageCount)
    ensures caps.minImageCount + 1 == UINT32_MODULUS ==> r == 0
  {
    var imageCount := AddU32(caps.minImageCount, 1);
    if caps.maxImageCount > 0 && imageCount > caps.maxImageCount then caps.maxImageCount
    else imageCount
  }

  /** Without wrap-around the request is at least one image, never above `min + 1`,
      never above a declared maximum, and at least `minImageCount` whenever the maximum
      is consistent with the minimum. */
  lemma ImageCountBounds(caps: SurfaceCapabilities)
    requires caps.minImageCount + 1 < UINT32_MODULUS
    ensures 1 <= ImageCount(caps) <= caps.minImageCount + 1
    ensures caps.maxImageCount > 0 ==> ImageCount(caps) <= caps.maxImageCount
    ensures caps.maxImageCount == 0 || caps.maxImageCount >= caps.minImageCount ==>
      ImageCount(caps) >= caps.minImageCount
  {
  }

  /** A surface reporting `minImageCount = 2^32 - 1` makes the request wrap to zero
      images, below the surface's own minimum, whatever maximum it declares. */
  lemma ImageCountWrapsBelowMinimum(caps: SurfaceCapabilities)
    requires caps.minImageCount == UINT32_MODULUS - 1
    ensures ImageCount(caps) == 0 < caps.minImageCount
  {
  }

  const VK_IMAGE_USAGE_COLOR_ATTACHMENT_BIT: bv32 := 0x10
  const VK_COMPOSITE_ALPHA_OPAQUE_BIT_KHR: bv32 := 0x1

  /** The fields of `VkSwapchainCreateInfoKHR` that `create_swapChain` fills in. */
  datatype SwapchainCreateInfo = SwapchainCreateInfo(
    minImageCount: uint32,
    imageFormat: SurfaceFormat,
    imageExtent: Extent2D,
    imageArrayLayers: nat,
    imageUsage: bv32,
    sharing: Sharing,
    preTransform: bv32,
    compositeAlpha: bv32,
    presentMode: VkPresentMode,
    clipped: bool)

  /** The swapchain request built from the chosen device's surface answers. */
  function SwapchainCreateInfoFor(
    caps: SurfaceCapabilities,
    formats: seq<SurfaceFormat>,
    presentModes: seq<VkPresentMode>,
    indices: QueueFamilyIndices,
    extent: Extent2D): (r: SwapchainCreateInfo)
    requires |formats| > 0
    ensures r.imageFormat in formats
    ensures PreferredSurfaceFormat in formats ==> r.imageFormat == PreferredSurfaceFormat
    ensures PreferredSurfaceFormat !in formats ==> r.imageFormat == formats[0]
    ensures r.presentMode == VK_PRESENT_MODE_MAILBOX_KHR <==> VK_PRESENT_MODE_MAILBOX_KHR in presentModes
    ensures r.presentMode == VK_PRESENT_MODE_MAILBOX_KHR || r.presentMode == VK_PRESENT_MODE_FIFO_KHR
    ensures r.sharing.mode == VK_SHARING_MODE_EXCLUSIVE <==> indices.graphicsFamily == indices.presentFamily
    ensures r.sharing.mode == VK_SHARING_MODE_EXCLUSIVE || r.sharing.mode == VK_SHARING_MODE_CONCURRENT
    ensures r.sharing.queueFamilyIndices ==
      if indices.graphicsFamily == indices.presentFamily then [] else [indices.graphicsFamily, indices.presentFamily]
    ensures r.minImageCount == ImageCount(caps)
    ensures r.imageExtent == extent && r.imageArrayLayers == 1
    ensures r.imageUsage == VK_IMAGE_USAGE_COLOR_ATTACHMENT_BIT
    ensures r.preTransform == caps.currentTransform
    ensures r.compositeAlpha == VK_COMPOSITE_ALPHA_OPAQUE_BIT_KHR && r.clipped
  {
    SwapchainCreateInfo(
      ImageCount(caps),
      ChooseSwapSurfaceFormat(formats),
      extent,
      1,
      VK_IMAGE_USAGE_COLOR_ATTACHMENT_BIT,
      SwapchainSharing(indices),
      caps.currentTransform,
      VK_COMPOSITE_ALPHA_OPAQUE_BIT_KHR,
      ChooseSwapPresentMode(presentModes),
      true)
  }

  /** A surface with `minImageCount = 2`, no maximum, the preferred format alone and only
      FIFO gets a request for three images in that format with FIFO presentation. */
  lemma ThreeImageFifoScenario(indices: QueueFamilyIndices, extent: Extent2D)
    ensures var r := SwapchainCreateInfoFor(
              SurfaceCapabilities(2, 0, 0), [PreferredSurfaceFormat], [VK_PRESENT_MODE_FIFO_KHR], indices, extent);
            && r.minImageCount == 3
            && r.imageFormat == PreferredSurfaceFormat
            && r.presentMode == VK_PRESENT_MODE_FIFO_KHR
  {
    assert VK_PRESENT_MODE_MAILBOX_KHR !in [VK_PRESENT_MODE_FIFO_KHR];
  }

  /** The fields of `VkImageViewCreateInfo` that vary: the image and the format. The
      rest are fixed (2D, identity swizzle, colour aspect, one mip level, one layer). */
  datatype ViewInfo = ViewInfo(image: Handle, format: VkFormat)

  /** The fields of `VkFramebufferCreateInfo` that vary: the one attachment and the size.
      The render pass is the renderer's only one. */
  datatype FramebufferInfo = FramebufferInfo(attachment: ViewInfo, width: uint32, height: uint32, layers: nat)

  /** The views `create_image_views` makes when no call fails: one per swapchain image,
      in image order, all in the swapchain format. */
  function ViewsFor(images: seq<Handle>, format: VkFormat): (r: seq<ViewInfo>)
    ensures |r| == |images|
    ensures forall i :: 0 <= i < |r| ==> r[i].image == images[i] && r[i].format == format
  {
    seq(|images|, i requires 0 <= i < |images| => ViewInfo(images[i], format))
  }

  /** The framebuffers `create_framebuffers` makes when no call fails: one per view, in
      view order, each with that view as its single attachment and the swapchain size. */
  function FramebuffersFor(views: seq<ViewInfo>, extent: Extent2D): (r: seq<FramebufferInfo>)
    ensures |r| == |views|
    ensures forall i :: 0 <= i < |r| ==>
      r[i].attachment == views[i] && r[i].width == extent.width && r[i].height == extent.height && r[i].layers == 1
  {
    seq(|views|, i requires 0 <= i < |views| => FramebufferInfo(views[i], extent.width, extent.height, 1))
  }
}
