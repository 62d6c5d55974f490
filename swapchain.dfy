/** src/engine/renderer/swapchain.c: the choice of surface format, present
    mode, extent, image count and sharing mode, and the Swapchain record
    that create_swap_chain and create_image_views fill in. */
module Swapchain {
  import opened Wrappers
  import opened Vulkan
  import opened Utils
  import opened Images

  /** The fields of VkSurfaceCapabilitiesKHR the renderer reads. */
  datatype SurfaceCapabilities = SurfaceCapabilities(
    minImageCount: u32, maxImageCount: u32,
    currentExtent: Extent2D, minImageExtent: Extent2D, maxImageExtent: Extent2D,
    currentTransform: Flags)

  /** The index of the first element of s, at or after `from`, that satisfies p. */
  function FindFirst<T>(s: seq<T>, p: T -> bool, from: nat): (r: Option<nat>)
    requires from <= |s|
    ensures r.Some? ==>
      from <= r.value < |s| && p(s[r.value]) && forall k :: from <= k < r.value ==> !p(s[k])
    ensures r.None? ==> forall k :: from <= k < |s| ==> !p(s[k])
    decreases |s| - from
  {
    if from == |s| then None
    else if p(s[from]) then Some(from)
    else FindFirst(s, p, from + 1)
  }

  predicate PreferredFormat(f: SurfaceFormat) {
    f.format == FORMAT_B8G8R8A8_SRGB && f.colorSpace == COLOR_SPACE_SRGB_NONLINEAR
  }

  /** choose_swap_surface_format: the first B8G8R8A8_SRGB / SRGB_NONLINEAR
      entry, or the first entry when there is none. */
  function ChooseSwapSurfaceFormat(formats: seq<SurfaceFormat>): (f: SurfaceFormat)
    requires |formats| >= 1
    ensures PreferredFormat(f) <==> exists i :: 0 <= i < |formats| && PreferredFormat(formats[i])
    ensures (forall i :: 0 <= i < |formats| ==> !PreferredFormat(formats[i])) ==> f == formats[0]
    ensures exists i ::
      0 <= i < |formats| && f == formats[i] &&
      (PreferredFormat(f) ==> forall k :: 0 <= k < i ==> !PreferredFormat(formats[k]))
  {
    match FindFirst(formats, PreferredFormat, 0)
    case Some(i) => formats[i]
    case None => formats[0]
  }

  /** choose_swap_present_mode: MAILBOX when the surface offers it,
      otherwise the first mode offered. */
  function ChooseSwapPresentMode(modes: seq<PresentMode>): (m: PresentMode)
    requires |modes| >= 1
    ensures PRESENT_MODE_MAILBOX in modes ==> m == PRESENT_MODE_MAILBOX
    ensures PRESENT_MODE_MAILBOX !in modes ==> m == modes[0]
    ensures m in modes
  {
    match FindFirst(modes, (mode: PresentMode) => mode == PRESENT_MODE_MAILBOX, 0)
    case Some(i) => modes[i]
    case None => modes[0]
  }

  /** choose_swap_extent: a current width other than 0xFFFFFFFF means the
      surface size is fixed and is used as is; otherwise the framebuffer
      size (a C `int`, converted to `uint32_t`) is clamped per dimension. */
  function ChooseSwapExtent(caps: SurfaceCapabilities, framebufferWidth: int, framebufferHeight: int): (e: Extent2D)
    ensures caps.currentExtent.width != UINT32_MAX ==> e == caps.currentExtent
    ensures caps.currentExtent.width == UINT32_MAX ==>
      (caps.minImageExtent.width <= caps.maxImageExtent.width ==>
        caps.minImageExtent.width <= e.width <= caps.maxImageExtent.width) &&
      (caps.minImageExtent.height <= caps.maxImageExtent.height ==>
        caps.minImageExtent.height <= e.height <= caps.maxImageExtent.height) &&
      (caps.minImageExtent.width <= framebufferWidth <= caps.maxImageExtent.width ==>
        e.width == framebufferWidth) &&
      (caps.minImageExtent.height <= framebufferHeight <= caps.maxImageExtent.height ==>
        e.height == framebufferHeight)
  {
    if caps.currentExtent.width != UINT32_MAX then
      caps.currentExtent
    else
      Extent2D(Clamp(ToU32(framebufferWidth), caps.minImageExtent.width, caps.maxImageExtent.width),
               Clamp(ToU32(framebufferHeight), caps.minImageExtent.height, caps.maxImageExtent.height))
  }

  /** The image count create_swap_chain asks for: one more than the minimum
      (a `uint32_t` sum), lowered to the maximum when there is one
      (maxImageCount > 0) and the sum exceeds it. */
  function RequestedImageCount(caps: SurfaceCapabilities): (n: u32)
    ensures caps.minImageCount < UINT32_MAX && (caps.maxImageCount == 0 || caps.minImageCount < caps.maxImageCount) ==>
      n == caps.minImageCount + 1
    ensures caps.maxImageCount > 0 && caps.minImageCount < UINT32_MAX ==> n <= caps.maxImageCount
    ensures 0 < caps.maxImageCount <= caps.minImageCount < UINT32_MAX ==> n == caps.maxImageCount
    ensures caps.minImageCount == UINT32_MAX ==> n == 0
  {
    var imageCount := ToU32(caps.minImageCount + 1);
    if caps.maxImageCount > 0 && imageCount > caps.maxImageCount then caps.maxImageCount else imageCount
  }

  /** Sharing mode and queue-family list of the swapchain images. The list
      holds the two indices as found, INVALID_IDX (None) included. */
  datatype Sharing = Sharing(mode: SharingMode, queueFamilyIndices: seq<Option<nat>>)

  /** create_swap_chain, lines 66-79: concurrent sharing over both families
      exactly when the graphics and present families differ. */
  function ChooseSharing(indices: QueueFamilyIndices): (s: Sharing)
    ensures s.mode == Concurrent <==> indices.graphicsFamily != indices.presentFamily
    ensures s.mode == Concurrent ==> s.queueFamilyIndices == [indices.graphicsFamily, indices.presentFamily]
    ensures s.mode == Exclusive ==> s.queueFamilyIndices == []
  {
    if indices.graphicsFamily != indices.presentFamily then
      Sharing(Concurrent, [indices.graphicsFamily, indices.presentFamily])
    else
      Sharing(Exclusive, [])
  }

  datatype SwapchainCreateInfo = SwapchainCreateInfo(
    minImageCount: u32, imageFormat: Format, imageColorSpace: ColorSpace,
    imageExtent: Extent2D, imageArrayLayers: nat, imageUsage: Flags,
    preTransform: Flags, presentMode: PresentMode, clipped: bool,
    sharing: Sharing)

  /** The swapchain: its handle, the images the driver made for it, the
      format and extent it was created with, and one view per image.
      `viewCreateInfos` holds the create info of each view, in order. */
  class Swapchain {
    var swapchain: Handle
    var images: array<Handle>
    var imageCount: u32
    var imageFormat: Format
    var extent: Extent2D
    var imageViews: array<Handle>
    var viewCreateInfos: seq<ImageViewCreateInfo>

    /** Every image has exactly one view, made from the swapchain format. */
    predicate Valid()
      reads this, images, imageViews
    {
      images.Length == imageCount && imageViews.Length == imageCount &&
      |viewCreateInfos| == imageCount &&
      forall i :: 0 <= i < imageCount ==>
        viewCreateInfos[i] == GetImageViewCreateInfo(imageFormat, images[i], IMAGE_ASPECT_COLOR)
    }

    /** The zero-initialised struct inside a fresh Renderer. */
    constructor ()
      ensures Valid() && imageCount == 0 && swapchain == NULL_HANDLE
    {
      swapchain := NULL_HANDLE;
      images := new Handle[0];
      imageCount := 0;
      imageFormat := 0;
      extent := Extent2D(0, 0);
      imageViews := new Handle[0];
      viewCreateInfos := [];
    }

    /** create_swap_chain: the driver supplies the capabilities, formats,
        present modes, framebuffer size, the swapchain handle it creates and
        the images it makes for it. */
    method CreateSwapChain(caps: SurfaceCapabilities, formats: seq<SurfaceFormat>, modes: seq<PresentMode>,
                           framebufferWidth: int, framebufferHeight: int, indices: QueueFamilyIndices,
                           created: Handle, driverImages: seq<Handle>)
      returns (info: SwapchainCreateInfo)
      requires |formats| >= 1 && |modes| >= 1
      requires |driverImages| <= UINT32_MAX
      modifies this
      ensures info.minImageCount == RequestedImageCount(caps)
      ensures info.imageFormat == ChooseSwapSurfaceFormat(formats).format
      ensures info.imageColorSpace == ChooseSwapSurfaceFormat(formats).colorSpace
      ensures info.imageExtent == ChooseSwapExtent(caps, framebufferWidth, framebufferHeight)
      ensures info.imageArrayLayers == 1 && info.imageUsage == IMAGE_USAGE_COLOR_ATTACHMENT && info.clipped
      ensures info.preTransform == caps.currentTransform
      ensures info.presentMode == ChooseSwapPresentMode(modes)
      ensures info.sharing == ChooseSharing(indices)
      ensures swapchain == created
      ensures fresh(images) && images[..] == driverImages && imageCount == |driverImages|
      ensures imageFormat == info.imageFormat && extent == info.imageExtent
      ensures imageViews == old(imageViews) && viewCreateInfos == old(viewCreateInfos)
    {
      var surfaceFormat := ChooseSwapSurfaceFormat(formats);
      var presentMode := ChooseSwapPresentMode(modes);
      var chosenExtent := ChooseSwapExtent(caps, framebufferWidth, framebufferHeight);
      var requested := RequestedImageCount(caps);
      info := SwapchainCreateInfo(requested, surfaceFormat.format, surfaceFormat.colorSpace,
        chosenExtent, 1, IMAGE_USAGE_COLOR_ATTACHMENT, caps.currentTransform, presentMode, true,
        ChooseSharing(indices));
      swapchain := created;
      imageCount := |driverImages|;
      images := new Handle[imageCount](i requires 0 <= i < |driverImages| => driverImages[i]);
      imageFormat := surfaceFormat.format;
      extent := chosenExtent;
    }

    /** create_image_views: view i is a 2D colour view of images[i] in the
        swapchain format, covering mip 0 and layer 0; `newViews` are the
        handles the driver returns, in order. */
    method CreateImageViews(newViews: seq<Handle>)
      requires images.Length == imageCount && |newViews| == imageCount
      modifies this
      ensures Valid()
      ensures fresh(imageViews) && imageViews[..] == newViews
      ensures swapchain == old(swapchain) && images == old(images) && imageCount == old(imageCount)
      ensures imageFormat == old(imageFormat) && extent == old(extent)
    {
      var n, source, format := imageCount, images, imageFormat;
      var views := new Handle[n];
      var infos := [];
      for i := 0 to n
        modifies views
        invariant |infos| == i
        invariant forall k :: 0 <= k < i ==>
          infos[k] == GetImageViewCreateInfo(format, source[k], IMAGE_ASPECT_COLOR)
        invariant views[..i] == newViews[..i]
      {
        var info := GetImageViewCreateInfo(format, source[i], IMAGE_ASPECT_COLOR);
        infos := infos + [info];
        views[i] := newViews[i];
      }
      assert views[..] == views[..n];
      imageViews := views;
      viewCreateInfos := infos;
    }

    /** swapchain_cleanup: the calls it issues, in order; one view per image
        is destroyed, then the swapchain. */
    method Cleanup() returns (calls: seq<Call>)
      requires imageViews.Length >= imageCount
      ensures |calls| == imageCount + 1
      ensures forall i :: 0 <= i < imageCount ==> calls[i] == DestroyImageView(imageViews[i])
      ensures calls[imageCount] == DestroySwapchain(swapchain)
    {
      calls := [];
      for i := 0 to imageCount
        invariant |calls| == i
        invariant forall k :: 0 <= k < i ==> calls[k] == DestroyImageView(imageViews[k])
      {
        calls := calls + [DestroyImageView(imageViews[i])];
      }
      calls := calls + [DestroySwapchain(swapchain)];
    }
  }

  /** Each swapchain view covers exactly the single level and layer of its image. */
  lemma SwapchainViewsCoverOneSubresource(s: Swapchain, i: nat, level: nat, layer: nat)
    requires s.Valid() && i < s.imageCount
    ensures s.viewCreateInfos[i].image == s.images[i]
    ensures s.viewCreateInfos[i].format == s.imageFormat
    ensures Covers(s.viewCreateInfos[i].subresourceRange, level, layer) <==> level == 0 && layer == 0
  {
  }
}
