/** src/engine/renderer/image.c: the layout-transition barrier, the blit
    between two colour images, and the image and image-view create infos. */
module Images {
  import opened Vulkan

  /** The barrier covers subresource (level, layer) of the image. A count of
      VK_REMAINING_* reaches to the last level or layer of the image. */
  predicate Covers(range: ImageSubresourceRange, level: nat, layer: nat) {
    range.baseMipLevel <= level &&
    (range.levelCount == REMAINING_MIP_LEVELS || level < range.baseMipLevel + range.levelCount) &&
    range.baseArrayLayer <= layer &&
    (range.layerCount == REMAINING_ARRAY_LAYERS || layer < range.baseArrayLayer + range.layerCount)
  }

  /** The aspect transition_image picks from the target layout. */
  function AspectFor(newLayout: ImageLayout): (aspect: Flags)
    ensures aspect == IMAGE_ASPECT_DEPTH <==> newLayout == DepthAttachmentOptimal
    ensures aspect == IMAGE_ASPECT_COLOR <==> newLayout != DepthAttachmentOptimal
  {
    if newLayout == DepthAttachmentOptimal then IMAGE_ASPECT_DEPTH else IMAGE_ASPECT_COLOR
  }

  /** transition_image: the one barrier command it records. */
  function TransitionImage(image: Handle, currentLayout: ImageLayout, newLayout: ImageLayout): (c: Command)
    ensures c.PipelineBarrier?
    ensures c.srcStage == PIPELINE_STAGE_ALL_COMMANDS && c.dstStage == PIPELINE_STAGE_ALL_COMMANDS
    ensures c.barrier.image == image
    ensures c.barrier.oldLayout == currentLayout && c.barrier.newLayout == newLayout
    ensures c.barrier.srcAccessMask == ACCESS_MEMORY_WRITE
    ensures c.barrier.dstAccessMask == ACCESS_MEMORY_WRITE | ACCESS_MEMORY_READ
    ensures c.barrier.subresourceRange.aspectMask == AspectFor(newLayout)
  {
    var subImage := ImageSubresourceRange(AspectFor(newLayout), 0, REMAINING_MIP_LEVELS, 0, REMAINING_ARRAY_LAYERS);
    PipelineBarrier(PIPELINE_STAGE_ALL_COMMANDS, PIPELINE_STAGE_ALL_COMMANDS,
      ImageMemoryBarrier(ACCESS_MEMORY_WRITE, ACCESS_MEMORY_WRITE | ACCESS_MEMORY_READ,
        currentLayout, newLayout, image, subImage))
  }

  /** A transition reaches every mip level and every array layer of the image. */
  lemma TransitionCoversWholeImage(image: Handle, currentLayout: ImageLayout, newLayout: ImageLayout, level: nat, layer: nat)
    ensures Covers(TransitionImage(image, currentLayout, newLayout).barrier.subresourceRange, level, layer)
  {
  }

  /** The subresource copy_image uses on both sides of the blit. */
  const COLOUR_LEVEL0_LAYER0: ImageSubresourceLayers := ImageSubresourceLayers(IMAGE_ASPECT_COLOR, 0, 0, 1)

  /** copy_image: one blit from the whole source region onto the whole
      destination region, source in TRANSFER_SRC, destination in
      TRANSFER_DST, linear filtering. */
  function CopyImage(src: Handle, dst: Handle, srcSize: Extent2D, dstSize: Extent2D): (c: Command)
    ensures c.BlitImage? && c.src == src && c.dst == dst
    ensures c.srcLayout == TransferSrcOptimal && c.dstLayout == TransferDstOptimal
    ensures c.filter == Linear
    ensures c.blit.srcStart == Offset3D(0, 0, 0) && c.blit.srcEnd == Offset3D(srcSize.width, srcSize.height, 1)
    ensures c.blit.dstStart == Offset3D(0, 0, 0) && c.blit.dstEnd == Offset3D(dstSize.width, dstSize.height, 1)
    ensures c.blit.srcSubresource == c.blit.dstSubresource == ImageSubresourceLayers(IMAGE_ASPECT_COLOR, 0, 0, 1)
  {
    BlitImage(src, TransferSrcOptimal, dst, TransferDstOptimal,
      ImageBlit(COLOUR_LEVEL0_LAYER0, Offset3D(0, 0, 0), Offset3D(srcSize.width, srcSize.height, 1),
                COLOUR_LEVEL0_LAYER0, Offset3D(0, 0, 0), Offset3D(dstSize.width, dstSize.height, 1)),
      Linear)
  }

  /** The blit regions span exactly the two extents, so when the extents
      agree the blit neither scales nor crops. */
  lemma CopyImageSameSizeIsUnscaled(src: Handle, dst: Handle, size: Extent2D)
    ensures var b := CopyImage(src, dst, size, size).blit;
      b.srcEnd.x - b.srcStart.x == b.dstEnd.x - b.dstStart.x == size.width &&
      b.srcEnd.y - b.srcStart.y == b.dstEnd.y - b.dstStart.y == size.height &&
      b.srcEnd.z - b.srcStart.z == b.dstEnd.z - b.dstStart.z == 1
  {
  }

  datatype ImageType = ImageType2D
  datatype SampleCount = SampleCount1
  datatype ImageTiling = TilingOptimal | TilingLinear
  datatype ImageViewType = ViewType2D

  datatype ImageCreateInfo = ImageCreateInfo(
    imageType: ImageType, format: Format, extent: Extent3D,
    mipLevels: nat, arrayLayers: nat, samples: SampleCount,
    tiling: ImageTiling, usage: Flags)

  /** get_image_create_info: a single-sampled, optimally tiled 2D image
      with one mip level and one layer. */
  function GetImageCreateInfo(format: Format, usage: Flags, extent: Extent3D): (info: ImageCreateInfo)
    ensures info.imageType == ImageType2D && info.samples == SampleCount1 && info.tiling == TilingOptimal
    ensures info.mipLevels == 1 && info.arrayLayers == 1
    ensures info.format == format && info.extent == extent && info.usage == usage
  {
    ImageCreateInfo(ImageType2D, format, extent, 1, 1, SampleCount1, TilingOptimal, usage)
  }

  datatype ImageViewCreateInfo = ImageViewCreateInfo(
    viewType: ImageViewType, image: Handle, format: Format, subresourceRange: ImageSubresourceRange)

  /** get_image_view_create_info: a 2D view of mip 0 and layer 0 of the
      image with the given aspect. */
  function GetImageViewCreateInfo(format: Format, image: Handle, aspect: Flags): (info: ImageViewCreateInfo)
    ensures info.viewType == ViewType2D && info.image == image && info.format == format
    ensures info.subresourceRange.aspectMask == aspect
    ensures forall level: nat, layer: nat ::
      Covers(info.subresourceRange, level, layer) <==> level == 0 && layer == 0
  {
    ImageViewCreateInfo(ViewType2D, image, format, ImageSubresourceRange(aspect, 0, 1, 0, 1))
  }
}
