/** The slice of the Vulkan API the renderer uses, as values.
    GPU objects are opaque handles; enumerations carry the codes of
    vulkan_core.h where the renderer passes driver-supplied values through,
    and are datatypes where the renderer only ever names a few members. */
module Vulkan {
  import opened Wrappers

  /** An opaque GPU object handle (VkFence, VkSemaphore, VkImage, ...). */
  type Handle = nat

  const NULL_HANDLE: Handle := 0
  const UINT32_MAX: nat := 0xFFFF_FFFF

  /** The values of a C `uint32_t`. */
  type u32 = x: nat | x <= UINT32_MAX

  /** C conversion of an integer to `uint32_t` (reduction modulo 2^32). */
  function ToU32(x: int): (r: u32)
    ensures 0 <= x <= UINT32_MAX ==> r == x
    ensures (r - x) % 0x1_0000_0000 == 0
  {
    x % 0x1_0000_0000
  }

  datatype Extent2D = Extent2D(width: u32, height: u32)
  datatype Extent3D = Extent3D(width: u32, height: u32, depth: u32)
  datatype Offset3D = Offset3D(x: int, y: int, z: int)

  // VkFormat, VkColorSpaceKHR and VkPresentModeKHR codes
  type Format = nat
  const FORMAT_B8G8R8A8_SRGB: Format := 50
  type ColorSpace = nat
  const COLOR_SPACE_SRGB_NONLINEAR: ColorSpace := 0
  type PresentMode = nat
  const PRESENT_MODE_IMMEDIATE: PresentMode := 0
  const PRESENT_MODE_MAILBOX: PresentMode := 1
  const PRESENT_MODE_FIFO: PresentMode := 2

  datatype SurfaceFormat = SurfaceFormat(format: Format, colorSpace: ColorSpace)

  datatype ImageLayout =
    | Undefined
    | General
    | ColorAttachmentOptimal
    | DepthAttachmentOptimal
    | ShaderReadOnlyOptimal
    | TransferSrcOptimal
    | TransferDstOptimal
    | PresentSrc

  datatype DescriptorType = CombinedImageSampler | StorageImage | UniformBuffer

  datatype SharingMode = Exclusive | Concurrent
  datatype Filter = Nearest | Linear
  datatype CompareOp = Never | Less | Equal | LessOrEqual | Greater | NotEqual | GreaterOrEqual | Always

  /** Bit masks (VkFlags). */
  type Flags = bv32

  const IMAGE_ASPECT_COLOR: Flags := 0x1
  const IMAGE_ASPECT_DEPTH: Flags := 0x2

  const SHADER_STAGE_VERTEX: Flags := 0x1
  const SHADER_STAGE_FRAGMENT: Flags := 0x10
  const SHADER_STAGE_COMPUTE: Flags := 0x20

  const ACCESS_MEMORY_READ: Flags := 0x8000
  const ACCESS_MEMORY_WRITE: Flags := 0x1_0000
  const PIPELINE_STAGE_ALL_COMMANDS: Flags := 0x1_0000
  const PIPELINE_STAGE_COLOR_ATTACHMENT_OUTPUT: Flags := 0x400
  const PIPELINE_STAGE_ALL_GRAPHICS: Flags := 0x8000

  const BUFFER_USAGE_TRANSFER_SRC: Flags := 0x1
  const BUFFER_USAGE_TRANSFER_DST: Flags := 0x2
  const BUFFER_USAGE_STORAGE_BUFFER: Flags := 0x20
  const BUFFER_USAGE_INDEX_BUFFER: Flags := 0x40
  const BUFFER_USAGE_SHADER_DEVICE_ADDRESS: Flags := 0x2_0000

  const IMAGE_USAGE_COLOR_ATTACHMENT: Flags := 0x10

  /** VK_REMAINING_MIP_LEVELS and VK_REMAINING_ARRAY_LAYERS, both (~0U). */
  const REMAINING_MIP_LEVELS: u32 := UINT32_MAX
  const REMAINING_ARRAY_LAYERS: u32 := UINT32_MAX

  datatype ImageSubresourceRange = ImageSubresourceRange(
    aspectMask: Flags, baseMipLevel: u32, levelCount: u32, baseArrayLayer: u32, layerCount: u32)

  datatype ImageSubresourceLayers = ImageSubresourceLayers(
    aspectMask: Flags, mipLevel: u32, baseArrayLayer: u32, layerCount: u32)

  datatype ImageMemoryBarrier = ImageMemoryBarrier(
    srcAccessMask: Flags, dstAccessMask: Flags,
    oldLayout: ImageLayout, newLayout: ImageLayout,
    image: Handle, subresourceRange: ImageSubresourceRange)

  datatype ImageBlit = ImageBlit(
    srcSubresource: ImageSubresourceLayers, srcStart: Offset3D, srcEnd: Offset3D,
    dstSubresource: ImageSubresourceLayers, dstStart: Offset3D, dstEnd: Offset3D)

  datatype BufferCopy = BufferCopy(srcOffset: nat, dstOffset: nat, size: nat)

  /** A colour or depth attachment of a dynamic-rendering pass: the view it
      names, the image behind that view, and the layout the pass expects. */
  datatype Attachment = Attachment(image: Handle, view: Handle, layout: ImageLayout)

  /** Commands recorded into a command buffer (vkCmd*). */
  datatype Command =
    | PipelineBarrier(srcStage: Flags, dstStage: Flags, barrier: ImageMemoryBarrier)
    | BlitImage(src: Handle, srcLayout: ImageLayout, dst: Handle, dstLayout: ImageLayout,
                blit: ImageBlit, filter: Filter)
    | GeometryPass(color: Attachment, depth: Attachment, area: Extent2D)
    | OverlayPass(target: Attachment, area: Extent2D)
    | CopyBuffer(src: Handle, dst: Handle, copy: BufferCopy)

  /** VmaMemoryUsage: where an allocation lives. */
  datatype MemoryUsage = GpuOnly | CpuOnly

  /** A buffer creation request: VkBufferCreateInfo's size and usage, and
      VmaAllocationCreateInfo's memory usage and whether the allocation is
      persistently mapped (VMA_ALLOCATION_CREATE_MAPPED_BIT). */
  datatype BufferCreateInfo = BufferCreateInfo(size: nat, usage: Flags, memoryUsage: MemoryUsage, mapped: bool)

  datatype SubmitInfo = SubmitInfo(
    waitSemaphores: seq<Handle>, waitStages: seq<Flags>,
    commandBuffers: seq<Handle>, signalSemaphores: seq<Handle>)

  /** Calls on the device or the queue, in the order the renderer issues them. */
  datatype Call =
    | CreateCommandPool(pool: Handle, queueFamily: Option<nat>)
    | AllocateCommandBuffer(pool: Handle, cmd: Handle)
    | CreateFence(fence: Handle, signalled: bool)
    | CreateSemaphore(semaphore: Handle)
    | WaitForFence(fence: Handle)
    | ResetFence(fence: Handle)
    | AcquireNextImage(swapchain: Handle, semaphore: Handle)
    | ResetCommandBuffer(cmd: Handle)
    | BeginCommandBuffer(cmd: Handle)
    | Record(cmd: Handle, command: Command)
    | EndCommandBuffer(cmd: Handle)
    | QueueSubmit(info: SubmitInfo, fence: Handle)
    | QueuePresent(swapchain: Handle, waitSemaphore: Handle, imageIndex: nat)
    | DestroyImageView(view: Handle)
    | DestroySwapchain(swapchain: Handle)
    | CreateBuffer(buffer: Handle, bufferInfo: BufferCreateInfo)
    | GetBufferDeviceAddress(buffer: Handle)
    | DestroyBuffer(buffer: Handle)

  datatype DescriptorSetLayoutBinding = DescriptorSetLayoutBinding(
    binding: u32, descriptorType: DescriptorType, descriptorCount: u32, stageFlags: Flags)

  datatype DescriptorSetLayoutCreateInfo = DescriptorSetLayoutCreateInfo(
    bindings: seq<DescriptorSetLayoutBinding>, flags: Flags)

  datatype DescriptorPoolSize = DescriptorPoolSize(descriptorType: DescriptorType, descriptorCount: u32)

  datatype DescriptorPoolCreateInfo = DescriptorPoolCreateInfo(maxSets: u32, poolSizes: seq<DescriptorPoolSize>)

  datatype DescriptorBufferInfo = DescriptorBufferInfo(buffer: Handle, offset: nat, range: nat)
  datatype DescriptorImageInfo = DescriptorImageInfo(sampler: Handle, imageView: Handle, imageLayout: ImageLayout)

  /** VkWriteDescriptorSet with one descriptor: a buffer or an image. */
  datatype WriteDescriptorSet = WriteDescriptorSet(
    dstSet: Handle, dstBinding: u32, descriptorCount: u32, descriptorType: DescriptorType,
    bufferInfo: Option<DescriptorBufferInfo>, imageInfo: Option<DescriptorImageInfo>)

  datatype PushConstantRange = PushConstantRange(offset: nat, size: nat, stageFlags: Flags)

  datatype PipelineLayoutCreateInfo = PipelineLayoutCreateInfo(
    setLayouts: seq<Handle>, pushConstantRanges: seq<PushConstantRange>)

  /** Calls that create and destroy descriptor and pipeline objects, in
      the order they are issued. */
  datatype SetupCall =
    | CreateDescriptorSetLayout(setLayout: Handle, layoutInfo: DescriptorSetLayoutCreateInfo)
    | CreateDescriptorPool(pool: Handle, poolInfo: DescriptorPoolCreateInfo)
    | AllocateDescriptorSet(fromPool: Handle, ofLayout: Handle, descSet: Handle)
    | UpdateDescriptorSets(writes: seq<WriteDescriptorSet>)
    | CreatePipelineLayout(pipelineLayout: Handle, pipelineLayoutInfo: PipelineLayoutCreateInfo)
    | CreateShaderModule(shader: Handle)
    | CreateComputePipeline(pipeline: Handle, layout: Handle, shader: Handle)
    | CreateGraphicsPipeline(pipeline: Handle, layout: Handle)
    | DestroyShaderModule(shader: Handle)
    | DestroyPipeline(pipeline: Handle)
    | DestroyPipelineLayout(layout: Handle)
    | DestroyDescriptorPool(pool: Handle)
    | DestroyDescriptorSetLayout(layout: Handle)
}
