# nage renderer core, modelled in Dafny

nage is a small Vulkan renderer written in C. This project models the
bookkeeping under its Vulkan, GLFW and VMA calls and proves properties of
that model. GPU objects (fences, semaphores, images, buffers, pipelines) are
opaque handles (`nat`). Every handle the driver creates, everything the
driver reports, and whether the GPU finishes submitted work within a
one-second wait are parameters supplied by the caller. The device and queue
calls a piece of code makes are recorded, in order, in a call log, so that
ordering promises can be stated about the log.

Modules follow the source files:

- `Vulkan` (vulkan.dfy) and `RendererTypes` (types.dfy) hold the value
  vocabulary: handles, `uint32_t`, layouts, barriers, blits, buffer copies,
  descriptor structures, the logged calls, and the records of `renderer.h`
  (`FRAMES_IN_FLIGHT = 3`, `Vertex`, `Mesh`, `GeoSurface`, `MaterialInstance`,
  `RenderObject`).
- `Utils`: `clamp`, `find_queue_families`, `indices_complete`.
- `Device` and `Debug`: GPU scoring and choice, device-extension support,
  validation-layer support, the instance-extension list, the debug callback.
- `Images`: `transition_image`, `copy_image`, and the image and image-view
  create infos.
- `Swapchain`: the surface-format, present-mode, extent, image-count and
  sharing choices, plus a `Swapchain` class that `create_swap_chain`,
  `create_image_views` and `swapchain_cleanup` work on.
- `Frame`: `renderer_draw` as a pure step over the frame-slot state of the 3
  slots. Each slot has its fence, its two semaphores and its command
  buffer. `Frame` also holds an image-layout tracker that checks the
  command chain one frame records.
- `Renderer`: the `Renderer` class. It has the per-slot arrays,
  `create_command_buffers`, `sync_initialise`, the counter reset of
  `renderer_initialise`, `renderer_inc_frame`, `get_submit_info`, and
  `renderer_draw`, which is proved equal to `Frame.DrawStep`. It also has
  the immediate-submit path.
- `Buffers`: `buffer_create` requests, and `upload_mesh`. Its staging
  bytes are written in place into an array. The two recorded copies,
  replayed on buffer contents, deliver the vertices and indices unchanged.
- `Pipelines`: `create_descriptor_set_layout`, which works in place on its
  array; `create_descriptor_pool`; the draw-image descriptor; and the
  compute pipeline's creation and cleanup.
- `Materials`: the metallic material's descriptor layout, its shared
  pipeline layout, the builder history of its two pipelines, the three
  descriptor writes of `write_material`, and cleanup.
- `Scene`: the ECS arrays, `ecs_add_entity`, `ecs_add_renderable` and
  `ecs_renderable_collect`.

Three conventions hold throughout:

- `VK_CHECK` is not defined in the source files of this model; it is
  assumed to behave like `CHECK_VK_FATAL` (src/engine/utils.h:11-16):
  on a failing call it exits the process. The one failure modelled
  is a fence wait that times out; it is the outcome `WaitTimedOut`.
- `INVALID_IDX` is `None`.
- A layout transition from `UNDEFINED` is valid from any layout, because
  the contents are discarded. Any other transition must start from the
  layout the tracker holds.

## Model

| member | source | states |
|---|---|---|
| Vulkan.ToU32 | src/engine/renderer/pipeline.c:97 | conversion to `uint32_t`: the identity on values that fit, otherwise congruent modulo 2^32 |
| Utils.Clamp | src/engine/utils.c:9-14 | above max gives max, because that test comes first; with min <= max the result lies in [min, max]; an in-range value is returned unchanged; the result is always a, min or max |
| Utils.ClampIdempotent | src/engine/utils.c:9-14 | with min <= max, clamping twice equals clamping once |
| Utils.ClampInvertedRangeNotIdempotent | src/engine/utils.c:9-14 | with min > max the test order matters: clamp(9,5,3) = 3, but clamping that again gives 5 |
| Utils.IndicesComplete | src/engine/utils.c:46-49 | true exactly when neither index is INVALID_IDX (None) |
| Utils.IndicesCompleteIsSentinelTest | src/engine/utils.c:46-49 | with INVALID_IDX as the encoding of a missing index, and distinct from every real family number, the source's two `!= INVALID_IDX` tests hold exactly when IndicesComplete does |
| Utils.FindQueueFamilies | src/engine/utils.c:16-44 | every index it sets names a family with graphics, or one that can present; complete exactly when both kinds of family exist; the loop stops at the first index where both have been seen, and each index is the last such family seen before it stops |
| Device.RequiredDeviceExtensions | src/engine/renderer/device.c:6-21 | 3 names off Apple and 4 on Apple; the portability subset is present exactly on Apple; swapchain, dynamic rendering and push descriptor are always present |
| Device.CheckExtensionDeviceSupport | src/engine/renderer/device.c:157-189 | true exactly when every required name equals some available name |
| Device.RateDevice | src/engine/renderer/device.c:130-155 | -1 exactly when the queue families are incomplete or an extension is missing; otherwise 1000 for a discrete GPU and 0 for any other |
| Device.PickGpu | src/engine/renderer/device.c:30-70 | fails with NoGpuFound exactly when there are no devices, and with NoSupportedGpu exactly when no device is usable; otherwise the chosen device is usable, its score is >= 0 and maximal, and every earlier device scores strictly less (lowest index wins) |
| Debug.ValidationLayersSupported | src/engine/renderer/debug.c:7-31 | true exactly when every requested layer matches an available layer; vacuously true for no layers |
| Debug.RequiredExtensionCount | src/engine/renderer/debug.c:33-42 | count = the window system's count + 2 on Apple + 1 with validation layers |
| Debug.InstanceExtensions | src/engine/renderer/debug.c:48-58 | the window system's names first and in order, then the two Apple names at count_original and count_original + 1, then the debug-utils name last |
| Debug.GetRequiredExtensions | src/engine/renderer/debug.c:33-61 | always reports the count; with a NULL array it writes nothing; otherwise the first count entries are the list above and later entries are untouched |
| Debug.DebugCallback | src/engine/renderer/debug.c:63-75 | always returns VK_FALSE |
| Images.AspectFor | src/engine/renderer/image.c:7-8 | the DEPTH aspect exactly when the new layout is DEPTH_ATTACHMENT_OPTIMAL, else the COLOR aspect |
| Images.TransitionImage | src/engine/renderer/image.c:4-33 | one ALL_COMMANDS to ALL_COMMANDS barrier on the image; old and new layouts copied verbatim; src access MEMORY_WRITE, dst access MEMORY_WRITE or MEMORY_READ |
| Images.TransitionCoversWholeImage | src/engine/renderer/image.c:10-14 | the barrier's range covers every mip level and every array layer |
| Images.CopyImage | src/engine/renderer/image.c:83-122 | one linear blit from (0,0,0)-(src.w,src.h,1) onto (0,0,0)-(dst.w,dst.h,1); colour aspect, mip 0, layer 0 (count 1) on both sides; source in TRANSFER_SRC, destination in TRANSFER_DST |
| Images.CopyImageSameSizeIsUnscaled | src/engine/renderer/image.c:86-95 | with equal extents the two regions have the same size in every dimension |
| Images.GetImageCreateInfo | src/engine/renderer/image.c:35-60 | a 2D image with 1 mip, 1 layer, 1 sample and optimal tiling; format, extent and usage passed through |
| Images.GetImageViewCreateInfo | src/engine/renderer/image.c:62-81 | a 2D view of the given image, format and aspect that covers exactly mip 0 and layer 0 |
| Swapchain.ChooseSwapSurfaceFormat | src/engine/renderer/swapchain.c:150-161 | the first B8G8R8A8_SRGB / SRGB_NONLINEAR entry if one exists, else formats[0] |
| Swapchain.ChooseSwapPresentMode | src/engine/renderer/swapchain.c:163-173 | MAILBOX if it is offered anywhere, else the first mode; always an offered mode |
| Swapchain.ChooseSwapExtent | src/engine/renderer/swapchain.c:176-195 | currentExtent unchanged unless its width is 0xFFFFFFFF; otherwise each dimension of the framebuffer size is clamped into [minImageExtent, maxImageExtent], and an in-range size is kept |
| Swapchain.RequestedImageCount | src/engine/renderer/swapchain.c:40-44 | minImageCount + 1, lowered to maxImageCount exactly when maxImageCount > 0 and the sum exceeds it; the `uint32_t` sum wraps to 0 at UINT32_MAX |
| Swapchain.ChooseSharing | src/engine/renderer/swapchain.c:66-79 | CONCURRENT over both family indices exactly when the graphics and present families differ, otherwise EXCLUSIVE with no indices |
| Swapchain.Swapchain.CreateSwapChain | src/engine/renderer/swapchain.c:22-106 | the create info carries the chosen count, format, colour space, extent, present mode and sharing, 1 layer, colour-attachment usage, clipped; the swapchain records the handle, the driver's images, the chosen format and the chosen extent |
| Swapchain.Swapchain.CreateImageViews | src/engine/renderer/swapchain.c:197-229 | exactly image_count views; view i is a 2D colour view of images[i] in the swapchain format; nothing else changes |
| Swapchain.Swapchain.Cleanup | src/engine/renderer/swapchain.c:10-20 | destroys view i for every i < image_count, in order, then the swapchain |
| Swapchain.SwapchainViewsCoverOneSubresource | src/engine/renderer/swapchain.c:204-218 | each view targets its own image in the swapchain format and covers exactly level 0 and layer 0 |
| Frame.NextSlot | src/engine/renderer/renderer.c:525-532 | the next slot is always < 3, and equals (f + 1) mod 3 for a slot in range |
| Frame.DrawStep | src/engine/renderer/renderer.c:74-173 | times out exactly when the slot's fence wait fails, and presents exactly when the wait succeeds and the acquire succeeds; a present advances the slot and frame, any other outcome leaves both; the resize flag is set by an out-of-date acquire or present; only the entry slot's fence changes |
| Frame.DrawStepExtendsLog | src/engine/renderer/renderer.c:74-173 | every step keeps the calls made before it as a prefix of the log |
| Frame.PresentedFrameUsesOneSlot | src/engine/renderer/renderer.c:76-168 | on the normal path the 17 calls are: wait on fences[f], reset it, acquire on semaphores_swapchain[f], reset and begin command_buffers[f], nine records into it, end; then the submit (waits semaphores_swapchain[f], signals semaphores_render[f] and fences[f], carries command_buffers[f]), then the present (waits semaphores_render[f]) |
| Frame.OutOfDateAcquireAbandonsFrame | src/engine/renderer/renderer.c:79-90 | an out-of-date acquire sets resize_requested, makes only the wait, reset and acquire calls (no submit, no present), keeps frame_in_flight and frame, and leaves fences[f] unsignalled |
| Frame.OutOfDatePresentStillAdvances | src/engine/renderer/renderer.c:168-172 | an out-of-date present sets resize_requested, yet the slot moves to (f + 1) mod 3, frame grows by 1 and the fence is pending |
| Frame.SignalledSlotNeverTimesOut | src/engine/renderer/renderer.c:409-419 | a slot whose fence is signalled, as every fence is after sync_initialise, never times out |
| Frame.OutOfDateAcquireThenNextDrawTimesOut | src/engine/renderer/renderer.c:79-90 | as written: the draw after an out-of-date acquire uses the same slot and always times out |
| Frame.OutOfDateAcquireCounterexample | src/engine/renderer/renderer.c:79-90 | concrete run from all-signalled fences: an out-of-date acquire, then a retry on an idle GPU with a good acquire; the retry times out |
| Frame.DrawStepCorrected | src/engine/renderer/renderer.c:79-90 | the fence is reset only after a successful acquire; same timeout, present, counter, resize-flag and one-fence rules as DrawStep |
| Frame.CorrectedDrawKeepsFencesLive | src/engine/renderer/renderer.c:79-90 | the corrected step never strands a fence, so with a GPU that finishes no wait times out |
| Frame.CorrectedOutOfDateRetrySucceeds | src/engine/renderer/renderer.c:79-90 | after a corrected out-of-date acquire the retry on the same slot does not time out |
| Frame.NextSlotFollowsFrame | src/engine/renderer/renderer.c:525-532 | advancing the slot of frame n gives the slot of frame n + 1 (mod 3) |
| Frame.RunKeepsCountersAgreed | src/engine/renderer/renderer.c:53-54 | frame_in_flight == frame mod 3 is kept by every sequence of draws, whatever the environment |
| Frame.SteadyStateNeverTimesOut | src/engine/renderer/renderer.c:74-173 | while acquires succeed and the GPU keeps up, every draw presents, frame grows by the number of draws, and no fence is stranded |
| Frame.FrameLayoutChainValid | src/engine/renderer/renderer.c:102-144 | with distinct draw, depth and swapchain images and any tracked starting layouts, each transition starts from the image's current layout or from UNDEFINED; the geometry pass finds its attachments in COLOR_ATTACHMENT and DEPTH_ATTACHMENT; the blit finds TRANSFER_SRC and TRANSFER_DST; the overlay finds COLOR_ATTACHMENT; the frame ends with draw in TRANSFER_SRC, depth in DEPTH_ATTACHMENT and swapchain image in PRESENT_SRC |
| Frame.FrameLayoutChainNeedsDistinctTarget | src/engine/renderer/renderer.c:102-144 | the tracker rejects the chain when the draw image were also the presentation target |
| Renderer.Renderer.CreateCommandBuffers | src/engine/renderer/renderer.c:348-395 | pools and buffers 0..2 stored per slot and the immediate pair last; calls follow CommandPoolCreation for the graphics family; nothing else changes |
| Renderer.CommandPoolCreationOrder | src/engine/renderer/renderer.c:358-383 | pool i is created, for the graphics family, at call 2i, and its buffer is allocated from it at call 2i + 1 |
| Renderer.Renderer.SyncInitialise | src/engine/renderer/renderer.c:407-443 | slot i gets its fence, render-finished semaphore and image-acquired semaphore from the i-th triple of created handles; every fence, including the immediate one, is signalled; calls equal SyncCreation |
| Renderer.Renderer.CreateSlotSync | src/engine/renderer/renderer.c:418-438 | slot i's fence, render-finished and image-acquired semaphores are the i-th triple of created handles; the log gains exactly SlotSyncCreation for the three slots |
| Renderer.SlotSyncCreationOrder | src/engine/renderer/renderer.c:418-438 | slot i's fence is created signalled at call 3i, with its two semaphores at calls 3i + 1 and 3i + 2 |
| Renderer.SyncCreationSignalsEveryFence | src/engine/renderer/renderer.c:407-443 | of the 10 calls, exactly those at multiples of 3 create fences, all signalled; the rest create semaphores |
| Renderer.Renderer.Initialise | src/engine/renderer/renderer.c:46-54 | after command buffers, synchronisation objects and the counter reset: frame_in_flight = frame = 0, the counters agree, and every fence is signalled; the slot pools and buffers and the immediate pool and buffer are pools[i] and buffers[i]; slot i's fence and semaphores are the i-th triple of created handles and the immediate fence the last; the log is CommandPoolCreation followed by SyncCreation; resize_requested is unchanged |
| Renderer.Renderer.IncFrame | src/engine/renderer/renderer.c:525-532 | frame_in_flight becomes NextSlot of the old value, (old + 1) mod 3 when in range, so it stays below 3; frame grows by exactly 1; nothing else changes |
| Renderer.Renderer.GetSubmitInfo | src/engine/renderer/renderer.c:469-493 | waits on semaphores_swapchain[f] at COLOR_ATTACHMENT_OUTPUT, carries command_buffers[f], and signals semaphores_render[f] |
| Renderer.Renderer.Draw | src/engine/renderer/renderer.c:74-173 | its outcome and new state equal Frame.DrawStep on the entry state, slots and targets; handles and images unchanged |
| Renderer.RecordFrame | src/engine/renderer/renderer.c:102-144 | appends exactly the records of FrameCommands, in order |
| Renderer.Renderer.ImmediateBegin | src/engine/renderer/renderer.c:495-506 | resets imm_fence, then imm_cmd_buf, then begins recording; the immediate fence is unsignalled |
| Renderer.Renderer.RecordImmediate | src/engine/renderer/buffers.c:77-87 | one command recorded into the immediate command buffer; nothing else changes |
| Renderer.Renderer.ImmediateEnd | src/engine/renderer/renderer.c:508-523 | ends recording, submits with imm_fence (ALL_GRAPHICS, no semaphores), then waits on it; returns only if the GPU finished, and then the fence is signalled |
| Buffers.BufferRequest | src/engine/renderer/buffers.c:4-24 | size, usage and memory usage passed through; always a mapped allocation |
| Buffers.UsageFlagsSeparateRoles | src/engine/renderer/buffers.c:39-56 | only the vertex buffer has device-address usage; both GPU buffers are transfer destinations; only the staging buffer is a transfer source |
| Buffers.VerticesRoundTrip | src/engine/renderer/buffers.c:62 | the bytes memcpy takes from the vertex array read back as the same vertices |
| Buffers.IndicesRoundTrip | src/engine/renderer/buffers.c:64 | the bytes memcpy takes from the index array read back as the same indices |
| Buffers.IndexBytesRoundTrip | src/engine/renderer/buffers.c:64 | every 4-aligned byte range is the image of exactly one index list |
| Buffers.FillStaging | src/engine/renderer/buffers.c:58-65 | the staging memory holds the vertex bytes followed by the index bytes |
| Buffers.StagingLayout | src/engine/renderer/buffers.c:34-65 | staging size = vsize + isize, with vsize = 48 per vertex and isize = 4 per index; bytes [0, vsize) decode to the vertices and bytes [vsize, vsize + isize) to the indices |
| Buffers.UploadMesh | src/engine/renderer/buffers.c:31-94 | creates the vertex (GPU_ONLY), index (GPU_ONLY) and staging (CPU_ONLY) buffers with the computed sizes, querying the vertex buffer's device address right after creating it, fills the staging memory, records the two copies between immediate_begin and immediate_end, and destroys the staging buffer only once the wait succeeded; returns the two buffers and the vertex buffer's address |
| Buffers.SubmitCopies | src/engine/renderer/buffers.c:69-89 | immediate_begin, the vertex copy (0 to 0, vsize bytes), the index copy (vsize to 0, isize bytes), immediate_end: the log gains exactly ImmediateCopyCalls; it completes exactly when the GPU finishes |
| Buffers.UploadDeliversMesh | src/engine/renderer/buffers.c:71-87 | replaying the two copies (0 to 0 with size vsize, then vsize to 0 with size isize) from that staging buffer leaves the vertex buffer decoding to the vertices and the index buffer to the indices, with the staging buffer unchanged |
| Buffers.UploadCallOrder | src/engine/renderer/buffers.c:38-91 | the vertex buffer's address queried right after its creation; begin, the two copies and nothing else, end, submit on imm_fence, wait; the staging buffer is destroyed last and not before |
| Pipelines.CreateSetLayout | src/engine/renderer/pipeline.c:66-87 | ORs the stages into the first n bindings in place and leaves the rest of the array alone; the layout is created over exactly those n bindings with the given flags |
| Pipelines.WithStagesKeepsAndAdds | src/engine/renderer/pipeline.c:70-73 | each binding keeps every bit it had and gains every requested stage; binding number, type and count are unchanged |
| Pipelines.WithStagesIdempotent | src/engine/renderer/pipeline.c:70-73 | adding the same stages twice is adding them once |
| Pipelines.CreatePool | src/engine/renderer/pipeline.c:89-112 | maxSets as given, n pool sizes; size i has types[i] and ratios[i] * max_sets as `uint32_t`, which equals the exact product when it fits |
| Pipelines.ComputePipeline.DescriptorsInitialise | src/engine/renderer/pipeline.c:24-64 | stores the pool, layout and set, and logs their creation and the one write (DescriptorSetup) |
| Pipelines.DrawImageDescriptorConsistent | src/engine/renderer/pipeline.c:24-64 | the set is allocated from the new pool with the new layout; its one write fits that layout and carries the draw image view in GENERAL layout; the layout is compute-only; the pool allows at least one set and has enough storage-image room |
| Pipelines.ComputePipeline.CreateLayout | src/engine/renderer/pipeline.c:141-152 | a pipeline layout over the draw-image set layout alone, with no push constants |
| Pipelines.ComputePipeline.CreatePipeline | src/engine/renderer/pipeline.c:154-179 | creates the shader module, then the compute pipeline on the current layout, then destroys the module |
| Pipelines.ComputePipeline.Initialise | src/engine/renderer/pipeline.c:8-13 | descriptors, layout and pipeline in that order; all five handles stored |
| Pipelines.ComputePipeline.Cleanup | src/engine/renderer/pipeline.c:15-22 | destroys the pipeline, then the layout, then the pool, then the set layout |
| Pipelines.PipelineLifecycleOrdered | src/engine/renderer/pipeline.c:8-22 | across initialise and cleanup the shader module is destroyed right after the pipeline is created; the pipeline goes before its layout, and the set layout goes last |
| Materials.MaterialLayoutShape | src/engine/renderer/materials.c:21-43 | bindings 0, 1 and 2 are UB, CIS and CIS, one descriptor each, visible to vertex and fragment; no flags |
| Materials.MaterialLayoutBindings | src/engine/renderer/materials.c:23-42 | the three bindings, spelled out |
| Materials.MaterialMetallic.BuildDescriptors | src/engine/renderer/materials.c:21-43 | creates the material layout from those bindings through create_descriptor_set_layout and stores it |
| Materials.MaterialMetallic.BuildLayouts | src/engine/renderer/materials.c:45-71 | one pipeline layout (set 0 the scene-data layout, set 1 the material layout, one 80-byte vertex push range at offset 0, sizeof(PushConstants)) given to both pipelines |
| Materials.MaterialMetallic.BuildPipelines | src/engine/renderer/materials.c:73-104 | fragment then vertex module; the opaque build; two more builder steps; the transparent build; then both modules destroyed |
| Materials.TransparentBuildReusesOpaque | src/engine/renderer/materials.c:80-100 | the transparent build's history extends the opaque one's with two steps: blending goes from disabled to enabled, the depth test from on to off, and both compare with GREATER_OR_EQUAL |
| Materials.MaterialMetallic.InitialisePipelines | src/engine/renderer/materials.c:6-11 | descriptors, layouts, pipelines: both pipelines share the new layout, and calls and builds are as above |
| Materials.WriteMaterial | src/engine/renderer/materials.c:106-139 | the transparent pipeline exactly for a TRANSPARENT pass; pass type and set kept; three single-descriptor writes to that set |
| Materials.MaterialWritesFillLayout | src/engine/renderer/materials.c:119-136 | write k goes to binding k of the material layout, with its type and count, so every binding is written once |
| Materials.MaterialWritesCarryResources | src/engine/renderer/materials.c:122-134 | the uniform-buffer write, and only it, carries (data_buffer, data_buffer_offset, 256); the two image writes, and only they, carry the colour and metal-rough view and sampler in SHADER_READ_ONLY_OPTIMAL |
| Materials.MaterialMetallic.Write | src/engine/renderer/materials.c:106-139 | returns WriteMaterial's instance and logs its three writes to the set |
| Materials.MaterialMetallic.Cleanup | src/engine/renderer/materials.c:13-19 | both pipelines, then the layout (through the opaque pipeline), then the material layout |
| Materials.InitialiseDestroysNoPipelineOrLayout | src/engine/renderer/materials.c:6-11 | initialisation destroys no pipeline and no layout |
| Materials.InitialiseDestroysShadersOnce | src/engine/renderer/materials.c:102-103 | each shader module is destroyed once during initialisation |
| Materials.CleanupDestroysPipelinesOnce | src/engine/renderer/materials.c:15-16 | cleanup destroys each of two distinct pipelines once |
| Materials.CleanupDestroysLayoutsOnce | src/engine/renderer/materials.c:17-18 | cleanup destroys the shared layout once, the material layout once, and no shader |
| Materials.SharedLayoutDestroyedOnce | src/engine/renderer/materials.c:13-19 | over the lifetime both pipelines use the one shared layout; each pipeline is destroyed once, and the layout is destroyed once, after both |
| Materials.ShadersAndMaterialLayoutDestroyedOnce | src/engine/renderer/materials.c:73-104 | each shader module outlives both builds and is destroyed once; the material layout is created first and destroyed once, last |
| Materials.LifetimeOrder | src/engine/renderer/materials.c:6-19 | the twelve lifetime calls in order: material layout, pipeline layout on both set layouts, fragment and vertex modules, opaque and transparent builds on that layout, both module destructions, both pipeline destructions, the pipeline layout, the material layout |
| Scene.ObjectFor | src/engine/scene/scene.c:54-67 | the default material, the mesh's vertex address and index buffer, the surface's count and first index, and the transformation translated by (0, 1, 1) |
| Scene.CollectAsWritten | src/engine/scene/scene.c:41-74 | as written: when it does not fail, the final counter is the number of components with a mesh |
| Scene.CollectIntended | src/engine/scene/scene.c:41-74 | the corrected pass: the counter ends at the number of components with a mesh |
| Scene.AsWrittenFailureStays | src/engine/scene/scene.c:44-51 | once the pass as written dereferences NULL, it stays failed |
| Scene.AsWrittenAgreesWhenAllRenderable | src/engine/scene/scene.c:41-74 | when every component has a mesh, the pass as written never fails, agrees with the corrected one, and collects all of them |
| Scene.IntendedSlotsHoldOwnObjects | src/engine/scene/scene.c:52-71 | in the corrected pass, the k-th component with a non-empty mesh fills slot k with the object for its last surface (later surfaces overwrite earlier ones) |
| Scene.AsWrittenDereferencesNull | src/engine/scene/scene.c:51 | entity 0 without a mesh and entity 1 with one: the pass as written fails, while the corrected one collects 1 |
| Scene.Ecs.constructor | src/engine/scene/scene.c:6-15 | capacity 50, count 0, every component's mesh NULL, so every component in use is renderable (vacuously) |
| Scene.Ecs.AddEntity | src/engine/scene/scene.c:32-39 | id = old count, stored at entities[id]; count grows by 1; the used components gain one empty component, so afterwards not every component in use is renderable |
| Scene.Ecs.AddRenderable | src/engine/scene/scene.c:23-30 | a new entity whose component holds the mesh and the transformation; no other component changes; it keeps every component in use renderable |
| Scene.Ecs.RenderableCollect | src/engine/scene/scene.c:41-74 | the final counter and output array are exactly CollectAsWritten's; None exactly when that pass dereferences NULL; when every component in use is renderable it returns count and the intended pass's output |
| Scene.FillSlot | src/engine/scene/scene.c:51-67 | only the given slot changes, and it ends as SlotAfterSurfaces: the object of the mesh's last surface, or unchanged for a mesh without surfaces |

## Left out

- Library calls (Vulkan, GLFW, VMA, cgltf, Dear ImGui) are abstract logged calls on opaque handles. Their return values and created handles are parameters.
- Creation failures under `VK_CHECK`/`CHECK_VK_FATAL` are left out. Acquire and present results other than success and out-of-date are left out too.
- The unchecked result of `vkCreateDescriptorPool` at src/engine/renderer/pipeline.c:109 is not modelled; the pool is assumed to be created.
- Real-time timeouts and CPU/GPU overlap: a one-second wait either succeeds or exits. Whether the GPU finishes is a parameter of each step.
- `draw_geometry` and `imgui_draw` appear only as their attachments and target extent (`GeometryPass`, `OverlayPass`). Matrices, the camera, viewports, clear colours and `glm_translate` are float math; transforms are opaque values.
- `descriptor_allocator_growable_allocate` is not part of this model. The set `write_material` receives is a parameter.
- The `pipeline_builder_*` functions are not part of this model. Their calls are logged as steps. Each built pipeline is assumed to use the builder's layout.
- The `descriptor_writer_*` helpers are not part of this model. Each write is taken to carry binding, type and info as passed, with count 1. The buffer info is taken as (buffer, offset, size 256).
- `make_shader_info`/`create_shader` read files. They are modelled only as the creation of a shader-module handle.
- Swapchain resize, `query_swap_chain_support`, `renderer_create_instance`, `renderer_create_surface`, `vma_allocator_initialise`, `initialise_data` and the rest of `renderer_initialise` are left out. So are `renderer_cleanup`, `sync_cleanup` and `cleanup_command_buffers`. All of these are library set-up or teardown calls with no logic of their own.
- `populate_debug_messenger_info`, `create_debug_messenger`, `destroy_debug_messenger`, logging, `printf` and `print_string_list` are I/O or function-pointer lookups.
- src/engine/renderer/sync.c, dearimgui.c, shaders.c, loader.c, window.c, engine.c and main.c are not part of this model.
- Freeing memory (`swapchain_cleanup`'s frees, `ecs_cleanup`) and mapping and unmapping the staging memory are not modelled. The staging memory is a fresh array.
- Buffers.UploadMesh: `n_indices` and `n_vertices` are modelled as sequence lengths, so the negative counts a C `int` allows are not modelled. Sizes are unbounded and do not wrap in `size_t`.
- Buffers: the host is assumed little-endian, with `Vertex` laid out as twelve 32-bit fields and no padding.
- SIZEOF_PUSH_CONSTANTS is 80, `sizeof(PushConstants)` under cglm's default alignment (a 16-byte-aligned 64-byte `mat4`, an 8-byte device address, padding to 80). With AVX enabled cglm aligns `mat4` to 32 bytes and the size becomes 96; that build configuration is not modelled.
- Renderer.Renderer.IncFrame: `frame` is an unbounded integer, so the overflow of the C `int` is not modelled.
- Scene.Ecs.constructor: `malloc` leaves the entity array uninitialised; the model starts it at zeros.
- Scene.Ecs.RenderableCollect requires an output array with room for every component in use (`count <= out.Length`). The source writes only the first MeshCount slots, so a caller whose array holds just the renderables is not covered.
- Scene.Ecs.AddEntity: the source does not check the capacity. The model requires count < capacity rather than modelling the overflow write.
- Pipelines.WithStagesKeepsAndAdds does not state that no bits outside the old mask and `stages` are set. WithStages defines the new mask as their OR, which implies it.
- Swapchain.Swapchain.CreateSwapChain requires at least one format and one present mode. The source indexes `formats[0]` and `present_modes[0]` without checking.

## Findings

| source | as written | input that shows it | evidently intended | confidence | as-written member | corrected member |
|---|---|---|---|---|---|---|
| src/engine/renderer/renderer.c:79-90 | fences[f] is reset before the acquire, and the out-of-date return leaves it reset with no work submitted to signal it; the slot does not advance, so the next draw waits on that fence and its one-second `VK_CHECK` wait times out and exits | all three fences signalled; the acquire reports out-of-date; the next draw has an idle GPU and a successful acquire, yet its wait times out | reset the fence only after a successful acquire, so an abandoned frame leaves it signalled and the retry proceeds | not executed | Frame.OutOfDateAcquireCounterexample | Frame.CorrectedDrawKeepsFencesLive |
| src/engine/scene/scene.c:51 | the mesh (and, at line 55, the transformation) is read from render_components[counter] instead of the component i that was tested for NULL; once an entity without a mesh precedes a renderable, the two differ and the loop reads a NULL mesh | entity 0 added with ecs_add_entity (no mesh), entity 1 added with a mesh: at i = 1, counter is 0 and component 0's mesh is NULL | read render_components[i]; the k-th renderable then fills slot k from its own mesh | not executed | Scene.AsWrittenDereferencesNull | Scene.IntendedSlotsHoldOwnObjects |

The out-of-date branch of `renderer_draw` sets `resize_requested` so that
a later frame can retry (src/engine/renderer/renderer.c:87-89); as
written, that retry times out instead. Frame.DrawStep and Renderer.Renderer.Draw model the
code as written. Frame.DrawStepCorrected is the corrected step, and
Frame.CorrectedOutOfDateRetrySucceeds proves that its retry goes through.
Scene.Ecs.RenderableCollect is the pass as written. Scene.CollectIntended
is the corrected definition. The two agree whenever entities are added
only through ecs_add_renderable: Scene.Ecs.AddRenderable keeps every
component in use renderable, and under that condition
Scene.Ecs.RenderableCollect returns the intended pass. Apart from
ecs_add_renderable's own call of ecs_add_entity
(src/engine/scene/scene.c:26), none of the source files in this model
calls either function, so which path the engine would use is not
settled here.
