/** src/engine/renderer/renderer.c: the Renderer's per-slot command and
    synchronisation objects, renderer_draw, renderer_inc_frame,
    get_submit_info and the immediate-submit path. */
module Renderer {
  import opened Wrappers
  import opened Vulkan
  import opened RendererTypes
  import opened Images
  import opened Frame
  import Swapchain
  import Utils

  /** The fields of struct Renderer that the modelled functions read or
      write. Handles the driver creates are supplied by the caller of the
      method that creates them. `fenceStatus` and `immFenceStatus` are what
      is known of each fence's state; `calls` logs the device and queue
      calls in the order they are issued. */
  class Renderer {
    var commandPools: array<Handle>
    var commandBuffers: array<Handle>
    var semaphoresSwapchain: array<Handle>
    var semaphoresRender: array<Handle>
    var fences: array<Handle>
    var immCommandPool: Handle
    var immCommandBuffer: Handle
    var immFence: Handle
    var frameInFlight: u8
    var frame: int
    var resizeRequested: bool
    var drawImage: Image
    var depthImage: Image
    var swapchain: Swapchain.Swapchain
    var fenceStatus: seq<FenceStatus>
    var immFenceStatus: FenceStatus
    var calls: seq<Call>

    /** The per-slot arrays have FRAMES_IN_FLIGHT entries and are distinct
        storage (from each other and from the swapchain's arrays), and the
        slot index is in range. */
    predicate Valid()
      reads this, swapchain, swapchain.images, swapchain.imageViews
    {
      commandPools.Length == FRAMES_IN_FLIGHT && commandBuffers.Length == FRAMES_IN_FLIGHT &&
      semaphoresSwapchain.Length == FRAMES_IN_FLIGHT && semaphoresRender.Length == FRAMES_IN_FLIGHT &&
      fences.Length == FRAMES_IN_FLIGHT &&
      commandPools != commandBuffers &&
      commandPools != fences && commandPools != semaphoresRender && commandPools != semaphoresSwapchain &&
      commandBuffers != fences && commandBuffers != semaphoresRender && commandBuffers != semaphoresSwapchain &&
      fences != semaphoresRender && fences != semaphoresSwapchain && semaphoresRender != semaphoresSwapchain &&
      commandPools != swapchain.images && commandPools != swapchain.imageViews &&
      commandBuffers != swapchain.images && commandBuffers != swapchain.imageViews &&
      fences != swapchain.images && fences != swapchain.imageViews &&
      semaphoresRender != swapchain.images && semaphoresRender != swapchain.imageViews &&
      semaphoresSwapchain != swapchain.images && semaphoresSwapchain != swapchain.imageViews &&
      |fenceStatus| == FRAMES_IN_FLIGHT && frameInFlight < FRAMES_IN_FLIGHT
    }

    /** The handles of slot i, all indexed by the same i. */
    function SlotAt(i: nat): (slot: Slot)
      reads this, fences, semaphoresSwapchain, semaphoresRender, commandBuffers
      requires i < fences.Length && i < semaphoresSwapchain.Length
      requires i < semaphoresRender.Length && i < commandBuffers.Length
      ensures slot.fence == fences[i] && slot.imageAcquired == semaphoresSwapchain[i]
      ensures slot.renderFinished == semaphoresRender[i] && slot.commandBuffer == commandBuffers[i]
    {
      Slot(fences[i], semaphoresSwapchain[i], semaphoresRender[i], commandBuffers[i])
    }

    function Slots(): seq<Slot>
      reads this, fences, semaphoresSwapchain, semaphoresRender, commandBuffers
      requires fences.Length == semaphoresSwapchain.Length == semaphoresRender.Length
      requires commandBuffers.Length == fences.Length == FRAMES_IN_FLIGHT
    {
      [SlotAt(0), SlotAt(1), SlotAt(2)]
    }

    function State(): SyncState
      reads this
    {
      SyncState(frameInFlight, frame, resizeRequested, fenceStatus, calls)
    }

    function Targets(): FrameTargets
      reads this, swapchain, swapchain.images, swapchain.imageViews
    {
      FrameTargets(drawImage, depthImage, swapchain.swapchain,
                   swapchain.images[..], swapchain.imageViews[..], swapchain.extent)
    }

    /** A zero-initialised Renderer whose draw and depth images were made by
        create_drawing_image (not part of this model). */
    constructor (drawImage: Image, depthImage: Image)
      ensures Valid() && fresh(swapchain)
      ensures this.drawImage == drawImage && this.depthImage == depthImage
      ensures frameInFlight == 0 && frame == 0 && !resizeRequested && calls == []
    {
      commandPools := new Handle[FRAMES_IN_FLIGHT](_ => NULL_HANDLE);
      commandBuffers := new Handle[FRAMES_IN_FLIGHT](_ => NULL_HANDLE);
      semaphoresSwapchain := new Handle[FRAMES_IN_FLIGHT](_ => NULL_HANDLE);
      semaphoresRender := new Handle[FRAMES_IN_FLIGHT](_ => NULL_HANDLE);
      fences := new Handle[FRAMES_IN_FLIGHT](_ => NULL_HANDLE);
      immCommandPool, immCommandBuffer, immFence := NULL_HANDLE, NULL_HANDLE, NULL_HANDLE;
      frameInFlight, frame, resizeRequested := 0, 0, false;
      this.drawImage, this.depthImage := drawImage, depthImage;
      swapchain := new Swapchain.Swapchain();
      fenceStatus := [Unsignalled, Unsignalled, Unsignalled];
      immFenceStatus := Unsignalled;
      calls := [];
    }

    /** The objects and handles the frame loop only reads are unchanged. */
    twostate predicate SameObjects()
      reads this
    {
      commandPools == old(commandPools) && commandBuffers == old(commandBuffers) &&
      fences == old(fences) && semaphoresRender == old(semaphoresRender) &&
      semaphoresSwapchain == old(semaphoresSwapchain) &&
      immCommandPool == old(immCommandPool) && immCommandBuffer == old(immCommandBuffer) &&
      immFence == old(immFence) &&
      swapchain == old(swapchain) && drawImage == old(drawImage) && depthImage == old(depthImage)
    }

    /** create_command_buffers: one pool and one primary command buffer per
        slot, then the immediate pool and buffer; every pool is created for
        the graphics family. `pools` and `buffers` are the driver's handles
        in creation order, the immediate ones last. */
    method CreateCommandBuffers(indices: Utils.QueueFamilyIndices, pools: seq<Handle>, buffers: seq<Handle>)
      requires Valid() && |pools| == FRAMES_IN_FLIGHT + 1 && |buffers| == FRAMES_IN_FLIGHT + 1
      modifies this, commandPools, commandBuffers
      ensures Valid()
      ensures commandPools[..] == pools[..FRAMES_IN_FLIGHT] && commandBuffers[..] == buffers[..FRAMES_IN_FLIGHT]
      ensures immCommandPool == pools[FRAMES_IN_FLIGHT] && immCommandBuffer == buffers[FRAMES_IN_FLIGHT]
      ensures calls == old(calls) + CommandPoolCreation(pools, buffers, indices.graphicsFamily, FRAMES_IN_FLIGHT + 1)
      ensures commandPools == old(commandPools) && commandBuffers == old(commandBuffers)
      ensures fences == old(fences) && semaphoresRender == old(semaphoresRender)
      ensures semaphoresSwapchain == old(semaphoresSwapchain) && immFence == old(immFence)
      ensures fenceStatus == old(fenceStatus) && immFenceStatus == old(immFenceStatus)
      ensures frameInFlight == old(frameInFlight) && frame == old(frame) && resizeRequested == old(resizeRequested)
      ensures swapchain == old(swapchain) && drawImage == old(drawImage) && depthImage == old(depthImage)
    {
      var family := indices.graphicsFamily;
      var log := calls;
      for i := 0 to FRAMES_IN_FLIGHT
        modifies commandPools, commandBuffers
        invariant commandPools[..i] == pools[..i] && commandBuffers[..i] == buffers[..i]
        invariant log == old(calls) + CommandPoolCreation(pools, buffers, family, i)
      {
        commandPools[i] := pools[i];
        log := log + [CreateCommandPool(commandPools[i], family)];
        commandBuffers[i] := buffers[i];
        log := log + [AllocateCommandBuffer(commandPools[i], commandBuffers[i])];
      }
      calls := log;
      immCommandPool := pools[FRAMES_IN_FLIGHT];
      calls := calls + [CreateCommandPool(immCommandPool, family)];
      immCommandBuffer := buffers[FRAMES_IN_FLIGHT];
      calls := calls + [AllocateCommandBuffer(immCommandPool, immCommandBuffer)];
      assert commandPools[..] == commandPools[..FRAMES_IN_FLIGHT];
      assert commandBuffers[..] == commandBuffers[..FRAMES_IN_FLIGHT];
    }

    /** sync_initialise: per slot, a fence created signalled, then the
        render-finished semaphore, then the image-acquired semaphore; then
        the immediate fence, also signalled. `created` holds the ten
        handles in creation order. */
    method SyncInitialise(created: seq<Handle>)
      requires Valid() && |created| == 3 * FRAMES_IN_FLIGHT + 1
      modifies this, fences, semaphoresRender, semaphoresSwapchain
      ensures Valid()
      ensures forall i :: 0 <= i < FRAMES_IN_FLIGHT ==>
        fences[i] == created[3 * i] && semaphoresRender[i] == created[3 * i + 1] &&
        semaphoresSwapchain[i] == created[3 * i + 2]
      ensures immFence == created[3 * FRAMES_IN_FLIGHT]
      ensures fenceStatus == [Signalled, Signalled, Signalled] && immFenceStatus == Signalled
      ensures calls == old(calls) + SyncCreation(created)
      ensures fences == old(fences) && semaphoresRender == old(semaphoresRender)
      ensures semaphoresSwapchain == old(semaphoresSwapchain)
      ensures commandPools == old(commandPools) && commandBuffers == old(commandBuffers)
      ensures immCommandPool == old(immCommandPool) && immCommandBuffer == old(immCommandBuffer)
      ensures frameInFlight == old(frameInFlight) && frame == old(frame) && resizeRequested == old(resizeRequested)
      ensures swapchain == old(swapchain) && drawImage == old(drawImage) && depthImage == old(depthImage)
    {
      var log := CreateSlotSync(created, calls);
      calls, fenceStatus := log, [Signalled, Signalled, Signalled];
      immFence := created[3 * FRAMES_IN_FLIGHT];
      immFenceStatus := Signalled;
      calls := calls + [CreateFence(immFence, true)];
    }

    /** The loop of sync_initialise: slot i's fence, created signalled,
        then its render-finished and image-acquired semaphores, taken from
        the i-th triple of `created`. Only the three arrays change. */
    method CreateSlotSync(created: seq<Handle>, log: seq<Call>) returns (log': seq<Call>)
      requires Valid() && |created| == 3 * FRAMES_IN_FLIGHT + 1
      modifies fences, semaphoresRender, semaphoresSwapchain
      ensures forall i :: 0 <= i < FRAMES_IN_FLIGHT ==>
        fences[i] == created[3 * i] && semaphoresRender[i] == created[3 * i + 1] &&
        semaphoresSwapchain[i] == created[3 * i + 2]
      ensures log' == log + SlotSyncCreation(created, FRAMES_IN_FLIGHT)
    {
      log' := log;
      for i := 0 to FRAMES_IN_FLIGHT
        invariant forall k :: 0 <= k < i ==>
          fences[k] == created[3 * k] && semaphoresRender[k] == created[3 * k + 1] &&
          semaphoresSwapchain[k] == created[3 * k + 2]
        invariant log' == log + SlotSyncCreation(created, i)
      {
        var fence, renderFinished, imageAcquired := created[3 * i], created[3 * i + 1], created[3 * i + 2];
        fences[i] := fence;
        semaphoresRender[i] := renderFinished;
        semaphoresSwapchain[i] := imageAcquired;
        log' := log' + [CreateFence(fence, true), CreateSemaphore(renderFinished), CreateSemaphore(imageAcquired)];
      }
    }

    /** The tail of renderer_initialise that this model covers: command
        buffers, synchronisation objects, then both counters set to 0. The
        new state holds every handle the two steps store, and the log is
        their two call sequences in order. */
    method Initialise(indices: Utils.QueueFamilyIndices, pools: seq<Handle>, buffers: seq<Handle>, created: seq<Handle>)
      requires Valid() && |pools| == FRAMES_IN_FLIGHT + 1 && |buffers| == FRAMES_IN_FLIGHT + 1
      requires |created| == 3 * FRAMES_IN_FLIGHT + 1
      modifies this, commandPools, commandBuffers, fences, semaphoresRender, semaphoresSwapchain
      ensures Valid()
      ensures frameInFlight == 0 && frame == 0
      ensures CountersAgree(State()) && NoStrandedFence(State())
      ensures fenceStatus == [Signalled, Signalled, Signalled] && immFenceStatus == Signalled
      ensures commandPools[..] == pools[..FRAMES_IN_FLIGHT] && commandBuffers[..] == buffers[..FRAMES_IN_FLIGHT]
      ensures immCommandPool == pools[FRAMES_IN_FLIGHT] && immCommandBuffer == buffers[FRAMES_IN_FLIGHT]
      ensures forall i :: 0 <= i < FRAMES_IN_FLIGHT ==>
        fences[i] == created[3 * i] && semaphoresRender[i] == created[3 * i + 1] &&
        semaphoresSwapchain[i] == created[3 * i + 2]
      ensures immFence == created[3 * FRAMES_IN_FLIGHT] && resizeRequested == old(resizeRequested)
      ensures calls == old(calls) + CommandPoolCreation(pools, buffers, indices.graphicsFamily, FRAMES_IN_FLIGHT + 1)
                       + SyncCreation(created)
      ensures commandPools == old(commandPools) && commandBuffers == old(commandBuffers)
      ensures fences == old(fences) && semaphoresRender == old(semaphoresRender)
      ensures semaphoresSwapchain == old(semaphoresSwapchain)
      ensures swapchain == old(swapchain) && drawImage == old(drawImage) && depthImage == old(depthImage)
    {
      CreateCommandBuffers(indices, pools, buffers);
      SyncInitialise(created);
      frameInFlight := 0;
      frame := 0;
    }

    /** renderer_inc_frame: the slot index moves to the next slot (back to
        0 once it reaches FRAMES_IN_FLIGHT) and the frame counter grows by
        one. The index is a uint8_t; its wrap at 256 lands on 0 as well. */
    method IncFrame()
      modifies this
      ensures frameInFlight == NextSlot(old(frameInFlight)) && frame == old(frame) + 1
      ensures frameInFlight < FRAMES_IN_FLIGHT
      ensures old(frameInFlight) < FRAMES_IN_FLIGHT ==> frameInFlight == (old(frameInFlight) + 1) % FRAMES_IN_FLIGHT
      ensures commandPools == old(commandPools) && commandBuffers == old(commandBuffers)
      ensures fences == old(fences) && semaphoresRender == old(semaphoresRender)
      ensures semaphoresSwapchain == old(semaphoresSwapchain)
      ensures immCommandPool == old(immCommandPool) && immCommandBuffer == old(immCommandBuffer) && immFence == old(immFence)
      ensures resizeRequested == old(resizeRequested) && fenceStatus == old(fenceStatus)
      ensures immFenceStatus == old(immFenceStatus) && calls == old(calls)
      ensures swapchain == old(swapchain) && drawImage == old(drawImage) && depthImage == old(depthImage)
    {
      frameInFlight := (frameInFlight + 1) % 256;
      if frameInFlight >= FRAMES_IN_FLIGHT {
        frameInFlight := 0;
      }
      frame := frame + 1;
    }

    /** get_submit_info: the submit of the current slot waits on that slot's
        image-acquired semaphore at the colour-attachment-output stage,
        carries that slot's command buffer and signals that slot's
        render-finished semaphore. */
    function GetSubmitInfo(): (info: SubmitInfo)
      reads this, fences, semaphoresSwapchain, semaphoresRender, commandBuffers
      requires frameInFlight < fences.Length && frameInFlight < semaphoresSwapchain.Length
      requires frameInFlight < semaphoresRender.Length && frameInFlight < commandBuffers.Length
      ensures info.waitSemaphores == [semaphoresSwapchain[frameInFlight]]
      ensures info.waitStages == [PIPELINE_STAGE_COLOR_ATTACHMENT_OUTPUT]
      ensures info.commandBuffers == [commandBuffers[frameInFlight]]
      ensures info.signalSemaphores == [semaphoresRender[frameInFlight]]
    {
      SubmitInfoFor(SlotAt(frameInFlight))
    }

    /** renderer_draw, step by step; its effect is exactly Frame.DrawStep on
        the entry state, which is where its properties are proved. */
    method Draw(env: DrawEnv) returns (outcome: DrawOutcome)
      requires Valid() && EnvFits(Targets(), env)
      modifies this
      ensures Valid()
      ensures (outcome, State()) == DrawStep(old(State()), old(Slots()), old(Targets()), env)
      ensures commandPools == old(commandPools) && commandBuffers == old(commandBuffers)
      ensures fences == old(fences) && semaphoresRender == old(semaphoresRender)
      ensures semaphoresSwapchain == old(semaphoresSwapchain)
      ensures immCommandPool == old(immCommandPool) && immCommandBuffer == old(immCommandBuffer) && immFence == old(immFence)
      ensures immFenceStatus == old(immFenceStatus)
      ensures swapchain == old(swapchain) && drawImage == old(drawImage) && depthImage == old(depthImage)
    {
      var t := Targets();
      var f := frameInFlight;
      assert Slots()[f] == SlotAt(f);
      var log := calls + [WaitForFence(fences[f])];
      if !WaitSucceeds(fenceStatus[f], env.gpuFinishes) {
        calls := log;
        return WaitTimedOut;
      }
      log := log + [ResetFence(fences[f])];
      var status := fenceStatus[f := Unsignalled];
      log := log + [AcquireNextImage(swapchain.swapchain, semaphoresSwapchain[f])];
      if env.acquire.AcquireOutOfDate? {
        calls, fenceStatus, resizeRequested := log, status, true;
        return AbandonedOutOfDate;
      }
      var imageIndex := env.acquire.imageIndex;
      var cmdBuf := commandBuffers[f];
      var recorded := [ResetCommandBuffer(cmdBuf), BeginCommandBuffer(cmdBuf)];
      recorded := RecordFrame(recorded, cmdBuf, t, imageIndex);
      recorded := recorded + [EndCommandBuffer(cmdBuf)];
      var submitInfo := GetSubmitInfo();
      recorded := recorded + [QueueSubmit(submitInfo, fences[f])];
      status := status[f := Pending];
      recorded := recorded + [QueuePresent(swapchain.swapchain, semaphoresRender[f], imageIndex)];
      log := log + recorded;
      calls, fenceStatus := log, status;
      if env.presentOutOfDate {
        resizeRequested := true;
      }
      IncFrame();
      return Presented;
    }

    /** immediate_begin: the immediate fence and command buffer are reset,
        then recording begins. */
    method ImmediateBegin()
      modifies this
      ensures immFenceStatus == Unsignalled
      ensures calls == old(calls) + [ResetFence(immFence), ResetCommandBuffer(immCommandBuffer),
                                     BeginCommandBuffer(immCommandBuffer)]
      ensures commandPools == old(commandPools) && commandBuffers == old(commandBuffers)
      ensures fences == old(fences) && semaphoresRender == old(semaphoresRender)
      ensures semaphoresSwapchain == old(semaphoresSwapchain)
      ensures immCommandPool == old(immCommandPool) && immCommandBuffer == old(immCommandBuffer) && immFence == old(immFence)
      ensures frameInFlight == old(frameInFlight) && frame == old(frame) && resizeRequested == old(resizeRequested)
      ensures fenceStatus == old(fenceStatus)
      ensures swapchain == old(swapchain) && drawImage == old(drawImage) && depthImage == old(depthImage)
    {
      calls := calls + [ResetFence(immFence)];
      immFenceStatus := Unsignalled;
      calls := calls + [ResetCommandBuffer(immCommandBuffer)];
      calls := calls + [BeginCommandBuffer(immCommandBuffer)];
    }

    /** A command a caller records into the immediate command buffer
        between immediate_begin and immediate_end. */
    method RecordImmediate(command: Command)
      modifies this
      ensures calls == old(calls) + [Record(immCommandBuffer, command)]
      ensures commandPools == old(commandPools) && commandBuffers == old(commandBuffers)
      ensures fences == old(fences) && semaphoresRender == old(semaphoresRender)
      ensures semaphoresSwapchain == old(semaphoresSwapchain)
      ensures immCommandPool == old(immCommandPool) && immCommandBuffer == old(immCommandBuffer) && immFence == old(immFence)
      ensures frameInFlight == old(frameInFlight) && frame == old(frame) && resizeRequested == old(resizeRequested)
      ensures fenceStatus == old(fenceStatus) && immFenceStatus == old(immFenceStatus)
      ensures swapchain == old(swapchain) && drawImage == old(drawImage) && depthImage == old(depthImage)
    {
      calls := calls + [Record(immCommandBuffer, command)];
    }

    /** immediate_end: recording ends, the buffer is submitted with the
        immediate fence (no semaphores, ALL_GRAPHICS wait stage) and that
        fence is waited on. `gpuFinishes` says whether the GPU completes the
        work within the timeout; when it does not, VK_CHECK exits. On return
        the fence is signalled, so the recorded work is complete. */
    method ImmediateEnd(gpuFinishes: bool) returns (completed: bool)
      modifies this
      ensures completed == gpuFinishes
      ensures completed ==> immFenceStatus == Signalled
      ensures !completed ==> immFenceStatus == Pending
      ensures calls == old(calls) + [
        EndCommandBuffer(immCommandBuffer),
        QueueSubmit(SubmitInfo([], [PIPELINE_STAGE_ALL_GRAPHICS], [immCommandBuffer], []), immFence),
        WaitForFence(immFence)]
      ensures commandPools == old(commandPools) && commandBuffers == old(commandBuffers)
      ensures fences == old(fences) && semaphoresRender == old(semaphoresRender)
      ensures semaphoresSwapchain == old(semaphoresSwapchain)
      ensures immCommandPool == old(immCommandPool) && immCommandBuffer == old(immCommandBuffer) && immFence == old(immFence)
      ensures frameInFlight == old(frameInFlight) && frame == old(frame) && resizeRequested == old(resizeRequested)
      ensures fenceStatus == old(fenceStatus)
      ensures swapchain == old(swapchain) && drawImage == old(drawImage) && depthImage == old(depthImage)
    {
      calls := calls + [EndCommandBuffer(immCommandBuffer)];
      var submitInfo := SubmitInfo([], [PIPELINE_STAGE_ALL_GRAPHICS], [immCommandBuffer], []);
      calls := calls + [QueueSubmit(submitInfo, immFence)];
      immFenceStatus := Pending;
      calls := calls + [WaitForFence(immFence)];
      completed := WaitSucceeds(immFenceStatus, gpuFinishes);
      if completed {
        immFenceStatus := Signalled;
      }
    }
  }

  /** The commands renderer_draw records between begin and end, appended
      to the call log one by one. */
  method RecordFrame(log: seq<Call>, cmdBuf: Handle, t: FrameTargets, imageIndex: nat) returns (log': seq<Call>)
    requires imageIndex < |t.swapchainImages| && imageIndex < |t.swapchainViews|
    ensures log' == log + Records(cmdBuf, FrameCommands(t, imageIndex))
  {
    var draw, depth := t.drawImage, t.depthImage;
    var target := t.swapchainImages[imageIndex];
    var drawExtent := Extent2D(draw.extent.width, draw.extent.height);
    log' := log + [Record(cmdBuf, TransitionImage(draw.image, Undefined, ColorAttachmentOptimal))];
    log' := log' + [Record(cmdBuf, TransitionImage(depth.image, Undefined, DepthAttachmentOptimal))];
    // draw_geometry: one dynamic-rendering pass with both attachments
    log' := log' + [Record(cmdBuf, GeometryPass(Attachment(draw.image, draw.view, ColorAttachmentOptimal),
                                                Attachment(depth.image, depth.view, DepthAttachmentOptimal),
                                                drawExtent))];
    log' := log' + [Record(cmdBuf, TransitionImage(draw.image, ColorAttachmentOptimal, TransferSrcOptimal))];
    log' := log' + [Record(cmdBuf, TransitionImage(target, Undefined, TransferDstOptimal))];
    log' := log' + [Record(cmdBuf, CopyImage(draw.image, target, drawExtent, t.swapchainExtent))];
    log' := log' + [Record(cmdBuf, TransitionImage(target, TransferDstOptimal, ColorAttachmentOptimal))];
    // imgui_draw: the overlay pass on the acquired image's view
    log' := log' + [Record(cmdBuf, OverlayPass(Attachment(target, t.swapchainViews[imageIndex], ColorAttachmentOptimal),
                                               t.swapchainExtent))];
    log' := log' + [Record(cmdBuf, TransitionImage(target, ColorAttachmentOptimal, PresentSrc))];
    assert log'[|log|..] == Records(cmdBuf, FrameCommands(t, imageIndex));
  }

  /** The calls create_command_buffers issues for the first n pools: each
      pool is created for `family`, then one buffer is allocated from it. */
  function CommandPoolCreation(pools: seq<Handle>, buffers: seq<Handle>, family: Option<nat>, n: nat): (r: seq<Call>)
    requires n <= |pools| && n <= |buffers|
    ensures |r| == 2 * n
  {
    if n == 0 then []
    else CommandPoolCreation(pools, buffers, family, n - 1)
         + [CreateCommandPool(pools[n - 1], family), AllocateCommandBuffer(pools[n - 1], buffers[n - 1])]
  }

  /** Pool i is created at call 2i and its buffer is allocated from it at
      call 2i + 1. */
  lemma {:induction false} CommandPoolCreationOrder(pools: seq<Handle>, buffers: seq<Handle>, family: Option<nat>, n: nat)
    requires n <= |pools| && n <= |buffers|
    ensures var r := CommandPoolCreation(pools, buffers, family, n);
      forall i :: 0 <= i < n ==>
        r[2 * i] == CreateCommandPool(pools[i], family) && r[2 * i + 1] == AllocateCommandBuffer(pools[i], buffers[i])
  {
    if n > 0 {
      CommandPoolCreationOrder(pools, buffers, family, n - 1);
      var prev := CommandPoolCreation(pools, buffers, family, n - 1);
      var r := CommandPoolCreation(pools, buffers, family, n);
      assert r == prev + [CreateCommandPool(pools[n - 1], family), AllocateCommandBuffer(pools[n - 1], buffers[n - 1])];
      forall i | 0 <= i < n - 1
        ensures r[2 * i] == prev[2 * i] && r[2 * i + 1] == prev[2 * i + 1]
      {
      }
    }
  }

  /** The calls sync_initialise issues for the first n slots. */
  function SlotSyncCreation(created: seq<Handle>, n: nat): (r: seq<Call>)
    requires 3 * n <= |created|
    ensures |r| == 3 * n
  {
    if n == 0 then []
    else SlotSyncCreation(created, n - 1)
         + [CreateFence(created[3 * (n - 1)], true), CreateSemaphore(created[3 * (n - 1) + 1]),
            CreateSemaphore(created[3 * (n - 1) + 2])]
  }

  /** Slot i's fence is created (signalled) at call 3i, its
      render-finished semaphore at 3i + 1 and its image-acquired semaphore
      at 3i + 2. */
  lemma {:induction false} SlotSyncCreationOrder(created: seq<Handle>, n: nat)
    requires 3 * n <= |created|
    ensures var r := SlotSyncCreation(created, n);
      forall i :: 0 <= i < n ==>
        r[3 * i] == CreateFence(created[3 * i], true) &&
        r[3 * i + 1] == CreateSemaphore(created[3 * i + 1]) &&
        r[3 * i + 2] == CreateSemaphore(created[3 * i + 2])
  {
    if n > 0 {
      SlotSyncCreationOrder(created, n - 1);
      var prev := SlotSyncCreation(created, n - 1);
      var r := SlotSyncCreation(created, n);
      forall i | 0 <= i < n - 1
        ensures r[3 * i] == prev[3 * i] && r[3 * i + 1] == prev[3 * i + 1] && r[3 * i + 2] == prev[3 * i + 2]
      {
      }
    }
  }

  /** All calls of sync_initialise: the slots, then the immediate fence. */
  function SyncCreation(created: seq<Handle>): seq<Call>
    requires |created| == 3 * FRAMES_IN_FLIGHT + 1
  {
    SlotSyncCreation(created, FRAMES_IN_FLIGHT) + [CreateFence(created[3 * FRAMES_IN_FLIGHT], true)]
  }

  /** sync_initialise creates fences at every third call, starting with
      the first, each one already signalled (so the first wait on it
      returns at once); the calls in between create semaphores. */
  lemma SyncCreationSignalsEveryFence(created: seq<Handle>)
    requires |created| == 3 * FRAMES_IN_FLIGHT + 1
    ensures var cs := SyncCreation(created);
      |cs| == 3 * FRAMES_IN_FLIGHT + 1 &&
      (forall i :: 0 <= i < |cs| ==> (cs[i].CreateFence? <==> i % 3 == 0)) &&
      (forall i :: 0 <= i < |cs| ==> cs[i].CreateFence? || cs[i].CreateSemaphore?) &&
      (forall i :: 0 <= i < |cs| && cs[i].CreateFence? ==> cs[i].signalled)
  {
    var cs := SyncCreation(created);
    var slots := SlotSyncCreation(created, FRAMES_IN_FLIGHT);
    SlotSyncCreationOrder(created, FRAMES_IN_FLIGHT);
    forall i | 0 <= i < 3 * FRAMES_IN_FLIGHT
      ensures (cs[i].CreateFence? <==> i % 3 == 0) && (cs[i].CreateFence? || cs[i].CreateSemaphore?)
      ensures cs[i].CreateFence? ==> cs[i].signalled
    {
      var k := i / 3;
      assert i == 3 * k || i == 3 * k + 1 || i == 3 * k + 2;
      assert cs[i] == slots[i];
    }
  }
}
