/** The frame-slot protocol of renderer_draw (src/engine/renderer/renderer.c)
    as a pure step function over the synchronisation state, the command
    chain it records, and a tracker of image layouts that checks that chain.
    The GPU and the window system are the environment of one step
    (`DrawEnv`): whether submitted work finishes within the wait timeout,
    what the acquire returns, and whether the present reports out-of-date. */
module Frame {
  import opened Wrappers
  import opened Vulkan
  import opened RendererTypes
  import opened Images

  /** What a fence is known to be: signalled, reset with nothing submitted
      to signal it, or submitted with GPU work still to finish. */
  datatype FenceStatus = Signalled | Unsignalled | Pending

  /** The handles of one frame slot, all taken at the same index. */
  datatype Slot = Slot(fence: Handle, imageAcquired: Handle, renderFinished: Handle, commandBuffer: Handle)

  /** The images one frame draws into and presents from. */
  datatype FrameTargets = FrameTargets(
    drawImage: Image, depthImage: Image, swapchain: Handle,
    swapchainImages: seq<Handle>, swapchainViews: seq<Handle>, swapchainExtent: Extent2D)

  /** The part of the Renderer the frame loop changes, plus the log of the
      device and queue calls issued so far. */
  datatype SyncState = SyncState(
    frameInFlight: nat, frame: int, resizeRequested: bool,
    fences: seq<FenceStatus>, calls: seq<Call>)

  datatype AcquireResult = Acquired(imageIndex: nat) | AcquireOutOfDate

  datatype DrawEnv = DrawEnv(gpuFinishes: bool, acquire: AcquireResult, presentOutOfDate: bool)

  /** Presented: the frame was submitted and presented. AbandonedOutOfDate:
      the early return after an out-of-date acquire. WaitTimedOut: the fence
      wait expired, which VK_CHECK turns into process exit. */
  datatype DrawOutcome = Presented | AbandonedOutOfDate | WaitTimedOut

  predicate WellFormed(s: SyncState) {
    s.frameInFlight < FRAMES_IN_FLIGHT && |s.fences| == FRAMES_IN_FLIGHT
  }

  /** A driver only ever returns the index of one of the swapchain's images. */
  predicate EnvFits(t: FrameTargets, env: DrawEnv) {
    env.acquire.Acquired? ==>
      env.acquire.imageIndex < |t.swapchainImages| && env.acquire.imageIndex < |t.swapchainViews|
  }

  /** renderer_inc_frame's slot rule: add one, back to 0 at FRAMES_IN_FLIGHT. */
  function NextSlot(f: nat): (n: nat)
    ensures n < FRAMES_IN_FLIGHT
    ensures f < FRAMES_IN_FLIGHT ==> n == (f + 1) % FRAMES_IN_FLIGHT
  {
    if f + 1 >= FRAMES_IN_FLIGHT then 0 else f + 1
  }

  /** A wait with the one-second timeout returns success exactly when the
      fence is signalled already or the work that will signal it finishes. */
  predicate WaitSucceeds(status: FenceStatus, gpuFinishes: bool) {
    status == Signalled || (status == Pending && gpuFinishes)
  }

  /** get_submit_info for a slot. */
  function SubmitInfoFor(slot: Slot): SubmitInfo {
    SubmitInfo([slot.imageAcquired], [PIPELINE_STAGE_COLOR_ATTACHMENT_OUTPUT],
               [slot.commandBuffer], [slot.renderFinished])
  }

  /** The number of commands renderer_draw records between begin and end. */
  const FRAME_COMMAND_COUNT: nat := 9

  /** Command k of those renderer_draw records between begin and end.
      draw_geometry is represented by its two attachments and imgui_draw by
      its colour target. */
  function FrameCommand(t: FrameTargets, imageIndex: nat, k: nat): Command
    requires imageIndex < |t.swapchainImages| && imageIndex < |t.swapchainViews| && k < FRAME_COMMAND_COUNT
  {
    var draw, depth := t.drawImage, t.depthImage;
    var target := t.swapchainImages[imageIndex];
    var drawExtent := Extent2D(draw.extent.width, draw.extent.height);
    match k
    case 0 => TransitionImage(draw.image, Undefined, ColorAttachmentOptimal)
    case 1 => TransitionImage(depth.image, Undefined, DepthAttachmentOptimal)
    case 2 => GeometryPass(Attachment(draw.image, draw.view, ColorAttachmentOptimal),
                           Attachment(depth.image, depth.view, DepthAttachmentOptimal), drawExtent)
    case 3 => TransitionImage(draw.image, ColorAttachmentOptimal, TransferSrcOptimal)
    case 4 => TransitionImage(target, Undefined, TransferDstOptimal)
    case 5 => CopyImage(draw.image, target, drawExtent, t.swapchainExtent)
    case 6 => TransitionImage(target, TransferDstOptimal, ColorAttachmentOptimal)
    case 7 => OverlayPass(Attachment(target, t.swapchainViews[imageIndex], ColorAttachmentOptimal), t.swapchainExtent)
    case 8 => TransitionImage(target, ColorAttachmentOptimal, PresentSrc)
  }

  /** The commands renderer_draw records between begin and end (lines
      102-144), in order. */
  function FrameCommands(t: FrameTargets, imageIndex: nat): seq<Command>
    requires imageIndex < |t.swapchainImages| && imageIndex < |t.swapchainViews|
  {
    seq(FRAME_COMMAND_COUNT, k requires 0 <= k < FRAME_COMMAND_COUNT => FrameCommand(t, imageIndex, k))
  }

  /** Recording a list of commands into one command buffer. */
  function Records(cmdBuf: Handle, cmds: seq<Command>): seq<Call> {
    seq(|cmds|, i requires 0 <= i < |cmds| => Record(cmdBuf, cmds[i]))
  }

  /** renderer_draw from its entry to its return. */
  function DrawStep(s: SyncState, slots: seq<Slot>, t: FrameTargets, env: DrawEnv): (r: (DrawOutcome, SyncState))
    requires WellFormed(s) && |slots| == FRAMES_IN_FLIGHT && EnvFits(t, env)
    ensures WellFormed(r.1)
    ensures r.0 == WaitTimedOut <==> !WaitSucceeds(s.fences[s.frameInFlight], env.gpuFinishes)
    ensures r.0 == Presented <==> WaitSucceeds(s.fences[s.frameInFlight], env.gpuFinishes) && env.acquire.Acquired?
    ensures r.0 == Presented ==> r.1.frameInFlight == NextSlot(s.frameInFlight) && r.1.frame == s.frame + 1
    ensures r.0 != Presented ==> r.1.frameInFlight == s.frameInFlight && r.1.frame == s.frame
    ensures r.1.resizeRequested <==>
      s.resizeRequested || (r.0 == AbandonedOutOfDate) || (r.0 == Presented && env.presentOutOfDate)
    ensures r.1.fences == s.fences[s.frameInFlight := r.1.fences[s.frameInFlight]]
  {
    var f := s.frameInFlight;
    var slot := slots[f];
    var waited := s.calls + [WaitForFence(slot.fence)];
    if !WaitSucceeds(s.fences[f], env.gpuFinishes) then
      (WaitTimedOut, s.(calls := waited))
    else
      var acquiring := waited + [ResetFence(slot.fence)] + [AcquireNextImage(t.swapchain, slot.imageAcquired)];
      var fences := s.fences[f := Unsignalled];
      match env.acquire
      case AcquireOutOfDate =>
        (AbandonedOutOfDate, s.(resizeRequested := true, fences := fences, calls := acquiring))
      case Acquired(idx) =>
        (Presented, SyncState(NextSlot(f), s.frame + 1, s.resizeRequested || env.presentOutOfDate,
                              fences[f := Pending], acquiring + RecordSubmitPresent(slot, t, idx)))
  }

  /** renderer_draw only appends to the call log: every step keeps the
      calls made before it as a prefix. */
  lemma DrawStepExtendsLog(s: SyncState, slots: seq<Slot>, t: FrameTargets, env: DrawEnv)
    requires WellFormed(s) && |slots| == FRAMES_IN_FLIGHT && EnvFits(t, env)
    ensures s.calls <= DrawStep(s, slots, t, env).1.calls
  {
    var slot := slots[s.frameInFlight];
    var waited := s.calls + [WaitForFence(slot.fence)];
    var acquiring := waited + [ResetFence(slot.fence)] + [AcquireNextImage(t.swapchain, slot.imageAcquired)];
    assert s.calls <= waited <= acquiring;
    if env.acquire.Acquired? {
      assert acquiring <= acquiring + RecordSubmitPresent(slot, t, env.acquire.imageIndex);
    }
  }

  /** The calls of renderer_draw after a successful acquire: re-record the
      slot's command buffer, submit it, present the acquired image. */
  function RecordSubmitPresent(slot: Slot, t: FrameTargets, imageIndex: nat): (r: seq<Call>)
    requires imageIndex < |t.swapchainImages| && imageIndex < |t.swapchainViews|
    ensures |r| == 14
  {
    var cb := slot.commandBuffer;
    [ResetCommandBuffer(cb), BeginCommandBuffer(cb)]
    + Records(cb, FrameCommands(t, imageIndex))
    + [EndCommandBuffer(cb)]
    + [QueueSubmit(SubmitInfoFor(slot), slot.fence)]
    + [QueuePresent(t.swapchain, slot.renderFinished, imageIndex)]
  }

  /** The calls one step appended to the log. */
  function NewCalls(s: SyncState, s': SyncState): seq<Call>
    requires s.calls <= s'.calls
  {
    s'.calls[|s.calls|..]
  }

  /** The handles used by one frame's calls on the normal path. */
  predicate OneSlotCalls(c: seq<Call>, slot: Slot, t: FrameTargets, imageIndex: nat) {
    |c| == 17 &&
    c[0] == WaitForFence(slot.fence) && c[1] == ResetFence(slot.fence) &&
    c[2] == AcquireNextImage(t.swapchain, slot.imageAcquired) &&
    c[3] == ResetCommandBuffer(slot.commandBuffer) && c[4] == BeginCommandBuffer(slot.commandBuffer) &&
    (forall i :: 5 <= i < 14 ==> c[i].Record? && c[i].cmd == slot.commandBuffer) &&
    c[14] == EndCommandBuffer(slot.commandBuffer) &&
    c[15].QueueSubmit? && c[15].fence == slot.fence &&
    c[15].info.waitSemaphores == [slot.imageAcquired] &&
    c[15].info.signalSemaphores == [slot.renderFinished] &&
    c[15].info.commandBuffers == [slot.commandBuffer] &&
    c[15].info.waitStages == [PIPELINE_STAGE_COLOR_ATTACHMENT_OUTPUT] &&
    c[16] == QueuePresent(t.swapchain, slot.renderFinished, imageIndex)
  }

  /** The wait, reset and acquire of a slot followed by the calls after a
      successful acquire all use that one slot's handles, in that order. */
  lemma WaitResetAcquireThenRecordUseOneSlot(slot: Slot, t: FrameTargets, imageIndex: nat)
    requires imageIndex < |t.swapchainImages| && imageIndex < |t.swapchainViews|
    ensures OneSlotCalls(
      [WaitForFence(slot.fence), ResetFence(slot.fence), AcquireNextImage(t.swapchain, slot.imageAcquired)]
      + RecordSubmitPresent(slot, t, imageIndex), slot, t, imageIndex)
  {
    var cb := slot.commandBuffer;
    var recs := Records(cb, FrameCommands(t, imageIndex));
    var c := [WaitForFence(slot.fence), ResetFence(slot.fence), AcquireNextImage(t.swapchain, slot.imageAcquired)]
      + RecordSubmitPresent(slot, t, imageIndex);
    assert c == [WaitForFence(slot.fence), ResetFence(slot.fence), AcquireNextImage(t.swapchain, slot.imageAcquired),
                 ResetCommandBuffer(cb), BeginCommandBuffer(cb)] + recs
      + [EndCommandBuffer(cb), QueueSubmit(SubmitInfoFor(slot), slot.fence),
         QueuePresent(t.swapchain, slot.renderFinished, imageIndex)];
    assert forall i :: 5 <= i < 14 ==> c[i] == recs[i - 5];
  }

  /** What a step appends is what follows the old log. */
  lemma AppendedSuffix<T>(a: seq<T>, b: seq<T>)
    ensures (a + b)[|a|..] == b
  {
  }

  /** Three single appends followed by a tail are one append of the three
      and the tail. */
  lemma RegroupThree<T>(a: seq<T>, x: T, y: T, z: T, b: seq<T>)
    ensures a + [x] + [y] + [z] + b == a + ([x, y, z] + b)
  {
    assert [x, y, z] + b == [x] + [y] + [z] + b;
  }

  /** On the normal path every handle comes from the entry slot f: the
      fence is waited on, then reset, then the image is acquired on f's
      image-acquired semaphore; only then is f's command buffer reset and
      re-recorded; the submit waits on f's image-acquired semaphore,
      signals f's render-finished semaphore and f's fence, and the present
      waits on f's render-finished semaphore. */
  lemma PresentedFrameUsesOneSlot(s: SyncState, slots: seq<Slot>, t: FrameTargets, env: DrawEnv)
    requires WellFormed(s) && |slots| == FRAMES_IN_FLIGHT && EnvFits(t, env)
    requires DrawStep(s, slots, t, env).0 == Presented
    ensures OneSlotCalls(NewCalls(s, DrawStep(s, slots, t, env).1), slots[s.frameInFlight], t, env.acquire.imageIndex)
  {
    var slot := slots[s.frameInFlight];
    var s' := DrawStep(s, slots, t, env).1;
    var idx := env.acquire.imageIndex;
    var head := [WaitForFence(slot.fence), ResetFence(slot.fence), AcquireNextImage(t.swapchain, slot.imageAcquired)];
    var rest := RecordSubmitPresent(slot, t, idx);
    assert s'.calls == s.calls + [head[0]] + [head[1]] + [head[2]] + rest;
    RegroupThree(s.calls, head[0], head[1], head[2], rest);
    AppendedSuffix(s.calls, head + rest);
    WaitResetAcquireThenRecordUseOneSlot(slot, t, idx);
  }

  /** An out-of-date acquire: the resize flag is set, nothing is submitted
      or presented, the slot and frame counters stay, and the slot's fence,
      already reset, is left unsignalled. */
  lemma OutOfDateAcquireAbandonsFrame(s: SyncState, slots: seq<Slot>, t: FrameTargets, env: DrawEnv)
    requires WellFormed(s) && |slots| == FRAMES_IN_FLIGHT && EnvFits(t, env)
    requires WaitSucceeds(s.fences[s.frameInFlight], env.gpuFinishes) && env.acquire.AcquireOutOfDate?
    ensures var (outcome, s') := DrawStep(s, slots, t, env);
      var slot := slots[s.frameInFlight];
      outcome == AbandonedOutOfDate && s'.resizeRequested &&
      s'.frameInFlight == s.frameInFlight && s'.frame == s.frame &&
      s'.fences[s.frameInFlight] == Unsignalled &&
      NewCalls(s, s') == [WaitForFence(slot.fence), ResetFence(slot.fence),
                          AcquireNextImage(t.swapchain, slot.imageAcquired)] &&
      forall c :: c in NewCalls(s, s') ==> !c.QueueSubmit? && !c.QueuePresent?
  {
  }

  /** An out-of-date present sets the resize flag, yet the frame advances. */
  lemma OutOfDatePresentStillAdvances(s: SyncState, slots: seq<Slot>, t: FrameTargets, env: DrawEnv)
    requires WellFormed(s) && |slots| == FRAMES_IN_FLIGHT && EnvFits(t, env)
    requires WaitSucceeds(s.fences[s.frameInFlight], env.gpuFinishes) && env.acquire.Acquired?
    requires env.presentOutOfDate
    ensures var (outcome, s') := DrawStep(s, slots, t, env);
      outcome == Presented && s'.resizeRequested &&
      s'.frameInFlight == (s.frameInFlight + 1) % FRAMES_IN_FLIGHT && s'.frame == s.frame + 1 &&
      s'.fences[s.frameInFlight] == Pending
  {
  }

  /** Fences created signalled make the first wait on a slot succeed,
      whatever the GPU does. */
  lemma SignalledSlotNeverTimesOut(s: SyncState, slots: seq<Slot>, t: FrameTargets, env: DrawEnv)
    requires WellFormed(s) && |slots| == FRAMES_IN_FLIGHT && EnvFits(t, env)
    requires s.fences[s.frameInFlight] == Signalled
    ensures DrawStep(s, slots, t, env).0 != WaitTimedOut
  {
  }

  /** As written: after an out-of-date acquire the next draw uses the same
      slot, whose fence was reset and has no submitted work to signal it,
      so that wait times out and the renderer exits. */
  lemma OutOfDateAcquireThenNextDrawTimesOut(s: SyncState, slots: seq<Slot>, t: FrameTargets, env: DrawEnv, next: DrawEnv)
    requires WellFormed(s) && |slots| == FRAMES_IN_FLIGHT && EnvFits(t, env) && EnvFits(t, next)
    requires WaitSucceeds(s.fences[s.frameInFlight], env.gpuFinishes) && env.acquire.AcquireOutOfDate?
    ensures var s' := DrawStep(s, slots, t, env).1;
      DrawStep(s', slots, t, next).0 == WaitTimedOut
  {
    var s' := DrawStep(s, slots, t, env).1;
    assert s'.frameInFlight == s.frameInFlight && s'.fences[s.frameInFlight] == Unsignalled;
  }

  /** A concrete run of the defect: all fences signalled, the acquire
      reports out-of-date, and the retry on the same slot times out even
      though the GPU is idle and the next acquire would succeed. */
  lemma OutOfDateAcquireCounterexample(slots: seq<Slot>, t: FrameTargets)
    requires |slots| == FRAMES_IN_FLIGHT && |t.swapchainImages| >= 1 && |t.swapchainViews| >= 1
    ensures var s := SyncState(0, 0, false, [Signalled, Signalled, Signalled], []);
      var (o1, s1) := DrawStep(s, slots, t, DrawEnv(true, AcquireOutOfDate, false));
      o1 == AbandonedOutOfDate &&
      DrawStep(s1, slots, t, DrawEnv(true, Acquired(0), false)).0 == WaitTimedOut
  {
    var s := SyncState(0, 0, false, [Signalled, Signalled, Signalled], []);
    OutOfDateAcquireThenNextDrawTimesOut(s, slots, t, DrawEnv(true, AcquireOutOfDate, false), DrawEnv(true, Acquired(0), false));
  }

  /** renderer_draw with the fence reset moved after a successful acquire:
      an out-of-date acquire then leaves the slot's fence signalled. */
  function DrawStepCorrected(s: SyncState, slots: seq<Slot>, t: FrameTargets, env: DrawEnv): (r: (DrawOutcome, SyncState))
    requires WellFormed(s) && |slots| == FRAMES_IN_FLIGHT && EnvFits(t, env)
    ensures WellFormed(r.1)
    ensures r.0 == WaitTimedOut <==> !WaitSucceeds(s.fences[s.frameInFlight], env.gpuFinishes)
    ensures r.0 == Presented <==> WaitSucceeds(s.fences[s.frameInFlight], env.gpuFinishes) && env.acquire.Acquired?
    ensures r.0 == Presented ==> r.1.frameInFlight == NextSlot(s.frameInFlight) && r.1.frame == s.frame + 1
    ensures r.0 != Presented ==> r.1.frameInFlight == s.frameInFlight && r.1.frame == s.frame
    ensures r.1.resizeRequested <==>
      s.resizeRequested || (r.0 == AbandonedOutOfDate) || (r.0 == Presented && env.presentOutOfDate)
    ensures r.1.fences == s.fences[s.frameInFlight := r.1.fences[s.frameInFlight]]
  {
    var f := s.frameInFlight;
    var slot := slots[f];
    var waited := s.calls + [WaitForFence(slot.fence)];
    if !WaitSucceeds(s.fences[f], env.gpuFinishes) then
      (WaitTimedOut, s.(calls := waited))
    else
      var acquiring := waited + [AcquireNextImage(t.swapchain, slot.imageAcquired)];
      match env.acquire
      case AcquireOutOfDate =>
        (AbandonedOutOfDate, s.(resizeRequested := true, fences := s.fences[f := Signalled], calls := acquiring))
      case Acquired(idx) =>
        var calls := acquiring + [ResetFence(slot.fence)] + RecordSubmitPresent(slot, t, idx);
        (Presented, SyncState(NextSlot(f), s.frame + 1, s.resizeRequested || env.presentOutOfDate,
                              s.fences[f := Pending], calls))
  }

  /** No fence is left reset without work submitted to signal it. */
  predicate NoStrandedFence(s: SyncState) {
    forall i :: 0 <= i < |s.fences| ==> s.fences[i] != Unsignalled
  }

  /** The corrected step keeps every fence signalled or pending, so a wait
      can only time out when the GPU itself fails to finish. */
  lemma CorrectedDrawKeepsFencesLive(s: SyncState, slots: seq<Slot>, t: FrameTargets, env: DrawEnv)
    requires WellFormed(s) && |slots| == FRAMES_IN_FLIGHT && EnvFits(t, env)
    requires NoStrandedFence(s)
    ensures NoStrandedFence(DrawStepCorrected(s, slots, t, env).1)
    ensures env.gpuFinishes ==> DrawStepCorrected(s, slots, t, env).0 != WaitTimedOut
  {
    var s' := DrawStepCorrected(s, slots, t, env).1;
    forall i | 0 <= i < |s'.fences|
      ensures s'.fences[i] != Unsignalled
    {
      assert i != s.frameInFlight ==> s'.fences[i] == s.fences[i];
    }
  }

  /** The corrected step after an out-of-date acquire: the retry on the
      same slot no longer waits on a stranded fence. */
  lemma CorrectedOutOfDateRetrySucceeds(s: SyncState, slots: seq<Slot>, t: FrameTargets, env: DrawEnv, next: DrawEnv)
    requires WellFormed(s) && |slots| == FRAMES_IN_FLIGHT && EnvFits(t, env) && EnvFits(t, next)
    requires WaitSucceeds(s.fences[s.frameInFlight], env.gpuFinishes) && env.acquire.AcquireOutOfDate?
    ensures var s' := DrawStepCorrected(s, slots, t, env).1;
      s'.frameInFlight == s.frameInFlight && s'.resizeRequested &&
      DrawStepCorrected(s', slots, t, next).0 != WaitTimedOut
  {
  }

  /** The slot counter is the frame counter modulo FRAMES_IN_FLIGHT. */
  predicate CountersAgree(s: SyncState) {
    s.frame >= 0 && s.frameInFlight == s.frame % FRAMES_IN_FLIGHT
  }

  /** Advancing the slot of frame n gives the slot of frame n + 1. */
  lemma NextSlotFollowsFrame(n: int)
    requires n >= 0
    ensures NextSlot(n % FRAMES_IN_FLIGHT) == (n + 1) % FRAMES_IN_FLIGHT
  {
  }

  /** A sequence of draws, stopping at the first fence-wait timeout
      (the process exits there). */
  function Run(s: SyncState, slots: seq<Slot>, t: FrameTargets, envs: seq<DrawEnv>): (r: SyncState)
    requires WellFormed(s) && |slots| == FRAMES_IN_FLIGHT
    requires forall i :: 0 <= i < |envs| ==> EnvFits(t, envs[i])
    ensures WellFormed(r)
    decreases |envs|
  {
    if envs == [] then s
    else
      var (outcome, s') := DrawStep(s, slots, t, envs[0]);
      if outcome == WaitTimedOut then s' else Run(s', slots, t, envs[1..])
  }

  /** frame_in_flight == frame mod 3 holds after renderer_initialise's
      zeroing and through every later draw, whatever the environment. */
  lemma {:induction false} RunKeepsCountersAgreed(s: SyncState, slots: seq<Slot>, t: FrameTargets, envs: seq<DrawEnv>)
    requires WellFormed(s) && |slots| == FRAMES_IN_FLIGHT
    requires forall i :: 0 <= i < |envs| ==> EnvFits(t, envs[i])
    requires CountersAgree(s)
    ensures CountersAgree(Run(s, slots, t, envs))
    decreases |envs|
  {
    if envs != [] {
      var (outcome, s') := DrawStep(s, slots, t, envs[0]);
      if outcome != WaitTimedOut {
        if outcome == Presented {
          NextSlotFollowsFrame(s.frame);
        }
        assert CountersAgree(s');
        RunKeepsCountersAgreed(s', slots, t, envs[1..]);
      }
    }
  }

  /** While every acquire succeeds and the GPU keeps up, no wait times out:
      starting with no stranded fence, each draw presents and the frame
      counter advances by exactly the number of draws. */
  lemma {:induction false} SteadyStateNeverTimesOut(s: SyncState, slots: seq<Slot>, t: FrameTargets, envs: seq<DrawEnv>)
    requires WellFormed(s) && |slots| == FRAMES_IN_FLIGHT
    requires forall i :: 0 <= i < |envs| ==> EnvFits(t, envs[i])
    requires forall i :: 0 <= i < |envs| ==> envs[i].gpuFinishes && envs[i].acquire.Acquired?
    requires NoStrandedFence(s)
    ensures Run(s, slots, t, envs).frame == s.frame + |envs|
    ensures NoStrandedFence(Run(s, slots, t, envs))
    decreases |envs|
  {
    if envs != [] {
      var (outcome, s') := DrawStep(s, slots, t, envs[0]);
      assert outcome == Presented;
      forall i | 0 <= i < |s'.fences|
        ensures s'.fences[i] != Unsignalled
      {
        assert i != s.frameInFlight ==> s'.fences[i] == s.fences[i];
      }
      SteadyStateNeverTimesOut(s', slots, t, envs[1..]);
    }
  }

  /** The tracked layout of every image the frame touches. */
  type Layouts = map<Handle, ImageLayout>

  predicate InLayout(layouts: Layouts, a: Attachment) {
    a.image in layouts && layouts[a.image] == a.layout
  }

  /** The layouts after one command, or None when the command expects an
      image in a layout other than its tracked one. A transition from
      UNDEFINED discards the contents and so is valid from any layout;
      any other transition must start from the tracked layout. */
  function StepLayouts(layouts: Layouts, c: Command): Option<Layouts> {
    match c
    case PipelineBarrier(_, _, b) =>
      if b.image in layouts && (b.oldLayout == Undefined || b.oldLayout == layouts[b.image])
      then Some(layouts[b.image := b.newLayout]) else None
    case BlitImage(src, srcLayout, dst, dstLayout, _, _) =>
      if src in layouts && dst in layouts && layouts[src] == srcLayout && layouts[dst] == dstLayout
      then Some(layouts) else None
    case GeometryPass(color, depth, _) =>
      if InLayout(layouts, color) && InLayout(layouts, depth) then Some(layouts) else None
    case OverlayPass(target, _) =>
      if InLayout(layouts, target) then Some(layouts) else None
    case CopyBuffer(_, _, _) => Some(layouts)
  }

  function Replay(layouts: Layouts, cmds: seq<Command>): Option<Layouts>
    decreases |cmds|
  {
    if cmds == [] then Some(layouts)
    else match StepLayouts(layouts, cmds[0])
      case None => None
      case Some(next) => Replay(next, cmds[1..])
  }

  lemma {:induction false} ReplayAppend(layouts: Layouts, c: Command, rest: seq<Command>)
    ensures Replay(layouts, [c] + rest) ==
      match StepLayouts(layouts, c) case None => None case Some(next) => Replay(next, rest)
  {
    assert ([c] + rest)[0] == c && ([c] + rest)[1..] == rest;
  }

  /** The recorded chain of one frame is layout-correct from any tracked
      starting state: every barrier starts from the image's current layout
      or discards it, the geometry pass finds the draw image in
      COLOR_ATTACHMENT and the depth image in DEPTH_ATTACHMENT, the blit
      finds its source in TRANSFER_SRC and its destination in TRANSFER_DST,
      and the overlay finds the swapchain image in COLOR_ATTACHMENT. The
      frame ends with the draw image in TRANSFER_SRC, the depth image in
      DEPTH_ATTACHMENT and the swapchain image in PRESENT_SRC. */
  lemma FrameLayoutChainValid(t: FrameTargets, imageIndex: nat, layouts: Layouts)
    requires imageIndex < |t.swapchainImages| && imageIndex < |t.swapchainViews|
    requires var d, z, sc := t.drawImage.image, t.depthImage.image, t.swapchainImages[imageIndex];
      d != z && d != sc && z != sc && d in layouts && z in layouts && sc in layouts
    ensures var d, z, sc := t.drawImage.image, t.depthImage.image, t.swapchainImages[imageIndex];
      Replay(layouts, FrameCommands(t, imageIndex)) ==
        Some(layouts[d := TransferSrcOptimal][z := DepthAttachmentOptimal][sc := PresentSrc])
  {
    var d, z, sc := t.drawImage.image, t.depthImage.image, t.swapchainImages[imageIndex];
    var cmds := FrameCommands(t, imageIndex);
    var l1 := layouts[d := ColorAttachmentOptimal];
    var l2 := l1[z := DepthAttachmentOptimal];
    var l4 := l2[d := TransferSrcOptimal];
    var l5 := l4[sc := TransferDstOptimal];
    var l7 := l5[sc := ColorAttachmentOptimal];
    var l9 := l7[sc := PresentSrc];
    assert StepLayouts(layouts, cmds[0]) == Some(l1);
    assert StepLayouts(l1, cmds[1]) == Some(l2);
    assert StepLayouts(l2, cmds[2]) == Some(l2);
    assert StepLayouts(l2, cmds[3]) == Some(l4);
    assert StepLayouts(l4, cmds[4]) == Some(l5);
    assert StepLayouts(l5, cmds[5]) == Some(l5);
    assert StepLayouts(l5, cmds[6]) == Some(l7);
    assert StepLayouts(l7, cmds[7]) == Some(l7);
    assert StepLayouts(l7, cmds[8]) == Some(l9);
    assert Replay(l9, cmds[9..]) == Some(l9);
    assert Replay(l7, cmds[8..]) == Some(l9);
    assert Replay(l7, cmds[7..]) == Some(l9);
    assert Replay(l5, cmds[6..]) == Some(l9);
    assert Replay(l5, cmds[5..]) == Some(l9);
    assert Replay(l4, cmds[4..]) == Some(l9);
    assert Replay(l2, cmds[3..]) == Some(l9);
    assert Replay(l2, cmds[2..]) == Some(l9);
    assert Replay(l1, cmds[1..]) == Some(l9);
    assert Replay(layouts, cmds) == Some(l9);
    assert l9 == layouts[d := TransferSrcOptimal][z := DepthAttachmentOptimal][sc := PresentSrc];
  }

  /** The tracker is not vacuous: if the draw image were the presentation
      target, the chain would be rejected (the geometry pass expects it in
      COLOR_ATTACHMENT after the first barrier, but the blit then finds it in
      TRANSFER_DST rather than TRANSFER_SRC). */
  lemma FrameLayoutChainNeedsDistinctTarget(t: FrameTargets, imageIndex: nat, layouts: Layouts)
    requires imageIndex < |t.swapchainImages| && imageIndex < |t.swapchainViews|
    requires t.swapchainImages[imageIndex] == t.drawImage.image != t.depthImage.image
    requires t.drawImage.image in layouts && t.depthImage.image in layouts
    ensures Replay(layouts, FrameCommands(t, imageIndex)) == None
  {
    var d, z := t.drawImage.image, t.depthImage.image;
    var cmds := FrameCommands(t, imageIndex);
    var l1 := layouts[d := ColorAttachmentOptimal];
    var l2 := l1[z := DepthAttachmentOptimal];
    var l4 := l2[d := TransferSrcOptimal];
    var l5 := l4[d := TransferDstOptimal];
    assert StepLayouts(l5, cmds[5]) == None;
    assert Replay(l5, cmds[5..]) == None;
    assert Replay(l4, cmds[4..]) == None;
    assert Replay(l2, cmds[3..]) == None;
    assert Replay(l2, cmds[2..]) == None;
    assert Replay(l1, cmds[1..]) == None;
  }
}
