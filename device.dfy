/** src/engine/renderer/device.c: required device extensions, device scoring
    and the choice of the physical device. */
module Device {
  import opened Wrappers
  import opened Vulkan
  import opened Utils

  const SWAPCHAIN_EXTENSION := "VK_KHR_swapchain"
  const DYNAMIC_RENDERING_EXTENSION := "VK_KHR_dynamic_rendering"
  const PORTABILITY_SUBSET_EXTENSION := "VK_KHR_portability_subset"
  const PUSH_DESCRIPTOR_EXTENSION := "VK_KHR_push_descriptor"

  /** DEVICE_EXTENSIONS: an Apple build (`__APPLE__`) needs the portability
      subset in addition to the three extensions every build needs. */
  function RequiredDeviceExtensions(apple: bool): (r: seq<string>)
    ensures |r| == if apple then 4 else 3
    ensures PORTABILITY_SUBSET_EXTENSION in r <==> apple
    ensures SWAPCHAIN_EXTENSION in r && DYNAMIC_RENDERING_EXTENSION in r && PUSH_DESCRIPTOR_EXTENSION in r
  {
    if apple then
      [SWAPCHAIN_EXTENSION, DYNAMIC_RENDERING_EXTENSION, PORTABILITY_SUBSET_EXTENSION, PUSH_DESCRIPTOR_EXTENSION]
    else
      [SWAPCHAIN_EXTENSION, DYNAMIC_RENDERING_EXTENSION, PUSH_DESCRIPTOR_EXTENSION]
  }

  datatype DeviceType = OtherDevice | IntegratedGpu | DiscreteGpu | VirtualGpu | CpuDevice

  /** What the driver reports about one physical device. */
  datatype PhysicalDevice = PhysicalDevice(
    deviceType: DeviceType, queueFamilies: seq<QueueFamily>, extensions: seq<string>)

  const UNSUPPORTED_GPU: int := -1
  const DISCRETE_GPU_BONUS: int := 1000

  /** A device is usable when some queue family has graphics, some queue
      family can present, and every required extension is available. */
  predicate Usable(d: PhysicalDevice, required: seq<string>) {
    (exists a :: 0 <= a < |d.queueFamilies| && HasGraphics(d.queueFamilies[a])) &&
    (exists b :: 0 <= b < |d.queueFamilies| && d.queueFamilies[b].presentSupport) &&
    AllPresent(required, d.extensions)
  }

  /** The score rate_device gives, stated without its loops. */
  function Score(d: PhysicalDevice, required: seq<string>): int {
    if !Usable(d, required) then UNSUPPORTED_GPU
    else if d.deviceType == DiscreteGpu then DISCRETE_GPU_BONUS
    else 0
  }

  /** check_extention_device_support: every required name is matched by
      some available name (the loops stop early once a name is missing). */
  method CheckExtensionDeviceSupport(available: seq<string>, required: seq<string>) returns (allFound: bool)
    ensures allFound <==> AllPresent(required, available)
  {
    allFound := true;
    var i := 0;
    while i < |required| && allFound
      invariant 0 <= i <= |required|
      invariant allFound <==> forall k :: 0 <= k < i ==> required[k] in available
    {
      var found := false;
      var j := 0;
      while j < |available| && !found
        invariant 0 <= j <= |available|
        invariant found <==> required[i] in available[..j]
      {
        if required[i] == available[j] {
          found := true;
        }
        j := j + 1;
      }
      assert !found ==> available[..j] == available;
      if !found {
        allFound := false;
      }
      i := i + 1;
    }
  }

  /** rate_device: -1 when the queue families are incomplete or an extension
      is missing, otherwise 1000 for a discrete GPU and 0 for any other. */
  method RateDevice(d: PhysicalDevice, required: seq<string>) returns (score: int)
    ensures score == UNSUPPORTED_GPU <==> !Usable(d, required)
    ensures score != UNSUPPORTED_GPU ==> score == (if d.deviceType == DiscreteGpu then 1000 else 0)
    ensures score == Score(d, required)
  {
    score := 0;
    if d.deviceType == DiscreteGpu {
      score := score + DISCRETE_GPU_BONUS;
    }
    var indices := FindQueueFamilies(d.queueFamilies);
    if !IndicesComplete(indices) {
      return UNSUPPORTED_GPU;
    }
    var extensionsSupported := CheckExtensionDeviceSupport(d.extensions, required);
    if !extensionsSupported {
      return UNSUPPORTED_GPU;
    }
  }

  datatype PickError = NoGpuFound | NoSupportedGpu

  /** pick_gpu: rate every device and keep the first one with the highest
      score; fatal when there is no device or no usable one. */
  method PickGpu(devices: seq<PhysicalDevice>, required: seq<string>) returns (r: Result<nat, PickError>)
    ensures r == Failure(NoGpuFound) <==> |devices| == 0
    ensures r == Failure(NoSupportedGpu) <==>
      |devices| > 0 && forall k :: 0 <= k < |devices| ==> !Usable(devices[k], required)
    ensures r.Success? ==>
      r.value < |devices| && Usable(devices[r.value], required) &&
      Score(devices[r.value], required) >= 0 &&
      (forall k :: 0 <= k < |devices| ==> Score(devices[k], required) <= Score(devices[r.value], required)) &&
      (forall k :: 0 <= k < r.value ==> Score(devices[k], required) < Score(devices[r.value], required))
  {
    if |devices| == 0 {
      return Failure(NoGpuFound);
    }
    var scores := new int[|devices|];
    var maxScore := UNSUPPORTED_GPU;
    var maxIdx := UNSUPPORTED_GPU;
    for i := 0 to |devices|
      invariant forall k :: 0 <= k < i ==> scores[k] == Score(devices[k], required)
      invariant maxScore == UNSUPPORTED_GPU ==> maxIdx == UNSUPPORTED_GPU
      invariant maxScore == UNSUPPORTED_GPU ==> forall k :: 0 <= k < i ==> scores[k] == UNSUPPORTED_GPU
      invariant maxScore != UNSUPPORTED_GPU ==>
        0 <= maxIdx < i && scores[maxIdx] == maxScore &&
        (forall k :: 0 <= k < i ==> scores[k] <= maxScore) &&
        (forall k :: 0 <= k < maxIdx ==> scores[k] < maxScore)
    {
      var s := RateDevice(devices[i], required);
      scores[i] := s;
      if s > maxScore {
        maxScore := s;
        maxIdx := i;
      }
    }
    if maxScore == UNSUPPORTED_GPU {
      return Failure(NoSupportedGpu);
    }
    return Success(maxIdx);
  }
}
