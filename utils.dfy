/** src/engine/utils.c: clamp, the queue-family search and the
    name-list inclusion test that the device and instance checks share. */
module Utils {
  import opened Wrappers
  import opened Vulkan

  /** clamp(a, min, max): the upper bound is tested first, so when
      min > max and a > max the result is max. */
  function Clamp(a: u32, min: u32, max: u32): (r: u32)
    ensures a > max ==> r == max
    ensures min <= max ==> min <= r <= max
    ensures min <= a <= max ==> r == a
    ensures r == a || r == min || r == max
  {
    if a > max then max else if a < min then min else a
  }

  /** Clamping into a well-formed range twice changes nothing. */
  lemma ClampIdempotent(a: u32, min: u32, max: u32)
    requires min <= max
    ensures Clamp(Clamp(a, min, max), min, max) == Clamp(a, min, max)
  {
  }

  /** Clamping into an inverted range (min > max) is not idempotent:
      the order of the two tests decides the result. */
  lemma ClampInvertedRangeNotIdempotent()
    ensures Clamp(9, 5, 3) == 3 && Clamp(Clamp(9, 5, 3), 5, 3) == 5
  {
  }

  const QUEUE_GRAPHICS: Flags := 0x1

  /** A queue family as the driver reports it: its VkQueueFlags and
      whether vkGetPhysicalDeviceSurfaceSupportKHR says it can present. */
  datatype QueueFamily = QueueFamily(queueFlags: Flags, presentSupport: bool)

  predicate HasGraphics(f: QueueFamily) {
    f.queueFlags & QUEUE_GRAPHICS != 0
  }

  /** QueueFamilyIndices; None stands for INVALID_IDX. */
  datatype QueueFamilyIndices = QueueFamilyIndices(graphicsFamily: Option<nat>, presentFamily: Option<nat>)

  /** indices_complete: neither index is INVALID_IDX. */
  predicate IndicesComplete(indices: QueueFamilyIndices) {
    indices.graphicsFamily.Some? && indices.presentFamily.Some?
  }

  /** The C encoding of an index: the family number, or the sentinel
      INVALID_IDX for "not found". */
  function EncodeIndex(index: Option<nat>, invalid: nat): nat {
    if index.None? then invalid else index.value
  }

  /** indices_complete compares both encoded indices with INVALID_IDX;
      as long as no real family number equals the sentinel, that test is
      IndicesComplete. */
  lemma IndicesCompleteIsSentinelTest(indices: QueueFamilyIndices, invalid: nat)
    requires indices.graphicsFamily.Some? ==> indices.graphicsFamily.value != invalid
    requires indices.presentFamily.Some? ==> indices.presentFamily.value != invalid
    ensures IndicesComplete(indices) <==>
      EncodeIndex(indices.graphicsFamily, invalid) != invalid && EncodeIndex(indices.presentFamily, invalid) != invalid
  {
  }

  function Max(a: nat, b: nat): nat {
    if a < b then b else a
  }

  /** Some family among the first k + 1 has graphics, and some can present. */
  ghost predicate BothFoundBy(families: seq<QueueFamily>, k: nat)
    requires k < |families|
  {
    (exists a :: 0 <= a <= k && HasGraphics(families[a])) &&
    (exists b :: 0 <= b <= k && families[b].presentSupport)
  }

  /** find_queue_families: scan the families in order, remembering the last
      graphics family and the last presenting family seen, and stop at the
      first index where both have been seen. */
  method FindQueueFamilies(families: seq<QueueFamily>) returns (indices: QueueFamilyIndices)
    ensures indices.graphicsFamily.Some? ==>
      indices.graphicsFamily.value < |families| && HasGraphics(families[indices.graphicsFamily.value])
    ensures indices.presentFamily.Some? ==>
      indices.presentFamily.value < |families| && families[indices.presentFamily.value].presentSupport
    ensures IndicesComplete(indices) <==>
      (exists a :: 0 <= a < |families| && HasGraphics(families[a])) &&
      (exists b :: 0 <= b < |families| && families[b].presentSupport)
    ensures IndicesComplete(indices) ==>
      var stop := Max(indices.graphicsFamily.value, indices.presentFamily.value);
      (forall k :: 0 <= k < stop ==> !BothFoundBy(families, k)) &&
      (forall j :: indices.graphicsFamily.value < j <= stop ==> !HasGraphics(families[j])) &&
      (forall j :: indices.presentFamily.value < j <= stop ==> !families[j].presentSupport)
    ensures !IndicesComplete(indices) ==>
      (indices.graphicsFamily.Some? ==>
        forall j :: indices.graphicsFamily.value < j < |families| ==> !HasGraphics(families[j])) &&
      (indices.presentFamily.Some? ==>
        forall j :: indices.presentFamily.value < j < |families| ==> !families[j].presentSupport)
  {
    indices := QueueFamilyIndices(None, None);
    var i := 0;
    while i < |families|
      invariant 0 <= i <= |families|
      invariant !IndicesComplete(indices)
      invariant indices.graphicsFamily.Some? ==>
        indices.graphicsFamily.value < i && HasGraphics(families[indices.graphicsFamily.value]) &&
        forall j :: indices.graphicsFamily.value < j < i ==> !HasGraphics(families[j])
      invariant indices.graphicsFamily.None? ==> forall j :: 0 <= j < i ==> !HasGraphics(families[j])
      invariant indices.presentFamily.Some? ==>
        indices.presentFamily.value < i && families[indices.presentFamily.value].presentSupport &&
        forall j :: indices.presentFamily.value < j < i ==> !families[j].presentSupport
      invariant indices.presentFamily.None? ==> forall j :: 0 <= j < i ==> !families[j].presentSupport
      invariant forall k :: 0 <= k < i ==> !BothFoundBy(families, k)
    {
      if HasGraphics(families[i]) {
        indices := indices.(graphicsFamily := Some(i));
      }
      if families[i].presentSupport {
        indices := indices.(presentFamily := Some(i));
      }
      if IndicesComplete(indices) {
        assert Max(indices.graphicsFamily.value, indices.presentFamily.value) == i;
        break;
      }
      assert !BothFoundBy(families, i);
      i := i + 1;
    }
  }

  /** Every name of `required` equals some name of `available`. */
  predicate AllPresent(required: seq<string>, available: seq<string>) {
    forall i :: 0 <= i < |required| ==> required[i] in available
  }
}
