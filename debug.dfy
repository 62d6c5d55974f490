/** src/engine/renderer/debug.c: validation-layer support check, the
    instance-extension list, and the debug-messenger callback. */
module Debug {
  import opened Vulkan
  import opened Utils

  const PORTABILITY_ENUMERATION_EXTENSION := "VK_KHR_portability_enumeration"
  const PHYSICAL_DEVICE_PROPERTIES2_EXTENSION := "VK_KHR_get_physical_device_properties2"
  const DEBUG_UTILS_EXTENSION := "VK_EXT_debug_utils"

  /** The two compile-time switches the file depends on: `__APPLE__` and
      `VALIDATION_LAYERS_ENABLED`. */
  datatype BuildConfig = BuildConfig(apple: bool, validationLayers: bool)

  /** validation_layers_supported: every requested layer name is among the
      layers the loader reports (vacuously true for no layers). */
  method ValidationLayersSupported(layers: seq<string>, available: seq<string>) returns (supported: bool)
    ensures supported <==> AllPresent(layers, available)
  {
    for i := 0 to |layers|
      invariant forall k :: 0 <= k < i ==> layers[k] in available
    {
      var layerFound := false;
      for j := 0 to |available|
        invariant layerFound <==> layers[i] in available[..j]
      {
        if layers[i] == available[j] {
          layerFound := true;
        }
      }
      assert available[..|available|] == available;
      if !layerFound {
        return false;
      }
    }
    return true;
  }

  /** The value get_required_extensions writes through `count`. */
  function RequiredExtensionCount(glfwCount: nat, config: BuildConfig): (count: nat)
    ensures count >= glfwCount
    ensures count - glfwCount == (if config.apple then 2 else 0) + (if config.validationLayers then 1 else 0)
  {
    var withApple := if config.apple then glfwCount + 2 else glfwCount;
    if config.validationLayers then withApple + 1 else withApple
  }

  /** The instance extensions in the order get_required_extensions lays
      them out: the window system's names, then the two Apple names, then
      the debug-utils name last. */
  function InstanceExtensions(glfw: seq<string>, config: BuildConfig): (r: seq<string>)
    ensures |r| == RequiredExtensionCount(|glfw|, config)
    ensures r[..|glfw|] == glfw
    ensures config.apple ==>
      r[|glfw|] == PORTABILITY_ENUMERATION_EXTENSION && r[|glfw| + 1] == PHYSICAL_DEVICE_PROPERTIES2_EXTENSION
    ensures config.validationLayers ==> r[|r| - 1] == DEBUG_UTILS_EXTENSION
    ensures !config.apple && !config.validationLayers ==> r == glfw
  {
    glfw
    + (if config.apple then [PORTABILITY_ENUMERATION_EXTENSION, PHYSICAL_DEVICE_PROPERTIES2_EXTENSION] else [])
    + (if config.validationLayers then [DEBUG_UTILS_EXTENSION] else [])
  }

  /** get_required_extensions: always reports the count; with a NULL array
      it writes nothing, otherwise it fills the first `count` entries. */
  method GetRequiredExtensions(glfw: seq<string>, config: BuildConfig, extensions: array?<string>)
    returns (count: nat)
    requires extensions != null ==> extensions.Length >= RequiredExtensionCount(|glfw|, config)
    modifies extensions
    ensures count == RequiredExtensionCount(|glfw|, config)
    ensures extensions != null ==>
      extensions[..count] == InstanceExtensions(glfw, config) &&
      extensions[count..] == old(extensions[count..])
  {
    count := |glfw|;
    var countOriginal := count;
    if config.apple {
      count := count + 2;
    }
    if config.validationLayers {
      count := count + 1;
    }
    if extensions == null {
      return;
    }
    for i := 0 to countOriginal
      invariant extensions[..i] == glfw[..i]
      invariant extensions[count..] == old(extensions[count..])
    {
      extensions[i] := glfw[i];
    }
    if config.apple {
      extensions[countOriginal] := PORTABILITY_ENUMERATION_EXTENSION;
      extensions[countOriginal + 1] := PHYSICAL_DEVICE_PROPERTIES2_EXTENSION;
    }
    if config.validationLayers {
      extensions[count - 1] := DEBUG_UTILS_EXTENSION;
    }
    assert extensions[..countOriginal] == glfw;
    assert extensions[..count] == InstanceExtensions(glfw, config);
  }

  type Bool32 = x: nat | x <= 1
  const VK_FALSE: Bool32 := 0

  /** debug_callback: whatever the severity and message, never asks the
      loader to abort the call that triggered the message. */
  function DebugCallback(severity: Flags, messageType: Flags, message: string): (abort: Bool32)
    ensures abort == VK_FALSE
  {
    VK_FALSE
  }
}
