/** Choosing the GPU (src/devices.c `check_device_extension_support`,
    `is_device_suitable`, `pick_physical_device`). Every driver query about a candidate
    is a field of its `PhysicalDevice` record. */
module Selection {
  import opened Vk
  import opened Names
  import opened Queues

  const VK_KHR_SWAPCHAIN_EXTENSION_NAME: Name := "VK_KHR_swapchain"

  /** `deviceExtensions`: the device extensions the renderer enables. */
  const DeviceExtensions: seq<Name> := [VK_KHR_SWAPCHAIN_EXTENSION_NAME]

  /** A physical device with the answers of every query the selection makes about it. */
  datatype PhysicalDevice = PhysicalDevice(
    handle: Handle,
    queueFamilies: seq<QueueFamily>,
    extensions: seq<Name>,
    capabilities: SurfaceCapabilities,
    formats: seq<SurfaceFormat>,
    presentModes: seq<VkPresentMode>)

  /** What makes a device usable by the renderer. */
  ghost predicate Suitable(d: PhysicalDevice) {
    && SomeFamilyServesBoth(d.queueFamilies)
    && VK_KHR_SWAPCHAIN_EXTENSION_NAME in d.extensions
    && |d.formats| > 0
    && |d.presentModes| > 0
  }

  function CheckDeviceExtensionSupport(d: PhysicalDevice): (r: bool)
    ensures r <==> VK_KHR_SWAPCHAIN_EXTENSION_NAME in d.extensions
  {
    CheckAll(DeviceExtensions, d.extensions).AllFound?
  }

  /** `is_device_suitable`. `indices` is the static queue-family record it overwrites;
      the answer does not depend on its old contents. */
  function IsDeviceSuitable(d: PhysicalDevice, indices: QueueFamilyIndices): (r: bool)
    ensures r <==> Suitable(d)
  {
    var found := FindQueueFamilies(d.queueFamilies, indices);
    var extensionSupport := CheckDeviceExtensionSupport(d);
    var swapChainSupport := |d.formats| > 0 && |d.presentModes| > 0;
    found.isComplete && extensionSupport && swapChainSupport
  }

  const NoGpuMessage: string := "Devices: failed to find GPUs with Vulkan support.\n"
  const NoSuitableGpuMessage: string := "Devices: failed to find a suitable GPU.\n"

  /** The effect of `pick_physical_device`: its result, the chosen device
      (`VK_NULL_HANDLE` is `None`), the static queue-family record as left by the last
      suitability test, and the line written to stderr on failure. */
  datatype Pick = Pick(
    result: VkResult,
    physicalDevice: Option<PhysicalDevice>,
    indices: QueueFamilyIndices,
    diagnostic: Option<string>)

  /** The `for` loop of `pick_physical_device` at device `i`, with the current value of
      `physicalDevice`. A suitable device ends the loop; an unsuitable one returns
      failure whenever no device has been chosen yet. */
  function PickLoop(devices: seq<PhysicalDevice>, i: nat, chosen: Option<PhysicalDevice>, indices: QueueFamilyIndices): (r: Pick)
    requires i <= |devices|
    decreases |devices| - i
    ensures r.result == VK_SUCCESS || r.result == VK_ERROR_INITIALIZATION_FAILED
    ensures i == |devices| ==> r == Pick(VK_SUCCESS, chosen, indices, None)
    ensures chosen.None? && i < |devices| ==>
      && (r.result == VK_SUCCESS <==> Suitable(devices[i]))
      && r.indices == FindQueueFamilies(devices[i].queueFamilies, indices)
    ensures r.result == VK_SUCCESS ==>
      r.diagnostic == None
      && (r.physicalDevice == chosen
          || exists k :: i <= k < |devices| && r.physicalDevice == Some(devices[k]) && Suitable(devices[k]))
    ensures r.result == VK_SUCCESS && chosen.None? && i < |devices| ==> r.physicalDevice == Some(devices[i])
    ensures r.result != VK_SUCCESS ==> r.physicalDevice == None && r.diagnostic == Some(NoSuitableGpuMessage)
  {
    if i == |devices| then Pick(VK_SUCCESS, chosen, indices, None)
    else
      var suitable := IsDeviceSuitable(devices[i], indices);
      var indices' := FindQueueFamilies(devices[i].queueFamilies, indices);
      if suitable then Pick(VK_SUCCESS, Some(devices[i]), indices', None)
      else if chosen.None? then Pick(VK_ERROR_INITIALIZATION_FAILED, None, indices', Some(NoSuitableGpuMessage))
      else PickLoop(devices, i + 1, chosen, indices')
  }

  /** `pick_physical_device`. No devices is an initialization failure. Otherwise the call
      succeeds exactly when the FIRST device is suitable, and then chooses it: the loop
      never gets past index 0, because `physicalDevice` is still null there. */
  function PickPhysicalDevice(devices: seq<PhysicalDevice>, indices: QueueFamilyIndices): (r: Pick)
    ensures r.result == VK_SUCCESS || r.result == VK_ERROR_INITIALIZATION_FAILED
    ensures r.result == VK_SUCCESS <==> |devices| > 0 && Suitable(devices[0])
    ensures r.result == VK_SUCCESS ==> r.physicalDevice == Some(devices[0]) && r.diagnostic == None
    ensures r.result != VK_SUCCESS ==> r.physicalDevice == None
    ensures |devices| == 0 ==> r.indices == indices && r.diagnostic == Some(NoGpuMessage)
    ensures |devices| > 0 ==> r.indices == FindQueueFamilies(devices[0].queueFamilies, indices)
    ensures |devices| > 0 && r.result != VK_SUCCESS ==> r.diagnostic == Some(NoSuitableGpuMessage)
  {
    if |devices| == 0 then Pick(VK_ERROR_INITIALIZATION_FAILED, None, indices, Some(NoGpuMessage))
    else PickLoop(devices, 0, None, indices)
  }

  /** No device after the first one is ever examined: two device lists that start with
      the same device pick identically. */
  lemma PickDependsOnlyOnFirstDevice(a: seq<PhysicalDevice>, b: seq<PhysicalDevice>, indices: QueueFamilyIndices)
    requires |a| > 0 && |b| > 0 && a[0] == b[0]
    ensures PickPhysicalDevice(a, indices) == PickPhysicalDevice(b, indices)
  {
  }

  /** The two ways of failing report the same code but different console lines. */
  lemma PickFailuresAreDistinguishable(devices: seq<PhysicalDevice>, indices: QueueFamilyIndices)
    requires |devices| > 0 && !Suitable(devices[0])
    ensures PickPhysicalDevice(devices, indices).result == PickPhysicalDevice([], indices).result
    ensures PickPhysicalDevice(devices, indices).diagnostic != PickPhysicalDevice([], indices).diagnostic
  {
  }

  /** Index of the first suitable device: the selection policy that checks every
      candidate, against which `PickPhysicalDevice` is compared. */
  ghost predicate IsFirstSuitable(devices: seq<PhysicalDevice>, k: nat) {
    k < |devices| && Suitable(devices[k]) && forall j :: 0 <= j < k ==> !Suitable(devices[j])
  }

  /** Whenever the pick succeeds it agrees with the first-suitable policy; whenever the
      first suitable device is not the first device, the pick fails. */
  lemma PickVersusFirstSuitable(devices: seq<PhysicalDevice>, indices: QueueFamilyIndices, k: nat)
    requires IsFirstSuitable(devices, k)
    ensures PickPhysicalDevice(devices, indices).result == VK_SUCCESS <==> k == 0
    ensures k == 0 ==> PickPhysicalDevice(devices, indices).physicalDevice == Some(devices[k])
  {
  }
}
