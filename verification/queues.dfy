/** Queue-family selection and the queue layout that follows from it
    (src/devices.c `find_queue_families`, `create_logical_device` and the sharing mode of
    `create_swapChain`). */
module Queues {

  const VK_QUEUE_GRAPHICS_BIT: bv32 := 0x1

  const VK_SHARING_MODE_EXCLUSIVE: nat := 0
  const VK_SHARING_MODE_CONCURRENT: nat := 1

  /** One queue family as the driver reports it: its capability flags, and whether
      `vkGetPhysicalDeviceSurfaceSupportKHR` says it can present to the surface. */
  datatype QueueFamily = QueueFamily(queueFlags: bv32, supportsPresent: bool)

  predicate HasGraphics(f: QueueFamily) {
    f.queueFlags & VK_QUEUE_GRAPHICS_BIT != 0
  }

  /** A family that can both draw and present: the only kind the scan accepts. */
  predicate ServesBoth(f: QueueFamily) {
    HasGraphics(f) && f.supportsPresent
  }

  /** `QueueFamilyIndices`. The source keeps one static instance, so the fields start at
      zero (`InitialIndices`) and carry over whatever a scan does not overwrite. */
  datatype QueueFamilyIndices = QueueFamilyIndices(
    graphicsFamily: nat,
    presentFamily: nat,
    isComplete: bool)

  const InitialIndices := QueueFamilyIndices(0, 0, false)

  ghost predicate SomeFamilyServesBoth(families: seq<QueueFamily>) {
    exists k :: 0 <= k < |families| && ServesBoth(families[k])
  }

  ghost predicate SomeFamilyHasGraphics(families: seq<QueueFamily>) {
    exists k :: 0 <= k < |families| && HasGraphics(families[k])
  }

  /** The loop of `find_queue_families` from family `i` on. A family with the graphics
      bit is recorded as `graphicsFamily` whether or not it can present; the loop stops
      at the first family that can do both. */
  function ScanFamilies(families: seq<QueueFamily>, i: nat, acc: QueueFamilyIndices): (r: QueueFamilyIndices)
    requires i <= |families|
    requires !acc.isComplete
    decreases |families| - i
    ensures r.presentFamily == acc.presentFamily
    ensures r.isComplete <==> exists k :: i <= k < |families| && ServesBoth(families[k])
    ensures r.isComplete ==>
      && i <= r.graphicsFamily < |families|
      && ServesBoth(families[r.graphicsFamily])
      && forall k :: i <= k < r.graphicsFamily ==> !ServesBoth(families[k])
    ensures !r.isComplete && (exists k :: i <= k < |families| && HasGraphics(families[k])) ==>
      && i <= r.graphicsFamily < |families|
      && HasGraphics(families[r.graphicsFamily])
      && forall k :: r.graphicsFamily < k < |families| ==> !HasGraphics(families[k])
    ensures !r.isComplete && (forall k :: i <= k < |families| ==> !HasGraphics(families[k])) ==>
      r.graphicsFamily == acc.graphicsFamily
  {
    if i == |families| then acc
    else if ServesBoth(families[i]) then acc.(graphicsFamily := i, isComplete := true)
    else
      var graphics := if HasGraphics(families[i]) then i else acc.graphicsFamily;
      ScanFamilies(families, i + 1, acc.(graphicsFamily := graphics))
  }

  /** `find_queue_families`, starting from the indices a previous call left behind.
      Complete exactly when one family serves both graphics and presentation, and then
      `graphicsFamily` is the lowest such family. An incomplete scan leaves the last
      graphics-capable family (or the old value if there is none). `presentFamily` is
      never written. */
  function FindQueueFamilies(families: seq<QueueFamily>, prev: QueueFamilyIndices): (r: QueueFamilyIndices)
    ensures r.presentFamily == prev.presentFamily
    ensures r.isComplete <==> SomeFamilyServesBoth(families)
    ensures r.isComplete ==>
      && r.graphicsFamily < |families|
      && ServesBoth(families[r.graphicsFamily])
      && forall k :: 0 <= k < r.graphicsFamily ==> !ServesBoth(families[k])
    ensures !r.isComplete && SomeFamilyHasGraphics(families) ==>
      && r.graphicsFamily < |families|
      && HasGraphics(families[r.graphicsFamily])
      && forall k :: r.graphicsFamily < k < |families| ==> !HasGraphics(families[k])
    ensures !r.isComplete && !SomeFamilyHasGraphics(families) ==>
      r.graphicsFamily == prev.graphicsFamily
  {
    ScanFamilies(families, 0, prev.(isComplete := false))
  }

  /** Graphics on one family and presentation on another is not enough: the scan only
      accepts a family that does both. */
  lemma SplitCapabilitiesAreIncomplete(families: seq<QueueFamily>, prev: QueueFamilyIndices, g: nat, p: nat)
    requires g < |families| && HasGraphics(families[g])
    requires p < |families| && families[p].supportsPresent
    requires forall k :: 0 <= k < |families| ==> !ServesBoth(families[k])
    ensures !FindQueueFamilies(families, prev).isComplete
    ensures FindQueueFamilies(families, prev).graphicsFamily >= g
  {
  }

  /** One entry of `VkDeviceQueueCreateInfo`: the family and how many queues it gets. */
  datatype QueueCreateInfo = QueueCreateInfo(queueFamilyIndex: nat, queueCount: nat)

  /** The queue-create entries of `create_logical_device`: one per distinct family among
      the graphics and present families, one queue each, graphics first. */
  function QueueCreateInfos(indices: QueueFamilyIndices): (r: seq<QueueCreateInfo>)
    ensures |r| == if indices.graphicsFamily == indices.presentFamily then 1 else 2
    ensures r[0].queueFamilyIndex == indices.graphicsFamily
    ensures forall k :: 0 <= k < |r| ==> r[k].queueCount == 1
    ensures forall k, l :: 0 <= k < l < |r| ==> r[k].queueFamilyIndex != r[l].queueFamilyIndex
    ensures (set k | 0 <= k < |r| :: r[k].queueFamilyIndex) == {indices.graphicsFamily, indices.presentFamily}
  {
    var queues := [indices.graphicsFamily, indices.presentFamily];
    var unique := if queues[0] == queues[1] then 1 else 2;
    var r := seq(unique, k requires 0 <= k < unique => QueueCreateInfo(queues[k], 1));
    assert r[0].queueFamilyIndex == indices.graphicsFamily;
    assert r[unique - 1].queueFamilyIndex == indices.presentFamily;
    r
  }

  /** How the swapchain images are shared between queue families: the sharing mode and
      the family list handed to the driver (`queueFamilyIndexCount` entries). */
  datatype Sharing = Sharing(mode: nat, queueFamilyIndices: seq<nat>)

  /** Exclusive with no family list when graphics and present families coincide,
      otherwise concurrent across exactly those two families. */
  function SwapchainSharing(indices: QueueFamilyIndices): (r: Sharing)
    ensures r.mode == VK_SHARING_MODE_EXCLUSIVE || r.mode == VK_SHARING_MODE_CONCURRENT
    ensures r.mode == VK_SHARING_MODE_EXCLUSIVE <==> indices.graphicsFamily == indices.presentFamily
    ensures r.mode == VK_SHARING_MODE_EXCLUSIVE ==> r.queueFamilyIndices == []
    ensures r.mode == VK_SHARING_MODE_CONCURRENT ==>
      r.queueFamilyIndices == [indices.graphicsFamily, indices.presentFamily]
  {
    if indices.graphicsFamily != indices.presentFamily then
      Sharing(VK_SHARING_MODE_CONCURRENT, [indices.graphicsFamily, indices.presentFamily])
    else
      Sharing(VK_SHARING_MODE_EXCLUSIVE, [])
  }

  /** The logical device and the swapchain agree: images are shared exclusively exactly
      when the device has a single queue family, and a concurrent swapchain names the
      same distinct families the device created queues for. */
  lemma SharingMatchesQueueFamilies(indices: QueueFamilyIndices)
    ensures |QueueCreateInfos(indices)| == 1 <==> SwapchainSharing(indices).mode == VK_SHARING_MODE_EXCLUSIVE
    ensures SwapchainSharing(indices).mode == VK_SHARING_MODE_CONCURRENT ==>
      var families := SwapchainSharing(indices).queueFamilyIndices;
      var infos := QueueCreateInfos(indices);
      && |families| == |infos| == 2
      && families[0] != families[1]
      && forall k :: 0 <= k < 2 ==> families[k] == infos[k].queueFamilyIndex
  {
  }
}
