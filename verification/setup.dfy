/** Device bring-up (src/devices.c `setup_devices` and the creation steps it runs).
    Each foreign call's answer is a field of `Driver`; `setup_devices` becomes a fold
    over the fixed list of steps that stops at the first step that does not succeed. */
module Setup {
  import opened Vk
  import opened Queues
  import opened Selection
  import opened Surface
  import opened Trace

  /** What the driver (and the pipeline builder, which is not part of this model)
      answers during setup. A loop over per-image calls stops at its first refused call,
      so such a loop is described by the index of that call (`None`: none is refused). */
  datatype Driver = Driver(
    devices: seq<PhysicalDevice>,            // vkEnumeratePhysicalDevices
    createDevice: VkResult,                  // vkCreateDevice
    createSwapchain: VkResult,               // vkCreateSwapchainKHR
    swapchainImages: seq<Handle>,            // vkGetSwapchainImagesKHR
    imageViewRefusedAt: Option<nat>,         // first vkCreateImageView that fails
    createRenderPass: VkResult,              // vkCreateRenderPass
    createGraphicsPipeline: VkResult,        // create_graphics_pipeline, passed through
    framebufferArrayAllocated: bool,         // malloc of the framebuffer array
    framebufferRefusedAt: Option<nat>,       // first vkCreateFramebuffer that fails
    createCommandPool: VkResult,             // vkCreateCommandPool
    allocateCommandBuffer: VkResult,         // vkAllocateCommandBuffers
    createImageAvailable: VkResult,          // first vkCreateSemaphore
    createRenderFinished: VkResult,          // second vkCreateSemaphore
    createInFlightFence: VkResult)           // vkCreateFence

  datatype Step =
    | PickPhysicalDeviceStep
    | CreateLogicalDeviceStep
    | CreateSwapchainStep
    | CreateImageViewsStep
    | CreateRenderPassStep
    | CreateGraphicsPipelineStep
    | CreateFramebuffersStep
    | CreateCommandPoolStep
    | CreateCommandBufferStep
    | CreateSyncObjectsStep

  /** The order in which `setup_devices` runs its steps. */
  const SetupSteps: seq<Step> := [
    PickPhysicalDeviceStep, CreateLogicalDeviceStep, CreateSwapchainStep, CreateImageViewsStep,
    CreateRenderPassStep, CreateGraphicsPipelineStep, CreateFramebuffersStep,
    CreateCommandPoolStep, CreateCommandBufferStep, CreateSyncObjectsStep]

  /** The rank of the objects a step creates (see `Trace.Rank`). */
  function StepRank(s: Step): nat {
    match s
    case PickPhysicalDeviceStep => 0
    case CreateLogicalDeviceStep => 0
    case CreateSwapchainStep => 1
    case CreateImageViewsStep => 2
    case CreateRenderPassStep => 3
    case CreateGraphicsPipelineStep => 4
    case CreateFramebuffersStep => 5
    case CreateCommandPoolStep => 6
    case CreateCommandBufferStep => 7
    case CreateSyncObjectsStep => 8
  }

  /** Does a loop of `count` calls meet the refused call? */
  predicate Refused(count: nat, refusedAt: Option<nat>) {
    refusedAt.Some? && refusedAt.value < count
  }

  /** How many calls a loop of `count` calls makes before stopping. */
  function CallsMade(count: nat, refusedAt: Option<nat>): (r: nat)
    ensures r <= count
    ensures Refused(count, refusedAt) ==> refusedAt.Some? && r == refusedAt.value + 1
    ensures !Refused(count, refusedAt) ==> r == count
  {
    if Refused(count, refusedAt) then refusedAt.value + 1 else count
  }

  /** A single create call whose failure the step reports as an initialization failure. */
  function Checked(result: VkResult): VkResult {
    if result != VK_SUCCESS then VK_ERROR_INITIALIZATION_FAILED else VK_SUCCESS
  }

  /** The result each step returns to `setup_devices`. Every step reports a refused call
      as an initialization failure, except the pipeline step, which passes the pipeline
      builder's code on; a step succeeds exactly when every call it makes succeeds. */
  function StepResult(s: Step, env: Driver): (r: VkResult)
    ensures r != VK_SUCCESS && s != CreateGraphicsPipelineStep ==> r == VK_ERROR_INITIALIZATION_FAILED
    ensures s == CreateGraphicsPipelineStep ==> r == env.createGraphicsPipeline
    ensures s == PickPhysicalDeviceStep ==> (r == VK_SUCCESS <==> |env.devices| > 0 && Suitable(env.devices[0]))
    ensures s == CreateImageViewsStep ==> (r == VK_SUCCESS <==> !Refused(|env.swapchainImages|, env.imageViewRefusedAt))
    ensures s == CreateFramebuffersStep ==>
      (r == VK_SUCCESS <==> env.framebufferArrayAllocated && !Refused(|env.swapchainImages|, env.framebufferRefusedAt))
    ensures s == CreateSyncObjectsStep ==>
      (r == VK_SUCCESS <==>
        env.createImageAvailable == VK_SUCCESS && env.createRenderFinished == VK_SUCCESS
        && env.createInFlightFence == VK_SUCCESS)
    ensures s in {CreateLogicalDeviceStep, CreateSwapchainStep, CreateRenderPassStep, CreateCommandPoolStep,
                  CreateCommandBufferStep} ==>
      (r == VK_SUCCESS <==> SingleCallResult(s, env) == VK_SUCCESS)
  {
    match s
    case PickPhysicalDeviceStep => PickPhysicalDevice(env.devices, InitialIndices).result
    case CreateLogicalDeviceStep => Checked(env.createDevice)
    case CreateSwapchainStep => Checked(env.createSwapchain)
    case CreateImageViewsStep =>
      if Refused(|env.swapchainImages|, env.imageViewRefusedAt) then VK_ERROR_INITIALIZATION_FAILED
      else VK_SUCCESS
    case CreateRenderPassStep => Checked(env.createRenderPass)
    case CreateGraphicsPipelineStep => env.createGraphicsPipeline
    case CreateFramebuffersStep =>
      if !env.framebufferArrayAllocated || Refused(|env.swapchainImages|, env.framebufferRefusedAt) then
        VK_ERROR_INITIALIZATION_FAILED
      else VK_SUCCESS
    case CreateCommandPoolStep => Checked(env.createCommandPool)
    case CreateCommandBufferStep => Checked(env.allocateCommandBuffer)
    case CreateSyncObjectsStep =>
      if env.createImageAvailable != VK_SUCCESS
         || env.createRenderFinished != VK_SUCCESS
         || env.createInFlightFence != VK_SUCCESS then VK_ERROR_INITIALIZATION_FAILED
      else VK_SUCCESS
  }

  /** The driver's answer to the one create call of a step that makes a single call. */
  function SingleCallResult(s: Step, env: Driver): VkResult {
    match s
    case CreateLogicalDeviceStep => env.createDevice
    case CreateSwapchainStep => env.createSwapchain
    case CreateRenderPassStep => env.createRenderPass
    case CreateCommandPoolStep => env.createCommandPool
    case CreateCommandBufferStep => env.allocateCommandBuffer
    case _ => VK_SUCCESS
  }

  /** The create calls each step makes, in order. The view and framebuffer loops run
      once per swapchain image (there are as many views as images) and stop at the first
      refused call; the three synchronisation objects are created under `||`, so a
      refused one skips the rest. */
  function StepCalls(s: Step, env: Driver): (r: seq<Call>)
    ensures s == PickPhysicalDeviceStep ==> r == []
    ensures s == CreateLogicalDeviceStep ==> r == [Create(LogicalDevice)]
    ensures s == CreateSwapchainStep ==> r == [Create(Swapchain)]
    ensures s == CreateRenderPassStep ==> r == [Create(RenderPass)]
    ensures s == CreateGraphicsPipelineStep ==> r == [Create(Pipeline)]
    ensures s == CreateCommandPoolStep ==> r == [Create(CommandPool)]
    ensures s == CreateCommandBufferStep ==> r == [Create(CommandBuffer)]
    ensures s == CreateSyncObjectsStep ==>
      r == [Create(ImageAvailableSemaphore), Create(RenderFinishedSemaphore), Create(InFlightFence)]
             [..if env.createImageAvailable != VK_SUCCESS then 1
                else if env.createRenderFinished != VK_SUCCESS then 2
                else 3]
    ensures forall i, j :: 0 <= i < j < |r| ==> r[i] != r[j]
    ensures s == CreateImageViewsStep ==>
      && |r| == CallsMade(|env.swapchainImages|, env.imageViewRefusedAt)
      && forall i :: 0 <= i < |r| ==> r[i] == Create(ImageView(i))
    ensures s == CreateFramebuffersStep ==>
      && |r| == (if env.framebufferArrayAllocated then CallsMade(|env.swapchainImages|, env.framebufferRefusedAt) else 0)
      && forall i :: 0 <= i < |r| ==> r[i] == Create(Framebuffer(i))
    ensures s == CreateSyncObjectsStep ==>
      && |r| > 0 && r[0] == Create(ImageAvailableSemaphore)
      && (Create(RenderFinishedSemaphore) in r <==> env.createImageAvailable == VK_SUCCESS)
      && (Create(InFlightFence) in r <==>
            env.createImageAvailable == VK_SUCCESS && env.createRenderFinished == VK_SUCCESS)
    ensures StepResult(s, env) == VK_SUCCESS && (s == CreateImageViewsStep || s == CreateFramebuffersStep) ==>
      |r| == |env.swapchainImages|
  {
    match s
    case PickPhysicalDeviceStep => []
    case CreateLogicalDeviceStep => [Create(LogicalDevice)]
    case CreateSwapchainStep => [Create(Swapchain)]
    case CreateImageViewsStep =>
      seq(CallsMade(|env.swapchainImages|, env.imageViewRefusedAt), i requires 0 <= i => Create(ImageView(i)))
    case CreateRenderPassStep => [Create(RenderPass)]
    case CreateGraphicsPipelineStep => [Create(Pipeline)]
    case CreateFramebuffersStep =>
      if !env.framebufferArrayAllocated then []
      else seq(CallsMade(|env.swapchainImages|, env.framebufferRefusedAt), i requires 0 <= i => Create(Framebuffer(i)))
    case CreateCommandPoolStep => [Create(CommandPool)]
    case CreateCommandBufferStep => [Create(CommandBuffer)]
    case CreateSyncObjectsStep =>
      [Create(ImageAvailableSemaphore)]
      + if env.createImageAvailable != VK_SUCCESS then []
        else [Create(RenderFinishedSemaphore)]
             + if env.createRenderFinished != VK_SUCCESS then [] else [Create(InFlightFence)]
  }

  /** Every call a step makes creates an object of the step's rank. */
  lemma StepCallsHaveStepRank(s: Step, env: Driver)
    ensures forall i :: 0 <= i < |StepCalls(s, env)| ==>
      StepCalls(s, env)[i].Create? && CallRank(StepCalls(s, env)[i]) == StepRank(s)
  {
  }

  function CallsOf(steps: seq<Step>, env: Driver): seq<Call>
    decreases |steps|
  {
    if |steps| == 0 then [] else StepCalls(steps[0], env) + CallsOf(steps[1..], env)
  }

  /** A list of steps in non-decreasing rank creates objects in non-decreasing rank,
      none below the rank of its first step. */
  lemma {:induction false} CallsOfCreateInOrder(steps: seq<Step>, env: Driver)
    requires forall i :: 0 <= i < |steps| - 1 ==> StepRank(steps[i]) <= StepRank(steps[i + 1])
    ensures CreatesInOrder(CallsOf(steps, env))
    ensures forall i :: 0 <= i < |CallsOf(steps, env)| ==> CallRank(CallsOf(steps, env)[i]) >= StepRank(steps[0])
    decreases |steps|
  {
    if |steps| > 0 {
      var head := StepCalls(steps[0], env);
      var tail := CallsOf(steps[1..], env);
      StepCallsHaveStepRank(steps[0], env);
      CallsOfCreateInOrder(steps[1..], env);
      if |steps| > 1 {
        assert StepRank(steps[0]) <= StepRank(steps[1]);
      } else {
        assert tail == [];
      }
      ConcatCreatesInOrder(head, tail);
      assert CallsOf(steps, env) == head + tail;
      forall i | 0 <= i < |head + tail|
        ensures CallRank((head + tail)[i]) >= StepRank(steps[0])
      {
        if i >= |head| {
          assert (head + tail)[i] == tail[i - |head|];
        }
      }
    }
  }

  /** The calls of a step list are the first step's calls, then the rest's. */
  lemma CallsOfCons(s: Step, rest: seq<Step>, env: Driver)
    ensures CallsOf([s] + rest, env) == StepCalls(s, env) + CallsOf(rest, env)
  {
    assert ([s] + rest)[1..] == rest;
  }

  /** The result of running a list of steps: the final result, the steps that ran and
      the calls they made. */
  datatype Run = Run(result: VkResult, attempted: seq<Step>, calls: seq<Call>)

  /** Runs the steps in order and returns the first result that is not `VK_SUCCESS`,
      without running any later step. */
  function RunSteps(steps: seq<Step>, env: Driver): (r: Run)
    decreases |steps|
    ensures |r.attempted| <= |steps| && r.attempted == steps[..|r.attempted|]
    ensures r.calls == CallsOf(r.attempted, env)
    ensures forall k :: 0 <= k < |r.attempted| - 1 ==> StepResult(r.attempted[k], env) == VK_SUCCESS
    ensures r.result == VK_SUCCESS <==>
      r.attempted == steps && forall k :: 0 <= k < |steps| ==> StepResult(steps[k], env) == VK_SUCCESS
    ensures r.result != VK_SUCCESS ==>
      |r.attempted| > 0 && StepResult(r.attempted[|r.attempted| - 1], env) == r.result
  {
    if |steps| == 0 then Run(VK_SUCCESS, [], [])
    else
      var result := StepResult(steps[0], env);
      if result != VK_SUCCESS then
        Run(result, [steps[0]], StepCalls(steps[0], env))
      else
        var rest := RunSteps(steps[1..], env);
        CallsOfCons(steps[0], rest.attempted, env);
        Run(rest.result, [steps[0]] + rest.attempted, StepCalls(steps[0], env) + rest.calls)
  }

  /** The module state a successful `setup_devices` leaves behind. */
  datatype Renderer = Renderer(
    physicalDevice: PhysicalDevice,
    indices: QueueFamilyIndices,
    queueCreateInfos: seq<QueueCreateInfo>,
    graphicsQueueFamily: nat,
    presentQueueFamily: nat,
    swapchain: SwapchainCreateInfo,
    images: seq<Handle>,
    swapchainFormat: VkFormat,
    extent: Extent2D,
    views: seq<ViewInfo>,
    framebuffers: seq<FramebufferInfo>,
    commandPoolFamily: nat)

  /** What a renderer built from the driver's answers must look like: the first device,
      a complete queue-family record whose present family was never written, one queue
      per distinct family, a swapchain negotiated from that device's surface answers,
      one view per swapchain image and one framebuffer per view, index by index. */
  ghost predicate Ready(rd: Renderer, env: Driver, extent: Extent2D) {
    && |env.devices| > 0
    && rd.physicalDevice == env.devices[0]
    && Suitable(rd.physicalDevice)
    && rd.indices.isComplete
    && rd.indices.graphicsFamily < |rd.physicalDevice.queueFamilies|
    && ServesBoth(rd.physicalDevice.queueFamilies[rd.indices.graphicsFamily])
    && (forall k :: 0 <= k < rd.indices.graphicsFamily ==> !ServesBoth(rd.physicalDevice.queueFamilies[k]))
    && rd.indices.presentFamily == InitialIndices.presentFamily
    && rd.queueCreateInfos == QueueCreateInfos(rd.indices)
    && rd.graphicsQueueFamily == rd.indices.graphicsFamily
    && rd.presentQueueFamily == rd.indices.presentFamily
    && rd.swapchain == SwapchainCreateInfoFor(rd.physicalDevice.capabilities, rd.physicalDevice.formats,
                                              rd.physicalDevice.presentModes, rd.indices, extent)
    && rd.swapchainFormat == rd.swapchain.imageFormat.format
    && rd.extent == extent == rd.swapchain.imageExtent
    && rd.images == env.swapchainImages
    && |rd.views| == |rd.images|
    && (forall i :: 0 <= i < |rd.views| ==> rd.views[i] == ViewInfo(rd.images[i], rd.swapchainFormat))
    && |rd.framebuffers| == |rd.views|
    && (forall i :: 0 <= i < |rd.framebuffers| ==>
          rd.framebuffers[i] == FramebufferInfo(rd.views[i], extent.width, extent.height, 1))
    && rd.commandPoolFamily == rd.graphicsQueueFamily
  }

  /** The state the creation steps leave when every one of them succeeds. */
  function BuildRenderer(env: Driver, extent: Extent2D): (rd: Renderer)
    requires |env.devices| > 0 && Suitable(env.devices[0])
    ensures Ready(rd, env, extent)
  {
    var device := env.devices[0];
    var indices := FindQueueFamilies(device.queueFamilies, InitialIndices);
    var swapchain := SwapchainCreateInfoFor(device.capabilities, device.formats, device.presentModes, indices, extent);
    var views := ViewsFor(env.swapchainImages, swapchain.imageFormat.format);
    Renderer(
      device, indices, QueueCreateInfos(indices),
      indices.graphicsFamily, indices.presentFamily,
      swapchain, env.swapchainImages, swapchain.imageFormat.format, extent,
      views, FramebuffersFor(views, extent), indices.graphicsFamily)
  }

  datatype SetupOutcome = SetupOutcome(run: Run, renderer: Option<Renderer>)

  /** `setup_devices(instance, surface, width, height)`. */
  function SetupDevices(env: Driver, extent: Extent2D): (r: SetupOutcome)
    ensures r.run == RunSteps(SetupSteps, env)
    ensures r.run.result == VK_SUCCESS <==> r.renderer.Some?
    ensures r.run.result == VK_SUCCESS ==> r.run.attempted == SetupSteps && Ready(r.renderer.value, env, extent)
  {
    var run := RunSteps(SetupSteps, env);
    if run.result == VK_SUCCESS then
      SuccessfulRunPickedFirstDevice(env);
      SetupOutcome(run, Some(BuildRenderer(env, extent)))
    else
      SetupOutcome(run, None)
  }

  /** Every successful run of the setup steps has picked the first device. */
  lemma SuccessfulRunPickedFirstDevice(env: Driver)
    ensures RunSteps(SetupSteps, env).result == VK_SUCCESS ==> |env.devices| > 0 && Suitable(env.devices[0])
  {
    if RunSteps(SetupSteps, env).result == VK_SUCCESS {
      assert StepResult(SetupSteps[0], env) == VK_SUCCESS;
    }
  }

  /** Setup creates objects strictly kind by kind: device, swapchain, views, render
      pass, pipeline, framebuffers, command pool, command buffer, synchronisation
      objects, whether it succeeds or stops early. */
  lemma SetupCreatesInRankOrder(env: Driver)
    ensures CreatesInOrder(RunSteps(SetupSteps, env).calls)
  {
    var run := RunSteps(SetupSteps, env);
    PrefixCreatesInOrder(env, |run.attempted|);
  }

  /** Any prefix of the setup steps creates objects in rank order. */
  lemma PrefixCreatesInOrder(env: Driver, n: nat)
    requires n <= |SetupSteps|
    ensures CreatesInOrder(CallsOf(SetupSteps[..n], env))
  {
    SetupStepsAscend();
    PrefixAscends(SetupSteps, n);
    CallsOfCreateInOrder(SetupSteps[..n], env);
  }

  lemma SetupStepsAscend()
    ensures forall i :: 0 <= i < |SetupSteps| - 1 ==> StepRank(SetupSteps[i]) <= StepRank(SetupSteps[i + 1])
  {
  }

  lemma PrefixAscends(steps: seq<Step>, n: nat)
    requires n <= |steps|
    requires forall i :: 0 <= i < |steps| - 1 ==> StepRank(steps[i]) <= StepRank(steps[i + 1])
    ensures forall i :: 0 <= i < n - 1 ==> StepRank(steps[..n][i]) <= StepRank(steps[..n][i + 1])
  {
  }

  /** Every failure setup reports is an initialization failure, except a failure of the
      pipeline builder, whose code is passed on unchanged. */
  lemma SetupFailureCodes(env: Driver)
    ensures var run := RunSteps(SetupSteps, env);
      run.result != VK_SUCCESS ==>
        run.result == VK_ERROR_INITIALIZATION_FAILED
        || (run.attempted == SetupSteps[..6] && run.result == env.createGraphicsPipeline)
  {
    var run := RunSteps(SetupSteps, env);
    if run.result != VK_SUCCESS {
      var n := |run.attempted|;
      var last := run.attempted[n - 1];
      assert last == SetupSteps[n - 1];
      StepFailureCode(last, env);
      if last == CreateGraphicsPipelineStep {
        PipelineIsSixthStep(n - 1);
      }
    }
  }

  /** A failing step reports an initialization failure unless it is the pipeline step. */
  lemma StepFailureCode(s: Step, env: Driver)
    ensures StepResult(s, env) != VK_SUCCESS && s != CreateGraphicsPipelineStep ==>
      StepResult(s, env) == VK_ERROR_INITIALIZATION_FAILED
  {
  }

  lemma PipelineIsSixthStep(k: nat)
    requires k < |SetupSteps| && SetupSteps[k] == CreateGraphicsPipelineStep
    ensures k == 5
  {
  }

  /** Because `presentFamily` is never written, a successful setup always takes its
      present queue from family 0, even when family 0 cannot present, and creates two
      queue families exactly when the graphics family is not 0. */
  lemma PresentQueueIsAlwaysFamilyZero(env: Driver, extent: Extent2D)
    ensures var setup := SetupDevices(env, extent);
      setup.renderer.Some? ==>
        && setup.renderer.value.presentQueueFamily == 0
        && (|setup.renderer.value.queueCreateInfos| == 2 <==> setup.renderer.value.graphicsQueueFamily != 0)
  {
  }

  /** The objects a setup that succeeds creates for a swapchain of `imageCount` images:
      one view and one framebuffer per image and one of every other kind. */
  ghost predicate CreatedBySetup(o: Object, imageCount: nat) {
    match o
    case ImageView(i) => i < imageCount
    case Framebuffer(i) => i < imageCount
    case _ => true
  }

  /** The step that creates an object of each kind. */
  function CreatingStep(o: Object): (s: Step)
    ensures StepRank(s) == Rank(o)
  {
    match o
    case LogicalDevice => CreateLogicalDeviceStep
    case Swapchain => CreateSwapchainStep
    case ImageView(_) => CreateImageViewsStep
    case RenderPass => CreateRenderPassStep
    case Pipeline => CreateGraphicsPipelineStep
    case Framebuffer(_) => CreateFramebuffersStep
    case CommandPool => CreateCommandPoolStep
    case CommandBuffer => CreateCommandBufferStep
    case ImageAvailableSemaphore => CreateSyncObjectsStep
    case RenderFinishedSemaphore => CreateSyncObjectsStep
    case InFlightFence => CreateSyncObjectsStep
  }

  /** A step creates objects of its own kinds only, and a step that succeeds creates
      every object of its kinds that a successful setup has. */
  lemma StepCreates(s: Step, env: Driver, o: Object)
    ensures Create(o) in StepCalls(s, env) ==> s == CreatingStep(o)
    ensures StepResult(s, env) == VK_SUCCESS && s == CreatingStep(o) ==>
      (Create(o) in StepCalls(s, env) <==> CreatedBySetup(o, |env.swapchainImages|))
  {
    var calls := StepCalls(s, env);
    if Create(o) in calls {
      var k :| 0 <= k < |calls| && calls[k] == Create(o);
    }
    if StepResult(s, env) == VK_SUCCESS && s == CreatingStep(o) && CreatedBySetup(o, |env.swapchainImages|) {
      match o
      case ImageView(i) => assert calls[i] == Create(o);
      case Framebuffer(i) => assert calls[i] == Create(o);
      case _ =>
    }
  }

  /** Two different steps never make the same call. */
  lemma NoCallInTwoSteps(s: Step, t: Step, env: Driver, c: Call)
    requires s != t
    ensures !(c in StepCalls(s, env) && c in StepCalls(t, env))
  {
    if c in StepCalls(s, env) && c in StepCalls(t, env) {
      var k :| 0 <= k < |StepCalls(s, env)| && StepCalls(s, env)[k] == c;
      StepCallsHaveStepRank(s, env);
      StepCreates(s, env, c.obj);
      StepCreates(t, env, c.obj);
    }
  }

  /** Steps that are all different make calls that are all different. */
  lemma {:induction false} CallsOfDistinct(steps: seq<Step>, env: Driver)
    requires forall i, j :: 0 <= i < j < |steps| ==> steps[i] != steps[j]
    ensures forall i, j :: 0 <= i < j < |CallsOf(steps, env)| ==> CallsOf(steps, env)[i] != CallsOf(steps, env)[j]
    decreases |steps|
  {
    if |steps| > 0 {
      var head := StepCalls(steps[0], env);
      var tail := CallsOf(steps[1..], env);
      var calls := head + tail;
      assert CallsOf(steps, env) == calls;
      CallsOfDistinct(steps[1..], env);
      forall i, j | 0 <= i < j < |calls|
        ensures calls[i] != calls[j]
      {
        if i < |head| && j >= |head| {
          var c := calls[j];
          assert c == tail[j - |head|] && c in tail;
          InCallsOf(steps[1..], env, c);
          var k :| 0 <= k < |steps[1..]| && c in StepCalls(steps[1..][k], env);
          assert steps[1..][k] == steps[k + 1] != steps[0];
          if calls[i] == c {
            NoCallInTwoSteps(steps[0], steps[k + 1], env, c);
          }
        } else if i >= |head| {
          assert calls[i] == tail[i - |head|] && calls[j] == tail[j - |head|];
        }
      }
    }
  }

  lemma SetupStepsDistinct(n: nat)
    requires n <= |SetupSteps|
    ensures forall i, j :: 0 <= i < j < n ==> SetupSteps[..n][i] != SetupSteps[..n][j]
  {
    assert forall i, j :: 0 <= i < j < |SetupSteps| ==> SetupSteps[i] != SetupSteps[j];
  }

  /** No object is created twice, whether setup succeeds or stops early. */
  lemma SetupCreatesEachOnce(env: Driver)
    ensures var calls := RunSteps(SetupSteps, env).calls;
      forall i, j :: 0 <= i < j < |calls| ==> calls[i] != calls[j]
  {
    var run := RunSteps(SetupSteps, env);
    SetupStepsDistinct(|run.attempted|);
    CallsOfDistinct(SetupSteps[..|run.attempted|], env);
  }

  /** A call is among the calls of a list of steps iff one of the steps makes it. */
  lemma {:induction false} InCallsOf(steps: seq<Step>, env: Driver, c: Call)
    ensures c in CallsOf(steps, env) <==> exists k :: 0 <= k < |steps| && c in StepCalls(steps[k], env)
    decreases |steps|
  {
    if |steps| > 0 {
      InCallsOf(steps[1..], env, c);
      if c in CallsOf(steps[1..], env) {
        var k :| 0 <= k < |steps| - 1 && c in StepCalls(steps[1..][k], env);
        assert c in StepCalls(steps[k + 1], env);
      }
      if exists k :: 0 <= k < |steps| && c in StepCalls(steps[k], env) {
        var k :| 0 <= k < |steps| && c in StepCalls(steps[k], env);
        if k > 0 {
          assert steps[1..][k - 1] == steps[k];
        }
      }
    }
  }

  /** Every kind of object has its step in the setup list. */
  lemma CreatingStepIsListed(o: Object)
    ensures CreatingStep(o) in SetupSteps
  {
  }

  /** A setup that succeeds creates exactly the objects `CreatedBySetup` names. */
  lemma SuccessfulSetupCreates(env: Driver)
    ensures RunSteps(SetupSteps, env).result == VK_SUCCESS ==>
      forall o :: Create(o) in RunSteps(SetupSteps, env).calls <==> CreatedBySetup(o, |env.swapchainImages|)
  {
    var run := RunSteps(SetupSteps, env);
    if run.result != VK_SUCCESS {
      return;
    }
    assert run.calls == CallsOf(SetupSteps, env);
    forall o
      ensures Create(o) in run.calls <==> CreatedBySetup(o, |env.swapchainImages|)
    {
      InCallsOf(SetupSteps, env, Create(o));
      CreatingStepIsListed(o);
      var j :| 0 <= j < |SetupSteps| && SetupSteps[j] == CreatingStep(o);
      StepCreates(CreatingStep(o), env, o);
      if Create(o) in run.calls {
        var k :| 0 <= k < |SetupSteps| && Create(o) in StepCalls(SetupSteps[k], env);
        StepCreates(SetupSteps[k], env, o);
      }
    }
  }
}
