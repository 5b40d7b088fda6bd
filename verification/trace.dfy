/** The driver calls the core issues, as abstract events. Objects the core creates are
    named by what they are (the i-th image view, the render pass, ...) rather than by the
    opaque handle the driver returns for them. */
module Trace {
  import opened Vk

  /** Every object `setup_devices` creates on the logical device, and the device itself. */
  datatype Object =
    | LogicalDevice
    | Swapchain
    | ImageView(index: nat)
    | RenderPass
    | Pipeline
    | Framebuffer(index: nat)
    | CommandPool
    | CommandBuffer
    | ImageAvailableSemaphore
    | RenderFinishedSemaphore
    | InFlightFence

  /** The position of an object's kind in the creation order of `setup_devices`. The
      three synchronisation objects are created together and share a rank. */
  function Rank(o: Object): nat {
    match o
    case LogicalDevice => 0
    case Swapchain => 1
    case ImageView(_) => 2
    case RenderPass => 3
    case Pipeline => 4
    case Framebuffer(_) => 5
    case CommandPool => 6
    case CommandBuffer => 7
    case ImageAvailableSemaphore => 8
    case RenderFinishedSemaphore => 8
    case InFlightFence => 8
  }

  datatype Call =
    | Create(obj: Object)                 // a vkCreate*/vkAllocate* call, made whether or not it succeeds
    | Destroy(obj: Object)                // a vkDestroy* call
    | DeviceWaitIdle
    | WaitForFence
    | ResetFence
    | AcquireNextImage(imageIndex: nat, acquired: bool)  // whether the driver handed out an image
    | ResetCommandBuffer
    | BeginCommandBuffer(accepted: bool)  // whether the driver let recording begin
    | BeginRenderPass(framebuffer: nat, renderArea: Extent2D)
    | BindPipeline
    | SetViewport(viewport: Extent2D)
    | SetScissor(scissor: Extent2D)
    | Draw(vertexCount: nat, instanceCount: nat, firstVertex: nat, firstInstance: nat)
    | EndRenderPass
    | EndCommandBuffer(accepted: bool)    // whether the driver finished the recording
    | QueueSubmit(result: VkResult)       // what the driver answered to the submission
    | QueuePresent(imageIndex: nat)

  /** Rank of a create or destroy call; waiting for the device to go idle ranks above
      every object, other calls rank lowest. */
  function CallRank(c: Call): nat {
    match c
    case Create(o) => Rank(o)
    case Destroy(o) => Rank(o)
    case DeviceWaitIdle => 9
    case _ => 0
  }

  /** Only creations, never of an object of an earlier kind after one of a later kind. */
  ghost predicate CreatesInOrder(calls: seq<Call>) {
    && (forall i :: 0 <= i < |calls| ==> calls[i].Create?)
    && (forall i, j :: 0 <= i < j < |calls| ==> CallRank(calls[i]) <= CallRank(calls[j]))
  }

  lemma ConcatCreatesInOrder(a: seq<Call>, b: seq<Call>)
    requires CreatesInOrder(a) && CreatesInOrder(b)
    requires forall i, j :: 0 <= i < |a| && 0 <= j < |b| ==> CallRank(a[i]) <= CallRank(b[j])
    ensures CreatesInOrder(a + b)
  {
    var c := a + b;
    forall i, j | 0 <= i < j < |c|
      ensures CallRank(c[i]) <= CallRank(c[j])
    {
      if j < |a| {
      } else if i < |a| {
        assert c[j] == b[j - |a|];
      } else {
        assert c[i] == b[i - |a|] && c[j] == b[j - |a|];
      }
    }
  }

  /** Ranks never increase along the sequence. */
  ghost predicate RanksDescend(calls: seq<Call>) {
    forall i, j :: 0 <= i < j < |calls| ==> CallRank(calls[i]) >= CallRank(calls[j])
  }
}
