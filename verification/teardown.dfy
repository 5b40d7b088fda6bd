/** Device tear-down (src/devices.c `close_devices`): wait for the device to go idle,
    then destroy everything `setup_devices` created, newest kind first. */
module Teardown {
  import opened Vk
  import opened Trace
  import opened Setup

  /** The calls `close_devices` makes for the module state `rd`. The pipeline (with its
      layout and shader modules, which are not part of this model) goes in one call; the
      command buffer is freed with its pool and has no call of its own. */
  function CloseDevices(rd: Renderer): (r: seq<Call>)
    ensures |r| == 9 + |rd.framebuffers| + |rd.views|
    ensures r[0] == DeviceWaitIdle
    ensures r[|r| - 1] == Destroy(LogicalDevice)
  {
    [DeviceWaitIdle, Destroy(ImageAvailableSemaphore), Destroy(RenderFinishedSemaphore),
     Destroy(InFlightFence), Destroy(CommandPool)]
    + DestroyEach(|rd.framebuffers|, (i: nat) => Framebuffer(i))
    + [Destroy(Pipeline), Destroy(RenderPass)]
    + DestroyEach(|rd.views|, (i: nat) => ImageView(i))
    + [Destroy(Swapchain), Destroy(LogicalDevice)]
  }

  /** The calls of a loop destroying the objects `obj(0)`, ..., `obj(count - 1)`. */
  function DestroyEach(count: nat, obj: nat -> Object): (r: seq<Call>)
    ensures |r| == count
    ensures forall i :: 0 <= i < count ==> r[i] == Destroy(obj(i))
  {
    seq(count, i requires 0 <= i => Destroy(obj(i)))
  }

  /** The call at each position of `close_devices`, for `nf` framebuffers and `nv` views. */
  function CallAt(k: nat, nf: nat, nv: nat): Call {
    if k == 0 then DeviceWaitIdle
    else if k == 1 then Destroy(ImageAvailableSemaphore)
    else if k == 2 then Destroy(RenderFinishedSemaphore)
    else if k == 3 then Destroy(InFlightFence)
    else if k == 4 then Destroy(CommandPool)
    else if k < 5 + nf then Destroy(Framebuffer(k - 5))
    else if k == 5 + nf then Destroy(Pipeline)
    else if k == 6 + nf then Destroy(RenderPass)
    else if k < 7 + nf + nv then Destroy(ImageView(k - 7 - nf))
    else if k == 7 + nf + nv then Destroy(Swapchain)
    else Destroy(LogicalDevice)
  }

  lemma CloseDevicesAt(rd: Renderer, k: nat)
    requires k < |CloseDevices(rd)|
    ensures CloseDevices(rd)[k] == CallAt(k, |rd.framebuffers|, |rd.views|)
  {
    var nf := |rd.framebuffers|;
    var nv := |rd.views|;
    var head := [DeviceWaitIdle, Destroy(ImageAvailableSemaphore), Destroy(RenderFinishedSemaphore),
                 Destroy(InFlightFence), Destroy(CommandPool)];
    var framebuffers := DestroyEach(nf, (i: nat) => Framebuffer(i));
    var middle := [Destroy(Pipeline), Destroy(RenderPass)];
    var views := DestroyEach(nv, (i: nat) => ImageView(i));
    var tail := [Destroy(Swapchain), Destroy(LogicalDevice)];
    var a := head + framebuffers;
    var b := a + middle;
    var c := b + views;
    assert CloseDevices(rd) == c + tail;
    if k < 5 {
    } else if k < 5 + nf {
      assert a[k] == framebuffers[k - 5];
    } else if k < 7 + nf {
      assert b[k] == middle[k - 5 - nf];
    } else if k < 7 + nf + nv {
      assert c[k] == views[k - 7 - nf];
    }
  }

  /** Apart from the opening wait, every call destroys something, and kinds are
      destroyed in the reverse of their creation order. */
  lemma CloseDevicesDescends(rd: Renderer)
    ensures forall i :: 1 <= i < |CloseDevices(rd)| ==> CloseDevices(rd)[i].Destroy?
    ensures RanksDescend(CloseDevices(rd))
  {
    var r := CloseDevices(rd);
    forall i | 0 <= i < |r|
      ensures r[i] == CallAt(i, |rd.framebuffers|, |rd.views|)
    {
      CloseDevicesAt(rd, i);
    }
  }

  /** The objects `close_devices` destroys: every kind of object setup creates except
      the command buffer, with one framebuffer and one view per recorded entry. */
  ghost predicate DestroyedBy(o: Object, rd: Renderer) {
    match o
    case ImageView(i) => i < |rd.views|
    case Framebuffer(i) => i < |rd.framebuffers|
    case CommandBuffer => false
    case _ => true
  }

  /** Exactly the objects `DestroyedBy` names are destroyed. */
  lemma CloseDevicesDestroys(rd: Renderer)
    ensures forall o :: Destroy(o) in CloseDevices(rd) <==> DestroyedBy(o, rd)
  {
    var r := CloseDevices(rd);
    var nf := |rd.framebuffers|;
    var nv := |rd.views|;
    forall o
      ensures Destroy(o) in r <==> DestroyedBy(o, rd)
    {
      if Destroy(o) in r {
        var k :| 0 <= k < |r| && r[k] == Destroy(o);
        CloseDevicesAt(rd, k);
      }
      if DestroyedBy(o, rd) {
        CloseDevicesAt(rd, DestroyIndex(o, nf, nv));
      }
    }
  }

  /** Where `close_devices` destroys an object, for `nf` framebuffers and `nv` views. */
  function DestroyIndex(o: Object, nf: nat, nv: nat): nat {
    match o
    case ImageAvailableSemaphore => 1
    case RenderFinishedSemaphore => 2
    case InFlightFence => 3
    case CommandPool => 4
    case Framebuffer(i) => 5 + i
    case Pipeline => 5 + nf
    case RenderPass => 6 + nf
    case ImageView(i) => 7 + nf + i
    case Swapchain => 7 + nf + nv
    case LogicalDevice => 8 + nf + nv
    case CommandBuffer => 0
  }

  /** No object is destroyed twice. */
  lemma CloseDevicesDestroysEachOnce(rd: Renderer)
    ensures forall i, j :: 0 <= i < j < |CloseDevices(rd)| ==> CloseDevices(rd)[i] != CloseDevices(rd)[j]
  {
    var r := CloseDevices(rd);
    forall i, j | 0 <= i < j < |r|
      ensures r[i] != r[j]
    {
      CloseDevicesAt(rd, i);
      CloseDevicesAt(rd, j);
    }
  }

  /** After a setup that succeeds, `close_devices` destroys exactly what setup created,
      except the command buffer, which goes with its pool. */
  lemma TeardownDestroysWhatSetupCreated(env: Driver, extent: Extent2D)
    ensures var setup := SetupDevices(env, extent);
      setup.renderer.Some? ==>
        forall o :: Destroy(o) in CloseDevices(setup.renderer.value) <==>
          Create(o) in setup.run.calls && o != CommandBuffer
  {
    var setup := SetupDevices(env, extent);
    if setup.renderer.Some? {
      ReadyCounts(setup.renderer.value, env, extent);
      TeardownMatchesCreation(env, setup.renderer.value);
    }
  }

  /** A teardown with one view and one framebuffer per image destroys what a successful
      setup created, less the command buffer. */
  lemma TeardownMatchesCreation(env: Driver, rd: Renderer)
    ensures RunSteps(SetupSteps, env).result == VK_SUCCESS
            && |rd.views| == |rd.framebuffers| == |env.swapchainImages| ==>
      forall o :: Destroy(o) in CloseDevices(rd) <==> Create(o) in RunSteps(SetupSteps, env).calls && o != CommandBuffer
  {
    if RunSteps(SetupSteps, env).result == VK_SUCCESS && |rd.views| == |rd.framebuffers| == |env.swapchainImages| {
      SuccessfulSetupCreates(env);
      DestroyedMatchesCreated(rd, |env.swapchainImages|);
    }
  }

  /** The objects a renderer's teardown destroys are those setup creates for its image
      count, less the command buffer. */
  lemma DestroyedMatchesCreated(rd: Renderer, n: nat)
    requires |rd.views| == |rd.framebuffers| == n
    ensures forall o :: Destroy(o) in CloseDevices(rd) <==> CreatedBySetup(o, n) && o != CommandBuffer
  {
    CloseDevicesDestroys(rd);
  }

  /** A ready renderer has one view and one framebuffer per swapchain image. */
  lemma ReadyCounts(rd: Renderer, env: Driver, extent: Extent2D)
    requires Ready(rd, env, extent)
    ensures |rd.views| == |rd.framebuffers| == |env.swapchainImages|
  {
  }

  /** Objects are destroyed newest kind first: framebuffers before the render pass they
      serve and the views they show, views before the swapchain whose images they wrap,
      and the device after everything else. */
  lemma TeardownOrder(rd: Renderer, i: nat, j: nat, a: Object, b: Object)
    requires i < |CloseDevices(rd)| && CloseDevices(rd)[i] == Destroy(a)
    requires j < |CloseDevices(rd)| && CloseDevices(rd)[j] == Destroy(b)
    requires Rank(b) < Rank(a)
    ensures i < j
  {
  }
}
