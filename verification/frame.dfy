/** One tick of the frame loop (src/devices.c `record_command_buffer` and
    `draw_frame`), and the loop's state machine with the in-flight fence, against which
    the calls of `draw_frame` are checked. */
module Frame {
  import opened Vk
  import opened Trace
  import opened Setup

  /** What the driver answers during one `draw_frame`. */
  datatype FrameDriver = FrameDriver(
    acquireResult: VkResult,     // vkAcquireNextImageKHR (not checked by the source)
    imageIndex: nat,             // the image index it writes, or whatever `imageIndex` holds
    beginResult: VkResult,       // vkBeginCommandBuffer
    endResult: VkResult,         // vkEndCommandBuffer
    submitResult: VkResult,      // vkQueueSubmit
    presentResult: VkResult)     // vkQueuePresentKHR (ignored by the source)

  /** Did `vkAcquireNextImageKHR` hand out an image? It does on success and when the
      swapchain is suboptimal; then the image-available semaphore will be signalled. On
      any error it writes no index and signals nothing. */
  predicate ImageAcquired(acquireResult: VkResult) {
    acquireResult == VK_SUCCESS || acquireResult == VK_SUBOPTIMAL_KHR
  }

  datatype CommandRecording = CommandRecording(result: VkResult, calls: seq<Call>)

  /** `record_command_buffer`. A refused begin stops recording at once. Otherwise one
      render pass on the framebuffer of the acquired image, over the whole extent, draws
      one triangle (3 vertices, 1 instance); a refused end is reported as an unknown
      error after every command has been recorded. */
  function RecordCommandBuffer(extent: Extent2D, imageIndex: nat, beginResult: VkResult, endResult: VkResult): (r: CommandRecording)
    ensures r.result == VK_SUCCESS <==> beginResult == VK_SUCCESS && endResult == VK_SUCCESS
    ensures beginResult != VK_SUCCESS ==> r.result == VK_ERROR_INITIALIZATION_FAILED && r.calls == [BeginCommandBuffer(false)]
    ensures beginResult == VK_SUCCESS && endResult != VK_SUCCESS ==> r.result == VK_ERROR_UNKNOWN
    ensures beginResult == VK_SUCCESS ==>
      && |r.calls| == 8
      && r.calls[0] == BeginCommandBuffer(true)
      && r.calls[1] == BeginRenderPass(imageIndex, extent)
      && r.calls[2] == BindPipeline
      && r.calls[3] == SetViewport(extent)
      && r.calls[4] == SetScissor(extent)
      && r.calls[5] == Draw(3, 1, 0, 0)
      && r.calls[6] == EndRenderPass
      && r.calls[7] == EndCommandBuffer(endResult == VK_SUCCESS)
    ensures forall c :: c in r.calls ==> !c.QueueSubmit? && !c.QueuePresent?
    ensures forall c :: c in r.calls && c.BeginRenderPass? ==> c.framebuffer == imageIndex && c.renderArea == extent
  {
    if beginResult != VK_SUCCESS then
      CommandRecording(VK_ERROR_INITIALIZATION_FAILED, [BeginCommandBuffer(false)])
    else
      var calls := [BeginCommandBuffer(true), BeginRenderPass(imageIndex, extent), BindPipeline,
                    SetViewport(extent), SetScissor(extent), Draw(3, 1, 0, 0), EndRenderPass,
                    EndCommandBuffer(endResult == VK_SUCCESS)];
      if endResult != VK_SUCCESS then CommandRecording(VK_ERROR_UNKNOWN, calls)
      else CommandRecording(VK_SUCCESS, calls)
  }

  datatype FrameOutcome = FrameOutcome(result: VkResult, calls: seq<Call>)

  /** `draw_frame`: wait for and reset the fence, acquire an image, re-record the
      command buffer, submit, and present only if the submission was accepted. Only the
      submission's result decides the outcome: a refused acquire does not stop the tick. */
  function DrawFrame(rd: Renderer, fd: FrameDriver): (r: FrameOutcome)
    ensures r.result == VK_SUCCESS <==> fd.submitResult == VK_SUCCESS
    ensures r.result != VK_SUCCESS ==> r.result == VK_ERROR_UNKNOWN
    ensures |r.calls| > 4 && r.calls[..4] == [WaitForFence, ResetFence, AcquireNextImage(fd.imageIndex, ImageAcquired(fd.acquireResult)), ResetCommandBuffer]
    ensures QueueSubmit(fd.submitResult) in r.calls
    ensures QueuePresent(fd.imageIndex) in r.calls <==> fd.submitResult == VK_SUCCESS
    ensures forall c :: c in r.calls && c.QueuePresent? ==> c.imageIndex == fd.imageIndex
    ensures forall c :: c in r.calls && c.BeginRenderPass? ==> c.framebuffer == fd.imageIndex && c.renderArea == rd.extent
  {
    var prologue := [WaitForFence, ResetFence, AcquireNextImage(fd.imageIndex, ImageAcquired(fd.acquireResult)), ResetCommandBuffer];
    var recording := RecordCommandBuffer(rd.extent, fd.imageIndex, fd.beginResult, fd.endResult).calls;
    var tail := SubmitCalls(fd.submitResult, fd.imageIndex);
    FrameCallsShape(prologue, recording, tail, rd.extent, fd.imageIndex);
    FrameOutcome(if fd.submitResult == VK_SUCCESS then VK_SUCCESS else VK_ERROR_UNKNOWN, prologue + recording + tail)
  }

  /** What the three parts of a frame's calls contribute to the whole. */
  lemma FrameCallsShape(prologue: seq<Call>, recording: seq<Call>, tail: seq<Call>, extent: Extent2D, imageIndex: nat)
    requires |prologue| == 4
    requires forall c :: c in recording ==> !c.QueueSubmit? && !c.QueuePresent?
    requires forall c :: c in recording && c.BeginRenderPass? ==> c.framebuffer == imageIndex && c.renderArea == extent
    requires forall c :: c in prologue ==> !c.QueueSubmit? && !c.QueuePresent? && !c.BeginRenderPass?
    requires forall c :: c in tail ==> !c.BeginRenderPass?
    ensures (prologue + recording + tail)[..4] == prologue
    ensures forall c :: c in prologue + recording + tail && c.BeginRenderPass? ==>
      c.framebuffer == imageIndex && c.renderArea == extent
    ensures forall c :: c in prologue + recording + tail && (c.QueueSubmit? || c.QueuePresent?) ==> c in tail
  {
    assert (prologue + recording + tail)[..4] == prologue;
  }

  /** The result of presenting is ignored, and of the acquire and recording results only
      whether they were accepted shows in the calls: frames that differ only in those
      answers behave alike. */
  lemma DrawFrameIgnoresOtherResults(rd: Renderer, fd: FrameDriver, fd': FrameDriver)
    requires fd.imageIndex == fd'.imageIndex && fd.submitResult == fd'.submitResult
    ensures DrawFrame(rd, fd).result == DrawFrame(rd, fd').result
    ensures ((ImageAcquired(fd.acquireResult) <==> ImageAcquired(fd'.acquireResult))
             && (fd.beginResult == VK_SUCCESS <==> fd'.beginResult == VK_SUCCESS)
             && (fd.endResult == VK_SUCCESS <==> fd'.endResult == VK_SUCCESS)) ==>
      DrawFrame(rd, fd).calls == DrawFrame(rd, fd').calls
  {
  }

  /** Phases of one tick of the frame loop. `BufferReset` is a command buffer in the
      initial state, with nothing recorded; `Invalid` is one whose recording the driver
      refused to end. Only a `Recorded` buffer is executable. */
  datatype Phase = Idle | FenceWaited | FenceReset | Acquired | BufferReset | Recording | Recorded | Invalid | Submitted

  /** The loop's state: its phase, whether the in-flight fence is signalled or will be
      signalled by work already accepted by the queue, whether the device is lost (a
      wait on a lost device returns, with `VK_ERROR_DEVICE_LOST`), and whether an image
      was acquired whose image-available semaphore the next submission can wait on. */
  datatype LoopState = LoopState(phase: Phase, fenceWillSignal: bool, deviceLost: bool, imageReady: bool)

  /** The fence is created signalled, so the first tick does not wait; no image is
      acquired yet. */
  const FirstTick := LoopState(Idle, true, false, false)

  /** What a call does in a state: moves the loop on, never returns (an unbounded wait
      on a fence nothing will signal), submits a command buffer that is not executable,
      or is out of order. */
  datatype Transition = Moves(next: LoopState) | WaitsForever | InvalidSubmit | OutOfOrder

  predicate IsRenderCommand(c: Call) {
    c.BeginRenderPass? || c.BindPipeline? || c.SetViewport? || c.SetScissor? || c.Draw? || c.EndRenderPass?
  }

  /** The frame loop: wait on the fence, reset it, acquire, reset and record the command
      buffer, submit, present. The wait never returns when no accepted work will signal
      the fence and the device is not lost. Recording may be abandoned after a refused
      begin, and a refused end leaves the buffer invalid; submitting a buffer in either
      state breaks the rule that only executable buffers are submitted. The submission
      waits on the image-available semaphore, so after a refused acquire it waits on a
      semaphore nothing will signal, which is not allowed either. An accepted submission
      will signal the fence; a refused one leaves it reset and ends the tick without
      presenting. */
  function Next(s: LoopState, c: Call): Transition {
    match s.phase
    case Idle =>
      if c != WaitForFence then OutOfOrder
      else if s.fenceWillSignal || s.deviceLost then Moves(s.(phase := FenceWaited))
      else WaitsForever
    case FenceWaited => if c == ResetFence then Moves(s.(phase := FenceReset, fenceWillSignal := false)) else OutOfOrder
    case FenceReset => if c.AcquireNextImage? then Moves(s.(phase := Acquired, imageReady := c.acquired)) else OutOfOrder
    case Acquired => if c == ResetCommandBuffer then Moves(s.(phase := BufferReset)) else OutOfOrder
    case BufferReset =>
      if c.BeginCommandBuffer? then Moves(if c.accepted then s.(phase := Recording) else s)
      else if c.QueueSubmit? then InvalidSubmit
      else OutOfOrder
    case Recording =>
      if c.EndCommandBuffer? then Moves(s.(phase := if c.accepted then Recorded else Invalid))
      else if IsRenderCommand(c) then Moves(s)
      else OutOfOrder
    case Recorded =>
      if !c.QueueSubmit? then OutOfOrder
      else if !s.imageReady then InvalidSubmit
      else Submit(s, c.result)
    case Invalid => if c.QueueSubmit? then InvalidSubmit else OutOfOrder
    case Submitted => if c.QueuePresent? then Moves(s.(phase := Idle)) else OutOfOrder
  }

  /** Submitting an executable buffer after an acquired image. The acquired image is
      used up by the submission. `VK_ERROR_DEVICE_LOST` marks the device lost. */
  function Submit(s: LoopState, result: VkResult): Transition {
    if result == VK_SUCCESS then Moves(s.(phase := Submitted, fenceWillSignal := true, imageReady := false))
    else Moves(s.(phase := Idle, deviceLost := s.deviceLost || result == VK_ERROR_DEVICE_LOST, imageReady := false))
  }

  /** Runs a sequence of calls through the loop. */
  function LoopRun(s: LoopState, calls: seq<Call>): Transition
    decreases |calls|
  {
    if |calls| == 0 then Moves(s)
    else match Next(s, calls[0])
      case Moves(s') => LoopRun(s', calls[1..])
      case other => other
  }

  lemma {:induction false} RunConcat(s: LoopState, a: seq<Call>, b: seq<Call>)
    ensures LoopRun(s, a + b) == match LoopRun(s, a) case Moves(s') => LoopRun(s', b) case other => other
    decreases |a|
  {
    if |a| == 0 {
      assert a + b == b;
    } else {
      assert (a + b)[0] == a[0];
      assert (a + b)[1..] == a[1..] + b;
      match Next(s, a[0])
      case Moves(s') => RunConcat(s', a[1..], b);
      case other =>
    }
  }

  /** The four calls before recording take an idle loop whose wait returns to a reset
      command buffer, with the fence reset and an image ready exactly when the acquire
      handed one out. */
  lemma PrologueRun(s: LoopState, imageIndex: nat, acquired: bool)
    requires s.phase == Idle && (s.fenceWillSignal || s.deviceLost)
    ensures LoopRun(s, [WaitForFence, ResetFence, AcquireNextImage(imageIndex, acquired), ResetCommandBuffer])
      == Moves(LoopState(BufferReset, false, s.deviceLost, acquired))
  {
    var prologue := [WaitForFence, ResetFence, AcquireNextImage(imageIndex, acquired), ResetCommandBuffer];
    var lost := s.deviceLost;
    calc {
      LoopRun(s, prologue);
      LoopRun(s.(phase := FenceWaited), prologue[1..]);
      LoopRun(LoopState(FenceReset, false, lost, s.imageReady), prologue[2..]);
      LoopRun(LoopState(Acquired, false, lost, acquired), prologue[3..]);
      LoopRun(LoopState(BufferReset, false, lost, acquired), prologue[4..]);
      { assert prologue[4..] == []; }
      Moves(LoopState(BufferReset, false, lost, acquired));
    }
  }

  /** Render commands keep a recording buffer recording. */
  lemma {:induction false} RenderCommandsKeepRecording(s: LoopState, cmds: seq<Call>)
    requires s.phase == Recording
    requires forall k :: 0 <= k < |cmds| ==> IsRenderCommand(cmds[k])
    ensures LoopRun(s, cmds) == Moves(s)
    decreases |cmds|
  {
    if |cmds| > 0 {
      RenderCommandsKeepRecording(s, cmds[1..]);
    }
  }

  /** The state of the command buffer once `record_command_buffer` returns. */
  function RecordedPhase(beginResult: VkResult, endResult: VkResult): Phase {
    if beginResult != VK_SUCCESS then BufferReset
    else if endResult != VK_SUCCESS then Invalid
    else Recorded
  }

  /** Recording leaves the buffer executable only after an accepted begin and an
      accepted end: untouched after a refused begin, invalid after a refused end. */
  lemma RecordingRun(s: LoopState, extent: Extent2D, imageIndex: nat, beginResult: VkResult, endResult: VkResult)
    requires s.phase == BufferReset
    ensures LoopRun(s, RecordCommandBuffer(extent, imageIndex, beginResult, endResult).calls)
      == Moves(s.(phase := RecordedPhase(beginResult, endResult)))
    ensures RecordedPhase(beginResult, endResult) == Recorded <==> beginResult == VK_SUCCESS && endResult == VK_SUCCESS
  {
    var cs := RecordCommandBuffer(extent, imageIndex, beginResult, endResult).calls;
    if beginResult == VK_SUCCESS {
      assert forall k :: 1 <= k < 7 ==> IsRenderCommand(cs[k]);
      BegunRecordingRun(s, cs);
    } else {
      assert cs[1..] == [];
    }
  }

  /** An accepted begin, render commands and an end take a reset buffer to recorded or,
      if the end is refused, to invalid. */
  lemma BegunRecordingRun(s: LoopState, cs: seq<Call>)
    requires s.phase == BufferReset
    requires |cs| == 8 && cs[0] == BeginCommandBuffer(true) && cs[7].EndCommandBuffer?
    requires forall k :: 1 <= k < 7 ==> IsRenderCommand(cs[k])
    ensures LoopRun(s, cs) == Moves(s.(phase := if cs[7].accepted then Recorded else Invalid))
  {
    var recording := s.(phase := Recording);
    var commands := cs[1..7];
    RenderCommandsKeepRecording(recording, commands);
    assert cs == [cs[0]] + commands + [cs[7]];
    RunConcat(s, [cs[0]], commands);
    RunConcat(s, [cs[0]] + commands, [cs[7]]);
    assert LoopRun(s, [cs[0]]) == Moves(recording) by {
      assert [cs[0]][1..] == [];
    }
    assert LoopRun(recording, [cs[7]]) == Moves(s.(phase := if cs[7].accepted then Recorded else Invalid)) by {
      assert [cs[7]][1..] == [];
    }
  }

  /** What one tick does to a loop that is idle: it never gets past its wait if nothing
      will signal the fence and the device is not lost; otherwise it submits, and the
      submission is valid exactly when an image was acquired and both the begin and the
      end of the recording were accepted. A valid tick ends idle, with a fence that will
      signal exactly when the submission was accepted, the device marked lost when the
      submission reported that, and no image held. */
  function TickOutcome(s: LoopState, fd: FrameDriver): Transition {
    if !s.fenceWillSignal && !s.deviceLost then WaitsForever
    else if !ImageAcquired(fd.acquireResult) || fd.beginResult != VK_SUCCESS || fd.endResult != VK_SUCCESS then InvalidSubmit
    else Moves(LoopState(Idle, fd.submitResult == VK_SUCCESS, s.deviceLost || fd.submitResult == VK_ERROR_DEVICE_LOST, false))
  }

  /** The calls that end a tick: the submission, and the presentation if the
      submission was accepted. */
  function SubmitCalls(submitResult: VkResult, imageIndex: nat): seq<Call> {
    if submitResult == VK_SUCCESS then [QueueSubmit(submitResult), QueuePresent(imageIndex)]
    else [QueueSubmit(submitResult)]
  }

  /** The calls of `draw_frame`, in its three parts. */
  lemma DrawFrameParts(rd: Renderer, fd: FrameDriver)
    ensures DrawFrame(rd, fd).calls
      == [WaitForFence, ResetFence, AcquireNextImage(fd.imageIndex, ImageAcquired(fd.acquireResult)), ResetCommandBuffer]
         + RecordCommandBuffer(rd.extent, fd.imageIndex, fd.beginResult, fd.endResult).calls
         + SubmitCalls(fd.submitResult, fd.imageIndex)
  {
  }

  /** Running three parts in a row, the first two of which move the loop on. */
  lemma RunThreeParts(s: LoopState, a: seq<Call>, b: seq<Call>, c: seq<Call>, t: LoopState, u: LoopState)
    requires LoopRun(s, a) == Moves(t) && LoopRun(t, b) == Moves(u)
    ensures LoopRun(s, a + b + c) == LoopRun(u, c)
  {
    RunConcat(s, a, b);
    RunConcat(s, a + b, c);
  }

  /** Submitting, and presenting after an accepted submission, from the state recording
      left: only an executable buffer with an acquired image completes the tick. */
  lemma SubmitRun(t: LoopState, submitResult: VkResult, imageIndex: nat)
    requires t.phase == BufferReset || t.phase == Invalid || t.phase == Recorded
    requires !t.fenceWillSignal
    ensures LoopRun(t, SubmitCalls(submitResult, imageIndex)) ==
      if t.phase != Recorded || !t.imageReady then InvalidSubmit
      else Moves(LoopState(Idle, submitResult == VK_SUCCESS, t.deviceLost || submitResult == VK_ERROR_DEVICE_LOST, false))
  {
    var cs := SubmitCalls(submitResult, imageIndex);
    if t.phase == Recorded && t.imageReady && submitResult == VK_SUCCESS {
      var submitted := LoopState(Submitted, true, t.deviceLost, false);
      assert Next(t, cs[0]) == Moves(submitted);
      assert cs[1..] == [QueuePresent(imageIndex)];
      assert LoopRun(submitted, cs[1..]) == Moves(LoopState(Idle, true, t.deviceLost, false)) by {
        assert cs[1..][1..] == [];
      }
    } else {
      assert cs[1..] == [] || t.phase != Recorded || !t.imageReady;
    }
  }

  /** Every `draw_frame` from an idle loop does exactly what `TickOutcome` says. */
  lemma DrawFrameFollowsLoop(rd: Renderer, fd: FrameDriver, s: LoopState)
    requires s.phase == Idle
    ensures LoopRun(s, DrawFrame(rd, fd).calls) == TickOutcome(s, fd)
  {
    DrawFrameParts(rd, fd);
    var prologue := [WaitForFence, ResetFence, AcquireNextImage(fd.imageIndex, ImageAcquired(fd.acquireResult)), ResetCommandBuffer];
    var recording := RecordCommandBuffer(rd.extent, fd.imageIndex, fd.beginResult, fd.endResult).calls;
    var tail := SubmitCalls(fd.submitResult, fd.imageIndex);
    if !s.fenceWillSignal && !s.deviceLost {
      assert (prologue + recording + tail)[0] == WaitForFence;
    } else {
      var reset := LoopState(BufferReset, false, s.deviceLost, ImageAcquired(fd.acquireResult));
      var after := reset.(phase := RecordedPhase(fd.beginResult, fd.endResult));
      PrologueRun(s, fd.imageIndex, ImageAcquired(fd.acquireResult));
      RecordingRun(reset, rd.extent, fd.imageIndex, fd.beginResult, fd.endResult);
      RunThreeParts(s, prologue, recording, tail, reset, after);
      SubmitRun(after, fd.submitResult, fd.imageIndex);
    }
  }

  /** A refused acquire does not stop `draw_frame`: the command buffer is recorded and
      submitted, waiting on an image-available semaphore that nothing will signal, and
      the image index it renders to and presents was never written. */
  lemma RefusedAcquireIsSubmitted(rd: Renderer, fd: FrameDriver)
    requires !ImageAcquired(fd.acquireResult)
    ensures AcquireNextImage(fd.imageIndex, false) in DrawFrame(rd, fd).calls
    ensures QueueSubmit(fd.submitResult) in DrawFrame(rd, fd).calls
    ensures DrawFrame(rd, fd).result == VK_SUCCESS <==> fd.submitResult == VK_SUCCESS
    ensures LoopRun(FirstTick, DrawFrame(rd, fd).calls) == InvalidSubmit
  {
    DrawFrameFollowsLoop(rd, fd, FirstTick);
    assert DrawFrame(rd, fd).calls[2] == AcquireNextImage(fd.imageIndex, false);
  }

  /** A refused begin or a refused end does not stop `draw_frame`: the command buffer is
      submitted anyway, although it is not executable. */
  lemma RefusedRecordingIsSubmitted(rd: Renderer, fd: FrameDriver)
    requires fd.beginResult != VK_SUCCESS || fd.endResult != VK_SUCCESS
    ensures DrawFrame(rd, fd).result == VK_SUCCESS <==> fd.submitResult == VK_SUCCESS
    ensures QueueSubmit(fd.submitResult) in DrawFrame(rd, fd).calls
    ensures LoopRun(FirstTick, DrawFrame(rd, fd).calls) == InvalidSubmit
  {
    DrawFrameFollowsLoop(rd, fd, FirstTick);
  }

  /** After a refused valid submission, for any reason but a lost device, the fence
      stays reset, so the next `draw_frame` blocks for ever in its first call instead of
      dropping one frame. */
  lemma RefusedSubmitStallsNextFrame(rd: Renderer, fd: FrameDriver, next: FrameDriver)
    requires ImageAcquired(fd.acquireResult) && fd.beginResult == VK_SUCCESS && fd.endResult == VK_SUCCESS
    requires fd.submitResult != VK_SUCCESS && fd.submitResult != VK_ERROR_DEVICE_LOST
    ensures LoopRun(FirstTick, DrawFrame(rd, fd).calls + DrawFrame(rd, next).calls) == WaitsForever
  {
    DrawFrameFollowsLoop(rd, fd, FirstTick);
    RunConcat(FirstTick, DrawFrame(rd, fd).calls, DrawFrame(rd, next).calls);
    DrawFrameFollowsLoop(rd, next, LoopState(Idle, false, false, false));
  }

  /** A submission refused because the device is lost does not stall the loop: the next
      wait returns, and the next tick runs as on any lost device. */
  lemma LostDeviceDoesNotStall(rd: Renderer, fd: FrameDriver, next: FrameDriver)
    requires ImageAcquired(fd.acquireResult) && fd.beginResult == VK_SUCCESS && fd.endResult == VK_SUCCESS
    requires fd.submitResult == VK_ERROR_DEVICE_LOST
    ensures LoopRun(FirstTick, DrawFrame(rd, fd).calls + DrawFrame(rd, next).calls)
      == TickOutcome(LoopState(Idle, false, true, false), next)
    ensures LoopRun(FirstTick, DrawFrame(rd, fd).calls + DrawFrame(rd, next).calls) != WaitsForever
  {
    DrawFrameFollowsLoop(rd, fd, FirstTick);
    RunConcat(FirstTick, DrawFrame(rd, fd).calls, DrawFrame(rd, next).calls);
    DrawFrameFollowsLoop(rd, next, LoopState(Idle, false, true, false));
  }

  /** The calls of several consecutive ticks. */
  function Frames(rd: Renderer, fds: seq<FrameDriver>): seq<Call>
    decreases |fds|
  {
    if |fds| == 0 then [] else DrawFrame(rd, fds[0]).calls + Frames(rd, fds[1..])
  }

  /** A tick whose acquire, recording and submission the driver all accept. */
  predicate FullyAccepted(fd: FrameDriver) {
    && ImageAcquired(fd.acquireResult)
    && fd.beginResult == VK_SUCCESS && fd.endResult == VK_SUCCESS && fd.submitResult == VK_SUCCESS
  }

  /** Any number of ticks whose acquires, recordings and submissions are accepted runs the loop
      from its first tick back to the same state, ready for the next one. */
  lemma {:induction false} AcceptedFramesRepeat(rd: Renderer, fds: seq<FrameDriver>)
    requires forall k :: 0 <= k < |fds| ==> FullyAccepted(fds[k])
    ensures LoopRun(FirstTick, Frames(rd, fds)) == Moves(FirstTick)
    decreases |fds|
  {
    if |fds| > 0 {
      var first := DrawFrame(rd, fds[0]).calls;
      var rest := Frames(rd, fds[1..]);
      assert Frames(rd, fds) == first + rest;
      AcceptedTickRepeats(rd, fds[0]);
      RunConcat(FirstTick, first, rest);
      assert forall k :: 0 <= k < |fds[1..]| ==> FullyAccepted(fds[1..][k]) by {
        forall k | 0 <= k < |fds[1..]| ensures FullyAccepted(fds[1..][k]) {
          assert fds[1..][k] == fds[k + 1];
        }
      }
      AcceptedFramesRepeat(rd, fds[1..]);
    }
  }

  /** One fully accepted tick from the first state comes back to it. */
  lemma AcceptedTickRepeats(rd: Renderer, fd: FrameDriver)
    requires FullyAccepted(fd)
    ensures LoopRun(FirstTick, DrawFrame(rd, fd).calls) == Moves(FirstTick)
  {
    DrawFrameFollowsLoop(rd, fd, FirstTick);
  }
}
