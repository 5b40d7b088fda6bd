# DEVideo device layer, modelled in Dafny

DEVideo is a small Wayland client that draws one triangle with Vulkan. This project
models its device layer (`src/devices.c`) and its validation-layer support
(`src/validation.c`). It covers:

- **GPU selection**: queue-family discovery, the device-extension check, the suitability
  test and the pick loop.
- **Logical device and swapchain**: the queue-create entries, surface-format and
  present-mode choice, the requested image count (`uint32_t` arithmetic), and the
  swapchain sharing mode.
- **Setup**: one image view and one framebuffer per swapchain image, and `setup_devices`
  as a chain of steps that stops at the first failure.
- **One frame**: `draw_frame` with `record_command_buffer`, checked against a state machine
  of the frame loop, its in-flight fence and its image-available semaphore.
- **Teardown**: `close_devices`.
- **Validation support**: the layer check, the debug callback's console line, the
  debug-messenger create-info and the fallback when its entry point is missing.

Vulkan is not called: every driver answer the core depends on is an input.
- `Selection.PhysicalDevice` holds what a GPU reports.
- `Setup.Driver` holds the create results during setup.
- `Frame.FrameDriver` holds the results during one frame.

The calls the core makes are recorded as a trace (`Trace.Call`). Objects in the trace
are named by kind, e.g. "the i-th image view", not by driver handle.

Modules, in dependency order:

| module | file | contents |
|---|---|---|
| `Vk` | vk.dfy | Vulkan constants, `uint32` addition, shared records |
| `Names` | names.dfy | the "every required name is available" scan used twice |
| `Queues` | queues.dfy | `find_queue_families`, queue-create entries, swapchain sharing |
| `Selection` | selection.dfy | `check_device_extension_support`, `is_device_suitable`, `pick_physical_device` |
| `Surface` | surface.dfy | format, present mode, image count, swapchain / view / framebuffer records |
| `Trace` | trace.dfy | objects, calls, creation and destruction order |
| `Setup` | setup.dfy | the setup steps and `setup_devices` |
| `Frame` | frame.dfy | `record_command_buffer`, `draw_frame`, the frame-loop state machine |
| `Teardown` | teardown.dfy | `close_devices` |
| `Validation` | validation.dfy | everything in `src/validation.c` |

## Behaviour of the code as written

The model follows the code, including where the code does not do what its names suggest:

- **Only the first GPU is ever examined.** In `pick_physical_device`, if device 0 is not
  suitable the loop returns failure straight away, because `physicalDevice` is still null.
  A later suitable device is never reached (`Selection.PickVersusFirstSuitable`).
- **`presentFamily` is never written.** `find_queue_families` asks every family whether
  it can present. It uses the answer only to accept a family that also has the graphics
  bit in the same iteration, and it never stores a present index. `indices` is a
  zero-initialised static. So presentation always uses queue family 0, and the device gets two queue
  families exactly when the graphics family is not 0 (`Setup.PresentQueueIsAlwaysFamilyZero`).
- **The image count wraps.** `minImageCount + 1` is computed in `uint32_t`. A surface
  reporting the largest minimum would get a request for zero images
  (`Surface.ImageCountWrapsBelowMinimum`).
- **A failed recording is submitted anyway.** `draw_frame` ignores the result of
  `record_command_buffer` and submits the command buffer regardless. After a refused
  `vkBeginCommandBuffer` nothing was recorded, and after a refused `vkEndCommandBuffer`
  the buffer is invalid. In both cases the submitted buffer is not executable, which
  Vulkan forbids (`Frame.RefusedRecordingIsSubmitted`).
- **A refused acquire is submitted anyway.** `draw_frame` does not check the result of
  `vkAcquireNextImageKHR`. When no image is handed out, `imageIndex` is never written and
  the image-available semaphore is never signalled. The frame still records into the
  framebuffer at that index and submits work that waits on that semaphore. Vulkan forbids
  a wait on a semaphore that nothing will signal (`Frame.RefusedAcquireIsSubmitted`).
- **A refused submission stalls the next frame.** `draw_frame` resets the in-flight fence
  before submitting. If the submit is refused for any reason other than a lost device,
  nothing will signal the fence again, so the next `draw_frame` waits on it forever. The
  frame is not simply dropped (`Frame.RefusedSubmitStallsNextFrame`). On a lost device
  the wait returns with an error that `draw_frame` ignores, and the loop goes on
  (`Frame.LostDeviceDoesNotStall`).
- **Message types are matched exactly.** The type argument of `debug_callback` is a set of
  flags, but it is compared with single values. A message with several types, or with
  the device-address-binding type, is printed as `UNKNOWN`.

## Model

| member | source | states |
|---|---|---|
| Vk.AddU32 | src/devices.c:295 | addition of two `uint32_t` values: the exact sum when it fits, the sum minus 2^32 when it does not |
| Names.FoundFrom | src/devices.c:118-124 | the inner search finds a name iff it occurs at or after the starting position |
| Names.CheckFrom | src/devices.c:116-126 | the outer scan succeeds iff every remaining required name is available; otherwise it stops at the first missing one |
| Names.CheckAll | src/validation.c:20-33 | the whole scan succeeds iff every required name is available; a failure names the least missing index |
| Queues.ScanFamilies | src/devices.c:89-100 | the loop stops at the first family with both graphics and presentation; with none, the graphics index is the last family with graphics or the old value |
| Queues.FindQueueFamilies | src/devices.c:75-100 | complete iff some family does both; then graphics is the least such family; the present index is left unchanged |
| Queues.SplitCapabilitiesAreIncomplete | src/devices.c:89-100 | graphics on one family and presentation on another does not make the record complete |
| Queues.QueueCreateInfos | src/devices.c:220-236 | one queue-create entry per distinct family among graphics and present, graphics first, one queue each, covering both families |
| Queues.SwapchainSharing | src/devices.c:310-325 | exclusive with no list iff the two families coincide, otherwise concurrent across exactly the two |
| Queues.SharingMatchesQueueFamilies | src/devices.c:220-236 | the swapchain is exclusive iff the device has one queue family; concurrent sharing names the same distinct families as the queue-create entries |
| Selection.CheckDeviceExtensionSupport | src/devices.c:104-129 | true iff the device lists `VK_KHR_swapchain` |
| Selection.IsDeviceSuitable | src/devices.c:172-182 | true iff some queue family does graphics and presentation, the swapchain extension is listed, and at least one format and one present mode are reported; the result does not depend on the old queue-family record |
| Selection.PickPhysicalDevice | src/devices.c:185-213 | succeeds iff there is a device and the first one is suitable, and then picks it; otherwise an initialization failure with the matching console line |
| Selection.PickLoop | src/devices.c:200-210 | with no device chosen yet, the loop at device `i` succeeds iff that device is suitable and then chooses it, and otherwise fails with "no suitable GPU" at once; any success chooses the old value or a suitable device at or after `i` |
| Selection.PickDependsOnlyOnFirstDevice | src/devices.c:200-210 | two device lists with the same first device pick identically |
| Selection.PickFailuresAreDistinguishable | src/devices.c:192-208 | "no GPU" and "no suitable GPU" return the same code but print different lines |
| Selection.PickVersusFirstSuitable | src/devices.c:200-210 | compared with choosing the first suitable device, the pick succeeds iff that device is device 0 |
| Surface.FindPreferredFormat | src/devices.c:264-270 | the scan returns the first position of 8-bit BGRA sRGB with non-linear sRGB colour space, or none when no such entry exists |
| Surface.ChooseSwapSurfaceFormat | src/devices.c:262-272 | the chosen format is listed; it is the preferred format whenever that is listed, otherwise the first format |
| Surface.ChoosePresentModeFrom | src/devices.c:277-282 | the scan yields mailbox iff mailbox is listed from that position on, otherwise FIFO |
| Surface.ChooseSwapPresentMode | src/devices.c:275-283 | mailbox iff mailbox is listed, otherwise FIFO |
| Surface.PresentModeFallsBackToFifo | src/devices.c:282 | without mailbox the choice is FIFO, even when FIFO is not listed |
| Surface.ImageCount | src/devices.c:295-298 | without wrap-around, `min + 1` capped by a non-zero maximum; with wrap-around, zero |
| Surface.ImageCountBounds | src/devices.c:295-298 | without wrap-around the request is between 1 and `min + 1`, within a declared maximum, and at least `min` when the maximum allows |
| Surface.ImageCountWrapsBelowMinimum | src/devices.c:295 | a minimum of 2^32 - 1 gives a request for zero images, below the minimum |
| Surface.SwapchainCreateInfoFor | src/devices.c:286-329 | the swapchain request has the preferred format if listed, else the first format; mailbox if listed, else FIFO; exclusive sharing with no family list iff graphics and present coincide, else concurrent across the two; the image count; and the surface's transform, one layer, colour-attachment usage, opaque alpha and clipping |
| Surface.ThreeImageFifoScenario | src/devices.c:286-329 | a surface with minimum 2, no maximum, only the preferred format and only FIFO gets three FIFO images in that format |
| Surface.ViewsFor | src/devices.c:356-376 | one view per swapchain image, index by index, all in the swapchain format |
| Surface.FramebuffersFor | src/devices.c:437-450 | one framebuffer per view, index by index, with that view as its attachment, the swapchain size and one layer |
| Trace.ConcatCreatesInOrder | src/devices.c:592-626 | two creation sequences in rank order, the second ranking no lower, join into one in rank order |
| Setup.StepResult | src/devices.c:216-583 | each creation step succeeds iff every call it makes succeeds (all per-image calls, the framebuffer array allocation, all three sync objects); its failures are initialization failures, except the pipeline step, which passes the builder's code on |
| Setup.StepCalls | src/devices.c:216-583 | the create calls each step makes: exactly one for the device, swapchain, render pass, pipeline, pool and command buffer steps; one per image up to and including the first refused one for views and framebuffers (none when the framebuffer array is not allocated), a full set per image when the step succeeds; the image-available semaphore, render-finished semaphore and fence in that order, up to and including the first refused one; no call repeated within a step |
| Setup.CallsMade | src/devices.c:359-383 | a per-image loop makes every call, or stops just after the first refused one |
| Setup.StepCallsHaveStepRank | src/devices.c:216-582 | every call a setup step makes creates an object of that step's kind |
| Setup.CallsOfCreateInOrder | src/devices.c:592-626 | steps in ascending kind order create objects in ascending kind order |
| Setup.RunSteps | src/devices.c:592-626 | the steps run in order up to the first one that does not succeed, which is run last and whose result is returned; success iff every step succeeded |
| Setup.BuildRenderer | src/devices.c:185-499 | after a full setup the state has the first device, the first family that does both, the queue-create entries of `Queues.QueueCreateInfos`, the swapchain request of `Surface.SwapchainCreateInfoFor` for that device's surface answers, and one view and one framebuffer per image; the command pool uses the graphics family |
| Setup.SetupDevices | src/devices.c:586-627 | a renderer state exists iff every step succeeded, and then it is ready in the sense above |
| Setup.SuccessfulRunPickedFirstDevice | src/devices.c:593-594 | a setup that succeeds has a first device, and that device is suitable |
| Setup.SetupCreatesInRankOrder | src/devices.c:592-626 | whether setup succeeds or stops early, objects are created kind by kind: device, swapchain, views, render pass, pipeline, framebuffers, pool, buffer, sync objects |
| Setup.SetupFailureCodes | src/devices.c:592-626 | every failure is an initialization failure, except a pipeline-builder failure, whose code is passed on after exactly six steps |
| Setup.PresentQueueIsAlwaysFamilyZero | src/devices.c:216-258 | after a successful setup, presentation uses family 0, and the device has two queue families iff the graphics family is not 0 |
| Setup.StepCreates | src/devices.c:354-582 | each step creates only objects of its own kinds, and a step that succeeds creates all the objects of those kinds |
| Setup.InCallsOf | src/devices.c:592-626 | a call belongs to the steps' calls iff one of the steps makes it |
| Setup.SuccessfulSetupCreates | src/devices.c:586-626 | the set of objects a successful setup creates is one device, swapchain, render pass, pipeline, pool, command buffer and set of sync objects, plus one view and one framebuffer per image |
| Setup.CallsOfDistinct | src/devices.c:592-626 | steps that are all different never make the same create call twice |
| Setup.SetupCreatesEachOnce | src/devices.c:586-626 | whether setup succeeds or stops early, no object is created twice; with `Setup.SuccessfulSetupCreates`, a successful setup creates each of its objects exactly once |
| Frame.RecordCommandBuffer | src/devices.c:503-554 | a refused begin records nothing else and is an initialization failure; otherwise, in order: a render pass on the acquired image's framebuffer over the whole extent, the pipeline bind, viewport and scissor over the whole extent, a draw of 3 vertices, the end of the render pass and the end of recording; a refused end is an unknown error |
| Frame.DrawFrame | src/devices.c:630-680 | the frame waits, resets, acquires (the trace noting whether an image was handed out) and resets the buffer, then records and submits whatever the acquire's and the recording's results; it presents the image iff the submit was accepted; only the submit result decides the outcome |
| Frame.DrawFrameIgnoresOtherResults | src/devices.c:636-677 | frames that differ only in acquire, begin, end or present results have the same outcome, and the same calls when their acquire, begin and end succeed or fail alike |
| Frame.RunConcat | src/devices.c:630-680 | running two call sequences through the loop is running the first, then the second from where it left off |
| Frame.PrologueRun | src/devices.c:632-643 | the four calls before recording take an idle loop whose wait returns to a reset buffer and a reset fence, with an image ready iff the acquire handed one out |
| Frame.RenderCommandsKeepRecording | src/devices.c:527-546 | any run of render-pass, bind, viewport, scissor and draw commands keeps a recording buffer recording |
| Frame.RecordingRun | src/devices.c:503-554 | recording leaves the buffer executable iff both begin and end were accepted; a refused begin leaves it unrecorded, a refused end leaves it invalid |
| Frame.SubmitRun | src/devices.c:649-677 | submitting a buffer that is not executable, or waiting on the image-available semaphore when no image was acquired, breaks the loop's rules; otherwise the tick ends idle, the fence pending iff the submit was accepted, the device lost if the submit said so |
| Frame.DrawFrameFollowsLoop | src/devices.c:630-680 | from idle, a frame never passes its wait when nothing will signal the fence and the device is not lost; otherwise its submission is invalid iff the acquire, begin or end was refused, and else the frame returns to idle with the fence pending iff the submit was accepted |
| Frame.RefusedAcquireIsSubmitted | src/devices.c:635-661 | after a refused acquire the frame still records and submits, and the submission waits on a semaphore nothing will signal |
| Frame.RefusedRecordingIsSubmitted | src/devices.c:644-661 | after a refused begin or end the frame still submits, and the submission is of a buffer that is not executable |
| Frame.RefusedSubmitStallsNextFrame | src/devices.c:632-663 | after a valid submit refused for any reason but a lost device, the next frame waits forever on the fence |
| Frame.LostDeviceDoesNotStall | src/devices.c:632-663 | after a submit refused because the device is lost, the next frame's wait returns and the frame runs on |
| Frame.AcceptedTickRepeats | src/devices.c:630-680 | a frame whose acquire, begin, end and submit are accepted brings the loop back to its first state |
| Frame.AcceptedFramesRepeat | src/devices.c:630-680 | any number of frames whose acquires, begins, ends and submits are accepted return the loop to its starting state |
| Teardown.CloseDevices | src/devices.c:683-731 | teardown waits for the device first and destroys the device last, with one call per framebuffer and per view |
| Teardown.CloseDevicesDescends | src/devices.c:683-731 | after the wait, every call destroys something, newest kind first |
| Teardown.CloseDevicesDestroys | src/devices.c:683-731 | the destroyed objects are every kind except the command buffer, with one framebuffer and one view per recorded entry |
| Teardown.CloseDevicesDestroysEachOnce | src/devices.c:683-731 | no object is destroyed twice |
| Teardown.TeardownDestroysWhatSetupCreated | src/devices.c:683-731 | after a successful setup, teardown destroys exactly what setup created, except the command buffer, which is freed with its pool |
| Teardown.TeardownOrder | src/devices.c:693-731 | an object is destroyed before any object of an earlier kind: framebuffers before the render pass and views, views before the swapchain, the device last |
| Validation.CheckValidationLayersSupport | src/validation.c:10-34 | true iff the instance reports `VK_LAYER_KHRONOS_validation` |
| Validation.ClassifySeverity | src/validation.c:44-64 | stdout iff the severity is info or verbose; each of error, warning, info and verbose gets its own coloured label; `[UNKNOWN]` iff it is not exactly one of the four severities |
| Validation.SeverityLabelsIdentifySeverity | src/validation.c:44-64 | the four severities have four different labels |
| Validation.TypeLabel | src/validation.c:66-80 | `GENERAL`, `VALIDATION` and `PERFORMANCE` for exactly those types; `UNKNOWN` iff the type is not exactly one of them |
| Validation.CombinedTypesAreUnknown | src/validation.c:66-80 | validation plus performance, and device-address binding, print as `UNKNOWN` |
| Validation.DebugCallback | src/validation.c:36-85 | the line is the severity label, `: `, the type label, a space, the message and a newline, on the severity's stream; the callback answers `VK_FALSE` |
| Validation.CallbackLineKeepsMessage | src/validation.c:82 | for a fixed severity and type, two lines are equal iff the messages are |
| Validation.PopulateDebugMessengerCreateInfo | src/validation.c:112-125 | the severity mask is exactly verbose, warning and error, and the type mask exactly general, validation and performance; no flags |
| Validation.RequestedSeveritiesStream | src/validation.c:44-64 | of the requested severities, only verbose messages reach stdout |
| Validation.CreateDebugUtilsMessenger | src/validation.c:87-100 | a missing entry point gives `VK_ERROR_EXTENSION_NOT_PRESENT`; a found one decides the result |
| Validation.SetupDebugMessenger | src/validation.c:127-134 | the messenger is created with the populated create-info |
| Validation.MessengerNeedsEntryPoint | src/validation.c:93-99 | setup can succeed only when the entry point exists, and then the driver's answer is passed through |

## Left out

- The Wayland client, instance creation and the pipeline builder (`src/client.c`,
  `src/renderer.c`, `src/pipeline.c`) are not part of this model.
  - The pipeline step's result is a driver input passed through unchanged.
  - `Create(Pipeline)` stands for the call to the pipeline builder
    (`create_graphics_pipeline`), not for `vkCreateGraphicsPipelines`. It is recorded
    even when the builder fails earlier, while reading shaders or creating shader modules.
  - `close_graphics_pipeline` appears as one destroy of the pipeline. Its layout and
    shader modules are not modelled.
- `query_swapChain_support` is folded into `Selection.PhysicalDevice`. Its capability,
  format and present-mode answers are fields of the record.
- Driver handles are not modelled. Objects are identified by kind and index, and the
  swapchain images are opaque numbers.
- Heap bookkeeping is left out: `malloc`/`free` of the format, present-mode, image, view
  and framebuffer arrays. Only the framebuffer array's allocation result is modelled,
  because it decides a result.
  - A consequence: the model does not see the copy-paste slip that nulls `formats.data`
    instead of `presentModes.data` (`src/devices.c:154`, `:726`). It has no observable
    effect on calls or results, because the query runs once.
- Console diagnostics are modelled only for `pick_physical_device` and `debug_callback`.
  The other `fputs` lines are left out: they are fixed text printed on failure paths
  whose results are modelled.
- GPU-side effects are not modelled beyond two bits: whether the in-flight fence will
  be signalled, and whether an acquired image's semaphore awaits the next submission.
  Timeouts, the render-finished semaphore and what the queue does with submitted work
  are left out. The image-available semaphore's state after a refused submission is
  not tracked either: the model treats the image as used up.
- Device loss is recognised only in the submit's result. A lost device reported by the
  wait or the present is not tracked, because `draw_frame` discards those results and
  the trace does not record them. One reported by the acquire counts only as an acquire
  that handed out no image.
- Floating-point values are left out: the queue priority, the viewport depth range and
  the clear colour.
- The value of `imageIndex` is not modelled. After an accepted acquire it is the index
  the driver writes; after a refused one it is whatever the uninitialised variable
  holds. Either way the model takes it as an input and does not check it against the
  image count, as the source indexes `swapChainFramebuffers` with it unchecked.
  A refused acquire makes the tick's submission invalid, so nothing after it is
  modelled.
- Teardown after a failed setup is not modelled: `close_devices` is modelled for the
  state a successful setup leaves. The same goes for the views and framebuffers that
  leak when a loop stops part-way.
- `DestroyDebugUtilsMessengerEXT` and `close_debug_messenger` are left out. They make a
  destroy call when the entry point is found and nothing otherwise, and return nothing.
- Surface.ChooseSwapSurfaceFormat: requires a non-empty format list. The source reads
  `formats.data[0]` unchecked, and every suitable device reports at least one format.
