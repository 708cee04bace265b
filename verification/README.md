# A verified model of the ISP driver, the ELF and GPT tools, the raw-image tools and the present layer

This project models the code of the repository that keeps state or rewrites data, and proves what that
code is for. `dafny verify dfyconfig.toml` checks the whole project. The functions are specifications; the
methods of `CamDriver`, `ElfTool`, `BridgeFill`, `Demosaic`, `VkPace`, `VkDevices`, `GptExtract` and
`CamFormats` have the loops, cursors, arrays and objects of the programs, and each is proved equal to its
specification. No lemma uses Dafny's automatic induction.

## The camera pipeline (`Cam*.dfy`)

User requests and requests the driver makes itself ("synthetic", one per buffer) wait on a pending list, run in a
list of at most three, get a frame number when they start to run, are sent to the SCP by an ordered
workqueue, acknowledged as composed, and retired by a done interrupt. Buffers live on per-node lists, two meta nodes
have rings with sequence numbers of their own, and several nodes start and stop one stream.

- `CamTypes`, `CamBuffers`, `CamQueues`: the state (node lists and completions; lists, counters, request memory and
  workqueue) and what each operation on it keeps. Request memory is a map that the driver's `kfree` removes from, so every access
  to a request that the driver has freed would be an error of the model.
- `CamPipeline`: the entry points as steps of one machine; `Contract`, what the environment guarantees, and `Benign`, the
  conditions the driver does not check.
- `CamCore`, `CamOwnership`, `CamSessions`, `CamRing`, `CamTime`, `CamRequests`: the inductive invariants.
- `CamTheorems`, `CamExact`, `CamLimits`: the results over all runs, the exact form of the retire loop, the meta nodes, the
  stream machine.
- `CamEffects`, `CamInterrupts`, `CamMainStream`: that each entry point does its work, and what several do together: start of
  frame and done interrupts, acknowledgement and start of frame, and the main stream's buffers and their requests one for one.
- `CamFailures`, `CamRetries`, `CamRestarts`, `CamRequeue`: the paths on which the driver loses track, each with an input and the exact
  condition.
- `CamDriver`: the driver's objects and methods. `CamFormats`: format negotiation.

What the environment guarantees (`Contract`, `CfgOk`): counters do not reach 2 to the 32; the SCP acknowledges in order and
only what was sent; the reported frame number never goes down and is at most the composed one; no message survives a session;
`destroy_workqueue` drains; `s_stream(0)` succeeds; vb2 queues a buffer only while the driver does not have it, hands over
what was queued before it calls `start_streaming`, and unbinds a buffer from its request when it is returned as done or
failed, or when it cancels the buffer's queue, which it may do whenever that has not started; a media request is queued only
when all its buffers have come back; links and the use of requests per node do not change during a run; the main stream's
link is always enabled; a node other than the main stream and META_OUT_0 and 1 is used through requests. Each locked region
or callback is one atomic step, and the clock stands still within one.

What nothing guarantees, and where the results say exactly what happens without it:

- `Unlisted`: a request is not queued again while it is on a job list. All results over runs assume it. It can fail without a
  fault of user space: a stop, vb2's cancel of a queue, or a meta node's done interrupt may take the last buffer out of a request
  that stays listed. `CompletesExactly` says for every step when that happens (`StopCompletesListed`, `CancelCompletesListed`,
  `IrqCompletesListed`, and nothing else, `OthersKeepBound`). Queueing such a request corrupts the lists (`RequeueExact`);
  `CancelThenRequeue` gets there with two events, in the default topology too.
- `Accounted`: `kzalloc` succeeds where it is called, and a retired request has no buffer of a disabled node that was never
  handed over, although `req_queue` accepts such a request. Each guard is exact for its entry point (`StepAccounted`,
  `JobDoneExact`, `DisabledNodeBreaks`).
- `NoLeftover`: the main stream does not start while requests of the driver from an earlier, failed or partial, start are
  still listed (`FailedStartLeaves`, `RetryExact`, `RetrySharesBuffer`).
- `DeadRestart`: the stream is not switched on again after one of its nodes stopped while others kept going
  (`RestartExact`, `RestartUsesDeadWorkqueue`, `RestartQueuesWork`). After it the model goes on queueing and sending on a
  workqueue that the code has destroyed, so what the scheduler results say about queued works speaks of the code up to there.

The scheduler and stream-machine results hold without the last three; the ownership results assume them as `Benign`. Failed starts,
restarts of stopped nodes and failed pipeline or hardware starts are part of all runs.

## The ELF tool (`Elf*.dfy`)

`declare-dt-relr.py` on bytes: `ElfBytes` has fields, patches and strings, `ElfHash` the symbol hash, `ElfFormat` what the tool
and a loader read, `ElfRewrite` what the tool writes, `ElfTool` the program itself. `ElfTables` has the round
trip of the version table, `ElfFrame` and `ElfTheorems` what stays unchanged and where the new segment goes, `ElfOutput`
and `ElfMeaning` what the output means to the tool and to a loader, `ElfSections` the section headers, `ElfSegment` the new
segment, `ElfOutcomes` when the tool rewrites and when it ends with which message, and `ElfLayout` that fields are read where
the structures have them. The formats follow
chapter 5 of the System V gABI and section 10.7 of the LSB Core specification 5.0.

`LayoutOk` and `StrtabOk` are what the tool relies on and does not check: the ELF header, the program headers, the dynamic section
and the section headers do not overlap, loaded segments have no more file bytes than memory, the string table is inside the
file, ends with a NUL and holds every name used. `LoaderSeesVersion` also assumes that the counts of the input's table
agree with its links (`CountsAgree`), because the tool reads by counts and a loader by links.
The program's description says that only one program header is lost and nothing is overwritten; the code also writes three
values of the dynamic section and two section headers, and the model follows the code.

## The raw-image tools (`CBits`, `MtispUnpack`, `Bayer`, `BridgeFill`, `Demosaic`)

The three unpackers of 10-bit rows against one definition, the loopback bridge's binning to YUYV, and the reflect-padded
interpolation over the reals. Two facts of the code differ from what its comments suggest: `get10` reads one byte behind the row
for the last pixel, which never matters (`ThirdByteIgnored`), and the bridge's stride is the driver's only for widths that are
multiples of 16 (`BridgeStride`). `BridgeFill` assumes a width that is a multiple of 4, which the driver's formats
guarantee.

## The present layer and the partition extractor (`Vk*.dfy`, `GptExtract`)

Pacing per swapchain under C's truncating division, with the exact limit of the interval; the device list against a map; and the
forward-only GPT reader (sections 5.3.2 and 5.3.3 of the UEFI specification), with the exact inputs on which it starts early or
ends with an exception. Pacing assumes a monotonic clock, a sleep that is not cut short, and swapchain handles that are not
null. The device list assumes that no two live devices share a dispatch table (`LoaderOk`). The extractor's reads take whole
sectors, so a negative size is never -1 and a buffered reader raises on it. A reader allocates the whole size first, so a read of
more than there is memory for raises as well; how much that is, at least a chunk of 4 MiB, is the parameter `limit`, and the
results hold for each. The model gives these and every other uncaught exception the outcome `Crash`.

## Model

| member | source | states |
|---|---|---|
| `CamTheorems.ExactlyOnce` | `camera/driver/cam/mtk_cam.c:69-169` | over every benign run, a buffer has been returned as often as it was handed over, or once less, and the latter exactly while it is on its own node's list; it is on no other list and there only once |
| `CamTheorems.RequestsHoldTheirBuffers` | `camera/driver/cam/mtk_cam.c:294-310` | at every point of every such run, while streaming, each buffer still bound to a pending or running request is on its node's list if that node is enabled, and no two requests hold the same buffer |
| `CamTheorems.StepOwn` | `camera/driver/cam/mtk_cam.c:875-941` | every entry point keeps, under its guard, the ownership invariant: accounting, requests holding their buffers, ring numbering, timestamps, and what a request's unbound buffers can be |
| `CamCore.StepCore` | `camera/driver/cam/mtk_cam.c:192-276` | every entry point keeps the scheduler and stream-machine invariant, whatever allocations and stream-on return and whichever nodes stop and start again |
| `CamTheorems.RunCore` | `camera/driver/cam/mtk_cam.c:252-276` | the scheduler and stream-machine invariant holds after every run from a state that has it |
| `CamTheorems.RunOwn` | `camera/driver/cam/mtk_cam.c:875-941` | the ownership invariant holds after every benign run from a state that has it |
| `CamTheorems.RequestLifetime` | `camera/driver/cam/mtk_cam.c:192-250` | a request made by the driver is allocated exactly while it is on one of the two lists, once; a queued work always refers to an allocated, running, unsent request, and every unsent running request has its work queued |
| `CamTheorems.RetiredWasSent` | `camera/driver/cam/mtk_cam-hw.c:48-59` | the request that a done interrupt retires has been sent and has no queued work, so freeing it leaves no work behind |
| `CamTheorems.FifoView` | `camera/driver/cam/mtk_cam.c:192-310` | retired, running and pending together are the submission history since the last cleanup, in order; the i-th submission has frame number i from its dispatch on |
| `CamLimits.FifoStep` | `camera/driver/cam/mtk_cam.c:192-310` | within a session every entry point only appends to the submission history and to its retired part, and frame numbers only grow |
| `CamTheorems.RunningShape` | `camera/driver/cam/mtk_cam.c:252-276` | in every reachable state the running frames are the interval of at most three numbers that ends at the last enqueued one, and the job counter is the list's length whenever the stream is on or the list is not empty |
| `CamTheorems.WorkConserving` | `camera/driver/cam/mtk_cam.c:252-276` | after every entry point a streaming driver has nothing pending or three jobs running |
| `CamExact.RetireLoopIsFilter` | `camera/driver/cam/mtk_cam.c:192-226` | the early-breaking retire loop removes exactly the requests numbered up to the reported frame, in order; that frame counts as finished, the older ones as dropped |
| `CamExact.RetiredExactly` | `camera/driver/cam/mtk_cam.c:199-224` | a running request stays after the retire loop if and only if its frame is newer than the reported one |
| `CamExact.RetireLoopCompletes` | `camera/driver/cam/mtk_cam.c:204-220` | the retire loop completes exactly the retired requests, one after the other, with DONE for the reported frame and ERROR for older ones |
| `CamExact.RetiredBuffersMarked` | `camera/driver/cam/mtk_cam.c:69-119` | while streaming, each buffer held by a retired request is returned with DONE or ERROR and with the frame number and time of its own request |
| `CamExact.CoalescedInterrupt` | `camera/driver/cam/mtk_cam-hw.c:411-424` | an interrupt that carries both a done event and a start of frame retires what the earlier start of frame reported, not the frame that starts now |
| `CamTheorems.TimestampsAreStartOfFrame` | `camera/driver/cam/mtk_cam-hw.c:325-347` | in every benign run each capture buffer returned DONE outside the two meta nodes since the hardware was initialised carries a frame number and a time that were recorded together at a start of frame of that session |
| `CamTheorems.FinishedAtLastSof` | `camera/driver/cam/mtk_cam-hw.c:339-347` | the request finished by the retire step is stamped with the reported frame and the time of the last start of frame |
| `CamTheorems.SlotsDistinct` | `camera/driver/cam/mtk_cam-hw.c:276-289` | in every run no two running frames share a command-queue slot |
| `CamTheorems.EnqueueReusesRetiredSlot` | `camera/driver/cam/mtk_cam-hw.c:276-289` | when frame n is enqueued, frame n - 3 and all before it have retired and are not running |
| `CamTheorems.SofProgramsNextFrame` | `camera/driver/cam/mtk_cam-hw.c:325-363` | at the start of frame d the address register is written exactly when a newer frame is composed, and then it points at the slot of frame d + 1, which is composed, still running and alone in its slot |
| `CamLimits.RingDequeueExact` | `camera/driver/cam/mtk_cam.c:121-169` | while streaming, dequeue_frame takes exactly the ring buffers numbered up to the limit off the front of the list, all of them when the FBC count is 0, and returns them in order with consecutive frame numbers |
| `CamLimits.RingDequeueTwice` | `camera/driver/cam/mtk_cam.c:121-169` | a second dequeue_frame with the same limit changes nothing |
| `CamRing.RegisterRing` | `camera/driver/cam/mtk_cam.c:1115-1123` | start_streaming of a ring node numbers its whole list consecutively on top of the counter; no list changes, and the other ring keeps its numbers and its counter |
| `CamLimits.StreamMachine` | `camera/driver/cam/mtk_cam.c:1084-1180` | in every run the stream is on if and only if all enabled nodes are started; it implies sensor and seninf on, and off means both off; the stream count is the number of started nodes; a streaming driver has its workqueue if and only if enabled_dmas is not empty |
| `CamLimits.FailedStartLeavesOff` | `camera/driver/cam/mtk_cam.c:740-787` | a start whose stream-on fails leaves stream, sensor and seninf off, the node not started and the count as before |
| `CamTheorems.NothingKeptAfterStop` | `camera/driver/cam/mtk_cam.c:1069-1082` | in every benign run, once a node has stopped each of its buffers has come back exactly as often as it was handed over |
| `CamLimits.RequestRingTaken` | `camera/driver/cam/mtk_cam.c:121-169` | for a meta node used through requests dequeue_frame returns the whole list, in order, whatever counters and limit say |
| `CamLimits.ReturnedEarly` | `camera/driver/cam/mtk_cam-hw.c:290-323` | a request's buffer on META_OUT_0 or 1 is returned ahead of its request by an interrupt if and only if that has the node's done bit, with the reported frame plus its place and the time of the interrupt |
| `CamFailures.StepAccounted` | `camera/driver/cam/mtk_cam.c:69-119` | from a state where everything is accounted for, each entry point keeps the accounting if and only if its guard holds: the allocation buf_queue makes succeeds; every allocation succeeds if start_streaming gets as far as registering, whether or not stream-on succeeds; no buffer of a retired request is missing |
| `CamFailures.AllocationExact` | `camera/driver/cam/mtk_cam.c:887-891` | buf_queue keeps the accounting if and only if the allocation it makes, if any, succeeds: a failed kzalloc returns the buffer but leaves it on the list |
| `CamFailures.StartAccounted` | `camera/driver/cam/mtk_cam.c:1115-1150` | start_streaming keeps the accounting if and only if it does not reach registering, or needs no requests, or every allocation succeeds |
| `CamFailures.JobDoneExact` | `camera/driver/cam/mtk_cam.c:69-119` | completing a request keeps the accounting if and only if every buffer it would return is on its node's list |
| `CamFailures.StreamingHolds` | `camera/driver/cam/mtk_cam.c:69-119` | while streaming that is so if and only if no buffer is missing from a disabled node, which, unless such a node is being handed buffers, means that every buffer still bound is of an enabled node |
| `CamFailures.DisabledNodeBreaks` | `camera/driver/cam/mtk_cam.c:294-310` | a request with a buffer of a disabled node is accepted; the buffer is then on no list, and completing the request breaks the accounting |
| `CamRetries.FailedStartLeaves` | `camera/driver/cam/mtk_cam.c:1121-1150` | a failed stream-on keeps the accounting, and leaves requests of the driver on the lists if and only if there were some before or a buffer was registered |
| `CamRetries.RetryExact` | `camera/driver/cam/mtk_cam.c:1115-1123` | after a good start of the main stream each request of the driver, and any second one after it, can be completed without breaking the accounting if and only if none was listed before the start |
| `CamRetries.RetrySharesBuffer` | `camera/driver/cam/mtk_cam.c:1115-1150` | failed start, the buffer handed over again, good start: two listed requests hold the buffer, and whichever is completed second breaks the accounting |
| `CamRequeue.RequeueExact` | `camera/driver/cam/mtk_cam.c:294-310` | queueing a request keeps the scheduler invariant if and only if the request is on neither job list |
| `CamRequeue.StopCompletesListed` | `camera/driver/cam/mtk_cam.c:1155-1180` | after a node stops a listed request has no buffer left and is still listed if and only if another node is still started and all its bound buffers were on this node's list |
| `CamRequeue.RingCompletesListed` | `camera/driver/cam/mtk_cam.c:121-169` | dequeue_frame leaves a request without buffers if and only if all its bound buffers are among those taken |
| `CamRequeue.CancelCompletesListed` | `camera/driver/cam/mtk_cam.c:1026-1031` | vb2's cancel of a queue, of which the driver learns nothing it acts on, leaves a listed request without buffers if and only if all its bound buffers are of that queue |
| `CamRequeue.IrqCompletesListed` | `camera/driver/cam/mtk_cam-hw.c:290-323` | an interrupt leaves a request that stays listed without buffers if and only if each bound buffer is on the list of an enabled META_OUT_0 or 1 whose done bit is set, while streaming |
| `CamRequeue.CompletesExactly` | `camera/driver/cam/mtk_cam.c:1155-1180` | in every benign step a request that stays listed has all its buffers back afterwards if and only if each one bound before is returned by the stop of its node, cancelled with its queue, or returned by an interrupt ahead of the request |
| `CamRequeue.CancelThenRequeue` | `camera/driver/cam/mtk_cam.c:294-310` | from the initial state, queueing a request and cancelling its queue leaves it complete and pending; it may then be queued again, and the scheduler invariant is lost |
| `CamRequeue.OthersKeepBound` | `camera/driver/cam/mtk_cam.c:1069-1082` | apart from stops, cancels and interrupts no event takes a buffer out of its request |
| `CamRequeue.CompletedAndListed` | `camera/driver/cam/mtk_cam.c:228-250` | in every benign run, if a listed user request has all its buffers back, each is of a node that stopped since the pipeline came up, of one whose queue was cancelled since the last cleanup, or of META_OUT_0 or 1 |
| `CamTheorems.RestartExact` | `camera/driver/cam/mtk_cam.c:1101-1148` | a start turns the stream on with a destroyed workqueue if and only if the pipeline was up, enabled_dmas had been cleared, the node is the last to start and stream-on succeeds |
| `CamRestarts.RestartUsesDeadWorkqueue` | `camera/driver/cam/mtk_cam.c:1155-1180` | stopping any node of a streaming driver and starting it again while another keeps going meets that condition |
| `CamRestarts.RestartQueuesWork` | `camera/driver/cam/mtk_cam.c:875-904` | with the main stream used without requests, a buffer queued in between is put on the destroyed workqueue at once if and only if fewer than three jobs run |
| `CamRestarts.AloneNeverRestarts` | `camera/driver/cam/mtk_cam.c:1155-1180` | with a single enabled node no node is ever stopped while the pipeline is up, so the stream never comes on with a destroyed workqueue |
| `CamBuffers.DoneWithoutDelBreaks` | `camera/driver/cam/mtk_cam.c:888-891` | returning a buffer without taking it off its list breaks the accounting |
| `CamQueues.RetireHeadSent` | `camera/driver/cam/mtk_cam.c:204-220` | retiring a reported frame never removes a request whose work is still queued |
| `CamQueues.CleanupKeeps` | `camera/driver/cam/mtk_cam.c:228-250` | after the drain, cleanup empties both lists and frees exactly the requests the driver made |
| `CamQueues.DispatchKeeps` | `camera/driver/cam/mtk_cam.c:252-276` | dispatching keeps numbering, order, memory and work queue in step, and leaves nothing pending or three running |
| `CamMainStream.MainListIsRequested` | `camera/driver/cam/mtk_cam.c:875-941` | in every benign run, while the main stream streams without requests, a buffer is on its list if and only if a listed request of the driver holds exactly that buffer, and then one request does |
| `CamMainStream.StepCovered` | `camera/driver/cam/mtk_cam.c:875-941` | every benign step keeps that each buffer of the started main stream without requests has its request, until the first stop of a session |
| `CamEffects.BufQueueListed` | `camera/driver/cam/mtk_cam.c:914-917` | buf_queue puts the buffer at the end of its node's list and changes no other list |
| `CamEffects.BufQueueSubmits` | `camera/driver/cam/mtk_cam.c:875-904` | buf_queue of the started main stream without requests, if there is memory, submits one new request, live, synthetic and holding exactly the buffer; in every other case nothing is submitted and the job queues stay as they are |
| `CamEffects.BufQueueNumbers` | `camera/driver/cam/mtk_cam.c:882-885` | a buffer of a ring gets the next number of its ring if and only if its queue has started and the DMAs are enabled; otherwise no number and no counter changes |
| `CamEffects.ReqQueueSubmits` | `camera/driver/cam/mtk_cam.c:294-310` | req_queue binds exactly the buffers to the request, appends those of started nodes to their lists in order, returns none, and submits the request with them |
| `CamEffects.WorkersSend` | `camera/driver/cam/mtk_cam-hw.c:48-59` | running k queued works sends the next k frames in order, and when all have run every enqueued frame is sent |
| `CamEffects.AckThenSof` | `camera/driver/cam/mtk_cam-hw.c:61-80` | with the pipeline on, a full acknowledgement of a frame followed by a start of an older frame programs the next one, a start of that frame or a newer one leaves the register alone, and any other message changes nothing |
| `CamEffects.StartSucceeds` | `camera/driver/cam/mtk_cam.c:1084-1153` | a start succeeds if and only if the node is enabled, the pipeline and hardware are or come up, and, for the last node, stream-on succeeds; no other node is touched |
| `CamEffects.StartReturns` | `camera/driver/cam/mtk_cam.c:1144-1153` | with memory for its requests, a start that fails returns the node's list whole and in order as QUEUED, one that succeeds returns nothing, and no other list changes |
| `CamEffects.StopReturns` | `camera/driver/cam/mtk_cam.c:1155-1180` | a stop returns the node's list whole and in order as ERROR and changes no other list |
| `CamEffects.StartsAfresh` | `camera/driver/cam/mtk_cam-hw.c:200-234` | the first successful start of a session begins the numbers anew: nothing sent, composed or reported, and a ring that is registered is numbered 1, 2, ... |
| `CamInterrupts.SofSaves` | `camera/driver/cam/mtk_cam-hw.c:339-343` | a start of frame saves, for each ring, the number in that ring's own register |
| `CamInterrupts.RingAtDone` | `camera/driver/cam/mtk_cam-hw.c:295-311` | in a done interrupt a buffer stays on a ring if and only if the node's done bit is not set, or its FBC count is not zero and the buffer is numbered above the saved number |
| `CamInterrupts.SofThenDone` | `camera/driver/cam/mtk_cam-hw.c:291-343` | over two interrupts with any benign run without start or start of frame between them: a buffer is on a ring after the second if and only if it was before it and, if the node is dequeued, the FBC count is not zero and the buffer is numbered above what the first reported for this ring |
| `CamInterrupts.RetiredAtInterrupt` | `camera/driver/cam/mtk_cam-hw.c:307-314` | while streaming, a done interrupt returns each buffer held by a request up to the reported frame, unless dequeue_frame returns it first, as DONE or ERROR with the frame of its request and the time of its start or, for META_IN_0, of the interrupt |
| `CamInterrupts.IrqWhileOff` | `camera/driver/cam/mtk_cam-hw.c:390-439` | while the stream is off an interrupt returns no buffer |
| `CamInterrupts.SofCounts` | `camera/driver/cam/mtk_cam-hw.c:339` | over every run without a start the frame counter is the number of starts of frame, in eight bits |
| `CamDriver.NodeBuffers.JobDone` | `camera/driver/cam/mtk_cam.c:69-119` | the walk over a request's buffers returns exactly those it holds, each taken off its list first, and finds each on its list |
| `CamDriver.NodeBuffers.DequeueUpTo` | `camera/driver/cam/mtk_cam.c:154-168` | the ring loop takes the longest prefix within the limit and returns it in order with consecutive stamps |
| `CamDriver.NodeBuffers.ReturnAllBuffers` | `camera/driver/cam/mtk_cam.c:1069-1082` | a node's list is returned whole, in order, with one state, and left empty |
| `CamDriver.JobQueues.TryQueue` | `camera/driver/cam/mtk_cam.c:262-275` | the dispatch loop moves pending requests in order until three run, numbering each and queueing its work |
| `CamDriver.JobQueues.TxFrameWorker` | `camera/driver/cam/mtk_cam-hw.c:48-59` | the oldest queued work sends its frame; its request is still allocated |
| `CamDriver.JobQueues.DestroyWorkqueue` | `camera/driver/cam/mtk_cam-hw.c:119-124` | destroying the workqueue sends everything that was queued |
| `CamDriver.JobQueues.ReqCleanup` | `camera/driver/cam/mtk_cam.c:228-250` | both lists are emptied and every synthetic request on them is freed, once each |
| `CamDriver.CamDev.DequeueReqFrame` | `camera/driver/cam/mtk_cam.c:192-226` | the locked loop with its break equals the recursive retire loop, and never touches a request that the driver has freed |
| `CamDriver.CamDev.BufQueue` | `camera/driver/cam/mtk_cam.c:906-941` | buf_queue is the corresponding step of the state machine and keeps the invariant |
| `CamDriver.CamDev.ReqQueue` | `camera/driver/cam/mtk_cam.c:294-310` | req_queue is the corresponding step and keeps the invariant |
| `CamDriver.CamDev.TxFrameWorker` | `camera/driver/cam/mtk_cam-hw.c:48-59` | running the oldest work is the corresponding step and keeps the invariant |
| `CamDriver.CamDev.ComposerHandler` | `camera/driver/cam/mtk_cam-hw.c:61-80` | a message from the SCP is the corresponding step: only a full acknowledgement of a frame changes the composed number |
| `CamDriver.CamDev.IrqCam` | `camera/driver/cam/mtk_cam-hw.c:390-439` | the interrupt handler, done before start of frame, is the corresponding step and keeps the ownership invariant when no buffer of a retired request is missing |
| `CamDriver.CamDev.StartStreaming` | `camera/driver/cam/mtk_cam.c:1084-1153` | start_streaming with all its failure paths is the corresponding step, keeps the invariant, and reports success exactly when the node counts as started |
| `CamDriver.CamDev.StopStreaming` | `camera/driver/cam/mtk_cam.c:1155-1180` | stop_streaming with drain and cleanup is the corresponding step and keeps the invariant |
| `CamDriver.CamDev.CioStreamOn` | `camera/driver/cam/mtk_cam.c:740-787` | stream-on with its two undo labels is the function of its callees' results, and reports success exactly when all succeed |
| `ElfHash.ElfHashOf` | `gpu/tools/declare-dt-relr.py:25-32` | the loop computes the folded hash of the name |
| `ElfHash.HashIsGabiHash` | `gpu/tools/declare-dt-relr.py:25-32` | for every name the tool's hash is the low 32 bits of the gABI hash computed in a 64-bit long without cutting |
| `ElfHash.HashBelow28` | `gpu/tools/declare-dt-relr.py:25-32` | the hash of every name is below 2 to the 28 |
| `ElfTables.NeedTableParses` | `gpu/tools/declare-dt-relr.py:64-77` | a serialised table reads back, by counts, as the entries it was made from, whatever larger count is declared |
| `ElfTables.NeedTableChains` | `gpu/tools/declare-dt-relr.py:102-114` | following vn_next and vna_next through a serialised table gives the same entries as the counts |
| `ElfTheorems.OldBytesUnchanged` | `gpu/tools/declare-dt-relr.py:126-142` | every old byte outside the spare program header, the three dynamic values and the address, offset and size of section headers is the same in the output |
| `ElfSections.OnlyMovedChange` | `gpu/tools/declare-dt-relr.py:126-142` | only the spare program header, the three dynamic values and the triples of sections named .dynstr or .gnu.version_r may differ: every other old byte is the same in the output |
| `ElfTheorems.NewSegmentPlacement` | `gpu/tools/declare-dt-relr.py:116-124` | the new segment's address is congruent to its offset modulo 0x10000, between top + 0x10000 and top + 0x1ffff, and for every page size dividing 0x10000 on no page of an existing segment |
| `ElfTheorems.AddressesResolve` | `gpu/tools/declare-dt-relr.py:44-48` | every address that was mapped resolves to the same file offset through the new program headers, and every address of the new tables to its byte |
| `ElfOutput.OutputParses` | `gpu/tools/declare-dt-relr.py:35-77` | the tool reads its own output as the same header, one more loaded segment, the dynamic section with three new values, and the extended version needs |
| `ElfMeaning.OldStringsKept` | `gpu/tools/declare-dt-relr.py:96-98` | every old offset into the string table names the same string from the new table |
| `ElfMeaning.ToolViewExtended` | `gpu/tools/declare-dt-relr.py:81-114` | with names resolved, the output's version needs are the input's with the new version appended to the first entry for libc.so.6 |
| `ElfMeaning.LoaderSeesVersion` | `gpu/tools/declare-dt-relr.py:96-131` | a loader that resolves DT_STRTAB and DT_VERNEED through the output's program headers and follows the links reads the old list with GLIBC_ABI_DT_RELR, its hash and its index appended to libc.so.6 |
| `ElfMeaning.NewIndexUnused` | `gpu/tools/declare-dt-relr.py:99-100` | the new version index is unused by all others, the hidden bit aside, if and only if the largest is below 0x7fff or index 0 is free |
| `ElfMeaning.Idempotent` | `gpu/tools/declare-dt-relr.py:86-90` | running the tool on its output ends with "already declared" |
| `ElfMeaning.DeclareOnce` | `gpu/tools/declare-dt-relr.py:35-142` | for every well laid out file the tool rewrites, a second run has nothing to do |
| `ElfSections.SectionsFollow` | `gpu/tools/declare-dt-relr.py:133-142` | in the output every section named .dynstr or .gnu.version_r has the address, offset and size of the new table |
| `ElfOutcomes.EndsWith` | `gpu/tools/declare-dt-relr.py:79-94` | once the input is read: with a wrong hash or a name without end the tool fails; otherwise it ends with "no libc.so.6", "already declared" or "no spare header" if and only if, in the resolved names, there is no entry for libc.so.6, the first one has an auxiliary named GLIBC_ABI_DT_RELR, or it has none and there is no PT_NOTE |
| `ElfOutcomes.NothingToDeclare` | `gpu/tools/declare-dt-relr.py:50-58` | once header and dynamic section are read the tool ends with "nothing to declare" if and only if there is no DT_RELR |
| `ElfOutcomes.NotMappedExactly` | `gpu/tools/declare-dt-relr.py:44-62` | it reports an unmapped address if and only if there is a DT_RELR and the string table, or with its size there too the version needs, are at an address outside the file part of every loaded segment |
| `ElfOutcomes.RewritesExactly` | `gpu/tools/declare-dt-relr.py:79-142` | a well laid out file whose section names are out of the way is rewritten if and only if all hashes are those of their names, libc.so.6 is there without the version, there is a PT_NOTE and some auxiliary, and the new numbers fit their fields |
| `ElfOutcomes.DeclaresIs` | `gpu/tools/declare-dt-relr.py:89-90` | the test for the version is true if and only if an auxiliary resolves to exactly its name |
| `ElfMeaning.HashOfIsGabi` | `gpu/tools/declare-dt-relr.py:83-84` | the number compared with a stored hash is the gABI hash of the bytes of the name, cut to 32 bits |
| `ElfSegment.NewSegmentRead` | `gpu/tools/declare-dt-relr.py:116-128` | the recycled header of the output is a read-only loaded segment that ends with the file, with memory for just these bytes, congruent modulo its alignment of 64 KiB |
| `ElfSegment.ResolvesExactly` | `gpu/tools/declare-dt-relr.py:44-48` | an address resolves to an offset if and only if that is its byte in the first loaded segment with a file byte for it |
| `ElfSegment.PaddingIsZero` | `gpu/tools/declare-dt-relr.py:126` | the bytes between the old file and the tables are zero |
| `ElfLayout.EhdrReadsBack` | `gpu/tools/declare-dt-relr.py:37-39` | a file that begins with an ELF header, its fields in the order of the gABI, is read as that header |
| `ElfLayout.ShdrReadsBack` | `gpu/tools/declare-dt-relr.py:134-142` | name and offset are read where a section header has them, and the write replaces exactly its address, offset and size |
| `ElfLayout.DynReadsBack` | `gpu/tools/declare-dt-relr.py:51-56` | a stored dynamic entry is read with its signed value, and a tag of zero ends the section |
| `ElfTool.Resolve` | `gpu/tools/declare-dt-relr.py:44-48` | the search over program headers returns the offset in the first loaded segment whose file part holds the address |
| `ElfTool.ReadDynamic` | `gpu/tools/declare-dt-relr.py:50-56` | the dictionary filled with setdefault holds, for every tag, its first entry |
| `ElfTool.WalkNeeds` | `gpu/tools/declare-dt-relr.py:64-77` | the nested walk with its break reads the Verneed list as the recursive reading does |
| `ElfTool.CheckHashes` | `gpu/tools/declare-dt-relr.py:81-84` | the self-check passes if and only if every name ends and hashes to the stored value |
| `ElfTool.Rebuild` | `gpu/tools/declare-dt-relr.py:102-114` | packing records and auxiliaries with a cursor gives the serialised table, and fails exactly when a field does not fit |
| `ElfTool.PatchSectionsInto` | `gpu/tools/declare-dt-relr.py:137-142` | the section loop in place gives the patched image or the exception |
| `ElfTool.DeclareVersion` | `gpu/tools/declare-dt-relr.py:35-146` | the whole program writes the bytes, or ends for the reason, that the specification says |
| `CBits.AndMask` | `tools/bridge.c:26-28` | masking with k low ones is the remainder by 2 to the k |
| `CBits.OrDisjoint` | `tools/bridge.c:27-28` | or-ing a value below 2 to the k with a multiple of 2 to the k adds them |
| `MtispUnpack.Get10IsPixel` | `tools/bridge.c:24-29` | get10 returns field i of the row read as a little-endian number, also where its third byte lies behind the row |
| `MtispUnpack.ThirdByteIgnored` | `tools/bridge.c:24-29` | the third byte get10 reads never changes its result |
| `MtispUnpack.FastIsPixels` | `tools/bridge.c:127-136` | the five-byte form returns the same four fields and reads only five bytes inside the row |
| `MtispUnpack.BitSumIsField` | `tools/mtisp.py:7-8` | the weighted sum of n consecutive unpacked bits is the n-bit field at that bit |
| `MtispUnpack.UnpackIsPixels` | `tools/mtisp.py:4-8` | for widths that are multiples of 4 unpack succeeds exactly when there are rows and the file is long enough, and every value is the field of its row |
| `CamFormats.BridgeStride` | `tools/bridge.c:59` | for an MTISP format ending in A whose width is a multiple of 4 the bridge's stride is the driver's bytesperline if and only if the width is a multiple of 16 |
| `CamFormats.LineBytesSmallest` | `camera/driver/cam/mtk_cam.c:360-391` | bytesperline is the smallest suitably aligned length that holds a line, the full-G expansion included |
| `CamFormats.TryFmtGood` | `camera/driver/cam/mtk_cam.c:1322-1369` | what try_fmt gives is a known format in range with the smallest line length and its size, below 2 to the 32 |
| `CamFormats.TryFmtFixes` | `camera/driver/cam/mtk_cam.c:1322-1369` | try_fmt leaves a format alone if and only if it is such a format |
| `CamFormats.TryFmtKeeps` | `camera/driver/cam/mtk_cam.c:1333-1348` | try_fmt keeps a format of the node and takes the first of the table for any other, keeps what is in range and moves the rest to the nearest bound, the width to the next multiple of 4 |
| `CamFormats.TryFmtIdempotent` | `camera/driver/cam/mtk_cam.c:1322-1369` | try_fmt twice is try_fmt once |
| `CamFormats.VideoNode.SetFmt` | `camera/driver/cam/mtk_cam.c:1371-1388` | a busy node refuses and keeps its format; otherwise the stored format is the negotiated one, and stays good |
| `CamFormats.VideoNode.constructor` | `camera/driver/cam/mtk_cam.c:417-447` | the default format of a node is a good one, at full size |
| `CamFormats.EnumFmt` | `camera/driver/cam/mtk_cam.c:1280-1308` | entry k of the listing is the k-th table entry, or the k-th with the Bayer order of the media bus code, and there is none behind the last |
| `CamFormats.NoOrderNoEntry` | `camera/driver/cam/mtk_cam.c:1294-1298` | a media bus code without a Bayer order lists nothing |
| `CamFormats.TablesAreBayer` | `camera/driver/cam/mtk_cam.c:2025-2288` | every entry of both image tables is a standard or an MTISP Bayer format, so each has an order |
| `CamFormats.PackedLine` | `camera/driver/cam/mtk_cam.c:312-391` | sixteen pixels of a packed MTISP format take 16, 20, 24 or 28 bytes per line for the last characters 8, A, C and E |
| `CamFormats.StandardLine` | `camera/driver/cam/mtk_cam.c:312-391` | four pixels of a standard 8-bit format take four bytes |
| `CamFormats.FullGLine` | `camera/driver/cam/mtk_cam.c:371-391` | sixty-four pixels of a full-G format take 96, 120, 144 or 168 bytes for the last characters 8, A, C and E |
| `CamFormats.FullGAlignment` | `camera/driver/cam/mtk_cam.c:382-391` | a full-G line of 36 pixels is rounded up to 8 bytes, in 10 bits to 4 only |
| `CamFormats.BridgeDefault` | `camera/driver/cam/mtk_cam.c:360-391` | MBRA at 1600x1200 has 2000 bytes per line and 2400000 in all |
| `CamFormats.TablesHold` | `camera/driver/cam/mtk_cam.c:2025-2288` | the main stream has exactly the four standard and the sixteen packed MTISP formats, the packed-bin node exactly the sixteen full-G ones |
| `CamFormats.OrderSpelled` | `camera/driver/cam/mtk_cam.c:1196-1278` | the Bayer order of a format is the one its characters name: the first colour, G for green before blue and g for green before red, or the whole block |
| `Bayer.LettersSpell` | `tools/bridge.c:83-89` | the colours of a block are the letters of the order's name |
| `BridgeFill.OrderByName` | `tools/bridge.c:83-89` | the name of an order selects that order |
| `BridgeFill.ConversionIsBt601` | `tools/bridge.c:150-158` | luma, U and V are within one and a half steps of the full-range BT.601 conversion |
| `BridgeFill.GreyIsNeutral` | `tools/bridge.c:150-158` | equal components give that value as luma and 128 for U and V |
| `BridgeFill.PureColours` | `tools/bridge.c:150-158` | the bytes of full red, green and blue |
| `BridgeFill.SitesUnique` | `tools/bridge.c:83-89` | red and blue each have exactly one site in a block, for all four orders |
| `BridgeFill.RedOffsetIsSite` | `tools/bridge.c:83-89` | the offsets chosen from the order's name are the red site |
| `BridgeFill.PickIsBlock` | `tools/bridge.c:137-143` | the picked values are the raw values at the red and the blue site and the mean of the two green ones |
| `BridgeFill.ClampsIdle` | `tools/bridge.c:150-155` | the conversion stays within 0 to 255, so its clamps never act |
| `BridgeFill.FillFrame` | `tools/bridge.c:121-161` | the loops leave the picture in the buffer; the stores go to its indices in order, to each exactly once |
| `BridgeFill.PictureAt` | `tools/bridge.c:156-158` | the two bytes of output pixel (y, x) are luma and, by parity of x, U or V of block (y, x) |
| `Demosaic.PaddingContinues` | `tools/mtisp.py:25` | for at least two rows and columns, reflect padding continues the mosaic |
| `Demosaic.PlaneIsMean` | `tools/mtisp.py:19-28` | known samples are kept, and each missing sample is the mean of its two or four nearest neighbours of that colour |
| `Demosaic.PlaneWithin` | `tools/mtisp.py:26-28` | each output lies between the smallest and the largest sample of its colour in the window |
| `Demosaic.GuardExact` | `tools/mtisp.py:28` | maximum(sm, 1) changes no count, for any site and colour, if and only if the image has at least two rows and two columns |
| `Demosaic.FillMask` | `tools/mtisp.py:15-18` | the strided fills mark every site with its colour |
| `Demosaic.Interpolate` | `tools/mtisp.py:10-29` | the three planes are filled with the interpolation; it fails if and only if there are no rows or no columns |
| `VkPace.WaitedBounds` | `gpu/tools/vk-present-sync-layer.c:168-169` | the computed microseconds are not negative and within 999 ns of the real time, despite truncation towards zero |
| `VkPace.Spacing` | `gpu/tools/vk-present-sync-layer.c:166-181` | a present of a tracked swapchain is recorded at least the interval less 999 ns after the one before |
| `VkPace.BoundExact` | `gpu/tools/vk-present-sync-layer.c:172-178` | that bound holds for all clock readings if and only if the interval is below a second |
| `VkPace.PaceTable` | `gpu/tools/vk-present-sync-layer.c:153-164` | swapchains never share a slot, and one that has a slot keeps it |
| `VkPace.TurnedAway` | `gpu/tools/vk-present-sync-layer.c:148-164` | a present is not recorded, and nothing changes, if and only if it names no swapchain, there is neither an interval nor tracing, or sixteen other swapchains have the slots; otherwise exactly one slot gets its swapchain and time |
| `VkPace.NotDelayed` | `gpu/tools/vk-present-sync-layer.c:166-181` | with sleeps that end on time a present is recorded when it comes or at most 999 ns after the interval, and when it comes later than that it is not delayed at all |
| `VkPace.FirstSecondExact` | `gpu/tools/vk-present-sync-layer.c:166-181` | what follows a recorded present is spaced from it if and only if that was not recorded in the first second of the clock |
| `VkPace.RunSpaced` | `gpu/tools/vk-present-sync-layer.c:137-182` | over every run, any two recorded presents of one swapchain are at least the interval less 999 ns apart, unless the earlier one was recorded in the first second of the clock |
| `VkPace.Pacer.PacePresent` | `gpu/tools/vk-present-sync-layer.c:137-182` | the function over its static array changes the table as specified, and asks nanosleep for the specified time or not at all |
| `VkDevices.RunAgrees` | `gpu/tools/vk-present-sync-layer.c:232-277` | after any sequence of creations and destructions the list answers every lookup as a map of the live devices |
| `VkDevices.Devices.DeviceFor` | `gpu/tools/vk-present-sync-layer.c:185-192` | the walk returns the first node with the key, or null when there is none |
| `VkDevices.Devices.CreateDevice` | `gpu/tools/vk-present-sync-layer.c:232-263` | a device is pushed at the head exactly when chain, next layer and memory succeed |
| `VkDevices.Devices.DestroyDevice` | `gpu/tools/vk-present-sync-layer.c:265-277` | the node of the key, and only it, is taken out of the chain; an unknown device changes nothing |
| `GptExtract.SearchIsFirst` | `gpu/tools/mali-extract-root.py:43-49` | the search returns an entry if and only if it has the wanted name and every entry before it decodes to another name |
| `GptExtract.NameReadsBack` | `gpu/tools/mali-extract-root.py:44-46` | a name of up to 36 units stored in an entry, padded with NULs, is the name read from it |
| `GptExtract.HeaderReadsBack` | `gpu/tools/mali-extract-root.py:30-34` | a header stored in the second sector, its fields in the order of the UEFI specification, is read as its table sector, entry count and entry size |
| `GptExtract.EntryReadsBack` | `gpu/tools/mali-extract-root.py:43-46` | an entry stored in the table is read as its first and last sector and its name |
| `GptExtract.ReadableExactly` | `gpu/tools/mali-extract-root.py:44-46` | an entry can be read if and only if it has 48 bytes or more, and bytes 56 to 128, as far as it has them, are whole units that are the UTF-16 form of a text |
| `GptExtract.MessagesExactly` | `gpu/tools/mali-extract-root.py:28-49` | the program says that it is not a GPT image if and only if two sectors are there and the second does not begin with the signature, and that there is no such partition if and only if all entries are read and none has the name |
| `GptExtract.WritesExactly` | `gpu/tools/mali-extract-root.py:63-73` | the output is written if and only if the entry is found, lies behind the table the right way round, and ends inside the image |
| `GptExtract.WritesPartition` | `gpu/tools/mali-extract-root.py:28-74` | for a table of whole sectors and a partition behind it, the output is exactly sectors first to last, or the message that the image ended |
| `GptExtract.StartsExactly` | `gpu/tools/mali-extract-root.py:40-41` | the copy starts at the partition if and only if the table takes whole sectors; otherwise it starts early by what is left of the table's last sector |
| `GptExtract.FindCrashes` | `gpu/tools/mali-extract-root.py:28-49` | reading the table raises if and only if it is said to start before sector 2, or is reached and larger than there is memory for, or is read and an entry that is too short or has no decodable name comes before a match |
| `GptExtract.CrashesExactly` | `gpu/tools/mali-extract-root.py:23-74` | the program ends with an exception if and only if reading the table does, or the entry found starts before the end of the table, or it is upside down and its start is reached; otherwise it writes the sectors or ends with a message |
| `GptExtract.Stream.Skip` | `gpu/tools/mali-extract-root.py:23-25` | skipping in chunks ends exactly size bytes further, or with the message, or raises for a negative size |
| `GptExtract.Copy` | `gpu/tools/mali-extract-root.py:63-73` | the copy loop writes the next bytes of the stream in one pass and ends |
| `GptExtract.ExtractFrom` | `gpu/tools/mali-extract-root.py:52-74` | the program over its stream is the specification of its output |

## Left out

- CamTheorems.ExactlyOnce: speaks about benign runs, because the code loses track of buffers in others; CamFailures.StepAccounted, CamRetries.RetryExact and CamTheorems.RestartExact give the exact conditions.
- CamMainStream.MainListIsRequested: speaks about benign runs for the same reason: a failed kzalloc leaves a buffer on the list without a request (CamFailures.AllocationExact).
- CamEffects.StartReturns: assumes the memory for the requests a start makes; CamFailures.StartAccounted says what happens without it.
- CamRequeue.CompletedAndListed: goes one way over whole runs; CamRequeue.CompletesExactly is exact for each step.
- CamTheorems.TimestampsAreStartOfFrame: says nothing about META_OUT_0 and META_OUT_1, whose buffers carry the time of their dequeue if they come back that way (CamLimits.ReturnedEarly, CamLimits.RingDequeueExact) and otherwise that of their request (CamTheorems.FinishedAtLastSof).
- CamLimits.RingDequeueExact: covers META_OUT_0 and META_OUT_1 only, the nodes the ring numbering is made for.
- ElfMeaning.LoaderSeesVersion: the loader modelled follows links and never looks at counts; version definitions and the order of loaded segments are not modelled.
- ElfOutcomes.RewritesExactly: assumes that every section's name ends where nothing is written; a name that a write changes or cuts open may be looked up differently, or not end at all.
- ElfRewrite.PlanFits: one bound on the file's size and addresses stands for the range checks of all 64-bit fields.
- GptExtract.ExtractFrom: what a failed run leaves in the output file is not stated.
- Interleavings inside a locked region, 32-bit wrap of the frame counters, and the balance of remote-processor and power references across failed starts, which the code does not keep.
- META_IN_0, PACKED_BIN_OUT, META_OUT_2 and META_OUT_3 without requests, for which mtk_isp_enqueue has no ring (its index would be -3, -1, 2 or 3), and link changes during a run.
- Allocation, reference counts and release of user requests, which belong to the media core: that one is still allocated when it is unlinked is not part of this model.
- V4L2 events, register writes other than the command-queue address, the contents of the messages to the SCP, and the ISP configuration.
- Probe, removal, clocks, DMA mapping and the ioctl tables.
- The seninf driver: register sequences and a format copy.
- `bridge.c`: gain, white balance, gamma and the sums they come from, which are floating point; the three lookup tables are parameters. Devices, polling and memory mapping.
- `mtisp.py`: averaging, percentiles and saving; floating-point rounding in the interpolation.
- Tracing, environment parsing, layer negotiation and dispatch of the present layer; the two shims of the GPU directory.
- Reading and writing of files and standard input: their contents are parameters and results.
- Shell scripts, packages, device trees, patches, interface files and service units.
