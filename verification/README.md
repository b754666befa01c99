# SoooA: verified model of the server runtime, the detection pipeline and the data paths

The project models three parts of SoooA and proves what they are for.

**The server runtime, as interleaved steps.** One step is one lock region, or one unlocked write, of one thread.

- `BrokerTables`, `BrokerProtocol`: the publish/subscribe rendezvous. The class `Broker` holds the static maps and lists; the
  protocol runs any number of publishing and subscribing calls over the same table functions. `BrokerProtocol.Inv` is the
  inductive invariant. A `Witness` names the thread behind each "some thread ..." claim.
- `BrokerSubscriber`, `BrokerDelivery`, `BrokerLimits`: what a subscriber gets, what a publisher and a subscriber that are alone
  on a key do, and exactly when the rendezvous fails.
- `Worker`, `RequestRuns`: Jobs, their replies and the job queue; `RequestRuns` composes sessions, the queue, job consumers and
  the broker's protocol into one machine, with every step of `pushJob` separate.
- `TaskPools`, `TaskRuns`: the free-list allocator of tasks and the consumers' passes.
- `RecordStream`, `InputRing`, `InputRuns`: the record file, its cyclic reader, and the ring pool that a producer fills outside
  the lock while consumers take.
- `JobLayout` (with `Bytes`): the byte buffer that `addJobElem` grows and the typed getters read.

**The Faster R-CNN target and proposal pipeline**, in exact reals: `BoxMath`, `NumpyOps`, `AnchorGrid`, `AnchorTarget`,
`Proposal`, `ProposalTarget`, `RegionPipeline`, `RoIInput`. Random shuffles are parameters, constrained only to be permutations; sorting and the
GPU suppression routine are parameters with a contract; tuning constants are parameters.

**Caches and layouts.** `ImagePack`, `ImagePackRuns` and `ImagePackLimits` (front and back image pages with a loader thread), `ChannelLayout`
(channel-last and channel-first order) and `ImageTransform` (crop, mirror, mean and scale). `Options`, `Sequences` and `Modular`
hold what several modules share.

Where an assertion of the source would stop the server, `BrokerProtocol` and `RequestRuns` stop only the thread concerned, and a
HaltMachine Job stops only its consumer; what is proved therefore holds of more runs than the server has. `TaskRuns` stops
altogether, and in `ImagePackRuns` an access that the source refuses with an exit is not a step.

Objects whose methods update fields are classes; each method is proved against a function of the old state, and the main results
are lemmas about runs of those functions.

## Where the code and its documentation or its intent differ

- A blocking `subscribeEx` that waited reads the content without erasing it (Broker.cpp:155-156), so a published Job stays in
  `contentMap` exactly when its key was not there yet at the subscriber's lookup (`DeliveredStaysIfLookedFirst`);
  `WaitedDeliveryRun` gives such a run.
- Two subscribers of one key are not supported: the second can take the Job before the first reads it, and the first one's
  assertion then stops the server. With any number of publishers, no subscribe on a key aborts in any run with at most n
  subscribes on it if and only if n is at most 1, or no session ID other than 0 exists (`AbortsExactlyFromTwoOn`).
- `getFreeAdhocSessID` answers 0 for "none". Some run is told that no session is free while one is if and only if 0 is one of
  the session IDs (`WronglyNoneExactlyWithZero`).
- `MAKE_JOBTASK_KEY` widens its signed arguments. It is injective exactly on task IDs that are not negative (`KeyCollision`).
- `pushJob` returns the ID of the reply Job, while replies are published under the ID of the request.
- `SASSUME0` is compiled only into debug builds (log/SysLog.h:84-90). Without it, an AllocTensor requester that is woken early gives its
  element back while the consumer still has it. Elements are conserved over a run if and only if that does not happen in it
  (`ConservedExactlyUnlessTooEarly`), and it can happen if and only if the assertion is compiled out and there is an AllocTensor
  element (`LosesExactlyUnchecked`).
- `ImagePackDataSet` sets `loading` inside the loader thread, so an access can pass its wait before a loader just created has started.
  It then reads the page before the current one (`TooEarlySwapReadsPreviousPage`). The answers of a run are right if and only if
  none is to such an access (`RightExactlyUnlessTooEarly`), and all runs are right if and only if the files are alike wherever
  they are read (`AlwaysRightExactlyIfPagesAgree`).
- A pool has one `waiterTID`, so of two callers that block before a commit only the second is signalled by it
  (`SecondMissReplacesFirst`).
- A ground truth that no anchor overlaps still has a column maximum, 0. An anchor that overlaps nothing is therefore labelled
  positive if and only if there is such a ground truth and negatives do not clobber (`UntouchedAnchorPositive`), as in
  `UntouchedAnchorCanBePositive`.
- `isValidRoidb` is commented to look for overlaps within [LO, HI), but tests overlaps that are below HI and at most LO.
  `FilterDropsUsable` and `FilterKeepsUnusable` say exactly which images the two judge differently.
- `bboxTransformInv` gives a box back with its far corner one pixel further out than it was (`TransformThenInverse`).
- `addJobElem` copies count + 1 bytes for a string of that count; the contract of `AddJobElem` asks for them, and the next element
  overwrites the last one.

## Model

| member | source | states |
|---|---|---|
| BrokerTables.Broker.constructor | SoooA/src/core/Broker.cpp:26-40 | the broker starts with empty maps and all ad-hoc sessions free, in order |
| BrokerTables.Broker.PublishEx | SoooA/src/core/Broker.cpp:56-88 | an uninterrupted publish stores the content, removes the key's waiter, and marks exactly that waiter's session found |
| BrokerTables.Broker.EnterSubscribe | SoooA/src/core/Broker.cpp:100-140 | the part of a subscribe before the wait, for session IDs from any start: takes and erases content, or reports none, or no session (also when the next ID is 0), or registers with the first free session |
| BrokerTables.Broker.GetFreeAdhocSessID | SoooA/src/core/Broker.cpp:173-185 | 0 just when the free list is empty, given that IDs start above 0; else the first free session, removed |
| BrokerTables.Broker.ReleaseAdhocSessID | SoooA/src/core/Broker.cpp:187-197 | the session is unmarked and goes to the end of the free list |
| BrokerTables.KeyCollision | SoooA/src/core/Broker.h:19 | two keys are equal if and only if the pairs are, or the task IDs are equal and negative |
| BrokerTables.KeyOfJobAlone | SoooA/src/core/Broker.h:19 | with task ID 0 and a job ID that is not negative, the key is the job ID times 2 to the 32 |
| BrokerProtocol.StepInv | SoooA/src/core/Broker.cpp:56-162 | every step of every thread keeps the protocol's invariant on sessions, waiters, marks and notifications |
| BrokerProtocol.RunInv | SoooA/src/core/Broker.cpp:26-162 | the invariant holds in every reachable state |
| BrokerProtocol.SessionsConserved | SoooA/src/core/Broker.cpp:173-197 | the free list without repeats and the sessions held by subscribers partition the range; a free one is unmarked and nobody will mark it |
| BrokerProtocol.WaiterMapInjective | SoooA/src/core/Broker.cpp:136-139 | each registered session belongs to one waiting subscriber of that key, so no two keys share one |
| BrokerProtocol.BothOnlyBetweenSections | SoooA/src/core/Broker.cpp:57-67 | a key is in both maps only while a publisher of it is between its two critical sections |
| BrokerProtocol.NoLostWakeup | SoooA/src/core/Broker.cpp:78-81 | a subscriber asleep on a session marked found has a publisher still due to notify it |
| BrokerProtocol.SessionAssertionsHold | SoooA/src/core/Broker.cpp:72-153 | the assertions on session indices, and on found after the wait, hold wherever they are reached |
| BrokerProtocol.NoSessionOnlyWhenAllHeld | SoooA/src/core/Broker.cpp:129-133 | a subscribe fails for want of a session if and only if all are held, or the next free ID is 0 |
| BrokerDelivery.StepLocal | SoooA/src/core/Broker.cpp:56-162 | whatever step any thread takes, one publisher and one subscriber of a key stay in matching phases |
| BrokerSubscriber.DeliveredWasPublished | SoooA/src/core/Broker.cpp:56-162 | whatever any subscriber gets, however many call, was published under its key |
| BrokerSubscriber.SubscriberGetsPublishedJob | SoooA/src/core/Broker.cpp:100-162 | the only subscriber of a key, with any number of publishers, never aborts; if it blocks it returns a Job published under the key (the one Job if there is one publisher), or no session |
| BrokerDelivery.PublishedMeansAwake | SoooA/src/core/Broker.cpp:68-83 | once the publish has returned its subscriber is not left asleep |
| BrokerDelivery.WaitedDeliveryStaysInMap | SoooA/src/core/Broker.cpp:155-156 | a delivered Job stays in the content map if and only if it came through the wait |
| BrokerDelivery.DeliveredStaysIfLookedFirst | SoooA/src/core/Broker.cpp:107-156 | a delivered Job stays in the content map if and only if its key was not there when the subscriber looked |
| BrokerLimits.WaitedDeliveryRun | SoooA/src/core/Broker.cpp:119-161 | for every key and content, a run that delivers through the wait and leaves the content in the map |
| BrokerLimits.SecondSubscriberCanAbortFirst | SoooA/src/core/Broker.cpp:107-156 | for every key, content and configuration with a session ID other than 0, a run in which a second subscriber makes the first one's assertion fail |
| BrokerLimits.AbortsExactlyFromTwoOn | SoooA/src/core/Broker.cpp:100-162 | runs with at most n subscribes on a key never abort one of them if and only if n <= 1 or no session ID other than 0 exists |
| BrokerLimits.WronglyNoneExactlyWithZero | SoooA/src/core/Broker.cpp:129-133 | some run reports that no session is free while one is if and only if 0 is a session ID |
| Worker.PublishingHandlersHaveReplies | SoooA/src/core/Job.cpp:23-43 | exactly the job types whose handlers publish have a reply type, and no reply type has one or is dispatched |
| Worker.ReplyIsNextUndispatched | SoooA/src/core/Job.cpp:23-43 | the reply type of a type that publishes is the first one after it in the enumeration that no handler is dispatched for, and no other |
| Worker.SharedReplies | SoooA/src/core/Job.cpp:23-43 | two types have one reply type if and only if they are CreateNetworkFromFile and CreateNetwork, or RunNetwork and RunNetworkMiniBatch |
| Worker.RolesOfTypes | SoooA/src/core/Worker.cpp:560-624 | of the undispatched types all but the test type and the end marker are the reply of some type; only HaltMachine halts, and only StartInputDataProvider is answered by nothing |
| Worker.JobServer.PushJob | SoooA/src/core/Worker.cpp:680-702 | prepares the reply under the Job's ID if its type has one, then queues the Job, and returns the reply's ID or -1 |
| Worker.JobServer.PopJob | SoooA/src/core/Worker.cpp:704-718 | takes the front of the queue, or nothing |
| Worker.JobServer.GetPubJob | SoooA/src/core/Worker.cpp:286-295 | returns and removes the reply of the Job |
| Worker.JobServer.InsertJCReadyQueue | SoooA/src/core/Worker.cpp:725-728 | a consumer that is ready goes to the end of the queue |
| Worker.JobServer.GetReadyJCs | SoooA/src/core/Worker.cpp:730-743 | takes the first count ready consumers, or all of them, in order |
| Worker.JobServer.NewJob | SoooA/src/core/Job.cpp:376-378 | each Job gets the next ID |
| RequestRuns.PushJobStepByStep | SoooA/src/core/Worker.cpp:680-702 | without interference the separate steps of a push do what pushJob as a whole does |
| RequestRuns.StepInv | SoooA/src/core/Worker.cpp:248-295 | every step of sessions, consumers and broker keeps the invariant on Jobs, replies and calls |
| RequestRuns.BrokerRuns | SoooA/src/sess/Communicator.cpp:436-468 | the broker within the composed system goes through a run of its own protocol |
| RequestRuns.KeyOfMatchesSource | SoooA/src/core/Broker.h:19 | the keys of the composed runs are the 64-bit keys of the source for job IDs that are not negative |
| RequestRuns.QueueIsFifo | SoooA/src/core/Worker.cpp:692-716 | Jobs are popped in the order they were pushed, and none is pushed twice |
| RequestRuns.PushedJobInOnePlace | SoooA/src/core/Worker.cpp:248-277 | a pushed Job is in the queue, with exactly one consumer, or done, and in only one of these |
| RequestRuns.LookupNeverMisses | SoooA/src/core/Worker.cpp:286-295 | getPubJob always finds a reply, of the type that comes next, undispatched, after the Job's own |
| RequestRuns.OneReplyWaits | SoooA/src/core/Worker.cpp:684-690 | a queued Job, or one before its lookup, has a reply of the mapped type waiting if and only if its type has one; no two share one |
| RequestRuns.PublishedExactlyOnce | SoooA/src/core/Worker.cpp:297-558 | every publish is of a pushed Job under its own key, no Job is published twice, and a finished Job with a reply type was published |
| RequestRuns.ClientGetsOwnReply | SoooA/src/sess/Communicator.cpp:436-468 | a session's blocking subscribe never aborts and delivers the reply its own pushJob prepared, of the type that comes next, undispatched, after the Job's, or no session |
| TaskPools.TaskServer.constructor | SoooA/src/core/Task.cpp:18-83 | every pool starts with all its elements free, in order |
| TaskPools.TaskServer.GetElem | SoooA/src/core/Task.cpp:120-138 | takes the first free element of the pool, or none |
| TaskPools.TaskServer.ReleaseElem | SoooA/src/core/Task.cpp:140-149 | the element goes to the end of its pool's free list |
| TaskPools.TaskServer.AddTask | SoooA/src/core/Worker.cpp:745-823 | takes a free element of the type and appends it to the queue |
| TaskPools.TaskServer.ConsumerPass | SoooA/src/core/Worker.cpp:180-236 | the pass handles queued and then left-over tasks, keeps the unfinished ones in order, and gives back the finished ones except AllocTensor |
| TaskPools.PassConserves | SoooA/src/core/Worker.cpp:200-231 | a pass neither drops nor duplicates a task |
| TaskPools.UnfinishedInOrder | SoooA/src/core/Worker.cpp:200-231 | the tasks left over are the unfinished ones at increasing positions of the pass |
| TaskPools.ReleasedInOrder | SoooA/src/core/Worker.cpp:200-231 | the elements given back are those of the finished tasks other than AllocTensor, at increasing positions of the pass |
| TaskRuns.StepInv | SoooA/src/core/Worker.cpp:175-237 | every step but a release that comes too early keeps the invariant on the places of elements |
| TaskRuns.ConservedExactlyUnlessTooEarly | SoooA/src/plan/PhysicalPlan.cpp:80-92 | over a run every pool element is in exactly one place, once, if and only if no requester gives its element back before it is done |
| TaskRuns.TooEarlyBreaks | SoooA/src/plan/PhysicalPlan.cpp:88-91 | a release that comes too early puts the element in two places |
| TaskRuns.EarlyReleaseRun | SoooA/src/plan/PhysicalPlan.cpp:80-92 | for every pool with an element, a run in which an element ends up free and in a consumer's queue |
| TaskRuns.LosesExactlyUnchecked | SoooA/src/plan/PhysicalPlan.cpp:80-92 | some run ends with an element not in exactly one place if and only if the assertion is compiled out and the pool has an element |
| TaskRuns.GetElemHandsOutUnused | SoooA/src/core/Task.cpp:120-138 | the element handed out was in its free list and nowhere else, and is then with the caller alone |
| RecordStream.AdvanceCycles | SoooA/src/dataset/SDF.cpp:63-94 | the wrap at the end of the file, which skips the header, makes the k-th read position 1 + k mod the number of data records |
| RecordStream.Sdf.Put | SoooA/src/dataset/SDF.cpp:55-60 | appends to what has been put |
| RecordStream.Sdf.Commit | SoooA/src/dataset/SDF.cpp:97-108 | the file holds all that has been put, in the order of the puts |
| RecordStream.Sdf.GetNextValue | SoooA/src/dataset/SDF.cpp:63-94 | returns the value at the position and advances cyclically past the header |
| RecordStream.DataReader.constructor | SoooA/src/dataset/DataReader.cpp:15-21 | a fresh reader has consumed the header and nothing else |
| RecordStream.DataReader.GetNextData | SoooA/src/dataset/DataReader.cpp:44-56 | returns the next datum of the cyclic stream, peeked or not |
| RecordStream.DataReader.PeekNextData | SoooA/src/dataset/DataReader.cpp:59-70 | returns the next datum and leaves it the next |
| RecordStream.DataReader.FillNextData | SoooA/src/dataset/DataReader.cpp:113-117 | fills in the next datum of the stream |
| RecordStream.WriteAll | SoooA/src/tools/Tools.cpp:500-543 | however puts are batched into commits, the file is the header and then the data in order |
| RecordStream.WriteThenRead | SoooA/src/dataset/SDF.cpp:55-108 | what a reader of a written file delivers as datum k is the data record k mod n that was put |
| InputRing.RingOkModular | SoooA/src/core/InputDataProvider.cpp:52-67 | active + remain is the size and the tail is head + active modulo the size |
| InputRing.FillIndexOutsideWindow | SoooA/src/core/InputDataProvider.cpp:266-270 | a slot being filled is outside the window of active elements |
| InputRing.InputPool.AddPool | SoooA/src/core/InputDataProvider.cpp:52-67 | the pool starts with one element, read ahead |
| InputRing.InputPool.GetData | SoooA/src/core/InputDataProvider.cpp:148-184 | returns the front of the queue that the ring stands for and removes it unless peeking; a blocking miss leaves the caller in waiterTID, a hit clears it, and any other miss keeps it |
| InputRing.InputPool.Commit | SoooA/src/core/InputDataProvider.cpp:272-281 | hands the filled slots over and clears the waiter, who is reported for signalling |
| InputRing.InputPool.FillPass | SoooA/src/core/InputDataProvider.cpp:254-281 | one round appends the next data to the queue, in order, until the ring is full |
| InputRing.Handler | SoooA/src/core/InputDataProvider.cpp:247-287 | the handler goes round any number of pools until none has a free slot; each ring then holds what it held and the next data of its own reader, in order |
| InputRuns.StepInv | SoooA/src/core/InputDataProvider.cpp:148-287 | every interleaved step keeps the slots from the head on equal to the data that come next |
| InputRuns.KthElementIsKthRecord | SoooA/src/core/InputDataProvider.cpp:148-287 | in every interleaving the k-th element handed out is data record k mod n of the file |
| InputRuns.RingBalance | SoooA/src/core/InputDataProvider.cpp:148-287 | in every reachable state the counts balance, the tail follows the window, and a waiter implies an empty pool |
| InputRuns.FillTouchesNoActiveSlot | SoooA/src/core/InputDataProvider.cpp:266-270 | a write outside the lock never hits a slot that consumers may read, whatever they took meanwhile |
| InputRuns.StepRefinesQueue | SoooA/src/core/InputDataProvider.cpp:148-287 | each step is a step of a plain queue: take, append the next n data, or nothing |
| InputRuns.PeekForetellsTake | SoooA/src/core/InputDataProvider.cpp:168-174 | a peek returns what the next take returns |
| InputRuns.CommitServesWaiter | SoooA/src/core/InputDataProvider.cpp:272-281 | a commit clears a registered waiter and leaves elements for it |
| InputRuns.CommitSignalsLastMiss | SoooA/src/core/InputDataProvider.cpp:148-281 | in every interleaving, the next commit after a blocking miss finds that caller registered, if no other caller blocked meanwhile, and leaves elements |
| InputRuns.SecondMissReplacesFirst | SoooA/src/core/InputDataProvider.cpp:148-184 | of two callers that block before a commit, that commit finds the second registered, and the first only if the two are one thread |
| JobLayout.Job.AddJobElem | SoooA/src/core/Job.cpp:132-217 | appends one element to the layout and stays inside the new buffer; a later element overwrites the NUL of a string before it |
| JobLayout.Job.GetJobElemValueSize | SoooA/src/core/Job.cpp:286-317 | the size of the layout, which leaves out a last string's NUL |
| JobLayout.Job.GetJobSize | SoooA/src/core/Job.cpp:319-327 | the size of the message body for the Job |
| JobLayout.ElementsContiguous | SoooA/src/core/Job.cpp:195-217 | element ranges follow each other without gap or overlap from 0 to the size, each holding its own bytes |
| JobLayout.LengthBeforeData | SoooA/src/core/Job.cpp:202-213 | the length of an array or string is in the four bytes before its offset |
| JobLayout.DataReadBack | SoooA/src/core/Job.cpp:208-217 | from an element's offset to its end the buffer holds the bytes added, without a string's NUL |
| JobLayout.Job.GetIntValue | SoooA/src/core/Job.cpp:226-235 | reads inside the buffer the integer that was added |
| JobLayout.Job.GetFloatArrayValue | SoooA/src/core/Job.cpp:256-263 | reads inside the buffer the array entry that was added |
| JobLayout.Job.GetStringValue | SoooA/src/core/Job.cpp:265-278 | reads the longest part of the string that was added before any NUL |
| JobLayout.ReadBackIsIdentity | SoooA/src/core/Job.cpp:265-278 | an element comes back unchanged if and only if it is not a string that holds a NUL |
| JobLayout.BuildAndRead | SoooA/src/core/Job.cpp:132-278 | after any sequence of additions every getter returns what was added at its index |
| BoxMath.IouMeaning | SoooA/src/frcnn/RoIDBUtil.h:179-201 | the overlap is in [0, 1], is 0 if and only if the boxes have no common point, and 1 if and only if they are equal |
| BoxMath.IouCountsPixels | SoooA/src/frcnn/RoIDBUtil.h:179-201 | for integer corners, the overlap times the number of pixels in either box is the number of pixels in both |
| BoxMath.IouSymmetric | SoooA/src/frcnn/RoIDBUtil.h:179-201 | the overlap does not depend on the order of the boxes |
| BoxMath.BboxOverlaps | SoooA/src/frcnn/RoIDBUtil.h:161-177 | the matrix holds the overlap of every pair |
| BoxMath.OverlapMatrixMeaning | SoooA/src/frcnn/RoIDBUtil.h:161-201 | the matrix inherits range, zero and one, and for integer corners the ratio of pixel counts, entry by entry; exchanging the sides transposes it |
| BoxMath.BboxTransform | SoooA/src/frcnn/BboxTransformUtil.h:20-48 | writes dx, dy, dw and dh of each pair into four columns and leaves the other columns alone |
| BoxMath.DeltaOfPlaced | SoooA/src/frcnn/BboxTransformUtil.h:20-48 | the targets towards a box whose centre is moved by dx widths and dy heights and whose sides are scaled are dx, dy and the logarithms of the scales |
| BoxMath.EnlargingKeepsDelta | SoooA/src/frcnn/BboxTransformUtil.h:20-48 | enlarging both boxes by the same factors, one for each axis, leaves the targets unchanged |
| BoxMath.BboxTransformInv | SoooA/src/frcnn/BboxTransformUtil.h:52-140 | one predicted box per row and class slot |
| BoxMath.SlotIsNumbered | SoooA/src/frcnn/BboxTransformUtil.h:83-140 | the delta of row i and class j is read at entry 4 * (i * classes + j) of the flat buffer |
| BoxMath.TransformThenInverse | SoooA/src/frcnn/BboxTransformUtil.h:83-140 | given exp(log x) = x for x > 0, inverting the targets gives (x1, y1, x2 + 1, y2 + 1) of the ground truth |
| BoxMath.PredictionRecoversGroundTruth | SoooA/src/frcnn/BboxTransformUtil.h:52-140 | the same for the slot of every row and class in the flat delta buffer |
| BoxMath.ClipMeaning | SoooA/src/frcnn/BboxTransformUtil.h:211-233 | clipping lands in the image, changes a box if and only if it was outside, is idempotent, and keeps corners in order |
| BoxMath.ClipIsNearest | SoooA/src/frcnn/BboxTransformUtil.h:222-230 | each clipped coordinate is the nearest one in the image |
| BoxMath.ClipBoxes | SoooA/src/frcnn/BboxTransformUtil.h:211-233 | every box of every row is clipped, and columns beyond the boxes are left alone |
| NumpyOps.NpArgmax | SoooA/src/frcnn/frcnn_common.h:543-590 | the first position of the maximum of every column, or of every row |
| NumpyOps.NpMaxByAxis | SoooA/src/frcnn/frcnn_common.h:338-358 | the maximum of every row |
| NumpyOps.NpArrayValueByIndexArray | SoooA/src/frcnn/frcnn_common.h:363-387 | the entry of each column, or row, at the given index |
| NumpyOps.NpWhereS | SoooA/src/frcnn/frcnn_common.h:595-633 | exactly the indices that compare, in increasing order |
| NumpyOps.NpWhereColumn | SoooA/src/frcnn/frcnn_common.h:638-651 | exactly the rows with the value in that column, in increasing order |
| NumpyOps.NpWhereAnyColumn | SoooA/src/frcnn/frcnn_common.h:657-678 | exactly the rows that agree with the criteria in some column, each once |
| NumpyOps.NpWhere | SoooA/src/frcnn/frcnn_common.h:683-717 | exactly the indices that meet all conditions, in increasing order |
| NumpyOps.WhereCounts | SoooA/src/frcnn/frcnn_common.h:595-633 | a selection by label is as long as the label is frequent |
| NumpyOps.NprChoice | SoooA/src/frcnn/frcnn_common.h:759-775 | the given number of elements, at distinct positions |
| NumpyOps.ChoiceIsDistinct | SoooA/src/frcnn/frcnn_common.h:759-775 | choosing from distinct elements gives distinct ones, all of them there before |
| NumpyOps.VecKeepByIndex | SoooA/src/frcnn/frcnn_common.h:976-986 | the elements at the given indices, in that order |
| NumpyOps.PickTwice | SoooA/src/frcnn/frcnn_common.h:976-986 | selections compose, and stay without repeats |
| NumpyOps.Vec2dPad | SoooA/src/frcnn/frcnn_common.h:1008-1027 | every row is shifted right behind zeros, none of its columns lost |
| NumpyOps.Nms | SoooA/src/frcnn/frcnn_common.h:1055-1130 | kept box i is the one at the i-th kept position of the order; they are distinct and in non-increasing score order, given increasing kept positions |
| AnchorGrid.EnumerateShifts | SoooA/src/frcnn/AnchorTargetLayer.cpp:115-132 | one shift for every cell, at its row-major position |
| AnchorGrid.ShiftAnchors | SoooA/src/frcnn/AnchorTargetLayer.cpp:140-158 | anchor i * A + j is base anchor j moved by shift i, and there are no others |
| AnchorGrid.ShiftKeepsShape | SoooA/src/frcnn/AnchorTargetLayer.cpp:140-158 | a shifted anchor keeps its size, and its centre moves by the stride |
| AnchorTarget.KeepInside | SoooA/src/frcnn/AnchorTargetLayer.cpp:161-177 | exactly the anchors inside the image, in order, with their numbers |
| AnchorTarget.InsideMeansPixels | SoooA/src/frcnn/AnchorTargetLayer.cpp:161-177 | for integer corners, an anchor is inside if and only if all its pixels are among those of the image widened by the border |
| AnchorTarget.LabelAnchors | SoooA/src/frcnn/AnchorTargetLayer.cpp:185-273 | in overlaps and thresholds: a label is 1 if and only if some overlap reaches the threshold or is its column's maximum (and negatives do not clobber it), 0 if and only if all are below the other threshold and it is not 1, or clobbered, else -1 |
| AnchorTarget.LabelsAreLawful | SoooA/src/frcnn/AnchorTargetLayer.cpp:185-273 | the label of every anchor meets that law, with and without clobbering |
| AnchorTarget.EveryGtHasPositive | SoooA/src/frcnn/AnchorTargetLayer.cpp:212-251 | every ground truth has a positive anchor that overlaps it best |
| AnchorTarget.MissedGtMakesAllPositive | SoooA/src/frcnn/AnchorTargetLayer.cpp:212-251 | a ground truth without any overlap makes every anchor positive |
| AnchorTarget.UntouchedPositiveExactlyIfMissed | SoooA/src/frcnn/AnchorTargetLayer.cpp:212-273 | an anchor whose overlaps are all 0 is positive if and only if some ground truth's are all 0 and negatives do not clobber |
| AnchorTarget.UntouchedAnchorPositive | SoooA/src/frcnn/AnchorTargetLayer.cpp:182-273 | the same for boxes: an anchor apart from every ground truth is positive if and only if a ground truth is apart from every anchor and negatives do not clobber |
| AnchorTarget.UntouchedAnchorCanBePositive | SoooA/src/frcnn/AnchorTargetLayer.cpp:182-273 | anchors and ground truths inside an image of which an anchor apart from both ground truths is positive |
| AnchorTarget.DisableExcess | SoooA/src/frcnn/AnchorTargetLayer.cpp:278-304 | exactly the excess over the quota is disabled, those that the shuffle puts first, and no other label changes |
| AnchorTarget.Subsample | SoooA/src/frcnn/AnchorTargetLayer.cpp:278-329 | afterwards #1 = min(fg, quota) and #0 = min(bg, batch - #1); the disabled anchors are the first of each shuffle, and no other label changes |
| AnchorTarget.Unmap | SoooA/src/frcnn/AnchorTargetLayer.cpp:474-501 | inside anchors get their values and all others the fill |
| AnchorTarget.UnmapKeepsCounts | SoooA/src/frcnn/AnchorTargetLayer.cpp:474-485 | the scatter keeps how often each label occurs |
| AnchorTarget.WeightsSumToOne | SoooA/src/frcnn/AnchorTargetLayer.cpp:360-391 | each coordinate of the outside weights sums to exactly 1 over all anchors |
| AnchorTarget.SomethingLabelled | SoooA/src/frcnn/AnchorTargetLayer.cpp:361-364 | some anchor is labelled, and positive unless negatives clobber, so the uniform weight is defined |
| AnchorTarget.Feedforward | SoooA/src/frcnn/AnchorTargetLayer.cpp:160-391 | the layer's output for every anchor: labels that meet the law of overlaps and thresholds, then sampled by the shuffles; targets towards the best ground truth, weights, and -1 and zero rows outside the image |
| Proposal.FilterBoxes | SoooA/src/frcnn/ProposalLayer.cpp:372-389 | exactly the boxes with both sides at least the minimum |
| Proposal.BigEnoughFitsSquare | SoooA/src/frcnn/ProposalLayer.cpp:372-389 | for integer corners, a box passes a minimum of n pixels if and only if a square of n by n pixels fits into it |
| Proposal.Candidates | SoooA/src/frcnn/ProposalLayer.cpp:241-283 | the big enough boxes in score order up to the limit, and nothing left out scores better than anything kept |
| Proposal.Suppress | SoooA/src/frcnn/ProposalLayer.cpp:291-300 | row i is the one at the i-th position that the suppression keeps of the sorted candidates; there are as many as it keeps, or the final limit if that is less |
| Proposal.Propose | SoooA/src/frcnn/ProposalLayer.cpp:223-313 | row i is the clipped box and own score of the anchor at the i-th position kept of the sorted candidates, as many as are kept up to the limit; a big enough anchor left out was cut by the first limit for scores at least as good, dropped by the suppression, or past the final limit |
| ProposalTarget.AppendGt | SoooA/src/frcnn/ProposalTargetLayer.cpp:67-75 | the ground truths follow the regions as candidates, behind a zero column |
| ProposalTarget.Assign | SoooA/src/frcnn/ProposalTargetLayer.cpp:182-204 | each region's best ground truth, its overlap and its class |
| ProposalTarget.Partition | SoooA/src/frcnn/ProposalTargetLayer.cpp:209-251 | with equal thresholds every region is foreground or background, and none is both |
| ProposalTarget.ForegroundExists | SoooA/src/frcnn/ProposalTargetLayer.cpp:67-75 | an appended ground truth has overlap 1 with itself, so it is foreground |
| ProposalTarget.SampleInds | SoooA/src/frcnn/ProposalTargetLayer.cpp:209-279 | min(quota, fg) foreground and then min(rest, bg) background regions, pairwise distinct, the first of each shuffle |
| ProposalTarget.NormalizedBack | SoooA/src/frcnn/ProposalTargetLayer.cpp:367-407 | scaling the normalized targets by the deviations and adding the means gives the targets back, coordinate by coordinate |
| ProposalTarget.ComputeTargets | SoooA/src/frcnn/ProposalTargetLayer.cpp:367-407 | each row holds its label and the normalized targets |
| ProposalTarget.GetBboxRegressionLabels | SoooA/src/frcnn/ProposalTargetLayer.cpp:409-456 | targets and weights are in the four columns of the row's class and zero elsewhere, and all zero for class 0 |
| ProposalTarget.OutsideWeights | SoooA/src/frcnn/ProposalTargetLayer.cpp:134-143 | 1 exactly where the inside weight is positive |
| ProposalTarget.Feedforward | SoooA/src/frcnn/ProposalTargetLayer.cpp:67-330 | every region's assigned ground truth overlaps it most, the first that does; a foreground row has that one's class, overlaps it by the threshold, and has its targets and weights exactly in columns 4c to 4c + 3; all other rows are class 0 and zero; there is foreground |
| RegionPipeline.FilterKeepsWellFormed | SoooA/src/frcnn/ProposalLayer.cpp:372-389 | boxes that pass the size filter have their corners in order if and only if the minimum is at least one pixel |
| RegionPipeline.ProposeAndSample | SoooA/src/debug/Debug.h:1287-1300 | the rows kept by the suppression feed the target layer: each sampled row is a distinct one of them or a ground truth, with the class of the ground truth it overlaps most if it is foreground, and targets and weights as that layer promises |
| RoIInput.FlipIsInvolution | SoooA/src/frcnn/IMDB.h:46-52 | flipping a box twice gives it back, and it stays in the width with its corners in order |
| RoIInput.FlipReversesOrder | SoooA/src/frcnn/IMDB.h:46-52 | a box is left of another if and only if its flipped copy is right of the other's |
| RoIInput.FlipIsMirrorImage | SoooA/src/frcnn/IMDB.h:27-59 | a flipped copy has every column counted from the other side and differs in nothing else |
| RoIInput.AppendFlippedImages | SoooA/src/frcnn/IMDB.h:27-59 | appends one copy of every image with its boxes mirrored left to right; their rows, the classes, the sizes, the image and the overlaps are kept |
| RoIInput.IsValidRoidb | SoooA/src/frcnn/RoIInputLayer.cpp:275-292 | true if and only if some overlap is foreground or passes the background test that the code makes |
| RoIInput.FilterDropsUsable | SoooA/src/frcnn/RoIInputLayer.cpp:281-288 | for every overlap list, exactly when the code drops an image that its comment would keep |
| RoIInput.FilterKeepsUnusable | SoooA/src/frcnn/RoIInputLayer.cpp:281-288 | for every overlap list, exactly when the code keeps an image that its comment would drop |
| RoIInput.FilterMismatches | SoooA/src/frcnn/RoIInputLayer.cpp:281-308 | an image for each of the two: the filter removes the one and leaves the other |
| RoIInput.FilterRoidb | SoooA/src/frcnn/RoIInputLayer.cpp:295-308 | exactly the valid images survive, in order |
| RoIInput.SurvivorsAreUsable | SoooA/src/frcnn/RoIInputLayer.cpp:295-308 | the survivors are the images at exactly the positions of usable ones, increasing |
| RoIInput.SurvivorsArePaired | SoooA/src/frcnn/RoIInputLayer.cpp:295-308 | survivors are an even number, each original with its mirror image half the list further |
| RoIInput.PairsArePermutation | SoooA/src/frcnn/RoIInputLayer.cpp:314-346 | the shuffled pairs are a permutation of all images in which at most one pair mixes orientations |
| RoIInput.RoIInputLayer.constructor | SoooA/src/frcnn/RoIInputLayer.cpp:29-42 | the layer starts with the survivors of images and flipped copies, shuffled |
| RoIInput.RoIInputLayer.ShuffleRoidbInds | SoooA/src/frcnn/RoIInputLayer.cpp:311-349 | a new permutation, read from its start: the shuffled landscape images, then the shuffled portrait ones, in pairs that are shuffled again |
| RoIInput.RoIInputLayer.GetNextMiniBatchInds | SoooA/src/frcnn/RoIInputLayer.cpp:394-413 | the next image of the permutation, after a reshuffle when it is used up |
| RoIInput.Minibatches | SoooA/src/frcnn/RoIInputLayer.cpp:394-413 | over any number of minibatches, each block of n visits every image exactly once |
| ImagePack.ImagePackDataSet.Load | SoooA/src/dataset/ImagePackDataSet.cpp:196-236 | page 0 in front and page 1 behind |
| ImagePack.ImagePackDataSet.GetTrainAt | SoooA/src/dataset/ImagePackDataSet.cpp:70-142 | refused if and only if out of range or neither the current nor the next page, else the element of the flat array |
| ImagePack.ImagePackDataSet.RunLoader | SoooA/src/dataset/ImagePackDataSet.cpp:239-291 | the loader leaves the page after the current one behind |
| ImagePackRuns.RunInv | SoooA/src/dataset/ImagePackDataSet.cpp:70-291 | front holds the current page, and back the next one or the part of it copied so far |
| ImagePackRuns.ReadsLikeFlatArray | SoooA/src/dataset/ImagePackDataSet.cpp:70-142 | with loader and reader interleaved cell by cell, access i reads entry setIndices[i % per] of file trainFileIndices[i / per], if no access swaps too early |
| ImagePackRuns.TooEarlySwapReadsPreviousPage | SoooA/src/dataset/ImagePackDataSet.cpp:92-107 | whatever the loaders do between its swap and its read, the first access that does swap too early gets the entry of the page before the current one, so it is right if and only if that page and the next agree there |
| ImagePackRuns.RightExactlyUnlessTooEarly | SoooA/src/dataset/ImagePackDataSet.cpp:70-291 | the answers of a run are all right if and only if none is to an access that swapped too early, unless such an access asks where the two pages agree |
| ImagePackRuns.TooEarlySwapCanReadWrongImage | SoooA/src/dataset/ImagePackDataSet.cpp:92-102 | a run in which image 2 is requested and image 0 is returned |
| ImagePackLimits.AlwaysRightExactlyIfPagesAgree | SoooA/src/dataset/ImagePackDataSet.cpp:70-291 | every run reads like the flat array if and only if every readable entry is the same in the next page |
| ChannelLayout.ConvertHWCToCHW | SoooA/src/dataset/IO.cpp:227-248 | the running index and the closed target formula write the channel-first image |
| ChannelLayout.ConvertCHWToHWC | SoooA/src/dataset/IO.cpp:319-337 | the same in the other direction |
| ChannelLayout.ClosedFormulas | SoooA/src/dataset/IO.cpp:236-246 | both closed formulas are the two index maps, and stay in range |
| ChannelLayout.IndexMapsInverse | SoooA/src/dataset/IO.cpp:227-337 | the two index maps are inverse bijections |
| ChannelLayout.ConversionsInverse | SoooA/src/dataset/IO.cpp:227-337 | the two conversions are mutually inverse for all sizes |
| ImageTransform.Transform | SoooA/src/dataset/DataTransformer.cpp:371-394 | the loop nest is window selection, optional column reversal, channel-first order and one affine map a channel, and writes nothing else |
| ImageTransform.TransformedCell | SoooA/src/dataset/DataTransformer.cpp:371-394 | the cell of channel c, row h and column w holds (pixel - mean) * scale for the pixel of the window there, from the mirrored column if mirroring is on |
| ImageTransform.TargetBijective | SoooA/src/dataset/DataTransformer.cpp:375-392 | every cell is written exactly once |
| ImageTransform.MirrorInvolution | SoooA/src/dataset/DataTransformer.cpp:377-380 | reversing columns twice changes nothing, and keeps channels |
| ImageTransform.TransformImage | SoooA/src/dataset/DataTransformer.cpp:339-394 | the crop window is random or centred, and always inside the image |

## Left out

- Progress of wakeups: `ThreadMgmt::wait` and timeouts. Wakeups are nondeterministic and only safety is proved.
- 32-bit wrap-around of Job IDs and of sizes; in `RequestRuns` IDs are natural numbers, and `KeyCollision` treats the 64-bit key.
- Lifetime of Job objects: sessions and consumers delete Jobs, and a session reads its Job's ID after pushing it. Jobs are identities here.
- The payload of a reply beyond its identity and type, and what handlers compute.
- A consumer that pops nothing is not put back into the ready list; readiness is not part of `RequestRuns`.
- TaskUpdateTensor payloads, which recycled elements accumulate; task elements are identities.
- Slot contents after a take that was not a peek, which the producer may overwrite at once; order is stated on values at hand-out.
- Consumers that take while the handler of several pools runs: `InputRing.Handler` runs alone, and `InputRuns` interleaves one pool.
- The four-argument `Job` constructor, and the message format of `Communicator`.
- Float rounding: boxes, weights and pixels are exact reals; floats in a Job are bit patterns.
- GPU suppression, sorting and shuffling as algorithms; they are parameters with contracts. Two suppressed boxes are not related to their overlap.
- The staging buffers of `ImagePackDataSet`, which loaders that run at once share; loaders copy cells from the file.
- Reshuffling of files while pages are loaded, files of unequal size, and the test-set paths of `ImagePackDataSet`, which load in place.
- The shift and score tensors' transpositions in the layers, and reading images, blobs and annotations.
- Unencoded-datum branches and the annotation transform of `DataTransformer`; resize and noise.
- Sockets, logging, CUDA, OpenCV, Python bindings and everything under `#if 0`.
- AnchorTarget.Feedforward: asks for an anchor inside the image and a ground truth, as the source asserts in its argmax.
- RoIInput.RoIInputLayer.constructor: asks for a surviving image, without which the source indexes an empty permutation.
- RoIInput.IsValidRoidb: asks for a non-empty overlap list, on which the source exits otherwise.
