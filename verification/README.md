# Batching and version lifecycle in TensorFlow Serving: a verified model

The project models two parts of the vendored TensorFlow Serving code and proves what they promise.

**The batching pipeline.** `StreamingScheduling` is the streaming batch scheduler with its one-slot closer
as a transition system, one transition for each critical section and for each turn of the closer thread;
`StreamingBatchSchedulers` carries the transitions out on mutable objects. `BatchSchedulerRetriers` is the
retry loop. `Tensors` has tensors as rows, each row a map from coordinates to values, so that padding
works at any rank; `BatchSizes` and `Padding` follow `batching_util`. `Batching` says what a batched
run delivers and proves it transparent; `InputMerging`, `OutputSplitting`, `BatchDeadlines` and
`BatchingSessions` are the loops of `BatchingSession`, on mutable callers and requests; `BatchTasks` has
the tasks and what can be seen of their destinations as they are served one by one, `MergingTheorems`
says where each row goes and which batches can be merged, and `BatchingTheorems` joins the loops to the
transparency of `Batching`. `InputSplitting` and `TaskSplitting`
cut an oversized task; `SplitJoin` is the protocol by which its pieces come together again, over every
interleaving of threads, `SplitRequests` has the barrier, status and matrix as objects that follow it, and
`SplitTransparency` says what the caller of a split task gets.

**The version lifecycle manager.** `VersionPolicy` is the availability-preserving policy and the choice among
streams. `VersionLifecycle` is the control loop as a transition system in which loads and unloads finish
at any time, also between the snapshot and the action taken from it. `LifecycleInvariants` and
`LifecycleTheorems` hold the guarantees over every run, `Convergence` says where the loop comes to rest,
`WitnessRuns` has runs that show where promises end, and `AspiredVersionsManagers` carries the steps out on
mutable objects with the run as history.

The state of each object is tied by `Valid()` to a state of its transition system, and every
method's postcondition gives the new state as a transition of it; what is proved of all runs therefore
holds of the objects.

## Assumptions

- A session's model is row-wise: each output row depends on the input rows at the same position only, and
  the shape of the output rows on the shapes of the input rows. This is what the session's header asks of
  a batched model.
- A batch's callback returns only after its batch is closed; clocks do not go backwards; a pause advances
  the clock by at least its length (by something, if the length is zero).
- For transparency, a task reaches a batch only through the scheduler of its own signature, with all inputs
  of the task's size, none listed twice (`Conforms`). The loops themselves ask for less (`Readable`): the
  source's own indexing stays within bounds, and if the batch is padded to an allowed size, the last task
  has a row to copy. A task may list an input or ask for an output twice, or ask for an output that is
  none of the signature's.
- No two tasks of one batch share a caller, and the pieces of one request in it are different ones (`Apart`).
- `tensor::Concat`, `tensor::Split`, Eigen's padding and `std::sort` are used by their contracts. What a
  tensor holds after its contents were moved away is left open.

## Where code and documentation disagree

- A timeout of zero is documented to disable batching (streaming_batch_scheduler.h:130-137). The code
  schedules no close then; `BatchingDisabledIff` says when batches stay single, by the size of the smallest
  task: never for tasks of size zero, as `PairSharesBatch` shows, and for unit tasks only if a batch has
  room for no more than one.
- `RoundToLowestAllowedBatchSize` is documented to return the smallest sufficient size. It returns the
  first one, and without splitting the order is not validated; `LeastFitIff` says when the two agree.
- A task without a timeout is meant to wait and to be run without one (batching_session.cc:719-722). The
  code gives it a deadline and compares that, an absolute time, with `INT_MAX`. `NoTimeoutIsPassedOnIff` says
  for every batch of such tasks when it is run without a timeout and when it is refused as expired;
  `UnlimitedTaskExpires` has a task for which both go wrong.
- Outputs are to be delivered in the order the task lists them. If it lists one twice, the second place
  gets a tensor whose contents were moved away; `TransparentIffDistinct` makes this exact, and
  `RepeatedOutputIsLost` is such a batch.
- The policy's description keeps an unaspired version in place if it is the only loaded one
  (availability_preserving_policy.h:34-36). The code does unload it once the stream has no aspired version:
  `OnlyLoadedVersionIsUnloaded` is such a stream and `AvailabilityCanEnd` such a run, `KeepsLastReadyIff`
  says of every stream whether the policy keeps the promise, and `UnloadKeepsReadyIff` says it of every
  unload that is performed.
- A request that re-aspires a version can wait forever after a failed load; `AtRestIffStalled` says
  exactly when, and `FailedLoadCanStall` is such a run.

## Model

| member | source | states |
|---|---|---|
| `StreamingScheduling.OccupancyHolds` | tensorflow-serving/tensorflow_serving/batching/streaming_batch_scheduler.h:352-361 | on every run of N threads at most N+1 batches are unfinished; if N+1 are, the open one is empty; at most N unfinished batches hold tasks; the counter is the number of unfinished batches |
| `StreamingScheduling.ConservationHolds` | tensorflow-serving/tensorflow_serving/batching/streaming_batch_scheduler.h:336-380 | on every run the batches in sequence-number order hold exactly the accepted tasks in acceptance order; no batch outgrows the limit; no batch is closed empty |
| `StreamingScheduling.TimerSlotHolds` | tensorflow-serving/tensorflow_serving/batching/streaming_batch_scheduler.h:365-369 | on every run with a timeout a non-empty open batch has the newest closure still waiting and aimed at exactly it; a closure that is overwritten in the slot, or held by the thread while a newer one is in the slot, aims at a batch already closed; a turn that fires any but the newest closure closes nothing; the times given to the closer never decrease |
| `StreamingScheduling.OverwrittenIsStale` | tensorflow-serving/tensorflow_serving/batching/streaming_batch_scheduler.cc:42-45 | whichever step puts another closure into the slot, the batch that the old one was to close is closed by then |
| `StreamingScheduling.CloserTimeIsMonotone` | tensorflow-serving/tensorflow_serving/batching/streaming_batch_scheduler.cc:39-40 | no transition lowers the newest close time, so the closer's monotonicity check passes |
| `StreamingScheduling.TimeoutClosesBatch` | tensorflow-serving/tensorflow_serving/batching/streaming_batch_scheduler.cc:54-88 | on every run, from any state in which the deadline of a non-empty open batch has passed: as soon as the closer thread has made at most four turns, with any scheduling and any completions in between, the batch is closed with its tasks intact |
| `StreamingScheduling.QuietTimeoutClosesBatch` | tensorflow-serving/tensorflow_serving/batching/streaming_batch_scheduler.cc:54-88 | with nothing in between, those turns themselves close it |
| `StreamingScheduling.TimeoutIsAwaited` | tensorflow-serving/tensorflow_serving/batching/streaming_batch_scheduler.cc:57-62 | the closer waits: on every run, a turn of the closer thread that changes the batches does so under a positive timeout, closes just the open batch, and comes at least one timeout after the step in which that batch got its first task |
| `StreamingScheduling.EarlyTurnSleeps` | tensorflow-serving/tensorflow_serving/batching/streaming_batch_scheduler.cc:57-62 | on every run, while the closer thread's own closure is not due, its turns change nothing but the time |
| `StreamingScheduling.InvImpliesChecks` | tensorflow-serving/tensorflow_serving/batching/streaming_batch_scheduler.h:355-356 | wherever the source checks that the rejected task's open batch is empty, and that close times are monotone, the check passes |
| `StreamingScheduling.NextKeepsInv` | tensorflow-serving/tensorflow_serving/batching/streaming_batch_scheduler.h:336-380 | every transition keeps shape, room, conservation, occupancy and timer slot together |
| `StreamingScheduling.ScheduleIsExact` | tensorflow-serving/tensorflow_serving/batching/streaming_batch_scheduler.h:336-380 | the exact acceptance rule in terms of sizes and threads, the error codes, the effect on the accepted tasks, the exact price of an acceptance in capacity (the task's size plus what an abandoned open batch had left), and what a rejection leaves behind |
| `StreamingScheduling.FittingTaskJoins` | tensorflow-serving/tensorflow_serving/batching/streaming_batch_scheduler.h:345-376 | a task that fits is added behind the tasks of the open batch, which is closed exactly if that fills it; if it is turned away nothing changes in any batch |
| `StreamingScheduling.LargeTaskStarts` | tensorflow-serving/tensorflow_serving/batching/streaming_batch_scheduler.h:345-376 | one that does not fit closes the open batch as it is and starts a batch of its own, which is left empty if it is turned away; no other batch changes |
| `StreamingScheduling.UnitTaskCapacity` | tensorflow-serving/tensorflow_serving/batching/streaming_batch_scheduler.h:382-394 | a unit task is accepted if and only if the reported capacity is positive, and lowers it by exactly one |
| `StreamingScheduling.BurstFillsCapacity` | tensorflow-serving/tensorflow_serving/batching/streaming_batch_scheduler.h:382-394 | of any sequence of unit tasks, at any times that do not go back, with no completions or timeouts between, exactly as many are accepted as the capacity reported beforehand, and they are the first ones |
| `StreamingScheduling.BatchingDisabledIff` | tensorflow-serving/tensorflow_serving/batching/streaming_batch_scheduler.h:130-137 | the documentation has a timeout of zero disable batching; the code schedules no close then, and whatever the timeout, batches of tasks of size at least k stay single if and only if two of size k do not fit into one; for tasks of size zero they never do |
| `StreamingScheduling.PairSharesBatch` | tensorflow-serving/tensorflow_serving/batching/streaming_batch_scheduler.h:363-376 | a run in which two tasks of size k share a batch, for any timeout and any k, zero included, for which two fit |
| `StreamingBatchSchedulers.SingleTaskScheduler.Schedule` | tensorflow-serving/tensorflow_serving/batching/streaming_batch_scheduler.cc:37-52 | the new closure replaces the one in the slot and its time becomes the newest; requires the monotonicity that the source checks |
| `StreamingBatchSchedulers.StreamingBatchScheduler.Create` | tensorflow-serving/tensorflow_serving/batching/streaming_batch_scheduler.h:303-319 | fails exactly for non-positive sizes or thread counts; otherwise a scheduler in the initial state |
| `StreamingBatchSchedulers.StreamingBatchScheduler.StartNewBatch` | tensorflow-serving/tensorflow_serving/batching/streaming_batch_scheduler.h:413-432 | closes the open batch, starts the next one and counts it; other batches untouched |
| `StreamingBatchSchedulers.StreamingBatchScheduler.ScheduleCloseOfCurrentOpenBatch` | tensorflow-serving/tensorflow_serving/batching/streaming_batch_scheduler.h:434-451 | creates the closer on demand and hands it a closure for the current batch number |
| `StreamingBatchSchedulers.StreamingBatchScheduler.Schedule` | tensorflow-serving/tensorflow_serving/batching/streaming_batch_scheduler.h:336-380 | the objects make exactly the specified transition and keep its invariant; a rejected task stays with the caller, an accepted one does not |
| `StreamingBatchSchedulers.StreamingBatchScheduler.SchedulingCapacity` | tensorflow-serving/tensorflow_serving/batching/streaming_batch_scheduler.h:382-394 | returns the specified capacity, which is never negative |
| `StreamingBatchSchedulers.StreamingBatchScheduler.CloserThreadTurn` | tensorflow-serving/tensorflow_serving/batching/streaming_batch_scheduler.cc:54-88 | one turn of the closer's loop on the objects is the specified turn, which sleeps, picks up a newer closure, commits, or runs its closure; what that comes to on runs is said by the rows on timeouts |
| `StreamingBatchSchedulers.StreamingBatchScheduler.BatchDone` | tensorflow-serving/tensorflow_serving/batching/streaming_batch_scheduler.h:422-429 | the end of a batch's callback is the specified completion |
| `BatchSizes.RoundToLowestAllowedBatchSize` | tensorflow-serving/tensorflow_serving/batching/batching_util.cc:207-220 | returns the specified rounded size |
| `BatchSizes.RoundedSizeIsFirstFit` | tensorflow-serving/tensorflow_serving/batching/batching_util.cc:207-220 | the rounded size is the first allowed size that is large enough, or the size itself if none is |
| `BatchSizes.LeastFitIff` | tensorflow-serving/tensorflow_serving/batching/batching_util.h:66-68 | rounding returns the documented smallest sufficient size for all batch sizes if and only if no entry drops below an earlier one without repeating one |
| `BatchSizes.UnsortedSizesMissTheLeast` | tensorflow-serving/tensorflow_serving/batching/batching_session.cc:985-994 | an unordered list that passes the validation without splitting for a maximum of 16, and a size for which the documented smallest is missed |
| `BatchSizes.ValidateAllowedBatchSizes` | tensorflow-serving/tensorflow_serving/batching/batching_session.cc:957-995 | accepts exactly: no sizes, or the last equal to the maximum and, with splitting, strictly increasing |
| `BatchSizes.ValidatedSizesAreLeast` | tensorflow-serving/tensorflow_serving/batching/batching_session.cc:958-984 | under the splitting-mode validation every batch runs at the smallest allowed size not below its own, at most the maximum |
| `BatchSizes.ComputeTensorBatchSize` | tensorflow-serving/tensorflow_serving/batching/batching_util.h:80-109 | succeeds exactly for a non-empty list of tensors of positive rank with one common zeroth dimension, and returns that |
| `Padding.CalculateMaxDimSizes` | tensorflow-serving/tensorflow_serving/batching/batching_util.cc:153-182 | for every name the attained, hence least, bounds of all its tensors' shapes, as many as the first task's tensor has dimensions; tensors may have fewer dimensions and new names, as far as the source indexes its vectors within bounds |
| `Padding.MaximumIsLeast` | tensorflow-serving/tensorflow_serving/batching/batching_util.cc:153-182 | the maxima lie within any other bound |
| `Padding.CreatePadding` | tensorflow-serving/tensorflow_serving/batching/batching_util.cc:40-62 | pads only at the end, never in the zeroth dimension, up to the larger of the own and the maximum size |
| `Padding.PadTensor` | tensorflow-serving/tensorflow_serving/batching/batching_util.cc:69-151 | computes the specified padding, including both error cases with their code and the early exit for equal element counts |
| `Padding.PaddingIsExact` | tensorflow-serving/tensorflow_serving/batching/batching_util.cc:69-99 | padding fails only where an empty tensor would have to gain elements; otherwise every dimension but the zeroth becomes the larger of its own and the maximum size, every original coordinate keeps its value, and every new one holds what the first row has at its first coordinate, for any rank from 1 to 6 |
| `Padding.PaddingEqualizes` | tensorflow-serving/tensorflow_serving/batching/batching_util.cc:153-182 | padded to the maxima, non-empty tensors of one name agree beyond the zeroth dimension, in the least shape that holds them all |
| `Padding.EqualShapesNeedNoPadding` | tensorflow-serving/tensorflow_serving/batching/batching_util.cc:82-88 | where all shapes agree already, padding is the identity |
| `Padding.AreShapesEqualExceptZeroDim` | tensorflow-serving/tensorflow_serving/batching/batching_util.cc:222-233 | true if and only if the ranks agree and all dimensions but the zeroth do |
| `Tensors.SplitOfConcat` | tensorflow/tensorflow/core/framework/tensor_util.cc:59-120 | splitting a concatenation by the row counts gives the tensors back |
| `Tensors.ConcatOfSplit` | tensorflow/tensorflow/core/framework/tensor_util.cc:122-182 | concatenating a split gives the tensor back |
| `InputMerging.GatherTask` | tensorflow-serving/tensorflow_serving/batching/batching_session.cc:488-533 | adds one task's prepared inputs in their order, a repeated name included, and behind the last task the padding rows, to the lists; fails exactly if one of them does not fit |
| `InputMerging.MergeInputTensors` | tensorflow-serving/tensorflow_serving/batching/batching_session.cc:456-559 | succeeds exactly if all inputs can be padded, or without padding have the first task's shapes, and the tasks' names are the signature's, and all can be concatenated; then every input of the signature is the tasks' prepared tensors followed by copies of the last one's first row; the error codes |
| `InputMerging.GoodBatchMerges` | tensorflow-serving/tensorflow_serving/batching/batching_session.cc:535-556 | for conforming tasks that fit together the checks for names and concatenation pass |
| `MergingTheorems.MergedRowIs` | tensorflow-serving/tensorflow_serving/batching/batching_session.cc:535-556 | the merged input has as many rows as the rounded size, and each row of each task's prepared tensor lies behind the rows of the tasks before it |
| `MergingTheorems.PaddingRowIs` | tensorflow-serving/tensorflow_serving/batching/batching_session.cc:519-531 | every row behind those is the first row of the last task's prepared tensor |
| `MergingTheorems.MergeableIff` | tensorflow-serving/tensorflow_serving/batching/batching_session.cc:497-516 | which conforming batches pass the checks on their inputs: without padding, exactly those with the first task's row shapes; with padding, exactly those with ranks up to six in which a tensor without elements, where it has rows, has a dimension that is zero throughout |
| `MergingTheorems.MergesIff` | tensorflow-serving/tensorflow_serving/batching/batching_session.cc:535-556 | a batch that passes them is merged exactly if all its inputs are the signature's and have a zeroth dimension, and each input of the signature is some task's |
| `Batching.MergeListHasShape` | tensorflow-serving/tensorflow_serving/batching/batching_session.cc:548-550 | what is concatenated for one name has one row shape, which concatenation takes for granted, and is well-formed |
| `Batching.MergedHasShape` | tensorflow-serving/tensorflow_serving/batching/batching_session.cc:541-556 | so the merged tensor is well-formed, with that row shape |
| `Batching.BatchingIsTransparent` | tensorflow-serving/tensorflow_serving/batching/batching_session.cc:456-646 | for any row-wise model, any tasks and any allowed sizes: merging, padding, one run and splitting give each task what a run on its own prepared inputs gives, in its own output order, wherever an output is mentioned first |
| `Batching.TransparentIffDistinct` | tensorflow-serving/tensorflow_serving/batching/batching_session.cc:627-640 | a segment is moved to the first place that asks for it; so everything delivered is right, whatever moved-from tensors hold, if and only if the task asks for no output twice |
| `Batching.EqualShapesAreMergeable` | tensorflow-serving/tensorflow_serving/batching/batching_session.cc:497-516 | conforming tasks with equal row shapes can be merged, whether or not inputs are padded |
| `Batching.RepeatedOutputIsLost` | tensorflow-serving/tensorflow_serving/batching/batching_session.cc:627-640 | a batch of one task with one row that asks for its only output twice: the second place has whatever a moved-from tensor holds |
| `Batching.EqualShapesAreTransparent` | tensorflow-serving/tensorflow_serving/batching/batching_session.cc:456-646 | such a batch succeeds in merging, and each task gets what a run on its own inputs gives wherever an output is mentioned first, hence everything if it asks for no output twice |
| `OutputSplitting.SplitCombined` | tensorflow-serving/tensorflow_serving/batching/batching_session.cc:593-622 | fails exactly for a tensor of rank zero or with the wrong number of rows; otherwise one segment per task |
| `OutputSplitting.SplitAll` | tensorflow-serving/tensorflow_serving/batching/batching_session.cc:583-623 | succeeds exactly if there is one combined tensor per output and each can be cut; the error codes |
| `BatchingSessions.DeliverOutputs` | tensorflow-serving/tensorflow_serving/batching/batching_session.cc:625-642 | moves to the task its segments in the order it asked for them, to its caller or to its own row of the shared matrix, until an output is none of the signature's; where an output is asked for again there is a moved-from tensor |
| `BatchingSessions.SplitOutputTensors` | tensorflow-serving/tensorflow_serving/batching/batching_session.cc:561-646 | succeeds exactly if all outputs can be cut and all tasks ask for outputs of the signature only; if they cannot be cut, nobody gets anything; if a task asks for a foreign output, everything before it has been delivered and nothing after it; the error codes |
| `BatchingSessions.FinishTask` | tensorflow-serving/tensorflow_serving/batching/batching_session.cc:701-712 | a whole task's caller gets the status and one notification; a piece reports and then calls back, which may finish its request |
| `BatchingSessions.RunMerged` | tensorflow-serving/tensorflow_serving/batching/batching_session.cc:738-776 | the status is the first failure among expiry, merging and running; otherwise the session's answer to the merged inputs |
| `BatchingSessions.ProcessBatch` | tensorflow-serving/tensorflow_serving/batching/batching_session.cc:683-784 | on every way out each task, whole or piece, is told the batch's status exactly once, after the rows have been given, which happens only if the session's run succeeds; what the session is asked; several pieces of one request may share the batch |
| `BatchingSessions.TaskIsServed` | tensorflow-serving/tensorflow_serving/batching/batching_session.cc:683-712 | what this comes to: each caller has the row appended to its outputs, has the status and one more notification; each piece has its row in the matrix, has reported the status and has called back, whichever other tasks or pieces are in the batch |
| `BatchingSessions.FailedRunGivesNothing` | tensorflow-serving/tensorflow_serving/batching/batching_session.cc:738-776 | a batch that has expired or cannot be merged, or whose run fails, gives nobody any outputs; the codes, and that the run's own error is passed on |
| `BatchDeadlines.FindDeadline` | tensorflow-serving/tensorflow_serving/batching/batching_session.cc:714-742 | whether every task's own deadline, a sum that wraps around, has passed, and the latest one that has not |
| `BatchDeadlines.LatestDeadlineIs` | tensorflow-serving/tensorflow_serving/batching/batching_session.cc:729-734 | the latest deadline is attained and bounds all that have not passed; it is zero if and only if all have |
| `BatchDeadlines.TimeoutsInNumbers` | tensorflow-serving/tensorflow_serving/batching/batching_session.cc:714-750 | for every batch, in microseconds: a task is due 1000 times its timeout after it was enqueued, or 2147483647 after if it has none, modulo 2 to the 64; the batch expires exactly if all its tasks are due, and is otherwise run with a thousandth of what is left until the last of them is, or without a timeout if that is at 2147483647 |
| `BatchDeadlines.NoTimeoutIsPassedOnIff` | tensorflow-serving/tensorflow_serving/batching/batching_session.cc:714-750 | a batch of tasks without timeouts is to wait and to run without limit; it is run, and without a timeout, if and only if its newest task has waited less than INT_MAX microseconds and was enqueued at time zero or has less than a millisecond left; it expires if and only if that task has waited so long |
| `BatchDeadlines.UnlimitedTaskExpires` | tensorflow-serving/tensorflow_serving/batching/batching_session.cc:714-750 | a task without a timeout that is run with one if it is taken at once, and refused as expired if it waits INT_MAX microseconds |
| `TaskSplitting.SplitInputs` | tensorflow-serving/tensorflow_serving/batching/batching_session.cc:905-933 | the pieces get the segments of every input; fails exactly if one input cannot be cut |
| `TaskSplitting.SplitInputTask` | tensorflow-serving/tensorflow_serving/batching/batching_session.cc:790-934 | pieces of the computed sizes with the segments of the inputs, sharing one fresh request in which all are waited for and the barrier is gone, so that nothing has been released |
| `BatchingTheorems.BatchSucceeds` | tensorflow-serving/tensorflow_serving/batching/batching_session.cc:683-784 | a conforming batch that has not expired and whose inputs fit together ends with OK |
| `BatchingTheorems.BatchIsTransparent` | tensorflow-serving/tensorflow_serving/batching/batching_session.cc:683-784 | each task in it receives what a run on its own prepared inputs gives, wherever an output is mentioned first |
| `BatchingTheorems.EqualShapesAreServed` | tensorflow-serving/tensorflow_serving/batching/batching_session.cc:683-784 | for conforming tasks with equal row shapes the batch ends with OK, and each task receives what a run on its own inputs gives wherever an output is mentioned first, hence everything if it asks for no output twice |
| `BatchingTheorems.ConformingIsReadable` | tensorflow-serving/tensorflow_serving/batching/batching_session.cc:456-533 | conforming tasks meet what the loops of merging take for granted, if padding finds equal ranks |
| `BatchingTheorems.EqualShapesAreReadable` | tensorflow-serving/tensorflow_serving/batching/batching_session.cc:456-533 | conforming tasks with equal row shapes meet it, so that the batch can be processed |
| `BatchingTheorems.PieceIsServed` | tensorflow-serving/tensorflow_serving/batching/batching_session.cc:634-637 | what a batch pushes into a piece's row is what the join of the split request needs, in general and for batches that pad nothing |
| `InputSplitting.ComputePieceSizes` | tensorflow-serving/tensorflow_serving/batching/batching_session.cc:858-868 | the loop computes the specified sizes |
| `InputSplitting.PieceSizesAreRight` | tensorflow-serving/tensorflow_serving/batching/batching_session.cc:858-870 | the sizes are positive, at most the maximum, and add up to the task's; the first fills the open slot if that is positive, all others but the last fill a batch; they number one for a positive slot plus the rounded-up quotient of the rest |
| `InputSplitting.PiecesStackToWhole` | tensorflow-serving/tensorflow_serving/batching/batching_session.cc:905-932 | stacking the pieces' inputs gives the task's inputs |
| `InputSplitting.PiecesJoinToWhole` | tensorflow-serving/tensorflow_serving/batching/batching_session.cc:811-827 | concatenating one output of all pieces gives that output of the whole task |
| `SplitRequests.ThreadSafeStatus.Update` | tensorflow-serving/tensorflow_serving/batching/threadsafe_status.cc:35-51 | keeps the first error |
| `SplitRequests.InternalIncrementalBarrier.Signal` | tensorflow-serving/tensorflow_serving/batching/incremental_barrier.cc:32-41 | lowers the counter, and tells exactly at zero that the callback is due |
| `SplitRequests.SplitRequest.Inc` | tensorflow-serving/tensorflow_serving/batching/incremental_barrier.cc:43-48 | one more piece is waited for |
| `SplitRequests.SplitRequest.Callback` | tensorflow-serving/tensorflow_serving/batching/incremental_barrier.cc:32-41 | the protocol's call step, followed by the join exactly if it was the last signal |
| `SplitRequests.SplitRequest.DestroyBarrier` | tensorflow-serving/tensorflow_serving/batching/incremental_barrier.cc:59-59 | the protocol's destruction step, followed by the join exactly if no piece is waited for |
| `SplitRequests.SplitRequest.Join` | tensorflow-serving/tensorflow_serving/batching/batching_session.cc:807-855 | concatenates every output over the pieces, merges failures into the status, hands over outputs and status, notifies once |
| `SplitJoin.NotifiedOnlyAtTheEnd` | tensorflow-serving/tensorflow_serving/batching/incremental_barrier.h:56-58 | in every interleaving at most one notification, only after the barrier's destruction and after every piece has reported and called back; afterwards nobody touches the released barrier |
| `SplitJoin.NotifiedInTheEnd` | tensorflow-serving/tensorflow_serving/batching/incremental_barrier.h:56-58 | a run that can go no further has notified its caller |
| `SplitJoin.RunIsBounded` | tensorflow-serving/tensorflow_serving/batching/batching_session.cc:856-901 | a run with n pieces and k outputs has at most n(k+3)+2 steps, so it does get to its end |
| `SplitJoin.StatusIsFirstError` | tensorflow-serving/tensorflow_serving/batching/threadsafe_status.cc:35-51 | the shared status is OK if and only if all reports so far were, otherwise the first error reported |
| `SplitJoin.DeliveredStatus` | tensorflow-serving/tensorflow_serving/batching/batching_session.cc:820-836 | if any piece failed, the caller gets the first error reported, whatever the join itself does |
| `SplitJoin.DeliveredOkIff` | tensorflow-serving/tensorflow_serving/batching/batching_session.cc:820-836 | the caller gets OK if and only if every piece reported success and every output can be concatenated |
| `SplitTransparency.SplitRequestJoinsPieces` | tensorflow-serving/tensorflow_serving/batching/batching_session.cc:800-934 | any distribution of the pieces over batches with any other tasks, any order of all steps, any padding: if all pieces report success, every output, where first mentioned, is the concatenation of the runs on the pieces' inputs as their batches prepared them |
| `SplitTransparency.DistinctJoinSucceeds` | tensorflow-serving/tensorflow_serving/batching/batching_session.cc:820-836 | if moreover the task asks for no output twice, the caller gets status OK |
| `SplitTransparency.JoinIsTransparent` | tensorflow-serving/tensorflow_serving/batching/batching_session.cc:807-855 | rows that hold what runs on the pieces' own inputs give are joined to what one run gives the whole task |
| `SplitTransparency.SplitRequestIsTransparent` | tensorflow-serving/tensorflow_serving/batching/batching_session.cc:800-934 | splitting is transparent: through batches that pad nothing (padding off, or equal row shapes) the caller gets exactly the outputs of one run on the whole task, in its order, and status OK unless it asks for an output twice |
| `BatchSchedulerRetriers.Create` | tensorflow-serving/tensorflow_serving/batching/batch_scheduler_retrier.h:75-90 | fails exactly for a negative budget or delay |
| `BatchSchedulerRetriers.Schedule` | tensorflow-serving/tensorflow_serving/batching/batch_scheduler_retrier.h:92-115 | returns the first status other than UNAVAILABLE; UNAVAILABLE only if the budget leaves no room for another delay; at most max(1, ceil(T/d)) attempts, T+1 for a zero delay |
| `BatchSchedulerRetriers.MaxAttemptsIsTight` | tensorflow-serving/tensorflow_serving/batching/batch_scheduler_retrier.h:92-115 | by some clock the budget has room after every attempt within that bound but the last, and after no other |
| `VersionPolicy.GetHighestAspiredNewServableId` | tensorflow-serving/tensorflow_serving/core/aspired_version_policy.cc:21-33 | the highest aspired new version, none exactly if there is none |
| `VersionPolicy.LowestId` | tensorflow-serving/tensorflow_serving/core/availability_preserving_policy.cc:26-40 | an id of least version, none exactly for no versions |
| `VersionPolicy.GetNextAction` | tensorflow-serving/tensorflow_serving/core/availability_preserving_policy.cc:44-85 | the policy's rule as a specification over sets: what may be unloaded and which, else what is loaded, else nothing |
| `VersionPolicy.NextActionIs` | tensorflow-serving/tensorflow_serving/core/availability_preserving_policy.cc:34-85 | the same in terms of the snapshots alone: the lowest unaspired ready version is unloaded exactly if one may go; only otherwise the highest aspired new one is loaded; nothing is done only if there is neither |
| `VersionPolicy.ActionIsSafe` | tensorflow-serving/tensorflow_serving/core/availability_preserving_policy.cc:62-82 | an unload takes an unaspired ready version and, in a stream with an aspired version, leaves another one ready; a load takes an aspired new one |
| `VersionPolicy.OnlyLoadedVersionIsUnloaded` | tensorflow-serving/tensorflow_serving/core/availability_preserving_policy.cc:65-71 | a stream in which the only loaded version is unloaded, which the policy's description rules out |
| `VersionPolicy.KeepsLastReadyIff` | tensorflow-serving/tensorflow_serving/core/availability_preserving_policy.cc:62-72 | every unload that the policy proposes leaves another version ready if and only if something is aspired, or there is no unaspired ready version, or there are two |
| `VersionPolicy.BeforeIsStrictWeakOrdering` | tensorflow-serving/tensorflow_serving/core/aspired_versions_manager.cc:47-80 | the comparator is irreflexive, asymmetric, transitive, and has transitive incomparability |
| `VersionPolicy.HeadOfSorted` | tensorflow-serving/tensorflow_serving/core/aspired_versions_manager.cc:345-347 | the head of any sorted arrangement is an unload if and only if some stream proposes one, and nothing only if none proposes anything |
| `LifecycleInvariants.AbsorbEnabledIff` | tensorflow-serving/tensorflow_serving/core/aspired_versions_manager.cc:309-324 | a pending request can be absorbed if and only if each version it lists is not managed, or is aspired |
| `LifecycleInvariants.AbsorbIsExact` | tensorflow-serving/tensorflow_serving/core/aspired_versions_manager.cc:250-307 | after absorbing a request the stream's aspired versions are exactly the listed ones; existing harnesses keep their loader and state, and those omitted have their retries cancelled unless they have failed; new ones are those that the request offers, by its first entry for the version; other streams are untouched |
| `LifecycleInvariants.ActionApplies` | tensorflow-serving/tensorflow_serving/core/aspired_versions_manager.cc:354-374 | the action chosen from a snapshot still applies when it is performed, although loads and unloads have progressed |
| `LifecycleInvariants.UnloadLeavesReady` | tensorflow-serving/tensorflow_serving/core/availability_preserving_policy.cc:62-72 | at the moment an unload is performed, another version of a stream with an aspired version is ready |
| `LifecycleInvariants.UnloadKeepsReadyIff` | tensorflow-serving/tensorflow_serving/core/availability_preserving_policy.cc:62-72 | an unload that is performed leaves its stream with a ready version if and only if the stream has an aspired version or a second unaspired ready one at that moment |
| `LifecycleInvariants.StepKeepsInv` | tensorflow-serving/tensorflow_serving/core/aspired_versions_manager.cc:190-196 | every step keeps the call order, the states of aspired harnesses, and the correspondence of aspired versions to requests |
| `LifecycleTheorems.CallOrderHolds` | tensorflow-serving/tensorflow_serving/core/basic_manager.h:80-85 | on every run the calls about an id are Manage, at most one load, at most one unload, Stop, for one loader; an aspired harness is never being unloaded or disabled, and its load retries are never cancelled; those of one that is not aspired are, unless it has failed |
| `LifecycleTheorems.SingleLoader` | tensorflow-serving/tensorflow_serving/core/aspired_versions_manager.h:177-183 | after a load call on one loader the next call for that id goes to the same loader |
| `LifecycleTheorems.LoadersAreOffered` | tensorflow-serving/tensorflow_serving/core/aspired_versions_manager.cc:289-305 | on every run each managed version has a loader that a request enqueued for its own stream offered for that version, and each pending request is one that was enqueued |
| `LifecycleTheorems.HarnessesMoveInOrder` | tensorflow-serving/tensorflow_serving/core/loader_harness.cc:50-162 | on every run a harness changes state only by a load or unload call for it and by its completions, in the loader's order, one state at a time; it begins as new or failed, and goes only when unaspired and new, disabled or failed |
| `LifecycleTheorems.SnapshotsMayLag` | tensorflow-serving/tensorflow_serving/core/aspired_versions_manager.cc:328-352 | any snapshot taken earlier is among those the model allows the policy to have seen, whatever requests and completions came since |
| `LifecycleTheorems.UnloadsGoFirst` | tensorflow-serving/tensorflow_serving/core/aspired_versions_manager.cc:345-347 | a load is chosen only if no stream has a version that may be unloaded |
| `LifecycleTheorems.NoSpontaneousUnloading` | tensorflow-serving/tensorflow_serving/core/aspired_versions_manager.h:186-202 | while all requests enqueued for its stream list it, an aspired version stays managed by the same loader and is neither unloaded nor flushed |
| `LifecycleTheorems.AddedVersionIsKept` | tensorflow-serving/tensorflow_serving/core/aspired_versions_manager.cc:289-305 | that protection starts when a request adds the version |
| `LifecycleTheorems.AvailabilityHolds` | tensorflow-serving/tensorflow_serving/core/availability_preserving_policy.cc:44-85 | while a stream has an aspired version in every state, a run that once had a ready version always has one |
| `LifecycleTheorems.TransferFailsIffDuplicate` | tensorflow-serving/tensorflow_serving/core/aspired_versions_manager.cc:296-304 | the branch that cannot transfer a servable is reached if and only if the request lists a version to add twice |
| `LifecycleTheorems.OtherStepsAreNotRefused` | tensorflow-serving/tensorflow_serving/core/basic_manager.cc:380-403 | flushes and actions are never turned down by the basic manager |
| `Convergence.StepDecreases` | tensorflow-serving/tensorflow_serving/core/aspired_versions_manager.cc:190-196 | every step but a new request lowers the measure (pending requests and harness ranks) |
| `Convergence.QuietRunIsBounded` | tensorflow-serving/tensorflow_serving/core/aspired_versions_manager.cc:190-196 | between requests a run has at most as many steps as the measure |
| `Convergence.AtRestIffStalled` | tensorflow-serving/tensorflow_serving/core/aspired_versions_manager.cc:376-442 | exactly which states have no enabled step, failed loads included |
| `Convergence.IdlePolicyStaysIdle` | tensorflow-serving/tensorflow_serving/core/aspired_versions_manager.cc:328-352 | if no stream proposes anything now, no older snapshot enables an action either |
| `Convergence.AtRestIffSettled` | tensorflow-serving/tensorflow_serving/core/aspired_versions_manager.h:156-163 | if every load succeeds, the loop is at rest if and only if nothing is pending and each stream's managed versions are the last requested, all ready |
| `Convergence.LastRequestCounts` | tensorflow-serving/tensorflow_serving/core/aspired_versions_manager.cc:230-248 | the last request of a stream without foreign names is the one that counts: its versions are the requested ones, and it waits with all its entries, or has been absorbed with all of them |
| `WitnessRuns.FailedLoadCanStall` | tensorflow-serving/tensorflow_serving/core/aspired_versions_manager.cc:418-423 | a run with healthy requests in which one load fails, and which rests with a request pending forever: convergence needs every load to succeed |
| `WitnessRuns.UnhealthyVersionCanStall` | tensorflow-serving/tensorflow_serving/core/aspired_versions_manager.cc:418-423 | the same with a version offered as unhealthy and no load that fails |
| `WitnessRuns.AvailabilityCanEnd` | tensorflow-serving/tensorflow_serving/core/availability_preserving_policy.cc:65-71 | a run in which a stream loses its only ready version, once nothing of it is aspired |
| `AspiredVersionsManagers.BasicManager.ManageServable` | tensorflow-serving/tensorflow_serving/core/basic_manager.cc:336-368 | turns down an id that is managed already, else adds it in state New or Failed |
| `AspiredVersionsManagers.BasicManager.StopManagingServable` | tensorflow-serving/tensorflow_serving/core/basic_manager.cc:380-403 | removes a managed id in state New, Failed or Disabled and refuses all else |
| `AspiredVersionsManagers.AspiredVersionsManager.EnqueueAspiredVersionsRequest` | tensorflow-serving/tensorflow_serving/core/aspired_versions_manager.cc:230-248 | replaces the stream's pending request; a request with a foreign name changes nothing; the run is extended by that step |
| `AspiredVersionsManagers.AspiredVersionsManager.ContainsAnyReaspiredVersions` | tensorflow-serving/tensorflow_serving/core/aspired_versions_manager.cc:309-324 | true if and only if some entry of the request is for a version that is managed and not aspired |
| `AspiredVersionsManagers.AspiredVersionsManager.UnaspireOmitted` | tensorflow-serving/tensorflow_serving/core/aspired_versions_manager.cc:262-278 | clears the flags of exactly the omitted versions, cancels the load retries of those that have not failed, and returns the versions aspired before |
| `AspiredVersionsManagers.AspiredVersionsManager.ProcessAspiredVersionsRequest` | tensorflow-serving/tensorflow_serving/core/aspired_versions_manager.cc:250-307 | the objects make the specified change |
| `AspiredVersionsManagers.AspiredVersionsManager.HandlePendingAspiredVersionsRequests` | tensorflow-serving/tensorflow_serving/core/aspired_versions_manager.cc:404-429 | exactly the requests that list a version which was managed and not aspired on entry are left pending; after each absorbed one exactly its versions are aspired; the run is extended by legal steps |
| `AspiredVersionsManagers.AspiredVersionsManager.FlushServables` | tensorflow-serving/tensorflow_serving/core/aspired_versions_manager.cc:376-402 | removes exactly the unaspired new, disabled or failed versions |
| `AspiredVersionsManagers.AspiredVersionsManager.GetNextAction` | tensorflow-serving/tensorflow_serving/core/aspired_versions_manager.cc:328-352 | the choice is some managed stream's own proposal that no other proposal precedes, and none if and only if no stream proposes anything |
| `AspiredVersionsManagers.AspiredVersionsManager.InvokePolicyAndExecuteAction` | tensorflow-serving/tensorflow_serving/core/aspired_versions_manager.cc:431-442 | performs a legal action step, or none only if no stream proposes anything |
| `AspiredVersionsManagers.AspiredVersionsManager.ManageState` | tensorflow-serving/tensorflow_serving/core/aspired_versions_manager.cc:190-196 | one turn of the loop flushes exactly the versions that can go, then absorbs exactly the requests that need not wait, then takes an action exactly if some stream proposes one; it extends the run by legal steps, and a turn that takes none found none but requests and completions enabled |
| `AspiredVersionsManagers.AspiredVersionsManager.CompleteOneStep` | tensorflow-serving/tensorflow_serving/core/loader_harness.cc:62-94 | a load or unload moves one state further, at any time |

## Left out

- Integer widths: sizes, times and counters are unbounded, except that deadlines wrap around at 64 bits; overflow of the piece loop's `int`, and of a timeout in milliseconds times 1000, is not modelled.
- BatchingSessions.ProcessBatch: does not model the fields of the run options other than the timeout, run metadata, or cost attribution.
- BatchingSessions.ProcessBatch: runs one batch at a time; how threads interleave on a split request is covered by the protocol in `SplitJoin`, to whose runs the objects are tied.
- SplitTransparency.SplitRequestIsTransparent: outputs are claimed only if all pieces succeed. After a failure the source reads beyond a short row; the protocol lets that read yield anything, and claims the status only.
- SplitTransparency.SplitRequestJoinsPieces: with variable lengths two pieces can be padded to different shapes, which the source does not reconcile; the lemma says what is concatenated, not that it is one run's output.
- BatchingTheorems.BatchIsTransparent: takes tasks that list no input twice; merging is modelled for others too, but what a run on such a task's own inputs would be is not defined.
- InputMerging.MergeInputTensors: a last task without rows in a batch that is padded to an allowed size; the source indexes an empty list there.
- StreamingBatchSchedulers.SingleTaskScheduler: shutdown is not modelled; the destructor's claim that the set closure always runs is not made.
- Shutdown of the streaming scheduler, the thread pool's queue, and `BasicBatchScheduler` (not part of this model).
- Routing in `BatchingSession::InternalRun` and the choice of in-line execution: no hard property.
- AspiredVersionsManagers.BasicManager.ManageServable: resource approval, load retries, event publishing and serving maps are not modelled; a load may fail where the source lets it.
- The resource-preserving policy, custom load counts, and handles to servables.
- Convergence with failing loads is characterised, not claimed.
- Data types and element widths: values are integers, and dispatch on the type is not modelled.
- Metrics, tracing, logging, and all HTTP, command-line and Kubernetes code of the repository.
