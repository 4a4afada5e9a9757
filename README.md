# The `asst::Assistance` orchestrator, modelled in Dafny

`asst::Assistance` (src/MeoAssistance/Assistance.cpp) is the object at the
centre of the assistant:

- It binds a capture target (an emulator, a remote "Custom" device, or a fake one).
- It keeps a FIFO queue of tasks that its public `append_*` calls fill.
- A worker thread runs the front task, pops it and posts the completion events of the task chains.
- A message thread hands the posted events, in order, to the registered callback.
- Every event first passes through `task_callback`. There a capture failure stops the assistant and a `StageDrops` report is enriched with item names and cumulative drop statistics.

The project models all of this sequentially:

- `class Assistance` holds the lifecycle flags (`inited`, `threadIdle`, `threadExit`), the task queue, the message queue, the drop accumulator and the Penguin Statistics parameter.
- Each public call is a method with its whole new state in its contract.
- The two threads become `WorkerStep` and `MsgStep`, one loop iteration each.
- A task's `run()` is an oracle value `RunOutcome(success, posted)`: its result, plus the messages it posted through `task_callback` while it ran.
- `try_capture` is a function parameter.

Modules:

- `Wrappers`: `Option` and `Result`.
- `DropStatistics`: the drop report, the accumulator and `organize_stage_drop` with its in-place sort.
- `Messages`: message kinds and details.
- `Tasks`: task records and the list `append_infrast` builds.
- `Interceptor`: what `task_callback` does to each message.
- `Scheduler`: the decisions of one worker iteration.
- `PenguinReport`: the `set_penguin_id` parameter.
- `MeoAssistance`: the class.
- `Scenarios`: whole-object runs through the public calls.

## Model

| member | source | states |
|---|---|---|
| MeoAssistance.Assistance.constructor | src/MeoAssistance/Assistance.cpp:27-48 | a new assistant is uninitialised, idle, not exiting, with both queues empty |
| MeoAssistance.Assistance.Shutdown | src/MeoAssistance/Assistance.cpp:50-56 | the destructor sets the exit and idle flags |
| MeoAssistance.Assistance.Stop | src/MeoAssistance/Assistance.cpp:394-411 | stop always succeeds, leaves the assistant idle with an empty task queue, and clears the template cache once |
| MeoAssistance.Assistance.Start | src/MeoAssistance/Assistance.cpp:375-392 | start succeeds iff the assistant was idle and initialised; only then does it clear idle, otherwise nothing changes |
| MeoAssistance.Assistance.CatchEmulator | src/MeoAssistance/Assistance.cpp:82-111 | stops first; with an empty name the result is whether some configured emulator captures, with a configured name whether that one captures, and an unknown name fails as `at()` throws; `inited` becomes the result, and stays as it was on failure |
| MeoAssistance.Assistance.CatchCustom | src/MeoAssistance/Assistance.cpp:113-130 | stops, then captures the "Custom" emulator as a remote target; fails when none is configured; `inited` becomes the result |
| MeoAssistance.Assistance.CatchFake | src/MeoAssistance/Assistance.cpp:132-140 | stops, then counts as initialised and returns true |
| MeoAssistance.Assistance.CatchDefault | src/MeoAssistance/Assistance.cpp:67-80 | dispatches on the connection type to CatchEmulator("") or CatchCustom; any other type returns false and changes nothing |
| MeoAssistance.Assistance.AppendProcessTask | src/MeoAssistance/Assistance.cpp:203-228 | refused (false, queue unchanged) before initialisation; otherwise appends one process task whose chain label is the given one, or the task name when that is empty |
| MeoAssistance.Assistance.AppendFight | src/MeoAssistance/Assistance.cpp:142-165 | refused before initialisation; otherwise appends the "Fight" task with its three limits, then returns start()'s result unless only appending |
| MeoAssistance.Assistance.AppendAward | src/MeoAssistance/Assistance.cpp:167-170 | appends the "ReceiveAward" process task; its only_append flag has no effect |
| MeoAssistance.Assistance.AppendVisit | src/MeoAssistance/Assistance.cpp:172-175 | appends the "Visit" process task; its only_append flag has no effect |
| MeoAssistance.Assistance.AppendMall | src/MeoAssistance/Assistance.cpp:177-201 | refused before initialisation; otherwise appends the "Mall" process task and, when asked, the shopping task, then starts unless only appending |
| MeoAssistance.Assistance.StartRecruitCalc | src/MeoAssistance/Assistance.cpp:254-270 | refused before initialisation; otherwise appends the "OpenRecruit" task and returns start()'s result |
| MeoAssistance.Assistance.AppendInfrast | src/MeoAssistance/Assistance.cpp:272-362 | refused before initialisation; otherwise appends exactly `Tasks.InfrastTasks(order, drones)`, then starts unless only appending |
| MeoAssistance.Assistance.AppendSegments | src/MeoAssistance/Assistance.cpp:326-355 | the loop over `order` appends the segments of every name, in order |
| MeoAssistance.Assistance.AppendSegment | src/MeoAssistance/Assistance.cpp:327-354 | one iteration appends the named facility's task (none for an unknown name), its drone assist when its flag is set, and InfrastBegin |
| MeoAssistance.Assistance.AppendShiftPart | src/MeoAssistance/Assistance.cpp:327-353 | the branches over the facility name append its shift task and, when its flag is set, its drone assist; an unknown name appends nothing |
| MeoAssistance.Assistance.SetPenguinId | src/MeoAssistance/Assistance.cpp:364-373 | stores `PenguinReport.ExtraParam(id)`: empty for an empty id, the authorization header otherwise |
| MeoAssistance.Assistance.AppendCallback | src/MeoAssistance/Assistance.cpp:509-514 | the message goes to the tail of the message queue |
| MeoAssistance.Assistance.TaskCallback | src/MeoAssistance/Assistance.cpp:486-507 | a capture failure leaves the assistant stopped (idle, empty queue); every other kind leaves the tasks alone; a drop report updates the accumulator and is queued enriched, and every other message is queued as it came |
| MeoAssistance.Assistance.TaskCallbacks | src/MeoAssistance/Assistance.cpp:427 | the messages a run posts are handled in order: the assistant ends idle iff it was idle already or one of them is a capture failure; the queue is emptied if one of them is a capture failure and otherwise unchanged; one cache clear per failure; the accumulator after all drop reports; and the queued messages are `InterceptedAll` of the posted ones |
| MeoAssistance.Assistance.RunAndPop | src/MeoAssistance/Assistance.cpp:424-428 | running then popping leaves `Scheduler.StepQueue` of the old queue: the tail, or nothing when the run stopped the assistant |
| MeoAssistance.Assistance.PostCompletion | src/MeoAssistance/Assistance.cpp:430-445 | the completion events of the run are queued unchanged, after the run's own messages |
| MeoAssistance.Assistance.WorkerStep | src/MeoAssistance/Assistance.cpp:417-457 | exiting: nothing changes; idle or empty: becomes idle and nothing else changes; otherwise runs the front task, leaves `StepQueue`, is idle iff the run reported a capture failure, and queues the run's messages then `CompletionEvents` |
| MeoAssistance.Assistance.MsgStep | src/MeoAssistance/Assistance.cpp:465-479 | while not exiting, pops the front message and hands it to the callback when one is registered; an empty queue changes nothing |
| DropStatistics.AccumulateCounts | src/MeoAssistance/Assistance.cpp:525-528 | each id's accumulated count grows by the sum of its quantities in the report; the accumulator gains exactly the ids the report mentions |
| DropStatistics.AccumulateConcat | src/MeoAssistance/Assistance.cpp:525-528 | two reports in turn accumulate like one report holding both drop lists |
| DropStatistics.RepeatedReportAccumulates | src/MeoAssistance/Assistance.cpp:525-528 | the same report processed twice doubles its contribution rather than resetting it |
| DropStatistics.LabelAndCount | src/MeoAssistance/Assistance.cpp:525-531 | the drop loop leaves the accumulator `Accumulate(acc, drops)` and labels every drop with its name or "未知材料" |
| DropStatistics.CollectStatistics | src/MeoAssistance/Assistance.cpp:533-540 | one statistics entry per accumulated id: the entries form exactly the expected set |
| DropStatistics.InsertDown | src/MeoAssistance/Assistance.cpp:542-545 | one insertion pass extends the sorted prefix by one and permutes the array |
| DropStatistics.SortByCount | src/MeoAssistance/Assistance.cpp:541-545 | the statistics end up in non-increasing count order, as a permutation of what they were |
| DropStatistics.StatisticsOnePerId | src/MeoAssistance/Assistance.cpp:532-547 | a statistics array holds one entry per accumulated id, none twice, each carrying that id's count and display name |
| DropStatistics.OrganizeStageDrop | src/MeoAssistance/Assistance.cpp:521-552 | the new accumulator is `Accumulate(acc, drops)`; the report keeps its other top-level fields, its drops are labelled, and its statistics are the expected entries in non-increasing count order |
| DropStatistics.ExampleCounts | src/MeoAssistance/Assistance.cpp:525-528 | from an empty accumulator, 30011 x3 and 30012 x1 give {30011: 3, 30012: 1} |
| DropStatistics.ExampleReport | src/MeoAssistance/Assistance.cpp:532-547 | for that report, every statistics array is [30011 (3), 30012 (1)] |
| Interceptor.InterceptedKeepsOrder | src/MeoAssistance/Assistance.cpp:486-507 | the queued messages keep the posted kinds in post order, and every message but a drop report is queued unchanged |
| Interceptor.AnyFatalSnoc | src/MeoAssistance/Assistance.cpp:492-496 | one more message stops the assistant iff it is a capture failure or an earlier one was |
| Interceptor.AccAfterAllConcat | src/MeoAssistance/Assistance.cpp:497-498 | the accumulator after two runs is the accumulator after the first, then the second |
| Scheduler.CompletionEvents | src/MeoAssistance/Assistance.cpp:430-445 | success: TaskChainCompleted iff the queue is now empty or the next label differs, AllTasksCompleted iff it is empty, and nothing else; failure: exactly one TaskError |
| Scheduler.PopAgreesWithStep | src/MeoAssistance/Assistance.cpp:427-428 | the unguarded pop after the run and the intended step give the same queue exactly when the run posted no capture failure |
| Scheduler.CaptureFailureLeavesNothingToPop | src/MeoAssistance/Assistance.cpp:427-428 | a run that posts a capture failure leaves nothing for the pop, whatever the queue held |
| Scheduler.StepQueue | src/MeoAssistance/Assistance.cpp:427-428 | the queue after a step is the tail of the old one, or empty when the run stopped the assistant |
| Scheduler.DrainEmitsOneCompletionPerChain | src/MeoAssistance/Assistance.cpp:430-445 | draining a queue with every run succeeding posts one TaskChainCompleted per maximal run of equal labels, in order, then one AllTasksCompleted |
| Scheduler.ChainBoundaryExample | src/MeoAssistance/Assistance.cpp:436-442 | labels A, A, B: one TaskChainCompleted(A), then TaskChainCompleted(B), then AllTasksCompleted |
| Tasks.InfrastFrame | src/MeoAssistance/Assistance.cpp:286-355 | append_infrast's list starts with InfrastBegin and the info task, ends with InfrastBegin whenever `order` is non-empty, and holds exactly one InfrastBegin per name of `order` plus the leading one |
| Tasks.InfrastAllInChain | src/MeoAssistance/Assistance.cpp:282-355 | every task append_infrast appends belongs to the "Infrast" chain |
| Tasks.InfrastShiftsFollowOrder | src/MeoAssistance/Assistance.cpp:326-355 | the facility tasks appear in the order of the known names of `order`; unknown names add none |
| Tasks.InfrastDroneAssists | src/MeoAssistance/Assistance.cpp:330-341 | there is one drone-assist task per "Mfg" (resp. "Trade") entry when its flag is set, and none otherwise |
| PenguinReport.ExtraParamRoundTrip | src/MeoAssistance/Assistance.cpp:364-373 | the parameter is empty exactly for the empty id; otherwise it is the header prefix, the id and a closing quote, and the id reads back out of it |
| Scenarios.AppendBeforeInit | src/MeoAssistance/Assistance.cpp:203-208 | before a capture binding, appends return false and the queue stays empty |
| Scenarios.StopTwice | src/MeoAssistance/Assistance.cpp:394-411 | two stops in a row both succeed, and leave the assistant idle with an empty queue |
| Scenarios.StartTwice | src/MeoAssistance/Assistance.cpp:380-391 | a second start while running is refused |
| Scenarios.SameChainNext | src/MeoAssistance/Assistance.cpp:436-438 | a task followed by one of its own chain completes no chain |
| Scenarios.ChainChange | src/MeoAssistance/Assistance.cpp:436-442 | chains A then B: TaskChainCompleted(A), TaskChainCompleted(B), AllTasksCompleted, and an empty queue |
| Scenarios.CaptureFailureDuringRun | src/MeoAssistance/Assistance.cpp:492-496 | a capture failure during a run leaves the worker idle with an empty queue, even though a task remained; the failure is queued before the TaskError |
| Scenarios.DeliveryOrder | src/MeoAssistance/Assistance.cpp:468-478 | messages reach the callback in the order they were queued |
| Scenarios.CatchUnknownEmulator | src/MeoAssistance/Assistance.cpp:104-105 | an emulator name missing from the configuration fails and leaves the assistant uninitialised |

## Left out

- Threads, mutexes, condition variables, `notify_*` and the `task_delay` pacing wait are left out. They are replaced by the step methods; interleavings are not modelled.
- The constructor's resource loading and its `InitFaild`/throw path are left out: they are file I/O.
- The initial values of `m_inited`, `m_thread_idle` and `m_thread_exit` come from Assistance.h, which is not part of this model. The constructor assumes not initialised, idle and not exiting.
- `try_capture` is a pure function parameter. Its effects on the controller are not modelled.
- What tasks do when they run is not modelled: `run()` is the oracle `RunOutcome`. The task objects themselves are values, so the sharing of one `InfrastMfgTask` object by every "Mfg" entry of `order` is not modelled.
- The `work_mode` and `dorm_threshold` arguments of `append_infrast` are not modelled. Work mode is always forced to aggressive, and the threshold is a floating-point value that is only passed through.
- The default retry counts are declared in headers that are not part of this model. `Tasks.Retries.DefaultRetries` stands for the defaults; the recruit task's retry count is not recorded.
- The `block` argument of `start` and `stop` is not modelled. It only decides locking.
- A `StageDrops` message whose detail is not a drop report is queued unchanged. The JSON library's behaviour on a malformed report is not modelled.
- Logging, the JSON encoding of details and `append_debug` (compiled only with `LOG_TRACE`, and it appends nothing) are left out.
- `clear_hists()` is recorded only as a count of cache clears.
- DropStatistics.AccumulateCounts: counts and quantities are unbounded integers. The source keeps them in C++ `int` (lines 527 and 544), so a total beyond 32 bits, which overflows there, is not modelled. The same holds for the `int` limits of `append_fight` (line 142), which are only stored.
- DropStatistics.OrganizeStageDrop: a drop is modelled by its id, quantity and name only. The source copies the whole report (line 523) and writes only `itemName` into each drop (line 530), so any other key of a drop survives there; the model says nothing about such keys. Top-level fields of the report are kept.
- DropStatistics.OrganizeStageDrop: the order among statistics entries of equal count is not fixed. `std::sort` is not stable and the accumulator's iteration order is unspecified, so a stable tie order is not claimed.
- Scenarios.AppendBeforeInit: covers `append_process_task` and `append_infrast`. The other builders' refusal before initialisation is stated in their own contracts.

## Findings

| source | as written | input that shows it | evidently intended | confidence | as-written member | corrected member |
|---|---|---|---|---|---|---|
| src/MeoAssistance/Assistance.cpp:428 | after `run()`, `m_tasks_queue.pop()` is called unconditionally; a run that posts `PtrIsNull` or `ImageIsEmpty` reaches `stop(false)` (line 495), which swaps the queue with an empty one (lines 405-406), so this pop is on an empty `std::queue` (undefined behaviour) | any queue, and a run that posts one `ImageIsEmpty` message | pop only when the queue is not empty; after a stop the queue stays empty | not executed; medium | Scheduler.CaptureFailureLeavesNothingToPop | Scheduler.StepQueue |
