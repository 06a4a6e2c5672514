# A verified model of the Bluetooth stack's stateful core

The project models the parts of the Android Bluetooth stack whose correctness depends on state kept
across calls, and proves what every run of them keeps:

* **Timers and their message loops** (`TimerGrid`, `TimerProtocol`, `TimerSafety`,
  `TimerProgress`, `Timers`, `LoopThread`).
  `OnceTimer`, `RepeatingTimer` and `MessageLoopThread` as state machines whose steps are the sections
  under a lock, the closures a loop runs, and moves of the environment. Cancelable wrappers are generation
  numbers. Times are 64-bit, with the C++ remainder and wrap-around written out.
* **The GATT server** (`Indications`, `Registry`, `GattServers`, `GattServices`). Connections indexed by id
  and by address, pending requests, shared pending indications with their reference counts, and the flat
  attribute list that a service tree becomes.
* **The AT command parser** (`AtCommands`, `AtParsers`) of the audio gateway, over chunks of any size.
* **The metrics logger** (`LeakyQueues`, `A2dpMetrics`, `MetricsLog`, `MetricsLoggers`): bounded queues, a
  running average and sessions cut off by dumps, against an unbounded history.
* **The old GATT server's blobs** (`Blobs`, `BlobServers`): values longer than an attribute, read in sections.
* **The legacy A2DP output stream** (`A2dpStream`, `A2dpStreams`, `Downmix`).
* **Parsers and printers that undo each other** (`Text`, `Addresses`, `DeviceClasses`, `AudioParams`).

Objects that the source updates in place are classes. Each method's `ensures` ties the new fields to a
function on values, and the theorems are about runs of those functions: `Run(actions)` is the state after any
sequence of actions, with every result of the HAL, the clock or the network an argument of the action. Runs
keep a log of what happened, so that a theorem such as "a cancelled task never starts" is about positions of
that log. Actions that cannot happen in a state are skipped, so a statement about all sequences of actions is
one about all interleavings.

## Model

| member | source | states |
|---|---|---|
| TimerGrid.NegativeRemainder | common/repeating_timer.cc:138-142 | the doubled C++ remainder brings a negative rest into [0, period) without leaving its residue class |
| TimerGrid.NextDelayOnGrid | common/repeating_timer.cc:134-145 | RunTask's next delay is between 0 and one period, lands on the grid of the expected time, and on time aims at exactly the next expected instant |
| TimerGrid.NextRunOnGrid | common/repeating_timer.cc:134-145 | seen from the first due time, each run advances the expected instant by one period and its due time stays on the grid |
| TimerGrid.FirstReachable | common/repeating_timer.cc:138-145 | a grid instant less than a period away is the first that is not in the past |
| TimerSafety.RunWired | common/repeating_timer.cc:37-148 | in every interleaving, with calls from user threads, from the timer's own task and from any other closure of any loop, the state invariant holds: one wrapper of the current generation, fulfilled cancellations silence their generation, posted closures go to the timer's own loop |
| TimerSafety.RunRecorded | common/once_timer.cc:35-126 | every event of every run is admissible after the events before it, and the fields agree with the log |
| TimerSafety.AtMostOneLiveWrapper | common/once_timer.cc:43-62 | at most one posted wrapper is live |
| TimerSafety.RunTaskFindsItsTask | common/repeating_timer.cc:124-148 | a live wrapper runs on the loop RunTask checks for and finds the task it was armed with |
| TimerSafety.OnceRunsAtMostOnce | common/once_timer.cc:113-126 | a OnceTimer starts the task of one Schedule at most once |
| TimerSafety.ReplacedNeverStarts | common/once_timer.cc:35-64 | after a Schedule has installed its task no earlier task starts |
| TimerSafety.StartedWasScheduled | common/once_timer.cc:35-64 | every start belongs to an earlier Schedule that returned true, and is counted and timed as it asked |
| TimerSafety.CancelledNeverStarts | common/once_timer.cc:67-104 | what starts after CancelAndWait has returned was scheduled after CancelAndWait was called |
| TimerSafety.PeriodicRunsStayOnGrid | common/repeating_timer.cc:124-157 | the n-th run is never before the first due time plus n - 1 periods; its due time and the next are on the grid of the first; a late run aims at the first grid instant it can still reach |
| TimerSafety.OnceForgetsWhatItsTaskScheduled | common/once_timer.cc:123-126 | when the task of a OnceTimer returns, whatever was scheduled while it ran and has not started by then never starts, until a later Schedule installs a task |
| TimerSafety.OnceScheduleKept | common/once_timer.cc:45-64 | a Schedule that the loop accepts and whose due time the clock can reach can still start its task if and only if its loop is not, at that moment, running a task of this very timer |
| TimerSafety.SelfScheduleIsLost | common/once_timer.cc:113-126 | a run in which a task schedules its timer on its own loop, Schedule returns true, and the task never starts |
| TimerProgress.PeriodicRunPostsNext | common/repeating_timer.cc:134-148 | a periodic run leaves exactly one live wrapper, on the same loop, due at the next instant the run logged: the wrapper is posted again by every run |
| TimerProgress.PeriodicRunsAgain | common/repeating_timer.cc:134-148 | while the clock can reach it, the next run can happen without another Schedule, as the next in number and due at the instant logged |
| TimerProgress.PeriodicRunsOnAndOn | common/repeating_timer.cc:124-157 | a periodic task that starts once can run any number of times more, as far as the clock goes, without another Schedule |
| TimerProgress.ScheduleCanCommit | common/repeating_timer.cc:37-74 | from every state of a run a Schedule can come to install its task; it returns true exactly when the loop runs, and the task is first due one delay after the call |
| TimerProgress.PeriodicCommitStarts | common/repeating_timer.cc:46-74 | an installed periodic task can start, as run number one and due when it was asked to be |
| TimerProgress.CancelCanReturn | common/repeating_timer.cc:83-115 | from every state of a run a cancellation can return without another Schedule: at once, or when the timer's loop has finished what it is running |
| TimerProgress.NoCancelIsLost | common/once_timer.cc:67-104 | in every run, whatever has happened since a cancellation was called, with loops stopped and destroyed and tasks replaced, it can still return without another Schedule |
| Timers.RepeatingTimer.Install | common/repeating_timer.cc:46-73 | SchedulePeriodic arms the timer as the protocol does and posts with a delay that reaches the first due time |
| Timers.RepeatingTimer.CancelHelper | common/repeating_timer.cc:91-105 | cancels at once on the timer's own loop, posts to it from elsewhere, else has nothing to wait for |
| Timers.RepeatingTimer.CancelClosure | common/repeating_timer.cc:108-115 | clears all fields of the schedule |
| Timers.RepeatingTimer.RunTask | common/repeating_timer.cc:124-157 | takes the protocol's start step: which task runs, the advanced expected time and the next delay |
| Timers.OnceTimer.Install | common/once_timer.cc:35-64 | Schedule arms the timer as the protocol does and posts with a delay that reaches the due time |
| Timers.OnceTimer.CancelHelper | common/once_timer.cc:81-95 | cancels at once on the timer's own loop, posts to it from elsewhere, else has nothing to wait for |
| Timers.OnceTimer.CancelClosure | common/once_timer.cc:98-104 | clears the schedule and keeps the closure |
| Timers.OnceTimer.StartTask | common/once_timer.cc:113-123 | disarms the timer and hands out the task before it is run |
| Timers.OnceTimer.FinishTask | common/once_timer.cc:124-125 | forgets the thread once the task has returned |
| LoopThread.RunInPhase | common/message_loop_thread.cc:43-116 | in every interleaving of StartUp, ShutDown, DoInThread and the worker, the log is a prefix of created, entered, left, joined, deleted for workers 0, 1, 2, ..., and the fields fit its length |
| LoopThread.PostedWhileLooping | common/message_loop_thread.cc:64-81 | in every run each task that DoInThread got accepted went to a worker that had entered Run and not left it |
| LoopThread.EachEventOnce | common/message_loop_thread.cc:83-116 | each worker is created, entered, left, joined and deleted at most once |
| LoopThread.DeletedAfterJoined | common/message_loop_thread.cc:83-116 | a thread object is deleted only after its worker left Run and was joined, and the next is created only after that |
| LoopThread.AtMostOneWorker | common/message_loop_thread.cc:43-57 | at most one worker is unfinished, and it is the one the fields name |
| LoopThread.FieldsAgree | common/message_loop_thread.cc:172-199 | without a thread all fields are initial; message loop, run loop and thread id are set exactly while a worker is inside Run |
| LoopThread.ShutDownOwnsTheThread | common/message_loop_thread.cc:83-116 | at most one ShutDown is past its first section, and it joins and deletes the very thread that is stored |
| LoopThread.StartUpStarts | common/message_loop_thread.cc:43-57 | from every state without a thread StartUp brings a loop up; with one it does nothing |
| LoopThread.ShutDownStops | common/message_loop_thread.cc:83-116 | from every state with a running loop and no ShutDown under way, ShutDown can come to its end, and then all fields are as at the beginning |
| LoopThread.ShutDownRefused | common/message_loop_thread.cc:84-98 | without a running loop, or with a ShutDown under way, ShutDown does nothing |
| LoopThread.PostsToRunningLoop | common/message_loop_thread.cc:64-81 | a task is posted if and only if there is a running loop and it accepts |
| LoopThread.MessageLoopThread.StartUp | common/message_loop_thread.cc:43-57 | spawns a worker exactly when there is no thread |
| LoopThread.MessageLoopThread.DoInThread | common/message_loop_thread.cc:64-81 | takes the posting step of the system, for which `PostedWhileLooping` holds, and returns true exactly when that step posts |
| LoopThread.MessageLoopThread.BeginShutDown | common/message_loop_thread.cc:84-108 | the first locked section: whether this call goes on to join |
| LoopThread.MessageLoopThread.EndShutDown | common/message_loop_thread.cc:110-115 | the last locked section |
| LoopThread.MessageLoopThread.EnterRun | common/message_loop_thread.cc:172-183 | the worker sets the three loop fields together |
| LoopThread.MessageLoopThread.LeaveRun | common/message_loop_thread.cc:188-198 | the worker clears the three loop fields together |
| Indications.RunRecorded | service/gatt_server.cc:196-235 | in every run and for any HAL results, each event is admissible after its past, and the pending map is what the log leaves outstanding |
| Indications.OneOutstandingPerConnection | service/gatt_server.cc:201-227 | two indications on one connection id are separated by a confirmation from it |
| Indications.FiresAtMostOnce | service/gatt_server.cc:508-530 | the callback of one SendNotification runs at most once |
| Indications.FiresAtLastConfirmation | service/gatt_server.cc:508-530 | a confirmation is followed by the callback if and only if it empties the set of connections and there is a callback; the callback gets no error if and only if some confirmation succeeded, and else the last status |
| Indications.FiresOnlyAfterConfirmation | service/gatt_server.cc:508-530 | a callback runs at no other point |
| Indications.FailedCallNeverFires | service/gatt_server.cc:229-235 | a call that returned false sent nothing and its callback never runs |
| Indications.NoHolders | service/gatt_server.cc:524-525 | a reference count of one means no connection waits any more |
| Indications.NotifyReaches | service/gatt_server.cc:196-235 | a notification becomes pending on exactly those connections of the device that have nothing pending and on which the HAL accepts it, under the number of the call; the call returns true if and only if there is one |
| Indications.ConfirmTakes | service/gatt_server.cc:508-522 | a confirmation takes its connection, and no other, off the pending ones; an unexpected one changes nothing |
| Registry.RunFiled | service/gatt_server.cc:238-286 | in every reachable state each connection of the id index is filed under its own address, once |
| Registry.DisconnectAgrees | service/gatt_server.cc:250-269 | a disconnect keeps the two indexes equal if and only if the connection is unknown or the address reported is the one it was opened with |
| Registry.HonestRunAgrees | service/gatt_server.cc:238-286 | if every disconnect reports that address, the two indexes always hold the same connections |
| Registry.OneDevicePerList | service/gatt_server.cc:280-282 | no two devices share a list of the address index |
| Registry.AnsweredOnceAsReceived | service/gatt_server.cc:124-171 | every successful response answers an accepted request that needed one, on its connection, with the handle recorded on arrival and to that connection's address, and it is the first to do so |
| Registry.AnsweredAtMostOnce | service/gatt_server.cc:124-171 | between two answers under one id on one connection another request arrives |
| Registry.WriteWithoutResponseUnanswered | service/gatt_server.cc:397-434 | an answer under the id of a write without response is that of a request that arrived after it |
| Registry.FoundAsPrinted | service/gatt_server.cc:124-129 | a device with connections is found under an accepted address of its own if and only if the address is written as the stack prints it |
| Registry.LowerCaseNotFound | service/gatt_server.cc:124-129 | a connected device, an accepted lower-case form of its address, and no response possible under it |
| Registry.WrongAddressBreaksIndexes | service/gatt_server.cc:250-269 | a run whose disconnect reports another address and leaves the indexes unequal |
| Registry.NeverOverwritten | service/gatt_server.cc:536-559 | of two accepted requests under one id on one connection the first is answered before the second arrives |
| Registry.ConnectFiles | service/gatt_server.cc:272-286 | a new id gets a connection without requests, known by its id and last in the list of its address; a known id changes nothing |
| Registry.DisconnectForgets | service/gatt_server.cc:250-269 | a disconnect forgets its id and no other, touches only the list of the address reported, and takes nothing from it but a connection of that id |
| Registry.RequestBecomesPending | service/gatt_server.cc:330-506 | an accepted request becomes pending on its connection if and only if it needs a response, with its own handle, and no other request changes; a request that is not accepted changes nothing |
| Registry.NoResponseNoTarget | service/gatt_server.cc:397-434 | what can be answered after a write without response, on any address, is what could be answered before |
| Registry.UnaskedUnanswered | service/gatt_server.cc:104-172 | a request that is not pending, such as a write without response that has just come in, is never answered before one under its id that needs a response is accepted on its connection |
| Registry.ResponseAnswersPending | service/gatt_server.cc:104-172 | a response reaches the HAL if and only if the address is well-formed and known, the value fits and the request is pending under that address; it answers on the last such connection with the handle recorded there, and the request stays pending exactly when the HAL refuses |
| GattServers.GattServer.ConnectionCallback | service/gatt_server.cc:238-286 | the two maps of shared connections take the registry's connect or disconnect step |
| GattServers.GattServer.Connected | service/gatt_server.cc:272-286 | one new connection object enters both maps, unless its id is known |
| GattServers.GattServer.Disconnected | service/gatt_server.cc:250-269 | the id is erased, and the first connection with it from the list of the address reported |
| GattServers.GattServer.GetConnection | service/gatt_server.cc:536-559 | finds the connection of an id with the right address and no such request pending |
| GattServers.GattServer.RequestCallback | service/gatt_server.cc:330-506 | takes the request step of the registry, of which `Registry.RequestBecomesPending` says that it records the handle exactly when a response is needed and the connection is found |
| GattServers.GattServer.FindPending | service/gatt_server.cc:131-138 | the loop ends with the last connection of the list on which the request is pending |
| GattServers.GattServer.SendResponse | service/gatt_server.cc:104-172 | what is handed to the HAL, error code included, for which connection, and that the request is forgotten exactly when the HAL accepts |
| GattServers.GattServer.SendNotification | service/gatt_server.cc:174-236 | takes the notification step over the device's connections, of which `Indications.NotifyReaches` says whom it reaches, and returns whether any indication is outstanding, with reference counts equal to the number of holders |
| GattServers.GattServer.SendTo | service/gatt_server.cc:201-227 | one turn of the sending loop |
| GattServers.GattServer.TakeIndication | service/gatt_server.cc:513-522 | the connection's pointer is dropped and a success is noted |
| GattServers.GattServer.FireIfLast | service/gatt_server.cc:524-529 | the test of the reference count calls the callback exactly when no connection waits any more |
| GattServers.GattServer.IndicationSentCallback | service/gatt_server.cc:508-530 | takes the confirmation step, and the callback is called with the value of the step |
| GattServices.Flatten | service/gatt_server.cc:69-88 | the nested loops produce the flat attribute list |
| GattServices.Rebuild | service/gatt_server.cc:300-317 | the loop over returned elements builds the service |
| GattServices.RebuildFlattened | service/gatt_server.cc:59-102 | with any handles assigned in order, rebuilding the flattened service recovers characteristics, uuids, properties, permissions and nested descriptors, and puts each handle on its own attribute |
| GattServices.FlatTells | service/gatt_server.cc:59-88 | the list starts with the service, primary or secondary as asked, goes on with characteristics and descriptors, and ends with the handles of the included services in order |
| AtCommands.StrUcmp | bta/sys/utl.cc:79-99 | zero exactly when the name is a prefix of the line regardless of case |
| AtCommands.Str2Int | bta/sys/utl.cc:43-64 | the value of a decimal number that fits 16 bits, else -1 |
| AtCommands.ClassifyByChar | bta/ag/bta_ag_at.cc:102-127 | the character tests sort arguments into none, read, test, set and free form, as `AtCommands.InterpretsLine` says of whole lines |
| AtCommands.ProcessAt | bta/ag/bta_ag_at.cc:80-159 | exactly one callback: that of the first matching entry with its argument, or an error |
| AtCommands.InterpretsLine | bta/ag/bta_ag_at.cc:85-153 | for a line that starts with a command: nothing more calls the plain form, ? reads, =? tests, = with other text sets, anything else is free form, each if the table allows it |
| AtCommands.ReportsUnknownLine | bta/ag/bta_ag_at.cc:155-159 | a line that starts with no command of the table is reported with its text |
| AtCommands.InterpretsNumber | bta/ag/bta_ag_at.cc:129-148 | setting an integer command calls it exactly when the text is a decimal number that fits 16 bits and the range of the table, or is no such number and the range holds -1 |
| AtCommands.NumeralReadBack | bta/sys/utl.cc:43-64 | a number printed in decimal, after any blanks, is read back if and only if it fits 16 bits |
| AtParsers.AtParser.ParseChar | bta/ag/bta_ag_at.cc:184-213 | one character moves the buffer and the callbacks as the model says, within the buffer |
| AtParsers.AtParser.Parse | bta/ag/bta_ag_at.cc:173-218 | the nested loops terminate and parse the whole input, from a missing or partly filled buffer |
| AtParsers.ChunksDoNotMatter | bta/ag/bta_ag_at.cc:173-218 | parsing a then b gives the same callbacks and the same buffer as parsing a + b, also when the buffer fills at the cut |
| AtParsers.ParseChunks | bta/ag/bta_ag_at.cc:173-218 | parsing any chunks one by one is parsing their concatenation |
| AtParsers.ParsesSegments | bta/ag/bta_ag_at.cc:182-217 | for all inputs the callbacks are those of the terminated segments, in order, each from what an overflowing buffer kept of it |
| AtParsers.RefinesLineSplitter | bta/ag/bta_ag_at.cc:182-217 | if no line is longer than the buffer allows: one callback per line that starts with AT and has more, one error per abort character, nothing else |
| AtParsers.CutSpellsInput | bta/ag/bta_ag_at.cc:182-217 | the segments and the tail spell the input |
| AtParsers.CutsAtEnds | bta/ag/bta_ag_at.cc:184-217 | the input is cut at each carriage return, line feed and abort character, and nowhere else |
| LeakyQueues.LastOfLast | common/leaky_bonded_queue.h:103-110 | a bounded queue that drops early keeps exactly the last items of its whole history |
| LeakyQueues.LeakyBondedQueue.Enqueue | common/leaky_bonded_queue.h:103-110 | the queue holds the last `capacity` of its old items and the new one |
| LeakyQueues.LeakyBondedQueue.EnqueueWithPop | common/leaky_bonded_queue.h:113-124 | popped item and queue together are the old queue and the new item |
| LeakyQueues.LeakyBondedQueue.Dequeue | common/leaky_bonded_queue.h:127-132 | item and remaining queue are the old queue |
| LeakyQueues.LeakyBondedQueue.Clear | common/leaky_bonded_queue.h:135-141 | the loop empties the queue |
| A2dpMetrics.A2dpSessionMetrics.Update | common/metrics.cc:92-147 | all eleven fields after one report |
| A2dpMetrics.AverageError | common/metrics.cc:81-119 | after n reports with an average, 0 <= sum(a*c) - A*C <= (n - 1)*C; average and count become set together |
| A2dpMetrics.AverageWithinBounds | common/metrics.cc:81-119 | the stored average lies between any bounds on the averages with a non-zero count |
| A2dpMetrics.DurationIsSum | common/metrics.cc:93-96 | the duration is the sum of the durations reported, and set exactly when one was |
| A2dpMetrics.TimerExtremes | common/metrics.cc:97-108 | the least and the greatest timer value over the reports that have one |
| A2dpMetrics.OverrunTotals | common/metrics.cc:120-128 | the overruns are the sum of those reported, and the worst count is the greatest reported |
| A2dpMetrics.UnderrunMean | common/metrics.cc:129-140 | over the reals, the underrun average is the exact weighted mean of the reports that have one, and the count their total |
| A2dpMetrics.CodecAndOffload | common/metrics.cc:141-146 | the codec is the first one reported, and offload holds if and only if a report said so |
| MetricsLog.DrainsEverything | common/metrics.cc:499-532 | between dumps the drain loops empty every queue into the log, and the last loop then does nothing |
| MetricsLog.BuildEmits | common/metrics.cc:499-546 | between dumps the loops of Build together move every queue to the log and list the headset counts |
| MetricsLog.RunRefines | common/metrics.cc:293-466 | after any run the bounded logger holds the last events, the true counts and the summary of the live session of the whole history |
| MetricsLog.DumpReportsHistory | common/metrics.cc:455-465 | a dump emits of each kind exactly the last min(n, capacity) events in order with count n, and leaves queues and log empty |
| MetricsLog.DumpTellsSessions | common/metrics.cc:366-435 | after any run, each dumped session shows the technology, device, reason and whole seconds of the session it stands for, and in each audio field the sum, extreme, mean or first value of that field over its reports |
| MetricsLog.DumpTellsEvents | common/metrics.cc:293-348 | after any run, the dumped events are the last 50 pairings, 1000 wake locks and 50 scans since the last dump, with the number there were of each |
| MetricsLog.DumpTellsHeadsets | common/metrics.cc:437-453 | after any run, the dumped headset statistics are exactly the profiles that connected, with the number of times |
| MetricsLog.LastLoopIdle | common/metrics.cc:527-532 | the loop that tests the session queue but pops the wake queue never runs its body |
| MetricsLog.HistoryIsComplete | common/metrics.cc:293-348 | between dumps the history is the one before and all events since, in order |
| MetricsLog.ReportsPartitioned | common/metrics.cc:350-420 | however sessions start, end, restart, are reset and are cut off, each audio report goes to exactly one session, in order |
| MetricsLog.DurationConserved | common/metrics.cc:484-497 | the durations shown by all ended sessions, those of sessions dropped by a reset and the live one add up to the durations reported |
| MetricsLoggers.Drain | common/metrics.cc:503-508 | one drain loop moves items until the queue is empty or the list is past the capacity |
| MetricsLoggers.BluetoothMetricsLogger.LogPairEvent | common/metrics.cc:293-309 | the event is queued and counted |
| MetricsLoggers.BluetoothMetricsLogger.LogWakeEvent | common/metrics.cc:311-326 | the event is queued and counted |
| MetricsLoggers.BluetoothMetricsLogger.LogScanEvent | common/metrics.cc:328-348 | the event is queued and counted |
| MetricsLoggers.BluetoothMetricsLogger.LogBluetoothSessionStart | common/metrics.cc:350-364 | a live session is ended first; a zero timestamp asks for the clock |
| MetricsLoggers.BluetoothMetricsLogger.LogBluetoothSessionEnd | common/metrics.cc:366-388 | a live session gets its duration and reason and is queued and counted |
| MetricsLoggers.BluetoothMetricsLogger.LogBluetoothSessionDeviceInfo | common/metrics.cc:390-399 | a session is created if there is none; the device is recorded as BR/EDR |
| MetricsLoggers.BluetoothMetricsLogger.LogA2dpSession | common/metrics.cc:401-435 | the report is taken into the totals, which the session shows |
| MetricsLoggers.BluetoothMetricsLogger.LogHeadsetProfileRfcConnection | common/metrics.cc:437-453 | the profile's count goes up by one |
| MetricsLoggers.BluetoothMetricsLogger.CutoffSession | common/metrics.cc:484-497 | the live session is ended and continued without its audio part |
| MetricsLoggers.BluetoothMetricsLogger.DrainWakesAgain | common/metrics.cc:527-532 | the last loop, where it is defined |
| MetricsLoggers.BluetoothMetricsLogger.ListHeadsets | common/metrics.cc:533-545 | profiles that connected are listed with their counts, which are cleared |
| MetricsLoggers.BluetoothMetricsLogger.Build | common/metrics.cc:499-546 | cut-off, drain loops and headset loop in order |
| MetricsLoggers.BluetoothMetricsLogger.WriteString | common/metrics.cc:455-465 | hands out the report and clears the log |
| MetricsLoggers.BluetoothMetricsLogger.Reset | common/metrics.cc:548-570 | clears session, log and queues, but not the headset counts |
| Blobs.FetchReassembles | service/gatt_server_old.cc:207-242 | whatever pieces are read and whatever values are set meanwhile, a client stepping through the sections holds a prefix of the one value its fresh read took over; when done it holds exactly that value if and only if it has at most 256 * 512 bytes |
| Blobs.SetIsFetched | service/gatt_server_old.cc:700-706 | a fetch that begins after a value was set gets that value, whatever was there before and is set later |
| Blobs.FetchCanFinish | service/gatt_server_old.cc:216-242 | every fetch past its fresh read can be completed |
| Blobs.PreparedAppends | service/gatt_server_old.cc:263-288 | consecutive prepared writes append to what lies before the first and change nothing else of the attribute |
| Blobs.WritesReadBack | service/gatt_server_old.cc:250-327 | a read from the start of prepared writes answers the selected section of their concatenation if and only if it does not latch a pending value that begins differently, and executing them announces the attribute once |
| Blobs.WaitingValueHidesWrite | service/gatt_server_old.cc:214-220 | a value set before a write is what the next read answers |
| Blobs.WriteStores | service/gatt_server_old.cc:250-288 | a write keeps what lies before its offset, fills a gap with zeros and ends the value with the bytes written, and changes nothing else of the attribute |
| Blobs.WriteTells | service/gatt_server_old.cc:250-288 | a write that leaves a control attribute one byte long selects that section of its target and announces nothing; any other is announced at once, or remembered when prepared; no other attribute changes |
| Blobs.BlobsAssociated | service/gatt_server_old.cc:635-656 | whatever distinct handles the service gets, each blob's control attribute steers that blob's value attribute and starts as a readable zero |
| Blobs.OnlyBlobsAssociated | service/gatt_server_old.cc:162-187 | no other attribute steers anything |
| Blobs.DeclaredBlobIsFiled | service/gatt_server_old.cc:143-196 | the identifier of a declared blob leads to its value attribute, which the attribute declared with it controls |
| Blobs.DeclaredBlobIsFetched | service/gatt_server_old.cc:143-242 | declare any characteristics and blobs, file the handles assigned, set a blob by its identifier and read it through its control: a client that is done holds the value set if and only if 256 sections are enough |
| BlobServers.BlobServer.AddBlob | service/gatt_server_old.cc:635-656 | value and control are declared next to each other and the control's position is remembered |
| BlobServers.BlobServer.AddCharacteristic | service/gatt_server_old.cc:502-510 | one characteristic is declared |
| BlobServers.BlobServer.ServiceAdded | service/gatt_server_old.cc:143-196 | the loop files every characteristic of the returned service |
| BlobServers.BlobServer.RequestRead | service/gatt_server_old.cc:207-248 | latching, and the part of the section's window from the offset on, never more than 512 bytes |
| BlobServers.BlobServer.RequestWrite | service/gatt_server_old.cc:250-288 | resizing, overwriting, and selecting a section through a control attribute |
| BlobServers.BlobServer.RequestExecWrite | service/gatt_server_old.cc:306-327 | executing announces the attribute written last |
| BlobServers.BlobServer.SetCharacteristicValue | service/gatt_server_old.cc:700-706 | the value waits for the next fresh read |
| A2dpStream.RunConsistent | audio_a2dp_hw/src/audio_a2dp_hw.cc:833-911 | whenever the lock is free: STARTED has the data socket open, SUSPENDED, STANDBY and STOPPED have it closed, and sockets opened and shut balance |
| A2dpStream.NoStartAfterClosing | audio_a2dp_hw/src/audio_a2dp_hw.cc:1177-1180 | after closing=true no START is ever sent, even when a write fails while unlocked |
| A2dpStream.ClosingSilences | audio_a2dp_hw/src/audio_a2dp_hw.cc:1160-1195 | once parameters with closing=true are set, whatever else they hold and whatever the stream was doing, neither that call nor anything after it sends START |
| A2dpStream.NoStartWhileSuspended | audio_a2dp_hw/src/audio_a2dp_hw.cc:927-972 | after a suspension no START is sent before a set_parameters call resumes the stream |
| A2dpStream.SuspendSilences | audio_a2dp_hw/src/audio_a2dp_hw.cc:1160-1195 | once A2dpSuspended=true has suspended a started stream, no START is sent until parameters without it are set |
| A2dpStream.StartsUnlessStopping | audio_a2dp_hw/src/audio_a2dp_hw.cc:927-943 | in every run an open stream can be started again if and only if it is not stopping |
| A2dpStream.WriteBegins | audio_a2dp_hw/src/audio_a2dp_hw.cc:927-943 | a write starts an idle stream if stack and socket let it, goes on to send exactly when the stream is started then, and starts nothing else |
| A2dpStream.WriteEnds | audio_a2dp_hw/src/audio_a2dp_hw.cc:958-972 | a failed send closes the socket and stops the stream unless it is suspended or stopping; a successful one changes nothing |
| A2dpStream.StandbyReleases | audio_a2dp_hw/src/audio_a2dp_hw.cc:1139-1152 | standing by releases the socket of any stream that is not suspended or stopping, if the stack agrees |
| A2dpStream.ParametersTell | audio_a2dp_hw/src/audio_a2dp_hw.cc:1160-1195 | closing stops any stream, A2dpSuspended=true suspends a started one if the stack agrees, and anything else resumes a suspended one |
| A2dpStream.FreedLeavesSocket | audio_a2dp_hw/src/audio_a2dp_hw.cc:1678-1706 | closing the stream leaves a data socket open if and only if there is one and the stack refuses to stop |
| A2dpStream.SocketLeftOpen | audio_a2dp_hw/src/audio_a2dp_hw.cc:1678-1706 | a run that ends so |
| A2dpStreams.OutputStream.StartAudioDatapath | audio_a2dp_hw/src/audio_a2dp_hw.cc:833-866 | new state, socket and status for every answer of the stack and of the connect |
| A2dpStreams.OutputStream.StopAudioDatapath | audio_a2dp_hw/src/audio_a2dp_hw.cc:868-890 | stops and disconnects, or restores the state |
| A2dpStreams.OutputStream.SuspendAudioDatapath | audio_a2dp_hw/src/audio_a2dp_hw.cc:892-911 | refused while stopping; else suspends or stands by and disconnects |
| A2dpStreams.OutputStream.BeginOutWrite | audio_a2dp_hw/src/audio_a2dp_hw.cc:927-943 | starts only from stopped or standby, and sends only when started |
| A2dpStreams.OutputStream.EndOutWrite | audio_a2dp_hw/src/audio_a2dp_hw.cc:958-972 | a failed send disconnects and stops, unless suspended or stopping |
| A2dpStreams.OutputStream.OutStandby | audio_a2dp_hw/src/audio_a2dp_hw.cc:1139-1152 | does nothing while suspended |
| A2dpStreams.OutputStream.OutSetParameters | audio_a2dp_hw/src/audio_a2dp_hw.cc:1160-1195 | takes the step of which `A2dpStream.ParametersTell` says how it closes, suspends and resumes; no parameters do nothing |
| A2dpStreams.OutputStream.CloseOutputStream | audio_a2dp_hw/src/audio_a2dp_hw.cc:1678-1703 | stops from started or stopping, and frees the stream in any case |
| Downmix.StereoToMono | audio_a2dp_hw/src/audio_a2dp_hw.cc:946-953 | in place, position i becomes the rounded-down average of the original samples 2i and 2i + 1; the rest of the buffer is unchanged |
| Downmix.Mix | audio_a2dp_hw/src/audio_a2dp_hw.cc:950-952 | the result lies between its two inputs, so it fits 16 bits |
| Addresses.FromString | types/raw_address.cc:42-63 | accepts and stores exactly what the specification says |
| Addresses.PrintedIsParsed | types/raw_address.cc:36-63 | parsing either printed form of any address gives it back |
| Addresses.ParsedIsPrinted | types/raw_address.cc:36-63 | printing a parsed string gives its lower case if and only if all its pieces are hexadecimal digits |
| Addresses.SignNotPrintedBack | types/raw_address.cc:52-60 | addresses with a sign, accepted and not printed back |
| Addresses.BtAddrStringInjective | service/logging_helpers.cc:143-149 | two devices never share a printed address |
| DeviceClasses.FromString | types/class_of_device.cc:40-68 | accepts and stores exactly what the specification says |
| DeviceClasses.PrintedIsParsed | types/class_of_device.cc:34-68 | parsing the printed form of any class of device gives it back |
| DeviceClasses.StrtolRoundTrip | types/class_of_device.cc:34-68 | the same with strtol as the reader of the tokens |
| DeviceClasses.ParsedIsPrinted | types/class_of_device.cc:34-68 | printing a parsed string gives its lower case if and only if all its pieces are hexadecimal digits |
| DeviceClasses.PrefixNotPrintedBack | types/class_of_device.cc:50-60 | 0x1-2-03 is accepted and not printed back |
| AudioParams.ParseAudioParams | audio_bluetooth_hw/utils.cc:33-49 | the loop over segments gives the map of the specification |
| AudioParams.Print | audio_bluetooth_hw/stream_apis.cc:331-334 | the loop prints every entry once, in some order of the keys |
| AudioParams.ParsePrinted | audio_bluetooth_hw/utils.cc:33-49 | in whatever order a map is printed, parsing gives it back if and only if keys are non-empty and keys and values contain no separator |
| AudioParams.ParsedLookup | audio_bluetooth_hw/utils.cc:33-49 | a key is found with a value if and only if some segment is that key, or key=value, and no later segment sets the key |
| AudioParams.SeparatorNotParsedBack | audio_bluetooth_hw/utils.cc:33-49 | a map with a separator in a value, not parsed back |

## Where the code differs from what one might expect

* `SendResponse` and `SendNotification` accept an address in any case, but look it up among keys printed in
  upper case: a device is found only under an address written exactly so (`FoundAsPrinted`).
* `RawAddress::FromString` and `ClassOfDevice::FromString` accept signs, a NUL and `0x` where `strtol` does;
  these are the strings that are not printed back (`SignNotPrintedBack`, `PrefixNotPrintedBack`).
* A disconnect that reports another address than its connection was opened with leaves the connection in the
  address index only (`WrongAddressBreaksIndexes`); `DisconnectAgrees` gives the exact condition.
* `out_set_parameters` resumes a suspended stream for any parameters that lack `A2dpSuspended=true`.
* A OnceTimer that its own task schedules again on the loop the task runs on never starts that task, although
  Schedule returned true (`SelfScheduleIsLost`); on another loop the new task can start before the old one
  returns, and is silenced if it has not. `OnceScheduleKept` gives the exact condition.
* `Reset` of the metrics logger keeps the headset counts.
* Closing an output stream whose STOP command fails leaves its data socket open (`SocketLeftOpen`).

## Left out

- The HAL, sockets, the clock, protobuf serialisation, logging and the delegates: their results are arguments, their calls are events or return values.
- libchrome: a message loop may take any posted closure that is due, of which posting order is a special case; memory ordering is not modelled.
- TimerSafety.StartedWasScheduled: safety only; that a scheduled task can start is what `OnceScheduleKept` and the theorems of `TimerProgress` state; that a loop gets round to it is up to libchrome.
- Indications.FiresAtLastConfirmation: says nothing about confirmations that never come, because a disconnect does not clear the pending indications.
- GattServices.RebuildFlattened: included services and the primary flag are not restored by the source.
- GattServers.GattServer.SendResponse: offsets are taken to be non-negative, as the attribute protocol sends them.
- GattServers.GattServer.RequestCallback: one method for the five request callbacks, which differ in the delegate they call.
- AtParsers.AtParser.Parse: callbacks are recorded as events and do not touch the parser.
- A2dpMetrics.A2dpSessionMetrics.Update: the floating-point average of underruns is taken over the reals, and integer widths are unbounded; no claim is made about rounding or overflow.
- MetricsLog.DumpReportsHistory: calls are sequential; the logger's locks and the 32-bit and 64-bit counters are not modelled.
- The mapping of C enumerations to protobuf ones in the metrics logger: events carry the mapped values.
- BlobServers.BlobServer.SetCharacteristicValue: the indication sent to each connection is not modelled.
- Blobs.FetchReassembles: while a client fetches, nobody else writes or steers the blob or starts a fresh read that latches a new value of it; other reads and all new values are allowed.
- A2dpStreams.OutputStream.CloseOutputStream: a stream is not closed while a write is sending, which would touch freed memory.
- A2dpStreams.OutputStream.BeginOutWrite: the frame counters and the emulated write delay are not modelled.
- a2dp_command: its retries and acknowledgement bytes are summed up as success, failure or in-call failure.
- The GATT client, advertiser, scanner, adapter, AVRCP, daemon, settings and the other profiles: most of them forward calls to the HAL and keep little state of their own.
