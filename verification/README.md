# A verified model of the BDB message store

bdbmsgstore keeps the messages of a Qpid broker in Berkeley DB journals. It is a
write-behind store: `enqueue` and `dequeue` append a start record to an operation
log and hand the work to a thread pool; a worker changes the journal and appends a
complete record. A tracker keeps deletions behind puts and lets a dequeue cancel an
enqueue that has not run. Two cleaners compact the logs while they are written.
After a crash, recovery replays both logs, reconciles them with the journals and
hands the messages back to the broker.

The project models that protocol and proves what it keeps.

* `Records`, `Replay`, `OperationLog`, `AsyncOperationLogger`: log records, their
  replay, one log with two alternating files, its writers and its cleaner, and the
  object that owns it.
* `Codec`, `Extraction`: the bytes of the records and the loop that reads a file
  into nested maps.
* `Watermark`, `Tracker` (`PidTracker.dfy`): the contiguous watermark with its
  32-bit comparison, and the tracker object.
* `Journal`: the sharded journal. `Content`: the stored form of a message.
  `IdSequence`: persistence ids. `QueueMaps`: maps nested by queue and id.
* `ThreadPool`: the pool core. `StorePool`: the pool of store tasks in the protocol
  is such a pool.
* `Recovery`, `RecoveryTheorems`, `RecoverStore`: `decodeAndRecoverMsg`,
  `recoverMessages`, and what they promise.
* `Protocol`, `ProtocolInvariant`, `Once`: all threads as one state machine, whose
  steps are the sections under a mutex, the journal transactions, the log appends and
  the notifications; and the invariants that every step keeps.
* `Crash`, `Checks`, `Progress`, `Drain`, `Schedules`, `Refinement`, `Broker`: the
  theorems over whole runs. `Restart` joins a run to the recovery of the objects,
  `Messages` to the bytes of the messages.
* `Repeats`, `NextEpoch`: runs in which a promise is not kept.

A run starts from the empty store and interleaves any number of calls, both pools
and both cleaners; the crash may fall between any two steps. That steps are the right
grain for appends is proved in `Extraction.CrashBetweenRecords`.

## What holds, and what does not

* **No loss** does not hold at every crash point. The cleaner removes the old log
  file before it renames the new one; in between, the pending starts are in a file
  that recovery does not read. `Crash.LossHappens` is such a run. `Crash.NoLossIff`
  states that a logged and not dequeued message comes back if and only if it is not
  in that gap without being in the journal yet. The start-up code has the same
  weakness: it removes the first file before it reads the second one
  (`AsyncOperationLogger.CrashBetweenFilesIff`), and both before it logs the pending
  starts again (`AsyncOperationLogger.CrashInRecovery`).
* **Redelivery** after a dequeue happens in exactly three windows, given by program
  counters and the state of the cleaners (`Crash.RedeliveryIff`); all three are
  reached, in `Crash.RedeliveryHappens`, `Crash.CleanerRedelivers` and
  `Crash.DequeueCleanerRedelivers`. `Crash.CrashIsExact` covers every state of every
  message, and `Restart.RestartAfter` says the same of the journals, the two loggers
  and `recoverMessages` as objects. A fourth window lies in recovery: it logs the completes of dequeues before
  it discards their messages, and a crash in between hands these over again
  (`RecoveryTheorems.CrashBeforeDiscards`).
* **Ten look-ups** are enough as long as the tasks of the queue are scheduled in the
  order of the ids and there are not more than ten workers and enqueues held back by
  the cleaner together (`Checks.TenChecksSuffice`, and `Checks.TwoWorkersSuffice` for
  the default configuration); exactly which message is handed
  over twice is in `Checks.HandedTwiceIff`. Both conditions are needed:
  `Repeats.OutOfOrderRepeats` and `Repeats.InOrderRepeats` are runs with one worker.
* **Fresh ids** hold for messages (`RecoverStore.FreshForMessages`); for dequeues that
  are scheduled again they hold if and only if the crash left no uncancelled dequeue
  with an id beyond all those in the journals and in the enqueues that are kept
  (`RecoverStore.FreshForDequeuesIff`); `NextEpoch.StaleDequeue` is a run after which
  there is one.
* **Every call** that the broker may make is taken, in every state and in any order
  (`Broker.EveryCallIsTaken`), and no others (`Broker.CallsIff`).
* **Messages** come back with the header and content they were enqueued with
  (`Messages.BackAsEnqueued`). Content can be read back in pieces, whatever it is, if
  and only if preamble and header are shorter than 2^32 bytes
  (`Content.AlwaysServesIff`).
* **Deletions never precede puts, nothing deadlocks**, and the cancelling of pairs
  cannot be seen from outside (`Progress.DeleteAfterPut`, `Drain.NoDeadlock`,
  `Refinement.SameCallsSameJournal`). Whatever the order of the threads, every schedule
  without new calls ends (`Schedules.EveryScheduleEnds`), and where it ends everything
  is at rest (`Schedules.ScheduleEndsAtRest`). After a recovery the first of these is no longer
  ensured: the watermark is set to the highest id in any journal
  (`RecoverStore.NotWaitedForIff`), which can be beyond enqueues that are scheduled
  again (`NextEpoch.EarlyWatermark`).

## Model

| member | source | states |
|---|---|---|
| `Crash.CrashIsExact` | lib/BdbStoreProvider.cpp:1294-1385 | After every run, for every operation: recovery hands the message back if and only if it is not transient and in one of the listed states, and then it is the message that was enqueued |
| `Restart.RestartAfter` | lib/BdbStoreProvider.cpp:1559-1723 | Given the journals and the two loggers as any run leaves them, recoverMessages hands over from every queue exactly the expected messages, unchanged |
| `Restart.EveryQueueBack` | lib/BdbStoreProvider.cpp:1581-1606 | Whatever passes recovery makes over the queues after a run, each gives exactly the messages that are expected back from it |
| `Crash.NoLossIff` | lib/BdbStoreProvider.cpp:1965-2221 | A logged, not dequeued, persistent message comes back unless its start is only in the cleaner's temporary file and it is not in the journal yet; then it does not |
| `Crash.LossHappens` | lib/AsyncOperationLogger.cpp:413-416 | A run in which a message whose enqueue has returned is lost: the crash falls between removal and renaming of the log file |
| `Crash.RedeliveryIff` | lib/BdbStoreProvider.cpp:1365-1377 | A message whose dequeue has returned comes back if and only if the crash fell between its put and its complete record, before its dropped complete was logged again while no deletion or its record was in the way, or while the start of its dequeue was only in the temporary file |
| `Crash.RedeliveryHappens` | lib/BdbStoreProvider.cpp:1890-1896 | A run in which a dequeued message comes back because its complete record is not written yet, with any configuration |
| `Crash.CleanerRedelivers` | lib/AsyncOperationLogger.cpp:414-424 | A run in which a message with both operations complete comes back after two turns of the cleaner |
| `Crash.DequeueCleanerRedelivers` | lib/AsyncOperationLogger.cpp:478-482 | A run in which a message that is stored, logged and dequeued comes back because the start of its dequeue is only in the temporary file |
| `Crash.NothingInvented` | lib/BdbStoreProvider.cpp:1965-2221 | Whatever recovery hands over was enqueued on that queue with that message, and its start was logged |
| `Crash.ReturnsIff` | lib/BdbStoreProvider.cpp:1994-2202 | The reconciliation formula for one operation: journal or enqueue log if no dequeue is pending, both if one is |
| `ProtocolInvariant.StepKeeps` | lib/BdbStoreProvider.cpp:1294-1963 | Every step of enqueue, store, addPid, dequeue, waitForPid, async_dequeue and both cleaners keeps the invariant on journals, logs, tracker, ids and pools |
| `ProtocolInvariant.RunKeeps` | lib/BdbStoreProvider.cpp:1294-1963 | The invariant holds after every run from the empty store |
| `Once.RunOnce` | lib/BdbStoreProvider.cpp:1365-1378 | After every run a dequeue is completed once, and an enqueue too unless its store task and a cancelling dequeue both completed it |
| `Crash.EnqueueReplayed` | lib/AsyncOperationLogger.cpp:631-773 | What recovery finds of an enqueue is decided by program counters and the state of the cleaner, unless it was completed twice |
| `Crash.DequeueReplayed` | lib/AsyncOperationLogger.cpp:497-629 | The same for a dequeue, without exception |
| `Progress.DeleteAfterPut` | lib/PidTracker.cpp:103-159 | Whenever a deletion is about to run, its message is in the journal, its completion is logged, and addPid has taken the duplicate away or added the id of the first enqueue |
| `Progress.NeverAgain` | lib/BdbStoreProvider.cpp:1925-1963 | Once deleted, a message is not in the journal at any later point of the run |
| `Progress.NoLostWakeup` | lib/PidTracker.cpp:35-81 | A sleeper on the duplicates waits for its own store task; a sleeper on the watermark waits for a notification that is due or for the unfinished first enqueue of the next id, whose addPid will advance it |
| `Progress.BoundedAttempts` | lib/PidTracker.cpp:103-159 | After any run an attempt of waitForPid has been woken at most 100 times; the next wake-up queues the deletion again if and only if it was woken exactly 100 times since a thread took it, and otherwise the same test follows with one more wake-up |
| `Progress.TriesAreWakes` | lib/PidTracker.cpp:103-159 | The count an attempt carries through both loops is the number of its wake-ups in the run since a thread took the deletion |
| `Progress.SleepersAre` | lib/PidTracker.cpp:35-159 | For every step: a sleeper is woken by a notification of its condition variable, which wakes all of them, or of its own accord; only a failed test puts anybody to sleep |
| `Progress.Quiescence` | lib/BdbStoreProvider.cpp:1328-1378 | Once all work is finished the journals hold exactly the live messages, both logs replay to nothing, duplicates, pending enqueues and gap are empty and the watermark is the last id |
| `Progress.BothOrNeither` | lib/PidTracker.cpp:160-228 | Put and deletion of a dequeued message are both executed or both skipped |
| `Drain.NoDeadlock` | lib/PidTracker.cpp:35-159 | From every reachable state, with one thread per pool and no new call, a continuation finishes all work, and the journals then hold the messages that were live before |
| `Schedules.EveryScheduleEnds` | lib/PidTracker.cpp:35-159 | Without new calls, in every interleaving, the threads take no more steps than the work that was left allows, and a fixed number for every wake-up without a notification; the cleaners do not count |
| `Schedules.OwnLowers` | lib/BdbStoreProvider.cpp:1877-1963 | Every step of a thread lowers the bound on the steps left, also one that wakes every sleeper |
| `Schedules.StuckIffDone` | lib/PidTracker.cpp:35-159 | In every state that keeps the invariant, with one thread per pool, no thread can go on if and only if every message is stored and every deletion done |
| `Schedules.NeverBlocked` | lib/PidTracker.cpp:103-159 | Only the queues of the pools and the condition variables make anybody wait: whoever is in none of them can go on in every state, and a thread to spare takes the oldest task |
| `Schedules.ScheduleEndsAtRest` | lib/BdbStoreProvider.cpp:1328-1378 | Every schedule without new calls that cannot be continued ends with every operation at rest and the journals holding the messages that were live before |
| `Drain.StoringShrinks` | lib/BdbStoreProvider.cpp:1877-1923 | Every step of an enqueue call or a store task makes the finite set of steps left strictly smaller |
| `Drain.StoringIsPossible` | lib/ext/boost/threadpool/detail/pool_core.hpp:401-445 | While a message is not stored some step towards it is possible: its own, taking a task, or that of a busy worker |
| `Drain.DeletingIsPossible` | lib/BdbStoreProvider.cpp:1925-1963 | Once everything is stored, while a deletion is unfinished some deletion can go on, with the threads of the dequeue pool bounded and its queue in order |
| `Refinement.RunRefines` | lib/BdbStoreProvider.cpp:1294-1385 | After every run the live messages and the next id are those of a plain map on which every call takes effect at once |
| `Refinement.CallsDecide` | lib/BdbStoreProvider.cpp:1294-1385 | That map depends on the calls alone |
| `Refinement.SameCallsSameJournal` | lib/PidTracker.cpp:160-228 | Two runs with the same calls, with or without smart async, leave the same journals at rest |
| `Broker.CallsIff` | lib/BdbStoreProvider.cpp:1294-1385 | The call sequences of runs are exactly those that keep the contract of the broker, which is stated on the calls alone: new messages while there are ids, issued ids on further queues, dequeues of live messages |
| `Broker.EveryCallIsTaken` | lib/BdbStoreProvider.cpp:1294-1385 | After any run, every call the contract allows is taken after some steps of the own threads |
| `Broker.CallEnabledIff` | lib/BdbStoreProvider.cpp:1313-1330 | In any state, with any work under way, a call is taken if and only if the contract allows it and the id window is open for a new message, or the enqueue call has returned for a dequeue |
| `Broker.OpsAreEnqueued` | lib/BdbStoreProvider.cpp:1313-1322 | The operations of a state are those that the calls enqueued |
| `Checks.TenChecksSuffice` | lib/BdbStoreProvider.cpp:2031-2050 | With tasks in id order on the queue, and at most 10 workers and enqueues held back by the cleaner together, recovery hands no message over twice, after any run |
| `Checks.TwoWorkersSuffice` | lib/BdbStoreProvider.cpp:650-650 | With the two workers of the default configuration, tasks in id order and at most eight enqueues held back, no message of the queue is handed over twice |
| `Checks.FewBefore` | lib/ext/boost/threadpool/detail/pool_core.hpp:401-445 | Before a pending enqueue that is already in the journal there are fewer pending ones of its queue than workers and enqueues held back, after any run |
| `Checks.FirstInFirstOut` | lib/ext/boost/threadpool/scheduling_policies.hpp:44-104 | What is scheduled before a task that has left the queue has left it too |
| `Checks.HandedTwiceIff` | lib/BdbStoreProvider.cpp:2031-2050 | After any run a message is handed over twice if and only if it is pending, in the journal and preceded by at least 10 pending ones of its queue |
| `Checks.NoneTwiceIff` | lib/BdbStoreProvider.cpp:2031-2050 | After any run no message of a queue is handed over twice if and only if every pending enqueue in the journal is preceded by fewer than 10 |
| `Repeats.OutOfOrderRepeats` | lib/BdbStoreProvider.cpp:2031-2050 | With one worker and the last of more than ten messages scheduled first, a run in which it is handed over twice |
| `Repeats.InOrderRepeats` | lib/BdbStoreProvider.cpp:2031-2050 | With one worker and tasks in id order, a run in which the dropped completes of ten or more messages use up the look-ups |
| `StorePool.TakeIsEnabled` | lib/ext/boost/threadpool/detail/pool_core.hpp:401-445 | A free thread of a pool that mirrors the protocol finds the guard of the store task true: the bound on running tasks is that of the pool |
| `StorePool.TakeMirrors` | lib/ext/boost/threadpool/detail/pool_core.hpp:433-434 | Taking a store task is taking the oldest task of the pool |
| `StorePool.ScheduleMirrors` | lib/ext/boost/threadpool/detail/pool_core.hpp:182-195 | Scheduling a store task is scheduling it in the pool |
| `StorePool.FinishMirrors` | lib/ext/boost/threadpool/detail/pool_core.hpp:437-444 | The end of a store task is the end of a task of the pool |
| `StorePool.EveryRunHasPool` | lib/ext/boost/threadpool/detail/pool_core.hpp:401-445 | Every run of the protocol is one of a pool with the configured number of threads: step by step an assignment of the running store tasks to threads agrees with it |
| `StorePool.SomeoneIsFree` | lib/ext/boost/threadpool/detail/pool_core.hpp:401-434 | With fewer store tasks running than threads, some thread of the pool has no task |
| `OperationLog.RecoveryIsBounded` | lib/AsyncOperationLogger.cpp:312-363 | After any history of one log, recovery finds exactly the uncompleted operations that are not in the temporary file, with their payloads, and besides them only completed ones from the window |
| `OperationLog.RecoveryIsExact` | lib/AsyncOperationLogger.cpp:312-363 | Outside the two windows recovery finds exactly the started and not completed operations |
| `OperationLog.CleanerIsInvisible` | lib/AsyncOperationLogger.cpp:387-424 | For every interleaving of writers and cleaner, recovery agrees with a replay of all that was on disk and all that was written since, up to the two windows; with the cleaner at rest they are equal |
| `OperationLog.NextKeeps` | lib/AsyncOperationLogger.cpp:453-490 | Every step of writers and cleaner keeps the accounting of records and history |
| `OperationLog.CleanerGoesOn` | lib/AsyncOperationLogger.cpp:387-424 | In every state of a log exactly the next step of the cleaner is possible |
| `OperationLog.ReplaceEffect` | lib/AsyncOperationLogger.cpp:396-415 | Compaction keeps exactly the starts without a complete in the same file and remembers every complete without a start |
| `OperationLog.WindowOpens` | lib/AsyncOperationLogger.cpp:414-424 | Starts in one file and their completes in the other, any number of them: after two turns of the cleaner a crash forgets all completes |
| `OperationLog.SingleIsExact` | lib/AsyncOperationLogger.cpp:312-363 | Of an operation that is completed once, recovery finds exactly what history, window and gap say |
| `OperationLog.RecoveryByFiles` | lib/AsyncOperationLogger.cpp:312-363 | Recovery finds an operation if and only if its start is in one of the two files and its complete in neither |
| `OperationLog.CleanSingle` | lib/AsyncOperationLogger.cpp:387-424 | No step of the cleaner makes a second complete or loses the start of one it keeps |
| `OperationLog.AnyFilesAreValid` | lib/AsyncOperationLogger.cpp:312-363 | Any two files without a repeated start satisfy the accounting, so the theorems apply to them |
| `Replay.ReplayIsExact` | lib/AsyncOperationLogger.cpp:497-629 | The replay gives exactly the starts without a complete, with their payloads, whatever the order |
| `Replay.ReplayIgnoresOrder` | lib/AsyncOperationLogger.cpp:631-773 | Any permutation of records with at most one start per operation gives the same pending map |
| `Replay.LostOnce` | lib/AsyncOperationLogger.cpp:497-629 | With one complete at most, it is lost if and only if it has no start in the file |
| `Replay.ListingReplays` | lib/AsyncOperationLogger.cpp:403-412 | Writing a pending map as start records and replaying them gives the map back |
| `AsyncOperationLogger.CrashInRecovery` | lib/AsyncOperationLogger.cpp:344-360 | A crash after k of the starts have been logged again finds exactly these, so everything only if they are all |
| `AsyncOperationLogger.CrashBetweenFiles` | lib/AsyncOperationLogger.cpp:344-349 | A crash after the first file is removed finds the starts of the second file without a complete in it |
| `AsyncOperationLogger.CrashBetweenFilesIff` | lib/AsyncOperationLogger.cpp:344-349 | That is what recovery would have found of an operation if and only if its start was not in the first file while pending, nor its complete only there |
| `AsyncOperationLogger.CompleteRemoves` | lib/AsyncOperationLogger.cpp:288-310 | With the cleaner at rest a complete record takes exactly its operation from what recovery would find |
| `AsyncOperationLogger.WriteStarts` | lib/AsyncOperationLogger.cpp:353-360 | The loop over the nested maps writes one start per pending operation, in order |
| `AsyncOperationLogger.OperationLogger.LogStart` | lib/AsyncOperationLogger.cpp:260-286 | Appends a start to the active file; keeps the accounting if the operation is new |
| `AsyncOperationLogger.OperationLogger.LogComplete` | lib/AsyncOperationLogger.cpp:288-310 | Appends a complete to the active file and keeps the accounting |
| `AsyncOperationLogger.OperationLogger.LogMassComplete` | lib/AsyncOperationLogger.cpp:164-257 | Takes exactly the listed operations from what recovery would find |
| `AsyncOperationLogger.OperationLogger.Rotate` | lib/AsyncOperationLogger.cpp:387-394 | Switches the writers to the other file |
| `AsyncOperationLogger.OperationLogger.Compact` | lib/AsyncOperationLogger.cpp:395-414 | Replays the idle file, writes its pending starts to a temporary file and removes it |
| `AsyncOperationLogger.OperationLogger.Swap` | lib/AsyncOperationLogger.cpp:415-415 | The temporary file becomes the idle file |
| `AsyncOperationLogger.OperationLogger.RelogLost` | lib/AsyncOperationLogger.cpp:417-424 | Appends all dropped completes and changes nothing of the history |
| `AsyncOperationLogger.OperationLogger.Clean` | lib/AsyncOperationLogger.cpp:387-424 | A whole cycle without interference leaves what recovery would find unchanged |
| `AsyncOperationLogger.OperationLogger.Recover` | lib/AsyncOperationLogger.cpp:312-363 | Returns the replay of both files and leaves a log that replays to the same |
| `Codec.LittleEndianRoundTrip` | lib/AsyncOperationLogger.cpp:786-790 | Numbers that fit the width are read back as they were written |
| `Codec.LittleEndianAt` | lib/AsyncOperationLogger.cpp:786-790 | Byte i of a number is its i-th digit to the base 256 |
| `Codec.EnqueueBytes` | lib/AsyncOperationLogger.cpp:775-804 | The records of the enqueue log byte by byte, opcodes 4 and 5 |
| `Codec.DequeueBytes` | lib/AsyncOperationLogger.cpp:806-824 | The records of the dequeue log byte by byte, opcodes 2 and 3 |
| `Codec.DecodeAppend` | lib/AsyncOperationLogger.cpp:505-626 | Reading goes through any sequence of whole records, whatever follows them |
| `Codec.RoundTrip` | lib/AsyncOperationLogger.cpp:639-773 | Decoding an encoded sequence of records gives it back, for every payload size |
| `Codec.TornTail` | lib/AsyncOperationLogger.cpp:639-773 | Any byte prefix of a file decodes to exactly the records wholly inside it |
| `Codec.WholeIs` | lib/AsyncOperationLogger.cpp:505-626 | The cut lies behind these records and before the end of the next one |
| `Codec.TornAppend` | lib/AsyncOperationLogger.cpp:775-804 | A file with part of one more record decodes to the records before it |
| `Codec.EnqueueFormatIsSound` | lib/AsyncOperationLogger.cpp:775-804 | An enqueue start with a size below 2^64 can be told from what follows, and a torn one is noticed |
| `Codec.DequeueFormatIsSound` | lib/AsyncOperationLogger.cpp:806-824 | The same for the dequeue log |
| `Codec.FillCompletes` | lib/AsyncOperationLogger.cpp:164-243 | The buffer of the mass writers holds the bytes of the single records in sequence |
| `Codec.WriteEnqueueStart` | lib/AsyncOperationLogger.cpp:775-804 | Preamble buffer and message are the encoding of the start record |
| `Codec.WriteDequeueStart` | lib/AsyncOperationLogger.cpp:806-824 | The buffer is the encoding of the start record |
| `Codec.WriteComplete` | lib/AsyncOperationLogger.cpp:140-162 | The buffer is the encoding of the complete record |
| `Extraction.Account` | lib/AsyncOperationLogger.cpp:529-607 | One record changes the nested maps as it changes the flat ones, and no inner map is ever empty |
| `Extraction.Extract` | lib/AsyncOperationLogger.cpp:497-773 | The reading loop computes the replay of the records the file holds, from whatever the maps held before |
| `Extraction.ExtractBoth` | lib/AsyncOperationLogger.cpp:338-349 | Both files with one set of lost completes give the replay of their concatenation |
| `Extraction.CrashBetweenRecords` | lib/AsyncOperationLogger.cpp:775-824 | Whatever part of an append reaches the disk, recovery reads the log as it was before it |
| `Extraction.PendingOrLost` | lib/AsyncOperationLogger.cpp:497-629 | No operation is both pending and lost |
| `Watermark.AddIsExactIff` | lib/PidTracker.cpp:60-77 | Adding any id, new or not, keeps the watermark exact if and only if it is at most the next one or the 32-bit comparison does not take it to be |
| `Watermark.AddIsExact` | lib/PidTracker.cpp:60-77 | For every id less than 2^31 above the watermark, or below it, the watermark stays the largest n with all ids up to n added, and the gap the added ids above it |
| `Watermark.AddNeverFalls` | lib/PidTracker.cpp:61-75 | Whatever the id and the state, the watermark does not fall |
| `Watermark.PassedIdKeepsIff` | lib/PidTracker.cpp:61-75 | An id at or below an exact watermark leaves it as it is if and only if the 32-bit comparison does not take the first remembered id for the next one |
| `Watermark.PassedIdKeeps` | lib/PidTracker.cpp:61-75 | Within the window it always does, and up to 2^31 below the waiters are woken |
| `Watermark.WatermarkOverrun` | lib/PidTracker.cpp:61-69 | Beyond the window an id far ahead moves the watermark over ids that were never added |
| `Watermark.ResetThenAdd` | lib/PidTracker.h:90-95 | After reset and any ids in the window, below the base or above, repeated or not, the watermark is exact |
| `Watermark.AddOrderIsIrrelevant` | lib/PidTracker.cpp:35-81 | The order in which ids are added does not matter |
| `Tracker.PidTracker.constructor` | lib/PidTracker.h:70-84 | Nothing added, no duplicate, nothing pending |
| `Tracker.PidTracker.Reset` | lib/PidTracker.h:90-95 | The watermark is exact for no added id above the given one |
| `Tracker.PidTracker.AddDuplicate` | lib/PidTracker.cpp:87-102 | One more outstanding duplicate |
| `Tracker.PidTracker.AddPid` | lib/PidTracker.cpp:35-81 | Takes the duplicate away or else adds the id to the watermark, which never falls; reports exactly when a waiter must be woken |
| `Tracker.PidTracker.DrainGap` | lib/PidTracker.cpp:70-75 | Takes over the remembered ids that now follow on |
| `Tracker.PidTracker.WillEnqueue` | lib/PidTracker.cpp:160-178 | One more pending enqueue; tells whether it is new |
| `Tracker.PidTracker.DequeueCheck` | lib/PidTracker.cpp:179-203 | Takes the pending enqueue away; a dequeue is required exactly when there was none |
| `Tracker.PidTracker.EnqueueCheck` | lib/PidTracker.cpp:204-228 | Takes the pending enqueue away; the put is required exactly when there was one |
| `Recovery.ScanPending` | lib/BdbStoreProvider.cpp:1994-2061 | The first loop cancels pending pairs, drops transient enqueues and exactly those in the journal that fewer than 10 pending ones of the queue precede, and lists the rest of the queue |
| `Recovery.Examine` | lib/BdbStoreProvider.cpp:2062-2202 | The second loop hands over, discards or accepts every entry and finds the highest id |
| `Recovery.Latest` | lib/BdbStoreProvider.cpp:2073-2082 | The set of ids recovered from the log is used up entry by entry, and lastPid is the highest other id |
| `Recovery.LastIsFromJournal` | lib/BdbStoreProvider.cpp:2073-2082 | lastPid is the highest persistent id in the journal, whether or not the log repeats messages |
| `Recovery.SettleLogs` | lib/BdbStoreProvider.cpp:2203-2215 | The completions written at the end take exactly the settled operations from both logs |
| `Recovery.RecoverQueue` | lib/BdbStoreProvider.cpp:1965-2221 | One pass: what the broker gets from journal and log, each part once; the highest id of the persistent messages in the journal and the enqueues kept, or 0; the highest one in the journal; both logs replay to the maps in memory before and after |
| `RecoveryTheorems.ReconciliationIsExact` | lib/BdbStoreProvider.cpp:1994-2205 | The broker gets (DB + PE) - PD together with DB * PE * PD |
| `RecoveryTheorems.DeliveredIsRetained` | lib/BdbStoreProvider.cpp:1619-1697 | What the broker gets is what the journal holds after the discards and the enqueues left to be rescheduled |
| `RecoveryTheorems.NoDuplicateIff` | lib/BdbStoreProvider.cpp:2031-2050 | No message is handed over twice if and only if every pending enqueue in the journal is preceded by fewer than 10 of its queue |
| `RecoveryTheorems.PassSettles` | lib/BdbStoreProvider.cpp:1994-2061 | After one pass pending enqueues and dequeues share no key |
| `RecoveryTheorems.PassIsLocal` | lib/BdbStoreProvider.cpp:1581-1606 | A pass depends only on the operations of its queue, so the order of the queues does not matter |
| `RecoveryTheorems.RecoveryIsIdempotent` | lib/BdbStoreProvider.cpp:1559-1723 | A crash after all of recovery: the broker gets the same messages again |
| `RecoveryTheorems.CrashBeforeDiscards` | lib/BdbStoreProvider.cpp:2210-2212 | A crash after a pass and before the discards: the broker gets what the pass gave and the messages whose dequeue it completed |
| `RecoverStore.RecoverQueues` | lib/BdbStoreProvider.cpp:1581-1606 | One pass for every queue, each described in terms of what was pending at the crash: what the broker gets, which enqueues and which dequeues of the queue are left; the uncancelled operations of queues without a journal stay as they were |
| `RecoverStore.DiscardAll` | lib/BdbStoreProvider.cpp:1619-1629 | After the discards every journal holds exactly what the broker got from it |
| `RecoverStore.Resurrect` | lib/BdbStoreProvider.cpp:1643-1697 | Remaining pairs are cancelled, every other enqueue of an open journal is scheduled once, in order |
| `RecoverStore.ResurrectDequeues` | lib/BdbStoreProvider.cpp:1698-1722 | Every pending dequeue of an open journal is scheduled once, in order |
| `RecoverStore.Resume` | lib/BdbStoreProvider.cpp:1634-1723 | Id sequence and tracker go on, and both logs replay to exactly the operations left |
| `RecoverStore.ResumeTracker` | lib/BdbStoreProvider.cpp:1635-1678 | The watermark is set to the highest id in any journal, the gap is empty, and with smart async the rescheduled enqueues can be cancelled |
| `RecoverStore.RecoverMessages` | lib/BdbStoreProvider.cpp:1559-1723 | All of recovery in terms of the two logs and the journals at the crash: deliveries, journal contents, the operations left in both logs, queue by queue and for queues without a journal, the tasks scheduled from them, next id and tracker |
| `RecoverStore.FreshForMessages` | lib/BdbStoreProvider.cpp:1634-1634 | Ids issued after recovery exceed every id handed to the broker, until the numbers wrap around |
| `RecoverStore.FirstIdFollows` | lib/BdbStoreProvider.cpp:1590-1634 | With ids below 2^63, the next id is 1 plus the highest id in the journals and in the enqueues kept, or 1 |
| `RecoverStore.FreshForDequeuesIff` | lib/BdbStoreProvider.cpp:1634-1634 | With ids below 2^63, the id of a rescheduled dequeue is issued again if and only if the crash left an uncancelled dequeue of an open journal with a non-zero id above every persistent id in the journals and in the enqueues kept |
| `NextEpoch.StaleDequeue` | lib/BdbStoreProvider.cpp:1941-1943 | A run that ends between the removal of a message and the complete record of its dequeue: the dequeue is left over and every recovery pass makes its id the first one to be issued |
| `RecoverStore.NotWaitedForIff` | lib/BdbStoreProvider.cpp:1635-1635 | After recovery a deletion does not wait for a rescheduled enqueue if and only if a journal holds the same or a higher id |
| `NextEpoch.EarlyWatermark` | lib/BdbStoreProvider.cpp:1635-1678 | A run after which recovery reschedules enqueues and sets the watermark beyond them |
| `IdSequence.SerialMaxIff` | lib/BdbStoreProvider.cpp:1590-1593 | The comparison of section 3.2 of RFC 1982 gives the numeric maximum if and only if the ids are less than 2^63 apart |
| `IdSequence.FoldIsMax` | lib/BdbStoreProvider.cpp:1590-1597 | Folding the maxima of all queues, empty ones included, gives the maximum of ids below 2^63 |
| `IdSequence.FoldOverrun` | lib/BdbStoreProvider.cpp:1590-1597 | Beyond, a small id hides a larger one |
| `IdSequence.FreshAfterRecovery` | lib/IdSequence.cpp:31-42 | Ids issued after the reset are non-zero, pairwise distinct and above every id in use |
| `IdSequence.NeverZero` | lib/IdSequence.cpp:31-36 | Zero is never issued, not even around the wrap |
| `IdSequence.IdSequence.Next` | lib/IdSequence.cpp:31-36 | Issues the id, skipping zero, and moves on modulo 2^64 |
| `IdSequence.IdSequence.Reset` | lib/IdSequence.cpp:38-42 | Overwrites the id |
| `Journal.CompareIsNumericIff` | lib/JournalImpl.cpp:692-699 | The key comparison is the numeric order on all keys of a given spread if and only if the spread is below 2^31 |
| `Journal.CompareIsTotalOrder` | lib/JournalImpl.cpp:692-699 | On any such key set it is antisymmetric, total and transitive |
| `Journal.Journal.constructor` | lib/JournalImpl.cpp:59-85 | An empty journal with the given number of shards |
| `Journal.Journal.StoreMsg` | lib/JournalImpl.cpp:342-379 | Put if absent on one map |
| `Journal.Journal.RemoveMsg` | lib/JournalImpl.cpp:498-519 | Delete on one map, present or not |
| `Journal.Journal.IsEnqueued` | lib/JournalImpl.cpp:604-617 | Look-up on one map |
| `Journal.Journal.RecoverMessages` | lib/JournalImpl.cpp:261-295 | The round robin over the shard cursors ends and lists every entry exactly once |
| `Journal.Journal.RegisterAsTransient` | lib/JournalImpl.cpp:381-385 | The list of ids to discard |
| `Journal.Journal.RegisterAsAccepted` | lib/JournalImpl.cpp:387-391 | The list of accepted ids to discard |
| `Journal.Journal.DiscardTransient` | lib/JournalImpl.cpp:393-436 | The journal without the listed ids |
| `Journal.Journal.DiscardAccepted` | lib/JournalImpl.cpp:438-478 | The journal without the listed ids |
| `ThreadPool.PoolCore.Schedule` | lib/ext/boost/threadpool/detail/pool_core.hpp:182-195 | Appends at the end of the queue |
| `ThreadPool.PoolCore.Clear` | lib/ext/boost/threadpool/detail/pool_core.hpp:219-223 | Everything queued is cleared, nothing else changes |
| `ThreadPool.PoolCore.Fetch` | lib/ext/boost/threadpool/detail/pool_core.hpp:401-434 | A worker leaves, goes idle or takes the oldest task, by counts and queue |
| `ThreadPool.PoolCore.Awake` | lib/ext/boost/threadpool/detail/pool_core.hpp:416-434 | A woken worker takes the oldest task if there is one, whatever the counts |
| `ThreadPool.PoolCore.Finish` | lib/ext/boost/threadpool/detail/pool_core.hpp:437-444 | Its task is done and the worker looks for another one |
| `ThreadPool.PoolCore.Resize` | lib/ext/boost/threadpool/detail/pool_core.hpp:329-365 | Starts the missing workers, as many as the system allows if these are too few, keeps the others, refuses while terminating |
| `ThreadPool.PoolCore.Died` | lib/ext/boost/threadpool/detail/pool_core.hpp:369-385 | A task has failed; its worker is gone and is replaced unless the pool terminates |
| `ThreadPool.PoolCore.Destructed` | lib/ext/boost/threadpool/detail/pool_core.hpp:387-398 | A leaving worker is taken from both counts |
| `ThreadPool.PoolCore.TerminateAll` | lib/ext/boost/threadpool/detail/pool_core.hpp:296-304 | No workers are wanted any more |
| `ThreadPool.PoolCore.JoinTerminated` | lib/ext/boost/threadpool/detail/pool_core.hpp:306-320 | Once no worker is active the threads that gave notice are joined, and nothing is running |
| `ThreadPool.PoolCore.Passes` | lib/ext/boost/threadpool/detail/pool_core.hpp:241-260 | The wait passes exactly when active workers and queued tasks are within the threshold |
| `ThreadPool.InFlightBound` | lib/ext/boost/threadpool/detail/pool_core.hpp:401-445 | No more tasks run than workers are active, and no more of these than there are workers |
| `ThreadPool.NothingLeft` | lib/ext/boost/threadpool/detail/pool_core.hpp:241-260 | When wait(0) passes, every task ever scheduled has returned, failed or been cleared |
| `Content.LoadIff` | lib/JournalImpl.cpp:311-340 | A request stays inside the stored bytes if and only if it begins within the content and its end fits 64 bits; it gets its piece, clipped at the end |
| `Content.Reassembled` | lib/BdbStoreProvider.cpp:1857-1875 | Any split of the content into consecutive requests gives the content back |
| `Content.AlwaysServesIff` | lib/JournalImpl.cpp:311-340 | Every content is read back as stored if and only if preamble and header are shorter than 2^32 bytes; beyond, the content offset wraps into the preamble |
| `Content.StoredBytes` | lib/BdbStoreProvider.cpp:1857-1875 | The stored form byte by byte: octet 0 for persistent and 1 for transient, header size with the most significant byte first, header from byte 5, content |
| `Content.ReadBackIs` | lib/BdbStoreProvider.cpp:2066-2085 | Reading the stored form as recovery does gives back the message, or that it is transient |
| `Messages.OctetIsFlag` | lib/BdbStoreProvider.cpp:2070-2071 | The first octet of what enqueue encodes is 0 if and only if the message is persistent, and recovery reads it so |
| `Messages.LogKeepsMessage` | lib/AsyncOperationLogger.cpp:654-690 | The log gives the message back, and the flag of its record is that octet |
| `Messages.AnyOctet` | lib/AsyncOperationLogger.cpp:666-672 | Any flag but 0, in the record or in the stored bytes, means transient |
| `Messages.StoreEncodes` | lib/BdbStoreProvider.cpp:1294-1385 | After any run the flag of every message in a journal or pending in the log is the octet recovery reads |
| `Messages.BackAsEnqueued` | lib/BdbStoreProvider.cpp:2062-2202 | What recovery hands over reads as a persistent message with the header and content of its enqueue |

## Left out

- One epoch: runs start from the empty store and end with the crash. The epoch that follows a recovery starts with a reset watermark and rescheduled tasks and is not part of the state machine; `NextEpoch` states what it starts from.
- The temporary log file is opened for appending, so what an earlier crash left in it would be carried over; within one epoch there is nothing left in it.
- A crash while recovery itself runs is covered between the two files, during the re-logging of starts and between a pass and the discards, not in the middle of a pass.
- A new message is enqueued while the next id is less than 2^31 beyond the watermark, which the steps of the own threads always bring about (`EveryCallIsTaken`); beyond, `WatermarkOverrun` applies.
- EveryScheduleEnds: counts steps of the modelled threads; how often the cleaners run is not bounded, and a wake-up without a notification is counted, not excluded.
- One message is enqueued on one queue at most once.
- `waitForPid` is modelled by its steps in `Protocol`, not as a method of the tracker class; its use by `loadContent` and its return value -2 on shutdown are left out.
- Scheduling a task and returning from the call that schedules it are one step.
- TenChecksSuffice: requires the tasks of the queue to be scheduled in id order, which the callers of `enqueue` must see to; the source does not.
- RecoverQueue: the completes of enqueues found in the journal are appended after the first loop instead of one by one inside it; the file is the same.
- RecoverMessages: the ids to discard are handed to each journal just before its discards instead of at the end of its pass.
- RedeliveryIff: for an enqueue that was completed both by its store task and by a cancelling dequeue, the condition is on the records in the two log files, not on program counters.
- Resize: whether the system can start another thread is a parameter.
- TerminateAll: its wait is the precondition of `JoinTerminated`.
- Latest: `lastPid` has a loop of its own beside `Examine`; in the source it is the same loop.
- Announce: the rescheduled enqueues are announced after all of them are listed instead of one by one.
- Workers told to leave test a count that is corrected only when they give notice, so a pool that is made smaller can fall below its target; `Fetch` and `Destructed` show it, no theorem is stated on it.
- Write and allocation failures, including the fall-back of the mass writers, and the timing test that decides when a cleaner runs: a cycle can start at any time.
- Journals created without a database; Berkeley DB itself: a shard is a map and a committed operation is durable.
- The drain loop of `addPid` reads the first remembered id before it tests that there is one; the model tests first.
- Decoding of headers and the broker's own recovery callbacks, statistics and reports of `decodeAndRecoverMsg`.
- Queues, exchanges, bindings, configuration, management, transactions, accept recovery through MongoDB: little beyond key-value storage, or not implemented in the source.
