# ublk-cpp: verified models

ublk-cpp is a C++ library for writing ublk servers, user-space programs that serve the requests of a
Linux block device. This project models the parts of it where correctness is hardest to see from the
code, and proves properties of those models with Dafny 4.11. `dafny verify dfyconfig.toml` checks
everything.

## What is modelled

**The batch I/O queue** (`BatchIoQueue`). One flusher and one worker per tag run as coroutines and
share a double-buffered commit array, a pending counter, a flag and a futex per tag, and a stop flag;
a multishot fetch callback reads tags from two incrementally filled ring buffers. `BatchQueue` is the
labelled transition system: a step is the code between two suspension points, or one action of the
driver. `FetchRing` is the ring. `BatchView` abstracts a state to where each tag is,
`BatchInvariant` proves the invariant, `BatchRefinement` and `BatchProgress` the refinement and the
termination measure, `BatchRuns` the results about whole runs. `BatchServer` is the code itself, a
class whose methods change fields and arrays in place, each proved to perform the matching step of
the transition system. `BatchLayout` is the commit buffer as bytes, with the decoder the user-space
interface prescribes, and `BatchBytes` connects the two: along every run the bytes say what the
transition system says.

**The simple queue** (`IoQueue`), one worker per tag, in `SimpleQueue`. Both queues refine one
abstract machine for the life of a tag (`TagMachine`), and the simple queue can do everything that
machine can, so the batch queue is a faster form of the simple one (`QueueRefinement`).
`CommittedResults` says, for both, what the driver is told about a request by how its handler completed.

**The shared-memory server**: `ShmServer` (sessions and cleanup tasks in any interleaving),
`ShmInvariant`, `ShmRuns`, `ShmStories` (what a session has been through, read off a run), and
`ShmSession`, the session object as the code updates it.

**Device lifecycle and control commands**: `DaemonLifecycle`, `DaemonRuns` and `DaemonServer` for
setup, configure and start; `DaemonRun` for the buffer table of `daemon::run`; `ControlFraming` for
device paths and command buffers.

**Memory, addresses, printing**: `QueueLedger` (what the queue constructors acquire and release),
`AddressSpace`, `CpuRanges` with `Decimal`.

Wherever the code would fail an assertion, index out of range, wrap a counter, hand the driver a tag
it already owns, start a second cleanup or unmap registered memory, the model sets a `fault` flag.
That no reachable state has it set is proved, never assumed.

## Assumptions

- Code between two suspension points is atomic. A futex wait blocks only if the value equals its
  argument, and wakes only on a notification sent while it is parked.
- The driver delivers only tags it owns. It may redeliver a tag as soon as it has consumed that tag's
  commit element, even before the commit call returns. It consumes the elements of a commit in order
  and returns the number of bytes it consumed.
- The fetch ring hands out tags in order, fills the oldest provided buffer and retires it exactly when
  it is full.
- A failed or cancelled driver call had no effect.
- Zone append requests reach zoned devices only, zoned devices use user copy, and
  UBLK_IO_F_NEED_REG_BUF reaches only devices with automatic buffer registration, as the user-space
  interface header describes.
- Error codes are positive. `ShmRuns.CleanupTwiceIff` shows exactly how the session code depends on it.
- A spawned cleanup task starts even after a stop request. mmap returns an address that is not in use,
  the driver a buffer index that is not in use.
- A control command that the driver accepts has the documented effect, and no one else changes the
  device; it may refuse any command with any code.

## Results that differ from what the documentation says

- `daemon::setup` is documented to guarantee that the device can be started (docs/guide.md:113). Against
  a driver that refuses no command, a live device included, it can be if and only if the device is not in
  need of a recovery that its flags do not support: `DaemonRuns.StartUp`, with a concrete device in
  `DaemonRuns.SetUpButNotStartable`. The user-space interface header ties the states QUIESCED and FAIL_IO
  to UBLK_F_USER_RECOVERY (include/ublk/ublk_cmd.h:347-355), so a driver may never report such a device;
  the code handles it all the same. Against any driver, `DaemonRuns.ServeAttempts` says what is sent and
  how the attempt ends.
- `daemon::configure` is documented to write the effective parameters back (include/ublk/daemon.hpp:36-38).
  On a dead device it does not; caller and device agree entirely if and only if the device was not dead
  or the caller had filled in the length field, and up to that field always: `DaemonRuns.ConfigureMeaning`,
  with a concrete call in `DaemonRuns.NotWrittenBack`.
- A shared-memory session is meant to start one cleanup. A handler whose `handle_reg_shm` fails with an
  error code that is not positive makes it start two: `ShmRuns.CleanupTwiceIff`, with a concrete session in
  `ShmRuns.CleanupTwice`. The other results about the server assume positive codes.

## Model

| member | source | states |
|---|---|---|
| `TagMachine.TraceGrammar` | include/ublk/detail/queue.hpp:245-283 | The traces of the tag's machine are exactly complete services followed by at most one in progress; a commit carries the result of its own delivery, and register and unregister bracket the handling exactly where the driver or the zero-copy mode asks for it |
| `TagMachine.CommitsMatch` | include/ublk/detail/queue.hpp:245-283 | Along every trace the k-th commit carries the k-th result for the k-th delivery |
| `FetchRing.CapacityHoldsAllTags` | include/ublk/detail/queue.hpp:336-347 | After `align_up`, one fetch buffer holds at least `queue_depth` tags, in the least number of whole pages |
| `FetchRing.WriteAppends` | include/ublk/detail/queue.hpp:424-427 | A driver write never touches an unread tag and appends exactly the tags written |
| `FetchRing.ConsumeReads` | include/ublk/detail/queue.hpp:430-450 | The callback reads the next unread tags in order, inside the buffer, and the buffer it pushes again keeps its id |
| `FetchRing.NeverStarved` | include/ublk/detail/queue.hpp:336-347 | Distinct unread tags cannot fill both buffers: the driver always finds one |
| `FetchRing.DrainedReadsAll` | include/ublk/detail/queue.hpp:430-450 | No completion outstanding if and only if nothing is unread |
| `FetchRing.StreamReconstruction` | include/ublk/detail/queue.hpp:424-450 | However tags are split into completions and retirements and however late the callback runs, tags read followed by tags unread are the tags written |
| `BatchView.MovesConserve` | include/ublk/detail/queue.hpp:603-678 | No step loses or duplicates a tag among the places it can be in |
| `BatchInvariant.InitialInv` | include/ublk/detail/queue.hpp:382-398 | The state after `prep_io_cmds` satisfies the invariant |
| `BatchInvariant.StepKeeps` | include/ublk/detail/queue.hpp:397-678 | Every step of flusher, worker, callback and driver keeps the invariant, and none faults |
| `BatchInvariant.SlotIsFree` | include/ublk/detail/queue.hpp:653-656 | A registration uses a free slot inside the buffer table |
| `BatchInvariant.ActiveHasRoom` | include/ublk/detail/queue.hpp:667-676 | The active half has room for the result of any tag being handled |
| `BatchRuns.ExactlyOnePlace` | include/ublk/detail/queue.hpp:603-678 | In every reachable state each tag is in exactly one place, and both halves hold distinct tags |
| `BatchRuns.NeverFaults` | include/ublk/detail/queue.hpp:424-678 | In every reachable state no assertion has failed, no index was out of range, no counter wrapped, no tag was committed twice, no table slot taken twice, and the driver has a fetch buffer |
| `BatchRuns.NoLostWakeup` | include/ublk/detail/queue.hpp:607-651 | A sleeping flusher has nothing to commit and a live worker; a parked worker has no flag and no stop; a woken one has either |
| `BatchRuns.DoubleBufferExclusion` | include/ublk/detail/queue.hpp:608-625 | Over any run during one commit call, nobody writes the half the driver reads |
| `BatchRefinement.StepFollows` | include/ublk/detail/queue.hpp:639-678 | A step of the batch queue is, for each tag, an event of the tag's machine or none |
| `BatchRuns.BatchRefinesTag` | include/ublk/detail/queue.hpp:603-678 | Every run, projected to one tag, is a run of the tag's machine: complete services and one in progress |
| `CommittedResults.BatchCommitsOutcomes` | include/ublk/detail/queue.hpp:53-108 | Along every run what is committed for a delivery is what its own handler's completion says: its value, the negated error code, -5 for another exception, -125 for a stop, and the LBA of a zone append |
| `CommittedResults.NegativeIffUnsuccessful` | include/ublk/detail/queue.hpp:73-108 | With positive codes the driver sees a negative result exactly for requests whose handler failed, was stopped or returned a negative value |
| `BatchProgress.MeasureDecreases` | include/ublk/detail/queue.hpp:603-678 | Every step that is not a delivery decreases a natural number |
| `BatchProgress.QuiescentTag` | include/ublk/detail/queue.hpp:603-678 | When nothing is left to do, a tag is with the driver, or a driver call failed for it, or its delivery was dropped at a stop |
| `BatchProgress.QuiescentWorker` | include/ublk/detail/queue.hpp:642-651 | When nothing is left to do, every worker is parked, exited or failed, and no tag is unread |
| `BatchProgress.QuiescentFlusher` | include/ublk/detail/queue.hpp:607-630 | When nothing is left to do, a flusher that did not throw has committed everything |
| `BatchProgress.QuiescentStop` | include/ublk/detail/queue.hpp:460-467 | When nothing is left to do after the fetch has ended, all workers and the flusher have finished |
| `BatchRuns.InternalRunsEnd` | include/ublk/detail/queue.hpp:603-678 | Between deliveries the number of steps is bounded, however they interleave |
| `BatchRuns.ClosedRunsEnd` | include/ublk/detail/queue.hpp:455-467 | Once the driver has ended the fetch every run is finite |
| `BatchRuns.WorkerFailsIff` | include/ublk/detail/queue.hpp:653-665 | Along every run a worker has failed if and only if its registration or unregistration failed, and the stop flag is set if and only if the fetch has ended |
| `BatchRuns.StopTakesNothing` | include/ublk/detail/queue.hpp:643-649 | After the stop no delivery is taken, and every worker that resumes exits |
| `BatchRuns.EveryDeliveryIsCommitted` | include/ublk/detail/queue.hpp:603-678 | A queue with nothing left to do, not stopped, has committed every delivery of a tag exactly once, unless the flusher or that tag's own worker failed |
| `BatchRuns.FinishedCommitted` | include/ublk/detail/queue.hpp:607-631 | In every reachable state with a flusher that finished without error, whatever the workers did, `pending` is 0, no worker is left and every stored result has been committed |
| `BatchRuns.StoppedQueueIsDrained` | include/ublk/detail/queue.hpp:460-469 | After a stop, with nothing left to do and no failed commit, all tasks have finished and nothing is pending; a tag whose worker did not fail misses at most a delivery no worker had taken |
| `SimpleQueue.SimpleRefinesTag` | include/ublk/detail/queue.hpp:212-283 | Every run of the simple worker is a run of the tag's machine, its assertion never fails, and it submits its buffer's address or, for a zone append, the LBA |
| `CommittedResults.SimpleCommitsOutcomes` | include/ublk/detail/queue.hpp:53-108 | The same for every run of the simple queue |
| `SimpleQueue.WorkerEndsIff` | include/ublk/detail/queue.hpp:229-282 | Along every run the worker has returned if and only if its last call ended with -ENODEV, and has thrown if and only if it ended with another error or a registration or unregistration failed |
| `SimpleQueue.TagImplementedBySimple` | include/ublk/detail/queue.hpp:212-283 | Every trace of the tag's machine is the trace of some run of the simple worker |
| `QueueRefinement.BatchRefinesSimple` | include/ublk/detail/queue.hpp:603-678 | For every run of the batch queue and every tag the simple worker has a run with the same events in the same order |
| `BatchServer.BatchIoQueue.constructor` | include/ublk/detail/queue.hpp:382-398 | The initial fields; slot t of the first half names tag t, its buffer and result 0 |
| `BatchServer.BatchIoQueue.FlusherSegment` | include/ublk/detail/queue.hpp:607-630 | One pass of the flusher loop performs the flusher's step |
| `BatchServer.BatchIoQueue.WorkerSegment` | include/ublk/detail/queue.hpp:642-656 | From the head of the loop or the wake-up to the next suspension, the worker performs its step |
| `BatchServer.BatchIoQueue.WorkerAppends` | include/ublk/detail/queue.hpp:667-676 | Storing a result changes one slot of the active half and the counter, and wakes the flusher on the first |
| `BatchServer.BatchIoQueue.SetResult` | include/ublk/detail/queue.hpp:571-582 | Only the addressed slot changes: it gets the tag, the result and the tag's buffer in the form of the mode, and its LBA stays |
| `BatchServer.BatchIoQueue.SetZoneLba` | include/ublk/detail/queue.hpp:584-587 | Only the LBA of the addressed slot changes |
| `BatchServer.BatchIoQueue.WorkerLeaves` | include/ublk/detail/queue.hpp:416-420 | The last worker to leave wakes the flusher |
| `BatchServer.BatchIoQueue.FetchCallback` | include/ublk/detail/queue.hpp:430-450 | The callback's loop raises the flags and wakes the workers of exactly the tags read, and keeps the ring's bookkeeping |
| `BatchServer.BatchIoQueue.StopWorkers` | include/ublk/detail/queue.hpp:460-465 | The stop flag is set and every parked worker woken |
| `BatchServer.MayResume` | include/ublk/detail/queue.hpp:642-651 | The invariant gives what `WorkerSegment` needs, the assertion at line 650 included |
| `BatchServer.MayAppend` | include/ublk/detail/queue.hpp:667-672 | The invariant gives what storing a result needs: a free slot, a zoned device for a zone append, a buffer address |
| `BatchServer.MayLeave` | include/ublk/detail/queue.hpp:416-420 | The invariant gives that a leaving worker is still counted |
| `BatchServer.MayCallBack` | include/ublk/detail/queue.hpp:430-450 | The invariant gives that the callback stays inside the buffer, reads tags of the queue and gets its buffer id back |
| `BatchLayout.EntryReadsBack` | include/ublk/detail/queue.hpp:547-587 | A slot decodes, by the flags sent, to the tag, result, buffer address or index and zone LBA written to it |
| `BatchLayout.EntryStaysInSlot` | include/ublk/detail/queue.hpp:547-587 | Writing a slot changes no byte outside it |
| `BatchLayout.BatchRoundTrip` | include/ublk/ublk_cmd.h:656-688 | For every feature combination and batch, every element decodes to what was written |
| `BatchLayout.FlagsAnnounceLayout` | include/ublk/detail/queue.hpp:518-545 | The batch flags announce exactly the fields an element has and the words its size accounts for, and that size fits its 8-bit field |
| `BatchLayout.FlagBits` | include/ublk/detail/queue.hpp:524-535 | Bit 0 is sent for zoned devices, bit 1 where the server lends its own buffers, bit 2 with automatic registration, and no other |
| `BatchLayout.BatchStaysInHalf` | include/ublk/detail/queue.hpp:547-587 | A batch changes no byte outside its slots |
| `BatchLayout.HalfIsWholePages` | include/ublk/detail/queue.hpp:325-329 | A half has the least number of whole pages that holds `queue_depth` elements |
| `BatchLayout.HalvesDisjoint` | include/ublk/detail/queue.hpp:325-329 | A batch of up to `queue_depth` elements fits its half and leaves the other alone |
| `BatchLayout.StoreEntry` | include/ublk/detail/queue.hpp:571-587 | Writing the fields in place gives the bytes of the specification |
| `BatchBytes.BytesFollow` | include/ublk/detail/queue.hpp:667-676 | Along every run the bytes of both halves hold the elements of the transition system, buffer fields included |
| `BatchBytes.NamesFollow` | include/ublk/detail/queue.hpp:571-582 | Along every run each element in use names the buffer of its tag |
| `BatchBytes.BytesStuckIff` | include/ublk/detail/queue.hpp:571-587 | A result can be stored if and only if its values fit their fields |
| `BatchBytes.DriverDecodesCommit` | include/ublk/ublk_cmd.h:645-688 | Along every run, what the driver decodes from the half in flight is what its step commits: tag, result, the LBA of a zone append, and the tag's buffer address or index |
| `ShmInvariant.StepKeeps` | include/ublk/detail/shm.hpp:54-218 | Every step of every session and cleanup task keeps the invariant, and none faults |
| `ShmInvariant.UnmapIsSafe` | include/ublk/detail/shm.hpp:207-213 | What a cleanup task unmaps is mapped, with that size, and only the task's own index refers to it |
| `ShmRuns.OrderOf` | include/ublk/detail/shm.hpp:159-218 | The permitted uses of a session's resources, written out case by case |
| `ShmRuns.MappingSafety` | include/ublk/detail/shm.hpp:159-218 | In every interleaving memory is unmapped only if never registered, or after the driver unregistered it and the handler was told; the handler is told only after a successful unregister |
| `ShmRuns.CleanupStartedOnce` | include/ublk/detail/shm.hpp:54-80 | A cleanup exists exactly for sessions that entered `handle` and failed there or ended, and never two |
| `ShmRuns.CleanupTwiceIff` | include/ublk/detail/shm.hpp:54-74 | A session that fails anywhere in `handle` starts a second cleanup if and only if its error code is not positive |
| `ShmRuns.CleanupTwice` | include/ublk/detail/shm.hpp:192 | A session waiting for `handle_reg_shm` that fails with code 0 starts two cleanups |
| `ShmRuns.AnnouncingReached` | include/ublk/detail/shm.hpp:159-192 | That session's state is reached by a run |
| `ShmRuns.RegistrationsConserved` | include/ublk/detail/shm.hpp:89-151 | Registrations minus successful unregistrations equals the sessions holding an index |
| `ShmRuns.JoinOutcome` | include/ublk/detail/shm.hpp:139-151 | After the join, every registered index has had exactly one unregister attempt, and a mapping remains exactly where it failed |
| `ShmRuns.StepDrains` | include/ublk/detail/shm.hpp:54-218 | Every step but an accept decreases a natural number |
| `ShmRuns.RunsEnd` | include/ublk/detail/shm.hpp:89-151 | Without new clients every run ends |
| `ShmRuns.StuckIsJoined` | include/ublk/detail/shm.hpp:139-151 | A server that no longer accepts and has nothing left to do has joined |
| `ShmStories.SessionStory` | include/ublk/detail/shm.hpp:24-87 | In every reachable state a session's phase and fields are those that its own labels tell, for every success, failure or stop point |
| `ShmStories.KeptUntilHangUp` | include/ublk/detail/shm.hpp:70-87 | After a successful `handle` memory stays mapped and registered, the session sends the reply and waits, and a cleanup is started if and only if the send failed or the client is done |
| `ShmStories.FailureIsReported` | include/ublk/detail/shm.hpp:54-81 | After a failed `handle` the cleanup is started and the negated code is sent to the client, then the session is closed |
| `ShmSession.Session.AfterReceive` | include/ublk/detail/shm.hpp:39-54 | With a descriptor the session enters `handle`, without it ends and nothing is spawned |
| `ShmSession.Session.AfterStat` | include/ublk/detail/shm.hpp:169-183 | Size and base are set before the next suspension, or `handle` ends with its cleanup spawned on a copy |
| `ShmSession.Session.AfterRegister` | include/ublk/detail/shm.hpp:189-192 | The index is set, or `handle` ends with its cleanup spawned |
| `ShmSession.Session.AfterAnnounce` | include/ublk/detail/shm.hpp:192-195 | The handler's answer decides between success and cleanup |
| `ShmSession.Session.AfterSend` | include/ublk/detail/shm.hpp:70-81 | The session goes on, or ends with a cleanup exactly if `handle` had succeeded |
| `ShmSession.Session.AfterHangUp` | include/ublk/detail/shm.hpp:70-86 | The end of the session spawns its cleanup |
| `ShmSession.Session.HandleEnds` | include/ublk/detail/shm.hpp:163-167 | The deferred cleanup gets the fields as they are, and the negated code becomes the result |
| `ShmSession.Session.Close` | include/ublk/detail/shm.hpp:70-74 | A cleanup is spawned exactly if the result is not negative |
| `QueueLedger.AllocBuffers` | include/ublk/detail/queue.hpp:349-355 | Allocates `queue_depth` distinct buffers, or stops at the first failure with what it has |
| `QueueLedger.FreeBuffers` | include/ublk/detail/queue.hpp:485-492 | Releases every buffer once, with its size |
| `QueueLedger.IoQueue.Acquire` | include/ublk/detail/queue.hpp:112-145 | Wherever a call fails, nothing remains acquired; otherwise the queue holds exactly its resources |
| `QueueLedger.IoQueue.Cleanup` | include/ublk/detail/queue.hpp:190-203 | Everything held is released once, with the size it was acquired with, and a second call is harmless |
| `QueueLedger.BatchIoQueue.Acquire` | include/ublk/detail/queue.hpp:299-358 | The same for the batch queue; both buffer pairs have the least number of whole pages for the queue depth |
| `QueueLedger.BatchIoQueue.AcquireCommitBuf` | include/ublk/detail/queue.hpp:325-334 | Whether or not allocation and mlock succeed, the queue owns exactly what it has; the size is the least number of whole pages for all elements |
| `QueueLedger.BatchIoQueue.AcquireFetchBuf` | include/ublk/detail/queue.hpp:336-347 | The same for the fetch buffers and all tags |
| `QueueLedger.BatchIoQueue.AcquireIoBufs` | include/ublk/detail/queue.hpp:349-355 | The same for the I/O buffers |
| `QueueLedger.BatchIoQueue.Cleanup` | include/ublk/detail/queue.hpp:485-506 | Everything held is released once, with the size it was acquired with; the commit and fetch pointers stay set, so a second call would be allowed if and only if there were none |
| `QueueLedger.Lifecycle` | include/ublk/detail/queue.hpp:112-152 | Construction and destruction of both queues leave nothing behind, whichever call fails |
| `DaemonRuns.RecoveryPairing` | include/ublk/detail/daemon.hpp:29-104 | Over any calls, devices and refusals, with accurate caches and setup before start, recovery is ended only after it was begun, and parameters are set only on a dead device |
| `DaemonRuns.RecoveryPairingIff` | include/ublk/detail/daemon.hpp:29-104 | For every run of calls whatever callers and caches do: pairing and parameter rule are kept if and only if each call was in order at its time |
| `DaemonRuns.StartPairsIff` | include/ublk/detail/daemon.hpp:84-104 | A start keeps the pairing if and only if the info it is decided on asks for no recovery or recovery was begun |
| `DaemonRuns.ConfigureIsOrderlyIff` | include/ublk/detail/daemon.hpp:63-82 | Configure keeps the rule for parameters if and only if a cached info that says dead is right |
| `DaemonRuns.SetupMeaning` | include/ublk/detail/daemon.hpp:29-61 | Setup reports the info of an existing device, returns true exactly if it is new, and touches no other |
| `DaemonRuns.SetupOutcome` | include/ublk/detail/daemon.hpp:33-50 | By the answer to add_dev: a new device ends setup, a refusal ends it unless it says that the given id exists, and only then is the device taken over |
| `DaemonRuns.ConfigureMeaning` | include/ublk/detail/daemon.hpp:63-82 | True exactly if the device was dead; caller and device then agree up to the length field, and entirely under the stated condition; after an error the caller's parameters are unchanged but for the length filled in before they were asked for |
| `DaemonRuns.NotWrittenBack` | include/ublk/detail/daemon.hpp:70-74 | A dead device whose effective parameters are not written back |
| `DaemonRuns.StartMeaning` | include/ublk/detail/daemon.hpp:84-104 | A started device is live and nothing else changed; start gives up exactly on an unsupported recovery |
| `DaemonRuns.ServeAttempts` | include/ublk/detail/daemon.hpp:24-104 | Setup, configure, start against any driver: it sees the expected commands in order, all of them if the attempt succeeds, and the attempt ends early only at a refusal |
| `DaemonRuns.ErrorsAreRefusals` | include/ublk/detail/daemon.hpp:29-104 | The error of a call is the code of the last refusal, except for a start that gives up |
| `DaemonRuns.StartUp` | include/ublk/detail/daemon.hpp:24-104 | Setup, configure, start against a driver that refuses nothing: the exact commands, and a live device if and only if no unsupported recovery was needed |
| `DaemonRuns.SetUpButNotStartable` | docs/guide.md:113 | A device whose setup succeeds and whose start gives up |
| `DaemonRuns.QueryMeaning` | include/ublk/detail/control.hpp:20-52 | A query changes no device and answers with the device's info, through retries and the older command |
| `DaemonRuns.QueryRetries` | include/ublk/detail/control.hpp:25-46 | By the driver's answers: the query is tried until the first answer other than EACCES, which is the result, its error, or replaced by that of the older command, sent once; the log shows exactly these tries |
| `DaemonRuns.QueryExhausted` | include/ublk/detail/control.hpp:46-51 | If every try is denied there are exactly one more than the retries, and EACCES is reported |
| `DaemonRuns.CallsRetry` | include/ublk/detail/control.hpp:55-64 | A call without a usable cache, and setup, go on with the device's info if one of the tries is accepted after denials |
| `DaemonRuns.CacheTransparent` | include/ublk/detail/control.hpp:55-64 | A query followed by the cached call is the uncached call, for every control command, configure and start, whatever the driver refuses |
| `DaemonRuns.CacheMiss` | include/ublk/detail/control.hpp:58-64 | A cached info about another device is ignored |
| `DaemonRuns.CacheHitSends` | include/ublk/detail/control.hpp:83-99 | With a cached info the command is the only thing sent, with the path exactly for an unprivileged device |
| `DaemonRuns.CacheFlagsSuffice` | include/ublk/detail/control.hpp:83-99 | Of a cached info a control command uses the id and one flag, configure the state besides, start a second flag |
| `DaemonServer.Control.QueryDevice` | include/ublk/detail/control.hpp:20-52 | The retry loop does what the recursive specification says |
| `DaemonServer.Control.TryQuery` | include/ublk/detail/control.hpp:25-46 | One try asks for another exactly on EACCES and otherwise settles the query |
| `DaemonServer.Control.CachedInfo` | include/ublk/detail/control.hpp:55-64 | The cache is used exactly if present and for this device |
| `DaemonServer.Control.SendCommand` | include/ublk/detail/control.hpp:83-99 | The path goes along exactly if the device is unprivileged |
| `DaemonServer.Control.SetUp` | include/ublk/detail/daemon.hpp:29-61 | Setup as the code performs it |
| `DaemonServer.Control.ConfigureDevice` | include/ublk/detail/daemon.hpp:63-82 | Configure as the code performs it |
| `DaemonServer.Control.StartDevice` | include/ublk/detail/daemon.hpp:84-104 | Start as the code performs it |
| `DaemonRun.RunConfigIsValid` | include/ublk/detail/io.hpp:33-40 | The table check accepts exactly the valid configurations, and the table of `daemon::run` is the smallest that passes and has the requested size |
| `DaemonRun.TableSlotsExist` | include/ublk/detail/daemon.hpp:117-120 | In every run every table slot in use is below the table size and held by its own tag's worker |
| `ControlFraming.FillDevPath` | include/ublk/detail/path.hpp:17-22 | The buffer gets the path, cut to fit, and a terminator; the rest is untouched |
| `ControlFraming.FilledReads` | include/ublk/detail/path.hpp:17-22 | Reading the buffer gives the whole path if it fits with its terminator, and otherwise as much as fits before one; nothing behind the given size is written |
| `ControlFraming.PathFits` | include/ublk/detail/path.hpp:28 | Every device path fits the 32-byte buffer with its terminator |
| `ControlFraming.PathNamesDevice` | include/ublk/detail/path.hpp:17-26 | A path is the prefix of the char devices and the id in decimal digits without leading zeros |
| `ControlFraming.PathsDiffer` | include/ublk/detail/path.hpp:24-26 | Equal paths mean equal ids |
| `ControlFraming.DevPathBuf` | include/ublk/detail/path.hpp:30-37 | The buffer holds the path, then the payload |
| `ControlFraming.PayloadSurvives` | include/ublk/detail/control.hpp:132-168 | Removing the path prefix from the unprivileged buffer gives the privileged one |
| `ControlFraming.CommandRoundTrip` | include/ublk/detail/control.hpp:66-258 | Every command reads back as it was given, privileged or not, names its queue or none, and an unprivileged one names its device |
| `ControlFraming.CommandsDiffer` | include/ublk/detail/control.hpp:83-258 | Commands that read the same are the same command for the same device |
| `ControlFraming.AnswerReadBack` | include/ublk/detail/control.hpp:66-81 | The caller copies out exactly the driver's answer |
| `AddressSpace.DescriptorRegionsFollow` | include/ublk/detail/queue.hpp:39-42 | The descriptor regions start at 0 and follow each other, 4096 descriptors of 24 bytes each |
| `AddressSpace.DescriptorRegionsDisjoint` | include/ublk/detail/queue.hpp:39-42 | Descriptor regions of different queues are disjoint and end below the I/O buffer area |
| `AddressSpace.RoundedRegionsDisjointIff` | include/ublk/detail/queue.hpp:39-42 | Rounded up to whole pages, the regions of full neighbouring queues stay apart if and only if the page size divides their distance |
| `AddressSpace.MappingsDisjoint` | include/ublk/detail/queue.hpp:125-128 | Then the mappings of all queues and depths start on a page, do not overlap and end below the I/O buffer area |
| `AddressSpace.UserCopyPosReadsBack` | include/ublk/helpers.hpp:45-51 | Queue, tag and offset are recovered by shift and mask |
| `AddressSpace.UserCopyPosInRange` | include/ublk/helpers.hpp:45-51 | The position is in the I/O buffer area and never reaches the integrity bit |
| `AddressSpace.UserCopyPosInjective` | include/ublk/helpers.hpp:45-51 | Equal positions mean equal queue, tag and offset |
| `AddressSpace.AutoBufRegRoundTrip` | include/ublk/ublk_cmd.h:596-616 | Encoder and decoder are inverse to each other, in both directions |
| `AddressSpace.ShmemAddrRoundTrip` | include/ublk/ublk_cmd.h:810-827 | Index and offset are recovered; an address is an encoding exactly if its reserved bits are zero |
| `CpuRanges.CpuStr` | bin/ublkctl.cpp:147-170 | The nested loops print the runs of the set, and reading the text gives sorted, disjoint, maximal ranges that cover exactly the set |
| `CpuRanges.RunsCover` | bin/ublkctl.cpp:147-170 | The runs are sorted, disjoint, non-adjacent and cover exactly the set |
| `CpuRanges.RangesReadBack` | bin/ublkctl.cpp:162-169 | A strict reader, which takes a dash only between different numbers, gives the printed ranges back |
| `CpuRanges.CpuStrRoundTrip` | bin/ublkctl.cpp:147-170 | Reading the text of a set gives ranges that cover exactly the set |
| `CpuRanges.CpuStrInjective` | bin/ublkctl.cpp:147-170 | Different sets print differently |

## Left out

- condy, senders and the coroutine machinery: represented by atomic steps and the assumptions above.
- The submission wrappers in include/ublk/raw.hpp: only the command names and field meanings are kept.
- Socket, bind, unlink and signal handling around the shared-memory server: only the outcome of each wait is kept.
- Thread pinning, priorities and runtime options: operating-system calls and simple maxima.
- Command-line handling and printing in bin/ublkctl.cpp apart from `cpu_str`, and the example servers.
- The file table slot that `run_dev` fills and the errors that `run` collects and rethrows: they would only add easy members.
- `init_queue` and `destroy_queue` callbacks, and the `prep_io_cmds` call itself: runs start after it has succeeded.
- The address that the simple worker sends for automatic buffer registration: constant per worker; its encoding is in `AddressSpace`.
- Protection and flags of shared-memory mappings and registrations.
- mlock and munlock in `QueueLedger`: mlock can fail, but which pages are locked is not tracked.
- `QueueLedger` addresses: a resource is a handle with a size; overlap of address ranges is not modelled.
- Buffer registrations that the driver makes by itself for UBLK_F_AUTO_BUF_REG: only those requested by the server are tracked.
- A stop request to the queues through a stop token: a queue stops when its fetch ends.
- `SimpleQueue` models the worker's local variables as values that its steps replace, not as a class: its workers share no state.
- `BatchQueue` makes the head of the worker loop a step of its own, which allows more interleavings than the code has.
- `BatchServer.BatchIoQueue.WorkerSegment`: its preconditions, and those of the methods beside it, are not demanded by the source of anyone; `BatchServer.MayResume`, `MayAppend`, `MayLeave` and `MayCallBack` prove them from the invariant.
- `ShmSession.Session.AfterStat`: that the session has no cleanup yet is guaranteed by `ShmInvariant.Inv`, and likewise for the methods beside it. The cleanup task itself is modelled on values: it works on a private copy.
- The index of a shared-memory buffer being reused by another session between the driver's unregister and the handler's callback: it depends on completion order in the runtime.
- Whether a device that is already live can be started again: it depends on the driver.
- `QueueLedger.BatchIoQueue.Acquire`: after a failure the commit and fetch pointers may still be set, as in the source; nothing is promised about them, since a failed constructor leaves no object.
- Device flags are booleans, one per tested bit; parameters are a length and a body; the sleep between retries is not modelled, and what is proved holds for every number of retries, of which the code uses 20.
