# Verified models of the snapshot-restore experiments

This project models the stateful cores of a collection of virtual machine snapshot experiments and
proves what they are built to guarantee:

- the single-flight range proxy: shared state (`RangeStore.dfy`), the protocol between any number of
  concurrent `get_range` calls (`SingleFlight.dfy`), and the upstream connection of one handler
  thread down to its unread bytes (`Upstream.dfy`, framing in the sense of section 6.3 of RFC 9112);
- the userfault page server: address arithmetic and the chunk cache (`PageServer.dfy`,
  `Alignment.dfy`), and the event loop that defers faults behind `remove` events
  (`FaultDispatch.dfy`);
- the benchmark driver: work split (`WorkSplit.dfy`), start and finish gates (`RunGates.dfy`), and
  the staged network-namespace benchmark with its barrier (`StageBarrier.dfy`);
- the virtio block device: one request (`BlockRequest.dfy`, section 5.2.6 of the VIRTIO
  specification) and the queue with throttling and asynchronous completion (`BlockDevice.dfy`);
- the trace pipeline: the two collectors (`FirstReads.dfy`), attribution through the block atlas
  (`BlockAtlas.dfy`), and prefetch tiers: range encoding and tier sets (`Prefetch.dfy`), first-touch
  ranks, percentiles and the sort key (`Ranks.dfy`), and the emitted files (`Tiers.dfy`);
- recorded patches: applying hunks (`PatchApply.dfy`), and parsing, printing and listing
  (`PatchParse.dfy`).

`Common.dfy` holds weighted sums over sequences and maps.

Concurrent code is a state machine: a state, the events that are enabled in it, a step function, and
theorems about the state after every legal event list. A critical section is one event; condition
variables have explicit sleepers, notifications and spurious wakeups. Sequential code that updates
state is a class or a method with the source's loops, proved equal to a specification function; the
theorems are about that function. What the outside world decides (upstream replies, kernel answers,
arrivals, engine results, operation outcomes) is a parameter that the theorems quantify over.

Five properties one might expect do not hold of the code as it stands. Each is stated with the exact
condition under which it does hold, and with a concrete witness where the failing case is not itself
the branch of the condition:

- a benchmark run whose measured operation fails never returns (`RunGates.RunCompletesIff`,
  `RunGates.BlockedRun`);
- a run that cannot read its resource usage before the start returns and leaves its workers parked
  for ever, unless a failed prepare has woken them (`RunGates.RunCompletesIff`,
  `RunGates.StrandedRun`);
- the two trace collectors differ on reads whose timestamp does not parse
  (`FirstReads.CollectorsAgreeIff`, `FirstReads.CollectorsDisagree`);
- an update that changes no line can still drop a trailing blank line
  (`PatchApply.ContextOnlyUpdate`, `PatchApply.TrailingBlankLineLost`);
- the remote page server's slice is out of range for page sizes above its chunk size
  (`PageServer.SliceInRangeIff`).

## Model

| member | source | states |
|---|---|---|
| `RangeStore.AdmitBalanced` | fetch-motivation/simple-test/range_dedup_proxy.py:46-61 | admitting a request keeps the counter laws: client requests = cache hits + in-flight hits + remote requests, remote requests = cached + in flight + errors, cache bytes = bytes from remote = sum of cached lengths <= bytes served |
| `RangeStore.PublishBalanced` | fetch-motivation/simple-test/range_dedup_proxy.py:68-83 | publishing data or an error for an in-flight key keeps the same laws |
| `RangeStore.CountServedBalanced` | fetch-motivation/simple-test/range_dedup_proxy.py:93-94 | counting a woken waiter's bytes keeps the same laws |
| `RangeStore.RangeStore.constructor` | fetch-motivation/simple-test/range_dedup_proxy.py:23-40 | a new store is empty, all counters zero, and the laws hold |
| `RangeStore.RangeStore.EnterGetRange` | fetch-motivation/simple-test/range_dedup_proxy.py:46-61 | the first critical section of get_range: new shared state and what the caller becomes (hit, owner or waiter) |
| `RangeStore.RangeStore.Publish` | fetch-motivation/simple-test/range_dedup_proxy.py:68-76 | the owner's publishing section: whole new state |
| `RangeStore.RangeStore.PublishFailure` | fetch-motivation/simple-test/range_dedup_proxy.py:80-83 | the owner's failure section: whole new state |
| `RangeStore.RangeStore.Notify` | fetch-motivation/simple-test/range_dedup_proxy.py:77-84 | setting the event changes that FetchState only |
| `RangeStore.RangeStore.CountWaiter` | fetch-motivation/simple-test/range_dedup_proxy.py:93-94 | a woken waiter adds its bytes to bytes_served and nothing else |
| `RangeStore.RangeStore.Stats` | fetch-motivation/simple-test/range_dedup_proxy.py:104-132 | both reported ratios are the exact savings and lie in [0,1) |
| `RangeStore.Saving` | fetch-motivation/simple-test/range_dedup_proxy.py:111-122 | one minus a ratio times the whole is what was saved; zero when nothing was counted |
| `SingleFlight.StepKeeps` | fetch-motivation/simple-test/range_dedup_proxy.py:42-95 | every interleaved step of any number of get_range calls keeps the protocol invariant |
| `SingleFlight.RunKeeps` | fetch-motivation/simple-test/range_dedup_proxy.py:42-95 | the invariant holds after every run, including runs that re-claim a failed key while old waiters sleep |
| `SingleFlight.SingleFlightSafe` | fetch-motivation/simple-test/range_dedup_proxy.py:42-95 | after every run: no key both cached and in flight, at most one call fetching a key, no key fetched successfully twice, every returned byte string is the blob's slice |
| `SingleFlight.NoStrandedWaiter` | fetch-motivation/simple-test/range_dedup_proxy.py:54-95 | after every run a waiter's event is set with exactly one of data and error, or exactly one live owner still has to set it; "completed without data" is never raised |
| `SingleFlight.RunHolds` | fetch-motivation/simple-test/range_dedup_proxy.py:63-84 | a call holds a reply of the upstream, in hand or shown by the FetchState it created, exactly when the run contains that answer to it |
| `SingleFlight.RunCreators` | fetch-motivation/simple-test/range_dedup_proxy.py:54-61 | the creator of a FetchState owns it for good, and everybody on it asked for the creator's key |
| `SingleFlight.EveryAnswerTraced` | fetch-motivation/simple-test/range_dedup_proxy.py:42-95 | every finished call was answered from the cache, or returned exactly when the upstream gave data to the call that created its FetchState, and raised e exactly when the upstream answered that call with e |
| `SingleFlight.NoErrorNoRaise` | fetch-motivation/simple-test/range_dedup_proxy.py:42-95 | in a run without upstream errors no call is raised: every finished call has the blob's slice for its key |
| `SingleFlight.NoDeadlock` | fetch-motivation/simple-test/range_dedup_proxy.py:42-95 | after every run, an unfinished call implies that some call can take a step |
| `SingleFlight.RunsAreFinite` | fetch-motivation/simple-test/range_dedup_proxy.py:42-95 | every run without new arrivals is no longer than the ranks of its calls, so all calls end |
| `SingleFlight.RequestedKeys` | fetch-motivation/simple-test/range_dedup_proxy.py:43-59 | the history of requested keys is the set of keys of admitted calls |
| `SingleFlight.OptimalDedup` | fetch-motivation/simple-test/range_dedup_proxy.py:46-61 | while no fetch has failed, remote_requests is the number of distinct keys requested |
| `SingleFlight.RunTotals` | fetch-motivation/simple-test/range_dedup_proxy.py:46-94 | the counter laws and exact counts hold after every run |
| `SingleFlight.Accounting` | fetch-motivation/simple-test/range_dedup_proxy.py:46-94 | after every run each request counter equals the number of calls answered that way, and bytes_served the bytes of the calls given their data |
| `Upstream.LineLength` | fetch-motivation/simple-test/range_dedup_proxy.py:355-365 | readline takes at least one byte of a non-empty stream and never more than there is |
| `Upstream.ReadHonest` | fetch-motivation/simple-test/range_dedup_proxy.py:355-388 | against a server that never sends more than it declares, an accepted response is the blob's slice and is consumed to the last byte |
| `Upstream.FetchOnceFramed` | fetch-motivation/simple-test/range_dedup_proxy.py:339-388 | one attempt on a framed connection sends nothing behind an unread response, and success leaves it framed |
| `Upstream.FetchRangeFramed` | fetch-motivation/simple-test/range_dedup_proxy.py:332-337 | the same with the one retry on a fresh connection |
| `Upstream.HandlerStaysFramed` | fetch-motivation/simple-test/range_dedup_proxy.py:164-196 | over a whole handler thread no request is sent behind an unread response, and every range returned is the blob's |
| `Upstream.CompleteIsAccepted` | fetch-motivation/simple-test/range_dedup_proxy.py:355-388 | a complete 206 as sent on the wire (status line, headers with the length, empty line, slice) is read as exactly the slice with nothing left over |
| `Upstream.GoodOnce` | fetch-motivation/simple-test/range_dedup_proxy.py:339-388 | such a reply is delivered, on an open connection without opening another |
| `Upstream.GoodFetchSucceeds` | fetch-motivation/simple-test/range_dedup_proxy.py:332-337 | a connection that breaks before a response is made good by the second attempt |
| `Upstream.HandlerServesAll` | fetch-motivation/simple-test/range_dedup_proxy.py:164-196 | a handler whose fetches are all answered in full returns one slice per fetch |
| `Upstream.RefusalLeavesItsBody` | fetch-motivation/simple-test/range_dedup_proxy.py:332-380 | why the handler must end: a refused range is not tried again, its response body is unread, and any further request would go out behind it |
| `Upstream.UpstreamRangeClient.FetchRangeOnce` | fetch-motivation/simple-test/range_dedup_proxy.py:339-388 | the method has the effect of the fetch function on the connection |
| `Upstream.UpstreamRangeClient.FetchRange` | fetch-motivation/simple-test/range_dedup_proxy.py:332-337 | retry exactly once, after closing, on an operating-system error |
| `Upstream.UpstreamRangeClient.Close` | fetch-motivation/simple-test/range_dedup_proxy.py:308-320 | closing forgets the connection and its unread bytes |
| `Upstream.Handle` | fetch-motivation/simple-test/range_dedup_proxy.py:164-196 | the request loop is the handler run: it stops at the first failed range |
| `Alignment.RoundDownIsMask` | firecracker-build/fc-change-set/src/firecracker/examples/uffd/uffd_utils.rs:174-175 | clearing the k low bits, one by one, is rounding down to a multiple of 2^k, which is subtracting the remainder |
| `PageServer.FileOffsetForAddr` | firecracker-build/fc-change-set/src/firecracker/examples/uffd/uffd_utils.rs:174-187 | the page address and the file offset given by the first region that contains it; none exactly when no region does |
| `PageServer.LocateInFile` | firecracker-build/fc-change-set/src/firecracker/examples/uffd/uffd_utils.rs:174-181 | with aligned regions, the file offset is aligned and the whole page lies inside the file |
| `PageServer.PageInChunk` | firecracker-build/fc-change-set/src/firecracker/examples/uffd/remote_range_handler.rs:150-163 | when the page size divides the chunk size, the page lies inside its chunk, the last short chunk included |
| `PageServer.SliceInRangeIff` | firecracker-build/fc-change-set/src/firecracker/examples/uffd/remote_range_handler.rs:150-163 | for powers of two, the slice of the chunk is in range exactly when the page size does not exceed the chunk size |
| `PageServer.CacheGrows` | firecracker-build/fc-change-set/src/firecracker/examples/uffd/remote_range_handler.rs:155-160 | inserting a fetched chunk keeps every cached chunk equal to its blob slice |
| `PageServer.ChunkCache.Chunk` | firecracker-build/fc-change-set/src/firecracker/examples/uffd/remote_range_handler.rs:155-162 | the chunk handed out is the blob's slice, fetched exactly when it was not cached, and the cache gains exactly it; fetches stay equal to the chunks cached |
| `PageServer.ChunkCache.Page` | firecracker-build/fc-change-set/src/firecracker/examples/uffd/remote_range_handler.rs:150-163 | the page cut out of the cache is the page of the blob, whatever the cache holds |
| `FaultDispatch.CopyStream` | firecracker-build/fc-change-set/src/firecracker/examples/uffd/uffd_utils.rs:234-259 | a copy reads no event, fails only while a remove is pending, and never overwrites a populated page |
| `FaultDispatch.CopyPages` | firecracker-build/fc-change-set/src/firecracker/examples/uffd/uffd_utils.rs:206-259 | a copy keeps every populated page equal to its backing bytes |
| `FaultDispatch.ReadStream` | firecracker-build/fc-change-set/src/firecracker/examples/uffd/on_demand_handler.rs:78-80 | reading takes the oldest pending event and loses none |
| `FaultDispatch.DrainFacts` | firecracker-build/fc-change-set/src/firecracker/examples/uffd/on_demand_handler.rs:78-80 | draining reads a prefix of what is to be read and leaves the queue empty |
| `FaultDispatch.HandleAllFacts` | firecracker-build/fc-change-set/src/firecracker/examples/uffd/on_demand_handler.rs:82-98 | one pass: every event comes out once, handled or deferred, and faults are deferred only behind a pending remove |
| `FaultDispatch.RoundProgress` | firecracker-build/fc-change-set/src/firecracker/examples/uffd/on_demand_handler.rs:73-107 | a round that defers anything has seen a remove arrive after its drain |
| `FaultDispatch.DispatchHandlesOnce` | firecracker-build/fc-change-set/src/firecracker/examples/uffd/on_demand_handler.rs:71-107 | over a whole dispatch, every event read is handled exactly once |
| `FaultDispatch.DispatchKeepsUnread` | firecracker-build/fc-change-set/src/firecracker/examples/uffd/on_demand_handler.rs:71-107 | what dispatch has not read is still to be read, in order |
| `FaultDispatch.DispatchRounds` | firecracker-build/fc-change-set/src/firecracker/examples/uffd/on_demand_handler.rs:100-107 | dispatch ends within one round plus one per newly arriving remove |
| `FaultDispatch.DispatchPages` | firecracker-build/fc-change-set/src/firecracker/examples/uffd/on_demand_handler.rs:71-107 | every page populated on the way holds its backing bytes |
| `FaultDispatch.PassInOrder` | firecracker-build/fc-change-set/src/firecracker/examples/uffd/on_demand_handler.rs:82-98 | a pass keeps the order of events, among those it handles and among those it defers |
| `FaultDispatch.DispatchInOrder` | firecracker-build/fc-change-set/src/firecracker/examples/uffd/on_demand_handler.rs:73-107 | with no remove to arrive, one round handles what was deferred before and then everything read, in that order |
| `FaultDispatch.CopyServed` | firecracker-build/fc-change-set/src/firecracker/examples/uffd/uffd_utils.rs:206-259 | a copy that is not refused leaves its page there and adds no other |
| `FaultDispatch.DispatchServes` | firecracker-build/fc-change-set/src/firecracker/examples/uffd/on_demand_handler.rs:71-107 | every page fault handled finds its page populated unless a remove that arrived during the dispatch covers it; pages there before stay on the same terms; no page appears that no handled fault asked for |
| `FaultDispatch.UffdHandler.Serve` | firecracker-build/fc-change-set/src/firecracker/examples/uffd/remote_range_handler.rs:136-164 | local and remote serving have one and the same effect on the kernel |
| `FaultDispatch.UffdHandler.ReadEvents` | firecracker-build/fc-change-set/src/firecracker/examples/uffd/on_demand_handler.rs:78-80 | the read loop is the drain |
| `FaultDispatch.UffdHandler.HandleEvents` | firecracker-build/fc-change-set/src/firecracker/examples/uffd/remote_range_handler.rs:191-210 | the event loop is the pass, and copied_pages grows by the page faults completed |
| `FaultDispatch.UffdHandler.Dispatch` | firecracker-build/fc-change-set/src/firecracker/examples/uffd/remote_range_handler.rs:181-216 | the dispatch closure is the rounds function, and copied_pages grows by exactly the page faults completed |
| `FaultDispatch.WokenPages` | firecracker-build/fc-change-set/src/firecracker/examples/uffd/remote_range_handler.rs:136-216 | after any number of dispatches every populated page holds its backing bytes |
| `FaultDispatch.WokenServes` | firecracker-build/fc-change-set/src/firecracker/examples/uffd/remote_range_handler.rs:181-216 | the same over any number of dispatches |
| `FaultDispatch.FaultServed` | firecracker-build/fc-change-set/src/firecracker/examples/uffd/remote_range_handler.rs:136-216 | a handled page fault has its page with its backing bytes, unless a remove that arrived since covers it; with no remove to arrive, without exception |
| `FaultDispatch.Wake` | firecracker-build/fc-change-set/src/firecracker/examples/uffd/remote_range_handler.rs:169-216 | a handler of either kind, woken n times, brings the kernel to n-fold dispatch over the local bytes and has counted exactly the page faults completed |
| `FaultDispatch.RemoteRefinesLocal` | firecracker-build/fc-change-set/src/firecracker/examples/uffd/remote_range_handler.rs:136-216 | woken any number of times against the same kernel, the remote handler reaches the kernel state that the local bytes determine, as the local handler does: the faults handled are served, with the same bytes, and the copies counted are exactly those faults |
| `WorkSplit.OffsetExact` | restore-motivation/src/ops/mod.rs:320-324 | the saturating arithmetic of iteration_offset never saturates |
| `WorkSplit.EveryWorkerBusy` | restore-motivation/src/ops/mod.rs:310-318 | as many workers as wanted, or one per operation if those are fewer, and each has at least one operation |
| `WorkSplit.ExactPartition` | restore-motivation/src/ops/mod.rs:310-324 | offsets start at 0, each offset plus its count is the next offset, the last is the total, counts differ by at most one |
| `RunGates.InitOk` | restore-motivation/src/ops/mod.rs:435-523 | the initial state of a run satisfies the invariant, with the work split as planned |
| `RunGates.StepKeeps` | restore-motivation/src/ops/mod.rs:454-580 | every step of main and of the workers, spurious wakeups included, keeps the gate invariant |
| `RunGates.RunKeeps` | restore-motivation/src/ops/mod.rs:454-580 | the gate invariant holds after every run |
| `RunGates.StartGateSafe` | restore-motivation/src/ops/mod.rs:478-542 | start implies all workers prepared, no failure and the origin set; no worker ever misses the origin |
| `RunGates.PrepareFailureStopsRun` | restore-motivation/src/ops/mod.rs:462-490 | once a prepare fails, no worker runs an operation, every worker that returns returns an error, and so does the run |
| `RunGates.FinishGateSafe` | restore-motivation/src/ops/mod.rs:511-569 | a successful worker drops its runner only after main has captured wall time and usage; a successful run returns the ids 0..total-1 in order |
| `RunGates.LostOperationBlocksMain` | restore-motivation/src/ops/mod.rs:499-500 | a worker that left through a failed operation keeps main waiting at the finish gate |
| `RunGates.RunRemembers` | restore-motivation/src/ops/mod.rs:454-580 | the state after a run shows a lost operation, a lost prepare or a first capture given up exactly when the run contains such a failure |
| `RunGates.QuietLeftBehind` | restore-motivation/src/ops/mod.rs:526-542 | with main returned and nothing left to happen, a worker is still parked exactly when main gave up at its first capture and no prepare failed |
| `RunGates.RunCompletesIff` | restore-motivation/src/ops/mod.rs:496-580 | when nothing more can happen, main has returned exactly when no measured operation failed in the run; each worker has then returned exactly when main's first usage capture did not fail or some prepare did |
| `RunGates.RunResultIff` | restore-motivation/src/ops/mod.rs:496-580 | what a run that has come to rest returned: all ids in order exactly when nothing failed, each error exactly when its own cause occurred; the final preparation-failed return is unreachable because joining meets a worker's error first |
| `RunGates.BlockedRun` | restore-motivation/src/ops/mod.rs:496-549 | a concrete run that blocks: one worker whose only operation fails |
| `RunGates.StrandedRun` | restore-motivation/src/ops/mod.rs:526-531 | a concrete run that strands its worker: main cannot read its usage before the start and returns |
| `RunGates.StepProgress` | restore-motivation/src/ops/mod.rs:454-580 | every step but a spurious wakeup moves somebody forward for good or puts somebody to sleep waking nobody |
| `RunGates.RunsAreFinite` | restore-motivation/src/ops/mod.rs:454-580 | no run without spurious wakeups is longer than a bound computed from its first state |
| `StageBarrier.StepKeeps` | restore-motivation/src/ops/netns/step_shell.rs:35-55 | every step of a batch keeps the barrier invariant |
| `StageBarrier.Lockstep` | restore-motivation/src/ops/netns/step_shell.rs:35-55 | nobody is in stage k+1 before everybody has run or skipped stage k; each thread calls the barrier once per stage |
| `StageBarrier.NoDeadlock` | restore-motivation/src/ops/netns/step_shell.rs:35-55 | whatever fails, while some thread is not through all stages somebody can move |
| `StageBarrier.RunsAreFinite` | restore-motivation/src/ops/netns/step_shell.rs:35-55 | a batch takes at most three steps per thread and stage |
| `StageBarrier.ThreadOutcome` | restore-motivation/src/ops/netns/step_shell.rs:36-61 | a thread that is through reports an error exactly when one of its stages failed, otherwise one measurement per stage in order |
| `StageBarrier.TableExactlyOnce` | restore-motivation/src/ops/netns/step_shell.rs:20-73 | the result table holds every instance and stage exactly once |
| `StageBarrier.RunBatch` | restore-motivation/src/ops/netns/step_shell.rs:22-67 | scheduled in any order, a batch ends with every thread through all stages, by a legal run of the barrier |
| `StageBarrier.JoinedThread` | restore-motivation/src/ops/netns/step_shell.rs:36-70 | what joining a thread yields: an error exactly when a stage of its instance failed, otherwise the instance's measurements in stage order |
| `StageBarrier.Run` | restore-motivation/src/ops/netns/step_shell.rs:20-73 | every batch runs its threads through the barrier; the run succeeds exactly when all instances pass, and then returns the whole table in order; otherwise it reports the least failing instance |
| `BlockRequest.FitsIff` | firecracker-build/fc-change-set/src/vmm/src/devices/virtio/block/virtio/request.rs:296-318 | the length and offset checks accept exactly whole-sector transfers on the disk and large enough id buffers |
| `BlockRequest.ParseSound` | firecracker-build/fc-change-set/src/vmm/src/devices/virtio/block/virtio/request.rs:245-332 | what parse accepts has the header, data and status layout required by section 5.2.6 of the VIRTIO specification, and fits |
| `BlockRequest.TypeCodes` | firecracker-build/fc-change-set/src/vmm/src/devices/virtio/block/virtio/request.rs:41-50 | an accepted request is of a type exactly when its header holds that type's code (section 5.2.6 of the VIRTIO specification) |
| `BlockRequest.ParseComplete` | firecracker-build/fc-change-set/src/vmm/src/devices/virtio/block/virtio/request.rs:245-332 | every chain with that layout that fits is accepted, with its fields |
| `BlockRequest.TransferOnDisk` | firecracker-build/fc-change-set/src/vmm/src/devices/virtio/block/virtio/request.rs:296-356 | for every accepted read or write the sector shift loses no bits and the transfer ends inside the backing file |
| `BlockRequest.CompletionExact` | firecracker-build/fc-change-set/src/vmm/src/devices/virtio/block/virtio/request.rs:74-188 | the used length never wraps and is the bytes written plus one; the status is OK exactly when everything moved |
| `BlockRequest.RateLimit` | firecracker-build/fc-change-set/src/vmm/src/devices/virtio/block/virtio/request.rs:334-352 | a throttled request costs nothing, an admitted one exactly one operation and its length; throttled exactly when a budget does not cover it |
| `BlockDevice.Decide` | firecracker-build/fc-change-set/src/vmm/src/devices/virtio/block/virtio/device.rs:398-445 | a head goes back without engine throttling only when the rate limiter has closed |
| `BlockDevice.PopUndone` | firecracker-build/fc-change-set/src/vmm/src/devices/virtio/block/virtio/device.rs:396-436 | popping takes the oldest available chain, and undoing the pop puts that chain back in front |
| `BlockDevice.DecideHonest` | firecracker-build/fc-change-set/src/vmm/src/devices/virtio/block/virtio/device.rs:398-445 | under the engine's contract, a rejected chain retires with length zero, any other with at most its data and the status byte, the data part empty unless it reads and exact for a device id; the engine throttles only with requests in flight |
| `BlockDevice.UnservedHead` | firecracker-build/fc-change-set/src/vmm/src/devices/virtio/block/virtio/device.rs:398-426 | a head that does not parse retires with length zero; one the limiter stops is available again behind a closed limiter; the rest of the state is untouched |
| `BlockDevice.EngineDecides` | firecracker-build/fc-change-set/src/vmm/src/devices/virtio/block/virtio/request.rs:405-422 | an accepted transfer or flush goes in flight exactly when the engine submitted it, back with the flag set exactly when it throttled, and otherwise into the used ring with the exact length: nothing without the status byte, else one more than what a read moved |
| `BlockDevice.AnsweredAtOnce` | firecracker-build/fc-change-set/src/vmm/src/devices/virtio/block/virtio/request.rs:393-403 | device id and unsupported requests retire at once, with the id's bytes if they were written |
| `BlockDevice.CompletionRetires` | firecracker-build/fc-change-set/src/vmm/src/devices/virtio/block/virtio/device.rs:471-511 | a completion takes exactly its request out of flight and writes its chain's entry with the exact length |
| `BlockDevice.ServeHeadPlaces` | firecracker-build/fc-change-set/src/vmm/src/devices/virtio/block/virtio/device.rs:396-445 | whatever becomes of a popped head (retired, submitted, or put back on either throttle), it is held as often as before |
| `BlockDevice.ProcessQueueOrderly` | firecracker-build/fc-change-set/src/vmm/src/devices/virtio/block/virtio/device.rs:389-447 | the loop advances the ring by exactly the chains it retired or submitted, so throttled heads are back where they were, and stops only at an empty ring or a closed throttle |
| `BlockDevice.ProcessQueueThrottles` | firecracker-build/fc-change-set/src/vmm/src/devices/virtio/block/virtio/device.rs:433-437 | engine throttling leaves a request in flight |
| `BlockDevice.ProcessQueuePlaces` | firecracker-build/fc-change-set/src/vmm/src/devices/virtio/block/virtio/device.rs:389-447 | the queue loop neither loses nor duplicates a chain |
| `BlockDevice.ProcessQueueUsed` | firecracker-build/fc-change-set/src/vmm/src/devices/virtio/block/virtio/device.rs:434-445 | every used entry carries its own head index and a length of at most its data plus the status byte |
| `BlockDevice.CompletionsPlaces` | firecracker-build/fc-change-set/src/vmm/src/devices/virtio/block/virtio/device.rs:471-511 | completions move chains from in flight to used, one for one |
| `BlockDevice.DrainEmpties` | firecracker-build/fc-change-set/src/vmm/src/devices/virtio/block/virtio/device.rs:573-582 | after a full drain before a snapshot nothing is in flight |
| `BlockDevice.VirtqueueConservation` | firecracker-build/fc-change-set/src/vmm/src/devices/virtio/block/virtio/device.rs:360-535 | over every interleaving of driver, queue, rate-limiter and completion events, an offer is in as many places as it was made |
| `BlockDevice.VirtqueueOrder` | firecracker-build/fc-change-set/src/vmm/src/devices/virtio/block/virtio/device.rs:360-535 | after every run: the ring is the offers in order, exactly those before the next to pop are in flight or used, used lengths are honest, and no chain waits without a notification, the limiter's timer, or a request in flight or completion event that ends the engine's throttling |
| `BlockDevice.ChainInOnePlace` | firecracker-build/fc-change-set/src/vmm/src/devices/virtio/block/virtio/device.rs:360-535 | from a fresh device on, a chain offered once is in exactly one of available, in flight and used, and the order law holds |
| `BlockDevice.SynchronousInOrder` | firecracker-build/fc-change-set/src/vmm/src/devices/virtio/block/virtio/device.rs:389-447 | with an engine that executes at once, chains retire in the order offered, whatever is throttled in between |
| `BlockDevice.VirtioBlock.ProcessQueueLoop` | firecracker-build/fc-change-set/src/vmm/src/devices/virtio/block/virtio/device.rs:389-447 | process_queue, which pops first and undoes the pop on either throttle, has the effect of the queue function |
| `BlockDevice.VirtioBlock.ProcessAsyncCompletionQueue` | firecracker-build/fc-change-set/src/vmm/src/devices/virtio/block/virtio/device.rs:471-511 | the completion loop has the effect of the completion function |
| `BlockDevice.VirtioBlock.ProcessQueueEvent` | firecracker-build/fc-change-set/src/vmm/src/devices/virtio/block/virtio/device.rs:360-372 | a queue event is ignored while the limiter or the engine throttles |
| `BlockDevice.VirtioBlock.ProcessRateLimiterEvent` | firecracker-build/fc-change-set/src/vmm/src/devices/virtio/block/virtio/device.rs:379-386 | a limiter event reopens the limiter and resumes the queue |
| `BlockDevice.VirtioBlock.ProcessAsyncCompletionEvent` | firecracker-build/fc-change-set/src/vmm/src/devices/virtio/block/virtio/device.rs:522-535 | completions are processed first; a throttled queue is then resumed |
| `BlockDevice.VirtioBlock.PrepareSave` | firecracker-build/fc-change-set/src/vmm/src/devices/virtio/block/virtio/device.rs:573-582 | prepare_save leaves nothing in flight |
| `FirstReads.BlocksAreTouched` | rootfs-predict/scripts/collect/collect_first_read_blocks.py:42-44 | a read touches exactly the blocks that hold one of its bytes, each once, in ascending order |
| `FirstReads.CollectFirst` | rootfs-predict/scripts/collect/collect_first_read_blocks.py:24-49 | iter_blocks yields the first touches in order: a block is reported exactly when a valid read of a lower drive covers one of its bytes |
| `FirstReads.CollectFile` | rootfs-predict/scripts/collect/collect_file_reads.py:56-111 | iter_read_blocks behind seen_blocks yields the first touches in order: a block is reported exactly when a valid timestamped read covers one of its bytes |
| `FirstReads.ScanSpan` | rootfs-predict/scripts/collect/collect_first_read_blocks.py:42-49 | the block loop extends the first touches by the read's blocks |
| `FirstReads.FirstTouchFacts` | rootfs-predict/scripts/collect/collect_first_read_blocks.py:44-49 | first touches hold the same blocks, once each, and a longer trace only adds at the end |
| `FirstReads.AgreeStep` | rootfs-predict/scripts/collect/collect_file_reads.py:61-71 | one more line keeps the collectors in agreement exactly when it is harmless |
| `FirstReads.AgreeThroughoutIff` | rootfs-predict/scripts/collect/collect_file_reads.py:56-111 | the collectors agree at every point while a trace is read exactly when each read with an unusable timestamp touches only blocks already read with a usable one |
| `FirstReads.ScanTracks` | rootfs-predict/scripts/collect/collect_file_reads.py:56-111 | a single pass that queues the blocks only unusable reads have touched tells how the two reports differ so far |
| `FirstReads.CollectorsAgreeIff` | rootfs-predict/scripts/collect/collect_file_reads.py:56-111 | on a whole trace the collectors report the same lower-drive blocks in the same order exactly when that pass never sees a new block ahead of a queued one and ends with its queue empty |
| `FirstReads.CollectorsDisagree` | rootfs-predict/scripts/collect/collect_file_reads.py:64-69 | a concrete trace on which they differ |
| `BlockAtlas.GroupRows` | rootfs-predict/scripts/collect/collect_file_reads.py:24-36 | a drive is indexed exactly when it has a row, and every block finds its entries in file order |
| `BlockAtlas.BuildIndex` | rootfs-predict/scripts/collect/collect_file_reads.py:38-43 | the per-drive index is sorted and holds the grouped entries |
| `BlockAtlas.LookupEntries` | rootfs-predict/scripts/collect/collect_file_reads.py:46-53 | binary search in the index is lookup in the grouped map |
| `BlockAtlas.CountKinds` | rootfs-predict/scripts/collect/collect_file_reads.py:167-180 | each distinct class of a block counts once |
| `BlockAtlas.EntryRows` | rootfs-predict/scripts/collect/collect_file_reads.py:132-148 | one row per entry of a block, in file order, and the set of its classes |
| `BlockAtlas.Attribute` | rootfs-predict/scripts/collect/collect_file_reads.py:107-180 | one row per block and entry in order, unmapped rows are the blocks without entries, each class total is the number of blocks of that class, and together they add up block by block |
| `BlockAtlas.TotalsAddUpIff` | rootfs-predict/scripts/collect/collect_file_reads.py:117-180 | class totals plus unmapped rows equal the blocks on indexed drives exactly when every mapped block has a single class |
| `BlockAtlas.AttributeTrace` | rootfs-predict/scripts/collect/collect_file_reads.py:94-180 | from trace and atlas to totals: class totals plus unmapped rows are at least the distinct blocks read on indexed drives, and equal exactly when no block read has entries of two classes |
| `Prefetch.RepoMeans` | rootfs-predict/scripts/analysis/analyze_common.py:45-46 | the repository of a task is what stands before its last dash, or the whole of it |
| `Prefetch.MatchingMember` | rootfs-predict/scripts/analysis/build_prefetch_set.py:99-106 | a row is in the sample exactly when phase, drive and scope fit |
| `Prefetch.SelectedIff` | rootfs-predict/scripts/analysis/build_prefetch_set.py:107-138 | a block is selected exactly when it is touched and the runs that touch it reach the threshold's share of all runs |
| `Prefetch.MatchingRows` | rootfs-predict/scripts/analysis/build_prefetch_set.py:99-106 | the filter loop yields the sample |
| `Prefetch.OrderedBlocks` | rootfs-predict/scripts/analysis/build_prefetch_set.py:141-152 | every block of the set once, sorted by the given total order |
| `Prefetch.SortedUnique` | rootfs-predict/scripts/analysis/build_prefetch_set.py:141-152 | a total order leaves one way to list a set |
| `Prefetch.RangeRows` | rootfs-predict/scripts/analysis/build_prefetch_set.py:155-168 | the ranges expand to exactly the list they encode, and each is a maximal run |
| `Prefetch.MaximalUnique` | rootfs-predict/scripts/analysis/build_prefetch_set.py:155-168 | the encoding is canonical: two maximal range lists with the same expansion are equal |
| `Prefetch.TiersPartition` | rootfs-predict/scripts/analysis/build_prefetch_set.py:273-309 | the three tiers are disjoint per drive, and a block frequent in the task's own workload is in exactly one |
| `Prefetch.Encode` | rootfs-predict/scripts/analysis/build_prefetch_set.py:155-168 | one encoded list names a set's blocks once each, in order, as maximal ranges of its drive only |
| `Prefetch.ListUnique` | rootfs-predict/scripts/analysis/build_prefetch_set.py:141-168 | drive, blocks and order leave exactly one encoded list |
| `Ranks.RowRoundTrip` | rootfs-predict/scripts/collect/collect_first_read_blocks.py:69-79 | the block read back from a collected row (its offset divided by the block size) is the block collected |
| `Ranks.GivenToOk` | rootfs-predict/scripts/analysis/build_prefetch_set.py:111-125 | every block is given, once by each run that touches it and by no other, its position among that run's first touches |
| `Ranks.GivenRuns` | rootfs-predict/scripts/analysis/build_prefetch_set.py:111-125 | the runs that give a block a rank are exactly the runs that touch it |
| `Ranks.PercentileMeaning` | rootfs-predict/scripts/analysis/build_prefetch_set.py:33-46 | a percentile is one of the values; no more than the asked share lies below it, and more than that share does not exceed it |
| `Ranks.StatMeans` | rootfs-predict/scripts/analysis/build_prefetch_set.py:126-134 | a touched block's median and 90th percentile are ranks given to it with at most half, at most nine tenths below; its frequency is its share of runs |
| `Ranks.RankBlocks` | rootfs-predict/scripts/analysis/build_prefetch_set.py:111-125 | the ranking loop records, for exactly the blocks touched, the ranks given to them |
| `Ranks.BlockStats` | rootfs-predict/scripts/analysis/build_prefetch_set.py:99-134 | frequency, median and 90th percentile rank of exactly the blocks the rows touch |
| `Ranks.KeyIsTotalOrder` | rootfs-predict/scripts/analysis/build_prefetch_set.py:141-152 | the sort key orders any two blocks, whatever their statistics |
| `Tiers.SelectBlocks` | rootfs-predict/scripts/analysis/build_prefetch_set.py:137-138 | the selected blocks are those whose share of runs meets the threshold |
| `Tiers.EncodeByStats` | rootfs-predict/scripts/analysis/build_prefetch_set.py:141-168 | one list: the blocks in the order of median rank, 90th percentile rank, frequency and block, as maximal ranges |
| `Tiers.PreworkloadRows` | rootfs-predict/scripts/analysis/build_prefetch_set.py:178-198 | per drive: the union of the task's own preworkload blocks, as one ordered list |
| `Tiers.DriveRows` | rootfs-predict/scripts/analysis/build_prefetch_set.py:204-210 | per drive: the frequent blocks not selected before, as one ordered list |
| `Tiers.WorkloadRows` | rootfs-predict/scripts/analysis/build_prefetch_set.py:201-211 | one such list per lower drive, root file system first |
| `Tiers.CommonTier` | rootfs-predict/scripts/analysis/build_prefetch_set.py:273-290 | tier 0 is the two preworkload lists followed by the list of common root blocks |
| `Tiers.BuildTiers` | rootfs-predict/scripts/analysis/build_prefetch_set.py:273-309 | each emitted file is its lists in turn, each naming its tier's blocks in the order of their statistics as maximal ranges |
| `Tiers.ListedByRank` | rootfs-predict/scripts/analysis/build_prefetch_set.py:141-152 | in an emitted list a block of smaller median rank comes first, then of smaller 90th percentile rank, then of greater frequency, then the smaller block |
| `Tiers.Tier0Unique` | rootfs-predict/scripts/analysis/build_prefetch_set.py:273-290 | the trace determines the tier 0 file |
| `Tiers.WorkloadTierUnique` | rootfs-predict/scripts/analysis/build_prefetch_set.py:201-211 | the trace and the selection determine a workload tier's file |
| `Tiers.Tier0Lists` | rootfs-predict/scripts/analysis/build_prefetch_set.py:273-290 | although three lists are joined, tier 0 names each of its blocks exactly once per drive |
| `Tiers.WorkloadTierLists` | rootfs-predict/scripts/analysis/build_prefetch_set.py:201-211 | a workload tier names each of its blocks exactly once per drive |
| `PatchApply.FirstMatch` | fetch-motivation/workload-control/guest/agent_replay.py:145-154 | the leftmost match at or after a position, or none |
| `PatchApply.HunkAcceptedIff` | fetch-motivation/workload-control/guest/agent_replay.py:100-142 | a hunk is accepted exactly when its block types are known and its pre-image is empty or occurs; with an empty one the insertion is at the cursor |
| `PatchApply.ApplyHunk` | fetch-motivation/workload-control/guest/agent_replay.py:100-142 | the cursor stays inside the lines |
| `PatchApply.HunkLocal` | fetch-motivation/workload-control/guest/agent_replay.py:100-142 | the window is the leftmost match at or after the cursor, else the leftmost of all; it becomes the post-image and nothing else changes |
| `PatchApply.HunkInvertible` | fetch-motivation/workload-control/guest/agent_replay.py:100-142 | the hunk with additions and deletions exchanged, applied at the match, restores the lines |
| `PatchApply.HunksInSequence` | fetch-motivation/workload-control/guest/agent_replay.py:86-90 | each hunk is matched against the lines the hunks before it left, first behind the previous window, and from the start only if nothing matches there |
| `PatchApply.UpdateInvertible` | fetch-motivation/workload-control/guest/agent_replay.py:88-90 | a whole successful update is undone by the swapped hunks, last to first |
| `PatchApply.ContextChangesNoLine` | fetch-motivation/workload-control/guest/agent_replay.py:88-90 | hunks of context only change no line |
| `PatchApply.JoinSplit` | fetch-motivation/workload-control/guest/agent_replay.py:82-92 | joining the split lines gives the text back |
| `PatchApply.SplitLines` | fetch-motivation/workload-control/guest/agent_replay.py:82 | no line holds a newline |
| `PatchApply.ContextOnlyUpdate` | fetch-motivation/workload-control/guest/agent_replay.py:82-97 | a context-only update leaves the text unchanged exactly when it does not end in a newline or its last line is not empty; otherwise one newline is lost |
| `PatchApply.TrailingBlankLineLost` | fetch-motivation/workload-control/guest/agent_replay.py:92-96 | a concrete text that loses its trailing blank line |
| `PatchApply.FindSubsequence` | fetch-motivation/workload-control/guest/agent_replay.py:145-154 | the search loop finds the leftmost match, or -1 |
| `PatchApply.Images` | fetch-motivation/workload-control/guest/agent_replay.py:108-123 | pre- and post-image of a hunk, and the error on an unknown block type |
| `PatchApply.Editor.InsertAll` | fetch-motivation/workload-control/guest/agent_replay.py:125-129 | inserting line by line at the cursor is one splice |
| `PatchApply.Editor.Apply` | fetch-motivation/workload-control/guest/agent_replay.py:100-142 | the in-place method has the effect of the hunk function, and a rejected hunk changes nothing |
| `PatchApply.ApplyUpdate` | fetch-motivation/workload-control/guest/agent_replay.py:69-97 | all hunks are applied or none, and the text is put back together |
| `PatchParse.ClassifyFacts` | fetch-motivation/codex-history-parser/parse_codex_history.py:174-235 | the prefix tests of the parsers exclude one another |
| `PatchParse.StripMeans` | fetch-motivation/codex-history-parser/parse_codex_history.py:141-151 | stripping takes white space off both ends, all of it and nothing else |
| `PatchParse.ListingMatchesParse` | fetch-motivation/codex-history-parser/parse_codex_history.py:137-243 | between the markers, the changed-file list is what the parsed operations say |
| `PatchParse.PatchListing` | fetch-motivation/codex-history-parser/parse_codex_history.py:137-243 | for every accepted patch, changed_files_from_patch lists the operations, paths and moves of parse_patch |
| `PatchParse.PatchRoundTrip` | fetch-motivation/codex-history-parser/parse_codex_history.py:156-243 | parsing the printed form of any normal operation list gives it back |
| `PatchParse.ParsedIsNormal` | fetch-motivation/codex-history-parser/parse_codex_history.py:156-243 | every accepted patch parses to stripped paths and non-empty blocks whose neighbours differ in kind |
| `PatchParse.PatchAcceptedIff` | fetch-motivation/codex-history-parser/parse_codex_history.py:164-243 | a patch is accepted exactly when both markers stand and every line between them is allowed where it stands, by rules that look at one line at a time |
| `PatchParse.ImagesFromText` | fetch-motivation/codex-history-parser/parse_codex_history.py:157-203 | a hunk expects the lines its text shows without plus and leaves those it shows without minus |
| `PatchParse.ReparseStable` | fetch-motivation/codex-history-parser/parse_codex_history.py:156-243 | printing and parsing an accepted patch again changes nothing |
| `PatchParse.SectionKeepsLines` | fetch-motivation/codex-history-parser/parse_codex_history.py:157-207 | the hunks of every accepted update body print back to the body without its end-of-file lines, behind @@ where the first header was implicit |
| `PatchParse.SectionKeepsEof` | fetch-motivation/codex-history-parser/parse_codex_history.py:189-192 | the end-of-file mark is set exactly when such a line occurs |
| `PatchParse.AddKeepsLines` | fetch-motivation/codex-history-parser/parse_codex_history.py:211-233 | the blocks of every accepted add body print back to the body without its end-of-file lines |
| `PatchParse.ReadUpdate` | fetch-motivation/codex-history-parser/parse_codex_history.py:182-207 | the loop over an update's body |
| `PatchParse.ReadAdd` | fetch-motivation/codex-history-parser/parse_codex_history.py:214-231 | the loop over an add's body |
| `PatchParse.TakeUpdate` | fetch-motivation/codex-history-parser/parse_codex_history.py:174-209 | an update section, from its header to the index of the next header |
| `PatchParse.TakeAdd` | fetch-motivation/codex-history-parser/parse_codex_history.py:211-233 | an add section, from its header to the index of the next header |
| `PatchParse.ParsePatch` | fetch-motivation/codex-history-parser/parse_codex_history.py:156-243 | the index-driven parser accepts and produces what the grammar function does |
| `PatchParse.ChangedFiles` | fetch-motivation/codex-history-parser/parse_codex_history.py:137-153 | the line loop lists the changes |

## Left out

- RangeStore.RangeStore.Publish: does not keep the total and maximum fetch times, which are clock readings.
- Sockets, HTTP header text and `parse_range_header`: a range is a start and a length of at least one; how a line is read as a status or header is an arbitrary function.
- Asynchronous exceptions inside a critical section, and `BaseException` outside the fetch.
- Upstream.HandlerStaysFramed: assumes a server that sends no more body than the length it declares.
- The Rust `HttpRangeClient`, which drops its connection after any error: it would only repeat the framing argument with fewer cases. The chunk cache takes its answers as the blob's bytes.
- PageServer.FileOffsetForAddr: addresses and sizes are unbounded; regions are taken to fit in 64 bits.
- FaultDispatch.UffdHandler.Dispatch: assumes that faults lie in a region and that copy fails only with EAGAIN while a remove is pending or with EEXIST; any other answer makes the handler panic. Unregistering a removed range is recorded as handled and has no further effect on the model.
- The causal order of `remove` and `pagefault` events, which the handlers give up.
- `Runtime::run`, polling, signals, mmap and the panic hook.
- `run_external`, the benchmark without a prepare step: its gate is the start gate without failures.
- RunGates.RunsAreFinite: counts no spurious wakeups; with them a run can be arbitrarily long without progress.
- Resource-usage deltas, wall-clock values, and panics of worker threads.
- The netns commands themselves, `allow_failure`, and cleanup: a stage is its outcome.
- StageBarrier.Run: requires a positive concurrency, which the command line enforces; with zero the batch loop would not advance.
- Virtqueue memory layout, notification suppression and interrupts; chains that arrive while the queue loop is running (they arrive between handler calls in the model).
- BlockRequest.RateLimit: the limiter is two integer budgets and a blocked flag; bucket sizes, bursts and over-consumption are not modelled.
- BlockDevice.VirtqueueOrder: takes the engine at its contract (it throttles only while it holds requests, moves no more than it was asked to, and gives every request back when drained) and `add_used` as succeeding; the conservation law needs no engine contract.
- BlockDevice.VirtioBlock.ProcessRateLimiterEvent: takes the refilled budgets as parameters, and the event handler as succeeding.
- Device configuration space, feature bits, snapshot save and restore of the device.
- Tiers.SelectBlocks: frequencies and thresholds are exact reals, and a percentile's index is computed in whole tenths, not in floating point.
- CSV, JSON and command-line handling, warnings, plots and summaries; `export_block_atlas.py`, whose output is the atlas taken as input.
- BlockAtlas.Attribute: leaves out the per-file summary rows and their first timestamps.
- File system effects of patches (missing targets, adding, deleting and moving files): an update is a function of the file's text after newline translation.
- PatchParse.ParsePatch: starts from the lines of a patch; how `splitlines` cuts text into lines is not modelled.
