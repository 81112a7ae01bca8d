# Verified model of an evolving-graph engine

The engine ingests a stream of edges, keeps them in a grid of tiles, and updates the result of a vertex program while
edges keep arriving. This project models its hard core in Dafny and proves what its parts promise each other:
`dafny verify dfyconfig.toml` checks everything.

* **The concurrent ring buffer**, in layers. `CombiningQueue` is one side (put or get) of the buffer as a step
  system over any number of threads: requests are swapped onto a tail, one thread executes them for the others, hands
  the role over, and puts the others to sleep meanwhile. `CombiningInvariant`, `CombiningTheorems` and
  `CombiningScenarios` say what holds in every schedule and what does not, `CombiningLimits` how long a thread serves
  others, and `CombiningProgress` that every step leads somewhere. `RingLayout` to `RingProgress` are the bytes
  of the buffer under all interleavings of one putter, one getter and the owners of elements, which the combining queue
  makes of many threads; they refine a first-in first-out queue. `RingBuffers` has the same buffer in the form of the
  code, a class over a byte array whose reap loops, puts and gets run to completion, proved against the step system.
  `RingQueues` puts the layers together: two combining queues of any number of threads over one byte ring, and
  `RingQueueTheorems` says what the whole promises. `CombiningPeeks`, `RingPeeks`, `RingPeekTheorems` and `RingStalls` are
  about what a combiner waits for, when that ends, and when it does not.
  `TombstoneRing` is the build without the double mapping, and `TombstoneQueue` what it promises its callers.
* **The tile grid.** `Traversals` (in Hilbert.dfy) has the three space-filling orders, `TileIndex` the rounding of the
  settings and the index from positions and meta tiles to tiles, `Powers` and `Modular` the arithmetic.
* **The edge store of a tile.** `LocalEdges` and `TileManagers`: overflow list, rows in two encodings, compaction and
  its cost; `Permutations`: reordering in place.
* **A round of the algorithm.** `VertexPrograms` (breadth-first search and connected components), `Executors` (gathering
  a batch of tiles), `ApplyMachine` and `ApplyProgress` (the compare-and-swap loops of all executors, and that they end), `TileDistribution` and `MetaTileCounts`
  (which tiles are scheduled), `PullRound` and `PullPhases` (all of it together equals one flat round), `ApplyPhase` (the
  apply phase and its test of flags), `Labels` (what labels mean while edges arrive) and `LabelRounds` (how soon the
  rounds after them settle, and when they do not).
* **The edge pipeline.** `Pipeline`: providers, the inserter with its reply barrier and counted shutdowns, and the meta
  tile managers. `PipelineConservation` and `PipelineOwnership` follow the edges, `PipelineOrder` their order,
  `PipelineBatches` the batches; `PipelineTheorems`, `PipelineRounds` (when the algorithm runs) and `PipelineProgress`
  (that everything ends) have the results.

Code that changes objects step by step is a class or a method with loops (`RingBuffer`, `TileManager`, `Executor`,
`TileStore`, `Config`, `TileDistributor`, `MetaTileManager`, `VertexStore`, `Xy2d`, `ApplyInPlace`); protocols between threads are step
systems whose actions interleave freely.

Eight results go against what one might expect of the code:

* Requests are executed in the order of their swap, but they can be flagged DONE out of order
  (`CombiningScenarios.FlagsMayBeOutOfOrder`, exactly when in `CombiningTheorems.OvertakenExactly`).
* A thread whose request is already DONE can still fall asleep, because the test reads `rc` before `is_nap_time`
  (`CombiningScenarios.DoneThreadMayFallAsleep`, exactly when in `ServedSleepers`).
* A sleeping thread can be flagged DONE, which does not wake it: a combiner that has closed the queue sets its last flag
  after it has given the role up (`CombiningScenarios.SleeperMayBeFlagged`). It is the only way, and only a request that
  was served before its thread fell asleep can meet it (`CombiningTheorems.FlaggedWhileAsleep`); a combiner in its loop
  flags nobody who sleeps (`AwakeAtFlagging`).
* A get can wait for an element that is long gone. The monitor of the get side is not cleared when a combiner serves
  others; if their gets were not blocking, it can be left on an element that is taken afterwards, and the next combiner
  that finds the ring empty polls it for READY (`RingStalls.MonitorLeftOver`, exactly when in
  `RingPeekTheorems.LeftOverExactly`). If that element is DONE, every get hangs until a put reclaims it
  (`LeftOverStalls`). With blocking gets only, this cannot happen (`BlockingGetsWaitRightly`).
* The apply phase can miss a vertex and report convergence, because it tests 64 flags by a look at the first byte of
  them (`LabelRounds.LabelLost`). It tests every flag whatever they are if and only if the graph has fewer than 72
  vertices (`CompleteExactly`); in rounds that test every flag the labels are right after |V| rounds (`RightInTime`).
* In a done-only ring without the double mapping, a put that leaves a tombstone and then fails loses space for good
  (`TombstoneRing.LostSpace`, exactly when in `OrphanedExactly`).
* Compaction loses the edge (65535, 65535) if and only if it is the only live one of its tile
  (`TileManagers.CompactionIsExactly`, `LostEdge`).
* If a tile has at least twice as many vertices as the graph may have, `int_ceil` of the already truncated quotient is
  zero and the grid has no tiles (`TileIndex.Config.NormalizeConfig`).

## Model

| member | source | states |
|---|---|---|
| `CombiningInvariant.StepInv` | src/util/pci-ring-buffer/lib/ring_buffer.c:976-1143 | Every step of every thread (enqueue, link, wait, nap, execute, peek, wake, flag, hand over), at the granularity of one access to shared memory, keeps the invariant of the combining queue |
| `CombiningInvariant.ScheduleInv` | src/util/pci-ring-buffer/lib/ring_buffer.c:1048-1143 | Hence every schedule of any number of arriving threads, blocking and non-blocking, keeps it |
| `CombiningTheorems.OneCombiner` | src/util/pci-ring-buffer/lib/ring_buffer.c:1059-1143 | At most one thread at a time is between becoming the combiner and ending it; while the request tail is not NULL there is a combiner, or the role has been given to a blocking waiter that is awake; while it is NULL there is none |
| `CombiningTheorems.ExecutedInSwapOrder` | src/util/pci-ring-buffer/lib/ring_buffer.c:976-989 | Operations are executed in the order in which requests were swapped onto the tail, none skipped, and a request is flagged DONE only after all before it were executed |
| `CombiningTheorems.DoneExactly` | src/util/pci-ring-buffer/lib/ring_buffer.c:1103-1129 | A request is DONE exactly if the combiner has gone past it and no thread, having closed the queue behind it, still has to flag it |
| `CombiningTheorems.OvertakenExactly` | src/util/pci-ring-buffer/lib/ring_buffer.c:1108-1113 | A request is overtaken by the DONE flag of a later one if and only if some thread has swapped the tail back to NULL behind it and not flagged it yet |
| `CombiningTheorems.DoneIsFinal` | src/util/pci-ring-buffer/lib/ring_buffer.c:1042-1112 | A DONE request has a final return code; in a blocking ring a blocking request is never flagged DONE with -EAGAIN; a blocking caller only returns once its request is DONE |
| `CombiningTheorems.DoneIsNotTouched` | src/util/pci-ring-buffer/lib/ring_buffer.c:1076-1143 | No thread is about to access a request of another thread that is already DONE, whose memory its owner may have reused |
| `CombiningTheorems.DoneIsFrozen` | src/util/pci-ring-buffer/lib/ring_buffer.c:1103-1142 | No step changes any field of a DONE request |
| `CombiningTheorems.FlaggedExactlyOnce` | src/util/pci-ring-buffer/lib/ring_buffer.c:1110-1129 | In every schedule that ends with a request DONE there is one step that flags it: it is not DONE before and stays DONE after |
| `CombiningTheorems.HandOverToBlockingOnly` | src/util/pci-ring-buffer/lib/ring_buffer.c:1131-1142 | The combiner role is only handed to a blocking request whose thread is waiting and not asleep, never to a non-blocking one |
| `CombiningLimits.ServesAtMost` | src/util/pci-ring-buffer/lib/ring_buffer.c:1073-1136 | In every schedule: if the k-th candidate of a thread for its succession, the request it comes to after 128, 193, 226, ... others, each time half of the last number and one more, has a caller that waits, the thread flags no more requests than come before it; so at most 128, its own among them, if the first candidate waits |
| `CombiningLimits.HandsOverExactly` | src/util/pci-ring-buffer/lib/ring_buffer.c:1085-1142 | The role goes to a blocking request only, which has just failed in a ring created to block, or is the first of these candidates whose caller waits and has not been tried |
| `CombiningLimits.ExecutesUpToCandidate` | src/util/pci-ring-buffer/lib/ring_buffer.c:1073-1136 | No thread executes a request at or behind its first candidate whose caller waits |
| `CombiningProgress.CombinerAdvances` | src/util/pci-ring-buffer/lib/ring_buffer.c:1073-1142 | Every step of a combiner gives the role up, ends its work on one more request, comes closer to that in a ranking of 15 points, or tries its own blocking request again that has failed in a ring created to block |
| `CombiningProgress.NapTimes` | src/util/pci-ring-buffer/lib/ring_buffer.c:73-156 | Nap time begins only after the own blocking request of the combiner has failed, and ends only when that request needs no more waiting or an element was monitored for it |
| `CombiningProgress.DoneReturns` | src/util/pci-ring-buffer/lib/ring_buffer.c:991-1014 | A blocking caller whose request is DONE returns after at most 7 of its own steps, wherever it is |
| `CombiningProgress.HeirTakesRole` | src/util/pci-ring-buffer/lib/ring_buffer.c:991-1014 | A caller that was given the role is awake and takes it up after at most 6 of its own steps |
| `CombiningTheorems.NoLostWakeUp` | src/util/pci-ring-buffer/lib/ring_buffer.c:73-191 | Whenever a thread sleeps, nap time is on or a broadcast is still to come, and a combiner holds the role and is busy with its own request |
| `CombiningTheorems.AwakeAtFlagging` | src/util/pci-ring-buffer/lib/ring_buffer.c:1127-1142 | Nobody sleeps when a combiner in its loop flags a request DONE or hands its role over |
| `CombiningTheorems.FlaggedWhileAsleep` | src/util/pci-ring-buffer/lib/ring_buffer.c:1108-1113 | If a step flags the request of a sleeping thread DONE, it is that of a thread that had closed the queue behind this request, the request was served, and yet another thread has become the combiner meanwhile and naps at its own request |
| `CombiningTheorems.NoDeadlock` | src/util/pci-ring-buffer/lib/ring_buffer.c:991-1143 | While any request is enqueued, the thread that holds the role, has been given it or blocks the link is not asleep, and whatever else happens it has a step exactly if it does not poll a monitored element whose status has not changed; what is monitored, and when that ends, is stated by RingPeekTheorems |
| `CombiningScenarios.FlagsMayBeOutOfOrder` | src/util/pci-ring-buffer/lib/ring_buffer.c:1108-1113 | A concrete schedule: after the tail is swapped back to NULL, a second request is executed and flagged DONE before the first one is flagged; only execution, not flagging, is in order |
| `CombiningScenarios.SleepersAreNotServed` | src/util/pci-ring-buffer/lib/ring_buffer.c:1076-1100 | No step of another thread changes the return code of a thread that sleeps: its request is not served meanwhile |
| `CombiningScenarios.ServedSleepers` | src/util/pci-ring-buffer/lib/ring_buffer.c:158-191 | In every schedule, a thread sleeps although it has been served if and only if it was served between its read of rc and its read of is_nap_time at the third test, found nap time on again, and has not been woken since |
| `CombiningScenarios.DoneThreadMayFallAsleep` | src/util/pci-ring-buffer/lib/ring_buffer.c:158-165 | A concrete schedule in which that happens: need_doze reads rc before is_nap_time, so a thread whose request is DONE can fall asleep until the next broadcast |
| `CombiningScenarios.SleeperMayBeFlagged` | src/util/pci-ring-buffer/lib/ring_buffer.c:1108-1113 | A concrete schedule in which a closing combiner flags a thread DONE that is asleep: the flag wakes nobody |
| `RingQueues.ActInv` | src/util/pci-ring-buffer/lib/ring_buffer.c:1032-1143 | Both sides and the byte ring composed, with exec_op replaced by the single accesses of real puts and gets and the write of the return code after them: every step of any number of threads and of the owners of elements keeps both queues, the ring, and that what is under way on the ring is the operation of the combiner of that side for its own oldest request |
| `RingQueueTheorems.PartsAreReachable` | src/util/pci-ring-buffer/lib/ring_buffer.c:1048-1143 | Each side of a run of the whole is a schedule of its queue and its effect on the ring a run of the ring, so that all results about the parts hold of the whole |
| `RingQueueTheorems.PutsInSwapOrder` | src/util/pci-ring-buffer/lib/ring_buffer.c:976-1143 | The served put requests, in the order in which they were swapped onto the tail, are the elements ever put, one by one, with the requested size and the address returned; there is one element more exactly while a put that has published it has not written its return code |
| `RingQueueTheorems.FirstInFirstOut` | src/util/pci-ring-buffer/lib/ring_buffer.c:825-1143 | For any number of putting and getting threads, the k-th served get in swap order receives the address and size of the k-th served put in swap order |
| `RingQueueTheorems.DataDelivered` | src/util/pci-ring-buffer/lib/ring_buffer.c:825-1337 | End to end, for any number of threads and whatever else happens in between: bytes that the owner of the k-th served put copies into its element, and does not copy over again, are what the owner of the k-th served get reads at the address it received, from set ready until set done; both were told the same address |
| `RingQueueTheorems.OneOperationAtATime` | src/util/pci-ring-buffer/lib/ring_buffer.c:1032-1080 | A put or get under way on the ring always belongs to the one combiner of its side |
| `RingQueueTheorems.ReturnedIsServed` | src/util/pci-ring-buffer/lib/ring_buffer.c:991-1014 | In a ring created to block, a blocking put that has returned has its element in the ring, and a blocking get that has returned has received one |
| `CombiningPeeks.RunWatch` | src/util/pci-ring-buffer/lib/ring_buffer.c:73-156 | Every step but one of exec_op keeps: in a ring created to block, the monitor was set for the oldest request, whose combiner then stands where the code can have taken it with that, or it is left over from an earlier request that failed, was not blocking, and was combined by another thread |
| `RingPeeks.ActPutWatch` | src/util/pci-ring-buffer/lib/ring_buffer.c:836-843 | Every step of the whole ring buffer keeps: a put that was refused does not fit behind the elements that are not reclaimed, and the oldest of these is monitored |
| `RingPeeks.ActGetWatch` | src/util/pci-ring-buffer/lib/ring_buffer.c:909-935 | Every step keeps: the monitor of the get side is on an element that was the next to get when its get failed, and it is known whether that get was the one of the oldest request |
| `RingPeekTheorems.PutPeeks` | src/util/pci-ring-buffer/lib/ring_buffer.c:104-156 | A combiner that peeks for room monitors the oldest element that is not reclaimed and goes on exactly if this is DONE; if there is none, its request exceeds the ring size less nine |
| `RingPeekTheorems.PutPeeksForReason` | src/util/pci-ring-buffer/lib/ring_buffer.c:836-843 | In every run that ends with a combiner peeking for room, its put at some moment, having reclaimed everything before it, found the monitored element not DONE, or nothing left and its request too large; nothing was reclaimed or added since |
| `RingPeekTheorems.PutSideMoves` | src/util/pci-ring-buffer/lib/ring_buffer.c:991-1143 | The put side never blocks itself: while a put is enqueued, the thread the role waits for is awake and has a step exactly if it does not peek at a monitored element that is not DONE |
| `RingPeekTheorems.GetPeeks` | src/util/pci-ring-buffer/lib/ring_buffer.c:104-156 | The element that a combiner peeking on the get side monitors is the oldest one not taken if and only if its own get found it not ready. If its get found the ring empty there is no monitor and it tries again, or the monitor is left over: set for an earlier, non-blocking request that another thread combined, on an element taken since. It goes on exactly if there is no monitor or the monitored element, while not reclaimed, is READY |
| `RingPeekTheorems.LeftOverExactly` | src/util/pci-ring-buffer/lib/ring_buffer.c:928-933 | On every run, that monitor is left over if and only if a get of an earlier request set it, no later get set it again, and it was never cleared |
| `RingPeekTheorems.GetSideMoves` | src/util/pci-ring-buffer/lib/ring_buffer.c:991-1143 | While a get is enqueued, the thread the role waits for is awake and has a step exactly if it does not poll a monitored header that is not READY |
| `RingPeekTheorems.BlockingGetsWaitRightly` | src/util/pci-ring-buffer/lib/ring_buffer.c:104-156 | If no caller makes non-blocking gets, a peeking combiner goes on exactly if it monitors nothing or the oldest element not taken is READY |
| `RingPeekTheorems.LeftOverStalls` | src/util/pci-ring-buffer/lib/ring_buffer.c:134-137 | A left-over monitor on an element that is DONE stalls the get side: over every run, whatever is put and set ready, no get is executed and the combiner has no step until a put has reclaimed that element |
| `RingStalls.MonitorLeftOver` | src/util/pci-ring-buffer/lib/ring_buffer.c:1076-1122 | A concrete run from creation that gets there: a combiner polls an element that was taken and set DONE, while the oldest element not taken is READY |
| `RingLayout.StoredHeader` | src/util/pci-ring-buffer/lib/ring_buffer.c:861-865 | A header written at any offset, also across the end of the doubly mapped region, is read back field by field |
| `RingLayout.StoredStatus` | src/util/pci-ring-buffer/lib/ring_buffer.c:1278-1315 | A status word written to a header changes nothing else in it |
| `RingLayout.StoreElsewhere` | src/util/pci-ring-buffer/lib/ring_buffer.c:861-865 | A write leaves headers and data outside its own bytes alone, modulo the size of the ring |
| `RingInvariant.FreeSpaceExact` | src/util/pci-ring-buffer/lib/ring_buffer.c:701-727 | free_space_size never underflows: it is exactly the ring size less the bytes in use, one header and one byte |
| `RingInvariant.OffsetsApart` | src/util/pci-ring-buffer/lib/ring_buffer.c:701-727 | Two live positions have the same offset only if they are the same position, so head meets tail2 only in an empty ring |
| `RingInvariant.LoadHeader` | src/util/pci-ring-buffer/lib/ring_buffer.c:610-612 | Walking from a live header by its stored size leads exactly to the next header, and what is read there is the element that was put |
| `RingInvariant.CasTailInv` | src/util/pci-ring-buffer/lib/ring_buffer.c:677-690 | The CAS of tail after an aggressive reap keeps the invariant, also if the ring is shared with gets that have moved tail since |
| `RingRuns.StepInv` | src/util/pci-ring-buffer/lib/ring_buffer.c:575-974 | Every step of a put, a get and the owners of elements (set ready, set done, copy), in any interleaving of single accesses, keeps the correspondence between the bytes and offsets of the ring and a queue of elements |
| `RingRuns.CreatedInv` | src/util/pci-ring-buffer/lib/ring_buffer.c:405-418 | The ring that ring_buffer_create makes, in any color, represents the empty queue |
| `RingRuns.RunInv` | src/util/pci-ring-buffer/lib/ring_buffer.c:575-1337 | So does every run of any length from a state that keeps it |
| `RingFifo.PutAppends` | src/util/pci-ring-buffer/lib/ring_buffer.c:845-893 | The step that publishes head appends one element of the requested size in INIT at the end of the queue and returns its data address, which is aligned |
| `RingFifo.PutRejectedExactly` | src/util/pci-ring-buffer/lib/ring_buffer.c:1147-1170 | A put is invalid exactly if the requested size and a header exceed the ring size |
| `RingFifo.GetTakesOldest` | src/util/pci-ring-buffer/lib/ring_buffer.c:963-971 | The step that publishes tail takes the oldest element that was not got, which is READY, and returns its address and exact size |
| `RingFifo.GetFailsExactly` | src/util/pci-ring-buffer/lib/ring_buffer.c:909-935 | A get reports an empty ring exactly if the queue is empty, and not ready exactly if the oldest element is still in INIT; neither changes the queue |
| `RingFifo.DataAligned` | src/util/pci-ring-buffer/lib/ring_buffer.c:880-883 | The data address of every element is a multiple of the alignment |
| `RingFifo.LogsAreSlots` | src/util/pci-ring-buffer/lib/ring_buffer.c:825-974 | Over any run, the addresses and sizes returned by puts and gets are those of consecutive elements of one history |
| `RingFifo.FirstInFirstOut` | src/util/pci-ring-buffer/lib/ring_buffer.c:825-974 | From creation on, what gets have returned is a prefix of what puts have returned, and the rest is what is in the queue |
| `RingFifo.ElementData` | src/util/pci-ring-buffer/lib/ring_buffer.c:1320-1337 | The bytes at the address of a live element are the data copied into it |
| `RingFifo.DataIntact` | src/util/pci-ring-buffer/lib/ring_buffer.c:1257-1317 | From set ready until set done the data bytes of an element stay the same at the same address, whatever other threads put, get and reclaim |
| `RingReclaim.PositionsInOrder` | src/util/pci-ring-buffer/lib/ring_buffer.c:346-365 | Between puts tail2, tail and head stand for absolute positions in this order less than one ring apart, only done elements lie before tail2, and head equals tail2 exactly in an empty ring |
| `RingReclaim.LiveElementsDisjoint` | src/util/pci-ring-buffer/lib/ring_buffer.c:825-893 | Bytes of two different live elements never share an offset |
| `RingReclaim.SweepStops` | src/util/pci-ring-buffer/lib/ring_buffer.c:639-691 | The aggressive reaper frees done elements only, and stops only at one that is not done or when nothing is left |
| `RingReclaim.FullNeedsObstacle` | src/util/pci-ring-buffer/lib/ring_buffer.c:836-843 | However gets and owners interleave with it, a put that returns -EAGAIN was held up at some moment since it began: everything before the oldest unreclaimed element was reclaimed and that element was not DONE, or nothing was left and the request exceeds the ring size less nine; nothing was reclaimed or added after that, and it is this element that the put monitors |
| `RingReclaim.DonePutFits` | src/util/pci-ring-buffer/lib/ring_buffer.c:836-843 | If every element is DONE when a put begins, a request of at most the ring size less nine is placed, whatever happens meanwhile |
| `RingProgress.PutEnds` | src/util/pci-ring-buffer/lib/ring_buffer.c:575-893 | A put ends after at most eight of its own steps more than there are elements that are not reclaimed, whatever gets and owners do meanwhile |
| `RingProgress.ReapsIfNeeded` | src/util/pci-ring-buffer/lib/ring_buffer.c:735-741 | A put goes straight on to write its header, and reclaims nothing, exactly if there is room for its request already |
| `RingProgress.SweepsIfNeeded` | src/util/pci-ring-buffer/lib/ring_buffer.c:741-752 | After reclaiming what gets have passed, it sweeps up to head exactly if there is still no room |
| `RingBuffers.RingBuffer.constructor` | src/util/pci-ring-buffer/lib/ring_buffer.c:372-418 | Creation gives a valid, empty ring with the first header just before an aligned offset |
| `RingBuffers.RingBuffer.ReapElms` | src/util/pci-ring-buffer/lib/ring_buffer.c:575-621 | Frees exactly the elements before the first one, up to tail, that is not done |
| `RingBuffers.RingBuffer.ReapAggressively` | src/util/pci-ring-buffer/lib/ring_buffer.c:623-692 | Frees exactly the elements before the first one, up to head, that is not done; in a done-only ring tail follows |
| `RingBuffers.RingBuffer.SecureFreeSpace` | src/util/pci-ring-buffer/lib/ring_buffer.c:735-756 | Returns the exact free space; nothing is freed if there was enough before, no more than what gets have passed if that is enough, and everything that could be freed if it is still too little |
| `RingBuffers.RingBuffer.Put` | src/util/pci-ring-buffer/lib/ring_buffer.c:825-893 | Invalid exactly if the aligned size exceeds the ring; placed exactly if the request fits into the ring together with the elements from the oldest that is not done on; a failed put writes no byte, adds no element and names the header to monitor; a placed one appends one element of that size in INIT and returns its address |
| `RingBuffers.RingBuffer.Get` | src/util/pci-ring-buffer/lib/ring_buffer.c:909-974 | Empty exactly if every element was got; a not-ready oldest element is named and left; otherwise it is READY, it is handed out with its address and size, and only tail changes |
| `RingBuffers.RingBuffer.SetReady` | src/util/pci-ring-buffer/lib/ring_buffer.c:1257-1281 | Changes the status of that one element to READY and nothing else in the history |
| `RingBuffers.RingBuffer.SetDone` | src/util/pci-ring-buffer/lib/ring_buffer.c:1284-1317 | Changes the status of that one element to DONE and nothing else in the history |
| `RingBuffers.RingBuffer.CopyTo` | src/util/pci-ring-buffer/lib/ring_buffer.c:1330-1337 | Overwrites those data bytes of that one element, across the end of the ring if need be |
| `RingBuffers.RingBuffer.CopyFrom` | src/util/pci-ring-buffer/lib/ring_buffer.c:1320-1327 | Reads back exactly what was copied into the element |
| `TombstoneRing.ActInv` | src/util/pci-ring-buffer/lib/ring_buffer.c:834-894 | Without the double mapping, with rounds of puts and gets and set_done as single steps: all of them keep elements, tombstones and their owners in order |
| `TombstoneRing.ReachableInv` | src/util/pci-ring-buffer/lib/ring_buffer.c:405-418 | So does every run from creation on |
| `TombstoneRing.ElementsInOnePiece` | src/util/pci-ring-buffer/lib/ring_buffer.c:852-878 | Every element that is not a tombstone lies inside the ring in one piece; of a tombstone at least the header does |
| `TombstoneQueue.PutRoundExactly` | src/util/pci-ring-buffer/lib/ring_buffer.c:834-893 | A round of a put fails exactly if there is no room even with everything before the first element that is not DONE reclaimed; otherwise it leaves a READY tombstone of the size of the request and tries again exactly if the element would reach the end of the ring, and else places an element of the requested size, not READY, which owns the tombstone if it left one; earlier elements stay |
| `TombstoneQueue.ReclaimedExactly` | src/util/pci-ring-buffer/lib/ring_buffer.c:735-756 | It reclaims nothing if there is room already, else the done elements that gets have passed, and everything done only if that is still too little |
| `TombstoneQueue.GetRoundExactly` | src/util/pci-ring-buffer/lib/ring_buffer.c:917-970 | A round of a get reports an empty ring if and only if no element is left, not ready if and only if the oldest one is neither READY nor a tombstone, both without any change, and hands out an element if and only if the oldest one is READY and no tombstone, which is then the one; it passes a tombstone without a result |
| `TombstoneQueue.FlagsExactly` | src/util/pci-ring-buffer/lib/ring_buffer.c:1257-1317 | Which step changes which status of an element: set_ready and set_done those of their own; set_done of an owner also makes the tombstone before it DONE, as does a get that passes it; then nobody owns it any more; sizes and places never change |
| `TombstoneQueue.FirstInFirstOut` | src/util/pci-ring-buffer/lib/ring_buffer.c:834-971 | In every run, whatever owners do meanwhile, gets return the elements that are no tombstones in the order in which puts returned them, each with the size that the put asked for, and what was not returned is still waiting |
| `TombstoneQueue.GotsArePuts` | src/util/pci-ring-buffer/lib/ring_buffer.c:834-971 | From creation on, what gets have returned is a prefix of what puts have returned, and the rest is waiting |
| `TombstoneQueue.TombstonesReleased` | src/util/pci-ring-buffer/lib/ring_buffer.c:1296-1315 | When no put is in progress and all elements but tombstones are DONE, all tombstones are too, if gets have passed everything or, in a done-only ring, none was orphaned |
| `TombstoneQueue.DonePutExactly` | src/util/pci-ring-buffer/lib/ring_buffer.c:834-893 | Then a request below the ring size less nine is placed at once if it does not reach the end of the ring, and in the second round exactly if the ring has room for it twice |
| `TombstoneRing.OwnerFindsTombstone` | src/util/pci-ring-buffer/lib/ring_buffer.c:1296-1309 | The address that set_done computes from a TOMBSTONE_OWNER is that of the header of its tombstone |
| `TombstoneRing.RetriesAreBounded` | src/util/pci-ring-buffer/lib/ring_buffer.c:867-877 | The retry loop of a put ends: in every run in which one put stays in progress, whatever gets and owners do between its rounds, it takes at most as many rounds as the offset of its first header counts bytes |
| `TombstoneRing.OneTombstone` | src/util/pci-ring-buffer/lib/ring_buffer.c:834-894 | As long as no get has passed its tombstone, a put leaves no second one: its next round places the element as an owner or fails |
| `TombstoneRing.OrphanedExactly` | src/util/pci-ring-buffer/lib/ring_buffer.c:836-858 | In a done-only ring a tombstone loses its owner if and only if the put that left it runs out of space in its next round, because the owner flag is forgotten with the failed put |
| `TombstoneRing.OrphanForever` | src/util/pci-ring-buffer/lib/ring_buffer.c:646-671 | Such a tombstone is never set done, and neither it nor anything behind it is ever reclaimed |
| `TombstoneRing.LostSpace` | src/util/pci-ring-buffer/lib/ring_buffer.c:834-894 | It happens: a put of 2100 bytes into a fresh ring of 4096 bytes whose first header lies at 2040 |
| `Traversals.Rot` | src/lib/traversal/hilbert.cc:6-18 | The three additions that swap the coordinates compute the reflection and transposition of a quadrant |
| `Traversals.D2xy` | src/lib/traversal/hilbert.cc:35-47 | For every n = 2^k the loop computes the point of the recursively defined Hilbert curve of order k |
| `Traversals.Xy2d` | src/lib/traversal/hilbert.cc:21-32 | For every n = 2^k and every point of the grid the loop, although it rotates by s and its coordinates go negative, computes the index of the recursively defined curve |
| `Traversals.RotatedResidues` | src/lib/traversal/hilbert.cc:25-28 | Why it does: the residues modulo s of a point rotated with the bits at s are the point inside its quadrant, however negative the coordinates are |
| `Traversals.IndexRound` | src/lib/traversal/hilbert.cc:24-29 | One round of the loop adds the quadrant digit and leaves the index of what is inside the quadrant |
| `Traversals.IndexOfPoint` | src/lib/traversal/hilbert.cc:20-47 | xy2d undoes d2xy on [0, n^2) |
| `Traversals.PointOfIndex` | src/lib/traversal/hilbert.cc:20-47 | d2xy undoes xy2d on [0, n)^2 |
| `Traversals.CurveEnds` | src/lib/traversal/hilbert.cc:35-47 | The curve starts at (0, 0) and ends at (n - 1, 0) |
| `Traversals.CurveIsConnected` | src/lib/traversal/hilbert.cc:35-47 | Consecutive points of the curve are at Manhattan distance 1 |
| `Traversals.CurveOfBlocks` | src/lib/traversal/hilbert.cc:35-47 | Seen in blocks of side 2^j, the curve of order k is the curve of order k - j |
| `Traversals.IndexOn` | src/lib/traversal/row_first.cc:6-11 | For all three traversals xy2d computes the index of the specified order |
| `Traversals.PointOn` | src/lib/traversal/row_first.cc:13-17 | For all three traversals d2xy computes the point of the specified order |
| `Traversals.PointOfTraversal` | src/lib/traversal/row_first.cc:6-17 | For all three traversals the point of the index of a grid point is that point, and the index is below n^2 |
| `Traversals.IndexOfTraversal` | src/lib/traversal/column_first.cc:6-17 | For all three traversals the index of the point of an index is that index, and the point is on the grid |
| `Traversals.RowFirstOrder` | src/lib/traversal/row_first.cc:6-17 | Row first starts at (0, 0), goes along a row with x rising by one, and from its end to the start of the next row |
| `Traversals.ColumnFirstOrder` | src/lib/traversal/column_first.cc:6-17 | Column first starts at (0, 0), goes along a column with y rising by one, and from its end to the start of the next column |
| `TileIndex.Log2Up` | src/include/util/util.h:214-223 | The result is the least a with i at most 2^a; zero, whose predecessor wraps around, gives 64 |
| `TileIndex.Config.NormalizeConfig` | src/lib/util/config.cc:10-47 | Rounds the vertex count up to the next power of two, less than doubling it; if a tile is not larger than that, tiles, meta tiles and tiles per meta tile are powers of two that multiply up, and the meta tiles are at most as many as the tiles per dimension; otherwise there are no tiles at all and the two-level mode is off |
| `TileIndex.TileStore.FillTraversal` | src/include/core/tile-store.h:38-47 | Every traversal position holds the tile of that position and every tile of the grid is where its traversal id says: a bijection, for all three traversals |
| `TileIndex.TileStore.FillMetaTiles` | src/include/core/tile-store.h:49-60 | The greedy filling cuts the traversal into consecutive runs, meta tile m holding positions m*c to m*c + c - 1, never past the last list, and every tile knows the meta tile it is in |
| `TileIndex.TileStore.SizesRight` | src/include/core/tile-store.h:62-72 | Accepts exactly if every meta tile has the configured size |
| `TileIndex.TileStore.MetaTilesCut` | src/include/core/tile-store.h:49-60 | Meta tile m consists exactly of the tiles whose traversal id divided by the tiles per meta tile is m |
| `TileIndex.RunsCoverGrid` | src/lib/util/config.cc:32-46 | The meta tiles times their size are all tiles of the grid |
| `TileIndex.Init` | src/include/core/tile-store.h:27-74 | After normalizeConfig, init succeeds for every traversal: the size check never fails, the index is a bijection, and the meta tiles are its runs and cover it |
| `TileIndex.MetaTileIsSquare` | src/include/core/tile-store.h:49-60 | Under the Hilbert traversal a tile is in meta tile m exactly if its coordinates, divided by the side of a meta tile, are the m-th point of the coarser curve: every meta tile is an axis-aligned square |
| `Permutations.ApplyInPlace` | src/include/util/util.h:243-260 | Following the cycles in place ends for every permutation p and leaves the old vec[p[i]] at i, as apply_permutation does, and the same elements |
| `Permutations.CycleStep` | src/include/util/util.h:253-258 | Each swap along a cycle settles one more place and carries the displaced element on |
| `Permutations.ReorderPairs` | src/include/tile-manager/tile-manager.h:239-244 | Reordering edges and weights one after the other by the same permutation reorders the pairs |
| `TileManagers.GlobalOfLocal` | src/include/tile-manager/tile-manager.h:368-389 | Local and global ids convert back and forth without loss for the edges of the tile |
| `LocalEdges.SortedIsUnique` | src/include/util/datatypes.h:77-92 | A set of edges has only one strictly sorted sequence |
| `LocalEdges.ExpandBump` | src/include/tile-manager/tile-manager.h:545-560 | Counting one more target for the last row with a target and appending it to the targets appends one edge to the decoded rows |
| `LocalEdges.KeptAfter` | src/include/tile-manager/tile-manager.h:530-564 | Skipping deleted and repeated edges of a sorted list leaves the live edges, strictly sorted, but never the previous edge |
| `LocalEdges.KeptFromStart` | src/include/tile-manager/tile-manager.h:519-564 | Started with (65535, 65535) as previous edge, it leaves exactly the live edges, unless that edge is the only live one, which is lost |
| `TileManagers.TileManager.CopyCSRToEdgeList` | src/include/tile-manager/tile-manager.h:484-516 | In both encodings appends exactly the stored edges, row by row, and returns how many |
| `TileManagers.TileManager.FillCSR` | src/include/tile-manager/tile-manager.h:518-565 | The assertions on the 16-bit counters hold if and only if no source has 65535 live targets or more; then, in both encodings, the rows written decode to exactly the kept edges, and the counts add up to the number of targets |
| `TileManagers.TileManager.KeepEdge` | src/include/tile-manager/tile-manager.h:545-560 | Storing one edge keeps rows, targets and counters in step, or its assertion fails because the source has too many live targets |
| `TileManagers.TileManager.CountSources` | src/include/tile-manager/tile-manager.h:247-259 | Returns the number of different sources of the live edges, wrapping around at 16 bits; the least source of all edges is counted even if all of its edges are deleted |
| `TileManagers.TileManager.CompactStorage` | src/include/tile-manager/tile-manager.h:192-291 | Fails an assertion exactly if a source has 65535 live targets or more; otherwise, from either encoding into either, the overflow list is empty and the rows are strictly sorted with exactly the live edges of rows and overflow list, unless the only one is (65535, 65535), which is lost; the rows end up with one counter per source exactly if at least half of the vertices are counted sources, in 16 bits; deletions and the threshold stay |
| `TileManagers.TileManager.InsertEdge` | src/include/tile-manager/tile-manager.h:136-163 | The edge is stored in local form; if as many edges are stored as the threshold says, the tile is compacted, with the same exact failure, and the threshold doubles modulo 2^32, so that it is 0 from 2^31 on and every insert compacts; otherwise the contents grow by this edge at the end; below 2^31 inserts the threshold is never exceeded |
| `TileManagers.TileManager.CompactIfDue` | src/include/tile-manager/tile-manager.h:150-162 | Doubles the 32-bit threshold and compacts exactly if the number of edges has reached it, with the live edges kept as by compaction; otherwise the contents stay as they are |
| `TileManagers.TileManager.DeleteEdge` | src/include/tile-manager/tile-manager.h:165-168 | Adds the local form to the deleted edges and leaves the contents alone |
| `TileManagers.FillTile` | src/include/tile-manager/tile-manager.h:117-163 | N inserts into a new tile trigger at most 1 + log2(N / 4096) dynamic compactions that sort fewer than 2N edges in all; afterwards the tile is below its threshold and holds exactly these edges, except that (65535, 65535) may be lost |
| `TileManagers.CompactionIsExactly` | src/include/tile-manager/tile-manager.h:192-291 | Compaction keeps exactly the live edges if and only if these are not just (65535, 65535) |
| `TileManagers.LostEdge` | src/include/tile-manager/tile-manager.h:519-541 | That edge alone is lost |
| `TileManagers.CompactedFormIsUnique` | src/include/tile-manager/tile-manager.h:192-291 | Two tiles with the same live edges compact to the same rows, whatever the order and duplicates of their edges |
| `VertexPrograms.GatherIsMinimum` | examples/bfs.cc:83-91 | pullGather is the minimum with what the source offers, and an unreached source offers nothing |
| `VertexPrograms.GatherIsLeast` | examples/cc.cc:81-91 | After any sequence of edges a local value is the least of its old value and all offers |
| `VertexPrograms.GatherOfSet` | src/include/core/algorithm-executor.h:214-290 | The result depends on the set of edges only, not on their order or number |
| `Executors.Executor.GetLocalNextArray` | src/include/core/algorithm-executor.h:160-200 | A tile row that has a slot gets it again untouched; another takes the next free slot, freshly initialised; slots in use stay distinct and contiguous |
| `Executors.Executor.ResetTileInfos` | src/include/core/algorithm-executor.h:202-212 | Stopping early at the first free slot still frees all, also the zeroed slots of a new executor, as long as behind the first free slot there are only free ones, which every batch leaves so |
| `Executors.Executor.GatherCounts` | src/include/core/algorithm-executor.h:228-249 | Walking the counters per source gathers exactly the edges the rows decode to |
| `Executors.Executor.GatherIdCounts` | src/include/core/algorithm-executor.h:250-272 | So does walking the pairs of source and count |
| `Executors.Executor.ExecuteAlgoOnTile` | src/include/core/algorithm-executor.h:214-290 | Gathers every edge of rows and overflow list into the array of one slot and touches no other slot |
| `Executors.Executor.ExecuteTile` | src/include/core/algorithm-executor.h:401-429 | Keeps every local array equal to the minimum over all edges of the tiles seen so far in its row; empty tiles take no slot |
| `Executors.Executor.ProcessTiles` | src/include/core/algorithm-executor.h:507-521 | After a batch of at most as many tiles as there are slots, every local array is the minimum over all edges of the batch in its row, starting from the neutral element |
| `Executors.Executor.Run` | src/include/core/algorithm-executor.h:110-139 | Every batch that the executor receives is processed completely: for its tiles, as stored, the local arrays in its slots are the minima over all edges of their rows |
| `ApplyMachine.StepInv` | src/include/core/algorithm-executor.h:452-502 | Every load, reduce, compare-and-swap and bit update of any number of executors keeps the invariant |
| `ApplyMachine.PushIsMinimum` | src/include/core/algorithm-executor.h:443-504 | When all executors are done, each next value is the least of its old value and all pushed results, and its changed bit is set exactly if it was before or the value changed, although bits share bytes |
| `ApplyProgress.RunsEnd` | src/include/core/algorithm-executor.h:452-502 | The loops end: however they interleave, all executors together take at most 30 steps for each result and 5 times their number for each unit by which a value can fall and each flag that can be set, and an executor has a step if and only if it has not pushed all its results |
| `PullRound.PushedIsOffered` | src/include/core/algorithm-executor.h:443-461 | Everything pushed for a vertex is the offer of some stored edge into it |
| `PullRound.OfferedIsPushed` | src/include/core/algorithm-executor.h:443-461 | Every offer of a stored edge other than the neutral element is met by a pushed result that is at most as large |
| `PullRound.PullPhaseIsFlatRound` | src/include/core/algorithm-executor.h:443-504 | If the processed batches hold every tile with edges, which RunPhase shows of every phase, then for any interleaving of the pushes of the executors next[v] becomes min(old next[v], offers of all stored edges into v), and the changed bit is set exactly if it was or next[v] changed |
| `PullPhases.DealtRoundIsOk` | src/include/core/algorithm-executor.h:507-520 | However the messages of a round are dealt to executors, after processing them every tile with edges is in some processed batch |
| `PullPhases.ProcessAll` | src/include/core/algorithm-executor.h:110-139 | All executors process their shares; each works on slots of its own, and tiles and vertex values stay as they are |
| `PullPhases.RunPhase` | src/include/core/tile-distributor.h:54-110 | A pull phase in either mode, with any assignment of batches to executors: every batch fits the slots of the executors, the processed batches are those PullPhaseIsFlatRound asks for, and the skipped tiles are counted exactly |
| `PullPhases.RunRound` | src/include/core/algorithm-executor.h:110-139 | A whole pull phase with its push: in either mode, for any assignment of batches to executors and any interleaving of their compare-and-swap loops, the global arrays end up as after one flat round over all edges of the store |
| `PullPhases.TwoLevelIsFlat` | src/include/core/tile-distributor.h:68-99 | On the meta tiles that TileStore::init makes, two-level and flat scheduling send the same tiles in the same order, namely those with edges, and count the same number of skipped tiles |
| `PullPhases.CountersAreRight` | src/include/core/tile-distributor.h:73-84 | On these meta tiles, the counters that the managers keep let only empty meta tiles be skipped |
| `PullRound.CompactRepeatedly` | src/include/tile-manager/tile-manager.h:192-291 | Without deletions, any number of compactions of a tile leaves the set of its edges and the gathered local array the same, if its only edge is not (65535, 65535) |
| `PullRound.CompactionPreservesExactly` | src/include/tile-manager/tile-manager.h:518-541 | Compaction changes what is gathered if and only if (65535, 65535) is all there is and offers its target less than the target has |
| `Labels.ActInv` | examples/bfs.cc:101-140 | Every read and write of edgeChanged, pull, push (which reads the old label twice) and apply by any number of threads, without locks, keeps every label justified by the edges inserted so far |
| `Labels.LabelsAreSound` | examples/bfs.cc:83-197 | In every insert-only run every finite BFS label, in next and current, is the length of a walk from the start vertex, and every CC label is a vertex from which a walk leads here |
| `Labels.SettledDistances` | examples/bfs.cc:83-133 | If the labels are justified, a flat round over all edges changes nothing and current equals next, the BFS label of every vertex is the length of the shortest walk from the start, and UINT32_MAX exactly if no walk is shorter than that |
| `Labels.SettledComponents` | examples/cc.cc:81-138 | Then the CC labels are exactly the least vertex from which a walk leads here |
| `Labels.InsertAlone` | examples/bfs.cc:115-133 | If nobody else takes a step, edgeChanged lowers both labels of the target to what the next label of the source offers, if that is less, and changes nothing else, for both programs |
| `Labels.PullAlone` | examples/cc.cc:81-91 | If nobody else takes a step, a pulled edge lowers the next label of its target to what the current label of its source offers, if that is less, and changes nothing else |
| `Labels.ApplyAlone` | examples/bfs.cc:101-113 | If nobody else takes a step, apply makes the current label of a vertex the next one and changes nothing else |
| `Labels.PushEnds` | src/include/core/algorithm-executor.h:476-502 | Whatever others do: the swap of a push replaces the label exactly if it is the one that was read, and a push only ends with a label of at most its own value, or if what it read was no greater; otherwise it starts again |
| `ApplyPhase.VertexStore.constructor` | src/include/core/vertex-store.h:28-56 | Fresh arrays with no flag set |
| `ApplyPhase.VertexStore.ApplyVertex` | examples/bfs.cc:101-113 | Copies the new value and marks the vertex active if they differ, and tells whether they did |
| `ApplyPhase.VertexStore.ApplyStep` | src/include/core/apply-executor.h:61-104 | A step of 4096 vertices copies exactly those whose flag is set and tested: in the last eight bytes of flags of the step all are tested, before only blocks of 64 whose first byte has a flag; no other vertex changes, and the step has converged exactly if no copied value differed |
| `ApplyPhase.VertexStore.Apply` | src/include/core/apply-executor.h:46-107 | So for the whole phase: the current values are the applied ones, and it reports convergence exactly if none changed |
| `LabelRounds.ConvergedExactly` | src/include/core/continuous-algorithm-executor.h:163-182 | In a round whose apply phase tests every flag that is set, the test for convergence is exact: a round that changes no current value leaves settled labels, and settled labels converge at once |
| `LabelRounds.TiledRound` | src/include/core/continuous-algorithm-executor.h:97-162 | A pull phase over the tiles and the apply phase after it are such a round over the edges that the tiles stand for |
| `LabelRounds.SettlesInTime` | src/include/core/continuous-algorithm-executor.h:72-219 | Once no edge arrives and every round tests all flags, the labels are settled after at most as many rounds as there are vertices |
| `LabelRounds.RightInTime` | src/include/core/continuous-algorithm-executor.h:72-219 | So from every run of insertions, pulls and applies on, these rounds end with the BFS labels equal to the shortest distances and the CC labels to the least vertices that lead to each one |
| `LabelRounds.ConvergesInTime` | src/include/core/continuous-algorithm-executor.h:163-182 | The round after these converges, so that the loop ends |
| `LabelRounds.CompleteExactly` | examples/bfs.cc:142-148 | The apply phase tests every flag that is set, whatever the flags, if and only if the graph has fewer than 72 vertices: the test for 8 bytes of flags reads one |
| `LabelRounds.LabelLost` | src/include/core/apply-executor.h:69-85 | In every graph of 72 vertices or more: two edges inserted in the wrong order, and a round that finds the distance of a vertex but does not apply it and reports convergence |
| `TileDistribution.TileDistributor.ScheduleTiles` | src/include/core/tile-distributor.h:126-177 | The batches sent, put together, are exactly the non-empty tiles in their order; each has 1 to algorithm_tile_batching tiles; the edges before its last tile stay within the limit; each but the last has algorithm_tile_batching tiles or more edges than the limit; the skip count grows by the empty tiles |
| `TileDistribution.TileDistributor.RunFlat` | src/include/core/tile-distributor.h:94-99 | Flat mode does this for all tiles in traversal order, filling every batch but the last |
| `TileDistribution.TileDistributor.RunTwoLevel` | src/include/core/tile-distributor.h:68-93 | Two-level mode does this for the lists of all meta tiles one after the other, although it never looks into skipped ones; every batch but the last one of each list is full, and exactly the meta tiles whose counters are all zero are counted as skipped |
| `TileDistribution.GreedyIsUnique` | src/include/core/tile-distributor.h:126-177 | This determines the batches: two ways to send the same tiles in which every batch is within the limits and all but the last are full are the same |
| `TileDistribution.GreedyListsAreUnique` | src/include/core/tile-distributor.h:68-93 | So it does for the lists of meta tiles one after the other |
| `MetaTileCounts.MetaTileManager.InsertEdge` | src/include/tile-manager/meta-tile-manager.h:112-125 | The counter of a meta tile equals the number of edges this manager has put into its tiles |
| `MetaTileCounts.SkippedAreEmpty` | src/include/core/tile-distributor.h:73-84 | A meta tile whose counters are all zero holds no edge, so that skipping it loses nothing |
| `PipelineConservation.SharesHoldAll` | src/include/edge-inserter/i-edge-provider.h:98-155 | Leaving out managers without edges, the shares of a batch hold every waiting edge as often as it was waiting |
| `PipelineConservation.ActConserves` | src/include/edge-inserter/i-edge-provider.h:48-155 | Every step of providers, inserter, managers and shutdown keeps, for every edge, the number of its copies waiting, queued, forwarded, in progress and stored equal to how often it was added |
| `PipelineOwnership.ActOwned` | src/include/core/meta-tile-store.h:108-120 | Every step keeps every edge on its way addressed to the manager of its tile |
| `PipelineOwnership.OwnersSpread` | src/include/core/meta-tile-store.h:69-79 | As many consecutive tiles of a row, or of a column, as there are managers have all different ones |
| `PipelineOwnership.ActBalanced` | src/include/edge-inserter/edge-inserter.h:127-146 | In dynamic mode every step keeps data messages, managers at work and replies in balance with what the inserter waits for |
| `PipelineOrder.ActInOrder` | src/include/edge-inserter/edge-inserter.h:108-125 | Every step keeps, for every manager: what it has stored, what it works on, what waits for it and what the inserter still has for it are, one after the other, what the received messages address to it |
| `PipelineOrder.ActTallied` | src/include/edge-inserter/edge-inserter.h:127-146 | In dynamic mode every step keeps the number of edges that the inserter has counted, with those it waits for replies about, equal to those of the received messages and those there were before |
| `PipelineBatches.ActAllBatched` | src/include/edge-inserter/i-edge-provider.h:81-155 | Every step keeps every provider at a message for each full batch of its edges, with the rest still waiting at the managers they are for, or in the final message |
| `PipelineTheorems.ActCounted` | src/include/edge-inserter/edge-inserter.h:66-81 | Every step keeps the 8-bit shutdown count equal to the number of providers whose final batch was received, and nothing of a provider comes after it |
| `PipelineTheorems.RunInv` | src/include/edge-inserter/edge-inserter.h:66-189 | All this holds after every run of every interleaving |
| `PipelineTheorems.OneManagerPerTile` | src/include/core/meta-tile-store.h:108-120 | Two managers that insert edges of the same tile, at any two moments of any runs, are the same |
| `PipelineTheorems.QuietWhileRunning` | src/include/edge-inserter/edge-inserter.h:127-184 | In dynamic mode, while the inserter runs the algorithm no manager is inserting and no data message is waiting for one |
| `PipelineRounds.SentInBatches` | src/include/edge-inserter/i-edge-provider.h:81-155 | In every run every provider cuts the edges it is given into batches of exactly the set number, in order, and sends each as soon as it is full in one message that names every manager with edges once and holds its edges in order; the final message has the rest, which is less than a batch |
| `PipelineRounds.StoredInOrder` | src/include/tile-manager/meta-tile-manager.h:192-200 | Every manager stores the edges that messages address to it in the order of the messages, without leaving one out |
| `PipelineRounds.RunsExactly` | src/include/edge-inserter/edge-inserter.h:127-187 | In dynamic mode, when the last reply to a message is there, the tiles hold exactly the edges of all messages received so far, and the inserter runs the algorithm if and only if these and the edges there were before are at least min_count_edges_algorithm; otherwise it ends if every final message was received, and receives on if not |
| `PipelineRounds.NeverRuns` | src/include/edge-inserter/edge-inserter.h:127-130 | Without dynamic mode no manager replies, the inserter waits for nothing and never runs the algorithm |
| `PipelineProgress.DryExactly` | src/include/core/meta-tile-store.h:149-170 | No deadlock: there is no step besides adding edges if and only if all managers have ended |
| `PipelineProgress.RunsDry` | src/include/edge-inserter/edge-inserter.h:66-189 | Every run has at most 6 steps for each provider, one for each manager, 12 for each edge added and one more; and if it can only go on by adding edges, all managers have ended and the tiles hold exactly the added edges |
| `PipelineTheorems.NothingLost` | src/include/core/meta-tile-store.h:149-170 | When all managers have stopped, every provider has sent its final batch and the edges in the tiles are, as a multiset, those passed to addEdge |
| `PipelineTheorems.TilesComplete` | src/include/tile-manager/meta-tile-manager.h:112-125 | Then the local edges in every tile stand for exactly the added edges of its coordinates, as a multiset |

## Left out

Assumptions of the model:

- Memory is sequentially consistent; barriers, prefetches and compiler fences are not modelled.
- `reap_cb` and `is_healthy` are NULL, so the reapers and the peek take the branches without callbacks.
- A ring is used in one discipline: every element is got and then set done, or nobody calls get and elements are only set done. Its size is a multiple of the alignment and below 4 GiB; the alignment is 8 to 4096, which is enough for the free space never to underflow.
- An owner sets its element ready once after the put, sets it done once after that (after the get, where gets are used), and copies into it only before it is ready. `ring_buffer_elm_set_ready` and `ring_buffer_elm_set_done` assert the order. It knows the element from a put or get that has its return code.
- `pow` and `int_ceil` are exact, which they are on the powers of two they are used with.
- `std::sort` is a sorting function. The comparison is a total order, so the result is unique.
- Messages carry their data by value. That the data behind a pointer stays as it was until it is set done is `RingFifo.DataIntact`.
- Edges read into memory first are a schedule of the pipeline in which all `Add` steps of a provider come together.
- `CC::compareAndSwap` goes through `smp_cas_float`, which compares and swaps the same 32 bits.
- The masks of `getLocalEdge` and `getGlobalTarget` are remainders and sums, which they are if the vertices per tile are a power of two.
- The message queues of the pipeline are unbounded, so a put never has to wait for space.
- Edges that a store has from before are counted by the inserter of the pipeline, but are not in its tiles.

Stated weaker than one might wish:

- TileManagers.TileManager.CompactStorage: unweighted tiles only. With weights, `resize` followed by `push_back` leaves the weights of the rows at the wrong positions. After a failed assertion nothing is said of the tile, because the program has ended.
- TileManagers.TileManager.InsertEdge: without weights and without the bitset of randomly deleted edges.
- TileManagers.FillTile: the cost is stated for fewer than 2^31 inserts, beyond which the threshold has wrapped around to 0 and every insert compacts (`TileManagers.TileManager.InsertEdge`).
- PullRound.PullPhaseIsFlatRound: only with adaptive scheduling off and tiles distributed by the tile distributor.
- PullPhases.RunRound: starts from an empty ring buffer, as every phase does that executors finish; executors take turns one after the other, which is no restriction since they share nothing they write before they push.
- Labels.SettledDistances: says what the labels are once a flat round changes nothing; that this point is reached is `LabelRounds.RightInTime`.
- LabelRounds.RightInTime: starts from arrays in which every value that was not applied yet is flagged, as edgeChanged and the pushes leave them, and asks for rounds that test every flag. Without that it is false (`LabelRounds.LabelLost`). Nothing is said of rounds during which edges arrive, nor of a bound on the iterations below the number of vertices.
- Traversals.Rot: integers are unbounded. The coordinates inside `xy2d` stay below twice the side of the grid, far from 64 bits (an invariant of `Traversals.Xy2d`).
- RingBuffers.RingBuffer.Put: runs to completion on one object; its interleavings with gets and owners are those of `RingRuns` and `RingQueues`.
- TileIndex.Config.NormalizeConfig: asks for powers of two, with which `std::pow` is exact and the index works; other settings are not rounded by the code, and squares of other numbers may not be exact in double precision.
- TombstoneRing.ActInv: elements and positions but no bytes; a round of a put or a get, and both status writes of set_done, are one step each, where the code has several accesses. The single accesses of the reapers, puts and gets are those of `RingRuns`.
- TombstoneRing.OneTombstone: holds as long as no get passes the tombstone between two rounds; the code has no such bound without it, only that of `TombstoneRing.RetriesAreBounded`.
- CombiningTheorems.NoDeadlock: leaves open whether a polled element changes its status, which the queue alone cannot know. In the whole ring buffer a peeking put goes on as soon as the element that holds it up is DONE (`RingPeekTheorems.PutSideMoves`), and a peeking get as soon as the oldest element not taken is READY, unless its monitor is left over (`RingPeekTheorems.GetPeeks`, `LeftOverStalls`). How many of their own steps threads take is `CombiningProgress`; nothing is said of the time a fair scheduler takes.

Not modelled:

- Allocation, the mappings themselves, SCIF and shadow rings, fingerprints, tracing and the spin-lock variant of the ring; start offsets are any the coloring can choose.
- Programs on floating point (PageRank, SSSP and others), where rounding and dropped duplicates matter.
- Selective scheduling by active bits, re-execution after deletions and critical neighbors.
- Random deletion together with compaction, the edge iterator, and `edgeExists`.
- The static and atomic distributions of tiles, the lazy mode, and concurrent translation of vertex ids.
- The loops in which executors and distributor wait at barriers and receive messages; a batch is handed over as a value.
- Encoding of messages, options, persistence, the writer of results, and tools.
