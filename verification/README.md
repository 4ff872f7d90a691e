# GLaKV: the concurrent queue, its semaphores, the cache and the store

GLaKV hands requests to its worker threads through the moodycamel lock-free queue (`src/concurrentqueue.h`), in its
blocking form (`src/blockingconrurrentqueue.h`), and answers them from a flat file behind an LRU cache
(`src/DBImpl.cc`, `src/lrucache.cc`). This project models these parts in Dafny and proves what they are for.

Concurrent code is modelled as a machine: one atomic access of one thread per step, sequentially consistent, any number
of threads, any interleaving. A `Book` or `Ledger` beside the machine holds the bookkeeping of the proof; no step reads
it. Each machine comes with an invariant, a lemma that every step keeps it, a lemma for whole runs, and theorems that
say what it means to a user. Where the source updates an object in place, a class has its fields and does the same
accesses in place, proved equal to the steps of the machine. Sequential code (cache, store, explicit producer, block
flags) is modelled as classes over maps, sequences and arrays with the loops of the source.

| file | what it models |
|---|---|
| `FreeList.dfy`, `FreeListProgress.dfy` | the reference-counted free list of blocks; when it answers null, and that no call hangs |
| `OptimisticDequeue.dfy`, `ClaimResults.dfy` | how consumers claim indices with four counters; what a ticket is worth |
| `CircularIndex.dfy`, `Bits.dfy` | the counters and masks as machine words |
| `BlockIndex.dfy` | the circular block index of an implicit producer |
| `BlockNumbers.dfy` | queue indices and the numbers of their blocks |
| `ImplicitProducer.dfy` | the machine of one implicit producer and its consumers, over claims, index, linked blocks and shared pool |
| `ImplicitProducerInvariant.dfy` | its invariant |
| `ImplicitProducerProof.dfy`, `...Steps`, `...Blocks`, `...Writes`, `...Chain`, `...Consumers`, `...Takes`, `...Recycling`, `...Sharing` | every step keeps it, of the producer, its links, its consumers, other producers |
| `ImplicitProducerRuns.dfy`, `ImplicitProducerTheorems.dfy` | whole runs, and what they mean |
| `ImplicitProducerWindow.dfy` | the full test at block boundaries, and the queue on wrapped counters |
| `SharedPool.dfy` | several producers on one pool |
| `EnqueueResults.dfy`, `DequeueResults.dfy` | when an enqueue succeeds; the dequeue from call to end |
| `ImplicitQueue.dfy` | wait-freedom of enqueue, and the producer as an object |
| `BlockFlags.dfy` | the emptiness flags and counter of a block |
| `ExplicitRing.dfy`, `ExplicitDequeue.dfy` | the explicit producer: block ring, doubling index and elements; its consumers with stale indexes |
| `ProducerHash.dfy`, `ProducerHashProof.dfy`, `ProducerHashResults.dfy` | the hash tables from threads to implicit producers; when a thread gets one |
| `Semaphore.dfy`, `SemaphoreResults.dfy`, `BlockingQueue.dfy` | the multi-consumer semaphore, what a wait obtains, and the blocking queue over it |
| `SpscSemaphore.dfy` | the single-consumer semaphore |
| `LruCache.dfy`, `LruRetention.dfy`, `Store.dfy` | the cache, what it keeps, and the store behind it |

Modelling decisions. Elements are plain values: copying and moving them does not fail. Index counters are unbounded in
the machines; `ImplicitProducerWindow` carries the results over to wrapped words, for consumers that are overtaken by
fewer than 2^(N-1) operations between a load and its check; that the queue itself stays that small is proved there.
Positions of blocks are numbers (base index / BLOCK_SIZE). What the memory allocator and the free list answer is a
parameter of the step that asks; a block leaves the pool for one owner at a time and comes back from any thread, which
is what `FreeList` proves of the list. A single dequeue of an implicit producer makes the accesses of a bulk of one, and
so does a single enqueue but for the store to `newBlock->next`. The producer's pc carries the list of the blocks acquired
so far; its length is the loop counter of the code, its content is bookkeeping: the accesses follow the links. Compare-exchange may fail without reason where the source uses the weak form.

Findings about the code, kept as they are:

- The single-consumer `signal` posts to the kernel whenever the old count is negative, also for a count of 0, which its
  own assertion admits. `SpscSemaphore.ZeroSignalStrays` gives a run in which that grants a permit nobody put in;
  `SecondWaitBreaksCount` continues it to a count of -2; `RunKeepsInvIff` shows that a run keeps the semaphore right
  exactly if no signal(0) in it meets a negative count, which is what the run theorems ask for.
- The comment at `src/concurrentqueue.h:1928-1930` asks for a signed quotient, but where both types have equal width the
  division is unsigned. `CircularIndex.UnsignedDivisionFindsSlot` shows that the slot is right all the same, exactly
  when the index does not span more than the word.
- The value of a fresh index entry is not initialised. It is never read before it is written, since its key is invalid
  until then; the model starts it as null.
- A consumer may null out an entry between the producer's look at the next slot and its doubling of the index, so the
  index can double with a free slot in it; the lookup stays right.
- `new_block_index` of the explicit producer may succeed before the block cannot be had: a failed enqueue leaves the ring
  and the tail as they were, but the index may have doubled.
- `create_if_not_exists` would not end for a total size below 2000 bytes, where its buffer is empty; the size is a
  constant far above that.

## Model

| member | source | states |
|---|---|---|
| `FreeLists.StepKeepsInv` | src/concurrentqueue.h:1362-1441 | every atomic access of add, try_get and add_knowing_refcount_is_zero, by any of any number of threads, keeps the invariant on chain, reference words and clients; a node may be added by another thread than the one that took it |
| `FreeLists.ListIsAcyclic` | src/concurrentqueue.h:1362-1441 | in every run, nodes handed over between threads included, the links from freeListHead end, and meet no node twice, stale heads and re-insertion notwithstanding |
| `FreeLists.TakenNodeIsExclusive` | src/concurrentqueue.h:1376-1413 | a node that try_get is about to return is not reachable from the head, and no other thread is about to return it and no client has it; afterwards it is with the clients, off the list |
| `FreeLists.OwnedNodeStaysOwned` | src/concurrentqueue.h:1362-1413 | a node that is with the clients stays there, off the list, whatever the threads inside the list do, until some client adds it |
| `FreeLists.ReferenceAccounting` | src/concurrentqueue.h:1369-1440 | the low 31 bits of freeListRefs are the holders plus one for the list, publishing or just unlinked; the flag is set exactly while an added node waits for insertion; flag with zero references means exactly one inserter |
| `FreeLists.NothingIsLost` | src/concurrentqueue.h:1362-1441 | with no operation in flight every node is with the clients or reachable from the head |
| `FreeLists.SoloGetPops` | src/concurrentqueue.h:1376-1413 | try_get alone, whatever the other threads are in the middle of, unlinks exactly the head node, drops the list's reference to it and leaves the rest of the list in order; on an empty list it changes nothing |
| `FreeLists.SoloAddPushes` | src/concurrentqueue.h:1362-1374 | add alone, by any thread in any state of the others, puts exactly its node in front of the list, or, if others still hold references to it, leaves it flagged for the last of them |
| `FreeListProgress.NullOnlyFromEmpty` | src/concurrentqueue.h:1376-1413 | in every run a try_get ends without a node only if freeListHead was null at an access of that very call: its last load, or an earlier failed compare-exchange of the head |
| `FreeListProgress.EveryCallEndsAlone` | src/concurrentqueue.h:1362-1441 | from every reachable state a thread inside add, try_get or the insertion that goes on alone ends its call within 28 accesses: no call waits for another thread |
| `FreeLists.FreeList.Add` | src/concurrentqueue.h:1362-1374 | the accesses of add, done in place, are the step of the machine and keep the invariant |
| `FreeLists.FreeList.TryGet` | src/concurrentqueue.h:1376-1380 | the entry of try_get, in place, is the step of the machine |
| `FreeLists.FreeList.AdvanceInsertion` | src/concurrentqueue.h:1419-1441 | the accesses of add_knowing_refcount_is_zero, done in place, are the steps of the machine and keep the invariant |
| `FreeLists.FreeList.AdvanceTryGet` | src/concurrentqueue.h:1376-1413 | the accesses of try_get, done in place, are the steps of the machine and keep the invariant |
| `OptimisticDequeue.StepKeepsInv` | src/concurrentqueue.h:2683-2706 | every access of a single or bulk dequeue up to its claim keeps the ticket invariant, for any number of consumers with stale counts |
| `OptimisticDequeue.GrantsFitBelowTail` | src/concurrentqueue.h:2461-2475 | all that is ever granted fits below tailIndex, whatever dequeueOvercommit each ticket had loaded |
| `OptimisticDequeue.ClaimSafety` | src/concurrentqueue.h:2683-2706 | 0 <= headIndex <= tailIndex in every run, and dequeueOptimisticCount = headIndex + dequeueOvercommit + unresolved tickets |
| `OptimisticDequeue.OvercommitIsNeverAhead` | src/concurrentqueue.h:2469-2470 | the assertion overcommit <= myDequeueCount holds in every run |
| `OptimisticDequeue.ClaimsPartition` | src/concurrentqueue.h:2702-2704 | the claimed intervals are disjoint and exactly cover 0 .. headIndex |
| `OptimisticDequeue.HoldingsDisjoint` | src/concurrentqueue.h:2702-2704 | two consumers never hold a common index |
| `OptimisticDequeue.SoloDequeue` | src/concurrentqueue.h:1873-1921 | from a state with no unsettled call a lone dequeue succeeds iff the sub-queue is not empty, and takes min(max, size) from the front |
| `ClaimResults.FirstLook` | src/concurrentqueue.h:2685-2688 | in every run a consumer turns away before it takes a ticket if and only if all elements it saw published are claimed, asked for by unsettled calls or by calls that have given back since its load of the overcommit; otherwise it asks for what is left of them, at most max |
| `ClaimResults.TicketIsHonoured` | src/concurrentqueue.h:2692-2706 | from every reachable state a consumer with a ticket that goes on alone claims exactly min(desired, tailIndex - (myDequeueCount - overcommit)) elements from headIndex on, all, part or none, and adds the rest to dequeueOvercommit |
| `ClaimResults.TicketIsWorth` | src/concurrentqueue.h:2692-2704 | in every run that is at least what the sub-queue holds, up to what was asked for, less what other unsettled calls ask for and what has been given back since the load of the overcommit |
| `ClaimResults.WorthFits` | src/concurrentqueue.h:2692-2704 | and never more than the sub-queue holds |
| `ClaimResults.OnlyTicketTakesAll` | src/concurrentqueue.h:2692-2704 | with no other call unsettled and the overcommit as loaded, a ticket is worth exactly min(desired, tailIndex - headIndex) |
| `OptimisticDequeue.SubQueueCounters.Publish` | src/concurrentqueue.h:2678 | the store of tailIndex in place is the step of the machine and keeps the invariant |
| `OptimisticDequeue.SubQueueCounters.RequestTicket` | src/concurrentqueue.h:2685-2692 | the loads and the ticket fetch_add in place are the steps of the machine and keep the invariant |
| `OptimisticDequeue.SubQueueCounters.SettleTicket` | src/concurrentqueue.h:2695-2778 | the second check, the give-back and the claim in place are the steps of the machine and keep the invariant |
| `Bits.CeilToPow2` | src/concurrentqueue.h:417-431 | the shift-or loop returns the least power of two >= x exactly for x in 1 .. 2^(N-1), and 0 for every other x |
| `Bits.MaskIsMod` | src/concurrentqueue.h:2853-2857 | x & (p - 1) is x mod p for every power of two p |
| `Bits.WrappedMaskIsMod` | src/concurrentqueue.h:2285-2290 | the same for a difference that has wrapped below zero in its word |
| `CircularIndex.CircularExact` | src/concurrentqueue.h:396-403 | circular_less_than on N-bit residues agrees with < exactly when the difference lies within the half range |
| `CircularIndex.SingleTestIsBulkTest` | src/concurrentqueue.h:2688-2697 | the test of a single dequeue and the test of a bulk dequeue are the same test |
| `ImplicitProducerWindow.WrappedQueueRefines` | src/concurrentqueue.h:2683-2706 | through every run of producer and consumers the N-bit counters, stepped with the wrapped arithmetic of the code, are the residues of the unbounded ones; assumed is only that no consumer is overtaken by 2^(N-1) between a load and its test |
| `ImplicitProducerWindow.TailStaysInWindow` | src/concurrentqueue.h:2550-2679 | in every run, with stale reads of headIndex, one test for each block of a bulk and all of the bulk published at once, tailIndex - headIndex < 2^(N-1), and the last block in use ends less than 2^(N-1) above the head |
| `ImplicitProducerWindow.FullTestIsExact` | src/concurrentqueue.h:2564-2566 | whenever the full test is made, for whichever block of a bulk, the test on words, with or without MAX_SUBQUEUE_SIZE, says what the unbounded counters say, and the assertion before it holds |
| `CircularIndex.FullTestAgrees` | src/concurrentqueue.h:2405 | the test on words is the test on unbounded counters as long as the new block begins at or above the head and ends within 2^N of it |
| `CircularIndex.SlotIsWrappedBlocks` | src/concurrentqueue.h:2849-2857 | the slot computed from unsigned words is the number of blocks wrapped to the index space |
| `CircularIndex.UnsignedDivisionFindsSlot` | src/concurrentqueue.h:1928-1934 | for powers of two the unsigned quotient lands on the slot of the signed one, for all indices, exactly when capacity * BLOCK_SIZE fits the word |
| `CircularIndex.BlockBaseDiffWraps` | src/concurrentqueue.h:2550-2551 | blockBaseDiff computed on words, with startTailIndex - 1 wrapping at 0, is the unbounded number of blocks needed times BLOCK_SIZE |
| `BlockIndex.LookupFindsSlot` | src/concurrentqueue.h:2844-2860 | the slot for a block does not depend on which tail slot and key a consumer happened to read |
| `BlockIndex.SetKeyKeepsCoherent` | src/concurrentqueue.h:2805-2829 | writing the key of the next block keeps every header, old or new, showing keys only in their slots |
| `BlockIndex.RewindKeepsCoherent` | src/concurrentqueue.h:2831-2835 | so does a rewind of the index tail |
| `BlockIndex.ValueKeepsCoherent` | src/concurrentqueue.h:2510-2516 | so does publishing a block, or nulling one out in any order |
| `BlockIndex.GrowKeepsCoherent` | src/concurrentqueue.h:2862-2904 | so does doubling, with old and new headers sharing entries |
| `BlockIndex.FullIsOneLapBack` | src/concurrentqueue.h:2811-2819 | when the next slot holds a block, that block is exactly one capacity back |
| `BlockIndex.NewBlockIndex` | src/concurrentqueue.h:2880-2894 | the copy loop puts the old ring, oldest first, in front of as many fresh entries |
| `ImplicitProducerChain.ProducerStep` | src/concurrentqueue.h:2397-2456 | every access of the producer keeps the invariant, links included, and dereferences no null or foreign pointer |
| `ImplicitProducerSharing.ForeignStep` | src/concurrentqueue.h:2952-3004 | whatever other producers do with the pool and with the blocks they hold leaves the invariant as it is |
| `ImplicitProducerRuns.ConsumerStep` | src/concurrentqueue.h:2461-2529 | every access of a consumer, interleaved at will, keeps the invariant and dereferences no null pointer and no empty cell |
| `ImplicitProducerRuns.RunKeepsInv` | src/concurrentqueue.h:2397-2790 | the invariant holds after every interleaving of the producer with any number of consumers and with other producers |
| `ImplicitProducerTheorems.EveryAccessIsSafe` | src/concurrentqueue.h:2397-2790 | no access of any reachable state goes through a null or dangling pointer or reads a cell without an element |
| `ImplicitProducerTheorems.DeliveredInOrder` | src/concurrentqueue.h:2461-2529 | a call that claimed indices first .. end returns exactly the elements accepted at first .. end |
| `ImplicitProducerTheorems.EachElementOnce` | src/concurrentqueue.h:2683-2790 | once no consumer holds a claim, every element below headIndex has been returned by exactly one call |
| `ImplicitProducerTheorems.LookupInRun` | src/concurrentqueue.h:2837-2860 | for every element not completely dequeued the lookup yields a slot with that block's key and a non-null value |
| `ImplicitProducerTheorems.StaleLookup` | src/concurrentqueue.h:2837-2860 | a consumer whose loads of header, tail and key lie apart, with inserts, rewinds, null-outs and doubling in between, still finds its block with its element in it |
| `ImplicitProducerTheorems.OnePlacePerBlock` | src/concurrentqueue.h:2952-3004 | every block is always in exactly one of: the pool, its requisitioner's hands, one index entry, a rollback, a consumer on its way to the pool, another producer |
| `ImplicitProducerTheorems.IdleHoldsNoBlock` | src/concurrentqueue.h:2971-2978 | with no call running no block is in transit: failed enqueues have given back all they took |
| `ImplicitProducerTheorems.RecycledOnceAndEmpty` | src/concurrentqueue.h:2510-2518 | a block is sent to the pool only when all its elements are moved out and counted, by one consumer alone, and never while it is the block being filled |
| `ImplicitProducerTheorems.GoneStaysGone` | src/concurrentqueue.h:2510-2518 | a block number that has left the index never returns, so a block is recycled once per use |
| `ImplicitProducerTheorems.WritesOnlyOwnBlocks` | src/concurrentqueue.h:2618-2677 | the walk tailBlock = tailBlock->next constructs each element in the block that the index shows under the element's number, which is not in the pool, nor on its way there, nor with another producer |
| `ImplicitProducerTheorems.LinksOnlyOwnBlocks` | src/concurrentqueue.h:2539-2601 | every store to a next pointer goes to a block of this producer: the one just requisitioned, or, through tailBlock, the block one number before it in the index; when the guard fails no block is touched |
| `ImplicitProducerTheorems.ChainIsAcquired` | src/concurrentqueue.h:2573-2604 | the links from firstAllocatedBlock lead through exactly the acquired blocks, which the index shows under the new numbers (or which the rollback has taken out again), and end in null |
| `ImplicitProducerWrites.EndTest` | src/concurrentqueue.h:2672-2676 | the comparison of pointers tailBlock == endBlock holds at the end of a chunk exactly when all elements are constructed; otherwise tailBlock is the live block of the chunk just filled |
| `ImplicitProducerChain.HopFindsNext` | src/concurrentqueue.h:2676 | and its next pointer leads to the block of the next element |
| `ImplicitProducerChain.LinkAppends` | src/concurrentqueue.h:2598-2604 | the guarded store appends the new block to the chain and breaks no link of it |
| `ImplicitProducerTheorems.BulkAllOrNothing` | src/concurrentqueue.h:2533-2680 | an enqueue, bulk or single, under any interleaving, appends exactly its elements in order with exactly ceil((s+c)/B) - ceil(s/B) new blocks, or leaves elements, tailIndex, tailBlock and inserted index as they were |
| `ImplicitProducerTheorems.NeededIsCeil` | src/concurrentqueue.h:2550-2551 | the number of blocks computed is ceil((s+c)/B) - ceil(s/B), also for s = 0 |
| `EnqueueResults.SucceedsUnlessCause` | src/concurrentqueue.h:2397-2456 | under any interleaving an enqueue, bulk or single, publishes its elements if no access since its start met a cause of failure, and leaves the queue as it was if one did; the causes are a full test for a needed block whose number n gives n*B + B - headIndex >= 2^(N-1) or > MAX_SUBQUEUE_SIZE, a larger index that is not allocated, and a block neither in the pool nor allocated |
| `EnqueueResults.StartsFailing` | src/concurrentqueue.h:2550-2604 | access by access: the producer turns to its rollback exactly at a cause of failure, and returns without one only by its store of tailIndex |
| `EnqueueResults.GrowsOnlyWhenUsed` | src/concurrentqueue.h:2805-2829 | a larger index is asked for only after the entry behind the index tail was found to show a block still in use |
| `SharedPool.SharedRunProjects` | src/concurrentqueue.h:2952-3004 | several producers with their consumers on one memory and one pool: what each of them sees of the run is a run of the machine of one producer, so that all its theorems hold for each |
| `SharedPool.OnePlaceOverall` | src/concurrentqueue.h:2952-3004 | in every such run every block is in exactly one place of the whole system: the pool, or one place with one producer |
| `SharedPool.LinkStoresMeetNoOther` | src/concurrentqueue.h:2539-2601 | in every such run the store to tailBlock->next goes to a block in the index of the storing producer, never to one that is in the pool or with another producer |
| `SharedPool.EachDeliversItsOwn` | src/concurrentqueue.h:2461-2529 | in every such run each finished call of a consumer returns exactly the elements that its own producer accepted at the indices it had claimed |
| `ImplicitQueue.EnqueueIsWaitFree` | src/concurrentqueue.h:2533-2680 | the producer's own accesses in one operation are at most c + 16 k + 10 for c elements and k blocks, whatever the consumers, the other producers and the allocator do; requisition_block counts as one access |
| `DequeueResults.DequeueIsWaitFree` | src/concurrentqueue.h:2683-2790 | a dequeue of at most max elements makes at most 5 max + 10 accesses from its call to its end, whatever the producer and the other consumers do in between |
| `DequeueResults.LoneDequeue` | src/concurrentqueue.h:2683-2790 | a whole dequeue alone, with no other claim unsettled, returns the oldest min(max, size) elements in order and moves headIndex behind them; from an empty queue it takes nothing |
| `ImplicitQueue.Producer.EnqueueBulk` | src/concurrentqueue.h:2533-2680 | enqueue_bulk run in place ends, and has appended all elements or nothing, tailBlock as before if nothing; it succeeds only if the sub-queue, counted in whole blocks up to its new end, is shorter than 2^(N-1) and within MAX_SUBQUEUE_SIZE (or no block is needed), and with memory granted exactly then |
| `ImplicitQueue.Producer.Enqueue` | src/concurrentqueue.h:2397-2456 | the same for a single enqueue |
| `ImplicitQueue.Producer.LinkBlock` | src/concurrentqueue.h:2596-2605 | the guarded store to tailBlock->next and the moves of tailBlock, endBlock and firstAllocatedBlock, in place, are the step of the machine |
| `ImplicitQueue.Producer.FindSlot` | src/concurrentqueue.h:2805-2829 | the slot test and the doubling, in place, are the steps of the machine |
| `ImplicitQueue.Producer.RollBack` | src/concurrentqueue.h:2573-2580 | the rollback loop, along block->next, in place, takes the steps of the machine |
| `ImplicitQueue.Producer.FreeBlocks` | src/concurrentqueue.h:2971-2978 | add_blocks_to_free_list reads next before it gives a block away, in place, as the machine does |
| `ImplicitQueue.Producer.WriteElement` | src/concurrentqueue.h:2616-2679 | the write walk along the links and the store of tailIndex, in place, are the steps of the machine |
| `ImplicitQueue.Producer.Produce` | src/concurrentqueue.h:2533-2680 | any access of the producer, in place, is the step of the machine and keeps the invariant |
| `BlockFlags.Flags.SetManyEmpty` | src/concurrentqueue.h:1519-1531 | the stretch of flags set is exactly the chunk's, although flags are stored back to front |
| `BlockFlags.Flags.IsEmpty` | src/concurrentqueue.h:1473-1486 | the flag loop answers true exactly when every element is dequeued |
| `BlockFlags.Counter.SetManyEmpty` | src/concurrentqueue.h:1531-1537 | the counter answers true exactly for the chunk that completes the block |
| `ExplicitRing.IndexListsRing` | src/concurrentqueue.h:1770-1869 | the last pr_blockIndexSlotsUsed entries before pr_blockIndexFront list the ring from tailBlock->next to tailBlock, bases rising by one block, no block twice |
| `ExplicitRing.ReuseKeepsInv` | src/concurrentqueue.h:1779-1789 | reusing the empty block ahead keeps the ring and its index, and drops only elements that are dequeued |
| `ExplicitRing.InsertKeepsInv` | src/concurrentqueue.h:1812-1831 | linking in a new block keeps them |
| `ExplicitRing.DoubleKeepsInv` | src/concurrentqueue.h:2266-2303 | new_block_index keeps them, and the replaced index goes on showing every block it showed |
| `ExplicitRing.DequeueFindsBlock` | src/concurrentqueue.h:1925-1937 | dequeue's slot computation finds the block of its index, through any slot it may have read as front |
| `ExplicitDequeue.StaleLoadsAreSafe` | src/concurrentqueue.h:1925-1937 | in every run of producer and consumers no load of a dequeue, made at whatever time, meets a missing entry or block; a consumer with a replaced index has claimed an element of a block that this index shows |
| `ExplicitDequeue.MovesItsElement` | src/concurrentqueue.h:1925-1964 | through an index that may have been replaced since, a consumer moves out the element enqueued at the index it claimed, from a cell not yet marked empty |
| `ExplicitDequeue.ClaimIsServed` | src/concurrentqueue.h:1925-1964 | in every run a consumer makes exactly five accesses for the index it has claimed, and with the last of them that index is dequeued: no claim is dropped |
| `ExplicitDequeue.StepKeepsInv` | src/concurrentqueue.h:1770-1869 | reuse, insertion, doubling, in-block enqueue, claims and every load of a consumer keep the invariant |
| `ExplicitRing.CopyEntries` | src/concurrentqueue.h:2284-2290 | the do-while copy ends after exactly the used slots and copies them oldest first |
| `ExplicitRing.ExplicitProducer.constructor` | src/concurrentqueue.h:1688-1702 | the initial index size is a power of two for every pool size |
| `ExplicitRing.ExplicitProducer.NewBlockIndex` | src/concurrentqueue.h:2266-2303 | doubling in place gives the doubled ring; a failed allocation changes nothing |
| `ExplicitRing.ExplicitProducer.Enqueue` | src/concurrentqueue.h:1770-1869 | succeeds exactly inside a block, or when every element of the oldest block in the ring has been dequeued, or with room by the full test in plain numbers, an index entry and a block to be had; a failure leaves ring, elements and tail as they are; a success appends the element in its cell; the index is doubled only if it was full or not there yet |
| `ExplicitRing.EmptyIsDone` | src/concurrentqueue.h:1779-1781 | in every state of the invariant the flags of the block ahead test empty exactly if all elements of the oldest block have been dequeued |
| `ExplicitRing.ExplicitProducer.Take` | src/concurrentqueue.h:1925-1964 | the rest of a dequeue in place returns the element enqueued at the claimed index and marks only it |
| `ExplicitRing.ExplicitProducer.FindBlock` | src/concurrentqueue.h:1925-1937 | the lookup in place, with masks on wrapped words, returns the block of the index |
| `ProducerHashProof.StepKeepsInv` | src/concurrentqueue.h:3280-3428 | every access of get_or_add_implicit_producer, by any thread, keeps the invariant of the tables |
| `ProducerHash.FewKeys` | src/concurrentqueue.h:3382-3385 | a table with any key holds fewer than three quarters of its capacity |
| `ProducerHashProof.TablesNeverFill` | src/concurrentqueue.h:3343-3385 | that holds for every table in every run, with lazy copies, resizes and failed allocations, so a free slot is always left |
| `ProducerHashProof.ProbesAreShort` | src/concurrentqueue.h:3303-3337 | no probe loop makes as many steps as the table has slots, whatever is inserted meanwhile |
| `ProducerHashProof.ProducersArePerThread` | src/concurrentqueue.h:3280-3428 | results of two calls, at any two times, are the same producer exactly if the thread is the same |
| `ProducerHashProof.RegisteredStaysRegistered` | src/concurrentqueue.h:3296-3337 | once registered, a thread's later calls never come back empty |
| `ProducerHashResults.NullOnlyWithoutMemory` | src/concurrentqueue.h:3279-3428 | in every run a call that returns null, or is about to, has been refused an allocation since it began, of a larger table or of a producer |
| `ProducerHashResults.AloneGetsProducer` | src/concurrentqueue.h:3280-3428 | from every reachable state with no resize running, a call that runs alone and is granted its allocations ends with a producer, its key is then in the newest table with that producer, and if the thread is new that table is less than half full |
| `ProducerHashResults.CallGoesOnAlone` | src/concurrentqueue.h:3280-3428 | so does a call that goes on alone from any point at which no allocation of it has failed, unless another thread is resizing |
| `ProducerHashResults.GoesOnDuringResize` | src/concurrentqueue.h:3348-3385 | and while another thread is resizing, as long as the table is less than three quarters full |
| `ProducerHashResults.ResizesWhenHalfFull` | src/concurrentqueue.h:3348-3378 | in every run a thread asks for a new table only for a count that fills half of the newest one; the new capacity is the old one doubled once, and then as often as it takes to be more than twice the count |
| `ProducerHashProof.CountIsRegistered` | src/concurrentqueue.h:3341-3368 | with no call running the count is the number of registered threads, failed calls included |
| `ProducerHashProof.Find` | src/concurrentqueue.h:3300-3339 | the search loop in one table ends and finds the key exactly if it is there |
| `ProducerHashProof.InsertKey` | src/concurrentqueue.h:3402-3420 | the insertion loop ends, fills one free slot and keeps every key reachable |
| `ProducerHashProof.Populate` | src/concurrentqueue.h:3230-3243 | the first table is empty |
| `Semaphore.StepKeepsInv` | src/blockingconrurrentqueue.h:259-404 | each access of any wait or signal keeps both conservation laws |
| `Semaphore.NoOvergrant` | src/blockingconrurrentqueue.h:259-404 | granted + max(0, m_count) + kernel permits + posts to come = initial + signalled in every run, so no permit is granted twice, timeouts included |
| `Semaphore.NoLostWakeup` | src/blockingconrurrentqueue.h:395-404 | while m_count >= 0 the slow-path waiters are exactly the kernel permits plus the posts to come |
| `Semaphore.WaiterHasPermit` | src/blockingconrurrentqueue.h:286-295 | a waiter with m_count >= 0 has a kernel permit there or on its way, as the undo loop relies on |
| `Semaphore.NegativeMeansHandedOut` | src/blockingconrurrentqueue.h:274-281 | while m_count <= 0 everything signalled is granted or in the kernel |
| `Semaphore.ResultInRange` | src/blockingconrurrentqueue.h:377-393 | a call returns at most its maximum, an untimed one for a positive maximum at least one |
| `Semaphore.SoloRepair` | src/blockingconrurrentqueue.h:286-295 | the undo of a timeout ends within two accesses when the others pause: it gives its unit back or takes its permit |
| `Semaphore.SoloTry` | src/blockingconrurrentqueue.h:365-376 | tryWaitMany alone takes min(max, what is there) |
| `SemaphoreResults.LoneCallTakes` | src/blockingconrurrentqueue.h:342-393 | a call of any kind, timed, untimed or never waiting, alone with a positive count takes exactly min(max, count) at once |
| `SemaphoreResults.LoneWaitTakes` | src/blockingconrurrentqueue.h:259-330 | from every reachable state and any access before the kernel wait, stale values included, a wait that goes on alone with a positive count ends with min(max, count), on top of the permit it may have |
| `SemaphoreResults.LoneWakeTakes` | src/blockingconrurrentqueue.h:282-284 | a wait that finds its kernel permit returns 1 + min(max - 1, count), 1 if the count is not positive |
| `SemaphoreResults.LoneTimeout` | src/blockingconrurrentqueue.h:286-295 | after a timeout a wait alone returns 0 and restores its unit of a negative count, or, signalled after all, takes its kernel permit and min(max - 1, count) more |
| `SemaphoreResults.LoneSignal` | src/blockingconrurrentqueue.h:395-404 | signal(c) alone adds c and posts min(c, -count) times if the count was negative |
| `SemaphoreResults.ShortOnlyWhenEmpty` | src/blockingconrurrentqueue.h:259-393 | in every run a wait returns less than it asked for only if the access that ends it leaves no positive count |
| `SemaphoreResults.NothingOnlyAfterTimeout` | src/blockingconrurrentqueue.h:286-295 | in every run a timed wait for a positive number that returns 0 has, within that call, waited in the kernel until its timeout and then exchanged a negative count |
| `Semaphore.LightweightSemaphore.TryOrSpin` | src/blockingconrurrentqueue.h:259-273 | the accesses before the slow path, in place, are the steps of the machine and keep both laws |
| `Semaphore.LightweightSemaphore.SlowPath` | src/blockingconrurrentqueue.h:274-330 | the slow path and its undo, in place, likewise |
| `Semaphore.LightweightSemaphore.SignalStep` | src/blockingconrurrentqueue.h:395-404 | signal, in place, likewise |
| `BlockingQueue.StepKeepsInv` | src/blockingconrurrentqueue.h:518-764 | every access of the blocking wrappers keeps permits and elements matched |
| `BlockingQueue.Matching` | src/blockingconrurrentqueue.h:518-764 | elements in the inner queue = available and in-transit permits + granted permits without an element yet + elements not signalled yet, in every run |
| `BlockingQueue.PermitHasElement` | src/blockingconrurrentqueue.h:656-662 | whoever holds permits has that many elements waiting, which is why the retry loops need no exit |
| `BlockingQueue.GrantInRange` | src/blockingconrurrentqueue.h:838-848 | a bulk wait grants between one (untimed) and max elements |
| `BlockingQueue.ShortOnlyWhenSpokenFor` | src/blockingconrurrentqueue.h:838-866 | a wait comes back with fewer permits than it asked for only when every element in the queue is spoken for by a permit in transit, a call that has its permits, or a signal to come |
| `BlockingQueue.GrantedLoopEnds` | src/blockingconrurrentqueue.h:722-730 | in any run, a thread with permits and no call unsettled finds balanced sub-queues with enough elements |
| `BlockingQueue.InnerQueue.TryDequeueBulk` | src/concurrentqueue.h:1137-1147 | the loop over the producers takes min(max, total size) |
| `BlockingQueue.InnerQueue.DequeueGranted` | src/blockingconrurrentqueue.h:724-729 | the retry loop run alone ends, with exactly the granted count |
| `BlockingQueue.SizeIsNotExceeded` | src/blockingconrurrentqueue.h:929-932 | size_approx never exceeds the number of elements |
| `BlockingQueue.SizeIsExactWhenIdle` | src/blockingconrurrentqueue.h:929-932 | and is exact while no call runs |
| `SpscSemaphore.StepKeepsInvIff` | src/atomicops.h:569-648 | an access keeps the invariant if and only if it is not a signal(0) while the consumer waits |
| `SpscSemaphore.RunKeepsInvIff` | src/atomicops.h:569-648 | the invariant holds throughout a run if and only if no signal(0) of the run meets a negative count |
| `SpscSemaphore.CountAtLeastMinusOne` | src/atomicops.h:639-648 | m_count >= -1 in every interleaving in which no signal(0) meets a negative count, the +1/-1 undo loop included |
| `SpscSemaphore.FalseWaitLeavesNothing` | src/atomicops.h:598-609 | after a wait that returned false no kernel permit is left or on its way, and the count is restored, in every such interleaving |
| `SpscSemaphore.LoneWaitTakes` | src/atomicops.h:569-637 | alone, a wait of any kind and at any access takes the permit that is there, in the count or in the kernel |
| `SpscSemaphore.FalseOnlyWhenEmpty` | src/atomicops.h:569-637 | in every clean run the access that ends a wait with false finds every permit put in handed out; tryWait fails exactly then |
| `SpscSemaphore.FalseWaitGaveUp` | src/atomicops.h:587-609 | in every run a wait that returned false was tryWait without a permit to be seen, or a timed one whose kernel wait expired and which then found the count negative; never an untimed one |
| `SpscSemaphore.NoOvergrant` | src/atomicops.h:569-648 | no more waits succeed than permits were put in, in every such interleaving |
| `SpscSemaphore.PositiveIsClean` | src/atomicops.h:639-648 | a run without signal(0) is such an interleaving |
| `SpscSemaphore.AvailableIsOffByOne` | src/atomicops.h:650-654 | availableApprox exceeds the permits by at most one, and only inside the undo |
| `SpscSemaphore.SoloRepair` | src/atomicops.h:598-609 | with the producer out of signal the undo ends within three accesses, correctly in both cases |
| `SpscSemaphore.ZeroSignalStrays` | src/atomicops.h:639-648 | a run in which signal(0) wakes the consumer for nothing and leaves m_count at -1 with nobody waiting |
| `SpscSemaphore.SecondWaitBreaksCount` | src/atomicops.h:639-648 | continued with a second wait, that run takes m_count to -2, against the assertion of signal |
| `SpscSemaphore.LightweightSemaphore.WaitOrRepair` | src/atomicops.h:587-609 | the kernel wait and the undo, in place, are the steps of the machine and keep the invariant |
| `SpscSemaphore.LightweightSemaphore.SignalStep` | src/atomicops.h:639-648 | signal, in place, keeps the invariant exactly unless it is the stray one |
| `LruCache.RunWellFormed` | src/lrucache.cc:14-59 | after any run the list has no key twice and at most capacity entries |
| `LruCache.OrderIsRecency` | src/lrucache.cc:14-49 | after any run the list is strictly ordered by the most recent put or hit |
| `LruCache.EvictsLeastRecent` | src/lrucache.cc:25-30 | an eviction removes exactly the least recently used key |
| `LruRetention.RoomKeepsAll` | src/lrucache.cc:25-36 | below capacity a put of a new key adds it in front and removes nothing |
| `LruRetention.KeptExactly` | src/lrucache.cc:14-59 | the law of contents: a key is in the cache if and only if it was put and not deleted since, and at no time since its last use were there as many as capacity other keys used after it and not deleted |
| `LruRetention.FoundWhileFewOthers` | src/lrucache.cc:14-59 | a key put and not deleted is a hit, with the value put, as long as fewer than capacity other keys were put or hit since its last use |
| `LruRetention.FrontIsNewer` | src/lrucache.cc:14-49 | in front of a key are exactly the keys used after it and not deleted |
| `LruCache.HitIsLastPut` | src/lrucache.cc:38-49 | a hit returns the last value put, for every capacity |
| `LruCache.RunsIncluded` | src/lrucache.cc:14-59 | for capacities c1 <= c2 the small list is the large one with entries left out, at most c2 - c1 of them |
| `LruCache.LargerCacheHitsMore` | src/lrucache.cc:14-59 | every hit of the smaller cache is a hit of the larger one, with the same value, for every trace |
| `LruCache.Cache.Put` | src/lrucache.cc:14-36 | map, list, iterators and size updated in place represent the abstract put, which RoomKeepsAll and KeptExactly speak of; the result tells a hit |
| `LruCache.Cache.Get` | src/lrucache.cc:38-49 | the same for get |
| `LruCache.Cache.Del` | src/lrucache.cc:51-59 | the same for del |
| `LruCache.Cache.Replay` | src/lrucache.cc:14-59 | the same for any sequence of operations |
| `Store.RecordsApart` | src/DBImpl.cc:44-47 | records of different keys do not overlap |
| `Store.PutRecord` | src/DBImpl.cc:76-80 | writing a record changes the stored map at its key only |
| `Store.DelRecord` | src/DBImpl.cc:87-90 | clearing a flag removes its key only |
| `Store.HeaderRoundTrip` | src/DBImpl.cc:77-78 | the size read back from the header is the size written |
| `Store.CreateFile` | src/DBImpl.cc:94-113 | the loop writes exactly the file size, all zeros |
| `Store.DBImpl.constructor` | src/DBImpl.cc:21-35 | opening gives the map and size that are in the file |
| `Store.DBImpl.Get` | src/DBImpl.cc:41-57 | get answers as a plain map, from the cache or the file, for every cache capacity, keeps the cache equal to the live records, and leaves what it found at the front of the cache |
| `Store.DBImpl.Put` | src/DBImpl.cc:59-82 | put updates the map at its key; the cache, with the key at its front, the record and the size in the header agree afterwards |
| `Store.DBImpl.Del` | src/DBImpl.cc:84-92 | del removes its key and leaves db_size, which counts live keys plus dels that hit a live key (in 32 bits) |
| `Store.DBImpl.Serve` | src/DBImpl.cc:41-92 | any sequence of operations is answered as by a plain map |
| `Store.GetSeesLastWrite` | src/DBImpl.cc:41-92 | in those answers a get has the value of the last put of its key before it, or none if a del came after that put |
| `Store.GetSeesStart` | src/DBImpl.cc:41-57 | and without a put or del before it, what was stored at the start |
| `Store.DBImpl.Reopen` | src/DBImpl.cc:21-35 | a store opened again on its file, with any cache size, has the same map and size |
| `Store.Create` | src/DBImpl.cc:94-113 | a new store is empty with size 0 |

## Left out

- Memory orderings, fences, alignment, placement and destruction of elements: one access per step, sequentially consistent.
- Throwing constructors and assignments and their catch blocks: the elements are raw pointers here.
- Explicit `enqueue_bulk` and `dequeue_bulk`, including the failure paths of the former, which keep injected blocks: the explicit producer is modelled for single operations only.
- Allocation failure in the implicit producer's constructor: later code dereferences the index unconditionally.
- Thread-exit recycling of producers, memory statistics and debug locks: compiled out.
- Queue move and swap, producer and consumer tokens, the list of producers and the choice of the producer to try: a dequeue may try the sub-queues in any order.
- The free list inside the machine of the implicit producer: taking a block from the pool and giving one back are single steps there; `FreeList` is the proof that the list behaves so. That the pool is asked at all before the allocator is part of the answer, not of the machine; FreeListProgress.NullOnlyFromEmpty says when the list has none.
- Progress of all threads under contention, such as waiting for another thread's resize of a table that is three quarters full: bounds are proved for each call of the implicit producer and its consumers in every interleaving, and elsewhere for a thread that goes on alone from any reachable state.
- The kernel semaphores: an abstract count with wait, try_wait, a timed wait that may expire at any moment, and post.
- Overlapping operations of the store: cache and file are under different locks, so whole operations are atomic here.
- The key UINT32_MAX and values of another length than VAL_LEN: the file has no record for that key, and the server asserts the length.
- A cache of capacity 0, or one that does not fit the 32-bit size: eviction from an empty list is undefined in the source.
- Server, client, worker threads, the fake database and the distributions: sockets, timing and floating point.
- ImplicitQueue.EnqueueIsWaitFree: counts requisition_block as one access; the loops inside the free list it calls are bounded only when a thread runs alone (FreeListProgress.EveryCallEndsAlone).
- OptimisticDequeue.SoloDequeue: stated for states in which no other call is between its ticket and its claim; with such calls a dequeue may fail on a non-empty queue, as ClaimResults.FirstLook and TicketIsWorth say exactly.
- BlockingQueue.InnerQueue.DequeueGranted: stated for a thread that runs alone; under contention the loop retries, with PermitHasElement as the reason it will not wait for nothing.
- ExplicitDequeue.MovesItsElement: an enqueue of the explicit producer is one step among the loads of the consumers; the order of its stores is that of the class ExplicitRing.ExplicitProducer.
- ImplicitProducerWindow.WrappedQueueRefines: the counters and their tests are on words; keys and block numbers of the index are carried over by CircularIndex, access by access.
- ProducerHash.FewKeys: an empty table is excepted, since a table of capacity 1 has a limit of 0.
