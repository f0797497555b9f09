# A verified model of mimalloc's memory protocols

The Dafny files in this directory model the parts of mimalloc 1.6.3, as it is prepared for model
checking in this repository (`mimalloc-custom/` and `test/`), that are hardest to get right, and
prove properties of them for any number of threads, blocks, pages, segments and steps.

`dafny verify dfyconfig.toml` checks the whole project.

## What is modelled, and how

Concurrent code is a state machine. Every atomic read, store, exchange and compare-and-swap is one
step, a weak compare-and-swap may fail at any time, and any number of threads interleave. A step that
touches released memory or breaks an internal assertion has the outcome `Fault`. The theorems are about
every finite run from the initial state; they rest on an inductive invariant, stated relative to a
history (where each block, segment or bit is), which is shown to hold initially and to be kept by each
step. What an operation is for is stated by the modules named `...Alone`: the steps of its thread
alone, with every compare-and-swap that compares equal succeeding, lead from any reachable state to the
state that is written out; that it also holds when others move is said by theorems about every run, or
every step, where the code promises it. Sequential code is imperative: classes whose methods change
fields and arrays in place, each proved against a function or a ghost list.

* **Cross-thread free** (`FreeProtocol`, `FreeInvariant`, `FreeFrames`, `FreerSteps`, `OwnerLoops`,
  `OwnerActions`, `OwnerTasks`, `FreeTheorems`, `FreeQuiet`, `FreeResults`, `FreeDrains`, `FreeAlone`,
  `OwnerAlone`, `HeapAlone`). Threads that free blocks of others go through `_mi_free_block_mt`; owners
  allocate, free, extend, collect, retire, move pages to the full queue and back, drain delayed lists,
  absorb heaps, abandon pages at thread end and reclaim them. The lists of blocks are sequences here,
  and `PageLists` shows that the linked lists do the same; `ThreadFreeWord` shows that comparing packed
  words compares the head and the flag.
* **Abandoned segments** (`Abandoned`, `AbandonedInvariant`, `AbandonedSteps`, `AbandonedMoves`,
  `AbandonedTheorems`, `AbandonedResults`, `AbandonedWrap`, `AbandonedAlone`). The tagged stack, the
  visited stack, their migration, the reader count and the release of memory behind it. The tag is the
  real one: 17 bits in the head word. A run is called timely if no pop compares a word that is
  MI_SEGMENT_SIZE or more updates old; `AbandonedWrap` has a run that is not, and loses a segment.
* **Regions, bitmaps, arenas** (`BitScan`, `Regions`, `RegionInvariant`, `RegionSteps`, `RegionMoves`,
  `RegionTheorems`, `RegionResults`, `RegionOverrun`, `RegionThreeThreads`, `RegionAlone`,
  `RegionSearch`, `Arenas`). The bit scan is an imperative method in an environment that may change the
  word before each access, and so is the search of an arena; the region machine uses the scan's
  reference function for each attempt.
* **Publishing a region in weak memory** (`Publication`, `PublicationAlone`). A release/acquire memory
  with views and messages at real timestamps, one publisher and any number of claimers.
* **Free lists and collection** (`FreeLists`, `PageLists`), **size classes** (`SizeClasses`), **page
  queues and the direct index** (`PageQueues`), **page search** (`PageSearch`, `RetiredPages`,
  `FreshPages`), **aligned allocation** (`AlignedAlloc`), **segment accounting** (`Segments`).

## What differs from the comments of the code

* The constants are those of the code: small pages of 8 KiB, medium pages of 32 KiB, segments and
  large pages of 128 KiB, a tag of 17 bits; the sizes in the comments are larger.
* A page keeps `used + |free| + |local_free| == capacity`; blocks on the thread-free list are still
  counted in `used`.
* The size classes above 8 words waste less than a quarter of a request; the 12.5% of the comment is
  exceeded, by 15 words of 65 for instance, and holds exactly for the sizes that
  `SizeClasses.WasteEighthIff` describes.
* The table of regions: the counter of regions exceeds MI_REGION_MAX exactly while a failed creation
  has yet to undo its increment. A search that reads it then goes beyond the end of the table. The
  model gives such a step the outcome `Overrun`. With one or two threads no run has such a step; any
  three threads have a run that does.
* A pointer aligned to the segment size or more lies in the segment of its block only for some offsets;
  `AlignedAlloc.SegmentFoundIff` has the exact condition. Without an offset it never does.

## Model

| member | source | states |
|---|---|---|
| FreeResults.NoFault | mimalloc-custom/alloc.c:290-345 | in every run, no step of a remote free, a collect, a drain, an absorb, an abandon or a reclaim touches a released page or heap, finds a NULL heap under the lock, or breaks one of the modelled assertions |
| FreeResults.EmptyPageIsQuiet | mimalloc-custom/page.c:364-393 | `used == 0` alone makes the release safe: no block of the page is live, in a freeing thread, on its thread-free list, on a delayed list or taken over, no thread is about to touch its word, and the flag is not DELAYED_FREEING |
| FreeResults.ReleasedPageUnreferenced | mimalloc-custom/page.c:364-393 | a page that is not in use has no block with the program, a freeing thread, a delayed list or a list taken over |
| FreeResults.BlocksConserved | mimalloc-custom/page.c:99-101 | every block below the capacity of a page in use has exactly one holder, all other blocks none, and used + free + local_free == capacity |
| FreeResults.ListsWithoutDuplicates | mimalloc-custom/page.c:60-70 | in every run every free, local, thread-free, delayed and taken-over list is free of duplicates |
| FreeResults.CollectNeverCorrupt | mimalloc-custom/page.c:168-181 | the thread-free list never has more blocks than the page has capacity, so the corruption branch is never taken |
| FreeResults.FlagIsALock | mimalloc-custom/alloc.c:311-343 | the flag is DELAYED_FREEING exactly while one freeing thread is between its two flag updates, and that thread finds a non-NULL heap that is alive and belongs to the owner of the page |
| FreeResults.OnlyResetUnlocks | mimalloc-custom/page.c:125-148 | while the flag is DELAYED_FREEING, every step keeps the page and the flag, but for the holder's own reset |
| FreeResults.NoLostFree | mimalloc-custom/mimalloc-types.h:195-201 | a page with remote frees that is not NEVER_DELAYED_FREE has a block on a delayed list or in a list taken over and not yet spun for, a thread that holds its lock, or an owner about to collect it |
| FreeResults.QuiescentPageIsReached | mimalloc-custom/page.c:276-298 | when no operation is under way, every page of the full queue, and of any heap, that has remote frees has a block on the delayed list of its own heap, which its owner has |
| FreeDrains.QuietPageIsDrained | mimalloc-custom/page.c:276-298 | from such a state on, in every run: once the owner has taken over the delayed list of the heap and worked off what it took, the page was released, or was off the full queue, in between |
| FreeDrains.FullPageHasHome | mimalloc-custom/page.c:300-327 | in every run a page marked full has a heap, and the owner of that heap |
| FreeDrains.ListStays | mimalloc-custom/page.c:276-283 | in every step a block on a delayed list stays there, or is in what the owner took over |
| FreeDrains.Arrives | mimalloc-custom/page.c:276-283 | a block that is on a delayed list when the owner starts to take it over has been in what it took by the end of the take-over |
| FreeQuiet.StepQuiet | mimalloc-custom/page.c:334-360 | every step keeps that full pages have a heap, and that a page of a heap is NEVER_DELAYED_FREE only while its owner abandons the heap or is about to set the flag of a page that it reclaims |
| FreeResults.QuietPage | mimalloc-custom/page.c:334-360 | when no operation is under way, a full page has a heap, and no page of a heap is NEVER_DELAYED_FREE |
| FreeResults.DrainTakesAll | mimalloc-custom/page.c:276-283 | taking over a delayed list takes all of it and leaves the list empty |
| FreeResults.OnlyFinishLeaves | mimalloc-custom/page.c:284-298 | a block leaves the list taken over only when its owner finishes freeing it |
| FreeResults.DrainReaches | mimalloc-custom/alloc.c:453-473 | between the take-over of a block and its leaving the list, its page is released or is off the full queue |
| FreeResults.HandOver | mimalloc-custom/page-queue.c:339-350 | once every page was appended to the absorbing heap, or was marked NEVER_DELAYED_FREE, no freeing thread holds the old heap, and no step adds to its delayed list |
| FreeResults.HeapEndsEmpty | mimalloc-custom/heap.c:353-382 | after the second drain the absorbed heap has an empty delayed list that nobody can push on; the same holds for the heap of a thread that ends |
| FreeResults.AbandonedPageDetached | mimalloc-custom/page.c:334-360 | an abandoned page is NEVER_DELAYED_FREE, has no heap, is not locked, and none of its blocks is on a delayed list or in one taken over |
| FreeTheorems.RunInvariant | mimalloc-custom/heap.c:112-175 | the invariant of block places, locks, ownership and unlost frees holds after every run |
| FreeTheorems.StepKeeps | mimalloc-custom/alloc.c:290-372 | every enabled step from a state with the invariant succeeds and keeps the invariant |
| FreeAlone.RemoteFreeAlone | mimalloc-custom/alloc.c:290-345 | an undisturbed remote free hands its block over: if the flag is USE_DELAYED_FREE, the block is first on the delayed list of the heap of the page and the flag is NO_DELAYED_FREE; else it is first on the thread-free list; all else is as it was |
| FreeAlone.LiveFreeAlone | mimalloc-custom/alloc.c:349-372 | the same from the call on, for every block that the program has |
| FreeAlone.MallocAndFree | mimalloc-custom/alloc.c:24-33 | a malloc hands out the first free block; a free by the owner then puts it first on the local list |
| FreeAlone.NewPageAlone | mimalloc-custom/page.c:542-566 | a fresh page of a new heap that is extended has all its blocks, each once, the later ones first |
| OwnerAlone.SpinAlone | mimalloc-custom/page.c:125-148 | the flag becomes the one asked for, but NEVER_DELAYED_FREE stays unless it may be overridden |
| OwnerAlone.CollectAlone | mimalloc-custom/page.c:155-223 | the thread-free list comes before the local one, both are on the free list if that was empty or the collect is forced, and `used` drops by what others freed |
| OwnerAlone.TakeAlone | mimalloc-custom/page.c:276-283 | the whole delayed list is taken over |
| OwnerAlone.RoundAlone | mimalloc-custom/alloc.c:453-473 | one round of a drain: the page is flagged, collected and given the block; a full page leaves the full queue, or is released if it is empty |
| OwnerAlone.DrainRest | mimalloc-custom/page.c:284-298 | all blocks taken over are given back: each page was released, or has the blocks on its own lists, nothing left to collect, and is off the full queue; other pages stay as they are |
| HeapAlone.DrainAlone | mimalloc-custom/page.c:276-298 | an undisturbed drain empties the delayed list and gives each block back to its page; the other pages and heaps stay as they are |
| HeapAlone.QuietDrainRecovers | mimalloc-custom/page.c:276-298 | in a quiet state a drain of a heap leaves no remote free on any of its pages, and no page that had one on the full queue |
| HeapAlone.ToFullAlone | mimalloc-custom/page.c:319-327 | the page is marked full, and all that was freed is on its free list at once |
| HeapAlone.CollectPageAlone | mimalloc-custom/page.c:192-223 | a collect by the owner, forced or not, with the resulting lists and count written out |
| HeapAlone.ReleaseAlone | mimalloc-custom/page.c:364-393 | a page without blocks in use is released |
| HeapAlone.AbsorbAlone | mimalloc-custom/heap.c:353-382 | an undisturbed absorb releases the heap; its pages belong to the other one, each delayed block is back on its page, and all else is as it was |
| HeapAlone.AbandonAlone | mimalloc-custom/heap.c:112-175 | an undisturbed abandon releases the heap; each of its pages is released if none of its blocks is in use, and else has no owner, no heap, the flag NEVER_DELAYED_FREE, and all other blocks on its free list |
| HeapAlone.ReclaimAlone | mimalloc-custom/segment.c:1126-1162 | a reclaimed page belongs to the heap, may be freed to with a delay, and is collected; it is released exactly if no block was in use |
| HeapAlone.PushBackAlone | mimalloc-custom/segment.c:1073-1110 | a page that is popped, checked and pushed back is collected and has no owner |
| OwnerLoops.ThreadFreeFits | mimalloc-custom/page.c:168-176 | distinct blocks of a page on its thread-free list are at most its capacity |
| OwnerActions.AllFree | mimalloc-custom/page.c:404-430 | a page with `used == 0` has all its blocks on its own two lists |
| ThreadFreeWord.PackInjective | mimalloc-custom/mimalloc-internal.h:464-472 | two packed words are equal exactly if the blocks and the flags are, and unpacking returns both |
| ThreadFreeWord.SetKeepsOther | mimalloc-custom/mimalloc-internal.h:473-478 | setting the flag keeps the block, and setting the block keeps the flag |
| AbandonedResults.NoFault | mimalloc-custom/segment.c:928-1029 | in every timely run, no step of push, pop, visited push, migration or release touches memory that was released or breaks an assertion |
| AbandonedResults.ExactlyOnePlace | mimalloc-custom/segment.c:941-1029 | the lists are acyclic, and every segment is in exactly one of the abandoned list, the visited list, the chain one thread is migrating, one thread's hands, and the free segments of the regions |
| AbandonedResults.ReaderGuard | mimalloc-custom/segment.c:991-1024 | a popper about to read a link reads one in memory, and never one of a segment whose holder has been told that the readers are gone |
| AbandonedResults.ReadersCounted | mimalloc-custom/segment.c:1014-1024 | the reader count is the number of threads inside the loop of a pop |
| AbandonedResults.PopRightIff | mimalloc-custom/segment.c:1016-1023 | a pop whose compare-and-swap compares equal leaves the lists in order exactly if the link it read is the one the segment still has |
| AbandonedAlone.PopAlone | mimalloc-custom/segment.c:1000-1029 | an undisturbed pop returns the first segment of the abandoned list; if that is empty, the first of the visited list, which moves there in order and is then empty; and nothing exactly if both are empty |
| AbandonedAlone.NothingOnlyIfEmpty | mimalloc-custom/segment.c:1000-1029 | in any timely run, a pop that returns nothing has read an empty visited list, or an empty abandoned list inside its loop, and nothing after |
| AbandonedAlone.AbandonAlone | mimalloc-custom/segment.c:976-988 | a segment pushed undisturbed is the first of the abandoned list, before those on it; the visited list stays |
| AbandonedAlone.VisitAlone | mimalloc-custom/segment.c:928-939 | a segment pushed back undisturbed is the first of the visited list; the abandoned list stays |
| AbandonedAlone.PushEndsPushed | mimalloc-custom/segment.c:928-988 | whatever others do, each step of a push goes on with it, or ends it with the segment first on its list, before those on it, and out of hand |
| AbandonedAlone.MigrateAlone | mimalloc-custom/segment.c:941-974 | a grabbed visited list that finds the abandoned list not empty is put before it, in order |
| AbandonedAlone.MigrationEnds | mimalloc-custom/segment.c:941-974 | whatever others do, each step of a migration goes on with it, or ends it with the chain at the head of the abandoned list |
| AbandonedAlone.ReleaseAlone | mimalloc-custom/segment.c:990-998 | without readers the memory of segments in hand is released after one look at the count |
| AbandonedTheorems.EqualTagsMeanNoUpdate | mimalloc-custom/segment.c:904-912 | an equal word means a multiple of MI_SEGMENT_SIZE updates since it was read, and none at all in a timely step |
| AbandonedTheorems.RunInvariant | mimalloc-custom/segment.c:928-1029 | the invariant of lists, links, tags and readers holds after every timely run |
| AbandonedWrap.TagWraps | mimalloc-custom/segment.c:908-912 | a run exists in which a pop compares equal after exactly MI_SEGMENT_SIZE updates; it puts back a segment that another thread holds and loses one |
| AbandonedSteps.TaggedParts | mimalloc-custom/segment.c:904-912 | the packed word gives back the segment and the next tag |
| RegionResults.NoFault | mimalloc-custom/region.c:284-348 | in every run, a claimed run of blocks is still claimed and its region published when it is read back, a free finds the address it expects and all its bits set, and no memory is given back twice |
| RegionResults.LiveDisjoint | mimalloc-custom/region.c:414-488 | the blocks that callers hold are pairwise disjoint address ranges, each where its memory id says, in memory that is held, with all its bits in use |
| RegionResults.HandDisjoint | mimalloc-custom/region.c:262-281 | a run that a thread is claiming or freeing, and the first run of a region that it creates, is disjoint from all blocks held and from the runs of other threads |
| RegionResults.ClaimSuits | mimalloc-custom/region.c:238-281 | a run that was claimed lies inside one region that is initialized, is of the NUMA node of the request if both have one, and has large pages only if the request allows them |
| RegionAlone.SearchAlone | mimalloc-custom/region.c:238-281 | an undisturbed search claims the lowest free run of the first region, from the last one found on and round, that meets that condition and has one; it goes on to create a region exactly if there is none |
| RegionAlone.AllocAlone | mimalloc-custom/region.c:284-348 | if some region serves, the caller then holds that run, at its address; all else is as it was |
| RegionAlone.CreateAlone | mimalloc-custom/region.c:176-234 | an undisturbed creation puts a region of the NUMA node of the request in the next slot, in the memory given, with exactly the blocks of the request in use, and the caller holds them |
| RegionAlone.UndoAlone | mimalloc-custom/region.c:192-198 | a creation that finds the table full undoes its increment and gives the memory back |
| RegionAlone.FreeAlone | mimalloc-custom/region.c:414-488 | an undisturbed free clears exactly the bits of the block |
| RegionAlone.CollectAlone | mimalloc-custom/region.c:494-523 | an undisturbed collect gives back exactly the memory of the regions without a block in use; their slots are claimed for good, the others stay |
| RegionSearch.CreatesOnlyIfNoneServes | mimalloc-custom/region.c:262-281 | in any run, a thread that goes on to create a region has read the count, and since it began has seen each run of each of these regions taken, or the region not fit for the request |
| RegionTheorems.HandSet | mimalloc-custom/region.c:414-488 | the bits that a block decodes to are all set when it is freed, and those of a run just claimed when it is read back |
| RegionResults.SlotsUnique | mimalloc-custom/region.c:192-202 | two threads that create regions never initialize the same slot, and the slot is in the table |
| RegionResults.CollectedForGood | mimalloc-custom/region.c:494-523 | a collected region stays collected in all later states of a run, and no block of it is ever held again |
| RegionResults.DroppedUnused | mimalloc-custom/region.c:504-518 | memory that is about to be given back overlaps no block that a caller holds |
| RegionResults.CountFitsIff | mimalloc-custom/region.c:192-198 | the counter is at most MI_REGION_MAX exactly if no failed creation has yet to undo its increment |
| RegionResults.OverrunOnlyPastEnd | mimalloc-custom/region.c:262-275 | exactly a search at an index past the end goes beyond the table, and only if the count that this search read exceeds the table, whatever the counter did elsewhere |
| RegionOverrun.CalmRunNeverOverruns | mimalloc-custom/region.c:494-500 | if the counter never exceeded the table in a run, no step goes beyond its end |
| RegionThreeThreads.TableOverrun | mimalloc-custom/region.c:192-198 | any three threads have a run in which the counter is MI_REGION_MAX + 1 and a search goes beyond the end of the table |
| RegionThreeThreads.OverrunIffThreeThreads | mimalloc-custom/region.c:176-202 | a set of threads has a run with a search beyond the end of the table exactly if there are three threads or more |
| RegionOverrun.TwoThreadsStay | mimalloc-custom/region.c:176-202 | with one or two threads every enabled step of every run succeeds |
| RegionTheorems.RunInvariant | mimalloc-custom/region.c:176-345 | the invariant of slots, bit owners, blocks, counter and memory areas holds after every run |
| RegionTheorems.StepKeeps | mimalloc-custom/region.c:176-523 | every step keeps the invariant, or is a search past the end of the table |
| Regions.MemIdRoundTrip | mimalloc-custom/region.c:146-169 | a memory id decodes to the slot and bit it was made from |
| Regions.MemIdUnique | mimalloc-custom/region.c:146-169 | no two memory ids mean the same slot and bit, or the same arena id |
| Regions.ArenaIdRoundTrip | mimalloc-custom/region.c:153-160 | the id of arena memory decodes to the arena id |
| BitScan.Field.TryFindClaim | mimalloc-custom/bitmap.inc.c:129-178 | in any environment the scan with its jumps does what a scan one position at a time does, and a success sets exactly the bits of its run in the word at its compare-and-swap |
| BitScan.UndisturbedIsFirstFit | mimalloc-custom/bitmap.inc.c:129-178 | undisturbed, the scan claims the lowest free run, and fails only if there is none |
| BitScan.ClaimedWasFree | mimalloc-custom/bitmap.inc.c:149-164 | in any environment a success claims bits that are all zero at its compare-and-swap |
| BitScan.ClaimFlipsCount | mimalloc-custom/bitmap.inc.c:149-164 | a success turns exactly `count` bits from zero to one |
| BitScan.NotFoundSawAllTaken | mimalloc-custom/bitmap.inc.c:144-177 | a failure has seen every run taken in one of the words it read |
| BitScan.ScanEnds | mimalloc-custom/bitmap.inc.c:144-177 | the number of accesses is bounded by the number of disturbances, plus two |
| BitScan.SkippedTaken | mimalloc-custom/bitmap.inc.c:166-174 | a jump is by one to `count` positions, and no run starts at a position jumped over |
| BitScan.Field.Claim | mimalloc-custom/bitmap.inc.c:207-216 | the bits are set, all else stays; the results tell whether all were zero and whether any was |
| BitScan.Field.Unclaim | mimalloc-custom/bitmap.inc.c:194-202 | the bits are cleared, all else stays; the result tells whether all were one |
| BitScan.UnclaimUndoesClaim | mimalloc-custom/bitmap.inc.c:194-216 | unclaiming undoes a claim exactly if the bits were all zero |
| BitScan.MaskValue | mimalloc-custom/bitmap.inc.c:62-66 | the mask of `count` bits is the number ((1 << count) - 1) << bit and fits in the word, also for a full word |
| BitScan.ValueInjective | mimalloc-custom/bitmap.inc.c:149-153 | two words are equal as numbers exactly if they have the same bits |
| Publication.OwnBitsSeen | test/bitmap/main.c:28-46 | with an acquire read of `info`, a thread that won its compare-and-swap finds its bits in everything that it may read until it unclaims |
| Publication.NeverStale | test/bitmap/main.c:28-46 | with an acquire read of `info`, no step of any run fails the check of the bits |
| Publication.HoldersDisjoint | mimalloc-custom/region.c:262-281 | threads that hold bits at the same time hold different ones |
| Publication.StaleRun | mimalloc-custom/region.c:238-246 | with a relaxed read of `info`, a run exists in which a thread wins its compare-and-swap and then reads a bitmap without its bits |
| Publication.UpdatesLast | test/bitmap/main.c:37-42 | a thread that has seen the publication can update only the last message, as updates leave no gap |
| PublicationAlone.ClaimIff | test/bitmap/main.c:28-46 | a thread that has seen the publication can claim its bits exactly if they are free in the last message; it then reads them there, and unclaiming gives back the value from before |
| PublicationAlone.PublishAlone | mimalloc-custom/region.c:204-232 | the publisher clears the bitmap, claims its bits and stores `info`; a thread that reads it can read no message from before |
| FreeLists.FindTail | mimalloc-custom/page.c:168-176 | the walk stops on any links, even on a circle, and counts beyond the capacity exactly if more blocks than that are linked |
| FreeLists.ThreadingStep | mimalloc-custom/page.c:516-535 | each round links a block that was not linked before, and keeps what is known of the slices |
| FreeLists.ThreadingCovers | mimalloc-custom/page.c:500-539 | when no slice has blocks left, exactly the blocks of all slices are linked |
| FreeLists.ThreadingStart | mimalloc-custom/page.c:496-515 | the slices divide the new blocks, the last one takes what is left over |
| FreeLists.JoinedSpells | mimalloc-custom/page.c:555-565 | links from each block to the next, and from the last to a list, spell out the whole list |
| PageLists.Page.ExtendSequential | mimalloc-custom/page.c:542-566 | the new blocks come in order before the old free list |
| PageLists.Page.ExtendSecure | mimalloc-custom/page.c:485-540 | for all random values the new blocks come before the old free list in an order that has each exactly once; the slices are the largest power of two of them up to 64, and each block is the next one of the first slice with blocks left, from the slice that its random value picks on |
| PageLists.FindSlice | mimalloc-custom/page.c:523-528 | while blocks are left, the cyclic search ends at the first slice that has one |
| PageLists.Rounds | mimalloc-custom/page.c:516-535 | the rounds link all blocks, each once, starting with the first one chosen |
| PageLists.SameElements | mimalloc-custom/page.c:485-566 | two lists without duplicates of the same blocks are permutations of each other |
| PageLists.Page.ThreadFreeCollect | mimalloc-custom/page.c:155-190 | the thread-free list goes before the local list, `used` drops by its length; the step is that of the protocol, and the corruption branch is not reached |
| PageLists.Page.Collect | mimalloc-custom/page.c:192-223 | collecting is the protocol's step on the three lists, forced or not |
| PageLists.Page.Malloc | mimalloc-custom/alloc.c:24-33 | the first free block is taken and is on no list |
| PageLists.Page.FreeLocal | mimalloc-custom/alloc.c:349-366 | the block becomes the first of the local list; the step is that of the protocol |
| PageLists.FindLast | mimalloc-custom/page.c:208-212 | the forced append finds the last block of the local list |
| PageLists.Fits | mimalloc-custom/page.c:72-103 | the three lists together have at most as many blocks as the page |
| SizeClasses.BinFits | mimalloc-custom/page-queue.c:100-137 | the bin of a size is reachable and its blocks fit |
| SizeClasses.SmallestFit | mimalloc-custom/page-queue.c:100-137 | no smaller reachable bin has blocks that fit |
| SizeClasses.BinMonotone | mimalloc-custom/page-queue.c:100-137 | a larger size never has a smaller bin, huge sizes included |
| SizeClasses.BinInverse | mimalloc-custom/page-queue.c:145-147 | the size of a reachable bin has that bin |
| SizeClasses.ReachableIff | mimalloc-custom/init.c:45-58 | the reachable bins are 1, 2, 4, 6 and 8 to 48 |
| SizeClasses.WasteBelowQuarter | mimalloc-custom/page-queue.c:125-133 | above 8 words a block is less than a quarter larger than the request |
| SizeClasses.WasteExceedsEighth | mimalloc-custom/page-queue.c:128-131 | a size exists whose block is more than 23 percent larger |
| SizeClasses.WasteEighthIff | mimalloc-custom/page-queue.c:125-133 | the block is at most an eighth larger exactly if, with p a quarter of the highest power of two of the size minus one and t its quotient by p, nine times the distance of the size from t p is at least (8 - t) p |
| SizeClasses.GoodSizeSound | mimalloc-custom/page-queue.c:150-157 | the good size is the largest size of the bin of the request, and holds it |
| SizeClasses.TableEntry | mimalloc-custom/init.c:45-58 | the table of queue sizes has four sizes between two powers of two |
| PageQueues.Heap.FirstUpdate | mimalloc-custom/page-queue.c:203-238 | after the first page of a queue changed, every small size leads to the first page of its queue again, in spite of the early return and the skipped bins |
| PageQueues.FindStart | mimalloc-custom/page-queue.c:222-231 | the search for the previous size finds the first size of the queue |
| PageQueues.ClassOf | mimalloc-custom/page-queue.c:203-238 | the sizes of a queue are exactly those above the size of the reachable queue before it |
| PageQueues.Heap.Remove | mimalloc-custom/page-queue.c:246-265 | the page is taken out of its queue, the rest stays in order, the queues, the index and the page count stay right, and only links of the other pages change |
| PageQueues.Heap.Push | mimalloc-custom/page-queue.c:268-292 | the page becomes the first of the queue, is marked full exactly in the full queue, the index and the page count are right, and only links of the other pages change |
| PageQueues.Heap.EnqueueFrom | mimalloc-custom/page-queue.c:295-330 | the page moves to the end of the other queue, is marked full exactly in the full queue, and all else stays |
| PageQueues.Heap.Append | mimalloc-custom/page-queue.c:333-368 | the pages of a queue of another heap come after those of this one, in order, and only links of the pages of both change |
| PageQueues.Heap.Absorb | mimalloc-custom/heap.c:353-382 | every queue is its own pages followed by those of the absorbed heap, the page counts add up, only links of the pages of both change, and that heap ends empty |
| PageQueues.Heap.GetFreeSmall | mimalloc-custom/mimalloc-internal.h:369-374 | the page for a small size has blocks that fit and is not in the full queue |
| PageQueues.FastPathFits | mimalloc-custom/mimalloc-internal.h:369-374 | the first page of the queue of a small size has blocks that fit |
| PageQueues.TotalIsCount | mimalloc-custom/heap.c:360-371 | the lengths of all queues add up to the number of pages |
| PageQueues.UnlinkSpelled | mimalloc-custom/page-queue.c:246-258 | unlinking a page leaves the rest of the list spelled out in both directions |
| PageSearch.FindFree | mimalloc-custom/page.c:675-717 | the search moves exactly the pages before the first usable one to the full queue, in order, each collected twice, and stops at that one, which is now first and has a free block; no other page is touched |
| FreshPages.FindPage | mimalloc-custom/page.c:675-717 | the whole search, with the collection of retired pages, the fresh page and the second attempt: if some page of the queue has a block that is free or was freed by anybody, or can be extended, the first such is found; otherwise retired pages of other queues whose cycles are over are released; a page found is the first of its queue, has a free block and is not retired; none is found only if no attempt got a fresh page; and only retired pages leave the heap |
| FreshPages.TakeFresh | mimalloc-custom/page.c:231-268 | reclaimed pages are put first in the queues of their sizes, in turn, and then the fresh page, with a free block, in this queue; the pages of the heap stay as they are but for links |
| RetiredPages.CollectRetired | mimalloc-custom/page.c:436-472 | exactly the first pages of the queues of the window age by a cycle and are released when they are empty and their cycles over; the new window reaches from the first to the last queue whose first page stays retired |
| RetiredPages.Retire | mimalloc-custom/page.c:399-433 | an empty page is kept exactly if it is alone in its queue and not full, for 8 cycles if its blocks are small and 2 otherwise, and its queue is then in the window; otherwise it is released, and the other pages stay as they are but for links |
| RetiredPages.AloneIff | mimalloc-custom/page.c:417-420 | the test of the two pointers holds exactly for a page that is alone in its queue |
| RetiredPages.ReleasedInLastCycle | mimalloc-custom/page.c:442-463 | a retired page that stays empty, and first in its queue, is released in the last of its cycles and not before |
| PageSearch.MakeAvailable | mimalloc-custom/page.c:685-701 | a page has a free block afterwards exactly if it has one that is free, or was freed by its owner or by others, or is below its reserve; it is collected, and extended only if it then has none |
| PageSearch.CollectedCounts | mimalloc-custom/page.c:192-223 | collecting does to the counts of a page what it does to the lists in the cross-thread protocol |
| PageSearch.ExtendedBy | mimalloc-custom/page.c:596-610 | a page is extended by at least a block, by no more than its reserve, and by as many as fill MI_MAX_EXTEND_SIZE unless the reserve is less |
| PageSearch.ToFull | mimalloc-custom/page.c:319-327 | the exhausted page goes to the end of the full queue |
| PageSearch.ExtendedOk | mimalloc-custom/page.c:584-624 | extending a page that is not at its reserve gives it a free block and keeps the counts |
| AlignedAlloc.Pages.MallocAlignedAt | mimalloc-custom/alloc-aligned.c:17-63 | the result is aligned at the offset and has room for the size and padding in its block; the small block, the natural one or an over-allocated one is taken under the conditions of the code, and the page is marked exactly if the pointer was moved; the pointer lies in the segment of the block exactly under the condition of `SegmentFoundIff`, is then freed as that block, and what is reported as usable ends with the block; other alignments and sizes are refused |
| AlignedAlloc.UsableToEnd | mimalloc-custom/alloc.c:476-491 | what is reported for a pointer into a block that finds its page ends with the block, before the padding, exactly if the page is marked or the pointer is the start of the block |
| AlignedAlloc.PageStartFirst | mimalloc-custom/segment.c:369-413 | a page starts right after the segment info, or at the first multiple of the block size after it |
| AlignedAlloc.KindByBlocks | mimalloc-custom/segment.c:1362-1375 | a page is small or medium if four of its blocks fit in a page of that kind, large if two of them do, and huge otherwise, the smallest kind that suits |
| AlignedAlloc.NaturallyAligned | mimalloc-custom/alloc-aligned.c:44-48 | a block of the class of a multiple of the alignment is aligned, in every page of a small or medium segment |
| AlignedAlloc.ClassAligned | mimalloc-custom/page-queue.c:100-137 | rounding a multiple of a power of two to its size class gives a multiple of it |
| AlignedAlloc.PageAligned | mimalloc-custom/segment.c:369-413 | every page start is a multiple of the powers of two that divide the block size |
| AlignedAlloc.UnalignInside | mimalloc-custom/alloc.c:376-381 | a pointer anywhere into a block is mapped back to the start of the block |
| AlignedAlloc.FindsPage | mimalloc-custom/mimalloc-internal.h:382-404 | a pointer into a block finds the segment and the page of the block |
| AlignedAlloc.AlignedFreed | mimalloc-custom/alloc-aligned.c:50-62 | an over-allocated pointer less than a segment size from the start of the segment finds its page and is mapped back to the start of its block, for every alignment and offset |
| AlignedAlloc.SegmentFoundIff | mimalloc-custom/alloc-aligned.c:50-61 | for every alignment and offset, an over-allocated pointer lies in the segment of its block exactly if the alignment is below the segment size or the adjustment is below the segment size less the segment info |
| AlignedAlloc.SegmentAlignedIff | mimalloc-custom/alloc-aligned.c:50-61 | for the alignment of the segment size it does exactly if the offset, modulo that size, is positive and at most the segment size less the segment info |
| AlignedAlloc.AdjustWordAligned | mimalloc-custom/alloc-aligned.c:55-57 | the adjustment, and the adjusted pointer, are multiples of the word size |
| Segments.Tld.Claim | mimalloc-custom/segment.c:759-789 | a claimed page is counted, and a segment leaves its queue with its last free page |
| Segments.Tld.PageFree | mimalloc-custom/segment.c:845-870 | a cleared page is uncounted; the segment is freed exactly with its last page in use, abandoned without links exactly when only abandoned pages are left, and is in its queue otherwise |
| Segments.Tld.PageAbandon | mimalloc-custom/segment.c:1032-1070 | an abandoned page is counted, and the segment is abandoned exactly with its last page in use, without links of its queue or to an abandoned segment |
| Segments.Tld.Reclaim | mimalloc-custom/segment.c:1115-1171 | a reclaimed segment ends with no abandoned pages, its empty pages cleared, freed exactly if none is left, and in its queue exactly if it has free pages |
| Segments.Tld.Init | mimalloc-custom/segment.c:556-721 | a fresh small or medium segment is in its queue with no page counted |
| Segments.CapacityFills | mimalloc-custom/segment.c:566-574 | the pages of a segment that is not huge fill it: 16 small ones, 4 medium ones |
| Segments.Tld.RemoveFromFreeQueue | mimalloc-custom/segment.c:96-102 | the segment is taken out of its queue if it is in it, and nothing changes otherwise |
| Segments.Tld.InsertInFreeQueue | mimalloc-custom/segment.c:71-106 | the segment becomes the last of its queue |
| Segments.PointerTestIff | mimalloc-custom/segment.c:96-99 | the test of the three pointers holds exactly for the segments in the list |
| Segments.ReclaimPages | mimalloc-custom/segment.c:1126-1162 | each page in use is counted as abandoned no longer, and cleared if it is empty |
| Arenas.ArenaIdRoundTrip | mimalloc-custom/arena.c:86-96 | an arena id decodes to the arena and the block, and is never the id of system memory |
| Arenas.ArenaIdInverse | mimalloc-custom/arena.c:92-96 | every id with a low byte is the id of one block |
| Arenas.Arena.constructor | mimalloc-custom/arena.c:295-318 | the bits past the end of the arena are claimed, all others are zero |
| Arenas.Arena.Alloc | mimalloc-custom/arena.c:105-118 | in any environment that leaves the leftover bits claimed, the loop does what the reference search round the fields does, a run found is inside the arena, and every field is what the scans leave |
| Arenas.SearchRight | mimalloc-custom/arena.c:105-118 | in any environment the search claims a run that is free at its compare-and-swap, and has seen every run taken in each field visited before; if it fails, in all fields |
| Arenas.UndisturbedSearch | mimalloc-custom/arena.c:105-118 | undisturbed, a run is found exactly if some field has one; it is the lowest of the first such field from the last one searched on |
| Arenas.Arena.Release | mimalloc-custom/arena.c:217-247 | the run is cleared, and the result tells whether all of it was claimed |
| Arenas.InArena | mimalloc-custom/arena.c:309-318 | no free run reaches past the end of an arena whose leftover bits are claimed |

## Left out

- Huge pages and segments in the cross-thread protocol: `_mi_free_block_mt` sends them to `_mi_segment_huge_page_free`, which is not part of this model.
- Retry branch of the drain: `_mi_free_delayed_block` always returns true, so the branch of `_mi_heap_delayed_free` that puts a block back is never taken.
- FreeResults.NoFault: the protocol pops and pushes back abandoned pages one at a time; that a segment moves with all of its pages is in `Abandoned` and `Segments`.
- FreeDrains.QuietPageIsDrained: that the owner goes on to drain its heap is not claimed, as the code does not promise when it next allocates.
- Progress: no claim is made that a retry loop ends for a given thread; the loops of the code do not promise it.
- AbandonedResults.NoFault: segments that come directly from the system when regions run out are released without waiting for readers; that path is not in the machine.
- The cache of segments of a thread, the answer of `mi_segment_check_free`, the counters of visits and the choice of which popped segment to reclaim or push back.
- Commit, reset, dirty and decommit bitmaps and their effects; system calls; NUMA detection. The system gives a fresh range of memory or none, and options are free choices.
- RegionResults.NoFault: a block that an arena or the system gave directly, past the regions, is only decoded; freeing it is the arena's.
- RegionThreeThreads.TableOverrun: NUMA nodes are any numbers in the machine, and the run uses a different one for each region; the position that a search starts from is a free choice of the thread.
- Arenas.Arena.Alloc: what other threads do to a field is given for the visit of that field; the table of arenas, `mi_arena_add` and its counter are not modelled.
- Publication.OwnBitsSeen: one region; collecting regions, failed compare-and-swaps and consume order are not in this machine.
- FreshPages.FindPage: which pages the segments give, reclaimed or fresh, is a parameter.
- PageQueues.Heap.Absorb: the spinning on each page and the two drains are in the cross-thread protocol, the queues here; huge pages are allocated without a heap (page.c:783-794) and are in no queue.
- AlignedAlloc.Pages.MallocAlignedAt: the block that an ordinary allocation returns is a parameter; sizes are unbounded numbers, so a sum of a size and an alignment that leaves 64 bits is not modelled.
- Segment guard pages, secure levels above 0 in page sizes, padding bytes and encoded free lists.
- `mi_heap_destroy`, which frees pages with live blocks by contract, and `mi_heap_visit_blocks`, whose free map is not cleared in this code.
- Statistics, options, messages, random seeding, process and thread start-up, and the allocation front ends that forward to the modelled code.
