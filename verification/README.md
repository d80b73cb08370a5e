# Verified model of the UMMU, CDMA and OBMM drivers

This project models the hardest parts of the UnifiedBus driver package in Dafny and proves what those
parts are there to guarantee. Five components are covered.

* **The multi-producer command queue** (`drivers/iommu/hisilicon/queue.c`). Any number of CPUs reserve slots of
  one ring by compare-and-exchange, write commands, mark them in a valid map whose bits change meaning on every
  lap, and take turns as the owner that publishes a gathered range to the hardware. CMD_SYNC issuers hold a
  private shared lock that decides who may advance the shadow consumer pointer. `Mcmdq` is a step machine: one
  step is one atomic access of one CPU, or one command consumed by the hardware, in any interleaving. `Ring`,
  `ValidMap` and `ValidMapWalk` hold the pointer arithmetic and the word-by-word walk of the valid map.
  `McmdqInv` is the inductive invariant; `McmdqReserve`, `McmdqPublish`, `McmdqLock` and `McmdqLocal` show that
  each kind of step keeps it; `McmdqRuns` puts them together, `McmdqTheorems` draws the conclusions, `McmdqCalls`
  says what they mean for a call of the run, and `McmdqLive` shows that the queue does not deadlock.
* **The four-level permission table** (`perm_table.c`, `seg_mng.c`, `seg_tree.c`). Granted ranges live in a radix
  tree of nodes with one own range each, with lazily allocated and reclaimed level blocks and two encodings of "own
  range removed"; the same grants are kept as flat records beside it. `MaptTable.Mapt` is the table, changed in
  place by recursion on the level; `SegMng` is the record lookup and the grant decision; `PermTable.PermTable` is
  the pair. `MaptInv` states what it means that a table represents a set of segments; the other `Mapt` modules
  prove that every step of filling, clearing and updating tokens keeps it; `MaptNotice` says which changes the
  hardware's caches must be told of; `PermMeaning` says what table and records mean, as the accesses they let in.
* **Range invalidation** (`flush.c`, and the batch of `queue.c`): `TlbiRange`, `TlbiFlush`.
* **CDMA rings and teardown** (`cdma_jfs.c`, `cdma_jfc.c`, `cdma_eq.c`): `CdmaSizing`, `CdmaSendRing`,
  `CdmaCompletion`, `Teardown`.
* **The contiguous memory pool** (`drivers/ub/obmm/conti_mem_allocator.c`): `MemPool` is a step machine of callers, the
  pool thread and the clear thread; `MemPoolInv` and `MemPoolRuns` prove conservation over every run;
  `MemPoolFlow` says where each step takes segments from, where it brings them and how many; `MemPoolLists` holds the
  loops of the lock sections.

Check everything with `dafny verify dfyconfig.toml`.

## Reading the model

* Machine words are explicit. Queue pointers are 32-bit values related to unbounded counters by `Ring.At`; work-queue
  indices are taken modulo 2^32; addresses and sizes of flushes and grants are below 2^64, and sums that wrap do so.
* The unbounded counters, logs and `seg` marks of nodes are history: no step reads them to decide anything.
* Allocation may fail at any point (a nondeterministic choice), the clock, randomness and the hardware's pace are
  choices of the environment.
* The queue's freedom from deadlock counts on one time-out. The release of the shared lock is racy by design: two
  CMD_SYNC issuers that give it back together may both leave the shadow consumer as it is (`McmdqLive.ShadowSkipped`).
  A CPU that spins for space on that stale value goes on only when its own polling time runs out and it takes the lock
  exclusively; in `McmdqLive.Stuck` such a CPU counts as stuck while the lock is held and not any more once it is free.
* Grants are counted. An access is an address, a permission, an e-bit and a token; a token granted a second time for the
  same segment takes the second place, and has to be ungranted twice. `PermTable.Run` counts calls that way.
* Properties that one might expect and that fail, each with an input and with the exact condition under which it holds:
  * A range flush ends with exactly its range covered if and only if the range is empty, or ends below 2^64 and is a whole
    number of pages or granules (`TlbiFlush.FlushRange`; inputs `TlbiFlush.TopOfSpaceMissed`,
    `TlbiFlush.PartGranuleEndless`).
  * Every request that passes the checks fits the four blocks it is built in exactly if the SGE limit is at most 13
    (`CdmaSizing.FitsExactly`; input `CdmaSizing.FourteenSges`).
  * A send ring has room for its depth exactly if the blocks for it are at most 2^25 (`CdmaSendRing.DepthAccepted`,
    `CdmaSizing.RingSize`; input `CdmaSendRing.DepthTooLarge`).
  * A completion finds its block from 16 bits of index, for every outstanding block, exactly if the ring has at most 2^16
    blocks (`CdmaSendRing.CompletionExact`; input `CdmaSendRing.IndexMisleads`).
  * An allocation from the pool stays within its size exactly if the size is a multiple of the granule or there is less
    than the size to be had (`MemPoolLists.AllocAny`; input `MemPoolLists.OddSizeExceeded`). The present caller rejects
    other sizes first (drivers/ub/obmm/ubmempool_allocator.c:150-155).
  * "A node is valid exactly if a live segment meets its span" holds at the root (`MaptTheorems.RootValidExactly`); below
    it, exactly if no node above holds that segment (`MaptTheorems.ValidExactly`; input `MaptExamples.ValidFails`).
  * Table and records agree after a grant if there is memory for the record; without it, a new segment that reaches the
    table is lost to the records (`PermTable.PermTable.Grant`; input `MaptExamples.RecordLost`).

## Model

| member | source | states |
|---|---|---|
| Ring.HasSpaceExact | drivers/iommu/hisilicon/queue.c:31-43 | from wrap bits and indices alone, the answer is yes exactly when n more entries fit behind the consumer's unbounded counter |
| Ring.FullExact | drivers/iommu/hisilicon/queue.c:45-55 | full means a whole lap ahead and empty means equal, for every pair of counters at most a lap apart |
| Ring.ConsumedExact | drivers/iommu/hisilicon/queue.c:57-63 | the consumed test is right for a slot less than a lap ahead of the consumer or at most a lap behind it |
| Ring.ConsumedPeriodic | drivers/iommu/hisilicon/queue.c:57-63 | for counters any distance apart, the answer is yes exactly if the consumer is between one slot and one lap ahead, counted modulo two laps |
| Ring.ConsumedMisreads | drivers/iommu/hisilicon/queue.c:57-63 | at the first counter beyond either end of that window the answer is wrong |
| Ring.IncProdAt | drivers/iommu/hisilicon/queue.c:109-114 | advancing by n shows the counter plus n, keeps bit 31 and stays a 32-bit value |
| Ring.IncConsAt | drivers/iommu/hisilicon/queue.c:88-93 | popping an entry shows the next counter and keeps bit 31 |
| Ring.SlotInjective | drivers/iommu/hisilicon/queue.h:12-16 | counters less than a lap apart use different slots |
| Ring.AtInjective | drivers/iommu/hisilicon/queue.h:12-16 | counters less than two laps apart are shown by different register values |
| ValidMap.ChunkBounds | drivers/iommu/hisilicon/queue.c:879-892 | one iteration of the walk makes progress, does not pass the end of the range and does not leave the lap |
| ValidMapWalk.PollSetValidMap | drivers/iommu/hisilicon/queue.c:864-922 | setting flips exactly the bits of the range, across words and the wrap; polling is satisfied exactly when every slot of the range is valid for its own lap, and changes nothing |
| ValidMapWalk.MaskTest | drivers/iommu/hisilicon/queue.c:894-905 | one masked word comparison decides exactly the validity of that word's slots of the range |
| McmdqRuns.RunKeeps | drivers/iommu/hisilicon/queue.c:1124-1248 | every step of every CPU, whatever the environment chooses, keeps the invariant |
| McmdqRuns.ReserveKeeps | drivers/iommu/hisilicon/queue.c:1142-1162 | reservation by compare-and-exchange keeps it, also when the words changed and came back in between |
| McmdqRuns.ExclKeeps | drivers/iommu/hisilicon/queue.c:483-529 | refreshing the shadow consumer under the exclusive lock keeps it |
| McmdqRuns.TakeSharedKeeps | drivers/iommu/hisilicon/queue.c:543-559 | taking the lock shared keeps it |
| McmdqRuns.LateKeeps | drivers/iommu/hisilicon/queue.c:543-559 | an increment that lands on an exclusively held lock keeps it |
| McmdqRuns.StoreKeeps | drivers/iommu/hisilicon/queue.c:993-1008 | storing one command in a reserved slot keeps it |
| McmdqRuns.MarkKeeps | drivers/iommu/hisilicon/queue.c:1186-1188 | flipping one word of the valid map keeps it |
| McmdqRuns.OwnerKeeps | drivers/iommu/hisilicon/queue.c:1190-1221 | closing the gathering window, publishing and handing over keep it |
| McmdqRuns.UnlockKeeps | drivers/iommu/hisilicon/queue.c:561-574 | giving the lock back, with the last holder storing the shadow consumer, keeps it |
| McmdqRuns.HardwareKeeps | drivers/iommu/hisilicon/queue.c:1207-1214 | consumption of a published command keeps it |
| McmdqRuns.RunInv | drivers/iommu/hisilicon/queue.c:1124-1248 | every state of every run satisfies the invariant |
| McmdqTheorems.ExecutedInOrder | drivers/iommu/hisilicon/queue.c:1124-1248 | the hardware's history is a prefix of the reservation order, each command once |
| McmdqTheorems.PublishedIsReady | drivers/iommu/hisilicon/queue.c:1200-1214 | the published pointer never covers a slot whose command for this lap is not written and marked |
| McmdqTheorems.ValidBitExact | drivers/iommu/hisilicon/queue.c:864-908 | for the last lap of reserved slots the alternating bit reads valid exactly when the slot was marked in its own lap |
| McmdqTheorems.NoOverrun | drivers/iommu/hisilicon/queue.c:1142-1162 | a slot is not reserved again before the hardware has consumed it |
| McmdqTheorems.OwnersUnique | drivers/iommu/hisilicon/queue.c:1190-1221 | at most one CPU gathers and at most one is between "previous owner done" and "tell next owner" |
| McmdqTheorems.OwnersExist | drivers/iommu/hisilicon/queue.c:1157-1221 | whenever slots wait to be gathered or published, the CPU in charge of them exists |
| McmdqTheorems.PublicationsTile | drivers/iommu/hisilicon/queue.c:1195-1221 | a publication starts where the previous one ended and covers at least the owner's list: no gap and no overlap |
| McmdqTheorems.SpaceSeen | drivers/iommu/hisilicon/queue.c:500-529 | on fresh copies of the pointers a CPU goes on to reserve exactly if its list fits behind the shadow consumer, and a CPU that waits for space stops waiting exactly if a slot is free or its time is up |
| McmdqTheorems.HolderNotLapped | drivers/iommu/hisilicon/queue.c:1171-1244 | while a CMD_SYNC issuer holds the lock, the shadow consumer stays at or before its first slot and no reservation laps its list |
| McmdqTheorems.ConsWritersExclude | drivers/iommu/hisilicon/queue.c:483-574 | two CPUs never both may store the shadow consumer, and shared and exclusive holding exclude each other |
| McmdqTheorems.RunLater | drivers/iommu/hisilicon/queue.c:1124-1248 | along every run the log only grows, marks are not lost, and executed history, published pointer, hand-over and shadow consumer never go back |
| McmdqCalls.ListPlaced | drivers/iommu/hisilicon/queue.c:1157-1188 | from the reservation on, consecutive slots hold exactly the commands that this CPU was last called with, in order, with the CMD_SYNC behind them if one was asked for |
| McmdqCalls.CallPlaced | drivers/iommu/hisilicon/queue.c:1124-1248 | when a call returns, its list is in the queue, in order and consecutively, in slots that were not reserved when it began, and every one of them is marked valid |
| McmdqCalls.CallCompletes | drivers/iommu/hisilicon/queue.c:927-991 | a call with a CMD_SYNC that did not time out returns only after the hardware executed, since the call began, exactly the commands of the call and then the CMD_SYNC, consecutively |
| McmdqCalls.LastHolderFrees | drivers/iommu/hisilicon/queue.c:1235-1244 | the last holder of the lock moves the shadow consumer behind the list of its call, and not beyond what the hardware consumed |
| McmdqLive.NoDeadlock | drivers/iommu/hisilicon/queue.c:1124-1248 | in every reachable state with a CPU inside a call, the hardware has a command to consume or some CPU is not stuck: the waits for space, lock, previous owner, valid bits and CMD_SYNC never form a circle |
| McmdqLive.NotStuckSteps | drivers/iommu/hisilicon/queue.c:500-559 | a CPU that is not stuck has a step without any time-out, and one that waits for its CMD_SYNC then sees it consumed |
| McmdqLive.RankFalls | drivers/iommu/hisilicon/queue.c:1164-1248 | every step of a CPU with reserved slots brings it nearer to its return, or repeats a test of one of the two polling loops: there is no going round in circles |
| McmdqLive.SoloReserves | drivers/iommu/hisilicon/queue.c:500-529 | a CPU that wants space which is there, with the lock free, has it after at most nine steps of its own, without any time-out |
| McmdqLive.ShadowSkipped | drivers/iommu/hisilicon/queue.c:566-574 | every run that has two CMD_SYNC issuers about to give the lock back can go on so that the lock is free and neither has stored the shadow consumer, which is why a CPU that spins for space needs its time-out |
| McmdqPublish.PollWaits | drivers/iommu/hisilicon/queue.c:894-905 | an owner that waits in the valid map waits for a reserved slot that its lap has not marked |
| MaptTheorems.PermitsExact | drivers/iommu/hisilicon/perm_table.c:778-1189 | an address is permitted, with a permission and e-bit, exactly if it lies in a live segment with these |
| MaptTheorems.PermitsOnly | drivers/iommu/hisilicon/perm_table.c:598-621 | a node permits only addresses of the one live segment it belongs to, with that segment's attributes |
| MaptTheorems.PermitsAll | drivers/iommu/hisilicon/perm_table.c:869-933 | every address of a live segment is permitted by a node of that segment |
| MaptTheorems.PermitsOnce | drivers/iommu/hisilicon/perm_table.c:869-933 | no address is permitted by two nodes |
| MaptTheorems.GrantAddsExactly | drivers/iommu/hisilicon/perm_table.c:1339-1352 | a grant adds exactly its range; the other way round, an ungrant removes exactly its range |
| MaptTheorems.EncodingsAgree | drivers/iommu/hisilicon/perm_table.c:778-867 | the free-bit table and the 0xFFF-marker table of the same segments permit the same |
| MaptTheorems.PiecesCarryTokens | drivers/iommu/hisilicon/perm_table.c:553-621 | each node with a piece of a token-checked segment carries the two tokens and the count of the record |
| MaptTheorems.ReachedOnce | drivers/iommu/hisilicon/perm_table.c:684-730 | a level block in use is led to by one type-0 node only, one level above |
| MaptTheorems.Reached | drivers/iommu/hisilicon/perm_table.c:684-730 | a set bitmap bit other than the root's is reached from some node |
| MaptTheorems.PathTo | drivers/iommu/hisilicon/perm_table.c:684-730 | every set bitmap bit is reached from the root through as many type-0 nodes as its level |
| MaptTheorems.PathOnce | drivers/iommu/hisilicon/perm_table.c:684-730 | and by one path only |
| MaptTheorems.PathLevel | drivers/iommu/hisilicon/perm_table.c:684-730 | whatever is reached from the root is a set bit, at the level that is the length of the path |
| MaptTheorems.Counters | drivers/iommu/hisilicon/perm_table.c:623-730 | level_entry_cnt counts the valid nodes, level_cnt the set bits of the block, and a block other than the first exists only while it has one |
| MaptTheorems.ValidExactly | drivers/iommu/hisilicon/perm_table.c:598-621 | a node is valid exactly if some live segment has an address in its span and none of the at most three nodes above it holds that segment |
| MaptTheorems.RootValidExactly | drivers/iommu/hisilicon/perm_table.c:598-621 | a root node is valid exactly if a live segment meets its span |
| MaptExamples.ValidFails | drivers/iommu/hisilicon/perm_table.c:869-933 | a table, built by two grants, with an invalid node whose span a live segment meets: the segment is held by the node above |
| MaptTable.Mapt.constructor | drivers/iommu/hisilicon/perm_table.c:1526-1582 | the table with a root only represents no segment |
| MaptTable.Mapt.FindFirstZero | drivers/iommu/hisilicon/perm_table.c:695-700 | the lowest clear bit, or the size of the bitmap if there is none |
| MaptTable.Mapt.AllocMaptBlock | drivers/iommu/hisilicon/perm_table.c:635-682 | a new zeroed block, or nothing changed; refused only if memory is short or the table may not expand |
| MaptTable.Mapt.AllocLevelBlock | drivers/iommu/hisilicon/perm_table.c:684-730 | the lowest free level block linked from the node and counted, or nothing changed; refused only if memory is short, the table may not expand or all 2048 are in use |
| MaptTable.Mapt.UpdateGather | drivers/iommu/hisilicon/perm_table.c:732-756 | the invalidation is appended, or dropped when 12 are queued |
| MaptTable.Mapt.TypeSwitchPlbi | drivers/iommu/hisilicon/perm_table.c:758-773 | the queued range starts at the node's absolute address, although it is rebuilt from one end of the segment only |
| MaptTable.Mapt.FillHead | drivers/iommu/hisilicon/perm_table.c:823-867 | stores the segment's part in the span of an end node, or says where it got stuck; marker encoding |
| MaptTable.Mapt.FillHeadFreeBit | drivers/iommu/hisilicon/perm_table.c:778-821 | the same for the free-bit encoding |
| MaptTable.Mapt.FillByLevel | drivers/iommu/hisilicon/perm_table.c:869-933 | stores the segment's part in a level block and below; the invariant holds for the part stored, also on failure; needs at most three level blocks for each end; a node that is filled again is announced; its "level overflow" and "suppose to be invalid" exits are dead |
| MaptTable.Mapt.FreeLevelBlock | drivers/iommu/hisilicon/perm_table.c:935-976 | the root stays; the last level block of a block takes the block along |
| MaptTable.Mapt.ClearNode | drivers/iommu/hisilicon/perm_table.c:978-1007 | the node is zeroed and uncounted, and an emptied level block freed with the node above reset |
| MaptTable.Mapt.ClearHead | drivers/iommu/hisilicon/perm_table.c:1012-1071 | removes the segment's part from the span of an end node; marker encoding |
| MaptTable.Mapt.ClearHeadFreeBit | drivers/iommu/hisilicon/perm_table.c:1073-1125 | the same for the free-bit encoding |
| MaptTable.Mapt.ClearByLevel | drivers/iommu/hisilicon/perm_table.c:1127-1189 | removes the segment's part from a level block and below; fails exactly where a partly stored segment ends; every other node that loses its next level is announced |
| MaptTable.Mapt.UpdateToken | drivers/iommu/hisilicon/perm_table.c:553-596 | a token is added to or removed from one node, or refused without change |
| MaptTable.Mapt.UpdateNodeToken | drivers/iommu/hisilicon/perm_table.c:1224-1246 | updates every piece in the span of a node and nothing else; marker encoding |
| MaptTable.Mapt.UpdateNodeTokenFreeBit | drivers/iommu/hisilicon/perm_table.c:1194-1222 | the same for the free-bit encoding |
| MaptTable.Mapt.UpdateTokenByLevel | drivers/iommu/hisilicon/perm_table.c:1248-1307 | on a stored segment it succeeds and updates all its pieces and nothing else |
| MaptTable.Mapt.TableGrant | drivers/iommu/hisilicon/perm_table.c:1339-1345 | success represents one more segment, in one node and without a level block if it lies in one free node of the root; failure part way, with the rollback, leaves bitmap, counters, node types and pieces as before; it succeeds if memory is there, the table may expand and six level blocks are free; at most 8 invalidations, among them one for every node leading to a next level, of another segment or unused, that was changed |
| MaptTable.Mapt.TableUngrant | drivers/iommu/hisilicon/perm_table.c:1350-1352 | never fails on a live segment, removes exactly it, restores the table from before its grant; at most 6 invalidations, among them one for every such node that was changed |
| MaptTable.Mapt.TableToken | drivers/iommu/hisilicon/perm_table.c:1346-1349 | never fails on a live segment with room for the change, and table and record change alike |
| MaptDecide.ValidShared | drivers/iommu/hisilicon/perm_table.c:879-910 | a valid node met while filling is shared with another segment, is not inside the new one and is not of the last level |
| MaptDecide.WholeIsOwn | drivers/iommu/hisilicon/perm_table.c:1158-1171 | a node met while clearing whose span lies in the segment holds it and has no next level |
| MaptDecide.HolderAt | drivers/iommu/hisilicon/perm_table.c:1012-1071 | where a segment is stored the node met is valid and holds its piece or leads to it |
| MaptFill.EntryMiddle | drivers/iommu/hisilicon/perm_table.c:905-915 | the nodes between the two ends are not valid, so the error exit for them is dead |
| MaptSteps.StepFill | drivers/iommu/hisilicon/perm_table.c:598-621 | storing one own range moves the stored part of the segment to the end of the node's span and keeps the invariant |
| MaptSteps.StepWipe | drivers/iommu/hisilicon/perm_table.c:978-1007 | clearing a node without a next level removes exactly its piece and keeps the invariant up to a node that lost its level |
| MaptSteps.StepRemove | drivers/iommu/hisilicon/perm_table.c:1043-1052 | removing the own range of a node that keeps its next level removes exactly that piece, in both encodings |
| MaptExt.ExtRestores | drivers/iommu/hisilicon/perm_table.c:1339-1345 | a table that extends an earlier one by pieces of one segment, and has no piece of it left, is the earlier one |
| MaptToken.TokenAgrees | drivers/iommu/hisilicon/perm_table.c:553-596 | a token change that the record allows is allowed on every piece and leaves piece and record in agreement |
| MaptNotice.ToldWipe | drivers/iommu/hisilicon/perm_table.c:978-1007 | clearing a node changes, of all nodes that lead to a next level, at most the one above it |
| MaptNotice.HeadTold | drivers/iommu/hisilicon/perm_table.c:778-867 | filling an unused node that was announced, or a new one, leaves no change unannounced |
| MaptNotice.TokTold | drivers/iommu/hisilicon/perm_table.c:1248-1307 | token updates change no node of another segment, so they need no announcement |
| SegMng.FindSeg | drivers/iommu/hisilicon/seg_tree.c:41-54 | the first record that ends at or after the start of the range, compared with the range |
| SegMng.NotExistExact | drivers/iommu/hisilicon/seg_mng.c:15-26 | the answer "not present" means disjoint from every record, both ways |
| SegMng.MatchExact | drivers/iommu/hisilicon/seg_mng.c:15-26 | the answer "match" means that exactly this range is recorded, both ways |
| SegMng.GrantCheck | drivers/iommu/hisilicon/seg_mng.c:108-137 | a new segment exactly if the range is disjoint from all records; a second token exactly for the same checked segment with one token and equal attributes |
| SegMng.UngrantCheck | drivers/iommu/hisilicon/seg_mng.c:176-199 | refused exactly if the range is not recorded or the token given is not one of its tokens; one token only of two, and by token the whole segment only if it has one |
| SegMng.InsertKeeps | drivers/iommu/hisilicon/seg_mng.c:219-247 | an accepted new segment keeps the records disjoint, page aligned and with their tokens in order |
| SegMng.TokenKeeps | drivers/iommu/hisilicon/seg_mng.c:255-276 | a fitting token change leaves two tokens, or one that is kept twice |
| SegMng.DeleteKeeps | drivers/iommu/hisilicon/seg_mng.c:249-253 | deleting a record keeps the others in order |
| PermMeaning.AdmitsExact | drivers/iommu/hisilicon/perm_table.c:1392-1524 | the table lets an access in exactly if the records count it at least once |
| PermMeaning.InsertTimes | drivers/iommu/hisilicon/seg_mng.c:219-247 | a new record counts once more exactly the accesses of the grant |
| PermMeaning.AddTimes | drivers/iommu/hisilicon/seg_mng.c:255-276 | so does the second token of a record |
| PermMeaning.RemoveTimes | drivers/iommu/hisilicon/seg_mng.c:70-78 | taking one of two tokens counts once less exactly the accesses by that token |
| PermMeaning.DeleteTimes | drivers/iommu/hisilicon/seg_mng.c:249-253 | deleting a record counts no more any access to its range, and leaves all others |
| PermTable.PermTable.constructor | drivers/iommu/hisilicon/perm_table.c:1526-1582 | no segment, an empty table, and they agree |
| PermTable.PermTable.Grant | drivers/iommu/hisilicon/perm_table.c:1392-1453 | each outcome with its cause; refused arguments, overlaps and failed table operations change nothing; otherwise the table lets in exactly what it did and every access of the range with this permission, e-bit and token; the record has the token, once or as the second; without memory for the record a new segment that reached the table is lost to the records |
| PermTable.PermTable.Ungrant | drivers/iommu/hisilicon/perm_table.c:1464-1524 | succeeds exactly on a recorded range without token or with one of its tokens; with one token, or without giving one, no access to the range is let in any more; of two tokens the other stays, and addresses and attributes with it; all other accesses stay; undoes a grant exactly |
| PermTable.NotBoth | drivers/iommu/hisilicon/perm_table.c:1440-1442 | one table cannot represent both with and without a segment, so a lost record breaks the agreement |
| MaptExamples.RecordLost | drivers/iommu/hisilicon/perm_table.c:1440-1442 | an input for which the record is lost: the table permits the page and no record says so |
| PermTable.Run | drivers/iommu/hisilicon/perm_table.c:1392-1524 | after any sequence of calls, with level blocks refused at any point, the table lets in exactly the accesses that the successful calls, counted from their arguments alone, grant more often than they take back |
| PermTable.NewUndone | drivers/iommu/hisilicon/seg_mng.c:108-199 | a new segment is never taken for a second token, and ungranting its range gives the records from before |
| PermTable.GrantUngrant | drivers/iommu/hisilicon/perm_table.c:1392-1524 | granting a new segment and ungranting it restores bitmap, counters, node types and pieces |
| TlbiRange.TilesExact | drivers/iommu/hisilicon/flush.c:128-178 | commands that tile a range cover exactly its addresses, each by exactly one command |
| TlbiRange.SmallStep | drivers/iommu/hisilicon/flush.c:162-176 | below the scale cap each command clears five more low bits of the pages left |
| TlbiRange.LargeStep | drivers/iommu/hisilicon/flush.c:162-176 | at the cap each command brings the number of commands still needed down by one |
| TlbiFlush.TlbiRangeLoop | drivers/iommu/hisilicon/flush.c:128-178 | scale within the cap and num in 0..30; at most ceil(cap / 5) + 1 + 2 * (pages / 2^(cap + 5)) commands; if the end is below 2^64 they tile the whole pages of the range, otherwise none is issued; a part of a page that is left over ends in __ffs(0) |
| TlbiFlush.PerGranule | drivers/iommu/hisilicon/flush.c:109-122 | one command per granule tiles the range rounded up; nothing if the end is not below 2^64; without end exactly if the range rounded up reaches 2^64 but the range does not |
| TlbiFlush.GoesRound | drivers/iommu/hisilicon/flush.c:109-122 | why it does not end: after the wrap it stands below the end again, a whole number of granules before where it wrapped |
| TlbiFlush.PartGranuleEndless | drivers/iommu/hisilicon/flush.c:109-122 | an input for which it does not end |
| TlbiFlush.FlushRange | drivers/iommu/hisilicon/flush.c:128-178 | for every range, with or without the range feature: it ends with exactly the range covered if and only if the range is empty, or ends below 2^64 and is a whole number of pages or granules |
| TlbiFlush.SameCover | drivers/iommu/hisilicon/flush.c:109-178 | the range commands and the per-granule commands invalidate the same addresses |
| TlbiFlush.TopOfSpaceMissed | drivers/iommu/hisilicon/flush.c:152-177 | the last page of the address space is not invalidated: the end wraps to 0 and the loop does not run |
| TlbiFlush.Batch.Add | drivers/iommu/hisilicon/queue.c:1299-1318 | commands are kept in order, once each; a full batch is issued first, without a sync |
| TlbiFlush.Batch.Submit | drivers/iommu/hisilicon/queue.c:1320-1324 | everything added reaches the queue in order, and only the last list has a sync |
| TlbiFlush.Log2Range | drivers/iommu/hisilicon/flush.c:394-407 | the exponent of the smallest power of two that is not below the size |
| CdmaSizing.WqebbExact | drivers/ub/cdma/cdma_jfs.c:88-91 | in 32-bit arithmetic, also for no SGE, the block count is the request length in 64-byte blocks rounded up |
| CdmaSizing.WqebbFits | drivers/ub/cdma/cdma_jfs.c:886-899 | at most four blocks exactly up to 13 SGEs, and with a notification up to 11 |
| CdmaSizing.BlocksFit | drivers/ub/cdma/cdma_jfs.c:603-618 | of the requests that pass the checks, under any 8-bit SGE limit, those that fit the four blocks they are built in are those that take no more than the ring sets aside for one |
| CdmaSizing.RequestExact | drivers/ub/cdma/cdma_jfs.c:603-618 | the driver's tests pass exactly the requests described by operation, SGE limit and atomic length, and its block count is the length (48 bytes, 80 with a notification, 16 for every SGE that is not empty, two for atomics) in 64-byte blocks, rounded up |
| CdmaSizing.FitsExactly | drivers/ub/cdma/cdma_jfs.c:603-618 | every accepted request fits the four blocks it is built in exactly if the SGE limit is at most 13 |
| CdmaSizing.FourteenSges | drivers/ub/cdma/cdma_jfs.c:603-618 | an input that passes the checks and takes five blocks |
| CdmaSizing.RoundupPow2 | drivers/ub/cdma/cdma_jfs.c:130-141 | the smallest power of two that is not below the number |
| CdmaSizing.RingSize | drivers/ub/cdma/cdma_jfs.c:128-152 | in 32-bit arithmetic, for every depth that is accepted: the smallest power of two, from 64 on, with room for the depth, exactly if the blocks for the depth are at most 2^25; above that no block at all |
| CdmaSizing.RingExact | drivers/ub/cdma/cdma_jfs.c:137-141 | up to 2^25 blocks cutting to 32 bits changes nothing and rounding to the page keeps the power of two |
| CdmaSizing.RingVanishes | drivers/ub/cdma/cdma_jfs.c:137-141 | from 2^26 blocks on the size in bytes is 0 modulo 2^32 |
| CdmaSendRing.DepthTooLarge | drivers/ub/cdma/cdma_jfs.c:128-152 | an accepted depth for which the ring has no block |
| CdmaSendRing.SendQueue.constructor | drivers/ub/cdma/cdma_jfs.c:195-201 | an empty ring with nothing outstanding |
| CdmaSendRing.SendQueue.Overflows | drivers/ub/cdma/cdma_jfs.c:901-905 | across 32-bit wrap, yes exactly if the blocks do not fit beside the outstanding ones |
| CdmaSendRing.SendQueue.CopyToSq | drivers/ub/cdma/cdma_jfs.c:907-926 | refused without change exactly if there is no room; otherwise the blocks are in their slots across the wrap and no other slot changed |
| CdmaSendRing.SendQueue.PostOne | drivers/ub/cdma/cdma_jfs.c:941-989 | refused exactly for what the request is, or if its length in 64-byte blocks does not fit beside the outstanding ones, and then nothing changes; otherwise exactly that many blocks of the request follow those posted, with the owner bit of the lap, and outstanding blocks are intact |
| CdmaSendRing.SendQueue.PostList | drivers/ub/cdma/cdma_jfs.c:1009-1046 | requests are posted in order up to the first that fails, and the cause of the failure holds for it |
| CdmaSendRing.SendQueue.Complete | drivers/ub/cdma/cdma_jfc.c:310-385 | if the 16-bit index names the completed block, the consumer moves to it, and past it for a known status; posted blocks and the producer stay |
| CdmaSendRing.EntryDistance | drivers/ub/cdma/cdma_jfc.c:310-327 | the truncated, wrapped difference is the true distance to the completed entry |
| CdmaSendRing.IndexExact | drivers/ub/cdma/cdma_jfc.c:310-327 | with the low 16 bits of the block counter the distance is right exactly if the block sits in the first 2^16 blocks of the ring |
| CdmaSendRing.CompletionExact | drivers/ub/cdma/cdma_jfc.c:310-327 | every outstanding block of every state is found from its 16 bits exactly if the ring has at most 2^16 blocks |
| CdmaSendRing.IndexMisleads | drivers/ub/cdma/cdma_jfc.c:310-327 | in a ring of 2^17 blocks the completion of block 2^16 is taken for that of block 0 |
| CdmaSendRing.CopyHolds | drivers/ub/cdma/cdma_jfs.c:907-939 | copying new blocks overwrites none that is outstanding |
| CdmaSendRing.DepthAccepted | drivers/ub/cdma/cdma_jfs.c:128-152 | an empty ring built for an accepted depth takes that many requests of any kind exactly if the blocks for them are at most 2^25; above that it takes none |
| CdmaSendRing.NothingFits | drivers/ub/cdma/cdma_jfs.c:901-926 | the overflow test of a ring without blocks refuses every request |
| CdmaCompletion.OwnerShowsNew | drivers/ub/cdma/cdma_jfc.c:296-308 | the owner bit shows a new entry exactly if one has been written for this lap, and then it is the next one |
| CdmaCompletion.ProduceHolds | drivers/ub/cdma/cdma_jfc.c:289-308 | writing the next entry with the flipped bit keeps what every slot shows |
| CdmaCompletion.CompletionRing.Produce | drivers/ub/cdma/cdma_jfc.c:289-308 | hardware that reads the recorded index writes exactly when it overwrites nothing unread |
| CdmaCompletion.CompletionRing.PollOne | drivers/ub/cdma/cdma_jfc.c:423-449 | the next entry in order of production, exactly if there is one |
| CdmaCompletion.CompletionRing.PollJfc | drivers/ub/cdma/cdma_jfc.c:628-652 | what is reported are the next completions in order, each once; it stops early only at an entry that is no completion or when none is left; the record moves only up to what was taken |
| Teardown.RunInv | drivers/ub/cdma/cdma_jfc.c:534-625 | in every interleaving the reference count is the table's reference plus the handlers at work |
| Teardown.FreedUnused | drivers/ub/cdma/cdma_jfc.c:554-587 | once freed, the object is used by no thread and cannot be found |
| Teardown.SignalledOnce | drivers/ub/cdma/cdma_jfc.c:602-622 | the completion is signalled at most once, and exactly once before the object is freed |
| Teardown.NoLateHandler | drivers/ub/cdma/cdma_eq.c:15-87 | at every state after the removal the object is out of the table and no more handlers are at work than at the removal |
| Teardown.FreedAfterHandlers | drivers/ub/cdma/cdma_jfs.c:530-572 | the object is freed only after every handler that found it has finished |
| Teardown.WaiterNotLost | drivers/ub/cdma/cdma_jfc.c:554-587 | a waiting deleter always has a handler, a signal or a signaller to wait for |
| Teardown.DeletionBounded | drivers/ub/cdma/cdma_jfc.c:554-622 | after the removal only a bounded number of steps can follow, one fewer with every step |
| Teardown.DeletionGoesOn | drivers/ub/cdma/cdma_jfc.c:554-622 | and until the object is freed a step can be taken, so every deletion ends with the free |
| MemPoolRuns.NextKeeps | drivers/ub/obmm/conti_mem_allocator.c:81-433 | every step of every thread keeps conservation of segments and counters |
| MemPoolRuns.RunInv | drivers/ub/obmm/conti_mem_allocator.c:81-433 | every state of every run satisfies it |
| MemPoolRuns.ExactlyOnePlace | drivers/ub/obmm/conti_mem_allocator.c:81-383 | every segment is in exactly one place: uncleared, being cleared, ready, poisoned, with a caller, with the source or in the hands of one thread |
| MemPoolRuns.PooledIsSum | drivers/ub/obmm/conti_mem_allocator.c:202-338 | pooled is used plus ready plus uncleared in every state, each with the updates still due |
| MemPoolRuns.QuietCounters | drivers/ub/obmm/conti_mem_allocator.c:536-570 | when no operation is under way the four counters are the list lengths |
| MemPoolRuns.UpdateDue | drivers/ub/obmm/conti_mem_allocator.c:202-248 | each counter update pays exactly what is due for that counter |
| MemPoolRuns.CleanHandOut | drivers/ub/obmm/conti_mem_allocator.c:262-311 | clear memory asked for without the slow path is as much as is ready, up to the size, and every segment of it was cleared at an earlier step with no fetch of it from the source in between |
| MemPoolRuns.ReadyWasCleared | drivers/ub/obmm/conti_mem_allocator.c:386-433 | in every state of every run each ready segment was cleared since it last left the source |
| MemPoolRuns.ClearedSince | drivers/ub/obmm/conti_mem_allocator.c:386-433 | whatever is marked clean and is not with the source was cleared at an earlier step, and has not been fetched since |
| MemPoolFlow.StepFlows | drivers/ub/obmm/conti_mem_allocator.c:81-433 | every step of every thread takes segments only from the places of its operation and brings them only to those, and changes no other place: returned memory goes to the source, isolated memory to the poisoned list, a failed clear back to the uncleared list |
| MemPoolFlow.ContractTakes | drivers/ub/obmm/conti_mem_allocator.c:117-169 | of the uncleared list followed by the ready list, a contract takes the first n segments, or all, and leaves the rest |
| MemPoolFlow.AllocTakes | drivers/ub/obmm/conti_mem_allocator.c:274-297 | an allocation hands out the number asked for or all it may take, and touches its second list only when the first is empty |
| MemPoolFlow.AllocThenSlow | drivers/ub/obmm/conti_mem_allocator.c:298-324 | after its three counter updates an allocation is over, or with the slow path allowed it goes on for exactly what the lists did not give |
| MemPoolFlow.SlowCounts | drivers/ub/obmm/conti_mem_allocator.c:220-248 | for each segment the slow loop hands out, one more is counted as got and one less is wanted, and it is clean if that was asked for |
| MemPoolFlow.ExpandCounts | drivers/ub/obmm/conti_mem_allocator.c:81-115 | for each segment an expansion adds to the uncleared list, one more is counted as added and one less is wanted |
| MemPoolFlow.IsolateWithdraws | drivers/ub/obmm/conti_mem_allocator.c:340-383 | an isolated segment is on the poisoned list |
| MemPoolFlow.WithdrawnStays | drivers/ub/obmm/conti_mem_allocator.c:171-200 | from then on until it is back at the source, in every run, it is on no other list, is not cleared and is with no caller |
| MemPoolLists.MoveUpTo | drivers/ub/obmm/conti_mem_allocator.c:138-152 | the front of the list up to the number wanted, and its size |
| MemPoolLists.ContractCut | drivers/ub/obmm/conti_mem_allocator.c:117-169 | of the uncleared list followed by the ready list the first segments, up to the size, are taken and the rest is left, as in the step of the pool; nothing for a size that is not a multiple of the granule |
| MemPoolLists.AllocCut | drivers/ub/obmm/conti_mem_allocator.c:274-297 | for any size in bytes, over both lists: granules until the size is reached or nothing is left; more than the size exactly if the size is not a multiple of the granule and the lists hold no less than the size; for multiples what the step machine takes |
| MemPoolLists.SlowCut | drivers/ub/obmm/conti_mem_allocator.c:220-248 | the slow loop, with its 64-bit remainder, stops exactly when the remainder is 0 or the source refuses |
| MemPoolLists.SlowEven | drivers/ub/obmm/conti_mem_allocator.c:220-248 | for a multiple of the granule it takes what is wanted, or all that the source gives |
| MemPoolLists.SlowOdd | drivers/ub/obmm/conti_mem_allocator.c:220-248 | for any other size it takes all that the source gives, or more than the size |
| MemPoolLists.SlowTakesAll | drivers/ub/obmm/conti_mem_allocator.c:220-248 | with a granule that divides 2^64 it then takes all that the source gives |
| MemPoolLists.AllocAny | drivers/ub/obmm/conti_mem_allocator.c:250-338 | for every call: more than the size is handed out exactly if the size is not a multiple of the granule and the lists, with the source on the slow path, have no less than the size; for multiples the minimum of both |
| MemPoolLists.CountExact | drivers/ub/obmm/conti_mem_allocator.c:274-297 | the count is what is still wanted, or all there is |
| MemPoolLists.OddSizeExceeded | drivers/ub/obmm/conti_mem_allocator.c:274-335 | an input: 3 MiB asked for in granules of 2 MiB, and 4 MiB handed out |
| MemPoolLists.FindSegment | drivers/ub/obmm/conti_mem_allocator.c:340-383 | found exactly if the address is on one of the two lists, the ready list first |

## Left out

- Entry-mode tables (one entry instead of a tree), `cfg_table.c`, page tables, event and permission queues: only easier members.
- The exclusive variant of the command queue (queue.c:1033-1122): a single producer, covered by the harder shared one.
- Register access, interrupts, the result word of the continuity check (queue.c:1010-1025), error-skip rewriting of the queue, delays; a polling timeout is a choice of the environment.
- Weak memory ordering and barriers: every atomic access is one sequentially consistent step.
- Command, descriptor and status-code packing (`ummu_mcmdq_build_cmd`, SQE and CQE fields, tl and gs fields of invalidations).
- A batch entry whose command cannot be built (queue.c:1310-1313) does not occur: only range invalidations are batched here.
- Range checks of permission, e-bit and token kind (perm_table.c:430-461): their enumerations come from a header that is not part of this model; they are one Boolean argument of `Grant`.
- The (va, size) pair that grant and ungrant hand back for a later flush; token generation, which is an argument.
- Null-pointer and "invalid mapt_block" exits: the preconditions of the level walks show that they are not taken.
- The direct-WQE path of the send queue and the doorbell write.
- The width of the recorded consumer index is a parameter of `CompletionRing`: the header with its mask is not part of this model.
- The step machine of the pool counts granules, as its present caller asks for whole ones; `MemPoolLists` has the byte counts.
- The pool's pause flag, its shutdown and its sysfs files; expansion and contraction thresholds are choices of the environment.
- A failed clear of segments taken from the uncleared list (conti_mem_allocator.c:317-320): the source does not look at the result, so nothing is said about such segments.
- CdmaSendRing.SendQueue.PostOne: a request that overruns the four blocks it is built in overwrites the stack, which has no meaning here; `CdmaSizing.FitsExactly` says exactly when no request does.
- What __ffs(0) returns: the flush of a part of a page is followed up to that call.
