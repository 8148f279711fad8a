# SamaraOS, verified in Dafny

A model of the parts of the SamaraOS kernel and its programs in which several functions have to
agree on more than one of them shows, with proofs for all inputs, all runs and all interleavings.

* **Memory.** Physical frames with one reference byte each; address spaces as four-level page tables
  with lazily reserved pages, 2 MiB reservation markers, copy on write, shared mappings, the page
  cache and swap. `VmState`, `VmOps` and `VmRuns` hold the state machine over all spaces and prove
  that every run refines a plain map from pages to contents while reference counts stay exact;
  `VmMachine` states the same against a machine of pages and objects that needs no concrete state.
  `PageTree`, `PageRange` and `FindFree` work on the tables themselves, and `RangeFlat` shows that a range
  operation on them is the fold of the operation of the state machine. `VmFork` is fork and teardown on the
  tables with the failure path, over `TreeCopy` (the copy, finished or not), `ForkOrder` (how far a fork
  comes), `ForkCounts` (which bytes stick, with a case in `ForkSticks`) and `TreeFree` (the teardown).
  `SwapOut` is the batched write-out and commit, `SwapIn` the read without a lock, `VmDiscard` two runs of
  a small machine (`VmSmall`) that `madvise` misses, `SwapArea` the slots on disk, `FramePool` the pool.
* **Processors.** TLB shootdown with deferred frees (`Tlb`), the ticket lock with its 32-bit counters
  (`Bkl`), the hand-over of tasks and stacks between cpus (`Sched`), virtual run time (`FairShare`),
  and wait queues as linked structure (`WaitList`) and as protocol (`WaitWake`).
* **The rest of the core.** The heap with its linked headers (`Heap`), the move of the boot modules
  (`Reloc`), the page cache with its clock (`PageCache`).
* **Programs.** The DEFLATE decoder of the image viewer (`Bits`, `Huffman`, `Deflate`, `Inflate`), the
  flood fill of the paint program (`Flood`, with the pictures it always finishes in `FloodRuns` and one it
  does not in `FloodComb`), the rule index and cascade of the browser (`Css`).

Code that updates things in place is a class with methods proved against functions of the old state;
protocols are state machines whose steps are the atomic actions of the cpus.

`dafny verify dfyconfig.toml` checks the whole project.

## Where the code and its promise differ

* The comment on `vmm_discard` promises zeros for private writable pages. Pages waiting for a copy on
  write, and pages in swap, keep their data (`DiscardMissesCow`, `DiscardMissesSwapped`: runs from boot);
  `DiscardZeroes` is the exact condition.
* `vmm_swap_in` reads the slot without a lock and then compares the entry. If it is the same, that is invisible
  if and only if nothing was written to the slot meanwhile or the last write had the bytes that were read
  (`SwapInExact`), as when some page names it throughout (`SwapInQuiet`); a page that comes back, is
  written and returns to the same slot meanwhile loses the write (`ReusedSlot`).
* A reference byte that reaches 254 sticks. So a reference taken and dropped restores a byte unless it was 253
  (`RefUnref`, `DupPut`). A failed fork restores a byte if and only if the byte and the number of pages on its
  frame that the fork came to stay below 254 together (`CloneSpace`, `CountsRestored`); a byte of 252 can stick
  too (`StuckByte`).
* `inflate` stores a code length behind the end of the input as 255 and `huff_build` takes it as an index. Its
  indices stay in bounds if and only if the 14 bits of the dynamic header and 3 bits for each announced
  length are there (`HeaderFits`, `Run`; an input without them: `CutHeaderStrays`).
* `ALIGN8` wraps for sizes above 2^64 - 16 (`AlignUp`). A block is as long as asked for if and only if the
  request is not above that (`AllocAtLeast`), and a fresh arena does meet such a request (`WrappedRequest`).
* `bkl_try` can take a lock that is held if 2^32 tickets pass between its load and its
  compare-and-exchange (`TwoOwners`: a run from boot; exactly then, `CasGoesThrough`).
* The spread of virtual run times stays inside the window of 30000 if and only if a slice of the running task fits
  (`CloseForever`, `NotClose`; a run that leaves it: `WindowLeft`). Shares are proportional to weights if and only
  if weight times rounded cost agree (`InProportion`, `OutOfProportion`; two such weights: `ProportionLeft`).
* `swap_alloc` returns -1 although another area has a free slot when the open area of highest priority
  is full of bad pages (`BadPageHidesRoom`); without bad pages it does not (`OpenMeansRoom`).
* Range operations silently leave out pages of a marker that needs a table when no frame is free. They leave
  out none if and only if as many frames are free as markers have to be expanded (`SweepRange`). Freeing,
  discarding and taking a right expand at most two (`AtMostTwo`); granting a right expands every marker in
  the range, also those wholly inside (`GrantMisses`).
* `flood` drops seeds when its stack is full, and then it can leave part of the component (`CombLeft`). It does
  not in any run in which no seed is dropped (`Fill`, by the predicate `Loses` of picture and start), and none
  is dropped while fewer than 16384 pixels have the old colour, or while at most 16384 pairs of runs touch
  (`LosesMeansMany`), as on a picture of one colour with up to 16385 rows of any width (`BlankFew`).

## Model

| member | source | states |
|---|---|---|
| FramePool.ZerosUpdate | src/core/vmm.c:41-94 | Changing one reference byte changes the number of free frames by exactly what that byte gains or loses. |
| FramePool.UnrefZeros | src/core/vmm.c:90-94 | After a reference is dropped, the pool counter is again the number of zero bytes. |
| FramePool.RefZeros | src/core/vmm.c:84-88 | Taking one more reference on a frame in use leaves the number of free frames alone. |
| FramePool.RefUnref | src/core/vmm.c:84-94 | A reference taken and dropped leaves every byte as it was if and only if the byte was not 253, since 254 sticks. |
| FramePool.Pool.constructor | src/core/vmm.c:21-26 | All frames start outside the pool (255). |
| FramePool.Pool.Add | src/core/vmm.c:28-39 | Exactly the frames of the region become free; the counter follows. |
| FramePool.Pool.Alloc | src/core/vmm.c:41-57 | Returns 0 if and only if no frame is free; otherwise the first free frame from the hint around the end, whose byte goes from 0 to 1, with nothing else changed. |
| FramePool.Pool.AddRef | src/core/vmm.c:84-88 | One more reference, none for frames outside the pool or stuck ones; counter stays exact. |
| FramePool.Pool.Drop | src/core/vmm.c:90-94 | One reference less, none below zero or from a stuck byte; a frame that reaches zero is counted free. |
| VmState.TakeInv | src/core/vmm.c:41-57 | Taking a free frame keeps the invariant: every byte equals the number of references that exist (page table entries, tables, cache, references in flight, swap-out list) or is stuck at 254; writable private pages have their frame alone; frames being swapped out are written by nobody. |
| VmState.AgainInv | src/core/vmm.c:84-88 | A further reference on a frame in use keeps that invariant. |
| VmState.GiveInv | src/core/vmm.c:90-94 | Dropping a reference in flight keeps it. |
| VmState.TakeSlotInv | src/core/swap.c:77-98 | Taking a free swap slot keeps it (slot bytes are exact or stuck). |
| VmState.AgainSlotInv | src/core/swap.c:100-106 | swap_dup keeps it. |
| VmState.GiveSlotInv | src/core/swap.c:108-114 | swap_put keeps it. |
| VmState.UnbindInv | src/core/vmm.c:136-143 | Clearing an entry whose reference goes into flight keeps it. |
| VmState.BindInv | src/core/vmm.c:136-143 | Writing an entry that takes over a reference in flight keeps it, under the exact conditions on sharing and writability. |
| VmState.ReflagInv | src/core/vmm.c:136-151 | Changing flags of an entry keeps it when the new flags respect sole ownership. |
| VmState.StartPickInv | src/core/vmm.c:849-862 | Picking a page for swap-out keeps it. |
| VmState.EndPickInv | src/core/vmm.c:870-895 | Taking a page off the swap-out list keeps it. |
| VmState.SoleFrame | src/core/vmm.c:144-168 | Where the byte of a private page is 1, that page is the only reference of any kind on its frame. |
| VmOps.CowGood | src/core/vmm.c:144-168 | A copy-on-write fault changes no page of any space as seen by its owner, and the page is still its own. |
| VmOps.FaultInGood | src/core/vmm.c:389-416 | Filling a lazily reserved page shows the zeros it showed before. |
| VmOps.StoreGood | src/core/vmm.c:144-168 | A store through a writable entry changes that page only, or exactly the pages that map the frame shared. |
| VmOps.CloneGood | src/core/vmm.c:678-708 | Forking one page of any kind (lazy, present private, present shared, swapped) gives the child the parent's contents and changes nobody's view. |
| VmOps.ReserveGood | src/core/vmm.c:343-361 | Reserving a page replaces what was there by zeros and drops the old frame or slot reference. |
| VmOps.PopulateGood | src/core/vmm.c:248-269 | Populating a page keeps its contents if it was mapped and shows zeros if it was not. |
| VmOps.MakeWritableGood | src/core/vmm.c:145-151 | Making a page writable sets the hardware bit only for a sole owner, else marks copy on write; no view changes. |
| VmOps.ProtectGood | src/core/vmm.c:285-305 | Changing write permission changes no contents and no ownership. |
| VmOps.DiscardGood | src/core/vmm.c:512-538 | Discarding shows zeros exactly on the pages it takes and nothing else anywhere. |
| VmOps.MapKeptGood | src/core/vmm.c:307-341 | Mapping a frame of a shared segment or of the page cache shows that frame and disturbs nobody. |
| VmOps.ScanGood | src/core/vmm.c:831-868 | The clock scan (accessed bit taken, or slot allocated and page made read-only) changes no view. |
| VmOps.PickGood | src/core/vmm.c:849-862 | A picked page was the sole reference to its frame and cannot be written until it is settled. |
| VmOps.WriteFailedGood | src/core/mem.c:57-58 | A failed disk write leaves every page as it was, whatever the slot has now. |
| VmOps.CommitGood | src/core/vmm.c:870-895 | Replacing the entry by its slot shows the same contents, because the frame could not change since it was written; otherwise nothing is replaced. |
| VmOps.SwapInGood | src/core/vmm.c:418-443 | Reading a page back shows what the slot showed; the slot reference goes. |
| VmOps.RefillGood | src/core/pcache.c:116-130 | Rewriting a cache frame changes exactly the pages that map it. |
| SwapIn.StepWaits | src/core/vmm.c:415-443 | While vmm_swap_in has no lock, no operation of another cpu touches the frame it reads into: one reference, its own, and the bytes stay. |
| SwapIn.RunWaits | src/core/vmm.c:415-443 | So in every run between the read and the second look. |
| SwapIn.FinishExact | src/core/vmm.c:429-437 | If the second look finds the same entry, the page shows the bytes that were read; nobody sees a change if and only if the slot still has those bytes. |
| SwapIn.FinishDrops | src/core/vmm.c:438-439 | If the entry changed meanwhile, nobody sees a change and the frame is free again. |
| SwapIn.FinishAtomic | src/core/vmm.c:418-443 | Where the slot still has the bytes, the two looks together are the atomic read of the page model at the moment of the second one. |
| SwapIn.RunKeepsSlot | src/core/swap.c:77-114 | A slot that some page names throughout a run keeps its bytes. |
| SwapIn.SwapInQuiet | src/core/vmm.c:415-443 | Swapping in is invisible with any run of other cpus between the two looks, as long as some page names the slot throughout. |
| SwapIn.RunWrites | src/core/swap.c:77-114 | After any run a slot has what was written to it last, or what it had. |
| SwapIn.SwapInExact | src/core/vmm.c:415-443 | The exact condition, for every run in between: nobody sees a difference if and only if the entry is not the same any more, nothing was written to the slot meanwhile, or the last write had the bytes that were read. |
| SwapIn.ReusedSlot | src/core/vmm.c:429-437 | Otherwise it need not be: wherever one page alone names its slot and two frames are free there is a run in which the page comes back, is written and returns to the same slot, and the second look then restores the old bytes. |
| SwapIn.ReuseReached | src/core/vmm.c:415-443 | Such states are reached from boot. |
| VmOps.ClearGood | src/core/vmm.c:477-499 | Unmapping removes that page only, and the frame or slot loses exactly one reference. |
| VmOps.NewTableGood | src/core/vmm.c:187-212 | Taking a frame for a page table changes no view. |
| VmOps.FreeTableGood | src/core/vmm.c:654-665 | Giving a table frame back changes no view. |
| VmRuns.StepGood | src/core/vmm.c:144-895 | Each of the 27 operations keeps the invariant and does to the contents of all pages of all spaces what its label in the page model says. |
| VmRuns.RunRefines | src/core/vmm.c:144-895 | Refinement over every run: frames, tables, reference bytes, copy on write and swap are invisible; the pages show what a plain map from page to contents shows when it is set, copied or cleared; reference counts stay exact. |
| VmRuns.BootInv | src/core/vmm.c:21-39 | The state after the pool is filled and swap is on satisfies the invariant. |
| VmRuns.BootRefines | src/core/vmm.c:21-39 | So every run from boot refines the page model that starts empty. |
| VmMachine.SameShows | src/core/vmm.c:144-895 | Where kernel state and page machine agree, every space sees what the machine shows. The machine knows pages with contents of their own and pages that show an object; no frames, counts, tables or swap. |
| VmMachine.StoreStep | src/core/vmm.c:144-168 | A store is a write to the page or to the object it shows, as the machine itself says. |
| VmMachine.CloneStep | src/core/vmm.c:678-708 | A forked page gets its own copy of the contents, or shows the same object. |
| VmMachine.CowStep | src/core/vmm.c:144-168 | A copy-on-write fault is nothing, or the page leaves its object with a copy. |
| VmMachine.AttachStep | src/core/vmm.c:307-341 | Mapping a frame of a segment or of the cache makes the page show that object. |
| VmMachine.PickStep | src/core/vmm.c:831-868 | Picking a page for swap-out is nothing, or the page leaves its object. |
| VmMachine.UnseenStep | src/core/vmm.c:144-895 | Fourteen kinds of operations (faults, protection, tables, references, write-out, commit, swap-in) do not exist for the machine. |
| VmMachine.StepRuns | src/core/vmm.c:144-895 | Every operation is an operation of the machine, whose effect depends on the operation, the machine and one choice. |
| VmMachine.RunIsMachineRun | src/core/vmm.c:144-895 | Refinement without reference to the concrete state: every run of the kernel is a run of the machine that shows at every moment what the spaces see. |
| VmMachine.BootIsMachineRun | src/core/vmm.c:21-39 | So every run from boot is a run of the machine from nothing mapped. |
| VmRuns.SharedStoreApart | src/core/vmm.c:144-168 | A store seen by several pages never reaches a page that belongs to one space. |
| VmRuns.StepIsolates | src/core/vmm.c:144-168 | A step not aimed at a private page leaves its contents and its privacy. |
| VmRuns.Isolation | src/core/vmm.c:678-732 | Over any run in which the owner does not touch a private page, no fork, fault, swap or store of others changes it. |
| VmRuns.ForkCopies | src/core/vmm.c:678-708 | A forked page starts with the parent's contents; if it was private both copies are. |
| VmRuns.ForkDiverges | src/core/vmm.c:678-732 | After a fork, whatever run follows, the side that does not write its page keeps the contents of the moment of the fork, however often the other side writes. |
| VmRuns.SharedStaysCommon | src/core/vmm.c:307-341 | Two shared mappings of a frame stay on that frame and show the same contents through any run of forks, swaps and stores by anybody. |
| VmRuns.PickedFrameFrozen | src/core/vmm.c:827-868 | While a page is on its way to disk no operation changes its frame. |
| VmRuns.MemOnlyFresh | src/core/vmm.c:41-57 | Apart from stores and refills, operations write only frames that were free. |
| VmDiscard.DiscardMissesCow | src/core/vmm.c:512-538 | Counterexample to the comment on vmm_discard: a run from boot (map, store, fork) after which a private writable user page, any page and any bytes but zeros, waits for a copy on write and keeps its bytes when it is discarded. |
| VmDiscard.DiscardMissesSwapped | src/core/vmm.c:512-538 | The same for a page in swap: a run from boot (map, store, pick, write out, commit) after which discarding changes nothing. |
| VmRuns.DiscardZeroes | src/core/vmm.c:512-538 | Exactly when discarding shows zeros: the entry is present, private and writable in hardware, or showed zeros before. |
| VmFork.CountsRestored | src/core/vmm.c:710-732 | Once the child is gone: same pages and tables, same contents and as many free frames as before; exactly the pages the fork had come to are copy on write; a byte is stuck at 254 if and only if those pages carried it there, and every other byte is what it was. |
| VmFork.ByteBack | src/core/vmm.c:84-94 | The byte of one frame after a failed fork, from the byte before and the number of pages on it that the fork had come to. |
| VmFork.SlotBack | src/core/swap.c:100-114 | The same for a swap slot. |
| ForkCounts.KeysGrow | src/core/vmm.c:678-708 | Half way through a fork a frame has as many more entries as pages on it were forked. |
| ForkCounts.StuckPage | src/core/vmm.c:84-88 | A byte gets stuck only when the pages forked so far carry it to 254. |
| ForkCounts.SlotStuckPage | src/core/swap.c:100-106 | The same for a swap slot. |
| ForkCounts.NeverSticks | src/core/vmm.c:678-732 | A byte that stays below 254 with all entries of the parent on its frame counted once more never sticks. |
| ForkSticks.StuckByte | src/core/vmm.c:710-732 | A fork that fails and leaves a byte stuck: the parent maps a frame with 252 references shared at two pages, and the last of its five tables finds no frame. |
| VmFork.Spaces.FindFrame | src/core/vmm.c:41-57 | 0 if and only if the pool counter is 0; otherwise a free frame. |
| TreeCopy.WentOver | src/core/vmm.c:678-708 | The record of the walk over the tables: an entry that is no table is done when it is copied. |
| TreeCopy.WentDown | src/core/vmm.c:678-708 | An entry that is a table is done when everything under that table is. |
| TreeCopy.FreshBelow | src/core/vmm.c:678-708 | The walk comes to every table once: a table under the next entry has not been copied yet. |
| TreeCopy.OnePair | src/core/vmm.c:678-708 | Every page has its entry, or the marker it lies in, at one place of the tree only. |
| TreeCopy.PairExists | src/core/vmm.c:678-708 | And every mapped page has one. |
| TreeCopy.AllPages | src/core/vmm.c:678-708 | When all entries of all tables are done, exactly the mapped pages are. |
| TreeCopy.CopyWalks | src/core/vmm.c:678-708 | A walk in the finished copy finds, at every level and address, the copy of what the walk in the parent found. |
| TreeCopy.LinkDone | src/core/vmm.c:678-708 | A table has its copy if and only if the entry that links it was copied. |
| TreeCopy.HalfWalk | src/core/vmm.c:678-708 | At every moment of the fork a walk in the new tables finds the copies of the entries that were copied, and nothing else. |
| TreeCopy.HalfPage | src/core/vmm.c:678-708 | So the half-built tree maps exactly the pages that are done. |
| TreeCopy.CopyOk | src/core/vmm.c:678-732 | Finished or not, the copy is a well-formed tree of its own with an empty upper half. |
| TreeCopy.ParentPage | src/core/vmm.c:678-708 | At every moment of the fork the parent has copy-on-write entries for the pages that are done and its old entries for all others. |
| TreeCopy.ParentOk | src/core/vmm.c:678-708 | The tables of the parent stay a well-formed tree throughout. |
| VmFork.ParentTree | src/core/vmm.c:678-732 | At every moment the tables of the parent map exactly what the flat state says of the parent. |
| VmFork.ChildTree | src/core/vmm.c:678-732 | At every moment the new tables map exactly what the flat state says of the child; at the end these are the pages of the parent. |
| ForkOrder.TableInside | src/core/vmm.c:678-708 | A table that starts inside the addresses of an entry hangs on it, or starts where the entry's own table does. |
| ForkOrder.LeafInside | src/core/vmm.c:678-708 | A page or marker that starts there is that entry or hangs on it. |
| ForkOrder.FrontOver | src/core/vmm.c:678-708 | The recursion goes by address: after an entry that is no table, exactly the tables and pages before the next entry are done. |
| ForkOrder.FrontHung | src/core/vmm.c:678-708 | And at one address from the root down. |
| ForkOrder.FrontStop | src/core/vmm.c:678-708 | When the frames run out, exactly those pages are done that at most as many tables precede as there were frames. |
| VmFork.StaysRooted | src/core/vmm.c:710-732 | Every space still has its root, whether the fork succeeded or not, so another fork can follow. |
| VmFork.ChildGone | src/core/vmm.c:667-676 | Once the child is destroyed, exactly the pages and tables from before are left. |
| VmFork.ForkEnds | src/core/vmm.c:710-732 | The result of a complete walk: contents of all spaces, and as many frames fewer as the parent has tables. |
| VmFork.Spaces.StartClone | src/core/vmm.c:710-716 | The root of the child, or nothing at all if no frame is free. |
| VmFork.Spaces.ClonePage | src/core/vmm.c:688-706 | One entry of a page table: tree and flat state do the same step. |
| VmFork.Spaces.CloneMark | src/core/vmm.c:678-708 | A 2 MiB marker is copied as one entry and stands for 512 forked reservations. |
| VmFork.Spaces.HangTable | src/core/vmm.c:678-708 | A new table for the child; there is none only if fewer frames were free at the start than the parent has tables, and then the pages done are exactly those the frames reach. |
| VmFork.Spaces.CloneTable | src/core/vmm.c:678-708 | A table and everything under it. |
| VmFork.Spaces.CloneEntry | src/core/vmm.c:678-708 | One entry of any kind at any level. |
| VmFork.Spaces.CloneLevel | src/core/vmm.c:678-708 | All entries of one table, recursively, for the root only the user half; it fails only if the frames cannot suffice. |
| TreeFree.NothingToCut | src/core/vmm.c:654-665 | Under an empty entry there is no page and no table to take down. |
| TreeFree.CutTable | src/core/vmm.c:654-665 | After all entries of a table only the table itself is left of its addresses. |
| VmFork.Spaces.DropPageAt | src/core/vmm.c:656-661 | One page goes with its frame or slot reference. |
| VmFork.Spaces.DropMark | src/core/vmm.c:657-660 | Under a marker nothing is released; its 512 reserved pages go. |
| VmFork.Spaces.FreeEntry | src/core/vmm.c:656-663 | One entry of any kind, and exactly what is under it. |
| VmFork.Spaces.FreeEntries | src/core/vmm.c:654-676 | The entries of a table one by one, and then the table. |
| VmFork.Spaces.FreeTables | src/core/vmm.c:654-665 | The recursion over a tree, finished or half built: exactly the pages and tables in the addresses of the table go. |
| VmFork.Spaces.DestroySpace | src/core/vmm.c:667-676 | Down the user half of any space and then its root: its pages and tables are gone, all others keep theirs with their contents, and the counts stay exact. |
| VmFork.Spaces.CloneSpace | src/core/vmm.c:710-732 | Fork on the four-level tables: 0 if and only if fewer frames are free than the parent has tables. Success: the child has exactly the pages of the parent with the same contents in a well-formed tree of its own, and all others see what they saw. Failure: the child is gone, contents and tables are as before, exactly the pages that at most as many tables precede as there were frames are copy on write, and exactly the bytes these pages carry to 254 are stuck. In both cases the parent is whole and can fork again. |
| SwapOut.WriteStep | src/core/mem.c:56-57 | Writing a buffered page to its slot is invisible and marks that entry written. |
| SwapOut.DropStep | src/core/mem.c:57-58 | Dropping slot and frame of a failed write is invisible. |
| SwapOut.CommitStep | src/core/vmm.c:870-895 | Committing one entry is invisible and leaves exactly the references that its slot mark says are to be dropped. |
| SwapOut.KeptSound | src/core/mem.c:61-63 | What compaction keeps was written, has distinct slots, and covers every slot still listed. |
| SwapOut.Reclaim.RunEnd | src/core/mem.c:54-55 | The longest run of neighbouring slots from an entry on. |
| SwapOut.Reclaim.WriteRun | src/core/mem.c:56-57 | One write puts page k of the buffer into the k-th slot after the first, which is the slot of that entry. |
| SwapOut.Reclaim.DropOne | src/core/mem.c:57-58 | Slot and frame reference of one failed entry are dropped, no page table changes. |
| SwapOut.Reclaim.FailRun | src/core/mem.c:57-58 | All entries of a failed run are dropped and marked with frame 0. |
| SwapOut.Reclaim.OneRun | src/core/mem.c:54-59 | A run is written or dropped as a whole. |
| SwapOut.Reclaim.WriteOut | src/core/mem.c:53-60 | What is left unmarked is exactly the entries of the runs the disk took, in order. |
| SwapOut.Reclaim.Compact | src/core/mem.c:61-63 | The marked entries are removed in place, the order kept. |
| SwapOut.Reclaim.CommitOne | src/core/vmm.c:877-884 | The entry takes its slot if and only if it still has the frame and is still copy on write. |
| SwapOut.Reclaim.CommitSpace | src/core/vmm.c:873-886 | All entries of one space under its lock: the page tables change as if they took their slots one after the other, and exactly the outstanding references are in flight. |
| SwapOut.Reclaim.SettleSpace | src/core/vmm.c:887-891 | After the unlock every outstanding reference is dropped once, and the pages that went are counted. |
| SwapOut.Reclaim.Commit | src/core/vmm.c:870-895 | Over all spaces: no reference is left over, and the result is the number of pages that went to their slot. |
| SwapOut.Reclaim.Flush | src/core/mem.c:52-67 | A whole flush with any pattern of disk failures is invisible to every process, leaves no reference and no listed slot behind, changes exactly the entries of the runs that were written and not touched since, and returns their number. |
| PageTree.ChangeLocal | src/core/vmm.c:187-234 | In a well-formed four-level tree a change of one entry is seen only by the pages below it. |
| PageTree.PutLeaf | src/core/vmm.c:187-212 | Writing the entry of a page changes the flat view at that page and nowhere else. |
| PageTree.PutMark | src/core/vmm.c:214-234 | Setting or clearing a 2 MiB reservation marker changes exactly its 512 pages. |
| PageTree.GrowOk | src/core/vmm.c:187-212 | Hanging a new table in keeps the tree well formed. |
| PageTree.GrowViews | src/core/vmm.c:187-212 | A new table filled with what its entry was changes no page. |
| PageTree.GrowMarks | src/core/vmm.c:187-212 | A new table takes the marker it stands for and no other, and creates none. |
| PageTree.NothingBelow | src/core/vmm.c:187-234 | Below an entry without a table there is no table. |
| PageTree.EmptyBelow | src/core/vmm.c:554-563 | Below an empty entry every page is empty. |
| PageRange.Space.Grow | src/core/vmm.c:187-212 | A table for one entry, with no page changed; fails exactly when no frame is free. |
| PageRange.Space.PteSlot | src/core/vmm.c:187-212 | Finds or makes the table of a page without changing any page; expands markers; without `create` it fails only where nothing is mapped or no frame is free for the marker. |
| PageRange.Space.PdeSlot | src/core/vmm.c:214-229 | Finds or makes the level 1 table of a block without changing any page. |
| PageRange.Space.PdeRes | src/core/vmm.c:231-234 | True if and only if the whole 2 MiB block is one reservation marker. |
| PageRange.Space.HoleAt | src/core/vmm.c:554-563 | The size of the hole it reports contains only unmapped pages up to the end of its block; 0 means there is a table or a marker. |
| PageRange.Space.PastHole | src/core/vmm.c:445-457 | Where a range loop resumes; everything skipped is unmapped. |
| PageRange.Space.SetPage | src/core/vmm.c:136-143 | One page of the flat view changes. |
| PageRange.Space.SetMark | src/core/vmm.c:343-361 | Exactly 512 pages of the flat view change. |
| PageRange.Space.SweepPage | src/core/vmm.c:477-499 | One page gets the effect of the operation; a page in a marker costs one frame, or is left out when there is none. |
| PageRange.Space.SweepMark | src/core/vmm.c:477-499 | A whole marker inside the range is handled at once. |
| PageRange.Space.SweepOne | src/core/vmm.c:445-538 | One round of a range loop at a page keeps the record of what is done and skipped. |
| PageRange.Space.SweepNext | src/core/vmm.c:445-538 | One round, by page or by marker. |
| PageRange.Space.SweepRound | src/core/vmm.c:445-538 | One round at any page: outside user space, in a hole, at a marker or at a page. |
| PageRange.Space.SweepRange | src/core/vmm.c:445-538 | vmm_free_range, vmm_discard, vmm_set_user and vmm_set_writable on any range, with holes skipped: every page of the range has the per-page effect or was left out, no page outside changes. Nothing is left out if and only if at least as many frames are free as there are markers to expand, and then exactly that many frames go. The markers to expand are all that meet the range where a right is granted, else only those not wholly inside. |
| PageRange.AtMostTwo | src/core/vmm.c:477-538 | Where whole markers are handled at once (freeing, discarding, taking a right) at most two have to be expanded, so two frames are enough. |
| PageRange.FiveMarks | src/core/vmm.c:343-361 | Five wholly reserved blocks in a new space, with two to four frames left. |
| PageRange.GrantMisses | src/core/vmm.c:445-457 | Granting access over those five blocks, each wholly covered and with two frames free, leaves pages without access. |
| PageRange.SofarPage | src/core/vmm.c:445-538 | The loop record survives one page. |
| PageRange.MeetsMarker | src/core/vmm.c:445-538 | A page in a marker that is still there: the marker is one that has to be expanded, and this is the first page of it that the sweep comes to. |
| PageRange.CountedPage | src/core/vmm.c:445-538 | Every marker met took one frame, and no other page does. |
| PageRange.CountedSkip | src/core/vmm.c:445-538 | A page is left out only when more markers have to be expanded than there were frames. |
| PageRange.SweepIsFlat | src/core/vmm.c:445-538 | The per-page effect of a sweep is the operation of the flat model on that page, and on no other. |
| RangeFlat.SweepingIs | src/core/vmm.c:445-538 | The page by page operation of the flat model over a range, references dropped along the way included, keeps the invariant and gives each page its effect. |
| RangeFlat.SweepAgrees | src/core/vmm.c:445-538 | The whole range operation on the tables is that fold: afterwards tables and flat state agree again, the reference counts are exact and other spaces are untouched. |
| PageRange.Space.LazyBlock | src/core/vmm.c:343-361 | A whole empty block becomes one marker, changing exactly its pages; otherwise nothing changes. |
| PageRange.Space.LazyPage | src/core/vmm.c:343-361 | One page reserved, or no frame for its table. |
| PageRange.Space.LazyRange | src/core/vmm.c:343-361 | Every page of the range is reserved, or exactly those before the page where frames ran out or user space ended. |
| RangeFlat.ReservingIs | src/core/vmm.c:343-361 | Reserving page by page in the flat model keeps the invariant and makes exactly those pages lazy. |
| RangeFlat.ReserveAgrees | src/core/vmm.c:343-361 | Reserving a range in the tables is that fold, with the frames and slots of the pages it replaces dropped. |
| PageRange.Space.RangeUnmapped | src/core/vmm.c:540-552 | True if and only if no page of the range is mapped. |
| PageRange.Space.PopulatePage | src/core/vmm.c:248-269 | One page has a frame of its own or keeps the one it has; fails only without frames, and then changes nothing. |
| PageRange.Space.AllocRange | src/core/vmm.c:248-269 | Every page populated, or exactly those before the failing one; each new page has a different frame from the pool. |
| PageRange.PopulateIsFlat | src/core/vmm.c:248-269 | Populating a page of the tree is populating that page of the flat model. |
| FindFree.ScanFree | src/core/vmm.c:565-610 | A stretch of free pages extends the current run; once it is long enough the run is the first one. |
| FindFree.ScanUsed | src/core/vmm.c:565-610 | Used pages end the run and no earlier run was long enough. |
| FindFree.ScanPages | src/core/vmm.c:599-605 | The scan of one page table. |
| FindFree.ScanHole | src/core/vmm.c:569-585 | The scan of a stretch shown empty by an upper entry. |
| FindFree.ScanBlock | src/core/vmm.c:590-605 | One level 1 entry: table, marker or nothing. |
| FindFree.ScanBlocks | src/core/vmm.c:586-607 | One level 1 table. |
| FindFree.ScanTables | src/core/vmm.c:565-610 | The result is the first run of enough unmapped pages at or above the start; 0 means that there is none below the limit. |
| FindFree.Finder.Find | src/core/vmm.c:613-630 | With any hint in the cache the result is unmapped, and 0 still means there is nothing. |
| FindFree.Finder.Claim | src/core/vmm.c:633-641 | All pages reserved, or all views as before. |
| FindFree.NothingSkipped | src/core/vmm.c:633-641 | Taking back a half-done reservation skips no page, because the range was free. |
| FindFree.Finder.ClaimFixed | src/core/vmm.c:633-641 | A fixed range is freed and reserved; pages outside never change. |
| FindFree.Finder.MapAnon | src/core/vmm.c:633-641 | On success exactly the pages of the result are reserved, and unless the address was fixed they were unmapped. On failure at an address that was not fixed no view changed and there was no room or no frame; at a fixed address only pages of its range changed. |
| Tlb.StepInv | src/core/smp.c:17-29 | Every step of mapping, unmapping with deferred frees, access, request, service, interrupt-free waiting and address space switch keeps the shootdown invariant; spaces share 16 locks. |
| Tlb.RunInv | src/core/smp.c:169-184 | So does every run. |
| Tlb.NoStaleAccess | src/core/vmm.c:465-508 | In no run does a cpu reach a frame through a stale translation after that frame went back to the pool. |
| Tlb.OwnStep | src/core/smp.c:92-121 | A cpu that waits for nobody always has a step. |
| Tlb.WaiterProgress | src/core/smp.c:169-184 | A cpu in a shootdown can go on, or the cpu it waits for can. |
| Tlb.NoDeadlock | src/core/smp.c:92-121 | No deadlock among cpus that wait for a lock and cpus that wait for acknowledgements, because lock waiters serve requests. |
| Tlb.ProgressWorks | src/core/smp.c:169-184 | Every protocol step reduces a measure. |
| Tlb.DrainBound | src/core/smp.c:169-184 | However the cpus are scheduled, what is under way ends within that many steps. |
| Tlb.Drains | src/core/smp.c:169-184 | From every reachable state there is a way to the end with all requests served and all frames given back. |
| Bkl.StepRep | src/core/smp.c:52-90 | The 32-bit ticket counters stand for a queue, and every step moves them as the queue moves, wrap-around included. |
| Bkl.BootRep | src/core/smp.c:15 | The boot cpu starts as the owner with ticket 0. |
| Bkl.RunRep | src/core/smp.c:52-165 | So in every run. |
| Bkl.OneOwner | src/core/smp.c:52-79 | At most one cpu has the lock, and all waiting tickets differ. |
| Bkl.InTicketOrder | src/core/smp.c:52-79 | First come, first served: a cpu moves up by one for each ticket served and by nothing else. |
| Bkl.CasGoesThrough | src/core/smp.c:81-90 | The compare-and-exchange of bkl_try succeeds if and only if queue length plus tickets gone by since the load is a multiple of 2^32. |
| Bkl.TryOnlyFree | src/core/smp.c:81-90 | bkl_try gets the lock only when nobody has or wants it, as long as fewer than 2^32 tickets passed. |
| Bkl.TryTooOld | src/core/smp.c:81-90 | The exact condition under which it gets a lock that is taken. |
| Bkl.TwoOwners | src/core/smp.c:81-90 | A run from boot of two cpus at whose end both have the lock. |
| Bkl.YieldWhenWanted | src/core/smp.c:157-165 | bkl_yield lets go if and only if somebody waits. |
| Sched.StepInv | src/core/task.c:266-344 | Pick, switch, finish, leave, block (also inside finish), wake, exit and spawn, in any interleaving of cpus, keep the scheduler invariant. |
| Sched.RunInv | src/core/task.c:266-443 | So does every run. |
| Sched.OneCpuPerTask | src/core/task.c:266-344 | No task is on two cpus, not even while one is still leaving its stack. |
| Sched.TakenOnlyWhenOff | src/core/task.c:167-180 | A task is picked, and a dead slot with its stack reused, only when no cpu is on it or leaving it. |
| Sched.OnePicker | src/core/task.c:266-316 | At most one cpu is between pick and switch_to. |
| Sched.PickThenSwitch | src/core/task.c:397-443 | In every run picks and switches of a cpu alternate, and the lock is held exactly in between. |
| FairShare.Queue.Search | src/core/task.c:266-285 | The ready task with the highest priority, then least virtual run time, ties round robin. |
| FairShare.Queue.Finish | src/core/task.c:278-285 | The bookkeeping of pick and the switch. |
| FairShare.Queue.OnTick | src/core/task.c:364-413 | A timer tick refines the tick relation: charge, slice, pick and keep rule. |
| FairShare.PickedLeast | src/core/task.c:257-285 | Among time-sharing tasks the pick is behind all others but the running one. |
| FairShare.TickFair | src/core/task.c:397-413 | A tick keeps the tasks fair and charges the running one only. |
| FairShare.TickClose | src/core/task.c:397-413 | If the slice fits, the spread of run times stays inside the 30000 window and the sleeper clamp does not fire. |
| FairShare.CloseForever | src/core/task.c:397-413 | For ever: the window holds and every tick is charged to somebody. |
| FairShare.NotClose | src/core/task.c:397-413 | The converse: if the slice does not fit the window is left by its end. |
| FairShare.ChainExists | src/core/task.c:397-413 | From every state there are runs of every length, so the statements about runs are about something. |
| FairShare.WindowLeft | src/core/task.c:397-413 | A run that starts fair and inside the window and is outside after one slice. |
| FairShare.Shares | src/core/task.c:364-366 | Weighted by cost, the ticks of any two tasks differ by at most two windows, over any time. |
| FairShare.InProportion | src/core/task.c:364-366 | Shares are proportional to weights up to a constant where weight times cost agrees. |
| FairShare.OutOfProportion | src/core/task.c:364-366 | Where it does not, because 1048576 / weight is rounded, the deviation exceeds every bound in time. |
| FairShare.ProportionLeft | src/core/task.c:364-366 | Two tasks with weights 88761 and 1024: for every bound there is a run at whose end their shares are further than that from the proportion. |
| WaitList.OneList | src/core/wq.c:31-37 | No entry is on two queues or twice on one. |
| WaitList.UnlinkOk | src/core/wq.c:31-37 | Unlinking in the doubly linked representation removes that entry from that list only. |
| WaitList.PushOk | src/core/wq.c:81-89 | A new entry goes to the head of its list only. |
| WaitList.PushChain | src/core/wq.c:81-89 | And to the head of its waiter's chain only. |
| WaitList.Pool.constructor | src/core/wq.c:24-25 | All queues and chains are empty. |
| WaitList.Pool.Unlink | src/core/wq.c:31-37 | The entry leaves its list; all others stay in order; an entry on no list changes nothing. |
| WaitList.Pool.FindFree | src/core/wq.c:64-69 | A free entry, or none exists. |
| WaitList.Pool.FreeEntry | src/core/wq.c:64-71 | A free entry at once, or after the entries of dead tasks were collected; fails if and only if every entry belongs to a live waiter or a callback. |
| WaitList.UnlinkSifts | src/core/wq.c:31-37 | Unlinking an entry sifts exactly that entry out of all lists, in order. |
| WaitList.Pool.Add | src/core/wq.c:64-89 | The waiter is at the head of the queue and its entry at the head of its chain; everything else is as the search for an entry left it. |
| WaitList.Pool.FreeWaiter | src/core/wq.c:110-118 | Every list is the old one without the entries of the waiter, in order; chains of others stay. |
| WaitList.Pool.Collect | src/core/wq.c:39-47 | Every list is the old one without the entries of dead tasks, in order; chains of live waiters stay. |
| WaitList.Pool.AddCallback | src/core/wq.c:91-100 | A callback entry at the head of the queue, found as for a waiter. |
| WaitList.Pool.Delete | src/core/wq.c:102-108 | A callback entry leaves its list; entries of waiters are left alone. |
| WaitList.Pool.Wake | src/core/wq.c:120-130 | Exactly the waiters with an entry on the queue are marked. |
| WaitWake.StepInv | src/core/wq.c:110-178 | Any interleaving of waiters (add, test, sleep, free) and wakers (set condition, look at the head without the lock, wake) keeps the invariant. |
| WaitWake.RunInv | src/core/wq.c:110-178 | So does every run. |
| WaitWake.NoLostWakeup | src/core/wq.c:146-178 | In no run is the condition true and a waiter blocked with no wake on its way. |
| WaitWake.WakeArrives | src/core/wq.c:120-130 | The wake on its way finds the queue not empty and readies every blocked waiter. |
| SwapArea.OpenMeansRoom | src/core/swap.c:77-98 | Without bad pages an area counts as open if and only if it has a free slot. |
| SwapArea.RoomMeansOpen | src/core/swap.c:77-98 | An area with a free slot is always open. |
| SwapArea.FreshOk | src/core/swap.c:25-54 | An area that swap_on accepts, with at least 11 pages and any list of bad ones, is well formed. |
| SwapArea.WornOutChosen | src/core/swap.c:77-98 | Two 11-page areas, the first with all its pages bad: it still counts as open and is the one that is searched. |
| SwapArea.BadPageHidesRoom | src/core/swap.c:77-98 | Counterexample: on those areas swap_alloc returns -1 although the second one has free slots. |
| SwapArea.DupPut | src/core/swap.c:100-114 | Dup then put restores the area if and only if the byte was not 253. |
| SwapArea.Areas.Best | src/core/swap.c:81-83 | The open area with the highest priority, or none is open. |
| SwapArea.Areas.NextFit | src/core/swap.c:86-94 | The first free slot from the hint around the end, or none. |
| SwapArea.Areas.Alloc | src/core/swap.c:77-98 | Fails if and only if no area is open or the chosen one has no free slot; otherwise one slot goes from 0 to 1 and the used count follows. |
| SwapArea.Areas.Dup | src/core/swap.c:100-106 | One more reference, up to the sticky value. |
| SwapArea.Areas.Put | src/core/swap.c:108-114 | One less; a slot that reaches 0 is counted free. |
| Heap.AlignUp | src/core/heap.c:102-109 | The rounded size is at least the size asked for if and only if it is at most 2^64 - 16. |
| Heap.PayloadsApart | src/core/heap.c:57-95 | No two payloads overlap and all lie inside the arena. |
| Heap.SplitTiled | src/core/heap.c:70-84 | Splitting keeps the blocks an exact tiling of the arena. |
| Heap.MergeTiled | src/core/heap.c:86-95 | So does merging. |
| Heap.SplitTied | src/core/heap.c:70-84 | After the pointer updates of split_at the headers in memory are those of the split list. |
| Heap.MergeTied | src/core/heap.c:86-95 | And after merge_next those of the merged list. |
| Heap.AllocLive | src/core/heap.c:102-130 | The block handed out is new, long enough, and no other live block changed. |
| Heap.FreeLive | src/core/heap.c:193-217 | Freeing removes exactly that block from the live ones. |
| Heap.GrowLive | src/core/heap.c:229-256 | Growing keeps the address and all other live blocks. |
| Heap.AllocPairs | src/core/heap.c:102-130 | No two neighbours are free after an allocation. |
| Heap.FreePairs | src/core/heap.c:193-217 | Nor after a free. |
| Heap.GrowPairs | src/core/heap.c:229-256 | Nor after growing. |
| Heap.Arena.constructor | src/core/heap.c:57-68 | One free block. |
| Heap.Arena.SplitAt | src/core/heap.c:70-84 | The linked headers represent the split list; the rover is still a block. |
| Heap.Arena.MergeNext | src/core/heap.c:86-95 | The linked headers represent the merged list; the rover leaves a block that is gone. |
| Heap.Arena.TakeBlock | src/core/heap.c:112-117 | The block is trimmed and taken, the rover moves behind it. |
| Heap.Arena.Alloc | src/core/heap.c:102-130 | Next fit: 0 if and only if nothing was asked for or no free block is long enough; otherwise the first fitting block from the rover around the end. |
| Heap.Arena.AllocAtLeast | src/core/heap.c:102-130 | What is handed out is disjoint from all that was live, and it is as long as asked for if and only if the request is at most 2^64 - 16. |
| Heap.WrappedRequest | src/core/heap.c:102-130 | On every fresh arena a request above 2^64 - 16 is met, by a block of a few bytes. |
| Heap.Arena.MergeAround | src/core/heap.c:206-217 | The freed block and its free neighbours become one. |
| Heap.Arena.Free | src/core/heap.c:193-217 | The list with that block freed; a block that is free already is reported and nothing changes. |
| Heap.Arena.Widen | src/core/heap.c:243-255 | The next block is merged in and the rest split off. |
| Heap.Arena.Grow | src/core/heap.c:229-256 | Succeeds if and only if the block is long enough alone or with a free successor. |
| Heap.Arena.Check | src/core/heap.c:289-317 | The consistency walk finds no fault in any reachable heap. |
| Heap.Arena.Serve | src/core/heap.c:102-256 | One request of any kind does exactly its part, failures included, and callers' blocks stay valid. |
| Heap.Arena.Drive | src/core/heap.c:102-256 | Any sequence of requests: each step is served as specified, all pointers held are live, pairwise disjoint and long enough. |
| Reloc.SortedOk | src/core/kernel.c:187-192 | The insertion sort gives a permutation in descending order. |
| Reloc.SortedClear | src/core/kernel.c:187-192 | Modules that do not overlap stay clear of each other in sorted order. |
| Reloc.MovesUp | src/core/kernel.c:194-202 | A page-aligned module below the top never moves down. |
| Reloc.DestsOk | src/core/kernel.c:193-204 | Destinations lie between the floor and the top, each below the one before. |
| Reloc.DestsApart | src/core/kernel.c:194-202 | So no two kept modules overlap. |
| Reloc.HalfStep | src/core/kernel.c:194-202 | Moving one module destroys no byte of a module that has not moved yet. |
| Reloc.Machine.Move | src/core/kernel.c:198 | memmove: the bytes arrive whatever the overlap, nothing else changes. |
| Reloc.Machine.Sort | src/core/kernel.c:187-192 | The table is sorted in place. |
| Reloc.Machine.InsertLast | src/core/kernel.c:188-191 | One round of the sort inserts one entry. |
| Reloc.Machine.MoveOne | src/core/kernel.c:195-201 | One module goes to its place below the top. |
| Reloc.Machine.Slide | src/core/kernel.c:194-204 | The loop keeps the modules that fit above 128 MiB, at their computed places. |
| Reloc.Machine.Load | src/core/kernel.c:178-185 | The loader's table is copied. |
| Reloc.PlacesApart | src/core/kernel.c:172-205 | The places of the kept modules are disjoint and between the floor and the end of low memory. |
| Reloc.Machine.Relocate | src/core/kernel.c:172-205 | The kept modules are disjoint and inside [floor, lowEnd), floor and count are as computed, and every kept module has all its bytes at the new place, for modules in any order that do not overlap, start at page boundaries and end at or below the aligned top. |
| Bits.GetLow | src/apps/imgdec.c:27-31 | Reading n bits gives back the number whose low n bits were written. |
| Bits.NextBit | src/apps/imgdec.c:16-25 | The lowest bit left over is the next bit of the stream. |
| Bits.Reader.constructor | src/apps/imgdec.c:66 | The reader starts at bit 0. |
| Bits.Reader.GetBit | src/apps/imgdec.c:16-25 | The next bit of the stream, or -1 exactly at its end. |
| Bits.Reader.Take | src/apps/imgdec.c:27-31 | The next n bits, least significant first, or -1 and then the reader is at the end. |
| Huffman.Beyond | src/apps/imgdec.c:43-57 | A prefix of a longer canonical code lies beyond all codes of its length. |
| Huffman.KthBefore | src/apps/imgdec.c:33-41 | A symbol's index among those of its length finds the symbol. |
| Huffman.DecMoves | src/apps/imgdec.c:43-57 | A decoded symbol uses at least one bit and is in range. |
| Huffman.DecCode | src/apps/imgdec.c:43-57 | For every length table that is not over-subscribed each symbol's canonical code decodes to that symbol and uses exactly its bits. |
| Huffman.Table.Count | src/apps/imgdec.c:35-37 | Counts of codes per length, for any lengths; the index leaves the array if and only if a length is above 15. |
| Huffman.Table.Offsets | src/apps/imgdec.c:38-39 | Start of each length in the symbol table. |
| Huffman.Table.Place | src/apps/imgdec.c:40 | Every coded symbol at its canonical place. |
| Huffman.Table.Build | src/apps/imgdec.c:33-41 | The indices stay in the arrays if and only if no length is above 15; then the two arrays represent the canonical code of the lengths. |
| Huffman.Table.TryLength | src/apps/imgdec.c:46-55 | One round of the decoder agrees with the specification. |
| Huffman.Table.Decode | src/apps/imgdec.c:43-57 | The decoder on the arrays is the decoder on the lengths. |
| Deflate.AnyMatch | src/apps/imgdec.c:59-62 | Every match of 3 to 258 bytes at distance up to 32768 has a code in the tables. |
| Deflate.OneSymMoves | src/apps/imgdec.c:117-130 | Every symbol uses input, so the loop ends. |
| Deflate.MatchDecodes | src/apps/imgdec.c:122-129 | An encoded match is decoded to its copy, overlapping copies included. |
| Deflate.TokDecodes | src/apps/imgdec.c:117-130 | So is every token. |
| Deflate.BodyDecodes | src/apps/imgdec.c:117-130 | For any usable code lengths decoding an encoded token sequence gives its expansion and ends at the end-of-block symbol. |
| Deflate.FixedNotOver | src/apps/imgdec.c:85-93 | The fixed code is not over-subscribed. |
| Deflate.StoredDecodes | src/apps/imgdec.c:73-82 | A stored block round trips, from any bit position. |
| Deflate.ItemDecodes | src/apps/imgdec.c:104-112 | One run-length item of the code length sequence round trips. |
| Deflate.ItemsDecode | src/apps/imgdec.c:102-113 | The whole sequence does. |
| Deflate.ClDecodes | src/apps/imgdec.c:95-99 | The permuted code length code round trips. |
| Deflate.ClReadFits | src/apps/imgdec.c:97-99 | Reading the code length code as the code does, with 255 for a number behind the end: all entries fit the table if and only if all their bits are there. |
| Deflate.HeaderFits | src/apps/imgdec.c:94-101 | The indices of huff_build stay in bounds for a dynamic header if and only if its 14 bits and its 3 bits per code length are there. |
| Deflate.CutHeaderBad | src/apps/imgdec.c:94-101 | A dynamic block without them means nothing in the format. |
| Deflate.StraysBad | src/apps/imgdec.c:65-133 | So no valid stream leads the decoder there. |
| Deflate.PlanDecodes | src/apps/imgdec.c:94-116 | The header of a dynamic block gives back both tables. |
| Deflate.InsideDecodes | src/apps/imgdec.c:72-130 | Each kind of block round trips. |
| Deflate.BlockDecodes | src/apps/imgdec.c:69-131 | A block with its header round trips, and the last one ends the stream. |
| Deflate.InflateInverts | src/apps/imgdec.c:65-133 | Inflating the encoding (RFC 1951) of any sequence of stored, fixed and dynamic blocks gives exactly their expansion. |
| Inflate.Decoder.CopyMatch | src/apps/imgdec.c:129 | The byte by byte copy is the overlapping copy of the specification. |
| Inflate.Decoder.OneMatch | src/apps/imgdec.c:122-129 | Length, distance, checks and copy as specified; with a number cut off it may go on with -1, but then the input is at its end. |
| Inflate.Decoder.OneSymbol | src/apps/imgdec.c:118-129 | One symbol as specified; where the specification fails it fails or is at the end of the input. |
| Inflate.Decoder.Symbols | src/apps/imgdec.c:117-130 | The symbol loop as specified; it ends. |
| Inflate.Decoder.StoredBlock | src/apps/imgdec.c:73-82 | A stored block as specified. |
| Inflate.Decoder.CopyIn | src/apps/imgdec.c:79-80 | The bytes of a stored block. |
| Inflate.Decoder.ReadCl | src/apps/imgdec.c:97-99 | The code length code as the code reads it, 255 for a number behind the end; as specified where all are there. |
| Inflate.Decoder.OneLength | src/apps/imgdec.c:104-112 | One code length symbol as specified, bounds included; a repeat count that is cut off leaves the input at its end. |
| Inflate.Decoder.ReadLens | src/apps/imgdec.c:102-113 | All code lengths as specified. |
| Inflate.Decoder.ReadTables | src/apps/imgdec.c:95-115 | Goes out of bounds if and only if a code length code length is cut off; otherwise both tables as specified, or failure, or the end of the input. |
| Inflate.Decoder.DynamicHeader | src/apps/imgdec.c:94-116 | Goes out of bounds if and only if the header is cut off; otherwise as specified. |
| Inflate.Decoder.OneBlock | src/apps/imgdec.c:72-130 | One block of any kind, or an invalid kind: out of bounds if and only if it is dynamic with its header cut off, otherwise exactly as specified, failures included. |
| Inflate.Decoder.Run | src/apps/imgdec.c:65-133 | For every input: indices leave the arrays if and only if the decoder comes to a dynamic block whose header is cut off; on all other inputs it returns what the specification returns, -1 included, never writes beyond the buffer, and ends. |
| Inflate.CutHeaderStrays | src/apps/imgdec.c:94-101 | Four bytes on which it does come there. |
| Inflate.Decompress | src/apps/imgdec.c:65-133 | On every valid stream the program writes exactly the original bytes. |
| Flood.ConnRun | src/apps/paint.c:171-174 | A run of one colour belongs to the component of any of its pixels. |
| Flood.FillCovers | src/apps/paint.c:168-184 | After a run is painted and its sides seeded, every open edge of the filled part has a seed. |
| Flood.FillSound | src/apps/paint.c:171-174 | Painting a maximal run paints only the component. |
| Flood.FillShrinks | src/apps/paint.c:174 | It reduces the pixels of the old colour by exactly its length. |
| Flood.PopStale | src/apps/paint.c:168-170 | A seed painted meanwhile can be dropped. |
| Flood.AllTurned | src/apps/paint.c:167-185 | With no seed left the whole component is painted. |
| Flood.Canvas.Widen | src/apps/paint.c:171-173 | The maximal run around a pixel. |
| Flood.Canvas.Paint | src/apps/paint.c:174 | Exactly that run changes. |
| Flood.RowSeeds | src/apps/paint.c:175-184 | The seeds of a row lie on runs that touch the painted one, every such run has one, and there are at most half as many as pixels. |
| Flood.Canvas.PushSeeds | src/apps/paint.c:175-184 | The loop pushes the first pixel of every run, in order, as long as the stack has room. |
| Flood.Canvas.SeedRow | src/apps/paint.c:175-184 | A seed for every run of the row that touches the painted one; one is lost exactly when the stack has no room for all. |
| Flood.Canvas.FillRun | src/apps/paint.c:168-184 | One seed handled: picture and stack afterwards are those of the round as a function, with the stack bounded by the pixels painted; a seed is lost exactly when those of the two rows do not fit. |
| Flood.Canvas.PopSeed | src/apps/paint.c:167-184 | The seed on top is dropped or its run painted, and the rest of the fill, with whether it loses a seed, is what it was going to be. |
| Flood.Canvas.Fill | src/apps/paint.c:157-187 | The picture in the end is that of the rounds as a function. Only the 4-connected component of the start changes, always; all of it unless a round finds the stack too full for its seeds, which is a predicate of the picture and the start (`Loses`) and is false while fewer than 16384 pixels have the old colour; ends on every canvas. |
| FloodRuns.SeedTouch | src/apps/paint.c:171-184 | Every seed stands for a run that touches the painted one. |
| FloodRuns.SeedPairs | src/apps/paint.c:175-184 | The seeds of a row stand for as many different pairs of touching runs. |
| FloodRuns.TouchStays | src/apps/paint.c:171-174 | Painting a whole run makes no new pair of touching runs and ends all of its own. |
| FloodRuns.PaintedPairs | src/apps/paint.c:171-184 | The seeds found beside a painted run are no more than the pairs of touching runs the picture loses with it. |
| FloodRuns.RoundPairs | src/apps/paint.c:167-184 | Stack and touching pairs together never grow in a round, and a round that loses a seed has more of both than the stack has places. |
| FloodRuns.LosesMeansMany | src/apps/paint.c:157-187 | A fill that loses a seed starts from a picture with more than 16384 pairs of touching runs of the old colour. |
| FloodRuns.FillFew | src/apps/paint.c:157-187 | With at most 16384 such pairs, and memory for the stack, the fill reaches the whole component, however many pixels it has. |
| FloodRuns.BlankFew | src/apps/paint.c:90-92 | A picture of one colour has fewer such pairs than rows, however wide it is. |
| FloodComb.Levels | src/apps/paint.c:157-187 | On the comb picture every full row leaves 495 seeds behind, row after row. |
| FloodComb.AloneStays | src/apps/paint.c:168-184 | A pixel without a seed and without a neighbour of its colour keeps its colour to the end. |
| FloodComb.CombLeft | src/apps/paint.c:157-187 | A picture of 992 by 101 pixels, which the program's canvas has room for, on which the fill leaves a pixel of the component, for any three colours. |
| PageCache.FillSlot | src/core/pcache.c:47-79 | A freshly read page keeps the cache consistent: one frame per page, one reference of the cache each, file bytes unless shared. |
| PageCache.FewerOk | src/core/pcache.c:81-91 | Dropping pages keeps it. |
| PageCache.RewriteOk | src/core/pcache.c:116-130 | Rewriting frames that agree with the file again keeps it. |
| PageCache.SyncedOk | src/core/pcache.c:140-153 | Copying a frame into the file makes that page agree and disturbs no other page. |
| PageCache.SecondChance | src/core/pcache.c:182-203 | A page with the clock bit outlives one visit of the hand but not two, unless it is mapped or its file shared; then it outlives all. |
| PageCache.ClockReclaims | src/core/pcache.c:182-203 | Whatever way the hand went, only pages with the single reference of the cache and of unshared files are gone. |
| PageCache.Cache.constructor | src/core/pcache.c:19-23 | Nothing is cached. |
| PageCache.Cache.Uncache | src/core/pcache.c:81-91 | One page leaves the cache with exactly the cache's reference. |
| PageCache.Cache.Get | src/core/pcache.c:47-79 | The cached frame, or a fresh one with the bytes of the file and zeros behind its end, with one reference for the caller; 0 if and only if the page is behind the end, a node or an array that is needed cannot be had, or no frame is free, and then no page and no reference changed. |
| PageCache.Cache.FetchNew | src/core/pcache.c:69-78 | A page not cached yet. |
| PageCache.Cache.FetchOld | src/core/pcache.c:69-78 | A page cached already. |
| PageCache.Cache.MakeRoom | src/core/pcache.c:51-68 | Node and array long enough, with no cached page moved; fails exactly when a needed allocation does, and a node may stay behind without its array. |
| PageCache.Cache.Drop | src/core/pcache.c:81-91 | All frames of the file leave the cache, the node goes, and the clock hand is not left on it. |
| PageCache.Cache.StoreShared | src/core/pcache.c:93-114 | A user store into a shared frame keeps the cache consistent. |
| PageCache.Cache.Refill | src/core/pcache.c:121-127 | Every frame of a shared file has the bytes of the file again. |
| PageCache.Cache.WriteFile | src/core/pcache.c:116-130 | After a write every page still cached shows the new file. |
| PageCache.Cache.Share | src/core/pcache.c:105-107 | The mark for shared mappings and its counter. |
| PageCache.Cache.SyncPage | src/core/pcache.c:146-150 | One page of the file gets the bytes of its frame; the result says whether it changed. |
| PageCache.Cache.Sync | src/core/pcache.c:140-153 | The file agrees with all frames of the range, bytes outside the range stay, and the result is true if and only if the file changed. |
| PageCache.Cache.Mapped | src/core/pcache.c:173-176 | True if and only if somebody besides the cache refers to a frame of the file. |
| PageCache.Cache.SyncFile | src/core/pcache.c:170-178 | One file synced; it stays shared if and only if it was and is still mapped. |
| PageCache.Cache.SyncAll | src/core/pcache.c:167-180 | Afterwards every file of its own data agrees with all its frames, and exactly the mapped ones stay shared. |
| PageCache.Cache.After | src/core/pcache.c:189 | The next file on the list, around the end. |
| PageCache.Cache.Visit | src/core/pcache.c:190-199 | One page under the hand. |
| PageCache.Cache.Turn | src/core/pcache.c:186-199 | One step of the hand, to a page or on to the next file. |
| PageCache.Cache.Reclaim | src/core/pcache.c:182-203 | The hand goes over the pages in order from where it was; each page is exactly what its number of visits makes of it; the result is the number of pages dropped; it stops short of the goal only after 2 * npages + 64 steps or with nothing to step on. |
| Css.KeyHit | src/apps/browser.c:1231-1234 | A rule that applies to an element is filed where that element looks. |
| Css.AddIndexed | src/apps/browser.c:1231-1235 | Filing a rule at the head of its chain keeps the index complete. |
| Css.VisitOk | src/apps/browser.c:2464-2470 | Looking at a rule for the first time keeps the list exact and free of duplicates. |
| Css.TooMany | src/apps/browser.c:2464-2470 | A match that is not in the list means that more rules apply than are listed. |
| Css.ListCount | src/apps/browser.c:2464-2470 | A list that is complete unless it is full has as many matches as there are, up to 600, and has them all if and only if there are at most 600. |
| Css.RankOrders | src/apps/browser.c:2480-2491 | The packed sort key orders rules as the cascade does, for specificities below 2^24. |
| Css.InsertSorts | src/apps/browser.c:2480-2491 | Insertion keeps the list sorted. |
| Css.Collected | src/apps/browser.c:2473-2493 | What the sort leaves is duplicate free, exactly the applying rules if they fit, in cascade order. |
| Css.Sheet.constructor | src/apps/browser.c:1206-1240 | An empty sheet. |
| Css.Sheet.Add | src/apps/browser.c:1226-1240 | The rule is last in source order and found by its key; a full table takes none. |
| Css.Sheet.AddChain | src/apps/browser.c:2464-2470 | Every rule of a chain is looked at once, whatever chains it is on. |
| Css.Sheet.Look | src/apps/browser.c:2466-2468 | One rule is stamped and added if it applies. |
| Css.Sheet.Gather | src/apps/browser.c:2473-2479 | All chains the element looks at: id, classes, tag, rules without a key. |
| Css.Sheet.Find | src/apps/browser.c:2473-2479 | Every rule that applies has been looked at. |
| Css.Sheet.SortMatches | src/apps/browser.c:2480-2492 | Sorted in place, a permutation. |
| Css.Sheet.Sink | src/apps/browser.c:2481-2491 | One round of the sort. |
| Css.Sheet.Collect | src/apps/browser.c:2473-2493 | The bucket index gives the same rules as trying every rule on the element, each once, if and only if at most 600 apply; with more, 600 of them. Always in the order of the cascade, for specificities below 2^24. |

## Left out

- Memory: shared memory segments filled on touch, `mmio_map`, runs of frames, the kernel half of the
  tables and addresses inside a page; addresses are page numbers, so `va + len` does not wrap.
- Memory: `vmm_copy_to`, page counting and `vmm_swap_find` would only add easy members.
- VmOps.SwapInGood: the slot is read and the entry replaced in one step; `SwapIn` splits the step in two. Failing
  disk reads and the four retries are left out, since a failed try changes nothing.
- VmRuns.RunRefines: its labels name frames and entries of the state they start from; `VmMachine` does without.
- VmFork.Spaces.DestroySpace: the cpus that have the space loaded are left out.
- PageRange.Space.SweepRange: frames that a sweep releases come back after it, as with the deferred lists; where
  the code releases them at once, on one cpu or beyond 256 frames, they can serve a later marker.
- PageRange.Space.LazyRange: the frames of replaced pages do not come back to the set of free frames; the flat
  model of `RangeFlat` counts them.
- SwapOut.Reclaim.Flush: runs without other cpus between its steps; `VmRuns` has the same steps in any interleaving.
- FindFree.Finder.Find: does not promise that the run ends below the limit, which the code does not check;
  the adjustment of the hint when a range is freed is left out, since any hint is sound.
- FindFree.Finder.Find: with a hint the result need not be the first run.
- Tlb.NoStaleAccess: frees that are not deferred, replacement of one frame by another and `tlb_unload` are
  not steps of the model.
- Bkl.StepRep: profiling and interrupts inside `bkl_yield` are left out.
- Sched.StepInv: making a task ready is one atomic step and new tasks are made under the big lock.
- FairShare.CloseForever: a fixed set of runnable time-sharing tasks on one cpu; sleepers and real-time
  tasks appear in `OnTick` only.
- FairShare.OutOfProportion: asks that every weight is below 1048576, so that every tick costs something.
- WaitWake.NoLostWakeup: sequentially consistent memory; killed waiters and `wq_drain` are no steps.
- Heap.Arena.Free: a pointer to a block that was merged away by an earlier free is not a block of the list;
  the debug build with red zones and the second arena are left out.
- Reloc.Machine.Relocate: names are carried but not cut to 63 characters; the multiboot flags are taken as set.
- PageCache.Cache.Get: whether a node or an array can be had is a parameter; reference bytes do not stick.
- SwapArea.FreshOk: areas have at most 2^28 pages, so that a slot number fits its field.
- Huffman.Table.Place: takes the lengths that the counting loop before it came through with.
- PageCache.Cache.Reclaim: the lock is held throughout, as in the code.
- PageCache.Cache.SyncAll: user stores take no lock, so one could come, with an unmapping, between the sync of a file
  and the test whether it is still mapped; here both are one step.
- Inflate.Decoder.Run: ends at an index outside its array, with no statement on what follows. PNG, JPEG and GIF
  around the decoder are left out.
- Css.Sheet.Add: the selector is given as parsed; the limit on compounds over all rules is left out.
- Css.KeyHit: attribute, pseudo-class and `:not` conditions of a compound are one arbitrary condition; the
  stamp counter does not wrap.
- Drivers, file systems, network, window system, processes and system calls are not modelled.
