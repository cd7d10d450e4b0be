# Kernel mount models, proved for every size

The repository models pieces of the Linux mount code: who owns an unmounted mount,
the lockless mount reference count, mount propagation, WRITE_HOLD, the RCU path
walk, the order in which a dying descriptor table is closed, and the tools around
them (a litmus translator, a trace converter, a bounded-checking harness).  Those
models were explored on small fixed layouts.  This project states the same models
in Dafny and proves their claims for any number of tasks, CPUs, mounts,
superblocks and descriptors, with every fix of the repository in place.

`dafny verify dfyconfig.toml` verifies everything.

## How it is organised

| files | subject |
|---|---|
| `Finite` | sums over finite sets, cycles in finite graphs |
| `MntOwn`, `MntOwnCount`, `MntOwnSteps`, `MntOwnRuns`, `MntOwnTheorems`, `MntOwnFates` | ownership of unmounted mounts: the state machine, the counting invariant, each action, termination and what keeps itself alive, the claims, and what becomes of every mount in an umount |
| `MountTree`, `PropIterator` | the mount table, propagation_next() |
| `PropUmount`, `PropGather`, `PropTrim`, `PropLocked`, `PropVictims`, `PropExpected` | propagate_umount(): the operations and the declarative set, then each phase, then the whole, then with the unlocking before it |
| `PropReparent`, `PropOver`, `PropPrivate`, `PropSegments`, `PropWhole` | sliding surviving overmounts down, with the overmount fields; bulk_make_private(); the order of slave lists; umount_tree() put together |
| `MntPut`, `MntPutInv`, `MntPutBuf`, `MntPutCore`, `MntPutSteps`, `MntPutSum`, `MntPutFlush`, `MntPutLock`, `MntPutDecide`, `MntPutTheorems`, `MntPutExact`, `MntPutFreed`, `MntPutEnd`, `MntPutBound` | the reference count under weakly ordered stores: the state machine, its invariant, store buffers and split sums, groups of steps, the safety claims; why an umount is refused, a put is not the last or a walker is lost; that the mount is freed in the end, and that the end comes |
| `MntBatch` | mnt_get_count() and mntput_unmounted() as code, with holders and walkers interfering between any two reads |
| `MntWriters`, `MntWritersProof`, `MntWritersExact` | WRITE_HOLD under TSO: safety; why the holder or a writer is refused, and that every run ends |
| `MountWalk`, `MountWalkProof`, `MountWalkUnchecked`, `MountWalkScope`, `MountWalkEnds`, `MountWalkSteps` | the RCU walk against the locked walk; the one exit it does not recheck; that a walk stays below its root; that it ends; what ".." and the writers' sections come to |
| `CloseOrder` | deferred, ascending and descending close |
| `AsmGen`, `AsmGenProof`, `AsmGenFilter`, `AsmGenOrder` | the litmus-to-assembly translator: the code, that it can do what the program does, that it does nothing else and what the filter keeps, and that it orders what the program orders |
| `TraceLedger` | attribution of trace events |

The invariants carry the proofs.  For ownership, every reference count equals the
number of tokens that justify it, puts and superblock drops not yet carried out
included, so that a cascade in the middle is as exact as a settled state.  For the
reference count, every put is behind a barrier in its buffer and leaves a
reference visible if one is held, so that the puts-then-gets sum is at least what
its caller holds, and larger unless everybody else is bound to lose; "bound to
lose" is stable from then on.  For the RCU walk, as long as the sequence count is
the one sampled, what is left of the walk is what is left of the locked one.  For
trimming, everything above a mount trim_ancestors() has been through is done,
whatever the order of the candidate list.

## Model

| member | source | states |
|---|---|---|
| `MntOwnCount.PutKeeps` | kernel/mount-ownership/tla/MntOwn.tla:129-147 | one mntput() consumes one justified reference and leaves every count of every mount and superblock exact, through the tombstone, doom and unhash cases |
| `MntOwnCount.DropSbKeeps` | kernel/mount-ownership/tla/MntOwn.tla:149-165 | deactivate_super() and its whole cascade, into a mount or into the next superblock, keeps every count exact and comes to an end |
| `MntOwnSteps.CleanupKeeps` | kernel/mount-ownership/tla/MntOwn.tla:167-179 | whatever is queued can be cleaned, in both visits of a tombstone, and cleanup keeps every count exact |
| `MntOwnSteps.UmountKeeps` | kernel/mount-ownership/tla/MntOwn.tla:183-232 | umount_tree() of any subtree under any of the rules, the victims that pin a victim disconnected and the mounts earlier umounts left connected looked at again, keeps every count exact |
| `MntOwnFates.UmountFates` | kernel/mount-ownership/tla/MntOwn.tla:183-288 | every umount of every run, lazy, synchronous, by rmdir or at the end of the namespace, on the fields: exactly the mounts below its top leave the namespace; one of them stays with its parent, and off the list, if and only if it is not the top, the umount is not synchronous but is connected or the mount locked, and it pins no dying mount where that counts; of the others only those left over that pin one lose their parent; who loses its parent is listed once, in the order namespace_unlock() puts them; nothing else changes |
| `MntOwnFates.SyncIff` | kernel/mount-ownership/tla/MntOwn.tla:253-260 | a synchronous umount is possible exactly for an unlocked mount of the live namespace that nothing is attached to and nobody holds |
| `MntOwnFates.SyncIsLast` | kernel/mount-ownership/tla/MntOwn.tla:253-260 | it takes that mount alone, and the one put it owes is the last: the mount is doomed by it |
| `MntOwnFates.TopUnlocked` | kernel/mount-ownership/tla/MntOwn.tla:245-288 | only rmdir of the mountpoint, or the end of the namespace, takes the tree below a locked mount, and only the latter the namespace's root |
| `MntOwnRuns.StepRuns` | kernel/mount-ownership/tla/MntOwn.tla:242-327 | every action keeps the invariant and every set of mounts or superblocks that keeps itself alive, and lowers the work left, unless the state is settled and stands still |
| `MntOwnTheorems.RunsAreSafe` | kernel/mount-ownership/tla/MntOwn.tla:333-359 | in every state of every run no count is negative, nothing freed is still pointed at, and a superblock-less mount is a tombstone without children |
| `MntOwnTheorems.RunsSettle` | kernel/mount-ownership/tla/MntOwn.tla:296-329 | a run that keeps changing has at most as many steps as there was work, and a state that is not settled has a successor |
| `MntOwnTheorems.RunsClear` | kernel/mount-ownership/tla/MntOwn.tla:190-223 | pinner rule: in no state of any run does an unmounted mount left with its parent pin a mount that is coming down |
| `MntOwnTheorems.LeaksAreCycles` | kernel/mount-ownership/tla/MntOwn.tla:361-378 | tombstone rule, and pinner rule with reexamination: once settled, every mount not freed is in the closure kept alive by a set of mounts each pinned by the live superblock of a member |
| `MntOwnTheorems.PinnersSurvivors` | kernel/mount-ownership/tla/MntOwn.tla:361-378 | pinner rule with reexamination, exactly: once settled, a mount is still pinned if and only if it is in a self-pinned set of the layout |
| `MntOwnTheorems.PinnersReapedIff` | kernel/mount-ownership/tla/MntOwn.tla:348-378 | pinner rule with reexamination: a settled run has reaped everything if and only if the pins contain no cycle |
| `MntOwnTheorems.TombstoneSurvivors` | kernel/mount-ownership/tla/README.md:74-117 | tombstone rule, exactly: a mount keeps its filesystem if and only if it is in a self-pinned set of the layout, whatever the run did |
| `MntOwnTheorems.SurvivorOnCycle` | kernel/mount-ownership/tla/README.md:74-117 | every survivor hangs off a genuine cycle of distinct mounts, each pinned by the superblock of the next |
| `MntOwnTheorems.TombstoneReapedIff` | kernel/mount-ownership/tla/MntOwn.tla:348-378 | tombstone rule: a settled run has reaped everything if and only if the pins contain no cycle |
| `MntOwnTheorems.MountsReaped` | kernel/mount-ownership/tla/MntOwn.tla:380-383 | internal-clone rule: once settled every mount is freed |
| `MntOwnTheorems.CloneSurvivors` | kernel/mount-ownership/tla/MntOwn.tla:385-396 | internal-clone rule, exactly: a superblock is up if and only if it is in a set of superblocks each carrying the file of a member |
| `MntOwnTheorems.SuperOnCycle` | kernel/mount-ownership/tla/MntOwn.tla:385-396 | every superblock left up is reachable from a genuine cycle of superblock pins |
| `MntOwnTheorems.CloneReapedIff` | kernel/mount-ownership/tla/MntOwn.tla:380-396 | internal-clone rule: everything is reaped if and only if no superblocks keep each other's files in a cycle |
| `PropIterator.IteratesReceivers` | kernel/mount/tla/MountTree.tla:158-238 | propagation_next() from any mount ends, having visited every member of the declarative receiver closure exactly once and nothing else |
| `PropIterator.WalkUnique` | kernel/mount/tla/MountTree.tla:221-224 | the walk is determined by where it starts |
| `PropIterator.ReceiversUnder` | kernel/mount/tla/MountTree.tla:226-238 | the receiver closure is what hangs off the peer ring by masters |
| `PropGather.SkipLeads` | kernel/mount/tla/MountTree.tla:184-188 | skip_propagation_subtree() passes over mounts that receive from the skipped one only, and resumes the same walk |
| `PropGather.GathersCognates` | kernel/mount/tla/Propagation.tla:396-421 | gather_candidates() finds exactly the cognates of the unmounted set, each listed once, although it skips parts of its walks |
| `PropTrim.AncestorsTrim` | kernel/mount/tla/Propagation.tla:424-431 | trim_ancestors() removes only candidates a survivor would be shifted from, and leaves everything above the mount done |
| `PropTrim.TrimsShifting` | kernel/mount/tla/Propagation.tla:433-450 | trimming in any list order keeps exactly the maximal non-shifting subset |
| `PropTrim.OneRound` | kernel/mount/tla/Propagation.tla:689-693 | dropping the forbidden elements once reaches the maximal non-shifting subset |
| `PropLocked.ChainCut` | kernel/mount/tla/Propagation.tla:453-462 | below a mount that stays, the part of a candidate chain that may go is what hangs off its highest unlocked mount |
| `PropLocked.HandleKeeps` | kernel/mount/tla/Propagation.tla:463-469 | handle_locked() drops a chain and commits exactly its free part |
| `PropLocked.RevealingIsFree` | kernel/mount/tla/Propagation.tla:694-698 | the maximal non-revealing subset is the mounts with an unlocked or unmounted one above and only candidates between |
| `PropVictims.CommitsVictims` | kernel/mount/tla/Propagation.tla:382-498 | gather, trim and handle_locked commit exactly the non-revealing part of the non-shifting part of the tree and its cognates, each mount once |
| `PropVictims.VictimsGreatest` | kernel/mount/tla/Propagation.tla:686-705 | that set is non-shifting and non-revealing, and contains every subset that is both |
| `PropVictims.SubtreeDoomed` | kernel/mount/tla/Propagation.tla:700-705 | the tree below a hashed unlocked mount can be unmounted as a whole and is contained in its own victim set |
| `PropExpected.UmountTakesExpected` | kernel/mount/tla/Propagation.tla:600-608 | umount_tree() with propagation, the cognates unlocked first, takes out exactly ExpectedVictims, the tree itself included |
| `PropExpected.UnlockedByWalk` | kernel/mount/tla/Propagation.tla:503-507 | what propagate_mount_unlock() meets on its walk is what the cognates of the mount are |
| `PropExpected.UnlockClears` | kernel/mount/tla/Propagation.tla:503-507 | propagate_mount_unlock() on the fields: it clears the lock of the hashed mounts on a receiver of the parent at the mount's own place, and writes nothing else |
| `PropOver.ReparentsSurvivors` | kernel/mount/tla/Propagation.tla:472-498 | after the reparent loop every survivor on a victim is at its declared target, every other mount is where it was, children lists are exact, the overmount field of a survivor is what now covers its root, or what it was if nothing that stays does, and no other field differs |
| `PropOver.CoverAll` | kernel/mount/tla/MountTree.tla:248-256 | the overmount fields, mount by mount |
| `PropReparent.TargetsDistinct` | kernel/mount/tla/Propagation.tla:716-720 | distinct survivors slide to distinct places |
| `PropReparent.NoCollision` | kernel/mount/tla/Propagation.tla:733-745 | after reparenting no two survivors share a place |
| `PropReparent.SurvivorPlaced` | kernel/mount/tla/Propagation.tla:737-740 | a survivor ends below a survivor nearer the root; one that slid took the place of the bottom of its own stack of doomed overmounts |
| `PropPrivate.SeverKeeps` | kernel/mount/tla/Propagation.tla:347-355 | taking a mount out of ring, group and slave list leaves every other ring equal to its group |
| `PropPrivate.Traces` | kernel/mount/tla/Propagation.tla:347-358 | trace_transfers() severs a chain of victims that all have the destination it returns |
| `PropPrivate.SetsDestinations` | kernel/mount/tla/Propagation.tla:360-364 | set_destinations() points exactly that chain at the destination |
| `PropPrivate.MakesPrivate` | kernel/mount/tla/Propagation.tla:320-380 | bulk_make_private() on any victims in any order: victims end with no group, master, slaves or peers, surviving slaves get a master among the declared destinations, all else stays, masters stay acyclic and the graph well-formed |
| `PropSegments.KeepsSegments` | kernel/mount/tla/MountTree.tla:276-289 | bulk_make_private() leaves peers next to each other on their master's slave list |
| `PropSegments.KeepsSenders` | kernel/mount/tla/MountTree.tla:276-289 | afterwards, still, only shared mounts have slaves |
| `PropWhole.TakesVictims` | kernel/mount/tla/Propagation.tla:732-747 | propagate_umount(), the reparenting and bulk_make_private() one after the other, on one table: exactly the declared victims go and end private, every survivor is where it was or at its target with its group and a declared master, children lists, rings and slave lists are in order |
| `PropWhole.UmountTreeOK` | kernel/mount/tla/Propagation.tla:600-615 | umount_tree() of the tree below an unlocked mount: with the cognates unlocked, the table that propagate_umount(), the reparenting and bulk_make_private() compute one after the other, for exactly ExpectedVictims, is as UmountVictimsOK asks, the overmount fields of survivors are right, namespaces, locks, roots and hashing are as they were, and peers still stand together |
| `MntPutBuf.SplitSum` | kernel/mount/tla/MntPut.tla:141-152 | at one instant, the gets a task sees minus the puts it sees are the visible count plus its own buffered stores |
| `MntPutBuf.FlushBuf` | kernel/mount/tla/MntPut.tla:238-253 | any store the barriers let leave first keeps every put behind its get |
| `MntPutSum.Instant` | kernel/mount/tla/MntPut.tla:322-339 | between the passes the sum is at least what its task holds, and more unless everybody else is bound to lose |
| `MntPutSum.SumKeeps` | kernel/mount/tla/MntPut.tla:322-341 | reading one more counter, with anything happening in between, never loses that bound |
| `MntPutFlush.FlushKeeps` | kernel/mount/tla/MntPut.tla:238-260 | a weakly ordered flush keeps the whole invariant |
| `MntPutDecide.PutCheckKeeps` | kernel/mount/tla/MntPut.tla:343-356 | dooming on a count of zero, or returning, keeps the invariant |
| `MntPutDecide.FlagsKeeps` | kernel/mount/tla/MntPut.tla:436-450 | the end of __legitimize_mnt() under mount_lock keeps it |
| `MntPutTheorems.NextKeeps` | kernel/mount/tla/MntPut.tla:592-602 | every step of every task keeps it |
| `MntPutTheorems.RunsAreSafe` | kernel/mount/tla/MntPut.tla:622-644 | every state of every run: counters equal the ledger, MNT_DOOMED means no namespace reference and no non-transient one, the sum in mntput() is not negative, nobody is at a touching label once the mount is freed, and after a successful synchronous umount only the umounter holds a reference or cleans up |
| `MntPutExact.BusyHasOther` | kernel/mount/tla/MntPut.tla:518-531 | on every run, a synchronous umount is refused only if at some moment of its own sum somebody else had a reference or a counter store not visible yet |
| `MntPutExact.KeptHasOther` | kernel/mount/tla/MntPut.tla:343-356 | on every run, mntput() finds its reference not the last, and does not doom the mount, only if the task answers for another one or met somebody in its sum in the same way |
| `MntPutExact.AstrayMet` | kernel/mount/tla/MntPut.tla:396-450 | a walker is turned away, or sent to mount_lock, only if mount_lock was written between the start of its walk and a later moment of it |
| `MntPutExact.NoneMeansUnmounted` | kernel/mount/tla/MntPut.tla:384-394 | a walker finds nothing only once umount_tree() has been through |
| `MntPutEnd.FreedInTheEnd` | kernel/mount/tla/MntPut.tla:646-648 | when everybody is done the umount has been decided; if it succeeded the mount is doomed, cleaned up and freed, or freed as soon as the grace period that nobody delays is over; if it was refused the mount is hashed and not doomed |
| `MntPutEnd.NeverStuck` | kernel/mount/tla/MntPut.tla:592-602 | in every state of every run somebody has a step that is neither a new reference nor a migration, unless everybody is done |
| `MntPutBound.RunsBounded` | kernel/mount/tla/MntPut.tla:592-604 | a run, whatever the order in which tasks move and stores leave their buffers, has at most 40 + 6n steps for each task on n CPUs, and 16 + 2n more for each new reference or migration in it: nobody waits or repeats for ever, and no fairness is needed |
| `MntPutBound.ComesToEnd` | kernel/mount/tla/MntPut.tla:646-648 | every run goes on, without a new reference or a migration, to one in which everybody is done and the mount is freed, or its umount refused and it is hashed and not doomed |
| `MntBatch.Batch.GetCount` | kernel/work.mount.gp_on_demand.proposal/cbmc/mntput_harness.c:572-603 | with other tasks doing anything they can between any two reads, and words that wrap at 32 bits, the result is at least the number of references at the instant between the passes, and exact if nothing happened to the mount |
| `MntBatch.Batch.Unheld` | kernel/work.mount.gp_on_demand.proposal/cbmc/mntput_harness.c:840-868 | a sum of one means that at an instant of the sum nobody else had a reference, and that no holder has one when the mount is doomed; any other sum means that at some instant of it somebody had one, a walker's transient get at least |
| `MntBatch.Batch.Drop` | kernel/work.mount.gp_on_demand.proposal/cbmc/mntput_harness.c:738-765 | after the grace period the split sum of the slow path is zero if and only if nobody else has a reference, so the mount is finished off exactly then |
| `MntBatch.Batch.Unmounted` | kernel/work.mount.gp_on_demand.proposal/cbmc/mntput_harness.c:870-924 | a batch of any length: each mount ends without its own reference and never forgotten, in the prescribed order of dooms, cleanups, grace period and puts; one is kept for the grace period only if somebody had a reference to it at some instant; at every instant counters are the ledger and a doomed mount has no references but walkers' |
| `MntBatch.DoomedExactly` | kernel/work.mount.gp_on_demand.proposal/cbmc/mntput_harness.c:870-924 | a mount that was kept is, after its put, doomed if and only if nobody holds it, and its cleanup queued exactly then |
| `MntBatch.ScriptCounts` | kernel/work.mount.gp_on_demand.proposal/cbmc/mntput_harness.c:870-924 | in that order each own reference is dropped once, exactly the unheld mounts have their cleanup queued, once, and there is one grace period if some mount is held and none otherwise |
| `MntWritersProof.ZeroHeld` | kernel/mount/tla/MntWriters.tla:161-168 | a per-CPU counter is never negative, and zero only if no writer on it is past the spin |
| `MntWritersProof.NextKeeps` | kernel/mount/tla/MntWriters.tla:98-200 | every writer, holder and flush step keeps the invariant |
| `MntWritersProof.RunsAreSafe` | kernel/mount/tla/MntWriters.tla:204-222 | no writer is active while a read-only flag is visible, "ok" is decided only with no writer active, WRITE_HOLD is visible only under the holder's lock, the counters account for every writer |
| `MntWritersExact.BusyHasWriter` | kernel/mount/tla/MntWriters.tla:161-175 | on every run, "busy" means that the holder, in its sum, came to a CPU on which a writer was counted at that moment |
| `MntWritersExact.FlagsTell` | kernel/mount/tla/MntWriters.tla:171-189 | a read-only flag is visible if and only if the holder has decided "ok", with no gap; when it has returned nothing is held, and with its stores out the one flag visible is the mount's or the superblock's, as asked |
| `MntWritersExact.TurnedAway` | kernel/mount/tla/MntWriters.tla:98-140 | a writer that is through without having been active was turned away by a decision "ok" |
| `MntWritersExact.RunsEnd` | kernel/mount/tla/MntWriters.tla:192-200 | every run is finite, a state has no successor if and only if everybody is done, and then all counts are zero |
| `MountWalkProof.ResolveUnique` | kernel/mount/tla/MountWalk.tla:96-124 | the locked walk has at most one result |
| `MountWalkProof.MountsTrack` | kernel/mount/tla/MountWalk.tla:220-243 | one hop, or finding nothing mounted by the flag or by the hash, leaves what the rest of the walk returns equal to what the locked walk returns |
| `MountWalkProof.ChangeKeeps` | kernel/mount/tla/MountWalk.tla:372-449 | umounting a whole subtree, moving one, and freeing mounts keep every mountpoint flagged and disturb no walker whose count is unchanged |
| `MountWalkProof.ExitsAgree` | kernel/mount/tla/MountWalk.tla:187-298 | a walk that ends in RCU mode with its sequence count unchanged returns r if and only if the locked recursive walk on the current tree ends with r |
| `MountWalkProof.ValidatedAgree` | kernel/mount/tla/MountWalk.tla:210-298 | on every run, whenever complete_walk() or lookup_slow() ends a walk, it returns r if and only if the locked walk on the tree of that moment ends with r |
| `MountWalkProof.ExitsClassified` | kernel/mount/tla/MountWalk.tla:187-298 | every way out of RCU mode on every run, with what it returns: a position only with the count unchanged, -EAGAIN only from a scoped ".." after it changed, -ENOENT after it changed only from a negative dentry; and with the count unchanged r if and only if the locked walk of that moment ends with r |
| `MountWalkUnchecked.UncheckedNegative` | kernel/mount/tla/MountWalk.tla:245-256 | the -ENOENT of a negative dentry after the count changed: at the last moment with the count unchanged the rest of the walk was the rest of the locked one, and the exit is that rest with those mounts off, on the walker's mount, whose mountpoint has lost its flag since; if none has, r is returned if and only if the locked walk of that moment ends with r |
| `MountWalkUnchecked.NoMoment` | kernel/mount/tla/MountWalk.tla:465-469 | a run from one mount and no flag, with two mounts and one lazy umount, in which that exit returns -ENOENT and the locked walk ends with it in no state from the first step of the walk to its last: the second half of RcuResultOK is false |
| `MountWalkScope.LockedStaysUnder` | kernel/mount/tla/MountWalk.tla:96-135 | at every moment of every run, whatever program is walked from a walker's root with everything locked ends, if at a position, below that root |
| `MountWalkScope.DownUp` | kernel/mount/tla/MountWalk.tla:96-124 | from any place below the root a name and then ".." comes back to that place, over however many mounts |
| `MountWalkScope.WalksStayUnder` | kernel/mount/tla/MountWalk.tla:472-475 | on every run the path of a walker whose count is unchanged, and every position any walk returns, is below its root on the tree of that moment |
| `MountWalkScope.ScopedStaysUnder` | kernel/mount/tla/MountWalk.tla:472-475 | a scoped walker, wherever it is in any state of any run, was there below its root on the tree it sampled |
| `MountWalkScope.ScopedNow` | kernel/mount/tla/MountWalk.tla:475 | on the present tree it is below its root exactly if it is in the root's mount or its mount is still attached below the root |
| `MountWalkScope.ScopedOff` | kernel/mount/tla/MountWalk.tla:475 | a run in which it is not: ScopedPathOK is false once the mount it stands in is lazily unmounted |
| `MountWalkEnds.RefHasWriter` | kernel/mount/tla/MountWalk.tla:172-183 | a walk starts over in REF mode only if mount_lock was written between its start and a later moment of it |
| `MountWalkEnds.WalkerGoes` | kernel/mount/tla/MountWalk.tla:187-300 | a walker in RCU mode has a step to take in every state of every run |
| `MountWalkEnds.LeftAlone` | kernel/mount/tla/MountWalk.tla:187-300 | a walk that begins while no writer is inside, and is left alone, ends in RCU mode with just what the locked walk ends with |
| `MountWalkSteps.DotDotIff` | kernel/mount/tla/MountWalk.tla:101-113 | at every moment of every run, from any place in a mount, ".." stays put if the walk's root, or the root of everything, is at the bottom of the stack of mounts it stands on, and else leads to the parent dentry of the one place inside a mount at that bottom, and nowhere else |
| `MountWalkSteps.SectionsDo` | kernel/mount/tla/MountWalk.tla:348-434 | on every run, when a writer leaves mount_lock: the new mount is hashed at the place picked for it; the moved mount is hashed at the place it was to go to; the lazy umount has the mounts it took unhashed and on nothing, and no live mount is left on one of them |
| `MountWalkSteps.TakesLeast` | kernel/mount/tla/MountWalk.tla:372-409 | a lazy umount takes no mount outside any set that has its victim and, with a mount, all that is mounted on it, and changes no field of one |
| `MountWalkSteps.SectionGoes` | kernel/mount/tla/MountWalk.tla:348-434 | in every state of every run a writer that is inside mount_lock has a step, and it is one nearer to leaving |
| `MountWalkSteps.SectionLeaves` | kernel/mount/tla/MountWalk.tla:348-434 | the count is odd exactly while a writer is inside, who leaves after at most four steps of its own, and no step of another takes it further away |
| `MountWalkSteps.FlagsExact` | kernel/mount/tla/MountWalk.tla:335-377 | started without a flag too many, on every run a dentry is flagged if and only if a mount is on it or is about to be, except while a moved mount is between its two places |
| `CloseOrder.CompletesIff` | kernel/close-files/tla/CloseOrder.tla:35-67 | for every n, a discipline gets through if and only if its order respects all waits: upward releases and no flush waits, downward, or upward |
| `CloseOrder.SettledIff` | kernel/close-files/tla/CloseOrder.tla:61-79 | in every run a settled discipline is done exactly in that case and stuck otherwise |
| `CloseOrder.DescendingAgainstDeferred` | kernel/close-files/tla/CloseOrder.tla:85-95 | the descending walk hangs only where the deferred one does; they agree exactly when no flush waits or the descending walk hangs |
| `CloseOrder.AscendingAgainstDeferred` | kernel/close-files/tla/CloseOrder.tla:97-108 | the ascending walk hangs where the deferred one does not exactly when no flush waits, releases wait upward only, and some release waits |
| `CloseOrder.DeferredAgainstAscending` | kernel/close-files/tla/CloseOrder.tla:104-108 | the other way round: exactly when every wait is for a lower descriptor and there is one |
| `CloseOrder.AscendingMatchesIff` | kernel/close-files/tla/CloseOrder.tla:104-108 | AscendingMatchesDeferred holds exactly when nothing waits or both orders hang, as a condition on the waits |
| `CloseOrder.RunSettles` | kernel/close-files/tla/CloseOrder.tla:61-79 | every run can be carried on to a state in which all three disciplines have settled |
| `CloseOrder.AscendingWorse` | kernel/close-files/tla/CloseOrder.tla:97-102 | two descriptors and a run at whose end only the ascending walk is stuck: AscendingNoWorseThanDeferred is false |
| `CloseOrder.AscendingBetter` | kernel/close-files/tla/CloseOrder.tla:104-108 | two descriptors and a run at whose end only the ascending walk is done |
| `CloseOrder.DescendingBetter` | kernel/close-files/tla/CloseOrder.tla:110-114 | two descriptors and a run at whose end the deferred walk is stuck and the descending one done: DescendingMatchesDeferred is false |
| `AsmGen.VarsOf` | kernel/work.mount.gp_on_demand.proposal/litmus/gen-asm.py:126-137 | every variable an op touches, once |
| `AsmGen.RegsOf` | kernel/work.mount.gp_on_demand.proposal/litmus/gen-asm.py:139-147 | every register an op writes, once |
| `AsmGen.ClashFreeIff` | kernel/work.mount.gp_on_demand.proposal/litmus/gen-asm.py:150-182 | allocation is free of clashes, scratch register included, if and only if there are at most nine variables (AArch64) or nine registers (PPC) |
| `AsmGen.UsableIff` | kernel/work.mount.gp_on_demand.proposal/litmus/gen-asm.py:150-182 | the code also names only registers the machine has if and only if there are, besides, at most twenty-one registers (AArch64) or twelve variables (PPC) |
| `AsmGenProof.FindUser` | kernel/work.mount.gp_on_demand.proposal/litmus/gen-asm.py:170-175 | a branch in the code goes to the code of the op its label marks |
| `AsmGenProof.Preserves` | kernel/work.mount.gp_on_demand.proposal/litmus/gen-asm.py:159-211 | whatever the loads return, a run in which each lock is found free is matched by a run of the code with the same accesses and barriers in order, under the barrier map, and the same logical registers |
| `AsmGenProof.TranslationPreserves` | kernel/work.mount.gp_on_demand.proposal/litmus/gen-asm.py:150-211 | the same from the initial state, under the register limits |
| `AsmGenFilter.InvLock` | kernel/work.mount.gp_on_demand.proposal/litmus/gen-asm.py:194-207 | the PPC lock sequence from any state and whatever it reads: it goes through with the three accesses of an acquisition and zero in its register, or ends at the same place with one in it and an acquisition that failed |
| `AsmGenFilter.CodeSound` | kernel/work.mount.gp_on_demand.proposal/litmus/gen-asm.py:150-211 | the converse: every run of the code to its end, failed acquisitions included, is a run of the thread program with the same logical registers; all locks are found free exactly if the code acquired them all, and then the traces agree under the barrier map |
| `AsmGenFilter.CodeFilter` | kernel/work.mount.gp_on_demand.proposal/litmus/gen-asm.py:237-246 | for forward branches and lock registers of their own, a run of the code ends with zero in every physical register the filter names if and only if every swap and load-exclusive read zero and every store-conditional succeeded |
| `AsmGenProof.FilterExact` | kernel/work.mount.gp_on_demand.proposal/litmus/gen-asm.py:237-246 | the same of the thread program: the lock registers are zero in the end exactly if every lock was found free |
| `AsmGenOrder.CodeOrders` | kernel/work.mount.gp_on_demand.proposal/litmus/gen-asm.py:4-19 | every run of the code to its end that acquires its locks is a run of the thread program, and whatever two accesses the program orders, by smp_wmb(), smp_rmb(), smp_mb(), the acquire of a lock or the release in an unlock, the instructions that do them are ordered by the fences, the acquire, the release or the isync of the code |
| `AsmGenOrder.KindsKept` | kernel/work.mount.gp_on_demand.proposal/litmus/gen-asm.py:159-211 | what the program does in one event reads, or writes, exactly if some instruction for it does |
| `AsmGenOrder.FenceWeakest` | kernel/work.mount.gp_on_demand.proposal/litmus/gen-asm.py:7-9 | the fence of a barrier is the weakest of its machine that orders what the barrier is to order |
| `TraceLedger.Ledger.GotOne` | kernel/work.mount.gp_on_demand.proposal/trace/trace2ndjson.py:135-146 | a get starts a new holder if the last one has dropped everything and is one more event of it otherwise; nothing else changes |
| `TraceLedger.Ledger.PutOne` | kernel/work.mount.gp_on_demand.proposal/trace/trace2ndjson.py:147-162 | a put becomes the second event of the oldest open episode, which closes; else the next of the holder; else the first of a new holder from before the trace; nothing else changes |
| `TraceLedger.Ledger.TakeOwn` | kernel/work.mount.gp_on_demand.proposal/trace/trace2ndjson.py:109-124 | the youngest open episode, else a holder with nothing but its first get, loses its task and its event becomes the umounter's own; else nothing changes |
| `TraceLedger.Ledger.Attribute` | kernel/work.mount.gp_on_demand.proposal/trace/trace2ndjson.py:97-164 | for every event sequence each get, legitimize and put is in exactly one place, in order: a task's events, a holder's first get or the umounter's own; episodes have at most their one put and get them in the order they began; no holder is in debt at any prefix and all but the current one end at zero; the holders from before the trace are exactly as many as the deepest the trace's own count goes below zero; and the umounter's own is the youngest episode open at umount_tree, else a first get with nothing after it, and missing only if there is neither |
| `TraceLedger.NetOf` | kernel/work.mount.gp_on_demand.proposal/trace/trace2ndjson.py:187-190 | the net of a task is what it still owes: one for an open walker episode, the balance of a holder |
| `TraceLedger.Prune` | kernel/work.mount.gp_on_demand.proposal/trace/trace2ndjson.py:178-195 | exactly the tasks whose last event precedes umount_tree and that owe nothing are pruned |
| `TraceLedger.Ranks` | kernel/work.mount.gp_on_demand.proposal/trace/trace2ndjson.py:200-204 | a locked event carries one more than the number of locked events before it, any other zero |
| `TraceLedger.NoGap` | kernel/work.mount.gp_on_demand.proposal/trace/trace2ndjson.py:200-204 | every rank up to the number of locked events occurs |

## Claims that do not hold

- The comment at kernel/mount/tla/MountWalk.tla:466-468 has the -ENOENT of a negative
  dentry, which is not rechecked, be the locked walk's result at some instant of the
  walk.  With the code as it is that fails for a walk of three names across two
  mounts: a lazy umount takes both at once, the walker, already inside the first,
  finds the second mountpoint without its flag and goes on beneath it.  The walks
  of the source's layouts have at most two names.  UncheckedNegative says what holds.
- ScopedPathOK, kernel/mount/tla/MountWalk.tla:475, has a scoped walker's path below
  its root on the tree of every moment.  A walker inside a mount that is lazily
  unmounted is not, nor could it be; what it returns is.  ScopedNow has the exact
  condition.  The scoped walk of the source's layouts enters no mount.
- AscendingNoWorseThanDeferred, AscendingMatchesDeferred and
  DescendingMatchesDeferred of kernel/close-files/tla/CloseOrder.tla, which the
  source states to be refuted: the runs and the exact conditions are among the
  members of CloseOrder.

## What the models assume

- Master chains are acyclic, and every mount with slaves is in a namespace; the
  structural invariants of MountTree.tla do not say so.
- In the ownership model a superblock that keeps a file open has a mount.
- In the batch model other tasks do to a mount that nobody can look up any more
  what Other in MntBatch.dfy lists: holders take and drop references while they
  have one, by the fast path only while the mount's own reference is there and
  before the grace period; walkers already inside a read-side section take a
  transient one and, under mount_lock, keep or drop it by MNT_DOOMED.  There are
  fewer than 2^30 references to a mount at any time and fewer than 2^30 gets of it
  during one sum.  Memory is sequentially consistent there; weakly ordered stores
  are the subject of MntPut.
- The events of a trace are in the order of their lines.
- The initial references of the reference count model may sit on any CPUs, and the
  tasks may start on any; the source fixes CPU 1 and CPU 2.
- The mounter and the changer of the walk model repeat without bound and may pick
  any place in a mount that is there; the subtree that is unmounted is the full
  descendant closure, where the source looks one level down.  A run of it starts
  from any finite tree of mounts, with every walker's root inside its mount.
- The locked walk is a relation: Resolve holds of a result if the recursion ends
  with it, so no tree needs to be assumed acyclic.

## Left out

- MNT_DETACH's put path, mount_lock and RCU in mntput_harness.c, and the one-mount
  form in dat3m/mnt_gp.c: the protocol is proved in its TLA+ form, MntPut.
- MntBatch: task work, the delayed list and MNT_INTERNAL are one way to queue a
  cleanup; the recheck mutation and the namespace's part of mntput() are not there.
- MntPut: the mutation switches, and the budgets on gets and migrations, of which a
  holder may do any number: Freed and AllDone are stated for runs with finitely many.
- MountWalk: REF-mode walking and reference counts, so NoUAF of walkers; scoped
  -EAGAIN is told apart from the other exits but carries no claim about a result.
- MountWalkUnchecked.UncheckedNegative: when a mountpoint did lose its flag, that the
  exit is the locked walk's result anyway is left as the comparison of the two rests
  in its contract: it depends on what is on the filesystem that was mounted there.
- Propagation: copying trees on attach (CopiesOK), propagate_mount_busy(),
  umount_tree()'s final loop over the set; T_UMOUNT_CANDIDATE, T_MARKED and MNT_UMOUNT are sets
  beside the table in PropUmount, and removal from a children list during
  gathering and trimming is membership in the last of them.
- PropPrivate.MakesPrivate: master chains are shown acyclic by a decreasing depth,
  not by recomputed depths.
- AsmGenProof.Preserves: labels are compared as structured names, so a program
  label that spells like one of the PPC lock labels is not represented; a store
  buffer or a memory model is not part of the thread-local semantics.
- AsmGenOrder.CodeOrders: order within one thread by barriers, acquire and release
  only; address, data and control dependencies, and cumulativity, are left out, and
  that the isync orders is taken from the branches on the loaded value that InvLock
  has before it.
- The conjunct the filter clause has besides for tests with a walker, that the
  walker's first load read zero.
- MntOwn: disconnecting only the victims that pin an ancestor of theirs; without
  reexamination the pinner rule is modelled but leaks, so nothing is claimed of what
  it leaves.
- TraceLedger: parsing and printing of trace lines, the umounter's own protocol
  events and who dooms the mount.
- MountOps.tla, LockMount.tla, MntNs.tla and the small finite models
  (IoWqExitBit, CorePattern, VforkExec, ForkCleanup, TtyHangup): either too broad
  or settled by enumeration.
- The configuration generators, result tables, probes and scripts.
