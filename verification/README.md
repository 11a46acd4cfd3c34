# Wyrd: a Dafny model of the daemon's core

Wyrd is a peer-to-peer drive. Its daemon serves a mounted namespace while one loop thread
keeps the durable log, fetches missing chunks, repairs damaged ones and commits mutations.
This project models the daemon's hardest parts in Dafny and proves what they promise.

| file | component |
|---|---|
| `Lifecycle*.dfy`, `Schedule.dfy` | the session, loop and composer threads over the mutation queue, the stop latch and the trigger channel: safety, no deadlock, termination under fair schedules |
| `Want.dfy`, `WantRuns.dfy` | the demand registry, and every interleaving of waits, admissions, marks and retirements over it |
| `RepairQueue.dfy`, `Sweep.dfy`, `Scrub.dfy`, `ScrubTheorems.dfy` | the presence scrub: cyclic walk, drain, convergence and fairness |
| `Quarantine.dfy` | rejected-representation repair with a crash possible between any two effects |
| `Namespace.dfy`, `PathOrder.dfy`, `PolicyWalk.dfy`, `PolicySweep.dfy`, `PolicyOps.dfy` | subtree walks, the residency census, the capped sweep, pin, unpin and evict |
| `Wake.dfy` | the pacing signal and its freedom from lost wakeups |
| `Budget.dfy` | the session's write budget in machine arithmetic |
| `Read.dfy` | mount-free reads: demand, repair entry, bounded waits, windows |
| `LinkGraph.dfy`, `NixComments.dfy` | the workspace's link-graph checks and its comment stripper |
| `Status.dfy` | the member and vault status projections |
| `Identity.dfy`, `SyncEngine.dfy` | 32-byte identities with their order, and the sync engine's claims and policy |

Each lock-protected section is one atomic step. Concurrent parts are state machines whose
runs are arbitrary sequences of enabled steps. Imperative
code stays imperative: classes and methods proved against specification functions.

Inputs from outside are parameters: the store's presence answers, the state of the durable
log, what evaluating a mutation comes to, the view's answers over time, clocks, schedulers
and faults. All are universally quantified unless a contract says otherwise.

Where code and comments disagree the code is modelled:

- The want registry documents that waiters sit only on tracked identities.
  `WantRuns.WaiterOutlivesFetch` is a run on which they do not;
  `Want.RetireKeepsTracked` and `Want.OthersKeepTracked` say exactly when they do.
- Admission documents its capped peek as oldest first. The pending demand is an ordered set,
  so that fails (`Want.OldestCanWait`); `Want.OldestFirstExactly` says when it holds.
- The write budget's sums are exact only for limits that fit a word.
  `Budget.ConservationIsExact` gives the condition both ways, with the two failing runs.
- The link checker's witness uses the empty name as a sentinel.
  `LinkGraph.WitnessIsWhole` and `LinkGraph.NamedWitness` say when that cuts a path short.
- The comment stripper pushes bytes as characters, so text past ASCII changes.
  `NixComments.RestripIsExact` gives the condition on the input, `NixComments.AccentsChange` an input.

`dafny verify dfyconfig.toml` checks the project.

## Model

| member | source | states |
|---|---|---|
| `RepairQueue.Queue.Submit` | crates/wyrd-core/src/scrub.rs:109-113 | a report is added once; a duplicate collapses |
| `RepairQueue.Queue.Pop` | crates/wyrd-core/src/scrub.rs:117-125 | the smallest report in identity-then-kind order leaves, and only it |
| `RepairQueue.RankInjective` | crates/wyrd-core/src/scrub.rs:77-92 | the queue order separates any two different reports, so "smallest" is one report |
| `RepairQueue.Queue.TakeBatch` | crates/wyrd-core/src/scrub.rs:272-290 | the first phase of a drain takes exactly the `cap` smallest reports and leaves the rest |
| `RepairQueue.PoppedCount` | crates/wyrd-core/src/scrub.rs:272-290 | a drain takes distinct queued reports: all of them, or exactly its cap |
| `RepairQueue.PoppedSplits` | crates/wyrd-core/src/quarantine.rs:149-157 | two drains take what one longer drain would, in the same order |
| `Sweep.OrderIsRotation` | crates/wyrd-core/src/scrub.rs:194-215 | rotating the sorted claims at the partition point is the order of growing cyclic distance from the cursor |
| `Sweep.ApproachUnique` | crates/wyrd-core/src/scrub.rs:194-215 | a claim set has exactly one order of growing distance from a cursor |
| `Scrub.ProbePresence` | crates/wyrd-core/src/scrub.rs:184-244 | statted claims are the first `budget` in cursor order; losses, failures and the new cursor are theirs |
| `Scrub.DrainScrub` | crates/wyrd-core/src/scrub.rs:272-347 | claims confirmed absent go, all others stay, policy never moves, the accountant loses exactly the cleared sizes, an unreadable log or a failed commit leaves every claim |
| `Scrub.ScrubPass` | crates/wyrd-core/src/live/pass.rs:336-373 | walk a snapshot, submit, drain in that order is the one-step function the theorems run, with the walk and the re-check answered apart; it fails exactly when there is something to clear and its commit fails, which costs the popped reports, never a claim, and bytes back at the re-check keep theirs |
| `ScrubTheorems.WalkIsExact` | crates/wyrd-core/src/scrub.rs:184-244 | a walk stats distinct claims, exactly min(claims, budget) of them |
| `ScrubTheorems.RoundStep` | crates/wyrd-core/src/scrub.rs:194-243 | one pass shortens what is left of the round by the budget, across the cursor wrap |
| `ScrubTheorems.ScrubConverges` | crates/wyrd-core/src/scrub.rs:246-347 | from any cursor, passes covering the claim count leave exactly the claims whose bytes are not absent |
| `ScrubTheorems.WalkApproaches` | crates/wyrd-core/src/scrub.rs:194-243 | a walk that misses a standing claim moves the cursor strictly closer to it |
| `ScrubTheorems.ScrubIsFair` | crates/wyrd-core/src/scrub.rs:194-243 | under arbitrary changes of claims and budget a standing claim is statted within its cyclic distance |
| `SyncEngine.Engine.RecordObjectsRemoved` | crates/wyrd-sync/src/runtime/engine/materialization.rs:80-100 | held claims named go in one commit; a claimless batch commits nothing, and an unreadable log or a failed commit changes nothing |
| `SyncEngine.Engine.RecordMissingObjects` | crates/wyrd-sync/src/runtime/engine/materialization.rs:118-160 | the same, and the bytes returned are the recorded sizes of the cleared claims |
| `SyncEngine.Engine.SetMaterializations` | crates/wyrd-sync/src/runtime/engine/materialization.rs:180-205 | identities not already there move in one commit; none to move means no commit, and an unreadable log or a failed commit changes nothing |
| `SyncEngine.Accountant.Subtract` | crates/wyrd-format/src/store.rs:249-255 | the retained count drops by the bytes removed, stopping at zero |
| `Want.WantRegistry.Register` | crates/wyrd-core/src/want.rs:133-145 | a waiter attaches; only new demand past the bound is refused, and a refusal changes nothing |
| `Want.WantRegistry.RegisterUnowned` | crates/wyrd-core/src/want.rs:157-168 | loop demand is recorded once, without a waiter, and reports whether it is new |
| `Want.WantRegistry.Release` | crates/wyrd-core/src/want.rs:176-198 | one waiter leaves; the last one withdraws demand that is neither admitted nor the loop's |
| `Want.WantRegistry.MarkAdmitted` | crates/wyrd-core/src/want.rs:223-233 | the loop over the committed identities admits exactly those still pending |
| `Want.WantRegistry.RetireWhere` | crates/wyrd-core/src/want.rs:248-264 | exactly the admitted identities the predicate settles are retired, judged on their waiter counts |
| `Want.WantRegistry.NoteReopenDemand` | crates/wyrd-core/src/want.rs:296-304 | notes collapse and stop at the bound |
| `Want.WantRegistry.TakeReopenNotes` | crates/wyrd-core/src/want.rs:311-318 | all notes leave, in order, and nothing else changes |
| `Want.ReleaseUndoesRegister` | crates/wyrd-core/src/want.rs:133-198 | register then release is the identity exactly when the demand was outstanding or had no waiter |
| `Want.RetireKeepsTracked` | crates/wyrd-core/src/want.rs:248-264 | waiters stay on tracked demand exactly when no retired identity still has one |
| `Want.OthersKeepTracked` | crates/wyrd-core/src/want.rs:133-233 | no other operation can leave a waiter on untracked demand |
| `Want.WantRegistry.PeekPending` | crates/wyrd-core/src/want.rs:209-214 | all pending demand in identity order, with nothing moved |
| `Want.AdmitWants` | crates/wyrd-core/src/live/mod.rs:766-786 | at most `cap` pending demands are committed in identity order up to the first failure; exactly those made durable are marked, and a failure returns no list |
| `Want.OldestFirstExactly` | crates/wyrd-core/src/live/mod.rs:759-786 | a capped admission takes the oldest demands exactly when each of them has a smaller identity than every later one |
| `Want.OldestCanWait` | crates/wyrd-core/src/live/mod.rs:759-762 | the demand registered first is the one a cap of one leaves waiting |
| `WantRuns.AdmissionIsARun` | crates/wyrd-core/src/live/mod.rs:766-786 | undisturbed, that admission is the peek, commits and mark the interleavings are made of |
| `WantRuns.RunsAreSound` | crates/wyrd-core/src/want.rs:133-349 | in every interleaving: the registry invariant, stored waiters equal to polling calls, no live demand untracked, no in-flight mark without a durable commit |
| `WantRuns.QuietRegistry` | crates/wyrd-core/src/want.rs:330-349 | when every wait has returned nothing waits and only loop demand is pending |
| `WantRuns.AdmissionIsAtomic` | crates/wyrd-core/src/live/mod.rs:766-786 | an identity becomes admitted only by a mark, after its commit, while still wanted |
| `WantRuns.MarkIsExact` | crates/wyrd-core/src/live/mod.rs:766-786 | a failed admission marks exactly the committed prefix and leaves the rest pending |
| `WantRuns.LeaveIsNarrow` | crates/wyrd-core/src/want.rs:176-198 | a leaving wait removes pending demand exactly when it was the only caller, and never an admitted mark |
| `WantRuns.WaiterOutlivesFetch` | crates/wyrd-core/src/want.rs:68-69 | the documented "waiters only on tracked identities" fails on a five-step run |
| `LifecycleSafety.StepKeeps` | crates/wyrd-daemon/src/lifecycle.rs:116-228 | every step of session, loop and composer keeps every blocked caller held in exactly one place, the admission order, and what each decision came to |
| `LifecycleSafety.RunKeeps` | crates/wyrd-daemon/src/lifecycle.rs:5-48 | that invariant in every state of every run, loop panics and idle drain polls included |
| `LifecycleSafety.ShutdownPreserves` | crates/wyrd-core/src/live/pass.rs:813-855 | without a loop panic no submission is ever answered Shutdown; every admitted one that hears its answer was decided, is applied exactly when its evaluation ran, and is refused over missing content only by the drain |
| `LifecycleControl.DrainDecidesLate` | crates/wyrd-core/src/live/pass.rs:813-855 | the drain decides only after the loop's return |
| `LifecycleSafety.MutationsStayOrdered` | crates/wyrd-core/src/mutation/batch.rs:80-124 | mutations are decided in submission order across batches, deferrals and the teardown drain, and every undecided one is later |
| `LifecycleSafety.NobodyStranded` | crates/wyrd-core/src/mutation/queue.rs:303-376 | when all three threads are joined every submitter has an answer |
| `LifecycleSafety.NeverStuck` | crates/wyrd-daemon/src/lifecycle.rs:196-228 | short of the end some thread can take a step that needs nothing from outside and is more than an idle drain poll, with or without a loop panic |
| `LifecycleSafety.TeardownBegins` | crates/wyrd-daemon/src/lifecycle.rs:116-133 | once the latch is set, the session has noted its end, or the loop is past its return or reported its panic, the composer's next step is enabled in every later state until the unmount |
| `LifecycleTermination.StepLowers` | crates/wyrd-daemon/src/lifecycle.rs:161-228 | past the unmount every enabled step of every thread, a loop panic included, lowers a lexicographic rank, idle drain polls excepted |
| `LifecycleTermination.IdleIsLevel` | crates/wyrd-core/src/mutation/queue.rs:258-287 | a turn of the resting drain (timed wake, look, park) neither raises nor lowers the rank |
| `LifecycleTermination.TeardownTerminates` | crates/wyrd-cli/src/commands/mount.rs:240-330 | from every reachable state with the latch set, under every scheduler that does not run new work or idle polls for ever, the shutdown ends with every submitter answered and, short of a panic, hearing what deciding it came to |
| `LifecycleTermination.WeakFairnessIsEnough` | crates/wyrd-cli/src/commands/mount.rs:240-330 | such schedulers are exactly the weakly fair ones: no thread that can always take a step is passed over for ever |
| `LifecycleTermination.ThreadsAreJoined` | crates/wyrd-cli/src/commands/mount.rs:240-330 | so weak fairness of session, loop, composer and signal handler ends every teardown, with every submitter answered |
| `LifecycleTermination.FairSchedulerExists` | crates/wyrd-cli/src/commands/mount.rs:240-330 | from every such state there is a fair scheduler: a useful step is always enabled |
| `LifecycleTermination.LatchIsReached` | crates/wyrd-cli/src/commands/mount.rs:240-262 | such states exist for every queue limit and every outcome of evaluations |
| `Schedule.FairFinishes` | crates/wyrd-cli/src/commands/mount.rs:240-330 | a system whose rank no turn raises and every useful turn lowers is done after finitely many turns of a fair schedule |
| `Schedule.WeaklyFairIsFair` | crates/wyrd-cli/src/commands/mount.rs:240-330 | if some thread always owes a useful step until one is run, a weakly fair schedule runs useful steps for ever or ends |
| `Wake.WakeSignal.Wait` | crates/wyrd-core/src/wake.rs:58-92 | the answer is the verdict of the first check that has one: stop, then poke, then deadline; a poke is consumed exactly when it is the answer |
| `Wake.NoLostWakeup` | crates/wyrd-core/src/wake.rs:58-103 | in every interleaving announced work not yet examined keeps the flag up or the loop on its way to a pass |
| `Wake.PokesArePrompt` | crates/wyrd-core/src/wake.rs:58-103 | announced work is examined within three loop steps whatever interleaves, unless the loop stops |
| `Quarantine.DrainQuarantine` | crates/wyrd-core/src/quarantine.rs:227-295 | it fails exactly when its commit does, having changed no claim and no bytes; otherwise every claim named is gone, and so is every file that is invalid and met no fault, and nothing else; failures are the faults met; exactly the emitted reports leave the queue, the accountant drops by the bytes discarded, and the effects are a run of the crash machine |
| `Quarantine.Store.DiscardRejected` | crates/wyrd-format/src/fs_store.rs:617-655 | bytes go only if they fail verification now; absent and healed bytes are left alone |
| `Quarantine.EveryPrefixIsOrdered` | crates/wyrd-core/src/quarantine.rs:194-295 | at every prefix of every run, crashes included: removed bytes were reported first, carry no claim, and residency policy never moved |
| `Quarantine.RemovalIsJustified` | crates/wyrd-core/src/quarantine.rs:255-295 | the drain removes only bytes invalid at that moment, reported and unclaimed, and the accountant loses exactly their size unless it holds less |
| `Quarantine.DrainsEmitOnce` | crates/wyrd-core/src/quarantine.rs:227-250 | successive drains emit each queued report once, exactly as many as their caps allow |
| `Quarantine.DrainAccounts` | crates/wyrd-core/src/quarantine.rs:255-272 | over any drain, faults included, the accountant drops by the bytes discarded, down to zero |
| `PolicyWalk.CollectSubtree` | crates/wyrd-core/src/policy.rs:139-193 | the explicit stack walk is the fold over the depth-first visit sequence, with its first error |
| `PolicyWalk.CollectIsExact` | crates/wyrd-core/src/policy.rs:139-193 | it succeeds exactly on trees with no conflict, unlistable or too deep directory, and collects exactly their chunks and counts |
| `PolicyWalk.CollectStopsFirst` | crates/wyrd-core/src/policy.rs:139-193 | a failed collect reports the first offence in visit order |
| `PolicyWalk.ClassifyFile` | crates/wyrd-core/src/policy.rs:310-339 | a file is promised exactly when every chunk is, present exactly when every chunk is held; an empty file is both |
| `PolicyWalk.ResidencyCensus` | crates/wyrd-core/src/policy.rs:290-371 | one row per file met, in path order, conflicts reported by path, an unlistable or too deep directory aborts |
| `PolicyWalk.SortIsByPath` | crates/wyrd-core/src/policy.rs:369 | the sort leaves the rows in path order and the rows of any one path as they were |
| `PolicyWalk.SortKeepsRows` | crates/wyrd-core/src/policy.rs:369 | and neither adds nor loses a row |
| `PolicyWalk.CensusMatchesCollect` | crates/wyrd-core/src/policy.rs:139-371 | wherever a collect succeeds the census agrees on files, chunks and counts and reports no conflict |
| `PolicySweep.UnheldWantCandidates` | crates/wyrd-core/src/policy.rs:386-449 | the capped walk with its skips is the fold the theorems are about |
| `PolicySweep.SweepIsExact` | crates/wyrd-core/src/policy.rs:386-449 | on any tree a sweep that succeeds returns distinct owed chunks, at most cap: all of them if it completed, else exactly cap; on a listable tree it succeeds |
| `PolicySweep.SweepsConverge` | crates/wyrd-core/src/policy.rs:386-449 | sweeps whose fetches land pay off the owed set, cap by cap, until none is owed |
| `PolicyOps.Operate` | crates/wyrd-core/src/policy.rs:476-605 | pin, unpin and evict decide over the whole subtree and commit once or not at all, whatever the log does; the report's two counts split its chunks, and an unwalkable path fails with its first offence |
| `PolicyOps.OutsideIsUntouched` | crates/wyrd-core/src/policy.rs:476-605 | over any run no identity outside the subtrees' chunks moves |
| `PolicyOps.PinSettles` | crates/wyrd-core/src/policy.rs:476-501 | after a pin every chunk is pinned and pinning again commits nothing |
| `PolicyOps.PinIsReported` | crates/wyrd-core/src/policy.rs:476-501 | after a pin the census of that path promises every file and reports no conflict |
| `PolicyOps.UnpinThenEvict` | crates/wyrd-core/src/policy.rs:523-605 | unpin then evict of the same path succeeds and leaves every chunk remote-only |
| `PolicyOps.PinsOutlastEvicts` | crates/wyrd-core/src/policy.rs:550-605 | over any run on overlapping paths, failed commits included, an identity is pinned exactly when the last pin or unpin to reach it was a pin; evicts never decide |
| `Budget.WriteBudget.Reserve` | crates/wyrd-core/src/session.rs:113-130 | refusals name the first bound broken and change nothing; a grant records the length; conservation is kept when the limits fit |
| `Budget.WriteBudget.Release` | crates/wyrd-core/src/session.rs:134-140 | a budgeted handle gives its length back, a clean one changes nothing |
| `Budget.WriteBudget.ReserveFold` | crates/wyrd-core/src/session.rs:151-163 | a lease is granted within the aggregate and added to the total, a refusal changes nothing |
| `Budget.WriteBudget.ReleaseFold` | crates/wyrd-core/src/session.rs:170-174 | dropping a lease gives back its bytes |
| `Budget.ConservationIsExact` | crates/wyrd-core/src/session.rs:113-174 | total = lengths + leases within all three bounds on every run exactly when aggregate is below the word maximum and, if handles may be dirty, aggregate plus per-handle fits a word |
| `Budget.SaturationLosesBytes` | crates/wyrd-core/src/session.rs:151-163 | at the largest aggregate two leases saturate the total and a byte goes missing |
| `Budget.WrapLosesBytes` | crates/wyrd-core/src/session.rs:123-127 | when the two bounds exceed a word together a reservation wraps past the aggregate |
| `Budget.ProductionFits` | crates/wyrd-core/src/session.rs:28-33 | the production limits conserve on every run |
| `Budget.ReserveIsExact` | crates/wyrd-core/src/session.rs:123 | the bare subtraction never underflows and the sum never overflows |
| `Budget.GrantIsExact` | crates/wyrd-core/src/session.rs:113-130 | a reservation is granted exactly when the three inequalities hold of the true byte counts afterwards |
| `Budget.FoldGrantIsExact` | crates/wyrd-core/src/session.rs:151-163 | a lease is granted exactly when the true bytes plus it stay within the aggregate |
| `Budget.ShrinkIsGranted` | crates/wyrd-core/src/session.rs:110-130 | shrinking a budgeted handle is never refused and frees exactly the difference |
| `Budget.ReleaseUndoes` | crates/wyrd-core/src/session.rs:113-140 | reserving a clean handle and releasing it restores the ledger |
| `Read.RecencyIsExact` | crates/wyrd-core/src/read.rs:66-95 | the lazily pruned repair map answers like the full log of observations |
| `Read.LiveReader.Probe` | crates/wyrd-core/src/read.rs:302-326 | a poll submits what it saw invalid and ends the wait only on service or a terminal verdict with no repair in flight |
| `Read.LiveReader.WaitForMaterialization` | crates/wyrd-core/src/want.rs:330-349 | refused exactly when registration is, and then nothing happened; otherwise every probe but the last left the wait open before the deadline, and the last either settled it or left it open at or past the deadline; waiters end as they began |
| `Read.OpenThroughout` | crates/wyrd-core/src/want.rs:330-349 | so an expired wait was served at no probe, and no earlier probe was past the deadline |
| `Read.LiveReader.WithDemand` | crates/wyrd-core/src/read.rs:237-416 | unless it must wait the result is the view's first answer; a settled wait returns the next answer, an expired one is a timeout, a refused one says so; only served bytes are returned and every other failure is an answer the view gave; invalid bytes are named first; no waiter is left behind |
| `Read.ArrivalIsReturned` | crates/wyrd-core/src/read.rs:237-416 | an operation served at every asking after its demand succeeds, whenever the registry has room for it |
| `Read.ReadWindows` | crates/wyrd-core/src/read.rs:187-218 | against any view serving beginnings of windows success is exactly the first `size` bytes; a view that serves every window, at once or once demanded, is read to the end; otherwise the failure is an unaddressable size, an empty window, or what the view and the demand made of the window it stopped at |
| `Read.ReadFile` | crates/wyrd-core/src/read.rs:165-218 | the same through lookup and open, a failed open included; a non-file fails as its open does, an absent path as its lookup did |
| `LinkGraph.Closure` | crates/wyrd-contracts/src/layer_contracts.rs:882-892 | the depth-first walk sees exactly the reachable members |
| `LinkGraph.WitnessPath` | crates/wyrd-contracts/src/layer_contracts.rs:847-874 | nothing when out of reach, otherwise a shortest edge path, cut where an empty name ends the walk back |
| `LinkGraph.WitnessIsWhole` | crates/wyrd-contracts/src/layer_contracts.rs:854-864 | the witness runs from the member exactly when no empty name comes before its end |
| `LinkGraph.NamedWitness` | crates/wyrd-contracts/src/layer_contracts.rs:847-874 | with named edges only an empty member's witness to another crate is cut short |
| `LinkGraph.EmptyMemberIsDropped` | crates/wyrd-contracts/src/layer_contracts.rs:850-864 | the empty member's witness to a direct dependency does not name it |
| `LinkGraph.CheckLinkGraph` | crates/wyrd-contracts/src/layer_contracts.rs:882-926 | no violation exactly when neither `wyrd-sync` nor an `iroh*` package is in the closure; each violation is true, and every forbidden member reached and package declared is reported |
| `LinkGraph.CheckConsumerLinkGraph` | crates/wyrd-contracts/src/layer_contracts.rs:990-1036 | the same for the process-host crates and the presentation packages |
| `NixComments.StripNixComments` | crates/wyrd-contracts/src/layer_contracts.rs:1196-1245 | the nested loops compute the token specification |
| `NixComments.StripIsIdempotent` | crates/wyrd-contracts/src/layer_contracts.rs:1196-1245 | the kept text splits into the same tokens, so nothing live is left to strip |
| `NixComments.StripKeepsLines` | crates/wyrd-contracts/src/layer_contracts.rs:1190-1245 | every line keeps its number and loses at most its end |
| `NixComments.NoHashNoChange` | crates/wyrd-contracts/src/layer_contracts.rs:1196-1245 | text without `#` is unchanged |
| `NixComments.QuotedStringPasses` | crates/wyrd-contracts/src/layer_contracts.rs:1202-1216 | a double-quoted literal passes verbatim, `#` and escapes included |
| `NixComments.IndentedStringPasses` | crates/wyrd-contracts/src/layer_contracts.rs:1217-1233 | an indented literal passes verbatim, escaped ticks included |
| `NixComments.CommentsGo` | crates/wyrd-contracts/src/layer_contracts.rs:1234-1238 | a comment goes up to, not through, its newline |
| `NixComments.RestripIsExact` | crates/wyrd-contracts/src/layer_contracts.rs:1196-1245 | stripping the output text again changes nothing exactly when the input has no byte past ASCII outside its comments |
| `NixComments.AccentsChange` | crates/wyrd-contracts/src/layer_contracts.rs:1196-1245 | one accented letter comes out as two characters, and as four bytes when stripped again |
| `NixComments.KeptIsAscii` | crates/wyrd-contracts/src/layer_contracts.rs:1196-1245 | the output is ASCII exactly when every byte past ASCII is in a comment |
| `NixComments.NoLiveHash` | crates/wyrd-contracts/src/layer_contracts.rs:1183-1195 | no `#` outside a string is left, and no byte of a comment |
| `Status.Observe` | crates/wyrd-core/src/status.rs:399-517 | obligations, peer table, backlog, head classes, and convergence exactly when nothing is owed, missing, pending or rejected |
| `Status.HandlesAreExact` | crates/wyrd-core/src/status.rs:388-394 | a handle is non-zero exactly for a recipient or a live-head author, and leads back to it |
| `Status.PeersAccountForAll` | crates/wyrd-core/src/status.rs:440-486 | the peers' pending counts add up to every itemized obligation |
| `Status.ClassesPartition` | crates/wyrd-core/src/status.rs:424-435 | every head is counted in exactly one class |
| `Status.PendingCount` | crates/wyrd-sync/src/runtime/state/announcements.rs:396-422 | counting in place equals the length of the itemized list |
| `Status.ObserveVault` | crates/wyrd-core/src/vault.rs:111-139 | from counts alone, the member's queue and the emptiness of its backlog |

## Left out

- Lifecycle: a batch's mutations are opaque requests whose evaluation is an arbitrary function of the request and the time; what a mutation does to the namespace, parent tokens and demand registration are not modelled.
- Lifecycle: a panic can strike the loop anywhere in its body or its drain except while it hands out a finished batch's results; a panic of the composer or the session is not modelled.
- Lifecycle: the composer's unmount always succeeds; the mount command warns when it fails and goes on to the joins all the same.
- Quarantine.DrainQuarantine: takes the retained-byte accountant always; the source also runs without one.
- PolicyWalk.ResidencyCensus: the per-row quadrant labels are not modelled.
- PolicyOps.Operate: one method for the three operations, which differ in filter, target and refusal only; the log's state is one per operation, though the source reads it twice.
- Wake.WakeSignal.Wait: checks may follow one another in no time, but not for ever: a supplied bound on such checks falls until time passes.
- Read.LiveReader.WithDemand: opens and windowed reads share one method, since the two source functions differ only in the view call; the registry and queues are the reader's own state here, so what the loop does to them during a wait is covered by the interleavings in `WantRuns` and `Quarantine` instead.
- Read.LiveReader.WaitForMaterialization: nothing else touches the registry during the wait; `WantRuns` has the interleavings.
- Budget.WriteBudget.Reserve: reservations wrap on overflow, as in a release build; a build with overflow checks aborts there instead.
- LinkGraph.WitnessPath: edge sets are lists in an arbitrary fixed order, so which of several shortest paths is reported is not pinned to byte order; resolving manifests into edges is not modelled.
- Status.Observe: membership tip, epochs, mailbox posture, durability and materialization summaries are copied fields and left out.
- Byte counts in scrub, quarantine and the accountant are unbounded; u64 overflow of their sums is not modelled.
- A poisoned lock, which every component turns into an error or a silent refusal, is not modelled.
- The sync protocol, cryptography, snapshot classification, mailboxes, FUSE and the command line beyond mount teardown are not part of this model.
