# Verified models of the cartridge runtime

This project models the parts of the cartridge runtime whose correctness does not show in any single
function, and proves what they promise:

- **Rollout transaction** (`Engine`, `Rollout`, `RolloutSafety`, `EngineRun`, `EngineLoss`, `EngineResults`, `EngineStore`). Preparing, activating,
  committing and rolling back a stack over two durable objects, the event journal and the checkpoint file. An
  operation is a function to the sequence of durable states it passes through, one for every write, so a crash is a prefix of
  that sequence. `EngineStore` is the same code as it runs: a class whose files change in place, tied to the
  functions at every write.
- **Reconcile pass** (`Reconcile`, `ReconcileSafety`, `ReconcileResults`, `ReconcileDaemon`). The daemon brings a rollout's execution progress
  and its checkpoint together, again with a crash after any write.
- **Rolling scheduler** (`Rolling`, `RollingRun`, `RollingStack`, `StackRun`). The decision for one instance, the closed
  loop it forms with its replicas, the stack-wide decision over several instances, and the closed loop of the whole stack.
- **Replay cache** (`Replay`) and **invocation mailbox** (`Invocation`, `InvocationSafety`, `InvocationReuse`). The
  mailbox is a state machine in which every file operation of every client and of the worker is one step.
- **Resolver and dependency graph** (`VersionOrder`, `Resolver`, `Graph`, `GraphSafety`, `GraphFailure`, `GraphContents`,
  `GraphBuilder`, `GraphExample`). Highest-version resolution and the depth-first expansion on top of it.
- **Manifests** (`AssetRoot`, `Migration`). The Merkle root over assets and the migration planner.
- **Installed library** (`LibraryFiles`, `CapabilityDigest`, `Library`). Crash-safe replacement of the library document
  and the approval of capabilities over whole runs.

`dafny verify dfyconfig.toml` checks everything.

## How the outside world enters

- SHA-256 is a function value. Results that need distinct digests either name the two inputs that would have to
  collide, or take the freshness of neighbouring journal events as a hypothesis (`FreshRun`) whose failure
  `EngineRun.StaleRunIsCollision` turns into a prefix of the run and two neighbouring events of its journal that collide.
- The semantic-version library is a set of function values. `VersionOrder.StrictTotal` states what is used of its
  order; a version is its canonical text.
- The clock, the health and stability verdict, the result of archiving a record, the limit on the number of
  stacks, the state of installed packages and the outcome of a disk write are inputs of the operations that observe them.
- A store is the slice of one stack, and a mailbox the directory of one worker run. Listing a directory is one step.
- Revisions, counts and times are unbounded naturals. Validation bounds replica counts by 32 and journals by 4096
  events, so the sums of the original cannot wrap; its saturating successor of a revision is written out.
- Sorted maps and sets of the original are Dafny maps and sets; where their order matters (the ordinals of a rolling
  action, the capabilities in a digest) it is written out.
- History variables record what has happened (`origins` and `written` in the store, `past` in the mailbox, `ledger` in the
  library, `links` and `rank` in the graph builder, the envelope kept with a claim and with a response). No decision
  reads them.

## Where the code falls short of the intended property

Each of these has a lemma with a failing run or input, and a lemma saying exactly when the property holds.

- One instance's scheduler never waits without cause (`Rolling.WaitHasCause`), but the stack-wide decision can: an instance
  that grows and one that shrinks can use up the stack capacity and then both insist on starting first
  (`StackRun.MixedRunGetsStuck`; exactly when: `StackRun.QuiescentExactly`, `RollingStack.StuckExactly`). It cannot when
  all instances change in one direction (`StackRun.MaximalRunCompletes`).
- A crash between the two writes of rolling back a committed rollout is never recovered: whatever follows, as long as the
  checkpoint holds that rollout, reads report it as committed and rolling it back fails
  (`EngineLoss.LostRollbackIsReached`, `EngineLoss.CommittedRollbackCrashIsLost`; exactly when:
  `EngineLoss.RollbackIsSeenUnlessCommitted`).
- A reconcile pass settles the progress of a finished rollout in every case but one: a committed record whose progress is
  rolling back stays as it is (`EngineLoss.UnsettledIsReached`; exactly when: `EngineRun.PassSettles`).
- A request identity that is used twice can bring a client the reply to the earlier request
  (`InvocationReuse.ReusedIdentityGetsStaleReply`; exactly when: `InvocationReuse.ReuseIsSafeExactly`). Without reuse it
  cannot (`InvocationSafety.RepliesAreGenuine`).
- The graph builder does not refuse a cycle through the root when the root is also a candidate
  (`GraphExample.CycleThroughRootIsAccepted`; exactly when: `GraphFailure.AcyclicExactly`). A provider holds authority over
  its caller exactly when something the root uses also uses the root (`GraphSafety.IsolatedExactly`).
- A persistent grant whose save is refused reports an error and can still open launches, and the record of such a launch
  puts it on disk for later sessions (`Libraries.RefusedGrantOutlivesItsSession`; exactly when it opens a launch:
  `Libraries.GrantOpensExactly`; exactly when it survives a reopening: `Libraries.RefusedGrantSurvivesExactly`).
- A revocation whose save is refused holds in its session and can be undone by a reopening, exactly when no later save of
  that session reaches the disk (`Libraries.RefusedRevocationSurvivesExactly`).

## Model

| member | source | states |
|---|---|---|
| `Rolling.TakeAscendingCounts` | crates/cartridge-engine/src/rolling.rs:191-210 | taking ordinals in ascending order selects members of the set, without repetition, exactly as many as asked for or as there are |
| `Rolling.TakeAscendingLowest` | crates/cartridge-engine/src/rolling.rs:191-210 | what is taken is ascending and lies below every member left behind |
| `Rolling.SortSpec` | crates/cartridge-engine/src/rolling.rs:224-234 | sorting the drain list lists the same ordinals in ascending order |
| `Rolling.StartSpec` | crates/cartridge-engine/src/rolling.rs:191-210 | a start takes the lowest free ordinals, as many as the lesser of the candidates not yet active and the replicas plus surge less those active, and is absent exactly when that is zero |
| `Rolling.DrainListSpec` | crates/cartridge-engine/src/rolling.rs:212-234 | the drain list is free of repetitions, holds every unready previous replica, and of the ready ones exactly the lowest, as many as what serves exceeds the candidate replicas less those that may be unavailable |
| `Rolling.DrainSpec` | crates/cartridge-engine/src/rolling.rs:212-234 | the drain action carries that list in ascending order with the policy's timeout |
| `Rolling.DrainWhen` | crates/cartridge-engine/src/rolling.rs:212-234 | exactly when a drain is possible: a previous replica is active and one is unready or the budget is positive |
| `Rolling.NoActionHasCause` | crates/cartridge-engine/src/rolling.rs:50-66 | because surge and unavailability are not both zero, an incomplete update with no possible action has a started candidate that is not available |
| `Rolling.WaitHasCause` | crates/cartridge-engine/src/rolling.rs:155-189 | the scheduler waits only while some active candidate is not available, for readiness exactly if one is not ready and else for the minimum ready time; waiting for the availability budget is unreachable |
| `Rolling.FinishedCount` | crates/cartridge-engine/src/rolling.rs:155-189 | the completion test by counts means that the available ordinals are exactly 1 to the replica count and no previous one is active |
| `Rolling.CompleteExactly` | crates/cartridge-engine/src/rolling.rs:155-189 | completion is decided if and only if the update is finished |
| `Rolling.RollbackExactly` | crates/cartridge-engine/src/rolling.rs:155-189 | a rollback is decided if and only if a candidate failed, or the deadline passed before completion |
| `Rolling.AnswersExactly` | crates/cartridge-engine/src/rolling.rs:50-153 | the scheduler answers if and only if the policy is within its limits and leaves room and time, the observed sets are consistent and the surge is respected |
| `Rolling.WithinSize` | crates/cartridge-engine/src/rolling.rs:105-153 | ordinals within a replica count number at most that count, and fill it only as the whole range |
| `RollingRun.StartKeeps` | crates/cartridge-engine/src/rolling.rs:191-210 | carrying out a start keeps the observation valid and what serves, and makes progress |
| `RollingRun.DrainKeeps` | crates/cartridge-engine/src/rolling.rs:212-234 | carrying out a drain keeps the observation valid, leaves what served or at least the candidate replicas less those that may be unavailable, and makes progress |
| `RollingRun.EndedKeeps` | crates/cartridge-engine/src/rollout_progress.rs:538-556 | a draining replica that ends, by stopping or otherwise, leaves the loop valid and what serves unchanged, and is progress |
| `RollingRun.ReapedKeeps` | crates/cartridge-cli/src/main.rs:3577-3613 | so is marking a draining replica that ended otherwise as stopped |
| `RollingRun.AcknowledgedKeeps` | crates/cartridge-engine/src/rollout_progress.rs:302-334 | so is acknowledging one that has stopped |
| `RollingRun.EventKeeps` | crates/cartridge-engine/src/rolling.rs:155-235 | every event of the closed loop keeps validity and the floor, and lowers the progress owed unless it only lets time pass |
| `RollingRun.RunKeepsBudgets` | crates/cartridge-engine/src/rolling.rs:105-153 | in every run the active replicas stay within max(previous, candidate) plus surge, and what serves never falls below the lesser of its starting value and the candidate replicas less those that may be unavailable |
| `RollingRun.OwedIsNatural` | crates/cartridge-engine/src/rolling.rs:105-153 | the progress owed is never negative |
| `RollingRun.RunsAreBounded` | crates/cartridge-engine/src/rolling.rs:155-235 | no run makes more progress than it owed at its start, so failure-free updates terminate |
| `RollingRun.QuiescentIsComplete` | crates/cartridge-engine/src/rolling.rs:155-189 | before the deadline a loop can make no further progress if and only if the update is complete |
| `RollingRun.MaximalRunCompletes` | crates/cartridge-engine/src/rolling.rs:155-189 | every maximal run before the deadline ends in completion with no previous replica and every candidate ordinal available |
| `RollingStack.NextAction` | crates/cartridge-engine/src/rollout_progress.rs:336-436 | the validity, time, phase and generation checks come first, in order; then the scan decides |
| `RollingStack.ScanInstances` | crates/cartridge-engine/src/rollout_progress.rs:380-435 | the one-pass scan returns the first interruption, else waits for drains, else the first action cut to the stack capacity, else the first wait, else completion |
| `RollingStack.DecidesUnderGuards` | crates/cartridge-engine/src/rollout_progress.rs:336-380 | there is a decision if and only if progress is valid and rolling, time does not run backwards, the statuses are of the rollout's two generations, no candidate runs unauthorised or the previous status is missing, and the scan decides |
| `RollingStack.DecidesInOrder` | crates/cartridge-engine/src/rollout_progress.rs:359-435 | a missing previous status, the stack limit of 320 and of replicas plus surge, the first interruption and an outstanding drain are considered in this order |
| `RollingStack.FirstInterruptIs` | crates/cartridge-engine/src/rollout_progress.rs:380-395 | the first instance whose scheduler fails or rolls back decides |
| `RollingStack.CutTakesWhatFits` | crates/cartridge-engine/src/rollout_progress.rs:402-418 | a start is cut to a prefix of as many ordinals as fit |
| `RollingStack.SettledInstanceActs` | crates/cartridge-engine/src/rollout_progress.rs:336-436 | with nothing pending an instance is finished or its own scheduler acts, and it starts exactly when candidates and surge are left and the policy starts first or has nothing to drain |
| `RollingStack.ScanSettled` | crates/cartridge-engine/src/rollout_progress.rs:336-436 | with nothing pending, no instance acts exactly when all are finished or, without capacity, when every unfinished one wants to start |
| `RollingStack.StuckExactly` | crates/cartridge-engine/src/rollout_progress.rs:336-471 | with nothing pending, the stack waits if and only if its capacity is used up and every unfinished instance wants to start first |
| `RollingStack.OneDirectionNeverStuck` | crates/cartridge-engine/src/rollout_progress.rs:438-471 | when no instance shrinks while another grows, a settled stack acts or is complete |
| `StackRun.ActionAdvances` | crates/cartridge-engine/src/rollout_progress.rs:212-265 | carrying out an action cut to the stack capacity keeps its instance valid and above its floor, makes progress and adds at most that many replicas |
| `StackRun.EventKeeps` | crates/cartridge-engine/src/rollout_progress.rs:336-471 | every event of the stack loop keeps validity, the stack limit and every instance's floor, and makes progress unless it only lets time pass |
| `StackRun.RunKeepsBudgets` | crates/cartridge-engine/src/rollout_progress.rs:438-471 | in every run of the stack all active replicas together stay within the greater of the summed previous and candidate replicas plus the summed surge, each instance within its own, and none serves less than it did or its candidate replicas less those that may be unavailable |
| `StackRun.TotalsAdd` | crates/cartridge-engine/src/rollout_progress.rs:438-471 | the totals of a stack are sums over its instances |
| `StackRun.RunsAreBounded` | crates/cartridge-engine/src/rollout_progress.rs:336-471 | no run of the stack makes more progress than its instances owed together |
| `StackRun.QuiescentExactly` | crates/cartridge-engine/src/rollout_progress.rs:336-471 | before the deadlines a stack can make no further progress if and only if it is complete, or settled with its capacity used up and every unfinished instance wanting to start |
| `StackRun.MaximalRunCompletes` | crates/cartridge-engine/src/rollout_progress.rs:336-471 | when all instances change in one direction, every maximal run of the stack before the deadlines completes |
| `StackRun.MixedRunGetsStuck` | crates/cartridge-engine/src/rollout_progress.rs:336-471 | a run from a valid stack of two instances that ends unfinished with nothing left to happen |
| `StackRun.FailedDrainDecidesNothing` | crates/cartridge-engine/src/rollout_progress.rs:302-334 | a draining replica that has ended without being marked as stopped keeps the whole stack from starting or draining anything |
| `StackRun.FailedDrainRollsBackExactly` | crates/cartridge-engine/src/rollout_progress.rs:336-436 | with such a replica, once the deadlines have passed the stack rolls back if and only if some instance is unfinished |
| `StackRun.AbandonedStackWaits` | crates/cartridge-engine/src/rollout_progress.rs:336-436 | if every instance is finished by then, the stack waits in every run in which the supervisor does not mark it, whatever time passes |
| `StackRun.AbandonedIsReached` | crates/cartridge-engine/src/rollout_progress.rs:336-436 | a run from a valid stack of one instance that ends in that situation |
| `RolloutSafety.StaleIdentityIsCollision` | crates/cartridge-engine/src/lib.rs:1875-1892 | neighbouring events with one identity are a hash collision of different bodies |
| `RolloutSafety.AppendKeepsJournal` | crates/cartridge-engine/src/lib.rs:1471-1497 | an append keeps revisions consecutive and every event linked to its predecessor |
| `RolloutSafety.ReplaceIsAtomic` | crates/cartridge-engine/src/lib.rs:2106-2148 | after every step of a file replacement, recovery would read the old or the new value; the last state holds the new value, and no backup if there was a file to replace |
| `RolloutSafety.RecoverKeeps` | crates/cartridge-engine/src/rollout.rs:827-846 | recovering a file whose readable value is valid succeeds and leaves just that value |
| `RolloutSafety.RecoveredIsExact` | crates/cartridge-engine/src/rollout.rs:584-616 | recovery of a checkpoint succeeds; it advances the phase exactly when the journal holds the matching event, and otherwise changes nothing |
| `RolloutSafety.ReadKeeps` | crates/cartridge-engine/src/rollout.rs:365-382 | a read succeeds, keeps the invariant at every write, touches only the checkpoint, and returns the recovered record |
| `RolloutSafety.ActivateKeeps` | crates/cartridge-engine/src/rollout.rs:432-461 | activation keeps the invariant at every write and succeeds exactly on an activated record, or a prepared one with advancing time and room in the journal |
| `RolloutSafety.CommitKeeps` | crates/cartridge-engine/src/rollout.rs:463-520 | commit keeps the invariant, succeeds exactly on a committed record or an activated ready one, and changes only the checkpoint |
| `RolloutSafety.TargetIsUndo` | crates/cartridge-engine/src/rollout.rs:683-705 | the rollback target is the kind and plan of the journal event before the rollout, or removal when there was none |
| `RolloutSafety.RollbackKeeps` | crates/cartridge-engine/src/rollout.rs:522-562 | rollback keeps the invariant at every write, with the exact condition for success and the phase it ends in |
| `RolloutSafety.RollbackActivatedKeeps` | crates/cartridge-engine/src/rollout.rs:522-562 | rolling back at the activation appends exactly one event, which undoes the rollout |
| `RolloutSafety.CancelKeeps` | crates/cartridge-engine/src/rollout.rs:522-562 | rolling back a prepared rollout cancels it without touching the journal |
| `RolloutSafety.DropProgressKeeps` | crates/cartridge-engine/src/rollout_progress.rs:719-735 | removing the progress of the current record succeeds and leaves neither file |
| `RolloutSafety.BeginKeeps` | crates/cartridge-engine/src/rollout.rs:384-430 | starting a rollout keeps the invariant, with the exact condition for success |
| `RolloutSafety.PrepareKeeps` | crates/cartridge-engine/src/rollout.rs:384-430 | preparation keeps the invariant at every write, leaves the journal alone and returns a record of the requested plan |
| `RolloutSafety.AppendNextKeeps` | crates/cartridge-engine/src/lib.rs:861-941 | applying, stopping or removing a stack keeps the invariant when no rollout is active |
| `EngineRun.CommandKeeps` | crates/cartridge-engine/src/rollout.rs:365-616 | every command and every reconcile pass keeps the invariant after each of its writes |
| `EngineRun.RunKeepsInvariant` | crates/cartridge-engine/src/rollout.rs:365-616 | every run of commands and passes, each crashing anywhere, keeps the invariant |
| `EngineRun.StaleRunIsCollision` | crates/cartridge-engine/src/rollout.rs:755-793 | a run that is not fresh has a prefix whose journal holds two neighbouring events with different bodies and one digest |
| `EngineRun.ReachableCheckpointsAreValid` | crates/cartridge-engine/src/rollout.rs:325-362 | in every run the checkpoint is valid, its digest and identity are those of its contents, and it has exactly the fields of its phase with consecutive revisions |
| `EngineRun.SourcesAreUnique` | crates/cartridge-engine/src/rollout.rs:432-562 | two events of one kind with the same rollout identity come from different rollout keys |
| `EngineRun.RolloutAppendsOnce` | crates/cartridge-engine/src/rollout.rs:432-562 | in every run with crashes and retries, two activation events or two rollback events of one rollout identity come from two different rollout keys of that journal with one digest |
| `EngineRun.ReadIsTotalAndExact` | crates/cartridge-engine/src/rollout.rs:365-382 | in every reachable state a read succeeds; it returns the stored record, or, exactly when the journal tip is an event the record does not know, the record in the next phase with the number, digest and time of that event |
| `EngineRun.RollbackRestores` | crates/cartridge-engine/src/rollout.rs:522-562 | a rollback that completes leaves at the journal tip the kind and plan desired before the rollout, or removal when there was no stack |
| `EngineRun.PhasesFollowTheGraph` | crates/cartridge-engine/src/rollout.rs:384-562 | at every single write of every run the phase moves along prepared to activated or cancelled, activated to committed or rolled back, committed to rolled back |
| `EngineResults.PreparesExactly` | crates/cartridge-engine/src/rollout.rs:384-430 | preparation succeeds if and only if the plan is the one its digest names, it keeps the sandbox or that is accepted, and its rollout is prepared, or committed and the last event, or can begin: nothing active, the old record archived, a time, a journal or a free slot, and not in force already; the record and the store it leaves are given field by field |
| `EngineResults.ActivatesExactly` | crates/cartridge-engine/src/rollout.rs:432-461 | exactly when activation succeeds, the event it appends and the record it leaves |
| `EngineResults.CommitsExactly` | crates/cartridge-engine/src/rollout.rs:463-520 | exactly when commit succeeds and the record it leaves, with journal and progress untouched |
| `EngineResults.RollsBackExactly` | crates/cartridge-engine/src/rollout.rs:522-562 | exactly when rollback succeeds, the event that undoes the rollout and the record it leaves |
| `EngineResults.AppliesExactly` | crates/cartridge-engine/src/lib.rs:861-895 | exactly when applying a plan succeeds, and the one event it appends unless the plan is in force |
| `EngineResults.StopsExactly` | crates/cartridge-engine/src/lib.rs:897-922 | exactly when stopping succeeds, and the applied plan with every instance stopped that it appends |
| `EngineResults.RemovesExactly` | crates/cartridge-engine/src/lib.rs:924-941 | exactly when removing succeeds, and the event it appends |
| `EngineLoss.CommittedRollbackCrashIsLost` | crates/cartridge-engine/src/rollout.rs:584-616 | after a crash between the two writes of rolling back a committed rollout, in every further run that still holds the rollout a read returns it as committed and rolling it back fails |
| `EngineLoss.RunKeepsStuck` | crates/cartridge-engine/src/rollout.rs:365-616 | once the journal has passed a rollout's rollback event, no command, pass or crash moves its committed checkpoint, and no new rollout takes its key |
| `EngineLoss.RollbackIsSeenUnlessCommitted` | crates/cartridge-engine/src/rollout.rs:584-616 | a journalled rollback is recognised by the next read if and only if the checkpoint was not committed |
| `EngineLoss.LostRollbackIsReached` | crates/cartridge-engine/src/rollout.rs:522-562 | for every hash and valid plan, a run from the empty store that ends with the rollback journalled and the rollout committed |
| `EngineLoss.UnsettledIsReached` | crates/cartridge-cli/src/engine_daemon.rs:780-829 | for every hash and valid plan, a run from the empty store that ends with a committed record and progress rolling back, which a pass leaves so |
| `EngineRun.RunIsWitnessed` | crates/cartridge-engine/src/rollout.rs:463-520 | a checkpoint that carries a health report was committed in some durable state of the run |
| `EngineRun.SavedProgressIsHonest` | crates/cartridge-cli/src/engine_daemon.rs:734-885 | in every run saved progress belongs to the checkpoint, is completed only if some durable state of the run held that rollout as committed, and rolled back only for one that is |
| `EngineRun.PassSettles` | crates/cartridge-cli/src/engine_daemon.rs:780-829 | one pass without a crash settles the progress of a finished rollout, except exactly a committed one whose progress is rolling back |
| `ReconcileSafety.ReadCurrent` | crates/cartridge-engine/src/rollout.rs:365-382 | reading again writes nothing and returns the same record |
| `ReconcileSafety.SaveProgressKeeps` | crates/cartridge-engine/src/rollout_progress.rs:708-717 | saving matching progress succeeds, keeps the invariant at every write and leaves just that document |
| `ReconcileSafety.ReadProgressKeeps` | crates/cartridge-engine/src/rollout_progress.rs:665-683 | reading progress succeeds and returns what the files stand for |
| `ReconcileSafety.BeginProgressKeeps` | crates/cartridge-engine/src/rollout_progress.rs:685-706 | beginning progress of an activated rollout succeeds and matches its record |
| `ReconcileSafety.SettleCommittedKeeps` | crates/cartridge-cli/src/engine_daemon.rs:788-806 | for a committed record, rolling, paused and completing progress ends completed and other progress is not written |
| `ReconcileSafety.SettleRolledBackKeeps` | crates/cartridge-cli/src/engine_daemon.rs:807-829 | for a rolled-back record, unfinished progress ends rolled back and finished progress is not written |
| `ReconcileSafety.FinishCompletingKeeps` | crates/cartridge-cli/src/engine_daemon.rs:833-866 | committing and then completing keeps the invariant at every write |
| `ReconcileSafety.FinishRollingBackKeeps` | crates/cartridge-cli/src/engine_daemon.rs:867-883 | rolling back and then recording it keeps the invariant at every write |
| `ReconcileSafety.AdvanceKeeps` | crates/cartridge-cli/src/engine_daemon.rs:887-943 | acting on the scheduler keeps the invariant at every write |
| `ReconcileSafety.PassKeeps` | crates/cartridge-cli/src/engine_daemon.rs:734-778 | a whole pass keeps the invariant at every write |
| `ReconcileResults.PassCompletes` | crates/cartridge-cli/src/engine_daemon.rs:833-855 | a pass over completing progress of a healthy and stable rollout leaves the record committed and the progress completed |
| `ReconcileResults.PassRefusesUnstable` | crates/cartridge-cli/src/engine_daemon.rs:842-845 | a healthy rollout that is not stable is an error without a write |
| `ReconcileResults.PassTurnsBackExactly` | crates/cartridge-cli/src/engine_daemon.rs:856-866 | an unhealthy one ends rolling back if and only if no progress was made for its deadline, else nothing is written |
| `ReconcileResults.PassRollsBack` | crates/cartridge-cli/src/engine_daemon.rs:867-883 | a pass over progress that is rolling back appends the undoing event and leaves the record rolled back and the progress reverted |
| `ReconcileResults.PassRefusesRollback` | crates/cartridge-cli/src/engine_daemon.rs:867-872 | changed packages or a full journal are an error without a write |
| `ReconcileResults.PassFollowsAdvice` | crates/cartridge-cli/src/engine_daemon.rs:887-943 | a pass over rolling progress ends completing, rolling back or rolling as advised, and writes nothing exactly when advised to hold with no drain acknowledged |
| `ReconcileResults.PassLeavesAlone` | crates/cartridge-cli/src/engine_daemon.rs:884-885 | paused or finished progress of an activated rollout is left alone |
| `ReconcileResults.PassBegins` | crates/cartridge-engine/src/rollout_progress.rs:685-706 | the first pass begins progress with the fields of the record and goes on as with that progress |
| `EngineStores.EngineStore.AppendEvent` | crates/cartridge-engine/src/lib.rs:1471-1497 | the method makes exactly the writes of the specified append and returns its result |
| `EngineStores.EngineStore.WriteCheckpointFile` | crates/cartridge-engine/src/lib.rs:2106-2148 | the renames of a replacement pass through exactly the specified states |
| `EngineStores.EngineStore.RecoverCheckpointFile` | crates/cartridge-engine/src/rollout.rs:827-846 | file recovery makes exactly the specified writes and fails without writing |
| `EngineStores.EngineStore.RecoverRolloutCheckpoint` | crates/cartridge-engine/src/rollout.rs:584-616 | the record updated field by field is the recovered record, and the flag tells whether it changed |
| `EngineStores.EngineStore.ReadRollout` | crates/cartridge-engine/src/rollout.rs:365-382 | a read makes exactly the specified writes and returns the specified record, and every write keeps the invariant |
| `EngineStores.EngineStore.RequireRollout` | crates/cartridge-engine/src/rollout.rs:571-582 | requiring a rollout fails without a checkpoint or on another identity, after the writes of the read |
| `EngineStores.EngineStore.ActivateRollout` | crates/cartridge-engine/src/rollout.rs:432-461 | activation, write by write, is the specified one, and every write keeps the invariant |
| `EngineStores.EngineStore.CommitRollout` | crates/cartridge-engine/src/rollout.rs:463-520 | commit, write by write, is the specified one, and every write keeps the invariant |
| `EngineStores.EngineStore.RollbackRollout` | crates/cartridge-engine/src/rollout.rs:522-562 | rollback, write by write, is the specified one, and every write keeps the invariant |
| `EngineStores.EngineStore.PrepareRollout` | crates/cartridge-engine/src/rollout.rs:384-430 | preparation, write by write, is the specified one, and every write keeps the invariant |
| `EngineStores.EngineStore.RemoveTerminalProgress` | crates/cartridge-engine/src/rollout_progress.rs:719-735 | removal of terminal progress, write by write, is the specified one |
| `ReconcileDaemon.SaveRolloutProgress` | crates/cartridge-engine/src/rollout_progress.rs:708-717 | saving progress, write by write, is the specified save |
| `ReconcileDaemon.ReadRolloutProgress` | crates/cartridge-engine/src/rollout_progress.rs:665-683 | reading progress, write by write, is the specified read |
| `ReconcileDaemon.ProgressDocument.ChangePhase` | crates/cartridge-engine/src/rollout_progress.rs:267-294 | a phase change in place follows the allowed transitions and leaves the document alone on an error |
| `ReconcileDaemon.SettleRollout` | crates/cartridge-cli/src/engine_daemon.rs:780-885 | the phase cases, write by write, are the specified ones |
| `ReconcileDaemon.AdvanceActiveRollout` | crates/cartridge-cli/src/engine_daemon.rs:887-943 | acknowledging drains and following the scheduler, write by write, is the specified step |
| `ReconcileDaemon.ReconcileRollouts` | crates/cartridge-cli/src/engine_daemon.rs:734-778 | the pass over one stack, write by write, is the specified pass, and every write keeps the invariant |
| `Replay.ReplayCache.Accept` | crates/cartridge-cli/src/engine_daemon.rs:94-110 | the verdict and the new cache are those of the specification with the daemon's limits |
| `Replay.RunRemembers` | crates/cartridge-cli/src/engine_daemon.rs:94-110 | with a nondecreasing clock the cache remembers exactly the identities accepted within the retention time |
| `Replay.AcceptedExactly` | crates/cartridge-cli/src/engine_daemon.rs:94-110 | over every run a call is accepted if and only if it is fresh, its identity was not accepted within the retention time and fewer identities than the capacity were |
| `Replay.DaemonAcceptsExactly` | crates/cartridge-cli/src/engine_daemon.rs:94-110 | with 30 seconds, 60 seconds and 4096 written out |
| `Replay.RetentionPreventsReplay` | crates/cartridge-cli/src/engine_daemon.rs:94-110 | retention of at least twice the skew rules out accepting one identity and issue time twice |
| `Replay.ShortRetentionReplays` | crates/cartridge-cli/src/engine_daemon.rs:94-110 | any shorter retention lets a request through at both ends of its window |
| `Replay.RetentionBoundIsExact` | crates/cartridge-cli/src/engine_daemon.rs:32-34 | replays are impossible over all runs if and only if retention covers twice the skew |
| `Replay.DaemonCacheIsSafe` | crates/cartridge-cli/src/engine_daemon.rs:32-34 | with the daemon's limits the cache holds at most 4096 entries and no request is accepted twice |
| `Invocation.WorkerPending` | crates/cartridge-cli/src/invocation_broker.rs:61-201 | no step of the worker adds to the number of requests and claims |
| `Invocation.ClientBounded` | crates/cartridge-cli/src/engine_daemon.rs:364-461 | counting under the lock keeps every publication below the limit |
| `Invocation.MailboxIsBounded` | crates/cartridge-cli/src/engine_daemon.rs:364-485 | in every interleaving, whatever the identities, the mailbox holds at most 16 requests and claims |
| `InvocationSafety.WorkerKeeps` | crates/cartridge-cli/src/invocation_broker.rs:61-201 | every step of any worker thread, composing, looking for and placing a response apart, keeps the provenance of files, claims and responses, whatever times the clock gives |
| `InvocationSafety.ClientKeeps` | crates/cartridge-cli/src/engine_daemon.rs:364-461 | every step of a client with a new identity keeps it too |
| `InvocationSafety.RunKeeps` | crates/cartridge-cli/src/engine_daemon.rs:364-461 | every interleaving without reused identities keeps it |
| `InvocationSafety.RepliesAreGenuine` | crates/cartridge-cli/src/engine_daemon.rs:364-461 | in every such interleaving a reply given to a client carries its target and identity and a time within its deadline, and was made by the addressed run for its claim of exactly that client's envelope |
| `InvocationSafety.PollsExactly` | crates/cartridge-cli/src/engine_daemon.rs:433-447 | the client is given the response it finds if and only if target and identity are its own and it is in time |
| `InvocationSafety.ClaimsExactly` | crates/cartridge-cli/src/invocation_broker.rs:103-133 | a claim is made if and only if the file holds a request under its identity, addressed to this run, before its deadline and on a ready route |
| `InvocationSafety.AdmitsExactly` | crates/cartridge-cli/src/engine_daemon.rs:467-485 | a request is admitted if and only if fewer than 16 requests and claims lie there and at most 48 files |
| `InvocationSafety.PublishesExactly` | crates/cartridge-cli/src/engine_daemon.rs:487-520 | the request is written if and only if there is none under its identity |
| `InvocationSafety.AnswersExactly` | crates/cartridge-cli/src/invocation_broker.rs:151-175 | an answer is composed if and only if the deadline has not passed, and carries the target of its claim |
| `InvocationSafety.FinishesAnswer` | crates/cartridge-cli/src/invocation_broker.rs:176-200 | placing a response ends the claim and removes the claimed file |
| `InvocationSafety.CleansUp` | crates/cartridge-cli/src/engine_daemon.rs:457-460 | cleaning up removes the three files of the identity and no other |
| `InvocationSafety.KeepsResponse` | crates/cartridge-cli/src/invocation_broker.rs:227-233 | a response that is there already ends the attempt and stays |
| `InvocationSafety.Takes` | crates/cartridge-cli/src/invocation_broker.rs:85-91 | taking a request moves its file to the claimed ones |
| `InvocationSafety.Discards` | crates/cartridge-cli/src/invocation_broker.rs:92-98 | a claimed file that is not deliverable is removed |
| `InvocationSafety.ClaimedAtMostOnce` | crates/cartridge-cli/src/invocation_broker.rs:61-134 | in every such interleaving a publication is claimed at most once and never becomes a request again |
| `InvocationReuse.ReuseIsSafeExactly` | crates/cartridge-cli/src/engine_daemon.rs:364-461 | in a mailbox that admits another request, beginning an identity is safe in every continuation if and only if no response left or being placed under it would be accepted for another envelope, and no request, opening, claim or composed response left under it can still lead to one |
| `InvocationReuse.RunIsCalm` | crates/cartridge-cli/src/invocation_broker.rs:61-201 | without such a leftover every interleaving gives the client only replies to its own envelope |
| `InvocationReuse.ThreatMisleads` | crates/cartridge-cli/src/invocation_broker.rs:61-201 | every such leftover has a continuation that gives the client a reply to another envelope |
| `InvocationReuse.ReusedIdentityGetsStaleReply` | crates/cartridge-cli/src/engine_daemon.rs:457-460 | a reachable mailbox, after a client died, in which the used identity is not safe to begin again |
| `VersionOrder.NewestExists` | crates/cartridge-desktop/src/lib.rs:1182-1197 | every nonempty set of versions has a newest one |
| `Resolver.InsertDescending` | crates/cartridge-core/src/resolver.rs:555-555 | inserting behind every candidate that is not older keeps newest-first order and the members |
| `Resolver.MatchingDescending` | crates/cartridge-core/src/resolver.rs:545-555 | the list holds exactly the candidates of the package within the range, newest first |
| `Resolver.FindProvider` | crates/cartridge-core/src/resolver.rs:557-569 | the first providing candidate of that list is the best one |
| `Resolver.AllDistinct` | crates/cartridge-core/src/resolver.rs:527-538 | the set scan finds a repeated package and version exactly when there is one |
| `Resolver.ResolveDependencies` | crates/cartridge-core/src/resolver.rs:511-602 | the loops compute the resolution that depends on the candidates only as a set, with its errors in order |
| `Resolver.BestIsHighest` | crates/cartridge-core/src/resolver.rs:557-577 | the version chosen is that of a candidate of the package in range with a service that is not private for every requested interface, no such candidate is newer, and none is chosen only if there is none |
| `Resolver.PlanIsComplete` | crates/cartridge-core/src/resolver.rs:571-595 | every dependency stands in the plan with its best version or, if optional, as unavailable |
| `Resolver.PlanConservesAliases` | crates/cartridge-core/src/resolver.rs:571-595 | the aliases of the plan are those of the dependencies, each as often as declared |
| `Resolver.FailsAtFirstMissing` | crates/cartridge-core/src/resolver.rs:588-595 | resolution fails if and only if a required dependency has no suitable candidate, and names the first such one |
| `Resolver.ResolvesExactly` | crates/cartridge-core/src/resolver.rs:511-602 | resolution succeeds if and only if there are at most 4096 candidates, all manifests are sane, no two share package and version, and every required dependency has a fitting candidate |
| `Resolver.PermutationInvariant` | crates/cartridge-core/src/resolver.rs:511-602 | permuting the candidates changes neither the plan nor the error |
| `GraphBuilders.GraphBuilder.constructor` | crates/cartridge-core/src/resolver.rs:351-375 | the builder starts with the root as its only node, visited but not on the path |
| `GraphBuilders.GraphBuilder.FindCandidate` | crates/cartridge-core/src/resolver.rs:454-456 | the search returns the first candidate of that package and version |
| `GraphBuilders.GraphBuilder.NextInstance` | crates/cartridge-core/src/resolver.rs:399-407 | the name carries the count from the second instance on and the major version from one on |
| `GraphBuilders.GraphBuilder.ExpandGraph` | crates/cartridge-core/src/resolver.rs:410-509 | the recursive expansion in place builds what the specified expansion builds, or fails with its error |
| `GraphBuilders.BuildApprovedGraph` | crates/cartridge-core/src/resolver.rs:347-397 | on success the nodes are distinct packages, at most 256, and exactly those reachable from the root by resolution |
| `GraphSafety.EnteredKeeps` | crates/cartridge-core/src/resolver.rs:474-482 | adding a package that was not visited keeps the invariant of the expansion |
| `GraphSafety.FinishedKeeps` | crates/cartridge-core/src/resolver.rs:495-497 | leaving a package whose uses are all linked keeps it |
| `GraphSafety.JoinedKeeps` | crates/cartridge-core/src/resolver.rs:500-505 | an edge to a package that is visited and off the path keeps it and adds one link of the caller |
| `GraphSafety.ExpandKeeps` | crates/cartridge-core/src/resolver.rs:410-509 | a successful expansion keeps it, links every dependency of its package in order, and changes no link of other visited packages |
| `GraphSafety.BuildIsExact` | crates/cartridge-core/src/resolver.rs:347-397 | a built graph has one node for each reachable package and no other, at most 256, and for every node one edge for each resolved dependency, in order |
| `GraphContents.BuildDescribes` | crates/cartridge-core/src/resolver.rs:429-479 | every node of a built graph carries the public interfaces of its package, and the graph lists what the packages lack, in the order of the nodes |
| `GraphContents.PublicListIs` | crates/cartridge-core/src/resolver.rs:466-472 | the public interfaces are those of the services that are not private |
| `GraphContents.PublicListJoins` | crates/cartridge-core/src/resolver.rs:466-472 | they are listed in the order of the services |
| `GraphContents.NamesLook` | crates/cartridge-core/src/resolver.rs:399-452 | how instances are named |
| `GraphSafety.CyclesPassRoot` | crates/cartridge-core/src/resolver.rs:432-506 | every cycle of uses in a built graph passes through the root |
| `GraphSafety.IsolatedExactly` | crates/cartridge-core/src/resolver.rs:316-333 | the authority of a validated graph is isolated if and only if nothing the root uses uses the root |
| `GraphFailure.FailureIsGenuine` | crates/cartridge-core/src/resolver.rs:410-509 | every refusal has a cause: a cycle of reachable packages off the root, a chain of more than 64 uses between different packages, more than 256 reachable packages, or a reachable package that does not resolve |
| `GraphFailure.BuildsExactly` | crates/cartridge-core/src/resolver.rs:410-509 | where no chain of different packages is too deep, a graph is built if and only if there is no cycle of reachable packages off the root, at most 256 are reachable and each of them resolves |
| `GraphFailure.ResolvedIsCandidate` | crates/cartridge-core/src/resolver.rs:571-577 | a resolved dependency names a package and version among the candidates |
| `GraphFailure.ResolverIsSound` | crates/cartridge-core/src/resolver.rs:454-464 | the lookup of a resolved package during expansion never fails |
| `GraphFailure.AcyclicExactly` | crates/cartridge-core/src/resolver.rs:432-506 | the uses in a built graph are acyclic if and only if no reachable package uses the root |
| `GraphFailure.BuiltGraphIsAcyclic` | crates/cartridge-core/src/resolver.rs:432-506 | in particular they are when the root is not a candidate |
| `GraphFailure.BuiltAuthorityIsIsolated` | crates/cartridge-core/src/resolver.rs:273-333 | when the root is not a candidate, the authority of a validated graph is isolated |
| `GraphExample.MutualUseOfRootIsAccepted` | crates/cartridge-core/src/resolver.rs:372-375 | any root whose one provider uses just the root is accepted |
| `GraphExample.CycleThroughRootIsAccepted` | crates/cartridge-core/src/resolver.rs:372-375 | two concrete manifests that use each other are accepted |
| `AssetRoot.HexRoundTrip` | crates/cartridge-core/src/manifest.rs:587-623 | decoding what was encoded in hexadecimal gives the bytes back |
| `AssetRoot.ComputeLeaves` | crates/cartridge-core/src/manifest.rs:588-606 | the leaf loop computes the specified leaves or the first error |
| `AssetRoot.ComputeParents` | crates/cartridge-core/src/manifest.rs:610-622 | the pairing loop computes the next level, duplicating an odd last node |
| `AssetRoot.AssetIntegrityRoot` | crates/cartridge-core/src/manifest.rs:587-623 | the level loop returns the lower-case hexadecimal form of the specified root, which decodes to it, or its error |
| `AssetRoot.SmallRoots` | crates/cartridge-core/src/manifest.rs:587-623 | the roots of none, one, two and three assets in bytes: the prefixes, the eight-byte path length, the order of children and the doubled last node |
| `AssetRoot.BigEndianReads` | crates/cartridge-core/src/manifest.rs:597-602 | the length bytes read as the length, most significant first |
| `AssetRoot.HexIsLowerCase` | crates/cartridge-core/src/manifest.rs:622-622 | the printed root is lower-case |
| `AssetRoot.DecodedIsPairs` | crates/cartridge-core/src/manifest.rs:587-623 | the decoded asset map holds exactly the listed pairs of path and digest |
| `AssetRoot.SameHeightSameNodes` | crates/cartridge-core/src/manifest.rs:610-622 | trees of one height with one root have the same lowest nodes, duplicates aside, unless an input of one collides with one of the other |
| `AssetRoot.LowerTreeNodeIsParent` | crates/cartridge-core/src/manifest.rs:610-622 | a lower tree with the same root has a node that the higher one hashed as a parent |
| `AssetRoot.HeightsAgree` | crates/cartridge-core/src/manifest.rs:587-623 | equal roots without a collision mean that neither tree is lower |
| `AssetRoot.EmptyRootIsItsOwn` | crates/cartridge-core/src/manifest.rs:587-623 | only a collision gives a nonempty map the root of the empty one |
| `AssetRoot.SameRootSameMap` | crates/cartridge-core/src/manifest.rs:587-623 | equal roots without a collision mean equal maps |
| `AssetRoot.RootBindsAssets` | crates/cartridge-core/src/manifest.rs:587-623 | two different maps with one root exhibit two inputs, each hashed for one of them, that collide |
| `Migrations.ScanEdges` | crates/cartridge-core/src/manifest.rs:747-775 | the scan succeeds exactly when every edge is valid and no name or source repeats, and indexes the edges by source |
| `Migrations.LeadsToSchema` | crates/cartridge-core/src/manifest.rs:777-788 | following an edge terminates; success means a path of declared edges on to the schema, failure that some edge leads nowhere |
| `Migrations.ValidateState` | crates/cartridge-core/src/manifest.rs:734-789 | validation succeeds if and only if storage is permitted where needed, the edges are few, valid and distinct, and every one leads on to the schema |
| `Migrations.StateIsValidExactly` | crates/cartridge-core/src/manifest.rs:734-789 | what a declaration has to satisfy, written out |
| `Migrations.MigrationPlan` | crates/cartridge-core/src/manifest.rs:135-172 | planning succeeds if and only if the manifest is valid and the source is the schema or the source of an edge, and then returns a contiguous path to the schema |
| `Migrations.PathIncreases` | crates/cartridge-core/src/manifest.rs:150-161 | the steps of a path are strictly increasing |
| `Migrations.PathIsShort` | crates/cartridge-core/src/manifest.rs:150-161 | a path is no longer than the list of declared migrations |
| `Migrations.PathIsUnique` | crates/cartridge-core/src/manifest.rs:150-161 | there is only one path from a source to the schema |
| `LibraryFiles.LibraryDisk.AtomicReplace` | crates/cartridge-desktop/src/lib.rs:1016-1050 | the replacement passes through exactly the specified disks |
| `LibraryFiles.LibraryDisk.RecoverDocument` | crates/cartridge-desktop/src/lib.rs:995-1013 | recovery passes through exactly the specified disks and fails without changing one |
| `LibraryFiles.OpenReadsHeld` | crates/cartridge-desktop/src/lib.rs:199-238 | opening reads the intact document, else the intact previous copy, else the default, and fails if and only if no quarantine slot is left for a broken file it must move |
| `LibraryFiles.ReplaceKeeps` | crates/cartridge-desktop/src/lib.rs:1016-1050 | after every step of a replacement the disk stands for the old or the new document, and for the new one at the end |
| `LibraryFiles.OpenKeeps` | crates/cartridge-desktop/src/lib.rs:199-238 | opening a disk the library itself wrote succeeds, and every step of it keeps the document |
| `LibraryFiles.RunKeeps` | crates/cartridge-desktop/src/lib.rs:199-238 | every run of saves and openings that crash anywhere keeps the disk sound and holding a possible document |
| `LibraryFiles.ReopenReadsLastOrInterrupted` | crates/cartridge-desktop/src/lib.rs:995-1050 | after every such run opening succeeds; once a save has completed it reads that document or one whose save crashed later |
| `CapabilityDigest.LabelsAreMarked` | crates/cartridge-desktop/src/lib.rs:827-845 | the records of different capabilities differ in their length or first letter |
| `CapabilityDigest.SameConcatenation` | crates/cartridge-desktop/src/lib.rs:827-845 | equal concatenations of such records come from equal selections |
| `CapabilityDigest.EncodingIsInjective` | crates/cartridge-desktop/src/lib.rs:827-845 | the bytes hashed for a capability set determine the set |
| `Libraries.Library.FindNewest` | crates/cartridge-desktop/src/lib.rs:1186-1197 | the scan finds the newest version, and none exactly when there is none |
| `Libraries.Library.CheckPreflight` | crates/cartridge-desktop/src/lib.rs:355-392 | the preflight report is the specified one |
| `Libraries.Library.Grant` | crates/cartridge-desktop/src/lib.rs:418-456 | granting in place ends in the specified state, whatever the write does |
| `Libraries.Library.RevokeGrant` | crates/cartridge-desktop/src/lib.rs:458-471 | revoking in place ends in the specified state, whatever the write does |
| `Libraries.Library.LaunchVersion` | crates/cartridge-desktop/src/lib.rs:473-513 | beginning a launch in place ends in the specified state, whatever the write does |
| `Libraries.GrantKeeps` | crates/cartridge-desktop/src/lib.rs:418-456 | after a grant the document and the session hold exactly the grants that stand, with a persistent grant for another request superseding earlier ones, and the stored document exactly those the next session would know |
| `Libraries.RevokeKeeps` | crates/cartridge-desktop/src/lib.rs:458-471 | the same after a revocation, even one that fails to reach the disk |
| `Libraries.RunKeeps` | crates/cartridge-desktop/src/lib.rs:199-513 | the same after every run of installs, grants, revocations, launches and reopenings |
| `Libraries.LaunchAdmittedExactly` | crates/cartridge-desktop/src/lib.rs:473-513 | in every run a launch is admitted if and only if the package is installed and not in safe mode, the record is written, and each requested capability has a standing grant of this session or a standing persistent one approved for the same digest |
| `Libraries.LaunchIsApproved` | crates/cartridge-desktop/src/lib.rs:473-513 | in every run a successful launch is of an installed version, and each capability that version requests has a standing grant of this session or a persistent one approved for exactly that set, or two capability sets collide |
| `Libraries.LaunchIsRecorded` | crates/cartridge-desktop/src/lib.rs:473-513 | the launch is of the requested version, or of the installed one that all others precede; its record, numbered above the last, ends the stored history of at most 4096 |
| `Libraries.PreflightSplits` | crates/cartridge-desktop/src/lib.rs:355-392 | the report splits what the version requests into what has a standing grant and what has none |
| `Libraries.GrantsExactly` | crates/cartridge-desktop/src/lib.rs:418-456 | exactly when a grant succeeds and what it changes |
| `Libraries.RevokesExactly` | crates/cartridge-desktop/src/lib.rs:458-471 | what a revocation takes away, and from whom it does not |
| `Libraries.InstallsExactly` | crates/cartridge-desktop/src/lib.rs:240-323 | an installed version never changes; a new one is added and nothing else |
| `Libraries.GrantOpensExactly` | crates/cartridge-desktop/src/lib.rs:418-456 | whatever becomes of its save, a persistent grant opens a launch that was closed if and only if the package is not in safe mode and the grant covers the capabilities that were missing, of which there is one |
| `Libraries.RefusedGrantSurvivesExactly` | crates/cartridge-desktop/src/lib.rs:418-513 | a grant whose save is refused reports an error, and after any further steps without a decision it is in force after a reopening if and only if a save of its session reached the disk |
| `Libraries.RefusedRevocationSurvivesExactly` | crates/cartridge-desktop/src/lib.rs:458-513 | a revocation whose save is refused reports an error, and a reopening undoes it if and only if no later save of its session reached the disk |
| `Libraries.RefusedGrantOutlivesItsSession` | crates/cartridge-desktop/src/lib.rs:418-513 | a refused grant opens a launch, whose own record stores it, so that the launch is admitted again after any reopening |
| `Libraries.RevokedCannotLaunch` | crates/cartridge-desktop/src/lib.rs:458-513 | a revocation of this session, or one that reached the disk in its own, blocks every launch that needs the capability until a new grant |

## Left out

- Encryption, sockets, JSON and TOML encoding, ZIP archives, process control and the user interface: plumbing around the logic modelled here.
- Health derivation: "ready and stable" is one input of the commit.
- Runtime status observation: the rolling observation is taken as given; how replica states are collected from supervisors is not modelled.
- Routing snapshots: a failure to publish one stops a pass like a crash, but their contents are not modelled.
- Rollout history archives: whether the terminal record could be archived is an input.
- Paths, permissions, symbolic-link checks, byte limits of files and leftover temporary files of the engine.
- Plans beyond what the rollout reads: a plan is its content, the insecure flag, the desired states of its instances and its digest.
- The composition lock and its validation: independent field checks.
- Manifest checks outside state migrations and relationships enter as one flag, as do the text checks of names, interfaces and reasons in manifests, graphs and grants.
- The texts of errors and of reasons for unavailability, and which duplicate a duplicate error names.
- Permission masks, runtime limit ceilings, retry backoff, launch history trimming and safe-mode heuristics: finite or one-branch facts.
- The invocation mailbox is modelled as steps on values and not as a class, because other processes change its files between any two operations; choosing a replica among several and a client's next attempt on another replica are outside the slice of one directory, and a client refused here gives up the lock at once, which allows more interleavings than the original.
- Applying, stopping and removing a stack are modelled on values only; their methods are not repeated on `EngineStore`.
- Reconcile.BeginProgress: does not read checkpoint and progress a second time as the original does, because a second read directly after the first writes nothing and returns the same (`ReconcileSafety.ReadCurrent`, `ReconcileSafety.ReadProgressKeeps`).
- GraphSafety.IsolatedExactly: takes from graph validation only its limits, the distinct instance names and the endpoints of edges; the text checks can only refuse more graphs.
- InvocationSafety.RepliesAreGenuine: assumes distinct request identities, which the original does not enforce; `InvocationReuse.ReuseIsSafeExactly` says when one may be used again.
- ReconcileDaemon.AdvanceActiveRollout: takes the kind of the scheduler's decision as an input and does not store its ordinals; what the ordinals do to the replicas is modelled in `StackRun`.
- GraphFailure.BuildsExactly: says nothing about graphs with a chain of more than 64 uses between different packages; whether those are refused depends on the order in which packages are visited.
