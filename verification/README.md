# Clash Astra: a verified model of its protocol cores

Clash Astra is a desktop client for the Mihomo proxy core. Much of its Rust and TypeScript is not user interface
but protocol: jobs that are rescheduled and cancelled while they run, a system proxy that has to be handed back
intact even after a crash, a child process that must be restarted exactly when it is wanted, show requests merged
without locks, configuration changes that either happen completely or not at all, and text formats that have to be
read back. This project models those cores in Dafny and proves what they promise.

Two forms are used, following the source. Code that interleaves at every lock, atomic operation or await is a state
machine over values: a state, the steps of each thread (one lock section or one atomic operation each), runs of any
length over any number of threads, an invariant, and theorems about every run. Code that changes things step by
step is a class or a method with loops, proved against a function or a relation, about which the theorems are then
proved. Foreign calls (registry, WinINet, processes, files, the service, the network) succeed or fail
arbitrarily; clocks, file stems and scripts are parameters.

| files | core |
|---|---|
| `Wrappers` | a value that may be missing |
| `OneShotMaps`, `OneShotScheduler`, `OneShotMachine`, `OneShotInvariant`, `OneShotTheorems`, `OneShotInterruption`, `OneShotProgress`, `OneShotWitness` | one-shot and debounce scheduler |
| `Strings`, `ProxyServer`, `ProxyEntries`, `ProxyRegistry`, `ProxyRecovery`, `Sysopt`, `ProxyOwnership` | system proxy: registry, crash journal, ownership |
| `LifecycleMachine`, `LifecycleInvariant`, `LifecycleTheorems`, `LifecycleHistory`, `LifecycleWishes`, `LifecycleProgress`, `LifecycleWitness` | core manager: starts, stops, terminations, monitors, recovery, upgrades |
| `ShowMerge` | merging of window show requests |
| `ConfigDraft`, `ConfigTransaction` | configuration patches as transactions |
| `Arguments`, `Xml`, `Utf16`, `TaskXml`, `TaskChecks` | auto-launch task: quoting, XML, UTF-16 |
| `DelayCheck`, `DelayTheorems` | group delay checks |
| `Connections`, `Cidr`, `Watchdog` | connection list, CIDR wildcards, supervisor |
| `Mappings`, `Enhance` | configuration enhancement pipeline |

## What the proofs found

Several promises hold only under a condition. The condition is stated as an if-and-only-if, with a reachable
counterexample where the reason is an interleaving.

- One-shot scheduler: a worker that was aborted but has not stopped can pick up a newer entry under its key. It can
  take the wake-up meant for the live worker (`OneShotWitness.WakeUpCanBeStolen`); the live worker sleeps past its entry
  if and only if that has happened and it has neither read nor been notified since (`OneShotTheorems.NoOrphan`). Or it
  fires the newer job and has it cut short by the old abort (`OneShotWitness.FreshJobCanBeInterrupted`); a claimed job
  can end that way if and only if a cancel took out the entry its worker had been spawned for
  (`OneShotInterruption.CutShortExactlyWhen`), so a job claimed by its entry's own worker never does. Firing at most
  once, not early, and with the right job hold regardless.
- Crash journal: a prepared journal is recoverable if and only if the registry still holds the original or shows the
  journal's target (`ProxyRecovery.PreparedIsSafe`), so an enable is safe throughout if and only if the registry is the
  original or shows the new target beforehand and, where it fails, what is left of the journal does no harm over the
  registry it leaves (`Sysopt.Sysopt.EnableSysproxy`); otherwise a crash in it is refused by recovery
  (`ProxyRecovery.ReenableIsRefused`). After a rollback that commits, harm is done only by rearming an older session
  over somebody else's proxy (`Sysopt.CommittedRollBackHarmless`). What a first enable leaves behind is unsafe if and
  only if its rollback failed, the journal was cleared all the same, and the registry changed; there is such an outcome
  (`Sysopt.FirstEnableCanLoseTheOriginal`). A failed re-enable rearms the journal with the registry as found; journal
  and memory then agree if and only if nobody had touched the registry (`ProxyOwnership.FailedEnableSyncsExactly`). The
  disable arm for an original without an owned snapshot is unreachable (`ProxyOwnership.OriginalNeverWithoutOwned`).
- Core manager: readiness is stored one step after the active generation was checked. A termination in between leaves
  a dead core that is called ready and that nobody recovers (`LifecycleWitness.DeadCoreCanBeCalledReady`); readiness
  is stale if and only if such an event was accepted between check and store
  (`LifecycleHistory.WhenReadinessTurnsStale`). Between operations, a wanted core is down with no recovery at work if
  and only if that happened, or an upgrade's rollback failed too (`LifecycleWitness.FailedRollbackLosesRecovery`), and
  nothing has mended it since (`LifecycleHistory.RecoveryLostExactlyWhen`). Wishes are written without the operation
  lock, so an upgrade that ends unchanged or activates puts the wish it had found over one expressed in the meantime;
  apart from that and from upgrades in flight or given up, the core is wanted exactly as somebody last asked
  (`LifecycleWishes.WantedIsLastWish`). The handler of an accepted termination
  drops the child of a newer core (`LifecycleWitness.LateEventHitsNewerCore`) if and only if, since the acceptance, a
  start has drawn the newer generation and adopted its child, and the child is still there
  (`LifecycleHistory.LateTakeExactly`); likewise for readiness.
- Show requests: a retry job that is cancelled or rejected drops the guard without looking at the pending id, which
  can lose a merged request until the next one (`ShowMerge.CancelledRetryLosesARequest`, `ShowMerge.NextTakerRescues`).
  The last thread to finish leaves a request uncovered if and only if it is such a job and an uncovered id was pending
  (`ShowMerge.LossIsAbandonment`).
- Configuration: `patch_clash` restarts the core with the new port and then updates the system proxy by the committed
  one, for which it waits. With the proxy on, a new port therefore goes through only if the patched core or something
  else answers on the old one (`ConfigTransaction.PortPatchNeedsTheOldPort`); with every call going well and nothing
  else listening it is undone (`ConfigTransaction.NewPortIsUndone`). Where it goes through, everything is in step if and
  only if the patched core still serves the app's port (`ConfigTransaction.PortPatchInStep`); with a foreign listener
  there, the system proxy leads to that one (`ConfigTransaction.NewPortBehindForeignListener`). A failed patch drops an
  open draft of the runtime configuration, such as start-up leaves, and restores it if and only if it had attempted
  anything with it (`ConfigTransaction.UndoneClashLeavesNoTrace`, `ConfigTransaction.RefusedPortDropsRuntime`). An
  auto-launch entry that cannot be removed is not noticed.
- Auto-launch: the task is recognised as the app's own if and only if path, user and command line have no white space
  at their ends; a command line that ends in, say, a no-break space is trimmed when it is read back.
- A delay check that answers true has measured every name if and only if some worker was not ended by a throwing
  listener before the last name; with listeners that throw at known positions, if and only if fewer of these come before
  the last one than there are workers (`DelayTheorems.AllMeasuredExactly`). With a concurrency below one there is no
  worker, and the answer is true all the same.
- Merged connections have holes exactly when two incoming ones claim the same old row; a `/32` block yields no wildcard
  at all.

## Model

| member | source | states |
|---|---|---|
| OneShotScheduler.OneShotScheduler.Draw | src-tauri/src/core/scheduler/one_shot.rs:136-143 | a zero delay is refused without drawing; otherwise each call draws the next generation, before any lock |
| OneShotScheduler.OneShotScheduler.ScheduleLocked | src-tauri/src/core/scheduler/one_shot.rs:144-188 | one locked section updates the entry under the key, inserts a new one, or rejects a new key at the limit |
| OneShotScheduler.OneShotScheduler.RemovePending | src-tauri/src/core/scheduler/one_shot.rs:201-208 | first section of cancel: takes out exactly the entry under the key |
| OneShotScheduler.OneShotScheduler.CollectTokens | src-tauri/src/core/scheduler/one_shot.rs:210-224 | second section: exactly the tokens of cancellable running entries under the key |
| OneShotScheduler.OneShotScheduler.Claim | src-tauri/src/core/scheduler/one_shot.rs:351-368 | the re-check after the sleep takes the entry only if its generation is unchanged |
| OneShotScheduler.OneShotScheduler.BeginRunning | src-tauri/src/core/scheduler/one_shot.rs:395-405 | registers the generation behind the ones already running under the key |
| OneShotScheduler.OneShotScheduler.EndRunning | src-tauri/src/core/scheduler/one_shot.rs:407-418 | the guard's drop removes exactly its generation, and the list once empty |
| OneShotMaps.RetainExactly | src-tauri/src/core/scheduler/one_shot.rs:407-418 | retaining drops the generation and nothing else, in order |
| OneShotMaps.InstallKeepsLimit | src-tauri/src/core/scheduler/one_shot.rs:144-188 | no installation exceeds 256 entries, and an update is never rejected |
| OneShotMaps.InstallExactly | src-tauri/src/core/scheduler/one_shot.rs:144-188 | other keys stay; a pending key keeps its worker and gets deadline, job and generation anew; a new key is inserted below 256 entries and rejected from there on |
| OneShotInvariant.InvNext | src-tauri/src/core/scheduler/one_shot.rs:136-420 | every step of schedulers, workers, cancellers and the clock keeps the invariant |
| OneShotTheorems.InvAlways | src-tauri/src/core/scheduler/one_shot.rs:136-420 | the invariant holds in every state of every run |
| OneShotTheorems.FiringDiscipline | src-tauri/src/core/scheduler/one_shot.rs:335-388 | each generation fires at most once, not before its own deadline, with the job and key installed with it |
| OneShotTheorems.DelayIsKept | src-tauri/src/core/scheduler/one_shot.rs:136-143 | a generation drawn at some time has, for good, the key and job of the call and that time plus its delay as its deadline; it fires with them and not before the delay is over |
| OneShotTheorems.ClockRuns | src-tauri/src/core/scheduler/one_shot.rs:142-142 | the clock of a run moves by what elapses and by nothing else |
| OneShotTheorems.RunContinues | src-tauri/src/core/scheduler/one_shot.rs:136-420 | a generation's key, deadline and job never change, and a final fate is final |
| OneShotTheorems.SupersededNeverFires | src-tauri/src/core/scheduler/one_shot.rs:144-232 | overwritten, cancelled or rejected generations never fire, whatever old workers do |
| OneShotTheorems.CancelHasNoGap | src-tauri/src/core/scheduler/one_shot.rs:200-272 | between the two sections of cancel nobody slips through: everything cancellable at the first is removed, signalled, still to be collected, or over |
| OneShotTheorems.TokensExactly | src-tauri/src/core/scheduler/one_shot.rs:210-224 | the tokens collected are exactly those of cancellable executing jobs in the scope |
| OneShotTheorems.CollectedWasRunning | src-tauri/src/core/scheduler/one_shot.rs:210-232 | whatever a cancel has collected it found executing, cancellable and in its scope |
| OneShotTheorems.SignalledWasRunning | src-tauri/src/core/scheduler/one_shot.rs:225-232 | nothing is signalled that some cancel had not found so |
| OneShotTheorems.TakenIsPending | src-tauri/src/core/scheduler/one_shot.rs:201-208 | what a cancel takes out is exactly what is pending in its scope |
| OneShotTheorems.FalseAnswerMeansOver | src-tauri/src/core/scheduler/one_shot.rs:200-232 | an answer of false means that everything it was responsible for has ended |
| OneShotTheorems.NoOrphan | src-tauri/src/core/scheduler/one_shot.rs:335-393 | every pending entry has its own live, unaborted worker bound to its key; while that waits with no wake-up stored it sleeps on an outdated snapshot if and only if another worker consumed its wake-up and it has not read or been notified since, and otherwise towards the entry's deadline |
| OneShotTheorems.StolenIsHistory | src-tauri/src/core/scheduler/one_shot.rs:144-158 | the mark for a stolen wake-up is set exactly from the theft to the next read or update |
| OneShotTheorems.LockHolderGoesOn | src-tauri/src/core/scheduler/one_shot.rs:349-368 | whoever holds the pending lock can always go on and give it back |
| OneShotTheorems.RunningListsExecuting | src-tauri/src/core/scheduler/one_shot.rs:364-418 | the running map lists exactly the executing generations, each once, with no empty list |
| OneShotTheorems.LimitHolds | src-tauri/src/core/scheduler/one_shot.rs:144-188 | no state has more than 256 pending entries, while updates at the limit still succeed |
| OneShotInterruption.AbortedExactlyWhen | src-tauri/src/core/scheduler/one_shot.rs:200-260 | in every state of every run a worker is aborted if and only if a cancel that took out its entry got to its abort |
| OneShotInterruption.CutShortExactlyWhen | src-tauri/src/core/scheduler/one_shot.rs:335-388 | a claimed job can still end interrupted, in some continuation of the run, if and only if a cancel took out the entry its worker had been spawned for |
| OneShotInterruption.CanBeCutShort | src-tauri/src/core/scheduler/one_shot.rs:200-260 | then at most four steps lead there |
| OneShotInterruption.OwnJobRunsToItsEnd | src-tauri/src/core/scheduler/one_shot.rs:349-388 | a job claimed by its entry's own worker is never interrupted, in any continuation |
| OneShotProgress.PendingCanFire | src-tauri/src/core/scheduler/one_shot.rs:335-388 | from every state of every run, at most nine steps lead any pending entry to its firing |
| OneShotWitness.WakeUpCanBeStolen | src-tauri/src/core/scheduler/one_shot.rs:335-352 | a run in which an aborted worker consumes the live worker's wake-up |
| OneShotWitness.FreshJobCanBeInterrupted | src-tauri/src/core/scheduler/one_shot.rs:335-388 | a run in which a newer job is ended by an older abort though nobody cancelled it |
| ProxyServer.ServerTextReadsBack | src-tauri/vendor-crates/sysproxy-rs/src/windows.rs:36-95 | the server text written for a plain host and port parses back to them |
| ProxyEntries.OneEntry | src-tauri/vendor-crates/sysproxy-rs/src/windows.rs:36-87 | an entry `http=`, `https=` or `socks=`, or one for all protocols, is read as its endpoint |
| ProxyEntries.PriorityOfEntries | src-tauri/vendor-crates/sysproxy-rs/src/windows.rs:60-87 | of two entries the HTTP one counts, else HTTPS, else SOCKS, else the one for all; of equals, the first |
| ProxyRegistry.RegKey.WriteSnapshotValue | src-tauri/vendor-crates/sysproxy-rs/src/windows.rs:201-213 | sets a present value and its mask bit, leaves an absent one with what was there |
| ProxyRegistry.RegKey.WriteSnapshot | src-tauri/vendor-crates/sysproxy-rs/src/windows.rs:215-276 | whatever an older session left in the key, reading it gives the snapshot just written |
| ProxyRegistry.MaskExact | src-tauri/vendor-crates/sysproxy-rs/src/windows.rs:215-324 | a mask bit is set exactly for the values present |
| ProxyRegistry.ReadInvertsWritten | src-tauri/vendor-crates/sysproxy-rs/src/windows.rs:215-324 | reading inverts writing over any stale contents, because leftovers are masked out |
| ProxyRegistry.FallbackShowsTarget | src-tauri/vendor-crates/sysproxy-rs/src/windows.rs:633-652 | after the registry fallback the registry parses as the target asked for |
| ProxyRegistry.ShowsExactly | src-tauri/src/core/sysopt/proxy.rs:14-26 | when a registry shows a proxy, value by value: switched on, the host but for case, the port and the bypass list |
| ProxyRecovery.RestoreIsThreeWay | src-tauri/vendor-crates/sysproxy-rs/src/windows.rs:185-199 | field by field: the original value where unchanged since owned, the foreign one elsewhere |
| ProxyRecovery.RestoreUndoes | src-tauri/vendor-crates/sysproxy-rs/src/windows.rs:547-619 | with nothing foreign in between the restore gives back the original exactly |
| ProxyRecovery.PreparedReadsBack | src-tauri/vendor-crates/sysproxy-rs/src/windows.rs:341-440 | a prepared journal over any older one loads as written |
| ProxyRecovery.OwnedReadsBack | src-tauri/vendor-crates/sysproxy-rs/src/windows.rs:341-460 | recording ownership keeps the original and replaces target and owned state |
| ProxyRecovery.PreparedIsSafe | src-tauri/vendor-crates/sysproxy-rs/src/windows.rs:468-502 | a crash after prepare is recoverable if and only if the registry is the original or shows the journal's target |
| ProxyRecovery.NoJournalIsSafe | src-tauri/vendor-crates/sysproxy-rs/src/windows.rs:468-475 | without a journal only the original itself is safe |
| ProxyRecovery.PreparedForAnother | src-tauri/vendor-crates/sysproxy-rs/src/windows.rs:468-502 | exactly when a prepared journal is safe for some original: it is the one journaled, and the registry is it or shows the target |
| ProxyRecovery.OwnedForAnother | src-tauri/vendor-crates/sysproxy-rs/src/windows.rs:468-502 | exactly when a journal with recorded ownership is safe for some original: restoring where the target shows gives that |
| ProxyRecovery.OwnedIsSafe | src-tauri/vendor-crates/sysproxy-rs/src/windows.rs:441-502 | once ownership is recorded a crash gives back the original |
| ProxyRecovery.ReenableIsRefused | src-tauri/src/core/sysopt/proxy.rs:322-345 | a crash between journal and write of a re-enable for another target is refused by recovery, and leaves everything in place |
| ProxyRecovery.AnotherPortIsEnough | src-tauri/src/core/sysopt/proxy.rs:322-345 | another port is enough for that |
| Sysopt.Sysopt.SetOnce | src-tauri/src/core/sysopt/proxy.rs:61-80 | one attempt leaves the registry alone or showing the target, as WinINet did, and reports what WinINet reported; it never touches the journal |
| Sysopt.Sysopt.SetWithRetry | src-tauri/src/core/sysopt/proxy.rs:82-125 | so do three attempts with the registry fallback, which go on until one is found good; success means the target shows or could not be read |
| Sysopt.Sysopt.SetAndCheck | src-tauri/src/core/sysopt/proxy.rs:61-125 | one attempt with fallback and readback: good only if the target shows or cannot be read |
| Sysopt.AttemptsSucceed | src-tauri/src/core/sysopt/proxy.rs:82-125 | attempts succeed if one reports success and the registry after it shows the target or cannot be read back, only if one reports success, and where all can be read back only with the target shown |
| Sysopt.Sysopt.RecoverPending | src-tauri/vendor-crates/sysproxy-rs/src/windows.rs:468-502 | recovery ends in what the recovery function says, and a crash inside it loses nothing |
| Sysopt.Sysopt.RollBack | src-tauri/src/core/sysopt/proxy.rs:203-260 | restores the snapshot and clears the journal, safely at every point if the restore commits |
| Sysopt.Sysopt.FirstEnable | src-tauri/src/core/sysopt/proxy.rs:190-262 | every disk state of a first enable recovers to the original, unless a failing rollback gave it up; what is left behind is unsafe if and only if the rollback failed, the journal was cleared and the registry changed |
| Sysopt.FirstEnableCanLoseTheOriginal | src-tauri/src/core/sysopt/proxy.rs:226-246 | an outcome of the foreign calls for which the original is lost |
| Sysopt.Sysopt.InitSysproxy | src-tauri/src/core/sysopt/proxy.rs:169-268 | start-up recovers a pending session first; if that is refused nothing else is changed, otherwise it succeeds with the proxy off, and with it on exactly if an attempt is found good and all else goes well; if a crash before it is recoverable so is one at any point of it, but for a rollback that failed |
| Sysopt.Sysopt.Rearm | src-tauri/src/core/sysopt/proxy.rs:134-155 | rearming rewrites the journal for the current target, or clears it without one |
| Sysopt.Sysopt.RollBackAndRearm | src-tauri/src/core/sysopt/proxy.rs:330-400 | a failed enable puts the registry back and rearms the journal for the state found |
| Sysopt.Sysopt.EnableSysproxy | src-tauri/src/core/sysopt/proxy.rs:300-425 | an enable succeeds exactly if the core answers, an attempt is found good and the state before, the journal and the state after can be recorded, whatever is found in the registry; it then updates target, original, owned state and journal together; one that fails keeps all memory and, if its rollback commits, the registry, with the journal as rearmed; a crash at every point is recoverable if and only if beforehand the registry is the original or shows the new target and, where the enable fails, what is left of the journal does no harm over the registry left |
| Sysopt.Sysopt.Apply | src-tauri/src/core/sysopt/proxy.rs:322-400 | the part common to all enables: a crash inside is recoverable throughout if and only if the registry is the original or shows the target beforehand |
| Sysopt.RollBackStepsSafe | src-tauri/src/core/sysopt/proxy.rs:134-155 | all disk states of a rollback, whether or not it commits, and of the rearming after it are safe if and only if the prepared journal is and what is left of it does no harm |
| Sysopt.CommittedRollBackHarmless | src-tauri/src/core/sysopt/proxy.rs:134-155 | after a rollback that commits, harm is done only by rearming an older session over a proxy that is neither that session's nor its original |
| Sysopt.Sysopt.GiveBack | src-tauri/src/core/sysopt/proxy.rs:442-483 | the arms of a disable by which snapshots are left |
| Sysopt.Sysopt.DisableSysproxy | src-tauri/src/core/sysopt/proxy.rs:426-483 | a disable of the app's own proxy does the three-way restore; one of a foreign proxy leaves it; a failure keeps all memory |
| Sysopt.Sysopt.GuardCycle | src-tauri/src/core/sysopt/guard.rs:80-116 | a guard cycle succeeds exactly if an attempt is found good; it only ever shows the app's target, refreshes the owned state, and records it |
| Sysopt.RefreshedByField | src-tauri/vendor-crates/sysproxy-rs/src/windows.rs:621-630 | field by field: PAC and auto-detect stay as recorded, everything else is as found |
| Sysopt.Sysopt.HealSysproxy | src-tauri/src/core/sysopt/proxy.rs:485-527 | self-healing does nothing unless the proxy is on, readable and different; otherwise it is an enable, and heals exactly if that succeeds |
| Sysopt.Sysopt.ResetSysproxy | src-tauri/src/core/sysopt/proxy.rs:530-640 | a reset forgets everything, does the three-way restore where the proxy is still the app's, succeeds exactly as the foreign calls do, and without snapshots sets the proxy it has saved |
| Sysopt.ResetTargetIs | src-tauri/src/core/sysopt/proxy.rs:608-634 | that proxy: never switched on at the app's own port; one of another port as it was; without one, the app's own switched off |
| ProxyOwnership.FirstEvent | src-tauri/src/core/sysopt/proxy.rs:190-262 | the first enable is an event of a session, for any outcome of its foreign calls |
| ProxyOwnership.EnableEvent | src-tauri/src/core/sysopt/proxy.rs:300-425 | so is every later enable |
| ProxyOwnership.GuardEvent | src-tauri/src/core/sysopt/guard.rs:80-116 | so is a guard cycle |
| ProxyOwnership.DisableEvent | src-tauri/src/core/sysopt/proxy.rs:426-483 | so is a disable; one that fails touches neither memory nor journal |
| ProxyOwnership.ResetEvent | src-tauri/src/core/sysopt/proxy.rs:530-640 | so is the reset on exit |
| ProxyOwnership.MemoryMirrorsHistory | src-tauri/src/core/sysopt/proxy.rs:270-425 | over any session the remembered original and owned snapshots are the ones history defines |
| ProxyOwnership.FinalDisableGivesBack | src-tauri/src/core/sysopt/proxy.rs:426-483 | after any enables, re-enables, guard cycles, failures and foreign changes the final disable gives back each value as before the last takeover, or the foreign one |
| ProxyOwnership.DisableAfterSession | src-tauri/src/core/sysopt/proxy.rs:426-483 | the disable itself, after any session: field by field the registry holds the value before the last takeover or the foreign one, and nothing is remembered |
| ProxyOwnership.OriginalNeverWithoutOwned | src-tauri/src/core/sysopt/proxy.rs:426-470 | an original is never remembered without an owned snapshot |
| ProxyOwnership.CrashRecoversLikeDisable | src-tauri/vendor-crates/sysproxy-rs/src/windows.rs:468-502 | with journal and memory in step, crash recovery leaves what a clean disable would have left |
| ProxyOwnership.EnableSyncs | src-tauri/src/core/sysopt/proxy.rs:380-425 | a successful, recorded enable puts journal and memory in step |
| ProxyOwnership.GuardKeepsSync | src-tauri/src/core/sysopt/guard.rs:80-116 | guard cycles keep them in step |
| ProxyOwnership.FailedEnableSyncsExactly | src-tauri/src/core/sysopt/proxy.rs:134-155 | after a failed re-enable they are in step if and only if the registry was untouched |
| ProxyOwnership.CarefulSessionsStayInSync | src-tauri/src/core/sysopt/proxy.rs:270-425 | in sessions whose journal writes succeed they are in step whenever there is an original |
| LifecycleInvariant.InvNext | src-tauri/src/core/manager/process.rs:25-425 | every atomic step of every thread keeps lock, slot, responsibility, readiness and generation invariants |
| LifecycleInvariant.InvAlways | src-tauri/src/core/manager/process.rs:25-425 | they hold in every state of every run, upgrades included |
| LifecycleTheorems.OneHolderEach | src-tauri/src/core/manager/process.rs:301-336 | one operation at a time; one loop owns the recovery slot, exactly while it is taken |
| LifecycleTheorems.NoLostRecovery | src-tauri/src/core/manager/process.rs:25-46 | with no operation in flight, a core that should run but is not ready or has no active generation has a recovery loop, unless one of the two flags is set |
| LifecycleWishes.UpgradePutsWishBack | src-tauri/src/core/manager/update.rs:93-112 | an upgrade that restores or activates stores exactly the wish that held before its swap |
| LifecycleWishes.WantedIsLastWish | src-tauri/src/core/manager/update.rs:93-257 | in every state the core is wanted exactly as the last caller wished, apart from an upgrade in flight, one whose rollback failed with no wish since, and one that put the wish it had found over a contrary one expressed in the meantime |
| LifecycleWishes.CarriedWasSwapped | src-tauri/src/core/manager/update.rs:222-222 | the wish that an upgrade carries is the one it swapped out, and has not changed since |
| LifecycleWishes.RecoveredAfterUnchangedUpgrade | src-tauri/src/core/manager/update.rs:93-112 | a core wanted before an upgrade that put the wish back stays wanted until somebody asks otherwise; while it is not ready some thread owns the recovery loop or is bound to schedule one, and while it is dead but called ready some thread is about to lower that, unless readiness is stale |
| LifecycleTheorems.ReadinessIsHonest | src-tauri/src/core/manager/process.rs:189-209 | once accepted events have been written, ready without an active core happens exactly when it is stale |
| LifecycleTheorems.StaleNeedsAnEventInBetween | src-tauri/src/core/manager/process.rs:203-206 | such an event was accepted after the storing thread had last seen the generation active |
| LifecycleTheorems.ActiveOutsideLock | src-tauri/src/core/manager/process.rs:284-292 | a step of a thread that does not hold the operation lock changes the active generation only by accepting an event of it, which retires it |
| LifecycleTheorems.RetiredOnceForAll | src-tauri/src/core/manager/process.rs:284-292 | no generation is retired twice, and none becomes active again |
| LifecycleTheorems.OldEventsAreIgnored | src-tauri/src/core/manager/process.rs:284-299 | a termination or monitor event of an older generation changes nothing but its own thread |
| LifecycleTheorems.WritesFollowAcceptance | src-tauri/src/core/manager/process.rs:284-299 | whoever writes for a generation was accepted while that generation was the newest, so only a start in between can be hit |
| LifecycleHistory.WhenReadinessTurnsStale | src-tauri/src/core/manager/process.rs:203-206 | a store that raises readiness makes it stale if and only if an event of that generation was accepted, on another thread, since the storing one last saw it active; other steps never do |
| LifecycleHistory.StaleExactlyWhen | src-tauri/src/core/manager/process.rs:189-209 | readiness is stale exactly while the last write of it was such a store |
| LifecycleHistory.AbandonedExactlyWhen | src-tauri/src/core/manager/update.rs:156-194 | the other flag is set exactly from a failed rollback to the next wish or ready core |
| LifecycleHistory.RecoveryLostExactlyWhen | src-tauri/src/core/manager/process.rs:25-46 | with no operation in flight and no recovery loop, a wanted core is down if and only if an upgrade gave it up or its readiness is stale, told from the history of the run |
| LifecycleHistory.ChildIsLastAdopted | src-tauri/src/core/manager/process.rs:106-176 | the child held is the one adopted last, if nobody has taken it since |
| LifecycleHistory.ReadyIsLastRaised | src-tauri/src/core/manager/process.rs:106-209 | ready means that readiness was raised for some generation and not lowered since |
| LifecycleHistory.LateTakeExactly | src-tauri/src/core/manager/process.rs:284-299 | the handler of core g drops the child of a newer core h if and only if, since its event was accepted, a start drew h and adopted its child, which is still there |
| LifecycleHistory.LateUnreadyExactly | src-tauri/src/core/manager/process.rs:284-299 | so for the readiness of h, by handlers and monitors |
| LifecycleHistory.NothingNewerTouched | src-tauri/src/core/manager/process.rs:284-299 | as long as no newer generation has been drawn nothing newer can be touched |
| LifecycleWitness.DeadCoreCanBeCalledReady | src-tauri/src/core/manager/process.rs:203-206 | a run after which all threads are done, the core is wanted, called ready, dead, and not recovered |
| LifecycleWitness.LateEventHitsNewerCore | src-tauri/src/core/manager/process.rs:284-299 | a run in which the handler of core 1 drops the child of core 2 |
| LifecycleWitness.FailedRollbackLosesRecovery | src-tauri/src/core/manager/update.rs:156-194 | a run in which a failed rollback leaves a wanted core down with no recovery |
| LifecycleProgress.MonitorsCount | src-tauri/src/core/manager/process.rs:344-377 | a monitor's counter is the number of its polls that failed in a row |
| LifecycleProgress.MonitorGivesUp | src-tauri/src/core/manager/process.rs:369-396 | it gives up on its core exactly with the third poll in a row that fails |
| LifecycleProgress.NothingActiveAtKill | src-tauri/src/core/manager/process.rs:407-426 | by the time a stop kills the child, no generation is active |
| LifecycleProgress.StopStops | src-tauri/src/core/manager/process.rs:407-426 | a stop leaves no core ready or active and, outside service mode, no child |
| LifecycleProgress.LoopCanRecover | src-tauri/src/core/manager/process.rs:301-336 | from its start, with the lock free, the recovery loop of a wanted core can have it up, ready and active as a new generation after 22 steps of its own |
| ShowMerge.InvNext | src-tauri/src/window/show.rs:283-480 | every atomic step keeps the guard, id and coverage invariants |
| ShowMerge.NoShowIsLost | src-tauri/src/window/show.rs:283-348 | every recorded id is covered by a show with an id as large, or carried by a thread about to show one, or waits in the pending id where a thread that tries or holds the guard, re-reads, or records an id as large is bound to look, or where a retry job dropped the guard without re-check |
| ShowMerge.ShowsAnswer | src-tauri/src/window/show.rs:283-348 | a show is for a recorded id, or for none if another thread had taken it; it covers an id not covered before if and only if its own is one |
| ShowMerge.ThreadCanFinish | src-tauri/src/window/show.rs:283-480 | left to itself every thread comes to its end within nine steps: a show flow does not go round in circles |
| ShowMerge.OneGuardHolder | src-tauri/src/window/state.rs:290-312 | at most one thread holds the showing guard |
| ShowMerge.OnlyAbandonedJobsStrand | src-tauri/src/window/show.rs:351-466 | nothing is stranded in runs without cancelled or rejected retry jobs |
| ShowMerge.QuietMeansCovered | src-tauri/src/window/show.rs:283-480 | once all threads are done, all recorded ids are covered if and only if the pending id is zero or covered |
| ShowMerge.LossIsAbandonment | src-tauri/src/window/show.rs:382-480 | the last thread to finish leaves an id uncovered if and only if it is a cancelled or rejected retry job and an uncovered id was pending |
| ShowMerge.NextTakerRescues | src-tauri/src/window/show.rs:468-480 | the next thread that takes the pending id shows one at least as large as everything uncovered |
| ShowMerge.CancelledRetryLosesARequest | src-tauri/src/window/show.rs:382-405 | a run in which a cancelled retry job leaves a recorded request unshown with nobody left |
| ConfigDraft.Draft.Open | src-tauri/src/config/draft.rs:26-34 | opens a copy of the data unless a draft is open |
| ConfigDraft.Draft.Edit | src-tauri/src/config/draft.rs:26-34 | a write through the draft leaves the data alone |
| ConfigDraft.Draft.Apply | src-tauri/src/config/draft.rs:36-42 | the draft becomes the data and the replaced data is handed back |
| ConfigDraft.Draft.Discard | src-tauri/src/config/draft.rs:44-47 | the draft goes, the data stays |
| ConfigTransaction.App.RunCore | src-tauri/src/core/manager/process.rs:25-209 | success means that the core runs with the runtime configuration, which is on disk |
| ConfigTransaction.App.UpdateConfig | src-tauri/src/core/manager/mod.rs:154-183 | success means that the core runs with the freshly generated configuration |
| ConfigTransaction.App.UpdateProxy | src-tauri/src/core/sysopt/proxy.rs:28-59 | the proxy follows the latest app configuration and the committed Clash one, and is enabled only if the core runs and somebody answers on the port; otherwise it stays |
| ConfigTransaction.App.ApplyClash | src-tauri/src/features/clash_config.rs:50-127 | side effects in order up to the first failure: what was tried, and whether all succeed, as the answers of the foreign calls decide; success leaves exactly the patched state |
| ConfigTransaction.App.RestoreRuntime | src-tauri/src/features/clash_config.rs:140-159 | restoring regenerates runtime data and file from the old configuration and brings the core back to it |
| ConfigTransaction.App.UndoClash | src-tauri/src/features/clash_config.rs:135-188 | succeeds exactly as the answers decide, and then undoes what was tried and nothing else |
| ConfigTransaction.App.PatchClash | src-tauri/src/features/clash_config.rs:10-191 | all or nothing: committed, refused, undone or not, exactly as the answers of the foreign calls decide; committed is the old data overlaid with the patch and saved; otherwise data and file are the old ones, with no draft once undone |
| ConfigTransaction.PatchedByKey | src-tauri/src/config/runtime.rs:20-52 | key by key what a patch makes of a runtime configuration: LAN access, IPv6 and log level from the patch, the DNS section following a boolean IPv6, the lower-case keys of the patch's tun section in it, all else kept |
| ConfigTransaction.CommittedByKey | src-tauri/src/features/clash_config.rs:104-134 | after a committed patch Clash's data is the patch over the old, the core runs what was newly generated exactly if a port, secret, controller, LAN access or tun was patched, the runtime configuration follows the patch, and its file where LAN access, IPv6 or log level was patched |
| ConfigTransaction.PortInUse | src-tauri/src/config/clash.rs:119-132 | the port in use is the app's own, else Clash's as a number or decimal text, else 7897 |
| ConfigTransaction.PortAskedFor | src-tauri/src/features/clash_config.rs:64-83 | a port asked for is a number or a decimal text below 65536, or refused |
| ConfigTransaction.ProxyInUse | src-tauri/src/core/sysopt/proxy.rs:270-292 | the system proxy is on exactly if switched on, at the port in use, with the app's bypass list |
| ConfigTransaction.UndoneClashLeavesNoTrace | src-tauri/src/features/clash_config.rs:135-190 | from a settled state a failed patch leaves data, files, core, proxy and firewall exactly as they were, and the runtime configuration if and only if something was attempted or no draft of it was dropped |
| ConfigTransaction.CommittedClashInStep | src-tauri/src/features/clash_config.rs:98-103 | after a committed patch everything outside agrees with it if and only if, with the proxy on, the app's port did not change and the core serves it |
| ConfigTransaction.PortPatchNeedsTheOldPort | src-tauri/src/features/clash_config.rs:85-103 | with the proxy on, a new port goes through only if the patched core or something else answers on the old one, which is enough if all else goes well |
| ConfigTransaction.PortPatchInStep | src-tauri/src/features/clash_config.rs:85-103 | in the running app a new port that goes through leaves everything in step if and only if the patched core serves the app's port |
| ConfigTransaction.App.Launch | src-tauri/src/utils/resolve.rs:42-72 | start-up gives both configurations the port in use, generates the runtime configuration as a draft, and starts core and proxy |
| ConfigTransaction.NewPortIsUndone | src-tauri/src/features/clash_config.rs:85-190 | a run, with every call going well, in which a new port is undone |
| ConfigTransaction.NewPortBehindForeignListener | src-tauri/src/features/clash_config.rs:85-134 | a run in which it is committed and the system proxy leads to a foreign listener |
| ConfigTransaction.RefusedPortDropsRuntime | src-tauri/src/features/clash_config.rs:64-83 | a run in which a refused port drops the runtime configuration generated at start-up |
| ConfigTransaction.App.VergeAllowed | src-tauri/src/features/verge_config.rs:21-65 | decides exactly by administrator, service and modes; what is let through never changes service mode under TUN, nor turns TUN on without service mode |
| ConfigTransaction.App.ApplyVerge | src-tauri/src/features/verge_config.rs:75-131 | side effects in order up to the first failure, as for Clash |
| ConfigTransaction.App.UndoVerge | src-tauri/src/features/verge_config.rs:139-196 | undoes what was tried and nothing else |
| ConfigTransaction.App.PatchVerge | src-tauri/src/features/verge_config.rs:10-207 | all or nothing, committed or refused exactly as the answers decide; TUN mode is only ever on together with service mode, and the app keeps a port of its own |
| ConfigTransaction.CommittedVergeByKey | src-tauri/src/features/verge_config.rs:75-137 | key by key: the app's data is the patch over the old; core, runtime configuration and file are newly generated exactly for service or TUN mode; the proxy follows exactly its three keys, the hotkeys theirs, and auto-launch is on where that was asked for |
| ConfigTransaction.CommittedVergeInStep | src-tauri/src/features/verge_config.rs:94-137 | a committed patch brings file, proxy, hotkeys and auto-launch in step with it, if and only if the core serves the proxy's port; a patch of the proxy misses that only where something else answers |
| ConfigTransaction.UndoneVergeLeavesNoTrace | src-tauri/src/features/verge_config.rs:139-204 | from a settled state a failed patch leaves no trace but an auto-launch entry that could not be removed and, exactly if the core was not concerned, a dropped draft of the runtime configuration |
| Arguments.QuoteWindowsArgument | src-tauri/vendor-crates/auto-launch/src/windows.rs:298-327 | the quoting loop computes the quoted form, which the C runtime's rules read back as the argument |
| Arguments.BodyReadsBack | src-tauri/vendor-crates/auto-launch/src/windows.rs:307-326 | inside quotes the parser undoes the body for any pending backslashes |
| Arguments.ArgumentsReadBack | src-tauri/vendor-crates/auto-launch/src/windows.rs:329-334 | for every list of strings, parsing the command line gives back the list |
| Arguments.BuildIsInjective | src-tauri/vendor-crates/auto-launch/src/windows.rs:329-334 | different lists never share a command line |
| Xml.EscapeReadsBack | src-tauri/vendor-crates/auto-launch/src/windows.rs:272-288 | unescaping undoes escaping for every string, although both are chains of whole-string replacements |
| Xml.UnescapeStage | src-tauri/vendor-crates/auto-launch/src/windows.rs:281-288 | each replacement of unescaping turns back exactly one character's entity |
| Xml.EscapedHasNoMarkup | src-tauri/vendor-crates/auto-launch/src/windows.rs:272-279 | escaped text cannot open a tag |
| Xml.EscapeTrims | src-tauri/vendor-crates/auto-launch/src/windows.rs:272-296 | trimming escaped text trims the text |
| Utf16.EncodeTaskXml | src-tauri/vendor-crates/auto-launch/src/windows.rs:443-450 | the byte loop computes the marked little-endian encoding, which decoding reads back |
| Utf16.EncodedReadsBack | src-tauri/vendor-crates/auto-launch/src/windows.rs:96-126 | decoding inverts encoding for every string |
| Utf16.LossyOnlyIfMalformed | src-tauri/vendor-crates/auto-launch/src/windows.rs:97-102 | lossy decoding loses nothing if and only if every surrogate has its partner |
| Utf16.UnmarkedReadsBack | src-tauri/vendor-crates/auto-launch/src/windows.rs:111-117 | without a mark, text is recognised by its first two characters being below U+0100 |
| TaskXml.ElementFound | src-tauri/vendor-crates/auto-launch/src/windows.rs:290-296 | the lookup returns the trimmed text of the first element of the name, wherever it is in the markup |
| TaskXml.CommandRead | src-tauri/vendor-crates/auto-launch/src/windows.rs:349-441 | the written task's command is read back as the trimmed path |
| TaskXml.UserRead | src-tauri/vendor-crates/auto-launch/src/windows.rs:349-441 | the first user found is the trimmed one written |
| TaskXml.ArgumentsRead | src-tauri/vendor-crates/auto-launch/src/windows.rs:349-441 | the arguments are read back trimmed, and there is no such element for none |
| TaskXml.NothingUnwanted | src-tauri/vendor-crates/auto-launch/src/windows.rs:367-376 | whatever names, paths and arguments contain, nothing in the task looks disabled or restarted on failure |
| TaskXml.TaskReads | src-tauri/vendor-crates/auto-launch/src/windows.rs:349-441 | all lookups and searches of the matcher on a written task |
| TaskXml.TaskMatchesItself | src-tauri/vendor-crates/auto-launch/src/windows.rs:336-450 | after writing, encoding and decoding, a task matches itself if and only if path, user and command line are trimmed and the stem is the app's name |
| TaskChecks.MarkedTasksOnly | src-tauri/vendor-crates/auto-launch/src/windows.rs:349-376 | whoever wrote it, a task that is disabled, restarts on failure or lacks one of the four markers never matches |
| TaskChecks.MatchesAsWritten | src-tauri/vendor-crates/auto-launch/src/windows.rs:336-376 | a task written for one path, command line and user matches another exactly if path and user are the same but for case and the command line the same, all trimmed, and the stem is the app's name |
| TaskChecks.OtherArgumentsAreNoticed | src-tauri/vendor-crates/auto-launch/src/windows.rs:349-376 | so a task written with other arguments never matches |
| DelayCheck.Measured | src/services/delay.ts:197-228 | the lower of the answers that came; without one -4 for DIRECT and 1000000 for others; always -3 for REJECT; so never one of the sentinels for "no result" |
| DelayCheck.DelayManager.CancelGroupCheck | src/services/delay.ts:80-86 | aborts exactly the group's latest task |
| DelayCheck.DelayManager.StartGroupCheck | src/services/delay.ts:88-97 | aborts the predecessor and makes the new task current |
| DelayCheck.DelayManager.SetGroupPending | src/services/delay.ts:135-147 | marks every name or none, as the task is current or not, and touches no other entry |
| DelayTheorems.InvNext | src/services/delay.ts:80-273 | every synchronous piece of restarts, cancellations, checks and workers keeps the invariant |
| DelayTheorems.OnlyCurrentTasksWrite | src/services/delay.ts:252-267 | a delay is only ever stored while the task is current |
| DelayTheorems.WritesItsOwnName | src/services/delay.ts:252-267 | a delay is stored exactly when a worker of a current task gets its answers, for the position it had asked for, and is the measurement of the name at that position |
| DelayTheorems.SupersededForGood | src/services/delay.ts:88-101 | a superseded or cancelled task never counts as current again |
| DelayTheorems.SupersededNeverWrites | src/services/delay.ts:252-267 | so its checks never write another delay |
| DelayTheorems.EachPositionOnce | src/services/delay.ts:249-267 | no position is measured by two workers or measured again |
| DelayTheorems.TrueMeansAllMeasured | src/services/delay.ts:237-273 | when a check returns true every name was written if and only if there was none or some worker was not ended by a listener before the last position; unless listeners threw, exactly if there was no name or the concurrency is at least one |
| DelayTheorems.AllMeasuredExactly | src/services/delay.ts:237-273 | with listeners that throw exactly at some positions, every name was written if and only if fewer of them come before the last one than there are workers |
| DelayTheorems.ThrowingListenerHidesTheRest | src/services/delay.ts:103-108 | a run in which a throwing listener ends the only worker and the check still answers true |
| Connections.MergeConnectionSnapshot | src/features/connections/model.ts:26-55 | the two passes over the array compute the merge |
| Connections.FillHoles | src/features/connections/model.ts:49-53 | the in-place second pass fills holes from the queue, left to right |
| Connections.HolesAreClashes | src/features/connections/model.ts:35-53 | the holes left are as many as connections that found their place taken |
| Connections.CompleteUnlessClash | src/features/connections/model.ts:26-55 | the list is complete if and only if no two incoming connections share an id that keeps a place |
| Connections.MergedIsAPermutation | src/features/connections/model.ts:26-55 | without a clash it is the incoming list, with speeds, in another order |
| Connections.SurvivorsStay | src/features/connections/model.ts:36-41 | a surviving connection stays at its old index with its growth as its speed |
| Connections.NewcomersInOrder | src/features/connections/model.ts:42-53 | newcomers take the remaining places in order of arrival |
| Connections.NewcomersAsArrived | src/features/connections/model.ts:42-47 | these are exactly the connections that are not in the old list, or last in a row the shorter list no longer has, each as it arrived with speeds zero |
| Cidr.CidrToWildcard | src-tauri/vendor-crates/sysproxy-rs/src/utils.rs:18-57 | the octet loop computes the wildcards of the bounds |
| Cidr.BlockExactlyCovered | src-tauri/vendor-crates/sysproxy-rs/src/utils.rs:11-57 | for prefixes 0 to 31 an address matches some wildcard if and only if it is in the block; a /32 yields none |
| Cidr.WildcardsAreDisjoint | src-tauri/vendor-crates/sysproxy-rs/src/utils.rs:46-53 | no address matches two wildcards of a block |
| Watchdog.Retain | src-tauri/watchdog/src/main.rs:72-72 | keeps exactly the restarts inside the window |
| Watchdog.Supervise | src-tauri/watchdog/src/main.rs:60-109 | the loop that forgets old restarts stops when, with the code and after the launches that the whole history dictates |
| Watchdog.RecentAgain | src-tauri/watchdog/src/main.rs:71-72 | pruning twice is pruning once, later |
| Watchdog.SixRestartsSpanTheWindow | src-tauri/watchdog/src/main.rs:70-90 | any six consecutive granted restarts span at least 60 seconds |
| Watchdog.LaunchesAreBounded | src-tauri/watchdog/src/main.rs:60-109 | launches are at most four times the granted restarts plus one |
| Watchdog.WhileItRuns | src-tauri/watchdog/src/main.rs:60-109 | a running supervisor has launched once more than children ended, granted every request, and counts failures in a row |
| Watchdog.RequestsCounted | src-tauri/watchdog/src/main.rs:70-76 | the recent restarts are the requests made less than 60 seconds before |
| Watchdog.StopsExactlyWhen | src-tauri/watchdog/src/main.rs:66-107 | it stops with a child exactly if that ended normally, asked for a restart after five others less than 60 seconds before, or failed for the fourth time in a row |
| Enhance.UseFilter | src-tauri/src/enhance/field.rs:24-35 | keeps exactly the string keys listed |
| Enhance.UseLowercase | src-tauri/src/enhance/field.rs:37-48 | string keys in lower case, other keys dropped |
| Enhance.LoweredIsTheLast | src-tauri/src/enhance/field.rs:37-48 | of keys that become the same the last one decides |
| Enhance.UseSort | src-tauri/src/enhance/field.rs:50-81 | exactly the string-keyed entries, handled fields first and list fields last |
| Enhance.UseMerge | src-tauri/src/enhance/merge.rs:17-94 | for every key: lists are prepend, base, append; provider tables are merged; other fields of the merge override |
| Enhance.AppendedProvidersWin | src-tauri/src/enhance/merge.rs:29-60 | an appended provider beats the base's of its name, which beats a prepended one |
| Enhance.ListsInOrder | src-tauri/src/enhance/merge.rs:62-94 | rules, proxies and groups are those prepended, then the base's, then those appended |
| Enhance.ProvidersByName | src-tauri/src/enhance/merge.rs:29-60 | provider by provider: the appended one, else the base's, else the prepended one |
| Enhance.OtherFieldsOverride | src-tauri/src/enhance/merge.rs:17-24 | every other field of the merge overrides, the ten special ones excepted |
| Enhance.UseDnsForTun | src-tauri/src/enhance/tun.rs:73-105 | DNS is switched on, keeps its settings, and gets the defaults it lacks |
| Enhance.UseTun | src-tauri/src/enhance/tun.rs:21-71 | the tun section is present exactly if switched on or known before, agrees with the switch, and keeps its other settings |
| Enhance.ApplyIpv6ToDns | src-tauri/src/enhance/mod.rs:177-187 | the DNS section follows the ipv6 flag and keeps the rest |
| Enhance.Finished | src-tauri/src/enhance/mod.rs:146-148 | the last passes make of any configuration exactly the final one: tun and DNS as switched, everything else kept, keys sorted |
| Enhance.Enhance | src-tauri/src/enhance/mod.rs:21-155 | for arbitrary scripts and chains the result is exactly that of global script, chain in order, Clash's settings, built-in scripts and last passes, over the current profile; without scripts and chain the profile's own entries go through, and without built-in scripts Clash's own settings win; the keys reported are those seen on the way |
| Enhance.ProfileGoesThrough | src-tauri/src/enhance/mod.rs:36-148 | with no script and an empty chain, every entry of the profile that is not Clash's, TUN or DNS comes out as it is |
| Enhance.GlobalScriptComesFirst | src-tauri/src/enhance/mod.rs:69-83 | with a global script such an entry is as the script answered, or as in the profile if it failed |
| Enhance.ChainExtends | src-tauri/src/enhance/mod.rs:85-112 | one more item at the end of the chain decides such an entry: a merge by its rules over what came before, a script by its answer or not at all if it failed |
| Enhance.BuiltInExtends | src-tauri/src/enhance/mod.rs:126-144 | one more built-in script decides every entry but TUN and DNS by its answer, or not at all if it failed |

## Left out

- Generations, request ids and clocks are unbounded; wrap-around of 64-bit counters is not modelled.
- Tokio beyond "one stored permit per notify object" and "an abort takes effect at a later await"; real delays; the
  sorted listings of pending and running tasks; aborting a worker and notifying it are one step. A worker that waits
  may still be on its way to the await, so the runs in `OneShotWitness` need a thread that is preempted there or at the
  lock. Every running job is taken to have an await left; one that has none cannot be cut short.
- Registry values are typed values rather than raw bytes; the journal's descriptive metadata, access control lists and
  notifications are left out; deleting the journal tree is one step, and so is committing a restore together with
  deleting the Connections key it created. Reading the proxy back may fail arbitrarily.
- ProxyRecovery.PreparedIsSafe: says nothing of a registry somebody else changes during the enable, because the code
  cannot tell that from its own write.
- The initial start of the core schedules a recovery on failure even if it is no longer wanted; that loop ends at its
  first check and is not modelled. Waiting for the child, for readiness and between retries takes no time. A monitor
  that replaces a pending one of the same generation is an additional monitor here.
- Stopping the service after a failed start, killing processes by path and renaming executables are single choices.
- ShowMerge.NoShowIsLost: the destruction of the window, which resets guard and pending id, is not modelled, nor is
  the creation of a missing window; repair attempts of the retry job show no new id.
- ConfigTransaction.App.PatchClash: concurrent patches and a background recovery of the core during a rollback are not
  modelled; a firewall call that fails before the draft may leave the rules either way. Mode and tray updates have no
  effect on the model. Listeners of the core other than its mixed, SOCKS and HTTP ports count among the others, and the
  ports that others answer on do not change while a patch waits.
- ConfigTransaction.App.Launch: firewall, hotkeys and auto-launch at start-up.
- ConfigTransaction.App.UpdateConfig: the five attempts to hand the configuration to the core are one choice.
- Path functions (file stem, parent directory), UTF-8 decoding, the scheduler's command-line tool and the process that
  reads the temporary file.
- DelayCheck.DelayManager.SetGroupPending: listeners that restart or cancel a check from inside the loop are covered by
  the machine, where every name is a step of its own, not by this method. The cache is keyed by group and name, not by
  their joined text, in which names containing the separator can collide.
- Sorting of connections, and single checks of one node, which write without a task.
- Splitting the CIDR text and the computation of the block's bounds are a library's; bounds are taken by octet.
- Watchdog start-up checks, logging and real child processes.
- The logs of scripts and the warnings of the enhancement pipeline; which built-in scripts a core supports.
- Nothing was executed: the claims here are about the model.
