# Aura Power: verified durable bookkeeping

Aura Power switches Kubernetes workloads off and back on. What is hard about it is not the
switching but the bookkeeping around side effects that may fail, commit without saying so, or
be cut short by a crash. This project models that bookkeeping in Dafny and proves what it
guarantees over every run.

Source that changes state step by step is modelled by classes with `modifies` clauses. Each
of their methods takes a *script*: which cached version every read returns, the fate of every
write (done, refused, committed with a lost reply, death before or after the commit), and what
other writers do in between. Its contract ties the new state to a function of the old state and
the script, and the theorems quantify over all scripts and all runs of those functions. Safety
holds whatever the script; the `Progress` modules say what is done when nothing disturbs it.

| component | specification | theorems | imperative form |
|---|---|---|---|
| power-action saga | `Cluster`, `ReconcileSpec` | `SnapshotSafety`, `WorkloadWrites`, `AuditTrail`, `Silence`, `Protection`, `Gates`, `Progress` | `Controller` |
| notification ledger | `AttemptLedger`, `DispatchSpec` | `AttemptLedger`, `DispatchSafety`, `DispatchProgress` | `Dispatcher` |
| approval workflow | `PendingRow`, `ApprovalSpec` | `PendingRow`, `ApprovalSafety` | `Approvals` |
| discovery | `DiscoverySpec` | `DiscoverySafety`, `DiscoveryProgress` | `Discovery` |
| discovery and saga together | `JointRun` | `JointRun` | |
| decision engine | `Windows`, `Scopes`, `Guardrails`, `Engine` | `Engine`, `EngineLaws`, `Windows`, `Scopes`, `Preview` | `Guardrails`, `Engine`, `Preview` |
| audit pager, savings | `AuditPages`, `Savings` | the same | the same |

`dafny verify dfyconfig.toml` checks everything.

## Assumptions

- Snapshot safety needs observations no older than the controller's own last power-down. The
  code does not enforce this; the exact condition under which a pass loses the snapshot is
  `SnapshotSafety.Exposed`, and `SnapshotSurvivesExactlyWhenSheltered` is the equivalence.
- The approval replay law needs current, successful reads and no other writer of the resource;
  that a change was in effect when approved needs current reads; agreement of final state and
  audit record needs neither. Handlers of one change run one after
  another, each of them possibly cut short.
- Discovery reads are current or fail, nobody else writes PowerTargets while a cycle runs, and
  the list names each workload once. In joint runs a cycle lists the workload as it is, and no
  pass works on a record before discovery has written its first observation.
- One dispatcher writes a channel's status. `RepeatsAreFarApart` also needs that batches list
  the channel as last written, and that the events of one audit record agree on action, result
  and rule; `GroupsAreDisjoint` shows the second condition is exact.
- SHA-256 names are injective, times are unrounded integers, clock samples of one controller
  are distinct, floating point is `real`, power states are on or off.

## Properties that do not hold as one would hope

- A record that is stale about the controller's own power-down makes the next pass drop the only
  snapshot (`StaleObservationLosesSnapshot`; `SnapshotSurvivesExactlyWhenSheltered` is the
  equivalence).
- On a stale read a change is approved that is not in effect (`StaleDeleteIsApproved`;
  `AppliesExactlyWhen` is the equivalence).
- A rejection whose audit write commits but reports an error is cancelled, yet its record stays:
  an approval that follows can write the resource and never be finalised
  (`CommittedChangeCanBeStranded`; `ReplayApprovesExactlyWhenNotBlocked` is the equivalence).
- Legacy names join namespace and name with `--` unescaped, so two workloads of one kind can
  answer to one record (`LegacyNamesCollide`, `TwinLoses`; `CyclePreservesExactlyWhen` is the
  equivalence).
- A snapshot stored on a UID-bound record before its first observation can be overwritten by a
  resumed migration (`UnobservedSnapshotIsOverwritten`; `TurnKeepsExactlyWhen` is the
  equivalence).

## Model

| member | source | states |
|---|---|---|
| `SnapshotSafety.RunKeepsSnapshots` | internal/adapters/driving/reconciler/target_reconciler.go:53-242 | Over every run of passes (stale cached reads, lost replies, refused writes and deaths anywhere) and outside steps: while a power-down of the controller that found the workload running is in force (whoever wrote the workload since left its level as it was), the stored snapshot is available and holds exactly the overwritten replica count or suspend flag, provided no pass starts from an exposed record |
| `SnapshotSafety.FreshRunKeepsSnapshots` | internal/adapters/driving/reconciler/target_reconciler.go:109-221 | The same for every run whose passes see an observation no older than the power-down in force: fresh-enough runs are sheltered |
| `SnapshotSafety.FreshIsNotExposed` | internal/adapters/driving/reconciler/target_reconciler.go:244-319 | An observation at least as new as the power-down never exposes the record, whatever the decision |
| `SnapshotSafety.SnapshotSurvivesExactlyWhenSheltered` | internal/adapters/driving/reconciler/target_reconciler.go:143-165 | Without freshness the law fails; for each record and decision, every pass while a power-down is in force keeps the snapshot if and only if the record is not exposed (observed on, no owed audit, and the decision re-issues the power-down or accepts the state as restored) |
| `SnapshotSafety.ExposedPassDropsSnapshot` | internal/adapters/driving/reconciler/target_reconciler.go:152-156 | The failing side: from an exposed record the pass, undisturbed or after one more write at the same level, meets a newer revision and drops the only snapshot |
| `SnapshotSafety.StaleObservationLosesSnapshot` | internal/adapters/driving/reconciler/target_reconciler.go:297-302 | The failing side is reachable: from an untouched workload, a death at the checkpoint write and one pass on the old observation lose the snapshot of a workload that stays off |
| `SnapshotSafety.ReconcileKeeps` | internal/adapters/driving/reconciler/target_reconciler.go:53-242 | One pass, whatever happens to its calls, keeps the invariant: the snapshot matches the overwritten value, a revision-bound snapshot holds what that revision held, the observation is a projection of the version it names |
| `SnapshotSafety.PowerDownKeeps` | internal/adapters/driven/kubernetes/executor.go:80-100 | The power-down write overwrites exactly what the stored snapshot holds, because the revision it replaces is the snapshot's; a stale reply means nothing was switched off |
| `SnapshotSafety.CaptureKeeps` | internal/adapters/driving/reconciler/target_reconciler.go:604-623 | Capturing and persisting a snapshot keeps the invariant unless the controller's own power-down is the live state |
| `SnapshotSafety.RestoreGivesBack` | internal/adapters/driving/reconciler/target_reconciler.go:187-219 | While a power-down is in force on the workload the record is bound to, the undisturbed pass that decides to switch on adds exactly one workload version, which runs again with exactly the overwritten replica count or suspend flag |
| `AuditTrail.RestoredWithinTwoPasses` | internal/adapters/driving/reconciler/target_reconciler.go:101-106 | The same whether or not an audit record is still owed: at most two undisturbed passes give the overwritten value back |
| `WorkloadWrites.RestoreWritesOverwritten` | internal/adapters/driven/kubernetes/executor.go:179-233 | Whatever fails or interferes, any restore written by a pass that starts while a power-down is in force gives back exactly the overwritten level |
| `WorkloadWrites.ShelteredRunsRoundTrip` | internal/adapters/driving/reconciler/target_reconciler.go:109-221 | Over every sheltered run, in the whole version history of the workload, a restore that meets a power-down still in force, however many level-preserving versions lie between, equals what that power-down found: off and on again is the identity |
| `WorkloadWrites.ReachableWorldsRoundTrip` | internal/adapters/driving/reconciler/target_reconciler.go:53-242 | From a freshly discovered record, every world a fresh-enough run reaches is safe and its history round-trips |
| `WorkloadWrites.WritesObeyDecision` | internal/adapters/driving/reconciler/target_reconciler.go:108-219 | A pass adds workload versions only as its decision allows: a power-down only for a managed, unblocked off, a restore only for on, nothing otherwise |
| `WorkloadWrites.StalePassWritesNothing` | internal/adapters/driving/reconciler/target_reconciler.go:321-349 | A pass that read anything but the live record version never writes the workload: the durable intent is refused first |
| `WorkloadWrites.SettledPass` | internal/adapters/driving/reconciler/target_reconciler.go:244-319 | A pass under the same rule and retry annotation keeps an Applied, Converged or Contended action in those phases and issues no workload write |
| `WorkloadWrites.SettledForGood` | internal/adapters/driving/reconciler/target_reconciler.go:244-319 | The same over every run, whatever is observed or fails meanwhile, until the decision key or the retry annotation changes |
| `Progress.PowerDownHappens` | internal/adapters/driving/reconciler/target_reconciler.go:120-185 | For every kind: when a power-down is due (decided, observed and really running, no audit owed, no settled attempt) and there is no snapshot or one of the live revision, the undisturbed pass adds exactly one workload version, the controller's, with zero replicas or suspended and all else unchanged, and the stored snapshot holds what it found |
| `Progress.PowerDownHappensAfterRetiring` | internal/adapters/driving/reconciler/target_reconciler.go:147-165 | With a snapshot of an older revision the undisturbed pass retires it and touches nothing else, and the next one switches the workload off |
| `Progress.PowerDownIsRecorded` | internal/adapters/driving/reconciler/target_reconciler.go:166-185 | The power-down is checkpointed as applied with the failure count reset, and the audit record of a power-down by that rule exists and was announced |
| `Progress.RestoreIsRecorded` | internal/adapters/driving/reconciler/target_reconciler.go:199-219 | The same for a restore |
| `Progress.SmoothFailure` | internal/adapters/driving/reconciler/target_reconciler.go:147-165 | A failed mutation is counted, marked failed and recorded as an execution error, a stale snapshot retired, and the workload left alone |
| `Progress.RestoreNeedsSnapshot` | internal/adapters/driving/reconciler/target_reconciler.go:625-640 | Without a snapshot nothing is restored and the attempt is counted as failed |
| `Progress.CaptureFailureIsCounted` | internal/adapters/driving/reconciler/target_reconciler.go:121-138 | A snapshot that cannot be captured is counted as a failure and recorded as an execution error, and nothing is switched off |
| `Progress.RefusedByAutoscaler` | internal/adapters/driving/reconciler/target_reconciler.go:470-539 | An autoscaler that was not opted in or could not be checked blocks the pass: the block is persisted, a failed check is counted, and nothing is switched off |
| `Progress.LostCheckpointIsRecorded` | internal/adapters/driving/reconciler/target_reconciler.go:171-179 | An accepted mutation whose checkpoint cannot be written is recorded as an execution error of its rule, and the intent stays |
| `Progress.MissingDispositionIsStoredFirst` | internal/adapters/driving/reconciler/target_reconciler.go:410-422 | A pending action without a stored disposition gets the live one, and only that, before anything is recorded for it |
| `Progress.AcceptedIsWatched` | internal/adapters/driving/reconciler/target_reconciler.go:291-319 | An accepted action observed as desired converges; otherwise it is left alone for 120 seconds after acceptance and then contended; the workload is not written |
| `Progress.UncertainIsClosed` | internal/adapters/driving/reconciler/target_reconciler.go:272-290 | An attempt whose outcome was never learnt is closed as applied, owing its audit, once the workload is observed as desired |
| `Progress.RestoredElsewhereIsAccepted` | internal/adapters/driving/reconciler/target_reconciler.go:248-264 | A workload switched on by somebody else retires the stored snapshot and counts as converged |
| `Progress.IdlePassesShowDecision` | internal/adapters/driving/reconciler/target_reconciler.go:814-911 | A decision that asks for no action is shown by the record, fields and label, after at most two undisturbed passes, and changes nothing else |
| `Gates.PassGates` | internal/adapters/driving/reconciler/target_reconciler.go:141-187 | Whatever else happens, a pass writes the workload only after the notification policy was readable and the intent was written and read back, and switches it off only when the autoscaler check admitted it |
| `Gates.RunsChangeOnlyLevels` | internal/adapters/driven/kubernetes/executor.go:64-233 | Over every run each write of the controller is the version it replaced but for the replica count or suspend flag, and is of the workload with the record's UID |
| `Gates.ReachableWritesChangeOnlyLevels` | internal/adapters/driven/kubernetes/executor.go:235-250 | The same from a freshly discovered record |
| `AuditTrail.OwedEventNeverMismatches` | internal/adapters/driven/kubernetes/audit.go:49-134 | Recording the event that any stored version, however old, still owes never meets a record with other semantics, never changes an existing record, and when it succeeds the stored record is that event |
| `AuditTrail.PassKeepsTrail` | internal/adapters/driving/reconciler/target_reconciler.go:402-455 | Every pass keeps the audit invariant: pending actions carry identifier, action and disposition; versions owing one identifier owe the same event; recorded actions have their record; queued events are unsuppressed and equal their record |
| `AuditTrail.RunKeepsTrail` | internal/adapters/driving/reconciler/target_reconciler.go:381-455 | The same over every run, and audit records are only ever added |
| `AuditTrail.ReplacedOnlyAfterAudit` | internal/adapters/driving/reconciler/target_reconciler.go:101-106 | A version that owes an audit record has an event identifier, and a different action follows it only once exactly that one record exists and tells of it |
| `AuditTrail.RecordNamesTheAction` | internal/adapters/driving/reconciler/target_reconciler.go:381-400 | A version that owes or has an audit record names a power-down exactly when its desired state is off and a restore exactly when it is on, and a stored record agrees |
| `Progress.TakenNameIsCompared` | internal/adapters/driven/kubernetes/audit.go:95-140 | Under a name that is taken an event is accepted if and only if the stored record is the same but for the fraction of its second; otherwise nothing changes |
| `Progress.UnfoundedDispositionIsRefused` | internal/adapters/driven/kubernetes/audit.go:142-153 | Suppression without a namespace label and UID, or a source without suppression, is never recorded |
| `Progress.FullQueueIsReported` | internal/adapters/driven/kubernetes/audit.go:118-131 | With no room in the queue the record is made and the recorder reports it, so that it is called again |
| `AuditTrail.SuppressedActionStaysSilent` | internal/adapters/driven/kubernetes/audit.go:118-134 | No event under the identifier of an action whose notifications were suppressed before the workload write, at whatever stage, is ever handed to the notifier |
| `Silence.BegunActionIsSilent` | internal/adapters/driving/reconciler/target_reconciler.go:682-715 | Once an action with a suppressed disposition has begun, the mutation, its checkpoint, its audit and every execution error recorded under a generated name leave the notifier's queue as it was |
| `Silence.DisabledPassIsSilent` | internal/adapters/driving/reconciler/target_reconciler.go:721-758 | A pass that reads notifications as disabled announces nothing, unless it records what an earlier unsuppressed action still owes |
| `Silence.DisabledRunQueuesNothing` | internal/adapters/driving/reconciler/target_reconciler.go:721-758 | A run whose passes all read notifications as disabled queues nothing, whatever fails, dies or interferes |
| `AuditTrail.ReachableTrail` | internal/adapters/driving/reconciler/target_reconciler.go:381-455 | From a freshly discovered record, in every world any run reaches: no owed audit is skipped, and every queued event with an identifier is unsuppressed and carries the disposition of every version of its action |
| `Controller.ApiServer.UpdateTarget` | internal/adapters/driving/reconciler/target_reconciler.go:593-640 | A status write is refused unless it carries the last version, and may commit with a lost reply |
| `Controller.Executor.PowerDown` | internal/adapters/driven/kubernetes/executor.go:38-49 | Reads, checks UID and snapshot revision, overwrites replicas or suspend under compare-and-swap; whole new world stated |
| `Controller.Executor.Restore` | internal/adapters/driven/kubernetes/executor.go:51-62 | Reads, checks UID, writes the saved value; a CronJob already at the flag is not written; whole new world stated |
| `Controller.AuditRecorder.Record` | internal/adapters/driven/kubernetes/audit.go:49-134 | Create, compare on AlreadyExists, read back, enqueue unless suppressed; whole new world stated |
| `Controller.TargetReconciler.ReconcilePendingAudit` | internal/adapters/driving/reconciler/target_reconciler.go:402-455 | Owed audit recorded and phase persisted, or the pass halts; whole new world and memory stated |
| `Controller.TargetReconciler.ReconcileExistingAction` | internal/adapters/driving/reconciler/target_reconciler.go:244-319 | Restored-elsewhere, uncertain, converged, grace and contended branches; whole new world and memory stated |
| `Controller.TargetReconciler.BeginAction` | internal/adapters/driving/reconciler/target_reconciler.go:321-349 | Disposition read, intent persisted and read back before any mutation; whole new world and memory stated |
| `Controller.TargetReconciler.CaptureAndPersistSnapshot` | internal/adapters/driving/reconciler/target_reconciler.go:120-141 | Capture, persist, or count the failure and record the error; whole new world and memory stated |
| `Controller.TargetReconciler.AdmitLiveHPA` | internal/adapters/driving/reconciler/target_reconciler.go:470-539 | A refused or unverified autoscaler check halts the pass with a persisted block |
| `Controller.TargetReconciler.PowerDown` | internal/adapters/driving/reconciler/target_reconciler.go:120-185 | Capture, admit, begin, execute, checkpoint, audit, in this order; whole new world stated |
| `Controller.TargetReconciler.Restore` | internal/adapters/driving/reconciler/target_reconciler.go:187-219 | Begin, restore, checkpoint, audit, in this order; whole new world stated |
| `Controller.TargetReconciler.Reconcile` | internal/adapters/driving/reconciler/target_reconciler.go:53-242 | One pass changes the world exactly as the function the run theorems are about; it writes the workload only as the decision allows, keeps the audit invariant, and keeps the snapshot invariant unless it starts from an exposed record |
| `Protection.PowerDownAllowedExactlyWhen` | internal/core/domain/engine.go:10-65 | A decision lets the controller switch a workload off if and only if the target is not exempt, some rule applies, every applicable rule of maximal priority says off, the namespace is not protected, and the workload is opted in or none of its owners objects |
| `Protection.ProtectedRunNeverPowersDown` | internal/adapters/driving/reconciler/target_reconciler.go:108-187 | For all rules, annotations, ownership lists and times, over every run, no workload in a protected namespace is ever switched off by the controller |
| `Protection.UnblockedExactlyWhen` | internal/core/domain/guardrails.go:8-37 | Guardrails return no block exactly when the namespace is unprotected and the target is opted in or every ownership signal is |
| `Guardrails.EvaluateGuardrails` | internal/core/domain/guardrails.go:8-37 | The loops return all block reasons, or only the non-waivable ones under opt-in |
| `Guardrails.CheckOwnership` | internal/core/domain/guardrails.go:81-118 | One waivable block for each signal not opted in, in order |
| `Guardrails.OptInWaivesOnlyWaivable` | internal/core/domain/guardrails.go:22-31 | Opt-in removes exactly the waivable blocks, and a protected namespace is blocked in every case |
| `Guardrails.OwnersObject` | internal/core/domain/guardrails.go:81-118 | Argo CD, Flux, Helm and the autoscaler each object under their own block type exactly when a signal of theirs is not opted in |
| `AttemptLedger.UpdateKeeps` | internal/adapters/driven/notifications/dispatcher.go:649-659 | Up to five tries over stale reads and lost replies enter a mutation in the ledger at most once; the status stays the bounded view of the ledger; no attempt leaves a terminal phase |
| `AttemptLedger.Conservation` | internal/adapters/driven/notifications/dispatcher.go:590-647 | TotalSent + TotalErrors + attempts still in progress, evicted ones included, equals attempts ever committed; at most 20 history entries with distinct identifiers, the last of which is LastAttempt |
| `AttemptLedger.RecoverViews` | internal/adapters/driven/notifications/dispatcher.go:217-241 | Marking interrupted attempts failed counts each exactly once, the last attempt included |
| `AttemptLedger.BeginGrowsByOne` | internal/adapters/driven/notifications/dispatcher.go:590-603 | A begin retried over lost replies adds at most one attempt |
| `DispatchSafety.RunKeepsBooks` | internal/adapters/driven/notifications/dispatcher.go:194-247 | Over every run of batches, recoveries and restarts the books are kept and every attempt changes phase at most once |
| `DispatchSafety.RunIsHonest` | internal/adapters/driven/notifications/dispatcher.go:560-588 | Over every run the sender is called at most once for an attempt and only after the attempt is durable, and an attempt that counts as sent was accepted by the provider with those references |
| `DispatchSafety.ReachableBooks` | internal/adapters/driven/notifications/dispatcher.go:194-361 | All of the ledger laws in every state that any run on a new channel reaches |
| `DispatchSafety.AcknowledgedDeliveryIsRecorded` | internal/adapters/driven/notifications/dispatcher.go:560-631 | Once both status writes are acknowledged, the ledger gained exactly one attempt with the group's references and the provider's verdict, and exactly one counter went up by one |
| `DispatchSafety.GroupsPartitionByKey` | internal/adapters/driven/notifications/dispatcher.go:363-382 | Each group is exactly the events of one action, result and rule, in order; no key has two groups; every key that occurs has one |
| `DispatchSafety.GroupsAreDisjoint` | internal/adapters/driven/notifications/dispatcher.go:363-382 | No audit reference is in two messages of one batch if and only if the events of each reference agree on action, result and rule |
| `DispatchSafety.RepeatsAreFarApart` | internal/adapters/driven/notifications/dispatcher.go:257-304 | With channel lists that reflect the dispatcher's own writes, two sender calls carrying one audit reference are separated by at least 20 other attempts begun on the channel |
| `DispatchProgress.EveryDueEventIsAttempted` | internal/adapters/driven/notifications/dispatcher.go:249-361 | In an undisturbed batch every event that passes an enabled channel's filters and whose reference the listed history does not carry has its reference in a closed attempt the batch adds, and in a sender call if the channel is deliverable |
| `DispatchProgress.EveryDueEventIsAttemptedOnce` | internal/adapters/driven/notifications/dispatcher.go:337-358 | And in exactly one of each, when events about one audit record agree on action, result and rule |
| `DispatchProgress.OnlyDueEventsAreSent` | internal/adapters/driven/notifications/dispatcher.go:280-304 | Whatever is stale, lost, throttled or fatal, a batch sends only references of its own events that pass an enabled channel's filters and that the listed history does not carry |
| `DispatchProgress.DedupeKeepsFirsts` | internal/adapters/driven/notifications/dispatcher.go:257-267 | No event is left twice and events stay in the order of their first occurrence |
| `DispatchProgress.ThrottledGroupsWait` | internal/adapters/driven/notifications/dispatcher.go:337-344 | Throttled groups of a deliverable channel are passed over |
| `DispatchProgress.UndisturbedDelivery` | internal/adapters/driven/notifications/dispatcher.go:560-588 | An undisturbed group adds one closed attempt with its references and the provider's verdict, and one sender call if deliverable |
| `DispatchProgress.RecoveryClosesInterrupted` | internal/adapters/driven/notifications/dispatcher.go:194-247 | An undisturbed recovery closes as failed exactly the attempts in progress among the last 20 that started in time, and changes no other |
| `DispatchProgress.FiveTries` | internal/adapters/driven/notifications/dispatcher.go:649-659 | Four refusals leave a fifth try its chance and no sixth follows |
| `Dispatcher.ChannelStatus.Store` | internal/adapters/driven/notifications/dispatcher.go:635-647 | Replaces the entry with that identifier or appends and keeps the last 20 |
| `Dispatcher.ChannelStatus.Finish` | internal/adapters/driven/notifications/dispatcher.go:607-630 | Nothing for an attempt already terminal, else one counter and the completed attempt |
| `Dispatcher.ChannelStatus.RecoverInterrupted` | internal/adapters/driven/notifications/dispatcher.go:217-241 | The loop over the history and the treatment of the last attempt, as the recovery function |
| `Dispatcher.Deduplicate` | internal/adapters/driven/notifications/dispatcher.go:257-267 | The seen-map loop keeps first occurrences in order |
| `Dispatcher.ExcludeAttemptedEvents` | internal/adapters/driven/notifications/dispatcher.go:384-406 | Exactly the events without reference, or whose reference no recent or last attempt carries, in order |
| `Dispatcher.GroupBatchEvents` | internal/adapters/driven/notifications/dispatcher.go:363-382 | The index-map loop computes the grouping the partition theorem is about |
| `Dispatcher.TwoPassesSelect` | internal/adapters/driven/notifications/dispatcher.go:286-304 | Filtering by channel and then by attempts selects the same events as one combined filter |
| `Dispatcher.ChannelDispatcher.UpdateChannelStatus` | internal/adapters/driven/notifications/dispatcher.go:649-659 | The retry loop as the ledger's retried compare-and-swap |
| `Dispatcher.ChannelDispatcher.DeliverGroup` | internal/adapters/driven/notifications/dispatcher.go:546-588 | Begin, send at most once, finish; whole new channel, log and liveness stated |
| `Dispatcher.ChannelDispatcher.DispatchBatch` | internal/adapters/driven/notifications/dispatcher.go:249-361 | One batch on one channel as the function the run theorems are about |
| `Dispatcher.ChannelDispatcher.RecoverIncompleteAttempts` | internal/adapters/driven/notifications/dispatcher.go:194-247 | Recovery of one channel as the function the run theorems are about |
| `PendingRow.DecisionKeepsVerdictAndReviewer` | internal/adapters/driven/auth/sqlite_store.go:265-321 | Over any interleaving of begin, cancel and finalize: approved and rejected are absorbing, and without a cancel a decision keeps its verdict and its first reviewer across lease takeovers |
| `PendingRow.BeginsAreSeparated` | internal/adapters/driven/auth/sqlite_store.go:274-280 | Two successful begins on one change are separated by a cancel or by more than five minutes |
| `PendingRow.OpenedByCancel` | internal/adapters/driven/auth/sqlite_store.go:292-302 | A change goes back to pending only by a cancel of the reviewer on record |
| `ApprovalSafety.FinalisedAgreesWithAudit` | internal/adapters/driving/api/auth_handlers.go:341-440 | In every run with crashes, lost replies, stale reads and outside writers: approved implies the single audit record says success and some version of the resource held the approved spec (or was absent, for delete); rejected implies the record says blocked; the record never changes |
| `ApprovalSafety.ApprovedMeansApplied` | internal/adapters/driving/api/auth_handlers.go:529-613 | With current reads and any outside writers, an approved change was in effect on the live resource while the approving handler ran |
| `ApprovalSafety.AppliesExactlyWhen` | internal/adapters/driving/api/auth_handlers.go:529-613 | With a cache no older than a given version, every approval is given only while the change is in effect if and only if it is in effect now or was in no version the cache may still return |
| `ApprovalSafety.StaleReadApproves` | internal/adapters/driving/api/auth_handlers.go:529-588 | The failing side: a stale read of any version that had the change in effect approves it without touching the resource |
| `ApprovalSafety.StaleDeleteIsApproved` | internal/adapters/driving/api/auth_handlers.go:532-538 | A concrete input: a delete approved, with a success record, on a read from before the resource existed, while the resource is live |
| `ApprovalSafety.CommittedNeverUndone` | internal/adapters/driving/api/auth_handlers.go:369-399 | With current reads and no outside writer, even when the re-read after an unclear reply fails, a change whose resource write committed is never cancelled or rejected, and the resource is written at most once over the whole run, for create, update and delete |
| `ApprovalSafety.ReplayApprovesExactlyWhenNotBlocked` | internal/adapters/driving/api/auth_handlers.go:529-613 | A replay by any other reviewer after the lease takes a committed change to approved without a second write, keeping the first reviewer, if and only if the audit record does not already report a rejection |
| `ApprovalSafety.BlockedRecordNeverApproves` | internal/adapters/driving/api/auth_handlers.go:466-501 | Once the record reports a rejection, no run approves the change |
| `ApprovalSafety.CommittedChangeCanBeStranded` | internal/adapters/driving/api/auth_handlers.go:402-440 | A concrete run with clean reads in which a rejection's lost audit reply leaves a committed change short of approved for good |
| `ApprovalSafety.ApprovalDoesItsWork` | internal/adapters/driving/api/auth_handlers.go:341-400 | For create, update and delete: an undisturbed approval of a change not yet in effect adds exactly one resource version, which puts it in effect, and ends approved in the reviewer's (or lease holder's) name with a success record, if and only if the live resource is the one the change expects; otherwise the change goes back to pending and nothing is written |
| `ApprovalSafety.RejectionDoesItsWork` | internal/adapters/driving/api/auth_handlers.go:402-440 | An undisturbed rejection ends rejected with a blocked record and an untouched resource if and only if no success record exists; otherwise the change goes back to pending |
| `ApprovalSafety.NobodyApprovesTheirOwn` | internal/adapters/driving/api/auth_handlers.go:341-368 | Whatever happens to the calls, nobody approves a change of their own and changes outside the namespace are not touched |
| `ApprovalSafety.UnsoundIsNotApplied` | internal/adapters/driving/api/auth_handlers.go:506-570 | A request that fails its checks is never applied, and an undisturbed approval puts it back to pending |
| `Approvals.SqliteStore.BeginPendingDecision` | internal/adapters/driven/auth/sqlite_store.go:265-290 | The conditional update: lease, takeover, original reviewer kept |
| `Approvals.SqliteStore.CancelPendingDecision` | internal/adapters/driven/auth/sqlite_store.go:292-302 | Back to pending only for the reviewer on record |
| `Approvals.SqliteStore.FinalizePendingDecision` | internal/adapters/driven/auth/sqlite_store.go:304-321 | Final only from the matching interim state and reviewer |
| `Approvals.ApprovalHandlers.ApplyPendingChange` | internal/adapters/driving/api/auth_handlers.go:506-613 | Idempotent create, update and delete with re-read after an unclear reply; whole new world stated |
| `Approvals.ApprovalHandlers.RecordApprovalDecision` | internal/adapters/driving/api/auth_handlers.go:466-501 | One deterministically named record; an existing one must tell of the same decision |
| `Approvals.ApprovalHandlers.HandleApprove` | internal/adapters/driving/api/auth_handlers.go:341-400 | Begin, apply, record, finalise or cancel, as the function the run theorems are about |
| `Approvals.ApprovalHandlers.HandleReject` | internal/adapters/driving/api/auth_handlers.go:402-440 | Begin, record, finalise or cancel, as the function the run theorems are about |
| `DiscoverySafety.EnsureTurn` | internal/adapters/driving/background/discovery.go:136-258 | One workload's turn, whichever call fails: only its two names change, a powered-down workload keeps an accepted snapshot and gains none that was not accepted before, and a restore happens only for an exempt, powered-down workload from an accepted snapshot |
| `DiscoverySafety.MigrateTurn` | internal/adapters/driving/background/discovery.go:220-249 | Migration deletes the legacy record only after the UID-bound one durably carries its snapshot |
| `DiscoverySafety.ResumeTurn` | internal/adapters/driving/background/discovery.go:156-191 | The same for a migration interrupted after create |
| `DiscoverySafety.ExemptionTurn` | internal/adapters/driving/background/discovery.go:310-339 | Exemption restores before it deletes the snapshot-bearing record |
| `DiscoverySafety.LegacyExemptionTurn` | internal/adapters/driving/background/discovery.go:264-285 | The same for a legacy record |
| `DiscoverySafety.NewStatusReplaces` | internal/adapters/driving/background/discovery.go:384-412 | The retried status write leaves the new record empty or carrying exactly the inherited snapshot, and success means it carries it |
| `DiscoverySafety.CyclePreserves` | internal/adapters/driving/background/discovery.go:82-128 | A whole cycle, cleanup included, with any call failing and death anywhere, keeps an accepted snapshot for a workload it lists as powered down, makes none up, and restores it only from one accepted at the start |
| `DiscoverySafety.RunPreserves` | internal/adapters/driving/background/discovery.go:82-128 | The same over any number of cycles, as long as those that list workloads list this one as powered down |
| `DiscoverySafety.CyclePreservesExactlyWhen` | internal/adapters/driving/background/discovery.go:136-258 | For a workload listed as powered down, every cycle from every well-formed store keeps an accepted snapshot if and only if its namespace is not a system namespace and no other managed workload of its kind has the same legacy name |
| `DiscoverySafety.TwinLoses` | internal/adapters/driving/background/discovery.go:220-249 | The failing side: any managed twin of the same kind can adopt or drop the record |
| `DiscoverySafety.SystemNamespaceLoses` | internal/adapters/driving/background/discovery.go:481-531 | The failing side: cleanup deletes the record of a workload in a system namespace |
| `DiscoverySafety.LegacyNamesCollide` | internal/adapters/driving/background/discovery.go:157-157 | Twins exist: namespace and name are joined without escaping |
| `DiscoverySafety.UnobservedSnapshotIsOverwritten` | internal/adapters/driving/background/discovery.go:170-179 | A snapshot stored before the first observation is overwritten by a resumed migration; well-formed records exclude this |
| `DiscoverySafety.TurnKeepsExactlyWhen` | internal/adapters/driving/background/discovery.go:156-191 | From any store, well-formed or not, whichever calls fail: the turn of a powered-down workload with an accepted snapshot keeps one if and only if it is not the case that its UID-bound record is unobserved, a legacy record of its kind hands its status over, and that status has no available snapshot or the record is bound to another identity |
| `DiscoverySafety.MigrationCompletes` | internal/adapters/driving/background/discovery.go:220-249 | An undisturbed turn moves the accepted legacy snapshot and the whole execution state under the UID-bound name and removes the legacy record, also when interrupted halfway before |
| `DiscoveryProgress.NewWorkloadIsRecorded` | internal/adapters/driving/background/discovery.go:254-257 | A managed workload without a record gets exactly one: bound to it, showing its replicas, flag, labels and power state, and empty otherwise |
| `DiscoveryProgress.RecordIsRefreshed` | internal/adapters/driving/background/discovery.go:426-459 | An existing record is brought up to date field by field and keeps its snapshot and execution state |
| `DiscoveryProgress.RecreatedIsRebound` | internal/adapters/driving/background/discovery.go:192-214 | A record of another identity is emptied and bound to this workload |
| `DiscoveryProgress.LegacyIsReplaced` | internal/adapters/driving/background/discovery.go:220-249 | Unless ambiguous, a legacy record is replaced by one that shows the workload and carries the old snapshot and execution state exactly when the UID matches, or without one when the record proves the workload was switched off |
| `DiscoveryProgress.UnprovenIsLeftAlone` | internal/adapters/driving/background/discovery.go:228-240 | Whichever calls fail, while a workload is down a legacy record whose snapshot is neither its own by UID nor evidence about it (zero replicas prove nothing) is left alone together with the whole store |
| `DiscoveryProgress.ExemptIsRestoredThenReleased` | internal/adapters/driving/background/discovery.go:310-339 | An exempt workload that is down is restored from its snapshot and keeps its record; one that runs loses the record |
| `DiscoveryProgress.ExemptLegacyIsRestoredThenReleased` | internal/adapters/driving/background/discovery.go:264-285 | The same for a legacy record |
| `DiscoveryProgress.CycleShowsEveryWorkload` | internal/adapters/driving/background/discovery.go:82-128 | After an undisturbed cycle every managed workload it listed has a record that shows it as listed, unless an old record is ambiguous or a twin takes part; cleanup leaves it alone whatever it meets |
| `DiscoveryProgress.CycleLeavesNothingElse` | internal/adapters/driving/background/discovery.go:481-531 | Where cleanup listed everything and met no failure, only records that a listed workload accounts for are left |
| `DiscoveryProgress.EightTries` | internal/adapters/driving/background/discovery.go:384-412 | Seven retriable refusals leave an eighth try its chance and no ninth follows |
| `DiscoverySafety.CleanupIsComplete` | internal/adapters/driving/background/discovery.go:514-528 | When every record is listed and every deletion succeeds, exactly the expected records are left |
| `JointRun.CycleCarries` | internal/adapters/driving/background/discovery.go:82-128 | A whole cycle that lists the workload as powered down keeps the snapshot of the record in charge, through migration, resumption, exemption and cleanup, and restores the workload only from it |
| `JointRun.JointRunsKeep` | internal/adapters/driving/background/discovery.go:82-128 | Over every interleaving of reconcile passes, outside writers and discovery cycles, with any call failing or fatal: while a power-down is in force the record in charge, under whatever name, holds exactly what it overwrote, and every restore that meets a power-down in force, by the reconciler or by discovery, gives that back |
| `JointRun.ReachableJoint` | internal/adapters/driving/reconciler/target_reconciler.go:53-242 | The same from a workload the controller never touched and any well-formed store in which no record is in charge of it yet |
| `Discovery.DiscoveryLoop.EnsurePowerTarget` | internal/adapters/driving/background/discovery.go:136-258 | One workload's turn as the function the theorems are about |
| `Discovery.DiscoveryLoop.Resume` | internal/adapters/driving/background/discovery.go:156-191 | The resumed migration; whole new store stated |
| `Discovery.DiscoveryLoop.StatusWithRetry` | internal/adapters/driving/background/discovery.go:381-412 | At most eight tries, re-reading from the second on |
| `Discovery.DiscoveryLoop.RestoreBeforeExemption` | internal/adapters/driving/background/discovery.go:310-339 | Restore, keep or delete; whole new store and restore log stated |
| `Discovery.DiscoveryLoop.RestoreLegacyBeforeExemption` | internal/adapters/driving/background/discovery.go:264-285 | Refuse, delete or restore; whole new store and restore log stated |
| `Discovery.DiscoveryLoop.CleanupOrphans` | internal/adapters/driving/background/discovery.go:481-531 | Deletes exactly the listed records whose names are not expected, until the process ends |
| `Discovery.DiscoveryLoop.RunDiscovery` | internal/adapters/driving/background/discovery.go:82-128 | One cycle as the function the theorems are about |
| `Engine.CompareIsTotalPreorder` | internal/core/domain/engine.go:93-130 | The comparator is reflexive, total and transitive, and only rules that agree on priority, state, specificity, age and name tie |
| `Engine.CompareMeans` | internal/core/domain/engine.go:93-130 | What comes first, by fields: the higher priority, then on, then the more specific, then the newer, then the lexicographically smaller name |
| `Engine.CollectApplicableRules` | internal/core/domain/engine.go:136-186 | The loops collect exactly the matching policies and the matching unexpired overrides, in order |
| `Engine.ResolvePriority` | internal/core/domain/engine.go:80-133 | Winner and suppressed rules are a sorted permutation of the input, in the order that CompareMeans gives by fields |
| `Engine.WinnerDecides` | internal/core/domain/engine.go:80-133 | The winner has maximal priority and its state is on exactly when some rule of maximal priority says on; among its equals in priority and state none is more specific, of its specificity none is newer, of its age none has a smaller name |
| `Engine.ComputeDecision` | internal/core/domain/engine.go:10-65 | The decision meets its order-free specification |
| `Engine.DecisionMeaning` | internal/core/domain/engine.go:10-65 | Managed exactly when not exempt and some rule applies; off exactly when moreover every applicable rule of maximal priority says off; winner plus suppressed is a permutation of the applicable rules; a decision to switch on is never blocked |
| `EngineLaws.OrderDoesNotMatter` | internal/core/domain/engine.go:10-65 | Reordering or repeating rules changes neither state, blocks, divergence nor management |
| `EngineLaws.AddingPolicy` | internal/core/domain/engine.go:136-159 | A policy inserted anywhere leaves every admissible decision unchanged if it does not match, and otherwise only pushes towards its own state |
| `EngineLaws.AddingOverride` | internal/core/domain/engine.go:161-186 | The same for an override, which is moreover inert once expired |
| `EngineLaws.DecidingRule` | internal/core/domain/engine.go:10-65 | A managed decision names a rule that stands in the lists, matches the target and is in force, has maximal priority, asks for the decided state and is preferred among its equals |
| `EngineLaws.DecisionFlags` | internal/core/domain/engine.go:53-62 | A managed decision is divergent exactly when unblocked and observed in the other state, and needs a snapshot exactly when it is an unblocked off for a target without one; an unmanaged one is neither, nor blocked |
| `Scopes.NamespacesNarrow` | internal/core/domain/scope.go:49-59 | A namespace list keeps exactly the targets in a listed namespace |
| `Scopes.WorkloadNamesNarrow` | internal/core/domain/scope.go:68-78 | A list of names keeps exactly the targets with a listed name |
| `Scopes.WorkloadLabelNarrows` | internal/core/domain/scope.go:80-99 | One more workload label requirement keeps exactly the targets whose own labels carry that value |
| `Scopes.NamespaceLabelNarrows` | internal/core/domain/scope.go:61-66 | One more namespace label requirement keeps exactly the targets whose namespace labels carry that value |
| `Scopes.TargetRefsNarrow` | internal/core/domain/scope.go:27-47 | A list of references keeps exactly the workloads some reference names, blank cluster, API version and UID matching any |
| `Scopes.EmptyScopeMatchesAll` | internal/core/domain/scope.go:5-25 | A scope without selectors matches every target |
| `Scopes.UnresolvedGroupMatchesNothing` | internal/core/domain/scope.go:5-25 | A scope with an unresolved namespace group matches nothing |
| `Scopes.SelectorsAddSpecificity` | internal/core/domain/scope.go:102-110 | A workload selector is more specific than any scope without one, a namespace selector more than none |
| `Windows.InWindowExactlyDuringAnOccurrence` | internal/core/domain/timewindow.go:7-66 | A minute is in the window if and only if some occurrence opening on a listed day covers it, Saturday-to-Sunday wrap included |
| `Windows.ScheduleFollowsOccurrences` | internal/core/domain/timewindow.go:69-90 | A schedule asks for its state if and only if it has no window or some window's occurrence covers the minute; a window whose zone does not load covers nothing |
| `Windows.WeekIsDaysTimesLength` | internal/core/domain/timewindow.go:7-66 | Any seven consecutive days have as many active minutes as distinct listed days times the window length |
| `Preview.ComputePreview` | internal/core/domain/preview.go:40-100 | The three lists are those of the impact specification, conflicts account for exactly the competing rules, the total counts the lists |
| `Preview.ImpactIsDifferenceOfDecisions` | internal/core/domain/preview.go:61-85 | A target turns on or off exactly when two full evaluations say so; it is blocked exactly when the second one is |
| `Preview.PreviewPolicy` | internal/core/domain/preview.go:7-22 | No target outside the proposed scope is in the on or off list |
| `Preview.PreviewOverride` | internal/core/domain/preview.go:24-38 | The same, and an expired override affects nothing |
| `Preview.EachTargetInItsList` | internal/core/domain/preview.go:75-98 | For targets with distinct references, each touched target is in exactly the list of its impact and in no other, and an untouched one is in none |
| `Preview.ListsPartitionTouched` | internal/core/domain/preview.go:75-98 | The lengths of the three lists add up to the number of touched targets, also when references repeat |
| `AuditPages.SortAuditNewest` | internal/adapters/driving/api/audit_pages.go:66-74 | The in-place swaps sort the array newest first |
| `AuditPages.SortIsTheStableSort` | internal/adapters/driving/api/audit_pages.go:66-74 | Its result is the one and only stable newest-first permutation of the events |
| `AuditPages.RetainNewest` | internal/adapters/driving/api/audit_pages.go:57-64 | Sort and cut to the limit |
| `AuditPages.PageKeepsHead` | internal/adapters/driving/api/audit_pages.go:57-64 | Cutting before the next page arrives loses nothing that the limit would have kept, ties included |
| `AuditPages.VisitNewest` | internal/adapters/driving/api/audit_pages.go:36-55 | Any paging of the history yields exactly the first `limit` events of its stable newest-first sort and the history length; an unreadable page ends the walk with an error |
| `Savings.TargetStatus.UpdateTargetStatus` | internal/adapters/driving/reconciler/target_reconciler.go:814-867 | The status update as a step of the meter |
| `Savings.CountedHoursTelescope` | internal/adapters/driving/reconciler/target_reconciler.go:843-860 | At non-decreasing times counted hours are at most the last minus the first checkpoint |
| `Savings.SavingsLaws` | internal/adapters/driving/reconciler/target_reconciler.go:843-860 | Savings never decrease, CPU-hours are bounded by the largest core count times the counted hours, cost stays 0.032 x CPU-hours + 0.004 x GiB-hours |
| `Savings.SavedWithinSpan` | internal/adapters/driving/reconciler/target_reconciler.go:814-867 | From zero totals, with or without an earlier checkpoint, CPU-hours are at most the largest core count times the span from first to last checkpoint, and cost is their fixed-rate price |
| `Savings.GainOfOneUpdate` | internal/adapters/driving/reconciler/target_reconciler.go:836-867 | One update adds exactly cores times hours, GiB times hours and their price when the target is to be off and is off, less than an hour passed since the last checkpoint, and five minutes did or the decision changed; otherwise nothing |

## Left out

- HTTP routing, login, JWT, bcrypt, user management and request validation: the outcome of the checks on a stored request is a parameter of the change.
- Web panel, CLI, metrics, Prometheus and OpenCost clients, webhook senders, URL and Secret resolution: whether a channel is deliverable and a send is accepted are parameters.
- Time zone tables and daylight saving: a window has a fixed UTC offset, or none when its zone does not load.
- Batching by time, the event queue's capacity beyond "has room", throttle expiry: the dispatcher is given batches, and whether a group is throttled is a parameter.
- Several notification channels: one channel is followed; the loop treats each on its own.
- dispatch of a single event: the same steps as a batch of one.
- Event identifiers, message texts, LastError, LastNotification, provider status codes and the sorting of references inside one attempt.
- Nil replica counts and suspend flags are read as their Kubernetes defaults; the workload keeps only the fields Aura Power writes.
- The failure message and the timestamps of a snapshot, and savings inside the saga record: savings are modelled on their own in `Savings`.
- Kubernetes events, the list side of the audit recorder, audit retention, built-in schedules, namespace-annotation policies and namespace-group resolution (an unresolved group matches nothing).
- Ownership detection from labels and annotations: the signals are an input.
- The list of unsupported targets of a preview: the source never fills it.
- Late commits of timed-out requests and two simultaneous leaders.
- Reconciles interleaved inside one discovery cycle: a conflicting status write appears as a refused one, but a snapshot captured between a cycle's read and its deletion of a record is not modelled.
- The order in which cleanup lists records: any list of names is allowed.
- Controller.TargetReconciler.AdmitLiveHPA: does not model the lookup of autoscalers and their opt-in, only its three outcomes, and keeps the block as a flag, because the reads have no effect on the bookkeeping beyond that outcome.
- Engine.ResolvePriority: the library sort may order tied rules freely, so the winner is specified up to ties.
- Dispatcher.Deduplicate: the identity string of an event is taken as injective in its fields, so events are compared whole.
