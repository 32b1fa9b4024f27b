# Zone ingestion, backing and block rules in Dafny

This project models the parts of a Tempo Zone node whose correctness depends on order and on
nothing being lost, and proves what they promise over whole runs:

- **The deposit queue.** Finalized L1 blocks wait in a queue. Checkpoint-only Zone blocks cross them
  and leave their portal work owed, compacted into one aggregated block, and full blocks or a
  follower's reconciliation consume it. Every deposit and token enablement is delivered exactly once
  and in order (`QueueRuns`, `QueueReconciliation`), through any number of restarts
  (`DeferredRecovery`, `RestartRuns`).
- **Preparation and validation.** Compaction does not change what a full block prepares, and a
  follower with a queue of its own accepts exactly the inputs that a leader prepares (`Preparation`,
  `AdvanceTempo`, `EncryptionKeys`).
- **Ingestion.** The block tracker on its own (`BlockTracker`, `TrackerRuns`), the pause gate
  (`PauseGate`), the subscriber's code (`Subscriber`), and a state machine in which the subscriber,
  the Zone consumer and the pause poller interleave freely, one lock section at a time (`Ingestion`,
  `IngestionLockstep`, `IngestionEffects`, `IngestionTheorems`).
- **Block rules.** Which transaction sequences the executor accepts (`BlockExecutor`).
- **Portal backing.** The audit's folds over both event logs, and every run of the two-chain bridge
  that writes those logs (`PortalBacking`, `BackingTheorems`, `BridgeLifecycle`).
- **Zone creation.** The canonical JSON that a Safe checksum hashes (`SafeJson`, `CanonicalJson`,
  `JsonReader`, `SafeChecksum`), the printed shell command (`FinishCommand`), and the fork schedule written into a
  genesis (`ForkSchedule`).

State that the source updates in place is a class whose methods are proved against functions on
values; the theorems are about those functions. Heights are 64-bit and saturate where the source
saturates. The L1 provider, the clock, the EVM, ABI encoding and cryptography are parameters.

## Where the code does not keep a promise

Each of these is stated as an exact condition and shown by a concrete example.

- A follower's reconciliation that fails can leave a hole. It drops pending blocks before it meets
  the conflicting hash and keeps the older deferred work. Order survives exactly when no block is
  dropped, nothing is deferred, or the call succeeds (`ReconcileKeepsOrderExactly`,
  `ReconcileFailureExample`). For the same reason plain `confirm` keeps the order only when nothing
  is deferred (`ConfirmKeepsOrderExactly`).
- The tracker can refuse a block that the queue has already accepted. That happens exactly when the
  tracker has observed nothing yet and the consumer has already released that block. The subscriber
  reconnects one block later and that observation is never recorded
  (`IngestionNeverWedges`, `LosingTheRaceCostsOneObservation`, `RaceExample`).
- Capacity granted before any watermark exists can be withdrawn. A grant lasts through every run exactly
  when there is a watermark or the height is within the first window (`CapacityLastsExactly`,
  `CapacityBeforeInitializationExample`).
- Commit ignores the phase in which a result was executed, beyond never going back. Results committed
  later than they were executed can build a block outside the block language, exactly when one of
  them is no longer admitted at its commit (`StaleCommitsExactly`, `StaleCommitExample`).
- The audit accepts two snapshots of which the L1 one has settled withdrawals that the Zone one has
  not requested. Over every pair of snapshots of every run it is right exactly when nothing is settled
  ahead for the token. It reports an incomplete history exactly when more is settled ahead than is in
  flight, and in between it falls short by exactly the amounts settled ahead (`AuditAtEveryCut`,
  `OpenCutUnderReports`, `OpenCutExample`).

## Model

| member | source | states |
|---|---|---|
| `DepositQueue.AggregatedBlock` | crates/l1/src/queue.rs:34-43 | the aggregated block has the last header, all deposits and tokens of the retained groups in order, and no other event |
| `PortalEvents.WorkOfExactly` | crates/l1/src/event.rs:113-116 | the content of a range is its deposits and its tokens, block after block |
| `DepositQueue.PendingDeposits.constructor` | crates/l1/src/queue.rs:63-72 | a new queue holds nothing and has no high-water mark |
| `DepositQueue.PendingDeposits.Enqueue` | crates/l1/src/queue.rs:80-125 | the whole new queue and result: append a child of the tip, ignore the tip itself, and one error for each other case, unchanged |
| `DepositQueue.PendingDeposits.EnqueueSealed` | crates/l1/src/queue.rs:328-354 | as above, after looking for the same height among pending blocks |
| `DepositQueue.PendingDeposits.DeferFront` | crates/l1/src/queue.rs:205-215 | the front block moves into deferred work, which keeps its header and its events if it has any |
| `DepositQueue.PendingDeposits.Defer` | crates/l1/src/queue.rs:177-202 | the loop is one walk to the anchor; also what is left behind on failure |
| `DepositQueue.PendingDeposits.WorkFor` | crates/l1/src/queue.rs:218-234 | the aggregated block, if any, then the front block, or the error for an empty queue or another front |
| `DepositQueue.PendingDeposits.ConfirmFront` | crates/l1/src/queue.rs:160-174 | the front block is returned and removed only under its own anchor |
| `DepositQueue.PendingDeposits.ConfirmFull` | crates/l1/src/queue.rs:237-241 | confirming also releases deferred work, and on error changes nothing |
| `DepositQueue.PendingDeposits.Reconcile` | crates/l1/src/queue.rs:248-272 | the loop is one walk to the anchor; deferred work is released only at or below it, and what a failed walk leaves |
| `DepositQueue.PendingDeposits.Restore` | crates/l1/src/queue.rs:407-416 | deferred work is seeded only into a queue that never held anything, and sets its high-water mark |
| `QueueRuns.PushAllKeepsWork` | crates/l1/src/queue.rs:15-49 | compaction keeps both event streams in order and the last header |
| `QueueRuns.GroupsBounded` | crates/l1/src/queue.rs:45-49 | a nonempty range always leaves deferred work, with at most one group for each deposit or token it carries, however many blocks it has |
| `QueueRuns.OperationalWorkStream` | crates/l1/src/queue.rs:218-234 | a full block's work is exactly the deferred streams and then the front block's |
| `QueueRuns.ExactlyOnceInOrder` | crates/l1/src/queue.rs:80-272 | in every run of ingestion, deferral, full blocks, aborts and reconciliations in which none fails past deferred work: delivered, then deferred, then pending work is the work of all accepted blocks, and those are hash-linked |
| `QueueRuns.RunKeepsInv` | crates/l1/src/queue.rs:80-272 | the accepted blocks always split into consumed, crossed and pending, deferred work is the compaction of the crossed ones, and the mark is the last accepted |
| `QueueRuns.PendingFollowsCrossed` | crates/l1/src/queue.rs:177-215 | something is deferred exactly when a block was crossed, and the front is the child of the last crossed one |
| `QueueReconciliation.AdmissionExactly` | crates/l1/src/queue.rs:328-354 | a block is appended exactly when it extends the accepted chain; repeated only if it is the tip or pending; otherwise the queue is unchanged |
| `QueueReconciliation.WalkExactly` | crates/l1/src/queue.rs:178-189 | on a linked queue a walk stops exactly at a contradicting hash, and otherwise takes exactly the blocks at or below the anchor |
| `QueueReconciliation.DeferExactly` | crates/l1/src/queue.rs:177-202 | deferral succeeds exactly when neither pending nor deferred blocks contradict the anchor, then crosses exactly the blocks up to it, and keeps order even on failure |
| `QueueReconciliation.ReconcileExactly` | crates/l1/src/queue.rs:248-272 | reconciliation succeeds exactly when no pending block contradicts the anchor; what it then removes and releases |
| `QueueReconciliation.ReconcileKeepsOrderExactly` | crates/l1/src/queue.rs:248-272 | order survives exactly when the call does not fail after dropping blocks past deferred work |
| `QueueReconciliation.ReconcileFailureExample` | crates/l1/src/queue.rs:253-262 | a concrete queue and anchor for which it does not: the dropped block's deposit is in nothing the queue still owes |
| `QueueReconciliation.DroppingBehindDeferredBreaksOrder` | crates/l1/src/queue.rs:260-270 | removing pending blocks while keeping deferred work always leaves a hole |
| `QueueReconciliation.ConfirmKeepsOrderExactly` | crates/l1/src/queue.rs:160-174 | confirming the front alone keeps order exactly when it fails or nothing is deferred |
| `QueueReconciliation.ReconcileIsIdempotent` | crates/l1/src/queue.rs:243-272 | repeating a successful reconciliation changes nothing, on any queue |
| `QueueReconciliation.LateReplayKeepsDeferred` | crates/l1/src/queue.rs:264-270 | a late replay of an older full block or checkpoint changes nothing |
| `QueueReconciliation.DeferringInStages` | crates/l1/src/queue.rs:177-215 | deferring to one anchor and then a later one is deferring to the later one, even if the first call failed |
| `QueueReconciliation.OperationalWorkExactly` | crates/l1/src/queue.rs:218-234 | work is offered exactly under the front's own number and hash, and what it consists of |
| `QueueReconciliation.ConfirmExactly` | crates/l1/src/queue.rs:160-241 | both confirmations succeed exactly under the front's own number and hash, return and remove only it, and only the full one releases deferred work |
| `QueueReconciliation.RestoreExactly` | crates/l1/src/queue.rs:407-416 | seeding succeeds exactly on a queue that never held anything, sets the mark, and otherwise changes nothing |
| `QueueReconciliation.RejectionsExactly` | crates/l1/src/queue.rs:88-124 | which heights, hashes and parents give which refusal |
| `QueueReconciliation.KnownHeightsExactly` | crates/l1/src/queue.rs:334-347 | a pending height is a repetition or a conflict by its hash, and a new queue takes any first block |
| `DeferredRecovery.CompactStream` | crates/l1/src/subscriber.rs:1140-1149 | compacting a stream as it arrives is compacting it whole |
| `DeferredRecovery.RecoverDeferredWork` | crates/l1/src/subscriber.rs:1123-1163 | queue and outcome for each of: nothing configured, already ingesting, empty range, wrong tip, recovered |
| `DeferredRecovery.RecoverExactly` | crates/l1/src/subscriber.rs:1127-1156 | each outcome exactly when, the chain's hash at the checkpoint included, and the queue changes only on success |
| `DeferredRecovery.RecoveryRefinesLiveRun` | crates/l1/src/subscriber.rs:1123-1163 | from any reachable queue with crossed blocks, restarting and ingesting again gives back that very queue |
| `DeferredRecovery.RestartWithoutDeferredWork` | crates/l1/src/subscriber.rs:1127-1137 | with nothing deferred recovery is skipped and ingestion alone rebuilds the pending blocks |
| `DeferredRecovery.RecoveredQueueStartsARun` | crates/l1/src/queue.rs:407-416 | a recovered queue continues the run that crashed: consumed blocks and what they delivered stay, the crossed range is owed |
| `RestartRuns.RestartRebuilds` | crates/node/src/node.rs:609-614 | from the last full import and the checkpoint alone, a restart rebuilds exactly the deferred work of the crashed node |
| `RestartRuns.RestartKeepsInv` | crates/l1/src/subscriber.rs:1123-1163 | a restart at any moment loses nothing delivered or owed |
| `RestartRuns.ExactlyOnceAcrossRestarts` | crates/l1/src/subscriber.rs:1091-1163 | over a node's whole life: delivered work is the content of the canonical L1 chain from genesis through the last full import, deferred work the content from there to the checkpoint, pending work the rest |
| `EncryptionKeys.EncryptionKeyRing.constructor` | crates/l1/src/encryption_keys.rs:57-63 | every configured key is a candidate under its own public key, nothing else is, and no index is bound |
| `EncryptionKeys.EncryptionKeyRing.AddCandidate` | crates/l1/src/encryption_keys.rs:66-68 | only the candidate under that public key changes |
| `EncryptionKeys.EncryptionKeyRing.Apply` | crates/l1/src/encryption_keys.rs:71-94 | bind, accept a repetition, or fail for a missing key or a different binding |
| `EncryptionKeys.EncryptionKeyRing.ApplyAll` | crates/l1/src/subscriber.rs:927-935 | a block's rotations in order up to the first failure |
| `EncryptionKeys.RotationsOnlyExtend` | crates/l1/src/encryption_keys.rs:71-94 | no binding is ever changed or dropped, even by a failing block, and no other index gets bound |
| `EncryptionKeys.RotationsBind` | crates/l1/src/encryption_keys.rs:71-94 | success means every announced index holds the private key behind the announced public key |
| `EncryptionKeys.RotationsSucceedExactly` | crates/l1/src/encryption_keys.rs:71-94 | a block is applied exactly when all its keys are configured and no index is announced or bound with two keys |
| `EncryptionKeys.ReapplyingExactly` | crates/l1/src/encryption_keys.rs:83-90 | applying a block changes nothing and succeeds exactly when all of it is already applied |
| `Preparation.ResolveKeys` | crates/l1/src/block.rs:65-75 | fails with the first unbound index in deposit order, otherwise resolves every index the deposits name |
| `Preparation.Prepare` | crates/l1/src/block.rs:56-124 | the loops compute the stream meaning of one block: all entries, one decryption for each user deposit, all tokens |
| `Preparation.PrepareMany` | crates/l1/src/block.rs:19-48 | preparing blocks one by one is preparing their concatenated work: the first missing key decides, then the two capacity limits |
| `AdvanceTempo.CompactionPreservesPreparation` | crates/l1/src/queue.rs:34-49 | preparing the aggregated block and the front equals preparing every crossed block uncompacted, success or error |
| `Preparation.PreparedExactly` | crates/l1/src/block.rs:19-243 | what is prepared, deposit by deposit: kind, encoding, not rejected; for each user deposit, at its place, the decrypted proof under its bound key, else the bare proof, else the zeroed data; last header, tokens, and whether checkpoints were crossed |
| `Preparation.PreparationFailsExactly` | crates/l1/src/block.rs:26-75 | each failure exactly when: empty range, first unbound key in deposit order, more than 230 deposits, more than 8 tokens |
| `AdvanceTempo.ValidateAdvanceTempoInputs` | crates/l1/src/event.rs:122-153 | accepts exactly as many entries as deposits, each of the deposit's kind and with its encoding, the rejected flag aside, and the same tokens in order |
| `AdvanceTempo.MatchesExactly` | crates/l1/src/deposit.rs:85-117 | the same of a whole range of work, entry by entry |
| `AdvanceTempo.ValidateFullPortalInputs` | crates/node/src/follower.rs:758-796 | accepts exactly when the queue offers work for the anchor and the calldata is that work |
| `AdvanceTempo.ValidateWork` | crates/node/src/follower.rs:765-795 | slicing the calldata block by block decides whether it matches the concatenated work |
| `AdvanceTempo.SameAnchorSameCrossed` | crates/node/src/follower.rs:764-767 | two nodes that consumed the same blocks and stand at one anchor owe the same crossed blocks, however each deferred and however far each ingested |
| `AdvanceTempo.PreparedInputsAreTheAcceptedOnes` | crates/node/src/follower.rs:758-796 | in any two reachable queues of such nodes, what the leader prepares matches the follower's operational work, and inputs match it exactly when they are the prepared ones |
| `BlockTracker.L1BlockTracker.constructor` | crates/l1/src/subscriber.rs:161-168 | a fresh tracker |
| `BlockTracker.L1BlockTracker.InitializeConsumedThrough` | crates/l1/src/subscriber.rs:283-288 | the watermark only rises, nothing else changes |
| `BlockTracker.L1BlockTracker.RecordObservation` | crates/l1/src/subscriber.rs:465-523 | new tracker and result, including the watermark that a failing record still sets |
| `BlockTracker.L1BlockTracker.PruneThrough` | crates/l1/src/subscriber.rs:529-550 | observations through the height move their evidence to the cache, which is trimmed to its window |
| `BlockTracker.L1BlockTracker.ObservePortalPause` | crates/l1/src/subscriber.rs:189-214 | the gate and whether the effective state changed, or the contradiction |
| `BlockTracker.L1BlockTracker.RecordFinalizedTarget` | crates/l1/src/subscriber.rs:240-254 | only a higher target replaces the announced one, not ready |
| `BlockTracker.L1BlockTracker.MarkFinalizedTargetReady` | crates/l1/src/subscriber.rs:257-275 | ready only for the target last announced |
| `TrackerRuns.RunKeepsInterval` | crates/l1/src/subscriber.rs:465-550 | under any operations in any order the observed heights are the gap-free interval above the watermark |
| `TrackerRuns.WaitersNeverSeeAGap` | crates/l1/src/subscriber.rs:351-399 | no waiter ever meets a missing height below the latest, waiting means strictly ahead of everything, and the lookahead bound holds |
| `TrackerRuns.CapacityIsNeverWithdrawn` | crates/l1/src/subscriber.rs:305-322 | with a watermark, granted capacity survives any run |
| `TrackerRuns.CapacityLastsExactly` | crates/l1/src/subscriber.rs:305-310 | a grant survives every run exactly when there is a watermark or the height is within the first window |
| `TrackerRuns.GrantedCapacitySuffices` | crates/l1/src/subscriber.rs:487-495 | a record after a granted capacity never fails on the lookahead bound |
| `TrackerRuns.CapacityBeforeInitializationExample` | crates/l1/src/subscriber.rs:305-310 | without a watermark capacity is granted and then lost |
| `TrackerRuns.RunKeepsValid` | crates/l1/src/subscriber.rs:465-550 | both evidence stores stay ordered and disjoint under any operations |
| `TrackerRuns.RecentEvidenceIsBounded` | crates/l1/src/subscriber.rs:541-546 | after any operations on a fresh tracker the consumed-evidence cache holds at most 256 blocks |
| `TrackerRuns.PruneForgetsOneWindow` | crates/l1/src/subscriber.rs:529-550 | pruning forgets exactly the evidence below the window and changes no other |
| `TrackerRuns.RecordAddsEvidence` | crates/l1/src/subscriber.rs:465-523 | a new observation adds its own evidence, any other record adds none |
| `TrackerRuns.LookupReadsAvailable` | crates/l1/src/subscriber.rs:405-431 | a lookup returns evidence exactly when it is available and belongs to the named hash |
| `TrackerRuns.EvidenceIsKeptForOneWindow` | crates/l1/src/subscriber.rs:401-550 | from a fresh tracker and over any run, evidence of a passed height is available exactly until some prune leaves it behind the window, and unchanged until then |
| `TrackerRuns.RecordedEvidenceIsReturned` | crates/l1/src/subscriber.rs:401-550 | logs recorded with a new observation are what every later lookup of that block returns, exactly until then |
| `TrackerRuns.RecordExactly` | crates/l1/src/subscriber.rs:465-523 | when a record succeeds, which one height it adds, and what it leaves alone |
| `TrackerRuns.RecordFailsExactly` | crates/l1/src/subscriber.rs:487-510 | each failure exactly when, in the source's order |
| `TrackerRuns.WaitExactly` | crates/l1/src/subscriber.rs:351-399 | the recorded events under the right hash, and each other answer exactly when |
| `TrackerRuns.NextObservationExactly` | crates/l1/src/subscriber.rs:325-335 | the next height is the only new one that can be recorded |
| `TrackerRuns.LookupConflictsExactly` | crates/l1/src/subscriber.rs:409-429 | a lookup fails exactly when another hash is known at that height |
| `TrackerRuns.RecordedEventsAreReturned` | crates/l1/src/subscriber.rs:346-399 | over any run a waiter gets the events recorded with a block, exactly until a prune reaches it, and then learns that it was consumed |
| `PauseGate.GateHoldsAHighest` | crates/l1/src/subscriber.rs:184-214 | after any arrivals the gate holds one of highest number |
| `PauseGate.GateConverges` | crates/l1/src/pause.rs:18-46 | consistent observations give the same gate in any order and with any repetition |
| `PauseGate.ConsistentArrivalsAreAccepted` | crates/l1/src/subscriber.rs:196-210 | a consistent observation is never rejected, whatever arrived before |
| `PauseGate.ObservePauseExactly` | crates/l1/src/subscriber.rs:184-214 | rejected exactly when it contradicts the newest observation at its height, older ones ignored, newer ones applied, and the result tells exactly whether the effective state changed |
| `Subscriber.L1Subscriber.NextBlock` | crates/l1/src/subscriber.rs:766-788 | one of the successors of checkpoint, queue mark and latest observation, and none is higher, while only the checkpoint raises the watermark |
| `Subscriber.L1Subscriber.Ingest` | crates/l1/src/subscriber.rs:927-963 | rotations, pause, queue, tracker, with the state left by a failure at each point and whether it is fatal |
| `Subscriber.IngestExactly` | crates/l1/src/subscriber.rs:927-963 | fatal exactly for rotations that do not fit the keys or a contradicted pause, with queue and tracker untouched; otherwise queue, then tracker decide |
| `Subscriber.L1Subscriber.Backfill` | crates/l1/src/subscriber.rs:885-1010 | the loop ingests the inclusive range in order and stops at the first block that cannot be fetched or applied |
| `Subscriber.L1Subscriber.SyncToFinalized` | crates/l1/src/subscriber.rs:810-854 | ingests the one range through the last rising answer; succeeds exactly when the tag repeats there, the range is applied and no higher target was announced; target and cursor in each case |
| `Subscriber.RangesJoin` | crates/l1/src/subscriber.rs:816-833 | backfilling in stretches is backfilling the whole range |
| `Subscriber.MachineRunsTheCode` | crates/l1/src/subscriber.rs:927-963 | without interference the machine's steps for a block do what the code does, and the phase tells the outcome |
| `IngestionLockstep.ConnectKeepsLockstep` | crates/l1/src/subscriber.rs:766-788 | from every reachable disconnected state a session resumes at the successor of the highest ingested height |
| `IngestionLockstep.CursorIsAppended` | crates/l1/src/subscriber.rs:946-951 | the queue always appends the block at the cursor |
| `IngestionLockstep.CursorIsRecordedExactly` | crates/l1/src/subscriber.rs:952-963 | the record succeeds exactly unless nothing was observed yet and that block is already released, and then fails in one way and changes nothing |
| `IngestionLockstep.StepKeepsLockstep` | crates/l1/src/subscriber.rs:810-1010 | every step of every actor keeps queue and tracker within the one block between enqueue and record |
| `IngestionEffects.RunInvariant` | crates/l1/src/subscriber.rs:810-1010 | lockstep, key, pause, observation and target invariants hold in every run |
| `IngestionTheorems.IngestionNeverWedges` | crates/l1/src/subscriber.rs:766-1010 | in every reachable state the node can resume, the enqueue succeeds, and the exact case in which the record does not |
| `IngestionTheorems.FullLookaheadIsReleasable` | crates/l1/src/subscriber.rs:312-322 | a subscriber that waits for capacity has a whole window of ingested blocks left for the consumer to release, and fetches once they are |
| `IngestionTheorems.LosingTheRaceCostsOneObservation` | crates/l1/src/subscriber.rs:946-963 | after that case the node resumes one block later where the tracker expects it, having skipped one consumed observation |
| `IngestionTheorems.RaceExample` | crates/l1/src/subscriber.rs:946-963 | a concrete run into that case |
| `IngestionTheorems.ObservedOnlyAfterEnqueued` | crates/l1/src/subscriber.rs:337-343 | in every run a successful wait means the queue was given every block through that canonical anchor |
| `IngestionTheorems.EffectsPrecedeAppendAndRepeatSafely` | crates/l1/src/subscriber.rs:904-951 | for every appended block the rotations are bound and the pause seen, and applying them again changes nothing |
| `IngestionTheorems.ReadyTargetsAreIngested` | crates/l1/src/subscriber.rs:236-275 | once a target is ready, each height through it was enqueued and was observed or had been consumed |
| `IngestionTheorems.TargetsNeverDecrease` | crates/l1/src/subscriber.rs:240-275 | announced targets never decrease, and a raised one is not ready |
| `BlockExecutor.ZoneBlockExecutor.constructor` | crates/evm/src/executor.rs:178-200 | a block starts awaiting its opening with no receipts |
| `BlockExecutor.ZoneBlockExecutor.Execute` | crates/evm/src/executor.rs:220-241 | a result exists exactly when the phase admits the transaction and the EVM returns, and records the next phase without changing the block |
| `BlockExecutor.ZoneBlockExecutor.Commit` | crates/evm/src/executor.rs:243-246 | the receipt is appended and the phase becomes the later of the two |
| `BlockExecutor.ZoneBlockExecutor.Finish` | crates/evm/src/executor.rs:248-299 | fails without an opening, never after a finalization, and otherwise exactly when some log obliges the block to finalize |
| `BlockExecutor.MustFinalizeExactly` | crates/evm/src/executor.rs:258-289 | the obliging logs: an outbox log whose first topic is the withdrawal request, and after T13 an inbox log of a nonzero number of processed deposits |
| `BlockExecutor.ClassifyExactly` | crates/evm/src/executor.rs:108-134 | each kind exactly by the contract called and the first bytes of its input, in order of preference |
| `BlockExecutor.ValidateExactly` | crates/evm/src/executor.rs:44-90 | the whole transition table, with subblock transactions refused in every phase |
| `BlockExecutor.ReplayIsTheLanguage` | crates/evm/src/executor.rs:54-89 | the transition table admits exactly a lone header import, or an opening, regular transactions and at most one closing, and determines the phase |
| `BlockExecutor.AcceptedBlocksExactly` | crates/evm/src/executor.rs:248-299 | a block passes replay and finish exactly when it is in the language and closes with a finalization whenever one is due |
| `BlockExecutor.BuiltBlocksReplay` | crates/evm/src/executor.rs:220-246 | whatever a builder tries and discards, the committed transactions replay to the same phase |
| `BlockExecutor.BuiltBlocksAreInTheLanguage` | crates/evm/src/executor.rs:220-299 | so every finished serially built block is in the language |
| `BlockExecutor.PhaseNeverRegresses` | crates/evm/src/executor.rs:92-95 | committing results in any order never takes the phase back |
| `BlockExecutor.StaleCommitsExactly` | crates/evm/src/executor.rs:92-95 | committed results replay exactly when each was still admitted at its commit, and then to the committed phase |
| `BlockExecutor.StaleCommitExample` | crates/evm/src/executor.rs:243-246 | two openings from one fresh block, both committed and finished |
| `PortalBacking.L1FoldIsTotal` | xtask/src/verify_portal_backing.rs:332-391 | a checked fold is the total, or an overflow exactly when the total does not fit |
| `PortalBacking.ZoneFoldIsTotal` | xtask/src/verify_portal_backing.rs:324-391 | the same for the Zone's events |
| `BackingTheorems.PendingDepositsAreLive` | xtask/src/verify_portal_backing.rs:235-266 | filtering by deposit number sums exactly the user deposits that the Zone has not processed |
| `BackingTheorems.RegistryIsParkedMinusClaimed` | xtask/src/verify_portal_backing.rs:415-514 | parked minus claimed is what the registry still owes |
| `BackingTheorems.RefundsAreLive` | xtask/src/verify_portal_backing.rs:415-514 | both refund liabilities are the contents of their registries |
| `BackingTheorems.WithdrawalLiabilityExactly` | xtask/src/verify_portal_backing.rs:271-413 | requested minus retired, and the incomplete-history error exactly when that would be negative |
| `BackingTheorems.WithdrawalsBalance` | xtask/src/verify_portal_backing.rs:268-276 | on any two logs of one history, requested plus settled ahead is retired plus in flight |
| `BackingTheorems.WithdrawalsInFlight` | xtask/src/verify_portal_backing.rs:268-276 | on matched logs that difference is the withdrawals in flight, including those bounced and not yet back |
| `BackingTheorems.AuditVerdict` | xtask/src/verify_portal_backing.rs:189-233 | the audit errs exactly when withdrawals were retired before their request; otherwise balance minus required backing is burned fees plus donations |
| `BackingTheorems.AuditIsExact` | xtask/src/verify_portal_backing.rs:189-194 | on matched logs required backing is supply plus every live obligation, item by item |
| `BackingTheorems.AuditFallsShortBySettledAhead` | xtask/src/verify_portal_backing.rs:189-194 | without closure the withdrawal term and the required backing are short by what is settled ahead, or an error when that exceeds what is in flight |
| `BridgeLifecycle.StepKeepsInv` | crates/contracts/src/runtime/tempo/ZonePortal.sol:919-1306 | every action of either chain keeps the logs matched: queues consumed in order, numbers consecutive, claims exact, supplies not negative |
| `BridgeLifecycle.RunKeepsInv` | crates/precompiles/src/inbox/mod.rs:277-389 | so does every run of the bridge |
| `BridgeLifecycle.SuppliesStayNonNegative` | crates/precompiles/src/outbox/mod.rs:138-211 | at every Zone snapshot of every run nobody has burned more than was minted |
| `BridgeLifecycle.StepsConserveBacking` | crates/contracts/src/runtime/tempo/ZonePortal.sol:919-1306 | every step changes the surplus by exactly the fee it burns or the donation, so deposits, mints, failures, bounces, payments, refunds and claims conserve backing |
| `BridgeLifecycle.SurplusIsFeesAndDonations` | xtask/src/verify_portal_backing.rs:189-233 | surplus is all fees burned and all donations so far |
| `BridgeLifecycle.PortalStaysBacked` | crates/contracts/src/runtime/tempo/ZonePortal.sol:1123-1171 | in every run the balance covers all obligations and the next withdrawal to settle |
| `BridgeLifecycle.CutsAreComparable` | xtask/src/verify_portal_backing.rs:268-276 | in any pair of snapshots of one history, one side of each queue is a prefix of the other |
| `BridgeLifecycle.CutsAreMatched` | xtask/src/verify_portal_backing.rs:268-276 | causally closed prefixes of matched logs are matched |
| `BridgeLifecycle.AuditHoldsAtEveryConsistentCut` | xtask/src/verify_portal_backing.rs:189-233 | in every run, at every causally closed pair of snapshots, the audit is exact and passes |
| `BridgeLifecycle.AuditAtEveryCut` | xtask/src/verify_portal_backing.rs:189-233 | in every run, at every pair of snapshots: right, zone-ahead error, incomplete-history error, each exactly when, and otherwise short by exactly what is settled ahead |
| `BridgeLifecycle.OpenCutUnderReports` | xtask/src/verify_portal_backing.rs:398-413 | when L1 has settled ahead, the withdrawal term is the bounced value exactly when nothing is settled ahead, an error exactly when that exceeds it, and otherwise their difference |
| `BridgeLifecycle.OpenCutExample` | xtask/src/verify_portal_backing.rs:398-413 | a run of six actions and a pair of its snapshots for which the audit reports 1 in flight while 4 are owed |
| `SafeChecksum.SafeSerializeJson` | xtask/src/safe.rs:179-210 | the recursive serializer computes the canonical text |
| `SafeChecksum.SerializeItems` | xtask/src/safe.rs:187-194 | array items joined by commas |
| `SafeChecksum.SerializeValues` | xtask/src/safe.rs:202-205 | each value under the sorted keys, followed by a comma |
| `SafeChecksum.SerializerExample` | xtask/src/safe.rs:217-220 | the layout of the repository's own example |
| `JsonReader.TextReadsBack` | xtask/src/safe.rs:179-210 | a reader written from the grammar, with the literals and escapes of RFC 8259, reads the whole text of any value and gets the same value |
| `JsonReader.ValueReadsBack` | xtask/src/safe.rs:179-210 | it stops exactly where the value ends, with the fields in canonical order |
| `JsonReader.EscapesAreShortest` | xtask/src/safe.rs:184-186 | which characters are written as they are, with a short escape, or with four hexadecimal digits |
| `CanonicalJson.LeqExactly` | xtask/src/safe.rs:197 | keys are ordered by their first difference, a prefix first |
| `JsonReader.TextUnique` | xtask/src/safe.rs:179-210 | the text of a value is self-delimiting and determines the value up to field order |
| `CanonicalJson.SameText` | xtask/src/safe.rs:195-208 | values that differ in field order only have the same text |
| `JsonReader.CanonicalTextExactly` | xtask/src/safe.rs:165-210 | equal text exactly for values equal up to field order |
| `SafeChecksum.ChecksumPreimage` | xtask/src/safe.rs:167-177 | the hashed text is that of the batch without checksum and with a null name |
| `SafeChecksum.PreimageExactly` | xtask/src/safe.rs:167-177 | it determines every batch field except the name and the checksum, and is determined by them |
| `SafeChecksum.PreimageText` | xtask/src/safe.rs:31-57 | the hashed text of every batch: key names, their order, and what is written under each, `null` for the name included |
| `FinishCommand.PrintFinishCommand` | xtask/src/create_zone.rs:616-635 | the loop prints the kept arguments quoted, then the placeholder |
| `FinishCommand.KeptIsWhatStays` | xtask/src/create_zone.rs:620-632 | what is kept, said by position: no Safe flag, no value of one, no assignment to one |
| `FinishCommand.ArgumentReadsBack` | xtask/src/create_zone.rs:637-647 | a shell reads a quoted argument as one word with its very characters |
| `FinishCommand.UnquotedExactly` | xtask/src/create_zone.rs:638-641 | exactly which arguments are printed without quotes |
| `FinishCommand.LineReadsBack` | xtask/src/create_zone.rs:616-647 | a shell reads any printed line as those arguments and the placeholder |
| `FinishCommand.FinishCommandRoundTrip` | xtask/src/create_zone.rs:615-647 | the printed command gives back the original arguments minus the Safe flags and their values |
| `ForkSchedule.FromSchedule` | xtask/src/genesis_forks.rs:20-64 | returns the activations of an acceptable schedule, and fails exactly when none exists |
| `ForkSchedule.AcceptanceExactly` | xtask/src/genesis_forks.rs:25-62 | a schedule is acceptable exactly when, told from its entries: known names without Genesis or repetition, flags that agree with the head, times in fork order, and a reported fork that is the last active one |
| `ForkSchedule.HighestActiveExactly` | xtask/src/genesis_forks.rs:87-93 | the reported fork is scheduled and active, and no higher one is |
| `ForkSchedule.ReportedForkIsMonotone` | xtask/src/genesis_forks.rs:51-62 | in an accepted schedule a fork is active exactly when it is not above the reported one, and the report never goes back in time |
| `ForkSchedule.HeadDoesNotMatter` | xtask/src/genesis_forks.rs:20-64 | the same schedule sampled at any other head is accepted exactly with that head's own fork, and gives the same activations |
| `ForkSchedule.WriteTo` | xtask/src/genesis_forks.rs:106-116 | each known fork gets its own time if it is scheduled and null if it is not, and no other field changes |
| `ForkSchedule.InheritParent` | crates/chainspec/src/lib.rs:82-105 | Zone fields win, missing activation fields are the parent's, nothing else is added |
| `ForkSchedule.ActivationFieldsExactly` | crates/chainspec/src/lib.rs:95-97 | the inherited names are those that end in Block or Time |
| `ForkSchedule.WriteThenInherit` | crates/chainspec/src/lib.rs:78-105 | after inheriting, a scheduled fork has its own time and an unscheduled one is null whatever the parent says |

## Left out

- AdvanceTempo.ValidateFullPortalInputs: does not model the `usize` overflow of the running offsets, because lengths are unbounded here.
- BackingTheorems.AuditIsExact: assumes 128-bit amounts and fewer than 2^64 events in each log, so that no 256-bit fold overflows; the overflow error itself is covered by the two fold lemmas.
- BridgeLifecycle.PortalStaysBacked: the Portal and the precompiles appear as the queue, mint, burn and transfer effects of their events; access roles, gas limits, fee formulas, queue hashes and reverting calls are not modelled.
- IngestionTheorems.IngestionNeverWedges: assumes one canonical finalized chain, heights below the last 64-bit one and a started-from checkpoint below it; a session with missing private keys stops for good, as the source does.
- Subscriber.L1Subscriber.Ingest: does not model the leadership sink, the finalized-batch sender, the token registry and the L1 state cache, which are separate consumers of the same block.
- TrackerRuns.RunKeepsValid: assumes heights below the last 64-bit one, whose saturating successor is itself; so do RecentEvidenceIsBounded, EvidenceIsKeptForOneWindow and RecordedEvidenceIsReturned.
- RestartRuns.ExactlyOnceAcrossRestarts: assumes one canonical chain and that a subscriber without a queue mark resumes right after the checkpoint, which ConnectKeepsLockstep proves of it; a crash between a full import and its confirmation is a confirmation followed by a restart.
- JsonReader.CanonicalTextExactly: a float is carried as the decimal text it prints as; binary floating point is not modelled.
- SafeChecksum.ChecksumPreimage: stops at the text that is hashed; Keccak-256 is not modelled.
- FinishCommand.FinishCommandRoundTrip: the shell reader covers word splitting, quoting and redirection operators, not reserved words or assignments in command position.
- Decoding of portal logs, receipt verification, RPC transport, retries and metrics are not modelled.
- Deposit encryption is a parameter: preparation is proved for every decryption function.
- The parallel branch of preparation is not modelled apart from the sequential one; both collect in deposit order.
- Hash linkage of a recovered range is not checked by the source and follows here from the chain that serves it.
- The finalized L1 timestamp, leadership transitions and offline genesis forks would add only easy members.
- The rest of the repository (checker, proofs, RPC server, batch submission, private state access) is not modelled.
