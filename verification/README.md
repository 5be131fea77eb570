# SecureAgnt state machines, verified

SecureAgnt keeps its run queue, its trigger scheduler, its leases and its delivery outbox as database
tables that are changed only by guarded SQL statements. This project models those tables as maps, each
statement or transaction as one atomic step, and proves what every interleaving of the steps keeps. The
pure and looping code around the tables (JSON canonicalisation, capability resolution, the heartbeat
compiler, the audit chain check) is modelled beside them.

Check everything with `dafny verify dfyconfig.toml`.

| file | what it models |
|---|---|
| `Prelude`, `Text` | optional values, the nanosecond clock, finite-set counting; `trim`, ASCII lower case, integer printing and parsing |
| `Json` | JSON values as association lists, canonicalisation by recursive key sorting |
| `RunTable` | one row of `runs` and the guard and effect of each statement on it |
| `ClaimProtocol`, `CapTightness` | workers inside the four-query claim, interleaved freely; the exact cap bound |
| `RunLifecycle` | the history of each run: leases, attempts, terminal states, the active-key index |
| `RunStore`, `RunDedupe` | the run statements as methods on a store; claim order; creating a run |
| `ClaimRefinement` | an undisturbed claim as a run of protocol steps |
| `TriggerTable`, `TriggerStore` | the dispatcher transactions as functions, and as methods statement by statement with rollback |
| `DispatchTerms` | what each trigger statement promises its caller, and who is served first |
| `TriggerProtocol`, `TriggerCaps`, `TriggerSlots`, `TriggerEvents` | executions of the scheduler with the queue it feeds: in-flight caps, schedule slots, event and manual deduplication |
| `DispatchOverlap`, `OverlapRows`, `OverlapTightness`, `OutdatedCounts` | dispatch transactions that overlap: the count on a snapshot, the row lock, and the commit as separate steps |
| `SchedulerLease`, `GatewayLeases` | the two lease tables |
| `SiemOutbox` | the delivery outbox and its claim-then-mark discipline |
| `MemoryCompaction` | compaction of memory records, alone and interleaved |
| `AuditChain` | routing, purging and verifying the tamper-evident audit chain |
| `Capabilities` | parsing a capability request and resolving it against a recipe bundle and a role |
| `Heartbeat` | the heartbeat Markdown compiler |

The operations that change tables appear as methods whose `ensures` give the whole new state, and as steps
of executions; the safety theorems quantify over all executions. Creating, enabling and disabling a trigger
are steps only.

## What the proofs show about the code

- **Caps are soft under concurrency.** A claim counts and updates in separate queries. With N workers the
  number of running runs never exceeds max(cap, 1) + N - 1, globally and per tenant (`WorkersCapBound`), and
  reaches it (`GlobalBoundAttained`; for a tenant from the smaller of the two caps, `TenantBoundAttained`). Without overlapping claims the cap
  itself holds (`SequentialCap`).
- **The 64-row page can starve a tenant.** A claim returns nothing while another tenant's run waits under
  every cap, exactly when the first 64 claimable rows all belong to tenants at their cap
  (`WaitsOnlyBehindFullPage`, `PageLimitStarves`).
- **The trigger dispatcher's limits are soft too.** The selecting statement counts on its snapshot and locks
  its row later, rechecking that row alone, so overlapping transactions can spend the same place. With k
  of them between count and commit a trigger reaches max_inflight_runs + k - 1 runs and a tenant
  max(cap, 1) + k - 1, never more (`TriggerBoundUnderOverlap`, `TriggerOverlapAttained`,
  `TenantBoundUnderOverlap`, `TenantOverlapAttained`). The trigger limit is kept exactly when the trigger
  still has room whenever a dispatcher transaction locks it (`TriggerCapExactly`). Slots and events are safe
  however transactions overlap (`SlotsUnderOverlap`, `EventsUnderOverlap`).
- **Oversized webhook events are retried only in name.** The rejected first dispatch writes a ledger row
  under the event's key, and the unique index of migrations/0003_triggers.sql:36-37 makes every later
  dispatch of that event fail and roll back. A dispatch dead-letters an oversized event exactly when
  max_attempts is 1 and the event's ledger key is still free; every other dispatch leaves it stuck for ever
  (`OversizedDispatch`). Two executions show it: max_attempts 3 (`OversizedRetryIsStuck`), and max_attempts 1
  with the key taken by a manual fire (`TakenKeyIsStuck`). A replayed dead-lettered event is stuck at once
  (`ReplayIsStuck`), and while a stuck event is the first due, no dispatcher call in any later state fires
  a webhook, cron or interval trigger (`StuckHeadBlocksForever`).
- **A late configuration update can block a trigger.** `update_trigger_config` computes the next fire time
  before its UPDATE commits. All recorded slots stay before `next_fire_at` if and only if each update
  writes a time after the slots recorded so far (`SlotsHoldExactly`). An update that writes a recorded slot
  (`LateUpdateReopensSlot`, `LateUpdateExecution`) makes every later dispatch of the trigger fail, until it
  is configured again (`WedgedUntilReconfigured`).
- **An event id can answer a manual fire.** Once a webhook event named `manual:<key>` has been dispatched or
  rejected, and no manual fire with that key came before it, a manual fire with the key is reported as a
  duplicate of what the event left. This is exactly when a duplicate is misattributed
  (`ManualReplyExactly`; an execution, `EventAnswersManualFire`).
- **Granted capabilities are a fixpoint, except an empty list.** Resolving an empty grant list again gives
  the whole bundle the role may use (`GrantsAreFixpoint`; an input, `EmptyGrantExpands`).
- **Interleaved compaction loses records.** When other compactors leave fewer than the minimum of a group,
  the rest is stamped but never listed (`ShortGroupIsOrphaned`, `OrphanForever`; an execution,
  `InterleavedOrphan`).
- **An abandoned outbox claim is never retried.** The claim takes pending and failed rows only, whatever the
  lease of a processing row says (`AbandonedClaimStays`).
- **Purging the oldest audit rows breaks verification for good**, until the tenant has no rows left
  (`PartialPurgeReported`, `LostStartStays`).

## Model

| member | source | states |
|---|---|---|
| `ClaimProtocol.CapBound` | core/src/db.rs:3953-4042 | in every execution with at most k overlapping claims, running runs in any scope never exceed max(cap, 1) + k - 1 |
| `ClaimProtocol.WorkersCapBound` | core/src/db.rs:3922-4045 | with N workers the bound is max(cap, 1) + N - 1, globally and per tenant, in every reachable state |
| `ClaimProtocol.SequentialCap` | core/src/db.rs:3953-4042 | if claims never overlap, the global and tenant caps hold in every reachable state |
| `CapTightness.GlobalBoundAttained` | core/src/db.rs:3953-3996 | for all caps and worker sets some execution reaches the global bound exactly |
| `CapTightness.TenantBoundAttained` | core/src/db.rs:3974-3996 | likewise for a tenant, from the smaller of the global and the tenant cap |
| `RunLifecycle.LifecycleHolds` | core/src/db.rs:3993-4152 | in every reachable state the event history obeys the lease automaton and each row agrees with it: attempts = claims, owner = worker of the latest unreleased claim, running iff owned, started at the first claim, ended with the outcome and time of the finish |
| `RunLifecycle.FinisherHeldTheRun` | core/src/db.rs:4074-4125 | every finish in such a history is by the worker of the latest claim and is the only finish of its run |
| `RunLifecycle.TerminalIsAbsorbing` | core/src/db.rs:4074-4152 | a succeeded or failed row is never changed again by any step of any execution |
| `RunLifecycle.ClaimLeases` | core/src/db.rs:3993-4025 | a claim that finds the row queued without a live lease leases it to the worker for exactly the given milliseconds from now, at least one, as one more attempt; any other claim changes nothing |
| `RunLifecycle.RenewalTerms` | core/src/db.rs:4047-4072 | a renewal counts from now and is accepted exactly from the holder of a lease still running |
| `RunLifecycle.LeaseProtects` | core/src/db.rs:4127-4152 | over any interleaving a run stays with its holder until it is finished, as long as the lease has not run out |
| `RunLifecycle.LapsedLeaseReturns` | core/src/db.rs:4127-4152 | a requeue may take a held run exactly when its lease has run out, and leaves it claimable with its attempts |
| `RunLifecycle.BackendGuards` | core/src/db_dual.rs:465-527 | the SQLite and Postgres finish guards differ on a row exactly when it is running without an owner |
| `RunLifecycle.BackendsAgree` | core/src/db_dual.rs:465-527 | on every reachable row the two guards accept the same finish |
| `RunLifecycle.ActiveKeysUnique` | core/src/db.rs:886-940 | every reachable state has at most one queued or running run per tenant and dedupe key, through claim, requeue and finish |
| `RunLifecycle.ColumnsFixed` | core/src/db.rs:3993-4152 | rows are never removed and keep tenant, key and creation time |
| `RunStore.Store.CreateRun` | core/src/db.rs:886-940 | inserts exactly when no active row of the tenant holds the key; otherwise changes nothing |
| `RunStore.Store.ActiveRunId` | core/src/db.rs:942-964 | returns a newest active row holding the key, none exactly when there is none |
| `RunStore.Store.SelectCandidates` | core/src/db.rs:3930-3951 | returns the first 64 claimable rows in (rank, created_at) order |
| `RunStore.Store.ClaimNext` | core/src/db.rs:3922-4045 | the loop claims exactly the chosen candidate (the first whose tenant is under its cap) and changes no other row |
| `ClaimRefinement.ClaimStaysReachable` | core/src/db.rs:3922-4045 | the outcome of an undisturbed claim is reached by the worker's own protocol steps, so the execution theorems apply after it |
| `RunStore.Store.RenewLease` | core/src/db.rs:4047-4072 | extends the lease exactly for the owner of an unexpired running row |
| `RunStore.Store.MarkFinished` | core/src/db.rs:4074-4125 | finishes exactly when the backend's guard accepts, clearing the lease |
| `RunStore.Store.RequeueExpired` | core/src/db.rs:4127-4152 | requeues exactly the `limit` earliest expired leases |
| `RunStore.RequeueTakesEarliest` | core/src/db.rs:4127-4152 | a requeue leaves behind no lease that ran out earlier than one it takes, and takes as many as the limit allows |
| `RunStore.NoOvertaking` | core/src/db.rs:3930-4042 | a run that precedes the claimed one in query order and is claimable has its tenant at the cap, despite the page limit |
| `RunStore.ClaimOrder` | core/src/db.rs:3930-4042 | the claimed row is queued without a live lease, with both counts below their caps; batch work, in any spelling of the class, younger than fifteen minutes is never taken while other open work waits, and among open rows alike in this the oldest is taken |
| `RunStore.AgedBatchIsNotPassed` | core/src/db.rs:3930-4042 | no run created after a batch run of fifteen minutes or more is claimed while that one is claimable under its cap |
| `RunStore.WaitsOnlyBehindFullPage` | core/src/db.rs:3930-3991 | while a run of a tenant under its cap waits, a claim returns nothing exactly when the global cap is reached or a full 64-row page, none of it behind that run, belongs to tenants at their cap |
| `RunStore.PageLimitStarves` | core/src/db.rs:3930-3991 | a concrete table where nothing is claimed although an idle tenant's run is open |
| `Json.CanonDecidesKeyOrder` | core/src/db.rs:4743-4771 | two JSON values have equal canonical forms if and only if they differ only by field order at any depth |
| `Json.CanonIsSameValue` | api/src/lib.rs:2179-2199 | the canonical form is well formed and equals the value up to field order |
| `Json.CanonIdempotent` | api/src/lib.rs:2179-2199 | canonicalising twice changes nothing more |
| `Json.CanonInOrder` | core/src/db.rs:4745-4758 | the fields of a canonical object stand in ascending order of their keys, character by character |
| `Json.ArrayOrderKept` | core/src/db.rs:4760-4769 | swapping two array elements keeps the canonical form exactly when the elements are the same up to field order |
| `RunDedupe.KeyDecidesSameness` | api/src/lib.rs:2154-2177 | two create requests have the same key if and only if they agree on every field, JSON parts up to field order |
| `RunDedupe.CollidesIsActiveFor` | core/src/db.rs:942-964 | a row blocks a request exactly when it is active and was made from an equivalent request |
| `RunDedupe.NewRowServes` | api/src/lib.rs:2072-2088 | a new run starts queued, unclaimed and unleased, and stands for exactly the requests that are the same up to key order |
| `RunDedupe.CreateIsProtocolStep` | api/src/lib.rs:2090-2125 | creating is the protocol's create step: it inserts exactly when no equal request is active, and an equal request made next collides with that row and no other |
| `RunDedupe.CreateRunCommon` | api/src/lib.rs:2047-2152 | rejects exactly an unreadable capability request; otherwise creates a run exactly when no equivalent run is active, with a fresh queued row in the given class, and else reports an equivalent active run and changes nothing |
| `RunDedupe.SecondRequestFindsFirstRun` | api/src/lib.rs:2047-2152 | over any interleaving in which the first run stays active, an equal request inserts nothing and the lookup can only find that run |
| `TriggerStore.Store.NextDueTrigger` | core/src/db.rs:5054-5119 | the selection query returns a due trigger with no strictly earlier due one, none exactly when none is due |
| `TriggerStore.Store.NextDueEvent` | core/src/db.rs:5497-5570 | the same for pending webhook events |
| `TriggerStore.Store.RunInterval` | core/src/db.rs:5121-5268 | statement by statement with rollback: skip, fire, or fail on the ledger index without any change |
| `TriggerStore.Store.RunCron` | core/src/db.rs:5340-5489 | the same for cron, dead-lettering the trigger when no next time exists |
| `TriggerStore.Store.RunWebhook` | core/src/db.rs:5571-5743 | the same for an event: reject an oversized one, fire, or fail without any change |
| `TriggerStore.Store.DispatchNext` | core/src/db.rs:5030-5041 | webhook, then cron, then interval; each query picks a first due row of the tables as they then are |
| `TriggerStore.Store.FireManually` | core/src/db.rs:4854-5022 | unavailable, duplicate, limited or created, in this order of tests |
| `TriggerStore.Store.UpdateConfig` | core/src/db.rs:4525-4636 | writes the settings and a next fire time computed at an earlier instant |
| `TriggerStore.Store.Enqueue` | core/src/db.rs:4638-4724 | inserts exactly an object payload for a live webhook trigger with a new id and a new payload up to field order |
| `TriggerStore.Store.Replay` | core/src/db.rs:4773-4834 | resets exactly a dead-lettered event of the tenant's trigger to pending with no attempts; not found exactly when no event has the tenant, trigger and id |
| `TriggerStore.DispatchStaysReachable` | core/src/db.rs:5030-5041 | every outcome of a dispatcher call is reached by scheduler steps, so the execution theorems below apply after it |
| `DispatchTerms.IntervalTerms` | core/src/db.rs:5130-5251 | a free slot is fired exactly under fire_now or when less than one interval late, the next time being one interval after the slot; otherwise it is recorded without a run, the next time being one interval from now |
| `DispatchTerms.CronTerms` | core/src/db.rs:5359-5475 | a free slot is fired exactly when the schedule has a next time after it, which is then awaited; otherwise it is recorded and the trigger dead-lettered |
| `DispatchTerms.WebhookTerms` | core/src/db.rs:5584-5730 | an event with a free key is fired and processed exactly up to 64 KiB; a larger one is recorded, due again after thirty seconds, or given up on its last attempt |
| `DispatchTerms.TakenKeyAborts` | migrations/0003_triggers.sql:36-37 | with the ledger key taken, none of the three dispatches changes anything |
| `DispatchTerms.ManualTerms` | core/src/db.rs:4862-5009 | with an unused key a fire creates a queued run exactly when the tenant's trigger is live and below both limits, and is refused as limited exactly when only the limits stand in the way |
| `DispatchTerms.EnqueueTerms` | core/src/db.rs:4645-4724 | an event is taken in exactly for an object payload, a live webhook trigger of the tenant and a new id and payload, and is due at once |
| `DispatchTerms.ReplayTerms` | core/src/db.rs:4801-4826 | exactly a dead-lettered event becomes due at once with all its attempts |
| `DispatchTerms.ConfigureTerms` | core/src/db.rs:4558-4577 | the settings are replaced and the next time counts from the instant of computation by the new interval or schedule; a schedule without a next time is refused |
| `DispatchTerms.JitterTerms` | core/src/db.rs:5867-5888 | the jitter drawn is between zero and the trigger's own |
| `DispatchTerms.TriggerOrder` | core/src/db.rs:5086-5113 | the scheduled dispatchers serve a waiting trigger if there is one: batch work less than fifteen minutes late after other work, then the longest due, then the older |
| `DispatchTerms.EventOrder` | core/src/db.rs:5532-5566 | the webhook dispatcher serves a waiting event if there is one, in the same order by age and row |
| `DispatchTerms.OnlyLiveTriggersFire` | core/src/db.rs:5068-5085 | in every execution a run comes from a trigger only in a state where it is enabled, not dead-lettered and below both limits |
| `TriggerCaps.LedgerHolds` | core/src/db.rs:5185-5251 | every triggered run has its own ledger row and every run in the ledger has that row's origin |
| `TriggerCaps.TriggerCapHolds` | core/src/db.rs:5073-5085 | over all mixes of dispatches, claims, finishes and requeues, a trigger's queued or running runs never exceed its max_inflight_runs while its own limit is not lowered |
| `TriggerCaps.TenantCapHolds` | core/src/db.rs:4922-4929 | a tenant fed only by triggers never exceeds the tenant cap when dispatch transactions do not overlap |
| `DispatchOverlap.TriggerBoundUnderOverlap` | core/src/db.rs:5073-5113 | with counts taken before the row lock and at most k transactions between count and commit, a trigger never exceeds max_inflight_runs + k - 1 |
| `OutdatedCounts.TriggerOverlapAttained` | core/src/db.rs:5073-5251 | for every limit within the tenant cap and every k some execution reaches that bound exactly |
| `DispatchOverlap.TriggerCapExactly` | core/src/db.rs:5073-5113 | over every overlap, all states keep the trigger within its limit, counting the transaction that holds it, if and only if the trigger still has room whenever a dispatcher transaction locks it |
| `DispatchOverlap.TenantBoundUnderOverlap` | core/src/db.rs:4922-4929 | with at most k transactions between count and commit a tenant fed only by triggers never exceeds max(cap, 1) + k - 1 |
| `OverlapTightness.TenantOverlapAttained` | core/src/db.rs:4922-5009 | for every cap and k some execution reaches that bound exactly |
| `OverlapRows.SlotsUnderOverlap` | core/src/db.rs:5113-5251 | over every overlap, all states keep recorded slots before next_fire_at if and only if each configuration update writes a time after them |
| `OverlapRows.EventsUnderOverlap` | core/src/db.rs:5566-5743 | over every overlap, events stay distinct, dispatched events keep their ledger key and each triggered run has its own ledger row |
| `TriggerCaps.InflightRowsAreRuns` | core/src/db.rs:5809-5825 | counting ledger rows counts runs: two in-flight rows never share a run |
| `TriggerSlots.SlotsHold` | core/src/db.rs:5136-5251 | all recorded slots of a scheduled trigger lie strictly before next_fire_at, through skips, jitter and updates whose new time is still ahead when they commit |
| `TriggerSlots.SlotsHoldExactly` | core/src/db.rs:4558-4577 | all states of an execution keep it if and only if each configuration update writes a time after the slots recorded so far |
| `TriggerSlots.ScheduledDispatchNeverAborts` | core/src/db.rs:5235-5251 | under that condition no interval or cron dispatch meets the ledger's unique index |
| `TriggerSlots.LateUpdateReopensSlot` | core/src/db.rs:4558-4577 | a configuration update leaves an interval or cron trigger waiting for a slot that is in the ledger exactly when the time it writes is such a slot |
| `TriggerSlots.WedgedUntilReconfigured` | core/src/db.rs:5235-5251 | a scheduled trigger waiting for a recorded slot keeps waiting for it in every later state until it is configured again, and each of its dispatches on the way changes nothing |
| `TriggerSlots.LateUpdateExecution` | core/src/db.rs:4558-4577 | a four-step execution that does so |
| `TriggerSlots.CatchUpBound` | core/src/db.rs:5137-5229 | at a fixed clock and lateness L a fire_now trigger dispatches at most floor(L / interval) + 1 times, and that many leave it no longer due |
| `TriggerSlots.SkipCatchesUpAtOnce` | core/src/db.rs:5137-5181 | a skip trigger at least one interval late creates no run and is at once not due |
| `TriggerEvents.OneRunPerOrigin` | migrations/0003_triggers.sql:36-37 | no two runs of an execution come from the same slot, event or idempotency key |
| `TriggerEvents.EventsAreDistinct` | core/src/db.rs:4690-4724 | no two event rows of a trigger share an id, or a payload up to field order |
| `TriggerEvents.OneRunPerEvent` | core/src/db.rs:4773-4834 | each event row leads to at most one run ever, and different rows to different runs, across any replays |
| `TriggerEvents.OversizedDispatch` | core/src/db.rs:5584-5638 | the dispatch of an oversized event dead-letters it exactly when max_attempts is 1 and its ledger key is free; otherwise the event is stuck in every later state |
| `TriggerEvents.OversizedRetryIsStuck` | core/src/db.rs:5584-5638 | an execution with max_attempts 3 in which the first dispatch leaves the event stuck |
| `TriggerEvents.TakenKeyIsStuck` | core/src/db.rs:5584-5638 | an execution with max_attempts 1 in which a manual fire has taken the key and the event is stuck unattempted |
| `TriggerEvents.StuckForever` | migrations/0003_triggers.sql:36-37 | a pending event whose key is in the ledger never changes again in any execution |
| `TriggerEvents.ReplayIsStuck` | core/src/db.rs:4806-4826 | a dead-lettered event is stuck as soon as it is replayed |
| `TriggerEvents.StuckHeadBlocksDispatcher` | core/src/db.rs:5030-5041 | while a stuck event is first, a dispatcher call fails and fires nothing of any kind |
| `TriggerEvents.StuckHeadBlocksForever` | core/src/db.rs:5030-5041 | once an event is stuck, in every later state in which it is the first due a dispatcher call changes nothing |
| `TriggerEvents.ManualFireReportsSameRun` | core/src/db.rs:4893-4910 | after a manual fire created a run, each later fire with that key on the live trigger reports that run and changes nothing |
| `TriggerEvents.ManualReplyExactly` | core/src/db.rs:4893-4910 | on a live trigger a fire is a duplicate if and only if its key was fired manually or taken by a dispatched event of that name, and names something else than a manual run with the key if and only if only the event took it |
| `TriggerEvents.DuplicateIsManual` | core/src/db.rs:4893-4910 | where the trigger has no event of that name, a duplicate is always of a run an earlier manual fire with the key created |
| `TriggerEvents.EventAnswersManualFire` | core/src/db.rs:4893-4910 | an execution in which the first manual fire with a key is answered with the run of an event of that name |
| `SchedulerLease.LeaseTable.TryAcquire` | core/src/db.rs:4154-4188 | grants exactly when the name is free, expired or already the caller's, and writes the new expiry |
| `SchedulerLease.HandoverHolds` | core/src/db.rs:4154-4188 | on every run a different owner is granted a name only strictly after the previous grant expired |
| `SchedulerLease.MutualExclusion` | core/src/db.rs:4154-4188 | two different owners never both have an unexpired latest grant of one name at one instant |
| `GatewayLeases.FirstFree` | core/src/db.rs:2650-2663 | the lowest slot from 1 to the limit without a live lease, none exactly when all are live |
| `GatewayLeases.LeaseTable.TryAcquire` | core/src/db.rs:2640-2706 | takes the lowest slot without a live lease; none exactly when slots 1 to the limit are all live |
| `GatewayLeases.LeaseTable.Release` | core/src/db.rs:2708-2729 | removes the slot's row exactly when it still carries the caller's lease id |
| `GatewayLeases.LiveLeasesBounded` | core/src/db.rs:2640-2729 | in every execution with one limit per lane the live leases never exceed it |
| `GatewayLeases.LiveLeaseKept` | core/src/db.rs:2664-2690 | no step but its own release disturbs a live lease |
| `GatewayLeases.StaleReleaseHarmless` | core/src/db.rs:2708-2729 | a holder whose slot was granted to another lease can release at any later time without effect |
| `SiemOutbox.Store.Claim` | core/src/db.rs:3608-3669 | takes the first due pending or failed rows up to the clamped limit and leases exactly those |
| `SiemOutbox.ClaimTakesFirst` | core/src/db.rs:3620-3632 | a claim leaves behind no due record that comes earlier by due time, age and id, and takes as many as there are up to the clamped limit |
| `SiemOutbox.Store.Mark` | core/src/db.rs:3671-3816 | writes the outcome whatever the row's status, as the statements have no status guard |
| `SiemOutbox.Store.Replay` | core/src/db.rs:3818-3865 | resets exactly a dead-lettered row of the tenant |
| `SiemOutbox.OutboxHolds` | core/src/db.rs:3608-3865 | when workers mark only what they claimed, once per claim: attempts stay within max_attempts, open rows strictly below, one holder per row, at most max_attempts claims between replays |
| `SiemOutbox.RecordFollowsSteps` | core/src/db.rs:3608-3865 | a record behaves as its own steps say: new, replayed and retried ones claimable exactly from their due time, claimed ones leased for exactly the given time, delivered ones never claimable or replayable, rejected and finally failed ones back only by a replay |
| `SiemOutbox.DeliveredIsFinal` | core/src/db.rs:3671-3690 | after a success mark a record never changes again |
| `SiemOutbox.DeadLettersOnLastAttempt` | core/src/db.rs:3716-3769 | a retryable failure of a held row dead-letters it exactly on its last permitted attempt |
| `SiemOutbox.AbandonedClaimStays` | core/src/db.rs:3620-3640 | a claimed row that is not marked never changes, however long its lease has expired |
| `SiemOutbox.SecondMarkExceedsLimit` | core/src/db.rs:3716-3769 | without the discipline attempts pass the limit |
| `MemoryCompaction.Store.CompactGroup` | core/src/db.rs:2263-2332 | stamps the unstamped records of a group and records them exactly when enough are left |
| `MemoryCompaction.CandidatesExactly` | core/src/db.rs:2217-2243 | candidates are uncompacted, unexpired and old enough, in whole groups of at least max(min_records, 2), at most max(max_groups, 1) groups, and all such groups if there are not more |
| `MemoryCompaction.Store.Compact` | core/src/db.rs:2211-2342 | without interference exactly the candidate records are stamped, one record per group is written, and the totals are the numbers of groups and of records stamped |
| `MemoryCompaction.StampedListedOnce` | core/src/db.rs:2217-2342 | then a record is stamped if and only if some new compaction record lists it, and only one does |
| `MemoryCompaction.ListedAtMostOnce` | core/src/db.rs:2268-2318 | over any interleaving of compactors no memory record is listed in two compaction records |
| `MemoryCompaction.ShortGroupIsOrphaned` | core/src/db.rs:2283-2291 | an interleaved compactor stamps records without listing them exactly when fewer than the minimum were left to it |
| `MemoryCompaction.InterleavedOrphan` | core/src/db.rs:2217-2291 | an execution of two compactors, each started from what its candidate query returned, that orphans a record |
| `MemoryCompaction.OrphanForever` | core/src/db.rs:2268-2291 | such a record is never listed in any later state |
| `AuditChain.Store.Verify` | api/src/lib.rs:7980-8022 | the loop reports success exactly for numbers 1..n with matching links and non-blank hashes; otherwise the earliest bad row; also the greatest number and the last hash |
| `AuditChain.ExaminedInOrder` | api/src/lib.rs:7962-7969 | rows are examined by sequence number, missing ones counting as zero, then by second, then by id |
| `AuditChain.Store.Purge` | api/src/lib.rs:7888-7949 | deletes exactly the tenant's rows created, in whole seconds, before the retention days, and nothing under legal hold |
| `AuditChain.Store.Append` | migrations/0010_compliance_tamper_chain.sql:106-171 | numbers and links a new event after the chain's head and leaves a known event alone |
| `AuditChain.DeletionDetected` | api/src/lib.rs:7980-8009 | removing rows from a verified chain leaves a verified chain if and only if they follow all the rows kept |
| `AuditChain.AlterationDetected` | api/src/lib.rs:7980-8009 | altering the chain columns of one row of a verified chain goes unnoticed exactly when number and link stay the same, the hash is not blank, and it is the same unless the row is the last |
| `AuditChain.PartialPurgeReported` | api/src/lib.rs:7920-7926 | a purge of some but not all rows of a verified chain in time order makes verification fail |
| `AuditChain.AppendKeepsVerdict` | migrations/0010_compliance_tamper_chain.sql:106-171 | appending neither breaks a verified chain nor repairs a broken one |
| `AuditChain.LostStartStays` | api/src/lib.rs:7920-7926 | after a purge takes the first row of a verified chain, every later state of any history of events and purges fails verification as long as the tenant has rows |
| `Capabilities.ParseRequested` | api/src/lib.rs:12172-12211 | the loop returns the parsed request: the first malformed item's error, unknown names and bad scopes dropped |
| `Capabilities.ItemTerms` | api/src/lib.rs:12172-12211 | an entry without texts or with a blank scope is an error, one with an unknown name or an unsafe scope is dropped, any other is kept with its scope trimmed |
| `Capabilities.SecondNames` | api/src/lib.rs:12213-12228 | every capability answers to a second name with an underscore for the dot |
| `Capabilities.ResolveGranted` | api/src/lib.rs:12116-12170 | the loop returns the resolved grants; an empty parsed request grants the whole bundle the role may use |
| `Capabilities.ParseGrant` | api/src/lib.rs:12280-12302 | a grant written as JSON parses back to its capability, scope and limit |
| `Capabilities.GrantsAreFixpoint` | api/src/lib.rs:12116-12170 | resolving grants again returns them unchanged if and only if they are not empty or the role may use nothing of the bundle |
| `Capabilities.EmptyGrantExpands` | api/src/lib.rs:12140-12160 | under payments_v1 an owner's request for object.read is granted nothing, and that empty list resolves to the payment grant |
| `Capabilities.GrantsAreSound` | api/src/lib.rs:12280-12320 | every grant passes the role check on its own scope and stays within the hard byte limit |
| `Capabilities.RoleLimits` | api/src/lib.rs:12311-12320 | no grant to an operator reads back as local.exec, and every grant to a viewer as object.read or as llm.infer on a local model |
| `Capabilities.AnsweredExactly` | api/src/lib.rs:12116-12170 | an entry of the request is granted exactly when the role may use it itself, without a bundle, or when the bundle offers the role something that covers it |
| `Capabilities.GrantTerms` | api/src/lib.rs:12280-12302 | a grant reads back with the capability and scope asked for, limited to the requested bytes and never above the hard limit, which is the default |
| `Capabilities.HardLimits` | api/src/lib.rs:69-76 | the hard limits in bytes |
| `Capabilities.RoleCoversInnerScope` | api/src/lib.rs:12304-12320 | a role allowed a bundle scope is allowed every scope inside it |
| `Capabilities.GrantsGrowWithRole` | api/src/lib.rs:12116-12320 | for each request the viewer's grants are among the operator's, and those among the owner's |
| `Heartbeat.Tokenize` | core/src/agent_context.rs:774-796 | the loop computes the tokens of a line |
| `Heartbeat.TokensKeepText` | core/src/agent_context.rs:774-796 | tokens are never empty and together hold exactly the characters that are not quotes or unquoted white space, in order |
| `Heartbeat.TokensOfQuoted` | core/src/agent_context.rs:774-796 | tokenizing a line of quoted tokens gives the tokens back |
| `Heartbeat.ParseOptions` | core/src/agent_context.rs:699-772 | the loop returns the options or the problem of the first bad token |
| `Heartbeat.LastOptionWins` | core/src/agent_context.rs:699-772 | options are accepted exactly when each token is good by itself, and the last token for an option decides it |
| `Heartbeat.Compile` | core/src/agent_context.rs:533-586 | the loop computes the report of the whole text, stopping at the candidate limit |
| `Heartbeat.ReportIsExact` | core/src/agent_context.rs:533-586 | line numbers strictly increase, each judged line is reported exactly as its own outcome and once, at most 128 candidates, and only a further directive ends the compilation |
| `Heartbeat.CandidatesWellFormed` | core/src/agent_context.rs:588-690 | every candidate of every report is within the option bounds, on a valid schedule, with trimmed non-empty values |
| `Heartbeat.PrintedCompiles` | core/src/agent_context.rs:588-772 | every well-formed candidate printed with quoted tokens compiles to itself |
| `Heartbeat.ProducedCandidateReprints` | core/src/agent_context.rs:533-796 | hence any produced candidate is reproduced from its printed directive, up to line and source line |
| `Heartbeat.DocumentCompiles` | core/src/agent_context.rs:533-586 | a document listing any well-formed candidates, with either line end, compiles to exactly those in order; from the 129th on they are cut off with one issue |
| `Heartbeat.LinesOfDocument` | core/src/agent_context.rs:538-541 | a document has exactly its lines, with either line end |
| `Heartbeat.Decorations` | core/src/agent_context.rs:540-551 | around a directive white space and one bullet are ignored, and a heading is no directive |
| `Heartbeat.OmittedOptions` | core/src/agent_context.rs:638-708 | options left out mean one run at a time, no jitter and universal time |
| `Heartbeat.Spellings` | core/src/agent_context.rs:729-772 | the long and short names of options and directives mean the same |
| `Heartbeat.IntervalIssues` | core/src/agent_context.rs:588-636 | the issue of an interval directive names its first fault, and without one there is a candidate |
| `Heartbeat.CronIssues` | core/src/agent_context.rs:638-689 | the issue of a cron directive names its first fault |
| `Heartbeat.OptionIssues` | core/src/agent_context.rs:699-772 | a faulty option is reported by what is wrong with it |
| `Text.NumeralTerms` | core/src/agent_context.rs:603-610 | a number is an optional sign and digits: a plus sign and leading zeros change nothing, any other character makes it unreadable |
| `Text.WhitespaceTerms` | core/src/agent_context.rs:783-788 | which characters separate tokens |

## Left out

- HTTP routing, headers, response structs and the handlers around the modelled steps.
- SQL text, row decoding, connection pools, UUID and timestamp parsing; ids are numbers, and instants are nanoseconds of one monotone clock that stands for `now()` and `now_utc()`.
- The database's lock manager: SKIP LOCKED appears as freedom to pick any due trigger or event, any expired lease, any claimable outbox row, or any ordered part of the claimable runs.
- Overlapping transactions in the theorems of `TriggerCaps`, `TriggerSlots` and `TriggerEvents`, where a transaction is one step; `DispatchOverlap` and `OverlapRows` carry the limits, the slots and the event rows over.
- Cron and time zone evaluation: an abstract function giving a time strictly after its argument (the heartbeat compiler only asks for validity).
- SHA-256: the canonical payload itself is the dedupe key, and the audit hashes are opaque text.
- The jitter hash: any offset from 0 to `jitter_seconds` may be drawn.
- Columns no modelled statement reads (`consecutive_failures`, `last_fired_at`, error payloads, run inputs and traces), and the audit events written beside a dispatch.
- Merging absent fields in `update_trigger_config`: the settings given to the model are the merged ones.
- The status `canceled` of runs, which no modelled statement writes.
- The text of heartbeat issue messages; codes and lines are kept.
- The choice among qualifying groups and the order of ids in memory compaction; the representative run and step.
- A NULL `tamper_hash`, on which the SQLite handler cannot read the row; `AuditChain` rows always have a hash.
- The Postgres verification function, which also recomputes each hash, and the SQLite copies of the dispatcher.
- The difference between the backends in the audit chain: `AuditChain` combines the Postgres routing trigger with the SQLite purge and verification handlers; no code of the SQLite backend writes `compliance_audit_events`.
- Payments, token budgets, the gateway cache, latency and usage summaries, file-system agent context, the command-line client: each claim about them would be settled by reading one branch.
- TriggerCaps.TriggerCapHolds: takes each transaction as one step, as outdated counts exceed the limit (DispatchOverlap.TriggerBoundUnderOverlap), and assumes that no configuration update lowers the trigger's own limit; the code lowers it at once while runs above it continue.
- DispatchOverlap.TriggerBoundUnderOverlap: assumes likewise that the trigger's own limit is not lowered.
- DispatchOverlap.TenantBoundUnderOverlap: assumes the API creates no run for the tenant.
- TriggerCaps.TenantCapHolds: takes each transaction as one step, as overlapping transactions exceed the cap (DispatchOverlap.TenantBoundUnderOverlap), and assumes the API creates no run for the tenant, since API requests are limited separately (api/src/lib.rs:1980-2045).
- GatewayLeases.LiveLeasesBounded: assumes every acquire of a lane passes the same limit, as each call brings its own.
- SiemOutbox.OutboxHolds: assumes the claim-then-mark discipline, which the statements themselves do not enforce.
