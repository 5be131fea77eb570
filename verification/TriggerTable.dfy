// The trigger tables and the dispatcher transactions, each one atomic step. A ledger insert that meets
// the unique index on (trigger_id, dedupe_key) fails its whole transaction.
module TriggerTable {
  import opened Prelude
  import opened Text
  import opened Json
  import opened RunTable

  type TriggerId = nat
  type EventRow = nat

  datatype Kind = Interval | Cron | Webhook
  datatype Misfire = FireNow | SkipMissed

  // The columns update_trigger_config rewrites; `schedule` is the cron expression with its time zone.
  datatype Settings = Settings(
    intervalSeconds: int,
    schedule: string,
    misfire: Misfire,
    maxAttempts: int,
    maxInflight: int,
    jitterSeconds: int)

  datatype Trigger = Trigger(
    tenant: Tenant,
    kind: Kind,
    enabled: bool,
    deadLettered: bool,
    settings: Settings,
    nextFireAt: Time,
    createdAt: Time,
    queueClass: Option<string>,
    llmQueueClass: Option<string>)

  datatype EventStatus = Pending | Processed | DeadLettered

  datatype TriggerEvent = TriggerEvent(
    trigger: TriggerId,
    eventId: string,
    payload: Json,
    size: nat,
    status: EventStatus,
    attempts: nat,
    nextAttemptAt: Time,
    createdAt: Time)

  // A trigger_runs row; the table is keyed by its unique index.
  datatype LedgerRow = LedgerRow(run: Option<RunId>, scheduledFor: Time)
  type LedgerKey = (TriggerId, string)
  type Ledger = map<LedgerKey, LedgerRow>

  // Where a run came from; kept as history, never read by a statement.
  datatype Origin =
    | FromSlot(trigger: TriggerId, slot: Time)
    | FromEvent(trigger: TriggerId, eventId: string)
    | FromManual(trigger: TriggerId, idempotencyKey: string)

  datatype Db = Db(
    now: Time,
    triggers: map<TriggerId, Trigger>,
    events: map<EventRow, TriggerEvent>,
    ledger: Ledger,
    runs: Runs,
    origin: map<RunId, Origin>)

  // The tenant limit passed to every dispatch, and the cron evaluator.
  datatype Env = Env(tenantMax: int, nextCron: (string, Time) -> Option<Time>)

  ghost predicate CronAdvances(env: Env)
  {
    forall schedule, after :: env.nextCron(schedule, after).Some? ==> env.nextCron(schedule, after).value > after
  }

  // The CHECK constraints of the triggers table.
  predicate SettingsOk(kind: Kind, s: Settings)
  {
    (kind.Interval? ==> s.intervalSeconds > 0) && s.maxAttempts > 0 && s.maxInflight > 0 && 0 <= s.jitterSeconds <= 3600
  }

  function IntervalOf(tr: Trigger): int
  {
    tr.settings.intervalSeconds * SECOND
  }

  // apply_jitter, with the hash reduced to the offset it yields
  predicate JitterOffset(jitterSeconds: int, offset: nat)
  {
    if jitterSeconds <= 0 then offset == 0 else offset <= jitterSeconds
  }

  function SlotKey(slot: Time): string
  {
    Decimal(slot)
  }

  const MANUAL_PREFIX: string := "manual:"

  function ManualKey(idempotencyKey: string): string
  {
    MANUAL_PREFIX + idempotencyKey
  }

  function OriginKey(o: Origin): LedgerKey
  {
    match o
    case FromSlot(t, slot) => (t, SlotKey(slot))
    case FromEvent(t, eventId) => (t, eventId)
    case FromManual(t, key) => (t, ManualKey(key))
  }

  // ---------------------------------------------------------------------------------------------
  // In-flight counts
  // ---------------------------------------------------------------------------------------------

  predicate RowActive(runs: Runs, row: LedgerRow)
  {
    row.run.Some? && row.run.value in runs && Active(runs[row.run.value])
  }

  // trigger_runs joined to runs that are queued or running
  function TriggerInflight(db: Db, t: TriggerId): set<LedgerKey>
  {
    set k | k in db.ledger && k.0 == t && RowActive(db.runs, db.ledger[k])
  }

  function TenantInflight(db: Db, tenant: Tenant): set<RunId>
  {
    set id | id in db.runs && Active(db.runs[id]) && db.runs[id].tenant == tenant
  }

  function TenantCap(env: Env): int
  {
    Max(env.tenantMax, 1)
  }

  predicate HasRoom(env: Env, db: Db, t: TriggerId)
    requires t in db.triggers
  {
    && |TriggerInflight(db, t)| < db.triggers[t].settings.maxInflight
    && |TenantInflight(db, db.triggers[t].tenant)| < TenantCap(env)
  }

  predicate Live(tr: Trigger)
  {
    tr.enabled && !tr.deadLettered
  }

  // ---------------------------------------------------------------------------------------------
  // Candidate selection
  // ---------------------------------------------------------------------------------------------

  // 1 for batch work that has waited less than fifteen minutes since `since`
  function DispatchRank(tr: Trigger, since: Time, now: Time): int
  {
    var cls := QueueClass(tr.queueClass, tr.llmQueueClass);
    if cls == "batch" && now - since >= BATCH_AGING then 0
    else if cls == "interactive" then 0
    else if cls == "batch" then 1
    else 0
  }

  // The conditions on the trigger's own row.
  predicate ScheduleDue(db: Db, kind: Kind, t: TriggerId)
  {
    t in db.triggers && Live(db.triggers[t]) && db.triggers[t].kind == kind && db.triggers[t].nextFireAt <= db.now
  }

  predicate Due(env: Env, db: Db, kind: Kind, t: TriggerId)
  {
    ScheduleDue(db, kind, t) && HasRoom(env, db, t)
  }

  predicate EarlierTrigger(a: Trigger, b: Trigger, now: Time)
  {
    var ra, rb := DispatchRank(a, a.nextFireAt, now), DispatchRank(b, b.nextFireAt, now);
    || ra < rb
    || (ra == rb && (a.nextFireAt < b.nextFireAt || (a.nextFireAt == b.nextFireAt && a.createdAt < b.createdAt)))
  }

  // The row LIMIT 1 may return: due, with no due row strictly earlier.
  predicate NextTrigger(env: Env, db: Db, kind: Kind, t: TriggerId)
  {
    && Due(env, db, kind, t)
    && forall u :: u in db.triggers && Due(env, db, kind, u) ==> !EarlierTrigger(db.triggers[u], db.triggers[t], db.now)
  }

  // The conditions on the event's own row and its trigger's.
  predicate EventWaiting(db: Db, e: EventRow)
  {
    && e in db.events && db.events[e].status.Pending? && db.events[e].nextAttemptAt <= db.now
    && db.events[e].trigger in db.triggers && Live(db.triggers[db.events[e].trigger])
    && db.triggers[db.events[e].trigger].kind.Webhook?
  }

  predicate EventDue(env: Env, db: Db, e: EventRow)
  {
    EventWaiting(db, e) && HasRoom(env, db, db.events[e].trigger)
  }

  predicate EarlierEvent(db: Db, a: EventRow, b: EventRow)
    requires a in db.events && b in db.events
    requires db.events[a].trigger in db.triggers && db.events[b].trigger in db.triggers
  {
    var ra := DispatchRank(db.triggers[db.events[a].trigger], db.events[a].createdAt, db.now);
    var rb := DispatchRank(db.triggers[db.events[b].trigger], db.events[b].createdAt, db.now);
    || ra < rb
    || (ra == rb && (db.events[a].createdAt < db.events[b].createdAt ||
                     (db.events[a].createdAt == db.events[b].createdAt && a < b)))
  }

  predicate NextEvent(env: Env, db: Db, e: EventRow)
  {
    EventDue(env, db, e) && forall x :: x in db.events && EventDue(env, db, x) ==> !EarlierEvent(db, x, e)
  }

  // ---------------------------------------------------------------------------------------------
  // The dispatcher transactions
  // ---------------------------------------------------------------------------------------------

  // How a dispatch call returns: Ok(Some run), Ok(None), or a database error.
  datatype Reply = Dispatched(run: RunId) | Nothing | Aborted

  function TriggeredRun(db: Db, tr: Trigger): Run
  {
    Run(tr.tenant, Queued, 0, None, None, db.now, None, None, tr.queueClass, tr.llmQueueClass, None)
  }

  // The inserts every firing makes: a queued run and its ledger row.
  function Fire(db: Db, t: TriggerId, run: RunId, o: Origin, at: Time): Db
    requires t in db.triggers
  {
    db.(runs := db.runs[run := TriggeredRun(db, db.triggers[t])],
        ledger := db.ledger[OriginKey(o) := LedgerRow(Some(run), at)],
        origin := db.origin[run := o])
  }

  // A 'failed' ledger row without a run.
  function Record(db: Db, key: LedgerKey, at: Time): Db
  {
    db.(ledger := db.ledger[key := LedgerRow(None, at)])
  }

  function Reschedule(db: Db, t: TriggerId, next: Time): Db
    requires t in db.triggers
  {
    db.(triggers := db.triggers[t := db.triggers[t].(nextFireAt := next)])
  }

  predicate Misfired(tr: Trigger, now: Time)
  {
    tr.settings.misfire.SkipMissed? && now - tr.nextFireAt >= IntervalOf(tr)
  }

  // dispatch_next_due_interval_trigger_with_limits for the selected trigger
  function DispatchInterval(db: Db, t: TriggerId, run: RunId, offset: nat): (Db, Reply)
    requires t in db.triggers
  {
    var tr := db.triggers[t];
    var slot := tr.nextFireAt;
    if (t, SlotKey(slot)) in db.ledger then (db, Aborted)
    else if Misfired(tr, db.now) then
      (Record(Reschedule(db, t, db.now + IntervalOf(tr) + offset * SECOND), (t, SlotKey(slot)), slot), Nothing)
    else
      (Fire(Reschedule(db, t, slot + IntervalOf(tr) + offset * SECOND), t, run, FromSlot(t, slot), slot),
       Dispatched(run))
  }

  // dispatch_next_due_cron_trigger for the selected trigger
  function DispatchCron(env: Env, db: Db, t: TriggerId, run: RunId, offset: nat): (Db, Reply)
    requires t in db.triggers
  {
    var tr := db.triggers[t];
    var slot := tr.nextFireAt;
    var next := env.nextCron(tr.settings.schedule, slot);
    if (t, SlotKey(slot)) in db.ledger then (db, Aborted)
    else if next.None? then
      (Record(db.(triggers := db.triggers[t := tr.(deadLettered := true)]), (t, SlotKey(slot)), slot), Nothing)
    else
      (Fire(Reschedule(db, t, next.value + offset * SECOND), t, run, FromSlot(t, slot), slot), Dispatched(run))
  }

  const MAX_EVENT_PAYLOAD_BYTES: nat := 64 * 1024

  predicate Oversized(e: TriggerEvent)
  {
    e.size > MAX_EVENT_PAYLOAD_BYTES
  }

  function EventKey(e: TriggerEvent): LedgerKey
  {
    (e.trigger, e.eventId)
  }

  function RejectedEvent(e: TriggerEvent, maxAttempts: int, now: Time): TriggerEvent
  {
    if e.attempts + 1 >= maxAttempts
    then e.(attempts := e.attempts + 1, status := DeadLettered, nextAttemptAt := now)
    else e.(attempts := e.attempts + 1, nextAttemptAt := now + 30 * SECOND)
  }

  // dispatch_next_due_webhook_event for the selected event
  function DispatchWebhook(db: Db, row: EventRow, run: RunId): (Db, Reply)
    requires row in db.events && db.events[row].trigger in db.triggers
  {
    var e := db.events[row];
    if EventKey(e) in db.ledger then (db, Aborted)
    else if Oversized(e) then
      var rejected := RejectedEvent(e, db.triggers[e.trigger].settings.maxAttempts, db.now);
      (Record(db.(events := db.events[row := rejected]), EventKey(e), db.now), Nothing)
    else
      var done := e.(attempts := e.attempts + 1, status := Processed, nextAttemptAt := db.now);
      (Fire(db.(events := db.events[row := done]), e.trigger, run, FromEvent(e.trigger, e.eventId), db.now),
       Dispatched(run))
  }

  // The rows the selection queries of one dispatcher call return, if any.
  datatype Heads = Heads(event: Option<EventRow>, cron: Option<TriggerId>, interval: Option<TriggerId>)

  // The jitter drawn for the trigger each scheduled call selects.
  datatype Offsets = Offsets(cron: nat, interval: nat)

  function WebhookCall(db: Db, h: Heads, run: RunId): (Db, Reply)
  {
    if h.event.Some? && h.event.value in db.events && db.events[h.event.value].trigger in db.triggers
    then DispatchWebhook(db, h.event.value, run) else (db, Nothing)
  }

  function CronCall(env: Env, db: Db, h: Heads, run: RunId, offset: nat): (Db, Reply)
  {
    if h.cron.Some? && h.cron.value in db.triggers then DispatchCron(env, db, h.cron.value, run, offset) else (db, Nothing)
  }

  function IntervalCall(db: Db, h: Heads, run: RunId, offset: nat): (Db, Reply)
  {
    if h.interval.Some? && h.interval.value in db.triggers
    then DispatchInterval(db, h.interval.value, run, offset) else (db, Nothing)
  }

  // A query returns a first row of what is due at that point, or nothing when nothing is.
  predicate SelectsEvent(env: Env, db: Db, head: Option<EventRow>)
  {
    if head.Some? then NextEvent(env, db, head.value) else forall e :: e in db.events ==> !EventDue(env, db, e)
  }

  predicate SelectsTrigger(env: Env, db: Db, kind: Kind, head: Option<TriggerId>)
  {
    if head.Some? then NextTrigger(env, db, kind, head.value) else forall t :: t in db.triggers ==> !Due(env, db, kind, t)
  }

  // The queries made: the cron query after the webhook call found nothing to fire, and so on.
  predicate Selects(env: Env, db: Db, h: Heads, run: RunId, offsets: Offsets)
  {
    var webhook := WebhookCall(db, h, run);
    var cron := CronCall(env, webhook.0, h, run, offsets.cron);
    && SelectsEvent(env, db, h.event)
    && (webhook.1.Nothing? ==> SelectsTrigger(env, webhook.0, Cron, h.cron))
    && (webhook.1.Nothing? && cron.1.Nothing? ==> SelectsTrigger(env, cron.0, Interval, h.interval))
  }

  // dispatch_next_due_trigger_with_limits: webhook, then cron, then interval, until one fires or fails
  function DispatchNext(env: Env, db: Db, h: Heads, run: RunId, offsets: Offsets): (Db, Reply)
  {
    var webhook := WebhookCall(db, h, run);
    if !webhook.1.Nothing? then webhook
    else
      var cron := CronCall(env, webhook.0, h, run, offsets.cron);
      if !cron.1.Nothing? then cron else IntervalCall(cron.0, h, run, offsets.interval)
  }

  // How a manual fire returns.
  datatype FireReply = Unavailable | Duplicate(earlier: Option<RunId>) | Limited | FireCreated(run: RunId)

  // fire_trigger_manually_with_limits
  function FireManually(env: Env, db: Db, t: TriggerId, tenant: Tenant, key: string, run: RunId): (Db, FireReply)
  {
    if t !in db.triggers || db.triggers[t].tenant != tenant || !Live(db.triggers[t]) then (db, Unavailable)
    else if (t, ManualKey(key)) in db.ledger then (db, Duplicate(db.ledger[(t, ManualKey(key))].run))
    else if !HasRoom(env, db, t) then (db, Limited)
    else (Fire(db, t, run, FromManual(t, key), db.now), FireCreated(run))
  }

  // The time update_trigger_config writes, computed at `computedAt` before the UPDATE commits.
  function RecomputedFireAt(env: Env, tr: Trigger, s: Settings, computedAt: Time): Option<Time>
  {
    match tr.kind
    case Interval => Some(computedAt + s.intervalSeconds * SECOND)
    case Cron => env.nextCron(s.schedule, computedAt)
    case Webhook => Some(tr.nextFireAt)
  }

  function UpdateConfig(env: Env, db: Db, t: TriggerId, s: Settings, computedAt: Time, offset: nat): Db
    requires t in db.triggers
  {
    var next := RecomputedFireAt(env, db.triggers[t], s, computedAt);
    if next.None? then db
    else db.(triggers := db.triggers[t := db.triggers[t].(settings := s, nextFireAt := next.value + offset * SECOND)])
  }

  // The two unique indexes of trigger_events: same event id, or same payload up to key order.
  predicate SameEvent(e: TriggerEvent, t: TriggerId, eventId: string, payload: Json)
  {
    e.trigger == t && (e.eventId == eventId || Canon(e.payload) == Canon(payload))
  }

  predicate EventInsertable(db: Db, t: TriggerId, eventId: string, payload: Json)
  {
    forall x :: x in db.events ==> !SameEvent(db.events[x], t, eventId, payload)
  }

  // enqueue_trigger_event
  function EnqueueEvent(db: Db, row: EventRow, t: TriggerId, tenant: Tenant, eventId: string, payload: Json, size: nat): Db
  {
    if !payload.Obj? || t !in db.triggers || db.triggers[t].tenant != tenant || !Live(db.triggers[t])
       || !db.triggers[t].kind.Webhook? || !EventInsertable(db, t, eventId, payload)
    then db
    else db.(events := db.events[row := TriggerEvent(t, eventId, payload, size, Pending, 0, db.now, db.now)])
  }

  // requeue_dead_letter_trigger_event
  function ReplayEvent(db: Db, row: EventRow): Db
    requires row in db.events
  {
    if !db.events[row].status.DeadLettered? then db
    else db.(events := db.events[row := db.events[row].(status := Pending, attempts := 0, nextAttemptAt := db.now)])
  }
}
