// The trigger transactions as operations on the tables, statement by statement, and their connection to
// the scheduler's steps.
module TriggerStore {
  import opened Prelude
  import opened Json
  import opened RunTable
  import opened TriggerTable
  import opened TriggerProtocol

  datatype ReplayOutcome = NotFound | NotDeadLettered | Requeued

  // The event row a replay request names; an event carries the tenant of its trigger.
  predicate Addressed(db: Db, row: EventRow, tenant: Tenant, t: TriggerId, eventId: string)
  {
    && row in db.events && EventKey(db.events[row]) == (t, eventId)
    && t in db.triggers && db.triggers[t].tenant == tenant
  }

  lemma {:induction false} DueKnown(env: Env, db: Db, kind: Kind, t: TriggerId)
    requires Due(env, db, kind, t)
    ensures t in db.triggers
  {
  }

  // Earlier-than on triggers is irreflexive and transitive.
  lemma {:induction false} EarlierTriggerOrder(now: Time)
    ensures forall a :: !EarlierTrigger(a, a, now)
    ensures forall a, b, c :: EarlierTrigger(a, b, now) && EarlierTrigger(b, c, now) ==> EarlierTrigger(a, c, now)
  {
    hide DispatchRank;
  }

  lemma {:induction false} EventDueKnown(env: Env, db: Db)
    ensures forall e :: EventDue(env, db, e) ==> e in db.events && db.events[e].trigger in db.triggers
  {
  }

  // Replacing the head by an earlier event keeps every event already passed over behind it.
  lemma {:induction false} EarlierEventOrder(env: Env, db: Db, e: EventRow, head: EventRow)
    requires EventDue(env, db, e) && EventDue(env, db, head) && EarlierEvent(db, e, head)
    ensures forall x :: x in db.events && EventDue(env, db, x) && !EarlierEvent(db, x, head) ==> !EarlierEvent(db, x, e)
    ensures !EarlierEvent(db, e, e)
  {
    hide DispatchRank;
    hide HasRoom;
  }

  class Store {
    var triggers: map<TriggerId, Trigger>
    var events: map<EventRow, TriggerEvent>
    var ledger: Ledger
    var runs: Runs
    var origin: map<RunId, Origin>

    constructor ()
      ensures forall now :: Init(Snapshot(now))
    {
      triggers, events, ledger, runs, origin := map[], map[], map[], map[], map[];
    }

    function Snapshot(now: Time): Db
      reads this
    {
      Db(now, triggers, events, ledger, runs, origin)
    }

    // The selection query of the cron and interval dispatchers.
    method NextDueTrigger(env: Env, kind: Kind, now: Time) returns (head: Option<TriggerId>)
      ensures SelectsTrigger(env, Snapshot(now), kind, head)
    {
      var db := Snapshot(now);
      head := None;
      var todo := set t | t in triggers && Due(env, db, kind, t);
      while todo != {}
        invariant forall t :: t in todo ==> t in triggers && Due(env, db, kind, t)
        invariant head.Some? ==> Due(env, db, kind, head.value)
        invariant forall u :: u in triggers && Due(env, db, kind, u) && u !in todo ==>
                    head.Some? && !EarlierTrigger(triggers[u], triggers[head.value], now)
        decreases todo
      {
        hide Due;
        hide EarlierTrigger;
        var t :| t in todo;
        todo := todo - {t};
        DueKnown(env, db, kind, t);
        EarlierTriggerOrder(now);
        if head.None? || EarlierTrigger(triggers[t], triggers[head.value], now) {
          head := Some(t);
        }
      }
    }

    // The selection query of the webhook dispatcher.
    method NextDueEvent(env: Env, now: Time) returns (head: Option<EventRow>)
      ensures SelectsEvent(env, Snapshot(now), head)
    {
      var db := Snapshot(now);
      head := None;
      var todo := set e | e in events && EventDue(env, db, e);
      while todo != {}
        invariant forall e :: e in todo ==> e in events && EventDue(env, db, e)
        invariant head.Some? ==> EventDue(env, db, head.value)
        invariant forall x :: x in events && EventDue(env, db, x) && x !in todo ==>
                    head.Some? && !EarlierEvent(db, x, head.value)
        decreases todo
      {
        var e :| e in todo;
        todo := todo - {e};
        EventDueKnown(env, db);
        hide EventDue;
        if head.None? || EarlierEvent(db, e, head.value) {
          if head.Some? {
            EarlierEventOrder(env, db, e, head.value);
          }
          hide EarlierEvent;
          head := Some(e);
        }
      }
    }

    // INSERT INTO trigger_runs: refused by the unique index on (trigger_id, dedupe_key)
    method InsertLedger(key: LedgerKey, row: LedgerRow) returns (ok: bool)
      modifies this`ledger
      ensures ok <==> key !in old(ledger)
      ensures ledger == if ok then old(ledger)[key := row] else old(ledger)
    {
      ok := key !in ledger;
      if ok {
        ledger := ledger[key := row];
      }
    }

    // dispatch_next_due_interval_trigger_with_limits for the selected trigger, undone on a failed insert
    method RunInterval(t: TriggerId, run: RunId, offset: nat, now: Time) returns (reply: Reply)
      requires t in triggers
      modifies this
      ensures (Snapshot(now), reply) == DispatchInterval(old(Snapshot(now)), t, run, offset)
    {
      var tr := triggers[t];
      var slot := tr.nextFireAt;
      var oldTriggers, oldRuns, oldOrigin := triggers, runs, origin;
      if tr.settings.misfire.SkipMissed? && now - slot >= IntervalOf(tr) {
        triggers := triggers[t := tr.(nextFireAt := now + IntervalOf(tr) + offset * SECOND)];
        var recorded := InsertLedger((t, SlotKey(slot)), LedgerRow(None, slot));
        if !recorded {
          triggers := oldTriggers;
          return Aborted;
        }
        return Nothing;
      }
      runs := runs[run := TriggeredRun(Snapshot(now), tr)];
      origin := origin[run := FromSlot(t, slot)];
      triggers := triggers[t := tr.(nextFireAt := slot + IntervalOf(tr) + offset * SECOND)];
      var recorded := InsertLedger((t, SlotKey(slot)), LedgerRow(Some(run), slot));
      if !recorded {
        triggers, runs, origin := oldTriggers, oldRuns, oldOrigin;
        return Aborted;
      }
      reply := Dispatched(run);
    }

    // dispatch_next_due_cron_trigger for the selected trigger
    method RunCron(env: Env, t: TriggerId, run: RunId, offset: nat, now: Time) returns (reply: Reply)
      requires t in triggers
      modifies this
      ensures (Snapshot(now), reply) == DispatchCron(env, old(Snapshot(now)), t, run, offset)
    {
      var tr := triggers[t];
      var slot := tr.nextFireAt;
      var oldTriggers, oldRuns, oldOrigin := triggers, runs, origin;
      var next := env.nextCron(tr.settings.schedule, slot);
      if next.None? {
        triggers := triggers[t := tr.(deadLettered := true)];
        var recorded := InsertLedger((t, SlotKey(slot)), LedgerRow(None, slot));
        if !recorded {
          triggers := oldTriggers;
          return Aborted;
        }
        return Nothing;
      }
      runs := runs[run := TriggeredRun(Snapshot(now), tr)];
      origin := origin[run := FromSlot(t, slot)];
      triggers := triggers[t := tr.(nextFireAt := next.value + offset * SECOND)];
      var recorded := InsertLedger((t, SlotKey(slot)), LedgerRow(Some(run), slot));
      if !recorded {
        triggers, runs, origin := oldTriggers, oldRuns, oldOrigin;
        return Aborted;
      }
      reply := Dispatched(run);
    }

    // dispatch_next_due_webhook_event for the selected event
    method RunWebhook(row: EventRow, run: RunId, now: Time) returns (reply: Reply)
      requires row in events && events[row].trigger in triggers
      modifies this
      ensures (Snapshot(now), reply) == DispatchWebhook(old(Snapshot(now)), row, run)
    {
      var e := events[row];
      var tr := triggers[e.trigger];
      var oldEvents, oldRuns, oldOrigin := events, runs, origin;
      if e.size > MAX_EVENT_PAYLOAD_BYTES {
        var deadLetter := e.attempts + 1 >= tr.settings.maxAttempts;
        events := events[row := e.(attempts := e.attempts + 1,
                                   status := if deadLetter then DeadLettered else e.status,
                                   nextAttemptAt := if deadLetter then now else now + 30 * SECOND)];
        var recorded := InsertLedger(EventKey(e), LedgerRow(None, now));
        if !recorded {
          events := oldEvents;
          return Aborted;
        }
        return Nothing;
      }
      runs := runs[run := TriggeredRun(Snapshot(now), tr)];
      origin := origin[run := FromEvent(e.trigger, e.eventId)];
      events := events[row := e.(attempts := e.attempts + 1, status := Processed, nextAttemptAt := now)];
      var recorded := InsertLedger(EventKey(e), LedgerRow(Some(run), now));
      if !recorded {
        events, runs, origin := oldEvents, oldRuns, oldOrigin;
        return Aborted;
      }
      reply := Dispatched(run);
    }

    /** One dispatcher call: each query picks a first row of what is due at that point, and the tables end
        as the composed transactions say. */
    method DispatchNext(env: Env, run: RunId, offsets: Offsets, now: Time) returns (reply: Reply, heads: Heads)
      modifies this
      ensures Selects(env, old(Snapshot(now)), heads, run, offsets)
      ensures (Snapshot(now), reply) == TriggerTable.DispatchNext(env, old(Snapshot(now)), heads, run, offsets)
    {
      hide HasRoom;
      hide DispatchWebhook;
      hide DispatchCron;
      hide DispatchInterval;
      hide EarlierEvent;
      hide EarlierTrigger;
      heads := Heads(None, None, None);
      reply := Nothing;
      var event := NextDueEvent(env, now);
      heads := heads.(event := event);
      if event.Some? {
        reply := RunWebhook(event.value, run, now);
        if !reply.Nothing? {
          return;
        }
      }
      var cron := NextDueTrigger(env, Cron, now);
      heads := heads.(cron := cron);
      if cron.Some? {
        reply := RunCron(env, cron.value, run, offsets.cron, now);
        if !reply.Nothing? {
          return;
        }
      }
      var interval := NextDueTrigger(env, Interval, now);
      heads := heads.(interval := interval);
      if interval.Some? {
        reply := RunInterval(interval.value, run, offsets.interval, now);
      }
    }

    // fire_trigger_manually_with_limits
    method FireManually(env: Env, t: TriggerId, tenant: Tenant, key: string, run: RunId, now: Time)
      returns (reply: FireReply)
      modifies this
      ensures (Snapshot(now), reply) == TriggerTable.FireManually(env, old(Snapshot(now)), t, tenant, key, run)
    {
      var db := Snapshot(now);
      if t !in triggers || triggers[t].tenant != tenant || !Live(triggers[t]) {
        return Unavailable;
      }
      if (t, ManualKey(key)) in ledger {
        return Duplicate(ledger[(t, ManualKey(key))].run);
      }
      if |TriggerInflight(db, t)| >= triggers[t].settings.maxInflight || |TenantInflight(db, tenant)| >= TenantCap(env) {
        return Limited;
      }
      runs := runs[run := TriggeredRun(db, triggers[t])];
      origin := origin[run := FromManual(t, key)];
      var recorded := InsertLedger((t, ManualKey(key)), LedgerRow(Some(run), now));
      assert recorded;
      reply := FireCreated(run);
    }

    // update_trigger_config, with the time read before the row is written
    method UpdateConfig(env: Env, tenant: Tenant, t: TriggerId, s: Settings, computedAt: Time, offset: nat, now: Time)
      returns (found: bool)
      modifies this
      ensures found ==> t in old(triggers) && old(triggers)[t].tenant == tenant &&
                        Snapshot(now) == TriggerTable.UpdateConfig(env, old(Snapshot(now)), t, s, computedAt, offset)
      ensures !found ==> Snapshot(now) == old(Snapshot(now)) &&
                         (t in triggers && triggers[t].tenant == tenant ==>
                            RecomputedFireAt(env, triggers[t], s, computedAt).None?)
    {
      if t !in triggers || triggers[t].tenant != tenant {
        return false;
      }
      var next := RecomputedFireAt(env, triggers[t], s, computedAt);
      if next.None? {
        return false;
      }
      triggers := triggers[t := triggers[t].(settings := s, nextFireAt := next.value + offset * SECOND)];
      found := true;
    }

    // enqueue_trigger_event
    method Enqueue(row: EventRow, t: TriggerId, tenant: Tenant, eventId: string, payload: Json, size: nat, now: Time)
      returns (enqueued: bool)
      requires row !in events
      modifies this
      ensures Snapshot(now) == EnqueueEvent(old(Snapshot(now)), row, t, tenant, eventId, payload, size)
      ensures enqueued <==> row in events
    {
      if !payload.Obj? || t !in triggers || triggers[t].tenant != tenant || !triggers[t].enabled
         || !triggers[t].kind.Webhook? || triggers[t].deadLettered {
        return false;
      }
      enqueued := forall x :: x in events ==> !SameEvent(events[x], t, eventId, payload);
      if enqueued {
        events := events[row := TriggerEvent(t, eventId, payload, size, Pending, 0, now, now)];
      }
    }

    // requeue_dead_letter_trigger_event
    method Replay(tenant: Tenant, t: TriggerId, eventId: string, now: Time) returns (outcome: ReplayOutcome)
      modifies this
      ensures outcome.NotFound? <==> forall x :: x in old(events) ==> !Addressed(old(Snapshot(now)), x, tenant, t, eventId)
      ensures !outcome.Requeued? ==> Snapshot(now) == old(Snapshot(now))
      ensures !outcome.NotFound? ==>
                exists row :: row in old(events) && Addressed(old(Snapshot(now)), row, tenant, t, eventId) &&
                              (outcome.Requeued? <==> old(events)[row].status.DeadLettered?) &&
                              Snapshot(now) == ReplayEvent(old(Snapshot(now)), row)
    {
      var matching := set x | x in events && Addressed(Snapshot(now), x, tenant, t, eventId);
      if matching == {} {
        assert forall x :: x in events && Addressed(Snapshot(now), x, tenant, t, eventId) ==> x in matching;
        return NotFound;
      }
      var row :| row in matching;
      if !events[row].status.DeadLettered? {
        return NotDeadLettered;
      }
      events := events[row := events[row].(status := Pending, attempts := 0, nextAttemptAt := now)];
      outcome := Requeued;
    }
  }

  // ---------------------------------------------------------------------------------------------
  // A dispatcher call is a run of scheduler steps
  // ---------------------------------------------------------------------------------------------

  // Some execution of the scheduler ends in this state.
  ghost predicate Reachable(env: Env, db: Db)
  {
    exists states, steps :: Execution(env, states, steps) && states[|steps|] == db
  }

  lemma {:induction false} StepReaches(env: Env, db: Db, step: Step)
    requires Reachable(env, db) && Enabled(env, db, step)
    ensures Reachable(env, Apply(env, db, step))
  {
    hide Enabled;
    hide Apply;
    var states, steps :| Execution(env, states, steps) && states[|steps|] == db;
    var db' := Apply(env, db, step);
    var states', steps' := states + [db'], steps + [step];
    forall i | 0 <= i < |steps'|
      ensures StepTaken(env, states'[i], steps'[i], states'[i + 1])
    {
      if i < |steps| {
        assert StepTaken(env, states[i], steps[i], states[i + 1]);
      }
    }
    assert Execution(env, states', steps') && states'[|steps'|] == db';
  }

  ghost predicate OffsetsFit(db: Db, h: Heads, offsets: Offsets)
  {
    && (h.cron.Some? && h.cron.value in db.triggers ==>
          JitterOffset(db.triggers[h.cron.value].settings.jitterSeconds, offsets.cron))
    && (h.interval.Some? && h.interval.value in db.triggers ==>
          JitterOffset(db.triggers[h.interval.value].settings.jitterSeconds, offsets.interval))
  }

  lemma {:induction false} WebhookReaches(env: Env, db: Db, h: Heads, run: RunId)
    requires Reachable(env, db) && SelectsEvent(env, db, h.event) && run !in db.runs
    ensures Reachable(env, WebhookCall(db, h, run).0)
    ensures WebhookCall(db, h, run).1.Nothing? ==>
              WebhookCall(db, h, run).0.triggers == db.triggers && WebhookCall(db, h, run).0.runs == db.runs
  {
    hide Reachable;
    hide HasRoom;
    hide EarlierEvent;
    if h.event.Some? {
      StepReaches(env, db, FireWebhook(h.event.value, run));
    }
  }

  lemma {:induction false} CronReaches(env: Env, db: Db, h: Heads, run: RunId, offsets: Offsets)
    requires Reachable(env, db) && SelectsTrigger(env, db, Cron, h.cron) && run !in db.runs && OffsetsFit(db, h, offsets)
    ensures Reachable(env, CronCall(env, db, h, run, offsets.cron).0)
    ensures CronCall(env, db, h, run, offsets.cron).1.Nothing? ==>
              var db' := CronCall(env, db, h, run, offsets.cron).0;
              db'.runs == db.runs && OffsetsFit(db', h, offsets)
  {
    hide Reachable;
    hide HasRoom;
    hide EarlierTrigger;
    if h.cron.Some? {
      StepReaches(env, db, FireCron(h.cron.value, run, offsets.cron));
    }
  }

  lemma {:induction false} IntervalReaches(env: Env, db: Db, h: Heads, run: RunId, offsets: Offsets)
    requires Reachable(env, db) && SelectsTrigger(env, db, Interval, h.interval) && run !in db.runs && OffsetsFit(db, h, offsets)
    ensures Reachable(env, IntervalCall(db, h, run, offsets.interval).0)
  {
    hide Reachable;
    hide HasRoom;
    hide EarlierTrigger;
    if h.interval.Some? {
      StepReaches(env, db, FireInterval(h.interval.value, run, offsets.interval));
    }
  }

  /** Whatever a dispatcher call leaves behind is reached by steps of the scheduler, so that everything
      proved of all executions holds after it. */
  lemma {:induction false} DispatchStaysReachable(env: Env, db: Db, h: Heads, run: RunId, offsets: Offsets)
    requires Reachable(env, db) && run !in db.runs
    requires Selects(env, db, h, run, offsets) && OffsetsFit(db, h, offsets)
    ensures Reachable(env, TriggerTable.DispatchNext(env, db, h, run, offsets).0)
  {
    hide Reachable;
    hide WebhookCall;
    hide CronCall;
    hide IntervalCall;
    hide SelectsEvent;
    hide SelectsTrigger;
    WebhookReaches(env, db, h, run);
    var webhook := WebhookCall(db, h, run);
    if webhook.1.Nothing? {
      CronReaches(env, webhook.0, h, run, offsets);
      var cron := CronCall(env, webhook.0, h, run, offsets.cron);
      if cron.1.Nothing? {
        IntervalReaches(env, cron.0, h, run, offsets);
      }
    }
  }
}
