// What the trigger statements promise their callers, in terms of the columns alone.
module DispatchTerms {
  import opened Prelude
  import opened Text
  import opened Json
  import opened RunTable
  import opened TriggerTable
  import opened TriggerProtocol

  // A run waiting to be claimed for the first time, for the trigger's tenant and in its class.
  function Queue(tr: Trigger, now: Time): Run
  {
    Run(tr.tenant, Queued, 0, None, None, now, None, None, tr.queueClass, tr.llmQueueClass, None)
  }

  predicate Unfinished(runs: Runs, r: RunId)
  {
    r in runs && (runs[r].status.Queued? || runs[r].status.Running?)
  }

  // Enabled, not dead-lettered, and with fewer unfinished runs than both limits allow.
  predicate MayFire(env: Env, db: Db, t: TriggerId)
  {
    && t in db.triggers && db.triggers[t].enabled && !db.triggers[t].deadLettered
    && |set k | k in db.ledger && k.0 == t && db.ledger[k].run.Some? && Unfinished(db.runs, db.ledger[k].run.value)|
       < db.triggers[t].settings.maxInflight
    && |set r | r in db.runs && db.runs[r].tenant == db.triggers[t].tenant && Unfinished(db.runs, r)|
       < (if env.tenantMax < 1 then 1 else env.tenantMax)
  }

  lemma {:induction false} MayFireMeaning(env: Env, db: Db, t: TriggerId)
    ensures MayFire(env, db, t) <==> t in db.triggers && Live(db.triggers[t]) && HasRoom(env, db, t)
  {
    if t in db.triggers {
      assert (set k | k in db.ledger && k.0 == t && db.ledger[k].run.Some? && Unfinished(db.runs, db.ledger[k].run.value))
          == TriggerInflight(db, t);
      assert (set r | r in db.runs && db.runs[r].tenant == db.triggers[t].tenant && Unfinished(db.runs, r))
          == TenantInflight(db, db.triggers[t].tenant);
    }
  }

  // ---------------------------------------------------------------------------------------------
  // Dispatches
  // ---------------------------------------------------------------------------------------------

  /** An interval trigger waiting for a free slot fires it exactly when its policy is fire_now or less than one
      interval has passed, and then waits for the slot one interval on; otherwise it records the slot without
      a run and waits one interval from now. The jitter comes on top, and nothing else changes. */
  lemma {:induction false} IntervalTerms(db: Db, t: TriggerId, run: RunId, offset: nat)
    requires t in db.triggers && (t, Decimal(db.triggers[t].nextFireAt)) !in db.ledger
    ensures var tr := db.triggers[t]; var slot := tr.nextFireAt; var period := tr.settings.intervalSeconds * 1_000_000_000;
            var fires := tr.settings.misfire.FireNow? || db.now - slot < period;
            var next := (if fires then slot else db.now) + period + offset * 1_000_000_000;
            var (db', reply) := DispatchInterval(db, t, run, offset);
            && reply == (if fires then Dispatched(run) else Nothing)
            && db'.triggers == db.triggers[t := tr.(nextFireAt := next)]
            && db'.runs == (if fires then db.runs[run := Queue(tr, db.now)] else db.runs)
            && db'.ledger == db.ledger[(t, Decimal(slot)) := LedgerRow(if fires then Some(run) else None, slot)]
            && db'.events == db.events && db'.now == db.now
  {
    hide Decimal;
  }

  /** A cron trigger waiting for a free slot fires it exactly when its schedule has a next time, and then waits
      for that; otherwise it records the slot without a run and is dead-lettered. */
  lemma {:induction false} CronTerms(env: Env, db: Db, t: TriggerId, run: RunId, offset: nat)
    requires t in db.triggers && (t, Decimal(db.triggers[t].nextFireAt)) !in db.ledger
    ensures var tr := db.triggers[t]; var slot := tr.nextFireAt; var next := env.nextCron(tr.settings.schedule, slot);
            var (db', reply) := DispatchCron(env, db, t, run, offset);
            && reply == (if next.Some? then Dispatched(run) else Nothing)
            && db'.triggers == db.triggers[t := if next.Some? then tr.(nextFireAt := next.value + offset * 1_000_000_000)
                                                else tr.(deadLettered := true)]
            && db'.runs == (if next.Some? then db.runs[run := Queue(tr, db.now)] else db.runs)
            && db'.ledger == db.ledger[(t, Decimal(slot)) := LedgerRow(if next.Some? then Some(run) else None, slot)]
            && db'.events == db.events && db'.now == db.now
  {
    hide Decimal;
  }

  /** An event whose key is free is fired and processed exactly when its payload is at most 64 KiB; a larger one
      gets a ledger row without a run and is due again after thirty seconds, or given up on its last attempt. */
  lemma {:induction false} WebhookTerms(db: Db, row: EventRow, run: RunId)
    requires row in db.events && db.events[row].trigger in db.triggers
    requires (db.events[row].trigger, db.events[row].eventId) !in db.ledger
    ensures var e := db.events[row]; var fits := e.size <= 65_536;
            var last := e.attempts + 1 >= db.triggers[e.trigger].settings.maxAttempts;
            var (db', reply) := DispatchWebhook(db, row, run);
            && reply == (if fits then Dispatched(run) else Nothing)
            && db'.events ==
               db.events[row := e.(attempts := e.attempts + 1,
                                   status := if fits then Processed else if last then DeadLettered else e.status,
                                   nextAttemptAt := if fits || last then db.now else db.now + 30_000_000_000)]
            && db'.runs == (if fits then db.runs[run := Queue(db.triggers[e.trigger], db.now)] else db.runs)
            && db'.ledger == db.ledger[(e.trigger, e.eventId) := LedgerRow(if fits then Some(run) else None, db.now)]
            && db'.triggers == db.triggers && db'.now == db.now
  {
  }

  /** A dispatch whose ledger key is taken changes nothing, for all three kinds. */
  lemma {:induction false} TakenKeyAborts(env: Env, db: Db, t: TriggerId, row: EventRow, run: RunId, offset: nat)
    ensures t in db.triggers && (t, Decimal(db.triggers[t].nextFireAt)) in db.ledger ==>
              DispatchInterval(db, t, run, offset) == (db, Aborted) && DispatchCron(env, db, t, run, offset) == (db, Aborted)
    ensures row in db.events && db.events[row].trigger in db.triggers &&
            (db.events[row].trigger, db.events[row].eventId) in db.ledger ==>
              DispatchWebhook(db, row, run) == (db, Aborted)
  {
    hide Decimal;
  }

  /** A manual fire with an unused key creates a queued run exactly when the trigger of that tenant may fire, is
      refused for its limits when only those stand in the way, and leaves the schedule alone. */
  lemma {:induction false} ManualTerms(env: Env, db: Db, t: TriggerId, tenant: Tenant, key: string, run: RunId)
    requires (t, "manual:" + key) !in db.ledger
    ensures var (db', reply) := FireManually(env, db, t, tenant, key, run);
            && (reply == FireCreated(run) <==> MayFire(env, db, t) && db.triggers[t].tenant == tenant)
            && (reply.Limited? <==> t in db.triggers && db.triggers[t].tenant == tenant && db.triggers[t].enabled &&
                                    !db.triggers[t].deadLettered && !MayFire(env, db, t))
            && (reply.FireCreated? ==>
                  db' == db.(runs := db.runs[run := Queue(db.triggers[t], db.now)],
                             ledger := db.ledger[(t, "manual:" + key) := LedgerRow(Some(run), db.now)],
                             origin := db.origin[run := FromManual(t, key)]))
            && (!reply.FireCreated? ==> db' == db && !reply.Duplicate?)
  {
    MayFireMeaning(env, db, t);
    hide HasRoom;
    hide MayFire;
  }

  // ---------------------------------------------------------------------------------------------
  // Events and settings
  // ---------------------------------------------------------------------------------------------

  /** An event is taken in exactly when its payload is an object, its trigger is an enabled webhook trigger of the
      tenant that is not dead-lettered, and no event of the trigger has the id or the same canonical payload;
      it is then due at once, unattempted. */
  lemma {:induction false} EnqueueTerms(db: Db, row: EventRow, t: TriggerId, tenant: Tenant, eventId: string, payload: Json, size: nat)
    requires row !in db.events
    ensures var taken := && payload.Obj? && t in db.triggers && db.triggers[t].tenant == tenant && db.triggers[t].enabled
                         && !db.triggers[t].deadLettered && db.triggers[t].kind.Webhook?
                         && forall x :: x in db.events && db.events[x].trigger == t ==>
                              db.events[x].eventId != eventId && Canon(db.events[x].payload) != Canon(payload);
            EnqueueEvent(db, row, t, tenant, eventId, payload, size) ==
            if taken then db.(events := db.events[row := TriggerEvent(t, eventId, payload, size, Pending, 0, db.now, db.now)])
            else db
  {
    hide Canon;
  }

  /** A replay makes a dead-lettered event due at once with all its attempts, and touches no other event. */
  lemma {:induction false} ReplayTerms(db: Db, row: EventRow)
    requires row in db.events
    ensures var e := db.events[row];
            ReplayEvent(db, row) ==
            db.(events := db.events[row := if e.status.DeadLettered? then
                                             e.(status := Pending, attempts := 0, nextAttemptAt := db.now) else e])
  {
  }

  /** An update replaces the settings; an interval trigger then waits one new interval from the instant the
      update was computed, a cron trigger for the next time of the new schedule, a webhook trigger as before,
      each with the jitter on top. A schedule without a next time is refused. */
  lemma {:induction false} ConfigureTerms(env: Env, db: Db, t: TriggerId, s: Settings, computedAt: Time, offset: nat)
    requires t in db.triggers
    ensures var tr := db.triggers[t];
            var next := if tr.kind.Interval? then Some(computedAt + s.intervalSeconds * 1_000_000_000)
                        else if tr.kind.Cron? then env.nextCron(s.schedule, computedAt) else Some(tr.nextFireAt);
            UpdateConfig(env, db, t, s, computedAt, offset) ==
            if next.None? then db
            else db.(triggers := db.triggers[t := tr.(settings := s, nextFireAt := next.value + offset * 1_000_000_000)])
  {
  }

  /** The jitter drawn is at most the trigger's own, and none without one. */
  lemma {:induction false} JitterTerms(env: Env, db: Db, step: Step)
    requires Enabled(env, db, step)
    ensures step.FireInterval? || step.FireCron? ==>
              step.t in db.triggers && 0 <= step.offset <= Max(db.triggers[step.t].settings.jitterSeconds, 0)
    ensures step.Configure? ==> 0 <= step.offset <= Max(step.settings.jitterSeconds, 0)
  {
    hide HasRoom;
  }

  // ---------------------------------------------------------------------------------------------
  // Who is served first
  // ---------------------------------------------------------------------------------------------

  lemma {:induction false} DispatchRankMeaning(tr: Trigger, since: Time, now: Time)
    ensures DispatchRank(tr, since, now) == if YoungBatch(tr.queueClass, tr.llmQueueClass, since, now) then 1 else 0
  {
    hide InClass;
    hide QueueClass;
    ClassMeaning(tr.queueClass, tr.llmQueueClass, "batch");
    assert "batch" != "interactive";
  }

  // Its time has come, and it may fire.
  predicate Waits(env: Env, db: Db, kind: Kind, t: TriggerId)
  {
    MayFire(env, db, t) && db.triggers[t].kind == kind && db.triggers[t].nextFireAt <= db.now
  }

  /** The scheduled dispatchers serve a waiting trigger if there is one; batch work less than fifteen minutes late
      never goes before other work, and among triggers alike in this the one due longest goes first, then the
      older one. */
  lemma {:induction false} TriggerOrder(env: Env, db: Db, kind: Kind, head: Option<TriggerId>, u: TriggerId)
    requires SelectsTrigger(env, db, kind, head) && Waits(env, db, kind, u)
    ensures head.Some? && Waits(env, db, kind, head.value)
    ensures var a, b := db.triggers[head.value], db.triggers[u];
            var youngA := YoungBatch(a.queueClass, a.llmQueueClass, a.nextFireAt, db.now);
            var youngB := YoungBatch(b.queueClass, b.llmQueueClass, b.nextFireAt, db.now);
            && (youngA ==> youngB)
            && (youngA == youngB ==> a.nextFireAt <= b.nextFireAt)
            && (youngA == youngB && a.nextFireAt == b.nextFireAt ==> a.createdAt <= b.createdAt)
  {
    MayFireMeaning(env, db, u);
    if head.Some? {
      MayFireMeaning(env, db, head.value);
      DispatchRankMeaning(db.triggers[head.value], db.triggers[head.value].nextFireAt, db.now);
    }
    DispatchRankMeaning(db.triggers[u], db.triggers[u].nextFireAt, db.now);
    hide HasRoom;
    hide MayFire;
    hide DispatchRank;
    hide YoungBatch;
    assert Due(env, db, kind, u);
  }

  // Pending, its time has come, and its webhook trigger may fire.
  predicate EventWaits(env: Env, db: Db, e: EventRow)
  {
    && e in db.events && db.events[e].status.Pending? && db.events[e].nextAttemptAt <= db.now
    && MayFire(env, db, db.events[e].trigger) && db.triggers[db.events[e].trigger].kind.Webhook?
  }

  // Batch work enqueued less than fifteen minutes ago.
  predicate YoungEvent(db: Db, e: TriggerEvent)
  {
    e.trigger in db.triggers &&
    YoungBatch(db.triggers[e.trigger].queueClass, db.triggers[e.trigger].llmQueueClass, e.createdAt, db.now)
  }

  /** The webhook dispatcher serves a waiting event if there is one, in the same order by the events' age. */
  lemma {:induction false} EventOrder(env: Env, db: Db, head: Option<EventRow>, x: EventRow)
    requires SelectsEvent(env, db, head) && EventWaits(env, db, x)
    ensures head.Some? && EventWaits(env, db, head.value)
    ensures var a, b := db.events[head.value], db.events[x];
            var youngA, youngB := YoungEvent(db, a), YoungEvent(db, b);
            && (youngA ==> youngB)
            && (youngA == youngB ==> a.createdAt <= b.createdAt)
            && (youngA == youngB && a.createdAt == b.createdAt ==> head.value <= x)
  {
    MayFireMeaning(env, db, db.events[x].trigger);
    if head.Some? && head.value in db.events && db.events[head.value].trigger in db.triggers {
      MayFireMeaning(env, db, db.events[head.value].trigger);
      DispatchRankMeaning(db.triggers[db.events[head.value].trigger], db.events[head.value].createdAt, db.now);
    }
    DispatchRankMeaning(db.triggers[db.events[x].trigger], db.events[x].createdAt, db.now);
    hide HasRoom;
    hide MayFire;
    hide DispatchRank;
    hide YoungBatch;
    assert EventDue(env, db, x);
  }

  // ---------------------------------------------------------------------------------------------
  // Disabled triggers
  // ---------------------------------------------------------------------------------------------

  lemma {:induction false} FiredMayFire(env: Env, db: Db, step: Step, r: RunId)
    requires Enabled(env, db, step) && r !in db.origin && r in Apply(env, db, step).origin
    ensures IsFire(step) && MayFire(env, db, Apply(env, db, step).origin[r].trigger)
  {
    var eff := StepEffect(env, db, step);
    if eff.Fired? {
      MayFireMeaning(env, db, eff.origin.trigger);
    }
    hide Enabled;
    hide Apply;
    hide MayFire;
    hide HasRoom;
  }

  /** In every execution a run comes from a trigger only in a state in which that trigger is enabled, not
      dead-lettered, and below both limits. */
  lemma {:induction false} OnlyLiveTriggersFire(env: Env, states: seq<Db>, steps: seq<Step>, i: nat, r: RunId)
    requires Execution(env, states, steps) && i < |steps| && r !in states[i].origin && r in states[i + 1].origin
    ensures MayFire(env, states[i], states[i + 1].origin[r].trigger)
  {
    assert StepTaken(env, states[i], steps[i], states[i + 1]);
    hide Enabled;
    hide Apply;
    hide MayFire;
    FiredMayFire(env, states[i], steps[i], r);
  }
}
