// The schedule slots of interval and cron triggers: fired once each, in order, with bounded catch-up.
module TriggerSlots {
  import opened Prelude
  import opened Text
  import opened RunTable
  import opened TriggerTable
  import opened TriggerProtocol

  // ---------------------------------------------------------------------------------------------
  // Every recorded slot lies before the next one
  // ---------------------------------------------------------------------------------------------

  predicate IsManualKey(key: string)
  {
    StartsWith(key, MANUAL_PREFIX)
  }

  // A dispatcher row of a scheduled trigger: named by its slot, in the past, before next_fire_at
  // (unless the schedule itself broke, after which the trigger never fires again).
  predicate SlotRowOk(db: Db, k: LedgerKey)
    requires k in db.ledger
  {
    k.0 in db.triggers && !db.triggers[k.0].kind.Webhook? && !IsManualKey(k.1) ==>
      var slot := db.ledger[k].scheduledFor;
      && k.1 == SlotKey(slot) && slot <= db.now
      && (db.triggers[k.0].deadLettered || slot < db.triggers[k.0].nextFireAt)
  }

  predicate SlotInv(db: Db)
  {
    && (forall k :: k in db.ledger ==> k.0 in db.triggers && SlotRowOk(db, k))
    && (forall t :: t in db.triggers ==> SettingsOk(db.triggers[t].kind, db.triggers[t].settings))
  }

  // The time a configuration update writes is still in the future when it commits.
  predicate TimelyUpdate(env: Env, db: Db, step: Step)
  {
    step.Configure? && step.t in db.triggers && !db.triggers[step.t].kind.Webhook? ==>
      var next := RecomputedFireAt(env, db.triggers[step.t], step.settings, step.computedAt);
      next.Some? ==> next.value > db.now
  }

  // Triggers only move forward: a schedule never returns to a slot at or before its old one, unless
  // to a time still in the future.
  predicate Advances(db: Db, db': Db)
  {
    && db.now <= db'.now
    && (forall t :: t in db.triggers ==>
          && t in db'.triggers && db'.triggers[t].kind == db.triggers[t].kind
          && (db.triggers[t].deadLettered ==> db'.triggers[t].deadLettered)
          && (db'.triggers[t].nextFireAt >= db.triggers[t].nextFireAt || db'.triggers[t].nextFireAt > db.now))
    && (forall t :: t in db'.triggers ==> SettingsOk(db'.triggers[t].kind, db'.triggers[t].settings))
  }

  lemma {:induction false} SlotFrame(db: Db, db': Db)
    requires SlotInv(db) && Advances(db, db') && db'.ledger == db.ledger
    ensures SlotInv(db')
  {
    hide SlotKey;
    hide IsManualKey;
    forall k | k in db.ledger
      ensures k.0 in db'.triggers && SlotRowOk(db', k)
    {
      assert SlotRowOk(db, k);
    }
  }

  // Adding one ledger row to an advancing step.
  lemma {:induction false} SlotAdd(db: Db, db': Db, key: LedgerKey, row: LedgerRow)
    requires SlotInv(db) && Advances(db, db') && db'.ledger == db.ledger[key := row] && key.0 in db.triggers
    requires SlotRowOk(db', key)
    ensures SlotInv(db')
  {
    SlotFrame(db, db'.(ledger := db.ledger));
    forall k | k in db'.ledger
      ensures k.0 in db'.triggers && SlotRowOk(db', k)
    {
      assert k != key ==> SlotRowOk(db'.(ledger := db.ledger), k);
    }
  }

  // Firing or skipping slot `at` and moving on to a later one.
  lemma {:induction false} SlotMove(db: Db, db': Db, t: TriggerId, row: LedgerRow)
    requires SlotInv(db) && t in db.triggers && !db.triggers[t].kind.Webhook?
    requires row.scheduledFor == db.triggers[t].nextFireAt <= db.now
    requires db'.ledger == db.ledger[(t, SlotKey(row.scheduledFor)) := row] && db'.now == db.now
    requires t in db'.triggers && db'.triggers == db.triggers[t := db'.triggers[t]]
    requires db'.triggers[t].kind == db.triggers[t].kind && db'.triggers[t].settings == db.triggers[t].settings
    requires db'.triggers[t].nextFireAt >= db.triggers[t].nextFireAt
    requires db.triggers[t].deadLettered ==> db'.triggers[t].deadLettered
    requires db'.triggers[t].deadLettered || row.scheduledFor < db'.triggers[t].nextFireAt
    ensures SlotInv(db')
  {
    hide SlotKey;
    hide IsManualKey;
    SlotAdd(db, db', (t, SlotKey(row.scheduledFor)), row);
  }

  lemma {:induction false} SlotOriginKey(t: TriggerId, slot: Time)
    ensures OriginKey(FromSlot(t, slot)) == (t, SlotKey(slot))
  {
  }

  lemma {:induction false} IntervalSlot(db: Db, t: TriggerId, run: RunId, offset: nat)
    requires SlotInv(db) && t in db.triggers && db.triggers[t].kind.Interval? && db.triggers[t].nextFireAt <= db.now
    ensures SlotInv(DispatchInterval(db, t, run, offset).0)
  {
    hide SlotKey;
    SettingsKnown(db);
    hide SlotInv;
    hide OriginKey;
    IntervalTouches(db, t, run, offset);
    var db' := DispatchInterval(db, t, run, offset).0;
    var key := (t, SlotKey(db.triggers[t].nextFireAt));
    SlotOriginKey(t, db.triggers[t].nextFireAt);
    if key !in db.ledger {
      assert IntervalOf(db.triggers[t]) > 0 && offset * SECOND >= 0;
      SlotMove(db, db', t, db'.ledger[key]);
    }
  }

  lemma {:induction false} CronSlot(env: Env, db: Db, t: TriggerId, run: RunId, offset: nat)
    requires SlotInv(db) && CronAdvances(env)
    requires t in db.triggers && db.triggers[t].kind.Cron? && db.triggers[t].nextFireAt <= db.now
    ensures SlotInv(DispatchCron(env, db, t, run, offset).0)
  {
    hide SlotKey;
    hide SlotInv;
    var db' := DispatchCron(env, db, t, run, offset).0;
    var key := (t, SlotKey(db.triggers[t].nextFireAt));
    if key !in db.ledger {
      assert offset * SECOND >= 0;
      SlotMove(db, db', t, db'.ledger[key]);
    }
  }

  lemma {:induction false} WebhookSlot(db: Db, row: EventRow, run: RunId)
    requires SlotInv(db) && row in db.events && db.events[row].trigger in db.triggers
    requires db.triggers[db.events[row].trigger].kind.Webhook?
    ensures SlotInv(DispatchWebhook(db, row, run).0)
  {
    var db' := DispatchWebhook(db, row, run).0;
    var key := EventKey(db.events[row]);
    if key !in db.ledger {
      SlotAdd(db, db', key, db'.ledger[key]);
    }
  }

  lemma {:induction false} ManualSlot(env: Env, db: Db, t: TriggerId, tenant: Tenant, key: string, run: RunId)
    requires SlotInv(db)
    ensures SlotInv(FireManually(env, db, t, tenant, key, run).0)
  {
    var r := FireManually(env, db, t, tenant, key, run);
    if r.1.FireCreated? {
      SlotAdd(db, r.0, (t, ManualKey(key)), r.0.ledger[(t, ManualKey(key))]);
    }
  }

  // The step's own trigger, if it is not a dispatch.
  lemma {:induction false} OwnTrigger(env: Env, db: Db, step: Step, t: TriggerId)
    requires Enabled(env, db, step) && TimelyUpdate(env, db, step) && !IsFire(step) && Some(t) == TriggerOf(step)
    ensures t in db.triggers || step.CreateTrigger?
    ensures var db' := Apply(env, db, step);
            && t in db'.triggers && db'.now == db.now
            && (t in db.triggers ==>
                  && db'.triggers[t].kind == db.triggers[t].kind
                  && (db.triggers[t].deadLettered ==> db'.triggers[t].deadLettered)
                  && (db'.triggers[t].nextFireAt >= db.triggers[t].nextFireAt || db'.triggers[t].nextFireAt > db.now)
                  && (db'.triggers[t].settings == db.triggers[t].settings ||
                      SettingsOk(db'.triggers[t].kind, db'.triggers[t].settings)))
            && (t !in db.triggers ==> SettingsOk(db'.triggers[t].kind, db'.triggers[t].settings))
  {
    assert step.Configure? ==> step.offset * SECOND >= 0;
  }

  lemma {:induction false} QuietOnLedger(env: Env, db: Db, step: Step)
    requires Enabled(env, db, step) && !IsFire(step)
    ensures Apply(env, db, step).ledger == db.ledger && db.now <= Apply(env, db, step).now
  {
    hide RequeueAllowed;
    hide RequeueAll;
    hide EventInsertable;
    hide InsertAllowed;
    hide RecomputedFireAt;
  }

  lemma {:induction false} TableSlots(env: Env, db: Db, step: Step)
    requires Enabled(env, db, step) && SlotInv(db) && TimelyUpdate(env, db, step) && !IsFire(step)
    ensures SlotInv(Apply(env, db, step))
  {
    SettingsKnown(db);
    hide SlotInv;
    hide Enabled;
    hide Apply;
    var db' := Apply(env, db, step);
    QuietOnLedger(env, db, step);
    forall t
      ensures t in db.triggers ==>
                && t in db'.triggers && db'.triggers[t].kind == db.triggers[t].kind
                && (db.triggers[t].deadLettered ==> db'.triggers[t].deadLettered)
                && (db'.triggers[t].nextFireAt >= db.triggers[t].nextFireAt || db'.triggers[t].nextFireAt > db.now)
      ensures t in db'.triggers ==> SettingsOk(db'.triggers[t].kind, db'.triggers[t].settings)
    {
      if Some(t) == TriggerOf(step) {
        OwnTrigger(env, db, step, t);
      } else {
        OtherTriggersKept(env, db, step, t);
      }
    }
    SlotFrame(db, db');
  }

  lemma {:induction false} SettingsKnown(db: Db)
    requires SlotInv(db)
    ensures forall t :: t in db.triggers ==> SettingsOk(db.triggers[t].kind, db.triggers[t].settings)
  {
  }

  lemma {:induction false} SlotStep(env: Env, db: Db, step: Step)
    requires CronAdvances(env) && Enabled(env, db, step) && SlotInv(db) && TimelyUpdate(env, db, step)
    ensures SlotInv(Apply(env, db, step))
  {
    hide SlotInv;
    hide DispatchInterval;
    hide DispatchCron;
    hide DispatchWebhook;
    hide FireManually;
    hide HasRoom;
    match step
    case FireInterval(t, run, offset) => IntervalSlot(db, t, run, offset);
    case FireCron(t, run, offset) => CronSlot(env, db, t, run, offset);
    case FireWebhook(row, run) => WebhookSlot(db, row, run);
    case FireManual(t, tenant, key, run) => ManualSlot(env, db, t, tenant, key, run);
    case _ => TableSlots(env, db, step);
  }

  /** In every execution all recorded slots lie strictly before next_fire_at, through misfire skips,
      jitter and timely configuration updates. */
  lemma {:induction false} SlotsHold(env: Env, states: seq<Db>, steps: seq<Step>, i: nat)
    requires CronAdvances(env) && Execution(env, states, steps) && i < |states|
    requires forall k :: 0 <= k < i ==> TimelyUpdate(env, states[k], steps[k])
    ensures SlotInv(states[i])
  {
    hide Enabled;
    hide Apply;
    if i > 0 {
      SlotsHold(env, states, steps, i - 1);
      assert StepTaken(env, states[i - 1], steps[i - 1], states[i - 1 + 1]);
      SlotStep(env, states[i - 1], steps[i - 1]);
    }
  }

  lemma {:induction false} NextSlotUnused(db: Db, t: TriggerId)
    requires SlotInv(db) && t in db.triggers && !db.triggers[t].kind.Webhook? && !db.triggers[t].deadLettered
    ensures (t, SlotKey(db.triggers[t].nextFireAt)) !in db.ledger
  {
    var next := db.triggers[t].nextFireAt;
    var key := (t, SlotKey(next));
    assert MANUAL_PREFIX[0] == 'm';
    assert !IsManualKey(SlotKey(next));
    if key in db.ledger {
      assert SlotRowOk(db, key);
      DecimalInjective(db.ledger[key].scheduledFor, next);
    }
  }

  // ---------------------------------------------------------------------------------------------
  // A configuration update that commits late
  // ---------------------------------------------------------------------------------------------

  predicate SlotsBefore(db: Db, t: TriggerId, time: Time)
  {
    forall k :: k in db.ledger && k.0 == t && !IsManualKey(k.1) ==> db.ledger[k].scheduledFor < time
  }

  // The time a configuration update writes lies after every slot recorded for its trigger.
  predicate UpdateIsAhead(env: Env, db: Db, step: Step)
  {
    step.Configure? && step.t in db.triggers && !db.triggers[step.t].kind.Webhook? && !db.triggers[step.t].deadLettered ==>
      var next := RecomputedFireAt(env, db.triggers[step.t], step.settings, step.computedAt);
      next.Some? ==> SlotsBefore(db, step.t, next.value + step.offset * SECOND)
  }

  lemma {:induction false} ConfigureSlots(env: Env, db: Db, t: TriggerId, s: Settings, computedAt: Time, offset: nat)
    requires SlotInv(db) && t in db.triggers && SettingsOk(db.triggers[t].kind, s)
    ensures SlotInv(UpdateConfig(env, db, t, s, computedAt, offset)) <==>
            UpdateIsAhead(env, db, Configure(t, s, computedAt, offset))
  {
    hide SlotKey;
    hide IsManualKey;
    hide RecomputedFireAt;
    hide SettingsOk;
    var db' := UpdateConfig(env, db, t, s, computedAt, offset);
    forall k | k in db.ledger
      ensures k.0 != t ==> SlotRowOk(db', k)
      ensures k.0 == t && db.triggers[t].kind.Webhook? ==> SlotRowOk(db', k)
      ensures k.0 == t && !db.triggers[t].kind.Webhook? && !IsManualKey(k.1) ==>
                (SlotRowOk(db', k) <==> db.triggers[t].deadLettered || db.ledger[k].scheduledFor < db'.triggers[t].nextFireAt)
    {
      assert SlotRowOk(db, k);
    }
  }

  /** Exactly: every state of an execution has all its recorded slots before next_fire_at if and only if
      each configuration update wrote a time after the slots recorded so far. */
  lemma {:induction false} SlotsHoldExactly(env: Env, states: seq<Db>, steps: seq<Step>, n: nat)
    requires CronAdvances(env) && Execution(env, states, steps) && n < |states|
    ensures (forall j :: 0 <= j <= n ==> SlotInv(states[j])) <==>
            (forall k :: 0 <= k < n ==> UpdateIsAhead(env, states[k], steps[k]))
  {
    hide Enabled;
    hide Apply;
    hide SlotInv;
    hide UpdateIsAhead;
    if n == 0 {
      NoSlotsYet(states[0]);
    } else {
      SlotsHoldExactly(env, states, steps, n - 1);
      assert StepTaken(env, states[n - 1], steps[n - 1], states[n - 1 + 1]);
      if SlotInv(states[n - 1]) {
        SlotStepExactly(env, states[n - 1], steps[n - 1]);
      }
    }
  }

  lemma {:induction false} NoSlotsYet(db: Db)
    requires Init(db)
    ensures SlotInv(db)
  {
  }

  lemma {:induction false} SlotStepExactly(env: Env, db: Db, step: Step)
    requires CronAdvances(env) && Enabled(env, db, step) && SlotInv(db)
    ensures SlotInv(Apply(env, db, step)) <==> UpdateIsAhead(env, db, step)
  {
    hide SlotInv;
    if step.Configure? {
      hide UpdateIsAhead;
      ConfigureSlots(env, db, step.t, step.settings, step.computedAt, step.offset);
    } else {
      hide Enabled;
      hide Apply;
      SlotStep(env, db, step);
    }
  }

  /** Then no scheduled dispatch ever fails on the ledger's unique index. */
  lemma {:induction false} ScheduledDispatchNeverAborts(env: Env, states: seq<Db>, steps: seq<Step>, i: nat)
    requires CronAdvances(env) && Execution(env, states, steps) && i < |steps|
    requires forall k :: 0 <= k < i ==> UpdateIsAhead(env, states[k], steps[k])
    ensures steps[i].FireInterval? && steps[i].t in states[i].triggers ==>
              !DispatchInterval(states[i], steps[i].t, steps[i].run, steps[i].offset).1.Aborted?
    ensures steps[i].FireCron? && steps[i].t in states[i].triggers ==>
              !DispatchCron(env, states[i], steps[i].t, steps[i].run, steps[i].offset).1.Aborted?
  {
    hide SlotKey;
    hide HasRoom;
    hide UpdateIsAhead;
    SlotsHoldExactly(env, states, steps, i);
    assert StepTaken(env, states[i], steps[i], states[i + 1]);
    if steps[i].FireInterval? || steps[i].FireCron? {
      NextSlotUnused(states[i], steps[i].t);
    }
  }

  // The slot a scheduled trigger waits for is already in the ledger.
  predicate Wedged(db: Db, t: TriggerId)
  {
    t in db.triggers && !db.triggers[t].kind.Webhook? && (t, SlotKey(db.triggers[t].nextFireAt)) in db.ledger
  }

  /** A configuration update wedges a scheduled trigger exactly when the time it writes is a recorded slot. */
  lemma {:induction false} LateUpdateReopensSlot(env: Env, db: Db, t: TriggerId, s: Settings, computedAt: Time, offset: nat)
    requires t in db.triggers && !db.triggers[t].kind.Webhook?
    requires RecomputedFireAt(env, db.triggers[t], s, computedAt).Some?
    ensures var next := RecomputedFireAt(env, db.triggers[t], s, computedAt).value;
            Wedged(UpdateConfig(env, db, t, s, computedAt, offset), t) <==>
            (t, SlotKey(next + offset * SECOND)) in db.ledger
  {
    hide SlotKey;
    hide RecomputedFireAt;
  }

  lemma {:induction false} WedgedStep(env: Env, db: Db, step: Step, t: TriggerId)
    requires Enabled(env, db, step) && Wedged(db, t) && !(step.Configure? && step.t == t)
    ensures var db' := Apply(env, db, step);
            Wedged(db', t) && db'.triggers[t].nextFireAt == db.triggers[t].nextFireAt
    ensures Some(t) == TriggerOf(step) && IsFire(step) ==> Apply(env, db, step) == db
  {
    LedgerGrows(env, db, step);
    hide SlotKey;
    hide HasRoom;
    if Some(t) != TriggerOf(step) {
      hide Enabled;
      hide Apply;
      OtherTriggersKept(env, db, step, t);
    } else {
      hide RecomputedFireAt;
    }
  }

  /** A wedged trigger stays wedged in every later state, until its configuration is updated again, and each
      of its interval and cron dispatches on the way fails without any change. */
  lemma {:induction false} WedgedUntilReconfigured(env: Env, states: seq<Db>, steps: seq<Step>, i: nat, j: nat, t: TriggerId)
    requires Execution(env, states, steps) && i <= j < |states| && Wedged(states[i], t)
    requires forall k :: i <= k < j ==> !(steps[k].Configure? && steps[k].t == t)
    ensures Wedged(states[j], t) && states[j].triggers[t].nextFireAt == states[i].triggers[t].nextFireAt
    ensures forall k :: i <= k < j && IsFire(steps[k]) && Some(t) == TriggerOf(steps[k]) ==> states[k + 1] == states[k]
    decreases j
  {
    hide Enabled;
    hide Apply;
    hide Wedged;
    if i < j {
      WedgedUntilReconfigured(env, states, steps, i, j - 1, t);
      assert StepTaken(env, states[j - 1], steps[j - 1], states[j - 1 + 1]);
      WedgedStep(env, states[j - 1], steps[j - 1], t);
    }
  }

  const EVERY_MINUTE := Settings(60, "", FireNow, 3, 1, 0)
  const QUIET_ENV := Env(100, (schedule: string, after: Time) => None)
  const MINUTELY := Trigger("tenant", Interval, true, false, EVERY_MINUTE, MINUTE, 0, None, None)

  // A minutely trigger is created, comes due, fires its first slot, and is then updated late.
  function LateState(i: nat): Db
    requires i <= 4
  {
    if i == 0 then Db(0, map[], map[], map[], map[], map[])
    else if i == 1 then LateState(0).(triggers := map[0 := MINUTELY])
    else if i == 2 then LateState(1).(now := MINUTE)
    else if i == 3 then Fire(Reschedule(LateState(2), 0, 2 * MINUTE), 0, 0, FromSlot(0, MINUTE), MINUTE)
    else LateState(3).(triggers := map[0 := MINUTELY])
  }

  lemma {:induction false} LateStart()
    ensures Init(LateState(0)) && SlotInv(LateState(0))
    ensures StepTaken(QUIET_ENV, LateState(0), CreateTrigger(0, MINUTELY), LateState(1))
    ensures StepTaken(QUIET_ENV, LateState(1), Tick(MINUTE), LateState(2))
  {
  }

  lemma {:induction false} LateFire()
    ensures StepTaken(QUIET_ENV, LateState(2), FireInterval(0, 0, 0), LateState(3))
  {
    hide SlotKey;
    var db := LateState(2);
    assert TriggerInflight(db, 0) == {} && TenantInflight(db, "tenant") == {};
    assert IntervalOf(MINUTELY) == MINUTE;
    assert Due(QUIET_ENV, db, Interval, 0);
    assert DispatchInterval(db, 0, 0, 0).0 == LateState(3);
  }

  lemma {:induction false} LateConfigure()
    ensures StepTaken(QUIET_ENV, LateState(3), Configure(0, EVERY_MINUTE, 0, 0), LateState(4))
  {
    hide SlotKey;
    assert LateState(4).triggers == UpdateConfig(QUIET_ENV, LateState(3), 0, EVERY_MINUTE, 0, 0).triggers;
  }

  lemma {:induction false} LateSlotLost()
    ensures var db := LateState(4);
            !SlotInv(db) && Wedged(db, 0)
    ensures !TimelyUpdate(QUIET_ENV, LateState(3), Configure(0, EVERY_MINUTE, 0, 0))
  {
    hide Decimal;
    var key := (0, SlotKey(MINUTE));
    var db := LateState(4);
    assert db.ledger == map[key := LedgerRow(Some(0), MINUTE)];
    assert "manual:"[0] == 'm';
    assert key in db.ledger && !SlotRowOk(db, key);
  }

  /** Such an execution exists: an update computed at the instant the trigger was created commits only after
      the first slot has fired, and writes that slot again. */
  lemma {:induction false} LateUpdateExecution() returns (states: seq<Db>, steps: seq<Step>)
    ensures |steps| == 4 && Execution(QUIET_ENV, states, steps)
    ensures SlotInv(states[3]) && !SlotInv(states[4])
    ensures !TimelyUpdate(QUIET_ENV, states[3], steps[3])
    ensures Wedged(states[4], 0)
  {
    LateStart();
    LateFire();
    LateConfigure();
    LateSlotLost();
    hide LateState;
    hide Enabled;
    hide Apply;
    hide SlotInv;
    hide Init;
    hide Wedged;
    states := [LateState(0), LateState(1), LateState(2), LateState(3), LateState(4)];
    steps := [CreateTrigger(0, MINUTELY), Tick(MINUTE), FireInterval(0, 0, 0), Configure(0, EVERY_MINUTE, 0, 0)];
    SlotStep(QUIET_ENV, LateState(0), steps[0]);
    SlotStep(QUIET_ENV, LateState(1), steps[1]);
    SlotStep(QUIET_ENV, LateState(2), steps[2]);
  }

  // ---------------------------------------------------------------------------------------------
  // Catch-up at a fixed clock
  // ---------------------------------------------------------------------------------------------

  predicate Dispatches(db: Db, step: Step, t: TriggerId)
  {
    step.FireInterval? && step.t == t && t in db.triggers && DispatchInterval(db, t, step.run, step.offset).1.Dispatched?
  }

  // How many of the steps from i on dispatch the trigger.
  function DispatchCount(states: seq<Db>, steps: seq<Step>, t: TriggerId, i: nat, j: nat): nat
    requires i <= j <= |steps| && |states| == |steps| + 1
    decreases j
  {
    if i == j then 0
    else DispatchCount(states, steps, t, i, j - 1) + if Dispatches(states[j - 1], steps[j - 1], t) then 1 else 0
  }

  // Steps that leave the clock and the trigger's settings alone.
  predicate Settled(step: Step, t: TriggerId)
  {
    !step.Tick? && !(step.Configure? && step.t == t)
  }

  lemma {:induction false} OwnSchedule(env: Env, db: Db, step: Step, t: TriggerId)
    requires Enabled(env, db, step) && Settled(step, t) && Some(t) == TriggerOf(step)
    requires t in db.triggers && db.triggers[t].kind.Interval? && db.triggers[t].settings.misfire.FireNow?
    ensures var db' := Apply(env, db, step);
            && t in db'.triggers && ScheduleMoves(db, db', step, t)
  {
    hide SlotKey;
    hide HasRoom;
  }

  // What a settled step does to the schedule: nothing, or one interval plus jitter forward.
  predicate ScheduleMoves(db: Db, db': Db, step: Step, t: TriggerId)
    requires t in db.triggers && t in db'.triggers
  {
    var tr, tr' := db.triggers[t], db'.triggers[t];
    && tr'.settings == tr.settings && tr'.kind == tr.kind
    && if Dispatches(db, step, t)
       then tr.nextFireAt <= db.now && JitterOffset(tr.settings.jitterSeconds, step.offset) &&
            tr'.nextFireAt == tr.nextFireAt + IntervalOf(tr) + step.offset * SECOND
       else tr'.nextFireAt == tr.nextFireAt
  }

  lemma {:induction false} ClockKept(env: Env, db: Db, step: Step)
    requires Enabled(env, db, step) && !step.Tick?
    ensures Apply(env, db, step).now == db.now
  {
    hide HasRoom;
    hide RequeueAllowed;
    hide RequeueAll;
    hide EventInsertable;
    hide InsertAllowed;
    hide RecomputedFireAt;
    hide SlotKey;
    hide ManualKey;
  }

  lemma {:induction false} ScheduleFrame(env: Env, db: Db, step: Step, t: TriggerId)
    requires Enabled(env, db, step) && Settled(step, t)
    requires t in db.triggers && db.triggers[t].kind.Interval? && db.triggers[t].settings.misfire.FireNow?
    ensures var db' := Apply(env, db, step);
            db'.now == db.now && t in db'.triggers && ScheduleMoves(db, db', step, t)
  {
    hide Enabled;
    hide Apply;
    hide DispatchInterval;
    ClockKept(env, db, step);
    if Some(t) == TriggerOf(step) {
      OwnSchedule(env, db, step, t);
    } else {
      OtherTriggersKept(env, db, step, t);
    }
  }

  // The state of the catch-up after `n` dispatches, from next_fire_at `first`.
  predicate CaughtUp(tr: Trigger, now: Time, first: Time, n: nat)
  {
    && tr.nextFireAt >= first + n * IntervalOf(tr)
    && (tr.settings.jitterSeconds <= 0 ==> tr.nextFireAt == first + n * IntervalOf(tr))
    && (n > 0 ==> first + (n - 1) * IntervalOf(tr) <= now)
  }

  lemma {:induction false} CatchUpProgress(env: Env, states: seq<Db>, steps: seq<Step>, t: TriggerId, i: nat, j: nat)
    requires Execution(env, states, steps) && i <= j <= |steps|
    requires forall k :: i <= k < j ==> Settled(steps[k], t)
    requires t in states[i].triggers && states[i].triggers[t].kind.Interval?
    requires states[i].triggers[t].settings.misfire.FireNow?
    ensures states[j].now == states[i].now && t in states[j].triggers
    ensures states[j].triggers[t].settings == states[i].triggers[t].settings
    ensures states[j].triggers[t].kind == states[i].triggers[t].kind
    ensures CaughtUp(states[j].triggers[t], states[i].now, states[i].triggers[t].nextFireAt,
                     DispatchCount(states, steps, t, i, j))
    decreases j
  {
    hide Enabled;
    hide Apply;
    if i < j {
      CatchUpProgress(env, states, steps, t, i, j - 1);
      assert StepTaken(env, states[j - 1], steps[j - 1], states[j - 1 + 1]);
      ScheduleFrame(env, states[j - 1], steps[j - 1], t);
      hide Dispatches;
      var n := DispatchCount(states, steps, t, i, j - 1);
      var period := IntervalOf(states[i].triggers[t]);
      assert (n + 1) * period == n * period + period;
    }
  }

  lemma {:induction false} DivisionBound(n: int, period: int, late: int)
    requires period > 0
    ensures n * period <= late <==> n <= late / period
  {
    if n <= late / period {
      assert n * period <= late / period * period;
    } else {
      assert (late / period + 1) * period <= n * period;
    }
  }

  function MostDispatches(late: int, period: int): nat
    requires period > 0
  {
    if late < 0 then 0 else late / period + 1
  }

  lemma {:induction false} DispatchArithmetic(count: nat, period: int, late: int)
    requires period > 0 && (count > 0 ==> (count - 1) * period <= late)
    ensures count <= MostDispatches(late, period)
    ensures count * period > late <==> count == MostDispatches(late, period)
  {
    DivisionBound(count - 1, period, late);
    DivisionBound(count, period, late);
    if count > 0 {
      assert 0 <= (count - 1) * period;
    } else {
      assert count * period == 0;
    }
  }

  /** At a fixed clock a fire_now interval trigger that is `late` behind dispatches at most
      late / interval + 1 times; once it has, it is no longer due, and without jitter it is no longer due
      exactly then. */
  lemma {:induction false} CatchUpBound(env: Env, states: seq<Db>, steps: seq<Step>, t: TriggerId, i: nat, j: nat)
    requires Execution(env, states, steps) && i <= j <= |steps|
    requires forall k :: i <= k < j ==> Settled(steps[k], t)
    requires t in states[i].triggers && states[i].triggers[t].kind.Interval?
    requires states[i].triggers[t].settings.misfire.FireNow? && states[i].triggers[t].settings.intervalSeconds > 0
    ensures t in states[j].triggers
    ensures var late := states[i].now - states[i].triggers[t].nextFireAt;
            var most := MostDispatches(late, IntervalOf(states[i].triggers[t]));
            var count := DispatchCount(states, steps, t, i, j);
            && count <= most
            && (count == most ==> states[j].triggers[t].nextFireAt > states[j].now)
            && (states[i].triggers[t].settings.jitterSeconds <= 0 ==>
                  (states[j].triggers[t].nextFireAt > states[j].now <==> count == most))
  {
    assert |states| == |steps| + 1;
    hide Execution;
    hide MostDispatches;
    CatchUpProgress(env, states, steps, t, i, j);
    var count := DispatchCount(states, steps, t, i, j);
    var period := IntervalOf(states[i].triggers[t]);
    assert IntervalOf(states[j].triggers[t]) == period > 0;
    DispatchArithmetic(count, period, states[i].now - states[i].triggers[t].nextFireAt);
  }

  /** A skip trigger at least one interval late creates no run and is immediately no longer due. */
  lemma {:induction false} SkipCatchesUpAtOnce(db: Db, t: TriggerId, run: RunId, offset: nat)
    requires t in db.triggers && SettingsOk(db.triggers[t].kind, db.triggers[t].settings)
    requires db.triggers[t].kind.Interval? && db.triggers[t].settings.misfire.SkipMissed?
    requires db.now - db.triggers[t].nextFireAt >= IntervalOf(db.triggers[t])
    requires (t, SlotKey(db.triggers[t].nextFireAt)) !in db.ledger
    ensures var r := DispatchInterval(db, t, run, offset);
            r.1.Nothing? && r.0.runs == db.runs && r.0.triggers[t].nextFireAt > r.0.now
  {
  }
}
