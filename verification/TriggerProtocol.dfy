// Executions of the trigger scheduler together with the run queue it feeds.
module TriggerProtocol {
  import opened Prelude
  import opened Text
  import opened Json
  import opened RunTable
  import opened TriggerTable

  datatype Step =
    | Tick(to: Time)
    | CreateTrigger(newId: TriggerId, row: Trigger)
    | SetEnabled(t: TriggerId, on: bool)
    | Configure(t: TriggerId, settings: Settings, computedAt: Time, offset: nat)
    | Enqueue(newEvent: EventRow, t: TriggerId, tenant: Tenant, eventId: string, payload: Json, size: nat)
    | Replay(event: EventRow)
    | FireInterval(t: TriggerId, run: RunId, offset: nat)
    | FireCron(t: TriggerId, run: RunId, offset: nat)
    | FireWebhook(event: EventRow, run: RunId)
    | FireManual(t: TriggerId, tenant: Tenant, key: string, run: RunId)
    | ApiCreate(run: RunId, runRow: Run)
    | ClaimRun(run: RunId, worker: Worker, leaseMs: nat)
    | FinishRun(run: RunId, worker: Worker, outcome: Status)
    | RequeueRuns(limit: int, ids: set<RunId>)

  predicate Init(db: Db)
  {
    db.triggers == map[] && db.events == map[] && db.ledger == map[] && db.runs == map[] && db.origin == map[]
  }

  // Dispatcher transactions, statements on the run queue, and the rest.
  predicate IsFire(step: Step)
  {
    step.FireInterval? || step.FireCron? || step.FireWebhook? || step.FireManual?
  }

  predicate IsRunStep(step: Step)
  {
    step.ApiCreate? || step.ClaimRun? || step.FinishRun? || step.RequeueRuns?
  }

  // Any due row may be dispatched: FOR UPDATE SKIP LOCKED passes over rows that others have locked.
  predicate FireEnabled(env: Env, db: Db, step: Step)
    requires IsFire(step)
  {
    match step
    case FireInterval(t, run, offset) =>
      run !in db.runs && Due(env, db, Interval, t) && JitterOffset(db.triggers[t].settings.jitterSeconds, offset)
    case FireCron(t, run, offset) =>
      run !in db.runs && Due(env, db, Cron, t) && JitterOffset(db.triggers[t].settings.jitterSeconds, offset)
    case FireWebhook(row, run) => run !in db.runs && EventDue(env, db, row)
    case FireManual(_, _, _, run) => run !in db.runs
  }

  predicate RunEnabled(db: Db, step: Step)
    requires IsRunStep(step)
  {
    match step
    case ApiCreate(run, row) => run !in db.runs && Fresh(row, db.now)
    case ClaimRun(run, _, _) => run in db.runs
    case FinishRun(run, _, outcome) => run in db.runs && (outcome.Succeeded? || outcome.Failed?)
    case RequeueRuns(limit, ids) => RequeueAllowed(db.runs, db.now, limit, ids)
  }

  predicate TableEnabled(db: Db, step: Step)
    requires !IsFire(step) && !IsRunStep(step)
  {
    match step
    case Tick(to) => db.now <= to
    case CreateTrigger(id, row) => id !in db.triggers && SettingsOk(row.kind, row.settings) && !row.deadLettered
    case SetEnabled(t, _) => t in db.triggers
    case Configure(t, s, computedAt, offset) =>
      t in db.triggers && SettingsOk(db.triggers[t].kind, s) && computedAt <= db.now && JitterOffset(s.jitterSeconds, offset)
    case Enqueue(row, _, _, _, payload, _) => row !in db.events && WellFormed(payload)
    case Replay(row) => row in db.events
  }

  predicate Enabled(env: Env, db: Db, step: Step)
  {
    if IsFire(step) then FireEnabled(env, db, step)
    else if IsRunStep(step) then RunEnabled(db, step)
    else TableEnabled(db, step)
  }

  function ApplyFire(env: Env, db: Db, step: Step): Db
    requires IsFire(step) && FireEnabled(env, db, step)
  {
    match step
    case FireInterval(t, run, offset) => DispatchInterval(db, t, run, offset).0
    case FireCron(t, run, offset) => DispatchCron(env, db, t, run, offset).0
    case FireWebhook(row, run) => DispatchWebhook(db, row, run).0
    case FireManual(t, tenant, key, run) => FireManually(env, db, t, tenant, key, run).0
  }

  function ApplyRun(db: Db, step: Step): Runs
    requires IsRunStep(step) && RunEnabled(db, step)
  {
    match step
    case ApiCreate(run, row) => if InsertAllowed(db.runs, row) then db.runs[run := row] else db.runs
    case ClaimRun(run, w, leaseMs) =>
      if Claimable(db.runs[run], db.now) then db.runs[run := Claimed(db.runs[run], w, db.now, leaseMs)] else db.runs
    case FinishRun(run, w, outcome) =>
      if Finishable(db.runs[run], w) then db.runs[run := Finished(db.runs[run], outcome, db.now)] else db.runs
    case RequeueRuns(limit, ids) => RequeueAll(db.runs, ids)
  }

  function ApplyTable(env: Env, db: Db, step: Step): Db
    requires !IsFire(step) && !IsRunStep(step) && TableEnabled(db, step)
  {
    match step
    case Tick(to) => db.(now := to)
    case CreateTrigger(id, row) => db.(triggers := db.triggers[id := row])
    case SetEnabled(t, on) => db.(triggers := db.triggers[t := db.triggers[t].(enabled := on)])
    case Configure(t, s, computedAt, offset) => UpdateConfig(env, db, t, s, computedAt, offset)
    case Enqueue(row, t, tenant, eventId, payload, size) => EnqueueEvent(db, row, t, tenant, eventId, payload, size)
    case Replay(row) => ReplayEvent(db, row)
  }

  function Apply(env: Env, db: Db, step: Step): Db
    requires Enabled(env, db, step)
  {
    if IsFire(step) then ApplyFire(env, db, step)
    else if IsRunStep(step) then db.(runs := ApplyRun(db, step))
    else ApplyTable(env, db, step)
  }

  ghost predicate Execution(env: Env, states: seq<Db>, steps: seq<Step>)
  {
    && |states| == |steps| + 1 && Init(states[0])
    && forall i :: 0 <= i < |steps| ==> StepTaken(env, states[i], steps[i], states[i + 1])
  }

  ghost predicate StepTaken(env: Env, db: Db, step: Step, db': Db)
  {
    Enabled(env, db, step) && db' == Apply(env, db, step)
  }

  // ---------------------------------------------------------------------------------------------
  // What a step may do to the tables
  // ---------------------------------------------------------------------------------------------

  // Existing runs stay, keep their tenant, and never become active again once they are not.
  predicate RunsEvolve(a: Runs, b: Runs)
  {
    forall r :: r in a ==> r in b && b[r].tenant == a[r].tenant && (Active(b[r]) ==> Active(a[r]))
  }

  predicate TriggersEvolve(a: map<TriggerId, Trigger>, b: map<TriggerId, Trigger>)
  {
    forall t :: t in a ==> t in b && b[t].tenant == a[t].tenant && b[t].kind == a[t].kind
  }

  // Every step leaves the ledger alone, or adds one row for a fresh run, or adds one row without a run.
  datatype Effect =
    | Quiet
    | Fired(run: RunId, origin: Origin, at: Time)
    | Recorded(key: LedgerKey, at: Time)

  predicate HasEffect(db: Db, db': Db, eff: Effect)
  {
    && TriggersEvolve(db.triggers, db'.triggers)
    && match eff
       case Quiet => db'.ledger == db.ledger && db'.origin == db.origin && RunsEvolve(db.runs, db'.runs)
       case Fired(run, o, at) => FiredOne(db, db', run, o, at)
       case Recorded(key, at) =>
         && key !in db.ledger && db'.ledger == db.ledger[key := LedgerRow(None, at)]
         && db'.origin == db.origin && db'.runs == db.runs && key.0 in db.triggers
  }

  predicate FiredOne(db: Db, db': Db, run: RunId, o: Origin, at: Time)
  {
    && run !in db.runs && o.trigger in db.triggers
    && OriginKey(o) !in db.ledger && db'.ledger == db.ledger[OriginKey(o) := LedgerRow(Some(run), at)]
    && db'.origin == db.origin[run := o]
    && db'.runs == db.runs[run := TriggeredRun(db, db.triggers[o.trigger])]
  }

  lemma {:induction false} IntervalEffect(db: Db, t: TriggerId, run: RunId, offset: nat) returns (eff: Effect)
    requires t in db.triggers && run !in db.runs
    ensures HasEffect(db, DispatchInterval(db, t, run, offset).0, eff)
    ensures eff.Quiet? ==> DispatchInterval(db, t, run, offset).0 == db
    ensures eff.Fired? ==> eff.origin.trigger == t && eff.run == run
  {
    hide SlotKey;
    hide Misfired;
    hide IntervalOf;
    var tr := db.triggers[t];
    eff := if (t, SlotKey(tr.nextFireAt)) in db.ledger then Quiet
           else if Misfired(tr, db.now) then Recorded((t, SlotKey(tr.nextFireAt)), tr.nextFireAt)
           else Fired(run, FromSlot(t, tr.nextFireAt), tr.nextFireAt);
  }

  lemma {:induction false} CronEffect(env: Env, db: Db, t: TriggerId, run: RunId, offset: nat) returns (eff: Effect)
    requires t in db.triggers && run !in db.runs
    ensures HasEffect(db, DispatchCron(env, db, t, run, offset).0, eff)
    ensures eff.Quiet? ==> DispatchCron(env, db, t, run, offset).0 == db
    ensures eff.Fired? ==> eff.origin.trigger == t && eff.run == run
  {
    hide SlotKey;
    var tr := db.triggers[t];
    eff := if (t, SlotKey(tr.nextFireAt)) in db.ledger then Quiet
           else if env.nextCron(tr.settings.schedule, tr.nextFireAt).None?
           then Recorded((t, SlotKey(tr.nextFireAt)), tr.nextFireAt)
           else Fired(run, FromSlot(t, tr.nextFireAt), tr.nextFireAt);
  }

  lemma {:induction false} WebhookEffect(db: Db, row: EventRow, run: RunId) returns (eff: Effect)
    requires row in db.events && db.events[row].trigger in db.triggers && run !in db.runs
    ensures HasEffect(db, DispatchWebhook(db, row, run).0, eff)
    ensures eff.Quiet? ==> DispatchWebhook(db, row, run).0 == db
    ensures eff.Fired? ==> eff.origin.trigger == db.events[row].trigger && eff.run == run
  {
    var e := db.events[row];
    eff := if EventKey(e) in db.ledger then Quiet
           else if Oversized(e) then Recorded(EventKey(e), db.now)
           else Fired(run, FromEvent(e.trigger, e.eventId), db.now);
  }

  lemma {:induction false} ManualEffect(env: Env, db: Db, t: TriggerId, tenant: Tenant, key: string, run: RunId) returns (eff: Effect)
    requires run !in db.runs
    ensures HasEffect(db, FireManually(env, db, t, tenant, key, run).0, eff)
    ensures eff.Quiet? ==> FireManually(env, db, t, tenant, key, run).0 == db
    ensures eff.Fired? ==> eff.origin.trigger == t && t in db.triggers && Live(db.triggers[t]) && HasRoom(env, db, t)
  {
    hide HasRoom;
    hide ManualKey;
    eff := if FireManually(env, db, t, tenant, key, run).1.FireCreated? then Fired(run, FromManual(t, key), db.now)
           else Quiet;
  }

  lemma {:induction false} RunEffect(env: Env, db: Db, step: Step)
    requires Enabled(env, db, step) && IsRunStep(step)
    ensures HasEffect(db, Apply(env, db, step), Quiet)
    ensures !step.ApiCreate? ==> Apply(env, db, step).runs.Keys == db.runs.Keys
  {
  }

  // The one trigger whose row a step may change.
  function TriggerOf(step: Step): Option<TriggerId>
  {
    match step
    case CreateTrigger(t, _) => Some(t)
    case SetEnabled(t, _) => Some(t)
    case Configure(t, _, _, _) => Some(t)
    case FireInterval(t, _, _) => Some(t)
    case FireCron(t, _, _) => Some(t)
    case _ => None
  }

  lemma {:induction false} OtherTriggersKept(env: Env, db: Db, step: Step, t: TriggerId)
    requires Enabled(env, db, step) && Some(t) != TriggerOf(step)
    ensures var db' := Apply(env, db, step);
            (t in db'.triggers <==> t in db.triggers) && (t in db.triggers ==> db'.triggers[t] == db.triggers[t])
  {
    if IsFire(step) {
      FireKeepsOthers(env, db, step, t);
    } else if !IsRunStep(step) {
      TableKeepsOthers(env, db, step, t);
    }
  }

  // At most the schedule of one trigger has changed.
  predicate Touches(a: map<TriggerId, Trigger>, b: map<TriggerId, Trigger>, t: TriggerId)
  {
    && t in a && t in b && b[t].(nextFireAt := a[t].nextFireAt, deadLettered := a[t].deadLettered) == a[t]
    && b == a[t := b[t]]
  }

  lemma {:induction false} IntervalTouches(db: Db, t: TriggerId, run: RunId, offset: nat)
    requires t in db.triggers
    ensures Touches(db.triggers, DispatchInterval(db, t, run, offset).0.triggers, t)
  {
    hide SlotKey;
    hide OriginKey;
    hide Misfired;
  }

  lemma {:induction false} CronTouches(env: Env, db: Db, t: TriggerId, run: RunId, offset: nat)
    requires t in db.triggers
    ensures Touches(db.triggers, DispatchCron(env, db, t, run, offset).0.triggers, t)
  {
    hide SlotKey;
    hide OriginKey;
  }

  lemma {:induction false} FireKeepsOthers(env: Env, db: Db, step: Step, t: TriggerId)
    requires IsFire(step) && FireEnabled(env, db, step) && Some(t) != TriggerOf(step)
    ensures var db' := ApplyFire(env, db, step);
            (t in db'.triggers <==> t in db.triggers) && (t in db.triggers ==> db'.triggers[t] == db.triggers[t])
  {
    hide HasRoom;
    hide DispatchInterval;
    hide DispatchCron;
    match step
    case FireInterval(u, run, offset) => IntervalTouches(db, u, run, offset);
    case FireCron(u, run, offset) => CronTouches(env, db, u, run, offset);
    case FireWebhook(row, run) => WebhookKeeps(db, row, run);
    case FireManual(u, tenant, key, run) => ManualKeeps(env, db, u, tenant, key, run);
  }

  lemma {:induction false} WebhookKeeps(db: Db, row: EventRow, run: RunId)
    requires row in db.events && db.events[row].trigger in db.triggers
    ensures DispatchWebhook(db, row, run).0.triggers == db.triggers
  {
  }

  lemma {:induction false} ManualKeeps(env: Env, db: Db, t: TriggerId, tenant: Tenant, key: string, run: RunId)
    ensures FireManually(env, db, t, tenant, key, run).0.triggers == db.triggers
  {
  }

  lemma {:induction false} TableKeepsOthers(env: Env, db: Db, step: Step, t: TriggerId)
    requires !IsFire(step) && !IsRunStep(step) && TableEnabled(db, step) && Some(t) != TriggerOf(step)
    ensures var db' := ApplyTable(env, db, step);
            (t in db'.triggers <==> t in db.triggers) && (t in db.triggers ==> db'.triggers[t] == db.triggers[t])
  {
    hide EventInsertable;
    hide RecomputedFireAt;
    hide WellFormed;
    hide SettingsOk;
    hide JitterOffset;
    hide Live;
  }

  lemma {:induction false} TableEffect(env: Env, db: Db, step: Step)
    requires Enabled(env, db, step) && !IsFire(step) && !IsRunStep(step)
    ensures HasEffect(db, Apply(env, db, step), Quiet)
    ensures Apply(env, db, step).runs == db.runs
  {
    hide UpdateConfig;
    hide EnqueueEvent;
    hide ReplayEvent;
    hide WellFormed;
    hide JitterOffset;
    match step
    case Configure(t, s, computedAt, offset) => ConfigureEffect(env, db, t, s, computedAt, offset);
    case Enqueue(row, t, tenant, eventId, payload, size) => EnqueueEffect(db, row, t, tenant, eventId, payload, size);
    case Replay(row) => ReplayEffect(db, row);
    case _ =>
  }

  lemma {:induction false} ConfigureEffect(env: Env, db: Db, t: TriggerId, s: Settings, computedAt: Time, offset: nat)
    requires t in db.triggers
    ensures var db' := UpdateConfig(env, db, t, s, computedAt, offset);
            TriggersEvolve(db.triggers, db'.triggers) && db' == db.(triggers := db'.triggers)
  {
    hide RecomputedFireAt;
  }

  lemma {:induction false} EnqueueEffect(db: Db, row: EventRow, t: TriggerId, tenant: Tenant, eventId: string, payload: Json, size: nat)
    ensures var db' := EnqueueEvent(db, row, t, tenant, eventId, payload, size); db' == db.(events := db'.events)
  {
    hide EventInsertable;
  }

  lemma {:induction false} ReplayEffect(db: Db, row: EventRow)
    requires row in db.events
    ensures var db' := ReplayEvent(db, row); db' == db.(events := db'.events)
  {
  }

  // A step that fires does so for a live trigger with room under both limits.
  predicate Roomy(env: Env, db: Db, eff: Effect)
  {
    eff.Fired? ==>
      && eff.origin.trigger in db.triggers && Live(db.triggers[eff.origin.trigger])
      && HasRoom(env, db, eff.origin.trigger)
  }

  lemma {:induction false} StepEffect(env: Env, db: Db, step: Step) returns (eff: Effect)
    requires Enabled(env, db, step)
    ensures HasEffect(db, Apply(env, db, step), eff)
    ensures eff.Quiet? && IsFire(step) ==> Apply(env, db, step) == db
    ensures IsFire(step) || eff.Quiet?
    ensures Roomy(env, db, eff)
  {
    hide HasRoom;
    hide HasEffect;
    hide DispatchInterval;
    hide DispatchCron;
    hide DispatchWebhook;
    hide FireManually;
    match step
    case FireInterval(t, run, offset) => eff := IntervalEffect(db, t, run, offset);
    case FireCron(t, run, offset) => eff := CronEffect(env, db, t, run, offset);
    case FireWebhook(row, run) => eff := WebhookEffect(db, row, run);
    case FireManual(t, tenant, key, run) => eff := ManualEffect(env, db, t, tenant, key, run);
    case _ =>
      if IsRunStep(step) {
        RunEffect(env, db, step);
      } else {
        TableEffect(env, db, step);
      }
      eff := Quiet;
  }

  lemma {:induction false} LedgerGrows(env: Env, db: Db, step: Step)
    requires Enabled(env, db, step)
    ensures var db' := Apply(env, db, step);
            && TriggersEvolve(db.triggers, db'.triggers)
            && forall k :: k in db.ledger ==> k in db'.ledger && db'.ledger[k] == db.ledger[k]
  {
    hide Enabled;
    hide Apply;
    hide HasRoom;
    var eff := StepEffect(env, db, step);
  }

  // ---------------------------------------------------------------------------------------------
  // The ledger explains every triggered run
  // ---------------------------------------------------------------------------------------------

  predicate OriginRecorded(db: Db, r: RunId)
    requires r in db.origin
  {
    var o := db.origin[r];
    && OriginKey(o) in db.ledger && db.ledger[OriginKey(o)].run == Some(r)
    && r in db.runs && o.trigger in db.triggers && db.runs[r].tenant == db.triggers[o.trigger].tenant
  }

  predicate RowExplained(db: Db, k: LedgerKey)
    requires k in db.ledger
  {
    db.ledger[k].run.Some? ==> db.ledger[k].run.value in db.origin && OriginKey(db.origin[db.ledger[k].run.value]) == k
  }

  // Every triggered run has its own ledger row, and every run in the ledger has that row's origin.
  predicate LedgerInv(db: Db)
  {
    && (forall r :: r in db.origin ==> OriginRecorded(db, r))
    && (forall k :: k in db.ledger ==> RowExplained(db, k) && k.0 in db.triggers)
  }

  lemma {:induction false} LedgerStep(db: Db, db': Db, eff: Effect)
    requires LedgerInv(db) && HasEffect(db, db', eff)
    ensures LedgerInv(db')
  {
    hide HasRoom;
    hide OriginKey;
    forall r | r in db'.origin
      ensures OriginRecorded(db', r)
    {
      assert r in db.origin ==> OriginRecorded(db, r);
    }
    forall k | k in db'.ledger
      ensures RowExplained(db', k) && k.0 in db'.triggers
    {
      assert k in db.ledger ==> RowExplained(db, k);
      OriginKeyTrigger(eff);
    }
  }

  lemma {:induction false} OriginKeyTrigger(eff: Effect)
    ensures eff.Fired? ==> OriginKey(eff.origin).0 == eff.origin.trigger
  {
  }
}
