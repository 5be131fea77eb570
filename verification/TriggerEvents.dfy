// Webhook events and manual fires: one run per event or idempotency key, and what the ledger's unique
// index does to retries.
module TriggerEvents {
  import opened Prelude
  import opened Text
  import opened Json
  import opened RunTable
  import opened TriggerTable
  import opened TriggerProtocol
  import opened TriggerCaps
  import opened TriggerSlots

  // ---------------------------------------------------------------------------------------------
  // One run per origin
  // ---------------------------------------------------------------------------------------------

  /** Over a whole execution, no two runs come from the same slot, event or idempotency key. */
  lemma {:induction false} OneRunPerOrigin(env: Env, states: seq<Db>, steps: seq<Step>, i: nat, a: RunId, b: RunId)
    requires Execution(env, states, steps) && i < |states|
    requires a in states[i].origin && b in states[i].origin
    requires OriginKey(states[i].origin[a]) == OriginKey(states[i].origin[b])
    ensures a == b
  {
    LedgerHolds(env, states, steps, i);
    assert OriginRecorded(states[i], a) && OriginRecorded(states[i], b);
  }

  // An event row that has been dispatched leaves its key in the ledger.
  predicate EventRowOk(db: Db, x: EventRow)
    requires x in db.events
  {
    var e := db.events[x];
    && e.trigger in db.triggers && db.triggers[e.trigger].kind.Webhook? && WellFormed(e.payload)
    && (e.attempts > 0 || !e.status.Pending? ==> EventKey(e) in db.ledger)
  }

  predicate Same(e: TriggerEvent, f: TriggerEvent)
  {
    SameEvent(e, f.trigger, f.eventId, f.payload)
  }

  predicate EventInv(db: Db)
  {
    && (forall x :: x in db.events ==> EventRowOk(db, x))
    && (forall x, y :: x in db.events && y in db.events && Same(db.events[x], db.events[y]) ==> x == y)
  }

  // Event rows keep what identifies them, and ledger keys stay.
  predicate EventsKept(db: Db, db': Db)
  {
    && (forall x :: x in db'.events ==> x in db.events && SameRow(db.events[x], db'.events[x]))
    && (forall k :: k in db.ledger ==> k in db'.ledger)
    && TriggersEvolve(db.triggers, db'.triggers)
  }

  predicate SameRow(e: TriggerEvent, e': TriggerEvent)
  {
    e'.trigger == e.trigger && e'.eventId == e.eventId && e'.payload == e.payload && e'.size == e.size
  }

  lemma {:induction false} EventFrame(db: Db, db': Db)
    requires EventInv(db) && EventsKept(db, db')
    requires forall x :: x in db'.events ==>
               db'.events[x] == db.events[x] || EventKey(db'.events[x]) in db'.ledger
    ensures EventInv(db')
  {
    hide SameEvent;
    forall x | x in db'.events
      ensures EventRowOk(db', x)
    {
      assert EventRowOk(db, x);
    }
    forall x, y | x in db'.events && y in db'.events && Same(db'.events[x], db'.events[y])
      ensures x == y
    {
      SameIgnoresProgress(db.events[x], db'.events[x], db.events[y], db'.events[y]);
    }
  }

  lemma {:induction false} SameIgnoresProgress(e: TriggerEvent, e': TriggerEvent, f: TriggerEvent, f': TriggerEvent)
    requires SameRow(e, e') && SameRow(f, f')
    ensures Same(e', f') <==> Same(e, f)
  {
  }

  lemma {:induction false} EnqueueKeepsInv(db: Db, row: EventRow, t: TriggerId, tenant: Tenant, eventId: string, payload: Json, size: nat)
    requires EventInv(db) && row !in db.events && WellFormed(payload)
    ensures EventInv(EnqueueEvent(db, row, t, tenant, eventId, payload, size))
  {
    hide Canon;
    hide WellFormed;
    var db' := EnqueueEvent(db, row, t, tenant, eventId, payload, size);
    forall x | x in db'.events
      ensures EventRowOk(db', x)
    {
      assert x in db.events ==> EventRowOk(db, x);
    }
  }

  lemma {:induction false} WebhookEvents(db: Db, row: EventRow, run: RunId)
    requires EventInv(db) && row in db.events && db.events[row].trigger in db.triggers
    ensures EventInv(DispatchWebhook(db, row, run).0)
  {
    hide EventInv;
    EventFrame(db, DispatchWebhook(db, row, run).0);
  }

  // Scheduled and manual fires do not touch events.
  lemma {:induction false} OtherFireEvents(env: Env, db: Db, step: Step)
    requires IsFire(step) && !step.FireWebhook? && FireEnabled(env, db, step)
    ensures ApplyFire(env, db, step).events == db.events
  {
    hide HasRoom;
    hide SlotKey;
    hide ManualKey;
  }

  lemma {:induction false} EventStep(env: Env, db: Db, step: Step)
    requires Enabled(env, db, step) && EventInv(db)
    ensures EventInv(Apply(env, db, step))
  {
    hide EventInv;
    hide HasRoom;
    hide DispatchInterval;
    hide DispatchCron;
    hide DispatchWebhook;
    hide FireManually;
    hide RunEnabled;
    hide ApplyRun;
    hide WellFormed;
    hide EnqueueEvent;
    LedgerGrows(env, db, step);
    if step.FireWebhook? {
      WebhookEvents(db, step.event, step.run);
    } else if step.Enqueue? {
      EnqueueKeepsInv(db, step.newEvent, step.t, step.tenant, step.eventId, step.payload, step.size);
    } else {
      if IsFire(step) {
        OtherFireEvents(env, db, step);
      } else if step.Replay? {
        ReplayedKeyKnown(db, step.event);
      }
      EventFrame(db, Apply(env, db, step));
    }
  }

  lemma {:induction false} ReplayedKeyKnown(db: Db, row: EventRow)
    requires EventInv(db) && row in db.events
    ensures db.events[row].status.DeadLettered? ==> EventKey(db.events[row]) in db.ledger
  {
    assert EventRowOk(db, row);
  }

  lemma {:induction false} EventsHold(env: Env, states: seq<Db>, steps: seq<Step>, i: nat)
    requires Execution(env, states, steps) && i < |states|
    ensures EventInv(states[i])
  {
    hide Enabled;
    hide Apply;
    if i > 0 {
      EventsHold(env, states, steps, i - 1);
      assert StepTaken(env, states[i - 1], steps[i - 1], states[i - 1 + 1]);
      EventStep(env, states[i - 1], steps[i - 1]);
    }
  }

  /** No two events of a trigger share an id, or a payload up to key order. */
  lemma {:induction false} EventsAreDistinct(env: Env, states: seq<Db>, steps: seq<Step>, i: nat, x: EventRow, y: EventRow)
    requires Execution(env, states, steps) && i < |states| && x in states[i].events && y in states[i].events
    requires states[i].events[x].trigger == states[i].events[y].trigger
    requires states[i].events[x].eventId == states[i].events[y].eventId ||
             SameUpToKeyOrder(states[i].events[x].payload, states[i].events[y].payload)
    ensures x == y
  {
    hide SameUpToKeyOrder;
    hide Canon;
    EventsHold(env, states, steps, i);
    assert EventRowOk(states[i], x) && EventRowOk(states[i], y);
    CanonDecidesKeyOrder(states[i].events[x].payload, states[i].events[y].payload);
    assert Same(states[i].events[x], states[i].events[y]);
  }

  /** Each event row leads to at most one run ever, across any number of dead-letter replays. */
  lemma {:induction false} OneRunPerEvent(env: Env, states: seq<Db>, steps: seq<Step>, i: nat, x: EventRow, y: EventRow, a: RunId, b: RunId)
    requires Execution(env, states, steps) && i < |states| && x in states[i].events && y in states[i].events
    requires a in states[i].origin && b in states[i].origin
    requires states[i].origin[a] == FromEvent(states[i].events[x].trigger, states[i].events[x].eventId)
    requires states[i].origin[b] == FromEvent(states[i].events[y].trigger, states[i].events[y].eventId)
    ensures a == b <==> x == y
  {
    if x == y {
      OneRunPerOrigin(env, states, steps, i, a, b);
    }
    if a == b {
      EventsAreDistinct(env, states, steps, i, x, y);
    }
  }

  // ---------------------------------------------------------------------------------------------
  // Oversized events and the unique index
  // ---------------------------------------------------------------------------------------------

  // Waiting for a dispatch that can only fail: its ledger key is already taken.
  predicate Stuck(db: Db, x: EventRow)
  {
    x in db.events && db.events[x].status.Pending? && EventKey(db.events[x]) in db.ledger
  }

  lemma {:induction false} StuckStep(env: Env, db: Db, step: Step, x: EventRow)
    requires Enabled(env, db, step) && Stuck(db, x)
    ensures var db' := Apply(env, db, step); x in db'.events && db'.events[x] == db.events[x]
  {
    hide HasRoom;
    hide SlotKey;
    hide ManualKey;
    hide RunEnabled;
    hide ApplyRun;
    hide EventInsertable;
    hide WellFormed;
  }

  /** A stuck event stays exactly as it is for ever: never a run, never dead-lettered, never retried. */
  lemma {:induction false} StuckForever(env: Env, states: seq<Db>, steps: seq<Step>, i: nat, j: nat, x: EventRow)
    requires Execution(env, states, steps) && i <= j < |states| && Stuck(states[i], x)
    ensures Stuck(states[j], x) && states[j].events[x] == states[i].events[x]
    decreases j
  {
    hide Enabled;
    hide Apply;
    if i < j {
      StuckForever(env, states, steps, i, j - 1, x);
      assert StepTaken(env, states[j - 1], steps[j - 1], states[j - 1 + 1]);
      StuckStep(env, states[j - 1], steps[j - 1], x);
      LedgerGrows(env, states[j - 1], steps[j - 1]);
    }
  }

  /** An oversized event is dead-lettered by its dispatch exactly when max_attempts is 1 and its ledger key
      is still free; every other dispatch leaves it stuck in all later states. */
  lemma {:induction false} OversizedDispatch(env: Env, states: seq<Db>, steps: seq<Step>, i: nat)
    requires Execution(env, states, steps) && i < |steps| && steps[i].FireWebhook?
    requires steps[i].event in states[i].events && Oversized(states[i].events[steps[i].event])
    ensures states[i].events[steps[i].event].trigger in states[i].triggers
    ensures var x := steps[i].event;
            var free := EventKey(states[i].events[x]) !in states[i].ledger;
            var last := states[i].triggers[states[i].events[x].trigger].settings.maxAttempts <= 1;
            && x in states[i + 1].events
            && states[i + 1].events[x].attempts == (if free then 1 else states[i].events[x].attempts)
            && (states[i + 1].events[x].status.DeadLettered? <==> last && free)
            && (!(last && free) ==> forall j :: i < j < |states| ==> Stuck(states[j], x))
  {
    OversizedStep(env, states, steps, i);
    hide EventInv;
    hide Enabled;
    hide Apply;
    if Stuck(states[i + 1], steps[i].event) {
      forall j | i < j < |states|
        ensures Stuck(states[j], steps[i].event)
      {
        StuckForever(env, states, steps, i + 1, j, steps[i].event);
      }
    }
  }

  lemma {:induction false} OversizedStep(env: Env, states: seq<Db>, steps: seq<Step>, i: nat)
    requires Execution(env, states, steps) && i < |steps| && steps[i].FireWebhook?
    requires steps[i].event in states[i].events && Oversized(states[i].events[steps[i].event])
    ensures states[i].events[steps[i].event].trigger in states[i].triggers
    ensures var x := steps[i].event;
            var free := EventKey(states[i].events[x]) !in states[i].ledger;
            var last := states[i].triggers[states[i].events[x].trigger].settings.maxAttempts <= 1;
            && x in states[i + 1].events
            && states[i + 1].events[x].attempts == (if free then 1 else states[i].events[x].attempts)
            && (states[i + 1].events[x].status.DeadLettered? <==> last && free)
            && (Stuck(states[i + 1], x) <==> !(last && free))
  {
    hide HasRoom;
    EventsHold(env, states, steps, i);
    assert EventRowOk(states[i], steps[i].event);
    hide EventInv;
    assert StepTaken(env, states[i], steps[i], states[i + 1]);
  }

  const WEBHOOK_ENV := Env(100, (schedule: string, after: Time) => None)

  function Hook(maxAttempts: int): Trigger
  {
    Trigger("tenant", Webhook, true, false, Settings(0, "", FireNow, maxAttempts, 2, 0), 0, 0, None, None)
  }

  // One webhook trigger, possibly a manual fire with key "k", and one event.
  function HookState(maxAttempts: int, fired: bool): Db
  {
    var db := Db(0, map[0 := Hook(maxAttempts)], map[], map[], map[], map[]);
    if fired then Fire(db, 0, 0, FromManual(0, "k"), 0) else db
  }

  function WaitingState(maxAttempts: int, fired: bool, eventId: string, size: nat): Db
  {
    HookState(maxAttempts, fired).(events := map[0 := TriggerEvent(0, eventId, Obj([]), size, Pending, 0, 0, 0)])
  }

  lemma {:induction false} HookCreated(maxAttempts: int)
    requires maxAttempts > 0
    ensures var empty := Db(0, map[], map[], map[], map[], map[]);
            Init(empty) && StepTaken(WEBHOOK_ENV, empty, CreateTrigger(0, Hook(maxAttempts)), HookState(maxAttempts, false))
  {
  }

  lemma {:induction false} HookFired(maxAttempts: int)
    ensures StepTaken(WEBHOOK_ENV, HookState(maxAttempts, false), FireManual(0, "tenant", "k", 0), HookState(maxAttempts, true))
  {
    hide ManualKey;
    var db := HookState(maxAttempts, false);
    assert TriggerInflight(db, 0) == {} && TenantInflight(db, "tenant") == {};
  }

  lemma {:induction false} EventEnqueued(maxAttempts: int, fired: bool, eventId: string, size: nat)
    ensures StepTaken(WEBHOOK_ENV, HookState(maxAttempts, fired), Enqueue(0, 0, "tenant", eventId, Obj([]), size),
                      WaitingState(maxAttempts, fired, eventId, size))
  {
    hide OriginKey;
  }

  lemma {:induction false} EventDispatchable(maxAttempts: int, fired: bool, eventId: string, size: nat)
    ensures Enabled(WEBHOOK_ENV, WaitingState(maxAttempts, fired, eventId, size), FireWebhook(0, 1))
  {
    var db := WaitingState(maxAttempts, fired, eventId, size);
    SubsetSize(TriggerInflight(db, 0), {(0, ManualKey("k"))});
    SubsetSize(TenantInflight(db, "tenant"), {0});
  }

  /** A failing input with retries left: max_attempts is 3, and the first dispatch leaves the event stuck. */
  lemma {:induction false} OversizedRetryIsStuck() returns (states: seq<Db>, steps: seq<Step>)
    ensures |steps| == 3 && Execution(WEBHOOK_ENV, states, steps) && steps[2] == FireWebhook(0, 1)
    ensures 0 in states[2].events && Oversized(states[2].events[0])
    ensures 0 in states[2].triggers && states[2].triggers[0].settings.maxAttempts == 3
    ensures Stuck(states[3], 0) && states[3].events[0].attempts == 1
  {
    HookCreated(3);
    EventEnqueued(3, false, "e", 70_000);
    EventDispatchable(3, false, "e", 70_000);
    var waiting := WaitingState(3, false, "e", 70_000);
    hide Enabled;
    hide Apply;
    hide Init;
    var after := Apply(WEBHOOK_ENV, waiting, FireWebhook(0, 1));
    states := [Db(0, map[], map[], map[], map[], map[]), HookState(3, false), waiting, after];
    steps := [CreateTrigger(0, Hook(3)), Enqueue(0, 0, "tenant", "e", Obj([]), 70_000), FireWebhook(0, 1)];
    OversizedStep(WEBHOOK_ENV, states, steps, 2);
  }

  /** A failing input without retries: a manual fire has taken the ledger key `manual:k`, and the oversized
      event of that name is stuck unattempted although max_attempts is 1. */
  lemma {:induction false} TakenKeyIsStuck() returns (states: seq<Db>, steps: seq<Step>)
    ensures |steps| == 4 && Execution(WEBHOOK_ENV, states, steps) && steps[3] == FireWebhook(0, 1)
    ensures 0 in states[3].events && Oversized(states[3].events[0])
    ensures 0 in states[3].triggers && states[3].triggers[0].settings.maxAttempts == 1
    ensures Stuck(states[4], 0) && states[4].events[0].attempts == 0
  {
    HookCreated(1);
    HookFired(1);
    EventEnqueued(1, true, ManualKey("k"), 70_000);
    EventDispatchable(1, true, ManualKey("k"), 70_000);
    var waiting := WaitingState(1, true, ManualKey("k"), 70_000);
    hide Enabled;
    hide Apply;
    hide Init;
    var after := Apply(WEBHOOK_ENV, waiting, FireWebhook(0, 1));
    states := [Db(0, map[], map[], map[], map[], map[]), HookState(1, false), HookState(1, true), waiting, after];
    steps := [CreateTrigger(0, Hook(1)), FireManual(0, "tenant", "k", 0),
              Enqueue(0, 0, "tenant", ManualKey("k"), Obj([]), 70_000), FireWebhook(0, 1)];
    OversizedStep(WEBHOOK_ENV, states, steps, 3);
  }

  /** A dead-lettered event that is replayed is stuck at once. */
  lemma {:induction false} ReplayIsStuck(env: Env, states: seq<Db>, steps: seq<Step>, i: nat, x: EventRow)
    requires Execution(env, states, steps) && i < |states| && x in states[i].events
    requires states[i].events[x].status.DeadLettered?
    ensures Stuck(ReplayEvent(states[i], x), x)
  {
    EventsHold(env, states, steps, i);
    assert EventRowOk(states[i], x);
  }

  /** While a stuck event is the first one due, the dispatcher fails without dispatching anything:
      no webhook, cron or interval trigger fires. */
  lemma {:induction false} StuckHeadBlocksDispatcher(env: Env, db: Db, h: Heads, run: RunId, offsets: Offsets)
    requires Selects(env, db, h, run, offsets)
    requires h.event.Some? && Stuck(db, h.event.value)
    ensures DispatchNext(env, db, h, run, offsets) == (db, Aborted)
  {
    hide HasRoom;
    hide EarlierEvent;
    hide NextTrigger;
  }

  // The first due event is unique: the order ends in the row id.
  lemma {:induction false} FirstEventUnique(env: Env, db: Db, x: EventRow, y: EventRow)
    requires NextEvent(env, db, x) && NextEvent(env, db, y)
    ensures x == y
  {
    hide HasRoom;
    hide DispatchRank;
    assert !EarlierEvent(db, x, y) && !EarlierEvent(db, y, x);
  }

  /** From the state in which an event is stuck, in every later state of any execution: as long as that event
      is the first one due, a dispatcher call fires nothing and changes nothing. */
  lemma {:induction false} StuckHeadBlocksForever(env: Env, states: seq<Db>, steps: seq<Step>, i: nat, j: nat, x: EventRow,
                               h: Heads, run: RunId, offsets: Offsets)
    requires Execution(env, states, steps) && i <= j < |states| && Stuck(states[i], x)
    requires NextEvent(env, states[j], x) && Selects(env, states[j], h, run, offsets)
    ensures DispatchNext(env, states[j], h, run, offsets) == (states[j], Aborted)
  {
    StuckForever(env, states, steps, i, j, x);
    hide Execution;
    hide WebhookCall;
    hide CronCall;
    hide SelectsTrigger;
    hide DispatchNext;
    assert h.event.Some? by {
      hide HasRoom;
      hide EarlierEvent;
    }
    FirstEventUnique(env, states[j], x, h.event.value);
    StuckHeadBlocksDispatcher(env, states[j], h, run, offsets);
  }

  // ---------------------------------------------------------------------------------------------
  // Manual fires
  // ---------------------------------------------------------------------------------------------

  lemma {:induction false} LedgerRowKept(env: Env, states: seq<Db>, steps: seq<Step>, i: nat, j: nat, k: LedgerKey)
    requires Execution(env, states, steps) && i <= j < |states| && k in states[i].ledger
    ensures k in states[j].ledger && states[j].ledger[k] == states[i].ledger[k]
    decreases j
  {
    hide Enabled;
    hide Apply;
    if i < j {
      LedgerRowKept(env, states, steps, i, j - 1, k);
      assert StepTaken(env, states[j - 1], steps[j - 1], states[j - 1 + 1]);
      LedgerGrows(env, states[j - 1], steps[j - 1]);
    }
  }

  /** After a manual fire created a run, every later fire with that key on the live trigger reports it. */
  lemma {:induction false} ManualFireReportsSameRun(env: Env, states: seq<Db>, steps: seq<Step>, i: nat, j: nat,
                                 t: TriggerId, tenant: Tenant, key: string, r: RunId, other: RunId)
    requires Execution(env, states, steps) && i < j < |states|
    requires steps[i] == FireManual(t, tenant, key, r)
    requires FireManually(env, states[i], t, tenant, key, r).1 == FireCreated(r)
    requires t in states[j].triggers && Live(states[j].triggers[t]) && states[j].triggers[t].tenant == tenant
    ensures FireManually(env, states[j], t, tenant, key, other) == (states[j], Duplicate(Some(r)))
  {
    hide HasRoom;
    hide ManualKey;
    assert StepTaken(env, states[i], steps[i], states[i + 1]);
    var k := (t, ManualKey(key));
    assert k in states[i + 1].ledger && states[i + 1].ledger[k].run == Some(r);
    LedgerRowKept(env, states, steps, i + 1, j, k);
  }

  // Every ledger key that looks manual was written by a manual fire, or belongs to an event of that name.
  ghost predicate ManualRowOk(db: Db, k: LedgerKey)
    requires k in db.ledger
  {
    IsManualKey(k.1) ==>
      || (exists x :: x in db.events && EventKey(db.events[x]) == k)
      || (db.ledger[k].run.Some? && db.ledger[k].run.value in db.origin && db.origin[db.ledger[k].run.value].FromManual?)
  }

  ghost predicate ManualInv(db: Db)
  {
    forall k :: k in db.ledger ==> ManualRowOk(db, k)
  }

  lemma {:induction false} SlotKeysAreNotManual(slot: Time)
    ensures !IsManualKey(SlotKey(slot))
  {
    assert MANUAL_PREFIX[0] == 'm';
  }

  lemma {:induction false} EventRowsStay(env: Env, db: Db, step: Step, x: EventRow)
    requires Enabled(env, db, step) && x in db.events
    ensures var db' := Apply(env, db, step); x in db'.events && EventKey(db'.events[x]) == EventKey(db.events[x])
  {
    hide HasRoom;
    hide SlotKey;
    hide ManualKey;
    hide RunEnabled;
    hide ApplyRun;
    hide EventInsertable;
    hide WellFormed;
  }

  lemma {:induction false} OriginKept(env: Env, db: Db, step: Step, r: RunId)
    requires Enabled(env, db, step) && LedgerInv(db) && r in db.origin
    ensures var db' := Apply(env, db, step); r in db'.origin && db'.origin[r] == db.origin[r]
  {
    hide Enabled;
    hide Apply;
    hide HasRoom;
    hide OriginKey;
    assert OriginRecorded(db, r);
    var eff := StepEffect(env, db, step);
  }

  lemma {:induction false} ManualFrame(env: Env, db: Db, step: Step, k: LedgerKey)
    requires Enabled(env, db, step) && ManualInv(db) && LedgerInv(db) && k in db.ledger
    requires k in Apply(env, db, step).ledger
    ensures ManualRowOk(Apply(env, db, step), k)
  {
    hide Enabled;
    hide Apply;
    hide IsManualKey;
    hide EventKey;
    hide LedgerInv;
    var db' := Apply(env, db, step);
    assert ManualRowOk(db, k);
    LedgerGrows(env, db, step);
    if x :| x in db.events && EventKey(db.events[x]) == k {
      EventRowsStay(env, db, step, x);
      assert x in db'.events && EventKey(db'.events[x]) == k;
    } else if IsManualKey(k.1) {
      OriginKept(env, db, step, db.ledger[k].run.value);
    }
  }

  lemma {:induction false} ManualStep(env: Env, db: Db, step: Step)
    requires Enabled(env, db, step) && ManualInv(db) && LedgerInv(db)
    ensures ManualInv(Apply(env, db, step))
  {
    var db' := Apply(env, db, step);
    forall k | k in db'.ledger
      ensures ManualRowOk(db', k)
    {
      if k in db.ledger {
        ManualFrame(env, db, step, k);
      } else {
        NewManualRow(env, db, step, k);
      }
    }
  }

  lemma {:induction false} NewManualRow(env: Env, db: Db, step: Step, k: LedgerKey)
    requires Enabled(env, db, step) && k in Apply(env, db, step).ledger && k !in db.ledger
    ensures ManualRowOk(Apply(env, db, step), k)
  {
    hide HasRoom;
    hide SlotKey;
    hide IsManualKey;
    hide RunEnabled;
    hide ApplyRun;
    var db' := Apply(env, db, step);
    if step.FireWebhook? {
      assert step.event in db'.events && EventKey(db'.events[step.event]) == k;
    } else if !step.FireManual? {
      NewSlotRow(env, db, step, k);
    }
  }

  lemma {:induction false} NewSlotRow(env: Env, db: Db, step: Step, k: LedgerKey)
    requires Enabled(env, db, step) && k in Apply(env, db, step).ledger && k !in db.ledger
    requires !step.FireWebhook? && !step.FireManual?
    ensures !IsManualKey(k.1)
  {
    hide HasRoom;
    hide SlotKey;
    hide IsManualKey;
    hide RunEnabled;
    hide ApplyRun;
    hide EventInsertable;
    if step.FireInterval? || step.FireCron? {
      SlotKeysAreNotManual(db.triggers[step.t].nextFireAt);
    }
  }

  lemma {:induction false} ManualHolds(env: Env, states: seq<Db>, steps: seq<Step>, i: nat)
    requires Execution(env, states, steps) && i < |states|
    ensures ManualInv(states[i])
  {
    hide Enabled;
    hide Apply;
    if i > 0 {
      ManualHolds(env, states, steps, i - 1);
      LedgerHolds(env, states, steps, i - 1);
      assert StepTaken(env, states[i - 1], steps[i - 1], states[i - 1 + 1]);
      ManualStep(env, states[i - 1], steps[i - 1]);
    }
  }

  // An event whose id is the ledger key of this manual fire has been dispatched.
  ghost predicate EventTookKey(db: Db, t: TriggerId, key: string)
  {
    (t, ManualKey(key)) in db.ledger && exists x :: x in db.events && EventKey(db.events[x]) == (t, ManualKey(key))
  }

  ghost predicate ManuallyFired(db: Db, t: TriggerId, key: string)
  {
    exists r :: r in db.origin && db.origin[r] == FromManual(t, key)
  }

  // The reply names, as the earlier fire, something no manual fire with the key created.
  ghost predicate Misattributed(db: Db, reply: FireReply, t: TriggerId, key: string)
  {
    && reply.Duplicate?
    && !(reply.earlier.Some? && reply.earlier.value in db.origin && db.origin[reply.earlier.value] == FromManual(t, key))
  }

  lemma {:induction false} ManualKeyInjective(a: string, b: string)
    requires ManualKey(a) == ManualKey(b)
    ensures a == b
  {
    assert ManualKey(a)[|MANUAL_PREFIX|..] == a && ManualKey(b)[|MANUAL_PREFIX|..] == b;
  }

  /** Exactly when a manual fire is answered by a foreign row: on a live trigger of the tenant the reply is a
      duplicate if and only if the key was fired manually or taken by a dispatched event of that name, and it
      names something else than a manual run with the key if and only if only such an event has taken it. */
  lemma {:induction false} ManualReplyExactly(env: Env, states: seq<Db>, steps: seq<Step>, i: nat,
                           t: TriggerId, tenant: Tenant, key: string, run: RunId)
    requires Execution(env, states, steps) && i < |states|
    requires t in states[i].triggers && Live(states[i].triggers[t]) && states[i].triggers[t].tenant == tenant
    ensures var reply := FireManually(env, states[i], t, tenant, key, run).1;
            && (reply.Duplicate? <==> ManuallyFired(states[i], t, key) || EventTookKey(states[i], t, key))
            && (Misattributed(states[i], reply, t, key) <==>
                  EventTookKey(states[i], t, key) && !ManuallyFired(states[i], t, key))
  {
    hide HasRoom;
    var db := states[i];
    var k := (t, ManualKey(key));
    ManualHolds(env, states, steps, i);
    LedgerHolds(env, states, steps, i);
    hide Execution;
    if r :| r in db.origin && db.origin[r] == FromManual(t, key) {
      assert OriginRecorded(db, r);
    }
    if k in db.ledger {
      assert ManualRowOk(db, k) && RowExplained(db, k);
      if db.ledger[k].run.Some? && db.origin[db.ledger[k].run.value].FromManual? {
        ManualKeyInjective(db.origin[db.ledger[k].run.value].idempotencyKey, key);
      }
    }
  }

  /** So where no event of the trigger has the name `manual:<key>`, a duplicate is always of a run that an
      earlier manual fire with the key created. */
  lemma {:induction false} DuplicateIsManual(env: Env, states: seq<Db>, steps: seq<Step>, i: nat,
                          t: TriggerId, tenant: Tenant, key: string, run: RunId)
    requires Execution(env, states, steps) && i < |states|
    requires forall x :: x in states[i].events ==> EventKey(states[i].events[x]) != (t, ManualKey(key))
    requires FireManually(env, states[i], t, tenant, key, run).1.Duplicate?
    ensures var earlier := FireManually(env, states[i], t, tenant, key, run).1.earlier;
            earlier.Some? && earlier.value in states[i].origin && states[i].origin[earlier.value] == FromManual(t, key)
  {
    hide HasRoom;
    ManualReplyExactly(env, states, steps, i, t, tenant, key, run);
  }

  /** A failing input: an event named `manual:k` is dispatched, and the first manual fire with key `k` is then
      answered with the event's run. */
  lemma {:induction false} EventAnswersManualFire() returns (states: seq<Db>, steps: seq<Step>)
    ensures |steps| == 3 && Execution(WEBHOOK_ENV, states, steps)
    ensures FireManually(WEBHOOK_ENV, states[3], 0, "tenant", "k", 2) == (states[3], Duplicate(Some(1)))
    ensures 1 in states[3].origin && states[3].origin[1] == FromEvent(0, ManualKey("k"))
    ensures !ManuallyFired(states[3], 0, "k")
  {
    HookCreated(1);
    EventEnqueued(1, false, ManualKey("k"), 2);
    EventDispatchable(1, false, ManualKey("k"), 2);
    var waiting := WaitingState(1, false, ManualKey("k"), 2);
    var after := Apply(WEBHOOK_ENV, waiting, FireWebhook(0, 1));
    assert after == DispatchWebhook(waiting, 0, 1).0;
    assert after.ledger[(0, ManualKey("k"))] == LedgerRow(Some(1), 0);
    hide Enabled;
    hide Apply;
    states := [Db(0, map[], map[], map[], map[], map[]), HookState(1, false), waiting, after];
    steps := [CreateTrigger(0, Hook(1)), Enqueue(0, 0, "tenant", ManualKey("k"), Obj([]), 2), FireWebhook(0, 1)];
  }
}
