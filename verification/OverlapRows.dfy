// What row locks keep for overlapping dispatch transactions: the schedule slots and the event rows are as
// safe as when each transaction is a single step.
module OverlapRows {
  import opened Prelude
  import opened RunTable
  import opened TriggerTable
  import opened TriggerProtocol
  import opened TriggerCaps
  import opened TriggerSlots
  import opened TriggerEvents
  import opened DispatchOverlap

  // The locked trigger is still as the transaction found it.
  predicate HeldRow(db: Db, tx: Tx)
  {
    tx.trigger in db.triggers &&
    match tx.fire
    case FireInterval(_, _, _) => db.triggers[tx.trigger].kind.Interval? && db.triggers[tx.trigger].nextFireAt <= db.now
    case FireCron(_, _, _) => db.triggers[tx.trigger].kind.Cron? && db.triggers[tx.trigger].nextFireAt <= db.now
    case FireWebhook(_, _) => db.triggers[tx.trigger].kind.Webhook?
    case _ => true
  }

  predicate HeldInv(s: State)
  {
    forall x :: x in s.open && s.open[x].holding ==> HeldRow(s.db, s.open[x])
  }

  lemma {:induction false} LockHolds(env: Env, s: State, x: TxId)
    requires OpenInv(s) && MoveEnabled(env, s, Lock(x))
    ensures HeldRow(s.db, s.open[x].(holding := true))
  {
    assert Committable(s.db, s.open[x]);
  }

  lemma {:induction false} ManualHoldsRow(env: Env, s: State, x: TxId, fire: Step)
    requires MoveEnabled(env, s, SelectManual(x, fire))
    ensures HeldRow(s.db, Tx(fire, fire.t, true))
  {
    CountedRoom(env, s, SelectManual(x, fire));
  }

  lemma {:induction false} CommitTouchesOwn(env: Env, db: Db, tx: Tx, t: TriggerId)
    requires Committable(db, tx) && t in db.triggers && t != tx.trigger
    ensures t in AfterCommit(env, db, tx).triggers && AfterCommit(env, db, tx).triggers[t] == db.triggers[t]
  {
    hide DispatchInterval;
    hide DispatchCron;
    hide DispatchWebhook;
    match tx.fire
    case FireInterval(u, run, offset) => IntervalTouches(db, u, run, offset);
    case FireCron(u, run, offset) => CronTouches(env, db, u, run, offset);
    case FireWebhook(row, run) => WebhookKeeps(db, row, run);
    case FireManual(_, _, _, _) =>
  }

  lemma {:induction false} CommitClock(env: Env, db: Db, tx: Tx)
    ensures AfterCommit(env, db, tx).now == db.now
  {
    hide OriginKey;
    hide SlotKey;
    hide Misfired;
  }

  lemma {:induction false} OtherKeepsRow(env: Env, s: State, step: Step, x: TxId)
    requires MoveEnabled(env, s, Other(step)) && x in s.open && s.open[x].holding && HeldRow(s.db, s.open[x])
    ensures HeldRow(Apply(env, s.db, step), s.open[x])
  {
    var t := s.open[x].trigger;
    assert Locked(s, t);
    assert Some(t) != TriggerOf(step) by {
      hide Apply;
    }
    hide Enabled;
    hide Apply;
    OtherTriggersKept(env, s.db, step, t);
    QuietOnLedger(env, s.db, step);
  }

  lemma {:induction false} HeldStep(env: Env, s: State, move: Move)
    requires OpenInv(s) && HeldInv(s) && MoveEnabled(env, s, move)
    ensures HeldInv(ApplyMove(env, s, move))
  {
    hide AfterCommit;
    hide Committable;
    hide FireEnabled;
    hide ManualPasses;
    hide RowDue;
    hide Enabled;
    hide Apply;
    match move
    case Count(x, fire) =>
    case Lock(x) => LockHolds(env, s, x);
    case SelectManual(x, fire) => ManualHoldsRow(env, s, x, fire);
    case Commit(x) =>
      forall y | y in s.open && y != x && s.open[y].holding
        ensures HeldRow(AfterCommit(env, s.db, s.open[x]), s.open[y])
      {
        CommitTouchesOwn(env, s.db, s.open[x], s.open[y].trigger);
        CommitClock(env, s.db, s.open[x]);
      }
    case Rollback(x) =>
    case Other(step) =>
      forall y | y in s.open && s.open[y].holding
        ensures HeldRow(Apply(env, s.db, step), s.open[y])
      {
        OtherKeepsRow(env, s, step, y);
      }
  }

  lemma {:induction false} HeldHolds(env: Env, states: seq<State>, moves: seq<Move>, i: nat)
    requires OverlapExecution(env, states, moves) && i < |states|
    ensures HeldInv(states[i])
  {
    hide MoveEnabled;
    hide ApplyMove;
    if i > 0 {
      HeldHolds(env, states, moves, i - 1);
      OpenHolds(env, states, moves, i - 1);
      assert MoveTaken(env, states[i - 1], moves[i - 1], states[i - 1 + 1]);
      hide HeldInv;
      HeldStep(env, states[i - 1], moves[i - 1]);
    }
  }

  // ---------------------------------------------------------------------------------------------
  // Slots
  // ---------------------------------------------------------------------------------------------

  lemma {:induction false} InsertManualSlot(db: Db, t: TriggerId, key: string, run: RunId)
    requires SlotInv(db) && t in db.triggers
    ensures SlotInv(InsertManual(db, t, key, run))
  {
    hide SlotKey;
    var db' := InsertManual(db, t, key, run);
    if (t, ManualKey(key)) !in db.ledger {
      SlotAdd(db, db', (t, ManualKey(key)), db'.ledger[(t, ManualKey(key))]);
    }
  }

  lemma {:induction false} CommitSlots(env: Env, db: Db, tx: Tx)
    requires CronAdvances(env) && SlotInv(db) && Committable(db, tx) && HeldRow(db, tx)
    ensures SlotInv(AfterCommit(env, db, tx))
  {
    hide SlotInv;
    hide DispatchInterval;
    hide DispatchCron;
    hide DispatchWebhook;
    hide InsertManual;
    match tx.fire
    case FireInterval(t, run, offset) => IntervalSlot(db, t, run, offset);
    case FireCron(t, run, offset) => CronSlot(env, db, t, run, offset);
    case FireWebhook(row, run) => WebhookSlot(db, row, run);
    case FireManual(t, _, key, run) => InsertManualSlot(db, t, key, run);
  }

  // A configuration update, if the move is one, writes a time after the slots recorded for its trigger.
  predicate MoveIsAhead(env: Env, s: State, move: Move)
  {
    move.Other? ==> UpdateIsAhead(env, s.db, move.step)
  }

  lemma {:induction false} SlotMoveExactly(env: Env, s: State, move: Move)
    requires CronAdvances(env) && OpenInv(s) && HeldInv(s) && SlotInv(s.db) && MoveEnabled(env, s, move)
    ensures SlotInv(ApplyMove(env, s, move).db) <==> MoveIsAhead(env, s, move)
  {
    hide SlotInv;
    hide AfterCommit;
    hide Committable;
    hide FireEnabled;
    hide ManualPasses;
    hide RowDue;
    hide UpdateIsAhead;
    hide Enabled;
    hide Apply;
    match move
    case Commit(x) => CommitSlots(env, s.db, s.open[x]);
    case Other(step) => SlotStepExactly(env, s.db, step);
    case _ =>
  }

  /** However transactions overlap, every state has its recorded slots before next_fire_at if and only if each
      configuration update wrote a time after the slots recorded so far. */
  lemma {:induction false} SlotsUnderOverlap(env: Env, states: seq<State>, moves: seq<Move>, n: nat)
    requires CronAdvances(env) && OverlapExecution(env, states, moves) && n < |states|
    ensures (forall j :: 0 <= j <= n ==> SlotInv(states[j].db)) <==>
            (forall k :: 0 <= k < n ==> MoveIsAhead(env, states[k], moves[k]))
  {
    hide MoveEnabled;
    hide ApplyMove;
    hide SlotInv;
    hide MoveIsAhead;
    if n == 0 {
      NoSlotsYet(states[0].db);
    } else {
      SlotsUnderOverlap(env, states, moves, n - 1);
      assert MoveTaken(env, states[n - 1], moves[n - 1], states[n - 1 + 1]);
      if SlotInv(states[n - 1].db) {
        OpenHolds(env, states, moves, n - 1);
        HeldHolds(env, states, moves, n - 1);
        SlotMoveExactly(env, states[n - 1], moves[n - 1]);
      }
    }
  }

  // ---------------------------------------------------------------------------------------------
  // Events
  // ---------------------------------------------------------------------------------------------

  lemma {:induction false} OtherCommitEvents(env: Env, db: Db, tx: Tx)
    requires Committable(db, tx) && !tx.fire.FireWebhook?
    ensures AfterCommit(env, db, tx).events == db.events
  {
    hide OriginKey;
    hide SlotKey;
    hide Misfired;
  }

  lemma {:induction false} CommitEvents(env: Env, db: Db, tx: Tx)
    requires EventInv(db) && Committable(db, tx)
    ensures EventInv(AfterCommit(env, db, tx))
  {
    hide EventInv;
    if tx.fire.FireWebhook? {
      hide DispatchWebhook;
      WebhookEvents(db, tx.fire.event, tx.fire.run);
    } else {
      OtherCommitEvents(env, db, tx);
      var eff := CommitEffect(env, db, tx);
      SameEventsKept(db, AfterCommit(env, db, tx), eff);
    }
  }

  lemma {:induction false} SameEventsKept(db: Db, db': Db, eff: Effect)
    requires EventInv(db) && HasEffect(db, db', eff) && db'.events == db.events
    ensures EventInv(db')
  {
    forall x | x in db.events
      ensures EventRowOk(db', x)
    {
      assert EventRowOk(db, x);
    }
  }

  lemma {:induction false} EventMove(env: Env, s: State, move: Move)
    requires OpenInv(s) && EventInv(s.db) && MoveEnabled(env, s, move)
    ensures EventInv(ApplyMove(env, s, move).db)
  {
    hide EventInv;
    hide AfterCommit;
    hide Committable;
    hide FireEnabled;
    hide ManualPasses;
    hide RowDue;
    hide Enabled;
    hide Apply;
    match move
    case Commit(x) => CommitEvents(env, s.db, s.open[x]);
    case Other(step) => EventStep(env, s.db, step);
    case _ =>
  }

  /** However transactions overlap, no two events of a trigger share an id or a payload up to key order, every
      dispatched event has its key in the ledger, and every triggered run has its own ledger row. */
  lemma {:induction false} EventsUnderOverlap(env: Env, states: seq<State>, moves: seq<Move>, i: nat)
    requires OverlapExecution(env, states, moves) && i < |states|
    ensures EventInv(states[i].db) && LedgerInv(states[i].db)
  {
    hide MoveEnabled;
    hide ApplyMove;
    hide LedgerInv;
    OpenHolds(env, states, moves, i);
    if i > 0 {
      EventsUnderOverlap(env, states, moves, i - 1);
      OpenHolds(env, states, moves, i - 1);
      assert MoveTaken(env, states[i - 1], moves[i - 1], states[i - 1 + 1]);
      hide EventInv;
      EventMove(env, states[i - 1], moves[i - 1]);
    }
  }
}
