// Overlapping dispatch transactions. The dispatcher's selecting statement counts on its snapshot and locks
// its row later, rechecking that row alone; a manual fire locks its trigger first and counts then; both
// commit their inserts later still. A count may therefore be outdated when its transaction commits.
module DispatchOverlap {
  import opened Prelude
  import opened RunTable
  import opened TriggerTable
  import opened TriggerProtocol
  import opened TriggerCaps
  import TriggerEvents

  type TxId = nat

  // A transaction that has counted under the limits; once it holds its trigger's row it may commit.
  datatype Tx = Tx(fire: Step, trigger: TriggerId, holding: bool)
  datatype State = State(db: Db, open: map<TxId, Tx>)

  datatype Move =
    | Count(tx: TxId, fire: Step)
    | Lock(tx: TxId)
    | SelectManual(tx: TxId, fire: Step)
    | Commit(tx: TxId)
    | Rollback(tx: TxId)
    | Other(step: Step)

  // The trigger a firing locks.
  function TargetOf(db: Db, fire: Step): (t: TriggerId)
    requires IsFire(fire)
  {
    match fire
    case FireInterval(t, _, _) => t
    case FireCron(t, _, _) => t
    case FireWebhook(row, _) => if row in db.events then db.events[row].trigger else 0
    case FireManual(t, _, _, _) => t
  }

  predicate Locked(s: State, t: TriggerId)
  {
    exists x :: x in s.open && s.open[x].holding && s.open[x].trigger == t
  }

  predicate RunReserved(s: State, run: RunId)
  {
    exists x :: x in s.open && IsFire(s.open[x].fire) && s.open[x].fire.run == run
  }

  // What a manual fire has checked, under its lock: a live trigger, an unused key and room.
  predicate ManualPasses(env: Env, db: Db, fire: Step)
    requires fire.FireManual?
  {
    fire.run !in db.runs && FireManually(env, db, fire.t, fire.tenant, fire.key, fire.run).1.FireCreated?
  }

  // The recheck of the locked row: everything but the counts.
  predicate RowDue(db: Db, fire: Step)
    requires IsFire(fire)
  {
    match fire
    case FireInterval(t, _, _) => ScheduleDue(db, Interval, t)
    case FireCron(t, _, _) => ScheduleDue(db, Cron, t)
    case FireWebhook(row, _) => EventWaiting(db, row)
    case FireManual(_, _, _, _) => true
  }

  // Statements that wait for a locked row, and ids that are already taken.
  predicate Waits(s: State, step: Step)
  {
    || (step.SetEnabled? && Locked(s, step.t))
    || (step.Configure? && Locked(s, step.t))
    || (step.ApiCreate? && RunReserved(s, step.run))
  }

  predicate MoveEnabled(env: Env, s: State, move: Move)
  {
    match move
    case Count(x, fire) =>
      && x !in s.open && IsFire(fire) && !fire.FireManual? && FireEnabled(env, s.db, fire)
      && !RunReserved(s, fire.run)
    case Lock(x) =>
      && x in s.open && !s.open[x].holding && !Locked(s, s.open[x].trigger)
      && IsFire(s.open[x].fire) && RowDue(s.db, s.open[x].fire)
    case SelectManual(x, fire) =>
      && x !in s.open && fire.FireManual? && ManualPasses(env, s.db, fire)
      && !Locked(s, fire.t) && !RunReserved(s, fire.run)
    case Commit(x) => x in s.open && s.open[x].holding
    case Rollback(x) => x in s.open
    case Other(step) => !IsFire(step) && Enabled(env, s.db, step) && !Waits(s, step)
  }

  // The inserts of a manual fire whose checks are behind it.
  function InsertManual(db: Db, t: TriggerId, key: string, run: RunId): Db
    requires t in db.triggers
  {
    if (t, ManualKey(key)) in db.ledger then db else Fire(db, t, run, FromManual(t, key), db.now)
  }

  // The rows a commit writes to are still there.
  predicate Committable(db: Db, tx: Tx)
  {
    && IsFire(tx.fire) && tx.fire.run !in db.runs && tx.trigger in db.triggers
    && (tx.fire.FireWebhook? ==> tx.fire.event in db.events)
    && TargetOf(db, tx.fire) == tx.trigger
  }

  function AfterCommit(env: Env, db: Db, tx: Tx): Db
  {
    if !Committable(db, tx) then db
    else
      match tx.fire
      case FireInterval(t, run, offset) => DispatchInterval(db, t, run, offset).0
      case FireCron(t, run, offset) => DispatchCron(env, db, t, run, offset).0
      case FireWebhook(row, run) => DispatchWebhook(db, row, run).0
      case FireManual(t, _, key, run) => InsertManual(db, t, key, run)
  }

  function ApplyMove(env: Env, s: State, move: Move): State
    requires MoveEnabled(env, s, move)
  {
    match move
    case Count(x, fire) => s.(open := s.open[x := Tx(fire, TargetOf(s.db, fire), false)])
    case Lock(x) => s.(open := s.open[x := s.open[x].(holding := true)])
    case SelectManual(x, fire) => s.(open := s.open[x := Tx(fire, fire.t, true)])
    case Commit(x) => State(AfterCommit(env, s.db, s.open[x]), s.open - {x})
    case Rollback(x) => s.(open := s.open - {x})
    case Other(step) => s.(db := Apply(env, s.db, step))
  }

  ghost predicate MoveTaken(env: Env, s: State, move: Move, s': State)
  {
    MoveEnabled(env, s, move) && s' == ApplyMove(env, s, move)
  }

  ghost predicate OverlapExecution(env: Env, states: seq<State>, moves: seq<Move>)
  {
    && |states| == |moves| + 1 && Init(states[0].db) && states[0].open == map[]
    && forall i :: 0 <= i < |moves| ==> MoveTaken(env, states[i], moves[i], states[i + 1])
  }

  // At most k transactions are ever between their count and their commit at once.
  predicate OpenAtMost(states: seq<State>, k: nat)
  {
    forall i :: 0 <= i < |states| ==> |states[i].open| <= k
  }

  // ---------------------------------------------------------------------------------------------
  // Open transactions stay committable, for different runs, and hold different triggers
  // ---------------------------------------------------------------------------------------------

  predicate OpenInv(s: State)
  {
    && (forall x :: x in s.open ==> Committable(s.db, s.open[x]))
    && (forall x, y :: x in s.open && y in s.open && x != y ==> s.open[x].fire.run != s.open[y].fire.run)
    && (forall x, y :: x in s.open && y in s.open && x != y && s.open[x].holding && s.open[y].holding ==>
          s.open[x].trigger != s.open[y].trigger)
  }

  lemma {:induction false} CommitEffect(env: Env, db: Db, tx: Tx) returns (eff: Effect)
    requires Committable(db, tx)
    ensures HasEffect(db, AfterCommit(env, db, tx), eff)
    ensures eff.Quiet? ==> AfterCommit(env, db, tx) == db
    ensures eff.Fired? ==> eff.origin.trigger == tx.trigger && eff.run == tx.fire.run
  {
    hide DispatchInterval;
    hide DispatchCron;
    hide DispatchWebhook;
    match tx.fire
    case FireInterval(t, run, offset) => eff := IntervalEffect(db, t, run, offset);
    case FireCron(t, run, offset) => eff := CronEffect(env, db, t, run, offset);
    case FireWebhook(row, run) => eff := WebhookEffect(db, row, run);
    case FireManual(t, _, key, run) =>
      eff := if (t, ManualKey(key)) in db.ledger then Quiet else Fired(run, FromManual(t, key), db.now);
  }

  lemma {:induction false} CommitKeepsEvents(env: Env, db: Db, tx: Tx, row: EventRow)
    requires Committable(db, tx) && row in db.events
    ensures row in AfterCommit(env, db, tx).events && AfterCommit(env, db, tx).events[row].trigger == db.events[row].trigger
  {
    hide OriginKey;
    hide SlotKey;
    hide Misfired;
    if !tx.fire.FireWebhook? {
      assert AfterCommit(env, db, tx).events == db.events;
    }
  }

  lemma {:induction false} OtherRuns(env: Env, db: Db, step: Step, run: RunId)
    requires !IsFire(step) && Enabled(env, db, step) && run !in db.runs
    ensures run in Apply(env, db, step).runs ==> step.ApiCreate? && step.run == run
  {
    if step.ApiCreate? {
      hide InsertAllowed;
    } else {
      hide Enabled;
      hide Apply;
      if IsRunStep(step) {
        RunEffect(env, db, step);
      } else {
        TableEffect(env, db, step);
      }
    }
  }

  lemma {:induction false} StillCommittable(db: Db, db': Db, tx: Tx)
    requires Committable(db, tx) && tx.fire.run !in db'.runs && TriggersEvolve(db.triggers, db'.triggers)
    requires tx.fire.FireWebhook? ==>
               tx.fire.event in db'.events && db'.events[tx.fire.event].trigger == db.events[tx.fire.event].trigger
    ensures Committable(db', tx)
  {
  }

  lemma {:induction false} OtherKeepsOpen(env: Env, s: State, step: Step, x: TxId)
    requires OpenInv(s) && MoveEnabled(env, s, Other(step)) && x in s.open
    ensures Committable(Apply(env, s.db, step), s.open[x])
  {
    hide Enabled;
    hide Apply;
    var tx := s.open[x];
    assert Committable(s.db, tx);
    OtherRuns(env, s.db, step, tx.fire.run);
    LedgerGrows(env, s.db, step);
    if tx.fire.FireWebhook? {
      TriggerEvents.EventRowsStay(env, s.db, step, tx.fire.event);
    }
    StillCommittable(s.db, Apply(env, s.db, step), tx);
  }

  lemma {:induction false} CommitKeepsOpen(env: Env, s: State, x: TxId, y: TxId)
    requires OpenInv(s) && x in s.open && y in s.open && x != y
    ensures Committable(AfterCommit(env, s.db, s.open[x]), s.open[y])
  {
    hide AfterCommit;
    var tx, other := s.open[x], s.open[y];
    assert Committable(s.db, tx) && Committable(s.db, other);
    var eff := CommitEffect(env, s.db, tx);
    if other.fire.FireWebhook? {
      CommitKeepsEvents(env, s.db, tx, other.fire.event);
    }
    StillCommittable(s.db, AfterCommit(env, s.db, tx), other);
  }

  lemma {:induction false} CommittableFires(db: Db, tx: Tx)
    requires Committable(db, tx)
    ensures IsFire(tx.fire)
  {
  }

  lemma {:induction false} CountCommittable(env: Env, s: State, x: TxId, fire: Step)
    requires MoveEnabled(env, s, Count(x, fire))
    ensures Committable(s.db, Tx(fire, TargetOf(s.db, fire), false))
  {
    hide HasRoom;
  }

  lemma {:induction false} ManualCommittable(env: Env, s: State, x: TxId, fire: Step)
    requires MoveEnabled(env, s, SelectManual(x, fire))
    ensures Committable(s.db, Tx(fire, fire.t, true))
  {
    hide HasRoom;
  }

  // A new transaction's run is its own.
  lemma {:induction false} FreshRun(s: State, run: RunId, y: TxId)
    requires OpenInv(s) && !RunReserved(s, run) && y in s.open
    ensures IsFire(s.open[y].fire) && s.open[y].fire.run != run
  {
    CommittableFires(s.db, s.open[y]);
  }

  lemma {:induction false} OpenStep(env: Env, s: State, move: Move)
    requires OpenInv(s) && MoveEnabled(env, s, move)
    ensures OpenInv(ApplyMove(env, s, move))
  {
    hide AfterCommit;
    hide Enabled;
    hide Apply;
    hide FireEnabled;
    hide ManualPasses;
    hide RowDue;
    match move
    case Count(x, fire) =>
      CountCommittable(env, s, x, fire);
      forall y | y in s.open ensures IsFire(s.open[y].fire) && s.open[y].fire.run != fire.run {
        FreshRun(s, fire.run, y);
      }
      hide Committable;
    case Lock(x) =>
      assert Committable(s.db, s.open[x].(holding := true));
      hide Committable;
    case SelectManual(x, fire) =>
      ManualCommittable(env, s, x, fire);
      forall y | y in s.open ensures IsFire(s.open[y].fire) && s.open[y].fire.run != fire.run {
        FreshRun(s, fire.run, y);
      }
      hide Committable;
    case Commit(x) =>
      forall y | y in s.open && y != x
        ensures Committable(AfterCommit(env, s.db, s.open[x]), s.open[y])
      {
        CommitKeepsOpen(env, s, x, y);
      }
    case Rollback(x) =>
    case Other(step) =>
      forall y | y in s.open
        ensures Committable(Apply(env, s.db, step), s.open[y])
      {
        OtherKeepsOpen(env, s, step, y);
      }
  }

  // ---------------------------------------------------------------------------------------------
  // Limits
  // ---------------------------------------------------------------------------------------------

  // Transactions that may still add a run to the trigger, or to the tenant.
  function OpenOn(s: State, t: TriggerId): set<TxId>
  {
    set x | x in s.open && s.open[x].trigger == t
  }

  function OpenFor(s: State, tenant: Tenant): set<TxId>
  {
    set x | x in s.open && s.open[x].trigger in s.db.triggers && s.db.triggers[s.open[x].trigger].tenant == tenant
  }

  // Running or queued, and about to be.
  predicate TriggerInv(s: State, t: TriggerId, k: nat)
  {
    t in s.db.triggers ==>
      |TriggerInflight(s.db, t)| + |OpenOn(s, t)| <= s.db.triggers[t].settings.maxInflight - 1 + k
  }

  predicate TenantInv(env: Env, s: State, tenant: Tenant, k: nat)
  {
    |TenantInflight(s.db, tenant)| + |OpenFor(s, tenant)| <= TenantCap(env) - 1 + k
  }

  predicate LowersNot(s: State, move: Move, t: TriggerId)
  {
    move.Other? ==> KeepsLimit(s.db, move.step, t)
  }

  predicate FeedsNot(move: Move, tenant: Tenant)
  {
    move.Other? ==> NotFedByApi(move.step, tenant)
  }

  lemma {:induction false} LedgerMove(env: Env, s: State, move: Move)
    requires OpenInv(s) && LedgerInv(s.db) && MoveEnabled(env, s, move)
    ensures LedgerInv(ApplyMove(env, s, move).db)
  {
    hide LedgerInv;
    hide AfterCommit;
    hide Enabled;
    hide Apply;
    match move
    case Commit(x) =>
      var eff := CommitEffect(env, s.db, s.open[x]);
      LedgerStep(s.db, AfterCommit(env, s.db, s.open[x]), eff);
    case Other(step) =>
      var eff := StepEffect(env, s.db, step);
      LedgerStep(s.db, Apply(env, s.db, step), eff);
    case _ =>
  }

  // Counting found room, for the dispatcher and for a manual fire.
  lemma {:induction false} CountedRoom(env: Env, s: State, move: Move)
    requires MoveEnabled(env, s, move) && (move.Count? || move.SelectManual?)
    ensures IsFire(move.fire)
    ensures var t := TargetOf(s.db, move.fire); t in s.db.triggers && HasRoom(env, s.db, t)
  {
    hide HasRoom;
  }

  lemma {:induction false} CommitTriggers(env: Env, db: Db, tx: Tx, t: TriggerId)
    requires Committable(db, tx)
    ensures t in AfterCommit(env, db, tx).triggers <==> t in db.triggers
    ensures t in db.triggers ==> AfterCommit(env, db, tx).triggers[t].settings == db.triggers[t].settings
    ensures t in db.triggers ==> AfterCommit(env, db, tx).triggers[t].tenant == db.triggers[t].tenant
  {
    hide DispatchInterval;
    hide DispatchCron;
    hide DispatchWebhook;
    match tx.fire
    case FireInterval(u, run, offset) => IntervalTouches(db, u, run, offset);
    case FireCron(u, run, offset) => CronTouches(env, db, u, run, offset);
    case FireWebhook(row, run) => WebhookKeeps(db, row, run);
    case FireManual(_, _, _, _) =>
  }

  lemma {:induction false} OtherTrigger(env: Env, s: State, step: Step, t: TriggerId)
    requires OpenInv(s) && LedgerInv(s.db) && MoveEnabled(env, s, Other(step)) && KeepsLimit(s.db, step, t)
    ensures var db' := Apply(env, s.db, step);
            && (t in s.db.triggers ==>
                  && t in db'.triggers && db'.triggers[t].settings.maxInflight >= s.db.triggers[t].settings.maxInflight
                  && |TriggerInflight(db', t)| <= |TriggerInflight(s.db, t)|)
            && (t !in s.db.triggers && t in db'.triggers ==>
                  TriggerInflight(db', t) == {} && db'.triggers[t].settings.maxInflight > 0 && OpenOn(s, t) == {})
  {
    hide TriggerInflight;
    hide Enabled;
    hide Apply;
    var db' := Apply(env, s.db, step);
    var eff := StepEffect(env, s.db, step);
    LimitStep(env, s.db, step, t);
    TriggerGrowth(s.db, db', eff, t);
    if t !in s.db.triggers && t in db'.triggers {
      NewTriggerEmpty(s.db, db', t);
    }
  }

  lemma {:induction false} TriggerMove(env: Env, s: State, move: Move, t: TriggerId, k: nat)
    requires OpenInv(s) && LedgerInv(s.db) && MoveEnabled(env, s, move) && LowersNot(s, move, t)
    requires TriggerInv(s, t, k) && |ApplyMove(env, s, move).open| <= k
    ensures TriggerInv(ApplyMove(env, s, move), t, k)
  {
    hide LedgerInv;
    hide TriggerInflight;
    hide Committable;
    hide AfterCommit;
    hide FireEnabled;
    hide ManualPasses;
    hide RowDue;
    hide Enabled;
    hide Apply;
    var s' := ApplyMove(env, s, move);
    var before, after := OpenOn(s, t), OpenOn(s', t);
    if (move.Count? || move.SelectManual?) && IsFire(move.fire) && TargetOf(s.db, move.fire) == t {
      CountedRoom(env, s, move);
      SubsetSize(after, s'.open.Keys);
    } else if move.Commit? {
      var tx := s.open[move.tx];
      var eff := CommitEffect(env, s.db, tx);
      TriggerGrowth(s.db, s'.db, eff, t);
      CommitTriggers(env, s.db, tx, t);
      assert after == before - {move.tx};
    } else {
      assert after <= before;
      SubsetSize(after, before);
      if move.Other? {
        OtherTrigger(env, s, move.step, t);
      }
    }
  }

  lemma {:induction false} CommitTenant(env: Env, s: State, x: TxId, tenant: Tenant)
    requires OpenInv(s) && x in s.open
    ensures var s' := State(AfterCommit(env, s.db, s.open[x]), s.open - {x});
            |TenantInflight(s'.db, tenant)| + |OpenFor(s', tenant)| <= |TenantInflight(s.db, tenant)| + |OpenFor(s, tenant)|
  {
    hide TenantInflight;
    hide AfterCommit;
    var tx := s.open[x];
    var s' := State(AfterCommit(env, s.db, tx), s.open - {x});
    var eff := CommitEffect(env, s.db, tx);
    TenantGrowth(s.db, s'.db, eff, tenant);
    hide HasEffect;
    forall u
      ensures u in s'.db.triggers <==> u in s.db.triggers
      ensures u in s.db.triggers ==> s'.db.triggers[u].tenant == s.db.triggers[u].tenant
    {
      CommitTriggers(env, s.db, tx, u);
    }
    assert OpenFor(s', tenant) == OpenFor(s, tenant) - {x};
  }

  lemma {:induction false} OtherTenant(env: Env, s: State, step: Step, tenant: Tenant)
    requires OpenInv(s) && MoveEnabled(env, s, Other(step)) && NotFedByApi(step, tenant)
    ensures var s' := ApplyMove(env, s, Other(step));
            |TenantInflight(s'.db, tenant)| <= |TenantInflight(s.db, tenant)| && OpenFor(s', tenant) <= OpenFor(s, tenant)
  {
    hide Enabled;
    hide Apply;
    var s' := ApplyMove(env, s, Other(step));
    ApiRunsElsewhere(env, s.db, step, tenant);
    SubsetSize(TenantInflight(s'.db, tenant), TenantInflight(s.db, tenant));
    LedgerGrows(env, s.db, step);
  }

  lemma {:induction false} TenantMove(env: Env, s: State, move: Move, tenant: Tenant, k: nat)
    requires OpenInv(s) && MoveEnabled(env, s, move) && FeedsNot(move, tenant)
    requires TenantInv(env, s, tenant, k) && |ApplyMove(env, s, move).open| <= k
    ensures TenantInv(env, ApplyMove(env, s, move), tenant, k)
  {
    hide TenantInflight;
    hide AfterCommit;
    hide FireEnabled;
    hide ManualPasses;
    hide RowDue;
    hide Enabled;
    hide Apply;
    var s' := ApplyMove(env, s, move);
    var before, after := OpenFor(s, tenant), OpenFor(s', tenant);
    if move.Count? || move.SelectManual? {
      CountedRoom(env, s, move);
      if s.db.triggers[TargetOf(s.db, move.fire)].tenant == tenant {
        SubsetSize(after, s'.open.Keys);
      } else {
        assert after <= before;
        SubsetSize(after, before);
      }
    } else if move.Commit? {
      CommitTenant(env, s, move.tx, tenant);
    } else {
      if move.Other? {
        OtherTenant(env, s, move.step, tenant);
      }
      assert after <= before;
      SubsetSize(after, before);
    }
  }

  lemma {:induction false} OpenHolds(env: Env, states: seq<State>, moves: seq<Move>, i: nat)
    requires OverlapExecution(env, states, moves) && i < |states|
    ensures OpenInv(states[i]) && LedgerInv(states[i].db)
  {
    hide MoveEnabled;
    hide ApplyMove;
    if i > 0 {
      hide OpenInv;
      hide LedgerInv;
      OpenHolds(env, states, moves, i - 1);
      assert MoveTaken(env, states[i - 1], moves[i - 1], states[i - 1 + 1]);
      OpenStep(env, states[i - 1], moves[i - 1]);
      LedgerMove(env, states[i - 1], moves[i - 1]);
    }
  }

  /** The trigger limit is soft: with at most k transactions between count and commit at once, a trigger never
      has more than max_inflight_runs + k - 1 queued or running runs. */
  lemma {:induction false} TriggerBoundUnderOverlap(env: Env, states: seq<State>, moves: seq<Move>, i: nat, t: TriggerId, k: nat)
    requires OverlapExecution(env, states, moves) && i < |states| && OpenAtMost(states, k)
    requires forall n :: 0 <= n < i ==> LowersNot(states[n], moves[n], t)
    ensures TriggerInv(states[i], t, k)
    ensures t in states[i].db.triggers ==>
              |TriggerInflight(states[i].db, t)| <= states[i].db.triggers[t].settings.maxInflight + k - 1
  {
    hide MoveEnabled;
    hide ApplyMove;
    hide TriggerInflight;
    hide LedgerInv;
    hide OpenInv;
    if i > 0 {
      TriggerBoundUnderOverlap(env, states, moves, i - 1, t, k);
      OpenHolds(env, states, moves, i - 1);
      assert MoveTaken(env, states[i - 1], moves[i - 1], states[i - 1 + 1]);
      TriggerMove(env, states[i - 1], moves[i - 1], t, k);
    }
  }

  // The trigger still has room when a dispatcher transaction locks it: its count is not outdated.
  predicate CountHolds(s: State, move: Move, t: TriggerId)
  {
    move.Lock? && move.tx in s.open && s.open[move.tx].trigger == t && t in s.db.triggers ==>
      |TriggerInflight(s.db, t)| < s.db.triggers[t].settings.maxInflight
  }

  // A transaction that holds the trigger has one of its places.
  predicate HardInv(s: State, t: TriggerId)
  {
    t in s.db.triggers ==>
      |TriggerInflight(s.db, t)| + (if Locked(s, t) then 1 else 0) <= s.db.triggers[t].settings.maxInflight
  }

  lemma {:induction false} HardMove(env: Env, s: State, move: Move, t: TriggerId)
    requires OpenInv(s) && LedgerInv(s.db) && MoveEnabled(env, s, move) && LowersNot(s, move, t)
    requires HardInv(s, t)
    ensures HardInv(ApplyMove(env, s, move), t) <==> CountHolds(s, move, t)
  {
    hide LedgerInv;
    hide TriggerInflight;
    hide Committable;
    hide AfterCommit;
    hide FireEnabled;
    hide ManualPasses;
    hide RowDue;
    hide Enabled;
    hide Apply;
    var s' := ApplyMove(env, s, move);
    if move.SelectManual? {
      CountedRoom(env, s, move);
      assert Locked(s', t) ==> Locked(s, t) || t == move.fire.t;
    } else if move.Commit? {
      var tx := s.open[move.tx];
      var eff := CommitEffect(env, s.db, tx);
      TriggerGrowth(s.db, s'.db, eff, t);
      CommitTriggers(env, s.db, tx, t);
      assert tx.trigger == t ==> Locked(s, t) && !Locked(s', t);
      assert Locked(s', t) ==> Locked(s, t);
    } else if move.Other? {
      assert Locked(s', t) <==> Locked(s, t);
      if x :| x in s.open && s.open[x].holding && s.open[x].trigger == t {
        assert x in OpenOn(s, t);
      }
      OtherTrigger(env, s, move.step, t);
    } else {
      assert move.Lock? && s.open[move.tx].trigger == t ==> s'.open[move.tx].holding && Locked(s', t);
      assert Locked(s', t) ==> Locked(s, t) || (move.Lock? && s.open[move.tx].trigger == t);
    }
  }

  /** Exactly the outdated counts exceed the limit: however transactions overlap, every state keeps the trigger
      within max_inflight_runs, counting the transaction that holds it, if and only if the trigger still has
      room whenever a dispatcher transaction locks it. */
  lemma {:induction false} TriggerCapExactly(env: Env, states: seq<State>, moves: seq<Move>, i: nat, t: TriggerId)
    requires OverlapExecution(env, states, moves) && i < |states|
    requires forall n :: 0 <= n < i ==> LowersNot(states[n], moves[n], t)
    ensures (forall j :: 0 <= j <= i ==> HardInv(states[j], t)) <==>
            (forall n :: 0 <= n < i ==> CountHolds(states[n], moves[n], t))
  {
    hide MoveEnabled;
    hide ApplyMove;
    if i > 0 {
      hide HardInv;
      hide CountHolds;
      TriggerCapExactly(env, states, moves, i - 1, t);
      OpenHolds(env, states, moves, i - 1);
      assert MoveTaken(env, states[i - 1], moves[i - 1], states[i - 1 + 1]);
      if HardInv(states[i - 1], t) {
        HardMove(env, states[i - 1], moves[i - 1], t);
      }
    }
  }

  /** The tenant cap is soft: with at most k overlapping transactions, a tenant fed only by triggers never has
      more than max(cap, 1) + k - 1 queued or running runs. */
  lemma {:induction false} TenantBoundUnderOverlap(env: Env, states: seq<State>, moves: seq<Move>, i: nat, tenant: Tenant, k: nat)
    requires OverlapExecution(env, states, moves) && i < |states| && OpenAtMost(states, k)
    requires forall n :: 0 <= n < i ==> FeedsNot(moves[n], tenant)
    ensures TenantInv(env, states[i], tenant, k)
    ensures |TenantInflight(states[i].db, tenant)| <= TenantCap(env) + k - 1
  {
    hide MoveEnabled;
    hide ApplyMove;
    if i == 0 {
      assert TenantInflight(states[0].db, tenant) == {} && OpenFor(states[0], tenant) == {};
    } else {
      TenantBoundUnderOverlap(env, states, moves, i - 1, tenant, k);
      OpenHolds(env, states, moves, i - 1);
      assert MoveTaken(env, states[i - 1], moves[i - 1], states[i - 1 + 1]);
      TenantMove(env, states[i - 1], moves[i - 1], tenant, k);
    }
  }
}
