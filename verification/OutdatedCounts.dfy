// The trigger bound of DispatchOverlap is exact: counts taken together on one late interval trigger are all
// spent, one slot after the other.
module OutdatedCounts {
  import opened Prelude
  import opened Text
  import opened RunTable
  import opened TriggerTable
  import opened TriggerProtocol
  import opened DispatchOverlap
  import opened OverlapTightness

  // An interval trigger of one second with limit m, waiting for slot n.
  function Secondly(m: nat, n: nat): Trigger
  {
    Trigger("t", Interval, true, false, Settings(1, "", FireNow, 1, m, 0), n * SECOND, 0, None, None)
  }

  function SlotRow(n: nat): LedgerKey
  {
    (0, SlotKey(n * SECOND))
  }

  function LedgerOf(n: nat): Ledger
  {
    if n == 0 then map[] else LedgerOf(n - 1)[SlotRow(n - 1) := LedgerRow(Some(n - 1), (n - 1) * SECOND)]
  }

  function QueuedAt(now: Time): Run
  {
    Run("t", Queued, 0, None, None, now, None, None, None, None, None)
  }

  function RunsOf(n: nat, now: Time): Runs
  {
    if n == 0 then map[] else RunsOf(n - 1, now)[n - 1 := QueuedAt(now)]
  }

  function OriginsOf(n: nat): map<RunId, Origin>
  {
    if n == 0 then map[] else OriginsOf(n - 1)[n - 1 := FromSlot(0, (n - 1) * SECOND)]
  }

  // The first n slots have fired, and all their runs are queued.
  function FiredDb(m: nat, now: Time, n: nat): Db
  {
    Db(now, map[0 := Secondly(m, n)], map[], LedgerOf(n), RunsOf(n, now), OriginsOf(n))
  }

  function TxOf(x: nat): Tx
  {
    Tx(FireInterval(0, x, 0), 0, false)
  }

  // Transactions n .. n + armed have counted.
  function Armed(n: nat, armed: nat): map<TxId, Tx>
  {
    map x: nat | n <= x < n + armed :: TxOf(x)
  }

  function Stage(m: nat, now: Time, n: nat, armed: nat): State
  {
    State(FiredDb(m, now, n), Armed(n, armed))
  }

  lemma {:induction false} ArmedSize(n: nat, armed: nat)
    ensures |Armed(n, armed)| == armed
  {
    if armed == 0 {
      assert Armed(n, 0) == map[];
    } else {
      ArmedSize(n, armed - 1);
      assert Armed(n, armed).Keys == Armed(n, armed - 1).Keys + {n + armed - 1};
    }
  }

  lemma {:induction false} RunsKnown(n: nat, now: Time, r: RunId)
    ensures r in RunsOf(n, now) <==> r < n
    ensures r < n ==> RunsOf(n, now)[r] == QueuedAt(now)
  {
    if n > 0 {
      RunsKnown(n - 1, now, r);
    }
  }

  lemma {:induction false} LedgerKnown(n: nat, k: LedgerKey)
    ensures k in LedgerOf(n) <==> exists j: nat :: j < n && k == SlotRow(j)
    ensures k in LedgerOf(n) ==> k.0 == 0 && LedgerOf(n)[k].run.Some? && LedgerOf(n)[k].run.value < n
  {
    if n > 0 {
      hide SlotKey;
      LedgerKnown(n - 1, k);
      if k == SlotRow(n - 1) {
        assert n - 1 < n && k == SlotRow(n - 1);
      }
    }
  }

  lemma {:induction false} SlotUnused(n: nat)
    ensures SlotRow(n) !in LedgerOf(n)
  {
    LedgerKnown(n, SlotRow(n));
    if j: nat :| j < n && SlotRow(n) == SlotRow(j) {
      DecimalInjective(n * SECOND, j * SECOND);
    }
  }

  lemma {:induction false} AddedKey(m: Ledger, k: LedgerKey, row: LedgerRow)
    requires k !in m
    ensures |m[k := row].Keys| == |m.Keys| + 1
  {
    assert m[k := row].Keys == m.Keys + {k};
  }

  lemma {:induction false} LedgerSize(n: nat)
    ensures |LedgerOf(n).Keys| == n
  {
    if n > 0 {
      LedgerSize(n - 1);
      SlotUnused(n - 1);
      hide SlotRow;
      AddedKey(LedgerOf(n - 1), SlotRow(n - 1), LedgerRow(Some(n - 1), (n - 1) * SECOND));
    }
  }

  lemma {:induction false} CountsOf(m: nat, now: Time, n: nat)
    ensures |TriggerInflight(FiredDb(m, now, n), 0)| == n
    ensures |TenantInflight(FiredDb(m, now, n), "t")| == n
  {
    var db := FiredDb(m, now, n);
    forall r: RunId
      ensures r in db.runs <==> r < n
      ensures r < n ==> db.runs[r] == QueuedAt(now)
    {
      RunsKnown(n, now, r);
    }
    CountBelow(TenantInflight(db, "t"), n);
    forall k | k in db.ledger
      ensures k.0 == 0 && RowActive(db.runs, db.ledger[k])
    {
      LedgerKnown(n, k);
    }
    assert TriggerInflight(db, 0) == LedgerOf(n).Keys;
    LedgerSize(n);
  }

  lemma {:induction false} CountMove(env: Env, m: nat, now: Time, n: nat, armed: nat)
    requires n < m && n < TenantCap(env) && n * SECOND <= now
    ensures var x := n + armed;
            && MoveEnabled(env, Stage(m, now, n, armed), Count(x, TxOf(x).fire))
            && ApplyMove(env, Stage(m, now, n, armed), Count(x, TxOf(x).fire)) == Stage(m, now, n, armed + 1)
  {
    var x := n + armed;
    CountsOf(m, now, n);
    RunsKnown(n, now, x);
    hide TriggerInflight;
    hide TenantInflight;
    hide RunsOf;
    hide LedgerOf;
    hide OriginsOf;
    assert Armed(n, armed + 1) == Armed(n, armed)[x := TxOf(x)];
  }

  // The state in which the first counted transaction has locked the trigger.
  function LockedStage(m: nat, now: Time, n: nat, armed: nat): State
  {
    State(FiredDb(m, now, n), Armed(n, armed)[n := TxOf(n).(holding := true)])
  }

  lemma {:induction false} LockMove(env: Env, m: nat, now: Time, n: nat, armed: nat)
    requires armed > 0 && n * SECOND <= now
    ensures MoveEnabled(env, Stage(m, now, n, armed), Lock(n))
    ensures ApplyMove(env, Stage(m, now, n, armed), Lock(n)) == LockedStage(m, now, n, armed)
  {
    hide RunsOf;
    hide LedgerOf;
    hide OriginsOf;
    assert Armed(n, armed)[n] == TxOf(n);
  }

  lemma {:induction false} FiredNext(env: Env, m: nat, now: Time, n: nat)
    requires n * SECOND <= now
    ensures Committable(FiredDb(m, now, n), TxOf(n).(holding := true))
    ensures AfterCommit(env, FiredDb(m, now, n), TxOf(n).(holding := true)) == FiredDb(m, now, n + 1)
  {
    SlotUnused(n);
    RunsKnown(n, now, n);
    hide SlotKey;
    var db := FiredDb(m, now, n);
    assert Reschedule(db, 0, n * SECOND + SECOND).triggers == map[0 := Secondly(m, n + 1)];
    assert IntervalOf(Secondly(m, n)) == SECOND;
    assert TriggeredRun(db, Secondly(m, n + 1)) == QueuedAt(now);
  }

  lemma {:induction false} CommitMove(env: Env, m: nat, now: Time, n: nat, armed: nat)
    requires armed > 0 && n * SECOND <= now
    ensures MoveEnabled(env, LockedStage(m, now, n, armed), Commit(n))
    ensures ApplyMove(env, LockedStage(m, now, n, armed), Commit(n)) == Stage(m, now, n + 1, armed - 1)
  {
    FiredNext(env, m, now, n);
    hide AfterCommit;
    hide FiredDb;
    assert LockedStage(m, now, n, armed).open - {n} == Armed(n + 1, armed - 1);
  }

  lemma {:induction false} StartMoves(env: Env, m: nat, now: Time)
    requires m > 0 && now >= 0
    ensures var create, tick := Other(CreateTrigger(0, Secondly(m, 0))), Other(Tick(now));
            && MoveEnabled(env, EMPTY, create)
            && ApplyMove(env, EMPTY, create) == Stage(m, 0, 0, 0)
            && MoveEnabled(env, Stage(m, 0, 0, 0), tick)
            && ApplyMove(env, Stage(m, 0, 0, 0), tick) == Stage(m, now, 0, 0)
  {
    assert Armed(0, 0) == map[];
  }

  lemma {:induction false} Started(env: Env, k: nat, m: nat, now: Time) returns (s: State)
    requires m > 0 && now >= 0
    ensures Reachable(env, k, s) && s == Stage(m, now, 0, 0)
  {
    StartMoves(env, m, now);
    EmptyReachable(env, k);
    assert Armed(0, 0) == map[];
    hide Reachable;
    hide MoveEnabled;
    hide ApplyMove;
    s := ReachMove(env, k, EMPTY, Other(CreateTrigger(0, Secondly(m, 0))));
    s := ReachMove(env, k, s, Other(Tick(now)));
  }

  lemma {:induction false} FireOne(env: Env, k: nat, m: nat, now: Time, n: nat, armed: nat) returns (s: State)
    requires Reachable(env, k, Stage(m, now, n, armed)) && 0 < armed <= k && n * SECOND <= now
    ensures Reachable(env, k, s) && s == Stage(m, now, n + 1, armed - 1)
  {
    LockMove(env, m, now, n, armed);
    CommitMove(env, m, now, n, armed);
    ArmedSize(n, armed);
    assert Armed(n, armed)[n := TxOf(n).(holding := true)].Keys == Armed(n, armed).Keys;
    ArmedSize(n + 1, armed - 1);
    hide Reachable;
    hide MoveEnabled;
    hide ApplyMove;
    hide Armed;
    s := ReachMove(env, k, Stage(m, now, n, armed), Lock(n));
    s := ReachMove(env, k, s, Commit(n));
  }

  lemma {:induction false} CountOne(env: Env, k: nat, m: nat, now: Time, n: nat, armed: nat) returns (s: State)
    requires Reachable(env, k, Stage(m, now, n, armed)) && armed < k
    requires n < m && n < TenantCap(env) && n * SECOND <= now
    ensures Reachable(env, k, s) && s == Stage(m, now, n, armed + 1)
  {
    CountMove(env, m, now, n, armed);
    ArmedSize(n, armed + 1);
    hide Reachable;
    hide MoveEnabled;
    hide ApplyMove;
    hide Armed;
    s := ReachMove(env, k, Stage(m, now, n, armed), Count(n + armed, TxOf(n + armed).fire));
  }

  lemma {:induction false} FireSlots(env: Env, k: nat, m: nat, now: Time, n: nat) returns (s: State)
    requires k > 0 && n < m && n < TenantCap(env) && n * SECOND <= now
    ensures Reachable(env, k, s) && s == Stage(m, now, n, 0)
  {
    hide Reachable;
    hide Stage;
    if n == 0 {
      s := Started(env, k, m, now);
    } else {
      s := FireSlots(env, k, m, now, n - 1);
      s := CountOne(env, k, m, now, n - 1, 0);
      s := FireOne(env, k, m, now, n - 1, 1);
    }
  }

  lemma {:induction false} CountAll(env: Env, k: nat, m: nat, now: Time, n: nat, armed: nat) returns (s: State)
    requires k > 0 && n < m && n < TenantCap(env) && n * SECOND <= now && armed <= k
    ensures Reachable(env, k, s) && s == Stage(m, now, n, armed)
  {
    hide Reachable;
    hide Stage;
    if armed == 0 {
      s := FireSlots(env, k, m, now, n);
    } else {
      s := CountAll(env, k, m, now, n, armed - 1);
      s := CountOne(env, k, m, now, n, armed - 1);
    }
  }

  lemma {:induction false} SpendAll(env: Env, k: nat, m: nat, now: Time, n: nat, armed: nat) returns (s: State)
    requires Reachable(env, k, Stage(m, now, n, armed)) && armed <= k && (n + armed) * SECOND <= now
    ensures Reachable(env, k, s) && s == Stage(m, now, n + armed, 0)
    decreases armed
  {
    hide Reachable;
    hide Stage;
    s := Stage(m, now, n, armed);
    if armed > 0 {
      s := FireOne(env, k, m, now, n, armed);
      s := SpendAll(env, k, m, now, n + 1, armed - 1);
    }
  }

  /** The trigger bound max_inflight_runs + k - 1 is attained for every limit within the tenant cap and every k. */
  lemma {:induction false} TriggerOverlapAttained(env: Env, m: nat, k: nat)
    requires 1 <= m <= TenantCap(env) && k > 0
    ensures exists s :: Reachable(env, k, s) && 0 in s.db.triggers && s.db.triggers[0].settings.maxInflight == m &&
                        |TriggerInflight(s.db, 0)| == m + k - 1
  {
    hide Reachable;
    var now := (m + k) * SECOND;
    var s := CountAll(env, k, m, now, m - 1, k);
    s := SpendAll(env, k, m, now, m - 1, k);
    CountsOf(m, now, m - 1 + k);
    assert 0 in s.db.triggers && s.db.triggers[0].settings.maxInflight == m;
  }
}
