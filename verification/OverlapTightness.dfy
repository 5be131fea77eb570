// The tenant bound of DispatchOverlap is exact: manual fires of separate triggers reach it.
module OverlapTightness {
  import opened Prelude
  import opened RunTable
  import opened TriggerTable
  import opened TriggerProtocol
  import opened DispatchOverlap

  // Reached with at most k transactions open at once, no run created by the API and no update of a trigger.
  ghost predicate Reachable(env: Env, k: nat, s: State)
  {
    exists states, moves :: Path(env, k, states, moves) && states[|moves|] == s
  }

  predicate Plain(move: Move)
  {
    !(move.Other? && (move.step.ApiCreate? || move.step.Configure?))
  }

  ghost predicate Path(env: Env, k: nat, states: seq<State>, moves: seq<Move>)
  {
    && OverlapExecution(env, states, moves) && OpenAtMost(states, k)
    && forall i :: 0 <= i < |moves| ==> Plain(moves[i])
  }

  const EMPTY := State(Db(0, map[], map[], map[], map[], map[]), map[])

  lemma {:induction false} EmptyReachable(env: Env, k: nat)
    ensures Reachable(env, k, EMPTY)
  {
    var moves: seq<Move> := [];
    assert Path(env, k, [EMPTY], moves) && [EMPTY][|moves|] == EMPTY;
  }

  lemma {:induction false} ReachMove(env: Env, k: nat, s: State, move: Move) returns (s': State)
    requires Reachable(env, k, s) && MoveEnabled(env, s, move) && Plain(move)
    requires |ApplyMove(env, s, move).open| <= k
    ensures s' == ApplyMove(env, s, move) && Reachable(env, k, s')
  {
    hide MoveEnabled;
    hide ApplyMove;
    s' := ApplyMove(env, s, move);
    var states, moves :| Path(env, k, states, moves) && states[|moves|] == s;
    var states', moves' := states + [s'], moves + [move];
    forall i | 0 <= i < |moves'|
      ensures MoveTaken(env, states'[i], moves'[i], states'[i + 1])
    {
      if i < |moves| {
        assert MoveTaken(env, states[i], moves[i], states[i + 1]);
      }
    }
    assert Path(env, k, states', moves') && states'[|moves'|] == s';
  }

  const PLAIN := Trigger("t", Webhook, true, false, Settings(0, "", FireNow, 1, 1, 0), 0, 0, None, None)
  const QUEUED := Run("t", Queued, 0, None, None, 0, None, None, None, None, None)

  function FireOf(id: nat): Step
  {
    FireManual(id, "t", "", id)
  }

  function RowOf(id: nat): LedgerKey
  {
    (id, ManualKey(""))
  }

  // Triggers 0..total exist, and the first `fired` have a queued run.
  ghost predicate Tables(db: Db, total: nat, fired: nat)
  {
    && db.now == 0
    && (forall id: nat :: id in db.triggers <==> id < total)
    && (forall id: nat :: id < total && id in db.triggers ==> db.triggers[id] == PLAIN)
    && (forall id: nat :: id in db.runs <==> id < fired)
    && (forall id: nat :: id < fired && id in db.runs ==> db.runs[id] == QUEUED)
    && (forall key :: key in db.ledger ==> key.0 < fired)
  }

  // The next `armed` triggers have an open transaction each.
  ghost predicate Opened(open: map<TxId, Tx>, fired: nat, armed: nat)
  {
    && (forall x: nat :: x in open <==> fired <= x < fired + armed)
    && (forall x: nat :: x in open ==> open[x] == Tx(FireOf(x), x, true))
  }

  ghost predicate Shape(s: State, total: nat, fired: nat, armed: nat)
  {
    Tables(s.db, total, fired) && Opened(s.open, fired, armed)
  }

  lemma {:induction false} OpenCount(open: map<TxId, Tx>, fired: nat, armed: nat)
    requires Opened(open, fired, armed)
    ensures |open| == armed
    decreases armed
  {
    if armed == 0 {
      assert open == map[];
    } else {
      var last := fired + armed - 1;
      OpenCount(open - {last}, fired, armed - 1);
      assert open.Keys == (open - {last}).Keys + {last};
    }
  }

  lemma {:induction false} ShapeOpen(s: State, total: nat, fired: nat, armed: nat)
    requires Shape(s, total, fired, armed)
    ensures |s.open| == armed
  {
    OpenCount(s.open, fired, armed);
  }

  lemma {:induction false} FiredCount(s: State, total: nat, fired: nat, armed: nat)
    requires Shape(s, total, fired, armed)
    ensures |TenantInflight(s.db, "t")| == fired
  {
    CountBelow(TenantInflight(s.db, "t"), fired);
  }

  lemma {:induction false} TriggerCreated(env: Env, s: State, total: nat)
    requires Shape(s, total, 0, 0)
    ensures var move := Other(CreateTrigger(total, PLAIN));
            && MoveEnabled(env, s, move) && ApplyMove(env, s, move).open == s.open
            && Shape(ApplyMove(env, s, move), total + 1, 0, 0)
  {
  }

  lemma {:induction false} EmptyShape()
    ensures Shape(EMPTY, 0, 0, 0)
  {
  }

  lemma {:induction false} CreateTriggers(env: Env, k: nat, total: nat) returns (s: State)
    ensures Reachable(env, k, s) && Shape(s, total, 0, 0)
  {
    hide Reachable;
    hide Shape;
    hide MoveEnabled;
    hide ApplyMove;
    s := EMPTY;
    EmptyReachable(env, k);
    EmptyShape();
    if total > 0 {
      s := CreateTriggers(env, k, total - 1);
      ShapeOpen(s, total - 1, 0, 0);
      TriggerCreated(env, s, total - 1);
      s := ReachMove(env, k, s, Other(CreateTrigger(total - 1, PLAIN)));
    }
  }

  lemma {:induction false} SelectOpens(env: Env, s: State, total: nat, fired: nat, armed: nat)
    requires Shape(s, total, fired, armed) && fired < TenantCap(env) && fired + armed < total
    ensures var x := fired + armed;
            && MoveEnabled(env, s, SelectManual(x, FireOf(x)))
            && ApplyMove(env, s, SelectManual(x, FireOf(x))) == s.(open := s.open[x := Tx(FireOf(x), x, true)])
  {
    hide ManualKey;
    hide OriginKey;
    var x := fired + armed;
    FiredCount(s, total, fired, armed);
    assert TriggerInflight(s.db, x) == {};
    assert RowOf(x) !in s.db.ledger;
  }

  lemma {:induction false} SelectNext(env: Env, k: nat, s: State, total: nat, fired: nat, armed: nat) returns (s': State)
    requires Reachable(env, k, s) && Shape(s, total, fired, armed)
    requires fired < TenantCap(env) && fired + armed < total && armed < k
    ensures Reachable(env, k, s') && Shape(s', total, fired, armed + 1)
  {
    hide Reachable;
    hide MoveEnabled;
    hide ApplyMove;
    var x := fired + armed;
    SelectOpens(env, s, total, fired, armed);
    hide Tables;
    var next := s.(open := s.open[x := Tx(FireOf(x), x, true)]);
    OpenCount(next.open, fired, armed + 1);
    s' := ReachMove(env, k, s, SelectManual(x, FireOf(x)));
  }

  lemma {:induction false} CommitFires(env: Env, s: State, total: nat, fired: nat, armed: nat)
    requires Shape(s, total, fired, armed) && armed > 0 && fired + armed <= total
    ensures MoveEnabled(env, s, Commit(fired))
    ensures Shape(ApplyMove(env, s, Commit(fired)), total, fired + 1, armed - 1)
  {
    hide ManualKey;
    assert RowOf(fired) !in s.db.ledger;
    assert s.open[fired] == Tx(FireOf(fired), fired, true);
    assert Committable(s.db, s.open[fired]);
    assert TriggeredRun(s.db, PLAIN) == QUEUED;
  }

  lemma {:induction false} CommitNext(env: Env, k: nat, s: State, total: nat, fired: nat, armed: nat) returns (s': State)
    requires Reachable(env, k, s) && Shape(s, total, fired, armed) && 0 < armed <= k && fired + armed <= total
    ensures Reachable(env, k, s') && Shape(s', total, fired + 1, armed - 1)
  {
    hide Reachable;
    hide Shape;
    CommitFires(env, s, total, fired, armed);
    hide MoveEnabled;
    hide ApplyMove;
    ShapeOpen(ApplyMove(env, s, Commit(fired)), total, fired + 1, armed - 1);
    s' := ReachMove(env, k, s, Commit(fired));
  }

  lemma {:induction false} FireInTurn(env: Env, k: nat, total: nat, fired: nat) returns (s: State)
    requires k > 0 && fired < TenantCap(env) && fired <= total
    ensures Reachable(env, k, s) && Shape(s, total, fired, 0)
  {
    hide Reachable;
    hide Shape;
    if fired == 0 {
      s := CreateTriggers(env, k, total);
    } else {
      s := FireInTurn(env, k, total, fired - 1);
      s := SelectNext(env, k, s, total, fired - 1, 0);
      s := CommitNext(env, k, s, total, fired - 1, 1);
    }
  }

  lemma {:induction false} SelectAll(env: Env, k: nat, total: nat, fired: nat, armed: nat) returns (s: State)
    requires fired < TenantCap(env) && fired + armed <= total && armed <= k && k > 0
    ensures Reachable(env, k, s) && Shape(s, total, fired, armed)
  {
    hide Reachable;
    hide Shape;
    if armed == 0 {
      s := FireInTurn(env, k, total, fired);
    } else {
      s := SelectAll(env, k, total, fired, armed - 1);
      s := SelectNext(env, k, s, total, fired, armed - 1);
    }
  }

  lemma {:induction false} CommitAll(env: Env, k: nat, s: State, total: nat, fired: nat, armed: nat) returns (s': State)
    requires Reachable(env, k, s) && Shape(s, total, fired, armed) && armed <= k && fired + armed <= total
    ensures Reachable(env, k, s') && Shape(s', total, fired + armed, 0)
    decreases armed
  {
    hide Reachable;
    hide Shape;
    s' := s;
    if armed > 0 {
      s' := CommitNext(env, k, s, total, fired, armed);
      s' := CommitAll(env, k, s', total, fired + 1, armed - 1);
    }
  }

  /** The tenant bound max(cap, 1) + k - 1 is attained for every cap and every overlap k. */
  lemma {:induction false} TenantOverlapAttained(env: Env, k: nat)
    requires k > 0
    ensures exists s :: Reachable(env, k, s) && |TenantInflight(s.db, "t")| == TenantCap(env) + k - 1
  {
    hide Reachable;
    hide Shape;
    var fired := TenantCap(env) - 1;
    var total := fired + k;
    var s := SelectAll(env, k, total, fired, k);
    s := CommitAll(env, k, s, total, fired, k);
    FiredCount(s, total, total, 0);
  }
}
