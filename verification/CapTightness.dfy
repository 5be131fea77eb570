// The interleaving bound of ClaimProtocol is exact: for every configuration there is an execution
// that reaches it.
module CapTightness {
  import opened Prelude
  import Text
  import opened RunTable
  import opened ClaimProtocol

  ghost predicate Reachable(cfg: Config, s: State)
  {
    exists trace :: Execution(cfg, trace) && trace[|trace| - 1] == s
  }

  lemma {:induction false} ReachStep(cfg: Config, s: State, step: Step) returns (s': State)
    requires Reachable(cfg, s) && Enabled(cfg, s, step)
    ensures s' == Apply(cfg, s, step) && Reachable(cfg, s')
  {
    s' := Apply(cfg, s, step);
    var trace :| Execution(cfg, trace) && trace[|trace| - 1] == s;
    var longer := trace + [s'];
    forall i | 0 <= i < |longer| - 1
      ensures Next(cfg, longer[i], longer[i + 1])
    {
      if i < |trace| - 1 {
        assert Next(cfg, trace[i], trace[i + 1]);
      }
    }
    assert Execution(cfg, longer) && longer[|longer| - 1] == s';
  }

  // Either every run has its own tenant, or they all share one.
  function TenantOf(spread: bool, id: RunId): Tenant
  {
    if spread then Text.Decimal(id) else "t"
  }

  function NewRow(spread: bool, id: RunId): Run
  {
    Run(TenantOf(spread, id), Queued, 0, None, None, 0, None, None, None, None, None)
  }

  function Level(cfg: Config, spread: bool): (c: int)
    ensures c >= 1
  {
    if spread then Cap(cfg, None) else Min(Cap(cfg, None), Cap(cfg, Some("t")))
  }

  // Runs 0..total exist; exactly the first `started` of them are running.
  ghost predicate Table(s: State, spread: bool, started: nat, total: nat)
  {
    && s.now == 0
    && (forall id: RunId :: id in s.runs <==> id < total)
    && (forall id: RunId :: started <= id < total && id in s.runs ==> s.runs[id] == NewRow(spread, id))
    && (forall id: RunId :: id < started && id in s.runs ==>
          s.runs[id].status.Running? && s.runs[id].tenant == TenantOf(spread, id))
  }

  lemma {:induction false} CountStarted(s: State, spread: bool, started: nat, total: nat)
    requires Table(s, spread, started, total) && started <= total
    ensures |RunningIn(s.runs, None)| == started
    ensures !spread ==> |RunningIn(s.runs, Some("t"))| == started
    ensures spread ==> forall id: RunId :: started <= id < total ==> RunningIn(s.runs, Some(TenantOf(spread, id))) == {}
  {
    CountBelow(RunningIn(s.runs, None), started);
    if spread {
      forall id: RunId | started <= id < total
        ensures RunningIn(s.runs, Some(TenantOf(spread, id))) == {}
      {
        forall other | other in s.runs && s.runs[other].status.Running? && s.runs[other].tenant == TenantOf(spread, id)
          ensures false
        {
          Text.DecimalInjective(other, id);
        }
      }
    } else {
      assert RunningIn(s.runs, Some("t")) == RunningIn(s.runs, None);
    }
  }

  predicate AllIdle(cfg: Config, s: State)
  {
    s.stage.Keys == cfg.workers && forall w :: w in s.stage ==> s.stage[w].Idle?
  }

  lemma {:induction false} CreateRuns(cfg: Config, spread: bool, total: nat) returns (s: State)
    ensures Reachable(cfg, s) && AllIdle(cfg, s) && Table(s, spread, 0, total)
  {
    if total == 0 {
      s := State(0, map[], map w | w in cfg.workers :: Idle, []);
      assert Execution(cfg, [s]) && [s][|[s]| - 1] == s;
    } else {
      s := CreateRuns(cfg, spread, total - 1);
      assert InsertAllowed(s.runs, NewRow(spread, total - 1));
      s := ReachStep(cfg, s, CreateRun(total - 1, NewRow(spread, total - 1)));
    }
  }

  // One worker takes the next queued run as far as just before its UPDATE.
  lemma {:induction false} Arm(cfg: Config, s: State, w: Worker, spread: bool, started: nat, target: RunId, total: nat)
    returns (s': State)
    requires Reachable(cfg, s) && w in s.stage && s.stage[w].Idle?
    requires Table(s, spread, started, total) && started < Level(cfg, spread) && started <= target < total
    ensures Reachable(cfg, s') && s'.runs == s.runs && s'.now == s.now
    ensures s'.stage == s.stage[w := Armed([target])]
  {
    CountStarted(s, spread, started, total);
    s' := ReachStep(cfg, s, SelectCandidates(w, [target]));
    s' := ReachStep(cfg, s', CheckGlobal(w));
    assert s'.stage[w] == Checked([target]);
    s' := ReachStep(cfg, s', CheckTenant(w));
  }

  lemma {:induction false} Fire(cfg: Config, s: State, w: Worker, spread: bool, started: nat, total: nat) returns (s': State)
    requires Reachable(cfg, s) && w in s.stage && s.stage[w] == Armed([started])
    requires Table(s, spread, started, total) && started < total
    ensures Reachable(cfg, s') && Table(s', spread, started + 1, total)
    ensures s'.stage == s.stage[w := Idle]
  {
    s' := ReachStep(cfg, s, UpdateCandidate(w, 1));
  }

  lemma {:induction false} ClaimInTurn(cfg: Config, w: Worker, spread: bool, started: nat, total: nat) returns (s: State)
    requires w in cfg.workers && started < Level(cfg, spread) && started <= total
    ensures Reachable(cfg, s) && AllIdle(cfg, s) && Table(s, spread, started, total)
  {
    if started == 0 {
      s := CreateRuns(cfg, spread, total);
    } else {
      s := ClaimInTurn(cfg, w, spread, started - 1, total);
      s := Arm(cfg, s, w, spread, started - 1, started - 1, total);
      s := Fire(cfg, s, w, spread, started - 1, total);
    }
  }

  lemma {:induction false} TableKept(s: State, s': State, spread: bool, started: nat, total: nat)
    requires Table(s, spread, started, total) && s'.runs == s.runs && s'.now == s.now
    ensures Table(s', spread, started, total)
  {
  }

  lemma {:induction false} ArmAll(cfg: Config, s: State, ws: seq<Worker>, spread: bool, started: nat, total: nat)
    returns (s': State)
    requires Reachable(cfg, s) && AllIdle(cfg, s) && Table(s, spread, started, total)
    requires started < Level(cfg, spread) && started + |ws| <= total
    requires Distinct(ws) && forall i :: 0 <= i < |ws| ==> ws[i] in cfg.workers
    ensures Reachable(cfg, s') && Table(s', spread, started, total) && s'.stage.Keys == cfg.workers
    ensures forall i :: 0 <= i < |ws| ==> s'.stage[ws[i]] == Armed([started + i])
    ensures forall w :: w in cfg.workers && w !in ws ==> s'.stage[w].Idle?
  {
    hide Reachable;
    hide Table;
    hide Level;
    if ws == [] {
      s' := s;
    } else {
      var n := |ws| - 1;
      s' := ArmAll(cfg, s, ws[..n], spread, started, total);
      assert ws[n] !in ws[..n];
      var before := s';
      s' := Arm(cfg, before, ws[n], spread, started, started + n, total);
      TableKept(before, s', spread, started, total);
    }
  }

  lemma {:induction false} FireAll(cfg: Config, s: State, ws: seq<Worker>, n: nat, spread: bool, started: nat, total: nat)
    returns (s': State)
    requires Reachable(cfg, s) && Table(s, spread, started, total) && started + |ws| <= total && n <= |ws|
    requires Distinct(ws) && forall i :: 0 <= i < |ws| ==> ws[i] in s.stage && s.stage[ws[i]] == Armed([started + i])
    ensures Reachable(cfg, s') && Table(s', spread, started + n, total)
    ensures s'.stage.Keys == s.stage.Keys
    ensures forall i :: n <= i < |ws| ==> s'.stage[ws[i]] == Armed([started + i])
  {
    if n == 0 {
      s' := s;
    } else {
      s' := FireAll(cfg, s, ws, n - 1, spread, started, total);
      s' := Fire(cfg, s', ws[n - 1], spread, started + n - 1, total);
    }
  }

  lemma {:induction false} Enumerate(a: set<Worker>) returns (ws: seq<Worker>)
    ensures Distinct(ws) && |ws| == |a| && forall w :: w in ws <==> w in a
  {
    if a == {} {
      ws := [];
    } else {
      var w :| w in a;
      ws := Enumerate(a - {w});
      ws := ws + [w];
    }
  }

  lemma {:induction false} Overshoot(cfg: Config, spread: bool) returns (s: State)
    requires cfg.workers != {}
    ensures Reachable(cfg, s) && s.runs.Keys == RunningIn(s.runs, None)
    ensures |RunningIn(s.runs, None)| == Level(cfg, spread) + |cfg.workers| - 1
    ensures !spread ==> |RunningIn(s.runs, Some("t"))| == Level(cfg, spread) + |cfg.workers| - 1
  {
    var ws := Enumerate(cfg.workers);
    var started := Level(cfg, spread) - 1;
    var total := started + |ws|;
    s := ClaimInTurn(cfg, ws[0], spread, started, total);
    s := ArmAll(cfg, s, ws, spread, started, total);
    s := FireAll(cfg, s, ws, |ws|, spread, started, total);
    CountStarted(s, spread, total, total);
  }

  /** The global bound max(cap, 1) + N - 1 is attained, whatever the caps and the number of workers. */
  lemma {:induction false} GlobalBoundAttained(cfg: Config)
    requires cfg.workers != {}
    ensures exists s :: Reachable(cfg, s) && |RunningIn(s.runs, None)| == Cap(cfg, None) + |cfg.workers| - 1
  {
    var s := Overshoot(cfg, true);
  }

  /** The tenant bound is attained too, from the smaller of the two caps: the global cap limits what a
      single tenant can reach. */
  lemma {:induction false} TenantBoundAttained(cfg: Config)
    requires cfg.workers != {}
    ensures exists s :: Reachable(cfg, s) &&
              |RunningIn(s.runs, Some("t"))| == Min(Cap(cfg, None), Cap(cfg, Some("t"))) + |cfg.workers| - 1
  {
    var s := Overshoot(cfg, false);
  }
}
