// Workers claiming runs from the shared queue. A claim is four separate queries, so the model
// interleaves them freely between workers and with create, renew, finish and requeue statements.
module ClaimProtocol {
  import opened Prelude
  import opened RunTable

  datatype Config = Config(workers: set<Worker>, globalMax: int, tenantMax: int)

  function Cap(cfg: Config, scope: Option<Tenant>): (c: int)
    ensures c >= 1
  {
    Max(if scope.None? then cfg.globalMax else cfg.tenantMax, 1)
  }

  // Where a worker stands inside claim_next_queued_run_with_limits, with the candidates still to try.
  datatype Stage =
    | Idle
    | Selected(cands: seq<RunId>)   // holds the candidate list
    | Checked(cands: seq<RunId>)    // passed the global count
    | Armed(cands: seq<RunId>)      // passed the tenant count for cands[0], about to update it

  datatype Event =
    | Enqueue(id: RunId)
    | Claim(id: RunId, worker: Worker, at: Time)
    | Finish(id: RunId, worker: Worker, outcome: Status, at: Time)
    | Requeue(ids: set<RunId>)

  datatype State = State(now: Time, runs: Runs, stage: map<Worker, Stage>, log: seq<Event>)

  datatype Step =
    | Tick(to: Time)
    | CreateRun(newId: RunId, row: Run)
    | SelectCandidates(w: Worker, list: seq<RunId>)
    | CheckGlobal(w: Worker)
    | CheckTenant(w: Worker)
    | UpdateCandidate(w: Worker, leaseMs: nat)
    | RenewLease(id: RunId, w: Worker, leaseMs: nat)
    | FinishRun(id: RunId, w: Worker, outcome: Status)
    | RequeueExpired(limit: int, ids: set<RunId>)

  predicate Init(cfg: Config, s: State)
  {
    && s.runs == map[] && s.log == []
    && s.stage == map w | w in cfg.workers :: Idle
  }

  // Which steps may be taken; the guards of the SQL statements themselves are inside Apply.
  predicate Enabled(cfg: Config, s: State, step: Step)
  {
    match step
    case Tick(to) => s.now <= to
    case CreateRun(id, row) => id !in s.runs && Fresh(row, s.now)
    case SelectCandidates(w, list) =>
      && w in s.stage && s.stage[w].Idle?
      && |list| <= CANDIDATE_LIMIT && OrderedCandidates(s.runs, s.now, list)
    case CheckGlobal(w) => w in s.stage && s.stage[w].Selected?
    case CheckTenant(w) =>
      w in s.stage && s.stage[w].Checked? && (s.stage[w].cands != [] ==> s.stage[w].cands[0] in s.runs)
    case UpdateCandidate(w, _) =>
      w in s.stage && s.stage[w].Armed? && s.stage[w].cands != [] && s.stage[w].cands[0] in s.runs
    case RenewLease(id, w, _) => id in s.runs
    case FinishRun(id, w, outcome) => id in s.runs && (outcome.Succeeded? || outcome.Failed?)
    case RequeueExpired(limit, ids) => RequeueAllowed(s.runs, s.now, limit, ids)
  }

  function Apply(cfg: Config, s: State, step: Step): State
    requires Enabled(cfg, s, step)
  {
    match step
    case Tick(to) => s.(now := to)
    case CreateRun(id, row) =>
      if InsertAllowed(s.runs, row) then s.(runs := s.runs[id := row], log := s.log + [Enqueue(id)]) else s
    case SelectCandidates(w, list) =>
      if list == [] then s else s.(stage := s.stage[w := Selected(list)])
    case CheckGlobal(w) =>
      if |RunningIn(s.runs, None)| >= Cap(cfg, None) then s.(stage := s.stage[w := Idle])
      else s.(stage := s.stage[w := Checked(s.stage[w].cands)])
    case CheckTenant(w) =>
      var cands := s.stage[w].cands;
      if cands == [] then s.(stage := s.stage[w := Idle])
      else
        var scope := Some(s.runs[cands[0]].tenant);
        if |RunningIn(s.runs, scope)| >= Cap(cfg, scope) then s.(stage := s.stage[w := Checked(cands[1..])])
        else s.(stage := s.stage[w := Armed(cands)])
    case UpdateCandidate(w, leaseMs) =>
      var id := s.stage[w].cands[0];
      if Claimable(s.runs[id], s.now) then
        s.(runs := s.runs[id := Claimed(s.runs[id], w, s.now, leaseMs)],
           stage := s.stage[w := Idle],
           log := s.log + [Claim(id, w, s.now)])
      else s.(stage := s.stage[w := Checked(s.stage[w].cands[1..])])
    case RenewLease(id, w, leaseMs) =>
      if Renewable(s.runs[id], w, s.now) then s.(runs := s.runs[id := Renewed(s.runs[id], s.now, leaseMs)]) else s
    case FinishRun(id, w, outcome) =>
      if Finishable(s.runs[id], w) then
        s.(runs := s.runs[id := Finished(s.runs[id], outcome, s.now)], log := s.log + [Finish(id, w, outcome, s.now)])
      else s
    case RequeueExpired(limit, ids) =>
      s.(runs := RequeueAll(s.runs, ids), log := s.log + [Requeue(ids)])
  }

  ghost predicate Next(cfg: Config, s: State, s': State)
  {
    exists step :: Enabled(cfg, s, step) && s' == Apply(cfg, s, step)
  }

  ghost predicate Execution(cfg: Config, trace: seq<State>)
  {
    && trace != [] && Init(cfg, trace[0])
    && forall i :: 0 <= i < |trace| - 1 ==> Next(cfg, trace[i], trace[i + 1])
  }

  lemma {:induction false} StepAt(cfg: Config, trace: seq<State>, i: nat) returns (step: Step)
    requires Execution(cfg, trace) && i + 1 < |trace|
    ensures Enabled(cfg, trace[i], step) && trace[i + 1] == Apply(cfg, trace[i], step)
  {
    hide Enabled;
    hide Apply;
    assert Next(cfg, trace[i], trace[i + 1]);
    step :| Enabled(cfg, trace[i], step) && trace[i + 1] == Apply(cfg, trace[i], step);
  }

  // ---------------------------------------------------------------------------------------------
  // In-flight caps under interleaving
  // ---------------------------------------------------------------------------------------------

  function Busy(s: State): set<Worker>
  {
    set w | w in s.stage && !s.stage[w].Idle?
  }

  // Workers that passed the count of this scope and may still add one running row to it.
  function Committed(s: State, scope: Option<Tenant>): set<Worker>
  {
    set w | w in s.stage && MayStillClaim(s, s.stage[w], scope)
  }

  predicate MayStillClaim(s: State, stage: Stage, scope: Option<Tenant>)
  {
    if scope.None? then stage.Checked? || stage.Armed?
    else stage.Armed? && stage.cands != [] && stage.cands[0] in s.runs && s.runs[stage.cands[0]].tenant == scope.value
  }

  // No more than `overlap` claims are under way at once, at any point of the execution.
  predicate OverlapAtMost(trace: seq<State>, overlap: nat)
  {
    forall i :: 0 <= i < |trace| ==> |Busy(trace[i])| <= overlap
  }

  predicate CandidatesOf(stage: Stage, runs: Runs)
  {
    !stage.Idle? ==> forall i :: 0 <= i < |stage.cands| ==> stage.cands[i] in runs
  }

  predicate KnownCandidates(s: State)
  {
    forall w :: w in s.stage ==> CandidatesOf(s.stage[w], s.runs)
  }

  ghost predicate CapInv(cfg: Config, s: State, scope: Option<Tenant>, overlap: nat)
  {
    |RunningIn(s.runs, scope)| + |Committed(s, scope)| <= Cap(cfg, scope) - 1 + overlap
  }

  lemma {:induction false} KnownStep(cfg: Config, s: State, step: Step)
    requires Enabled(cfg, s, step) && KnownCandidates(s)
    ensures KnownCandidates(Apply(cfg, s, step))
    ensures s.runs.Keys <= Apply(cfg, s, step).runs.Keys
  {
  }

  // A step that lets no worker past a count and starts no run.
  lemma {:induction false} QuietStep(cfg: Config, s: State, s': State, scope: Option<Tenant>, overlap: nat)
    requires CapInv(cfg, s, scope, overlap)
    requires RunningIn(s'.runs, scope) <= RunningIn(s.runs, scope)
    requires Committed(s', scope) <= Committed(s, scope)
    ensures CapInv(cfg, s', scope, overlap)
  {
    SubsetSize(RunningIn(s'.runs, scope), RunningIn(s.runs, scope));
    SubsetSize(Committed(s', scope), Committed(s, scope));
  }

  // A step that passes a count: the scope was under its cap, whoever else is already committed.
  lemma {:induction false} PassStep(cfg: Config, s: State, s': State, scope: Option<Tenant>, overlap: nat)
    requires s'.runs == s.runs && |RunningIn(s.runs, scope)| < Cap(cfg, scope)
    requires |Busy(s')| <= overlap
    ensures CapInv(cfg, s', scope, overlap)
  {
    SubsetSize(Committed(s', scope), Busy(s'));
  }

  lemma {:induction false} ClaimStep(cfg: Config, s: State, w: Worker, leaseMs: nat, scope: Option<Tenant>, overlap: nat)
    requires Enabled(cfg, s, UpdateCandidate(w, leaseMs)) && CapInv(cfg, s, scope, overlap)
    ensures CapInv(cfg, Apply(cfg, s, UpdateCandidate(w, leaseMs)), scope, overlap)
  {
    var s' := Apply(cfg, s, UpdateCandidate(w, leaseMs));
    var id := s.stage[w].cands[0];
    assert forall v :: v in s.stage && v != w ==> s'.stage[v] == s.stage[v];
    if Claimable(s.runs[id], s.now) && InScope(s.runs[id], scope) {
      assert RunningIn(s'.runs, scope) == RunningIn(s.runs, scope) + {id};
      assert w in Committed(s, scope);
      assert Committed(s', scope) <= Committed(s, scope) - {w};
      SubsetSize(Committed(s', scope), Committed(s, scope) - {w});
    } else {
      QuietStep(cfg, s, s', scope, overlap);
    }
  }

  lemma {:induction false} CapStep(cfg: Config, s: State, step: Step, scope: Option<Tenant>, overlap: nat)
    requires Enabled(cfg, s, step) && KnownCandidates(s) && CapInv(cfg, s, scope, overlap)
    requires |Busy(Apply(cfg, s, step))| <= overlap
    ensures CapInv(cfg, Apply(cfg, s, step), scope, overlap)
  {
    var s' := Apply(cfg, s, step);
    match step
    case UpdateCandidate(w, leaseMs) => ClaimStep(cfg, s, w, leaseMs, scope, overlap);
    case CheckGlobal(w) =>
      if scope.None? && |RunningIn(s.runs, None)| < Cap(cfg, None) {
        PassStep(cfg, s, s', scope, overlap);
      } else {
        QuietStep(cfg, s, s', scope, overlap);
      }
    case CheckTenant(w) =>
      var cands := s.stage[w].cands;
      if cands != [] && scope == Some(s.runs[cands[0]].tenant) && |RunningIn(s.runs, scope)| < Cap(cfg, scope) {
        PassStep(cfg, s, s', scope, overlap);
      } else {
        QuietStep(cfg, s, s', scope, overlap);
      }
    case _ => QuietStep(cfg, s, s', scope, overlap);
  }

  /** With at most `overlap` claims under way at once, no cap is exceeded by more than overlap - 1. */
  lemma {:induction false} CapBound(cfg: Config, trace: seq<State>, i: nat, scope: Option<Tenant>, overlap: nat)
    requires Execution(cfg, trace) && i < |trace| && OverlapAtMost(trace, overlap)
    ensures KnownCandidates(trace[i]) && CapInv(cfg, trace[i], scope, overlap)
    ensures |RunningIn(trace[i].runs, scope)| <= Cap(cfg, scope) + overlap - 1
  {
    hide Enabled;
    hide Apply;
    if i == 0 {
      assert RunningIn(trace[0].runs, scope) == {};
      assert Committed(trace[0], scope) == {};
    } else {
      CapBound(cfg, trace, i - 1, scope, overlap);
      var step := StepAt(cfg, trace, i - 1);
      KnownStep(cfg, trace[i - 1], step);
      CapStep(cfg, trace[i - 1], step, scope, overlap);
    }
  }

  lemma {:induction false} StageKeys(cfg: Config, s: State, step: Step)
    requires Enabled(cfg, s, step)
    ensures Apply(cfg, s, step).stage.Keys == s.stage.Keys
  {
  }

  lemma {:induction false} BusyAreWorkers(cfg: Config, trace: seq<State>, i: nat)
    requires Execution(cfg, trace) && i < |trace|
    ensures trace[i].stage.Keys == cfg.workers && |Busy(trace[i])| <= |cfg.workers|
  {
    hide Enabled;
    hide Apply;
    if i > 0 {
      BusyAreWorkers(cfg, trace, i - 1);
      var step := StepAt(cfg, trace, i - 1);
      StageKeys(cfg, trace[i - 1], step);
    }
    SubsetSize(Busy(trace[i]), cfg.workers);
  }

  /** N workers never hold more than max(cap, 1) + N - 1 running rows, globally and in every tenant. */
  lemma {:induction false} WorkersCapBound(cfg: Config, trace: seq<State>, i: nat, scope: Option<Tenant>)
    requires Execution(cfg, trace) && i < |trace|
    ensures |RunningIn(trace[i].runs, scope)| <= Cap(cfg, scope) + |cfg.workers| - 1
  {
    forall k | 0 <= k < |trace|
      ensures |Busy(trace[k])| <= |cfg.workers|
    {
      BusyAreWorkers(cfg, trace, k);
    }
    CapBound(cfg, trace, i, scope, |cfg.workers|);
  }

  /** When claims do not interleave, the caps themselves hold. */
  lemma {:induction false} SequentialCap(cfg: Config, trace: seq<State>, i: nat, scope: Option<Tenant>)
    requires Execution(cfg, trace) && i < |trace| && OverlapAtMost(trace, 1)
    ensures |RunningIn(trace[i].runs, scope)| <= Cap(cfg, scope)
  {
    CapBound(cfg, trace, i, scope, 1);
  }
}
