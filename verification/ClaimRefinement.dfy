// A claim that runs without interference is a run of the protocol's steps.
module ClaimRefinement {
  import opened Prelude
  import opened RunTable
  import opened ClaimProtocol
  import opened CapTightness
  import opened RunStore

  // The table after a claim of the chosen run, if any.
  function AfterClaim(runs: Runs, chosen: Option<RunId>, w: Worker, now: Time, leaseMs: nat): Runs
    requires chosen.Some? ==> chosen.value in runs
  {
    if chosen.None? then runs else runs[chosen.value := Claimed(runs[chosen.value], w, now, leaseMs)]
  }

  predicate AllClaimable(s: State, cands: seq<RunId>)
  {
    forall i :: 0 <= i < |cands| ==> cands[i] in s.runs && Claimable(s.runs[cands[i]], s.now)
  }

  // The candidate loop, from the point where the global count has been passed.
  lemma {:induction false} LoopReaches(cfg: Config, s: State, w: Worker, cands: seq<RunId>, leaseMs: nat) returns (s': State)
    requires Reachable(cfg, s) && w in s.stage && s.stage[w] == Checked(cands) && AllClaimable(s, cands)
    ensures Reachable(cfg, s') && s'.now == s.now && s'.stage == s.stage[w := Idle]
    ensures s'.runs == AfterClaim(s.runs, Choose(s.runs, cands, cfg.tenantMax), w, s.now, leaseMs)
    decreases |cands|
  {
    hide Reachable;
    s' := ReachStep(cfg, s, CheckTenant(w));
    if cands != [] {
      if TenantFull(s.runs, s.runs[cands[0]].tenant, cfg.tenantMax) {
        s' := LoopReaches(cfg, s', w, cands[1..], leaseMs);
      } else {
        s' := ReachStep(cfg, s', UpdateCandidate(w, leaseMs));
      }
    }
  }

  /** Whatever an undisturbed claim does is reached by protocol steps of that worker, so that everything
      proved of all executions holds after it. */
  lemma {:induction false} ClaimStaysReachable(cfg: Config, s: State, w: Worker, cands: seq<RunId>, leaseMs: nat) returns (s': State)
    requires Reachable(cfg, s) && w in s.stage && s.stage[w].Idle? && FirstPage(s.runs, s.now, cands)
    ensures Reachable(cfg, s') && s'.now == s.now && s'.stage == s.stage
    ensures s'.runs ==
            AfterClaim(s.runs, ClaimChoice(s.runs, cands, cfg.globalMax, cfg.tenantMax), w, s.now, leaseMs)
  {
    hide Reachable;
    hide Choose;
    s' := s;
    if cands != [] {
      s' := ReachStep(cfg, s, SelectCandidates(w, cands));
      s' := ReachStep(cfg, s', CheckGlobal(w));
      if |RunningIn(s.runs, None)| < Cap(cfg, None) {
        s' := LoopReaches(cfg, s', w, cands, leaseMs);
      }
    }
  }
}
