// What every interleaving of the queue statements keeps about a single run.
module RunLifecycle {
  import opened Prelude
  import opened RunTable
  import opened ClaimProtocol

  // The abstract life of a run, read off the history alone: who holds it, how often it was claimed and
  // finished, and when it was first claimed and how it ended. None of these functions looks at the table.

  datatype Life = Life(
    enqueues: nat,
    claims: nat,
    finishes: nat,
    holder: Option<Worker>,
    begun: Option<Time>,
    ended: Option<(Status, Time)>)

  const UNBORN := Life(0, 0, 0, None, None, None)

  // Events after which nobody holds the run.
  predicate Releases(e: Event, id: RunId)
  {
    (e.Finish? && e.id == id) || (e.Requeue? && id in e.ids)
  }

  function LifeAfter(l: Life, e: Event, id: RunId): Life
  {
    Life(
      l.enqueues + (if e == Enqueue(id) then 1 else 0),
      l.claims + (if e.Claim? && e.id == id then 1 else 0),
      l.finishes + (if e.Finish? && e.id == id then 1 else 0),
      if e.Claim? && e.id == id then Some(e.worker) else if Releases(e, id) then None else l.holder,
      if e.Claim? && e.id == id && l.begun.None? then Some(e.at) else l.begun,
      if e.Finish? && e.id == id then Some((e.outcome, e.at)) else l.ended)
  }

  function LifeOf(log: seq<Event>, id: RunId): Life
  {
    if log == [] then UNBORN else LifeAfter(LifeOf(log[..|log| - 1], id), log[|log| - 1], id)
  }

  // The lease automaton: only an enqueued, unheld, unfinished run is claimed; only the worker of the
  // latest claim finishes it, once; only a held run is requeued.
  predicate Legal(log: seq<Event>, e: Event)
  {
    match e
    case Enqueue(id) => LifeOf(log, id).enqueues == 0
    case Claim(id, _, _) => LifeOf(log, id).enqueues == 1 && LifeOf(log, id).holder.None? && LifeOf(log, id).finishes == 0
    case Finish(id, w, _, _) => LifeOf(log, id).holder == Some(w) && LifeOf(log, id).finishes == 0
    case Requeue(ids) => AllHeld(log, ids)
  }

  predicate AllHeld(log: seq<Event>, ids: set<RunId>)
  {
    forall id :: id in ids ==> LifeOf(log, id).holder.Some?
  }

  predicate LegalHistory(log: seq<Event>)
  {
    log != [] ==> LegalHistory(log[..|log| - 1]) && Legal(log[..|log| - 1], log[|log| - 1])
  }

  lemma {:induction false} HistoryPush(log: seq<Event>, e: Event, id: RunId)
    ensures LifeOf(log + [e], id) == LifeAfter(LifeOf(log, id), e, id)
    ensures LegalHistory(log + [e]) <==> LegalHistory(log) && Legal(log, e)
  {
    assert (log + [e])[..|log|] == log;
  }

  // How a row must look, given only the life of its run.
  predicate RowMatches(r: Run, l: Life)
  {
    && l.enqueues == 1
    && r.attempts == l.claims
    && r.leaseOwner == l.holder
    && (r.status.Running? <==> r.leaseOwner.Some?)
    && (r.leaseExpiresAt.Some? <==> r.leaseOwner.Some?)
    && r.startedAt == l.begun
    && (if l.ended.Some? then r.status == l.ended.value.0 && r.finishedAt == Some(l.ended.value.1) && Terminal(r)
        else r.finishedAt.None? && !Terminal(r))
    && l.finishes == if Terminal(r) then 1 else 0
  }

  predicate EntryMatches(runs: Runs, id: RunId, l: Life)
  {
    if id in runs then RowMatches(runs[id], l) else l == UNBORN
  }

  predicate RowInv(s: State, id: RunId)
  {
    EntryMatches(s.runs, id, LifeOf(s.log, id))
  }

  ghost predicate LifecycleInv(s: State)
  {
    LegalHistory(s.log) && forall id :: RowInv(s, id)
  }

  lemma {:induction false} EntryStep(cfg: Config, s: State, step: Step, id: RunId, l: Life)
    requires Enabled(cfg, s, step) && EntryMatches(s.runs, id, l)
    ensures var s' := Apply(cfg, s, step);
            if |s'.log| > |s.log| then EntryMatches(s'.runs, id, LifeAfter(l, s'.log[|s.log|], id))
            else s'.log == s.log && EntryMatches(s'.runs, id, l)
  {
  }

  lemma {:induction false} RowStep(cfg: Config, s: State, step: Step, id: RunId)
    requires Enabled(cfg, s, step) && RowInv(s, id)
    ensures RowInv(Apply(cfg, s, step), id)
  {
    var s' := Apply(cfg, s, step);
    EntryStep(cfg, s, step, id, LifeOf(s.log, id));
    if |s'.log| > |s.log| {
      HistoryPush(s.log, s'.log[|s.log|], id);
      assert s'.log == s.log + [s'.log[|s.log|]];
    }
  }

  // The event a step records is legal after the history so far.
  lemma {:induction false} LegalEvent(cfg: Config, s: State, step: Step)
    requires Enabled(cfg, s, step) && LifecycleInv(s) && |Apply(cfg, s, step).log| > |s.log|
    ensures Legal(s.log, Apply(cfg, s, step).log[|s.log|])
  {
    hide LegalHistory;
    hide LifeOf;
    match step
    case CreateRun(id, _) => assert RowInv(s, id);
    case UpdateCandidate(w, _) => assert RowInv(s, s.stage[w].cands[0]);
    case FinishRun(id, _, _) => assert RowInv(s, id);
    case RequeueExpired(_, ids) =>
      forall id | id in ids
        ensures LifeOf(s.log, id).holder.Some?
      {
        assert RowInv(s, id);
      }
    case _ =>
  }

  lemma {:induction false} LogGrows(cfg: Config, s: State, step: Step)
    requires Enabled(cfg, s, step)
    ensures var log := Apply(cfg, s, step).log; log == s.log || (|log| == |s.log| + 1 && log == s.log + [log[|s.log|]])
  {
  }

  lemma {:induction false} LegalStep(cfg: Config, s: State, step: Step)
    requires Enabled(cfg, s, step) && LifecycleInv(s)
    ensures LegalHistory(Apply(cfg, s, step).log)
  {
    LogGrows(cfg, s, step);
    if |Apply(cfg, s, step).log| > |s.log| {
      LegalEvent(cfg, s, step);
      hide Enabled;
      hide Apply;
      HistoryPush(s.log, Apply(cfg, s, step).log[|s.log|], 0);
    }
  }

  /** Over every interleaving the history is legal and every row agrees with its own history. */
  lemma {:induction false} LifecycleHolds(cfg: Config, trace: seq<State>, i: nat)
    requires Execution(cfg, trace) && i < |trace|
    ensures LifecycleInv(trace[i])
  {
    hide Enabled;
    hide Apply;
    if i > 0 {
      LifecycleHolds(cfg, trace, i - 1);
      var step := StepAt(cfg, trace, i - 1);
      LegalStep(cfg, trace[i - 1], step);
      forall id
        ensures RowInv(trace[i], id)
      {
        RowStep(cfg, trace[i - 1], step, id);
      }
    }
  }

  /** Every finish in the history is by the worker of the latest claim, and is the run's only one. */
  lemma {:induction false} FinisherHeldTheRun(log: seq<Event>, i: nat)
    requires LegalHistory(log) && i < |log| && log[i].Finish?
    ensures LifeOf(log[..i], log[i].id).holder == Some(log[i].worker)
    ensures forall j :: 0 <= j < |log| && log[j].Finish? && log[j].id == log[i].id ==> j == i
  {
    LegalPrefix(log, i + 1);
    assert log[..i + 1][..i] == log[..i];
    forall j | 0 <= j < |log| && log[j].Finish? && log[j].id == log[i].id
      ensures j == i
    {
      LegalPrefix(log, j + 1);
      assert log[..j + 1][..j] == log[..j];
      if j < i {
        FinishCounted(log[..i], j);
      } else if i < j {
        FinishCounted(log[..j], i);
      }
    }
  }

  lemma {:induction false} LegalPrefix(log: seq<Event>, n: nat)
    requires LegalHistory(log) && n <= |log|
    ensures LegalHistory(log[..n])
    decreases |log|
  {
    if n < |log| {
      LegalPrefix(log[..|log| - 1], n);
      assert log[..|log| - 1][..n] == log[..n];
    } else {
      assert log[..n] == log;
    }
  }

  lemma {:induction false} FinishCounted(log: seq<Event>, i: nat)
    requires i < |log| && log[i].Finish?
    ensures LifeOf(log, log[i].id).finishes >= 1
  {
    if i < |log| - 1 {
      FinishCounted(log[..|log| - 1], i);
    }
  }

  lemma {:induction false} TerminalStep(cfg: Config, s: State, step: Step, id: RunId)
    requires Enabled(cfg, s, step) && id in s.runs && Terminal(s.runs[id])
    ensures id in Apply(cfg, s, step).runs && Apply(cfg, s, step).runs[id] == s.runs[id]
  {
  }

  /** Terminal rows are absorbing: nothing in any execution ever changes one again. */
  lemma {:induction false} TerminalIsAbsorbing(cfg: Config, trace: seq<State>, i: nat, j: nat, id: RunId)
    requires Execution(cfg, trace) && i <= j < |trace|
    requires id in trace[i].runs && Terminal(trace[i].runs[id])
    ensures id in trace[j].runs && trace[j].runs[id] == trace[i].runs[id]
    decreases j
  {
    hide Enabled;
    hide Apply;
    if i < j {
      TerminalIsAbsorbing(cfg, trace, i, j - 1, id);
      var step := StepAt(cfg, trace, j - 1);
      TerminalStep(cfg, trace[j - 1], step, id);
    }
  }

  // ---------------------------------------------------------------------------------------------
  // Leases
  // ---------------------------------------------------------------------------------------------

  predicate HeldBy(runs: Runs, id: RunId, w: Worker)
  {
    id in runs && runs[id].status.Running? && runs[id].leaseOwner == Some(w) && runs[id].leaseExpiresAt.Some?
  }

  // The lease length in nanoseconds: the given milliseconds, at least one, within 64 bits.
  function Nanoseconds(leaseMs: nat): int
  {
    (if leaseMs == 0 then 1 else if leaseMs > 9_223_372_036_854_775_807 then 9_223_372_036_854_775_807 else leaseMs)
    * 1_000_000
  }

  /** A claim leases the run to the worker for exactly the given time, counted from now, as one more attempt. */
  lemma {:induction false} ClaimLeases(cfg: Config, s: State, w: Worker, leaseMs: nat)
    requires Enabled(cfg, s, UpdateCandidate(w, leaseMs))
    ensures var s' := Apply(cfg, s, UpdateCandidate(w, leaseMs)); var id := s.stage[w].cands[0];
            if s.runs[id].status.Queued? && (s.runs[id].leaseExpiresAt.Some? ==> s.runs[id].leaseExpiresAt.value < s.now)
            then && HeldBy(s'.runs, id, w) && s'.runs[id].leaseExpiresAt == Some(s.now + Nanoseconds(leaseMs))
                 && s'.runs[id].attempts == s.runs[id].attempts + 1 && s'.runs == s.runs[id := s'.runs[id]]
            else s'.runs == s.runs
  {
  }

  /** A renewal counts from now, and is accepted exactly from the holder of a lease still running. */
  lemma {:induction false} RenewalTerms(cfg: Config, s: State, id: RunId, w: Worker, leaseMs: nat)
    requires Enabled(cfg, s, RenewLease(id, w, leaseMs))
    ensures Apply(cfg, s, RenewLease(id, w, leaseMs)).runs ==
            if HeldBy(s.runs, id, w) && s.now < s.runs[id].leaseExpiresAt.value
            then s.runs[id := s.runs[id].(leaseExpiresAt := Some(s.now + Nanoseconds(leaseMs)))] else s.runs
  {
  }

  lemma {:induction false} LeaseStep(cfg: Config, s: State, step: Step, id: RunId, w: Worker)
    requires Enabled(cfg, s, step) && HeldBy(s.runs, id, w) && s.now <= s.runs[id].leaseExpiresAt.value
    ensures var s' := Apply(cfg, s, step); HeldBy(s'.runs, id, w) || (id in s'.runs && Terminal(s'.runs[id]))
  {
  }

  /** A lease protects its run: over any interleaving, as long as the lease has not run out, the run stays with
      its holder until it is finished. */
  lemma {:induction false} LeaseProtects(cfg: Config, trace: seq<State>, i: nat, j: nat, id: RunId, w: Worker)
    requires Execution(cfg, trace) && i <= j < |trace| && HeldBy(trace[i].runs, id, w)
    requires forall k :: i <= k < j && HeldBy(trace[k].runs, id, w) ==>
               trace[k].now <= trace[k].runs[id].leaseExpiresAt.value
    ensures HeldBy(trace[j].runs, id, w) || (id in trace[j].runs && Terminal(trace[j].runs[id]))
    decreases j
  {
    hide Enabled;
    hide Apply;
    if i < j {
      LeaseProtects(cfg, trace, i, j - 1, id, w);
      var step := StepAt(cfg, trace, j - 1);
      if HeldBy(trace[j - 1].runs, id, w) {
        LeaseStep(cfg, trace[j - 1], step, id, w);
      } else {
        TerminalStep(cfg, trace[j - 1], step, id);
      }
    }
  }

  /** A lease that has run out is lost exactly then: a requeue may take the run, and leaves it claimable. */
  lemma {:induction false} LapsedLeaseReturns(cfg: Config, s: State, id: RunId, w: Worker)
    requires HeldBy(s.runs, id, w)
    ensures Enabled(cfg, s, RequeueExpired(1, {id})) <==> s.runs[id].leaseExpiresAt.value < s.now
    ensures s.runs[id].leaseExpiresAt.value < s.now ==>
              var s' := Apply(cfg, s, RequeueExpired(1, {id}));
              && s'.runs == s.runs[id := s'.runs[id]] && Claimable(s'.runs[id], s.now)
              && s'.runs[id].attempts == s.runs[id].attempts
  {
    assert {id} <= ExpiredIds(s.runs, s.now) <==> id in ExpiredIds(s.runs, s.now);
  }

  /** The two backends' finish guards differ exactly on a running row without an owner. */
  lemma {:induction false} BackendGuards(r: Run)
    ensures (forall w :: FinishableSqlite(r, w) <==> Finishable(r, w)) <==> !(r.status.Running? && r.leaseOwner.None?)
  {
    if r.status.Running? && r.leaseOwner.None? {
      assert FinishableSqlite(r, "worker") && !Finishable(r, "worker");
    }
  }

  /** On every reachable state SQLite and Postgres accept the same finish statements. */
  lemma {:induction false} BackendsAgree(cfg: Config, trace: seq<State>, i: nat, id: RunId, w: Worker)
    requires Execution(cfg, trace) && i < |trace| && id in trace[i].runs
    ensures FinishableSqlite(trace[i].runs[id], w) <==> Finishable(trace[i].runs[id], w)
  {
    LifecycleHolds(cfg, trace, i);
    assert RowInv(trace[i], id);
  }

  // ---------------------------------------------------------------------------------------------
  // The partial unique index over active rows
  // ---------------------------------------------------------------------------------------------

  predicate SameKey(r: Run, other: Run)
  {
    Collides(r, other.tenant, other.dedupeKey)
  }

  // At most one queued or running run per tenant and dedupe key.
  predicate UniqueActive(runs: Runs)
  {
    forall a, b :: a in runs && b in runs && Active(runs[b]) && SameKey(runs[a], runs[b]) ==> a == b
  }

  lemma {:induction false} UniqueStep(cfg: Config, s: State, step: Step)
    requires Enabled(cfg, s, step) && UniqueActive(s.runs)
    ensures UniqueActive(Apply(cfg, s, step).runs)
  {
  }

  lemma {:induction false} ActiveKeysUnique(cfg: Config, trace: seq<State>, i: nat)
    requires Execution(cfg, trace) && i < |trace|
    ensures UniqueActive(trace[i].runs)
  {
    hide Enabled;
    hide Apply;
    if i > 0 {
      ActiveKeysUnique(cfg, trace, i - 1);
      var step := StepAt(cfg, trace, i - 1);
      UniqueStep(cfg, trace[i - 1], step);
    }
  }

  lemma {:induction false} ColumnsStep(cfg: Config, s: State, step: Step, id: RunId)
    requires Enabled(cfg, s, step) && id in s.runs
    ensures var s' := Apply(cfg, s, step);
            && id in s'.runs && s'.runs[id].tenant == s.runs[id].tenant
            && s'.runs[id].dedupeKey == s.runs[id].dedupeKey && s'.runs[id].createdAt == s.runs[id].createdAt
            && s'.runs[id].queueClass == s.runs[id].queueClass && s'.runs[id].llmQueueClass == s.runs[id].llmQueueClass
  {
  }

  /** Rows are never removed, and their tenant, key and creation time never change. */
  lemma {:induction false} ColumnsFixed(cfg: Config, trace: seq<State>, i: nat, j: nat, id: RunId)
    requires Execution(cfg, trace) && i <= j < |trace| && id in trace[i].runs
    ensures id in trace[j].runs
    ensures trace[j].runs[id].tenant == trace[i].runs[id].tenant
    ensures trace[j].runs[id].dedupeKey == trace[i].runs[id].dedupeKey
    ensures trace[j].runs[id].createdAt == trace[i].runs[id].createdAt
    ensures trace[j].runs[id].queueClass == trace[i].runs[id].queueClass
    ensures trace[j].runs[id].llmQueueClass == trace[i].runs[id].llmQueueClass
    decreases j
  {
    hide Enabled;
    hide Apply;
    if i < j {
      ColumnsFixed(cfg, trace, i, j - 1, id);
      var step := StepAt(cfg, trace, j - 1);
      ColumnsStep(cfg, trace[j - 1], step, id);
    }
  }
}
