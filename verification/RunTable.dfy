// The `runs` table: one row per run, and the guarded statements that change a row.
module RunTable {
  import opened Prelude
  import Text
  import Json

  type RunId = nat
  type Worker = string
  type Tenant = string

  datatype Status = Queued | Running | Succeeded | Failed

  datatype Run = Run(
    tenant: Tenant,
    status: Status,
    attempts: nat,
    leaseOwner: Option<Worker>,
    leaseExpiresAt: Option<Time>,
    createdAt: Time,
    startedAt: Option<Time>,
    finishedAt: Option<Time>,
    queueClass: Option<string>,
    llmQueueClass: Option<string>,
    dedupeKey: Option<Json.Json>)

  type Runs = map<RunId, Run>

  predicate Active(r: Run)
  {
    r.status.Queued? || r.status.Running?
  }

  predicate Terminal(r: Run)
  {
    r.status.Succeeded? || r.status.Failed?
  }

  // What the INSERT statements of the create paths write: status queued, no lease, no attempt yet.
  predicate Fresh(r: Run, now: Time)
  {
    && r.status.Queued? && r.attempts == 0 && r.leaseOwner.None? && r.leaseExpiresAt.None?
    && r.createdAt == now && r.startedAt.None? && r.finishedAt.None?
  }

  // clamp_lease_ms, as a duration
  function LeaseFor(ms: nat): (d: int)
    ensures d > 0
  {
    Max(1, Min(ms, 0x7FFF_FFFF_FFFF_FFFF)) * MILLISECOND
  }

  predicate Claimable(r: Run, now: Time)
  {
    r.status.Queued? && (r.leaseExpiresAt.None? || r.leaseExpiresAt.value < now)
  }

  function Claimed(r: Run, worker: Worker, now: Time, leaseMs: nat): Run
  {
    r.(status := Running,
       startedAt := if r.startedAt.None? then Some(now) else r.startedAt,
       attempts := r.attempts + 1,
       leaseOwner := Some(worker),
       leaseExpiresAt := Some(now + LeaseFor(leaseMs)))
  }

  predicate Renewable(r: Run, worker: Worker, now: Time)
  {
    && r.status.Running? && r.leaseOwner == Some(worker)
    && r.leaseExpiresAt.Some? && r.leaseExpiresAt.value > now
  }

  function Renewed(r: Run, now: Time, leaseMs: nat): Run
  {
    r.(leaseExpiresAt := Some(now + LeaseFor(leaseMs)))
  }

  // Postgres mark_run_succeeded and mark_run_failed
  predicate Finishable(r: Run, worker: Worker)
  {
    r.status.Running? && r.leaseOwner == Some(worker)
  }

  // The SQLite statements also accept a row that has no owner.
  predicate FinishableSqlite(r: Run, worker: Worker)
  {
    r.status.Running? && (r.leaseOwner == Some(worker) || r.leaseOwner.None?)
  }

  function Finished(r: Run, outcome: Status, now: Time): Run
  {
    r.(status := outcome, finishedAt := Some(now), leaseOwner := None, leaseExpiresAt := None)
  }

  predicate Expired(r: Run, now: Time)
  {
    r.status.Running? && r.leaseExpiresAt.Some? && r.leaseExpiresAt.value < now
  }

  function Requeued(r: Run): Run
  {
    r.(status := Queued, leaseOwner := None, leaseExpiresAt := None)
  }

  function ExpiredIds(runs: Runs, now: Time): set<RunId>
  {
    set id | id in runs && Expired(runs[id], now)
  }

  // The rows picked by requeue_expired_runs on its own: the `limit` earliest expired leases.
  predicate RequeueChoice(runs: Runs, now: Time, limit: int, ids: set<RunId>)
  {
    && ids <= ExpiredIds(runs, now)
    && |ids| == Min(Max(limit, 0), |ExpiredIds(runs, now)|)
    && forall a, b :: a in ids && b in ExpiredIds(runs, now) - ids ==>
         runs[a].leaseExpiresAt.value <= runs[b].leaseExpiresAt.value
  }

  // With other statements about, locked rows are skipped: any expired leases up to the limit.
  predicate RequeueAllowed(runs: Runs, now: Time, limit: int, ids: set<RunId>)
  {
    ids <= ExpiredIds(runs, now) && |ids| <= Max(limit, 0)
  }

  function RequeueAll(runs: Runs, ids: set<RunId>): Runs
    requires ids <= runs.Keys
  {
    map id | id in runs :: if id in ids then Requeued(runs[id]) else runs[id]
  }

  // COUNT(*) over running rows, of one tenant or (scope None) of the whole table.
  predicate InScope(r: Run, scope: Option<Tenant>)
  {
    scope.None? || r.tenant == scope.value
  }

  function RunningIn(runs: Runs, scope: Option<Tenant>): set<RunId>
  {
    set id | id in runs && runs[id].status.Running? && InScope(runs[id], scope)
  }

  // The partial unique index over (tenant_id, semantic_dedupe_key) of active rows; NULL keys never collide.
  predicate Collides(r: Run, tenant: Tenant, key: Option<Json.Json>)
  {
    key.Some? && Active(r) && r.tenant == tenant && r.dedupeKey == key
  }

  predicate InsertAllowed(runs: Runs, row: Run)
  {
    forall id :: id in runs ==> !Collides(runs[id], row.tenant, row.dedupeKey)
  }

  // The class text compared by the ORDER BY clauses.
  function QueueClass(queueClass: Option<string>, llmQueueClass: Option<string>): string
  {
    Text.Lower(
      if queueClass.Some? then queueClass.value
      else if llmQueueClass.Some? then llmQueueClass.value
      else "interactive")
  }

  const BATCH_AGING: int := 15 * MINUTE

  // 1 for a batch row younger than fifteen minutes, otherwise 0
  function Rank(r: Run, now: Time): int
  {
    var cls := QueueClass(r.queueClass, r.llmQueueClass);
    if cls == "batch" && r.createdAt <= now - BATCH_AGING then 0
    else if cls == "interactive" then 0
    else if cls == "batch" then 1
    else 0
  }

  // Strictly earlier in ORDER BY rank, created_at
  predicate Before(a: Run, b: Run, now: Time)
  {
    Rank(a, now) < Rank(b, now) || (Rank(a, now) == Rank(b, now) && a.createdAt < b.createdAt)
  }

  // ---------------------------------------------------------------------------------------------
  // Queue classes, as the columns spell them
  // ---------------------------------------------------------------------------------------------

  // The text is the lower-case word, in any mix of cases.
  predicate Spells(text: string, word: string)
  {
    |text| == |word| &&
    forall i :: 0 <= i < |word| ==>
      text[i] == word[i] || ('A' <= text[i] <= 'Z' && text[i] as int + 32 == word[i] as int)
  }

  // The first column that is present decides; without either the class is interactive.
  predicate InClass(queueClass: Option<string>, llmQueueClass: Option<string>, word: string)
  {
    if queueClass.Some? then Spells(queueClass.value, word)
    else if llmQueueClass.Some? then Spells(llmQueueClass.value, word)
    else word == "interactive"
  }

  predicate LowerCase(word: string)
  {
    forall i :: 0 <= i < |word| ==> !('A' <= word[i] <= 'Z')
  }

  lemma {:induction false} SpellsLower(text: string, word: string)
    requires LowerCase(word)
    ensures Text.Lower(text) == word <==> Spells(text, word)
  {
    var low := Text.Lower(text);
    if Spells(text, word) {
      assert forall i :: 0 <= i < |low| ==> low[i] == word[i];
    }
  }

  lemma {:induction false} ClassMeaning(queueClass: Option<string>, llmQueueClass: Option<string>, word: string)
    requires LowerCase(word)
    ensures QueueClass(queueClass, llmQueueClass) == word <==> InClass(queueClass, llmQueueClass, word)
  {
    if queueClass.Some? {
      SpellsLower(queueClass.value, word);
    } else if llmQueueClass.Some? {
      SpellsLower(llmQueueClass.value, word);
    } else {
      Text.LowerUnchanged("interactive");
    }
  }

  // Batch work, by any spelling, that has waited less than fifteen minutes.
  predicate YoungBatch(queueClass: Option<string>, llmQueueClass: Option<string>, since: Time, now: Time)
  {
    InClass(queueClass, llmQueueClass, "batch") && now - since < 900_000_000_000
  }

  lemma {:induction false} RankMeaning(r: Run, now: Time)
    ensures Rank(r, now) == if YoungBatch(r.queueClass, r.llmQueueClass, r.createdAt, now) then 1 else 0
  {
    hide InClass;
    hide QueueClass;
    ClassMeaning(r.queueClass, r.llmQueueClass, "batch");
    assert "batch" != "interactive";
  }

  // A result list of the candidate query: claimable rows, each once, in query order.
  predicate OrderedCandidates(runs: Runs, now: Time, cands: seq<RunId>)
  {
    && Distinct(cands)
    && (forall i :: 0 <= i < |cands| ==> cands[i] in runs && Claimable(runs[cands[i]], now))
    && (forall i, j :: 0 <= i < j < |cands| ==> !Before(runs[cands[j]], runs[cands[i]], now))
  }

  const CANDIDATE_LIMIT: nat := 64
}
